/** Properties that span several requests against one store, proved from the handlers'
    contracts alone, the way a client of the routes would see them. */
module StoreProperties {
  import opened Common
  import opened Store

  /** The billing provider delivers at least once: a checkout event processed twice leaves
      the store as one processing left it, with one subscription row for the id, and the
      second delivery gets the same answer. */
  method CheckoutReplay(s: Store, sid: string, uid: Id, priceId: string, sub: ProviderSubscription)
    returns (first: WebhookResult, second: WebhookResult,
             ghost usersOnce: map<Id, User>, ghost subscriptionsOnce: map<string, Subscription>)
    requires s.Valid()
    modifies s`users, s`subscriptions
    ensures second == first
    ensures s.users == usersOnce && s.subscriptions == subscriptionsOnce
    ensures first == Received ==>
      && sid in s.subscriptions
      && s.subscriptions[sid].status == sub.status && s.subscriptions[sid].priceId == priceId
      && s.subscriptions[sid].startDate == MillisFromSeconds(sub.startDate)
      && s.subscriptions[sid].endDate == MillisFromSeconds(sub.currentPeriodEnd)
      && uid in s.users && s.users[uid].isPremium
  {
    var event := CheckoutSessionCompleted(Some(sid), Some(uid), Some(priceId));
    first := s.HandleWebhook(true, event, Some(sub));
    usersOnce, subscriptionsOnce := s.users, s.subscriptions;
    second := s.HandleWebhook(true, event, Some(sub));
    if CheckoutComplete(event) && !(sid !in old(s.subscriptions) && old(s.SubscriptionOf(uid)).Some?) {
      UpsertSubscriptionIdempotent(old(s.subscriptions), sid, uid, sub.status, priceId,
                                   MillisFromSeconds(sub.startDate), MillisFromSeconds(sub.currentPeriodEnd));
    }
  }

  /** The checkout handler marks the user premium whatever status the provider reports,
      and a later deletion event records the new status without touching the flag. A
      replayed checkout for a known subscription id keeps the row's original user. */
  method CheckoutThenCancel(s: Store, sid: string, uid: Id, priceId: string, sub: ProviderSubscription, canceled: string)
    returns (checkout: WebhookResult, deletion: WebhookResult)
    requires s.Valid()
    requires sid != "" && priceId != "" && uid in s.users
    requires sid in s.subscriptions || s.SubscriptionOf(uid).None?
    modifies s`users, s`subscriptions
    ensures checkout == Received && deletion == Received
    ensures sid in s.subscriptions && s.subscriptions[sid].status == canceled
    ensures old(sid !in s.subscriptions) ==> s.subscriptions[sid].userId == uid
    ensures uid in s.users && s.users[uid].isPremium
  {
    checkout := s.HandleWebhook(true, CheckoutSessionCompleted(Some(sid), Some(uid), Some(priceId)), Some(sub));
    deletion := s.HandleWebhook(true, SubscriptionDeleted(sid, canceled), None);
  }

  /** An invitation created at time t can be redeemed at any time up to t + 7 days and is
      refused as expired after that, even when the invitation email could not be sent;
      once redeemed, the same code is no longer valid. */
  method InviteThenRedeem(s: Store, email: string, familyId: Id, inviterId: Id, t: int, code: string,
                          sendSucceeds: bool, redeemAt: int)
    returns (sent: InviteResult, joined: VerifyResult, again: VerifyResult)
    requires s.Valid()
    requires IsNanoidCode(code) && code !in s.invitations
    requires familyId in s.families
    requires forall u :: u in s.users && s.users[u].email == email ==> MemberKey(u, familyId) !in s.members
    modifies s
    ensures sent == (if sendSucceeds then InvitationSent else SendFailed)
    ensures joined == if redeemAt <= t + InviteLifetimeMs then Joined(familyId) else CodeExpired
    ensures joined.Joined? ==> again == InvalidCode
    ensures joined.Joined? ==> exists u :: u in s.users && s.users[u].email == email && MemberKey(u, familyId) in s.members
  {
    var mail;
    sent, mail := s.Invite(email, familyId, inviterId, t, code, sendSucceeds);
    joined := s.VerifyCode(Some(code), redeemAt);
    again := s.VerifyCode(Some(code), redeemAt);
  }

  /** Redemption is single-use: after a successful redemption the code is gone. */
  method RedeemTwice(s: Store, code: Option<string>, now: int, later: int)
    returns (first: VerifyResult, second: VerifyResult)
    requires s.Valid()
    modifies s
    ensures first.Joined? ==> second == InvalidCode
    ensures first.CodeExpired? && later >= now ==> second == CodeExpired
  {
    first := s.VerifyCode(code, now);
    second := s.VerifyCode(code, later);
  }

  /** Polling twice leaves the store as polling once did, with the same answer. */
  method PollTwice(s: Store, session: Session)
    returns (first: PollResult, second: PollResult, ghost usersOnce: map<Id, User>)
    requires s.Valid()
    modifies s`users
    ensures second == first && s.users == usersOnce
  {
    first := s.PollSubscription(session);
    usersOnce := s.users;
    second := s.PollSubscription(session);
  }

  /** A user founds at most one main family: after creating one, a second attempt is
      refused, and the created family is listed for its founder. */
  method CreateFamilyTwice(s: Store, u: Id, name: string, otherName: string)
    returns (first: CreateFamilyResult, second: CreateFamilyResult)
    requires s.Valid() && s.AtMostOneMain()
    modifies s
    ensures s.Valid() && s.AtMostOneMain()
    ensures first.FamilyCreated? <==> name != "" && u in old(s.users) && !old(s.HasMainFamily(Some(u)))
    ensures first.FamilyCreated? ==> second == MainFamilyExists
    ensures first.FamilyCreated? ==>
      var listed := s.ListFamilies(SignedIn(Some(u)));
      listed.FamilyList? && first.familyId in listed.families
  {
    first := s.CreateFamily(SignedIn(Some(u)), Some(name));
    second := s.CreateFamily(SignedIn(Some(u)), Some(otherName));
    if first.FamilyCreated? {
      assert MemberKey(u, first.familyId) in s.members;
    }
  }
}
