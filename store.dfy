/** The server-side state of Family Connect as one store with a table per entity, and
    one method per API route handler that changes it. Each handler runs its database
    calls one after the other, with no transaction around them, exactly as the routes
    do: a later step that fails leaves the earlier steps' writes in place. */
module Store {
  import opened Common
  import opened Roles

  datatype User = User(email: string, isPremium: bool)
  datatype Family = Family(name: string)
  /** A membership row is identified by its user and family: one row per pair. */
  datatype MemberKey = MemberKey(userId: Id, familyId: Id)
  datatype Membership = Membership(role: Role, isMainFamily: bool)
  /** Invitations are stored under their invite code. */
  datatype Invitation = Invitation(email: string, familyId: Id, invitedBy: Id, expiresAt: int)
  /** Subscriptions are stored under the billing provider's subscription id. */
  datatype Subscription = Subscription(userId: Id, status: string, priceId: string, startDate: int, endDate: int)

  /** What the session lookup yields: no session, or a session whose user may lack an id. */
  datatype Session = NoSession | SignedIn(userId: Option<Id>)

  /** Seven days, in milliseconds. */
  const InviteLifetimeMs: int := 7 * 24 * 60 * 60 * 1000
  const InviteCodeLength: nat := 10
  const ActiveStatus: string := "active"
  const InviteSubject: string := "Join Family Connect"
  const InviteIntro: string := "<p>You are invited to join the family group! copy the code below and paste it in the app to join the family group</p>\n      <p>Code: "

  /** The alphabet of nanoid's codes: A-Z, a-z, 0-9, '_' and '-'. */
  predicate UrlSafe(c: char)
  {
    ('A' <= c <= 'Z') || ('a' <= c <= 'z') || ('0' <= c <= '9') || c == '_' || c == '-'
  }

  /** A code as `nanoid(10)` produces it. */
  predicate IsNanoidCode(code: string)
  {
    |code| == InviteCodeLength && forall i :: 0 <= i < |code| ==> UrlSafe(code[i])
  }

  /** The invitation email the invite route sends: to the invitee, with the code in its body. */
  function InviteMail(email: string, code: string): (m: Mail)
    ensures m.to == email && m.replyTo.None? && m.subject == InviteSubject
    ensures Contains(m.html, code)
  {
    ContainsInfix(InviteIntro, code, "</p>");
    Mail(email, None, InviteSubject, InviteIntro + code + "</p>")
  }

  /** The billing provider gives times in seconds; the database stores milliseconds. */
  function MillisFromSeconds(seconds: int): int
  {
    seconds * 1000
  }

  datatype CreateFamilyResult = FamilyCreated(familyId: Id) | CreateUnauthorized | MainFamilyExists | NameRequired | CreateFailed
  {
    function Status(): int
    {
      match this
      case FamilyCreated(_) => 201
      case CreateUnauthorized => 401
      case MainFamilyExists => 400
      case NameRequired => 400
      case CreateFailed => 500
    }
  }

  datatype FamilyListResult = ListUnauthorized | UserIdMissing | FamilyList(families: map<Id, Family>)
  {
    function Status(): int
    {
      match this
      case ListUnauthorized => 401
      case UserIdMissing => 401
      case FamilyList(_) => 200
    }
  }

  /** InsertFailed: the invitation row could not be written; SendFailed: it was written
      but the email service failed. Both answer 500. */
  datatype InviteResult = InvitationSent | InsertFailed | SendFailed
  {
    function Status(): int
    {
      match this
      case InvitationSent => 200
      case InsertFailed => 500
      case SendFailed => 500
    }
  }

  datatype VerifyResult = CodeRequired | InvalidCode | CodeExpired | Joined(familyId: Id) | VerifyFailed
  {
    function Status(): int
    {
      match this
      case CodeRequired => 400
      case InvalidCode => 400
      case CodeExpired => 400
      case Joined(_) => 200
      case VerifyFailed => 500
    }
  }

  /** The webhook payloads the route reads (after signature verification). */
  datatype WebhookEvent =
    | CheckoutSessionCompleted(subscription: Option<string>, userId: Option<Id>, priceId: Option<string>)
    | SubscriptionDeleted(id: string, status: string)
    | OtherEvent(eventType: string)

  /** What the billing provider's subscription lookup returns; times in seconds. */
  datatype ProviderSubscription = ProviderSubscription(status: string, startDate: int, currentPeriodEnd: int)

  datatype WebhookResult = SignatureRejected | MissingData | Received | SaveFailed | Unhandled
  {
    function Status(): int
    {
      match this
      case SignatureRejected => 400
      case MissingData => 400
      case Received => 200
      case SaveFailed => 500
      case Unhandled => 200
    }
  }

  /** PollFailed: the user row to refresh is missing, so the update throws (500). */
  datatype PollResult = Polled(isSubscribed: bool) | PollFailed

  /** A checkout payload carries the three fields the handler needs. They are tested for
      truthiness, so an empty subscription id or price id counts as missing. */
  function CheckoutComplete(event: WebhookEvent): (b: bool)
    requires event.CheckoutSessionCompleted?
    ensures b ==> event.subscription.Some? && event.userId.Some? && event.priceId.Some?
    ensures event.subscription == Some("") || event.priceId == Some("") ==> !b
  {
    Present(event.subscription) && event.userId.Some? && Present(event.priceId)
  }

  /** The subscription upsert keyed by the provider's subscription id: an existing row
      gets the new status, plan and dates and keeps its user; otherwise one row is added. */
  function UpsertSubscription(subs: map<string, Subscription>, sid: string, userId: Id, status: string,
                              priceId: string, startDate: int, endDate: int): (r: map<string, Subscription>)
    ensures r.Keys == subs.Keys + {sid}
    ensures forall k :: k in subs && k != sid ==> r[k] == subs[k]
    ensures r[sid].status == status && r[sid].priceId == priceId
    ensures r[sid].startDate == startDate && r[sid].endDate == endDate
    ensures r[sid].userId == if sid in subs then subs[sid].userId else userId
  {
    if sid in subs then
      subs[sid := subs[sid].(status := status, priceId := priceId, startDate := startDate, endDate := endDate)]
    else
      subs[sid := Subscription(userId, status, priceId, startDate, endDate)]
  }

  /** Replaying the same upsert changes nothing more. */
  lemma UpsertSubscriptionIdempotent(subs: map<string, Subscription>, sid: string, userId: Id, status: string,
                                     priceId: string, startDate: int, endDate: int)
    ensures var once := UpsertSubscription(subs, sid, userId, status, priceId, startDate, endDate);
            UpsertSubscription(once, sid, userId, status, priceId, startDate, endDate) == once
  {
  }

  /** `updateMany` of the status of the rows with the given subscription id. */
  function SetStatus(subs: map<string, Subscription>, sid: string, status: string): (r: map<string, Subscription>)
    ensures r.Keys == subs.Keys
    ensures forall k :: k in r ==> r[k].userId == subs[k].userId && r[k].priceId == subs[k].priceId
    ensures forall k :: k in r ==> r[k].startDate == subs[k].startDate && r[k].endDate == subs[k].endDate
    ensures forall k :: k in r ==> r[k].status == if k == sid then status else subs[k].status
  {
    if sid in subs then subs[sid := subs[sid].(status := status)] else subs
  }

  ghost predicate KeysBelow<T>(table: map<Id, T>, bound: Id)
  {
    forall id :: id in table ==> id < bound
  }

  ghost predicate MembersReferToRows(members: map<MemberKey, Membership>, users: map<Id, User>, families: map<Id, Family>)
  {
    forall k :: k in members ==> k.userId in users && k.familyId in families
  }

  ghost predicate EmailsUnique(users: map<Id, User>)
  {
    forall a, b {:trigger users[a].email, users[b].email} ::
      a in users && b in users && users[a].email == users[b].email ==> a == b
  }

  ghost predicate OneSubscriptionPerUser(subscriptions: map<string, Subscription>)
  {
    forall s, t {:trigger subscriptions[s].userId, subscriptions[t].userId} ::
      s in subscriptions && t in subscriptions && subscriptions[s].userId == subscriptions[t].userId ==> s == t
  }

  ghost predicate CodesAreNanoid(invitations: map<string, Invitation>)
  {
    forall c :: c in invitations ==> IsNanoidCode(c)
  }

  ghost predicate OneMainFamilyPerUser(members: map<MemberKey, Membership>)
  {
    forall a, b {:trigger members[a].isMainFamily, members[b].isMainFamily} ::
      a in members && b in members && members[a].isMainFamily && members[b].isMainFamily && a.userId == b.userId
      ==> a == b
  }

  class Store {
    var users: map<Id, User>
    var families: map<Id, Family>
    var members: map<MemberKey, Membership>
    var invitations: map<string, Invitation>
    var subscriptions: map<string, Subscription>
    /** Every id handed out so far is below this one. */
    var nextId: Id
    /** Role and main-family flag the schema gives a membership created without them. */
    const defaultRole: Role
    const defaultMain: bool

    /** The database's constraints: fresh ids, membership foreign keys, unique emails,
        one subscription per user, invite codes as nanoid makes them. */
    ghost predicate Valid()
      reads this
    {
      && KeysBelow(users, nextId) && KeysBelow(families, nextId)
      && MembersReferToRows(members, users, families)
      && EmailsUnique(users)
      && OneSubscriptionPerUser(subscriptions)
      && CodesAreNanoid(invitations)
    }

    /** Every user has at most one main-family membership. */
    ghost predicate AtMostOneMain()
      reads this
    {
      OneMainFamilyPerUser(members)
    }

    /** `familyMember.findFirst({ userId, isMainFamily: true })`. A missing user id drops
        the filter on it, so then any main-family membership matches. */
    function HasMainFamily(userId: Option<Id>): (b: bool)
      reads this
      ensures userId.Some? ==>
        (b <==> exists f :: MemberKey(userId.value, f) in members && members[MemberKey(userId.value, f)].isMainFamily)
      ensures userId.None? ==>
        (b <==> exists u, f :: MemberKey(u, f) in members && members[MemberKey(u, f)].isMainFamily)
    {
      assert forall k :: k in members ==> MemberKey(k.userId, k.familyId) == k;
      exists k :: k in members && members[k].isMainFamily && (userId.None? || k.userId == userId.value)
    }

    /** `user.findUnique({ email })`. */
    ghost function UserWithEmail(email: string): (r: Option<Id>)
      reads this
      requires Valid()
      ensures r.Some? <==> exists u :: u in users && users[u].email == email
      ensures r.Some? ==> forall u :: u in users && users[u].email == email ==> u == r.value
    {
      if exists u :: u in users && users[u].email == email then
        Some(var u :| u in users && users[u].email == email; u)
      else None
    }

    /** `subscription.findUnique({ userId })`. */
    ghost function SubscriptionOf(userId: Id): (r: Option<Subscription>)
      reads this
      requires Valid()
      ensures r.Some? <==> exists sid :: sid in subscriptions && subscriptions[sid].userId == userId
      ensures r.Some? ==> forall sid :: sid in subscriptions && subscriptions[sid].userId == userId ==> subscriptions[sid] == r.value
    {
      if exists sid :: sid in subscriptions && subscriptions[sid].userId == userId then
        Some(var sid :| sid in subscriptions && subscriptions[sid].userId == userId; subscriptions[sid])
      else None
    }

    constructor (defaultRole: Role, defaultMain: bool)
      ensures Valid() && AtMostOneMain()
      ensures users == map[] && families == map[] && members == map[]
      ensures invitations == map[] && subscriptions == map[]
      ensures this.defaultRole == defaultRole && this.defaultMain == defaultMain
    {
      users, families, members := map[], map[], map[];
      invitations, subscriptions := map[], map[];
      nextId := 0;
      this.defaultRole, this.defaultMain := defaultRole, defaultMain;
    }

    /** POST /api/family: create a family whose founding member is the caller. */
    method CreateFamily(session: Session, name: Option<string>) returns (r: CreateFamilyResult)
      requires Valid()
      modifies this
      ensures Valid()
      ensures old(AtMostOneMain()) ==> AtMostOneMain()
      ensures r.CreateUnauthorized? <==> session.NoSession?
      ensures r.MainFamilyExists? <==> session.SignedIn? && old(HasMainFamily(session.userId))
      ensures r.NameRequired? <==> session.SignedIn? && !old(HasMainFamily(session.userId)) && !Present(name)
      ensures r.CreateFailed? <==>
        && session.SignedIn? && !old(HasMainFamily(session.userId)) && Present(name)
        && (session.userId.None? || session.userId.value !in old(users))
      ensures !r.FamilyCreated? ==> unchanged(this)
      ensures r.FamilyCreated? ==>
        && session.SignedIn? && session.userId.Some? && Present(name)
        && r.familyId !in old(families)
        && families == old(families)[r.familyId := Family(name.value)]
        && members == old(members)[MemberKey(session.userId.value, r.familyId) := Membership(Admin, true)]
        && (forall k :: k in members && k.familyId == r.familyId ==> k == MemberKey(session.userId.value, r.familyId))
        && users == old(users) && invitations == old(invitations) && subscriptions == old(subscriptions)
    {
      if session.NoSession? {
        return CreateUnauthorized;
      }
      if HasMainFamily(session.userId) {
        return MainFamilyExists;
      }
      if !Present(name) {
        return NameRequired;
      }
      if session.userId.None? || session.userId.value !in users {
        // the nested create violates the membership's user reference and is rolled back
        return CreateFailed;
      }
      var f := InsertFamilyWithFounder(session.userId.value, name.value);
      r := FamilyCreated(f);
    }

    /** `family.create` with a nested founding membership: the user becomes the family's
        admin and this is their main family. */
    method InsertFamilyWithFounder(u: Id, name: string) returns (f: Id)
      requires Valid() && u in users && !HasMainFamily(Some(u))
      modifies this`families, this`members, this`nextId
      ensures Valid()
      ensures old(AtMostOneMain()) ==> AtMostOneMain()
      ensures f !in old(families)
      ensures families == old(families)[f := Family(name)]
      ensures members == old(members)[MemberKey(u, f) := Membership(Admin, true)]
      ensures forall k :: k in members && k.familyId == f ==> k == MemberKey(u, f)
      ensures users == old(users) && invitations == old(invitations) && subscriptions == old(subscriptions)
    {
      f := nextId;
      families := families[f := Family(name)];
      members := members[MemberKey(u, f) := Membership(Admin, true)];
      nextId := nextId + 1;
    }

    /** GET /api/family: the families the caller belongs to. */
    function ListFamilies(session: Session): (r: FamilyListResult)
      reads this
      ensures r.ListUnauthorized? <==> session.NoSession?
      ensures r.UserIdMissing? <==> session.SignedIn? && session.userId.None?
      ensures r.FamilyList? ==> forall f :: f in r.families <==>
                f in families && exists k :: k in members && k.userId == session.userId.value && k.familyId == f
      ensures r.FamilyList? ==> forall f :: f in r.families ==> r.families[f] == families[f]
    {
      if session.NoSession? then ListUnauthorized
      else if session.userId.None? then UserIdMissing
      else
        var u := session.userId.value;
        assert forall k :: k in members && k.userId == u ==> k == MemberKey(u, k.familyId);
        FamilyList(map f | f in families && MemberKey(u, f) in members :: families[f])
    }

    /** POST /api/invite: store an invitation under a fresh code, then mail the code.
        Nothing is checked about the inviter or the family. */
    method Invite(email: string, familyId: Id, inviterId: Id, now: int, code: string, sendSucceeds: bool)
      returns (r: InviteResult, mail: Option<Mail>)
      requires Valid()
      requires IsNanoidCode(code)
      modifies this`invitations
      ensures Valid()
      ensures code in old(invitations) ==> r == InsertFailed && mail == None && invitations == old(invitations)
      ensures code !in old(invitations) ==>
        && invitations == old(invitations)[code := Invitation(email, familyId, inviterId, now + InviteLifetimeMs)]
        && mail == Some(InviteMail(email, code))
        && r == (if sendSucceeds then InvitationSent else SendFailed)
    {
      if code in invitations {
        // the invite code is unique: the insert throws
        return InsertFailed, None;
      }
      invitations := invitations[code := Invitation(email, familyId, inviterId, now + InviteLifetimeMs)];
      mail := Some(InviteMail(email, code));
      r := if sendSucceeds then InvitationSent else SendFailed;
    }

    /** POST /api/verify-code: redeem an invite code. */
    method VerifyCode(code: Option<string>, now: int) returns (r: VerifyResult)
      requires Valid()
      modifies this`users, this`members, this`invitations, this`nextId
      ensures Valid()
      ensures old(AtMostOneMain()) && !defaultMain ==> AtMostOneMain()
      ensures families == old(families) && subscriptions == old(subscriptions)
      ensures r.CodeRequired? <==> !Present(code)
      ensures r.InvalidCode? <==> Present(code) && code.value !in old(invitations)
      ensures r.CodeExpired? <==>
        Present(code) && code.value in old(invitations) && now > old(invitations)[code.value].expiresAt
      ensures r.CodeRequired? || r.InvalidCode? || r.CodeExpired? ==> unchanged(this)
      ensures r.Joined? || r.VerifyFailed? ==>
        var inv := old(invitations)[code.value];
        && (old(UserWithEmail(inv.email)).Some? ==> users == old(users) && nextId == old(nextId))
        && (old(UserWithEmail(inv.email)).None? ==>
              users == old(users)[old(nextId) := User(inv.email, false)] && nextId == old(nextId) + 1)
        && UserWithEmail(inv.email).Some?
      ensures r.VerifyFailed? ==>
        var inv := old(invitations)[code.value];
        var key := MemberKey(UserWithEmail(inv.email).value, inv.familyId);
        && (key in old(members) || inv.familyId !in families)
        && members == old(members) && invitations == old(invitations)
      ensures r.Joined? ==>
        var inv := old(invitations)[code.value];
        var key := MemberKey(UserWithEmail(inv.email).value, inv.familyId);
        && r.familyId == inv.familyId
        && key !in old(members) && inv.familyId in families
        && members == old(members)[key := Membership(defaultRole, defaultMain)]
        && invitations == old(invitations) - {code.value}
    {
      if !Present(code) {
        return CodeRequired;
      }
      var c := code.value;
      if c !in invitations {
        return InvalidCode;
      }
      var inv := invitations[c];
      if now > inv.expiresAt {
        return CodeExpired;
      }
      var u := UpsertUserByEmail(inv.email);
      var key := MemberKey(u, inv.familyId);
      if key in members || inv.familyId !in families {
        // the membership insert throws; the upserted user stays
        return VerifyFailed;
      }
      members := members[key := Membership(defaultRole, defaultMain)];
      invitations := invitations - {c};
      r := Joined(inv.familyId);
    }

    /** `user.upsert({ where: { email }, update: {}, create: { email } })`: an existing
        user with that email is left as it is; otherwise exactly one user is added. */
    method UpsertUserByEmail(email: string) returns (u: Id)
      requires Valid()
      modifies this`users, this`nextId
      ensures Valid()
      ensures UserWithEmail(email) == Some(u)
      ensures old(UserWithEmail(email)).Some? ==> users == old(users) && nextId == old(nextId)
      ensures old(UserWithEmail(email)).None? ==>
        u == old(nextId) && users == old(users)[u := User(email, false)] && nextId == old(nextId) + 1
      ensures families == old(families) && members == old(members)
      ensures invitations == old(invitations) && subscriptions == old(subscriptions)
    {
      if exists id :: id in users && users[id].email == email {
        u :| u in users && users[u].email == email;
      } else {
        u := nextId;
        users := users[u := User(email, false)];
        nextId := nextId + 1;
      }
      assert users[u].email == email;
    }

    /** POST /api/payment/webhook. `signatureValid` is the outcome of the signature check
        and `retrieved` the provider's subscription lookup (None when it throws). */
    method HandleWebhook(signatureValid: bool, event: WebhookEvent, retrieved: Option<ProviderSubscription>)
      returns (r: WebhookResult)
      requires Valid()
      modifies this`users, this`subscriptions
      ensures Valid()
      ensures !signatureValid ==> r == SignatureRejected && unchanged(this)
      ensures signatureValid && event.OtherEvent? ==> r == Unhandled && unchanged(this)
      ensures signatureValid && event.SubscriptionDeleted? ==>
        && r == Received && users == old(users)
        && subscriptions == SetStatus(old(subscriptions), event.id, event.status)
      ensures signatureValid && event.CheckoutSessionCompleted? && !CheckoutComplete(event) ==>
        r == MissingData && unchanged(this)
      ensures signatureValid && event.CheckoutSessionCompleted? && CheckoutComplete(event) ==>
        var sid, uid := event.subscription.value, event.userId.value;
        if retrieved.None? || (sid !in old(subscriptions) && old(SubscriptionOf(uid)).Some?) then
          r == SaveFailed && unchanged(this)
        else
          && subscriptions == UpsertSubscription(old(subscriptions), sid, uid, retrieved.value.status, event.priceId.value,
                                                 MillisFromSeconds(retrieved.value.startDate),
                                                 MillisFromSeconds(retrieved.value.currentPeriodEnd))
          && (uid in old(users) ==> r == Received && users == old(users)[uid := old(users)[uid].(isPremium := true)])
          && (uid !in old(users) ==> r == SaveFailed && users == old(users))
    {
      if !signatureValid {
        return SignatureRejected;
      }
      match event
      case CheckoutSessionCompleted(subscription, userId, priceId) =>
        if !CheckoutComplete(event) {
          return MissingData;
        }
        if retrieved.None? {
          return SaveFailed;
        }
        var sid, uid, sub := subscription.value, userId.value, retrieved.value;
        if sid !in subscriptions && exists k :: k in subscriptions && subscriptions[k].userId == uid {
          // a second subscription row for the same user violates the unique user id
          return SaveFailed;
        }
        subscriptions := UpsertSubscription(subscriptions, sid, uid, sub.status, priceId.value,
                                            MillisFromSeconds(sub.startDate), MillisFromSeconds(sub.currentPeriodEnd));
        if uid !in users {
          // user.update throws; the subscription row stays
          return SaveFailed;
        }
        users := users[uid := users[uid].(isPremium := true)];
        r := Received;
      case SubscriptionDeleted(id, status) =>
        subscriptions := SetStatus(subscriptions, id, status);
        r := Received;
      case OtherEvent(_) =>
        r := Unhandled;
    }

    /** GET /api/payment/subscription: report whether the caller's subscription is active,
        and if it is, mark the caller premium. */
    method PollSubscription(session: Session) returns (r: PollResult)
      requires Valid()
      modifies this`users
      ensures Valid()
      ensures !(session.SignedIn? && session.userId.Some?) ==> r == Polled(false) && users == old(users)
      ensures session.SignedIn? && session.userId.Some? ==>
        var u := session.userId.value;
        var active := old(SubscriptionOf(u)).Some? && old(SubscriptionOf(u)).value.status == ActiveStatus;
        && (!active ==> r == Polled(false) && users == old(users))
        && (active && u in old(users) ==> r == Polled(true) && users == old(users)[u := old(users)[u].(isPremium := true)])
        && (active && u !in old(users) ==> r == PollFailed && users == old(users))
      ensures users.Keys == old(users).Keys
      ensures forall u :: u in users ==> users[u].email == old(users)[u].email
      ensures forall u :: u in users && old(users)[u].isPremium ==> users[u].isPremium
    {
      if session.NoSession? || session.userId.None? {
        return Polled(false);
      }
      var u := session.userId.value;
      var active := exists sid :: sid in subscriptions && subscriptions[sid].userId == u
                                  && subscriptions[sid].status == ActiveStatus;
      if active {
        if u !in users {
          return PollFailed;
        }
        users := users[u := users[u].(isPremium := true)];
      }
      r := Polled(active);
    }
  }
}
