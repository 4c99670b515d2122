# Family Connect — a Dafny model of its server-side rules

Family Connect is a web application where families share posts, photos and events.
This project models its server-side domain logic: the family role checks, the
family-creation and family-listing routes, the invitation issue and redemption routes,
the billing webhook and the subscription poll, the route guard, and the contact-form
validator. It then proves what these rules promise.

## Layout

- `common.dfy` (module `Common`): `Option`, row ids, outgoing mail, and JavaScript truthiness of body fields (`Present`).
- `roles.dfy` (module `Roles`): the four capability checks over a stored role string, and how they relate.
- `middleware.dfy` (module `Middleware`): the protected-prefix redirect decision.
- `contact.dfy` (module `Contact`): required fields, the email pattern `^[^\s@]+@[^\s@]+\.[^\s@]+$`, and the newline-to-`<br>` rewrite. It proves that the email check accepts exactly the language of the pattern.
- `store.dfy` (module `Store`): class `Store`, one in-memory database with a table (a `map` field) for each of users, families, memberships, invitations and subscriptions. Each route handler that writes is a method. Its `ensures` gives the new tables for every outcome.
- `store_properties.dfy` (module `StoreProperties`): properties that span several requests, proved from the handlers' contracts alone. They cover checkout replay, single-use codes, invite-then-redeem within seven days, repeated polls, and one main family per user.

## How the environment is modelled

- The session is a `Session` value: no session, or a session whose user id may be missing.
- "Now" is an integer number of milliseconds.
- The nanoid code is a parameter that must be ten URL-safe characters.
- The email service's success is a boolean parameter. The message handed to it is returned.
- The webhook's signature check is a boolean parameter.
- The billing provider's subscription lookup is an `Option` parameter. `None` means the lookup threw.
- Database-generated ids come from a counter, `nextId`.
- The handlers run their database calls in order with no transaction. A failure part-way leaves earlier writes in place. The model does the same:
  - a redemption whose membership insert fails keeps the user it upserted;
  - a checkout whose user update fails keeps the subscription row it upserted.
- Schema constraints are the store's invariant `Store.Valid`. Three come from the queries:
  - `user.upsert({ where: { email } })` makes emails unique;
  - `findUnique({ where: { inviteCode } })` makes invite codes unique;
  - `subscription.findUnique({ where: { userId } })` allows one subscription per user.
- The membership table has one row per (user, family) pair. Its user and family must exist, because the routes use the `members` and `user` relations. An insert that breaks either rule fails with 500.
- The schema is not part of this model. Redeeming an invitation therefore creates the membership with the store's `defaultRole` and `defaultMain`, both fixed when the store is built. A new user starts with `isPremium = false`.

Behaviour of the code that the model keeps, even where it looks unintended:

- The checkout event sets `isPremium` to true whatever status the provider reports.
- The deletion event updates only the status and never clears `isPremium`.
- The poll can only raise `isPremium`.
- The invite route checks neither the inviter's membership nor their role.
- With a session that has no user id, the main-family lookup drops its user filter. Family creation is then refused (400) if anyone has a main family. Otherwise, given a name, it fails (500); without a name it answers 400 for the missing name first.
- The guard function is a plain prefix test, so it would redirect `/familyX` or `/administrator` too. In the deployed program the route matcher (`/family/:path*`, `/admin/:path*`) keeps such paths from reaching the guard.
- Redemption creates the membership with the schema's default `isMainFamily`. It keeps "at most one main family per user" only when that default is false (`Store.Store.VerifyCode` promises the invariant under that premise). With a true default, redeeming an invitation can give a user a second main family.

## Model

| member | source | states |
|---|---|---|
| Roles.CanEditContent | src/utils/roles.ts:3-5 | editing is allowed for a role string exactly when it names a role at least as privileged as editor |
| Roles.CanDeleteContent | src/utils/roles.ts:7-9 | deleting is allowed for a role string exactly when it names a role at least as privileged as editor |
| Roles.CanCreateContent | src/utils/roles.ts:11-13 | creating is allowed for a role string exactly when it names a role at least as privileged as editor |
| Roles.CanManageMembers | src/utils/roles.ts:15-17 | managing members is allowed for a role string exactly when it names the admin role |
| Roles.ViewerDeniedContent | src/utils/roles.ts:3-13 | a viewer may not create, edit or delete content |
| Roles.ContentCapabilitiesAgree | src/utils/roles.ts:3-13 | create, edit and delete are granted to exactly the same role strings |
| Roles.ManageMembersIffAdmin | src/utils/roles.ts:15-17 | managing members is allowed for a role exactly when it is admin |
| Roles.EditorCapabilities | src/utils/roles.ts:3-17 | an editor has all three content capabilities but cannot manage members |
| Roles.CapabilitiesFollowPrivilege | src/utils/roles.ts:3-17 | content capabilities need privilege at least editor; managing members needs admin |
| Roles.CapabilitiesMonotone | src/utils/roles.ts:3-17 | a more privileged role keeps every capability of a less privileged one; managing members implies all content capabilities |
| Roles.UnknownRoleDenied | src/utils/roles.ts:3-17 | a stored role string that names no role is denied every capability |
| Middleware.StartsWith | src/middleware.ts:16 | the character-by-character prefix test agrees with sequence prefix |
| Middleware.SomeStartsWith | src/middleware.ts:13-16 | true exactly when some listed route is a prefix of the path |
| Middleware.Decide | src/middleware.ts:6-24 | redirects exactly when there is no token and the path starts with "/family" or "/admin"; the redirect goes to /signin |
| Middleware.TokenAlwaysPasses | src/middleware.ts:16-23 | with a token every request passes through |
| Middleware.UnprotectedPathPasses | src/middleware.ts:16-23 | a path with neither prefix passes through, token or not |
| Middleware.PlainPrefixGuardsLookalikes | src/middleware.ts:16 | "/familyX" and "/administrator" are guarded, "/famil" is not |
| Contact.ValidEmail | src/app/api/contact/route.ts:17 | the email check accepts a string exactly when it matches `^[^\s@]+@[^\s@]+\.[^\s@]+$` |
| Contact.FirstSplitIffRegex | src/app/api/contact/route.ts:17 | splitting at the first '@' and testing both sides accepts exactly the strings the pattern matches |
| Contact.SplitMatchesRegex | src/app/api/contact/route.ts:17 | an accepted split gives local part, '@', host, '.', suffix, each non-empty and free of whitespace and '@' |
| Contact.RegexMatchSplits | src/app/api/contact/route.ts:17 | every such decomposition has its first '@' right after the local part, and both sides pass the test |
| Contact.ValidEmailShape | src/app/api/contact/route.ts:17 | an accepted address has no whitespace, exactly one '@' after a non-empty local part, and a '.' after it with text on both sides |
| Contact.ReplaceNewlines | src/app/api/contact/route.ts:35 | no line feed is left in the formatted message |
| Contact.ReplaceNewlinesLength | src/app/api/contact/route.ts:35 | the result is three characters longer per line feed and otherwise as long as the input |
| Contact.ReplaceNewlinesAtNewline | src/app/api/contact/route.ts:35 | a line feed after newline-free text becomes `<br>`, the text before it is kept, and the rest is rewritten in turn |
| Contact.ReplaceNewlinesAppend | src/app/api/contact/route.ts:35 | the rewrite distributes over concatenation |
| Contact.ReplaceNewlinesKeepsOtherText | src/app/api/contact/route.ts:35 | a message without newlines is left unchanged |
| Contact.ContactHtml | src/app/api/contact/route.ts:29-36 | the mail body contains the submitted name, email and phone as given, and the message with its newlines replaced |
| Contact.HandleContact | src/app/api/contact/route.ts:4-50 | 400 when a field is missing or empty, then 400 when the email is invalid, and no mail in either case; otherwise the mail goes to EMAIL_TO or the default address with replyTo the submitted email, the fixed subject with the name, and the HTML body built from the four fields, and the answer is 200 or, if sending fails, 500 |
| Contact.ContactForwardedIffRegex | src/app/api/contact/route.ts:9-22 | a submission is forwarded exactly when all fields are present and the email matches the pattern; it is refused with 400 exactly when it is not forwarded |
| Store.Store.HasMainFamily | src/app/api/family/route.ts:18-23 | with a user id, true exactly when that user has a main-family membership; without one, true exactly when any user has one |
| Store.Store.CreateFamily | src/app/api/family/route.ts:7-70 | 401 without a session; 400 if a main family already exists, checked before the name; 400 without a name; 500 and no change if the user row is missing; otherwise one new family whose only member is the caller, as admin with isMainFamily, status 201; at most one main family per user is preserved |
| Store.Store.InsertFamilyWithFounder | src/app/api/family/route.ts:46-60 | the nested create adds one fresh family and exactly one membership, the founder as admin with isMainFamily, and nothing else |
| Store.Store.ListFamilies | src/app/api/family/route.ts:72-124 | 401 without a session or without a user id; otherwise exactly the families that have a membership for the caller, read without writing |
| Store.InviteMail | src/app/api/invite/route.ts:28-33 | the invitation mail goes to the invitee, with no reply-to and the fixed subject, and its body contains the code |
| Store.Store.Invite | src/app/api/invite/route.ts:8-40 | stores the invitation (email, family, invitedBy = inviter, expiresAt = now + 604800000) under the ten-character code before the mail is sent; a send failure answers 500 but keeps the invitation; nothing is checked about the inviter |
| Store.Store.VerifyCode | src/app/api/verify-code/route.ts:4-53 | 400 and no change for a missing code, an unknown code, or now > expiresAt (equality still redeems); otherwise upserts the user by email, then adds the membership and deletes the invitation, answering with the invitation's family; if the membership insert fails, 500 with the invitation kept and the upserted user left in place; at most one main family per user is kept when the schema's default isMainFamily is false |
| Store.Store.UpsertUserByEmail | src/app/api/verify-code/route.ts:27-31 | an existing user with the email is kept unchanged; otherwise exactly one user with that email is added |
| Store.Store.HandleWebhook | src/app/api/payment/webhook/route.ts:9-104 | 400 and no change on a bad signature or a checkout missing subscription, user or price; checkout upserts by subscription id with dates in seconds × 1000, then sets isPremium whatever the status; deletion only sets the status on the matching row; other events answer 200 and change nothing |
| Store.CheckoutComplete | src/app/api/payment/webhook/route.ts:37-44 | a checkout counts as complete only with a subscription id, a user and a price; an empty subscription id or price id counts as missing |
| Store.UpsertSubscription | src/app/api/payment/webhook/route.ts:53-71 | an existing row gets the new status, price and dates and keeps its user; otherwise exactly one row is added for the event's user |
| Store.UpsertSubscriptionIdempotent | src/app/api/payment/webhook/route.ts:53-71 | repeating the upsert changes nothing |
| Store.SetStatus | src/app/api/payment/webhook/route.ts:91-98 | only the status of the row with the given id changes; no match changes nothing |
| Store.Store.PollSubscription | src/app/api/payment/subscription/route.ts:6-29 | without a user id, not subscribed and no write; subscribed exactly when the user's subscription exists with status "active"; then isPremium becomes true; isPremium is never lowered |
| Store.Store.SubscriptionOf | src/app/api/payment/subscription/route.ts:13-17 | the user's subscription, unique by the one-subscription-per-user constraint |
| StoreProperties.CheckoutReplay | src/app/api/payment/webhook/route.ts:53-81 | delivering the same checkout event twice gives the same answer and leaves the store exactly as one delivery did |
| StoreProperties.CheckoutThenCancel | src/app/api/payment/webhook/route.ts:73-101 | after checkout then deletion, the row carries the deletion's status and the user is still premium; a first checkout binds the row to its user, a replay keeps the row's user |
| StoreProperties.InviteThenRedeem | src/app/api/verify-code/route.ts:13-43 | an invitation made at t is redeemed at any time up to t + 7 days, even when its mail failed, and is expired after that; a second redemption of the code is "Invalid code" |
| StoreProperties.RedeemTwice | src/app/api/verify-code/route.ts:13-43 | after a successful redemption the same code is invalid; an expired code stays expired later |
| StoreProperties.PollTwice | src/app/api/payment/subscription/route.ts:13-28 | polling twice gives the same answer and the same users table as polling once |
| StoreProperties.CreateFamilyTwice | src/app/api/family/route.ts:18-60 | a successful creation makes the family listed for its founder and makes the founder's next creation fail with 400; the one-main-family invariant holds throughout |

## Left out

- React pages and components, the user context, and the admin dashboard: they render markup and call the routes. Their role checks only repeat the role checks modelled here.
- Authentication (NextAuth configuration, password comparison, OAuth linking): the session is an input.
- The email and billing clients: sending a mail and looking up a provider subscription are inputs that may fail.
- The cryptographic signature check of webhook events: an input.
- The nanoid random source: the code is an input.
- Clock reading and date formatting: now is an input in milliseconds.
- The other payment routes, the logging-only webhook route and the member listing: they have no logic of their own.
- Concurrency between requests: each request runs alone, in order.
- Malformed JSON bodies and fields of the wrong JSON type: body fields are optional strings or ids.
- Database errors other than the constraint violations named above: connection failures and the 500 answers they cause.
- Store.Store.ListFamilies: returns the families table restricted to the caller's families. It does not return the nested member and user projection the route includes.
- Store.Store.Invite: the request's email, family and inviter are taken as present. Whether a missing one makes the insert fail depends on the schema.
- Store.Store.Invite: the invitation's family and inviter are not required to exist as rows, because the schema is not shown. The model stores the invitation and sends its mail for ids that name no row. Under a schema with those relations, that insert would fail with 500.
- Store.Store.HandleWebhook: the subscription row's user id is not required to exist as a user, because the schema is not shown. A checkout for an unknown user therefore stores the row, then fails with 500 on the user update.
- Middleware.Decide: the redirect target is the path /signin. It is not the absolute URL built from the request, and the route matcher that decides which paths reach the guard is not modelled.
- Ids are natural numbers from a counter, not the database's string ids.
