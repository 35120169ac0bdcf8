# Commute-credit marketplace: a Dafny model of the store and the mutating routes

The system is a web service in which employees log their green commutes. Each
commute earns points, and the points are added to the employee's organization
as carbon credits. Organizations then trade those credits for a virtual
currency on a marketplace.

- Org admins register organizations and admit or reject employees who ask to join.
- A system admin approves or rejects organizations.
- An org admin lists credits for sale, and another org admin buys the whole listing.

This project models two things:

- the in-memory store `MemStorage` (`server/storage.ts`);
- the request handlers that change it (`server/routes.ts`): organization
  registration, join requests and their review, user approval, commute
  distance, commute logging, listing creation, purchase, organization review,
  and the development endpoint that approves every pending organization.

## Layout

- `wrappers.dfy` (`Wrappers`): `Option` and `Result`.
- `schema.dfy` (`Schema`): the records (`User`, `Organization`, `CommuteLog`, `Listing`).
  - It also has the creation drafts and the partial updates.
  - A partial update is a patch. A field that is `None` in a patch is a key the update object does not carry.
  - `ApplyOrgPatch` and its siblings are the spread merge `{ ...record, ...updates }`.
- `tables.dfy` (`Tables`): the store as a value `Db`, made of four id-keyed maps and the id counters.
  - Every `MemStorage` operation is a function from the old `Db` to the new one and the record returned.
  - A thrown "not found" error is `None`.
  - `WellFormed` is the invariant the store keeps: every record sits under its own id, and ids lie below their counter.
- `storage.dfy` (`Storage`): the class `MemStorage`, with the source's fields.
  - It holds one map per table and `currentIds`.
  - Each method is proved to change the fields exactly as the matching `Tables` function says, and to keep `WellFormed`.
- `handlers.dfy` (`Handlers`): what each mutating route does, as a function from the store to the new store and the answer.
  - The answer is `Reply(status, message)` for `res.status(..).send(..)`.
  - `Uncaught(message)` is a store error that no `try`/`catch` in the handler intercepts.
  - The contracts give every error case and the exact new state.
- `routes.dfy` (`Routes`): the handlers written as the source writes them, as sequences of store calls on a `MemStorage`.
  - Each is proved to agree with its `Handlers` function.
  - The approve-all endpoint keeps its loop over the organizations.
- `ledger.dfy` (`Ledger`): properties that span the whole store or several requests.
  - System-wide sums of credits and currency, non-negativity, and once-a-day logging.
  - The membership workflow.
  - The quirks and the corrected rules listed under Findings.

Amounts (credits, currency, distances, points) are exact reals, and dates are
day numbers. The acting user is passed as an optional user id, and the handler
reads that user's current stored record.

## Model

| member | source | states |
|---|---|---|
| Schema.OrgPatchLaws | server/storage.ts:111-117 | merging an empty update is the identity, merging one update twice equals merging it once, two merges in a row are one merge where the later keys win, and the id never changes |
| Tables.Initial | server/storage.ts:25-53 | the fresh store holds only user 1, an approved system admin; the other tables are empty; the counters are users 2 and the others 1; the store is well formed |
| Tables.CreateUser | server/storage.ts:70-79 | the new user takes the users counter as id, which then advances by one; only the users table gains that key; username, name, role, status, organization and request come from the draft, with no rejection reason; the draft's distance is kept when present and non-zero and is otherwise null; the id exceeds every existing id; well-formedness is kept |
| Tables.UpdateUser | server/storage.ts:81-87 | fails iff the id is absent, and then changes nothing; otherwise stores and returns the stored user merged with the update; well-formedness is kept |
| Tables.CreateOrganization | server/storage.ts:98-109 | the new organization takes the counter as id; its name comes from the draft; it defaults to status pending, 0 credits and 1000 currency, and the draft's keys override those defaults; it has no rejection reason; only that key is added; well-formedness is kept |
| Tables.UpdateOrganization | server/storage.ts:111-117 | fails iff the id is absent, and then changes nothing; otherwise stores and returns the merged organization, with no other change |
| Tables.PendingOrganizationRequests | server/storage.ts:120-124 | a user is in the result iff they are stored, pending, and have a request naming the organization; the result is in ascending id order |
| Tables.ApproveOrganizationRequest | server/storage.ts:126-139 | fails only for an absent user; otherwise the user becomes approved, a member of the organization, and has no request, whatever their previous state |
| Tables.RejectOrganizationRequest | server/storage.ts:141-154 | fails only for an absent user; otherwise the user becomes rejected with no request; the reason, or "Request rejected" when it is missing or empty, is stored; the user's organization is untouched |
| Tables.CreateCommuteLog | server/storage.ts:157-166 | the new log takes the counter as id, with 0 points when none are given; only that key is added; well-formedness is kept |
| Tables.UserCommuteLogs | server/storage.ts:168-172 | a log is in the result iff it is stored and belongs to the user; the result is in id order |
| Tables.CreateListing | server/storage.ts:175-187 | the new listing takes the counter as id; status, creation time, amount and price come from the draft, defaulting to active, now, 0 and 0; only that key is added; well-formedness is kept |
| Tables.ActiveListings | server/storage.ts:189-193 | a listing is in the result iff it is stored and active; the result is in id order |
| Tables.UpdateListing | server/storage.ts:195-201 | fails iff the id is absent, and then changes nothing; otherwise stores and returns the merged listing |
| Storage.MemStorage.GetUser | server/storage.ts:56-58 | answers a user iff the id is stored, and then the stored record |
| Storage.MemStorage.GetOrganization | server/storage.ts:90-92 | answers an organization iff the id is stored, and then the stored record |
| Storage.MemStorage.GetAllOrganizations | server/storage.ts:94-96 | answers the current organizations table |
| Storage.MemStorage.GetPendingOrganizationRequests | server/storage.ts:120-124 | a user is in the answer iff stored, pending and requesting the organization; ascending id order |
| Storage.MemStorage.GetUserCommuteLogs | server/storage.ts:168-172 | a log is in the answer iff stored and belonging to the user; ascending id order |
| Storage.MemStorage.GetActiveListings | server/storage.ts:189-193 | a listing is in the answer iff stored and active; ascending id order |
| Storage.MemStorage.GetListing | server/storage.ts:203-205 | answers a listing iff the id is stored, and then the stored record |
| Storage.MemStorage.constructor | server/storage.ts:25-53 | the constructed store is the initial store and is well formed |
| Storage.MemStorage.CreateUser | server/storage.ts:70-79 | the fields and the result are those of Tables.CreateUser on the old fields |
| Storage.MemStorage.UpdateUser | server/storage.ts:81-87 | the fields and the result are those of Tables.UpdateUser on the old fields |
| Storage.MemStorage.CreateOrganization | server/storage.ts:98-109 | the fields and the result are those of Tables.CreateOrganization on the old fields |
| Storage.MemStorage.UpdateOrganization | server/storage.ts:111-117 | the fields and the result are those of Tables.UpdateOrganization on the old fields |
| Storage.MemStorage.ApproveOrganizationRequest | server/storage.ts:126-139 | the fields and the result are those of Tables.ApproveOrganizationRequest on the old fields |
| Storage.MemStorage.RejectOrganizationRequest | server/storage.ts:141-154 | the fields and the result are those of Tables.RejectOrganizationRequest on the old fields |
| Storage.MemStorage.CreateCommuteLog | server/storage.ts:157-166 | the fields and the result are those of Tables.CreateCommuteLog on the old fields |
| Storage.MemStorage.CreateListing | server/storage.ts:175-187 | the fields and the result are those of Tables.CreateListing on the old fields |
| Storage.MemStorage.UpdateListing | server/storage.ts:195-201 | the fields and the result are those of Tables.UpdateListing on the old fields |
| Handlers.RegisterOrganization | server/routes.ts:12-26 | a non org admin is refused with 403 and nothing changes; otherwise a new organization is created under the next id, with the body's name, pending unless the body gives a status, and 0 credits and 1000 currency unless the body gives amounts; the admin becomes its approved member; nothing else changes |
| Handlers.RequestToJoin | server/routes.ts:99-120 | a non-employee gets 403, a missing organization 404, and an organization that is not approved 400, each with no change; it succeeds iff none applies; then the user is pending with a request for that organization, and only that user changes |
| Handlers.ApproveJoinRequest | server/routes.ts:123-137 | refused with 403 unless the actor is an org admin of that organization; a missing user gets 400 "User not found"; it succeeds iff both hold, and then the user is an approved member with no request; nothing else changes |
| Handlers.RejectJoinRequest | server/routes.ts:140-154 | the same authorisation and missing-user answers as approval; on success the user is rejected with no request and the given or default reason, and keeps their organization |
| Handlers.ApproveUser | server/routes.ts:170-178 | refused with 403 unless the actor is an org admin, of any organization; a missing user escapes as an uncaught "User not found"; otherwise only that user's status becomes approved |
| Handlers.SetCommuteDistance | server/routes.ts:180-188 | only the logged-in user themself may set it, otherwise 403; then only their distance changes, and an absent distance clears it |
| Handlers.LogCommute | server/routes.ts:191-273 | the 403 answers for a non-employee and for a non-member, the 400 for a missing distance, and the 400 when a log dated today exists, each with no change; it succeeds iff none applies; then a log with the client's date and the points the scoring function gives is added, and the employee's organization (when it exists) gains exactly those points; nothing else changes |
| Handlers.CreateListingFor | server/routes.ts:282-303 | refused with 403 for a non org admin; 400 "Insufficient credits" when the admin's organization is missing or holds fewer credits than listed; otherwise a new active listing of the admin's organization is added; no organization changes in any case |
| Handlers.Purchase | server/routes.ts:311-349 | 403 for a non org admin; 404 for a missing or sold listing; 400 for a missing buyer or seller organization; 400 "Insufficient funds" when the buyer's currency is below amount times price; any failure changes nothing; it succeeds iff all checks pass; then the organizations are as written from the two snapshots (buyer first, then seller), the listing is sold, and nothing else changes |
| Handlers.ReviewOrganization | server/routes.ts:56-78 | refused with 403 unless the actor is the system admin; a missing organization escapes as an uncaught "Organization not found"; otherwise only that organization is merged with the update |
| Handlers.ApproveOrganization | server/routes.ts:56-64 | succeeds iff a system admin approves a stored organization, whose status becomes approved |
| Handlers.RejectOrganization | server/routes.ts:67-78 | succeeds iff a system admin rejects a stored organization, whose status becomes rejected and whose rejection reason is the body's reason |
| Handlers.ApproveAllPendingOrganizations | server/routes.ts:658-669 | the same organization ids remain; every pending organization becomes approved with nothing else changed, so none is pending afterwards; non-pending ones are unchanged; only statuses change; the other tables are untouched; well-formedness is kept |
| Routes.PostOrganization | server/routes.ts:12-26 | the store after the request and the answer are those of Handlers.RegisterOrganization |
| Routes.PostJoinRequest | server/routes.ts:99-120 | the store after the request and the answer are those of Handlers.RequestToJoin |
| Routes.PostApproveJoinRequest | server/routes.ts:123-137 | the store after the request and the answer are those of Handlers.ApproveJoinRequest |
| Routes.PostRejectJoinRequest | server/routes.ts:140-154 | the store after the request and the answer are those of Handlers.RejectJoinRequest |
| Routes.PatchApproveUser | server/routes.ts:170-178 | the store after the request and the answer are those of Handlers.ApproveUser |
| Routes.PatchCommuteDistance | server/routes.ts:180-188 | the store after the request and the answer are those of Handlers.SetCommuteDistance |
| Routes.PostCommuteLog | server/routes.ts:191-273 | the store after the request and the answer are those of Handlers.LogCommute, including the search of the user's logs for one dated today |
| Routes.PostListing | server/routes.ts:282-303 | the store after the request and the answer are those of Handlers.CreateListingFor |
| Routes.PostPurchase | server/routes.ts:311-349 | the store after the request and the answer are those of Handlers.Purchase, with both writes computed from the snapshots read before either write |
| Routes.PatchApproveOrganization | server/routes.ts:56-64 | the store after the request and the answer are those of Handlers.ApproveOrganization |
| Routes.PatchRejectOrganization | server/routes.ts:67-78 | the store after the request and the answer are those of Handlers.RejectOrganization |
| Routes.ApproveAllOrganizations | server/routes.ts:658-669 | the loop over the organizations leaves the store equal to Handlers.ApproveAllPendingOrganizations of the old store |
| Ledger.SumBelowAfterWrite | server/storage.ts:111-117 | overwriting one stored organization changes a system-wide sum by the difference of the two records' fields |
| Ledger.PurchaseConservesTotals | server/routes.ts:331-346 | between two different organizations, the buyer pays the cost and gains the credits and the seller the reverse; the buyer's currency stays non-negative; the pair's sums and the system-wide sums of currency and credits are unchanged |
| Ledger.SelfPurchaseMintsCurrency | server/routes.ts:319-346 | when an organization buys its own listing, it gains the price and loses the credits; system-wide currency grows by the price and credits shrink by the amount |
| Ledger.NoDoubleSale | server/routes.ts:316-319 | after a successful purchase, buying the same listing again is answered 404 "Listing not found" and changes nothing |
| Ledger.OversoldListingDrivesCreditsNegative | server/routes.ts:282-349 | from a well-formed store with no negative balance, in which the seller holds 50 credits, the seller's admin lists those 50 credits twice and the buyer's admin buys both listings; all four requests succeed and the seller ends at -50 credits |
| Ledger.GuardedPurchase | server/routes.ts:311-349 | the corrected purchase refuses a listing of the buyer's own organization, and a seller without the listed credits; otherwise it is the source's purchase; a refusal changes nothing |
| Ledger.GuardedPurchaseKeepsLedger | server/routes.ts:311-349 | the corrected purchase keeps both system-wide sums and keeps every balance and credit count non-negative |
| Ledger.OneLogPerDay | server/routes.ts:206-218 | after logging a commute dated today, every further log by that user on the same day is answered "You've already logged your commute for today", with no change |
| Ledger.BackdatedLogLeavesTodayOpen | server/routes.ts:206-235 | after a successful log dated on another day, the same user can log again the same day |
| Ledger.LogCommuteCreditsLedger | server/routes.ts:237-259 | a logged commute adds its points to the system-wide credits (when the organization exists) and leaves the system-wide currency alone |
| Ledger.BackdatedLogsShareADate | server/routes.ts:206-235 | two same-day requests carrying the same earlier date both succeed and leave the user with two logs of that date |
| Ledger.CheckedLogCommute | server/routes.ts:191-273 | the corrected logging succeeds iff the user may log and has no log of the submitted date; a log of that date is refused with "You've already logged your commute for today" and no change; the new log has the submitted date |
| Ledger.CheckedLoggingKeepsOneLogPerDate | server/routes.ts:206-235 | with the corrected check, a store in which no user has two logs of one date stays so |
| Ledger.RequestBecomesPending | server/routes.ts:99-120 | the user whose join request succeeded appears in that organization's list of pending requests |
| Ledger.ApprovedUserLeavesPendingLists | server/routes.ts:123-137 | after approval the user is an approved member of the organization and is in no organization's pending list |
| Ledger.ApprovalAdmitsUserWhoNeverAsked | server/storage.ts:126-139 | a user who is not in the organization's pending list is still made an approved member by its admin |
| Ledger.CheckedApproveJoinRequest | server/routes.ts:123-137 | the corrected approval succeeds iff the actor administers the organization and the user has a pending request for it; otherwise it changes nothing |
| Ledger.CheckedApprovalOnlyAdmitsRequesters | server/storage.ts:120-139 | every user the corrected approval admits was in the organization's pending list |
| Ledger.RejectionReachesOtherOrganizationsMembers | server/storage.ts:141-154 | an admin can reject an approved member of another organization; the user becomes rejected, keeps that organization, and can no longer log commutes |
| Ledger.CheckedRejectJoinRequest | server/routes.ts:140-154 | the corrected rejection succeeds iff the actor administers the organization and the user has a pending request for it; otherwise it changes nothing; on success it is the source's rejection |
| Ledger.CheckedRejectionOnlyTouchesRequesters | server/storage.ts:141-154 | with the corrected rejection, no user without a pending request for the organization changes, and a second rejection of the same user is refused |
| Ledger.MembershipHandlersKeepRequestsPending | server/routes.ts:99-154 | join, approve and reject each keep the rule that only pending users carry a request |
| Ledger.PatchApprovalLeavesRequestBehind | server/routes.ts:170-178 | approving a requesting user by PATCH makes them approved, but they keep their request, gain no organization, and break that rule |
| Ledger.RegisteredOrganizationStartsPending | server/routes.ts:12-26 | an organization registered without status or amounts is pending, with 0 credits and 1000 currency, under a fresh id, while its admin is an approved member of it |
| Ledger.ApproveAllIsIdempotent | server/routes.ts:658-669 | approving all pending organizations twice gives the same store as once |

## Left out

- Password hashing, the session store and authentication are not part of this model. The logged-in user is an optional id parameter. The initial admin's password is not modelled.
- The source creates the initial admin from an `async` method that the constructor does not await. The model creates that admin before the constructor returns.
- `getUserByUsername`, `getAllUsers` and the read-only GET endpoints are modelled only where a mutating handler uses them. Those endpoints are the lists, the analytics and the marketplace history.
- The other development endpoints (`create-test-org`, `check-pending-requests`, `backfill-createdat`) are left out.
- Request validation by the schema library is not part of this model. Handlers receive the already-parsed values, and the validation error answers are not modelled.
- The commute points calculation is not part of this model. It is a scoring-function parameter.
- The clock is a parameter: `today` for the commute handler, `now` for a listing's creation time.
- Amounts are exact reals. The model does not capture string conversion (`toString`, `parseFloat`), floating-point rounding, or non-numeric strings.
- Handlers are modelled as atomic steps. Interleaving of concurrent `async` requests is not captured.
- The routes call a SQLite-backed store that is not part of this model. The model follows `MemStorage`, which the routes treat as the same interface.
- Console logging is left out. So is the `try`/`catch` around the credit update in the commute handler, because that update cannot fail once the organization was found.
- Patches cannot carry an `id` key, so an update that renames a record's id is not modelled.
- Routes.ApproveAllOrganizations walks organization ids upward from 1, rather than the `Map`'s insertion order. The result is the same because each step touches one key.
- Handlers.RegisterOrganization: the handler approves only the admin user (server/routes.ts:20-23). The new organization keeps the store's default status, pending, unless the body supplies one.
- Ledger.PatchApprovalLeavesRequestBehind: shows that `PATCH /api/users/:id/approve` (server/routes.ts:170-178) approves a requesting user without clearing the request or granting an organization, which breaks the rule that only pending users carry a request. No corrected rule is modelled, because the code gives no hint of which organization such an approval should grant.

## Findings

| source | as written | input that shows it | evidently intended | confidence | as-written member | corrected member |
|---|---|---|---|---|---|---|
| server/routes.ts:322-346 | both organizations are read before either write, and each write is computed from its own snapshot | an org admin buys an active listing of their own organization | an organization cannot buy its own listing, and a purchase moves currency without creating it | high, not executed | Ledger.SelfPurchaseMintsCurrency | Ledger.GuardedPurchase |
| server/routes.ts:291-294, 343-346 | the seller's credits are checked when the listing is created, never at purchase | a seller holding 50 credits lists them twice, and another organization buys both listings | a seller's credits never go below zero | high, not executed | Ledger.OversoldListingDrivesCreditsNegative | Ledger.GuardedPurchaseKeepsLedger |
| server/storage.ts:126-139 | approval does not check that the user asked to join this organization | an admin of organization 1 approves a user whose request names organization 2, or who made no request | only a user with a pending request for the organization can be approved | medium, not executed | Ledger.ApprovalAdmitsUserWhoNeverAsked | Ledger.CheckedApproveJoinRequest |
| server/routes.ts:206-235 | the once-a-day check looks for a log dated the server's today, but the log stored carries the date the client sent | two requests on one day, both with yesterday's date | at most one log per user and date | high, not executed | Ledger.BackdatedLogsShareADate | Ledger.CheckedLogCommute |
| server/storage.ts:141-154 | rejection does not check that the user has a pending request for this organization | an admin of organization 1 rejects an approved member of organization 2 | only a user with a pending request for the organization can be rejected | medium, not executed | Ledger.RejectionReachesOtherOrganizationsMembers | Ledger.CheckedRejectJoinRequest |
