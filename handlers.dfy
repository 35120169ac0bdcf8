/**
 * What each mutating request handler does to the store, as a function from
 * the tables before the request to the tables after it and the answer sent.
 * Each handler runs as one uninterrupted step. The acting user is the id of
 * the session's user (`None` when nobody is logged in); the handler sees that
 * user's current stored record.
 */
module Handlers {
  import opened Wrappers
  import opened Schema
  import opened Tables

  /** A refused or failed request: `Reply(status, message)` is
      `res.status(status).send(message)`; `Uncaught(message)` is an error thrown
      by the store that no try/catch in the handler intercepts. */
  datatype Failure = Reply(status: int, message: string) | Uncaught(message: string)

  datatype Response<T> = Response(db: Db, result: Result<T, Failure>)

  const Unauthorized := Reply(403, "Unauthorized")
  const OrganizationNotFound := Reply(404, "Organization not found")
  const OrganizationNotApproved := Reply(400, "Cannot request to join a non-approved organization")
  const NotAMember := Reply(403, "You must be approved by an organization before logging commutes")
  const NoCommuteDistance := Reply(400, "Please set your commute distance first")
  const AlreadyLoggedToday := Reply(400, "You've already logged your commute for today")
  const InsufficientCredits := Reply(400, "Insufficient credits")
  const ListingNotFound := Reply(404, "Listing not found")
  const InvalidOrganization := Reply(400, "Invalid organization")
  const InsufficientFunds := Reply(400, "Insufficient funds")

  /** `req.user`: the stored record of the logged-in user. */
  function SessionUser(db: Db, actor: Option<int>): Option<User> {
    if actor.Some? && actor.value in db.users then Some(db.users[actor.value]) else None
  }

  /** `req.user && req.user.role === role`. */
  predicate HasRole(db: Db, actor: Option<int>, role: Role) {
    SessionUser(db, actor).Some? && SessionUser(db, actor).value.role == role
  }

  /** `getOrganization(id)` for an id that may be null. */
  function OrgAt(db: Db, id: Option<int>): Option<Organization> {
    if id.Some? && id.value in db.organizations then Some(db.organizations[id.value]) else None
  }

  /** JavaScript truthiness of a nullable id: null and 0 are false. */
  predicate Truthy(id: Option<int>) {
    id.Some? && id.value != 0
  }

  // ---------------------------------------------------------------------------
  // POST /api/organizations

  /** An org admin registers an organization and becomes its approved member.
      The new organization keeps the store's default status (pending) unless the
      request supplies one. */
  function RegisterOrganization(db: Db, actor: Option<int>, d: OrgDraft): (r: Response<Organization>)
    ensures !HasRole(db, actor, OrgAdmin) ==> r == Response(db, Err(Unauthorized))
    ensures HasRole(db, actor, OrgAdmin) ==>
      && r.result.Ok?
      && var org := r.result.value;
      && org.id == db.currentIds.organizations
      && org.status == (if d.status.Some? then d.status.value else Pending)
      && org.name == d.name
      && org.totalCredits == (if d.totalCredits.Some? then d.totalCredits.value else 0.0)
      && org.virtualBalance == (if d.virtualBalance.Some? then d.virtualBalance.value else 1000.0)
      && org.rejectionReason == None
      && r.db.organizations == db.organizations[org.id := org]
      && r.db.users == db.users[actor.value := db.users[actor.value].(organizationId := Some(org.id), status := Approved)]
      && r.db.commuteLogs == db.commuteLogs && r.db.listings == db.listings
      && r.db.currentIds == db.currentIds.(organizations := org.id + 1)
    ensures WellFormed(db) ==> WellFormed(r.db)
  {
    if !HasRole(db, actor, OrgAdmin) then Response(db, Err(Unauthorized))
    else
      var (db1, org) := CreateOrganization(db, d);
      var (db2, _) := UpdateUser(db1, actor.value, NoUserChanges.(organizationId := Some(Some(org.id)), status := Some(Approved)));
      Response(db2, Ok(org))
  }

  // ---------------------------------------------------------------------------
  // POST /api/organizations/:id/request

  /** An employee asks to join an approved organization. */
  function RequestToJoin(db: Db, actor: Option<int>, orgId: int): (r: Response<User>)
    ensures !HasRole(db, actor, Employee) ==> r == Response(db, Err(Unauthorized))
    ensures HasRole(db, actor, Employee) && orgId !in db.organizations ==>
      r == Response(db, Err(OrganizationNotFound))
    ensures HasRole(db, actor, Employee) && orgId in db.organizations && db.organizations[orgId].status != Approved ==>
      r == Response(db, Err(OrganizationNotApproved))
    ensures r.result.Ok? <==>
      HasRole(db, actor, Employee) && orgId in db.organizations && db.organizations[orgId].status == Approved
    ensures r.result.Ok? ==>
      && r.result.value == db.users[actor.value].(organizationRequest := Some(orgId), status := Pending)
      && r.db == db.(users := db.users[actor.value := r.result.value])
    ensures WellFormed(db) ==> WellFormed(r.db)
  {
    if !HasRole(db, actor, Employee) then Response(db, Err(Unauthorized))
    else if orgId !in db.organizations then Response(db, Err(OrganizationNotFound))
    else if db.organizations[orgId].status != Approved then Response(db, Err(OrganizationNotApproved))
    else
      var (db1, user) := UpdateUser(db, actor.value, NoUserChanges.(organizationRequest := Some(Some(orgId)), status := Some(Pending)));
      Response(db1, Ok(user.value))
  }

  // ---------------------------------------------------------------------------
  // POST /api/organizations/:orgId/requests/:userId/approve and .../reject

  /** `req.user.role === "org_admin" && req.user.organizationId === orgId`. */
  predicate AdministersOrg(db: Db, actor: Option<int>, orgId: int) {
    HasRole(db, actor, OrgAdmin) && SessionUser(db, actor).value.organizationId == Some(orgId)
  }

  /** An admin of `orgId` makes `userId` an approved member of `orgId`, whatever
      that user asked for. */
  function ApproveJoinRequest(db: Db, actor: Option<int>, orgId: int, userId: int): (r: Response<User>)
    ensures !AdministersOrg(db, actor, orgId) ==> r == Response(db, Err(Unauthorized))
    ensures AdministersOrg(db, actor, orgId) && userId !in db.users ==>
      r == Response(db, Err(Reply(400, "User not found")))
    ensures r.result.Ok? <==> AdministersOrg(db, actor, orgId) && userId in db.users
    ensures r.result.Ok? ==>
      && r.result.value == db.users[userId].(status := Approved, organizationId := Some(orgId), organizationRequest := None)
      && r.db == db.(users := db.users[userId := r.result.value])
    ensures WellFormed(db) ==> WellFormed(r.db)
  {
    if !AdministersOrg(db, actor, orgId) then Response(db, Err(Unauthorized))
    else
      var (db1, user) := ApproveOrganizationRequest(db, userId, orgId);
      if user.None? then Response(db1, Err(Reply(400, "User not found"))) else Response(db1, Ok(user.value))
  }

  /** An admin of `orgId` rejects `userId`; the user keeps their organization. */
  function RejectJoinRequest(db: Db, actor: Option<int>, orgId: int, userId: int, reason: Option<string>): (r: Response<User>)
    ensures !AdministersOrg(db, actor, orgId) ==> r == Response(db, Err(Unauthorized))
    ensures AdministersOrg(db, actor, orgId) && userId !in db.users ==>
      r == Response(db, Err(Reply(400, "User not found")))
    ensures r.result.Ok? <==> AdministersOrg(db, actor, orgId) && userId in db.users
    ensures r.result.Ok? ==>
      && r.result.value == db.users[userId].(status := Rejected, organizationRequest := None,
                                             rejectionReason := Some(RejectionText(reason)))
      && r.db == db.(users := db.users[userId := r.result.value])
    ensures WellFormed(db) ==> WellFormed(r.db)
  {
    if !AdministersOrg(db, actor, orgId) then Response(db, Err(Unauthorized))
    else
      var (db1, user) := RejectOrganizationRequest(db, userId, orgId, reason);
      if user.None? then Response(db1, Err(Reply(400, "User not found"))) else Response(db1, Ok(user.value))
  }

  // ---------------------------------------------------------------------------
  // PATCH /api/users/:id/approve

  /** Any org admin sets any user's status to approved; nothing else changes.
      A missing user makes the store throw, and nothing catches it. */
  function ApproveUser(db: Db, actor: Option<int>, userId: int): (r: Response<User>)
    ensures !HasRole(db, actor, OrgAdmin) ==> r == Response(db, Err(Unauthorized))
    ensures HasRole(db, actor, OrgAdmin) && userId !in db.users ==> r == Response(db, Err(Uncaught("User not found")))
    ensures r.result.Ok? <==> HasRole(db, actor, OrgAdmin) && userId in db.users
    ensures r.result.Ok? ==>
      && r.result.value == db.users[userId].(status := Approved)
      && r.db == db.(users := db.users[userId := r.result.value])
    ensures WellFormed(db) ==> WellFormed(r.db)
  {
    if !HasRole(db, actor, OrgAdmin) then Response(db, Err(Unauthorized))
    else
      var (db1, user) := UpdateUser(db, userId, NoUserChanges.(status := Some(Approved)));
      if user.None? then Response(db1, Err(Uncaught("User not found"))) else Response(db1, Ok(user.value))
  }

  // ---------------------------------------------------------------------------
  // PATCH /api/users/:id/commute-distance

  /** A user sets their own commute distance (`None` clears it). */
  function SetCommuteDistance(db: Db, actor: Option<int>, userId: int, distance: Option<real>): (r: Response<User>)
    ensures SessionUser(db, actor).None? || actor.value != userId ==> r == Response(db, Err(Unauthorized))
    ensures r.result.Ok? <==> SessionUser(db, actor).Some? && actor.value == userId
    ensures r.result.Ok? ==>
      && r.result.value == db.users[userId].(commuteDistance := distance)
      && r.db == db.(users := db.users[userId := r.result.value])
    ensures WellFormed(db) ==> WellFormed(r.db)
  {
    if SessionUser(db, actor).None? || actor.value != userId then Response(db, Err(Unauthorized))
    else
      var (db1, user) := UpdateUser(db, actor.value, NoUserChanges.(commuteDistance := Some(distance)));
      Response(db1, Ok(user.value))
  }

  // ---------------------------------------------------------------------------
  // POST /api/commute-logs

  /** Whether `userId` has a log dated `day`. */
  predicate LoggedOn(db: Db, userId: int, day: int) {
    exists id :: id in db.commuteLogs && db.commuteLogs[id].userId == userId && db.commuteLogs[id].date == day
  }

  /** The checks that precede the once-a-day check: an employee, approved, with
      an organization and a commute distance. */
  predicate MayLogCommutes(db: Db, actor: Option<int>) {
    && HasRole(db, actor, Employee)
    && var u := SessionUser(db, actor).value;
    && Truthy(u.organizationId) && u.status == Approved
    && u.commuteDistance.Some?
  }

  /** An employee logs a commute dated `date` on day `today`; the points the
      external scoring function gives it are added to the employee's
      organization's credits. The once-a-day check looks for a log dated
      `today`, while the new log carries the date the client sent. */
  function LogCommute(db: Db, actor: Option<int>, today: int, date: int, transport: string,
                      score: (real, string) -> real): (r: Response<CommuteLog>)
    ensures !HasRole(db, actor, Employee) ==> r == Response(db, Err(Unauthorized))
    ensures HasRole(db, actor, Employee) &&
            (!Truthy(SessionUser(db, actor).value.organizationId) || SessionUser(db, actor).value.status != Approved) ==>
      r == Response(db, Err(NotAMember))
    ensures HasRole(db, actor, Employee) && Truthy(SessionUser(db, actor).value.organizationId) &&
            SessionUser(db, actor).value.status == Approved && SessionUser(db, actor).value.commuteDistance.None? ==>
      r == Response(db, Err(NoCommuteDistance))
    ensures MayLogCommutes(db, actor) && LoggedOn(db, actor.value, today) ==>
      r == Response(db, Err(AlreadyLoggedToday))
    ensures r.result.Ok? <==> MayLogCommutes(db, actor) && !LoggedOn(db, actor.value, today)
    ensures r.result.Ok? ==>
      var u := db.users[actor.value];
      var log := r.result.value;
      var points := score(u.commuteDistance.value, transport);
      && log.id == db.currentIds.commuteLogs
      && log.userId == actor.value && log.date == date && log.transport == transport
      && log.pointsEarned == points
      && r.db.commuteLogs == db.commuteLogs[log.id := log]
      && r.db.currentIds == db.currentIds.(commuteLogs := log.id + 1)
      && r.db.users == db.users && r.db.listings == db.listings
      && r.db.organizations ==
           var orgId := u.organizationId.value;
           if orgId in db.organizations then
             db.organizations[orgId := db.organizations[orgId].(totalCredits := db.organizations[orgId].totalCredits + points)]
           else db.organizations
    ensures WellFormed(db) ==> WellFormed(r.db)
  {
    if !HasRole(db, actor, Employee) then Response(db, Err(Unauthorized))
    else
      var u := SessionUser(db, actor).value;
      if !Truthy(u.organizationId) || u.status != Approved then Response(db, Err(NotAMember))
      else if u.commuteDistance.None? then Response(db, Err(NoCommuteDistance))
      else if LoggedOn(db, actor.value, today) then Response(db, Err(AlreadyLoggedToday))
      else
        var points := score(u.commuteDistance.value, transport);
        var (db1, log) := CreateCommuteLog(db, LogDraft(actor.value, date, transport, Some(points)));
        var org := OrgAt(db1, u.organizationId);
        if org.None? then Response(db1, Ok(log))
        else
          var (db2, _) := UpdateOrganization(db1, u.organizationId.value,
                                             NoOrgChanges.(totalCredits := Some(org.value.totalCredits + points)));
          Response(db2, Ok(log))
  }

  // ---------------------------------------------------------------------------
  // POST /api/listings

  /** An org admin offers `creditsAmount` of their organization's credits at
      `pricePerCredit`; the organization must hold at least that many credits
      now. Nothing is reserved: no organization changes. */
  function CreateListingFor(db: Db, actor: Option<int>, creditsAmount: real, pricePerCredit: real, now: int): (r: Response<Listing>)
    ensures !HasRole(db, actor, OrgAdmin) ==> r == Response(db, Err(Unauthorized))
    ensures HasRole(db, actor, OrgAdmin) &&
            (var org := OrgAt(db, SessionUser(db, actor).value.organizationId);
             org.None? || org.value.totalCredits < creditsAmount) ==>
      r == Response(db, Err(InsufficientCredits))
    ensures r.result.Ok? <==>
      && HasRole(db, actor, OrgAdmin)
      && var org := OrgAt(db, SessionUser(db, actor).value.organizationId);
      && org.Some? && org.value.totalCredits >= creditsAmount
    ensures r.result.Ok? ==>
      var listing := r.result.value;
      && listing.id == db.currentIds.listings
      && listing.organizationId == db.users[actor.value].organizationId
      && listing.creditsAmount == creditsAmount && listing.pricePerCredit == pricePerCredit
      && listing.status == Active && listing.createdAt == now
      && r.db.listings == db.listings[listing.id := listing]
      && r.db.currentIds == db.currentIds.(listings := listing.id + 1)
      && r.db.users == db.users && r.db.commuteLogs == db.commuteLogs
    ensures r.db.organizations == db.organizations
    ensures WellFormed(db) ==> WellFormed(r.db)
  {
    if !HasRole(db, actor, OrgAdmin) then Response(db, Err(Unauthorized))
    else
      var u := SessionUser(db, actor).value;
      var org := OrgAt(db, u.organizationId);
      if org.None? || org.value.totalCredits < creditsAmount then Response(db, Err(InsufficientCredits))
      else
        var (db1, listing) := CreateListing(db, ListingDraft(u.organizationId, Some(creditsAmount), Some(pricePerCredit), None, None), now);
        Response(db1, Ok(listing))
  }

  // ---------------------------------------------------------------------------
  // POST /api/purchases/:id

  function Cost(l: Listing): real {
    l.creditsAmount * l.pricePerCredit
  }

  /** Whether the purchase of `listingId` by the acting user passes every check:
      an org admin, an active listing, both organizations present, and enough
      virtual currency for the whole listing. */
  predicate PurchaseAllowed(db: Db, actor: Option<int>, listingId: int) {
    && HasRole(db, actor, OrgAdmin)
    && listingId in db.listings && db.listings[listingId].status == Active
    && var buyer := OrgAt(db, SessionUser(db, actor).value.organizationId);
    && var seller := OrgAt(db, db.listings[listingId].organizationId);
    && buyer.Some? && seller.Some?
    && buyer.value.virtualBalance >= Cost(db.listings[listingId])
  }

  /** The organizations after a purchase: the buyer is written from the record
      read before any write, then the seller is written from the record read
      before any write. When both are one organization the second write wins. */
  function AfterPurchase(orgs: map<int, Organization>, buyerId: int, sellerId: int, l: Listing): map<int, Organization>
    requires buyerId in orgs && sellerId in orgs
  {
    var buyer := orgs[buyerId];
    var seller := orgs[sellerId];
    orgs[buyerId := buyer.(virtualBalance := buyer.virtualBalance - Cost(l), totalCredits := buyer.totalCredits + l.creditsAmount)]
        [sellerId := seller.(virtualBalance := seller.virtualBalance + Cost(l), totalCredits := seller.totalCredits - l.creditsAmount)]
  }

  /** The buyer's organization pays `creditsAmount * pricePerCredit` to the
      seller's and receives `creditsAmount` credits from it; the listing is
      marked sold. Any failed check changes nothing. */
  function Purchase(db: Db, actor: Option<int>, listingId: int): (r: Response<()>)
    ensures !HasRole(db, actor, OrgAdmin) ==> r == Response(db, Err(Unauthorized))
    ensures HasRole(db, actor, OrgAdmin) && (listingId !in db.listings || db.listings[listingId].status != Active) ==>
      r == Response(db, Err(ListingNotFound))
    ensures HasRole(db, actor, OrgAdmin) && listingId in db.listings && db.listings[listingId].status == Active &&
            (OrgAt(db, SessionUser(db, actor).value.organizationId).None? ||
             OrgAt(db, db.listings[listingId].organizationId).None?) ==>
      r == Response(db, Err(InvalidOrganization))
    ensures HasRole(db, actor, OrgAdmin) && listingId in db.listings && db.listings[listingId].status == Active &&
            OrgAt(db, SessionUser(db, actor).value.organizationId).Some? &&
            OrgAt(db, db.listings[listingId].organizationId).Some? &&
            OrgAt(db, SessionUser(db, actor).value.organizationId).value.virtualBalance < Cost(db.listings[listingId]) ==>
      r == Response(db, Err(InsufficientFunds))
    ensures r.result.Ok? <==> PurchaseAllowed(db, actor, listingId)
    ensures r.result.Err? ==> r.db == db
    ensures r.result.Ok? ==>
      var l := db.listings[listingId];
      var buyerId := db.users[actor.value].organizationId.value;
      var sellerId := l.organizationId.value;
      && r.db.organizations == AfterPurchase(db.organizations, buyerId, sellerId, l)
      && r.db.listings == db.listings[listingId := l.(status := Sold)]
      && r.db.users == db.users && r.db.commuteLogs == db.commuteLogs && r.db.currentIds == db.currentIds
    ensures WellFormed(db) ==> WellFormed(r.db)
  {
    if !HasRole(db, actor, OrgAdmin) then Response(db, Err(Unauthorized))
    else if listingId !in db.listings || db.listings[listingId].status != Active then Response(db, Err(ListingNotFound))
    else
      var listing := db.listings[listingId];
      var buyerOrg := OrgAt(db, SessionUser(db, actor).value.organizationId);
      var sellerOrg := OrgAt(db, listing.organizationId);
      if buyerOrg.None? || sellerOrg.None? then Response(db, Err(InvalidOrganization))
      else
        var buyer := buyerOrg.value;
        var seller := sellerOrg.value;
        var buyerId := SessionUser(db, actor).value.organizationId.value;
        var sellerId := listing.organizationId.value;
        var totalCost := listing.creditsAmount * listing.pricePerCredit;
        if buyer.virtualBalance < totalCost then Response(db, Err(InsufficientFunds))
        else
          var (db1, _) := UpdateOrganization(db, buyerId, NoOrgChanges.(
            virtualBalance := Some(buyer.virtualBalance - totalCost),
            totalCredits := Some(buyer.totalCredits + listing.creditsAmount)));
          var (db2, _) := UpdateOrganization(db1, sellerId, NoOrgChanges.(
            virtualBalance := Some(seller.virtualBalance + totalCost),
            totalCredits := Some(seller.totalCredits - listing.creditsAmount)));
          assert db2.organizations == AfterPurchase(db.organizations, buyerId, sellerId, listing) by {
            assert buyer == db.organizations[buyerId] && seller == db.organizations[sellerId];
            var paidBuyer := buyer.(virtualBalance := buyer.virtualBalance - totalCost,
                                    totalCredits := buyer.totalCredits + listing.creditsAmount);
            assert db1.organizations == db.organizations[buyerId := paidBuyer];
            var paidSeller := db1.organizations[sellerId].(virtualBalance := seller.virtualBalance + totalCost,
                                                           totalCredits := seller.totalCredits - listing.creditsAmount);
            assert db2.organizations == db1.organizations[sellerId := paidSeller];
            assert paidSeller == seller.(virtualBalance := seller.virtualBalance + totalCost,
                                         totalCredits := seller.totalCredits - listing.creditsAmount);
            assert Cost(listing) == totalCost;
            assert AfterPurchase(db.organizations, buyerId, sellerId, listing)
                == db.organizations[buyerId := paidBuyer][sellerId := paidSeller];
          }
          var (db3, _) := UpdateListing(db2, listingId, NoListingChanges.(status := Some(Sold)));
          Response(db3, Ok(()))
  }

  // ---------------------------------------------------------------------------
  // PATCH /api/organizations/:id/approve and .../reject

  /** A system admin sets an organization's status; a missing organization makes
      the store throw, and nothing catches it. */
  function ReviewOrganization(db: Db, actor: Option<int>, orgId: int, p: OrgPatch): (r: Response<Organization>)
    ensures !HasRole(db, actor, SystemAdmin) ==> r == Response(db, Err(Unauthorized))
    ensures HasRole(db, actor, SystemAdmin) && orgId !in db.organizations ==>
      r == Response(db, Err(Uncaught("Organization not found")))
    ensures r.result.Ok? <==> HasRole(db, actor, SystemAdmin) && orgId in db.organizations
    ensures r.result.Ok? ==>
      && r.result.value == ApplyOrgPatch(db.organizations[orgId], p)
      && r.db == db.(organizations := db.organizations[orgId := r.result.value])
    ensures WellFormed(db) ==> WellFormed(r.db)
  {
    if !HasRole(db, actor, SystemAdmin) then Response(db, Err(Unauthorized))
    else
      var (db1, org) := UpdateOrganization(db, orgId, p);
      if org.None? then Response(db1, Err(Uncaught("Organization not found"))) else Response(db1, Ok(org.value))
  }

  /** `{ status: "approved" }`. */
  function ApproveOrganization(db: Db, actor: Option<int>, orgId: int): (r: Response<Organization>)
    ensures !HasRole(db, actor, SystemAdmin) ==> r == Response(db, Err(Unauthorized))
    ensures HasRole(db, actor, SystemAdmin) && orgId !in db.organizations ==>
      r == Response(db, Err(Uncaught("Organization not found")))
    ensures r.result.Ok? <==> HasRole(db, actor, SystemAdmin) && orgId in db.organizations
    ensures r.result.Ok? ==>
      && r.result.value == db.organizations[orgId].(status := Approved)
      && r.db == db.(organizations := db.organizations[orgId := r.result.value])
  {
    ReviewOrganization(db, actor, orgId, NoOrgChanges.(status := Some(Approved)))
  }

  /** `{ status: "rejected", rejectionReason: req.body.reason }`. */
  function RejectOrganization(db: Db, actor: Option<int>, orgId: int, reason: Option<string>): (r: Response<Organization>)
    ensures !HasRole(db, actor, SystemAdmin) ==> r == Response(db, Err(Unauthorized))
    ensures HasRole(db, actor, SystemAdmin) && orgId !in db.organizations ==>
      r == Response(db, Err(Uncaught("Organization not found")))
    ensures r.result.Ok? <==> HasRole(db, actor, SystemAdmin) && orgId in db.organizations
    ensures r.result.Ok? ==>
      && r.result.value == db.organizations[orgId].(status := Rejected, rejectionReason := reason)
      && r.db == db.(organizations := db.organizations[orgId := r.result.value])
  {
    ReviewOrganization(db, actor, orgId, NoOrgChanges.(status := Some(Rejected), rejectionReason := Some(reason)))
  }

  // ---------------------------------------------------------------------------
  // GET /api/dev/approve-all-orgs

  function ApprovedIfPending(o: Organization): Organization {
    if o.status == Pending then o.(status := Approved) else o
  }

  /** Every pending organization becomes approved; every other record stays. */
  function ApproveAllPendingOrganizations(db: Db): (r: Db)
    ensures r.organizations.Keys == db.organizations.Keys
    ensures forall id :: id in r.organizations ==> r.organizations[id].status != Pending
    ensures forall id :: id in db.organizations && db.organizations[id].status == Pending ==>
      r.organizations[id] == db.organizations[id].(status := Approved)
    ensures forall id :: id in db.organizations && db.organizations[id].status != Pending ==>
      r.organizations[id] == db.organizations[id]
    ensures forall id :: id in db.organizations ==>
      r.organizations[id] == db.organizations[id].(status := r.organizations[id].status)
    ensures r.users == db.users && r.commuteLogs == db.commuteLogs && r.listings == db.listings
    ensures r.currentIds == db.currentIds
    ensures WellFormed(db) ==> WellFormed(r)
  {
    db.(organizations := map id | id in db.organizations :: ApprovedIfPending(db.organizations[id]))
  }
}
