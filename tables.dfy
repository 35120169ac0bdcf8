/**
 * The in-memory store as a value: four id-keyed tables and the per-table id
 * counters, with every storage operation of `MemStorage` as a function from
 * the old tables to the new ones (and the record it returns). The class
 * `Storage.MemStorage` is proved to change its fields exactly as these
 * functions say.
 */
module Tables {
  import opened Wrappers
  import opened Schema

  /** `currentIds`: for each table, the id the next created record gets. */
  datatype Counters = Counters(users: int, organizations: int, commuteLogs: int, listings: int)

  datatype Db = Db(
    users: map<int, User>,
    organizations: map<int, Organization>,
    commuteLogs: map<int, CommuteLog>,
    listings: map<int, Listing>,
    currentIds: Counters)

  predicate UserIdsBelow(users: map<int, User>, next: int) {
    && 1 <= next
    && forall id :: id in users ==> 1 <= id < next && users[id].id == id
  }

  predicate OrgIdsBelow(orgs: map<int, Organization>, next: int) {
    && 1 <= next
    && forall id :: id in orgs ==> 1 <= id < next && orgs[id].id == id
  }

  predicate LogIdsBelow(logs: map<int, CommuteLog>, next: int) {
    && 1 <= next
    && forall id :: id in logs ==> 1 <= id < next && logs[id].id == id
  }

  predicate ListingIdsBelow(listings: map<int, Listing>, next: int) {
    && 1 <= next
    && forall id :: id in listings ==> 1 <= id < next && listings[id].id == id
  }

  /** What the store keeps true: every record is stored under its own id, and
      every id lies between 1 (the counters' start) and its table's counter. */
  predicate WellFormed(db: Db) {
    && UserIdsBelow(db.users, db.currentIds.users)
    && OrgIdsBelow(db.organizations, db.currentIds.organizations)
    && LogIdsBelow(db.commuteLogs, db.currentIds.commuteLogs)
    && ListingIdsBelow(db.listings, db.currentIds.listings)
  }

  /** The system administrator the store creates for itself on start-up. */
  const InitialAdmin := UserDraft("admin", "System Admin", SystemAdmin, Approved, None, None, None)

  /** The store right after construction: every counter at 1, then the
      initial administrator created. */
  function Initial(): (db: Db)
    ensures WellFormed(db)
    ensures db.users.Keys == {1} && db.users[1].role == SystemAdmin && db.users[1].status == Approved
    ensures db.organizations == map[] && db.commuteLogs == map[] && db.listings == map[]
    ensures db.currentIds == Counters(2, 1, 1, 1)
  {
    CreateUser(Db(map[], map[], map[], map[], Counters(1, 1, 1, 1)), InitialAdmin).0
  }

  // ---------------------------------------------------------------------------
  // Users

  /** `{ ...user, id, commuteDistance: user.commuteDistance ? ... : null }`:
      a distance of 0 is falsy and is stored as null. */
  function NewUser(id: int, d: UserDraft): User {
    User(id, d.username, d.name, d.role, d.status, d.organizationId, d.organizationRequest, None,
         if d.commuteDistance.Some? && d.commuteDistance.value != 0.0 then d.commuteDistance else None)
  }

  function CreateUser(db: Db, d: UserDraft): (r: (Db, User))
    ensures r.1.id == db.currentIds.users
    ensures r.0.currentIds == db.currentIds.(users := db.currentIds.users + 1)
    ensures r.0.users == db.users[r.1.id := r.1]
    ensures r.0.organizations == db.organizations && r.0.commuteLogs == db.commuteLogs
    ensures r.0.listings == db.listings
    ensures r.1.username == d.username && r.1.name == d.name
    ensures r.1.role == d.role && r.1.status == d.status
    ensures r.1.organizationId == d.organizationId && r.1.organizationRequest == d.organizationRequest
    ensures r.1.rejectionReason == None
    ensures r.1.commuteDistance == (if d.commuteDistance.Some? && d.commuteDistance.value != 0.0 then d.commuteDistance else None)
    ensures WellFormed(db) ==> WellFormed(r.0) && forall id :: id in db.users ==> id < r.1.id
  {
    var id := db.currentIds.users;
    var user := NewUser(id, d);
    (db.(users := db.users[id := user], currentIds := db.currentIds.(users := id + 1)), user)
  }

  /** Fails (`None`, "User not found") for an absent id; otherwise merges `p`
      into the stored user. */
  function UpdateUser(db: Db, id: int, p: UserPatch): (r: (Db, Option<User>))
    ensures r.1.None? <==> id !in db.users
    ensures r.1.None? ==> r.0 == db
    ensures r.1.Some? ==>
      && r.1.value == ApplyUserPatch(db.users[id], p)
      && r.0 == db.(users := db.users[id := r.1.value])
    ensures WellFormed(db) ==> WellFormed(r.0)
  {
    if id in db.users then
      var user := ApplyUserPatch(db.users[id], p);
      (db.(users := db.users[id := user]), Some(user))
    else
      (db, None)
  }

  // ---------------------------------------------------------------------------
  // Organizations

  /** `{ id, virtualBalance: "1000", totalCredits: "0", status: "pending", ...org }`. */
  function NewOrganization(id: int, d: OrgDraft): Organization {
    Organization(id, d.name, d.status.GetOr(Pending), d.totalCredits.GetOr(0.0),
                 d.virtualBalance.GetOr(1000.0), None)
  }

  function CreateOrganization(db: Db, d: OrgDraft): (r: (Db, Organization))
    ensures r.1.id == db.currentIds.organizations
    ensures r.0.currentIds == db.currentIds.(organizations := db.currentIds.organizations + 1)
    ensures r.0.organizations == db.organizations[r.1.id := r.1]
    ensures r.0.users == db.users && r.0.commuteLogs == db.commuteLogs && r.0.listings == db.listings
    ensures r.1.virtualBalance == (if d.virtualBalance.Some? then d.virtualBalance.value else 1000.0)
    ensures r.1.totalCredits == (if d.totalCredits.Some? then d.totalCredits.value else 0.0)
    ensures r.1.status == (if d.status.Some? then d.status.value else Pending)
    ensures r.1.name == d.name
    ensures r.1.rejectionReason == None
    ensures WellFormed(db) ==> WellFormed(r.0) && forall id :: id in db.organizations ==> id < r.1.id
  {
    var id := db.currentIds.organizations;
    var org := NewOrganization(id, d);
    (db.(organizations := db.organizations[id := org],
         currentIds := db.currentIds.(organizations := id + 1)), org)
  }

  function UpdateOrganization(db: Db, id: int, p: OrgPatch): (r: (Db, Option<Organization>))
    ensures r.1.None? <==> id !in db.organizations
    ensures r.1.None? ==> r.0 == db
    ensures r.1.Some? ==>
      && r.1.value == ApplyOrgPatch(db.organizations[id], p)
      && r.0 == db.(organizations := db.organizations[id := r.1.value])
    ensures WellFormed(db) ==> WellFormed(r.0)
  {
    if id in db.organizations then
      var org := ApplyOrgPatch(db.organizations[id], p);
      (db.(organizations := db.organizations[id := org]), Some(org))
    else
      (db, None)
  }

  // ---------------------------------------------------------------------------
  // Membership requests

  predicate IsPendingRequestFor(u: User, orgId: int) {
    u.status == Pending && u.organizationRequest == Some(orgId)
  }

  /** The users with a pending request for `orgId` among ids 1 .. below-1, in id order. */
  function PendingRequestsBelow(users: map<int, User>, orgId: int, below: int): (r: seq<User>)
    requires forall id :: id in users ==> users[id].id == id
    decreases below
    ensures forall u :: u in r <==> u.id in users && users[u.id] == u && 1 <= u.id < below && IsPendingRequestFor(u, orgId)
    ensures forall i, j :: 0 <= i < j < |r| ==> r[i].id < r[j].id
  {
    if below <= 1 then []
    else
      var rest := PendingRequestsBelow(users, orgId, below - 1);
      if below - 1 in users && IsPendingRequestFor(users[below - 1], orgId) then rest + [users[below - 1]]
      else rest
  }

  /** `getPendingOrganizationRequests`: exactly the stored users whose status is
      pending and whose request names `orgId`, in insertion (id) order. (Every
      record is stored under its own id, so "stored" reads `users[u.id] == u`.) */
  function PendingOrganizationRequests(db: Db, orgId: int): (r: seq<User>)
    requires WellFormed(db)
    ensures forall u :: u in r <==> u.id in db.users && db.users[u.id] == u && u.status == Pending && u.organizationRequest == Some(orgId)
    ensures forall i, j :: 0 <= i < j < |r| ==> r[i].id < r[j].id
  {
    PendingRequestsBelow(db.users, orgId, db.currentIds.users)
  }

  /** Approval of a join request: status approved, member of `orgId`, request
      cleared, every other field kept. Nothing is required of the user's
      current status or request; only a missing user fails. */
  function ApproveOrganizationRequest(db: Db, userId: int, orgId: int): (r: (Db, Option<User>))
    ensures r.1.None? <==> userId !in db.users
    ensures r.1.None? ==> r.0 == db
    ensures r.1.Some? ==>
      && r.1.value == db.users[userId].(status := Approved, organizationId := Some(orgId), organizationRequest := None)
      && r.0 == db.(users := db.users[userId := r.1.value])
    ensures WellFormed(db) ==> WellFormed(r.0)
  {
    if userId in db.users then
      var user := db.users[userId].(status := Approved, organizationId := Some(orgId), organizationRequest := None);
      (db.(users := db.users[userId := user]), Some(user))
    else
      (db, None)
  }

  /** `reason || "Request rejected"`: an absent or empty reason gives the default. */
  function RejectionText(reason: Option<string>): string {
    if reason.Some? && reason.value != "" then reason.value else "Request rejected"
  }

  /** Rejection of a join request: status rejected, request cleared, reason set,
      `organizationId` untouched. `orgId` is not used, as in the source. */
  function RejectOrganizationRequest(db: Db, userId: int, orgId: int, reason: Option<string>): (r: (Db, Option<User>))
    ensures r.1.None? <==> userId !in db.users
    ensures r.1.None? ==> r.0 == db
    ensures r.1.Some? ==>
      && r.1.value == db.users[userId].(status := Rejected, organizationRequest := None,
           rejectionReason := Some(if reason.Some? && reason.value != "" then reason.value else "Request rejected"))
      && r.0 == db.(users := db.users[userId := r.1.value])
    ensures WellFormed(db) ==> WellFormed(r.0)
  {
    if userId in db.users then
      var user := db.users[userId].(status := Rejected, organizationRequest := None,
                                    rejectionReason := Some(RejectionText(reason)));
      (db.(users := db.users[userId := user]), Some(user))
    else
      (db, None)
  }

  // ---------------------------------------------------------------------------
  // Commute logs

  /** `{ id, ...log, pointsEarned: log.pointsEarned?.toString() ?? "0" }`. */
  function NewCommuteLog(id: int, d: LogDraft): CommuteLog {
    CommuteLog(id, d.userId, d.date, d.transport, d.pointsEarned.GetOr(0.0))
  }

  function CreateCommuteLog(db: Db, d: LogDraft): (r: (Db, CommuteLog))
    ensures r.1.id == db.currentIds.commuteLogs
    ensures r.0.currentIds == db.currentIds.(commuteLogs := db.currentIds.commuteLogs + 1)
    ensures r.0.commuteLogs == db.commuteLogs[r.1.id := r.1]
    ensures r.0.users == db.users && r.0.organizations == db.organizations && r.0.listings == db.listings
    ensures r.1.userId == d.userId && r.1.date == d.date && r.1.transport == d.transport
    ensures r.1.pointsEarned == (if d.pointsEarned.Some? then d.pointsEarned.value else 0.0)
    ensures WellFormed(db) ==> WellFormed(r.0) && forall id :: id in db.commuteLogs ==> id < r.1.id
  {
    var id := db.currentIds.commuteLogs;
    var log := NewCommuteLog(id, d);
    (db.(commuteLogs := db.commuteLogs[id := log], currentIds := db.currentIds.(commuteLogs := id + 1)), log)
  }

  function UserLogsBelow(logs: map<int, CommuteLog>, userId: int, below: int): (r: seq<CommuteLog>)
    requires forall id :: id in logs ==> logs[id].id == id
    decreases below
    ensures forall l :: l in r <==> l.id in logs && logs[l.id] == l && 1 <= l.id < below && l.userId == userId
    ensures forall i, j :: 0 <= i < j < |r| ==> r[i].id < r[j].id
  {
    if below <= 1 then []
    else
      var rest := UserLogsBelow(logs, userId, below - 1);
      if below - 1 in logs && logs[below - 1].userId == userId then rest + [logs[below - 1]]
      else rest
  }

  /** `getUserCommuteLogs`: exactly the logs of `userId`, in insertion (id) order. */
  function UserCommuteLogs(db: Db, userId: int): (r: seq<CommuteLog>)
    requires WellFormed(db)
    ensures forall l :: l in r <==> l.id in db.commuteLogs && db.commuteLogs[l.id] == l && l.userId == userId
    ensures forall i, j :: 0 <= i < j < |r| ==> r[i].id < r[j].id
  {
    UserLogsBelow(db.commuteLogs, userId, db.currentIds.commuteLogs)
  }

  // ---------------------------------------------------------------------------
  // Listings

  /** `{ id, status: "active", createdAt: now, ...listing, creditsAmount: ... ?? "0",
      pricePerCredit: ... ?? "0" }`. */
  function NewListing(id: int, d: ListingDraft, now: int): Listing {
    Listing(id, d.organizationId, d.creditsAmount.GetOr(0.0), d.pricePerCredit.GetOr(0.0),
            d.status.GetOr(Active), d.createdAt.GetOr(now))
  }

  function CreateListing(db: Db, d: ListingDraft, now: int): (r: (Db, Listing))
    ensures r.1.id == db.currentIds.listings
    ensures r.0.currentIds == db.currentIds.(listings := db.currentIds.listings + 1)
    ensures r.0.listings == db.listings[r.1.id := r.1]
    ensures r.0.users == db.users && r.0.organizations == db.organizations && r.0.commuteLogs == db.commuteLogs
    ensures r.1.status == (if d.status.Some? then d.status.value else Active)
    ensures r.1.organizationId == d.organizationId
    ensures r.1.creditsAmount == (if d.creditsAmount.Some? then d.creditsAmount.value else 0.0)
    ensures r.1.pricePerCredit == (if d.pricePerCredit.Some? then d.pricePerCredit.value else 0.0)
    ensures r.1.createdAt == (if d.createdAt.Some? then d.createdAt.value else now)
    ensures WellFormed(db) ==> WellFormed(r.0) && forall id :: id in db.listings ==> id < r.1.id
  {
    var id := db.currentIds.listings;
    var listing := NewListing(id, d, now);
    (db.(listings := db.listings[id := listing], currentIds := db.currentIds.(listings := id + 1)), listing)
  }

  function UpdateListing(db: Db, id: int, p: ListingPatch): (r: (Db, Option<Listing>))
    ensures r.1.None? <==> id !in db.listings
    ensures r.1.None? ==> r.0 == db
    ensures r.1.Some? ==>
      && r.1.value == ApplyListingPatch(db.listings[id], p)
      && r.0 == db.(listings := db.listings[id := r.1.value])
    ensures WellFormed(db) ==> WellFormed(r.0)
  {
    if id in db.listings then
      var listing := ApplyListingPatch(db.listings[id], p);
      (db.(listings := db.listings[id := listing]), Some(listing))
    else
      (db, None)
  }

  function ActiveListingsBelow(listings: map<int, Listing>, below: int): (r: seq<Listing>)
    requires forall id :: id in listings ==> listings[id].id == id
    decreases below
    ensures forall l :: l in r <==> l.id in listings && listings[l.id] == l && 1 <= l.id < below && l.status == Active
    ensures forall i, j :: 0 <= i < j < |r| ==> r[i].id < r[j].id
  {
    if below <= 1 then []
    else
      var rest := ActiveListingsBelow(listings, below - 1);
      if below - 1 in listings && listings[below - 1].status == Active then rest + [listings[below - 1]]
      else rest
  }

  /** `getActiveListings`: exactly the listings whose status is active, in
      insertion (id) order. */
  function ActiveListings(db: Db): (r: seq<Listing>)
    requires WellFormed(db)
    ensures forall l :: l in r <==> l.id in db.listings && db.listings[l.id] == l && l.status == Active
    ensures forall i, j :: 0 <= i < j < |r| ==> r[i].id < r[j].id
  {
    ActiveListingsBelow(db.listings, db.currentIds.listings)
  }
}
