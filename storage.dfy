/**
 * `MemStorage`: the store as the source keeps it, an object whose four maps
 * and id counters its methods update in place. Each method is proved to leave
 * the fields exactly as the corresponding `Tables` function says, so that what
 * is proved of those functions holds of the object.
 */
module Storage {
  import opened Wrappers
  import opened Schema
  import Tables

  class MemStorage {
    var users: map<int, User>
    var organizations: map<int, Organization>
    var commuteLogs: map<int, CommuteLog>
    var listings: map<int, Listing>
    var currentIds: Tables.Counters

    /** The tables as a value. */
    function State(): Tables.Db
      reads this
    {
      Tables.Db(users, organizations, commuteLogs, listings, currentIds)
    }

    ghost predicate Valid()
      reads this
    {
      Tables.WellFormed(State())
    }

    /** Empty tables, every counter at 1, then the initial system administrator. */
    constructor ()
      ensures Valid() && State() == Tables.Initial()
    {
      users, organizations, commuteLogs, listings := map[], map[], map[], map[];
      currentIds := Tables.Counters(1, 1, 1, 1);
      new;
      var _ := CreateUser(Tables.InitialAdmin);
    }

    // -------------------------------------------------------------------------
    // Users

    /** `users.get(id)`: `None` is `undefined`. */
    function GetUser(id: int): (r: Option<User>)
      reads this
      ensures r.Some? <==> id in users
      ensures r.Some? ==> r.value == users[id]
    {
      if id in users then Some(users[id]) else None
    }

    method CreateUser(d: UserDraft) returns (user: User)
      requires Valid()
      modifies this
      ensures Valid()
      ensures (State(), user) == Tables.CreateUser(old(State()), d)
    {
      var id := currentIds.users;
      currentIds := currentIds.(users := id + 1);
      user := Tables.NewUser(id, d);
      users := users[id := user];
    }

    /** `None` is the thrown "User not found". */
    method UpdateUser(id: int, updates: UserPatch) returns (user: Option<User>)
      requires Valid()
      modifies this
      ensures Valid()
      ensures (State(), user) == Tables.UpdateUser(old(State()), id, updates)
    {
      if id !in users {
        return None;
      }
      var updated := ApplyUserPatch(users[id], updates);
      users := users[id := updated];
      user := Some(updated);
    }

    // -------------------------------------------------------------------------
    // Organizations

    function GetOrganization(id: int): (r: Option<Organization>)
      reads this
      ensures r.Some? <==> id in organizations
      ensures r.Some? ==> r.value == organizations[id]
    {
      if id in organizations then Some(organizations[id]) else None
    }

    /** The current organizations table. */
    function GetAllOrganizations(): (r: map<int, Organization>)
      reads this
      ensures r == State().organizations
    {
      organizations
    }

    method CreateOrganization(d: OrgDraft) returns (org: Organization)
      requires Valid()
      modifies this
      ensures Valid()
      ensures (State(), org) == Tables.CreateOrganization(old(State()), d)
    {
      var id := currentIds.organizations;
      currentIds := currentIds.(organizations := id + 1);
      org := Tables.NewOrganization(id, d);
      organizations := organizations[id := org];
    }

    /** `None` is the thrown "Organization not found". */
    method UpdateOrganization(id: int, updates: OrgPatch) returns (org: Option<Organization>)
      requires Valid()
      modifies this
      ensures Valid()
      ensures (State(), org) == Tables.UpdateOrganization(old(State()), id, updates)
    {
      if id !in organizations {
        return None;
      }
      var updated := ApplyOrgPatch(organizations[id], updates);
      organizations := organizations[id := updated];
      org := Some(updated);
    }

    // -------------------------------------------------------------------------
    // Membership requests

    function GetPendingOrganizationRequests(orgId: int): (r: seq<User>)
      reads this
      requires Valid()
      ensures forall u :: u in r <==> u.id in users && users[u.id] == u && u.status == Pending && u.organizationRequest == Some(orgId)
      ensures forall i, j :: 0 <= i < j < |r| ==> r[i].id < r[j].id
    {
      Tables.PendingOrganizationRequests(State(), orgId)
    }

    method ApproveOrganizationRequest(userId: int, orgId: int) returns (user: Option<User>)
      requires Valid()
      modifies this
      ensures Valid()
      ensures (State(), user) == Tables.ApproveOrganizationRequest(old(State()), userId, orgId)
    {
      if userId !in users {
        return None;
      }
      var updated := users[userId].(status := Approved, organizationId := Some(orgId), organizationRequest := None);
      users := users[userId := updated];
      user := Some(updated);
    }

    method RejectOrganizationRequest(userId: int, orgId: int, reason: Option<string>) returns (user: Option<User>)
      requires Valid()
      modifies this
      ensures Valid()
      ensures (State(), user) == Tables.RejectOrganizationRequest(old(State()), userId, orgId, reason)
    {
      if userId !in users {
        return None;
      }
      var updated := users[userId].(status := Rejected, organizationRequest := None,
                                    rejectionReason := Some(Tables.RejectionText(reason)));
      users := users[userId := updated];
      user := Some(updated);
    }

    // -------------------------------------------------------------------------
    // Commute logs

    method CreateCommuteLog(d: LogDraft) returns (log: CommuteLog)
      requires Valid()
      modifies this
      ensures Valid()
      ensures (State(), log) == Tables.CreateCommuteLog(old(State()), d)
    {
      var id := currentIds.commuteLogs;
      currentIds := currentIds.(commuteLogs := id + 1);
      log := Tables.NewCommuteLog(id, d);
      commuteLogs := commuteLogs[id := log];
    }

    function GetUserCommuteLogs(userId: int): (r: seq<CommuteLog>)
      reads this
      requires Valid()
      ensures forall l :: l in r <==> l.id in commuteLogs && commuteLogs[l.id] == l && l.userId == userId
      ensures forall i, j :: 0 <= i < j < |r| ==> r[i].id < r[j].id
    {
      Tables.UserCommuteLogs(State(), userId)
    }

    // -------------------------------------------------------------------------
    // Listings

    /** `now` is the clock reading the source takes with `new Date()`. */
    method CreateListing(d: ListingDraft, now: int) returns (listing: Listing)
      requires Valid()
      modifies this
      ensures Valid()
      ensures (State(), listing) == Tables.CreateListing(old(State()), d, now)
    {
      var id := currentIds.listings;
      currentIds := currentIds.(listings := id + 1);
      listing := Tables.NewListing(id, d, now);
      listings := listings[id := listing];
    }

    function GetActiveListings(): (r: seq<Listing>)
      reads this
      requires Valid()
      ensures forall l :: l in r <==> l.id in listings && listings[l.id] == l && l.status == Active
      ensures forall i, j :: 0 <= i < j < |r| ==> r[i].id < r[j].id
    {
      Tables.ActiveListings(State())
    }

    /** `None` is the thrown "Listing not found". */
    method UpdateListing(id: int, updates: ListingPatch) returns (listing: Option<Listing>)
      requires Valid()
      modifies this
      ensures Valid()
      ensures (State(), listing) == Tables.UpdateListing(old(State()), id, updates)
    {
      if id !in listings {
        return None;
      }
      var updated := ApplyListingPatch(listings[id], updates);
      listings := listings[id := updated];
      listing := Some(updated);
    }

    function GetListing(id: int): (r: Option<Listing>)
      reads this
      ensures r.Some? <==> id in listings
      ensures r.Some? ==> r.value == listings[id]
    {
      if id in listings then Some(listings[id]) else None
    }
  }
}
