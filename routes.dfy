/**
 * The mutating request handlers as the source writes them: guarded sequences
 * of reads and writes on the store object. Each is proved to leave the store,
 * and to answer, exactly as the function of the same request in `Handlers`
 * says.
 */
module Routes {
  import opened Wrappers
  import opened Schema
  import opened Tables
  import opened Handlers
  import opened Storage

  /** POST /api/organizations */
  method PostOrganization(s: MemStorage, actor: Option<int>, body: OrgDraft) returns (result: Result<Organization, Failure>)
    requires s.Valid()
    modifies s
    ensures s.Valid()
    ensures Response(s.State(), result) == RegisterOrganization(old(s.State()), actor, body)
  {
    var user := SessionUser(s.State(), actor);
    if user.None? || user.value.role != OrgAdmin {
      return Err(Unauthorized);
    }
    var org := s.CreateOrganization(body);
    var _ := s.UpdateUser(user.value.id, NoUserChanges.(organizationId := Some(Some(org.id)), status := Some(Approved)));
    result := Ok(org);
  }

  /** POST /api/organizations/:id/request */
  method PostJoinRequest(s: MemStorage, actor: Option<int>, orgId: int) returns (result: Result<User, Failure>)
    requires s.Valid()
    modifies s
    ensures s.Valid()
    ensures Response(s.State(), result) == RequestToJoin(old(s.State()), actor, orgId)
  {
    var user := SessionUser(s.State(), actor);
    if user.None? || user.value.role != Employee {
      return Err(Unauthorized);
    }
    var org := s.GetOrganization(orgId);
    if org.None? {
      return Err(OrganizationNotFound);
    }
    if org.value.status != Approved {
      return Err(OrganizationNotApproved);
    }
    assert user.value.id == actor.value;
    var updated := s.UpdateUser(user.value.id, NoUserChanges.(organizationRequest := Some(Some(orgId)), status := Some(Pending)));
    result := Ok(updated.value);
  }

  /** POST /api/organizations/:orgId/requests/:userId/approve */
  method PostApproveJoinRequest(s: MemStorage, actor: Option<int>, orgId: int, userId: int) returns (result: Result<User, Failure>)
    requires s.Valid()
    modifies s
    ensures s.Valid()
    ensures Response(s.State(), result) == ApproveJoinRequest(old(s.State()), actor, orgId, userId)
  {
    var user := SessionUser(s.State(), actor);
    if user.None? || user.value.role != OrgAdmin || user.value.organizationId != Some(orgId) {
      return Err(Unauthorized);
    }
    var updated := s.ApproveOrganizationRequest(userId, orgId);
    if updated.None? {
      return Err(Reply(400, "User not found"));
    }
    result := Ok(updated.value);
  }

  /** POST /api/organizations/:orgId/requests/:userId/reject */
  method PostRejectJoinRequest(s: MemStorage, actor: Option<int>, orgId: int, userId: int, reason: Option<string>)
    returns (result: Result<User, Failure>)
    requires s.Valid()
    modifies s
    ensures s.Valid()
    ensures Response(s.State(), result) == RejectJoinRequest(old(s.State()), actor, orgId, userId, reason)
  {
    var user := SessionUser(s.State(), actor);
    if user.None? || user.value.role != OrgAdmin || user.value.organizationId != Some(orgId) {
      return Err(Unauthorized);
    }
    var updated := s.RejectOrganizationRequest(userId, orgId, reason);
    if updated.None? {
      return Err(Reply(400, "User not found"));
    }
    result := Ok(updated.value);
  }

  /** PATCH /api/users/:id/approve */
  method PatchApproveUser(s: MemStorage, actor: Option<int>, userId: int) returns (result: Result<User, Failure>)
    requires s.Valid()
    modifies s
    ensures s.Valid()
    ensures Response(s.State(), result) == ApproveUser(old(s.State()), actor, userId)
  {
    var user := SessionUser(s.State(), actor);
    if user.None? || user.value.role != OrgAdmin {
      return Err(Unauthorized);
    }
    var updated := s.UpdateUser(userId, NoUserChanges.(status := Some(Approved)));
    if updated.None? {
      return Err(Uncaught("User not found"));
    }
    result := Ok(updated.value);
  }

  /** PATCH /api/users/:id/commute-distance */
  method PatchCommuteDistance(s: MemStorage, actor: Option<int>, userId: int, distance: Option<real>)
    returns (result: Result<User, Failure>)
    requires s.Valid()
    modifies s
    ensures s.Valid()
    ensures Response(s.State(), result) == SetCommuteDistance(old(s.State()), actor, userId, distance)
  {
    var user := SessionUser(s.State(), actor);
    if user.None? || user.value.id != userId {
      return Err(Unauthorized);
    }
    assert user.value.id == actor.value;
    var updated := s.UpdateUser(user.value.id, NoUserChanges.(commuteDistance := Some(distance)));
    result := Ok(updated.value);
  }

  /** POST /api/commute-logs. `today` is the server's current day, `date` the
      day the client sent, `score` the points function. */
  method PostCommuteLog(s: MemStorage, actor: Option<int>, today: int, date: int, transport: string,
                        score: (real, string) -> real) returns (result: Result<CommuteLog, Failure>)
    requires s.Valid()
    modifies s
    ensures s.Valid()
    ensures Response(s.State(), result) == LogCommute(old(s.State()), actor, today, date, transport, score)
  {
    var user := SessionUser(s.State(), actor);
    if user.None? || user.value.role != Employee {
      return Err(Unauthorized);
    }
    var u := user.value;
    if !Truthy(u.organizationId) || u.status != Approved {
      return Err(NotAMember);
    }
    if u.commuteDistance.None? {
      return Err(NoCommuteDistance);
    }
    var logs := s.GetUserCommuteLogs(u.id);
    var existing := exists i | 0 <= i < |logs| :: logs[i].date == today;
    assert existing <==> LoggedOn(s.State(), actor.value, today) by {
      if LoggedOn(s.State(), actor.value, today) {
        forall id | id in s.commuteLogs && s.commuteLogs[id].userId == actor.value && s.commuteLogs[id].date == today
          ensures existing
        {
          assert s.commuteLogs[id] in logs;
        }
      }
      forall i | 0 <= i < |logs| && logs[i].date == today
        ensures LoggedOn(s.State(), actor.value, today)
      {
        assert logs[i] in logs;
      }
    }
    if existing {
      return Err(AlreadyLoggedToday);
    }
    var points := score(u.commuteDistance.value, transport);
    var log := s.CreateCommuteLog(LogDraft(u.id, date, transport, Some(points)));
    var org := s.GetOrganization(u.organizationId.value);
    if org.Some? {
      var _ := s.UpdateOrganization(org.value.id, NoOrgChanges.(totalCredits := Some(org.value.totalCredits + points)));
    }
    result := Ok(log);
  }

  /** POST /api/listings. `now` is the server's clock reading. */
  method PostListing(s: MemStorage, actor: Option<int>, creditsAmount: real, pricePerCredit: real, now: int)
    returns (result: Result<Listing, Failure>)
    requires s.Valid()
    modifies s
    ensures s.Valid()
    ensures Response(s.State(), result) == CreateListingFor(old(s.State()), actor, creditsAmount, pricePerCredit, now)
  {
    var user := SessionUser(s.State(), actor);
    if user.None? || user.value.role != OrgAdmin {
      return Err(Unauthorized);
    }
    // `getOrganization(null)` finds nothing
    var org := if user.value.organizationId.Some? then s.GetOrganization(user.value.organizationId.value) else None;
    if org.None? || org.value.totalCredits < creditsAmount {
      return Err(InsufficientCredits);
    }
    var listing := s.CreateListing(ListingDraft(user.value.organizationId, Some(creditsAmount), Some(pricePerCredit), None, None), now);
    result := Ok(listing);
  }

  /** POST /api/purchases/:id. Both organizations are read before either is
      written, and each write is computed from its own earlier read. */
  method PostPurchase(s: MemStorage, actor: Option<int>, listingId: int) returns (result: Result<(), Failure>)
    requires s.Valid()
    modifies s
    ensures s.Valid()
    ensures Response(s.State(), result) == Purchase(old(s.State()), actor, listingId)
  {
    var user := SessionUser(s.State(), actor);
    if user.None? || user.value.role != OrgAdmin {
      return Err(Unauthorized);
    }
    var listing := s.GetListing(listingId);
    if listing.None? || listing.value.status != Active {
      return Err(ListingNotFound);
    }
    var buyerOrg := if user.value.organizationId.Some? then s.GetOrganization(user.value.organizationId.value) else None;
    var sellerOrg := if listing.value.organizationId.Some? then s.GetOrganization(listing.value.organizationId.value) else None;
    if buyerOrg.None? || sellerOrg.None? {
      return Err(InvalidOrganization);
    }
    var l := listing.value;
    var totalCost := l.creditsAmount * l.pricePerCredit;
    if buyerOrg.value.virtualBalance < totalCost {
      return Err(InsufficientFunds);
    }
    ghost var db0 := s.State();
    assert buyerOrg.value.id == user.value.organizationId.value;
    assert sellerOrg.value.id == l.organizationId.value && l.id == listingId;
    var buyerUpdate := NoOrgChanges.(
      virtualBalance := Some(buyerOrg.value.virtualBalance - totalCost),
      totalCredits := Some(buyerOrg.value.totalCredits + l.creditsAmount));
    var sellerUpdate := NoOrgChanges.(
      virtualBalance := Some(sellerOrg.value.virtualBalance + totalCost),
      totalCredits := Some(sellerOrg.value.totalCredits - l.creditsAmount));
    var _ := s.UpdateOrganization(buyerOrg.value.id, buyerUpdate);
    ghost var db1 := s.State();
    var _ := s.UpdateOrganization(sellerOrg.value.id, sellerUpdate);
    ghost var db2 := s.State();
    var _ := s.UpdateListing(l.id, NoListingChanges.(status := Some(Sold)));
    assert PurchaseAllowed(db0, actor, listingId);
    assert db1.organizations == db0.organizations[buyerOrg.value.id := ApplyOrgPatch(buyerOrg.value, buyerUpdate)];
    assert db2.organizations == db1.organizations[sellerOrg.value.id := ApplyOrgPatch(sellerOrg.value, sellerUpdate)];
    assert Cost(l) == totalCost;
    assert s.organizations == AfterPurchase(db0.organizations, buyerOrg.value.id, sellerOrg.value.id, l);
    assert s.listings == db0.listings[listingId := l.(status := Sold)];
    result := Ok(());
  }

  /** PATCH /api/organizations/:id/approve */
  method PatchApproveOrganization(s: MemStorage, actor: Option<int>, orgId: int) returns (result: Result<Organization, Failure>)
    requires s.Valid()
    modifies s
    ensures s.Valid()
    ensures Response(s.State(), result) == ApproveOrganization(old(s.State()), actor, orgId)
  {
    var user := SessionUser(s.State(), actor);
    if user.None? || user.value.role != SystemAdmin {
      return Err(Unauthorized);
    }
    var org := s.UpdateOrganization(orgId, NoOrgChanges.(status := Some(Approved)));
    if org.None? {
      return Err(Uncaught("Organization not found"));
    }
    result := Ok(org.value);
  }

  /** PATCH /api/organizations/:id/reject */
  method PatchRejectOrganization(s: MemStorage, actor: Option<int>, orgId: int, reason: Option<string>)
    returns (result: Result<Organization, Failure>)
    requires s.Valid()
    modifies s
    ensures s.Valid()
    ensures Response(s.State(), result) == RejectOrganization(old(s.State()), actor, orgId, reason)
  {
    var user := SessionUser(s.State(), actor);
    if user.None? || user.value.role != SystemAdmin {
      return Err(Unauthorized);
    }
    var org := s.UpdateOrganization(orgId, NoOrgChanges.(status := Some(Rejected), rejectionReason := Some(reason)));
    if org.None? {
      return Err(Uncaught("Organization not found"));
    }
    result := Ok(org.value);
  }

  /** GET /api/dev/approve-all-orgs: walks a snapshot of the organizations in
      the map's order (insertion order, which is id order) and approves each one
      that was pending. */
  method ApproveAllOrganizations(s: MemStorage)
    requires s.Valid()
    modifies s
    ensures s.Valid()
    ensures s.State() == ApproveAllPendingOrganizations(old(s.State()))
  {
    var organizations := s.GetAllOrganizations();
    var next := s.currentIds.organizations;
    for id := 1 to next
      invariant s.Valid()
      invariant s.users == old(s.users) && s.commuteLogs == old(s.commuteLogs) && s.listings == old(s.listings)
      invariant s.currentIds == old(s.currentIds)
      invariant s.organizations.Keys == organizations.Keys
      invariant forall k :: k in organizations ==>
        s.organizations[k] == if k < id then ApprovedIfPending(organizations[k]) else organizations[k]
    {
      if id in organizations && organizations[id].status == Pending {
        var _ := s.UpdateOrganization(id, NoOrgChanges.(status := Some(Approved)));
      }
    }
    var expected := ApproveAllPendingOrganizations(old(s.State())).organizations;
    assert forall k :: k in expected ==> s.organizations[k] == expected[k];
    assert s.organizations == expected;
  }
}
