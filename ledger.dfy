/**
 * Properties of the credit ledger, the membership workflow and the
 * marketplace that span more than one request or the whole store: system-wide
 * sums, the non-negativity of balances, once-a-day commute logging, and what
 * approval does to a user. Also the corrected purchase and approval rules the
 * source evidently meant.
 */
module Ledger {
  import opened Wrappers
  import opened Schema
  import opened Tables
  import opened Handlers

  // ---------------------------------------------------------------------------
  // System-wide sums

  function Balance(o: Organization): real { o.virtualBalance }
  function Credits(o: Organization): real { o.totalCredits }

  /** The sum of `field` over the organizations with ids 1 .. below-1. */
  function SumBelow(orgs: map<int, Organization>, below: int, field: Organization -> real): real
    decreases below
  {
    if below <= 1 then 0.0
    else SumBelow(orgs, below - 1, field) + (if below - 1 in orgs then field(orgs[below - 1]) else 0.0)
  }

  /** The virtual currency of all organizations together. */
  function TotalBalance(db: Db): real {
    SumBelow(db.organizations, db.currentIds.organizations, Balance)
  }

  /** The credits of all organizations together. */
  function TotalCredits(db: Db): real {
    SumBelow(db.organizations, db.currentIds.organizations, Credits)
  }

  /** Replacing one stored organization changes a sum by the difference of the
      two records' fields, and only when its id is in range. */
  lemma {:induction false} SumBelowAfterWrite(orgs: map<int, Organization>, id: int, o: Organization, below: int,
                                              field: Organization -> real)
    requires id in orgs
    ensures SumBelow(orgs[id := o], below, field)
         == SumBelow(orgs, below, field) + (if 1 <= id < below then field(o) - field(orgs[id]) else 0.0)
  {
    if below > 1 {
      SumBelowAfterWrite(orgs, id, o, below - 1, field);
    }
  }

  // ---------------------------------------------------------------------------
  // Purchases

  /** A purchase between two different organizations moves the price from buyer
      to seller and the credits from seller to buyer: each pair's sum is kept,
      the system-wide sums are kept, and the buyer cannot go below zero. */
  lemma PurchaseConservesTotals(db: Db, actor: Option<int>, listingId: int)
    requires WellFormed(db)
    requires PurchaseAllowed(db, actor, listingId)
    requires db.users[actor.value].organizationId != db.listings[listingId].organizationId
    ensures var r := Purchase(db, actor, listingId);
      var l := db.listings[listingId];
      var b := db.users[actor.value].organizationId.value;
      var s := l.organizationId.value;
      && r.result.Ok?
      && r.db.organizations[b].virtualBalance == db.organizations[b].virtualBalance - Cost(l)
      && r.db.organizations[b].totalCredits == db.organizations[b].totalCredits + l.creditsAmount
      && r.db.organizations[s].virtualBalance == db.organizations[s].virtualBalance + Cost(l)
      && r.db.organizations[s].totalCredits == db.organizations[s].totalCredits - l.creditsAmount
      && r.db.organizations[b].virtualBalance >= 0.0
      && r.db.organizations[b].virtualBalance + r.db.organizations[s].virtualBalance
         == db.organizations[b].virtualBalance + db.organizations[s].virtualBalance
      && r.db.organizations[b].totalCredits + r.db.organizations[s].totalCredits
         == db.organizations[b].totalCredits + db.organizations[s].totalCredits
      && TotalBalance(r.db) == TotalBalance(db)
      && TotalCredits(r.db) == TotalCredits(db)
  {
    var r := Purchase(db, actor, listingId);
    var l := db.listings[listingId];
    var b := db.users[actor.value].organizationId.value;
    var s := l.organizationId.value;
    var orgs := db.organizations;
    var paidBuyer := orgs[b].(virtualBalance := orgs[b].virtualBalance - Cost(l), totalCredits := orgs[b].totalCredits + l.creditsAmount);
    var paidSeller := orgs[s].(virtualBalance := orgs[s].virtualBalance + Cost(l), totalCredits := orgs[s].totalCredits - l.creditsAmount);
    assert r.db.organizations == orgs[b := paidBuyer][s := paidSeller];
    var n := db.currentIds.organizations;
    SumBelowAfterWrite(orgs, b, paidBuyer, n, Balance);
    SumBelowAfterWrite(orgs[b := paidBuyer], s, paidSeller, n, Balance);
    SumBelowAfterWrite(orgs, b, paidBuyer, n, Credits);
    SumBelowAfterWrite(orgs[b := paidBuyer], s, paidSeller, n, Credits);
  }

  /** When an organization buys its own listing, the second write (the
      seller's, computed from the record read before the first write) wins: the
      organization receives the price without paying it and loses the credits
      without receiving them. Virtual currency is created out of nothing. */
  lemma SelfPurchaseMintsCurrency(db: Db, actor: Option<int>, listingId: int)
    requires WellFormed(db)
    requires PurchaseAllowed(db, actor, listingId)
    requires db.users[actor.value].organizationId == db.listings[listingId].organizationId
    ensures var r := Purchase(db, actor, listingId);
      var l := db.listings[listingId];
      var o := l.organizationId.value;
      && r.result.Ok?
      && r.db.organizations[o].virtualBalance == db.organizations[o].virtualBalance + Cost(l)
      && r.db.organizations[o].totalCredits == db.organizations[o].totalCredits - l.creditsAmount
      && TotalBalance(r.db) == TotalBalance(db) + Cost(l)
      && TotalCredits(r.db) == TotalCredits(db) - l.creditsAmount
  {
    var l := db.listings[listingId];
    var o := l.organizationId.value;
    var orgs := db.organizations;
    var paid := orgs[o].(virtualBalance := orgs[o].virtualBalance + Cost(l), totalCredits := orgs[o].totalCredits - l.creditsAmount);
    assert Purchase(db, actor, listingId).db.organizations == orgs[o := paid];
    SumBelowAfterWrite(orgs, o, paid, db.currentIds.organizations, Balance);
    SumBelowAfterWrite(orgs, o, paid, db.currentIds.organizations, Credits);
  }

  /** Once sold, a listing cannot be bought again: the repeated request is
      answered "Listing not found" and changes nothing. */
  lemma NoDoubleSale(db: Db, actor: Option<int>, listingId: int, secondActor: Option<int>)
    requires Purchase(db, actor, listingId).result.Ok?
    ensures var after := Purchase(db, actor, listingId).db;
      HasRole(after, secondActor, OrgAdmin) ==>
         Purchase(after, secondActor, listingId) == Response(after, Err(ListingNotFound))
  {
  }

  // ---------------------------------------------------------------------------
  // Non-negative balances

  /** No organization's credits or virtual currency are below zero, and no
      listing offers a negative amount at a negative price. */
  predicate NonNegative(db: Db) {
    && (forall id :: id in db.organizations ==>
          db.organizations[id].totalCredits >= 0.0 && db.organizations[id].virtualBalance >= 0.0)
    && (forall id :: id in db.listings ==>
          db.listings[id].creditsAmount >= 0.0 && db.listings[id].pricePerCredit >= 0.0)
  }

  /** GreenCo (organization 1, administered by user 2) holds 50 credits;
      BlueCo (organization 2, administered by user 3) holds 1000 in currency. */
  function OversaleStart(): Db {
    Db(map[1 := User(1, "admin", "System Admin", SystemAdmin, Approved, None, None, None, None),
           2 := User(2, "green", "GreenCo Admin", OrgAdmin, Approved, Some(1), None, None, None),
           3 := User(3, "blue", "BlueCo Admin", OrgAdmin, Approved, Some(2), None, None, None)],
       map[1 := Organization(1, "GreenCo", Approved, 50.0, 1000.0, None),
           2 := Organization(2, "BlueCo", Approved, 0.0, 1000.0, None)],
       map[],
       map[],
       Counters(4, 3, 1, 1))
  }

  /** A listing only checks the seller's credits when it is created, so two
      listings can promise the same credits. From OversaleStart, GreenCo's admin lists its 50 credits twice, BlueCo's admin buys both
      listings, every request succeeds, and GreenCo ends at -50 credits. */
  lemma OversoldListingDrivesCreditsNegative()
    ensures var db := OversaleStart();
      && WellFormed(db) && NonNegative(db)
      && var first := CreateListingFor(db, Some(2), 50.0, 2.0, 0);
      && var second := CreateListingFor(first.db, Some(2), 50.0, 2.0, 0);
      && var sale1 := Purchase(second.db, Some(3), 1);
      && var sale2 := Purchase(sale1.db, Some(3), 2);
      && first.result.Ok? && second.result.Ok? && sale1.result.Ok? && sale2.result.Ok?
      && sale2.db.organizations[1].totalCredits == -50.0
      && !NonNegative(sale2.db)
  {
    var db := OversaleStart();
    assert WellFormed(db) && NonNegative(db);
    var first := CreateListingFor(db, Some(2), 50.0, 2.0, 0);
    assert first.result.Ok?;
    var l1 := first.result.value;
    var second := CreateListingFor(first.db, Some(2), 50.0, 2.0, 0);
    assert second.result.Ok?;
    var l2 := second.result.value;
    assert second.db.organizations == db.organizations && second.db.users == db.users;
    assert second.db.listings == map[1 := l1, 2 := l2];
    var sale1 := Purchase(second.db, Some(3), 1);
    assert PurchaseAllowed(second.db, Some(3), 1);
    assert sale1.db.organizations[1].totalCredits == 0.0 && sale1.db.organizations[2].virtualBalance == 900.0;
    assert sale1.db.listings[2] == l2 && sale1.db.users == db.users;
    var sale2 := Purchase(sale1.db, Some(3), 2);
    assert PurchaseAllowed(sale1.db, Some(3), 2);
  }

  /** The purchase as evidently intended: besides the source's checks, it
      refuses a listing of the buyer's own organization and a listing whose
      seller no longer holds the credits. */
  function GuardedPurchase(db: Db, actor: Option<int>, listingId: int): (r: Response<()>)
    ensures !PurchaseAllowed(db, actor, listingId) ==> r == Purchase(db, actor, listingId)
    ensures r.result.Ok? <==>
      && PurchaseAllowed(db, actor, listingId)
      && db.users[actor.value].organizationId != db.listings[listingId].organizationId
      && db.organizations[db.listings[listingId].organizationId.value].totalCredits >= db.listings[listingId].creditsAmount
    ensures r.result.Err? ==> r.db == db
    ensures r.result.Ok? ==>
      && PurchaseAllowed(db, actor, listingId)
      && db.users[actor.value].organizationId != db.listings[listingId].organizationId
      && db.organizations[db.listings[listingId].organizationId.value].totalCredits >= db.listings[listingId].creditsAmount
      && r == Purchase(db, actor, listingId)
  {
    if !PurchaseAllowed(db, actor, listingId) then Purchase(db, actor, listingId)
    else
      var l := db.listings[listingId];
      if db.users[actor.value].organizationId == l.organizationId then
        Response(db, Err(Reply(400, "Cannot purchase your own organization's listing")))
      else if db.organizations[l.organizationId.value].totalCredits < l.creditsAmount then
        Response(db, Err(Reply(400, "Seller has insufficient credits")))
      else Purchase(db, actor, listingId)
  }

  /** The guarded purchase conserves both system-wide sums and keeps every
      balance non-negative. */
  lemma GuardedPurchaseKeepsLedger(db: Db, actor: Option<int>, listingId: int)
    requires WellFormed(db) && NonNegative(db)
    ensures var r := GuardedPurchase(db, actor, listingId);
      && TotalBalance(r.db) == TotalBalance(db)
      && TotalCredits(r.db) == TotalCredits(db)
      && NonNegative(r.db)
  {
    var r := GuardedPurchase(db, actor, listingId);
    if r.result.Ok? {
      PurchaseConservesTotals(db, actor, listingId);
      var l := db.listings[listingId];
      var b := db.users[actor.value].organizationId.value;
      var s := l.organizationId.value;
      assert l.creditsAmount >= 0.0 && l.pricePerCredit >= 0.0;
      assert Cost(l) >= 0.0;
      assert r.db.organizations == AfterPurchase(db.organizations, b, s, l);
      assert r.db.listings == db.listings[listingId := l.(status := Sold)];
    }
  }

  // ---------------------------------------------------------------------------
  // Commute logging

  /** Logging a commute dated today blocks every further log by the same user
      on the same day. */
  lemma OneLogPerDay(db: Db, actor: Option<int>, today: int, transport: string, score: (real, string) -> real,
                     date2: int, transport2: string)
    requires LogCommute(db, actor, today, today, transport, score).result.Ok?
    ensures var after := LogCommute(db, actor, today, today, transport, score).db;
      LogCommute(after, actor, today, date2, transport2, score) == Response(after, Err(AlreadyLoggedToday))
  {
    var r := LogCommute(db, actor, today, today, transport, score);
    var log := r.result.value;
    assert r.db.commuteLogs[log.id] == log;
    assert LoggedOn(r.db, actor.value, today);
  }

  /** The once-a-day check looks for a log dated today, but the new log carries
      the client's date: after logging a commute for another day, the same user
      can log again on the same day. */
  lemma BackdatedLogLeavesTodayOpen(db: Db, actor: Option<int>, today: int, date: int, transport: string,
                                    score: (real, string) -> real, date2: int, transport2: string)
    requires date != today
    requires LogCommute(db, actor, today, date, transport, score).result.Ok?
    ensures var after := LogCommute(db, actor, today, date, transport, score).db;
      LogCommute(after, actor, today, date2, transport2, score).result.Ok?
  {
    var r := LogCommute(db, actor, today, date, transport, score);
    assert !LoggedOn(db, actor.value, today);
    forall id | id in r.db.commuteLogs && r.db.commuteLogs[id].userId == actor.value
      ensures r.db.commuteLogs[id].date != today
    {
      if id != r.result.value.id {
        assert id in db.commuteLogs && r.db.commuteLogs[id] == db.commuteLogs[id];
      }
    }
  }

  /** No user has two logs with the same date. */
  predicate OneLogPerUserAndDate(db: Db) {
    forall i, j ::
      i in db.commuteLogs && j in db.commuteLogs && i != j && db.commuteLogs[i].userId == db.commuteLogs[j].userId ==>
      db.commuteLogs[i].date != db.commuteLogs[j].date
  }

  /** Two requests on the same day, both carrying the same earlier date, both
      succeed and leave the user with two logs of that date. */
  lemma BackdatedLogsShareADate(db: Db, actor: Option<int>, today: int, date: int, transport: string,
                                score: (real, string) -> real, transport2: string)
    requires WellFormed(db)
    requires date != today
    requires LogCommute(db, actor, today, date, transport, score).result.Ok?
    ensures var first := LogCommute(db, actor, today, date, transport, score);
      var second := LogCommute(first.db, actor, today, date, transport2, score);
      && second.result.Ok?
      && !OneLogPerUserAndDate(second.db)
  {
    var first := LogCommute(db, actor, today, date, transport, score);
    BackdatedLogLeavesTodayOpen(db, actor, today, date, transport, score, date, transport2);
    var second := LogCommute(first.db, actor, today, date, transport2, score);
    var a := first.result.value.id;
    var b := second.result.value.id;
    assert a in second.db.commuteLogs && b in second.db.commuteLogs && a != b;
    assert second.db.commuteLogs[a].userId == second.db.commuteLogs[b].userId;
    assert second.db.commuteLogs[a].date == second.db.commuteLogs[b].date;
  }

  /** Logging as evidently intended: the once-a-day check looks for a log with
      the date being submitted, so the check and the stored log agree. */
  function CheckedLogCommute(db: Db, actor: Option<int>, date: int, transport: string,
                             score: (real, string) -> real): (r: Response<CommuteLog>)
    ensures r.result.Ok? <==> MayLogCommutes(db, actor) && !LoggedOn(db, actor.value, date)
    ensures MayLogCommutes(db, actor) && LoggedOn(db, actor.value, date) ==> r == Response(db, Err(AlreadyLoggedToday))
    ensures r.result.Err? ==> r.db == db
    ensures r.result.Ok? ==> r.result.value.date == date && r.result.value.userId == actor.value
  {
    LogCommute(db, actor, date, date, transport, score)
  }

  /** With the check on the submitted date, no user ever has two logs of one date. */
  lemma CheckedLoggingKeepsOneLogPerDate(db: Db, actor: Option<int>, date: int, transport: string,
                                         score: (real, string) -> real)
    requires WellFormed(db) && OneLogPerUserAndDate(db)
    ensures OneLogPerUserAndDate(CheckedLogCommute(db, actor, date, transport, score).db)
  {
    var r := CheckedLogCommute(db, actor, date, transport, score);
    if r.result.Ok? {
      var n := r.result.value.id;
      var logs := r.db.commuteLogs;
      assert n !in db.commuteLogs && !LoggedOn(db, actor.value, date);
      forall i, j | i in logs && j in logs && i != j && logs[i].userId == logs[j].userId
        ensures logs[i].date != logs[j].date
      {
        if i == n {
          assert j in db.commuteLogs && logs[j] == db.commuteLogs[j] && logs[j].userId == actor.value;
        } else if j == n {
          assert i in db.commuteLogs && logs[i] == db.commuteLogs[i] && logs[i].userId == actor.value;
        } else {
          assert i in db.commuteLogs && j in db.commuteLogs;
        }
      }
    }
  }

  /** A logged commute adds its points to the system-wide credits (when the
      employee's organization exists) and leaves the virtual currency alone. */
  lemma LogCommuteCreditsLedger(db: Db, actor: Option<int>, today: int, date: int, transport: string,
                                score: (real, string) -> real)
    requires WellFormed(db)
    requires LogCommute(db, actor, today, date, transport, score).result.Ok?
    ensures var r := LogCommute(db, actor, today, date, transport, score);
      var orgId := db.users[actor.value].organizationId.value;
      && TotalBalance(r.db) == TotalBalance(db)
      && TotalCredits(r.db) == TotalCredits(db) + (if orgId in db.organizations then r.result.value.pointsEarned else 0.0)
  {
    var r := LogCommute(db, actor, today, date, transport, score);
    var orgId := db.users[actor.value].organizationId.value;
    if orgId in db.organizations {
      var org := db.organizations[orgId];
      var credited := org.(totalCredits := org.totalCredits + r.result.value.pointsEarned);
      assert r.db.organizations == db.organizations[orgId := credited];
      SumBelowAfterWrite(db.organizations, orgId, credited, db.currentIds.organizations, Balance);
      SumBelowAfterWrite(db.organizations, orgId, credited, db.currentIds.organizations, Credits);
    }
  }

  // ---------------------------------------------------------------------------
  // Membership

  /** A successful join request shows up in the organization's list of pending
      requests. */
  lemma RequestBecomesPending(db: Db, actor: Option<int>, orgId: int)
    requires WellFormed(db)
    requires RequestToJoin(db, actor, orgId).result.Ok?
    ensures var r := RequestToJoin(db, actor, orgId);
      r.result.value in PendingOrganizationRequests(r.db, orgId)
  {
    var r := RequestToJoin(db, actor, orgId);
    assert r.result.value.id == actor.value;
  }

  /** Approval removes the user from every organization's pending list and
      makes them a member of the approving organization. */
  lemma ApprovedUserLeavesPendingLists(db: Db, actor: Option<int>, orgId: int, userId: int, anyOrg: int)
    requires WellFormed(db)
    requires ApproveJoinRequest(db, actor, orgId, userId).result.Ok?
    ensures var r := ApproveJoinRequest(db, actor, orgId, userId);
      && r.db.users[userId].organizationId == Some(orgId)
      && r.db.users[userId].status == Approved
      && forall u :: u in PendingOrganizationRequests(r.db, anyOrg) ==> u.id != userId
  {
  }

  /** Approval asks nothing of the user: an admin can make any stored user,
      even one who asked to join another organization or nothing at all, an
      approved member of their own organization. */
  lemma ApprovalAdmitsUserWhoNeverAsked(db: Db, actor: Option<int>, orgId: int, userId: int)
    requires WellFormed(db)
    requires AdministersOrg(db, actor, orgId)
    requires userId in db.users && db.users[userId].organizationRequest != Some(orgId)
    ensures db.users[userId] !in PendingOrganizationRequests(db, orgId)
    ensures var r := ApproveJoinRequest(db, actor, orgId, userId);
      r.result.Ok? && r.db.users[userId].organizationId == Some(orgId) && r.db.users[userId].status == Approved
  {
  }

  /** Approval as evidently intended: only a user with a pending request for
      the admin's organization can be approved. */
  function CheckedApproveJoinRequest(db: Db, actor: Option<int>, orgId: int, userId: int): (r: Response<User>)
    ensures r.result.Err? ==> r.db == db
    ensures r.result.Ok? <==>
      AdministersOrg(db, actor, orgId) && userId in db.users && IsPendingRequestFor(db.users[userId], orgId)
    ensures r.result.Ok? ==> r == ApproveJoinRequest(db, actor, orgId, userId)
  {
    if AdministersOrg(db, actor, orgId) && userId in db.users && !IsPendingRequestFor(db.users[userId], orgId) then
      Response(db, Err(Reply(400, "No pending request for this organization")))
    else ApproveJoinRequest(db, actor, orgId, userId)
  }

  /** With the check, every approved user came from the organization's pending list. */
  lemma CheckedApprovalOnlyAdmitsRequesters(db: Db, actor: Option<int>, orgId: int, userId: int)
    requires WellFormed(db)
    requires CheckedApproveJoinRequest(db, actor, orgId, userId).result.Ok?
    ensures db.users[userId] in PendingOrganizationRequests(db, orgId)
  {
  }

  /** Rejection asks nothing of the user either: an admin can reject an approved
      member of another organization, who keeps that organization but can no
      longer log commutes. */
  lemma RejectionReachesOtherOrganizationsMembers(db: Db, actor: Option<int>, orgId: int, userId: int,
                                                  reason: Option<string>)
    requires AdministersOrg(db, actor, orgId)
    requires userId in db.users && db.users[userId].status == Approved
    requires db.users[userId].organizationId.Some? && db.users[userId].organizationId != Some(orgId)
    ensures var r := RejectJoinRequest(db, actor, orgId, userId, reason);
      && r.result.Ok?
      && r.db.users[userId].status == Rejected
      && r.db.users[userId].organizationId == db.users[userId].organizationId
      && !MayLogCommutes(r.db, Some(userId))
  {
  }

  /** Rejection as evidently intended: only a user with a pending request for
      the admin's organization can be rejected. */
  function CheckedRejectJoinRequest(db: Db, actor: Option<int>, orgId: int, userId: int,
                                    reason: Option<string>): (r: Response<User>)
    ensures r.result.Err? ==> r.db == db
    ensures r.result.Ok? <==>
      AdministersOrg(db, actor, orgId) && userId in db.users && IsPendingRequestFor(db.users[userId], orgId)
    ensures r.result.Ok? ==> r == RejectJoinRequest(db, actor, orgId, userId, reason)
  {
    if AdministersOrg(db, actor, orgId) && userId in db.users && !IsPendingRequestFor(db.users[userId], orgId) then
      Response(db, Err(Reply(400, "No pending request for this organization")))
    else RejectJoinRequest(db, actor, orgId, userId, reason)
  }

  /** With the check, a user without a pending request for the organization is
      never changed, and rejecting the same user twice is refused the second
      time with no change. */
  lemma CheckedRejectionOnlyTouchesRequesters(db: Db, actor: Option<int>, orgId: int, userId: int,
                                              reason: Option<string>, reason2: Option<string>)
    ensures var r := CheckedRejectJoinRequest(db, actor, orgId, userId, reason);
      forall id :: id in db.users && !IsPendingRequestFor(db.users[id], orgId) ==>
        id in r.db.users && r.db.users[id] == db.users[id]
    ensures var r := CheckedRejectJoinRequest(db, actor, orgId, userId, reason);
      r.result.Ok? ==> CheckedRejectJoinRequest(r.db, actor, orgId, userId, reason2).result.Err?
  {
    var r := CheckedRejectJoinRequest(db, actor, orgId, userId, reason);
    if r.result.Ok? {
      assert !IsPendingRequestFor(r.db.users[userId], orgId);
    }
  }

  /** Users carry an outstanding request only while their status is pending. */
  predicate RequestsOnlyWhilePending(db: Db) {
    forall id :: id in db.users && db.users[id].organizationRequest.Some? ==> db.users[id].status == Pending
  }

  /** The join, approve and reject handlers keep requests tied to the pending
      status. */
  lemma MembershipHandlersKeepRequestsPending(db: Db, actor: Option<int>, orgId: int, userId: int, reason: Option<string>)
    requires RequestsOnlyWhilePending(db)
    ensures RequestsOnlyWhilePending(RequestToJoin(db, actor, orgId).db)
    ensures RequestsOnlyWhilePending(ApproveJoinRequest(db, actor, orgId, userId).db)
    ensures RequestsOnlyWhilePending(RejectJoinRequest(db, actor, orgId, userId, reason).db)
  {
  }

  /** `PATCH /api/users/:id/approve` only sets the status: a user approved that
      way keeps their request and gains no organization. */
  lemma PatchApprovalLeavesRequestBehind(db: Db, actor: Option<int>, userId: int)
    requires HasRole(db, actor, OrgAdmin)
    requires userId in db.users && db.users[userId].organizationRequest.Some? && db.users[userId].organizationId.None?
    ensures var r := ApproveUser(db, actor, userId);
      && r.result.Ok?
      && r.db.users[userId].status == Approved
      && r.db.users[userId].organizationRequest == db.users[userId].organizationRequest
      && r.db.users[userId].organizationId.None?
      && !RequestsOnlyWhilePending(r.db)
  {
  }

  // ---------------------------------------------------------------------------
  // Organization registration and review

  /** An organization registered without a status stays pending, with no
      credits and 1000 in virtual currency, although its admin is approved. */
  lemma RegisteredOrganizationStartsPending(db: Db, actor: Option<int>, d: OrgDraft)
    requires WellFormed(db)
    requires HasRole(db, actor, OrgAdmin)
    requires d.status.None? && d.totalCredits.None? && d.virtualBalance.None?
    ensures var r := RegisterOrganization(db, actor, d);
      var org := r.result.value;
      && org.status == Pending && org.totalCredits == 0.0 && org.virtualBalance == 1000.0
      && org.id !in db.organizations
      && r.db.users[actor.value].status == Approved
      && r.db.users[actor.value].organizationId == Some(org.id)
  {
  }

  /** Approving all pending organizations twice is approving them once. */
  lemma ApproveAllIsIdempotent(db: Db)
    ensures ApproveAllPendingOrganizations(ApproveAllPendingOrganizations(db)) == ApproveAllPendingOrganizations(db)
  {
    var once := ApproveAllPendingOrganizations(db);
    var twice := ApproveAllPendingOrganizations(once);
    assert twice.organizations == once.organizations;
  }
}
