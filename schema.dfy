/**
 * The records the store keeps (users, organizations, commute logs, listings),
 * the partial records that create operations accept, and the partial records
 * that update operations merge in (`{ ...record, ...updates }`).
 *
 * Decimal strings of the source (`"1000"`, `parseFloat`, `toString`) are exact
 * `real`s here; calendar days are `int` day numbers; ISO timestamps are `int`
 * instants.
 */
module Schema {
  import opened Wrappers

  datatype Role = Employee | OrgAdmin | SystemAdmin
  datatype Status = Pending | Approved | Rejected
  datatype ListingStatus = Active | Sold

  datatype User = User(
    id: int,
    username: string,
    name: string,
    role: Role,
    status: Status,
    organizationId: Option<int>,       // the organization the user belongs to
    organizationRequest: Option<int>,  // the organization the user asked to join
    rejectionReason: Option<string>,
    commuteDistance: Option<real>)

  datatype Organization = Organization(
    id: int,
    name: string,
    status: Status,
    totalCredits: real,
    virtualBalance: real,
    rejectionReason: Option<string>)

  datatype CommuteLog = CommuteLog(
    id: int,
    userId: int,
    date: int,            // day number of the day the commute is logged for
    transport: string,    // the transport method (`method` in the source), as the client sent it
    pointsEarned: real)

  datatype Listing = Listing(
    id: int,
    organizationId: Option<int>,  // the selling organization
    creditsAmount: real,
    pricePerCredit: real,
    status: ListingStatus,
    createdAt: int)

  // ---------------------------------------------------------------------------
  // What the create operations accept. A `None` field is a key the caller did
  // not supply; the store fills in its default.

  datatype UserDraft = UserDraft(
    username: string,
    name: string,
    role: Role,
    status: Status,
    organizationId: Option<int>,
    organizationRequest: Option<int>,
    commuteDistance: Option<real>)

  datatype OrgDraft = OrgDraft(
    name: string,
    status: Option<Status>,
    totalCredits: Option<real>,
    virtualBalance: Option<real>)

  datatype LogDraft = LogDraft(
    userId: int,
    date: int,
    transport: string,
    pointsEarned: Option<real>)

  datatype ListingDraft = ListingDraft(
    organizationId: Option<int>,
    creditsAmount: Option<real>,
    pricePerCredit: Option<real>,
    status: Option<ListingStatus>,
    createdAt: Option<int>)

  // ---------------------------------------------------------------------------
  // What the update operations merge in. `Some(v)` is a key the update object
  // carries (with value `v`, which for a nullable field may itself be `None`);
  // `None` is a key it does not carry. The record id is never part of an update.

  datatype UserPatch = UserPatch(
    username: Option<string>,
    name: Option<string>,
    role: Option<Role>,
    status: Option<Status>,
    organizationId: Option<Option<int>>,
    organizationRequest: Option<Option<int>>,
    rejectionReason: Option<Option<string>>,
    commuteDistance: Option<Option<real>>)

  datatype OrgPatch = OrgPatch(
    name: Option<string>,
    status: Option<Status>,
    totalCredits: Option<real>,
    virtualBalance: Option<real>,
    rejectionReason: Option<Option<string>>)

  datatype ListingPatch = ListingPatch(
    organizationId: Option<Option<int>>,
    creditsAmount: Option<real>,
    pricePerCredit: Option<real>,
    status: Option<ListingStatus>,
    createdAt: Option<int>)

  const NoUserChanges := UserPatch(None, None, None, None, None, None, None, None)
  const NoOrgChanges := OrgPatch(None, None, None, None, None)
  const NoListingChanges := ListingPatch(None, None, None, None, None)

  /** `{ ...u, ...p }`: every key `p` carries overrides the field of `u`. */
  function ApplyUserPatch(u: User, p: UserPatch): User {
    u.(username := p.username.GetOr(u.username),
       name := p.name.GetOr(u.name),
       role := p.role.GetOr(u.role),
       status := p.status.GetOr(u.status),
       organizationId := p.organizationId.GetOr(u.organizationId),
       organizationRequest := p.organizationRequest.GetOr(u.organizationRequest),
       rejectionReason := p.rejectionReason.GetOr(u.rejectionReason),
       commuteDistance := p.commuteDistance.GetOr(u.commuteDistance))
  }

  function ApplyOrgPatch(o: Organization, p: OrgPatch): Organization {
    o.(name := p.name.GetOr(o.name),
       status := p.status.GetOr(o.status),
       totalCredits := p.totalCredits.GetOr(o.totalCredits),
       virtualBalance := p.virtualBalance.GetOr(o.virtualBalance),
       rejectionReason := p.rejectionReason.GetOr(o.rejectionReason))
  }

  function ApplyListingPatch(l: Listing, p: ListingPatch): Listing {
    l.(organizationId := p.organizationId.GetOr(l.organizationId),
       creditsAmount := p.creditsAmount.GetOr(l.creditsAmount),
       pricePerCredit := p.pricePerCredit.GetOr(l.pricePerCredit),
       status := p.status.GetOr(l.status),
       createdAt := p.createdAt.GetOr(l.createdAt))
  }

  /** The keys of `q` win over those of `p`: `{ ...p, ...q }`. */
  function ThenOrg(p: OrgPatch, q: OrgPatch): OrgPatch {
    OrgPatch(if q.name.Some? then q.name else p.name,
             if q.status.Some? then q.status else p.status,
             if q.totalCredits.Some? then q.totalCredits else p.totalCredits,
             if q.virtualBalance.Some? then q.virtualBalance else p.virtualBalance,
             if q.rejectionReason.Some? then q.rejectionReason else p.rejectionReason)
  }

  /** Merging is what the spread operator does: an update without keys changes
      nothing, the same update twice is the update once, and two updates in a row
      are one update whose later keys win. */
  lemma OrgPatchLaws(o: Organization, p: OrgPatch, q: OrgPatch)
    ensures ApplyOrgPatch(o, NoOrgChanges) == o
    ensures ApplyOrgPatch(ApplyOrgPatch(o, p), p) == ApplyOrgPatch(o, p)
    ensures ApplyOrgPatch(ApplyOrgPatch(o, p), q) == ApplyOrgPatch(o, ThenOrg(p, q))
    ensures ApplyOrgPatch(o, p).id == o.id
  {
  }
}
