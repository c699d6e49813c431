/**
 The tables.  Soft deletion is a flag, unique keys that the code relies on only
 through a lock are not built into the types: matches are keyed by their own id,
 and that a pair has at most one is proved.
 */
module Schema {
  import opened Base
  import opened Slots

  type UserId = nat
  type ProfileId = nat
  type ListingId = nat
  type MatchId = nat
  type ViewingId = nat

  datatype Role = Tenant | Landlord
  {
    function Other(): Role { if this == Tenant then Landlord else Tenant }
  }

  datatype Pair = Pair(profile: ProfileId, listing: ListingId)

  // ---- catalog: what owners edit -------------------------------------------

  datatype RoomType = Suite | Shared | WholeFloor

  /** The hard conditions of a tenant profile; areas are in hundredths of a ping. */
  datatype Wants = Wants(
    budgetMin: int, budgetMax: int, locations: set<nat>, rooms: set<RoomType>,
    availableFrom: int, minArea: Option<int>, hasPets: bool, needsSubsidy: bool,
    needsTaxReceipt: bool, needsHousehold: bool, needsCooking: bool, needsParking: bool, smoking: bool)

  datatype Offer = Offer(
    rent: int, location: nat, room: RoomType, availableFrom: int, area: int,
    allowPets: bool, allowSubsidy: bool, allowTaxReceipt: bool, allowHousehold: bool,
    allowCooking: bool, hasParking: bool, allowSmoking: bool)

  datatype ProfileRow = ProfileRow(owner: UserId, active: bool, deleted: bool, wants: Wants)

  datatype ListingStatus = Draft | Open | Paused | Rented

  datatype ListingRow = ListingRow(
    owner: UserId, status: ListingStatus, deleted: bool, adminRemoved: bool,
    availability: Availability, offer: Offer)

  /** `blocks` holds the blocks in force, `gone` the users whose account was deleted. */
  datatype Catalog = Catalog(
    profiles: map<ProfileId, ProfileRow>, listings: map<ListingId, ListingRow>,
    blocks: set<(UserId, UserId)>, suspended: set<UserId>, gone: set<UserId>)
  {
    predicate Blocked(a: UserId, b: UserId) { (a, b) in blocks || (b, a) in blocks }

    function VisibleProfile(p: ProfileId): Option<ProfileRow> {
      if p in profiles && !profiles[p].deleted then Some(profiles[p]) else None
    }

    function VisibleListing(l: ListingId): Option<ListingRow> {
      if l in listings && !listings[l].deleted then Some(listings[l]) else None
    }

    /** As above, and not removed by an administrator either. */
    function PublicListing(l: ListingId): Option<ListingRow> {
      if l in listings && !listings[l].deleted && !listings[l].adminRemoved then Some(listings[l]) else None
    }
  }

  // ---- ledger: interests and matches ---------------------------------------

  datatype InterestKey = InterestKey(pair: Pair, role: Role)

  datatype InterestStatus = Wanted | Withdrawn

  datatype MatchStatus = Active | Unmatched | ListingRented

  datatype MatchRow = MatchRow(pair: Pair, tenant: UserId, landlord: UserId, status: MatchStatus, deleted: bool)
  {
    predicate Names(u: UserId) { tenant == u || landlord == u }
  }

  datatype Ledger = Ledger(interests: map<InterestKey, InterestStatus>, matches: map<MatchId, MatchRow>)
  {
    predicate Interested(pair: Pair, role: Role) {
      var k := InterestKey(pair, role);
      k in interests && interests[k] == Wanted
    }

    predicate BothInterested(pair: Pair) { Interested(pair, Tenant) && Interested(pair, Landlord) }

    /** Some row, deleted or not: what the unique key on matches sees. */
    predicate HasMatch(pair: Pair) { exists id <- matches :: matches[id].pair == pair }

    predicate HasLiveMatch(pair: Pair) { exists id <- matches :: matches[id].pair == pair && !matches[id].deleted }
  }

  // ---- viewings --------------------------------------------------------------

  datatype ViewingStatus = Confirmed | Completed | Cancelled | CancelledLandlord

  datatype ViewingRow = ViewingRow(
    matchId: MatchId, pair: Pair, tenant: UserId, landlord: UserId,
    start: int, end: int, status: ViewingStatus, deleted: bool)
  {
    predicate Names(u: UserId) { tenant == u || landlord == u }

    /** Takes up room in its slot. */
    predicate Occupies() { !deleted && status in {Confirmed, Completed} }

    predicate Ended() { status in {Cancelled, CancelledLandlord} }
  }

  type Viewings = map<ViewingId, ViewingRow>

  function OccupiersAt(viewings: Viewings, l: ListingId, t: int): set<ViewingId> {
    set v <- viewings | viewings[v].Occupies() && viewings[v].pair.listing == l && viewings[v].start == t
  }

  function Occupancy(viewings: Viewings, l: ListingId, t: int): nat { |OccupiersAt(viewings, l, t)| }

  /** Occupied slot starts of a listing with their counts. */
  function BookedStarts(viewings: Viewings, l: ListingId): map<int, nat> {
    map t | t in (set v <- viewings | viewings[v].Occupies() && viewings[v].pair.listing == l :: viewings[v].start)
      :: Occupancy(viewings, l, t)
  }

  lemma BookedStartsCounts(viewings: Viewings, l: ListingId, t: int)
    ensures BookedAt(BookedStarts(viewings, l), t) == Occupancy(viewings, l, t)
  {
    if t !in BookedStarts(viewings, l) {
      assert OccupiersAt(viewings, l, t) == {};
    }
  }

  predicate MatchHasViewing(viewings: Viewings, m: MatchId) {
    exists v <- viewings :: viewings[v].matchId == m && viewings[v].Occupies()
  }

  datatype Db = Db(catalog: Catalog, ledger: Ledger, viewings: Viewings)

  /** A service with no data yet. */
  const NO_DATA: Db := Db(Catalog(map[], map[], {}, {}, {}), Ledger(map[], map[]), map[])
}
