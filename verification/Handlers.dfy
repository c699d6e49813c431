/**
 What each request does when it runs alone: the reference meaning that the
 statement-by-statement server refines and that interleaved transactions are
 compared with.
 */
module Handlers {
  import opened Base
  import opened Slots
  import opened Schema

  datatype Answer =
    | Pending | Matched(contactOf: UserId) | WithdrawnOk
    | Booked(viewing: ViewingId, start: int, end: int) | Moved(start: int, end: int) | Ok
    | NotFound | Forbidden | ProfileInactive | ListingNotActive | UsersBlocked | AlreadyMatched
    | MatchNotActive | SlotFull | AlreadyBooked | NotConfirmed | BadRequest | Internal | Unauthorized

  // ---- expressing and withdrawing interest ------------------------------------

  /** The rows a request read before it touched the ledger. */
  datatype Seen = Seen(profile: Option<ProfileRow>, listing: Option<ListingRow>, blocked: bool)

  function CheckProfile(p: Option<ProfileRow>, actor: UserId, role: Role): Option<Answer> {
    if p.None? then Some(NotFound)
    else if !p.value.active then Some(ProfileInactive)
    else if role == Tenant && p.value.owner != actor then Some(Forbidden)
    else None
  }

  function CheckListing(l: Option<ListingRow>, actor: UserId, role: Role): Option<Answer> {
    if l.None? then Some(NotFound)
    else if l.value.status != Open then Some(ListingNotActive)
    else if role == Landlord && l.value.owner != actor then Some(Forbidden)
    else None
  }

  /** The first check of an expressed interest that fails, in the order the checks are made. */
  function ExpressRefusal(seen: Seen, actor: UserId, role: Role): Option<Answer> {
    var p := CheckProfile(seen.profile, actor, role);
    var l := CheckListing(seen.listing, actor, role);
    if p.Some? then p else if l.Some? then l else if seen.blocked then Some(UsersBlocked) else None
  }

  function SeeForExpress(c: Catalog, pair: Pair): Seen {
    var p, l := c.VisibleProfile(pair.profile), c.PublicListing(pair.listing);
    Seen(p, l, p.Some? && l.Some? && c.Blocked(p.value.owner, l.value.owner))
  }

  function ContactShown(seen: Seen, role: Role): UserId
    requires seen.profile.Some? && seen.listing.Some?
  {
    if role == Tenant then seen.listing.value.owner else seen.profile.value.owner
  }

  function NewMatch(seen: Seen, pair: Pair): MatchRow
    requires seen.profile.Some? && seen.listing.Some?
  {
    MatchRow(pair, seen.profile.value.owner, seen.listing.value.owner, Active, false)
  }

  function ExpressLedger(g: Ledger, seen: Seen, actor: UserId, pair: Pair, role: Role, id: MatchId): (Ledger, Answer) {
    if ExpressRefusal(seen, actor, role).Some? then (g, ExpressRefusal(seen, actor, role).value)
    else
      var g1 := g.(interests := g.interests[InterestKey(pair, role) := Wanted]);
      if !g1.Interested(pair, role.Other()) then (g1, Pending)
      else if g1.HasMatch(pair) then (g1, Matched(ContactShown(seen, role)))
      else (g1.(matches := g1.matches[id := NewMatch(seen, pair)]), Matched(ContactShown(seen, role)))
  }

  /** Withdrawing looks at the acting side's row only, and an admin removal does not hide the listing. */
  function SeeForWithdraw(c: Catalog, pair: Pair, role: Role): Seen {
    if role == Tenant then Seen(c.VisibleProfile(pair.profile), None, false)
    else Seen(None, c.VisibleListing(pair.listing), false)
  }

  function WithdrawRefusal(seen: Seen, actor: UserId, role: Role): Option<Answer> {
    if role == Tenant then
      if seen.profile.None? then Some(NotFound)
      else if seen.profile.value.owner != actor then Some(Forbidden) else None
    else
      if seen.listing.None? then Some(NotFound)
      else if seen.listing.value.owner != actor then Some(Forbidden) else None
  }

  function WithdrawLedger(g: Ledger, seen: Seen, actor: UserId, pair: Pair, role: Role): (Ledger, Answer) {
    if WithdrawRefusal(seen, actor, role).Some? then (g, WithdrawRefusal(seen, actor, role).value)
    else if g.HasLiveMatch(pair) then (g, AlreadyMatched)
    else if g.Interested(pair, role) then
      (g.(interests := g.interests[InterestKey(pair, role) := Withdrawn]), WithdrawnOk)
    else (g, WithdrawnOk)
  }

  function Express(db: Db, actor: UserId, pair: Pair, role: Role, id: MatchId): (Db, Answer) {
    var (g, a) := ExpressLedger(db.ledger, SeeForExpress(db.catalog, pair), actor, pair, role, id);
    (db.(ledger := g), a)
  }

  function Withdraw(db: Db, actor: UserId, pair: Pair, role: Role): (Db, Answer) {
    var (g, a) := WithdrawLedger(db.ledger, SeeForWithdraw(db.catalog, pair, role), actor, pair, role);
    (db.(ledger := g), a)
  }

  // ---- viewings ------------------------------------------------------------------

  function LiveMatchRow(g: Ledger, m: MatchId): Option<MatchRow> {
    if m in g.matches && !g.matches[m].deleted then Some(g.matches[m]) else None
  }

  function BookRefusal(m: Option<MatchRow>, actor: UserId): Option<Answer> {
    if m.None? then Some(NotFound)
    else if m.value.tenant != actor then Some(Forbidden)
    else if m.value.status != Active then Some(MatchNotActive)
    else None
  }

  function ListingAvailability(c: Catalog, l: ListingId): Option<Availability> {
    if c.VisibleListing(l).Some? then Some(c.VisibleListing(l).value.availability) else None
  }

  /** The end of the slot claimed, or why the claim fails. */
  datatype Claim = Claimed(end: int) | Refused(answer: Answer)

  function ClaimSlot(c: Catalog, viewings: Viewings, l: ListingId, start: int, now: int): Claim {
    var av := ListingAvailability(c, l);
    if av.None? then Refused(Internal)
    else match OpenSlotEnd(av.value, now, BookedStarts(viewings, l), start)
      case Some(end) => Claimed(end)
      case None => Refused(SlotFull)
  }

  function NewViewing(m: MatchId, row: MatchRow, start: int, end: int): ViewingRow {
    ViewingRow(m, row.pair, row.tenant, row.landlord, start, end, Confirmed, false)
  }

  function Book(db: Db, actor: UserId, m: MatchId, start: int, now: int, id: ViewingId): (Db, Answer) {
    var row := LiveMatchRow(db.ledger, m);
    if BookRefusal(row, actor).Some? then (db, BookRefusal(row, actor).value)
    else match ClaimSlot(db.catalog, db.viewings, row.value.pair.listing, start, now)
      case Refused(a) => (db, a)
      case Claimed(end) =>
        if MatchHasViewing(db.viewings, m) then (db, AlreadyBooked)
        else (db.(viewings := db.viewings[id := NewViewing(m, row.value, start, end)]), Booked(id, start, end))
  }

  function LiveViewing(viewings: Viewings, v: ViewingId): Option<ViewingRow> {
    if v in viewings && !viewings[v].deleted then Some(viewings[v]) else None
  }

  /** The checks shared by rescheduling and cancelling. */
  function ViewingRefusal(row: Option<ViewingRow>, actor: UserId): Option<Answer> {
    if row.None? then Some(NotFound)
    else if !row.value.Names(actor) then Some(Forbidden)
    else if row.value.status != Confirmed then Some(NotConfirmed)
    else None
  }

  function Reschedule(db: Db, actor: UserId, v: ViewingId, start: int, now: int): (Db, Answer) {
    var row := LiveViewing(db.viewings, v);
    if ViewingRefusal(row, actor).Some? then (db, ViewingRefusal(row, actor).value)
    else match ClaimSlot(db.catalog, db.viewings, row.value.pair.listing, start, now)
      case Refused(a) => (db, a)
      case Claimed(end) =>
        (db.(viewings := db.viewings[v := row.value.(start := start, end := end)]), Moved(start, end))
  }

  function CancelStatus(row: ViewingRow, actor: UserId): ViewingStatus {
    if actor == row.landlord then CancelledLandlord else Cancelled
  }

  function Cancel(db: Db, actor: UserId, v: ViewingId): (Db, Answer) {
    var row := LiveViewing(db.viewings, v);
    if ViewingRefusal(row, actor).Some? then (db, ViewingRefusal(row, actor).value)
    else (db.(viewings := db.viewings[v := row.value.(status := CancelStatus(row.value, actor))]), Ok)
  }

  /** Every other row stands. */
  ghost predicate OnlyChanges(viewings: Viewings, d: Viewings, v: ViewingId) {
    d.Keys == viewings.Keys && forall w <- viewings :: w != v ==> d[w] == viewings[w]
  }

  /**
   Only a party can cancel, only a confirmed viewing; the landlord's word and the tenant's end in different
   statuses.
   */
  lemma CancelMeans(db: Db, actor: UserId, v: ViewingId)
    ensures var (d, a) := Cancel(db, actor, v);
      && (a == Ok <==>
            && v in db.viewings && !db.viewings[v].deleted
            && db.viewings[v].Names(actor) && db.viewings[v].status == Confirmed)
      && d == db.(viewings := d.viewings) && OnlyChanges(db.viewings, d.viewings, v)
      && (a != Ok ==> d == db)
      && (a == Ok ==> d.viewings[v] == db.viewings[v].(status := d.viewings[v].status) && d.viewings[v].Ended())
      && (a == Ok ==> (d.viewings[v].status == CancelledLandlord <==> actor == db.viewings[v].landlord))
  {
  }

  predicate Attendable(viewings: Viewings, v: ViewingId, actor: UserId) {
    v in viewings && viewings[v].landlord == actor && viewings[v].Occupies()
  }

  function Attend(db: Db, actor: UserId, v: ViewingId): (Db, Answer) {
    if Attendable(db.viewings, v, actor)
    then (db.(viewings := db.viewings[v := db.viewings[v].(status := Completed)]), Ok)
    else (db, NotFound)
  }

  /** Only the landlord records attendance, on a viewing that is confirmed or was already attended. */
  lemma AttendMeans(db: Db, actor: UserId, v: ViewingId)
    ensures var (d, a) := Attend(db, actor, v);
      && (a == Ok <==>
            && v in db.viewings && !db.viewings[v].deleted
            && db.viewings[v].landlord == actor && !db.viewings[v].Ended())
      && d == db.(viewings := d.viewings) && OnlyChanges(db.viewings, d.viewings, v)
      && (a != Ok ==> d == db)
      && (a == Ok ==> d.viewings[v] == db.viewings[v].(status := Completed))
  {
    if v in db.viewings {
      match db.viewings[v].status
      case Confirmed =>
      case Completed =>
      case Cancelled =>
      case CancelledLandlord =>
    }
  }

  // ---- listing status ---------------------------------------------------------------

  function RentMatches(matches: map<MatchId, MatchRow>, l: ListingId): map<MatchId, MatchRow> {
    map m | m in matches ::
      if matches[m].pair.listing == l && matches[m].status == Active && !matches[m].deleted
      then matches[m].(status := ListingRented) else matches[m]
  }

  function CancelForListing(viewings: Viewings, l: ListingId): Viewings {
    map v | v in viewings ::
      if viewings[v].pair.listing == l && viewings[v].status == Confirmed && !viewings[v].deleted
      then viewings[v].(status := CancelledLandlord) else viewings[v]
  }

  function WithStatus(c: Catalog, l: ListingId, status: ListingStatus): Catalog
    requires l in c.listings
  {
    c.(listings := c.listings[l := c.listings[l].(status := status)])
  }

  /** The listing is rented, its matches end, its confirmed viewings are cancelled. */
  function RentOut(db: Db, l: ListingId): Db
    requires l in db.catalog.listings
  {
    Db(WithStatus(db.catalog, l, Rented),
       db.ledger.(matches := RentMatches(db.ledger.matches, l)),
       CancelForListing(db.viewings, l))
  }

  /** `publishable` is the answer of the photo and compliance query. */
  function SetListingStatus(db: Db, actor: UserId, l: ListingId, status: ListingStatus, publishable: bool): (Db,
      Answer) {
    var row := db.catalog.VisibleListing(l);
    if row.None? then (db, NotFound)
    else if row.value.owner != actor then (db, Forbidden)
    else match status
      case Open => if publishable then (db.(catalog := WithStatus(db.catalog, l, Open)), Ok) else (db, BadRequest)
      case Paused => (db.(catalog := WithStatus(db.catalog, l, Paused)), Ok)
      case Rented =>
        (RentOut(db, l), Ok)
      case Draft => (db, BadRequest)
  }

  // ---- account deletion ---------------------------------------------------------------

  /** The rows of the deletion loop's table list that belong to this model, in its order. */
  datatype Purge =
    | InterestsByProfile | MatchesByTenant | MatchesByLandlord | ViewingsByTenant | ViewingsByLandlord
    | BlocksByBlocker | BlocksByBlocked

  const PURGES: seq<Purge> :=
    [InterestsByProfile, MatchesByTenant, MatchesByLandlord, ViewingsByTenant, ViewingsByLandlord,
     BlocksByBlocker, BlocksByBlocked]

  /** The column compared is the profile's id, the value the user's. */
  function DropInterests(interests: map<InterestKey, InterestStatus>, u: UserId): map<InterestKey, InterestStatus> {
    map k | k in interests && k.pair.profile != u :: interests[k]
  }

  function DropMatches(matches: map<MatchId, MatchRow>, u: UserId, byTenant: bool): map<MatchId, MatchRow> {
    map m | m in matches ::
      if (if byTenant then matches[m].tenant else matches[m].landlord) == u
      then matches[m].(deleted := true) else matches[m]
  }

  function DropViewings(viewings: Viewings, u: UserId, byTenant: bool): Viewings {
    map v | v in viewings ::
      if (if byTenant then viewings[v].tenant else viewings[v].landlord) == u
      then viewings[v].(deleted := true) else viewings[v]
  }

  function ApplyPurge(db: Db, p: Purge, u: UserId): Db {
    match p
    case InterestsByProfile => db.(ledger := db.ledger.(interests := DropInterests(db.ledger.interests, u)))
    case MatchesByTenant => db.(ledger := db.ledger.(matches := DropMatches(db.ledger.matches, u, true)))
    case MatchesByLandlord => db.(ledger := db.ledger.(matches := DropMatches(db.ledger.matches, u, false)))
    case ViewingsByTenant => db.(viewings := DropViewings(db.viewings, u, true))
    case ViewingsByLandlord => db.(viewings := DropViewings(db.viewings, u, false))
    case BlocksByBlocker => db.(catalog := db.catalog.(blocks := set b <- db.catalog.blocks | b.0 != u))
    case BlocksByBlocked => db.(catalog := db.catalog.(blocks := set b <- db.catalog.blocks | b.1 != u))
  }

  function DropOwned(c: Catalog, u: UserId): Catalog {
    c.(profiles := map p | p in c.profiles ::
         if c.profiles[p].owner == u then c.profiles[p].(deleted := true) else c.profiles[p],
       listings := map l | l in c.listings ::
         if c.listings[l].owner == u then c.listings[l].(deleted := true) else c.listings[l])
  }

  function ApplyPurges(db: Db, n: nat, u: UserId): Db
    requires n <= |PURGES|
  {
    if n == 0 then db else ApplyPurge(ApplyPurges(db, n - 1, u), PURGES[n - 1], u)
  }

  function DeleteAccount(db: Db, u: UserId): Db {
    var db1 := ApplyPurges(db.(catalog := DropOwned(db.catalog, u)), |PURGES|, u);
    db1.(catalog := db1.catalog.(gone := db1.catalog.gone + {u}))
  }

  ghost predicate MatchesForget(g: Ledger, d: Ledger, u: UserId) {
    && d.interests == DropInterests(g.interests, u) && d.matches.Keys == g.matches.Keys
    && forall m <- g.matches :: d.matches[m] == g.matches[m].(deleted := g.matches[m].deleted || g.matches[m].Names(u))
  }

  ghost predicate ViewingsForget(v: Viewings, d: Viewings, u: UserId) {
    d.Keys == v.Keys && forall w <- v :: d[w] == v[w].(deleted := v[w].deleted || v[w].Names(u))
  }

  ghost predicate CatalogForgets(c: Catalog, d: Catalog, u: UserId) {
    && d.profiles.Keys == c.profiles.Keys
    && (forall p <- c.profiles ::
          d.profiles[p] == c.profiles[p].(deleted := c.profiles[p].deleted || c.profiles[p].owner == u))
    && d.listings.Keys == c.listings.Keys
    && (forall l <- c.listings ::
          d.listings[l] == c.listings[l].(deleted := c.listings[l].deleted || c.listings[l].owner == u))
    && d.blocks == (set b <- c.blocks | b.0 != u && b.1 != u)
    && d.suspended == c.suspended && d.gone == c.gone + {u}
  }

  /** What the statement loop amounts to, row by row. */
  lemma DeleteAccountMeans(db: Db, u: UserId)
    ensures var d := DeleteAccount(db, u);
      MatchesForget(db.ledger, d.ledger, u) && ViewingsForget(db.viewings, d.viewings, u)
          && CatalogForgets(db.catalog, d.catalog, u)
  {
    var d0 := db.(catalog := DropOwned(db.catalog, u));
    var d1 := ApplyPurge(ApplyPurge(d0, InterestsByProfile, u), MatchesByTenant, u);
    var d2 := ApplyPurge(d1, MatchesByLandlord, u);
    var d3 := ApplyPurge(d2, ViewingsByTenant, u);
    var d4 := ApplyPurge(d3, ViewingsByLandlord, u);
    var d5 := ApplyPurge(d4, BlocksByBlocker, u);
    var d6 := ApplyPurge(d5, BlocksByBlocked, u);
    PurgesUnrolled(d0, u);
    assert d6.catalog.blocks == set b <- db.catalog.blocks | b.0 != u && b.1 != u;
  }

  lemma PurgesUnrolled(d: Db, u: UserId)
    ensures var d1 := ApplyPurge(ApplyPurge(d, InterestsByProfile, u), MatchesByTenant, u);
      var d2 := ApplyPurge(ApplyPurge(d1, MatchesByLandlord, u), ViewingsByTenant, u);
      var d3 := ApplyPurge(ApplyPurge(d2, ViewingsByLandlord, u), BlocksByBlocker, u);
      ApplyPurges(d, |PURGES|, u) == ApplyPurge(d3, BlocksByBlocked, u)
  {
    assert ApplyPurges(d, 1, u) == ApplyPurge(d, InterestsByProfile, u);
    assert ApplyPurges(d, 2, u) == ApplyPurge(ApplyPurges(d, 1, u), MatchesByTenant, u);
    assert ApplyPurges(d, 3, u) == ApplyPurge(ApplyPurges(d, 2, u), MatchesByLandlord, u);
    assert ApplyPurges(d, 4, u) == ApplyPurge(ApplyPurges(d, 3, u), ViewingsByTenant, u);
    assert ApplyPurges(d, 5, u) == ApplyPurge(ApplyPurges(d, 4, u), ViewingsByLandlord, u);
    assert ApplyPurges(d, 6, u) == ApplyPurge(ApplyPurges(d, 5, u), BlocksByBlocker, u);
    assert ApplyPurges(d, 7, u) == ApplyPurge(ApplyPurges(d, 6, u), BlocksByBlocked, u);
  }

  /** The interests of the deleted user's profiles, whether or not the profiles are still there. */
  ghost predicate InterestOf(db: Db, u: UserId, k: InterestKey) {
    k in db.ledger.interests && k.pair.profile in db.catalog.profiles && db.catalog.profiles[k.pair.profile].owner == u
  }

  /** The interests stand exactly if no profile of an interest has the user's own id. */
  lemma InterestsStandIff(db: Db, u: UserId)
    ensures DeleteAccount(db, u).ledger.interests == db.ledger.interests
       <==> forall k <- db.ledger.interests :: k.pair.profile != u
  {
    DeleteAccountMeans(db, u);
    var kept := DropInterests(db.ledger.interests, u);
    if k :| k in db.ledger.interests && k.pair.profile == u {
      assert k !in kept;
    } else {
      assert kept == db.ledger.interests;
    }
  }

  /**
   The deletion removes the user's interests exactly if each of the user's profiles with one has the user's
   own id.
   */
  lemma InterestsGoIff(db: Db, u: UserId)
    ensures (forall k: InterestKey :: !InterestOf(DeleteAccount(db, u), u, k))
       <==> (forall k: InterestKey :: InterestOf(db, u, k) ==> k.pair.profile == u)
  {
    DeleteAccountMeans(db, u);
    var d := DeleteAccount(db, u);
    forall k: InterestKey ensures InterestOf(d, u, k) <==> InterestOf(db, u, k) && k.pair.profile != u {}
  }

  // ---- blocks ------------------------------------------------------------------------------

  function Block(db: Db, actor: UserId, target: UserId, targetExists: bool): (Db, Answer) {
    if actor == target then (db, BadRequest)
    else if !targetExists || target in db.catalog.gone then (db, NotFound)
    else (db.(catalog := db.catalog.(blocks := db.catalog.blocks + {(actor, target)})), Ok)
  }

  function Unblock(db: Db, actor: UserId, target: UserId): (Db, Answer) {
    (db.(catalog := db.catalog.(blocks := db.catalog.blocks - {(actor, target)})), Ok)
  }
}
