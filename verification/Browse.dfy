/**
 Browsing: one predicate read in two directions, paged by id.
 `tz` is the offset in seconds that the database session truncates days with.
 */
module Browse {
  import opened Base
  import opened Slots
  import opened Schema
  import opened Handlers
  import L = Lifecycle
  import M = Meanings
  import Paging

  const WEEK: int := 604800

  // ---- the date clause ----------------------------------------------------------

  /** The instant a timestamp truncated to its day stands for. */
  function DayStart(tz: int, t: int): int { (t + tz) / DAY * DAY - tz }

  function Gap(a: int, b: int): nat { if a < b then b - a else a - b }

  predicate DatesClose(tz: int, a: int, b: int) { Gap(DayStart(tz, a), DayStart(tz, b)) <= WEEK }

  lemma DayStartBounds(tz: int, t: int)
    ensures DayStart(tz, t) <= t < DayStart(tz, t) + DAY && (DayStart(tz, t) + tz) % DAY == 0
  {
    var q := (t + tz) / DAY;
    assert (q * DAY) % DAY == 0;
  }

  /** Seven days apart or less passes; eight days apart or more fails. */
  lemma DateClauseBounds(tz: int, a: int, b: int)
    ensures Gap(a, b) <= WEEK ==> DatesClose(tz, a, b)
    ensures DatesClose(tz, a, b) ==> Gap(a, b) < WEEK + DAY
  {
    DayStartBounds(tz, a);
    DayStartBounds(tz, b);
    DayMultiples(DayStart(tz, a) + tz, DayStart(tz, b) + tz);
  }

  /** Two day starts less than eight days apart are at most seven apart. */
  lemma DayMultiples(x: int, y: int)
    requires x % DAY == 0 && y % DAY == 0
    ensures Gap(x, y) < WEEK + DAY ==> Gap(x, y) <= WEEK
  {
  }

  /** Both bounds are the best possible: one second short of eight days can pass, one second over seven can fail. */
  lemma DateClauseTight(tz: int) returns (a: int, b: int, c: int, d: int)
    ensures DatesClose(tz, a, b) && Gap(a, b) == WEEK + DAY - 1
    ensures !DatesClose(tz, c, d) && Gap(c, d) == WEEK + 1
  {
    a, b := -tz, WEEK + DAY - 1 - tz;
    c, d := DAY - 1 - tz, WEEK + DAY - tz;
  }

  // ---- the shared predicate --------------------------------------------------------

  /** The hard conditions, on the values the two owners entered. */
  predicate Fits(tz: int, w: Wants, o: Offer) {
    && w.budgetMin <= o.rent <= w.budgetMax
    && o.location in w.locations
    && o.room in w.rooms
    && DatesClose(tz, o.availableFrom, w.availableFrom)
    && (w.minArea.None? || o.area >= w.minArea.value)
    && (!w.hasPets || o.allowPets)
    && (!w.needsSubsidy || o.allowSubsidy)
    && (!w.needsTaxReceipt || o.allowTaxReceipt)
    && (!w.needsHousehold || o.allowHousehold)
    && (!w.needsCooking || o.allowCooking)
    && (!w.needsParking || o.hasParking)
    && (!w.smoking || o.allowSmoking)
  }

  /** A deleted account's suspension no longer counts. */
  predicate Barred(c: Catalog, u: UserId) { u in c.suspended && u !in c.gone }

  predicate HasActiveMatch(g: Ledger, pair: Pair) {
    exists m <- g.matches :: g.matches[m].pair == pair && L.LiveActive(g, m)
  }

  predicate Suits(db: Db, tz: int, p: ProfileId, l: ListingId) {
    && p in db.catalog.profiles && l in db.catalog.listings
    && var tp, lr := db.catalog.profiles[p], db.catalog.listings[l];
    && Fits(tz, tp.wants, lr.offer)
    && tp.active && !tp.deleted
    && lr.status == Open && !lr.deleted && !lr.adminRemoved
    && !Barred(db.catalog, lr.owner) && !Barred(db.catalog, tp.owner)
    && lr.owner != tp.owner
    && (tp.owner, lr.owner) !in db.catalog.blocks && (lr.owner, tp.owner) !in db.catalog.blocks
    && !HasActiveMatch(db.ledger, Pair(p, l))
  }

  // ---- the same column by column ---------------------------------------------------------

  /** What a tenant may need of a listing and a listing may allow. */
  datatype Term = Pets | Subsidy | TaxReceipt | Household | Cooking | Parking | Smoking

  ghost predicate Needs(w: Wants, term: Term) {
    match term
    case Pets => w.hasPets
    case Subsidy => w.needsSubsidy
    case TaxReceipt => w.needsTaxReceipt
    case Household => w.needsHousehold
    case Cooking => w.needsCooking
    case Parking => w.needsParking
    case Smoking => w.smoking
  }

  ghost predicate Grants(o: Offer, term: Term) {
    match term
    case Pets => o.allowPets
    case Subsidy => o.allowSubsidy
    case TaxReceipt => o.allowTaxReceipt
    case Household => o.allowHousehold
    case Cooking => o.allowCooking
    case Parking => o.hasParking
    case Smoking => o.allowSmoking
  }

  /** The listing is within the profile's bounds, and grants whatever the profile needs. */
  ghost predicate Offers(w: Wants, o: Offer) {
    && !(o.rent < w.budgetMin) && !(o.rent > w.budgetMax)
    && {o.location} <= w.locations && {o.room} <= w.rooms
    && (w.minArea == None || exists a :: w.minArea == Some(a) && !(o.area < a))
    && TermsMet(w, o)
  }

  /** Both rows may be shown, and to each other. */
  ghost predicate MayShow(db: Db, p: ProfileId, l: ListingId) {
    var c := db.catalog;
    && M.ProfileActive(c, p) && M.ListingOpen(c, l)
    && var (tenant, landlord) := (c.profiles[p].owner, c.listings[l].owner);
    && tenant != landlord && !M.OwnersBlocked(c, Pair(p, l))
    && (forall u | u in {tenant, landlord} && u in c.suspended :: u in c.gone)
    && forall m <- db.ledger.matches :: db.ledger.matches[m].pair == Pair(p, l) ==> !M.MatchOn(db.ledger, m)
  }

  /** `day` is the calendar day of the session that the instant falls on. */
  ghost predicate FallsOn(tz: int, t: int, day: int) { 86400 * day <= t + tz < 86400 * (day + 1) }

  /** The two dates are at most seven calendar days of the session apart. */
  ghost predicate WithinWeek(tz: int, a: int, b: int) {
    exists i: int, j: int :: FallsOn(tz, a, i) && FallsOn(tz, b, j) && i - 7 <= j <= i + 7
  }

  lemma FallsOnIs(tz: int, t: int, day: int)
    ensures FallsOn(tz, t, day) <==> day == (t + tz) / DAY
  {
  }

  lemma WithinWeekIs(tz: int, a: int, b: int)
    ensures WithinWeek(tz, a, b) <==> (a + tz) / DAY - 7 <= (b + tz) / DAY <= (a + tz) / DAY + 7
  {
    FallsOnIs(tz, a, (a + tz) / DAY);
    FallsOnIs(tz, b, (b + tz) / DAY);
    if i: int, j: int :| FallsOn(tz, a, i) && FallsOn(tz, b, j) && i - 7 <= j <= i + 7 {
      FallsOnIs(tz, a, i);
      FallsOnIs(tz, b, j);
    }
  }

  lemma DaysAre(x: int, y: int)
    ensures Gap(x * DAY, y * DAY) <= WEEK <==> x - 7 <= y <= x + 7
  {
  }

  lemma DatesAre(tz: int, a: int, b: int)
    ensures DatesClose(tz, a, b) <==> WithinWeek(tz, a, b)
  {
    DaysAre((a + tz) / DAY, (b + tz) / DAY);
    WithinWeekIs(tz, a, b);
  }

  /** The listing suits the profile's wants, and is free within seven days of its date. */
  ghost predicate Agrees(tz: int, w: Wants, o: Offer) {
    Offers(w, o) && WithinWeek(tz, o.availableFrom, w.availableFrom)
  }

  /** Every term that is needed is granted. */
  ghost predicate TermsMet(w: Wants, o: Offer) { forall term: Term :: Needs(w, term) ==> Grants(o, term) }

  lemma TermsAre(w: Wants, o: Offer)
    ensures TermsMet(w, o) <==>
      && (w.hasPets ==> o.allowPets) && (w.needsSubsidy ==> o.allowSubsidy) && (w.needsTaxReceipt ==> o.allowTaxReceipt)
      && (w.needsHousehold ==> o.allowHousehold) && (w.needsCooking ==> o.allowCooking)
      && (w.needsParking ==> o.hasParking) && (w.smoking ==> o.allowSmoking)
  {
    assert Needs(w, Pets) == w.hasPets && Needs(w, Subsidy) == w.needsSubsidy && Needs(w, Smoking) == w.smoking
        && Needs(w, TaxReceipt) == w.needsTaxReceipt && Needs(w, Household) == w.needsHousehold
        && Needs(w, Cooking) == w.needsCooking && Needs(w, Parking) == w.needsParking;
  }

  lemma FitsMeans(tz: int, w: Wants, o: Offer)
    ensures Fits(tz, w, o) <==> Agrees(tz, w, o)
  {
    DatesAre(tz, o.availableFrom, w.availableFrom);
    TermsAre(w, o);
    assert w.minArea.None? || w.minArea == Some(w.minArea.value);
  }

  lemma SuitsMeans(db: Db, tz: int, p: ProfileId, l: ListingId)
    ensures Suits(db, tz, p, l) <==>
      MayShow(db, p, l) && Agrees(tz, db.catalog.profiles[p].wants, db.catalog.listings[l].offer)
  {
    if p in db.catalog.profiles && l in db.catalog.listings {
      FitsMeans(tz, db.catalog.profiles[p].wants, db.catalog.listings[l].offer);
      M.BlockedMeans(db.catalog, Pair(p, l));
    }
  }

  // ---- the two endpoints ---------------------------------------------------------------

  function ListingsFor(db: Db, tz: int, p: ProfileId): set<ListingId> {
    set l <- db.catalog.listings | Suits(db, tz, p, l)
  }

  function ProfilesFor(db: Db, tz: int, l: ListingId): set<ProfileId> {
    set p <- db.catalog.profiles | Suits(db, tz, p, l)
  }

  /** Why a tenant may not browse with a profile. */
  function TenantBrowseRefusal(c: Catalog, user: UserId, p: ProfileId): Option<Answer> {
    var row := c.VisibleProfile(p);
    if row.None? then Some(NotFound)
    else if row.value.owner != user then Some(Forbidden)
    else if !row.value.active then Some(ProfileInactive)
    else None
  }

  /**
   Why a landlord may not browse for a listing; a listing an administrator removed still gets in, and finds
   nobody.
   */
  function LandlordBrowseRefusal(c: Catalog, user: UserId, l: ListingId): Option<Answer> {
    var row := c.VisibleListing(l);
    if row.None? then Some(NotFound)
    else if row.value.owner != user then Some(Forbidden)
    else if row.value.status != Open then Some(ListingNotActive)
    else None
  }

  /** The owner of a row that is there may browse with it while it is active; else the answer says what is missing. */
  lemma BrowseRefusals(c: Catalog, user: UserId, p: ProfileId, l: ListingId)
    ensures TenantBrowseRefusal(c, user, p)
         == if M.ProfileActive(c, p) && c.profiles[p].owner == user then None
            else if !M.ProfileThere(c, p) then Some(NotFound)
            else if c.profiles[p].owner == user then Some(ProfileInactive) else Some(Forbidden)
    ensures LandlordBrowseRefusal(c, user, l)
         == if M.ListingThere(c, l) && c.listings[l].status == Open && c.listings[l].owner == user then None
            else if !M.ListingThere(c, l) then Some(NotFound)
            else if c.listings[l].owner == user then Some(ListingNotActive) else Some(Forbidden)
  {
  }

  datatype Reply = Refusal(answer: Answer) | Items(page: Paging.Page)

  /**
   What a browse request must answer: the refusal, or the top of what suits under the cursor, and where it
   stopped.
   */
  ghost predicate Browsed(reply: Reply, refusal: Option<Answer>, all: set<nat>, cursor: Option<nat>, limit: nat) {
    match reply
    case Refusal(a) => refusal == Some(a)
    case Items(page) =>
      && refusal.None? && |page.items| <= limit && Paging.StrictlyDescending(page.items)
      && (forall x <- page.items :: x in all && Paging.Under(x, cursor))
      && (forall x <- all :: Paging.Under(x, cursor) && x !in page.items ==> page.next.Some? && x < page.next.value)
      && (page.next.Some? ==> |page.items| == limit > 0 && page.items[limit - 1] == page.next.value)
  }

  /** One request of a tenant; `rows` is what the query answered. */
  method BrowseListings(db: Db, tz: int, user: UserId, p: ProfileId, cursor: Option<nat>, asked: Option<int>,
      rows: seq<nat>)
      returns (reply: Reply)
    requires Paging.Answers(ListingsFor(db, tz, p), cursor, Paging.LimitOf(asked) + 1, rows)
    ensures Browsed(reply, TenantBrowseRefusal(db.catalog, user, p), ListingsFor(db, tz, p), cursor,
          Paging.LimitOf(asked))
  {
    var row := db.catalog.VisibleProfile(p);
    if row.None? { return Refusal(NotFound); }
    if row.value.owner != user { return Refusal(Forbidden); }
    if !row.value.active { return Refusal(ProfileInactive); }
    var limit := Paging.ParseLimit(asked);
    var page := Paging.CutPage(rows, limit);
    Paging.PageMeans(ListingsFor(db, tz, p), cursor, limit, rows);
    return Items(page);
  }

  /** One request of a landlord; the rows are copied into cards one by one. */
  method BrowseProfiles(db: Db, tz: int, user: UserId, l: ListingId, cursor: Option<nat>, asked: Option<int>,
      rows: seq<nat>)
      returns (reply: Reply)
    requires Paging.Answers(ProfilesFor(db, tz, l), cursor, Paging.LimitOf(asked) + 1, rows)
    ensures Browsed(reply, LandlordBrowseRefusal(db.catalog, user, l), ProfilesFor(db, tz, l), cursor,
          Paging.LimitOf(asked))
  {
    var row := db.catalog.VisibleListing(l);
    if row.None? { return Refusal(NotFound); }
    if row.value.owner != user { return Refusal(Forbidden); }
    if row.value.status != Open { return Refusal(ListingNotActive); }
    var limit := Paging.ParseLimit(asked);
    var cards := [];
    for i := 0 to |rows|
      invariant cards == rows[..i]
    {
      cards := cards + [rows[i]];
    }
    var page := Paging.CutPage(cards, limit);
    Paging.PageMeans(ProfilesFor(db, tz, l), cursor, limit, rows);
    return Items(page);
  }

  // ---- the two directions agree ------------------------------------------------------------

  /** Everything a complete browse over an unchanging database has shown. */
  ghost predicate Complete(all: set<nat>, limit: nat, shown: seq<nat>)
    requires limit >= 1
  {
    exists tables, answers :: CompleteRun(all, limit, shown, tables, answers)
  }

  ghost predicate CompleteRun(all: set<nat>, limit: nat, shown: seq<nat>, tables: seq<set<nat>>, answers: seq<seq<nat>>)
    requires limit >= 1
  {
    && Paging.Follows(tables, None, limit, answers) && Paging.Finished(answers, limit)
    && Paging.Unchanging(tables, all) && shown == Paging.Collected(answers, limit)
  }

  lemma CompleteShows(all: set<nat>, limit: nat, shown: seq<nat>)
    requires limit >= 1 && Complete(all, limit, shown)
    ensures forall x: nat :: x in shown <==> x in all
  {
    var tables, answers :| CompleteRun(all, limit, shown, tables, answers);
    Paging.CompletePaging(all, tables, limit, answers);
  }

  /** Browsing can be carried on to a complete one, whatever the page size. */
  lemma CompleteExists(all: set<nat>, limit: nat) returns (shown: seq<nat>)
    requires limit >= 1
    ensures Complete(all, limit, shown)
  {
    var tables, answers := Paging.PagingEnds(all, None, limit);
    shown := Paging.Collected(answers, limit);
    assert CompleteRun(all, limit, shown, tables, answers);
  }

  /**
   A complete browse of a profile shows exactly the listings that are within its bounds, grant what it needs, are
   free within seven calendar days of its date, and may be shown to it.
   */
  lemma ListingsShown(db: Db, tz: int, p: ProfileId, l: ListingId, limit: nat, shown: seq<nat>)
    requires limit >= 1 && Complete(ListingsFor(db, tz, p), limit, shown)
    ensures l in shown <==>
      MayShow(db, p, l) && Agrees(tz, db.catalog.profiles[p].wants, db.catalog.listings[l].offer)
  {
    CompleteShows(ListingsFor(db, tz, p), limit, shown);
    SuitsMeans(db, tz, p, l);
  }

  /** The same for a listing's complete browse and the profiles. */
  lemma ProfilesShown(db: Db, tz: int, p: ProfileId, l: ListingId, limit: nat, shown: seq<nat>)
    requires limit >= 1 && Complete(ProfilesFor(db, tz, l), limit, shown)
    ensures p in shown <==>
      MayShow(db, p, l) && Agrees(tz, db.catalog.profiles[p].wants, db.catalog.listings[l].offer)
  {
    CompleteShows(ProfilesFor(db, tz, l), limit, shown);
    SuitsMeans(db, tz, p, l);
  }

  /**
   Whatever the session's offset, a pair that is shown is less than eight days apart, and dates at most seven days
   apart keep no pair from being shown.
   */
  lemma ShownWithinDays(db: Db, tz: int, p: ProfileId, l: ListingId, limit: nat, shown: seq<nat>)
    requires limit >= 1 && Complete(ListingsFor(db, tz, p), limit, shown)
    requires p in db.catalog.profiles && l in db.catalog.listings
    ensures var (w, o) := (db.catalog.profiles[p].wants, db.catalog.listings[l].offer);
      && (l in shown ==> -8 * 86400 < o.availableFrom - w.availableFrom < 8 * 86400)
      && (MayShow(db, p, l) && Offers(w, o) && -7 * 86400 <= o.availableFrom - w.availableFrom <= 7 * 86400 ==>
            l in shown)
  {
    var w, o := db.catalog.profiles[p].wants, db.catalog.listings[l].offer;
    ListingsShown(db, tz, p, l, limit, shown);
    DatesAre(tz, o.availableFrom, w.availableFrom);
    DateClauseBounds(tz, o.availableFrom, w.availableFrom);
  }

  /** A pair suits exactly if some complete browse of the profile shows the listing, and then every one does. */
  lemma SuitsIffShown(db: Db, tz: int, p: ProfileId, l: ListingId, limit: nat)
    requires limit >= 1
    ensures Suits(db, tz, p, l) <==> exists shown :: Complete(ListingsFor(db, tz, p), limit, shown) && l in shown
    ensures Suits(db, tz, p, l) ==> forall shown :: Complete(ListingsFor(db, tz, p), limit, shown) ==> l in shown
  {
    var all := ListingsFor(db, tz, p);
    var one := CompleteExists(all, limit);
    forall shown | Complete(all, limit, shown) ensures l in shown <==> l in all { CompleteShows(all, limit, shown); }
  }

  /**
   The profile's complete browse shows the listing exactly when the listing's shows the profile, whatever the
   page sizes.
   */
  lemma TwoWayBrowse(db: Db, tz: int, p: ProfileId, l: ListingId, m: nat, listings: seq<nat>, n: nat,
      profiles: seq<nat>)
    requires m >= 1 && n >= 1
    requires Complete(ListingsFor(db, tz, p), m, listings) && Complete(ProfilesFor(db, tz, l), n, profiles)
    ensures l in listings <==> p in profiles
    ensures l in listings ==> p in db.catalog.profiles && l in db.catalog.listings
    ensures l in listings ==> TenantBrowseRefusal(db.catalog, db.catalog.profiles[p].owner, p).None?
    ensures l in listings ==> LandlordBrowseRefusal(db.catalog, db.catalog.listings[l].owner, l).None?
  {
    CompleteShows(ListingsFor(db, tz, p), m, listings);
    CompleteShows(ProfilesFor(db, tz, l), n, profiles);
  }

  /** What a browse shows can be acted on: either owner's interest passes every check in that state. */
  lemma BrowsedMayExpress(db: Db, tz: int, p: ProfileId, limit: nat, listings: seq<nat>, l: ListingId, role: Role,
      id: MatchId)
    requires limit >= 1 && Complete(ListingsFor(db, tz, p), limit, listings) && l in listings
    ensures p in db.catalog.profiles && l in db.catalog.listings
    ensures var c := db.catalog;
      var actor := if role == Tenant then c.profiles[p].owner else c.listings[l].owner;
      var other := if role == Tenant then c.listings[l].owner else c.profiles[p].owner;
      && ExpressRefusal(SeeForExpress(c, Pair(p, l)), actor, role).None?
      && actor != other
      && Express(db, actor, Pair(p, l), role, id).1
           == if db.ledger.Interested(Pair(p, l), role.Other()) then Matched(other) else Pending
  {
    CompleteShows(ListingsFor(db, tz, p), limit, listings);
    assert Suits(db, tz, p, l);
  }

  /** A matched pair is in neither browse while the match is active. */
  lemma MatchedNotBrowsed(db: Db, tz: int, id: MatchId, m: nat, listings: seq<nat>, n: nat, profiles: seq<nat>)
    requires m >= 1 && n >= 1 && id in db.ledger.matches
    requires db.ledger.matches[id].status == Active && !db.ledger.matches[id].deleted
    requires Complete(ListingsFor(db, tz, db.ledger.matches[id].pair.profile), m, listings)
    requires Complete(ProfilesFor(db, tz, db.ledger.matches[id].pair.listing), n, profiles)
    ensures db.ledger.matches[id].pair.listing !in listings && db.ledger.matches[id].pair.profile !in profiles
  {
    var pair := db.ledger.matches[id].pair;
    CompleteShows(ListingsFor(db, tz, pair.profile), m, listings);
    CompleteShows(ProfilesFor(db, tz, pair.listing), n, profiles);
    assert HasActiveMatch(db.ledger, Pair(pair.profile, pair.listing));
  }

  /** An accepted interest makes a match if the other side waits and the pair has no row yet. */
  lemma ExpressEffect(db: Db, actor: UserId, pair: Pair, role: Role, id: MatchId)
    requires ExpressRefusal(SeeForExpress(db.catalog, pair), actor, role).None? && id !in db.ledger.matches
    ensures var g, g' := db.ledger, Express(db, actor, pair, role, id).0.ledger;
      && (g'.HasMatch(pair) <==> g.HasMatch(pair) || g.Interested(pair, role.Other()))
      && (HasActiveMatch(g', pair) <==>
            HasActiveMatch(g, pair) || (!g.HasMatch(pair) && g.Interested(pair, role.Other())))
      && g'.Interested(pair, role)
  {
    var g, g' := db.ledger, Express(db, actor, pair, role, id).0.ledger;
    if g.Interested(pair, role.Other()) && !g.HasMatch(pair) {
      assert id in g'.matches && g'.matches[id].pair == pair && g'.matches[id].status == Active
          && !g'.matches[id].deleted;
    } else {
      assert g'.matches == g.matches;
    }
  }

  /** The ledger reaches the predicate only through an active match. */
  lemma SuitsLedger(db: Db, db': Db, tz: int, p: ProfileId, l: ListingId)
    requires db'.catalog == db.catalog && Suits(db, tz, p, l)
    ensures Suits(db', tz, p, l) <==> !HasActiveMatch(db'.ledger, Pair(p, l))
  {
  }

  /**
   Both owners of a browsed pair express interest, in either order.  The pair then leaves the browse
   exactly when it had no match row before: an ended match is not made again, and keeps being shown.
   */
  lemma BothExpress(db: Db, tz: int, p: ProfileId, l: ListingId, first: Role, id: MatchId, id': MatchId)
    requires Suits(db, tz, p, l) && id !in db.ledger.matches && id' !in db.ledger.matches && id != id'
    ensures var pair, t, o := Pair(p, l), db.catalog.profiles[p].owner, db.catalog.listings[l].owner;
      var a, b := if first == Tenant then t else o, if first == Tenant then o else t;
      var db1 := Express(db, a, pair, first, id).0;
      var db2 := Express(db1, b, pair, first.Other(), id');
      db2.1 == Matched(a) && (Suits(db2.0, tz, p, l) <==> db.ledger.HasMatch(pair))
  {
    var pair, t, o := Pair(p, l), db.catalog.profiles[p].owner, db.catalog.listings[l].owner;
    var a, b := if first == Tenant then t else o, if first == Tenant then o else t;
    var db1 := Express(db, a, pair, first, id).0;
    ExpressEffect(db, a, pair, first, id);
    ExpressEffect(db1, b, pair, first.Other(), id');
    SuitsLedger(db, Express(db1, b, pair, first.Other(), id').0, tz, p, l);
  }

  /** Both owners express interest, then the landlord rents the listing out and publishes it again. */
  function MatchRentReopen(db: Db, p: ProfileId, l: ListingId, id: MatchId, id': MatchId): seq<(UserId, L.Call)>
    requires p in db.catalog.profiles && l in db.catalog.listings
  {
    var t, o := db.catalog.profiles[p].owner, db.catalog.listings[l].owner;
    [(t, L.Express(Pair(p, l), Tenant, id)), (o, L.Express(Pair(p, l), Landlord, id')),
     (o, L.SetStatus(l, Rented, true)), (o, L.SetStatus(l, Open, true))]
  }

  /** From every suiting pair without a match, four requests lead to one that is browsed although it has a match row. */
  lemma EndedMatchIsBrowsed(db: Db, tz: int, p: ProfileId, l: ListingId, id: MatchId, id': MatchId)
    requires L.Ok(db) && Suits(db, tz, p, l) && !db.ledger.HasMatch(Pair(p, l))
    requires id !in db.ledger.matches && id' !in db.ledger.matches && id != id'
    ensures var d := L.Run(db, MatchRentReopen(db, p, l, id, id'));
      L.Ok(d) && Suits(d, tz, p, l) && d.ledger.HasMatch(Pair(p, l)) && d.ledger.BothInterested(Pair(p, l))
  {
    var pair, t, o := Pair(p, l), db.catalog.profiles[p].owner, db.catalog.listings[l].owner;
    var calls := MatchRentReopen(db, p, l, id, id');
    var d1 := L.Serve(db, t, L.Express(pair, Tenant, id)).0;
    var d2 := L.Serve(d1, o, L.Express(pair, Landlord, id')).0;
    BothServed(db, tz, p, l, id, id');
    var d3 := L.Serve(d2, o, L.SetStatus(l, Rented, true)).0;
    var d4 := L.Serve(d3, o, L.SetStatus(l, Open, true)).0;
    RentReopen(d2, o, l, pair);
    RunFour(db, calls, d1, d2, d3, d4);
    L.RunGood(db, calls);
    SuitsLedger(db, d4, tz, p, l);
  }

  lemma BothServed(db: Db, tz: int, p: ProfileId, l: ListingId, id: MatchId, id': MatchId)
    requires L.GoneOwnNothing(db) && Suits(db, tz, p, l) && !db.ledger.HasMatch(Pair(p, l))
    requires id !in db.ledger.matches && id' !in db.ledger.matches && id != id'
    ensures var pair, t, o := Pair(p, l), db.catalog.profiles[p].owner, db.catalog.listings[l].owner;
      var d1 := L.Serve(db, t, L.Express(pair, Tenant, id)).0;
      var d2 := L.Serve(d1, o, L.Express(pair, Landlord, id')).0;
      d2.catalog == db.catalog && o !in d2.catalog.gone && d2.ledger.HasMatch(pair) && d2.ledger.BothInterested(pair)
  {
    var pair, t, o := Pair(p, l), db.catalog.profiles[p].owner, db.catalog.listings[l].owner;
    assert t !in db.catalog.gone && o !in db.catalog.gone;
    var d1 := Express(db, t, pair, Tenant, id).0;
    ExpressEffect(db, t, pair, Tenant, id);
    ExpressEffect(d1, o, pair, Landlord, id');
    OthersInterestStays(d1, o, pair, Landlord, id');
  }

  lemma OthersInterestStays(db: Db, actor: UserId, pair: Pair, role: Role, id: MatchId)
    requires db.ledger.Interested(pair, role.Other())
    ensures Express(db, actor, pair, role, id).0.ledger.Interested(pair, role.Other())
  {
  }

  lemma RentReopen(db: Db, o: UserId, l: ListingId, pair: Pair)
    requires db.catalog.VisibleListing(l).Some? && db.catalog.listings[l].owner == o
    requires db.catalog.listings[l].status == Open
    requires pair.listing == l && db.ledger.HasMatch(pair) && o !in db.catalog.gone
    ensures var d := L.Serve(L.Serve(db, o, L.SetStatus(l, Rented, true)).0, o, L.SetStatus(l, Open, true)).0;
      && d.catalog == db.catalog && d.ledger.interests == db.ledger.interests
      && d.ledger.HasMatch(pair) && !HasActiveMatch(d.ledger, pair)
  {
    RentEndsMatch(db, o, l, pair);
    assert db.catalog.listings[l := db.catalog.listings[l].(status := Rented)][l := db.catalog.listings[l]]
        == db.catalog.listings;
  }

  lemma RunFour(db: Db, calls: seq<(UserId, L.Call)>, d1: Db, d2: Db, d3: Db, d4: Db)
    requires |calls| == 4
    requires d1 == L.Serve(db, calls[0].0, calls[0].1).0 && d2 == L.Serve(d1, calls[1].0, calls[1].1).0
    requires d3 == L.Serve(d2, calls[2].0, calls[2].1).0 && d4 == L.Serve(d3, calls[3].0, calls[3].1).0
    ensures L.Run(db, calls) == d4
  {
    assert calls[..3][..2] == calls[..2] && calls[..2][..1] == calls[..1] && calls[..1][..0] == [];
    assert L.Run(db, calls[..1]) == d1;
    assert L.Run(db, calls[..2]) == d2;
    assert L.Run(db, calls[..3]) == d3;
  }

  lemma RentEndsMatch(db: Db, o: UserId, l: ListingId, pair: Pair)
    requires db.catalog.VisibleListing(l).Some? && db.catalog.listings[l].owner == o && pair.listing == l
    requires db.ledger.HasMatch(pair)
    ensures var g := SetListingStatus(db, o, l, Rented, true).0.ledger;
      g.interests == db.ledger.interests && g.HasMatch(pair) && !HasActiveMatch(g, pair)
  {
    var g := SetListingStatus(db, o, l, Rented, true).0.ledger;
    var m :| m in db.ledger.matches && db.ledger.matches[m].pair == pair;
    assert m in g.matches && g.matches[m].pair == pair;
  }
}
