/**
 When a request is accepted, what each refusal says, and what changes: in terms of the columns of the rows, and
 of none of the checks the handlers are written with.
 */
module Meanings {
  import opened Base
  import opened Slots
  import opened Schema
  import H = Handlers

  // ---- conditions on rows ------------------------------------------------------------

  ghost predicate ProfileThere(c: Catalog, p: ProfileId) { p in c.profiles && !c.profiles[p].deleted }

  ghost predicate ListingThere(c: Catalog, l: ListingId) { l in c.listings && !c.listings[l].deleted }

  ghost predicate ProfileActive(c: Catalog, p: ProfileId) { ProfileThere(c, p) && c.profiles[p].active }

  ghost predicate ListingPublic(c: Catalog, l: ListingId) { ListingThere(c, l) && !c.listings[l].adminRemoved }

  ghost predicate ListingOpen(c: Catalog, l: ListingId) { ListingPublic(c, l) && c.listings[l].status == Open }

  /** The profile lets its owner, or any landlord, express interest. */
  ghost predicate ProfilePasses(c: Catalog, actor: UserId, pair: Pair, role: Role) {
    ProfileActive(c, pair.profile) && (role == Tenant ==> c.profiles[pair.profile].owner == actor)
  }

  ghost predicate ListingPasses(c: Catalog, actor: UserId, pair: Pair, role: Role) {
    ListingOpen(c, pair.listing) && (role == Landlord ==> c.listings[pair.listing].owner == actor)
  }

  ghost predicate OwnersBlocked(c: Catalog, pair: Pair)
    requires pair.profile in c.profiles && pair.listing in c.listings
  {
    exists b <- c.blocks :: {b.0, b.1} == {c.profiles[pair.profile].owner, c.listings[pair.listing].owner}
  }

  ghost predicate MayExpress(c: Catalog, actor: UserId, pair: Pair, role: Role) {
    ProfilePasses(c, actor, pair, role) && ListingPasses(c, actor, pair, role) && !OwnersBlocked(c, pair)
  }

  /** The other side has expressed interest and not withdrawn it. */
  ghost predicate OtherWaits(g: Ledger, pair: Pair, role: Role) {
    exists k <- g.interests :: k.pair == pair && k.role != role && g.interests[k] == Wanted
  }

  // ---- expressing interest -------------------------------------------------------------

  /** The interest is stored; if the other side waits, there is a match, made now unless the pair has one. */
  ghost predicate Expressed(db: Db, d: Db, pair: Pair, role: Role, id: MatchId)
    requires pair.profile in db.catalog.profiles && pair.listing in db.catalog.listings
  {
    var tenant, landlord := db.catalog.profiles[pair.profile].owner, db.catalog.listings[pair.listing].owner;
    && d.catalog == db.catalog && d.viewings == db.viewings
    && d.ledger.interests == db.ledger.interests[InterestKey(pair, role) := Wanted]
    && d.ledger.matches
       == if OtherWaits(db.ledger, pair, role) && forall m <- db.ledger.matches :: db.ledger.matches[m].pair != pair
          then db.ledger.matches[id := MatchRow(pair, tenant, landlord, Active, false)]
          else db.ledger.matches
  }

  /** Accepted exactly if every check passes, answered by whether the other side waits; else nothing changes. */
  lemma ExpressMeans(db: Db, actor: UserId, pair: Pair, role: Role, id: MatchId)
    ensures var (d, a) := H.Express(db, actor, pair, role, id);
      if MayExpress(db.catalog, actor, pair, role) then
        && Expressed(db, d, pair, role, id)
        && a == if !OtherWaits(db.ledger, pair, role) then H.Pending
                else if role == Tenant then H.Matched(db.catalog.listings[pair.listing].owner)
                else H.Matched(db.catalog.profiles[pair.profile].owner)
      else d == db && !a.Pending? && !a.Matched?
  {
    var g, key := db.ledger, InterestKey(pair, role.Other());
    if pair.profile in db.catalog.profiles && pair.listing in db.catalog.listings {
      BlockedMeans(db.catalog, pair);
    }
    WaitsMeans(g, pair, role);
    if MayExpress(db.catalog, actor, pair, role) {
      var wanted := g.(interests := g.interests[InterestKey(pair, role) := Wanted]);
      assert wanted.Interested(pair, role.Other()) <==> g.Interested(pair, role.Other());
    }
  }

  lemma AcceptedIff(db: Db, actor: UserId, pair: Pair, role: Role, id: MatchId)
    ensures var a := H.Express(db, actor, pair, role, id).1;
      a.Pending? || a.Matched? <==> MayExpress(db.catalog, actor, pair, role)
  {
    ExpressMeans(db, actor, pair, role, id);
  }

  lemma BlockedMeans(c: Catalog, pair: Pair)
    requires pair.profile in c.profiles && pair.listing in c.listings
    ensures OwnersBlocked(c, pair) <==> c.Blocked(c.profiles[pair.profile].owner, c.listings[pair.listing].owner)
  {
    var t, o := c.profiles[pair.profile].owner, c.listings[pair.listing].owner;
    if b :| b in c.blocks && {b.0, b.1} == {t, o} {
      assert b.0 in {t, o} && b.1 in {t, o} && t in {b.0, b.1} && o in {b.0, b.1};
      assert b == (t, o) || b == (o, t);
    }
    assert (o, t) in c.blocks ==> {(o, t).0, (o, t).1} == {t, o};
    assert (t, o) in c.blocks ==> {(t, o).0, (t, o).1} == {t, o};
  }

  lemma WaitsMeans(g: Ledger, pair: Pair, role: Role)
    ensures OtherWaits(g, pair, role) <==> g.Interested(pair, role.Other())
  {
    if k :| k in g.interests && k.pair == pair && k.role != role && g.interests[k] == Wanted {
      assert k == InterestKey(pair, role.Other());
    }
  }

  /** Which check failed, in the order of the checks: profile, its owner, listing, its owner, blocks. */
  lemma ExpressRefusals(db: Db, actor: UserId, pair: Pair, role: Role, id: MatchId)
    ensures var (c, a, p, l) := (db.catalog, H.Express(db, actor, pair, role, id).1, pair.profile, pair.listing);
      && (!ProfileThere(c, p) ==> a == H.NotFound)
      && (ProfileThere(c, p) && !ProfileActive(c, p) ==> a == H.ProfileInactive)
      && (ProfileActive(c, p) && !ProfilePasses(c, actor, pair, role) ==> a == H.Forbidden)
      && (ProfilePasses(c, actor, pair, role) && !ListingPublic(c, l) ==> a == H.NotFound)
      && (ProfilePasses(c, actor, pair, role) && ListingPublic(c, l) && !ListingOpen(c, l) ==> a == H.ListingNotActive)
      && (ProfilePasses(c, actor, pair, role) && ListingOpen(c, l) && !ListingPasses(c, actor, pair, role) ==>
            a == H.Forbidden)
      && (ProfilePasses(c, actor, pair, role) && ListingPasses(c, actor, pair, role) && OwnersBlocked(c, pair) ==>
            a == H.UsersBlocked)
  {
    if pair.profile in db.catalog.profiles && pair.listing in db.catalog.listings {
      BlockedMeans(db.catalog, pair);
    }
  }

  // ---- withdrawing it --------------------------------------------------------------------

  /** The acting side's row is there; the other side's is not looked at. */
  ghost predicate SideThere(c: Catalog, pair: Pair, role: Role) {
    match role
    case Tenant => ProfileThere(c, pair.profile)
    case Landlord => ListingThere(c, pair.listing)
  }

  ghost predicate OwnsSide(c: Catalog, actor: UserId, pair: Pair, role: Role) {
    match role
    case Tenant => pair.profile in c.profiles && c.profiles[pair.profile].owner == actor
    case Landlord => pair.listing in c.listings && c.listings[pair.listing].owner == actor
  }

  ghost predicate HasMatch(g: Ledger, pair: Pair) {
    exists m <- g.matches :: !g.matches[m].deleted && g.matches[m].pair == pair
  }

  /** Accepted exactly from the owner of the acting side while the pair has no match; ends that interest only. */
  lemma WithdrawMeans(db: Db, actor: UserId, pair: Pair, role: Role)
    ensures var ((d, a), c, k) := (H.Withdraw(db, actor, pair, role), db.catalog, InterestKey(pair, role));
      && (a == H.WithdrawnOk <==>
            SideThere(c, pair, role) && OwnsSide(c, actor, pair, role) && !HasMatch(db.ledger, pair))
      && d == db.(ledger := db.ledger.(interests := d.ledger.interests))
      && d.ledger.interests.Keys == db.ledger.interests.Keys
      && (forall j <- db.ledger.interests :: j != k ==> d.ledger.interests[j] == db.ledger.interests[j])
      && (if a == H.WithdrawnOk then k in d.ledger.interests ==> d.ledger.interests[k] == Withdrawn else d == db)
      && (!SideThere(c, pair, role) ==> a == H.NotFound)
      && (SideThere(c, pair, role) && !OwnsSide(c, actor, pair, role) ==> a == H.Forbidden)
      && (SideThere(c, pair, role) && OwnsSide(c, actor, pair, role) && HasMatch(db.ledger, pair) ==>
            a == H.AlreadyMatched)
  {
  }

  // ---- viewings ----------------------------------------------------------------------------

  /** The viewings that take room in the slot. */
  ghost function InSlot(viewings: Viewings, l: ListingId, start: int): set<ViewingId> {
    set v <- viewings | !viewings[v].deleted && viewings[v].status !in {Cancelled, CancelledLandlord}
                        && viewings[v].pair.listing == l && viewings[v].start == start
  }

  /** The slot can be had: it is later than the clock, on the schedule stored now, and not full. */
  ghost predicate SlotOpen(db: Db, l: ListingId, start: int, now: int)
    requires l in db.catalog.listings
  {
    var av := db.catalog.listings[l].availability;
    start > now && Scheduled(av, now, start) && RoomIn(db.viewings, av, l, start)
  }

  /** Fewer groups than the slot takes, or none. */
  ghost predicate RoomIn(viewings: Viewings, av: Availability, l: ListingId, start: int) {
    |InSlot(viewings, l, start)| < av.slotCapacity || InSlot(viewings, l, start) == {}
  }

  lemma OccupiesIs(v: ViewingRow)
    ensures v.Occupies() <==> !v.deleted && v.status !in {Cancelled, CancelledLandlord}
  {
    match v.status
    case Confirmed =>
    case Completed =>
    case Cancelled =>
    case CancelledLandlord =>
  }

  lemma InSlotIs(viewings: Viewings, l: ListingId, start: int)
    ensures InSlot(viewings, l, start) == OccupiersAt(viewings, l, start)
  {
    forall v <- viewings { OccupiesIs(viewings[v]); }
  }

  lemma RoomIs(viewings: Viewings, av: Availability, l: ListingId, start: int)
    ensures HasRoom(av, BookedStarts(viewings, l), start) <==> RoomIn(viewings, av, l, start)
  {
    BookedStartsCounts(viewings, l, start);
    InSlotIs(viewings, l, start);
  }

  lemma ClaimMeans(db: Db, l: ListingId, start: int, now: int)
    ensures H.ClaimSlot(db.catalog, db.viewings, l, start, now)
         == if !ListingThere(db.catalog, l) then H.Refused(H.Internal)
            else if SlotOpen(db, l, start, now)
            then H.Claimed(start + 60 * db.catalog.listings[l].availability.slotMinutes)
            else H.Refused(H.SlotFull)
  {
    if ListingThere(db.catalog, l) {
      var av := db.catalog.listings[l].availability;
      OpenSlotEndMeans(av, now, BookedStarts(db.viewings, l), start);
      RoomIs(db.viewings, av, l, start);
    }
  }

  /** The match is there and undeleted. */
  ghost predicate MatchThere(g: Ledger, m: MatchId) { m in g.matches && !g.matches[m].deleted }

  ghost predicate MatchOn(g: Ledger, m: MatchId) { MatchThere(g, m) && g.matches[m].status == Active }

  ghost predicate MayBook(g: Ledger, actor: UserId, m: MatchId) { MatchOn(g, m) && g.matches[m].tenant == actor }

  ghost predicate MatchBooked(viewings: Viewings, m: MatchId) {
    exists v <- viewings ::
      viewings[v].matchId == m && !viewings[v].deleted && viewings[v].status !in {Cancelled, CancelledLandlord}
  }

  lemma MatchBookedIs(viewings: Viewings, m: MatchId)
    ensures MatchBooked(viewings, m) <==> MatchHasViewing(viewings, m)
  {
    forall v <- viewings { OccupiesIs(viewings[v]); }
  }

  /** Booked exactly by the tenant of an active match without a viewing, in an open slot of a listing that is there. */
  lemma BookMeans(db: Db, actor: UserId, m: MatchId, start: int, now: int, id: ViewingId)
    ensures var ((d, a), g) := (H.Book(db, actor, m, start, now, id), db.ledger);
      && (a.Booked? <==>
            && MayBook(g, actor, m) && ListingThere(db.catalog, g.matches[m].pair.listing)
            && SlotOpen(db, g.matches[m].pair.listing, start, now) && !MatchBooked(db.viewings, m))
      && (if !a.Booked? then d == db else
            var (pair, end) := (g.matches[m].pair,
                start + 60 * db.catalog.listings[g.matches[m].pair.listing].availability.slotMinutes);
            && a == H.Booked(id, start, end)
            && d == db.(viewings := db.viewings[id :=
                 ViewingRow(m, pair, actor, g.matches[m].landlord, start, end, Confirmed, false)]))
  {
    if MatchThere(db.ledger, m) { ClaimMeans(db, db.ledger.matches[m].pair.listing, start, now); }
    MatchBookedIs(db.viewings, m);
  }

  /** Which check failed: the match, its tenant, its status, the listing, the slot, the match's other viewing. */
  lemma BookRefusals(db: Db, actor: UserId, m: MatchId, start: int, now: int, id: ViewingId)
    ensures var (a, g) := (H.Book(db, actor, m, start, now, id).1, db.ledger);
      && (!MatchThere(g, m) ==> a == H.NotFound)
      && (MatchThere(g, m) && g.matches[m].tenant != actor ==> a == H.Forbidden)
      && (MatchThere(g, m) && g.matches[m].tenant == actor && g.matches[m].status != Active ==> a == H.MatchNotActive)
      && (MayBook(g, actor, m) ==>
            var l := g.matches[m].pair.listing;
            && (!ListingThere(db.catalog, l) ==> a == H.Internal)
            && (ListingThere(db.catalog, l) && !SlotOpen(db, l, start, now) ==> a == H.SlotFull)
            && (ListingThere(db.catalog, l) && SlotOpen(db, l, start, now) && MatchBooked(db.viewings, m) ==>
                  a == H.AlreadyBooked))
  {
    if MatchThere(db.ledger, m) { ClaimMeans(db, db.ledger.matches[m].pair.listing, start, now); }
    MatchBookedIs(db.viewings, m);
  }

  ghost predicate ViewingThere(viewings: Viewings, v: ViewingId) { v in viewings && !viewings[v].deleted }

  ghost predicate PartyTo(viewings: Viewings, v: ViewingId, actor: UserId)
    requires v in viewings
  {
    actor in {viewings[v].tenant, viewings[v].landlord}
  }

  ghost predicate ViewingOn(viewings: Viewings, v: ViewingId) {
    ViewingThere(viewings, v) && viewings[v].status == Confirmed
  }

  ghost predicate MayMove(viewings: Viewings, v: ViewingId, actor: UserId) {
    ViewingOn(viewings, v) && PartyTo(viewings, v, actor)
  }

  /** Moved exactly by a party of a confirmed viewing to an open slot; only its times change. */
  lemma RescheduleMeans(db: Db, actor: UserId, v: ViewingId, start: int, now: int)
    ensures var ((d, a), vs) := (H.Reschedule(db, actor, v, start, now), db.viewings);
      && (a.Moved? <==>
            && MayMove(vs, v, actor) && ListingThere(db.catalog, vs[v].pair.listing)
            && SlotOpen(db, vs[v].pair.listing, start, now))
      && (if !a.Moved? then d == db else
            var end := start + 60 * db.catalog.listings[vs[v].pair.listing].availability.slotMinutes;
            && a == H.Moved(start, end) && d == db.(viewings := vs[v := vs[v].(start := start, end := end)]))
      && (MayMove(vs, v, actor) ==>
            var l := vs[v].pair.listing;
            && (!ListingThere(db.catalog, l) ==> a == H.Internal)
            && (ListingThere(db.catalog, l) && !SlotOpen(db, l, start, now) ==> a == H.SlotFull))
  {
    if v in db.viewings { ClaimMeans(db, db.viewings[v].pair.listing, start, now); }
  }

  /** Rescheduling and cancelling refuse alike: the viewing, its parties, its status. */
  lemma ViewingRefusals(db: Db, actor: UserId, v: ViewingId, start: int, now: int)
    ensures var (a, b, vs) := (H.Reschedule(db, actor, v, start, now).1, H.Cancel(db, actor, v).1, db.viewings);
      && (!ViewingThere(vs, v) ==> a == b == H.NotFound)
      && (ViewingThere(vs, v) && !PartyTo(vs, v, actor) ==> a == b == H.Forbidden)
      && (ViewingThere(vs, v) && PartyTo(vs, v, actor) && vs[v].status != Confirmed ==> a == b == H.NotConfirmed)
  {
  }

  // ---- the status of a listing -----------------------------------------------------------------

  /** The rows of matches and viewings of the listing that a renting out ends, and no others. */
  ghost predicate EndedFor(db: Db, d: Db, l: ListingId) {
    && d.ledger.interests == db.ledger.interests
    && d.ledger.matches.Keys == db.ledger.matches.Keys && d.viewings.Keys == db.viewings.Keys
    && (forall m <- db.ledger.matches ::
          if db.ledger.matches[m].pair.listing == l && MatchOn(db.ledger, m)
          then d.ledger.matches[m] == db.ledger.matches[m].(status := ListingRented)
          else d.ledger.matches[m] == db.ledger.matches[m])
    && (forall v <- db.viewings ::
          if db.viewings[v].pair.listing == l && ViewingOn(db.viewings, v)
          then d.viewings[v] == db.viewings[v].(status := CancelledLandlord)
          else d.viewings[v] == db.viewings[v])
  }

  /** The listing's status is the new one; all else in the catalog stands. */
  ghost predicate OnlyStatus(c: Catalog, d: Catalog, l: ListingId, status: ListingStatus)
    requires l in c.listings
  {
    && d == c.(listings := d.listings) && d.listings.Keys == c.listings.Keys
    && (forall k <- c.listings :: k != l ==> d.listings[k] == c.listings[k])
    && d.listings[l].status == status && d.listings[l] == c.listings[l].(status := status)
  }

  /**
   Only the owner changes a listing's status, not to a draft, and to open only with a photo and the compliance
   confirmed; renting out alone touches matches and viewings.
   */
  lemma StatusMeans(db: Db, actor: UserId, l: ListingId, status: ListingStatus, publishable: bool)
    ensures var ((d, a), c) := (H.SetListingStatus(db, actor, l, status, publishable), db.catalog);
      && (a == H.Ok <==>
            && ListingThere(c, l) && c.listings[l].owner == actor
            && status != Draft && (status == Open ==> publishable))
      && (if a != H.Ok then d == db else
            && OnlyStatus(c, d.catalog, l, status)
            && (if status == Rented then EndedFor(db, d, l) else d.ledger == db.ledger && d.viewings == db.viewings))
      && (!ListingThere(c, l) ==> a == H.NotFound)
      && (ListingThere(c, l) && c.listings[l].owner != actor ==> a == H.Forbidden)
      && (ListingThere(c, l) && c.listings[l].owner == actor && a != H.Ok ==> a == H.BadRequest)
  {
  }
}
