/** What one request undoes, ends or hides, whatever requests follow. */
module Outcomes {
  import opened Base
  import opened Slots
  import opened Schema
  import opened Views
  import H = Handlers
  import B = Browse
  import L = Lifecycle
  import M = Meanings
  import P = ProtocolInvariant
  import U = Upkeep

  // ---- cancelled and attended viewings ----------------------------------------------

  /** The row stands, but for its deletion. */
  ghost predicate RowStands(db: Db, d: Db, v: ViewingId) {
    && v in db.viewings && v in d.viewings
    && d.viewings[v] == db.viewings[v].(deleted := d.viewings[v].deleted)
    && (db.viewings[v].deleted ==> d.viewings[v].deleted)
  }

  lemma RentKeepsSettled(db: Db, actor: UserId, l: ListingId, status: ListingStatus, publishable: bool, v: ViewingId)
    requires v in db.viewings && db.viewings[v].status != Confirmed
    ensures RowStands(db, H.SetListingStatus(db, actor, l, status, publishable).0, v)
  {
  }

  lemma ServeKeepsSettled(db: Db, actor: UserId, call: L.Call, v: ViewingId)
    requires v in db.viewings && db.viewings[v].status != Confirmed
    ensures RowStands(db, L.Serve(db, actor, call).0, v)
  {
    match call
    case DeleteAccount => H.DeleteAccountMeans(db, actor);
    case SetStatus(l, status, publishable) => RentKeepsSettled(db, actor, l, status, publishable, v);
    case Book(_, _, _, _) =>
    case Reschedule(_, _, _) =>
    case Cancel(_) =>
    case Attend(_) =>
    case _ => assert L.Serve(db, actor, call).0.viewings == db.viewings;
  }

  /** A viewing that has been cancelled or attended is never moved, attended or cancelled again. */
  lemma {:induction false} SettledStands(db: Db, calls: seq<(UserId, L.Call)>, v: ViewingId)
    requires v in db.viewings && db.viewings[v].status != Confirmed
    ensures RowStands(db, L.Run(db, calls), v)
  {
    if calls != [] {
      var mid, last := L.Run(db, calls[..|calls| - 1]), calls[|calls| - 1];
      SettledStands(db, calls[..|calls| - 1], v);
      ServeKeepsSettled(mid, last.0, last.1, v);
    }
  }

  /** Whatever follows a cancellation, the viewing stays as the cancellation left it, or is deleted. */
  lemma CancelIsFinal(db: Db, actor: UserId, v: ViewingId, calls: seq<(UserId, L.Call)>)
    requires H.Cancel(db, actor, v).1 == H.Ok
    ensures H.Cancel(db, actor, v).0.viewings[v].Ended()
    ensures RowStands(H.Cancel(db, actor, v).0, L.Run(H.Cancel(db, actor, v).0, calls), v)
  {
    H.CancelMeans(db, actor, v);
    SettledStands(H.Cancel(db, actor, v).0, calls, v);
  }

  /** The same for attendance, as long as requests are served one at a time. */
  lemma AttendIsFinal(db: Db, actor: UserId, v: ViewingId, calls: seq<(UserId, L.Call)>)
    requires H.Attend(db, actor, v).1 == H.Ok
    ensures H.Attend(db, actor, v).0.viewings[v].status == Completed
    ensures RowStands(H.Attend(db, actor, v).0, L.Run(H.Attend(db, actor, v).0, calls), v)
  {
    H.AttendMeans(db, actor, v);
    SettledStands(H.Attend(db, actor, v).0, calls, v);
  }

  /** An occupying viewing that ends leaves its place and nothing else. */
  lemma EndedFreesPlace(viewings: Viewings, v: ViewingId, row: ViewingRow, l: ListingId, t: int)
    requires v in viewings && viewings[v].Occupies() && !row.Occupies()
    ensures Occupancy(viewings[v := row], l, t)
         == Occupancy(viewings, l, t) - (if viewings[v].pair.listing == l && viewings[v].start == t then 1 else 0)
  {
    var a, b := OccupiersAt(viewings, l, t), OccupiersAt(viewings[v := row], l, t);
    if viewings[v].pair.listing == l && viewings[v].start == t {
      assert a == b + {v} && v !in b;
    } else {
      assert a == b;
    }
  }

  lemma EndedFreesMatch(viewings: Viewings, v: ViewingId, row: ViewingRow)
    requires P.OneViewingPerMatch(viewings) && v in viewings && viewings[v].Occupies() && !row.Occupies()
    ensures !MatchHasViewing(viewings[v := row], viewings[v].matchId)
  {
    var after := viewings[v := row];
    forall w <- after ensures !(after[w].matchId == viewings[v].matchId && after[w].Occupies()) {
      if w != v { assert after[w] == viewings[w]; }
    }
  }

  /** A cancellation frees one place in its slot, none elsewhere, and its match for another booking. */
  lemma CancelFrees(db: Db, actor: UserId, v: ViewingId, l: ListingId, t: int)
    requires H.Cancel(db, actor, v).1 == H.Ok && P.OneViewingPerMatch(db.viewings)
    ensures var d, row := H.Cancel(db, actor, v).0, db.viewings[v];
      && Occupancy(d.viewings, l, t)
         == Occupancy(db.viewings, l, t) - (if row.pair.listing == l && row.start == t then 1 else 0)
      && !MatchHasViewing(d.viewings, row.matchId)
  {
    var row := db.viewings[v].(status := H.CancelStatus(db.viewings[v], actor));
    EndedFreesPlace(db.viewings, v, row, l, t);
    EndedFreesMatch(db.viewings, v, row);
  }

  /** A schedule offers the instant, leaving the places taken aside. */
  ghost predicate OnOffer(av: Availability, now: int, t: int) { OpenSlotEnd(av, now, map[], t).Some? }

  lemma OfferedWithRoom(av: Availability, now: int, viewings: Viewings, l: ListingId, t: int)
    requires OnOffer(av, now, t) && Occupancy(viewings, l, t) < Capacity(av)
    ensures OpenSlotEnd(av, now, BookedStarts(viewings, l), t) == Some(t + Length(av))
  {
    OpenSlotEndExact(av, now, map[], t);
    OpenSlotEndExact(av, now, BookedStarts(viewings, l), t);
    BookedStartsCounts(viewings, l, t);
  }

  /** What was cancelled in time can be booked again, in the same slot, as long as the match is on. */
  lemma CancelThenRebook(db: Db, actor: UserId, v: ViewingId, now: int, id: ViewingId)
    requires H.Cancel(db, actor, v).1 == H.Ok && P.OneViewingPerMatch(db.viewings)
    requires P.SameParties(db.ledger, db.viewings[v])
    requires L.LiveActive(db.ledger, db.viewings[v].matchId)
    requires var row := db.viewings[v]; var av := H.ListingAvailability(db.catalog, row.pair.listing);
      av.Some? && OnOffer(av.value, now, row.start)
          && Occupancy(db.viewings, row.pair.listing, row.start) <= Capacity(av.value)
    ensures var d, row := H.Cancel(db, actor, v).0, db.viewings[v];
      var av := H.ListingAvailability(db.catalog, row.pair.listing).value;
      H.Book(d, row.tenant, row.matchId, row.start, now, id).1 == H.Booked(id, row.start, row.start + Length(av))
  {
    var d, row := H.Cancel(db, actor, v).0, db.viewings[v];
    CancelFrees(db, actor, v, row.pair.listing, row.start);
    OfferedWithRoom(H.ListingAvailability(db.catalog, row.pair.listing).value, now, d.viewings, row.pair.listing,
        row.start);
  }

  // ---- blocks --------------------------------------------------------------------------

  /** The pair belongs to the two users, one on each side. */
  ghost predicate Between(c: Catalog, pair: Pair, a: UserId, b: UserId) {
    && pair.profile in c.profiles && pair.listing in c.listings
    && {c.profiles[pair.profile].owner, c.listings[pair.listing].owner} == {a, b}
  }

  /** The pair is offered to nobody, and nobody can express interest in it. */
  ghost predicate Shut(db: Db, pair: Pair) {
    && (forall tz: int :: !B.Suits(db, tz, pair.profile, pair.listing))
    && (forall u: UserId, role: Role :: H.ExpressRefusal(H.SeeForExpress(db.catalog, pair), u, role).Some?)
  }

  /** No list of matches or viewings has a row that names both. */
  ghost predicate Apart(db: Db, a: UserId, b: UserId) {
    && (forall user: UserId :: forall m <- MutualMatches(db, user) ::
          !(db.ledger.matches[m].Names(a) && db.ledger.matches[m].Names(b)))
    && (forall user: UserId, side: Side :: forall v <- ListViewings(db, user, side) ::
          !(db.viewings[v].Names(a) && db.viewings[v].Names(b)))
  }

  /** The pair is in no list of unanswered interest. */
  ghost predicate Unheard(db: Db, pair: Pair) {
    forall user: UserId :: !InIncoming(db, user, pair) && !InOutgoing(db, user, pair)
  }

  lemma BlockedShuts(db: Db, a: UserId, b: UserId, pair: Pair)
    requires db.catalog.Blocked(a, b) && Between(db.catalog, pair, a, b)
    ensures Shut(db, pair) && Unheard(db, pair)
  {
    var t, o := db.catalog.profiles[pair.profile].owner, db.catalog.listings[pair.listing].owner;
    assert t in {a, b} && o in {a, b} && a in {t, o} && b in {t, o};
    assert db.catalog.Blocked(t, o);
  }

  lemma BlockedParts(db: Db, a: UserId, b: UserId)
    requires db.catalog.Blocked(a, b) && a != b
    ensures Apart(db, a, b)
  {
  }

  lemma GoneShuts(db: Db, a: UserId, b: UserId, pair: Pair)
    requires L.Ok(db) && (a in db.catalog.gone || b in db.catalog.gone) && Between(db.catalog, pair, a, b)
    ensures Shut(db, pair)
  {
    var t, o := db.catalog.profiles[pair.profile].owner, db.catalog.listings[pair.listing].owner;
    assert t in {a, b} && o in {a, b} && a in {t, o} && b in {t, o};
  }

  lemma GoneParts(db: Db, a: UserId, b: UserId)
    requires L.Ok(db) && (a in db.catalog.gone || b in db.catalog.gone)
    ensures Apart(db, a, b)
  {
  }

  /** The blocker has not gone back on it, and both accounts were there. */
  ghost predicate BlockKept(c: Catalog, a: UserId, b: UserId) {
    (a, b) in c.blocks <==> a !in c.gone && b !in c.gone
  }

  lemma ServeKeepsBlock(db: Db, actor: UserId, call: L.Call, a: UserId, b: UserId)
    requires BlockKept(db.catalog, a, b) && !(actor == a && call == L.Unblock(b))
    ensures BlockKept(L.Serve(db, actor, call).0.catalog, a, b)
  {
    if call.DeleteAccount? { H.DeleteAccountMeans(db, actor); }
  }

  lemma {:induction false} RunKeepsBlock(db: Db, calls: seq<(UserId, L.Call)>, a: UserId, b: UserId)
    requires BlockKept(db.catalog, a, b) && (a, L.Unblock(b)) !in calls
    ensures BlockKept(L.Run(db, calls).catalog, a, b)
  {
    if calls != [] {
      var before, last := calls[..|calls| - 1], calls[|calls| - 1];
      RunKeepsBlock(db, before, a, b);
      assert last in calls && last == (last.0, last.1);
      ServeKeepsBlock(L.Run(db, before), last.0, last.1, a, b);
    }
  }

  /**
   After a block, whatever requests follow but the blocker's unblocking: the two stay apart, and every pair
   between them is shut.  It is out of the lists of unanswered interest as long as both have their accounts.
   */
  lemma BlockHides(db: Db, actor: UserId, target: UserId, targetExists: bool, calls: seq<(UserId, L.Call)>, pair: Pair)
    requires L.Ok(db) && actor !in db.catalog.gone && H.Block(db, actor, target, targetExists).1 == H.Ok
    requires (actor, L.Unblock(target)) !in calls
    ensures var d := L.Run(H.Block(db, actor, target, targetExists).0, calls);
      && Apart(d, actor, target)
      && (Between(d.catalog, pair, actor, target) ==>
            Shut(d, pair) && (actor !in d.catalog.gone && target !in d.catalog.gone ==> Unheard(d, pair)))
  {
    var db1 := H.Block(db, actor, target, targetExists).0;
    L.BlocksGood(db, db1);
    L.RunGood(db1, calls);
    RunKeepsBlock(db1, calls, actor, target);
    var d := L.Run(db1, calls);
    if (actor, target) in d.catalog.blocks {
      BlockedParts(d, actor, target);
      if Between(d.catalog, pair, actor, target) { BlockedShuts(d, actor, target, pair); }
    } else {
      GoneParts(d, actor, target);
      if Between(d.catalog, pair, actor, target) { GoneShuts(d, actor, target, pair); }
    }
  }

  /** One side's interest that the other has not answered. */
  ghost predicate Unanswered(g: Ledger, pair: Pair, role: Role) {
    g.Interested(pair, role) && !g.Interested(pair, role.Other())
  }

  /** The role in which the user owns a side of the pair. */
  ghost predicate OwnsAs(c: Catalog, pair: Pair, user: UserId, role: Role)
    requires pair.profile in c.profiles && pair.listing in c.listings
  {
    user == if role == Tenant then c.profiles[pair.profile].owner else c.listings[pair.listing].owner
  }

  /**
   Deleting the blocked account takes the block with it: what its owner had asked for and the blocker had not
   answered is then back among the blocker's incoming interest.
   */
  lemma DeletionUnhidesIff(db: Db, actor: UserId, target: UserId, pair: Pair)
    requires actor != target && db.catalog.Blocked(actor, target) && Between(db.catalog, pair, actor, target)
    ensures !InIncoming(db, actor, pair)
    ensures InIncoming(H.DeleteAccount(db, target), actor, pair)
       <==> pair.profile != target
            && exists role :: OwnsAs(db.catalog, pair, target, role) && Unanswered(db.ledger, pair, role)
  {
    BlockedShuts(db, actor, target, pair);
    var d := H.DeleteAccount(db, target);
    H.DeleteAccountMeans(db, target);
    assert d.catalog.profiles[pair.profile].owner == db.catalog.profiles[pair.profile].owner;
    assert d.catalog.listings[pair.listing].owner == db.catalog.listings[pair.listing].owner;
    forall role: Role ensures d.ledger.Interested(pair, role)
        <==> pair.profile != target && db.ledger.Interested(pair, role) {}
    if InIncoming(d, actor, pair) {
      var k :| k in Incoming(d, actor) && k.pair == pair;
      assert OwnsAs(db.catalog, pair, target, k.role) && Unanswered(db.ledger, pair, k.role);
    }
    if role: Role :| OwnsAs(db.catalog, pair, target, role) && Unanswered(db.ledger, pair, role) {
      if pair.profile != target {
        assert InterestKey(pair, role) in Incoming(d, actor);
      }
    }
  }

  /** A match that an express makes is listed to both owners at once, each with the other's contact. */
  lemma MatchIsListed(db: Db, actor: UserId, pair: Pair, role: Role, id: MatchId)
    requires M.MayExpress(db.catalog, actor, pair, role) && M.OtherWaits(db.ledger, pair, role)
    requires forall m <- db.ledger.matches :: db.ledger.matches[m].pair != pair
    requires db.catalog.profiles[pair.profile].owner != db.catalog.listings[pair.listing].owner
    ensures var (d, c) := (H.Express(db, actor, pair, role, id).0, db.catalog);
      var (tenant, landlord) := (c.profiles[pair.profile].owner, c.listings[pair.listing].owner);
      && id in ProfileMatches(d, tenant, pair.profile)
      && id in MutualMatches(d, tenant) && MutualContact(d.ledger.matches[id], tenant) == landlord
      && id in MutualMatches(d, landlord) && MutualContact(d.ledger.matches[id], landlord) == tenant
  {
    var d, c := H.Express(db, actor, pair, role, id).0, db.catalog;
    var tenant, landlord := c.profiles[pair.profile].owner, c.listings[pair.listing].owner;
    M.ExpressMeans(db, actor, pair, role, id);
    assert d.ledger.matches[id] == MatchRow(pair, tenant, landlord, Active, false);
    assert OnTerms(d.catalog, tenant, landlord);
    MatchListsMean(d, tenant, pair.profile, id);
    MatchListsMean(d, landlord, pair.profile, id);
  }

  /** A viewing that is booked is listed to both parties, each with the other's contact, unless they are blocked. */
  lemma BookingIsListed(db: Db, actor: UserId, m: MatchId, start: int, now: int, id: ViewingId, side: Side)
    requires H.Book(db, actor, m, start, now, id).1.Booked?
    requires m in db.ledger.matches && db.ledger.matches[m].landlord != actor
    requires OnTerms(db.catalog, actor, db.ledger.matches[m].landlord)
    ensures var (d, landlord) := (H.Book(db, actor, m, start, now, id).0, db.ledger.matches[m].landlord);
      && id in d.viewings
      && (id in ListViewings(d, actor, side) <==> side != LandlordSide)
      && (id in ListViewings(d, landlord, side) <==> side != TenantSide)
      && ViewingContact(d, d.viewings[id], actor) == Some(landlord)
      && ViewingContact(d, d.viewings[id], landlord) == Some(actor)
  {
    var d := H.Book(db, actor, m, start, now, id).0;
    M.BookMeans(db, actor, m, start, now, id);
    ViewingListMeans(d, actor, side, id);
    ViewingListMeans(d, db.ledger.matches[m].landlord, side, id);
  }

  /** Unblocking takes back one's own block only, and restores the tables exactly if there was none before. */
  lemma UnblockUndoes(db: Db, actor: UserId, target: UserId, targetExists: bool)
    requires H.Block(db, actor, target, targetExists).1 == H.Ok
    ensures var d := H.Unblock(H.Block(db, actor, target, targetExists).0, actor, target).0;
      && (d.catalog.Blocked(actor, target) <==> (target, actor) in db.catalog.blocks)
      && (d == db <==> (actor, target) !in db.catalog.blocks)
  {
    var blocks := db.catalog.blocks;
    if (actor, target) !in blocks {
      assert blocks + {(actor, target)} - {(actor, target)} == blocks;
    } else {
      assert (actor, target) !in blocks + {(actor, target)} - {(actor, target)};
    }
  }

  // ---- an account deletion and its interests --------------------------------------------

  /** The start of a tenant and a landlord: a profile, a listing, published, and interest expressed. */
  function Starts(u: UserId, o: UserId, pair: Pair, wants: Wants, offer: Offer, id: MatchId): seq<(UserId, L.Call)> {
    [(u, L.NewProfile(pair.profile, true, wants)), (o, L.NewListing(pair.listing, offer)),
     (o, L.SetStatus(pair.listing, Open, true)), (u, L.Express(pair, Tenant, id))]
  }

  /** The tables after the first three of them. */
  function Published(u: UserId, o: UserId, pair: Pair, wants: Wants, offer: Offer): Db {
    NO_DATA.(catalog := NO_DATA.catalog.(
      profiles := map[pair.profile := ProfileRow(u, true, false, wants)],
      listings := map[pair.listing := ListingRow(o, Open, false, false, NO_SCHEDULE, offer)]))
  }

  lemma Publishes(u: UserId, o: UserId, pair: Pair, wants: Wants, offer: Offer)
    ensures var d1 := L.Serve(NO_DATA, u, L.NewProfile(pair.profile, true, wants)).0;
      var d2 := L.Serve(d1, o, L.NewListing(pair.listing, offer)).0;
      L.Serve(d2, o, L.SetStatus(pair.listing, Open, true)).0 == Published(u, o, pair, wants, offer)
  {
  }

  /** And after all four. */
  function Asked(u: UserId, o: UserId, pair: Pair, wants: Wants, offer: Offer): Db {
    Published(u, o, pair, wants, offer).(ledger := Ledger(map[InterestKey(pair, Tenant) := Wanted], map[]))
  }

  lemma Asks(u: UserId, o: UserId, pair: Pair, wants: Wants, offer: Offer, id: MatchId)
    ensures L.Serve(Published(u, o, pair, wants, offer), u, L.Express(pair, Tenant, id)).0
          == Asked(u, o, pair, wants, offer)
  {
  }

  lemma StartsRun(u: UserId, o: UserId, pair: Pair, wants: Wants, offer: Offer, id: MatchId)
    ensures L.Run(NO_DATA, Starts(u, o, pair, wants, offer, id)) == Asked(u, o, pair, wants, offer)
  {
    var calls := Starts(u, o, pair, wants, offer, id);
    var d1 := L.Serve(NO_DATA, u, calls[0].1).0;
    var d2 := L.Serve(d1, o, calls[1].1).0;
    Publishes(u, o, pair, wants, offer);
    Asks(u, o, pair, wants, offer, id);
    B.RunFour(NO_DATA, calls, d1, d2, Published(u, o, pair, wants, offer), Asked(u, o, pair, wants, offer));
  }

  lemma StartsHealthy(u: UserId, o: UserId, pair: Pair, wants: Wants, offer: Offer, id: MatchId)
    requires pair.profile != u && pair.profile != o
    ensures U.Healthy(L.Run(NO_DATA, Starts(u, o, pair, wants, offer, id)))
    ensures U.Healthy(L.Run(NO_DATA, Starts(u, o, pair, wants, offer, id) + [(u, L.DeleteAccount)]))
  {
    U.NoDataIsHealthy();
    U.RunHealthy(NO_DATA, Starts(u, o, pair, wants, offer, id));
    U.RunHealthy(NO_DATA, Starts(u, o, pair, wants, offer, id) + [(u, L.DeleteAccount)]);
  }

  /**
   From a service with no data, five requests after which a deleted account's interest is still there and
   wanted, its profile deleted; the tables are in order before and after.
   */
  lemma InterestOutlivesAccount(u: UserId, o: UserId, pair: Pair, wants: Wants, offer: Offer, id: MatchId)
    requires u != o && pair.profile != u && pair.profile != o
    ensures var calls := Starts(u, o, pair, wants, offer, id);
      var db, d := L.Run(NO_DATA, calls), L.Run(NO_DATA, calls + [(u, L.DeleteAccount)]);
      && U.Healthy(db) && U.KeysKnown(db) && U.Healthy(d)
      && H.InterestOf(db, u, InterestKey(pair, Tenant)) && H.InterestOf(d, u, InterestKey(pair, Tenant))
      && d.ledger.Interested(pair, Tenant) && d.catalog.profiles[pair.profile].deleted
  {
    var calls := Starts(u, o, pair, wants, offer, id);
    StartsHealthy(u, o, pair, wants, offer, id);
    StartsRun(u, o, pair, wants, offer, id);
    var more := calls + [(u, L.DeleteAccount)];
    assert more[..4] == calls;
    assert L.Run(NO_DATA, more) == H.DeleteAccount(Asked(u, o, pair, wants, offer), u);
    AskedOutlives(u, o, pair, wants, offer);
  }

  lemma AskedOutlives(u: UserId, o: UserId, pair: Pair, wants: Wants, offer: Offer)
    requires pair.profile != u
    ensures var db := Asked(u, o, pair, wants, offer); var d := H.DeleteAccount(db, u);
      && U.KeysKnown(db) && H.InterestOf(db, u, InterestKey(pair, Tenant))
          && H.InterestOf(d, u, InterestKey(pair, Tenant))
      && d.ledger.Interested(pair, Tenant) && d.catalog.profiles[pair.profile].deleted
  {
    H.DeleteAccountMeans(Asked(u, o, pair, wants, offer), u);
    H.InterestsStandIff(Asked(u, o, pair, wants, offer), u);
  }
}
