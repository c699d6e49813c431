/** Renting out under interleaving: exactly which steps break what holds for requests one at a time. */
module Renting {
  import opened Base
  import opened Slots
  import opened Schema
  import H = Handlers
  import L = Lifecycle
  import opened Protocol
  import opened ProtocolInvariant
  import opened ProtocolSafety
  import opened Runs
  import Scheduling

  /** What becomes of the match rows: none comes to be on, and none changes its pair. */
  ghost predicate NoneStarts(g: Ledger, g': Ledger) {
    forall m <- g'.matches :: L.LiveActive(g', m) ==> L.LiveActive(g, m) && g'.matches[m].pair == g.matches[m].pair
  }

  ghost predicate NoneEnds(g: Ledger, g': Ledger) {
    forall m <- g.matches :: L.LiveActive(g, m) ==> L.LiveActive(g', m)
  }

  lemma CancelKeepsMatches(s: State, t: TxId)
    requires t in s.txs && s.txs[t].req.Cancel?
    ensures StepCancel(s, t).db.catalog == s.db.catalog && StepCancel(s, t).db.ledger == s.db.ledger
  {
    if !s.txs[t].pc.CUpdate? { assert StepCancel(s, t).db == s.db; }
  }

  /** A statement leaves the catalog, and the match rows unless it commits a match. */
  lemma RunKeepsMatches(cfg: Config, s: State, t: TxId, now: int)
    requires cfg.serialize && Inv(cfg, s) && t in s.txs
    ensures var s' := StepTx(cfg, s, t, now);
      && s'.db.catalog == s.db.catalog
      && (!CommitsMatch(s, Run(t, now)) ==> s'.db.ledger.matches == s.db.ledger.matches)
  {
    assert TxOk(cfg, s, t, s.txs[t]);
    if s.txs[t].pc.Rollback? {
    } else if s.txs[t].pc.Commit? {
      CommitTables(cfg, s, t);
    } else if s.txs[t].req.Cancel? {
      CancelKeepsMatches(s, t);
    } else {
      StatementQuiet(cfg, s, t, now);
    }
  }

  // ---- a confirmed viewing whose match is over ---------------------------------------------

  /** The commit of a booking whose match has ended since it was read. */
  predicate LateBooking(s: State, e: Event) {
    && e.Run? && e.t in s.txs && s.txs[e.t].req.Book? && s.txs[e.t].pc.Commit?
    && !L.LiveActive(s.db.ledger, s.txs[e.t].req.matchId)
  }

  predicate HasConfirmed(viewings: Viewings, m: MatchId) {
    exists v <- viewings :: viewings[v].matchId == m && !viewings[v].deleted && viewings[v].status == Confirmed
  }

  /** A cascade ends or deletes a match and has yet to come to its viewing. */
  predicate EndsMatchFirst(s: State, e: Event) {
    TakesOff(s, e) && HasConfirmed(s.db.viewings, e.m)
  }

  lemma EndsKeepConfirmed(s: State, s': State, v: ViewingId)
    requires L.ConfirmedHaveMatch(s.db) && Scheduling.OnlyEnds(s, s', v) && NoneEnds(s.db.ledger, s'.db.ledger)
    ensures L.ConfirmedHaveMatch(s'.db)
  {
    forall w <- s'.db.viewings | !s'.db.viewings[w].deleted && s'.db.viewings[w].status == Confirmed
      ensures L.LiveActive(s'.db.ledger, s'.db.viewings[w].matchId)
    {
      assert w in s.db.viewings && !s.db.viewings[w].deleted && s.db.viewings[w].status == Confirmed;
      assert L.LiveActive(s.db.ledger, s.db.viewings[w].matchId);
    }
  }

  lemma BookingConfirmedIff(cfg: Config, s: State, t: TxId)
    requires Inv(cfg, s) && L.ConfirmedHaveMatch(s.db)
    requires t in s.txs && s.txs[t].req.Book? && s.txs[t].pc.Commit?
    ensures L.ConfirmedHaveMatch(StepEnd(s, t).db) <==> L.LiveActive(s.db.ledger, s.txs[t].req.matchId)
  {
    assert TxOk(cfg, s, t, s.txs[t]);
    BookCommits(cfg, s, t);
    CommitFrame(cfg, s, t);
    var d, row := StepEnd(s, t).db, s.txs[t].writes[0].viewing;
    assert d == s.db.(viewings := s.db.viewings[t := row]) && row.matchId == s.txs[t].req.matchId;
    assert d.viewings[t] == row && row.status == Confirmed && !row.deleted;
    if L.LiveActive(s.db.ledger, row.matchId) {
      forall w <- d.viewings | !d.viewings[w].deleted && d.viewings[w].status == Confirmed
        ensures L.LiveActive(d.ledger, d.viewings[w].matchId)
      {
        if w != t { assert L.LiveActive(s.db.ledger, s.db.viewings[w].matchId); }
      }
    }
  }

  lemma RescheduleKeepsConfirmed(cfg: Config, s: State, t: TxId)
    requires Inv(cfg, s) && L.ConfirmedHaveMatch(s.db)
    requires t in s.txs && s.txs[t].req.Reschedule? && s.txs[t].pc.Commit?
    ensures L.ConfirmedHaveMatch(StepEnd(s, t).db)
  {
    assert TxOk(cfg, s, t, s.txs[t]);
    RescheduleCommits(cfg, s, t);
    CommitFrame(cfg, s, t);
    var d, v := StepEnd(s, t).db, s.txs[t].req.viewing;
    MovedKeepsConfirmed(s.db, d, v);
  }

  lemma MovedKeepsConfirmed(db: Db, d: Db, v: ViewingId)
    requires L.ConfirmedHaveMatch(db) && v in db.viewings && v in d.viewings
    requires d == db.(viewings := db.viewings[v := db.viewings[v].(start := d.viewings[v].start,
          end := d.viewings[v].end)])
    ensures L.ConfirmedHaveMatch(d)
  {
    forall w <- d.viewings | !d.viewings[w].deleted && d.viewings[w].status == Confirmed
      ensures L.LiveActive(d.ledger, d.viewings[w].matchId)
    {
      assert L.LiveActive(db.ledger, db.viewings[w].matchId);
    }
  }

  lemma RunConfirmedIff(cfg: Config, s: State, t: TxId, now: int)
    requires cfg.serialize && Inv(cfg, s) && L.ConfirmedHaveMatch(s.db) && t in s.txs
    ensures L.ConfirmedHaveMatch(StepTx(cfg, s, t, now).db) <==> !LateBooking(s, Run(t, now))
  {
    if s.txs[t].req.Book? && s.txs[t].pc.Commit? {
      BookingConfirmedIff(cfg, s, t);
    } else if s.txs[t].req.Reschedule? && s.txs[t].pc.Commit? {
      RescheduleKeepsConfirmed(cfg, s, t);
    } else if Scheduling.OnViewings(s.txs[t].req) {
      if !s.txs[t].pc.Rollback? { StatementQuiet(cfg, s, t, now); }
    } else {
      Scheduling.RunOnlyEnds(cfg, s, t, now);
      RunKeepsActive(cfg, s, t, now);
      EndsKeepConfirmed(s, StepTx(cfg, s, t, now), Scheduling.Touched(s, Run(t, now)));
    }
  }

  lemma RunKeepsActive(cfg: Config, s: State, t: TxId, now: int)
    requires cfg.serialize && Inv(cfg, s) && t in s.txs
    ensures NoneEnds(s.db.ledger, StepTx(cfg, s, t, now).db.ledger)
  {
    RunKeepsMatches(cfg, s, t, now);
    if CommitsMatch(s, Run(t, now)) {
      assert TxOk(cfg, s, t, s.txs[t]);
      ExpressEnds(cfg, s, t);
    }
  }

  /** The step takes this match off. */
  predicate TakesOff(s: State, e: Event) {
    && (e.RentMatch? || (e.PurgeMatch? && e.m in s.db.ledger.matches && s.db.ledger.matches[e.m].Names(e.u)))
    && L.LiveActive(s.db.ledger, e.m)
  }

  /** All rows but `m` stand, and `m` keeps its pair. */
  ghost predicate OnlyRow(g: Ledger, g': Ledger, m: MatchId) {
    && g'.matches.Keys == g.matches.Keys
    && forall k <- g.matches :: g'.matches[k].pair == g.matches[k].pair && (k != m ==> g'.matches[k] == g.matches[k])
  }

  lemma MatchEventSteps(cfg: Config, s: State, e: Event)
    requires e.OnMatch()
    ensures var d := Step(cfg, s, e).db;
      && d.viewings == s.db.viewings && d.catalog.listings == s.db.catalog.listings
      && (d.ledger == s.db.ledger
          || (e.m in s.db.ledger.matches && d.ledger.matches == s.db.ledger.matches[e.m := EndedRow(s, e)]))
      && (TakesOff(s, e) ==> d.ledger.matches == s.db.ledger.matches[e.m := EndedRow(s, e)])
      && (L.LiveActive(s.db.ledger, e.m) && !TakesOff(s, e) ==> d.ledger == s.db.ledger)
  {
    if e.RentMatch? { RentMatchSteps(cfg, s, e); } else { PurgeMatchSteps(cfg, s, e); }
  }

  lemma MatchEventIs(cfg: Config, s: State, e: Event)
    requires e.OnMatch()
    ensures var d := Step(cfg, s, e).db;
      && d.viewings == s.db.viewings && d.catalog.listings == s.db.catalog.listings
          && OnlyRow(s.db.ledger, d.ledger, e.m)
      && (L.LiveActive(d.ledger, e.m) <==> L.LiveActive(s.db.ledger, e.m) && !TakesOff(s, e))
  {
    MatchEventSteps(cfg, s, e);
  }

  lemma MatchEventConfirmedIff(cfg: Config, s: State, e: Event)
    requires L.ConfirmedHaveMatch(s.db) && (e.OnMatch())
    ensures L.ConfirmedHaveMatch(Step(cfg, s, e).db) <==> !EndsMatchFirst(s, e)
  {
    MatchEventIs(cfg, s, e);
    RowConfirmedIff(s.db, Step(cfg, s, e).db, e.m);
  }

  lemma RowConfirmedIff(db: Db, d: Db, m: MatchId)
    requires L.ConfirmedHaveMatch(db) && d.viewings == db.viewings && OnlyRow(db.ledger, d.ledger, m)
    requires L.LiveActive(d.ledger, m) ==> L.LiveActive(db.ledger, m)
    ensures L.ConfirmedHaveMatch(d)
       <==> (L.LiveActive(db.ledger, m) && HasConfirmed(db.viewings, m) ==> L.LiveActive(d.ledger, m))
  {
    if HasConfirmed(db.viewings, m) && !L.LiveActive(d.ledger, m) {
      var v :| v in db.viewings && db.viewings[v].matchId == m && !db.viewings[v].deleted
          && db.viewings[v].status == Confirmed;
      assert v in d.viewings;
    } else {
      forall w <- d.viewings | !d.viewings[w].deleted && d.viewings[w].status == Confirmed
        ensures L.LiveActive(d.ledger, d.viewings[w].matchId)
      {
        assert L.LiveActive(db.ledger, db.viewings[w].matchId);
      }
    }
  }

  /**
   A confirmed viewing loses its match by exactly two kinds of step: a cascade that comes to the match before
   the viewing, and the commit of a booking that had read the match while it was on.
   */
  lemma ConfirmedBrokenIff(cfg: Config, s: State, e: Event)
    requires cfg.serialize && Inv(cfg, s) && L.ConfirmedHaveMatch(s.db)
    ensures L.ConfirmedHaveMatch(Step(cfg, s, e).db) <==> !LateBooking(s, e) && !EndsMatchFirst(s, e)
  {
    if e.Run? {
      if e.t in s.txs { RunConfirmedIff(cfg, s, e.t, e.now); }
    } else if e.OnMatch() {
      MatchEventConfirmedIff(cfg, s, e);
    } else {
      Scheduling.OtherOnlyEnds(cfg, s, e);
      OthersKeepLedger(cfg, s, e);
      EndsKeepConfirmed(s, Step(cfg, s, e), Scheduling.Touched(s, e));
    }
  }

  // ---- a match that is on, of a rented listing -----------------------------------------------

  /** The commit of a match on a listing that has been rented out since it was read. */
  predicate LateMatch(s: State, e: Event) {
    CommitsMatch(s, e) && Rents(s.db.catalog, s.txs[e.t].req.pair.listing)
  }

  predicate Rents(c: Catalog, l: ListingId) { l in c.listings && c.listings[l].status == Rented }

  predicate HasActive(g: Ledger, l: ListingId) {
    exists m <- g.matches :: L.LiveActive(g, m) && g.matches[m].pair.listing == l
  }

  /** A listing is stored as rented while a match of it is still on. */
  predicate RentsMatched(s: State, e: Event) {
    && e.PutListing? && e.l in s.db.catalog.listings && s.db.catalog.listings[e.l].owner == e.listing.owner
    && e.listing.status == Rented && HasActive(s.db.ledger, e.l)
  }

  ghost predicate StatusesKept(c: Catalog, c': Catalog) {
    forall l <- c.listings :: l in c'.listings && c'.listings[l].status == c.listings[l].status
  }

  lemma NoneStartsKeeps(db: Db, db': Db)
    requires L.RentedHaveNone(db) && NoneStarts(db.ledger, db'.ledger) && StatusesKept(db.catalog, db'.catalog)
    ensures L.RentedHaveNone(db')
  {
  }

  lemma CommitMatchIff(cfg: Config, s: State, e: Event)
    requires Inv(cfg, s) && L.RentedHaveNone(s.db) && CommitsMatch(s, e)
    ensures L.RentedHaveNone(StepEnd(s, e.t).db) <==> !Rents(s.db.catalog, s.txs[e.t].req.pair.listing)
  {
    var t, pair := e.t, s.txs[e.t].req.pair;
    assert TxOk(cfg, s, t, s.txs[t]);
    ExpressEnds(cfg, s, t);
    var d := StepEnd(s, t).db;
    assert L.LiveActive(d.ledger, t) && d.ledger.matches[t].pair == pair && pair.listing in s.db.catalog.listings;
    if !Rents(s.db.catalog, pair.listing) {
      forall m <- d.ledger.matches | L.LiveActive(d.ledger, m)
        ensures !Rents(d.catalog, d.ledger.matches[m].pair.listing)
              && d.ledger.matches[m].pair.listing in d.catalog.listings
      {
        if m != t { assert L.LiveActive(s.db.ledger, m); }
      }
    }
  }

  lemma RunRentedIff(cfg: Config, s: State, t: TxId, now: int)
    requires cfg.serialize && Inv(cfg, s) && L.RentedHaveNone(s.db) && t in s.txs
    ensures L.RentedHaveNone(StepTx(cfg, s, t, now).db) <==> !LateMatch(s, Run(t, now))
  {
    RunKeepsMatches(cfg, s, t, now);
    if CommitsMatch(s, Run(t, now)) {
      CommitMatchIff(cfg, s, Run(t, now));
    } else {
      NoneStartsKeeps(s.db, StepTx(cfg, s, t, now).db);
    }
  }

  lemma PutListingIs(cfg: Config, s: State, e: Event)
    requires e.PutListing?
    ensures var c, d := s.db.catalog, Step(cfg, s, e).db;
      && d.ledger == s.db.ledger
      && (forall l <- c.listings :: l in d.catalog.listings && (l != e.l ==> d.catalog.listings[l] == c.listings[l]))
      && (e.l in c.listings ==>
            var was := c.listings[e.l];
            d.catalog.listings[e.l].status == if was.owner == e.listing.owner then e.listing.status else was.status)
  {
  }

  lemma PutListingRentedIff(cfg: Config, s: State, e: Event)
    requires Inv(cfg, s) && L.RentedHaveNone(s.db) && e.PutListing?
    ensures L.RentedHaveNone(Step(cfg, s, e).db) <==> !RentsMatched(s, e)
  {
    var d := Step(cfg, s, e).db;
    PutListingIs(cfg, s, e);
    if RentsMatched(s, e) {
      var m :| m in s.db.ledger.matches && L.LiveActive(s.db.ledger, m) && s.db.ledger.matches[m].pair.listing == e.l;
      assert L.LiveActive(d.ledger, m) && Rents(d.catalog, e.l);
    } else {
      forall m <- d.ledger.matches | L.LiveActive(d.ledger, m)
        ensures var l := d.ledger.matches[m].pair.listing; l in d.catalog.listings && !Rents(d.catalog, l)
      {
        assert L.LiveActive(s.db.ledger, m);
      }
    }
  }

  lemma OtherEventKeepsStatuses(cfg: Config, s: State, e: Event)
    requires !e.Run? && !e.PutListing?
    ensures StatusesKept(s.db.catalog, Step(cfg, s, e).db.catalog)
  {
  }

  lemma OtherEventStartsNone(cfg: Config, s: State, e: Event)
    requires !e.Run? && !e.PutListing?
    ensures NoneStarts(s.db.ledger, Step(cfg, s, e).db.ledger)
  {
    if e.OnMatch() { MatchEventIs(cfg, s, e); } else { OthersKeepLedger(cfg, s, e); }
  }

  /**
   A rented listing comes to have a match on by exactly two kinds of step: storing it as rented before its
   matches end, and the commit of a match whose express had read the listing before.
   */
  lemma RentedBrokenIff(cfg: Config, s: State, e: Event)
    requires cfg.serialize && Inv(cfg, s) && L.RentedHaveNone(s.db)
    ensures L.RentedHaveNone(Step(cfg, s, e).db) <==> !LateMatch(s, e) && !RentsMatched(s, e)
  {
    if e.Run? {
      if e.t in s.txs { RunRentedIff(cfg, s, e.t, e.now); }
    } else if e.PutListing? {
      PutListingRentedIff(cfg, s, e);
    } else {
      OtherEventKeepsStatuses(cfg, s, e);
      OtherEventStartsNone(cfg, s, e);
      NoneStartsKeeps(s.db, Step(cfg, s, e).db);
    }
  }

  // ---- a whole renting out, event by event ---------------------------------------------------

  ghost predicate OnlyTables(s: State, m: State) { m == s.(db := m.db, log := m.log) }

  function EndAll(matches: map<MatchId, MatchRow>, ids: set<MatchId>): map<MatchId, MatchRow> {
    map k | k in matches :: if k in ids then matches[k].(status := ListingRented) else matches[k]
  }

  lemma {:induction false} EndsMatches(cfg: Config, s: State, ids: set<MatchId>) returns (m: State)
    requires forall k <- ids :: L.LiveActive(s.db.ledger, k)
    ensures Leads(cfg, s, m) && OnlyTables(s, m) && m.db.catalog == s.db.catalog && m.db.viewings == s.db.viewings
    ensures m.db.ledger == s.db.ledger.(matches := EndAll(s.db.ledger.matches, ids))
    decreases |ids|
  {
    if ids == {} {
      m := s;
      assert Execute(cfg, s, []) == s;
      assert EndAll(s.db.ledger.matches, ids) == s.db.ledger.matches;
    } else {
      var k :| k in ids;
      var most := EndsMatches(cfg, s, ids - {k});
      LeadsOn(cfg, s, most, RentMatch(k));
      m := Step(cfg, most, RentMatch(k));
      RentMatchSteps(cfg, most, RentMatch(k));
      assert EndAll(s.db.ledger.matches, ids - {k})[k := s.db.ledger.matches[k].(status := ListingRented)]
          == EndAll(s.db.ledger.matches, ids);
    }
  }

  predicate IsConfirmed(v: ViewingRow) { v.status == Confirmed && !v.deleted }

  function CancelAll(viewings: Viewings, ids: set<ViewingId>): Viewings {
    map v | v in viewings :: if v in ids then viewings[v].(status := CancelledLandlord) else viewings[v]
  }

  lemma RentViewingSteps(cfg: Config, s: State, v: ViewingId)
    requires v in s.db.viewings && IsConfirmed(s.db.viewings[v]) && v !in s.rows
    ensures Step(cfg, s, RentViewing(v)) == SetViewing(s, v, s.db.viewings[v].(status := CancelledLandlord))
  {
  }

  lemma {:induction false} CancelsViewings(cfg: Config, s: State, ids: set<ViewingId>) returns (m: State)
    requires forall v <- ids :: v in s.db.viewings && IsConfirmed(s.db.viewings[v]) && v !in s.rows
    ensures Leads(cfg, s, m) && OnlyTables(s, m)
    ensures m.db == s.db.(viewings := CancelAll(s.db.viewings, ids))
    decreases |ids|
  {
    if ids == {} {
      m := s;
      assert Execute(cfg, s, []) == s;
      assert CancelAll(s.db.viewings, ids) == s.db.viewings;
    } else {
      var v :| v in ids;
      var most := CancelsViewings(cfg, s, ids - {v});
      LeadsOn(cfg, s, most, RentViewing(v));
      m := Step(cfg, most, RentViewing(v));
      RentViewingSteps(cfg, most, v);
      assert CancelAll(s.db.viewings, ids - {v})[v := s.db.viewings[v].(status := CancelledLandlord)]
          == CancelAll(s.db.viewings, ids);
    }
  }

  lemma StoresListing(cfg: Config, s: State, l: ListingId, status: ListingStatus)
    requires l in s.db.catalog.listings
    ensures Step(cfg, s, PutListing(l, s.db.catalog.listings[l].(status := status)))
         == SetCatalog(s, H.WithStatus(s.db.catalog, l, status))
  {
  }

  /** No confirmed viewing of the listing is locked. */
  predicate NoneLocked(s: State, l: ListingId) {
    forall v <- s.db.viewings :: IsConfirmed(s.db.viewings[v]) && s.db.viewings[v].pair.listing == l ==> v !in s.rows
  }

  function OnMatches(g: Ledger, l: ListingId): set<MatchId> {
    set k <- g.matches | L.LiveActive(g, k) && g.matches[k].pair.listing == l
  }

  function ConfirmedAt(viewings: Viewings, l: ListingId): set<ViewingId> {
    set v <- viewings | IsConfirmed(viewings[v]) && viewings[v].pair.listing == l
  }

  lemma TogetherRentOut(db: Db, l: ListingId)
    ensures EndAll(db.ledger.matches, OnMatches(db.ledger, l)) == H.RentMatches(db.ledger.matches, l)
    ensures CancelAll(db.viewings, ConfirmedAt(db.viewings, l)) == H.CancelForListing(db.viewings, l)
  {
  }

  /** The listing's row, its matches and its viewings: together the handler's whole renting out. */
  lemma RentsOut(cfg: Config, s: State, l: ListingId) returns (m: State)
    requires l in s.db.catalog.listings && NoneLocked(s, l)
    ensures Leads(cfg, s, m) && OnlyTables(s, m) && m.db == H.RentOut(s.db, l)
  {
    var s1 := StoresRented(cfg, s, l);
    var s2 := EndsMatches(cfg, s1, OnMatches(s.db.ledger, l));
    m := CancelsViewings(cfg, s2, ConfirmedAt(s.db.viewings, l));
    TogetherRentOut(s.db, l);
    LeadsFar(cfg, s, s1, s2);
    LeadsFar(cfg, s, s2, m);
  }

  lemma StoresRented(cfg: Config, s: State, l: ListingId) returns (m: State)
    requires l in s.db.catalog.listings
    ensures Leads(cfg, s, m) && m == SetCatalog(s, H.WithStatus(s.db.catalog, l, Rented))
  {
    var e := PutListing(l, s.db.catalog.listings[l].(status := Rented));
    assert Execute(cfg, s, []) == s;
    StoresListing(cfg, s, l, Rented);
    LeadsOn(cfg, s, s, e);
    m := Step(cfg, s, e);
  }

  // ---- what others commit after it -----------------------------------------------------------

  lemma RentKeepsGround(s: State, m: State, t: TxId, req: Request, seen: H.Seen, l: ListingId)
    requires req.Express? && Stands(s, m, t, req, XBlocks, seen, []) && l in s.db.catalog.listings
    requires m.db.catalog == s.db.catalog && !s.db.ledger.HasMatch(req.pair)
    ensures m.db == s.db && !H.RentOut(s.db, l).ledger.HasMatch(req.pair)
    ensures Stands(s.(db := H.RentOut(s.db, l)), m.(db := H.RentOut(s.db, l)), t, req, XBlocks, seen, [])
  {
  }

  /**
   From every state in which an express would match, a run rents the listing out and then makes the match: all the
   tables are as the renting out leaves them, but for the interest and the match, which is on.
   */
  lemma MatchedAfterRent(cfg: Config, s: State, t: TxId, req: Request) returns (m: State)
    requires Unused(s, t) && MayMatch(cfg, s, req) && NoneLocked(s, req.pair.listing)
    ensures Leads(cfg, s, m) && L.LiveActive(m.db.ledger, t) && m.db.ledger.matches[t].pair == req.pair
    ensures Rents(m.db.catalog, req.pair.listing)
    ensures var d := H.RentOut(s.db, req.pair.listing);
      var row := H.NewMatch(H.SeeForExpress(s.db.catalog, req.pair), req.pair);
      && m.db.catalog == d.catalog && m.db.viewings == d.viewings && m.db.ledger.matches == d.ledger.matches[t := row]
    ensures (forall k <- m.locks :: k in s.locks) && (forall k <- m.entries :: k in s.entries)
    ensures forall u <- m.txs :: u == t || u in s.txs
  {
    var l, seen := req.pair.listing, H.SeeForExpress(s.db.catalog, req.pair);
    var before := ReadsBefore(cfg, s, t, req);
    var rented := RentsOut(cfg, before, l);
    RentKeepsGround(s, before, t, req, seen, l);
    var s0 := s.(db := H.RentOut(s.db, l));
    assert Stands(s0, rented, t, req, XBlocks, seen, []);
    m := MatchesAfter(cfg, s0, rented, t, req, seen);
    LeadsFar(cfg, s, before, rented);
    LeadsFar(cfg, s, rented, m);
  }

  /**
   From every state in which the tenant of an active match may book, even counting the viewings that a renting out
   cancels as gone, a run rents the listing out and then books: a confirmed viewing of a match that has ended.
   */
  lemma BookedAfterRent(cfg: Config, s: State, t: TxId, actor: UserId, k: MatchId, start: int, now: int)
      returns (m: State)
    requires Unused(s, t) && k in s.db.ledger.matches
    requires var l := s.db.ledger.matches[k].pair.listing;
      NoneLocked(s, l) && MayBook(cfg, s, H.CancelForListing(s.db.viewings, l), actor, k, start, now)
    ensures Leads(cfg, s, m) && Rents(m.db.catalog, s.db.ledger.matches[k].pair.listing)
    ensures k in m.db.ledger.matches && m.db.ledger.matches[k].status == ListingRented
    ensures var d := H.RentOut(s.db, s.db.ledger.matches[k].pair.listing);
      && m.db.catalog == d.catalog && m.db.ledger == d.ledger && t in m.db.viewings
      && m.db.viewings == d.viewings[t := m.db.viewings[t]] && IsViewingOf(m.db.viewings[t], k, s.db.ledger.matches[k])
  {
    var req, row := Book(actor, k, start), s.db.ledger.matches[k];
    var l := row.pair.listing;
    var begun := BookingBegins(cfg, s, t, req, now);
    var rented := RentsOut(cfg, begun, l);
    m := BookingFinishes(cfg, rented, t, req, row, now);
    LeadsFar(cfg, s, begun, rented);
    LeadsFar(cfg, s, rented, m);
  }

  /** And the late match can be booked: a confirmed viewing of a match that is on, of a listing that is rented. */
  lemma BookedOnRented(cfg: Config, s: State, t: TxId, req: Request, u: TxId, start: int, now: int) returns (m: State)
    requires Unused(s, t) && Unused(s, u) && t != u && MayMatch(cfg, s, req) && NoneLocked(s, req.pair.listing)
    requires !MatchHasViewing(s.db.viewings, t) && t !in s.entries
    requires cfg.hash(OnSlot(req.pair.listing, start)) !in s.locks
    requires var l := req.pair.listing; var viewings := H.CancelForListing(s.db.viewings, l);
      OpenSlotEnd(s.db.catalog.listings[l].availability, now, BookedStarts(viewings, l), start).Some?
    ensures Leads(cfg, s, m) && Rents(m.db.catalog, req.pair.listing)
    ensures L.LiveActive(m.db.ledger, t) && m.db.ledger.matches[t].pair == req.pair
    ensures u in m.db.viewings && IsViewingOf(m.db.viewings[u], t, m.db.ledger.matches[t])
  {
    var matched := MatchedAfterRent(cfg, s, t, req);
    var slot, row := cfg.hash(OnSlot(req.pair.listing, start)), matched.db.ledger.matches[t];
    assert slot !in matched.locks && t !in matched.entries;
    assert !MatchHasViewing(matched.db.viewings, t);
    assert Unused(matched, u);
    var begun := BookingBegins(cfg, matched, u, Book(row.tenant, t, start), now);
    m := BookingFinishes(cfg, begun, u, Book(row.tenant, t, start), row, now);
    LeadsFar(cfg, s, matched, begun);
    LeadsFar(cfg, s, begun, m);
  }
}
