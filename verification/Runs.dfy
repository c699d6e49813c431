/** Runs put together event by event, and the statements of an express and a booking as parts of one. */
module Runs {
  import opened Base
  import opened Slots
  import opened Schema
  import H = Handlers
  import opened Protocol
  import opened ProtocolInvariant
  import opened ProtocolSafety

  lemma {:induction false} ExecuteConcat(cfg: Config, s: State, a: seq<Event>, b: seq<Event>)
    ensures Execute(cfg, s, a + b) == Execute(cfg, Execute(cfg, s, a), b)
  {
    if b == [] {
      assert a + b == a;
    } else {
      ExecuteConcat(cfg, s, a, b[..|b| - 1]);
      assert (a + b)[..|a + b| - 1] == a + b[..|b| - 1];
    }
  }

  lemma ExecuteLast(cfg: Config, s: State, es: seq<Event>, e: Event)
    ensures Execute(cfg, s, es + [e]) == Step(cfg, Execute(cfg, s, es), e)
  {
    assert (es + [e])[..|es|] == es;
  }

  /** Some run leads from one state to the other. */
  ghost predicate Leads(cfg: Config, s: State, m: State) { exists es :: Execute(cfg, s, es) == m }

  lemma LeadsOn(cfg: Config, s: State, m: State, e: Event)
    requires Leads(cfg, s, m)
    ensures Leads(cfg, s, Step(cfg, m, e))
  {
    var es :| Execute(cfg, s, es) == m;
    ExecuteLast(cfg, s, es, e);
    assert Execute(cfg, s, es + [e]) == Step(cfg, m, e);
  }

  lemma LeadsFar(cfg: Config, s: State, m: State, n: State)
    requires Leads(cfg, s, m) && Leads(cfg, m, n)
    ensures Leads(cfg, s, n)
  {
    var a :| Execute(cfg, s, a) == m;
    var b :| Execute(cfg, m, b) == n;
    ExecuteConcat(cfg, s, a, b);
    assert Execute(cfg, s, a + b) == n;
  }

  predicate Unused(s: State, t: TxId) { t !in s.txs && t !in s.db.ledger.matches && t !in s.db.viewings }

  function Fresh(req: Request): Tx { Tx(req, FirstPc(req), H.Seen(None, None, false), [], None, 0) }

  lemma Begins(cfg: Config, s: State, t: TxId, req: Request)
    requires Unused(s, t)
    ensures Step(cfg, s, Begin(t, req)) == Update(s, t, Fresh(req))
  {
  }

  // ---- an express that matches ---------------------------------------------------------------

  /** An express that passes every check and finds its lock free, if it takes one. */
  ghost predicate Passes(cfg: Config, s: State, req: Request) {
    && req.Express? && H.ExpressRefusal(H.SeeForExpress(s.db.catalog, req.pair), req.actor, req.role).None?
    && (cfg.serialize ==> cfg.hash(OnPair(req.pair)) !in s.locks)
  }

  /** And which meets its counterpart's interest. */
  ghost predicate MayMatch(cfg: Config, s: State, req: Request) {
    Passes(cfg, s, req) && s.db.ledger.Interested(req.pair, req.role.Other()) && !s.db.ledger.HasMatch(req.pair)
  }

  /** The transaction stands before `pc`; besides it only locks it holds differ from `s0`. */
  ghost predicate Stands(s0: State, s: State, t: TxId, req: Request, pc: Pc, seen: H.Seen, writes: seq<Write>) {
    && t in s.txs && s.txs[t] == Tx(req, pc, seen, writes, None, s.txs[t].ticket)
    && (forall k <- s.locks :: k in s0.locks || s.locks[k] == t)
    && s.entries == s0.entries && s.rows == s0.rows && s.db.viewings == s0.db.viewings && s.db.ledger == s0.db.ledger
    && s.txs == s0.txs[t := s.txs[t]]
  }

  function NoneSeen(): H.Seen { H.Seen(None, None, false) }

  lemma TakesPairLock(cfg: Config, s0: State, s: State, t: TxId, req: Request)
    requires req.Express? && Stands(s0, s, t, req, XLock, NoneSeen(), [])
    requires cfg.serialize ==> cfg.hash(OnPair(req.pair)) !in s.locks
    ensures var s' := Step(cfg, s, Run(t, 0));
      Stands(s0, s', t, req, XProfile, NoneSeen(), []) && s'.db.catalog == s.db.catalog
  {
  }

  lemma ReadsProfile(cfg: Config, s0: State, s: State, t: TxId, req: Request)
    requires req.Express? && Stands(s0, s, t, req, XProfile, NoneSeen(), [])
    requires H.CheckProfile(s.db.catalog.VisibleProfile(req.pair.profile), req.actor, req.role).None?
    ensures var s' := Step(cfg, s, Run(t, 0));
      && Stands(s0, s', t, req, XListing, H.Seen(s.db.catalog.VisibleProfile(req.pair.profile), None, false), [])
      && s'.db.catalog == s.db.catalog
  {
  }

  lemma ReadsListing(cfg: Config, s0: State, s: State, t: TxId, req: Request, p: Option<ProfileRow>)
    requires req.Express? && Stands(s0, s, t, req, XListing, H.Seen(p, None, false), [])
    requires H.CheckListing(s.db.catalog.PublicListing(req.pair.listing), req.actor, req.role).None?
    ensures var s' := Step(cfg, s, Run(t, 0));
      && Stands(s0, s', t, req, XBlocks, H.Seen(p, s.db.catalog.PublicListing(req.pair.listing), false), [])
      && s'.db.catalog == s.db.catalog
  {
  }

  lemma ReadsBlocks(cfg: Config, s0: State, s: State, t: TxId, req: Request, seen: H.Seen)
    requires req.Express? && Stands(s0, s, t, req, XBlocks, seen, [])
    requires seen.profile.Some? && seen.listing.Some? && !seen.blocked
    requires !s.db.catalog.Blocked(seen.profile.value.owner, seen.listing.value.owner)
    ensures var s' := Step(cfg, s, Run(t, 0));
      Stands(s0, s', t, req, XUpsert, seen, []) && s'.db.catalog == s.db.catalog
  {
  }

  lemma WritesInterest(cfg: Config, s0: State, s: State, t: TxId, req: Request, seen: H.Seen)
    requires req.Express? && Stands(s0, s, t, req, XUpsert, seen, [])
    ensures var s' := Step(cfg, s, Run(t, 0));
      Stands(s0, s', t, req, XCounter, seen, [Want(req.pair, req.role)]) && s'.db.catalog == s.db.catalog
  {
    assert [] + [Want(req.pair, req.role)] == [Want(req.pair, req.role)];
  }

  lemma FindsCounterpart(cfg: Config, s0: State, s: State, t: TxId, req: Request, seen: H.Seen)
    requires req.Express? && Stands(s0, s, t, req, XCounter, seen, [Want(req.pair, req.role)])
    requires s.db.ledger.Interested(req.pair, req.role.Other())
    ensures var s' := Step(cfg, s, Run(t, 0));
      Stands(s0, s', t, req, XInsert, seen, [Want(req.pair, req.role)]) && s'.db.catalog == s.db.catalog
  {
    ApplyOne(s.db, Want(req.pair, req.role));
    PutInterestKeeps(s.db.ledger, InterestKey(req.pair, req.role), Wanted, req.pair);
  }

  lemma WritesMatch(cfg: Config, s0: State, s: State, t: TxId, req: Request, seen: H.Seen)
    requires req.Express? && Stands(s0, s, t, req, XInsert, seen, [Want(req.pair, req.role)])
    requires seen.profile.Some? && seen.listing.Some? && !s.db.ledger.HasMatch(req.pair)
    ensures var s' := Step(cfg, s, Run(t, 0));
      && Stands(s0, s', t, req, XContact, seen, [Want(req.pair, req.role), InsertMatch(t, H.NewMatch(seen, req.pair))])
      && s'.db.catalog == s.db.catalog
  {
    ApplyOne(s.db, Want(req.pair, req.role));
    PutInterestKeeps(s.db.ledger, InterestKey(req.pair, req.role), Wanted, req.pair);
  }

  lemma ReadsContact(cfg: Config, s0: State, s: State, t: TxId, req: Request, seen: H.Seen, ws: seq<Write>)
    requires req.Express? && Stands(s0, s, t, req, XContact, seen, ws) && seen.profile.Some? && seen.listing.Some?
    ensures var s' := Step(cfg, s, Run(t, 0));
      && Stands(s0, s', t, req, Commit(H.Matched(H.ContactShown(seen, req.role))), seen, ws)
      && s'.db.catalog == s.db.catalog
  {
  }

  /** The match is in, everything is released, and only it and its interest are new. */
  ghost predicate Done(s0: State, s: State, t: TxId, row: MatchRow) {
    && s.db.ledger.matches == s0.db.ledger.matches[t := row] && s.db.viewings == s0.db.viewings
    && (forall k <- s.locks :: k in s0.locks) && (forall m <- s.entries :: m in s0.entries)
    && (forall u <- s.txs :: u == t || u in s0.txs)
  }

  lemma CommitsMatchRow(cfg: Config, s0: State, s: State, t: TxId, req: Request, seen: H.Seen, a: H.Answer,
      row: MatchRow)
    requires req.Express? && Stands(s0, s, t, req, Commit(a), seen, [Want(req.pair, req.role), InsertMatch(t, row)])
    ensures var s' := Step(cfg, s, Run(t, 0)); Done(s0, s', t, row) && s'.db.catalog == s.db.catalog
  {
    ApplyTwo(s.db, Want(req.pair, req.role), InsertMatch(t, row));
    assert Step(cfg, s, Run(t, 0)) == StepEnd(s, t);
  }

  /** The request begins, takes its lock and reads profile and listing. */
  lemma ReadsBefore(cfg: Config, s: State, t: TxId, req: Request) returns (m: State)
    requires Unused(s, t) && Passes(cfg, s, req)
    ensures Leads(cfg, s, m) && m.db.catalog == s.db.catalog
    ensures Stands(s, m, t, req, XBlocks, H.SeeForExpress(s.db.catalog, req.pair), [])
  {
    var p := s.db.catalog.VisibleProfile(req.pair.profile);
    assert Execute(cfg, s, []) == s;
    Begins(cfg, s, t, req);
    LeadsOn(cfg, s, s, Begin(t, req));
    var m1 := Update(s, t, Fresh(req));
    TakesPairLock(cfg, s, m1, t, req);
    LeadsOn(cfg, s, m1, Run(t, 0));
    var m2 := Step(cfg, m1, Run(t, 0));
    ReadsProfile(cfg, s, m2, t, req);
    LeadsOn(cfg, s, m2, Run(t, 0));
    var m3 := Step(cfg, m2, Run(t, 0));
    ReadsListing(cfg, s, m3, t, req, p);
    LeadsOn(cfg, s, m3, Run(t, 0));
    m := Step(cfg, m3, Run(t, 0));
  }

  /** From there to the commit it looks at the listing no more. */
  lemma MatchesAfter(cfg: Config, s0: State, s: State, t: TxId, req: Request, seen: H.Seen) returns (m: State)
    requires req.Express? && Stands(s0, s, t, req, XBlocks, seen, [])
    requires seen.profile.Some? && seen.listing.Some? && !seen.blocked
    requires !s.db.catalog.Blocked(seen.profile.value.owner, seen.listing.value.owner)
    requires s.db.ledger.Interested(req.pair, req.role.Other()) && !s.db.ledger.HasMatch(req.pair)
    ensures Leads(cfg, s, m) && Done(s0, m, t, H.NewMatch(seen, req.pair)) && m.db.catalog == s.db.catalog
  {
    var e, ws := Run(t, 0), [Want(req.pair, req.role), InsertMatch(t, H.NewMatch(seen, req.pair))];
    assert Execute(cfg, s, []) == s;
    ReadsBlocks(cfg, s0, s, t, req, seen);
    LeadsOn(cfg, s, s, e);
    var m1 := Step(cfg, s, e);
    WritesInterest(cfg, s0, m1, t, req, seen);
    LeadsOn(cfg, s, m1, e);
    var m2 := Step(cfg, m1, e);
    FindsCounterpart(cfg, s0, m2, t, req, seen);
    LeadsOn(cfg, s, m2, e);
    var m3 := Step(cfg, m2, e);
    WritesMatch(cfg, s0, m3, t, req, seen);
    LeadsOn(cfg, s, m3, e);
    var m4 := Step(cfg, m3, e);
    ReadsContact(cfg, s0, m4, t, req, seen, ws);
    LeadsOn(cfg, s, m4, e);
    var m5 := Step(cfg, m4, e);
    CommitsMatchRow(cfg, s0, m5, t, req, seen, H.Matched(H.ContactShown(seen, req.role)), H.NewMatch(seen, req.pair));
    LeadsOn(cfg, s, m5, e);
    m := Step(cfg, m5, e);
  }

  // ---- a booking ---------------------------------------------------------------------------------

  /** The tenant of an active match books a slot that is open among these viewings, its lock free. */
  ghost predicate MayBook(cfg: Config, s: State, viewings: Viewings, actor: UserId, m: MatchId, start: int, now: int) {
    && H.BookRefusal(H.LiveMatchRow(s.db.ledger, m), actor).None?
    && var l := s.db.ledger.matches[m].pair.listing;
    && s.db.catalog.VisibleListing(l).Some?
    && OpenSlotEnd(s.db.catalog.listings[l].availability, now, BookedStarts(viewings, l), start).Some?
    && !MatchHasViewing(viewings, m) && m !in s.entries
    && cfg.hash(OnSlot(l, start)) !in s.locks
  }

  /** The transaction stands before its next statement, with nothing written. */
  ghost predicate StandsAt(s: State, t: TxId, req: Request, pc: Pc) {
    t in s.txs && s.txs[t].req == req && s.txs[t].pc == pc && s.txs[t].writes == []
  }

  /** What the later statements of the booking need, and nothing else, is as it was. */
  ghost predicate SameGround(s: State, s': State) {
    && s'.db.viewings == s.db.viewings && s'.entries == s.entries
    && s'.db.ledger == s.db.ledger && s'.db.catalog == s.db.catalog
  }

  lemma ReadsMatch(cfg: Config, s: State, t: TxId, req: Request, now: int)
    requires req.Book? && StandsAt(s, t, req, BMatch)
    requires H.BookRefusal(H.LiveMatchRow(s.db.ledger, req.matchId), req.actor).None?
    ensures Step(cfg, s, Run(t, now)) == Goto(s, t, BLock(s.db.ledger.matches[req.matchId]))
  {
  }

  lemma TakesSlot(cfg: Config, s: State, t: TxId, req: Request, row: MatchRow, now: int)
    requires req.Book? && StandsAt(s, t, req, BLock(row)) && cfg.hash(OnSlot(row.pair.listing, req.start)) !in s.locks
    ensures var s' := Step(cfg, s, Run(t, now)); StandsAt(s', t, req, BAvail(row)) && SameGround(s, s')
  {
  }

  lemma ReadsSchedule(cfg: Config, s: State, t: TxId, req: Request, row: MatchRow, now: int)
    requires req.Book? && StandsAt(s, t, req, BAvail(row)) && s.db.catalog.VisibleListing(row.pair.listing).Some?
    ensures var s' := Step(cfg, s, Run(t, now));
      StandsAt(s', t, req, BBooked(row, s.db.catalog.listings[row.pair.listing].availability)) && SameGround(s, s')
  {
  }

  lemma FindsRoom(cfg: Config, s: State, t: TxId, req: Request, row: MatchRow, av: Availability, now: int)
    requires req.Book? && StandsAt(s, t, req, BBooked(row, av))
    requires OpenSlotEnd(av, now, BookedStarts(s.db.viewings, row.pair.listing), req.start).Some?
    ensures var s' := Step(cfg, s, Run(t, now));
      StandsAt(s', t, req, BInsert(row)) && SameGround(s, s') && s'.txs[t].claim.Some?
  {
  }

  lemma Inserts(cfg: Config, s: State, t: TxId, req: Request, row: MatchRow, now: int)
    requires req.Book? && StandsAt(s, t, req, BInsert(row)) && s.txs[t].claim.Some?
    requires !MatchHasViewing(s.db.viewings, req.matchId) && req.matchId !in s.entries
    ensures var s', w := Step(cfg, s, Run(t, now)), H.NewViewing(req.matchId, row, req.start, s.txs[t].claim.value.end);
      && s'.db == s.db && t in s'.txs && s'.txs[t].pc.Commit? && s'.txs[t].writes == [InsertViewing(t, w)]
  {
    assert s.txs[t].writes == [];
  }

  lemma CommitsViewing(cfg: Config, s: State, t: TxId, row: ViewingRow, now: int)
    requires t in s.txs && s.txs[t].pc.Commit? && s.txs[t].writes == [InsertViewing(t, row)]
    ensures Step(cfg, s, Run(t, now)).db == s.db.(viewings := s.db.viewings[t := row])
  {
    ApplyOne(s.db, InsertViewing(t, row));
  }

  /** From the lock on, five statements commit the viewing, whatever has become of the match. */
  lemma BookingFinishes(cfg: Config, s: State, t: TxId, req: Request, row: MatchRow, now: int) returns (m: State)
    requires req.Book? && StandsAt(s, t, req, BLock(row)) && cfg.hash(OnSlot(row.pair.listing, req.start)) !in s.locks
    requires s.db.catalog.VisibleListing(row.pair.listing).Some?
    requires var l := row.pair.listing;
      OpenSlotEnd(s.db.catalog.listings[l].availability, now, BookedStarts(s.db.viewings, l), req.start).Some?
    requires !MatchHasViewing(s.db.viewings, req.matchId) && req.matchId !in s.entries
    ensures Leads(cfg, s, m) && m.db.catalog == s.db.catalog && m.db.ledger == s.db.ledger && t in m.db.viewings
    ensures m.db.viewings == s.db.viewings[t := m.db.viewings[t]] && IsViewingOf(m.db.viewings[t], req.matchId, row)
  {
    var e, av := Run(t, now), s.db.catalog.listings[row.pair.listing].availability;
    assert Execute(cfg, s, []) == s;
    var s1 := Step(cfg, s, e);
    TakesSlot(cfg, s, t, req, row, now);
    LeadsOn(cfg, s, s, e);
    var s2 := Step(cfg, s1, e);
    ReadsSchedule(cfg, s1, t, req, row, now);
    LeadsOn(cfg, s, s1, e);
    var s3 := Step(cfg, s2, e);
    FindsRoom(cfg, s2, t, req, row, av, now);
    LeadsOn(cfg, s, s2, e);
    var s4 := Step(cfg, s3, e);
    Inserts(cfg, s3, t, req, row, now);
    LeadsOn(cfg, s, s3, e);
    CommitsViewing(cfg, s4, t, H.NewViewing(req.matchId, row, req.start, s3.txs[t].claim.value.end), now);
    LeadsOn(cfg, s, s4, e);
    m := Step(cfg, s4, e);
  }

  /** A confirmed viewing of the match, with its parties. */
  predicate IsViewingOf(v: ViewingRow, m: MatchId, row: MatchRow) {
    && v.matchId == m && v.pair == row.pair && v.tenant == row.tenant && v.landlord == row.landlord
    && v.status == Confirmed && !v.deleted
  }

  /** The booking has begun and read its match. */
  lemma BookingBegins(cfg: Config, s: State, t: TxId, req: Request, now: int) returns (m: State)
    requires Unused(s, t) && req.Book? && H.BookRefusal(H.LiveMatchRow(s.db.ledger, req.matchId), req.actor).None?
    ensures Leads(cfg, s, m) && m == Update(s, t, Fresh(req).(pc := BLock(s.db.ledger.matches[req.matchId])))
  {
    assert Execute(cfg, s, []) == s;
    Begins(cfg, s, t, req);
    LeadsOn(cfg, s, s, Begin(t, req));
    var s1 := Update(s, t, Fresh(req));
    ReadsMatch(cfg, s1, t, req, now);
    LeadsOn(cfg, s, s1, Run(t, now));
    m := Step(cfg, s1, Run(t, now));
  }
}
