/**
 While a listing keeps one schedule with disjoint windows, at no instant do more groups
 view it than its capacity: all bookings lie on one grid, and grid slots do not overlap.
 */
module Overlap {
  import opened Base
  import opened Slots
  import opened Schema
  import H = Handlers
  import opened Protocol
  import opened ProtocolInvariant
  import opened ProtocolSafety

  ghost predicate OnSchedule(av: Availability, start: int, end: int) {
    OnGrid(av, DayOf(start), start) && end == start + Length(av)
  }

  ghost predicate Known(av: Availability, a: Availability) { a == av || a == NO_SCHEDULE }

  ghost predicate RowsOnGrid(viewings: Viewings, l: ListingId, av: Availability) {
    forall v <- viewings :: viewings[v].Occupies() && viewings[v].pair.listing == l ==>
          OnSchedule(av, viewings[v].start, viewings[v].end)
  }

  /** What a transaction has read or claimed for the listing belongs to the schedule. */
  ghost predicate TxOnGrid(tx: Tx, l: ListingId, av: Availability) {
    tx.req.Book? || tx.req.Reschedule? ==>
      && (tx.claim.Some? && tx.claim.value.listing == l ==> OnSchedule(av, tx.claim.value.start, tx.claim.value.end))
      && (tx.pc.BBooked? && tx.pc.row.pair.listing == l ==> Known(av, tx.pc.av))
      && (tx.pc.RBooked? && tx.pc.was.pair.listing == l ==> Known(av, tx.pc.av))
  }

  ghost predicate GridOk(s: State, l: ListingId, av: Availability) {
    && (l in s.db.catalog.listings ==> Known(av, s.db.catalog.listings[l].availability))
    && RowsOnGrid(s.db.viewings, l, av)
    && (forall t <- s.txs :: TxOnGrid(s.txs[t], l, av))
    && PeakOf(s, l) <= Capacity(av)
  }

  /** The schedule of `l`, once set, is `av`. */
  predicate KeepsSchedule(e: Event, l: ListingId, av: Availability) { e.SetAvailability? && e.l == l ==> e.av == av }

  lemma FoundOnGrid(av: Availability, a: Availability, now: int, booked: map<int, nat>, t: int)
    requires Known(av, a) && OpenSlotEnd(a, now, booked, t).Some?
    ensures a == av && OnSchedule(av, t, OpenSlotEnd(a, now, booked, t).value)
  {
    OpenSlotEndExact(a, now, booked, t);
  }

  lemma BookGrid(cfg: Config, s: State, t: TxId, now: int, l: ListingId, av: Availability)
    requires t in s.txs && s.txs[t].req.Book? && GridOk(s, l, av) && BookOk(cfg, s, t, s.txs[t])
    ensures t in StepBook(cfg, s, t, now).txs && TxOnGrid(StepBook(cfg, s, t, now).txs[t], l, av)
  {
    assert TxOnGrid(s.txs[t], l, av);
    if s.txs[t].pc.BAvail? { BookGridRead(cfg, s, t, now, l, av); }
    else if s.txs[t].pc.BBooked? { BookGridClaim(cfg, s, t, now, l, av); }
    else { BookGridKeeps(cfg, s, t, now, l, av); }
  }

  /** The transaction moves on without reading a schedule or claiming a slot. */
  ghost predicate ClaimStays(tx: Tx, tx': Tx) {
    tx'.req == tx.req && tx'.claim == tx.claim && (tx'.pc == tx.pc || (!tx'.pc.BBooked? && !tx'.pc.RBooked?))
  }

  lemma ClaimStaysGrid(tx: Tx, tx': Tx, l: ListingId, av: Availability)
    requires TxOnGrid(tx, l, av) && ClaimStays(tx, tx')
    ensures TxOnGrid(tx', l, av)
  {
  }

  lemma RefuseStays(s: State, t: TxId, a: H.Answer)
    requires t in s.txs
    ensures t in Refuse(s, t, a).txs && ClaimStays(s.txs[t], Refuse(s, t, a).txs[t])
  {
  }

  lemma BookMatchStays(cfg: Config, s: State, t: TxId, now: int)
    requires t in s.txs && s.txs[t].req.Book? && s.txs[t].pc.BMatch?
    ensures t in StepBook(cfg, s, t, now).txs && ClaimStays(s.txs[t], StepBook(cfg, s, t, now).txs[t])
  {
    var row := H.LiveMatchRow(Apply(s.db, s.txs[t].writes).ledger, s.txs[t].req.matchId);
    var no := H.BookRefusal(row, s.txs[t].req.actor);
    if no.Some? {
      RefuseStays(s, t, no.value);
    } else {
      assert StepBook(cfg, s, t, now) == Goto(s, t, BLock(row.value));
    }
  }

  lemma BookLockStays(cfg: Config, s: State, t: TxId, now: int)
    requires t in s.txs && s.txs[t].req.Book? && s.txs[t].pc.BLock?
    ensures t in StepBook(cfg, s, t, now).txs && ClaimStays(s.txs[t], StepBook(cfg, s, t, now).txs[t])
  {
  }

  lemma BookInsertStays(cfg: Config, s: State, t: TxId, now: int)
    requires t in s.txs && s.txs[t].req.Book? && s.txs[t].pc.BInsert?
    ensures t in StepBook(cfg, s, t, now).txs && ClaimStays(s.txs[t], StepBook(cfg, s, t, now).txs[t])
  {
    if MatchHasViewing(Apply(s.db, s.txs[t].writes).viewings, s.txs[t].req.matchId) {
      RefuseStays(s, t, H.AlreadyBooked);
    }
  }

  lemma BookRests(cfg: Config, s: State, t: TxId, now: int)
    requires t in s.txs && s.txs[t].req.Book? && !s.txs[t].pc.BMatch? && !s.txs[t].pc.BLock?
    requires !s.txs[t].pc.BAvail? && !s.txs[t].pc.BBooked? && !s.txs[t].pc.BInsert?
    ensures t in StepBook(cfg, s, t, now).txs && ClaimStays(s.txs[t], StepBook(cfg, s, t, now).txs[t])
  {
  }

  lemma BookGridKeeps(cfg: Config, s: State, t: TxId, now: int, l: ListingId, av: Availability)
    requires t in s.txs && s.txs[t].req.Book? && TxOnGrid(s.txs[t], l, av) && !s.txs[t].pc.BAvail?
    requires !s.txs[t].pc.BBooked?
    ensures t in StepBook(cfg, s, t, now).txs && TxOnGrid(StepBook(cfg, s, t, now).txs[t], l, av)
  {
    if s.txs[t].pc.BMatch? { BookMatchStays(cfg, s, t, now); }
    else if s.txs[t].pc.BLock? { BookLockStays(cfg, s, t, now); }
    else if s.txs[t].pc.BInsert? { BookInsertStays(cfg, s, t, now); }
    else { BookRests(cfg, s, t, now); }
    ClaimStaysGrid(s.txs[t], StepBook(cfg, s, t, now).txs[t], l, av);
  }

  lemma BookGridReads(cfg: Config, s: State, t: TxId, now: int)
    requires t in s.txs && s.txs[t].req.Book? && s.txs[t].pc.BAvail? && s.txs[t].writes == []
    ensures t in StepBook(cfg, s, t, now).txs
    ensures var tx, tx', l := s.txs[t], StepBook(cfg, s, t, now).txs[t], s.txs[t].pc.row.pair.listing;
      && tx'.req == tx.req && tx'.claim == tx.claim
      && (tx'.pc.Rollback?
           || (l in s.db.catalog.listings && tx'.pc == BBooked(tx.pc.row, s.db.catalog.listings[l].availability)))
  {
    ApplyNone(s.db);
    var row := s.txs[t].pc.row;
    var av := H.ListingAvailability(s.db.catalog, row.pair.listing);
    if av.None? {
      RefuseStays(s, t, H.Internal);
    } else {
      assert StepBook(cfg, s, t, now) == Goto(s, t, BBooked(row, av.value));
    }
  }

  lemma BookGridRead(cfg: Config, s: State, t: TxId, now: int, l: ListingId, av: Availability)
    requires t in s.txs && s.txs[t].req.Book? && s.txs[t].pc.BAvail? && GridOk(s, l, av) && s.txs[t].writes == []
    ensures t in StepBook(cfg, s, t, now).txs && TxOnGrid(StepBook(cfg, s, t, now).txs[t], l, av)
  {
    assert TxOnGrid(s.txs[t], l, av);
    BookGridReads(cfg, s, t, now);
  }

  lemma BookGridClaim(cfg: Config, s: State, t: TxId, now: int, l: ListingId, av: Availability)
    requires t in s.txs && s.txs[t].req.Book? && s.txs[t].pc.BBooked? && GridOk(s, l, av) && BookOk(cfg, s, t, s.txs[t])
    ensures t in StepBook(cfg, s, t, now).txs && TxOnGrid(StepBook(cfg, s, t, now).txs[t], l, av)
  {
    ApplyNone(s.db);
    var row, a := s.txs[t].pc.row, s.txs[t].pc.av;
    assert TxOnGrid(s.txs[t], l, av);
    var booked := BookedStarts(s.db.viewings, row.pair.listing);
    if row.pair.listing == l && OpenSlotEnd(a, now, booked, s.txs[t].req.start).Some? {
      FoundOnGrid(av, a, now, booked, s.txs[t].req.start);
    }
  }

  lemma RescheduleGrid(cfg: Config, s: State, t: TxId, now: int, l: ListingId, av: Availability)
    requires t in s.txs && s.txs[t].req.Reschedule? && GridOk(s, l, av) && RescheduleOk(cfg, s, t, s.txs[t])
    ensures t in StepReschedule(cfg, s, t, now).txs && TxOnGrid(StepReschedule(cfg, s, t, now).txs[t], l, av)
  {
    assert TxOnGrid(s.txs[t], l, av);
    if s.txs[t].pc.RAvail? { RescheduleGridRead(cfg, s, t, now, l, av); }
    else if s.txs[t].pc.RBooked? { RescheduleGridClaim(cfg, s, t, now, l, av); }
    else { RescheduleGridKeeps(cfg, s, t, now, l, av); }
  }

  lemma RescheduleRowStays(cfg: Config, s: State, t: TxId, now: int)
    requires t in s.txs && s.txs[t].req.Reschedule? && s.txs[t].pc.RRow?
    ensures t in StepReschedule(cfg, s, t, now).txs && ClaimStays(s.txs[t], StepReschedule(cfg, s, t, now).txs[t])
  {
    var v := s.txs[t].req.viewing;
    var row := H.LiveViewing(Apply(s.db, s.txs[t].writes).viewings, v);
    var no := H.ViewingRefusal(row, s.txs[t].req.actor);
    var s1 := s.(rows := s.rows[v := t]);
    if row.None? {
      RefuseStays(s, t, H.NotFound);
    } else if !FreeFor(s.rows, v, t) {
      assert StepReschedule(cfg, s, t, now) == s;
    } else if no.Some? {
      RefuseStays(s1, t, no.value);
    } else {
      assert StepReschedule(cfg, s, t, now) == Goto(s1, t, RLock(row.value));
    }
  }

  lemma RescheduleLockStays(cfg: Config, s: State, t: TxId, now: int)
    requires t in s.txs && s.txs[t].req.Reschedule? && s.txs[t].pc.RLock?
    ensures t in StepReschedule(cfg, s, t, now).txs && ClaimStays(s.txs[t], StepReschedule(cfg, s, t, now).txs[t])
  {
  }

  lemma RescheduleUpdateStays(cfg: Config, s: State, t: TxId, now: int)
    requires t in s.txs && s.txs[t].req.Reschedule? && s.txs[t].pc.RUpdate?
    ensures t in StepReschedule(cfg, s, t, now).txs && ClaimStays(s.txs[t], StepReschedule(cfg, s, t, now).txs[t])
  {
  }

  lemma RescheduleRests(cfg: Config, s: State, t: TxId, now: int)
    requires t in s.txs && s.txs[t].req.Reschedule? && !s.txs[t].pc.RRow? && !s.txs[t].pc.RLock?
    requires !s.txs[t].pc.RAvail? && !s.txs[t].pc.RBooked? && !s.txs[t].pc.RUpdate?
    ensures t in StepReschedule(cfg, s, t, now).txs && ClaimStays(s.txs[t], StepReschedule(cfg, s, t, now).txs[t])
  {
  }

  lemma RescheduleGridKeeps(cfg: Config, s: State, t: TxId, now: int, l: ListingId, av: Availability)
    requires t in s.txs && s.txs[t].req.Reschedule? && TxOnGrid(s.txs[t], l, av)
    requires !s.txs[t].pc.RAvail? && !s.txs[t].pc.RBooked?
    ensures t in StepReschedule(cfg, s, t, now).txs && TxOnGrid(StepReschedule(cfg, s, t, now).txs[t], l, av)
  {
    if s.txs[t].pc.RRow? { RescheduleRowStays(cfg, s, t, now); }
    else if s.txs[t].pc.RLock? { RescheduleLockStays(cfg, s, t, now); }
    else if s.txs[t].pc.RUpdate? { RescheduleUpdateStays(cfg, s, t, now); }
    else { RescheduleRests(cfg, s, t, now); }
    ClaimStaysGrid(s.txs[t], StepReschedule(cfg, s, t, now).txs[t], l, av);
  }

  lemma RescheduleGridReads(cfg: Config, s: State, t: TxId, now: int)
    requires t in s.txs && s.txs[t].req.Reschedule? && s.txs[t].pc.RAvail? && s.txs[t].writes == []
    ensures t in StepReschedule(cfg, s, t, now).txs
    ensures var tx, tx', l := s.txs[t], StepReschedule(cfg, s, t, now).txs[t], s.txs[t].pc.was.pair.listing;
      && tx'.req == tx.req && tx'.claim == tx.claim
      && (tx'.pc.Rollback?
           || (l in s.db.catalog.listings && tx'.pc == RBooked(tx.pc.was, s.db.catalog.listings[l].availability)))
  {
    ApplyNone(s.db);
    var was := s.txs[t].pc.was;
    var av := H.ListingAvailability(s.db.catalog, was.pair.listing);
    if av.None? {
      RefuseStays(s, t, H.Internal);
    } else {
      assert StepReschedule(cfg, s, t, now) == Goto(s, t, RBooked(was, av.value));
    }
  }

  lemma RescheduleGridRead(cfg: Config, s: State, t: TxId, now: int, l: ListingId, av: Availability)
    requires t in s.txs && s.txs[t].req.Reschedule? && s.txs[t].pc.RAvail? && GridOk(s, l, av) && s.txs[t].writes == []
    ensures t in StepReschedule(cfg, s, t, now).txs && TxOnGrid(StepReschedule(cfg, s, t, now).txs[t], l, av)
  {
    assert TxOnGrid(s.txs[t], l, av);
    RescheduleGridReads(cfg, s, t, now);
  }

  lemma RescheduleGridClaim(cfg: Config, s: State, t: TxId, now: int, l: ListingId, av: Availability)
    requires t in s.txs && s.txs[t].req.Reschedule? && s.txs[t].pc.RBooked? && GridOk(s, l, av)
    requires RescheduleOk(cfg, s, t, s.txs[t])
    ensures t in StepReschedule(cfg, s, t, now).txs && TxOnGrid(StepReschedule(cfg, s, t, now).txs[t], l, av)
  {
    ApplyNone(s.db);
    var was, a := s.txs[t].pc.was, s.txs[t].pc.av;
    assert TxOnGrid(s.txs[t], l, av);
    var booked := BookedStarts(s.db.viewings, was.pair.listing);
    if was.pair.listing == l && OpenSlotEnd(a, now, booked, s.txs[t].req.start).Some? {
      FoundOnGrid(av, a, now, booked, s.txs[t].req.start);
    }
  }

  lemma StatementGrid(cfg: Config, s: State, t: TxId, now: int, l: ListingId, av: Availability)
    requires cfg.serialize && Inv(cfg, s) && GridOk(s, l, av) && t in s.txs && !s.txs[t].req.Cancel?
    requires !s.txs[t].pc.Commit? && !s.txs[t].pc.Rollback?
    ensures GridOk(StepTx(cfg, s, t, now), l, av)
  {
    StatementQuiet(cfg, s, t, now);
    assert TxOk(cfg, s, t, s.txs[t]) && TxOnGrid(s.txs[t], l, av);
    if s.txs[t].req.Book? { BookGrid(cfg, s, t, now, l, av); }
    else if s.txs[t].req.Reschedule? { RescheduleGrid(cfg, s, t, now, l, av); }
    else if s.txs[t].req.Express? { ExpressStep(cfg, s, t); }
    else { WithdrawStep(cfg, s, t); }
    QuietGrid(s, StepTx(cfg, s, t, now), t, l, av);
  }

  lemma QuietGrid(s: State, s': State, t: TxId, l: ListingId, av: Availability)
    requires GridOk(s, l, av) && Quiet(s, s', t) && t in s'.txs && TxOnGrid(s'.txs[t], l, av)
    ensures GridOk(s', l, av)
  {
  }

  lemma CancelGrid(cfg: Config, s: State, t: TxId, l: ListingId, av: Availability)
    requires GridOk(s, l, av) && t in s.txs && s.txs[t].req.Cancel? && CancelOk(s.txs[t])
    ensures GridOk(StepCancel(s, t), l, av)
  {
    if s.txs[t].pc.CRead? { CancelReadGrid(s, t, l, av); }
    else if s.txs[t].pc.CUpdate? { CancelWriteGrid(cfg, s, t, l, av); }
  }

  lemma CancelReadGrid(s: State, t: TxId, l: ListingId, av: Availability)
    requires GridOk(s, l, av) && t in s.txs && s.txs[t].req.Cancel? && s.txs[t].pc.CRead?
    ensures GridOk(StepCancel(s, t), l, av)
  {
    var row := H.LiveViewing(s.db.viewings, s.txs[t].req.viewing);
    var no := H.ViewingRefusal(row, s.txs[t].req.actor);
    if no.Some? {
      UpdateGrid(s, t, s.txs[t].(pc := Rollback(no.value)), l, av);
    } else {
      UpdateGrid(s, t, s.txs[t].(pc := CUpdate(H.CancelStatus(row.value, s.txs[t].req.actor))), l, av);
    }
  }

  lemma CancelWriteGrid(cfg: Config, s: State, t: TxId, l: ListingId, av: Availability)
    requires GridOk(s, l, av) && t in s.txs && s.txs[t].req.Cancel? && s.txs[t].pc.CUpdate? && CancelOk(s.txs[t])
    ensures GridOk(StepCancel(s, t), l, av)
  {
    var v, to := s.txs[t].req.viewing, s.txs[t].pc.to;
    if H.LiveViewing(s.db.viewings, v).Some? && v !in s.rows {
      var s1 := SetViewing(s, v, s.db.viewings[v].(status := to));
      assert GridOk(s1, l, av);
      UpdateGrid(s1, t, s.txs[t].(pc := Finished(H.Ok)), l, av);
    } else {
      UpdateGrid(s, t, s.txs[t].(pc := Finished(H.Ok)), l, av);
    }
  }

  lemma UpdateGrid(s: State, t: TxId, tx: Tx, l: ListingId, av: Availability)
    requires GridOk(s, l, av) && TxOnGrid(tx, l, av)
    ensures GridOk(Update(s, t, tx), l, av)
  {
  }

  lemma CommitGrid(cfg: Config, s: State, t: TxId, l: ListingId, av: Availability)
    requires Inv(cfg, s) && GridOk(s, l, av) && t in s.txs && s.txs[t].pc.Commit?
    ensures GridOk(StepEnd(s, t), l, av)
  {
    assert TxOk(cfg, s, t, s.txs[t]) && TxOnGrid(s.txs[t], l, av);
    CommitRowsGrid(cfg, s, t, l, av);
    EndGrid(s, t, l, av);
  }

  lemma CommitRowsGrid(cfg: Config, s: State, t: TxId, l: ListingId, av: Availability)
    requires Inv(cfg, s) && GridOk(s, l, av) && t in s.txs && s.txs[t].pc.Commit?
    ensures RowsOnGrid(Apply(s.db, s.txs[t].writes).viewings, l, av)
    ensures Apply(s.db, s.txs[t].writes).catalog == s.db.catalog
  {
    assert TxOk(cfg, s, t, s.txs[t]) && TxOnGrid(s.txs[t], l, av);
    if s.txs[t].req.Express? { ExpressCommits(cfg, s, t); }
    else if s.txs[t].req.Withdraw? { WithdrawCommits(cfg, s, t); }
    else if s.txs[t].req.Book? { BookCommits(cfg, s, t); }
    else if s.txs[t].req.Reschedule? { RescheduleCommits(cfg, s, t); }
  }

  lemma EndGrid(s: State, t: TxId, l: ListingId, av: Availability)
    requires GridOk(s, l, av) && t in s.txs && s.txs[t].pc.Commit?
    requires RowsOnGrid(Apply(s.db, s.txs[t].writes).viewings, l, av)
    requires Apply(s.db, s.txs[t].writes).catalog == s.db.catalog
    ensures GridOk(StepEnd(s, t), l, av)
  {
    assert TxOnGrid(s.txs[t], l, av);
  }

  lemma RollbackGrid(s: State, t: TxId, pc: Pc, l: ListingId, av: Availability)
    requires GridOk(s, l, av) && t in s.txs && (pc.Finished? || pc.Crashed?)
    ensures GridOk(Release(s, t, pc), l, av)
  {
    assert TxOnGrid(s.txs[t], l, av);
  }

  lemma EventGrid(cfg: Config, s: State, e: Event, l: ListingId, av: Availability)
    requires GridOk(s, l, av) && KeepsSchedule(e, l, av) && !e.Run? && !e.Crash? && !e.Begin?
    ensures GridOk(Step(cfg, s, e), l, av)
  {
    if e.OnCatalog() {
      CatalogGrid(cfg, s, e, l, av);
    } else {
      RowGrid(cfg, s, e, l, av);
    }
  }

  lemma CatalogGrid(cfg: Config, s: State, e: Event, l: ListingId, av: Availability)
    requires GridOk(s, l, av) && KeepsSchedule(e, l, av)
    requires e.OnCatalog()
    ensures GridOk(Step(cfg, s, e), l, av)
  {
  }

  lemma RowGrid(cfg: Config, s: State, e: Event, l: ListingId, av: Availability)
    requires GridOk(s, l, av)
    requires e.OnMatch() || e.OnViewing()
    ensures GridOk(Step(cfg, s, e), l, av)
  {
    if e.OnMatch() { MatchRowGrid(cfg, s, e, l, av); } else { ViewingRowGrid(cfg, s, e, l, av); }
  }

  lemma MatchRowGrid(cfg: Config, s: State, e: Event, l: ListingId, av: Availability)
    requires GridOk(s, l, av) && e.OnMatch()
    ensures GridOk(Step(cfg, s, e), l, av)
  {
  }

  /** A viewing changes status or is deleted where it stands. */
  lemma SetViewingGrid(s: State, v: ViewingId, row: ViewingRow, l: ListingId, av: Availability)
    requires GridOk(s, l, av) && v in s.db.viewings && (row.Occupies() ==> s.db.viewings[v].Occupies())
    requires row == s.db.viewings[v].(status := row.status, deleted := row.deleted)
    ensures GridOk(SetViewing(s, v, row), l, av)
  {
  }

  lemma ViewingRowGrid(cfg: Config, s: State, e: Event, l: ListingId, av: Availability)
    requires GridOk(s, l, av) && e.OnViewing()
    ensures GridOk(Step(cfg, s, e), l, av)
  {
    ViewingEventSteps(cfg, s, e);
    if Step(cfg, s, e) != s { SetViewingGrid(s, e.v, EndedViewing(s, e), l, av); }
  }

  lemma RunGrid(cfg: Config, s: State, t: TxId, now: int, l: ListingId, av: Availability)
    requires cfg.serialize && Inv(cfg, s) && GridOk(s, l, av) && t in s.txs
    ensures GridOk(StepTx(cfg, s, t, now), l, av)
  {
    assert TxOk(cfg, s, t, s.txs[t]);
    if s.txs[t].pc.Commit? { CommitGrid(cfg, s, t, l, av); }
    else if s.txs[t].pc.Rollback? { RollbackGrid(s, t, Finished(s.txs[t].pc.answer), l, av); }
    else if s.txs[t].req.Cancel? { CancelGrid(cfg, s, t, l, av); }
    else { StatementGrid(cfg, s, t, now, l, av); }
  }

  lemma StepGrid(cfg: Config, s: State, e: Event, l: ListingId, av: Availability)
    requires cfg.serialize && Inv(cfg, s) && GridOk(s, l, av) && KeepsSchedule(e, l, av)
    ensures GridOk(Step(cfg, s, e), l, av)
  {
    if e.Run? { if e.t in s.txs { RunGrid(cfg, s, e.t, e.now, l, av); } }
    else if e.Crash? { if e.t in s.txs && s.txs[e.t].Live() { RollbackGrid(s, e.t, Crashed, l, av); } }
    else if e.Begin? { UpdateGrid(s, e.t, Tx(e.req, FirstPc(e.req), H.Seen(None, None, false), [], None, 0), l, av); }
    else { EventGrid(cfg, s, e, l, av); }
  }

  lemma {:induction false} RunsGrid(cfg: Config, s: State, es: seq<Event>, l: ListingId, av: Availability)
    requires cfg.serialize && Initial(s) && GridOk(s, l, av) && forall e <- es :: KeepsSchedule(e, l, av)
    ensures Inv(cfg, Execute(cfg, s, es)) && GridOk(Execute(cfg, s, es), l, av)
  {
    Invariant(cfg, s, es);
    if es != [] {
      RunsGrid(cfg, s, es[..|es| - 1], l, av);
      StepGrid(cfg, Execute(cfg, s, es[..|es| - 1]), es[|es| - 1], l, av);
    }
  }

  /** The viewings of a listing in progress at an instant. */
  function Underway(viewings: Viewings, l: ListingId, x: int): set<ViewingId> {
    set v <- viewings | viewings[v].Occupies() && viewings[v].pair.listing == l
        && viewings[v].start <= x < viewings[v].end
  }

  lemma UnderwayShareStart(viewings: Viewings, l: ListingId, av: Availability, x: int, v: ViewingId, w: ViewingId)
    requires RowsOnGrid(viewings, l, av) && DisjointWindows(av) && v in Underway(viewings, l, x)
    requires w in Underway(viewings, l, x)
    ensures viewings[v].start == viewings[w].start
  {
    var a, b := viewings[v].start, viewings[w].start;
    if a < b { GridPointsDisjoint(av, a, b); }
    if b < a { GridPointsDisjoint(av, b, a); }
  }

  /** At every instant of every run with one schedule, at most the capacity is underway. */
  lemma NeverOvercrowded(cfg: Config, s: State, es: seq<Event>, l: ListingId, av: Availability, x: int)
    requires cfg.serialize && Initial(s) && GridOk(s, l, av) && DisjointWindows(av)
    requires forall e <- es :: KeepsSchedule(e, l, av)
    ensures |Underway(Execute(cfg, s, es).db.viewings, l, x)| <= Capacity(av)
  {
    RunsGrid(cfg, s, es, l, av);
    var m := Execute(cfg, s, es);
    var now := Underway(m.db.viewings, l, x);
    if now != {} {
      var v :| v in now;
      var start := m.db.viewings[v].start;
      forall w <- now ensures w in OccupiersAt(m.db.viewings, l, start) {
        UnderwayShareStart(m.db.viewings, l, av, x, v, w);
      }
      SubsetCard(now, OccupiersAt(m.db.viewings, l, start));
      assert Occupancy(m.db.viewings, l, start) <= PeakOf(m, l);
    }
  }
}
