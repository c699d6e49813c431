/**
 More on bookings and reschedulings: those that compete for a slot are decided in the order in which they got
 its lock, and while nobody edits what they read each of them is the whole handler, run alone.
 */
module Bookings {
  import opened Base
  import opened Slots
  import opened Schema
  import H = Handlers
  import opened Protocol
  import opened ProtocolInvariant
  import opened ProtocolSafety
  import opened Scheduling
  import R = Refinement
  import Renting

  // ---- the order of the slot locks ---------------------------------------------------------

  /** Decisions under one lock come in the order in which it was granted. */
  ghost predicate Before(cfg: Config, c: Change, d: Change)
    requires c.Done? && d.Done?
  {
    c.slot.Some? && d.slot.Some? && cfg.hash(c.slot.value) == cfg.hash(d.slot.value) ==> c.ticket < d.ticket
  }

  ghost predicate InSlotOrder(cfg: Config, cs: seq<Change>) {
    forall i, j | 0 <= i < j < |cs| && cs[i].Done? && cs[j].Done? :: Before(cfg, cs[i], cs[j])
  }

  /** A lock in use was granted after every recorded decision under it. */
  ghost predicate Later(cfg: Config, cs: seq<Change>, tx: Tx) {
    Undecided(tx) && HeldSlot(tx).Some? ==>
      forall i | 0 <= i < |cs| && cs[i].Done? && cs[i].slot.Some? ::
        cfg.hash(cs[i].slot.value) == cfg.hash(HeldSlot(tx).value) ==> cs[i].ticket < tx.ticket
  }

  ghost predicate OrderOk(cfg: Config, s: State, cs: seq<Change>) {
    && InSlotOrder(cfg, cs)
    && (forall i | 0 <= i < |cs| && cs[i].Done? :: cs[i].ticket <= s.tickets)
    && (forall t <- s.txs :: Later(cfg, cs, s.txs[t]))
  }

  /** The transaction keeps its slot, or has just been granted one, or holds none that counts. */
  ghost predicate KeepsSlot(s: State, s': State, t: TxId)
    requires t in s.txs && t in s'.txs
  {
    var tx, tx' := s.txs[t], s'.txs[t];
    Undecided(tx') && HeldSlot(tx').Some? ==>
      (Undecided(tx) && HeldSlot(tx') == HeldSlot(tx) && tx'.ticket == tx.ticket) || tx'.ticket > s.tickets
  }

  lemma BookLockKeepsSlot(cfg: Config, s: State, t: TxId, now: int)
    requires cfg.serialize && t in s.txs && s.txs[t].req.Book? && (s.txs[t].pc.BMatch? || s.txs[t].pc.BLock?)
    ensures var s' := StepBook(cfg, s, t, now); t in s'.txs && KeepsSlot(s, s', t)
  {
  }

  lemma BookReadKeepsSlot(cfg: Config, s: State, t: TxId, now: int)
    requires t in s.txs && s.txs[t].req.Book? && (s.txs[t].pc.BAvail? || s.txs[t].pc.BBooked?)
    ensures var s' := StepBook(cfg, s, t, now); t in s'.txs && KeepsSlot(s, s', t)
  {
  }

  lemma BookInsertKeepsSlot(cfg: Config, s: State, t: TxId, now: int)
    requires t in s.txs && s.txs[t].req.Book? && s.txs[t].pc.BInsert? && BookOk(cfg, s, t, s.txs[t])
    ensures var s' := StepBook(cfg, s, t, now); t in s'.txs && KeepsSlot(s, s', t)
  {
  }

  lemma RescheduleLockKeepsSlot(cfg: Config, s: State, t: TxId, now: int)
    requires cfg.serialize && t in s.txs && s.txs[t].req.Reschedule? && (s.txs[t].pc.RRow? || s.txs[t].pc.RLock?)
    ensures var s' := StepReschedule(cfg, s, t, now); t in s'.txs && KeepsSlot(s, s', t)
  {
  }

  lemma RescheduleReadKeepsSlot(cfg: Config, s: State, t: TxId, now: int)
    requires t in s.txs && s.txs[t].req.Reschedule? && (s.txs[t].pc.RAvail? || s.txs[t].pc.RBooked?)
    ensures var s' := StepReschedule(cfg, s, t, now); t in s'.txs && KeepsSlot(s, s', t)
  {
  }

  lemma RescheduleUpdateKeepsSlot(cfg: Config, s: State, t: TxId, now: int)
    requires t in s.txs && s.txs[t].req.Reschedule? && s.txs[t].pc.RUpdate? && RescheduleOk(cfg, s, t, s.txs[t])
    ensures var s' := StepReschedule(cfg, s, t, now); t in s'.txs && KeepsSlot(s, s', t)
  {
  }

  lemma ViewingRunKeepsSlot(cfg: Config, s: State, t: TxId, now: int)
    requires cfg.serialize && t in s.txs && OnViewings(s.txs[t].req) && TxOk(cfg, s, t, s.txs[t])
    requires Undecided(s.txs[t]) && !s.txs[t].pc.Commit?
    ensures var s' := StepTx(cfg, s, t, now); t in s'.txs && KeepsSlot(s, s', t)
  {
    if s.txs[t].pc.BMatch? { BookLockKeepsSlot(cfg, s, t, now); }
    else if s.txs[t].pc.BLock? { BookLockKeepsSlot(cfg, s, t, now); }
    else if s.txs[t].pc.BAvail? { BookReadKeepsSlot(cfg, s, t, now); }
    else if s.txs[t].pc.BBooked? { BookReadKeepsSlot(cfg, s, t, now); }
    else if s.txs[t].pc.BInsert? { BookInsertKeepsSlot(cfg, s, t, now); }
    else if s.txs[t].pc.RRow? { RescheduleLockKeepsSlot(cfg, s, t, now); }
    else if s.txs[t].pc.RLock? { RescheduleLockKeepsSlot(cfg, s, t, now); }
    else if s.txs[t].pc.RAvail? { RescheduleReadKeepsSlot(cfg, s, t, now); }
    else if s.txs[t].pc.RBooked? { RescheduleReadKeepsSlot(cfg, s, t, now); }
    else { RescheduleUpdateKeepsSlot(cfg, s, t, now); }
  }

  lemma OthersHoldNoSlot(tx: Tx)
    requires !OnViewings(tx.req)
    ensures HeldSlot(tx).None?
  {
  }

  lemma RunKeepsSlot(cfg: Config, s: State, t: TxId, now: int)
    requires cfg.serialize && Inv(cfg, s) && t in s.txs
    ensures var s' := StepTx(cfg, s, t, now); t in s'.txs && KeepsSlot(s, s', t)
  {
    RunOthersStand(cfg, s, t, now);
    assert TxOk(cfg, s, t, s.txs[t]);
    if !OnViewings(s.txs[t].req) {
      OthersHoldNoSlot(StepTx(cfg, s, t, now).txs[t]);
    } else if s.txs[t].pc.Commit? || s.txs[t].pc.Rollback? {
      R.EndKeepsTxs(s, t);
    } else if !s.txs[t].Live() {
      FinishedStays(cfg, s, t, now);
    } else {
      ViewingRunKeepsSlot(cfg, s, t, now);
    }
  }

  /** No step takes a ticket back. */
  lemma RunTickets(cfg: Config, s: State, t: TxId, now: int)
    requires cfg.serialize && Inv(cfg, s) && R.LogOk(cfg, s) && t in s.txs
    ensures s.tickets <= StepTx(cfg, s, t, now).tickets
  {
    var tx := s.txs[t];
    assert TxOk(cfg, s, t, tx) && R.TxLogOk(cfg, s, t, tx);
    if tx.pc.Commit? || tx.pc.Rollback? {
      R.EndKeepsTxs(s, t);
    } else if !tx.Live() {
      FinishedStays(cfg, s, t, now);
    } else {
      if tx.req.Book? { R.BookSilent(cfg, s, t, now); }
      else if tx.req.Reschedule? { R.RescheduleSilent(cfg, s, t, now); }
      else if tx.req.Cancel? { R.CancelSilent(s, t); }
      else { R.LedgerRequestSpeaks(cfg, s, t, now); }
    }
  }

  lemma EventTickets(cfg: Config, s: State, e: Event)
    requires !e.Run?
    ensures s.tickets == Step(cfg, s, e).tickets
  {
  }

  lemma BeginHoldsNoSlot(cfg: Config, s: State, e: Event)
    requires e.Begin?
    ensures var s' := Step(cfg, s, e); forall u <- s'.txs :: u in s.txs || HeldSlot(s'.txs[u]).None?
  {
  }

  /** Every transaction keeps its slot through a step, or has just got it. */
  ghost predicate SlotsKept(s: State, s': State) {
    forall u <- s'.txs :: if u in s.txs then KeepsSlot(s, s', u) else HeldSlot(s'.txs[u]).None?
  }

  lemma OneMoves(s: State, s': State, t: TxId)
    requires t in s.txs && t in s'.txs && KeepsSlot(s, s', t)
    requires forall u <- s'.txs :: u in s.txs && (u == t || s'.txs[u] == s.txs[u])
    ensures SlotsKept(s, s')
  {
  }

  lemma RunKeepsSlots(cfg: Config, s: State, t: TxId, now: int)
    requires cfg.serialize && Inv(cfg, s) && t in s.txs
    ensures SlotsKept(s, StepTx(cfg, s, t, now))
  {
    RunKeepsSlot(cfg, s, t, now);
    RunOthersStand(cfg, s, t, now);
    RunAddsNone(cfg, s, t, now);
    OneMoves(s, StepTx(cfg, s, t, now), t);
  }

  lemma RunAddsNone(cfg: Config, s: State, t: TxId, now: int)
    requires cfg.serialize && Inv(cfg, s) && t in s.txs
    ensures StepTx(cfg, s, t, now).txs.Keys == s.txs.Keys
  {
    assert TxOk(cfg, s, t, s.txs[t]);
    if s.txs[t].pc.Commit? || s.txs[t].pc.Rollback? {
      R.EndKeepsTxs(s, t);
    } else if s.txs[t].req.Cancel? {
      CancelOthersStand(s, t);
    } else {
      StatementQuiet(cfg, s, t, now);
    }
  }

  lemma CrashKeepsSlots(cfg: Config, s: State, e: Event)
    requires e.Crash?
    ensures SlotsKept(s, Step(cfg, s, e))
  {
  }

  lemma BeginKeepsSlots(cfg: Config, s: State, e: Event)
    requires e.Begin?
    ensures SlotsKept(s, Step(cfg, s, e))
  {
    BeginHoldsNoSlot(cfg, s, e);
    BeginOthersStand(cfg, s, e);
  }

  lemma StepKeepsSlots(cfg: Config, s: State, e: Event)
    requires cfg.serialize && Inv(cfg, s) && R.LogOk(cfg, s)
    ensures SlotsKept(s, Step(cfg, s, e)) && s.tickets <= Step(cfg, s, e).tickets
  {
    if e.Run? {
      if e.t in s.txs {
        RunKeepsSlots(cfg, s, e.t, e.now);
        RunTickets(cfg, s, e.t, e.now);
      }
    } else {
      EventTickets(cfg, s, e);
      if e.Begin? { BeginKeepsSlots(cfg, s, e); }
      else if e.Crash? { CrashKeepsSlots(cfg, s, e); }
      else { OutsideEvent(cfg, s, e); }
    }
  }

  /** The slot counted as held is locked. */
  lemma HeldIsLocked(cfg: Config, s: State, t: TxId)
    requires t in s.txs && TxOk(cfg, s, t, s.txs[t]) && Undecided(s.txs[t]) && HeldSlot(s.txs[t]).Some?
    ensures Holds(cfg, s, t, HeldSlot(s.txs[t]).value)
  {
  }

  /** A step that decides nothing. */
  lemma SilentOrder(cfg: Config, s: State, s': State, cs: seq<Change>, c: seq<Change>)
    requires OrderOk(cfg, s, cs) && SlotsKept(s, s') && s.tickets <= s'.tickets
    requires forall x <- c :: x.Stored?
    ensures OrderOk(cfg, s', cs + c)
  {
    var ds := cs + c;
    forall i | 0 <= i < |ds| ensures ds[i].Done? ==> i < |cs| && ds[i] == cs[i] {
      if i >= |cs| { assert ds[i] == c[i - |cs|] && c[i - |cs|] in c; }
    }
    forall u <- s'.txs ensures Later(cfg, ds, s'.txs[u]) {
      if u in s.txs { assert KeepsSlot(s, s', u) && Later(cfg, cs, s.txs[u]); }
    }
  }

  /** `t` decides, under the lock it holds. */
  lemma DecisionOrder(cfg: Config, s: State, s': State, t: TxId, cs: seq<Change>, c: Change)
    requires Inv(cfg, s) && R.LogOk(cfg, s) && OrderOk(cfg, s, cs) && SlotsKept(s, s') && s.tickets <= s'.tickets
    requires Decided(s, s', t) && c.Done? && c.slot == HeldSlot(s.txs[t]) && c.ticket == s.txs[t].ticket
    requires forall u <- s'.txs :: u == t || u !in s.txs || s'.txs[u] == s.txs[u]
    ensures OrderOk(cfg, s', cs + [c])
  {
    var ds := cs + [c];
    assert R.TxLogOk(cfg, s, t, s.txs[t]) && Later(cfg, cs, s.txs[t]);
    forall i, j | 0 <= i < j < |ds| && ds[i].Done? && ds[j].Done? ensures Before(cfg, ds[i], ds[j]) {
      assert ds[i] == cs[i] && (j < |cs| ==> ds[j] == cs[j]);
    }
    forall i | 0 <= i < |ds| && ds[i].Done? ensures ds[i].ticket <= s'.tickets {
      if i < |cs| { assert ds[i] == cs[i]; }
    }
    forall u <- s'.txs ensures Later(cfg, ds, s'.txs[u]) {
      if u in s.txs && u != t && Undecided(s.txs[u]) && HeldSlot(s.txs[u]).Some? { OtherLater(cfg, s, t, u, cs, c); }
    }
  }

  lemma OtherLater(cfg: Config, s: State, t: TxId, u: TxId, cs: seq<Change>, c: Change)
    requires Inv(cfg, s) && t in s.txs && u in s.txs && u != t && Undecided(s.txs[t]) && Later(cfg, cs, s.txs[u])
    requires Undecided(s.txs[u]) && HeldSlot(s.txs[u]).Some? && c.Done? && c.slot == HeldSlot(s.txs[t])
    ensures Later(cfg, cs + [c], s.txs[u])
  {
    assert TxOk(cfg, s, t, s.txs[t]) && TxOk(cfg, s, u, s.txs[u]);
    HeldIsLocked(cfg, s, u);
    if c.slot.Some? {
      HeldIsLocked(cfg, s, t);
      Exclusive(cfg, s, t, u, c.slot.value, HeldSlot(s.txs[u]).value);
    }
  }

  lemma StepOrder(cfg: Config, s: State, e: Event, cs: seq<Change>)
    requires cfg.serialize && Inv(cfg, s) && R.LogOk(cfg, s) && OrderOk(cfg, s, cs)
    ensures OrderOk(cfg, Step(cfg, s, e), cs + ChangeAt(cfg, s, e))
  {
    var s' := Step(cfg, s, e);
    StepKeepsSlots(cfg, s, e);
    if RunsViewing(s, e) && Decided(s, s', e.t) {
      StepOthersStand(cfg, s, e);
      DecisionOrder(cfg, s, s', e.t, cs, Decision(s, s', e.t, e.now));
    } else {
      SilentOrder(cfg, s, s', cs, ChangeAt(cfg, s, e));
    }
  }

  /** Every schedule decides the bookings and reschedulings of one slot in the order in which they got its lock. */
  lemma {:induction false} SlotsInOrder(cfg: Config, s: State, es: seq<Event>)
    requires cfg.serialize && Initial(s)
    ensures OrderOk(cfg, Execute(cfg, s, es), Changes(cfg, s, es))
  {
    if es != [] {
      var before := es[..|es| - 1];
      SlotsInOrder(cfg, s, before);
      R.RunsFollow(cfg, s, before);
      StepOrder(cfg, Execute(cfg, s, before), es[|es| - 1], Changes(cfg, s, before));
    }
  }

  /** The slot a request asks for: that of its match's listing, or of its viewing's. */
  function SlotAsked(viewings: Viewings, req: Request, read: Reads): Option<LockName> {
    match req
    case Book(_, _, start) => if read.row.Some? then Some(OnSlot(read.row.value.pair.listing, start)) else None
    case Reschedule(_, v, start) => if v in viewings then Some(OnSlot(viewings[v].pair.listing, start)) else None
    case _ => None
  }

  /** The record names the slot that its request asked for; one that read a schedule had the lock. */
  ghost predicate SlotTold(viewings: Viewings, c: Change)
    requires c.Done?
  {
    (c.slot.Some? ==> c.slot == SlotAsked(viewings, c.req, c.read)) && (c.read.av.Some? ==> c.slot.Some?)
  }

  ghost predicate SlotsTold(viewings: Viewings, cs: seq<Change>) {
    forall i | 0 <= i < |cs| && cs[i].Done? :: SlotTold(Replay(viewings, cs[..i]), cs[i])
  }

  lemma BookSlotTold(cfg: Config, s: State, s': State, t: TxId, now: int)
    requires TablesOk(s) && Decided(s, s', t) && s.txs[t].req.Book? && BookOk(cfg, s, t, s.txs[t])
    ensures SlotTold(s.db.viewings, Decision(s, s', t, now))
  {
  }

  lemma RescheduleSlotTold(cfg: Config, s: State, s': State, t: TxId, now: int)
    requires TablesOk(s) && Decided(s, s', t) && s.txs[t].req.Reschedule? && RescheduleOk(cfg, s, t, s.txs[t])
    ensures SlotTold(s.db.viewings, Decision(s, s', t, now))
  {
  }

  lemma StepSlotTold(cfg: Config, s: State, e: Event)
    requires Inv(cfg, s)
    ensures forall c <- ChangeAt(cfg, s, e) :: c.Done? ==> SlotTold(s.db.viewings, c)
  {
    if RunsViewing(s, e) && Decided(s, Step(cfg, s, e), e.t) {
      assert TxOk(cfg, s, e.t, s.txs[e.t]);
      if s.txs[e.t].req.Book? {
        BookSlotTold(cfg, s, Step(cfg, s, e), e.t, e.now);
      } else {
        RescheduleSlotTold(cfg, s, Step(cfg, s, e), e.t, e.now);
      }
    }
  }

  lemma TellsMore(viewings: Viewings, cs: seq<Change>, c: seq<Change>)
    requires SlotsTold(viewings, cs) && |c| <= 1
    requires forall x <- c :: x.Done? ==> SlotTold(Replay(viewings, cs), x)
    ensures SlotsTold(viewings, cs + c)
  {
    var ds := cs + c;
    forall i | 0 <= i < |ds| && ds[i].Done? ensures SlotTold(Replay(viewings, ds[..i]), ds[i]) {
      if i < |cs| {
        assert ds[..i] == cs[..i] && ds[i] == cs[i];
      } else {
        assert ds[..i] == cs && ds[i] == c[0];
      }
    }
  }

  lemma {:induction false} RunSlotsTold(cfg: Config, s: State, es: seq<Event>)
    requires cfg.serialize && Initial(s)
    ensures SlotsTold(s.db.viewings, Changes(cfg, s, es))
  {
    if es != [] {
      var before := es[..|es| - 1];
      RunSlotsTold(cfg, s, before);
      RunChanges(cfg, s, before);
      StepSlotTold(cfg, Execute(cfg, s, before), es[|es| - 1]);
      TellsMore(s.db.viewings, Changes(cfg, s, before), ChangeAt(cfg, Execute(cfg, s, before), es[|es| - 1]));
    }
  }

  /**
   Every schedule leaves the viewings that its decided bookings and reschedulings leave when served one
   at a time, with the same answers, each request once, those that compete for a slot in the order in which
   they got its lock; between them other handlers only end or delete rows.
   */
  lemma {:induction false} ViewingsSerializable(cfg: Config, s: State, es: seq<Event>)
    requires cfg.serialize && Initial(s)
    ensures var m, cs := Execute(cfg, s, es), Changes(cfg, s, es);
      && m.db.viewings == Replay(s.db.viewings, cs) && ChangesOk(s.db.viewings, cs)
      && RecordOk(m, cs) && InSlotOrder(cfg, cs) && SlotsTold(s.db.viewings, cs)
  {
    RunChanges(cfg, s, es);
    RunRecorded(cfg, s, es);
    SlotsInOrder(cfg, s, es);
    RunSlotsTold(cfg, s, es);
  }

  // ---- whole handlers, while nobody edits what they read ------------------------------------------

  /** Nobody edits the catalog or ends a match. */
  predicate Calm(e: Event) { R.LeavesCatalog(e) && !e.RentMatch? && !e.PurgeMatch? }

  /** What an undecided booking or rescheduling has read is still so. */
  ghost predicate ReadsStand(db: Db, tx: Tx) {
    match tx.pc
    case BLock(row) => tx.req.Book? && H.LiveMatchRow(db.ledger, tx.req.matchId) == Some(row)
    case BAvail(row) => tx.req.Book? && H.LiveMatchRow(db.ledger, tx.req.matchId) == Some(row)
    case BBooked(row, av) =>
      && tx.req.Book? && H.LiveMatchRow(db.ledger, tx.req.matchId) == Some(row)
      && H.ListingAvailability(db.catalog, row.pair.listing) == Some(av)
    case BInsert(row) =>
      tx.req.Book? && H.LiveMatchRow(db.ledger, tx.req.matchId) == Some(row) && ScheduleStands(db.catalog, tx)
    case RBooked(was, av) => H.ListingAvailability(db.catalog, was.pair.listing) == Some(av)
    case RUpdate(_) => ScheduleStands(db.catalog, tx)
    case Commit(_) =>
      && (OnViewings(tx.req) ==> ScheduleStands(db.catalog, tx))
      && (tx.req.Book? ==> RowWritten(tx).Some? && H.LiveMatchRow(db.ledger, tx.req.matchId) == RowWritten(tx))
    case _ => true
  }

  ghost predicate ScheduleStands(c: Catalog, tx: Tx) {
    tx.claim.Some? && H.ListingAvailability(c, tx.claim.value.listing) == Some(tx.claim.value.av)
  }

  /** Listings stand, and so do the match rows, though new ones may come. */
  ghost predicate GroundKept(db: Db, db': Db) {
    && db'.catalog.listings == db.catalog.listings
    && forall m <- db.ledger.matches :: m in db'.ledger.matches && db'.ledger.matches[m] == db.ledger.matches[m]
  }

  lemma ReadsStay(db: Db, db': Db, tx: Tx)
    requires ReadsStand(db, tx) && GroundKept(db, db')
    ensures ReadsStand(db', tx)
  {
  }

  lemma RunKeepsGround(cfg: Config, s: State, t: TxId, now: int)
    requires cfg.serialize && Inv(cfg, s) && t in s.txs
    ensures GroundKept(s.db, StepTx(cfg, s, t, now).db)
  {
    Renting.RunKeepsMatches(cfg, s, t, now);
    if CommitsMatch(s, Run(t, now)) {
      assert TxOk(cfg, s, t, s.txs[t]);
      ExpressEnds(cfg, s, t);
    }
  }

  lemma BookMatchStands(cfg: Config, s: State, t: TxId, now: int)
    requires t in s.txs && s.txs[t].req.Book? && BookOk(cfg, s, t, s.txs[t]) && ReadsStand(s.db, s.txs[t])
    requires s.txs[t].pc.BMatch?
    ensures var s' := StepBook(cfg, s, t, now); t in s'.txs && s'.db == s.db && ReadsStand(s'.db, s'.txs[t])
  {
    ApplyNone(s.db);
  }

  lemma BookLockStands(cfg: Config, s: State, t: TxId, now: int)
    requires t in s.txs && s.txs[t].req.Book? && BookOk(cfg, s, t, s.txs[t]) && ReadsStand(s.db, s.txs[t])
    requires s.txs[t].pc.BLock?
    ensures var s' := StepBook(cfg, s, t, now); t in s'.txs && s'.db == s.db && ReadsStand(s'.db, s'.txs[t])
  {
    ApplyNone(s.db);
  }

  lemma BookScheduleStands(cfg: Config, s: State, t: TxId, now: int)
    requires t in s.txs && s.txs[t].req.Book? && BookOk(cfg, s, t, s.txs[t]) && ReadsStand(s.db, s.txs[t])
    requires s.txs[t].pc.BAvail?
    ensures var s' := StepBook(cfg, s, t, now); t in s'.txs && s'.db == s.db && ReadsStand(s'.db, s'.txs[t])
  {
    ApplyNone(s.db);
  }

  lemma BookClaimStands(cfg: Config, s: State, t: TxId, now: int)
    requires t in s.txs && s.txs[t].req.Book? && BookOk(cfg, s, t, s.txs[t]) && ReadsStand(s.db, s.txs[t])
    requires s.txs[t].pc.BBooked?
    ensures var s' := StepBook(cfg, s, t, now); t in s'.txs && s'.db == s.db && ReadsStand(s'.db, s'.txs[t])
  {
    ApplyNone(s.db);
  }

  lemma BookRowStands(cfg: Config, s: State, t: TxId, now: int)
    requires t in s.txs && s.txs[t].req.Book? && BookOk(cfg, s, t, s.txs[t]) && ReadsStand(s.db, s.txs[t])
    requires s.txs[t].pc.BInsert?
    ensures var s' := StepBook(cfg, s, t, now); t in s'.txs && s'.db == s.db && ReadsStand(s'.db, s'.txs[t])
  {
    ApplyNone(s.db);
  }

  lemma RescheduleRowStands(cfg: Config, s: State, t: TxId, now: int)
    requires t in s.txs && s.txs[t].req.Reschedule? && RescheduleOk(cfg, s, t, s.txs[t]) && ReadsStand(s.db, s.txs[t])
    requires s.txs[t].pc.RRow?
    ensures var s' := StepReschedule(cfg, s, t, now); t in s'.txs && s'.db == s.db && ReadsStand(s'.db, s'.txs[t])
  {
    ApplyNone(s.db);
  }

  lemma RescheduleLockStands(cfg: Config, s: State, t: TxId, now: int)
    requires t in s.txs && s.txs[t].req.Reschedule? && RescheduleOk(cfg, s, t, s.txs[t]) && ReadsStand(s.db, s.txs[t])
    requires s.txs[t].pc.RLock?
    ensures var s' := StepReschedule(cfg, s, t, now); t in s'.txs && s'.db == s.db && ReadsStand(s'.db, s'.txs[t])
  {
    ApplyNone(s.db);
  }

  lemma RescheduleScheduleStands(cfg: Config, s: State, t: TxId, now: int)
    requires t in s.txs && s.txs[t].req.Reschedule? && RescheduleOk(cfg, s, t, s.txs[t]) && ReadsStand(s.db, s.txs[t])
    requires s.txs[t].pc.RAvail?
    ensures var s' := StepReschedule(cfg, s, t, now); t in s'.txs && s'.db == s.db && ReadsStand(s'.db, s'.txs[t])
  {
    ApplyNone(s.db);
  }

  lemma RescheduleClaimStands(cfg: Config, s: State, t: TxId, now: int)
    requires t in s.txs && s.txs[t].req.Reschedule? && RescheduleOk(cfg, s, t, s.txs[t]) && ReadsStand(s.db, s.txs[t])
    requires s.txs[t].pc.RBooked? || s.txs[t].pc.RUpdate?
    ensures var s' := StepReschedule(cfg, s, t, now); t in s'.txs && s'.db == s.db && ReadsStand(s'.db, s'.txs[t])
  {
    ApplyNone(s.db);
  }

  lemma EndedReadsNothing(db: Db, tx: Tx)
    requires tx.pc.Finished? || tx.pc.Crashed? || tx.pc.Rollback?
    ensures ReadsStand(db, tx)
  {
  }

  lemma OthersReadNothing(db: Db, tx: Tx)
    requires !OnViewings(tx.req) && !tx.pc.BLock? && !tx.pc.BAvail? && !tx.pc.BBooked? && !tx.pc.BInsert?
    requires !tx.pc.RBooked? && !tx.pc.RUpdate?
    ensures ReadsStand(db, tx)
  {
  }

  lemma OnLedgerReadsNothing(cfg: Config, s: State, t: TxId)
    requires t in s.txs && TxOk(cfg, s, t, s.txs[t]) && !OnViewings(s.txs[t].req)
    ensures ReadsStand(s.db, s.txs[t])
  {
    OthersReadNothing(s.db, s.txs[t]);
  }

  lemma BookReadsStand(cfg: Config, s: State, t: TxId, now: int)
    requires t in s.txs && s.txs[t].req.Book? && BookOk(cfg, s, t, s.txs[t]) && ReadsStand(s.db, s.txs[t])
    requires Undecided(s.txs[t]) && !s.txs[t].pc.Commit?
    ensures var s' := StepBook(cfg, s, t, now); t in s'.txs && s'.db == s.db && ReadsStand(s'.db, s'.txs[t])
  {
    if s.txs[t].pc.BMatch? { BookMatchStands(cfg, s, t, now); }
    else if s.txs[t].pc.BLock? { BookLockStands(cfg, s, t, now); }
    else if s.txs[t].pc.BAvail? { BookScheduleStands(cfg, s, t, now); }
    else if s.txs[t].pc.BBooked? { BookClaimStands(cfg, s, t, now); }
    else { BookRowStands(cfg, s, t, now); }
  }

  lemma RescheduleReadsStand(cfg: Config, s: State, t: TxId, now: int)
    requires t in s.txs && s.txs[t].req.Reschedule? && RescheduleOk(cfg, s, t, s.txs[t]) && ReadsStand(s.db, s.txs[t])
    requires Undecided(s.txs[t]) && !s.txs[t].pc.Commit?
    ensures var s' := StepReschedule(cfg, s, t, now); t in s'.txs && s'.db == s.db && ReadsStand(s'.db, s'.txs[t])
  {
    if s.txs[t].pc.RRow? { RescheduleRowStands(cfg, s, t, now); }
    else if s.txs[t].pc.RLock? { RescheduleLockStands(cfg, s, t, now); }
    else if s.txs[t].pc.RAvail? { RescheduleScheduleStands(cfg, s, t, now); }
    else { RescheduleClaimStands(cfg, s, t, now); }
  }

  lemma RunReadsStand(cfg: Config, s: State, t: TxId, now: int)
    requires cfg.serialize && Inv(cfg, s) && t in s.txs && ReadsStand(s.db, s.txs[t])
    ensures var s' := StepTx(cfg, s, t, now); t in s'.txs && ReadsStand(s'.db, s'.txs[t])
  {
    var s', tx := StepTx(cfg, s, t, now), s.txs[t];
    assert TxOk(cfg, s, t, tx);
    RunOthersStand(cfg, s, t, now);
    if tx.pc.Commit? || tx.pc.Rollback? {
      R.EndKeepsTxs(s, t);
      EndedReadsNothing(s'.db, s'.txs[t]);
    } else if !tx.Live() {
      FinishedStays(cfg, s, t, now);
    } else if OnViewings(tx.req) {
      if tx.req.Book? { BookReadsStand(cfg, s, t, now); } else { RescheduleReadsStand(cfg, s, t, now); }
    } else {
      RunKeepsInv(cfg, s, t, now);
      OnLedgerReadsNothing(cfg, s', t);
    }
  }

  ghost predicate AllReadsStand(s: State) { forall t <- s.txs :: ReadsStand(s.db, s.txs[t]) }

  lemma OtherEventKeepsGround(cfg: Config, s: State, e: Event)
    requires Calm(e) && !e.Run?
    ensures GroundKept(s.db, Step(cfg, s, e).db)
  {
  }

  lemma StepReadsStand(cfg: Config, s: State, e: Event)
    requires cfg.serialize && Inv(cfg, s) && AllReadsStand(s) && Calm(e)
    ensures AllReadsStand(Step(cfg, s, e))
  {
    var s' := Step(cfg, s, e);
    StepOthersStand(cfg, s, e);
    if e.Run? {
      if e.t in s.txs {
        RunKeepsGround(cfg, s, e.t, e.now);
        RunReadsStand(cfg, s, e.t, e.now);
        RunAddsNone(cfg, s, e.t, e.now);
      }
    } else {
      OtherEventKeepsGround(cfg, s, e);
    }
    forall u <- s'.txs ensures ReadsStand(s'.db, s'.txs[u]) {
      if u in s.txs && s'.txs[u] == s.txs[u] {
        ReadsStay(s.db, s'.db, s.txs[u]);
      } else if e.Begin? {
        BeginReadsNothing(cfg, s, e, u);
      } else if e.Crash? {
        EndedReadsNothing(s'.db, s'.txs[u]);
      }
    }
  }

  lemma BeginReadsNothing(cfg: Config, s: State, e: Event, u: TxId)
    requires e.Begin? && u in Step(cfg, s, e).txs && u !in s.txs
    ensures ReadsStand(Step(cfg, s, e).db, Step(cfg, s, e).txs[u])
  {
  }

  /** The request as a whole handler. */
  function ServeAlone(db: Db, t: TxId, req: Request, now: int): (Db, H.Answer)
    requires OnViewings(req)
  {
    match req
    case Book(actor, m, start) => H.Book(db, actor, m, start, now, t)
    case Reschedule(actor, v, start) => H.Reschedule(db, actor, v, start, now)
  }

  /** The reads at a decision are those of the handler on the tables of that moment. */
  lemma BookDecidesAlone(cfg: Config, s: State, t: TxId, now: int)
    requires t in s.txs && s.txs[t].req.Book? && BookOk(cfg, s, t, s.txs[t]) && ReadsStand(s.db, s.txs[t])
    requires Undecided(s.txs[t]) && !s.txs[t].pc.BMatch? && !s.txs[t].pc.BLock?
    ensures var r := ReadsOf(s, t, now); var (viewings, a) := ServeOn(s.db.viewings, t, s.txs[t].req, r);
      ServeAlone(s.db, t, s.txs[t].req, r.now) == (s.db.(viewings := viewings), a)
  {
    var r := ReadsOf(s, t, now);
    ServeOnIsBook(s.db, s.txs[t].req.actor, s.txs[t].req.matchId, s.txs[t].req.start, r.now, t);
  }

  lemma RescheduleDecidesAlone(cfg: Config, s: State, t: TxId, now: int)
    requires t in s.txs && s.txs[t].req.Reschedule? && RescheduleOk(cfg, s, t, s.txs[t]) && ReadsStand(s.db, s.txs[t])
    requires s.txs[t].pc.RAvail? || s.txs[t].pc.RBooked? || s.txs[t].pc.Commit?
    ensures var r := ReadsOf(s, t, now); var (viewings, a) := ServeOn(s.db.viewings, t, s.txs[t].req, r);
      ServeAlone(s.db, t, s.txs[t].req, r.now) == (s.db.(viewings := viewings), a)
  {
    var r := ReadsOf(s, t, now);
    ServeOnIsReschedule(s.db, s.txs[t].req.actor, s.txs[t].req.viewing, s.txs[t].req.start, r.now);
  }

  /** A refusal on the row itself, before any lock. */
  lemma FirstRefusalAlone(cfg: Config, s: State, t: TxId, now: int)
    requires t in s.txs && TxOk(cfg, s, t, s.txs[t]) && OnViewings(s.txs[t].req)
    requires (s.txs[t].pc.BMatch? || s.txs[t].pc.RRow?) && Decided(s, StepTx(cfg, s, t, now), t)
    ensures ServeAlone(s.db, t, s.txs[t].req, now) == (s.db, StepTx(cfg, s, t, now).txs[t].pc.answer)
  {
    ApplyNone(s.db);
  }

  lemma LockDecidesNothing(cfg: Config, s: State, t: TxId, now: int)
    requires t in s.txs && OnViewings(s.txs[t].req)
    requires s.txs[t].pc.BLock? || s.txs[t].pc.RLock? || s.txs[t].pc.RUpdate?
    ensures !Decided(s, StepTx(cfg, s, t, now), t)
  {
  }

  /** Only the viewings change. */
  lemma ViewingRunKeepsRest(cfg: Config, s: State, t: TxId, now: int)
    requires cfg.serialize && Inv(cfg, s) && t in s.txs && OnViewings(s.txs[t].req)
    ensures var d := StepTx(cfg, s, t, now).db; d == s.db.(viewings := d.viewings)
  {
    assert TxOk(cfg, s, t, s.txs[t]);
    if s.txs[t].pc.Commit? {
      CommitTables(cfg, s, t);
    } else if !s.txs[t].pc.Rollback? {
      StatementQuiet(cfg, s, t, now);
    }
  }

  /** The step of a transaction whose reads stand. */
  ghost predicate RunsAlone(s: State, s': State, t: TxId, now: int)
    requires t in s.txs && OnViewings(s.txs[t].req)
  {
    && (Decided(s, s', t) ==>
          ServeAlone(s.db, t, s.txs[t].req, ReadsOf(s, t, now).now) == (s'.db, s'.txs[t].pc.answer))
    && (!Decided(s, s', t) ==> s'.db == s.db)
  }

  lemma StatementRunsAlone(cfg: Config, s: State, t: TxId, now: int)
    requires cfg.serialize && Inv(cfg, s) && t in s.txs && OnViewings(s.txs[t].req) && ReadsStand(s.db, s.txs[t])
    ensures RunsAlone(s, StepTx(cfg, s, t, now), t, now)
  {
    assert TxOk(cfg, s, t, s.txs[t]);
    StatementServes(cfg, s, t, now);
    ViewingRunKeepsRest(cfg, s, t, now);
    if Decided(s, StepTx(cfg, s, t, now), t) {
      if s.txs[t].pc.BMatch? || s.txs[t].pc.RRow? {
        FirstRefusalAlone(cfg, s, t, now);
      } else if s.txs[t].pc.BLock? || s.txs[t].pc.RLock? || s.txs[t].pc.RUpdate? {
        LockDecidesNothing(cfg, s, t, now);
      } else if s.txs[t].req.Book? {
        BookDecidesAlone(cfg, s, t, now);
      } else {
        RescheduleDecidesAlone(cfg, s, t, now);
      }
    }
  }

  lemma {:induction false} RunsReadsStand(cfg: Config, s: State, es: seq<Event>)
    requires cfg.serialize && Initial(s) && forall e <- es :: Calm(e)
    ensures AllReadsStand(Execute(cfg, s, es))
  {
    if es != [] {
      var before := es[..|es| - 1];
      RunsReadsStand(cfg, s, before);
      Invariant(cfg, s, before);
      StepReadsStand(cfg, Execute(cfg, s, before), es[|es| - 1]);
    }
  }

  /**
   While nobody edits the catalog or ends a match, every interleaved run does to the whole database, at the step
   that decides a booking or rescheduling, what the whole handler does there, reads and refusals included, and
   nothing at its other steps.  The clock is the one that the slot was checked against.
   */
  lemma BookingsAreHandlers(cfg: Config, s: State, es: seq<Event>, t: TxId, now: int)
    requires cfg.serialize && Initial(s) && forall e <- es :: Calm(e)
    requires t in Execute(cfg, s, es).txs && OnViewings(Execute(cfg, s, es).txs[t].req)
    ensures RunsAlone(Execute(cfg, s, es), Step(cfg, Execute(cfg, s, es), Run(t, now)), t, now)
  {
    Invariant(cfg, s, es);
    RunsReadsStand(cfg, s, es);
    StatementRunsAlone(cfg, Execute(cfg, s, es), t, now);
  }
}
