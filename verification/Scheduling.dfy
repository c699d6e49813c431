/**
 Booking and rescheduling are serializable as well: whatever the interleaving, the viewings are
 those of the decided requests served one at a time, each on what it had read of its match and its
 schedule and on the viewings as they stand when it is decided.
 */
module Scheduling {
  import opened Base
  import opened Slots
  import opened Schema
  import H = Handlers
  import opened Protocol
  import opened ProtocolInvariant
  import opened ProtocolSafety

  /** What a request read besides the viewings: match row, schedule, clock. */
  datatype Reads = Reads(row: Option<MatchRow>, av: Option<Availability>, now: int)

  predicate OnViewings(req: Request) { req.Book? || req.Reschedule? }

  function BookOn(viewings: Viewings, actor: UserId, m: MatchId, start: int, id: ViewingId, r: Reads): (Viewings,
      H.Answer) {
    if H.BookRefusal(r.row, actor).Some? then (viewings, H.BookRefusal(r.row, actor).value)
    else if r.av.None? then (viewings, H.Internal)
    else match OpenSlotEnd(r.av.value, r.now, BookedStarts(viewings, r.row.value.pair.listing), start)
      case None => (viewings, H.SlotFull)
      case Some(end) =>
        if MatchHasViewing(viewings, m) then (viewings, H.AlreadyBooked)
        else (viewings[id := H.NewViewing(m, r.row.value, start, end)], H.Booked(id, start, end))
  }

  function RescheduleOn(viewings: Viewings, actor: UserId, v: ViewingId, start: int, r: Reads): (Viewings, H.Answer) {
    var row := H.LiveViewing(viewings, v);
    if H.ViewingRefusal(row, actor).Some? then (viewings, H.ViewingRefusal(row, actor).value)
    else if r.av.None? then (viewings, H.Internal)
    else match OpenSlotEnd(r.av.value, r.now, BookedStarts(viewings, row.value.pair.listing), start)
      case None => (viewings, H.SlotFull)
      case Some(end) => (viewings[v := row.value.(start := start, end := end)], H.Moved(start, end))
  }

  function ServeOn(viewings: Viewings, t: TxId, req: Request, r: Reads): (Viewings, H.Answer)
    requires OnViewings(req)
  {
    match req
    case Book(actor, m, start) => BookOn(viewings, actor, m, start, t, r)
    case Reschedule(actor, v, start) => RescheduleOn(viewings, actor, v, start, r)
  }

  /** On the match row and the schedule of one database this is the whole handler. */
  lemma ServeOnIsBook(db: Db, actor: UserId, m: MatchId, start: int, now: int, id: ViewingId)
    ensures var row := H.LiveMatchRow(db.ledger, m);
      var r := Reads(row, if row.Some? then H.ListingAvailability(db.catalog, row.value.pair.listing) else None, now);
      var (viewings, a) := BookOn(db.viewings, actor, m, start, id, r);
      H.Book(db, actor, m, start, now, id) == (db.(viewings := viewings), a)
  {
  }

  lemma ServeOnIsReschedule(db: Db, actor: UserId, v: ViewingId, start: int, now: int)
    ensures var row := H.LiveViewing(db.viewings, v);
      var r := Reads(None, if row.Some? then H.ListingAvailability(db.catalog, row.value.pair.listing) else None, now);
      var (viewings, a) := RescheduleOn(db.viewings, actor, v, start, r);
      H.Reschedule(db, actor, v, start, now) == (db.(viewings := viewings), a)
  {
  }

  /** What `t` has read by its next statement, that statement included. */
  function ReadsOf(s: State, t: TxId, now: int): Reads
    requires t in s.txs
  {
    var tx := s.txs[t];
    match tx.pc
    case BMatch => Reads(if tx.req.Book? then H.LiveMatchRow(s.db.ledger, tx.req.matchId) else None, None, now)
    case BAvail(row) => Reads(Some(row), H.ListingAvailability(s.db.catalog, row.pair.listing), now)
    case BBooked(row, av) => Reads(Some(row), Some(av), now)
    case BInsert(row) =>
      if tx.claim.Some? then Reads(Some(row), Some(tx.claim.value.av), tx.claim.value.now)
          else Reads(Some(row), None, now)
    case RAvail(was) => Reads(None, H.ListingAvailability(s.db.catalog, was.pair.listing), now)
    case RBooked(_, av) => Reads(None, Some(av), now)
    case Commit(_) =>
      if tx.claim.Some? then Reads(RowWritten(tx), Some(tx.claim.value.av), tx.claim.value.now)
          else Reads(None, None, now)
    case _ => Reads(None, None, now)
  }

  /** The match row behind a booking about to be committed: it was on when it was read. */
  function RowWritten(tx: Tx): Option<MatchRow> {
    if |tx.writes| == 1 && tx.writes[0].InsertViewing? then
      var v := tx.writes[0].viewing;
      Some(MatchRow(v.pair, v.tenant, v.landlord, Active, false))
    else None
  }

  /** The transaction has no answer yet. */
  predicate Undecided(tx: Tx) { tx.Live() && !tx.pc.Rollback? }

  predicate Answered(tx: Tx) { tx.pc.Rollback? || tx.pc.Finished? }

  /** This step gives `t` its answer. */
  predicate Decided(s: State, s': State, t: TxId) {
    t in s.txs && t in s'.txs && Undecided(s.txs[t]) && Answered(s'.txs[t])
  }

  /** A step that decides does to the viewings what the request does alone; any other leaves them. */
  ghost predicate Serves(s: State, s': State, t: TxId, now: int)
    requires t in s.txs && OnViewings(s.txs[t].req)
  {
    && t in s'.txs && s'.txs[t].req == s.txs[t].req
    && (Decided(s, s', t) ==>
          ServeOn(s.db.viewings, t, s.txs[t].req, ReadsOf(s, t, now)) == (s'.db.viewings, s'.txs[t].pc.answer))
    && (!Decided(s, s', t) ==>
          && s'.db.viewings == s.db.viewings && (Undecided(s'.txs[t]) <==> Undecided(s.txs[t]))
          && (Answered(s'.txs[t]) ==> Answered(s.txs[t]) && s'.txs[t].pc.answer == s.txs[t].pc.answer))
    && (Undecided(s'.txs[t]) || s'.txs[t].ticket == s.txs[t].ticket)
  }

  // ---- the ways a statement can end ------------------------------------------------------

  lemma RefuseServes(s: State, t: TxId, a: H.Answer, now: int)
    requires t in s.txs && OnViewings(s.txs[t].req) && Undecided(s.txs[t])
    requires ServeOn(s.db.viewings, t, s.txs[t].req, ReadsOf(s, t, now)) == (s.db.viewings, a)
    ensures Serves(s, Refuse(s, t, a), t, now)
  {
  }

  lemma UpdateServes(s: State, s': State, t: TxId, now: int)
    requires t in s.txs && OnViewings(s.txs[t].req) && Undecided(s.txs[t])
    requires t in s'.txs && s'.db == s.db && s'.txs[t].req == s.txs[t].req && Undecided(s'.txs[t])
    ensures Serves(s, s', t, now)
  {
  }

  lemma FinishServes(s: State, s': State, t: TxId, now: int)
    requires t in s.txs && OnViewings(s.txs[t].req) && Undecided(s.txs[t])
    requires t in s'.txs && s'.txs[t] == s.txs[t].(pc := s'.txs[t].pc) && s'.txs[t].pc.Finished?
    requires ServeOn(s.db.viewings, t, s.txs[t].req, ReadsOf(s, t, now)) == (s'.db.viewings, s'.txs[t].pc.answer)
    ensures Serves(s, s', t, now)
  {
  }

  lemma ClaimStands(viewings: Viewings, c: SlotClaim)
    requires OnOffer(c) && Occupancy(viewings, c.listing, c.start) < c.capacity
    ensures OpenSlotEnd(c.av, c.now, BookedStarts(viewings, c.listing), c.start) == Some(c.end)
  {
    OpenSlotEndExact(c.av, c.now, map[], c.start);
    OpenSlotEndExact(c.av, c.now, BookedStarts(viewings, c.listing), c.start);
    BookedStartsCounts(viewings, c.listing, c.start);
  }

  lemma BookMatchServes(cfg: Config, s: State, t: TxId, now: int)
    requires t in s.txs && s.txs[t].req.Book? && s.txs[t].pc.BMatch? && BookOk(cfg, s, t, s.txs[t])
    ensures Serves(s, StepBook(cfg, s, t, now), t, now)
  {
    ApplyNone(s.db);
    var row := H.LiveMatchRow(s.db.ledger, s.txs[t].req.matchId);
    var no := H.BookRefusal(row, s.txs[t].req.actor);
    if no.Some? { RefuseServes(s, t, no.value, now); } else { UpdateServes(s, Goto(s, t, BLock(row.value)), t, now); }
  }

  lemma BookLockServes(cfg: Config, s: State, t: TxId, now: int)
    requires t in s.txs && s.txs[t].req.Book? && s.txs[t].pc.BLock?
    ensures Serves(s, StepBook(cfg, s, t, now), t, now)
  {
    UpdateServes(s, StepBook(cfg, s, t, now), t, now);
  }

  lemma BookAvailServes(cfg: Config, s: State, t: TxId, now: int)
    requires t in s.txs && s.txs[t].req.Book? && s.txs[t].pc.BAvail? && BookOk(cfg, s, t, s.txs[t])
    ensures Serves(s, StepBook(cfg, s, t, now), t, now)
  {
    ApplyNone(s.db);
    var row := s.txs[t].pc.row;
    var av := H.ListingAvailability(s.db.catalog, row.pair.listing);
    if av.None? {
      RefuseServes(s, t, H.Internal, now);
    } else {
      UpdateServes(s, Goto(s, t, BBooked(row, av.value)), t, now);
    }
  }

  lemma BookBookedServes(cfg: Config, s: State, t: TxId, now: int)
    requires t in s.txs && s.txs[t].req.Book? && s.txs[t].pc.BBooked? && BookOk(cfg, s, t, s.txs[t])
    ensures Serves(s, StepBook(cfg, s, t, now), t, now)
  {
    ApplyNone(s.db);
    var tx := s.txs[t];
    var BBooked(row, av) := tx.pc;
    var end := OpenSlotEnd(av, now, BookedStarts(s.db.viewings, row.pair.listing), tx.req.start);
    if end.None? { RefuseServes(s, t, H.SlotFull, now); } else { UpdateServes(s, StepBook(cfg, s, t, now), t, now); }
  }

  lemma BookInsertServes(cfg: Config, s: State, t: TxId, now: int)
    requires t in s.txs && s.txs[t].req.Book? && s.txs[t].pc.BInsert? && BookOk(cfg, s, t, s.txs[t])
    ensures Serves(s, StepBook(cfg, s, t, now), t, now)
  {
    ApplyNone(s.db);
    ClaimStands(s.db.viewings, s.txs[t].claim.value);
    if MatchHasViewing(s.db.viewings, s.txs[t].req.matchId) {
      RefuseServes(s, t, H.AlreadyBooked, now);
    } else {
      UpdateServes(s, StepBook(cfg, s, t, now), t, now);
    }
  }

  lemma BookCommitAnswer(cfg: Config, s: State, t: TxId, now: int)
    requires t in s.txs && s.txs[t].req.Book? && s.txs[t].pc.Commit? && BookOk(cfg, s, t, s.txs[t])
    ensures ServeOn(s.db.viewings, t, s.txs[t].req, ReadsOf(s, t, now))
         == (s.db.viewings[t := s.txs[t].writes[0].viewing], s.txs[t].pc.answer)
  {
    var tx := s.txs[t];
    ClaimStands(s.db.viewings, tx.claim.value);
    assert H.NewViewing(tx.req.matchId, RowWritten(tx).value, tx.req.start, tx.claim.value.end) == tx.writes[0].viewing;
  }

  lemma BookCommitServes(cfg: Config, s: State, t: TxId, now: int)
    requires Inv(cfg, s) && t in s.txs && s.txs[t].req.Book? && s.txs[t].pc.Commit?
    ensures Serves(s, StepEnd(s, t), t, now)
  {
    assert TxOk(cfg, s, t, s.txs[t]);
    BookCommitAnswer(cfg, s, t, now);
    BookCommits(cfg, s, t);
    CommitFrame(cfg, s, t);
    FinishServes(s, StepEnd(s, t), t, now);
  }

  lemma RescheduleRowServes(cfg: Config, s: State, t: TxId, now: int)
    requires t in s.txs && s.txs[t].req.Reschedule? && s.txs[t].pc.RRow? && RescheduleOk(cfg, s, t, s.txs[t])
    ensures Serves(s, StepReschedule(cfg, s, t, now), t, now)
  {
    ApplyNone(s.db);
    var v := s.txs[t].req.viewing;
    var row := H.LiveViewing(s.db.viewings, v);
    var no := H.ViewingRefusal(row, s.txs[t].req.actor);
    if row.None? {
      RefuseServes(s, t, H.NotFound, now);
    } else if FreeFor(s.rows, v, t) && no.Some? {
      RefuseServes(s.(rows := s.rows[v := t]), t, no.value, now);
    } else {
      UpdateServes(s, StepReschedule(cfg, s, t, now), t, now);
    }
  }

  lemma RescheduleLockServes(cfg: Config, s: State, t: TxId, now: int)
    requires t in s.txs && s.txs[t].req.Reschedule? && s.txs[t].pc.RLock?
    ensures Serves(s, StepReschedule(cfg, s, t, now), t, now)
  {
    UpdateServes(s, StepReschedule(cfg, s, t, now), t, now);
  }

  lemma RescheduleAvailServes(cfg: Config, s: State, t: TxId, now: int)
    requires t in s.txs && s.txs[t].req.Reschedule? && s.txs[t].pc.RAvail? && RescheduleOk(cfg, s, t, s.txs[t])
    ensures Serves(s, StepReschedule(cfg, s, t, now), t, now)
  {
    ApplyNone(s.db);
    var was := s.txs[t].pc.was;
    var av := H.ListingAvailability(s.db.catalog, was.pair.listing);
    if av.None? {
      RefuseServes(s, t, H.Internal, now);
    } else {
      UpdateServes(s, Goto(s, t, RBooked(was, av.value)), t, now);
    }
  }

  lemma RescheduleBookedServes(cfg: Config, s: State, t: TxId, now: int)
    requires t in s.txs && s.txs[t].req.Reschedule? && s.txs[t].pc.RBooked? && RescheduleOk(cfg, s, t, s.txs[t])
    ensures Serves(s, StepReschedule(cfg, s, t, now), t, now)
  {
    ApplyNone(s.db);
    var tx := s.txs[t];
    var RBooked(was, av) := tx.pc;
    var end := OpenSlotEnd(av, now, BookedStarts(s.db.viewings, was.pair.listing), tx.req.start);
    if end.None? {
      RefuseServes(s, t, H.SlotFull, now);
    } else {
      UpdateServes(s, StepReschedule(cfg, s, t, now), t, now);
    }
  }

  lemma RescheduleUpdateServes(cfg: Config, s: State, t: TxId, now: int)
    requires t in s.txs && s.txs[t].req.Reschedule? && s.txs[t].pc.RUpdate? && RescheduleOk(cfg, s, t, s.txs[t])
    ensures Serves(s, StepReschedule(cfg, s, t, now), t, now)
  {
    UpdateServes(s, StepReschedule(cfg, s, t, now), t, now);
  }

  /** The viewings with one moved. */
  function MovedTo(viewings: Viewings, v: ViewingId, c: SlotClaim): Viewings {
    if v in viewings then viewings[v := viewings[v].(start := c.start, end := c.end)] else viewings
  }

  lemma RescheduleCommitAnswer(cfg: Config, s: State, t: TxId, now: int)
    requires t in s.txs && s.txs[t].req.Reschedule? && s.txs[t].pc.Commit? && RescheduleOk(cfg, s, t, s.txs[t])
    ensures ServeOn(s.db.viewings, t, s.txs[t].req, ReadsOf(s, t, now))
         == (MovedTo(s.db.viewings, s.txs[t].req.viewing, s.txs[t].claim.value), s.txs[t].pc.answer)
  {
    ClaimStands(s.db.viewings, s.txs[t].claim.value);
  }

  lemma RescheduleCommitEnds(cfg: Config, s: State, t: TxId)
    requires Inv(cfg, s) && t in s.txs && s.txs[t].req.Reschedule? && s.txs[t].pc.Commit?
    ensures var s' := StepEnd(s, t);
      && t in s'.txs && s'.txs[t] == s.txs[t].(pc := Finished(s.txs[t].pc.answer)) && s.txs[t].claim.Some?
      && s'.db.viewings == MovedTo(s.db.viewings, s.txs[t].req.viewing, s.txs[t].claim.value)
  {
    assert TxOk(cfg, s, t, s.txs[t]);
    RescheduleCommits(cfg, s, t);
    CommitFrame(cfg, s, t);
  }

  lemma RescheduleCommitServes(cfg: Config, s: State, t: TxId, now: int)
    requires Inv(cfg, s) && t in s.txs && s.txs[t].req.Reschedule? && s.txs[t].pc.Commit?
    ensures Serves(s, StepEnd(s, t), t, now)
  {
    assert TxOk(cfg, s, t, s.txs[t]);
    RescheduleCommitAnswer(cfg, s, t, now);
    RescheduleCommitEnds(cfg, s, t);
    CommittedServes(s, t, now, MovedTo(s.db.viewings, s.txs[t].req.viewing, s.txs[t].claim.value));
  }

  lemma CommittedServes(s: State, t: TxId, now: int, viewings: Viewings)
    requires t in s.txs && OnViewings(s.txs[t].req) && s.txs[t].pc.Commit?
    requires ServeOn(s.db.viewings, t, s.txs[t].req, ReadsOf(s, t, now)) == (viewings, s.txs[t].pc.answer)
    requires t in StepEnd(s, t).txs && StepEnd(s, t).txs[t] == s.txs[t].(pc := Finished(s.txs[t].pc.answer))
    requires StepEnd(s, t).db.viewings == viewings
    ensures Serves(s, StepEnd(s, t), t, now)
  {
    FinishServes(s, StepEnd(s, t), t, now);
  }

  lemma RollbackServes(s: State, t: TxId, now: int)
    requires t in s.txs && OnViewings(s.txs[t].req) && s.txs[t].pc.Rollback?
    ensures Serves(s, StepEnd(s, t), t, now)
  {
  }

  lemma BookServes(cfg: Config, s: State, t: TxId, now: int)
    requires t in s.txs && s.txs[t].req.Book? && BookOk(cfg, s, t, s.txs[t]) && Undecided(s.txs[t])
    requires !s.txs[t].pc.Commit?
    ensures Serves(s, StepBook(cfg, s, t, now), t, now)
  {
    if s.txs[t].pc.BMatch? { BookMatchServes(cfg, s, t, now); }
    else if s.txs[t].pc.BLock? { BookLockServes(cfg, s, t, now); }
    else if s.txs[t].pc.BAvail? { BookAvailServes(cfg, s, t, now); }
    else if s.txs[t].pc.BBooked? { BookBookedServes(cfg, s, t, now); }
    else { BookInsertServes(cfg, s, t, now); }
  }

  lemma RescheduleServes(cfg: Config, s: State, t: TxId, now: int)
    requires t in s.txs && s.txs[t].req.Reschedule? && RescheduleOk(cfg, s, t, s.txs[t]) && Undecided(s.txs[t])
    requires !s.txs[t].pc.Commit?
    ensures Serves(s, StepReschedule(cfg, s, t, now), t, now)
  {
    if s.txs[t].pc.RRow? { RescheduleRowServes(cfg, s, t, now); }
    else if s.txs[t].pc.RLock? { RescheduleLockServes(cfg, s, t, now); }
    else if s.txs[t].pc.RAvail? { RescheduleAvailServes(cfg, s, t, now); }
    else if s.txs[t].pc.RBooked? { RescheduleBookedServes(cfg, s, t, now); }
    else { RescheduleUpdateServes(cfg, s, t, now); }
  }

  /** In every state that satisfies the invariant, a deciding statement is the whole request run alone. */
  lemma StatementServes(cfg: Config, s: State, t: TxId, now: int)
    requires cfg.serialize && Inv(cfg, s) && t in s.txs && OnViewings(s.txs[t].req)
    ensures Serves(s, StepTx(cfg, s, t, now), t, now)
  {
    assert TxOk(cfg, s, t, s.txs[t]);
    if s.txs[t].pc.Rollback? {
      RollbackServes(s, t, now);
    } else if s.txs[t].pc.Commit? {
      if s.txs[t].req.Book? { BookCommitServes(cfg, s, t, now); } else { RescheduleCommitServes(cfg, s, t, now); }
    } else if !s.txs[t].Live() {
      FinishedStays(cfg, s, t, now);
    } else if s.txs[t].req.Book? {
      BookServes(cfg, s, t, now);
    } else {
      RescheduleServes(cfg, s, t, now);
    }
  }

  // ---- what happens to the viewings, in order ------------------------------------------------

  /** The slot whose lock an undecided booking or rescheduling holds. */
  function HeldSlot(tx: Tx): Option<LockName> {
    match tx.pc
    case BAvail(row) => SlotOf(tx.req, row.pair.listing)
    case BBooked(row, _) => SlotOf(tx.req, row.pair.listing)
    case BInsert(row) => SlotOf(tx.req, row.pair.listing)
    case RAvail(was) => SlotOf(tx.req, was.pair.listing)
    case RBooked(was, _) => SlotOf(tx.req, was.pair.listing)
    case RUpdate(was) => SlotOf(tx.req, was.pair.listing)
    case Commit(_) => if tx.claim.Some? then SlotOf(tx.req, tx.claim.value.listing) else None
    case _ => None
  }

  function SlotOf(req: Request, l: ListingId): Option<LockName> {
    if OnViewings(req) then Some(OnSlot(l, req.start)) else None
  }

  /**
   A decided request with the slot it had locked and when, or a row that a cancellation or another handler ends
   or deletes.
   */
  datatype Change =
    | Done(tx: TxId, req: Request, read: Reads, slot: Option<LockName>, ticket: nat, answer: H.Answer)
    | Stored(v: ViewingId, row: ViewingRow)

  function Touched(s: State, e: Event): ViewingId {
    match e
    case Run(t, _) => if t in s.txs && s.txs[t].req.Cancel? then s.txs[t].req.viewing else 0
    case RentViewing(v) => v
    case PurgeViewing(_, v) => v
    case AttendViewing(_, v) => v
    case _ => 0
  }

  predicate RunsViewing(s: State, e: Event) { e.Run? && e.t in s.txs && OnViewings(s.txs[e.t].req) }

  /** The record of a deciding step. */
  function Decision(s: State, s': State, t: TxId, now: int): Change
    requires Decided(s, s', t)
  {
    Done(t, s.txs[t].req, ReadsOf(s, t, now), HeldSlot(s.txs[t]), s.txs[t].ticket, s'.txs[t].pc.answer)
  }

  ghost function ChangeAt(cfg: Config, s: State, e: Event): seq<Change> {
    var s', v := Step(cfg, s, e), Touched(s, e);
    if RunsViewing(s, e) then
      if Decided(s, s', e.t) then [Decision(s, s', e.t, e.now)] else []
    else if s'.db.viewings == s.db.viewings || v !in s'.db.viewings then []
    else [Stored(v, s'.db.viewings[v])]
  }

  ghost function Changes(cfg: Config, s: State, es: seq<Event>): seq<Change> {
    if es == [] then []
    else
      var before := es[..|es| - 1];
      Changes(cfg, s, before) + ChangeAt(cfg, Execute(cfg, s, before), es[|es| - 1])
  }

  function ApplyChange(viewings: Viewings, c: Change): Viewings {
    match c
    case Done(t, req, read, _, _, _) => if OnViewings(req) then ServeOn(viewings, t, req, read).0 else viewings
    case Stored(v, row) => viewings[v := row]
  }

  function Replay(viewings: Viewings, cs: seq<Change>): Viewings {
    if cs == [] then viewings else ApplyChange(Replay(viewings, cs[..|cs| - 1]), cs[|cs| - 1])
  }

  /** A row changes status or is deleted where it stands, and does not come to take up room. */
  ghost predicate EndsViewing(viewings: Viewings, v: ViewingId, row: ViewingRow) {
    && v in viewings && row == viewings[v].(status := row.status, deleted := row.deleted)
    && (row.Occupies() ==> viewings[v].Occupies()) && (row.status == Confirmed ==> viewings[v].status == Confirmed)
    && (viewings[v].Ended() ==> row.Ended()) && (viewings[v].deleted ==> row.deleted)
  }

  /** The change is what its request does alone, or what other handlers do. */
  ghost predicate ChangeOk(viewings: Viewings, c: Change) {
    match c
    case Done(t, req, read, _, _, a) => OnViewings(req) && ServeOn(viewings, t, req, read).1 == a
    case Stored(v, row) => EndsViewing(viewings, v, row)
  }

  ghost predicate ChangesOk(viewings: Viewings, cs: seq<Change>) {
    forall i | 0 <= i < |cs| :: ChangeOk(Replay(viewings, cs[..i]), cs[i])
  }

  lemma ReplayMore(viewings: Viewings, cs: seq<Change>, c: Change)
    requires ChangesOk(viewings, cs) && ChangeOk(Replay(viewings, cs), c)
    ensures ChangesOk(viewings, cs + [c]) && Replay(viewings, cs + [c]) == ApplyChange(Replay(viewings, cs), c)
  {
    var ds := cs + [c];
    assert ds[..|cs|] == cs;
    forall i | 0 <= i < |ds| ensures ChangeOk(Replay(viewings, ds[..i]), ds[i]) {
      if i < |cs| { assert ds[..i] == cs[..i]; }
    }
  }

  /** At most one change more. */
  lemma ReplayStep(viewings: Viewings, cs: seq<Change>, c: seq<Change>, after: Viewings)
    requires ChangesOk(viewings, cs) && |c| <= 1 && (c == [] ==> after == Replay(viewings, cs))
    requires c != [] ==> ChangeOk(Replay(viewings, cs), c[0]) && after == ApplyChange(Replay(viewings, cs), c[0])
    ensures ChangesOk(viewings, cs + c) && Replay(viewings, cs + c) == after
  {
    if c == [] {
      assert cs + c == cs;
    } else {
      assert c == [c[0]];
      ReplayMore(viewings, cs, c[0]);
    }
  }

  // ---- the events that are not statements of a booking or rescheduling -------------------------

  /** The viewings stand, or one row ends. */
  ghost predicate OnlyEnds(s: State, s': State, v: ViewingId) {
    s'.db.viewings == s.db.viewings
    || (v in s'.db.viewings && s'.db.viewings == s.db.viewings[v := s'.db.viewings[v]]
         && EndsViewing(s.db.viewings, v, s'.db.viewings[v]))
  }

  lemma CancelOnlyEnds(s: State, t: TxId)
    requires t in s.txs && s.txs[t].req.Cancel? && CancelOk(s.txs[t])
    ensures OnlyEnds(s, StepCancel(s, t), s.txs[t].req.viewing)
  {
    var v := s.txs[t].req.viewing;
    if s.txs[t].pc.CUpdate? && H.LiveViewing(s.db.viewings, v).Some? && v !in s.rows {
      assert StepCancel(s, t).db.viewings == s.db.viewings[v := s.db.viewings[v].(status := s.txs[t].pc.to)];
    }
  }

  lemma RunOnlyEnds(cfg: Config, s: State, t: TxId, now: int)
    requires cfg.serialize && Inv(cfg, s) && t in s.txs && !OnViewings(s.txs[t].req)
    ensures OnlyEnds(s, StepTx(cfg, s, t, now), Touched(s, Run(t, now)))
  {
    assert TxOk(cfg, s, t, s.txs[t]);
    if s.txs[t].pc.Rollback? {
    } else if s.txs[t].req.Cancel? {
      CancelOnlyEnds(s, t);
    } else if s.txs[t].pc.Commit? {
      CommitTables(cfg, s, t);
    } else {
      StatementQuiet(cfg, s, t, now);
    }
  }

  lemma RowEventOnlyEnds(cfg: Config, s: State, e: Event)
    requires e.OnViewing()
    ensures OnlyEnds(s, Step(cfg, s, e), e.v)
  {
    ViewingEventSteps(cfg, s, e);
  }

  lemma OtherOnlyEnds(cfg: Config, s: State, e: Event)
    requires cfg.serialize && Inv(cfg, s) && !RunsViewing(s, e)
    ensures OnlyEnds(s, Step(cfg, s, e), Touched(s, e))
  {
    if e.Run? {
      if e.t in s.txs { RunOnlyEnds(cfg, s, e.t, e.now); }
    } else if e.OnViewing() {
      RowEventOnlyEnds(cfg, s, e);
    } else {
      OthersKeepViewings(cfg, s, e);
    }
  }

  /** One event is one change, or none. */
  lemma StepChanges(cfg: Config, s: State, e: Event)
    requires cfg.serialize && Inv(cfg, s)
    ensures var cs, s' := ChangeAt(cfg, s, e), Step(cfg, s, e);
      && |cs| <= 1 && (cs == [] ==> s'.db.viewings == s.db.viewings)
      && (cs != [] ==> ChangeOk(s.db.viewings, cs[0]) && s'.db.viewings == ApplyChange(s.db.viewings, cs[0]))
  {
    if RunsViewing(s, e) {
      StatementServes(cfg, s, e.t, e.now);
    } else {
      OtherOnlyEnds(cfg, s, e);
    }
  }

  lemma {:induction false} RunChanges(cfg: Config, s: State, es: seq<Event>)
    requires cfg.serialize && Initial(s)
    ensures var m, cs := Execute(cfg, s, es), Changes(cfg, s, es);
      Inv(cfg, m) && Replay(s.db.viewings, cs) == m.db.viewings && ChangesOk(s.db.viewings, cs)
  {
    Invariant(cfg, s, es);
    if es != [] {
      var before, e := es[..|es| - 1], es[|es| - 1];
      RunChanges(cfg, s, before);
      var m, cs := Execute(cfg, s, before), Changes(cfg, s, before);
      StepChanges(cfg, m, e);
      ReplayStep(s.db.viewings, cs, ChangeAt(cfg, m, e), Step(cfg, m, e).db.viewings);
    }
  }

  // ---- who is in the record ---------------------------------------------------------------------

  ghost predicate Recorded(cs: seq<Change>, t: TxId, req: Request, a: H.Answer) {
    exists i :: 0 <= i < |cs| && cs[i].Done? && cs[i].tx == t && cs[i].req == req && cs[i].answer == a
  }

  /** A request of the run that has its answer, or died after its refusal. */
  ghost predicate ChangeOf(m: State, c: Change)
    requires c.Done?
  {
    && c.tx in m.txs && m.txs[c.tx].req == c.req && m.txs[c.tx].ticket == c.ticket
    && OnViewings(c.req) && !Undecided(m.txs[c.tx])
  }

  ghost predicate RecordOk(m: State, cs: seq<Change>) {
    && (forall i | 0 <= i < |cs| && cs[i].Done? :: ChangeOf(m, cs[i]))
    && (forall i, j | 0 <= i < j < |cs| && cs[i].Done? && cs[j].Done? :: cs[i].tx != cs[j].tx)
    && (forall t <- m.txs :: OnViewings(m.txs[t].req) && Answered(m.txs[t]) ==>
          Recorded(cs, t, m.txs[t].req, m.txs[t].pc.answer))
  }

  /** Transactions other than the one that moves stand; a new one is undecided; a dead one has no answer. */
  ghost predicate OthersStand(s: State, s': State, e: Event) {
    && (forall u <- s.txs :: u in s'.txs && s'.txs[u].req == s.txs[u].req
          && (((e.Run? || e.Crash?) && e.t == u) || s'.txs[u] == s.txs[u]))
    && (forall u <- s'.txs :: u in s.txs || Undecided(s'.txs[u]))
    && (e.Crash? && e.t in s.txs ==> s'.txs[e.t] in {s.txs[e.t], s.txs[e.t].(pc := Crashed)})
  }

  lemma CancelOthersStand(s: State, t: TxId)
    requires t in s.txs && s.txs[t].req.Cancel?
    ensures t in StepCancel(s, t).txs && StepCancel(s, t).txs[t].req == s.txs[t].req
    ensures StepCancel(s, t).txs == s.txs[t := StepCancel(s, t).txs[t]]
  {
    assert s.txs == s.txs[t := s.txs[t]];
  }

  lemma RunOthersStand(cfg: Config, s: State, t: TxId, now: int)
    requires cfg.serialize && Inv(cfg, s) && t in s.txs
    ensures OthersStand(s, StepTx(cfg, s, t, now), Run(t, now))
  {
    assert TxOk(cfg, s, t, s.txs[t]);
    if s.txs[t].pc.Commit? {
      CommitFrame(cfg, s, t);
    } else if s.txs[t].pc.Rollback? {
    } else if s.txs[t].req.Cancel? {
      CancelOthersStand(s, t);
    } else {
      StatementQuiet(cfg, s, t, now);
    }
  }

  lemma BeginOthersStand(cfg: Config, s: State, e: Event)
    requires e.Begin? || e.Crash?
    ensures OthersStand(s, Step(cfg, s, e), e)
  {
  }

  lemma StepOthersStand(cfg: Config, s: State, e: Event)
    requires cfg.serialize && Inv(cfg, s)
    ensures OthersStand(s, Step(cfg, s, e), e)
  {
    if e.Run? {
      if e.t in s.txs { RunOthersStand(cfg, s, e.t, e.now); }
    } else if e.Begin? || e.Crash? {
      BeginOthersStand(cfg, s, e);
    } else {
      OutsideEvent(cfg, s, e);
    }
  }

  /** An answer stays in a record that grows. */
  lemma RecordedMore(cs: seq<Change>, ds: seq<Change>, t: TxId, req: Request, a: H.Answer)
    requires Recorded(cs, t, req, a)
    ensures Recorded(cs + ds, t, req, a)
  {
    var i :| 0 <= i < |cs| && cs[i].Done? && cs[i].tx == t && cs[i].req == req && cs[i].answer == a;
    assert (cs + ds)[i] == cs[i];
  }

  lemma StepRecords(cfg: Config, s: State, e: Event, cs: seq<Change>)
    requires cfg.serialize && Inv(cfg, s) && RecordOk(s, cs)
    ensures RecordOk(Step(cfg, s, e), cs + ChangeAt(cfg, s, e))
  {
    StepOthersStand(cfg, s, e);
    if RunsViewing(s, e) {
      StatementServes(cfg, s, e.t, e.now);
      RunRecords(s, Step(cfg, s, e), e, cs, ChangeAt(cfg, s, e));
    } else {
      OtherRecords(s, Step(cfg, s, e), e, cs, ChangeAt(cfg, s, e));
    }
  }

  lemma OtherRecords(s: State, s': State, e: Event, cs: seq<Change>, c: seq<Change>)
    requires RecordOk(s, cs) && OthersStand(s, s', e) && !RunsViewing(s, e)
    requires c == [] || (|c| == 1 && c[0].Stored?)
    ensures RecordOk(s', cs + c)
  {
    var ds := cs + c;
    forall i | 0 <= i < |ds| && ds[i].Done? ensures i < |cs| && ChangeOf(s', ds[i]) {
      assert ds[i] == cs[i] && ChangeOf(s, cs[i]);
    }
    forall t <- s'.txs | OnViewings(s'.txs[t].req) && Answered(s'.txs[t])
      ensures Recorded(ds, t, s'.txs[t].req, s'.txs[t].pc.answer)
    {
      assert t in s.txs && s'.txs[t] == s.txs[t];
      RecordedMore(cs, c, t, s.txs[t].req, s.txs[t].pc.answer);
    }
  }

  lemma RunRecords(s: State, s': State, e: Event, cs: seq<Change>, c: seq<Change>)
    requires RecordOk(s, cs) && OthersStand(s, s', e) && RunsViewing(s, e) && Serves(s, s', e.t, e.now)
    requires c == if Decided(s, s', e.t) then [Decision(s, s', e.t, e.now)] else []
    ensures RecordOk(s', cs + c)
  {
    var ds := cs + c;
    forall i | 0 <= i < |cs| && cs[i].Done? ensures ChangeOf(s', cs[i]) && (Decided(s, s', e.t) ==> cs[i].tx != e.t) {
      assert ChangeOf(s, cs[i]);
    }
    forall t <- s'.txs | OnViewings(s'.txs[t].req) && Answered(s'.txs[t])
      ensures Recorded(ds, t, s'.txs[t].req, s'.txs[t].pc.answer)
    {
      if t == e.t && Decided(s, s', t) {
        assert ds[|cs|] == c[0];
      } else {
        assert t in s.txs && Answered(s.txs[t]) && s'.txs[t].pc.answer == s.txs[t].pc.answer;
        RecordedMore(cs, c, t, s.txs[t].req, s.txs[t].pc.answer);
      }
    }
  }

  lemma {:induction false} RunRecorded(cfg: Config, s: State, es: seq<Event>)
    requires cfg.serialize && Initial(s)
    ensures RecordOk(Execute(cfg, s, es), Changes(cfg, s, es))
  {
    if es != [] {
      var before := es[..|es| - 1];
      RunRecorded(cfg, s, before);
      Invariant(cfg, s, before);
      StepRecords(cfg, Execute(cfg, s, before), es[|es| - 1], Changes(cfg, s, before));
    }
  }
}
