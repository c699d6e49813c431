/** What a commit rests on: in every interleaved run, the rows that allowed it said so when its transaction looked. */
module Grounds {
  import opened Base
  import opened Slots
  import opened Schema
  import H = Handlers
  import M = Meanings
  import opened Protocol
  import opened ProtocolInvariant
  import opened ProtocolSafety
  import Bookings
  import Scheduling
  import Races
  import Renting

  /** The tables after the first `i` events. */
  function Then(cfg: Config, s: State, es: seq<Event>, i: nat): Db
    requires i <= |es|
  {
    Execute(cfg, s, es[..i]).db
  }

  // ---- what a transaction rests on ------------------------------------------------------

  /** What a statement found in the tables. */
  datatype Fact =
    | ProfileOk(actor: UserId, pair: Pair, role: Role)
    | ListingOk(actor: UserId, pair: Pair, role: Role)
    | NoBlock(pair: Pair)
    | OwnSide(actor: UserId, pair: Pair, role: Role)
    | Schedule(listing: ListingId, av: Availability)
    | Room(claim: SlotClaim)
    | MayCancel(actor: UserId, viewing: ViewingId, to: ViewingStatus)

  /** It is so in these tables, at this time. */
  ghost predicate Holds(db: Db, now: int, f: Fact) {
    match f
    case ProfileOk(actor, pair, role) => M.ProfilePasses(db.catalog, actor, pair, role)
    case ListingOk(actor, pair, role) => M.ListingPasses(db.catalog, actor, pair, role)
    case NoBlock(pair) =>
      && pair.profile in db.catalog.profiles && pair.listing in db.catalog.listings
      && !M.OwnersBlocked(db.catalog, pair)
    case OwnSide(actor, pair, role) =>
      M.SideThere(db.catalog, pair, role) && M.OwnsSide(db.catalog, actor, pair, role)
    case Schedule(l, av) => M.ListingThere(db.catalog, l) && db.catalog.listings[l].availability == av
    case Room(c) => c.now == now && InTime(c) && M.RoomIn(db.viewings, c.av, c.listing, c.start)
    case MayCancel(actor, v, to) =>
      && M.MayMove(db.viewings, v, actor)
      && to == if db.viewings[v].landlord == actor then CancelledLandlord else Cancelled
  }

  /** The slot is later than the claim's clock, on its schedule, and ends one slot length later. */
  ghost predicate InTime(c: SlotClaim) {
    c.start > c.now && Scheduled(c.av, c.now, c.start) && c.end == c.start + 60 * c.av.slotMinutes
  }

  /** The `i`th event is a statement of the transaction, and found it so. */
  ghost predicate FoundAt(cfg: Config, s: State, es: seq<Event>, t: TxId, f: Fact, i: nat)
    requires i < |es|
  {
    es[i].Run? && es[i].t == t && Holds(Then(cfg, s, es, i), es[i].now, f)
  }

  /** One of the transaction's statements found it so. */
  ghost predicate Found(cfg: Config, s: State, es: seq<Event>, t: TxId, f: Fact) {
    exists i: nat :: i < |es| && FoundAt(cfg, s, es, t, f, i)
  }

  predicate PastBlocks(pc: Pc) { pc.XUpsert? || pc.XCounter? || pc.XInsert? || pc.XContact? || pc.Commit? }

  predicate PastListing(pc: Pc) { pc.XBlocks? || PastBlocks(pc) }

  predicate PastProfile(pc: Pc) { pc.XListing? || PastListing(pc) }

  predicate PastOwner(pc: Pc) { pc.WMatched? || pc.WUpdate? || pc.Commit? }

  predicate PastClaim(pc: Pc) { pc.BInsert? || pc.RUpdate? || pc.Commit? }

  /** The schedule that is read and not yet used. */
  function ReadSchedule(pc: Pc): Option<Fact> {
    if pc.BBooked? then Some(Schedule(pc.row.pair.listing, pc.av))
    else if pc.RBooked? then Some(Schedule(pc.was.pair.listing, pc.av)) else None
  }

  /** What the transaction has found so far and goes on from. */
  predicate RestsOn(tx: Tx, f: Fact) {
    match tx.req
    case Express(actor, pair, role) =>
      || (PastProfile(tx.pc) && f == ProfileOk(actor, pair, role))
      || (PastListing(tx.pc) && f == ListingOk(actor, pair, role))
      || (PastBlocks(tx.pc) && f == NoBlock(pair))
    case Withdraw(actor, pair, role) => PastOwner(tx.pc) && f == OwnSide(actor, pair, role)
    case Cancel(actor, v) => tx.pc.CUpdate? && f == MayCancel(actor, v, tx.pc.to)
    case _ =>
      || Some(f) == ReadSchedule(tx.pc)
      || (PastClaim(tx.pc) && tx.claim.Some?
           && f in {Schedule(tx.claim.value.listing, tx.claim.value.av), Room(tx.claim.value)})
  }

  ghost predicate Grounded(cfg: Config, s: State, es: seq<Event>, t: TxId, tx: Tx) {
    forall f: Fact :: RestsOn(tx, f) ==> Found(cfg, s, es, t, f)
  }

  // ---- a longer run has found what a shorter one had ----------------------------------------

  lemma FoundStays(cfg: Config, s: State, es: seq<Event>, e: Event, t: TxId, f: Fact)
    requires Found(cfg, s, es, t, f)
    ensures Found(cfg, s, es + [e], t, f)
  {
    var i: nat :| i < |es| && FoundAt(cfg, s, es, t, f, i);
    assert (es + [e])[..i] == es[..i];
    assert FoundAt(cfg, s, es + [e], t, f, i);
  }

  lemma FoundNow(cfg: Config, s: State, es: seq<Event>, t: TxId, now: int, f: Fact)
    requires Holds(Execute(cfg, s, es).db, now, f)
    ensures Found(cfg, s, es + [Run(t, now)], t, f)
  {
    assert (es + [Run(t, now)])[..|es|] == es;
    assert FoundAt(cfg, s, es + [Run(t, now)], t, f, |es|);
  }

  lemma GroundStays(cfg: Config, s: State, es: seq<Event>, e: Event, t: TxId, tx: Tx)
    requires Grounded(cfg, s, es, t, tx)
    ensures Grounded(cfg, s, es + [e], t, tx)
  {
    forall f: Fact | RestsOn(tx, f) ensures Found(cfg, s, es + [e], t, f) { FoundStays(cfg, s, es, e, t, f); }
  }

  // ---- one statement --------------------------------------------------------------------------

  /** What the transaction rests on after the statement it did before, or the statement finds it so. */
  ghost predicate Finds(s: State, s': State, t: TxId, now: int)
    requires t in s.txs
  {
    && t in s'.txs && s'.txs[t].req == s.txs[t].req
    && forall f: Fact :: RestsOn(s'.txs[t], f) ==> RestsOn(s.txs[t], f) || Holds(s.db, now, f)
  }

  lemma FindsGround(cfg: Config, s: State, es: seq<Event>, s': State, t: TxId, now: int)
    requires var m := Execute(cfg, s, es);
      t in m.txs && Finds(m, s', t, now) && Grounded(cfg, s, es, t, m.txs[t])
    ensures Grounded(cfg, s, es + [Run(t, now)], t, s'.txs[t])
  {
    var m := Execute(cfg, s, es);
    forall f: Fact | RestsOn(s'.txs[t], f) ensures Found(cfg, s, es + [Run(t, now)], t, f) {
      if RestsOn(m.txs[t], f) { FoundStays(cfg, s, es, Run(t, now), t, f); } else { FoundNow(cfg, s, es, t, now, f); }
    }
  }

  lemma ExpressLockFinds(cfg: Config, s: State, t: TxId, now: int)
    requires t in s.txs && s.txs[t].req.Express? && s.txs[t].pc.XLock?
    ensures Finds(s, StepExpress(cfg, s, t), t, now)
  {
  }

  lemma ExpressProfileFinds(cfg: Config, s: State, t: TxId, now: int)
    requires t in s.txs && s.txs[t].req.Express? && s.txs[t].pc.XProfile? && s.txs[t].writes == []
    ensures Finds(s, StepExpress(cfg, s, t), t, now)
  {
    ApplyNone(s.db);
  }

  lemma ExpressListingFinds(cfg: Config, s: State, t: TxId, now: int)
    requires t in s.txs && s.txs[t].req.Express? && s.txs[t].pc.XListing? && s.txs[t].writes == []
    ensures Finds(s, StepExpress(cfg, s, t), t, now)
  {
    ApplyNone(s.db);
  }

  lemma ExpressBlocksFinds(cfg: Config, s: State, t: TxId, now: int)
    requires t in s.txs && s.txs[t].req.Express? && s.txs[t].pc.XBlocks? && s.txs[t].writes == []
    requires SeenOwnersOk(s.db.catalog, s.txs[t].seen, s.txs[t].req.pair)
    ensures Finds(s, StepExpress(cfg, s, t), t, now)
  {
    ApplyNone(s.db);
    var pair, c := s.txs[t].req.pair, s.db.catalog;
    if pair.profile in c.profiles && pair.listing in c.listings { M.BlockedMeans(c, pair); }
  }

  /** Once everything is found the rest of the transaction finds nothing new. */
  lemma LaterFinds(cfg: Config, s: State, t: TxId, now: int)
    requires cfg.serialize && Inv(cfg, s) && t in s.txs && s.txs[t].req.OnLedger()
    requires !s.txs[t].pc.Commit? && !s.txs[t].pc.Rollback?
    requires s.txs[t].Live() ==> if s.txs[t].req.Express? then PastBlocks(s.txs[t].pc) else PastOwner(s.txs[t].pc)
    ensures Finds(s, StepTx(cfg, s, t, now), t, now)
  {
    StatementQuiet(cfg, s, t, now);
    if !s.txs[t].Live() { FinishedStays(cfg, s, t, now); }
  }

  lemma WithdrawLockFinds(cfg: Config, s: State, t: TxId, now: int)
    requires t in s.txs && s.txs[t].req.Withdraw? && s.txs[t].pc.WLock?
    ensures Finds(s, StepWithdraw(cfg, s, t), t, now)
  {
  }

  lemma WithdrawOwnerFinds(cfg: Config, s: State, t: TxId, now: int)
    requires t in s.txs && s.txs[t].req.Withdraw? && s.txs[t].pc.WOwner? && s.txs[t].writes == []
    ensures Finds(s, StepWithdraw(cfg, s, t), t, now)
  {
    ApplyNone(s.db);
  }

  lemma ClaimFinds(s: State, l: ListingId, av: Availability, start: int, now: int)
    requires OpenSlotEnd(av, now, BookedStarts(s.db.viewings, l), start).Some?
    ensures var end := OpenSlotEnd(av, now, BookedStarts(s.db.viewings, l), start).value;
      Holds(s.db, now, Room(Claiming(l, start, end, av, now)))
  {
    OpenSlotEndMeans(av, now, BookedStarts(s.db.viewings, l), start);
    M.RoomIs(s.db.viewings, av, l, start);
  }

  lemma BookLockFinds(cfg: Config, s: State, t: TxId, now: int)
    requires t in s.txs && s.txs[t].req.Book? && (s.txs[t].pc.BMatch? || s.txs[t].pc.BLock?)
    ensures Finds(s, StepBook(cfg, s, t, now), t, now)
  {
  }

  lemma BookScheduleFinds(cfg: Config, s: State, t: TxId, now: int)
    requires t in s.txs && s.txs[t].req.Book? && s.txs[t].pc.BAvail? && s.txs[t].writes == []
    ensures Finds(s, StepBook(cfg, s, t, now), t, now)
  {
    ApplyNone(s.db);
  }

  lemma BookCountFinds(cfg: Config, s: State, t: TxId, now: int)
    requires t in s.txs && s.txs[t].req.Book? && s.txs[t].pc.BBooked? && s.txs[t].writes == []
    ensures Finds(s, StepBook(cfg, s, t, now), t, now)
  {
    ApplyNone(s.db);
    var tx, l := s.txs[t], s.txs[t].pc.row.pair.listing;
    if OpenSlotEnd(tx.pc.av, now, BookedStarts(s.db.viewings, l), tx.req.start).Some? {
      ClaimFinds(s, l, tx.pc.av, tx.req.start, now);
    }
  }

  lemma BookInsertFinds(cfg: Config, s: State, t: TxId, now: int)
    requires t in s.txs && s.txs[t].req.Book? && s.txs[t].pc.BInsert?
    ensures Finds(s, StepBook(cfg, s, t, now), t, now)
  {
  }

  lemma RescheduleRowFinds(cfg: Config, s: State, t: TxId, now: int)
    requires t in s.txs && s.txs[t].req.Reschedule? && s.txs[t].pc.RRow? && s.txs[t].writes == []
    ensures Finds(s, StepReschedule(cfg, s, t, now), t, now)
  {
    ApplyNone(s.db);
  }

  lemma RescheduleLockFinds(cfg: Config, s: State, t: TxId, now: int)
    requires t in s.txs && s.txs[t].req.Reschedule? && s.txs[t].pc.RLock?
    ensures Finds(s, StepReschedule(cfg, s, t, now), t, now)
  {
  }

  lemma RescheduleScheduleFinds(cfg: Config, s: State, t: TxId, now: int)
    requires t in s.txs && s.txs[t].req.Reschedule? && s.txs[t].pc.RAvail? && s.txs[t].writes == []
    ensures Finds(s, StepReschedule(cfg, s, t, now), t, now)
  {
    ApplyNone(s.db);
  }

  lemma RescheduleCountFinds(cfg: Config, s: State, t: TxId, now: int)
    requires t in s.txs && s.txs[t].req.Reschedule? && s.txs[t].pc.RBooked? && s.txs[t].writes == []
    ensures Finds(s, StepReschedule(cfg, s, t, now), t, now)
  {
    ApplyNone(s.db);
    var tx, l := s.txs[t], s.txs[t].pc.was.pair.listing;
    if OpenSlotEnd(tx.pc.av, now, BookedStarts(s.db.viewings, l), tx.req.start).Some? {
      ClaimFinds(s, l, tx.pc.av, tx.req.start, now);
    }
  }

  lemma RescheduleUpdateFinds(cfg: Config, s: State, t: TxId, now: int)
    requires t in s.txs && s.txs[t].req.Reschedule? && s.txs[t].pc.RUpdate?
    ensures Finds(s, StepReschedule(cfg, s, t, now), t, now)
  {
  }

  lemma CancelReadFinds(s: State, t: TxId, now: int)
    requires t in s.txs && s.txs[t].req.Cancel? && s.txs[t].pc.CRead?
    ensures Finds(s, StepCancel(s, t), t, now)
  {
  }

  lemma CancelUpdateFinds(s: State, t: TxId, now: int)
    requires t in s.txs && s.txs[t].req.Cancel? && s.txs[t].pc.CUpdate?
    ensures Finds(s, StepCancel(s, t), t, now)
  {
  }

  lemma EndFinds(cfg: Config, s: State, t: TxId, now: int)
    requires t in s.txs && (s.txs[t].pc.Commit? || s.txs[t].pc.Rollback?)
    ensures Finds(s, StepEnd(s, t), t, now)
  {
  }

  lemma LedgerFinds(cfg: Config, s: State, t: TxId, now: int)
    requires cfg.serialize && Inv(cfg, s) && t in s.txs && s.txs[t].req.OnLedger()
    requires !s.txs[t].pc.Commit? && !s.txs[t].pc.Rollback?
    ensures Finds(s, StepTx(cfg, s, t, now), t, now)
  {
    assert TxOk(cfg, s, t, s.txs[t]);
    if s.txs[t].pc.XLock? { ExpressLockFinds(cfg, s, t, now); }
    else if s.txs[t].pc.XProfile? { ExpressProfileFinds(cfg, s, t, now); }
    else if s.txs[t].pc.XListing? { ExpressListingFinds(cfg, s, t, now); }
    else if s.txs[t].pc.XBlocks? { ExpressBlocksFinds(cfg, s, t, now); }
    else if s.txs[t].pc.WLock? { WithdrawLockFinds(cfg, s, t, now); }
    else if s.txs[t].pc.WOwner? { WithdrawOwnerFinds(cfg, s, t, now); }
    else { LaterFinds(cfg, s, t, now); }
  }

  lemma BookFinds(cfg: Config, s: State, t: TxId, now: int)
    requires t in s.txs && s.txs[t].req.Book? && BookOk(cfg, s, t, s.txs[t])
    requires !s.txs[t].pc.Commit? && !s.txs[t].pc.Rollback?
    ensures Finds(s, StepTx(cfg, s, t, now), t, now)
  {
    if s.txs[t].pc.BMatch? || s.txs[t].pc.BLock? { BookLockFinds(cfg, s, t, now); }
    else if s.txs[t].pc.BAvail? { BookScheduleFinds(cfg, s, t, now); }
    else if s.txs[t].pc.BBooked? { BookCountFinds(cfg, s, t, now); }
    else if s.txs[t].pc.BInsert? { BookInsertFinds(cfg, s, t, now); }
    else { FinishedStays(cfg, s, t, now); }
  }

  lemma RescheduleFinds(cfg: Config, s: State, t: TxId, now: int)
    requires t in s.txs && s.txs[t].req.Reschedule? && RescheduleOk(cfg, s, t, s.txs[t])
    requires !s.txs[t].pc.Commit? && !s.txs[t].pc.Rollback?
    ensures Finds(s, StepTx(cfg, s, t, now), t, now)
  {
    if s.txs[t].pc.RRow? { RescheduleRowFinds(cfg, s, t, now); }
    else if s.txs[t].pc.RLock? { RescheduleLockFinds(cfg, s, t, now); }
    else if s.txs[t].pc.RAvail? { RescheduleScheduleFinds(cfg, s, t, now); }
    else if s.txs[t].pc.RBooked? { RescheduleCountFinds(cfg, s, t, now); }
    else if s.txs[t].pc.RUpdate? { RescheduleUpdateFinds(cfg, s, t, now); }
    else { FinishedStays(cfg, s, t, now); }
  }

  lemma CancelFinds(cfg: Config, s: State, t: TxId, now: int)
    requires t in s.txs && s.txs[t].req.Cancel? && CancelOk(s.txs[t]) && !s.txs[t].pc.Rollback?
    ensures Finds(s, StepTx(cfg, s, t, now), t, now)
  {
    if s.txs[t].pc.CRead? { CancelReadFinds(s, t, now); }
    else if s.txs[t].pc.CUpdate? { CancelUpdateFinds(s, t, now); }
    else { FinishedStays(cfg, s, t, now); }
  }

  lemma StatementFinds(cfg: Config, s: State, t: TxId, now: int)
    requires cfg.serialize && Inv(cfg, s) && t in s.txs
    ensures Finds(s, StepTx(cfg, s, t, now), t, now)
  {
    assert TxOk(cfg, s, t, s.txs[t]);
    if s.txs[t].pc.Commit? || s.txs[t].pc.Rollback? { EndFinds(cfg, s, t, now); }
    else if s.txs[t].req.OnLedger() { LedgerFinds(cfg, s, t, now); }
    else if s.txs[t].req.Book? { BookFinds(cfg, s, t, now); }
    else if s.txs[t].req.Reschedule? { RescheduleFinds(cfg, s, t, now); }
    else { CancelFinds(cfg, s, t, now); }
  }

  // ---- whole runs -------------------------------------------------------------------------------

  lemma BeginGrounded(cfg: Config, s: State, es: seq<Event>, m: State, e: Event, u: TxId)
    requires e.Begin? && u in Step(cfg, m, e).txs && u !in m.txs
    ensures Grounded(cfg, s, es, u, Step(cfg, m, e).txs[u])
  {
  }

  ghost predicate AllGrounded(cfg: Config, s: State, es: seq<Event>) {
    var m := Execute(cfg, s, es);
    forall t {:trigger Grounded(cfg, s, es, t, m.txs[t])} | t in m.txs :: Grounded(cfg, s, es, t, m.txs[t])
  }

  /** All but the transaction that takes a step. */
  lemma OthersGrounded(cfg: Config, s: State, es: seq<Event>, e: Event, m': State, u: TxId)
    requires AllGrounded(cfg, s, es) && Scheduling.OthersStand(Execute(cfg, s, es), m', e)
    requires u in Execute(cfg, s, es).txs && !(e.Run? && e.t == u)
    ensures u in m'.txs && Grounded(cfg, s, es + [e], u, m'.txs[u])
  {
    var m := Execute(cfg, s, es);
    assert Grounded(cfg, s, es, u, m.txs[u]);
    if m'.txs[u] == m.txs[u] { GroundStays(cfg, s, es, e, u, m.txs[u]); }
  }

  lemma NoneBegins(cfg: Config, s: State, e: Event)
    requires !e.Run? && !e.Begin?
    ensures Step(cfg, s, e).txs.Keys <= s.txs.Keys
  {
    if e.Outside() { OutsideEvent(cfg, s, e); }
  }

  lemma StepGrounded(cfg: Config, s: State, es: seq<Event>, e: Event, u: TxId)
    requires var m := Execute(cfg, s, es); cfg.serialize && Inv(cfg, m) && u in Step(cfg, m, e).txs
    requires AllGrounded(cfg, s, es)
    ensures Grounded(cfg, s, es + [e], u, Step(cfg, Execute(cfg, s, es), e).txs[u])
  {
    var m := Execute(cfg, s, es);
    Scheduling.StepOthersStand(cfg, m, e);
    if u in m.txs && !(e.Run? && e.t == u) {
      OthersGrounded(cfg, s, es, e, Step(cfg, m, e), u);
    } else if e.Run? {
      RunStarts(cfg, m, e, u);
      assert Grounded(cfg, s, es, u, m.txs[u]);
      StatementFinds(cfg, m, u, e.now);
      FindsGround(cfg, s, es, Step(cfg, m, e), u, e.now);
    } else if e.Begin? {
      BeginGrounded(cfg, s, es + [e], m, e, u);
    } else {
      NoneBegins(cfg, m, e);
    }
  }

  lemma RunStarts(cfg: Config, s: State, e: Event, u: TxId)
    requires cfg.serialize && Inv(cfg, s) && e.Run? && u in Step(cfg, s, e).txs
    ensures u in s.txs
    ensures e.t in s.txs ==> Step(cfg, s, e) == StepTx(cfg, s, e.t, e.now)
  {
    if e.t in s.txs { Bookings.RunAddsNone(cfg, s, e.t, e.now); }
  }

  lemma {:induction false} RunsGrounded(cfg: Config, s: State, es: seq<Event>)
    requires cfg.serialize && Initial(s)
    ensures AllGrounded(cfg, s, es)
  {
    if es != [] {
      var before, e := es[..|es| - 1], es[|es| - 1];
      RunsGrounded(cfg, s, before);
      Invariant(cfg, s, before);
      assert before + [e] == es;
      forall u <- Execute(cfg, s, es).txs ensures Grounded(cfg, s, es, u, Execute(cfg, s, es).txs[u]) {
        StepGrounded(cfg, s, before, e, u);
      }
    }
  }

  lemma RestsOnFound(cfg: Config, s: State, es: seq<Event>, t: TxId, f: Fact)
    requires cfg.serialize && Initial(s)
    requires var m := Execute(cfg, s, es); t in m.txs && RestsOn(m.txs[t], f)
    ensures Found(cfg, s, es, t, f)
  {
    RunsGrounded(cfg, s, es);
    assert Grounded(cfg, s, es, t, Execute(cfg, s, es).txs[t]);
  }

  // ---- what a step does to the interests and the viewings ----------------------------------------

  predicate CommitsFor(s: State, e: Event) { e.Run? && e.t in s.txs && s.txs[e.t].pc.Commit? }

  /** The interest that the request is about. */
  function KeyOf(req: Request): InterestKey
    requires req.OnLedger()
  {
    InterestKey(req.pair, req.role)
  }

  ghost predicate SetsInterest(s: State, d: Db, e: Event) {
    && CommitsFor(s, e) && s.txs[e.t].req.OnLedger()
    && d.ledger.interests
       == s.db.ledger.interests[KeyOf(s.txs[e.t].req) := if s.txs[e.t].req.Express? then Wanted else Withdrawn]
  }

  lemma CommitSets(cfg: Config, s: State, t: TxId)
    requires Inv(cfg, s) && t in s.txs && s.txs[t].pc.Commit? && s.txs[t].req.OnLedger()
    ensures var d := StepEnd(s, t).db; SetsInterest(s, d, Run(t, 0)) || d.ledger.interests == s.db.ledger.interests
  {
    var tx := s.txs[t];
    assert TxOk(cfg, s, t, tx);
    CommitFrame(cfg, s, t);
    if tx.writes == [] { ApplyNone(s.db); }
    else if |tx.writes| == 1 { ApplyOne(s.db, tx.writes[0]); }
    else { ApplyTwo(s.db, tx.writes[0], tx.writes[1]); }
  }

  lemma RunSets(cfg: Config, s: State, t: TxId, now: int)
    requires cfg.serialize && Inv(cfg, s) && t in s.txs
    ensures var d := StepTx(cfg, s, t, now).db;
      SetsInterest(s, d, Run(t, now)) || d.ledger.interests == s.db.ledger.interests
  {
    assert TxOk(cfg, s, t, s.txs[t]);
    if s.txs[t].pc.Commit? {
      if s.txs[t].req.OnLedger() { CommitSets(cfg, s, t); } else { CommitTables(cfg, s, t); }
    } else if s.txs[t].pc.Rollback? {
    } else if s.txs[t].req.Cancel? {
      CancelKeepsLedger(s, t);
    } else {
      StatementQuiet(cfg, s, t, now);
    }
  }

  lemma CancelKeepsLedger(s: State, t: TxId)
    requires t in s.txs && s.txs[t].req.Cancel?
    ensures StepCancel(s, t).db.ledger == s.db.ledger
  {
    if s.txs[t].pc.CRead? { CancelReadKeepsLedger(s, t); }
  }

  lemma CancelReadKeepsLedger(s: State, t: TxId)
    requires t in s.txs && s.txs[t].req.Cancel? && s.txs[t].pc.CRead?
    ensures StepCancel(s, t).db == s.db
  {
  }

  lemma StepSets(cfg: Config, s: State, e: Event)
    requires cfg.serialize && Inv(cfg, s)
    ensures var d := Step(cfg, s, e).db; SetsInterest(s, d, e) || d.ledger.interests == s.db.ledger.interests
  {
    if e.Run? { if e.t in s.txs { RunSets(cfg, s, e.t, e.now); } }
    else if e.RentMatch? { RentMatchSteps(cfg, s, e); }
    else if e.PurgeMatch? { PurgeMatchSteps(cfg, s, e); }
    else { OthersKeepLedger(cfg, s, e); }
  }

  predicate Wants(g: Ledger, k: InterestKey) { k in g.interests && g.interests[k] == Wanted }

  lemma WantedByCommit(cfg: Config, s: State, e: Event, k: InterestKey)
    requires cfg.serialize && Inv(cfg, s) && !Wants(s.db.ledger, k) && Wants(Step(cfg, s, e).db.ledger, k)
    ensures CommitsFor(s, e) && s.txs[e.t].req.Express? && KeyOf(s.txs[e.t].req) == k
  {
    StepSets(cfg, s, e);
  }

  /**
   An interest comes to be wanted only by the commit of an express for it.  At one of that transaction's statements
   the profile was there, undeleted, active and, for the tenant's side, the actor's; at one the listing was there,
   public, open and, for the landlord's side, the actor's; and at one no block stood between the owners.
   */
  lemma WantedWasAllowed(cfg: Config, s: State, es: seq<Event>, e: Event, k: InterestKey)
    requires cfg.serialize && Initial(s)
    requires var m := Execute(cfg, s, es); !Wants(m.db.ledger, k) && Wants(Step(cfg, m, e).db.ledger, k)
    ensures var m := Execute(cfg, s, es);
      && CommitsFor(m, e) && m.txs[e.t].req.Express? && KeyOf(m.txs[e.t].req) == k
      && Found(cfg, s, es, e.t, ProfileOk(m.txs[e.t].req.actor, k.pair, k.role))
      && Found(cfg, s, es, e.t, ListingOk(m.txs[e.t].req.actor, k.pair, k.role))
      && Found(cfg, s, es, e.t, NoBlock(k.pair))
  {
    var m := Execute(cfg, s, es);
    Invariant(cfg, s, es);
    WantedByCommit(cfg, m, e, k);
    var actor := m.txs[e.t].req.actor;
    RestsOnFound(cfg, s, es, e.t, ProfileOk(actor, k.pair, k.role));
    RestsOnFound(cfg, s, es, e.t, ListingOk(actor, k.pair, k.role));
    RestsOnFound(cfg, s, es, e.t, NoBlock(k.pair));
  }

  // ---- owners stay -------------------------------------------------------------------------------

  lemma StepKeepsOwners(cfg: Config, s: State, e: Event)
    requires cfg.serialize && Inv(cfg, s)
    ensures OwnersKept(s.db.catalog, Step(cfg, s, e).db.catalog)
  {
    if e.Run? { if e.t in s.txs { Renting.RunKeepsMatches(cfg, s, e.t, e.now); } }
    else if e.PutProfile? { PutProfileEdits(cfg, s, e); }
    else if e.PutListing? { PutListingEdits(cfg, s, e); }
    else if e.SetAvailability? { SetAvailabilityEdits(cfg, s, e); }
    else if e.OnCatalog() { SetUserEdits(cfg, s, e); }
    else if e.OnMatch() { MatchEvent(cfg, s, e); }
    else if e.OnViewing() { ViewingEvent(cfg, s, e); }
  }

  lemma {:induction false} OwnersStay(cfg: Config, s: State, es: seq<Event>, i: nat)
    requires cfg.serialize && Initial(s) && i <= |es|
    ensures OwnersKept(Then(cfg, s, es, i).catalog, Execute(cfg, s, es).db.catalog)
  {
    if i == |es| {
      assert es[..i] == es;
    } else {
      var before := es[..|es| - 1];
      assert before[..i] == es[..i];
      OwnersStay(cfg, s, before, i);
      Invariant(cfg, s, before);
      StepKeepsOwners(cfg, Execute(cfg, s, before), es[|es| - 1]);
    }
  }

  lemma WithdrawnByCommit(cfg: Config, s: State, e: Event, k: InterestKey)
    requires cfg.serialize && Inv(cfg, s) && Wants(s.db.ledger, k) && !Wants(Step(cfg, s, e).db.ledger, k)
    ensures CommitsFor(s, e) && s.txs[e.t].req.Withdraw? && KeyOf(s.txs[e.t].req) == k
    ensures !M.HasMatch(s.db.ledger, k.pair)
  {
    StepSets(cfg, s, e);
    assert TxOk(cfg, s, e.t, s.txs[e.t]);
  }

  lemma FoundOwns(cfg: Config, s: State, es: seq<Event>, t: TxId, actor: UserId, pair: Pair, role: Role)
    requires cfg.serialize && Initial(s) && Found(cfg, s, es, t, OwnSide(actor, pair, role))
    ensures M.OwnsSide(Execute(cfg, s, es).db.catalog, actor, pair, role)
  {
    var i: nat :| i < |es| && FoundAt(cfg, s, es, t, OwnSide(actor, pair, role), i);
    OwnersStay(cfg, s, es, i);
  }

  /**
   A wanted interest stops being wanted only by the commit of a withdrawal for it, by the owner of its side, with
   no undeleted match of the pair at the commit.
   */
  lemma WithdrawnByOwner(cfg: Config, s: State, es: seq<Event>, e: Event, k: InterestKey)
    requires cfg.serialize && Initial(s)
    requires var m := Execute(cfg, s, es); Wants(m.db.ledger, k) && !Wants(Step(cfg, m, e).db.ledger, k)
    ensures var m := Execute(cfg, s, es);
      && CommitsFor(m, e) && m.txs[e.t].req.Withdraw? && KeyOf(m.txs[e.t].req) == k
      && M.OwnsSide(m.db.catalog, m.txs[e.t].req.actor, k.pair, k.role)
      && Found(cfg, s, es, e.t, OwnSide(m.txs[e.t].req.actor, k.pair, k.role))
      && !M.HasMatch(m.db.ledger, k.pair)
  {
    var m := Execute(cfg, s, es);
    Invariant(cfg, s, es);
    WithdrawnByCommit(cfg, m, e, k);
    RestsOnFound(cfg, s, es, e.t, OwnSide(m.txs[e.t].req.actor, k.pair, k.role));
    FoundOwns(cfg, s, es, e.t, m.txs[e.t].req.actor, k.pair, k.role);
  }

  // ---- slots -------------------------------------------------------------------------------------

  /** The viewing is new, or at another time than before. */
  ghost predicate Placed(viewings: Viewings, d: Viewings, v: ViewingId) {
    v in d && (v in viewings ==> viewings[v].start != d[v].start || viewings[v].end != d[v].end)
  }

  lemma OnlyCommitsPlace(cfg: Config, s: State, e: Event, v: ViewingId)
    requires cfg.serialize && Inv(cfg, s) && Placed(s.db.viewings, Step(cfg, s, e).db.viewings, v)
    ensures CommitsFor(s, e) && Scheduling.OnViewings(s.txs[e.t].req)
  {
    if Scheduling.RunsViewing(s, e) {
      var tx := s.txs[e.t];
      if !tx.pc.Commit? && !tx.pc.Rollback? { StatementQuiet(cfg, s, e.t, e.now); }
    } else {
      Scheduling.OtherOnlyEnds(cfg, s, e);
    }
  }

  lemma CommitPlaces(cfg: Config, s: State, t: TxId)
    requires Inv(cfg, s) && t in s.txs && s.txs[t].pc.Commit? && Scheduling.OnViewings(s.txs[t].req)
    ensures var (d, v, tx) := (StepEnd(s, t).db.viewings, CommittedId(t, s.txs[t].req), s.txs[t]);
      && v in d && d == s.db.viewings[v := d[v]] && tx.claim.Some?
      && d[v].start == tx.claim.value.start && d[v].end == tx.claim.value.end
      && d[v].pair.listing == tx.claim.value.listing
  {
    ViewingCommits(cfg, s, t);
    CommitListing(cfg, s, t);
  }

  lemma CommitListing(cfg: Config, s: State, t: TxId)
    requires Inv(cfg, s) && t in s.txs && s.txs[t].pc.Commit? && Scheduling.OnViewings(s.txs[t].req)
    ensures var (d, v) := (StepEnd(s, t).db.viewings, CommittedId(t, s.txs[t].req));
      v in d && s.txs[t].claim.Some? && d[v].pair.listing == s.txs[t].claim.value.listing
  {
    assert TxOk(cfg, s, t, s.txs[t]);
    if s.txs[t].req.Book? { BookCommits(cfg, s, t); } else { RescheduleCommits(cfg, s, t); }
    CommitFrame(cfg, s, t);
  }

  lemma PlacedByCommit(cfg: Config, s: State, e: Event, v: ViewingId)
    requires cfg.serialize && Inv(cfg, s) && Placed(s.db.viewings, Step(cfg, s, e).db.viewings, v)
    ensures CommitsFor(s, e) && Scheduling.OnViewings(s.txs[e.t].req) && v == CommittedId(e.t, s.txs[e.t].req)
    ensures var (row, tx) := (Step(cfg, s, e).db.viewings[v], s.txs[e.t]);
      && tx.claim.Some? && row.start == tx.claim.value.start && row.end == tx.claim.value.end
      && row.pair.listing == tx.claim.value.listing
  {
    OnlyCommitsPlace(cfg, s, e, v);
    CommitPlaces(cfg, s, e.t);
  }

  lemma ClaimFound(cfg: Config, s: State, es: seq<Event>, t: TxId)
    requires cfg.serialize && Initial(s)
    requires var m := Execute(cfg, s, es);
      t in m.txs && m.txs[t].pc.Commit? && Scheduling.OnViewings(m.txs[t].req) && m.txs[t].claim.Some?
    ensures var c := Execute(cfg, s, es).txs[t].claim.value;
      && Found(cfg, s, es, t, Schedule(c.listing, c.av)) && Found(cfg, s, es, t, Room(c)) && InTime(c)
  {
    var c := Execute(cfg, s, es).txs[t].claim.value;
    RestsOnFound(cfg, s, es, t, Schedule(c.listing, c.av));
    RestsOnFound(cfg, s, es, t, Room(c));
    var i: nat :| i < |es| && FoundAt(cfg, s, es, t, Room(c), i);
  }

  /**
   A viewing comes to its time only by the commit of a booking or rescheduling.  That time is later than the clock
   at which its transaction counted, on the schedule that the listing had at another of its statements, and the slot
   had room when it counted.
   */
  lemma PlacedWasOpen(cfg: Config, s: State, es: seq<Event>, e: Event, v: ViewingId) returns (c: SlotClaim)
    requires cfg.serialize && Initial(s)
    requires var m := Execute(cfg, s, es); Placed(m.db.viewings, Step(cfg, m, e).db.viewings, v)
    ensures var (m, row) := (Execute(cfg, s, es), Step(cfg, Execute(cfg, s, es), e).db.viewings[v]);
      && CommitsFor(m, e) && (m.txs[e.t].req.Book? || m.txs[e.t].req.Reschedule?)
      && row.start == c.start > c.now && Scheduled(c.av, c.now, row.start)
      && row.end == row.start + 60 * c.av.slotMinutes
      && row.pair.listing == c.listing
      && Found(cfg, s, es, e.t, Schedule(c.listing, c.av)) && Found(cfg, s, es, e.t, Room(c))
  {
    var m := Execute(cfg, s, es);
    Invariant(cfg, s, es);
    PlacedByCommit(cfg, m, e, v);
    c := m.txs[e.t].claim.value;
    ClaimFound(cfg, s, es, e.t);
  }

  // ---- cancellations -------------------------------------------------------------------------------

  /** The viewing was not cancelled and is now. */
  ghost predicate Ends(viewings: Viewings, d: Viewings, v: ViewingId) {
    && v in viewings && v in d
    && viewings[v].status !in {Cancelled, CancelledLandlord} && d[v].status in {Cancelled, CancelledLandlord}
  }

  /** The update of a cancellation that stores this status. */
  predicate CancelsTo(s: State, e: Event, v: ViewingId, to: ViewingStatus) {
    && e.Run? && e.t in s.txs && s.txs[e.t].req.Cancel? && s.txs[e.t].req.viewing == v && s.txs[e.t].pc == CUpdate(to)
  }

  lemma CancelUpdateWaits(s: State, t: TxId)
    requires t in s.txs && s.txs[t].req.Cancel? && s.txs[t].pc.CUpdate?
    requires H.LiveViewing(s.db.viewings, s.txs[t].req.viewing).None? || s.txs[t].req.viewing in s.rows
    ensures StepCancel(s, t).db == s.db
  {
  }

  lemma CancelUpdateStores(s: State, t: TxId)
    requires t in s.txs && s.txs[t].req.Cancel? && s.txs[t].pc.CUpdate?
    requires H.LiveViewing(s.db.viewings, s.txs[t].req.viewing).Some? && s.txs[t].req.viewing !in s.rows
    ensures var v := s.txs[t].req.viewing;
      StepCancel(s, t).db.viewings == s.db.viewings[v := s.db.viewings[v].(status := s.txs[t].pc.to)]
  {
  }

  lemma CancelEnds(cfg: Config, s: State, t: TxId, v: ViewingId)
    requires t in s.txs && s.txs[t].req.Cancel? && CancelOk(s.txs[t]) && !s.txs[t].pc.Rollback?
    requires Ends(s.db.viewings, StepCancel(s, t).db.viewings, v)
    ensures CancelsTo(s, Run(t, 0), v, StepCancel(s, t).db.viewings[v].status)
  {
    if s.txs[t].pc.CRead? { CancelReadKeepsLedger(s, t); }
    else if H.LiveViewing(s.db.viewings, s.txs[t].req.viewing).None? || s.txs[t].req.viewing in s.rows {
      CancelUpdateWaits(s, t);
    } else {
      CancelUpdateStores(s, t);
    }
  }

  /** Statements of other requests end no viewing. */
  lemma OthersEndNone(cfg: Config, s: State, t: TxId, now: int, v: ViewingId)
    requires cfg.serialize && Inv(cfg, s) && t in s.txs && !s.txs[t].req.Cancel?
    ensures !Ends(s.db.viewings, StepTx(cfg, s, t, now).db.viewings, v)
  {
    if s.txs[t].pc.Rollback? {
    } else if Scheduling.OnViewings(s.txs[t].req) {
      if s.txs[t].pc.Commit? { ViewingCommits(cfg, s, t); } else { StatementQuiet(cfg, s, t, now); }
    } else {
      Races.LedgerRunKeepsViewings(cfg, s, t, now);
    }
  }

  lemma RunEnds(cfg: Config, s: State, t: TxId, now: int, v: ViewingId)
    requires cfg.serialize && Inv(cfg, s) && t in s.txs && Ends(s.db.viewings, StepTx(cfg, s, t, now).db.viewings, v)
    ensures CancelsTo(s, Run(t, now), v, StepTx(cfg, s, t, now).db.viewings[v].status)
  {
    if s.txs[t].req.Cancel? {
      assert TxOk(cfg, s, t, s.txs[t]);
      if !s.txs[t].pc.Rollback? { CancelEnds(cfg, s, t, v); }
    } else {
      OthersEndNone(cfg, s, t, now, v);
    }
  }

  lemma OnlyCancelsEnd(cfg: Config, s: State, e: Event, v: ViewingId)
    requires cfg.serialize && Inv(cfg, s) && Ends(s.db.viewings, Step(cfg, s, e).db.viewings, v)
    ensures e == RentViewing(v) || CancelsTo(s, e, v, Step(cfg, s, e).db.viewings[v].status)
  {
    if e.Run? { if e.t in s.txs { RunEnds(cfg, s, e.t, e.now, v); } }
    else if e.OnViewing() { ViewingEventSteps(cfg, s, e); }
    else { OthersKeepViewings(cfg, s, e); }
  }

  /**
   A viewing comes to be cancelled only by a renting out, or by a request of one who, when it looked, was a party of
   the viewing while it was confirmed; the status says whether that was the landlord.
   */
  lemma CancelledByParty(cfg: Config, s: State, es: seq<Event>, e: Event, v: ViewingId)
    requires cfg.serialize && Initial(s)
    requires var m := Execute(cfg, s, es); Ends(m.db.viewings, Step(cfg, m, e).db.viewings, v) && e != RentViewing(v)
    ensures var m := Execute(cfg, s, es); var to := Step(cfg, m, e).db.viewings[v].status;
      CancelsTo(m, e, v, to) && Found(cfg, s, es, e.t, MayCancel(m.txs[e.t].req.actor, v, to))
  {
    var m := Execute(cfg, s, es);
    Invariant(cfg, s, es);
    OnlyCancelsEnd(cfg, m, e, v);
    RestsOnFound(cfg, s, es, e.t, MayCancel(m.txs[e.t].req.actor, v, Step(cfg, m, e).db.viewings[v].status));
  }
}
