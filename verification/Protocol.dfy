/**
 The two lock protocols as one machine of interleaved SQL statements.

 A schedule is any sequence of events: a request begins, a transaction executes its
 next statement, a transaction dies, or something else changes the tables.  Every
 statement reads the committed tables overlaid with the transaction's own writes;
 writes become visible at commit.  An event that is not possible (a statement that
 has to wait, an unknown transaction) leaves the state as it is, so every sequence of
 events is a schedule.
 */
module Protocol {
  import opened Base
  import opened Slots
  import opened Schema
  import opened Handlers

  type TxId = nat

  /** What an advisory lock is taken on, before hashing. */
  datatype LockName = OnPair(pair: Pair) | OnSlot(listing: ListingId, start: int)

  /** `hash` is arbitrary and may collide; without `serialize` no advisory lock is taken. */
  datatype Config = Config(hash: LockName -> int, serialize: bool)

  datatype Request =
    | Express(actor: UserId, pair: Pair, role: Role)
    | Withdraw(actor: UserId, pair: Pair, role: Role)
    | Book(actor: UserId, matchId: MatchId, start: int)
    | Reschedule(actor: UserId, viewing: ViewingId, start: int)
    | Cancel(actor: UserId, viewing: ViewingId)
  {
    predicate OnLedger() { Express? || Withdraw? }
  }

  /** The next statement of a transaction, with the locals it still needs. */
  datatype Pc =
    | XLock | XProfile | XListing | XBlocks | XUpsert | XCounter | XInsert | XContact
    | WLock | WOwner | WMatched | WUpdate
    | BMatch | BLock(row: MatchRow) | BAvail(row: MatchRow)
    | BBooked(row: MatchRow, av: Availability) | BInsert(row: MatchRow)
    | RRow | RLock(was: ViewingRow) | RAvail(was: ViewingRow)
    | RBooked(was: ViewingRow, av: Availability) | RUpdate(was: ViewingRow)
    | CRead | CUpdate(to: ViewingStatus)
    | Commit(answer: Answer) | Rollback(answer: Answer) | Finished(answer: Answer) | Crashed

  datatype Write =
    | PutInterest(key: InterestKey, status: InterestStatus)
    | InsertMatch(id: MatchId, matchRow: MatchRow)
    | InsertViewing(vid: ViewingId, viewing: ViewingRow)
    | MoveViewing(vid: ViewingId, start: int, end: int)
  {
    predicate OnLedger() { PutInterest? || InsertMatch? }
  }

  /** The slot a transaction has claimed, and the schedule and clock it went by. */
  datatype SlotClaim = SlotClaim(
    listing: ListingId, start: int, end: int, capacity: nat, av: Availability, now: int)

  function Claiming(l: ListingId, start: int, end: int, av: Availability, now: int): SlotClaim {
    SlotClaim(l, start, end, Capacity(av), av, now)
  }

  datatype Tx = Tx(req: Request, pc: Pc, seen: Seen, writes: seq<Write>, claim: Option<SlotClaim>, ticket: nat)
  {
    predicate Live() { !pc.Finished? && !pc.Crashed? }
  }

  /** A decided ledger request, or a change of a match row made by another handler. */
  datatype Record =
    | Served(tx: TxId, req: Request, seen: Seen, ticket: nat, answer: Answer)
    | MatchSet(id: MatchId, row: MatchRow)

  /**
   `locks` are the advisory locks by hash, `rows` the viewing rows locked for update,
   `entries` the matches for which an uncommitted viewing is in the unique index.
   `peak` is the largest capacity each listing has had, `log` the decisions in order,
   `tickets` how many advisory locks were granted so far.
   */
  datatype State = State(
    db: Db, txs: map<TxId, Tx>,
    locks: map<int, TxId>, rows: map<ViewingId, TxId>, entries: map<MatchId, TxId>,
    peak: map<ListingId, nat>, tickets: nat, log: seq<Record>)

  datatype Event =
    | Begin(t: TxId, req: Request)
    | Run(t: TxId, now: int)
    | Crash(t: TxId)
    | PutProfile(p: ProfileId, profile: ProfileRow)
    | PutListing(l: ListingId, listing: ListingRow)
    | SetAvailability(l: ListingId, av: Availability)
    | SetBlock(a: UserId, b: UserId, on: bool)
    | Suspend(u: UserId, on: bool)
    | RentMatch(m: MatchId)
    | PurgeMatch(u: UserId, m: MatchId)
    | RentViewing(v: ViewingId)
    | PurgeViewing(u: UserId, v: ViewingId)
    | AttendViewing(u: UserId, v: ViewingId)
  {
    predicate OnCatalog() { PutProfile? || PutListing? || SetAvailability? || SetBlock? || Suspend? }

    predicate OnMatch() { RentMatch? || PurgeMatch? }

    predicate OnViewing() { RentViewing? || PurgeViewing? || AttendViewing? }

    /** Something other than a transaction. */
    predicate Outside() { OnCatalog() || OnMatch() || OnViewing() }
  }

  // ---- reading and writing ------------------------------------------------------

  function ApplyWrite(db: Db, w: Write): Db {
    match w
    case PutInterest(k, status) => db.(ledger := db.ledger.(interests := db.ledger.interests[k := status]))
    case InsertMatch(id, row) => db.(ledger := db.ledger.(matches := db.ledger.matches[id := row]))
    case InsertViewing(v, row) => db.(viewings := db.viewings[v := row])
    case MoveViewing(v, start, end) =>
      if v in db.viewings then db.(viewings := db.viewings[v := db.viewings[v].(start := start, end := end)]) else db
  }

  function Apply(db: Db, ws: seq<Write>): Db {
    if ws == [] then db else ApplyWrite(Apply(db, ws[..|ws| - 1]), ws[|ws| - 1])
  }

  function FirstPc(req: Request): Pc {
    match req
    case Express(_, _, _) => XLock
    case Withdraw(_, _, _) => WLock
    case Book(_, _, _) => BMatch
    case Reschedule(_, _, _) => RRow
    case Cancel(_, _) => CRead
  }

  // ---- the moves a transaction can make -----------------------------------------

  function Update(s: State, t: TxId, tx: Tx): State { s.(txs := s.txs[t := tx]) }

  function Goto(s: State, t: TxId, pc: Pc): State
    requires t in s.txs
  {
    Update(s, t, s.txs[t].(pc := pc))
  }

  /** A ledger request is decided: its record joins the log. */
  function Decide(s: State, t: TxId, a: Answer): State
    requires t in s.txs
  {
    var tx := s.txs[t];
    if tx.req.OnLedger()
    then s.(log := s.log + [Served(t, tx.req, tx.seen, tx.ticket, a)])
    else s
  }

  /** A check failed: the answer is known, the rollback is still to come. */
  function Refuse(s: State, t: TxId, a: Answer): State
    requires t in s.txs
  {
    Goto(Decide(s, t, a), t, Rollback(a))
  }

  function Without<K>(m: map<K, TxId>, t: TxId): map<K, TxId> { map k | k in m && m[k] != t :: m[k] }

  /** The transaction ends and everything it holds is released. */
  function Release(s: State, t: TxId, pc: Pc): State
    requires t in s.txs
  {
    s.(locks := Without(s.locks, t), rows := Without(s.rows, t), entries := Without(s.entries, t),
       txs := s.txs[t := s.txs[t].(pc := pc)])
  }

  predicate FreeFor<K>(m: map<K, TxId>, k: K, t: TxId) { k !in m || m[k] == t }

  /** Take the advisory lock, or wait. */
  function TakeLock(cfg: Config, s: State, t: TxId, name: LockName, next: Pc): State
    requires t in s.txs
  {
    if !cfg.serialize then Goto(s, t, next)
    else if !FreeFor(s.locks, cfg.hash(name), t) then s
    else s.(locks := s.locks[cfg.hash(name) := t], tickets := s.tickets + 1,
            txs := s.txs[t := s.txs[t].(pc := next, ticket := s.tickets + 1)])
  }

  // ---- express ---------------------------------------------------------------------

  function StepExpress(cfg: Config, s: State, t: TxId): State
    requires t in s.txs && s.txs[t].req.Express?
  {
    var tx := s.txs[t];
    var Express(actor, pair, role) := tx.req;
    var view := Apply(s.db, tx.writes);
    match tx.pc
    case XLock => TakeLock(cfg, s, t, OnPair(pair), XProfile)
    case XProfile =>
      var row := view.catalog.VisibleProfile(pair.profile);
      var s1 := Update(s, t, tx.(seen := tx.seen.(profile := row)));
      var no := CheckProfile(row, actor, role);
      if no.Some? then Refuse(s1, t, no.value) else Goto(s1, t, XListing)
    case XListing =>
      var row := view.catalog.PublicListing(pair.listing);
      var s1 := Update(s, t, tx.(seen := tx.seen.(listing := row)));
      var no := CheckListing(row, actor, role);
      if no.Some? then Refuse(s1, t, no.value) else Goto(s1, t, XBlocks)
    case XBlocks =>
      if tx.seen.profile.None? || tx.seen.listing.None? then s else
      var b := view.catalog.Blocked(tx.seen.profile.value.owner, tx.seen.listing.value.owner);
      var s1 := Update(s, t, tx.(seen := tx.seen.(blocked := b)));
      if b then Refuse(s1, t, UsersBlocked) else Goto(s1, t, XUpsert)
    case XUpsert =>
      Update(s, t, tx.(writes := tx.writes + [PutInterest(InterestKey(pair, role), Wanted)], pc := XCounter))
    case XCounter =>
      if view.ledger.Interested(pair, role.Other()) then Goto(s, t, XInsert) else Goto(s, t, Commit(Pending))
    case XInsert =>
      if tx.seen.profile.None? || tx.seen.listing.None? then s
      else if view.ledger.HasMatch(pair) then Goto(s, t, XContact)
      else Update(s, t, tx.(writes := tx.writes + [InsertMatch(t, NewMatch(tx.seen, pair))], pc := XContact))
    case XContact =>
      if tx.seen.profile.None? || tx.seen.listing.None? then s
      else Goto(s, t, Commit(Matched(ContactShown(tx.seen, role))))
    case _ => s
  }

  // ---- withdraw --------------------------------------------------------------------

  function StepWithdraw(cfg: Config, s: State, t: TxId): State
    requires t in s.txs && s.txs[t].req.Withdraw?
  {
    var tx := s.txs[t];
    var Withdraw(actor, pair, role) := tx.req;
    var view := Apply(s.db, tx.writes);
    match tx.pc
    case WLock => TakeLock(cfg, s, t, OnPair(pair), WOwner)
    case WOwner =>
      var seen := SeeForWithdraw(view.catalog, pair, role);
      var s1 := Update(s, t, tx.(seen := seen));
      var no := WithdrawRefusal(seen, actor, role);
      if no.Some? then Refuse(s1, t, no.value) else Goto(s1, t, WMatched)
    case WMatched =>
      if view.ledger.HasLiveMatch(pair) then Refuse(s, t, AlreadyMatched) else Goto(s, t, WUpdate)
    case WUpdate =>
      var ws := if view.ledger.Interested(pair, role) then [PutInterest(InterestKey(pair, role), Withdrawn)] else [];
      Update(s, t, tx.(writes := tx.writes + ws, pc := Commit(WithdrawnOk)))
    case _ => s
  }

  // ---- book --------------------------------------------------------------------------

  function StepBook(cfg: Config, s: State, t: TxId, now: int): State
    requires t in s.txs && s.txs[t].req.Book?
  {
    var tx := s.txs[t];
    var Book(actor, m, start) := tx.req;
    var view := Apply(s.db, tx.writes);
    match tx.pc
    case BMatch =>
      var row := LiveMatchRow(view.ledger, m);
      var no := BookRefusal(row, actor);
      if no.Some? then Refuse(s, t, no.value) else Goto(s, t, BLock(row.value))
    case BLock(row) => TakeLock(cfg, s, t, OnSlot(row.pair.listing, start), BAvail(row))
    case BAvail(row) =>
      var av := ListingAvailability(view.catalog, row.pair.listing);
      if av.None? then Refuse(s, t, Internal) else Goto(s, t, BBooked(row, av.value))
    case BBooked(row, av) =>
      var end := OpenSlotEnd(av, now, BookedStarts(view.viewings, row.pair.listing), start);
      if end.None? then Refuse(s, t, SlotFull)
      else Update(s, t, tx.(claim := Some(Claiming(row.pair.listing, start, end.value, av, now)), pc := BInsert(row)))
    case BInsert(row) =>
      if MatchHasViewing(view.viewings, m) then Refuse(s, t, AlreadyBooked)
      else if !FreeFor(s.entries, m, t) || tx.claim.None? then s
      else
        var w := InsertViewing(t, NewViewing(m, row, start, tx.claim.value.end));
        var s1 := Update(s, t, tx.(writes := tx.writes + [w],
                                   pc := Commit(Answer.Booked(t, start, tx.claim.value.end))));
        s1.(entries := s1.entries[m := t])
    case _ => s
  }

  // ---- reschedule ----------------------------------------------------------------------

  function StepReschedule(cfg: Config, s: State, t: TxId, now: int): State
    requires t in s.txs && s.txs[t].req.Reschedule?
  {
    var tx := s.txs[t];
    var Reschedule(actor, v, start) := tx.req;
    var view := Apply(s.db, tx.writes);
    match tx.pc
    case RRow =>
      var row := LiveViewing(view.viewings, v);
      if row.None? then Refuse(s, t, NotFound)
      else if !FreeFor(s.rows, v, t) then s
      else
        var s1 := s.(rows := s.rows[v := t]);
        var no := ViewingRefusal(row, actor);
        if no.Some? then Refuse(s1, t, no.value) else Goto(s1, t, RLock(row.value))
    case RLock(was) => TakeLock(cfg, s, t, OnSlot(was.pair.listing, start), RAvail(was))
    case RAvail(was) =>
      var av := ListingAvailability(view.catalog, was.pair.listing);
      if av.None? then Refuse(s, t, Internal) else Goto(s, t, RBooked(was, av.value))
    case RBooked(was, av) =>
      var end := OpenSlotEnd(av, now, BookedStarts(view.viewings, was.pair.listing), start);
      if end.None? then Refuse(s, t, SlotFull)
      else Update(s, t, tx.(claim := Some(Claiming(was.pair.listing, start, end.value, av, now)), pc := RUpdate(was)))
    case RUpdate(was) =>
      if tx.claim.None? then s
      else Update(s, t, tx.(writes := tx.writes + [MoveViewing(v, start, tx.claim.value.end)],
                            pc := Commit(Moved(start, tx.claim.value.end))))
    case _ => s
  }

  // ---- cancel: two statements, each its own transaction ----------------------------------

  function StepCancel(s: State, t: TxId): State
    requires t in s.txs && s.txs[t].req.Cancel?
  {
    var Cancel(actor, v) := s.txs[t].req;
    match s.txs[t].pc
    case CRead =>
      var row := LiveViewing(s.db.viewings, v);
      var no := ViewingRefusal(row, actor);
      if no.Some? then Refuse(s, t, no.value) else Goto(s, t, CUpdate(CancelStatus(row.value, actor)))
    case CUpdate(to) =>
      if LiveViewing(s.db.viewings, v).None? then Goto(s, t, Finished(Ok))
      else if v in s.rows then s
      else Goto(SetViewing(s, v, s.db.viewings[v].(status := to)), t, Finished(Ok))
    case _ => s
  }

  // ---- one event ---------------------------------------------------------------------------

  function StepEnd(s: State, t: TxId): State
    requires t in s.txs
  {
    match s.txs[t].pc
    case Commit(a) => Release(Decide(s, t, a).(db := Apply(s.db, s.txs[t].writes)), t, Finished(a))
    case Rollback(a) => Release(s, t, Finished(a))
    case _ => s
  }

  function StepTx(cfg: Config, s: State, t: TxId, now: int): State
    requires t in s.txs
  {
    if s.txs[t].pc.Commit? || s.txs[t].pc.Rollback? then StepEnd(s, t)
    else match s.txs[t].req
      case Express(_, _, _) => StepExpress(cfg, s, t)
      case Withdraw(_, _, _) => StepWithdraw(cfg, s, t)
      case Book(_, _, _) => StepBook(cfg, s, t, now)
      case Reschedule(_, _, _) => StepReschedule(cfg, s, t, now)
      case Cancel(_, _) => StepCancel(s, t)
  }

  function SetCatalog(s: State, c: Catalog): State { s.(db := s.db.(catalog := c)) }

  function SetMatch(s: State, m: MatchId, row: MatchRow): State {
    s.(db := s.db.(ledger := s.db.ledger.(matches := s.db.ledger.matches[m := row])), log := s.log + [MatchSet(m, row)])
  }

  function SetViewing(s: State, v: ViewingId, row: ViewingRow): State {
    s.(db := s.db.(viewings := s.db.viewings[v := row]))
  }

  /** Every listing starts with the default schedule, whose capacity is one. */
  function PeakOf(s: State, l: ListingId): nat { if l in s.peak then Max(1, s.peak[l]) else 1 }

  function Max(a: nat, b: nat): nat { if a < b then b else a }

  function Step(cfg: Config, s: State, e: Event): State {
    var c := s.db.catalog;
    match e
    case Begin(t, req) =>
      if t in s.txs || t in s.db.ledger.matches || t in s.db.viewings then s
      else Update(s, t, Tx(req, FirstPc(req), Seen(None, None, false), [], None, 0))
    case Run(t, now) => if t in s.txs then StepTx(cfg, s, t, now) else s
    case Crash(t) => if t in s.txs && s.txs[t].Live() then Release(s, t, Crashed) else s
    // owners never change, and the schedule is changed by its own handler
    case PutProfile(p, row) =>
      if p in c.profiles && c.profiles[p].owner != row.owner then s
      else SetCatalog(s, c.(profiles := c.profiles[p := row]))
    case PutListing(l, row) =>
      if l in c.listings && c.listings[l].owner != row.owner then s
      else
        var av := if l in c.listings then c.listings[l].availability else NO_SCHEDULE;
        SetCatalog(s, c.(listings := c.listings[l := row.(availability := av)]))
    case SetAvailability(l, av) =>
      if !ValidAvailability(av) || c.VisibleListing(l).None? then s
      else SetCatalog(s, c.(listings := c.listings[l := c.listings[l].(availability := av)]))
             .(peak := s.peak[l := Max(PeakOf(s, l), Capacity(av))])
    case SetBlock(a, b, on) => SetCatalog(s, c.(blocks := if on then c.blocks + {(a, b)} else c.blocks - {(a, b)}))
    case Suspend(u, on) => SetCatalog(s, c.(suspended := if on then c.suspended + {u} else c.suspended - {u}))
    // one row of the rented cascade or of an account deletion at a time
    case RentMatch(m) =>
      if m in s.db.ledger.matches && s.db.ledger.matches[m].status == Active && !s.db.ledger.matches[m].deleted
      then SetMatch(s, m, s.db.ledger.matches[m].(status := ListingRented)) else s
    case PurgeMatch(u, m) =>
      if m in s.db.ledger.matches && s.db.ledger.matches[m].Names(u)
      then SetMatch(SetCatalog(s, c.(gone := c.gone + {u})), m, s.db.ledger.matches[m].(deleted := true)) else s
    case RentViewing(v) =>
      if v in s.db.viewings && s.db.viewings[v].status == Confirmed && !s.db.viewings[v].deleted && v !in s.rows
      then SetViewing(s, v, s.db.viewings[v].(status := CancelledLandlord)) else s
    case PurgeViewing(u, v) =>
      if v in s.db.viewings && s.db.viewings[v].Names(u) && v !in s.rows
      then SetViewing(s, v, s.db.viewings[v].(deleted := true)) else s
    case AttendViewing(u, v) =>
      if Attendable(s.db.viewings, v, u) && v !in s.rows
      then SetViewing(s, v, s.db.viewings[v].(status := Completed)) else s
  }

  function Execute(cfg: Config, s: State, es: seq<Event>): State {
    if es == [] then s else Step(cfg, Execute(cfg, s, es[..|es| - 1]), es[|es| - 1])
  }
}
