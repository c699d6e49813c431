/**
 No mix of requests and no hash collision can leave every unfinished transaction
 waiting: a transaction waits for a row holding nothing, for an advisory lock holding
 at most a row, for the unique index holding at most an advisory lock.
 */
module Deadlock {
  import opened Base
  import opened Slots
  import opened Schema
  import H = Handlers
  import opened Protocol
  import opened ProtocolInvariant
  import ProtocolSafety

  /** The advisory lock the next statement asks for. */
  function LockWanted(tx: Tx): Option<LockName> {
    if tx.req.OnLedger() && (tx.pc.XLock? || tx.pc.WLock?) then Some(OnPair(tx.req.pair))
    else if tx.req.Book? && tx.pc.BLock? then Some(OnSlot(tx.pc.row.pair.listing, tx.req.start))
    else if tx.req.Reschedule? && tx.pc.RLock? then Some(OnSlot(tx.pc.was.pair.listing, tx.req.start))
    else None
  }

  /** The next statement has to wait for another transaction. */
  predicate Waits(cfg: Config, s: State, t: TxId)
    requires t in s.txs
  {
    var tx := s.txs[t];
    if LockWanted(tx).Some? then !FreeFor(s.locks, cfg.hash(LockWanted(tx).value), t)
    else match tx.req
      case Reschedule(_, v, _) => tx.pc.RRow? && H.LiveViewing(s.db.viewings, v).Some? && !FreeFor(s.rows, v, t)
      case Cancel(_, v) => tx.pc.CUpdate? && H.LiveViewing(s.db.viewings, v).Some? && v in s.rows
      case Book(_, m, _) => tx.pc.BInsert? && !MatchHasViewing(s.db.viewings, m) && !FreeFor(s.entries, m, t)
      case _ => false
  }

  predicate CanStep(cfg: Config, s: State, t: TxId) { t in s.txs && s.txs[t].Live() && !Waits(cfg, s, t) }

  // ---- what a holder's program counter can be ------------------------------------------

  predicate PastLock(pc: Pc) {
    !pc.XLock? && !pc.WLock? && !pc.BMatch? && !pc.BLock? && !pc.RRow? && !pc.RLock? && !pc.CRead? && !pc.CUpdate?
    && !pc.Finished? && !pc.Crashed?
  }

  predicate PastRow(pc: Pc) { pc.RLock? || PastLock(pc) }

  ghost predicate HoldersOk(s: State) {
    && (forall k <- s.locks :: var t := s.locks[k]; t in s.txs && PastLock(s.txs[t].pc) && !s.txs[t].req.Cancel?)
    && (forall v <- s.rows :: var t := s.rows[v]; t in s.txs && PastRow(s.txs[t].pc) && s.txs[t].req.Reschedule?)
    && (forall m <- s.entries :: var t := s.entries[m]; t in s.txs && s.txs[t].pc.Commit? && s.txs[t].req.Book?)
  }

  /** How far a transaction still has to go. */
  function Left(pc: Pc): nat {
    match pc
    case XLock => 10 case XProfile => 9 case XListing => 8 case XBlocks => 7
    case XUpsert => 6 case XCounter => 5 case XInsert => 4 case XContact => 3
    case WLock => 6 case WOwner => 5 case WMatched => 4 case WUpdate => 3
    case BMatch => 7 case BLock(_) => 6 case BAvail(_) => 5 case BBooked(_, _) => 4 case BInsert(_) => 3
    case RRow => 7 case RLock(_) => 6 case RAvail(_) => 5 case RBooked(_, _) => 4 case RUpdate(_) => 3
    case CRead => 4 case CUpdate(_) => 3
    case Commit(_) => 2 case Rollback(_) => 1 case Finished(_) => 0 case Crashed => 0
  }

  ghost predicate Extends<K(!new)>(m: map<K, TxId>, m': map<K, TxId>, t: TxId, may: bool) {
    forall k <- m' :: (k in m && m'[k] == m[k]) || (may && m'[k] == t)
  }

  /** What one statement of `t` does to its program counter and to the lock tables. */
  ghost predicate Shape(s: State, s': State, t: TxId)
    requires t in s.txs
  {
    && t in s'.txs && s'.txs == s.txs[t := s'.txs[t]] && s'.txs[t].req == s.txs[t].req
    && var pc, pc' := s.txs[t].pc, s'.txs[t].pc;
    && (PastLock(pc) ==> PastLock(pc')) && (PastRow(pc) ==> PastRow(pc')) && !pc.Commit?
    && Extends(s.locks, s'.locks, t, PastLock(pc') && !s.txs[t].req.Cancel?)
    && Extends(s.rows, s'.rows, t, PastRow(pc') && s.txs[t].req.Reschedule?)
    && Extends(s.entries, s'.entries, t, pc'.Commit? && s.txs[t].req.Book?)
  }

  ghost predicate Advances(s: State, s': State, t: TxId) {
    t in s.txs && t in s'.txs && Left(s'.txs[t].pc) < Left(s.txs[t].pc)
  }

  /** One statement: it fits the lock discipline and, unless it waits, it advances. */
  ghost predicate Moves(cfg: Config, s: State, s': State, t: TxId)
    requires t in s.txs
  {
    Shape(s, s', t) && (!Waits(cfg, s, t) ==> Advances(s, s', t))
  }

  lemma LockMoves(cfg: Config, s: State, t: TxId, name: LockName, next: Pc)
    requires cfg.serialize && t in s.txs && PastLock(next) && !s.txs[t].pc.Commit? && !s.txs[t].req.Cancel?
    requires LockWanted(s.txs[t]) == Some(name) && Left(next) < Left(s.txs[t].pc)
    ensures Moves(cfg, s, TakeLock(cfg, s, t, name, next), t)
  {
  }

  lemma RefuseMoves(cfg: Config, s: State, t: TxId, a: H.Answer)
    requires t in s.txs && Left(s.txs[t].pc) > 1 && !s.txs[t].pc.Commit?
    ensures Moves(cfg, s, Refuse(s, t, a), t)
  {
  }

  /** A statement that changes nothing but its own transaction. */
  lemma UpdateMoves(cfg: Config, s: State, t: TxId, tx: Tx)
    requires t in s.txs && tx.req == s.txs[t].req && Left(tx.pc) < Left(s.txs[t].pc) && !s.txs[t].pc.Commit?
    requires (PastLock(s.txs[t].pc) ==> PastLock(tx.pc)) && (PastRow(s.txs[t].pc) ==> PastRow(tx.pc))
    ensures Moves(cfg, s, Update(s, t, tx), t)
  {
  }

  lemma RefuseAfterMoves(cfg: Config, s: State, t: TxId, tx: Tx, a: H.Answer)
    requires t in s.txs && tx.req == s.txs[t].req && tx.pc == s.txs[t].pc && Left(tx.pc) > 1 && !tx.pc.Commit?
    ensures Moves(cfg, s, Refuse(Update(s, t, tx), t, a), t)
  {
  }

  lemma ExpressXLock(cfg: Config, s: State, t: TxId)
    requires cfg.serialize && t in s.txs && s.txs[t].req.Express? && s.txs[t].pc.XLock?
    requires ExpressOk(cfg, s, t, s.txs[t])
    ensures Moves(cfg, s, StepExpress(cfg, s, t), t)
  {
    ProtocolSafety.ApplyNone(s.db);
    LockMoves(cfg, s, t, OnPair(s.txs[t].req.pair), XProfile);
  }

  lemma ExpressXProfile(cfg: Config, s: State, t: TxId)
    requires cfg.serialize && t in s.txs && s.txs[t].req.Express? && s.txs[t].pc.XProfile?
    requires ExpressOk(cfg, s, t, s.txs[t])
    ensures Moves(cfg, s, StepExpress(cfg, s, t), t)
  {
    ProtocolSafety.ApplyNone(s.db);
    var tx := s.txs[t];
    var row := s.db.catalog.VisibleProfile(tx.req.pair.profile);
    var read, no := tx.(seen := tx.seen.(profile := row)), H.CheckProfile(row, tx.req.actor, tx.req.role);
    if no.Some? { RefuseAfterMoves(cfg, s, t, read, no.value); } else { UpdateMoves(cfg, s, t, read.(pc := XListing)); }
  }

  lemma ExpressXListing(cfg: Config, s: State, t: TxId)
    requires cfg.serialize && t in s.txs && s.txs[t].req.Express? && s.txs[t].pc.XListing?
    requires ExpressOk(cfg, s, t, s.txs[t])
    ensures Moves(cfg, s, StepExpress(cfg, s, t), t)
  {
    ProtocolSafety.ApplyNone(s.db);
    var tx := s.txs[t];
    var row := s.db.catalog.PublicListing(tx.req.pair.listing);
    var read, no := tx.(seen := tx.seen.(listing := row)), H.CheckListing(row, tx.req.actor, tx.req.role);
    if no.Some? { RefuseAfterMoves(cfg, s, t, read, no.value); } else { UpdateMoves(cfg, s, t, read.(pc := XBlocks)); }
  }

  lemma ExpressXBlocks(cfg: Config, s: State, t: TxId)
    requires cfg.serialize && t in s.txs && s.txs[t].req.Express? && s.txs[t].pc.XBlocks?
    requires ExpressOk(cfg, s, t, s.txs[t])
    ensures Moves(cfg, s, StepExpress(cfg, s, t), t)
  {
    ProtocolSafety.ApplyNone(s.db);
    var tx := s.txs[t];
    var b := s.db.catalog.Blocked(tx.seen.profile.value.owner, tx.seen.listing.value.owner);
    var read := tx.(seen := tx.seen.(blocked := b));
    if b { RefuseAfterMoves(cfg, s, t, read, H.UsersBlocked); } else { UpdateMoves(cfg, s, t, read.(pc := XUpsert)); }
  }

  lemma ExpressXUpsert(cfg: Config, s: State, t: TxId)
    requires cfg.serialize && t in s.txs && s.txs[t].req.Express? && s.txs[t].pc.XUpsert?
    requires ExpressOk(cfg, s, t, s.txs[t])
    ensures Moves(cfg, s, StepExpress(cfg, s, t), t)
  {
    ProtocolSafety.ApplyNone(s.db);
  }

  lemma ExpressXCounter(cfg: Config, s: State, t: TxId)
    requires cfg.serialize && t in s.txs && s.txs[t].req.Express? && s.txs[t].pc.XCounter?
    requires ExpressOk(cfg, s, t, s.txs[t])
    ensures Moves(cfg, s, StepExpress(cfg, s, t), t)
  {
    ProtocolSafety.ApplyNone(s.db);
    UpdateMoves(cfg, s, t, s.txs[t].(pc := XInsert));
    UpdateMoves(cfg, s, t, s.txs[t].(pc := Commit(H.Pending)));
  }

  lemma ExpressXInsert(cfg: Config, s: State, t: TxId)
    requires cfg.serialize && t in s.txs && s.txs[t].req.Express? && s.txs[t].pc.XInsert?
    requires ExpressOk(cfg, s, t, s.txs[t])
    ensures Moves(cfg, s, StepExpress(cfg, s, t), t)
  {
    ProtocolSafety.ApplyNone(s.db);
    var tx := s.txs[t];
    UpdateMoves(cfg, s, t, tx.(pc := XContact));
    UpdateMoves(cfg, s, t,
        tx.(writes := tx.writes + [InsertMatch(t, H.NewMatch(tx.seen, tx.req.pair))], pc := XContact));
  }

  lemma ExpressXContact(cfg: Config, s: State, t: TxId)
    requires cfg.serialize && t in s.txs && s.txs[t].req.Express? && s.txs[t].pc.XContact?
    requires ExpressOk(cfg, s, t, s.txs[t])
    ensures Moves(cfg, s, StepExpress(cfg, s, t), t)
  {
    ProtocolSafety.ApplyNone(s.db);
    UpdateMoves(cfg, s, t, s.txs[t].(pc := Commit(H.Matched(H.ContactShown(s.txs[t].seen, s.txs[t].req.role)))));
  }

  lemma ExpressMoves(cfg: Config, s: State, t: TxId)
    requires cfg.serialize && t in s.txs && s.txs[t].req.Express? && ExpressOk(cfg, s, t, s.txs[t])
    requires s.txs[t].Live() && !s.txs[t].pc.Commit? && !s.txs[t].pc.Rollback?
    ensures Moves(cfg, s, StepExpress(cfg, s, t), t)
  {
    if s.txs[t].pc.XLock? { ExpressXLock(cfg, s, t); }
    else if s.txs[t].pc.XProfile? { ExpressXProfile(cfg, s, t); }
    else if s.txs[t].pc.XListing? { ExpressXListing(cfg, s, t); }
    else if s.txs[t].pc.XBlocks? { ExpressXBlocks(cfg, s, t); }
    else if s.txs[t].pc.XUpsert? { ExpressXUpsert(cfg, s, t); }
    else if s.txs[t].pc.XCounter? { ExpressXCounter(cfg, s, t); }
    else if s.txs[t].pc.XInsert? { ExpressXInsert(cfg, s, t); }
    else { ExpressXContact(cfg, s, t); }
  }

  lemma WithdrawWLock(cfg: Config, s: State, t: TxId)
    requires cfg.serialize && t in s.txs && s.txs[t].req.Withdraw? && s.txs[t].pc.WLock?
    requires WithdrawOk(cfg, s, t, s.txs[t])
    ensures Moves(cfg, s, StepWithdraw(cfg, s, t), t)
  {
    ProtocolSafety.ApplyNone(s.db);
    LockMoves(cfg, s, t, OnPair(s.txs[t].req.pair), WOwner);
  }

  lemma WithdrawWOwner(cfg: Config, s: State, t: TxId)
    requires cfg.serialize && t in s.txs && s.txs[t].req.Withdraw? && s.txs[t].pc.WOwner?
    requires WithdrawOk(cfg, s, t, s.txs[t])
    ensures Moves(cfg, s, StepWithdraw(cfg, s, t), t)
  {
    ProtocolSafety.ApplyNone(s.db);
    var tx := s.txs[t];
    var seen := H.SeeForWithdraw(s.db.catalog, tx.req.pair, tx.req.role);
    var read, no := tx.(seen := seen), H.WithdrawRefusal(seen, tx.req.actor, tx.req.role);
    if no.Some? { RefuseAfterMoves(cfg, s, t, read, no.value); } else { UpdateMoves(cfg, s, t, read.(pc := WMatched)); }
  }

  lemma WithdrawWMatched(cfg: Config, s: State, t: TxId)
    requires cfg.serialize && t in s.txs && s.txs[t].req.Withdraw? && s.txs[t].pc.WMatched?
    requires WithdrawOk(cfg, s, t, s.txs[t])
    ensures Moves(cfg, s, StepWithdraw(cfg, s, t), t)
  {
    ProtocolSafety.ApplyNone(s.db);
    if s.db.ledger.HasLiveMatch(s.txs[t].req.pair) { RefuseMoves(cfg, s, t, H.AlreadyMatched); }
    else { UpdateMoves(cfg, s, t, s.txs[t].(pc := WUpdate)); }
  }

  lemma WithdrawWUpdate(cfg: Config, s: State, t: TxId)
    requires cfg.serialize && t in s.txs && s.txs[t].req.Withdraw? && s.txs[t].pc.WUpdate?
    requires WithdrawOk(cfg, s, t, s.txs[t])
    ensures Moves(cfg, s, StepWithdraw(cfg, s, t), t)
  {
    ProtocolSafety.ApplyNone(s.db);
  }

  lemma WithdrawMoves(cfg: Config, s: State, t: TxId)
    requires cfg.serialize && t in s.txs && s.txs[t].req.Withdraw? && WithdrawOk(cfg, s, t, s.txs[t])
    requires s.txs[t].Live() && !s.txs[t].pc.Commit? && !s.txs[t].pc.Rollback?
    ensures Moves(cfg, s, StepWithdraw(cfg, s, t), t)
  {
    if s.txs[t].pc.WLock? { WithdrawWLock(cfg, s, t); }
    else if s.txs[t].pc.WOwner? { WithdrawWOwner(cfg, s, t); }
    else if s.txs[t].pc.WMatched? { WithdrawWMatched(cfg, s, t); }
    else { WithdrawWUpdate(cfg, s, t); }
  }

  lemma BookBMatch(cfg: Config, s: State, t: TxId, now: int)
    requires cfg.serialize && t in s.txs && s.txs[t].req.Book? && s.txs[t].pc.BMatch? && BookOk(cfg, s, t, s.txs[t])
    ensures Moves(cfg, s, StepBook(cfg, s, t, now), t)
  {
    ProtocolSafety.ApplyNone(s.db);
    var row := H.LiveMatchRow(s.db.ledger, s.txs[t].req.matchId);
    var no := H.BookRefusal(row, s.txs[t].req.actor);
    if no.Some? {
      RefuseMoves(cfg, s, t, no.value);
    } else {
      UpdateMoves(cfg, s, t, s.txs[t].(pc := BLock(row.value)));
    }
  }

  lemma BookBLock(cfg: Config, s: State, t: TxId, now: int)
    requires cfg.serialize && t in s.txs && s.txs[t].req.Book? && s.txs[t].pc.BLock? && BookOk(cfg, s, t, s.txs[t])
    ensures Moves(cfg, s, StepBook(cfg, s, t, now), t)
  {
    ProtocolSafety.ApplyNone(s.db);
    LockMoves(cfg, s, t, OnSlot(s.txs[t].pc.row.pair.listing, s.txs[t].req.start), BAvail(s.txs[t].pc.row));
  }

  lemma BookBAvail(cfg: Config, s: State, t: TxId, now: int)
    requires cfg.serialize && t in s.txs && s.txs[t].req.Book? && s.txs[t].pc.BAvail? && BookOk(cfg, s, t, s.txs[t])
    ensures Moves(cfg, s, StepBook(cfg, s, t, now), t)
  {
    ProtocolSafety.ApplyNone(s.db);
    var row := s.txs[t].pc.row;
    var av := H.ListingAvailability(s.db.catalog, row.pair.listing);
    if av.None? {
      RefuseMoves(cfg, s, t, H.Internal);
    } else {
      UpdateMoves(cfg, s, t, s.txs[t].(pc := BBooked(row, av.value)));
    }
  }

  lemma BookBBooked(cfg: Config, s: State, t: TxId, now: int)
    requires cfg.serialize && t in s.txs && s.txs[t].req.Book? && s.txs[t].pc.BBooked? && BookOk(cfg, s, t, s.txs[t])
    ensures Moves(cfg, s, StepBook(cfg, s, t, now), t)
  {
    ProtocolSafety.ApplyNone(s.db);
    var tx := s.txs[t];
    var BBooked(row, av) := tx.pc;
    var end := OpenSlotEnd(av, now, BookedStarts(s.db.viewings, row.pair.listing), tx.req.start);
    if end.None? { RefuseMoves(cfg, s, t, H.SlotFull); }
    else {
      UpdateMoves(cfg, s, t, tx.(claim := Some(Claiming(row.pair.listing, tx.req.start, end.value, av, now)),
          pc := BInsert(row)));
    }
  }

  lemma BookBInsert(cfg: Config, s: State, t: TxId, now: int)
    requires cfg.serialize && t in s.txs && s.txs[t].req.Book? && s.txs[t].pc.BInsert? && BookOk(cfg, s, t, s.txs[t])
    ensures Moves(cfg, s, StepBook(cfg, s, t, now), t)
  {
    ProtocolSafety.ApplyNone(s.db);
    var m := s.txs[t].req.matchId;
    if MatchHasViewing(s.db.viewings, m) {
      RefuseMoves(cfg, s, t, H.AlreadyBooked);
    } else if FreeFor(s.entries, m, t) {
      var s' := StepBook(cfg, s, t, now);
      TakesEntry(cfg, s, t, m, s'.txs[t]);
      assert s' == Update(s, t, s'.txs[t]).(entries := s.entries[m := t]);
    }
  }

  lemma TakesEntry(cfg: Config, s: State, t: TxId, m: MatchId, tx: Tx)
    requires t in s.txs && s.txs[t].req.Book? && s.txs[t].pc.BInsert? && tx.req == s.txs[t].req && tx.pc.Commit?
    ensures Moves(cfg, s, Update(s, t, tx).(entries := s.entries[m := t]), t)
  {
  }

  lemma BookMoves(cfg: Config, s: State, t: TxId, now: int)
    requires cfg.serialize && t in s.txs && s.txs[t].req.Book? && BookOk(cfg, s, t, s.txs[t])
    requires s.txs[t].Live() && !s.txs[t].pc.Commit? && !s.txs[t].pc.Rollback?
    ensures Moves(cfg, s, StepBook(cfg, s, t, now), t)
  {
    if s.txs[t].pc.BMatch? { BookBMatch(cfg, s, t, now); }
    else if s.txs[t].pc.BLock? { BookBLock(cfg, s, t, now); }
    else if s.txs[t].pc.BAvail? { BookBAvail(cfg, s, t, now); }
    else if s.txs[t].pc.BBooked? { BookBBooked(cfg, s, t, now); }
    else { BookBInsert(cfg, s, t, now); }
  }

  lemma TakesRow(cfg: Config, s: State, t: TxId, v: ViewingId, next: Pc)
    requires t in s.txs && s.txs[t].req.Reschedule? && s.txs[t].pc.RRow? && (next.RLock? || next.Rollback?)
    ensures Moves(cfg, s, Goto(s.(rows := s.rows[v := t]), t, next), t)
  {
  }

  lemma RescheduleRRow(cfg: Config, s: State, t: TxId, now: int)
    requires cfg.serialize && t in s.txs && s.txs[t].req.Reschedule? && s.txs[t].pc.RRow?
    requires RescheduleOk(cfg, s, t, s.txs[t])
    ensures Moves(cfg, s, StepReschedule(cfg, s, t, now), t)
  {
    ProtocolSafety.ApplyNone(s.db);
    var v := s.txs[t].req.viewing;
    var row := H.LiveViewing(s.db.viewings, v);
    if row.None? {
      RefuseMoves(cfg, s, t, H.NotFound);
    } else if FreeFor(s.rows, v, t) {
      var s1, no := s.(rows := s.rows[v := t]), H.ViewingRefusal(row, s.txs[t].req.actor);
      TakesRow(cfg, s, t, v, if no.Some? then Rollback(no.value) else RLock(row.value));
      if no.Some? {
        assert StepReschedule(cfg, s, t, now) == Goto(s1, t, Rollback(no.value));
      } else {
        assert StepReschedule(cfg, s, t, now) == Goto(s1, t, RLock(row.value));
      }
    }
  }

  lemma RescheduleRLock(cfg: Config, s: State, t: TxId, now: int)
    requires cfg.serialize && t in s.txs && s.txs[t].req.Reschedule? && s.txs[t].pc.RLock?
    requires RescheduleOk(cfg, s, t, s.txs[t])
    ensures Moves(cfg, s, StepReschedule(cfg, s, t, now), t)
  {
    ProtocolSafety.ApplyNone(s.db);
    LockMoves(cfg, s, t, OnSlot(s.txs[t].pc.was.pair.listing, s.txs[t].req.start), RAvail(s.txs[t].pc.was));
  }

  lemma RescheduleRAvail(cfg: Config, s: State, t: TxId, now: int)
    requires cfg.serialize && t in s.txs && s.txs[t].req.Reschedule? && s.txs[t].pc.RAvail?
    requires RescheduleOk(cfg, s, t, s.txs[t])
    ensures Moves(cfg, s, StepReschedule(cfg, s, t, now), t)
  {
    ProtocolSafety.ApplyNone(s.db);
  }

  lemma RescheduleRBooked(cfg: Config, s: State, t: TxId, now: int)
    requires cfg.serialize && t in s.txs && s.txs[t].req.Reschedule? && s.txs[t].pc.RBooked?
    requires RescheduleOk(cfg, s, t, s.txs[t])
    ensures Moves(cfg, s, StepReschedule(cfg, s, t, now), t)
  {
    ProtocolSafety.ApplyNone(s.db);
  }

  lemma RescheduleRUpdate(cfg: Config, s: State, t: TxId, now: int)
    requires cfg.serialize && t in s.txs && s.txs[t].req.Reschedule? && s.txs[t].pc.RUpdate?
    requires RescheduleOk(cfg, s, t, s.txs[t])
    ensures Moves(cfg, s, StepReschedule(cfg, s, t, now), t)
  {
    ProtocolSafety.ApplyNone(s.db);
  }

  lemma RescheduleMoves(cfg: Config, s: State, t: TxId, now: int)
    requires cfg.serialize && t in s.txs && s.txs[t].req.Reschedule? && RescheduleOk(cfg, s, t, s.txs[t])
    requires s.txs[t].Live() && !s.txs[t].pc.Commit? && !s.txs[t].pc.Rollback?
    ensures Moves(cfg, s, StepReschedule(cfg, s, t, now), t)
  {
    if s.txs[t].pc.RRow? { RescheduleRRow(cfg, s, t, now); }
    else if s.txs[t].pc.RLock? { RescheduleRLock(cfg, s, t, now); }
    else if s.txs[t].pc.RAvail? { RescheduleRAvail(cfg, s, t, now); }
    else if s.txs[t].pc.RBooked? { RescheduleRBooked(cfg, s, t, now); }
    else { RescheduleRUpdate(cfg, s, t, now); }
  }

  lemma CancelMoves(cfg: Config, s: State, t: TxId)
    requires t in s.txs && s.txs[t].req.Cancel? && s.txs[t].Live() && !s.txs[t].pc.Rollback? && CancelOk(s.txs[t])
    ensures var s' := StepCancel(s, t);
      && t in s'.txs && s'.txs == s.txs[t := s'.txs[t]] && s'.txs[t].req == s.txs[t].req
      && s'.locks == s.locks && s'.rows == s.rows && s'.entries == s.entries
      && (!Waits(cfg, s, t) ==> Advances(s, s', t))
  {
    if s.txs[t].pc.CRead? { CancelReads(s, t); }
    else { CancelUpdates(s, t); }
  }

  lemma CancelUpdates(s: State, t: TxId)
    requires t in s.txs && s.txs[t].req.Cancel? && s.txs[t].pc.CUpdate?
    ensures var s' := StepCancel(s, t);
      && s'.locks == s.locks && s'.rows == s.rows && s'.entries == s.entries
      && (if H.LiveViewing(s.db.viewings, s.txs[t].req.viewing).Some? && s.txs[t].req.viewing in s.rows then s' == s
          else s'.txs == s.txs[t := s.txs[t].(pc := Finished(H.Ok))])
  {
  }

  lemma CancelReads(s: State, t: TxId)
    requires t in s.txs && s.txs[t].req.Cancel? && s.txs[t].pc.CRead?
    ensures var s' := StepCancel(s, t);
      && t in s'.txs && s'.txs == s.txs[t := s'.txs[t]] && s'.txs[t].req == s.txs[t].req
      && s'.locks == s.locks && s'.rows == s.rows && s'.entries == s.entries && Advances(s, s', t)
  {
    var row := H.LiveViewing(s.db.viewings, s.txs[t].req.viewing);
    var no := H.ViewingRefusal(row, s.txs[t].req.actor);
    if no.Some? {
      assert StepCancel(s, t) == Goto(s, t, Rollback(no.value));
    } else {
      assert StepCancel(s, t) == Goto(s, t, CUpdate(H.CancelStatus(row.value, s.txs[t].req.actor)));
    }
  }

  lemma EndShape(s: State, t: TxId)
    requires t in s.txs && (s.txs[t].pc.Commit? || s.txs[t].pc.Rollback?)
    ensures var s' := StepEnd(s, t);
      && t in s'.txs && s'.txs == s.txs[t := s'.txs[t]]
      && s'.locks == Without(s.locks, t) && s'.rows == Without(s.rows, t) && s'.entries == Without(s.entries, t)
      && Advances(s, s', t)
  {
    if s.txs[t].pc.Commit? { CommitShape(s, t); }
  }

  lemma CommitShape(s: State, t: TxId)
    requires t in s.txs && s.txs[t].pc.Commit?
    ensures var s' := StepEnd(s, t);
      && s'.txs == s.txs[t := s.txs[t].(pc := Finished(s.txs[t].pc.answer))]
      && s'.locks == Without(s.locks, t) && s'.rows == Without(s.rows, t) && s'.entries == Without(s.entries, t)
  {
  }

  // ---- holders stay where they belong --------------------------------------------------------

  lemma ShapeKeepsHolders(s: State, s': State, t: TxId)
    requires HoldersOk(s) && t in s.txs && Shape(s, s', t)
    ensures HoldersOk(s')
  {
  }

  lemma ReleaseKeepsHolders(s: State, s': State, t: TxId)
    requires HoldersOk(s) && t in s.txs && t in s'.txs && s'.txs == s.txs[t := s'.txs[t]]
    requires s'.locks == Without(s.locks, t) && s'.rows == Without(s.rows, t) && s'.entries == Without(s.entries, t)
    ensures HoldersOk(s')
  {
  }

  lemma RunProgress(cfg: Config, s: State, t: TxId, now: int)
    requires cfg.serialize && Inv(cfg, s) && HoldersOk(s) && t in s.txs
    ensures var s' := StepTx(cfg, s, t, now); HoldersOk(s') && (CanStep(cfg, s, t) ==> Advances(s, s', t))
  {
    assert TxOk(cfg, s, t, s.txs[t]);
    if s.txs[t].pc.Commit? || s.txs[t].pc.Rollback? {
      EndShape(s, t);
      ReleaseKeepsHolders(s, StepEnd(s, t), t);
    } else if !s.txs[t].Live() {
      ProtocolSafety.FinishedStays(cfg, s, t, now);
    } else if s.txs[t].req.Cancel? {
      CancelMoves(cfg, s, t);
    } else {
      if s.txs[t].req.Express? { ExpressMoves(cfg, s, t); }
      else if s.txs[t].req.Withdraw? { WithdrawMoves(cfg, s, t); }
      else if s.txs[t].req.Book? { BookMoves(cfg, s, t, now); }
      else { RescheduleMoves(cfg, s, t, now); }
      ShapeKeepsHolders(s, StepTx(cfg, s, t, now), t);
    }
  }

  lemma StepKeepsHolders(cfg: Config, s: State, e: Event)
    requires cfg.serialize && Inv(cfg, s) && HoldersOk(s)
    ensures HoldersOk(Step(cfg, s, e))
  {
    if e.Run? { if e.t in s.txs { RunProgress(cfg, s, e.t, e.now); } }
    else if e.Crash? { if e.t in s.txs && s.txs[e.t].Live() { ReleaseKeepsHolders(s, Release(s, e.t, Crashed), e.t); } }
    else if e.Begin? { BeginKeepsHolders(cfg, s, e.t, e.req); }
    else { ProtocolSafety.OutsideEvent(cfg, s, e); }
  }

  lemma BeginKeepsHolders(cfg: Config, s: State, t: TxId, req: Request)
    requires HoldersOk(s)
    ensures HoldersOk(Step(cfg, s, Begin(t, req)))
  {
  }

  lemma {:induction false} HoldersAlways(cfg: Config, s: State, es: seq<Event>)
    requires cfg.serialize && Initial(s)
    ensures Inv(cfg, Execute(cfg, s, es)) && HoldersOk(Execute(cfg, s, es))
  {
    ProtocolSafety.Invariant(cfg, s, es);
    if es != [] {
      HoldersAlways(cfg, s, es[..|es| - 1]);
      StepKeepsHolders(cfg, Execute(cfg, s, es[..|es| - 1]), es[|es| - 1]);
    }
  }

  // ---- the theorem ---------------------------------------------------------------------------

  /** Following what a transaction waits for reaches one that can step, in at most three hops. */
  lemma SomeoneCanStep(cfg: Config, s: State, t: TxId) returns (u: TxId)
    requires cfg.serialize && HoldersOk(s) && t in s.txs && s.txs[t].Live()
    ensures CanStep(cfg, s, u)
  {
    u := t;
    // a waiter for a row: its holder is past taking rows
    if Waits(cfg, s, u) && LockWanted(s.txs[u]).None? && !s.txs[u].req.Book? {
      var v := s.txs[u].req.viewing;
      assert v in s.rows;
      u := s.rows[v];
    }
    // a waiter for an advisory lock: its holder is past taking those
    if Waits(cfg, s, u) && LockWanted(s.txs[u]).Some? {
      var k := cfg.hash(LockWanted(s.txs[u]).value);
      assert k in s.locks;
      u := s.locks[k];
    }
    // a waiter for the unique index: its holder commits next
    if Waits(cfg, s, u) {
      var m := s.txs[u].req.matchId;
      assert m in s.entries;
      u := s.entries[m];
    }
  }

  /** In every reachable state with unfinished work some transaction can execute, and it gets closer to its end. */
  lemma {:induction false} NoDeadlock(cfg: Config, s: State, es: seq<Event>, now: int)
    requires cfg.serialize && Initial(s)
    requires exists t <- Execute(cfg, s, es).txs :: Execute(cfg, s, es).txs[t].Live()
    ensures var m := Execute(cfg, s, es);
      exists u <- m.txs :: m.txs[u].Live() && Advances(m, Step(cfg, m, Run(u, now)), u)
  {
    HoldersAlways(cfg, s, es);
    var m := Execute(cfg, s, es);
    var t :| t in m.txs && m.txs[t].Live();
    var u := SomeoneCanStep(cfg, m, t);
    RunProgress(cfg, m, u, now);
  }
}
