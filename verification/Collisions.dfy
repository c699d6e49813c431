/** Colliding lock hashes only remove interleavings: what happens under a coarse hash can happen under a finer one. */
module Collisions {
  import opened Base
  import opened Slots
  import opened Schema
  import H = Handlers
  import opened Protocol

  /** Names the fine hash confuses, the coarse one confuses too. */
  ghost predicate Finer(coarse: Config, fine: Config) {
    && coarse.serialize == fine.serialize
    && forall a: LockName, b: LockName :: fine.hash(a) == fine.hash(b) ==> coarse.hash(a) == coarse.hash(b)
  }

  function WithLocks(s: State, locks: map<int, TxId>): State { s.(locks := locks) }

  ghost predicate LockedBoth(coarse: Config, fine: Config, s: State, k: int, t: TxId) {
    exists n: LockName :: fine.hash(n) == k && coarse.hash(n) in s.locks && s.locks[coarse.hash(n)] == t
  }

  /** The same state but for the locks, and every lock of the fine run is held in the coarse one as well. */
  ghost predicate Mirrors(coarse: Config, fine: Config, s: State, f: State) {
    && f == WithLocks(s, f.locks)
    && forall k <- f.locks :: LockedBoth(coarse, fine, s, k, f.locks[k])
  }

  /** The events of a run that did something. */
  ghost function Effective(cfg: Config, s: State, es: seq<Event>): seq<Event> {
    if es == [] then []
    else
      var before, e := es[..|es| - 1], es[|es| - 1];
      var m := Execute(cfg, s, before);
      Effective(cfg, s, before) + if Step(cfg, m, e) == m then [] else [e]
  }

  // ---- statements other than the lock do not look at the locks ------------------------------

  lemma TakeMirrors(coarse: Config, fine: Config, s: State, f: State, t: TxId, name: LockName, next: Pc)
    requires Finer(coarse, fine) && Mirrors(coarse, fine, s, f) && t in s.txs && s.txs[t].pc != next
    requires TakeLock(coarse, s, t, name, next) != s
    ensures Mirrors(coarse, fine, TakeLock(coarse, s, t, name, next), TakeLock(fine, f, t, name, next))
  {
    var s', f' := TakeLock(coarse, s, t, name, next), TakeLock(fine, f, t, name, next);
    if coarse.serialize {
      assert FreeFor(f.locks, fine.hash(name), t);
      forall k <- f'.locks ensures LockedBoth(coarse, fine, s', k, f'.locks[k]) {
        if k == fine.hash(name) {
          assert fine.hash(name) == k && s'.locks[coarse.hash(name)] == t;
        } else {
          Relocked(coarse, fine, s, f, k, name, t, s');
        }
      }
    } else {
      SameLocks(coarse, fine, s, f, s', f');
    }
  }

  lemma Relocked(coarse: Config, fine: Config, s: State, f: State, k: int, name: LockName, t: TxId, s': State)
    requires Mirrors(coarse, fine, s, f) && k in f.locks && FreeFor(s.locks, coarse.hash(name), t)
    requires s'.locks == s.locks[coarse.hash(name) := t]
    ensures LockedBoth(coarse, fine, s', k, f.locks[k])
  {
    assert LockedBoth(coarse, fine, s, k, f.locks[k]);
    var n: LockName :| fine.hash(n) == k && coarse.hash(n) in s.locks && s.locks[coarse.hash(n)] == f.locks[k];
    assert coarse.hash(n) in s'.locks && s'.locks[coarse.hash(n)] == f.locks[k];
  }

  lemma SameLocks(coarse: Config, fine: Config, s: State, f: State, s': State, f': State)
    requires Mirrors(coarse, fine, s, f) && s'.locks == s.locks && f' == WithLocks(s', f.locks)
    ensures Mirrors(coarse, fine, s', f')
  {
    forall k <- f'.locks ensures LockedBoth(coarse, fine, s', k, f'.locks[k]) {
      assert LockedBoth(coarse, fine, s, k, f.locks[k]);
      var n: LockName :| fine.hash(n) == k && coarse.hash(n) in s.locks && s.locks[coarse.hash(n)] == f.locks[k];
      assert coarse.hash(n) in s'.locks && s'.locks[coarse.hash(n)] == f.locks[k];
    }
  }

  lemma ReleaseMirrors(coarse: Config, fine: Config, s: State, f: State, t: TxId, pc: Pc)
    requires Mirrors(coarse, fine, s, f) && t in s.txs
    ensures Mirrors(coarse, fine, Release(s, t, pc), Release(f, t, pc))
  {
    var s', f' := Release(s, t, pc), Release(f, t, pc);
    forall k <- f'.locks ensures LockedBoth(coarse, fine, s', k, f'.locks[k]) {
      assert LockedBoth(coarse, fine, s, k, f.locks[k]);
      var n: LockName :| fine.hash(n) == k && coarse.hash(n) in s.locks && s.locks[coarse.hash(n)] == f.locks[k];
      assert coarse.hash(n) in s'.locks && s'.locks[coarse.hash(n)] == f.locks[k];
    }
  }

  /** A statement that stores what it read and then either refuses or goes on. */
  function Judge(s: State, t: TxId, tx: Tx, no: Option<H.Answer>, next: Pc): State
    requires t in s.txs
  {
    var s1 := Update(s, t, tx);
    if no.Some? then Refuse(s1, t, no.value) else Goto(s1, t, next)
  }

  lemma JudgeBlind(s: State, t: TxId, tx: Tx, no: Option<H.Answer>, next: Pc, locks: map<int, TxId>)
    requires t in s.txs
    ensures Judge(WithLocks(s, locks), t, tx, no, next) == WithLocks(Judge(s, t, tx, no, next), locks)
    ensures Judge(s, t, tx, no, next).locks == s.locks
  {
  }

  lemma UpdateBlind(s: State, t: TxId, tx: Tx, locks: map<int, TxId>)
    ensures Update(WithLocks(s, locks), t, tx) == WithLocks(Update(s, t, tx), locks)
    ensures Update(s, t, tx).locks == s.locks
  {
  }

  lemma RefuseBlind(s: State, t: TxId, a: H.Answer, locks: map<int, TxId>)
    requires t in s.txs
    ensures Refuse(WithLocks(s, locks), t, a) == WithLocks(Refuse(s, t, a), locks) && Refuse(s, t, a).locks == s.locks
  {
  }

  lemma ExpressProfileBlind(c: Config, d: Config, s: State, t: TxId, locks: map<int, TxId>)
    requires t in s.txs && s.txs[t].req.Express? && s.txs[t].pc.XProfile?
    ensures StepExpress(d, WithLocks(s, locks), t) == WithLocks(StepExpress(c, s, t), locks)
    ensures StepExpress(c, s, t).locks == s.locks
  {
    var tx := s.txs[t];
    var row := Apply(s.db, tx.writes).catalog.VisibleProfile(tx.req.pair.profile);
    JudgeBlind(s, t, tx.(seen := tx.seen.(profile := row)), H.CheckProfile(row, tx.req.actor, tx.req.role), XListing,
        locks);
  }

  lemma ExpressListingBlind(c: Config, d: Config, s: State, t: TxId, locks: map<int, TxId>)
    requires t in s.txs && s.txs[t].req.Express? && s.txs[t].pc.XListing?
    ensures StepExpress(d, WithLocks(s, locks), t) == WithLocks(StepExpress(c, s, t), locks)
    ensures StepExpress(c, s, t).locks == s.locks
  {
    var tx := s.txs[t];
    var row := Apply(s.db, tx.writes).catalog.PublicListing(tx.req.pair.listing);
    JudgeBlind(s, t, tx.(seen := tx.seen.(listing := row)), H.CheckListing(row, tx.req.actor, tx.req.role), XBlocks,
        locks);
  }

  lemma ExpressBlocksBlind(c: Config, d: Config, s: State, t: TxId, locks: map<int, TxId>)
    requires t in s.txs && s.txs[t].req.Express? && s.txs[t].pc.XBlocks?
    ensures StepExpress(d, WithLocks(s, locks), t) == WithLocks(StepExpress(c, s, t), locks)
    ensures StepExpress(c, s, t).locks == s.locks
  {
    var tx := s.txs[t];
    if tx.seen.profile.Some? && tx.seen.listing.Some? {
      var b := Apply(s.db, tx.writes).catalog.Blocked(tx.seen.profile.value.owner, tx.seen.listing.value.owner);
      JudgeBlind(s, t, tx.(seen := tx.seen.(blocked := b)), if b then Some(H.UsersBlocked) else None, XUpsert, locks);
    }
  }

  lemma WithdrawOwnerBlind(c: Config, d: Config, s: State, t: TxId, locks: map<int, TxId>)
    requires t in s.txs && s.txs[t].req.Withdraw? && s.txs[t].pc.WOwner?
    ensures StepWithdraw(d, WithLocks(s, locks), t) == WithLocks(StepWithdraw(c, s, t), locks)
    ensures StepWithdraw(c, s, t).locks == s.locks
  {
    var tx := s.txs[t];
    var seen := H.SeeForWithdraw(Apply(s.db, tx.writes).catalog, tx.req.pair, tx.req.role);
    JudgeBlind(s, t, tx.(seen := seen), H.WithdrawRefusal(seen, tx.req.actor, tx.req.role), WMatched, locks);
  }

  lemma WithdrawMatchedBlind(c: Config, d: Config, s: State, t: TxId, locks: map<int, TxId>)
    requires t in s.txs && s.txs[t].req.Withdraw? && s.txs[t].pc.WMatched?
    ensures StepWithdraw(d, WithLocks(s, locks), t) == WithLocks(StepWithdraw(c, s, t), locks)
    ensures StepWithdraw(c, s, t).locks == s.locks
  {
  }

  lemma BookMatchBlind(c: Config, d: Config, s: State, t: TxId, now: int, locks: map<int, TxId>)
    requires t in s.txs && s.txs[t].req.Book? && s.txs[t].pc.BMatch?
    ensures StepBook(d, WithLocks(s, locks), t, now) == WithLocks(StepBook(c, s, t, now), locks)
    ensures StepBook(c, s, t, now).locks == s.locks
  {
    var tx := s.txs[t];
    var row := H.LiveMatchRow(Apply(s.db, tx.writes).ledger, tx.req.matchId);
    var no := H.BookRefusal(row, tx.req.actor);
    if no.Some? { RefuseBlind(s, t, no.value, locks); } else { UpdateBlind(s, t, tx.(pc := BLock(row.value)), locks); }
  }

  lemma BookAvailBlind(c: Config, d: Config, s: State, t: TxId, now: int, locks: map<int, TxId>)
    requires t in s.txs && s.txs[t].req.Book? && s.txs[t].pc.BAvail?
    ensures StepBook(d, WithLocks(s, locks), t, now) == WithLocks(StepBook(c, s, t, now), locks)
    ensures StepBook(c, s, t, now).locks == s.locks
  {
    var tx, row := s.txs[t], s.txs[t].pc.row;
    var av := H.ListingAvailability(Apply(s.db, tx.writes).catalog, row.pair.listing);
    if av.None? {
      RefuseBlind(s, t, H.Internal, locks);
    } else {
      UpdateBlind(s, t, tx.(pc := BBooked(row, av.value)), locks);
    }
  }

  lemma BookBookedBlind(c: Config, d: Config, s: State, t: TxId, now: int, locks: map<int, TxId>)
    requires t in s.txs && s.txs[t].req.Book? && s.txs[t].pc.BBooked?
    ensures StepBook(d, WithLocks(s, locks), t, now) == WithLocks(StepBook(c, s, t, now), locks)
    ensures StepBook(c, s, t, now).locks == s.locks
  {
    var tx := s.txs[t];
    var BBooked(row, av) := tx.pc;
    var end := OpenSlotEnd(av, now, BookedStarts(Apply(s.db, tx.writes).viewings, row.pair.listing), tx.req.start);
    if end.None? { RefuseBlind(s, t, H.SlotFull, locks); }
    else {
      UpdateBlind(s, t, tx.(claim := Some(Claiming(row.pair.listing, tx.req.start, end.value, av, now)),
          pc := BInsert(row)), locks);
    }
  }

  lemma BookInsertBlind(c: Config, d: Config, s: State, t: TxId, now: int, locks: map<int, TxId>)
    requires t in s.txs && s.txs[t].req.Book? && s.txs[t].pc.BInsert?
    ensures StepBook(d, WithLocks(s, locks), t, now) == WithLocks(StepBook(c, s, t, now), locks)
    ensures StepBook(c, s, t, now).locks == s.locks
  {
    RefuseBlind(s, t, H.AlreadyBooked, locks);
  }

  lemma RescheduleRowBlind(c: Config, d: Config, s: State, t: TxId, now: int, locks: map<int, TxId>)
    requires t in s.txs && s.txs[t].req.Reschedule? && s.txs[t].pc.RRow?
    ensures StepReschedule(d, WithLocks(s, locks), t, now) == WithLocks(StepReschedule(c, s, t, now), locks)
    ensures StepReschedule(c, s, t, now).locks == s.locks
  {
    RefuseBlind(s, t, H.NotFound, locks);
    var row := H.LiveViewing(Apply(s.db, s.txs[t].writes).viewings, s.txs[t].req.viewing);
    if row.Some? {
      var s1 := s.(rows := s.rows[s.txs[t].req.viewing := t]);
      JudgeBlind(s1, t, s.txs[t], H.ViewingRefusal(row, s.txs[t].req.actor), RLock(row.value), locks);
    }
  }

  lemma RescheduleAvailBlind(c: Config, d: Config, s: State, t: TxId, now: int, locks: map<int, TxId>)
    requires t in s.txs && s.txs[t].req.Reschedule? && s.txs[t].pc.RAvail?
    ensures StepReschedule(d, WithLocks(s, locks), t, now) == WithLocks(StepReschedule(c, s, t, now), locks)
    ensures StepReschedule(c, s, t, now).locks == s.locks
  {
    var tx, was := s.txs[t], s.txs[t].pc.was;
    var av := H.ListingAvailability(Apply(s.db, tx.writes).catalog, was.pair.listing);
    if av.None? {
      RefuseBlind(s, t, H.Internal, locks);
    } else {
      UpdateBlind(s, t, tx.(pc := RBooked(was, av.value)), locks);
    }
  }

  lemma RescheduleBookedBlind(c: Config, d: Config, s: State, t: TxId, now: int, locks: map<int, TxId>)
    requires t in s.txs && s.txs[t].req.Reschedule? && s.txs[t].pc.RBooked?
    ensures StepReschedule(d, WithLocks(s, locks), t, now) == WithLocks(StepReschedule(c, s, t, now), locks)
    ensures StepReschedule(c, s, t, now).locks == s.locks
  {
    var tx := s.txs[t];
    var RBooked(was, av) := tx.pc;
    var end := OpenSlotEnd(av, now, BookedStarts(Apply(s.db, tx.writes).viewings, was.pair.listing), tx.req.start);
    if end.None? { RefuseBlind(s, t, H.SlotFull, locks); }
    else {
      UpdateBlind(s, t, tx.(claim := Some(Claiming(was.pair.listing, tx.req.start, end.value, av, now)),
          pc := RUpdate(was)), locks);
    }
  }

  lemma CancelReadBlind(c: Config, d: Config, s: State, t: TxId, locks: map<int, TxId>)
    requires t in s.txs && s.txs[t].req.Cancel? && s.txs[t].pc.CRead?
    ensures StepCancel(WithLocks(s, locks), t) == WithLocks(StepCancel(s, t), locks)
    ensures StepCancel(s, t).locks == s.locks
  {
    var row := H.LiveViewing(s.db.viewings, s.txs[t].req.viewing);
    var no := H.ViewingRefusal(row, s.txs[t].req.actor);
    if no.Some? {
      RefuseBlind(s, t, no.value, locks);
    } else {
      UpdateBlind(s, t, s.txs[t].(pc := CUpdate(H.CancelStatus(row.value, s.txs[t].req.actor))), locks);
    }
  }

  lemma CancelUpdateBlind(c: Config, d: Config, s: State, t: TxId, locks: map<int, TxId>)
    requires t in s.txs && s.txs[t].req.Cancel? && s.txs[t].pc.CUpdate?
    ensures StepCancel(WithLocks(s, locks), t) == WithLocks(StepCancel(s, t), locks)
    ensures StepCancel(s, t).locks == s.locks
  {
    var v := s.txs[t].req.viewing;
    UpdateBlind(s, t, s.txs[t].(pc := Finished(H.Ok)), locks);
    if H.LiveViewing(s.db.viewings, v).Some? && v !in s.rows {
      var s1 := SetViewing(s, v, s.db.viewings[v].(status := s.txs[t].pc.to));
      UpdateBlind(s1, t, s.txs[t].(pc := Finished(H.Ok)), locks);
      assert StepCancel(s, t) == Goto(s1, t, Finished(H.Ok));
    }
  }

  lemma ExpressInsertBlind(c: Config, d: Config, s: State, t: TxId, locks: map<int, TxId>)
    requires t in s.txs && s.txs[t].req.Express? && (s.txs[t].pc.XInsert? || s.txs[t].pc.XContact?)
    ensures StepExpress(d, WithLocks(s, locks), t) == WithLocks(StepExpress(c, s, t), locks)
    ensures StepExpress(c, s, t).locks == s.locks
  {
  }

  lemma ExpressRestBlind(c: Config, d: Config, s: State, t: TxId, locks: map<int, TxId>)
    requires t in s.txs && s.txs[t].req.Express? && !s.txs[t].pc.XLock? && !s.txs[t].pc.XProfile?
    requires !s.txs[t].pc.XListing? && !s.txs[t].pc.XBlocks? && !s.txs[t].pc.XInsert? && !s.txs[t].pc.XContact?
    ensures StepExpress(d, WithLocks(s, locks), t) == WithLocks(StepExpress(c, s, t), locks)
    ensures StepExpress(c, s, t).locks == s.locks
  {
  }

  lemma WithdrawRestBlind(c: Config, d: Config, s: State, t: TxId, locks: map<int, TxId>)
    requires t in s.txs && s.txs[t].req.Withdraw? && !s.txs[t].pc.WLock? && !s.txs[t].pc.WOwner?
    requires !s.txs[t].pc.WMatched?
    ensures StepWithdraw(d, WithLocks(s, locks), t) == WithLocks(StepWithdraw(c, s, t), locks)
    ensures StepWithdraw(c, s, t).locks == s.locks
  {
  }

  lemma BookRestBlind(c: Config, d: Config, s: State, t: TxId, now: int, locks: map<int, TxId>)
    requires t in s.txs && s.txs[t].req.Book? && !s.txs[t].pc.BMatch? && !s.txs[t].pc.BLock?
    requires !s.txs[t].pc.BAvail? && !s.txs[t].pc.BBooked? && !s.txs[t].pc.BInsert?
    ensures StepBook(d, WithLocks(s, locks), t, now) == WithLocks(StepBook(c, s, t, now), locks)
    ensures StepBook(c, s, t, now).locks == s.locks
  {
  }

  lemma RescheduleRestBlind(c: Config, d: Config, s: State, t: TxId, now: int, locks: map<int, TxId>)
    requires t in s.txs && s.txs[t].req.Reschedule? && !s.txs[t].pc.RRow? && !s.txs[t].pc.RLock?
    requires !s.txs[t].pc.RAvail? && !s.txs[t].pc.RBooked?
    ensures StepReschedule(d, WithLocks(s, locks), t, now) == WithLocks(StepReschedule(c, s, t, now), locks)
    ensures StepReschedule(c, s, t, now).locks == s.locks
  {
  }

  lemma CancelRestBlind(c: Config, d: Config, s: State, t: TxId, locks: map<int, TxId>)
    requires t in s.txs && s.txs[t].req.Cancel? && !s.txs[t].pc.CRead? && !s.txs[t].pc.CUpdate?
    ensures StepCancel(WithLocks(s, locks), t) == WithLocks(StepCancel(s, t), locks)
    ensures StepCancel(s, t).locks == s.locks
  {
  }

  lemma ExpressBlind(c: Config, d: Config, s: State, t: TxId, locks: map<int, TxId>)
    requires t in s.txs && s.txs[t].req.Express? && !s.txs[t].pc.XLock?
    ensures StepExpress(d, WithLocks(s, locks), t) == WithLocks(StepExpress(c, s, t), locks)
    ensures StepExpress(c, s, t).locks == s.locks
  {
    if s.txs[t].pc.XProfile? { ExpressProfileBlind(c, d, s, t, locks); }
    else if s.txs[t].pc.XListing? { ExpressListingBlind(c, d, s, t, locks); }
    else if s.txs[t].pc.XBlocks? { ExpressBlocksBlind(c, d, s, t, locks); }
    else if s.txs[t].pc.XInsert? { ExpressInsertBlind(c, d, s, t, locks); }
    else if s.txs[t].pc.XContact? { ExpressInsertBlind(c, d, s, t, locks); }
    else { ExpressRestBlind(c, d, s, t, locks); }
  }

  lemma WithdrawBlind(c: Config, d: Config, s: State, t: TxId, locks: map<int, TxId>)
    requires t in s.txs && s.txs[t].req.Withdraw? && !s.txs[t].pc.WLock?
    ensures StepWithdraw(d, WithLocks(s, locks), t) == WithLocks(StepWithdraw(c, s, t), locks)
    ensures StepWithdraw(c, s, t).locks == s.locks
  {
    if s.txs[t].pc.WOwner? { WithdrawOwnerBlind(c, d, s, t, locks); }
    else if s.txs[t].pc.WMatched? { WithdrawMatchedBlind(c, d, s, t, locks); }
    else { WithdrawRestBlind(c, d, s, t, locks); }
  }

  lemma BookBlind(c: Config, d: Config, s: State, t: TxId, now: int, locks: map<int, TxId>)
    requires t in s.txs && s.txs[t].req.Book? && !s.txs[t].pc.BLock?
    ensures StepBook(d, WithLocks(s, locks), t, now) == WithLocks(StepBook(c, s, t, now), locks)
    ensures StepBook(c, s, t, now).locks == s.locks
  {
    if s.txs[t].pc.BMatch? { BookMatchBlind(c, d, s, t, now, locks); }
    else if s.txs[t].pc.BAvail? { BookAvailBlind(c, d, s, t, now, locks); }
    else if s.txs[t].pc.BBooked? { BookBookedBlind(c, d, s, t, now, locks); }
    else if s.txs[t].pc.BInsert? { BookInsertBlind(c, d, s, t, now, locks); }
    else { BookRestBlind(c, d, s, t, now, locks); }
  }

  lemma RescheduleBlind(c: Config, d: Config, s: State, t: TxId, now: int, locks: map<int, TxId>)
    requires t in s.txs && s.txs[t].req.Reschedule? && !s.txs[t].pc.RLock?
    ensures StepReschedule(d, WithLocks(s, locks), t, now) == WithLocks(StepReschedule(c, s, t, now), locks)
    ensures StepReschedule(c, s, t, now).locks == s.locks
  {
    if s.txs[t].pc.RRow? { RescheduleRowBlind(c, d, s, t, now, locks); }
    else if s.txs[t].pc.RAvail? { RescheduleAvailBlind(c, d, s, t, now, locks); }
    else if s.txs[t].pc.RBooked? { RescheduleBookedBlind(c, d, s, t, now, locks); }
    else { RescheduleRestBlind(c, d, s, t, now, locks); }
  }

  lemma CancelBlind(c: Config, d: Config, s: State, t: TxId, locks: map<int, TxId>)
    requires t in s.txs && s.txs[t].req.Cancel?
    ensures StepCancel(WithLocks(s, locks), t) == WithLocks(StepCancel(s, t), locks)
    ensures StepCancel(s, t).locks == s.locks
  {
    if s.txs[t].pc.CRead? { CancelReadBlind(c, d, s, t, locks); }
    else if s.txs[t].pc.CUpdate? { CancelUpdateBlind(c, d, s, t, locks); }
    else { CancelRestBlind(c, d, s, t, locks); }
  }

  lemma EndMirrors(coarse: Config, fine: Config, s: State, f: State, t: TxId)
    requires Mirrors(coarse, fine, s, f) && t in s.txs && (s.txs[t].pc.Commit? || s.txs[t].pc.Rollback?)
    ensures Mirrors(coarse, fine, StepEnd(s, t), StepEnd(f, t))
  {
    if s.txs[t].pc.Commit? {
      var a := s.txs[t].pc.answer;
      var s1, f1 := Decide(s, t, a).(db := Apply(s.db, s.txs[t].writes)),
          Decide(f, t, a).(db := Apply(f.db, f.txs[t].writes));
      SameLocks(coarse, fine, s, f, s1, f1);
      ReleaseMirrors(coarse, fine, s1, f1, t, Finished(a));
    } else {
      ReleaseMirrors(coarse, fine, s, f, t, Finished(s.txs[t].pc.answer));
    }
  }

  predicate AtLock(pc: Pc) { pc.XLock? || pc.WLock? || pc.BLock? || pc.RLock? }

  lemma BlindMirrors(coarse: Config, fine: Config, s: State, f: State, t: TxId, now: int)
    requires Mirrors(coarse, fine, s, f) && t in s.txs
    requires !s.txs[t].pc.Commit? && !s.txs[t].pc.Rollback? && !AtLock(s.txs[t].pc)
    ensures Mirrors(coarse, fine, StepTx(coarse, s, t, now), StepTx(fine, f, t, now))
  {
    if s.txs[t].req.Express? { ExpressBlind(coarse, fine, s, t, f.locks); }
    else if s.txs[t].req.Withdraw? { WithdrawBlind(coarse, fine, s, t, f.locks); }
    else if s.txs[t].req.Book? { BookBlind(coarse, fine, s, t, now, f.locks); }
    else if s.txs[t].req.Reschedule? { RescheduleBlind(coarse, fine, s, t, now, f.locks); }
    else { CancelBlind(coarse, fine, s, t, f.locks); }
    SameLocks(coarse, fine, s, f, StepTx(coarse, s, t, now), StepTx(fine, f, t, now));
  }

  lemma ExpressLockMirrors(coarse: Config, fine: Config, s: State, f: State, t: TxId, now: int)
    requires Finer(coarse, fine) && Mirrors(coarse, fine, s, f) && t in s.txs && s.txs[t].req.Express?
    requires s.txs[t].pc.XLock?
    requires StepTx(coarse, s, t, now) != s
    ensures Mirrors(coarse, fine, StepTx(coarse, s, t, now), StepTx(fine, f, t, now))
  {
    TakeMirrors(coarse, fine, s, f, t, OnPair(s.txs[t].req.pair), XProfile);
  }

  lemma WithdrawLockMirrors(coarse: Config, fine: Config, s: State, f: State, t: TxId, now: int)
    requires Finer(coarse, fine) && Mirrors(coarse, fine, s, f) && t in s.txs && s.txs[t].req.Withdraw?
    requires s.txs[t].pc.WLock?
    requires StepTx(coarse, s, t, now) != s
    ensures Mirrors(coarse, fine, StepTx(coarse, s, t, now), StepTx(fine, f, t, now))
  {
    TakeMirrors(coarse, fine, s, f, t, OnPair(s.txs[t].req.pair), WOwner);
  }

  lemma BookLockMirrors(coarse: Config, fine: Config, s: State, f: State, t: TxId, now: int)
    requires Finer(coarse, fine) && Mirrors(coarse, fine, s, f) && t in s.txs && s.txs[t].req.Book?
    requires s.txs[t].pc.BLock?
    requires StepTx(coarse, s, t, now) != s
    ensures Mirrors(coarse, fine, StepTx(coarse, s, t, now), StepTx(fine, f, t, now))
  {
    TakeMirrors(coarse, fine, s, f, t, OnSlot(s.txs[t].pc.row.pair.listing, s.txs[t].req.start),
        BAvail(s.txs[t].pc.row));
  }

  lemma RescheduleLockMirrors(coarse: Config, fine: Config, s: State, f: State, t: TxId, now: int)
    requires Finer(coarse, fine) && Mirrors(coarse, fine, s, f) && t in s.txs && s.txs[t].req.Reschedule?
    requires s.txs[t].pc.RLock?
    requires StepTx(coarse, s, t, now) != s
    ensures Mirrors(coarse, fine, StepTx(coarse, s, t, now), StepTx(fine, f, t, now))
  {
    TakeMirrors(coarse, fine, s, f, t, OnSlot(s.txs[t].pc.was.pair.listing, s.txs[t].req.start),
        RAvail(s.txs[t].pc.was));
  }

  /** A request that does not take this lock ignores the statement. */
  lemma StrayLock(cfg: Config, s: State, t: TxId, now: int)
    requires t in s.txs && AtLock(s.txs[t].pc) && StepTx(cfg, s, t, now) != s
    ensures s.txs[t].pc.XLock? ==> s.txs[t].req.Express?
    ensures s.txs[t].pc.WLock? ==> s.txs[t].req.Withdraw?
    ensures s.txs[t].pc.BLock? ==> s.txs[t].req.Book?
    ensures s.txs[t].pc.RLock? ==> s.txs[t].req.Reschedule?
  {
  }

  lemma LockMirrors(coarse: Config, fine: Config, s: State, f: State, t: TxId, now: int)
    requires Finer(coarse, fine) && Mirrors(coarse, fine, s, f) && t in s.txs && AtLock(s.txs[t].pc)
    requires StepTx(coarse, s, t, now) != s
    ensures Mirrors(coarse, fine, StepTx(coarse, s, t, now), StepTx(fine, f, t, now))
  {
    StrayLock(coarse, s, t, now);
    if s.txs[t].pc.XLock? { ExpressLockMirrors(coarse, fine, s, f, t, now); }
    else if s.txs[t].pc.WLock? { WithdrawLockMirrors(coarse, fine, s, f, t, now); }
    else if s.txs[t].pc.BLock? { BookLockMirrors(coarse, fine, s, f, t, now); }
    else { RescheduleLockMirrors(coarse, fine, s, f, t, now); }
  }

  lemma BeginEventBlind(c: Config, d: Config, s: State, e: Event, locks: map<int, TxId>)
    requires e.Begin?
    ensures Step(d, WithLocks(s, locks), e) == WithLocks(Step(c, s, e), locks) && Step(c, s, e).locks == s.locks
  {
  }

  lemma CatalogEventBlind(c: Config, d: Config, s: State, e: Event, locks: map<int, TxId>)
    requires e.PutProfile? || e.PutListing? || e.SetAvailability? || e.SetBlock? || e.Suspend?
    ensures Step(d, WithLocks(s, locks), e) == WithLocks(Step(c, s, e), locks) && Step(c, s, e).locks == s.locks
  {
  }

  lemma RowEventBlind(c: Config, d: Config, s: State, e: Event, locks: map<int, TxId>)
    requires e.RentMatch? || e.PurgeMatch? || e.RentViewing? || e.PurgeViewing? || e.AttendViewing?
    ensures Step(d, WithLocks(s, locks), e) == WithLocks(Step(c, s, e), locks) && Step(c, s, e).locks == s.locks
  {
  }

  lemma OutsideBlind(c: Config, d: Config, s: State, e: Event, locks: map<int, TxId>)
    requires !e.Run? && !e.Crash?
    ensures Step(d, WithLocks(s, locks), e) == WithLocks(Step(c, s, e), locks) && Step(c, s, e).locks == s.locks
  {
    if e.Begin? {
      BeginEventBlind(c, d, s, e, locks);
    } else if e.PutProfile? || e.PutListing? || e.SetAvailability? || e.SetBlock? || e.Suspend? {
      CatalogEventBlind(c, d, s, e, locks);
    } else {
      RowEventBlind(c, d, s, e, locks);
    }
  }

  lemma StepMirrors(coarse: Config, fine: Config, s: State, f: State, e: Event)
    requires Finer(coarse, fine) && Mirrors(coarse, fine, s, f) && Step(coarse, s, e) != s
    ensures Mirrors(coarse, fine, Step(coarse, s, e), Step(fine, f, e))
  {
    if e.Run? {
      if s.txs[e.t].pc.Commit? || s.txs[e.t].pc.Rollback? { EndMirrors(coarse, fine, s, f, e.t); }
      else if AtLock(s.txs[e.t].pc) { LockMirrors(coarse, fine, s, f, e.t, e.now); }
      else { BlindMirrors(coarse, fine, s, f, e.t, e.now); }
    } else if e.Crash? {
      ReleaseMirrors(coarse, fine, s, f, e.t, Crashed);
    } else {
      OutsideBlind(coarse, fine, s, e, f.locks);
      SameLocks(coarse, fine, s, f, Step(coarse, s, e), Step(fine, f, e));
    }
  }

  lemma {:induction false} RunsMirror(coarse: Config, fine: Config, s: State, es: seq<Event>)
    requires Finer(coarse, fine) && s.locks == map[]
    ensures Mirrors(coarse, fine, Execute(coarse, s, es), Execute(fine, s, Effective(coarse, s, es)))
  {
    if es == [] {
    } else {
      var before, e := es[..|es| - 1], es[|es| - 1];
      RunsMirror(coarse, fine, s, before);
      var m, some := Execute(coarse, s, before), Effective(coarse, s, before);
      if Step(coarse, m, e) != m {
        StepMirrors(coarse, fine, m, Execute(fine, s, some), e);
        assert (some + [e])[..|some + [e]| - 1] == some;
      } else {
        assert some + [] == some;
      }
    }
  }

  /**
   The events that do something under a colliding hash are, in the same order, a run under any finer
   one, with the same tables, the same transactions and the same answers.
   */
  lemma CollisionsOnlyRemove(coarse: Config, fine: Config, s: State, es: seq<Event>)
    requires Finer(coarse, fine) && s.locks == map[]
    ensures var a, b := Execute(coarse, s, es), Execute(fine, s, Effective(coarse, s, es));
      a.db == b.db && a.txs == b.txs && a.log == b.log && a.tickets == b.tickets && a.peak == b.peak
  {
    RunsMirror(coarse, fine, s, es);
  }
}
