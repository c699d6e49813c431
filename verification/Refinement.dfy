/**
 Interleaved express and withdraw transactions do what the same requests do one at a
 time: the log of decisions, replayed serially, gives the committed interests and
 matches and every answer, and its order agrees with the order in which equal locks
 were granted.
 */
module Refinement {
  import opened Base
  import opened Schema
  import H = Handlers
  import opened Protocol
  import opened ProtocolInvariant
  import opened ProtocolSafety

  // ---- the serial run --------------------------------------------------------------

  /** One decision made alone, on what the request had read. */
  function Serve(g: Ledger, r: Record): (Ledger, H.Answer) {
    match r
    case MatchSet(m, row) => (g.(matches := g.matches[m := row]), H.Ok)
    case Served(t, Express(actor, pair, role), seen, _, _) => H.ExpressLedger(g, seen, actor, pair, role, t)
    case Served(t, Withdraw(actor, pair, role), seen, _, _) => H.WithdrawLedger(g, seen, actor, pair, role)
    case Served(_, _, _, _, _) => (g, H.Internal)
  }

  function Replay(g: Ledger, log: seq<Record>): Ledger {
    if log == [] then g else Serve(Replay(g, log[..|log| - 1]), log[|log| - 1]).0
  }

  ghost predicate AnswersOk(g: Ledger, log: seq<Record>) {
    forall i | 0 <= i < |log| && log[i].Served? :: Serve(Replay(g, log[..i]), log[i]).1 == log[i].answer
  }

  /** All that other handlers do to a match row: end it while it is on, or delete it. */
  ghost predicate EndsMatch(g: Ledger, id: MatchId, row: MatchRow) {
    && id in g.matches
    && (|| (g.matches[id].status == Active && !g.matches[id].deleted && row == g.matches[id].(status := ListingRented))
        || row == g.matches[id].(deleted := true))
  }

  ghost predicate OutsideOk(g: Ledger, log: seq<Record>) {
    forall i | 0 <= i < |log| && log[i].MatchSet? :: EndsMatch(Replay(g, log[..i]), log[i].id, log[i].row)
  }

  ghost predicate SameLock(cfg: Config, p: Pair, q: Pair) { cfg.hash(OnPair(p)) == cfg.hash(OnPair(q)) }

  /** Decisions under one lock are logged in the order in which the lock was granted. */
  ghost predicate InLockOrder(cfg: Config, log: seq<Record>) {
    forall i, j | 0 <= i < j < |log| && log[i].Served? && log[j].Served? && log[i].req.OnLedger()
        && log[j].req.OnLedger() ::
      SameLock(cfg, log[i].req.pair, log[j].req.pair) ==> log[i].ticket < log[j].ticket
  }

  ghost predicate OncePerRequest(log: seq<Record>) {
    forall i, j | 0 <= i < j < |log| && log[i].Served? && log[j].Served? :: log[i].tx != log[j].tx
  }

  ghost predicate Logged(log: seq<Record>, t: TxId, req: Request, a: H.Answer) {
    exists i :: 0 <= i < |log| && log[i].Served? && log[i].tx == t && log[i].req == req && log[i].answer == a
  }

  // ---- the invariant ------------------------------------------------------------------

  predicate Deciding(tx: Tx) { tx.req.OnLedger() && tx.Live() && !tx.pc.Rollback? }

  predicate Locked(tx: Tx) { Deciding(tx) && !tx.pc.XLock? && !tx.pc.WLock? }

  ghost predicate TxLogOk(cfg: Config, s: State, t: TxId, tx: Tx) {
    && tx.ticket <= s.tickets
    && (Deciding(tx) ==> forall i | 0 <= i < |s.log| && s.log[i].Served? :: s.log[i].tx != t)
    && (Locked(tx) ==> forall i | 0 <= i < |s.log| && s.log[i].Served? ::
          s.log[i].req.OnLedger() && SameLock(cfg, s.log[i].req.pair, tx.req.pair) ==> s.log[i].ticket < tx.ticket)
    && (tx.req.OnLedger() && (tx.pc.Rollback? || tx.pc.Finished?) ==> Logged(s.log, t, tx.req, tx.pc.answer))
  }

  /** The record is of a request of this run and of what it has read. */
  ghost predicate RecordOf(s: State, r: Record)
    requires r.Served?
  {
    r.tx in s.txs && s.txs[r.tx].req == r.req && s.txs[r.tx].seen == r.seen && r.req.OnLedger()
  }

  ghost predicate LogOk(cfg: Config, s: State) {
    && InLockOrder(cfg, s.log) && OncePerRequest(s.log)
    && (forall i | 0 <= i < |s.log| && s.log[i].Served? :: RecordOf(s, s.log[i]) && s.log[i].ticket <= s.tickets)
    && (forall t <- s.txs :: TxLogOk(cfg, s, t, s.txs[t]))
  }

  ghost predicate Refines(g: Ledger, s: State) {
    s.db.ledger == Replay(g, s.log) && AnswersOk(g, s.log) && OutsideOk(g, s.log)
  }

  // ---- what one step does to the log -----------------------------------------------------

  /** Nothing is decided and the ledger stands, or one decision is made and the ledger follows it. */
  ghost predicate Follows(s: State, s': State) {
    || (s'.log == s.log && s'.db.ledger == s.db.ledger)
    || (exists r: Record :: Decides(s, s', r))
  }

  ghost predicate Decides(s: State, s': State, r: Record) {
    && s'.log == s.log + [r] && s'.db.ledger == Serve(s.db.ledger, r).0
    && (r.Served? ==> Serve(s.db.ledger, r).1 == r.answer)
    && (r.MatchSet? ==> EndsMatch(s.db.ledger, r.id, r.row))
  }

  lemma FollowsRefines(g: Ledger, s: State, s': State)
    requires Refines(g, s) && Follows(s, s')
    ensures Refines(g, s')
  {
    if s'.log != s.log || s'.db.ledger != s.db.ledger {
      var r: Record :| Decides(s, s', r);
      assert s'.log[..|s.log|] == s.log;
      forall i | 0 <= i < |s'.log| && s'.log[i].Served?
        ensures Serve(Replay(g, s'.log[..i]), s'.log[i]).1 == s'.log[i].answer
      {
        if i < |s.log| { assert s'.log[..i] == s.log[..i]; }
      }
      forall i | 0 <= i < |s'.log| && s'.log[i].MatchSet?
        ensures EndsMatch(Replay(g, s'.log[..i]), s'.log[i].id, s'.log[i].row)
      {
        if i < |s.log| { assert s'.log[..i] == s.log[..i]; }
      }
    }
  }

  /** `t`'s own view of a statement: quiet, waiting for nothing new, or refused and logged. */
  ghost predicate Speaks(cfg: Config, s: State, s': State, t: TxId)
    requires t in s.txs
  {
    && t in s'.txs && s'.txs == s.txs[t := s'.txs[t]] && s'.txs[t].req == s.txs[t].req && s'.db.ledger == s.db.ledger
    && s.tickets <= s'.tickets
    && var tx, tx' := s.txs[t], s'.txs[t];
    if s'.log == s.log then
      && (tx.req.OnLedger() && (tx'.pc.Rollback? || tx'.pc.Finished?) ==> tx'.pc == tx.pc)
      && (Deciding(tx') ==> Deciding(tx))
      && (if tx'.ticket == tx.ticket then (Locked(tx') ==> Locked(tx)) && s'.tickets == s.tickets
          else tx'.ticket == s'.tickets == s.tickets + 1)
    else
      && Locked(tx) && tx'.pc.Rollback? && tx'.ticket == tx.ticket && s'.tickets == s.tickets
      && Decides(s, s', Served(t, tx.req, tx'.seen, tx.ticket, tx'.pc.answer))
  }

  lemma ExpressSpeaksLock(cfg: Config, s: State, t: TxId)
    requires cfg.serialize && t in s.txs && s.txs[t].req.Express? && s.txs[t].pc.XLock? && s.txs[t].ticket <= s.tickets
    ensures Speaks(cfg, s, StepExpress(cfg, s, t), t)
  {
  }

  lemma ExpressSpeaksProfile(cfg: Config, s: State, t: TxId)
    requires t in s.txs && s.txs[t].req.Express? && s.txs[t].pc.XProfile? && ExpressOk(cfg, s, t, s.txs[t])
    ensures Speaks(cfg, s, StepExpress(cfg, s, t), t)
  {
    ApplyNone(s.db);
  }

  lemma ExpressSpeaksListing(cfg: Config, s: State, t: TxId)
    requires t in s.txs && s.txs[t].req.Express? && s.txs[t].pc.XListing? && ExpressOk(cfg, s, t, s.txs[t])
    ensures Speaks(cfg, s, StepExpress(cfg, s, t), t)
  {
    ApplyNone(s.db);
  }

  lemma ExpressSpeaksBlocks(cfg: Config, s: State, t: TxId)
    requires t in s.txs && s.txs[t].req.Express? && s.txs[t].pc.XBlocks? && ExpressOk(cfg, s, t, s.txs[t])
    ensures Speaks(cfg, s, StepExpress(cfg, s, t), t)
  {
    ApplyNone(s.db);
  }

  lemma ExpressSpeaksWrites(cfg: Config, s: State, t: TxId)
    requires t in s.txs && s.txs[t].req.Express? && ExpressOk(cfg, s, t, s.txs[t])
    requires s.txs[t].pc.XUpsert? || s.txs[t].pc.XCounter?
    ensures Speaks(cfg, s, StepExpress(cfg, s, t), t)
  {
  }

  lemma ExpressSpeaksMatch(cfg: Config, s: State, t: TxId)
    requires t in s.txs && s.txs[t].req.Express? && ExpressOk(cfg, s, t, s.txs[t])
    requires s.txs[t].pc.XInsert? || s.txs[t].pc.XContact?
    ensures Speaks(cfg, s, StepExpress(cfg, s, t), t)
  {
  }

  lemma WithdrawSpeaksLock(cfg: Config, s: State, t: TxId)
    requires cfg.serialize && t in s.txs && s.txs[t].req.Withdraw? && s.txs[t].pc.WLock? && s.txs[t].ticket <= s.tickets
    ensures Speaks(cfg, s, StepWithdraw(cfg, s, t), t)
  {
  }

  lemma WithdrawSpeaksOwner(cfg: Config, s: State, t: TxId)
    requires t in s.txs && s.txs[t].req.Withdraw? && s.txs[t].pc.WOwner? && WithdrawOk(cfg, s, t, s.txs[t])
    ensures Speaks(cfg, s, StepWithdraw(cfg, s, t), t)
  {
    ApplyNone(s.db);
  }

  lemma WithdrawSpeaksMatched(cfg: Config, s: State, t: TxId)
    requires t in s.txs && s.txs[t].req.Withdraw? && s.txs[t].pc.WMatched? && WithdrawOk(cfg, s, t, s.txs[t])
    ensures Speaks(cfg, s, StepWithdraw(cfg, s, t), t)
  {
    ApplyNone(s.db);
  }

  lemma WithdrawSpeaksUpdate(cfg: Config, s: State, t: TxId)
    requires t in s.txs && s.txs[t].req.Withdraw? && s.txs[t].pc.WUpdate? && WithdrawOk(cfg, s, t, s.txs[t])
    ensures Speaks(cfg, s, StepWithdraw(cfg, s, t), t)
  {
  }

  lemma LedgerRequestSpeaks(cfg: Config, s: State, t: TxId, now: int)
    requires cfg.serialize && Inv(cfg, s) && t in s.txs && s.txs[t].req.OnLedger() && Deciding(s.txs[t])
    requires !s.txs[t].pc.Commit?
    requires s.txs[t].ticket <= s.tickets
    ensures Speaks(cfg, s, StepTx(cfg, s, t, now), t)
  {
    assert TxOk(cfg, s, t, s.txs[t]);
    if s.txs[t].pc.XLock? { ExpressSpeaksLock(cfg, s, t); }
    else if s.txs[t].pc.XProfile? { ExpressSpeaksProfile(cfg, s, t); }
    else if s.txs[t].pc.XListing? { ExpressSpeaksListing(cfg, s, t); }
    else if s.txs[t].pc.XBlocks? { ExpressSpeaksBlocks(cfg, s, t); }
    else if s.txs[t].pc.XUpsert? { ExpressSpeaksWrites(cfg, s, t); }
    else if s.txs[t].pc.XCounter? { ExpressSpeaksWrites(cfg, s, t); }
    else if s.txs[t].pc.XInsert? { ExpressSpeaksMatch(cfg, s, t); }
    else if s.txs[t].pc.XContact? { ExpressSpeaksMatch(cfg, s, t); }
    else if s.txs[t].pc.WLock? { WithdrawSpeaksLock(cfg, s, t); }
    else if s.txs[t].pc.WOwner? { WithdrawSpeaksOwner(cfg, s, t); }
    else if s.txs[t].pc.WMatched? { WithdrawSpeaksMatched(cfg, s, t); }
    else { WithdrawSpeaksUpdate(cfg, s, t); }
  }

  /** The commit of a ledger request is the serial step of that request. */
  lemma CommitDecides(cfg: Config, s: State, t: TxId)
    requires Inv(cfg, s) && t in s.txs && s.txs[t].req.OnLedger() && s.txs[t].pc.Commit?
    ensures Decides(s, StepEnd(s, t), Served(t, s.txs[t].req, s.txs[t].seen, s.txs[t].ticket, s.txs[t].pc.answer))
  {
    assert TxOk(cfg, s, t, s.txs[t]);
    if s.txs[t].req.Express? { ExpressDecides(cfg, s, t); } else { WithdrawDecides(cfg, s, t); }
  }

  lemma ExpressDecides(cfg: Config, s: State, t: TxId)
    requires t in s.txs && s.txs[t].req.Express? && s.txs[t].pc.Commit? && ExpressOk(cfg, s, t, s.txs[t])
    ensures Decides(s, StepEnd(s, t), Served(t, s.txs[t].req, s.txs[t].seen, s.txs[t].ticket, s.txs[t].pc.answer))
  {
    var tx := s.txs[t];
    var k := InterestKey(tx.req.pair, tx.req.role);
    ApplyOne(s.db, tx.writes[0]);
    PutInterestKeeps(s.db.ledger, k, Wanted, tx.req.pair);
    if |tx.writes| == 2 { ApplyTwo(s.db, tx.writes[0], tx.writes[1]); }
  }

  lemma WithdrawDecides(cfg: Config, s: State, t: TxId)
    requires t in s.txs && s.txs[t].req.Withdraw? && s.txs[t].pc.Commit? && WithdrawOk(cfg, s, t, s.txs[t])
    ensures Decides(s, StepEnd(s, t), Served(t, s.txs[t].req, s.txs[t].seen, s.txs[t].ticket, s.txs[t].pc.answer))
  {
    if s.txs[t].writes == [] { ApplyNone(s.db); } else { ApplyOne(s.db, s.txs[t].writes[0]); }
  }

  // ---- the log invariant -----------------------------------------------------------------

  lemma LoggedGrows(log: seq<Record>, r: Record, t: TxId, req: Request, a: H.Answer)
    requires Logged(log, t, req, a)
    ensures Logged(log + [r], t, req, a)
  {
    var i :| 0 <= i < |log| && log[i].Served? && log[i].tx == t && log[i].req == req && log[i].answer == a;
    assert (log + [r])[i] == log[i];
  }

  /** `t` logs its decision while holding its lock. */
  lemma DecisionKeepsLogOk(cfg: Config, s: State, s': State, t: TxId, r: Record)
    requires Inv(cfg, s) && LogOk(cfg, s) && t in s.txs && Locked(s.txs[t])
    requires r.Served? && r.tx == t && r.req == s.txs[t].req && r.ticket == s.txs[t].ticket
    requires s'.log == s.log + [r] && s'.tickets == s.tickets && t in s'.txs && s'.txs == s.txs[t := s'.txs[t]]
    requires s'.txs[t].req == r.req && s'.txs[t].seen == r.seen && s'.txs[t].ticket == r.ticket
    requires (s'.txs[t].pc.Rollback? || s'.txs[t].pc.Finished?) && s'.txs[t].pc.answer == r.answer
    ensures LogOk(cfg, s')
  {
    assert TxLogOk(cfg, s, t, s.txs[t]);
    assert s'.log[|s.log|] == r;
    forall u <- s'.txs ensures TxLogOk(cfg, s', u, s'.txs[u]) {
      if u != t {
        OtherTxLogOk(cfg, s, s', t, r, u);
      }
    }
  }

  lemma OtherTxLogOk(cfg: Config, s: State, s': State, t: TxId, r: Record, u: TxId)
    requires Inv(cfg, s) && LogOk(cfg, s) && t in s.txs && Locked(s.txs[t]) && u in s.txs && u != t
    requires r.Served? && r.tx == t && r.req == s.txs[t].req && s'.log == s.log + [r] && s'.tickets == s.tickets
    ensures TxLogOk(cfg, s', u, s.txs[u])
  {
    var tx := s.txs[u];
    assert TxLogOk(cfg, s, u, tx);
    assert TxOk(cfg, s, t, s.txs[t]) && TxOk(cfg, s, u, tx);
    if Locked(tx) {
      Exclusive(cfg, s, t, u, OnPair(s.txs[t].req.pair), OnPair(tx.req.pair));
    }
    if tx.req.OnLedger() && (tx.pc.Rollback? || tx.pc.Finished?) {
      LoggedGrows(s.log, r, u, tx.req, tx.pc.answer);
    }
  }

  /** `t` moves without deciding. */
  lemma SilentKeepsLogOk(cfg: Config, s: State, s': State, t: TxId)
    requires LogOk(cfg, s) && s'.log == s.log && s.tickets <= s'.tickets && t in s'.txs
    requires s'.txs == s.txs[t := s'.txs[t]]
    requires TxLogOk(cfg, s', t, s'.txs[t])
    requires t in s.txs ==> s'.txs[t].req == s.txs[t].req
    requires t in s.txs && s.txs[t].req.OnLedger() && !Deciding(s.txs[t]) ==> s'.txs[t].seen == s.txs[t].seen
    ensures LogOk(cfg, s')
  {
    forall u <- s'.txs ensures TxLogOk(cfg, s', u, s'.txs[u]) {
      if u != t { assert TxLogOk(cfg, s, u, s.txs[u]); }
    }
  }

  lemma SpeaksKeepsLogOk(cfg: Config, s: State, s': State, t: TxId)
    requires Inv(cfg, s) && LogOk(cfg, s) && t in s.txs && Speaks(cfg, s, s', t) && Deciding(s.txs[t])
    ensures LogOk(cfg, s') && Follows(s, s')
  {
    assert TxLogOk(cfg, s, t, s.txs[t]);
    if s'.log == s.log {
      SilentKeepsLogOk(cfg, s, s', t);
    } else {
      DecisionKeepsLogOk(cfg, s, s', t, Served(t, s.txs[t].req, s'.txs[t].seen, s.txs[t].ticket, s'.txs[t].pc.answer));
    }
  }

  /** Requests on viewings leave log and ledger alone. */
  ghost predicate Silent(s: State, s': State, t: TxId)
    requires t in s.txs
  {
    && s'.log == s.log && s'.db.ledger == s.db.ledger && s.tickets <= s'.tickets
    && t in s'.txs && s'.txs == s.txs[t := s'.txs[t]] && s'.txs[t].req == s.txs[t].req && s'.txs[t].ticket <= s'.tickets
  }

  ghost predicate Noted(s: State, s': State, t: TxId)
    requires t in s.txs
  {
    && s'.log == s.log && s.tickets <= s'.tickets && t in s'.txs && s'.txs == s.txs[t := s'.txs[t]]
    && s'.txs[t].ticket <= s'.tickets
  }

  lemma BookFirst(cfg: Config, s: State, t: TxId, now: int)
    requires t in s.txs && s.txs[t].req.Book? && s.txs[t].ticket <= s.tickets
    requires s.txs[t].pc.BMatch?
    ensures Noted(s, StepBook(cfg, s, t, now), t)
  {
  }

  lemma BookTakes(cfg: Config, s: State, t: TxId, now: int)
    requires t in s.txs && s.txs[t].req.Book? && s.txs[t].ticket <= s.tickets
    requires s.txs[t].pc.BLock?
    ensures Noted(s, StepBook(cfg, s, t, now), t)
  {
  }

  lemma BookReads(cfg: Config, s: State, t: TxId, now: int)
    requires t in s.txs && s.txs[t].req.Book? && s.txs[t].ticket <= s.tickets
    requires s.txs[t].pc.BAvail?
    ensures Noted(s, StepBook(cfg, s, t, now), t)
  {
  }

  lemma BookClaims(cfg: Config, s: State, t: TxId, now: int)
    requires t in s.txs && s.txs[t].req.Book? && s.txs[t].ticket <= s.tickets
    requires s.txs[t].pc.BBooked?
    ensures Noted(s, StepBook(cfg, s, t, now), t)
  {
  }

  lemma BookWrites(cfg: Config, s: State, t: TxId, now: int)
    requires t in s.txs && s.txs[t].req.Book? && s.txs[t].ticket <= s.tickets
    requires s.txs[t].pc.BInsert?
    ensures Noted(s, StepBook(cfg, s, t, now), t)
  {
  }

  lemma BookSilent(cfg: Config, s: State, t: TxId, now: int)
    requires cfg.serialize && Inv(cfg, s) && t in s.txs && s.txs[t].req.Book? && s.txs[t].Live()
    requires !s.txs[t].pc.Commit? && !s.txs[t].pc.Rollback? && s.txs[t].ticket <= s.tickets
    ensures Silent(s, StepTx(cfg, s, t, now), t)
  {
    assert TxOk(cfg, s, t, s.txs[t]);
    BookStep(cfg, s, t, now);
    if s.txs[t].pc.BMatch? { BookFirst(cfg, s, t, now); }
    else if s.txs[t].pc.BLock? { BookTakes(cfg, s, t, now); }
    else if s.txs[t].pc.BAvail? { BookReads(cfg, s, t, now); }
    else if s.txs[t].pc.BBooked? { BookClaims(cfg, s, t, now); }
    else { BookWrites(cfg, s, t, now); }
  }

  lemma RescheduleFirst(cfg: Config, s: State, t: TxId, now: int)
    requires t in s.txs && s.txs[t].req.Reschedule? && s.txs[t].ticket <= s.tickets
    requires s.txs[t].pc.RRow?
    ensures Noted(s, StepReschedule(cfg, s, t, now), t)
  {
  }

  lemma RescheduleTakes(cfg: Config, s: State, t: TxId, now: int)
    requires t in s.txs && s.txs[t].req.Reschedule? && s.txs[t].ticket <= s.tickets
    requires s.txs[t].pc.RLock?
    ensures Noted(s, StepReschedule(cfg, s, t, now), t)
  {
  }

  lemma RescheduleReads(cfg: Config, s: State, t: TxId, now: int)
    requires t in s.txs && s.txs[t].req.Reschedule? && s.txs[t].ticket <= s.tickets
    requires s.txs[t].pc.RAvail?
    ensures Noted(s, StepReschedule(cfg, s, t, now), t)
  {
  }

  lemma RescheduleClaims(cfg: Config, s: State, t: TxId, now: int)
    requires t in s.txs && s.txs[t].req.Reschedule? && s.txs[t].ticket <= s.tickets
    requires s.txs[t].pc.RBooked?
    ensures Noted(s, StepReschedule(cfg, s, t, now), t)
  {
  }

  lemma RescheduleWrites(cfg: Config, s: State, t: TxId, now: int)
    requires t in s.txs && s.txs[t].req.Reschedule? && s.txs[t].ticket <= s.tickets
    requires s.txs[t].pc.RUpdate?
    ensures Noted(s, StepReschedule(cfg, s, t, now), t)
  {
  }

  lemma RescheduleSilent(cfg: Config, s: State, t: TxId, now: int)
    requires cfg.serialize && Inv(cfg, s) && t in s.txs && s.txs[t].req.Reschedule? && s.txs[t].Live()
    requires !s.txs[t].pc.Commit? && !s.txs[t].pc.Rollback? && s.txs[t].ticket <= s.tickets
    ensures Silent(s, StepTx(cfg, s, t, now), t)
  {
    assert TxOk(cfg, s, t, s.txs[t]);
    RescheduleStep(cfg, s, t, now);
    if s.txs[t].pc.RRow? { RescheduleFirst(cfg, s, t, now); }
    else if s.txs[t].pc.RLock? { RescheduleTakes(cfg, s, t, now); }
    else if s.txs[t].pc.RAvail? { RescheduleReads(cfg, s, t, now); }
    else if s.txs[t].pc.RBooked? { RescheduleClaims(cfg, s, t, now); }
    else { RescheduleWrites(cfg, s, t, now); }
  }

  lemma CancelSilent(s: State, t: TxId)
    requires t in s.txs && s.txs[t].req.Cancel? && s.txs[t].ticket <= s.tickets
    ensures Silent(s, StepCancel(s, t), t)
  {
    if s.txs[t].pc.CRead? { CancelReadSilent(s, t); } else { CancelUpdateSilent(s, t); }
  }

  lemma CancelReadSilent(s: State, t: TxId)
    requires t in s.txs && s.txs[t].req.Cancel? && s.txs[t].ticket <= s.tickets && s.txs[t].pc.CRead?
    ensures Silent(s, StepCancel(s, t), t)
  {
  }

  lemma CancelUpdateSilent(s: State, t: TxId)
    requires t in s.txs && s.txs[t].req.Cancel? && s.txs[t].ticket <= s.tickets && !s.txs[t].pc.CRead?
    ensures Silent(s, StepCancel(s, t), t)
  {
  }

  lemma SilentStep(cfg: Config, s: State, s': State, t: TxId)
    requires LogOk(cfg, s) && t in s.txs && Silent(s, s', t) && !s.txs[t].req.OnLedger()
    ensures LogOk(cfg, s') && Follows(s, s')
  {
    SilentKeepsLogOk(cfg, s, s', t);
  }

  /** A transaction ends: a commit on the ledger decides, everything else was decided before. */
  lemma EndFollows(cfg: Config, s: State, t: TxId)
    requires Inv(cfg, s) && LogOk(cfg, s) && t in s.txs && (s.txs[t].pc.Commit? || s.txs[t].pc.Rollback?)
    ensures LogOk(cfg, StepEnd(s, t)) && Follows(s, StepEnd(s, t))
  {
    var tx, s' := s.txs[t], StepEnd(s, t);
    assert TxOk(cfg, s, t, tx) && TxLogOk(cfg, s, t, tx);
    if tx.pc.Commit? && tx.req.OnLedger() {
      CommitDecides(cfg, s, t);
      DecisionKeepsLogOk(cfg, s, s', t, Served(t, tx.req, tx.seen, tx.ticket, tx.pc.answer));
    } else {
      if tx.pc.Commit? { CommitTables(cfg, s, t); QuietLog(s, t); }
      EndKeepsTxs(s, t);
      SilentEnds(cfg, s, s', t);
    }
  }

  lemma EndKeepsTxs(s: State, t: TxId)
    requires t in s.txs && (s.txs[t].pc.Commit? || s.txs[t].pc.Rollback?)
    ensures StepEnd(s, t).txs == s.txs[t := s.txs[t].(pc := Finished(s.txs[t].pc.answer))]
    ensures StepEnd(s, t).tickets == s.tickets
  {
  }

  /** An end that decides nothing: the decision is in the log already, or is none of the log's business. */
  lemma SilentEnds(cfg: Config, s: State, s': State, t: TxId)
    requires LogOk(cfg, s) && t in s.txs && (s.txs[t].pc.Rollback? || (s.txs[t].pc.Commit? && !s.txs[t].req.OnLedger()))
    requires s'.log == s.log && s'.tickets == s.tickets
    requires s'.txs == s.txs[t := s.txs[t].(pc := Finished(s.txs[t].pc.answer))]
    ensures LogOk(cfg, s')
  {
    assert TxLogOk(cfg, s, t, s.txs[t]);
    SilentKeepsLogOk(cfg, s, s', t);
  }

  lemma QuietLog(s: State, t: TxId)
    requires t in s.txs && s.txs[t].pc.Commit? && !s.txs[t].req.OnLedger()
    ensures StepEnd(s, t).log == s.log
  {
  }

  lemma RunFollows(cfg: Config, s: State, t: TxId, now: int)
    requires cfg.serialize && Inv(cfg, s) && LogOk(cfg, s) && t in s.txs
    ensures var s' := StepTx(cfg, s, t, now); LogOk(cfg, s') && Follows(s, s')
  {
    var tx := s.txs[t];
    assert TxLogOk(cfg, s, t, tx);
    if tx.pc.Commit? || tx.pc.Rollback? {
      EndFollows(cfg, s, t);
    } else if !tx.Live() {
      FinishedStays(cfg, s, t, now);
    } else if tx.req.OnLedger() {
      LedgerRequestSpeaks(cfg, s, t, now);
      SpeaksKeepsLogOk(cfg, s, StepTx(cfg, s, t, now), t);
    } else {
      if tx.req.Book? { BookSilent(cfg, s, t, now); }
      else if tx.req.Reschedule? { RescheduleSilent(cfg, s, t, now); }
      else { CancelSilent(s, t); }
      SilentStep(cfg, s, StepTx(cfg, s, t, now), t);
    }
  }

  // ---- the other events ---------------------------------------------------------------------

  lemma BeginFollows(cfg: Config, s: State, t: TxId, req: Request)
    requires LogOk(cfg, s)
    ensures var s' := Step(cfg, s, Begin(t, req)); LogOk(cfg, s') && Follows(s, s')
  {
    var s' := Step(cfg, s, Begin(t, req));
    if s' != s {
      assert FirstPc(req).XLock? || FirstPc(req).WLock? || !req.OnLedger();
      SilentKeepsLogOk(cfg, s, s', t);
    }
  }

  lemma CrashFollows(cfg: Config, s: State, t: TxId)
    requires LogOk(cfg, s) && t in s.txs && s.txs[t].Live()
    ensures var s' := Release(s, t, Crashed); LogOk(cfg, s') && Follows(s, s')
  {
    assert TxLogOk(cfg, s, t, s.txs[t]);
    SilentKeepsLogOk(cfg, s, Release(s, t, Crashed), t);
  }

  /** An event outside the transactions logs the match row it sets, or leaves ledger and log alone. */
  ghost predicate Outside(s: State, s': State) {
    && s'.txs == s.txs && s'.tickets == s.tickets
    && ((s'.log == s.log && s'.db.ledger == s.db.ledger)
         || exists m: MatchId, row: MatchRow :: Decides(s, s', MatchSet(m, row)))
  }

  lemma CatalogOutside(cfg: Config, s: State, e: Event)
    requires e.OnCatalog()
    ensures Outside(s, Step(cfg, s, e))
  {
    CatalogEvent(cfg, s, e);
  }

  lemma ViewingOutside(cfg: Config, s: State, e: Event)
    requires e.OnViewing()
    ensures Outside(s, Step(cfg, s, e))
  {
    ViewingEvent(cfg, s, e);
  }

  lemma MatchOutside(cfg: Config, s: State, e: Event)
    requires e.OnMatch()
    ensures Outside(s, Step(cfg, s, e))
  {
    if e.RentMatch? { RentMatchSteps(cfg, s, e); } else { PurgeMatchSteps(cfg, s, e); }
    if Step(cfg, s, e) != s { assert Decides(s, Step(cfg, s, e), MatchSet(e.m, EndedRow(s, e))); }
  }

  lemma EventOutside(cfg: Config, s: State, e: Event)
    requires e.Outside()
    ensures Outside(s, Step(cfg, s, e))
  {
    if e.OnMatch() { MatchOutside(cfg, s, e); }
    else if e.OnViewing() { ViewingOutside(cfg, s, e); }
    else { CatalogOutside(cfg, s, e); }
  }

  lemma OutsideFollows(cfg: Config, s: State, s': State)
    requires LogOk(cfg, s) && Outside(s, s')
    ensures LogOk(cfg, s') && Follows(s, s')
  {
    if s'.log != s.log || s'.db.ledger != s.db.ledger {
      var m: MatchId, row: MatchRow :| Decides(s, s', MatchSet(m, row));
      forall u <- s'.txs ensures TxLogOk(cfg, s', u, s'.txs[u]) {
        var tx := s.txs[u];
        assert TxLogOk(cfg, s, u, tx);
        if tx.req.OnLedger() && (tx.pc.Rollback? || tx.pc.Finished?) {
          LoggedGrows(s.log, MatchSet(m, row), u, tx.req, tx.pc.answer);
        }
      }
    } else {
      forall u <- s'.txs ensures TxLogOk(cfg, s', u, s'.txs[u]) { assert TxLogOk(cfg, s, u, s.txs[u]); }
    }
  }

  lemma StepFollows(cfg: Config, s: State, e: Event)
    requires cfg.serialize && Inv(cfg, s) && LogOk(cfg, s)
    ensures LogOk(cfg, Step(cfg, s, e)) && Follows(s, Step(cfg, s, e))
  {
    if e.Begin? { BeginFollows(cfg, s, e.t, e.req); }
    else if e.Run? { if e.t in s.txs { RunFollows(cfg, s, e.t, e.now); } }
    else if e.Crash? { if e.t in s.txs && s.txs[e.t].Live() { CrashFollows(cfg, s, e.t); } }
    else {
      EventOutside(cfg, s, e);
      OutsideFollows(cfg, s, Step(cfg, s, e));
    }
  }

  lemma {:induction false} RunsFollow(cfg: Config, s: State, es: seq<Event>)
    requires cfg.serialize && Initial(s)
    ensures var m := Execute(cfg, s, es); Inv(cfg, m) && LogOk(cfg, m) && Refines(s.db.ledger, m)
  {
    Invariant(cfg, s, es);
    if es != [] {
      RunsFollow(cfg, s, es[..|es| - 1]);
      var m := Execute(cfg, s, es[..|es| - 1]);
      StepFollows(cfg, m, es[|es| - 1]);
      FollowsRefines(s.db.ledger, m, Step(cfg, m, es[|es| - 1]));
    }
  }

  /** The request of the record ran, and ended as the record says unless it died after its refusal. */
  ghost predicate RecordTold(m: State, r: Record)
    requires r.Served?
  {
    RecordOf(m, r) && m.txs[r.tx].pc in {Rollback(r.answer), Finished(r.answer), Crashed}
  }

  lemma RecordEnds(cfg: Config, m: State, i: nat)
    requires LogOk(cfg, m) && i < |m.log| && m.log[i].Served?
    ensures RecordTold(m, m.log[i])
  {
    var r := m.log[i];
    assert RecordOf(m, r) && TxLogOk(cfg, m, r.tx, m.txs[r.tx]);
    var tx := m.txs[r.tx];
    assert !Deciding(tx);
    if !tx.pc.Crashed? {
      var j :| 0 <= j < |m.log| && m.log[j].Served? && m.log[j].tx == r.tx && m.log[j].req == tx.req
          && m.log[j].answer == tx.pc.answer;
      assert j == i;
    }
  }

  /**
   Every schedule is equivalent to serving its decided requests one at a time in the
   order of the log: same interests, same matches, same answers, each request once, and
   requests that compete for a lock in the order they got it.  The log holds these requests,
   and between them only matches that other handlers end or delete.
   */
  lemma {:induction false} Serializable(cfg: Config, s: State, es: seq<Event>)
    requires cfg.serialize && Initial(s)
    ensures var m := Execute(cfg, s, es);
      && m.db.ledger == Replay(s.db.ledger, m.log)
      && AnswersOk(s.db.ledger, m.log) && OutsideOk(s.db.ledger, m.log)
      && InLockOrder(cfg, m.log) && OncePerRequest(m.log)
      && (forall t <- m.txs :: m.txs[t].req.OnLedger() && m.txs[t].pc.Finished? ==>
            Logged(m.log, t, m.txs[t].req, m.txs[t].pc.answer))
      && (forall i | 0 <= i < |m.log| && m.log[i].Served? :: RecordTold(m, m.log[i]))
  {
    RunsFollow(cfg, s, es);
    var m := Execute(cfg, s, es);
    forall t <- m.txs | m.txs[t].req.OnLedger() && m.txs[t].pc.Finished?
      ensures Logged(m.log, t, m.txs[t].req, m.txs[t].pc.answer)
    {
      assert TxLogOk(cfg, m, t, m.txs[t]);
    }
    forall i | 0 <= i < |m.log| && m.log[i].Served? ensures RecordTold(m, m.log[i]) { RecordEnds(cfg, m, i); }
  }

  // ---- a catalog nobody edits ----------------------------------------------------------------

  /** The event edits neither profiles nor listings nor blocks. */
  predicate LeavesCatalog(e: Event) { !e.PutProfile? && !e.PutListing? && !e.SetAvailability? && !e.SetBlock? }

  ghost predicate SameReads(c: Catalog, c': Catalog) {
    c'.profiles == c.profiles && c'.listings == c.listings && c'.blocks == c.blocks
  }

  /** What an undecided request has read so far is what the catalog says. */
  ghost predicate SeenTrue(c: Catalog, tx: Tx) {
    match tx.req
    case Express(actor, pair, role) =>
      var see := H.SeeForExpress(c, pair);
      (match tx.pc
       case XLock => tx.seen == H.Seen(None, None, false)
       case XProfile => tx.seen == H.Seen(None, None, false)
       case XListing => tx.seen == H.Seen(see.profile, None, false)
       case XBlocks => tx.seen == see.(blocked := false)
       case Rollback(_) => true
       case Finished(_) => true
       case Crashed => true
       case _ => tx.seen == see)
    case Withdraw(actor, pair, role) =>
      !tx.Live() || tx.pc.Rollback? || tx.pc.WLock? || tx.pc.WOwner? || tx.seen == H.SeeForWithdraw(c, pair, role)
    case _ => true
  }

  /** The decision would be the same on everything the catalog has for the request. */
  ghost predicate RecordTrue(c: Catalog, r: Record) {
    r.Served? ==>
      match r.req
      case Express(actor, pair, role) =>
        var see := H.SeeForExpress(c, pair);
        H.ExpressRefusal(r.seen, actor, role) == H.ExpressRefusal(see, actor, role)
        && (H.ExpressRefusal(see, actor, role).None? ==> r.seen == see)
      case Withdraw(actor, pair, role) => r.seen == H.SeeForWithdraw(c, pair, role)
      case _ => true
  }

  ghost predicate CatalogTrue(c: Catalog, s: State) {
    && SameReads(c, s.db.catalog)
    && (forall t <- s.txs :: SeenTrue(c, s.txs[t]))
    && (forall i | 0 <= i < |s.log| :: RecordTrue(c, s.log[i]))
  }

  /** One event as far as reads and records go. */
  ghost predicate ReadsTrue(c: Catalog, s: State, s': State, t: TxId) {
    && SameReads(c, s'.db.catalog)
    && t in s'.txs && s'.txs == s.txs[t := s'.txs[t]] && SeenTrue(c, s'.txs[t])
    && (s'.log == s.log || exists r: Record :: s'.log == s.log + [r] && RecordTrue(c, r))
  }

  lemma ReadsTrueKeeps(c: Catalog, s: State, s': State, t: TxId)
    requires CatalogTrue(c, s) && ReadsTrue(c, s, s', t)
    ensures CatalogTrue(c, s')
  {
  }

  lemma UpdateReads(c: Catalog, s: State, t: TxId, tx: Tx)
    requires t in s.txs && SameReads(c, s.db.catalog) && SeenTrue(c, tx)
    ensures ReadsTrue(c, s, Update(s, t, tx), t)
  {
  }

  /** A refusal on what has been read, which the whole catalog would refuse as well. */
  lemma RefuseReads(c: Catalog, s: State, t: TxId, tx: Tx, a: H.Answer)
    requires t in s.txs && SameReads(c, s.db.catalog) && tx.req.OnLedger()
    requires RecordTrue(c, Served(t, tx.req, tx.seen, tx.ticket, a))
    requires tx.req.Withdraw? ==> tx.seen == H.SeeForWithdraw(c, tx.req.pair, tx.req.role)
    ensures ReadsTrue(c, s, Refuse(Update(s, t, tx), t, a), t)
  {
    var s' := Refuse(Update(s, t, tx), t, a);
    assert s'.log == s.log + [Served(t, tx.req, tx.seen, tx.ticket, a)];
  }

  lemma ExpressReadsProfile(cfg: Config, c: Catalog, s: State, t: TxId)
    requires t in s.txs && s.txs[t].req.Express? && ExpressOk(cfg, s, t, s.txs[t]) && s.txs[t].pc.XProfile?
    requires SameReads(c, s.db.catalog) && SeenTrue(c, s.txs[t])
    ensures ReadsTrue(c, s, StepExpress(cfg, s, t), t)
  {
    ApplyNone(s.db);
    var tx := s.txs[t];
    var row := s.db.catalog.VisibleProfile(tx.req.pair.profile);
    var read, no := tx.(seen := tx.seen.(profile := row)), H.CheckProfile(row, tx.req.actor, tx.req.role);
    if no.Some? { RefuseReads(c, s, t, read, no.value); } else { UpdateReads(c, s, t, read.(pc := XListing)); }
  }

  lemma ExpressReadsListing(cfg: Config, c: Catalog, s: State, t: TxId)
    requires t in s.txs && s.txs[t].req.Express? && ExpressOk(cfg, s, t, s.txs[t]) && s.txs[t].pc.XListing?
    requires SameReads(c, s.db.catalog) && SeenTrue(c, s.txs[t])
    ensures ReadsTrue(c, s, StepExpress(cfg, s, t), t)
  {
    ApplyNone(s.db);
    var tx := s.txs[t];
    var row := s.db.catalog.PublicListing(tx.req.pair.listing);
    var read, no := tx.(seen := tx.seen.(listing := row)), H.CheckListing(row, tx.req.actor, tx.req.role);
    if no.Some? { RefuseReads(c, s, t, read, no.value); } else { UpdateReads(c, s, t, read.(pc := XBlocks)); }
  }

  lemma ExpressReadsBlocks(cfg: Config, c: Catalog, s: State, t: TxId)
    requires t in s.txs && s.txs[t].req.Express? && ExpressOk(cfg, s, t, s.txs[t]) && s.txs[t].pc.XBlocks?
    requires SameReads(c, s.db.catalog) && SeenTrue(c, s.txs[t])
    ensures ReadsTrue(c, s, StepExpress(cfg, s, t), t)
  {
    ApplyNone(s.db);
    var tx := s.txs[t];
    var b := s.db.catalog.Blocked(tx.seen.profile.value.owner, tx.seen.listing.value.owner);
    var read := tx.(seen := tx.seen.(blocked := b));
    if b { RefuseReads(c, s, t, read, H.UsersBlocked); } else { UpdateReads(c, s, t, read.(pc := XUpsert)); }
  }

  lemma ExpressReadsLock(cfg: Config, c: Catalog, s: State, t: TxId)
    requires t in s.txs && s.txs[t].req.Express? && ExpressOk(cfg, s, t, s.txs[t]) && s.txs[t].pc.XLock?
    requires SameReads(c, s.db.catalog) && SeenTrue(c, s.txs[t])
    ensures ReadsTrue(c, s, StepExpress(cfg, s, t), t)
  {
  }

  lemma ExpressReadsUpsert(cfg: Config, c: Catalog, s: State, t: TxId)
    requires t in s.txs && s.txs[t].req.Express? && ExpressOk(cfg, s, t, s.txs[t]) && s.txs[t].pc.XUpsert?
    requires SameReads(c, s.db.catalog) && SeenTrue(c, s.txs[t])
    ensures ReadsTrue(c, s, StepExpress(cfg, s, t), t)
  {
    var tx, w := s.txs[t], PutInterest(InterestKey(s.txs[t].req.pair, s.txs[t].req.role), Wanted);
    UpdateReads(c, s, t, tx.(writes := tx.writes + [w], pc := XCounter));
  }

  lemma ExpressReadsCounter(cfg: Config, c: Catalog, s: State, t: TxId)
    requires t in s.txs && s.txs[t].req.Express? && ExpressOk(cfg, s, t, s.txs[t]) && s.txs[t].pc.XCounter?
    requires SameReads(c, s.db.catalog) && SeenTrue(c, s.txs[t])
    ensures ReadsTrue(c, s, StepExpress(cfg, s, t), t)
  {
    UpdateReads(c, s, t, s.txs[t].(pc := XInsert));
    UpdateReads(c, s, t, s.txs[t].(pc := Commit(H.Pending)));
  }

  lemma ExpressReadsInsert(cfg: Config, c: Catalog, s: State, t: TxId)
    requires t in s.txs && s.txs[t].req.Express? && ExpressOk(cfg, s, t, s.txs[t]) && s.txs[t].pc.XInsert?
    requires SameReads(c, s.db.catalog) && SeenTrue(c, s.txs[t])
    ensures ReadsTrue(c, s, StepExpress(cfg, s, t), t)
  {
    var tx := s.txs[t];
    UpdateReads(c, s, t, tx.(pc := XContact));
    UpdateReads(c, s, t, tx.(writes := tx.writes + [InsertMatch(t, H.NewMatch(tx.seen, tx.req.pair))], pc := XContact));
  }

  lemma ExpressReadsContact(cfg: Config, c: Catalog, s: State, t: TxId)
    requires t in s.txs && s.txs[t].req.Express? && ExpressOk(cfg, s, t, s.txs[t]) && s.txs[t].pc.XContact?
    requires SameReads(c, s.db.catalog) && SeenTrue(c, s.txs[t])
    ensures ReadsTrue(c, s, StepExpress(cfg, s, t), t)
  {
    UpdateReads(c, s, t, s.txs[t].(pc := Commit(H.Matched(H.ContactShown(s.txs[t].seen, s.txs[t].req.role)))));
  }

  lemma WithdrawReadsOwner(cfg: Config, c: Catalog, s: State, t: TxId)
    requires t in s.txs && s.txs[t].req.Withdraw? && WithdrawOk(cfg, s, t, s.txs[t]) && s.txs[t].pc.WOwner?
    requires SameReads(c, s.db.catalog) && SeenTrue(c, s.txs[t])
    ensures ReadsTrue(c, s, StepWithdraw(cfg, s, t), t)
  {
    ApplyNone(s.db);
    var tx := s.txs[t];
    var seen := H.SeeForWithdraw(s.db.catalog, tx.req.pair, tx.req.role);
    var read, no := tx.(seen := seen), H.WithdrawRefusal(seen, tx.req.actor, tx.req.role);
    if no.Some? { RefuseReads(c, s, t, read, no.value); } else { UpdateReads(c, s, t, read.(pc := WMatched)); }
  }

  lemma WithdrawReadsMatched(cfg: Config, c: Catalog, s: State, t: TxId)
    requires t in s.txs && s.txs[t].req.Withdraw? && WithdrawOk(cfg, s, t, s.txs[t]) && s.txs[t].pc.WMatched?
    requires SameReads(c, s.db.catalog) && SeenTrue(c, s.txs[t])
    ensures ReadsTrue(c, s, StepWithdraw(cfg, s, t), t)
  {
    ApplyNone(s.db);
    if s.db.ledger.HasLiveMatch(s.txs[t].req.pair) { RefuseReads(c, s, t, s.txs[t], H.AlreadyMatched); }
    else { UpdateReads(c, s, t, s.txs[t].(pc := WUpdate)); }
  }

  lemma WithdrawReadsNothing(cfg: Config, c: Catalog, s: State, t: TxId)
    requires cfg.serialize && t in s.txs && s.txs[t].req.Withdraw? && WithdrawOk(cfg, s, t, s.txs[t])
    requires s.txs[t].pc.WLock? || s.txs[t].pc.WUpdate?
    requires SameReads(c, s.db.catalog) && SeenTrue(c, s.txs[t])
    ensures ReadsTrue(c, s, StepWithdraw(cfg, s, t), t)
  {
  }

  lemma RollbackReads(c: Catalog, s: State, t: TxId)
    requires t in s.txs && s.txs[t].pc.Rollback? && SameReads(c, s.db.catalog) && SeenTrue(c, s.txs[t])
    ensures ReadsTrue(c, s, StepEnd(s, t), t)
  {
  }

  lemma CommitReads(cfg: Config, c: Catalog, s: State, t: TxId)
    requires Inv(cfg, s) && t in s.txs && s.txs[t].pc.Commit? && SameReads(c, s.db.catalog) && SeenTrue(c, s.txs[t])
    ensures ReadsTrue(c, s, StepEnd(s, t), t)
  {
    CommitTables(cfg, s, t);
    CommitsTx(s, t);
    CommitLogs(c, s, t);
  }

  /** A commit logs the record of its request, if it logs one, as the transaction has read. */
  lemma CommitLogs(c: Catalog, s: State, t: TxId)
    requires t in s.txs && s.txs[t].pc.Commit? && SeenTrue(c, s.txs[t])
    ensures var s' := StepEnd(s, t);
      s'.log == s.log || exists r: Record :: s'.log == s.log + [r] && RecordTrue(c, r)
    ensures SeenTrue(c, s.txs[t].(pc := Finished(s.txs[t].pc.answer)))
  {
    if s.txs[t].req.OnLedger() {
      var r := Served(t, s.txs[t].req, s.txs[t].seen, s.txs[t].ticket, s.txs[t].pc.answer);
      assert StepEnd(s, t).log == s.log + [r] && RecordTrue(c, r);
    }
  }

  lemma CommitsTx(s: State, t: TxId)
    requires t in s.txs && s.txs[t].pc.Commit?
    ensures StepEnd(s, t).txs == s.txs[t := s.txs[t].(pc := Finished(s.txs[t].pc.answer))]
  {
  }

  lemma ExpressReadsTrue(cfg: Config, c: Catalog, s: State, t: TxId)
    requires cfg.serialize && t in s.txs && s.txs[t].req.Express? && ExpressOk(cfg, s, t, s.txs[t])
    requires s.txs[t].Live() && !s.txs[t].pc.Commit? && !s.txs[t].pc.Rollback?
    requires SameReads(c, s.db.catalog) && SeenTrue(c, s.txs[t])
    ensures ReadsTrue(c, s, StepExpress(cfg, s, t), t)
  {
    if s.txs[t].pc.XProfile? { ExpressReadsProfile(cfg, c, s, t); }
    else if s.txs[t].pc.XListing? { ExpressReadsListing(cfg, c, s, t); }
    else if s.txs[t].pc.XBlocks? { ExpressReadsBlocks(cfg, c, s, t); }
    else if s.txs[t].pc.XInsert? { ExpressReadsInsert(cfg, c, s, t); }
    else if s.txs[t].pc.XContact? { ExpressReadsContact(cfg, c, s, t); }
    else if s.txs[t].pc.XLock? { ExpressReadsLock(cfg, c, s, t); }
    else if s.txs[t].pc.XUpsert? { ExpressReadsUpsert(cfg, c, s, t); }
    else { ExpressReadsCounter(cfg, c, s, t); }
  }

  lemma WithdrawReadsTrue(cfg: Config, c: Catalog, s: State, t: TxId)
    requires cfg.serialize && t in s.txs && s.txs[t].req.Withdraw? && WithdrawOk(cfg, s, t, s.txs[t])
    requires s.txs[t].Live() && !s.txs[t].pc.Commit? && !s.txs[t].pc.Rollback?
    requires SameReads(c, s.db.catalog) && SeenTrue(c, s.txs[t])
    ensures ReadsTrue(c, s, StepWithdraw(cfg, s, t), t)
  {
    if s.txs[t].pc.WOwner? { WithdrawReadsOwner(cfg, c, s, t); }
    else if s.txs[t].pc.WMatched? { WithdrawReadsMatched(cfg, c, s, t); }
    else { WithdrawReadsNothing(cfg, c, s, t); }
  }

  lemma ViewingRequestReads(cfg: Config, c: Catalog, s: State, t: TxId, now: int)
    requires cfg.serialize && Inv(cfg, s) && t in s.txs && !s.txs[t].req.OnLedger() && s.txs[t].Live()
    requires !s.txs[t].pc.Commit? && !s.txs[t].pc.Rollback? && s.txs[t].ticket <= s.tickets
    requires SameReads(c, s.db.catalog)
    ensures ReadsTrue(c, s, StepTx(cfg, s, t, now), t)
  {
    if s.txs[t].req.Book? { BookSilent(cfg, s, t, now); StatementQuiet(cfg, s, t, now); }
    else if s.txs[t].req.Reschedule? { RescheduleSilent(cfg, s, t, now); StatementQuiet(cfg, s, t, now); }
    else { CancelSilent(s, t); CancelKeepsCatalog(s, t); }
  }

  lemma CancelKeepsCatalog(s: State, t: TxId)
    requires t in s.txs && s.txs[t].req.Cancel?
    ensures StepCancel(s, t).db.catalog == s.db.catalog
  {
    if !s.txs[t].pc.CUpdate? { CancelReadKeepsTables(s, t); }
  }

  lemma CancelReadKeepsTables(s: State, t: TxId)
    requires t in s.txs && s.txs[t].req.Cancel? && !s.txs[t].pc.CUpdate?
    ensures StepCancel(s, t).db == s.db
  {
  }

  lemma RunReads(cfg: Config, c: Catalog, s: State, t: TxId, now: int)
    requires cfg.serialize && Inv(cfg, s) && LogOk(cfg, s) && t in s.txs && SameReads(c, s.db.catalog)
    requires SeenTrue(c, s.txs[t])
    ensures ReadsTrue(c, s, StepTx(cfg, s, t, now), t)
  {
    assert TxOk(cfg, s, t, s.txs[t]) && TxLogOk(cfg, s, t, s.txs[t]);
    if s.txs[t].pc.Commit? {
      CommitReads(cfg, c, s, t);
    } else if s.txs[t].pc.Rollback? {
      RollbackReads(c, s, t);
    } else if !s.txs[t].Live() {
      FinishedStays(cfg, s, t, now);
    } else if s.txs[t].req.Express? {
      ExpressReadsTrue(cfg, c, s, t);
    } else if s.txs[t].req.Withdraw? {
      WithdrawReadsTrue(cfg, c, s, t);
    } else {
      ViewingRequestReads(cfg, c, s, t, now);
    }
  }

  lemma StepReads(cfg: Config, c: Catalog, s: State, e: Event)
    requires cfg.serialize && Inv(cfg, s) && LogOk(cfg, s) && CatalogTrue(c, s) && LeavesCatalog(e)
    ensures CatalogTrue(c, Step(cfg, s, e))
  {
    if e.Run? {
      if e.t in s.txs {
        RunReads(cfg, c, s, e.t, e.now);
        ReadsTrueKeeps(c, s, StepTx(cfg, s, e.t, e.now), e.t);
      }
    } else if e.Begin? {
      if Step(cfg, s, e) != s { BeginReads(cfg, c, s, e); }
    } else if e.Crash? {
      if e.t in s.txs && s.txs[e.t].Live() { ReadsTrueKeeps(c, s, Release(s, e.t, Crashed), e.t); }
    } else {
      OtherReads(cfg, c, s, e);
    }
  }

  lemma BeginReads(cfg: Config, c: Catalog, s: State, e: Event)
    requires CatalogTrue(c, s) && e.Begin? && Step(cfg, s, e) != s
    ensures CatalogTrue(c, Step(cfg, s, e))
  {
    assert SeenTrue(c, Step(cfg, s, e).txs[e.t]);
    ReadsTrueKeeps(c, s, Step(cfg, s, e), e.t);
  }

  lemma OutsideReads(c: Catalog, s: State, s': State)
    requires CatalogTrue(c, s) && Outside(s, s') && SameReads(c, s'.db.catalog)
    ensures CatalogTrue(c, s')
  {
    if s'.log != s.log {
      var m: MatchId, row: MatchRow :| Decides(s, s', MatchSet(m, row));
      assert RecordTrue(c, MatchSet(m, row));
    }
  }

  lemma SuspendLeavesCatalog(cfg: Config, s: State, e: Event)
    requires e.Suspend?
    ensures SameReads(s.db.catalog, Step(cfg, s, e).db.catalog)
  {
  }

  lemma OtherReads(cfg: Config, c: Catalog, s: State, e: Event)
    requires CatalogTrue(c, s) && LeavesCatalog(e) && e.Outside()
    ensures CatalogTrue(c, Step(cfg, s, e))
  {
    if e.OnMatch() { MatchOutside(cfg, s, e); MatchEvent(cfg, s, e); }
    else if e.OnViewing() { ViewingOutside(cfg, s, e); ViewingEvent(cfg, s, e); }
    else { CatalogOutside(cfg, s, e); SuspendLeavesCatalog(cfg, s, e); }
    OutsideReads(c, s, Step(cfg, s, e));
  }

  lemma {:induction false} RunsRead(cfg: Config, s: State, es: seq<Event>)
    requires cfg.serialize && Initial(s) && forall e <- es :: LeavesCatalog(e)
    ensures CatalogTrue(s.db.catalog, Execute(cfg, s, es))
  {
    if es != [] {
      RunsRead(cfg, s, es[..|es| - 1]);
      RunsFollow(cfg, s, es[..|es| - 1]);
      StepReads(cfg, s.db.catalog, Execute(cfg, s, es[..|es| - 1]), es[|es| - 1]);
    }
  }

  /** One record as a whole request on the tables. */
  function ServeAlone(db: Db, r: Record): (Db, H.Answer) {
    match r
    case MatchSet(m, row) => (db.(ledger := db.ledger.(matches := db.ledger.matches[m := row])), H.Ok)
    case Served(t, Express(actor, pair, role), _, _, _) => H.Express(db, actor, pair, role, t)
    case Served(_, Withdraw(actor, pair, role), _, _, _) => H.Withdraw(db, actor, pair, role)
    case Served(_, _, _, _, _) => (db, H.Internal)
  }

  function RunAlone(db: Db, log: seq<Record>): Db {
    if log == [] then db else ServeAlone(RunAlone(db, log[..|log| - 1]), log[|log| - 1]).0
  }

  lemma ServeAloneIs(db: Db, r: Record)
    requires RecordTrue(db.catalog, r)
    ensures ServeAlone(db, r).0 == db.(ledger := Serve(db.ledger, r).0) && ServeAlone(db, r).1 == Serve(db.ledger, r).1
  {
  }

  lemma {:induction false} RunAloneIs(db: Db, log: seq<Record>)
    requires forall i | 0 <= i < |log| :: RecordTrue(db.catalog, log[i])
    ensures RunAlone(db, log) == db.(ledger := Replay(db.ledger, log))
  {
    if log != [] {
      RunAloneIs(db, log[..|log| - 1]);
      ServeAloneIs(RunAlone(db, log[..|log| - 1]), log[|log| - 1]);
    }
  }

  /** With a catalog nobody edits, the serial run is of the whole handlers, reads included. */
  lemma {:induction false} SerializableHandlers(cfg: Config, s: State, es: seq<Event>)
    requires cfg.serialize && Initial(s) && forall e <- es :: LeavesCatalog(e)
    ensures var m := Execute(cfg, s, es);
      && RunAlone(s.db, m.log).ledger == m.db.ledger
      && (forall i | 0 <= i < |m.log| && m.log[i].Served? ::
            ServeAlone(RunAlone(s.db, m.log[..i]), m.log[i]).1 == m.log[i].answer && RecordTold(m, m.log[i]))
      && OutsideOk(s.db.ledger, m.log)
  {
    RunsRead(cfg, s, es);
    RunsFollow(cfg, s, es);
    var m := Execute(cfg, s, es);
    RunAloneIs(s.db, m.log);
    forall i | 0 <= i < |m.log| && m.log[i].Served?
      ensures ServeAlone(RunAlone(s.db, m.log[..i]), m.log[i]).1 == m.log[i].answer && RecordTold(m, m.log[i])
    {
      RecordEnds(cfg, m, i);
      RunAloneIs(s.db, m.log[..i]);
      ServeAloneIs(RunAlone(s.db, m.log[..i]), m.log[i]);
    }
  }
}
