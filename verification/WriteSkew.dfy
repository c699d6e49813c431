/**
 Why the lock is needed: without it, read committed lets two counterparts each miss
 the other's uncommitted interest.
 */
module WriteSkew {
  import opened Base
  import opened Schema
  import H = Handlers
  import opened Protocol
  import opened ProtocolInvariant
  import opened ProtocolSafety
  import opened Runs

  ghost predicate Admitted(db: Db, req: Request) {
    && req.Express? && H.ExpressRefusal(H.SeeForExpress(db.catalog, req.pair), req.actor, req.role).None?
    && !db.ledger.Interested(req.pair, req.role.Other())
  }

  /** `t` has read everything and is about to commit as pending. */
  ghost predicate Undecided(s0: State, s: State, t: TxId, req: Request) {
    && req.Express? && s.db == s0.db
    && Stands(s0, s, t, req, Commit(H.Pending), H.SeeForExpress(s0.db.catalog, req.pair), [Want(req.pair, req.role)])
  }

  lemma FindsNobody(cfg: Config, s0: State, s: State, t: TxId, req: Request, seen: H.Seen)
    requires req.Express? && Stands(s0, s, t, req, XCounter, seen, [Want(req.pair, req.role)])
    requires !s.db.ledger.Interested(req.pair, req.role.Other())
    ensures var s' := Step(cfg, s, Run(t, 0));
      && Stands(s0, s', t, req, Commit(H.Pending), seen, [Want(req.pair, req.role)])
      && s'.db.catalog == s.db.catalog
  {
    ApplyOne(s.db, Want(req.pair, req.role));
    PutInterestKeeps(s.db.ledger, InterestKey(req.pair, req.role), Wanted, req.pair);
  }

  /** Alone and unlocked, a new request comes to the verge of its commit. */
  lemma RunsToCommit(cfg: Config, s: State, t: TxId, req: Request) returns (m: State)
    requires !cfg.serialize && Unused(s, t) && Admitted(s.db, req)
    ensures Leads(cfg, s, m) && Undecided(s, m, t, req)
  {
    var e, seen := Run(t, 0), H.SeeForExpress(s.db.catalog, req.pair);
    var m1 := ReadsBefore(cfg, s, t, req);
    ReadsBlocks(cfg, s, m1, t, req, seen);
    LeadsOn(cfg, s, m1, e);
    var m2 := Step(cfg, m1, e);
    WritesInterest(cfg, s, m2, t, req, seen);
    LeadsOn(cfg, s, m2, e);
    var m3 := Step(cfg, m2, e);
    FindsNobody(cfg, s, m3, t, req, seen);
    LeadsOn(cfg, s, m3, e);
    m := Step(cfg, m3, e);
  }

  lemma Commits(cfg: Config, s: State, t: TxId, req: Request)
    requires t in s.txs && req.Express? && s.txs[t].req == req && s.txs[t].pc == Commit(H.Pending)
    requires s.txs[t].writes == [Want(req.pair, req.role)]
    ensures var s', k := Step(cfg, s, Run(t, 0)), InterestKey(req.pair, req.role);
      && s'.db.ledger == s.db.ledger.(interests := s.db.ledger.interests[k := Wanted])
      && s'.txs == s.txs[t := s.txs[t].(pc := Finished(H.Pending))]
  {
    ApplyOne(s.db, s.txs[t].writes[0]);
  }

  /** Both commit, neither having seen the other. */
  lemma BothCommit(cfg: Config, m: State, t: TxId, u: TxId, x: Request, y: Request)
    requires t != u && t in m.txs && u in m.txs && x.Express? && y.Express?
    requires m.txs[t].req == x && m.txs[t].pc == Commit(H.Pending) && m.txs[t].writes == [Want(x.pair, x.role)]
    requires m.txs[u].req == y && m.txs[u].pc == Commit(H.Pending) && m.txs[u].writes == [Want(y.pair, y.role)]
    ensures var s' := Step(cfg, Step(cfg, m, Run(t, 0)), Run(u, 0));
      && t in s'.txs && s'.txs[t].pc == Finished(H.Pending) && u in s'.txs && s'.txs[u].pc == Finished(H.Pending)
      && s'.db.ledger.matches == m.db.ledger.matches
      && s'.db.ledger.Interested(x.pair, x.role) && s'.db.ledger.Interested(y.pair, y.role)
  {
    Commits(cfg, m, t, x);
    Commits(cfg, Step(cfg, m, Run(t, 0)), u, y);
  }

  /** From any state, two counterparts with no interest and no match yet can both be told to wait. */
  lemma UnlockedMissesAMatch(cfg: Config, s: State, t: TxId, u: TxId, a: UserId, b: UserId, pair: Pair)
      returns (es: seq<Event>)
    requires !cfg.serialize && t != u && {t, u} !! (s.txs.Keys + s.db.ledger.matches.Keys + s.db.viewings.Keys)
    requires Admitted(s.db, Express(a, pair, Tenant)) && Admitted(s.db, Express(b, pair, Landlord))
    requires !s.db.ledger.HasMatch(pair)
    ensures var s' := Execute(cfg, s, es);
      && t in s'.txs && s'.txs[t].pc == Finished(H.Pending) && u in s'.txs && s'.txs[u].pc == Finished(H.Pending)
      && s'.db.ledger.BothInterested(pair) && !s'.db.ledger.HasMatch(pair)
  {
    var x, y := Express(a, pair, Tenant), Express(b, pair, Landlord);
    assert t in {t, u} && u in {t, u};
    var m1 := RunsToCommit(cfg, s, t, x);
    var m2 := RunsToCommit(cfg, m1, u, y);
    LeadsFar(cfg, s, m1, m2);
    BothCommit(cfg, m2, t, u, x, y);
    LeadsOn(cfg, s, m2, Run(t, 0));
    LeadsOn(cfg, s, Step(cfg, m2, Run(t, 0)), Run(u, 0));
    es :| Execute(cfg, s, es) == Step(cfg, Step(cfg, m2, Run(t, 0)), Run(u, 0));
  }
}
