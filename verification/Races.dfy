/** Promises that hold for requests one at a time and not under interleaving: the steps that break them, and runs. */
module Races {
  import opened Base
  import opened Schema
  import H = Handlers
  import opened Protocol
  import opened ProtocolInvariant
  import opened ProtocolSafety
  import Scheduling
  import Renting
  import opened Runs

  // ---- an attended viewing is cancelled after all ----------------------------------------

  /** A cancellation that has read the viewing and has its update still to do, on a row nobody locks. */
  predicate LateCancel(s: State, e: Event, v: ViewingId) {
    && e.Run? && e.t in s.txs && s.txs[e.t].req.Cancel? && s.txs[e.t].req.viewing == v
    && s.txs[e.t].pc.CUpdate? && v !in s.rows
  }

  lemma ServingKeepsStatus(viewings: Viewings, t: TxId, req: Request, r: Scheduling.Reads, v: ViewingId)
    requires Scheduling.OnViewings(req) && v in viewings && v != t
    ensures var d := Scheduling.ServeOn(viewings, t, req, r).0; v in d && d[v].status == viewings[v].status
  {
  }

  lemma ViewingRunKeepsStatus(cfg: Config, s: State, t: TxId, now: int, v: ViewingId)
    requires cfg.serialize && Inv(cfg, s) && t in s.txs && Scheduling.OnViewings(s.txs[t].req) && v in s.db.viewings
    ensures var s' := StepTx(cfg, s, t, now); v in s'.db.viewings && s'.db.viewings[v].status == s.db.viewings[v].status
  {
    Scheduling.StatementServes(cfg, s, t, now);
    if Scheduling.Decided(s, StepTx(cfg, s, t, now), t) {
      assert TxOk(cfg, s, t, s.txs[t]) && s.txs[t].Live();
      ServingKeepsStatus(s.db.viewings, t, s.txs[t].req, Scheduling.ReadsOf(s, t, now), v);
    }
  }

  lemma CancelRunStatus(cfg: Config, s: State, t: TxId, now: int, v: ViewingId)
    requires t in s.txs && s.txs[t].req.Cancel? && CancelOk(s.txs[t])
    requires v in s.db.viewings && s.db.viewings[v].status == Completed && !s.db.viewings[v].deleted
    ensures var s' := StepCancel(s, t);
      v in s'.db.viewings && (s'.db.viewings[v].status != Completed <==> LateCancel(s, Run(t, now), v))
  {
    if !s.txs[t].pc.CUpdate? {
      assert StepCancel(s, t).db == s.db;
    }
  }

  lemma RunStatus(cfg: Config, s: State, t: TxId, now: int, v: ViewingId)
    requires cfg.serialize && Inv(cfg, s) && t in s.txs
    requires v in s.db.viewings && s.db.viewings[v].status == Completed && !s.db.viewings[v].deleted
    ensures var s' := StepTx(cfg, s, t, now);
      v in s'.db.viewings && (s'.db.viewings[v].status != Completed <==> LateCancel(s, Run(t, now), v))
  {
    assert TxOk(cfg, s, t, s.txs[t]);
    if Scheduling.OnViewings(s.txs[t].req) {
      ViewingRunKeepsStatus(cfg, s, t, now, v);
    } else if s.txs[t].pc.Rollback? {
    } else if s.txs[t].req.Cancel? {
      CancelRunStatus(cfg, s, t, now, v);
    } else {
      Scheduling.RunOnlyEnds(cfg, s, t, now);
      LedgerRunKeepsViewings(cfg, s, t, now);
    }
  }

  lemma LedgerRunKeepsViewings(cfg: Config, s: State, t: TxId, now: int)
    requires cfg.serialize && Inv(cfg, s) && t in s.txs && s.txs[t].req.OnLedger() && !s.txs[t].pc.Rollback?
    ensures StepTx(cfg, s, t, now).db.viewings == s.db.viewings
  {
    if s.txs[t].pc.Commit? { CommitTables(cfg, s, t); } else { StatementQuiet(cfg, s, t, now); }
  }

  /** An attended viewing stops being completed by exactly one kind of step: the update of a late cancellation. */
  lemma AttendedUndoneIff(cfg: Config, s: State, e: Event, v: ViewingId)
    requires cfg.serialize && Inv(cfg, s)
    requires v in s.db.viewings && s.db.viewings[v].status == Completed && !s.db.viewings[v].deleted
    ensures var s' := Step(cfg, s, e);
      v in s'.db.viewings && (s'.db.viewings[v].status != Completed <==> LateCancel(s, e, v))
  {
    if e.Run? {
      if e.t in s.txs { RunStatus(cfg, s, e.t, e.now, v); }
    } else if e.OnViewing() {
      RowEventStatus(cfg, s, e, v);
    } else {
      OthersKeepViewings(cfg, s, e);
    }
  }

  lemma RowEventStatus(cfg: Config, s: State, e: Event, v: ViewingId)
    requires e.OnViewing()
    requires v in s.db.viewings && s.db.viewings[v].status == Completed && !s.db.viewings[v].deleted
    ensures v in Step(cfg, s, e).db.viewings && Step(cfg, s, e).db.viewings[v].status == Completed
  {
    if e.v != v {
      Scheduling.RowEventOnlyEnds(cfg, s, e);
    }
  }

  // ---- runs, one event at a time ---------------------------------------------------------

  lemma CancelReads(cfg: Config, s: State, t: TxId, actor: UserId, v: ViewingId)
    requires t in s.txs && s.txs[t] == Fresh(Cancel(actor, v))
    requires H.ViewingRefusal(H.LiveViewing(s.db.viewings, v), actor).None?
    ensures Step(cfg, s, Run(t, 0)) == Goto(s, t, CUpdate(H.CancelStatus(s.db.viewings[v], actor)))
  {
  }

  lemma Attends(cfg: Config, s: State, v: ViewingId)
    requires v in s.db.viewings && s.db.viewings[v].Occupies() && v !in s.rows
    ensures Step(cfg, s, AttendViewing(s.db.viewings[v].landlord, v))
          == SetViewing(s, v, s.db.viewings[v].(status := Completed))
  {
  }

  lemma CancelUpdates(cfg: Config, s: State, t: TxId, v: ViewingId, to: ViewingStatus)
    requires t in s.txs && s.txs[t].req.Cancel? && s.txs[t].req.viewing == v && s.txs[t].pc == CUpdate(to)
    requires H.LiveViewing(s.db.viewings, v).Some? && v !in s.rows
    ensures Step(cfg, s, Run(t, 0)).db == SetViewing(s, v, s.db.viewings[v].(status := to)).db
  {
  }

  lemma FourSteps(cfg: Config, s: State, e0: Event, e1: Event, e2: Event, e3: Event) returns (es: seq<Event>)
    ensures var m := Step(cfg, Step(cfg, Step(cfg, s, e0), e1), e2);
      |es| == 4 && Execute(cfg, s, es[..3]) == m && Execute(cfg, s, es) == Step(cfg, m, e3)
  {
    es := [e0, e1, e2, e3];
    assert es[..1] == [] + [e0] && es[..2] == es[..1] + [e1] && es[..3] == es[..2] + [e2] && es == es[..3] + [e3];
    ExecuteLast(cfg, s, [], e0);
    ExecuteLast(cfg, s, es[..1], e1);
    ExecuteLast(cfg, s, es[..2], e2);
    ExecuteLast(cfg, s, es[..3], e3);
  }

  /** The cancellation has begun and read the viewing. */
  lemma CancelStands(cfg: Config, s: State, t: TxId, actor: UserId, v: ViewingId) returns (m: State)
    requires Unused(s, t) && H.ViewingRefusal(H.LiveViewing(s.db.viewings, v), actor).None?
    ensures m == Step(cfg, Step(cfg, s, Begin(t, Cancel(actor, v))), Run(t, 0))
    ensures m.db == s.db && m.rows == s.rows && t in m.txs && m.txs[t].req == Cancel(actor, v)
    ensures m.txs[t].pc == CUpdate(H.CancelStatus(s.db.viewings[v], actor))
  {
    m := Step(cfg, Step(cfg, s, Begin(t, Cancel(actor, v))), Run(t, 0));
    Begins(cfg, s, t, Cancel(actor, v));
    CancelReads(cfg, Update(s, t, Fresh(Cancel(actor, v))), t, actor, v);
  }

  /** The viewing is completed, and then the update comes. */
  lemma CompletedThenCancelled(cfg: Config, s: State, t: TxId, v: ViewingId, to: ViewingStatus)
    requires t in s.txs && s.txs[t].req.Cancel? && s.txs[t].req.viewing == v && s.txs[t].pc == CUpdate(to)
    requires v in s.db.viewings && s.db.viewings[v].Occupies() && v !in s.rows
    ensures var m := Step(cfg, s, AttendViewing(s.db.viewings[v].landlord, v));
      && v in m.db.viewings && m.db.viewings[v].status == Completed
      && var n := Step(cfg, m, Run(t, 0)); v in n.db.viewings && n.db.viewings[v] == s.db.viewings[v].(status := to)
  {
    Attends(cfg, s, v);
    CancelUpdates(cfg, SetViewing(s, v, s.db.viewings[v].(status := Completed)), t, v, to);
  }

  /** From every state with a confirmed viewing that nobody locks, a run of four events completes it and cancels it. */
  lemma CancelAfterAttendance(cfg: Config, s: State, t: TxId, actor: UserId, v: ViewingId) returns (es: seq<Event>)
    requires Unused(s, t) && v !in s.rows && H.ViewingRefusal(H.LiveViewing(s.db.viewings, v), actor).None?
    ensures |es| == 4
    ensures var m := Execute(cfg, s, es[..3]); v in m.db.viewings && m.db.viewings[v].status == Completed
    ensures var m := Execute(cfg, s, es); v in m.db.viewings && m.db.viewings[v].Ended() && !m.db.viewings[v].deleted
  {
    var e := AttendViewing(s.db.viewings[v].landlord, v);
    es := FourSteps(cfg, s, Begin(t, Cancel(actor, v)), Run(t, 0), e, Run(t, 0));
    var m := CancelStands(cfg, s, t, actor, v);
    CompletedThenCancelled(cfg, m, t, v, H.CancelStatus(s.db.viewings[v], actor));
  }

  // ---- an interest in a profile that is not active any more --------------------------------

  lemma EditKeepsGround(s: State, m: State, d: State, t: TxId, req: Request, seen: H.Seen)
    requires req.Express? && Stands(s, m, t, req, XBlocks, seen, []) && d == m.(db := m.db.(catalog := d.db.catalog))
    ensures Stands(s.(db := s.db.(catalog := d.db.catalog)), d, t, req, XBlocks, seen, [])
  {
  }

  /** From every state in which an express would match, a run sets the profile inactive and then commits it. */
  lemma MatchedWhileInactive(cfg: Config, s: State, t: TxId, req: Request) returns (m: State)
    requires Unused(s, t) && MayMatch(cfg, s, req)
    ensures Leads(cfg, s, m) && req.pair.profile in m.db.catalog.profiles
    ensures !m.db.catalog.profiles[req.pair.profile].active
    ensures t in m.db.ledger.matches && m.db.ledger.matches[t].pair == req.pair && !m.db.ledger.matches[t].deleted
  {
    var p, seen := req.pair.profile, H.SeeForExpress(s.db.catalog, req.pair);
    var e := PutProfile(p, s.db.catalog.profiles[p].(active := false));
    var before := ReadsBefore(cfg, s, t, req);
    var edited := Step(cfg, before, e);
    LeadsOn(cfg, s, before, e);
    EditKeepsGround(s, before, edited, t, req, seen);
    m := MatchesAfter(cfg, s.(db := s.db.(catalog := edited.db.catalog)), edited, t, req, seen);
    LeadsFar(cfg, s, edited, m);
  }
}
