/** What the invariant gives a client of the service. */
module ProtocolTheorems {
  import opened Slots
  import opened Schema
  import H = Handlers
  import opened Protocol
  import opened ProtocolInvariant
  import opened ProtocolSafety
  import opened Views

  /** No interleaving of requests, crashes and other handlers misses a match or leaves a one-sided one. */
  lemma {:induction false} NeverAMissedMatch(cfg: Config, s: State, es: seq<Event>, p: Pair)
    requires cfg.serialize && Initial(s)
    ensures var g := Execute(cfg, s, es).db.ledger;
      && (g.BothInterested(p) ==> exists m <- g.matches :: g.matches[m].pair == p
                                    && forall n <- g.matches :: g.matches[n].pair == p ==> n == m)
      && (g.HasLiveMatch(p) ==> g.BothInterested(p))
  {
    Invariant(cfg, s, es);
    var g := Execute(cfg, s, es).db.ledger;
    if g.BothInterested(p) {
      var m :| m in g.matches && g.matches[m].pair == p;
      assert forall n <- g.matches :: g.matches[n].pair == p ==> n == m;
    }
  }

  /** No slot ever holds more groups than the largest capacity its listing has had. */
  lemma {:induction false} NeverOverbooked(cfg: Config, s: State, es: seq<Event>, l: ListingId, t: int)
    requires cfg.serialize && Initial(s)
    ensures Occupancy(Execute(cfg, s, es).db.viewings, l, t) <= PeakOf(Execute(cfg, s, es), l)
  {
    Invariant(cfg, s, es);
  }

  /** `peak` is a history: a step raises it only to a capacity that is being stored. */
  lemma PeakIsCapacityHad(cfg: Config, s: State, e: Event, l: ListingId)
    requires cfg.serialize && Inv(cfg, s)
    ensures PeakOf(Step(cfg, s, e), l) == PeakOf(s, l)
         || (e.SetAvailability? && e.l == l && PeakOf(Step(cfg, s, e), l) == Capacity(e.av) > PeakOf(s, l))
  {
    if e.Run? { if e.t in s.txs { RunKeepsPeak(cfg, s, e.t, e.now); } }
    else if e.OnMatch() { MatchEvent(cfg, s, e); }
    else if e.OnViewing() { ViewingEvent(cfg, s, e); }
  }

  lemma EndKeepsPeak(s: State, t: TxId)
    requires t in s.txs
    ensures StepEnd(s, t).peak == s.peak
  {
  }

  lemma CancelKeepsPeak(s: State, t: TxId)
    requires t in s.txs && s.txs[t].req.Cancel?
    ensures StepCancel(s, t).peak == s.peak
  {
  }

  lemma RunKeepsPeak(cfg: Config, s: State, t: TxId, now: int)
    requires cfg.serialize && Inv(cfg, s) && t in s.txs
    ensures StepTx(cfg, s, t, now).peak == s.peak
  {
    if s.txs[t].pc.Commit? || s.txs[t].pc.Rollback? {
      EndKeepsPeak(s, t);
    } else if s.txs[t].req.Cancel? {
      CancelKeepsPeak(s, t);
    } else {
      StatementQuiet(cfg, s, t, now);
    }
  }

  /** When a claim commits, the slot holds at most the capacity that claim read. */
  lemma CommitWithinCapacityRead(cfg: Config, s: State, t: TxId, now: int)
    requires cfg.serialize && Inv(cfg, s) && t in s.txs && s.txs[t].pc.Commit? && s.txs[t].claim.Some?
    requires s.txs[t].req.Book? || s.txs[t].req.Reschedule?
    ensures var c := s.txs[t].claim.value;
      Occupancy(Step(cfg, s, Run(t, now)).db.viewings, c.listing, c.start) <= c.capacity
  {
    var c, v := s.txs[t].claim.value, CommittedId(t, s.txs[t].req);
    assert TxOk(cfg, s, t, s.txs[t]);
    ViewingCommits(cfg, s, t);
    OccupancySet(s.db.viewings, v, StepEnd(s, t).db.viewings[v], c.listing, c.start);
  }

  /** A match never has two viewings that take up room. */
  lemma {:induction false} NeverDoubleBooked(cfg: Config, s: State, es: seq<Event>)
    requires cfg.serialize && Initial(s)
    ensures OneViewingPerMatch(Execute(cfg, s, es).db.viewings)
  {
    Invariant(cfg, s, es);
  }

  // ---- cancelled is final -----------------------------------------------------------------

  ghost predicate EndedKept(a: Viewings, b: Viewings) {
    forall v <- a :: v in b && (a[v].Ended() ==> b[v].Ended()) && (a[v].deleted ==> b[v].deleted)
  }

  lemma SetKeepsEnded(viewings: Viewings, v: ViewingId, row: ViewingRow)
    requires v in viewings ==> (viewings[v].Ended() ==> row.Ended()) && (viewings[v].deleted ==> row.deleted)
    ensures EndedKept(viewings, viewings[v := row])
  {
  }

  lemma StepKeepsEnded(cfg: Config, s: State, e: Event)
    requires cfg.serialize && Inv(cfg, s)
    ensures EndedKept(s.db.viewings, Step(cfg, s, e).db.viewings)
  {
    if e.Run? {
      if e.t in s.txs { RunKeepsEnded(cfg, s, e.t, e.now); }
    } else if e.OnViewing() {
      RowEventsKeepEnded(cfg, s, e);
    } else {
      OthersKeepViewings(cfg, s, e);
    }
  }

  lemma RowEventsKeepEnded(cfg: Config, s: State, e: Event)
    requires e.OnViewing()
    ensures EndedKept(s.db.viewings, Step(cfg, s, e).db.viewings)
  {
    ViewingEventSteps(cfg, s, e);
    if Step(cfg, s, e) != s { SetKeepsEnded(s.db.viewings, e.v, EndedViewing(s, e)); }
  }

  lemma CommitKeepsEnded(cfg: Config, s: State, t: TxId)
    requires Inv(cfg, s) && t in s.txs && s.txs[t].pc.Commit? && (s.txs[t].req.Book? || s.txs[t].req.Reschedule?)
    ensures EndedKept(s.db.viewings, StepEnd(s, t).db.viewings)
  {
    ViewingCommits(cfg, s, t);
    var v := CommittedId(t, s.txs[t].req);
    SetKeepsEnded(s.db.viewings, v, StepEnd(s, t).db.viewings[v]);
  }

  lemma CancelKeepsEnded(cfg: Config, s: State, t: TxId)
    requires t in s.txs && s.txs[t].req.Cancel? && CancelOk(s.txs[t])
    ensures EndedKept(s.db.viewings, StepCancel(s, t).db.viewings)
  {
    var v := s.txs[t].req.viewing;
    if s.txs[t].pc.CUpdate? && v in s.db.viewings {
      SetKeepsEnded(s.db.viewings, v, s.db.viewings[v].(status := s.txs[t].pc.to));
    }
  }

  lemma RunKeepsEnded(cfg: Config, s: State, t: TxId, now: int)
    requires cfg.serialize && Inv(cfg, s) && t in s.txs
    ensures EndedKept(s.db.viewings, StepTx(cfg, s, t, now).db.viewings)
  {
    if s.txs[t].pc.Commit? {
      if s.txs[t].req.OnLedger() { CommitTables(cfg, s, t); }
      else if s.txs[t].req.Cancel? { assert TxOk(cfg, s, t, s.txs[t]); }
      else { CommitKeepsEnded(cfg, s, t); }
    } else if s.txs[t].pc.Rollback? {
    } else if s.txs[t].req.Cancel? {
      assert TxOk(cfg, s, t, s.txs[t]);
      CancelKeepsEnded(cfg, s, t);
    } else {
      StatementQuiet(cfg, s, t, now);
    }
  }

  /** A cancelled viewing stays cancelled, by either side's word, through every continuation. */
  lemma {:induction false} EndedForever(cfg: Config, s: State, es: seq<Event>)
    requires cfg.serialize && Inv(cfg, s)
    ensures Inv(cfg, Execute(cfg, s, es)) && EndedKept(s.db.viewings, Execute(cfg, s, es).db.viewings)
  {
    if es != [] {
      var mid := Execute(cfg, s, es[..|es| - 1]);
      EndedForever(cfg, s, es[..|es| - 1]);
      StepKeepsInv(cfg, mid, es[|es| - 1]);
      StepKeepsEnded(cfg, mid, es[|es| - 1]);
    }
  }

  // ---- who sees whose contact ----------------------------------------------------------------

  /** A match row whose pair the two users own, with neither interest withdrawn. */
  ghost predicate Entitled(db: Db, viewer: UserId, subject: UserId) {
    exists m <- db.ledger.matches :: var r := db.ledger.matches[m];
      && OwnedBy(db.catalog, r.pair, r.tenant, r.landlord)
      && ((viewer == r.tenant && subject == r.landlord) || (viewer == r.landlord && subject == r.tenant))
      && db.ledger.BothInterested(r.pair)
  }

  lemma MatchEntitles(s: State, m: MatchId)
    requires TablesOk(s) && m in s.db.ledger.matches && s.db.ledger.BothInterested(s.db.ledger.matches[m].pair)
    ensures Entitled(s.db, s.db.ledger.matches[m].tenant, s.db.ledger.matches[m].landlord)
    ensures Entitled(s.db, s.db.ledger.matches[m].landlord, s.db.ledger.matches[m].tenant)
  {
  }

  /** Every contact shown by a list is one its viewer is entitled to, in every reachable state. */
  lemma {:induction false} ListsRespectContact(cfg: Config, s: State, es: seq<Event>, user: UserId)
    requires cfg.serialize && Initial(s)
    ensures var db := Execute(cfg, s, es).db;
      && (forall p: ProfileId :: forall m <- ProfileMatches(db, user, p) :: Entitled(db, user,
            db.ledger.matches[m].landlord))
      && (forall m <- MutualMatches(db, user) :: Entitled(db, user, MutualContact(db.ledger.matches[m], user)))
      && (forall side: Side :: forall v <- ListViewings(db, user, side) ::
            ViewingContact(db, db.viewings[v], user).Some? ==>
              Entitled(db, user, ViewingContact(db, db.viewings[v], user).value))
  {
    Invariant(cfg, s, es);
    var s' := Execute(cfg, s, es);
    forall m <- s'.db.ledger.matches | !s'.db.ledger.matches[m].deleted
      ensures Entitled(s'.db, s'.db.ledger.matches[m].tenant, s'.db.ledger.matches[m].landlord)
      ensures Entitled(s'.db, s'.db.ledger.matches[m].landlord, s'.db.ledger.matches[m].tenant)
    {
      MatchEntitles(s', m);
    }
    forall v <- s'.db.viewings ensures SameParties(s'.db.ledger, s'.db.viewings[v]) {}
  }

  lemma CommitShowsPair(cfg: Config, s: State, t: TxId)
    requires TablesOk(s) && t in s.txs && s.txs[t].req.Express? && s.txs[t].pc.Commit? && s.txs[t].pc.answer.Matched?
    requires TxOk(cfg, s, t, s.txs[t])
    ensures var s', pair := StepEnd(s, t), s.txs[t].req.pair;
      s'.db.ledger.HasMatch(pair) && s'.db.ledger.BothInterested(pair) && s'.db.catalog == s.db.catalog
  {
    var tx := s.txs[t];
    var g, k := s.db.ledger, InterestKey(tx.req.pair, tx.req.role);
    ApplyOne(s.db, tx.writes[0]);
    PutInterestKeeps(g, k, Wanted, k.pair);
    if |tx.writes| == 2 {
      ApplyTwo(s.db, tx.writes[0], tx.writes[1]);
      InsertMatchKeeps(g.(interests := g.interests[k := Wanted]), t, H.NewMatch(tx.seen, tx.req.pair), k.pair);
    }
  }

  lemma CommitEntitles(cfg: Config, s: State, t: TxId)
    requires Inv(cfg, s) && t in s.txs && s.txs[t].req.Express? && s.txs[t].pc.Commit? && s.txs[t].pc.answer.Matched?
    ensures Entitled(StepEnd(s, t).db, s.txs[t].req.actor, s.txs[t].pc.answer.contactOf)
  {
    var tx := s.txs[t];
    assert TxOk(cfg, s, t, tx);
    CommitParties(cfg, s, t);
    CommitStep(cfg, s, t);
    CommitShowsPair(cfg, s, t);
    PartiesEntitled(StepEnd(s, t), tx.req.pair, tx.req.actor, tx.pc.answer.contactOf);
  }

  /** The sender and the one whose contact is shown own the two sides of the pair. */
  ghost predicate TwoSides(c: Catalog, pair: Pair, a: UserId, b: UserId) {
    OwnedBy(c, pair, a, b) || OwnedBy(c, pair, b, a)
  }

  lemma CommitParties(cfg: Config, s: State, t: TxId)
    requires t in s.txs && s.txs[t].req.Express? && s.txs[t].pc.Commit? && s.txs[t].pc.answer.Matched?
    requires ExpressOk(cfg, s, t, s.txs[t])
    ensures TwoSides(s.db.catalog, s.txs[t].req.pair, s.txs[t].req.actor, s.txs[t].pc.answer.contactOf)
  {
    var seen := s.txs[t].seen;
    assert OwnedBy(s.db.catalog, s.txs[t].req.pair, seen.profile.value.owner, seen.listing.value.owner);
  }

  lemma PartiesEntitled(s: State, pair: Pair, a: UserId, b: UserId)
    requires TablesOk(s) && s.db.ledger.HasMatch(pair) && s.db.ledger.BothInterested(pair)
    requires TwoSides(s.db.catalog, pair, a, b)
    ensures Entitled(s.db, a, b)
  {
    var id :| id in s.db.ledger.matches && s.db.ledger.matches[id].pair == pair;
    MatchEntitles(s, id);
    assert OwnedBy(s.db.catalog, pair, s.db.ledger.matches[id].tenant, s.db.ledger.matches[id].landlord);
  }

  /** When an expressed interest is answered with a contact, its sender is entitled to it at that commit. */
  lemma {:induction false} AnswerRespectsContact(cfg: Config, s: State, es: seq<Event>, t: TxId, now: int)
    requires cfg.serialize && Initial(s)
    requires var m := Execute(cfg, s, es);
      t in m.txs && m.txs[t].req.Express? && m.txs[t].pc.Commit? && m.txs[t].pc.answer.Matched?
    ensures var m := Execute(cfg, s, es);
      Entitled(Step(cfg, m, Run(t, now)).db, m.txs[t].req.actor, m.txs[t].pc.answer.contactOf)
  {
    Invariant(cfg, s, es);
    CommitEntitles(cfg, Execute(cfg, s, es), t);
  }

  // ---- the three lists ------------------------------------------------------------------------------

  /** Two different users with accounts and no block between them. */
  ghost predicate OpenPair(c: Catalog, p: Pair, tenant: UserId, landlord: UserId) {
    && OwnedBy(c, p, tenant, landlord) && tenant != landlord
    && tenant !in c.gone && landlord !in c.gone && !c.Blocked(tenant, landlord)
  }

  lemma IncomingIs(db: Db, p: Pair, tenant: UserId, landlord: UserId)
    requires OpenPair(db.catalog, p, tenant, landlord)
    ensures InIncoming(db, tenant, p) <==> db.ledger.Interested(p, Landlord) && !db.ledger.Interested(p, Tenant)
    ensures InIncoming(db, landlord, p) <==> db.ledger.Interested(p, Tenant) && !db.ledger.Interested(p, Landlord)
  {
    assert db.ledger.Interested(p, Landlord) && !db.ledger.Interested(p, Tenant) ==>
        InterestKey(p, Landlord) in Incoming(db, tenant);
    assert db.ledger.Interested(p, Tenant) && !db.ledger.Interested(p, Landlord) ==>
        InterestKey(p, Tenant) in Incoming(db, landlord);
  }

  lemma OutgoingIs(db: Db, p: Pair, tenant: UserId, landlord: UserId)
    requires OpenPair(db.catalog, p, tenant, landlord)
    ensures InOutgoing(db, tenant, p) <==> db.ledger.Interested(p, Tenant) && !db.ledger.Interested(p, Landlord)
    ensures InOutgoing(db, landlord, p) <==> db.ledger.Interested(p, Landlord) && !db.ledger.Interested(p, Tenant)
  {
    assert db.ledger.Interested(p, Tenant) && !db.ledger.Interested(p, Landlord) ==>
        InterestKey(p, Tenant) in Outgoing(db, tenant);
    assert db.ledger.Interested(p, Landlord) && !db.ledger.Interested(p, Tenant) ==>
        InterestKey(p, Landlord) in Outgoing(db, landlord);
  }

  lemma MutualIs(s: State, p: Pair, tenant: UserId, landlord: UserId, user: UserId)
    requires TablesOk(s) && OpenPair(s.db.catalog, p, tenant, landlord) && user in {tenant, landlord}
    ensures InMutual(s.db, user, p) <==> s.db.ledger.BothInterested(p)
  {
    var g := s.db.ledger;
    if g.BothInterested(p) {
      var m :| m in g.matches && g.matches[m].pair == p;
      assert OwnedBy(s.db.catalog, p, g.matches[m].tenant, g.matches[m].landlord);
      assert MatchStateOk(s.db.catalog, g.matches[m]);
      assert m in MutualMatches(s.db, user);
    }
  }

  /** Each owner finds a pair with interest in exactly one list, and the two owners' lists mirror each other. */
  lemma {:induction false} ListsPartition(cfg: Config, s: State, es: seq<Event>, p: Pair, tenant: UserId,
      landlord: UserId)
    requires cfg.serialize && Initial(s)
    requires OpenPair(Execute(cfg, s, es).db.catalog, p, tenant, landlord)
    requires exists r: Role :: Execute(cfg, s, es).db.ledger.Interested(p, r)
    ensures var db := Execute(cfg, s, es).db;
      && ExactlyOne(InIncoming(db, tenant, p), InOutgoing(db, tenant, p), InMutual(db, tenant, p))
      && ExactlyOne(InIncoming(db, landlord, p), InOutgoing(db, landlord, p), InMutual(db, landlord, p))
      && (InIncoming(db, tenant, p) <==> InOutgoing(db, landlord, p))
      && (InOutgoing(db, tenant, p) <==> InIncoming(db, landlord, p))
      && (InMutual(db, tenant, p) <==> InMutual(db, landlord, p))
  {
    Invariant(cfg, s, es);
    var s' := Execute(cfg, s, es);
    IncomingIs(s'.db, p, tenant, landlord);
    OutgoingIs(s'.db, p, tenant, landlord);
    MutualIs(s', p, tenant, landlord, tenant);
    MutualIs(s', p, tenant, landlord, landlord);
    var r: Role :| s'.db.ledger.Interested(p, r);
    assert r == Tenant || r == Landlord;
  }
}
