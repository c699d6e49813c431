/** Every event keeps the invariant, whatever the schedule and the hash. */
module ProtocolSafety {
  import opened Base
  import opened Slots
  import opened Schema
  import H = Handlers
  import opened Protocol
  import opened ProtocolInvariant

  // ---- what a transaction may rely on while others act ------------------------------

  ghost predicate PairKept(g: Ledger, g': Ledger, p: Pair) {
    && (forall r: Role :: g'.Interested(p, r) == g.Interested(p, r))
    && g'.HasMatch(p) == g.HasMatch(p)
    && (g'.HasLiveMatch(p) ==> g.HasLiveMatch(p))
  }

  ghost predicate Kept<K(!new)>(m: map<K, TxId>, m': map<K, TxId>, t: TxId) {
    forall k | k in m && m[k] == t :: k in m' && m'[k] == t
  }

  ghost predicate OwnersKept(c: Catalog, c': Catalog) {
    && (forall p <- c.profiles :: p in c'.profiles && c'.profiles[p].owner == c.profiles[p].owner)
    && (forall l <- c.listings :: l in c'.listings && c'.listings[l].owner == c.listings[l].owner)
  }

  ghost predicate PartiesKept(g: Ledger, g': Ledger) {
    forall m <- g.matches :: m in g'.matches && g'.matches[m].pair == g.matches[m].pair
                        && g'.matches[m].tenant == g.matches[m].tenant
                             && g'.matches[m].landlord == g.matches[m].landlord
  }

  /** The part of the rely condition that is about the tables. */
  ghost predicate DbRely(cfg: Config, s: State, db': Db, t: TxId) {
    && OwnersKept(s.db.catalog, db'.catalog) && PartiesKept(s.db.ledger, db'.ledger)
    && (forall p: Pair :: Holds(cfg, s, t, OnPair(p)) ==> PairKept(s.db.ledger, db'.ledger, p))
    && (forall l: ListingId, x: int :: Holds(cfg, s, t, OnSlot(l, x)) ==>
          Occupancy(db'.viewings, l, x) <= Occupancy(s.db.viewings, l, x))
    && (forall v | v in s.rows && s.rows[v] == t && v in s.db.viewings ::
          v in db'.viewings && db'.viewings[v] == s.db.viewings[v])
    && (forall m | m in s.entries && s.entries[m] == t ::
          MatchHasViewing(db'.viewings, m) ==> MatchHasViewing(s.db.viewings, m))
    && (t in db'.ledger.matches ==> t in s.db.ledger.matches)
    && (t in db'.viewings ==> t in s.db.viewings)
  }

  ghost predicate Rely(cfg: Config, s: State, s': State, t: TxId) {
    && Kept(s.locks, s'.locks, t) && Kept(s.rows, s'.rows, t) && Kept(s.entries, s'.entries, t)
    && (forall l: ListingId :: PeakOf(s, l) <= PeakOf(s', l))
    && DbRely(cfg, s, s'.db, t)
  }

  lemma ExpressStable(cfg: Config, s: State, s': State, t: TxId, tx: Tx)
    requires tx.req.Express? && ExpressOk(cfg, s, t, tx) && Rely(cfg, s, s', t)
    ensures ExpressOk(cfg, s', t, tx)
  {
    if tx.Live() && !tx.pc.XLock? {
      assert Holds(cfg, s, t, OnPair(tx.req.pair));
      assert PairKept(s.db.ledger, s'.db.ledger, tx.req.pair);
    }
  }

  lemma WithdrawStable(cfg: Config, s: State, s': State, t: TxId, tx: Tx)
    requires tx.req.Withdraw? && WithdrawOk(cfg, s, t, tx) && Rely(cfg, s, s', t)
    ensures WithdrawOk(cfg, s', t, tx)
  {
    if tx.Live() && !tx.pc.WLock? {
      assert Holds(cfg, s, t, OnPair(tx.req.pair));
      assert PairKept(s.db.ledger, s'.db.ledger, tx.req.pair);
    }
  }

  lemma ClaimStable(cfg: Config, s: State, s': State, t: TxId, c: SlotClaim)
    requires ClaimOk(cfg, s, t, c) && Rely(cfg, s, s', t)
    ensures ClaimOk(cfg, s', t, c)
  {
  }

  lemma BookStable(cfg: Config, s: State, s': State, t: TxId, tx: Tx)
    requires tx.req.Book? && BookOk(cfg, s, t, tx) && Rely(cfg, s, s', t)
    ensures BookOk(cfg, s', t, tx)
  {
    if (tx.pc.BInsert? || tx.pc.Commit?) { ClaimStable(cfg, s, s', t, tx.claim.value); }
  }

  lemma RescheduleStable(cfg: Config, s: State, s': State, t: TxId, tx: Tx)
    requires tx.req.Reschedule? && RescheduleOk(cfg, s, t, tx) && Rely(cfg, s, s', t)
    ensures RescheduleOk(cfg, s', t, tx)
  {
    if (tx.pc.RUpdate? || tx.pc.Commit?) { ClaimStable(cfg, s, s', t, tx.claim.value); }
  }

  /** What others do never disturbs a transaction. */
  lemma TxStable(cfg: Config, s: State, s': State, t: TxId, tx: Tx)
    requires TxOk(cfg, s, t, tx) && Rely(cfg, s, s', t)
    ensures TxOk(cfg, s', t, tx)
  {
    if tx.req.Express? { ExpressStable(cfg, s, s', t, tx); }
    else if tx.req.Withdraw? { WithdrawStable(cfg, s, s', t, tx); }
    else if tx.req.Book? { BookStable(cfg, s, s', t, tx); }
    else if tx.req.Reschedule? { RescheduleStable(cfg, s, s', t, tx); }
  }

  // ---- what an event outside the transactions leaves alone ----------------------------

  lemma CatalogEvent(cfg: Config, s: State, e: Event)
    requires e.OnCatalog()
    ensures var s' := Step(cfg, s, e);
      && s' == s.(db := s.db.(catalog := s'.db.catalog), peak := s'.peak)
      && s'.db.catalog.gone == s.db.catalog.gone
  {
  }

  /** The match row that the event leaves. */
  function EndedRow(s: State, e: Event): MatchRow
    requires e.OnMatch() && e.m in s.db.ledger.matches
  {
    var row := s.db.ledger.matches[e.m];
    if e.RentMatch? then row.(status := ListingRented) else row.(deleted := true)
  }

  lemma RentMatchSteps(cfg: Config, s: State, e: Event)
    requires e.RentMatch?
    ensures var g := s.db.ledger;
      Step(cfg, s, e) == if e.m in g.matches && g.matches[e.m].status == Active && !g.matches[e.m].deleted
                         then SetMatch(s, e.m, EndedRow(s, e)) else s
  {
  }

  lemma PurgeMatchSteps(cfg: Config, s: State, e: Event)
    requires e.PurgeMatch?
    ensures var c, g := s.db.catalog, s.db.ledger;
      Step(cfg, s, e) == if e.m in g.matches && g.matches[e.m].Names(e.u)
                         then SetMatch(SetCatalog(s, c.(gone := c.gone + {e.u})), e.m, EndedRow(s, e)) else s
  {
  }

  lemma MatchEvent(cfg: Config, s: State, e: Event)
    requires e.OnMatch()
    ensures var s' := Step(cfg, s, e);
      && s' == s.(db := s'.db, log := s'.log) && s'.db.viewings == s.db.viewings
      && s'.db.catalog == s.db.catalog.(gone := s'.db.catalog.gone)
  {
    if e.RentMatch? { RentMatchSteps(cfg, s, e); } else { PurgeMatchSteps(cfg, s, e); }
  }

  /** The viewing row that the event leaves. */
  function EndedViewing(s: State, e: Event): ViewingRow
    requires e.OnViewing() && e.v in s.db.viewings
  {
    var row := s.db.viewings[e.v];
    if e.RentViewing? then row.(status := CancelledLandlord)
    else if e.PurgeViewing? then row.(deleted := true)
    else row.(status := Completed)
  }

  lemma ViewingEventSteps(cfg: Config, s: State, e: Event)
    requires e.OnViewing()
    ensures var s' := Step(cfg, s, e);
      s' == s || (e.v in s.db.viewings && e.v !in s.rows && s' == SetViewing(s, e.v, EndedViewing(s, e))
                  && (e.PurgeViewing? || s.db.viewings[e.v].Occupies()))
  {
  }

  lemma ViewingEvent(cfg: Config, s: State, e: Event)
    requires e.OnViewing()
    ensures var s' := Step(cfg, s, e); s' == s.(db := s.db.(viewings := s'.db.viewings))
  {
    ViewingEventSteps(cfg, s, e);
  }

  lemma OutsideEvent(cfg: Config, s: State, e: Event)
    requires e.Outside()
    ensures var s' := Step(cfg, s, e); s' == s.(db := s'.db, log := s'.log, peak := s'.peak)
  {
    if e.OnCatalog() { CatalogEvent(cfg, s, e); }
    else if e.OnMatch() { MatchEvent(cfg, s, e); }
    else { ViewingEvent(cfg, s, e); }
  }

  lemma OthersKeepViewings(cfg: Config, s: State, e: Event)
    requires !e.Run? && !e.OnViewing()
    ensures Step(cfg, s, e).db.viewings == s.db.viewings
  {
    if e.OnCatalog() { CatalogEvent(cfg, s, e); } else if e.OnMatch() { MatchEvent(cfg, s, e); }
  }

  lemma OthersKeepLedger(cfg: Config, s: State, e: Event)
    requires !e.Run? && !e.OnMatch()
    ensures Step(cfg, s, e).db.ledger == s.db.ledger
  {
    if e.OnCatalog() { CatalogEvent(cfg, s, e); } else if e.OnViewing() { ViewingEvent(cfg, s, e); }
  }

  // ---- statements that write nothing that others can see -------------------------------

  ghost predicate OthersKept<K(!new)>(m: map<K, TxId>, m': map<K, TxId>, t: TxId) {
    forall k | k in m && m[k] != t :: k in m' && m'[k] == m[k]
  }

  ghost predicate OtherTxsKept(s: State, s': State, t: TxId) {
    s'.txs.Keys == s.txs.Keys + {t} && forall u <- s.txs :: u != t ==> s'.txs[u] == s.txs[u]
  }

  ghost predicate Quiet(s: State, s': State, t: TxId) {
    && s'.db == s.db && s'.peak == s.peak && OtherTxsKept(s, s', t)
    && OthersKept(s.locks, s'.locks, t) && OthersKept(s.rows, s'.rows, t) && OthersKept(s.entries, s'.entries, t)
  }

  lemma QuietKeepsInv(cfg: Config, s: State, s': State, t: TxId)
    requires Inv(cfg, s) && Quiet(s, s', t) && TxOk(cfg, s', t, s'.txs[t])
    ensures Inv(cfg, s')
  {
    forall u <- s'.txs ensures TxOk(cfg, s', u, s'.txs[u]) {
      if u != t {
        assert u in s.txs && s'.txs[u] == s.txs[u];
        QuietRely(cfg, s, s', t, u);
        TxStable(cfg, s, s', u, s.txs[u]);
      }
    }
    assert forall l: ListingId :: PeakOf(s', l) == PeakOf(s, l);
  }

  lemma QuietRely(cfg: Config, s: State, s': State, t: TxId, u: TxId)
    requires Quiet(s, s', t) && u != t
    ensures Rely(cfg, s, s', u)
  {
  }

  lemma ApplyNone(db: Db)
    ensures Apply(db, []) == db
  {
  }

  lemma ApplyOne(db: Db, w: Write)
    ensures Apply(db, [w]) == ApplyWrite(db, w)
  {
    assert [w][..0] == [];
  }

  lemma ApplyTwo(db: Db, w: Write, x: Write)
    ensures Apply(db, [w, x]) == ApplyWrite(ApplyWrite(db, w), x)
  {
    assert [w, x][..1] == [w];
    ApplyOne(db, w);
  }

  lemma LockStep(cfg: Config, s: State, t: TxId, name: LockName, next: Pc)
    requires cfg.serialize && t in s.txs
    ensures var s' := TakeLock(cfg, s, t, name, next);
      && Quiet(s, s', t)
      && (s' == s || (Holds(cfg, s', t, name) && s'.txs[t] == s.txs[t].(pc := next, ticket := s'.txs[t].ticket)))
  {
  }

  lemma UpdateStep(s: State, t: TxId, tx: Tx)
    requires t in s.txs
    ensures Quiet(s, Update(s, t, tx), t)
  {
  }

  lemma RefuseStep(cfg: Config, s: State, t: TxId, a: H.Answer)
    requires t in s.txs
    ensures var s' := Refuse(s, t, a);
      && Quiet(s, s', t) && s'.txs[t] == s.txs[t].(pc := Rollback(a))
      && s'.locks == s.locks && s'.rows == s.rows && s'.entries == s.entries
  {
  }

  /** A check of an express failed. */
  lemma RefusesExpress(cfg: Config, s: State, t: TxId, tx: Tx, a: H.Answer)
    requires t in s.txs && tx.req == s.txs[t].req && tx.req.Express?
    requires Holds(cfg, s, t, OnPair(tx.req.pair)) && SeenOwnersOk(s.db.catalog, tx.seen, tx.req.pair)
    ensures var s' := Refuse(Update(s, t, tx), t, a);
      Quiet(s, s', t) && s'.txs[t].req == s.txs[t].req && ExpressOk(cfg, s', t, s'.txs[t])
  {
    UpdateStep(s, t, tx);
    RefuseStep(cfg, Update(s, t, tx), t, a);
  }

  /** An express goes on, as its new locals allow. */
  lemma UpdatesExpress(cfg: Config, s: State, t: TxId, tx: Tx)
    requires t in s.txs && tx.req == s.txs[t].req && tx.req.Express? && ExpressOk(cfg, s, t, tx)
    ensures var s' := Update(s, t, tx);
      Quiet(s, s', t) && s'.txs[t].req == s.txs[t].req && ExpressOk(cfg, s', t, s'.txs[t])
  {
    UpdateStep(s, t, tx);
  }

  lemma ExpressXLock(cfg: Config, s: State, t: TxId)
    requires cfg.serialize && t in s.txs && s.txs[t].req.Express? && s.txs[t].pc.XLock?
    requires ExpressOk(cfg, s, t, s.txs[t])
    ensures var s' := StepExpress(cfg, s, t);
      Quiet(s, s', t) && s'.txs[t].req == s.txs[t].req && ExpressOk(cfg, s', t, s'.txs[t])
  {
    ApplyNone(s.db);
    LockStep(cfg, s, t, OnPair(s.txs[t].req.pair), XProfile);
  }

  lemma ExpressXProfile(cfg: Config, s: State, t: TxId)
    requires cfg.serialize && t in s.txs && s.txs[t].req.Express? && s.txs[t].pc.XProfile?
    requires ExpressOk(cfg, s, t, s.txs[t])
    ensures var s' := StepExpress(cfg, s, t);
      Quiet(s, s', t) && s'.txs[t].req == s.txs[t].req && ExpressOk(cfg, s', t, s'.txs[t])
  {
    ApplyNone(s.db);
    var tx := s.txs[t];
    var tx1 := tx.(seen := tx.seen.(profile := s.db.catalog.VisibleProfile(tx.req.pair.profile)));
    var no := H.CheckProfile(tx1.seen.profile, tx.req.actor, tx.req.role);
    if no.Some? { RefusesExpress(cfg, s, t, tx1, no.value); } else { UpdatesExpress(cfg, s, t, tx1.(pc := XListing)); }
  }

  lemma ExpressXListing(cfg: Config, s: State, t: TxId)
    requires cfg.serialize && t in s.txs && s.txs[t].req.Express? && s.txs[t].pc.XListing?
    requires ExpressOk(cfg, s, t, s.txs[t])
    ensures var s' := StepExpress(cfg, s, t);
      Quiet(s, s', t) && s'.txs[t].req == s.txs[t].req && ExpressOk(cfg, s', t, s'.txs[t])
  {
    ApplyNone(s.db);
    var tx := s.txs[t];
    var tx1 := tx.(seen := tx.seen.(listing := s.db.catalog.PublicListing(tx.req.pair.listing)));
    var no := H.CheckListing(tx1.seen.listing, tx.req.actor, tx.req.role);
    if no.Some? { RefusesExpress(cfg, s, t, tx1, no.value); } else { UpdatesExpress(cfg, s, t, tx1.(pc := XBlocks)); }
  }

  lemma ExpressXBlocks(cfg: Config, s: State, t: TxId)
    requires cfg.serialize && t in s.txs && s.txs[t].req.Express? && s.txs[t].pc.XBlocks?
    requires ExpressOk(cfg, s, t, s.txs[t])
    ensures var s' := StepExpress(cfg, s, t);
      Quiet(s, s', t) && s'.txs[t].req == s.txs[t].req && ExpressOk(cfg, s', t, s'.txs[t])
  {
    ApplyNone(s.db);
    var tx := s.txs[t];
    var tx1 := tx.(seen := tx.seen.(blocked := s.db.catalog.Blocked(tx.seen.profile.value.owner,
        tx.seen.listing.value.owner)));
    if tx1.seen.blocked {
      RefusesExpress(cfg, s, t, tx1, H.UsersBlocked);
    } else {
      UpdatesExpress(cfg, s, t, tx1.(pc := XUpsert));
    }
  }

  lemma ExpressXUpsert(cfg: Config, s: State, t: TxId)
    requires cfg.serialize && t in s.txs && s.txs[t].req.Express? && s.txs[t].pc.XUpsert?
    requires ExpressOk(cfg, s, t, s.txs[t])
    ensures var s' := StepExpress(cfg, s, t);
      Quiet(s, s', t) && s'.txs[t].req == s.txs[t].req && ExpressOk(cfg, s', t, s'.txs[t])
  {
    ApplyNone(s.db);
  }

  lemma ExpressXCounter(cfg: Config, s: State, t: TxId)
    requires cfg.serialize && t in s.txs && s.txs[t].req.Express? && s.txs[t].pc.XCounter?
    requires ExpressOk(cfg, s, t, s.txs[t])
    ensures var s' := StepExpress(cfg, s, t);
      Quiet(s, s', t) && s'.txs[t].req == s.txs[t].req && ExpressOk(cfg, s', t, s'.txs[t])
  {
    var tx := s.txs[t];
    ApplyOne(s.db, tx.writes[0]);
    assert ApplyWrite(s.db, tx.writes[0]).ledger.Interested(tx.req.pair, tx.req.role.Other())
        == s.db.ledger.Interested(tx.req.pair, tx.req.role.Other());
    UpdateStep(s, t, tx.(pc := XInsert));
    UpdateStep(s, t, tx.(pc := Commit(H.Pending)));
  }

  lemma ExpressXInsert(cfg: Config, s: State, t: TxId)
    requires cfg.serialize && t in s.txs && s.txs[t].req.Express? && s.txs[t].pc.XInsert?
    requires ExpressOk(cfg, s, t, s.txs[t])
    ensures var s' := StepExpress(cfg, s, t);
      Quiet(s, s', t) && s'.txs[t].req == s.txs[t].req && ExpressOk(cfg, s', t, s'.txs[t])
  {
    var tx := s.txs[t];
    ApplyOne(s.db, tx.writes[0]);
    assert ApplyWrite(s.db, tx.writes[0]).ledger.HasMatch(tx.req.pair) == s.db.ledger.HasMatch(tx.req.pair);
    UpdateStep(s, t, tx.(pc := XContact));
    UpdateStep(s, t, tx.(writes := tx.writes + [InsertMatch(t, H.NewMatch(tx.seen, tx.req.pair))], pc := XContact));
  }

  lemma ExpressXContact(cfg: Config, s: State, t: TxId)
    requires cfg.serialize && t in s.txs && s.txs[t].req.Express? && s.txs[t].pc.XContact?
    requires ExpressOk(cfg, s, t, s.txs[t])
    ensures var s' := StepExpress(cfg, s, t);
      Quiet(s, s', t) && s'.txs[t].req == s.txs[t].req && ExpressOk(cfg, s', t, s'.txs[t])
  {
    ApplyNone(s.db);
    UpdateStep(s, t, s.txs[t].(pc := Commit(H.Matched(H.ContactShown(s.txs[t].seen, s.txs[t].req.role)))));
  }

  lemma ExpressStep(cfg: Config, s: State, t: TxId)
    requires cfg.serialize && t in s.txs && s.txs[t].req.Express? && ExpressOk(cfg, s, t, s.txs[t])
    ensures var s' := StepExpress(cfg, s, t);
      Quiet(s, s', t) && s'.txs[t].req == s.txs[t].req && ExpressOk(cfg, s', t, s'.txs[t])
  {
    if s.txs[t].pc.XLock? { ExpressXLock(cfg, s, t); }
    else if s.txs[t].pc.XProfile? { ExpressXProfile(cfg, s, t); }
    else if s.txs[t].pc.XListing? { ExpressXListing(cfg, s, t); }
    else if s.txs[t].pc.XBlocks? { ExpressXBlocks(cfg, s, t); }
    else if s.txs[t].pc.XUpsert? { ExpressXUpsert(cfg, s, t); }
    else if s.txs[t].pc.XCounter? { ExpressXCounter(cfg, s, t); }
    else if s.txs[t].pc.XInsert? { ExpressXInsert(cfg, s, t); }
    else if s.txs[t].pc.XContact? { ExpressXContact(cfg, s, t); }
  }

  lemma WithdrawWLock(cfg: Config, s: State, t: TxId)
    requires cfg.serialize && t in s.txs && s.txs[t].req.Withdraw? && s.txs[t].pc.WLock?
    requires WithdrawOk(cfg, s, t, s.txs[t])
    ensures var s' := StepWithdraw(cfg, s, t);
      Quiet(s, s', t) && s'.txs[t].req == s.txs[t].req && WithdrawOk(cfg, s', t, s'.txs[t])
  {
    ApplyNone(s.db);
    LockStep(cfg, s, t, OnPair(s.txs[t].req.pair), WOwner);
  }

  lemma WithdrawWOwner(cfg: Config, s: State, t: TxId)
    requires cfg.serialize && t in s.txs && s.txs[t].req.Withdraw? && s.txs[t].pc.WOwner?
    requires WithdrawOk(cfg, s, t, s.txs[t])
    ensures var s' := StepWithdraw(cfg, s, t);
      Quiet(s, s', t) && s'.txs[t].req == s.txs[t].req && WithdrawOk(cfg, s', t, s'.txs[t])
  {
    ApplyNone(s.db);
    var tx := s.txs[t];
    var tx1 := tx.(seen := H.SeeForWithdraw(s.db.catalog, tx.req.pair, tx.req.role));
    var no := H.WithdrawRefusal(tx1.seen, tx.req.actor, tx.req.role);
    UpdateStep(s, t, tx1);
    if no.Some? { RefuseStep(cfg, Update(s, t, tx1), t, no.value); } else { UpdateStep(s, t, tx1.(pc := WMatched)); }
  }

  lemma WithdrawWMatched(cfg: Config, s: State, t: TxId)
    requires cfg.serialize && t in s.txs && s.txs[t].req.Withdraw? && s.txs[t].pc.WMatched?
    requires WithdrawOk(cfg, s, t, s.txs[t])
    ensures var s' := StepWithdraw(cfg, s, t);
      Quiet(s, s', t) && s'.txs[t].req == s.txs[t].req && WithdrawOk(cfg, s', t, s'.txs[t])
  {
    ApplyNone(s.db);
    RefuseStep(cfg, s, t, H.AlreadyMatched);
    UpdateStep(s, t, s.txs[t].(pc := WUpdate));
  }

  lemma WithdrawWUpdate(cfg: Config, s: State, t: TxId)
    requires cfg.serialize && t in s.txs && s.txs[t].req.Withdraw? && s.txs[t].pc.WUpdate?
    requires WithdrawOk(cfg, s, t, s.txs[t])
    ensures var s' := StepWithdraw(cfg, s, t);
      Quiet(s, s', t) && s'.txs[t].req == s.txs[t].req && WithdrawOk(cfg, s', t, s'.txs[t])
  {
    ApplyNone(s.db);
  }

  lemma WithdrawStep(cfg: Config, s: State, t: TxId)
    requires cfg.serialize && t in s.txs && s.txs[t].req.Withdraw? && WithdrawOk(cfg, s, t, s.txs[t])
    ensures var s' := StepWithdraw(cfg, s, t);
      Quiet(s, s', t) && s'.txs[t].req == s.txs[t].req && WithdrawOk(cfg, s', t, s'.txs[t])
  {
    if s.txs[t].pc.WLock? { WithdrawWLock(cfg, s, t); }
    else if s.txs[t].pc.WOwner? { WithdrawWOwner(cfg, s, t); }
    else if s.txs[t].pc.WMatched? { WithdrawWMatched(cfg, s, t); }
    else if s.txs[t].pc.WUpdate? { WithdrawWUpdate(cfg, s, t); }
  }

  /** A slot found open has room under the capacity read with the schedule. */
  lemma OpenSlotHasRoom(av: Availability, now: int, viewings: Viewings, l: ListingId, start: int)
    requires OpenSlotEnd(av, now, BookedStarts(viewings, l), start).Some?
    ensures Occupancy(viewings, l, start) < Capacity(av)
    ensures OpenSlotEnd(av, now, map[], start) == OpenSlotEnd(av, now, BookedStarts(viewings, l), start)
  {
    OpenSlotEndExact(av, now, map[], start);
    OpenSlotEndExact(av, now, BookedStarts(viewings, l), start);
    BookedStartsCounts(viewings, l, start);
  }

  lemma BookBMatch(cfg: Config, s: State, t: TxId, now: int)
    requires cfg.serialize && t in s.txs && s.txs[t].req.Book? && s.txs[t].pc.BMatch?
    requires BookOk(cfg, s, t, s.txs[t]) && PeakOk(s)
    ensures var s' := StepBook(cfg, s, t, now);
      Quiet(s, s', t) && s'.txs[t].req == s.txs[t].req && BookOk(cfg, s', t, s'.txs[t])
  {
    ApplyNone(s.db);
    var row := H.LiveMatchRow(s.db.ledger, s.txs[t].req.matchId);
    if H.BookRefusal(row, s.txs[t].req.actor).Some? {
      RefuseStep(cfg, s, t, H.BookRefusal(row, s.txs[t].req.actor).value);
    } else {
      UpdateStep(s, t, s.txs[t].(pc := BLock(row.value)));
    }
  }

  lemma BookBLock(cfg: Config, s: State, t: TxId, now: int)
    requires cfg.serialize && t in s.txs && s.txs[t].req.Book? && s.txs[t].pc.BLock? && BookOk(cfg, s, t, s.txs[t])
    requires PeakOk(s)
    ensures var s' := StepBook(cfg, s, t, now);
      Quiet(s, s', t) && s'.txs[t].req == s.txs[t].req && BookOk(cfg, s', t, s'.txs[t])
  {
    ApplyNone(s.db);
    LockStep(cfg, s, t, OnSlot(s.txs[t].pc.row.pair.listing, s.txs[t].req.start), BAvail(s.txs[t].pc.row));
  }

  lemma BookBAvail(cfg: Config, s: State, t: TxId, now: int)
    requires cfg.serialize && t in s.txs && s.txs[t].req.Book? && s.txs[t].pc.BAvail?
    requires BookOk(cfg, s, t, s.txs[t]) && PeakOk(s)
    ensures var s' := StepBook(cfg, s, t, now);
      Quiet(s, s', t) && s'.txs[t].req == s.txs[t].req && BookOk(cfg, s', t, s'.txs[t])
  {
    ApplyNone(s.db);
    var av := H.ListingAvailability(s.db.catalog, s.txs[t].pc.row.pair.listing);
    if av.None? {
      RefuseStep(cfg, s, t, H.Internal);
    } else {
      UpdateStep(s, t, s.txs[t].(pc := BBooked(s.txs[t].pc.row, av.value)));
    }
  }

  lemma BookBBooked(cfg: Config, s: State, t: TxId, now: int)
    requires cfg.serialize && t in s.txs && s.txs[t].req.Book? && s.txs[t].pc.BBooked?
    requires BookOk(cfg, s, t, s.txs[t]) && PeakOk(s)
    ensures var s' := StepBook(cfg, s, t, now);
      Quiet(s, s', t) && s'.txs[t].req == s.txs[t].req && BookOk(cfg, s', t, s'.txs[t])
  {
    ApplyNone(s.db);
    var row, av := s.txs[t].pc.row, s.txs[t].pc.av;
    var start := s.txs[t].req.start;
    var end := OpenSlotEnd(av, now, BookedStarts(s.db.viewings, row.pair.listing), start);
    if end.None? {
      RefuseStep(cfg, s, t, H.SlotFull);
    } else {
      OpenSlotHasRoom(av, now, s.db.viewings, row.pair.listing, start);
      var claim := Claiming(row.pair.listing, start, end.value, av, now);
      UpdateStep(s, t, s.txs[t].(claim := Some(claim), pc := BInsert(row)));
    }
  }

  lemma BookBInsert(cfg: Config, s: State, t: TxId, now: int)
    requires cfg.serialize && t in s.txs && s.txs[t].req.Book? && s.txs[t].pc.BInsert?
    requires BookOk(cfg, s, t, s.txs[t]) && PeakOk(s)
    ensures var s' := StepBook(cfg, s, t, now);
      Quiet(s, s', t) && s'.txs[t].req == s.txs[t].req && BookOk(cfg, s', t, s'.txs[t])
  {
    ApplyNone(s.db);
    var tx := s.txs[t];
    if MatchHasViewing(s.db.viewings, tx.req.matchId) {
      RefuseStep(cfg, s, t, H.AlreadyBooked);
    } else if FreeFor(s.entries, tx.req.matchId, t) {
      var c := tx.claim.value;
      UpdateStep(s, t, tx.(writes := tx.writes + [InsertViewing(t,
          H.NewViewing(tx.req.matchId, tx.pc.row, tx.req.start, c.end))],
                           pc := Commit(H.Answer.Booked(t, tx.req.start, c.end))));
      assert H.NewViewing(tx.req.matchId, tx.pc.row, tx.req.start, c.end)
          == H.NewViewing(tx.req.matchId, s.db.ledger.matches[tx.req.matchId], tx.req.start, c.end);
    }
  }

  lemma BookStep(cfg: Config, s: State, t: TxId, now: int)
    requires cfg.serialize && t in s.txs && s.txs[t].req.Book? && BookOk(cfg, s, t, s.txs[t]) && PeakOk(s)
    ensures var s' := StepBook(cfg, s, t, now);
      Quiet(s, s', t) && s'.txs[t].req == s.txs[t].req && BookOk(cfg, s', t, s'.txs[t])
  {
    if s.txs[t].pc.BMatch? { BookBMatch(cfg, s, t, now); }
    else if s.txs[t].pc.BLock? { BookBLock(cfg, s, t, now); }
    else if s.txs[t].pc.BAvail? { BookBAvail(cfg, s, t, now); }
    else if s.txs[t].pc.BBooked? { BookBBooked(cfg, s, t, now); }
    else if s.txs[t].pc.BInsert? { BookBInsert(cfg, s, t, now); }
  }

  lemma RescheduleRRow(cfg: Config, s: State, t: TxId, now: int)
    requires cfg.serialize && t in s.txs && s.txs[t].req.Reschedule? && s.txs[t].pc.RRow?
    requires RescheduleOk(cfg, s, t, s.txs[t]) && PeakOk(s)
    ensures var s' := StepReschedule(cfg, s, t, now);
      Quiet(s, s', t) && s'.txs[t].req == s.txs[t].req && RescheduleOk(cfg, s', t, s'.txs[t])
  {
    ApplyNone(s.db);
    var v := s.txs[t].req.viewing;
    var row := H.LiveViewing(s.db.viewings, v);
    if row.None? {
      RefuseStep(cfg, s, t, H.NotFound);
    } else if FreeFor(s.rows, v, t) {
      var s1 := s.(rows := s.rows[v := t]);
      var no := H.ViewingRefusal(row, s.txs[t].req.actor);
      if no.Some? {
        RefuseStep(cfg, s1, t, no.value);
      } else {
        UpdateStep(s1, t, s1.txs[t].(pc := RLock(row.value)));
      }
    }
  }

  lemma RescheduleRLock(cfg: Config, s: State, t: TxId, now: int)
    requires cfg.serialize && t in s.txs && s.txs[t].req.Reschedule? && s.txs[t].pc.RLock?
    requires RescheduleOk(cfg, s, t, s.txs[t]) && PeakOk(s)
    ensures var s' := StepReschedule(cfg, s, t, now);
      Quiet(s, s', t) && s'.txs[t].req == s.txs[t].req && RescheduleOk(cfg, s', t, s'.txs[t])
  {
    ApplyNone(s.db);
    LockStep(cfg, s, t, OnSlot(s.txs[t].pc.was.pair.listing, s.txs[t].req.start), RAvail(s.txs[t].pc.was));
  }

  lemma RescheduleRAvail(cfg: Config, s: State, t: TxId, now: int)
    requires cfg.serialize && t in s.txs && s.txs[t].req.Reschedule? && s.txs[t].pc.RAvail?
    requires RescheduleOk(cfg, s, t, s.txs[t]) && PeakOk(s)
    ensures var s' := StepReschedule(cfg, s, t, now);
      Quiet(s, s', t) && s'.txs[t].req == s.txs[t].req && RescheduleOk(cfg, s', t, s'.txs[t])
  {
    ApplyNone(s.db);
    var av := H.ListingAvailability(s.db.catalog, s.txs[t].pc.was.pair.listing);
    if av.None? {
      RefuseStep(cfg, s, t, H.Internal);
    } else {
      UpdateStep(s, t, s.txs[t].(pc := RBooked(s.txs[t].pc.was, av.value)));
    }
  }

  lemma RescheduleRBooked(cfg: Config, s: State, t: TxId, now: int)
    requires cfg.serialize && t in s.txs && s.txs[t].req.Reschedule? && s.txs[t].pc.RBooked?
    requires RescheduleOk(cfg, s, t, s.txs[t]) && PeakOk(s)
    ensures var s' := StepReschedule(cfg, s, t, now);
      Quiet(s, s', t) && s'.txs[t].req == s.txs[t].req && RescheduleOk(cfg, s', t, s'.txs[t])
  {
    ApplyNone(s.db);
    var was, av := s.txs[t].pc.was, s.txs[t].pc.av;
    var start := s.txs[t].req.start;
    var end := OpenSlotEnd(av, now, BookedStarts(s.db.viewings, was.pair.listing), start);
    if end.None? {
      RefuseStep(cfg, s, t, H.SlotFull);
    } else {
      OpenSlotHasRoom(av, now, s.db.viewings, was.pair.listing, start);
      var claim := Claiming(was.pair.listing, start, end.value, av, now);
      UpdateStep(s, t, s.txs[t].(claim := Some(claim), pc := RUpdate(was)));
    }
  }

  lemma RescheduleRUpdate(cfg: Config, s: State, t: TxId, now: int)
    requires cfg.serialize && t in s.txs && s.txs[t].req.Reschedule? && s.txs[t].pc.RUpdate?
    requires RescheduleOk(cfg, s, t, s.txs[t]) && PeakOk(s)
    ensures var s' := StepReschedule(cfg, s, t, now);
      Quiet(s, s', t) && s'.txs[t].req == s.txs[t].req && RescheduleOk(cfg, s', t, s'.txs[t])
  {
    ApplyNone(s.db);
  }

  lemma RescheduleStep(cfg: Config, s: State, t: TxId, now: int)
    requires cfg.serialize && t in s.txs && s.txs[t].req.Reschedule? && RescheduleOk(cfg, s, t, s.txs[t]) && PeakOk(s)
    ensures var s' := StepReschedule(cfg, s, t, now);
      Quiet(s, s', t) && s'.txs[t].req == s.txs[t].req && RescheduleOk(cfg, s', t, s'.txs[t])
  {
    if s.txs[t].pc.RRow? { RescheduleRRow(cfg, s, t, now); }
    else if s.txs[t].pc.RLock? { RescheduleRLock(cfg, s, t, now); }
    else if s.txs[t].pc.RAvail? { RescheduleRAvail(cfg, s, t, now); }
    else if s.txs[t].pc.RBooked? { RescheduleRBooked(cfg, s, t, now); }
    else if s.txs[t].pc.RUpdate? { RescheduleRUpdate(cfg, s, t, now); }
  }

  // ---- ends -----------------------------------------------------------------------------

  lemma ReleaseStep(cfg: Config, s: State, t: TxId, pc: Pc)
    requires t in s.txs && (pc.Finished? || pc.Crashed?) && TxOk(cfg, s, t, s.txs[t])
    ensures var s' := Release(s, t, pc); Quiet(s, s', t) && TxOk(cfg, s', t, s'.txs[t])
  {
  }

  // ---- commits --------------------------------------------------------------------------

  lemma PutInterestKeeps(g: Ledger, k: InterestKey, status: InterestStatus, p: Pair)
    ensures var g' := g.(interests := g.interests[k := status]);
      && (p != k.pair ==> PairKept(g, g', p))
      && g'.HasMatch(p) == g.HasMatch(p) && g'.HasLiveMatch(p) == g.HasLiveMatch(p)
      && g'.Interested(k.pair, k.role) == (status == Wanted)
      && g'.Interested(k.pair, k.role.Other()) == g.Interested(k.pair, k.role.Other())
  {
  }

  lemma InsertMatchKeeps(g: Ledger, id: MatchId, row: MatchRow, p: Pair)
    requires id !in g.matches
    ensures var g' := g.(matches := g.matches[id := row]);
      && (p != row.pair ==> PairKept(g, g', p))
      && g'.HasMatch(row.pair) && (!row.deleted ==> g'.HasLiveMatch(row.pair))
      && (p != row.pair ==> g'.HasMatch(p) == g.HasMatch(p))
      && PartiesKept(g, g')
  {
    var g' := g.(matches := g.matches[id := row]);
    assert g'.matches[id].pair == row.pair;
    if p != row.pair && g.HasMatch(p) {
      var m :| m in g.matches && g.matches[m].pair == p;
      assert g'.matches[m].pair == p;
    }
  }

  lemma WantedLedgerOk(g: Ledger, k: InterestKey)
    requires LedgerOk(g)
    requires !g.Interested(k.pair, k.role.Other()) || g.HasMatch(k.pair)
    ensures LedgerOk(g.(interests := g.interests[k := Wanted]))
  {
    var g' := g.(interests := g.interests[k := Wanted]);
    forall p: Pair ensures g'.BothInterested(p) ==> g'.HasMatch(p) {
      PutInterestKeeps(g, k, Wanted, p);
    }
    forall m <- g'.matches ensures !g'.matches[m].deleted ==> g'.BothInterested(g'.matches[m].pair) {
      assert g'.matches[m] == g.matches[m];
      PutInterestKeeps(g, k, Wanted, g.matches[m].pair);
    }
  }

  lemma WithdrawnLedgerOk(g: Ledger, k: InterestKey)
    requires LedgerOk(g) && !g.HasLiveMatch(k.pair)
    ensures LedgerOk(g.(interests := g.interests[k := Withdrawn]))
  {
    var g' := g.(interests := g.interests[k := Withdrawn]);
    forall p: Pair ensures g'.BothInterested(p) ==> g'.HasMatch(p) {
      PutInterestKeeps(g, k, Withdrawn, p);
    }
    forall m <- g'.matches ensures !g'.matches[m].deleted ==> g'.BothInterested(g'.matches[m].pair) {
      assert g'.matches[m] == g.matches[m];
      PutInterestKeeps(g, k, Withdrawn, g.matches[m].pair);
    }
  }

  lemma MatchedLedgerOk(g: Ledger, k: InterestKey, id: MatchId, row: MatchRow)
    requires LedgerOk(g) && id !in g.matches && row.pair == k.pair
    requires g.Interested(k.pair, k.role.Other()) && !g.HasMatch(k.pair)
    ensures LedgerOk(g.(interests := g.interests[k := Wanted]).(matches := g.matches[id := row]))
  {
    var g1 := g.(interests := g.interests[k := Wanted]);
    var g' := g1.(matches := g1.matches[id := row]);
    forall p: Pair ensures g'.BothInterested(p) ==> g'.HasMatch(p) {
      PutInterestKeeps(g, k, Wanted, p);
      InsertMatchKeeps(g1, id, row, p);
    }
    forall m <- g'.matches ensures !g'.matches[m].deleted ==> g'.BothInterested(g'.matches[m].pair) {
      PutInterestKeeps(g, k, Wanted, g'.matches[m].pair);
    }
  }

  // ---- counting -------------------------------------------------------------------------

  lemma SubsetCard<T>(a: set<T>, b: set<T>)
    requires a <= b
    ensures |a| <= |b|
  {
    assert b == a + (b - a);
  }

  ghost predicate At(row: ViewingRow, l: ListingId, t: int) {
    row.Occupies() && row.pair.listing == l && row.start == t
  }

  /** Writing one viewing row adds at most itself, and only to the slot it is put in. */
  lemma OccupancySet(viewings: Viewings, v: ViewingId, row: ViewingRow, l: ListingId, t: int)
    ensures var after := Occupancy(viewings[v := row], l, t);
      && after <= Occupancy(viewings, l, t) + 1
      && (!At(row, l, t) || (v in viewings && At(viewings[v], l, t)) ==> after <= Occupancy(viewings, l, t))
  {
    var a, b := OccupiersAt(viewings[v := row], l, t), OccupiersAt(viewings, l, t);
    if At(row, l, t) && !(v in viewings && At(viewings[v], l, t)) {
      SubsetCard(a, b + {v});
    } else {
      SubsetCard(a, b);
    }
  }

  // ---- what a commit does to the others and to the tables ---------------------------------

  /** Two transactions never hold locks with the same hash. */
  lemma Exclusive(cfg: Config, s: State, t: TxId, u: TxId, a: LockName, b: LockName)
    requires Holds(cfg, s, t, a) && Holds(cfg, s, u, b) && t != u
    ensures cfg.hash(a) != cfg.hash(b) && a != b
  {
  }

  /** The tables after a step that only writes the ledger. */
  ghost predicate LedgerStep(cfg: Config, s: State, t: TxId, p: Pair, g': Ledger) {
    && LedgerOk(g') && PartiesKept(s.db.ledger, g')
    && (forall q: Pair :: q != p ==> PairKept(s.db.ledger, g', q))
    && (forall m <- g'.matches :: m in s.db.ledger.matches || m == t)
    && MatchPartiesOk(s.db.(ledger := g')) && MatchStatesOk(s.db.(ledger := g'))
  }

  lemma LedgerStepRely(cfg: Config, s: State, t: TxId, p: Pair, g': Ledger, u: TxId)
    requires LedgerStep(cfg, s, t, p, g') && Holds(cfg, s, t, OnPair(p)) && u != t
    ensures DbRely(cfg, s, s.db.(ledger := g'), u)
  {
    forall q: Pair | Holds(cfg, s, u, OnPair(q)) ensures PairKept(s.db.ledger, g', q) {
      Exclusive(cfg, s, t, u, OnPair(p), OnPair(q));
    }
  }

  /** The interest alone: one write. */
  lemma InterestCommits(cfg: Config, s: State, t: TxId, k: InterestKey)
    requires TablesOk(s) && (!s.db.ledger.Interested(k.pair, k.role.Other()) || s.db.ledger.HasMatch(k.pair))
    ensures var db' := Apply(s.db, [PutInterest(k, Wanted)]);
      db' == s.db.(ledger := db'.ledger) && LedgerStep(cfg, s, t, k.pair, db'.ledger)
  {
    var g := s.db.ledger;
    var g1 := g.(interests := g.interests[k := Wanted]);
    ApplyOne(s.db, PutInterest(k, Wanted));
    forall q: Pair ensures q != k.pair ==> PairKept(g, g1, q) { PutInterestKeeps(g, k, Wanted, q); }
    WantedLedgerOk(g, k);
  }

  /** The interest that completes a match: two writes. */
  lemma MatchCommits(cfg: Config, s: State, t: TxId, k: InterestKey, row: MatchRow)
    requires TablesOk(s) && t !in s.db.ledger.matches && row.pair == k.pair
    requires s.db.ledger.Interested(k.pair, k.role.Other()) && !s.db.ledger.HasMatch(k.pair)
    requires OwnedBy(s.db.catalog, row.pair, row.tenant, row.landlord) && row.status == Active && !row.deleted
    ensures var db' := Apply(s.db, [PutInterest(k, Wanted), InsertMatch(t, row)]);
      db' == s.db.(ledger := db'.ledger) && LedgerStep(cfg, s, t, k.pair, db'.ledger)
  {
    var g := s.db.ledger;
    var g1 := g.(interests := g.interests[k := Wanted]);
    var g2 := g1.(matches := g1.matches[t := row]);
    ApplyTwo(s.db, PutInterest(k, Wanted), InsertMatch(t, row));
    MatchedLedgerOk(g, k, t, row);
    forall q: Pair ensures q != k.pair ==> PairKept(g, g2, q) {
      PutInterestKeeps(g, k, Wanted, q);
      InsertMatchKeeps(g1, t, row, q);
    }
  }

  lemma ExpressCommits(cfg: Config, s: State, t: TxId)
    requires Inv(cfg, s) && t in s.txs && s.txs[t].req.Express? && s.txs[t].pc.Commit?
    ensures var db' := Apply(s.db, s.txs[t].writes);
      db' == s.db.(ledger := db'.ledger) && LedgerStep(cfg, s, t, s.txs[t].req.pair, db'.ledger)
  {
    assert TxOk(cfg, s, t, s.txs[t]);
    var tx := s.txs[t];
    var k := InterestKey(tx.req.pair, tx.req.role);
    if |tx.writes| == 1 {
      InterestCommits(cfg, s, t, k);
    } else {
      MatchCommits(cfg, s, t, k, H.NewMatch(tx.seen, tx.req.pair));
    }
  }

  lemma WithdrawCommits(cfg: Config, s: State, t: TxId)
    requires Inv(cfg, s) && t in s.txs && s.txs[t].req.Withdraw? && s.txs[t].pc.Commit?
    ensures var db' := Apply(s.db, s.txs[t].writes);
      db' == s.db.(ledger := db'.ledger) && LedgerStep(cfg, s, t, s.txs[t].req.pair, db'.ledger)
  {
    assert TxOk(cfg, s, t, s.txs[t]);
    var tx := s.txs[t];
    var g, k := s.db.ledger, InterestKey(tx.req.pair, tx.req.role);
    if tx.writes == [] {
      ApplyNone(s.db);
    } else {
      ApplyOne(s.db, tx.writes[0]);
      WithdrawnLedgerOk(g, k);
      var g1 := g.(interests := g.interests[k := Withdrawn]);
      forall q: Pair ensures q != k.pair ==> PairKept(g, g1, q) {
        PutInterestKeeps(g, k, Withdrawn, q);
      }
    }
  }

  /** One viewing row is written: `t` owns the row, the slot it is put in and the index entry of a new row. */
  ghost predicate ViewingStep(cfg: Config, s: State, t: TxId, v: ViewingId, row: ViewingRow) {
    && SameParties(s.db.ledger, row)
    && (if v in s.db.viewings
        then v in s.rows && s.rows[v] == t && row.matchId == s.db.viewings[v].matchId
            && (row.Occupies() ==> s.db.viewings[v].Occupies())
        else
          && v == t && row.matchId in s.entries && s.entries[row.matchId] == t
          && !MatchHasViewing(s.db.viewings, row.matchId))
    && (row.Occupies() && !(v in s.db.viewings && At(s.db.viewings[v], row.pair.listing, row.start)) ==>
          && Holds(cfg, s, t, OnSlot(row.pair.listing, row.start))
          && Occupancy(s.db.viewings, row.pair.listing, row.start) < PeakOf(s, row.pair.listing))
  }

  lemma ViewingStepRely(cfg: Config, s: State, t: TxId, v: ViewingId, row: ViewingRow, u: TxId)
    requires ViewingStep(cfg, s, t, v, row) && u != t
    ensures DbRely(cfg, s, s.db.(viewings := s.db.viewings[v := row]), u)
  {
    var viewings' := s.db.viewings[v := row];
    forall l: ListingId, x: int | Holds(cfg, s, u, OnSlot(l, x))
      ensures Occupancy(viewings', l, x) <= Occupancy(s.db.viewings, l, x)
    {
      OccupancySet(s.db.viewings, v, row, l, x);
      if At(row, l, x) && !(v in s.db.viewings && At(s.db.viewings[v], l, x)) {
        Exclusive(cfg, s, t, u, OnSlot(l, x), OnSlot(l, x));
      }
    }
    forall m | m in s.entries && s.entries[m] == u && MatchHasViewing(viewings', m)
      ensures MatchHasViewing(s.db.viewings, m)
    {
      var w :| w in viewings' && viewings'[w].matchId == m && viewings'[w].Occupies();
      assert w in s.db.viewings && s.db.viewings[w].matchId == m && s.db.viewings[w].Occupies();
    }
  }

  /** The written viewing is a known one that gains no room, or the first of its match. */
  lemma ViewingStepOnePerMatch(s: State, after: Viewings, v: ViewingId, row: ViewingRow)
    requires OneViewingPerMatch(s.db.viewings) && after == s.db.viewings[v := row]
    requires if v in s.db.viewings
      then row.matchId == s.db.viewings[v].matchId && (row.Occupies() ==> s.db.viewings[v].Occupies())
      else !MatchHasViewing(s.db.viewings, row.matchId)
    ensures OneViewingPerMatch(after)
  {
  }

  lemma ViewingStepTables(cfg: Config, s: State, s': State, t: TxId, v: ViewingId, row: ViewingRow)
    requires TablesOk(s) && ViewingStep(cfg, s, t, v, row)
    requires s'.db == s.db.(viewings := s.db.viewings[v := row]) && s'.peak == s.peak
    ensures TablesOk(s')
  {
    forall l: ListingId, x: int ensures Occupancy(s'.db.viewings, l, x) <= PeakOf(s', l) {
      OccupancySet(s.db.viewings, v, row, l, x);
      assert Occupancy(s.db.viewings, l, x) <= PeakOf(s, l);
    }
    ViewingStepOnePerMatch(s, s'.db.viewings, v, row);
    forall w <- s'.db.viewings ensures SameParties(s'.db.ledger, s'.db.viewings[w]) {
      if w != v { assert w in s.db.viewings; }
    }
  }

  lemma BookCommits(cfg: Config, s: State, t: TxId)
    requires Inv(cfg, s) && t in s.txs && s.txs[t].req.Book? && s.txs[t].pc.Commit?
    ensures |s.txs[t].writes| == 1 && s.txs[t].writes[0].InsertViewing? && s.txs[t].writes[0].vid == t
    ensures var row := s.txs[t].writes[0].viewing;
      && Apply(s.db, s.txs[t].writes) == s.db.(viewings := s.db.viewings[t := row])
      && ViewingStep(cfg, s, t, t, row)
  {
    assert TxOk(cfg, s, t, s.txs[t]);
    ApplyOne(s.db, s.txs[t].writes[0]);
  }

  lemma RescheduleCommits(cfg: Config, s: State, t: TxId)
    requires Inv(cfg, s) && t in s.txs && s.txs[t].req.Reschedule? && s.txs[t].pc.Commit?
    ensures var v := s.txs[t].req.viewing;
      && v in s.db.viewings && s.txs[t].claim.Some?
      && var row := s.db.viewings[v].(start := s.txs[t].claim.value.start, end := s.txs[t].claim.value.end);
      && Apply(s.db, s.txs[t].writes) == s.db.(viewings := s.db.viewings[v := row])
      && ViewingStep(cfg, s, t, v, row)
  {
    assert TxOk(cfg, s, t, s.txs[t]);
    var v := s.txs[t].req.viewing;
    ApplyOne(s.db, s.txs[t].writes[0]);
    assert SameParties(s.db.ledger, s.db.viewings[v]);
  }

  // ---- putting the pieces together -----------------------------------------------------------

  /** A step of `t` that changes the tables keeps the others' invariants if they can rely on it. */
  lemma OthersKeepInv(cfg: Config, s: State, s': State, t: TxId)
    requires TxsOk(cfg, s) && TablesOk(s') && OtherTxsKept(s, s', t) && TxOk(cfg, s', t, s'.txs[t])
    requires OthersKept(s.locks, s'.locks, t) && OthersKept(s.rows, s'.rows, t) && OthersKept(s.entries, s'.entries, t)
    requires s'.peak == s.peak && forall u <- s.txs :: u != t ==> DbRely(cfg, s, s'.db, u)
    ensures Inv(cfg, s')
  {
    forall u <- s'.txs ensures TxOk(cfg, s', u, s'.txs[u]) {
      if u != t {
        assert u in s.txs && s'.txs[u] == s.txs[u];
        assert DbRely(cfg, s, s'.db, u);
        assert forall l: ListingId :: PeakOf(s, l) <= PeakOf(s', l);
        TxStable(cfg, s, s', u, s.txs[u]);
      }
    }
  }

  lemma LedgerCommit(cfg: Config, s: State, t: TxId, p: Pair)
    requires Inv(cfg, s) && t in s.txs && s.txs[t].pc.Commit? && Holds(cfg, s, t, OnPair(p))
    requires var db' := Apply(s.db, s.txs[t].writes);
      db' == s.db.(ledger := db'.ledger) && LedgerStep(cfg, s, t, p, db'.ledger)
    requires s.txs[t].req.OnLedger()
    ensures Inv(cfg, StepEnd(s, t))
  {
    var s' := StepEnd(s, t);
    assert TxOk(cfg, s, t, s.txs[t]);
    CommitFrame(cfg, s, t);
    forall u <- s.txs | u != t ensures DbRely(cfg, s, s'.db, u) { LedgerStepRely(cfg, s, t, p, s'.db.ledger, u); }
    LedgerStepTables(cfg, s, s', t, p);
    assert s.txs[t].req.Express? ==> SeenOwnersOk(s'.db.catalog, s'.txs[t].seen, s.txs[t].req.pair);
    OthersKeepInv(cfg, s, s', t);
  }

  lemma ViewingCommit(cfg: Config, s: State, t: TxId, v: ViewingId, row: ViewingRow)
    requires Inv(cfg, s) && t in s.txs && s.txs[t].pc.Commit? && ViewingStep(cfg, s, t, v, row)
    requires Apply(s.db, s.txs[t].writes) == s.db.(viewings := s.db.viewings[v := row])
    requires s.txs[t].req.Book? || s.txs[t].req.Reschedule?
    ensures Inv(cfg, StepEnd(s, t))
  {
    CommitFrame(cfg, s, t);
    ViewingStepOthers(cfg, s, t, v, row);
    ViewingStepTables(cfg, s, StepEnd(s, t), t, v, row);
    FinishedOk(cfg, StepEnd(s, t), t, StepEnd(s, t).txs[t]);
    OthersKeepInv(cfg, s, StepEnd(s, t), t);
  }

  lemma FinishedOk(cfg: Config, s: State, t: TxId, tx: Tx)
    requires tx.pc.Finished? && (tx.req.Book? || tx.req.Reschedule?)
    ensures TxOk(cfg, s, t, tx)
  {
  }

  lemma ViewingStepOthers(cfg: Config, s: State, t: TxId, v: ViewingId, row: ViewingRow)
    requires ViewingStep(cfg, s, t, v, row)
    ensures forall u <- s.txs :: u != t ==> DbRely(cfg, s, s.db.(viewings := s.db.viewings[v := row]), u)
  {
    forall u <- s.txs | u != t ensures DbRely(cfg, s, s.db.(viewings := s.db.viewings[v := row]), u) {
      ViewingStepRely(cfg, s, t, v, row, u);
    }
  }

  lemma LedgerCommitStep(cfg: Config, s: State, t: TxId)
    requires Inv(cfg, s) && t in s.txs && s.txs[t].pc.Commit? && s.txs[t].req.OnLedger()
    ensures Inv(cfg, StepEnd(s, t))
  {
    assert TxOk(cfg, s, t, s.txs[t]);
    if s.txs[t].req.Express? { ExpressCommits(cfg, s, t); } else { WithdrawCommits(cfg, s, t); }
    LedgerCommit(cfg, s, t, s.txs[t].req.pair);
  }

  /** The viewing that a booking or rescheduling commits. */
  function CommittedId(t: TxId, req: Request): ViewingId { if req.Reschedule? then req.viewing else t }

  /** One row is written: a new one, or the old one with another slot. */
  lemma ViewingCommits(cfg: Config, s: State, t: TxId)
    requires Inv(cfg, s) && t in s.txs && s.txs[t].pc.Commit?
    requires s.txs[t].req.Book? || s.txs[t].req.Reschedule?
    ensures var d, v := StepEnd(s, t).db, CommittedId(t, s.txs[t].req);
      && v in d.viewings && s.txs[t].claim.Some?
      && d == s.db.(viewings := s.db.viewings[v := d.viewings[v]]) && ViewingStep(cfg, s, t, v, d.viewings[v])
      && (s.txs[t].req.Reschedule? <==> v in s.db.viewings)
      && d.viewings[v].start == s.txs[t].claim.value.start && d.viewings[v].end == s.txs[t].claim.value.end
      && (v in s.db.viewings ==>
            d.viewings[v] == s.db.viewings[v].(start := d.viewings[v].start, end := d.viewings[v].end))
  {
    assert TxOk(cfg, s, t, s.txs[t]);
    CommitFrame(cfg, s, t);
    if s.txs[t].req.Book? { BookCommits(cfg, s, t); } else { RescheduleCommits(cfg, s, t); }
  }

  lemma ViewingCommitStep(cfg: Config, s: State, t: TxId)
    requires Inv(cfg, s) && t in s.txs && s.txs[t].pc.Commit?
    requires s.txs[t].req.Book? || s.txs[t].req.Reschedule?
    ensures Inv(cfg, StepEnd(s, t))
  {
    ViewingCommits(cfg, s, t);
    CommitFrame(cfg, s, t);
    var v := CommittedId(t, s.txs[t].req);
    ViewingCommit(cfg, s, t, v, StepEnd(s, t).db.viewings[v]);
  }

  lemma CommitStep(cfg: Config, s: State, t: TxId)
    requires Inv(cfg, s) && t in s.txs && s.txs[t].pc.Commit?
    ensures Inv(cfg, StepEnd(s, t))
  {
    if s.txs[t].req.OnLedger() { LedgerCommitStep(cfg, s, t); }
    else if s.txs[t].req.Cancel? { assert TxOk(cfg, s, t, s.txs[t]); }
    else { ViewingCommitStep(cfg, s, t); }
  }

  lemma LedgerStepTables(cfg: Config, s: State, s': State, t: TxId, p: Pair)
    requires TablesOk(s) && LedgerStep(cfg, s, t, p, s'.db.ledger)
    requires s'.db == s.db.(ledger := s'.db.ledger) && s'.peak == s.peak
    ensures TablesOk(s')
  {
    forall w <- s'.db.viewings ensures SameParties(s'.db.ledger, s'.db.viewings[w]) {
      assert SameParties(s.db.ledger, s.db.viewings[w]);
    }
    assert forall l: ListingId :: PeakOf(s', l) == PeakOf(s, l);
    forall l: ListingId, x: int ensures Occupancy(s'.db.viewings, l, x) <= PeakOf(s', l) {
      assert Occupancy(s.db.viewings, l, x) <= PeakOf(s, l);
    }
  }

  lemma CommitFrame(cfg: Config, s: State, t: TxId)
    requires t in s.txs && s.txs[t].pc.Commit?
    ensures var s' := StepEnd(s, t);
      && OtherTxsKept(s, s', t) && s'.peak == s.peak
      && OthersKept(s.locks, s'.locks, t) && OthersKept(s.rows, s'.rows, t) && OthersKept(s.entries, s'.entries, t)
      && s'.db == Apply(s.db, s.txs[t].writes)
      && s'.txs[t] == s.txs[t].(pc := Finished(s.txs[t].pc.answer))
  {
  }

  /** The step commits a match. */
  predicate CommitsMatch(s: State, e: Event) {
    && e.Run? && e.t in s.txs && s.txs[e.t].req.Express? && s.txs[e.t].pc.Commit? && s.txs[e.t].pc.answer.Matched?
    && !s.db.ledger.HasMatch(s.txs[e.t].req.pair)
  }

  lemma ExpressEnds(cfg: Config, s: State, t: TxId)
    requires Inv(cfg, s) && t in s.txs && s.txs[t].req.Express? && s.txs[t].pc.Commit?
    ensures var tx, g, d := s.txs[t], s.db.ledger, StepEnd(s, t).db;
      && t !in g.matches && d.catalog == s.db.catalog && d.viewings == s.db.viewings
      && (if tx.pc.answer.Matched? && !g.HasMatch(tx.req.pair)
          then tx.seen.profile.Some? && tx.seen.listing.Some?
            && d.ledger.matches == g.matches[t := H.NewMatch(tx.seen, tx.req.pair)]
          else d.ledger.matches == g.matches)
  {
    assert TxOk(cfg, s, t, s.txs[t]);
    var tx := s.txs[t];
    CommitFrame(cfg, s, t);
    if |tx.writes| == 1 { ApplyOne(s.db, tx.writes[0]); } else { ApplyTwo(s.db, tx.writes[0], tx.writes[1]); }
  }

  /** Which tables a row of writes leaves alone. */
  lemma {:induction false} ApplyTables(db: Db, ws: seq<Write>)
    ensures var d := Apply(db, ws);
      && d.catalog == db.catalog
      && ((forall w <- ws :: w.OnLedger()) ==> d.viewings == db.viewings)
      && ((forall w <- ws :: !w.OnLedger()) ==> d.ledger == db.ledger)
      && ((forall w <- ws :: !w.InsertMatch?) ==> d.ledger.matches == db.ledger.matches)
  {
    if ws != [] {
      var before, last := ws[..|ws| - 1], ws[|ws| - 1];
      ApplyTables(db, before);
      assert (forall w <- before :: w in ws) && last in ws;
    }
  }

  lemma WritesOnOneSide(cfg: Config, s: State, t: TxId, w: Write)
    requires Inv(cfg, s) && t in s.txs && s.txs[t].pc.Commit? && w in s.txs[t].writes
    ensures w.OnLedger() <==> s.txs[t].req.OnLedger()
    ensures w.InsertMatch? ==> CommitsMatch(s, Run(t, 0))
  {
    assert TxOk(cfg, s, t, s.txs[t]);
  }

  /** Which tables a commit leaves alone. */
  lemma CommitTables(cfg: Config, s: State, t: TxId)
    requires Inv(cfg, s) && t in s.txs && s.txs[t].pc.Commit?
    ensures var d := StepEnd(s, t).db;
      && d.catalog == s.db.catalog
      && (if s.txs[t].req.OnLedger() then d.viewings == s.db.viewings else d.ledger == s.db.ledger)
      && (!CommitsMatch(s, Run(t, 0)) ==> d.ledger.matches == s.db.ledger.matches)
  {
    forall w <- s.txs[t].writes
      ensures (w.OnLedger() <==> s.txs[t].req.OnLedger()) && (w.InsertMatch? ==> CommitsMatch(s, Run(t, 0)))
    {
      WritesOnOneSide(cfg, s, t, w);
    }
    ApplyTables(s.db, s.txs[t].writes);
  }

  // ---- the other events -------------------------------------------------------------------

  /** A statement that does not end its transaction changes nothing that others can see. */
  lemma StatementQuiet(cfg: Config, s: State, t: TxId, now: int)
    requires cfg.serialize && Inv(cfg, s) && t in s.txs
    requires !s.txs[t].pc.Commit? && !s.txs[t].pc.Rollback? && !s.txs[t].req.Cancel?
    ensures var s' := StepTx(cfg, s, t, now);
      Quiet(s, s', t) && s'.txs[t].req == s.txs[t].req && TxOk(cfg, s', t, s'.txs[t])
  {
    assert TxOk(cfg, s, t, s.txs[t]);
    if s.txs[t].req.Express? { ExpressStep(cfg, s, t); }
    else if s.txs[t].req.Withdraw? { WithdrawStep(cfg, s, t); }
    else if s.txs[t].req.Book? { BookStep(cfg, s, t, now); }
    else { RescheduleStep(cfg, s, t, now); }
    if !s.txs[t].Live() { FinishedStays(cfg, s, t, now); }
  }

  lemma FinishedStays(cfg: Config, s: State, t: TxId, now: int)
    requires t in s.txs && !s.txs[t].Live()
    ensures StepTx(cfg, s, t, now) == s
  {
  }

  /** A transaction ends without writing. */
  lemma ReleaseKeepsInv(cfg: Config, s: State, t: TxId, pc: Pc)
    requires Inv(cfg, s) && t in s.txs && (pc.Finished? || pc.Crashed?)
    ensures Inv(cfg, Release(s, t, pc))
  {
    assert TxOk(cfg, s, t, s.txs[t]);
    ReleaseStep(cfg, s, t, pc);
    QuietKeepsInv(cfg, s, Release(s, t, pc), t);
  }

  lemma StatementKeepsInv(cfg: Config, s: State, t: TxId, now: int)
    requires cfg.serialize && Inv(cfg, s) && t in s.txs
    requires !s.txs[t].pc.Commit? && !s.txs[t].pc.Rollback? && !s.txs[t].req.Cancel?
    ensures Inv(cfg, StepTx(cfg, s, t, now))
  {
    StatementQuiet(cfg, s, t, now);
    QuietKeepsInv(cfg, s, StepTx(cfg, s, t, now), t);
  }

  lemma RunKeepsInv(cfg: Config, s: State, t: TxId, now: int)
    requires cfg.serialize && Inv(cfg, s) && t in s.txs
    ensures Inv(cfg, StepTx(cfg, s, t, now))
  {
    if s.txs[t].pc.Commit? { CommitStep(cfg, s, t); }
    else if s.txs[t].pc.Rollback? { ReleaseKeepsInv(cfg, s, t, Finished(s.txs[t].pc.answer)); }
    else if s.txs[t].req.Cancel? { CancelKeepsInv(cfg, s, t); }
    else { StatementKeepsInv(cfg, s, t, now); }
  }

  /** `row` replaces a row nobody has locked and gains no room in any slot. */
  ghost predicate LooseStep(s: State, v: ViewingId, row: ViewingRow) {
    && v in s.db.viewings && v !in s.rows
    && row.(status := s.db.viewings[v].status, deleted := s.db.viewings[v].deleted) == s.db.viewings[v]
    && (row.Occupies() ==> s.db.viewings[v].Occupies())
  }

  lemma LooseStepRely(cfg: Config, s: State, v: ViewingId, row: ViewingRow, u: TxId)
    requires LooseStep(s, v, row)
    ensures DbRely(cfg, s, s.db.(viewings := s.db.viewings[v := row]), u)
  {
    var viewings' := s.db.viewings[v := row];
    forall l: ListingId, x: int ensures Occupancy(viewings', l, x) <= Occupancy(s.db.viewings, l, x) {
      OccupancySet(s.db.viewings, v, row, l, x);
    }
    forall m | MatchHasViewing(viewings', m) ensures MatchHasViewing(s.db.viewings, m) {
      var w :| w in viewings' && viewings'[w].matchId == m && viewings'[w].Occupies();
      assert s.db.viewings[w].matchId == m && s.db.viewings[w].Occupies();
    }
  }

  lemma LooseStepViewings(s: State, s': State, v: ViewingId, row: ViewingRow)
    requires OneViewingPerMatch(s.db.viewings) && CapacityOk(s) && LooseStep(s, v, row)
    requires s'.db.viewings == s.db.viewings[v := row] && s'.peak == s.peak
    ensures OneViewingPerMatch(s'.db.viewings) && CapacityOk(s')
  {
    forall l: ListingId, x: int ensures Occupancy(s'.db.viewings, l, x) <= PeakOf(s', l) {
      OccupancySet(s.db.viewings, v, row, l, x);
      assert Occupancy(s.db.viewings, l, x) <= PeakOf(s, l);
    }
  }

  lemma LooseStepTables(s: State, s': State, v: ViewingId, row: ViewingRow)
    requires TablesOk(s) && LooseStep(s, v, row)
    requires s'.db == s.db.(viewings := s.db.viewings[v := row]) && s'.peak == s.peak
    ensures TablesOk(s')
  {
    LooseStepViewings(s, s', v, row);
    forall w <- s'.db.viewings ensures SameParties(s'.db.ledger, s'.db.viewings[w]) {
      assert SameParties(s.db.ledger, s.db.viewings[w]);
    }
  }

  /** An event outside every transaction keeps the invariant if all of them can rely on it. */
  lemma EventKeepsInv(cfg: Config, s: State, s': State)
    requires TxsOk(cfg, s) && TablesOk(s') && s'.txs == s.txs
    requires s'.locks == s.locks && s'.rows == s.rows && s'.entries == s.entries
    requires forall l: ListingId :: PeakOf(s, l) <= PeakOf(s', l)
    requires forall u <- s.txs :: DbRely(cfg, s, s'.db, u)
    ensures Inv(cfg, s')
  {
    forall u <- s'.txs ensures TxOk(cfg, s', u, s'.txs[u]) {
      assert DbRely(cfg, s, s'.db, u);
      TxStable(cfg, s, s', u, s.txs[u]);
    }
  }

  lemma LooseKeepsInv(cfg: Config, s: State, v: ViewingId, row: ViewingRow)
    requires Inv(cfg, s) && LooseStep(s, v, row)
    ensures Inv(cfg, SetViewing(s, v, row))
  {
    var s' := SetViewing(s, v, row);
    forall u <- s.txs ensures DbRely(cfg, s, s'.db, u) { LooseStepRely(cfg, s, v, row, u); }
    LooseStepTables(s, s', v, row);
    EventKeepsInv(cfg, s, s');
  }

  lemma CancelKeepsInv(cfg: Config, s: State, t: TxId)
    requires Inv(cfg, s) && t in s.txs && s.txs[t].req.Cancel?
    ensures Inv(cfg, StepCancel(s, t))
  {
    assert TxOk(cfg, s, t, s.txs[t]);
    if s.txs[t].pc.CRead? { CancelReads(cfg, s, t); }
    else if s.txs[t].pc.CUpdate? { CancelWrites(cfg, s, t); }
  }

  lemma CancelReads(cfg: Config, s: State, t: TxId)
    requires Inv(cfg, s) && t in s.txs && s.txs[t].req.Cancel? && s.txs[t].pc.CRead?
    ensures Inv(cfg, StepCancel(s, t))
  {
    assert TxOk(cfg, s, t, s.txs[t]);
    var row := H.LiveViewing(s.db.viewings, s.txs[t].req.viewing);
    var no := H.ViewingRefusal(row, s.txs[t].req.actor);
    if no.Some? {
      RefuseStep(cfg, s, t, no.value);
    } else {
      UpdateStep(s, t, s.txs[t].(pc := CUpdate(H.CancelStatus(row.value, s.txs[t].req.actor))));
    }
    QuietKeepsInv(cfg, s, StepCancel(s, t), t);
  }

  lemma FinishCancel(cfg: Config, s: State, t: TxId)
    requires Inv(cfg, s) && t in s.txs && s.txs[t].req.Cancel?
    ensures Inv(cfg, Goto(s, t, Finished(H.Ok)))
  {
    UpdateStep(s, t, s.txs[t].(pc := Finished(H.Ok)));
    QuietKeepsInv(cfg, s, Goto(s, t, Finished(H.Ok)), t);
  }

  lemma CancelWrites(cfg: Config, s: State, t: TxId)
    requires Inv(cfg, s) && t in s.txs && s.txs[t].req.Cancel? && s.txs[t].pc.CUpdate?
    ensures Inv(cfg, StepCancel(s, t))
  {
    var v, to := s.txs[t].req.viewing, s.txs[t].pc.to;
    if H.LiveViewing(s.db.viewings, v).None? {
      FinishCancel(cfg, s, t);
    } else if v !in s.rows {
      assert to in {Cancelled, CancelledLandlord} by { assert TxOk(cfg, s, t, s.txs[t]); }
      LooseKeepsInv(cfg, s, v, s.db.viewings[v].(status := to));
      FinishCancel(cfg, SetViewing(s, v, s.db.viewings[v].(status := to)), t);
    }
  }

  lemma BeginKeepsInv(cfg: Config, s: State, t: TxId, req: Request)
    requires Inv(cfg, s)
    ensures Inv(cfg, Step(cfg, s, Begin(t, req)))
  {
    var s' := Step(cfg, s, Begin(t, req));
    if s' != s {
      QuietKeepsInv(cfg, s, s', t);
    }
  }

  // ---- catalog and cascade rows ---------------------------------------------------------------

  /** An edit of the catalog leaves everything else, every owner and every capacity bound in place. */
  ghost predicate CatalogEdit(s: State, s': State) {
    && s'.db == s.db.(catalog := s'.db.catalog) && s'.txs == s.txs
    && s'.locks == s.locks && s'.rows == s.rows && s'.entries == s.entries
    && OwnersKept(s.db.catalog, s'.db.catalog) && s.db.catalog.gone <= s'.db.catalog.gone
    && (forall l: ListingId :: PeakOf(s, l) <= PeakOf(s', l)) && PeakOk(s')
  }

  lemma PutProfileEdits(cfg: Config, s: State, e: Event)
    requires PeakOk(s) && e.PutProfile?
    ensures CatalogEdit(s, Step(cfg, s, e))
  {
    var c := s.db.catalog;
    if e.p !in c.profiles || c.profiles[e.p].owner == e.profile.owner {
      ProfileEdits(s, e.p, e.profile);
    }
  }

  lemma ProfileEdits(s: State, p: ProfileId, row: ProfileRow)
    requires PeakOk(s) && (p in s.db.catalog.profiles ==> s.db.catalog.profiles[p].owner == row.owner)
    ensures CatalogEdit(s, SetCatalog(s, s.db.catalog.(profiles := s.db.catalog.profiles[p := row])))
  {
  }

  /** A listing row is stored, with a capacity bound to match. */
  lemma ListingEdits(s: State, l: ListingId, row: ListingRow, peak: map<ListingId, nat>)
    requires PeakOk(s) && (l in s.db.catalog.listings ==> s.db.catalog.listings[l].owner == row.owner)
    requires peak == s.peak || peak == s.peak[l := Max(PeakOf(s, l), Capacity(row.availability))]
    requires Capacity(row.availability) <= PeakOf(s.(peak := peak), l)
    ensures CatalogEdit(s, SetCatalog(s, s.db.catalog.(listings := s.db.catalog.listings[l := row])).(peak := peak))
  {
    var s' := SetCatalog(s, s.db.catalog.(listings := s.db.catalog.listings[l := row])).(peak := peak);
    forall k: ListingId ensures PeakOf(s, k) <= PeakOf(s', k) {
      if k != l { assert k in peak <==> k in s.peak; }
    }
    forall k <- s'.db.catalog.listings ensures Capacity(s'.db.catalog.listings[k].availability) <= PeakOf(s', k) {
      if k != l { assert Capacity(s.db.catalog.listings[k].availability) <= PeakOf(s, k); }
    }
  }

  lemma PutListingEdits(cfg: Config, s: State, e: Event)
    requires PeakOk(s) && e.PutListing?
    ensures CatalogEdit(s, Step(cfg, s, e))
  {
    var c := s.db.catalog;
    if e.l !in c.listings || c.listings[e.l].owner == e.listing.owner {
      ListingEdits(s, e.l,
          e.listing.(availability := if e.l in c.listings then c.listings[e.l].availability else NO_SCHEDULE), s.peak);
    }
  }

  lemma SetAvailabilityEdits(cfg: Config, s: State, e: Event)
    requires PeakOk(s) && e.SetAvailability?
    ensures CatalogEdit(s, Step(cfg, s, e))
  {
    var c := s.db.catalog;
    if ValidAvailability(e.av) && c.VisibleListing(e.l).Some? {
      var row, peak := c.listings[e.l].(availability := e.av), s.peak[e.l := Max(PeakOf(s, e.l), Capacity(e.av))];
      ListingEdits(s, e.l, row, peak);
      assert Step(cfg, s, e) == SetCatalog(s, c.(listings := c.listings[e.l := row])).(peak := peak);
    } else {
      assert Step(cfg, s, e) == s;
    }
  }

  lemma SetUserEdits(cfg: Config, s: State, e: Event)
    requires PeakOk(s) && (e.SetBlock? || e.Suspend?)
    ensures CatalogEdit(s, Step(cfg, s, e))
  {
  }

  lemma CatalogKeepsInv(cfg: Config, s: State, s': State)
    requires Inv(cfg, s) && CatalogEdit(s, s')
    ensures Inv(cfg, s')
  {
    forall l: ListingId, x: int ensures Occupancy(s'.db.viewings, l, x) <= PeakOf(s', l) {
      assert Occupancy(s.db.viewings, l, x) <= PeakOf(s, l);
    }
    EventKeepsInv(cfg, s, s');
  }

  /** A match row changes its status or is deleted. */
  ghost predicate MatchRowStep(db: Db, m: MatchId, row: MatchRow) {
    && m in db.ledger.matches
    && row.(status := db.ledger.matches[m].status, deleted := db.ledger.matches[m].deleted) == db.ledger.matches[m]
    && (db.ledger.matches[m].deleted ==> row.deleted) && MatchStateOk(db.catalog, row)
  }

  lemma MatchRowPairKept(db: Db, m: MatchId, row: MatchRow, p: Pair)
    requires MatchRowStep(db, m, row)
    ensures PairKept(db.ledger, db.ledger.(matches := db.ledger.matches[m := row]), p)
  {
    var g, g' := db.ledger, db.ledger.(matches := db.ledger.matches[m := row]);
    if g.HasMatch(p) {
      var n :| n in g.matches && g.matches[n].pair == p;
      assert g'.matches[n].pair == p;
    }
  }

  lemma MatchRowTables(s: State, s': State, m: MatchId, row: MatchRow)
    requires TablesOk(s) && MatchRowStep(s.db, m, row)
    requires s'.db == s.db.(ledger := s.db.ledger.(matches := s.db.ledger.matches[m := row])) && s'.peak == s.peak
    ensures TablesOk(s')
  {
    var g, g' := s.db.ledger, s'.db.ledger;
    forall p: Pair ensures g'.BothInterested(p) ==> g'.HasMatch(p) { MatchRowPairKept(s.db, m, row, p); }
    forall n <- g'.matches ensures !g'.matches[n].deleted ==> g'.BothInterested(g'.matches[n].pair) {
      assert !g.matches[n].deleted ==> g.BothInterested(g.matches[n].pair);
    }
    forall w <- s'.db.viewings ensures SameParties(g', s'.db.viewings[w]) {
      assert SameParties(g, s.db.viewings[w]);
    }
    forall l: ListingId, x: int ensures Occupancy(s'.db.viewings, l, x) <= PeakOf(s', l) {
      assert Occupancy(s.db.viewings, l, x) <= PeakOf(s, l);
    }
  }

  lemma MatchRowRely(cfg: Config, s: State, m: MatchId, row: MatchRow, u: TxId)
    requires MatchRowStep(s.db, m, row)
    ensures DbRely(cfg, s, SetMatch(s, m, row).db, u)
  {
    forall p: Pair
      ensures PairKept(s.db.ledger, SetMatch(s, m, row).db.ledger, p)
    {
      MatchRowPairKept(s.db, m, row, p);
    }
  }

  lemma MatchRowKeepsInv(cfg: Config, s: State, m: MatchId, row: MatchRow)
    requires Inv(cfg, s) && MatchRowStep(s.db, m, row)
    ensures Inv(cfg, SetMatch(s, m, row))
  {
    var s' := SetMatch(s, m, row);
    MatchRowTables(s, s', m, row);
    forall u <- s.txs ensures DbRely(cfg, s, s'.db, u) { MatchRowRely(cfg, s, m, row, u); }
    EventKeepsInv(cfg, s, s');
  }

  lemma MatchEventKeepsInv(cfg: Config, s: State, e: Event)
    requires Inv(cfg, s) && e.OnMatch() && Step(cfg, s, e) != s
    ensures Inv(cfg, Step(cfg, s, e))
  {
    assert MatchStateOk(s.db.catalog, s.db.ledger.matches[e.m]);
    if e.RentMatch? {
      RentMatchSteps(cfg, s, e);
      MatchRowKeepsInv(cfg, s, e.m, EndedRow(s, e));
    } else {
      PurgeMatchSteps(cfg, s, e);
      var s1 := SetCatalog(s, s.db.catalog.(gone := s.db.catalog.gone + {e.u}));
      CatalogKeepsInv(cfg, s, s1);
      MatchRowKeepsInv(cfg, s1, e.m, EndedRow(s, e));
    }
  }

  lemma ViewingEventKeepsInv(cfg: Config, s: State, e: Event)
    requires Inv(cfg, s) && e.OnViewing() && Step(cfg, s, e) != s
    ensures Inv(cfg, Step(cfg, s, e))
  {
    ViewingEventSteps(cfg, s, e);
    LooseKeepsInv(cfg, s, e.v, EndedViewing(s, e));
  }

  lemma OtherKeepsInv(cfg: Config, s: State, e: Event)
    requires Inv(cfg, s) && !e.Begin? && !e.Run? && !e.Crash?
    ensures Inv(cfg, Step(cfg, s, e))
  {
    if Step(cfg, s, e) != s {
      if e.OnMatch() {
        MatchEventKeepsInv(cfg, s, e);
      } else if e.OnViewing() {
        ViewingEventKeepsInv(cfg, s, e);
      } else {
        if e.PutProfile? { PutProfileEdits(cfg, s, e); }
        else if e.PutListing? { PutListingEdits(cfg, s, e); }
        else if e.SetAvailability? { SetAvailabilityEdits(cfg, s, e); }
        else { SetUserEdits(cfg, s, e); }
        CatalogKeepsInv(cfg, s, Step(cfg, s, e));
      }
    }
  }

  lemma StepKeepsInv(cfg: Config, s: State, e: Event)
    requires cfg.serialize && Inv(cfg, s)
    ensures Inv(cfg, Step(cfg, s, e))
  {
    if e.Begin? { BeginKeepsInv(cfg, s, e.t, e.req); }
    else if e.Run? { if e.t in s.txs { RunKeepsInv(cfg, s, e.t, e.now); } }
    else if e.Crash? { if e.t in s.txs && s.txs[e.t].Live() { ReleaseKeepsInv(cfg, s, e.t, Crashed); } }
    else { OtherKeepsInv(cfg, s, e); }
  }

  /** The invariant holds in every state of every schedule, for every hash. */
  lemma {:induction false} Invariant(cfg: Config, s: State, es: seq<Event>)
    requires cfg.serialize && Initial(s)
    ensures Inv(cfg, Execute(cfg, s, es))
  {
    if es != [] {
      Invariant(cfg, s, es[..|es| - 1]);
      StepKeepsInv(cfg, Execute(cfg, s, es[..|es| - 1]), es[|es| - 1]);
    }
  }
}
