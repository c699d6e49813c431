/**
 Deletion of a user by an administrator.  Its comment calls it the same as a user's own deletion; it
 differs in two statements, and it takes no pair lock.
 */
module Admin {
  import opened Base
  import opened Schema
  import H = Handlers
  import L = Lifecycle
  import U = Upkeep
  import V = Views
  import opened Protocol
  import opened ProtocolInvariant
  import opened ProtocolSafety

  /** Interests go by the owner of their profile; viewings are not among the statements. */
  function AdminDelete(db: Db, u: UserId): Db {
    var c := H.DropOwned(db.catalog, u);
    Db(c.(blocks := (set b <- c.blocks | b.0 != u && b.1 != u), gone := c.gone + {u}),
       Ledger((map k | k in db.ledger.interests && !OwnProfile(db.catalog, u, k) :: db.ledger.interests[k]),
              H.DropMatches(H.DropMatches(db.ledger.matches, u, true), u, false)),
       db.viewings)
  }

  predicate OwnProfile(c: Catalog, u: UserId, k: InterestKey) {
    k.pair.profile in c.profiles && c.profiles[k.pair.profile].owner == u
  }

  /** Row by row as a user's own deletion, but interests go by their profile's owner, and viewings stay. */
  lemma AdminDeleteMeans(db: Db, u: UserId)
    ensures var d := AdminDelete(db, u);
      && H.CatalogForgets(db.catalog, d.catalog, u) && d.viewings == db.viewings
      && d.ledger.matches == H.DeleteAccount(db, u).ledger.matches
      && (forall k <- d.ledger.interests ::
            k in db.ledger.interests && d.ledger.interests[k] == db.ledger.interests[k])
      && (forall k <- db.ledger.interests ::
            k !in d.ledger.interests <==>
              exists p <- db.catalog.profiles :: p == k.pair.profile && db.catalog.profiles[p].owner == u)
  {
    H.DeleteAccountMeans(db, u);
    assert forall k <- db.ledger.interests :: OwnProfile(db.catalog, u, k) <==>
        exists p <- db.catalog.profiles :: p == k.pair.profile && db.catalog.profiles[p].owner == u;
  }

  /** Run alone it keeps the ledger in order: the interests it takes away are those of matches it deletes. */
  lemma AdminKeepsLedger(db: Db, u: UserId)
    requires LedgerOk(db.ledger) && MatchPartiesOk(db)
    ensures LedgerOk(AdminDelete(db, u).ledger)
  {
    var g, d := db.ledger, AdminDelete(db, u).ledger;
    forall p: Pair | d.BothInterested(p) ensures d.HasMatch(p) {
      assert g.BothInterested(p) && g.HasMatch(p);
      var m :| m in g.matches && g.matches[m].pair == p;
      assert d.matches[m].pair == p;
    }
    forall m <- d.matches | !d.matches[m].deleted ensures d.BothInterested(d.matches[m].pair) {
      assert g.BothInterested(g.matches[m].pair) && g.matches[m].tenant != u;
    }
  }

  /** The lifecycle invariant survives exactly if no viewing that is not deleted names the user. */
  lemma AdminKeepsLifecycleIff(db: Db, u: UserId)
    requires L.Ok(db)
    ensures L.Ok(AdminDelete(db, u)) <==> forall v <- db.viewings :: !db.viewings[v].deleted ==>
          !db.viewings[v].Names(u)
  {
    var d := AdminDelete(db, u);
    AdminKeepsParties(db, u);
    if forall v <- db.viewings :: !db.viewings[v].deleted ==> !db.viewings[v].Names(u) {
      AdminKeepsLife(db, u);
    } else {
      var v :| v in db.viewings && !db.viewings[v].deleted && db.viewings[v].Names(u);
      assert v in d.viewings && u in d.catalog.gone;
    }
  }

  lemma AdminKeepsParties(db: Db, u: UserId)
    requires MatchPartiesOk(db) && ViewingPartiesOk(db)
    ensures MatchPartiesOk(AdminDelete(db, u)) && ViewingPartiesOk(AdminDelete(db, u))
  {
    var d := AdminDelete(db, u);
    forall m <- d.ledger.matches
      ensures OwnedBy(d.catalog, d.ledger.matches[m].pair, d.ledger.matches[m].tenant, d.ledger.matches[m].landlord)
    {
      assert OwnedBy(db.catalog, db.ledger.matches[m].pair, db.ledger.matches[m].tenant, db.ledger.matches[m].landlord);
    }
    forall v <- d.viewings ensures SameParties(d.ledger, d.viewings[v]) {
      assert SameParties(db.ledger, db.viewings[v]);
    }
  }

  lemma AdminKeepsLife(db: Db, u: UserId)
    requires L.Ok(db) && forall v <- db.viewings :: !db.viewings[v].deleted ==> !db.viewings[v].Names(u)
    ensures var d := AdminDelete(db, u); L.ConfirmedHaveMatch(d) && L.RentedHaveNone(d) && L.GoneOwnNothing(d)
  {
    var d := AdminDelete(db, u);
    forall v <- d.viewings | !d.viewings[v].deleted && d.viewings[v].status == Confirmed
      ensures L.LiveActive(d.ledger, d.viewings[v].matchId)
    {
      assert SameParties(db.ledger, db.viewings[v]) && L.LiveActive(db.ledger, db.viewings[v].matchId);
    }
    forall m <- d.ledger.matches | L.LiveActive(d.ledger, m)
      ensures var l := d.ledger.matches[m].pair.listing;
            l in d.catalog.listings && d.catalog.listings[l].status != Rented
    {
      assert L.LiveActive(db.ledger, m);
    }
  }

  /**
   The administrator's update of interests waits for the express, whose upsert holds the lock of a row it
   found there.
   */
  predicate WaitsFor(s: State, t: TxId, u: UserId)
    requires t in s.txs && s.txs[t].req.Express?
  {
    var k := InterestKey(s.txs[t].req.pair, s.txs[t].req.role);
    k in s.db.ledger.interests && OwnProfile(s.db.catalog, u, k)
  }

  /**
   The tables after both.  The deletion runs its statements while the express is about to commit; if one waits,
   it and those after it run once the express has committed.
   */
  function AmidExpress(s: State, t: TxId, u: UserId): Db
    requires t in s.txs && s.txs[t].req.Express?
  {
    if WaitsFor(s, t, u) then AdminDelete(StepEnd(s, t).db, u) else StepEnd(s.(db := AdminDelete(s.db, u)), t).db
  }

  /** A match that is not deleted, and the interest of some side is not there. */
  ghost predicate HalfMatch(g: Ledger, pair: Pair) { g.HasLiveMatch(pair) && !g.BothInterested(pair) }

  /**
   An administrator deletes a user while an express that found its counterpart is about to commit its match.
   A match without both interests is left exactly if the user owns the pair's profile and the acting side has
   no interest row yet.
   */
  lemma AdminAmidExpressIff(cfg: Config, s: State, t: TxId, u: UserId)
    requires Inv(cfg, s) && t in s.txs && s.txs[t].req.Express? && s.txs[t].pc.Commit? && s.txs[t].pc.answer.Matched?
    requires !s.db.ledger.HasMatch(s.txs[t].req.pair)
    ensures var d, pair, k := AmidExpress(s, t, u), s.txs[t].req.pair,
          InterestKey(s.txs[t].req.pair, s.txs[t].req.role);
      HalfMatch(d.ledger, pair) <==> OwnProfile(s.db.catalog, u, k) && k !in s.db.ledger.interests
  {
    if WaitsFor(s, t, u) { DeletedAfter(cfg, s, t, u); } else { DeletedBefore(cfg, s, t, u); }
  }

  /** The match that `t` is about to write. */
  function NewRow(s: State, t: TxId): MatchRow
    requires t in s.txs && s.txs[t].req.Express? && s.txs[t].seen.profile.Some? && s.txs[t].seen.listing.Some?
  {
    H.NewMatch(s.txs[t].seen, s.txs[t].req.pair)
  }

  /** What the commit of `t` makes of tables on which it may still commit. */
  lemma MatchCommitIs(cfg: Config, s: State, t: TxId, db: Db)
    requires Inv(cfg, s) && t in s.txs && s.txs[t].req.Express? && s.txs[t].pc.Commit? && s.txs[t].pc.answer.Matched?
    requires !s.db.ledger.HasMatch(s.txs[t].req.pair)
    ensures s.txs[t].seen.profile.Some? && s.txs[t].seen.listing.Some?
    ensures var k := InterestKey(s.txs[t].req.pair, s.txs[t].req.role);
      StepEnd(s.(db := db), t).db == db.(ledger := Ledger(db.ledger.interests[k := Wanted],
          db.ledger.matches[t := NewRow(s, t)]))
  {
    assert TxOk(cfg, s, t, s.txs[t]);
    ApplyTwo(db, PutInterest(InterestKey(s.txs[t].req.pair, s.txs[t].req.role), Wanted), InsertMatch(t, NewRow(s, t)));
  }

  /** The deletion comes after: it takes the new match with it. */
  lemma DeletedAfter(cfg: Config, s: State, t: TxId, u: UserId)
    requires Inv(cfg, s) && t in s.txs && s.txs[t].req.Express? && s.txs[t].pc.Commit? && s.txs[t].pc.answer.Matched?
    requires !s.db.ledger.HasMatch(s.txs[t].req.pair) && WaitsFor(s, t, u)
    ensures !AmidExpress(s, t, u).ledger.HasLiveMatch(s.txs[t].req.pair)
  {
    MatchCommitIs(cfg, s, t, s.db);
    assert s.(db := s.db) == s;
    assert TxOk(cfg, s, t, s.txs[t]);
    var g, d := StepEnd(s, t).db.ledger, AmidExpress(s, t, u).ledger;
    forall m <- d.matches | d.matches[m].pair == s.txs[t].req.pair ensures d.matches[m].deleted {
      assert m == t && g.matches[t].tenant == u;
    }
  }

  lemma DeletedBefore(cfg: Config, s: State, t: TxId, u: UserId)
    requires Inv(cfg, s) && t in s.txs && s.txs[t].req.Express? && s.txs[t].pc.Commit? && s.txs[t].pc.answer.Matched?
    requires !s.db.ledger.HasMatch(s.txs[t].req.pair) && !WaitsFor(s, t, u)
    ensures var g, pair := AmidExpress(s, t, u).ledger, s.txs[t].req.pair;
      && g.HasLiveMatch(pair)
      && (!g.BothInterested(pair) <==> OwnProfile(s.db.catalog, u, InterestKey(pair, s.txs[t].req.role)))
  {
    MatchCommitIs(cfg, s, t, AdminDelete(s.db, u));
    assert TxOk(cfg, s, t, s.txs[t]);
    AmidLedger(s.db, u, InterestKey(s.txs[t].req.pair, s.txs[t].req.role), t, NewRow(s, t));
  }

  lemma ShownInHalf(db: Db, u: UserId, k: InterestKey, id: MatchId, row: MatchRow)
    requires row.status == Active && !row.deleted && row.tenant == u != row.landlord
          && !db.catalog.Blocked(u, row.landlord)
    ensures var d := AdminDelete(db, u);
      var d' := d.(ledger := Ledger(d.ledger.interests[k := Wanted], d.ledger.matches[id := row]));
      && id in V.MutualMatches(d', row.landlord) && d'.ledger.matches[id] == row
      && V.MutualContact(row, row.landlord) == u && u in d'.catalog.gone
  {
  }

  /** The landlord's list then shows the contact of the deleted user, for a match without both interests. */
  lemma HalfMatchShows(cfg: Config, s: State, t: TxId, u: UserId, landlord: UserId)
    requires Inv(cfg, s) && t in s.txs && s.txs[t].req.Express? && s.txs[t].pc.Commit? && s.txs[t].pc.answer.Matched?
    requires !s.db.ledger.HasMatch(s.txs[t].req.pair)
    requires OwnedBy(s.db.catalog, s.txs[t].req.pair, u, landlord) && u != landlord
          && !s.db.catalog.Blocked(u, landlord)
    requires InterestKey(s.txs[t].req.pair, s.txs[t].req.role) !in s.db.ledger.interests
    ensures var d := AmidExpress(s, t, u);
      && t in V.MutualMatches(d, landlord) && d.ledger.matches[t].pair == s.txs[t].req.pair
      && V.MutualContact(d.ledger.matches[t], landlord) == u && u in d.catalog.gone
      && !d.ledger.BothInterested(s.txs[t].req.pair)
  {
    DeletedBefore(cfg, s, t, u);
    MatchCommitIs(cfg, s, t, AdminDelete(s.db, u));
    assert NewRow(s, t).tenant == u && NewRow(s, t).landlord == landlord by { assert TxOk(cfg, s, t, s.txs[t]); }
    ShownInHalf(s.db, u, InterestKey(s.txs[t].req.pair, s.txs[t].req.role), t, NewRow(s, t));
  }

  lemma AmidLedger(db: Db, u: UserId, k: InterestKey, id: MatchId, row: MatchRow)
    requires db.ledger.Interested(k.pair, k.role.Other()) && row.pair == k.pair && !row.deleted
    ensures var d := AdminDelete(db, u).ledger;
      var g := d.(interests := d.interests[k := Wanted], matches := d.matches[id := row]);
      g.HasLiveMatch(k.pair) && (!g.BothInterested(k.pair) <==> OwnProfile(db.catalog, u, k))
  {
    var d := AdminDelete(db, u).ledger;
    var g := d.(interests := d.interests[k := Wanted], matches := d.matches[id := row]);
    assert g.matches[id].pair == k.pair && !g.matches[id].deleted;
    var other := InterestKey(k.pair, k.role.Other());
    assert other in db.ledger.interests && (other in d.interests <==> !OwnProfile(db.catalog, u, k));
    assert g.Interested(k.pair, k.role) && k.role.Other().Other() == k.role;
  }

  // ---- what was dropped stays out -----------------------------------------------------------

  /** The profile is deleted and the interest is not there. */
  predicate Out(db: Db, k: InterestKey) {
    && k.pair.profile in db.catalog.profiles && db.catalog.profiles[k.pair.profile].deleted
    && k !in db.ledger.interests
  }

  lemma TableCallKeepsOut(db: Db, actor: UserId, call: L.Call, k: InterestKey)
    requires Out(db, k) && U.OnTables(call)
    ensures Out(L.Serve(db, actor, call).0, k)
  {
    if call.Express? && call.pair == k.pair {
      assert H.ExpressRefusal(H.SeeForExpress(db.catalog, k.pair), actor, call.role) == Some(H.NotFound);
    }
  }

  lemma CatalogCallKeepsOut(db: Db, actor: UserId, call: L.Call, k: InterestKey)
    requires Out(db, k) && !U.OnTables(call) && !call.DeleteAccount?
    ensures Out(L.Serve(db, actor, call).0, k)
  {
    U.CatalogCallsKeep(db, actor, call);
  }

  lemma ServeKeepsOut(db: Db, actor: UserId, call: L.Call, k: InterestKey)
    requires Out(db, k)
    ensures Out(L.Serve(db, actor, call).0, k)
  {
    if call.DeleteAccount? { H.DeleteAccountMeans(db, actor); }
    else if U.OnTables(call) { TableCallKeepsOut(db, actor, call, k); }
    else { CatalogCallKeepsOut(db, actor, call, k); }
  }

  lemma {:induction false} RunKeepsOut(db: Db, calls: seq<(UserId, L.Call)>, k: InterestKey)
    requires Out(db, k)
    ensures Out(L.Run(db, calls), k)
  {
    if calls != [] {
      var last := calls[|calls| - 1];
      RunKeepsOut(db, calls[..|calls| - 1], k);
      ServeKeepsOut(L.Run(db, calls[..|calls| - 1]), last.0, last.1, k);
    }
  }

  /**
   No later request brings back an interest that went with the deleted user's profile: the upsert, which would
   leave the row deleted, is never reached.
   */
  lemma DroppedStayOut(db: Db, u: UserId, calls: seq<(UserId, L.Call)>, k: InterestKey)
    requires OwnProfile(db.catalog, u, k)
    ensures k !in L.Run(AdminDelete(db, u), calls).ledger.interests
  {
    RunKeepsOut(AdminDelete(db, u), calls, k);
  }
}
