/** What every request, run alone, keeps: the invariant of the stored tables. */
module Upkeep {
  import opened Schema
  import H = Handlers
  import L = Lifecycle
  import P = ProtocolInvariant
  import S = ProtocolSafety

  ghost predicate Healthy(db: Db) {
    L.Ok(db) && P.LedgerOk(db.ledger) && P.OneViewingPerMatch(db.viewings)
  }

  lemma NoDataIsHealthy()
    ensures Healthy(NO_DATA)
  {
  }

  lemma ExpressHealthy(db: Db, actor: UserId, pair: Pair, role: Role, id: MatchId)
    requires Healthy(db) && id !in db.ledger.matches
    ensures Healthy(H.Express(db, actor, pair, role, id).0)
  {
    L.ExpressGood(db, actor, pair, role, id);
    ExpressLedger(db.ledger, H.SeeForExpress(db.catalog, pair), actor, pair, role, id);
  }

  lemma ExpressLedger(g: Ledger, seen: H.Seen, actor: UserId, pair: Pair, role: Role, id: MatchId)
    requires P.LedgerOk(g) && id !in g.matches
    ensures P.LedgerOk(H.ExpressLedger(g, seen, actor, pair, role, id).0)
  {
    if H.ExpressRefusal(seen, actor, role).None? {
      var k := InterestKey(pair, role);
      S.PutInterestKeeps(g, k, Wanted, pair);
      if g.Interested(pair, role.Other()) && !g.HasMatch(pair) {
        S.MatchedLedgerOk(g, k, id, H.NewMatch(seen, pair));
      } else {
        S.WantedLedgerOk(g, k);
      }
    }
  }

  lemma WithdrawHealthy(db: Db, actor: UserId, pair: Pair, role: Role)
    requires Healthy(db)
    ensures Healthy(H.Withdraw(db, actor, pair, role).0)
  {
    L.WithdrawGood(db, actor, pair, role);
    if !db.ledger.HasLiveMatch(pair) {
      S.WithdrawnLedgerOk(db.ledger, InterestKey(pair, role));
    }
  }

  lemma BookHealthy(db: Db, actor: UserId, m: MatchId, start: int, now: int, id: ViewingId)
    requires Healthy(db) && id !in db.viewings
    ensures Healthy(H.Book(db, actor, m, start, now, id).0)
  {
    L.BookGood(db, actor, m, start, now, id);
    BookOnePerMatch(db, actor, m, start, now, id);
  }

  lemma BookOnePerMatch(db: Db, actor: UserId, m: MatchId, start: int, now: int, id: ViewingId)
    requires P.OneViewingPerMatch(db.viewings) && id !in db.viewings
    ensures P.OneViewingPerMatch(H.Book(db, actor, m, start, now, id).0.viewings)
  {
  }

  /** A viewing may move, or end; it may not come to occupy room. */
  lemma SetViewingOnePerMatch(viewings: Viewings, v: ViewingId, row: ViewingRow)
    requires P.OneViewingPerMatch(viewings) && v in viewings
    requires row.matchId == viewings[v].matchId && (row.Occupies() ==> viewings[v].Occupies())
    ensures P.OneViewingPerMatch(viewings[v := row])
  {
  }

  lemma RescheduleHealthy(db: Db, actor: UserId, v: ViewingId, start: int, now: int)
    requires Healthy(db)
    ensures Healthy(H.Reschedule(db, actor, v, start, now).0)
  {
    L.RescheduleGood(db, actor, v, start, now);
    var d := H.Reschedule(db, actor, v, start, now).0;
    if d != db { SetViewingOnePerMatch(db.viewings, v, d.viewings[v]); }
  }

  lemma CancelHealthy(db: Db, actor: UserId, v: ViewingId)
    requires Healthy(db)
    ensures Healthy(H.Cancel(db, actor, v).0)
  {
    var d := H.Cancel(db, actor, v).0;
    if d != db {
      L.ViewingGood(db, v, d.viewings[v]);
      SetViewingOnePerMatch(db.viewings, v, d.viewings[v]);
    }
  }

  lemma AttendHealthy(db: Db, actor: UserId, v: ViewingId)
    requires Healthy(db)
    ensures Healthy(H.Attend(db, actor, v).0)
  {
    var d := H.Attend(db, actor, v).0;
    if d != db {
      L.ViewingGood(db, v, d.viewings[v]);
      SetViewingOnePerMatch(db.viewings, v, d.viewings[v]);
    }
  }

  lemma SetStatusHealthy(db: Db, actor: UserId, l: ListingId, status: ListingStatus, publishable: bool)
    requires Healthy(db)
    ensures Healthy(H.SetListingStatus(db, actor, l, status, publishable).0)
  {
    L.SetStatusGood(db, actor, l, status, publishable);
    RentLedger(db.ledger, l);
    RentOnePerMatch(db.viewings, l);
  }

  lemma RentLedger(g: Ledger, l: ListingId)
    requires P.LedgerOk(g)
    ensures P.LedgerOk(g.(matches := H.RentMatches(g.matches, l)))
  {
    SamePairsLedger(g, g.(matches := H.RentMatches(g.matches, l)));
  }

  /** Rows that keep their pair and are not undeleted leave the ledger in order. */
  lemma SamePairsLedger(g: Ledger, d: Ledger)
    requires P.LedgerOk(g) && d.interests == g.interests && d.matches.Keys == g.matches.Keys
    requires forall m <- g.matches :: d.matches[m].pair == g.matches[m].pair && (g.matches[m].deleted ==>
          d.matches[m].deleted)
    ensures P.LedgerOk(d)
  {
    forall p: Pair | d.BothInterested(p) ensures d.HasMatch(p) {
      assert g.BothInterested(p) && g.HasMatch(p);
      var m :| m in g.matches && g.matches[m].pair == p;
      assert d.matches[m].pair == p;
    }
    forall m <- d.matches | !d.matches[m].deleted ensures d.BothInterested(d.matches[m].pair) {
      assert g.BothInterested(g.matches[m].pair);
    }
  }

  lemma RentOnePerMatch(viewings: Viewings, l: ListingId)
    requires P.OneViewingPerMatch(viewings)
    ensures P.OneViewingPerMatch(H.CancelForListing(viewings, l))
  {
  }

  /** A live match of two other users whose profile has the deleted user's own id. */
  ghost predicate Struck(db: Db, u: UserId, m: MatchId) {
    && m in db.ledger.matches && !db.ledger.matches[m].deleted && !db.ledger.matches[m].Names(u)
    && db.ledger.matches[m].pair.profile == u
  }

  lemma ForgetOnePerMatch(viewings: Viewings, d: Viewings, u: UserId)
    requires P.OneViewingPerMatch(viewings) && H.ViewingsForget(viewings, d, u)
    ensures P.OneViewingPerMatch(d)
  {
  }

  lemma ForgetLedgerIff(db: Db, d: Ledger, u: UserId)
    requires P.LedgerOk(db.ledger) && H.MatchesForget(db.ledger, d, u)
    ensures P.LedgerOk(d) <==> forall m <- db.ledger.matches :: !Struck(db, u, m)
  {
    if m :| m in db.ledger.matches && Struck(db, u, m) {
      StruckBreaksLedger(db, d, u, m);
    } else {
      StrikesNoneLedger(db.ledger, d, u);
    }
  }

  /** Deleting an account keeps the tables in order exactly if it strikes no match of others. */
  lemma DeleteAccountHealthyIff(db: Db, u: UserId)
    requires Healthy(db)
    ensures Healthy(H.DeleteAccount(db, u)) <==> forall m <- db.ledger.matches :: !Struck(db, u, m)
  {
    var d := H.DeleteAccount(db, u);
    L.DeleteAccountGood(db, u);
    H.DeleteAccountMeans(db, u);
    ForgetLedgerIff(db, d.ledger, u);
    ForgetOnePerMatch(db.viewings, d.viewings, u);
  }

  lemma StruckBreaksLedger(db: Db, d: Ledger, u: UserId, m: MatchId)
    requires Struck(db, u, m) && H.MatchesForget(db.ledger, d, u)
    ensures !P.MatchesAreMutual(d)
  {
    assert !d.matches[m].deleted && !d.BothInterested(d.matches[m].pair);
  }

  lemma StrikesNoneLedger(g: Ledger, d: Ledger, u: UserId)
    requires P.LedgerOk(g) && H.MatchesForget(g, d, u)
    requires forall m <- g.matches :: !g.matches[m].deleted && !g.matches[m].Names(u) ==> g.matches[m].pair.profile != u
    ensures P.LedgerOk(d)
  {
    forall p: Pair | d.BothInterested(p) ensures d.HasMatch(p) {
      assert g.BothInterested(p) && g.HasMatch(p);
      var m :| m in g.matches && g.matches[m].pair == p;
      assert d.matches[m].pair == p;
    }
    forall m <- d.matches | !d.matches[m].deleted ensures d.BothInterested(d.matches[m].pair) {
      assert g.BothInterested(g.matches[m].pair);
    }
  }

  lemma BlocksHealthy(db: Db, d: Db)
    requires Healthy(db) && d == db.(catalog := db.catalog.(blocks := d.catalog.blocks))
    ensures Healthy(d)
  {
    L.BlocksGood(db, d);
  }

  // ---- any sequence of requests ------------------------------------------------------------

  /** Interests and matches are of profiles and listings that are there. */
  ghost predicate KeysKnown(db: Db) {
    && (forall k <- db.ledger.interests :: k.pair.profile in db.catalog.profiles
          && k.pair.listing in db.catalog.listings)
    && (forall m <- db.ledger.matches :: db.ledger.matches[m].pair.profile in db.catalog.profiles)
  }

  /** Rows stay where they are, but for a profile that the request makes. */
  ghost predicate KeysFollow(db: Db, d: Db, call: L.Call) {
    && (KeysKnown(db) ==> KeysKnown(d))
    && (forall p <- d.catalog.profiles :: p in db.catalog.profiles || (call.NewProfile? && p == call.p))
  }

  predicate OnTables(call: L.Call) {
    call.Express? || call.Withdraw? || call.Book? || call.Reschedule? || call.Cancel? || call.Attend? || call.SetStatus?
  }

  lemma ExpressKeepsKeys(db: Db, actor: UserId, call: L.Call)
    requires call.Express? || call.Withdraw?
    ensures KeysFollow(db, L.Serve(db, actor, call).0, call)
  {
  }

  lemma TablesKeepKeys(db: Db, actor: UserId, call: L.Call)
    requires OnTables(call) && !call.Express? && !call.Withdraw?
    ensures KeysFollow(db, L.Serve(db, actor, call).0, call)
  {
  }

  lemma CatalogKeepsKeys(db: Db, actor: UserId, call: L.Call)
    requires !OnTables(call) && !call.DeleteAccount?
    ensures KeysFollow(db, L.Serve(db, actor, call).0, call)
  {
    CatalogCallsKeep(db, actor, call);
  }

  lemma DeletionKeepsKeys(db: Db, u: UserId)
    ensures KeysFollow(db, H.DeleteAccount(db, u), L.DeleteAccount)
  {
    H.DeleteAccountMeans(db, u);
  }

  lemma ServeKeepsKeys(db: Db, actor: UserId, call: L.Call)
    ensures KeysFollow(db, L.Serve(db, actor, call).0, call)
  {
    if call.DeleteAccount? { DeletionKeepsKeys(db, actor); }
    else if call.Express? || call.Withdraw? { ExpressKeepsKeys(db, actor, call); }
    else if OnTables(call) { TablesKeepKeys(db, actor, call); }
    else { CatalogKeepsKeys(db, actor, call); }
  }

  lemma LedgerCallsHealthy(db: Db, actor: UserId, call: L.Call)
    requires Healthy(db) && actor !in db.catalog.gone
    requires OnTables(call)
    ensures Healthy(L.Serve(db, actor, call).0)
  {
    match call
    case Express(pair, role, id) => if id !in db.ledger.matches { ExpressHealthy(db, actor, pair, role, id); }
    case Withdraw(pair, role) => WithdrawHealthy(db, actor, pair, role);
    case Book(m, start, now, id) => if id !in db.viewings { BookHealthy(db, actor, m, start, now, id); }
    case Reschedule(v, start, now) => RescheduleHealthy(db, actor, v, start, now);
    case Cancel(v) => CancelHealthy(db, actor, v);
    case Attend(v) => AttendHealthy(db, actor, v);
    case SetStatus(l, status, publishable) => SetStatusHealthy(db, actor, l, status, publishable);
  }

  lemma ServeHealthy(db: Db, actor: UserId, call: L.Call)
    requires Healthy(db) && KeysKnown(db) && actor !in db.catalog.profiles
    ensures Healthy(L.Serve(db, actor, call).0)
  {
    if actor !in db.catalog.gone {
      if call.DeleteAccount? {
        DeleteAccountHealthyIff(db, actor);
      } else if OnTables(call) {
        LedgerCallsHealthy(db, actor, call);
      } else {
        L.ServeGood(db, actor, call);
        CatalogCallsKeep(db, actor, call);
      }
    }
  }

  lemma CatalogCallsKeep(db: Db, actor: UserId, call: L.Call)
    requires !OnTables(call) && !call.DeleteAccount?
    ensures L.Serve(db, actor, call).0.ledger == db.ledger && L.Serve(db, actor, call).0.viewings == db.viewings
  {
  }

  /** No user who acts has the id of a profile. */
  ghost predicate Apart(db: Db, calls: seq<(UserId, L.Call)>) {
    forall a <- calls :: a.0 !in db.catalog.profiles && !MakesProfile(calls, a.0)
  }

  ghost predicate MakesProfile(calls: seq<(UserId, L.Call)>, p: ProfileId) {
    exists b <- calls :: b.1.NewProfile? && b.1.p == p
  }

  lemma {:induction false} RunProfiles(db: Db, calls: seq<(UserId, L.Call)>)
    requires KeysKnown(db)
    ensures KeysKnown(L.Run(db, calls))
    ensures forall p <- L.Run(db, calls).catalog.profiles :: p in db.catalog.profiles || MakesProfile(calls, p)
  {
    if calls != [] {
      var before, last := calls[..|calls| - 1], calls[|calls| - 1];
      RunProfiles(db, before);
      ServeKeepsKeys(L.Run(db, before), last.0, last.1);
      forall p <- L.Run(db, calls).catalog.profiles ensures p in db.catalog.profiles || MakesProfile(calls, p) {
        if p in L.Run(db, before).catalog.profiles {
          if MakesProfile(before, p) { assert MakesProfile(calls, p); }
        } else {
          assert last in calls;
        }
      }
    }
  }

  /** Every sequence of requests keeps the tables in order, ids of users and profiles being apart. */
  lemma {:induction false} RunHealthy(db: Db, calls: seq<(UserId, L.Call)>)
    requires Healthy(db) && KeysKnown(db) && Apart(db, calls)
    ensures Healthy(L.Run(db, calls))
  {
    if calls != [] {
      var before, last := calls[..|calls| - 1], calls[|calls| - 1];
      assert forall p :: MakesProfile(before, p) ==> MakesProfile(calls, p);
      RunHealthy(db, before);
      RunProfiles(db, before);
      assert last in calls;
      ServeHealthy(L.Run(db, before), last.0, last.1);
    }
  }
}
