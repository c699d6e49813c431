/** Account deletions among the other requests: how a deleted user can be named again, and a run for it. */
module Deleting {
  import opened Base
  import opened Schema
  import H = Handlers
  import opened Protocol
  import opened ProtocolInvariant
  import opened ProtocolSafety
  import opened Runs
  import Scheduling
  import Renting

  /** No live match or viewing names a user whose account is deleted. */
  ghost predicate NoneNamed(db: Db) {
    && (forall k <- db.ledger.matches :: !db.ledger.matches[k].deleted ==>
          !PartyGone(db.catalog, db.ledger.matches[k].tenant, db.ledger.matches[k].landlord))
    && (forall v <- db.viewings :: !db.viewings[v].deleted ==>
          !PartyGone(db.catalog, db.viewings[v].tenant, db.viewings[v].landlord))
  }

  predicate PartyGone(c: Catalog, tenant: UserId, landlord: UserId) { tenant in c.gone || landlord in c.gone }

  /** The commit of a match one of whose owners was deleted after the express had read the rows. */
  predicate LateMatch(s: State, e: Event) {
    && CommitsMatch(s, e)
    && var c, pair := s.db.catalog, s.txs[e.t].req.pair;
    && pair.profile in c.profiles && pair.listing in c.listings
    && PartyGone(c, c.profiles[pair.profile].owner, c.listings[pair.listing].owner)
  }

  /** The commit of a booking one of whose parties was deleted after the match had been read. */
  predicate LateViewing(s: State, e: Event) {
    && e.Run? && e.t in s.txs && s.txs[e.t].req.Book? && s.txs[e.t].pc.Commit?
    && var g, k := s.db.ledger, s.txs[e.t].req.matchId;
    && k in g.matches && PartyGone(s.db.catalog, g.matches[k].tenant, g.matches[k].landlord)
  }

  /** A deletion has come to one match of the user and not yet to all the rest. */
  predicate LeavesOthers(s: State, e: Event) {
    && e.PurgeMatch? && e.m in s.db.ledger.matches && s.db.ledger.matches[e.m].Names(e.u)
    && ((exists k <- s.db.ledger.matches ::
           k != e.m && !s.db.ledger.matches[k].deleted && s.db.ledger.matches[k].Names(e.u))
        || (exists v <- s.db.viewings :: !s.db.viewings[v].deleted && s.db.viewings[v].Names(e.u)))
  }

  /** The live rows are some of the old ones, with their parties. */
  ghost predicate NoNewNames(db: Db, d: Db) {
    && d.catalog.gone == db.catalog.gone
    && (forall k <- d.ledger.matches :: !d.ledger.matches[k].deleted ==>
          k in db.ledger.matches && !db.ledger.matches[k].deleted
          && d.ledger.matches[k].tenant == db.ledger.matches[k].tenant
          && d.ledger.matches[k].landlord == db.ledger.matches[k].landlord)
    && (forall v <- d.viewings :: !d.viewings[v].deleted ==>
          v in db.viewings && !db.viewings[v].deleted
          && d.viewings[v].tenant == db.viewings[v].tenant && d.viewings[v].landlord == db.viewings[v].landlord)
  }

  lemma NoNewNamesKeeps(db: Db, d: Db)
    requires NoneNamed(db) && NoNewNames(db, d)
    ensures NoneNamed(d)
  {
  }

  lemma EndsNoNewNames(s: State, s': State, v: ViewingId)
    requires Scheduling.OnlyEnds(s, s', v) && s'.db.catalog.gone == s.db.catalog.gone
    requires s'.db.ledger.matches == s.db.ledger.matches
    ensures NoNewNames(s.db, s'.db)
  {
  }

  lemma PutMatchNamed(db: Db, d: Db, k: MatchId, row: MatchRow)
    requires NoneNamed(db) && !row.deleted && d.catalog == db.catalog && d.viewings == db.viewings
    requires d.ledger.matches == db.ledger.matches[k := row]
    ensures NoneNamed(d) <==> !PartyGone(db.catalog, row.tenant, row.landlord)
  {
    assert d.ledger.matches[k] == row;
  }

  lemma PutViewingNamed(db: Db, d: Db, v: ViewingId, row: ViewingRow)
    requires NoneNamed(db) && !row.deleted && d == db.(viewings := db.viewings[v := row])
    ensures NoneNamed(d) <==> !PartyGone(db.catalog, row.tenant, row.landlord)
  {
    assert d.viewings[v] == row;
  }

  lemma MatchNamedIff(cfg: Config, s: State, e: Event)
    requires Inv(cfg, s) && NoneNamed(s.db) && CommitsMatch(s, e)
    ensures NoneNamed(StepEnd(s, e.t).db) <==> !LateMatch(s, e)
  {
    var tx, d := s.txs[e.t], StepEnd(s, e.t).db;
    assert TxOk(cfg, s, e.t, tx);
    ExpressEnds(cfg, s, e.t);
    var row := H.NewMatch(tx.seen, tx.req.pair);
    assert OwnedBy(s.db.catalog, tx.req.pair, row.tenant, row.landlord);
    PutMatchNamed(s.db, d, e.t, row);
  }

  lemma ViewingNamedIff(cfg: Config, s: State, e: Event)
    requires Inv(cfg, s) && NoneNamed(s.db)
    requires e.Run? && e.t in s.txs && s.txs[e.t].req.Book? && s.txs[e.t].pc.Commit?
    ensures NoneNamed(StepEnd(s, e.t).db) <==> !LateViewing(s, e)
  {
    var d := StepEnd(s, e.t).db;
    assert TxOk(cfg, s, e.t, s.txs[e.t]);
    BookCommits(cfg, s, e.t);
    CommitFrame(cfg, s, e.t);
    var row := s.txs[e.t].writes[0].viewing;
    assert d == s.db.(viewings := s.db.viewings[e.t := row]);
    assert row.matchId == s.txs[e.t].req.matchId && SameParties(s.db.ledger, row);
    PutViewingNamed(s.db, d, e.t, row);
  }

  lemma MovedNoNewNames(cfg: Config, s: State, t: TxId)
    requires Inv(cfg, s) && t in s.txs && s.txs[t].req.Reschedule? && s.txs[t].pc.Commit?
    ensures NoNewNames(s.db, StepEnd(s, t).db)
  {
    assert TxOk(cfg, s, t, s.txs[t]);
    RescheduleCommits(cfg, s, t);
    CommitFrame(cfg, s, t);
  }

  lemma RunNamedIff(cfg: Config, s: State, t: TxId, now: int)
    requires cfg.serialize && Inv(cfg, s) && NoneNamed(s.db) && t in s.txs
    ensures var e := Run(t, now); NoneNamed(StepTx(cfg, s, t, now).db) <==> !LateMatch(s, e) && !LateViewing(s, e)
  {
    var tx, s' := s.txs[t], StepTx(cfg, s, t, now);
    if tx.req.Book? && tx.pc.Commit? {
      ViewingNamedIff(cfg, s, Run(t, now));
    } else if CommitsMatch(s, Run(t, now)) {
      MatchNamedIff(cfg, s, Run(t, now));
    } else {
      if tx.req.Reschedule? && tx.pc.Commit? {
        MovedNoNewNames(cfg, s, t);
      } else {
        Renting.RunKeepsMatches(cfg, s, t, now);
        RunEndsOnly(cfg, s, t, now);
        EndsNoNewNames(s, s', Scheduling.Touched(s, Run(t, now)));
      }
      NoNewNamesKeeps(s.db, s'.db);
    }
  }

  lemma RunEndsOnly(cfg: Config, s: State, t: TxId, now: int)
    requires cfg.serialize && Inv(cfg, s) && t in s.txs && !(Scheduling.OnViewings(s.txs[t].req) && s.txs[t].pc.Commit?)
    ensures Scheduling.OnlyEnds(s, StepTx(cfg, s, t, now), Scheduling.Touched(s, Run(t, now)))
  {
    if !Scheduling.OnViewings(s.txs[t].req) {
      Scheduling.RunOnlyEnds(cfg, s, t, now);
    } else if !s.txs[t].pc.Rollback? {
      StatementQuiet(cfg, s, t, now);
    }
  }

  lemma PurgeNamedIff(cfg: Config, s: State, e: Event)
    requires NoneNamed(s.db) && e.PurgeMatch?
    ensures NoneNamed(Step(cfg, s, e).db) <==> !LeavesOthers(s, e)
  {
    var g, d := s.db.ledger, Step(cfg, s, e).db;
    PurgeMatchSteps(cfg, s, e);
    if e.m in g.matches && g.matches[e.m].Names(e.u) {
      assert d.catalog.gone == s.db.catalog.gone + {e.u} && d.viewings == s.db.viewings;
      assert d.ledger.matches == g.matches[e.m := g.matches[e.m].(deleted := true)];
      if LeavesOthers(s, e) {
        if k :| k in g.matches && k != e.m && !g.matches[k].deleted && g.matches[k].Names(e.u) {
          assert d.ledger.matches[k] == g.matches[k];
        }
      }
    }
  }

  lemma OtherNoNewNames(cfg: Config, s: State, e: Event)
    requires cfg.serialize && Inv(cfg, s) && !e.Run? && !e.PurgeMatch?
    ensures NoNewNames(s.db, Step(cfg, s, e).db)
  {
    OtherKeepsGone(cfg, s, e);
    if e.RentMatch? {
      RentMatchSteps(cfg, s, e);
    } else {
      OthersKeepLedger(cfg, s, e);
      Scheduling.OtherOnlyEnds(cfg, s, e);
      EndsNoNewNames(s, Step(cfg, s, e), Scheduling.Touched(s, e));
    }
  }

  lemma OtherKeepsGone(cfg: Config, s: State, e: Event)
    requires !e.Run? && !e.PurgeMatch?
    ensures Step(cfg, s, e).db.catalog.gone == s.db.catalog.gone
  {
  }

  /**
   A live match or viewing comes to name a deleted user by exactly three kinds of step: the commit of a match and
   the commit of a booking that had read their rows before the deletion, and the deletion itself while it has
   rows of the user still to do.
   */
  lemma NamedBrokenIff(cfg: Config, s: State, e: Event)
    requires cfg.serialize && Inv(cfg, s) && NoneNamed(s.db)
    ensures NoneNamed(Step(cfg, s, e).db) <==> !LateMatch(s, e) && !LateViewing(s, e) && !LeavesOthers(s, e)
  {
    if e.Run? {
      if e.t in s.txs { RunNamedIff(cfg, s, e.t, e.now); }
    } else if e.PurgeMatch? {
      PurgeNamedIff(cfg, s, e);
    } else {
      OtherNoNewNames(cfg, s, e);
      NoNewNamesKeeps(s.db, Step(cfg, s, e).db);
    }
  }

  // ---- a whole deletion, event by event --------------------------------------------------------

  ghost predicate OnlyCatalog(s: State, m: State) { m == s.(db := s.db.(catalog := m.db.catalog)) }

  function DropProfiles(profiles: map<ProfileId, ProfileRow>, ids: set<ProfileId>): map<ProfileId, ProfileRow> {
    map p | p in profiles :: if p in ids then profiles[p].(deleted := true) else profiles[p]
  }

  lemma {:induction false} DropsProfiles(cfg: Config, s: State, ids: set<ProfileId>) returns (m: State)
    requires ids <= s.db.catalog.profiles.Keys
    ensures Leads(cfg, s, m) && OnlyCatalog(s, m)
    ensures m.db.catalog == s.db.catalog.(profiles := DropProfiles(s.db.catalog.profiles, ids))
    decreases |ids|
  {
    var was := s.db.catalog.profiles;
    if ids == {} {
      m := s;
      assert Execute(cfg, s, []) == s;
      assert DropProfiles(was, ids) == was;
    } else {
      var p :| p in ids;
      var most := DropsProfiles(cfg, s, ids - {p});
      var e := PutProfile(p, was[p].(deleted := true));
      LeadsOn(cfg, s, most, e);
      m := Step(cfg, most, e);
      assert DropProfiles(was, ids - {p})[p := was[p].(deleted := true)] == DropProfiles(was, ids);
    }
  }

  function DropListings(listings: map<ListingId, ListingRow>, ids: set<ListingId>): map<ListingId, ListingRow> {
    map l | l in listings :: if l in ids then listings[l].(deleted := true) else listings[l]
  }

  lemma DropsListing(cfg: Config, s: State, l: ListingId, row: ListingRow)
    requires l in s.db.catalog.listings && s.db.catalog.listings[l] == row
    ensures var listings := s.db.catalog.listings[l := row.(deleted := true)];
      Step(cfg, s, PutListing(l, row.(deleted := true))) == SetCatalog(s, s.db.catalog.(listings := listings))
  {
  }

  lemma {:induction false} DropsListings(cfg: Config, s: State, ids: set<ListingId>) returns (m: State)
    requires ids <= s.db.catalog.listings.Keys
    ensures Leads(cfg, s, m) && OnlyCatalog(s, m)
    ensures m.db.catalog == s.db.catalog.(listings := DropListings(s.db.catalog.listings, ids))
    decreases |ids|
  {
    var was := s.db.catalog.listings;
    if ids == {} {
      m := s;
      assert Execute(cfg, s, []) == s;
      assert DropListings(was, ids) == was;
    } else {
      var l :| l in ids;
      var most := DropsListings(cfg, s, ids - {l});
      var e := PutListing(l, was[l].(deleted := true));
      LeadsOn(cfg, s, most, e);
      DropsListing(cfg, most, l, was[l]);
      m := Step(cfg, most, e);
      assert DropListings(was, ids - {l})[l := was[l].(deleted := true)] == DropListings(was, ids);
    }
  }

  lemma {:induction false} DropsBlocks(cfg: Config, s: State, blocks: set<(UserId, UserId)>) returns (m: State)
    ensures Leads(cfg, s, m) && OnlyCatalog(s, m)
    ensures m.db.catalog == s.db.catalog.(blocks := s.db.catalog.blocks - blocks)
    decreases |blocks|
  {
    if blocks == {} {
      m := s;
      assert Execute(cfg, s, []) == s;
      assert s.db.catalog.blocks - blocks == s.db.catalog.blocks;
    } else {
      var b :| b in blocks;
      var most := DropsBlocks(cfg, s, blocks - {b});
      LeadsOn(cfg, s, most, SetBlock(b.0, b.1, false));
      m := Step(cfg, most, SetBlock(b.0, b.1, false));
      assert s.db.catalog.blocks - (blocks - {b}) - {b} == s.db.catalog.blocks - blocks;
    }
  }

  function PurgeMatches(matches: map<MatchId, MatchRow>, ids: set<MatchId>): map<MatchId, MatchRow> {
    map k | k in matches :: if k in ids then matches[k].(deleted := true) else matches[k]
  }

  /** The user is marked as gone, with these matches deleted. */
  function Purged(db: Db, u: UserId, ids: set<MatchId>): Db {
    Db(db.catalog.(gone := db.catalog.gone + {u}),
       db.ledger.(matches := PurgeMatches(db.ledger.matches, ids)), db.viewings)
  }

  lemma PurgesOneMore(cfg: Config, s: State, m: State, u: UserId, ids: set<MatchId>, k: MatchId)
    requires k in s.db.ledger.matches && s.db.ledger.matches[k].Names(u) && k in ids
    requires m == s.(db := m.db, log := m.log) && ((m.db == s.db && ids == {k}) || m.db == Purged(s.db, u, ids - {k}))
    ensures var n := Step(cfg, m, PurgeMatch(u, k)); n == s.(db := Purged(s.db, u, ids), log := n.log)
  {
    var was := s.db.ledger.matches;
    PurgeMatchSteps(cfg, m, PurgeMatch(u, k));
    assert PurgeMatches(was, {}) == was;
    assert PurgeMatches(was, ids - {k})[k := was[k].(deleted := true)] == PurgeMatches(was, ids);
    assert m.db.catalog.gone + {u} == s.db.catalog.gone + {u};
  }

  lemma {:induction false} PurgesMatches(cfg: Config, s: State, u: UserId, ids: set<MatchId>) returns (m: State)
    requires ids != {} && forall k <- ids :: k in s.db.ledger.matches && s.db.ledger.matches[k].Names(u)
    ensures Leads(cfg, s, m) && m == s.(db := Purged(s.db, u, ids), log := m.log)
    decreases |ids|
  {
    var k :| k in ids;
    var most := s;
    assert Execute(cfg, s, []) == s;
    if ids != {k} {
      assert ids == {k} + (ids - {k});
      most := PurgesMatches(cfg, s, u, ids - {k});
    }
    LeadsOn(cfg, s, most, PurgeMatch(u, k));
    m := Step(cfg, most, PurgeMatch(u, k));
    PurgesOneMore(cfg, s, most, u, ids, k);
  }

  function PurgeViewings(viewings: Viewings, ids: set<ViewingId>): Viewings {
    map v | v in viewings :: if v in ids then viewings[v].(deleted := true) else viewings[v]
  }

  function WithoutViewings(s: State, ids: set<ViewingId>): State {
    s.(db := s.db.(viewings := PurgeViewings(s.db.viewings, ids)))
  }

  lemma PurgesViewing(cfg: Config, s: State, u: UserId, ids: set<ViewingId>, v: ViewingId)
    requires v in s.db.viewings && s.db.viewings[v].Names(u) && v !in s.rows && v in ids
    ensures Step(cfg, WithoutViewings(s, ids - {v}), PurgeViewing(u, v)) == WithoutViewings(s, ids)
  {
    var was := s.db.viewings;
    assert PurgeViewings(was, ids - {v})[v := was[v].(deleted := true)] == PurgeViewings(was, ids);
  }

  lemma {:induction false} PurgesViewings(cfg: Config, s: State, u: UserId, ids: set<ViewingId>) returns (m: State)
    requires forall v <- ids :: v in s.db.viewings && s.db.viewings[v].Names(u) && v !in s.rows
    ensures Leads(cfg, s, m) && m == WithoutViewings(s, ids)
    decreases |ids|
  {
    if ids == {} {
      m := s;
      assert Execute(cfg, s, []) == s;
      assert PurgeViewings(s.db.viewings, ids) == s.db.viewings;
    } else {
      var v :| v in ids;
      var most := PurgesViewings(cfg, s, u, ids - {v});
      LeadsOn(cfg, s, most, PurgeViewing(u, v));
      PurgesViewing(cfg, s, u, ids, v);
      m := WithoutViewings(s, ids);
    }
  }

  /** The tables as the handler leaves them, but for the interests of profiles with the user's own id. */
  function Deleted(db: Db, u: UserId): Db {
    var d := H.DeleteAccount(db, u);
    d.(ledger := d.ledger.(interests := db.ledger.interests))
  }

  function ProfilesOf(c: Catalog, u: UserId): set<ProfileId> { set p <- c.profiles | c.profiles[p].owner == u }

  function ListingsOf(c: Catalog, u: UserId): set<ListingId> { set l <- c.listings | c.listings[l].owner == u }

  function BlocksOf(c: Catalog, u: UserId): set<(UserId, UserId)> { set b <- c.blocks | b.0 == u || b.1 == u }

  function MatchesOf(g: Ledger, u: UserId): set<MatchId> { set k <- g.matches | g.matches[k].Names(u) }

  function ViewingsOf(vs: Viewings, u: UserId): set<ViewingId> { set v <- vs | vs[v].Names(u) }

  function DropAll(c: Catalog, u: UserId): Catalog {
    Catalog(DropProfiles(c.profiles, ProfilesOf(c, u)), DropListings(c.listings, ListingsOf(c, u)),
            c.blocks - BlocksOf(c, u), c.suspended, c.gone + {u})
  }

  lemma TogetherDelete(db: Db, u: UserId)
    ensures Deleted(db, u).catalog == DropAll(db.catalog, u)
    ensures Deleted(db, u).ledger == db.ledger.(matches := PurgeMatches(db.ledger.matches, MatchesOf(db.ledger, u)))
    ensures Deleted(db, u).viewings == PurgeViewings(db.viewings, ViewingsOf(db.viewings, u))
  {
    var d := H.DeleteAccount(db, u);
    H.DeleteAccountMeans(db, u);
    assert d.ledger.matches == PurgeMatches(db.ledger.matches, MatchesOf(db.ledger, u));
    assert d.viewings == PurgeViewings(db.viewings, ViewingsOf(db.viewings, u));
    TogetherCatalog(db.catalog, d.catalog, u);
  }

  lemma TogetherCatalog(c: Catalog, d: Catalog, u: UserId)
    requires H.CatalogForgets(c, d, u)
    ensures d == DropAll(c, u)
  {
    assert d.profiles == DropProfiles(c.profiles, ProfilesOf(c, u));
    assert d.listings == DropListings(c.listings, ListingsOf(c, u));
    assert d.blocks == c.blocks - BlocksOf(c, u);
  }

  /** No viewing of the user is locked. */
  predicate NoneHeld(s: State, u: UserId) { forall v <- s.db.viewings :: s.db.viewings[v].Names(u) ==> v !in s.rows }

  /** Profiles, listings, blocks, matches and viewings: together the handler's whole deletion. */
  lemma DeletesAccount(cfg: Config, s: State, u: UserId) returns (m: State)
    requires MatchesOf(s.db.ledger, u) != {} && NoneHeld(s, u)
    ensures Leads(cfg, s, m) && m == s.(db := Deleted(s.db, u), log := m.log)
  {
    var s1 := DropsProfiles(cfg, s, ProfilesOf(s.db.catalog, u));
    var s2 := DropsListings(cfg, s1, ListingsOf(s.db.catalog, u));
    var s3 := DropsBlocks(cfg, s2, BlocksOf(s.db.catalog, u));
    var s4 := PurgesMatches(cfg, s3, u, MatchesOf(s.db.ledger, u));
    m := PurgesViewings(cfg, s4, u, ViewingsOf(s.db.viewings, u));
    TogetherDelete(s.db, u);
    LeadsFar(cfg, s, s1, s2);
    LeadsFar(cfg, s, s2, s3);
    LeadsFar(cfg, s, s3, s4);
    LeadsFar(cfg, s, s4, m);
  }

  // ---- what others commit after it ---------------------------------------------------------------

  lemma DeletionKeepsGround(s: State, m: State, t: TxId, req: Request, seen: H.Seen, u: UserId)
    requires req.Express? && Stands(s, m, t, req, XBlocks, seen, []) && m.db.catalog == s.db.catalog
    requires !s.db.ledger.HasMatch(req.pair)
    ensures m.db == s.db && !Deleted(s.db, u).ledger.HasMatch(req.pair)
    ensures Deleted(s.db, u).catalog.blocks <= s.db.catalog.blocks && u in Deleted(s.db, u).catalog.gone
  {
    H.DeleteAccountMeans(s.db, u);
  }

  /**
   From every state in which an express would match, a run deletes the account of one of the owners, who has an
   earlier match, and then makes the match: all the tables are as the deletion leaves them, but for the interest
   and the match, which names the deleted user.
   */
  lemma MatchedAfterDeletion(cfg: Config, s: State, t: TxId, req: Request, u: UserId) returns (m: State)
    requires Unused(s, t) && MayMatch(cfg, s, req) && MatchesOf(s.db.ledger, u) != {} && NoneHeld(s, u)
    requires var c := s.db.catalog;
      u in {c.profiles[req.pair.profile].owner, c.listings[req.pair.listing].owner}
    ensures Leads(cfg, s, m) && u in m.db.catalog.gone
    ensures var d, row := Deleted(s.db, u), H.NewMatch(H.SeeForExpress(s.db.catalog, req.pair), req.pair);
      && m.db.catalog == d.catalog && m.db.viewings == d.viewings && m.db.ledger.matches == d.ledger.matches[t := row]
      && row.Names(u) && !row.deleted
  {
    var seen := H.SeeForExpress(s.db.catalog, req.pair);
    var before := ReadsBefore(cfg, s, t, req);
    DeletionKeepsGround(s, before, t, req, seen, u);
    var d := DeletesAccount(cfg, before, u);
    var s0 := s.(db := d.db);
    m := MatchesAfter(cfg, s0, d, t, req, seen);
    LeadsFar(cfg, s, before, d);
    LeadsFar(cfg, s, d, m);
  }

  lemma DeletionKeepsListing(db: Db, u: UserId, l: ListingId)
    requires db.catalog.VisibleListing(l).Some? && db.catalog.listings[l].owner != u
    ensures var d := Deleted(db, u); u in d.catalog.gone && d.catalog.VisibleListing(l) == db.catalog.VisibleListing(l)
  {
    H.DeleteAccountMeans(db, u);
  }

  /**
   From every state in which the tenant of an active match may book, even counting the tenant's viewings as gone, a
   run deletes the tenant's account and then books: a confirmed viewing that names the deleted user.
   */
  lemma BookedAfterDeletion(cfg: Config, s: State, t: TxId, u: UserId, k: MatchId, start: int, now: int)
      returns (m: State)
    requires Unused(s, t) && NoneHeld(s, u) && MayBook(cfg, s, Deleted(s.db, u).viewings, u, k, start, now)
    requires s.db.catalog.listings[s.db.ledger.matches[k].pair.listing].owner != u
    ensures Leads(cfg, s, m) && u in m.db.catalog.gone && t in m.db.viewings && m.db.viewings[t].tenant == u
    ensures var d := Deleted(s.db, u);
      && m.db.catalog == d.catalog && m.db.ledger == d.ledger && m.db.viewings == d.viewings[t := m.db.viewings[t]]
      && IsViewingOf(m.db.viewings[t], k, s.db.ledger.matches[k])
  {
    var req, row := Book(u, k, start), s.db.ledger.matches[k];
    var begun := BookingBegins(cfg, s, t, req, now);
    assert k in MatchesOf(s.db.ledger, u);
    DeletionKeepsListing(s.db, u, row.pair.listing);
    var d := DeletesAccount(cfg, begun, u);
    m := BookingFinishes(cfg, d, t, req, row, now);
    LeadsFar(cfg, s, begun, d);
    LeadsFar(cfg, s, d, m);
  }
}
