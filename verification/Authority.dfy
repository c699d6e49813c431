/** Whose rows a request can change, for every request, in tables whose parties are owners. */
module Authority {
  import opened Base
  import opened Slots
  import opened Schema
  import H = Handlers
  import L = Lifecycle
  import P = ProtocolInvariant
  import M = Meanings

  /** Profiles and listings that are not the actor's stand, and none goes or changes hands. */
  ghost predicate CatalogOwn(c: Catalog, d: Catalog, actor: UserId) {
    && c.profiles.Keys <= d.profiles.Keys && c.listings.Keys <= d.listings.Keys
    && (forall p <- d.profiles ::
          || (p in c.profiles && d.profiles[p] == c.profiles[p])
          || (d.profiles[p].owner == actor && (p in c.profiles ==> c.profiles[p].owner == actor)))
    && (forall l <- d.listings ::
          || (l in c.listings && d.listings[l] == c.listings[l])
          || (d.listings[l].owner == actor && (l in c.listings ==> c.listings[l].owner == actor)))
  }

  ghost predicate SameInterest(g: Ledger, h: Ledger, k: InterestKey) {
    (k in g.interests <==> k in h.interests) && (k in g.interests ==> g.interests[k] == h.interests[k])
  }

  /** An interest that changes is on the actor's side, unless its profile has the actor's id. */
  ghost predicate InterestsOwn(db: Db, d: Db, actor: UserId, call: L.Call) {
    forall k: InterestKey ::
      || SameInterest(db.ledger, d.ledger, k) || M.OwnsSide(db.catalog, actor, k.pair, k.role)
      || (call.DeleteAccount? && k.pair.profile == actor)
  }

  /** Matches and viewings that are made or change have the actor for a party. */
  ghost predicate PartiesOwn(db: Db, d: Db, actor: UserId) {
    && (forall m <- d.ledger.matches ::
          || (m in db.ledger.matches && d.ledger.matches[m] == db.ledger.matches[m])
          || actor in {d.ledger.matches[m].tenant, d.ledger.matches[m].landlord})
    && (forall v <- d.viewings ::
          || (v in db.viewings && d.viewings[v] == db.viewings[v])
          || actor in {d.viewings[v].tenant, d.viewings[v].landlord})
  }

  /** A block that comes or goes is the actor's, or is of an actor who leaves. */
  ghost predicate BlocksOwn(c: Catalog, d: Catalog, actor: UserId, call: L.Call) {
    forall a: UserId, b: UserId ::
      ((a, b) in c.blocks <==> (a, b) in d.blocks) || a == actor || (call.DeleteAccount? && b == actor)
  }

  ghost predicate OnlyOwn(db: Db, d: Db, actor: UserId, call: L.Call) {
    && CatalogOwn(db.catalog, d.catalog, actor) && BlocksOwn(db.catalog, d.catalog, actor, call)
    && InterestsOwn(db, d, actor, call) && PartiesOwn(db, d, actor)
  }

  lemma NothingIsOwn(db: Db, actor: UserId, call: L.Call)
    ensures OnlyOwn(db, db, actor, call)
  {
  }

  lemma ExpressOwn(db: Db, actor: UserId, call: L.Call)
    requires call.Express?
    ensures OnlyOwn(db, H.Express(db, actor, call.pair, call.role, call.id).0, actor, call)
  {
    M.ExpressMeans(db, actor, call.pair, call.role, call.id);
  }

  lemma WithdrawOwn(db: Db, actor: UserId, call: L.Call)
    requires call.Withdraw?
    ensures OnlyOwn(db, H.Withdraw(db, actor, call.pair, call.role).0, actor, call)
  {
    M.WithdrawMeans(db, actor, call.pair, call.role);
  }

  lemma ViewingRowOwn(db: Db, actor: UserId, call: L.Call, v: ViewingId, row: ViewingRow)
    requires actor in {row.tenant, row.landlord}
    ensures OnlyOwn(db, db.(viewings := db.viewings[v := row]), actor, call)
  {
  }

  lemma ViewingCallOwn(db: Db, actor: UserId, call: L.Call)
    requires call.Book? || call.Reschedule? || call.Cancel? || call.Attend?
    requires actor !in db.catalog.gone
    ensures OnlyOwn(db, L.Serve(db, actor, call).0, actor, call)
  {
    var d := L.Serve(db, actor, call).0;
    NothingIsOwn(db, actor, call);
    if d != db {
      var v := if call.Book? then call.id else call.v;
      if call.Book? { M.BookMeans(db, actor, call.m, call.start, call.now, call.id); }
      else if call.Reschedule? { M.RescheduleMeans(db, actor, call.v, call.start, call.now); }
      else if call.Cancel? { H.CancelMeans(db, actor, call.v); }
      else { H.AttendMeans(db, actor, call.v); }
      assert v in d.viewings && d == db.(viewings := db.viewings[v := d.viewings[v]]);
      ViewingRowOwn(db, actor, call, v, d.viewings[v]);
    }
  }

  lemma StatusOwn(db: Db, actor: UserId, call: L.Call)
    requires L.Ok(db) && call.SetStatus?
    ensures OnlyOwn(db, H.SetListingStatus(db, actor, call.l, call.status, call.publishable).0, actor, call)
  {
    var d := H.SetListingStatus(db, actor, call.l, call.status, call.publishable).0;
    M.StatusMeans(db, actor, call.l, call.status, call.publishable);
    NothingIsOwn(db, actor, call);
    if d != db {
      forall m <- d.ledger.matches
        ensures d.ledger.matches[m] == db.ledger.matches[m] || d.ledger.matches[m].landlord == actor
      {
        assert P.OwnedBy(db.catalog, db.ledger.matches[m].pair, db.ledger.matches[m].tenant,
            db.ledger.matches[m].landlord);
      }
      forall v <- d.viewings ensures d.viewings[v] == db.viewings[v] || d.viewings[v].landlord == actor {
        assert P.SameParties(db.ledger, db.viewings[v]);
        var k := db.viewings[v].matchId;
        assert P.OwnedBy(db.catalog, db.ledger.matches[k].pair, db.ledger.matches[k].tenant,
            db.ledger.matches[k].landlord);
      }
    }
  }

  lemma CatalogRowOwn(db: Db, d: Db, actor: UserId, call: L.Call)
    requires d == db.(catalog := db.catalog.(profiles := d.catalog.profiles, listings := d.catalog.listings))
    requires CatalogOwn(db.catalog, d.catalog, actor)
    ensures OnlyOwn(db, d, actor, call)
  {
  }

  lemma ProfileEditOwn(db: Db, actor: UserId, call: L.Call)
    requires (call.NewProfile? || call.SetProfile? || call.DeleteProfile?) && actor !in db.catalog.gone
    ensures OnlyOwn(db, L.Serve(db, actor, call).0, actor, call)
  {
    CatalogRowOwn(db, L.Serve(db, actor, call).0, actor, call);
  }

  lemma ListingEditOwn(db: Db, actor: UserId, call: L.Call)
    requires (call.SetAvailability? || call.NewListing? || call.SetOffer? || call.DeleteListing?)
    requires actor !in db.catalog.gone
    ensures OnlyOwn(db, L.Serve(db, actor, call).0, actor, call)
  {
    CatalogRowOwn(db, L.Serve(db, actor, call).0, actor, call);
  }

  lemma BlockOwn(db: Db, actor: UserId, call: L.Call)
    requires (call.Block? || call.Unblock?) && actor !in db.catalog.gone
    ensures OnlyOwn(db, L.Serve(db, actor, call).0, actor, call)
  {
  }

  lemma DeletionOwn(db: Db, actor: UserId, call: L.Call)
    requires call.DeleteAccount?
    ensures OnlyOwn(db, H.DeleteAccount(db, actor), actor, call)
  {
    H.DeleteAccountMeans(db, actor);
  }

  /**
   Every request changes only the actor's own profiles, listings and blocks, interests of the actor's side, and
   matches and viewings the actor is a party to.
   */
  lemma RequestsStayOwn(db: Db, actor: UserId, call: L.Call)
    requires L.Ok(db)
    ensures OnlyOwn(db, L.Serve(db, actor, call).0, actor, call)
  {
    NothingIsOwn(db, actor, call);
    if actor in db.catalog.gone {
    } else if call.Express? { ExpressOwn(db, actor, call); }
    else if call.Withdraw? { WithdrawOwn(db, actor, call); }
    else if call.SetStatus? { StatusOwn(db, actor, call); }
    else if call.NewProfile? || call.SetProfile? || call.DeleteProfile? { ProfileEditOwn(db, actor, call); }
    else if call.Block? || call.Unblock? { BlockOwn(db, actor, call); }
    else if call.DeleteAccount? { DeletionOwn(db, actor, call); }
    else if call.Book? || call.Reschedule? || call.Cancel? || call.Attend? { ViewingCallOwn(db, actor, call); }
    else { ListingEditOwn(db, actor, call); }
  }

  /** The user makes none of these requests. */
  ghost predicate Idle(calls: seq<(UserId, L.Call)>, u: UserId) { forall c <- calls :: c.0 != u }

  ghost predicate RowsStand(c: Catalog, d: Catalog, u: UserId) {
    && (forall p <- c.profiles :: c.profiles[p].owner == u ==> p in d.profiles && d.profiles[p] == c.profiles[p])
    && (forall l <- c.listings :: c.listings[l].owner == u ==> l in d.listings && d.listings[l] == c.listings[l])
  }

  lemma RowsStandOn(c: Catalog, mid: Catalog, d: Catalog, u: UserId, actor: UserId)
    requires RowsStand(c, mid, u) && CatalogOwn(mid, d, actor) && actor != u
    ensures RowsStand(c, d, u)
  {
    forall p <- c.profiles | c.profiles[p].owner == u ensures p in d.profiles && d.profiles[p] == c.profiles[p] {
      assert p in mid.profiles;
    }
    forall l <- c.listings | c.listings[l].owner == u ensures l in d.listings && d.listings[l] == c.listings[l] {
      assert l in mid.listings;
    }
  }

  /** Whatever others request, a user's profiles and listings stay as they are. */
  lemma {:induction false} OthersLeaveRows(db: Db, calls: seq<(UserId, L.Call)>, u: UserId)
    requires L.Ok(db) && Idle(calls, u)
    ensures RowsStand(db.catalog, L.Run(db, calls).catalog, u)
  {
    if calls != [] {
      var before, last := calls[..|calls| - 1], calls[|calls| - 1];
      assert (forall c <- before :: c in calls) && last in calls;
      OthersLeaveRows(db, before, u);
      L.RunGood(db, before);
      var mid := L.Run(db, before);
      RequestsStayOwn(mid, last.0, last.1);
      RowsStandOn(db.catalog, mid.catalog, L.Run(db, calls).catalog, u, last.0);
    }
  }

  /** A listing comes to be open to the public only by its owner's publishing it, with a photo and compliance. */
  lemma OpensByPublishing(db: Db, actor: UserId, call: L.Call, l: ListingId)
    requires !M.ListingOpen(db.catalog, l) && M.ListingOpen(L.Serve(db, actor, call).0.catalog, l)
    ensures call == L.SetStatus(l, Open, true) && l in db.catalog.listings && db.catalog.listings[l].owner == actor
  {
    if call.Express? || call.Withdraw? {
    } else if call.Book? || call.Reschedule? || call.Cancel? || call.Attend? {
      ViewingCallKeepsCatalog(db, actor, call);
    } else if call.SetStatus? {
      M.StatusMeans(db, actor, call.l, call.status, call.publishable);
    } else if call.DeleteAccount? {
      H.DeleteAccountMeans(db, actor);
    }
  }

  lemma ViewingCallKeepsCatalog(db: Db, actor: UserId, call: L.Call)
    requires call.Book? || call.Reschedule? || call.Cancel? || call.Attend?
    ensures L.Serve(db, actor, call).0.catalog == db.catalog
  {
  }

  /** An edit is stored exactly for the owner of a row that is there, in the columns it is about and no others. */
  lemma EditsMean(db: Db, actor: UserId, p: ProfileId, active: bool, wants: Wants, l: ListingId, offer: Offer)
    requires actor !in db.catalog.gone
    ensures var ((d, a), c) := (L.Serve(db, actor, L.SetProfile(p, active, wants)), db.catalog);
      && (a == H.Ok <==> M.ProfileThere(c, p) && c.profiles[p].owner == actor) && (a != H.Ok ==> d == db)
      && (a == H.Ok ==> d == db.(catalog := c.(profiles := c.profiles[p := ProfileRow(actor, active, false, wants)])))
    ensures var ((d, a), c) := (L.Serve(db, actor, L.SetOffer(l, offer)), db.catalog);
      && (a == H.Ok <==> M.ListingThere(c, l) && c.listings[l].owner == actor) && (a != H.Ok ==> d == db)
      && (a == H.Ok ==> d == db.(catalog := c.(listings := c.listings[l := c.listings[l].(offer := offer)])))
    ensures l !in db.catalog.listings ==>
      var d := L.Serve(db, actor, L.NewListing(l, offer)).0;
      d == db.(catalog := db.catalog.(listings :=
        db.catalog.listings[l := ListingRow(actor, Draft, false, false, NO_SCHEDULE, offer)]))
  {
  }

  /** A schedule is stored exactly for the owner of a listing that is there, with every number within its bounds. */
  lemma ScheduleMeans(db: Db, actor: UserId, l: ListingId, av: Availability)
    requires actor !in db.catalog.gone
    ensures var ((d, a), c) := (L.Serve(db, actor, L.SetAvailability(l, av)), db.catalog);
      && (a == H.Ok <==> M.ListingThere(c, l) && c.listings[l].owner == actor && (av.enabled ==> WithinBounds(av)))
      && (a == H.Ok ==> d == db.(catalog := c.(listings := c.listings[l := c.listings[l].(availability := av)])))
      && (!M.ListingThere(c, l) ==> a == H.NotFound)
      && (M.ListingThere(c, l) && c.listings[l].owner != actor ==> a == H.Forbidden)
      && (a != H.Ok ==> d == db)
  {
  }

  ghost predicate WithinBounds(av: Availability) {
    && 15 <= av.slotMinutes <= 240 && 0 <= av.slotCapacity <= 20 && 1 <= av.rangeDays <= 60
    && forall wd <- av.weekly :: 0 <= wd < 7 && forall i | 0 <= i < |av.weekly[wd]| ::
          av.weekly[wd][i].open < av.weekly[wd][i].close
  }
}
