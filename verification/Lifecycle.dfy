/**
 Requests one at a time: what renting out, cancelling and deleting an account leave
 behind, over every sequence of requests.
 */
module Lifecycle {
  import opened Base
  import opened Slots
  import opened Schema
  import H = Handlers
  import P = ProtocolInvariant

  datatype Call =
    | Express(pair: Pair, role: Role, id: MatchId)
    | Withdraw(pair: Pair, role: Role)
    | Book(m: MatchId, start: int, now: int, id: ViewingId)
    | Reschedule(v: ViewingId, start: int, now: int)
    | Cancel(v: ViewingId)
    | Attend(v: ViewingId)
    | SetStatus(l: ListingId, status: ListingStatus, publishable: bool)
    | SetAvailability(l: ListingId, av: Availability)
    | NewProfile(p: ProfileId, active: bool, wants: Wants)
    | SetProfile(p: ProfileId, active: bool, wants: Wants)
    | DeleteProfile(p: ProfileId)
    | NewListing(l: ListingId, offer: Offer)
    | SetOffer(l: ListingId, offer: Offer)
    | DeleteListing(l: ListingId)
    | Block(target: UserId, targetExists: bool)
    | Unblock(target: UserId)
    | DeleteAccount

  function OwnProfile(c: Catalog, p: ProfileId, actor: UserId): Option<H.Answer> {
    var row := c.VisibleProfile(p);
    if row.None? then Some(H.NotFound) else if row.value.owner != actor then Some(H.Forbidden) else None
  }

  function OwnListing(c: Catalog, l: ListingId, actor: UserId): Option<H.Answer> {
    var row := c.VisibleListing(l);
    if row.None? then Some(H.NotFound) else if row.value.owner != actor then Some(H.Forbidden) else None
  }

  function PutProfile(db: Db, p: ProfileId, row: ProfileRow): Db {
    db.(catalog := db.catalog.(profiles := db.catalog.profiles[p := row]))
  }

  function PutListing(db: Db, l: ListingId, row: ListingRow): Db {
    db.(catalog := db.catalog.(listings := db.catalog.listings[l := row]))
  }

  /** One request of `actor`; ids of new rows are unused, a deleted account is turned away. */
  function Serve(db: Db, actor: UserId, call: Call): (Db, H.Answer) {
    if actor in db.catalog.gone then (db, H.Unauthorized)
    else
      var c := db.catalog;
      match call
      case Express(pair, role, id) =>
        if id in db.ledger.matches then (db, H.Internal) else H.Express(db, actor, pair, role, id)
      case Withdraw(pair, role) => H.Withdraw(db, actor, pair, role)
      case Book(m, start, now, id) =>
        if id in db.viewings then (db, H.Internal) else H.Book(db, actor, m, start, now, id)
      case Reschedule(v, start, now) => H.Reschedule(db, actor, v, start, now)
      case Cancel(v) => H.Cancel(db, actor, v)
      case Attend(v) => H.Attend(db, actor, v)
      case SetStatus(l, status, publishable) => H.SetListingStatus(db, actor, l, status, publishable)
      case SetAvailability(l, av) =>
        if OwnListing(c, l, actor).Some? then (db, OwnListing(c, l, actor).value)
        else if !ValidAvailability(av) then (db, H.BadRequest)
        else (PutListing(db, l, c.listings[l].(availability := av)), H.Ok)
      case NewProfile(p, active, wants) =>
        if p in c.profiles then (db, H.Internal) else (PutProfile(db, p, ProfileRow(actor, active, false, wants)), H.Ok)
      case SetProfile(p, active, wants) =>
        if OwnProfile(c, p, actor).Some? then (db, OwnProfile(c, p, actor).value)
        else (PutProfile(db, p, c.profiles[p].(active := active, wants := wants)), H.Ok)
      case DeleteProfile(p) =>
        if OwnProfile(c, p, actor).Some? then (db, OwnProfile(c, p, actor).value)
        else (PutProfile(db, p, c.profiles[p].(deleted := true)), H.Ok)
      case NewListing(l, offer) =>
        if l in c.listings then (db, H.Internal)
        else (PutListing(db, l, ListingRow(actor, Draft, false, false, NO_SCHEDULE, offer)), H.Ok)
      case SetOffer(l, offer) =>
        if OwnListing(c, l, actor).Some? then (db, OwnListing(c, l, actor).value)
        else (PutListing(db, l, c.listings[l].(offer := offer)), H.Ok)
      case DeleteListing(l) =>
        if OwnListing(c, l, actor).Some? then (db, OwnListing(c, l, actor).value)
        else (PutListing(db, l, c.listings[l].(deleted := true)), H.Ok)
      case Block(target, targetExists) => H.Block(db, actor, target, targetExists)
      case Unblock(target) => H.Unblock(db, actor, target)
      case DeleteAccount => (H.DeleteAccount(db, actor), H.Ok)
  }

  function Run(db: Db, calls: seq<(UserId, Call)>): Db {
    if calls == [] then db
    else var last := calls[|calls| - 1]; Serve(Run(db, calls[..|calls| - 1]), last.0, last.1).0
  }

  // ---- the invariant -------------------------------------------------------------------

  predicate LiveActive(g: Ledger, m: MatchId) {
    m in g.matches && !g.matches[m].deleted && g.matches[m].status == Active
  }

  /** A confirmed viewing belongs to a match still on. */
  ghost predicate ConfirmedHaveMatch(db: Db) {
    forall v <- db.viewings :: !db.viewings[v].deleted && db.viewings[v].status == Confirmed ==>
          LiveActive(db.ledger, db.viewings[v].matchId)
  }

  /** A rented listing has no match on; with the above, no confirmed viewing either. */
  ghost predicate RentedHaveNone(db: Db) {
    forall m <- db.ledger.matches :: LiveActive(db.ledger, m) ==>
      var l := db.ledger.matches[m].pair.listing; l in db.catalog.listings && db.catalog.listings[l].status != Rented
  }

  ghost predicate GoneOwnNothing(db: Db) {
    && (forall m <- db.ledger.matches :: !db.ledger.matches[m].deleted ==>
          db.ledger.matches[m].tenant !in db.catalog.gone && db.ledger.matches[m].landlord !in db.catalog.gone)
    && (forall v <- db.viewings :: !db.viewings[v].deleted ==>
          db.viewings[v].tenant !in db.catalog.gone && db.viewings[v].landlord !in db.catalog.gone)
    && (forall p <- db.catalog.profiles :: !db.catalog.profiles[p].deleted ==>
          db.catalog.profiles[p].owner !in db.catalog.gone)
    && (forall l <- db.catalog.listings :: !db.catalog.listings[l].deleted ==>
          db.catalog.listings[l].owner !in db.catalog.gone)
  }

  ghost predicate Ok(db: Db) {
    && P.MatchPartiesOk(db) && P.ViewingPartiesOk(db)
    && ConfirmedHaveMatch(db) && RentedHaveNone(db) && GoneOwnNothing(db)
  }

  /** A match never comes back: not from deletion, not to active. */
  ghost predicate MatchesOnlyEnd(g: Ledger, g': Ledger) {
    forall m <- g.matches :: m in g'.matches && g'.matches[m].pair == g.matches[m].pair
      && (g.matches[m].deleted ==> g'.matches[m].deleted)
      && (g.matches[m].status != Active ==> g'.matches[m].status != Active)
  }

  ghost predicate Good(db: Db, db': Db) {
    Ok(db') && MatchesOnlyEnd(db.ledger, db'.ledger) && db.catalog.gone <= db'.catalog.gone
  }

  // ---- every request keeps it -------------------------------------------------------------

  lemma ExpressGood(db: Db, actor: UserId, pair: Pair, role: Role, id: MatchId)
    requires Ok(db) && id !in db.ledger.matches
    ensures Good(db, H.Express(db, actor, pair, role, id).0)
  {
    var db' := H.Express(db, actor, pair, role, id).0;
    if db'.ledger.matches != db.ledger.matches {
      assert db'.ledger.matches[id] == H.NewMatch(H.SeeForExpress(db.catalog, pair), pair);
    }
  }

  lemma BookGood(db: Db, actor: UserId, m: MatchId, start: int, now: int, id: ViewingId)
    requires Ok(db) && id !in db.viewings
    ensures Good(db, H.Book(db, actor, m, start, now, id).0)
  {
    var d := H.Book(db, actor, m, start, now, id).0;
    if d != db {
      var row := db.ledger.matches[m];
      NewViewingGood(db, m, id, H.NewViewing(m, row, start, d.viewings[id].end));
    }
  }

  /** A viewing of a match that is on. */
  lemma NewViewingGood(db: Db, m: MatchId, id: ViewingId, row: ViewingRow)
    requires Ok(db) && id !in db.viewings && LiveActive(db.ledger, m) && !row.deleted
    requires row == H.NewViewing(m, db.ledger.matches[m], row.start, row.end)
    ensures Good(db, db.(viewings := db.viewings[id := row]))
  {
  }

  lemma ViewingGood(db: Db, v: ViewingId, row: ViewingRow)
    requires Ok(db) && v in db.viewings
    requires row.(start := db.viewings[v].start, end := db.viewings[v].end, status := db.viewings[v].status)
          == db.viewings[v]
    requires row.status == Confirmed ==> db.viewings[v].status == Confirmed
    ensures Good(db, db.(viewings := db.viewings[v := row]))
  {
    assert P.SameParties(db.ledger, db.viewings[v]);
  }

  lemma RentedGood(db: Db, l: ListingId)
    requires Ok(db) && l in db.catalog.listings
    ensures Good(db, H.RentOut(db, l))
  {
    var db' := H.RentOut(db, l);
    forall v <- db'.viewings
      ensures P.SameParties(db'.ledger, db'.viewings[v])
      ensures !db'.viewings[v].deleted && db'.viewings[v].status == Confirmed ==>
            LiveActive(db'.ledger, db'.viewings[v].matchId)
    {
      assert P.SameParties(db.ledger, db.viewings[v]);
    }
    forall m <- db'.ledger.matches
      ensures P.OwnedBy(db'.catalog, db'.ledger.matches[m].pair, db'.ledger.matches[m].tenant,
            db'.ledger.matches[m].landlord)
    {
      assert P.OwnedBy(db.catalog, db.ledger.matches[m].pair, db.ledger.matches[m].tenant,
          db.ledger.matches[m].landlord);
    }
  }

  /** A listing row keeps its owner, stays out of rented and is not brought back. */
  lemma ListingGood(db: Db, l: ListingId, row: ListingRow)
    requires Ok(db) && l in db.catalog.listings && row.owner == db.catalog.listings[l].owner
    requires row.status == Rented ==> db.catalog.listings[l].status == Rented
    requires db.catalog.listings[l].deleted ==> row.deleted
    ensures Good(db, PutListing(db, l, row))
  {
  }

  lemma ProfileGood(db: Db, p: ProfileId, row: ProfileRow)
    requires Ok(db) && p in db.catalog.profiles && row.owner == db.catalog.profiles[p].owner
    requires db.catalog.profiles[p].deleted ==> row.deleted
    ensures Good(db, PutProfile(db, p, row))
  {
  }

  lemma NewProfileGood(db: Db, actor: UserId, p: ProfileId, row: ProfileRow)
    requires Ok(db) && actor !in db.catalog.gone && row.owner == actor
    ensures p !in db.catalog.profiles ==> Good(db, PutProfile(db, p, row))
  {
  }

  lemma NewListingGood(db: Db, actor: UserId, l: ListingId, row: ListingRow)
    requires Ok(db) && actor !in db.catalog.gone && row.owner == actor
    ensures l !in db.catalog.listings ==> Good(db, PutListing(db, l, row))
  {
  }

  lemma BlocksGood(db: Db, db': Db)
    requires Ok(db) && db' == db.(catalog := db.catalog.(blocks := db'.catalog.blocks))
    ensures Good(db, db')
  {
  }

  lemma RescheduleGood(db: Db, actor: UserId, v: ViewingId, start: int, now: int)
    requires Ok(db)
    ensures Good(db, H.Reschedule(db, actor, v, start, now).0)
  {
    if v in db.viewings {
      var db' := H.Reschedule(db, actor, v, start, now).0;
      if db' != db { ViewingGood(db, v, db'.viewings[v]); }
    }
  }

  lemma SetStatusGood(db: Db, actor: UserId, l: ListingId, status: ListingStatus, publishable: bool)
    requires Ok(db)
    ensures Good(db, H.SetListingStatus(db, actor, l, status, publishable).0)
  {
    if l in db.catalog.listings {
      if status == Rented { RentedGood(db, l); } else { ListingGood(db, l, db.catalog.listings[l].(status := status)); }
    }
  }

  lemma ForgetKeepsParties(db: Db, d: Db, u: UserId)
    requires Ok(db)
    requires H.MatchesForget(db.ledger, d.ledger, u) && H.ViewingsForget(db.viewings, d.viewings, u)
    requires H.CatalogForgets(db.catalog, d.catalog, u)
    ensures P.MatchPartiesOk(d) && P.ViewingPartiesOk(d)
  {
    forall v <- d.viewings ensures P.SameParties(d.ledger, d.viewings[v]) {
      assert P.SameParties(db.ledger, db.viewings[v]);
    }
    forall m <- d.ledger.matches
      ensures P.OwnedBy(d.catalog, d.ledger.matches[m].pair, d.ledger.matches[m].tenant, d.ledger.matches[m].landlord)
    {
      assert P.OwnedBy(db.catalog, db.ledger.matches[m].pair, db.ledger.matches[m].tenant,
          db.ledger.matches[m].landlord);
    }
  }

  lemma ForgetKeepsLife(db: Db, d: Db, u: UserId)
    requires Ok(db)
    requires H.MatchesForget(db.ledger, d.ledger, u) && H.ViewingsForget(db.viewings, d.viewings, u)
    requires H.CatalogForgets(db.catalog, d.catalog, u)
    ensures ConfirmedHaveMatch(d) && RentedHaveNone(d)
  {
    forall v <- d.viewings | !d.viewings[v].deleted && d.viewings[v].status == Confirmed
      ensures LiveActive(d.ledger, d.viewings[v].matchId)
    {
      assert P.SameParties(db.ledger, db.viewings[v]);
      assert LiveActive(db.ledger, db.viewings[v].matchId);
    }
    forall m <- d.ledger.matches | LiveActive(d.ledger, m)
      ensures var l := d.ledger.matches[m].pair.listing;
            l in d.catalog.listings && d.catalog.listings[l].status != Rented
    {
      assert LiveActive(db.ledger, m);
    }
  }

  lemma DeleteAccountGood(db: Db, u: UserId)
    requires Ok(db)
    ensures Good(db, H.DeleteAccount(db, u))
  {
    var d := H.DeleteAccount(db, u);
    H.DeleteAccountMeans(db, u);
    ForgetKeepsParties(db, d, u);
    ForgetKeepsLife(db, d, u);
    ForgetLeavesNothing(db, d, u);
  }

  lemma ForgetLeavesNothing(db: Db, d: Db, u: UserId)
    requires GoneOwnNothing(db)
    requires H.MatchesForget(db.ledger, d.ledger, u) && H.ViewingsForget(db.viewings, d.viewings, u)
    requires H.CatalogForgets(db.catalog, d.catalog, u)
    ensures GoneOwnNothing(d) && MatchesOnlyEnd(db.ledger, d.ledger) && db.catalog.gone <= d.catalog.gone
  {
  }

  lemma MatchCallsGood(db: Db, actor: UserId, call: Call)
    requires Ok(db) && actor !in db.catalog.gone
    requires call.Express? || call.Withdraw? || call.Book? || call.Reschedule? || call.Cancel? || call.Attend?
    ensures Good(db, Serve(db, actor, call).0)
  {
    match call
    case Express(pair, role, id) => if id !in db.ledger.matches { ExpressGood(db, actor, pair, role, id); }
    case Withdraw(pair, role) => WithdrawGood(db, actor, pair, role);
    case Book(m, start, now, id) => if id !in db.viewings { BookGood(db, actor, m, start, now, id); }
    case Reschedule(v, start, now) => RescheduleGood(db, actor, v, start, now);
    case Cancel(v) =>
      if v in db.viewings { ViewingGood(db, v, db.viewings[v].(status := H.CancelStatus(db.viewings[v], actor))); }
    case Attend(v) => if v in db.viewings { ViewingGood(db, v, db.viewings[v].(status := Completed)); }
  }

  lemma WithdrawGood(db: Db, actor: UserId, pair: Pair, role: Role)
    requires Ok(db)
    ensures Good(db, H.Withdraw(db, actor, pair, role).0)
  {
  }

  lemma ListingCallsGood(db: Db, actor: UserId, call: Call)
    requires Ok(db) && actor !in db.catalog.gone
    requires call.SetStatus? || call.SetAvailability? || call.NewListing? || call.SetOffer? || call.DeleteListing?
    ensures Good(db, Serve(db, actor, call).0)
  {
    var c := db.catalog;
    match call
    case SetStatus(l, status, publishable) => SetStatusGood(db, actor, l, status, publishable);
    case SetAvailability(l, av) => if l in c.listings { ListingGood(db, l, c.listings[l].(availability := av)); }
    case NewListing(l, offer) =>
      NewListingGood(db, actor, l, ListingRow(actor, Draft, false, false, NO_SCHEDULE, offer));
    case SetOffer(l, offer) => if l in c.listings { ListingGood(db, l, c.listings[l].(offer := offer)); }
    case DeleteListing(l) => if l in c.listings { ListingGood(db, l, c.listings[l].(deleted := true)); }
  }

  lemma UserCallsGood(db: Db, actor: UserId, call: Call)
    requires Ok(db) && actor !in db.catalog.gone
    requires call.NewProfile? || call.SetProfile? || call.DeleteProfile? || call.Block? || call.Unblock?
        || call.DeleteAccount?
    ensures Good(db, Serve(db, actor, call).0)
  {
    var c := db.catalog;
    match call
    case NewProfile(p, active, wants) => NewProfileGood(db, actor, p, ProfileRow(actor, active, false, wants));
    case SetProfile(p, active, wants) =>
      if p in c.profiles { ProfileGood(db, p, c.profiles[p].(active := active, wants := wants)); }
    case DeleteProfile(p) => if p in c.profiles { ProfileGood(db, p, c.profiles[p].(deleted := true)); }
    case Block(target, targetExists) => BlocksGood(db, H.Block(db, actor, target, targetExists).0);
    case Unblock(target) => BlocksGood(db, H.Unblock(db, actor, target).0);
    case DeleteAccount => DeleteAccountGood(db, actor);
  }

  lemma ServeGood(db: Db, actor: UserId, call: Call)
    requires Ok(db)
    ensures Good(db, Serve(db, actor, call).0)
  {
    if actor !in db.catalog.gone {
      if call.Express? || call.Withdraw? || call.Book? || call.Reschedule? || call.Cancel? || call.Attend? {
        MatchCallsGood(db, actor, call);
      } else if call.SetStatus? || call.SetAvailability? || call.NewListing? || call.SetOffer? || call.DeleteListing? {
        ListingCallsGood(db, actor, call);
      } else {
        UserCallsGood(db, actor, call);
      }
    }
  }

  lemma {:induction false} RunGood(db: Db, calls: seq<(UserId, Call)>)
    requires Ok(db)
    ensures Good(db, Run(db, calls))
  {
    if calls != [] {
      var mid, last := Run(db, calls[..|calls| - 1]), calls[|calls| - 1];
      RunGood(db, calls[..|calls| - 1]);
      ServeGood(mid, last.0, last.1);
    }
  }

  // ---- what it means for a user ------------------------------------------------------------

  lemma {:induction false} RunConcat(db: Db, a: seq<(UserId, Call)>, b: seq<(UserId, Call)>)
    ensures Run(db, a + b) == Run(Run(db, a), b)
  {
    if b == [] {
      assert a + b == a;
    } else {
      RunConcat(db, a, b[..|b| - 1]);
      assert (a + b)[..|a + b| - 1] == a + b[..|b| - 1];
    }
  }

  /** After any requests: confirmed viewings have their match on, rented listings have neither. */
  lemma RentedHoldsNothing(db: Db, calls: seq<(UserId, Call)>, l: ListingId)
    requires Ok(db)
    ensures var d := Run(db, calls);
      && (forall v <- d.viewings :: !d.viewings[v].deleted && d.viewings[v].status == Confirmed ==>
            LiveActive(d.ledger, d.viewings[v].matchId))
      && (l in d.catalog.listings && d.catalog.listings[l].status == Rented ==>
            && (forall m <- d.ledger.matches :: d.ledger.matches[m].pair.listing == l ==> !LiveActive(d.ledger, m))
            && (forall v <- d.viewings :: d.viewings[v].pair.listing == l && !d.viewings[v].deleted ==>
                  d.viewings[v].status != Confirmed))
  {
    RunGood(db, calls);
    var d := Run(db, calls);
    forall v <- d.viewings ensures P.SameParties(d.ledger, d.viewings[v]) {}
  }

  ghost predicate Forgotten(db: Db, u: UserId) {
    && (forall m <- db.ledger.matches :: db.ledger.matches[m].Names(u) ==> db.ledger.matches[m].deleted)
    && (forall v <- db.viewings :: db.viewings[v].Names(u) ==> db.viewings[v].deleted)
  }

  lemma GoneAreForgotten(db: Db, u: UserId)
    requires Ok(db) && u in db.catalog.gone
    ensures Forgotten(db, u)
  {
  }

  lemma DeletesSelf(db: Db, u: UserId)
    ensures u in Serve(db, u, DeleteAccount).0.catalog.gone
  {
    H.DeleteAccountMeans(db, u);
  }

  /** Once an account is deleted, no undeleted match or viewing names its user, whatever comes after. */
  lemma DeletedIsForgotten(db: Db, before: seq<(UserId, Call)>, u: UserId, after: seq<(UserId, Call)>)
    requires Ok(db)
    ensures Forgotten(Run(db, before + [(u, DeleteAccount)] + after), u)
  {
    var b := before + [(u, DeleteAccount)];
    assert b[..|before|] == before;
    RunGood(db, b);
    DeletesSelf(Run(db, before), u);
    RunConcat(db, b, after);
    RunGood(Run(db, b), after);
    GoneAreForgotten(Run(db, b + after), u);
  }

  /** A match that is over stays over. */
  lemma OverIsOver(db: Db, calls: seq<(UserId, Call)>, m: MatchId)
    requires Ok(db) && m in db.ledger.matches && !LiveActive(db.ledger, m)
    ensures !LiveActive(Run(db, calls).ledger, m)
  {
    RunGood(db, calls);
  }
}
