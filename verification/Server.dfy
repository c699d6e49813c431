/**
 The handlers as the server runs them: statement by statement, updating the tables in
 place.  Each is proved to do what `Handlers` says the request does, and to keep the tables
 in order: one match per mutual pair and none without, parties that are owners, one active
 viewing per match, confirmed viewings with their match on, rented listings with none.
 */
module Server {
  import opened Slots
  import opened Schema
  import H = Handlers
  import L = Lifecycle
  import M = Meanings
  import U = Upkeep

  class Database {
    var profiles: map<ProfileId, ProfileRow>
    var listings: map<ListingId, ListingRow>
    var blocks: set<(UserId, UserId)>
    var suspended: set<UserId>
    var gone: set<UserId>
    var interests: map<InterestKey, InterestStatus>
    var matches: map<MatchId, MatchRow>
    var viewings: Viewings

    /** The tables are in order. */
    ghost predicate Valid()
      reads this
    {
      U.Healthy(Tables())
    }

    constructor ()
      ensures Valid()
      ensures Tables() == NO_DATA
    {
      profiles, listings, blocks, suspended, gone := map[], map[], {}, {}, {};
      interests, matches, viewings := map[], map[], map[];
    }

    function Tables(): Db
      reads this
    {
      Db(Catalog(profiles, listings, blocks, suspended, gone), Ledger(interests, matches), viewings)
    }

    /** The shared transaction of both express handlers. */
    method ExpressInterest(actor: UserId, pair: Pair, role: Role, id: MatchId) returns (answer: H.Answer)
      requires Valid() && id !in matches
      modifies this`interests, this`matches
      ensures Valid()
      ensures (Tables(), answer) == H.Express(old(Tables()), actor, pair, role, id)
      ensures answer.Pending? || answer.Matched? <==> M.MayExpress(old(Tables()).catalog, actor, pair, role)
    {
      M.AcceptedIff(Tables(), actor, pair, role, id);
      U.ExpressHealthy(Tables(), actor, pair, role, id);
      if pair.profile !in profiles || profiles[pair.profile].deleted { return H.NotFound; }
      var profile := profiles[pair.profile];
      if !profile.active { return H.ProfileInactive; }
      if role == Tenant && profile.owner != actor { return H.Forbidden; }
      if pair.listing !in listings || listings[pair.listing].deleted || listings[pair.listing].adminRemoved {
        return H.NotFound;
      }
      var listing := listings[pair.listing];
      if listing.status != Open { return H.ListingNotActive; }
      if role == Landlord && listing.owner != actor { return H.Forbidden; }
      if (profile.owner, listing.owner) in blocks || (listing.owner, profile.owner) in blocks { return H.UsersBlocked; }
      interests := interests[InterestKey(pair, role) := Wanted];
      var counter := InterestKey(pair, role.Other());
      if counter !in interests || interests[counter] != Wanted { return H.Pending; }
      if !exists m <- matches :: matches[m].pair == pair {
        matches := matches[id := MatchRow(pair, profile.owner, listing.owner, Active, false)];
      }
      return H.Matched(if role == Tenant then listing.owner else profile.owner);
    }

    method WithdrawInterest(actor: UserId, pair: Pair, role: Role) returns (answer: H.Answer)
      requires Valid()
      modifies this`interests
      ensures Valid()
      ensures (Tables(), answer) == H.Withdraw(old(Tables()), actor, pair, role)
      ensures answer == H.WithdrawnOk <==>
        var d := old(Tables());
        && M.SideThere(d.catalog, pair, role) && M.OwnsSide(d.catalog, actor, pair, role)
        && !M.HasMatch(d.ledger, pair)
    {
      M.WithdrawMeans(Tables(), actor, pair, role);
      U.WithdrawHealthy(Tables(), actor, pair, role);
      if role == Tenant {
        if pair.profile !in profiles || profiles[pair.profile].deleted { return H.NotFound; }
        if profiles[pair.profile].owner != actor { return H.Forbidden; }
      } else {
        if pair.listing !in listings || listings[pair.listing].deleted { return H.NotFound; }
        if listings[pair.listing].owner != actor { return H.Forbidden; }
      }
      if exists m <- matches :: matches[m].pair == pair && !matches[m].deleted { return H.AlreadyMatched; }
      var k := InterestKey(pair, role);
      if k in interests && interests[k] == Wanted {
        interests := interests[k := Withdrawn];
      }
      return H.WithdrawnOk;
    }

    /** Counts the occupied viewings of a listing by start, one row at a time. */
    method CountBookedStarts(l: ListingId) returns (booked: map<int, nat>)
      ensures forall t :: BookedAt(booked, t) == Occupancy(viewings, l, t)
      ensures booked == BookedStarts(viewings, l)
    {
      var rows := set v <- viewings | viewings[v].Occupies() && viewings[v].pair.listing == l;
      var left := rows;
      booked := map[];
      while left != {}
        invariant left <= rows
        invariant forall t :: BookedAt(booked, t) == |StartingAt(viewings, rows - left, t)|
        invariant forall t <- booked :: booked[t] > 0
        decreases |left|
      {
        var v :| v in left;
        var t := viewings[v].start;
        CountsOneMore(viewings, rows, left, v);
        booked := booked[t := BookedAt(booked, t) + 1];
        left := left - {v};
      }
      forall t ensures BookedAt(booked, t) == Occupancy(viewings, l, t) {
        assert StartingAt(viewings, rows - left, t) == OccupiersAt(viewings, l, t);
      }
      BookedStartsUnique(viewings, l, booked);
    }

    /** The claim inside a booking or rescheduling transaction, once the slot is locked. */
    method ClaimSlot(l: ListingId, start: int, now: int) returns (claim: H.Claim)
      ensures claim == H.ClaimSlot(Tables().catalog, viewings, l, start, now)
    {
      if l !in listings || listings[l].deleted { return H.Refused(H.Internal); }
      var booked := CountBookedStarts(l);
      var end := ValidateOpenSlot(listings[l].availability, now, booked, start);
      if end.None? { return H.Refused(H.SlotFull); }
      return H.Claimed(end.value);
    }

    method BookViewing(actor: UserId, m: MatchId, start: int, now: int, id: ViewingId) returns (answer: H.Answer)
      requires Valid() && id !in viewings
      modifies this`viewings
      ensures Valid()
      ensures (Tables(), answer) == H.Book(old(Tables()), actor, m, start, now, id)
    {
      U.BookHealthy(Tables(), actor, m, start, now, id);
      if m !in matches || matches[m].deleted { return H.NotFound; }
      var row := matches[m];
      if row.tenant != actor { return H.Forbidden; }
      if row.status != Active { return H.MatchNotActive; }
      var claim := ClaimSlot(row.pair.listing, start, now);
      if claim.Refused? { return claim.answer; }
      if exists v <- viewings :: viewings[v].matchId == m && viewings[v].Occupies() { return H.AlreadyBooked; }
      viewings := viewings[id := ViewingRow(m, row.pair, row.tenant, row.landlord, start, claim.end, Confirmed, false)];
      return H.Booked(id, start, claim.end);
    }

    method RescheduleViewing(actor: UserId, v: ViewingId, start: int, now: int) returns (answer: H.Answer)
      requires Valid()
      modifies this`viewings
      ensures Valid()
      ensures (Tables(), answer) == H.Reschedule(old(Tables()), actor, v, start, now)
    {
      U.RescheduleHealthy(Tables(), actor, v, start, now);
      if v !in viewings || viewings[v].deleted { return H.NotFound; }
      var row := viewings[v];
      if actor != row.tenant && actor != row.landlord { return H.Forbidden; }
      if row.status != Confirmed { return H.NotConfirmed; }
      var claim := ClaimSlot(row.pair.listing, start, now);
      if claim.Refused? { return claim.answer; }
      viewings := viewings[v := row.(start := start, end := claim.end)];
      return H.Moved(start, claim.end);
    }

    method CancelViewing(actor: UserId, v: ViewingId) returns (answer: H.Answer)
      requires Valid()
      modifies this`viewings
      ensures Valid()
      ensures (Tables(), answer) == H.Cancel(old(Tables()), actor, v)
      ensures answer == H.Ok <==> old(v in viewings && !viewings[v].deleted && viewings[v].Names(actor)
          && viewings[v].status == Confirmed)
      ensures viewings.Keys == old(viewings.Keys)
      ensures forall w <- viewings :: w != v || answer != H.Ok ==> viewings[w] == old(viewings[w])
      ensures answer == H.Ok ==> viewings[v] == old(viewings[v]).(status := viewings[v].status) && viewings[v].Ended()
      ensures answer == H.Ok ==> (viewings[v].status == CancelledLandlord <==> actor == viewings[v].landlord)
    {
      U.CancelHealthy(Tables(), actor, v);
      H.CancelMeans(Tables(), actor, v);
      if v !in viewings || viewings[v].deleted { return H.NotFound; }
      var row := viewings[v];
      if actor != row.tenant && actor != row.landlord { return H.Forbidden; }
      if row.status != Confirmed { return H.NotConfirmed; }
      var newStatus := Cancelled;
      if actor == row.landlord { newStatus := CancelledLandlord; }
      viewings := viewings[v := row.(status := newStatus)];
      return H.Ok;
    }

    method SetAttendance(actor: UserId, v: ViewingId) returns (answer: H.Answer)
      requires Valid()
      modifies this`viewings
      ensures Valid()
      ensures (Tables(), answer) == H.Attend(old(Tables()), actor, v)
      ensures answer == H.Ok <==> old(v in viewings && !viewings[v].deleted && viewings[v].landlord == actor
          && !viewings[v].Ended())
      ensures viewings.Keys == old(viewings.Keys)
      ensures forall w <- viewings :: w != v || answer != H.Ok ==> viewings[w] == old(viewings[w])
      ensures answer == H.Ok ==> viewings[v] == old(viewings[v]).(status := Completed)
    {
      U.AttendHealthy(Tables(), actor, v);
      H.AttendMeans(Tables(), actor, v);
      if v !in viewings || viewings[v].landlord != actor || !viewings[v].Occupies() { return H.NotFound; }
      viewings := viewings[v := viewings[v].(status := Completed)];
      return H.Ok;
    }

    /** Renting out updates the listing, then its matches, then its viewings. */
    method UpdateListingStatus(actor: UserId, l: ListingId, status: ListingStatus, publishable: bool)
        returns (answer: H.Answer)
      requires Valid()
      modifies this`listings, this`matches, this`viewings
      ensures Valid()
      ensures (Tables(), answer) == H.SetListingStatus(old(Tables()), actor, l, status, publishable)
    {
      U.SetStatusHealthy(Tables(), actor, l, status, publishable);
      if l !in listings || listings[l].deleted { return H.NotFound; }
      if listings[l].owner != actor { return H.Forbidden; }
      if status == Draft || (status == Open && !publishable) { return H.BadRequest; }
      listings := listings[l := listings[l].(status := status)];
      if status == Rented {
        matches := map m | m in matches ::
          if matches[m].pair.listing == l && matches[m].status == Active && !matches[m].deleted
          then matches[m].(status := ListingRented) else matches[m];
        viewings := map v | v in viewings ::
          if viewings[v].pair.listing == l && viewings[v].status == Confirmed && !viewings[v].deleted
          then viewings[v].(status := CancelledLandlord) else viewings[v];
      }
      return H.Ok;
    }

    /** One statement of the deletion loop. */
    method Execute(p: H.Purge, u: UserId)
      modifies this`interests, this`matches, this`viewings, this`blocks
      ensures Tables() == H.ApplyPurge(old(Tables()), p, u)
    {
      match p {
        case InterestsByProfile => interests := H.DropInterests(interests, u);
        case MatchesByTenant => matches := H.DropMatches(matches, u, true);
        case MatchesByLandlord => matches := H.DropMatches(matches, u, false);
        case ViewingsByTenant => viewings := H.DropViewings(viewings, u, true);
        case ViewingsByLandlord => viewings := H.DropViewings(viewings, u, false);
        case BlocksByBlocker => blocks := set b <- blocks | b.0 != u;
        case BlocksByBlocked => blocks := set b <- blocks | b.1 != u;
      }
    }

    method DeleteAccount(u: UserId)
      requires Valid()
      modifies this
      ensures Tables() == H.DeleteAccount(old(Tables()), u) && L.Ok(Tables())
      ensures interests == old(interests) <==> old(forall k <- interests :: k.pair.profile != u)
      ensures Valid() <==> old(forall m <- matches :: !U.Struck(Tables(), u, m))
    {
      L.DeleteAccountGood(Tables(), u);
      U.DeleteAccountHealthyIff(Tables(), u);
      H.InterestsStandIff(Tables(), u);
      var c := H.DropOwned(Tables().catalog, u);
      profiles, listings := c.profiles, c.listings;
      ghost var before := Tables();
      for i := 0 to |H.PURGES|
        invariant Tables() == H.ApplyPurges(before, i, u)
      {
        Execute(H.PURGES[i], u);
      }
      gone := gone + {u};
    }

    method BlockUser(actor: UserId, target: UserId, targetExists: bool) returns (answer: H.Answer)
      requires Valid()
      modifies this`blocks
      ensures Valid()
      ensures (Tables(), answer) == H.Block(old(Tables()), actor, target, targetExists)
      ensures answer == H.Ok <==> actor != target && targetExists && target !in gone
      ensures forall a, b :: (a, b) in blocks <==>
        (a, b) in old(blocks) || (answer == H.Ok && a == actor && b == target)
    {
      U.BlocksHealthy(Tables(), H.Block(Tables(), actor, target, targetExists).0);
      if actor == target { return H.BadRequest; }
      if !targetExists || target in gone { return H.NotFound; }
      blocks := blocks + {(actor, target)};
      return H.Ok;
    }

    method UnblockUser(actor: UserId, target: UserId) returns (answer: H.Answer)
      requires Valid()
      modifies this`blocks
      ensures Valid()
      ensures (Tables(), answer) == H.Unblock(old(Tables()), actor, target)
      ensures answer == H.Ok
      ensures forall a, b :: (a, b) in blocks <==> (a, b) in old(blocks) && !(a == actor && b == target)
    {
      U.BlocksHealthy(Tables(), H.Unblock(Tables(), actor, target).0);
      blocks := blocks - {(actor, target)};
      return H.Ok;
    }
  }

  ghost function StartingAt(viewings: Viewings, some: set<ViewingId>, t: int): set<ViewingId>
    requires some <= viewings.Keys
  {
    set v <- some | viewings[v].start == t
  }

  lemma CountsOneMore(viewings: Viewings, rows: set<ViewingId>, left: set<ViewingId>, v: ViewingId)
    requires rows <= viewings.Keys && left <= rows && v in left
    ensures forall t :: |StartingAt(viewings, rows - (left - {v}), t)|
                     == |StartingAt(viewings, rows - left, t)| + if t == viewings[v].start then 1 else 0
  {
    var t0 := viewings[v].start;
    assert StartingAt(viewings, rows - (left - {v}), t0) == StartingAt(viewings, rows - left, t0) + {v};
    forall t | t != t0 ensures StartingAt(viewings, rows - (left - {v}), t) == StartingAt(viewings, rows - left, t) {}
  }

  /** A positive count by start determines the map. */
  lemma BookedStartsUnique(viewings: Viewings, l: ListingId, booked: map<int, nat>)
    requires forall t :: BookedAt(booked, t) == Occupancy(viewings, l, t)
    requires forall t <- booked :: booked[t] > 0
    ensures booked == BookedStarts(viewings, l)
  {
    var other := BookedStarts(viewings, l);
    forall t ensures t in booked <==> t in other {
      BookedStartsCounts(viewings, l, t);
      if t in other {
        var v :| v in viewings && viewings[v].Occupies() && viewings[v].pair.listing == l && viewings[v].start == t;
        assert v in OccupiersAt(viewings, l, t);
      }
      if t in booked {
        assert OccupiersAt(viewings, l, t) != {};
        var v :| v in OccupiersAt(viewings, l, t);
      }
    }
    forall t <- booked ensures booked[t] == other[t] {
      BookedStartsCounts(viewings, l, t);
    }
  }
}
