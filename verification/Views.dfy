/** The read side: match lists, incoming and outgoing interest, the viewing list. */
module Views {
  import opened Base
  import opened Schema
  import M = Meanings

  // Each list is one statement over the committed tables.

  /** The matches of one profile; the owner check comes first. */
  function ProfileMatches(db: Db, user: UserId, p: ProfileId): set<MatchId> {
    var row := db.catalog.VisibleProfile(p);
    if row.None? || row.value.owner != user then {}
    else set m <- db.ledger.matches | var r := db.ledger.matches[m];
           r.pair.profile == p && r.status == Active && !r.deleted && !db.catalog.Blocked(r.tenant, r.landlord)
  }

  function MutualMatches(db: Db, user: UserId): set<MatchId> {
    set m <- db.ledger.matches | var r := db.ledger.matches[m];
      r.Names(user) && r.status in {Active, ListingRented} && !r.deleted && !db.catalog.Blocked(r.tenant, r.landlord)
  }

  /** Whose contact a row of the mutual list shows. */
  function MutualContact(r: MatchRow, user: UserId): UserId { if r.tenant == user then r.landlord else r.tenant }

  datatype Side = TenantSide | LandlordSide | BothSides

  predicate OnSide(v: ViewingRow, user: UserId, side: Side) {
    match side
    case TenantSide => v.tenant == user
    case LandlordSide => v.landlord == user
    case BothSides => v.Names(user)
  }

  function ListViewings(db: Db, user: UserId, side: Side): set<ViewingId> {
    set v <- db.viewings | var r := db.viewings[v];
      OnSide(r, user, side) && !r.deleted && !db.catalog.Blocked(r.tenant, r.landlord)
  }

  /** Whose contact a row of the viewing list shows: nobody's once the match is not active. */
  function ViewingContact(db: Db, r: ViewingRow, user: UserId): Option<UserId> {
    var g := db.ledger;
    if r.matchId in g.matches && !g.matches[r.matchId].deleted && g.matches[r.matchId].status == Active
    then Some(if r.tenant == user then r.landlord else r.tenant)
    else None
  }

  // ---- row by row: who is listed what ---------------------------------------------------

  /** No block either way. */
  ghost predicate OnTerms(c: Catalog, a: UserId, b: UserId) { forall x <- c.blocks :: {x.0, x.1} != {a, b} }

  lemma OnTermsIs(c: Catalog, a: UserId, b: UserId)
    ensures OnTerms(c, a, b) <==> !c.Blocked(a, b)
  {
    if x :| x in c.blocks && {x.0, x.1} == {a, b} {
      assert x.0 in {a, b} && x.1 in {a, b} && a in {x.0, x.1} && b in {x.0, x.1};
      assert x == (a, b) || x == (b, a);
    }
    assert (a, b) in c.blocks ==> {(a, b).0, (a, b).1} == {a, b};
    assert (b, a) in c.blocks ==> {(b, a).0, (b, a).1} == {a, b};
  }

  /**
   A profile's owner is listed its active matches, a party every match that is on or was ended by a renting out,
   except where the parties are blocked.
   */
  lemma MatchListsMean(db: Db, user: UserId, p: ProfileId, m: MatchId)
    ensures m in ProfileMatches(db, user, p) <==>
      && M.ProfileThere(db.catalog, p) && db.catalog.profiles[p].owner == user
      && M.MatchOn(db.ledger, m) && db.ledger.matches[m].pair.profile == p
      && OnTerms(db.catalog, db.ledger.matches[m].tenant, db.ledger.matches[m].landlord)
    ensures m in MutualMatches(db, user) <==>
      && M.MatchThere(db.ledger, m) && db.ledger.matches[m].status != Unmatched
      && user in {db.ledger.matches[m].tenant, db.ledger.matches[m].landlord}
      && OnTerms(db.catalog, db.ledger.matches[m].tenant, db.ledger.matches[m].landlord)
  {
    if m in db.ledger.matches {
      var row := db.ledger.matches[m];
      OnTermsIs(db.catalog, row.tenant, row.landlord);
      match row.status
      case Active =>
      case ListingRented =>
      case Unmatched =>
    }
  }

  /**
   A party is listed every undeleted viewing of the side asked for, except where the parties are blocked, with the
   other's contact exactly while the match is on.
   */
  lemma ViewingListMeans(db: Db, user: UserId, side: Side, v: ViewingId)
    ensures v in ListViewings(db, user, side) <==>
      && M.ViewingThere(db.viewings, v)
      && ((side != LandlordSide && db.viewings[v].tenant == user)
           || (side != TenantSide && db.viewings[v].landlord == user))
      && OnTerms(db.catalog, db.viewings[v].tenant, db.viewings[v].landlord)
    ensures v in db.viewings ==>
      var row := db.viewings[v];
      ViewingContact(db, row, user) == if !M.MatchOn(db.ledger, row.matchId) then None
                                       else if row.tenant == user then Some(row.landlord) else Some(row.tenant)
  {
    if v in db.viewings {
      OnTermsIs(db.catalog, db.viewings[v].tenant, db.viewings[v].landlord);
      match side
      case TenantSide =>
      case LandlordSide =>
      case BothSides =>
    }
  }

  predicate Shown(c: Catalog, pair: Pair) {
    && pair.profile in c.profiles && pair.listing in c.listings
    && !c.Blocked(c.profiles[pair.profile].owner, c.listings[pair.listing].owner)
  }

  predicate OwnsSide(c: Catalog, user: UserId, pair: Pair, role: Role)
    requires Shown(c, pair)
  {
    if role == Tenant then c.profiles[pair.profile].owner == user else c.listings[pair.listing].owner == user
  }

  /** Interest sent to `user` that the user has not answered. */
  function Incoming(db: Db, user: UserId): set<InterestKey> {
    set k <- db.ledger.interests |
      && Shown(db.catalog, k.pair) && OwnsSide(db.catalog, user, k.pair, k.role.Other())
      && db.ledger.Interested(k.pair, k.role) && !db.ledger.Interested(k.pair, k.role.Other())
  }

  /** Interest `user` has sent that has not been answered. */
  function Outgoing(db: Db, user: UserId): set<InterestKey> {
    set k <- db.ledger.interests |
      && Shown(db.catalog, k.pair) && OwnsSide(db.catalog, user, k.pair, k.role)
      && db.ledger.Interested(k.pair, k.role) && !db.ledger.Interested(k.pair, k.role.Other())
  }

  // ---- one pair in one user's lists ---------------------------------------------

  predicate InIncoming(db: Db, user: UserId, pair: Pair) { exists k <- Incoming(db, user) :: k.pair == pair }

  predicate InOutgoing(db: Db, user: UserId, pair: Pair) { exists k <- Outgoing(db, user) :: k.pair == pair }

  predicate InMutual(db: Db, user: UserId, pair: Pair) {
    exists m <- MutualMatches(db, user) :: db.ledger.matches[m].pair == pair
  }

  predicate ExactlyOne(a: bool, b: bool, c: bool) { (a && !b && !c) || (!a && b && !c) || (!a && !b && c) }
}
