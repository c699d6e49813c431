/** What every reachable state of the protocol machine satisfies. */
module ProtocolInvariant {
  import opened Base
  import opened Slots
  import opened Schema
  import H = Handlers
  import opened Protocol

  // ---- the committed tables -----------------------------------------------------

  ghost predicate OneMatchPerPair(g: Ledger) {
    forall a <- g.matches, b <- g.matches :: g.matches[a].pair == g.matches[b].pair ==> a == b
  }

  /** Both sides interested: there is a match row. */
  ghost predicate NoMissedMatch(g: Ledger) {
    forall p: Pair :: g.BothInterested(p) ==> g.HasMatch(p)
  }

  /** An undeleted match: neither side has withdrawn. */
  ghost predicate MatchesAreMutual(g: Ledger) {
    forall m <- g.matches :: !g.matches[m].deleted ==> g.BothInterested(g.matches[m].pair)
  }

  ghost predicate LedgerOk(g: Ledger) { OneMatchPerPair(g) && NoMissedMatch(g) && MatchesAreMutual(g) }

  ghost predicate OwnedBy(c: Catalog, pair: Pair, tenant: UserId, landlord: UserId) {
    && pair.profile in c.profiles && c.profiles[pair.profile].owner == tenant
    && pair.listing in c.listings && c.listings[pair.listing].owner == landlord
  }

  ghost predicate MatchPartiesOk(db: Db) {
    forall m <- db.ledger.matches ::
      OwnedBy(db.catalog, db.ledger.matches[m].pair, db.ledger.matches[m].tenant, db.ledger.matches[m].landlord)
  }

  ghost predicate SameParties(g: Ledger, v: ViewingRow) {
    && v.matchId in g.matches && g.matches[v.matchId].pair == v.pair
    && g.matches[v.matchId].tenant == v.tenant && g.matches[v.matchId].landlord == v.landlord
  }

  ghost predicate ViewingPartiesOk(db: Db) {
    forall v <- db.viewings :: SameParties(db.ledger, db.viewings[v])
  }

  /** Only an account deletion deletes a match, and nothing unmatches one. */
  ghost predicate MatchStateOk(c: Catalog, m: MatchRow) {
    && m.status != Unmatched
    && (m.deleted ==> m.tenant in c.gone || m.landlord in c.gone)
  }

  ghost predicate MatchStatesOk(db: Db) {
    forall m <- db.ledger.matches :: MatchStateOk(db.catalog, db.ledger.matches[m])
  }

  ghost predicate OneViewingPerMatch(viewings: Viewings) {
    forall a <- viewings, b <- viewings ::
      viewings[a].Occupies() && viewings[b].Occupies() && viewings[a].matchId == viewings[b].matchId ==> a == b
  }

  ghost predicate CapacityOk(s: State) {
    forall l: ListingId, t: int :: Occupancy(s.db.viewings, l, t) <= PeakOf(s, l)
  }

  ghost predicate PeakOk(s: State) {
    forall l <- s.db.catalog.listings :: Capacity(s.db.catalog.listings[l].availability) <= PeakOf(s, l)
  }

  ghost predicate TablesOk(s: State) {
    && LedgerOk(s.db.ledger) && MatchPartiesOk(s.db) && ViewingPartiesOk(s.db) && MatchStatesOk(s.db)
    && OneViewingPerMatch(s.db.viewings) && CapacityOk(s) && PeakOk(s)
  }

  // ---- a transaction in flight ----------------------------------------------------

  ghost predicate Holds(cfg: Config, s: State, t: TxId, name: LockName) {
    cfg.hash(name) in s.locks && s.locks[cfg.hash(name)] == t
  }

  ghost predicate SeenOwnersOk(c: Catalog, seen: H.Seen, pair: Pair) {
    && (seen.profile.Some? ==> pair.profile in c.profiles && c.profiles[pair.profile].owner == seen.profile.value.owner)
    && (seen.listing.Some? ==> pair.listing in c.listings && c.listings[pair.listing].owner == seen.listing.value.owner)
  }

  function Want(pair: Pair, role: Role): Write { PutInterest(InterestKey(pair, role), Wanted) }

  /** The counterpart is interested and the match row exists or is about to be written. */
  ghost predicate MatchReady(s: State, t: TxId, tx: Tx) requires tx.req.Express? {
    var Express(actor, pair, role) := tx.req;
    && tx.seen.profile.Some? && tx.seen.listing.Some?
    && s.db.ledger.Interested(pair, role.Other())
    && (if s.db.ledger.HasMatch(pair) then tx.writes == [Want(pair, role)]
        else tx.writes == [Want(pair, role), InsertMatch(t, H.NewMatch(tx.seen, pair))])
  }

  ghost predicate ExpressOk(cfg: Config, s: State, t: TxId, tx: Tx) requires tx.req.Express? {
    var Express(actor, pair, role) := tx.req;
    var passed := H.ExpressRefusal(tx.seen, actor, role).None?;
    && (tx.Live() && !tx.pc.XLock? ==> Holds(cfg, s, t, OnPair(pair)))
    && SeenOwnersOk(s.db.catalog, tx.seen, pair)
    && match tx.pc
       case XLock => tx.writes == []
       case XProfile => tx.writes == []
       case XListing => tx.writes == [] && H.CheckProfile(tx.seen.profile, actor, role).None?
       case XBlocks => tx.writes == [] && H.CheckProfile(tx.seen.profile, actor, role).None?
                       && H.CheckListing(tx.seen.listing, actor, role).None?
       case XUpsert => passed && tx.writes == []
       case XCounter => passed && tx.writes == [Want(pair, role)]
       case XInsert => passed && tx.writes == [Want(pair, role)] && s.db.ledger.Interested(pair, role.Other())
       case XContact => passed && MatchReady(s, t, tx)
       case Commit(a) => passed &&
         if a == H.Pending then tx.writes == [Want(pair, role)] && !s.db.ledger.Interested(pair, role.Other())
         else MatchReady(s, t, tx) && a == H.Matched(H.ContactShown(tx.seen, role))
       case Rollback(_) => true
       case Finished(_) => true
       case Crashed => true
       case _ => false
  }

  ghost predicate WithdrawOk(cfg: Config, s: State, t: TxId, tx: Tx) requires tx.req.Withdraw? {
    var Withdraw(actor, pair, role) := tx.req;
    var passed := H.WithdrawRefusal(tx.seen, actor, role).None?;
    && (tx.Live() && !tx.pc.WLock? ==> Holds(cfg, s, t, OnPair(pair)))
    && match tx.pc
       case WLock => tx.writes == []
       case WOwner => tx.writes == []
       case WMatched => passed && tx.writes == []
       case WUpdate => passed && tx.writes == [] && !s.db.ledger.HasLiveMatch(pair)
       case Commit(a) => passed && a == H.WithdrawnOk && !s.db.ledger.HasLiveMatch(pair)
         && (if s.db.ledger.Interested(pair, role) then tx.writes == [PutInterest(InterestKey(pair, role), Withdrawn)]
             else tx.writes == [])
       case Rollback(_) => true
       case Finished(_) => true
       case Crashed => true
       case _ => false
  }

  ghost predicate MatchRowOk(g: Ledger, m: MatchId, row: MatchRow) {
    m in g.matches && g.matches[m].pair == row.pair && g.matches[m].tenant == row.tenant
        && g.matches[m].landlord == row.landlord
  }

  /** The schedule read offers the slot, leaving aside how many places are taken. */
  ghost predicate OnOffer(c: SlotClaim) {
    OpenSlotEnd(c.av, c.now, map[], c.start) == Some(c.end) && c.capacity == Capacity(c.av)
  }

  /** A claim still has room: the slot is locked and the count read can only have dropped. */
  ghost predicate ClaimOk(cfg: Config, s: State, t: TxId, c: SlotClaim) {
    && OnOffer(c)
    && Holds(cfg, s, t, OnSlot(c.listing, c.start))
    && Occupancy(s.db.viewings, c.listing, c.start) < c.capacity <= PeakOf(s, c.listing)
  }

  /** The match row was on, and its tenant is the one who books. */
  ghost predicate ReadOk(g: Ledger, m: MatchId, row: MatchRow, actor: UserId) {
    MatchRowOk(g, m, row) && H.BookRefusal(Some(row), actor).None?
  }

  ghost predicate BookOk(cfg: Config, s: State, t: TxId, tx: Tx) requires tx.req.Book? {
    var Book(actor, m, start) := tx.req;
    match tx.pc
    case BMatch => tx.writes == []
    case BLock(row) => tx.writes == [] && ReadOk(s.db.ledger, m, row, actor)
    case BAvail(row) =>
      tx.writes == [] && ReadOk(s.db.ledger, m, row, actor) && Holds(cfg, s, t, OnSlot(row.pair.listing, start))
    case BBooked(row, av) =>
      tx.writes == [] && ReadOk(s.db.ledger, m, row, actor) && Holds(cfg, s, t, OnSlot(row.pair.listing, start))
                            && Capacity(av) <= PeakOf(s, row.pair.listing)
    case BInsert(row) => tx.writes == [] && ReadOk(s.db.ledger, m, row, actor)
                         && tx.claim.Some? && tx.claim.value.listing == row.pair.listing
                              && tx.claim.value.start == start
                         && ClaimOk(cfg, s, t, tx.claim.value)
    case Commit(a) => tx.claim.Some? && a == H.Booked(t, start, tx.claim.value.end)
                      && tx.claim.value.start == start && ClaimOk(cfg, s, t, tx.claim.value)
                      && m in s.entries && s.entries[m] == t && !MatchHasViewing(s.db.viewings, m)
                      && m in s.db.ledger.matches && s.db.ledger.matches[m].pair.listing == tx.claim.value.listing
                      && s.db.ledger.matches[m].tenant == actor
                      && tx.writes == [InsertViewing(t,
                          H.NewViewing(m, s.db.ledger.matches[m], start, tx.claim.value.end))]
    case Rollback(_) => true
    case Finished(_) => true
    case Crashed => true
    case _ => false
  }

  /** The viewing row is locked and unchanged since it was read. */
  ghost predicate RowOk(s: State, t: TxId, v: ViewingId, was: ViewingRow, actor: UserId) {
    v in s.rows && s.rows[v] == t && v in s.db.viewings && s.db.viewings[v] == was && was.status == Confirmed
        && !was.deleted
    && was.Names(actor)
  }

  ghost predicate RescheduleOk(cfg: Config, s: State, t: TxId, tx: Tx) requires tx.req.Reschedule? {
    var Reschedule(actor, v, start) := tx.req;
    match tx.pc
    case RRow => tx.writes == []
    case RLock(was) => tx.writes == [] && RowOk(s, t, v, was, actor)
    case RAvail(was) =>
      tx.writes == [] && RowOk(s, t, v, was, actor) && Holds(cfg, s, t, OnSlot(was.pair.listing, start))
    case RBooked(was, av) =>
      tx.writes == [] && RowOk(s, t, v, was, actor) && Holds(cfg, s, t, OnSlot(was.pair.listing, start))
                             && Capacity(av) <= PeakOf(s, was.pair.listing)
    case RUpdate(was) => tx.writes == [] && RowOk(s, t, v, was, actor)
                         && tx.claim.Some? && tx.claim.value.listing == was.pair.listing
                              && tx.claim.value.start == start
                         && ClaimOk(cfg, s, t, tx.claim.value)
    case Commit(a) => tx.claim.Some? && a == H.Moved(start, tx.claim.value.end) && v in s.db.viewings
                      && RowOk(s, t, v, s.db.viewings[v], actor)
                      && tx.claim.value.listing == s.db.viewings[v].pair.listing && tx.claim.value.start == start
                      && ClaimOk(cfg, s, t, tx.claim.value)
                      && tx.writes == [MoveViewing(v, start, tx.claim.value.end)]
    case Rollback(_) => true
    case Finished(_) => true
    case Crashed => true
    case _ => false
  }

  ghost predicate CancelOk(tx: Tx) requires tx.req.Cancel? {
    match tx.pc
    case CRead => true
    case CUpdate(to) => to in {Cancelled, CancelledLandlord}
    case Rollback(_) => true
    case Finished(_) => true
    case Crashed => true
    case _ => false
  }

  ghost predicate TxOk(cfg: Config, s: State, t: TxId, tx: Tx) {
    && (tx.Live() ==> t !in s.db.ledger.matches && t !in s.db.viewings)
    && match tx.req
       case Express(_, _, _) => ExpressOk(cfg, s, t, tx)
       case Withdraw(_, _, _) => WithdrawOk(cfg, s, t, tx)
       case Book(_, _, _) => BookOk(cfg, s, t, tx)
       case Reschedule(_, _, _) => RescheduleOk(cfg, s, t, tx)
       case Cancel(_, _) => CancelOk(tx)
  }

  ghost predicate TxsOk(cfg: Config, s: State) {
    forall t {:trigger TxOk(cfg, s, t, s.txs[t])} | t in s.txs :: TxOk(cfg, s, t, s.txs[t])
  }

  ghost predicate Inv(cfg: Config, s: State) { TablesOk(s) && TxsOk(cfg, s) }

  /** Nothing in flight, tables in order: where runs start.  Empty tables qualify. */
  ghost predicate Initial(s: State) {
    TablesOk(s) && s.txs == map[] && s.locks == map[] && s.rows == map[] && s.entries == map[] && s.log == []
        && s.tickets == 0
  }

  /** A service with no data yet is a start. */
  lemma EmptyIsInitial()
    ensures Initial(State(NO_DATA, map[], map[], map[], map[], map[], 0, []))
  {
    forall l: ListingId, t: int ensures OccupiersAt(map[], l, t) == {} {}
  }
}
