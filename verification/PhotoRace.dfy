/**
 Uploads, deletions, reorders and publishing of one listing, statement by statement.  A reorder checks the order
 before its transaction, an upload and a publish take no lock at all, so what the requests keep one at a time is
 not kept by all interleavings: what is, what is not, by how much, and at which step.
 */
module PhotoRace {
  import opened Base
  import opened Photos

  /** An upload asks for the count, is told the next position, and inserts. */
  datatype Progress = Asked | Counted | Told(position: int)

  type OrderId = nat

  /** A reorder between its two updates: the rows it has negated, and holds locked. */
  datatype Parking = Parking(request: seq<PhotoId>, ids: set<PhotoId>)

  /**
   `accepted` are the orders that have passed the checks and not begun to write; `checked` is a publish that has
   seen a photo and has its update still to do.
   */
  datatype State = State(
    rows: Table, uploads: map<PhotoId, Progress>, accepted: map<OrderId, seq<PhotoId>>, parked: Option<Parking>,
    open: bool, checked: bool)

  datatype Event =
    | Begin(id: PhotoId) | Count(id: PhotoId) | Read(id: PhotoId, max: int) | Insert(id: PhotoId) | Drop(id: PhotoId)
    | Remove(id: PhotoId)
    | Accept(r: OrderId, request: seq<PhotoId>) | Park(r: OrderId, order: seq<PhotoId>) | Rank(order: seq<PhotoId>)
    | Abort
    | Check | Publish | Unpublish

  predicate At(s: State, id: PhotoId, p: Progress) { id in s.uploads && s.uploads[id] == p }

  function ParkedIds(s: State): set<PhotoId> { if s.parked.Some? then s.parked.value.ids else {} }

  function Negated(t: Table, ids: set<PhotoId>): Table {
    map p | p in t :: if p in ids then t[p].(position := -t[p].position) else t[p]
  }

  /** The rows as the reorder in flight sees them. */
  function View(s: State): Table { Negated(s.rows, ParkedIds(s)) }

  /** The insert goes through: the index has neither the committed nor the parked value. */
  predicate Inserts(s: State, e: Event) {
    && e.Insert? && e.id in s.uploads && s.uploads[e.id].Told?
    && Free(s.rows, e.id, s.uploads[e.id].position) && Free(View(s), e.id, s.uploads[e.id].position)
  }

  /** The position is held by a row that no transaction is changing. */
  predicate Taken(s: State, id: PhotoId, position: int) {
    exists q <- s.rows :: s.rows[q].live && q != id && q !in ParkedIds(s) && s.rows[q].position == position
  }

  /** The live rows that an order names. */
  function NamedIn(t: Table, request: seq<PhotoId>): set<PhotoId> { set p <- Active(t) | p in request }

  function Named(s: State): set<PhotoId>
    requires s.parked.Some?
  {
    NamedIn(s.rows, s.parked.value.request)
  }

  /** What the second update makes of the rows, if the index lets it, visiting them in the given order. */
  ghost function Ranked(s: State, order: seq<PhotoId>): Option<Table>
    requires s.parked.Some? && Lists(order, Named(s))
  {
    WriteRows(View(s), order, RankTargets(s.parked.value.request))
  }

  /** An insert that meets a row being changed waits; one that meets another row fails. */
  function StepInsert(s: State, e: Event): State
    requires e.Insert?
  {
    if Inserts(s, e) then
      s.(uploads := s.uploads - {e.id}, rows := s.rows[e.id := Photo(s.uploads[e.id].position, true)])
    else if e.id in s.uploads && s.uploads[e.id].Told? && Taken(s, e.id, s.uploads[e.id].position) then
      s.(uploads := s.uploads - {e.id})
    else s
  }

  /**
   The live rows that the first update sees, in the order it visits them: the named ones, and of those inserted
   since the order was accepted the ones that were there when the statement began, which may have had to wait.
   */
  ghost predicate Sees(t: Table, request: seq<PhotoId>, order: seq<PhotoId>) {
    NoDuplicates(order) && (forall p <- order :: p in Active(t)) && forall p <- NamedIn(t, request) :: p in order
  }

  /** The first update. */
  ghost function StepPark(s: State, r: OrderId, order: seq<PhotoId>): State {
    if r !in s.accepted || s.parked.Some? || !Sees(s.rows, s.accepted[r], order) then s
    else if order == [] || WriteRows(s.rows, order, ParkTargets(s.rows)).None? then s.(accepted := s.accepted - {r})
    else s.(accepted := s.accepted - {r}, parked := Some(Parking(s.accepted[r], Elements(order))))
  }

  /** The second update and the commit. */
  ghost function StepRank(s: State, order: seq<PhotoId>): State {
    if s.parked.None? || !Lists(order, Named(s)) then s
    else if Ranked(s, order).None? then s.(parked := None)
    else s.(parked := None, rows := Ranked(s, order).value)
  }

  /** One statement; one that is not possible or has to wait changes nothing. */
  ghost function Step(s: State, e: Event): State {
    match e
    case Begin(id) => if id in s.rows || id in s.uploads then s else s.(uploads := s.uploads[id := Asked])
    case Count(id) =>
      if !At(s, id, Asked) then s
      else if |Active(s.rows)| >= MAX_PHOTOS then s.(uploads := s.uploads - {id})
      else s.(uploads := s.uploads[id := Counted])
    case Read(id, max) =>
      if At(s, id, Counted) && IsMaxPosition(s.rows, max) then s.(uploads := s.uploads[id := Told(max + 1)]) else s
    case Insert(_) => StepInsert(s, e)
    case Drop(id) => s.(uploads := s.uploads - {id})
    case Remove(id) => if id in ParkedIds(s) then s else s.(rows := Apply(s.rows, Delete(id)))
    case Accept(r, request) =>
      if r !in s.accepted && Lists(request, Active(s.rows)) then s.(accepted := s.accepted[r := request]) else s
    case Park(r, order) => StepPark(s, r, order)
    case Rank(order) => StepRank(s, order)
    case Abort => s.(parked := None)
    case Check => s.(checked := Active(s.rows) != {})
    case Publish => if s.checked then s.(open := true, checked := false) else s
    case Unpublish => s.(open := false)
  }

  ghost function Run(s: State, es: seq<Event>): State {
    if es == [] then s else Step(Run(s, es[..|es| - 1]), es[|es| - 1])
  }

  // ---- no two photos on one position -----------------------------------------------------------

  ghost predicate Sound(s: State) {
    && Distinct(s.rows) && Distinct(View(s))
    && (forall id <- s.uploads :: id !in s.rows)
    && (forall r <- s.accepted :: NoDuplicates(s.accepted[r]))
    && (s.parked.Some? ==> ParkedIds(s) <= Active(s.rows) && NoDuplicates(s.parked.value.request))
  }

  lemma NegatedPut(t: Table, ids: set<PhotoId>, p: PhotoId, row: Photo)
    requires p !in ids
    ensures Negated(t[p := row], ids) == Negated(t, ids)[p := row]
  {
  }

  lemma PutDistinct(t: Table, p: PhotoId, row: Photo)
    requires Distinct(t) && (row.live ==> Free(t, p, row.position))
    ensures Distinct(t[p := row])
  {
  }

  lemma InsertSound(s: State, e: Event)
    requires Sound(s) && e.Insert?
    ensures Sound(Step(s, e))
  {
    if Inserts(s, e) {
      var row := Photo(s.uploads[e.id].position, true);
      NegatedPut(s.rows, ParkedIds(s), e.id, row);
      PutDistinct(s.rows, e.id, row);
      PutDistinct(View(s), e.id, row);
    }
  }

  lemma RemoveSound(s: State, e: Event)
    requires Sound(s) && e.Remove?
    ensures Sound(Step(s, e))
  {
    if e.id !in ParkedIds(s) && e.id in Active(s.rows) {
      var row := s.rows[e.id].(live := false);
      NegatedPut(s.rows, ParkedIds(s), e.id, row);
      PutDistinct(s.rows, e.id, row);
      PutDistinct(View(s), e.id, row);
    }
  }

  lemma ParkedDistinct(t: Table, order: seq<PhotoId>)
    requires Distinct(t) && NoDuplicates(order) && forall p <- order :: p in Active(t)
    requires WriteRows(t, order, ParkTargets(t)).Some?
    ensures Distinct(Negated(t, Elements(order)))
  {
    WriteMeans(t, order, ParkTargets(t));
    assert Placed(t, Elements(order), ParkTargets(t)) == Negated(t, Elements(order));
  }

  lemma ParkSound(s: State, e: Event)
    requires Sound(s) && e.Park?
    ensures Sound(Step(s, e))
  {
    if Step(s, e).parked != s.parked { ParkedDistinct(s.rows, e.order); }
  }

  lemma Unparked(s: State)
    requires s.parked.None?
    ensures View(s) == s.rows
  {
    assert Negated(s.rows, {}) == s.rows;
  }

  /** The second update, if it goes through. */
  lemma RankMeans(s: State, order: seq<PhotoId>)
    requires Sound(s) && s.parked.Some? && Lists(order, Named(s)) && Ranked(s, order).Some?
    ensures Ranked(s, order).value == Placed(View(s), Named(s), RankTargets(s.parked.value.request))
    ensures Distinct(Ranked(s, order).value) && Active(Ranked(s, order).value) == Active(s.rows)
  {
    WriteMeans(View(s), order, RankTargets(s.parked.value.request));
    assert Elements(order) == Named(s);
    PlacedActive(View(s), Named(s), RankTargets(s.parked.value.request));
    NegatedActive(s.rows, ParkedIds(s));
  }

  lemma PlacedActive(t: Table, ids: set<PhotoId>, target: map<PhotoId, int>)
    requires forall p <- ids :: p in target
    ensures Active(Placed(t, ids, target)) == Active(t)
  {
  }

  lemma NegatedActive(t: Table, ids: set<PhotoId>)
    ensures Active(Negated(t, ids)) == Active(t)
  {
  }

  lemma RankSound(s: State, e: Event)
    requires Sound(s) && (e.Rank? || e.Abort?)
    ensures Sound(Step(s, e))
  {
    Unparked(Step(s, e).(parked := None));
    Unparked(s.(parked := None));
    if e.Rank? && s.parked.Some? && Lists(e.order, Named(s)) && Ranked(s, e.order).Some? { RankMeans(s, e.order); }
  }

  lemma OtherSound(s: State, e: Event)
    requires Sound(s) && !e.Insert? && !e.Remove? && !e.Park? && !e.Rank? && !e.Abort?
    ensures Sound(Step(s, e)) && Step(s, e).rows == s.rows && Step(s, e).parked == s.parked
  {
    assert View(Step(s, e)) == View(s);
  }

  lemma StepSound(s: State, e: Event)
    requires Sound(s)
    ensures Sound(Step(s, e))
  {
    if e.Insert? { InsertSound(s, e); }
    else if e.Remove? { RemoveSound(s, e); }
    else if e.Park? { ParkSound(s, e); }
    else if e.Rank? || e.Abort? { RankSound(s, e); }
    else { OtherSound(s, e); }
  }

  /** In every interleaving no two live photos have one position. */
  lemma {:induction false} RunDistinct(s: State, es: seq<Event>)
    requires Sound(s)
    ensures Sound(Run(s, es)) && Distinct(Run(s, es).rows)
  {
    if es != [] {
      RunDistinct(s, es[..|es| - 1]);
      StepSound(Run(s, es[..|es| - 1]), es[|es| - 1]);
    }
  }

  // ---- positions from one, unless an upload comes between the checks and the updates --------------

  /** Every position, stored or about to be, is at least one. */
  ghost predicate Good(s: State) {
    && Sound(s) && Positive(s.rows)
    && forall id <- s.uploads :: s.uploads[id].Told? ==> s.uploads[id].position >= 1
  }

  /** The reorder commits with a row negated that its order does not name. */
  ghost predicate Strands(s: State, e: Event) {
    && e.Rank? && s.parked.Some? && Lists(e.order, Named(s)) && Ranked(s, e.order).Some?
    && exists p <- s.parked.value.ids :: p !in s.parked.value.request
  }

  lemma RankGoodIff(s: State, e: Event)
    requires Good(s) && e.Rank?
    ensures Positive(Step(s, e).rows) <==> !Strands(s, e)
  {
    if s.parked.Some? && Lists(e.order, Named(s)) && Ranked(s, e.order).Some? {
      RankMeans(s, e.order);
      var rows := Step(s, e).rows;
      if p :| p in s.parked.value.ids && p !in s.parked.value.request {
        assert p in Active(s.rows) && rows[p].live && rows[p].position == -s.rows[p].position;
      }
    }
  }

  lemma ReadIsPositive(t: Table, max: int)
    requires Positive(t) && IsMaxPosition(t, max)
    ensures max >= 0
  {
  }

  /** The positions that are stored or about to be, the index aside. */
  ghost predicate FromOne(s: State) {
    && Positive(s.rows)
    && forall id <- s.uploads :: s.uploads[id].Told? ==> s.uploads[id].position >= 1
  }

  lemma InsertFromOne(s: State, e: Event)
    requires FromOne(s) && e.Insert?
    ensures FromOne(Step(s, e))
  {
  }

  lemma ReadFromOne(s: State, e: Event)
    requires FromOne(s) && e.Read?
    ensures FromOne(Step(s, e))
  {
    if IsMaxPosition(s.rows, e.max) { ReadIsPositive(s.rows, e.max); }
  }

  lemma OtherFromOne(s: State, e: Event)
    requires FromOne(s) && !e.Insert? && !e.Read? && !e.Rank?
    ensures FromOne(Step(s, e))
  {
  }

  /** Positions stop being at least one by exactly one kind of step: that commit. */
  lemma PositiveBrokenIff(s: State, e: Event)
    requires Good(s)
    ensures Good(Step(s, e)) <==> !Strands(s, e)
  {
    StepSound(s, e);
    assert FromOne(s);
    if e.Rank? { RankGoodIff(s, e); RankKeepsUploads(s, e); }
    else if e.Insert? { InsertFromOne(s, e); }
    else if e.Read? { ReadFromOne(s, e); }
    else { OtherFromOne(s, e); }
  }

  lemma RankKeepsUploads(s: State, e: Event)
    requires e.Rank?
    ensures Step(s, e).uploads == s.uploads && Step(s, e).accepted == s.accepted
  {
  }

  /** No live photo is missing from an order that is still to be written. */
  ghost predicate Undisturbed(s: State) {
    && (forall r <- s.accepted :: Active(s.rows) <= Elements(s.accepted[r]))
    && (s.parked.Some? ==> s.parked.value.ids <= Elements(s.parked.value.request))
  }

  /** An upload inserts while an accepted order waits to be written. */
  ghost predicate Disturbs(s: State, e: Event) { Inserts(s, e) && s.accepted != map[] }

  lemma RankUndisturbed(s: State, e: Event)
    requires Sound(s) && Undisturbed(s) && e.Rank?
    ensures Undisturbed(Step(s, e)) && !Strands(s, e)
  {
    RankKeepsUploads(s, e);
    if s.parked.Some? && Lists(e.order, Named(s)) && Ranked(s, e.order).Some? {
      RankMeans(s, e.order);
    }
  }

  lemma RowsUndisturbed(s: State, e: Event)
    requires Sound(s) && Undisturbed(s) && !Disturbs(s, e) && (e.Insert? || e.Remove?)
    ensures Undisturbed(Step(s, e))
  {
    var s' := Step(s, e);
    assert s'.accepted == s.accepted && s'.parked == s.parked;
    assert s.accepted != map[] ==> Active(s'.rows) <= Active(s.rows);
  }

  lemma ParkUndisturbed(s: State, e: Event)
    requires Undisturbed(s) && (e.Park? || e.Accept?)
    ensures Undisturbed(Step(s, e))
  {
    assert Step(s, e).rows == s.rows;
  }

  lemma OtherUndisturbed(s: State, e: Event)
    requires Undisturbed(s) && !e.Insert? && !e.Remove? && !e.Park? && !e.Accept? && !e.Rank?
    ensures Undisturbed(Step(s, e))
  {
  }

  lemma UndisturbedStep(s: State, e: Event)
    requires Good(s) && Undisturbed(s) && !Disturbs(s, e)
    ensures Undisturbed(Step(s, e)) && Good(Step(s, e))
  {
    PositiveBrokenIff(s, e);
    if e.Rank? { RankUndisturbed(s, e); }
    else if e.Insert? || e.Remove? { RowsUndisturbed(s, e); }
    else if e.Park? || e.Accept? { ParkUndisturbed(s, e); }
    else { OtherUndisturbed(s, e); }
  }

  /** If no upload inserts between the checks and the updates of a reorder, every position stays at least one. */
  lemma {:induction false} RunOk(s: State, es: seq<Event>)
    requires Good(s) && Undisturbed(s)
    requires forall i | 0 <= i < |es| :: !Disturbs(Run(s, es[..i]), es[i])
    ensures Good(Run(s, es)) && Undisturbed(Run(s, es)) && WellPlaced(Run(s, es).rows)
  {
    if es != [] {
      var before := es[..|es| - 1];
      forall i | 0 <= i < |before| ensures !Disturbs(Run(s, before[..i]), before[i]) { assert before[..i] == es[..i]; }
      RunOk(s, before);
      UndisturbedStep(Run(s, before), es[|es| - 1]);
    }
  }

  // ---- an upload in between -------------------------------------------------------------------

  lemma {:induction false} RunConcat(s: State, a: seq<Event>, b: seq<Event>)
    ensures Run(s, a + b) == Run(Run(s, a), b)
  {
    if b == [] {
      assert a + b == a;
    } else {
      RunConcat(s, a, b[..|b| - 1]);
      assert (a + b)[..|a + b| - 1] == a + b[..|b| - 1];
    }
  }

  lemma RunLast(s: State, es: seq<Event>, e: Event)
    ensures Run(s, es + [e]) == Step(Run(s, es), e)
  {
    assert (es + [e])[..|es|] == es;
  }

  lemma RunThree(s: State, a: Event, b: Event, c: Event)
    ensures Run(s, [a]) == Step(s, a) && Run(s, [a, b]) == Step(Step(s, a), b)
    ensures Run(s, [a, b, c]) == Step(Step(Step(s, a), b), c)
  {
    RunLast(s, [], a);
    RunLast(s, [a], b);
    RunLast(s, [a, b], c);
    assert [] + [a] == [a] && [a] + [b] == [a, b] && [a, b] + [c] == [a, b, c];
  }

  /** An order is accepted, an upload has its position and nothing is in its way. */
  ghost predicate Ready(s: State, r: OrderId, id: PhotoId) {
    && Good(s) && s.parked.None? && r in s.accepted && Lists(s.accepted[r], Active(s.rows))
    && id in s.uploads && s.uploads[id].Told? && Free(s.rows, id, s.uploads[id].position)
  }

  lemma ParksAll(s: State, r: OrderId, first: seq<PhotoId>)
    requires Good(s) && s.parked.None? && r in s.accepted && Lists(first, Active(s.rows)) && Active(s.rows) != {}
    ensures Step(s, Park(r, first))
         == s.(accepted := s.accepted - {r}, parked := Some(Parking(s.accepted[r], Active(s.rows))))
    ensures View(Step(s, Park(r, first))) == Parked(s.rows)
  {
    ParkSucceeds(s.rows, first);
    assert Elements(first) == Active(s.rows);
  }

  lemma RanksNamed(s: State, t: Table, order: seq<PhotoId>)
    requires Positive(t) && s.parked.Some? && View(s) == Parked(t) && NoDuplicates(s.parked.value.request)
    requires Active(s.rows) == Active(t) && Lists(order, Named(s))
    ensures Ranked(s, order) == Some(Reordered(Parked(t), s.parked.value.request))
  {
    var request := s.parked.value.request;
    RanksApart(t, order, request);
    ApartWrites(Parked(t), order, RankTargets(request));
    assert Placed(Parked(t), Elements(order), RankTargets(request)) == Reordered(Parked(t), request);
  }

  /** Both updates of a reorder over rows that are placed well, some of them not named. */
  lemma ReorderWrites(s: State, r: OrderId, first: seq<PhotoId>, second: seq<PhotoId>)
    requires Good(s) && s.parked.None? && r in s.accepted && Lists(first, Active(s.rows)) && Active(s.rows) != {}
    requires Lists(second, NamedIn(s.rows, s.accepted[r]))
    ensures Step(Step(s, Park(r, first)), Rank(second))
         == s.(rows := Reordered(Parked(s.rows), s.accepted[r]), accepted := s.accepted - {r})
  {
    ParksAll(s, r, first);
    var s1 := Step(s, Park(r, first));
    RanksNamed(s1, s.rows, second);
    assert Step(s1, Rank(second)) == StepRank(s1, second);
  }

  lemma RanksApart(t: Table, order: seq<PhotoId>, request: seq<PhotoId>)
    requires Positive(t) && NoDuplicates(request) && forall p <- order :: p in Active(t) && p in request
    ensures Targets(Parked(t), order, RankTargets(request)) && Apart(Parked(t), order, RankTargets(request))
  {
  }

  /**
   From every state in which an order is accepted and an upload is about to insert, in whatever order the updates
   visit the rows: upload, then reorder, and the new photo's position is the negative of the one it was given.
   */
  lemma LateUploadSinks(s: State, r: OrderId, id: PhotoId, first: seq<PhotoId>, second: seq<PhotoId>)
    requires Ready(s, r, id) && Lists(first, Active(s.rows) + {id}) && Lists(second, Active(s.rows))
    ensures var m := Run(s, [Insert(id), Park(r, first), Rank(second)]);
      m.rows == Reordered(s.rows, s.accepted[r])[id := Photo(-s.uploads[id].position, true)]
  {
    RunThree(s, Insert(id), Park(r, first), Rank(second));
    ReadyInserts(s, r, id);
    SinkingWrites(s, r, id, first, second);
    SunkRows(s.rows, s.accepted[r], id, s.uploads[id].position);
  }

  lemma SinkingWrites(s: State, r: OrderId, id: PhotoId, first: seq<PhotoId>, second: seq<PhotoId>)
    requires Ready(s, r, id) && Lists(first, Active(s.rows) + {id}) && Lists(second, Active(s.rows))
    ensures var s1 := Step(s, Insert(id));
      Step(Step(s1, Park(r, first)), Rank(second)).rows == Reordered(Parked(s1.rows), s.accepted[r])
  {
    var s1 := Step(s, Insert(id));
    ReadyInserts(s, r, id);
    PositiveBrokenIff(s, Insert(id));
    OneUnnamed(s1.rows, s.rows, id, s.accepted[r]);
    ReorderWrites(s1, r, first, second);
  }

  lemma OneUnnamed(t: Table, was: Table, id: PhotoId, request: seq<PhotoId>)
    requires Active(t) == Active(was) + {id} && id !in was && Lists(request, Active(was))
    ensures NamedIn(t, request) == Active(was)
  {
  }

  lemma ReadyInserts(s: State, r: OrderId, id: PhotoId)
    requires Ready(s, r, id)
    ensures var s1 := Step(s, Insert(id));
      && s1 == s.(uploads := s.uploads - {id}, rows := s.rows[id := Photo(s.uploads[id].position, true)])
      && id !in s.rows && Active(s1.rows) == Active(s.rows) + {id}
  {
    Unparked(s);
  }

  lemma SunkRows(t: Table, request: seq<PhotoId>, id: PhotoId, position: int)
    requires Lists(request, Active(t)) && id !in t
    ensures Reordered(Parked(t[id := Photo(position, true)]), request)
         == Reordered(t, request)[id := Photo(-position, true)]
  {
    assert id !in request;
  }

  function Uploading(id: PhotoId, max: int): seq<Event> { [Begin(id), Count(id), Read(id, max)] + [Insert(id)] }

  /** An upload alone, its position after the largest. */
  lemma UploadAlone(s: State, id: PhotoId, max: int)
    requires id !in s.rows && id !in s.uploads && s.parked.None?
    requires |Active(s.rows)| < MAX_PHOTOS && IsMaxPosition(s.rows, max)
    ensures Run(s, Uploading(id, max)) == s.(rows := s.rows[id := Photo(max + 1, true)])
  {
    var m := s.(uploads := s.uploads[id := Told(max + 1)]);
    AsksAndReads(s, id, max);
    InsertsNext(s, m, id, max);
    RunLast(s, [Begin(id), Count(id), Read(id, max)], Insert(id));
  }

  lemma AsksAndReads(s: State, id: PhotoId, max: int)
    requires id !in s.rows && id !in s.uploads && |Active(s.rows)| < MAX_PHOTOS && IsMaxPosition(s.rows, max)
    ensures Run(s, [Begin(id), Count(id), Read(id, max)]) == s.(uploads := s.uploads[id := Told(max + 1)])
  {
    var s1 := s.(uploads := s.uploads[id := Asked]);
    var s2 := s.(uploads := s.uploads[id := Counted]);
    assert Step(s, Begin(id)) == s1;
    assert Step(s1, Count(id)) == s2;
    assert Step(s2, Read(id, max)) == s.(uploads := s.uploads[id := Told(max + 1)]);
    RunThree(s, Begin(id), Count(id), Read(id, max));
  }

  lemma InsertsNext(s: State, m: State, id: PhotoId, max: int)
    requires id !in s.uploads && s.parked.None? && IsMaxPosition(s.rows, max)
    requires m == s.(uploads := s.uploads[id := Told(max + 1)])
    ensures Step(m, Insert(id)) == s.(rows := s.rows[id := Photo(max + 1, true)])
  {
    Unparked(m);
    assert m.uploads - {id} == s.uploads;
  }

  /** The listing with one photo whose order has been accepted. */
  function OneAccepted(a: PhotoId): State { State(map[a := Photo(1, true)], map[], map[0 := [a]], None, false, false) }

  /** The photo is deleted, another uploaded, and then the order is written. */
  function Crossed(a: PhotoId, b: PhotoId): seq<Event> { [Remove(a)] + Uploading(b, 0) + [Park(0, [b]), Rank([])] }

  /** The rows afterwards. */
  function Sunk(a: PhotoId, b: PhotoId): State {
    State(map[a := Photo(1, false), b := Photo(-1, true)], map[], map[], None, false, false)
  }

  lemma RunParts(s: State, a: seq<Event>, b: seq<Event>, c: seq<Event>)
    ensures Run(s, a + b + c) == Run(Run(Run(s, a), b), c)
  {
    RunConcat(s, a, b);
    RunConcat(s, a + b, c);
  }

  lemma CrossedEnds(a: PhotoId, b: PhotoId)
    requires a != b
    ensures Run(OneAccepted(a), Crossed(a, b)) == Sunk(a, b)
  {
    var s1 := OneAccepted(a).(rows := map[a := Photo(1, false)]);
    Removes(a);
    CrossedUploads(a, b);
    CrossedWrites(a, b, s1.(rows := s1.rows[b := Photo(1, true)]));
    RunParts(OneAccepted(a), [Remove(a)], Uploading(b, 0), [Park(0, [b]), Rank([])]);
  }

  lemma CrossedUploads(a: PhotoId, b: PhotoId)
    requires a != b
    ensures var s := OneAccepted(a).(rows := map[a := Photo(1, false)]);
      Run(s, Uploading(b, 0)) == s.(rows := s.rows[b := Photo(1, true)])
  {
    var s := OneAccepted(a).(rows := map[a := Photo(1, false)]);
    assert Active(s.rows) == {};
    UploadAlone(s, b, 0);
  }

  lemma Removes(a: PhotoId)
    ensures Run(OneAccepted(a), [Remove(a)]) == OneAccepted(a).(rows := map[a := Photo(1, false)])
  {
    RunThree(OneAccepted(a), Remove(a), Abort, Abort);
    assert a in Active(OneAccepted(a).rows);
  }

  lemma CrossedWrites(a: PhotoId, b: PhotoId, s: State)
    requires a != b
    requires s == OneAccepted(a).(rows := map[a := Photo(1, false), b := Photo(1, true)])
    ensures Run(s, [Park(0, [b]), Rank([])]) == Sunk(a, b)
  {
    RunThree(s, Park(0, [b]), Rank([]), Abort);
    assert Active(s.rows) == {b};
    Unparked(s);
    assert NamedIn(s.rows, [a]) == {};
    ReorderWrites(s, 0, [b], []);
    CrossedRows(a, b);
    assert s.accepted - {0} == map[];
  }

  lemma CrossedRows(a: PhotoId, b: PhotoId)
    requires a != b
    ensures Reordered(Parked(map[a := Photo(1, false), b := Photo(1, true)]), [a]) == Sunk(a, b).rows
  {
  }

  /**
   After it, two more uploads get the positions 0 and 1, and then the first update of an accepted order can meet
   the index.
   */
  lemma ThenReorderFails(a: PhotoId, b: PhotoId, c: PhotoId, d: PhotoId)
    requires a != b && a != c && a != d && b != c && b != d && c != d
    ensures var m := Run(OneAccepted(a), Crossed(a, b) + Uploading(c, -1) + Uploading(d, 0));
      && m.rows == map[a := Photo(1, false), b := Photo(-1, true), c := Photo(0, true), d := Photo(1, true)]
      && Lists([b, c, d], Active(m.rows)) && WriteRows(m.rows, [b, c, d], ParkTargets(m.rows)).None?
  {
    CrossedEnds(a, b);
    SunkUploads(a, b, c, d);
    RunParts(OneAccepted(a), Crossed(a, b), Uploading(c, -1), Uploading(d, 0));
    var rows := Sunk(a, b).rows[c := Photo(0, true)][d := Photo(1, true)];
    assert rows == map[a := Photo(1, false), b := Photo(-1, true), c := Photo(0, true), d := Photo(1, true)];
    assert Active(rows) == {b, c, d};
    ParkMeetsIndex(rows, b, c, d);
  }

  lemma SunkUploads(a: PhotoId, b: PhotoId, c: PhotoId, d: PhotoId)
    requires a != b && a != c && a != d && b != c && b != d && c != d
    ensures var s := Sunk(a, b);
      Run(Run(s, Uploading(c, -1)), Uploading(d, 0)) == s.(rows := s.rows[c := Photo(0, true)][d := Photo(1, true)])
  {
    var s := Sunk(a, b);
    assert Active(s.rows) == {b};
    UploadAlone(s, c, -1);
    var s2 := s.(rows := s.rows[c := Photo(0, true)]);
    assert Active(s2.rows) == {b, c};
    UploadAlone(s2, d, 0);
  }

  lemma ParkMeetsIndex(t: Table, b: PhotoId, c: PhotoId, d: PhotoId)
    requires b != c && b != d && c != d && Active(t) == {b, c, d} && t[b].position == -1 && t[d].position == 1
    ensures Lists([b, c, d], Active(t)) && WriteRows(t, [b, c, d], ParkTargets(t)).None?
  {
    assert !Free(t, b, 1);
  }
}
