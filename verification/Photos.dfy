/**
 The photos of one listing.  A unique index forbids two live rows the same position, and
 is checked at every single row write, not at the end of a statement.
 */
module Photos {
  import opened Base

  type PhotoId = nat

  const MAX_PHOTOS: nat := 10

  datatype Photo = Photo(position: int, live: bool)

  type Table = map<PhotoId, Photo>

  function Active(t: Table): set<PhotoId> { set p <- t | t[p].live }

  /** The unique index lets row `p` take `position`. */
  predicate Free(t: Table, p: PhotoId, position: int) {
    forall q <- t :: t[q].live && q != p ==> t[q].position != position
  }

  /** No two live photos have one position: what the index guards. */
  ghost predicate Distinct(t: Table) { forall p <- t :: t[p].live ==> Free(t, p, t[p].position) }

  ghost predicate Positive(t: Table) { forall p <- t :: t[p].live ==> t[p].position >= 1 }

  ghost predicate WellPlaced(t: Table) { Distinct(t) && Positive(t) }

  ghost predicate PhotosOk(t: Table) { WellPlaced(t) && |Active(t)| <= MAX_PHOTOS }

  ghost predicate NoDuplicates(s: seq<PhotoId>) {
    forall i, j :: 0 <= i < j < |s| ==> s[i] != s[j]
  }

  /** `s` lists `ids`, each once. */
  ghost predicate Lists(s: seq<PhotoId>, ids: set<PhotoId>) {
    NoDuplicates(s) && forall p: PhotoId :: p in s <==> p in ids
  }

  // ---- accepting an order ------------------------------------------------------------

  function Elements(s: seq<PhotoId>): set<PhotoId> { set p <- s }

  lemma {:induction false} ListSize(s: seq<PhotoId>)
    requires NoDuplicates(s)
    ensures |Elements(s)| == |s|
  {
    if s != [] {
      var n := |s| - 1;
      ListSize(s[..n]);
      assert s == s[..n] + [s[n]];
      assert Elements(s) == Elements(s[..n]) + {s[n]};
      assert s[n] !in s[..n];
    }
  }

  lemma SubsetFull(a: set<PhotoId>, b: set<PhotoId>)
    requires a <= b && |a| == |b|
    ensures a == b
  {
    assert b == a + (b - a);
  }

  /** The duplicate, length and membership checks accept exactly the permutations of the active photos. */
  method AcceptsOrder(request: seq<PhotoId>, existing: seq<PhotoId>) returns (ok: bool)
    requires NoDuplicates(existing)
    ensures ok <==> Lists(request, Elements(existing))
  {
    var seen: set<PhotoId> := {};
    for i := 0 to |request|
      invariant seen == Elements(request[..i]) && NoDuplicates(request[..i])
    {
      assert request[..i + 1] == request[..i] + [request[i]];
      if request[i] in seen {
        assert !NoDuplicates(request) by {
          var j :| 0 <= j < i && request[..i][j] == request[i];
          assert request[j] == request[i];
        }
        return false;
      }
      seen := seen + {request[i]};
    }
    assert request[..|request|] == request;
    ListSize(request);
    ListSize(existing);
    if |existing| != |request| {
      assert Lists(request, Elements(existing)) ==> Elements(request) == Elements(existing);
      return false;
    }
    for i := 0 to |existing|
      invariant forall k :: 0 <= k < i ==> existing[k] in seen
    {
      if existing[i] !in seen {
        assert existing[i] in Elements(existing) && existing[i] !in request;
        return false;
      }
    }
    SubsetFull(Elements(existing), Elements(request));
    forall p: PhotoId ensures p in request <==> p in Elements(existing) {
      assert p in request <==> p in Elements(request);
    }
    return true;
  }

  // ---- one UPDATE, row by row -----------------------------------------------------------

  function Put(t: Table, p: PhotoId, position: int): Table
    requires p in t
  {
    t[p := t[p].(position := position)]
  }

  /** Writes the rows in the given order; none once a write meets the index. */
  function WriteRows(t: Table, order: seq<PhotoId>, target: map<PhotoId, int>): Option<Table>
    requires forall p <- order :: p in t && p in target
  {
    if order == [] then Some(t)
    else if !Free(t, order[0], target[order[0]]) then None
    else WriteRows(Put(t, order[0], target[order[0]]), order[1..], target)
  }

  function Placed(t: Table, ids: set<PhotoId>, target: map<PhotoId, int>): Table
    requires forall p <- ids :: p in target
  {
    map p | p in t :: if p in ids then t[p].(position := target[p]) else t[p]
  }

  ghost predicate Targets(t: Table, order: seq<PhotoId>, target: map<PhotoId, int>) {
    forall p <- order :: p in t && p in target
  }

  /** No row wants a position another live row has now, and no two rows want the same. */
  ghost predicate Apart(t: Table, order: seq<PhotoId>, target: map<PhotoId, int>)
    requires Targets(t, order, target)
  {
    && (forall p <- order :: Free(t, p, target[p]))
    && (forall p <- order, q <- order :: p != q ==> target[p] != target[q])
  }

  /** Then every row write succeeds, in whatever order. */
  lemma {:induction false} ApartWrites(t: Table, order: seq<PhotoId>, target: map<PhotoId, int>)
    requires NoDuplicates(order) && Targets(t, order, target) && Apart(t, order, target)
    ensures WriteRows(t, order, target) == Some(Placed(t, Elements(order), target))
  {
    if order == [] {
      assert Placed(t, Elements(order), target) == t;
    } else {
      var p := order[0];
      assert order == [p] + order[1..];
      var t1 := Put(t, p, target[p]);
      assert p !in order[1..];
      assert forall q <- order[1..] :: q in order;
      ApartWrites(t1, order[1..], target);
      PlacedOneMore(t, p, Elements(order[1..]), target);
      assert Elements(order) == {p} + Elements(order[1..]);
    }
  }

  lemma PlacedOneMore(t: Table, p: PhotoId, rest: set<PhotoId>, target: map<PhotoId, int>)
    requires p in t && p in target && p !in rest && forall q <- rest :: q in target
    ensures Placed(Put(t, p, target[p]), rest, target) == Placed(t, {p} + rest, target)
  {
  }

  // ---- the two phases ------------------------------------------------------------------------

  /** Phase one: every active photo moves to the negative of its position. */
  function ParkTargets(t: Table): map<PhotoId, int> { map p | p in Active(t) :: -t[p].position }

  function Parked(t: Table): Table {
    map p | p in t :: if t[p].live then t[p].(position := -t[p].position) else t[p]
  }

  function IndexOf(s: seq<PhotoId>, p: PhotoId): (i: nat)
    requires p in s
    ensures i < |s| && s[i] == p
  {
    if s[0] == p then 0 else 1 + IndexOf(s[1..], p)
  }

  /** Phase two: position by rank in the requested order, from one. */
  function RankTargets(request: seq<PhotoId>): map<PhotoId, int> {
    map p | p in request :: IndexOf(request, p) + 1
  }

  function Reordered(t: Table, request: seq<PhotoId>): Table {
    map p | p in t :: if t[p].live && p in request then t[p].(position := IndexOf(request, p) + 1) else t[p]
  }

  /** Parking never collides, whatever the row order. */
  lemma ParkSucceeds(t: Table, order: seq<PhotoId>)
    requires WellPlaced(t) && Lists(order, Active(t))
    ensures WriteRows(t, order, ParkTargets(t)) == Some(Parked(t))
  {
    ApartWrites(t, order, ParkTargets(t));
    assert Placed(t, Elements(order), ParkTargets(t)) == Parked(t);
  }

  /** Among distinct positions it never collides exactly if no two of them are each other's negative. */
  lemma ParkAlwaysIff(t: Table)
    requires Distinct(t)
    ensures (forall order :: Lists(order, Active(t)) ==> WriteRows(t, order, ParkTargets(t)).Some?)
       <==> forall p <- t, q <- t :: t[p].live && t[q].live && p != q ==> t[p].position + t[q].position != 0
  {
    if p, q :| p in t && q in t && t[p].live && t[q].live && p != q && t[p].position + t[q].position == 0 {
      var order := ListFrom(p, Active(t));
      assert !Free(t, p, -t[p].position);
    } else {
      forall order | Lists(order, Active(t)) ensures WriteRows(t, order, ParkTargets(t)).Some? {
        ApartWrites(t, order, ParkTargets(t));
      }
    }
  }

  /** The photos of a set in some order, the given one first. */
  lemma {:induction false} ListFrom(p: PhotoId, ids: set<PhotoId>) returns (s: seq<PhotoId>)
    requires p in ids
    ensures Lists(s, ids) && s[0] == p
    decreases |ids|
  {
    if ids == {p} {
      s := [p];
    } else {
      assert ids == {p} + (ids - {p});
      var q :| q in ids - {p};
      var rest := ListFrom(p, ids - {q});
      s := rest + [q];
    }
  }

  /** A statement that goes through has written its targets, and left no two live photos on one position. */
  lemma {:induction false} WriteMeans(t: Table, order: seq<PhotoId>, target: map<PhotoId, int>)
    requires NoDuplicates(order) && Targets(t, order, target) && WriteRows(t, order, target).Some?
    ensures WriteRows(t, order, target).value == Placed(t, Elements(order), target)
    ensures Distinct(t) ==> Distinct(WriteRows(t, order, target).value)
  {
    if order == [] {
      assert Placed(t, Elements(order), target) == t;
    } else {
      var p := order[0];
      assert order == [p] + order[1..] && p in order && p !in order[1..];
      assert forall q <- order[1..] :: q in order;
      WriteMeans(Put(t, p, target[p]), order[1..], target);
      PlacedOneMore(t, p, Elements(order[1..]), target);
      assert Elements(order) == {p} + Elements(order[1..]);
    }
  }

  /** From the parked positions the final ones never collide either. */
  lemma UnparkSucceeds(t: Table, order: seq<PhotoId>, request: seq<PhotoId>)
    requires PhotosOk(t) && Lists(order, Active(t)) && Lists(request, Active(t))
    ensures WriteRows(Parked(t), order, RankTargets(request)) == Some(Reordered(t, request))
  {
    ApartWrites(Parked(t), order, RankTargets(request));
    assert Placed(Parked(t), Elements(order), RankTargets(request)) == Reordered(t, request);
  }

  // ---- one phase would not do ---------------------------------------------------------------------

  /** Nobody's requested position is held by another photo. */
  ghost predicate NobodyInTheWay(t: Table, request: seq<PhotoId>) {
    forall i :: 0 <= i < |request| ==> Free(t, request[i], i + 1)
  }

  lemma RankOfNth(request: seq<PhotoId>, i: nat)
    requires NoDuplicates(request) && i < |request|
    ensures IndexOf(request, request[i]) == i
  {
  }

  lemma OnePhaseSafe(t: Table, request: seq<PhotoId>, order: seq<PhotoId>)
    requires Lists(request, Active(t)) && NobodyInTheWay(t, request) && Lists(order, Active(t))
    ensures WriteRows(t, order, RankTargets(request)).Some?
  {
    forall p <- order ensures Free(t, p, RankTargets(request)[p]) {
      assert request[IndexOf(request, p)] == p;
    }
    ApartWrites(t, order, RankTargets(request));
  }

  /** The row that is in the way is met by writing the photo that wants its place first. */
  lemma OnePhaseCollides(t: Table, request: seq<PhotoId>, i: nat) returns (order: seq<PhotoId>)
    requires Lists(request, Active(t)) && i < |request| && !Free(t, request[i], i + 1)
    ensures Lists(order, Active(t)) && WriteRows(t, order, RankTargets(request)).None?
  {
    order := [request[i]] + request[..i] + request[i + 1..];
    MovedFront(request, i);
    RankOfNth(request, i);
  }

  /** Writing the final positions at once succeeds in every row order exactly when nobody is in anybody's way. */
  lemma OnePhaseIff(t: Table, request: seq<PhotoId>)
    requires Lists(request, Active(t))
    ensures (forall order :: Lists(order, Active(t)) ==> WriteRows(t, order, RankTargets(request)).Some?)
       <==> NobodyInTheWay(t, request)
  {
    if NobodyInTheWay(t, request) {
      forall order | Lists(order, Active(t)) ensures WriteRows(t, order, RankTargets(request)).Some? {
        OnePhaseSafe(t, request, order);
      }
    } else {
      var i :| 0 <= i < |request| && !Free(t, request[i], i + 1);
      var order := OnePhaseCollides(t, request, i);
    }
  }

  lemma MovedFront(s: seq<PhotoId>, i: nat)
    requires i < |s| && NoDuplicates(s)
    ensures var m := [s[i]] + s[..i] + s[i + 1..]; NoDuplicates(m) && forall p: PhotoId :: p in m <==> p in s
  {
    var m := [s[i]] + s[..i] + s[i + 1..];
    assert s == s[..i] + [s[i]] + s[i + 1..];
    assert forall k :: 0 <= k < i ==> m[k + 1] == s[k];
  }

  /** `s` is what reading the live rows by position gives. */
  ghost predicate ReadsAs(t: Table, s: seq<PhotoId>) {
    && Lists(s, Active(t))
    && forall i, j :: 0 <= i < j < |s| ==> s[i] in t && s[j] in t && t[s[i]].position < t[s[j]].position
  }

  /** With positions 1 to n, one phase is safe for no change of order at all. */
  lemma OnePhaseOnlyIdentity(t: Table, now: seq<PhotoId>, request: seq<PhotoId>)
    requires PhotosOk(t) && ReadsAs(t, now) && Lists(request, Active(t))
    requires forall i :: 0 <= i < |now| ==> now[i] in t && t[now[i]].position == i + 1
    ensures NobodyInTheWay(t, request) <==> request == now
  {
    ListSize(now);
    ListSize(request);
    assert Elements(now) == Active(t) == Elements(request);
    if NobodyInTheWay(t, request) {
      forall i | 0 <= i < |now| ensures request[i] == now[i] {
        assert now[i] in now && Free(t, request[i], i + 1);
      }
    } else if request == now {
      forall i | 0 <= i < |now| ensures Free(t, now[i], i + 1) {
        assert now[i] in now;
      }
    }
  }

  // ---- reading back ---------------------------------------------------------------------------------

  /** After an accepted reorder, reading by position gives the requested order and nothing else. */
  lemma ReadsBack(t: Table, request: seq<PhotoId>, s: seq<PhotoId>)
    requires Lists(request, Active(t))
    ensures ReadsAs(Reordered(t, request), s) <==> s == request
  {
    RanksRead(t, request);
    if ReadsAs(Reordered(t, request), s) {
      ReadUnique(Reordered(t, request), s, request, |s|);
      assert s[..|s|] == s && request[..|s|] == request;
    }
  }

  lemma RanksRead(t: Table, request: seq<PhotoId>)
    requires Lists(request, Active(t))
    ensures ReadsAs(Reordered(t, request), request)
  {
    var t' := Reordered(t, request);
    assert Active(t') == Active(t);
    forall i | 0 <= i < |request| ensures request[i] in t' && t'[request[i]].position == i + 1 {
      assert request[i] in request && request[i] in Active(t);
      RankOfNth(request, i);
    }
  }

  /** There is only one way to read distinct positions in order. */
  lemma {:induction false} ReadUnique(t: Table, a: seq<PhotoId>, b: seq<PhotoId>, k: nat)
    requires ReadsAs(t, a) && ReadsAs(t, b) && k <= |a|
    ensures |a| == |b| && a[..k] == b[..k]
  {
    assert Elements(a) == Active(t) == Elements(b);
    ListSize(a);
    ListSize(b);
    if k > 0 {
      ReadUnique(t, a, b, k - 1);
      forall i | 0 <= i < k - 1 ensures a[i] == b[i] {
        assert a[..k - 1][i] == b[..k - 1][i];
      }
      assert a[k - 1] in a && b[k - 1] in b;
      var i :| 0 <= i < |b| && b[i] == a[k - 1];
      var j :| 0 <= j < |a| && a[j] == b[k - 1];
      assert i >= k - 1 && j >= k - 1;
    }
  }

  // ---- upload, delete, and any serial run ----------------------------------------------------------------

  datatype PhotoAnswer = Done | Created(position: int) | PhotoLimit | PhotoNotFound | InvalidOrder | Failed

  predicate IsMaxPosition(t: Table, m: int) {
    && (forall p <- t :: t[p].live ==> t[p].position <= m)
    && (if Active(t) == {} then m == 0 else exists p <- t :: t[p].live && t[p].position == m)
  }

  datatype Op = Upload(id: PhotoId, max: int) | Delete(id: PhotoId) | Reorder(request: seq<PhotoId>)

  /** `max` is what the position query answers, and the id of an upload is new. */
  ghost predicate Applicable(t: Table, op: Op) {
    op.Upload? ==> op.id !in t && IsMaxPosition(t, op.max)
  }

  ghost function Apply(t: Table, op: Op): Table {
    match op
    case Upload(id, max) => if |Active(t)| >= MAX_PHOTOS then t else t[id := Photo(max + 1, true)]
    case Delete(id) => if id in Active(t) then t[id := t[id].(live := false)] else t
    case Reorder(request) => if Lists(request, Active(t)) then Reordered(t, request) else t
  }

  lemma UploadKeeps(t: Table, id: PhotoId, max: int)
    requires PhotosOk(t) && Applicable(t, Upload(id, max))
    ensures PhotosOk(Apply(t, Upload(id, max)))
  {
    if |Active(t)| < MAX_PHOTOS {
      MaxIsNat(t, max);
      assert Active(t[id := Photo(max + 1, true)]) == Active(t) + {id};
    }
  }

  lemma MaxIsNat(t: Table, max: int)
    requires PhotosOk(t) && IsMaxPosition(t, max)
    ensures max >= 0
  {
  }

  lemma DeleteKeeps(t: Table, id: PhotoId)
    requires PhotosOk(t)
    ensures PhotosOk(Apply(t, Delete(id)))
  {
    if id in Active(t) {
      assert Active(t[id := t[id].(live := false)]) == Active(t) - {id};
    }
  }

  lemma ReorderWellPlaced(t: Table, request: seq<PhotoId>)
    requires WellPlaced(t)
    ensures var t' := Apply(t, Reorder(request)); WellPlaced(t') && t'.Keys == t.Keys && Active(t') == Active(t)
  {
    if Lists(request, Active(t)) {
      var t' := Reordered(t, request);
      assert Active(t') == Active(t);
      forall p <- t' | t'[p].live ensures t'[p].position >= 1 && Free(t', p, t'[p].position) {
        assert p in Active(t) && t'[p].position == IndexOf(request, p) + 1;
        forall q <- t' | t'[q].live && q != p ensures t'[q].position != t'[p].position {
          assert q in Active(t) && t'[q].position == IndexOf(request, q) + 1;
        }
      }
    }
  }

  lemma ReorderKeeps(t: Table, request: seq<PhotoId>)
    requires PhotosOk(t)
    ensures PhotosOk(Apply(t, Reorder(request)))
  {
    ReorderWellPlaced(t, request);
  }

  lemma ApplyKeeps(t: Table, op: Op)
    requires PhotosOk(t) && Applicable(t, op)
    ensures PhotosOk(Apply(t, op))
  {
    match op
    case Upload(id, max) => UploadKeeps(t, id, max);
    case Delete(id) => DeleteKeeps(t, id);
    case Reorder(request) => ReorderKeeps(t, request);
  }

  ghost predicate SerialRun(tables: seq<Table>, ops: seq<Op>) {
    && |tables| == |ops| + 1 && tables[0] == map[]
    && forall i :: 0 <= i < |ops| ==> Applicable(tables[i], ops[i]) && tables[i + 1] == Apply(tables[i], ops[i])
  }

  /** Along every serial run: positions of live photos are distinct and at least one, and there are at most ten. */
  lemma {:induction false} RunKeeps(tables: seq<Table>, ops: seq<Op>, n: nat)
    requires SerialRun(tables, ops) && n < |tables|
    ensures PhotosOk(tables[n]) && |Active(tables[n])| <= 10
  {
    if n == 0 {
      assert Active(tables[0]) == {};
    } else {
      RunKeeps(tables, ops, n - 1);
      ApplyKeeps(tables[n - 1], ops[n - 1]);
    }
  }

  // ---- the handlers over the stored rows ---------------------------------------------------------------

  class PhotoStore {
    var rows: Table

    constructor ()
      ensures rows == map[]
    {
      rows := map[];
    }

    /** One UPDATE statement that visits `order`; if a row write meets the index nothing stays written. */
    method Update(order: seq<PhotoId>, target: map<PhotoId, int>) returns (ok: bool)
      requires Targets(rows, order, target)
      modifies this
      ensures ok == WriteRows(old(rows), order, target).Some?
      ensures rows == if ok then WriteRows(old(rows), order, target).value else old(rows)
    {
      var before := rows;
      for i := 0 to |order|
        invariant rows.Keys == before.Keys
        invariant WriteRows(rows, order[i..], target) == WriteRows(before, order, target)
      {
        if !Free(rows, order[i], target[order[i]]) {
          rows := before;
          return false;
        }
        assert order[i..][1..] == order[i + 1..];
        rows := Put(rows, order[i], target[order[i]]);
      }
      return true;
    }

    /**
     `existing` is what the id query answers; `first` and `second` are the orders in which the
     two statements happen to visit the rows.
     */
    method ReorderPhotos(request: seq<PhotoId>, existing: seq<PhotoId>, first: seq<PhotoId>, second: seq<PhotoId>)
        returns (answer: PhotoAnswer)
      requires PhotosOk(rows)
      requires Lists(existing, Active(rows)) && Lists(first, Active(rows)) && Lists(second, Active(rows))
      modifies this
      ensures answer == if Lists(request, Active(old(rows))) then Done else InvalidOrder
      ensures rows == Apply(old(rows), Reorder(request))
    {
      assert Elements(existing) == Active(rows);
      var ok := AcceptsOrder(request, existing);
      if !ok { return InvalidOrder; }
      ok := Park(first);
      if !ok { return Failed; }
      var positions := Positions(request);
      ok := Place(old(rows), request, second, positions);
      if !ok { return Failed; }
      return Done;
    }

    /** Phase one. */
    method Park(order: seq<PhotoId>) returns (ok: bool)
      requires PhotosOk(rows) && Lists(order, Active(rows))
      modifies this
      ensures ok && rows == Parked(old(rows))
    {
      ParkSucceeds(rows, order);
      ok := Update(order, ParkTargets(rows));
    }

    /** Phase two, from the positions of `t` parked. */
    method Place(ghost t: Table, request: seq<PhotoId>, order: seq<PhotoId>, positions: map<PhotoId, int>)
        returns (ok: bool)
      requires PhotosOk(t) && rows == Parked(t) && positions == RankTargets(request)
      requires Lists(order, Active(t)) && Lists(request, Active(t))
      modifies this
      ensures ok && rows == Reordered(t, request)
    {
      UnparkSucceeds(t, order, request);
      assert forall p <- order :: p in Active(t);
      ok := Update(order, positions);
    }

    /** `max` is what the position query answers. */
    method UploadPhoto(id: PhotoId, max: int) returns (answer: PhotoAnswer)
      requires id !in rows && IsMaxPosition(rows, max)
      modifies this
      ensures answer == if |Active(old(rows))| >= 10 then PhotoLimit else Created(max + 1)
      ensures rows == if |Active(old(rows))| >= 10 then old(rows) else old(rows)[id := Photo(max + 1, true)]
      ensures rows == Apply(old(rows), Upload(id, max))
    {
      var photoCount := |Active(rows)|;
      if photoCount >= MAX_PHOTOS { return PhotoLimit; }
      var position := max + 1;
      if !Free(rows, id, position) { return Failed; }
      rows := rows[id := Photo(position, true)];
      return Created(position);
    }

    method DeletePhoto(id: PhotoId) returns (answer: PhotoAnswer)
      modifies this
      ensures answer == if id in Active(old(rows)) then Done else PhotoNotFound
      ensures rows.Keys == old(rows).Keys && Active(rows) == Active(old(rows)) - {id}
      ensures forall p <- rows :: rows[p].position == old(rows)[p].position
      ensures rows == Apply(old(rows), Delete(id))
    {
      if id !in rows || !rows[id].live { return PhotoNotFound; }
      rows := rows[id := rows[id].(live := false)];
      return Done;
    }
  }

  /** The position of each photo is its index in the request, from one. */
  method Positions(request: seq<PhotoId>) returns (positions: map<PhotoId, int>)
    requires NoDuplicates(request)
    ensures positions == RankTargets(request)
  {
    positions := map[];
    for i := 0 to |request|
      invariant positions.Keys == Elements(request[..i])
      invariant forall k :: 0 <= k < i ==> positions[request[k]] == k + 1
    {
      assert request[..i + 1] == request[..i] + [request[i]];
      positions := positions[request[i] := i + 1];
    }
    assert request[..|request|] == request;
    PositionsAreRanks(positions, request);
  }

  lemma PositionsAreRanks(positions: map<PhotoId, int>, request: seq<PhotoId>)
    requires NoDuplicates(request) && positions.Keys == Elements(request)
    requires forall k :: 0 <= k < |request| ==> positions[request[k]] == k + 1
    ensures positions == RankTargets(request)
  {
    forall p <- request ensures positions[p] == IndexOf(request, p) + 1 {
      assert positions[request[IndexOf(request, p)]] == IndexOf(request, p) + 1;
    }
  }
}
