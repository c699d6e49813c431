/** How many photos a listing can have, and whether a published one has any, when requests interleave. */
module PhotoLimit {
  import opened Base
  import opened Photos
  import opened PhotoRace

  /** The uploads that have passed the count and are not done. */
  function Pending(s: State): set<PhotoId> { set id <- s.uploads | s.uploads[id] != Asked }

  lemma InsertRows(s: State, e: Event)
    requires Sound(s) && e.Insert?
    ensures Active(Step(s, e).rows) == if Inserts(s, e) then Active(s.rows) + {e.id} else Active(s.rows)
    ensures Inserts(s, e) ==> e.id !in Active(s.rows)
    ensures Pending(Step(s, e)) <= Pending(s) && (Inserts(s, e) ==> Pending(Step(s, e)) == Pending(s) - {e.id})
    ensures Inserts(s, e) ==> e.id in Pending(s)
  {
  }

  lemma RemoveRows(s: State, e: Event)
    requires e.Remove?
    ensures Step(s, e).uploads == s.uploads
    ensures Active(Step(s, e).rows) == if e.id in ParkedIds(s) then Active(s.rows) else Active(s.rows) - {e.id}
  {
  }

  lemma RankRows(s: State, e: Event)
    requires Sound(s) && e.Rank?
    ensures Active(Step(s, e).rows) == Active(s.rows) && Step(s, e).uploads == s.uploads
  {
    if s.parked.Some? && Lists(e.order, Named(s)) && Ranked(s, e.order).Some? { RankMeans(s, e.order); }
  }

  lemma OtherRows(s: State, e: Event)
    requires !e.Insert? && !e.Remove? && !e.Rank?
    ensures Step(s, e).rows == s.rows
  {
  }

  lemma Sizes<T>(a: set<T>, b: set<T>, x: T)
    ensures a <= b ==> |a| <= |b|
    ensures x !in a ==> |a + {x}| == |a| + 1
    ensures |a - {x}| == |a| - (if x in a then 1 else 0)
  {
    if a <= b { assert b == a + (b - a); }
  }

  /** The limit is passed by exactly one kind of step: an insert that had counted while there was room. */
  lemma LimitBrokenIff(s: State, e: Event)
    requires Sound(s) && |Active(s.rows)| <= MAX_PHOTOS
    ensures |Active(Step(s, e).rows)| > 10 <==> Inserts(s, e) && |Active(s.rows)| == 10
  {
    match e
    case Insert(id) => InsertRows(s, e); Sizes(Active(s.rows), {}, id);
    case Remove(id) => RemoveRows(s, e); Sizes(Active(s.rows), {}, id);
    case Rank(_) => RankRows(s, e);
    case _ => OtherRows(s, e);
  }

  /** A count that passes leaves at most nine photos and one upload more under way. */
  lemma CountPending(s: State, e: Event)
    requires e.Count?
    ensures Pending(Step(s, e)) <= Pending(s)
         || (Pending(Step(s, e)) == Pending(s) + {e.id} && |Active(s.rows)| < MAX_PHOTOS)
  {
  }

  lemma OtherPending(s: State, e: Event)
    requires !e.Count? && !e.Insert?
    ensures Pending(Step(s, e)) <= Pending(s)
  {
  }

  /** Live photos and uploads under way, together. */
  ghost predicate Within(s: State, k: nat) { |Active(s.rows)| + |Pending(s)| <= MAX_PHOTOS - 1 + k }

  lemma InsertWithin(s: State, e: Event, k: nat)
    requires Sound(s) && Within(s, k) && e.Insert?
    ensures Within(Step(s, e), k)
  {
    InsertRows(s, e);
    Sizes(Active(s.rows), {}, e.id);
    Sizes(Pending(Step(s, e)), Pending(s), e.id);
    Sizes(Pending(s), {}, e.id);
  }

  lemma StepWithin(s: State, e: Event, k: nat)
    requires Sound(s) && Within(s, k) && |Pending(Step(s, e))| <= k
    ensures Within(Step(s, e), k)
  {
    match e
    case Insert(id) => InsertWithin(s, e, k);
    case Count(id) =>
      OtherRows(s, e);
      CountPending(s, e);
      Sizes(Pending(Step(s, e)), Pending(s), id);
    case Remove(id) => RemoveRows(s, e); Sizes(Active(s.rows), {}, id);
    case Rank(_) => RankRows(s, e);
    case _ => OtherRows(s, e); OtherPending(s, e); Sizes(Pending(Step(s, e)), Pending(s), 0);
  }

  /** Never more than `k` uploads between their count and their insert at once. */
  ghost predicate AtMost(s: State, es: seq<Event>, k: nat) {
    forall i | 0 <= i <= |es| :: |Pending(Run(s, es[..i]))| <= k
  }

  lemma {:induction false} RunWithin(s: State, es: seq<Event>, k: nat)
    requires Sound(s) && Within(s, k) && AtMost(s, es, k)
    ensures Within(Run(s, es), k)
  {
    if es != [] {
      var before := es[..|es| - 1];
      assert es[..|es|] == es;
      forall i | 0 <= i <= |before| ensures |Pending(Run(s, before[..i]))| <= k { assert before[..i] == es[..i]; }
      RunWithin(s, before, k);
      RunDistinct(s, before);
      StepWithin(Run(s, before), es[|es| - 1], k);
    }
  }

  /**
   With at most `k` uploads under way at once a listing never has more than 9 + k photos: ten, as promised, if
   they come one at a time.
   */
  lemma PhotosBounded(s: State, es: seq<Event>, k: nat)
    requires k >= 1 && Sound(s) && s.uploads == map[] && |Active(s.rows)| <= MAX_PHOTOS && AtMost(s, es, k)
    ensures |Active(Run(s, es).rows)| <= 9 + k
  {
    assert Pending(s) == {};
    RunWithin(s, es, k);
  }

  // ---- and that many it can have ------------------------------------------------------------------

  /** A run under the bound leads from one state to the other. */
  ghost predicate Leads(s: State, m: State, k: nat) { exists es :: Run(s, es) == m && AtMost(s, es, k) }

  lemma LeadsNowhere(s: State, k: nat)
    requires |Pending(s)| <= k
    ensures Leads(s, s, k)
  {
    var none: seq<Event> := [];
    assert Run(s, none) == s;
    forall i | 0 <= i <= |none| ensures |Pending(Run(s, none[..i]))| <= k { assert none[..i] == none; }
    assert AtMost(s, none, k);
  }

  lemma LeadsOn(s: State, m: State, e: Event, k: nat)
    requires Leads(s, m, k) && |Pending(Step(m, e))| <= k
    ensures Leads(s, Step(m, e), k)
  {
    var es :| Run(s, es) == m && AtMost(s, es, k);
    var fs := es + [e];
    assert fs[..|es|] == es;
    forall i | 0 <= i <= |fs| ensures |Pending(Run(s, fs[..i]))| <= k {
      if i <= |es| { assert fs[..i] == es[..i]; } else { assert fs[..i] == fs; }
    }
    assert Run(s, fs) == Step(m, e);
  }

  /** The first uploads have counted, the rows are untouched. */
  ghost predicate AllCounted(s: State, m: State, ids: seq<PhotoId>) {
    && m.rows == s.rows && m.parked == s.parked && m.uploads.Keys == Elements(ids)
    && forall id <- ids :: id in m.uploads && m.uploads[id] == Counted
  }

  lemma {:induction false} CountAll(s: State, ids: seq<PhotoId>, k: nat) returns (m: State)
    requires s.uploads == map[] && |Active(s.rows)| < MAX_PHOTOS && NoDuplicates(ids) && |ids| <= k
    requires forall id <- ids :: id !in s.rows
    ensures Leads(s, m, k) && AllCounted(s, m, ids)
  {
    if ids == [] {
      m := s;
      assert Pending(s) == {};
      LeadsNowhere(s, k);
    } else {
      var n := |ids| - 1;
      var was := CountAll(s, ids[..n], k);
      m := CountOne(s, was, ids, k);
    }
  }

  lemma OneMore(s: State, was: State, m: State, ids: seq<PhotoId>)
    requires ids != [] && AllCounted(s, was, ids[..|ids| - 1])
    requires m.rows == was.rows && m.parked == was.parked && m.uploads == was.uploads[ids[|ids| - 1] := Counted]
    ensures AllCounted(s, m, ids)
  {
    assert ids == ids[..|ids| - 1] + [ids[|ids| - 1]];
  }

  lemma CountedPending(s: State, m: State, ids: seq<PhotoId>)
    requires AllCounted(s, m, ids) && NoDuplicates(ids)
    ensures |Pending(m)| == |ids|
  {
    assert Pending(m) == Elements(ids);
    ListSize(ids);
  }

  lemma CountOne(s: State, was: State, ids: seq<PhotoId>, k: nat) returns (m: State)
    requires ids != [] && Leads(s, was, k) && AllCounted(s, was, ids[..|ids| - 1])
    requires |Active(s.rows)| < MAX_PHOTOS && NoDuplicates(ids) && |ids| <= k && forall id <- ids :: id !in s.rows
    ensures Leads(s, m, k) && AllCounted(s, m, ids)
  {
    var n := |ids| - 1;
    assert ids[n] in ids && ids[n] !in ids[..n];
    CountedPending(s, was, ids[..n]);
    var mid := Begins(s, was, ids[n], k);
    m := Counts(s, mid, ids[n], k);
    assert m.uploads == was.uploads[ids[n] := Counted];
    OneMore(s, was, m, ids);
  }

  lemma Begins(s: State, was: State, id: PhotoId, k: nat) returns (m: State)
    requires Leads(s, was, k) && id !in was.rows && id !in was.uploads && |Pending(was)| <= k
    ensures m == was.(uploads := was.uploads[id := Asked]) && Leads(s, m, k) && Pending(m) == Pending(was)
  {
    m := Step(was, Begin(id));
    assert Pending(m) == Pending(was);
    LeadsOn(s, was, Begin(id), k);
  }

  lemma Counts(s: State, was: State, id: PhotoId, k: nat) returns (m: State)
    requires Leads(s, was, k) && At(was, id, Asked) && |Active(was.rows)| < MAX_PHOTOS && |Pending(was)| + 1 <= k
    ensures m == was.(uploads := was.uploads[id := Counted]) && Leads(s, m, k)
  {
    m := Step(was, Count(id));
    CountPending(was, Count(id));
    Sizes(Pending(m), Pending(was), id);
    Sizes(Pending(was), {}, id);
    LeadsOn(s, was, Count(id), k);
  }

  lemma {:induction false} MaxExists(t: Table, among: set<PhotoId>) returns (m: int)
    requires among <= Active(t) && among != {}
    ensures (forall p <- among :: t[p].position <= m) && exists p <- among :: t[p].position == m
    decreases |among|
  {
    var p :| p in among;
    m := t[p].position;
    if among != {p} {
      assert among == {p} + (among - {p});
      var rest := MaxExists(t, among - {p});
      var q :| q in among - {p} && t[q].position == rest;
      if m < rest { m := rest; }
      assert q in among;
    }
  }

  lemma MaxPosition(t: Table) returns (m: int)
    ensures IsMaxPosition(t, m)
  {
    if Active(t) == {} { m := 0; } else { m := MaxExists(t, Active(t)); }
    assert forall p <- t :: t[p].live ==> p in Active(t);
  }

  /** One that has counted asks for its position. */
  lemma Reads(s: State, was: State, id: PhotoId, k: nat) returns (m: State)
    requires Sound(was) && was.parked.None? && Leads(s, was, k) && At(was, id, Counted) && |Pending(was)| <= k
    ensures Leads(s, m, k) && Sound(m) && m.parked.None? && m.rows == was.rows && Pending(m) == Pending(was)
    ensures m.uploads.Keys == was.uploads.Keys && m.uploads - {id} == was.uploads - {id}
    ensures Inserts(m, Insert(id))
  {
    var max := MaxPosition(was.rows);
    m := Step(was, Read(id, max));
    StepSound(was, Read(id, max));
    ReadStep(was, id, max);
    LeadsOn(s, was, Read(id, max), k);
  }

  lemma ReadStep(s: State, id: PhotoId, max: int)
    requires At(s, id, Counted) && IsMaxPosition(s.rows, max) && s.parked.None?
    ensures var m := Step(s, Read(id, max));
      && m.rows == s.rows && Pending(m) == Pending(s) && m.uploads.Keys == s.uploads.Keys
      && m.uploads - {id} == s.uploads - {id} && Inserts(m, Insert(id))
  {
    Unparked(s);
    Unparked(Step(s, Read(id, max)));
  }

  /** And inserts: nothing stops it. */
  lemma Places(s: State, was: State, id: PhotoId, k: nat) returns (m: State)
    requires Sound(was) && Leads(s, was, k) && Inserts(was, Insert(id)) && |Pending(was)| <= k
    ensures Leads(s, m, k) && Sound(m) && m.parked == was.parked && |Active(m.rows)| == |Active(was.rows)| + 1
    ensures m.uploads == was.uploads - {id} && |Pending(m)| <= k
  {
    m := Step(was, Insert(id));
    InsertRows(was, Insert(id));
    StepSound(was, Insert(id));
    Sizes(Pending(was), {}, id);
    Sizes(Active(was.rows), {}, id);
    LeadsOn(s, was, Insert(id), k);
  }

  ghost predicate CountedAre(s: State, ids: seq<PhotoId>) {
    s.uploads.Keys == Elements(ids) && forall id <- ids :: At(s, id, Counted)
  }

  /** The last of them goes in. */
  lemma PlaceLast(s: State, was: State, ids: seq<PhotoId>, k: nat) returns (m: State)
    requires Sound(was) && was.parked.None? && Leads(s, was, k) && |Pending(was)| <= k
    requires ids != [] && NoDuplicates(ids) && CountedAre(was, ids)
    ensures Sound(m) && m.parked.None? && Leads(s, m, k) && |Pending(m)| <= k && CountedAre(m, ids[..|ids| - 1])
    ensures |Active(m.rows)| == |Active(was.rows)| + 1
  {
    var id := ids[|ids| - 1];
    assert At(was, id, Counted);
    var read := Reads(s, was, id, k);
    m := Places(s, read, id, k);
    OneFewer(was, m, ids);
  }

  lemma {:induction false} PlaceAll(s: State, was: State, ids: seq<PhotoId>, k: nat) returns (m: State)
    requires Sound(was) && was.parked.None? && Leads(s, was, k) && |Pending(was)| <= k
    requires NoDuplicates(ids) && CountedAre(was, ids)
    ensures Leads(s, m, k) && |Active(m.rows)| == |Active(was.rows)| + |ids|
    decreases |ids|
  {
    if ids == [] {
      m := was;
    } else {
      var next := PlaceLast(s, was, ids, k);
      m := PlaceAll(s, next, ids[..|ids| - 1], k);
    }
  }

  lemma OneFewer(was: State, next: State, ids: seq<PhotoId>)
    requires ids != [] && NoDuplicates(ids) && CountedAre(was, ids) && next.uploads == was.uploads - {ids[|ids| - 1]}
    ensures CountedAre(next, ids[..|ids| - 1])
  {
    var n := |ids| - 1;
    assert ids == ids[..n] + [ids[n]] && ids[n] !in ids[..n];
    assert Elements(ids) == Elements(ids[..n]) + {ids[n]};
    forall id <- ids[..n] ensures At(next, id, Counted) { assert id in ids && At(was, id, Counted); }
  }

  /** From every listing with nine photos, `k` uploads at once lead to 9 + k. */
  lemma BoundReached(s: State, ids: seq<PhotoId>) returns (m: State)
    requires Sound(s) && s.parked.None? && s.uploads == map[] && |Active(s.rows)| == MAX_PHOTOS - 1
    requires NoDuplicates(ids) && forall id <- ids :: id !in s.rows
    ensures Leads(s, m, |ids|) && |Active(m.rows)| == 9 + |ids|
  {
    var was := CountAll(s, ids, |ids|);
    var es :| Run(s, es) == was && AtMost(s, es, |ids|);
    RunDistinct(s, es);
    assert es[..|es|] == es;
    assert |Pending(Run(s, es[..|es|]))| <= |ids|;
    m := PlaceAll(s, was, ids, |ids|);
  }

  // ---- a published listing has a photo -----------------------------------------------------------

  ghost predicate OpenHasPhoto(s: State) { s.open ==> Active(s.rows) != {} }

  /**
   A published listing loses its last photo by exactly two kinds of step: deleting it, and publishing on a
   check made before the last one was deleted.
   */
  lemma OpenBrokenIff(s: State, e: Event)
    requires Sound(s) && OpenHasPhoto(s)
    ensures OpenHasPhoto(Step(s, e)) <==>
      && !(e.Remove? && s.open && Active(s.rows) == {e.id} && e.id !in ParkedIds(s))
      && !(e.Publish? && s.checked && Active(s.rows) == {})
  {
    match e
    case Insert(id) => InsertRows(s, e);
    case Remove(id) => RemoveRows(s, e);
    case Rank(_) => RankRows(s, e);
    case _ => OtherRows(s, e);
  }

  /** From empty tables: an upload, the publishing and a deletion, one after another. */
  lemma PublishedWithoutPhoto(id: PhotoId)
    ensures var s := State(map[], map[], map[], None, false, false);
      var m := Run(s, Uploading(id, 0) + [Check, Publish, Remove(id)]);
      m.open && Active(m.rows) == {}
  {
    var s0 := State(map[], map[], map[], None, false, false);
    assert Active(s0.rows) == {};
    UploadAlone(s0, id, 0);
    var s1 := Run(s0, Uploading(id, 0));
    assert id in Active(s1.rows);
    RunThree(s1, Check, Publish, Remove(id));
    RunConcat(s0, Uploading(id, 0), [Check, Publish, Remove(id)]);
  }
}
