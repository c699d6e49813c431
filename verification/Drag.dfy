/** Dragging photos into order in the listing form. */
module Drag {
  import opened Base
  import opened Photos

  /** `list.splice(from, 1)` and then `list.splice(to, 0, id)`. */
  function Moved(s: seq<PhotoId>, from: nat, to: nat): (m: seq<PhotoId>)
    requires from < |s| && to < |s|
    ensures |m| == |s| && m[to] == s[from]
  {
    var rest := s[..from] + s[from + 1..];
    rest[..to] + [s[from]] + rest[to..]
  }

  /** Where position `k` of the result comes from. */
  function Source(from: nat, to: nat, k: nat): int {
    if k == to then from else
      var r := if k < to then k else k - 1;
      if r < from then r else r + 1
  }

  lemma MovedSource(s: seq<PhotoId>, from: nat, to: nat, k: nat)
    requires from < |s| && to < |s| && k < |s|
    ensures 0 <= Source(from, to, k) < |s| && Moved(s, from, to)[k] == s[Source(from, to, k)]
    ensures Source(to, from, Source(from, to, k)) == k
  {
  }

  /** A move only moves: same photos, each once. */
  lemma MovedLists(s: seq<PhotoId>, from: nat, to: nat, ids: set<PhotoId>)
    requires from < |s| && to < |s| && Lists(s, ids)
    ensures Lists(Moved(s, from, to), ids)
  {
    var m := Moved(s, from, to);
    forall k | 0 <= k < |s|
      ensures 0 <= Source(from, to, k) < |s| && m[k] == s[Source(from, to, k)]
      ensures Source(to, from, Source(from, to, k)) == k
      ensures 0 <= Source(to, from, k) < |s| && Source(from, to, Source(to, from, k)) == k
    {
      MovedSource(s, from, to, k);
      MovedSource(s, to, from, k);
    }
    forall p: PhotoId ensures p in m <==> p in s {
      if p in m { var k :| 0 <= k < |m| && m[k] == p; assert s[Source(from, to, k)] == p; }
      if p in s { var k :| 0 <= k < |s| && s[k] == p; assert m[Source(to, from, k)] == p; }
    }
  }

  /** The photos that are not dragged keep their order among themselves. */
  lemma MovedKeepsOthers(s: seq<PhotoId>, from: nat, to: nat, i: nat, j: nat)
    requires from < |s| && to < |s| && i < j < |s| && i != from && j != from
    ensures exists i', j' :: 0 <= i' < j' < |s| && Moved(s, from, to)[i'] == s[i] && Moved(s, from, to)[j'] == s[j]
  {
    MovedSource(s, from, to, Source(to, from, i));
    MovedSource(s, to, from, i);
    MovedSource(s, from, to, Source(to, from, j));
    MovedSource(s, to, from, j);
    var i', j' := Source(to, from, i), Source(to, from, j);
    assert Moved(s, from, to)[i'] == s[i] && Moved(s, from, to)[j'] == s[j] && i' < j';
  }

  // ---- the component ------------------------------------------------------------------

  /** The order the server last reported, the local order while it differs, the photo being dragged. */
  datatype View = View(server: seq<PhotoId>, local: Option<seq<PhotoId>>, drag: Option<PhotoId>)

  function Current(v: View): seq<PhotoId> { if v.local.Some? then v.local.value else v.server }

  datatype DragEvent = Start(id: PhotoId) | Over(id: PhotoId) | End | Reported(server: seq<PhotoId>) | Settle

  function Step(v: View, e: DragEvent): View {
    match e
    case Start(id) => v.(drag := Some(id))
    case Over(id) =>
      if v.drag.None? || v.drag.value == id || v.drag.value !in Current(v) || id !in Current(v) then v
      else v.(local := Some(Moved(Current(v), IndexOf(Current(v), v.drag.value), IndexOf(Current(v), id))))
    case End => v.(drag := None)
    case Reported(server) => v.(server := server)
    case Settle => if v.local == Some(v.server) then v.(local := None) else v
  }

  /** What letting go sends. */
  function Submitted(v: View, e: DragEvent): Option<seq<PhotoId>> {
    if e.End? && v.local.Some? && v.local.value != v.server then v.local else None
  }

  function Run(v: View, events: seq<DragEvent>): View {
    if events == [] then v else Step(Run(v, events[..|events| - 1]), events[|events| - 1])
  }

  /** The server keeps reporting the same photos, in whatever order. */
  ghost predicate SamePhotos(events: seq<DragEvent>, ids: set<PhotoId>) {
    forall e <- events :: e.Reported? ==> Lists(e.server, ids)
  }

  ghost predicate ViewOk(v: View, ids: set<PhotoId>) {
    Lists(v.server, ids) && Lists(Current(v), ids)
  }

  /** However the photos are dragged, the order on screen is a permutation of them. */
  lemma {:induction false} RunOk(v: View, events: seq<DragEvent>, ids: set<PhotoId>)
    requires ViewOk(v, ids) && SamePhotos(events, ids)
    ensures ViewOk(Run(v, events), ids)
  {
    if events != [] {
      var before, e := events[..|events| - 1], events[|events| - 1];
      assert e in events && forall f <- before :: f in events;
      RunOk(v, before, ids);
      var w := Run(v, before);
      if e.Over? && Step(w, e) != w {
        MovedLists(Current(w), IndexOf(Current(w), w.drag.value), IndexOf(Current(w), e.id), ids);
      }
    }
  }

  /** Hovering over another shown photo puts the dragged one where that photo was. */
  lemma HoverPlaces(v: View, over: PhotoId)
    requires v.drag.Some? && v.drag.value in Current(v) && over in Current(v) && NoDuplicates(Current(v))
    ensures IndexOf(Current(v), over) < |Current(Step(v, Over(over)))|
    ensures Current(Step(v, Over(over)))[IndexOf(Current(v), over)] == v.drag.value
  {
  }

  /**
   The order shown changes only by hovering, or by a report of the server while there is no local one; the local
   order is dropped exactly when the server has it.
   */
  lemma OnlyHoverReorders(v: View, e: DragEvent)
    requires Current(Step(v, e)) != Current(v)
    ensures e.Over? || (e.Reported? && v.local.None?)
  {
  }

  lemma SettlesIff(v: View, e: DragEvent)
    requires v.local.Some?
    ensures Step(v, e).local.None? <==> e.Settle? && v.local.value == v.server
  {
  }

  /**
   Letting go after any drags sends the order shown exactly if it is not the server's, and if the stored photos are
   still those shown it is accepted, and is what is then read back.
   */
  lemma SubmittedAccepted(v: View, events: seq<DragEvent>, t: Table)
    requires ViewOk(v, Active(t)) && SamePhotos(events, Active(t))
    ensures var w := Run(v, events);
      && Submitted(w, End) == (if Current(w) != w.server then Some(Current(w)) else None)
      && (Current(w) != w.server ==>
            && Lists(Current(w), Active(t)) && Apply(t, Reorder(Current(w))) == Reordered(t, Current(w))
            && ReadsAs(Apply(t, Reorder(Current(w))), Current(w)))
  {
    RunOk(v, events, Active(t));
    var w := Run(v, events);
    ReadsBack(t, Current(w), Current(w));
  }

  class PhotoSection {
    var serverPhotos: seq<PhotoId>
    var localOrder: Option<seq<PhotoId>>
    var dragId: Option<PhotoId>

    function Seen(): View
      reads this
    {
      View(serverPhotos, localOrder, dragId)
    }

    constructor (photos: seq<PhotoId>)
      ensures Seen() == View(photos, None, None)
    {
      serverPhotos, localOrder, dragId := photos, None, None;
    }

    method OnDragStart(id: PhotoId)
      modifies this
      ensures Seen() == Step(old(Seen()), Start(id))
    {
      dragId := Some(id);
    }

    method OnDragOver(overId: PhotoId)
      modifies this
      ensures Seen() == Step(old(Seen()), Over(overId))
    {
      if dragId.None? || dragId.value == overId { return; }
      var current := if localOrder.Some? then localOrder.value else serverPhotos;
      if dragId.value !in current || overId !in current { return; }
      var from := IndexOf(current, dragId.value);
      var to := IndexOf(current, overId);
      ghost var whole := current;
      current := current[..from] + current[from + 1..];
      current := current[..to] + [dragId.value] + current[to..];
      assert current == Moved(whole, from, to);
      localOrder := Some(current);
    }

    /** Answers the order to send, if any. */
    method OnDragEnd() returns (submit: Option<seq<PhotoId>>)
      modifies this
      ensures Seen() == Step(old(Seen()), End)
      ensures submit == Submitted(old(Seen()), End)
    {
      var order := localOrder;
      dragId := None;
      if order.None? { return None; }
      if order.value == serverPhotos { return None; }
      return Some(order.value);
    }

    method OnReported(photos: seq<PhotoId>)
      modifies this
      ensures Seen() == Step(old(Seen()), Reported(photos))
    {
      serverPhotos := photos;
    }

    /** The effect that drops a local order the server has caught up with. */
    method OnSettle()
      modifies this
      ensures Seen() == Step(old(Seen()), Settle)
    {
      if localOrder.None? { return; }
      if serverPhotos == localOrder.value { localOrder := None; }
    }
  }
}
