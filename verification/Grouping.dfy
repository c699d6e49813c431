/** Grouping a list by key, and the offered viewing slots by calendar day. */
module Grouping {
  import opened Slots

  /** An entry of an insertion-ordered map from keys to lists. */
  datatype Group<K, T> = Group(key: K, items: seq<T>)

  function Keys<K, T>(groups: seq<Group<K, T>>): seq<K> { seq(|groups|, i requires 0 <= i < |groups| => groups[i].key) }

  function Flatten<K, T>(groups: seq<Group<K, T>>): seq<T> {
    if groups == [] then [] else Flatten(groups[..|groups| - 1]) + groups[|groups| - 1].items
  }

  // ---- what is grouped -----------------------------------------------------------------

  /** The items with a key, in their order. */
  function WithKey<K(==), T>(items: seq<T>, keyOf: T -> K, k: K): seq<T> {
    if items == [] then []
    else
      var n := |items| - 1;
      WithKey(items[..n], keyOf, k) + if keyOf(items[n]) == k then [items[n]] else []
  }

  /** The keys in the order they are first seen. */
  function FirstSeen<K(==), T>(items: seq<T>, keyOf: T -> K): seq<K> {
    if items == [] then []
    else
      var n := |items| - 1;
      var before := FirstSeen(items[..n], keyOf);
      if keyOf(items[n]) in before then before else before + [keyOf(items[n])]
  }

  /** Distinct keys in first-seen order, each with all of its items in their order. */
  ghost predicate GroupsOf<K, T(!new)>(groups: seq<Group<K, T>>, items: seq<T>, keyOf: T -> K) {
    && Keys(groups) == FirstSeen(items, keyOf)
    && (forall i, j :: 0 <= i < j < |groups| ==> groups[i].key != groups[j].key)
    && (forall i :: 0 <= i < |groups| ==> groups[i].items == WithKey(items, keyOf, groups[i].key))
  }

  lemma {:induction false} UnseenHasNone<K, T>(items: seq<T>, keyOf: T -> K, k: K)
    ensures k !in FirstSeen(items, keyOf) ==> WithKey(items, keyOf, k) == []
  {
    if items != [] {
      UnseenHasNone(items[..|items| - 1], keyOf, k);
    }
  }

  // ---- the loop ---------------------------------------------------------------------------

  /** The map after one more item. */
  lemma AddToGroups<K, T(!new)>(groups: seq<Group<K, T>>, items: seq<T>, keyOf: T -> K, item: T, next: seq<Group<K, T>>)
    requires GroupsOf(groups, items, keyOf)
    requires var k := keyOf(item);
      if k in Keys(groups)
      then exists i ::
        0 <= i < |groups| && groups[i].key == k && next == groups[i := Group(k, groups[i].items + [item])]
      else next == groups + [Group(k, [item])]
    ensures GroupsOf(next, items + [item], keyOf)
  {
    var k, all := keyOf(item), items + [item];
    assert all[..|all| - 1] == items;
    UnseenHasNone(items, keyOf, k);
    if k in Keys(groups) {
      assert Keys(next) == Keys(groups);
    } else {
      assert Keys(next) == Keys(groups) + [k];
      forall i | 0 <= i < |groups| ensures groups[i].key != k {
        assert Keys(groups)[i] == groups[i].key;
      }
    }
  }

  method GroupBy<K(==), T(!new)>(items: seq<T>, keyOf: T -> K) returns (groups: seq<Group<K, T>>)
    ensures GroupsOf(groups, items, keyOf)
  {
    groups := [];
    for n := 0 to |items|
      invariant GroupsOf(groups, items[..n], keyOf)
    {
      var item := items[n];
      var k := keyOf(item);
      ghost var was := groups;
      var at := 0;
      while at < |groups| && groups[at].key != k
        invariant 0 <= at <= |groups| && forall i :: 0 <= i < at ==> groups[i].key != k
      {
        at := at + 1;
      }
      if at == |groups| {
        groups := groups + [Group(k, [])];
      }
      groups := groups[at := Group(k, groups[at].items + [item])];
      if at < |was| {
        assert Keys(was)[at] == k;
      } else {
        assert groups[at].items == [] + [item] == [item];
        assert groups == was + [Group(k, [item])];
      }
      assert items[..n + 1] == items[..n] + [item];
      AddToGroups(was, items[..n], keyOf, item, groups);
    }
    assert items[..|items|] == items;
  }

  // ---- nothing is lost -----------------------------------------------------------------------

  lemma {:induction false} FlattenCounts<K, T(!new)>(groups: seq<Group<K, T>>, items: seq<T>, keyOf: T -> K, x: T)
    requires forall i, j :: 0 <= i < j < |groups| ==> groups[i].key != groups[j].key
    requires forall i :: 0 <= i < |groups| ==> groups[i].items == WithKey(items, keyOf, groups[i].key)
    ensures multiset(Flatten(groups))[x] == if keyOf(x) in Keys(groups) then multiset(items)[x] else 0
  {
    if groups != [] {
      var n := |groups| - 1;
      FlattenCounts(groups[..n], items, keyOf, x);
      WithKeyCounts(items, keyOf, groups[n].key, x);
      assert Keys(groups) == Keys(groups[..n]) + [groups[n].key];
      assert groups[n].key !in Keys(groups[..n]);
    }
  }

  lemma {:induction false} WithKeyCounts<K, T>(items: seq<T>, keyOf: T -> K, k: K, x: T)
    ensures multiset(WithKey(items, keyOf, k))[x] == if keyOf(x) == k then multiset(items)[x] else 0
  {
    if items != [] {
      var n := |items| - 1;
      WithKeyCounts(items[..n], keyOf, k, x);
      assert items == items[..n] + [items[n]];
    }
  }

  lemma {:induction false} SeenIfPresent<K, T>(items: seq<T>, keyOf: T -> K, x: T)
    requires x in items
    ensures keyOf(x) in FirstSeen(items, keyOf)
  {
    var n := |items| - 1;
    assert items == items[..n] + [items[n]];
    if x in items[..n] {
      SeenIfPresent(items[..n], keyOf, x);
    }
  }

  /** The groups hold exactly the items, each as often as it was given. */
  lemma GroupsLoseNothing<K, T(!new)>(groups: seq<Group<K, T>>, items: seq<T>, keyOf: T -> K)
    requires GroupsOf(groups, items, keyOf)
    ensures multiset(Flatten(groups)) == multiset(items)
  {
    forall x: T ensures multiset(Flatten(groups))[x] == multiset(items)[x] {
      FlattenCounts(groups, items, keyOf, x);
      if x in items { SeenIfPresent(items, keyOf, x); }
    }
  }

  /** What grouping gives is determined by the list and the key. */
  lemma GroupsUnique<K, T(!new)>(a: seq<Group<K, T>>, b: seq<Group<K, T>>, items: seq<T>, keyOf: T -> K)
    requires GroupsOf(a, items, keyOf) && GroupsOf(b, items, keyOf)
    ensures a == b
  {
    forall i | 0 <= i < |a| ensures |a| == |b| && a[i] == b[i] {
      assert |Keys(a)| == |a| && |Keys(b)| == |b| && Keys(a)[i] == a[i].key && Keys(b)[i] == b[i].key;
    }
    assert |Keys(a)| == |a| && |Keys(b)| == |b|;
  }

  // ---- contiguous keys: flattening undoes grouping ------------------------------------------------

  ghost predicate Contiguous<K, T(!new)>(items: seq<T>, keyOf: T -> K) {
    forall i, j, k :: 0 <= i < j < k < |items| && keyOf(items[i]) == keyOf(items[k]) ==>
          keyOf(items[j]) == keyOf(items[i])
  }

  lemma {:induction false} LastSeen<K, T(!new)>(items: seq<T>, keyOf: T -> K)
    requires Contiguous(items, keyOf) && items != []
    ensures FirstSeen(items, keyOf) != []
    ensures FirstSeen(items, keyOf)[|FirstSeen(items, keyOf)| - 1] == keyOf(items[|items| - 1])
  {
    var n := |items| - 1;
    if n > 0 {
      LastSeen(items[..n], keyOf);
      if keyOf(items[n]) in FirstSeen(items[..n], keyOf) {
        SeenAt(items[..n], keyOf, keyOf(items[n]));
        var i :| 0 <= i < n && keyOf(items[..n][i]) == keyOf(items[n]);
        assert i < n - 1 ==> keyOf(items[n - 1]) == keyOf(items[i]);
      }
    }
  }

  lemma {:induction false} SeenAt<K, T>(items: seq<T>, keyOf: T -> K, k: K)
    requires k in FirstSeen(items, keyOf)
    ensures exists i :: 0 <= i < |items| && keyOf(items[i]) == k
  {
    var n := |items| - 1;
    if keyOf(items[n]) != k {
      SeenAt(items[..n], keyOf, k);
      var i :| 0 <= i < n && keyOf(items[..n][i]) == k;
      assert keyOf(items[i]) == k;
    }
  }

  /** The groups of all items but the last, which is in the last group. */
  lemma WithoutLast<K, T(!new)>(groups: seq<Group<K, T>>, items: seq<T>, keyOf: T -> K)
      returns (before: seq<Group<K, T>>)
    requires GroupsOf(groups, items, keyOf) && items != [] && groups != []
    requires groups[|groups| - 1].key == keyOf(items[|items| - 1])
    ensures var n, m := |items| - 1, |groups| - 1;
      && GroupsOf(before, items[..n], keyOf)
      && (if |before| == |groups| then before[..m] == groups[..m] && groups[m].items == before[m].items + [items[n]]
          else before == groups[..m] && groups[m].items == [items[n]])
  {
    var n, m := |items| - 1, |groups| - 1;
    var init, k := items[..n], keyOf(items[n]);
    forall i | 0 <= i < m ensures groups[i].items == WithKey(init, keyOf, groups[i].key) {
      assert groups[i].key != k;
    }
    if k in FirstSeen(init, keyOf) {
      before := groups[m := Group(k, WithKey(init, keyOf, k))];
      assert Keys(before) == Keys(groups);
    } else {
      before := groups[..m];
      UnseenHasNone(init, keyOf, k);
      assert Keys(before) == Keys(groups)[..m];
      assert FirstSeen(items, keyOf) == FirstSeen(init, keyOf) + [k];
      assert FirstSeen(init, keyOf) == FirstSeen(items, keyOf)[..m];
    }
  }

  lemma FlattenLast<K, T>(groups: seq<Group<K, T>>, before: seq<Group<K, T>>, init: seq<T>, item: T)
    requires groups != [] && Flatten(before) == init
    requires var m := |groups| - 1;
      if |before| == |groups| then before[..m] == groups[..m] && groups[m].items == before[m].items + [item]
      else before == groups[..m] && groups[m].items == [item]
    ensures Flatten(groups) == init + [item]
  {
    var m := |groups| - 1;
    var head, last := Flatten(groups[..m]), groups[m].items;
    assert Flatten(groups) == head + last;
    if |before| == |groups| {
      assert Flatten(before) == head + before[m].items;
      assert head + (before[m].items + [item]) == head + before[m].items + [item];
    }
  }

  /** When equal keys stand together, putting the groups end to end gives back the list. */
  lemma {:induction false} FlattenUndoesGrouping<K, T(!new)>(groups: seq<Group<K, T>>, items: seq<T>, keyOf: T -> K)
    requires GroupsOf(groups, items, keyOf) && Contiguous(items, keyOf)
    ensures Flatten(groups) == items
    decreases |items|
  {
    if items == [] {
      assert |Keys(groups)| == |groups|;
    } else {
      var n, m := |items| - 1, |groups| - 1;
      var init := items[..n];
      LastSeen(items, keyOf);
      assert |Keys(groups)| == |groups| && Keys(groups)[m] == groups[m].key == keyOf(items[n]);
      var before := WithoutLast(groups, items, keyOf);
      FlattenUndoesGrouping(before, init, keyOf);
      FlattenLast(groups, before, init, items[n]);
      assert items == init + [items[n]];
    }
  }

  // ---- the offered slots, by day ---------------------------------------------------------------------

  ghost predicate DaysAscend(slots: seq<Slot>) {
    forall i, j :: 0 <= i < j < |slots| ==> DayOf(slots[i].start) <= DayOf(slots[j].start)
  }

  lemma {:induction false} DaysFromAscend(av: Availability, now: int, booked: map<int, nat>, day: int, last: int)
    requires av.slotMinutes > 0
    ensures DaysAscend(DaysFrom(av, now, booked, day, last))
    decreases last - day
  {
    if day <= last {
      var a, b := DaySlots(av, now, booked, day), DaysFrom(av, now, booked, day + 1, last);
      DaysFromAscend(av, now, booked, day + 1, last);
      forall x <- a ensures DayOf(x.start) == day {
        WindowsFromExact(av, now, booked, day, 0, x);
        GridDay(av, day, x.start);
      }
      forall x <- b ensures day < DayOf(x.start) {
        DaysFromExact(av, now, booked, day + 1, last, x);
      }
      DaysJoin(a, b, day);
    }
  }

  lemma DaysJoin(a: seq<Slot>, b: seq<Slot>, day: int)
    requires (forall x <- a :: DayOf(x.start) == day) && (forall x <- b :: day < DayOf(x.start)) && DaysAscend(b)
    ensures DaysAscend(a + b)
  {
    var s := a + b;
    forall i, j | 0 <= i < j < |s| ensures DayOf(s[i].start) <= DayOf(s[j].start) {
      if i < |a| { assert a[i] in a; }
      if j < |a| { assert a[j] in a; } else { assert b[j - |a|] in b; }
    }
  }

  /**
   The offered slots grouped by calendar day: putting the days end to end is the offered list,
   for any schedule, overlapping or unsorted windows included.  `dateKey` names a day.
   */
  lemma SlotsByDay<K(!new)>(av: Availability, now: int, booked: map<int, nat>, dateKey: int -> K,
      groups: seq<Group<K, Slot>>)
    requires forall d, e :: dateKey(d) == dateKey(e) ==> d == e
    requires GroupsOf(groups, OpenSlots(av, now, booked), (s: Slot) => dateKey(DayOf(s.start)))
    ensures Flatten(groups) == OpenSlots(av, now, booked)
  {
    var slots := OpenSlots(av, now, booked);
    var keyOf := (s: Slot) => dateKey(DayOf(s.start));
    if av.enabled && av.slotMinutes > 0 {
      DaysFromAscend(av, now, booked, DayOf(now), DayOf(now) + av.rangeDays);
    }
    assert DaysAscend(slots);
    forall i, j, k | 0 <= i < j < k < |slots| && keyOf(slots[i]) == keyOf(slots[k])
      ensures keyOf(slots[j]) == keyOf(slots[i])
    {
      assert DayOf(slots[i].start) == DayOf(slots[k].start);
    }
    FlattenUndoesGrouping(groups, slots, keyOf);
  }
}
