/**
 The viewing slot calculator.  Instants are integer seconds since the epoch; the
 calendar is Taipei's, a fixed offset of eight hours east of UTC.
 */
module Slots {
  import opened Base

  const DAY: int := 86400
  const OFFSET: int := 28800

  type Minute = m: int | 0 <= m < 1440

  /** One weekly window, in minutes after local midnight. */
  datatype Window = Window(open: Minute, close: Minute)

  /** A landlord's schedule; `weekly` is keyed by weekday, Sunday being 0. */
  datatype Availability = Availability(
    enabled: bool,
    slotMinutes: int,
    slotCapacity: int,
    weekly: map<int, seq<Window>>,
    rangeDays: int,
    exceptions: set<int>)

  /** What a listing has before its landlord saves a schedule. */
  const NO_SCHEDULE := Availability(false, 0, 0, map[], 0, {})

  datatype Slot = Slot(start: int, end: int, booked: nat, capacity: int)

  /** The effective number of groups per slot. */
  function Capacity(av: Availability): (c: nat)
    ensures c >= 1 && c >= av.slotCapacity
    ensures c == 1 || c == av.slotCapacity
  {
    if av.slotCapacity < 1 then 1 else av.slotCapacity
  }

  /** The bounds a schedule must meet before it is stored. */
  predicate ValidAvailability(av: Availability) {
    !av.enabled || (
      && 15 <= av.slotMinutes <= 240
      && 0 <= av.slotCapacity <= 20
      && 1 <= av.rangeDays <= 60
      && forall wd <- av.weekly :: 0 <= wd <= 6
                             && forall w <- av.weekly[wd] :: w.open < w.close)
  }

  function DayOf(t: int): int { (t + OFFSET) / DAY }

  function Weekday(day: int): int { (day + 4) % 7 }

  /** The instant of a local wall-clock minute. */
  function At(day: int, minute: int): int { day * DAY - OFFSET + minute * 60 }

  function Length(av: Availability): int { av.slotMinutes * 60 }

  function WindowsOn(av: Availability, day: int): seq<Window> {
    if Weekday(day) in av.weekly then av.weekly[Weekday(day)] else []
  }

  function BookedAt(booked: map<int, nat>, t: int): nat {
    if t in booked then booked[t] else 0
  }

  function SlotAt(av: Availability, booked: map<int, nat>, t: int): Slot {
    Slot(t, t + Length(av), BookedAt(booked, t), Capacity(av))
  }

  predicate Free(av: Availability, now: int, booked: map<int, nat>, t: int) {
    t > now && BookedAt(booked, t) < Capacity(av)
  }

  // ---- the value the nested loops build -------------------------------------

  /** The free slots of one window from `s` on. */
  function WindowSlots(av: Availability, now: int, booked: map<int, nat>, s: int, close: int): seq<Slot>
    requires av.slotMinutes > 0
    decreases close - s
  {
    if s + Length(av) > close then []
    else (if Free(av, now, booked, s) then [SlotAt(av, booked, s)] else [])
         + WindowSlots(av, now, booked, s + Length(av), close)
  }

  function WindowsFrom(av: Availability, now: int, booked: map<int, nat>, day: int, i: nat): seq<Slot>
    requires av.slotMinutes > 0 && i <= |WindowsOn(av, day)|
    decreases |WindowsOn(av, day)| - i
  {
    var ws := WindowsOn(av, day);
    if i == |ws| then []
    else WindowSlots(av, now, booked, At(day, ws[i].open), At(day, ws[i].close))
         + WindowsFrom(av, now, booked, day, i + 1)
  }

  function DaySlots(av: Availability, now: int, booked: map<int, nat>, day: int): seq<Slot>
    requires av.slotMinutes > 0
  {
    if day in av.exceptions then [] else WindowsFrom(av, now, booked, day, 0)
  }

  function DaysFrom(av: Availability, now: int, booked: map<int, nat>, day: int, last: int): seq<Slot>
    requires av.slotMinutes > 0
    decreases last - day
  {
    if day > last then []
    else DaySlots(av, now, booked, day) + DaysFrom(av, now, booked, day + 1, last)
  }

  function OpenSlots(av: Availability, now: int, booked: map<int, nat>): seq<Slot> {
    if !av.enabled || av.slotMinutes <= 0 then []
    else DaysFrom(av, now, booked, DayOf(now), DayOf(now) + av.rangeDays)
  }

  /** The innermost loop: the steps of one window, appended to what is already there. */
  method AppendWindow(av: Availability, now: int, booked: map<int, nat>, open: int, close: int, before: seq<Slot>)
      returns (out: seq<Slot>)
    requires av.slotMinutes > 0
    ensures out == before + WindowSlots(av, now, booked, open, close)
  {
    var cap := Capacity(av);
    var dur := Length(av);
    out := before;
    var s := open;
    while s + dur <= close
      invariant out + WindowSlots(av, now, booked, s, close) == before + WindowSlots(av, now, booked, open, close)
      decreases close - s
    {
      var n := BookedAt(booked, s);
      if s > now && n < cap {
        out := out + [Slot(s, s + dur, n, cap)];
      }
      s := s + dur;
    }
  }

  lemma Shift<T>(done: seq<T>, head: seq<T>, later: seq<T>)
    ensures done + (head + later) == (done + head) + later
  {
  }

  /** The middle loop: the windows of one day. */
  method AppendDay(av: Availability, now: int, booked: map<int, nat>, day: int, before: seq<Slot>)
      returns (out: seq<Slot>)
    requires av.slotMinutes > 0
    ensures out == before + WindowsFrom(av, now, booked, day, 0)
  {
    out := before;
    var ws := WindowsOn(av, day);
    for i := 0 to |ws|
      invariant out + WindowsFrom(av, now, booked, day, i) == before + WindowsFrom(av, now, booked, day, 0)
    {
      Shift(out, WindowSlots(av, now, booked, At(day, ws[i].open), At(day, ws[i].close)),
            WindowsFrom(av, now, booked, day, i + 1));
      out := AppendWindow(av, now, booked, At(day, ws[i].open), At(day, ws[i].close), out);
    }
  }

  /** The three nested loops: days, windows, steps. */
  method ComputeOpenSlots(av: Availability, now: int, booked: map<int, nat>) returns (out: seq<Slot>)
    ensures out == OpenSlots(av, now, booked)
  {
    if !av.enabled || av.slotMinutes <= 0 {
      return [];
    }
    var day0 := DayOf(now);
    ghost var last := day0 + av.rangeDays;
    out := [];
    var d := 0;
    while d <= av.rangeDays
      invariant out + DaysFrom(av, now, booked, day0 + d, last) == OpenSlots(av, now, booked)
      decreases av.rangeDays - d
    {
      var day := day0 + d;
      ghost var before := out;
      if day !in av.exceptions {
        out := AppendDay(av, now, booked, day, out);
      }
      assert out == before + DaySlots(av, now, booked, day);
      Shift(before, DaySlots(av, now, booked, day), DaysFrom(av, now, booked, day + 1, last));
      d := d + 1;
    }
  }

  // ---- the direct test -------------------------------------------------------

  ghost predicate InWindow(av: Availability, open: int, close: int, t: int)
    requires av.slotMinutes > 0
  {
    open <= t && (t - open) % Length(av) == 0 && t + Length(av) <= close
  }

  /** `t` is a grid point of some window of `day`: it does not mention the clock. */
  ghost predicate OnGrid(av: Availability, day: int, t: int) {
    && av.slotMinutes > 0
    && exists i :: 0 <= i < |WindowsOn(av, day)|
              && InWindow(av, At(day, WindowsOn(av, day)[i].open), At(day, WindowsOn(av, day)[i].close), t)
  }

  /** Whether `t` may be booked now, with no enumeration. */
  ghost predicate Offered(av: Availability, now: int, booked: map<int, nat>, t: int) {
    && av.enabled
    && OnGrid(av, DayOf(t), t)
    && DayOf(now) <= DayOf(t) <= DayOf(now) + av.rangeDays
    && DayOf(t) !in av.exceptions
    && Free(av, now, booked, t)
  }

  lemma ProductGrows(k: int, d: int)
    requires d > 0
    ensures k >= 1 ==> k * d >= d
    ensures k <= -1 ==> k * d <= -d
  {
  }

  lemma ModUnique(x: int, d: int, q: int, r: int)
    requires d > 0 && 0 <= r < d && x == q * d + r
    ensures x % d == r
  {
    var k := q - x / d;
    assert k * d == x % d - r by {
      assert x == (x / d) * d + x % d;
      assert k * d == q * d - (x / d) * d;
    }
    ProductGrows(k, d);
  }

  lemma ModStep(x: int, d: int)
    requires d > 0
    ensures (x - d) % d == x % d
  {
    assert x - d == (x / d - 1) * d + x % d;
    ModUnique(x - d, d, x / d - 1, x % d);
  }

  /** Two different multiples of `d` are at least `d` apart. */
  lemma MultiplesApart(a: int, b: int, d: int)
    requires d > 0 && a % d == 0 && b % d == 0 && a < b
    ensures a + d <= b
  {
    var k := b / d - a / d;
    assert b - a == k * d by {
      assert a == (a / d) * d && b == (b / d) * d;
    }
    ProductGrows(k, d);
  }

  /** The first grid point is `s`; the others are those of the grid that starts one step later. */
  lemma GridSplits(s: int, t: int, d: int)
    requires d > 0
    ensures s <= t && (t - s) % d == 0 <==> t == s || (s + d <= t && (t - (s + d)) % d == 0)
  {
    ModStep(t - s, d);
    assert t - (s + d) == t - s - d;
    if s < t < s + d {
      ModUnique(t - s, d, 0, t - s);
    }
    if t == s {
      ModUnique(0, d, 0, 0);
    }
  }

  lemma {:induction false} WindowSlotsExact(av: Availability, now: int, booked: map<int, nat>, s: int, close: int,
      x: Slot)
    requires av.slotMinutes > 0
    ensures x in WindowSlots(av, now, booked, s, close)
       <==> InWindow(av, s, close, x.start) && Free(av, now, booked, x.start) && x == SlotAt(av, booked, x.start)
    decreases close - s
  {
    if s + Length(av) <= close {
      WindowSlotsExact(av, now, booked, s + Length(av), close, x);
      GridSplits(s, x.start, Length(av));
    }
  }

  lemma {:induction false} WindowsFromExact(av: Availability, now: int, booked: map<int, nat>, day: int, i: nat,
      x: Slot)
    requires av.slotMinutes > 0 && i <= |WindowsOn(av, day)|
    ensures x in WindowsFrom(av, now, booked, day, i)
       <==> && Free(av, now, booked, x.start) && x == SlotAt(av, booked, x.start)
            && exists k :: i <= k < |WindowsOn(av, day)|
                  && InWindow(av, At(day, WindowsOn(av, day)[k].open), At(day, WindowsOn(av, day)[k].close), x.start)
    decreases |WindowsOn(av, day)| - i
  {
    var ws := WindowsOn(av, day);
    if i < |ws| {
      WindowSlotsExact(av, now, booked, At(day, ws[i].open), At(day, ws[i].close), x);
      WindowsFromExact(av, now, booked, day, i + 1, x);
    }
  }

  /** A grid point of a day lies on that day. */
  lemma GridDay(av: Availability, day: int, t: int)
    requires OnGrid(av, day, t)
    ensures DayOf(t) == day
    ensures At(day, 0) <= t && t + Length(av) < At(day + 1, 0)
  {
    ModUnique(t + OFFSET, DAY, day, t + OFFSET - day * DAY);
  }

  lemma {:induction false} DaysFromExact(av: Availability, now: int, booked: map<int, nat>, day: int, last: int,
      x: Slot)
    requires av.slotMinutes > 0
    ensures x in DaysFrom(av, now, booked, day, last)
       <==> && Free(av, now, booked, x.start) && x == SlotAt(av, booked, x.start)
            && day <= DayOf(x.start) <= last && DayOf(x.start) !in av.exceptions
            && OnGrid(av, DayOf(x.start), x.start)
    decreases last - day
  {
    if day <= last {
      WindowsFromExact(av, now, booked, day, 0, x);
      DaysFromExact(av, now, booked, day + 1, last, x);
      if OnGrid(av, day, x.start) {
        GridDay(av, day, x.start);
      }
      assert x in DaySlots(av, now, booked, day)
        <==> Free(av, now, booked, x.start) && x == SlotAt(av, booked, x.start)
             && day !in av.exceptions && OnGrid(av, day, x.start);
    }
  }

  /** The slot list holds exactly the instants the direct test accepts. */
  lemma OpenSlotsExact(av: Availability, now: int, booked: map<int, nat>, x: Slot)
    ensures x in OpenSlots(av, now, booked)
       <==> Offered(av, now, booked, x.start) && x == SlotAt(av, booked, x.start)
  {
    if av.enabled && av.slotMinutes > 0 {
      DaysFromExact(av, now, booked, DayOf(now), DayOf(now) + av.rangeDays, x);
    }
  }

  // ---- the same in minutes and seconds ----------------------------------------------

  /** The instant `t` is the start of the step `k` of a window of the local day, and the slot ends within it. */
  ghost predicate StepOf(av: Availability, day: int, w: Window, k: nat, t: int) {
    && t == 86400 * day - 28800 + 60 * w.open + 60 * av.slotMinutes * k
    && t + 60 * av.slotMinutes <= 86400 * day - 28800 + 60 * w.close
  }

  /** `day` is the local day of the instant, counted from the first of January 1970, which was a Thursday. */
  ghost predicate OnDay(t: int, day: int) { 86400 * day <= t + 28800 < 86400 * (day + 1) }

  /** The windows of the day's weekday, Sunday being 0. */
  ghost predicate HasWindow(av: Availability, day: int, w: Window) {
    exists wd <- av.weekly :: 0 <= wd < 7 && (day - wd + 4) % 7 == 0 && w in av.weekly[wd]
  }

  /** A slot of the schedule starts at `t`, on a day that may be booked. */
  ghost predicate Scheduled(av: Availability, now: int, t: int) {
    && av.enabled && av.slotMinutes >= 1
    && exists today: int, day: int, w: Window, k: nat ::
         && OnDay(now, today) && today <= day <= today + av.rangeDays && day !in av.exceptions
         && HasWindow(av, day, w) && StepOf(av, day, w, k, t)
  }

  ghost predicate HasRoom(av: Availability, booked: map<int, nat>, t: int) {
    t in booked ==> booked[t] < av.slotCapacity || booked[t] < 1
  }

  lemma StepsAre(open: int, t: int, d: int)
    requires d > 0
    ensures open <= t && (t - open) % d == 0 <==> exists k: nat :: t == open + d * k
  {
    if open <= t && (t - open) % d == 0 {
      assert t == open + d * ((t - open) / d);
      ProductGrows((t - open) / d, d);
    }
    if k: nat :| t == open + d * k {
      ModUnique(t - open, d, k, 0);
      assert d * k >= 0 by { if k >= 1 { ProductGrows(k, d); } }
    }
  }

  lemma DayIs(t: int, day: int)
    ensures OnDay(t, day) <==> DayOf(t) == day
  {
  }

  lemma WindowIs(av: Availability, day: int, w: Window)
    ensures HasWindow(av, day, w) <==> w in WindowsOn(av, day)
  {
  }

  lemma StepIs(av: Availability, day: int, w: Window, t: int)
    requires av.slotMinutes > 0
    ensures InWindow(av, At(day, w.open), At(day, w.close), t) <==> exists k: nat :: StepOf(av, day, w, k, t)
  {
    StepsAre(At(day, w.open), t, Length(av));
    if k: nat :| t == At(day, w.open) + Length(av) * k && t + Length(av) <= At(day, w.close) {
      assert StepOf(av, day, w, k, t);
    }
    if k: nat :| StepOf(av, day, w, k, t) { assert t == At(day, w.open) + Length(av) * k; }
  }

  lemma GridIs(av: Availability, day: int, t: int)
    requires av.slotMinutes > 0
    ensures OnGrid(av, day, t) <==> exists w: Window, k: nat :: HasWindow(av, day, w) && StepOf(av, day, w, k, t)
  {
    if OnGrid(av, day, t) {
      var i :| 0 <= i < |WindowsOn(av, day)|
        && InWindow(av, At(day, WindowsOn(av, day)[i].open), At(day, WindowsOn(av, day)[i].close), t);
      var w := WindowsOn(av, day)[i];
      WindowIs(av, day, w);
      StepIs(av, day, w, t);
    }
    if w: Window, k: nat :| HasWindow(av, day, w) && StepOf(av, day, w, k, t) {
      WindowIs(av, day, w);
      StepIs(av, day, w, t);
    }
  }

  lemma OfferedIs(av: Availability, now: int, booked: map<int, nat>, t: int)
    ensures av.slotMinutes > 0 && Offered(av, now, booked, t)
       <==> t > now && Scheduled(av, now, t) && HasRoom(av, booked, t)
  {
    if av.slotMinutes > 0 {
      DayIs(now, DayOf(now));
      GridIs(av, DayOf(t), t);
      if Scheduled(av, now, t) {
        var today: int, day: int, w: Window, k: nat :|
          && OnDay(now, today) && today <= day <= today + av.rangeDays && day !in av.exceptions
          && HasWindow(av, day, w) && StepOf(av, day, w, k, t);
        DayIs(now, today);
        GridIs(av, day, t);
        GridDay(av, day, t);
      }
    }
  }

  /**
   A slot is offered exactly if it starts after the clock, at a step of a window of a day that may be booked, and
   fewer groups are counted for it than it takes; it ends one slot length later.
   */
  lemma OpenSlotsMean(av: Availability, now: int, booked: map<int, nat>, x: Slot)
    ensures x in OpenSlots(av, now, booked) <==>
      && x.start > now && Scheduled(av, now, x.start) && HasRoom(av, booked, x.start)
      && x.end == x.start + 60 * av.slotMinutes
      && x.booked == (if x.start in booked then booked[x.start] else 0)
      && x.capacity == (if av.slotCapacity > 1 then av.slotCapacity else 1)
  {
    OpenSlotsExact(av, now, booked, x);
    OfferedIs(av, now, booked, x.start);
  }

  // ---- validateOpenSlot ------------------------------------------------------

  function FindSlot(slots: seq<Slot>, t: int): Option<int> {
    if slots == [] then None
    else if slots[0].start == t then Some(slots[0].end)
    else FindSlot(slots[1..], t)
  }

  lemma {:induction false} FindSlotExact(slots: seq<Slot>, t: int)
    ensures FindSlot(slots, t).Some? ==> exists x <- slots :: x.start == t && x.end == FindSlot(slots, t).value
    ensures FindSlot(slots, t).None? ==> forall x <- slots :: x.start != t
  {
    if slots != [] && slots[0].start != t {
      FindSlotExact(slots[1..], t);
      assert slots == [slots[0]] + slots[1..];
    }
  }

  /** The end of the open slot that starts at `t`, if there is one. */
  function OpenSlotEnd(av: Availability, now: int, booked: map<int, nat>, t: int): Option<int> {
    FindSlot(OpenSlots(av, now, booked), t)
  }

  /** The scan over the computed slots. */
  method ValidateOpenSlot(av: Availability, now: int, booked: map<int, nat>, t: int) returns (end: Option<int>)
    ensures end == OpenSlotEnd(av, now, booked, t)
  {
    var slots := ComputeOpenSlots(av, now, booked);
    for i := 0 to |slots|
      invariant FindSlot(slots[i..], t) == OpenSlotEnd(av, now, booked, t)
    {
      if slots[i].start == t {
        return Some(slots[i].end);
      }
      assert slots[i..][1..] == slots[i + 1..];
    }
    return None;
  }

  /** Scanning the list answers as the direct test does, and the end is always one length later. */
  lemma OpenSlotEndExact(av: Availability, now: int, booked: map<int, nat>, t: int)
    ensures OpenSlotEnd(av, now, booked, t)
         == if Offered(av, now, booked, t) then Some(t + Length(av)) else None
  {
    var slots := OpenSlots(av, now, booked);
    FindSlotExact(slots, t);
    OpenSlotsExact(av, now, booked, SlotAt(av, booked, t));
    forall x <- slots ensures Offered(av, now, booked, x.start) && x.end == x.start + Length(av) {
      OpenSlotsExact(av, now, booked, x);
    }
  }

  /** An instant is accepted exactly if a slot that starts then is offered. */
  lemma OpenSlotEndMeans(av: Availability, now: int, booked: map<int, nat>, t: int)
    ensures OpenSlotEnd(av, now, booked, t)
         == if t > now && Scheduled(av, now, t) && HasRoom(av, booked, t) then Some(t + 60 * av.slotMinutes) else None
  {
    OpenSlotEndExact(av, now, booked, t);
    OfferedIs(av, now, booked, t);
  }

  // ---- order -----------------------------------------------------------------

  ghost predicate SortedWindows(av: Availability) {
    forall wd <- av.weekly :: forall i, j :: 0 <= i < j < |av.weekly[wd]| ==>
      av.weekly[wd][i].close <= av.weekly[wd][j].open
  }

  ghost predicate DisjointWindows(av: Availability) {
    forall wd <- av.weekly :: forall i, j :: 0 <= i < j < |av.weekly[wd]| ==>
      av.weekly[wd][i].close <= av.weekly[wd][j].open || av.weekly[wd][j].close <= av.weekly[wd][i].open
  }

  ghost predicate Ascending(slots: seq<Slot>) {
    forall i, j :: 0 <= i < j < |slots| ==> slots[i].start < slots[j].start
  }

  lemma AscendingConcat(a: seq<Slot>, b: seq<Slot>, mid: int)
    requires Ascending(a) && Ascending(b)
    requires forall x <- a :: x.start < mid
    requires forall x <- b :: mid <= x.start
    ensures Ascending(a + b)
  {
    forall i, j | 0 <= i < j < |a + b| ensures (a + b)[i].start < (a + b)[j].start {
      if i < |a| <= j { assert a[i] in a && b[j - |a|] in b; }
    }
  }

  lemma {:induction false} WindowSlotsAscending(av: Availability, now: int, booked: map<int, nat>, s: int, close: int)
    requires av.slotMinutes > 0
    ensures Ascending(WindowSlots(av, now, booked, s, close))
    ensures forall x <- WindowSlots(av, now, booked, s, close) :: s <= x.start < close
    decreases close - s
  {
    if s + Length(av) <= close {
      WindowSlotsAscending(av, now, booked, s + Length(av), close);
    }
  }

  lemma {:induction false} WindowsFromAscending(av: Availability, now: int, booked: map<int, nat>, day: int, i: nat,
      from: int)
    requires av.slotMinutes > 0 && i <= |WindowsOn(av, day)| && SortedWindows(av)
    requires forall k :: i <= k < |WindowsOn(av, day)| ==> from <= At(day, WindowsOn(av, day)[k].open)
    ensures Ascending(WindowsFrom(av, now, booked, day, i))
    ensures forall x <- WindowsFrom(av, now, booked, day, i) :: from <= x.start
    decreases |WindowsOn(av, day)| - i
  {
    var ws := WindowsOn(av, day);
    if i < |ws| {
      var open, close := At(day, ws[i].open), At(day, ws[i].close);
      WindowSlotsAscending(av, now, booked, open, close);
      WindowsFromAscending(av, now, booked, day, i + 1, from);
      if open <= close {
        WindowsFromAscending(av, now, booked, day, i + 1, close);
        AscendingConcat(WindowSlots(av, now, booked, open, close), WindowsFrom(av, now, booked, day, i + 1), close);
      }
    }
  }

  lemma DaySlotBefore(av: Availability, now: int, booked: map<int, nat>, day: int, x: Slot)
    requires av.slotMinutes > 0 && x in DaySlots(av, now, booked, day)
    ensures x.start < At(day + 1, 0)
  {
    WindowsFromExact(av, now, booked, day, 0, x);
    GridDay(av, day, x.start);
  }

  lemma DaySlotsAscending(av: Availability, now: int, booked: map<int, nat>, day: int)
    requires av.slotMinutes > 0 && SortedWindows(av)
    ensures Ascending(DaySlots(av, now, booked, day))
    ensures forall x <- DaySlots(av, now, booked, day) :: x.start < At(day + 1, 0)
  {
    WindowsFromAscending(av, now, booked, day, 0, At(day, 0));
    forall x <- DaySlots(av, now, booked, day) ensures x.start < At(day + 1, 0) {
      DaySlotBefore(av, now, booked, day, x);
    }
  }

  lemma DaysFromAfter(av: Availability, now: int, booked: map<int, nat>, day: int, last: int)
    requires av.slotMinutes > 0
    ensures forall x <- DaysFrom(av, now, booked, day, last) :: At(day, 0) <= x.start
  {
    forall x <- DaysFrom(av, now, booked, day, last) ensures At(day, 0) <= x.start {
      DaysFromExact(av, now, booked, day, last, x);
      GridDay(av, DayOf(x.start), x.start);
    }
  }

  lemma {:induction false} DaysFromAscending(av: Availability, now: int, booked: map<int, nat>, day: int, last: int)
    requires av.slotMinutes > 0 && SortedWindows(av)
    ensures Ascending(DaysFrom(av, now, booked, day, last))
    decreases last - day
  {
    if day <= last {
      DaySlotsAscending(av, now, booked, day);
      DaysFromAfter(av, now, booked, day + 1, last);
      DaysFromAscending(av, now, booked, day + 1, last);
      AscendingConcat(DaySlots(av, now, booked, day), DaysFrom(av, now, booked, day + 1, last), At(day + 1, 0));
    }
  }

  /** Sorted disjoint windows give a strictly increasing list. */
  lemma OpenSlotsAscending(av: Availability, now: int, booked: map<int, nat>)
    requires SortedWindows(av)
    ensures Ascending(OpenSlots(av, now, booked))
  {
    if av.enabled && av.slotMinutes > 0 {
      DaysFromAscending(av, now, booked, DayOf(now), DayOf(now) + av.rangeDays);
    }
  }

  lemma WindowPointsDisjoint(av: Availability, o: int, c: int, o': int, c': int, t: int, u: int)
    requires av.slotMinutes > 0 && InWindow(av, o, c, t) && InWindow(av, o', c', u) && t < u
    requires (o == o' && c == c') || c <= o' || c' <= o
    ensures t + Length(av) <= u
  {
    if o == o' && c == c' {
      MultiplesApart(t - o, u - o, Length(av));
    }
  }

  lemma WindowsApart(av: Availability, day: int, i: nat, j: nat)
    requires DisjointWindows(av) && i < |WindowsOn(av, day)| && j < |WindowsOn(av, day)|
    ensures var ws := WindowsOn(av, day);
            i == j || ws[i].close <= ws[j].open || ws[j].close <= ws[i].open
  {
  }

  /** With disjoint windows, two different grid points give disjoint slots, whatever their days. */
  lemma GridPointsDisjoint(av: Availability, t: int, u: int)
    requires DisjointWindows(av)
    requires OnGrid(av, DayOf(t), t) && OnGrid(av, DayOf(u), u) && t < u
    ensures t + Length(av) <= u
  {
    var d, e := DayOf(t), DayOf(u);
    if d == e {
      var ws := WindowsOn(av, d);
      var i :| 0 <= i < |ws| && InWindow(av, At(d, ws[i].open), At(d, ws[i].close), t);
      var j :| 0 <= j < |ws| && InWindow(av, At(d, ws[j].open), At(d, ws[j].close), u);
      WindowsApart(av, d, i, j);
      WindowPointsDisjoint(av, At(d, ws[i].open), At(d, ws[i].close), At(d, ws[j].open), At(d, ws[j].close), t, u);
    } else {
      GridDay(av, d, t);
      GridDay(av, e, u);
    }
  }
}
