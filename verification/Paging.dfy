/**
 Cursor paging in descending id order, over a table that may change between pages.
 Ids stand for ULIDs: only their order matters.
 */
module Paging {
  import opened Base

  const DEFAULT_LIMIT: nat := 20
  const MAX_LIMIT: nat := 100

  function LimitOf(asked: Option<int>): (limit: nat)
    ensures 1 <= limit <= MAX_LIMIT
  {
    match asked
    case None => DEFAULT_LIMIT
    case Some(n) => if n <= 0 then DEFAULT_LIMIT else if n <= MAX_LIMIT then n else MAX_LIMIT
  }

  /** The page size asked for; `asked` is the number in the query, if it parses. */
  method ParseLimit(asked: Option<int>) returns (limit: nat)
    ensures limit == LimitOf(asked) && 1 <= limit <= 100
    ensures asked.None? || asked.value < 1 ==> limit == 20
    ensures asked.Some? && asked.value >= 1 ==> limit <= asked.value && (limit < 100 ==> limit == asked.value)
  {
    limit := DEFAULT_LIMIT;
    if asked.Some? && asked.value > 0 {
      var n := asked.value;
      if n > MAX_LIMIT {
        n := MAX_LIMIT;
      }
      limit := n;
    }
  }

  ghost predicate StrictlyDescending(s: seq<nat>) {
    forall i, j :: 0 <= i < j < |s| ==> s[i] > s[j]
  }

  predicate Under(x: nat, cursor: Option<nat>) { cursor.None? || x < cursor.value }

  function Below(s: set<nat>, cursor: Option<nat>): set<nat> { set x <- s | Under(x, cursor) }

  /** What `id < cursor ORDER BY id DESC LIMIT n` may answer over the matching ids `s`. */
  ghost predicate Answers(s: set<nat>, cursor: Option<nat>, n: nat, rows: seq<nat>) {
    && StrictlyDescending(rows) && |rows| <= n
    && (forall x <- rows :: x in s && Under(x, cursor))
    && (|rows| < n ==> forall x <- s :: Under(x, cursor) ==> x in rows)
    && (forall x <- s :: Under(x, cursor) && x !in rows ==> forall y <- rows :: x < y)
  }

  lemma MaxExists(s: set<nat>) returns (m: nat)
    requires s != {}
    ensures m in s && forall x <- s :: x <= m
  {
    m :| m in s;
    var rest := s - {m};
    if rest != {} {
      var n := MaxExists(rest);
      if n > m { m := n; }
    }
    forall x <- s ensures x <= m {
      assert x in rest || x !in rest;
    }
  }

  /** Every query has an answer. */
  lemma {:induction false} AnswerExists(s: set<nat>, cursor: Option<nat>, n: nat) returns (rows: seq<nat>)
    ensures Answers(s, cursor, n, rows)
    decreases n
  {
    if n == 0 || Below(s, cursor) == {} {
      rows := [];
      forall x <- s | Under(x, cursor) ensures n == 0 {
        assert n > 0 ==> x in Below(s, cursor);
      }
    } else {
      var m := MaxExists(Below(s, cursor));
      var rest := AnswerExists(s, Some(m), n - 1);
      rows := [m] + rest;
      forall i | 0 <= i < |rest| ensures rest[i] < m {
        assert rest[i] in rest;
      }
      forall x <- s | Under(x, cursor) ensures x == m || Under(x, Some(m)) {
        assert x in Below(s, cursor);
      }
    }
  }

  ghost predicate Agree(a: seq<nat>, b: seq<nat>, k: nat) {
    k <= |a| && k <= |b| && forall i :: 0 <= i < k ==> a[i] == b[i]
  }

  /** The first `k` rows of two answers are the same. */
  lemma {:induction false} SameUpTo(s: set<nat>, cursor: Option<nat>, n: nat, a: seq<nat>, b: seq<nat>, k: nat)
    requires Answers(s, cursor, n, a) && Answers(s, cursor, n, b) && k <= |a| && k <= |b|
    ensures Agree(a, b, k)
  {
    if k > 0 {
      SameUpTo(s, cursor, n, a, b, k - 1);
      NoHigher(s, cursor, n, a, b, k - 1);
      NoHigher(s, cursor, n, b, a, k - 1);
    }
  }

  lemma NoHigher(s: set<nat>, cursor: Option<nat>, n: nat, a: seq<nat>, b: seq<nat>, k: nat)
    requires Answers(s, cursor, n, a) && Answers(s, cursor, n, b) && k < |a| && k < |b| && Agree(a, b, k)
    ensures b[k] <= a[k]
  {
    assert b[k] in b && a[k] in a;
    if b[k] in a {
      var i :| 0 <= i < |a| && a[i] == b[k];
    }
  }

  lemma NotLonger(s: set<nat>, cursor: Option<nat>, n: nat, a: seq<nat>, b: seq<nat>)
    requires Answers(s, cursor, n, a) && Answers(s, cursor, n, b)
    ensures |b| <= |a|
  {
    if |a| < |b| {
      var y := b[|a|];
      assert y in b && y in a;
      var i :| 0 <= i < |a| && a[i] == y;
      SameUpTo(s, cursor, n, a, b, |a|);
    }
  }

  /** A query over given rows has one answer. */
  lemma AnswerUnique(s: set<nat>, cursor: Option<nat>, n: nat, a: seq<nat>, b: seq<nat>)
    requires Answers(s, cursor, n, a) && Answers(s, cursor, n, b)
    ensures a == b
  {
    NotLonger(s, cursor, n, a, b);
    NotLonger(s, cursor, n, b, a);
    SameUpTo(s, cursor, n, a, b, |a|);
  }

  datatype Page = Page(items: seq<nat>, next: Option<nat>)

  function PageOf(rows: seq<nat>, limit: nat): Page
    requires limit >= 1
  {
    if |rows| > limit then Page(rows[..limit], Some(rows[limit - 1])) else Page(rows, None)
  }

  /** The query asks for one row more than a page holds; the handler drops it and hands out the last id kept. */
  method CutPage(rows: seq<nat>, limit: nat) returns (page: Page)
    requires limit >= 1
    ensures page == PageOf(rows, limit)
  {
    var cards := rows;
    var nextCursor: Option<nat> := None;
    if |cards| > limit {
      cards := cards[..limit];
      nextCursor := Some(cards[|cards| - 1]);
    }
    page := Page(cards, nextCursor);
  }

  /** A page takes the top of what is under the cursor, and its own cursor says where it stopped. */
  lemma PageMeans(s: set<nat>, cursor: Option<nat>, limit: nat, rows: seq<nat>)
    requires limit >= 1 && Answers(s, cursor, limit + 1, rows)
    ensures var p := PageOf(rows, limit);
      && StrictlyDescending(p.items) && |p.items| <= limit
      && (forall x <- p.items :: x in s && Under(x, cursor))
      && (forall x <- s :: Under(x, cursor) && x !in p.items ==> p.next.Some? && x < p.next.value)
      && (p.next.Some? ==> |p.items| == limit && p.items[limit - 1] == p.next.value)
  {
    if |rows| > limit {
      forall x <- s | Under(x, cursor) && x !in rows[..limit] ensures x < rows[limit - 1] {
        assert rows[limit - 1] in rows;
        if x in rows {
          var k :| 0 <= k < |rows| && rows[k] == x;
          assert rows == rows[..limit] + rows[limit..];
          assert k >= limit;
        }
      }
    }
  }

  // ---- following the cursor -------------------------------------------------------

  /** `answers[i]` answers over `tables[i]`, each asked for with the cursor the page before it gave. */
  ghost predicate Follows(tables: seq<set<nat>>, cursor: Option<nat>, limit: nat, answers: seq<seq<nat>>)
    requires limit >= 1
  {
    && |tables| == |answers|
    && (answers != [] ==>
          var p := PageOf(answers[0], limit);
          && Answers(tables[0], cursor, limit + 1, answers[0])
          && (if p.next.None? then |answers| == 1 else Follows(tables[1..], p.next, limit, answers[1..])))
  }

  predicate Finished(answers: seq<seq<nat>>, limit: nat)
    requires limit >= 1
  {
    answers != [] && PageOf(answers[|answers| - 1], limit).next.None?
  }

  /** Everything received, in the order received. */
  function Collected(answers: seq<seq<nat>>, limit: nat): seq<nat>
    requires limit >= 1
  {
    if answers == [] then [] else PageOf(answers[0], limit).items + Collected(answers[1..], limit)
  }

  lemma Joined(a: seq<nat>, b: seq<nat>)
    requires StrictlyDescending(a) && StrictlyDescending(b) && a != [] && forall x <- b :: x < a[|a| - 1]
    ensures StrictlyDescending(a + b)
  {
    forall i, j | 0 <= i < j < |a + b| ensures (a + b)[i] > (a + b)[j] {
      if i < |a| <= j { assert b[j - |a|] in b && a[i] >= a[|a| - 1]; }
    }
  }

  /** No id twice, always downwards, whatever happens to the table between pages. */
  lemma {:induction false} CollectDescends(tables: seq<set<nat>>, cursor: Option<nat>, limit: nat,
      answers: seq<seq<nat>>)
    requires limit >= 1 && Follows(tables, cursor, limit, answers)
    ensures StrictlyDescending(Collected(answers, limit))
    ensures forall x <- Collected(answers, limit) :: Under(x, cursor)
  {
    if answers != [] {
      var p := PageOf(answers[0], limit);
      PageMeans(tables[0], cursor, limit, answers[0]);
      if p.next.Some? {
        CollectDescends(tables[1..], p.next, limit, answers[1..]);
        Joined(p.items, Collected(answers[1..], limit));
        assert p.items[limit - 1] in p.items;
      } else {
        assert answers[1..] == [];
      }
    }
  }

  /** A row that matches on every page is collected. */
  lemma {:induction false} CollectFinds(tables: seq<set<nat>>, cursor: Option<nat>, limit: nat,
      answers: seq<seq<nat>>, x: nat)
    requires limit >= 1 && Follows(tables, cursor, limit, answers) && Finished(answers, limit)
    requires (forall s <- tables :: x in s) && Under(x, cursor)
    ensures x in Collected(answers, limit)
  {
    var p := PageOf(answers[0], limit);
    PageMeans(tables[0], cursor, limit, answers[0]);
    if x !in p.items {
      assert |answers| > 1;
      CollectFinds(tables[1..], p.next, limit, answers[1..], x);
    }
  }

  /** Nothing is collected that did not match when its page was read. */
  lemma {:induction false} CollectSound(tables: seq<set<nat>>, cursor: Option<nat>, limit: nat,
      answers: seq<seq<nat>>, x: nat)
    requires limit >= 1 && Follows(tables, cursor, limit, answers) && x in Collected(answers, limit)
    ensures exists i :: 0 <= i < |tables| && x in tables[i] && x in PageOf(answers[i], limit).items
  {
    var p := PageOf(answers[0], limit);
    PageMeans(tables[0], cursor, limit, answers[0]);
    assert p.next.None? ==> Collected(answers[1..], limit) == [];
    if x !in p.items {
      CollectSound(tables[1..], p.next, limit, answers[1..], x);
      var i :| 0 <= i < |tables[1..]| && x in tables[1..][i] && x in PageOf(answers[1..][i], limit).items;
      assert x in tables[i + 1] && x in PageOf(answers[i + 1], limit).items;
    } else {
      assert x in tables[0];
    }
  }

  ghost predicate OnceIn(s: seq<nat>, x: nat) {
    exists i :: 0 <= i < |s| && s[i] == x && forall j :: 0 <= j < |s| && j != i ==> s[j] != x
  }

  lemma DescendingOnce(s: seq<nat>, x: nat)
    requires StrictlyDescending(s) && x in s
    ensures OnceIn(s, x)
  {
    var i :| 0 <= i < |s| && s[i] == x;
    assert forall j :: 0 <= j < |s| && j != i ==> s[j] != x;
  }

  /** Every row that matches throughout appears exactly once in what is collected. */
  lemma CollectsOnce(tables: seq<set<nat>>, limit: nat, answers: seq<seq<nat>>, x: nat)
    requires limit >= 1 && Follows(tables, None, limit, answers) && Finished(answers, limit)
    requires forall s <- tables :: x in s
    ensures StrictlyDescending(Collected(answers, limit)) && OnceIn(Collected(answers, limit), x)
  {
    CollectFinds(tables, None, limit, answers, x);
    CollectDescends(tables, None, limit, answers);
    DescendingOnce(Collected(answers, limit), x);
  }

  // ---- how many pages --------------------------------------------------------------

  /** max(1, ceil(n / limit)) */
  function PagesFor(n: nat, limit: nat): nat
    requires limit >= 1
  {
    if n == 0 then 1 else (n + limit - 1) / limit
  }

  lemma QuotientIs(x: int, d: int, q: int)
    requires d > 0 && q * d <= x < q * d + d
    ensures x / d == q
  {
    var k := q - x / d;
    assert x == (x / d) * d + x % d;
    assert k * d == q * d - (x / d) * d;
    assert k >= 1 ==> k * d >= d;
    assert k <= -1 ==> k * d <= -d;
  }

  lemma PagesStep(n: nat, limit: nat)
    requires limit >= 1
    ensures n <= limit ==> PagesFor(n, limit) == 1
    ensures n > limit ==> PagesFor(n, limit) == 1 + PagesFor(n - limit, limit)
  {
    if 0 < n <= limit {
      QuotientIs(n + limit - 1, limit, 1);
    } else if n > limit {
      var q := (n - 1) / limit;
      assert n - 1 == q * limit + (n - 1) % limit;
      assert (q + 1) * limit == q * limit + limit;
      QuotientIs(n - limit + limit - 1, limit, q);
      QuotientIs(n + limit - 1, limit, q + 1);
    }
  }

  function Elements(s: seq<nat>): set<nat> { set x <- s }

  lemma {:induction false} ElementsSize(s: seq<nat>)
    requires StrictlyDescending(s)
    ensures |Elements(s)| == |s|
  {
    if s != [] {
      var last := s[|s| - 1];
      ElementsSize(s[..|s| - 1]);
      assert Elements(s) == Elements(s[..|s| - 1]) + {last} by {
        assert s == s[..|s| - 1] + [last];
      }
      assert last !in Elements(s[..|s| - 1]);
    }
  }

  /** A full page leaves exactly `limit` rows fewer under the next cursor. */
  lemma PageShrinks(s: set<nat>, cursor: Option<nat>, limit: nat, rows: seq<nat>)
    requires limit >= 1 && Answers(s, cursor, limit + 1, rows)
    ensures var p := PageOf(rows, limit);
      && (p.next.None? <==> |Below(s, cursor)| <= limit)
      && (p.next.Some? ==> |Below(s, p.next)| == |Below(s, cursor)| - limit)
  {
    var p := PageOf(rows, limit);
    ElementsSize(rows);
    if |rows| <= limit {
      assert Below(s, cursor) == Elements(rows);
    } else {
      PageMeans(s, cursor, limit, rows);
      ElementsSize(p.items);
      SplitBelow(s, cursor, p.items, p.next);
      assert rows[limit] in rows && rows[limit] in Below(s, p.next);
      assert |Below(s, p.next)| > 0;
    }
  }

  lemma SplitBelow(s: set<nat>, cursor: Option<nat>, items: seq<nat>, next: Option<nat>)
    requires StrictlyDescending(items) && items != [] && next == Some(items[|items| - 1])
    requires forall x <- items :: x in s && Under(x, cursor)
    requires forall x <- s :: Under(x, cursor) && x !in items ==> x < next.value
    ensures |Below(s, cursor)| == |Elements(items)| + |Below(s, next)|
  {
    assert items[|items| - 1] in items;
    assert Below(s, cursor) == Elements(items) + Below(s, next);
    assert Elements(items) !! Below(s, next);
  }

  ghost predicate Unchanging(tables: seq<set<nat>>, s: set<nat>) {
    forall i :: 0 <= i < |tables| ==> tables[i] == s
  }

  /** On a table that does not change, paging ends after exactly the pages its rows fill. */
  lemma {:induction false} PagesNeeded(s: set<nat>, tables: seq<set<nat>>, cursor: Option<nat>, limit: nat,
      answers: seq<seq<nat>>)
    requires limit >= 1 && Follows(tables, cursor, limit, answers) && Unchanging(tables, s)
    ensures |answers| <= PagesFor(|Below(s, cursor)|, limit)
    ensures Finished(answers, limit) <==> |answers| == PagesFor(|Below(s, cursor)|, limit)
  {
    PagesStep(|Below(s, cursor)|, limit);
    if answers != [] {
      PageShrinks(s, cursor, limit, answers[0]);
      var p := PageOf(answers[0], limit);
      if p.next.Some? {
        PagesNeeded(s, tables[1..], p.next, limit, answers[1..]);
        if |answers| > 1 { assert answers[|answers| - 1] == answers[1..][|answers[1..]| - 1]; }
      }
    }
  }

  /** Paging through an unchanging table to its end gives the table, once and in order, in the pages it fills. */
  lemma {:induction false} CompletePaging(s: set<nat>, tables: seq<set<nat>>, limit: nat, answers: seq<seq<nat>>)
    requires limit >= 1 && Follows(tables, None, limit, answers) && Finished(answers, limit) && Unchanging(tables, s)
    ensures |answers| == PagesFor(|s|, limit)
    ensures StrictlyDescending(Collected(answers, limit))
    ensures forall x: nat :: x in Collected(answers, limit) <==> x in s
  {
    assert Below(s, None) == s;
    PagesNeeded(s, tables, None, limit, answers);
    CollectDescends(tables, None, limit, answers);
    forall x: nat ensures x in Collected(answers, limit) <==> x in s {
      if x in s { CollectFinds(tables, None, limit, answers, x); }
      if x in Collected(answers, limit) { CollectSound(tables, None, limit, answers, x); }
    }
  }

  // ---- paging ends whatever the table does ------------------------------------------------

  function Tables(table: nat -> set<nat>, from: nat, n: nat): seq<set<nat>> {
    seq(n, i requires 0 <= i < n => table(from + i))
  }

  /** The cursor a full page hands out leaves at least `limit` ids between it and the one before. */
  lemma CursorDrops(s: set<nat>, c: nat, limit: nat, rows: seq<nat>)
    requires limit >= 1 && Answers(s, Some(c), limit + 1, rows) && PageOf(rows, limit).next.Some?
    ensures PageOf(rows, limit).next.value + limit <= c
  {
    assert rows[0] in rows;
    Spread(rows, limit - 1);
  }

  lemma {:induction false} Spread(s: seq<nat>, k: nat)
    requires StrictlyDescending(s) && k < |s|
    ensures s[k] + k <= s[0]
  {
    if k > 0 { Spread(s, k - 1); }
  }

  /** Under a cursor `c`, no paging reads more than c / limit + 1 pages, whatever joins or leaves between them. */
  lemma {:induction false} PagingShort(tables: seq<set<nat>>, c: nat, limit: nat, answers: seq<seq<nat>>)
    requires limit >= 1 && Follows(tables, Some(c), limit, answers)
    ensures |answers| * limit <= c + limit
    decreases |answers|
  {
    if answers != [] {
      var p := PageOf(answers[0], limit);
      if p.next.Some? {
        CursorDrops(tables[0], c, limit, answers[0]);
        PagingShort(tables[1..], p.next.value, limit, answers[1..]);
        assert |answers| * limit == |answers[1..]| * limit + limit;
      } else {
        assert |answers| * limit == limit;
      }
    }
  }

  /** Paging can be carried on to its end over a table that is a different one at every page. */
  lemma {:induction false} PagingAlwaysEnds(table: nat -> set<nat>, from: nat, cursor: Option<nat>, limit: nat)
      returns (answers: seq<seq<nat>>)
    requires limit >= 1
    ensures Follows(Tables(table, from, |answers|), cursor, limit, answers) && Finished(answers, limit)
    decreases if cursor.None? then 1 else 0, if cursor.Some? then cursor.value else 0
  {
    var rows := AnswerExists(table(from), cursor, limit + 1);
    answers := [rows];
    var p := PageOf(rows, limit);
    if p.next.Some? {
      PageMeans(table(from), cursor, limit, rows);
      assert p.items[limit - 1] in p.items;
      var rest := PagingAlwaysEnds(table, from + 1, p.next, limit);
      answers := [rows] + rest;
      assert answers[1..] == rest && Tables(table, from, |answers|)[1..] == Tables(table, from + 1, |rest|);
    }
  }

  /** In particular over one that does not change. */
  lemma PagingEnds(s: set<nat>, cursor: Option<nat>, limit: nat) returns (tables: seq<set<nat>>, answers: seq<seq<nat>>)
    requires limit >= 1
    ensures Follows(tables, cursor, limit, answers) && Finished(answers, limit) && Unchanging(tables, s)
  {
    answers := PagingAlwaysEnds(i => s, 0, cursor, limit);
    tables := Tables(i => s, 0, |answers|);
  }
}
