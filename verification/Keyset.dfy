/** Keyset pagination of operations and tables: newest first, ties broken by id, one row more
    than asked for to see whether there is a next page, and a cursor naming the last row. */
module Keyset {
  import opened Common
  import opened Cursors

  /** The columns a listing is ordered by; ids are unique, so keys are. */
  datatype Key = Key(created: int, id: int)

  predicate Less(a: Key, b: Key) { a.created < b.created || (a.created == b.created && a.id < b.id) }

  /** How a row is named in a cursor, and how a cursor is read. */
  datatype Naming = Naming(show: Key -> string, read: string -> Option<Key>)

  ghost predicate Sound(c: Naming) { forall k :: c.read(c.show(k)) == Some(k) && c.show(k) != "" }

  /** The WHERE clause of a page: everything, or what comes after the cursor's row. */
  function Below(rows: set<Key>, cursor: Option<Key>): set<Key> {
    set r | r in rows && (cursor.None? || Less(r, cursor.value))
  }

  // ---------------------------------------------------------------- ORDER BY ... DESC

  predicate IsGreatest(rows: set<Key>, k: Key) { k in rows && forall r :: r in rows && r != k ==> Less(r, k) }

  lemma GreatestExists(rows: set<Key>)
    requires rows != {}
    ensures exists k :: IsGreatest(rows, k)
    decreases rows
  {
    var x :| x in rows;
    if rows == {x} {
      assert IsGreatest(rows, x);
    } else {
      GreatestExists(rows - {x});
      var k :| IsGreatest(rows - {x}, k);
      var top := if Less(k, x) then x else k;
      assert forall r :: r in rows ==> r == x || r in rows - {x};
      assert IsGreatest(rows, top);
    }
  }

  ghost function Greatest(rows: set<Key>): (k: Key)
    requires rows != {}
    ensures IsGreatest(rows, k)
  {
    GreatestExists(rows);
    var k :| IsGreatest(rows, k);
    k
  }

  ghost function Descending(rows: set<Key>): seq<Key>
    decreases |rows|
  {
    if rows == {} then [] else [Greatest(rows)] + Descending(rows - {Greatest(rows)})
  }

  predicate StrictlyDecreasing(s: seq<Key>) { forall i, j :: 0 <= i < j < |s| ==> Less(s[j], s[i]) }

  /** Later rows first, and of rows created at the same time those with larger ids. */
  predicate NewestFirst(s: seq<Key>) {
    forall i, j :: 0 <= i < j < |s| ==>
      s[j].created <= s[i].created && (s[j].created == s[i].created ==> s[j].id < s[i].id)
  }

  lemma {:induction false} DescendingIsSorted(rows: set<Key>)
    ensures var s := Descending(rows);
      StrictlyDecreasing(s) && (forall r :: r in s <==> r in rows) && |s| == |rows|
    decreases |rows|
  {
    if rows != {} {
      var g := Greatest(rows);
      var s, rest := Descending(rows), Descending(rows - {g});
      DescendingIsSorted(rows - {g});
      assert s == [g] + rest;
      forall i, j | 0 <= i < j < |s|
        ensures Less(s[j], s[i])
      {
        assert s[j] == rest[j - 1] && rest[j - 1] in rest;
      }
    }
  }

  /** The listing of a table: all its rows, newest first. */
  lemma ListedNewestFirst(rows: set<Key>)
    ensures NewestFirst(Descending(rows)) && multiset(Descending(rows)) == multiset(rows)
  {
    DescendingIsSorted(rows);
    DecreasingHasNoRepeats(Descending(rows));
  }

  // ---------------------------------------------------------------- one page

  datatype Page = Page(items: seq<Key>, hasMore: bool, next: Option<string>)

  function FirstOf(s: seq<Key>, n: nat): seq<Key> { if n < |s| then s[..n] else s }

  /** Of the ordered rows, `limit + 1` are fetched and `limit` are shown. */
  function Cut(c: Naming, sorted: seq<Key>, limit: nat): Page {
    var found := FirstOf(sorted, limit + 1);
    var items := FirstOf(found, limit);
    var hasMore := |found| > limit;
    Page(items, hasMore,
         if hasMore && items != [] then Some(c.show(items[|items| - 1])) else None)
  }

  /** A page of the rows that match the filter at the time of the query. An empty cursor is no
      cursor; one that does not decode is an error. */
  ghost function PageOf(c: Naming, rows: set<Key>, limit: nat, cursor: Option<string>): Option<Page> {
    if cursor.None? || cursor.value == "" then Some(Cut(c, Descending(Below(rows, None)), limit))
    else if c.read(cursor.value).None? then None
    else Some(Cut(c, Descending(Below(rows, c.read(cursor.value))), limit))
  }

  /** The text of a cursor that names a row, and the absence of one. */
  function CursorText(c: Naming, at: Option<Key>): Option<string> {
    if at.None? then None else Some(c.show(at.value))
  }

  /** The cursor a page hands out leads to the rows below the row it names. */
  lemma CursorLeadsBack(c: Naming, rows: set<Key>, limit: nat, at: Option<Key>)
    requires Sound(c)
    ensures PageOf(c, rows, limit, CursorText(c, at)) == Some(Cut(c, Descending(Below(rows, at)), limit))
  {
    if at.Some? {
      assert c.read(c.show(at.value)) == at;
    }
  }

  lemma CutProperties(c: Naming, sorted: seq<Key>, limit: nat)
    requires StrictlyDecreasing(sorted) && limit >= 1
    ensures var p := Cut(c, sorted, limit);
      && p.items == FirstOf(sorted, limit)
      && StrictlyDecreasing(p.items)
      && (p.hasMore <==> |sorted| > limit)
      && (p.hasMore ==> p.next == CursorText(c, Some(sorted[limit - 1])))
      && (!p.hasMore ==> p.next.None?)
      && (forall r :: r in sorted && (p.hasMore ==> !Less(r, sorted[limit - 1])) ==> r in p.items)
  {
    var p := Cut(c, sorted, limit);
    forall r | r in sorted && (p.hasMore ==> !Less(r, sorted[limit - 1]))
      ensures r in p.items
    {
      var i :| 0 <= i < |sorted| && sorted[i] == r;
      assert i < |p.items| && p.items[i] == r;
    }
  }

  /** A page is a descending run of rows after its cursor that skips none: it holds either all
      of them, or `limit` of them and a cursor for the rest. */
  lemma PageProperties(c: Naming, rows: set<Key>, limit: nat, at: Option<Key>)
    requires Sound(c) && limit >= 1
    ensures var page := PageOf(c, rows, limit, CursorText(c, at));
      && page.Some?
      && var p := page.value;
         && p.items == FirstOf(Descending(Below(rows, at)), limit)
         && StrictlyDecreasing(p.items)
         && (forall r :: r in p.items ==> r in Below(rows, at))
         && (p.hasMore <==> |Below(rows, at)| > limit)
         && (p.hasMore ==> |p.items| == limit && p.next == CursorText(c, Some(p.items[limit - 1])))
         && (!p.hasMore ==> p.next.None?)
         && (forall r :: r in Below(rows, at) && (p.hasMore ==> !Less(r, p.items[limit - 1])) ==> r in p.items)
  {
    CursorLeadsBack(c, rows, limit, at);
    DescendingIsSorted(Below(rows, at));
    CutProperties(c, Descending(Below(rows, at)), limit);
  }

  // ---------------------------------------------------------------- walking the pages

  /** The rows a client collects by following the cursors to the end. `views[k]` are the rows
      that match when page `k` is asked for: between two pages rows may come and go. */
  ghost function Walk(c: Naming, views: seq<set<Key>>, limit: nat, cursor: Option<string>): seq<Key>
    decreases |views|
  {
    if views == [] then []
    else
      var page := PageOf(c, views[0], limit, cursor);
      if page.None? then []
      else page.value.items + if page.value.next.None? then [] else Walk(c, views[1..], limit, page.value.next)
  }

  /** The walk got to a page without a next cursor. */
  ghost predicate Finished(c: Naming, views: seq<set<Key>>, limit: nat, cursor: Option<string>)
    decreases |views|
  {
    views != [] &&
    var page := PageOf(c, views[0], limit, cursor);
    page.Some? && (page.value.next.None? || Finished(c, views[1..], limit, page.value.next))
  }

  predicate AlwaysThere(views: seq<set<Key>>, r: Key) { forall k :: 0 <= k < |views| ==> r in views[k] }

  predicate SometimeThere(views: seq<set<Key>>, r: Key) { exists k :: 0 <= k < |views| && r in views[k] }

  lemma SortedJoin(a: seq<Key>, b: seq<Key>, m: Key)
    requires StrictlyDecreasing(a) && StrictlyDecreasing(b)
    requires forall r :: r in a ==> r == m || Less(m, r)
    requires forall r :: r in b ==> Less(r, m)
    ensures StrictlyDecreasing(a + b)
  {
    forall i, j | 0 <= i < j < |a + b|
      ensures Less((a + b)[j], (a + b)[i])
    {
      if i < |a| <= j {
        assert a[i] in a && b[j - |a|] in b;
      }
    }
  }

  /** What the rows shown from a position on must be: strictly decreasing, so none comes twice;
      only rows that were there; and if the walk got to the end, every row that was there
      throughout. */
  ghost predicate ShownWell(views: seq<set<Key>>, at: Option<Key>, shown: seq<Key>, finished: bool) {
    && StrictlyDecreasing(shown)
    && (forall r :: r in shown ==> SometimeThere(views, r) && (at.Some? ==> Less(r, at.value)))
    && (finished ==> forall r :: AlwaysThere(views, r) && (at.Some? ==> Less(r, at.value)) ==> r in shown)
  }

  /** The last page of a walk. */
  lemma LastPage(views: seq<set<Key>>, at: Option<Key>, items: seq<Key>)
    requires views != [] && StrictlyDecreasing(items)
    requires forall r :: r in items <==> r in Below(views[0], at)
    ensures ShownWell(views, at, items, true)
  {
    forall r | r in items
      ensures SometimeThere(views, r)
    {
      assert r in views[0];
    }
  }

  /** A page that has more, followed by the walk from its last row `m`. */
  lemma PageThenRest(
    views: seq<set<Key>>, at: Option<Key>, items: seq<Key>, m: Key, later: seq<Key>, finished: bool)
    requires views != [] && items != [] && StrictlyDecreasing(items) && m == items[|items| - 1]
    requires forall r :: r in items ==> r in Below(views[0], at)
    requires forall r :: r in Below(views[0], at) && !Less(r, m) ==> r in items
    requires ShownWell(views[1..], Some(m), later, finished)
    ensures ShownWell(views, at, items + later, finished)
  {
    assert forall r :: r in items ==> r == m || Less(m, r);
    SortedJoin(items, later, m);
    forall r | r in items + later
      ensures SometimeThere(views, r) && (at.Some? ==> Less(r, at.value))
    {
      if r in items {
        assert r in views[0];
      } else {
        var k :| 0 <= k < |views[1..]| && r in views[1..][k];
        assert r in views[k + 1];
        assert m in items;
      }
    }
    forall r | finished && AlwaysThere(views, r) && (at.Some? ==> Less(r, at.value))
      ensures r in items + later
    {
      assert r in views[0];
      assert AlwaysThere(views[1..], r);
    }
  }

  lemma {:induction false} WalkFrom(c: Naming, views: seq<set<Key>>, limit: nat, at: Option<Key>)
    requires Sound(c) && limit >= 1
    ensures ShownWell(views, at, Walk(c, views, limit, CursorText(c, at)), Finished(c, views, limit, CursorText(c, at)))
    decreases |views|
  {
    if views != [] {
      PageProperties(c, views[0], limit, at);
      var p := PageOf(c, views[0], limit, CursorText(c, at)).value;
      if p.hasMore {
        var m := p.items[limit - 1];
        WalkFrom(c, views[1..], limit, Some(m));
        PageThenRest(views, at, p.items, m, Walk(c, views[1..], limit, p.next), Finished(c, views[1..], limit, p.next));
      } else {
        LastPage(views, at, p.items);
        assert p.items + [] == p.items;
      }
    }
  }

  /** From the first page to the last, while rows come and go: no row is shown twice, none
      that was never there is shown, and every row that is there throughout is shown once. */
  lemma EveryRowExactlyOnce(c: Naming, views: seq<set<Key>>, limit: nat)
    requires Sound(c) && limit >= 1 && Finished(c, views, limit, None)
    ensures var shown := Walk(c, views, limit, None);
      && NewestFirst(shown)
      && (forall r :: AlwaysThere(views, r) ==> multiset(shown)[r] == 1)
      && (forall r :: multiset(shown)[r] <= 1)
      && (forall r :: r in shown ==> SometimeThere(views, r))
  {
    WalkFrom(c, views, limit, None);
    var shown := Walk(c, views, limit, None);
    DecreasingHasNoRepeats(shown);
  }

  lemma {:induction false} DecreasingHasNoRepeats(s: seq<Key>)
    requires StrictlyDecreasing(s)
    ensures forall r :: multiset(s)[r] == if r in s then 1 else 0
  {
    if s != [] {
      DecreasingHasNoRepeats(s[1..]);
      assert s == [s[0]] + s[1..];
      forall i | 0 <= i < |s[1..]|
        ensures s[1..][i] != s[0]
      {
        assert Less(s[i + 1], s[0]);
      }
    }
  }

  lemma BelowBelow(rows: set<Key>, at: Option<Key>, m: Key)
    requires m in Below(rows, at)
    ensures Below(Below(rows, at), Some(m)) == Below(rows, Some(m))
  {
  }

  lemma ListingSplits(left: set<Key>, limit: nat)
    requires 1 <= limit < |left|
    ensures |Descending(left)| == |left| && Descending(left)[limit - 1] in left
    ensures var rest := Below(left, Some(Descending(left)[limit - 1]));
      |rest| == |left| - limit && Descending(left) == Descending(left)[..limit] + Descending(rest)
  {
    DescendingIsSorted(left);
    SplitDescending(left, limit);
    assert Descending(left) == Descending(left)[..limit] + Descending(left)[limit..];
  }

  /** A page of a listing that has more, and the listing that is left for the next page. */
  lemma PageSplits(c: Naming, rows: set<Key>, limit: nat, at: Option<Key>)
    requires Sound(c) && limit >= 1 && |Below(rows, at)| > limit
    ensures PageOf(c, rows, limit, CursorText(c, at)).Some?
    ensures var p := PageOf(c, rows, limit, CursorText(c, at)).value;
      && p.hasMore && |p.items| == limit && p.next == CursorText(c, Some(p.items[limit - 1]))
      && var rest := Below(rows, Some(p.items[limit - 1]));
         |rest| == |Below(rows, at)| - limit && Descending(Below(rows, at)) == p.items + Descending(rest)
  {
    PageProperties(c, rows, limit, at);
    ListingSplits(Below(rows, at), limit);
    BelowBelow(rows, at, PageOf(c, rows, limit, CursorText(c, at)).value.items[limit - 1]);
  }

  /** A listing that does not change is shown exactly in its order, and the walk ends after as
      many pages as it takes. */
  lemma {:induction false} StaticWalk(c: Naming, rows: set<Key>, pages: nat, limit: nat, at: Option<Key>)
    requires Sound(c) && limit >= 1 && |Below(rows, at)| <= pages * limit && pages >= 1
    ensures var views := seq(pages, _ => rows);
      && Finished(c, views, limit, CursorText(c, at))
      && Walk(c, views, limit, CursorText(c, at)) == Descending(Below(rows, at))
    decreases pages
  {
    var views := seq(pages, _ => rows);
    PageProperties(c, rows, limit, at);
    var p := PageOf(c, rows, limit, CursorText(c, at)).value;
    if p.hasMore {
      PageSplits(c, rows, limit, at);
      FewerPages(pages, limit, |Below(rows, at)|);
      assert views[1..] == seq(pages - 1, _ => rows);
      StaticWalk(c, rows, pages - 1, limit, Some(p.items[limit - 1]));
    } else {
      DescendingIsSorted(Below(rows, at));
      assert p.items + [] == p.items;
    }
  }

  lemma FewerPages(pages: nat, limit: nat, left: nat)
    requires limit < left <= pages * limit
    ensures pages > 1 && left - limit <= (pages - 1) * limit
  {
  }

  lemma ListedRow(rows: set<Key>, i: nat)
    requires i < |rows|
    ensures |Descending(rows)| == |rows| && Descending(rows)[i] in rows
  {
    DescendingIsSorted(rows);
  }

  lemma GreatestFirst(rows: set<Key>)
    requires rows != {}
    ensures var g := Greatest(rows);
      && IsGreatest(rows, g) && Descending(rows) == [g] + Descending(rows - {g})
      && |rows - {g}| == |rows| - 1 && Below(rows, Some(g)) == rows - {g}
  {
  }

  /** What is left of a sorted listing after its first `n` rows is the listing of the rows
      below the last of them. */
  lemma {:induction false} SplitDescending(rows: set<Key>, n: nat)
    requires 1 <= n <= |rows|
    ensures |Descending(rows)| == |rows|
    ensures var rest := Below(rows, Some(Descending(rows)[n - 1]));
      |rest| == |rows| - n && Descending(rows)[n..] == Descending(rest)
    decreases n
  {
    GreatestFirst(rows);
    var g := Greatest(rows);
    var fewer := rows - {g};
    if n == 1 {
      ListedRow(rows, 0);
    } else {
      ListedRow(fewer, n - 2);
      SplitDescending(fewer, n - 1);
      SkipGreatest(rows, g, Descending(fewer)[n - 2]);
      assert Descending(rows)[n..] == Descending(fewer)[n - 1..];
    }
  }

  lemma SkipGreatest(rows: set<Key>, g: Key, m: Key)
    requires IsGreatest(rows, g) && m in rows - {g}
    ensures Below(rows, Some(m)) == Below(rows - {g}, Some(m))
  {
    assert Less(m, g);
  }

  // ---------------------------------------------------------------- with the service's cursors

  /** Timestamps and ids, joined by a bar, in unpadded URL-safe base64. */
  function ServiceCursors(codec: Codec<int, int>): Naming {
    Naming((k: Key) => EncodeCursor(codec, k.created, k.id), (value: string) => ReadKey(codec, value))
  }

  function ReadKey(codec: Codec<int, int>, value: string): Option<Key> {
    var fields := DecodeCursor(codec, value);
    if fields.None? then None else Some(Key(fields.value.0, fields.value.1))
  }

  lemma {:induction false} ServiceCursorsSound(codec: Codec<int, int>)
    requires Faithful(codec)
    ensures Sound(ServiceCursors(codec))
  {
    var c := ServiceCursors(codec);
    forall k
      ensures c.read(c.show(k)) == Some(k) && c.show(k) != ""
    {
      CursorRoundTrip(codec, k.created, k.id);
    }
  }

  /** A page is refused exactly for a cursor that is given, is not empty, and does not read as a timestamp and an id;
      an empty one is as good as none. */
  lemma {:induction false} PageRefusedExactly(
    codec: Codec<int, int>, rows: set<Key>, limit: nat, cursor: Option<string>)
    ensures PageOf(ServiceCursors(codec), rows, limit, cursor).None? <==>
      cursor.Some? && cursor.value != "" && forall time, id :: DecodeCursor(codec, cursor.value) != Some((time, id))
    ensures PageOf(ServiceCursors(codec), rows, limit, Some("")) == PageOf(ServiceCursors(codec), rows, limit, None)
  {
    if cursor.Some? && cursor.value != "" && DecodeCursor(codec, cursor.value).Some? {
      var fields := DecodeCursor(codec, cursor.value).value;
      assert DecodeCursor(codec, cursor.value) == Some((fields.0, fields.1));
    }
  }

  /** The listing of the service: walked to the end with its own cursors, every row that is
      there throughout comes exactly once, newest first, whatever happens to other rows. */
  lemma ListingIsExact(codec: Codec<int, int>, views: seq<set<Key>>, limit: nat)
    requires Faithful(codec) && limit >= 1 && Finished(ServiceCursors(codec), views, limit, None)
    ensures var shown := Walk(ServiceCursors(codec), views, limit, None);
      && NewestFirst(shown)
      && (forall r :: AlwaysThere(views, r) ==> multiset(shown)[r] == 1)
      && (forall r :: multiset(shown)[r] <= 1)
      && (forall r :: r in shown ==> SometimeThere(views, r))
  {
    ServiceCursorsSound(codec);
    EveryRowExactlyOnce(ServiceCursors(codec), views, limit);
  }
}
