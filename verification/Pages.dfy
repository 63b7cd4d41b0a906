/**
 * Pages of an append-only table. A cursor carries where the walk stands and the last row that
 * existed when it began, so a walk sees one snapshot however the table grows meanwhile.
 */
module Pages {
  import opened Checks
  import opened Numerals

  datatype Row = Row(rowid: nat, project: Option<string>, visible: bool, body: string)

  type Table = seq<Row>

  /** Row numbers are positive and grow with every append. */
  ghost predicate Ordered(t: Table) {
    && (forall i | 0 <= i < |t| :: 0 < t[i].rowid < SAFE_END)
    && (forall i, j | 0 <= i < j < |t| :: t[i].rowid < t[j].rowid)
  }

  const SAFE_END: nat := 0x20_0000_0000_0000

  /** Whose pages are asked for. */
  datatype Scope = Scope(hq: string, resource: string, project: Option<string>)

  datatype Cursor = Cursor(version: nat, scope: Scope, after: int, through: int)

  datatype Page = Page(items: seq<Row>, next: Option<Cursor>)

  function MaxRow(t: Table): nat {
    if t == [] then 0 else
    var m := MaxRow(t[..|t| - 1]);
    if t[|t| - 1].rowid > m then t[|t| - 1].rowid else m
  }

  predicate Shown(scope: Scope, r: Row) {
    r.visible && (scope.project.Some? ==> r.project == scope.project)
  }

  predicate Picked(scope: Scope, r: Row, after: int, through: int) {
    after < r.rowid <= through && Shown(scope, r)
  }

  /** The shown rows in a range of row numbers, in order. */
  function Select(scope: Scope, t: Table, after: int, through: int): seq<Row> {
    if t == [] then []
    else
      var last, rest := t[|t| - 1], Select(scope, t[..|t| - 1], after, through);
      if Picked(scope, last, after, through) then rest + [last] else rest
  }

  function Limit(raw: Option<string>): Option<nat> {
    var s := if raw.Some? then raw.value else "50";
    if IsNumeral(s) && s[0] != '0' && |s| <= 3 && Value(s) <= 100 then Some(Value(s)) else None
  }

  predicate CursorOk(scope: Scope, c: Cursor, last: nat) {
    && c.version == 1 && c.scope == scope
    && 0 <= c.after < SAFE_END && 0 <= c.through < SAFE_END && c.after <= c.through <= last
  }

  /** One page; it reads one row too many to see whether more follow. */
  function PageOf(scope: Scope, t: Table, raw: Option<string>, cursor: Option<Cursor>): Result<Page> {
    var limit := Limit(raw);
    var _ :- Need(limit.Some?);
    var last := MaxRow(t);
    var _ :- Need(cursor.Some? ==> CursorOk(scope, cursor.value, last));
    var after, through := if cursor.Some? then cursor.value.after else 0, if cursor.Some? then cursor.value.through else last;
    var found := Select(scope, t, after, through);
    var rows := if |found| <= limit.value + 1 then found else found[..limit.value + 1];
    var more := |rows| > limit.value;
    var items := if more then rows[..limit.value] else rows;
    Ok(Page(items, if more && items != [] then Some(Cursor(1, scope, items[|items| - 1].rowid, through)) else None))
  }

  // ----- selections -----

  lemma {:induction false} SelectMembers(scope: Scope, t: Table, after: int, through: int)
    ensures forall r :: r in Select(scope, t, after, through) <==> r in t && Picked(scope, r, after, through)
  {
    hide Picked;
    if t != [] {
      SelectMembers(scope, t[..|t| - 1], after, through);
      assert t == t[..|t| - 1] + [t[|t| - 1]];
    }
  }

  lemma {:induction false} SelectOrdered(scope: Scope, t: Table, after: int, through: int)
    requires Ordered(t)
    ensures Ordered(Select(scope, t, after, through))
  {
    hide Picked;
    if t != [] {
      var front, last := t[..|t| - 1], t[|t| - 1];
      SelectOrdered(scope, front, after, through);
      SelectMembers(scope, front, after, through);
      OrderedBefore(front, last, t);
      OrderedAppend(Select(scope, front, after, through), last);
    }
  }

  lemma OrderedBefore(front: seq<Row>, last: Row, t: Table)
    requires Ordered(t) && t == front + [last]
    ensures last.rowid < SAFE_END && forall r | r in front :: r.rowid < last.rowid
  {
    assert t[|t| - 1] == last;
    forall r | r in front ensures r.rowid < last.rowid {
      var i :| 0 <= i < |front| && front[i] == r;
      assert t[i] == r;
    }
  }

  lemma OrderedAppend(s: seq<Row>, last: Row)
    requires Ordered(s) && 0 < last.rowid < SAFE_END && forall r | r in s :: r.rowid < last.rowid
    ensures Ordered(s + [last])
  {
  }

  lemma SelectBounds(scope: Scope, t: Table, after: int, through: int)
    requires Ordered(t)
    ensures var s := Select(scope, t, after, through);
            Ordered(s) && forall i | 0 <= i < |s| :: after < s[i].rowid <= through
  {
    hide Select, Shown, Ordered;
    SelectOrdered(scope, t, after, through);
    SelectMembers(scope, t, after, through);
    var s := Select(scope, t, after, through);
    forall i | 0 <= i < |s| ensures after < s[i].rowid <= through {
      assert s[i] in s;
    }
  }

  /** Cutting a selection after one of its rows: the rest is the selection from that row on. */
  lemma {:induction false} SelectFrom(scope: Scope, t: Table, after: int, through: int, n: nat)
    requires Ordered(t) && 0 < n <= |Select(scope, t, after, through)|
    ensures Select(scope, t, Select(scope, t, after, through)[n - 1].rowid, through) == Select(scope, t, after, through)[n..]
  {
    hide Shown, Select;
    var s := Select(scope, t, after, through);
    var cut := s[n - 1].rowid;
    SelectBounds(scope, t, after, through);
    Reselect(scope, t, after, cut, through);
    Suffix(s, n);
  }

  /** The rows of a list whose numbers exceed a bound. */
  function Above(s: seq<Row>, cut: int): seq<Row> {
    if s == [] then []
    else
      var last, rest := s[|s| - 1], Above(s[..|s| - 1], cut);
      if last.rowid > cut then rest + [last] else rest
  }

  lemma {:induction false} Reselect(scope: Scope, t: Table, after: int, cut: int, through: int)
    requires after <= cut
    ensures Select(scope, t, cut, through) == Above(Select(scope, t, after, through), cut)
  {
    hide Shown;
    if t != [] {
      var front, last := t[..|t| - 1], t[|t| - 1];
      Reselect(scope, front, after, cut, through);
      AboveAppend(Select(scope, front, after, through), last, cut);
      hide Above;
    }
  }

  lemma AboveAppend(s: seq<Row>, last: Row, cut: int)
    ensures Above(s + [last], cut) == if last.rowid > cut then Above(s, cut) + [last] else Above(s, cut)
  {
    assert (s + [last])[..|s|] == s;
  }

  lemma {:induction false} Suffix(s: seq<Row>, n: nat)
    requires Ordered(s) && 0 < n <= |s|
    ensures Above(s, s[n - 1].rowid) == s[n..]
  {
    var front, last := s[..|s| - 1], s[|s| - 1];
    if n < |s| {
      Suffix(front, n);
      assert s[n..] == front[n..] + [last];
    } else {
      NoneAbove(front, last.rowid);
    }
  }

  lemma {:induction false} NoneAbove(s: seq<Row>, cut: int)
    requires forall i | 0 <= i < |s| :: s[i].rowid <= cut
    ensures Above(s, cut) == []
  {
    if s != [] {
      NoneAbove(s[..|s| - 1], cut);
    }
  }

  lemma {:induction false} MaxRowBounds(t: Table)
    requires Ordered(t)
    ensures forall r | r in t :: r.rowid <= MaxRow(t)
    ensures MaxRow(t) < SAFE_END && (t != [] ==> MaxRow(t) == t[|t| - 1].rowid)
  {
    if t != [] {
      var front := t[..|t| - 1];
      MaxRowBounds(front);
      assert t == front + [t[|t| - 1]];
    }
  }

  /** Rows appended later lie past everything selected up to the old end. */
  lemma {:induction false} SelectIgnoresAppends(scope: Scope, t: Table, u: Table, after: int, through: int)
    requires t <= u && Ordered(u) && through <= MaxRow(t)
    ensures Select(scope, u, after, through) == Select(scope, t, after, through)
    decreases |u|
  {
    if |t| < |u| {
      var front, last := u[..|u| - 1], u[|u| - 1];
      SelectIgnoresAppends(scope, t, front, after, through);
      if t != [] {
        MaxRowBounds(t);
        assert t[|t| - 1] == u[|t| - 1] && u[|t| - 1].rowid < last.rowid;
      }
    } else {
      assert t == u;
    }
  }

  // ----- walks -----

  /** One request of a walk: the table it finds and the limit it asks for. */
  datatype Visit = Visit(table: Table, limit: Option<string>)

  /** The tables only grow, and every limit is one the server takes. */
  ghost predicate Growing(visits: seq<Visit>) {
    && (forall i | 0 <= i < |visits| :: Ordered(visits[i].table) && Limit(visits[i].limit).Some?)
    && (forall i, j | 0 <= i < j < |visits| :: visits[i].table <= visits[j].table)
  }

  /** Follow cursors until there is none, or the visits run out. */
  function Follow(scope: Scope, visits: seq<Visit>, cursor: Option<Cursor>): Result<Page>
    decreases |visits|
  {
    if visits == [] then Ok(Page([], cursor))
    else
      var page :- PageOf(scope, visits[0].table, visits[0].limit, cursor);
      if page.next.None? then Ok(page)
      else
        var rest :- Follow(scope, visits[1..], page.next);
        Ok(Page(page.items + rest.items, rest.next))
  }

  function After(cursor: Option<Cursor>): int {
    if cursor.Some? then cursor.value.after else 0
  }

  function Through(cursor: Option<Cursor>, t: Table): int {
    if cursor.Some? then cursor.value.through else MaxRow(t)
  }

  /** A page holds all that is left when it fits the limit. */
  lemma LastPage(scope: Scope, t: Table, raw: Option<string>, cursor: Option<Cursor>)
    requires Limit(raw).Some? && (cursor.Some? ==> CursorOk(scope, cursor.value, MaxRow(t)))
    requires |Select(scope, t, After(cursor), Through(cursor, t))| <= Limit(raw).value
    ensures PageOf(scope, t, raw, cursor) == Ok(Page(Select(scope, t, After(cursor), Through(cursor, t)), None))
  {
    hide Select, Limit, CursorOk;
  }

  /** Otherwise it holds the first rows of what is left, and its cursor stands where it stopped. */
  lemma {:induction false} FullPage(scope: Scope, t: Table, raw: Option<string>, cursor: Option<Cursor>)
    requires Ordered(t) && Limit(raw).Some? && (cursor.Some? ==> CursorOk(scope, cursor.value, MaxRow(t)))
    requires |Select(scope, t, After(cursor), Through(cursor, t))| > Limit(raw).value
    ensures var after, through, limit := After(cursor), Through(cursor, t), Limit(raw).value;
            var left := Select(scope, t, after, through);
            && limit > 0 && after < left[limit - 1].rowid <= through
            && PageOf(scope, t, raw, cursor) == Ok(Page(left[..limit], Some(Cursor(1, scope, left[limit - 1].rowid, through))))
            && Select(scope, t, left[limit - 1].rowid, through) == left[limit..]
  {
    hide Select, Limit, CursorOk, Ordered, MaxRow;
    var after, through, limit := After(cursor), Through(cursor, t), Limit(raw).value;
    var left := Select(scope, t, after, through);
    LimitIsPositive(raw);
    SelectBounds(scope, t, after, through);
    SelectFrom(scope, t, after, through, limit);
    assert left[..limit + 1][..limit] == left[..limit];
  }

  lemma LimitIsPositive(raw: Option<string>)
    requires Limit(raw).Some?
    ensures 0 < Limit(raw).value <= 100
  {
    NumeralOfValue(if raw.Some? then raw.value else "50");
  }

  /** Following from the cursor yields a prefix of the rows owed, all of them once it ends. */
  ghost predicate Owes(scope: Scope, visits: seq<Visit>, cursor: Cursor, owed: seq<Row>) {
    var r := Follow(scope, visits, Some(cursor));
    && r.Ok? && r.value.items <= owed
    && (r.value.next.None? <==> r.value.items == owed)
    && (|visits| >= |owed| && visits != [] ==> r.value.next.None?)
    && (r.value.next.Some? ==> cursor.after <= r.value.next.value.after <= cursor.through)
  }

  /**
   * From any valid cursor, following cursors over a growing table yields the rows still owed, in
   * order and once each; it ends, at the latest, after as many visits as rows are owed.
   */
  lemma {:induction false} FollowsFrom(scope: Scope, visits: seq<Visit>, cursor: Cursor)
    requires visits != [] && Growing(visits) && CursorOk(scope, cursor, MaxRow(visits[0].table))
    ensures Owes(scope, visits, cursor, Select(scope, visits[0].table, cursor.after, cursor.through))
    decreases |visits|, 1
  {
    var t, limit := visits[0].table, visits[0].limit;
    var owed := Select(scope, t, cursor.after, cursor.through);
    if |owed| <= Limit(limit).value {
      LastPage(scope, t, limit, Some(cursor));
      hide PageOf, Limit, Select, Ordered;
    } else {
      FullPage(scope, t, limit, Some(cursor));
      FollowsNext(scope, visits, cursor, PageOf(scope, t, limit, Some(cursor)).value.next.value, Limit(limit).value);
    }
  }

  lemma FollowsNext(scope: Scope, visits: seq<Visit>, cursor: Cursor, next: Cursor, n: nat)
    requires visits != [] && Growing(visits) && CursorOk(scope, cursor, MaxRow(visits[0].table))
    requires var t := visits[0].table;
             var owed := Select(scope, t, cursor.after, cursor.through);
             && 0 < n < |owed| && PageOf(scope, t, visits[0].limit, Some(cursor)) == Ok(Page(owed[..n], Some(next)))
             && cursor.after < next.after <= cursor.through && next == cursor.(after := next.after)
             && Select(scope, t, next.after, next.through) == owed[n..]
    ensures Owes(scope, visits, cursor, Select(scope, visits[0].table, cursor.after, cursor.through))
    decreases |visits|, 0
  {
    hide PageOf, Limit, Select;
    var t := visits[0].table;
    var owed := Select(scope, t, cursor.after, cursor.through);
    if |visits| > 1 {
      var u := visits[1].table;
      assert t <= u;
      GrowingTail(visits);
      MaxRowGrows(t, u);
      SelectIgnoresAppends(scope, t, u, next.after, next.through);
      FollowsFrom(scope, visits[1..], next);
    }
    hide Ordered, Growing, CursorOk;
    OwesOneMore(scope, visits, cursor, next, owed, n);
  }

  /** A full page first: what is owed after it is owed by the rest of the visits. */
  lemma OwesOneMore(scope: Scope, visits: seq<Visit>, cursor: Cursor, next: Cursor, owed: seq<Row>, n: nat)
    requires visits != [] && 0 < n < |owed| && cursor.after < next.after <= cursor.through && next.through == cursor.through
    requires PageOf(scope, visits[0].table, visits[0].limit, Some(cursor)) == Ok(Page(owed[..n], Some(next)))
    requires |visits| > 1 ==> Owes(scope, visits[1..], next, owed[n..])
    ensures Owes(scope, visits, cursor, owed)
  {
    hide PageOf;
    var rest := Follow(scope, visits[1..], Some(next));
    assert rest.Ok?;
    var r := Follow(scope, visits, Some(cursor));
    assert r == Ok(Page(owed[..n] + rest.value.items, rest.value.next));
    hide Follow;
    assert owed == owed[..n] + owed[n..];
    if r.value.items == owed {
      assert rest.value.items == r.value.items[n..];
    }
  }

  lemma GrowingTail(visits: seq<Visit>)
    requires visits != [] && Growing(visits)
    ensures Growing(visits[1..])
  {
    hide Ordered, Limit;
  }

  lemma MaxRowGrows(t: Table, u: Table)
    requires t <= u && Ordered(t) && Ordered(u)
    ensures MaxRow(t) <= MaxRow(u) && MaxRow(u) < SAFE_END
  {
    MaxRowBounds(t);
    MaxRowBounds(u);
    if t != [] {
      assert t[|t| - 1] in u;
    }
  }

  /**
   * A walk from the first page, with any limits and any appends in between, yields every shown
   * row that existed at its start exactly once and in order, and no later row. It ends within as
   * many pages as there are such rows, or one.
   */
  lemma WalkIsSnapshot(scope: Scope, visits: seq<Visit>)
    requires visits != [] && Growing(visits)
    ensures var shown := Select(scope, visits[0].table, 0, MaxRow(visits[0].table));
            var r := Follow(scope, visits, None);
            && r.Ok? && r.value.items <= shown
            && (r.value.next.None? <==> r.value.items == shown)
            && (|visits| >= |shown| ==> r.value.next.None?)
  {
    var t, limit := visits[0].table, visits[0].limit;
    var shown, start := Select(scope, t, 0, MaxRow(t)), Cursor(1, scope, 0, MaxRow(t));
    MaxRowBounds(t);
    FollowsFrom(scope, visits, start);
    assert PageOf(scope, t, limit, None) == PageOf(scope, t, limit, Some(start)) by {
      hide Select, Limit;
    }
    hide PageOf, Limit, Select, Ordered, Growing, MaxRow;
  }

  /** Every cursor handed out stands strictly further than the request, within the same snapshot. */
  lemma CursorAdvances(scope: Scope, t: Table, raw: Option<string>, cursor: Option<Cursor>)
    requires Ordered(t) && PageOf(scope, t, raw, cursor).Ok? && PageOf(scope, t, raw, cursor).value.next.Some?
    ensures var next := PageOf(scope, t, raw, cursor).value.next.value;
            && After(cursor) < next.after <= next.through == Through(cursor, t)
            && CursorOk(scope, next, MaxRow(t))
  {
    hide Select, Limit, Ordered;
    MaxRowBounds(t);
    if |Select(scope, t, After(cursor), Through(cursor, t))| > Limit(raw).value {
      FullPage(scope, t, raw, cursor);
    } else {
      LastPage(scope, t, raw, cursor);
    }
  }

  /** What such a walk yields: the shown rows, and only those, in strictly increasing order. */
  lemma SnapshotIsWhatIsShown(scope: Scope, t: Table)
    requires Ordered(t)
    ensures var shown := Select(scope, t, 0, MaxRow(t));
            && Ordered(shown)
            && forall r :: r in shown <==> r in t && Shown(scope, r)
  {
    hide Shown, Select, MaxRow;
    SelectOrdered(scope, t, 0, MaxRow(t));
    SelectMembers(scope, t, 0, MaxRow(t));
    MaxRowBounds(t);
    forall r | r in t ensures r.rowid > 0 {
      var i :| 0 <= i < |t| && t[i] == r;
    }
  }

  // ----- rows that change in place -----

  /** A table without its contents: what paging looks at. Row number, project and being shown stay. */
  function Outline(t: Table): Table {
    seq(|t|, i requires 0 <= i < |t| => t[i].(body := ""))
  }

  function OutlineVisits(visits: seq<Visit>): seq<Visit> {
    seq(|visits|, i requires 0 <= i < |visits| => visits[i].(table := Outline(visits[i].table)))
  }

  lemma OutlineAppend(t: Table, r: Row)
    ensures Outline(t + [r]) == Outline(t) + [r.(body := "")]
  {
  }

  lemma OutlineCut(t: Table, n: nat)
    requires n <= |t|
    ensures Outline(t)[..n] == Outline(t[..n])
  {
  }

  lemma {:induction false} OutlineMax(t: Table)
    ensures MaxRow(Outline(t)) == MaxRow(t)
  {
    if t != [] {
      OutlineCut(t, |t| - 1);
      OutlineMax(t[..|t| - 1]);
    }
  }

  lemma {:induction false} OutlineSelect(scope: Scope, t: Table, after: int, through: int)
    ensures Select(scope, Outline(t), after, through) == Outline(Select(scope, t, after, through))
  {
    if t != [] {
      var front, last := t[..|t| - 1], t[|t| - 1];
      OutlineCut(t, |t| - 1);
      OutlineSelect(scope, front, after, through);
      OutlineAppend(Select(scope, front, after, through), last);
      hide Outline, Shown;
      OutlineLast(t);
      ShownIgnoresBody(scope, last);
    }
  }

  lemma OutlineLast(t: Table)
    requires t != []
    ensures |Outline(t)| == |t| && Outline(t)[|t| - 1] == t[|t| - 1].(body := "")
  {
  }

  lemma ShownIgnoresBody(scope: Scope, r: Row)
    ensures Shown(scope, r.(body := "")) == Shown(scope, r)
  {
  }

  /** An outline is as long as its table and cut like it; its last row keeps its number. */
  lemma OutlineParts(t: Table, n: nat)
    ensures |Outline(t)| == |t| && (t != [] ==> Outline(t)[|t| - 1].rowid == t[|t| - 1].rowid)
    ensures n <= |t| ==> Outline(t)[..n] == Outline(t[..n])
  {
    if n <= |t| {
      OutlineCut(t, n);
    }
  }

  /** The page of an outline is the outline of the page. */
  lemma OutlinePage(scope: Scope, t: Table, raw: Option<string>, cursor: Option<Cursor>)
    ensures var p, q := PageOf(scope, t, raw, cursor), PageOf(scope, Outline(t), raw, cursor);
            && (p.Ok? <==> q.Ok?) && (p.Ok? ==> q.value == Page(Outline(p.value.items), p.value.next))
            && (p.Rejected? ==> q.Rejected? && q.code == p.code)
  {
    hide Select, MaxRow, Limit, CursorOk, Outline;
    OutlineMax(t);
    OutlineSelect(scope, t, After(cursor), Through(cursor, t));
    var found := Select(scope, t, After(cursor), Through(cursor, t));
    var limit := Limit(raw);
    if limit.Some? {
      var rows := if |found| <= limit.value + 1 then found else found[..limit.value + 1];
      OutlineParts(found, limit.value + 1);
      OutlineParts(rows, limit.value);
      OutlineParts(if |rows| > limit.value then rows[..limit.value] else rows, 0);
    }
  }

  lemma {:induction false} OutlineFollow(scope: Scope, visits: seq<Visit>, cursor: Option<Cursor>)
    ensures var p, q := Follow(scope, visits, cursor), Follow(scope, OutlineVisits(visits), cursor);
            (p.Ok? <==> q.Ok?) && (p.Ok? ==> q.value == Page(Outline(p.value.items), p.value.next))
    decreases |visits|
  {
    hide PageOf;
    if visits != [] {
      OutlinePage(scope, visits[0].table, visits[0].limit, cursor);
      assert OutlineVisits(visits)[1..] == OutlineVisits(visits[1..]);
      var page := PageOf(scope, visits[0].table, visits[0].limit, cursor);
      if page.Ok? && page.value.next.Some? {
        OutlineFollow(scope, visits[1..], page.value.next);
        var rest := Follow(scope, visits[1..], page.value.next);
        if rest.Ok? {
          assert Outline(page.value.items + rest.value.items) == Outline(page.value.items) + Outline(rest.value.items);
        }
      }
    }
  }

  function Numbers(rows: seq<Row>): seq<nat> {
    seq(|rows|, i requires 0 <= i < |rows| => rows[i].rowid)
  }

  /**
   * The same walk when rows change in place while it goes on, as long as none moves to another
   * project or is hidden or shown: the row numbers are those of the shown rows of the first
   * page's snapshot, once each and in order.
   */
  lemma WalkIsSnapshotByNumber(scope: Scope, visits: seq<Visit>)
    requires visits != [] && Growing(OutlineVisits(visits))
    ensures var shown := Numbers(Select(scope, visits[0].table, 0, MaxRow(visits[0].table)));
            var r := Follow(scope, visits, None);
            && r.Ok? && Numbers(r.value.items) <= shown
            && (r.value.next.None? <==> Numbers(r.value.items) == shown)
            && (|visits| >= |shown| ==> r.value.next.None?)
  {
    hide Growing, Follow, Select, MaxRow;
    var t, r := visits[0].table, Follow(scope, visits, None);
    OutlineFollow(scope, visits, None);
    WalkIsSnapshot(scope, OutlineVisits(visits));
    OutlineMax(t);
    OutlineSelect(scope, t, 0, MaxRow(t));
    var shown := Select(scope, t, 0, MaxRow(t));
    SameNumbers(r.value.items, shown);
  }

  lemma SameNumbers(a: seq<Row>, b: seq<Row>)
    requires Outline(a) <= Outline(b)
    ensures Numbers(a) <= Numbers(b) && (Outline(a) == Outline(b) <==> Numbers(a) == Numbers(b))
  {
    assert |Outline(a)| == |a| && |Outline(b)| == |b|;
    forall i | 0 <= i < |a| ensures Numbers(a)[i] == Numbers(b)[i] {
      assert Outline(a)[i] == Outline(b)[i];
    }
    if Numbers(a) == Numbers(b) {
      assert |Numbers(a)| == |Numbers(b)|;
    }
  }

  // ----- rows that change in any way -----

  /** Rows are appended and never deleted; whatever else they hold may change between the visits. */
  ghost predicate Evolving(visits: seq<Visit>) {
    && (forall i | 0 <= i < |visits| :: Ordered(visits[i].table) && Limit(visits[i].limit).Some?)
    && (forall i, j | 0 <= i < j < |visits| :: Numbers(visits[i].table) <= Numbers(visits[j].table))
  }

  /** For each row of a walk, the visit whose page listed it, counting from `at`. */
  function Origins(scope: Scope, visits: seq<Visit>, cursor: Option<Cursor>, at: nat): seq<nat>
    decreases |visits|
  {
    if visits == [] then []
    else
      var page := PageOf(scope, visits[0].table, visits[0].limit, cursor);
      if page.Rejected? then []
      else
        seq(|page.value.items|, _ => at) +
        if page.value.next.None? then [] else Origins(scope, visits[1..], page.value.next, at + 1)
  }

  /** The row is shown in a table. */
  predicate ShownIn(scope: Scope, t: Table, n: nat) {
    exists i | 0 <= i < |t| :: t[i].rowid == n && Shown(scope, t[i])
  }

  ghost predicate AlwaysShown(scope: Scope, visits: seq<Visit>, n: nat) {
    forall i | 0 <= i < |visits| :: ShownIn(scope, visits[i].table, n)
  }

  /** Rows with increasing numbers in a range, each listed by a later visit or the same, which showed it. */
  ghost predicate Listing(scope: Scope, visits: seq<Visit>, items: seq<Row>, origins: seq<nat>, at: nat, after: int, through: int) {
    && Ordered(items) && |origins| == |items|
    && (forall k | 0 <= k < |items| ::
          && after < items[k].rowid <= through && at <= origins[k] < at + |visits|
          && items[k] in visits[origins[k] - at].table && Shown(scope, items[k]))
    && (forall j, k | 0 <= j < k < |origins| :: origins[j] <= origins[k])
  }

  /** What a walk from a cursor lists. */
  ghost predicate Walks(scope: Scope, visits: seq<Visit>, cursor: Cursor, at: nat) {
    var r := Follow(scope, visits, Some(cursor));
    && r.Ok? && Listing(scope, visits, r.value.items, Origins(scope, visits, Some(cursor), at), at, cursor.after, cursor.through)
    && (r.value.next.None? ==>
          forall n: nat | cursor.after < n <= cursor.through && AlwaysShown(scope, visits, n) :: n in Numbers(r.value.items))
    && (r.value.next.Some? ==> |visits| <= |r.value.items|)
  }

  /** One page: its rows are shown rows of its table, and none up to where it stops is left out. */
  lemma PageLists(scope: Scope, t: Table, raw: Option<string>, cursor: Cursor)
    requires Ordered(t) && Limit(raw).Some? && CursorOk(scope, cursor, MaxRow(t))
    ensures PageOf(scope, t, raw, Some(cursor)).Ok?
    ensures var p := PageOf(scope, t, raw, Some(cursor)).value;
            && Ordered(p.items)
            && (forall k | 0 <= k < |p.items| ::
                  cursor.after < p.items[k].rowid <= cursor.through && p.items[k] in t && Shown(scope, p.items[k]))
            && (p.next.Some? ==> p.items != [] && p.next.value == cursor.(after := p.items[|p.items| - 1].rowid))
            && forall n: nat | cursor.after < n <= cursor.through && ShownIn(scope, t, n) ::
                 n in Numbers(p.items) || (p.next.Some? && p.next.value.after < n)
  {
    hide PageOf, Select, Limit, MaxRow, Shown, CursorOk, Picked, Ordered;
    var left := Select(scope, t, cursor.after, cursor.through);
    SelectBounds(scope, t, cursor.after, cursor.through);
    LeftIsShown(scope, t, cursor.after, cursor.through);
    if |left| <= Limit(raw).value {
      LastPage(scope, t, raw, Some(cursor));
    } else {
      FullPage(scope, t, raw, Some(cursor));
      CursorIsOne(scope, cursor, MaxRow(t));
      CutAt(left, Limit(raw).value);
    }
  }

  /** What is left is shown rows, all of them. */
  lemma LeftIsShown(scope: Scope, t: Table, after: int, through: int)
    ensures var left := Select(scope, t, after, through);
            && (forall k | 0 <= k < |left| :: left[k] in t && Shown(scope, left[k]))
            && forall n: nat | after < n <= through && ShownIn(scope, t, n) :: n in Numbers(left)
  {
    SelectMembers(scope, t, after, through);
    hide Select, Shown;
    var left := Select(scope, t, after, through);
    forall n: nat | after < n <= through && ShownIn(scope, t, n) ensures n in Numbers(left) {
      var i :| 0 <= i < |t| && t[i].rowid == n && Shown(scope, t[i]);
      assert t[i] in left;
      var k :| 0 <= k < |left| && left[k] == t[i];
      assert Numbers(left)[k] == n;
    }
  }

  /** Cutting ordered rows leaves ordered rows, and beyond them only higher numbers. */
  lemma CutAt(rows: seq<Row>, n: nat)
    requires Ordered(rows) && 0 < n <= |rows|
    ensures Ordered(rows[..n]) && forall x | x in Numbers(rows) :: x in Numbers(rows[..n]) || rows[n - 1].rowid < x
  {
    forall x | x in Numbers(rows) ensures x in Numbers(rows[..n]) || rows[n - 1].rowid < x {
      var k :| 0 <= k < |rows| && Numbers(rows)[k] == x;
      if k < n {
        assert Numbers(rows[..n])[k] == x;
      }
    }
  }

  lemma CursorIsOne(scope: Scope, c: Cursor, last: nat)
    requires CursorOk(scope, c, last)
    ensures c.version == 1 && c.scope == scope
  {
  }

  lemma EvolvingTail(visits: seq<Visit>)
    requires visits != [] && Evolving(visits)
    ensures Evolving(visits[1..]) && (|visits| > 1 ==> MaxRow(visits[0].table) <= MaxRow(visits[1].table))
  {
    hide Ordered, Limit;
    if |visits| > 1 {
      assert Ordered(visits[0].table) && Ordered(visits[1].table);
      MaxRowEvolves(visits[0].table, visits[1].table);
    }
  }

  lemma MaxRowEvolves(t: Table, u: Table)
    requires Ordered(t) && Ordered(u) && Numbers(t) <= Numbers(u)
    ensures MaxRow(t) <= MaxRow(u)
  {
    MaxRowBounds(t);
    MaxRowBounds(u);
    if t != [] {
      assert Numbers(t)[|t| - 1] == Numbers(u)[|t| - 1];
      assert u[|t| - 1] in u;
    }
  }

  lemma {:induction false} WalksFrom(scope: Scope, visits: seq<Visit>, cursor: Cursor, at: nat)
    requires visits != [] && Evolving(visits) && CursorOk(scope, cursor, MaxRow(visits[0].table))
    ensures Walks(scope, visits, cursor, at)
    decreases |visits|
  {
    var t, limit := visits[0].table, visits[0].limit;
    PageLists(scope, t, limit, cursor);
    EvolvingTail(visits);
    var p := PageOf(scope, t, limit, Some(cursor)).value;
    hide PageOf, Limit, Evolving, MaxRow;
    if p.next.Some? && |visits| > 1 {
      WalksFrom(scope, visits[1..], p.next.value, at + 1);
    }
    hide Walks;
    WalksOn(scope, visits, cursor, at);
  }

  /** One page first, and the rest of the visits from where it stopped. */
  lemma WalksOn(scope: Scope, visits: seq<Visit>, cursor: Cursor, at: nat)
    requires visits != [] && PageOf(scope, visits[0].table, visits[0].limit, Some(cursor)).Ok?
    requires var t, p := visits[0].table, PageOf(scope, visits[0].table, visits[0].limit, Some(cursor)).value;
             && Ordered(p.items)
             && (forall k | 0 <= k < |p.items| ::
                  cursor.after < p.items[k].rowid <= cursor.through && p.items[k] in t && Shown(scope, p.items[k]))
             && (p.next.Some? ==> p.items != [] && p.next.value == cursor.(after := p.items[|p.items| - 1].rowid))
             && (forall n: nat | cursor.after < n <= cursor.through && ShownIn(scope, t, n) ::
                   n in Numbers(p.items) || (p.next.Some? && p.next.value.after < n))
             && (p.next.Some? && |visits| > 1 ==> Walks(scope, visits[1..], p.next.value, at + 1))
    ensures Walks(scope, visits, cursor, at)
  {
    hide PageOf, Shown, ShownIn, Follow, Origins, AlwaysShown, Limit, MaxRow, Ordered, Listing, Walks;
    var p := PageOf(scope, visits[0].table, visits[0].limit, Some(cursor)).value;
    var o := Origins(scope, visits, Some(cursor), at);
    FollowsOn(scope, visits, cursor, at);
    FirstShows(scope, visits);
    if p.next.Some? && |visits| > 1 {
      var rest, tail := Follow(scope, visits[1..], p.next), Origins(scope, visits[1..], p.next, at + 1);
      WalksParts(scope, visits[1..], p.next.value, at + 1);
      ListingJoins(scope, visits, p.items, rest.value.items, tail, at, cursor, p.next.value);
      NumbersJoin(p.items, rest.value.items);
    } else {
      FirstLists(scope, visits, p.items, at, cursor);
    }
    PartsWalk(scope, visits, cursor, at);
  }

  lemma FirstLists(scope: Scope, visits: seq<Visit>, items: seq<Row>, at: nat, cursor: Cursor)
    requires visits != [] && Ordered(items)
    requires forall k | 0 <= k < |items| ::
               cursor.after < items[k].rowid <= cursor.through && items[k] in visits[0].table && Shown(scope, items[k])
    ensures Listing(scope, visits, items, seq(|items|, _ => at), at, cursor.after, cursor.through)
  {
    hide Shown;
  }

  lemma WalksParts(scope: Scope, visits: seq<Visit>, cursor: Cursor, at: nat)
    requires Walks(scope, visits, cursor, at)
    ensures var r := Follow(scope, visits, Some(cursor));
            && r.Ok? && Listing(scope, visits, r.value.items, Origins(scope, visits, Some(cursor), at), at, cursor.after, cursor.through)
            && (r.value.next.None? ==>
                  forall n: nat | cursor.after < n <= cursor.through && AlwaysShown(scope, visits, n) :: n in Numbers(r.value.items))
            && (r.value.next.Some? ==> |visits| <= |r.value.items|)
  {
    hide Follow, Origins, Listing, AlwaysShown;
  }

  lemma PartsWalk(scope: Scope, visits: seq<Visit>, cursor: Cursor, at: nat)
    requires var r := Follow(scope, visits, Some(cursor));
             && r.Ok? && Listing(scope, visits, r.value.items, Origins(scope, visits, Some(cursor), at), at, cursor.after, cursor.through)
             && (r.value.next.None? ==>
                   forall n: nat | cursor.after < n <= cursor.through && AlwaysShown(scope, visits, n) :: n in Numbers(r.value.items))
             && (r.value.next.Some? ==> |visits| <= |r.value.items|)
    ensures Walks(scope, visits, cursor, at)
  {
    hide Follow, Origins, Listing, AlwaysShown;
  }

  lemma FollowsOn(scope: Scope, visits: seq<Visit>, cursor: Cursor, at: nat)
    requires visits != [] && PageOf(scope, visits[0].table, visits[0].limit, Some(cursor)).Ok?
    ensures var p := PageOf(scope, visits[0].table, visits[0].limit, Some(cursor)).value;
            var r, o := Follow(scope, visits, Some(cursor)), Origins(scope, visits, Some(cursor), at);
            if p.next.Some? && |visits| > 1 then
              var rest, tail := Follow(scope, visits[1..], p.next), Origins(scope, visits[1..], p.next, at + 1);
              && o == seq(|p.items|, _ => at) + tail
              && (rest.Ok? ==> r == Ok(Page(p.items + rest.value.items, rest.value.next)))
            else r == Ok(p) && o == seq(|p.items|, _ => at)
  {
    hide PageOf;
    var p := PageOf(scope, visits[0].table, visits[0].limit, Some(cursor)).value;
    assert p.items + [] == p.items && seq(|p.items|, _ => at) + [] == seq(|p.items|, _ => at);
  }

  lemma FirstShows(scope: Scope, visits: seq<Visit>)
    requires visits != []
    ensures forall n: nat :: AlwaysShown(scope, visits, n) ==>
              ShownIn(scope, visits[0].table, n) && (|visits| > 1 ==> AlwaysShown(scope, visits[1..], n))
  {
    hide ShownIn;
  }

  lemma NumbersJoin(a: seq<Row>, b: seq<Row>)
    ensures forall n :: n in Numbers(a + b) <==> n in Numbers(a) || n in Numbers(b)
  {
    assert Numbers(a + b) == Numbers(a) + Numbers(b);
  }

  lemma ListingJoins(scope: Scope, visits: seq<Visit>, first: seq<Row>, rest: seq<Row>, tail: seq<nat>, at: nat, cursor: Cursor,
                     next: Cursor)
    requires |visits| > 1 && Ordered(first) && first != [] && next == cursor.(after := first[|first| - 1].rowid)
    requires forall k | 0 <= k < |first| ::
               cursor.after < first[k].rowid <= cursor.through && first[k] in visits[0].table && Shown(scope, first[k])
    requires Listing(scope, visits[1..], rest, tail, at + 1, next.after, next.through)
    ensures Listing(scope, visits, first + rest, seq(|first|, _ => at) + tail, at, cursor.after, cursor.through)
  {
    hide Shown;
    var items, origins := first + rest, seq(|first|, _ => at) + tail;
    forall k | 0 <= k < |items|
      ensures cursor.after < items[k].rowid <= cursor.through && at <= origins[k] < at + |visits|
      ensures items[k] in visits[origins[k] - at].table && Shown(scope, items[k]) {
      if k >= |first| {
        assert items[k] == rest[k - |first|] && origins[k] == tail[k - |first|];
      }
    }
  }

  /**
   * A walk while rows are appended and earlier ones change in any way, even into or out of view:
   * it lists rows of the first page's snapshot with increasing numbers, each as the visit that
   * listed it found and showed it; when it ends, every row shown throughout has been listed. Each
   * page but the last lists a row, so it ends within as many visits as there were rows, or one.
   */
  lemma WalkListsOnce(scope: Scope, visits: seq<Visit>)
    requires visits != [] && Evolving(visits)
    ensures var r, last := Follow(scope, visits, None), MaxRow(visits[0].table);
            && r.Ok? && Listing(scope, visits, r.value.items, Origins(scope, visits, None, 0), 0, 0, last)
            && (r.value.next.None? ==>
                  forall n: nat | 0 < n <= last && AlwaysShown(scope, visits, n) :: n in Numbers(r.value.items))
            && (r.value.next.Some? ==> |visits| <= |r.value.items|)
  {
    var t := visits[0].table;
    var start := Cursor(1, scope, 0, MaxRow(t));
    assert Ordered(t);
    MaxRowBounds(t);
    hide PageOf, Limit, Ordered, Evolving, MaxRow, Listing, AlwaysShown, Follow, Origins;
    WalksFrom(scope, visits, start, 0);
    StartsAlike(scope, visits, start);
  }

  /** Without a cursor a walk starts at the beginning of what there is. */
  lemma StartsAlike(scope: Scope, visits: seq<Visit>, start: Cursor)
    requires visits != [] && start == Cursor(1, scope, 0, MaxRow(visits[0].table)) && CursorOk(scope, start, MaxRow(visits[0].table))
    ensures Follow(scope, visits, None) == Follow(scope, visits, Some(start))
    ensures Origins(scope, visits, None, 0) == Origins(scope, visits, Some(start), 0)
  {
    hide Select, Limit, MaxRow;
    assert PageOf(scope, visits[0].table, visits[0].limit, None) == PageOf(scope, visits[0].table, visits[0].limit, Some(start));
    hide PageOf, CursorOk;
  }
}
