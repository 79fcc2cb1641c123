/** Keyset pagination of the audit log (newest first) and of tenants and tenant users (oldest
    first). A row's timestamp is stored in microseconds, but the cursor carries it through
    `toISOString()`, which keeps whole milliseconds only. */
module Pagination {
  import opened Options

  datatype Direction = OldestFirst | NewestFirst

  datatype Row = Row(micros: nat, id: nat)

  datatype Cursor = Cursor(micros: nat, id: nat)

  datatype Page = Page(items: seq<Row>, next: Option<Cursor>, hasMore: bool)

  /** The listing order on (created_at, id) pairs. */
  predicate Precedes(dir: Direction, micros: nat, id: nat, micros': nat, id': nat) {
    if dir == OldestFirst then micros < micros' || (micros == micros' && id < id')
    else micros > micros' || (micros == micros' && id > id')
  }

  predicate Listed(dir: Direction, r: Row, r': Row) { Precedes(dir, r.micros, r.id, r'.micros, r'.id) }

  /** What the `WHERE (created_at, id) > cursor` (or `<`) clause lets through. */
  predicate After(dir: Direction, cursor: Option<Cursor>, r: Row) {
    cursor.Some? ==> Precedes(dir, cursor.value.micros, cursor.value.id, r.micros, r.id)
  }

  function CursorOf(r: Row): Cursor { Cursor(r.micros / 1000 * 1000, r.id) }

  /** The rows a query without a cursor would return: each once, in listing order. */
  ghost predicate Ordered(dir: Direction, rows: seq<Row>) {
    forall i, j {:trigger Listed(dir, rows[i], rows[j])} :: 0 <= i < j < |rows| ==> Listed(dir, rows[i], rows[j])
  }

  function Matching(dir: Direction, rows: seq<Row>, cursor: Option<Cursor>): seq<Row> {
    if rows == [] then []
    else (if After(dir, cursor, rows[0]) then [rows[0]] else []) + Matching(dir, rows[1..], cursor)
  }

  function Take(rows: seq<Row>, n: nat): seq<Row> { if |rows| <= n then rows else rows[..n] }

  function FindPage(dir: Direction, rows: seq<Row>, limit: nat, cursor: Option<Cursor>): Page {
    PageOf(Matching(dir, rows, cursor), limit)
  }

  /** One row more than the page holds is fetched, to see whether anything is left. */
  function PageOf(matching: seq<Row>, limit: nat): Page {
    var fetched := Take(matching, limit + 1);
    var hasMore := |fetched| > limit;
    var items := if hasMore then fetched[..limit] else fetched;
    Page(items, if hasMore && items != [] then Some(CursorOf(items[|items| - 1])) else None, hasMore)
  }

  /** What a caller has listed after at most `n` requests, each following the last cursor. */
  datatype Walk = Walk(listed: seq<Row>, next: Option<Cursor>, done: bool)

  function FollowPages(pages: Option<Cursor> -> Page, cursor: Option<Cursor>, n: nat): Walk
    decreases n
  {
    if n == 0 then Walk([], cursor, false)
    else
      var page := pages(cursor);
      if page.next.None? then Walk(page.items, None, true)
      else
        var rest := FollowPages(pages, page.next, n - 1);
        Walk(page.items + rest.listed, rest.next, rest.done)
  }

  /** The table seen through its pages. */
  function Pages(dir: Direction, rows: seq<Row>, limit: nat): Option<Cursor> -> Page {
    cursor => FindPage(dir, rows, limit, cursor)
  }

  function Follow(dir: Direction, rows: seq<Row>, limit: nat, cursor: Option<Cursor>, n: nat): Walk {
    FollowPages(Pages(dir, rows, limit), cursor, n)
  }

  /** How many rows of an ordered table a cursor leaves behind. */
  function Passed(dir: Direction, rows: seq<Row>, cursor: Option<Cursor>): (k: nat)
    ensures k <= |rows|
  {
    if rows == [] then 0
    else if After(dir, cursor, rows[0]) then 0
    else 1 + Passed(dir, rows[1..], cursor)
  }

  lemma {:induction false} OrderedTail(dir: Direction, rows: seq<Row>)
    requires Ordered(dir, rows) && rows != []
    ensures Ordered(dir, rows[1..])
  {
    var tail := rows[1..];
    forall i, j | 0 <= i < j < |tail| ensures Listed(dir, tail[i], tail[j]) {
      assert Listed(dir, rows[i + 1], rows[j + 1]);
    }
  }

  /** Once a row lies after the cursor, so do all that are listed behind it. */
  lemma {:induction false} AfterAll(dir: Direction, rows: seq<Row>, cursor: Option<Cursor>)
    requires Ordered(dir, rows) && rows != [] && After(dir, cursor, rows[0])
    ensures forall i :: 0 <= i < |rows| ==> After(dir, cursor, rows[i])
  {
    forall i | 0 < i < |rows| ensures After(dir, cursor, rows[i]) { assert Listed(dir, rows[0], rows[i]); }
  }

  /** The rows from position `k` on are those after the cursor. */
  ghost predicate FromOn(dir: Direction, rows: seq<Row>, cursor: Option<Cursor>, k: nat) {
    forall i :: 0 <= i < |rows| ==> (After(dir, cursor, rows[i]) <==> k <= i)
  }

  lemma {:induction false} FromOnMore(dir: Direction, rows: seq<Row>, cursor: Option<Cursor>, k: nat)
    requires rows != [] && !After(dir, cursor, rows[0]) && FromOn(dir, rows[1..], cursor, k)
    ensures FromOn(dir, rows, cursor, k + 1)
  {
    forall i | 0 < i < |rows| ensures After(dir, cursor, rows[i]) <==> k + 1 <= i {
      assert rows[i] == rows[1..][i - 1];
    }
  }

  /** Over an ordered table the clause selects exactly the rows from some position on. */
  lemma {:induction false} MatchingIsSuffix(dir: Direction, rows: seq<Row>, cursor: Option<Cursor>)
    requires Ordered(dir, rows)
    ensures var k := Passed(dir, rows, cursor);
            Matching(dir, rows, cursor) == rows[k..] && FromOn(dir, rows, cursor, k)
  {
    if rows != [] {
      var tail := rows[1..];
      OrderedTail(dir, rows);
      MatchingIsSuffix(dir, tail, cursor);
      if After(dir, cursor, rows[0]) {
        AfterAll(dir, rows, cursor);
        assert tail != [] ==> tail[0] == rows[1];
        assert Passed(dir, tail, cursor) == 0 && tail[0..] == tail;
      } else {
        FromOnMore(dir, rows, cursor, Passed(dir, tail, cursor));
      }
    }
  }

  /** The next `limit` rows from position `k`, with a cursor exactly when rows are left. */
  function PageAt(rows: seq<Row>, limit: nat, k: nat): Page
    requires limit >= 1 && k <= |rows|
  {
    if k + limit < |rows| then Page(rows[k..k + limit], Some(CursorOf(rows[k + limit - 1])), true)
    else Page(rows[k..], None, false)
  }

  lemma {:induction false} SuffixPage(rows: seq<Row>, limit: nat, k: nat)
    requires limit >= 1 && k <= |rows|
    ensures PageOf(rows[k..], limit) == PageAt(rows, limit, k)
  {
    if k + limit < |rows| {
      assert rows[k..][..limit + 1][..limit] == rows[k..k + limit];
    }
  }

  /** A page holds the next `limit` rows after the cursor, and carries a cursor exactly when rows
      are left. */
  lemma {:induction false} PageContents(dir: Direction, rows: seq<Row>, limit: nat, cursor: Option<Cursor>)
    requires Ordered(dir, rows) && limit >= 1
    ensures FindPage(dir, rows, limit, cursor) == PageAt(rows, limit, Passed(dir, rows, cursor))
    ensures FromOn(dir, rows, cursor, Passed(dir, rows, cursor))
  {
    MatchingIsSuffix(dir, rows, cursor);
    SuffixPage(rows, limit, Passed(dir, rows, cursor));
  }

  // ----- what a cursor leaves behind ----------------------------------------------------

  predicate WholeMillis(r: Row) { r.micros % 1000 == 0 }

  /** A cursor made from row `j - 1` passes exactly the rows up to it: oldest first when the
      row's time is a whole millisecond, newest first when the next row lies after the cursor.
      Otherwise the first falls back and the second jumps ahead. */
  lemma {:induction false} CursorPosition(dir: Direction, rows: seq<Row>, j: nat)
    requires Ordered(dir, rows) && 0 < j < |rows|
    ensures var k := Passed(dir, rows, Some(CursorOf(rows[j - 1])));
            && (dir == OldestFirst ==> k <= j && (k == j <==> WholeMillis(rows[j - 1])))
            && (dir == NewestFirst ==> k >= j && (k == j <==> After(dir, Some(CursorOf(rows[j - 1])), rows[j])))
            && (WholeMillis(rows[j - 1]) ==> k == j)
  {
    MatchingIsSuffix(dir, rows, Some(CursorOf(rows[j - 1])));
    assert Listed(dir, rows[j - 1], rows[j]);
  }

  /** Whether the page break just before row `j` loses or repeats nothing. */
  predicate CleanBreak(dir: Direction, rows: seq<Row>, j: nat)
    requires 0 < j < |rows|
  {
    if dir == OldestFirst then WholeMillis(rows[j - 1])
    else After(dir, Some(CursorOf(rows[j - 1])), rows[j])
  }

  /** Every page break from position `p` on, `limit` rows apart, is clean. */
  predicate CleanBreaks(dir: Direction, rows: seq<Row>, limit: nat, p: nat)
    requires limit >= 1
    decreases |rows| - p
  {
    p + limit < |rows| ==> CleanBreak(dir, rows, p + limit) && CleanBreaks(dir, rows, limit, p + limit)
  }

  // ----- walks by position --------------------------------------------------------------

  ghost predicate Bounded(resume: nat -> nat, size: nat) { forall j :: resume(j) <= size }

  /** The walk by positions in the table: a page that ends just before row `j` is followed by
      one that starts at row `resume(j)`. */
  ghost function Stride(rows: seq<Row>, limit: nat, resume: nat -> nat, p: nat, n: nat): (w: (seq<Row>, nat, bool))
    requires limit >= 1 && p <= |rows| && Bounded(resume, |rows|)
    ensures w.1 <= |rows|
    decreases n
  {
    if n == 0 then ([], p, false)
    else if p + limit < |rows| then
      var rest := Stride(rows, limit, resume, resume(p + limit), n - 1);
      (rows[p..p + limit] + rest.0, rest.1, rest.2)
    else (rows[p..], |rows|, true)
  }

  /** A walk by cursors that has listed what a walk by positions has, and stands where it does. */
  ghost predicate Tracks(w: Walk, stride: (seq<Row>, nat, bool), at: Option<Cursor> -> nat) {
    && w.listed == stride.0 && w.done == stride.2
    && (if w.done then w.next == None else stride.1 == at(w.next))
  }

  lemma {:induction false} PagesWalk(
      pages: Option<Cursor> -> Page, at: Option<Cursor> -> nat, rows: seq<Row>, limit: nat, resume: nat -> nat,
      cursor: Option<Cursor>, n: nat)
    requires limit >= 1 && Bounded(resume, |rows|)
    requires forall c :: at(c) <= |rows| && pages(c) == PageAt(rows, limit, at(c))
    requires forall j :: 0 < j < |rows| ==> resume(j) == at(Some(CursorOf(rows[j - 1])))
    ensures Tracks(FollowPages(pages, cursor, n), Stride(rows, limit, resume, at(cursor), n), at)
    decreases n
  {
    if n > 0 {
      if at(cursor) + limit < |rows| {
        PagesWalk(pages, at, rows, limit, resume, Some(CursorOf(rows[at(cursor) + limit - 1])), n - 1);
      }
    }
  }

  /** Every page break from position `p` on, `limit` rows apart, is resumed just there. */
  predicate Straight(resume: nat -> nat, size: nat, limit: nat, p: nat)
    requires limit >= 1
    decreases size - p
  {
    p + limit < size ==> resume(p + limit) == p + limit && Straight(resume, size, limit, p + limit)
  }

  lemma {:induction false} StraightWalk(rows: seq<Row>, limit: nat, resume: nat -> nat, p: nat, n: nat)
    requires limit >= 1 && p <= |rows| && Bounded(resume, |rows|) && n > |rows| - p
    requires Straight(resume, |rows|, limit, p)
    ensures Stride(rows, limit, resume, p, n) == (rows[p..], |rows|, true)
    decreases n
  {
    if p + limit < |rows| {
      StraightWalk(rows, limit, resume, p + limit, n - 1);
      assert rows[p..p + limit] + rows[p + limit..] == rows[p..];
    }
  }

  lemma {:induction false} StrideStarts(rows: seq<Row>, limit: nat, resume: nat -> nat, k: nat, n: nat)
    requires limit >= 1 && k <= |rows| && Bounded(resume, |rows|) && Stride(rows, limit, resume, k, n).0 != []
    ensures k < |rows| && Stride(rows, limit, resume, k, n).0[0] == rows[k]
  {}

  lemma {:induction false} RestOfRows(rows: seq<Row>, p: nat, j: nat, rest: seq<Row>)
    requires p <= j <= |rows| && rows[p..j] + rest == rows[p..]
    ensures rest == rows[j..]
  {
    assert rest == (rows[p..j] + rest)[j - p..] == rows[p..][j - p..];
  }

  lemma {:induction false} SamePosition(dir: Direction, rows: seq<Row>, i: nat, j: nat)
    requires Ordered(dir, rows) && i < |rows| && j < |rows| && rows[i] == rows[j]
    ensures i == j
  {
    assert i < j ==> Listed(dir, rows[i], rows[j]);
    assert j < i ==> Listed(dir, rows[j], rows[i]);
  }

  lemma {:induction false} OnlyStraightWalks(
      dir: Direction, rows: seq<Row>, limit: nat, resume: nat -> nat, p: nat, n: nat)
    requires Ordered(dir, rows) && limit >= 1 && p <= |rows| && Bounded(resume, |rows|)
    requires Stride(rows, limit, resume, p, n).0 == rows[p..] && Stride(rows, limit, resume, p, n).2
    ensures Straight(resume, |rows|, limit, p)
    decreases n
  {
    if p + limit < |rows| {
      var j, k := p + limit, resume(p + limit);
      RestOfRows(rows, p, j, Stride(rows, limit, resume, k, n - 1).0);
      StrideStarts(rows, limit, resume, k, n - 1);
      SamePosition(dir, rows, k, j);
      OnlyStraightWalks(dir, rows, limit, resume, j, n - 1);
    }
  }

  /** A walk that never resumes ahead of a break skips nothing. */
  lemma {:induction false} BackwardStride(rows: seq<Row>, limit: nat, resume: nat -> nat, p: nat, n: nat, i: nat)
    requires limit >= 1 && p <= i < |rows| && Bounded(resume, |rows|)
    requires forall j :: 0 < j < |rows| ==> resume(j) <= j
    ensures var (listed, next, done) := Stride(rows, limit, resume, p, n);
            rows[i] in listed || (!done && next <= i)
    decreases n
  {
    if n > 0 {
      if p + limit <= i {
        BackwardStride(rows, limit, resume, resume(p + limit), n - 1, i);
      } else if p + limit < |rows| {
        assert rows[i] == rows[p..p + limit][i - p];
      } else {
        assert rows[i] == rows[p..][i - p];
      }
    }
  }

  ghost predicate At(rows: seq<Row>, p: nat, r: Row) { exists i :: p <= i < |rows| && rows[i] == r }

  /** Rows in listing order, all from position `p` on. */
  ghost predicate StaysOrdered(dir: Direction, rows: seq<Row>, p: nat, listed: seq<Row>) {
    Ordered(dir, listed) && forall r :: r in listed ==> At(rows, p, r)
  }

  /** A walk that never resumes behind a break repeats nothing, and ends. */
  lemma {:induction false} ForwardStride(
      dir: Direction, rows: seq<Row>, limit: nat, resume: nat -> nat, p: nat, n: nat)
    requires Ordered(dir, rows) && limit >= 1 && p <= |rows| && Bounded(resume, |rows|)
    requires forall j :: 0 < j < |rows| ==> resume(j) >= j
    ensures StaysOrdered(dir, rows, p, Stride(rows, limit, resume, p, n).0)
    ensures n > |rows| - p ==> Stride(rows, limit, resume, p, n).2
    decreases n
  {
    if n > 0 {
      if p + limit < |rows| {
        var k := resume(p + limit);
        ForwardStride(dir, rows, limit, resume, k, n - 1);
        JoinOrdered(dir, rows, p, p + limit, k, Stride(rows, limit, resume, k, n - 1).0);
      } else {
        JoinOrdered(dir, rows, p, |rows|, |rows|, []);
        assert rows[p..|rows|] + [] == rows[p..];
      }
    }
  }

  lemma {:induction false} JoinOrdered(dir: Direction, rows: seq<Row>, p: nat, j: nat, k: nat, rest: seq<Row>)
    requires Ordered(dir, rows) && p <= j <= k <= |rows|
    requires StaysOrdered(dir, rows, k, rest)
    ensures StaysOrdered(dir, rows, p, rows[p..j] + rest)
  {
    var all := rows[p..j] + rest;
    forall a, b | 0 <= a < b < |all| ensures Listed(dir, all[a], all[b]) {
      if b < j - p {
        assert Listed(dir, rows[p + a], rows[p + b]);
      } else if j - p <= a {
        assert Listed(dir, rest[a - (j - p)], rest[b - (j - p)]);
      } else {
        assert rest[b - (j - p)] in rest && At(rows, k, rest[b - (j - p)]);
        var i :| k <= i < |rows| && rows[i] == all[b];
        assert Listed(dir, rows[p + a], rows[i]);
      }
    }
  }

  // ----- following cursors --------------------------------------------------------------

  /** Where a cursor stands. */
  function Position(dir: Direction, rows: seq<Row>): Option<Cursor> -> nat { cursor => Passed(dir, rows, cursor) }

  /** Where the walk resumes after a page that ends just before row `j`. */
  function Resume(dir: Direction, rows: seq<Row>): nat -> nat {
    j => if 0 < j <= |rows| then Passed(dir, rows, Some(CursorOf(rows[j - 1]))) else 0
  }

  /** Following cursors is walking positions. */
  lemma {:induction false} FollowIsStride(dir: Direction, rows: seq<Row>, limit: nat, n: nat)
    requires Ordered(dir, rows) && limit >= 1
    ensures Bounded(Resume(dir, rows), |rows|)
    ensures Tracks(Follow(dir, rows, limit, None, n), Stride(rows, limit, Resume(dir, rows), 0, n), Position(dir, rows))
  {
    var pages, at, resume := Pages(dir, rows, limit), Position(dir, rows), Resume(dir, rows);
    forall c ensures at(c) <= |rows| && pages(c) == PageAt(rows, limit, at(c)) { PageContents(dir, rows, limit, c); }
    assert Bounded(resume, |rows|);
    assert at(None) == 0;
    PagesWalk(pages, at, rows, limit, resume, None, n);
  }

  lemma {:induction false} CleanIsStraight(dir: Direction, rows: seq<Row>, limit: nat, p: nat)
    requires Ordered(dir, rows) && limit >= 1
    ensures CleanBreaks(dir, rows, limit, p) <==> Straight(Resume(dir, rows), |rows|, limit, p)
    decreases |rows| - p
  {
    if p + limit < |rows| {
      CursorPosition(dir, rows, p + limit);
      CleanIsStraight(dir, rows, limit, p + limit);
    }
  }

  lemma {:induction false} CleanFollow(dir: Direction, rows: seq<Row>, limit: nat, n: nat)
    requires Ordered(dir, rows) && limit >= 1 && CleanBreaks(dir, rows, limit, 0) && n > |rows|
    ensures Follow(dir, rows, limit, None, n) == Walk(rows, None, true)
  {
    FollowIsStride(dir, rows, limit, n);
    CleanIsStraight(dir, rows, limit, 0);
    StraightWalk(rows, limit, Resume(dir, rows), 0, n);
    assert rows[0..] == rows;
  }

  lemma {:induction false} OnlyCleanFollows(dir: Direction, rows: seq<Row>, limit: nat, n: nat)
    requires Ordered(dir, rows) && limit >= 1 && Follow(dir, rows, limit, None, n) == Walk(rows, None, true)
    ensures CleanBreaks(dir, rows, limit, 0)
  {
    FollowIsStride(dir, rows, limit, n);
    assert rows[0..] == rows;
    OnlyStraightWalks(dir, rows, limit, Resume(dir, rows), 0, n);
    CleanIsStraight(dir, rows, limit, 0);
  }

  /** Following cursors from the first page ends having listed every row exactly once, in order,
      if and only if every page break is clean. */
  lemma {:induction false} ListsEachRowOnce(dir: Direction, rows: seq<Row>, limit: nat)
    requires Ordered(dir, rows) && limit >= 1
    ensures (exists n :: Follow(dir, rows, limit, None, n) == Walk(rows, None, true))
            <==> CleanBreaks(dir, rows, limit, 0)
  {
    if CleanBreaks(dir, rows, limit, 0) { CleanFollow(dir, rows, limit, |rows| + 1); }
    if n :| Follow(dir, rows, limit, None, n) == Walk(rows, None, true) { OnlyCleanFollows(dir, rows, limit, n); }
  }

  /** With whole-millisecond timestamps both directions list every row exactly once and stop. */
  lemma {:induction false} WholeMillisList(dir: Direction, rows: seq<Row>, limit: nat)
    requires Ordered(dir, rows) && limit >= 1
    requires forall i :: 0 <= i < |rows| ==> WholeMillis(rows[i])
    ensures Follow(dir, rows, limit, None, |rows| + 1) == Walk(rows, None, true)
  {
    WholeMillisBreaks(dir, rows, limit, 0);
    CleanFollow(dir, rows, limit, |rows| + 1);
  }

  lemma {:induction false} WholeMillisBreaks(dir: Direction, rows: seq<Row>, limit: nat, p: nat)
    requires Ordered(dir, rows) && limit >= 1
    requires forall i :: 0 <= i < |rows| ==> WholeMillis(rows[i])
    ensures CleanBreaks(dir, rows, limit, p)
    decreases |rows| - p
  {
    if p + limit < |rows| {
      CursorPosition(dir, rows, p + limit);
      WholeMillisBreaks(dir, rows, limit, p + limit);
    }
  }

  /** Oldest first never skips: after any number of requests a row not listed yet still lies
      ahead of the cursor, so a walk that ends has listed every row. */
  lemma {:induction false} OldestNeverSkips(rows: seq<Row>, limit: nat, n: nat, i: nat)
    requires Ordered(OldestFirst, rows) && limit >= 1 && i < |rows|
    ensures var w := Follow(OldestFirst, rows, limit, None, n);
            rows[i] in w.listed || (!w.done && After(OldestFirst, w.next, rows[i]))
  {
    var resume := Resume(OldestFirst, rows);
    FollowIsStride(OldestFirst, rows, limit, n);
    forall j | 0 < j < |rows| ensures resume(j) <= j { CursorPosition(OldestFirst, rows, j); }
    BackwardStride(rows, limit, resume, 0, n, i);
    MatchingIsSuffix(OldestFirst, rows, Follow(OldestFirst, rows, limit, None, n).next);
  }

  /** Newest first never repeats a row, lists in order, and always ends. */
  lemma {:induction false} NewestNeverRepeats(rows: seq<Row>, limit: nat, n: nat)
    requires Ordered(NewestFirst, rows) && limit >= 1
    ensures var w := Follow(NewestFirst, rows, limit, None, n);
            && Ordered(NewestFirst, w.listed)
            && (forall r :: r in w.listed ==> r in rows)
            && (n > |rows| ==> w.done)
  {
    var resume := Resume(NewestFirst, rows);
    FollowIsStride(NewestFirst, rows, limit, n);
    forall j | 0 < j < |rows| ensures resume(j) >= j { CursorPosition(NewestFirst, rows, j); }
    ForwardStride(NewestFirst, rows, limit, resume, 0, n);
    forall r | r in Follow(NewestFirst, rows, limit, None, n).listed ensures r in rows { assert At(rows, 0, r); }
  }

  /** With finer timestamps the newest-first list can lose a row ... */
  lemma {:induction false} NewestMaySkip()
    ensures var rows := [Row(1900, 2), Row(1100, 1)];
            && Ordered(NewestFirst, rows)
            && Follow(NewestFirst, rows, 1, None, 2) == Walk([rows[0]], None, true)
  {
    var rows := [Row(1900, 2), Row(1100, 1)];
    var next, resume := Some(Cursor(1000, 2)), Resume(NewestFirst, rows);
    FollowIsStride(NewestFirst, rows, 1, 2);
    assert Passed(NewestFirst, rows[1..], next) == 1 && resume(1) == Passed(NewestFirst, rows, next) == 2;
    assert Stride(rows, 1, resume, 2, 1) == ([], 2, true);
  }

  /** ... and the oldest-first list can give the same row for ever. */
  lemma {:induction false} OldestMayNeverEnd(n: nat)
    ensures var rows := [Row(1500, 1), Row(2500, 2)];
            && Ordered(OldestFirst, rows)
            && var w := Follow(OldestFirst, rows, 1, None, n);
               |w.listed| == n && (forall r :: r in w.listed ==> r == rows[0]) && !w.done
  {
    var rows := [Row(1500, 1), Row(2500, 2)];
    var resume := Resume(OldestFirst, rows);
    FollowIsStride(OldestFirst, rows, 1, n);
    assert resume(1) == 0;
    StuckStride(rows, resume, n);
  }

  lemma {:induction false} StuckStride(rows: seq<Row>, resume: nat -> nat, n: nat)
    requires |rows| == 2 && Bounded(resume, 2) && resume(1) == 0
    ensures var (listed, _, done) := Stride(rows, 1, resume, 0, n);
            |listed| == n && (forall r :: r in listed ==> r == rows[0]) && !done
  {
    if n > 0 { StuckStride(rows, resume, n - 1); }
  }
}
