/** Paged reads of an unchanging result: what the database driver promises, and the
    scan of one page. */
module Paging {
  /** The token to resume from: none, or a position with a bound on how many empty
      pages may still come before the next row. */
  datatype PageState = NoState | At(offset: nat, stalls: nat)

  datatype Page = Page(count: nat, next: PageState)

  /** The driver: a page of at most the requested number of rows from a position. A
      size that is not positive asks for everything in one page. */
  type Pager = (nat, nat, int) -> Page

  ghost predicate FairPage(p: Page, total: nat, offset: nat, stalls: nat, n: int) {
    && offset + p.count <= total
    && (n > 0 ==> p.count <= n)
    && (n <= 0 ==> p.next.NoState?)
    && (p.next.NoState? ==> offset + p.count == total)
    && (p.next.At? ==> p.next.offset == offset + p.count && (p.count > 0 || p.next.stalls < stalls))
  }

  ghost predicate Fair(pager: Pager, total: nat) {
    forall offset: nat, stalls: nat, n: int :: offset <= total ==>
      FairPage(pager(offset, stalls, n), total, offset, stalls, n)
  }

  lemma PageIsFair(pager: Pager, total: nat, offset: nat, stalls: nat, n: int)
    requires Fair(pager, total) && offset <= total
    ensures FairPage(pager(offset, stalls, n), total, offset, stalls, n)
  {
  }

  function Filter<R>(rows: seq<R>, accept: R -> bool): (r: seq<R>)
    ensures |r| <= |rows|
  {
    if rows == [] then []
    else (if accept(rows[0]) then [rows[0]] else []) + Filter(rows[1..], accept)
  }

  lemma {:induction false} FilterOfAppend<R>(a: seq<R>, b: seq<R>, accept: R -> bool)
    ensures Filter(a + b, accept) == Filter(a, accept) + Filter(b, accept)
  {
    if a == [] {
      assert a + b == b;
    } else {
      assert (a + b)[0] == a[0] && (a + b)[1..] == a[1..] + b;
      FilterOfAppend(a[1..], b, accept);
      var head := if accept(a[0]) then [a[0]] else [];
      assert Filter(a + b, accept) == head + Filter(a[1..] + b, accept);
      assert head + (Filter(a[1..], accept) + Filter(b, accept)) == head + Filter(a[1..], accept) + Filter(b, accept);
    }
  }

  lemma {:induction false} FilterMembers<R(!new)>(rows: seq<R>, accept: R -> bool)
    ensures forall r :: r in Filter(rows, accept) <==> r in rows && accept(r)
  {
    if rows != [] {
      FilterMembers(rows[1..], accept);
      assert rows == [rows[0]] + rows[1..];
    }
  }

  lemma Without<R>(b: seq<R>, i: nat)
    requires i < |b|
    ensures multiset(b) == multiset([b[i]]) + multiset(b[..i] + b[i + 1..])
  {
    assert b == b[..i] + ([b[i]] + b[i + 1..]);
  }

  lemma RestIsPermutation<R>(a: seq<R>, b: seq<R>, i: nat)
    requires a != [] && i < |b| && b[i] == a[0] && multiset(a) == multiset(b)
    ensures multiset(a[1..]) == multiset(b[..i] + b[i + 1..])
  {
    Without(a, 0);
    assert a[..0] + a[1..] == a[1..];
    Without(b, i);
    SameRest(multiset([a[0]]), multiset(a[1..]), multiset(b[..i] + b[i + 1..]));
  }

  lemma SameRest<R>(x: multiset<R>, y: multiset<R>, z: multiset<R>)
    requires x + y == x + z
    ensures y == z
  {
    assert y == (x + y) - x && z == (x + z) - x;
  }

  /** Filtering a permutation gives a permutation. */
  lemma {:induction false} FilterOfPermutation<R>(a: seq<R>, b: seq<R>, accept: R -> bool)
    requires multiset(a) == multiset(b)
    ensures multiset(Filter(a, accept)) == multiset(Filter(b, accept))
    decreases |a|
  {
    if a == [] {
      assert |multiset(b)| == 0;
    } else {
      assert a == [a[0]] + a[1..];
      assert a[0] in multiset(b);
      var i :| 0 <= i < |b| && b[i] == a[0];
      assert b == b[..i] + ([b[i]] + b[i + 1..]);
      var rest := b[..i] + b[i + 1..];
      RestIsPermutation(a, b, i);
      hide Filter;
      FilterOfPermutation(a[1..], rest, accept);
      FilterOfAppend([a[0]], a[1..], accept);
      FilterOfAppend(b[..i], [b[i]] + b[i + 1..], accept);
      FilterOfAppend([b[i]], b[i + 1..], accept);
      FilterOfAppend(b[..i], b[i + 1..], accept);
    }
  }

  /** The inner loop: append what the filter accepts until the reply is full. A page
      no larger than the demand is always read to its last row, so stopping never
      strands unread rows. */
  method ScanPage<R>(page: seq<R>, found: seq<R>, size: int, accept: R -> bool) returns (r: seq<R>)
    requires size < 0 || |found| == size || |found| + |page| <= size
    ensures r == if |found| == size then found else found + Filter(page, accept)
  {
    if |found| == size {
      return found;
    }
    r := found;
    var j := 0;
    while |r| != size && j < |page|
      invariant 0 <= j <= |page|
      invariant r + Filter(page[j..], accept) == found + Filter(page, accept)
      invariant size < 0 || |r| + |page| - j <= size
      decreases |page| - j
    {
      assert page[j..][1..] == page[j + 1..];
      if accept(page[j]) {
        r := r + [page[j]];
      }
      j := j + 1;
    }
    assert j == |page|;
  }

  function Offset(state: PageState): nat { if state.At? then state.offset else 0 }

  function Stalls(state: PageState, empties: nat): nat { if state.At? then state.stalls else empties }

  // Runs of one parent: getFilteredRuns

  datatype Reply<R> = Reply(found: seq<R>, state: PageState)

  function FetchRuns<R>(
      rows: seq<R>, pager: Pager, empties: nat, state: PageState, found: seq<R>, size: int, accept: R -> bool): Reply<R>
    requires Fair(pager, |rows|) && Offset(state) <= |rows|
    requires size < 0 || |found| < size
    decreases |rows| - Offset(state), Stalls(state, empties)
  {
    var page := pager(Offset(state), Stalls(state, empties), size - |found|);
    PageIsFair(pager, |rows|, Offset(state), Stalls(state, empties), size - |found|);
    var found' := found + Filter(rows[Offset(state)..Offset(state) + page.count], accept);
    if page.next.NoState? || |found'| == size then Reply(found', page.next)
    else FetchRuns(rows, pager, empties, page.next, found', size, accept)
  }

  /** A reply holds the filtered rows between its start and its token; it is short
      only when the rows are exhausted. */
  ghost predicate Covers<R>(rows: seq<R>, at: nat, found: seq<R>, size: int, accept: R -> bool, r: Reply<R>)
    requires at <= |rows|
  {
    var stop := if r.state.At? then r.state.offset else |rows|;
    && at <= stop <= |rows|
    && r.found == found + Filter(rows[at..stop], accept)
    && (r.state.At? ==> |r.found| == size)
    && (size >= 0 ==> |r.found| <= size)
  }

  lemma CoversJoin<R>(rows: seq<R>, at: nat, mid: nat, found: seq<R>, size: int, accept: R -> bool, r: Reply<R>)
    requires at <= mid <= |rows|
    requires Covers(rows, mid, found + Filter(rows[at..mid], accept), size, accept, r)
    ensures Covers(rows, at, found, size, accept, r)
  {
    hide Filter;
    var stop := if r.state.At? then r.state.offset else |rows|;
    assert rows[at..stop] == rows[at..mid] + rows[mid..stop];
    FilterOfAppend(rows[at..mid], rows[mid..stop], accept);
    assert found + (Filter(rows[at..mid], accept) + Filter(rows[mid..stop], accept))
        == found + Filter(rows[at..mid], accept) + Filter(rows[mid..stop], accept);
  }

  lemma {:induction false} FetchRunsSpec<R>(
      rows: seq<R>, pager: Pager, empties: nat, state: PageState, found: seq<R>, size: int, accept: R -> bool)
    requires Fair(pager, |rows|) && Offset(state) <= |rows|
    requires size < 0 || |found| < size
    ensures Covers(rows, Offset(state), found, size, accept,
      FetchRuns(rows, pager, empties, state, found, size, accept))
    decreases |rows| - Offset(state), Stalls(state, empties)
  {
    hide Filter, Fair;
    var n := size - |found|;
    var at := Offset(state);
    var page := pager(at, Stalls(state, empties), n);
    PageIsFair(pager, |rows|, at, Stalls(state, empties), n);
    var mid := at + page.count;
    var found' := found + Filter(rows[at..mid], accept);
    if !(page.next.NoState? || |found'| == size) {
      FetchRunsSpec(rows, pager, empties, page.next, found', size, accept);
      CoversJoin(rows, at, mid, found, size, accept, FetchRuns(rows, pager, empties, page.next, found', size, accept));
    }
  }

  /** `getFilteredRuns`: pages sized to the remaining demand, until full or exhausted. A
      demand of 0 is met by the first query, of which nothing is read. */
  method GetFilteredRuns<R>(rows: seq<R>, pager: Pager, empties: nat, start: PageState, size: int, accept: R -> bool)
    returns (found: seq<R>, state: PageState)
    requires Fair(pager, |rows|) && Offset(start) <= |rows|
    ensures size != 0 ==> Reply(found, state) == FetchRuns(rows, pager, empties, start, [], size, accept)
    ensures size == 0 ==> found == [] && state == pager(Offset(start), Stalls(start, empties), 0).next
  {
    hide Filter, Fair;
    found, state := [], start;
    while true
      invariant Offset(state) <= |rows| && (size <= 0 || |found| < size)
      invariant size != 0 ==>
        FetchRuns(rows, pager, empties, state, found, size, accept) ==
          FetchRuns(rows, pager, empties, start, [], size, accept)
      invariant size == 0 ==> found == [] && state == start
      decreases |rows| - Offset(state), Stalls(state, empties)
    {
      var left := size - |found|;
      var at := Offset(state);
      var page := pager(at, Stalls(state, empties), left);
      PageIsFair(pager, |rows|, at, Stalls(state, empties), left);
      found := ScanPage(rows[at..at + page.count], found, size, accept);
      state := page.next;
      if state.NoState? || |found| == size {
        return;
      }
    }
  }
}
