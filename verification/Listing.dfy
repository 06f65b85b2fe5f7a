/** Paginated listings of an app's schedules over hourly windows, resumed with the
    token and start time of the previous reply. */
module Listing {
  import opened Paging

  const HOUR := 3600
  const MINUTE := 60

  /** The minute buckets of [start, end). */
  function TimeStamps(start: int, end: int): seq<int>
    decreases end - start
  {
    if start >= end then [] else [start] + TimeStamps(start + MINUTE, end)
  }

  /** The times of [start, end) that are whole minutes from its start, each once, in order. */
  ghost predicate IsMinutes(stamps: seq<int>, start: int, end: int) {
    && (forall i, j | 0 <= i < j < |stamps| :: stamps[i] < stamps[j])
    && (forall t :: t in stamps <==> start <= t < end && (t - start) % 60 == 0)
  }

  lemma {:induction false} TimeStampsAre(start: int, end: int)
    ensures IsMinutes(TimeStamps(start, end), start, end)
    decreases end - start
  {
    if start < end {
      var rest := TimeStamps(start + MINUTE, end);
      TimeStampsAre(start + MINUTE, end);
      forall t ensures t in [start] + rest <==> start <= t < end && (t - start) % 60 == 0 {
        assert (t - (start + 60)) % 60 == (t - start) % 60;
      }
      assert forall i | 0 <= i < |rest| :: rest[i] in rest;
    }
  }

  lemma HasFirst(a: seq<int>)
    ensures a != [] ==> a[0] in a
  {
  }

  /** There is only one such list. */
  lemma {:induction false} RisingUnique(a: seq<int>, b: seq<int>)
    requires forall i, j | 0 <= i < j < |a| :: a[i] < a[j]
    requires forall i, j | 0 <= i < j < |b| :: b[i] < b[j]
    requires forall t :: t in a <==> t in b
    ensures a == b
  {
    HasFirst(a);
    HasFirst(b);
    if a != [] {
      assert a[0] in a && a[0] in b && b[0] in b && b[0] in a;
      forall t ensures t in a[1..] <==> t in b[1..] {
        assert t in a <==> t == a[0] || t in a[1..];
        assert t in b <==> t == b[0] || t in b[1..];
        assert a[0] !in a[1..] && b[0] !in b[1..];
      }
      RisingUnique(a[1..], b[1..]);
      assert a == [a[0]] + a[1..] && b == [b[0]] + b[1..];
    }
  }

  lemma MinutesUnique(stamps: seq<int>, start: int, end: int)
    requires IsMinutes(stamps, start, end)
    ensures stamps == TimeStamps(start, end)
  {
    TimeStampsAre(start, end);
    RisingUnique(stamps, TimeStamps(start, end));
  }

  method MakeTimeStamps(start: int, end: int) returns (stamps: seq<int>)
    ensures stamps == TimeStamps(start, end) && IsMinutes(stamps, start, end)
  {
    TimeStampsAre(start, end);
    stamps := [];
    var t := start;
    while t < end
      invariant stamps + TimeStamps(t, end) == TimeStamps(start, end)
      decreases end - t
    {
      assert TimeStamps(t, end) == [t] + TimeStamps(t + MINUTE, end);
      stamps := stamps + [t];
      t := t + MINUTE;
    }
  }

  /** Where the window that starts at `start` ends. */
  function WindowEnd(start: int, end: int): int {
    if end - start < HOUR then end else start + HOUR
  }

  /** The times at which the windows of a range start. */
  predicate IsWindow(start: int, end: int, w: int) { w == start || (start < w < end && (w - start) % 3600 == 0) }

  /** What is left of the range: 0 at the end, and one round when already past it. */
  function TimeLeft(start: int, end: int): nat {
    if start == end then 0 else if start < end then end - start else 1
  }

  // Windows tile the range

  function WindowedStamps(start: int, end: int): seq<int>
    decreases TimeLeft(start, end)
  {
    if start == end then []
    else TimeStamps(start, WindowEnd(start, end)) + WindowedStamps(WindowEnd(start, end), end)
  }

  lemma {:induction false} StampsSplit(start: int, mid: int, end: int)
    requires start <= mid <= end && (mid - start) % MINUTE == 0
    ensures TimeStamps(start, end) == TimeStamps(start, mid) + TimeStamps(mid, end)
    decreases mid - start
  {
    if start < mid {
      StampsSplit(start + MINUTE, mid, end);
    }
  }

  /** The windows' buckets, one after the other, are the buckets of the range: no
      overlap and no gap, also for a start past the end. */
  lemma {:induction false} WindowsTile(start: int, end: int)
    ensures WindowedStamps(start, end) == TimeStamps(start, end)
    decreases TimeLeft(start, end)
  {
    if start != end {
      WindowsTile(WindowEnd(start, end), end);
      if end - start >= HOUR {
        StampsSplit(start, start + HOUR, end);
      }
    }
  }

  // The store

  /** The rows a window query yields, the driver's pager for it, and a bound on the
      empty pages it may start with. */
  datatype Store<!R> = Store(
    rows: (int, int) -> seq<R>,
    pager: (int, int) -> Pager,
    empties: (int, int) -> nat)

  ghost predicate FairStore<R>(s: Store<R>) {
    forall a, b :: Fair(s.pager(a, b), |s.rows(a, b)|)
  }

  /** After a full page of a window the driver hands out a token, even at the end. */
  ghost predicate TokensAfterFullPages<R>(s: Store<R>) {
    forall a, b, offset: nat, stalls: nat, n: int ::
      a != b && b - a <= HOUR && offset <= |s.rows(a, b)| && n > 0 && s.pager(a, b)(offset, stalls, n).count == n ==>
        s.pager(a, b)(offset, stalls, n).next.At?
  }

  /** All rows from position `offset` of the window at `start` on, in query order. */
  ghost function Remaining<R>(s: Store<R>, start: int, end: int, offset: nat): seq<R>
    requires start == end || offset <= |s.rows(start, WindowEnd(start, end))|
    decreases TimeLeft(start, end)
  {
    if start == end then []
    else
      var stop := WindowEnd(start, end);
      s.rows(start, stop)[offset..] + Remaining(s, stop, end, 0)
  }

  datatype Answer<R> = Answer(found: seq<R>, state: PageState, start: int)

  /** A position from which a call may start or resume. */
  ghost predicate Resumable<R>(s: Store<R>, start: int, end: int, state: PageState) {
    start == end || Offset(state) <= |s.rows(start, WindowEnd(start, end))|
  }

  /** One round: read one page, sized to the demand that is left, and append what the filter accepts. */
  function Round<R>(
      s: Store<R>, start: int, end: int, state: PageState, last: Answer<R>, size: nat,
      accept: R -> bool): (next: Answer<R>)
    requires FairStore(s) && start != end && Resumable(s, start, end, state) && |last.found| < size
    ensures |next.found| <= size && next.start == start
    ensures next.state.At? ==>
              && Offset(state) <= next.state.offset <= |s.rows(start, WindowEnd(start, end))|
              && (Offset(state) < next.state.offset ||
                next.state.stalls < Stalls(state, s.empties(start, WindowEnd(start, end))))
  {
    var stop := WindowEnd(start, end);
    var rows, at, stalls := s.rows(start, stop), Offset(state), Stalls(state, s.empties(start, stop));
    var page := s.pager(start, stop)(at, stalls, size - |last.found|);
    PageIsFair(s.pager(start, stop), |rows|, at, stalls, size - |last.found|);
    Answer(last.found + Filter(rows[at..at + page.count], accept), page.next, start)
  }

  /** `getFilteredSchedules` from a window and page state on; `last` is what the
      previous round wrote to the reply. */
  function Fetch<R>(
      s: Store<R>, start: int, end: int, state: PageState, last: Answer<R>, size: nat, accept: R -> bool): Answer<R>
    requires FairStore(s) && Resumable(s, start, end, state) && |last.found| < size
    decreases TimeLeft(start, end),
              if start == end then 0 else |s.rows(start, WindowEnd(start, end))| - Offset(state),
              Stalls(state, s.empties(start, WindowEnd(start, end)))
  {
    if start == end then last
    else
      var next := Round(s, start, end, state, last, size, accept);
      if |next.found| == size then next
      else if next.state.NoState? then Fetch(s, WindowEnd(start, end), end, NoState, next, size, accept)
      else Fetch(s, start, end, next.state, next, size, accept)
  }

  /** What a full reply leaves unread: the rest of its window, or the later windows alone
      if it carries no token. */
  ghost function Unread<R>(s: Store<R>, end: int, r: Answer<R>): seq<R>
    requires r.start != end && Resumable(s, r.start, end, r.state)
  {
    if r.state.At? then Remaining(s, r.start, end, r.state.offset) else Remaining(s, WindowEnd(r.start, end), end, 0)
  }

  /** The reply holds the accepted rows up to where it stopped, in order; it is short only
      when the range is exhausted. */
  ghost predicate Accounts<R>(
      s: Store<R>, start: int, end: int, state: PageState, before: seq<R>, size: nat, accept: R -> bool, r: Answer<R>)
    requires Resumable(s, start, end, state)
  {
    var all := before + Filter(Remaining(s, start, end, Offset(state)), accept);
    && |r.found| <= size
    && (|r.found| < size ==> r.found == all)
    && (|r.found| == size ==>
        && r.start != end && IsWindow(start, end, r.start)
        && Resumable(s, r.start, end, r.state) && Filter(s.rows(r.start, WindowEnd(r.start, end)), accept) != []
        && all == r.found + Filter(Unread(s, end, r), accept))
  }

  /** A client that goes on from a full reply with its token and start time sees exactly
      what the reply left unread. */
  ghost predicate Complete<R>(
      s: Store<R>, start: int, end: int, state: PageState, before: seq<R>, size: nat, accept: R -> bool, r: Answer<R>)
    requires Resumable(s, start, end, state)
  {
    && Accounts(s, start, end, state, before, size, accept, r)
    && (|r.found| == size ==>
        before + Filter(Remaining(s, start, end, Offset(state)), accept)
        == r.found + Filter(Remaining(s, r.start, end, Offset(r.state)), accept))
  }

  lemma RemainingSplit<R>(s: Store<R>, start: int, end: int, at: nat, mid: nat, accept: R -> bool)
    requires start != end && at <= mid <= |s.rows(start, WindowEnd(start, end))|
    ensures Filter(Remaining(s, start, end, at), accept)
         == Filter(s.rows(start, WindowEnd(start, end))[at..mid], accept)
           + Filter(Remaining(s, start, end, mid), accept)
  {
    var rows := s.rows(start, WindowEnd(start, end));
    assert Remaining(s, start, end, at) == rows[at..mid] + Remaining(s, start, end, mid) by {
      assert rows[at..] == rows[at..mid] + rows[mid..];
    }
    FilterOfAppend(rows[at..mid], Remaining(s, start, end, mid), accept);
  }

  /** After the last row of a window what remains is the next window. */
  lemma WindowDone<R>(s: Store<R>, start: int, end: int)
    requires start != end
    ensures var stop := WindowEnd(start, end);
            Remaining(s, start, end, |s.rows(start, stop)|) == Remaining(s, stop, end, 0)
  {
  }

  /** A round that fills the reply has read an accepted row of its window. */
  lemma {:induction false} FilledFromWindow<R>(rows: seq<R>, at: nat, mid: nat, accept: R -> bool)
    requires at <= mid <= |rows| && Filter(rows[at..mid], accept) != []
    ensures Filter(rows, accept) != []
  {
    if at == 0 {
      assert rows == rows[..mid] + rows[mid..] && rows[0..mid] == rows[..mid];
      FilterOfAppend(rows[..mid], rows[mid..], accept);
    } else {
      assert rows[1..][at - 1..mid - 1] == rows[at..mid];
      FilledFromWindow(rows[1..], at - 1, mid - 1, accept);
    }
  }

  lemma LaterWindow(start: int, end: int, w: int)
    requires start != end && w != end && IsWindow(WindowEnd(start, end), end, w)
    ensures IsWindow(start, end, w)
  {
  }

  lemma AccountsFromHere<R>(s: Store<R>, start: int, start': int, end: int, state: PageState, state': PageState,
                            before: seq<R>, before': seq<R>, size: nat, accept: R -> bool, r: Answer<R>)
    requires start != end && Resumable(s, start, end, state) && start' in {start, WindowEnd(start, end)}
    requires Resumable(s, start', end, state') && Accounts(s, start', end, state', before', size, accept, r)
    requires before + Filter(Remaining(s, start, end, Offset(state)), accept)
          == before' + Filter(Remaining(s, start', end, Offset(state')), accept)
    ensures Accounts(s, start, end, state, before, size, accept, r)
  {
    hide Filter, Remaining, Unread, Resumable, IsWindow;
    if |r.found| == size && start' != start { LaterWindow(start, end, r.start); }
  }

  /** From any resumable position, for any fair store. */
  lemma {:induction false} FetchAccounts<R>(
      s: Store<R>, start: int, end: int, state: PageState, last: Answer<R>, size: nat, accept: R -> bool)
    requires FairStore(s) && Resumable(s, start, end, state) && |last.found| < size
    ensures Accounts(s, start, end, state, last.found, size, accept, Fetch(s, start, end, state, last, size, accept))
    decreases TimeLeft(start, end),
              if start == end then 0 else |s.rows(start, WindowEnd(start, end))| - Offset(state),
              Stalls(state, s.empties(start, WindowEnd(start, end)))
  {
    if start == end {
      NothingRemains(s, end, Offset(state), accept);
    } else {
      RoundSpec(s, start, end, state, last, size, accept);
      var next := Round(s, start, end, state, last, size, accept);
      hide Filter, Remaining, FairStore, Round, IsWindow;
      if |next.found| < size {
        var start', state' := if next.state.NoState? then WindowEnd(start, end) else start, next.state;
        FetchAccounts(s, start', end, state', next, size, accept);
        var r := Fetch(s, start', end, state', next, size, accept);
        AccountsFromHere(s, start, start', end, state, state', last.found, next.found, size, accept, r);
      }
    }
  }

  /** What a round leaves: the accepted rows not yet found are those of the position it moves to. */
  lemma RoundSpec<R>(s: Store<R>, start: int, end: int, state: PageState, last: Answer<R>, size: nat, accept: R -> bool)
    requires FairStore(s) && start != end && Resumable(s, start, end, state) && |last.found| < size
    ensures var next := Round(s, start, end, state, last, size, accept);
            && last.found + Filter(Remaining(s, start, end, Offset(state)), accept)
               == next.found + Filter(if next.state.NoState? then Remaining(s, WindowEnd(start, end), end, 0)
                                      else Remaining(s, start, end, next.state.offset), accept)
            && (|next.found| == size ==> Filter(s.rows(start, WindowEnd(start, end)), accept) != [])
  {
    hide Filter, Remaining, FairStore, Fair;
    var stop := WindowEnd(start, end);
    var rows, at, stalls, n :=
      s.rows(start, stop), Offset(state), Stalls(state, s.empties(start, stop)), size - |last.found|;
    var page := s.pager(start, stop)(at, stalls, n);
    RoundPage(s, start, stop, at, stalls, n);
    var mid := at + page.count;
    RemainingSplit(s, start, end, at, mid, accept);
    Regroup(last.found, Filter(rows[at..mid], accept), Filter(Remaining(s, start, end, mid), accept));
    WindowDone(s, start, end);
    if Filter(rows[at..mid], accept) != [] { FilledFromWindow(rows, at, mid, accept); }
  }

  /** A full reply without a token makes the client read its window again from the start. */
  lemma RepeatsWindow<R>(s: Store<R>, end: int, r: Answer<R>, accept: R -> bool)
    requires r.start != end && r.state.NoState?
    ensures Filter(Remaining(s, r.start, end, Offset(r.state)), accept)
         == Filter(s.rows(r.start, WindowEnd(r.start, end)), accept) + Filter(Unread(s, end, r), accept)
  {
    var rows := s.rows(r.start, WindowEnd(r.start, end));
    assert rows[0..] == rows;
    FilterOfAppend(rows, Unread(s, end, r), accept);
  }

  /** A call is complete exactly if its reply is short or carries a token. */
  lemma FetchIsCompleteIff<R>(
      s: Store<R>, start: int, end: int, state: PageState, last: Answer<R>, size: nat, accept: R -> bool)
    requires FairStore(s) && Resumable(s, start, end, state) && |last.found| < size
    ensures var r := Fetch(s, start, end, state, last, size, accept);
      Complete(s, start, end, state, last.found, size, accept, r) <==> (|r.found| == size ==> r.state.At?)
  {
    FetchAccounts(s, start, end, state, last, size, accept);
    hide Fetch, FairStore, Filter;
    var r := Fetch(s, start, end, state, last, size, accept);
    if |r.found| == size && r.state.NoState? { RepeatsWindow(s, end, r, accept); }
  }

  // Tokens

  /** A reply is full without a token only after a page that is. */
  lemma {:induction false} FullReplyHasToken<R>(
      s: Store<R>, start: int, end: int, state: PageState, last: Answer<R>, size: nat, accept: R -> bool)
    requires FairStore(s) && TokensAfterFullPages(s) && Resumable(s, start, end, state) && |last.found| < size
    ensures var r := Fetch(s, start, end, state, last, size, accept); |r.found| == size ==> r.state.At?
    decreases TimeLeft(start, end),
              if start == end then 0 else |s.rows(start, WindowEnd(start, end))| - Offset(state),
              Stalls(state, s.empties(start, WindowEnd(start, end)))
  {
    if start != end {
      var next := Round(s, start, end, state, last, size, accept);
      if |next.found| == size {
        RoundPage(s, start, WindowEnd(start, end), Offset(state),
          Stalls(state, s.empties(start, WindowEnd(start, end))), size - |last.found|);
      } else {
        hide Filter, FairStore, Round, TokensAfterFullPages;
        var start' := if next.state.NoState? then WindowEnd(start, end) else start;
        FullReplyHasToken(s, start', end, next.state, next, size, accept);
      }
    }
  }

  lemma {:induction false} FilterAll<R>(rows: seq<R>, accept: R -> bool)
    requires forall r | r in rows :: accept(r)
    ensures Filter(rows, accept) == rows
  {
    if rows != [] { FilterAll(rows[1..], accept); }
  }

  ghost predicate EveryCallComplete<R(!new)>(s: Store<R>)
    requires FairStore(s)
  {
    forall start, end, state, size: nat, accept: R -> bool :: Resumable(s, start, end, state) && size > 0 ==>
      Complete(s, start, end, state, [], size, accept,
        Fetch(s, start, end, state, Answer([], state, start), size, accept))
  }

  /** Every call, from every position, with every demand and filter, is complete exactly if the
      driver hands out a token after every full page. */
  lemma EveryCallCompleteIff<R(!new)>(s: Store<R>)
    requires FairStore(s)
    ensures EveryCallComplete(s) <==> TokensAfterFullPages(s)
  {
    hide Fetch, FairStore, Complete;
    if TokensAfterFullPages(s) {
      hide TokensAfterFullPages;
      forall start, end, state, size: nat, accept: R -> bool | Resumable(s, start, end, state) && size > 0
        ensures Complete(s, start, end, state, [], size, accept,
          Fetch(s, start, end, state, Answer([], state, start), size, accept))
      {
        FullReplyHasToken(s, start, end, state, Answer([], state, start), size, accept);
        FetchIsCompleteIff(s, start, end, state, Answer([], state, start), size, accept);
      }
    } else {
      var a, b, offset: nat, stalls: nat, n: int :|
        a != b && b - a <= HOUR && offset <= |s.rows(a, b)| && n > 0 && s.pager(a, b)(offset, stalls, n).count == n
        && !s.pager(a, b)(offset, stalls, n).next.At?;
      NoTokenIsIncomplete(s, a, b, offset, stalls, n);
    }
  }

  lemma NoTokenIsIncomplete<R(!new)>(s: Store<R>, a: int, b: int, offset: nat, stalls: nat, n: nat)
    requires FairStore(s) && a != b && b - a <= HOUR && offset <= |s.rows(a, b)| && n > 0
    requires s.pager(a, b)(offset, stalls, n).count == n && s.pager(a, b)(offset, stalls, n).next.NoState?
    ensures !EveryCallComplete(s)
  {
    var state, all := At(offset, stalls), (r: R) => true;
    var last := Answer([], state, a);
    assert WindowEnd(a, b) == b;
    RoundPage(s, a, b, offset, stalls, n);
    FilterAll(s.rows(a, b)[offset..offset + n], all);
    var r := Fetch(s, a, b, state, last, n, all);
    assert r == Round(s, a, b, state, last, n, all) && |r.found| == n && r.state.NoState?;
    FetchIsCompleteIff(s, a, b, state, last, n, all);
  }

  /** The k-th further reply to a client that started at `start` and goes on after every reply. */
  ghost function Later<R>(
      s: Store<R>, start: int, end: int, r: Answer<R>, size: nat, accept: R -> bool, k: nat): Answer<R>
    requires FairStore(s) && size > 0
    decreases k
  {
    if k == 0 then r
    else
      var first := if r.start != 0 then r.start else start;
      if !Resumable(s, first, end, r.state) then r
      else Later(s, start, end, Fetch(s, first, end, r.state, Answer([], r.state, r.start), size, accept), size,
        accept, k - 1)
  }

  /** A window's first page that meets the demand and comes without a token. */
  ghost predicate DryFirstPage<R>(s: Store<R>, w: int, end: int, size: nat, accept: R -> bool)
    requires FairStore(s)
  {
    var stop := WindowEnd(w, end);
    var page := s.pager(w, stop)(0, s.empties(w, stop), size);
    && w != 0 && w != end && size > 0 && page.count == size && page.next.NoState?
    && size <= |s.rows(w, stop)| && forall r | r in s.rows(w, stop)[..size] :: accept(r)
  }

  lemma FirstPageIsReply<R>(s: Store<R>, w: int, end: int, last: Answer<R>, size: nat, accept: R -> bool)
    requires FairStore(s) && DryFirstPage(s, w, end, size, accept) && last.found == []
    ensures Fetch(s, w, end, NoState, last, size, accept) == Answer(s.rows(w, WindowEnd(w, end))[..size], NoState, w)
  {
    hide FairStore;
    var rows := s.rows(w, WindowEnd(w, end));
    FilterAll(rows[..size], accept);
    assert rows[0..size] == rows[..size];
    hide Filter;
  }

  /** If the first page of a window meets the demand and comes without a token, a client that
      begins the window gets its rows in every reply from then on. */
  lemma {:induction false} RepeatsForEver<R>(
      s: Store<R>, start: int, w: int, end: int, size: nat, accept: R -> bool, k: nat)
    requires FairStore(s) && DryFirstPage(s, w, end, size, accept)
    ensures var r := Fetch(s, w, end, NoState, Answer([], NoState, w), size, accept);
      r == Answer(s.rows(w, WindowEnd(w, end))[..size], NoState, w) && Later(s, start, end, r, size, accept, k) == r
    decreases k
  {
    FirstPageIsReply(s, w, end, Answer([], NoState, w), size, accept);
    hide Fetch, FairStore, DryFirstPage;
    if k > 0 { RepeatsForEver(s, start, w, end, size, accept, k - 1); }
  }

  lemma NothingRemains<R>(s: Store<R>, end: int, offset: nat, accept: R -> bool)
    ensures Filter(Remaining(s, end, end, offset), accept) == []
  {
  }

  lemma Regroup<R>(a: seq<R>, b: seq<R>, c: seq<R>)
    ensures a + (b + c) == a + b + c
  {
  }

  // The paging loop and its client

  /** One round as the loop body executes it. */
  method ReadRound<R>(
      s: Store<R>, start: int, end: int, state: PageState, last: Answer<R>, size: nat, accept: R -> bool)
    returns (next: Answer<R>)
    requires FairStore(s) && start != end && Resumable(s, start, end, state) && |last.found| < size
    ensures next == Round(s, start, end, state, last, size, accept)
  {
    hide Filter, FairStore, Fair;
    var stop := WindowEnd(start, end);
    var required := size - |last.found|;
    var rows, at, stalls := s.rows(start, stop), Offset(state), Stalls(state, s.empties(start, stop));
    var page := s.pager(start, stop)(at, stalls, required);
    RoundPage(s, start, stop, at, stalls, required);
    var found := ScanPage(rows[at..at + page.count], last.found, size, accept);
    next := Answer(found, page.next, start);
  }

  /** `GetPaginatedSchedules`: 0 stands for "no continuation start time". A demand of
      0 is met by the first query, which is then not paged. */
  method GetPaginatedSchedules<R>(
      s: Store<R>, start: int, end: int, size: nat, accept: R -> bool, token: PageState, continuation: int)
    returns (r: Answer<R>)
    requires FairStore(s) && Resumable(s, if continuation != 0 then continuation else start, end, token)
    ensures size == 0 ==> r.found == []
    ensures size > 0 ==>
      var first := if continuation != 0 then continuation else start;
      r == Fetch(s, first, end, token, Answer([], token, continuation), size, accept)
  {
    hide Round, FairStore;
    var first := if continuation != 0 then continuation else start;
    r := Answer([], token, continuation);
    if size == 0 {
      if first != end { r := Answer([], NoState, first); }
      return;
    }
    var from, state := first, token;
    while from != end
      invariant Resumable(s, from, end, state) && |r.found| < size
      invariant Fetch(s, from, end, state, r, size, accept)
             == Fetch(s, first, end, token, Answer([], token, continuation), size, accept)
      decreases TimeLeft(from, end),
                if from == end then 0 else |s.rows(from, WindowEnd(from, end))| - Offset(state),
                Stalls(state, s.empties(from, WindowEnd(from, end)))
    {
      r := ReadRound(s, from, end, state, r, size, accept);
      if |r.found| == size {
        return;
      }
      state := r.state;
      if state.NoState? {
        from := WindowEnd(from, end);
      }
    }
  }

  lemma RoundPage<R>(s: Store<R>, a: int, b: int, offset: nat, stalls: nat, n: int)
    requires FairStore(s) && offset <= |s.rows(a, b)|
    ensures FairPage(s.pager(a, b)(offset, stalls, n), |s.rows(a, b)|, offset, stalls, n)
  {
  }

  /** No window but the first starts at the epoch, whose time would read as "no continuation". */
  predicate EpochSafe(start: int, end: int) {
    start >= 0 || end <= 0 || start % 3600 != 0
  }

  /** That is exactly what it takes for every window's start time to lead back to it. */
  lemma EpochSafeIff(start: int, end: int)
    ensures EpochSafe(start, end) <==>
      forall w | IsWindow(start, end, w) :: (if w != 0 then w else start) == w
  {
    HoursBefore(start);
    if EpochSafe(start, end) {
      forall w | IsWindow(start, end, w) ensures w == 0 ==> start == 0 { }
    } else {
      assert IsWindow(start, end, 0);
    }
  }

  lemma WindowOfWindow(start: int, end: int, v: int, w: int)
    requires IsWindow(start, end, v) && IsWindow(v, end, w)
    ensures IsWindow(start, end, w)
  {
  }

  lemma HoursBefore(x: int)
    ensures (0 - x) % 3600 == 0 <==> x % 3600 == 0
  {
  }

  /** What one call adds for a client that has found `all` so far. */
  lemma GoesOn<R>(
      s: Store<R>, from: int, end: int, token: PageState, last: Answer<R>, size: nat, accept: R -> bool, all: seq<R>)
    requires FairStore(s) && TokensAfterFullPages(s) && Resumable(s, from, end, token) && last.found == [] && size > 0
    ensures var r := Fetch(s, from, end, token, last, size, accept);
      var rest := all + Filter(Remaining(s, from, end, Offset(token)), accept);
      && |r.found| <= size && (|r.found| < size ==> rest == all + r.found)
      && (|r.found| == size ==>
          && IsWindow(from, end, r.start) && Resumable(s, r.start, end, r.state)
          && rest == all + r.found + Filter(Remaining(s, r.start, end, Offset(r.state)), accept))
  {
    hide Filter, FairStore, Remaining, TokensAfterFullPages, Fetch, Unread, IsWindow;
    FullReplyHasToken(s, from, end, token, last, size, accept);
    FetchIsCompleteIff(s, from, end, token, last, size, accept);
    var r := Fetch(s, from, end, token, last, size, accept);
    assert [] + Filter(Remaining(s, from, end, Offset(token)), accept) ==
      Filter(Remaining(s, from, end, Offset(token)), accept);
    if |r.found| == size {
      Regroup(all, r.found, Filter(Remaining(s, r.start, end, Offset(r.state)), accept));
    }
  }

  /** A client that keeps calling with the returned token and start time while replies
      are full sees every accepted row of the range exactly once, in order. */
  method ListAll<R>(s: Store<R>, start: int, end: int, size: nat, accept: R -> bool) returns (all: seq<R>)
    requires FairStore(s) && TokensAfterFullPages(s) && size > 0 && EpochSafe(start, end)
    ensures all == Filter(Remaining(s, start, end, 0), accept)
  {
    EpochSafeIff(start, end);
    assert IsWindow(start, end, start);
    hide Filter, FairStore, Remaining, TokensAfterFullPages, Fetch, Unread, IsWindow, EpochSafe;
    all := [];
    var token, continuation := NoState, 0;
    ghost var from := start;
    while true
      invariant from == if continuation != 0 then continuation else start
      invariant IsWindow(start, end, from)
      invariant Resumable(s, from, end, token)
      invariant Filter(Remaining(s, start, end, 0), accept) ==
        all + Filter(Remaining(s, from, end, Offset(token)), accept)
      decreases |Filter(Remaining(s, start, end, 0), accept)| - |all|
    {
      var r := GetPaginatedSchedules(s, start, end, size, accept, token, continuation);
      GoesOn(s, from, end, token, Answer([], token, continuation), size, accept, all);
      all := all + r.found;
      if |r.found| != size {
        return;
      }
      WindowOfWindow(start, end, from, r.start);
      token, continuation := r.state, r.start;
      from := r.start;
    }
  }

  // The listing against the buckets themselves

  ghost function Buckets<R>(bucket: int -> seq<R>, stamps: seq<int>): seq<R> {
    if stamps == [] then [] else bucket(stamps[0]) + Buckets(bucket, stamps[1..])
  }

  /** A window query returns the rows of its buckets, in an order of the database's choosing. */
  ghost predicate Answers<R>(s: Store<R>, bucket: int -> seq<R>) {
    forall a, b, stamps :: IsMinutes(stamps, a, b) ==> multiset(s.rows(a, b)) == multiset(Buckets(bucket, stamps))
  }

  lemma {:induction false} BucketsOfAppend<R>(bucket: int -> seq<R>, a: seq<int>, b: seq<int>)
    ensures Buckets(bucket, a + b) == Buckets(bucket, a) + Buckets(bucket, b)
  {
    if a == [] {
      assert a + b == b;
    } else {
      assert (a + b)[0] == a[0] && (a + b)[1..] == a[1..] + b;
      BucketsOfAppend(bucket, a[1..], b);
    }
  }

  lemma {:induction false} RemainingIsBuckets<R>(s: Store<R>, bucket: int -> seq<R>, start: int, end: int)
    requires Answers(s, bucket)
    ensures multiset(Remaining(s, start, end, 0)) == multiset(Buckets(bucket, WindowedStamps(start, end)))
    decreases TimeLeft(start, end)
  {
    if start != end {
      var stop := WindowEnd(start, end);
      RemainingIsBuckets(s, bucket, stop, end);
      TimeStampsAre(start, stop);
      BucketsOfAppend(bucket, TimeStamps(start, stop), WindowedStamps(stop, end));
      assert s.rows(start, stop)[0..] == s.rows(start, stop);
    }
  }

  /** Together with `ListAll`: the replies hold each accepted row of the buckets of the minutes
      of [start, end), counted from its start, exactly as often as the buckets do. */
  lemma ListingIsWholeRange<R>(
      s: Store<R>, bucket: int -> seq<R>, start: int, end: int, accept: R -> bool, minutes: seq<int>)
    requires Answers(s, bucket) && IsMinutes(minutes, start, end)
    ensures multiset(Filter(Remaining(s, start, end, 0), accept)) == multiset(Filter(Buckets(bucket, minutes), accept))
  {
    MinutesUnique(minutes, start, end);
    hide IsMinutes, Answers;
    WindowsTile(start, end);
    RemainingIsBuckets(s, bucket, start, end);
    FilterOfPermutation(Remaining(s, start, end, 0), Buckets(bucket, minutes), accept);
  }
}
