/** The runs of one parent, latest first as the table keeps them, and the lookup of those
    still to come. */
module RunLookup {
  import opened CronStore
  import opened CronRuns
  import opened Paging

  datatype RunRow = RunRow(minute: nat, run: Run)

  function Max(s: set<nat>): (m: nat)
    requires s != {}
    ensures m in s && forall x | x in s :: x <= m
  {
    HasMax(s);
    var m :| m in s && forall x | x in s :: x <= m;
    m
  }

  lemma {:induction false} HasMax(s: set<nat>)
    requires s != {}
    ensures exists m :: m in s && forall x | x in s :: x <= m
  {
    var y :| y in s;
    if s != {y} {
      HasMax(s - {y});
      var m :| m in s - {y} && forall x | x in s - {y} :: x <= m;
      var top := if y > m then y else m;
      forall x | x in s ensures x <= top { assert x == y || x in s - {y}; }
      assert top in s;
    }
  }

  function Descending(s: set<nat>): seq<nat> {
    if s == {} then [] else [Max(s)] + Descending(s - {Max(s)})
  }

  ghost predicate Falling(s: seq<nat>) { forall i, j | 0 <= i < j < |s| :: s[i] > s[j] }

  lemma {:induction false} DescendingIs(s: set<nat>)
    ensures |Descending(s)| == |s| && Falling(Descending(s))
    ensures forall x :: x in Descending(s) <==> x in s
  {
    if s != {} {
      var rest := Descending(s - {Max(s)});
      DescendingIs(s - {Max(s)});
      forall i | 0 <= i < |rest| ensures rest[i] < Max(s) { assert rest[i] in s - {Max(s)}; }
    }
  }

  function Minutes(t: Tables, p: Uuid): set<nat> { set k | k in t.runs && k.parent == p :: k.minute }

  /** The rows of `recurring_schedule_runs` for a parent, in the order of the table. */
  function Rows(t: Tables, p: Uuid): (rows: seq<RunRow>)
    ensures |rows| == |Descending(Minutes(t, p))|
    ensures forall i | 0 <= i < |rows| :: rows[i].minute == Descending(Minutes(t, p))[i]
    ensures forall i | 0 <= i < |rows| ::
      RunKey(p, rows[i].minute) in t.runs && rows[i].run == t.runs[RunKey(p, rows[i].minute)]
  {
    DescendingIs(Minutes(t, p));
    var d := Descending(Minutes(t, p));
    assert forall i | 0 <= i < |d| :: d[i] in Minutes(t, p);
    assert forall m | m in Minutes(t, p) :: RunKey(p, m) in t.runs;
    seq(|d|, i requires 0 <= i < |d| => RunRow(d[i], t.runs[RunKey(p, d[i])]))
  }

  function Later(now: nat): RunRow -> bool { (r: RunRow) => r.minute > now }

  function Future(rows: seq<RunRow>, now: nat): seq<RunRow> { Filter(rows, Later(now)) }

  function Reversed(s: seq<RunRow>): (r: seq<RunRow>)
    ensures |r| == |s| && forall i | 0 <= i < |s| :: r[i] == s[|s| - 1 - i]
  {
    seq(|s|, i requires 0 <= i < |s| => s[|s| - 1 - i])
  }

  /** At most `size` rows, or all of them if it is negative. */
  function First(s: seq<RunRow>, size: int): seq<RunRow> {
    if 0 <= size < |s| then s[..size] else s
  }

  ghost predicate FallingRows(s: seq<RunRow>) { forall i, j | 0 <= i < j < |s| :: s[i].minute > s[j].minute }

  lemma {:induction false} FilterFalls(s: seq<RunRow>, accept: RunRow -> bool)
    requires FallingRows(s)
    ensures FallingRows(Filter(s, accept))
  {
    if s != [] {
      var rest := Filter(s[1..], accept);
      FilterFalls(s[1..], accept);
      FilterMembers(s[1..], accept);
      forall r | r in rest ensures r.minute < s[0].minute { }
    }
  }

  /** What the lookup finds, sorted by minute. */
  lemma FutureRows(t: Tables, p: Uuid, now: nat)
    ensures FallingRows(Future(Rows(t, p), now))
    ensures forall r :: r in Future(Rows(t, p), now) <==>
      RunKey(p, r.minute) in FutureKeys(t, p, now) && t.runs[RunKey(p, r.minute)] == r.run
  {
    var rows, minutes := Rows(t, p), Minutes(t, p);
    DescendingIs(minutes);
    assert FallingRows(rows);
    FilterFalls(rows, Later(now));
    FilterMembers(rows, Later(now));
    forall k | k in t.runs && k.parent == p ensures RunRow(k.minute, t.runs[k]) in rows {
      assert k.minute in Descending(minutes);
      var i :| 0 <= i < |Descending(minutes)| && Descending(minutes)[i] == k.minute;
      assert rows[i] == RunRow(k.minute, t.runs[k]);
    }
  }

  /** `getFutureRuns`: at most `size` runs to come, the latest ones, soonest first. */
  method GetFutureRuns(rows: seq<RunRow>, pager: Pager, empties: nat, now: nat, size: int) returns (output: seq<RunRow>)
    requires Fair(pager, |rows|)
    ensures output == Reversed(First(Future(rows, now), size))
  {
    var found, state := GetFilteredRuns(rows, pager, empties, NoState, size, Later(now));
    if size != 0 { LookupIs(rows, pager, empties, now, size); }
    output := [];
    for i := 0 to |found|
      invariant |output| == i && forall j | 0 <= j < i :: output[j] == found[|found| - 1 - j]
    {
      output := output + [found[|found| - i - 1]];
    }
  }

  lemma LookupIs(rows: seq<RunRow>, pager: Pager, empties: nat, now: nat, size: int)
    requires Fair(pager, |rows|) && size != 0
    ensures FetchRuns(rows, pager, empties, NoState, [], size, Later(now)).found == First(Future(rows, now), size)
  {
    hide Fair, Filter;
    var r := FetchRuns(rows, pager, empties, NoState, [], size, Later(now));
    FetchRunsSpec(rows, pager, empties, NoState, [], size, Later(now));
    var stop := if r.state.At? then r.state.offset else |rows|;
    assert rows == rows[..stop] + rows[stop..] && rows[0..stop] == rows[..stop];
    FilterOfAppend(rows[..stop], rows[stop..], Later(now));
    assert [] + Filter(rows[..stop], Later(now)) == Filter(rows[..stop], Later(now));
    assert r.state.NoState? ==> rows[..stop] == rows;
  }

  // A lookup bounded by the window

  lemma {:induction false} AtMostWindow(s: set<nat>, base: nat, window: nat)
    requires base % 60 == 0
    requires forall m | m in s :: m % 60 == 0 && base < m <= base + 60 * window
    ensures |s| <= window
  {
    if window == 0 {
      assert s == {};
    } else {
      var last := base + 60 * window;
      forall m | m in s - {last} ensures m <= base + 60 * (window - 1) { }
      AtMostWindow(s - {last}, base, window - 1);
      if last in s {
        assert s == (s - {last}) + {last};
      } else {
        assert s == s - {last};
      }
    }
  }

  /** Records lie in the window, so a parent never has more runs to come than the window has minutes. */
  lemma AtMostWindowAhead(t: Tables, p: Uuid, now: nat, window: nat)
    requires InBounds(t, now, window)
    ensures |FutureMinutes(t, p, now)| <= window
  {
    forall m | m in FutureMinutes(t, p, now) ensures m % 60 == 0 && MinuteOf(now) < m <= MinuteOf(now) + 60 * window {
      assert RunKey(p, m) in t.runs;
    }
    AtMostWindow(FutureMinutes(t, p, now), MinuteOf(now), window);
  }

  function MinutesOf(rows: seq<RunRow>): set<nat> { set r | r in rows :: r.minute }

  lemma {:induction false} AsManyMinutes(rows: seq<RunRow>)
    requires FallingRows(rows)
    ensures |MinutesOf(rows)| == |rows|
  {
    if rows != [] {
      AsManyMinutes(rows[1..]);
      assert rows == [rows[0]] + rows[1..];
      assert MinutesOf(rows) == {rows[0].minute} + MinutesOf(rows[1..]);
    }
  }

  lemma FutureMinutesOf(t: Tables, p: Uuid, now: nat)
    ensures MinutesOf(Future(Rows(t, p), now)) == FutureMinutes(t, p, now)
    ensures |Future(Rows(t, p), now)| == |FutureMinutes(t, p, now)|
  {
    var future := Future(Rows(t, p), now);
    FutureRows(t, p, now);
    AsManyMinutes(future);
    forall m ensures m in MinutesOf(future) <==> m in FutureMinutes(t, p, now) {
      if m in FutureMinutes(t, p, now) {
        var k :| k in FutureKeys(t, p, now) && k.minute == m;
        assert RunRow(m, t.runs[k]) in future;
      }
    }
  }

  lemma ReversedSame(s: seq<RunRow>)
    ensures forall r :: r in Reversed(s) <==> r in s
  {
    forall r | r in s ensures r in Reversed(s) {
      var i :| 0 <= i < |s| && s[i] == r;
      assert Reversed(s)[|s| - 1 - i] == r;
    }
  }

  /** Asking for as many runs as the window has minutes, or for all of them, finds every
      run to come, once, in strictly increasing order of minutes. */
  lemma LookupIsComplete(t: Tables, p: Uuid, now: nat, window: nat, size: int)
    requires InBounds(t, now, window) && (size < 0 || size >= window)
    ensures var found := Reversed(First(Future(Rows(t, p), now), size));
      && MinutesOf(found) == FutureMinutes(t, p, now)
      && (forall i, j | 0 <= i < j < |found| :: found[i].minute < found[j].minute)
      && (forall r :: r in found <==>
        RunKey(p, r.minute) in FutureKeys(t, p, now) && t.runs[RunKey(p, r.minute)] == r.run)
  {
    AtMostWindowAhead(t, p, now, window);
    FutureMinutesOf(t, p, now);
    FutureRows(t, p, now);
    hide Future, Rows, FutureKeys, FutureMinutes;
    var future := Future(Rows(t, p), now);
    var found := Reversed(First(future, size));
    assert First(future, size) == future;
    ReversedSame(future);
    SameMinutes(found, future);
  }

  lemma SameMinutes(a: seq<RunRow>, b: seq<RunRow>)
    requires forall r :: r in a <==> r in b
    ensures MinutesOf(a) == MinutesOf(b)
  {
  }

  /** A lookup finds the latest runs, and so the soonest ones exactly when it asks for none
      or for as many as there are. */
  lemma SoonestIff(t: Tables, p: Uuid, now: nat, size: nat)
    ensures var found, future := Reversed(First(Future(Rows(t, p), now), size)), Reversed(Future(Rows(t, p), now));
      var n := if size <= |future| then size else |future|;
      && found == future[|future| - n..]
      && (found == future[..n] <==> size == 0 || size >= |future|)
  {
    var rows := Future(Rows(t, p), now);
    var found, future := Reversed(First(rows, size)), Reversed(rows);
    FutureRows(t, p, now);
    hide Future, Rows;
    var n := if size <= |future| then size else |future|;
    assert found == future[|future| - n..];
    if 0 < size < |future| {
      assert found[0] == rows[size - 1] && future[0] == rows[|rows| - 1];
      assert rows[size - 1].minute > rows[|rows| - 1].minute;
    }
  }
}
