/** The arithmetic of steps: multiples, Go's rounding, and counters that wrap around int64. */
module StepArithmetic {
  import opened Text
  import opened CronSyntax

  // Multiples

  lemma ProductBounds(m: int, k: int)
    requires m > 0
    ensures k >= 1 ==> m * k >= m
    ensures k <= -1 ==> m * k <= -m
    ensures k == 0 ==> m * k == 0
  {
  }

  lemma QuotientUnique(x: int, m: int, q: int, r: int)
    requires m > 0 && x == m * q + r && 0 <= r < m
    ensures q == x / m && r == x % m
  {
    var d := q - x / m;
    assert m * d == x % m - r by {
      assert x == m * (x / m) + x % m;
      assert m * d == m * q - m * (x / m);
    }
    ProductBounds(m, d);
  }

  lemma MultipleIff(x: int, m: int, k: int)
    requires m > 0 && x == m * k
    ensures x % m == 0
  {
    QuotientUnique(x, m, k, 0);
  }

  /** Adding the modulus does not change being a multiple. */
  lemma NextMultiple(x: int, m: int)
    requires m > 0
    ensures (x + m) % m == x % m
  {
    assert x + m == m * (x / m + 1) + x % m by { assert m * (x / m + 1) == m * (x / m) + m; }
    QuotientUnique(x + m, m, x / m + 1, x % m);
  }

  lemma GapOfMultiples(u: int, v: int, m: int)
    requires m > 0 && u % m == 0 && v % m == 0 && u < v
    ensures u + m <= v
  {
    var a, b := u / m, v / m;
    assert v - u == m * (b - a) by {
      assert u == m * a + u % m && v == m * b + v % m;
      assert m * (b - a) == m * b - m * a;
    }
    ProductBounds(m, b - a);
  }

  // Lists of steps

  /** From a multiple of the increment, the list holds exactly the multiples below the end. */
  lemma {:induction false} StepMembers(start: int, end: int, m: int, v: int)
    requires m > 0 && start % m == 0
    ensures v in StepValues(start, end, m) <==> start <= v < end && v % m == 0
    decreases end - start
  {
    if start < end {
      NextMultiple(start, m);
      StepMembers(start + m, end, m, v);
      if start < v && v % m == 0 { GapOfMultiples(start, v, m); }
    }
  }

  lemma {:induction false} KeptMembers(list: seq<int>, positive: bool, v: int)
    ensures v in Kept(list, positive) <==> v in list && (positive ==> v > 0)
  {
    if list != [] {
      KeptMembers(list[1..], positive, v);
      assert list == [list[0]] + list[1..];
    }
  }

  lemma WrapIdentity(x: int)
    requires MIN_INT64 <= x <= MAX_INT64
    ensures Wrap(x) == x
  {
  }

  /** Rounding by division: the multiple of m nearest to x on the side of 0. */
  lemma QuoTimes(x: int, m: int)
    requires m > 0
    ensures Quo(x, m) * m % m == 0
    ensures if x >= 0 then 0 <= Quo(x, m) * m && x - m < Quo(x, m) * m <= x
            else Quo(x, m) * m <= 0 && x <= Quo(x, m) * m < x + m
  {
    var y := if x >= 0 then x else -x;
    var q := Quo(x, m);
    MultipleIff(q * m, m, q);
    assert y == m * (y / m) + y % m;
    ProductBounds(m, y / m);
    assert q * m == if x >= 0 then m * (y / m) else -(m * (y / m));
  }

  /** Without overflow the list starts at a multiple, and among calendar values it
      leaves out exactly those below the written start. */
  lemma FirstMultipleIs(a: int, m: int, v: int)
    requires 0 < m <= MAX_INT64 && MIN_INT64 <= a <= MAX_INT64 && a + m - 1 <= MAX_INT64
    requires v >= 0 && v % m == 0
    ensures FirstMultiple(a, m) % m == 0
    ensures FirstMultiple(a, m) <= v <==> a <= v
    ensures a >= 0 ==> FirstMultiple(a, m) >= a
  {
    var x := a + m - 1;
    WrapIdentity(x);
    QuoTimes(x, m);
    var start := Quo(x, m) * m;
    WrapIdentity(start);
    if a <= v < start { GapOfMultiples(v, start, m); }
  }

  /** With overflow the start wraps to a multiple that is not positive. */
  lemma WrappedStart(a: int, m: int)
    requires 0 < m <= MAX_INT64 && MIN_INT64 <= a <= MAX_INT64 && a + m - 1 > MAX_INT64
    ensures FirstMultiple(a, m) <= 0 && FirstMultiple(a, m) % m == 0
  {
    var x := Wrap(a + m - 1);
    assert x == a + m - 1 - 0x1_0000_0000_0000_0000;
    QuoTimes(x, m);
    WrapIdentity(Quo(x, m) * m);
  }

  // Steps that count down

  /** All values are below the end. */
  lemma {:induction false} WrapBelow(start: int, end: int, m: int, v: int)
    requires 0 < m <= MAX_INT64 && MIN_INT64 <= start && 0 < end <= 60 && v in WrapValues(start, end, m)
    ensures v < end
    decreases RoundsLeft(start, end, m)
  {
    WrapsDown(start, end, m);
    if v != start { WrapBelow(Wrap(start - m), end, m, v); }
  }

  /** A counter that wraps has been below 0. */
  lemma {:induction false} WrapHasNegative(start: int, end: int, m: int) returns (v: int)
    requires 0 < m <= MAX_INT64 && MIN_INT64 <= start < end <= 60 && 0 < end
    ensures v in WrapValues(start, end, m) && v < 0
    decreases if start < 0 then 0 else start + 1
  {
    v := start;
    if start >= 0 {
      WrapsDown(start, end, m);
      v := WrapHasNegative(start - m, end, m);
    }
  }

  /** Unless the increment is near the least int64, a counter that starts at 0 or below stays there. */
  lemma {:induction false} WrapStaysDown(start: int, end: int, m: int, v: int)
    requires 0 < m <= MAX_INT64 && MIN_INT64 <= start <= 0 && 0 < end <= 60 && -MIN_INT64 - m >= end
    requires v in WrapValues(start, end, m)
    ensures v <= start
    decreases RoundsLeft(start, end, m)
  {
    WrapsDown(start, end, m);
    if v != start { WrapStaysDown(start - m, end, m, v); }
  }

  /** With an increment near the least int64 the multiples at hand are 0 and `-m`. */
  lemma LargeMultiple(start: int, m: int)
    requires -MIN_INT64 - 60 < m <= MAX_INT64 && MIN_INT64 <= start <= 0 && start % m == 0
    ensures start in {0, -m}
  {
    MultipleIff(-m, m, -1);
    if start < -m { GapOfMultiples(start, -m, m); }
    if -m < start < 0 { GapOfMultiples(-m, start, m); }
  }

  /** From `-m` such a counter wraps to twice what is missing to the least int64. */
  lemma LargeFirstWrap(end: int, m: int)
    requires -MIN_INT64 - 60 < m <= MAX_INT64 && 0 < end <= 60
    ensures var around := 2 * (-MIN_INT64 - m);
      WrapValues(-m, end, m) == [-m] + WrapValues(around, end, m) && around > 0
    ensures WrapValues(0, end, m) == [0] + WrapValues(-m, end, m)
  {
    WrapsDown(-m, end, m);
    WrapsDown(0, end, m);
  }

  /** How near the least int64 an increment has to be for a counter to come up below the end. */
  predicate ComesUp(m: int, end: int) { 2 * (-MIN_INT64 - m) < end }

  /** Whether a counter that starts at a multiple, at 0 or below, reaches a positive value. */
  lemma WrapComesUp(start: int, end: int, m: int)
    requires 0 < m <= MAX_INT64 && MIN_INT64 <= start <= 0 && start % m == 0 && 0 < end <= 60
    ensures (exists v :: v in WrapValues(start, end, m) && v > 0) <==> ComesUp(m, end)
    ensures start < 0 && !ComesUp(m, end) ==> forall v | v in WrapValues(start, end, m) :: v < 0
  {
    if -MIN_INT64 - m >= end {
      forall v | v in WrapValues(start, end, m) ensures v <= start { WrapStaysDown(start, end, m, v); }
    } else {
      LargeMultiple(start, m);
      LargeFirstWrap(end, m);
      var around := 2 * (-MIN_INT64 - m);
      if ComesUp(m, end) {
        assert WrapValues(around, end, m)[0] == around;
        assert around in WrapValues(start, end, m);
      } else {
        assert WrapValues(around, end, m) == [];
      }
    }
  }

  /** For instance, three rounds of a quarter of the int64 range. */
  lemma QuarterSteps()
    ensures WrapValues(0, 60, 0x4000_0000_0000_0000) == [0, -0x4000_0000_0000_0000, MIN_INT64]
  {
    var m := 0x4000_0000_0000_0000;
    WrapsDown(0, 60, m);
    WrapsDown(-m, 60, m);
    WrapsDown(MIN_INT64, 60, m);
    assert WrapValues(m, 60, m) == [];
    assert WrapValues(MIN_INT64, 60, m) == [MIN_INT64];
  }

  // Where steps start

  /** The start of a step list is below 0, in terms of the numbers as written. */
  predicate StartsBelow(a: int, increment: int) {
    var x := a + increment - 1;
    if increment > 0 then x <= -increment || (x > MAX_INT64 && x - 0x1_0000_0000_0000_0000 <= -increment)
    else a <= 1 && x >= MIN_INT64
  }

  /** The start of a list that counts down is above 0. */
  predicate StartsAbove(a: int, increment: int) {
    var x := a + increment - 1;
    x >= -increment || (x < MIN_INT64 && x + 0x1_0000_0000_0000_0000 >= -increment)
  }

  lemma WrapOnce(x: int)
    requires 2 * MIN_INT64 - 1 <= x <= 2 * MAX_INT64
    ensures Wrap(x) == if x > MAX_INT64 then x - 0x1_0000_0000_0000_0000
                       else if x < MIN_INT64 then x + 0x1_0000_0000_0000_0000 else x
  {
  }

  /** Rounding keeps the sign, or gives 0. */
  lemma StartSign(a: int, increment: int)
    requires MIN_INT64 <= a <= MAX_INT64 && MIN_INT64 < increment <= MAX_INT64 && increment != 0
    ensures var m := if increment > 0 then increment else -increment; FirstMultiple(a, increment) % m == 0
    ensures FirstMultiple(a, increment) < 0 <==> StartsBelow(a, increment)
    ensures increment < 0 ==> (FirstMultiple(a, increment) > 0 <==> StartsAbove(a, increment))
  {
    var m := if increment > 0 then increment else -increment;
    var x := Wrap(a + increment - 1);
    WrapOnce(a + increment - 1);
    RoundSign(x, m);
    QuoSign(x, m);
    hide Quo;
    var start := Quo(x, m) * m;
    assert Quo(x, increment) * increment == start;
    WrapIdentity(start);
    hide Wrap;
  }

  lemma RoundSign(x: int, m: int)
    requires m > 0
    ensures var start := Quo(x, m) * m;
      && start % m == 0 && (start < 0 <==> x <= -m) && (start > 0 <==> x >= m)
      && (x >= 0 ==> 0 <= start <= x) && (x < 0 ==> x <= start <= 0)
  {
    QuoTimes(x, m);
    hide Quo;
  }

  lemma QuoSign(x: int, m: int)
    requires m > 0
    ensures Quo(x, -m) * -m == Quo(x, m) * m
  {
    var y := if x >= 0 then x else -x;
    NegativeDivisor(y, m);
  }

  lemma NegativeDivisor(y: int, m: int)
    requires m > 0 && y >= 0
    ensures y / -m == -(y / m)
  {
  }
}
