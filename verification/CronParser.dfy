/** The parser and matcher as loops over slices, with their early returns. */
module CronParser {
  import opened Text
  import opened CronSyntax
  import opened StepArithmetic

  function StepList(start: int, end: int, increment: int): seq<int>
    requires MIN_INT64 < increment <= MAX_INT64 && increment != 0 && MIN_INT64 <= start
    requires increment < 0 ==> 0 < end <= 60
  {
    if increment > 0 then StepValues(start, end, increment) else WrapValues(start, end, -increment)
  }

  lemma NoOverflow(v: int, m: int)
    requires 0 < m <= MAX_INT64 && MIN_INT64 <= v < 60 && v % m == 0
    ensures Wrap(v + m) == v + m && (v + m) % m == 0
  {
    if v > 0 { GapOfMultiples(0, v, m); }
    WrapIdentity(v + m);
    NextMultiple(v, m);
  }

  /** The loop over an int64 counter: counting up from a multiple it does not overflow, and
      counting down it ends by wrapping around. The increments 0 and the least int64, from
      which it never ends, are the callers' to rule out. */
  method Steps(start: int, end: int, increment: int) returns (steps: seq<int>)
    requires MIN_INT64 < increment <= MAX_INT64 && increment != 0 && MIN_INT64 <= start && end <= 60
    requires if increment > 0 then start % increment == 0 else 0 < end
    ensures steps == StepList(start, end, increment)
  {
    steps := [];
    var v := start;
    while v < end
      invariant MIN_INT64 <= v && (increment > 0 ==> v % increment == 0)
      invariant steps + StepList(v, end, increment) == StepList(start, end, increment)
      decreases if increment > 0 then end - v else RoundsLeft(v, end, -increment)
    {
      if increment > 0 { NoOverflow(v, increment); } else { WrapsDown(v, end, -increment); }
      assert StepList(v, end, increment) == [v] + StepList(Wrap(v + increment), end, increment);
      steps := steps + [v];
      v := Wrap(v + increment);
    }
  }

  method ParseStep(s: string, bound: int) returns (r: Outcome)
    requires 0 < bound <= 60
    ensures r == ReadStep(s, bound)
  {
    var parts := Split(s, '/');
    if |parts| == 2 {
      var increment := ParseInt(parts[1]);
      if !increment.Int? { return Rejected; }
      var start := 0;
      if parts[0] != "*" {
        var first := ParseInt(parts[0]);
        if !first.Int? { return Rejected; }
        if increment.value == 0 { return Stuck; }
        start := FirstMultiple(first.value, increment.value);
        LeastIncrement(first.value);
        if increment.value > 0 { StartSign(first.value, increment.value); }
      }
      if start > bound { return Rejected; }
      if start == bound { return Values([]); }
      if increment.value == 0 || increment.value == MIN_INT64 { return Stuck; }
      var steps := Steps(start, bound, increment.value);
      return Values(steps);
    }
    if |parts| != 1 { return Rejected; }
    return Values([]);
  }

  method ParseRange(s: string, min: int, max: int) returns (r: Outcome)
    requires max < 60
    ensures r == ReadRange(s, min, max)
  {
    var parts := Split(s, '-');
    if |parts| == 2 {
      var start := ParseInt(parts[0]);
      if !start.Int? { return Rejected; }
      var end := ParseInt(parts[1]);
      if !end.Int? { return Rejected; }
      if start.value <= end.value && start.value >= min && end.value <= max {
        var steps := Steps(start.value, end.value + 1, 1);
        return Values(steps);
      }
      return Rejected;
    }
    if |parts| != 1 { return Rejected; }
    return Values([]);
  }

  method FindName(names: seq<string>, name: string) returns (i: nat)
    ensures i == NameIndex(names, name)
  {
    i := 0;
    while i < |names|
      invariant 0 <= i <= |names|
      invariant forall j | 0 <= j < i :: names[j] != name
    {
      if names[i] == name {
        FirstIsIndex(names, name, i);
        return;
      }
      i := i + 1;
    }
    FirstIsIndex(names, name, i);
  }

  lemma FirstIsIndex(names: seq<string>, name: string, i: nat)
    requires i <= |names| && (i < |names| ==> names[i] == name)
    requires forall j | 0 <= j < i :: names[j] != name
    ensures i == NameIndex(names, name)
  {
  }

  /** Keep the values a field admits from a step. */
  method Keep(list: seq<int>, positive: bool) returns (kept: seq<int>)
    ensures kept == Kept(list, positive)
  {
    kept := [];
    var i := 0;
    while i < |list|
      invariant 0 <= i <= |list|
      invariant kept + Kept(list[i..], positive) == Kept(list, positive)
    {
      assert list[i..][1..] == list[i + 1..];
      if !(positive && list[i] <= 0) {
        kept := kept + [list[i]];
      }
      i := i + 1;
    }
  }

  method ParsePart(part: string, f: Field) returns (r: Outcome)
    requires f.hi < 60
    ensures r == ReadPart(part, f)
  {
    var i := FindName(f.names, ToUpper(part));
    if i < |f.names| { return Values([f.lo + i]); }
    var range := ParseRange(part, f.lo, f.hi);
    if range.Rejected? { return range; }
    if range.list != [] { return range; }
    var v := ParseInt(part);
    if !v.Int? { return Rejected; }
    if v.value < f.lo || v.value > f.hi { return Rejected; }
    return Values([v.value]);
  }

  /** `ParseMinute` and its four siblings, which differ only in the field. */
  method ParseField(s: string, f: Field) returns (r: Outcome)
    requires IsField(f)
    ensures r == ReadField(s, f)
  {
    if s == "*" { return Values([]); }
    if f.bound > 0 {
      var steps := ParseStep(s, f.bound);
      if !steps.Values? { return steps; }
      if steps.list != [] {
        var kept := Keep(steps.list, f.positive);
        return Values(kept);
      }
    }
    var parts := Split(s, ',');
    r := ParseList(parts, f);
  }

  method ParseList(parts: seq<string>, f: Field) returns (r: Outcome)
    requires f.hi < 60
    ensures r == ReadParts(parts, f)
  {
    var values := [];
    var i := 0;
    while i < |parts|
      invariant 0 <= i <= |parts|
      invariant ReadParts(parts, f) ==
        var rest := ReadParts(parts[i..], f); if rest.Values? then Values(values + rest.list) else rest
    {
      assert parts[i..][1..] == parts[i + 1..];
      var part := ParsePart(parts[i], f);
      if !part.Values? { return part; }
      values := values + part.list;
      i := i + 1;
    }
    assert parts[i..] == [];
    return Values(values);
  }

  method Parse(s: string) returns (r: Parsed)
    ensures r == ReadExpression(s)
  {
    var parts := Split(s, ' ');
    if |parts| != 5 { return Errors; }
    var minutes := ParseField(parts[0], MINUTE);
    if minutes.Stuck? { return Never; }
    var hours := ParseField(parts[1], HOUR);
    if hours.Stuck? { return Never; }
    var days := ParseField(parts[2], DAY);
    if days.Stuck? { return Never; }
    var months := ParseField(parts[3], MONTH);
    if months.Stuck? { return Never; }
    var weekdays := ParseField(parts[4], WEEKDAY);
    if weekdays.Stuck? { return Never; }
    if minutes.Rejected? || hours.Rejected? || days.Rejected? || months.Rejected? ||
      weekdays.Rejected? { return Errors; }
    return Cron(Expression(minutes.list, hours.list, days.list, months.list, weekdays.list));
  }

  method Has(list: seq<int>, v: int) returns (b: bool)
    ensures b == Contains(list, v)
  {
    if |list| == 0 { return true; }
    for i := 0 to |list|
      invariant v !in list[..i]
    {
      if list[i] == v { return true; }
    }
    return false;
  }

  method Match(e: Expression, t: Components) returns (b: bool)
    ensures b == Matches(e, t)
  {
    b := Has(e.minute, t.minute);
    if b { b := Has(e.hour, t.hour); }
    if b { b := Has(e.day, t.day); }
    if b { b := Has(e.month, t.month); }
    if b { b := Has(e.weekday, t.weekday); }
  }
}
