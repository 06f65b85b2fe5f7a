/** Cron expressions as the scheduler reads them: what each parse function returns,
    as functions of the text, with Go's int64 arithmetic written out. */
module CronSyntax {
  import opened Text

  /** One of the five fields: its range, the bound of its step values (0 if steps are
      not accepted), whether values below 1 are dropped from steps, and its names. */
  datatype Field = Field(lo: int, hi: int, bound: int, positive: bool, names: seq<string>)

  const MINUTE := Field(0, 59, 60, false, [])
  const HOUR := Field(0, 23, 24, false, [])
  const DAY := Field(1, 31, 31, true, [])
  const MONTH :=
    Field(1, 12, 0, false, ["JAN", "FEB", "MAR", "APR", "MAY", "JUN", "JUL", "AUG", "SEP", "OCT", "NOV", "DEC"])
  const WEEKDAY := Field(0, 6, 0, false, ["SUN", "MON", "TUE", "WED", "THU", "FRI", "SAT"])

  predicate IsField(f: Field) { f in {MINUTE, HOUR, DAY, MONTH, WEEKDAY} }

  /** The outcome of reading a field: a list of values, an error message, or neither
      (a division by zero, or a loop that never ends). */
  datatype Outcome = Values(list: seq<int>) | Rejected | Stuck

  /** A two's-complement 64-bit integer. */
  function Wrap(x: int): int { (x - MIN_INT64) % 0x1_0000_0000_0000_0000 + MIN_INT64 }

  /** Go's integer division, which truncates toward zero. */
  function Quo(x: int, y: int): int
    requires y != 0
  {
    if x >= 0 then x / y else -((-x) / y)
  }

  /** The values `start, start + increment, ...` below `end`. */
  function StepValues(start: int, end: int, increment: int): (r: seq<int>)
    requires increment > 0
    decreases end - start
  {
    if start >= end then [] else [start] + StepValues(start + increment, end, increment)
  }

  /** How long a loop that counts down by `m` still runs: down to the least int64 and around
      it, after which the counter is at least `0x8000_0000_0000_0000 - m`. For an `m` so large
      that this is below `end`, every second round comes closer to it. */
  function RoundsLeft(v: int, end: int, m: int): nat
    requires 0 < m <= MAX_INT64 && MIN_INT64 <= v
  {
    if v >= end then 0
    else if -MIN_INT64 - m >= end then v - MIN_INT64 + 1
    else if v - m >= MIN_INT64 then 2 * (end - v) + 1
    else
      var around := v - m + 0x1_0000_0000_0000_0000;
      if around >= end then 2 else 2 * (end - around) + 2
  }

  lemma WrapsDown(v: int, end: int, m: int)
    requires 0 < m <= MAX_INT64 && MIN_INT64 <= v < end && 0 < end <= 60
    ensures Wrap(v - m) == if v - m >= MIN_INT64 then v - m else v - m + 0x1_0000_0000_0000_0000
    ensures MIN_INT64 <= Wrap(v - m) <= MAX_INT64
    ensures RoundsLeft(Wrap(v - m), end, m) < RoundsLeft(v, end, m)
  {
  }

  /** The values `start, start - m, ...` of an int64 counter until one is not below `end`. */
  function WrapValues(start: int, end: int, m: int): seq<int>
    requires 0 < m <= MAX_INT64 && MIN_INT64 <= start && 0 < end <= 60
    decreases RoundsLeft(start, end, m)
  {
    if start >= end then []
    else
      WrapsDown(start, end, m);
      [start] + WrapValues(Wrap(start - m), end, m)
  }

  /** Where a step list starts: the next multiple of the increment. */
  function FirstMultiple(start: int, increment: int): (r: int)
    requires increment != 0
    ensures MIN_INT64 <= r <= MAX_INT64
  {
    Wrap(Quo(Wrap(start + increment - 1), increment) * increment)
  }

  /** With the least increment the list starts at 0 or at the least value. */
  lemma LeastIncrement(start: int)
    ensures FirstMultiple(start, MIN_INT64) in {0, MIN_INT64}
  {
    var x := Wrap(start + MIN_INT64 - 1);
    assert Quo(x, MIN_INT64) in {0, 1};
  }

  /** From there the counter goes back and forth between the two, and one of 0 stands still. */
  lemma {:induction false} NeverEnds(start: int, increment: int, rounds: nat)
    requires start in {0, MIN_INT64} && increment == MIN_INT64
    ensures Counter(start, increment, rounds) in {0, MIN_INT64}
    decreases rounds
  {
    if rounds > 0 { NeverEnds(Wrap(start + increment), increment, rounds - 1); }
  }

  function Counter(start: int, increment: int, rounds: nat): int
    decreases rounds
  {
    if rounds == 0 then start else Counter(Wrap(start + increment), increment, rounds - 1)
  }

  /** `ParseStep`; the empty list without an error means "not a step". */
  function ReadStep(s: string, bound: int): Outcome
    requires 0 < bound <= 60
  {
    var parts := Split(s, '/');
    if |parts| == 1 then Values([])
    else if |parts| != 2 then Rejected
    else
      var increment := ParseInt(parts[1]);
      if !increment.Int? then Rejected
      else if parts[0] == "*" then StepsFrom(0, bound, increment.value)
      else
        var start := ParseInt(parts[0]);
        if !start.Int? then Rejected
        else if increment.value == 0 then Stuck
        else
          LeastIncrement(start.value);
          StepsFrom(FirstMultiple(start.value, increment.value), bound, increment.value)
  }

  function StepsFrom(start: int, bound: int, increment: int): Outcome
    requires MIN_INT64 <= start && 0 < bound <= 60 && MIN_INT64 <= increment <= MAX_INT64
    requires increment == MIN_INT64 ==> start in {0, MIN_INT64}
  {
    if start > bound then Rejected
    else if start == bound then Values([])
    else if increment == 0 || increment == MIN_INT64 then Stuck
    else if increment > 0 then Values(StepValues(start, bound, increment))
    else Values(WrapValues(start, bound, -increment))
  }

  /** `ParseRange`; the empty list without an error means "not a range". */
  function ReadRange(s: string, min: int, max: int): Outcome {
    var parts := Split(s, '-');
    if |parts| == 1 then Values([])
    else if |parts| != 2 then Rejected
    else
      var start, end := ParseInt(parts[0]), ParseInt(parts[1]);
      if start.Int? && end.Int? && start.value <= end.value && start.value >= min && end.value <= max
      then Values(StepValues(start.value, end.value + 1, 1))
      else Rejected
  }

  /** The position of a name, or the number of names. */
  function NameIndex(names: seq<string>, name: string): (i: nat)
    ensures i <= |names|
    ensures i < |names| ==> names[i] == name
    ensures forall j | 0 <= j < i :: names[j] != name
  {
    if names == [] then 0
    else if names[0] == name then 0
    else 1 + NameIndex(names[1..], name)
  }

  /** One comma-separated part: a name, a range, or a number. */
  function ReadPart(part: string, f: Field): Outcome {
    var i := NameIndex(f.names, ToUpper(part));
    if i < |f.names| then Values([f.lo + i])
    else
      var range := ReadRange(part, f.lo, f.hi);
      if range.Rejected? || range.list != [] then range
      else
        var v := ParseInt(part);
        if v.Int? && f.lo <= v.value <= f.hi then Values([v.value]) else Rejected
  }

  function ReadParts(parts: seq<string>, f: Field): Outcome {
    if parts == [] then Values([])
    else
      var first := ReadPart(parts[0], f);
      if !first.Values? then first
      else
        var rest := ReadParts(parts[1..], f);
        if !rest.Values? then rest else Values(first.list + rest.list)
  }

  /** The step values a field keeps. */
  function Kept(list: seq<int>, positive: bool): seq<int> {
    if list == [] then []
    else if positive && list[0] <= 0 then Kept(list[1..], positive)
    else [list[0]] + Kept(list[1..], positive)
  }

  /** `ParseMinute`, `ParseHour`, `ParseDay`, `ParseMonth` and `ParseWeekday`. */
  function ReadField(s: string, f: Field): Outcome
    requires f.bound <= 60
  {
    if s == "*" then Values([])
    else if f.bound > 0 then
      var steps := ReadStep(s, f.bound);
      if !steps.Values? then steps
      else if steps.list != [] then Values(Kept(steps.list, f.positive))
      else ReadParts(Split(s, ','), f)
    else ReadParts(Split(s, ','), f)
  }

  datatype Expression = Expression(minute: seq<int>, hour: seq<int>, day: seq<int>, month: seq<int>, weekday: seq<int>)

  datatype Parsed = Cron(expression: Expression) | Errors | Never

  /** `Parse`: all five fields are read, whatever the others gave. */
  function ReadExpression(s: string): Parsed {
    var parts := Split(s, ' ');
    if |parts| != 5 then Errors
    else
      var a, b, c, d, e := ReadField(parts[0], MINUTE), ReadField(parts[1], HOUR), ReadField(parts[2], DAY),
                           ReadField(parts[3], MONTH), ReadField(parts[4], WEEKDAY);
      if a.Stuck? || b.Stuck? || c.Stuck? || d.Stuck? || e.Stuck? then Never
      else if a.Values? && b.Values? && c.Values? && d.Values? && e.Values?
      then Cron(Expression(a.list, b.list, c.list, d.list, e.list))
      else Errors
  }

  /** The calendar components of a time. */
  datatype Components = Components(minute: int, hour: int, day: int, month: int, weekday: int)

  predicate OnCalendar(t: Components) {
    && 0 <= t.minute <= 59 && 0 <= t.hour <= 23 && 1 <= t.day <= 31 && 1 <= t.month <= 12 && 0 <= t.weekday <= 6
  }

  /** An empty list stands for every value. */
  predicate Contains(list: seq<int>, v: int) { list == [] || v in list }

  predicate Matches(e: Expression, t: Components) {
    && Contains(e.minute, t.minute)
    && Contains(e.hour, t.hour)
    && Contains(e.day, t.day)
    && Contains(e.month, t.month)
    && Contains(e.weekday, t.weekday)
  }
}
