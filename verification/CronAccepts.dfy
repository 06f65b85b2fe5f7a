/** Which cron strings parse, said of the text alone. */
module CronAccepts {
  import opened Text
  import opened CronSyntax
  import opened StepArithmetic
  import opened CronMeaning

  /** A number within bounds. */
  predicate IsNumber(part: string, lo: int, hi: int) {
    ParseInt(part).Int? && lo <= ParseInt(part).value <= hi
  }

  /** `a-b` with `lo <= a <= b <= hi`. */
  predicate IsInterval(part: string, lo: int, hi: int) {
    var ends := Split(part, '-');
    && |ends| == 2 && ParseInt(ends[0]).Int? && ParseInt(ends[1]).Int?
    && lo <= ParseInt(ends[0]).value <= ParseInt(ends[1]).value <= hi
  }

  /** One part of a comma list: a name in any case, an interval, or a number without a dash. */
  predicate AcceptsPart(part: string, lo: int, hi: int, names: seq<string>) {
    || ToUpper(part) in names
    || IsInterval(part, lo, hi)
    || ('-' !in part && IsNumber(part, lo, hi))
  }

  predicate AcceptsList(s: string, lo: int, hi: int, names: seq<string>) {
    forall part | part in Split(s, ',') :: AcceptsPart(part, lo, hi, names)
  }

  predicate IsMultiple(v: int, m: int)
    requires m != 0
  {
    v % m == 0
  }

  /** The sum of start and increment less one, as an int64. */
  function Sum64(a: int, increment: int): int {
    var x := a + increment - 1;
    if x > MAX_INT64 then x - 0x1_0000_0000_0000_0000 else if x < MIN_INT64 then x + 0x1_0000_0000_0000_0000 else x
  }

  /** A step: an increment other than 0 and the least int64, from `*` or from a number that rounds
      to a start below the bound. Rounding goes down to a multiple, so it stays below the bound
      exactly if there is no multiple between. */
  ghost predicate AcceptsStep(s: string, bound: int) {
    var parts := Split(s, '/');
    && |parts| == 2 && ParseInt(parts[1]).Int?
    && var increment := ParseInt(parts[1]).value;
    && increment != 0 && increment != MIN_INT64
    && (parts[0] == "*" ||
        (ParseInt(parts[0]).Int? &&
         forall v | bound <= v <= Sum64(ParseInt(parts[0]).value, increment) :: !IsMultiple(v, increment)))
  }

  /** A step that never gives a result: a division by 0, or a loop that does not end. */
  predicate HangsStep(s: string) {
    var parts := Split(s, '/');
    && |parts| == 2 && ParseInt(parts[1]).Int? && ParseInt(parts[1]).value in {0, MIN_INT64}
    && (parts[0] == "*" || ParseInt(parts[0]).Int?)
  }

  /** A field: `*`, a step where steps are read (`bound > 0`), or a comma list. */
  ghost predicate Accepts(s: string, lo: int, hi: int, bound: int, names: seq<string>) {
    s == "*" || (if bound > 0 && '/' in s then AcceptsStep(s, bound) else AcceptsList(s, lo, hi, names))
  }

  // Lists

  lemma RangeIff(part: string, lo: int, hi: int)
    ensures IsInterval(part, lo, hi) <==> ReadRange(part, lo, hi).Values? && ReadRange(part, lo, hi).list != []
    ensures '-' !in part <==> ReadRange(part, lo, hi) == Values([])
    ensures !ReadRange(part, lo, hi).Stuck?
  {
    var ends := Split(part, '-');
    if |ends| == 2 && ParseInt(ends[0]).Int? && ParseInt(ends[1]).Int? {
      var a, b := ParseInt(ends[0]).value, ParseInt(ends[1]).value;
      hide Split, ParseInt;
      assert a <= b ==> StepValues(a, b + 1, 1) != [];
    }
  }

  lemma PartIff(part: string, f: Field)
    requires IsField(f)
    ensures ReadPart(part, f).Values? <==> AcceptsPart(part, f.lo, f.hi, f.names)
    ensures ReadPart(part, f).Values? || ReadPart(part, f).Rejected?
  {
    RangeIff(part, f.lo, f.hi);
    var i := NameIndex(f.names, ToUpper(part));
    assert i < |f.names| <==> ToUpper(part) in f.names;
    hide ReadRange, IsInterval, ToUpper, ParseInt, NameIndex;
  }

  lemma {:induction false} PartsIff(parts: seq<string>, f: Field)
    requires IsField(f)
    ensures ReadParts(parts, f).Values? <==> forall part | part in parts :: AcceptsPart(part, f.lo, f.hi, f.names)
    ensures ReadParts(parts, f).Values? || ReadParts(parts, f).Rejected?
  {
    if parts != [] {
      PartIff(parts[0], f);
      PartsIff(parts[1..], f);
      hide ReadPart, AcceptsPart;
      assert parts == [parts[0]] + parts[1..];
    }
  }

  // Steps

  /** Rounding stays below a bound exactly if no multiple lies between. */
  lemma RoundsBelowIff(x: int, m: int, bound: int)
    requires m > 0 && bound > 0
    ensures Quo(x, m) * m < bound <==> forall v | bound <= v <= x :: !IsMultiple(v, m)
  {
    RoundSign(x, m);
    QuoTimes(x, m);
    var start := Quo(x, m) * m;
    hide Quo;
    if start >= bound { assert IsMultiple(start, m); }
    forall v | bound <= v <= x && IsMultiple(v, m) ensures start >= bound {
      if start < v { GapOfMultiples(start, v, m); }
    }
  }

  lemma SameMultiples(v: int, m: int)
    requires m > 0
    ensures IsMultiple(v, -m) <==> IsMultiple(v, m)
  {
  }

  lemma StartBelowIff(a: int, increment: int, bound: int)
    requires MIN_INT64 <= a <= MAX_INT64 && MIN_INT64 < increment <= MAX_INT64 && increment != 0 && bound > 0
    ensures FirstMultiple(a, increment) < bound <==>
      forall v | bound <= v <= Sum64(a, increment) :: !IsMultiple(v, increment)
  {
    var m := if increment > 0 then increment else -increment;
    var x := Wrap(a + increment - 1);
    WrapOnce(a + increment - 1);
    assert x == Sum64(a, increment);
    RoundSign(x, m);
    QuoSign(x, m);
    RoundsBelowIff(x, m, bound);
    forall v ensures IsMultiple(v, increment) <==> IsMultiple(v, m) { SameMultiples(v, m); }
    hide Quo, Sum64;
    assert Quo(x, increment) * increment == Quo(x, m) * m;
    WrapIdentity(Quo(x, m) * m);
    hide Wrap, IsMultiple;
  }

  lemma ReadStepIff(s: string, bound: int)
    requires 0 < bound <= 60 && '/' in s
    ensures ReadStep(s, bound).Values? && ReadStep(s, bound).list != [] <==> AcceptsStep(s, bound)
    ensures ReadStep(s, bound).Stuck? <==> HangsStep(s)
  {
    var parts := Split(s, '/');
    assert ParseInt("*") == BadSyntax;
    hide Split;
    if |parts| == 2 && ParseInt(parts[1]).Int? {
      var increment := ParseInt(parts[1]).value;
      if parts[0] == "*" {
        FromIsNotEmpty(0, bound, increment);
      } else if ParseInt(parts[0]).Int? {
        var a := ParseInt(parts[0]).value;
        hide ParseInt;
        if increment == MIN_INT64 {
          LeastIncrement(a);
        } else if increment != 0 {
          StartBelowIff(a, increment, bound);
          FromIsNotEmpty(FirstMultiple(a, increment), bound, increment);
        }
        hide FirstMultiple, IsMultiple, Sum64, StepsFrom;
      }
    }
  }

  lemma FromIsNotEmpty(start: int, bound: int, increment: int)
    requires MIN_INT64 <= start && 0 < bound <= 60 && MIN_INT64 <= increment <= MAX_INT64
    requires increment == MIN_INT64 ==> start in {0, MIN_INT64}
    ensures var r := StepsFrom(start, bound, increment);
      && (r.Stuck? <==> start < bound && increment in {0, MIN_INT64})
      && (r.Values? && r.list != [] <==> start < bound && increment !in {0, MIN_INT64})
  {
  }

  lemma StepIff(s: string, f: Field)
    requires IsField(f) && f.bound > 0 && '/' in s
    ensures ReadField(s, f).Values? <==> AcceptsStep(s, f.bound)
    ensures ReadField(s, f).Stuck? <==> HangsStep(s)
  {
    ReadStepIff(s, f.bound);
    SlashRejects(s, f);
    PartsIff(Split(s, ','), f);
    hide Split, ReadParts, ReadStep, Kept, AcceptsStep, HangsStep, AcceptsPart;
  }

  // Fields and expressions

  /** A field parses exactly if its text is accepted, and hangs exactly if it is a step that does. */
  lemma FieldIff(s: string, f: Field)
    requires IsField(f)
    ensures ReadField(s, f).Values? <==> Accepts(s, f.lo, f.hi, f.bound, f.names)
    ensures ReadField(s, f).Stuck? <==> f.bound > 0 && HangsStep(s)
  {
    if s == "*" {
      assert Split("*", '/') == ["*"];
    } else if f.bound > 0 && '/' in s {
      StepIff(s, f);
    } else {
      PartsIff(Split(s, ','), f);
      assert f.bound > 0 ==> |Split(s, '/')| == 1;
      hide ReadParts;
    }
  }

  /** Five fields: minutes 0 to 59, hours 0 to 23, days 1 to 31, months 1 to 12 or by name,
      weekdays 0 to 6 or by name; steps in the first three. */
  ghost predicate AcceptsExpression(s: string) {
    var parts := Split(s, ' ');
    && |parts| == 5
    && Accepts(parts[0], 0, 59, 60, [])
    && Accepts(parts[1], 0, 23, 24, [])
    && Accepts(parts[2], 1, 31, 31, [])
    && Accepts(parts[3], 1, 12, 0, MONTHS)
    && Accepts(parts[4], 0, 6, 0, DAYS)
  }

  predicate HangsExpression(s: string) {
    var parts := Split(s, ' ');
    |parts| == 5 && (HangsStep(parts[0]) || HangsStep(parts[1]) || HangsStep(parts[2]))
  }

  /** A string parses exactly if it is accepted; parsing gives no result exactly if one of the
      first three fields is a step that hangs; and it is an error otherwise. */
  lemma ParsesIff(s: string)
    ensures ReadExpression(s).Cron? <==> AcceptsExpression(s)
    ensures ReadExpression(s).Never? <==> HangsExpression(s)
  {
    var p := Split(s, ' ');
    hide Split, ReadField, Accepts, HangsStep;
    if |p| == 5 {
      FieldIff(p[0], MINUTE);
      FieldIff(p[1], HOUR);
      FieldIff(p[2], DAY);
      FieldIff(p[3], MONTH);
      FieldIff(p[4], WEEKDAY);
    }
  }

  // Names

  /** A name, in any case, stands for its position counted from the least value of the field. */
  lemma NameReads(name: string, f: Field, i: nat)
    requires f.bound == 0 && ',' !in name && name != "*" && i < |f.names| && ToUpper(name) == f.names[i]
    requires forall j | 0 <= j < i :: f.names[j] != f.names[i]
    ensures ReadField(name, f) == Values([f.lo + i])
  {
    assert Split(name, ',') == [name];
    assert [name][1..] == [];
    assert ReadPart(name, f) == Values([f.lo + i]);
    assert ReadParts([name], f) == Values([f.lo + i] + []);
  }

  function Upper(c: char): char { if 'a' <= c <= 'z' then c - 'a' + 'A' else c }

  lemma LettersRead(x: char, y: char, z: char, f: Field, i: nat)
    requires f.bound == 0 && x != ',' && y != ',' && z != ','
    requires x < '\U{0131}' && y < '\U{0131}' && z < '\U{0131}'
    requires i < |f.names| && f.names[i] == [Upper(x), Upper(y), Upper(z)]
    requires forall j | 0 <= j < i :: f.names[j] != f.names[i]
    ensures ReadField([x, y, z], f) == Values([f.lo + i])
  {
    assert ToUpper([x, y, z]) == [Upper(x), Upper(y), Upper(z)];
    NameReads([x, y, z], f, i);
  }

  lemma MonthNames()
    ensures ReadField("JAN", MONTH) == Values([1])
    ensures ReadField("feb", MONTH) == Values([2])
    ensures ReadField("MAR", MONTH) == Values([3])
    ensures ReadField("Apr", MONTH) == Values([4])
  {
    hide ReadField;
    LettersRead('J', 'A', 'N', MONTH, 0);
    LettersRead('f', 'e', 'b', MONTH, 1);
    LettersRead('M', 'A', 'R', MONTH, 2);
    LettersRead('A', 'p', 'r', MONTH, 3);
  }

  lemma MiddleMonthNames()
    ensures ReadField("MAY", MONTH) == Values([5])
    ensures ReadField("JUN", MONTH) == Values([6])
    ensures ReadField("JUL", MONTH) == Values([7])
    ensures ReadField("AUG", MONTH) == Values([8])
  {
    hide ReadField;
    LettersRead('M', 'A', 'Y', MONTH, 4);
    LettersRead('J', 'U', 'N', MONTH, 5);
    LettersRead('J', 'U', 'L', MONTH, 6);
    LettersRead('A', 'U', 'G', MONTH, 7);
  }

  lemma LastMonthNames()
    ensures ReadField("SEP", MONTH) == Values([9])
    ensures ReadField("OCT", MONTH) == Values([10])
    ensures ReadField("NOV", MONTH) == Values([11])
    ensures ReadField("DEC", MONTH) == Values([12])
  {
    hide ReadField;
    LettersRead('S', 'E', 'P', MONTH, 8);
    LettersRead('O', 'C', 'T', MONTH, 9);
    LettersRead('N', 'O', 'V', MONTH, 10);
    LettersRead('D', 'E', 'C', MONTH, 11);
  }

  lemma WeekdayNames()
    ensures ReadField("SUN", WEEKDAY) == Values([0])
    ensures ReadField("mon", WEEKDAY) == Values([1])
    ensures ReadField("TUE", WEEKDAY) == Values([2])
    ensures ReadField("Wed", WEEKDAY) == Values([3])
    ensures ReadField("THU", WEEKDAY) == Values([4])
    ensures ReadField("FRI", WEEKDAY) == Values([5])
    ensures ReadField("SAT", WEEKDAY) == Values([6])
  {
    hide ReadField;
    LettersRead('S', 'U', 'N', WEEKDAY, 0);
    LettersRead('m', 'o', 'n', WEEKDAY, 1);
    LettersRead('T', 'U', 'E', WEEKDAY, 2);
    LettersRead('W', 'e', 'd', WEEKDAY, 3);
    LettersRead('T', 'H', 'U', WEEKDAY, 4);
    LettersRead('F', 'R', 'I', WEEKDAY, 5);
    LettersRead('S', 'A', 'T', WEEKDAY, 6);
  }
}
