/** What a cron expression denotes, said without lists, and exactly when the
    scheduler's lists agree with it. */
module CronMeaning {
  import opened Text
  import opened CronSyntax
  import opened StepArithmetic

  // The denotation

  /** `a/b`: the multiples of b from a (0 for `*`) up to the field's bound, 0 left out of days. */
  predicate StepDenotes(s: string, f: Field, v: int) {
    var parts := Split(s, '/');
    && |parts| == 2
    && ParseInt(parts[1]).Int? && ParseInt(parts[1]).value > 0
    && v % ParseInt(parts[1]).value == 0
    && (parts[0] == "*" || (ParseInt(parts[0]).Int? && ParseInt(parts[0]).value <= v))
    && v < f.bound && (f.positive ==> v > 0)
  }

  /** A name, the closed interval `a-b`, or a number. */
  predicate PartDenotes(part: string, f: Field, v: int) {
    var i := NameIndex(f.names, ToUpper(part));
    var ends := Split(part, '-');
    if i < |f.names| then v == f.lo + i
    else if |ends| == 2 then
      ParseInt(ends[0]).Int? && ParseInt(ends[1]).Int? && ParseInt(ends[0]).value <= v <= ParseInt(ends[1]).value
    else ParseInt(part) == Int(v)
  }

  predicate IsStep(s: string, f: Field) { f.bound > 0 && '/' in s }

  predicate Denotes(s: string, f: Field, v: int) {
    if s == "*" then true
    else if IsStep(s, f) then StepDenotes(s, f, v)
    else exists part | part in Split(s, ',') :: PartDenotes(part, f, v)
  }

  // Comma-separated lists

  lemma PartMeaning(part: string, f: Field)
    requires ReadPart(part, f).Values? && |f.names| <= f.hi - f.lo + 1
    ensures ReadPart(part, f).list != []
    ensures forall v :: v in ReadPart(part, f).list <==> PartDenotes(part, f, v)
    ensures forall v | v in ReadPart(part, f).list :: f.lo <= v <= f.hi
  {
    var ends := Split(part, '-');
    if NameIndex(f.names, ToUpper(part)) == |f.names| && |ends| == 2 {
      var a, b := ParseInt(ends[0]).value, ParseInt(ends[1]).value;
      var list := StepValues(a, b + 1, 1);
      forall v ensures v in list <==> a <= v <= b {
        StepMembers(a, b + 1, 1, v);
      }
    }
  }

  /** A list denotes the union of its parts, and is never empty. */
  lemma {:induction false} PartsMeaning(parts: seq<string>, f: Field)
    requires ReadParts(parts, f).Values? && |f.names| <= f.hi - f.lo + 1
    ensures parts != [] ==> ReadParts(parts, f).list != []
    ensures forall v :: v in ReadParts(parts, f).list <==> exists part | part in parts :: PartDenotes(part, f, v)
    ensures forall v | v in ReadParts(parts, f).list :: f.lo <= v <= f.hi
  {
    if parts != [] {
      PartMeaning(parts[0], f);
      PartsMeaning(parts[1..], f);
      assert parts == [parts[0]] + parts[1..];
    }
  }

  lemma {:induction false} SplitKeeps(s: string, sep: char, c: char)
    requires c in s && c != sep
    ensures exists p :: p in Split(s, sep) && c in p
  {
    var rest := Split(s[1..], sep);
    assert s == [s[0]] + s[1..];
    if c in s[1..] {
      SplitKeeps(s[1..], sep, c);
      var p :| p in rest && c in p;
      if s[0] == sep {
        assert p in [""] + rest;
      } else if p == rest[0] {
        assert [s[0]] + p in Split(s, sep);
      } else {
        assert p in rest[1..];
        assert p in Split(s, sep);
      }
    } else {
      assert [s[0]] + rest[0] in Split(s, sep);
    }
  }

  lemma {:induction false} BadPartRejects(parts: seq<string>, f: Field, p: string)
    requires p in parts && !ReadPart(p, f).Values?
    ensures !ReadParts(parts, f).Values?
  {
    if p != parts[0] {
      BadPartRejects(parts[1..], f, p);
    }
  }

  lemma SlashIsNoInt(s: string)
    requires '/' in s
    ensures !ParseInt(s).Int?
  {
  }

  lemma SlashPartRejects(p: string, f: Field)
    requires '/' in p && f.names == []
    ensures !ReadPart(p, f).Values?
  {
    SlashIsNoInt(p);
    var ends := Split(p, '-');
    if |ends| == 2 {
      SplitKeeps(p, '-', '/');
      if '/' in ends[0] { SlashIsNoInt(ends[0]); } else { SlashIsNoInt(ends[1]); }
    }
  }

  /** A slash is not accepted in a comma-separated list. */
  lemma SlashRejects(s: string, f: Field)
    requires '/' in s && f.names == []
    ensures !ReadParts(Split(s, ','), f).Values?
  {
    SplitKeeps(s, ',', '/');
    var p :| p in Split(s, ',') && '/' in p;
    SlashPartRejects(p, f);
    BadPartRejects(Split(s, ','), f, p);
  }

  // Fields

  /** The text is a step with a written increment. */
  predicate IsStepText(s: string) { |Split(s, '/')| == 2 && ParseInt(Split(s, '/')[1]).Int? }

  function Increment(s: string): int
    requires IsStepText(s)
  {
    ParseInt(Split(s, '/')[1]).value
  }

  ghost function Start(s: string): int
    requires IsStepText(s) && Increment(s) != 0
  {
    var parts := Split(s, '/');
    if parts[0] == "*" || !ParseInt(parts[0]).Int? then 0 else FirstMultiple(ParseInt(parts[0]).value, Increment(s))
  }

  /** A step is regular when its increment is positive and, for days, below 31, and when its
      start does not overflow. */
  predicate Regular(s: string, f: Field) {
    IsStep(s, f) ==>
      var parts := Split(s, '/');
      && IsStepText(s) && Increment(s) > 0
      && (parts[0] == "*" || (ParseInt(parts[0]).Int? && ParseInt(parts[0]).value + Increment(s) - 1 <= MAX_INT64))
      && (f.positive ==> Increment(s) < f.bound)
  }

  /** The written start is a number for which the list starts below 0. */
  predicate StartsNegative(s: string) {
    && IsStepText(s) && ParseInt(Split(s, '/')[0]).Int? && Increment(s) != 0
    && StartsBelow(ParseInt(Split(s, '/')[0]).value, Increment(s))
  }

  predicate StartsPositive(s: string) {
    && IsStepText(s) && ParseInt(Split(s, '/')[0]).Int?
    && StartsAbove(ParseInt(Split(s, '/')[0]).value, Increment(s))
  }

  /** A step that counts down from below 0 and does not come up again matches no calendar value. */
  predicate Barren(s: string, f: Field) {
    && IsStep(s, f) && !f.positive && IsStepText(s) && Increment(s) < 0
    && StartsNegative(s) && !ComesUp(-Increment(s), f.bound)
  }

  /** A step field that parses is the kept part of one list. */
  lemma StepShape(s: string, f: Field)
    requires IsField(f) && IsStep(s, f) && ReadField(s, f).Values?
    ensures IsStepText(s) && Increment(s) != 0 && Increment(s) != MIN_INT64
    ensures Split(s, '/')[0] == "*" || ParseInt(Split(s, '/')[0]).Int?
    ensures MIN_INT64 <= Start(s) < f.bound
    ensures Increment(s) > 0 ==>
      ReadField(s, f) == Values(Kept(StepValues(Start(s), f.bound, Increment(s)), f.positive))
    ensures Increment(s) < 0 ==>
      ReadField(s, f) == Values(Kept(WrapValues(Start(s), f.bound, -Increment(s)), f.positive))
  {
    hide Split, ReadParts, Kept, StepValues, WrapValues, FirstMultiple;
    SlashRejects(s, f);
    assert ParseInt("*") == BadSyntax;
    hide ParseInt;
  }

  /** The sign of the start, and that it is a multiple. */
  lemma StartIs(s: string, f: Field)
    requires IsField(f) && IsStep(s, f) && ReadField(s, f).Values?
    ensures IsStepText(s) && Increment(s) != 0 && Increment(s) != MIN_INT64
    ensures Start(s) % (if Increment(s) > 0 then Increment(s) else -Increment(s)) == 0
    ensures Start(s) < 0 <==> StartsNegative(s)
    ensures Increment(s) < 0 ==> (Start(s) > 0 <==> StartsPositive(s))
  {
    StepShape(s, f);
    hide ReadField, IsStep, FirstMultiple;
    var parts := Split(s, '/');
    if parts[0] == "*" {
      assert ParseInt("*") == BadSyntax;
    } else {
      StartSign(ParseInt(parts[0]).value, Increment(s));
    }
  }

  lemma StepFieldMembers(s: string, f: Field, v: int)
    requires IsField(f) && IsStep(s, f) && ReadField(s, f).Values? && IsStepText(s) && Increment(s) > 0
    ensures v in ReadField(s, f).list <==>
              Start(s) <= v < f.bound && v % Increment(s) == 0 && (f.positive ==> v > 0)
  {
    StepShape(s, f);
    StartIs(s, f);
    KeptMembers(StepValues(Start(s), f.bound, Increment(s)), f.positive, v);
    StepMembers(Start(s), f.bound, Increment(s), v);
  }

  /** What a step that counts down holds. */
  lemma DownFieldMembers(s: string, f: Field)
    requires IsField(f) && IsStep(s, f) && ReadField(s, f).Values? && IsStepText(s) && Increment(s) < 0
    ensures var list := ReadField(s, f).list;
      && (forall v | v in list :: v < f.bound && (f.positive ==> v > 0))
      && (!f.positive ==> Start(s) in list && exists v :: v in list && v < 0)
      && (!f.positive && Start(s) < 0 ==> ((exists v :: v in list && v >= 0) <==> ComesUp(-Increment(s), f.bound)))
      && (f.positive ==> (list != [] <==> Start(s) > 0 || ComesUp(-Increment(s), f.bound)))
  {
    StepShape(s, f);
    StartIs(s, f);
    var start, m := Start(s), -Increment(s);
    var all, list := WrapValues(start, f.bound, m), ReadField(s, f).list;
    hide ReadField, Start, WrapValues, Kept, IsStep;
    forall v ensures v in list <==> v in all && (f.positive ==> v > 0) { KeptMembers(all, f.positive, v); }
    forall v | v in all ensures v < f.bound { WrapBelow(start, f.bound, m, v); }
    var low := WrapHasNegative(start, f.bound, m);
    StartIsIn(start, f.bound, m);
    if start <= 0 { WrapComesUp(start, f.bound, m); }
    assert f.positive ==> (list != [] <==> exists v :: v in all && v > 0) by {
      if list != [] { assert list[0] in list; }
    }
  }

  lemma StartIsIn(start: int, end: int, m: int)
    requires 0 < m <= MAX_INT64 && MIN_INT64 <= start < end <= 60 && 0 < end
    ensures start in WrapValues(start, end, m)
  {
  }

  /** The list of a field answers as the denotation does, for every calendar value. */
  ghost predicate Faithful(s: string, f: Field)
    requires f.bound <= 60 && ReadField(s, f).Values?
  {
    forall v | f.lo <= v <= f.hi :: Contains(ReadField(s, f).list, v) <==> Denotes(s, f, v)
  }

  lemma RegularStepValue(s: string, f: Field, v: int)
    requires IsField(f) && IsStep(s, f) && ReadField(s, f).Values? && Regular(s, f) && f.lo <= v <= f.hi
    ensures v in ReadField(s, f).list <==> Denotes(s, f, v)
  {
    StepFieldMembers(s, f, v);
    var parts := Split(s, '/');
    if parts[0] != "*" && v % Increment(s) == 0 {
      FirstMultipleIs(ParseInt(parts[0]).value, Increment(s), v);
    }
  }

  /** A regular step keeps at least one value. */
  lemma RegularStepNonEmpty(s: string, f: Field) returns (v: int)
    requires IsField(f) && IsStep(s, f) && ReadField(s, f).Values? && Regular(s, f)
    ensures v in ReadField(s, f).list && f.lo <= v <= f.hi
  {
    StepShape(s, f);
    StartIs(s, f);
    var m := Increment(s);
    if Start(s) > 0 {
      v := Start(s);
    } else if f.positive {
      v := m;
      NextMultiple(0, m);
    } else {
      v := 0;
    }
    StepFieldMembers(s, f, v);
  }

  /** Every other step, unless it is barren, matches a calendar value it does not denote. */
  lemma IrregularStep(s: string, f: Field) returns (v: int)
    requires IsField(f) && IsStep(s, f) && ReadField(s, f).Values? && !Regular(s, f) && !Barren(s, f)
    ensures f.lo <= v <= f.hi && Contains(ReadField(s, f).list, v) && !Denotes(s, f, v)
  {
    StepShape(s, f);
    if Increment(s) < 0 {
      v := DownStep(s, f);
    } else {
      v := LongStep(s, f);
    }
  }

  lemma DownStep(s: string, f: Field) returns (v: int)
    requires IsField(f) && IsStep(s, f) && ReadField(s, f).Values? && !Barren(s, f) && IsStepText(s) && Increment(s) < 0
    ensures f.lo <= v <= f.hi && Contains(ReadField(s, f).list, v) && !Denotes(s, f, v)
  {
    DownFieldMembers(s, f);
    StartIs(s, f);
    var list := ReadField(s, f).list;
    hide ReadField;
    if f.positive {
      v := if list == [] then 1 else list[0];
      assert list != [] ==> v in list;
    } else if Start(s) >= 0 {
      v := Start(s);
    } else {
      v :| v in list && v >= 0;
    }
  }

  lemma LongStep(s: string, f: Field) returns (v: int)
    requires IsField(f) && IsStep(s, f) && ReadField(s, f).Values? && !Regular(s, f) && IsStepText(s) &&
      Increment(s) > 0
    ensures f.lo <= v <= f.hi && Contains(ReadField(s, f).list, v) && !Denotes(s, f, v)
  {
    StepShape(s, f);
    var m := Increment(s);
    if f.positive && m >= f.bound {
      v := 1;
      var list := ReadField(s, f).list;
      if list != [] {
        StepFieldMembers(s, f, list[0]);
        GapOfMultiples(0, list[0], m);
      }
    } else {
      WrappedStart(ParseInt(Split(s, '/')[0]).value, m);
      v := if f.positive then m else 0;
      NextMultiple(0, m);
      StepFieldMembers(s, f, v);
    }
  }

  /** A barren step matches no calendar value, and denotes none. */
  lemma BarrenStep(s: string, f: Field, v: int)
    requires IsField(f) && ReadField(s, f).Values? && Barren(s, f) && f.lo <= v <= f.hi
    ensures !Contains(ReadField(s, f).list, v) && !Denotes(s, f, v)
  {
    DownFieldMembers(s, f);
    StartIs(s, f);
    hide ReadField;
  }

  lemma ExampleParts()
    ensures Split("0/-10", '/') == ["0", "-10"]
  {
    hide Split;
    SplitAtFirst("0", '/', "-10");
    assert "0" + ['/'] + "-10" == "0/-10";
  }

  lemma ExampleNumbers()
    ensures ParseInt("0") == Int(0) && ParseInt("-10") == Int(-10)
  {
    assert "0"[..0] == "" && Decimal("0") == 0;
    assert "1"[..0] == "" && Decimal("1") == 1;
    assert "10"[..1] == "1" && Decimal("10") == 10;
    assert "-10"[1..] == "10";
  }

  /** For instance, `0/-10` counts down from -10. */
  lemma BarrenExample()
    ensures ReadField("0/-10", MINUTE).Values? && Barren("0/-10", MINUTE)
  {
    hide Split, ParseInt, ReadParts, WrapValues, Kept, StepValues, Quo, FirstMultiple;
    ExampleParts();
    ExampleNumbers();
    assert "0/-10"[1] == '/';
    FirstOfExample();
    StartIsIn(-10, 60, 10);
  }

  lemma FirstOfExample()
    ensures FirstMultiple(0, -10) == -10
  {
  }

  /** A field that parses means what it denotes exactly when it is regular or barren. */
  lemma FieldMeaning(s: string, f: Field)
    requires IsField(f) && ReadField(s, f).Values?
    ensures Faithful(s, f) <==> Regular(s, f) || Barren(s, f)
  {
    if s == "*" {
    } else if !IsStep(s, f) {
      PlainField(s, f);
    } else if Regular(s, f) {
      var w := RegularStepNonEmpty(s, f);
      forall v | f.lo <= v <= f.hi ensures Contains(ReadField(s, f).list, v) <==> Denotes(s, f, v) {
        RegularStepValue(s, f, v);
      }
    } else if Barren(s, f) {
      forall v | f.lo <= v <= f.hi ensures Contains(ReadField(s, f).list, v) <==> Denotes(s, f, v) {
        BarrenStep(s, f, v);
      }
    } else {
      var v := IrregularStep(s, f);
    }
  }

  lemma PlainField(s: string, f: Field)
    requires IsField(f) && ReadField(s, f).Values? && s != "*" && !IsStep(s, f)
    ensures ReadField(s, f).list != []
    ensures forall v :: v in ReadField(s, f).list <==> Denotes(s, f, v)
    ensures forall v | v in ReadField(s, f).list :: f.lo <= v <= f.hi
  {
    PartsMeaning(Split(s, ','), f);
  }

  /** Every field that parses and is not barren matches some calendar value. */
  lemma FieldSatisfiable(s: string, f: Field) returns (v: int)
    requires IsField(f) && ReadField(s, f).Values? && !Barren(s, f)
    ensures f.lo <= v <= f.hi && Contains(ReadField(s, f).list, v)
  {
    if s == "*" {
      v := f.lo;
    } else {
      hide ReadField, IsStep, Regular, Barren, Denotes;
      if !IsStep(s, f) {
        PlainField(s, f);
        v := ReadField(s, f).list[0];
      } else if Regular(s, f) {
        v := RegularStepNonEmpty(s, f);
      } else {
        v := IrregularStep(s, f);
      }
    }
  }

  /** A field other than `*` collapses to "any" exactly for day steps above 30, and for day steps
      that count down from 0 or below and do not come up again. */
  lemma CollapseIff(s: string, f: Field)
    requires IsField(f) && ReadField(s, f).Values? && s != "*"
    ensures ReadField(s, f).list == [] <==>
              && IsStep(s, f) && f.positive && IsStepText(s)
              && (Increment(s) > 30 || (Increment(s) < 0 && !StartsPositive(s) && !ComesUp(-Increment(s), f.bound)))
  {
    if !IsStep(s, f) {
      PlainField(s, f);
    } else {
      StepShape(s, f);
      StartIs(s, f);
      if Increment(s) < 0 {
        DownFieldMembers(s, f);
      } else {
        CollapseUp(s, f);
      }
    }
  }

  lemma LongParts()
    ensures Split("*/31", '/') == ["*", "31"] && ParseInt("31") == Int(31)
  {
    hide Split;
    SplitAtFirst("*", '/', "31");
    assert "*" + ['/'] + "31" == "*/31";
    assert "3"[..0] == "" && Decimal("3") == 3;
    assert "31"[..1] == "3" && Decimal("31") == 31;
  }

  /** For instance, a day step of 31 from the start keeps only 0, which no day is. */
  lemma CollapseExample()
    ensures ReadField("*/31", DAY) == Values([])
  {
    hide Split, ParseInt, ReadParts;
    LongParts();
    assert "*/31"[1] == '/';
    assert StepValues(0, 31, 31) == [0];
  }

  lemma CollapseUp(s: string, f: Field)
    requires IsField(f) && IsStep(s, f) && ReadField(s, f).Values? && IsStepText(s) && Increment(s) > 0
    ensures ReadField(s, f).list == [] <==> f.positive && Increment(s) > 30
  {
    StepShape(s, f);
    var m, list := Increment(s), ReadField(s, f).list;
    if f.positive && m > 30 {
      if list != [] {
        StepFieldMembers(s, f, list[0]);
        GapOfMultiples(0, list[0], m);
      }
    } else if Start(s) > 0 {
      StartIs(s, f);
      StepFieldMembers(s, f, Start(s));
    } else {
      NextMultiple(0, m);
      StepFieldMembers(s, f, m);
      StepFieldMembers(s, f, 0);
    }
  }

  /** The values of a field that parses are calendar values, except that a minute or hour step
      keeps negative ones if it counts down or starts below 0. */
  lemma InRangeIff(s: string, f: Field)
    requires IsField(f) && ReadField(s, f).Values?
    ensures (forall v | v in ReadField(s, f).list :: f.lo <= v <= f.hi) <==>
              !(IsStep(s, f) && !f.positive && IsStepText(s) && (Increment(s) < 0 || StartsNegative(s)))
  {
    if s == "*" {
    } else if !IsStep(s, f) {
      PlainField(s, f);
    } else {
      StepShape(s, f);
      StartIs(s, f);
      if Increment(s) < 0 {
        DownFieldMembers(s, f);
      } else {
        forall v | v in ReadField(s, f).list && (f.positive || Start(s) >= 0) ensures f.lo <= v <= f.hi {
          StepFieldMembers(s, f, v);
        }
        StepFieldMembers(s, f, Start(s));
      }
    }
  }

  // Expressions

  const MONTHS := ["JAN", "FEB", "MAR", "APR", "MAY", "JUN", "JUL", "AUG", "SEP", "OCT", "NOV", "DEC"]

  const DAYS := ["SUN", "MON", "TUE", "WED", "THU", "FRI", "SAT"]

  /** Minutes 0 to 59, hours 0 to 23, days 1 to 31, months 1 to 12 or by name, weekdays 0 to 6
      or by name; steps in the first three, below 60, 24 and 31, without 0 for days. */
  predicate ExpressionDenotes(s: string, t: Components) {
    var parts := Split(s, ' ');
    && |parts| == 5
    && Denotes(parts[0], Field(0, 59, 60, false, []), t.minute)
    && Denotes(parts[1], Field(0, 23, 24, false, []), t.hour)
    && Denotes(parts[2], Field(1, 31, 31, true, []), t.day)
    && Denotes(parts[3], Field(1, 12, 0, false, MONTHS), t.month)
    && Denotes(parts[4], Field(0, 6, 0, false, DAYS), t.weekday)
  }

  predicate RegularExpression(s: string) {
    var parts := Split(s, ' ');
    |parts| == 5 && Regular(parts[0], MINUTE) && Regular(parts[1], HOUR) && Regular(parts[2], DAY)
  }

  /** An expression with a barren field matches at no calendar time. */
  predicate BarrenExpression(s: string) {
    var parts := Split(s, ' ');
    |parts| == 5 && (Barren(parts[0], MINUTE) || Barren(parts[1], HOUR))
  }

  lemma RegularAgrees(s: string, t: Components)
    requires ReadExpression(s).Cron? && RegularExpression(s) && OnCalendar(t)
    ensures Matches(ReadExpression(s).expression, t) <==> ExpressionDenotes(s, t)
  {
    var p := Split(s, ' ');
    hide Split, ReadField, Denotes, Contains, Regular, Barren;
    PlainRegular(p[3], p[4]);
    FieldMeaning(p[0], MINUTE);
    FieldMeaning(p[1], HOUR);
    FieldMeaning(p[2], DAY);
    FieldMeaning(p[3], MONTH);
    FieldMeaning(p[4], WEEKDAY);
  }

  lemma PlainRegular(month: string, weekday: string)
    ensures Regular(month, MONTH) && Regular(weekday, WEEKDAY) && !Barren(month, MONTH) && !Barren(weekday, WEEKDAY)
  {
  }

  lemma BarrenAgrees(s: string, t: Components)
    requires ReadExpression(s).Cron? && BarrenExpression(s) && OnCalendar(t)
    ensures !Matches(ReadExpression(s).expression, t) && !ExpressionDenotes(s, t)
  {
    var p := Split(s, ' ');
    hide Split, ReadField, Denotes, Contains, Barren;
    if Barren(p[0], MINUTE) { BarrenStep(p[0], MINUTE, t.minute); } else { BarrenStep(p[1], HOUR, t.hour); }
  }

  /** A value a field matches; one it does not denote if the field is irregular. */
  lemma Telling(s: string, f: Field) returns (v: int)
    requires IsField(f) && ReadField(s, f).Values? && !Barren(s, f)
    ensures f.lo <= v <= f.hi && Contains(ReadField(s, f).list, v)
    ensures !Regular(s, f) ==> !Denotes(s, f, v)
  {
    if Regular(s, f) { v := FieldSatisfiable(s, f); } else { v := IrregularStep(s, f); }
  }

  lemma IrregularDiffers(s: string) returns (t: Components)
    requires ReadExpression(s).Cron? && !RegularExpression(s) && !BarrenExpression(s)
    ensures OnCalendar(t) && Matches(ReadExpression(s).expression, t) && !ExpressionDenotes(s, t)
  {
    var p := Split(s, ' ');
    hide Split, ReadField, Denotes, Contains, Regular, Barren;
    PlainRegular(p[3], p[4]);
    DayIsNotBarren(p[2]);
    var a := Telling(p[0], MINUTE);
    var b := Telling(p[1], HOUR);
    var c := Telling(p[2], DAY);
    var d := Telling(p[3], MONTH);
    var e := Telling(p[4], WEEKDAY);
    t := Components(a, b, c, d, e);
  }

  lemma DayIsNotBarren(s: string)
    ensures !Barren(s, DAY)
  {
  }

  /** For every string that parses, matching agrees with the denotation at every calendar time
      exactly when its steps are regular, or when some step is barren and it matches nothing. */
  lemma CronMeaning(s: string)
    requires ReadExpression(s).Cron?
    ensures (forall t | OnCalendar(t) :: Matches(ReadExpression(s).expression, t) <==> ExpressionDenotes(s, t))
            <==> RegularExpression(s) || BarrenExpression(s)
  {
    hide *;
    if RegularExpression(s) {
      forall t | OnCalendar(t) ensures Matches(ReadExpression(s).expression, t) <==> ExpressionDenotes(s, t) {
        RegularAgrees(s, t);
      }
    } else if BarrenExpression(s) {
      forall t | OnCalendar(t) ensures Matches(ReadExpression(s).expression, t) <==> ExpressionDenotes(s, t) {
        BarrenAgrees(s, t);
      }
    } else {
      var t := IrregularDiffers(s);
    }
  }
}
