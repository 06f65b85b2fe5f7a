/** The string and integer-parsing operations of the Go library that ids and cron
    expressions are read with. */
module Text {
  const MAX_INT64 := 0x7fff_ffff_ffff_ffff
  const MIN_INT64 := -0x8000_0000_0000_0000

  /** `strings.Split` on a one-character separator. */
  function Split(s: string, sep: char): (parts: seq<string>)
    ensures |parts| >= 1
    ensures forall p | p in parts :: sep !in p
    ensures |parts| == 1 <==> sep !in s
    ensures |parts| == 1 ==> parts[0] == s
  {
    if s == "" then [""]
    else
      var rest := Split(s[1..], sep);
      assert s == [s[0]] + s[1..];
      if s[0] == sep then [""] + rest else [[s[0]] + rest[0]] + rest[1..]
  }

  lemma SplitCons(c: char, s: string, sep: char)
    ensures Split([c] + s, sep) ==
      if c == sep then [""] + Split(s, sep) else [[c] + Split(s, sep)[0]] + Split(s, sep)[1..]
  {
    assert ([c] + s)[1..] == s;
  }

  lemma {:induction false} SplitAtFirst(a: string, sep: char, b: string)
    requires sep !in a
    ensures Split(a + [sep] + b, sep) == [a] + Split(b, sep)
  {
    hide Split;
    if a == "" {
      assert a + [sep] + b == [sep] + b;
      SplitCons(sep, b, sep);
    } else {
      assert a == [a[0]] + a[1..];
      assert a + [sep] + b == [a[0]] + (a[1..] + [sep] + b);
      SplitAtFirst(a[1..], sep, b);
      SplitCons(a[0], a[1..] + [sep] + b, sep);
    }
  }

  /** `strings.LastIndex` of one character, -1 if it does not occur. */
  function LastIndex(s: string, c: char): (i: int)
    ensures -1 <= i < |s|
    ensures i >= 0 ==> s[i] == c
    ensures forall j | i < j < |s| :: s[j] != c
  {
    if s == "" then -1
    else if s[|s| - 1] == c then |s| - 1
    else LastIndex(s[..|s| - 1], c)
  }

  predicate IsDigit(c: char) { '0' <= c <= '9' }

  function Digit(c: char): (d: nat)
    requires IsDigit(c)
    ensures d < 10
  {
    c as int - '0' as int
  }

  predicate AllDigits(s: string) { forall c | c in s :: IsDigit(c) }

  function Decimal(s: string): nat
    requires AllDigits(s)
  {
    if s == "" then 0 else 10 * Decimal(s[..|s| - 1]) + Digit(s[|s| - 1])
  }

  datatype IntResult = Int(value: int) | BadSyntax | OutOfRange(clamped: int)

  /** `strconv.ParseInt(s, 10, 64)`: an optional sign, then decimal digits. */
  function ParseInt(s: string): (r: IntResult)
    ensures r.Int? ==> MIN_INT64 <= r.value <= MAX_INT64
  {
    var signed := s != "" && s[0] in {'+', '-'};
    var digits := if signed then s[1..] else s;
    if digits == "" || !AllDigits(digits) then BadSyntax
    else
      var magnitude: int := Decimal(digits);
      var v := if signed && s[0] == '-' then -magnitude else magnitude;
      if v > MAX_INT64 then OutOfRange(MAX_INT64)
      else if v < MIN_INT64 then OutOfRange(MIN_INT64)
      else Int(v)
  }

  /** What is parsed: digits after at most one sign, with values beyond int64 held at its ends. */
  lemma ParseIntIs(digits: string)
    requires digits != "" && AllDigits(digits)
    ensures ParseInt(digits) == ParseInt("+" + digits) ==
      if Decimal(digits) <= 0x7fff_ffff_ffff_ffff then Int(Decimal(digits)) else OutOfRange(0x7fff_ffff_ffff_ffff)
    ensures ParseInt("-" + digits) ==
      if Decimal(digits) <= 0x8000_0000_0000_0000 then Int(0 - Decimal(digits)) else OutOfRange(-0x8000_0000_0000_0000)
  {
    assert digits[0] in digits;
    assert ("+" + digits)[1..] == digits && ("-" + digits)[1..] == digits;
  }

  /** Nothing else is. */
  lemma ParseIntRejects(s: string)
    requires
      || s == "" || s == "+" || s == "-"
      || !(IsDigit(s[0]) || s[0] == '+' || s[0] == '-')
      || (exists i :: 0 < i < |s| && !IsDigit(s[i]))
    ensures ParseInt(s) == BadSyntax
  {
    if i :| 0 < i < |s| && !IsDigit(s[i]) {
      assert s[i] in s && s[i] in s[1..] by { assert s[1..][i - 1] == s[i]; }
    }
  }

  /** `strconv.Itoa` of a non-negative number. */
  function Itoa(n: nat): (s: string)
    ensures s != "" && AllDigits(s) && Decimal(s) == n
    ensures n > 0 ==> s[0] != '0'
    ensures n == 0 ==> s == "0"
  {
    var last := ['0' + (n % 10) as char];
    if n < 10 then
      assert last[..0] == "";
      last
    else
      var front := Itoa(n / 10);
      assert (front + last)[..|front|] == front;
      front + last
  }

  lemma ParseIntOfItoa(n: nat)
    requires n <= MAX_INT64
    ensures ParseInt(Itoa(n)) == Int(n)
  {
    assert Itoa(n)[0] in Itoa(n);
  }

  /** `strings.ToUpper` of the characters that become upper-case ASCII letters; the
      long s and the dotless i are the two outside ASCII. */
  function ToUpper(s: string): string {
    seq(|s|, i requires 0 <= i < |s| =>
      if 'a' <= s[i] <= 'z' then s[i] - 'a' + 'A'
      else if s[i] == '\U{017F}' then 'S'
      else if s[i] == '\U{0131}' then 'I'
      else s[i])
  }
}
