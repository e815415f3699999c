/** String rendering used by the formatters: Python's `str` of an integer, the
    `02d` format used for clock fields, the `repr` of a list of integers, and
    `"\n".join` together with its inverse `split("\n")`. */
module Text {

  predicate IsDigit(c: char) {
    '0' <= c <= '9'
  }

  predicate AllDigits(s: string) {
    forall i :: 0 <= i < |s| ==> IsDigit(s[i])
  }

  function DigitChar(d: nat): (c: char)
    requires d < 10
    ensures IsDigit(c)
  {
    ('0' as int + d) as char
  }

  function DigitValue(c: char): int {
    c as int - '0' as int
  }

  /** Decimal digits of n, most significant first, without leading zeros. */
  function Digits(n: nat): string {
    if n < 10 then [DigitChar(n)] else Digits(n / 10) + [DigitChar(n % 10)]
  }

  /** The rendering is a non-empty string of digits, one digit exactly below ten. */
  lemma {:induction false} DigitsShape(n: nat)
    ensures |Digits(n)| > 0 && AllDigits(Digits(n))
    ensures n < 10 <==> |Digits(n)| == 1
  {
    if n >= 10 {
      DigitsShape(n / 10);
    }
  }

  /** The value of a string of decimal digits: the reference reading of Digits. */
  function ParseDigits(s: string): int {
    if |s| == 0 then 0 else ParseDigits(s[..|s| - 1]) * 10 + DigitValue(s[|s| - 1])
  }

  lemma {:induction false} ParseDigitsInverse(n: nat)
    ensures ParseDigits(Digits(n)) == n
  {
    if n >= 10 {
      var s := Digits(n);
      assert s[..|s| - 1] == Digits(n / 10);
      ParseDigitsInverse(n / 10);
    }
  }

  /** Python's str(n) for an int: a minus sign for negative numbers, then digits. */
  function Decimal(n: int): (s: string)
    ensures |s| > 0 && (s[0] == '-' <==> n < 0)
    ensures n >= 0 ==> IsDigit(s[0])
  {
    var d := Digits(Magnitude(n));
    DigitsShape(Magnitude(n));
    assert IsDigit(d[0]);
    Sign(n) + d
  }

  function Sign(n: int): string {
    if n < 0 then "-" else ""
  }

  function Magnitude(n: int): nat {
    if n < 0 then -n else n
  }

  /** Different integers are rendered as different strings. */
  lemma DecimalInjective(a: int, b: int)
    requires Decimal(a) == Decimal(b)
    ensures a == b
  {
    assert (a < 0) == (b < 0);
    var k := |Sign(a)|;
    assert Sign(a) == Sign(b);
    assert Decimal(a)[k..] == Digits(Magnitude(a));
    assert Decimal(b)[k..] == Digits(Magnitude(b));
    ParseDigitsInverse(Magnitude(a));
    ParseDigitsInverse(Magnitude(b));
  }

  /** Python's format(n, "02d"): zero-padded to width two; the sign counts
      towards the width, so -5 is "-5" and 123 is "123". */
  function Pad2(n: int): string {
    if 0 <= n < 10 then "0" + Digits(n) else Decimal(n)
  }

  /** On 0..99 the padded form is exactly two digits and reads back as n. */
  lemma Pad2Inverse(n: nat)
    requires n < 100
    ensures |Pad2(n)| == 2 && AllDigits(Pad2(n))
    ensures ParseDigits(Pad2(n)) == n
  {
    var s := Pad2(n);
    if n < 10 {
      assert s == ['0', DigitChar(n)];
      assert s[..1] == ['0'];
      assert ParseDigits(s[..1]) == ParseDigits(s[..0]) * 10 + 0;
    } else {
      assert s == Digits(n / 10) + [DigitChar(n % 10)];
      ParseDigitsInverse(n);
    }
  }

  /** Python's repr of a list of ints: "[1, 2, 3]", "[]" when empty. */
  function ReprInts(xs: seq<int>): string {
    "[" + CommaSeparated(xs) + "]"
  }

  lemma ReprIntsExamples()
    ensures ReprInts([]) == "[]"
    ensures ReprInts([3, -7]) == "[3, -7]"
  {
    assert Decimal(3) == "3";
    assert Decimal(-7) == "-7";
    assert CommaSeparated([3, -7]) == "3" + ", " + "-7";
  }

  function CommaSeparated(xs: seq<int>): string {
    if |xs| == 0 then ""
    else if |xs| == 1 then Decimal(xs[0])
    else Decimal(xs[0]) + ", " + CommaSeparated(xs[1..])
  }

  /** Python's "\n".join(lines). */
  function JoinLines(lines: seq<string>): string {
    if |lines| == 0 then ""
    else if |lines| == 1 then lines[0]
    else lines[0] + "\n" + JoinLines(lines[1..])
  }

  /** The joined text begins with the first line. */
  lemma JoinLinesFirst(lines: seq<string>)
    requires |lines| > 0
    ensures lines[0] <= JoinLines(lines)
  {
    if |lines| > 1 {
      var rest := "\n" + JoinLines(lines[1..]);
      assert JoinLines(lines) == lines[0] + rest;
      PrefixOfAppend(lines[0], rest);
    }
  }

  lemma PrefixOfAppend(a: string, b: string)
    ensures a <= a + b
  {
    assert (a + b)[..|a|] == a;
  }

  /** Python's s.split("\n"): always at least one piece. */
  function SplitLines(s: string): (pieces: seq<string>)
    ensures |pieces| > 0
  {
    if |s| == 0 then [""]
    else
      var rest := SplitLines(s[1..]);
      if s[0] == '\n' then [""] + rest else [[s[0]] + rest[0]] + rest[1..]
  }

  predicate NoNewline(s: string) {
    '\n' !in s
  }

  lemma {:induction false} SplitSingle(a: string)
    requires NoNewline(a)
    ensures SplitLines(a) == [a]
  {
    if |a| > 0 {
      SplitSingle(a[1..]);
      assert [a[0]] + a[1..] == a;
    }
  }

  lemma {:induction false} SplitAfter(a: string, b: string)
    requires NoNewline(a)
    ensures SplitLines(a + "\n" + b) == [a] + SplitLines(b)
  {
    var s := a + "\n" + b;
    if |a| == 0 {
      assert s[0] == '\n' && s[1..] == b;
    } else {
      assert s[0] == a[0] && s[1..] == a[1..] + "\n" + b;
      assert NoNewline(a[1..]);
      SplitAfter(a[1..], b);
      assert [a[0]] + a[1..] == a;
    }
  }

  /** Splitting the joined text gives the lines back when no line holds a
      newline of its own: the reply then has exactly |lines| lines. */
  lemma {:induction false} SplitJoin(lines: seq<string>)
    requires |lines| > 0
    requires forall i :: 0 <= i < |lines| ==> NoNewline(lines[i])
    ensures SplitLines(JoinLines(lines)) == lines
  {
    if |lines| == 1 {
      SplitSingle(lines[0]);
    } else {
      SplitAfter(lines[0], JoinLines(lines[1..]));
      SplitJoin(lines[1..]);
    }
  }

  /** A rendered integer is one line: a sign and digits only. */
  lemma DecimalNoNewline(n: int)
    ensures NoNewline(Decimal(n))
  {
    var d := Digits(Magnitude(n));
    DigitsShape(Magnitude(n));
    assert Decimal(n) == Sign(n) + d;
    assert forall i :: 0 <= i < |Decimal(n)| ==> Decimal(n)[i] == '-' || IsDigit(Decimal(n)[i]);
  }
}
