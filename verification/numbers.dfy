/** Decimal text: digits, the integer text of `toString`, and the two number
    readers the forms use, `parseInt(text)` and `parseFloat(text)`. A result of
    `None` is `NaN`. */
module Numbers {
  import opened Wrappers

  predicate IsDigit(c: char) {
    '0' as int <= c as int <= '9' as int
  }

  /** The white space `parseInt` and `parseFloat` skip before the number. */
  predicate IsSpace(c: char) {
    c == ' ' || c == '\t' || c == '\n' || c == '\r'
  }

  function DigitValue(c: char): int {
    c as int - '0' as int
  }

  function DigitChar(n: int): (c: char)
    requires 0 <= n < 10
    ensures IsDigit(c) && DigitValue(c) == n
  {
    ('0' as int + n) as char
  }

  predicate AllDigits(s: string) {
    forall i :: 0 <= i < |s| ==> IsDigit(s[i])
  }

  /** The value of a run of decimal digits, most significant first. */
  function Digits(s: string): nat
    requires AllDigits(s)
  {
    if s == [] then 0
    else
      assert IsDigit(s[|s| - 1]);
      Digits(s[..|s| - 1]) * 10 + DigitValue(s[|s| - 1])
  }

  lemma DigitsOfTwo(a: char, b: char)
    requires IsDigit(a) && IsDigit(b)
    ensures Digits([a, b]) == DigitValue(a) * 10 + DigitValue(b)
  {
    assert [a, b][..1] == [a];
    assert [a][..0] == [];
    assert Digits([a]) == DigitValue(a);
  }

  lemma DigitsOfFour(a: char, b: char, c: char, e: char)
    requires IsDigit(a) && IsDigit(b) && IsDigit(c) && IsDigit(e)
    ensures Digits([a, b, c, e]) == ((DigitValue(a) * 10 + DigitValue(b)) * 10 + DigitValue(c)) * 10 + DigitValue(e)
  {
    assert [a, b, c, e][..3] == [a, b, c];
    assert [a, b, c][..2] == [a, b];
    DigitsOfTwo(a, b);
    assert Digits([a, b, c]) == Digits([a, b]) * 10 + DigitValue(c);
  }

  /** The decimal text of a natural number, without leading zeros. */
  function Decimal(n: nat): (s: string)
    ensures s != [] && AllDigits(s)
    ensures |s| > 1 ==> s[0] != '0'
  {
    if n < 10 then [DigitChar(n)] else Decimal(n / 10) + [DigitChar(n % 10)]
  }

  /** `String(n)` for an integer. */
  function IntText(n: int): (s: string)
    ensures s != []
  {
    if n < 0 then ['-'] + Decimal(-n) else Decimal(n)
  }

  lemma {:induction false} DigitsOfDecimal(n: nat)
    ensures Digits(Decimal(n)) == n
  {
    var s := Decimal(n);
    if n < 10 {
      assert s[..0] == [];
    } else {
      assert s[..|s| - 1] == Decimal(n / 10);
      DigitsOfDecimal(n / 10);
    }
  }

  /** The length of the run of digits at the start of `s`. */
  function DigitRun(s: string): (n: nat)
    ensures n <= |s| && AllDigits(s[..n])
  {
    if s != [] && IsDigit(s[0]) then
      var n := 1 + DigitRun(s[1..]);
      assert s[..n] == [s[0]] + s[1..][..n - 1];
      n
    else 0
  }

  function SkipSpaces(s: string): string {
    if s != [] && IsSpace(s[0]) then SkipSpaces(s[1..]) else s
  }

  /** The sign a number may start with, and the text after it. */
  function Signed(s: string): (int, string) {
    if s != [] && s[0] == '-' then (-1, s[1..])
    else if s != [] && s[0] == '+' then (1, s[1..])
    else (1, s)
  }

  /** `parseInt(text)`: leading spaces, a sign, then as many digits as there
      are; `NaN` when there is not one. */
  function ParseInt(text: string): Option<int> {
    var (sign, rest) := Signed(SkipSpaces(text));
    var n := DigitRun(rest);
    if n == 0 then None else Some(sign * Digits(rest[..n]))
  }

  /** `parseInt` reads back the text of every integer. */
  lemma ParseIntText(n: int)
    ensures ParseInt(IntText(n)) == Some(n)
  {
    var m: nat := if n < 0 then -n else n;
    DigitsOfDecimal(m);
    ParseDigits(Decimal(m));
  }

  /** `parseFloat` reads back the text of every integer too. */
  lemma ParseFloatWholeText(n: int)
    ensures ParseFloatWhole(IntText(n)) == Some(n)
  {
    ParseIntText(n);
    ParseFloatWholeAgrees(IntText(n));
  }

  lemma ParseDigits(s: string)
    requires s != [] && AllDigits(s)
    ensures ParseInt(s) == Some(Digits(s))
    ensures var v: int := Digits(s); ParseInt(['-'] + s) == Some(-v)
  {
    ParsePlainDigits(s);
    ParseNegativeDigits(s);
  }

  lemma ParsePlainDigits(s: string)
    requires s != [] && AllDigits(s)
    ensures ParseInt(s) == Some(Digits(s))
  {
    assert IsDigit(s[0]);
    assert !IsSpace(s[0]) && s[0] != '-' && s[0] != '+';
    assert Signed(s) == (1, s);
    ParseAfterSign(s, s, 1);
  }

  lemma ParseNegativeDigits(s: string)
    requires s != [] && AllDigits(s)
    ensures var v: int := Digits(s); ParseInt(['-'] + s) == Some(-v)
  {
    var t := ['-'] + s;
    assert t[1..] == s;
    NegativeSign(t);
    ParseAfterSign(t, s, -1);
  }

  lemma NegativeSign(t: string)
    requires t != [] && t[0] == '-'
    ensures !IsSpace(t[0]) && Signed(t) == (-1, t[1..])
  {
  }

  lemma ParseAfterSign(t: string, s: string, sign: int)
    requires s != [] && AllDigits(s)
    requires t != [] && !IsSpace(t[0]) && Signed(t) == (sign, s)
    ensures ParseInt(t) == Some(sign * Digits(s))
    ensures sign == -1 ==> ParseInt(t) == Some(-(Digits(s) as int))
  {
    DigitRunOfDigits(s);
    assert s[..|s|] == s;
    assert SkipSpaces(t) == t;
  }

  lemma {:induction false} DigitRunOfDigits(s: string)
    requires AllDigits(s)
    ensures DigitRun(s) == |s|
  {
    if s != [] {
      DigitRunOfDigits(s[1..]);
    }
  }

  /** `parseFloat(text)` cut to its integer part (toward zero): leading spaces,
      a sign, digits, and a fraction after a point; `NaN` when neither side of
      the point has a digit. */
  function ParseFloatWhole(text: string): Option<int> {
    var (sign, rest) := Signed(SkipSpaces(text));
    var n := DigitRun(rest);
    var after := rest[n..];
    var fraction := if after != [] && after[0] == '.' then DigitRun(after[1..]) else 0;
    if n == 0 && fraction == 0 then None else Some(sign * Digits(rest[..n]))
  }

  /** Wherever `parseInt` reads a number, `parseFloat` cut to its integer part
      reads the same one; `parseFloat` gives `NaN` only where `parseInt` does. */
  lemma ParseFloatWholeAgrees(text: string)
    ensures ParseInt(text).Some? ==> ParseFloatWhole(text) == ParseInt(text)
    ensures ParseFloatWhole(text).None? ==> ParseInt(text).None?
  {
  }
}
