/** The few pieces of Go's runtime and standard library whose exact behaviour
    the modelled code depends on: 64-bit integers, decimal formatting (`%d`,
    strconv.Itoa), strconv.Atoi, strings.Contains, strings.ToLower on ASCII,
    and json.Marshal of a string that needs no escaping. */
module GoStd {
  import opened Wrappers

  const MinInt64: int := -0x8000_0000_0000_0000
  const MaxInt64: int := 0x7fff_ffff_ffff_ffff

  /** Go's int64 (and `int` on the 64-bit platforms the agent runs on). */
  type int64 = x: int | MinInt64 <= x <= MaxInt64

  /** Go's `x++` on an int64: two's-complement wrap-around at the top. */
  function WrappingIncrement(x: int64): (r: int64)
    ensures x < MaxInt64 ==> r == x + 1
    ensures x == MaxInt64 ==> r == MinInt64
  {
    if x == MaxInt64 then MinInt64 else x + 1
  }

  predicate IsDigit(c: char) { '0' <= c <= '9' }

  predicate AllDigits(s: string) { forall i :: 0 <= i < |s| ==> IsDigit(s[i]) }

  function DigitChar(d: nat): (c: char)
    requires d < 10
    ensures IsDigit(c) && (c as int) - ('0' as int) == d
  {
    "0123456789"[d]
  }

  function DigitValue(c: char): (d: nat)
    requires IsDigit(c)
    ensures d < 10
  {
    (c as int) - ('0' as int)
  }

  /** Decimal rendering of a natural number, most significant digit first. */
  function NatToString(n: nat): (s: string)
    ensures |s| > 0 && AllDigits(s)
    decreases n
  {
    if n < 10 then [DigitChar(n)] else NatToString(n / 10) + [DigitChar(n % 10)]
  }

  /** fmt.Sprintf("%d", i) and strconv.Itoa(i). */
  function IntToString(i: int): (s: string)
    ensures |s| > 0
    ensures i < 0 <==> s[0] == '-'
    ensures forall k :: 0 <= k < |s| ==> IsDigit(s[k]) || (k == 0 && s[k] == '-')
  {
    if i < 0 then "-" + NatToString(-i) else NatToString(i)
  }

  /** The value of a string of decimal digits read most significant first. */
  function DigitsValue(s: string): nat
    requires AllDigits(s)
  {
    if |s| == 0 then 0 else DigitsValue(s[..|s| - 1]) * 10 + DigitValue(s[|s| - 1])
  }

  lemma {:induction false} DigitsValueOfNatToString(n: nat)
    ensures DigitsValue(NatToString(n)) == n
    decreases n
  {
    if n >= 10 {
      var prefix := NatToString(n / 10);
      var s := prefix + [DigitChar(n % 10)];
      assert s[..|s| - 1] == prefix;
      DigitsValueOfNatToString(n / 10);
    }
  }

  /** strconv.Atoi on a 64-bit platform: an optional sign, then one or more
      decimal digits and nothing else; a value outside int64 is a range error. */
  function Atoi(s: string): (r: Result<int64>)
    ensures r.Ok? ==> |s| > 0
    ensures (|s| == 0 || !(AllDigits(s) || ((s[0] == '-' || s[0] == '+') && AllDigits(s[1..])))) ==> r == Err(SyntaxError(s))
  {
    var signed := |s| > 0 && (s[0] == '+' || s[0] == '-');
    var digits := if signed then s[1..] else s;
    if |digits| == 0 || !AllDigits(digits) then Err(SyntaxError(s))
    else
      var magnitude: int := DigitsValue(digits);
      var v: int := if signed && s[0] == '-' then -magnitude else magnitude;
      if MinInt64 <= v <= MaxInt64 then Ok(v) else Err(RangeError(s))
  }

  /** Formatting then parsing gives back every 64-bit integer. */
  lemma AtoiOfIntToString(i: int64)
    ensures Atoi(IntToString(i)) == Ok(i)
  {
    if i < 0 {
      var m: nat := -(i as int);
      var s := IntToString(i);
      assert s[1..] == NatToString(m);
      DigitsValueOfNatToString(m);
    } else {
      DigitsValueOfNatToString(i);
    }
  }

  /** Distinct integers are rendered as distinct strings. */
  lemma IntToStringInjective(a: int, b: int)
    requires IntToString(a) == IntToString(b)
    ensures a == b
  {
    if a < 0 {
      assert b < 0;
      var ma: nat, mb: nat := -a, -b;
      NegativeDigits(a);
      NegativeDigits(b);
      NatToStringInjective(ma, mb);
    } else {
      assert b >= 0;
      NatToStringInjective(a, b);
    }
  }

  lemma NatToStringInjective(a: nat, b: nat)
    requires NatToString(a) == NatToString(b)
    ensures a == b
  {
    DigitsValueOfNatToString(a);
    DigitsValueOfNatToString(b);
  }

  lemma NegativeDigits(i: int)
    requires i < 0
    ensures IntToString(i)[1..] == NatToString(-i)
  {
  }

  /** strings.Contains(s, sub). */
  predicate Contains(s: string, sub: string)
  {
    exists i | 0 <= i <= |s| - |sub| :: OccursAt(s, sub, i)
  }

  predicate OccursAt(s: string, sub: string, i: nat)
  {
    i + |sub| <= |s| && s[i..i + |sub|] == sub
  }

  function ToLowerAscii(s: string): (r: string)
    ensures |r| == |s|
    ensures forall i :: 0 <= i < |s| ==> r[i] == (if 'A' <= s[i] <= 'Z' then (s[i] as int + 32) as char else s[i])
  {
    if |s| == 0 then []
    else [if 'A' <= s[0] <= 'Z' then (s[0] as int + 32) as char else s[0]] + ToLowerAscii(s[1..])
  }

  /** Characters that json.Marshal copies into a string literal unescaped
      (Go escapes quotes, backslashes, control characters, `<`, `>`, `&`
      and U+2028/U+2029). */
  predicate JsonPlainChar(c: char)
  {
    ' ' <= c && c != '"' && c != '\\' && c != '<' && c != '>' && c != '&' && c != ' ' && c != ' '
  }

  predicate JsonPlain(s: string) { forall i :: 0 <= i < |s| ==> JsonPlainChar(s[i]) }

  /** json.Marshal of a Go string that needs no escaping. */
  function JsonQuote(s: string): (r: string)
    requires JsonPlain(s)
    ensures |r| == |s| + 2 && r[0] == '"' && r[|r| - 1] == '"' && r[1..|r| - 1] == s
  {
    "\"" + s + "\""
  }

  lemma IntToStringIsJsonPlain(i: int)
    ensures JsonPlain(IntToString(i))
  {
    var s := IntToString(i);
    forall k | 0 <= k < |s| ensures JsonPlainChar(s[k]) {
      assert IsDigit(s[k]) || s[k] == '-';
    }
  }
}
