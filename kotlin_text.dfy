/**
 * The pieces of the Kotlin and Java standard libraries that the app's logic
 * calls on strings and integers: `takeLast`, `getOrNull`, `toIntOrNull`,
 * `Int.toString`, the `%0<w>d` conversion of `String.format`, and the
 * truncating `/` and `%` of `Int`.
 */
module KotlinText {
  import opened Options

  const IntMin: int := -0x8000_0000
  const IntMax: int := 0x7FFF_FFFF

  /** A value of Kotlin's 32-bit `Int`. */
  predicate IsInt(n: int) {
    IntMin <= n <= IntMax
  }

  function Abs(n: int): nat {
    if n < 0 then -n else n
  }

  function Pow10(k: nat): (p: nat)
    ensures p >= 1
  {
    if k == 0 then 1 else 10 * Pow10(k - 1)
  }

  // ---------------------------------------------------------------------------
  // Integer division as Kotlin does it
  // ---------------------------------------------------------------------------

  /** Kotlin's `a / b` on `Int`: the quotient rounded toward zero. */
  function TruncDiv(a: int, b: int): int
    requires b > 0
  {
    if a >= 0 then a / b else -((-a) / b)
  }

  /** Kotlin's `a % b` on `Int`: the remainder takes the sign of `a`. */
  function TruncRem(a: int, b: int): (r: int)
    requires b > 0
    ensures a == b * TruncDiv(a, b) + r
    ensures a >= 0 ==> 0 <= r < b
    ensures a < 0 ==> -b < r <= 0
  {
    if a >= 0 then a % b else -((-a) % b)
  }

  // ---------------------------------------------------------------------------
  // Collections
  // ---------------------------------------------------------------------------

  /** `s.takeLast(n)`: the last `n` characters, or all of `s` when it is shorter. */
  function TakeLast(s: string, n: nat): (r: string)
    ensures |r| == if n < |s| then n else |s|
    ensures s == s[..|s| - |r|] + r
  {
    s[|s| - (if n < |s| then n else |s|)..]
  }

  /** `xs.getOrNull(index)`: the element at `index`, or null outside the list. */
  function GetOrNull<T>(xs: seq<T>, index: int): (r: Option<T>)
    ensures r.Some? <==> 0 <= index < |xs|
    ensures r.Some? ==> r.value == xs[index]
  {
    if 0 <= index < |xs| then Some(xs[index]) else None
  }

  // ---------------------------------------------------------------------------
  // Decimal digits
  // ---------------------------------------------------------------------------

  predicate IsDigit(c: char) {
    '0' <= c <= '9'
  }

  predicate AllDigits(s: string) {
    forall i :: 0 <= i < |s| ==> IsDigit(s[i])
  }

  function DigitValue(c: char): (d: nat)
    requires IsDigit(c)
    ensures d < 10
  {
    c as int - '0' as int
  }

  function DigitChar(d: nat): (c: char)
    requires d < 10
    ensures IsDigit(c) && DigitValue(c) == d
  {
    ('0' as int + d) as char
  }

  /** The number a string of decimal digits denotes (leading zeros allowed). */
  function DigitsValue(s: string): nat
    requires AllDigits(s)
    decreases |s|
  {
    if s == [] then 0 else DigitsValue(s[..|s| - 1]) * 10 + DigitValue(s[|s| - 1])
  }

  /** `n` written in decimal, without leading zeros. */
  function NatToString(n: nat): (r: string)
    ensures |r| >= 1 && AllDigits(r)
    ensures DigitsValue(r) == n
    ensures |r| > 1 ==> r[0] != '0'
    ensures n < 10 <==> |r| == 1
    ensures 10 <= n < 100 <==> |r| == 2
    decreases n
  {
    if n < 10 then [DigitChar(n)]
    else
      var front := NatToString(n / 10);
      var r := front + [DigitChar(n % 10)];
      assert r[..|r| - 1] == front;
      r
  }

  /** Kotlin's `Int.toString()`, which is also what a template `"$n"` inserts. */
  function IntToString(n: int): (r: string)
    ensures |r| >= 1
    ensures n < 0 <==> r[0] == '-'
  {
    if n < 0 then "-" + NatToString(-n) else NatToString(n)
  }

  function Zeros(k: nat): (r: string)
    ensures |r| == k && AllDigits(r)
    ensures forall i :: 0 <= i < k ==> r[i] == '0'
  {
    seq(k, _ => '0')
  }

  /**
   * Java's `String.format("%0<width>d", n)`: an optional minus sign, then the
   * digits of |n|, with zeros inserted after the sign until the text is
   * `width` characters long.
   */
  function FormatZeroPadded(n: int, width: nat): (r: string)
    ensures |r| >= width
    ensures n >= 0 ==> AllDigits(r)
  {
    var sign := if n < 0 then "-" else "";
    var digits := NatToString(Abs(n));
    var fill := width - |sign| - |digits|;
    sign + (if fill > 0 then Zeros(fill) else "") + digits
  }

  // ---------------------------------------------------------------------------
  // Parsing
  // ---------------------------------------------------------------------------

  /** An optional `+` or `-` followed by at least one decimal digit. */
  predicate IsIntLiteral(s: string) {
    if |s| >= 1 && (s[0] == '+' || s[0] == '-') then |s| >= 2 && AllDigits(s[1..])
    else |s| >= 1 && AllDigits(s)
  }

  /** The (unbounded) number an integer literal denotes. */
  function LiteralValue(s: string): int
    requires IsIntLiteral(s)
  {
    if s[0] == '-' then -(DigitsValue(s[1..]) as int)
    else if s[0] == '+' then DigitsValue(s[1..])
    else DigitsValue(s)
  }

  function InIntRange(v: int): (r: Option<int>)
  {
    if IsInt(v) then Some(v) else None
  }

  /**
   * `s.toIntOrNull()`. As in Kotlin: an empty string is null; a first
   * character below '0' is read as a sign, and must be `-` or `+` and be
   * followed by something; every remaining character must be a digit; and a
   * value outside the 32-bit `Int` range is null.
   */
  function ToIntOrNull(s: string): (r: Option<int>)
    ensures r == if IsIntLiteral(s) && IsInt(LiteralValue(s)) then Some(LiteralValue(s)) else None
  {
    if |s| == 0 then None
    else if s[0] < '0' then
      if |s| == 1 then None
      else if s[0] == '-' then (if AllDigits(s[1..]) then InIntRange(-(DigitsValue(s[1..]) as int)) else None)
      else if s[0] == '+' then (if AllDigits(s[1..]) then InIntRange(DigitsValue(s[1..])) else None)
      else None
    else if AllDigits(s) then InIntRange(DigitsValue(s))
    else None
  }

  // ---------------------------------------------------------------------------
  // Lemmas
  // ---------------------------------------------------------------------------

  lemma AllDigitsConcat(a: string, b: string)
    requires AllDigits(a) && AllDigits(b)
    ensures AllDigits(a + b)
  {
    var ab := a + b;
    forall i | 0 <= i < |ab| ensures IsDigit(ab[i]) {
      if i < |a| { assert ab[i] == a[i]; } else { assert ab[i] == b[i - |a|]; }
    }
  }

  /** Appending digits shifts the value of the front by one decimal place each. */
  lemma {:induction false} DigitsValueAppend(a: string, b: string)
    requires AllDigits(a) && AllDigits(b)
    ensures AllDigits(a + b)
    ensures DigitsValue(a + b) == DigitsValue(a) * Pow10(|b|) + DigitsValue(b)
    decreases |b|
  {
    AllDigitsConcat(a, b);
    var ab := a + b;
    if b == [] {
      assert ab == a;
    } else {
      var b' := b[..|b| - 1];
      var last := DigitValue(b[|b| - 1]);
      assert ab[..|ab| - 1] == a + b';
      assert ab[|ab| - 1] == b[|b| - 1];
      DigitsValueAppend(a, b');
      assert DigitsValue(ab) == DigitsValue(a + b') * 10 + last;
      assert DigitsValue(b) == DigitsValue(b') * 10 + last;
      ShiftDecimal(DigitsValue(a), Pow10(|b'|), DigitsValue(b'), last);
    }
  }

  lemma ShiftDecimal(va: nat, p: nat, vb: nat, d: nat)
    ensures (va * p + vb) * 10 + d == va * (10 * p) + (vb * 10 + d)
  {
  }

  lemma {:induction false} ZerosValue(k: nat)
    ensures DigitsValue(Zeros(k)) == 0
    decreases k
  {
    if k > 0 {
      assert Zeros(k)[..k - 1] == Zeros(k - 1);
      ZerosValue(k - 1);
    }
  }

  /** Leading zeros do not change the value of a digit string. */
  lemma LeadingZeros(k: nat, d: string)
    requires AllDigits(d)
    ensures AllDigits(Zeros(k) + d)
    ensures DigitsValue(Zeros(k) + d) == DigitsValue(d)
  {
    DigitsValueAppend(Zeros(k), d);
    ZerosValue(k);
  }

  /** `toIntOrNull` reads back what `Int.toString` writes. */
  lemma IntToStringRoundTrip(n: int)
    requires IsInt(n)
    ensures ToIntOrNull(IntToString(n)) == Some(n)
  {
    var r := IntToString(n);
    if n < 0 {
      assert r[1..] == NatToString(-n);
    }
  }

  /** The digits of a zero-padded number, read back, give the number. */
  lemma ZeroPaddedDigits(n: nat, width: nat)
    ensures AllDigits(FormatZeroPadded(n, width))
    ensures DigitsValue(FormatZeroPadded(n, width)) == n
  {
    var digits := NatToString(n);
    var fill := width - |digits|;
    if fill > 0 {
      assert FormatZeroPadded(n, width) == Zeros(fill) + digits;
      LeadingZeros(fill, digits);
    } else {
      assert FormatZeroPadded(n, width) == digits;
    }
  }

  /** `toIntOrNull` reads back what `%0<width>d` writes, for every `Int`. */
  lemma ZeroPaddedRoundTrip(n: int, width: nat)
    requires IsInt(n)
    ensures ToIntOrNull(FormatZeroPadded(n, width)) == Some(n)
  {
    var r := FormatZeroPadded(n, width);
    if n >= 0 {
      ZeroPaddedDigits(n, width);
    } else {
      var digits := NatToString(-n);
      var fill := width - 1 - |digits|;
      var body := (if fill > 0 then Zeros(fill) else "") + digits;
      assert r == "-" + body;
      assert r[1..] == body;
      if fill > 0 {
        LeadingZeros(fill, digits);
      } else {
        assert body == digits;
      }
    }
  }

  /** `%02d` of a number below 100 is exactly its two decimal digits. */
  lemma TwoDigits(n: nat)
    requires n < 100
    ensures FormatZeroPadded(n, 2) == [DigitChar(n / 10), DigitChar(n % 10)]
  {
    var digits := NatToString(n);
    if n >= 10 {
      assert NatToString(n / 10) == [DigitChar(n / 10)];
    }
  }

  /** A string of at most two characters parses to a value in -9..99. */
  lemma {:induction false} ShortLiteralRange(s: string)
    requires |s| <= 2
    ensures ToIntOrNull(s).Some? ==> -9 <= ToIntOrNull(s).value <= 99
  {
    if ToIntOrNull(s).Some? {
      if s[0] == '-' || s[0] == '+' {
        assert s[1..][..0] == [];
        assert DigitsValue(s[1..]) == DigitValue(s[1]);
      } else if |s| == 2 {
        assert s[..1][..0] == [];
        assert DigitsValue(s[..1]) == DigitValue(s[0]) <= 9;
        assert AllDigits(s);
        assert DigitsValue(s) == DigitsValue(s[..1]) * 10 + DigitValue(s[1]);
        assert ToIntOrNull(s) == InIntRange(DigitsValue(s));
      } else {
        assert s[..0] == [];
        assert DigitsValue(s) == DigitValue(s[0]);
      }
    }
  }

  /** Two decimal digits parse to the number they spell, leading zero or not. */
  lemma TwoDigitParse(hi: char, lo: char)
    requires IsDigit(hi) && IsDigit(lo)
    ensures ToIntOrNull([hi, lo]) == Some(10 * DigitValue(hi) + DigitValue(lo))
  {
    var s := [hi, lo];
    assert s[..1][..0] == [];
    assert DigitsValue(s[..1]) == DigitValue(hi);
  }

  /** A sign and one digit parse to that digit, negated for `-`. */
  lemma SignedDigitParse(sign: char, d: char)
    requires sign == '-' || sign == '+'
    requires IsDigit(d)
    ensures ToIntOrNull([sign, d]) == Some(if sign == '-' then -(DigitValue(d) as int) else DigitValue(d))
  {
    var s := [sign, d];
    assert s[1..] == [d];
    assert [d][..0] == [];
    assert DigitsValue([d]) == DigitValue(d);
  }
}
