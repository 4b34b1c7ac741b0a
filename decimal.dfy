/** Text rendering of numbers, as the formatters produce it with Python's
    `'%d'` and `'%.4f'` operators, together with parsers that invert each
    rendering (so that the rendered text is shown to determine the number). */
module Decimal {
  import opened Wrappers

  /** Durations are counted in ticks of one ten-thousandth of a second: the
      precision of the four-decimal rendering, so that it needs no rounding. */
  const TicksPerSecond: nat := 10000

  predicate IsDigit(c: char) {
    '0' <= c <= '9'
  }

  predicate AllDigits(s: string) {
    forall i :: 0 <= i < |s| ==> IsDigit(s[i])
  }

  function DigitChar(d: nat): (c: char)
    requires d < 10
    ensures IsDigit(c) && c as int - '0' as int == d
  {
    (d + '0' as int) as char
  }

  /** The number a string of decimal digits denotes (most significant first). */
  function DigitsValue(s: string): nat
    requires AllDigits(s)
  {
    if s == [] then 0 else DigitsValue(s[..|s| - 1]) * 10 + (s[|s| - 1] as int - '0' as int)
  }

  lemma DigitsValueSnoc(s: string, c: char)
    requires AllDigits(s) && IsDigit(c)
    ensures AllDigits(s + [c])
    ensures DigitsValue(s + [c]) == DigitsValue(s) * 10 + (c as int - '0' as int)
  {
    assert (s + [c])[..|s|] == s;
  }

  /** `'%d' % n` for a non-negative `n`: digits only, never empty, and with a
      leading zero only for zero itself. */
  function NatToString(n: nat): (r: string)
    ensures r != [] && AllDigits(r)
    ensures r[0] == '0' <==> n == 0
  {
    if n < 10 then [DigitChar(n)] else NatToString(n / 10) + [DigitChar(n % 10)]
  }

  /** `'%d' % i` (also `str(i)`) for any integer. */
  function IntToString(i: int): (r: string)
    ensures r != []
    ensures r[0] == '-' <==> i < 0
  {
    if i < 0 then "-" + NatToString(-i) else NatToString(i)
  }

  function ParseNat(s: string): Option<nat> {
    if s != [] && AllDigits(s) then Some(DigitsValue(s)) else None
  }

  function ParseInt(s: string): Option<int> {
    if s != [] && s[0] == '-' then
      match ParseNat(s[1..])
      case Some(v) => var w: int := v; Some(-w)
      case None => None
    else ParseNat(s)
  }

  lemma {:induction false} NatToStringRoundTrip(n: nat)
    ensures ParseNat(NatToString(n)) == Some(n)
    ensures DigitsValue(NatToString(n)) == n
  {
    var s := NatToString(n);
    if n >= 10 {
      var a := NatToString(n / 10);
      NatToStringRoundTrip(n / 10);
      DigitsValueSnoc(a, DigitChar(n % 10));
    } else {
      DigitsValueSnoc([], DigitChar(n));
      assert s == [] + [DigitChar(n)];
    }
  }

  lemma IntToStringRoundTrip(i: int)
    ensures ParseInt(IntToString(i)) == Some(i)
  {
    var s := IntToString(i);
    if i < 0 {
      NatToStringRoundTrip(-i);
      assert s[1..] == NatToString(-i);
    } else {
      NatToStringRoundTrip(i);
    }
  }

  /** The four fractional digits of `'%.4f'`, zero-padded. */
  function FractionDigits(f: nat): (r: string)
    requires f < TicksPerSecond
    ensures |r| == 4 && AllDigits(r)
  {
    var q3 := f / 10;
    var q2 := q3 / 10;
    var q1 := q2 / 10;
    [DigitChar(q1), DigitChar(q2 % 10), DigitChar(q3 % 10), DigitChar(f % 10)]
  }

  lemma FractionDigitsValue(f: nat)
    requires f < TicksPerSecond
    ensures DigitsValue(FractionDigits(f)) == f
  {
    var r := FractionDigits(f);
    var q3 := f / 10;
    var q2 := q3 / 10;
    DigitsValueSnoc([], r[0]);
    assert [] + [r[0]] == r[..1];
    DigitsValueSnoc(r[..1], r[1]);
    assert r[..1] + [r[1]] == r[..2];
    assert DigitsValue(r[..2]) == q2;
    DigitsValueSnoc(r[..2], r[2]);
    assert r[..2] + [r[2]] == r[..3];
    assert DigitsValue(r[..3]) == q3;
    DigitsValueSnoc(r[..3], r[3]);
    assert r[..3] + [r[3]] == r;
  }

  /** `'%.4f' % seconds` for a duration of `t` ticks. */
  function Fixed4(t: int): (r: string)
    ensures |r| >= 6 && r[|r| - 5] == '.'
  {
    if t < 0 then "-" + UnsignedFixed4(-t) else UnsignedFixed4(t)
  }

  function UnsignedFixed4(m: nat): (r: string)
    ensures |r| >= 6 && r[|r| - 5] == '.' && IsDigit(r[0])
  {
    NatToString(m / TicksPerSecond) + "." + FractionDigits(m % TicksPerSecond)
  }

  /** Reads back a `'%.4f'` rendering as a number of ticks. */
  function ParseFixed4(s: string): Option<int> {
    if s != [] && s[0] == '-' then
      match ParseUnsignedFixed4(s[1..])
      case Some(v) => var w: int := v; Some(-w)
      case None => None
    else ParseUnsignedFixed4(s)
  }

  function ParseUnsignedFixed4(s: string): Option<nat> {
    if |s| < 6 || s[|s| - 5] != '.' then None
    else
      var frac := s[|s| - 4..];
      match ParseNat(s[..|s| - 5])
      case None => None
      case Some(w) => if AllDigits(frac) then Some(w * TicksPerSecond + DigitsValue(frac)) else None
  }

  lemma UnsignedFixed4RoundTrip(m: nat)
    ensures ParseUnsignedFixed4(UnsignedFixed4(m)) == Some(m)
  {
    var whole := NatToString(m / TicksPerSecond);
    var frac := FractionDigits(m % TicksPerSecond);
    var s := UnsignedFixed4(m);
    assert s == whole + ['.'] + frac;
    assert s[..|s| - 5] == whole && s[|s| - 4..] == frac;
    NatToStringRoundTrip(m / TicksPerSecond);
    FractionDigitsValue(m % TicksPerSecond);
  }

  lemma Fixed4RoundTrip(t: int)
    ensures ParseFixed4(Fixed4(t)) == Some(t)
  {
    if t < 0 {
      UnsignedFixed4RoundTrip(-t);
      assert Fixed4(t)[1..] == UnsignedFixed4(-t);
    } else {
      UnsignedFixed4RoundTrip(t);
    }
  }
}
