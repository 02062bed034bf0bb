/** The numbers the core produces and prints. Every reading the simulators
    return, and every percent the feature simplifier returns, comes out of
    `Number.prototype.toFixed` followed by a conversion back to a number, so
    it is a finite decimal: `units / 10^scale`. This module models
    `toFixed` on exact reals and the conversion of such a number back to
    text (`String(x)`, as `Array.prototype.join` does it). */
module Numbers {
  import opened Wrappers
  import opened Strings

  /** 10 to the power `n`. */
  function Pow10(n: nat): (p: nat)
    ensures p >= 1
  {
    if n == 0 then 1 else 10 * Pow10(n - 1)
  }

  lemma {:induction false} Pow10Add(a: nat, b: nat)
    ensures Pow10(a + b) == Pow10(a) * Pow10(b)
    decreases b
  {
    if b > 0 {
      Pow10Add(a, b - 1);
      assert Pow10(a + b) == 10 * Pow10(a + b - 1);
    }
  }

  /** The number `units / 10^scale`. */
  datatype Decimal = Decimal(units: int, scale: nat)

  function Value(d: Decimal): real {
    d.units as real / Pow10(d.scale) as real
  }

  /** The magnitude `|x|`: Abs on reals, for the argument of `toFixed`, and
      IntAbs on integers, for the units of a number being printed. */
  function Abs(x: real): real {
    if x < 0.0 then -x else x
  }

  function IntAbs(x: int): nat {
    if x < 0 then -x else x
  }

  /** `+x.toFixed(digits)`: `x` rounded to `digits` decimal places. Per
      section 21.1.3.3 of ECMA-262 the sign is set aside, the magnitude goes
      to the nearest multiple of `10^-digits`, and a tie goes to the larger
      magnitude (ToFixedNearest states this). */
  function ToFixed(x: real, digits: nat): (d: Decimal)
    ensures d.scale == digits
    ensures x >= 0.0 ==> d.units >= 0
    ensures x < 0.0 ==> d.units <= 0
  {
    var n := (Abs(x) * Pow10(digits) as real + 0.5).Floor;
    assert n >= 0 by {
      NonNegProduct(Abs(x), Pow10(digits) as real);
    }
    Decimal(if x < 0.0 then -n else n, digits)
  }

  lemma NonNegProduct(a: real, b: real)
    requires a >= 0.0 && b >= 0.0
    ensures a * b >= 0.0
  {
  }

  /** Stated on the scaled value `x * 10^digits`: the units of `toFixed`'s
      result are an integer at most one half away from it; for `x >= 0` a
      tie goes up, for `x < 0` down, so it is never exactly one half
      nearer to zero. */
  lemma ToFixedNearest(x: real, digits: nat)
    ensures -0.5 <= ToFixed(x, digits).units as real - x * Pow10(digits) as real <= 0.5
    ensures x >= 0.0 ==> -0.5 < ToFixed(x, digits).units as real - x * Pow10(digits) as real
    ensures x < 0.0 ==> ToFixed(x, digits).units as real - x * Pow10(digits) as real < 0.5
  {
    var p := Pow10(digits) as real;
    NonNegProduct(Abs(x), p);
    assert x < 0.0 ==> Abs(x) * p == -(x * p);
  }

  /** A non-negative value that lies between two multiples of `10^-digits`
      keeps lying between them once rounded to `digits` places. */
  lemma ToFixedWithin(x: real, digits: nat, lo: int, hi: int)
    requires 0.0 <= x
    requires lo as real <= x * Pow10(digits) as real <= hi as real
    ensures lo <= ToFixed(x, digits).units <= hi
  {
    ToFixedNearest(x, digits);
  }

  /** Drops trailing zero digits after the decimal point. */
  function Normalize(d: Decimal): (r: Decimal)
    ensures Value(r) == Value(d)
    ensures IsNormal(r)
    decreases d.scale
  {
    if d.scale > 0 && d.units % 10 == 0 then
      var next := Decimal(d.units / 10, d.scale - 1);
      assert Value(next) == Value(d) by {
        ScaleDown(d.units / 10, d.scale - 1);
      }
      Normalize(next)
    else d
  }

  /** No trailing zero after the decimal point. */
  predicate IsNormal(d: Decimal) {
    d.scale == 0 || d.units % 10 != 0
  }

  lemma ScaleDown(u: int, s: nat)
    ensures Value(Decimal(u * 10, s + 1)) == Value(Decimal(u, s))
  {
    var p := Pow10(s) as real;
    assert Pow10(s + 1) as real == 10.0 * p;
    assert (u * 10) as real == 10.0 * u as real;
  }

  /** Two normal decimals with the same value are the same decimal. */
  lemma NormalUnique(a: Decimal, b: Decimal)
    requires IsNormal(a) && IsNormal(b)
    requires Value(a) == Value(b)
    requires a.scale <= b.scale
    ensures a == b
  {
    var k := b.scale - a.scale;
    var pa, pb, pk := Pow10(a.scale), Pow10(b.scale), Pow10(k);
    Pow10Add(a.scale, k);
    CrossMultiply(a.units, pa, b.units, pb);
    assert b.units * pa == (a.units * pk) * pa by {
      assert a.units * pb == a.units * (pa * pk) == (a.units * pk) * pa;
    }
    MulCancel(b.units, a.units * pk, pa);
    if k > 0 {
      TimesPow10Divisible(a.units, k);
      assert false;
    }
  }

  lemma TimesPow10Divisible(u: int, k: nat)
    requires k > 0
    ensures (u * Pow10(k)) % 10 == 0
  {
    var q := Pow10(k - 1);
    var m := u * q;
    assert Pow10(k) == 10 * q;
    assert u * Pow10(k) == u * (10 * q) == m * 10;
  }

  lemma CrossMultiply(u: int, p: nat, v: int, q: nat)
    requires p >= 1 && q >= 1
    requires u as real / p as real == v as real / q as real
    ensures u * q == v * p
  {
    var x := u as real / p as real;
    assert u as real == x * p as real;
    assert v as real == x * q as real;
    assert (u * q) as real == u as real * q as real == x * p as real * q as real;
    assert (v * p) as real == v as real * p as real == x * q as real * p as real;
  }

  lemma MulCancel(a: int, b: int, p: nat)
    requires p >= 1
    requires a * p == b * p
    ensures a == b
  {
  }

  /** A character that can appear when a number is printed in plain
      decimal notation. */
  predicate IsNumberChar(c: char) {
    IsDigit(c) || c == '-' || c == '.'
  }

  /** Canonical decimal text: digits with at most one point, and no digit
      that could be left out without changing the number. A leading zero
      stands alone or directly before the point, and a fraction does not
      end in zero. */
  predicate Canonical(t: string) {
    |t| >= 1 && IsDigit(t[0])
    && (t[0] == '0' ==> |t| == 1 || t[1] == '.')
    && ('.' in t ==> t[|t| - 1] != '0')
  }

  /** `String(Value(d))`: plain decimal notation with an optional minus sign,
      no trailing zero after the point and no point for an integer. For the
      values this core prints (at most two decimal places, magnitude below
      10^21) this is what JavaScript's Number-to-String conversion gives. */
  function NumberToString(d: Decimal): (s: string)
    ensures |s| >= 1
    ensures forall i :: 0 <= i < |s| ==> IsNumberChar(s[i])
    ensures s[0] == '-' <==> Value(d) < 0.0
    ensures Canonical(if s[0] == '-' then s[1..] else s)
  {
    var n := Normalize(d);
    ValueSign(n);
    IntAbsMod10(n.units);
    (if n.units < 0 then "-" else "") + PlainDecimal(IntAbs(n.units), n.scale)
  }

  /** A decimal is negative exactly when its units are. */
  lemma ValueSign(d: Decimal)
    ensures Value(d) < 0.0 <==> d.units < 0
  {
    var p := Pow10(d.scale) as real;
    assert p > 0.0;
    assert Value(d) * p == d.units as real;
  }

  lemma IntAbsMod10(x: int)
    ensures x % 10 == 0 <==> IntAbs(x) % 10 == 0
  {
    if x < 0 {
      if (-x) % 10 == 0 {
        assert x == 10 * (-((-x) / 10));
      }
      if x % 10 == 0 {
        assert -x == 10 * (-(x / 10));
      }
    }
  }

  /** `u / 10^scale` without a sign: the digits of `u` with a point before
      the last `scale` of them, zeros put in front as needed, so that at
      least one digit precedes the point. */
  function PlainDecimal(u: nat, scale: nat): (s: string)
    ensures |s| >= 1 && IsDigit(s[0])
    ensures forall i :: 0 <= i < |s| ==> IsNumberChar(s[i])
    ensures '.' in s <==> scale > 0
    ensures s[0] == '0' ==> |s| == 1 || s[1] == '.'
    ensures scale > 0 && u % 10 != 0 ==> s[|s| - 1] != '0'
  {
    var digits := NatToString(u);
    if scale == 0 then digits
    else
      var padded := PadStart(digits, scale + 1, '0');
      var cut := |padded| - scale;
      PaddedShape(u, scale);
      padded[..cut] + "." + padded[cut..]
  }

  /** The digits of `u` padded to `scale + 1` places: digits throughout,
      still ending in the last digit of `u`, and starting with a zero only
      when padding was needed. */
  lemma PaddedShape(u: nat, scale: nat)
    ensures var padded := PadStart(NatToString(u), scale + 1, '0');
      |padded| >= scale + 1 && IsDigits(padded)
      && padded[|padded| - 1] == Digit(u % 10)
      && (padded[0] == '0' ==> |padded| == scale + 1)
  {
    var digits := NatToString(u);
    var padded := PadStart(digits, scale + 1, '0');
    if |digits| < scale + 1 {
      var zeros := Repeat('0', scale + 1 - |digits|);
      assert padded == zeros + digits;
      forall i | 0 <= i < |padded|
        ensures IsDigit(padded[i])
      {
        if i < |zeros| {
          assert padded[i] == zeros[i];
        } else {
          assert padded[i] == digits[i - |zeros|];
        }
      }
    }
  }

  /** Reads a number without a sign, digits optionally followed by a point
      and more digits, as the decimal whose units are all the digits and
      whose scale is the number of digits after the point. */
  function ParseUnsigned(t: string): Option<Decimal> {
    var pieces := Split(t, '.');
    if |pieces| == 1 && |t| >= 1 && IsDigits(t) then Some(Decimal(DigitsValue(t), 0))
    else if |pieces| == 2 && |pieces[0]| >= 1 && |pieces[1]| >= 1 && IsDigits(pieces[0]) && IsDigits(pieces[1]) then
      assert IsDigits(pieces[0] + pieces[1]);
      Some(Decimal(DigitsValue(pieces[0] + pieces[1]), |pieces[1]|))
    else None
  }

  /** Reads a number in plain decimal notation with an optional minus sign;
      none for any other text. */
  function ParseNumber(s: string): Option<real> {
    if |s| >= 1 && s[0] == '-' then
      match ParseUnsigned(s[1..])
      case Some(d) => Some(-Value(d))
      case None => None
    else
      match ParseUnsigned(s)
      case Some(d) => Some(Value(d))
      case None => None
  }

  /** The value of the digits `a` followed by the digits `b`. */
  lemma {:induction false} DigitsConcat(a: string, b: string)
    requires IsDigits(a) && IsDigits(b)
    ensures IsDigits(a + b)
    ensures DigitsValue(a + b) == DigitsValue(a) * Pow10(|b|) + DigitsValue(b)
    decreases |b|
  {
    var ab := a + b;
    if |b| == 0 {
      assert ab == a;
    } else {
      var front := b[..|b| - 1];
      DigitsConcat(a, front);
      assert ab[..|ab| - 1] == a + front;
      assert ab[|ab| - 1] == b[|b| - 1];
      var d := b[|b| - 1] as int - '0' as int;
      assert DigitsValue(ab) == DigitsValue(a + front) * 10 + d;
      assert DigitsValue(b) == DigitsValue(front) * 10 + d;
      ShiftDigit(DigitsValue(a), Pow10(|front|), DigitsValue(front), d);
    }
  }

  lemma ShiftDigit(va: int, p: int, vf: int, d: int)
    ensures (va * p + vf) * 10 + d == va * (10 * p) + (vf * 10 + d)
  {
  }

  /** The digits of `u` padded with zeros to more than `scale` digits are
      still worth `u`. */
  lemma PaddedDigits(u: nat, scale: nat)
    ensures var padded := PadStart(NatToString(u), scale + 1, '0');
      |padded| >= scale + 1 && IsDigits(padded) && DigitsValue(padded) == u
  {
    var digits := NatToString(u);
    NatToStringRoundTrip(u);
    PadStartSpec(digits, scale + 1, '0');
    if |digits| < scale + 1 {
      var k := scale + 1 - |digits|;
      ZerosValue(k);
      DigitsConcat(Repeat('0', k), digits);
      assert PadStart(digits, scale + 1, '0') == Repeat('0', k) + digits;
    }
  }

  /** Splitting `a.b` at the point, for digit strings `a` and `b`. */
  lemma SplitAtPoint(a: string, b: string)
    requires IsDigits(a) && IsDigits(b)
    ensures Split(a + "." + b, '.') == [a, b]
  {
    assert '.' !in a by {
      forall i | 0 <= i < |a| ensures a[i] != '.' {
        assert IsDigit(a[i]);
      }
    }
    assert '.' !in b by {
      forall i | 0 <= i < |b| ensures b[i] != '.' {
        assert IsDigit(b[i]);
      }
    }
    assert a + "." + b == a + ['.'] + b;
    SplitAtSeparator(a, '.', b);
    SplitNoSeparator(b, '.');
  }

  lemma NegateValue(u: int, k: nat)
    ensures Value(Decimal(-u, k)) == -Value(Decimal(u, k))
  {
  }

  /** Reading back the unsigned text of `u / 10^scale` gives `u` at that
      scale. */
  lemma PlainDecimalRoundTrip(u: nat, scale: nat)
    ensures ParseUnsigned(PlainDecimal(u, scale)) == Some(Decimal(u, scale))
  {
    if scale == 0 {
      IntegerRoundTrip(u);
    } else {
      FractionRoundTrip(u, scale);
    }
  }

  lemma IntegerRoundTrip(u: nat)
    ensures ParseUnsigned(PlainDecimal(u, 0)) == Some(Decimal(u, 0))
  {
    var digits := NatToString(u);
    NatToStringRoundTrip(u);
    assert '.' !in digits by {
      forall i | 0 <= i < |digits| ensures digits[i] != '.' {
        assert IsDigit(digits[i]);
      }
    }
    SplitNoSeparator(digits, '.');
  }

  lemma ParseTwoPieces(t: string, a: string, b: string)
    requires IsDigits(a) && IsDigits(b) && |a| >= 1 && |b| >= 1
    requires Split(t, '.') == [a, b]
    ensures IsDigits(a + b)
    ensures ParseUnsigned(t) == Some(Decimal(DigitsValue(a + b), |b|))
  {
    var pieces := Split(t, '.');
    assert |pieces| == 2 && pieces[0] == a && pieces[1] == b;
  }

  lemma FractionRoundTrip(u: nat, scale: nat)
    requires scale > 0
    ensures ParseUnsigned(PlainDecimal(u, scale)) == Some(Decimal(u, scale))
  {
    var padded := PadStart(NatToString(u), scale + 1, '0');
    var cut := |padded| - scale;
    PaddedDigits(u, scale);
    CutBefore(padded, scale);
    FractionText(u, scale);
    PointedRoundTrip(padded[..cut], padded[cut..], u);
  }

  /** In the fraction case the point goes before the last `scale` digits
      of the padded digits. */
  lemma FractionText(u: nat, scale: nat)
    requires scale > 0
    ensures var padded := PadStart(NatToString(u), scale + 1, '0');
      var cut := |padded| - scale;
      PlainDecimal(u, scale) == padded[..cut] + "." + padded[cut..]
  {
  }

  /** Cutting a text before its last `k` characters. */
  lemma CutBefore(t: string, k: nat)
    requires |t| >= k + 1
    ensures |t[..|t| - k]| >= 1 && |t[|t| - k..]| == k && t[..|t| - k] + t[|t| - k..] == t
  {
  }

  /** Digits, a point and digits read back as the decimal of all the digits
      scaled by the number after the point. */
  lemma PointedRoundTrip(a: string, b: string, u: nat)
    requires IsDigits(a + b) && |a| >= 1 && |b| >= 1
    requires DigitsValue(a + b) == u
    ensures ParseUnsigned(a + "." + b) == Some(Decimal(u, |b|))
  {
    assert IsDigits(a) && IsDigits(b) by {
      assert forall i :: 0 <= i < |a| ==> a[i] == (a + b)[i];
      assert forall i :: 0 <= i < |b| ==> b[i] == (a + b)[|a| + i];
    }
    SplitAtPoint(a, b);
    ParseTwoPieces(a + "." + b, a, b);
  }

  /** Reading a printed number back gives the number: the text denotes
      `Value(d)` exactly. */
  lemma NumberToStringRoundTrip(d: Decimal)
    ensures ParseNumber(NumberToString(d)) == Some(Value(d))
  {
    var n := Normalize(d);
    var u := IntAbs(n.units);
    var body := PlainDecimal(u, n.scale);
    PlainDecimalRoundTrip(u, n.scale);
    if n.units < 0 {
      var s := "-" + body;
      assert NumberToString(d) == s;
      assert s[1..] == body;
      NegateValue(u, n.scale);
      assert n == Decimal(-(u as int), n.scale);
    } else {
      assert NumberToString(d) == body;
      assert body[0] != '-';
    }
  }

  /** What is printed depends only on the number, not on how many decimal
      places it was computed with. */
  lemma NumberToStringOfValue(a: Decimal, b: Decimal)
    requires Value(a) == Value(b)
    ensures NumberToString(a) == NumberToString(b)
  {
    var na, nb := Normalize(a), Normalize(b);
    if na.scale <= nb.scale {
      NormalUnique(na, nb);
    } else {
      NormalUnique(nb, na);
    }
  }

  /** Neither a comma nor a line break can appear in a printed number. */
  lemma NumberToStringNoSeparators(d: Decimal)
    ensures ',' !in NumberToString(d) && '\n' !in NumberToString(d)
  {
  }
}
