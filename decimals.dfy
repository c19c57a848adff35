/** Exact decimal amounts (the `BigDecimal` values the bank records carry) and
    the two conversions the sync needs: scaling by 100 in either direction, and
    the text JavaScript prints for the resulting number (within the range
    where that text is exact). */
module Decimals {
  import opened Text

  /** The number `unscaled / 10^scale`. */
  datatype Decimal = Decimal(unscaled: int, scale: nat)

  lemma {:induction false} Pow10Add(a: nat, b: nat)
    ensures Pow10(a + b) == Pow10(a) * Pow10(b)
    decreases a
  {
    if a > 0 {
      Pow10Add(a - 1, b);
      calc {
        Pow10(a + b);
        10 * Pow10(a - 1 + b);
        10 * (Pow10(a - 1) * Pow10(b));
        (10 * Pow10(a - 1)) * Pow10(b);
      }
    }
  }

  /** The two decimals denote the same number. */
  predicate SameValue(a: Decimal, b: Decimal) {
    a.unscaled * Pow10(b.scale) == b.unscaled * Pow10(a.scale)
  }

  /** The decimal denotes a whole number. */
  predicate IsIntegral(d: Decimal) {
    d.unscaled % Pow10(d.scale) == 0
  }

  /** `amount × 100`, computed exactly (`BigDecimal.multiply` by 100). */
  function Times100(d: Decimal): (r: Decimal)
    ensures SameValue(r, Decimal(100 * d.unscaled, d.scale))
  {
    if d.scale >= 2 then
      Pow10Add(2, d.scale - 2);
      Decimal(d.unscaled, d.scale - 2)
    else
      assert Pow10(2 - d.scale) * Pow10(d.scale) == 100 by { Pow10Add(2 - d.scale, d.scale); }
      Decimal(d.unscaled * Pow10(2 - d.scale), 0)
  }

  /** `value ÷ 100`, computed exactly (`BigDecimal.unsafeDivide` by 100). */
  function Div100(d: Decimal): (r: Decimal)
    ensures Times100(r) == d
    ensures SameValue(Decimal(100 * r.unscaled, r.scale), d)
  {
    Pow10Add(2, d.scale);
    Decimal(d.unscaled, d.scale + 2)
  }

  /** A whole number of cents divided by 100 and multiplied back by 100 is that
      whole number again. */
  lemma CentsRoundTrip(cents: int)
    ensures Times100(Div100(Decimal(cents, 0))) == Decimal(cents, 0)
    ensures IsIntegral(Times100(Div100(Decimal(cents, 0))))
  {
  }

  /** The same number with trailing zeros of the unscaled value removed. */
  function Normalize(d: Decimal): (r: Decimal)
    ensures r.scale <= d.scale
    ensures r.unscaled * Pow10(d.scale - r.scale) == d.unscaled
    ensures r.scale == 0 || r.unscaled % 10 != 0
    decreases d.scale
  {
    if d.scale > 0 && d.unscaled % 10 == 0 then
      var r := Normalize(Decimal(d.unscaled / 10, d.scale - 1));
      Pow10Add(1, d.scale - 1 - r.scale);
      assert r.unscaled * Pow10(d.scale - r.scale) == (r.unscaled * Pow10(d.scale - 1 - r.scale)) * 10;
      r
    else
      d
  }

  lemma MulMono(x: int, p: int)
    requires x >= 1 && p > 0
    ensures x * p >= p
  {
  }

  /** Exact division: a multiple of `p` leaves no remainder. */
  lemma MulMod(q: int, p: int)
    requires p > 0
    ensures (q * p) % p == 0 && (q * p) / p == q
  {
    var r := (q * p) % p;
    var t := (q * p) / p;
    assert q * p == t * p + r;
    assert (q - t) * p == r;
    if q - t >= 1 {
      MulMono(q - t, p);
    } else if q - t <= -1 {
      MulMono(t - q, p);
    }
  }

  lemma DivNonneg(a: int, b: int)
    requires a >= 0 && b > 0
    ensures a / b >= 0
  {
  }

  lemma {:induction false} IntegralDivides(u: int, s: nat)
    requires s > 0 && u % Pow10(s) == 0
    ensures u % 10 == 0 && (u / 10) % Pow10(s - 1) == 0
  {
    var p := Pow10(s - 1);
    var q := u / Pow10(s);
    assert u == q * Pow10(s);
    var k := q * p;
    assert u == k * 10;
    assert u / 10 == k;
    MulMod(q, p);
  }

  /** Normalizing a whole number leaves no fractional digits. */
  lemma {:induction false} NormalizeIntegral(d: Decimal)
    ensures IsIntegral(d) ==> Normalize(d).scale == 0
    ensures IsIntegral(d) ==> Normalize(d).unscaled == d.unscaled / Pow10(d.scale)
    decreases d.scale
  {
    if !IsIntegral(d) {
      return;
    }
    if d.scale > 0 {
      IntegralDivides(d.unscaled, d.scale);
      NormalizeIntegral(Decimal(d.unscaled / 10, d.scale - 1));
    }
    var r := Normalize(d);
    assert r.unscaled * Pow10(d.scale) == d.unscaled;
  }

  /** The text JavaScript prints for the number `d` (`${n}`) when it has at
      most 15 significant digits and lies between 1e-6 and 1e21: the integer
      in decimal when it is whole, otherwise the integer part, a point and
      the fractional digits without trailing zeros. */
  function NumberText(d: Decimal): (s: string)
    ensures IsIntegral(d) ==> s == IntToString(d.unscaled / Pow10(d.scale))
  {
    NormalizeIntegral(d);
    NormalText(Normalize(d))
  }

  function NormalText(n: Decimal): string {
    if n.scale == 0 then IntToString(n.unscaled)
    else
      var a := if n.unscaled < 0 then -n.unscaled else n.unscaled;
      DivNonneg(a, Pow10(n.scale));
      (if n.unscaled < 0 then "-" else "")
      + NatToString(a / Pow10(n.scale)) + "."
      + PadStart(NatToString(a % Pow10(n.scale)), n.scale, '0')
  }
}
