/** Division and remainder by a variable, in steps small enough for the solver. */
module Arithmetic {

  lemma Assoc(a: int, b: int, c: int)
    ensures a * (b * c) == (a * b) * c
  {
  }

  lemma Dist(a: int, b: int, c: int)
    ensures (a + b) * c == a * c + b * c
  {
  }

  lemma Sign(e: int, m: int)
    requires m > 0
    ensures e >= 1 ==> e * m >= m
    ensures e <= -1 ==> e * m <= -m
  {
    Dist(e - 1, 1, m);
    Dist(-1 - e, e, m);
  }

  /** Quotient and remainder are the only pair of their kind. */
  lemma DivModUnique(v: int, m: int, q: int, r: int)
    requires 0 <= r < m && v == q * m + r
    ensures v / m == q && v % m == r
  {
    var q', r' := v / m, v % m;
    Dist(q, -q', m);
    Sign(q - q', m);
  }

  lemma DigitFits(r: int, d: int, p: int, f: int)
    requires 0 <= r < p && 0 <= d < f
    ensures r * f + d < p * f
  {
    Dist(r, 1, f);
    Dist(p, -(r + 1), f);
    Sign(p - r, f);
    Dist(p, -r, f);
  }

  /** Appending a digit and wrapping at a multiple of `p * f` leaves the low digits as they would be without wrapping. */
  lemma WrapKeepsLowDigits(v: nat, d: nat, p: nat, f: nat, c: nat)
    requires p > 0 && c > 0 && d < f
    ensures p * f > 0 && p * f * c > 0
    ensures (v * f % (p * f * c) + d) % (p * f) == v % p * f + d
  {
    var q, r := v / p, v % p;
    var m := p * f;
    assert m > 0;
    assert m * c > 0;
    var t := v * f / (m * c);
    DigitFits(r, d, p, f);
    Dist(q * p, r, f);
    Assoc(q, p, f);
    Assoc(t, c, m);
    Dist(q, -(t * c), m);
    DivModUnique(v * f % (m * c) + d, m, q - t * c, r * f + d);
  }

  lemma Natural(v: int, p: int)
    requires v >= 0 && p > 0
    ensures v / p >= 0
  {
    Sign(v / p, p);
  }

  /** Cutting a number into digits: the top digit is found by shifting, the rest by masking. */
  lemma TopDigit(v: nat, m: nat, a: nat, b: nat, high: nat, low: nat)
    requires m > 0 && a > 0 && m == a * b && low < b && v % m == high * b + low
    ensures v / b % a == high && v % b == low
  {
    DivModCommute(v, a, b);
    DivModUnique(high * b + low, b, high, low);
  }

  /** Dividing and reducing commute. */
  lemma DivModCommute(v: nat, a: nat, b: nat)
    requires a > 0 && b > 0
    ensures a * b > 0
    ensures v % (a * b) / b == v / b % a && v % (a * b) % b == v % b
  {
    assert a * b > 0;
    var q: int, r: int := v / (a * b), v % (a * b);
    Natural(r, b);
    var s: int, t: int := r / b, r % b;
    Assoc(q, a, b);
    Dist(q * a, s, b);
    DivModUnique(v, b, q * a + s, t);
    Dist(s, 0 - a, b);
    Sign(s - a, b);
    DivModUnique(q * a + s, a, q, s);
  }
}
