/** Token amounts as the front-end's arbitrary-precision decimal type handles them.

A finite amount is the exact rational `units / 10^exp`; `NaN` is what an empty or
unparseable input string becomes. Comparisons against NaN are false, exactly like the
decimal library's `isGreaterThan` and `eq`.
 */
module Amounts {

  /** Number of decimals of the raising token: typed values are scaled by 10^18. */
  const TokenDecimals: nat := 18

  /** 2^256, one more than any uint256 value. */
  const Uint256Modulus: nat := 0x1_0000_0000_0000_0000_0000_0000_0000_0000_0000_0000_0000_0000_0000_0000_0000_0000
  /** The largest unsigned 256-bit integer, the "infinite" allowance an approval grants. */
  const MaxUint256: nat := Uint256Modulus - 1

  datatype Amount = NaN | Finite(units: int, exp: nat)

  function Pow10(n: nat): (r: nat)
    ensures r > 0
    ensures n > 0 ==> r >= 10
  {
    if n == 0 then 1 else 10 * Pow10(n - 1)
  }

  /** The finite amount `a` is the whole number `u` (in base units). */
  predicate Denotes(a: Amount, u: int) {
    a.Finite? && a.units == u * Pow10(a.exp)
  }

  /** The decimal library's `isGreaterThan(b)`: false for NaN. */
  predicate GreaterThan(a: Amount, b: int) {
    match a
    case NaN => false
    case Finite(units, exp) => units > b * Pow10(exp)
  }

  /** The decimal library's `eq(0)`: false for NaN. */
  predicate IsZero(a: Amount) {
    a.Finite? && a.units == 0
  }

  /** The decimal library's `times(10^k)`: NaN stays NaN. */
  function TimesPow10(a: Amount, k: nat): (r: Amount)
    ensures r.NaN? <==> a.NaN?
    ensures a.Finite? ==> r.exp == a.exp && (r.units == 0 <==> a.units == 0)
  {
    match a
    case NaN => NaN
    case Finite(units, exp) => Finite(units * Pow10(k), exp)
  }

  /** A typed token value expressed in base units (value x 10^18). */
  function ScaleToBaseUnits(typed: Amount): (r: Amount)
    ensures r.NaN? <==> typed.NaN?
    ensures IsZero(r) <==> IsZero(typed)
  {
    TimesPow10(typed, TokenDecimals)
  }

  lemma {:induction false} Pow10Add(a: nat, b: nat)
    ensures Pow10(a + b) == Pow10(a) * Pow10(b)
    decreases b
  {
    if b > 0 {
      Pow10Add(a, b - 1);
      calc {
        Pow10(a + b);
        10 * Pow10(a + b - 1);
        10 * (Pow10(a) * Pow10(b - 1));
        Pow10(a) * (10 * Pow10(b - 1));
        Pow10(a) * Pow10(b);
      }
    }
  }

  lemma MulStrictlyMonotone(x: int, y: int, p: int)
    requires p > 0
    ensures x * p > y * p <==> x > y
  {
    if x > y {
      assert x * p - y * p == (x - y) * p;
    } else {
      assert y * p - x * p == (y - x) * p;
    }
  }

  /** Comparisons of an amount that is a whole number agree with comparisons of that
      number, whatever decimal representation the amount has. */
  lemma DenotedComparisons(a: Amount, u: int, b: int)
    requires Denotes(a, u)
    ensures GreaterThan(a, b) <==> u > b
    ensures IsZero(a) <==> u == 0
  {
    MulStrictlyMonotone(u, b, Pow10(a.exp));
  }

  lemma MulAssoc(x: int, p: int, q: int)
    ensures x * (p * q) == x * p * q
  {
  }

  /** Multiplying a value with at most `k` decimals by 10^k gives the whole number
      `units * 10^(k - exp)`. */
  lemma {:induction false} TimesPow10Denotes(units: int, exp: nat, k: nat)
    requires exp <= k
    ensures Denotes(TimesPow10(Finite(units, exp), k), units * Pow10(k - exp))
  {
    Pow10Add(k - exp, exp);
    MulAssoc(units, Pow10(k - exp), Pow10(exp));
  }

  /** A typed value with at most 18 decimals is, once scaled, the whole number of base
      units `units * 10^(18 - exp)`. */
  lemma ScaledDenotesBaseUnits(units: int, exp: nat)
    requires exp <= TokenDecimals
    ensures Denotes(ScaleToBaseUnits(Finite(units, exp)), units * Pow10(TokenDecimals - exp))
  {
    TimesPow10Denotes(units, exp, TokenDecimals);
  }
}
