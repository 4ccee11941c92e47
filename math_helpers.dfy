/** The two numeric library routines the tuning controller relies on:
    XNA's MathHelper.Clamp and .NET's Math.Round(value, digits).
    Both are modelled on exact reals; single- and double-precision
    rounding error is not part of this model. */
module MathHelpers {

  /** MathHelper.Clamp(value, min, max): first caps at max, then raises to min. */
  function Clamp(x: real, lo: real, hi: real): (r: real)
    ensures lo <= hi ==> lo <= r <= hi
    ensures lo <= x <= hi ==> r == x
    ensures lo <= hi && x < lo ==> r == lo
    ensures lo <= hi && hi < x ==> r == hi
  {
    var capped := if x > hi then hi else x;
    if capped < lo then lo else capped
  }

  function Pow10(n: nat): (p: nat)
    ensures p >= 1
  {
    if n == 0 then 1 else 10 * Pow10(n - 1)
  }

  /** Number of grid units per 1.0 when rounding to `digits` decimals. */
  function Scale(digits: nat): (s: real)
    ensures s >= 1.0
  {
    Pow10(digits) as real
  }

  /** x measured in units of 10^-digits. */
  function Units(x: real, digits: nat): real {
    x * Scale(digits)
  }

  /** x is a whole number of units of 10^-digits. */
  predicate OnGrid(x: real, digits: nat) {
    Units(x, digits).Floor as real == Units(x, digits)
  }

  /** Rounds y to the nearest integer; a value exactly halfway between
      two integers goes to the even one (MidpointRounding.ToEven, the
      default of Math.Round). */
  function HalfEven(y: real): (n: int)
    ensures y - 0.5 <= n as real <= y + 0.5
    ensures (n as real == y - 0.5 || n as real == y + 0.5) ==> n % 2 == 0
    ensures y.Floor as real == y ==> n as real == y
  {
    var f := y.Floor;
    var frac := y - f as real;
    if frac < 0.5 then f
    else if frac > 0.5 then f + 1
    else if f % 2 == 0 then f
    else f + 1
  }

  /** The contract of HalfEven pins its result down: any whole number
      within half of y, and even when exactly half away, is HalfEven(y). */
  lemma HalfEvenUnique(y: real, m: int)
    requires y - 0.5 <= m as real <= y + 0.5
    requires (m as real == y - 0.5 || m as real == y + 0.5) ==> m % 2 == 0
    ensures m == HalfEven(y)
  {
    var n := HalfEven(y);
    assert -1 <= m - n <= 1;
  }

  /** n units of 10^-digits is a grid point, and measuring it gives n back. */
  lemma UnitsAreGridPoints(n: int, digits: nat)
    ensures Units(n as real / Scale(digits), digits) == n as real
    ensures OnGrid(n as real / Scale(digits), digits)
  {
    var s := Scale(digits);
    var r := n as real / s;
    assert r * s == n as real;
    assert (r * s).Floor == n;
  }

  /** Math.Round(x, digits): the multiple of 10^-digits nearest to x,
      a halfway case going to the even multiple. */
  function Round(x: real, digits: nat): (r: real)
    ensures OnGrid(r, digits)
    ensures Units(x, digits) - 0.5 <= Units(r, digits) <= Units(x, digits) + 0.5
    ensures Units(r, digits) == Units(x, digits) - 0.5 || Units(r, digits) == Units(x, digits) + 0.5
            ==> Units(r, digits).Floor % 2 == 0
  {
    var n := HalfEven(Units(x, digits));
    UnitsAreGridPoints(n, digits);
    n as real / Scale(digits)
  }

  /** Rounding leaves a value that already has at most `digits` decimals alone. */
  lemma RoundKeepsGridValues(x: real, digits: nat)
    requires OnGrid(x, digits)
    ensures Round(x, digits) == x
  {
    var s := Scale(digits);
    assert HalfEven(x * s) as real == x * s;
    assert (x * s) / s == x;
  }

  /** Rounding a value between two grid points never leaves that interval. */
  lemma RoundWithinGridBounds(x: real, digits: nat, lo: real, hi: real)
    requires OnGrid(lo, digits) && OnGrid(hi, digits)
    requires lo <= x <= hi
    ensures lo <= Round(x, digits) <= hi
  {
    var r := Round(x, digits);
    ScaleMonotone(lo, x, digits);
    ScaleMonotone(x, hi, digits);
    WholeUnitsWithin(Units(lo, digits).Floor, Units(r, digits), Units(hi, digits).Floor, Units(x, digits));
    ScaleReflects(lo, r, digits);
    ScaleReflects(r, hi, digits);
  }

  /** A whole number within half a unit of a point between two whole
      numbers lies between them too. */
  lemma WholeUnitsWithin(l: int, m: real, h: int, y: real)
    requires m.Floor as real == m
    requires l as real <= y <= h as real
    requires y - 0.5 <= m <= y + 0.5
    ensures l as real <= m <= h as real
  {
    assert l <= m.Floor <= h;
  }

  lemma ScaleMonotone(a: real, b: real, digits: nat)
    requires a <= b
    ensures Units(a, digits) <= Units(b, digits)
  {
  }

  lemma ScaleReflects(a: real, b: real, digits: nat)
    requires Units(a, digits) <= Units(b, digits)
    ensures a <= b
  {
  }
}
