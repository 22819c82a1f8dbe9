/** Exact stand-ins for the float-to-integer conversions the calculators use.
    Values are Dafny `real`s; IEEE rounding of the float operations is not modelled. */
module Numeric {

  /** Python `int(x)` on a float: truncation toward zero. */
  function Truncate(x: real): (r: int)
    ensures 0.0 <= x ==> 0 <= r && r as real <= x < r as real + 1.0
    ensures x < 0.0 ==> r <= 0 && r as real - 1.0 < x <= r as real
  {
    if x >= 0.0 then x.Floor else -((-x).Floor)
  }

  /** Python 3 `round(x)`: the nearest integer, ties going to the even neighbour. */
  function RoundHalfEven(x: real): (r: int)
    ensures x - 0.5 <= r as real <= x + 0.5
    ensures (r as real == x - 0.5 || r as real == x + 0.5) ==> r % 2 == 0
  {
    var n := x.Floor;
    var f := x - n as real;
    if f < 0.5 then n
    else if f > 0.5 then n + 1
    else if n % 2 == 0 then n
    else n + 1
  }

  /** The two properties in RoundHalfEven's contract single out one integer,
      so they are a complete description of Python's rounding. */
  lemma RoundHalfEvenUnique(x: real, k: int)
    requires x - 0.5 <= k as real <= x + 0.5
    requires (k as real == x - 0.5 || k as real == x + 0.5) ==> k % 2 == 0
    ensures k == RoundHalfEven(x)
  {
  }

  /** The least integer not below x: the "round up" the estimator's comment asks for. */
  function Ceil(x: real): (r: int)
    ensures x <= r as real < x + 1.0
  {
    if x == x.Floor as real then x.Floor else x.Floor + 1
  }

  /** The estimator's round-up: `int(t + 0.999)`. */
  function RoundUpByEpsilon(t: real): (r: int)
    ensures 0.0 <= t ==> t - 0.001 < r as real <= t + 0.999
  {
    Truncate(t + 0.999)
  }

  /** For a non-negative total, adding 0.999 and truncating never rounds down
      by more than 0.001, never up by a whole unit, and keeps whole numbers. */
  lemma RoundUpByEpsilonBounds(t: real)
    requires 0.0 <= t
    ensures t - 0.001 < RoundUpByEpsilon(t) as real <= t + 0.999
    ensures t == t.Floor as real ==> RoundUpByEpsilon(t) == t.Floor
    ensures 0 <= RoundUpByEpsilon(t)
  {
    if t == t.Floor as real {
      var n := t.Floor;
      assert n as real <= t + 0.999 < n as real + 1.0;
      assert (t + 0.999).Floor == n;
    }
  }

  /** `int(t + 0.999)` is the ceiling of a non-negative t exactly when t is
      whole or its fractional part is at least 0.001; for a fractional part in
      (0, 0.001) it rounds down instead, e.g. 1.0005 gives 1. */
  lemma RoundUpByEpsilonIsCeilingIff(t: real)
    requires 0.0 <= t
    ensures RoundUpByEpsilon(t) == Ceil(t) <==>
              (t == t.Floor as real || t - t.Floor as real >= 0.001)
  {
    var n := t.Floor;
    var f := t - n as real;
    if f == 0.0 {
      assert (t + 0.999).Floor == n;
    } else if f >= 0.001 {
      assert n as real + 1.0 <= t + 0.999 < n as real + 2.0;
      assert (t + 0.999).Floor == n + 1;
    } else {
      assert n as real <= t + 0.999 < n as real + 1.0;
      assert (t + 0.999).Floor == n;
    }
  }

  /** Truncation is monotone on non-negative values. */
  lemma TruncateMonotone(x: real, y: real)
    requires 0.0 <= x <= y
    ensures Truncate(x) <= Truncate(y)
  {
  }
}
