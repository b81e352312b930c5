/** Exact arithmetic for the JavaScript rounding functions the engine and the routes use. */
module Money {

  /** `Math.max(0, x)`. */
  function Max0(x: real): (r: real)
    ensures r >= 0.0 && r >= x
    ensures r == x || r == 0.0
  {
    if x > 0.0 then x else 0.0
  }

  /** `Math.round(x)`: the nearest integer, halves rounded towards +infinity. */
  function Round(x: real): (r: int)
    ensures x - 0.5 < r as real <= x + 0.5
  {
    (x + 0.5).Floor
  }

  /** `Math.ceil(x)`: the least integer not below `x`. */
  function Ceil(x: real): (c: int)
    ensures x <= c as real < x + 1.0
  {
    -((-x).Floor)
  }

  /** `Math.round(v * 100) / 100`: `v` rounded to two decimal places. */
  function RoundTo2(v: real): (r: real)
    ensures v - 0.005 < r <= v + 0.005
  {
    Round(v * 100.0) as real / 100.0
  }

  /** Rounding never decreases when its argument grows. */
  lemma RoundMonotone(x: real, y: real)
    requires x <= y
    ensures Round(x) <= Round(y)
  {
    assert (x + 0.5).Floor <= (y + 0.5).Floor by {
      assert (x + 0.5).Floor as real <= x + 0.5 <= y + 0.5;
    }
  }

  /** Rounding a non-negative amount gives a non-negative integer. */
  lemma RoundNonNegative(x: real)
    requires x >= 0.0
    ensures Round(x) >= 0
  {
  }

  /** Rounding leaves a whole amount as it is. */
  lemma RoundOfInteger(n: int)
    ensures Round(n as real) == n
  {
  }

  /** Two-decimal rounding is monotone. */
  lemma RoundTo2Monotone(x: real, y: real)
    requires x <= y
    ensures RoundTo2(x) <= RoundTo2(y)
  {
    RoundMonotone(x * 100.0, y * 100.0);
  }

  /** Two-decimal rounding of a non-negative value is non-negative. */
  lemma RoundTo2NonNegative(v: real)
    requires v >= 0.0
    ensures RoundTo2(v) >= 0.0
  {
    RoundNonNegative(v * 100.0);
  }

  /** Two-decimal rounding leaves a value that already has two decimals as it is. */
  lemma RoundTo2OfCents(n: int)
    ensures RoundTo2(n as real / 100.0) == n as real / 100.0
  {
    assert n as real / 100.0 * 100.0 == n as real;
    RoundOfInteger(n);
  }
}
