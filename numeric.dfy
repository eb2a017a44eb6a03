/**
 * The arithmetic the front end does with JavaScript numbers, on exact
 * rationals: `Math.round`, `Math.min`, `Math.max` and the "percent of a
 * maximum" computation shared by the learning hub and the dashboard.
 */
module Numeric {

  function Min(a: int, b: int): int { if a <= b then a else b }

  function Max(a: int, b: int): int { if a >= b then a else b }

  /** `Math.round(x)`: the nearest integer, halves rounded up. */
  function Round(x: real): (n: int)
    ensures n as real - 0.5 <= x < n as real + 0.5
  {
    (x + 0.5).Floor
  }

  /** `Math.round` is monotone. */
  lemma RoundMonotone(x: real, y: real)
    requires x <= y
    ensures Round(x) <= Round(y)
  {
  }

  /** `Math.round` of an integer is that integer. */
  lemma RoundInt(n: int)
    ensures Round(n as real) == n
  {
  }

  /**
   * `Math.min(100, Math.round((count / max) * 100))`: how much of a module's
   * `max` videos `count` videos are, in whole percent, capped at 100.
   */
  function PercentOf(count: int, max: int): (p: int)
    requires max > 0
    ensures p <= 100
    ensures count >= 0 ==> p >= 0
    ensures count >= max ==> p == 100
    ensures count <= 0 ==> p <= 0
  {
    var r := Round((count as real / max as real) * 100.0);
    assert count >= max ==> count as real / max as real >= 1.0;
    assert count <= 0 ==> count as real / max as real <= 0.0;
    Min(100, r)
  }

  /** Watching more videos never lowers the percentage. */
  lemma PercentMonotone(c1: int, c2: int, max: int)
    requires max > 0 && c1 <= c2
    ensures PercentOf(c1, max) <= PercentOf(c2, max)
  {
    assert c1 as real / max as real <= c2 as real / max as real;
    RoundMonotone((c1 as real / max as real) * 100.0, (c2 as real / max as real) * 100.0);
  }

  /** The percentage is positive exactly when at least half a percent has been watched. */
  lemma PercentPositive(count: int, max: int)
    requires max > 0
    ensures PercentOf(count, max) > 0 <==> 200 * count >= max
  {
    var x := (count as real / max as real) * 100.0;
    assert x * (max as real) == 100.0 * count as real;
    if 200 * count >= max {
      assert x >= 0.5;
    } else {
      assert x < 0.5;
    }
  }
}
