/**
 * JavaScript's `Math.round` applied to a quotient of integers. `Math.round(x)`
 * is the integer nearest to `x`, with halves going up (towards +infinity);
 * the application uses it for elapsed seconds, prorated XP and minutes.
 */
module Rounding {

  /** `Math.round(num / den)`, computed exactly with floor division. */
  function Round(num: int, den: int): int
    requires den > 0
  {
    (2 * num + den) / (2 * den)
  }

  /** Floor division by a positive divisor brackets the dividend. */
  lemma DivBounds(n: int, d: int)
    requires d > 0
    ensures (n / d) * d <= n < (n / d) * d + d
  {
    assert n == d * (n / d) + n % d;
  }

  /** The quotient is the only integer that brackets the dividend that way. */
  lemma DivUnique(n: int, d: int, q: int)
    requires d > 0 && q * d <= n < q * d + d
    ensures n / d == q
  {
    DivBounds(n, d);
    var p := n / d;
    if p < q {
      MulMono(p + 1, q, d);
    } else if p > q {
      MulMono(q + 1, p, d);
    }
  }

  lemma MulMono(a: int, b: int, c: int)
    requires a <= b && c >= 0
    ensures a * c <= b * c
  {
    assert b * c - a * c == (b - a) * c;
  }

  /** Doubling both operands leaves a quotient unchanged. */
  lemma DivDouble(a: int, b: int)
    requires b > 0
    ensures (2 * a) / (2 * b) == a / b
  {
    var q := a / b;
    DivBounds(a, b);
    assert q * (2 * b) == 2 * (q * b);
    DivUnique(2 * a, 2 * b, q);
  }

  /**
   * Round(num, den) is the nearest integer to num/den, a half rounding up:
   * r - 1/2 <= num/den < r + 1/2, multiplied through by 2*den.
   */
  lemma RoundIsNearest(num: int, den: int)
    requires den > 0
    ensures var r := Round(num, den);
            (2 * r - 1) * den <= 2 * num < (2 * r + 1) * den
  {
    var r := Round(num, den);
    DivBounds(2 * num + den, 2 * den);
    assert r * (2 * den) == 2 * r * den;
    assert (2 * r - 1) * den == 2 * r * den - den;
    assert (2 * r + 1) * den == 2 * r * den + den;
  }

  /** The rounding is the only integer in that window. */
  lemma RoundUnique(num: int, den: int, k: int)
    requires den > 0
    requires (2 * k - 1) * den <= 2 * num < (2 * k + 1) * den
    ensures k == Round(num, den)
  {
    assert (2 * k - 1) * den == k * (2 * den) - den;
    assert (2 * k + 1) * den == k * (2 * den) + den;
    DivUnique(2 * num + den, 2 * den, k);
  }

  /** Elapsed whole seconds of a millisecond span: `Math.round(ms / 1000)`. */
  function ElapsedSeconds(ms: int): int
  {
    Round(ms, 1000)
  }

  /** The integer form `(ms + 500) / 1000` of the elapsed-seconds rounding. */
  lemma ElapsedSecondsForm(ms: int)
    ensures ElapsedSeconds(ms) == (ms + 500) / 1000
  {
    DivDouble(ms + 500, 1000);
  }

  /**
   * XP awarded for a cancelled exercise: `Math.round(xp * (elapsed / duration) * 0.5)`,
   * half of the reward in proportion to the part that was done.
   */
  function ProratedXp(xp: int, elapsed: int, duration: int): int
    requires duration > 0
  {
    Round(xp * elapsed, 2 * duration)
  }

  /** The integer form `(xp*e + d) / (2*d)` of the prorated reward. */
  lemma ProratedXpForm(xp: int, elapsed: int, duration: int)
    requires duration > 0
    ensures ProratedXp(xp, elapsed, duration) == (xp * elapsed + duration) / (2 * duration)
  {
    var n, d := xp * elapsed, duration;
    assert 2 * n + 2 * d == 2 * (n + d);
    DivDouble(n + d, 2 * d);
  }

  /** A session cancelled before its end earns at most half the full reward, rounded up. */
  lemma ProratedAtMostHalf(xp: nat, elapsed: nat, duration: int)
    requires duration > 0 && elapsed <= duration
    ensures 0 <= ProratedXp(xp, elapsed, duration) <= (xp + 1) / 2
  {
    var d2 := 2 * duration;
    var n := xp * elapsed;
    var r := ProratedXp(xp, elapsed, duration);
    RoundIsNearest(n, d2);
    assert (2 * r - 1) * d2 <= 2 * n < (2 * r + 1) * d2;
    MulMono(elapsed, duration, xp);
    assert 0 <= 2 * n <= xp * d2 by {
      assert 2 * (elapsed * xp) <= 2 * (duration * xp);
      assert xp * d2 == 2 * (duration * xp);
    }
    if r > (xp + 1) / 2 {
      MulMono(xp + 1, 2 * r - 1, d2);
      assert (xp + 1) * d2 == xp * d2 + d2;
    }
    if r < 0 {
      MulMono(2 * r + 1, 0, d2);
    }
  }

  /** The example of a 60-second, 10-XP exercise cancelled at 30 seconds: 3 XP. */
  lemma ProratedHalfwayExample()
    ensures ProratedXp(10, 30, 60) == 3
  {
  }
}
