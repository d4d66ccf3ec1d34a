/**
 * Real-number helpers standing in for the JavaScript number operations the
 * front end uses: `Math.abs`, `Math.round`, `Math.min`/`Math.max` clamping and
 * `parseFloat(x.toFixed(2))`, the two-decimal rounding used for every growth
 * value that reaches a chart or the clipboard.
 */
module Numbers {

  function Abs(x: real): real
  {
    if x < 0.0 then -x else x
  }

  /** `Math.max(lo, Math.min(hi, x))`. */
  function Clamp(x: real, lo: real, hi: real): (r: real)
    requires lo <= hi
    ensures lo <= r <= hi
    ensures lo <= x <= hi ==> r == x
    ensures x < lo ==> r == lo
    ensures hi < x ==> r == hi
  {
    if hi < x then hi else if x < lo then lo else x
  }

  /** `Math.round(x)`: the nearest integer, halves rounded up. */
  function JsRound(x: real): (n: int)
    ensures x - 0.5 < n as real <= x + 0.5
  {
    (x + 0.5).Floor
  }

  /** Nearest integer with halves rounded away from zero, as `toFixed` rounds. */
  function RoundHalfAway(y: real): int
  {
    if y >= 0.0 then (y + 0.5).Floor else -((-y + 0.5).Floor)
  }

  /** `parseFloat(x.toFixed(2))`: `x` rounded to two decimals, halves away from zero. */
  function Round2(x: real): real
  {
    RoundHalfAway(x * 100.0) as real / 100.0
  }

  /** A value with at most two decimal digits. */
  predicate IsHundredths(x: real)
  {
    (x * 100.0).Floor as real == x * 100.0
  }

  lemma RoundHalfAwayError(y: real)
    ensures Abs(RoundHalfAway(y) as real - y) <= 0.5
  {
  }

  lemma RoundHalfAwayOfInt(n: int)
    ensures RoundHalfAway(n as real) == n
  {
    if n >= 0 {
      assert (n as real + 0.5).Floor == n;
    } else {
      assert ((-n) as real + 0.5).Floor == -n;
    }
  }

  /** The rounded value is within half a cent of the input. */
  lemma Round2Error(x: real)
    ensures Abs(Round2(x) - x) <= 0.005
  {
    var k := RoundHalfAway(x * 100.0);
    RoundHalfAwayError(x * 100.0);
    assert Round2(x) - x == (k as real - x * 100.0) / 100.0;
  }

  /** Every rounded value has at most two decimals. */
  lemma Round2IsHundredths(x: real)
    ensures IsHundredths(Round2(x))
  {
    var k := RoundHalfAway(x * 100.0);
    assert Round2(x) * 100.0 == k as real;
  }

  /** Rounding an already rounded value changes nothing. */
  lemma Round2Idempotent(x: real)
    ensures Round2(Round2(x)) == Round2(x)
  {
    var k := RoundHalfAway(x * 100.0);
    assert Round2(x) * 100.0 == k as real;
    RoundHalfAwayOfInt(k);
  }

  /** A value with two decimals is its own rounding. */
  lemma Round2OfHundredths(h: int)
    ensures Round2(h as real / 100.0) == h as real / 100.0
  {
    assert (h as real / 100.0) * 100.0 == h as real;
    RoundHalfAwayOfInt(h);
  }

  /** The sign the rounded value shows: positive exactly from half a cent up,
      negative exactly from half a cent down, zero in between. */
  lemma Round2Sign(x: real)
    ensures Round2(x) > 0.0 <==> x >= 0.005
    ensures Round2(x) < 0.0 <==> x <= -0.005
    ensures Round2(x) == 0.0 <==> -0.005 < x < 0.005
  {
    var y := x * 100.0;
    if y >= 0.0 {
      assert RoundHalfAway(y) == (y + 0.5).Floor;
      if x >= 0.005 {
        assert y + 0.5 >= 1.0;
      } else {
        assert 0.0 <= y + 0.5 < 1.0;
      }
    } else {
      assert RoundHalfAway(y) == -((-y + 0.5).Floor);
      if x <= -0.005 {
        assert -y + 0.5 >= 1.0;
      } else {
        assert 0.0 <= -y + 0.5 < 1.0;
      }
    }
  }
}
