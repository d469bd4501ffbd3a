/** The scripts' arithmetic over exact reals.

    Scores are JavaScript numbers; the model uses Dafny's `real`, so there
    is no floating-point error. `Math.round` rounds to the nearest integer
    with halves going up, which is `floor(x + 1/2)`, and the scripts round
    to two decimals with `Math.round(x * 100) / 100`. */
module Numeric {

  /** `Math.round(x)`. */
  function Round(x: real): (r: int)
    ensures r as real - 0.5 <= x < r as real + 0.5
  {
    (x + 0.5).Floor
  }

  /** `Math.round(x * 100) / 100`: `x` to two decimals. */
  function Round2(x: real): (r: real)
    ensures x - 0.005 < r <= x + 0.005
  {
    Round(x * 100.0) as real / 100.0
  }

  function Min(a: real, b: real): (r: real)
    ensures r <= a && r <= b && (r == a || r == b)
  {
    if a <= b then a else b
  }

  function Max(a: real, b: real): (r: real)
    ensures a <= r && b <= r && (r == a || r == b)
  {
    if a <= b then b else a
  }

  /** `Math.min(100, Math.max(0, x))`. */
  function Clamp100(x: real): (r: real)
    ensures 0.0 <= r <= 100.0
    ensures 0.0 <= x <= 100.0 ==> r == x
  {
    Min(100.0, Max(0.0, x))
  }

  function Abs(x: real): (r: real)
    ensures r >= 0.0 && (r == x || r == -x)
  {
    if x < 0.0 then -x else x
  }

  /** Rounding never leaves an interval whose ends have two decimals;
      [0, 100] in particular. */
  lemma Round2InRange(x: real, lo: int, hi: int)
    requires lo as real / 100.0 <= x <= hi as real / 100.0
    ensures lo as real / 100.0 <= Round2(x) <= hi as real / 100.0
  {
    var n := Round(x * 100.0);
    assert lo as real <= x * 100.0 <= hi as real;
    assert lo <= n <= hi;
  }

  lemma Round2Percent(x: real)
    requires 0.0 <= x <= 100.0
    ensures 0.0 <= Round2(x) <= 100.0
  {
    Round2InRange(x, 0, 10000);
  }

  lemma Round2Monotone(x: real, y: real)
    requires x <= y
    ensures Round2(x) <= Round2(y)
  {
    var a, b := Round(x * 100.0), Round(y * 100.0);
    assert a <= b;
  }

  /** Rounding a whole number changes nothing. */
  lemma Round2Whole(n: int)
    ensures Round2(n as real) == n as real
  {
    assert Round(n as real * 100.0) == n * 100;
  }

  /** `(p / d) * 100` lies in [0, 100] whenever 0 <= p <= d. */
  lemma PercentBounds(p: int, d: int)
    requires 0 <= p <= d && d > 0
    ensures 0.0 <= (p as real / d as real) * 100.0 <= 100.0
  {
    DivMonotone(0.0, p as real, d as real);
    DivMonotone(p as real, d as real, d as real);
    DivSelf(d as real);
  }

  /** `(part / whole) * 100`, unrounded. */
  function Share(part: int, whole: nat): real
    requires whole > 0
  {
    (part as real / whole as real) * 100.0
  }

  /** What is gone and what is left of a positive whole add up to all of it. */
  lemma ShareComplement(before: nat, after: nat)
    requires before > 0
    ensures Share(before - after, before) + Share(after, before) == 100.0
  {
    DivAdd((before - after) as real, after as real, before as real);
    DivSelf(before as real);
  }

  /** `before > 0 ? round2(((before - after) / before) * 100) : 0`: the
      percentage by which a count shrank; negative when it grew. */
  function ReductionPercent(before: nat, after: nat): (r: real)
    ensures before == 0 ==> r == 0.0
    ensures r <= 100.0
    ensures after <= before ==> 0.0 <= r
    ensures after == before ==> r == 0.0
    ensures after == 0 ==> r == (if before == 0 then 0.0 else 100.0)
  {
    if before > 0 then
      var q := Share(before - after, before);
      assert q <= 100.0 by {
        DivMonotone((before - after) as real, before as real, before as real);
        DivSelf(before as real);
      }
      assert after <= before ==> 0.0 <= q by {
        if after <= before {
          PercentBounds(before - after, before);
        }
      }
      assert Round2(q) <= 100.0 by {
        Round2Monotone(q, 100.0);
        Round2Whole(100);
      }
      assert after <= before ==> 0.0 <= Round2(q) by {
        if after <= before {
          Round2Monotone(0.0, q);
          Round2Whole(0);
        }
      }
      assert after == before ==> Round2(q) == 0.0 by {
        if after == before {
          Round2Whole(0);
        }
      }
      assert after == 0 ==> Round2(q) == 100.0 by {
        if after == 0 {
          DivSelf(before as real);
          assert q == 100.0;
          Round2Whole(100);
        }
      }
      Round2(q)
    else 0.0
  }

  /** `round2((part / whole) * 100)`: `part` as a percentage of `whole`. */
  function RatioPercent(part: nat, whole: nat): (r: real)
    requires whole > 0
    ensures 0.0 <= r
    ensures part <= whole ==> r <= 100.0
    ensures part == whole ==> r == 100.0
  {
    var q := Share(part, whole);
    assert 0.0 <= q;
    assert 0.0 <= Round2(q) by {
      Round2Monotone(0.0, q);
      Round2Whole(0);
    }
    assert part <= whole ==> Round2(q) <= 100.0 by {
      if part <= whole {
        PercentBounds(part, whole);
        Round2Percent(q);
      }
    }
    assert part == whole ==> Round2(q) == 100.0 by {
      if part == whole {
        DivSelf(whole as real);
        assert q == 100.0;
        Round2Whole(100);
      }
    }
    Round2(q)
  }

  lemma DivCancel(p: real, w: real)
    requires w > 0.0
    ensures p / w * w == p
  {
  }

  /** Division by a positive number keeps order. */
  lemma DivMonotone(a: real, b: real, w: real)
    requires a <= b && w > 0.0
    ensures a / w <= b / w
  {
    var x, y := a / w, b / w;
    DivCancel(a, w);
    DivCancel(b, w);
    assert (x - y) * w == x * w - y * w;
    if x > y {
      MulPositive(x - y, w);
    }
  }

  lemma DivSelf(w: real)
    requires w > 0.0
    ensures w / w == 1.0
  {
    var q := w / w;
    DivCancel(w, w);
    assert (q - 1.0) * w == q * w - w;
    if q > 1.0 {
      MulPositive(q - 1.0, w);
    } else if q < 1.0 {
      MulPositive(1.0 - q, w);
    }
  }

  lemma DivAdd(p: real, q: real, w: real)
    requires w > 0.0
    ensures p / w + q / w == (p + q) / w
  {
    var x, y, z := p / w, q / w, (p + q) / w;
    DivCancel(p, w);
    DivCancel(q, w);
    DivCancel(p + q, w);
    var d := z - x - y;
    assert d * w == z * w - x * w - y * w;
    if d > 0.0 {
      MulPositive(d, w);
    } else if d < 0.0 {
      MulPositive(-d, w);
    }
  }

  lemma MulPositive(u: real, v: real)
    requires u > 0.0 && v > 0.0
    ensures u * v > 0.0
  {
  }

  lemma MulNonnegative(u: real, v: real)
    requires u >= 0.0 && v > 0.0
    ensures u * v >= 0.0
  {
  }
}
