/**
 * Python's built-in `range(start, stop, step)`, as `list(range(...))` sees it:
 * the iteration that starts at `start` and keeps adding `step` while the
 * current value is still on the near side of `stop`.
 */
module PyRange {

  /** `list(range(start, stop, step))`; Python raises ValueError for step 0. */
  function Range(start: int, stop: int, step: int): seq<int>
    requires step != 0
    decreases if step > 0 then stop - start else start - stop
  {
    if (step > 0 && start < stop) || (step < 0 && start > stop) then
      [start] + Range(start + step, stop, step)
    else
      []
  }

  /** `ceil(a / b)` for a positive divisor. */
  function CeilDiv(a: int, b: int): int
    requires b > 0
  {
    (a + b - 1) / b
  }

  /** `len(range(start, stop, step))`: `max(0, ceil((stop - start) / step))`. */
  function Length(start: int, stop: int, step: int): nat
    requires step != 0
  {
    var n := if step > 0 then CeilDiv(stop - start, step) else CeilDiv(start - stop, -step);
    if n < 0 then 0 else n
  }

  /** Arithmetic step of the length: one more element when `start` is on the near side of `stop`. */
  lemma LengthStep(start: int, stop: int, step: int)
    requires step != 0
    ensures (step > 0 && start < stop) || (step < 0 && start > stop) ==>
              Length(start, stop, step) == 1 + Length(start + step, stop, step)
    ensures !((step > 0 && start < stop) || (step < 0 && start > stop)) ==>
              Length(start, stop, step) == 0
  {
    var b := if step > 0 then step else -step;
    var a := if step > 0 then stop - start else start - stop;
    assert Length(start, stop, step) == if CeilDiv(a, b) < 0 then 0 else CeilDiv(a, b);
    assert Length(start + step, stop, step) == if CeilDiv(a - b, b) < 0 then 0 else CeilDiv(a - b, b);
    CeilDivStep(a, b);
    CeilDivSign(a, b);
    CeilDivSign(a - b, b);
  }

  /** Taking one divisor off the dividend takes one off the quotient. */
  lemma CeilDivStep(a: int, b: int)
    requires b > 0
    ensures CeilDiv(a, b) == CeilDiv(a - b, b) + 1
  {
    DivShift(a - 1, b);
  }

  /** The rounded-up quotient is positive exactly for a positive dividend. */
  lemma CeilDivSign(a: int, b: int)
    requires b > 0
    ensures a > 0 ==> CeilDiv(a, b) >= 1
    ensures a <= 0 ==> CeilDiv(a, b) <= 0
  {
    var q, r := (a + b - 1) / b, (a + b - 1) % b;
    assert a + b - 1 == b * q + r && 0 <= r < b;
    if a > 0 && q <= 0 {
      MulNonPos(b, q);
      assert false;
    } else if a <= 0 && q >= 1 {
      MulAtLeast(b, q);
      assert false;
    }
  }

  lemma MulNonPos(b: int, d: int)
    requires b > 0 && d <= 0
    ensures b * d <= 0
  {
  }

  lemma MulAtLeast(b: int, d: int)
    requires b > 0 && d >= 1
    ensures b * d >= b
  {
  }

  lemma DivShift(x: int, b: int)
    requires b > 0
    ensures (x + b) / b == x / b + 1
  {
    var q, r := x / b, x % b;
    assert x == b * q + r;
    assert x + b == b * (q + 1) + r;
    DivUnique(x + b, b, q + 1, r);
  }

  lemma DivUnique(a: int, b: int, q: int, r: int)
    requires b > 0 && 0 <= r < b && a == b * q + r
    ensures a / b == q
  {
    var q', r' := a / b, a % b;
    assert a == b * q' + r';
    var d := q - q';
    assert b * d == b * q - b * q';
    assert b * d == r' - r;
    if d >= 1 {
      MulAtLeast(b, d);
      assert false;
    } else if d <= -1 {
      MulAtLeast(b, -d);
      assert false;
    }
  }

  /** The number of elements is `Length`, Python's `len(range(...))`. */
  lemma {:induction false} RangeLength(start: int, stop: int, step: int)
    requires step != 0
    ensures |Range(start, stop, step)| == Length(start, stop, step)
    decreases if step > 0 then stop - start else start - stop
  {
    LengthStep(start, stop, step);
    if (step > 0 && start < stop) || (step < 0 && start > stop) {
      RangeLength(start + step, stop, step);
    }
  }

  /** Element `i` of the range is `start + i * step`. */
  lemma {:induction false} RangeAt(start: int, stop: int, step: int)
    requires step != 0
    ensures forall i :: 0 <= i < |Range(start, stop, step)| ==>
              Range(start, stop, step)[i] == start + i * step
    decreases if step > 0 then stop - start else start - stop
  {
    if (step > 0 && start < stop) || (step < 0 && start > stop) {
      var tail := Range(start + step, stop, step);
      RangeAt(start + step, stop, step);
      var r := Range(start, stop, step);
      assert r == [start] + tail;
      forall i | 0 <= i < |r|
        ensures r[i] == start + i * step
      {
        if i > 0 {
          assert r[i] == tail[i - 1];
          assert (start + step) + (i - 1) * step == start + i * step;
        }
      }
    }
  }

  /**
   * Every element lies strictly on the near side of `stop`, and the value one
   * step past the last element (or `start` itself, when the range is empty)
   * does not.
   */
  lemma {:induction false} RangeBounds(start: int, stop: int, step: int)
    requires step != 0
    ensures forall i :: 0 <= i < |Range(start, stop, step)| ==>
              (step > 0 ==> Range(start, stop, step)[i] < stop) &&
              (step < 0 ==> Range(start, stop, step)[i] > stop)
    ensures var r := Range(start, stop, step);
              var next := if r == [] then start else r[|r| - 1] + step;
              (step > 0 ==> next >= stop) && (step < 0 ==> next <= stop)
    decreases if step > 0 then stop - start else start - stop
  {
    if (step > 0 && start < stop) || (step < 0 && start > stop) {
      var tail := Range(start + step, stop, step);
      RangeBounds(start + step, stop, step);
      var r := Range(start, stop, step);
      assert r == [start] + tail;
      assert forall i :: 0 < i < |r| ==> r[i] == tail[i - 1];
      assert tail != [] ==> r[|r| - 1] == tail[|tail| - 1];
    }
  }

  /** With a positive step the range is strictly increasing. */
  lemma {:induction false} RangeIncreasing(start: int, stop: int, step: int)
    requires step > 0
    ensures forall i, j :: 0 <= i < j < |Range(start, stop, step)| ==>
              Range(start, stop, step)[i] < Range(start, stop, step)[j]
    decreases stop - start
  {
    if start < stop {
      var r := Range(start, stop, step);
      var tail := Range(start + step, stop, step);
      RangeIncreasing(start + step, stop, step);
      RangeAt(start + step, stop, step);
      assert r == [start] + tail;
      forall i, j | 0 <= i < j < |r|
        ensures r[i] < r[j]
      {
        if i > 0 {
          assert r[i] == tail[i - 1] && r[j] == tail[j - 1];
        } else {
          assert r[j] == tail[j - 1];
          assert tail[j - 1] == start + step + (j - 1) * step;
          assert (j - 1) * step >= 0;
        }
      }
    }
  }

  /** With a negative step the range is strictly decreasing. */
  lemma {:induction false} RangeDecreasing(start: int, stop: int, step: int)
    requires step < 0
    ensures forall i, j :: 0 <= i < j < |Range(start, stop, step)| ==>
              Range(start, stop, step)[i] > Range(start, stop, step)[j]
    decreases start - stop
  {
    if start > stop {
      var r := Range(start, stop, step);
      var tail := Range(start + step, stop, step);
      RangeDecreasing(start + step, stop, step);
      RangeAt(start + step, stop, step);
      assert r == [start] + tail;
      forall i, j | 0 <= i < j < |r|
        ensures r[i] > r[j]
      {
        if i > 0 {
          assert r[i] == tail[i - 1] && r[j] == tail[j - 1];
        } else {
          assert r[j] == tail[j - 1];
          assert tail[j - 1] == start + step + (j - 1) * step;
          assert (j - 1) * step <= 0;
        }
      }
    }
  }
}
