/**
 * The `range(from, to, step)` helper of the benchmark script: the arithmetic
 * progression from, from + step, from + 2*step, ... holding
 * Math.floor((to - from) / step) + 1 elements (none when that count is not
 * positive). It drives the number of insert/select cycles run per codec.
 */
module Ranges {

  /** Math.floor(a / b). Dafny's `/` is Euclidean, which agrees with the floor only for b > 0. */
  function FloorDiv(a: int, b: int): (q: int)
    requires b != 0
    ensures b > 0 ==> q * b <= a < q * b + b
    ensures b < 0 ==> q * b + b < a <= q * b
  {
    if b > 0 then a / b else (-a) / (-b)
  }

  /** The `length` handed to Array.from: a negative count yields an empty array. */
  function RangeLength(from: int, to: int, step: int): nat
    requires step != 0
  {
    var n := FloorDiv(to - from, step) + 1;
    if n < 0 then 0 else n
  }

  /** Array.from({length: ...}, (v, i) => from + i * step). */
  function Range(from: int, to: int, step: int): (r: seq<int>)
    requires step != 0
  {
    seq(RangeLength(from, to, step), i => from + i * step)
  }

  /**
   * How many terms `range` produces, stated without division. The
   * progression is empty exactly when `to` lies before `from` in the
   * direction of the step; otherwise its last term has not passed `to` and
   * one more term would. This holds for a negative step too, as Math.floor
   * gives it.
   */
  lemma RangeShape(from: int, to: int, step: int)
    requires step != 0
    ensures step > 0 ==> (|Range(from, to, step)| == 0 <==> from > to)
    ensures step > 0 && from <= to ==>
      from + (|Range(from, to, step)| - 1) * step <= to < from + |Range(from, to, step)| * step
    ensures step < 0 ==> (|Range(from, to, step)| == 0 <==> from < to)
    ensures step < 0 && from >= to ==>
      from + (|Range(from, to, step)| - 1) * step >= to > from + |Range(from, to, step)| * step
  {
    var q := FloorDiv(to - from, step);
    assert (q + 1) * step == q * step + step;
    if step > 0 {
      if q >= 0 {
        MulNonNeg(q, step);
      } else {
        MulMono(q + 1, 0, step);
      }
    } else {
      if q >= 0 {
        MulNonNeg(q, -step);
        assert q * step == -(q * -step);
      } else {
        MulMono(q + 1, 0, -step);
        assert (q + 1) * step == -((q + 1) * -step);
      }
    }
  }

  /**
   * With a positive step, the progression stays within [from, to] and stops at
   * the last term that does not pass `to`: one more term would exceed it.
   */
  lemma RangeWithin(from: int, to: int, step: int)
    requires step > 0
    ensures forall x :: x in Range(from, to, step) ==> from <= x <= to
    ensures from + |Range(from, to, step)| * step > to
  {
    var r := Range(from, to, step);
    forall x | x in r
      ensures from <= x <= to
    {
      var i :| 0 <= i < |r| && r[i] == x;
      TermWithin(from, to, step, i);
    }
    PastEnd(from, to, step);
  }

  /** Term i of the progression, for i up to the floor quotient, lies in [from, to]. */
  lemma TermWithin(from: int, to: int, step: int, i: int)
    requires step > 0 && 0 <= i <= FloorDiv(to - from, step)
    ensures from <= from + i * step <= to
  {
    var q := FloorDiv(to - from, step);
    MulMono(i, q, step);
    MulNonNeg(i, step);
  }

  lemma PastEnd(from: int, to: int, step: int)
    requires step > 0
    ensures from + RangeLength(from, to, step) * step > to
  {
    var q := FloorDiv(to - from, step);
    assert (q + 1) * step == q * step + step;
    if q + 1 < 0 {
      MulMono(q + 1, 0, step);
    }
  }

  /**
   * An independent description of the same progression: with a positive step,
   * x is produced exactly when it lies in [from, to] and is a whole number of
   * steps away from `from`.
   */
  lemma RangeMembership(from: int, to: int, step: int, x: int)
    requires step > 0
    ensures x in Range(from, to, step) <==> from <= x <= to && (x - from) % step == 0
  {
    if x in Range(from, to, step) {
      MemberIsStep(from, to, step, x);
    }
    if from <= x <= to && (x - from) % step == 0 {
      StepIsMember(from, to, step, x);
    }
  }

  lemma MemberIsStep(from: int, to: int, step: int, x: int)
    requires step > 0 && x in Range(from, to, step)
    ensures from <= x <= to && (x - from) % step == 0
  {
    var r := Range(from, to, step);
    RangeWithin(from, to, step);
    var i :| 0 <= i < |r| && r[i] == x;
    assert x - from == i * step;
    MulMod(i, step);
  }

  lemma StepIsMember(from: int, to: int, step: int, x: int)
    requires step > 0 && from <= x <= to && (x - from) % step == 0
    ensures x in Range(from, to, step)
  {
    var r := Range(from, to, step);
    var i := (x - from) / step;
    assert x - from == i * step;
    var q := FloorDiv(to - from, step);
    assert |r| == q + 1;
    assert r[i] == x;
  }

  /** The cycle counter of each codec, range(1, 1000, 1), is exactly 1, 2, ..., 1000. */
  lemma CycleCounter()
    ensures Range(1, 1000, 1) == seq(1000, i => i + 1)
  {
  }

  lemma MulMono(a: int, b: int, c: int)
    requires a <= b && c >= 0
    ensures a * c <= b * c
  {
    assert b * c - a * c == (b - a) * c;
  }

  lemma MulNonNeg(a: int, c: int)
    requires a >= 0 && c >= 0
    ensures a * c >= 0
  {
  }

  lemma MulMod(i: int, step: int)
    requires step > 0
    ensures (i * step) % step == 0
  {
    var q, r := (i * step) / step, (i * step) % step;
    assert i * step == q * step + r;
    assert (i - q) * step == r;
    if i - q > 0 {
      MulMono(1, i - q, step);
    } else if i - q < 0 {
      MulMono(i - q, -1, step);
    }
  }
}
