/**
 * The per-codec result records. The statistics come from a boxplot library
 * whose method is not part of this model: `Summary` is only the shape of its
 * output. Each record stores the statistics as `toFixed(d)` renders them; the
 * model keeps such a value as the integer count of 10^-d units it denotes.
 */
module Records {

  /** What the boxplot library returns for a timing sequence (seconds). */
  datatype Summary = Summary(
    min: real, max: real, outlier: seq<real>, mean: real, median: real,
    variance: real, iqr: real, q1: real, q3: real,
    whiskerHigh: real, whiskerLow: real, count: nat, missing: nat)

  /**
   * `MeasureCodec`: one row of a report. min, max, iqr, q1, q3 and the whiskers
   * are in 10^-3 s, mean and median in 10^-4 s, variance in 10^-6 s^2.
   */
  datatype MeasureCodec = MeasureCodec(
    codecName: string, min: int, max: int, outlierCount: nat, mean: int,
    median: int, variance: int, iqr: int, q1: int, q3: int,
    whiskerHigh: int, whiskerLow: int, count: nat, miss: nat)

  function Pow10(d: nat): (p: nat)
    ensures p >= 1
  {
    if d == 0 then 1 else 10 * Pow10(d - 1)
  }

  /**
   * Number.prototype.toFixed(digits) read back as a number: x scaled by
   * 10^digits and rounded to the nearest integer, a tie going away from zero
   * (toFixed rounds the magnitude, picking the larger of two equally near
   * candidates, and prefixes the sign).
   */
  function ToFixed(x: real, digits: nat): int
  {
    Round(x * Pow10(digits) as real)
  }

  /** The integer nearest to y, a tie going away from zero. */
  function Round(y: real): int
  {
    if y >= 0.0 then (y + 0.5).Floor else -((-y + 0.5).Floor)
  }

  /** Round(y) is within one half of y; exactly one half only for a tie, resolved away from zero. */
  lemma RoundNearest(y: real)
    ensures y >= 0.0 ==> y - 0.5 < Round(y) as real <= y + 0.5
    ensures y < 0.0 ==> y - 0.5 <= Round(y) as real < y + 0.5
  {
  }

  lemma RoundMonotone(y: real, y': real)
    requires y <= y'
    ensures Round(y) <= Round(y')
  {
    if y < 0.0 <= y' {
      assert Round(y) <= 0 <= Round(y');
    }
  }

  /** ToFixed is the integer nearest to x * 10^digits; of two equally near, the one farther from zero. */
  lemma ToFixedNearest(x: real, digits: nat)
    ensures var y, r := x * Pow10(digits) as real, ToFixed(x, digits) as real;
      && (y >= 0.0 ==> y - 0.5 < r <= y + 0.5)
      && (y < 0.0 ==> y - 0.5 <= r < y + 0.5)
  {
    RoundNearest(x * Pow10(digits) as real);
  }

  /** Rounding never inverts order: ranking by the rounded value agrees with the exact one, up to ties. */
  lemma ToFixedMonotone(x: real, x': real, digits: nat)
    requires x <= x'
    ensures ToFixed(x, digits) <= ToFixed(x', digits)
  {
    var p := Pow10(digits) as real;
    assert x' * p - x * p == (x' - x) * p;
    RoundMonotone(x * p, x' * p);
  }

  /** The record pushed for one codec (the object literals of the select and insert pushes). */
  function MakeRecord(codec: string, s: Summary): MeasureCodec
  {
    MeasureCodec(
      codecName := codec,
      min := ToFixed(s.min, 3),
      max := ToFixed(s.max, 3),
      outlierCount := |s.outlier|,
      mean := ToFixed(s.mean, 4),
      median := ToFixed(s.median, 4),
      variance := ToFixed(s.variance, 6),
      iqr := ToFixed(s.iqr, 3),
      q1 := ToFixed(s.q1, 3),
      q3 := ToFixed(s.q3, 3),
      whiskerHigh := ToFixed(s.whiskerHigh, 3),
      whiskerLow := ToFixed(s.whiskerLow, 3),
      count := s.count,
      miss := s.missing)
  }

  /** A record names its codec, and its median is the library's median to the nearest 10^-4 s. */
  lemma MakeRecordMedian(codec: string, s: Summary)
    ensures MakeRecord(codec, s).codecName == codec
    ensures MakeRecord(codec, s).median as real - 0.5 <= s.median * 10000.0 <= MakeRecord(codec, s).median as real + 0.5
  {
    ToFixedNearest(s.median, 4);
  }
}
