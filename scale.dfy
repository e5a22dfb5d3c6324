/** Score scaling used by the ensembles: min-max, z-score (raw and through a
    sigmoid), percentile, and the per-result dispatcher. NumPy's `std`, the
    logistic function and `percentile` are parameters (`Numerics`). */
module Scale {
  import opened Wrappers
  import opened Lists
  import opened Hits

  /** The numerical routines the module calls into NumPy for. */
  datatype Numerics = Numerics(
    std: seq<real> -> real,
    sigmoid: real -> real,
    percentile: (seq<real>, real) -> real)

  function Min(xs: seq<real>): (m: real)
    requires xs != []
    ensures m in xs && forall i | 0 <= i < |xs| :: m <= xs[i]
  {
    if |xs| == 1 then xs[0]
    else
      var m := Min(xs[1..]);
      assert forall i | 1 <= i < |xs| :: xs[1..][i - 1] == xs[i];
      if xs[0] <= m then xs[0] else m
  }

  function Max(xs: seq<real>): (m: real)
    requires xs != []
    ensures m in xs && forall i | 0 <= i < |xs| :: xs[i] <= m
  {
    if |xs| == 1 then xs[0]
    else
      var m := Max(xs[1..]);
      assert forall i | 1 <= i < |xs| :: xs[1..][i - 1] == xs[i];
      if xs[0] >= m then xs[0] else m
  }

  function Mean(xs: seq<real>): real
    requires xs != []
  {
    Sum(xs) / (|xs| as real)
  }

  function Constant(n: nat, v: real): (r: seq<real>)
    ensures |r| == n && forall i | 0 <= i < n :: r[i] == v
  {
    seq(n, i => v)
  }

  /** Where `x` falls between `lo` (0.0) and `hi` (1.0). */
  function Rescale(x: real, lo: real, hi: real): real
    requires hi != lo
  {
    (x - lo) / (hi - lo)
  }

  /** `(x - mean) / std`. */
  function Standardize(x: real, mean: real, sd: real): real
    requires sd != 0.0
  {
    (x - mean) / sd
  }

  /** `min_max_scale(scores, min_val, max_val)`. */
  function MinMaxScale(scores: seq<real>, minVal: Option<real>, maxVal: Option<real>): (r: seq<real>)
    ensures |r| == |scores|
  {
    if scores == [] then []
    else
      var lo := minVal.GetOr(Min(scores));
      var hi := maxVal.GetOr(Max(scores));
      if hi == lo then Constant(|scores|, 1.0)
      else seq(|scores|, i requires 0 <= i < |scores| => Rescale(scores[i], lo, hi))
  }

  /** `min_max_scale(scores)` as every caller in the core uses it. */
  function MinMax(scores: seq<real>): (r: seq<real>)
    ensures |r| == |scores|
  {
    MinMaxScale(scores, None, None)
  }

  /** Element `i` of `min_max_scale(scores)`. */
  lemma MinMaxAt(scores: seq<real>, i: nat)
    requires i < |scores|
    ensures MinMax(scores)[i] ==
      if Max(scores) == Min(scores) then 1.0 else Rescale(scores[i], Min(scores), Max(scores))
  {
  }

  /** Min-max scaling maps every score into [0, 1]. */
  lemma MinMaxInUnit(scores: seq<real>, i: nat)
    requires i < |scores|
    ensures 0.0 <= MinMax(scores)[i] <= 1.0
  {
    MinMaxAt(scores, i);
    if Max(scores) != Min(scores) {
      DivBounds(scores[i] - Min(scores), Max(scores) - Min(scores));
    }
  }

  /** Min-max scaling keeps the order of scores, strictly when they differ. */
  lemma MinMaxMonotone(scores: seq<real>, i: nat, j: nat)
    requires i < |scores| && j < |scores| && scores[i] <= scores[j]
    ensures MinMax(scores)[i] <= MinMax(scores)[j]
    ensures scores[i] < scores[j] ==> MinMax(scores)[i] < MinMax(scores)[j]
  {
    MinMaxAt(scores, i);
    MinMaxAt(scores, j);
    var lo, hi := Min(scores), Max(scores);
    if hi != lo {
      DivMonotone(scores[i] - lo, scores[j] - lo, hi - lo);
      if scores[i] < scores[j] {
        DivStrict(scores[i] - lo, scores[j] - lo, hi - lo);
      }
    }
  }

  /** A list of equal scores maps to all 1.0. */
  lemma MinMaxConstant(scores: seq<real>, i: nat)
    requires i < |scores|
    requires forall k | 0 <= k < |scores| :: scores[k] == scores[0]
    ensures MinMax(scores)[i] == 1.0
  {
    MinMaxAt(scores, i);
    assert Min(scores) == scores[0] && Max(scores) == scores[0];
  }

  lemma MinBelowMax(scores: seq<real>, k: nat)
    requires k < |scores| && scores[k] != scores[0]
    ensures Min(scores) < Max(scores)
  {
    assert Min(scores) <= scores[k] <= Max(scores);
    assert Min(scores) <= scores[0] <= Max(scores);
  }

  lemma RescaleEnds(lo: real, hi: real)
    requires lo < hi
    ensures Rescale(lo, lo, hi) == 0.0 && Rescale(hi, lo, hi) == 1.0
  {
    var d := hi - lo;
    assert d / d == 1.0;
  }

  /** When the scores differ, the minimum maps to 0.0 and the maximum to 1.0. */
  lemma MinMaxExtremes(scores: seq<real>, i: nat, k: nat)
    requires i < |scores| && k < |scores| && scores[k] != scores[0]
    ensures scores[i] == Min(scores) ==> MinMax(scores)[i] == 0.0
    ensures scores[i] == Max(scores) ==> MinMax(scores)[i] == 1.0
  {
    MinMaxAt(scores, i);
    MinBelowMax(scores, k);
    RescaleEnds(Min(scores), Max(scores));
  }

  lemma DivBounds(a: real, d: real)
    requires 0.0 <= a <= d && d > 0.0
    ensures 0.0 <= a / d <= 1.0
  {
  }

  lemma DivMonotone(a: real, b: real, d: real)
    requires a <= b && d > 0.0
    ensures a / d <= b / d
  {
  }

  lemma DivStrict(a: real, b: real, d: real)
    requires a < b && d > 0.0
    ensures a / d < b / d
  {
  }

  /** `z_score_normalize(scores, mean, std)`: z-scores, all 0.0 when the spread is 0. */
  function ZScoreNormalize(scores: seq<real>, mean: Option<real>, std: Option<real>, num: Numerics): (r: seq<real>)
    ensures |r| == |scores|
  {
    if scores == [] then []
    else
      var m := mean.GetOr(Mean(scores));
      var sd := std.GetOr(num.std(scores));
      if sd == 0.0 then Constant(|scores|, 0.0)
      else seq(|scores|, i requires 0 <= i < |scores| => Standardize(scores[i], m, sd))
  }

  /** `z_score_normalize(scores)` as every caller in the core uses it. */
  function ZScores(scores: seq<real>, num: Numerics): (r: seq<real>)
    ensures |r| == |scores|
  {
    ZScoreNormalize(scores, None, None, num)
  }

  function Scaled(xs: seq<real>, c: real, d: real): (r: seq<real>)
    requires d != 0.0
    ensures |r| == |xs| && forall i | 0 <= i < |xs| :: r[i] == Standardize(xs[i], c, d)
  {
    seq(|xs|, i requires 0 <= i < |xs| => Standardize(xs[i], c, d))
  }

  lemma {:induction false} SumScaled(xs: seq<real>, c: real, d: real)
    requires d != 0.0
    decreases |xs|
    ensures Sum(Scaled(xs, c, d)) == Standardize(Sum(xs), (|xs| as real) * c, d)
  {
    if xs != [] {
      var init := xs[..|xs| - 1];
      var x := xs[|xs| - 1];
      SumScaled(init, c, d);
      assert Scaled(xs, c, d)[..|xs| - 1] == Scaled(init, c, d);
      assert Sum(Scaled(xs, c, d)) == Sum(Scaled(init, c, d)) + Standardize(x, c, d);
      ScaledStep(Sum(init), x, Sum(xs), |init| as real, |xs| as real, c, d);
    }
  }

  /** The arithmetic of one step of `SumScaled`. */
  lemma ScaledStep(s: real, x: real, t: real, n: real, m: real, c: real, d: real)
    requires d != 0.0 && t == s + x && m == n + 1.0
    ensures Standardize(s, n * c, d) + Standardize(x, c, d) == Standardize(t, m * c, d)
  {
    DivAdd(s - n * c, x - c, d);
    assert (s - n * c) + (x - c) == t - m * c;
  }

  lemma DivAdd(a: real, b: real, d: real)
    requires d != 0.0
    ensures a / d + b / d == (a + b) / d
  {
  }

  /** The z-scores of a non-constant list sum to zero. */
  lemma ZScoresSumToZero(scores: seq<real>, num: Numerics)
    requires scores != [] && num.std(scores) != 0.0
    ensures Sum(ZScores(scores, num)) == 0.0
  {
    var m := Mean(scores);
    var sd := num.std(scores);
    assert ZScores(scores, num) == Scaled(scores, m, sd);
    SumScaled(scores, m, sd);
    assert (|scores| as real) * m == Sum(scores);
  }

  /** `z_score_scale(scores, mean, std)`: z-scores passed through the logistic
      function; all 1.0 when the spread is 0. */
  function ZScoreScale(scores: seq<real>, mean: Option<real>, std: Option<real>, num: Numerics): (r: seq<real>)
    ensures |r| == |scores|
  {
    if scores == [] then []
    else
      var m := mean.GetOr(Mean(scores));
      var sd := std.GetOr(num.std(scores));
      if sd == 0.0 then Constant(|scores|, 1.0)
      else seq(|scores|, i requires 0 <= i < |scores| => num.sigmoid(Standardize(scores[i], m, sd)))
  }

  /** With a logistic function into [0, 1] that is increasing, the sigmoid
      scaling stays in [0, 1] and keeps the order of scores when `std > 0`. */
  lemma ZScoreScaleProperties(scores: seq<real>, num: Numerics)
    requires forall x: real :: 0.0 <= num.sigmoid(x) <= 1.0
    requires forall x: real, y: real :: x <= y ==> num.sigmoid(x) <= num.sigmoid(y)
    ensures forall i | 0 <= i < |scores| :: 0.0 <= ZScoreScale(scores, None, None, num)[i] <= 1.0
    ensures scores != [] && num.std(scores) > 0.0 ==>
      forall i, j | 0 <= i < |scores| && 0 <= j < |scores| :: scores[i] <= scores[j] ==>
        ZScoreScale(scores, None, None, num)[i] <= ZScoreScale(scores, None, None, num)[j]
  {
    if scores != [] && num.std(scores) > 0.0 {
      var m, sd := Mean(scores), num.std(scores);
      forall i, j | 0 <= i < |scores| && 0 <= j < |scores| && scores[i] <= scores[j]
        ensures ZScoreScale(scores, None, None, num)[i] <= ZScoreScale(scores, None, None, num)[j]
      {
        DivMonotone(scores[i] - m, scores[j] - m, sd);
      }
    }
  }

  function Clip01(x: real): (r: real)
    ensures 0.0 <= r <= 1.0
    ensures 0.0 <= x <= 1.0 ==> r == x
  {
    if x < 0.0 then 0.0 else if x > 1.0 then 1.0 else x
  }

  /** `percentile_scale(scores, percentile)`: the `percentile * 100`-th
      percentile maps to 1.0, the minimum to 0.0, the rest is clipped. */
  function PercentileScale(scores: seq<real>, percentile: real, num: Numerics): (r: seq<real>)
    ensures |r| == |scores|
    ensures forall i | 0 <= i < |r| :: 0.0 <= r[i] <= 1.0
  {
    if scores == [] then []
    else
      var hi := num.percentile(scores, percentile * 100.0);
      var lo := Min(scores);
      if hi == lo then Constant(|scores|, 1.0)
      else seq(|scores|, i requires 0 <= i < |scores| => Clip01(Rescale(scores[i], lo, hi)))
  }

  /** Percentile scaling keeps the order of scores, and sends the minimum to
      0.0 and every score at or above the percentile to 1.0 (a percentile
      of the scores is never below their minimum). */
  lemma PercentileMonotone(scores: seq<real>, percentile: real, num: Numerics, i: nat, j: nat)
    requires i < |scores| && j < |scores| && scores[i] <= scores[j]
    requires num.percentile(scores, percentile * 100.0) >= Min(scores)
    ensures PercentileScale(scores, percentile, num)[i] <= PercentileScale(scores, percentile, num)[j]
    ensures scores[i] == Min(scores) && num.percentile(scores, percentile * 100.0) != Min(scores)
      ==> PercentileScale(scores, percentile, num)[i] == 0.0
    ensures scores[j] >= num.percentile(scores, percentile * 100.0) ==> PercentileScale(scores, percentile, num)[j] == 1.0
  {
    var hi := num.percentile(scores, percentile * 100.0);
    var lo := Min(scores);
    PercentileAt(scores, percentile, num, i);
    PercentileAt(scores, percentile, num, j);
    if hi != lo {
      RescaleMonotone(scores[i], scores[j], lo, hi);
      RescaleEnds(lo, hi);
      if scores[j] >= hi {
        RescaleMonotone(hi, scores[j], lo, hi);
      }
    }
  }

  lemma RescaleMonotone(x: real, y: real, lo: real, hi: real)
    requires lo < hi && x <= y
    ensures Rescale(x, lo, hi) <= Rescale(y, lo, hi)
  {
    DivMonotone(x - lo, y - lo, hi - lo);
  }

  lemma PercentileAt(scores: seq<real>, percentile: real, num: Numerics, i: nat)
    requires i < |scores|
    ensures var hi, lo := num.percentile(scores, percentile * 100.0), Min(scores);
      PercentileScale(scores, percentile, num)[i] == if hi == lo then 1.0 else Clip01(Rescale(scores[i], lo, hi))
  {
  }

  /** The scaling `scale_search_results` picks for `method`; an unknown name falls back to min-max. */
  function ScaleScores(scores: seq<real>, scaleMethod: string, num: Numerics): (r: seq<real>)
    ensures |r| == |scores|
  {
    if scaleMethod == "min_max" then MinMax(scores)
    else if scaleMethod == "z_score" then ZScoreScale(scores, None, None, num)
    else if scaleMethod == "percentile" then PercentileScale(scores, 0.95, num)
    else MinMax(scores)
  }

  lemma UnknownMethodIsMinMax(scores: seq<real>, scaleMethod: string, num: Numerics)
    requires scaleMethod != "z_score" && scaleMethod != "percentile"
    ensures ScaleScores(scores, scaleMethod, num) == MinMax(scores)
  {
  }

  /** `scale_search_results(results, method)`: the same hits in the same order,
      each carrying its scaled score. */
  method ScaleSearchResults(results: seq<Hit>, scaleMethod: string, num: Numerics) returns (scaled: seq<Hit>)
    ensures |scaled| == |results|
    ensures forall i | 0 <= i < |results| ::
      scaled[i] == results[i].(score := ScaleScores(Scores(results), scaleMethod, num)[i])
    ensures scaleMethod != "z_score" && scaleMethod != "percentile" ==>
      forall i | 0 <= i < |scaled| :: 0.0 <= scaled[i].score <= 1.0
  {
    if results == [] {
      return [];
    }
    var scores := Scores(results);
    var s := ScaleScores(scores, scaleMethod, num);
    scaled := [];
    var i := 0;
    while i < |results|
      invariant 0 <= i <= |results|
      invariant |scaled| == i
      invariant forall k | 0 <= k < i :: scaled[k] == results[k].(score := s[k])
    {
      scaled := scaled + [results[i].(score := s[i])];
      i := i + 1;
    }
    forall k | 0 <= k < |scaled| ensures scaleMethod != "z_score" && scaleMethod != "percentile" ==> 0.0 <= scaled[k].score <= 1.0 {
      MinMaxInUnit(scores, k);
    }
  }
}
