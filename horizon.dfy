/**
 * `estimate_horizon` (`pipeline/fit.py`): bins the observations of one group by duration,
 * computes the success rate per bin, smooths it into a non-increasing profile and reads off
 * the duration at which success crosses 50%.
 */
module Horizon {
  import opened Wrappers
  import opened Sorting
  import opened Numerics
  import Transform

  /** One row of the success curve; `log2Minutes` is the bin and `minutes` is `2 ** bin`. */
  datatype CurvePoint = CurvePoint(log2Minutes: int, minutes: real, success: real, successSmoothed: real)

  // ---------------------------------------------------------------------------
  // Binning (fit.py:30-34)

  /** Whether a record takes part in the estimate: rows with non-positive duration are skipped. */
  predicate Timed(row: Transform.Record)
  {
    row.humanMinutes > 0.0
  }

  /** The `bins` dictionary after the loop: binary scores appended under the row's bin. */
  function Bins(points: seq<Transform.Record>, binOf: real -> int): (bins: map<int, seq<int>>)
    ensures forall k :: k in bins ==> bins[k] != []
  {
    if points == [] then map[]
    else
      var bins := Bins(points[..|points| - 1], binOf);
      var row := points[|points| - 1];
      if !Timed(row) then bins
      else
        var k := binOf(row.humanMinutes);
        bins[k := (if k in bins then bins[k] else []) + [row.scoreBinarized]]
  }

  /** The binary scores of the timed rows whose bin is `k`, in row order. */
  function BinScores(points: seq<Transform.Record>, binOf: real -> int, k: int): seq<int>
  {
    if points == [] then []
    else
      var row := points[|points| - 1];
      BinScores(points[..|points| - 1], binOf, k)
      + (if Timed(row) && binOf(row.humanMinutes) == k then [row.scoreBinarized] else [])
  }

  /** A bin holds exactly the scores of the timed rows that fall into it, in row order. */
  lemma {:induction false} BinsGroupRows(points: seq<Transform.Record>, binOf: real -> int, k: int)
    ensures k in Bins(points, binOf) <==> BinScores(points, binOf, k) != []
    ensures k in Bins(points, binOf) ==> Bins(points, binOf)[k] == BinScores(points, binOf, k)
    ensures BinScores(points, binOf, k) != [] <==>
      exists i :: 0 <= i < |points| && Timed(points[i]) && binOf(points[i].humanMinutes) == k
  {
    if points != [] {
      var prefix := points[..|points| - 1];
      BinsGroupRows(prefix, binOf, k);
      assert forall i :: 0 <= i < |prefix| ==> prefix[i] == points[i];
    }
  }

  /** There is no bin exactly when no row has a positive duration. */
  lemma NoBinsWithoutTimedRows(points: seq<Transform.Record>, binOf: real -> int)
    ensures Bins(points, binOf) == map[] <==> forall i :: 0 <= i < |points| ==> !Timed(points[i])
  {
    if exists i :: 0 <= i < |points| && Timed(points[i]) {
      var i :| 0 <= i < |points| && Timed(points[i]);
      BinsGroupRows(points, binOf, binOf(points[i].humanMinutes));
    } else {
      forall k
        ensures k !in Bins(points, binOf)
      {
        BinsGroupRows(points, binOf, k);
      }
    }
  }

  // ---------------------------------------------------------------------------
  // The raw curve (fit.py:39-43)

  function Sum(ys: seq<int>): int
  {
    if ys == [] then 0 else ys[0] + Sum(ys[1..])
  }

  /** `sum(ys) / len(ys)` */
  function Mean(ys: seq<int>): real
    requires ys != []
  {
    Sum(ys) as real / |ys| as real
  }

  predicate Binary(ys: seq<int>)
  {
    forall i :: 0 <= i < |ys| ==> ys[i] == 0 || ys[i] == 1
  }

  /** On 0/1 scores the sum counts the successes. */
  lemma {:induction false} SumOfBinary(ys: seq<int>)
    requires Binary(ys)
    ensures Sum(ys) == multiset(ys)[1]
    ensures 0 <= Sum(ys) <= |ys|
  {
    if ys != [] {
      assert Binary(ys[1..]);
      SumOfBinary(ys[1..]);
      assert ys == [ys[0]] + ys[1..];
      assert multiset(ys) == multiset{ys[0]} + multiset(ys[1..]);
    }
  }

  /** On 0/1 scores the mean is the success fraction, a value in [0, 1]. */
  lemma MeanOfBinary(ys: seq<int>)
    requires ys != [] && Binary(ys)
    ensures Mean(ys) == multiset(ys)[1] as real / |ys| as real
    ensures 0.0 <= Mean(ys) <= 1.0
  {
    SumOfBinary(ys);
  }

  /** The point of bin `k` before smoothing; its smoothed value is still the raw one. */
  function RawPoint(k: int, ys: seq<int>): CurvePoint
    requires ys != []
  {
    CurvePoint(k, Pow2(k), Mean(ys), Mean(ys))
  }

  /** One raw point per key, in the order of `keys`. */
  function RawCurve(bins: map<int, seq<int>>, keys: seq<int>): (curve: seq<CurvePoint>)
    requires forall k :: k in bins ==> bins[k] != []
    requires forall i :: 0 <= i < |keys| ==> keys[i] in bins
    ensures |curve| == |keys|
    ensures forall i :: 0 <= i < |keys| ==> curve[i] == RawPoint(keys[i], bins[keys[i]])
  {
    seq(|keys|, i requires 0 <= i < |keys| => RawPoint(keys[i], bins[keys[i]]))
  }

  // ---------------------------------------------------------------------------
  // Smoothing (fit.py:46-49)

  /** The value of `running` after the first `n` points: 1.0 lowered to each success in turn. */
  function RunningMin(curve: seq<CurvePoint>, n: nat): real
    requires n <= |curve|
  {
    if n == 0 then 1.0 else Min(RunningMin(curve, n - 1), curve[n - 1].success)
  }

  /** The running value is the least of 1.0 and the successes seen so far. */
  lemma {:induction false} RunningMinIsLeast(curve: seq<CurvePoint>, n: nat)
    requires n <= |curve|
    ensures RunningMin(curve, n) <= 1.0
    ensures forall j :: 0 <= j < n ==> RunningMin(curve, n) <= curve[j].success
    ensures RunningMin(curve, n) == 1.0 || exists j :: 0 <= j < n && RunningMin(curve, n) == curve[j].success
  {
    if n > 0 {
      RunningMinIsLeast(curve, n - 1);
    }
  }

  /** The curve with each point's smoothed value set to the running minimum up to it. */
  function Smooth(raw: seq<CurvePoint>): (curve: seq<CurvePoint>)
    ensures |curve| == |raw|
    ensures forall i :: 0 <= i < |raw| ==> curve[i] == raw[i].(successSmoothed := RunningMin(raw, i + 1))
  {
    seq(|raw|, i requires 0 <= i < |raw| => raw[i].(successSmoothed := RunningMin(raw, i + 1)))
  }

  /** `sorted(keys)` for a set of bins. */
  ghost function SortedKeys(keys: set<int>): (r: seq<int>)
    ensures forall i, j :: 0 <= i < j < |r| ==> r[i] < r[j]
    ensures forall k :: k in r <==> k in keys
    ensures |r| == |keys|
  {
    IntLeTotalOrder();
    SortedSet(keys, IntLe)
  }

  /** The curve `estimate_horizon` returns for `points`. */
  ghost function CurveOf(points: seq<Transform.Record>, binOf: real -> int): seq<CurvePoint>
  {
    var bins := Bins(points, binOf);
    Smooth(RawCurve(bins, SortedKeys(bins.Keys)))
  }

  // ---------------------------------------------------------------------------
  // Choosing the horizon (fit.py:57-70) and the slope (fit.py:72-76)

  predicate AllAtLeastHalf(curve: seq<CurvePoint>)
  {
    forall i :: 0 <= i < |curve| ==> curve[i].successSmoothed >= 0.5
  }

  predicate AllBelowHalf(curve: seq<CurvePoint>)
  {
    forall i :: 0 <= i < |curve| ==> curve[i].successSmoothed < 0.5
  }

  /** Points `i` and `i + 1` straddle 50% going down. */
  predicate IsCrossing(curve: seq<CurvePoint>, i: nat)
    requires i + 1 < |curve|
  {
    curve[i].successSmoothed >= 0.5 && curve[i + 1].successSmoothed < 0.5
  }

  /** The first crossing at or after `from`, as the scan with `break` finds it. */
  function FirstCrossing(curve: seq<CurvePoint>, from: nat): (r: Option<nat>)
    ensures r.Some? ==> from <= r.value && r.value + 1 < |curve| && IsCrossing(curve, r.value)
    ensures r.Some? ==> forall k :: from <= k < r.value ==> !IsCrossing(curve, k)
    ensures r.None? ==> forall k :: from <= k && k + 1 < |curve| ==> !IsCrossing(curve, k)
    decreases |curve| - from
  {
    if from + 1 >= |curve| then None
    else if IsCrossing(curve, from) then Some(from)
    else FirstCrossing(curve, from + 1)
  }

  /** `(a.success_smoothed - 0.5) / max(a.success_smoothed - b.success_smoothed, 1e-6)` */
  function Fraction(a: CurvePoint, b: CurvePoint): real
  {
    (a.successSmoothed - 0.5) / Max(a.successSmoothed - b.successSmoothed, 0.000001)
  }

  /** `log2_h`: the bin of `a` moved the fraction of the way towards the bin of `b`. */
  function CrossingLog2(a: CurvePoint, b: CurvePoint): real
  {
    a.log2Minutes as real + Fraction(a, b) * (b.log2Minutes - a.log2Minutes) as real
  }

  /** The horizon for a finished curve: censored on either side, else the first crossing. */
  function HorizonOf(curve: seq<CurvePoint>, exp2: real -> real): real
  {
    if curve == [] then 0.0
    else if AllAtLeastHalf(curve) then curve[|curve| - 1].minutes
    else if AllBelowHalf(curve) then curve[0].minutes
    else
      match FirstCrossing(curve, 0)
      case Some(i) => exp2(CrossingLog2(curve[i], curve[i + 1]))
      case None => curve[0].minutes
  }

  function Xs(curve: seq<CurvePoint>): seq<real>
  {
    seq(|curve|, i requires 0 <= i < |curve| => curve[i].log2Minutes as real)
  }

  function Ys(curve: seq<CurvePoint>): seq<real>
  {
    seq(|curve|, i requires 0 <= i < |curve| => curve[i].success)
  }

  /** The fitted slope of raw success against the bin, or 0.0 below two bins. */
  function SlopeOf(curve: seq<CurvePoint>, polyfitSlope: (seq<real>, seq<real>) -> real): real
  {
    if |curve| >= 2 then polyfitSlope(Xs(curve), Ys(curve)) else 0.0
  }

  // ---------------------------------------------------------------------------
  // The estimator

  /** The binning loop of fit.py:30-34. */
  method BinPoints(points: seq<Transform.Record>, binOf: real -> int) returns (bins: map<int, seq<int>>)
    ensures bins == Bins(points, binOf)
  {
    bins := map[];
    for i := 0 to |points|
      invariant bins == Bins(points[..i], binOf)
    {
      assert points[..i + 1][..i] == points[..i];
      var row := points[i];
      if row.humanMinutes <= 0.0 {
        continue;
      }
      var k := binOf(row.humanMinutes);
      bins := bins[k := (if k in bins then bins[k] else []) + [row.scoreBinarized]];
    }
    assert points[..|points|] == points;
  }

  /** The curve-building loop of fit.py:39-43: one raw point per bin, in ascending bin order. */
  method BuildCurve(bins: map<int, seq<int>>) returns (curve: seq<CurvePoint>)
    requires forall k :: k in bins ==> bins[k] != []
    ensures curve == RawCurve(bins, SortedKeys(bins.Keys))
  {
    IntLeTotalOrder();
    var keys := SortSet(bins.Keys, IntLe);
    assert keys == SortedKeys(bins.Keys);
    curve := [];
    for j := 0 to |keys|
      invariant |curve| == j
      invariant forall k :: 0 <= k < j ==> curve[k] == RawPoint(keys[k], bins[keys[k]])
    {
      assert keys[j] in bins;
      var ys := bins[keys[j]];
      var success := Sum(ys) as real / |ys| as real;
      assert CurvePoint(keys[j], Pow2(keys[j]), success, success) == RawPoint(keys[j], ys);
      curve := curve + [CurvePoint(keys[j], Pow2(keys[j]), success, success)];
    }
    assert forall i :: 0 <= i < |keys| ==> keys[i] in bins;
    var raw := RawCurve(bins, keys);
    assert |raw| == |curve|;
    assert forall i :: 0 <= i < |keys| ==> curve[i] == raw[i];
  }

  /** The smoothing loop of fit.py:46-49, updating the points in place. */
  method SmoothCurve(raw: seq<CurvePoint>) returns (curve: seq<CurvePoint>)
    ensures curve == Smooth(raw)
  {
    curve := raw;
    var running := 1.0;
    for j := 0 to |curve|
      invariant |curve| == |raw|
      invariant running == RunningMin(raw, j)
      invariant forall k :: 0 <= k < j ==> curve[k] == raw[k].(successSmoothed := RunningMin(raw, k + 1))
      invariant forall k :: j <= k < |curve| ==> curve[k] == raw[k]
    {
      running := Min(running, curve[j].success);
      curve := curve[j := curve[j].(successSmoothed := running)];
    }
  }

  /** The censoring tests and the crossing scan of fit.py:57-70 on a non-empty curve. */
  method ChooseHorizon(curve: seq<CurvePoint>, exp2: real -> real) returns (horizon: real)
    requires curve != []
    ensures horizon == HorizonOf(curve, exp2)
  {
    if forall k :: 0 <= k < |curve| ==> curve[k].successSmoothed >= 0.5 {
      horizon := curve[|curve| - 1].minutes;
    } else if forall k :: 0 <= k < |curve| ==> curve[k].successSmoothed < 0.5 {
      horizon := curve[0].minutes;
    } else {
      horizon := curve[0].minutes;
      var i := 0;
      while i + 1 < |curve|
        invariant i <= |curve|
        invariant FirstCrossing(curve, i) == FirstCrossing(curve, 0)
        invariant horizon == curve[0].minutes
      {
        var a, b := curve[i], curve[i + 1];
        if a.successSmoothed >= 0.5 && b.successSmoothed < 0.5 {
          var span := Max(a.successSmoothed - b.successSmoothed, 0.000001);
          var frac := (a.successSmoothed - 0.5) / span;
          var log2H := a.log2Minutes as real + frac * (b.log2Minutes - a.log2Minutes) as real;
          horizon := exp2(log2H);
          assert IsCrossing(curve, i) && log2H == CrossingLog2(a, b);
          break;
        }
        i := i + 1;
      }
    }
  }

  /** `estimate_horizon(points)`: the horizon in minutes, the slope proxy and the curve. */
  method EstimateHorizon(points: seq<Transform.Record>, lib: Routines)
    returns (horizon: real, slope: real, curve: seq<CurvePoint>)
    ensures curve == CurveOf(points, lib.binOf)
    ensures horizon == HorizonOf(curve, lib.exp2)
    ensures slope == SlopeOf(curve, lib.polyfitSlope)
  {
    var bins := BinPoints(points, lib.binOf);
    if bins == map[] {
      assert SortedKeys(bins.Keys) == [];
      return 0.0, 0.0, [];
    }
    var raw := BuildCurve(bins);
    curve := SmoothCurve(raw);
    horizon := ChooseHorizon(curve, lib.exp2);
    slope := 0.0;
    if |curve| >= 2 {
      slope := lib.polyfitSlope(Xs(curve), Ys(curve));
    }
  }

  // ---------------------------------------------------------------------------
  // Properties of the curve

  /** Without a timed row there is no bin, the curve is empty and the result is (0.0, 0.0, []). */
  lemma EmptyWithoutTimedRows(points: seq<Transform.Record>, lib: Routines)
    ensures CurveOf(points, lib.binOf) == [] <==> forall i :: 0 <= i < |points| ==> !Timed(points[i])
    ensures CurveOf(points, lib.binOf) == [] ==>
      HorizonOf(CurveOf(points, lib.binOf), lib.exp2) == 0.0 && SlopeOf(CurveOf(points, lib.binOf), lib.polyfitSlope) == 0.0
  {
    var bins := Bins(points, lib.binOf);
    NoBinsWithoutTimedRows(points, lib.binOf);
    var keys := bins.Keys;
    if keys != {} {
      assert |SortedKeys(keys)| > 0;
    } else {
      assert bins == map[];
    }
  }

  /** Some point of the curve is at bin `k`. */
  predicate HasBin(curve: seq<CurvePoint>, k: int)
  {
    exists i :: 0 <= i < |curve| && curve[i].log2Minutes == k
  }

  /** Some timed row falls into bin `k`. */
  predicate HasTimedRow(points: seq<Transform.Record>, binOf: real -> int, k: int)
  {
    exists r :: 0 <= r < |points| && Timed(points[r]) && binOf(points[r].humanMinutes) == k
  }

  /**
   * The curve has one point per bin that some timed row falls into, in strictly ascending bin
   * order; each point's minutes are `2 ** bin` and its success is the mean of that bin's scores.
   */
  lemma CurveBins(points: seq<Transform.Record>, binOf: real -> int)
    ensures var curve := CurveOf(points, binOf);
      && (forall i, j :: 0 <= i < j < |curve| ==> curve[i].log2Minutes < curve[j].log2Minutes)
      && (forall i :: 0 <= i < |curve| ==> curve[i].minutes == Pow2(curve[i].log2Minutes))
      && (forall k :: HasBin(curve, k) <==> HasTimedRow(points, binOf, k))
      && (forall i :: 0 <= i < |curve| ==>
            BinScores(points, binOf, curve[i].log2Minutes) != []
            && curve[i].success == Mean(BinScores(points, binOf, curve[i].log2Minutes)))
  {
    var bins := Bins(points, binOf);
    var keys := SortedKeys(bins.Keys);
    var curve := CurveOf(points, binOf);
    assert forall i :: 0 <= i < |curve| ==> curve[i].log2Minutes == keys[i];
    forall k
      ensures HasBin(curve, k) <==> HasTimedRow(points, binOf, k)
    {
      BinsGroupRows(points, binOf, k);
      if k in bins {
        var i :| 0 <= i < |keys| && keys[i] == k;
        assert curve[i].log2Minutes == k;
      }
    }
    forall i | 0 <= i < |curve|
      ensures BinScores(points, binOf, curve[i].log2Minutes) != []
      ensures curve[i].success == Mean(BinScores(points, binOf, curve[i].log2Minutes))
    {
      BinsGroupRows(points, binOf, keys[i]);
    }
  }

  predicate BinaryScores(points: seq<Transform.Record>)
  {
    forall i :: 0 <= i < |points| ==> points[i].scoreBinarized == 0 || points[i].scoreBinarized == 1
  }

  lemma {:induction false} BinScoresBinary(points: seq<Transform.Record>, binOf: real -> int, k: int)
    requires BinaryScores(points)
    ensures Binary(BinScores(points, binOf, k))
  {
    if points != [] {
      BinScoresBinary(points[..|points| - 1], binOf, k);
    }
  }

  /** With 0/1 scores, each success is the fraction of successful rows in its bin, within [0, 1]. */
  lemma SuccessIsFraction(points: seq<Transform.Record>, binOf: real -> int)
    requires BinaryScores(points)
    ensures var curve := CurveOf(points, binOf);
      forall i :: 0 <= i < |curve| ==>
        var ys := BinScores(points, binOf, curve[i].log2Minutes);
        ys != [] && curve[i].success == multiset(ys)[1] as real / |ys| as real
        && 0.0 <= curve[i].success <= 1.0
  {
    var curve := CurveOf(points, binOf);
    CurveBins(points, binOf);
    forall i | 0 <= i < |curve|
      ensures var ys := BinScores(points, binOf, curve[i].log2Minutes);
        ys != [] && curve[i].success == multiset(ys)[1] as real / |ys| as real
        && 0.0 <= curve[i].success <= 1.0
    {
      BinScoresBinary(points, binOf, curve[i].log2Minutes);
      MeanOfBinary(BinScores(points, binOf, curve[i].log2Minutes));
    }
  }

  lemma {:induction false} RunningMinDecreasing(curve: seq<CurvePoint>, m: nat, n: nat)
    requires m <= n <= |curve|
    ensures RunningMin(curve, n) <= RunningMin(curve, m)
    decreases n - m
  {
    if m < n {
      RunningMinDecreasing(curve, m, n - 1);
    }
  }

  /**
   * Smoothing keeps every bin, duration and raw success, and sets each smoothed value to the
   * least of 1.0 and the raw successes up to that point: non-increasing along the curve, at most
   * the point's own success and at most 1.0.
   */
  lemma SmoothedProfile(raw: seq<CurvePoint>)
    ensures var curve := Smooth(raw);
      && (forall i :: 0 <= i < |curve| ==>
            curve[i].log2Minutes == raw[i].log2Minutes && curve[i].minutes == raw[i].minutes
            && curve[i].success == raw[i].success)
      && (forall i, j :: 0 <= i < j < |curve| ==> curve[j].successSmoothed <= curve[i].successSmoothed)
      && (forall i :: 0 <= i < |curve| ==> curve[i].successSmoothed <= curve[i].success)
      && (forall i :: 0 <= i < |curve| ==> curve[i].successSmoothed <= 1.0)
      && (forall i, j :: 0 <= j <= i < |curve| ==> curve[i].successSmoothed <= raw[j].success)
      && (forall i :: 0 <= i < |curve| ==>
            curve[i].successSmoothed == 1.0
            || exists j :: 0 <= j <= i && curve[i].successSmoothed == raw[j].success)
  {
    var curve := Smooth(raw);
    forall i, j | 0 <= i < j < |curve|
      ensures curve[j].successSmoothed <= curve[i].successSmoothed
    {
      RunningMinDecreasing(raw, i + 1, j + 1);
    }
    forall i | 0 <= i < |curve|
      ensures curve[i].successSmoothed <= 1.0
      ensures forall j :: 0 <= j <= i ==> curve[i].successSmoothed <= raw[j].success
      ensures curve[i].successSmoothed == 1.0
        || exists j :: 0 <= j <= i && curve[i].successSmoothed == raw[j].success
    {
      RunningMinIsLeast(raw, i + 1);
    }
  }

  /** A curve as the estimator builds it. */
  predicate Shaped(curve: seq<CurvePoint>)
  {
    && (forall i, j :: 0 <= i < j < |curve| ==> curve[i].log2Minutes < curve[j].log2Minutes)
    && (forall i :: 0 <= i < |curve| ==> curve[i].minutes == Pow2(curve[i].log2Minutes))
    && (forall i, j :: 0 <= i < j < |curve| ==> curve[j].successSmoothed <= curve[i].successSmoothed)
    && (forall i :: 0 <= i < |curve| ==> curve[i].successSmoothed <= curve[i].success)
  }

  lemma CurveOfShaped(points: seq<Transform.Record>, binOf: real -> int)
    ensures Shaped(CurveOf(points, binOf))
  {
    var bins := Bins(points, binOf);
    SmoothedProfile(RawCurve(bins, SortedKeys(bins.Keys)));
  }

  /** Along a shaped curve the durations ascend. */
  lemma MinutesAscend(curve: seq<CurvePoint>, i: nat, j: nat)
    requires Shaped(curve) && i <= j < |curve|
    ensures curve[i].minutes <= curve[j].minutes
  {
    if i < j {
      Pow2Increasing(curve[i].log2Minutes, curve[j].log2Minutes);
    }
  }

  /** The interpolation fraction of a descending crossing lies in [0, 1). */
  lemma FractionBounds(a: CurvePoint, b: CurvePoint)
    requires a.successSmoothed >= 0.5 && b.successSmoothed < 0.5
    ensures 0.0 <= Fraction(a, b) < 1.0
  {
    var span := Max(a.successSmoothed - b.successSmoothed, 0.000001);
    var num := a.successSmoothed - 0.5;
    assert 0.0 <= num < span;
    assert Fraction(a, b) * span == num;
  }

  /**
   * When the smoothed curve is neither all above nor all below 50%, the scan finds a crossing,
   * and it is the only one: every earlier point is at or above 50%, every later one below.
   */
  lemma CrossingExists(curve: seq<CurvePoint>)
    requires Shaped(curve) && !AllAtLeastHalf(curve) && !AllBelowHalf(curve)
    ensures FirstCrossing(curve, 0).Some?
    ensures var i := FirstCrossing(curve, 0).value;
      && (forall k :: 0 <= k <= i ==> curve[k].successSmoothed >= 0.5)
      && (forall k :: i < k < |curve| ==> curve[k].successSmoothed < 0.5)
  {
    var lo :| 0 <= lo < |curve| && curve[lo].successSmoothed < 0.5;
    var hi :| 0 <= hi < |curve| && curve[hi].successSmoothed >= 0.5;
    assert hi < lo;
    if FirstCrossing(curve, 0).None? {
      // the smoothed values would then stay at or above 50% all the way
      var k := 0;
      while k < lo
        invariant k <= lo && curve[k].successSmoothed >= 0.5
      {
        assert !IsCrossing(curve, k);
        k := k + 1;
      }
      assert false;
    }
  }

  /** The interpolated crossing lies in [a, b) for the bins a < b on either side of it. */
  lemma CrossingLog2Bounds(a: CurvePoint, b: CurvePoint)
    requires a.successSmoothed >= 0.5 && b.successSmoothed < 0.5 && a.log2Minutes < b.log2Minutes
    ensures a.log2Minutes as real <= CrossingLog2(a, b) < b.log2Minutes as real
  {
    FractionBounds(a, b);
    var frac := Fraction(a, b);
    var d := (b.log2Minutes - a.log2Minutes) as real;
    assert 0.0 <= frac * d < d by {
      assert frac * d < 1.0 * d;
    }
    assert CrossingLog2(a, b) == a.log2Minutes as real + frac * d;
    assert b.log2Minutes as real == a.log2Minutes as real + d;
  }

  /**
   * In the crossing case the horizon is `2 ** log2_h` for the interpolated crossing, so it lies
   * in [2 ** a, 2 ** b) for the bins a < b on either side of it.
   */
  lemma CrossingHorizon(curve: seq<CurvePoint>, exp2: real -> real)
    requires Shaped(curve) && !AllAtLeastHalf(curve) && !AllBelowHalf(curve)
    requires ValidExp2(exp2)
    ensures FirstCrossing(curve, 0).Some?
    ensures var i := FirstCrossing(curve, 0).value;
      && 0.0 <= Fraction(curve[i], curve[i + 1]) < 1.0
      && curve[i].log2Minutes as real <= CrossingLog2(curve[i], curve[i + 1]) < curve[i + 1].log2Minutes as real
      && curve[i].minutes <= HorizonOf(curve, exp2) < curve[i + 1].minutes
  {
    CrossingExists(curve);
    var i := FirstCrossing(curve, 0).value;
    var a, b := curve[i], curve[i + 1];
    FractionBounds(a, b);
    CrossingLog2Bounds(a, b);
    var log2H := CrossingLog2(a, b);
    assert HorizonOf(curve, exp2) == exp2(log2H);
    assert exp2(a.log2Minutes as real) == Pow2(a.log2Minutes);
    assert exp2(b.log2Minutes as real) == Pow2(b.log2Minutes);
    assert exp2(a.log2Minutes as real) <= exp2(log2H) < exp2(b.log2Minutes as real);
  }

  /**
   * The horizon of a non-empty curve lies within the observed durations: the last one when
   * every smoothed value is at least 50% (right-censored), the first when every one is below.
   */
  lemma HorizonWithinRange(curve: seq<CurvePoint>, exp2: real -> real)
    requires Shaped(curve) && curve != [] && ValidExp2(exp2)
    ensures AllAtLeastHalf(curve) ==> HorizonOf(curve, exp2) == curve[|curve| - 1].minutes
    ensures AllBelowHalf(curve) ==> HorizonOf(curve, exp2) == curve[0].minutes
    ensures curve[0].minutes <= HorizonOf(curve, exp2) <= curve[|curve| - 1].minutes
    ensures HorizonOf(curve, exp2) > 0.0
  {
    MinutesAscend(curve, 0, |curve| - 1);
    if !AllAtLeastHalf(curve) && !AllBelowHalf(curve) {
      CrossingHorizon(curve, exp2);
      var i := FirstCrossing(curve, 0).value;
      MinutesAscend(curve, 0, i);
      MinutesAscend(curve, i + 1, |curve| - 1);
    }
  }

  /** A first bin below 50% fixes the horizon at the shortest duration, whatever follows. */
  lemma LowFirstBinFixesHorizon(curve: seq<CurvePoint>, exp2: real -> real)
    requires Shaped(curve) && curve != [] && curve[0].success < 0.5
    ensures AllBelowHalf(curve)
    ensures HorizonOf(curve, exp2) == curve[0].minutes
  {
  }

  /** The horizon of a group with any timed row is positive and within the observed durations. */
  lemma EstimateWithinObservedDurations(points: seq<Transform.Record>, lib: Routines)
    requires ValidExp2(lib.exp2)
    requires exists r :: 0 <= r < |points| && Timed(points[r])
    ensures var curve := CurveOf(points, lib.binOf);
      curve != [] && 0.0 < curve[0].minutes <= HorizonOf(curve, lib.exp2) <= curve[|curve| - 1].minutes
  {
    EmptyWithoutTimedRows(points, lib);
    CurveOfShaped(points, lib.binOf);
    HorizonWithinRange(CurveOf(points, lib.binOf), lib.exp2);
  }

  /** A record that only carries a duration and a binary score. */
  function Observation(minutes: real, score: int): Transform.Record
  {
    Transform.Record("", "", "", "", "", "", minutes, score as real, score, None, None, "")
  }

  lemma FourDurationBins(binOf: real -> int)
    requires binOf(4.0) == 2 && binOf(8.0) == 3 && binOf(16.0) == 4 && binOf(32.0) == 5
    ensures Bins([Observation(4.0, 1), Observation(8.0, 1), Observation(16.0, 0), Observation(32.0, 0)], binOf)
      == map[2 := [1], 3 := [1], 4 := [0], 5 := [0]]
  {
    var o1, o2, o3, o4 := Observation(4.0, 1), Observation(8.0, 1), Observation(16.0, 0), Observation(32.0, 0);
    assert [o1][..0] == [];
    assert Bins([o1], binOf) == map[][2 := [] + [1]];
    assert [o1, o2][..1] == [o1];
    assert Bins([o1, o2], binOf) == Bins([o1], binOf)[3 := [] + [1]];
    assert [o1, o2, o3][..2] == [o1, o2];
    assert Bins([o1, o2, o3], binOf) == Bins([o1, o2], binOf)[4 := [] + [0]];
    assert [o1, o2, o3, o4][..3] == [o1, o2, o3];
    assert Bins([o1, o2, o3, o4], binOf) == Bins([o1, o2, o3], binOf)[5 := [] + [0]];
    assert [] + [1] == [1] && [] + [0] == [0];
  }

  lemma Pow2Small()
    ensures Pow2(2) == 4.0 && Pow2(3) == 8.0 && Pow2(4) == 16.0 && Pow2(5) == 32.0
  {
    assert Pow2(1) == 2.0;
  }

  /** Smoothing the test's raw curve changes nothing: its successes already descend. */
  lemma FourDurationSmooth()
    ensures Smooth([CurvePoint(2, 4.0, 1.0, 1.0), CurvePoint(3, 8.0, 1.0, 1.0), CurvePoint(4, 16.0, 0.0, 0.0), CurvePoint(5, 32.0, 0.0, 0.0)])
      == [CurvePoint(2, 4.0, 1.0, 1.0), CurvePoint(3, 8.0, 1.0, 1.0), CurvePoint(4, 16.0, 0.0, 0.0), CurvePoint(5, 32.0, 0.0, 0.0)]
  {
    var raw := [CurvePoint(2, 4.0, 1.0, 1.0), CurvePoint(3, 8.0, 1.0, 1.0), CurvePoint(4, 16.0, 0.0, 0.0), CurvePoint(5, 32.0, 0.0, 0.0)];
    assert RunningMin(raw, 1) == 1.0;
    assert RunningMin(raw, 2) == 1.0;
    assert RunningMin(raw, 3) == 0.0;
    assert RunningMin(raw, 4) == 0.0;
  }

  /** The curve of the estimator's test: four bins, successes 1, 1, 0, 0, already non-increasing. */
  lemma FourDurationCurve(binOf: real -> int)
    requires binOf(4.0) == 2 && binOf(8.0) == 3 && binOf(16.0) == 4 && binOf(32.0) == 5
    ensures CurveOf([Observation(4.0, 1), Observation(8.0, 1), Observation(16.0, 0), Observation(32.0, 0)], binOf)
      == [CurvePoint(2, 4.0, 1.0, 1.0), CurvePoint(3, 8.0, 1.0, 1.0), CurvePoint(4, 16.0, 0.0, 0.0), CurvePoint(5, 32.0, 0.0, 0.0)]
  {
    FourDurationBins(binOf);
    FourDurationKeys();
    FourDurationRaw();
    FourDurationSmooth();
  }

  lemma FourDurationKeys()
    ensures SortedKeys(map[2 := [1], 3 := [1], 4 := [0], 5 := [0]].Keys) == [2, 3, 4, 5]
  {
    var keys := map[2 := [1], 3 := [1], 4 := [0], 5 := [0]].Keys;
    assert keys == {2, 3, 4, 5};
    var r := SortedKeys(keys);
    assert |keys| == 4;
    assert r[0] in keys && r[3] in keys;
    assert r[0] < r[1] < r[2] < r[3];
    assert r[0] == 2 && r[1] == 3 && r[2] == 4 && r[3] == 5;
  }

  lemma FourDurationRaw()
    ensures RawCurve(map[2 := [1], 3 := [1], 4 := [0], 5 := [0]], [2, 3, 4, 5])
      == [CurvePoint(2, 4.0, 1.0, 1.0), CurvePoint(3, 8.0, 1.0, 1.0), CurvePoint(4, 16.0, 0.0, 0.0), CurvePoint(5, 32.0, 0.0, 0.0)]
  {
    Pow2Small();
    assert Mean([1]) == 1.0 && Mean([0]) == 0.0;
  }

  /** The horizon of the test's curve: the crossing between 8 and 16 minutes, at `2 ** 3.5`. */
  lemma FourDurationHorizon(exp2: real -> real)
    requires ValidExp2(exp2)
    ensures var curve := [CurvePoint(2, 4.0, 1.0, 1.0), CurvePoint(3, 8.0, 1.0, 1.0), CurvePoint(4, 16.0, 0.0, 0.0), CurvePoint(5, 32.0, 0.0, 0.0)];
      HorizonOf(curve, exp2) == exp2(3.5) && 8.0 < exp2(3.5) < 16.0
  {
    var curve := [CurvePoint(2, 4.0, 1.0, 1.0), CurvePoint(3, 8.0, 1.0, 1.0), CurvePoint(4, 16.0, 0.0, 0.0), CurvePoint(5, 32.0, 0.0, 0.0)];
    assert curve[2].successSmoothed < 0.5 && curve[0].successSmoothed >= 0.5;
    assert !IsCrossing(curve, 0) && IsCrossing(curve, 1);
    assert FirstCrossing(curve, 0) == Some(1);
    assert Max(1.0, 0.000001) == 1.0;
    assert Fraction(curve[1], curve[2]) == 0.5;
    assert CrossingLog2(curve[1], curve[2]) == 3.5;
    Pow2Small();
    assert exp2(3 as real) == 8.0 && exp2(4 as real) == 16.0;
    assert exp2(3.0) < exp2(3.5) < exp2(4.0);
  }

  /**
   * The estimator's test: successes at 4 and 8 minutes and failures at 16 and 32 give four
   * bins and a horizon of `2 ** 3.5`, between 8 and 16 minutes.
   */
  lemma FourDurationScenario(lib: Routines)
    requires ValidExp2(lib.exp2)
    requires lib.binOf(4.0) == 2 && lib.binOf(8.0) == 3 && lib.binOf(16.0) == 4 && lib.binOf(32.0) == 5
    ensures var curve := CurveOf([Observation(4.0, 1), Observation(8.0, 1), Observation(16.0, 0), Observation(32.0, 0)],
                                 lib.binOf);
      && |curve| == 4
      && HorizonOf(curve, lib.exp2) == lib.exp2(3.5)
      && 8.0 < HorizonOf(curve, lib.exp2) < 16.0
  {
    FourDurationCurve(lib.binOf);
    FourDurationHorizon(lib.exp2);
  }
}
