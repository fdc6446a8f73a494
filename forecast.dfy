/** The orchestration around the forecasting model in `tools/run_forecast.py`:
    the split of events into trained regressors and manual overrides, the
    multiplicative imposition of override curves, the diagnostics and the
    accuracy and mean/delta metrics. The model itself (fit, future timeline,
    predict, coefficient table) is a black box given as a `Prophet` value. */
module Forecast {
  import opened Common
  import opened Regressors

  // ---- Accuracy metrics (calculate_metrics) ----

  /** The (actual, predicted) pairs left after dropping every position where
      either side is NaN, in input order. */
  function KeptPairs(yTrue: seq<Option<real>>, yPred: seq<Option<real>>): (r: seq<(real, real)>)
    requires |yTrue| == |yPred|
    ensures |r| <= |yTrue|
  {
    if yTrue == [] then []
    else
      var n := |yTrue| - 1;
      KeptPairs(yTrue[..n], yPred[..n])
        + (if yTrue[n].Some? && yPred[n].Some? then [(yTrue[n].value, yPred[n].value)] else [])
  }

  function AbsErrors(p: seq<(real, real)>): (r: seq<real>)
    ensures |r| == |p|
    ensures forall i :: 0 <= i < |p| ==> r[i] == Abs(p[i].0 - p[i].1)
  {
    seq(|p|, i requires 0 <= i < |p| => Abs(p[i].0 - p[i].1))
  }

  function SquaredErrors(p: seq<(real, real)>): (r: seq<real>)
    ensures |r| == |p|
    ensures forall i :: 0 <= i < |p| ==> r[i] == (p[i].0 - p[i].1) * (p[i].0 - p[i].1)
  {
    seq(|p|, i requires 0 <= i < |p| => (p[i].0 - p[i].1) * (p[i].0 - p[i].1))
  }

  /** `|(actual - predicted) / actual|` for the pairs whose actual is not 0;
      it is empty exactly when every actual is 0. */
  function PercentErrors(p: seq<(real, real)>): (r: seq<real>)
    ensures |r| <= |p|
    ensures r == [] <==> forall i :: 0 <= i < |p| ==> p[i].0 == 0.0
  {
    if p == [] then []
    else
      var rest := PercentErrors(p[1..]);
      assert forall i :: 1 <= i < |p| ==> p[i] == p[1..][i - 1];
      (if p[0].0 != 0.0 then [Abs((p[0].0 - p[0].1) / p[0].0)] else []) + rest
  }

  /** MAPE (a percentage; NaN when no actual is non-zero), RMSE and MAE. */
  datatype Metrics = Metrics(mape: Option<real>, rmse: real, mae: real)

  /** The metrics of the pairs that survive the NaN mask: all 0 when none
      is left. */
  function PairMetrics(p: seq<(real, real)>, sqrt: real -> real): (r: Metrics)
    ensures p == [] ==> r == Metrics(Some(0.0), 0.0, 0.0)
    ensures r.mae >= 0.0
  {
    if p == [] then Metrics(Some(0.0), 0.0, 0.0)
    else Metrics(Mape(p), sqrt(Mean(SquaredErrors(p)).value), Mae(p))
  }

  /** Mean absolute error of a non-empty list of pairs. */
  function Mae(p: seq<(real, real)>): (r: real)
    requires p != []
    ensures r >= 0.0
  {
    MeanNonNegative(AbsErrors(p));
    Mean(AbsErrors(p)).value
  }

  /** `mean(|(y - yhat) / y|) * 100` over the non-zero actuals. */
  function Mape(p: seq<(real, real)>): Option<real>
  {
    var m := Mean(PercentErrors(p));
    if m.Some? then Some(m.value * 100.0) else None
  }

  /** `calculate_metrics(y_true, y_pred)` with `sqrt` as a parameter: the
      NaN mask, then the metrics of the remaining pairs. */
  function CalculateMetrics(yTrue: seq<Option<real>>, yPred: seq<Option<real>>, sqrt: real -> real): (r: Metrics)
    requires |yTrue| == |yPred|
    ensures KeptPairs(yTrue, yPred) == [] ==> r == Metrics(Some(0.0), 0.0, 0.0)
    ensures r.mae >= 0.0
    ensures var p := KeptPairs(yTrue, yPred);
      p != [] ==> MeanIs(r.mae, AbsErrors(p))
    ensures var p := KeptPairs(yTrue, yPred);
      p != [] ==> exists m :: MeanIs(m, SquaredErrors(p)) && r.rmse == sqrt(m)
    ensures var p := KeptPairs(yTrue, yPred);
      r.mape.None? <==> (p != [] && forall i :: 0 <= i < |p| ==> p[i].0 == 0.0)
  {
    var p := KeptPairs(yTrue, yPred);
    MapeNanIff(p, sqrt);
    if p == [] then PairMetrics(p, sqrt)
    else
      PairMaeMeaning(p, sqrt);
      PairRmseMeaning(p, sqrt);
      PairMetrics(p, sqrt)
  }

  /** With pairs left, the MAE of the metrics is their mean absolute error. */
  lemma PairMaeMeaning(p: seq<(real, real)>, sqrt: real -> real)
    requires p != []
    ensures MeanIs(PairMetrics(p, sqrt).mae, AbsErrors(p))
  {
    assert PairMetrics(p, sqrt).mae == Mae(p);
    MaeIsMeanAbsError(p);
  }

  /** With pairs left, the RMSE of the metrics is the root of their mean
      squared error. */
  lemma PairRmseMeaning(p: seq<(real, real)>, sqrt: real -> real)
    requires p != []
    ensures exists m :: MeanIs(m, SquaredErrors(p)) && PairMetrics(p, sqrt).rmse == sqrt(m)
  {
    var m := Mean(SquaredErrors(p)).value;
    assert PairMetrics(p, sqrt).rmse == sqrt(m);
    MeanTimesLength(SquaredErrors(p), m);
  }

  /** `m` is the mean of the non-empty `xs`, stated without division: `m`
      times the count is the sum. */
  predicate MeanIs(m: real, xs: seq<real>)
  {
    m * (|xs| as real) == Sum(xs)
  }

  lemma {:induction false} SumNonNegative(xs: seq<real>)
    requires forall i :: 0 <= i < |xs| ==> xs[i] >= 0.0
    ensures Sum(xs) >= 0.0
    ensures Sum(xs) == 0.0 <==> forall i :: 0 <= i < |xs| ==> xs[i] == 0.0
  {
    if xs != [] {
      var n := |xs| - 1;
      assert forall i :: 0 <= i < n ==> xs[..n][i] == xs[i];
      SumNonNegative(xs[..n]);
    }
  }

  lemma MeanNonNegative(xs: seq<real>)
    requires xs != []
    requires forall i :: 0 <= i < |xs| ==> xs[i] >= 0.0
    ensures Mean(xs).value >= 0.0
    ensures Mean(xs).value == 0.0 <==> forall i :: 0 <= i < |xs| ==> xs[i] == 0.0
  {
    SumNonNegative(xs);
    var n := |xs| as real;
    assert Mean(xs).value == Sum(xs) / n;
  }

  /** With pairs left, MAE is the mean absolute error over them. */
  lemma MaeIsMeanAbsError(p: seq<(real, real)>)
    requires p != []
    ensures MeanIs(Mae(p), AbsErrors(p))
  {
    MeanTimesLength(AbsErrors(p), Mae(p));
  }

  lemma MeanTimesLength(e: seq<real>, m: real)
    requires e != [] && m == Mean(e).value
    ensures MeanIs(m, e)
  {
  }

  /** MAPE, when defined, is 100 times the mean relative error over the
      non-zero actuals. */
  lemma MapeIsMeanPercentError(p: seq<(real, real)>)
    requires Mape(p).Some?
    ensures Mape(p).value * (|PercentErrors(p)| as real) == 100.0 * Sum(PercentErrors(p))
  {
    var pe := PercentErrors(p);
    var mv := Mean(pe).value;
    MeanTimesLength(pe, mv);
    Scale100(mv, |pe| as real, Sum(pe));
  }

  lemma Scale100(m: real, n: real, s: real)
    requires m * n == s
    ensures (m * 100.0) * n == 100.0 * s
  {
  }

  /** MAPE is NaN exactly when pairs remain but every actual among them is
      0 (the mean of an empty selection). */
  lemma MapeNanIff(p: seq<(real, real)>, sqrt: real -> real)
    ensures PairMetrics(p, sqrt).mape.None? <==> (p != [] && forall i :: 0 <= i < |p| ==> p[i].0 == 0.0)
  {
  }

  /** MAE is 0 exactly when every kept prediction equals its actual. */
  lemma MaeZeroIffExact(p: seq<(real, real)>, sqrt: real -> real)
    ensures PairMetrics(p, sqrt).mae == 0.0 <==> forall i :: 0 <= i < |p| ==> p[i].0 == p[i].1
  {
    if p != [] {
      var e := AbsErrors(p);
      MeanNonNegative(e);
      assert PairMetrics(p, sqrt).mae == Mae(p) == Mean(e).value;
    }
  }

  /** A pair with a NaN on either side has no effect on any metric. */
  lemma NanPairIgnored(yTrue: seq<Option<real>>, yPred: seq<Option<real>>, a: Option<real>, b: Option<real>, sqrt: real -> real)
    requires |yTrue| == |yPred|
    requires a.None? || b.None?
    ensures CalculateMetrics(yTrue + [a], yPred + [b], sqrt) == CalculateMetrics(yTrue, yPred, sqrt)
  {
    assert (yTrue + [a])[..|yTrue|] == yTrue;
    assert (yPred + [b])[..|yPred|] == yPred;
    assert KeptPairs(yTrue + [a], yPred + [b]) == KeptPairs(yTrue, yPred);
  }

  /** Actual 100, 100, 100 against predicted 110, 90, 100: MAE and MAPE
      are both 20/3. */
  lemma MetricsExample(sqrt: real -> real)
    ensures CalculateMetrics([Some(100.0), Some(100.0), Some(100.0)],
                             [Some(110.0), Some(90.0), Some(100.0)], sqrt)
         == Metrics(Some(20.0 / 3.0), sqrt(200.0 / 3.0), 20.0 / 3.0)
  {
    var p := [(100.0, 110.0), (100.0, 90.0), (100.0, 100.0)];
    ExampleKept();
    assert CalculateMetrics([Some(100.0), Some(100.0), Some(100.0)],
                            [Some(110.0), Some(90.0), Some(100.0)], sqrt) == PairMetrics(p, sqrt);
    ExampleErrors(p);
    assert Mae(p) == 20.0 / 3.0;
    assert Mape(p) == Some(20.0 / 3.0);
    assert Mean(SquaredErrors(p)).value == 200.0 / 3.0;
  }

  lemma ExampleKept()
    ensures KeptPairs([Some(100.0), Some(100.0), Some(100.0)], [Some(110.0), Some(90.0), Some(100.0)])
         == [(100.0, 110.0), (100.0, 90.0), (100.0, 100.0)]
  {
    var yt := [Some(100.0), Some(100.0), Some(100.0)];
    var yp := [Some(110.0), Some(90.0), Some(100.0)];
    assert yt[..2] == [Some(100.0), Some(100.0)] && yp[..2] == [Some(110.0), Some(90.0)];
    assert yt[..2][..1] == [Some(100.0)] && yp[..2][..1] == [Some(110.0)];
    assert yt[..2][..1][..0] == [] && yp[..2][..1][..0] == [];
  }

  lemma ExampleErrors(p: seq<(real, real)>)
    requires p == [(100.0, 110.0), (100.0, 90.0), (100.0, 100.0)]
    ensures Sum(AbsErrors(p)) == 20.0
    ensures Sum(SquaredErrors(p)) == 200.0
    ensures Sum(PercentErrors(p)) == 0.2 && |PercentErrors(p)| == 3
  {
    var e := AbsErrors(p);
    assert e == [10.0, 10.0, 0.0];
    SumExample(10.0, 10.0, 0.0);
    var sq := SquaredErrors(p);
    assert sq == [100.0, 100.0, 0.0];
    SumExample(100.0, 100.0, 0.0);
    assert p[1..] == [(100.0, 90.0), (100.0, 100.0)];
    assert p[1..][1..] == [(100.0, 100.0)];
    assert p[1..][1..][1..] == [];
    assert PercentErrors(p[1..][1..]) == [0.0];
    assert PercentErrors(p[1..]) == [0.1, 0.0];
    assert PercentErrors(p) == [0.1, 0.1, 0.0];
    SumExample(0.1, 0.1, 0.0);
  }

  lemma SumExample(a: real, b: real, c: real)
    ensures Sum([a, b, c]) == a + b + c
  {
    assert [a, b, c][..2] == [a, b];
    assert [a, b][..1] == [a];
    assert [a][..0] == [];
    assert Sum([a]) == a;
    assert Sum([a, b]) == a + b;
  }

  // ---- Splitting events into trained regressors and overrides ----

  /** An event is an override when it starts strictly after the last history
      date; with no history (NaT) the comparison is false. */
  predicate IsOverride(e: Event, historyMax: Option<int>)
  {
    historyMax.Some? && e.date > historyMax.value
  }

  function OverrideEvents(events: seq<Event>, historyMax: Option<int>): (r: seq<Event>)
    ensures |r| <= |events|
  {
    if events == [] then []
    else
      var n := |events| - 1;
      OverrideEvents(events[..n], historyMax)
        + (if IsOverride(events[n], historyMax) then [events[n]] else [])
  }

  function FitEvents(events: seq<Event>, historyMax: Option<int>): (r: seq<Event>)
    ensures |r| <= |events|
  {
    if events == [] then []
    else
      var n := |events| - 1;
      FitEvents(events[..n], historyMax)
        + (if IsOverride(events[n], historyMax) then [] else [events[n]])
  }

  /** The split loop: each event is appended to exactly one of the lists. */
  method SplitEvents(events: seq<Event>, historyMax: Option<int>)
    returns (fit: seq<Event>, overrides: seq<Event>)
    ensures fit == FitEvents(events, historyMax)
    ensures overrides == OverrideEvents(events, historyMax)
  {
    fit, overrides := [], [];
    var i := 0;
    while i < |events|
      invariant 0 <= i <= |events|
      invariant fit == FitEvents(events[..i], historyMax)
      invariant overrides == OverrideEvents(events[..i], historyMax)
    {
      assert events[..i + 1][..i] == events[..i];
      if IsOverride(events[i], historyMax) {
        overrides := overrides + [events[i]];
      } else {
        fit := fit + [events[i]];
      }
      i := i + 1;
    }
    assert events[..|events|] == events;
  }

  /** Every event lands in exactly one list: the override list holds the
      events starting after the history, the fit list all the others. */
  lemma SplitPartition(events: seq<Event>, h: Option<int>)
    ensures |FitEvents(events, h)| + |OverrideEvents(events, h)| == |events|
    ensures multiset(FitEvents(events, h)) + multiset(OverrideEvents(events, h)) == multiset(events)
    ensures forall e :: e in OverrideEvents(events, h) ==> IsOverride(e, h)
    ensures forall e :: e in FitEvents(events, h) ==> !IsOverride(e, h)
  {
    SplitCounts(events, h);
    SplitMembers(events, h);
    assert |multiset(FitEvents(events, h)) + multiset(OverrideEvents(events, h))| == |multiset(events)|;
  }

  lemma {:induction false} SplitCounts(events: seq<Event>, h: Option<int>)
    ensures multiset(FitEvents(events, h)) + multiset(OverrideEvents(events, h)) == multiset(events)
  {
    if events != [] {
      var n := |events| - 1;
      var init, last := events[..n], events[n];
      SplitCounts(init, h);
      var f, o := FitEvents(init, h), OverrideEvents(init, h);
      assert events == init + [last];
      assert multiset(events) == multiset(init) + multiset{last};
      if IsOverride(last, h) {
        assert OverrideEvents(events, h) == o + [last];
        assert FitEvents(events, h) == f;
        assert multiset(o + [last]) == multiset(o) + multiset{last};
      } else {
        assert OverrideEvents(events, h) == o;
        assert FitEvents(events, h) == f + [last];
        assert multiset(f + [last]) == multiset(f) + multiset{last};
      }
    }
  }

  lemma {:induction false} SplitMembers(events: seq<Event>, h: Option<int>)
    ensures forall e :: e in OverrideEvents(events, h) ==> IsOverride(e, h)
    ensures forall e :: e in FitEvents(events, h) ==> !IsOverride(e, h)
  {
    if events != [] {
      var n := |events| - 1;
      var init, last := events[..n], events[n];
      SplitMembers(init, h);
      var f, o := FitEvents(init, h), OverrideEvents(init, h);
      if IsOverride(last, h) {
        assert OverrideEvents(events, h) == o + [last];
        assert FitEvents(events, h) == f;
      } else {
        assert OverrideEvents(events, h) == o;
        assert FitEvents(events, h) == f + [last];
      }
    }
  }

  lemma {:induction false} OverrideEventsAppend(a: seq<Event>, b: seq<Event>, h: Option<int>)
    ensures OverrideEvents(a + b, h) == OverrideEvents(a, h) + OverrideEvents(b, h)
  {
    if b == [] {
      assert a + b == a;
    } else {
      var n := |b| - 1;
      assert (a + b)[..|a + b| - 1] == a + b[..n];
      assert (a + b)[|a + b| - 1] == b[n];
      OverrideEventsAppend(a, b[..n], h);
    }
  }

  lemma {:induction false} FitEventsAppend(a: seq<Event>, b: seq<Event>, h: Option<int>)
    ensures FitEvents(a + b, h) == FitEvents(a, h) + FitEvents(b, h)
  {
    if b == [] {
      assert a + b == a;
    } else {
      var n := |b| - 1;
      assert (a + b)[..|a + b| - 1] == a + b[..n];
      assert (a + b)[|a + b| - 1] == b[n];
      FitEventsAppend(a, b[..n], h);
    }
  }

  /** Both lists keep input order: splitting a concatenation splits each
      part and concatenates the results. */
  lemma SplitKeepsOrder(a: seq<Event>, b: seq<Event>, h: Option<int>)
    ensures OverrideEvents(a + b, h) == OverrideEvents(a, h) + OverrideEvents(b, h)
    ensures FitEvents(a + b, h) == FitEvents(a, h) + FitEvents(b, h)
  {
    OverrideEventsAppend(a, b, h);
    FitEventsAppend(a, b, h);
  }

  // ---- Imposing override curves ----

  /** `1.0 + impact_vector` */
  function Multiplier(curve: seq<real>): (r: seq<real>)
    ensures |r| == |curve|
    ensures forall i :: 0 <= i < |curve| ==> r[i] == 1.0 + curve[i]
  {
    seq(|curve|, i requires 0 <= i < |curve| => 1.0 + curve[i])
  }

  function Times(a: seq<real>, m: seq<real>): (r: seq<real>)
    requires |a| == |m|
    ensures |r| == |a|
    ensures forall i :: 0 <= i < |a| ==> r[i] == a[i] * m[i]
  {
    seq(|a|, i requires 0 <= i < |a| => a[i] * m[i])
  }

  /** An override event's multiplier on one date: `1 + signal`. */
  function Factor(exp: real -> real): (f: (Event, int) -> real)
    ensures forall e: Event, day: int :: f(e, day) == 1.0 + Signal(e.kind, day - e.date, e.duration, e.impact, exp)
  {
    (e: Event, day: int) => 1.0 + Signal(e.kind, day - e.date, e.duration, e.impact, exp)
  }

  /** The factor `f` of one event on every date of `ds`. */
  function FactorColumn(e: Event, ds: seq<int>, f: (Event, int) -> real): (r: seq<real>)
    ensures |r| == |ds|
    ensures forall i :: 0 <= i < |ds| ==> r[i] == f(e, ds[i])
  {
    seq(|ds|, i requires 0 <= i < |ds| => f(e, ds[i]))
  }

  /** A column multiplied by the factor columns of `events`, one event
      after the other. */
  function Scaled(col: seq<real>, ds: seq<int>, events: seq<Event>, f: (Event, int) -> real): (r: seq<real>)
    requires |col| == |ds|
    ensures |r| == |col|
  {
    if events == [] then col
    else
      var n := |events| - 1;
      Times(Scaled(col, ds, events[..n], f), FactorColumn(events[n], ds, f))
  }

  /** The product of the factors of `events` on one date. */
  function Product(events: seq<Event>, day: int, f: (Event, int) -> real): real
  {
    if events == [] then 1.0
    else Product(events[..|events| - 1], day, f) * f(events[|events| - 1], day)
  }

  /** Multiplying in one event after the other gives each value times the
      product of all the factors for its date. */
  lemma {:induction false} ScaledIsProduct(col: seq<real>, ds: seq<int>, events: seq<Event>,
                                           f: (Event, int) -> real, i: nat)
    requires |col| == |ds| && i < |ds|
    ensures Scaled(col, ds, events, f)[i] == col[i] * Product(events, ds[i], f)
  {
    if events != [] {
      var n := |events| - 1;
      var prev := Scaled(col, ds, events[..n], f);
      var g := Product(events[..n], ds[i], f);
      var s := f(events[n], ds[i]);
      ScaledIsProduct(col, ds, events[..n], f, i);
      assert Scaled(col, ds, events, f)[i] == prev[i] * s;
      assert Product(events, ds[i], f) == g * s;
      MulRegroup(prev[i], col[i], g, s);
    }
  }

  /** A forecast column after the override events, multiplied in one after
      the other. */
  function Imposed(col: seq<real>, ds: seq<int>, events: seq<Event>, exp: real -> real): (r: seq<real>)
    requires |col| == |ds|
    ensures |r| == |col|
  {
    Scaled(col, ds, events, Factor(exp))
  }

  /** The combined factor of a list of events on one day: the product of
      every `1 + signal`. */
  function Gain(events: seq<Event>, day: int, exp: real -> real): real
  {
    Product(events, day, Factor(exp))
  }

  /** Each imposed value is the original value times the product of all the
      override factors for its date. */
  lemma ImposedIsProduct(col: seq<real>, ds: seq<int>, events: seq<Event>, exp: real -> real, i: nat)
    requires |col| == |ds| && i < |ds|
    ensures Imposed(col, ds, events, exp)[i] == col[i] * Gain(events, ds[i], exp)
  {
    ScaledIsProduct(col, ds, events, Factor(exp), i);
  }

  /** `(c * g) * s == c * (g * s)`, with the left product given by name. */
  lemma MulRegroup(x: real, c: real, g: real, s: real)
    requires x == c * g
    ensures x * s == c * (g * s)
  {
  }

  /** Overrides that start after `day` (ramps among them with a non-negative
      duration) leave that day's factor at 1. */
  lemma {:induction false} GainBeforeStarts(events: seq<Event>, day: int, exp: real -> real)
    requires forall k :: 0 <= k < |events| ==> day < events[k].date
    requires forall k :: 0 <= k < |events| ==> events[k].kind == "ramp" ==> events[k].duration >= 0
    ensures Gain(events, day, exp) == 1.0
  {
    if events != [] {
      var n := |events| - 1;
      GainBeforeStarts(events[..n], day, exp);
      ZeroBeforeStart(events[n], day - events[n].date, exp);
      assert Factor(exp)(events[n], day) == 1.0;
    }
  }

  /** History rows of the forecast are untouched by the overrides, since
      every override starts after the last history date. */
  lemma HistoryRowsUnchanged(col: seq<real>, ds: seq<int>, events: seq<Event>, exp: real -> real,
                             historyMax: int, i: nat)
    requires |col| == |ds| && i < |ds| && ds[i] <= historyMax
    requires forall k :: 0 <= k < |events| ==> IsOverride(events[k], Some(historyMax))
    requires forall k :: 0 <= k < |events| ==> events[k].kind == "ramp" ==> events[k].duration >= 0
    ensures Imposed(col, ds, events, exp)[i] == col[i]
  {
    ImposedIsProduct(col, ds, events, exp, i);
    GainBeforeStarts(events, ds[i], exp);
  }

  /** `column *= multiplier` in place. */
  method MultiplyInPlace(a: array<real>, m: seq<real>)
    requires a.Length == |m|
    modifies a
    ensures a[..] == Times(old(a[..]), m)
  {
    var i := 0;
    while i < a.Length
      invariant 0 <= i <= a.Length
      invariant forall k :: 0 <= k < i ==> a[k] == old(a[k]) * m[k]
      invariant forall k :: i <= k < a.Length ==> a[k] == old(a[k])
    {
      a[i] := a[i] * m[i];
      i := i + 1;
    }
    assert forall k :: 0 <= k < a.Length ==> a[..][k] == Times(old(a[..]), m)[k];
  }

  /** One override event: its curve over `ds`, as `apply_regressors` on a
      scratch frame builds it, becomes the multiplier `1 + curve`. */
  method OverrideMultiplier(ds: seq<int>, evt: Event, exp: real -> real) returns (multiplier: seq<real>)
    ensures multiplier == FactorColumn(evt, ds, Factor(exp))
  {
    var temp, newCols := ApplyRegressors(Frame(ds, map[]), [evt], exp);
    WithRegressorsCurves(Frame(ds, map[]), [evt], exp, 0);
    var impact := temp.columns[newCols[0]];
    multiplier := Multiplier(impact);
  }

  /** Multiplying in one more override event extends the imposed column. */
  lemma ImposedSnoc(col: seq<real>, ds: seq<int>, events: seq<Event>, exp: real -> real, i: nat)
    requires |col| == |ds| && i < |events|
    ensures Imposed(col, ds, events[..i + 1], exp)
         == Times(Imposed(col, ds, events[..i], exp), FactorColumn(events[i], ds, Factor(exp)))
  {
    assert events[..i + 1][..i] == events[..i];
  }

  /** The override loop: for each override event its curve is computed over
      the timeline `ds` and `yhat`, `yhat_lower` and `yhat_upper` are
      multiplied by `1 + curve`. Both branches on the seasonality mode apply
      the same multiplier, so the mode does not appear in the result. */
  method ImposeOverrides(ds: seq<int>, yhat: array<real>, lower: array<real>, upper: array<real>,
                         overrides: seq<Event>, mode: Option<string>, exp: real -> real)
    returns (names: seq<string>)
    requires yhat.Length == |ds| && lower.Length == |ds| && upper.Length == |ds|
    requires yhat != lower && yhat != upper && lower != upper
    modifies yhat, lower, upper
    ensures yhat[..] == Imposed(old(yhat[..]), ds, overrides, exp)
    ensures lower[..] == Imposed(old(lower[..]), ds, overrides, exp)
    ensures upper[..] == Imposed(old(upper[..]), ds, overrides, exp)
    ensures names == EventNames(overrides)
  {
    names := [];
    var i := 0;
    while i < |overrides|
      invariant 0 <= i <= |overrides|
      invariant yhat[..] == Imposed(old(yhat[..]), ds, overrides[..i], exp)
      invariant lower[..] == Imposed(old(lower[..]), ds, overrides[..i], exp)
      invariant upper[..] == Imposed(old(upper[..]), ds, overrides[..i], exp)
      invariant names == EventNames(overrides[..i])
    {
      var evt := overrides[i];
      var multiplier := OverrideMultiplier(ds, evt, exp);
      ImposedSnoc(old(yhat[..]), ds, overrides, exp, i);
      ImposedSnoc(old(lower[..]), ds, overrides, exp, i);
      ImposedSnoc(old(upper[..]), ds, overrides, exp, i);
      if mode == Some("multiplicative") {
        MultiplyInPlace(yhat, multiplier);
        MultiplyInPlace(lower, multiplier);
        MultiplyInPlace(upper, multiplier);
      } else {
        MultiplyInPlace(yhat, multiplier);
        MultiplyInPlace(lower, multiplier);
        MultiplyInPlace(upper, multiplier);
      }
      names := names + [evt.name];
      i := i + 1;
    }
    assert overrides[..|overrides|] == overrides;
  }

  // ---- Diagnostics (debug_info) ----

  /** The `data_check` entry of a fit column. */
  datatype ColumnCheck = ColumnCheck(
    historyNonZeros: nat, historyMax: Option<real>, futureNonZeros: nat, futureMax: Option<real>)

  function CheckOf(history: seq<real>, future: seq<real>): ColumnCheck
  {
    ColumnCheck(CountNonZero(history), MaxOf(history), CountNonZero(future), MaxOf(future))
  }

  /** The `data_check` loop over the fit columns. */
  method BuildDataCheck(cols: seq<string>, history: Frame, future: Frame)
    returns (dc: map<string, ColumnCheck>)
    requires forall c :: c in cols ==> c in history.columns && c in future.columns
    ensures dc.Keys == set c | c in cols
    ensures forall c :: c in cols ==> dc[c] == CheckOf(history.columns[c], future.columns[c])
  {
    dc := map[];
    var i := 0;
    while i < |cols|
      invariant 0 <= i <= |cols|
      invariant dc.Keys == set c | c in cols[..i]
      invariant forall c :: c in cols[..i] ==> dc[c] == CheckOf(history.columns[c], future.columns[c])
    {
      var c := cols[i];
      dc := dc[c := CheckOf(history.columns[c], future.columns[c])];
      assert cols[..i + 1] == cols[..i] + [c];
      i := i + 1;
    }
    assert cols[..|cols|] == cols;
  }

  lemma {:induction false} CurveAppend(e: Event, a: seq<int>, b: seq<int>, exp: real -> real)
    ensures Curve(e, a + b, exp) == Curve(e, a, exp) + Curve(e, b, exp)
  {
  }

  /** When the timeline continues the history, a fit column has at least as
      many non-zero rows over the timeline as over the history, and its
      timeline maximum is no smaller. */
  lemma FutureCoversHistory(e: Event, history: seq<int>, more: seq<int>, exp: real -> real)
    ensures CountNonZero(Curve(e, history + more, exp))
         == CountNonZero(Curve(e, history, exp)) + CountNonZero(Curve(e, more, exp))
    ensures CountNonZero(Curve(e, history + more, exp)) >= CountNonZero(Curve(e, history, exp))
    ensures history != [] ==>
      MaxOf(Curve(e, history, exp)).value <= MaxOf(Curve(e, history + more, exp)).value
  {
    CurveAppend(e, history, more, exp);
    CountNonZeroAppend(Curve(e, history, exp), Curve(e, more, exp));
    if history != [] {
      var h := Curve(e, history, exp);
      var f := Curve(e, history + more, exp);
      var i :| 0 <= i < |h| && h[i] == MaxOf(h).value;
      assert f[i] == h[i];
    }
  }

  /** One `regressor_diagnostics` entry: the name, the sum and the maximum
      of the absolute component values (NaN for an empty column). */
  datatype Diagnostic = Diagnostic(name: string, totalAbsImpact: real, maxImpact: Option<real>)

  function AbsAll(xs: seq<real>): (r: seq<real>)
    ensures |r| == |xs|
    ensures forall i :: 0 <= i < |xs| ==> r[i] == Abs(xs[i]) && r[i] >= 0.0
  {
    seq(|xs|, i requires 0 <= i < |xs| => Abs(xs[i]))
  }

  /** The entries for the fit columns that appear among the forecast's
      component columns, in column order. */
  function Diagnostics(cols: seq<string>, components: map<string, seq<real>>): (r: seq<Diagnostic>)
    ensures |r| <= |cols|
  {
    if cols == [] then []
    else
      var n := |cols| - 1;
      var c := cols[n];
      Diagnostics(cols[..n], components)
        + (if c in components then [Diagnostic(c, Sum(AbsAll(components[c])), MaxOf(AbsAll(components[c])))] else [])
  }

  method BuildDiagnostics(cols: seq<string>, components: map<string, seq<real>>)
    returns (d: seq<Diagnostic>)
    ensures d == Diagnostics(cols, components)
  {
    d := [];
    var i := 0;
    while i < |cols|
      invariant 0 <= i <= |cols|
      invariant d == Diagnostics(cols[..i], components)
    {
      var c := cols[i];
      assert cols[..i + 1][..i] == cols[..i];
      if c in components {
        var absCol := AbsAll(components[c]);
        d := d + [Diagnostic(c, Sum(absCol), MaxOf(absCol))];
      }
      i := i + 1;
    }
    assert cols[..|cols|] == cols;
  }

  /** A diagnostic exists exactly for the fit columns the forecast reports,
      and its totals are non-negative. */
  lemma {:induction false} DiagnosticsCover(cols: seq<string>, components: map<string, seq<real>>)
    ensures forall k :: 0 <= k < |Diagnostics(cols, components)| ==>
      var g := Diagnostics(cols, components)[k];
      g.name in cols && g.name in components && g.totalAbsImpact >= 0.0
    ensures forall c :: c in cols && c in components ==>
      exists k :: 0 <= k < |Diagnostics(cols, components)| && Diagnostics(cols, components)[k].name == c
  {
    if cols != [] {
      var n := |cols| - 1;
      DiagnosticsCover(cols[..n], components);
      var c := cols[n];
      if c in components {
        SumNonNegative(AbsAll(components[c]));
      }
      var r := Diagnostics(cols, components);
      var pre := Diagnostics(cols[..n], components);
      assert forall k :: 0 <= k < |pre| ==> r[k] == pre[k];
      assert forall x :: x in cols[..n] ==> x in cols;
      forall x | x in cols && x in components
        ensures exists k :: 0 <= k < |r| && r[k].name == x
      {
        if x != c {
          assert x in cols[..n];
          var k :| 0 <= k < |pre| && pre[k].name == x;
          assert r[k].name == x;
        } else {
          assert r[|pre|].name == x;
        }
      }
    }
  }

  // ---- Mean and delta metrics ----

  /** `yhat` over the dates strictly after the history end; nothing when
      there is no history. */
  function FutureValues(ds: seq<int>, yhat: seq<real>, historyMax: Option<int>): (r: seq<real>)
    requires |ds| == |yhat|
    ensures historyMax.None? ==> r == []
    ensures |r| <= |ds|
  {
    if ds == [] then []
    else
      (if historyMax.Some? && ds[0] > historyMax.value then [yhat[0]] else [])
        + FutureValues(ds[1..], yhat[1..], historyMax)
  }

  /** The forecast mean depends only on the rows after the history end:
      predictions for history dates can change without changing it. */
  lemma {:induction false} FutureValuesIgnoreHistory(ds: seq<int>, yhat: seq<real>, other: seq<real>, h: int)
    requires |ds| == |yhat| == |other|
    requires forall j :: 0 <= j < |ds| && ds[j] > h ==> yhat[j] == other[j]
    ensures FutureValues(ds, yhat, Some(h)) == FutureValues(ds, other, Some(h))
  {
    if ds != [] {
      assert forall j :: 0 <= j < |ds| - 1 ==> ds[1..][j] == ds[j + 1] && yhat[1..][j] == yhat[j + 1] && other[1..][j] == other[j + 1];
      FutureValuesIgnoreHistory(ds[1..], yhat[1..], other[1..], h);
    }
  }

  /** Every row after the history end contributes. */
  lemma {:induction false} FutureValuesCount(ds: seq<int>, yhat: seq<real>, h: int)
    requires |ds| == |yhat|
    requires forall j :: 0 <= j < |ds| ==> ds[j] > h
    ensures FutureValues(ds, yhat, Some(h)) == yhat
  {
    if ds != [] {
      FutureValuesCount(ds[1..], yhat[1..], h);
      assert FutureValues(ds, yhat, Some(h)) == [yhat[0]] + yhat[1..];
    }
  }

  /** NaN-propagating subtraction. */
  function Minus(a: Option<real>, b: Option<real>): (r: Option<real>)
    ensures r.Some? <==> a.Some? && b.Some?
    ensures r.Some? ==> r.value + b.value == a.value
  {
    if a.Some? && b.Some? then Some(a.value - b.value) else None
  }

  /** `(delta_abs / hist_mean) * 100 if hist_mean != 0 else 0`; a NaN mean
      is not equal to 0, so it gives NaN. */
  function DeltaPerc(deltaAbs: Option<real>, histMean: Option<real>): (r: Option<real>)
    ensures histMean == Some(0.0) ==> r == Some(0.0)
    ensures histMean.Some? && histMean.value != 0.0 && deltaAbs.Some? ==>
      r.Some? && r.value * histMean.value == 100.0 * deltaAbs.value
    ensures r.None? <==> (histMean.None? || (histMean.value != 0.0 && deltaAbs.None?))
  {
    if histMean.Some? && histMean.value == 0.0 then Some(0.0)
    else if histMean.Some? && deltaAbs.Some? then Some((deltaAbs.value / histMean.value) * 100.0)
    else None
  }

  /** The metrics returned with the forecast. */
  datatype ForecastMetrics = ForecastMetrics(
    historicalMean: Option<real>,
    forecastMean: Option<real>,
    deltaAbs: Option<real>,
    deltaPerc: Option<real>,
    mape: Option<real>,
    rmse: real,
    mae: real)

  // ---- The black box and the whole run ----

  /** The model's output frame: dates, the three prediction columns and the
      component columns by name. */
  datatype Prediction = Prediction(
    ds: seq<int>, yhat: seq<real>, yhatLower: seq<real>, yhatUpper: seq<real>,
    components: map<string, seq<real>>)

  datatype Coefficients = CoefTable(rows: seq<(string, real)>) | CoefFailure(message: string)

  /** The fitted model, seen from outside: the timeline it extends the
      history to, its predictions for a frame and its coefficient table
      (or the failure extracting it). */
  datatype Prophet = Prophet(
    makeFuture: (seq<int>, int) -> seq<int>,
    predict: Frame -> Prediction,
    coefficients: Coefficients)

  /** The model predicts one row per row of the frame it is given. */
  ghost predicate PredictsEveryRow(m: Prophet)
  {
    forall f: Frame ::
      var p := m.predict(f);
      |p.ds| == |f.ds| && |p.yhat| == |f.ds| && |p.yhatLower| == |f.ds| && |p.yhatUpper| == |f.ds|
  }

  /** The keys of the run configuration the orchestration reads itself; the
      others only configure the model. */
  datatype Config = Config(horizonDays: Option<int>, seasonalityMode: Option<string>)

  function Horizon(c: Config): int { c.horizonDays.GetOr(90) }

  /** The future timeline with the fit events' columns, as given to
      `predict`. */
  function FutureFrame(history: seq<(int, real)>, events: seq<Event>, config: Config, m: Prophet,
                       exp: real -> real): Frame
  {
    var dates := Firsts(history);
    WithRegressors(Frame(m.makeFuture(dates, Horizon(config)), map[]),
                   FitEvents(events, MaxInt(dates)), exp)
  }

  /** The (actual, predicted) pairs of the inner merge of history and
      forecast on `ds`: history rows in order, each paired with every
      forecast row of the same date. */
  function MergedPairs(history: seq<(int, real)>, ds: seq<int>, yhat: seq<real>): (r: seq<(Option<real>, Option<real>)>)
    requires |ds| == |yhat|
  {
    if history == [] then []
    else Matches(history[0], ds, yhat) + MergedPairs(history[1..], ds, yhat)
  }

  function Matches(row: (int, real), ds: seq<int>, yhat: seq<real>): (r: seq<(Option<real>, Option<real>)>)
    requires |ds| == |yhat|
  {
    if ds == [] then []
    else
      (if ds[0] == row.0 then [(Some(row.1), Some(yhat[0]))] else [])
        + Matches(row, ds[1..], yhat[1..])
  }

  /** The metrics of a run from the history and the final forecast. */
  function MetricsOf(history: seq<(int, real)>, f: Prediction, sqrt: real -> real): ForecastMetrics
    requires |f.ds| == |f.yhat|
  {
    var pairs := MergedPairs(history, f.ds, f.yhat);
    var perf := CalculateMetrics(Firsts(pairs), Seconds(pairs), sqrt);
    var histMean := Mean(Seconds(history));
    var futureMean := Mean(FutureValues(f.ds, f.yhat, MaxInt(Firsts(history))));
    var deltaAbs := Minus(futureMean, histMean);
    ForecastMetrics(histMean, futureMean, deltaAbs, DeltaPerc(deltaAbs, histMean), perf.mape, perf.rmse, perf.mae)
  }

  datatype DebugInfo = DebugInfo(
    regressorDiagnostics: seq<Diagnostic>,
    dataCheck: map<string, ColumnCheck>,
    overrides: seq<string>,
    coefficients: Option<seq<(string, real)>>,
    coeffError: Option<string>)

  datatype ForecastOutput = ForecastOutput(forecast: Prediction, metrics: ForecastMetrics, debug: DebugInfo)

  /** The prediction with the override curves imposed on its three
      prediction columns; dates and components are unchanged. */
  function ImposedPrediction(p: Prediction, ds: seq<int>, overrides: seq<Event>, exp: real -> real): (r: Prediction)
    requires |p.yhat| == |ds| && |p.yhatLower| == |ds| && |p.yhatUpper| == |ds|
    ensures r.ds == p.ds && r.components == p.components
    ensures |r.yhat| == |ds|
  {
    Prediction(p.ds, Imposed(p.yhat, ds, overrides, exp), Imposed(p.yhatLower, ds, overrides, exp),
               Imposed(p.yhatUpper, ds, overrides, exp), p.components)
  }

  /** Copies the prediction columns into arrays, runs the override loop on
      them in place and reads them back. */
  method ImposeOnPrediction(p: Prediction, ds: seq<int>, overrides: seq<Event>, mode: Option<string>,
                            exp: real -> real)
    returns (forecast: Prediction, names: seq<string>)
    requires |p.yhat| == |ds| && |p.yhatLower| == |ds| && |p.yhatUpper| == |ds|
    ensures forecast == ImposedPrediction(p, ds, overrides, exp)
    ensures names == EventNames(overrides)
  {
    var n := |ds|;
    var yhat := new real[n](i requires 0 <= i < n => p.yhat[i]);
    var lower := new real[n](i requires 0 <= i < n => p.yhatLower[i]);
    var upper := new real[n](i requires 0 <= i < n => p.yhatUpper[i]);
    assert yhat[..] == p.yhat && lower[..] == p.yhatLower && upper[..] == p.yhatUpper;
    names := ImposeOverrides(ds, yhat, lower, upper, overrides, mode, exp);
    forecast := Prediction(p.ds, yhat[..], lower[..], upper[..], p.components);
  }

  /** The `data_check` of a run: for the `i`-th fit event, its column's
      counts and maxima over the history and over the timeline. */
  lemma DataCheckOfFit(fit: seq<Event>, history: Frame, future: Frame, exp: real -> real, dc: map<string, ColumnCheck>)
    requires forall c :: c in ColumnNames(fit) ==>
      && c in dc && c in WithRegressors(history, fit, exp).columns && c in WithRegressors(future, fit, exp).columns
      && dc[c] == CheckOf(WithRegressors(history, fit, exp).columns[c], WithRegressors(future, fit, exp).columns[c])
    ensures forall i :: 0 <= i < |fit| ==>
      && ColumnName(i, fit[i].name) in dc
      && dc[ColumnName(i, fit[i].name)] == CheckOf(Curve(fit[i], history.ds, exp), Curve(fit[i], future.ds, exp))
  {
    forall i | 0 <= i < |fit|
      ensures ColumnName(i, fit[i].name) in dc
      ensures dc[ColumnName(i, fit[i].name)] == CheckOf(Curve(fit[i], history.ds, exp), Curve(fit[i], future.ds, exp))
    {
      DataCheckAt(fit, history, future, exp, dc, i);
    }
  }

  lemma DataCheckAt(fit: seq<Event>, history: Frame, future: Frame, exp: real -> real, dc: map<string, ColumnCheck>, i: nat)
    requires i < |fit|
    requires forall c :: c in ColumnNames(fit) ==>
      && c in dc && c in WithRegressors(history, fit, exp).columns && c in WithRegressors(future, fit, exp).columns
      && dc[c] == CheckOf(WithRegressors(history, fit, exp).columns[c], WithRegressors(future, fit, exp).columns[c])
    ensures ColumnName(i, fit[i].name) in dc
    ensures dc[ColumnName(i, fit[i].name)] == CheckOf(Curve(fit[i], history.ds, exp), Curve(fit[i], future.ds, exp))
  {
    var c := ColumnName(i, fit[i].name);
    assert ColumnNames(fit)[i] == c;
    assert c in ColumnNames(fit);
    WithRegressorsCurves(history, fit, exp, i);
    WithRegressorsCurves(future, fit, exp, i);
  }

  /** Every fit column exists in both frames the fit events were applied to. */
  lemma FitColumnsPresent(fit: seq<Event>, history: Frame, future: Frame, exp: real -> real)
    ensures forall c :: c in ColumnNames(fit) ==>
      c in WithRegressors(history, fit, exp).columns && c in WithRegressors(future, fit, exp).columns
  {
    forall c | c in ColumnNames(fit)
      ensures c in WithRegressors(history, fit, exp).columns && c in WithRegressors(future, fit, exp).columns
    {
      var i :| 0 <= i < |fit| && ColumnNames(fit)[i] == c;
      WithRegressorsCurves(history, fit, exp, i);
      WithRegressorsCurves(future, fit, exp, i);
    }
  }

  function HistoryFrame(history: seq<(int, real)>): Frame
  {
    Frame(Firsts(history), map["y" := Seconds(history)])
  }

  /** The fit events of a run. */
  function RunFit(history: seq<(int, real)>, events: seq<Event>): seq<Event>
  {
    FitEvents(events, MaxInt(Firsts(history)))
  }

  /** The override events of a run. */
  function RunOverrides(history: seq<(int, real)>, events: seq<Event>): seq<Event>
  {
    OverrideEvents(events, MaxInt(Firsts(history)))
  }

  /** `execute_forecast`: split the events, add the fit columns to history
      and timeline, predict, impose the overrides on the prediction, then
      collect diagnostics and metrics. */
  method ExecuteForecast(history: seq<(int, real)>, events: seq<Event>, config: Config, m: Prophet,
                         exp: real -> real, sqrt: real -> real)
    returns (r: ForecastOutput)
    requires PredictsEveryRow(m)
    ensures var fut := FutureFrame(history, events, config, m, exp);
      r.forecast == ImposedPrediction(m.predict(fut), fut.ds, RunOverrides(history, events), exp)
    ensures r.debug.overrides == EventNames(RunOverrides(history, events))
    ensures r.debug.dataCheck.Keys == set c | c in ColumnNames(RunFit(history, events))
    ensures var fit := RunFit(history, events);
      forall i :: 0 <= i < |fit| ==>
        r.debug.dataCheck[ColumnName(i, fit[i].name)]
          == CheckOf(Curve(fit[i], Firsts(history), exp),
                     Curve(fit[i], FutureFrame(history, events, config, m, exp).ds, exp))
    ensures r.debug.regressorDiagnostics
         == Diagnostics(ColumnNames(RunFit(history, events)), m.predict(FutureFrame(history, events, config, m, exp)).components)
    ensures m.coefficients.CoefTable? ==>
              r.debug.coefficients == Some(m.coefficients.rows) && r.debug.coeffError.None?
    ensures m.coefficients.CoefFailure? ==>
              r.debug.coefficients.None? && r.debug.coeffError == Some(m.coefficients.message)
    ensures |r.forecast.ds| == |r.forecast.yhat|
    ensures r.metrics == MetricsOf(history, r.forecast, sqrt)
  {
    var dates := Firsts(history);
    var df := HistoryFrame(history);
    var horizon := Horizon(config);
    var fit, overrides := SplitEvents(events, MaxInt(dates));

    var dfWithReg, regColumns := ApplyRegressors(df, fit, exp);
    var future := Frame(m.makeFuture(dates, horizon), map[]);
    var futureWithReg, _ := ApplyRegressors(future, fit, exp);
    var p := m.predict(futureWithReg);

    var forecast, activeOverrides := ImposeOnPrediction(p, futureWithReg.ds, overrides, config.seasonalityMode, exp);

    FitColumnsPresent(fit, df, future, exp);
    var dataCheck := BuildDataCheck(regColumns, dfWithReg, futureWithReg);
    DataCheckOfFit(fit, df, future, exp, dataCheck);

    var coefficients: Option<seq<(string, real)>> := None;
    var coeffError: Option<string> := None;
    match m.coefficients {
      case CoefTable(rows) => coefficients := Some(rows);
      case CoefFailure(msg) => coeffError := Some(msg);
    }
    var diagnostics := BuildDiagnostics(regColumns, forecast.components);

    var debug := DebugInfo(diagnostics, dataCheck, activeOverrides, coefficients, coeffError);
    r := ForecastOutput(forecast, MetricsOf(history, forecast, sqrt), debug);
  }
}
