/** Scenario reporting: the month and quarter comparison of a scenario
    forecast with a baseline, the per-regressor impact table, and the
    year-over-year comparison of the forecast with the history a year
    earlier. `today` is a parameter; so are the calendar functions that map
    a day to its month or quarter period, print a period or a date, parse a
    quarter string and shift a date back one year. */
module ScenarioAnalysis {
  import opened Common
  import opened Grouping
  import opened Regressors

  /** A forecast frame that has its `yhat` column, as long as its dates. */
  predicate HasYhat(f: Frame)
  {
    "yhat" in f.columns && |f.columns["yhat"]| == |f.ds|
  }

  /** Every column of the frame is as long as its dates. */
  predicate Rectangular(f: Frame)
  {
    forall c :: c in f.columns ==> |f.columns[c]| == |f.ds|
  }

  /** The (period, value) rows of the dates strictly after `today`, in row
      order. */
  function FutureByPeriod(ds: seq<int>, ys: seq<real>, today: int, period: int -> int): (r: Pairs)
    requires |ds| == |ys|
    ensures |r| <= |ds|
  {
    if ds == [] then []
    else
      var n := |ds| - 1;
      FutureByPeriod(ds[..n], ys[..n], today, period) + (if ds[n] > today then [(period(ds[n]), ys[n])] else [])
  }

  /** The sum of the values of the dates strictly after `today`. */
  function FutureSum(ds: seq<int>, ys: seq<real>, today: int): real
    requires |ds| == |ys|
  {
    if ds == [] then 0.0
    else
      var n := |ds| - 1;
      FutureSum(ds[..n], ys[..n], today) + (if ds[n] > today then ys[n] else 0.0)
  }

  /** Grouping by period keeps every future value: the periods' values add
      up to the future sum. */
  lemma {:induction false} FutureByPeriodTotal(ds: seq<int>, ys: seq<real>, today: int, period: int -> int)
    requires |ds| == |ys|
    ensures Total(FutureByPeriod(ds, ys, today, period)) == FutureSum(ds, ys, today)
  {
    if ds != [] {
      var n := |ds| - 1;
      FutureByPeriodTotal(ds[..n], ys[..n], today, period);
      TotalAppend(FutureByPeriod(ds[..n], ys[..n], today, period),
                  if ds[n] > today then [(period(ds[n]), ys[n])] else []);
    }
  }

  lemma {:induction false} TotalAppend(a: Pairs, b: Pairs)
    ensures Total(a + b) == Total(a) + Total(b)
  {
    if a != [] {
      assert (a + b)[1..] == a[1..] + b;
      TotalAppend(a[1..], b);
    } else {
      assert a + b == b;
    }
  }

  /** `groupby(period)['yhat'].sum()` over the future rows of a forecast. */
  function PeriodTotals(f: Frame, today: int, period: int -> int): (r: Pairs)
    requires HasYhat(f)
    ensures StrictlySorted(r)
  {
    GroupSum(FutureByPeriod(f.ds, f.columns["yhat"], today, period))
  }

  /** `Delta %`: the relative change, or 0 when the baseline is not positive. */
  function DeltaPct(scenario: real, baseline: real): (r: real)
    ensures baseline > 0.0 ==> r * baseline == scenario - baseline
    ensures baseline <= 0.0 ==> r == 0.0
  {
    if baseline > 0.0 then (scenario - baseline) / baseline else 0.0
  }

  /** A row of a comparison table; `key` is the period printed as `periodName`. */
  datatype ComparisonRow = ComparisonRow(key: int, periodName: string, scenario: real, baseline: real,
                                         delta: real, deltaPct: real)

  datatype Comparison = Comparison(monthly: seq<ComparisonRow>, quarterly: seq<ComparisonRow>)

  function RowsOf(j: seq<JoinRow>, show: int -> string): (r: seq<ComparisonRow>)
    ensures |r| == |j|
    ensures forall i :: 0 <= i < |j| ==>
      r[i] == ComparisonRow(j[i].key, show(j[i].key), j[i].left, j[i].right, j[i].left - j[i].right,
                            DeltaPct(j[i].left, j[i].right))
  {
    seq(|j|, i requires 0 <= i < |j| =>
      ComparisonRow(j[i].key, show(j[i].key), j[i].left, j[i].right, j[i].left - j[i].right,
                    DeltaPct(j[i].left, j[i].right)))
  }

  /** Whether a baseline takes part in the comparison (present, not empty). */
  predicate UsesBaseline(baseline: Option<Frame>)
  {
    baseline.Some? && |baseline.value.ds| > 0
  }

  /** The baseline's per-period totals; none when there is no baseline. */
  function BaselineTotals(baseline: Option<Frame>, today: int, period: int -> int): (r: Pairs)
    requires baseline.Some? ==> HasYhat(baseline.value)
    ensures StrictlySorted(r)
  {
    if UsesBaseline(baseline) then PeriodTotals(baseline.value, today, period) else []
  }

  /** One comparison table: the union of the scenario's and the baseline's
      periods in ascending order, each side filled with 0 where it has no
      row (with no baseline the whole Baseline column is NaN filled with
      0), then the delta and the guarded percentage. */
  function ComparisonTable(f: Frame, baseline: Option<Frame>, today: int, period: int -> int,
                           show: int -> string): (r: seq<ComparisonRow>)
    requires HasYhat(f)
    requires baseline.Some? ==> HasYhat(baseline.value)
    ensures forall i, j :: 0 <= i < j < |r| ==> r[i].key < r[j].key
    ensures (set i | 0 <= i < |r| :: r[i].key)
         == Keys(PeriodTotals(f, today, period)) + Keys(BaselineTotals(baseline, today, period))
    ensures forall i :: 0 <= i < |r| ==>
      && r[i].periodName == show(r[i].key)
      && r[i].scenario == SumFor(FutureByPeriod(f.ds, f.columns["yhat"], today, period), r[i].key)
      && r[i].baseline == (if UsesBaseline(baseline)
                           then SumFor(FutureByPeriod(baseline.value.ds, baseline.value.columns["yhat"],
                                                      today, period), r[i].key)
                           else 0.0)
      && r[i].delta == r[i].scenario - r[i].baseline
      && r[i].deltaPct == DeltaPct(r[i].scenario, r[i].baseline)
  {
    var s := PeriodTotals(f, today, period);
    var b := BaselineTotals(baseline, today, period);
    var j := OuterJoin(s, b);
    var r := RowsOf(j, show);
    assert forall i :: 0 <= i < |r| ==> r[i].key == j[i].key;
    assert (set i | 0 <= i < |r| :: r[i].key) == JoinKeys(j);
    r
  }

  /** `calculate_scenario_comparison`: `None` for a missing or empty
      forecast, else the monthly and the quarterly table. */
  function ScenarioComparison(forecast: Option<Frame>, baseline: Option<Frame>, today: int,
                              month: int -> int, quarter: int -> int,
                              monthLabel: int -> string, quarterLabel: int -> string): (r: Option<Comparison>)
    requires forecast.Some? ==> HasYhat(forecast.value)
    requires baseline.Some? ==> HasYhat(baseline.value)
    ensures r.None? <==> forecast.None? || |forecast.value.ds| == 0
    ensures r.Some? ==>
      r.value.monthly == ComparisonTable(forecast.value, baseline, today, month, monthLabel)
      && r.value.quarterly == ComparisonTable(forecast.value, baseline, today, quarter, quarterLabel)
  {
    if forecast.None? || |forecast.value.ds| == 0 then None
    else Some(Comparison(ComparisonTable(forecast.value, baseline, today, month, monthLabel),
                         ComparisonTable(forecast.value, baseline, today, quarter, quarterLabel)))
  }

  function SumScenario(r: seq<ComparisonRow>): real
  {
    if r == [] then 0.0 else r[0].scenario + SumScenario(r[1..])
  }

  function SumLeft(j: seq<JoinRow>): real
  {
    if j == [] then 0.0 else j[0].left + SumLeft(j[1..])
  }

  /** The left column of an outer join adds up to the left input's total. */
  lemma {:induction false} JoinLeftTotal(a: Pairs, b: Pairs)
    requires StrictlySorted(a) && StrictlySorted(b)
    ensures SumLeft(OuterJoin(a, b)) == Total(a)
    decreases |a| + |b|
  {
    if a == [] && b == [] {
    } else if b == [] || (a != [] && a[0].0 < b[0].0) {
      SortedHead(a);
      JoinLeftTotal(a[1..], b);
    } else if a == [] || b[0].0 < a[0].0 {
      SortedHead(b);
      JoinLeftTotal(a, b[1..]);
    } else {
      SortedHead(a);
      SortedHead(b);
      JoinLeftTotal(a[1..], b[1..]);
    }
  }

  lemma {:induction false} SumScenarioRows(j: seq<JoinRow>, show: int -> string)
    ensures SumScenario(RowsOf(j, show)) == SumLeft(j)
  {
    if j != [] {
      assert RowsOf(j, show)[1..] == RowsOf(j[1..], show);
      SumScenarioRows(j[1..], show);
    }
  }

  /** Aggregation loses nothing: the Scenario column of a table adds up to
      the forecast's `yhat` summed over the dates after `today`, whatever
      the baseline. */
  lemma ScenarioColumnTotal(f: Frame, baseline: Option<Frame>, today: int, period: int -> int,
                            show: int -> string)
    requires HasYhat(f)
    requires baseline.Some? ==> HasYhat(baseline.value)
    ensures SumScenario(ComparisonTable(f, baseline, today, period, show)) == FutureSum(f.ds, f.columns["yhat"], today)
  {
    var s := PeriodTotals(f, today, period);
    var b := BaselineTotals(baseline, today, period);
    SumScenarioRows(OuterJoin(s, b), show);
    JoinLeftTotal(s, b);
    FutureByPeriodTotal(f.ds, f.columns["yhat"], today, period);
  }

  /** Without a baseline the table has exactly the scenario's periods and
      a zero Baseline column, so Delta is the Scenario value and Delta % is 0. */
  lemma NoBaselineRows(f: Frame, baseline: Option<Frame>, today: int, period: int -> int, show: int -> string)
    requires HasYhat(f)
    requires baseline.Some? ==> HasYhat(baseline.value)
    requires !UsesBaseline(baseline)
    ensures var r := ComparisonTable(f, baseline, today, period, show);
      && (set i | 0 <= i < |r| :: r[i].key) == Keys(PeriodTotals(f, today, period))
      && forall i :: 0 <= i < |r| ==> r[i].baseline == 0.0 && r[i].delta == r[i].scenario && r[i].deltaPct == 0.0
  {
  }

  // ---------------------------------------------------------------------
  // analyze_regressor_impacts

  /** The rows a report covers: dates after `today`, and inside the target
      quarter's first and last day when a quarter was parsed. */
  datatype Scope = Scope(title: string, bounds: Option<(int, int)>)

  /** `target_period_str`: a non-empty string holding 'Q' that parses as a
      quarter narrows the scope to it; anything else keeps the total future. */
  function ScopeOf(target: Option<string>, parseQuarter: string -> Option<(int, int)>): (s: Scope)
    ensures s.bounds.Some? <==>
      target.Some? && 'Q' in target.value && parseQuarter(target.value).Some?
    ensures s.bounds.Some? ==> s == Scope("Impact in " + target.value, parseQuarter(target.value))
    ensures s.bounds.None? ==> s.title == "Totale Futuro"
  {
    if target.Some? && target.value != "" && 'Q' in target.value then
      var b := parseQuarter(target.value);
      if b.Some? then Scope("Impact in " + target.value, b) else Scope("Totale Futuro", None)
    else Scope("Totale Futuro", None)
  }

  predicate InScope(d: int, today: int, s: Scope)
  {
    d > today && (s.bounds.None? || s.bounds.value.0 <= d <= s.bounds.value.1)
  }

  /** The values of a column on the rows in scope, in row order. */
  function Scoped(ds: seq<int>, col: seq<real>, today: int, s: Scope): (r: seq<real>)
    requires |ds| == |col|
    ensures |r| <= |ds|
  {
    if ds == [] then []
    else
      var n := |ds| - 1;
      Scoped(ds[..n], col[..n], today, s) + (if InScope(ds[n], today, s) then [col[n]] else [])
  }

  /** Adding values outside the scope changes no scoped sum. */
  lemma {:induction false} ScopedIgnoresOutside(ds: seq<int>, col: seq<real>, today: int, s: Scope, d: int, v: real)
    requires |ds| == |col|
    requires !InScope(d, today, s)
    ensures Scoped(ds + [d], col + [v], today, s) == Scoped(ds, col, today, s)
  {
    assert (ds + [d])[..|ds|] == ds;
    assert (col + [v])[..|col|] == col;
  }

  predicate AnyInScope(ds: seq<int>, today: int, s: Scope)
  {
    exists i :: 0 <= i < |ds| && InScope(ds[i], today, s)
  }

  /** A row of the impact table: the event's name and shape, its column
      summed over the scope and truncated to an integer, and its impact
      parameter. */
  datatype ImpactRow = ImpactRow(name: string, kind: string, clicks: int, impactParam: real)

  /** No table (no forecast or no events), the empty table of a scope
      without rows, or the rows under the scope's title. */
  datatype ImpactTable = NoTable | EmptyScope | Table(title: string, rows: seq<ImpactRow>)

  /** The rows of the events whose name is a forecast column, in event order. */
  function ImpactRows(events: seq<Event>, f: Frame, today: int, s: Scope): seq<ImpactRow>
    requires Rectangular(f)
  {
    if events == [] then []
    else
      var n := |events| - 1;
      var e := events[n];
      ImpactRows(events[..n], f, today, s)
        + (if e.name in f.columns
           then [ImpactRow(e.name, e.kind, Trunc(Sum(Scoped(f.ds, f.columns[e.name], today, s))), e.impact)]
           else [])
  }

  /** What `analyze_regressor_impacts` returns. */
  function RegressorImpacts(forecast: Option<Frame>, events: seq<Event>, target: Option<string>, today: int,
                            parseQuarter: string -> Option<(int, int)>): ImpactTable
    requires forecast.Some? ==> Rectangular(forecast.value)
  {
    if forecast.None? || events == [] then NoTable
    else
      var s := ScopeOf(target, parseQuarter);
      if !AnyInScope(forecast.value.ds, today, s) then EmptyScope
      else Table(s.title, ImpactRows(events, forecast.value, today, s))
  }

  lemma ImpactRowsStep(events: seq<Event>, f: Frame, today: int, s: Scope, i: nat)
    requires Rectangular(f) && i < |events|
    ensures ImpactRows(events[..i + 1], f, today, s)
         == ImpactRows(events[..i], f, today, s) + ImpactRows([events[i]], f, today, s)
  {
    assert events[..i + 1][..i] == events[..i];
    assert [events[i]][..0] == [];
  }

  /** `analyze_regressor_impacts`: the scope, then a loop over the events
      appending one row per event whose name is a forecast column. */
  method AnalyzeRegressorImpacts(forecast: Option<Frame>, events: seq<Event>, target: Option<string>, today: int,
                                 parseQuarter: string -> Option<(int, int)>)
    returns (t: ImpactTable)
    requires forecast.Some? ==> Rectangular(forecast.value)
    ensures t == RegressorImpacts(forecast, events, target, today, parseQuarter)
  {
    if forecast.None? || events == [] {
      return NoTable;
    }
    var f := forecast.value;
    var scope := ScopeOf(target, parseQuarter);
    var any := false;
    var k := 0;
    while k < |f.ds|
      invariant 0 <= k <= |f.ds|
      invariant any <==> exists i :: 0 <= i < k && InScope(f.ds[i], today, scope)
    {
      if f.ds[k] > today && (scope.bounds.None? || scope.bounds.value.0 <= f.ds[k] <= scope.bounds.value.1) {
        any := true;
      }
      k := k + 1;
    }
    if !any {
      return EmptyScope;
    }
    var results: seq<ImpactRow> := [];
    var i := 0;
    while i < |events|
      invariant 0 <= i <= |events|
      invariant results == ImpactRows(events[..i], f, today, scope)
    {
      var evt := events[i];
      ImpactRowsStep(events, f, today, scope, i);
      if evt.name in f.columns {
        var totalImpact := Sum(Scoped(f.ds, f.columns[evt.name], today, scope));
        results := results + [ImpactRow(evt.name, evt.kind, Trunc(totalImpact), evt.impact)];
      }
      i := i + 1;
    }
    assert events[..i] == events;
    return Table(scope.title, results);
  }

  /** The impact rows of a list of events are those of its parts, in order. */
  lemma {:induction false} ImpactRowsAppend(a: seq<Event>, b: seq<Event>, f: Frame, today: int, s: Scope)
    requires Rectangular(f)
    ensures ImpactRows(a + b, f, today, s) == ImpactRows(a, f, today, s) + ImpactRows(b, f, today, s)
  {
    if b == [] {
      assert a + b == a;
    } else {
      var n := |b| - 1;
      assert (a + b)[..|a + b| - 1] == a + b[..n];
      ImpactRowsAppend(a, b[..n], f, today, s);
    }
  }

  /** One event gives one row exactly when its name is a forecast column;
      the row holds its column's scoped sum, truncated. */
  lemma ImpactRowOfEvent(e: Event, f: Frame, today: int, s: Scope)
    requires Rectangular(f)
    ensures e.name in f.columns ==>
      ImpactRows([e], f, today, s)
        == [ImpactRow(e.name, e.kind, Trunc(Sum(Scoped(f.ds, f.columns[e.name], today, s))), e.impact)]
    ensures e.name !in f.columns ==> ImpactRows([e], f, today, s) == []
  {
    assert [e][..0] == [];
  }

  /** At most one row per event, and every row names a forecast column. */
  lemma {:induction false} ImpactRowsFromColumns(events: seq<Event>, f: Frame, today: int, s: Scope)
    requires Rectangular(f)
    ensures |ImpactRows(events, f, today, s)| <= |events|
    ensures forall r :: r in ImpactRows(events, f, today, s) ==> r.name in f.columns
  {
    if events != [] {
      ImpactRowsFromColumns(events[..|events| - 1], f, today, s);
    }
  }

  // ---------------------------------------------------------------------
  // calculate_total_yoy_metrics

  /** The outcome of the year-over-year comparison; `deltaPct` is a
      fraction, not a percentage. */
  datatype Yoy =
    | NoForecast
    | InsufficientHistory(msg: Option<string>)
    | YoyError(message: string)
    | YoyOk(deltaAbs: real, deltaPct: real, forecastMean: real, historyMean: real, periodLabel: string)

  /** The forecast's future rows' dates and predictions. */
  function FutureDates(ds: seq<int>, today: int): (r: seq<int>)
    ensures forall i :: 0 <= i < |r| ==> r[i] > today
    ensures |r| == 0 <==> forall i :: 0 <= i < |ds| ==> ds[i] <= today
  {
    if ds == [] then []
    else
      var n := |ds| - 1;
      var r := FutureDates(ds[..n], today) + (if ds[n] > today then [ds[n]] else []);
      assert forall i :: 0 <= i < n ==> ds[..n][i] == ds[i];
      r
  }

  function FutureYhat(ds: seq<int>, ys: seq<real>, today: int): (r: seq<real>)
    requires |ds| == |ys|
    ensures |r| == |FutureDates(ds, today)|
  {
    if ds == [] then []
    else
      var n := |ds| - 1;
      FutureYhat(ds[..n], ys[..n], today) + (if ds[n] > today then [ys[n]] else [])
  }

  /** The clicks of the history rows dated from `lo` to `hi`. */
  function Matched(history: seq<(int, real)>, lo: int, hi: int): (r: seq<real>)
    ensures |r| <= |history|
    ensures |r| == 0 <==> forall i :: 0 <= i < |history| ==> !(lo <= history[i].0 <= hi)
  {
    if history == [] then []
    else
      var n := |history| - 1;
      var r := Matched(history[..n], lo, hi) + (if lo <= history[n].0 <= hi then [history[n].1] else []);
      assert forall i :: 0 <= i < n ==> history[..n][i] == history[i];
      r
  }

  /** The last step of the comparison: the means and their difference,
      unless the historical mean is zero. */
  function YoyOfMeans(meanF: real, matched: seq<real>, period: string): (r: Yoy)
    requires matched != []
    ensures r.YoyError? <==> Mean(matched).value == 0.0
    ensures r.YoyError? ==> r == YoyError("Media storica zero")
    ensures !r.YoyError? ==> r.YoyOk? && r.periodLabel == period
    ensures r.YoyOk? ==>
      && r.historyMean == Mean(matched).value && r.historyMean != 0.0
      && r.forecastMean == meanF
      && r.deltaAbs == r.forecastMean - r.historyMean
      && r.deltaPct * r.historyMean == r.deltaAbs
      && (r.historyMean > 0.0 ==> (r.deltaPct > 0.0 <==> r.forecastMean > r.historyMean))
  {
    var meanH := Mean(matched).value;
    if meanH == 0.0 then YoyError("Media storica zero")
    else
      var deltaAbs := meanF - meanH;
      var pct := deltaAbs / meanH;
      PctSign(deltaAbs, meanH, pct);
      YoyOk(deltaAbs, pct, meanF, meanH, period)
  }

  /** The comparison once the forecast has future rows and the history is
      not empty: the coverage checks, then the means. */
  function YoyOfWindow(f: Frame, history: seq<(int, real)>, today: int,
                       minusYear: int -> int, dateLabel: int -> string): (r: Yoy)
    requires HasYhat(f) && history != [] && FutureDates(f.ds, today) != []
    ensures r.YoyOk? || r.YoyError? || (r.InsufficientHistory? && r.msg.Some?)
    ensures var future := FutureDates(f.ds, today);
      var startH, endH := minusYear(MinInt(future).value), minusYear(MaxInt(future).value);
      r.YoyOk? || r.YoyError? ==>
        && (exists i :: 0 <= i < |history| && history[i].0 <= startH)
        && (exists i :: 0 <= i < |history| && history[i].0 >= endH)
        && Matched(history, startH, endH) != []
    ensures var future := FutureDates(f.ds, today);
      var startH, endH := minusYear(MinInt(future).value), minusYear(MaxInt(future).value);
      var days := Firsts(history);
      && (r == InsufficientHistory(Some("Mancano dati storici iniziali")) <==> MinInt(days).value > startH)
      && ((r == InsufficientHistory(Some("Mancano dati storici finali")))
          <==> (MinInt(days).value <= startH && MaxInt(days).value < endH))
    ensures var future := FutureDates(f.ds, today);
      var startH, endH := minusYear(MinInt(future).value), minusYear(MaxInt(future).value);
      var days := Firsts(history);
      var covered := MinInt(days).value <= startH && MaxInt(days).value >= endH;
      && (r == InsufficientHistory(Some("Nessun dato storico nel periodo"))
          <==> covered && Matched(history, startH, endH) == [])
      && (covered && Matched(history, startH, endH) != [] ==>
            r == YoyOfMeans(Mean(FutureYhat(f.ds, f.columns["yhat"], today)).value,
                            Matched(history, startH, endH),
                            dateLabel(MinInt(future).value) + " - " + dateLabel(MaxInt(future).value)))
  {
    var future := FutureDates(f.ds, today);
    var startF, endF := MinInt(future).value, MaxInt(future).value;
    var startH, endH := minusYear(startF), minusYear(endF);
    var days := Firsts(history);
    if MinInt(days).value > startH then InsufficientHistory(Some("Mancano dati storici iniziali"))
    else if MaxInt(days).value < endH then InsufficientHistory(Some("Mancano dati storici finali"))
    else
      var matched := Matched(history, startH, endH);
      if matched == [] then InsufficientHistory(Some("Nessun dato storico nel periodo"))
      else
        var i :| 0 <= i < |days| && days[i] == MinInt(days).value;
        var j :| 0 <= j < |days| && days[j] == MaxInt(days).value;
        assert history[i].0 <= startH && history[j].0 >= endH;
        YoyOfMeans(Mean(FutureYhat(f.ds, f.columns["yhat"], today)).value, matched,
                   dateLabel(startF) + " - " + dateLabel(endF))
  }

  /** `calculate_total_yoy_metrics`: the mean daily prediction of the
      future against the mean daily clicks of the same dates a year
      earlier. `history` holds the (date, clicks) rows, whichever of the
      `date`/`ds` and `clicks`/`y` column names it uses. */
  function TotalYoy(forecast: Option<Frame>, history: Option<seq<(int, real)>>, today: int,
                    minusYear: int -> int, dateLabel: int -> string): (r: Yoy)
    requires forecast.Some? ==> HasYhat(forecast.value)
    ensures r.NoForecast? <==> (forecast.None? || |forecast.value.ds| == 0
      || (history.Some? && history.value != [] && FutureDates(forecast.value.ds, today) == []))
    ensures r == InsufficientHistory(None) <==>
      (forecast.Some? && |forecast.value.ds| > 0 && (history.None? || history.value == []))
    ensures forecast.Some? && |forecast.value.ds| > 0 && history.Some? && history.value != []
              && FutureDates(forecast.value.ds, today) != [] ==>
      r == YoyOfWindow(forecast.value, history.value, today, minusYear, dateLabel)
  {
    if forecast.None? || |forecast.value.ds| == 0 then NoForecast
    else if history.None? || history.value == [] then InsufficientHistory(None)
    else if FutureDates(forecast.value.ds, today) == [] then NoForecast
    else YoyOfWindow(forecast.value, history.value, today, minusYear, dateLabel)
  }

  /** Over a positive base, a fraction is positive exactly when the
      difference it measures is. */
  lemma PctSign(d: real, h: real, p: real)
    requires p * h == d
    ensures h > 0.0 ==> (p > 0.0 <==> d > 0.0)
  {
    if h > 0.0 {
      if p > 0.0 { assert p * h > 0.0; }
      if p <= 0.0 { assert p * h <= 0.0; }
    }
  }
}
