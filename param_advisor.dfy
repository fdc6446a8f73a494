/** Heuristic suggestions for the forecasting model's parameters, read off
    a daily clicks history: a decision table over a few statistics of the
    series (its span, the growth between its halves, the spread of the
    weekday means and its day-to-day volatility). */
module ParamAdvisor {
  import opened Common

  /** One row of the history: a day number and that day's clicks. */
  datatype Observation = Observation(date: int, clicks: real)

  /** `yearly_seasonality`: the string "auto" or a boolean. */
  datatype Yearly = Auto | Fixed(on: bool)

  /** The suggestions dictionary. */
  datatype Suggestions = Suggestions(seasonalityMode: string, yearlySeasonality: Yearly,
                                     weeklySeasonality: bool, changepointPriorScale: real,
                                     changepointRange: real, reasons: seq<string>)

  const Defaults := Suggestions("additive", Auto, true, 0.05, 0.8, [])

  const ShortHistoryReason := "Meno di 6 mesi di dati: Stagionalità annuale disabilitata."
  const LongHistoryReason := "Più di 1 anno di dati: Stagionalità annuale attiva."
  const GrowthReason := "Trend e varianza in crescita: Suggerita modalità 'multiplicative'."
  const WeeklyReason := "Rilevata forte variazione settimanale (es. calo weekend)."
  const NoWeeklyReason := "Variazione settimanale minima."
  const HighVolatilityReason := "Alta volatilità rilevata: Changepoint Scale aumentato a 0.1 per flessibilità."
  const LowVolatilityReason := "Bassa volatilità: Changepoint Scale ridotto a 0.01 per trend più rigido."

  // ---------------------------------------------------------------------
  // Sorting by date

  predicate DatesAscending(s: seq<Observation>)
  {
    forall i, j :: 0 <= i < j < |s| ==> s[i].date <= s[j].date
  }

  /** Places `x` before the first row with a later date. */
  function InsertByDate(s: seq<Observation>, x: Observation): (r: seq<Observation>)
    ensures multiset(r) == multiset(s) + multiset{x}
    ensures |r| == |s| + 1
  {
    if s == [] then [x]
    else if x.date < s[0].date then [x] + s
    else
      assert s == [s[0]] + s[1..];
      [s[0]] + InsertByDate(s[1..], x)
  }

  /** Inserting a row no earlier than `b` into rows no earlier than `b`
      gives rows no earlier than `b`. */
  lemma {:induction false} InsertByDateBound(s: seq<Observation>, x: Observation, b: int)
    requires forall i :: 0 <= i < |s| ==> b <= s[i].date
    requires b <= x.date
    ensures forall k :: 0 <= k < |InsertByDate(s, x)| ==> b <= InsertByDate(s, x)[k].date
  {
    if s != [] && x.date >= s[0].date {
      InsertByDateBound(s[1..], x, b);
      assert InsertByDate(s, x) == [s[0]] + InsertByDate(s[1..], x);
    }
  }

  lemma ConsAscending(h: Observation, t: seq<Observation>)
    requires DatesAscending(t)
    requires forall k :: 0 <= k < |t| ==> h.date <= t[k].date
    ensures DatesAscending([h] + t)
  {
    var r := [h] + t;
    forall i, j | 0 <= i < j < |r| ensures r[i].date <= r[j].date {
      if i == 0 {
        assert r[j] == t[j - 1];
      } else {
        assert r[i] == t[i - 1] && r[j] == t[j - 1];
      }
    }
  }

  lemma {:induction false} InsertByDateSorted(s: seq<Observation>, x: Observation)
    requires DatesAscending(s)
    ensures DatesAscending(InsertByDate(s, x))
  {
    if s == [] {
    } else if x.date < s[0].date {
      ConsAscending(x, s);
    } else {
      InsertByDateSorted(s[1..], x);
      InsertByDateBound(s[1..], x, s[0].date);
      ConsAscending(s[0], InsertByDate(s[1..], x));
    }
  }

  /** `df.sort_values('date')`: the same rows in date order. */
  function SortByDate(s: seq<Observation>): (r: seq<Observation>)
    ensures multiset(r) == multiset(s)
    ensures |r| == |s|
  {
    if s == [] then []
    else
      var n := |s| - 1;
      assert s == s[..n] + [s[n]];
      InsertByDate(SortByDate(s[..n]), s[n])
  }

  lemma {:induction false} SortByDateSorted(s: seq<Observation>)
    ensures DatesAscending(SortByDate(s))
  {
    if s != [] {
      SortByDateSorted(s[..|s| - 1]);
      InsertByDateSorted(SortByDate(s[..|s| - 1]), s[|s| - 1]);
    }
  }

  // ---------------------------------------------------------------------
  // Statistics

  /** The clicks column. */
  function Clicks(s: seq<Observation>): (y: seq<real>)
    ensures |y| == |s|
    ensures forall i :: 0 <= i < |s| ==> y[i] == s[i].clicks
  {
    seq(|s|, i requires 0 <= i < |s| => s[i].clicks)
  }

  /** The date column. */
  function Dates(s: seq<Observation>): (d: seq<int>)
    ensures |d| == |s|
    ensures forall i :: 0 <= i < |s| ==> d[i] == s[i].date
  {
    seq(|s|, i requires 0 <= i < |s| => s[i].date)
  }

  /** `(df['date'].max() - df['date'].min()).days` */
  function Span(s: seq<Observation>): (days: int)
    requires s != []
    ensures days >= 0
  {
    MaxInt(Dates(s)).value - MinInt(Dates(s)).value
  }

  /** For rows in date order the span runs from the first row to the last. */
  lemma SpanOfAscending(s: seq<Observation>)
    requires s != [] && DatesAscending(s)
    ensures Span(s) == s[|s| - 1].date - s[0].date
  {
    var hi := MaxInt(Dates(s)).value;
    var lo := MinInt(Dates(s)).value;
    var i :| 0 <= i < |s| && Dates(s)[i] == hi;
    var j :| 0 <= j < |s| && Dates(s)[j] == lo;
    assert Dates(s)[|s| - 1] <= hi && Dates(s)[0] >= lo;
    assert s[i].date <= s[|s| - 1].date && s[0].date <= s[j].date;
  }

  /** Whether `num / den > t` under floating-point division, with `None`
      for NaN: dividing by zero gives an infinity of the numerator's sign,
      or NaN for a zero numerator. */
  function DivExceeds(num: Option<real>, den: Option<real>, t: real): (r: bool)
    ensures num.None? || den.None? ==> !r
    ensures num.Some? && den.Some? && den.value != 0.0 ==> (r <==> num.value / den.value > t)
    ensures num.Some? && den.Some? && den.value == 0.0 ==> (r <==> num.value > 0.0)
  {
    if num.None? || den.None? then false
    else if den.value > 0.0 then num.value > t * den.value
    else if den.value < 0.0 then num.value < t * den.value
    else num.value > 0.0
  }

  /** The seasonality-mode test: both halves of the series have a positive
      mean, the second mean is over 1.5 times the first and the second
      standard deviation over 1.3 times the first. `std` is the sample
      standard deviation, `None` (NaN) for fewer than two values. */
  predicate GrowthDetected(y: seq<real>, std: seq<real> -> Option<real>)
  {
    var half := |y| / 2;
    var m1 := Mean(y[..half]);
    var m2 := Mean(y[half..]);
    && m1.Some? && m2.Some? && m1.value > 0.0 && m2.value > 0.0
    && m2.value / m1.value > 1.5
    && DivExceeds(std(y[half..]), std(y[..half]), 1.3)
  }

  /** When growth is detected, the mean of the later half really is over
      1.5 times that of the earlier half, and a one-row series never
      shows growth. */
  lemma GrowthMeansRise(y: seq<real>, std: seq<real> -> Option<real>)
    ensures GrowthDetected(y, std) ==> Mean(y[|y| / 2..]).value > 1.5 * Mean(y[..|y| / 2]).value
    ensures |y| <= 1 ==> !GrowthDetected(y, std)
  {
    if GrowthDetected(y, std) {
      var a := Mean(y[..|y| / 2]).value;
      var b := Mean(y[|y| / 2..]).value;
      QuotientBound(b, a, 1.5);
    }
  }

  lemma QuotientBound(b: real, a: real, t: real)
    requires a > 0.0 && b / a > t
    ensures b > t * a
  {
    assert b == (b / a) * a;
  }

  /** `np.abs(np.diff(y))` */
  function Diffs(y: seq<real>): (d: seq<real>)
    ensures |y| > 0 ==> |d| == |y| - 1
    ensures |y| == 0 ==> d == []
    ensures forall i :: 0 <= i < |d| ==> d[i] == Abs(y[i + 1] - y[i])
  {
    if |y| <= 1 then [] else seq(|y| - 1, i requires 0 <= i < |y| - 1 => Abs(y[i + 1] - y[i]))
  }

  /** Mean absolute day-to-day change relative to the mean; 0 when the
      mean is not positive and NaN (`None`) when there is no change to
      average over. */
  function Volatility(y: seq<real>): (v: Option<real>)
    requires y != []
    ensures Mean(y).value <= 0.0 ==> v == Some(0.0)
    ensures Mean(y).value > 0.0 ==> (v.None? <==> |y| == 1)
    ensures Mean(y).value > 0.0 && v.Some? ==> v.value * Mean(y).value == Mean(Diffs(y)).value
  {
    var m := Mean(y).value;
    if m > 0.0 then
      var d := Mean(Diffs(y));
      if d.None? then None else Some(d.value / m)
    else Some(0.0)
  }

  /** pandas' `dt.weekday` on a day number, Monday being 0; day 0 is
      1 January 1970, a Thursday. */
  function Weekday(day: int): (w: int)
    ensures 0 <= w < 7
  {
    (day + 3) % 7
  }

  /** The clicks of the rows falling on weekday `d`; the first row's
      weekday always has some. */
  function ClicksOn(s: seq<Observation>, d: int): (r: seq<real>)
    ensures |r| <= |s|
    ensures s != [] && d == Weekday(s[0].date) ==> r != []
  {
    if s == [] then []
    else (if Weekday(s[0].date) == d then [s[0].clicks] else []) + ClicksOn(s[1..], d)
  }

  /** `df.groupby('weekday')['clicks'].mean()` for weekdays `d` and later,
      in weekday order; a non-empty history has at least one weekday mean. */
  function WeeklyMeans(s: seq<Observation>, d: int): (r: seq<real>)
    requires 0 <= d <= 7
    ensures s != [] && d <= Weekday(s[0].date) ==> r != []
    decreases 7 - d
  {
    if d == 7 then []
    else (if ClicksOn(s, d) != [] then [Mean(ClicksOn(s, d)).value] else []) + WeeklyMeans(s, d + 1)
  }

  /** `weekly_means.max() - weekly_means.min()` */
  function WeeklySpread(s: seq<Observation>): (r: real)
    requires s != []
    ensures r >= 0.0
  {
    var means := WeeklyMeans(s, 0);
    var hi := MaxOf(means).value;
    var lo := MinOf(means).value;
    assert lo <= means[0] <= hi;
    hi - lo
  }

  /** The weekly rule: the weekday means differ by more than a fifth of
      the overall mean. */
  predicate WeeklyDetected(s: seq<Observation>)
    requires s != []
  {
    WeeklySpread(s) > Mean(Clicks(s)).value * 0.2
  }

  /** The changepoint prior scale a volatility calls for. */
  function ScaleFor(v: Option<real>): (scale: real)
    ensures scale == 0.1 <==> v.Some? && v.value > 0.5
    ensures scale == 0.01 <==> v.Some? && v.value < 0.1
    ensures scale == 0.05 <==> v.None? || 0.1 <= v.value <= 0.5
  {
    if v.Some? && v.value > 0.5 then 0.1
    else if v.Some? && v.value < 0.1 then 0.01
    else 0.05
  }

  // ---------------------------------------------------------------------
  // The reasons each rule gives

  function YearlyReasons(days: int): (r: seq<string>)
    ensures r == [] <==> 180 <= days <= 370
    ensures |r| <= 1
  {
    if days < 180 then [ShortHistoryReason] else if days > 370 then [LongHistoryReason] else []
  }

  function ModeReasons(growth: bool): (r: seq<string>)
    ensures |r| == if growth then 1 else 0
  {
    if growth then [GrowthReason] else []
  }

  function WeeklyReasonFor(weekly: bool): (r: string)
    ensures r == WeeklyReason <==> weekly
  {
    if weekly then WeeklyReason else NoWeeklyReason
  }

  function ScaleReasons(scale: real): (r: seq<string>)
    ensures |r| == if scale == 0.1 || scale == 0.01 then 1 else 0
  {
    if scale == 0.1 then [HighVolatilityReason] else if scale == 0.01 then [LowVolatilityReason] else []
  }

  // ---------------------------------------------------------------------
  // The rules

  /** Rule 1: under 180 days of history the yearly seasonality is switched
      off, over 370 days it is switched on, and in between it stays "auto".
      The other settings are untouched. */
  method YearlyRule(s: Suggestions, days: int) returns (t: Suggestions)
    ensures t.yearlySeasonality
         == (if days < 180 then Fixed(false) else if days > 370 then Fixed(true) else s.yearlySeasonality)
    ensures t.reasons == s.reasons + YearlyReasons(days)
    ensures t.seasonalityMode == s.seasonalityMode && t.weeklySeasonality == s.weeklySeasonality
    ensures t.changepointPriorScale == s.changepointPriorScale && t.changepointRange == s.changepointRange
  {
    t := s;
    if days < 180 {
      t := t.(yearlySeasonality := Fixed(false), reasons := t.reasons + [ShortHistoryReason]);
    } else if days > 370 {
      t := t.(yearlySeasonality := Fixed(true), reasons := t.reasons + [LongHistoryReason]);
    }
  }

  /** Rule 2: growth of both the level and the spread between the two
      halves of the series switches to multiplicative seasonality. */
  method ModeRule(s: Suggestions, y: seq<real>, std: seq<real> -> Option<real>) returns (t: Suggestions)
    ensures t.seasonalityMode == (if GrowthDetected(y, std) then "multiplicative" else s.seasonalityMode)
    ensures t.reasons == s.reasons + ModeReasons(GrowthDetected(y, std))
    ensures t.yearlySeasonality == s.yearlySeasonality && t.weeklySeasonality == s.weeklySeasonality
    ensures t.changepointPriorScale == s.changepointPriorScale && t.changepointRange == s.changepointRange
  {
    t := s;
    var half := |y| / 2;
    var part1 := y[..half];
    var part2 := y[half..];
    var mean1 := Mean(part1);
    var mean2 := Mean(part2);
    if mean1.Some? && mean2.Some? && mean1.value > 0.0 && mean2.value > 0.0 {
      var meanGrowth := mean2.value / mean1.value;
      if meanGrowth > 1.5 && DivExceeds(std(part2), std(part1), 1.3) {
        t := t.(seasonalityMode := "multiplicative", reasons := t.reasons + [GrowthReason]);
      }
    }
  }

  /** Rule 3: the weekly seasonality is on exactly when the weekday means
      spread widely; one reason is given either way. */
  method WeeklyRule(s: Suggestions, rows: seq<Observation>) returns (t: Suggestions)
    requires rows != []
    ensures t.weeklySeasonality == WeeklyDetected(rows)
    ensures t.reasons == s.reasons + [WeeklyReasonFor(WeeklyDetected(rows))]
    ensures t.yearlySeasonality == s.yearlySeasonality && t.seasonalityMode == s.seasonalityMode
    ensures t.changepointPriorScale == s.changepointPriorScale && t.changepointRange == s.changepointRange
  {
    var spread := WeeklySpread(rows);
    if spread > Mean(Clicks(rows)).value * 0.2 {
      t := s.(weeklySeasonality := true, reasons := s.reasons + [WeeklyReason]);
    } else {
      t := s.(weeklySeasonality := false, reasons := s.reasons + [NoWeeklyReason]);
    }
  }

  /** Rule 4: high volatility loosens the trend (scale 0.1), low volatility
      stiffens it (0.01); otherwise the scale stays as it is. */
  method ScaleRule(s: Suggestions, y: seq<real>) returns (t: Suggestions)
    requires y != []
    ensures var scale := ScaleFor(Volatility(y));
      t.changepointPriorScale == (if scale == 0.05 then s.changepointPriorScale else scale)
    ensures t.reasons == s.reasons + ScaleReasons(ScaleFor(Volatility(y)))
    ensures t.yearlySeasonality == s.yearlySeasonality && t.seasonalityMode == s.seasonalityMode
    ensures t.weeklySeasonality == s.weeklySeasonality && t.changepointRange == s.changepointRange
  {
    t := s;
    var volatility := Volatility(y);
    if volatility.Some? && volatility.value > 0.5 {
      t := t.(changepointPriorScale := 0.1, reasons := t.reasons + [HighVolatilityReason]);
    } else if volatility.Some? && volatility.value < 0.1 {
      t := t.(changepointPriorScale := 0.01, reasons := t.reasons + [LowVolatilityReason]);
    }
  }

  /** The reasons the rules give, in the order they run: one for the
      weekly rule and one for each other rule that changed its setting. */
  lemma ReasonsCount(days: int, growth: bool, weekly: bool, scale: real)
    ensures var r := YearlyReasons(days) + ModeReasons(growth) + [WeeklyReasonFor(weekly)] + ScaleReasons(scale);
      && |r| == 1 + (if 180 <= days <= 370 then 0 else 1) + (if growth then 1 else 0)
                  + (if scale == 0.1 || scale == 0.01 then 1 else 0)
      && (weekly ==> WeeklyReason in r)
      && (!weekly ==> NoWeeklyReason in r)
  {
    var front := YearlyReasons(days) + ModeReasons(growth);
    assert (front + [WeeklyReasonFor(weekly)] + ScaleReasons(scale))[|front|] == WeeklyReasonFor(weekly);
  }

  /** The first two rules, on the defaults: yearly seasonality and mode. */
  method TrendRules(rows: seq<Observation>, std: seq<real> -> Option<real>) returns (s: Suggestions)
    requires rows != []
    ensures s.yearlySeasonality == (if Span(rows) < 180 then Fixed(false) else if Span(rows) > 370 then Fixed(true) else Auto)
    ensures s.seasonalityMode == (if GrowthDetected(Clicks(rows), std) then "multiplicative" else "additive")
    ensures s.weeklySeasonality == Defaults.weeklySeasonality
    ensures s.changepointPriorScale == Defaults.changepointPriorScale
    ensures s.changepointRange == 0.8
    ensures s.reasons == YearlyReasons(Span(rows)) + ModeReasons(GrowthDetected(Clicks(rows), std))
  {
    var s1 := YearlyRule(Defaults, Span(rows));
    assert s1.reasons == YearlyReasons(Span(rows));
    s := ModeRule(s1, Clicks(rows), std);
  }

  /** The four rules in turn on rows already in date order. */
  method ApplyRules(rows: seq<Observation>, std: seq<real> -> Option<real>) returns (s: Suggestions)
    requires rows != []
    ensures s.yearlySeasonality == (if Span(rows) < 180 then Fixed(false) else if Span(rows) > 370 then Fixed(true) else Auto)
    ensures s.seasonalityMode == (if GrowthDetected(Clicks(rows), std) then "multiplicative" else "additive")
    ensures s.weeklySeasonality == WeeklyDetected(rows)
    ensures s.changepointPriorScale == ScaleFor(Volatility(Clicks(rows)))
    ensures s.changepointRange == 0.8
    ensures s.reasons == YearlyReasons(Span(rows)) + ModeReasons(GrowthDetected(Clicks(rows), std))
                       + [WeeklyReasonFor(WeeklyDetected(rows))] + ScaleReasons(ScaleFor(Volatility(Clicks(rows))))
  {
    var s2 := TrendRules(rows, std);
    var s3 := WeeklyRule(s2, rows);
    s := ScaleRule(s3, Clicks(rows));
  }

  /** `analyze_gsc_data_heuristics`: starts from the defaults and lets each
      rule in turn overwrite its field and append its reason. `history` is
      `None` for a missing frame. */
  method AnalyzeGscDataHeuristics(history: Option<seq<Observation>>, std: seq<real> -> Option<real>)
    returns (s: Suggestions)
    ensures history.None? || history.value == [] ==> s == Defaults
    ensures s.changepointRange == 0.8
    ensures history.Some? && history.value != [] ==>
      var rows := SortByDate(history.value);
      && s.yearlySeasonality == (if Span(rows) < 180 then Fixed(false) else if Span(rows) > 370 then Fixed(true) else Auto)
      && (s.seasonalityMode == "multiplicative" <==> GrowthDetected(Clicks(rows), std))
      && (s.seasonalityMode == "additive" <==> !GrowthDetected(Clicks(rows), std))
      && s.weeklySeasonality == WeeklyDetected(rows)
      && s.changepointPriorScale == ScaleFor(Volatility(Clicks(rows)))
    ensures history.Some? && history.value != [] ==>
      && |s.reasons| == 1 + (if s.yearlySeasonality.Auto? then 0 else 1)
                          + (if s.seasonalityMode == "multiplicative" then 1 else 0)
                          + (if s.changepointPriorScale == 0.05 then 0 else 1)
      && (s.weeklySeasonality ==> WeeklyReason in s.reasons)
      && (!s.weeklySeasonality ==> NoWeeklyReason in s.reasons)
    ensures history.Some? && history.value != [] ==>
      var rows := SortByDate(history.value);
      s.reasons == YearlyReasons(Span(rows)) + ModeReasons(GrowthDetected(Clicks(rows), std))
                   + [WeeklyReasonFor(WeeklyDetected(rows))] + ScaleReasons(ScaleFor(Volatility(Clicks(rows))))
  {
    if history.None? || history.value == [] {
      return Defaults;
    }
    var rows := SortByDate(history.value);
    s := ApplyRules(rows, std);
    ReasonsCount(Span(rows), GrowthDetected(Clicks(rows), std), WeeklyDetected(rows), ScaleFor(Volatility(Clicks(rows))));
  }

  // ---------------------------------------------------------------------
  // Two telling histories

  lemma {:induction false} SumOfZeros(xs: seq<real>)
    requires forall i :: 0 <= i < |xs| ==> xs[i] == 0.0
    ensures Sum(xs) == 0.0
  {
    if xs != [] {
      SumOfZeros(xs[..|xs| - 1]);
    }
  }

  /** A history whose clicks never change has no volatility, so the trend
      is stiffened to scale 0.01. */
  lemma FlatHistoryIsSteady(y: seq<real>, k: real)
    requires |y| >= 2 && k > 0.0
    requires forall i :: 0 <= i < |y| ==> y[i] == k
    ensures Volatility(y) == Some(0.0)
    ensures ScaleFor(Volatility(y)) == 0.01
  {
    var d := Diffs(y);
    forall i | 0 <= i < |d| ensures d[i] == 0.0 {
      assert y[i + 1] - y[i] == 0.0;
    }
    SumOfZeros(d);
    assert Sum(y) == k * (|y| as real) by {
      SumOfConstant(y, k);
    }
    CancelCount(Mean(y).value, k, |y| as real);
  }

  lemma CancelCount(m: real, k: real, n: real)
    requires n > 0.0 && m * n == k * n
    ensures m == k
  {
    assert (m - k) * n == 0.0;
  }

  lemma {:induction false} SumOfConstant(xs: seq<real>, k: real)
    requires forall i :: 0 <= i < |xs| ==> xs[i] == k
    ensures Sum(xs) == k * (|xs| as real)
  {
    if xs != [] {
      SumOfConstant(xs[..|xs| - 1], k);
      assert k * ((|xs| - 1) as real) + k == k * (|xs| as real);
    }
  }

  lemma {:induction false} ClicksOnOtherDay(s: seq<Observation>, w: int, d: int)
    requires forall i :: 0 <= i < |s| ==> Weekday(s[i].date) == w
    requires d != w
    ensures ClicksOn(s, d) == []
  {
    if s != [] {
      ClicksOnOtherDay(s[1..], w, d);
    }
  }

  /** With every row on weekday `w`, there is one weekday mean from `d` on
      when `d <= w` and none after. */
  lemma {:induction false} WeeklyMeansOfOneDay(s: seq<Observation>, w: int, d: int)
    requires s != [] && forall i :: 0 <= i < |s| ==> Weekday(s[i].date) == w
    requires 0 <= d <= 7
    ensures d <= w ==> WeeklyMeans(s, d) == [Mean(ClicksOn(s, w)).value]
    ensures d > w ==> WeeklyMeans(s, d) == []
    decreases 7 - d
  {
    if d < 7 {
      WeeklyMeansOfOneDay(s, w, d + 1);
      var rest := WeeklyMeans(s, d + 1);
      if d != w {
        ClicksOnOtherDay(s, w, d);
        assert WeeklyMeans(s, d) == [] + rest;
      } else {
        assert rest == [];
        assert WeeklyMeans(s, d) == [Mean(ClicksOn(s, d)).value] + rest;
      }
    }
  }

  /** A history observed on a single weekday (a weekly export, say) shows no
      weekday spread, so weekly seasonality is turned off whenever the mean
      is not negative. */
  lemma SingleWeekdayIsNotWeekly(s: seq<Observation>)
    requires s != [] && forall i :: 0 <= i < |s| ==> Weekday(s[i].date) == Weekday(s[0].date)
    requires Mean(Clicks(s)).value >= 0.0
    ensures WeeklySpread(s) == 0.0
    ensures !WeeklyDetected(s)
  {
    WeeklyMeansOfOneDay(s, Weekday(s[0].date), 0);
  }
}
