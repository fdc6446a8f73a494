/** The curve generator of `tools/regressor_logic.py`: every event becomes one
    numeric column over the frame's dates, shaped as a window, a decay, a step
    or a ramp of the elapsed days `t = date - start`. */
module Regressors {
  import opened Common
  import opened Text

  /** A data frame: the `ds` date column (day numbers) and the numeric
      columns by name. */
  datatype Frame = Frame(ds: seq<int>, columns: map<string, seq<real>>)

  predicate KeepInName(c: char) { IsAlnum(c) || c == '_' }

  /** The event name part of a column name: lower-cased, spaces as `_`,
      then only alphanumerics and `_` kept. */
  function SanitizedName(name: string): string
  {
    Filter(ReplaceChar(Lower(name), ' ', '_'), KeepInName)
  }

  /** The column name of the `i`-th event, `reg_<i>_<sanitised name>`. The
      source sanitises the whole string at once; `ColumnNameShape` shows
      that this comes to the same, as the prefix is already clean. */
  function ColumnName(i: nat, name: string): string
  {
    "reg_" + NatToString(i) + "_" + SanitizedName(name)
  }

  /** The names `apply_regressors` returns for a list of events. */
  function ColumnNames(events: seq<Event>): (r: seq<string>)
    ensures |r| == |events|
    ensures forall i :: 0 <= i < |events| ==> r[i] == ColumnName(i, events[i].name)
  {
    seq(|events|, i requires 0 <= i < |events| => ColumnName(i, events[i].name))
  }

  /** The column name is what sanitising the whole string
      `reg_<i>_<name lower-cased, spaces as '_'>` gives, and holds only
      lower-case letters, digits and `_`. */
  lemma ColumnNameShape(i: nat, name: string)
    ensures ColumnName(i, name)
         == Filter("reg_" + NatToString(i) + "_" + ReplaceChar(Lower(name), ' ', '_'), KeepInName)
    ensures forall k :: 0 <= k < |ColumnName(i, name)| ==>
      var c := ColumnName(i, name)[k]; IsLower(c) || IsDigit(c) || c == '_'
  {
    var prefix := "reg_" + NatToString(i) + "_";
    var body := ReplaceChar(Lower(name), ' ', '_');
    assert "reg_" + NatToString(i) + "_" + body == prefix + body;
    FilterAppend(prefix, body, KeepInName);
    FilterKeepsAll(prefix, KeepInName);
    var fb := Filter(body, KeepInName);
    forall k | 0 <= k < |fb| ensures !IsUpper(fb[k]) {
      FilterFrom(body, KeepInName, k);
      var j :| 0 <= j < |body| && body[j] == fb[k];
      LowerAt(name, j);
    }
  }

  /** Every character `Filter` keeps comes from its input. */
  lemma {:induction false} FilterFrom(s: string, keep: char -> bool, k: nat)
    requires k < |Filter(s, keep)|
    ensures exists j :: 0 <= j < |s| && s[j] == Filter(s, keep)[k]
  {
    var head := if keep(s[0]) then [s[0]] else [];
    if k < |head| {
      assert s[0] == Filter(s, keep)[k];
    } else {
      assert Filter(s, keep)[k] == Filter(s[1..], keep)[k - |head|];
      FilterFrom(s[1..], keep, k - |head|);
      var j :| 0 <= j < |s[1..]| && s[1..][j] == Filter(s[1..], keep)[k - |head|];
      assert s[j + 1] == s[1..][j];
    }
  }

  /** Two different event positions never share a column name, whatever the
      names of the events are. */
  lemma ColumnNamesDistinct(i: nat, j: nat, a: string, b: string)
    requires i != j
    ensures ColumnName(i, a) != ColumnName(j, b)
  {
    var x := NatToString(i) + "_" + SanitizedName(a);
    var y := NatToString(j) + "_" + SanitizedName(b);
    assert ColumnName(i, a) == "reg_" + x;
    assert ColumnName(j, b) == "reg_" + y;
    if ColumnName(i, a) == ColumnName(j, b) {
      assert x == ("reg_" + x)[4..];
      assert y == ("reg_" + y)[4..];
      DigitPrefixDetermined(NatToString(i), NatToString(j), SanitizedName(a), SanitizedName(b));
      NatToStringInjective(i, j);
    }
  }

  /** Decay time constant: `duration / 3`, or 1 when the duration is not
      positive. */
  function Tau(duration: int): (tau: real)
    ensures tau > 0.0
  {
    if duration > 0 then duration as real / 3.0 else 1.0
  }

  function WindowValue(t: int, duration: int, impact: real): real
  {
    if 0 <= t <= duration then impact else 0.0
  }

  function DecayValue(t: int, duration: int, impact: real, exp: real -> real): real
  {
    if 0 <= t <= duration then impact * exp(-(t as real) / Tau(duration)) else 0.0
  }

  function StepValue(t: int, impact: real): real
  {
    if t >= 0 then impact else 0.0
  }

  /** The ramp is written as two masked assignments: the linear part only
      when `duration > 0`, then the plateau `t >= duration`. */
  function RampValue(t: int, duration: int, impact: real): real
  {
    if t >= duration then impact
    else if duration > 0 && 0 <= t then (t as real / duration as real) * impact
    else 0.0
  }

  /** The value of an event's column `t` days after its start; a type other
      than the four shapes leaves the zero-filled column as it is. */
  function Signal(kind: string, t: int, duration: int, impact: real, exp: real -> real): real
  {
    if kind == "window" then WindowValue(t, duration, impact)
    else if kind == "decay" then DecayValue(t, duration, impact, exp)
    else if kind == "step" then StepValue(t, impact)
    else if kind == "ramp" then RampValue(t, duration, impact)
    else 0.0
  }

  /** The column an event contributes over the dates `ds`. */
  function Curve(e: Event, ds: seq<int>, exp: real -> real): (r: seq<real>)
    ensures |r| == |ds|
    ensures forall i :: 0 <= i < |ds| ==>
      r[i] == Signal(e.kind, ds[i] - e.date, e.duration, e.impact, exp)
  {
    seq(|ds|, i requires 0 <= i < |ds| => Signal(e.kind, ds[i] - e.date, e.duration, e.impact, exp))
  }

  /** `df.loc[mask, col] = value`: rows whose elapsed days satisfy `mask`
      get `value(t)`, the others keep what they had. */
  method MaskedAssign(a: array<real>, ds: seq<int>, start: int,
                      mask: int -> bool, value: int -> real)
    requires a.Length == |ds|
    modifies a
    ensures forall i :: 0 <= i < a.Length ==>
      a[i] == (if mask(ds[i] - start) then value(ds[i] - start) else old(a[i]))
  {
    var i := 0;
    while i < a.Length
      invariant 0 <= i <= a.Length
      invariant forall k :: 0 <= k < i ==>
        a[k] == (if mask(ds[k] - start) then value(ds[k] - start) else old(a[k]))
      invariant forall k :: i <= k < a.Length ==> a[k] == old(a[k])
    {
      if mask(ds[i] - start) {
        a[i] := value(ds[i] - start);
      }
      i := i + 1;
    }
  }

  /** The shape-specific masked writes over a zero-filled column. */
  method WriteShape(a: array<real>, ds: seq<int>, e: Event, exp: real -> real)
    requires a.Length == |ds|
    requires forall i :: 0 <= i < a.Length ==> a[i] == 0.0
    modifies a
    ensures forall i :: 0 <= i < a.Length ==>
      a[i] == Signal(e.kind, ds[i] - e.date, e.duration, e.impact, exp)
  {
    var d, impact := e.duration, e.impact;
    if e.kind == "window" {
      MaskedAssign(a, ds, e.date, t => 0 <= t <= d, t => impact);
    } else if e.kind == "decay" {
      var tau := Tau(d);
      MaskedAssign(a, ds, e.date, t => 0 <= t <= d, t => impact * exp(-(t as real) / tau));
    } else if e.kind == "step" {
      MaskedAssign(a, ds, e.date, t => t >= 0, t => impact);
    } else if e.kind == "ramp" {
      WriteRamp(a, ds, e.date, d, impact);
    }
  }

  /** The ramp's two masked writes: the linear part (only for a positive
      duration), then the plateau. */
  method WriteRamp(a: array<real>, ds: seq<int>, start: int, d: int, impact: real)
    requires a.Length == |ds|
    requires forall i :: 0 <= i < a.Length ==> a[i] == 0.0
    modifies a
    ensures forall i :: 0 <= i < a.Length ==> a[i] == RampValue(ds[i] - start, d, impact)
  {
    if d > 0 {
      MaskedAssign(a, ds, start, t => 0 <= t < d, t => (t as real / d as real) * impact);
    }
    MaskedAssign(a, ds, start, t => t >= d, t => impact);
  }

  /** One event's column, built as `apply_regressors` builds it: zero-filled, then
      overwritten on the masked rows of its shape. */
  method FillColumn(ds: seq<int>, e: Event, exp: real -> real) returns (col: seq<real>)
    ensures col == Curve(e, ds, exp)
  {
    var a := new real[|ds|](_ => 0.0);
    WriteShape(a, ds, e, exp);
    col := a[..];
  }

  /** What `apply_regressors(df, events)` returns as a frame: the input
      frame with the events' columns set one after another. */
  function WithRegressors(df: Frame, events: seq<Event>, exp: real -> real): (r: Frame)
    ensures r.ds == df.ds
  {
    if events == [] then df
    else
      var n := |events| - 1;
      var f := WithRegressors(df, events[..n], exp);
      Frame(f.ds, f.columns[ColumnName(n, events[n].name) := Curve(events[n], f.ds, exp)])
  }

  /** `apply_regressors`: works on a copy of the frame (a Dafny value), adds
      one column per event in event order and returns the column names. */
  method ApplyRegressors(df: Frame, events: seq<Event>, exp: real -> real)
    returns (out: Frame, added: seq<string>)
    ensures out == WithRegressors(df, events, exp)
    ensures added == ColumnNames(events)
  {
    out := df;
    added := [];
    var i := 0;
    while i < |events|
      invariant 0 <= i <= |events|
      invariant out == WithRegressors(df, events[..i], exp)
      invariant added == ColumnNames(events[..i])
    {
      var name := ColumnName(i, events[i].name);
      var col := FillColumn(out.ds, events[i], exp);
      assert events[..i + 1][..i] == events[..i];
      out := Frame(out.ds, out.columns[name := col]);
      added := added + [name];
      i := i + 1;
    }
    assert events[..|events|] == events;
  }

  /** The names of a longer event list extend those of its prefix. */
  lemma ColumnNamesSnoc(events: seq<Event>)
    requires events != []
    ensures ColumnNames(events)
         == ColumnNames(events[..|events| - 1]) + [ColumnName(|events| - 1, events[|events| - 1].name)]
  {
    var n := |events| - 1;
    var pre := events[..n];
    forall i | 0 <= i < n ensures ColumnNames(events)[i] == ColumnNames(pre)[i] {
      assert pre[i] == events[i];
    }
  }

  /** The events' columns are added to the input frame's and no other
      column appears. */
  lemma {:induction false} WithRegressorsKeys(df: Frame, events: seq<Event>, exp: real -> real)
    ensures WithRegressors(df, events, exp).columns.Keys
         == df.columns.Keys + set c | c in ColumnNames(events)
  {
    if events != [] {
      var n := |events| - 1;
      WithRegressorsKeys(df, events[..n], exp);
      ColumnNamesSnoc(events);
      var names := ColumnNames(events[..n]);
      var last := ColumnName(n, events[n].name);
      assert (set c | c in names + [last]) == (set c | c in names) + {last};
    }
  }

  /** Each event's column holds that event's curve: a later event never
      overwrites an earlier one's column. */
  lemma {:induction false} WithRegressorsCurves(df: Frame, events: seq<Event>, exp: real -> real, i: nat)
    requires i < |events|
    ensures ColumnName(i, events[i].name) in WithRegressors(df, events, exp).columns
    ensures WithRegressors(df, events, exp).columns[ColumnName(i, events[i].name)]
         == Curve(events[i], df.ds, exp)
  {
    var n := |events| - 1;
    if i < n {
      var pre := events[..n];
      assert pre[i] == events[i];
      WithRegressorsCurves(df, pre, exp, i);
      ColumnNamesDistinct(i, n, events[i].name, events[n].name);
    }
  }

  /** A column of the input frame that no event's name collides with is
      passed through unchanged. */
  lemma {:induction false} WithRegressorsKeepsOthers(df: Frame, events: seq<Event>, exp: real -> real, c: string)
    requires c in df.columns
    requires forall i :: 0 <= i < |events| ==> c != ColumnName(i, events[i].name)
    ensures c in WithRegressors(df, events, exp).columns
    ensures WithRegressors(df, events, exp).columns[c] == df.columns[c]
  {
    if events != [] {
      var n := |events| - 1;
      var pre := events[..n];
      assert forall i :: 0 <= i < n ==> pre[i] == events[i];
      WithRegressorsKeepsOthers(df, pre, exp, c);
    }
  }

  // ---- Properties of the four shapes ----

  /** A window is `impact` on the closed span `[0, duration]` and 0 elsewhere. */
  lemma WindowShape(t: int, duration: int, impact: real, exp: real -> real)
    ensures 0 <= t <= duration ==> Signal("window", t, duration, impact, exp) == impact
    ensures (t < 0 || t > duration) ==> Signal("window", t, duration, impact, exp) == 0.0
  {
  }

  /** A step never returns to 0: it is `impact` at every `t >= 0`, however
      far, and 0 before the start. */
  lemma StepIsPermanent(t: int, impact: real, duration: int, exp: real -> real)
    ensures t >= 0 ==> Signal("step", t, duration, impact, exp) == impact
    ensures t >= 0 ==> Signal("step", t + 3650, duration, impact, exp) == impact
    ensures t < 0 ==> Signal("step", t, duration, impact, exp) == 0.0
  {
  }

  /** For a positive duration the ramp starts at 0, climbs linearly and then
      stays at `impact`; it never leaves the range between 0 and `impact`. */
  lemma RampShape(t: int, duration: int, impact: real, exp: real -> real)
    requires duration > 0
    ensures t < 0 ==> Signal("ramp", t, duration, impact, exp) == 0.0
    ensures Signal("ramp", 0, duration, impact, exp) == 0.0
    ensures 0 <= t < duration ==>
      Signal("ramp", t, duration, impact, exp) == (t as real / duration as real) * impact
    ensures t >= duration ==> Signal("ramp", t, duration, impact, exp) == impact
    ensures impact >= 0.0 ==> 0.0 <= Signal("ramp", t, duration, impact, exp) <= impact
    ensures impact <= 0.0 ==> impact <= Signal("ramp", t, duration, impact, exp) <= 0.0
  {
    assert Signal("ramp", t, duration, impact, exp) == RampValue(t, duration, impact);
    assert Signal("ramp", 0, duration, impact, exp) == RampValue(0, duration, impact);
    RampBetween(t, duration, impact);
  }

  lemma RampBetween(t: int, duration: int, impact: real)
    requires duration > 0
    ensures impact >= 0.0 ==> 0.0 <= RampValue(t, duration, impact) <= impact
    ensures impact <= 0.0 ==> impact <= RampValue(t, duration, impact) <= 0.0
  {
    if 0 <= t < duration {
      var f := t as real / duration as real;
      assert 0.0 <= f < 1.0;
      FractionBetween(f, impact);
    }
  }

  lemma FractionBetween(f: real, impact: real)
    requires 0.0 <= f <= 1.0
    ensures impact >= 0.0 ==> 0.0 <= f * impact <= impact
    ensures impact <= 0.0 ==> impact <= f * impact <= 0.0
  {
    assert f * impact - impact == (f - 1.0) * impact;
    if impact >= 0.0 {
      MulNonneg(f, impact);
      MulNonneg(1.0 - f, impact);
    } else {
      MulNonneg(f, -impact);
      MulNonneg(1.0 - f, -impact);
    }
  }

  lemma MulNonneg(x: real, y: real)
    requires x >= 0.0 && y >= 0.0
    ensures x * y >= 0.0
  {
  }

  /** Halfway up an even-length ramp the value is half the impact. */
  lemma RampMidpoint(duration: int, impact: real, exp: real -> real)
    requires duration > 0 && duration % 2 == 0
    ensures Signal("ramp", duration / 2, duration, impact, exp) == impact / 2.0
    ensures Signal("ramp", 2 * duration, duration, impact, exp) == impact
  {
    var h := duration / 2;
    assert h as real * 2.0 == duration as real;
    RatioOf(h as real, duration as real, 0.5);
  }

  lemma RatioOf(a: real, b: real, k: real)
    requires b > 0.0 && a == k * b
    ensures a / b == k
  {
    var q := a / b;
    assert q * b == a;
    assert (q - k) * b == 0.0;
  }

  /** Without a positive duration the linear part is skipped: a zero-length
      ramp is a step, and a negative one is already at its plateau
      `-duration` days before the start. */
  lemma RampDegenerate(t: int, duration: int, impact: real, exp: real -> real)
    requires duration <= 0
    ensures duration == 0 ==>
      Signal("ramp", t, duration, impact, exp) == Signal("step", t, duration, impact, exp)
    ensures duration < 0 ==>
      Signal("ramp", duration, duration, impact, exp) == impact
    ensures Signal("ramp", t, duration, impact, exp) == (if t >= duration then impact else 0.0)
  {
  }

  /** The decay starts at `impact`, has reached `impact * exp(-3)` at the
      end of a positive duration and is cut to 0 one day later. */
  lemma DecayShape(duration: int, impact: real, exp: real -> real)
    requires exp(0.0) == 1.0
    requires duration >= 0
    ensures Signal("decay", 0, duration, impact, exp) == impact
    ensures duration > 0 ==> Signal("decay", duration, duration, impact, exp) == impact * exp(-3.0)
    ensures Signal("decay", duration + 1, duration, impact, exp) == 0.0
    ensures forall t :: t < 0 ==> Signal("decay", t, duration, impact, exp) == 0.0
  {
    assert -(0 as real) / Tau(duration) == 0.0;
    if duration > 0 {
      var d := duration as real;
      assert Tau(duration) * 3.0 == d;
      RatioOf(-d, Tau(duration), -3.0);
    }
  }

  /** Decay follows `impact * exp(-t / tau)` on `[0, duration]`, with
      `tau = duration / 3` or 1 when the duration is not positive. */
  lemma DecayFormula(t: int, duration: int, impact: real, exp: real -> real)
    ensures 0 <= t <= duration ==>
      Signal("decay", t, duration, impact, exp)
        == impact * exp(-(t as real) / (if duration > 0 then duration as real / 3.0 else 1.0))
    ensures (t < 0 || t > duration) ==> Signal("decay", t, duration, impact, exp) == 0.0
  {
  }

  /** An unrecognised type still yields a column, and it is all zeros. */
  lemma UnknownTypeIsZero(e: Event, ds: seq<int>, exp: real -> real)
    requires e.kind !in {"window", "decay", "step", "ramp"}
    ensures forall i :: 0 <= i < |ds| ==> Curve(e, ds, exp)[i] == 0.0
  {
  }

  /** No shape has a value before its start, except a ramp whose duration
      is negative. */
  lemma ZeroBeforeStart(e: Event, t: int, exp: real -> real)
    requires t < 0
    requires e.kind == "ramp" ==> e.duration >= 0
    ensures Signal(e.kind, t, e.duration, e.impact, exp) == 0.0
  {
  }
}
