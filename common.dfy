/** Value types and numeric helpers shared by the forecasting tools. */
module Common {

  /** Absent values, failed parses and pandas' NaN results are all `None`. */
  datatype Option<T> = None | Some(value: T) {
    function GetOr(default: T): T {
      if Some? then value else default
    }
  }

  /** An event as the tools pass it around (a Python dict with these keys).
      `date` is a day number, `kind` is the curve shape ("window", "decay",
      "step", "ramp" or anything else), `eventType` and `notes` are keys that
      only some producers set. */
  datatype Event = Event(
    name: string,
    date: int,
    kind: string,
    duration: int,
    impact: real,
    eventType: Option<string>,
    notes: Option<string>)

  /** Plain sum, accumulated left to right. */
  function Sum(xs: seq<real>): real
  {
    if xs == [] then 0.0 else Sum(xs[..|xs| - 1]) + xs[|xs| - 1]
  }

  lemma {:induction false} SumAppend(xs: seq<real>, ys: seq<real>)
    ensures Sum(xs + ys) == Sum(xs) + Sum(ys)
  {
    if ys == [] {
      assert xs + ys == xs;
    } else {
      assert (xs + ys)[..|xs + ys| - 1] == xs + ys[..|ys| - 1];
      SumAppend(xs, ys[..|ys| - 1]);
    }
  }

  /** numpy's mean: NaN (here `None`) for an empty input. */
  function Mean(xs: seq<real>): (r: Option<real>)
    ensures r.None? <==> xs == []
  {
    if xs == [] then None else Some(Sum(xs) / (|xs| as real))
  }

  function Abs(x: real): (r: real)
    ensures r >= 0.0 && (r == x || r == -x)
  {
    if x < 0.0 then -x else x
  }

  /** Python's `int(x)` on a float: truncation toward zero. */
  function Trunc(x: real): (r: int)
    ensures x >= 0.0 ==> r as real <= x < r as real + 1.0
    ensures x < 0.0 ==> r as real - 1.0 < x <= r as real
  {
    if x >= 0.0 then x.Floor else -((-x).Floor)
  }

  /** Number of non-zero entries (pandas `(col != 0).sum()`). */
  function CountNonZero(xs: seq<real>): (n: nat)
    ensures n <= |xs|
  {
    if xs == [] then 0
    else CountNonZero(xs[..|xs| - 1]) + (if xs[|xs| - 1] != 0.0 then 1 else 0)
  }

  lemma {:induction false} CountNonZeroAppend(xs: seq<real>, ys: seq<real>)
    ensures CountNonZero(xs + ys) == CountNonZero(xs) + CountNonZero(ys)
  {
    if ys == [] {
      assert xs + ys == xs;
    } else {
      assert (xs + ys)[..|xs + ys| - 1] == xs + ys[..|ys| - 1];
      CountNonZeroAppend(xs, ys[..|ys| - 1]);
    }
  }

  /** The first components of a list of pairs (the date column of
      (date, value) rows). */
  function Firsts<A, B>(p: seq<(A, B)>): (r: seq<A>)
    ensures |r| == |p|
    ensures forall i :: 0 <= i < |p| ==> r[i] == p[i].0
  {
    seq(|p|, i requires 0 <= i < |p| => p[i].0)
  }

  /** The second components of a list of pairs (the value column). */
  function Seconds<A, B>(p: seq<(A, B)>): (r: seq<B>)
    ensures |r| == |p|
    ensures forall i :: 0 <= i < |p| ==> r[i] == p[i].1
  {
    seq(|p|, i requires 0 <= i < |p| => p[i].1)
  }

  /** pandas `max()` of a column: NaN (`None`) when the column is empty. */
  function MaxOf(xs: seq<real>): (r: Option<real>)
    ensures r.None? <==> xs == []
    ensures r.Some? ==> (forall i :: 0 <= i < |xs| ==> xs[i] <= r.value)
    ensures r.Some? ==> exists i :: 0 <= i < |xs| && xs[i] == r.value
  {
    if xs == [] then None
    else
      var m := MaxOf(xs[..|xs| - 1]);
      if m.None? || xs[|xs| - 1] > m.value then
        Some(xs[|xs| - 1])
      else
        assert forall i :: 0 <= i < |xs| - 1 ==> xs[i] == xs[..|xs| - 1][i];
        m
  }

  /** pandas `min()` of a column: NaN (`None`) when the column is empty. */
  function MinOf(xs: seq<real>): (r: Option<real>)
    ensures r.None? <==> xs == []
    ensures r.Some? ==> (forall i :: 0 <= i < |xs| ==> r.value <= xs[i])
    ensures r.Some? ==> exists i :: 0 <= i < |xs| && xs[i] == r.value
  {
    if xs == [] then None
    else
      var m := MinOf(xs[..|xs| - 1]);
      if m.None? || xs[|xs| - 1] < m.value then
        Some(xs[|xs| - 1])
      else
        assert forall i :: 0 <= i < |xs| - 1 ==> xs[i] == xs[..|xs| - 1][i];
        m
  }

  /** The day numbers of a date column as reals. */
  function AsReals(xs: seq<int>): (r: seq<real>)
    ensures |r| == |xs|
    ensures forall i :: 0 <= i < |xs| ==> r[i] == xs[i] as real
  {
    seq(|xs|, i requires 0 <= i < |xs| => xs[i] as real)
  }

  /** The largest day number, as the `max()` of a date column: NaT (`None`)
      when the column is empty. */
  function MaxInt(xs: seq<int>): (r: Option<int>)
    ensures r.None? <==> xs == []
    ensures r.Some? ==> (forall i :: 0 <= i < |xs| ==> xs[i] <= r.value)
    ensures r.Some? ==> exists i :: 0 <= i < |xs| && xs[i] == r.value
  {
    var m := MaxOf(AsReals(xs));
    if m.None? then None
    else
      var k :| 0 <= k < |xs| && AsReals(xs)[k] == m.value;
      assert m.value.Floor == xs[k];
      Some(m.value.Floor)
  }

  /** The smallest day number (`min()` of a date column), `None` when empty. */
  function MinInt(xs: seq<int>): (r: Option<int>)
    ensures r.None? <==> xs == []
    ensures r.Some? ==> (forall i :: 0 <= i < |xs| ==> r.value <= xs[i])
    ensures r.Some? ==> exists i :: 0 <= i < |xs| && xs[i] == r.value
  {
    var m := MinOf(AsReals(xs));
    if m.None? then None
    else
      var k :| 0 <= k < |xs| && AsReals(xs)[k] == m.value;
      assert m.value.Floor == xs[k];
      Some(m.value.Floor)
  }

  /** The names of a list of events, in order. */
  function EventNames(events: seq<Event>): (r: seq<string>)
    ensures |r| == |events|
    ensures forall i :: 0 <= i < |events| ==> r[i] == events[i].name
  {
    seq(|events|, i requires 0 <= i < |events| => events[i].name)
  }
}
