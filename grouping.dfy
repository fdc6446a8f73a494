/** pandas' `groupby(key)[col].sum()` and `concat([a, b], axis=1).sort_index()
    .fillna(0)` on integer keys, modelled as association lists kept strictly
    sorted by key. */
module Grouping {

  /** (key, value) rows; a grouped result has each key once, ascending. */
  type Pairs = seq<(int, real)>

  predicate StrictlySorted(s: Pairs)
  {
    forall i, j :: 0 <= i < j < |s| ==> s[i].0 < s[j].0
  }

  function Keys(p: Pairs): set<int>
  {
    set i | 0 <= i < |p| :: p[i].0
  }

  /** Sum of the values of the rows whose key is `k` (0 when there are none). */
  function SumFor(p: Pairs, k: int): real
  {
    if p == [] then 0.0
    else SumFor(p[..|p| - 1], k) + (if p[|p| - 1].0 == k then p[|p| - 1].1 else 0.0)
  }

  /** Sum of all values. */
  function Total(p: Pairs): real
  {
    if p == [] then 0.0 else p[0].1 + Total(p[1..])
  }

  /** The value under `k`, or 0 when `k` is absent (`fillna(0)`). */
  function Lookup(s: Pairs, k: int): real
  {
    if s == [] then 0.0 else if s[0].0 == k then s[0].1 else Lookup(s[1..], k)
  }

  lemma {:induction false} KeysCons(s: Pairs)
    requires s != []
    ensures Keys(s) == {s[0].0} + Keys(s[1..])
  {
    forall k | k in Keys(s) ensures k in {s[0].0} + Keys(s[1..]) {
      var i :| 0 <= i < |s| && s[i].0 == k;
      if i > 0 { assert s[1..][i - 1].0 == k; }
    }
    forall k | k in Keys(s[1..]) ensures k in Keys(s) {
      var i :| 0 <= i < |s[1..]| && s[1..][i].0 == k;
      assert s[i + 1].0 == k;
    }
  }

  lemma {:induction false} KeysSnoc(p: Pairs)
    requires p != []
    ensures Keys(p) == Keys(p[..|p| - 1]) + {p[|p| - 1].0}
  {
    var q := p[..|p| - 1];
    forall k | k in Keys(p) ensures k in Keys(q) + {p[|p| - 1].0} {
      var i :| 0 <= i < |p| && p[i].0 == k;
      if i < |p| - 1 { assert q[i].0 == k; }
    }
    forall k | k in Keys(q) ensures k in Keys(p) {
      var i :| 0 <= i < |q| && q[i].0 == k;
      assert p[i].0 == k;
    }
  }

  lemma {:induction false} LookupAbsent(s: Pairs, k: int)
    requires k !in Keys(s)
    ensures Lookup(s, k) == 0.0
  {
    if s != [] {
      KeysCons(s);
      LookupAbsent(s[1..], k);
    }
  }

  lemma {:induction false} SortedHead(s: Pairs)
    requires StrictlySorted(s) && s != []
    ensures StrictlySorted(s[1..])
    ensures forall k :: k in Keys(s[1..]) ==> s[0].0 < k
  {
    forall k | k in Keys(s[1..]) ensures s[0].0 < k {
      var i :| 0 <= i < |s[1..]| && s[1..][i].0 == k;
      assert s[i + 1].0 == k;
    }
  }

  lemma {:induction false} SortedCons(x: (int, real), s: Pairs)
    requires StrictlySorted(s)
    requires forall k :: k in Keys(s) ==> x.0 < k
    ensures StrictlySorted([x] + s)
  {
    var r := [x] + s;
    forall i, j | 0 <= i < j < |r| ensures r[i].0 < r[j].0 {
      if i == 0 {
        assert r[j] == s[j - 1];
        assert s[j - 1].0 in Keys(s);
      } else {
        assert r[i] == s[i - 1] && r[j] == s[j - 1];
      }
    }
  }

  /** A key below the first key of a sorted list is below all of them. */
  lemma {:induction false} BelowAll(s: Pairs, k: int)
    requires StrictlySorted(s)
    requires s == [] || k < s[0].0
    ensures forall j :: j in Keys(s) ==> k < j
  {
    forall j | j in Keys(s) ensures k < j {
      var i :| 0 <= i < |s| && s[i].0 == j;
      assert s[0].0 <= s[i].0;
    }
  }

  /** What `Insert(s, k, v)` promises of its result `r`. */
  ghost predicate InsertedWell(s: Pairs, k: int, v: real, r: Pairs)
  {
    && StrictlySorted(r)
    && Keys(r) == Keys(s) + {k}
    && (forall j :: Lookup(r, j) == Lookup(s, j) + (if j == k then v else 0.0))
    && Total(r) == Total(s) + v
  }

  lemma {:induction false} InsertHit(s: Pairs, k: int, v: real)
    requires StrictlySorted(s) && s != [] && s[0].0 == k
    ensures InsertedWell(s, k, v, [(k, s[0].1 + v)] + s[1..])
  {
    var r := [(k, s[0].1 + v)] + s[1..];
    KeysCons(s);
    SortedHead(s);
    assert r[1..] == s[1..];
    KeysCons(r);
    SortedCons(r[0], s[1..]);
    forall j ensures Lookup(r, j) == Lookup(s, j) + (if j == k then v else 0.0) {
      if j != k { assert Lookup(r, j) == Lookup(s[1..], j); }
    }
  }

  lemma {:induction false} InsertFront(s: Pairs, k: int, v: real)
    requires StrictlySorted(s) && (s == [] || k < s[0].0)
    ensures InsertedWell(s, k, v, [(k, v)] + s)
  {
    var r := [(k, v)] + s;
    BelowAll(s, k);
    assert r[1..] == s;
    KeysCons(r);
    SortedCons(r[0], s);
    forall j ensures Lookup(r, j) == Lookup(s, j) + (if j == k then v else 0.0) {
      if j == k { LookupAbsent(s, k); }
    }
  }

  lemma {:induction false} InsertLater(s: Pairs, k: int, v: real, t: Pairs)
    requires StrictlySorted(s) && s != [] && s[0].0 < k
    requires InsertedWell(s[1..], k, v, t)
    ensures InsertedWell(s, k, v, [s[0]] + t)
  {
    var r := [s[0]] + t;
    KeysCons(s);
    SortedHead(s);
    assert r[1..] == t;
    KeysCons(r);
    SortedCons(s[0], t);
    assert Total(r) == s[0].1 + Total(t);
    assert Total(s) == s[0].1 + Total(s[1..]);
  }

  /** Adds `v` to the group `k`, creating the group in key order if absent. */
  function Insert(s: Pairs, k: int, v: real): (r: Pairs)
    requires StrictlySorted(s)
    ensures InsertedWell(s, k, v, r)
  {
    if s == [] || k < s[0].0 then
      InsertFront(s, k, v);
      [(k, v)] + s
    else if s[0].0 == k then
      InsertHit(s, k, v);
      [(k, s[0].1 + v)] + s[1..]
    else
      SortedHead(s);
      var t := Insert(s[1..], k, v);
      InsertLater(s, k, v, t);
      [s[0]] + t
  }

  /** `groupby(key).sum()`: one row per distinct key, ascending, holding the
      sum of that key's values; rows are folded in left to right. */
  function GroupSum(p: Pairs): (r: Pairs)
    ensures StrictlySorted(r)
    ensures Keys(r) == Keys(p)
    ensures forall k :: Lookup(r, k) == SumFor(p, k)
    ensures Total(r) == Total(p)
  {
    if p == [] then []
    else
      var q := p[..|p| - 1];
      KeysSnoc(p);
      TotalSnoc(p);
      Insert(GroupSum(q), p[|p| - 1].0, p[|p| - 1].1)
  }

  lemma {:induction false} TotalSnoc(p: Pairs)
    requires p != []
    ensures Total(p) == Total(p[..|p| - 1]) + p[|p| - 1].1
  {
    if |p| > 1 {
      assert p[1..][..|p[1..]| - 1] == p[..|p| - 1][1..];
      TotalSnoc(p[1..]);
    }
  }

  /** One row of an outer join: the key and the value on each side
      (0 where a side has no row for that key). */
  datatype JoinRow = JoinRow(key: int, left: real, right: real)

  function JoinKeys(r: seq<JoinRow>): set<int>
  {
    set i | 0 <= i < |r| :: r[i].key
  }

  predicate JoinSorted(r: seq<JoinRow>)
  {
    forall i, j :: 0 <= i < j < |r| ==> r[i].key < r[j].key
  }

  lemma {:induction false} JoinKeysCons(x: JoinRow, r: seq<JoinRow>)
    ensures JoinKeys([x] + r) == {x.key} + JoinKeys(r)
  {
    var s := [x] + r;
    assert s[0] == x && s[0].key in JoinKeys(s);
    forall k | k in JoinKeys(s) ensures k in {x.key} + JoinKeys(r) {
      var i :| 0 <= i < |s| && s[i].key == k;
      if i > 0 { assert s[i] == r[i - 1]; assert r[i - 1].key in JoinKeys(r); }
    }
    forall k | k in JoinKeys(r) ensures k in JoinKeys(s) {
      var i :| 0 <= i < |r| && r[i].key == k;
      assert s[i + 1] == r[i];
      assert s[i + 1].key in JoinKeys(s);
    }
  }

  lemma {:induction false} JoinSortedCons(x: JoinRow, r: seq<JoinRow>)
    requires JoinSorted(r)
    requires forall k :: k in JoinKeys(r) ==> x.key < k
    ensures JoinSorted([x] + r)
  {
    var s := [x] + r;
    forall i, j | 0 <= i < j < |s| ensures s[i].key < s[j].key {
      if i == 0 {
        assert s[j] == r[j - 1];
        assert r[j - 1].key in JoinKeys(r);
      } else {
        assert s[i] == r[i - 1] && s[j] == r[j - 1];
      }
    }
  }

  /** `concat([a, b], axis=1).sort_index().fillna(0)` over two grouped
      results: the union of their keys, ascending, each with the value of
      either side or 0. */
  function OuterJoin(a: Pairs, b: Pairs): (r: seq<JoinRow>)
    requires StrictlySorted(a) && StrictlySorted(b)
    ensures JoinSorted(r)
    ensures JoinKeys(r) == Keys(a) + Keys(b)
    ensures forall i :: 0 <= i < |r| ==>
      r[i].left == Lookup(a, r[i].key) && r[i].right == Lookup(b, r[i].key)
    decreases |a| + |b|
  {
    if a == [] && b == [] then []
    else if b == [] || (a != [] && a[0].0 < b[0].0) then
      KeysCons(a);
      SortedHead(a);
      BelowAll(b, a[0].0);
      var x := JoinRow(a[0].0, a[0].1, 0.0);
      var t := OuterJoin(a[1..], b);
      JoinKeysCons(x, t);
      JoinSortedCons(x, t);
      LookupAbsent(b, x.key);
      [x] + t
    else if a == [] || b[0].0 < a[0].0 then
      KeysCons(b);
      SortedHead(b);
      BelowAll(a, b[0].0);
      var x := JoinRow(b[0].0, 0.0, b[0].1);
      var t := OuterJoin(a, b[1..]);
      JoinKeysCons(x, t);
      JoinSortedCons(x, t);
      LookupAbsent(a, x.key);
      [x] + t
    else
      KeysCons(a);
      SortedHead(a);
      KeysCons(b);
      SortedHead(b);
      var x := JoinRow(a[0].0, a[0].1, b[0].1);
      var t := OuterJoin(a[1..], b[1..]);
      JoinKeysCons(x, t);
      JoinSortedCons(x, t);
      [x] + t
  }

  /** No key appears twice. */
  predicate DistinctKeys(p: Pairs)
  {
    forall i, j :: 0 <= i < j < |p| ==> p[i].0 != p[j].0
  }

  /** Inserting a key that is not there yet adds exactly that row. */
  lemma {:induction false} InsertFresh(s: Pairs, k: int, v: real)
    requires StrictlySorted(s) && k !in Keys(s)
    ensures multiset(Insert(s, k, v)) == multiset(s) + multiset{(k, v)}
  {
    if s == [] || k < s[0].0 {
      assert Insert(s, k, v) == [(k, v)] + s;
    } else {
      KeysCons(s);
      assert s[0].0 < k;
      SortedHead(s);
      assert Insert(s, k, v) == [s[0]] + Insert(s[1..], k, v);
      InsertFresh(s[1..], k, v);
      assert s == [s[0]] + s[1..];
    }
  }

  /** When no key repeats, grouping only reorders: the result holds exactly
      the input rows, in key order. */
  lemma {:induction false} GroupSumDistinct(p: Pairs)
    requires DistinctKeys(p)
    ensures multiset(GroupSum(p)) == multiset(p)
  {
    if p != [] {
      var n := |p| - 1;
      var q := p[..n];
      assert DistinctKeys(q) by {
        forall i, j | 0 <= i < j < |q| ensures q[i].0 != q[j].0 {
          assert q[i] == p[i] && q[j] == p[j];
        }
      }
      GroupSumDistinct(q);
      forall i | 0 <= i < |q| ensures q[i].0 != p[n].0 {
        assert q[i] == p[i];
      }
      assert p[n].0 !in Keys(q);
      InsertFresh(GroupSum(q), p[n].0, p[n].1);
      assert p == q + [p[n]];
    }
  }
}
