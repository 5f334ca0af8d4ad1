/** Sequence helpers shared by the whole model: the JavaScript array methods
    `find`, `findIndex` and `filter`, and the "reduce into an object" idiom in
    which a later entry overwrites an earlier one with the same key. */
module Seqs {

  datatype Option<+T> = None | Some(value: T) {
    /** `x ?? d`: the value, or `d` when absent. */
    function GetOr(d: T): T {
      match this
      case Some(v) => v
      case None => d
    }
  }

  /** Array.prototype.findIndex: the index of the first element satisfying `p`, or -1. */
  function FindIndex<T>(s: seq<T>, p: T -> bool): (r: int)
    ensures -1 <= r < |s|
    ensures r >= 0 ==> p(s[r]) && forall j :: 0 <= j < r ==> !p(s[j])
    ensures r == -1 <==> forall j :: 0 <= j < |s| ==> !p(s[j])
  {
    if s == [] then -1
    else if p(s[0]) then 0
    else
      var k := FindIndex(s[1..], p);
      if k == -1 then -1 else k + 1
  }

  /** Array.prototype.find: the first element satisfying `p`, or None (JS `undefined`). */
  function Find<T>(s: seq<T>, p: T -> bool): (r: Option<T>)
    ensures r.Some? <==> exists j :: 0 <= j < |s| && p(s[j])
    ensures r.Some? ==> r.value in s && p(r.value)
  {
    var k := FindIndex(s, p);
    if k == -1 then None else Some(s[k])
  }

  /** Array.prototype.filter. */
  function Filter<T>(s: seq<T>, p: T -> bool): (r: seq<T>)
    ensures |r| <= |s|
    ensures forall j :: 0 <= j < |r| ==> r[j] in s && p(r[j])
    ensures forall j :: 0 <= j < |s| && p(s[j]) ==> s[j] in r
  {
    if s == [] then []
    else if p(s[0]) then [s[0]] + Filter(s[1..], p)
    else Filter(s[1..], p)
  }

  /** Array.prototype.map. */
  function MapSeq<T, U>(s: seq<T>, f: T -> U): (r: seq<U>)
    ensures |r| == |s|
    ensures forall j :: 0 <= j < |s| ==> r[j] == f(s[j])
  {
    if s == [] then [] else [f(s[0])] + MapSeq(s[1..], f)
  }

  /** Mapping distributes over concatenation. */
  lemma MapSeqAppend<T, U>(a: seq<T>, b: seq<T>, f: T -> U)
    ensures MapSeq(a + b, f) == MapSeq(a, f) + MapSeq(b, f)
  {
  }

  /** Filtering distributes over concatenation: it keeps the survivors in their order. */
  lemma {:induction false} FilterAppend<T>(a: seq<T>, b: seq<T>, p: T -> bool)
    ensures Filter(a + b, p) == Filter(a, p) + Filter(b, p)
  {
    if a == [] {
      assert a + b == b;
    } else {
      assert (a + b)[1..] == a[1..] + b;
      FilterAppend(a[1..], b, p);
    }
  }

  /** Filtering a list whose elements all pass returns it unchanged. */
  lemma {:induction false} FilterKeepsAll<T>(s: seq<T>, p: T -> bool)
    requires forall j :: 0 <= j < |s| ==> p(s[j])
    ensures Filter(s, p) == s
  {
    if s != [] {
      FilterKeepsAll(s[1..], p);
    }
  }

  /** Filtering a list in which exactly one element fails removes exactly that element. */
  lemma {:induction false} FilterDropsOne<T>(s: seq<T>, p: T -> bool, k: nat)
    requires k < |s| && !p(s[k])
    requires forall j :: 0 <= j < |s| && j != k ==> p(s[j])
    ensures Filter(s, p) == s[..k] + s[k + 1..]
    ensures |Filter(s, p)| == |s| - 1
  {
    assert s == s[..k] + ([s[k]] + s[k + 1..]);
    FilterAppend(s[..k], [s[k]] + s[k + 1..], p);
    FilterAppend([s[k]], s[k + 1..], p);
    FilterKeepsAll(s[..k], p);
    FilterKeepsAll(s[k + 1..], p);
    assert Filter([s[k]], p) == [];
  }

  /** Filtering twice with the same test is filtering once. */
  lemma {:induction false} FilterIdempotent<T>(s: seq<T>, p: T -> bool)
    ensures Filter(Filter(s, p), p) == Filter(s, p)
  {
    if s != [] {
      FilterIdempotent(s[1..], p);
    }
  }

  /** `j` is the index of the first element of `s` satisfying `p`. */
  predicate IsFirst<T>(s: seq<T>, p: T -> bool, j: int) {
    0 <= j < |s| && p(s[j]) && forall i :: 0 <= i < j ==> !p(s[i])
  }

  /** Filtering out one value removes every copy of it and keeps every other
      element exactly as many times as it occurs. */
  lemma {:induction false} FilterWithoutValue<T>(s: seq<T>, v: T, p: T -> bool)
    requires forall x :: p(x) <==> x != v
    ensures multiset(Filter(s, p)) == multiset(s)[v := 0]
  {
    if s != [] {
      FilterWithoutValue(s[1..], v, p);
      assert s == [s[0]] + s[1..];
    }
  }

  /** Searching a filtered list finds the first element of the whole list that
      passes both tests. */
  lemma {:induction false} FindIndexInFilter<T>(s: seq<T>, q: T -> bool, p: T -> bool, both: T -> bool)
    requires forall x :: both(x) <==> q(x) && p(x)
    ensures var i, k := FindIndex(Filter(s, q), p), FindIndex(s, both);
      (i == -1 <==> k == -1) && (i != -1 ==> Filter(s, q)[i] == s[k])
  {
    if s != [] {
      FindIndexInFilter(s[1..], q, p, both);
      FindIndexInFilterStep(s, q, p, both, q(s[0]), p(s[0]), both(s[0]));
    }
  }

  /** One step of `FindIndexInFilter`: from the result on the tail to the result on
      the whole list, given the verdicts of the three tests on the head. */
  lemma FindIndexInFilterStep<T>(s: seq<T>, q: T -> bool, p: T -> bool, both: T -> bool, qh: bool, ph: bool, bh: bool)
    requires s != [] && qh == q(s[0]) && ph == p(s[0]) && bh == (qh && ph) && bh == both(s[0])
    requires var i, k := FindIndex(Filter(s[1..], q), p), FindIndex(s[1..], both);
      (i == -1 <==> k == -1) && (i != -1 ==> Filter(s[1..], q)[i] == s[1..][k])
    ensures var i, k := FindIndex(Filter(s, q), p), FindIndex(s, both);
      (i == -1 <==> k == -1) && (i != -1 ==> Filter(s, q)[i] == s[k])
  {
    var t := Filter(s[1..], q);
    if qh && ph {
      assert Filter(s, q) == [s[0]] + t;
    } else {
      FindIndexSkip([s[0]], s[1..], both);
      assert [s[0]] + s[1..] == s;
      if qh {
        assert Filter(s, q) == [s[0]] + t;
        FindIndexSkip([s[0]], t, p);
      } else {
        assert Filter(s, q) == t;
      }
    }
  }

  /** Searching past a head that fails shifts the index found in the rest by one. */
  lemma FindIndexSkip<T>(h: seq<T>, t: seq<T>, p: T -> bool)
    requires |h| == 1 && !p(h[0])
    ensures var k := FindIndex(t, p);
      FindIndex(h + t, p) == (if k == -1 then -1 else k + 1)
      && (k != -1 ==> (h + t)[k + 1] == t[k])
  {
    assert (h + t)[1..] == t;
  }

  /** The head of a filtered list is the first element of the list that passes. */
  lemma {:induction false} FilterFirst<T>(s: seq<T>, q: T -> bool)
    ensures Filter(s, q) == [] <==> FindIndex(s, q) == -1
    ensures Filter(s, q) != [] ==> Filter(s, q)[0] == s[FindIndex(s, q)]
  {
    if s != [] && !q(s[0]) {
      FilterFirst(s[1..], q);
    }
  }

  /** `filter(q).find(p)` is `find` with both tests. */
  lemma FindInFilter<T>(s: seq<T>, q: T -> bool, p: T -> bool, both: T -> bool)
    requires forall x :: both(x) <==> q(x) && p(x)
    ensures Find(Filter(s, q), p) == Find(s, both)
  {
    FindIndexInFilter(s, q, p, both);
  }

  /** The index of the last element satisfying `p`, or -1. */
  function LastIndex<T>(s: seq<T>, p: T -> bool): (r: int)
    ensures -1 <= r < |s|
    ensures r >= 0 ==> p(s[r]) && forall j :: r < j < |s| ==> !p(s[j])
    ensures r == -1 <==> forall j :: 0 <= j < |s| ==> !p(s[j])
  {
    if s == [] then -1
    else if p(s[|s| - 1]) then |s| - 1
    else LastIndex(s[..|s| - 1], p)
  }

  /** `s.reduce((acc, x) => { acc[key(x)] = val(x); return acc }, {})`: a left fold
      into a map in which a later element overwrites an earlier one with the same key. */
  function Collect<T, K, V>(s: seq<T>, key: T -> K, val: T -> V): (m: map<K, V>)
    ensures m.Keys == set j | 0 <= j < |s| :: key(s[j])
  {
    if s == [] then map[]
    else
      var m0 := Collect(s[..|s| - 1], key, val);
      assert forall j :: 0 <= j < |s| - 1 ==> s[..|s| - 1][j] == s[j];
      m0[key(s[|s| - 1]) := val(s[|s| - 1])]
  }

  /** Last write wins: the value stored under a key is that of the last element with that key. */
  lemma {:induction false} CollectLastWins<T, K, V>(s: seq<T>, key: T -> K, val: T -> V, k: K, hit: T -> bool)
    requires k in Collect(s, key, val)
    requires forall x :: hit(x) <==> key(x) == k
    ensures LastIndex(s, hit) >= 0
    ensures Collect(s, key, val)[k] == val(s[LastIndex(s, hit)])
  {
    var n := |s| - 1;
    if key(s[n]) != k {
      var s0 := s[..n];
      assert forall j :: 0 <= j < n ==> s0[j] == s[j];
      CollectLastWins(s0, key, val, k, hit);
    }
  }

  /** Keys handed out from a counter: every key is below `n`, and no two elements share one. */
  predicate KeysFresh<T>(s: seq<T>, key: T -> nat, n: nat) {
    && (forall j :: 0 <= j < |s| ==> key(s[j]) < n)
    && (forall i, j :: 0 <= i < j < |s| ==> key(s[i]) != key(s[j]))
  }

  /** Appending an element keyed by the counter keeps the keys fresh for the next counter. */
  lemma KeysFreshAppend<T>(s: seq<T>, key: T -> nat, n: nat, x: T)
    requires KeysFresh(s, key, n) && key(x) == n
    ensures KeysFresh(s + [x], key, n + 1)
  {
  }

  /** Replacing an element by one with the same key keeps the keys fresh. */
  lemma KeysFreshUpdate<T>(s: seq<T>, key: T -> nat, n: nat, k: nat, x: T)
    requires KeysFresh(s, key, n) && k < |s| && key(x) == key(s[k])
    ensures KeysFresh(s[k := x], key, n)
  {
  }

  /** Dropping the first element keeps the keys fresh. */
  lemma KeysFreshTail<T>(s: seq<T>, key: T -> nat, n: nat)
    requires s != [] && KeysFresh(s, key, n)
    ensures KeysFresh(s[1..], key, n)
    ensures forall x :: x in s[1..] ==> key(x) != key(s[0])
  {
    var rest := s[1..];
    forall i, j | 0 <= i < j < |rest| ensures key(rest[i]) != key(rest[j]) {
      assert rest[i] == s[i + 1] && rest[j] == s[j + 1];
    }
    forall x | x in rest ensures key(x) != key(s[0]) {
      var i :| 0 <= i < |rest| && rest[i] == x;
      assert rest[i] == s[i + 1];
    }
  }

  /** An element whose key is fresh for the counter and unused in the rest may go in front. */
  lemma KeysFreshCons<T>(x: T, r: seq<T>, key: T -> nat, n: nat)
    requires KeysFresh(r, key, n) && key(x) < n
    requires forall j :: 0 <= j < |r| ==> key(r[j]) != key(x)
    ensures KeysFresh([x] + r, key, n)
  {
    var f := [x] + r;
    forall i, j | 0 <= i < j < |f| ensures key(f[i]) != key(f[j]) {
      assert f[j] == r[j - 1];
      if i > 0 {
        assert f[i] == r[i - 1];
      }
    }
  }

  /** Filtering keeps the keys fresh. */
  lemma {:induction false} KeysFreshFilter<T>(s: seq<T>, key: T -> nat, n: nat, p: T -> bool)
    requires KeysFresh(s, key, n)
    ensures KeysFresh(Filter(s, p), key, n)
  {
    if s != [] {
      KeysFreshTail(s, key, n);
      KeysFreshFilter(s[1..], key, n, p);
      if p(s[0]) {
        KeysFreshCons(s[0], Filter(s[1..], p), key, n);
      }
    }
  }

  /** With fresh keys, removing the elements with key `k` (the test `keep`) removes
      at most one element: the one carrying `k` when there is one, and none otherwise. */
  lemma FilterKeyDropsOne<T>(s: seq<T>, key: T -> nat, n: nat, k: nat, keep: T -> bool)
    requires KeysFresh(s, key, n)
    requires forall x :: keep(x) <==> key(x) != k
    ensures (forall j :: 0 <= j < |s| ==> key(s[j]) != k) ==> Filter(s, keep) == s
    ensures forall i :: 0 <= i < |s| && key(s[i]) == k ==> Filter(s, keep) == s[..i] + s[i + 1..]
  {
    if forall j :: 0 <= j < |s| ==> key(s[j]) != k {
      FilterKeepsAll(s, keep);
    }
    forall i | 0 <= i < |s| && key(s[i]) == k
      ensures Filter(s, keep) == s[..i] + s[i + 1..]
    {
      FilterDropsOne(s, keep, i);
    }
  }

  /** An element keyed by the counter is removed again by filtering on its key. */
  lemma FilterFreshKey<T>(s: seq<T>, key: T -> nat, n: nat, x: T, keep: T -> bool)
    requires KeysFresh(s, key, n) && key(x) == n
    requires forall y :: keep(y) <==> key(y) != n
    ensures Filter(s + [x], keep) == s
  {
    FilterAppend(s, [x], keep);
    FilterKeepsAll(s, keep);
    assert Filter([x], keep) == [];
  }
}
