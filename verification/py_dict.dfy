/** Python dictionaries as insertion-ordered tables of (key, value) pairs.
    A dict literal `{k1: v1, k2: v2, ...}` is built by inserting its pairs
    left to right; re-inserting a key keeps the key's first position and
    replaces its value. */
module PyDict {
  import opened Wrappers
  import opened Ascii

  type Table<K, V> = seq<(K, V)>

  /** Position of key `k` in `t`, if present. */
  function IndexOf<K(==), V>(t: Table<K, V>, k: K): (r: Option<nat>)
    ensures r.Some? ==> r.value < |t| && t[r.value].0 == k
    ensures r.None? ==> forall i :: 0 <= i < |t| ==> t[i].0 != k
  {
    if |t| == 0 then None
    else if t[|t| - 1].0 == k then Some(|t| - 1)
    else IndexOf(t[..|t| - 1], k)
  }

  /** No key appears twice. */
  ghost predicate DistinctKeys<K, V>(t: Table<K, V>) {
    forall i, j :: 0 <= i < j < |t| ==> t[i].0 != t[j].0
  }

  /** `d[k] = v` on an insertion-ordered dict. */
  function Put<K(==), V>(t: Table<K, V>, k: K, v: V): (r: Table<K, V>)
    requires DistinctKeys(t)
    ensures DistinctKeys(r)
    ensures IndexOf(t, k).Some? ==> r == t[IndexOf(t, k).value := (k, v)]
    ensures IndexOf(t, k).None? ==> r == t + [(k, v)]
  {
    match IndexOf(t, k)
    case Some(i) => t[i := (k, v)]
    case None => t + [(k, v)]
  }

  /** The dict a literal with the given pairs evaluates to. */
  function DictOf<K(==), V>(pairs: seq<(K, V)>): (t: Table<K, V>)
    ensures DistinctKeys(t)
    ensures |t| <= |pairs|
  {
    if |pairs| == 0 then []
    else Put(DictOf(pairs[..|pairs| - 1]), pairs[|pairs| - 1].0, pairs[|pairs| - 1].1)
  }

  /** Pair `j` of a literal is the last one that mentions its key. */
  ghost predicate IsLastFor<K, V>(pairs: seq<(K, V)>, j: int)
    requires 0 <= j < |pairs|
  {
    forall l :: j < l < |pairs| ==> pairs[l].0 != pairs[j].0
  }

  /** Entry `e` is the last pair of the literal with its key. */
  ghost predicate FromLastPair<K, V>(pairs: seq<(K, V)>, e: (K, V)) {
    exists j :: 0 <= j < |pairs| && pairs[j] == e && IsLastFor(pairs, j)
  }

  /** Every entry of the evaluated dict is the LAST pair of the literal with
      that key: a repeated key keeps its final value. */
  lemma {:induction false} DictOfLastValueWins<K, V>(pairs: seq<(K, V)>)
    ensures forall i :: 0 <= i < |DictOf(pairs)| ==> FromLastPair(pairs, DictOf(pairs)[i])
  {
    if |pairs| > 0 {
      var init := pairs[..|pairs| - 1];
      var last := pairs[|pairs| - 1];
      DictOfLastValueWins(init);
      var t := DictOf(init);
      var r := DictOf(pairs);
      forall i | 0 <= i < |r|
        ensures FromLastPair(pairs, r[i])
      {
        if r[i] == last {
          assert pairs[|pairs| - 1] == r[i] && IsLastFor(pairs, |pairs| - 1);
        } else {
          assert i < |t| && r[i] == t[i] && t[i].0 != last.0;
          assert FromLastPair(init, t[i]);
          var j :| 0 <= j < |init| && init[j] == t[i] && IsLastFor(init, j);
          assert pairs[j] == r[i] && IsLastFor(pairs, j);
        }
      }
    }
  }

  /** Every key of the literal is a key of the evaluated dict. */
  lemma {:induction false} DictOfHasEveryKey<K, V>(pairs: seq<(K, V)>)
    ensures forall j :: 0 <= j < |pairs| ==> IndexOf(DictOf(pairs), pairs[j].0).Some?
  {
    if |pairs| > 0 {
      var init := pairs[..|pairs| - 1];
      var last := pairs[|pairs| - 1];
      DictOfHasEveryKey(init);
      var t := DictOf(init);
      var r := DictOf(pairs);
      forall j | 0 <= j < |pairs|
        ensures IndexOf(r, pairs[j].0).Some?
      {
        if j < |init| && pairs[j].0 != last.0 {
          assert init[j] == pairs[j];
          var k := IndexOf(t, pairs[j].0).value;
          assert r[k] == t[k];
        } else {
          var k := IndexOf(t, last.0);
          if k.Some? {
            assert r[k.value] == last;
          } else {
            assert r[|r| - 1] == last;
          }
        }
      }
    }
  }

  /** A literal without repeated keys evaluates to itself. */
  lemma {:induction false} DictOfDistinct<K, V>(pairs: seq<(K, V)>)
    requires DistinctKeys(pairs)
    ensures DictOf(pairs) == pairs
  {
    if |pairs| > 0 {
      var init := pairs[..|pairs| - 1];
      DictOfDistinct(init);
      assert IndexOf(init, pairs[|pairs| - 1].0).None?;
      assert init + [pairs[|pairs| - 1]] == pairs;
    }
  }

  /** Two key-distinct tables with no key in common join into one. */
  lemma DistinctKeysAppend<K, V>(p: Table<K, V>, q: Table<K, V>)
    requires DistinctKeys(p) && DistinctKeys(q)
    requires forall i, j :: 0 <= i < |p| && 0 <= j < |q| ==> p[i].0 != q[j].0
    ensures DistinctKeys(p + q)
  {
    forall i, j | 0 <= i < j < |p + q|
      ensures (p + q)[i].0 != (p + q)[j].0
    {
      if j < |p| {
        assert (p + q)[i] == p[i] && (p + q)[j] == p[j];
      } else if i >= |p| {
        assert (p + q)[i] == q[i - |p|] && (p + q)[j] == q[j - |p|];
      } else {
        assert (p + q)[i] == p[i] && (p + q)[j] == q[j - |p|];
      }
    }
  }

  /** Pairs whose keys are new are appended in order. */
  lemma {:induction false} DictOfExtend<K, V>(p: seq<(K, V)>, q: seq<(K, V)>)
    requires DistinctKeys(q)
    requires forall i, j :: 0 <= i < |DictOf(p)| && 0 <= j < |q| ==> DictOf(p)[i].0 != q[j].0
    ensures DictOf(p + q) == DictOf(p) + q
    decreases |q|
  {
    if |q| == 0 {
      assert p + q == p;
    } else {
      var q' := q[..|q| - 1];
      assert (p + q)[..|p + q| - 1] == p + q';
      DictOfExtend(p, q');
      var t := DictOf(p) + q';
      assert IndexOf(t, q[|q| - 1].0).None?;
      assert t + [q[|q| - 1]] == DictOf(p) + q;
    }
  }

  /** Entry `i` is the first entry, in table order, whose key occurs in `s`. */
  ghost predicate IsFirstMatch<V>(t: Table<string, V>, s: string, i: int) {
    && 0 <= i < |t|
    && IsSubstring(t[i].0, s)
    && forall j :: 0 <= j < i ==> !IsSubstring(t[j].0, s)
  }

  /** No key of the table occurs in `s`. */
  ghost predicate NoKeyOccurs<V>(t: Table<string, V>, s: string) {
    forall j :: 0 <= j < |t| ==> !IsSubstring(t[j].0, s)
  }

  /** Index of the first entry (in table order) whose key occurs in `s`:
      the loop `for key, value in d.items(): if key in s: return ...`. */
  function FirstMatch<V>(t: Table<string, V>, s: string): (r: Option<nat>)
    ensures r.Some? ==> IsFirstMatch(t, s, r.value)
    ensures r.None? <==> NoKeyOccurs(t, s)
  {
    FirstMatchFrom(t, s, 0)
  }

  /** The value of the first matching entry, or `default` when no key occurs. */
  function FirstMatchValue<V>(t: Table<string, V>, s: string, default: V): (r: V)
    ensures forall i :: IsFirstMatch(t, s, i) ==> r == t[i].1
    ensures NoKeyOccurs(t, s) ==> r == default
  {
    match FirstMatch(t, s)
    case Some(i) => t[i].1
    case None => default
  }

  function FirstMatchFrom<V>(t: Table<string, V>, s: string, from: nat): (r: Option<nat>)
    requires from <= |t|
    ensures r.Some? ==> from <= r.value < |t| && IsSubstring(t[r.value].0, s)
    ensures r.Some? ==> forall j :: from <= j < r.value ==> !IsSubstring(t[j].0, s)
    ensures r.None? ==> forall j :: from <= j < |t| ==> !IsSubstring(t[j].0, s)
    decreases |t| - from
  {
    if from == |t| then None
    else if Contains(s, t[from].0) then
      ContainsIsSubstring(s, t[from].0);
      Some(from)
    else
      ContainsIsSubstring(s, t[from].0);
      FirstMatchFrom(t, s, from + 1)
  }
}
