/** The feature-importance list of a prediction response (app.py,
    `api_predict`): the model's per-feature weights paired with the feature
    names and sorted by weight, highest first, with Python's stable `sorted`. */
module Importance {
  import opened Wrappers
  import opened Features

  /** One `{"name": ..., "importance": ...}` item. */
  datatype Entry = Entry(name: string, importance: real)

  function Names(s: seq<Entry>): (r: seq<string>)
    ensures |r| == |s|
    ensures forall i :: 0 <= i < |s| ==> r[i] == s[i].name
  {
    if |s| == 0 then [] else [s[0].name] + Names(s[1..])
  }

  /** Weights never increase along the list. */
  ghost predicate SortedDescending(s: seq<Entry>) {
    forall i, j :: 0 <= i < j < |s| ==> s[i].importance >= s[j].importance
  }

  /** The entries of weight `w`, in list order. */
  function WithWeight(s: seq<Entry>, w: real): (r: seq<Entry>)
    ensures |r| <= |s|
  {
    if |s| == 0 then []
    else if s[0].importance == w then [s[0]] + WithWeight(s[1..], w)
    else WithWeight(s[1..], w)
  }

  /** Insert `x` before the first entry whose weight is not above its own. */
  function Insert(x: Entry, s: seq<Entry>): (r: seq<Entry>)
    ensures |r| == |s| + 1
  {
    if |s| == 0 || s[0].importance <= x.importance then [x] + s
    else [s[0]] + Insert(x, s[1..])
  }

  /** Insertion adds exactly `x` to the entries. */
  lemma {:induction false} InsertPermutes(x: Entry, s: seq<Entry>)
    ensures multiset(Insert(x, s)) == multiset(s) + multiset{x}
  {
    if |s| > 0 && s[0].importance > x.importance {
      InsertPermutes(x, s[1..]);
      assert s == [s[0]] + s[1..];
      assert Insert(x, s) == [s[0]] + Insert(x, s[1..]);
    }
  }

  /** ... and exactly `x`'s name to the names. */
  lemma {:induction false} InsertKeepsNames(x: Entry, s: seq<Entry>)
    ensures multiset(Names(Insert(x, s))) == multiset(Names(s)) + multiset{x.name}
  {
    if |s| == 0 || s[0].importance <= x.importance {
      assert Names([x] + s) == [x.name] + Names(s);
    } else {
      InsertKeepsNames(x, s[1..]);
      assert Names(s) == [s[0].name] + Names(s[1..]);
      assert Names(Insert(x, s)) == [s[0].name] + Names(Insert(x, s[1..]));
    }
  }

  /** No weight in the list exceeds `b`. */
  ghost predicate AtMost(s: seq<Entry>, b: real) {
    forall k :: 0 <= k < |s| ==> s[k].importance <= b
  }

  lemma {:induction false} InsertAtMost(x: Entry, s: seq<Entry>, b: real)
    requires AtMost(s, b) && x.importance <= b
    ensures AtMost(Insert(x, s), b)
  {
    if |s| > 0 && s[0].importance > x.importance {
      InsertAtMost(x, s[1..], b);
      assert Insert(x, s) == [s[0]] + Insert(x, s[1..]);
    }
  }

  lemma {:induction false} InsertKeepsSorted(x: Entry, s: seq<Entry>)
    requires SortedDescending(s)
    ensures SortedDescending(Insert(x, s))
  {
    var r := Insert(x, s);
    if |s| == 0 || s[0].importance <= x.importance {
      assert r == [x] + s;
      forall i, j | 0 <= i < j < |r|
        ensures r[i].importance >= r[j].importance
      {
        assert r[j] == s[j - 1];
        if i > 0 {
          assert r[i] == s[i - 1];
        }
      }
    } else {
      InsertKeepsSorted(x, s[1..]);
      InsertAtMost(x, s[1..], s[0].importance);
      var t := Insert(x, s[1..]);
      assert r == [s[0]] + t;
      forall i, j | 0 <= i < j < |r|
        ensures r[i].importance >= r[j].importance
      {
        assert r[j] == t[j - 1];
        if i > 0 {
          assert r[i] == t[i - 1];
        }
      }
    }
  }

  /** Every entry ahead of `x` outweighs it, so among entries of one weight
      `x` lands ahead of all those of `s`. */
  lemma {:induction false} InsertIsStable(x: Entry, s: seq<Entry>, w: real)
    ensures WithWeight(Insert(x, s), w)
            == if x.importance == w then [x] + WithWeight(s, w) else WithWeight(s, w)
  {
    if |s| == 0 || s[0].importance <= x.importance {
      assert ([x] + s)[1..] == s;
    } else {
      InsertIsStable(x, s[1..], w);
      assert ([s[0]] + Insert(x, s[1..]))[1..] == Insert(x, s[1..]);
    }
  }

  /** `sorted(entries, key=importance, reverse=True)`: an insertion sort,
      which like Python's is stable. */
  function SortDescending(s: seq<Entry>): (r: seq<Entry>)
    ensures |r| == |s|
  {
    if |s| == 0 then [] else Insert(s[0], SortDescending(s[1..]))
  }

  /** The weights of the sorted list never increase. */
  lemma {:induction false} SortDescendingSorted(s: seq<Entry>)
    ensures SortedDescending(SortDescending(s))
  {
    if |s| > 0 {
      SortDescendingSorted(s[1..]);
      InsertKeepsSorted(s[0], SortDescending(s[1..]));
    }
  }

  /** A non-empty sequence is its head plus its tail, as a multiset. */
  lemma MultisetHeadTail<T>(s: seq<T>)
    requires |s| > 0
    ensures multiset(s) == multiset(s[1..]) + multiset{s[0]}
  {
    assert s == [s[0]] + s[1..];
  }

  /** The sort only reorders: the same entries. */
  lemma {:induction false} SortDescendingPermutes(s: seq<Entry>)
    ensures multiset(SortDescending(s)) == multiset(s)
  {
    if |s| > 0 {
      var t := SortDescending(s[1..]);
      assert SortDescending(s) == Insert(s[0], t);
      SortDescendingPermutes(s[1..]);
      InsertPermutes(s[0], t);
      MultisetHeadTail(s);
    }
  }

  /** ... and so the same names. */
  lemma {:induction false} SortDescendingKeepsNames(s: seq<Entry>)
    ensures multiset(Names(SortDescending(s))) == multiset(Names(s))
  {
    if |s| > 0 {
      var t := SortDescending(s[1..]);
      assert SortDescending(s) == Insert(s[0], t);
      SortDescendingKeepsNames(s[1..]);
      InsertKeepsNames(s[0], t);
      assert Names(s) == [s[0].name] + Names(s[1..]);
    }
  }

  /** Stability: the entries of any one weight come out in their input order. */
  lemma {:induction false} SortDescendingIsStable(s: seq<Entry>, w: real)
    ensures WithWeight(SortDescending(s), w) == WithWeight(s, w)
  {
    if |s| > 0 {
      SortDescendingIsStable(s[1..], w);
      InsertIsStable(s[0], SortDescending(s[1..]), w);
    }
  }

  /** The weights paired with the feature names, in feature order. */
  function Paired(weights: seq<real>): (r: seq<Entry>)
    requires |weights| >= FEATURE_COUNT
    ensures |r| == FEATURE_COUNT
    ensures forall i :: 0 <= i < FEATURE_COUNT ==> r[i] == Entry(FEATURE_NAMES[i], weights[i])
  {
    seq(FEATURE_COUNT, i requires 0 <= i < FEATURE_COUNT => Entry(FEATURE_NAMES[i], weights[i]))
  }

  /** The fallback list: every feature, in feature order, with weight 0.0. */
  const ZERO_WEIGHTS: seq<Entry> := Paired([0.0, 0.0, 0.0, 0.0, 0.0, 0.0, 0.0])

  lemma PairedNames(weights: seq<real>)
    requires |weights| >= FEATURE_COUNT
    ensures Names(Paired(weights)) == FEATURE_NAMES
  {
  }

  /** Lines 120-125. `source` is `model.feature_importances_`, None when the
      attribute is missing or raises; fewer than seven weights raise an
      IndexError and also fall back. */
  function Importances(source: Option<seq<real>>): (r: seq<Entry>)
    ensures |r| == FEATURE_COUNT
    ensures multiset(Names(r)) == multiset(FEATURE_NAMES)
    ensures SortedDescending(r)
    ensures source.None? || |source.value| < FEATURE_COUNT ==> r == ZERO_WEIGHTS
    ensures source.Some? && |source.value| >= FEATURE_COUNT ==> multiset(r) == multiset(Paired(source.value))
    ensures source.Some? && |source.value| >= FEATURE_COUNT ==>
      forall w :: WithWeight(r, w) == WithWeight(Paired(source.value), w)
  {
    if source.Some? && |source.value| >= FEATURE_COUNT then
      var p := Paired(source.value);
      PairedNames(source.value);
      SortDescendingPermutes(p);
      SortDescendingKeepsNames(p);
      SortDescendingIsStableAll(p);
      SortDescendingSorted(p);
      SortDescending(p)
    else
      PairedNames([0.0, 0.0, 0.0, 0.0, 0.0, 0.0, 0.0]);
      ZeroWeightsSorted();
      ZERO_WEIGHTS
  }

  lemma SortDescendingIsStableAll(s: seq<Entry>)
    ensures forall w :: WithWeight(SortDescending(s), w) == WithWeight(s, w)
  {
    forall w {
      SortDescendingIsStable(s, w);
    }
  }

  lemma ZeroWeightsSorted()
    ensures SortedDescending(ZERO_WEIGHTS)
  {
  }

  /** A list already in order is left as it is; so sorting the fallback
      list would not change it. */
  lemma {:induction false} SortDescendingKeepsSorted(s: seq<Entry>)
    requires SortedDescending(s)
    ensures SortDescending(s) == s
  {
    if |s| > 0 {
      SortDescendingKeepsSorted(s[1..]);
      assert s == [s[0]] + s[1..];
      assert |s| == 1 || s[1].importance <= s[0].importance;
    }
  }

  /** The fallback list is what the stable sort makes of seven zero weights. */
  lemma FallbackIsSortedZeros()
    ensures SortDescending(ZERO_WEIGHTS) == ZERO_WEIGHTS
  {
    ZeroWeightsSorted();
    SortDescendingKeepsSorted(ZERO_WEIGHTS);
  }
}
