// Sequence facts shared by the chart engine and the calendar heatmap:
// de-duplication in first-seen order (`[...new Set(xs)]`, and the insertion
// order of keys in a JavaScript object or Map) and the counting of
// occurrences per distinct key.
module Collections {

  predicate Distinct<T(==)>(s: seq<T>) {
    forall i, j :: 0 <= i < j < |s| ==> s[i] != s[j]
  }

  /** The distinct elements of `s` in the order in which they first occur. */
  function Dedup<T(==)>(s: seq<T>): (r: seq<T>)
    ensures Distinct(r)
    ensures forall i :: 0 <= i < |r| ==> r[i] in s
    ensures forall i :: 0 <= i < |s| ==> s[i] in r
    ensures |r| <= |s|
  {
    if |s| == 0 then []
    else
      var d := Dedup(s[..|s| - 1]);
      var x := s[|s| - 1];
      if x in d then d else d + [x]
  }

  /** First-seen order: extending the input never reorders or drops the
      distinct elements found so far. */
  lemma {:induction false} DedupPrefix<T>(s: seq<T>, k: nat)
    requires k <= |s|
    ensures Dedup(s[..k]) <= Dedup(s)
    decreases |s|
  {
    if k < |s| {
      var init := s[..|s| - 1];
      DedupPrefix(init, k);
      assert init[..k] == s[..k];
    } else {
      assert s[..k] == s;
    }
  }

  /** The first element of the input is the first distinct element. */
  lemma DedupFirst<T>(s: seq<T>)
    requires |s| > 0
    ensures Dedup(s)[0] == s[0]
  {
    DedupPrefix(s, 1);
    assert s[..1] == [s[0]];
    assert Dedup(s[..1]) == [s[0]];
  }

  /** The sum, over the listed keys, of how often each occurs in `m`. */
  function SumMultiplicities<T(==)>(keys: seq<T>, m: multiset<T>): nat
  {
    if |keys| == 0 then 0 else SumMultiplicities(keys[..|keys| - 1], m) + m[keys[|keys| - 1]]
  }

  lemma {:induction false} SumMultiplicitiesAddOne<T>(keys: seq<T>, m: multiset<T>, x: T)
    requires Distinct(keys)
    ensures SumMultiplicities(keys, m + multiset{x})
         == SumMultiplicities(keys, m) + (if x in keys then 1 else 0)
  {
    if |keys| > 0 {
      var init := keys[..|keys| - 1];
      SumMultiplicitiesAddOne(init, m, x);
      assert x in keys <==> x in init || x == keys[|keys| - 1];
      assert keys[|keys| - 1] !in init;
    }
  }

  /** Conservation of count: grouping by key neither loses nor duplicates an
      element, so the group sizes over the distinct keys add up to the length. */
  lemma {:induction false} GroupSizesSumToLength<T>(s: seq<T>)
    ensures SumMultiplicities(Dedup(s), multiset(s)) == |s|
  {
    if |s| > 0 {
      var init, x := s[..|s| - 1], s[|s| - 1];
      assert s == init + [x];
      GroupSizesSumToLength(init);
      var d := Dedup(init);
      SumMultiplicitiesAddOne(d, multiset(init), x);
      if x !in d {
        assert Dedup(s) == d + [x];
        assert Dedup(s)[..|Dedup(s)| - 1] == d;
        assert multiset(init)[x] == 0;
      }
    }
  }

  /** A key is listed by `Dedup` exactly when it occurs at least once. */
  lemma DedupMembersOccur<T>(s: seq<T>, x: T)
    ensures x in Dedup(s) <==> multiset(s)[x] >= 1
  {
  }

  /** `s.filter(p)`: the elements satisfying `p`, in their original order. */
  function Filter<T>(p: T -> bool, s: seq<T>): (r: seq<T>)
    ensures |r| <= |s|
    ensures forall i :: 0 <= i < |r| ==> p(r[i])
  {
    if |s| == 0 then []
    else Filter(p, s[..|s| - 1]) + (if p(s[|s| - 1]) then [s[|s| - 1]] else [])
  }

  /** Filtering keeps relative order: the filter of a concatenation is the
      concatenation of the filters. */
  lemma {:induction false} FilterConcat<T>(p: T -> bool, a: seq<T>, b: seq<T>)
    ensures Filter(p, a + b) == Filter(p, a) + Filter(p, b)
    decreases |b|
  {
    if |b| == 0 {
      assert a + b == a;
    } else {
      FilterConcat(p, a, b[..|b| - 1]);
      assert (a + b)[..|a + b| - 1] == a + b[..|b| - 1];
    }
  }

  /** An element is kept exactly when it occurs in the input and satisfies
      `p`; nothing else is added or dropped. */
  lemma {:induction false} FilterMembers<T>(p: T -> bool, s: seq<T>, x: T)
    ensures x in Filter(p, s) <==> x in s && p(x)
    ensures multiset(Filter(p, s))[x] == if p(x) then multiset(s)[x] else 0
  {
    if |s| > 0 {
      var init := s[..|s| - 1];
      FilterMembers(p, init, x);
      assert s == init + [s[|s| - 1]];
    }
  }
}
