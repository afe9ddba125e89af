/** Sorting by a numeric key, largest first, and keeping the first k: the
    `sort((a, b) => key(b) - key(a)).slice(0, k)` idiom of the dashboard
    (backend/routes/dashboard.js). An ascending sort is the same sort on the
    negated key. */
module Ranking {

  predicate Descending<T>(s: seq<T>, key: T -> real)
  {
    forall i, j :: 0 <= i < j < |s| ==> key(s[i]) >= key(s[j])
  }

  /** Puts `x` before the first element whose key is not larger, so that of
      two elements with equal keys the one inserted later (which came
      earlier in the input) ends up first. */
  function InsertDesc<T>(x: T, s: seq<T>, key: T -> real): seq<T>
  {
    if s == [] || key(s[0]) <= key(x) then [x] + s
    else [s[0]] + InsertDesc(x, s[1..], key)
  }

  /** Insertion sort, largest key first. */
  function SortDesc<T>(s: seq<T>, key: T -> real): seq<T>
  {
    if s == [] then [] else InsertDesc(s[0], SortDesc(s[1..], key), key)
  }

  lemma {:induction false} InsertDescPerm<T>(x: T, s: seq<T>, key: T -> real)
    ensures |InsertDesc(x, s, key)| == |s| + 1
    ensures multiset(InsertDesc(x, s, key)) == multiset(s) + multiset{x}
  {
    if s != [] && key(s[0]) > key(x) {
      InsertDescPerm(x, s[1..], key);
      assert s == [s[0]] + s[1..];
    }
  }

  lemma {:induction false} InsertDescSorted<T>(x: T, s: seq<T>, key: T -> real)
    requires Descending(s, key)
    ensures Descending(InsertDesc(x, s, key), key)
  {
    if s != [] && key(s[0]) > key(x) {
      var rest := InsertDesc(x, s[1..], key);
      InsertDescSorted(x, s[1..], key);
      InsertDescPerm(x, s[1..], key);
      forall j | 0 <= j < |rest|
        ensures key(s[0]) >= key(rest[j])
      {
        assert rest[j] in multiset(rest);
        if rest[j] != x {
          assert rest[j] in multiset(s[1..]);
          var k :| 0 <= k < |s[1..]| && s[1..][k] == rest[j];
          assert s[k + 1] == rest[j];
        }
      }
      assert InsertDesc(x, s, key) == [s[0]] + rest;
    }
  }

  /** The sort is a permutation of its input. */
  lemma {:induction false} SortDescPerm<T>(s: seq<T>, key: T -> real)
    ensures |SortDesc(s, key)| == |s|
    ensures multiset(SortDesc(s, key)) == multiset(s)
  {
    if s != [] {
      SortDescPerm(s[1..], key);
      InsertDescPerm(s[0], SortDesc(s[1..], key), key);
      assert s == [s[0]] + s[1..];
    }
  }

  /** The sort puts the largest key first. */
  lemma {:induction false} SortDescSorted<T>(s: seq<T>, key: T -> real)
    ensures Descending(SortDesc(s, key), key)
  {
    if s != [] {
      SortDescSorted(s[1..], key);
      InsertDescSorted(s[0], SortDesc(s[1..], key), key);
    }
  }

  lemma SortDescSpec<T>(s: seq<T>, key: T -> real)
    ensures |SortDesc(s, key)| == |s|
    ensures multiset(SortDesc(s, key)) == multiset(s)
    ensures Descending(SortDesc(s, key), key)
  {
    SortDescPerm(s, key);
    SortDescSorted(s, key);
  }

  /** The sort keeps every element and adds none. */
  lemma SortDescSameElements<T>(s: seq<T>, key: T -> real)
    ensures forall i :: 0 <= i < |s| ==> s[i] in SortDesc(s, key)
    ensures forall k :: 0 <= k < |SortDesc(s, key)| ==> SortDesc(s, key)[k] in s
  {
    var t := SortDesc(s, key);
    SortDescPerm(s, key);
    forall i | 0 <= i < |s| ensures s[i] in t {
      assert s[i] in multiset(t);
    }
    forall k | 0 <= k < |t| ensures t[k] in s {
      assert t[k] in multiset(s);
    }
  }

  function Min(a: nat, b: nat): nat
  {
    if a <= b then a else b
  }

  /** `sort(...).slice(0, k)`. */
  function TopK<T>(s: seq<T>, key: T -> real, k: nat): seq<T>
  {
    var t := SortDesc(s, key);
    t[..Min(k, |t|)]
  }

  /** In a descending sequence nothing after position m has a larger key
      than anything before it. */
  lemma RestIsNotLarger<T>(t: seq<T>, key: T -> real, m: nat)
    requires Descending(t, key) && m <= |t|
    ensures forall y :: y in multiset(t[m..]) ==> forall i :: 0 <= i < m ==> key(t[i]) >= key(y)
  {
    forall y | y in multiset(t[m..])
      ensures forall i :: 0 <= i < m ==> key(t[i]) >= key(y)
    {
      assert y in t[m..];
      var j :| 0 <= j < |t[m..]| && t[m..][j] == y;
      assert t[m + j] == y;
    }
  }

  /** The first k after sorting: as many as there are, up to k, drawn from
      the input, largest first. */
  lemma TopKSpec<T>(s: seq<T>, key: T -> real, k: nat)
    ensures |TopK(s, key, k)| == Min(k, |s|)
    ensures multiset(TopK(s, key, k)) <= multiset(s)
    ensures Descending(TopK(s, key, k), key)
  {
    var t := SortDesc(s, key);
    SortDescSpec(s, key);
    var m := Min(k, |t|);
    assert t == t[..m] + t[m..];
    assert multiset(t) == multiset(t[..m]) + multiset(t[m..]);
  }

  /** None of the input left out of the first k has a larger key than any
      kept. */
  lemma TopKIsTop<T>(s: seq<T>, key: T -> real, k: nat)
    ensures forall y :: y in multiset(s) - multiset(TopK(s, key, k)) ==>
              forall i :: 0 <= i < |TopK(s, key, k)| ==> key(TopK(s, key, k)[i]) >= key(y)
  {
    var t := SortDesc(s, key);
    SortDescSpec(s, key);
    var m := Min(k, |t|);
    var r := t[..m];
    assert t == r + t[m..];
    assert multiset(s) - multiset(r) == multiset(t[m..]);
    RestIsNotLarger(t, key, m);
  }
}
