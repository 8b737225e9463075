/** The lodash collection helpers the component relies on, with the guarantees
    it needs from them: `_.filter` keeps order, `_.sortBy` is a stable
    ascending sort by a key, `_.clamp` bounds a number. */
module Lodash {
  import opened JsValues

  /** `_.filter(s, keep)`: the elements satisfying `keep`, in their order. */
  function Filter<T>(s: seq<T>, keep: T -> bool): (r: seq<T>)
    ensures |r| <= |s|
    ensures forall i :: 0 <= i < |r| ==> keep(r[i])
  {
    if s == [] then []
    else (if keep(s[0]) then [s[0]] else []) + Filter(s[1..], keep)
  }

  /** `_.filter` keeps exactly the elements of `s` that satisfy `keep`. */
  lemma {:induction false} FilterMembers<T>(s: seq<T>, keep: T -> bool, x: T)
    ensures x in Filter(s, keep) <==> x in s && keep(x)
  {
    if s != [] {
      FilterMembers(s[1..], keep, x);
      assert s == [s[0]] + s[1..];
    }
  }

  /** One step of `Filter`, on a sequence written as head and tail. */
  lemma FilterCons<T>(y: T, t: seq<T>, keep: T -> bool)
    ensures Filter([y] + t, keep) == (if keep(y) then [y] else []) + Filter(t, keep)
  {
    assert ([y] + t)[0] == y;
    assert ([y] + t)[1..] == t;
  }

  /** Filtering on a predicate and on its negation splits the input: every
      element, with its multiplicity, lands in exactly one of the two results. */
  lemma {:induction false} FilterPartition<T>(s: seq<T>, keep: T -> bool, drop: T -> bool)
    requires forall x :: drop(x) == !keep(x)
    ensures multiset(Filter(s, keep)) + multiset(Filter(s, drop)) == multiset(s)
  {
    if s != [] {
      FilterPartition(s[1..], keep, drop);
      MultisetHeadTail(s);
    }
  }

  lemma MultisetHeadTail<T>(s: seq<T>)
    requires s != []
    ensures multiset(s) == multiset{s[0]} + multiset(s[1..])
  {
    assert s == [s[0]] + s[1..];
  }

  /** A predicate that holds of nothing filters everything out. */
  lemma {:induction false} FilterNone<T>(s: seq<T>, keep: T -> bool)
    requires forall x :: !keep(x)
    ensures Filter(s, keep) == []
  {
    if s != [] {
      FilterNone(s[1..], keep);
    }
  }

  /** A predicate that holds of everything keeps the whole input. */
  lemma {:induction false} FilterAll<T>(s: seq<T>, keep: T -> bool)
    requires forall x :: keep(x)
    ensures Filter(s, keep) == s
  {
    if s != [] {
      FilterAll(s[1..], keep);
    }
  }

  /** Ascending by key. */
  ghost predicate SortedBy<T>(s: seq<T>, key: T -> real) {
    forall i, j :: 0 <= i < j < |s| ==> key(s[i]) <= key(s[j])
  }

  /** The elements whose key is `k`. */
  function KeyIs<T>(key: T -> real, k: real): T -> bool {
    x => key(x) == k
  }

  /** Inserts `x` in front of the first element whose key is not below `x`'s. */
  function Insert<T>(x: T, s: seq<T>, key: T -> real): (r: seq<T>)
    ensures multiset(r) == multiset(s) + multiset{x}
    ensures |r| == |s| + 1
  {
    if s == [] || key(x) <= key(s[0]) then [x] + s
    else
      assert s == [s[0]] + s[1..];
      [s[0]] + Insert(x, s[1..], key)
  }

  /** `_.sortBy(s, key)`: lodash sorts ascending by the key and keeps the input
      order among equal keys. Modelled as an insertion sort from the back. */
  function SortBy<T>(s: seq<T>, key: T -> real): (r: seq<T>)
    ensures multiset(r) == multiset(s)
    ensures |r| == |s|
  {
    if s == [] then []
    else
      assert s == [s[0]] + s[1..];
      Insert(s[0], SortBy(s[1..], key), key)
  }

  /** Sorting what a filter kept still yields only elements the filter keeps. */
  lemma SortByFilterKeeps<T>(s: seq<T>, keep: T -> bool, key: T -> real)
    ensures forall i :: 0 <= i < |SortBy(Filter(s, keep), key)| ==> keep(SortBy(Filter(s, keep), key)[i])
  {
    var kept := Filter(s, keep);
    var r := SortBy(kept, key);
    forall i | 0 <= i < |r|
      ensures keep(r[i])
    {
      assert r[i] in multiset(r);
      assert r[i] in kept;
    }
  }

  lemma {:induction false} InsertSorted<T>(x: T, s: seq<T>, key: T -> real)
    requires SortedBy(s, key)
    ensures SortedBy(Insert(x, s, key), key)
    ensures Insert(x, s, key)[0] == x || (s != [] && Insert(x, s, key)[0] == s[0])
  {
    if s == [] || key(x) <= key(s[0]) {
    } else {
      InsertSorted(x, s[1..], key);
      var t := Insert(x, s[1..], key);
      assert multiset(t) == multiset(s[1..]) + multiset{x};
      forall j | 0 <= j < |t|
        ensures key(s[0]) <= key(t[j])
      {
        assert t[j] in multiset(t);
        if t[j] != x {
          assert t[j] in multiset(s[1..]);
          var i :| 0 <= i < |s[1..]| && s[1..][i] == t[j];
          assert s[i + 1] == t[j];
        }
      }
    }
  }

  /** The result of `_.sortBy` is in ascending key order. */
  lemma {:induction false} SortByIsSorted<T>(s: seq<T>, key: T -> real)
    ensures SortedBy(SortBy(s, key), key)
  {
    if s != [] {
      SortByIsSorted(s[1..], key);
      InsertSorted(s[0], SortBy(s[1..], key), key);
    }
  }

  lemma {:induction false} InsertStable<T>(x: T, s: seq<T>, key: T -> real, k: real)
    ensures Filter(Insert(x, s, key), KeyIs(key, k)) == Filter([x] + s, KeyIs(key, k))
  {
    var eq := KeyIs(key, k);
    if s == [] || key(x) <= key(s[0]) {
    } else {
      InsertStable(x, s[1..], key, k);
      var t := Insert(x, s[1..], key);
      var fx := if eq(x) then [x] else [];
      var f0 := if eq(s[0]) then [s[0]] else [];
      var rest := Filter(s[1..], eq);
      FilterCons(s[0], t, eq);
      FilterCons(x, s[1..], eq);
      FilterCons(x, s, eq);
      assert Filter(s, eq) == f0 + rest;
      // s[0] and x cannot both have key k, so their order does not matter
      if eq(x) {
        assert f0 == [];
        assert f0 + (fx + rest) == fx + rest == fx + (f0 + rest);
      } else {
        assert fx == [];
        assert f0 + (fx + rest) == f0 + rest == fx + (f0 + rest);
      }
    }
  }

  /** `_.sortBy` is stable: the elements of any one key come out in their input order. */
  lemma {:induction false} SortByIsStable<T>(s: seq<T>, key: T -> real, k: real)
    ensures Filter(SortBy(s, key), KeyIs(key, k)) == Filter(s, KeyIs(key, k))
  {
    if s != [] {
      SortByIsStable(s[1..], key, k);
      InsertStable(s[0], SortBy(s[1..], key), key, k);
      assert ([s[0]] + SortBy(s[1..], key))[1..] == SortBy(s[1..], key);
      assert s == [s[0]] + s[1..];
    }
  }

  /** Reference for `_.first(_.sortBy(s, key))`: the first index, in input
      order, among those holding the least key. */
  function FirstMinIndex<T>(s: seq<T>, key: T -> real): (i: nat)
    requires |s| > 0
    ensures i < |s|
    ensures forall j :: 0 <= j < |s| ==> key(s[i]) <= key(s[j])
    ensures forall j :: 0 <= j < i ==> key(s[i]) < key(s[j])
  {
    if |s| == 1 then 0
    else
      var k := FirstMinIndex(s[1..], key) + 1;
      if key(s[0]) <= key(s[k]) then 0 else k
  }

  /** The head of `_.sortBy` is the first least element of the input. */
  lemma {:induction false} SortByHead<T>(s: seq<T>, key: T -> real)
    requires |s| > 0
    ensures SortBy(s, key)[0] == s[FirstMinIndex(s, key)]
  {
    if |s| > 1 {
      SortByHead(s[1..], key);
      var t := SortBy(s[1..], key);
      assert t[0] == s[1..][FirstMinIndex(s[1..], key)];
    }
  }

  /** `_.clamp(n, lower, upper)`: lodash first caps at `upper`, then raises to `lower`. */
  function Clamp(n: real, lower: real, upper: real): (r: real)
    ensures r >= lower
    ensures lower <= upper ==> r <= upper
    ensures lower <= n <= upper ==> r == n
    ensures n < lower ==> r == lower
    ensures n > upper && lower <= upper ==> r == upper
  {
    var capped := if n <= upper then n else upper;
    if capped >= lower then capped else lower
  }

  /** lodash's `toNumber` on a possibly-null number: null converts to 0. */
  function ToNumber(v: Option<real>): (r: real)
    ensures v.Some? ==> r == v.value
    ensures v.None? ==> r == 0.0
  {
    match v
    case None => 0.0
    case Some(n) => n
  }
}
