/** Order-preserving selection from a sequence, the behaviour of
    JavaScript's `Array.prototype.filter`, with a specification that
    determines its result. */
module Sequences {

  /** `r` can be obtained from `s` by deleting elements, keeping order. */
  ghost predicate IsSubsequence<T(!new)>(r: seq<T>, s: seq<T>)
    decreases |s|
  {
    if |r| == 0 then true
    else if |s| == 0 then false
    else (r[0] == s[0] && IsSubsequence(r[1..], s[1..])) || IsSubsequence(r, s[1..])
  }

  /** `r` keeps, in order, every occurrence in `s` of an element satisfying
      `p` and nothing else. */
  ghost predicate Selects<T(!new)>(r: seq<T>, s: seq<T>, p: T -> bool) {
    && IsSubsequence(r, s)
    && forall x :: multiset(r)[x] == if p(x) then multiset(s)[x] else 0
  }

  /** The elements of `s` that satisfy `p`, in their order in `s`. */
  function Filter<T(!new)>(s: seq<T>, p: T -> bool): (r: seq<T>)
    ensures |r| <= |s|
    decreases |s|
  {
    if |s| == 0 then []
    else if p(s[0]) then [s[0]] + Filter(s[1..], p)
    else Filter(s[1..], p)
  }

  /** `Filter` meets the specification `Selects`. */
  lemma {:induction false} FilterSelects<T(!new)>(s: seq<T>, p: T -> bool)
    ensures Selects(Filter(s, p), s, p)
    ensures forall x :: x in Filter(s, p) <==> x in s && p(x)
    decreases |s|
  {
    if |s| != 0 {
      FilterSelects(s[1..], p);
      assert s == [s[0]] + s[1..];
      if p(s[0]) {
        var r := Filter(s, p);
        assert r[0] == s[0] && r[1..] == Filter(s[1..], p);
      }
    }
  }

  /** Filtering distributes over appending one element at the end. */
  lemma {:induction false} FilterAppend<T(!new)>(s: seq<T>, x: T, p: T -> bool)
    ensures Filter(s + [x], p) == Filter(s, p) + (if p(x) then [x] else [])
    decreases |s|
  {
    if |s| == 0 {
      assert s + [x] == [x];
    } else {
      assert (s + [x])[0] == s[0];
      assert (s + [x])[1..] == s[1..] + [x];
      FilterAppend(s[1..], x, p);
    }
  }

  /** A subsequence never holds more copies of a value than its source. */
  lemma {:induction false} SubsequenceCount<T(!new)>(r: seq<T>, s: seq<T>, x: T)
    requires IsSubsequence(r, s)
    ensures multiset(r)[x] <= multiset(s)[x]
    decreases |s|
  {
    if |r| == 0 {
    } else {
      assert s == [s[0]] + s[1..];
      if r[0] == s[0] && IsSubsequence(r[1..], s[1..]) {
        assert r == [r[0]] + r[1..];
        SubsequenceCount(r[1..], s[1..], x);
      } else {
        SubsequenceCount(r, s[1..], x);
      }
    }
  }

  /** `Selects` pins the result down: the only sequence that selects the
      `p`-elements of `s` is `Filter(s, p)`. */
  lemma {:induction false} FilterUnique<T(!new)>(r: seq<T>, s: seq<T>, p: T -> bool)
    requires Selects(r, s, p)
    ensures r == Filter(s, p)
    decreases |s|
  {
    assert |r| > 0 ==> multiset(r)[r[0]] > 0;
    if |s| == 0 {
    } else {
      var h := s[0];
      assert s == [h] + s[1..];
      assert multiset(s)[h] > 0;
      if |r| == 0 {
        assert forall x :: multiset(s[1..])[x] <= multiset(s)[x];
        assert Selects(r, s[1..], p);
        FilterUnique(r, s[1..], p);
      } else if r[0] == h && IsSubsequence(r[1..], s[1..]) {
        assert r == [h] + r[1..];
        assert forall x :: multiset(r[1..])[x] == if p(x) then multiset(s[1..])[x] else 0;
        FilterUnique(r[1..], s[1..], p);
      } else {
        assert IsSubsequence(r, s[1..]);
        if p(h) {
          SubsequenceCount(r, s[1..], h);
          assert false;
        }
        assert forall x :: multiset(r)[x] == if p(x) then multiset(s[1..])[x] else 0;
        FilterUnique(r, s[1..], p);
      }
    }
  }
}
