/** `Array.prototype.filter` and the pet-feed match rules shared by the home feed and the interest page. */
module Filters {
  import opened Text

  /** Keeps, in their original order, the elements `keep` accepts. */
  function Filter<T>(xs: seq<T>, keep: T -> bool): (r: seq<T>)
    ensures |r| <= |xs|
    ensures forall i :: 0 <= i < |r| ==> r[i] in xs && keep(r[i])
    ensures forall i :: 0 <= i < |xs| && keep(xs[i]) ==> xs[i] in r
    decreases |xs|
  {
    if xs == [] then []
    else (if keep(xs[0]) then [xs[0]] else []) + Filter(xs[1..], keep)
  }

  /** One step of `Filter` on multisets: the head is kept or dropped, the tail is filtered. */
  lemma FilterConsMultiset<T>(xs: seq<T>, keep: T -> bool)
    requires xs != []
    ensures multiset(xs) == multiset([xs[0]]) + multiset(xs[1..])
    ensures multiset(Filter(xs, keep))
      == multiset(if keep(xs[0]) then [xs[0]] else []) + multiset(Filter(xs[1..], keep))
  {
    assert xs == [xs[0]] + xs[1..];
    var head := if keep(xs[0]) then [xs[0]] else [];
    assert Filter(xs, keep) == head + Filter(xs[1..], keep);
  }

  /** Each accepted value is kept as often as it occurs and every other value is dropped. */
  lemma {:induction false} FilterCounts<T>(xs: seq<T>, keep: T -> bool)
    ensures forall x :: multiset(Filter(xs, keep))[x] == if keep(x) then multiset(xs)[x] else 0
    ensures multiset(Filter(xs, keep)) <= multiset(xs)
    decreases |xs|
  {
    if xs != [] {
      FilterCounts(xs[1..], keep);
      FilterConsMultiset(xs, keep);
      var head := if keep(xs[0]) then [xs[0]] else [];
      forall x ensures multiset(head)[x] == if keep(x) then multiset([xs[0]])[x] else 0 {
      }
    }
  }

  /** `r` is an order-preserving subsequence of `xs`: `r` is `xs` with some elements struck out. */
  predicate Subsequence<T(==)>(r: seq<T>, xs: seq<T>)
    decreases |xs|
  {
    if r == [] then true
    else if xs == [] then false
    else Subsequence(r, xs[1..]) || (r[0] == xs[0] && Subsequence(r[1..], xs[1..]))
  }

  /** The filtered list is an order-preserving subsequence of the input. */
  lemma {:induction false} FilterIsSubsequence<T>(xs: seq<T>, keep: T -> bool)
    ensures Subsequence(Filter(xs, keep), xs)
    decreases |xs|
  {
    if xs != [] {
      var rest := Filter(xs[1..], keep);
      FilterIsSubsequence(xs[1..], keep);
      if keep(xs[0]) {
        var r := [xs[0]] + rest;
        assert r[0] == xs[0] && r[1..] == rest;
      } else {
        assert Filter(xs, keep) == rest;
        assert Subsequence(rest, xs);
      }
    }
  }

  /** A filter that accepts every element returns the list unchanged. */
  lemma {:induction false} FilterKeepsAll<T>(xs: seq<T>, keep: T -> bool)
    requires forall i :: 0 <= i < |xs| ==> keep(xs[i])
    ensures Filter(xs, keep) == xs
    decreases |xs|
  {
    if xs != [] {
      FilterKeepsAll(xs[1..], keep);
    }
  }

  /** Filtering by `p` and then by `q` is filtering once by their conjunction. */
  lemma {:induction false} FilterFilter<T>(xs: seq<T>, p: T -> bool, q: T -> bool, both: T -> bool)
    requires forall x :: both(x) == (p(x) && q(x))
    ensures Filter(Filter(xs, p), q) == Filter(xs, both)
    decreases |xs|
  {
    if xs != [] {
      var x, rest := xs[0], xs[1..];
      FilterFilter(rest, p, q, both);
      if p(x) {
        var ys := [x] + Filter(rest, p);
        assert Filter(xs, p) == ys;
        assert ys[1..] == Filter(rest, p);
        if q(x) {
          assert Filter(ys, q) == [x] + Filter(Filter(rest, p), q);
          assert Filter(xs, both) == [x] + Filter(rest, both);
        } else {
          assert Filter(ys, q) == Filter(Filter(rest, p), q);
          assert Filter(xs, both) == Filter(rest, both);
        }
      } else {
        assert Filter(xs, p) == Filter(rest, p);
        assert Filter(xs, both) == Filter(rest, both);
      }
    }
  }

  /** `Array.prototype.map`. */
  function MapSeq<T, U>(xs: seq<T>, f: T -> U): (r: seq<U>)
    ensures |r| == |xs|
    ensures forall i :: 0 <= i < |xs| ==> r[i] == f(xs[i])
    decreases |xs|
  {
    if xs == [] then [] else [f(xs[0])] + MapSeq(xs[1..], f)
  }

  /** Mapping with `f` and then filtering is filtering and then mapping, when `f` never changes what `keep` decides. */
  lemma {:induction false} FilterMapCommute<T>(xs: seq<T>, f: T -> T, keep: T -> bool)
    requires forall x :: keep(f(x)) == keep(x)
    ensures Filter(MapSeq(xs, f), keep) == MapSeq(Filter(xs, keep), f)
    decreases |xs|
  {
    if xs != [] {
      var rest := xs[1..];
      var m := MapSeq(xs, f);
      assert m[0] == f(xs[0]) && m[1..] == MapSeq(rest, f);
      FilterMapCommute(rest, f, keep);
      if keep(xs[0]) {
        var k := [xs[0]] + Filter(rest, keep);
        assert k[0] == xs[0] && k[1..] == Filter(rest, keep);
        assert Filter(m, keep) == [f(xs[0])] + Filter(MapSeq(rest, f), keep);
      } else {
        assert Filter(m, keep) == Filter(MapSeq(rest, f), keep);
      }
    }
  }

  /** The category select: "all", or an exact match. */
  predicate CategoryMatches(categoryFilter: string, category: string) {
    categoryFilter == "all" || category == categoryFilter
  }

  /** The location input: empty, or a substring of the location after both are lower-cased. */
  predicate LocationMatches(locationFilter: string, location: string) {
    locationFilter == "" || Contains(Lower(location), Lower(locationFilter))
  }

  /** The default filters accept everything. */
  lemma DefaultFiltersMatch(category: string, location: string)
    ensures CategoryMatches("all", category) && LocationMatches("", location)
  {
  }

  /** The location rule ignores ASCII letter case on either side. */
  lemma LocationMatchIgnoresCase(locationFilter: string, location: string)
    ensures LocationMatches(locationFilter, location) == LocationMatches(Lower(locationFilter), Lower(location))
  {
    LowerIdempotent(locationFilter);
    LowerIdempotent(location);
    assert |Lower(locationFilter)| == |locationFilter|;
  }
}
