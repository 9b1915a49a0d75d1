/** The array built-ins the services rely on: `find`, `findIndex` and
    `filter`, over Dafny sequences, and what "order-preserving subsequence"
    means. */
module Sequences {
  import opened Wrappers

  /** `xs.findIndex(p)`: the position of the first element satisfying `p`. */
  function FirstIndex<T>(xs: seq<T>, p: T -> bool): (r: Option<nat>)
    ensures r.Some? ==> r.value < |xs| && p(xs[r.value])
    ensures r.Some? ==> forall j :: 0 <= j < r.value ==> !p(xs[j])
    ensures r.None? <==> forall j :: 0 <= j < |xs| ==> !p(xs[j])
  {
    if |xs| == 0 then None
    else if p(xs[0]) then Some(0)
    else match FirstIndex(xs[1..], p)
      case None => None
      case Some(k) => Some(k + 1)
  }

  /** `xs.find(p)`: the first element satisfying `p`, or `undefined`. */
  function Find<T>(xs: seq<T>, p: T -> bool): (r: Option<T>)
    ensures r.None? <==> forall j :: 0 <= j < |xs| ==> !p(xs[j])
    ensures r.Some? ==> exists i :: 0 <= i < |xs| && xs[i] == r.value && p(xs[i]) &&
                                    forall j :: 0 <= j < i ==> !p(xs[j])
  {
    match FirstIndex(xs, p)
    case None => None
    case Some(i) => Some(xs[i])
  }

  /** `xs.filter(p)`. */
  function Filter<T>(xs: seq<T>, p: T -> bool): (r: seq<T>)
    ensures |r| <= |xs|
    ensures forall i :: 0 <= i < |r| ==> r[i] in xs && p(r[i])
    ensures forall i :: 0 <= i < |xs| && p(xs[i]) ==> xs[i] in r
  {
    if |xs| == 0 then []
    else
      var kept := Filter(xs[..|xs| - 1], p);
      assert xs == xs[..|xs| - 1] + [xs[|xs| - 1]];
      if p(xs[|xs| - 1]) then kept + [xs[|xs| - 1]] else kept
  }

  /** `idx` lists, in strictly increasing order, positions of `ys` whose
      elements spell out `xs`. */
  ghost predicate IsEmbedding<T>(idx: seq<nat>, xs: seq<T>, ys: seq<T>)
  {
    && |idx| == |xs|
    && (forall i :: 0 <= i < |idx| ==> idx[i] < |ys| && ys[idx[i]] == xs[i])
    && (forall i, j :: 0 <= i < j < |idx| ==> idx[i] < idx[j])
  }

  /** `xs` is `ys` with some elements left out and the rest kept in order. */
  ghost predicate SubsequenceOf<T>(xs: seq<T>, ys: seq<T>)
  {
    exists idx :: IsEmbedding(idx, xs, ys)
  }

  /** The positions `Filter` keeps. */
  ghost function FilterIndices<T>(xs: seq<T>, p: T -> bool): seq<nat>
  {
    if |xs| == 0 then []
    else FilterIndices(xs[..|xs| - 1], p) + (if p(xs[|xs| - 1]) then [|xs| - 1] else [])
  }

  /** `Filter` keeps exactly the positions whose elements satisfy `p`, in
      their original order. */
  lemma {:induction false} FilterSelects<T>(xs: seq<T>, p: T -> bool)
    ensures IsEmbedding(FilterIndices(xs, p), Filter(xs, p), xs)
    ensures forall k :: k in FilterIndices(xs, p) ==> k < |xs|
    ensures forall i :: 0 <= i < |xs| ==> (i in FilterIndices(xs, p) <==> p(xs[i]))
  {
    if |xs| > 0 {
      var n := |xs| - 1;
      var init := xs[..n];
      FilterSelects(init, p);
      var idx0 := FilterIndices(init, p);
      var r0 := Filter(init, p);
      assert forall i :: 0 <= i < n ==> init[i] == xs[i];
      if p(xs[n]) {
        assert Filter(xs, p) == r0 + [xs[n]];
        assert FilterIndices(xs, p) == idx0 + [n];
      } else {
        assert Filter(xs, p) == r0;
        assert FilterIndices(xs, p) == idx0;
      }
    }
  }

  /** `Filter` returns an order-preserving subsequence of its input. */
  lemma FilterIsSubsequence<T>(xs: seq<T>, p: T -> bool)
    ensures SubsequenceOf(Filter(xs, p), xs)
  {
    FilterSelects(xs, p);
  }

  /** Two sequences that agree on which positions satisfy `p`, and on the
      elements at those positions, have the same first match. */
  lemma FindAgrees<T>(xs: seq<T>, ys: seq<T>, p: T -> bool)
    requires |xs| == |ys|
    requires forall j :: 0 <= j < |xs| ==> (p(xs[j]) <==> p(ys[j]))
    requires forall j :: 0 <= j < |xs| && p(xs[j]) ==> xs[j] == ys[j]
    ensures Find(xs, p) == Find(ys, p)
  {
    var a, b := FirstIndex(xs, p), FirstIndex(ys, p);
    if a.Some? && b.Some? {
      assert a.value == b.value;
    }
  }

  /** Appending an element changes the first match only when there was none. */
  lemma FindAppend<T>(xs: seq<T>, y: T, p: T -> bool)
    ensures Find(xs, p).Some? ==> Find(xs + [y], p) == Find(xs, p)
    ensures Find(xs, p).None? ==> Find(xs + [y], p) == if p(y) then Some(y) else None
  {
    var ys := xs + [y];
    var a, b := FirstIndex(xs, p), FirstIndex(ys, p);
    assert forall j :: 0 <= j < |xs| ==> ys[j] == xs[j];
    if a.Some? {
      assert p(ys[a.value]);
    } else if p(y) {
      assert p(ys[|xs|]);
    }
  }

  /** Overwriting the first match with another matching element makes
      that element the first match. */
  lemma FindAfterUpdate<T>(xs: seq<T>, k: nat, y: T, p: T -> bool)
    requires FirstIndex(xs, p) == Some(k) && p(y)
    ensures Find(xs[k := y], p) == Some(y)
  {
    var ys := xs[k := y];
    assert p(ys[k]);
    assert forall j :: 0 <= j < k ==> ys[j] == xs[j];
  }

  /** The middle part of a three-part concatenation is read back by its
      offsets. */
  lemma MiddleSlice<T>(a: seq<T>, b: seq<T>, c: seq<T>)
    ensures (a + (b + c))[|a|..|a| + |b|] == b
  {
    assert (a + (b + c))[|a|..] == b + c;
  }

  /** Concatenation regroups freely. */
  lemma ConcatAssoc<T>(a: seq<T>, b: seq<T>, c: seq<T>)
    ensures (a + b) + c == a + (b + c)
  {
  }

  /** Filtering by two predicates that agree on every element gives the
      same result. */
  lemma {:induction false} FilterCongruent<T>(xs: seq<T>, p: T -> bool, q: T -> bool)
    requires forall i :: 0 <= i < |xs| ==> p(xs[i]) == q(xs[i])
    ensures Filter(xs, p) == Filter(xs, q)
  {
    if |xs| > 0 {
      FilterCongruent(xs[..|xs| - 1], p, q);
    }
  }

  /** A predicate every element satisfies keeps the whole sequence. */
  lemma {:induction false} FilterKeepsAll<T>(xs: seq<T>, p: T -> bool)
    requires forall i :: 0 <= i < |xs| ==> p(xs[i])
    ensures Filter(xs, p) == xs
  {
    if |xs| > 0 {
      FilterKeepsAll(xs[..|xs| - 1], p);
    }
  }
}
