/** Swift collection helpers used by the core: `firstIndex(where:)`, `first(where:)`, `remove(at:)`, `filter`. */
module Seqs {
  import opened Wrappers

  /** `xs.firstIndex(where: p)`: the least index whose element satisfies `p`. */
  function FirstIndex<T>(xs: seq<T>, p: T -> bool): (r: Option<nat>)
    ensures r.Some? ==> r.value < |xs| && p(xs[r.value])
    ensures r.Some? ==> forall j :: 0 <= j < r.value ==> !p(xs[j])
    ensures r.None? <==> forall j :: 0 <= j < |xs| ==> !p(xs[j])
  {
    if xs == [] then None
    else if p(xs[0]) then Some(0)
    else match FirstIndex(xs[1..], p)
      case None => None
      case Some(k) => Some(k + 1)
  }

  /** `xs.first(where: p)`. */
  function FirstWhere<T>(xs: seq<T>, p: T -> bool): (r: Option<T>)
    ensures r.Some? ==> r.value in xs && p(r.value)
    ensures r.Some? ==> exists k :: 0 <= k < |xs| && xs[k] == r.value && forall j :: 0 <= j < k ==> !p(xs[j])
    ensures r.None? <==> forall j :: 0 <= j < |xs| ==> !p(xs[j])
  {
    match FirstIndex(xs, p)
    case None => None
    case Some(k) => Some(xs[k])
  }

  /** `xs.remove(at: i)`: drops position `i` and shifts the tail left. */
  function RemoveAt<T>(xs: seq<T>, i: nat): (r: seq<T>)
    requires i < |xs|
    ensures |r| == |xs| - 1
    ensures forall j :: 0 <= j < i ==> r[j] == xs[j]
    ensures forall j :: i <= j < |r| ==> r[j] == xs[j + 1]
    ensures multiset(r) + multiset{xs[i]} == multiset(xs)
  {
    assert xs == xs[..i] + [xs[i]] + xs[i + 1..];
    xs[..i] + xs[i + 1..]
  }

  /** `if let i = xs.firstIndex(where: p) { xs.remove(at: i) }`. */
  function RemoveFirst<T>(xs: seq<T>, p: T -> bool): seq<T>
  {
    match FirstIndex(xs, p)
    case None => xs
    case Some(i) => RemoveAt(xs, i)
  }

  /** With no element satisfying `p`, nothing is removed. */
  lemma RemoveFirstNone<T>(xs: seq<T>, p: T -> bool)
    requires forall j :: 0 <= j < |xs| ==> !p(xs[j])
    ensures RemoveFirst(xs, p) == xs
  {
  }

  /** When `i` is the first position satisfying `p`, exactly position `i` is removed. */
  lemma RemoveFirstAt<T>(xs: seq<T>, p: T -> bool, i: nat)
    requires i < |xs| && p(xs[i])
    requires forall j :: 0 <= j < i ==> !p(xs[j])
    ensures RemoveFirst(xs, p) == RemoveAt(xs, i) == xs[..i] + xs[i + 1..]
  {
    var k := FirstIndex(xs, p);
    assert k.Some?;
    assert k.value <= i;
    assert p(xs[k.value]);
  }

  /** `xs.filter(p)`, written as the left-to-right pass Swift performs. */
  function Filter<T>(xs: seq<T>, p: T -> bool): (r: seq<T>)
    ensures |r| <= |xs|
    ensures forall x :: x in r ==> x in xs && p(x)
  {
    if xs == [] then []
    else Filter(xs[..|xs| - 1], p) + (if p(xs[|xs| - 1]) then [xs[|xs| - 1]] else [])
  }

  /** Filtering keeps exactly the elements that satisfy the predicate. */
  lemma {:induction false} FilterKeeps<T>(xs: seq<T>, p: T -> bool, x: T)
    ensures x in Filter(xs, p) <==> x in xs && p(x)
  {
    if xs != [] {
      var init := xs[..|xs| - 1];
      FilterKeeps(init, p, x);
      assert xs == init + [xs[|xs| - 1]];
    }
  }

  /** Filtering distributes over concatenation, so it keeps the original order. */
  lemma {:induction false} FilterAppend<T>(xs: seq<T>, ys: seq<T>, p: T -> bool)
    ensures Filter(xs + ys, p) == Filter(xs, p) + Filter(ys, p)
    decreases |ys|
  {
    if ys == [] {
      assert xs + ys == xs;
    } else {
      var init := ys[..|ys| - 1];
      var last := ys[|ys| - 1];
      assert xs + ys == (xs + init) + [last];
      assert (xs + ys)[..|xs + ys| - 1] == xs + init;
      FilterAppend(xs, init, p);
    }
  }

  /** `xs.reduce(0) { $0 + amountOf($1) }`, added up from the left. */
  function Sum<T>(xs: seq<T>, amountOf: T -> real): real
  {
    if xs == [] then 0.0 else Sum(xs[..|xs| - 1], amountOf) + amountOf(xs[|xs| - 1])
  }

  lemma {:induction false} SumAppend<T>(xs: seq<T>, ys: seq<T>, amountOf: T -> real)
    ensures Sum(xs + ys, amountOf) == Sum(xs, amountOf) + Sum(ys, amountOf)
    decreases |ys|
  {
    if ys == [] {
      assert xs + ys == xs;
    } else {
      var init := ys[..|ys| - 1];
      assert (xs + ys)[..|xs + ys| - 1] == xs + init;
      SumAppend(xs, init, amountOf);
    }
  }

  /** Removing one element takes its amount off the sum. */
  lemma SumRemoveAt<T>(xs: seq<T>, i: nat, amountOf: T -> real)
    requires i < |xs|
    ensures Sum(RemoveAt(xs, i), amountOf) == Sum(xs, amountOf) - amountOf(xs[i])
  {
    var before, x, after := xs[..i], xs[i], xs[i + 1..];
    SplitAt(xs, i);
    SumAppend(before + [x], after, amountOf);
    SumSnoc(before, x, amountOf);
    SumAppend(before, after, amountOf);
  }

  lemma SplitAt<T>(xs: seq<T>, i: nat)
    requires i < |xs|
    ensures xs == (xs[..i] + [xs[i]]) + xs[i + 1..]
    ensures RemoveAt(xs, i) == xs[..i] + xs[i + 1..]
  {
    assert xs[..i + 1] == xs[..i] + [xs[i]];
    assert xs == xs[..i + 1] + xs[i + 1..];
  }

  lemma SumSnoc<T>(xs: seq<T>, x: T, amountOf: T -> real)
    ensures Sum(xs + [x], amountOf) == Sum(xs, amountOf) + amountOf(x)
  {
    assert (xs + [x])[..|xs|] == xs;
  }
}
