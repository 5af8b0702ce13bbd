/** Sequence helpers shared by the storefront's list derivations. */
module Collections {

  predicate Distinct<T(==)>(xs: seq<T>) {
    forall i, j :: 0 <= i < j < |xs| ==> xs[i] != xs[j]
  }

  /** `Array.from(new Set(xs))`: each value once, where it first occurs. */
  function Dedup<T(==)>(xs: seq<T>): seq<T>
    decreases |xs|
  {
    if xs == [] then []
    else
      var d := Dedup(xs[..|xs| - 1]);
      if xs[|xs| - 1] in d then d else d + [xs[|xs| - 1]]
  }

  /** The deduplicated values are the original values, each once. */
  lemma {:induction false} DedupSpec<T>(xs: seq<T>)
    ensures Distinct(Dedup(xs))
    ensures forall x :: x in Dedup(xs) <==> x in xs
    ensures |Dedup(xs)| <= |xs|
    decreases |xs|
  {
    if xs != [] {
      var init := xs[..|xs| - 1];
      DedupSpec(init);
      assert xs == init + [xs[|xs| - 1]];
    }
  }

  /** `xs.filter(keep)`: the elements `keep` accepts, in their order. */
  function Filter<T>(xs: seq<T>, keep: T -> bool): (r: seq<T>)
    ensures |r| <= |xs|
    decreases |xs|
  {
    if xs == [] then []
    else if keep(xs[0]) then [xs[0]] + Filter(xs[1..], keep)
    else Filter(xs[1..], keep)
  }

  /** A filter keeps exactly the elements it accepts. */
  lemma {:induction false} FilterMembers<T>(xs: seq<T>, keep: T -> bool)
    ensures forall x :: x in Filter(xs, keep) <==> x in xs && keep(x)
    decreases |xs|
  {
    if xs != [] {
      FilterMembers(xs[1..], keep);
      assert xs == [xs[0]] + xs[1..];
    }
  }

  /** A filter that accepts every element returns the list itself. */
  lemma {:induction false} FilterKeepsAll<T>(xs: seq<T>, keep: T -> bool)
    requires forall k :: 0 <= k < |xs| ==> keep(xs[k])
    ensures Filter(xs, keep) == xs
    decreases |xs|
  {
    if xs != [] {
      FilterKeepsAll(xs[1..], keep);
      assert xs == [xs[0]] + xs[1..];
    }
  }

  /** Filtering distributes over concatenation, so the kept elements keep their order. */
  lemma {:induction false} FilterAppend<T>(a: seq<T>, b: seq<T>, keep: T -> bool)
    ensures Filter(a + b, keep) == Filter(a, keep) + Filter(b, keep)
    decreases |a|
  {
    if a == [] {
      assert a + b == b;
    } else {
      assert (a + b)[0] == a[0] && (a + b)[1..] == a[1..] + b;
      FilterAppend(a[1..], b, keep);
    }
  }

  /** A filter that rejects only the element at `i` removes exactly that element. */
  lemma {:induction false} FilterDropsOne<T>(xs: seq<T>, i: int, keep: T -> bool)
    requires 0 <= i < |xs| && !keep(xs[i])
    requires forall k :: 0 <= k < |xs| && k != i ==> keep(xs[k])
    ensures Filter(xs, keep) == xs[..i] + xs[i + 1..]
    decreases i
  {
    var tail := xs[1..];
    forall k | 0 <= k < |tail| && k + 1 != i ensures keep(tail[k]) {
      assert tail[k] == xs[k + 1];
    }
    if i == 0 {
      FilterKeepsAll(tail, keep);
      assert xs[..0] + xs[1..] == tail;
    } else {
      FilterDropsOne(tail, i - 1, keep);
      assert xs[..i] == [xs[0]] + tail[..i - 1];
      assert xs[i + 1..] == tail[i..];
    }
  }
}
