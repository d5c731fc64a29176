/** Stand-ins for the parts of the analysis tool's `Util` module that a node
    structure uses, whose internals are not visible: element-wise projection
    (a generator expression turned into a tuple), flattening as plain
    concatenation in order, and a search returning the first element that
    satisfies a predicate. */
module Util {
  import opened Wrappers

  /** Element-wise projection: same length, same order, duplicates kept. */
  function Project<A, B>(f: A -> B, xs: seq<A>): (r: seq<B>)
    ensures |r| == |xs|
    ensures forall i :: 0 <= i < |xs| ==> r[i] == f(xs[i])
  {
    if xs == [] then [] else [f(xs[0])] + Project(f, xs[1..])
  }

  /** Number of elements of `xs` that `f` sends to `y`. */
  function CountImage<A, B(==)>(f: A -> B, xs: seq<A>, y: B): nat
  {
    if xs == [] then 0 else (if f(xs[0]) == y then 1 else 0) + CountImage(f, xs[1..], y)
  }

  /** Projection keeps multiplicities: `y` occurs in the projection exactly as
      often as there are elements with image `y`. */
  lemma {:induction false} ProjectMultiplicity<A, B>(f: A -> B, xs: seq<A>, y: B)
    ensures multiset(Project(f, xs))[y] == CountImage(f, xs, y)
  {
    if xs != [] {
      ProjectMultiplicity(f, xs[1..], y);
      assert Project(f, xs) == [f(xs[0])] + Project(f, xs[1..]);
    }
  }

  /** Sum of the lengths of the inner sequences. */
  function SumLengths<T>(ss: seq<seq<T>>): nat
  {
    if ss == [] then 0 else |ss[0]| + SumLengths(ss[1..])
  }

  /** Concatenation of the inner sequences, outer order first, then inner order. */
  function Flatten<T>(ss: seq<seq<T>>): (r: seq<T>)
    ensures |r| == SumLengths(ss)
  {
    if ss == [] then [] else ss[0] + Flatten(ss[1..])
  }

  /** An element is in the flattening exactly when it is in one of the inner sequences. */
  lemma {:induction false} FlattenMembership<T>(ss: seq<seq<T>>, x: T)
    ensures x in Flatten(ss) <==> exists k :: 0 <= k < |ss| && x in ss[k]
  {
    if ss != [] {
      FlattenMembership(ss[1..], x);
      if x in Flatten(ss[1..]) {
        var k :| 0 <= k < |ss[1..]| && x in ss[1..][k];
        assert x in ss[k + 1];
      }
      if exists k :: 1 <= k < |ss| && x in ss[k] {
        var k :| 1 <= k < |ss| && x in ss[k];
        assert x in ss[1..][k - 1];
      }
    }
  }

  /** Flattening distributes over concatenation of the outer sequence. */
  lemma {:induction false} FlattenAppend<T>(a: seq<seq<T>>, b: seq<seq<T>>)
    ensures Flatten(a + b) == Flatten(a) + Flatten(b)
  {
    if a == [] {
      assert a + b == b;
    } else {
      assert (a + b)[0] == a[0];
      assert (a + b)[1..] == a[1..] + b;
      FlattenAppend(a[1..], b);
    }
  }

  /** Element `j` of inner sequence `k` sits at offset "lengths of the
      sequences before `k`" plus `j` in the flattening. */
  lemma {:induction false} FlattenAt<T>(ss: seq<seq<T>>, k: nat, j: nat)
    requires k < |ss| && j < |ss[k]|
    ensures SumLengths(ss[..k]) + j < |Flatten(ss)|
    ensures Flatten(ss)[SumLengths(ss[..k]) + j] == ss[k][j]
  {
    if k == 0 {
      assert ss[..0] == [];
    } else {
      FlattenAt(ss[1..], k - 1, j);
      assert ss[..k][1..] == ss[1..][..k - 1];
      assert ss[..k][0] == ss[0];
    }
  }

  /** Index of the first element satisfying `p`, or None if there is none. */
  function FindFirst<T>(p: T -> bool, xs: seq<T>): (r: Option<nat>)
    ensures r.None? <==> forall i :: 0 <= i < |xs| ==> !p(xs[i])
    ensures r.Some? ==> r.value < |xs| && p(xs[r.value])
    ensures r.Some? ==> forall j :: 0 <= j < r.value ==> !p(xs[j])
  {
    if xs == [] then None
    else if p(xs[0]) then Some(0)
    else
      match FindFirst(p, xs[1..])
      case None =>
        assert forall i :: 1 <= i < |xs| ==> xs[i] == xs[1..][i - 1];
        None
      case Some(i) =>
        assert forall j :: 1 <= j <= i ==> xs[j] == xs[1..][j - 1];
        Some(i + 1)
  }
}
