/** Element-wise operations on sequences: Swift's `map` and `compactMap`. */
module Seqs {
  import opened Wrappers

  /** `s.map(f)`: one output per input, in the same order. */
  function Map<A, B>(f: A -> B, s: seq<A>): (r: seq<B>)
    ensures |r| == |s|
    ensures forall i :: 0 <= i < |s| ==> r[i] == f(s[i])
  {
    if s == [] then [] else [f(s[0])] + Map(f, s[1..])
  }

  /** `s.compactMap(f)`: the inputs that `f` maps to a value, mapped, in order; the others are dropped. */
  function FilterMap<A, B>(f: A -> Option<B>, s: seq<A>): (r: seq<B>)
    ensures |r| <= |s|
    ensures forall k :: 0 <= k < |r| ==> exists i :: 0 <= i < |s| && f(s[i]) == Some(r[k])
    ensures forall i :: 0 <= i < |s| && f(s[i]).Some? ==> f(s[i]).value in r
    ensures (forall i :: 0 <= i < |s| ==> f(s[i]).Some?) ==> |r| == |s|
  {
    if s == [] then []
    else
      var rest := FilterMap(f, s[1..]);
      assert forall i :: 1 <= i < |s| ==> s[i] == s[1..][i - 1];
      match f(s[0])
      case Some(y) => [y] + rest
      case None => rest
  }

  /** `compactMap` of one element: its value when `f` recognises it, nothing otherwise. */
  lemma FilterMapOne<A, B>(f: A -> Option<B>, x: A)
    ensures FilterMap(f, [x]) == if f(x).Some? then [f(x).value] else []
  {
    assert [x][1..] == [];
  }

  /**
   * `compactMap` works piece by piece: the outputs of `a + b` are those of `a` followed by
   * those of `b`. With `FilterMapOne` this fixes the output's order and its repeats.
   */
  lemma {:induction false} FilterMapAppend<A, B>(f: A -> Option<B>, a: seq<A>, b: seq<A>)
    ensures FilterMap(f, a + b) == FilterMap(f, a) + FilterMap(f, b)
    decreases |a|
  {
    if a == [] {
      assert a + b == b;
    } else {
      assert (a + b)[0] == a[0];
      assert (a + b)[1..] == a[1..] + b;
      FilterMapAppend(f, a[1..], b);
      match f(a[0]) {
        case Some(y) =>
          assert [y] + (FilterMap(f, a[1..]) + FilterMap(f, b)) == ([y] + FilterMap(f, a[1..])) + FilterMap(f, b);
        case None =>
      }
    }
  }

  /** Mapping with `f` and then with a left inverse `g` of `f` gives back the original sequence. */
  lemma {:induction false} MapLeftInverse<A, B>(f: A -> B, g: B -> A, s: seq<A>)
    requires forall x :: g(f(x)) == x
    ensures Map(g, Map(f, s)) == s
  {
    if s != [] {
      MapLeftInverse(f, g, s[1..]);
    }
  }
}
