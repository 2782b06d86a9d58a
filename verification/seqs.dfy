/** Generic sequence operations: concatenating the sequences a generator
    yields for each element, and keeping the elements that satisfy a test. */
module Seqs {

  function ConcatMap<A, B>(xs: seq<A>, g: A -> seq<B>): (ys: seq<B>)
  {
    if xs == [] then [] else ConcatMap(xs[..|xs| - 1], g) + g(xs[|xs| - 1])
  }

  lemma ConcatMapStep<A, B>(xs: seq<A>, i: nat, g: A -> seq<B>)
    requires i < |xs|
    ensures ConcatMap(xs[..i + 1], g) == ConcatMap(xs[..i], g) + g(xs[i])
  {
    assert xs[..i + 1][..i] == xs[..i];
  }

  /** An element is in the concatenation exactly when some generated piece holds it. */
  lemma {:induction false} ConcatMapMembers<A, B>(xs: seq<A>, g: A -> seq<B>, y: B)
    ensures y in ConcatMap(xs, g) <==> exists k :: 0 <= k < |xs| && y in g(xs[k])
  {
    if xs != [] {
      var init := xs[..|xs| - 1];
      ConcatMapMembers(init, g, y);
      if y in ConcatMap(xs, g) && y in ConcatMap(init, g) {
        var k :| 0 <= k < |init| && y in g(init[k]);
        assert xs[k] == init[k];
      }
      if exists k :: 0 <= k < |xs| && y in g(xs[k]) {
        var k :| 0 <= k < |xs| && y in g(xs[k]);
        if k < |init| {
          assert init[k] == xs[k];
        }
      }
    }
  }

  predicate AnySatisfies<B>(ys: seq<B>, p: B -> bool)
  {
    exists j :: 0 <= j < |ys| && p(ys[j])
  }

  /** Some element of the concatenation satisfies `p` exactly when some
      element of `xs` satisfies `q`, given that `q` says whether the piece
      generated for an element holds such an element. */
  lemma {:induction false} ConcatMapAny<A, B>(xs: seq<A>, g: A -> seq<B>, p: B -> bool, q: A -> bool)
    requires forall x :: AnySatisfies(g(x), p) <==> q(x)
    ensures AnySatisfies(ConcatMap(xs, g), p) <==> exists k :: 0 <= k < |xs| && q(xs[k])
  {
    if xs != [] {
      var init := xs[..|xs| - 1];
      var last := xs[|xs| - 1];
      var a, b := ConcatMap(init, g), g(last);
      ConcatMapAny(init, g, p, q);
      if AnySatisfies(a + b, p) {
        var j :| 0 <= j < |a + b| && p((a + b)[j]);
        if j < |a| {
          assert p(a[j]);
        } else {
          assert p(b[j - |a|]);
        }
      }
      if AnySatisfies(a, p) {
        var j :| 0 <= j < |a| && p(a[j]);
        assert (a + b)[j] == a[j];
      }
      if AnySatisfies(b, p) {
        var j :| 0 <= j < |b| && p(b[j]);
        assert (a + b)[|a| + j] == b[j];
      }
      if exists k :: 0 <= k < |xs| && q(xs[k]) {
        var k :| 0 <= k < |xs| && q(xs[k]);
        if k < |init| {
          assert init[k] == xs[k];
        }
      }
      if exists k :: 0 <= k < |init| && q(init[k]) {
        var k :| 0 <= k < |init| && q(init[k]);
        assert init[k] == xs[k];
      }
    }
  }

  /** The elements of `xs` that satisfy `keep`, in order. */
  function Filter<A>(xs: seq<A>, keep: A -> bool): (r: seq<A>)
    ensures |r| <= |xs|
    ensures forall i :: 0 <= i < |r| ==> keep(r[i])
  {
    if xs == [] then []
    else
      var last := xs[|xs| - 1];
      Filter(xs[..|xs| - 1], keep) + (if keep(last) then [last] else [])
  }

  /** The positions of the elements of `xs` that satisfy `keep`: strictly
      increasing, and holding every such position. */
  function Kept<A>(xs: seq<A>, keep: A -> bool): (p: seq<nat>)
    ensures forall i :: 0 <= i < |p| ==> p[i] < |xs| && keep(xs[p[i]])
    ensures forall i, j :: 0 <= i < j < |p| ==> p[i] < p[j]
    ensures forall k :: 0 <= k < |xs| && keep(xs[k]) ==> k in p
  {
    if xs == [] then []
    else
      var n := |xs| - 1;
      var q := Kept(xs[..n], keep);
      assert forall i :: 0 <= i < |q| ==> xs[..n][q[i]] == xs[q[i]];
      assert forall k :: 0 <= k < n ==> xs[..n][k] == xs[k];
      q + (if keep(xs[n]) then [n] else [])
  }

  /** `Filter` keeps exactly the elements at the kept positions, in order. */
  lemma {:induction false} FilterAtKept<A>(xs: seq<A>, keep: A -> bool)
    ensures var p := Kept(xs, keep);
            |Filter(xs, keep)| == |p| && forall i :: 0 <= i < |p| ==> Filter(xs, keep)[i] == xs[p[i]]
  {
    if xs != [] {
      var n := |xs| - 1;
      FilterAtKept(xs[..n], keep);
      var f := Filter(xs[..n], keep);
      var q := Kept(xs[..n], keep);
      var tail := if keep(xs[n]) then [xs[n]] else [];
      assert Filter(xs, keep) == f + tail;
      assert Kept(xs, keep) == q + (if keep(xs[n]) then [n] else []);
      forall i | 0 <= i < |q|
        ensures Filter(xs, keep)[i] == xs[Kept(xs, keep)[i]]
      {
        assert (f + tail)[i] == f[i];
        assert xs[..n][q[i]] == xs[q[i]];
      }
    }
  }

  /** Every element that passes occurs as often as in `xs`, every other one not at all. */
  lemma {:induction false} FilterCount<A>(xs: seq<A>, keep: A -> bool, x: A)
    ensures multiset(Filter(xs, keep))[x] == if keep(x) then multiset(xs)[x] else 0
  {
    if xs != [] {
      var n := |xs| - 1;
      FilterCount(xs[..n], keep, x);
      assert xs == xs[..n] + [xs[n]];
      assert multiset(xs) == multiset(xs[..n]) + multiset([xs[n]]);
    }
  }

  lemma {:induction false} FilterPrepend<A>(x: A, xs: seq<A>, keep: A -> bool)
    ensures Filter([x] + xs, keep) == (if keep(x) then [x] else []) + Filter(xs, keep)
  {
    if xs != [] {
      var n := |xs| - 1;
      FilterPrepend(x, xs[..n], keep);
      assert ([x] + xs)[..|xs|] == [x] + xs[..n];
    }
  }

  /** Dropping elements whose generated piece is empty does not change the concatenation. */
  lemma {:induction false} ConcatMapFilter<A, B>(xs: seq<A>, g: A -> seq<B>, keep: A -> bool)
    requires forall x :: !keep(x) ==> g(x) == []
    ensures ConcatMap(xs, g) == ConcatMap(Filter(xs, keep), g)
  {
    if xs != [] {
      var last := xs[|xs| - 1];
      ConcatMapFilter(xs[..|xs| - 1], g, keep);
      var f := Filter(xs[..|xs| - 1], keep);
      assert Filter(xs, keep) == f + (if keep(last) then [last] else []);
      if keep(last) {
        assert (f + [last])[..|f|] == f;
        assert ConcatMap(f + [last], g) == ConcatMap(f, g) + g(last);
      } else {
        var c := ConcatMap(xs[..|xs| - 1], g);
        assert ConcatMap(xs, g) == c + g(last) && g(last) == [];
        assert c + [] == c && f + [] == f;
      }
    }
  }

  /** An element absent from the surrounding stretches occurs in the whole
      as often as in the middle one. */
  lemma MultisetMiddle<T>(pre: seq<T>, mid: seq<T>, post: seq<T>, x: T)
    requires x !in pre && x !in post
    ensures multiset(pre + mid + post)[x] == multiset(mid)[x]
  {
    assert multiset(pre + mid + post) == multiset(pre) + multiset(mid) + multiset(post);
  }

  /** When no element of a kind lies in the surrounding stretches, every
      element of that kind in the whole lies in the middle one, at its
      position there. */
  lemma KindInMiddle<T>(pre: seq<T>, mid: seq<T>, post: seq<T>, kind: T -> bool)
    requires forall x :: x in pre ==> !kind(x)
    requires forall x :: x in post ==> !kind(x)
    ensures forall x :: kind(x) ==> (x in pre + mid + post <==> x in mid)
    ensures forall k :: 0 <= k < |pre + mid + post| && kind((pre + mid + post)[k]) ==>
              |pre| <= k < |pre| + |mid| && (pre + mid + post)[k] in mid
  {
    var w := pre + mid + post;
    assert forall k :: 0 <= k < |pre| ==> w[k] == pre[k];
    assert forall k :: |pre| + |mid| <= k < |w| ==> w[k] == post[k - |pre| - |mid|];
  }

  /** An element occurs in a concatenation as often as in its two parts together. */
  lemma CountSplit<A>(a: seq<A>, b: seq<A>, x: A)
    ensures multiset(a + b)[x] == multiset(a)[x] + multiset(b)[x]
  {
    assert multiset(a + b) == multiset(a) + multiset(b);
  }
}
