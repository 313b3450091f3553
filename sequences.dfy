/** Facts about sequences used by the poll queue and the client registry. */
module Sequences {

  /** No element occurs twice. */
  ghost predicate NoDup<T>(s: seq<T>) {
    forall i, j :: 0 <= i < j < |s| ==> s[i] != s[j]
  }

  /** The elements of `xs`, in order, that do not occur in `q`. */
  function Without<T(==, !new)>(xs: seq<T>, q: seq<T>): (r: seq<T>)
    ensures forall x :: x in r <==> x in xs && x !in q
    ensures NoDup(xs) ==> NoDup(r)
    ensures |r| <= |xs|
  {
    if xs == [] then []
    else
      var init, x := xs[..|xs| - 1], xs[|xs| - 1];
      assert xs == init + [x];
      Without(init, q) + (if x in q then [] else [x])
  }

  lemma TakeOneMore<T>(s: seq<T>, i: nat)
    requires i < |s|
    ensures s[..i + 1] == s[..i] + [s[i]]
  {
  }

  /** Without works element by element from the front. */
  lemma WithoutSnoc<T(!new)>(xs: seq<T>, x: T, q: seq<T>)
    ensures Without(xs + [x], q) == Without(xs, q) + (if x in q then [] else [x])
  {
    assert (xs + [x])[..|xs|] == xs;
  }

  lemma NoDupConcat<T>(a: seq<T>, b: seq<T>)
    requires NoDup(a) && NoDup(b)
    requires forall x :: x in a ==> x !in b
    ensures NoDup(a + b)
  {
    forall i, j | 0 <= i < j < |a + b|
      ensures (a + b)[i] != (a + b)[j]
    {
      if j >= |a| && i < |a| {
        assert (a + b)[i] in a && (a + b)[j] in b;
      }
    }
  }

  /** Without nothing to exclude, a duplicate-free sequence comes back whole. */
  lemma {:induction false} WithoutNothing<T(!new)>(xs: seq<T>)
    requires NoDup(xs)
    ensures Without(xs, []) == xs
  {
    if xs != [] {
      var init := xs[..|xs| - 1];
      assert NoDup(init);
      WithoutNothing(init);
      assert xs == init + [xs[|xs| - 1]];
    }
  }
}
