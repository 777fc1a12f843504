/** Generic facts about sequences that the list-processing code relies on. */
module Seqs {

  /** `f` applied to each element of `xs`, the results concatenated in order. */
  function FlatMap<A, B>(xs: seq<A>, f: A -> seq<B>): (r: seq<B>)
    ensures (forall x | x in xs :: |f(x)| <= 1) ==> |r| <= |xs|
    ensures (forall x | x in xs :: f(x) == []) ==> r == []
  {
    if xs == [] then [] else FlatMap(xs[..|xs| - 1], f) + f(xs[|xs| - 1])
  }

  /** The results for two runs are the results of each, in turn. */
  lemma {:induction false} FlatMapAppend<A, B>(xs: seq<A>, ys: seq<A>, f: A -> seq<B>)
    ensures FlatMap(xs + ys, f) == FlatMap(xs, f) + FlatMap(ys, f)
  {
    if ys == [] {
      assert xs + ys == xs;
    } else {
      var ys', y := ys[..|ys| - 1], ys[|ys| - 1];
      assert (xs + ys)[..|xs + ys| - 1] == xs + ys';
      assert (xs + ys)[|xs + ys| - 1] == y;
      calc {
        FlatMap(xs + ys, f);
        FlatMap(xs + ys', f) + f(y);
        { FlatMapAppend(xs, ys', f); }
        FlatMap(xs, f) + FlatMap(ys', f) + f(y);
        FlatMap(xs, f) + (FlatMap(ys', f) + f(y));
        FlatMap(xs, f) + FlatMap(ys, f);
      }
    }
  }

  /** The first element's results come first. */
  lemma FlatMapCons<A, B>(x: A, xs: seq<A>, f: A -> seq<B>)
    ensures FlatMap([x] + xs, f) == f(x) + FlatMap(xs, f)
  {
    FlatMapAppend([x], xs, f);
    assert [x][..0] == [];
  }

  /** Every result comes from some element. */
  lemma {:induction false} FlatMapMember<A, B>(xs: seq<A>, f: A -> seq<B>, y: B)
    requires y in FlatMap(xs, f)
    ensures exists x | x in xs :: y in f(x)
  {
    var init := xs[..|xs| - 1];
    if y in FlatMap(init, f) {
      FlatMapMember(init, f, y);
      var x :| x in init && y in f(x);
      assert x in xs;
    } else {
      assert xs[|xs| - 1] in xs;
    }
  }

  /** Every result of every element is among the results. */
  lemma {:induction false} FlatMapIncludes<A, B>(xs: seq<A>, f: A -> seq<B>, x: A, y: B)
    requires x in xs && y in f(x)
    ensures y in FlatMap(xs, f)
  {
    var init := xs[..|xs| - 1];
    if x != xs[|xs| - 1] {
      assert x in init;
      FlatMapIncludes(init, f, x, y);
    }
  }

  /** Concatenation regroups; stated over type parameters so that no element's definition is unfolded. */
  lemma AppendAssoc<T>(a: seq<T>, b: seq<T>, c: seq<T>)
    ensures a + b + c == a + (b + c)
  {
  }
}
