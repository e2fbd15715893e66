/** Kotlin's `flatMap`, `mapNotNull` and `filter` on lists, with the facts the core needs about them. */
module Collections {
  import opened Wrappers

  function FlatMap<A, B>(xs: seq<A>, f: A -> seq<B>): seq<B> {
    if xs == [] then [] else f(xs[0]) + FlatMap(xs[1..], f)
  }

  /** Flattening distributes over concatenation: the results of `xs` come before those of `ys`. */
  lemma {:induction false} FlatMapAppend<A, B>(xs: seq<A>, ys: seq<A>, f: A -> seq<B>)
    ensures FlatMap(xs + ys, f) == FlatMap(xs, f) + FlatMap(ys, f)
  {
    if xs == [] {
      assert xs + ys == ys;
    } else {
      assert (xs + ys)[1..] == xs[1..] + ys;
      FlatMapAppend(xs[1..], ys, f);
    }
  }

  /** The results of `xs[i]` sit between those of the elements before it and those after it. */
  lemma {:induction false} FlatMapAt<A, B>(xs: seq<A>, f: A -> seq<B>, i: nat)
    requires i < |xs|
    ensures FlatMap(xs, f) == FlatMap(xs[..i], f) + f(xs[i]) + FlatMap(xs[i + 1..], f)
  {
    var before, here, after := xs[..i], [xs[i]], xs[i + 1..];
    assert xs == before + here + after;
    FlatMapAppend(before + here, after, f);
    FlatMapAppend(before, here, f);
    assert here[1..] == [];
    assert FlatMap(here, f) == f(xs[i]) + FlatMap(here[1..], f);
  }

  /** An element is in the flattened list exactly when it is in the list of some input. */
  lemma {:induction false} FlatMapMember<A, B>(xs: seq<A>, f: A -> seq<B>, y: B)
    ensures y in FlatMap(xs, f) <==> exists i :: 0 <= i < |xs| && y in f(xs[i])
  {
    if xs != [] {
      FlatMapMember(xs[1..], f, y);
      if y in FlatMap(xs[1..], f) {
        var i :| 0 <= i < |xs[1..]| && y in f(xs[1..][i]);
        assert y in f(xs[i + 1]);
      }
      if exists i :: 0 <= i < |xs| && y in f(xs[i]) {
        var i :| 0 <= i < |xs| && y in f(xs[i]);
        if i > 0 {
          assert y in f(xs[1..][i - 1]);
        }
      }
    }
  }

  function MapNotNull<A, B>(xs: seq<A>, f: A -> Option<B>): (r: seq<B>)
    ensures |r| <= |xs|
  {
    if xs == [] then []
    else match f(xs[0])
      case None => MapNotNull(xs[1..], f)
      case Some(y) => [y] + MapNotNull(xs[1..], f)
  }

  /** `mapNotNull` keeps exactly the non-null images. */
  lemma {:induction false} MapNotNullMember<A, B>(xs: seq<A>, f: A -> Option<B>, y: B)
    ensures y in MapNotNull(xs, f) <==> exists i :: 0 <= i < |xs| && f(xs[i]) == Some(y)
  {
    if xs != [] {
      MapNotNullMember(xs[1..], f, y);
      if exists i :: 0 <= i < |xs[1..]| && f(xs[1..][i]) == Some(y) {
        var i :| 0 <= i < |xs[1..]| && f(xs[1..][i]) == Some(y);
        assert f(xs[i + 1]) == Some(y);
      }
      if exists i :: 0 <= i < |xs| && f(xs[i]) == Some(y) {
        var i :| 0 <= i < |xs| && f(xs[i]) == Some(y);
        if i > 0 {
          assert f(xs[1..][i - 1]) == Some(y);
        }
      }
    }
  }

  function Filter<A>(xs: seq<A>, p: A -> bool): (r: seq<A>)
    ensures |r| <= |xs|
    ensures forall i :: 0 <= i < |r| ==> p(r[i])
  {
    if xs == [] then []
    else if p(xs[0]) then [xs[0]] + Filter(xs[1..], p)
    else Filter(xs[1..], p)
  }

  /** `filter` keeps exactly the elements that satisfy the predicate. */
  lemma {:induction false} FilterMember<A>(xs: seq<A>, p: A -> bool, y: A)
    ensures y in Filter(xs, p) <==> y in xs && p(y)
  {
    if xs != [] {
      FilterMember(xs[1..], p, y);
      assert xs == [xs[0]] + xs[1..];
    }
  }

  /** The chain `mapNotNull(f).mapNotNull(g).filter(p)` applied to one element: its one result, or none. */
  function Chain<A, B, C>(f: A -> Option<B>, g: B -> Option<C>, p: C -> bool): A -> seq<C> {
    x =>
      match f(x)
      case None => []
      case Some(y) =>
        match g(y)
        case None => []
        case Some(z) => if p(z) then [z] else []
  }

  /** The chain keeps the input order: it is a `flatMap` of what each element yields on its own. */
  lemma {:induction false} ChainFlatMap<A, B, C>(xs: seq<A>, f: A -> Option<B>, g: B -> Option<C>, p: C -> bool)
    ensures Filter(MapNotNull(MapNotNull(xs, f), g), p) == FlatMap(xs, Chain(f, g, p))
  {
    if xs != [] {
      ChainFlatMap(xs[1..], f, g, p);
      var ys := MapNotNull(xs[1..], f);
      match f(xs[0]) {
        case None =>
        case Some(y) =>
          assert MapNotNull(xs, f) == [y] + ys;
          assert ([y] + ys)[0] == y && ([y] + ys)[1..] == ys;
          var zs := MapNotNull(ys, g);
          match g(y) {
            case None =>
            case Some(z) =>
              assert MapNotNull([y] + ys, g) == [z] + zs;
              assert ([z] + zs)[0] == z && ([z] + zs)[1..] == zs;
          }
      }
    }
  }

  /** Flattening with two functions that agree on every element gives the same list. */
  lemma {:induction false} FlatMapPointwise<A, B>(xs: seq<A>, f: A -> seq<B>, g: A -> seq<B>)
    requires forall i :: 0 <= i < |xs| ==> f(xs[i]) == g(xs[i])
    ensures FlatMap(xs, f) == FlatMap(xs, g)
  {
    if xs != [] {
      assert f(xs[0]) == g(xs[0]);
      assert forall i :: 0 <= i < |xs[1..]| ==> f(xs[1..][i]) == g(xs[1..][i]) by {
        forall i | 0 <= i < |xs[1..]|
          ensures f(xs[1..][i]) == g(xs[1..][i])
        {
          assert xs[1..][i] == xs[i + 1];
        }
      }
      FlatMapPointwise(xs[1..], f, g);
    }
  }
}
