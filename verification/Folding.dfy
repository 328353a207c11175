/** Keeping a predicate folded: a test chosen to agree with it, where the
    agreement is used only for the arguments `Unfold` names. */
module Folding {
  ghost predicate Asked<T>(x: T) { true }

  ghost predicate Agrees<T(!new)>(f: T -> bool, p: T -> bool) {
    forall x {:trigger Asked(x)} :: Asked(x) ==> (f(x) <==> p(x))
  }

  ghost function Folded<T(!new)>(p: T -> bool): (f: T -> bool)
    ensures Agrees(f, p)
  {
    assert Agrees(p, p);
    var f :| Agrees(f, p);
    f
  }

  lemma Unfold<T(!new)>(p: T -> bool, x: T)
    ensures Folded(p)(x) <==> p(x)
  {
    assert Asked(x);
  }

  // The same for a function.

  ghost predicate SameAs<T(!new), U>(f: T -> U, g: T -> U) {
    forall x {:trigger Asked(x)} :: Asked(x) ==> f(x) == g(x)
  }

  ghost function FoldedFn<T(!new), U>(g: T -> U): (f: T -> U)
    ensures SameAs(f, g)
  {
    assert SameAs(g, g);
    var f :| SameAs(f, g);
    f
  }

  lemma UnfoldFn<T(!new), U>(g: T -> U, x: T)
    ensures FoldedFn(g)(x) == g(x)
  {
    assert Asked(x);
  }
}
