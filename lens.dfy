/**
 * The lens abstraction: a first-class accessor that reads one field of an
 * immutable value and builds a copy of the value with that field replaced.
 *
 * A `Lens<S, A>` is exactly the pair that `Lens.of(getter, wither)` is given:
 * `get` reads the addressed `A` out of an `S`, and `wither` returns a new `S`
 * in which the addressed `A` is replaced. `Set`, `Mod` and `AndThen` are
 * defined on top of that pair, so every lens gains them for free.
 */
module Lenses {

  datatype Lens<!S(!new), !A(!new)> = Of(get: S -> A, wither: (S, A) -> S) {

    /** A copy of `s` whose addressed field is `a`; `s` itself is a value and is not changed. */
    function Set(s: S, a: A): (r: S)
      ensures GetSet(this) ==> get(r) == a
      ensures SetGet(this) && a == get(s) ==> r == s
    {
      wither(s, a)
    }

    /** A copy of `s` whose addressed field is `f` applied to the field's present value. */
    function Mod(s: S, f: A -> A): (r: S)
      ensures GetSet(this) ==> get(r) == f(get(s))
      ensures SetGet(this) && f(get(s)) == get(s) ==> r == s
      ensures forall a :: SetSet(this) ==> Set(r, a) == Set(s, a)
    {
      Set(s, f(get(s)))
    }

    /**
     * The lens that looks through this lens and then through `inner`:
     * it reads the inner field of the outer field, and writes by replacing
     * the inner field inside the outer field and putting the new outer
     * field back.
     */
    function AndThen<B(!new)>(inner: Lens<A, B>): (r: Lens<S, B>)
      ensures forall s :: r.get(s) == inner.get(get(s))
      ensures forall s, b :: r.Set(s, b) == Set(s, inner.Set(get(s), b))
      ensures forall s, b :: GetSet(this) ==> get(r.Set(s, b)) == inner.Set(get(s), b)
    {
      Of(s => inner.get(get(s)), (s, b) => Set(s, inner.Set(get(s), b)))
    }
  }

  /** Law 1: reading after a write gives back what was written. */
  ghost predicate GetSet<S(!new), A(!new)>(l: Lens<S, A>) {
    forall s, a :: l.get(l.wither(s, a)) == a
  }

  /** Law 2: writing back the value already present changes nothing. */
  ghost predicate SetGet<S(!new), A(!new)>(l: Lens<S, A>) {
    forall s :: l.wither(s, l.get(s)) == s
  }

  /** Law 3: a later write overrides an earlier one. */
  ghost predicate SetSet<S(!new), A(!new)>(l: Lens<S, A>) {
    forall s, a1, a2 :: l.wither(l.wither(s, a1), a2) == l.wither(s, a2)
  }

  /** A lens that obeys all three laws. */
  ghost predicate Lawful<S(!new), A(!new)>(l: Lens<S, A>) {
    GetSet(l) && SetGet(l) && SetSet(l)
  }

  // Each law survives composition, given the laws of the two parts it uses.

  lemma AndThenGetSet<S(!new), A(!new), B(!new)>(outer: Lens<S, A>, inner: Lens<A, B>)
    requires GetSet(outer) && GetSet(inner)
    ensures GetSet(outer.AndThen(inner))
  {
  }

  lemma AndThenSetGet<S(!new), A(!new), B(!new)>(outer: Lens<S, A>, inner: Lens<A, B>)
    requires SetGet(outer) && SetGet(inner)
    ensures SetGet(outer.AndThen(inner))
  {
  }

  lemma AndThenSetSet<S(!new), A(!new), B(!new)>(outer: Lens<S, A>, inner: Lens<A, B>)
    requires GetSet(outer) && SetSet(outer) && SetSet(inner)
    ensures SetSet(outer.AndThen(inner))
  {
  }

  /** Composition of two lawful lenses is lawful. */
  lemma AndThenLawful<S(!new), A(!new), B(!new)>(outer: Lens<S, A>, inner: Lens<A, B>)
    requires Lawful(outer) && Lawful(inner)
    ensures Lawful(outer.AndThen(inner))
  {
    AndThenGetSet(outer, inner);
    AndThenSetGet(outer, inner);
    AndThenSetSet(outer, inner);
  }

  /** Grouping does not matter: both ways of composing three lenses read and write alike. */
  lemma AndThenAssociative<S(!new), A(!new), B(!new), C(!new)>(l1: Lens<S, A>, l2: Lens<A, B>, l3: Lens<B, C>, s: S, c: C)
    ensures l1.AndThen(l2).AndThen(l3).get(s) == l1.AndThen(l2.AndThen(l3)).get(s)
    ensures l1.AndThen(l2).AndThen(l3).Set(s, c) == l1.AndThen(l2.AndThen(l3)).Set(s, c)
  {
  }

  /** `Mod` with a constant function is `Set` with that constant. */
  lemma ModConstant<S(!new), A(!new)>(l: Lens<S, A>, s: S, c: A)
    ensures l.Mod(s, _ => c) == l.Set(s, c)
  {
  }

  /** Modifying through a composite modifies the inner field inside the outer field. */
  lemma AndThenMod<S(!new), A(!new), B(!new)>(outer: Lens<S, A>, inner: Lens<A, B>, s: S, f: B -> B)
    ensures outer.AndThen(inner).Mod(s, f) == outer.Set(s, inner.Mod(outer.get(s), f))
  {
  }

  /** Two modifications through one lawful lens are one modification by the composed function. */
  lemma ModFusion<S(!new), A(!new)>(l: Lens<S, A>, s: S, f: A -> A, g: A -> A)
    requires GetSet(l) && SetSet(l)
    ensures l.Mod(l.Mod(s, f), g) == l.Mod(s, a => g(f(a)))
  {
  }

  /**
   * A lens obeying set-get and set-set splits a value into the addressed
   * field and the rest: two values are equal exactly when their fields
   * agree and writing the same field value into both gives the same result.
   * Get-set is not needed.
   */
  lemma Decomposition<S(!new), A(!new)>(l: Lens<S, A>, s1: S, s2: S, a: A)
    requires SetGet(l) && SetSet(l)
    ensures s1 == s2 <==> l.get(s1) == l.get(s2) && l.Set(s1, a) == l.Set(s2, a)
  {
    if l.get(s1) == l.get(s2) && l.Set(s1, a) == l.Set(s2, a) {
      calc {
        s1;
        l.Set(s1, l.get(s1));
        l.Set(l.Set(s1, a), l.get(s1));
        l.Set(l.Set(s2, a), l.get(s2));
        l.Set(s2, l.get(s2));
        s2;
      }
    }
  }
}
