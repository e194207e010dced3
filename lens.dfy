/**
 A lens focuses on a part `B` of a whole `A`: it reads the part out of a whole
 and writes a new part into a whole, producing a new whole. This module holds
 the lens value, its primitive operations and the combinators that build new
 lenses from existing ones. Everything is a total, pure function; which laws a
 lens obeys, and which combinators preserve them, is the subject of LensLaws.
 */
module Lenses {

  /** Swift's `Optional`, used by the overload of `Get` over an absent whole. */
  datatype Option<T> = None | Some(value: T)

  /**
   The lens value: a reader `get` and a writer `put` that returns the updated
   whole. (`set` is a reserved word in Dafny, so the writer field is `put`.)
   Nothing is checked at construction time.
   */
  datatype Lens<!A, !B> = Lens(get: A -> B, put: (A, B) -> A)

  /**
   The initializer that takes an in-place mutator. For a whole of value type
   (a struct or an enum, as in the tests) the mutator works on a private copy,
   so the caller's whole is never touched: here the mutator is a function
   that returns the modified copy, and the lens writes exactly that.
   */
  function FromMutator<A(!new), B(!new)>(get: A -> B, mutate: (A, B) -> A): (l: Lens<A, B>)
    ensures forall a :: l.get(a) == get(a)
    ensures forall a, b :: l.put(a, b) == mutate(a, b)
  {
    Lens(get, mutate)
  }

  // ---------------------------------------------------------------------------
  // Basics

  /** Reads the focused part of `a`. */
  function Get<A, B>(l: Lens<A, B>, a: A): B
  {
    l.get(a)
  }

  /** The curried overload of `Get`: it agrees with `Get` on every whole. */
  function GetCurried<A(!new), B>(l: Lens<A, B>): (g: A -> B)
    ensures forall a :: g(a) == Get(l, a)
  {
    a => l.get(a)
  }

  /** Swift's `Optional.map`. */
  function MapOption<T, U>(o: Option<T>, f: T -> U): Option<U>
  {
    match o
    case None => None
    case Some(v) => Some(f(v))
  }

  /** `Get` lifted over an optional whole: absent stays absent, present is read. */
  function GetOption<A, B>(l: Lens<A, B>, a: Option<A>): (r: Option<B>)
    ensures r.None? <==> a.None?
    ensures a.Some? ==> r == Some(Get(l, a.value))
  {
    MapOption(a, l.get)
  }

  /** The curried overload of `GetOption`: it agrees with `GetOption` everywhere. */
  function GetOptionCurried<A(!new), B>(l: Lens<A, B>): (g: Option<A> -> Option<B>)
    ensures forall a :: g(a) == GetOption(l, a)
  {
    a => MapOption(a, l.get)
  }

  /** Writes the part `b` into `a`. */
  function Set<A, B>(l: Lens<A, B>, a: A, b: B): A
  {
    l.put(a, b)
  }

  /** The curried overload of `Set`: it agrees with `Set` on every part. */
  function SetCurried<A, B(!new)>(l: Lens<A, B>, a: A): (s: B -> A)
    ensures forall b :: s(b) == Set(l, a, b)
  {
    b => l.put(a, b)
  }

  /** Read the part, transform it with `f`, write it back, all through `Get` and `Set`. */
  function Mod<A, B>(l: Lens<A, B>, a: A, f: B -> B): A
  {
    Set(l, a, f(Get(l, a)))
  }

  // ---------------------------------------------------------------------------
  // Compose

  /**
   Sequential composition: `left` focuses on a `B` inside the `A`, `right` on a
   `C` inside that `B`. Writing reads the current `B`, writes the `C` into it
   and writes the updated `B` back through `left`.
   */
  function Compose<A, B, C>(left: Lens<A, B>, right: Lens<B, C>): Lens<A, C>
  {
    Lens(a => right.get(left.get(a)),
         (a, c) => left.put(a, right.put(left.get(a), c)))
  }

  /** The operator `>>>`: composition with the outer lens written first. */
  function Forward<A, B, C>(lhs: Lens<A, B>, rhs: Lens<B, C>): (l: Lens<A, C>)
    ensures l == Compose(lhs, rhs)
  {
    Compose(lhs, rhs)
  }

  /** The operator `<<<`: composition with the outer lens written last. */
  function Backward<A, B, C>(lhs: Lens<B, C>, rhs: Lens<A, B>): (l: Lens<A, C>)
    ensures l == Compose(rhs, lhs)
  {
    Compose(rhs, lhs)
  }

  // ---------------------------------------------------------------------------
  // Lift

  /** Swift's `Array.map`: one result per element, in order. */
  function MapSeq<T, U>(f: T -> U, xs: seq<T>): (r: seq<U>)
    ensures |r| == |xs|
    ensures forall i :: 0 <= i < |xs| ==> r[i] == f(xs[i])
  {
    if xs == [] then [] else [f(xs[0])] + MapSeq(f, xs[1..])
  }

  function Min(x: int, y: int): int
  {
    if x <= y then x else y
  }

  /** Swift's `zip`: pairs elements by position and stops at the shorter sequence. */
  function Zip<T, U>(xs: seq<T>, ys: seq<U>): (r: seq<(T, U)>)
    ensures |r| == Min(|xs|, |ys|)
    ensures forall i :: 0 <= i < |r| ==> r[i] == (xs[i], ys[i])
  {
    if xs == [] || ys == [] then [] else [(xs[0], ys[0])] + Zip(xs[1..], ys[1..])
  }

  /**
   Applies a lens element-wise to a sequence of wholes. Reading maps `get` over
   the wholes; writing zips wholes with parts and writes each pair, so the
   result is as long as the shorter of the two sequences.
   */
  function Lift<A, B>(l: Lens<A, B>): Lens<seq<A>, seq<B>>
  {
    Lens(xs => MapSeq(l.get, xs),
         (xs, ys) => MapSeq((p: (A, B)) => l.put(p.0, p.1), Zip(xs, ys)))
  }

  /** What `Get` of a lifted lens returns: one part per whole, read in place. */
  lemma LiftGet<A, B>(l: Lens<A, B>, xs: seq<A>)
    ensures |Get(Lift(l), xs)| == |xs|
    ensures forall i :: 0 <= i < |xs| ==> Get(Lift(l), xs)[i] == Get(l, xs[i])
  {
  }

  /** What `Set` of a lifted lens returns: truncated to the shorter input, written pairwise. */
  lemma LiftSet<A, B>(l: Lens<A, B>, xs: seq<A>, ys: seq<B>)
    ensures |Set(Lift(l), xs, ys)| == Min(|xs|, |ys|)
    ensures forall i :: 0 <= i < Min(|xs|, |ys|) ==> Set(Lift(l), xs, ys)[i] == Set(l, xs[i], ys[i])
  {
  }

  // ---------------------------------------------------------------------------
  // Split

  /** Two independent lenses side by side, over a pair of wholes and a pair of parts. */
  function Split<A, B, C, D>(left: Lens<A, B>, right: Lens<C, D>): Lens<(A, C), (B, D)>
  {
    Lens((w: (A, C)) => (left.get(w.0), right.get(w.1)),
         (w: (A, C), p: (B, D)) => (left.put(w.0, p.0), right.put(w.1, p.1)))
  }

  /** The operator `***`. */
  function Product<A, B, C, D>(lhs: Lens<A, B>, rhs: Lens<C, D>): (l: Lens<(A, C), (B, D)>)
    ensures l == Split(lhs, rhs)
  {
    Split(lhs, rhs)
  }

  // ---------------------------------------------------------------------------
  // Fanout

  /**
   Two lenses on the same whole, read together as a pair. Writing applies the
   left lens first and then the right lens to the result.
   */
  function Fanout<A, B, C>(left: Lens<A, B>, right: Lens<A, C>): Lens<A, (B, C)>
  {
    Lens(a => (left.get(a), right.get(a)),
         (a: A, p: (B, C)) => right.put(left.put(a, p.0), p.1))
  }

  /** The operator `&&&`. */
  function Both<A, B, C>(lhs: Lens<A, B>, rhs: Lens<A, C>): (l: Lens<A, (B, C)>)
    ensures l == Fanout(lhs, rhs)
  {
    Fanout(lhs, rhs)
  }
}
