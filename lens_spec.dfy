/**
 The records the library's tests use, their field lenses (built with the
 in-place mutator form), and the test scenarios restated as lemmas.
 */
module LensSpec {
  import opened Lenses
  import opened LensLaws

  datatype Inner = Inner(count: int)

  datatype Outer = Outer(count: int, inner: Inner)

  /** The record's initializer, with its default arguments. */
  function NewOuter(count: int := 0, inner: Inner := Inner(0)): Outer
  {
    Outer(count, inner)
  }

  function OuterCount(): Lens<Outer, int>
  {
    FromMutator((o: Outer) => o.count, (o: Outer, c: int) => o.(count := c))
  }

  function OuterInner(): Lens<Outer, Inner>
  {
    FromMutator((o: Outer) => o.inner, (o: Outer, i: Inner) => o.(inner := i))
  }

  function InnerCount(): Lens<Inner, int>
  {
    FromMutator((i: Inner) => i.count, (i: Inner, c: int) => i.(count := c))
  }

  /** `OuterLenses.inner >>> InnerLenses.count` */
  function OuterInnerCount(): Lens<Outer, int>
  {
    Forward(OuterInner(), InnerCount())
  }

  /** Each field lens obeys all three laws, and the two top-level fields do not interfere. */
  lemma FixturesLawful()
    ensures Lawful(OuterCount()) && Lawful(OuterInner()) && Lawful(InnerCount())
    ensures NonInterfering(OuterInner(), OuterCount()) && NonInterfering(OuterCount(), OuterInner())
    ensures Commute(OuterCount(), OuterInner())
  {
  }

  /** So does the composed lens, by ComposeLawful; and writing through it keeps `Outer.count`. */
  lemma OuterInnerCountLawful()
    ensures Lawful(OuterInnerCount())
    ensures forall o: Outer, n: int :: Set(OuterInnerCount(), o, n).count == o.count
  {
    FixturesLawful();
    ComposeLawful(OuterInner(), InnerCount());
    forall o: Outer, n: int ensures Set(OuterInnerCount(), o, n).count == o.count {
      ComposeSetFrame(OuterInner(), InnerCount(), OuterCount(), o, n);
    }
  }

  /** "A Lens": get, set and modify through `OuterLenses.count`. */
  lemma BasicScenario()
    ensures Get(OuterCount(), NewOuter(count := 2)) == 2
    ensures Set(OuterCount(), NewOuter(count := 2), 4) == NewOuter(count := 4)
    ensures Mod(OuterCount(), NewOuter(count := 2), x => x + 2) == NewOuter(count := 4)
  {
  }

  /** "A composed Lens": the inner count is read, set and modified; the outer count stays. */
  lemma ComposedScenario()
    ensures Get(OuterInnerCount(), Outer(0, Inner(2))) == 2
    ensures Set(OuterInnerCount(), Outer(0, Inner(2)), 4) == Outer(0, Inner(4))
    ensures Mod(OuterInnerCount(), Outer(0, Inner(2)), x => x + 2) == Outer(0, Inner(4))
  {
  }

  /** "Lifted lenses": element-wise read and write, and truncation to the shorter input. */
  lemma LiftScenario()
    ensures Get(Lift(InnerCount()), [Inner(1), Inner(2), Inner(3), Inner(4)]) == [1, 2, 3, 4]
    ensures Set(Lift(InnerCount()), [Inner(1), Inner(2), Inner(3), Inner(4)], [2, 4, 6, 8])
            == [Inner(2), Inner(4), Inner(6), Inner(8)]
    ensures Set(Lift(InnerCount()), [Inner(1), Inner(2), Inner(3), Inner(4)], [42]) == [Inner(42)]
  {
    var xs := [Inner(1), Inner(2), Inner(3), Inner(4)];
    LiftGet(InnerCount(), xs);
    LiftSet(InnerCount(), xs, [2, 4, 6, 8]);
    LiftSet(InnerCount(), xs, [42]);
  }

  /** "Split lenses": each side is read and written on its own; `inner.count` stays 4. */
  lemma SplitScenario()
    ensures Get(Product(OuterCount(), InnerCount()), (Outer(2, Inner(4)), Inner(9))) == (2, 9)
    ensures Set(Product(OuterCount(), InnerCount()), (Outer(2, Inner(4)), Inner(9)), (12, 34)).0.count == 12
    ensures Set(Product(OuterCount(), InnerCount()), (Outer(2, Inner(4)), Inner(9)), (12, 34)).0.inner.count == 4
    ensures Set(Product(OuterCount(), InnerCount()), (Outer(2, Inner(4)), Inner(9)), (12, 34)).1.count == 34
  {
  }

  /** "Fanned out lenses": both counts read together and written left then right. */
  lemma FanoutScenario()
    ensures Get(Both(OuterCount(), OuterInnerCount()), Outer(0, Inner(2))) == (0, 2)
    ensures Set(Both(OuterCount(), OuterInnerCount()), Outer(0, Inner(2)), (12, 34)) == Outer(12, Inner(34))
  {
  }

  /** The fanout in the tests pairs two non-interfering, commuting lenses, so it is lawful. */
  lemma FanoutFixtureLawful()
    ensures Lawful(Both(OuterCount(), OuterInnerCount()))
  {
    var l, r := OuterCount(), OuterInnerCount();
    FixturesLawful();
    OuterInnerCountLawful();
    assert NonInterfering(r, l);
    assert Commute(l, r);
    FanoutGetPut(l, r);
    FanoutPutGet(l, r);
    FanoutPutPut(l, r);
  }
}
