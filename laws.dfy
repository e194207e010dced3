/**
 The lens laws, and which combinators preserve which of them. A lens is not
 required to obey the laws when it is built; they are a contract between the
 author of a primitive lens and the combinators, and the lemmas here state
 exactly what each combinator needs from its inputs and what it gives back,
 including where `Lift` and `Fanout` break a law.
 */
module LensLaws {
  import opened Lenses

  /** Writing back what was just read changes nothing. */
  ghost predicate GetPut<A(!new), B>(l: Lens<A, B>)
  {
    forall a :: l.put(a, l.get(a)) == a
  }

  /** Reading right after a write returns what was written. */
  ghost predicate PutGet<A(!new), B(!new)>(l: Lens<A, B>)
  {
    forall a, b :: l.get(l.put(a, b)) == b
  }

  /** A second write overrides the first entirely. */
  ghost predicate PutPut<A(!new), B(!new)>(l: Lens<A, B>)
  {
    forall a, b1, b2 :: l.put(l.put(a, b1), b2) == l.put(a, b2)
  }

  /** All three laws. */
  ghost predicate Lawful<A(!new), B(!new)>(l: Lens<A, B>)
  {
    GetPut(l) && PutGet(l) && PutPut(l)
  }

  /** Two lenses that read and write alike on every input. */
  ghost predicate Equivalent<A(!new), B(!new)>(l1: Lens<A, B>, l2: Lens<A, B>)
  {
    && (forall a :: l1.get(a) == l2.get(a))
    && (forall a, b :: l1.put(a, b) == l2.put(a, b))
  }

  /** Writing through `writer` never changes what `reader` reads. */
  ghost predicate NonInterfering<A(!new), B, C(!new)>(writer: Lens<A, C>, reader: Lens<A, B>)
  {
    forall a, c :: reader.get(writer.put(a, c)) == reader.get(a)
  }

  /** Writes through `l` and `r` may be done in either order. */
  ghost predicate Commute<A(!new), B(!new), C(!new)>(l: Lens<A, B>, r: Lens<A, C>)
  {
    forall a, b, c :: l.put(r.put(a, c), b) == r.put(l.put(a, b), c)
  }

  // ---------------------------------------------------------------------------
  // Mod

  /** On a lens obeying PutGet, `Mod` leaves the transformed part in the whole. */
  lemma ModGet<A(!new), B(!new)>(l: Lens<A, B>, a: A, f: B -> B)
    requires PutGet(l)
    ensures Get(l, Mod(l, a, f)) == f(Get(l, a))
  {
  }

  /** On a lens obeying GetPut, modifying by the identity changes nothing. */
  lemma ModIdentity<A(!new), B>(l: Lens<A, B>, a: A)
    requires GetPut(l)
    ensures Mod(l, a, b => b) == a
  {
  }

  /** On a lawful lens, two modifications in a row are one by the composed transform. */
  lemma ModMod<A(!new), B(!new)>(l: Lens<A, B>, a: A, f: B -> B, g: B -> B)
    requires PutGet(l) && PutPut(l)
    ensures Mod(l, Mod(l, a, f), g) == Mod(l, a, b => g(f(b)))
  {
  }

  // ---------------------------------------------------------------------------
  // Compose

  lemma ComposeGetPut<A(!new), B(!new), C>(left: Lens<A, B>, right: Lens<B, C>)
    requires GetPut(left) && GetPut(right)
    ensures GetPut(Compose(left, right))
  {
  }

  lemma ComposePutGet<A(!new), B(!new), C(!new)>(left: Lens<A, B>, right: Lens<B, C>)
    requires PutGet(left) && PutGet(right)
    ensures PutGet(Compose(left, right))
  {
  }

  /** PutPut of a composition also needs PutGet of the outer lens. */
  lemma ComposePutPut<A(!new), B(!new), C(!new)>(left: Lens<A, B>, right: Lens<B, C>)
    requires PutGet(left) && PutPut(left) && PutPut(right)
    ensures PutPut(Compose(left, right))
  {
    var l := Compose(left, right);
    forall a, c1, c2 ensures l.put(l.put(a, c1), c2) == l.put(a, c2) {
      var b1 := right.put(left.get(a), c1);
      assert left.get(left.put(a, b1)) == b1;
      assert right.put(b1, c2) == right.put(left.get(a), c2);
    }
  }

  /**
   Without PutGet of the outer lens, PutPut is lost: an outer lens that
   flips a flag on every write obeys PutPut, and so does the inner lens on
   the second component, but two composed writes flip the flag back.
   */
  lemma ComposePutPutNeedsOuterPutGet()
    ensures var left := Lens((a: (bool, int)) => a, (a: (bool, int), b: (bool, int)) => (!b.0, b.1));
            var right := Lens((b: (bool, int)) => b.1, (b: (bool, int), c: int) => (b.0, c));
            && PutPut(left) && PutPut(right) && !PutGet(left)
            && !PutPut(Compose(left, right))
  {
    var left := Lens((a: (bool, int)) => a, (a: (bool, int), b: (bool, int)) => (!b.0, b.1));
    var right := Lens((b: (bool, int)) => b.1, (b: (bool, int), c: int) => (b.0, c));
    var l := Compose(left, right);
    assert left.get(left.put((true, 0), (true, 0))) != (true, 0);
    assert l.put(l.put((true, 0), 0), 0) != l.put((true, 0), 0);
  }

  lemma ComposeLawful<A(!new), B(!new), C(!new)>(left: Lens<A, B>, right: Lens<B, C>)
    requires Lawful(left) && Lawful(right)
    ensures Lawful(Compose(left, right))
  {
    ComposeGetPut(left, right);
    ComposePutGet(left, right);
    ComposePutPut(left, right);
  }

  /** Composition is associative, whatever laws the three lenses obey. */
  lemma ComposeAssociative<A(!new), B, C, D(!new)>(l1: Lens<A, B>, l2: Lens<B, C>, l3: Lens<C, D>)
    ensures Equivalent(Compose(Compose(l1, l2), l3), Compose(l1, Compose(l2, l3)))
  {
  }

  /** A composed write leaves in the outer focus exactly what the inner lens writes there. */
  lemma ComposeSetFocus<A(!new), B(!new), C>(outer: Lens<A, B>, inner: Lens<B, C>, a: A, c: C)
    requires PutGet(outer)
    ensures Get(outer, Set(Compose(outer, inner), a, c)) == Set(inner, Get(outer, a), c)
  {
  }

  /** A composed write changes nothing that writes through the outer lens leave alone. */
  lemma ComposeSetFrame<A(!new), B(!new), C, D>(outer: Lens<A, B>, inner: Lens<B, C>, other: Lens<A, D>, a: A, c: C)
    requires NonInterfering(outer, other)
    ensures Get(other, Set(Compose(outer, inner), a, c)) == Get(other, a)
  {
  }

  // ---------------------------------------------------------------------------
  // Lift

  /** A lifted lens obeys GetPut exactly when the lens it lifts does. */
  lemma LiftGetPut<A(!new), B>(l: Lens<A, B>)
    ensures GetPut(Lift(l)) <==> GetPut(l)
  {
    var ll := Lift(l);
    if GetPut(l) {
      forall xs ensures ll.put(xs, ll.get(xs)) == xs {
        LiftGet(l, xs);
        LiftSet(l, xs, ll.get(xs));
      }
    }
    if GetPut(ll) {
      forall a ensures l.put(a, l.get(a)) == a {
        LiftSet(l, [a], ll.get([a]));
        assert ll.put([a], ll.get([a])) == [a];
      }
    }
  }

  /**
   Reading a lifted lens after a write gives back the parts written exactly
   when there were no more parts than wholes: extra parts are dropped.
   */
  lemma LiftPutGet<A(!new), B(!new)>(l: Lens<A, B>, xs: seq<A>, ys: seq<B>)
    requires PutGet(l)
    ensures Get(Lift(l), Set(Lift(l), xs, ys)) == ys <==> |ys| <= |xs|
  {
    var zs := Set(Lift(l), xs, ys);
    LiftSet(l, xs, ys);
    LiftGet(l, zs);
    if |ys| <= |xs| {
      assert Get(Lift(l), zs) == ys;
    }
  }

  /** So a lifted lens never obeys PutGet: writing one part into no wholes reads back none. */
  lemma LiftNotPutGet<A(!new), B(!new)>(l: Lens<A, B>, b: B)
    ensures !PutGet(Lift(l))
  {
    var ll := Lift(l);
    LiftSet(l, [], [b]);
    assert ll.get(ll.put([], [b])) != [b];
  }

  /**
   A second write through a lifted lens overrides the first exactly when the
   first did not cut the wholes shorter than the second write keeps them.
   */
  lemma LiftPutPut<A(!new), B(!new)>(l: Lens<A, B>, xs: seq<A>, ys1: seq<B>, ys2: seq<B>)
    requires PutPut(l)
    ensures Set(Lift(l), Set(Lift(l), xs, ys1), ys2) == Set(Lift(l), xs, ys2)
            <==> Min(|xs|, |ys2|) <= |ys1|
  {
    var zs1 := Set(Lift(l), xs, ys1);
    var lhs := Set(Lift(l), zs1, ys2);
    var rhs := Set(Lift(l), xs, ys2);
    LiftSet(l, xs, ys1);
    LiftSet(l, zs1, ys2);
    LiftSet(l, xs, ys2);
    if Min(|xs|, |ys2|) <= |ys1| {
      forall i | 0 <= i < |lhs| ensures lhs[i] == rhs[i] {
        assert l.put(l.put(xs[i], ys1[i]), ys2[i]) == l.put(xs[i], ys2[i]);
      }
    }
  }

  /** So a lifted lens never obeys PutPut: an empty first write empties the wholes. */
  lemma LiftNotPutPut<A(!new), B(!new)>(l: Lens<A, B>, a: A, b: B)
    ensures !PutPut(Lift(l))
  {
    var ll := Lift(l);
    LiftSet(l, [a], []);
    LiftSet(l, [a], [b]);
    assert ll.put(ll.put([a], []), [b]) != ll.put([a], [b]);
  }

  // ---------------------------------------------------------------------------
  // Split

  /**
   Each half of a split lens sees only its own component: the first component
   of a read or a write depends only on the first components of its inputs,
   and the second only on the second.
   */
  lemma SplitComponentwise<A, B, C, D>(l: Lens<A, B>, r: Lens<C, D>, w1: (A, C), w2: (A, C), p1: (B, D), p2: (B, D))
    ensures w1.0 == w2.0 ==> Get(Split(l, r), w1).0 == Get(Split(l, r), w2).0
    ensures w1.1 == w2.1 ==> Get(Split(l, r), w1).1 == Get(Split(l, r), w2).1
    ensures w1.0 == w2.0 && p1.0 == p2.0 ==> Set(Split(l, r), w1, p1).0 == Set(Split(l, r), w2, p2).0
    ensures w1.1 == w2.1 && p1.1 == p2.1 ==> Set(Split(l, r), w1, p1).1 == Set(Split(l, r), w2, p2).1
  {
  }

  lemma SplitLawful<A(!new), B(!new), C(!new), D(!new)>(l: Lens<A, B>, r: Lens<C, D>)
    ensures GetPut(l) && GetPut(r) ==> GetPut(Split(l, r))
    ensures PutGet(l) && PutGet(r) ==> PutGet(Split(l, r))
    ensures PutPut(l) && PutPut(r) ==> PutPut(Split(l, r))
  {
    var s := Split(l, r);
    if GetPut(l) && GetPut(r) {
      forall w: (A, C) ensures s.put(w, s.get(w)) == w {
        assert l.put(w.0, l.get(w.0)) == w.0 && r.put(w.1, r.get(w.1)) == w.1;
      }
    }
    if PutGet(l) && PutGet(r) {
      forall w: (A, C), p: (B, D) ensures s.get(s.put(w, p)) == p {
        assert l.get(l.put(w.0, p.0)) == p.0 && r.get(r.put(w.1, p.1)) == p.1;
      }
    }
    if PutPut(l) && PutPut(r) {
      forall w: (A, C), p1: (B, D), p2: (B, D) ensures s.put(s.put(w, p1), p2) == s.put(w, p2) {
        assert l.put(l.put(w.0, p1.0), p2.0) == l.put(w.0, p2.0);
        assert r.put(r.put(w.1, p1.1), p2.1) == r.put(w.1, p2.1);
      }
    }
  }

  /**
   Conversely, a split lens that obeys a law makes both halves obey it, as
   long as each whole and part type has a value to pair with.
   */
  lemma SplitReflectsLaws<A(!new), B(!new), C(!new), D(!new)>(l: Lens<A, B>, r: Lens<C, D>, a0: A, b0: B, c0: C, d0: D)
    ensures GetPut(Split(l, r)) ==> GetPut(l) && GetPut(r)
    ensures PutGet(Split(l, r)) ==> PutGet(l) && PutGet(r)
    ensures PutPut(Split(l, r)) ==> PutPut(l) && PutPut(r)
  {
    var s := Split(l, r);
    if GetPut(s) {
      forall a ensures l.put(a, l.get(a)) == a { assert s.put((a, c0), s.get((a, c0))) == (a, c0); }
      forall c ensures r.put(c, r.get(c)) == c { assert s.put((a0, c), s.get((a0, c))) == (a0, c); }
    }
    if PutGet(s) {
      forall a, b ensures l.get(l.put(a, b)) == b { assert s.get(s.put((a, c0), (b, d0))) == (b, d0); }
      forall c, d ensures r.get(r.put(c, d)) == d { assert s.get(s.put((a0, c), (b0, d))) == (b0, d); }
    }
    if PutPut(s) {
      forall a, b1, b2 ensures l.put(l.put(a, b1), b2) == l.put(a, b2) {
        assert s.put(s.put((a, c0), (b1, d0)), (b2, d0)) == s.put((a, c0), (b2, d0));
      }
      forall c, d1, d2 ensures r.put(r.put(c, d1), d2) == r.put(c, d2) {
        assert s.put(s.put((a0, c), (b0, d1)), (b0, d2)) == s.put((a0, c), (b0, d2));
      }
    }
  }

  // ---------------------------------------------------------------------------
  // Fanout

  lemma FanoutGetPut<A(!new), B, C>(l: Lens<A, B>, r: Lens<A, C>)
    requires GetPut(l) && GetPut(r)
    ensures GetPut(Fanout(l, r))
  {
  }

  /** PutGet of a fanout needs the right lens's writes to leave the left lens's focus alone. */
  lemma FanoutPutGet<A(!new), B(!new), C(!new)>(l: Lens<A, B>, r: Lens<A, C>)
    requires PutGet(l) && PutGet(r) && NonInterfering(r, l)
    ensures PutGet(Fanout(l, r))
  {
    var f := Fanout(l, r);
    forall a, p: (B, C) ensures f.get(f.put(a, p)) == p {
      var x := l.put(a, p.0);
      assert l.get(r.put(x, p.1)) == l.get(x) == p.0;
    }
  }

  /**
   That condition is also necessary: when the left lens obeys GetPut, a
   fanout obeying PutGet makes both lenses obey PutGet and the right one
   non-interfering with the left.
   */
  lemma FanoutPutGetOnlyIf<A(!new), B(!new), C(!new)>(l: Lens<A, B>, r: Lens<A, C>, c0: C)
    requires GetPut(l) && PutGet(Fanout(l, r))
    ensures PutGet(l) && PutGet(r) && NonInterfering(r, l)
  {
    var f := Fanout(l, r);
    forall a, c ensures l.get(r.put(a, c)) == l.get(a) && r.get(r.put(a, c)) == c {
      assert f.get(f.put(a, (l.get(a), c))) == (l.get(a), c);
    }
    forall a, b ensures l.get(l.put(a, b)) == b {
      assert f.get(f.put(a, (b, c0))) == (b, c0);
      assert l.get(r.put(l.put(a, b), c0)) == l.get(l.put(a, b));
    }
  }

  /**
   Without GetPut of the left lens the converse fails. Over wholes
   `(flag, x, y)`, the left lens writes `x` and sets the flag; the right lens
   writes `y` and keeps `x` only when the flag is set. Their fanout obeys
   PutGet, yet the right lens's writes can wipe out the left lens's part.
   */
  lemma FanoutPutGetOnlyIfNeedsGetPut()
    ensures var l := Lens((a: (bool, int, int)) => a.1, (a: (bool, int, int), b: int) => (true, b, a.2));
            var r := Lens((a: (bool, int, int)) => a.2,
                          (a: (bool, int, int), c: int) => (a.0, if a.0 then a.1 else 0, c));
            && !GetPut(l) && PutGet(Fanout(l, r)) && !NonInterfering(r, l)
  {
    var l := Lens((a: (bool, int, int)) => a.1, (a: (bool, int, int), b: int) => (true, b, a.2));
    var r := Lens((a: (bool, int, int)) => a.2,
                  (a: (bool, int, int), c: int) => (a.0, if a.0 then a.1 else 0, c));
    var f := Fanout(l, r);
    assert l.put((false, 5, 0), l.get((false, 5, 0))) != (false, 5, 0);
    forall a, p: (int, int) ensures f.get(f.put(a, p)) == p {
      assert f.put(a, p) == (true, p.0, p.1);
    }
    assert l.get(r.put((false, 5, 0), 0)) != l.get((false, 5, 0));
  }

  /** PutPut of a fanout needs the writes of the two lenses to commute. */
  lemma FanoutPutPut<A(!new), B(!new), C(!new)>(l: Lens<A, B>, r: Lens<A, C>)
    requires PutPut(l) && PutPut(r) && Commute(l, r)
    ensures PutPut(Fanout(l, r))
  {
    var f := Fanout(l, r);
    forall a, p1: (B, C), p2: (B, C) ensures f.put(f.put(a, p1), p2) == f.put(a, p2) {
      var x := l.put(a, p1.0);
      calc {
        f.put(f.put(a, p1), p2);
        r.put(l.put(r.put(x, p1.1), p2.0), p2.1);
        { assert l.put(r.put(x, p1.1), p2.0) == r.put(l.put(x, p2.0), p1.1); }
        r.put(r.put(l.put(x, p2.0), p1.1), p2.1);
        r.put(l.put(x, p2.0), p2.1);
        { assert l.put(x, p2.0) == l.put(a, p2.0); }
        r.put(l.put(a, p2.0), p2.1);
      }
    }
  }

  /**
   Writes are ordered left then right: fanning a lens out with itself, the
   right write wins and the left part written is lost.
   */
  lemma FanoutRightWins<A(!new), B(!new)>(l: Lens<A, B>, a: A, b1: B, b2: B)
    requires PutGet(l)
    ensures Get(Fanout(l, l), Set(Fanout(l, l), a, (b1, b2))) == (b2, b2)
  {
  }

  /** So fanning out two interfering lenses breaks PutGet. */
  lemma FanoutSelfNotPutGet<A(!new), B(!new)>(l: Lens<A, B>, a: A, b1: B, b2: B)
    requires PutGet(l) && b1 != b2
    ensures !PutGet(Fanout(l, l))
  {
    FanoutRightWins(l, a, b1, b2);
  }
}
