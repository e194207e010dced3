# Monocle lenses in Dafny

Monocle is a small Swift library of lenses. A `Lens<A, B>` is a pair of pure
functions. One reads a part `B` out of a whole `A`. The other writes a part
into a whole and returns the new whole. On top of that value the library
offers three primitives, `get`, `set` and `mod`, and four combinators:

- `compose` (also `>>>` and `<<<`) chains two lenses.
- `lift` applies a lens element-wise to arrays.
- `split` (also `***`) puts two lenses side by side over a pair.
- `fanout` (also `&&&`) reads two parts of one whole as a pair.

This project models that library and proves which lens laws each combinator
preserves. It has three modules:

- `Lenses` (`lens.dfy`): the `Lens` datatype, both initializers, the
  primitives with their curried and optional overloads, the combinators and
  their operator aliases. Swift's `Array.map`, `zip` and `Optional.map` are
  written out as `MapSeq`, `Zip` and `MapOption`. `Zip` truncates to the
  shorter input, as Swift's does.
- `LensLaws` (`laws.dfy`): the laws GetPut, PutGet and PutPut as predicates on
  a lens. Lemmas state, for each combinator, what it needs from its inputs to
  obey each law. Where a combinator breaks a law, a lemma shows that too.
- `LensSpec` (`lens_spec.dfy`): the `Inner`/`Outer` records of the test suite
  and their field lenses. Each test scenario is restated as a lemma.

The datatype constructor `Lens(get, put)` is the library's two-argument
initializer (Monocle/Lens.swift:9-16); it has no row in the table below
because it is a constructor, not a function. The writer field is called `put`, because `set` is a reserved word
in Dafny. The free functions keep the library's names: `Get`, `Set`, `Mod`.
The operators become named functions: `Forward` (`>>>`), `Backward` (`<<<`),
`Product` (`***`) and `Both` (`&&&`). Lenses hold functions, so two lenses
are compared pointwise with `Equivalent`.

## Model

| member | source | states |
|---|---|---|
| `Lenses.Get` | Monocle/Lens.swift:29-31 | Definition, no contract: reads `l.get(a)`. Characterised by `GetCurried`, `GetOption` and the law lemmas |
| `Lenses.Set` | Monocle/Lens.swift:45-47 | Definition, no contract: writes `l.put(a, b)`. Characterised by `SetCurried` and the law lemmas |
| `Lenses.Mod` | Monocle/Lens.swift:53-55 | Definition, no contract: `Set` of `f` applied to `Get`, built only from those two. Characterised by `ModGet`, `ModIdentity` and `ModMod` |
| `Lenses.MapOption` | Monocle/Lens.swift:38 | Definition, no contract: Swift's `Optional.map`. Characterised by `GetOption` |
| `Lenses.Compose` | Monocle/Lens.swift:59-69 | Definition, no contract: reads `right.get(left.get(a))`, writes the inner part into the current outer focus and writes that back. Characterised by the `Compose*` lemmas |
| `Lenses.Lift` | Monocle/Lens.swift:91-101 | Definition, no contract: `map` of `get`, and `map` of `put` over the truncating `zip`. Characterised by `LiftGet`, `LiftSet` and the `Lift*` law lemmas |
| `Lenses.Split` | Monocle/Lens.swift:105-115 | Definition, no contract: each component read and written by its own lens. Characterised by `SplitComponentwise`, `SplitLawful` and `SplitReflectsLaws` |
| `Lenses.Fanout` | Monocle/Lens.swift:128-138 | Definition, no contract: reads both parts; writes left first, then right into the result. Characterised by the `Fanout*` lemmas |
| `Lenses.FromMutator` | Monocle/Lens.swift:9-24 | The lens built from an in-place mutator reads with the given getter and writes exactly the whole the mutator produces from its copy of a value-type whole, the same lens as the two-argument form (the `Lens` datatype constructor) |
| `Lenses.GetCurried` | Monocle/Lens.swift:29-35 | The curried `get` agrees with the uncurried one on every whole |
| `Lenses.GetOption` | Monocle/Lens.swift:37-39 | `get` over an optional whole is absent exactly when the whole is absent, and otherwise holds the part read from it |
| `Lenses.GetOptionCurried` | Monocle/Lens.swift:41-43 | The curried optional `get` agrees with the uncurried one on every optional whole |
| `Lenses.SetCurried` | Monocle/Lens.swift:45-51 | The curried `set` agrees with the uncurried one on every part |
| `Lenses.Forward` | Monocle/Lens.swift:76-78 | `>>>` is exactly `compose` with its operands in the same order |
| `Lenses.Backward` | Monocle/Lens.swift:85-87 | `<<<` is exactly `compose` with its operands swapped |
| `Lenses.MapSeq` | Monocle/Lens.swift:92-94 | `map` gives one result per element: same length, element `i` is `f(xs[i])` |
| `Lenses.Zip` | Monocle/Lens.swift:96-98 | `zip` has the length of the shorter input, and element `i` pairs `xs[i]` with `ys[i]` |
| `Lenses.LiftGet` | Monocle/Lens.swift:91-94 | Reading a lifted lens gives one part per whole, element `i` read from `xs[i]` |
| `Lenses.LiftSet` | Monocle/Lens.swift:96-98 | Writing a lifted lens gives as many wholes as the shorter of `xs` and `ys` has elements, element `i` being `ys[i]` written into `xs[i]` |
| `Lenses.Product` | Monocle/Lens.swift:122-124 | `***` is exactly `split` |
| `Lenses.Both` | Monocle/Lens.swift:145-147 | `&&&` is exactly `fanout` |
| `LensLaws.ModGet` | Monocle/Lens.swift:53-55 | On a lens obeying PutGet, reading after `mod` gives `f` applied to the part read before |
| `LensLaws.ModIdentity` | Monocle/Lens.swift:53-55 | On a lens obeying GetPut, `mod` by the identity returns the whole unchanged |
| `LensLaws.ModMod` | Monocle/Lens.swift:53-55 | On a lens obeying PutGet and PutPut, `mod` by `f` then by `g` equals one `mod` by `g` after `f` |
| `LensLaws.ComposeGetPut` | Monocle/Lens.swift:59-69 | A composition of two lenses obeying GetPut obeys GetPut |
| `LensLaws.ComposePutGet` | Monocle/Lens.swift:59-69 | A composition of two lenses obeying PutGet obeys PutGet |
| `LensLaws.ComposePutPut` | Monocle/Lens.swift:59-69 | A composition obeys PutPut when both lenses obey PutPut and the outer one also obeys PutGet |
| `LensLaws.ComposePutPutNeedsOuterPutGet` | Monocle/Lens.swift:64-66 | The PutGet side condition is needed: an outer lens that flips a flag on every write obeys PutPut, as does the inner lens, but their composition does not |
| `LensLaws.ComposeLawful` | Monocle/Lens.swift:59-69 | Composing two lenses that obey all three laws gives a lens that obeys all three |
| `LensLaws.ComposeAssociative` | Monocle/Lens.swift:59-69 | `compose(compose(l1, l2), l3)` and `compose(l1, compose(l2, l3))` read and write alike, with no law assumed |
| `LensLaws.ComposeSetFocus` | Monocle/Lens.swift:64-66 | When the outer lens obeys PutGet, a composed write leaves in the outer focus exactly what the inner lens writes into the old focus |
| `LensLaws.ComposeSetFrame` | Monocle/Lens.swift:64-66 | A composed write leaves unchanged every part that writes through the outer lens leave unchanged |
| `LensLaws.LiftGetPut` | Monocle/Lens.swift:91-101 | A lifted lens obeys GetPut if and only if the lens it lifts does |
| `LensLaws.LiftPutGet` | Monocle/Lens.swift:91-101 | For a lens obeying PutGet, reading the lifted lens after writing `ys` into `xs` gives `ys` back if and only if `ys` is no longer than `xs` |
| `LensLaws.LiftNotPutGet` | Monocle/Lens.swift:96-98 | No lifted lens obeys PutGet: one part written into no wholes reads back as no parts |
| `LensLaws.LiftPutPut` | Monocle/Lens.swift:91-101 | For a lens obeying PutPut, a second lifted write overrides the first if and only if `ys1` is at least as long as the shorter of `xs` and `ys2` |
| `LensLaws.LiftNotPutPut` | Monocle/Lens.swift:96-98 | No lifted lens obeys PutPut: writing no parts first empties the wholes that a second write would fill |
| `LensLaws.SplitComponentwise` | Monocle/Lens.swift:105-115 | Each component of a split read or write depends only on the same component of the whole and of the part |
| `LensLaws.SplitLawful` | Monocle/Lens.swift:105-115 | A split of two lenses obeys each law that both halves obey |
| `LensLaws.SplitReflectsLaws` | Monocle/Lens.swift:105-115 | Over inhabited types, a split obeying a law makes both halves obey it |
| `LensLaws.FanoutGetPut` | Monocle/Lens.swift:128-138 | A fanout of two lenses obeying GetPut obeys GetPut |
| `LensLaws.FanoutPutGet` | Monocle/Lens.swift:128-138 | A fanout obeys PutGet when both lenses obey PutGet and writes through the right lens leave the left lens's part unchanged |
| `LensLaws.FanoutPutGetOnlyIf` | Monocle/Lens.swift:128-138 | That condition is necessary: if the left lens obeys GetPut and the fanout obeys PutGet, both lenses obey PutGet and the right does not interfere with the left |
| `LensLaws.FanoutPutGetOnlyIfNeedsGetPut` | Monocle/Lens.swift:133-135 | The GetPut side condition is needed: a fanout can obey PutGet while its right lens's writes change the left lens's part |
| `LensLaws.FanoutPutPut` | Monocle/Lens.swift:128-138 | A fanout obeys PutPut when both lenses obey PutPut and their writes commute |
| `LensLaws.FanoutRightWins` | Monocle/Lens.swift:133-135 | Writes run left then right: fanning a lens out with itself, the right part written is what both sides read back |
| `LensLaws.FanoutSelfNotPutGet` | Monocle/Lens.swift:133-135 | So a lens fanned out with itself breaks PutGet whenever it has two distinct parts |
| `LensSpec.NewOuter` | Specs/LensSpec.swift:27-30 | Definition, no contract: the `Outer` initializer with its defaults `count: 0` and `inner: Inner(count: 0)`. Used by `BasicScenario` |
| `LensSpec.OuterCount` | Specs/LensSpec.swift:38-40 | Definition, no contract: the `Outer.count` field lens, built with `FromMutator`. Characterised by `FixturesLawful` |
| `LensSpec.OuterInner` | Specs/LensSpec.swift:42-44 | Definition, no contract: the `Outer.inner` field lens, built with `FromMutator`. Characterised by `FixturesLawful` |
| `LensSpec.InnerCount` | Specs/LensSpec.swift:48-50 | Definition, no contract: the `Inner.count` field lens, built with `FromMutator`. Characterised by `FixturesLawful` |
| `LensSpec.OuterInnerCount` | Specs/LensSpec.swift:76 | Definition, no contract: `OuterLenses.inner >>> InnerLenses.count`. Characterised by `OuterInnerCountLawful` and `ComposedScenario` |
| `LensSpec.FixturesLawful` | Specs/LensSpec.swift:37-51 | The test's field lenses, built with the mutator initializer, obey all three laws; writes to the two `Outer` fields do not interfere with each other and commute |
| `LensSpec.OuterInnerCountLawful` | Specs/LensSpec.swift:73-84 | `inner >>> count` is lawful, and writing through it never changes `Outer.count` |
| `LensSpec.BasicScenario` | Specs/LensSpec.swift:55-70 | `get`, `set` and `mod (+2)` through `Outer.count` on `Outer(count: 2)` give 2, `Outer(count: 4)` and `Outer(count: 4)` |
| `LensSpec.ComposedScenario` | Specs/LensSpec.swift:73-88 | Through `inner >>> count` on `{0, {2}}`: `get` gives 2, `set 4` and `mod (+2)` give `{0, {4}}` |
| `LensSpec.LiftScenario` | Specs/LensSpec.swift:91-127 | The lifted `Inner.count` reads `[1, 2, 3, 4]`, writes `[2, 4, 6, 8]` element-wise, and writing `[42]` leaves one element |
| `LensSpec.SplitScenario` | Specs/LensSpec.swift:130-150 | `count *** count` reads `(2, 9)`; writing `(12, 34)` gives counts 12 and 34 and keeps `inner.count` at 4 |
| `LensSpec.FanoutScenario` | Specs/LensSpec.swift:152-170 | `count &&& (inner >>> count)` on `{0, {2}}` reads `(0, 2)`; writing `(12, 34)` gives `{12, {34}}` |
| `LensSpec.FanoutFixtureLawful` | Specs/LensSpec.swift:152-155 | The fanout used in the tests obeys all three laws, by the fanout lemmas |

## Left out

- `Get`, `Set` and `Mod` carry no contract of their own. They are one-line definitions; what they promise is stated by the curried and optional overloads and by `ModGet`, `ModIdentity` and `ModMod`.
- The `infix operator` declarations only set precedence and associativity. That is parsing, so the operators are named functions here.
- Swift's `inout` copy is a value copy only for value-type wholes (structs and enums, like the test records). The mutator is modelled as a function that returns the updated copy, so the caller's whole cannot change.
- FromMutator: class-typed wholes are not modelled. For those the source copies only the reference, so the mutator changes the caller's object and `set` returns that same object.
- Swift's `Int` is 64 bits wide. The fixture counts are unbounded integers here. The test values are small, so no overflow is involved.
- The Quick/Nimble harness and the hand-written `==` on `Inner` and `Outer` are left out. Dafny's structural equality on datatypes replaces the latter.
- Swift closures have no equality. Two lenses are compared pointwise with `Equivalent`, and the operator aliases are stated equal to the combinator they call.
