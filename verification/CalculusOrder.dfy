/** Order and repetition: with semilattice strategies the fields and priority of a fold depend
    only on which claims it has seen, and the tag and kind on order in known ways only. */
module CalculusOrder {
  import opened Values
  import opened Calculus
  import opened CalculusAlgebra

  predicate SameContent(a: Claim, b: Claim) { a.fields == b.fields && a.priority == b.priority }

  predicate Solid(claims: seq<Claim>) { forall k | 0 <= k < |claims| :: !IsBottom(claims[k]) }

  function FoldAll(claims: seq<Claim>, ctx: Context, registry: Registry): Claim { Fold(BOTTOM, claims, ctx, registry) }

  lemma SemilatticeAssociates(registry: Registry, ctx: Context)
    requires SemilatticeRegistry(registry, ctx)
    ensures AssociativeRegistry(registry, ctx)
  {}

  lemma FoldOne(c: Claim, ctx: Context, registry: Registry)
    ensures FoldAll([c], ctx, registry) == c
  {
    assert [c][..|[c]| - 1] == [];
    assert Fold(BOTTOM, [], ctx, registry) == BOTTOM && IsBottom(BOTTOM);
  }

  lemma {:induction false} FoldSolid(claims: seq<Claim>, ctx: Context, registry: Registry)
    requires Solid(claims) && claims != []
    ensures !IsBottom(FoldAll(claims, ctx, registry))
  {
    if |claims| > 1 { FoldSolid(claims[..|claims| - 1], ctx, registry); }
  }

  // -- content ------------------------------------------------------------------------

  lemma FieldJoins(e: Entry, ctx: Context, a: Option<FieldValue>, b: Option<FieldValue>)
    requires Semilattice(e, ctx) && (a.Some? ==> e.domain(a.value)) && (b.Some? ==> e.domain(b.value))
    ensures MergeField(e, a, b, ctx) == MergeField(e, b, a, ctx) && MergeField(e, a, a, ctx) == a
  {
    if a.Some? && b.Some? { assert JoinsAt(e, ctx, a.value, b.value); }
    if a.Some? { assert JoinsAt(e, ctx, a.value, a.value); }
  }

  lemma FieldsJoin(a: Claim, b: Claim, ctx: Context, registry: Registry)
    requires SemilatticeRegistry(registry, ctx) && Typed(a, registry) && Typed(b, registry)
    ensures MergeFields(a, b, ctx, registry) == MergeFields(b, a, ctx, registry)
    ensures MergeFields(a, a, ctx, registry) == a.fields
  {
    forall name ensures var e := Lookup(registry, name);
      MergeField(e, FieldOf(a, name), FieldOf(b, name), ctx) == MergeField(e, FieldOf(b, name), FieldOf(a, name), ctx)
      && MergeField(e, FieldOf(a, name), FieldOf(a, name), ctx) == FieldOf(a, name)
    {
      FieldJoins(Lookup(registry, name), ctx, FieldOf(a, name), FieldOf(b, name));
    }
    assert MergeFields(a, b, ctx, registry).Keys == MergeFields(b, a, ctx, registry).Keys;
    assert MergeFields(a, a, ctx, registry).Keys == a.fields.Keys;
  }

  lemma ContentCommutes(a: Claim, b: Claim, ctx: Context, registry: Registry)
    requires SemilatticeRegistry(registry, ctx) && Typed(a, registry) && Typed(b, registry) && !IsBottom(a) && !IsBottom(b)
    ensures SameContent(Merge(a, b, ctx, registry), Merge(b, a, ctx, registry))
    ensures SameContent(Merge(a, a, ctx, registry), a)
  {
    FieldsJoin(a, b, ctx, registry);
  }

  lemma ContentDecides(a: Claim, a': Claim, b: Claim, b': Claim, ctx: Context, registry: Registry)
    requires SameContent(a, a') && SameContent(b, b') && !IsBottom(a) && !IsBottom(a') && !IsBottom(b) && !IsBottom(b')
    ensures SameContent(Merge(a, b, ctx, registry), Merge(a', b', ctx, registry))
  {
    assert MergeFields(a, b, ctx, registry) == MergeFields(a', b', ctx, registry);
  }

  /** Repeating the last claim, or swapping the last two, leaves the content alone. */
  lemma TailAbsorbs(f: Claim, z: Claim, x: Claim, ctx: Context, registry: Registry)
    requires SemilatticeRegistry(registry, ctx) && Typed(f, registry) && Typed(z, registry) && Typed(x, registry)
    requires !IsBottom(f) && !IsBottom(z) && !IsBottom(x)
    ensures SameContent(Merge(Merge(f, z, ctx, registry), z, ctx, registry), Merge(f, z, ctx, registry))
    ensures SameContent(Merge(Merge(f, z, ctx, registry), x, ctx, registry), Merge(Merge(f, x, ctx, registry), z, ctx, registry))
  {
    SemilatticeAssociates(registry, ctx);
    MergeAssociates(f, z, z, ctx, registry);
    MergeAssociates(f, z, x, ctx, registry);
    MergeAssociates(f, x, z, ctx, registry);
    ContentCommutes(z, x, ctx, registry);
    ContentDecides(f, f, Merge(z, z, ctx, registry), z, ctx, registry);
    ContentDecides(f, f, Merge(z, x, ctx, registry), Merge(x, z, ctx, registry), ctx, registry);
  }

  /** A claim that was folded before adds nothing. */
  lemma {:induction false} Absorbs(claims: seq<Claim>, x: Claim, ctx: Context, registry: Registry)
    requires SemilatticeRegistry(registry, ctx) && AllTyped(claims, registry) && Solid(claims) && x in claims
    ensures SameContent(Merge(FoldAll(claims, ctx, registry), x, ctx, registry), FoldAll(claims, ctx, registry))
  {
    SemilatticeAssociates(registry, ctx);
    var before, z := claims[..|claims| - 1], claims[|claims| - 1];
    assert AllTyped(before, registry) && Typed(z, registry) && Typed(x, registry);
    if before == [] {
      assert claims == [z];
      FoldOne(z, ctx, registry);
      ContentCommutes(z, z, ctx, registry);
    } else {
      var f := FoldAll(before, ctx, registry);
      FoldSolid(before, ctx, registry);
      FoldTyped(BOTTOM, before, ctx, registry);
      TailAbsorbs(f, z, x, ctx, registry);
      if x != z {
        assert x in before;
        Absorbs(before, x, ctx, registry);
        ContentDecides(Merge(f, x, ctx, registry), f, z, z, ctx, registry);
      }
    }
  }

  lemma {:induction false} AbsorbsAll(claims: seq<Claim>, more: seq<Claim>, ctx: Context, registry: Registry)
    requires SemilatticeRegistry(registry, ctx) && AllTyped(claims, registry) && Solid(claims)
    requires forall x | x in more :: x in claims
    ensures SameContent(FoldAll(claims + more, ctx, registry), FoldAll(claims, ctx, registry))
    decreases |more|
  {
    if more == [] {
      assert claims + more == claims;
    } else {
      var before, x := more[..|more| - 1], more[|more| - 1];
      var all := claims + more;
      assert all[..|all| - 1] == claims + before && x in claims;
      AbsorbsAll(claims, before, ctx, registry);
      Absorbs(claims, x, ctx, registry);
      forall k | 0 <= k < |claims + before| ensures !IsBottom((claims + before)[k]) {
        if k >= |claims| { assert before[k - |claims|] in more; }
      }
      FoldSolid(claims + before, ctx, registry);
      FoldSolid(claims, ctx, registry);
      ContentDecides(FoldAll(claims + before, ctx, registry), FoldAll(claims, ctx, registry), x, x, ctx, registry);
    }
  }

  lemma SwapsHalves(a: seq<Claim>, b: seq<Claim>, ctx: Context, registry: Registry)
    requires SemilatticeRegistry(registry, ctx) && AllTyped(a, registry) && AllTyped(b, registry)
    requires Solid(a) && Solid(b) && a != [] && b != []
    ensures SameContent(FoldAll(a + b, ctx, registry), FoldAll(b + a, ctx, registry))
  {
    SemilatticeAssociates(registry, ctx);
    FoldFromSnapshot(BOTTOM, a, b, ctx, registry);
    FoldFromSnapshot(BOTTOM, b, a, ctx, registry);
    FoldSolid(a, ctx, registry);
    FoldSolid(b, ctx, registry);
    FoldTyped(BOTTOM, a, ctx, registry);
    FoldTyped(BOTTOM, b, ctx, registry);
    ContentCommutes(FoldAll(a, ctx, registry), FoldAll(b, ctx, registry), ctx, registry);
  }

  lemma EverywhereSemilattice(a: seq<Claim>, b: seq<Claim>, ctx: Context, registry: Registry)
    requires SemilatticeRegistry(registry, ctx) && AllTyped(a, registry) && AllTyped(b, registry) && Solid(a) && Solid(b)
    requires forall x :: x in a <==> x in b
    ensures SameContent(FoldAll(a, ctx, registry), FoldAll(b, ctx, registry))
  {
    if b != [] {
      SameClaims(b, a);
      AbsorbsAll(a, b, ctx, registry);
      AbsorbsAll(b, a, ctx, registry);
      SwapsHalves(a, b, ctx, registry);
    } else if a != [] {
      SameClaims(a, b);
    }
  }

  // -- strategies in use --------------------------------------------------------------------

  /** The names of the fields that some claim has. */
  function Names(claims: seq<Claim>): set<string> {
    if claims == [] then {} else Names(claims[..|claims| - 1]) + claims[|claims| - 1].fields.Keys
  }

  /** The registry cut down to some names; whatever else is asked for is a maximum. */
  function Cut(registry: Registry, names: set<string>): Registry {
    Registry(map name | name in names :: Lookup(registry, name), MAX_ENTRY)
  }

  lemma {:induction false} NamesHold(claims: seq<Claim>, k: nat)
    requires k < |claims|
    ensures claims[k].fields.Keys <= Names(claims)
  {
    if k < |claims| - 1 {
      assert claims[..|claims| - 1][k] == claims[k];
      NamesHold(claims[..|claims| - 1], k);
    }
  }

  lemma {:induction false} NamesOfSame(a: seq<Claim>, b: seq<Claim>)
    requires forall x | x in a :: x in b
    ensures Names(a) <= Names(b)
  {
    if a != [] {
      var last := a[|a| - 1];
      assert last in b;
      var k :| 0 <= k < |b| && b[k] == last;
      NamesHold(b, k);
      NamesOfSame(a[..|a| - 1], b);
    }
  }

  /** Merging two claims asks only for the strategies of their fields. */
  lemma MergeCut(a: Claim, b: Claim, ctx: Context, registry: Registry, names: set<string>)
    requires a.fields.Keys <= names && b.fields.Keys <= names
    ensures Merge(a, b, ctx, registry) == Merge(a, b, ctx, Cut(registry, names))
    ensures Merge(a, b, ctx, registry).fields.Keys <= names
  {
    assert forall name | name in names :: Lookup(Cut(registry, names), name) == Lookup(registry, name);
    assert MergeFields(a, b, ctx, registry) == MergeFields(a, b, ctx, Cut(registry, names));
  }

  lemma {:induction false} FoldCut(claims: seq<Claim>, ctx: Context, registry: Registry, names: set<string>)
    requires Names(claims) <= names
    ensures FoldAll(claims, ctx, registry) == FoldAll(claims, ctx, Cut(registry, names))
    ensures FoldAll(claims, ctx, registry).fields.Keys <= names
  {
    if claims != [] {
      var before := claims[..|claims| - 1];
      FoldCut(before, ctx, registry, names);
      MergeCut(FoldAll(before, ctx, registry), claims[|claims| - 1], ctx, registry, names);
    }
  }

  lemma TypedCut(claims: seq<Claim>, registry: Registry, names: set<string>)
    requires AllTyped(claims, registry) && Names(claims) <= names
    ensures AllTyped(claims, Cut(registry, names))
  {
    forall k | 0 <= k < |claims| ensures Typed(claims[k], Cut(registry, names)) { NamesHold(claims, k); }
  }

  lemma CutIsSemilattice(registry: Registry, names: set<string>, ctx: Context)
    requires forall name | name in names :: Semilattice(Lookup(registry, name), ctx)
    ensures SemilatticeRegistry(Cut(registry, names), ctx)
  {
    MaxMinUnion(ctx);
  }

  /** Where the strategy of every field in use is a semilattice, two tapes of the same claims,
      in any order and with any repetitions, fold to the same fields and priority. What the
      registry holds for other names, and its fallback, do not matter. */
  lemma OrderAndRepetitionVanish(a: seq<Claim>, b: seq<Claim>, ctx: Context, registry: Registry)
    requires forall name | name in Names(a) :: Semilattice(Lookup(registry, name), ctx)
    requires AllTyped(a, registry) && AllTyped(b, registry) && Solid(a) && Solid(b)
    requires forall x :: x in a <==> x in b
    ensures SameContent(FoldAll(a, ctx, registry), FoldAll(b, ctx, registry))
  {
    var names := Names(a);
    NamesOfSame(b, a);
    CutIsSemilattice(registry, names, ctx);
    TypedCut(a, registry, names);
    TypedCut(b, registry, names);
    FoldCut(a, ctx, registry, names);
    FoldCut(b, ctx, registry, names);
    EverywhereSemilattice(a, b, ctx, Cut(registry, names));
  }

  lemma SameClaims(a: seq<Claim>, b: seq<Claim>)
    requires a != [] && forall x :: x in a <==> x in b
    ensures b != []
  {
    assert a[0] in a;
  }

  // -- tag and kind ----------------------------------------------------------------------

  /** The first claim of the highest priority. */
  predicate Leads(claims: seq<Claim>, l: nat) {
    && l < |claims|
    && (forall k | 0 <= k < |claims| :: claims[k].priority <= claims[l].priority)
    && (forall k | 0 <= k < l :: claims[k].priority < claims[l].priority)
  }

  /** The tag of a fold is the tag of the first claim of the highest priority. */
  lemma {:induction false} TagOfFold(claims: seq<Claim>, l: nat, ctx: Context, registry: Registry)
    requires Solid(claims) && Leads(claims, l)
    ensures FoldAll(claims, ctx, registry).tag == claims[l].tag && FoldAll(claims, ctx, registry).priority == claims[l].priority
  {
    if |claims| > 1 {
      var before := claims[..|claims| - 1];
      FoldSolid(before, ctx, registry);
      var m := LeaderOf(before);
      TagOfFold(before, m, ctx, registry);
      if l < |before| { assert m == l; }
    } else {
      assert claims == [claims[0]];
      FoldOne(claims[0], ctx, registry);
    }
  }

  lemma {:induction false} LeaderOf(claims: seq<Claim>) returns (l: nat)
    requires claims != []
    ensures Leads(claims, l)
  {
    if |claims| == 1 {
      l := 0;
    } else {
      var m := LeaderOf(claims[..|claims| - 1]);
      l := if claims[m].priority >= claims[|claims| - 1].priority then m else |claims| - 1;
    }
  }

  /** The kind of a fold is the first kind that says something, or else the last one. */
  lemma {:induction false} KindOfFold(claims: seq<Claim>, k: nat, ctx: Context, registry: Registry)
    requires Solid(claims) && k < |claims| && (forall j | 0 <= j < k :: !Truthy(claims[j].kind))
    requires Truthy(claims[k].kind) || k == |claims| - 1
    ensures FoldAll(claims, ctx, registry).kind == claims[k].kind
  {
    if |claims| > 1 {
      var before := claims[..|claims| - 1];
      FoldSolid(before, ctx, registry);
      KindOfFold(before, if k < |before| then k else |before| - 1, ctx, registry);
    } else {
      assert claims == [claims[0]];
      FoldOne(claims[0], ctx, registry);
    }
  }

  /** Kinds agree when both say the same, neither says anything in the same way, or only one
      says something. */
  predicate KindsAgree(a: Option<string>, b: Option<string>) { Truthy(a) == Truthy(b) ==> a == b }

  /** The strategies of the fields that both claims fill give the same either way round. */
  predicate FieldsCommute(a: Claim, b: Claim, ctx: Context, registry: Registry) {
    forall name | name in a.fields && FieldOf(a, name).Some? && FieldOf(b, name).Some? ::
      var e, u, v := Lookup(registry, name), FieldOf(a, name).value, FieldOf(b, name).value;
      e.apply(u, v, ctx) == e.apply(v, u, ctx)
  }

  lemma FieldsCommuteExactly(a: Claim, b: Claim, ctx: Context, registry: Registry)
    ensures MergeFields(a, b, ctx, registry) == MergeFields(b, a, ctx, registry) <==> FieldsCommute(a, b, ctx, registry)
  {
    var ab, ba := MergeFields(a, b, ctx, registry), MergeFields(b, a, ctx, registry);
    assert ab.Keys == ba.Keys;
    if ab == ba {
      forall name | name in a.fields && FieldOf(a, name).Some? && FieldOf(b, name).Some?
        ensures var e, u, v := Lookup(registry, name), FieldOf(a, name).value, FieldOf(b, name).value;
          e.apply(u, v, ctx) == e.apply(v, u, ctx)
      {
        assert ab[name] == ba[name];
      }
    }
  }

  /** The promised commutativity, for every registry: it holds exactly when the strategies of
      the shared fields commute on their two values, the priorities differ or the tags agree,
      and the kinds agree. Ties are broken to the left. */
  lemma MergeCommutesExactly(a: Claim, b: Claim, ctx: Context, registry: Registry)
    requires !IsBottom(a) && !IsBottom(b)
    ensures Merge(a, b, ctx, registry) == Merge(b, a, ctx, registry) <==>
            FieldsCommute(a, b, ctx, registry) && (a.priority != b.priority || a.tag == b.tag) && KindsAgree(a.kind, b.kind)
  {
    FieldsCommuteExactly(a, b, ctx, registry);
  }

  /** Two claims of one priority under different tags merge to either tag. */
  lemma TagDependsOnOrder(ctx: Context)
    ensures var registry := Registry(map[], MAX_ENTRY);
            var a, b := Claim("observation", map[], None, 0), Claim("outcome", map[], None, 0);
            SemilatticeRegistry(registry, ctx) && Merge(a, b, ctx, registry) != Merge(b, a, ctx, registry)
  {
    MaxMinUnion(ctx);
    assert |"observation"| == 11 && |"outcome"| == 7 && |BOTTOM_TAG| == 6;
  }
}
