/** The algebra of the claim calculus: when merge is associative, what folding keeps, and how
    far the order and repetition of claims can matter. */
module CalculusAlgebra {
  import opened Values
  import opened Calculus

  // -- strategies ---------------------------------------------------------------------

  predicate AssociatesAt(e: Entry, ctx: Context, a: FieldValue, b: FieldValue, c: FieldValue) {
    && e.domain(e.apply(a, b, ctx))
    && e.apply(e.apply(a, b, ctx), c, ctx) == e.apply(a, e.apply(b, c, ctx), ctx)
  }

  /** Associative, and closed, on its domain. */
  ghost predicate Associative(e: Entry, ctx: Context) {
    forall a, b, c | e.domain(a) && e.domain(b) && e.domain(c) :: AssociatesAt(e, ctx, a, b, c)
  }

  predicate JoinsAt(e: Entry, ctx: Context, a: FieldValue, b: FieldValue) {
    e.apply(a, b, ctx) == e.apply(b, a, ctx) && e.apply(a, a, ctx) == a
  }

  /** Associative, commutative and idempotent on its domain. */
  ghost predicate Semilattice(e: Entry, ctx: Context) {
    Associative(e, ctx) && forall a, b | e.domain(a) && e.domain(b) :: JoinsAt(e, ctx, a, b)
  }

  lemma MaxMinUnion(ctx: Context)
    ensures Semilattice(MAX_ENTRY, ctx) && Semilattice(MIN_ENTRY, ctx) && Semilattice(UNION_ENTRY, ctx)
  {
    forall a: FieldValue, b: FieldValue, c: FieldValue | a.Tags? && b.Tags? && c.Tags? ensures AssociatesAt(UNION_ENTRY, ctx, a, b, c) {
      assert (a.tags + b.tags) + c.tags == a.tags + (b.tags + c.tags);
    }
    forall a: FieldValue, b: FieldValue | a.Tags? && b.Tags? ensures JoinsAt(UNION_ENTRY, ctx, a, b) {
      assert a.tags + b.tags == b.tags + a.tags && a.tags + a.tags == a.tags;
    }
  }

  lemma Ordered(ctx: Context)
    ensures Associative(APPEND_ENTRY, ctx) && Associative(KEEP_ENTRY, ctx)
    ensures Associative(LAST_WRITE_ENTRY, ctx) && Associative(ADAPTIVE_ENTRY, ctx)
  {
    forall a: FieldValue, b: FieldValue, c: FieldValue | a.Items? && b.Items? && c.Items? ensures AssociatesAt(APPEND_ENTRY, ctx, a, b, c) {
      assert (a.items + b.items) + c.items == a.items + (b.items + c.items);
    }
  }

  lemma OutcomeAt(a: map<string, set<Value>>, b: map<string, set<Value>>, k: string)
    ensures OutcomesIn(MergeOutcomes(a, b), k) == OutcomesIn(a, k) + OutcomesIn(b, k)
    ensures k in MergeOutcomes(a, b) <==> k in a || k in b
  {}

  lemma OutcomesAssociate(a: map<string, set<Value>>, b: map<string, set<Value>>, c: map<string, set<Value>>)
    ensures MergeOutcomes(MergeOutcomes(a, b), c) == MergeOutcomes(a, MergeOutcomes(b, c))
  {
    var l, r := MergeOutcomes(MergeOutcomes(a, b), c), MergeOutcomes(a, MergeOutcomes(b, c));
    forall k ensures (k in l <==> k in r) && OutcomesIn(l, k) == OutcomesIn(r, k) {
      OutcomeAt(a, b, k);
      OutcomeAt(b, c, k);
      OutcomeAt(MergeOutcomes(a, b), c, k);
      OutcomeAt(a, MergeOutcomes(b, c), k);
    }
    SameOutcomes(l, r);
  }

  lemma SameOutcomes(l: map<string, set<Value>>, r: map<string, set<Value>>)
    requires forall k :: (k in l <==> k in r) && OutcomesIn(l, k) == OutcomesIn(r, k)
    ensures l == r
  {
    forall k | k in l ensures l[k] == r[k] { assert OutcomesIn(l, k) == OutcomesIn(r, k); }
  }

  lemma OutcomesJoin(a: map<string, set<Value>>, b: map<string, set<Value>>)
    ensures MergeOutcomes(a, b) == MergeOutcomes(b, a) && MergeOutcomes(a, a) == a
  {
    var l, r := MergeOutcomes(a, b), MergeOutcomes(b, a);
    assert l.Keys == r.Keys && MergeOutcomes(a, a).Keys == a.Keys;
    forall k | k in l ensures l[k] == r[k] { assert OutcomesIn(a, k) + OutcomesIn(b, k) == OutcomesIn(b, k) + OutcomesIn(a, k); }
    forall k | k in a ensures MergeOutcomes(a, a)[k] == a[k] { assert a[k] + a[k] == a[k]; }
  }

  lemma ExpectationsSemilattice(ctx: Context)
    ensures Semilattice(EXPECTATIONS_ENTRY, ctx)
  {
    forall a: FieldValue, b: FieldValue, c: FieldValue | a.Expectations? && b.Expectations? && c.Expectations?
      ensures AssociatesAt(EXPECTATIONS_ENTRY, ctx, a, b, c)
    {
      OutcomesAssociate(a.outcomes, b.outcomes, c.outcomes);
    }
    forall a: FieldValue, b: FieldValue | a.Expectations? && b.Expectations? ensures JoinsAt(EXPECTATIONS_ENTRY, ctx, a, b) {
      OutcomesJoin(a.outcomes, b.outcomes);
    }
  }

  // -- counter_max: where it is and is not a semilattice ---------------------------------

  /** A count that is missing in the middle and negative on both sides is read as zero there. */
  predicate Skips(a: map<string, int>, b: map<string, int>, c: map<string, int>, k: string) {
    k in a && k !in b && k in c && a[k] < 0 && c[k] < 0
  }

  lemma CountsAssociateAt(a: map<string, int>, b: map<string, int>, c: map<string, int>, k: string)
    requires k in MaxCounts(MaxCounts(a, b), c)
    ensures k in MaxCounts(a, MaxCounts(b, c))
    ensures MaxCounts(MaxCounts(a, b), c)[k] == MaxCounts(a, MaxCounts(b, c))[k] <==> !Skips(a, b, c, k)
  {}

  /** `counter_max` associates exactly on the counters where no count is negative on both
      sides of a counter that does not have it; so on all non-negative counters. */
  lemma CounterMaxAssociatesExactly(a: map<string, int>, b: map<string, int>, c: map<string, int>)
    ensures MaxCounts(MaxCounts(a, b), c) == MaxCounts(a, MaxCounts(b, c)) <==> forall k :: !Skips(a, b, c, k)
  {
    var l, r := MaxCounts(MaxCounts(a, b), c), MaxCounts(a, MaxCounts(b, c));
    assert l.Keys == r.Keys;
    forall k | k in l ensures l[k] == r[k] <==> !Skips(a, b, c, k) { CountsAssociateAt(a, b, c, k); }
    if exists k :: Skips(a, b, c, k) {
      var k :| Skips(a, b, c, k);
      assert k in l && l[k] != r[k];
    }
  }

  lemma CountsCommuteAt(a: map<string, int>, b: map<string, int>, k: string)
    requires k in a || k in b
    ensures k in MaxCounts(a, b) && k in MaxCounts(b, a)
    ensures MaxCounts(a, b)[k] == MaxCounts(b, a)[k] <==> ((k in a && k in b) || (CountIn(a, k) >= 0 && CountIn(b, k) >= 0))
  {}

  /** `counter_max` commutes exactly when no count of only one of the two is negative. */
  lemma CounterMaxCommutesExactly(a: map<string, int>, b: map<string, int>)
    ensures MaxCounts(a, b) == MaxCounts(b, a) <==>
            forall k | k in a.Keys + b.Keys :: (k in a && k in b) || (CountIn(a, k) >= 0 && CountIn(b, k) >= 0)
  {
    var l, r := MaxCounts(a, b), MaxCounts(b, a);
    assert l.Keys == r.Keys;
    forall k | k in l ensures l[k] == r[k] <==> ((k in a && k in b) || (CountIn(a, k) >= 0 && CountIn(b, k) >= 0)) {
      CountsCommuteAt(a, b, k);
    }
    if l == r {
      assert forall k | k in a.Keys + b.Keys :: k in l;
    }
  }

  /** Negative counters break both laws that the documentation promises. */
  lemma CounterMaxOnNegatives()
    ensures MaxCounts(MaxCounts(map["k" := -5], map[]), map["k" := -1]) != MaxCounts(map["k" := -5], MaxCounts(map[], map["k" := -1]))
    ensures MaxCounts(map[], map["k" := -1]) != MaxCounts(map["k" := -1], map[])
  {
    var none: map<string, int> := map[];
    var low, lower := map["k" := -1], map["k" := -5];
    assert Skips(lower, none, low, "k");
    CounterMaxAssociatesExactly(lower, none, low);
    assert "k" in none.Keys + low.Keys && CountIn(low, "k") < 0;
    CounterMaxCommutesExactly(none, low);
  }

  lemma CounterMaxSemilattice(ctx: Context)
    ensures Semilattice(COUNTER_MAX_ENTRY, ctx)
  {
    forall a, b, c | NonNegative(a) && NonNegative(b) && NonNegative(c) ensures AssociatesAt(COUNTER_MAX_ENTRY, ctx, a, b, c) {
      CounterMaxAssociatesExactly(a.counts, b.counts, c.counts);
    }
    forall a, b | NonNegative(a) && NonNegative(b) ensures JoinsAt(COUNTER_MAX_ENTRY, ctx, a, b) {
      CounterMaxCommutesExactly(a.counts, b.counts);
      assert MaxCounts(a.counts, a.counts) == a.counts;
    }
  }

  // -- registries -----------------------------------------------------------------------

  ghost predicate BuiltIn(e: Entry) {
    || e == MAX_ENTRY || e == MIN_ENTRY || e == UNION_ENTRY || e == APPEND_ENTRY || e == KEEP_ENTRY
    || e == LAST_WRITE_ENTRY || e == COUNTER_MAX_ENTRY || e == EXPECTATIONS_ENTRY || e == ADAPTIVE_ENTRY
  }

  /** All nine built-in strategies are associative at a fixed belief. */
  lemma BuiltInsAssociate(e: Entry, ctx: Context)
    requires BuiltIn(e)
    ensures Associative(e, ctx)
  {
    if e == MAX_ENTRY || e == MIN_ENTRY || e == UNION_ENTRY { MaxMinUnion(ctx); }
    else if e == COUNTER_MAX_ENTRY { CounterMaxSemilattice(ctx); }
    else if e == EXPECTATIONS_ENTRY { ExpectationsSemilattice(ctx); }
    else { Ordered(ctx); }
  }

  ghost predicate AssociativeRegistry(registry: Registry, ctx: Context) {
    Associative(registry.fallback, ctx) && forall name | name in registry.table :: Associative(registry.table[name], ctx)
  }

  ghost predicate SemilatticeRegistry(registry: Registry, ctx: Context) {
    Semilattice(registry.fallback, ctx) && forall name | name in registry.table :: Semilattice(registry.table[name], ctx)
  }

  /** Every field holds None or a value its strategy is meant for. */
  ghost predicate Typed(c: Claim, registry: Registry) {
    forall name | FieldOf(c, name).Some? :: Lookup(registry, name).domain(FieldOf(c, name).value)
  }

  ghost predicate AllTyped(claims: seq<Claim>, registry: Registry) {
    forall k | 0 <= k < |claims| :: Typed(claims[k], registry)
  }

  // -- associativity ----------------------------------------------------------------------

  lemma FieldAssociates(e: Entry, ctx: Context, a: Option<FieldValue>, b: Option<FieldValue>, c: Option<FieldValue>)
    requires Associative(e, ctx)
    requires (a.Some? ==> e.domain(a.value)) && (b.Some? ==> e.domain(b.value)) && (c.Some? ==> e.domain(c.value))
    ensures MergeField(e, MergeField(e, a, b, ctx), c, ctx) == MergeField(e, a, MergeField(e, b, c, ctx), ctx)
    ensures MergeField(e, a, b, ctx).Some? ==> e.domain(MergeField(e, a, b, ctx).value)
  {
    if a.Some? && b.Some? {
      if c.Some? { assert AssociatesAt(e, ctx, a.value, b.value, c.value); }
      else { assert AssociatesAt(e, ctx, a.value, b.value, b.value); }
    }
  }

  lemma LookupAssociates(registry: Registry, ctx: Context, name: string)
    requires AssociativeRegistry(registry, ctx)
    ensures Associative(Lookup(registry, name), ctx)
  {}

  lemma MergedField(a: Claim, b: Claim, ctx: Context, registry: Registry, name: string)
    requires !IsBottom(a) && !IsBottom(b)
    ensures FieldOf(Merge(a, b, ctx, registry), name) == MergeField(Lookup(registry, name), FieldOf(a, name), FieldOf(b, name), ctx)
    ensures name in Merge(a, b, ctx, registry).fields <==> name in a.fields || name in b.fields
  {}

  lemma MergeTyped(a: Claim, b: Claim, ctx: Context, registry: Registry)
    requires AssociativeRegistry(registry, ctx) && Typed(a, registry) && Typed(b, registry)
    ensures Typed(Merge(a, b, ctx, registry), registry)
  {
    if !IsBottom(a) && !IsBottom(b) {
      forall name | FieldOf(Merge(a, b, ctx, registry), name).Some?
        ensures Lookup(registry, name).domain(FieldOf(Merge(a, b, ctx, registry), name).value)
      {
        MergedField(a, b, ctx, registry, name);
        LookupAssociates(registry, ctx, name);
        FieldAssociates(Lookup(registry, name), ctx, FieldOf(a, name), FieldOf(b, name), None);
      }
    }
  }

  lemma FieldsAssociate(a: Claim, b: Claim, c: Claim, ctx: Context, registry: Registry)
    requires AssociativeRegistry(registry, ctx) && Typed(a, registry) && Typed(b, registry) && Typed(c, registry)
    requires !IsBottom(a) && !IsBottom(b) && !IsBottom(c)
    ensures Merge(Merge(a, b, ctx, registry), c, ctx, registry).fields == Merge(a, Merge(b, c, ctx, registry), ctx, registry).fields
  {
    var l, r := Merge(Merge(a, b, ctx, registry), c, ctx, registry), Merge(a, Merge(b, c, ctx, registry), ctx, registry);
    forall name ensures (name in l.fields <==> name in r.fields) && FieldOf(l, name) == FieldOf(r, name) {
      MergedField(a, b, ctx, registry, name);
      MergedField(b, c, ctx, registry, name);
      MergedField(Merge(a, b, ctx, registry), c, ctx, registry, name);
      MergedField(a, Merge(b, c, ctx, registry), ctx, registry, name);
      LookupAssociates(registry, ctx, name);
      FieldAssociates(Lookup(registry, name), ctx, FieldOf(a, name), FieldOf(b, name), FieldOf(c, name));
    }
    forall name | name in l.fields ensures l.fields[name] == r.fields[name] { assert FieldOf(l, name) == FieldOf(r, name); }
    assert l.fields.Keys == r.fields.Keys;
  }

  /** Merge is associative, exactly (tag, fields with their Nones, kind and priority), for
      every registry of associative strategies. */
  lemma MergeAssociates(a: Claim, b: Claim, c: Claim, ctx: Context, registry: Registry)
    requires AssociativeRegistry(registry, ctx) && Typed(a, registry) && Typed(b, registry) && Typed(c, registry)
    ensures Merge(Merge(a, b, ctx, registry), c, ctx, registry) == Merge(a, Merge(b, c, ctx, registry), ctx, registry)
  {
    if !IsBottom(a) && !IsBottom(b) && !IsBottom(c) { FieldsAssociate(a, b, c, ctx, registry); }
  }

  /** The bottom claim is the identity on both sides. */
  lemma BottomIsIdentity(a: Claim, ctx: Context, registry: Registry)
    ensures Merge(BOTTOM, a, ctx, registry) == a
    ensures !IsBottom(a) ==> Merge(a, BOTTOM, ctx, registry) == a
  {}

  /** `reduce` is two merges in a row: the order of grouping does not matter. */
  lemma ReduceIsTwoMerges(belief: Claim, a: Claim, b: Claim, ctx: Context, registry: Registry)
    requires AssociativeRegistry(registry, ctx) && Typed(belief, registry) && Typed(a, registry) && Typed(b, registry)
    ensures Reduce(belief, a, b, ctx, registry) == Merge(Merge(belief, a, ctx, registry), b, ctx, registry)
  {
    MergeAssociates(belief, a, b, ctx, registry);
  }

  // -- folding ----------------------------------------------------------------------------------

  lemma {:induction false} FoldTyped(belief: Claim, claims: seq<Claim>, ctx: Context, registry: Registry)
    requires AssociativeRegistry(registry, ctx) && Typed(belief, registry) && AllTyped(claims, registry)
    ensures Typed(Fold(belief, claims, ctx, registry), registry)
  {
    if claims != [] {
      FoldTyped(belief, claims[..|claims| - 1], ctx, registry);
      MergeTyped(Fold(belief, claims[..|claims| - 1], ctx, registry), claims[|claims| - 1], ctx, registry);
    }
  }

  /** The only claim with the bottom tag is bottom itself. */
  predicate Proper(c: Claim) { IsBottom(c) ==> c == BOTTOM }

  lemma {:induction false} FoldProper(belief: Claim, claims: seq<Claim>, ctx: Context, registry: Registry)
    requires Proper(belief) && forall k | 0 <= k < |claims| :: Proper(claims[k])
    ensures Proper(Fold(belief, claims, ctx, registry))
  {
    if claims != [] { FoldProper(belief, claims[..|claims| - 1], ctx, registry); }
  }

  /** Folding a suffix on its own and merging it in is folding the whole tape: a snapshot of
      the prefix, or of the suffix, stands for its claims. */
  lemma {:induction false} FoldFromSnapshot(belief: Claim, older: seq<Claim>, newer: seq<Claim>, ctx: Context, registry: Registry)
    requires AssociativeRegistry(registry, ctx) && Typed(belief, registry) && AllTyped(older, registry) && AllTyped(newer, registry)
    requires Proper(belief) && forall k | 0 <= k < |older| :: Proper(older[k])
    ensures Fold(belief, older + newer, ctx, registry) ==
            Merge(Fold(belief, older, ctx, registry), Fold(BOTTOM, newer, ctx, registry), ctx, registry)
    decreases |newer|
  {
    var snapshot := Fold(belief, older, ctx, registry);
    FoldProper(belief, older, ctx, registry);
    if newer == [] {
      assert older + newer == older;
    } else {
      var before, last := newer[..|newer| - 1], newer[|newer| - 1];
      var all := older + newer;
      assert all[..|all| - 1] == older + before && all[|all| - 1] == last;
      assert AllTyped(before, registry) && Typed(last, registry);
      FoldFromSnapshot(belief, older, before, ctx, registry);
      FoldTyped(belief, older, ctx, registry);
      FoldTyped(BOTTOM, before, ctx, registry);
      MergeAssociates(snapshot, Fold(BOTTOM, before, ctx, registry), last, ctx, registry);
    }
  }
}
