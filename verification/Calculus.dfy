/** Claims and their belief-indexed merge: the built-in strategies, the registry, `merge` and
    `reduce`. Claim metadata (source, claim id, sequence) is not part of this model. */
module Calculus {
  import opened Values

  /** The value of a field; a field may also be None, which carries no information. */
  datatype FieldValue =
    | Number(n: real)
    | Items(items: seq<Value>)
    | Tags(tags: set<Value>)
    | Counters(counts: map<string, int>)
    | Expectations(outcomes: map<string, set<Value>>)
    | Plain(value: Value)

  /** The belief a merge consults: its failure total and the caution threshold. */
  datatype Context = Context(failures: int, caution: int)

  type Strategy = (FieldValue, FieldValue, Context) -> FieldValue

  /** A strategy and the values it is meant for. */
  datatype Entry = Entry(apply: Strategy, domain: FieldValue -> bool)

  datatype Registry = Registry(table: map<string, Entry>, fallback: Entry)

  /** `StrategyRegistry.get` */
  function Lookup(registry: Registry, name: string): Entry {
    if name in registry.table then registry.table[name] else registry.fallback
  }

  datatype Claim = Claim(tag: string, fields: map<string, Option<FieldValue>>, kind: Option<string>, priority: int)

  const BOTTOM_TAG := "bottom"
  const BOTTOM := Claim(BOTTOM_TAG, map[], None, 0)

  predicate IsBottom(c: Claim) { c.tag == BOTTOM_TAG }

  // -- strategies ------------------------------------------------------------------

  function MaxReal(a: real, b: real): real { if a >= b then a else b }
  function MinReal(a: real, b: real): real { if a <= b then a else b }

  function StrategyMax(a: FieldValue, b: FieldValue, ctx: Context): FieldValue {
    if a.Number? && b.Number? then Number(MaxReal(a.n, b.n)) else a
  }

  function StrategyMin(a: FieldValue, b: FieldValue, ctx: Context): FieldValue {
    if a.Number? && b.Number? then Number(MinReal(a.n, b.n)) else a
  }

  function StrategyUnion(a: FieldValue, b: FieldValue, ctx: Context): FieldValue {
    if a.Tags? && b.Tags? then Tags(a.tags + b.tags) else a
  }

  function StrategyAppend(a: FieldValue, b: FieldValue, ctx: Context): FieldValue {
    if a.Items? && b.Items? then Items(a.items + b.items) else a
  }

  function StrategyKeep(a: FieldValue, b: FieldValue, ctx: Context): FieldValue { a }

  function StrategyLastWrite(a: FieldValue, b: FieldValue, ctx: Context): FieldValue { b }

  function CountIn(m: map<string, int>, k: string): int { if k in m then m[k] else 0 }

  /** `result[k] = max(result.get(k, 0), v)` over the second operand. */
  function MaxCounts(a: map<string, int>, b: map<string, int>): map<string, int> {
    map k | k in a.Keys + b.Keys :: if k in b then Max(CountIn(a, k), b[k]) else a[k]
  }

  function StrategyCounterMax(a: FieldValue, b: FieldValue, ctx: Context): FieldValue {
    if a.Counters? && b.Counters? then Counters(MaxCounts(a.counts, b.counts)) else a
  }

  function OutcomesIn(m: map<string, set<Value>>, k: string): set<Value> { if k in m then m[k] else {} }

  function MergeOutcomes(a: map<string, set<Value>>, b: map<string, set<Value>>): map<string, set<Value>> {
    map k | k in a.Keys + b.Keys :: OutcomesIn(a, k) + OutcomesIn(b, k)
  }

  function StrategyExpectations(a: FieldValue, b: FieldValue, ctx: Context): FieldValue {
    if a.Expectations? && b.Expectations? then Expectations(MergeOutcomes(a.outcomes, b.outcomes)) else a
  }

  /** Newer wins until the failures reach the caution threshold, then the present value does. */
  function StrategyAdaptive(a: FieldValue, b: FieldValue, ctx: Context): FieldValue {
    if ctx.failures >= ctx.caution then a else b
  }

  predicate NonNegative(v: FieldValue) { v.Counters? && forall k | k in v.counts :: v.counts[k] >= 0 }

  const MAX_ENTRY := Entry(StrategyMax, (v: FieldValue) => v.Number?)
  const MIN_ENTRY := Entry(StrategyMin, (v: FieldValue) => v.Number?)
  const UNION_ENTRY := Entry(StrategyUnion, (v: FieldValue) => v.Tags?)
  const APPEND_ENTRY := Entry(StrategyAppend, (v: FieldValue) => v.Items?)
  const KEEP_ENTRY := Entry(StrategyKeep, (v: FieldValue) => true)
  const LAST_WRITE_ENTRY := Entry(StrategyLastWrite, (v: FieldValue) => true)
  const COUNTER_MAX_ENTRY := Entry(StrategyCounterMax, NonNegative)
  const EXPECTATIONS_ENTRY := Entry(StrategyExpectations, (v: FieldValue) => v.Expectations?)
  const ADAPTIVE_ENTRY := Entry(StrategyAdaptive, (v: FieldValue) => true)

  // -- merge ------------------------------------------------------------------------

  function FieldOf(c: Claim, name: string): Option<FieldValue> { if name in c.fields then c.fields[name] else None }

  function MergeField(e: Entry, a: Option<FieldValue>, b: Option<FieldValue>, ctx: Context): Option<FieldValue> {
    if a.None? then b else if b.None? then a else Some(e.apply(a.value, b.value, ctx))
  }

  function MergeFields(a: Claim, b: Claim, ctx: Context, registry: Registry): map<string, Option<FieldValue>> {
    map name | name in a.fields.Keys + b.fields.Keys ::
      MergeField(Lookup(registry, name), FieldOf(a, name), FieldOf(b, name), ctx)
  }

  predicate Truthy(kind: Option<string>) { kind.Some? && kind.value != "" }

  function MergeKind(a: Option<string>, b: Option<string>): Option<string> { if Truthy(a) then a else b }

  function Merge(a: Claim, b: Claim, ctx: Context, registry: Registry): Claim {
    if IsBottom(a) then b
    else if IsBottom(b) then a
    else Claim(if a.priority >= b.priority then a.tag else b.tag, MergeFields(a, b, ctx, registry),
               MergeKind(a.kind, b.kind), Max(a.priority, b.priority))
  }

  function Reduce(belief: Claim, a: Claim, b: Claim, ctx: Context, registry: Registry): Claim {
    Merge(belief, Merge(a, b, ctx, registry), ctx, registry)
  }

  function Fold(belief: Claim, claims: seq<Claim>, ctx: Context, registry: Registry): Claim {
    if claims == [] then belief
    else Merge(Fold(belief, claims[..|claims| - 1], ctx, registry), claims[|claims| - 1], ctx, registry)
  }

  // -- the same, as loops --------------------------------------------------------------

  /** The part of a map that a loop has been through. */
  function Done<V>(m: map<string, V>, left: set<string>): map<string, V> { map k | k in m && k !in left :: m[k] }

  lemma DoneEnds<V>(m: map<string, V>)
    ensures Done(m, m.Keys) == map[] && Done(m, {}) == m
  {
    assert forall k :: k in Done(m, {}) <==> k in m;
  }

  lemma DoneStep<V>(m: map<string, V>, left: set<string>, k: string)
    requires k in left && k in m
    ensures Done(m, left - {k}) == Done(m, left)[k := m[k]]
  {}

  method MergeClaims(a: Claim, b: Claim, ctx: Context, registry: Registry) returns (c: Claim)
    ensures c == Merge(a, b, ctx, registry)
  {
    if IsBottom(a) { return b; }
    if IsBottom(b) { return a; }
    ghost var goal := MergeFields(a, b, ctx, registry);
    var fields: map<string, Option<FieldValue>> := map[];
    var left := a.fields.Keys + b.fields.Keys;
    DoneEnds(goal);
    while left != {}
      invariant left <= goal.Keys && fields == Done(goal, left)
      decreases |left|
    {
      var name :| name in left;
      var u, v := FieldOf(a, name), FieldOf(b, name);
      DoneStep(goal, left, name);
      if u.None? {
        fields := fields[name := v];
      } else if v.None? {
        fields := fields[name := u];
      } else {
        fields := fields[name := Some(Lookup(registry, name).apply(u.value, v.value, ctx))];
      }
      left := left - {name};
    }
    c := Claim(if a.priority >= b.priority then a.tag else b.tag, fields,
               if Truthy(a.kind) then a.kind else b.kind, Max(a.priority, b.priority));
  }

  lemma CountStep(a: map<string, int>, done: map<string, int>, k: string, v: int)
    requires k !in done
    ensures CountIn(MaxCounts(a, done), k) == CountIn(a, k)
    ensures MaxCounts(a, done[k := v]) == MaxCounts(a, done)[k := Max(CountIn(a, k), v)]
  {}

  lemma CountNothing(a: map<string, int>)
    ensures MaxCounts(a, map[]) == a
  {}

  method CounterMax(a: map<string, int>, b: map<string, int>) returns (counts: map<string, int>)
    ensures counts == MaxCounts(a, b)
  {
    counts := a;
    var left := b.Keys;
    DoneEnds(b);
    CountNothing(a);
    while left != {}
      invariant left <= b.Keys && counts == MaxCounts(a, Done(b, left))
      decreases |left|
    {
      var k :| k in left;
      DoneStep(b, left, k);
      CountStep(a, Done(b, left), k, b[k]);
      counts := counts[k := Max(CountIn(counts, k), b[k])];
      left := left - {k};
    }
  }

  lemma OutcomeStep(a: map<string, set<Value>>, done: map<string, set<Value>>, k: string, v: set<Value>)
    requires k !in done
    ensures OutcomesIn(MergeOutcomes(a, done), k) == OutcomesIn(a, k)
    ensures MergeOutcomes(a, done[k := v]) == MergeOutcomes(a, done)[k := OutcomesIn(a, k) + v]
  {}

  lemma OutcomesNothing(a: map<string, set<Value>>)
    ensures MergeOutcomes(a, map[]) == a
  {
    assert forall k | k in a :: OutcomesIn(a, k) + {} == a[k];
  }

  method ExpectationsMerge(a: map<string, set<Value>>, b: map<string, set<Value>>) returns (merged: map<string, set<Value>>)
    ensures merged == MergeOutcomes(a, b)
  {
    merged := a;
    var left := b.Keys;
    DoneEnds(b);
    OutcomesNothing(a);
    while left != {}
      invariant left <= b.Keys && merged == MergeOutcomes(a, Done(b, left))
      decreases |left|
    {
      var k :| k in left;
      DoneStep(b, left, k);
      OutcomeStep(a, Done(b, left), k, b[k]);
      merged := merged[k := OutcomesIn(merged, k) + b[k]];
      left := left - {k};
    }
  }

  /** The registry object: the latest registration of a name wins, everything else falls back. */
  class StrategyRegistry {
    var table: map<string, Entry>
    var fallback: Entry

    function Contents(): Registry
      reads this
    {
      Registry(table, fallback)
    }

    constructor ()
      ensures Contents() == Registry(map[], LAST_WRITE_ENTRY)
    {
      table, fallback := map[], LAST_WRITE_ENTRY;
    }

    method Register(name: string, e: Entry)
      modifies this`table
      ensures Lookup(Contents(), name) == e
      ensures forall other | other != name :: Lookup(Contents(), other) == Lookup(old(Contents()), other)
    {
      table := table[name := e];
    }

    method SetDefault(e: Entry)
      modifies this`fallback
      ensures forall name :: Lookup(Contents(), name) == if name in table then table[name] else e
    {
      fallback := e;
    }
  }
}
