/** Plan validation: the loop that removes ready steps accepts a plan exactly when its
    dependencies can be ordered. */
module CoordinationPlan {

  datatype PlanStep = PlanStep(id: string, dependsOn: set<string>)

  datatype Verdict = Accepted | Empty | DuplicateIds | UnknownDependency | SelfDependency | Cycle

  type Graph = map<string, set<string>>

  // -- what a plan must satisfy ----------------------------------------------------

  predicate Distinct(ids: seq<string>) { forall i, j | 0 <= i < j < |ids| :: ids[i] != ids[j] }

  ghost function Before(order: seq<string>, i: nat): set<string>
    requires i <= |order|
  {
    set j | 0 <= j < i :: order[j]
  }

  ghost function Members(order: seq<string>): set<string> { set id | id in order }

  /** Distinct steps of the plan, each after the steps it depends on. */
  ghost predicate Ordered(g: Graph, order: seq<string>) {
    && Distinct(order)
    && forall i | 0 <= i < |order| :: order[i] in g && g[order[i]] <= Before(order, i)
  }

  /** A topological order: such a sequence that holds every step. */
  ghost predicate Order(g: Graph, order: seq<string>) {
    Ordered(g, order) && forall id | id in g :: id in order
  }

  // -- the removal loop ------------------------------------------------------------

  /** One removal: `done` leaves the remaining steps and everyone's dependencies. */
  function Remove(g: Graph, done: string): Graph { map id | id in g && id != done :: g[id] - {done} }

  /** What is left of `g` when the steps of `gone` have been removed. */
  function Left(g: Graph, gone: set<string>): Graph { map id | id in g && id !in gone :: g[id] - gone }

  lemma RemoveLeft(g: Graph, gone: set<string>, id: string)
    ensures Remove(Left(g, gone), id) == Left(g, gone + {id})
  {
    assert forall k | k in g && k !in gone && k != id :: (g[k] - gone) - {id} == g[k] - (gone + {id});
  }

  lemma BeforeSnoc(order: seq<string>, id: string, i: nat)
    requires i <= |order|
    ensures Before(order + [id], i) == Before(order, i)
    ensures Before(order, |order|) == Members(order)
    ensures Members(order + [id]) == Members(order) + {id}
  {
    var next := order + [id];
    assert forall j | 0 <= j < |order| :: next[j] == order[j];
    forall x ensures x in Members(next) <==> x in Members(order) + {id} {
      if x == id { assert next[|order|] == id; }
      else if x in Members(order) {
        var j :| 0 <= j < |order| && order[j] == x;
        assert next[j] == x;
      }
    }
  }

  lemma OrderedSnoc(g: Graph, order: seq<string>, id: string)
    requires Ordered(g, order) && id in g && id !in order && g[id] <= Members(order)
    ensures Ordered(g, order + [id]) && Members(order + [id]) == Members(order) + {id}
  {
    var next := order + [id];
    forall i | 0 <= i < |next| ensures next[i] in g && g[next[i]] <= Before(next, i) {
      BeforeSnoc(order, id, i);
    }
    BeforeSnoc(order, id, 0);
  }

  /** While an order exists and steps remain, one of them is ready: the first step of the
      order that has not been removed. */
  lemma {:induction false} FirstRemaining(g: Graph, gone: set<string>, order: seq<string>, i: nat) returns (id: string)
    requires Ordered(g, order) && i <= |order| && Before(order, i) <= gone
    requires exists j :: i <= j < |order| && order[j] !in gone
    ensures id in Left(g, gone) && Left(g, gone)[id] == {}
    decreases |order| - i
  {
    id := order[i];
    if id in gone {
      assert Before(order, i + 1) == Before(order, i) + {id};
      id := FirstRemaining(g, gone, order, i + 1);
    }
  }

  lemma ReadyExists(g: Graph, gone: set<string>, order: seq<string>) returns (id: string)
    requires Order(g, order) && Left(g, gone) != map[]
    ensures id in Left(g, gone) && Left(g, gone)[id] == {}
  {
    var x :| x in Left(g, gone);
    assert x in order;
    id := FirstRemaining(g, gone, order, 0);
  }

  method RemoveEverywhere(g: Graph, done: string) returns (left: Graph)
    ensures left == Remove(g, done)
  {
    left := map[];
    var todo := g.Keys - {done};
    while todo != {}
      invariant todo <= g.Keys - {done}
      invariant left == map id | id in g && id != done && id !in todo :: g[id] - {done}
      decreases |todo|
    {
      var id :| id in todo;
      left := left[id := g[id] - {done}];
      todo := todo - {id};
    }
  }

  lemma RemoveStep(g: Graph, order: seq<string>, id: string)
    requires Ordered(g, order) && id in g && id !in Members(order) && g[id] <= Members(order)
    ensures Ordered(g, order + [id]) && Members(order + [id]) == Members(order) + {id}
    ensures Remove(Left(g, Members(order)), id) == Left(g, Members(order + [id]))
  {
    OrderedSnoc(g, order, id);
    RemoveLeft(g, Members(order), id);
  }

  /** One round: removes every step of `ready`, none of which waits for anything. */
  method RemoveReady(g: Graph, start: Graph, ghost done: seq<string>, ready: set<string>)
    returns (remaining: Graph, ghost order: seq<string>)
    requires Ordered(g, done) && start == Left(g, Members(done))
    requires forall id | id in ready :: id in g && id !in Members(done) && g[id] <= Members(done)
    ensures Ordered(g, order) && remaining == Left(g, Members(order))
    ensures Members(order) == Members(done) + ready
  {
    remaining, order := start, done;
    var left := ready;
    while left != {}
      invariant Ordered(g, order) && remaining == Left(g, Members(order))
      invariant left <= ready && Members(order) == Members(done) + (ready - left)
      decreases |left|
    {
      var id :| id in left;
      RemoveStep(g, order, id);
      remaining := RemoveEverywhere(remaining, id);
      order := order + [id];
      left := left - {id};
    }
  }

  lemma StuckHasNoOrder(g: Graph, gone: set<string>, order: seq<string>)
    requires Left(g, gone) != map[]
    requires forall id | id in Left(g, gone) :: Left(g, gone)[id] != {}
    ensures !Order(g, order)
  {
    if Order(g, order) { var id := ReadyExists(g, gone, order); }
  }

  lemma LeftNone(g: Graph)
    ensures Left(g, Members([])) == g
  {
    assert Members([]) == {};
    assert forall id | id in g :: g[id] - {} == g[id];
  }

  lemma ReadyMeans(g: Graph, gone: set<string>, id: string)
    requires id in Left(g, gone) && Left(g, gone)[id] == {}
    ensures id in g && id !in gone && g[id] <= gone
  {
    assert Left(g, gone)[id] == g[id] - gone;
    forall d | d in g[id] ensures d in gone {
      assert d in g[id] - gone || d in gone;
    }
  }

  lemma LeftHolds(g: Graph, gone: set<string>, id: string)
    requires id in g && id !in gone
    ensures Left(g, gone) != map[]
  {
    assert id in Left(g, gone);
  }

  lemma EmptyIsOrdered(g: Graph, order: seq<string>)
    requires Ordered(g, order) && Left(g, Members(order)) == map[]
    ensures Order(g, order)
  {
    forall id | id in g ensures id in order {
      if id !in Members(order) { LeftHolds(g, Members(order), id); }
    }
  }

  /** Accepts exactly the dependency relations that have a topological order. */
  method Acyclic(g: Graph) returns (accepted: bool)
    ensures accepted <==> exists order :: Order(g, order)
  {
    var remaining := g;
    ghost var order: seq<string> := [];
    LeftNone(g);
    while remaining != map[]
      invariant Ordered(g, order) && remaining == Left(g, Members(order))
      decreases g.Keys - Members(order)
    {
      var ready := set id | id in remaining && remaining[id] == {};
      if ready == {} {
        forall id | id in remaining ensures remaining[id] != {} {
          assert id !in ready;
        }
        forall o ensures !Order(g, o) { StuckHasNoOrder(g, Members(order), o); }
        return false;
      }
      forall id | id in ready ensures id !in Members(order) && g[id] <= Members(order) {
        ReadyMeans(g, Members(order), id);
      }
      remaining, order := RemoveReady(g, remaining, order, ready);
    }
    EmptyIsOrdered(g, order);
    return true;
  }

  // -- the whole check ---------------------------------------------------------------

  function Ids(steps: seq<PlanStep>): seq<string> { seq(|steps|, i requires 0 <= i < |steps| => steps[i].id) }

  predicate DependsOnUnknown(steps: seq<PlanStep>) {
    exists i | 0 <= i < |steps| :: exists d | d in steps[i].dependsOn :: d !in Ids(steps)
  }

  predicate DependsOnItself(steps: seq<PlanStep>) {
    exists i | 0 <= i < |steps| :: steps[i].id in steps[i].dependsOn
  }

  /** The steps can be listed so that each comes after everything it depends on. */
  ghost predicate Executable(steps: seq<PlanStep>) {
    exists order :: Arranges(steps, order)
  }

  ghost predicate Arranges(steps: seq<PlanStep>, order: seq<string>) {
    && Distinct(order) && (forall id :: id in order <==> id in Ids(steps))
    && forall i, k | 0 <= i < |steps| && 0 <= k < |order| && order[k] == steps[i].id ::
         steps[i].dependsOn <= Before(order, k)
  }

  method DependencyGraph(steps: seq<PlanStep>) returns (g: Graph)
    requires Distinct(Ids(steps))
    ensures Represents(g, steps)
  {
    g := map[];
    for n := 0 to |steps|
      invariant Represents(g, steps[..n])
    {
      var was := steps[..n];
      assert steps[..n + 1] == was + [steps[n]];
      forall i | 0 <= i < n ensures steps[i].id != steps[n].id {
        assert Ids(steps)[i] == steps[i].id && Ids(steps)[n] == steps[n].id;
      }
      RepresentsSnoc(g, was, steps[n]);
      g := g[steps[n].id := steps[n].dependsOn];
    }
    assert steps[..|steps|] == steps;
  }

  ghost predicate Represents(g: Graph, steps: seq<PlanStep>) {
    && (forall id :: id in g <==> id in Ids(steps))
    && forall i | 0 <= i < |steps| :: steps[i].id in g && g[steps[i].id] == steps[i].dependsOn
  }

  lemma RepresentsSnoc(g: Graph, steps: seq<PlanStep>, step: PlanStep)
    requires Represents(g, steps) && forall i | 0 <= i < |steps| :: steps[i].id != step.id
    ensures Represents(g[step.id := step.dependsOn], steps + [step])
  {
    assert Ids(steps + [step]) == Ids(steps) + [step.id];
  }

  /** Orders of the dependency relation are the arrangements of the steps. */
  lemma OrderArranges(g: Graph, steps: seq<PlanStep>, order: seq<string>)
    requires Represents(g, steps)
    ensures Order(g, order) <==> Arranges(steps, order)
  {
    if Arranges(steps, order) {
      forall k | 0 <= k < |order| ensures order[k] in g && g[order[k]] <= Before(order, k) {
        assert order[k] in Ids(steps);
        var i :| 0 <= i < |steps| && Ids(steps)[i] == order[k];
        assert steps[i].id == order[k];
      }
    }
  }

  lemma ArrangementIsClosed(steps: seq<PlanStep>)
    requires Executable(steps)
    ensures !DependsOnUnknown(steps) && !DependsOnItself(steps)
  {
    var order :| Arranges(steps, order);
    forall i | 0 <= i < |steps|
      ensures steps[i].id !in steps[i].dependsOn
      ensures forall d | d in steps[i].dependsOn :: d in Ids(steps)
    {
      assert steps[i].id in Ids(steps) by { assert Ids(steps)[i] == steps[i].id; }
      assert steps[i].id in order;
      var k :| 0 <= k < |order| && order[k] == steps[i].id;
    }
  }

  /** The checks of the constructor in their order. A plan is accepted if and only if its
      ids are distinct and its steps can be arranged. */
  method Validate(steps: seq<PlanStep>) returns (verdict: Verdict)
    ensures verdict == Accepted <==> steps != [] && Distinct(Ids(steps)) && Executable(steps)
    ensures verdict == Empty <==> steps == []
    ensures verdict == DuplicateIds <==> !Distinct(Ids(steps))
    ensures verdict == UnknownDependency <==> steps != [] && Distinct(Ids(steps)) && DependsOnUnknown(steps)
    ensures verdict == SelfDependency <==>
      steps != [] && Distinct(Ids(steps)) && !DependsOnUnknown(steps) && DependsOnItself(steps)
  {
    if steps == [] { return Empty; }
    if !Distinct(Ids(steps)) { return DuplicateIds; }
    ghost var executable := Executable(steps);
    if executable { ArrangementIsClosed(steps); }
    if DependsOnUnknown(steps) { return UnknownDependency; }
    if DependsOnItself(steps) { return SelfDependency; }
    var g := DependencyGraph(steps);
    var acyclic := Acyclic(g);
    forall order ensures Order(g, order) <==> Arranges(steps, order) { OrderArranges(g, steps, order); }
    return if acyclic then Accepted else Cycle;
  }
}
