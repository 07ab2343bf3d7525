/** The merged event stream of a coordination: independent runs are read through one cursor
    that maps each run to a position. */
module CoordinationEvents {
  import opened Values
  import opened Execution
  import opened ExecutionInvariant

  type Streams = map<Id, seq<AgentEvent>>

  type Positions = map<Id, nat>

  /** How run ids compare; any strict total order. */
  type Order = (Id, Id) -> bool

  ghost predicate StrictTotal(less: Order) {
    && (forall a :: !less(a, a))
    && (forall a, b :: a == b || less(a, b) || less(b, a))
    && (forall a, b, c | less(a, b) && less(b, c) :: less(a, c))
  }

  datatype Item = Item(run: Id, event: AgentEvent)

  /** The sort key `(created_at, run_id, sequence)`. */
  predicate Precedes(x: Item, y: Item, less: Order) {
    || x.event.at < y.event.at
    || (x.event.at == y.event.at
        && (less(x.run, y.run) || (x.run == y.run && x.event.sequence <= y.event.sequence)))
  }

  function StreamOf(streams: Streams, r: Id): seq<AgentEvent> { if r in streams then streams[r] else [] }

  function Floor(p: Positions, r: Id): nat { if r in p then p[r] else 0 }

  /** The first event of a run says which coordination it belongs to. */
  predicate Member(es: seq<AgentEvent>, coordination: string) {
    es != [] && Get(es[0].data, "coordination_id") == Str(coordination)
  }

  // -- what a read computes ----------------------------------------------------------

  function Items(r: Id, es: seq<AgentEvent>): seq<Item> {
    seq(|es|, i requires 0 <= i < |es| => Item(r, es[i]))
  }

  function Candidates(streams: Streams, runs: seq<Id>, coordination: string, p: Positions): seq<Item> {
    if runs == [] then []
    else
      var r := runs[|runs| - 1];
      var es := StreamOf(streams, r);
      Candidates(streams, runs[..|runs| - 1], coordination, p)
        + if Member(es, coordination) then Items(r, EventsAfter(es, Floor(p, r))) else []
  }

  function Insert(x: Item, s: seq<Item>, less: Order): seq<Item> {
    if s == [] || Precedes(s[|s| - 1], x, less) then s + [x]
    else Insert(x, s[..|s| - 1], less) + [s[|s| - 1]]
  }

  function Sort(s: seq<Item>, less: Order): seq<Item> {
    if s == [] then [] else Insert(s[|s| - 1], Sort(s[..|s| - 1], less), less)
  }

  /** `advanced` after delivering some items. */
  function Advance(p: Positions, items: seq<Item>): Positions {
    if items == [] then p
    else
      var q := Advance(p, items[..|items| - 1]);
      var x := items[|items| - 1];
      q[x.run := Max(Floor(q, x.run), x.event.sequence)]
  }

  /** Everything a read at this position could deliver, in delivery order. */
  function Merged(streams: Streams, runs: seq<Id>, coordination: string, p: Positions, less: Order): seq<Item> {
    Sort(Candidates(streams, runs, coordination, p), less)
  }

  function Take(s: seq<Item>, limit: nat): seq<Item> { if limit <= |s| then s[..limit] else s }

  /** A delivered event with the cursor of having read up to it. */
  datatype Delivered = Delivered(cursor: Positions, item: Item)

  datatype Page = Page(events: seq<Delivered>, next: Option<Positions>, hasMore: bool)

  function Projected(p: Positions, items: seq<Item>): seq<Delivered> {
    seq(|items|, i requires 0 <= i < |items| => Delivered(Advance(p, items[..i + 1]), items[i]))
  }

  function PositionsOf(after: Option<Positions>): Positions { if after.Some? then after.value else map[] }

  function PageOf(all: seq<Item>, after: Option<Positions>, limit: nat): Page {
    var selected := Take(all, limit);
    var p := PositionsOf(after);
    Page(Projected(p, selected), if selected == [] then after else Some(Advance(p, selected)), |all| > |selected|)
  }

  method Collect(streams: Streams, runs: seq<Id>, coordination: string, p: Positions) returns (candidates: seq<Item>)
    ensures candidates == Candidates(streams, runs, coordination, p)
  {
    candidates := [];
    for n := 0 to |runs|
      invariant candidates == Candidates(streams, runs[..n], coordination, p)
    {
      assert runs[..n + 1][..n] == runs[..n];
      var es := StreamOf(streams, runs[n]);
      if Member(es, coordination) {
        candidates := candidates + Items(runs[n], EventsAfter(es, Floor(p, runs[n])));
      }
    }
    assert runs[..|runs|] == runs;
  }

  method Project(p: Positions, selected: seq<Item>) returns (advanced: Positions, projected: seq<Delivered>)
    ensures advanced == Advance(p, selected) && projected == Projected(p, selected)
  {
    advanced, projected := p, [];
    for n := 0 to |selected|
      invariant advanced == Advance(p, selected[..n]) && |projected| == n
      invariant forall k | 0 <= k < n :: projected[k] == Delivered(Advance(p, selected[..k + 1]), selected[k])
    {
      var x := selected[n];
      assert selected[..n + 1][..n] == selected[..n];
      advanced := advanced[x.run := Max(Floor(advanced, x.run), x.event.sequence)];
      projected := projected + [Delivered(advanced, x)];
    }
    assert selected[..|selected|] == selected;
  }

  /** `read`: collects the candidates run by run, sorts them, and walks over the first `limit`
      of them advancing the cursor. */
  method Read(streams: Streams, runs: seq<Id>, coordination: string, after: Option<Positions>, limit: nat, less: Order)
    returns (page: Page)
    requires limit >= 1
    ensures page == PageOf(Merged(streams, runs, coordination, PositionsOf(after), less), after, limit)
  {
    var candidates := Collect(streams, runs, coordination, PositionsOf(after));
    var all := Sort(candidates, less);
    var selected := Take(all, limit);
    var advanced, projected := Project(PositionsOf(after), selected);
    page := Page(projected, if selected == [] then after else Some(advanced), |all| > |selected|);
  }

  // -- sorting --------------------------------------------------------------------------

  ghost predicate Sorted(s: seq<Item>, less: Order) { forall i, j | 0 <= i < j < |s| :: Precedes(s[i], s[j], less) }

  predicate NoRepeats(s: seq<Item>) { forall i, j | 0 <= i < j < |s| :: s[i] != s[j] }

  lemma {:induction false} InsertMembers(x: Item, s: seq<Item>, less: Order)
    ensures |Insert(x, s, less)| == |s| + 1
    ensures forall y :: y in Insert(x, s, less) <==> y == x || y in s
  {
    if s != [] && !Precedes(s[|s| - 1], x, less) {
      InsertMembers(x, s[..|s| - 1], less);
      assert s == s[..|s| - 1] + [s[|s| - 1]];
    }
  }

  lemma {:induction false} InsertSorted(x: Item, s: seq<Item>, less: Order)
    requires StrictTotal(less) && Sorted(s, less) && NoRepeats(s) && x !in s
    ensures Sorted(Insert(x, s, less), less) && NoRepeats(Insert(x, s, less))
  {
    var n := |s| - 1;
    if s != [] {
      if Precedes(s[n], x, less) {
        forall i | 0 <= i < |s| ensures Precedes(s[i], x, less) { }
      } else {
        InsertSorted(x, s[..n], less);
        InsertMembers(x, s[..n], less);
        var front := Insert(x, s[..n], less);
        forall i | 0 <= i < |front| ensures Precedes(front[i], s[n], less) && front[i] != s[n] {
          assert front[i] in front;
          if front[i] != x {
            var k :| 0 <= k < n && s[k] == front[i];
          }
        }
      }
    }
  }

  lemma {:induction false} SortFacts(s: seq<Item>, less: Order)
    requires StrictTotal(less) && NoRepeats(s)
    ensures Sorted(Sort(s, less), less) && NoRepeats(Sort(s, less)) && |Sort(s, less)| == |s|
    ensures forall y :: y in Sort(s, less) <==> y in s
  {
    if s != [] {
      var n := |s| - 1;
      assert s == s[..n] + [s[n]];
      assert s[n] !in s[..n];
      SortFacts(s[..n], less);
      InsertMembers(s[n], Sort(s[..n], less), less);
      InsertSorted(s[n], Sort(s[..n], less), less);
    }
  }
}
