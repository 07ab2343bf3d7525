/** Reading a coordination's merged stream page by page delivers every event of its runs
    exactly once exactly when event times never decrease along a run. */
module CoordinationMerge {
  import opened Values
  import opened Execution
  import opened ExecutionInvariant
  import opened CoordinationEvents

  ghost predicate StreamsOk(streams: Streams) { forall r | r in streams :: EventRowsOk(streams[r]) }

  /** `list_runs`: every run once, in whatever order. */
  ghost predicate Lists(runs: seq<Id>, streams: Streams) {
    && (forall i, j | 0 <= i < j < |runs| :: runs[i] != runs[j])
    && forall r | r in streams :: r in runs
  }

  predicate Holds(es: seq<AgentEvent>, e: AgentEvent) { 1 <= e.sequence <= |es| && es[e.sequence - 1] == e }

  /** The event is stored on a run of the coordination. */
  predicate InStream(streams: Streams, coordination: string, x: Item) {
    Member(StreamOf(streams, x.run), coordination) && Holds(StreamOf(streams, x.run), x.event)
  }

  predicate Waiting(streams: Streams, coordination: string, p: Positions, x: Item) {
    InStream(streams, coordination, x) && x.event.sequence > Floor(p, x.run)
  }

  ghost predicate TimesGrow(es: seq<AgentEvent>, floor: nat) {
    forall i, j | floor <= i < j < |es| :: es[i].at <= es[j].at
  }

  /** Along every run of the coordination, times never decrease beyond the position. */
  ghost predicate Chronological(streams: Streams, coordination: string, p: Positions) {
    forall r | Member(StreamOf(streams, r), coordination) :: TimesGrow(StreamOf(streams, r), Floor(p, r))
  }

  /** The delivered items are exactly those waiting at `p` and covered by `q`. */
  ghost predicate Exact(streams: Streams, coordination: string, p: Positions, items: seq<Item>, q: Positions) {
    forall x :: x in items <==> Waiting(streams, coordination, p, x) && x.event.sequence <= Floor(q, x.run)
  }

  // -- the candidates ------------------------------------------------------------------

  lemma ItemsFacts(r: Id, es: seq<AgentEvent>, after: nat)
    requires EventRowsOk(es)
    ensures NoRepeats(Items(r, EventsAfter(es, after)))
    ensures forall x :: x in Items(r, EventsAfter(es, after)) <==>
      x.run == r && Holds(es, x.event) && x.event.sequence > after
  {
    EventsAfterIsSuffix(es, after);
    var rest := EventsAfter(es, after);
    var items := Items(r, rest);
    forall x ensures x in items <==> x.run == r && Holds(es, x.event) && x.event.sequence > after {
      if x.run == r && Holds(es, x.event) && x.event.sequence > after {
        assert items[x.event.sequence - 1 - after] == x;
      }
    }
  }

  lemma {:induction false} CandidatesFacts(streams: Streams, runs: seq<Id>, coordination: string, p: Positions)
    requires StreamsOk(streams) && forall i, j | 0 <= i < j < |runs| :: runs[i] != runs[j]
    ensures NoRepeats(Candidates(streams, runs, coordination, p))
    ensures forall x :: x in Candidates(streams, runs, coordination, p) <==>
      x.run in runs && Waiting(streams, coordination, p, x)
  {
    if runs != [] {
      var n := |runs| - 1;
      CandidatesFacts(streams, runs[..n], coordination, p);
      ItemsFacts(runs[n], StreamOf(streams, runs[n]), Floor(p, runs[n]));
      assert runs == runs[..n] + [runs[n]];
      assert runs[n] !in runs[..n];
    }
  }

  lemma MergedFacts(streams: Streams, runs: seq<Id>, coordination: string, p: Positions, less: Order)
    requires StrictTotal(less) && StreamsOk(streams) && Lists(runs, streams)
    ensures Sorted(Merged(streams, runs, coordination, p, less), less)
    ensures NoRepeats(Merged(streams, runs, coordination, p, less))
    ensures forall x :: x in Merged(streams, runs, coordination, p, less) <==> Waiting(streams, coordination, p, x)
  {
    CandidatesFacts(streams, runs, coordination, p);
    SortFacts(Candidates(streams, runs, coordination, p), less);
  }

  // -- the cursor ------------------------------------------------------------------------

  /** A cursor only advances, covers what was delivered, and stands at a delivered event
      wherever it moved. */
  lemma {:induction false} AdvanceFacts(p: Positions, items: seq<Item>, r: Id)
    ensures Floor(Advance(p, items), r) >= Floor(p, r)
    ensures forall x | x in items && x.run == r :: x.event.sequence <= Floor(Advance(p, items), r)
    ensures Floor(Advance(p, items), r) == Floor(p, r) ||
      exists x :: x in items && x.run == r && x.event.sequence == Floor(Advance(p, items), r)
  {
    if items != [] {
      var n := |items| - 1;
      AdvanceFacts(p, items[..n], r);
      assert items == items[..n] + [items[n]];
      if Floor(Advance(p, items), r) != Floor(p, r) {
        if items[n].run == r && items[n].event.sequence == Floor(Advance(p, items), r) {
          assert items[n] in items;
        } else {
          var x :| x in items[..n] && x.run == r && x.event.sequence == Floor(Advance(p, items[..n]), r);
          assert x in items;
        }
      }
    }
  }

  lemma {:induction false} AdvanceSplits(p: Positions, items: seq<Item>, m: nat)
    requires m <= |items|
    ensures Advance(p, items) == Advance(Advance(p, items[..m]), items[m..])
  {
    if m == |items| {
      assert items[..m] == items;
    } else {
      var n := |items| - 1;
      AdvanceSplits(p, items[..n], m);
      assert items[..n][..m] == items[..m] && items[..n][m..] == items[m..][..n - m];
    }
  }

  // -- one read --------------------------------------------------------------------------

  lemma NotBefore(s: seq<Item>, less: Order, i: nat, j: nat)
    requires Sorted(s, less) && i < |s| && j < |s| && !Precedes(s[j], s[i], less)
    ensures i <= j
  {}

  /** In chronological runs an earlier event of the same run is never delivered later. */
  lemma EarlierIsBefore(streams: Streams, coordination: string, p: Positions, s: seq<Item>, less: Order, i: nat, j: nat)
    requires Chronological(streams, coordination, p) && StrictTotal(less) && Sorted(s, less)
    requires i < |s| && j < |s| && s[i].run == s[j].run && s[i].event.sequence < s[j].event.sequence
    requires Waiting(streams, coordination, p, s[i]) && Waiting(streams, coordination, p, s[j])
    ensures i < j
  {
    var es := StreamOf(streams, s[i].run);
    assert TimesGrow(es, Floor(p, s[i].run));
    assert es[s[i].event.sequence - 1].at <= es[s[j].event.sequence - 1].at;
    NotBefore(s, less, i, j);
  }

  /** A page of any size delivers exactly the events between the old cursor and the new. */
  lemma PrefixIsExact(streams: Streams, runs: seq<Id>, coordination: string, p: Positions, less: Order, m: nat)
    requires StrictTotal(less) && StreamsOk(streams) && Lists(runs, streams) && Chronological(streams, coordination, p)
    requires m <= |Merged(streams, runs, coordination, p, less)|
    ensures var s := Merged(streams, runs, coordination, p, less);
      Exact(streams, coordination, p, s[..m], Advance(p, s[..m]))
  {
    var s := Merged(streams, runs, coordination, p, less);
    var q := Advance(p, s[..m]);
    MergedFacts(streams, runs, coordination, p, less);
    forall x ensures x in s[..m] <==> Waiting(streams, coordination, p, x) && x.event.sequence <= Floor(q, x.run) {
      AdvanceFacts(p, s[..m], x.run);
      if x in s[..m] {
        assert x in s;
      } else if Waiting(streams, coordination, p, x) && x.event.sequence <= Floor(q, x.run) {
        CoveredIsDelivered(streams, coordination, p, s, less, m, x);
      }
    }
  }

  lemma CoveredIsDelivered(streams: Streams, coordination: string, p: Positions, s: seq<Item>, less: Order, m: nat, x: Item)
    requires StrictTotal(less) && Chronological(streams, coordination, p) && Sorted(s, less) && m <= |s|
    requires forall y :: y in s <==> Waiting(streams, coordination, p, y)
    requires Waiting(streams, coordination, p, x) && x.event.sequence <= Floor(Advance(p, s[..m]), x.run)
    ensures x in s[..m]
  {
    var j := Reached(p, s, m, x.run);
    assert s[j] in s && x in s;
    if x != s[j] {
      var i :| 0 <= i < |s| && s[i] == x;
      EarlierIsBefore(streams, coordination, p, s, less, i, j);
      assert s[..m][i] == x;
    } else {
      assert s[..m][j] == x;
    }
  }

  /** Where a cursor moved, it stands at a delivered item. */
  lemma Reached(p: Positions, s: seq<Item>, m: nat, r: Id) returns (j: nat)
    requires m <= |s| && Floor(Advance(p, s[..m]), r) != Floor(p, r)
    ensures j < m && s[j].run == r && s[j].event.sequence == Floor(Advance(p, s[..m]), r)
  {
    AdvanceFacts(p, s[..m], r);
    var y :| y in s[..m] && y.run == r && y.event.sequence == Floor(Advance(p, s[..m]), r);
    j :| 0 <= j < m && s[..m][j] == y;
  }

  /** A page that reaches an event dated before a predecessor of its run leaves that one out. */
  lemma OutOfOrderIsSkipped(streams: Streams, runs: seq<Id>, coordination: string, p: Positions, less: Order, x: Item, y: Item)
    returns (m: nat)
    requires StrictTotal(less) && StreamsOk(streams) && Lists(runs, streams)
    requires Waiting(streams, coordination, p, x) && Waiting(streams, coordination, p, y) && x.run == y.run
    requires x.event.sequence < y.event.sequence && x.event.at > y.event.at
    ensures 1 <= m <= |Merged(streams, runs, coordination, p, less)|
    ensures var page := Merged(streams, runs, coordination, p, less)[..m];
      x !in page && x.event.sequence <= Floor(Advance(p, page), x.run)
  {
    var s := Merged(streams, runs, coordination, p, less);
    MergedFacts(streams, runs, coordination, p, less);
    assert x in s && y in s;
    var i :| 0 <= i < |s| && s[i] == x;
    var j :| 0 <= j < |s| && s[j] == y;
    NotBefore(s, less, j, i);
    m := j + 1;
    assert s[..m][j] == y;
    AdvanceFacts(p, s[..m], x.run);
  }

  lemma FindInversion(streams: Streams, coordination: string, p: Positions) returns (x: Item, y: Item)
    requires StreamsOk(streams) && !Chronological(streams, coordination, p)
    ensures Waiting(streams, coordination, p, x) && Waiting(streams, coordination, p, y) && x.run == y.run
    ensures x.event.sequence < y.event.sequence && x.event.at > y.event.at
  {
    var r :| Member(StreamOf(streams, r), coordination) && !TimesGrow(StreamOf(streams, r), Floor(p, r));
    var es := StreamOf(streams, r);
    var i, j :| Floor(p, r) <= i < j < |es| && es[i].at > es[j].at;
    x, y := Item(r, es[i]), Item(r, es[j]);
  }

  lemma SomePageIsInexact(streams: Streams, runs: seq<Id>, coordination: string, p: Positions, less: Order)
    returns (m: nat)
    requires StrictTotal(less) && StreamsOk(streams) && Lists(runs, streams) && !Chronological(streams, coordination, p)
    ensures m <= |Merged(streams, runs, coordination, p, less)|
    ensures !PageExact(streams, coordination, p, Merged(streams, runs, coordination, p, less), m)
  {
    var x, y := FindInversion(streams, coordination, p);
    m := OutOfOrderIsSkipped(streams, runs, coordination, p, less, x, y);
  }

  /** Every page size is exact if and only if times never decrease along the runs. */
  lemma ExactIffChronological(streams: Streams, runs: seq<Id>, coordination: string, p: Positions, less: Order)
    requires StrictTotal(less) && StreamsOk(streams) && Lists(runs, streams)
    ensures Chronological(streams, coordination, p) <==>
      EveryPageExact(streams, coordination, p, Merged(streams, runs, coordination, p, less))
  {
    if Chronological(streams, coordination, p) {
      forall m | 0 <= m <= |Merged(streams, runs, coordination, p, less)|
        ensures PageExact(streams, coordination, p, Merged(streams, runs, coordination, p, less), m)
      {
        PrefixIsExact(streams, runs, coordination, p, less, m);
      }
    } else {
      var m := SomePageIsInexact(streams, runs, coordination, p, less);
    }
  }

  ghost predicate PageExact(streams: Streams, coordination: string, p: Positions, all: seq<Item>, m: nat)
    requires m <= |all|
  {
    Exact(streams, coordination, p, all[..m], Advance(p, all[..m]))
  }

  ghost predicate EveryPageExact(streams: Streams, coordination: string, p: Positions, all: seq<Item>) {
    forall m | 0 <= m <= |all| :: PageExact(streams, coordination, p, all, m)
  }

  // -- resuming ----------------------------------------------------------------------------

  lemma LastIsGreatest(s: seq<Item>, less: Order, x: Item)
    requires StrictTotal(less) && Sorted(s, less) && x in s
    ensures s != [] && Precedes(x, s[|s| - 1], less)
  {
    var i :| 0 <= i < |s| && s[i] == x;
  }

  lemma {:induction false} SortedIsUnique(s: seq<Item>, t: seq<Item>, less: Order)
    requires StrictTotal(less) && Sorted(s, less) && Sorted(t, less) && NoRepeats(s) && NoRepeats(t)
    requires forall x :: x in s <==> x in t
    requires forall x, y | x in s && y in s && x.run == y.run && x.event.sequence == y.event.sequence :: x == y
    ensures s == t
  {
    if s != [] && t != [] {
      var a, b := s[|s| - 1], t[|t| - 1];
      assert a in s && b in t;
      LastIsGreatest(s, less, b);
      LastIsGreatest(t, less, a);
      assert a == b;
      var u, v := s[..|s| - 1], t[..|t| - 1];
      forall x ensures x in u <==> x in v { ShorterMembers(s, t, x); }
      SortedIsUnique(u, v, less);
    } else if s != [] {
      HeadIsIn(s, t);
    } else if t != [] {
      HeadIsIn(t, s);
    }
  }

  lemma HeadIsIn(s: seq<Item>, t: seq<Item>)
    requires s != [] && forall x | x in s :: x in t
    ensures t != []
  {
    assert s[0] in t;
  }

  lemma SuffixFacts(s: seq<Item>, less: Order, m: nat)
    requires m <= |s| && Sorted(s, less) && NoRepeats(s)
    ensures Sorted(s[m..], less) && NoRepeats(s[m..])
    ensures forall x :: x in s[m..] <==> x in s && x !in s[..m]
  {
    assert s == s[..m] + s[m..];
  }

  lemma ShorterMembers(s: seq<Item>, t: seq<Item>, x: Item)
    requires NoRepeats(s) && NoRepeats(t) && s != [] && t != [] && s[|s| - 1] == t[|t| - 1]
    requires x in s <==> x in t
    ensures x in s[..|s| - 1] <==> x in t[..|t| - 1]
  {
    assert s == s[..|s| - 1] + [s[|s| - 1]] && t == t[..|t| - 1] + [t[|t| - 1]];
  }

  /** Resuming from the cursor of any delivered event gives exactly the remainder. */
  lemma ResumeGivesRemainder(
      streams: Streams, runs: seq<Id>, again: seq<Id>, coordination: string, p: Positions, less: Order, m: nat)
    requires StrictTotal(less) && StreamsOk(streams) && Lists(runs, streams) && Lists(again, streams)
    requires Chronological(streams, coordination, p) && m <= |Merged(streams, runs, coordination, p, less)|
    ensures var s := Merged(streams, runs, coordination, p, less);
      Merged(streams, again, coordination, Advance(p, s[..m]), less) == s[m..]
  {
    var s := Merged(streams, runs, coordination, p, less);
    var q := Advance(p, s[..m]);
    var t := Merged(streams, again, coordination, q, less);
    MergedFacts(streams, runs, coordination, p, less);
    MergedFacts(streams, again, coordination, q, less);
    PrefixIsExact(streams, runs, coordination, p, less, m);
    SuffixFacts(s, less, m);
    forall x ensures x in t <==> x in s[m..] { AdvanceFacts(p, s[..m], x.run); }
    SameKeySameItem(streams, coordination, q, t);
    SortedIsUnique(t, s[m..], less);
  }

  lemma SameKeySameItem(streams: Streams, coordination: string, p: Positions, s: seq<Item>)
    requires forall x :: x in s ==> Waiting(streams, coordination, p, x)
    ensures forall x, y | x in s && y in s && x.run == y.run && x.event.sequence == y.event.sequence :: x == y
  {}

  // -- many reads -------------------------------------------------------------------------------

  /** One read: what the store held, how it listed the runs, and the page size. */
  datatype Reading = Reading(streams: Streams, runs: seq<Id>, limit: nat)

  function Selected(at: Reading, coordination: string, p: Positions, less: Order): seq<Item> {
    Take(Merged(at.streams, at.runs, coordination, p, less), at.limit)
  }

  /** The cursor after some reads, each continuing from the previous cursor. */
  function Cursor(p: Positions, readings: seq<Reading>, coordination: string, less: Order): Positions {
    if readings == [] then p
    else
      var q := Cursor(p, readings[..|readings| - 1], coordination, less);
      Advance(q, Selected(readings[|readings| - 1], coordination, q, less))
  }

  function AllDelivered(p: Positions, readings: seq<Reading>, coordination: string, less: Order): seq<Item> {
    if readings == [] then []
    else
      AllDelivered(p, readings[..|readings| - 1], coordination, less)
        + Selected(readings[|readings| - 1], coordination, Cursor(p, readings[..|readings| - 1], coordination, less), less)
  }

  /** Between reads events are only appended. */
  ghost predicate Extends(a: Streams, b: Streams) { forall r :: StreamOf(a, r) <= StreamOf(b, r) }

  ghost predicate ReadOk(at: Reading, coordination: string) {
    StreamsOk(at.streams) && Lists(at.runs, at.streams) && Chronological(at.streams, coordination, map[])
  }

  ghost predicate ReadsOk(readings: seq<Reading>, coordination: string) {
    && (forall k | 0 <= k < |readings| :: ReadOk(readings[k], coordination))
    && forall k | 0 < k < |readings| :: Extends(readings[k - 1].streams, readings[k].streams)
  }

  /** `items` holds exactly the coordination's stored events between two positions, each once
      and each run's in order; the cursor moves only within what is stored. */
  ghost predicate Complete(streams: Streams, coordination: string, p: Positions, items: seq<Item>, q: Positions) {
    && Exact(streams, coordination, p, items, q) && NoRepeats(items) && InOrder(items)
    && forall r :: Floor(q, r) == Floor(p, r) || Within(streams, coordination, p, q, r)
  }

  predicate Within(streams: Streams, coordination: string, p: Positions, q: Positions, r: Id) {
    Member(StreamOf(streams, r), coordination) && Floor(p, r) < Floor(q, r) <= |StreamOf(streams, r)|
  }

  ghost predicate InOrder(items: seq<Item>) {
    forall i, j | 0 <= i < j < |items| && items[i].run == items[j].run ::
      items[i].event.sequence < items[j].event.sequence
  }

  lemma ChronologicalFrom(streams: Streams, coordination: string, p: Positions)
    requires Chronological(streams, coordination, map[])
    ensures Chronological(streams, coordination, p)
  {
    forall r | Member(StreamOf(streams, r), coordination) ensures TimesGrow(StreamOf(streams, r), Floor(p, r)) {
      assert TimesGrow(StreamOf(streams, r), Floor(map[], r));
    }
  }

  lemma MergedInOrder(streams: Streams, coordination: string, p: Positions, s: seq<Item>, less: Order, i: nat, j: nat)
    requires Chronological(streams, coordination, p) && StrictTotal(less) && Sorted(s, less) && NoRepeats(s)
    requires forall x :: x in s <==> Waiting(streams, coordination, p, x)
    requires i < j < |s| && s[i].run == s[j].run
    ensures s[i].event.sequence < s[j].event.sequence
  {
    assert s[i] in s && s[j] in s;
    if s[j].event.sequence < s[i].event.sequence {
      EarlierIsBefore(streams, coordination, p, s, less, j, i);
    }
  }

  lemma TakeIsPrefix(s: seq<Item>, limit: nat) returns (m: nat)
    ensures m <= |s| && Take(s, limit) == s[..m]
  {
    m := if limit <= |s| then limit else |s|;
  }

  lemma PrefixInOrder(streams: Streams, coordination: string, p: Positions, s: seq<Item>, less: Order, m: nat)
    requires Chronological(streams, coordination, p) && StrictTotal(less) && Sorted(s, less) && NoRepeats(s) && m <= |s|
    requires forall x :: x in s <==> Waiting(streams, coordination, p, x)
    ensures InOrder(s[..m]) && NoRepeats(s[..m])
  {
    forall i, j | 0 <= i < j < m && s[i].run == s[j].run ensures s[i].event.sequence < s[j].event.sequence {
      MergedInOrder(streams, coordination, p, s, less, i, j);
    }
  }

  lemma MovesWithin(streams: Streams, coordination: string, p: Positions, s: seq<Item>, m: nat, r: Id)
    requires m <= |s| && forall x :: x in s ==> Waiting(streams, coordination, p, x)
    ensures var q := Advance(p, s[..m]); Floor(q, r) == Floor(p, r) || Within(streams, coordination, p, q, r)
  {
    if Floor(Advance(p, s[..m]), r) != Floor(p, r) {
      var j := Reached(p, s, m, r);
      assert s[j] in s;
    }
  }

  lemma OneRead(at: Reading, coordination: string, p: Positions, less: Order)
    requires StrictTotal(less) && ReadOk(at, coordination)
    ensures var items := Selected(at, coordination, p, less);
      Complete(at.streams, coordination, p, items, Advance(p, items))
  {
    var s := Merged(at.streams, at.runs, coordination, p, less);
    var m := TakeIsPrefix(s, at.limit);
    ChronologicalFrom(at.streams, coordination, p);
    MergedFacts(at.streams, at.runs, coordination, p, less);
    PrefixIsExact(at.streams, at.runs, coordination, p, less, m);
    PrefixInOrder(at.streams, coordination, p, s, less, m);
    var q := Advance(p, s[..m]);
    forall r ensures Floor(q, r) == Floor(p, r) || Within(at.streams, coordination, p, q, r) {
      MovesWithin(at.streams, coordination, p, s, m, r);
    }
  }

  lemma StillInStream(a: Streams, b: Streams, coordination: string, r: Id)
    requires Extends(a, b) && Member(StreamOf(a, r), coordination)
    ensures Member(StreamOf(b, r), coordination) && |StreamOf(a, r)| <= |StreamOf(b, r)|
    ensures forall e: AgentEvent | e.sequence <= |StreamOf(a, r)| :: Holds(StreamOf(b, r), e) <==> Holds(StreamOf(a, r), e)
  {
    assert StreamOf(a, r) <= StreamOf(b, r);
  }

  /** What was complete stays complete when events are appended. */
  lemma CompleteStays(a: Streams, b: Streams, coordination: string, p: Positions, items: seq<Item>, q: Positions)
    requires Extends(a, b) && Complete(a, coordination, p, items, q)
    ensures Complete(b, coordination, p, items, q)
  {
    forall x ensures x in items <==> Waiting(b, coordination, p, x) && x.event.sequence <= Floor(q, x.run) {
      assert Floor(q, x.run) == Floor(p, x.run) || Within(a, coordination, p, q, x.run);
      if Member(StreamOf(a, x.run), coordination) { StillInStream(a, b, coordination, x.run); }
    }
    forall r ensures Floor(q, r) == Floor(p, r) || Within(b, coordination, p, q, r) {
      if Floor(q, r) != Floor(p, r) {
        assert Within(a, coordination, p, q, r);
        StillInStream(a, b, coordination, r);
      }
    }
  }

  /** Reading on from where a complete delivery stopped is complete again. */
  lemma CompleteJoins(
      streams: Streams, coordination: string, p: Positions, items: seq<Item>, q: Positions, more: seq<Item>, t: Positions)
    requires Complete(streams, coordination, p, items, q) && Complete(streams, coordination, q, more, t)
    ensures Complete(streams, coordination, p, items + more, t)
  {
    var all := items + more;
    forall x ensures x in all <==> Waiting(streams, coordination, p, x) && x.event.sequence <= Floor(t, x.run) {
      assert Floor(q, x.run) == Floor(p, x.run) || Within(streams, coordination, p, q, x.run);
      assert Floor(t, x.run) == Floor(q, x.run) || Within(streams, coordination, q, t, x.run);
      assert x in all <==> x in items || x in more;
    }
    forall r ensures Floor(t, r) == Floor(p, r) || Within(streams, coordination, p, t, r) {
      assert Floor(q, r) == Floor(p, r) || Within(streams, coordination, p, q, r);
      assert Floor(t, r) == Floor(q, r) || Within(streams, coordination, q, t, r);
    }
    forall i, j | 0 <= i < j < |all| && all[i].run == all[j].run
      ensures all[i].event.sequence < all[j].event.sequence
    {
      if i < |items| <= j {
        assert items[i] in items && more[j - |items|] in more;
      } else if |items| <= i {
        assert more[i - |items|] == all[i] && more[j - |items|] == all[j];
      }
    }
  }

  /** Exactly once: repeated reads of any page sizes, with events appended in between, deliver
      every event of the coordination's runs up to the cursor once and in per-run order. */
  lemma {:induction false} ReadsAreExactlyOnce(p: Positions, readings: seq<Reading>, coordination: string, less: Order)
    requires StrictTotal(less) && readings != [] && ReadsOk(readings, coordination)
    ensures Complete(readings[|readings| - 1].streams, coordination, p,
                     AllDelivered(p, readings, coordination, less), Cursor(p, readings, coordination, less))
  {
    var n := |readings| - 1;
    var front, last := readings[..n], readings[n];
    var q := Cursor(p, front, coordination, less);
    OneRead(last, coordination, q, less);
    if n > 0 {
      ReadsAreExactlyOnce(p, front, coordination, less);
      assert Extends(readings[n - 1].streams, readings[n].streams);
      CompleteStays(front[n - 1].streams, last.streams, coordination, p, AllDelivered(p, front, coordination, less), q);
    } else {
      assert AllDelivered(p, front, coordination, less) == [];
    }
    CompleteJoins(last.streams, coordination, p, AllDelivered(p, front, coordination, less), q,
                  Selected(last, coordination, q, less), Cursor(p, readings, coordination, less));
  }

  /** When the last page says that there is no more, everything stored has been delivered. */
  lemma CaughtUp(p: Positions, readings: seq<Reading>, coordination: string, less: Order, x: Item)
    requires StrictTotal(less) && readings != [] && ReadsOk(readings, coordination)
    requires var last := readings[|readings| - 1];
      var q := Cursor(p, readings[..|readings| - 1], coordination, less);
      Selected(last, coordination, q, less) == Merged(last.streams, last.runs, coordination, q, less)
    ensures x in AllDelivered(p, readings, coordination, less) <==>
      Waiting(readings[|readings| - 1].streams, coordination, p, x)
  {
    var n := |readings| - 1;
    var last := readings[n];
    var q := Cursor(p, readings[..n], coordination, less);
    ReadsAreExactlyOnce(p, readings, coordination, less);
    MergedFacts(last.streams, last.runs, coordination, q, less);
    var items := Selected(last, coordination, q, less);
    AdvanceFacts(q, items, x.run);
    if Waiting(last.streams, coordination, p, x) && x.event.sequence > Floor(q, x.run) {
      assert x in items;
    }
  }

  lemma OnePassesBy(at: Reading, coordination: string, q: Positions, less: Order, x: Item)
    requires StrictTotal(less) && StreamsOk(at.streams) && Lists(at.runs, at.streams)
    requires x.event.sequence <= Floor(q, x.run)
    ensures x !in Selected(at, coordination, q, less)
    ensures x.event.sequence <= Floor(Advance(q, Selected(at, coordination, q, less)), x.run)
  {
    var s := Merged(at.streams, at.runs, coordination, q, less);
    MergedFacts(at.streams, at.runs, coordination, q, less);
    var m := TakeIsPrefix(s, at.limit);
    assert x !in s;
    AdvanceFacts(q, s[..m], x.run);
  }

  /** What one page skips, no later page delivers. */
  lemma {:induction false} SkippedIsLost(p: Positions, readings: seq<Reading>, coordination: string, less: Order, x: Item)
    requires StrictTotal(less) && x.event.sequence <= Floor(p, x.run)
    requires forall k | 0 <= k < |readings| :: StreamsOk(readings[k].streams) && Lists(readings[k].runs, readings[k].streams)
    ensures x !in AllDelivered(p, readings, coordination, less)
    ensures x.event.sequence <= Floor(Cursor(p, readings, coordination, less), x.run)
  {
    if readings != [] {
      var n := |readings| - 1;
      SkippedIsLost(p, readings[..n], coordination, less, x);
      OnePassesBy(readings[n], coordination, Cursor(p, readings[..n], coordination, less), less, x);
    }
  }

  // -- the execution store's event tables -----------------------------------------------------

  lemma LeaseOpsFrame(db: Db, op: Op)
    requires LeaseOp(op)
    ensures After(db, op).events == db.events
  {}

  lemma OtherOpsFrame(db: Db, op: Op)
    requires !LeaseOp(op) && !op.OpAppendEvent?
    ensures After(db, op).events == db.events
  {}

  /** Every call of the execution store only appends to the event tables, and they are always
      numbered as the merge needs. */
  lemma StoreOnlyExtends(db: Db, op: Op)
    requires WellFormed(db)
    ensures Extends(db.events, After(db, op).events) && StreamsOk(After(db, op).events)
  {
    StepKeepsWellFormed(db, op);
    if LeaseOp(op) { LeaseOpsFrame(db, op); }
    else if op.OpAppendEvent? { AppendExtends(db, op); }
    else { OtherOpsFrame(db, op); }
  }

  lemma AppendExtends(db: Db, op: Op)
    requires op.OpAppendEvent?
    ensures Extends(db.events, After(db, op).events)
  {}
}
