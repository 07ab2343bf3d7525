/** How a durable run ends: its terminal row can always be restored into a final result, a
    completed run into its natural one; and how far a turn brings it. */
module RunnerSettlement {
  import opened Values
  import opened Execution
  import opened ExecutionInvariant
  import opened Durable
  import opened ReactLoop
  import opened Runner
  import opened RunnerChain
  import opened RunnerInvariant

  // -- restoring a settled run --------------------------------------------------------

  /** The metadata, and with it the claim store the run is bound to, never changes. */
  predicate SameMetadata(c: Setup, m: Memory) {
    m.state.metadata == c.initial.metadata && (m.Terminal? ==> m.result.state.metadata == c.initial.metadata)
  }

  lemma MetadataFollows(c: Setup, m: Memory, n: Memory)
    requires Follows(c, m, n) && SameMetadata(c, m)
    ensures SameMetadata(c, n)
  {}

  lemma {:induction false} MetadataKept(c: Setup, chain: seq<Memory>, k: nat)
    requires ChainOk(c, chain) && k < |chain|
    ensures SameMetadata(c, chain[k])
  {
    if k > 0 {
      MetadataKept(c, chain, k - 1);
      assert Follows(c, chain[k - 1], chain[k]);
      MetadataFollows(c, chain[k - 1], chain[k]);
    }
  }

  /** The latest checkpoint of a run, as the store returns it. */
  function LatestCheckpoint(db: Db, r: Id): Option<Checkpoint> {
    if r in db.runs && (r, db.runs[r].version) in db.checkpoints then Some(db.checkpoints[(r, db.runs[r].version)]) else None
  }

  lemma LatestIsLast(c: Setup, w: World)
    requires Inv(c, w)
    ensures LatestCheckpoint(w.db, c.run) == if w.chain == [] then None else Some(Encode(w.chain[|w.chain| - 1]))
    ensures w.chain != [] ==> MemoryOk(c, w.chain[|w.chain| - 1]) && SameMetadata(c, w.chain[|w.chain| - 1])
  {
    if w.chain != [] {
      var last: nat := |w.chain| - 1;
      assert MemoryOk(c, w.chain[last]) && w.db.checkpoints[(c.run, last + 1)] == Encode(w.chain[last]);
      MetadataKept(c, w.chain, last);
    }
  }

  lemma TerminalRestores(m: Memory, run: Run, store: string)
    requires m.Terminal? && Writable(m) && BoundTo(m.result.state, store)
    ensures SettledResult(run, Some(Encode(m)), store) == Some(m.result)
  {
    CheckpointRoundTrip(m);
    PhasesDiffer(m);
  }

  lemma UnfinishedRestores(m: Memory, run: Run, store: string)
    requires !m.Terminal? && Writable(m) && BoundTo(m.state, store) && run.state in {Failed, Cancelled}
    ensures var s := SettledResult(run, Some(Encode(m)), store);
            s.Some? && s.value.state == m.state && s.value.stopReason == (if run.state == Cancelled then CANCELLED else ERROR)
  {
    PhasesDiffer(m);
    SchemaReads(m);
    StateReads(m);
  }

  /** What restoring the run gives. */
  ghost predicate RestoresWell(run: Run, latest: Option<Checkpoint>, store: string) {
    var s := SettledResult(run, latest, store);
    && s.Some?
    && (run.state == Completed ==> Natural(s.value) && run.result == Some(FinalPayload(s.value)))
  }

  lemma SettledRestores(c: Setup, w: World, store: string)
    requires Inv(c, w) && BoundTo(c.initial, store) && w.db.runs[c.run].state in {Completed, Failed, Cancelled}
    ensures RestoresWell(w.db.runs[c.run], LatestCheckpoint(w.db, c.run), store)
  {
    LatestIsLast(c, w);
    if w.chain != [] {
      var m := w.chain[|w.chain| - 1];
      MemoryWritable(c, m);
      if m.Terminal? { TerminalRestores(m, w.db.runs[c.run], store); }
      else { UnfinishedRestores(m, w.db.runs[c.run], store); }
    }
  }

  /** Restoring a terminal run never fails, and a completed run restores to a natural result
      that is also the result in its row. */
  lemma SettledRunsRestore(c: Setup, start: World, moves: seq<Move>, store: string)
    requires ValidAgent(c.agent) && Start(c, start) && WellFormed(start.db) && BoundTo(c.initial, store)
    requires c.run in Schedule(c, start, moves).db.runs
    requires Schedule(c, start, moves).db.runs[c.run].state in {Completed, Failed, Cancelled}
    ensures RestoresWell(Schedule(c, start, moves).db.runs[c.run],
                         LatestCheckpoint(Schedule(c, start, moves).db, c.run), store)
  {
    ScheduleKeeps(c, start, moves);
    SettledRestores(c, Schedule(c, start, moves), store);
  }

  // -- history -----------------------------------------------------------------------------

  /** A tool checkpoint holds one result for each call before `next`, in order, through any
      mix of batches, external answers and approvals. */
  predicate ToolStateOk(m: Memory) {
    m.Tools? ==> |m.results| == m.next <= |m.calls| && ResultsAnswer(m.calls, m.results)
  }

  /** The checkpoint history of a run: it starts from the initial state, each checkpoint is
      the next stop of the loop, a suspension on the spot or a cancellation, and no tool
      result is lost or misplaced. */
  lemma CheckpointHistory(c: Setup, start: World, moves: seq<Move>, k: nat)
    requires ValidAgent(c.agent) && Start(c, start) && WellFormed(start.db)
    requires k < |Schedule(c, start, moves).chain|
    ensures var chain := Schedule(c, start, moves).chain;
            && (k == 0 ==> chain[k] == Ready(c.initial))
            && (k > 0 ==> Follows(c, chain[k - 1], chain[k]))
            && ToolStateOk(chain[k])
  {
    ScheduleKeeps(c, start, moves);
    HistoryOf(c, Schedule(c, start, moves).chain, k);
  }

  lemma HistoryOf(c: Setup, chain: seq<Memory>, k: nat)
    requires ChainOk(c, chain) && k < |chain|
    ensures k == 0 ==> chain[k] == Ready(c.initial)
    ensures k > 0 ==> Follows(c, chain[k - 1], chain[k])
    ensures ToolStateOk(chain[k])
  {
    assert MemoryOk(c, chain[k]);
  }

  // -- progress ------------------------------------------------------------------------------

  function IterationsLeft(c: Setup, m: Memory): nat {
    if m.state.iteration < c.agent.maxIterations then c.agent.maxIterations - m.state.iteration else 0
  }

  function CallsLeft(m: Memory): nat { if m.Tools? && m.next <= |m.calls| then |m.calls| - m.next else 0 }

  /** A terminal checkpoint can be replaced once, by a cancellation. */
  function EndsLeft(m: Memory): nat {
    if !m.Terminal? then 2 else if m.result.stopReason != CANCELLED then 1 else 0
  }

  /** The lexicographic measure: ends, iterations, phase, calls. */
  predicate Closer(c: Setup, m: Memory, n: Memory) {
    || EndsLeft(n) < EndsLeft(m)
    || (EndsLeft(n) == EndsLeft(m) &&
        (|| IterationsLeft(c, n) < IterationsLeft(c, m)
         || (IterationsLeft(c, n) == IterationsLeft(c, m) &&
             (Rank(m) < Rank(n) || (Rank(n) == Rank(m) && CallsLeft(n) < CallsLeft(m))))))
  }

  /** Every turn that is not a suspension brings the run strictly closer to its end. */
  lemma TurnsComeCloser(c: Setup, tape: map<Id, Effect>, interrupts: map<Id, Interrupt>, m: Memory, got: map<nat, Value>, cancel: bool)
    requires ValidAgent(c.agent) && MemoryOk(c, m) && GotOk(c, tape, m, got) && TapeFits(tape)
    requires NextMemory(c, interrupts, m, got, cancel).Some?
    ensures Closer(c, m, NextMemory(c, interrupts, m, got, cancel).value)
  {
    TurnOk(c, tape, interrupts, m, got, cancel);
    if m.Tools? && !cancel && InToolPhase(m) && m.input.None? {
      BatchIsClear(c.agent, m.calls, m.next, m.approval.Some?);
    }
  }

  /** A suspension stays where it is. */
  lemma SuspensionsStay(c: Setup, m: Memory)
    requires ValidAgent(c.agent) && MemoryOk(c, m) && Asks(c, m).Some?
    ensures var n := Asks(c, m).value.memory;
            EndsLeft(n) == EndsLeft(m) && IterationsLeft(c, n) == IterationsLeft(c, m) && Rank(n) == Rank(m) && CallsLeft(n) == CallsLeft(m)
  {
    AskOk(c, m);
  }
}
