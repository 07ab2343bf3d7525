/** What holds of a durable run under every schedule of workers, crashes, lease expiries,
    takeovers, resolutions and cancellations. */
module RunnerTheorems {
  import opened Values
  import opened Execution
  import opened ExecutionInvariant
  import opened ExecutionFrames
  import opened Durable
  import opened ReactLoop
  import opened Runner
  import opened RunnerChain
  import opened RunnerInvariant

  // -- one iteration, one request ---------------------------------------------------

  /** Two stops of the chain in the same iteration share its state, and after the reply its
      calls. */
  lemma SameIteration(c: Setup, chain: seq<Memory>, a: nat, b: nat)
    requires ChainOk(c, chain) && a < |chain| && b < |chain| && !chain[a].Terminal? && !chain[b].Terminal?
    requires chain[a].state.iteration == chain[b].state.iteration
    ensures chain[a].state == chain[b].state
    ensures chain[a].Tools? && chain[b].Tools? ==> chain[a].calls == chain[b].calls && chain[a].reply == chain[b].reply
  {
    if a < b { assert Later(chain[a], chain[b]); }
    else if b < a { assert Later(chain[b], chain[a]); }
  }

  lemma DomainsDiffer(r: Id, i: nat, j: nat)
    ensures ToolId(r, i, j).domain != "llm" && LlmId(r, i).domain == "llm" && InputId(r, i, j).domain == "input"
    ensures ApprovalId(r, i, j).domain != "input" && ApprovalId(r, i, j).domain != "llm" && ToolId(r, i, j).domain != "input"
  {
    assert |"llm"| == 3 && |"tool"| == 4 && |"input"| == 5 && |"approval"| == 8;
  }

  /** The stop of the chain that a tool effect on the tape belongs to. */
  lemma ToolEffectStop(c: Setup, w: World, i: nat, j: nat) returns (k: nat)
    requires Inv(c, w) && ToolId(c.run, i, j) in w.tape
    ensures k < |w.chain| && InToolPhase(w.chain[k]) && w.chain[k].state.iteration == i && j < |w.chain[k].calls|
    ensures w.tape[ToolId(c.run, i, j)].request == w.chain[k].calls[j]
    ensures Granted(c, w.db.interrupts, i, j, w.chain[k].calls[j])
  {
    var id := ToolId(c.run, i, j);
    var request := w.tape[id].request;
    assert EffectOk(c, w.db.interrupts, w.chain, id, request);
    k :| k < |w.chain| && (ModelEffect(c, w.chain[k], id, request) || ToolEffect(c, w.db.interrupts, w.chain[k], id, request));
    assert MemoryOk(c, w.chain[k]);
    DomainsDiffer(c.run, i, j);
  }

  lemma ModelEffectStop(c: Setup, w: World, i: nat) returns (k: nat)
    requires Inv(c, w) && LlmId(c.run, i) in w.tape
    ensures k < |w.chain| && w.chain[k].BeforeLlm? && w.chain[k].state.iteration == i
    ensures w.tape[LlmId(c.run, i)].request == RequestOf(w.chain[k].state)
  {
    var id := LlmId(c.run, i);
    var request := w.tape[id].request;
    assert EffectOk(c, w.db.interrupts, w.chain, id, request);
    k :| k < |w.chain| && (ModelEffect(c, w.chain[k], id, request) || ToolEffect(c, w.db.interrupts, w.chain[k], id, request));
    assert MemoryOk(c, w.chain[k]);
    if ToolEffect(c, w.db.interrupts, w.chain[k], id, request) { DomainsDiffer(c.run, w.chain[k].state.iteration, id.j); }
  }

  /** The stop at which an input interrupt was asked for. */
  lemma InputStop(c: Setup, w: World, i: nat, j: nat) returns (k: nat)
    requires Inv(c, w) && InputId(c.run, i, j) in w.db.interrupts
    ensures k < |w.chain| && InToolPhase(w.chain[k]) && w.chain[k].state.iteration == i && w.chain[k].next == j
    ensures Needed(c.agent, c.agent.input, w.chain[k].calls[j]).Some?
  {
    var id := InputId(c.run, i, j);
    k := NamesAt(c, w.db.interrupts, w.chain, id);
    InputNamed(c, w.chain[k], i, j);
  }

  lemma NamesAt(c: Setup, interrupts: map<Id, Interrupt>, chain: seq<Memory>, id: Id) returns (k: nat)
    requires ChainOk(c, chain) && NamedOk(c, interrupts, chain) && id in interrupts && OwnInterrupt(c.run, id)
    ensures k < |chain| && Names(chain[k], id) && MemoryOk(c, chain[k])
  {
    k :| k < |chain| && Names(chain[k], id);
  }

  lemma InputNamed(c: Setup, m: Memory, i: nat, j: nat)
    requires MemoryOk(c, m) && Names(m, InputId(c.run, i, j))
    ensures InToolPhase(m) && m.state.iteration == i && m.next == j && Needed(c.agent, c.agent.input, m.calls[j]).Some?
  {
    DomainsDiffer(c.run, m.state.iteration, m.next);
  }

  /** A call that was put to the input boundary never runs, and the other way round. */
  lemma InputNeverRuns(c: Setup, w: World, i: nat, j: nat)
    requires Inv(c, w) && InputId(c.run, i, j) in w.db.interrupts
    ensures ToolId(c.run, i, j) !in w.tape
  {
    if ToolId(c.run, i, j) in w.tape {
      var a := ToolEffectStop(c, w, i, j);
      var b := InputStop(c, w, i, j);
      SameIteration(c, w.chain, a, b);
    }
  }

  /** The request behind an effect id never changes: no worker, however late, is refused for
      reusing an effect id with another request. */
  lemma RequestsNeverConflict(c: Setup, start: World, moves: seq<Move>, token: Id, j: nat)
    requires ValidAgent(c.agent) && Start(c, start) && WellFormed(start.db)
    requires token in Schedule(c, start, moves).workers
    requires Expects(c, Schedule(c, start, moves).db.interrupts, Schedule(c, start, moves).workers[token].mem, j).Some?
    ensures var w := Schedule(c, start, moves);
            var (id, request) := Expects(c, w.db.interrupts, w.workers[token].mem, j).value;
            id in w.tape ==> w.tape[id].request == request
  {
    ScheduleKeeps(c, start, moves);
    ExpectedAgrees(c, Schedule(c, start, moves), token, j);
  }

  lemma ModelRequestAgrees(c: Setup, w: World, k: nat)
    requires Inv(c, w) && k < |w.chain| && w.chain[k].BeforeLlm? && LlmId(c.run, w.chain[k].state.iteration) in w.tape
    ensures w.tape[LlmId(c.run, w.chain[k].state.iteration)].request == RequestOf(w.chain[k].state)
  {
    var a := ModelEffectStop(c, w, w.chain[k].state.iteration);
    SameIteration(c, w.chain, a, k);
  }

  lemma ToolRequestAgrees(c: Setup, w: World, k: nat, j: nat)
    requires Inv(c, w) && k < |w.chain| && w.chain[k].Tools? && j < |w.chain[k].calls|
    requires ToolId(c.run, w.chain[k].state.iteration, j) in w.tape
    ensures w.tape[ToolId(c.run, w.chain[k].state.iteration, j)].request == w.chain[k].calls[j]
  {
    var a := ToolEffectStop(c, w, w.chain[k].state.iteration, j);
    SameIteration(c, w.chain, a, k);
  }

  /** The checkpoint a worker stands on. */
  lemma StandsAt(c: Setup, w: World, token: Id) returns (k: nat)
    requires Inv(c, w) && token in w.workers
    ensures k < |w.chain| && w.chain[k] == w.workers[token].mem && MemoryOk(c, w.chain[k])
  {
    assert WorkerOk(c, w.tape, w.chain, w.workers[token]);
    k := w.workers[token].version - 1;
  }

  lemma ExpectedAgrees(c: Setup, w: World, token: Id, j: nat)
    requires ValidAgent(c.agent) && Inv(c, w) && token in w.workers
    requires Expects(c, w.db.interrupts, w.workers[token].mem, j).Some?
    ensures var (id, request) := Expects(c, w.db.interrupts, w.workers[token].mem, j).value;
            id in w.tape ==> w.tape[id].request == request
  {
    var (id, request) := Expects(c, w.db.interrupts, w.workers[token].mem, j).value;
    var k := StandsAt(c, w, token);
    if id in w.tape {
      if w.chain[k].BeforeLlm? { ModelRequestAgrees(c, w, k); } else { ToolRequestAgrees(c, w, k, j); }
    }
  }

  // -- at most once -------------------------------------------------------------------

  /** The live model submissions among `log`. */
  function Models(log: seq<Id>): seq<Id> {
    if log == [] then []
    else
      var last := log[|log| - 1];
      Models(log[..|log| - 1]) + if last.Digest? && last.domain == "llm" then [last] else []
  }

  predicate Distinct(ids: seq<Id>) { forall a, b | 0 <= a < b < |ids| :: ids[a] != ids[b] }

  lemma {:induction false} ModelsOf(log: seq<Id>)
    requires Distinct(log)
    ensures Distinct(Models(log))
    ensures forall a | 0 <= a < |Models(log)| :: Models(log)[a] in log && Models(log)[a].Digest? && Models(log)[a].domain == "llm"
  {
    if log != [] { ModelsOf(log[..|log| - 1]); }
  }

  /** The model call of one of the first `n` iterations. */
  predicate ModelIdBelow(r: Id, n: nat, id: Id) { id.Digest? && id == LlmId(r, id.i) && id.i < n }

  lemma {:induction false} BoundedByIterations(ids: seq<Id>, r: Id, n: nat)
    requires Distinct(ids) && forall a | 0 <= a < |ids| :: ModelIdBelow(r, n, ids[a])
    ensures |ids| <= n
    decreases n
  {
    if ids != [] {
      assert ModelIdBelow(r, n, ids[0]);
      var last := LlmId(r, n - 1);
      if last in ids {
        var a: nat :| a < |ids| && ids[a] == last;
        var rest := ids[..a] + ids[a + 1..];
        forall b | 0 <= b < |rest| ensures ModelIdBelow(r, n - 1, rest[b]) {
          assert rest[b] == ids[if b < a then b else b + 1];
        }
        BoundedByIterations(rest, r, n - 1);
      } else {
        forall b | 0 <= b < |ids| ensures ModelIdBelow(r, n - 1, ids[b]) { assert ModelIdBelow(r, n, ids[b]); }
        BoundedByIterations(ids, r, n - 1);
      }
    }
  }

  lemma ModelIdBounded(c: Setup, w: World, id: Id)
    requires Inv(c, w) && id in w.tape && id.Digest? && id.domain == "llm"
    ensures ModelIdBelow(c.run, c.agent.maxIterations, id)
  {
    var request := w.tape[id].request;
    assert EffectOk(c, w.db.interrupts, w.chain, id, request);
    var k: nat :| k < |w.chain| && (ModelEffect(c, w.chain[k], id, request) || ToolEffect(c, w.db.interrupts, w.chain[k], id, request));
    assert MemoryOk(c, w.chain[k]);
    if ToolEffect(c, w.db.interrupts, w.chain[k], id, request) { DomainsDiffer(c.run, w.chain[k].state.iteration, id.j); }
  }

  lemma LogBounded(c: Setup, w: World)
    requires Inv(c, w)
    ensures Distinct(w.log) && |Models(w.log)| <= c.agent.maxIterations
  {
    assert LogOk(w.tape, w.log);
    ModelsOf(w.log);
    forall a | 0 <= a < |Models(w.log)| ensures ModelIdBelow(c.run, c.agent.maxIterations, Models(w.log)[a]) {
      ModelIdBounded(c, w, Models(w.log)[a]);
    }
    BoundedByIterations(Models(w.log), c.run, c.agent.maxIterations);
  }

  /** Over any number of owners and crashes, every model call and every tool call is
      submitted live at most once, and there are never more model submissions than
      iterations. */
  lemma EffectsAtMostOnce(c: Setup, start: World, moves: seq<Move>)
    requires ValidAgent(c.agent) && Start(c, start) && WellFormed(start.db)
    ensures Distinct(Schedule(c, start, moves).log)
    ensures |Models(Schedule(c, start, moves).log)| <= c.agent.maxIterations
  {
    ScheduleKeeps(c, start, moves);
    LogBounded(c, Schedule(c, start, moves));
  }

  // -- the approval gate -------------------------------------------------------------------

  /** The call's input policy does not ask, and if its approval policy does, the interrupt of
      exactly this run, iteration and index was allowed. */
  ghost predicate Cleared(c: Setup, w: World, i: nat, j: nat) {
    var id := ToolId(c.run, i, j);
    && id in w.tape && Needed(c.agent, c.agent.input, w.tape[id].request).None?
    && InputId(c.run, i, j) !in w.db.interrupts
    && (Needed(c.agent, c.agent.approval, w.tape[id].request).Some? ==> IsAllowed(w.db.interrupts, ApprovalId(c.run, i, j)))
  }

  lemma StartedCleared(c: Setup, w: World, i: nat, j: nat)
    requires Inv(c, w) && ToolId(c.run, i, j) in w.tape
    ensures Cleared(c, w, i, j)
  {
    var k := ToolEffectStop(c, w, i, j);
    if InputId(c.run, i, j) in w.db.interrupts { InputNeverRuns(c, w, i, j); }
  }

  /** Approval gate: every tool call that was ever started had been cleared, and a call that
      was answered through the input policy never runs. */
  lemma ApprovalGate(c: Setup, start: World, moves: seq<Move>, i: nat, j: nat)
    requires ValidAgent(c.agent) && Start(c, start) && WellFormed(start.db)
    requires ToolId(c.run, i, j) in Schedule(c, start, moves).log
    ensures Cleared(c, Schedule(c, start, moves), i, j)
  {
    ScheduleKeeps(c, start, moves);
    StartedCleared(c, Schedule(c, start, moves), i, j);
  }

  /** The interrupt that a checkpoint names is there, allowed, and of the right kind. */
  predicate Resumable(interrupts: map<Id, Interrupt>, m: Memory) {
    && (WaitsFor(m).Some? ==> IsAllowed(interrupts, WaitsFor(m).value))
    && (m.Tools? && m.input.Some? ==> m.input.value in interrupts && interrupts[m.input.value].kind == "input")
  }

  lemma OwnerLatest(c: Setup, w: World, token: Id, now: real)
    requires Inv(c, w) && token in w.workers && Owns(w.db, c.run, token, now)
    ensures w.chain != [] && w.workers[token].version == |w.chain|
    ensures w.workers[token].mem == w.chain[|w.chain| - 1] && MemoryOk(c, w.workers[token].mem)
  {
    assert WorkerOk(c, w.tape, w.chain, w.workers[token]);
    var last: nat := w.workers[token].version - 1;
    assert MemoryOk(c, w.chain[last]);
  }

  lemma NamedKind(c: Setup, w: World, i: nat, j: nat)
    requires Inv(c, w) && InputId(c.run, i, j) in w.db.interrupts
    ensures w.db.interrupts[InputId(c.run, i, j)].kind == "input"
  {
    assert OwnInterrupt(c.run, InputId(c.run, i, j));
  }

  lemma OwnerResumable(c: Setup, w: World, token: Id, now: real)
    requires Inv(c, w) && token in w.workers && Owns(w.db, c.run, token, now)
    ensures Resumable(w.db.interrupts, w.workers[token].mem)
  {
    OwnerLatest(c, w, token, now);
    var m := w.workers[token].mem;
    if m.Tools? && m.input.Some? { NamedKind(c, w, m.state.iteration, m.next); }
  }

  /** The checks a resumed runner makes cannot fail for the owner of the lease. */
  lemma ResumeChecksHold(c: Setup, start: World, moves: seq<Move>, token: Id, now: real)
    requires ValidAgent(c.agent) && Start(c, start) && WellFormed(start.db)
    requires token in Schedule(c, start, moves).workers && Owns(Schedule(c, start, moves).db, c.run, token, now)
    ensures Resumable(Schedule(c, start, moves).db.interrupts, Schedule(c, start, moves).workers[token].mem)
  {
    ScheduleKeeps(c, start, moves);
    OwnerResumable(c, Schedule(c, start, moves), token, now);
  }

  /** Nothing stands in the way of this suspension: its id is new, no other interrupt is
      pending, and the checkpoint version is free. */
  ghost predicate RoomFor(c: Setup, w: World, q: Question, version: nat) {
    && q.id !in w.db.interrupts && (forall i :: !PendingOn(w.db.interrupts, c.run, i))
    && (c.run, version + 1) !in w.db.checkpoints
  }

  lemma NothingPending(c: Setup, w: World)
    requires Inv(c, w) && w.db.runs[c.run].state == Running
    ensures forall i :: !PendingOn(w.db.interrupts, c.run, i)
    ensures (c.run, |w.chain| + 1) !in w.db.checkpoints
  {}

  lemma QuestionIsNew(c: Setup, w: World, m: Memory, q: Question)
    requires Inv(c, w) && w.chain != [] && m == w.chain[|w.chain| - 1] && m.Tools?
    requires !Names(m, q.id) && OwnInterrupt(c.run, q.id) && q.id.i == m.state.iteration && q.id.j == m.next
    ensures q.id !in w.db.interrupts
  {
    if q.id in w.db.interrupts {
      var k := NamingStop(c, w, q.id);
      NameStays(c, w.chain, k, |w.chain| - 1, q.id);
    }
  }

  lemma AskNamesNothingYet(c: Setup, m: Memory)
    requires ValidAgent(c.agent) && MemoryOk(c, m) && Asks(c, m).Some?
    ensures var q := Asks(c, m).value;
            m.Tools? && !Names(m, q.id) && OwnInterrupt(c.run, q.id) && q.id.i == m.state.iteration && q.id.j == m.next
  {
    AskOk(c, m);
    QuestionShape(c, m);
  }

  lemma OwnerHasRoom(c: Setup, w: World, token: Id, now: real)
    requires ValidAgent(c.agent) && Inv(c, w) && token in w.workers && Owns(w.db, c.run, token, now)
    requires Asks(c, w.workers[token].mem).Some?
    ensures RoomFor(c, w, Asks(c, w.workers[token].mem).value, w.workers[token].version)
  {
    OwnerLatest(c, w, token, now);
    NothingPending(c, w);
    AskNamesNothingYet(c, w.workers[token].mem);
    QuestionIsNew(c, w, w.workers[token].mem, Asks(c, w.workers[token].mem).value);
  }

  /** A suspension never meets an interrupt id that is taken, nor a pending interrupt. */
  lemma SuspensionsNeverCollide(c: Setup, start: World, moves: seq<Move>, token: Id, now: real)
    requires ValidAgent(c.agent) && Start(c, start) && WellFormed(start.db)
    requires token in Schedule(c, start, moves).workers && Owns(Schedule(c, start, moves).db, c.run, token, now)
    requires Asks(c, Schedule(c, start, moves).workers[token].mem).Some?
    ensures var w := Schedule(c, start, moves);
            RoomFor(c, w, Asks(c, w.workers[token].mem).value, w.workers[token].version)
  {
    ScheduleKeeps(c, start, moves);
    OwnerHasRoom(c, Schedule(c, start, moves), token, now);
  }

  /** The stop of the chain that named an interrupt, and what it was for. */
  lemma NamingStop(c: Setup, w: World, id: Id) returns (k: nat)
    requires Inv(c, w) && id in w.db.interrupts && OwnInterrupt(c.run, id)
    ensures k < |w.chain| && Names(w.chain[k], id) && InToolPhase(w.chain[k])
    ensures id.Digest? && w.chain[k].state.iteration == id.i && w.chain[k].next == id.j
  {
    k := NamesAt(c, w.db.interrupts, w.chain, id);
    NamedMemory(c, w.chain[k], id);
  }

  lemma NamedMemory(c: Setup, m: Memory, id: Id)
    requires MemoryOk(c, m) && Names(m, id)
    ensures InToolPhase(m) && id.Digest? && m.state.iteration == id.i && m.next == id.j
  {}

  /** A name stays on the checkpoints until its call is answered. */
  lemma NameStays(c: Setup, chain: seq<Memory>, k: nat, l: nat, id: Id)
    requires ChainOk(c, chain) && k <= l < |chain| && Names(chain[k], id) && chain[l].Tools?
    requires chain[l].state.iteration == chain[k].state.iteration && chain[l].next == chain[k].next
    ensures Names(chain[l], id)
  {
    if k < l { assert Later(chain[k], chain[l]); }
  }
}
