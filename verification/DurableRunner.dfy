/** The runner as the program runs it: one process, its phase loop and its calls on the store
    and the harness. Every step it takes is a move of the system `Runner` describes, so
    everything proved about schedules holds of it; and the loop always ends. */
module DurableRunner {
  import opened Values
  import opened Execution
  import opened ExecutionFrames
  import opened ExecutionInvariant
  import opened ExecutionSettlement
  import opened Store
  import opened Durable
  import opened ReactLoop
  import opened Runner
  import opened RunnerChain
  import opened RunnerInvariant
  import opened RunnerRefinement
  import opened RunnerSettlement

  /** How `run_to_completion` ends. */
  datatype Ending = Final(result: FinalResult) | SuspendedOn(id: Id) | Raised

  /** Worlds that follow each other by the given moves. */
  ghost predicate Trace(c: Setup, worlds: seq<World>, moves: seq<Move>)
    requires ValidAgent(c.agent)
  {
    && |worlds| == |moves| + 1
    && forall k {:trigger moves[k]} | 0 <= k < |moves| :: worlds[k + 1] == Do(c, worlds[k], moves[k])
  }

  lemma TraceSnoc(c: Setup, worlds: seq<World>, moves: seq<Move>, move: Move)
    requires ValidAgent(c.agent) && Trace(c, worlds, moves)
    ensures Trace(c, worlds + [Do(c, worlds[|moves|], move)], moves + [move])
  {
    var more, all := worlds + [Do(c, worlds[|moves|], move)], moves + [move];
    forall k {:trigger all[k]} | 0 <= k < |all| ensures more[k + 1] == Do(c, more[k], all[k]) {
      if k < |moves| { assert all[k] == moves[k] && more[k] == worlds[k] && more[k + 1] == worlds[k + 1]; }
    }
  }

  // -- one more move

  lemma OtherTraced(c: Setup, worlds: seq<World>, moves: seq<Move>, op: Op)
    requires ValidAgent(c.agent) && Trace(c, worlds, moves)
    ensures Trace(c, worlds + [OthersCall(c, worlds[|moves|], op)], moves + [Env(op)])
  {
    TraceSnoc(c, worlds, moves, Env(op));
  }

  lemma BeginTraced(c: Setup, worlds: seq<World>, moves: seq<Move>, token: Id, now: real, raised: Option<Error>, db: Db)
    returns (next: World)
    requires ValidAgent(c.agent) && Trace(c, worlds, moves) && token in worlds[|moves|].claimed
    requires var w := worlds[|moves|];
      Returned(SaveCheckpoint(w.db, c.run, token, 0, Encode(Ready(c.initial)), now), w.db, db, raised)
    ensures Trace(c, worlds + [next], moves + [Begin(token, now)]) && Began(c, worlds[|moves|], next, token, raised, db)
  {
    next := BeginRun(c, worlds[|moves|], token, now);
    BeginMoves(c, worlds[|moves|], token, now, raised, db);
    BeginExtends(c, worlds, moves, token, now);
  }

  ghost predicate Began(c: Setup, w: World, next: World, token: Id, raised: Option<Error>, db: Db) {
    && next.db == db && next.tape == w.tape && next.claimed == w.claimed
    && (raised.None? ==> token in next.workers && next.workers[token] == Worker(1, Ready(c.initial), map[]))
  }

  lemma BeginExtends(c: Setup, worlds: seq<World>, moves: seq<Move>, token: Id, now: real)
    requires ValidAgent(c.agent) && Trace(c, worlds, moves)
    ensures Trace(c, worlds + [BeginRun(c, worlds[|moves|], token, now)], moves + [Begin(token, now)])
  {
    TraceSnoc(c, worlds, moves, Begin(token, now));
  }

  lemma LoadTraced(c: Setup, worlds: seq<World>, moves: seq<Move>, token: Id)
    requires ValidAgent(c.agent) && Trace(c, worlds, moves)
    ensures Trace(c, worlds + [LoadLatest(c, worlds[|moves|], token)], moves + [Load(token)])
  {
    TraceSnoc(c, worlds, moves, Load(token));
  }

  lemma SubmitTraced(c: Setup, worlds: seq<World>, moves: seq<Move>, token: Id, j: nat)
    requires ValidAgent(c.agent) && Trace(c, worlds, moves)
    ensures Trace(c, worlds + [Submit(c, worlds[|moves|], token, j)], moves + [Submits(token, j)])
  {
    TraceSnoc(c, worlds, moves, Submits(token, j));
  }

  lemma OutcomeTraced(c: Setup, worlds: seq<World>, moves: seq<Move>, id: Id, outcome: Value)
    requires ValidAgent(c.agent) && Trace(c, worlds, moves)
    ensures Trace(c, worlds + [Conclude(worlds[|moves|], id, outcome)], moves + [Settles(id, outcome)])
  {
    TraceSnoc(c, worlds, moves, Settles(id, outcome));
  }

  lemma ReceiveTraced(c: Setup, worlds: seq<World>, moves: seq<Move>, token: Id, j: nat)
    requires ValidAgent(c.agent) && Trace(c, worlds, moves)
    ensures Trace(c, worlds + [Deliver(c, worlds[|moves|], token, j)], moves + [Receive(token, j)])
  {
    TraceSnoc(c, worlds, moves, Receive(token, j));
  }

  lemma SaveTraced(c: Setup, worlds: seq<World>, moves: seq<Move>, token: Id, now: real, cancel: bool, n: Memory, raised: Option<Error>, db: Db)
    returns (next: World)
    requires ValidAgent(c.agent) && Trace(c, worlds, moves)
    requires var w := worlds[|moves|];
      && token in w.workers && c.run in w.db.runs && (cancel ==> w.db.runs[c.run].cancel)
      && NextMemory(c, w.db.interrupts, w.workers[token].mem, w.workers[token].got, cancel) == Some(n)
      && Returned(SaveCheckpoint(w.db, c.run, token, w.workers[token].version, Encode(n), now), w.db, db, raised)
    ensures Trace(c, worlds + [next], moves + [Save(token, now, cancel)]) && Wrote(worlds[|moves|], next, token, n, raised, db)
  {
    next := SaveTurn(c, worlds[|moves|], token, now, cancel);
    SaveMoves(c, worlds[|moves|], token, now, cancel, n, raised, db);
    SaveExtends(c, worlds, moves, token, now, cancel);
  }

  lemma SaveExtends(c: Setup, worlds: seq<World>, moves: seq<Move>, token: Id, now: real, cancel: bool)
    requires ValidAgent(c.agent) && Trace(c, worlds, moves)
    ensures Trace(c, worlds + [SaveTurn(c, worlds[|moves|], token, now, cancel)], moves + [Save(token, now, cancel)])
  {
    TraceSnoc(c, worlds, moves, Save(token, now, cancel));
  }

  /** What a save, accepted or refused, makes of the world. */
  ghost predicate Wrote(w: World, next: World, token: Id, n: Memory, raised: Option<Error>, db: Db)
    requires token in w.workers
  {
    && next.db == db && next.tape == w.tape && next.claimed == w.claimed && token in next.workers
    && next.workers[token] == if raised.None? then Worker(w.workers[token].version + 1, n, map[]) else w.workers[token]
  }

  lemma AskTraced(c: Setup, worlds: seq<World>, moves: seq<Move>, token: Id, now: real)
    requires ValidAgent(c.agent) && Trace(c, worlds, moves)
    ensures Trace(c, worlds + [AskTurn(c, worlds[|moves|], token, now)], moves + [Ask(token, now)])
  {
    TraceSnoc(c, worlds, moves, Ask(token, now));
  }

  lemma SettleTraced(c: Setup, worlds: seq<World>, moves: seq<Move>, token: Id, now: real)
    requires ValidAgent(c.agent) && Trace(c, worlds, moves)
    ensures Trace(c, worlds + [SettleTurn(c, worlds[|moves|], token, now)], moves + [Settle(token, now)])
  {
    TraceSnoc(c, worlds, moves, Settle(token, now));
  }

  lemma AbortTraced(c: Setup, worlds: seq<World>, moves: seq<Move>, token: Id, error: Value, now: real)
    requires ValidAgent(c.agent) && Trace(c, worlds, moves)
    ensures Trace(c, worlds + [AbortTurn(c, worlds[|moves|], token, error, now)], moves + [Abort(token, error, now)])
  {
    TraceSnoc(c, worlds, moves, Abort(token, error, now));
  }

  lemma {:induction false} TraceIsSchedule(c: Setup, worlds: seq<World>, moves: seq<Move>)
    requires ValidAgent(c.agent) && Trace(c, worlds, moves)
    ensures worlds[|moves|] == Schedule(c, worlds[0], moves)
    decreases |moves|
  {
    if moves != [] {
      var last := |moves| - 1;
      assert forall k | 0 <= k < last :: moves[..last][k] == moves[k];
      TraceIsSchedule(c, worlds[..|moves|], moves[..last]);
      assert worlds[|moves|] == Do(c, worlds[last], moves[last]);
    }
  }

  // -- planning, as loops ---------------------------------------------------------------

  /** The scan of a candidate batch by one policy. */
  method ScanBoundary(agent: Agent, policy: Value -> Option<Value>, calls: seq<Value>, next: nat, n: nat) returns (stop: Option<nat>)
    requires next + n <= |calls|
    ensures stop == FirstStop(agent, policy, calls, next, n, 0)
  {
    var offset := 0;
    while offset < n
      invariant offset <= n
      invariant FirstStop(agent, policy, calls, next, n, 0) == FirstStop(agent, policy, calls, next, n, offset)
    {
      if !agent.registered(calls[next + offset]) { return None; }
      if policy(calls[next + offset]).Some? { return Some(offset); }
      offset := offset + 1;
    }
    return None;
  }

  method MakePlan(agent: Agent, calls: seq<Value>, next: nat, approved: bool) returns (plan: Plan)
    requires ValidAgent(agent) && next < |calls|
    ensures plan == PlanFor(agent, calls, next, approved)
  {
    var batch := ParallelCount(agent, calls, next);
    var stop := ScanBoundary(agent, agent.input, calls, next, batch);
    if stop == Some(0) { return AskInput(agent.input(calls[next]).value); }
    if stop.Some? { batch := stop.value; }
    if approved { return RunBatch(1); }
    stop := ScanBoundary(agent, agent.approval, calls, next, batch);
    if stop == Some(0) { return AskApproval(agent.approval(calls[next]).value); }
    if stop.Some? { batch := stop.value; }
    return RunBatch(batch);
  }

  class ReActRunner {
    const c: Setup
    const token: Id
    const store: ExecutionStore
    var tape: map<Id, Effect>
    var loaded: bool
    var version: nat
    var mem: Memory
    var got: map<nat, Value>
    var issued: set<Id>

    /** The world this process acts in, and how it came about. */
    ghost const start: World
    ghost var w: World
    ghost var worlds: seq<World>
    ghost var moves: seq<Move>

    /** The world is what the recorded moves made of the start. */
    ghost predicate Traced()
      reads this
    {
      ValidAgent(c.agent) && Trace(c, worlds, moves) && worlds[0] == start && worlds[|moves|] == w
    }

    /** This process holds what the world says its worker holds. */
    ghost predicate Holding()
      reads this
    {
      && Traced()
      && w.tape == tape && token in issued && w.claimed == issued
      && (loaded ==> token in w.workers && w.workers[token] == Worker(version, mem, got))
    }

    ghost predicate Valid()
      reads this, store
    {
      Holding() && w.db == store.State()
    }

    /** A process joins a run in any state it can be in, with a token it has claimed. */
    constructor (c: Setup, token: Id, store: ExecutionStore, tape: map<Id, Effect>, issued: set<Id>,
                 ghost worlds: seq<World>, ghost moves: seq<Move>)
      requires ValidAgent(c.agent) && Trace(c, worlds, moves) && FreshStart(c, worlds[0])
      requires var w := worlds[|moves|]; w.db == store.State() && w.tape == tape && w.claimed == issued && token in issued
      ensures Valid() && FreshStart(this.c, start) && !loaded && this.c == c && this.token == token && this.store == store
      ensures this.moves == moves && this.worlds == worlds
    {
      this.c, this.token, this.store, this.tape := c, token, store, tape;
      loaded, version, mem, got, this.issued := false, 0, Ready(c.initial), map[], issued;
      start, this.w, this.worlds, this.moves := worlds[0], worlds[|moves|], worlds, moves;
    }

    /** Notes the move that was made. */
    ghost method Note(next: World, move: Move)
      requires Traced() && Trace(c, worlds + [next], moves + [move])
      modifies this`w, this`worlds, this`moves
      ensures Traced() && w == next && moves == old(moves) + [move]
    {
      w, worlds, moves := next, worlds + [next], moves + [move];
    }

    // -- everybody else

    /** One call by someone else: a cancellation, an answer, a renewal, a takeover of an
        expired lease, or anything on other runs. */
    method Other(op: Op)
      requires Valid() && FreshStart(c, start) && OthersMay(c, issued, op)
      modifies this`issued, this`w, this`worlds, this`moves, store
      ensures Valid() && StillThere(c, old(store.State()), store.State())
    {
      TraceInOrder(c, worlds, moves);
      OthersLeave(c, store.State(), op);
      OtherMoves(c, w, op);
      var raised := store.Perform(op);
      issued := Issued(c, issued, op);
      OtherTraced(c, worlds, moves, op);
      Note(OthersCall(c, w, op), Env(op));
    }

    /** Between two statements of this process others may make any number of calls. */
    method Others()
      requires Valid() && FreshStart(c, start)
      modifies this`issued, this`w, this`worlds, this`moves, store
      ensures Valid() && StillThere(c, old(store.State()), store.State())
    {
      var n: nat := *;
      while n > 0
        invariant Valid() && StillThere(c, old(store.State()), store.State())
      {
        var op: Op := *;
        ghost var before := store.State();
        if OthersMay(c, issued, op) {
          Other(op);
          StillThereThrough(c, old(store.State()), before, store.State());
        }
        n := n - 1;
      }
    }

    // -- checkpoints

    /** Takes note of what the store made of a save. */
    method NoteSave(ghost next: World, ghost move: Move, n: Memory, raised: Option<Error>) returns (saved: bool)
      requires Holding() && loaded && Trace(c, worlds + [next], moves + [move])
      requires Wrote(w, next, token, n, raised, store.State())
      modifies this`version, this`mem, this`got, this`w, this`worlds, this`moves
      ensures Valid()
      ensures saved ==> mem == n && got == map[]
    {
      Note(next, move);
      if raised.None? { version, mem, got := version + 1, n, map[]; }
      saved := raised.None?;
    }

    /** Saves a turn's checkpoint; a refused save leaves everything as it was. */
    method WriteNext(n: Memory, cancel: bool) returns (saved: bool)
      requires Valid() && loaded && c.run in store.runs && (cancel ==> store.runs[c.run].cancel)
      requires NextMemory(c, store.interrupts, mem, got, cancel) == Some(n)
      modifies this`version, this`mem, this`got, this`w, this`worlds, this`moves, store
      ensures Valid()
      ensures saved ==> mem == n && got == map[]
    {
      var now: real := *;
      var raised := store.SaveCheckpoint(c.run, token, version, Encode(n), now);
      ghost var next := SaveTraced(c, worlds, moves, token, now, cancel, n, raised, store.State());
      saved := NoteSave(next, Save(token, now, cancel), n, raised);
    }

    /** The end of a turn: the next checkpoint, closer to the end of the run. */
    method SaveNext(n: Memory, cancel: bool) returns (saved: bool)
      requires Valid() && FreshStart(c, start) && loaded && c.run in store.runs && (cancel ==> store.runs[c.run].cancel)
      requires NextMemory(c, store.interrupts, mem, got, cancel) == Some(n)
      modifies this`version, this`mem, this`got, this`w, this`worlds, this`moves, store
      ensures Valid()
      ensures saved ==> mem == n && got == map[]
      ensures saved ==> Closer(c, old(mem), mem)
    {
      TraceCloser(c, worlds, moves, token, n, cancel);
      saved := WriteNext(n, cancel);
    }

    /** Saves a turn's checkpoint after the time its calls took. */
    method SaveLater(n: Memory) returns (saved: bool)
      requires Valid() && FreshStart(c, start) && loaded && c.run in store.runs
      requires StaysNext(c, store.State(), mem, got, n)
      modifies this`issued, this`version, this`mem, this`got, this`w, this`worlds, this`moves, store
      ensures Valid()
      ensures saved ==> Closer(c, old(mem), mem)
    {
      Others();
      saved := SaveNext(n, false);
    }

    /** Restores the latest checkpoint, or saves the first one. */
    method LoadOrBegin() returns (ok: bool)
      requires Valid() && !loaded
      modifies this`loaded, this`version, this`mem, this`got, this`w, this`worlds, this`moves, store
      ensures Valid() && ok == loaded
    {
      if c.run !in store.runs { return false; }
      var latest := store.runs[c.run].version;
      if (c.run, latest) in store.checkpoints {
        var m := Decode(store.checkpoints[(c.run, latest)]);
        if m.None? { return false; }
        LoadMoves(c, w, token);
        LoadTraced(c, worlds, moves, token);
        Note(LoadLatest(c, w, token), Load(token));
        loaded, version, mem, got := true, latest, m.value, map[];
        return true;
      }
      ok := BeginNew();
    }

    /** A run without a checkpoint begins with its first one. */
    method BeginNew() returns (ok: bool)
      requires Valid() && !loaded
      modifies this`loaded, this`version, this`mem, this`got, this`w, this`worlds, this`moves, store
      ensures Valid() && ok == loaded
    {
      var now: real := *;
      var raised := store.SaveCheckpoint(c.run, token, 0, Encode(Ready(c.initial)), now);
      ghost var next := BeginTraced(c, worlds, moves, token, now, raised, store.State());
      ok := NoteBegin(next, Begin(token, now), raised);
    }

    /** Takes note of what the store made of the first checkpoint. */
    method NoteBegin(ghost next: World, ghost move: Move, raised: Option<Error>) returns (ok: bool)
      requires Holding() && !loaded && Trace(c, worlds + [next], moves + [move])
      requires Began(c, w, next, token, raised, store.State())
      modifies this`loaded, this`version, this`mem, this`got, this`w, this`worlds, this`moves
      ensures Valid() && ok == loaded
    {
      Note(next, move);
      if raised.None? { loaded, version, mem, got := true, 1, Ready(c.initial), map[]; }
      return loaded;
    }

    // -- the harness

    /** A live submission: the intent goes on the tape first, the outcome when there is one. */
    method SubmitLive(j: nat, id: Id, request: Value) returns (ok: bool)
      requires Valid() && loaded && Expects(c, store.interrupts, mem, j) == Some((id, request)) && id !in tape
      modifies this`tape, this`w, this`worlds, this`moves
      ensures Valid()
      ensures ok ==> id in tape && tape[id].request == request && tape[id].outcome.Some?
    {
      SubmitMoves(c, w, token, j);
      SubmitTraced(c, worlds, moves, token, j);
      Note(Submit(c, w, token, j), Submits(token, j));
      tape := tape[id := Effect(request, None)];
      var outcome: Value := *;
      if !OutcomeFits(id, request, outcome) { return false; }
      OutcomeTraced(c, worlds, moves, id, outcome);
      Note(Conclude(w, id, outcome), Settles(id, outcome));
      tape := tape[id := Effect(request, Some(outcome))];
      return true;
    }

    /** One effect: a recorded outcome is replayed, an intent without an outcome is refused,
        and anything else is submitted, once. */
    method CallEffect(j: nat, id: Id, request: Value) returns (ok: bool)
      requires Valid() && loaded && Expects(c, store.interrupts, mem, j) == Some((id, request))
      modifies this`tape, this`got, this`w, this`worlds, this`moves
      ensures Valid()
      ensures got.Keys == if ok then old(got).Keys + {j} else old(got).Keys
    {
      if id !in tape {
        ok := SubmitLive(j, id, request);
        if !ok { return; }
      }
      if tape[id].request != request || tape[id].outcome.None? { return false; }
      ReceiveMoves(c, w, token, j);
      ReceiveTraced(c, worlds, moves, token, j);
      Note(Deliver(c, w, token, j), Receive(token, j));
      got := got[j := tape[id].outcome.value];
      return true;
    }

    // -- one turn of the loop

    /** Runs the calls of a batch; the harness keeps their outcomes. */
    method RunCalls(n: nat) returns (ok: bool)
      requires Valid() && loaded && InToolPhase(mem) && mem.input.None? && mem.next + n <= |mem.calls|
      requires mem.approval.Some? ==> IsAllowed(store.interrupts, mem.approval.value)
      requires PlanFor(c.agent, mem.calls, mem.next, mem.approval.Some?) == RunBatch(n)
      modifies this`tape, this`got, this`w, this`worlds, this`moves
      ensures Valid()
      ensures ok ==> forall k | mem.next <= k < mem.next + n :: k in got
    {
      var j := mem.next;
      while j < mem.next + n
        invariant Valid() && mem.next <= j <= mem.next + n
        invariant forall k | mem.next <= k < j :: k in got
      {
        ok := CallEffect(j, ToolId(c.run, mem.state.iteration, j), mem.calls[j]);
        if !ok { return; }
        j := j + 1;
      }
      return true;
    }

    /** A model turn: the call of this iteration, then the checkpoint after it. */
    method ModelTurn() returns (saved: bool)
      requires Valid() && FreshStart(c, start) && loaded && mem.BeforeLlm? && c.run in store.runs
      modifies this`tape, this`version, this`mem, this`got, this`issued, this`w, this`worlds, this`moves, store
      ensures Valid() && loaded
      ensures saved ==> Closer(c, old(mem), mem)
    {
      var ok := CallEffect(0, mem.effect, RequestOf(mem.state));
      if !ok || !got[0].Model? { return false; }
      var reply := got[0].reply;
      var calls := ExtractCalls(reply.content);
      ModelNext(c, store.State(), mem, got);
      saved := SaveLater(Tools(mem.state, false, mem.effect, reply, calls, [], 0, None, None));
    }

    /** Takes note of what the store made of a suspension. */
    method NoteAsk(q: Question, ghost now: real, raised: Option<Error>) returns (ending: Ending)
      requires Holding() && loaded && Asks(c, mem) == Some(q)
      requires Returned(Suspend(w.db, c.run, token, version, Encode(q.memory), q.id, q.kind, q.request, now), w.db, store.State(), raised)
      modifies this`loaded, this`w, this`worlds, this`moves
      ensures Valid() && (ending == SuspendedOn(q.id) || ending == Raised)
    {
      AskMoves(c, w, token, now, q, raised, store.State());
      AskTraced(c, worlds, moves, token, now);
      Note(AskTurn(c, w, token, now), Ask(token, now));
      if raised.Some? { return Raised; }
      loaded := false;
      return SuspendedOn(q.id);
    }

    /** Suspends for an external answer or approval. */
    method AskNow(q: Question) returns (ending: Ending)
      requires Valid() && loaded && Asks(c, mem) == Some(q)
      modifies this`loaded, this`w, this`worlds, this`moves, store
      ensures Valid() && (ending == SuspendedOn(q.id) || ending == Raised)
    {
      var now: real := *;
      var raised := store.Suspend(c.run, token, version, Encode(q.memory), q.id, q.kind, q.request, now);
      ending := NoteAsk(q, now, raised);
    }

    /** A tool turn: an external answer, a question, or a batch of calls. */
    method ToolTurn() returns (saved: bool, ending: Option<Ending>)
      requires Valid() && FreshStart(c, start) && loaded && InToolPhase(mem) && c.run in store.runs
      modifies this`issued, this`loaded, this`tape, this`version, this`mem, this`got, this`w, this`worlds, this`moves, store
      ensures Valid() && (ending.None? ==> loaded)
      ensures saved ==> ending.None? && Closer(c, old(mem), mem)
      ensures ending.Some? ==> !ending.value.Final?
    {
      if mem.input.Some? {
        var i := mem.input.value;
        if !IsAllowed(store.interrupts, i) || store.interrupts[i].kind != "input" { return false, None; }
        saved := SaveNext(Acted(mem, [Answer(c.agent, mem.calls[mem.next], store.interrupts[i].response)]), false);
        return saved, None;
      }
      var plan := MakePlan(c.agent, mem.calls, mem.next, mem.approval.Some?);
      match plan
      case AskInput(request) =>
        var id := InputId(c.run, mem.state.iteration, mem.next);
        var e := AskNow(Question(mem.(input := Some(id)), id, "input", request));
        return false, Some(e);
      case AskApproval(request) =>
        var id := ApprovalId(c.run, mem.state.iteration, mem.next);
        var e := AskNow(Question(mem.(approval := Some(id)), id, "approval", request));
        return false, Some(e);
      case RunBatch(n) =>
        if mem.approval.Some? && !IsAllowed(store.interrupts, mem.approval.value) { return false, None; }
        BatchIsClear(c.agent, mem.calls, mem.next, mem.approval.Some?);
        saved := BatchTurn(n);
        return saved, None;
    }

    /** The calls of a batch and the checkpoint with their results. */
    method BatchTurn(n: nat) returns (saved: bool)
      requires Valid() && FreshStart(c, start) && loaded && InToolPhase(mem) && mem.input.None? && mem.next + n <= |mem.calls| && c.run in store.runs
      requires mem.approval.Some? ==> IsAllowed(store.interrupts, mem.approval.value)
      requires PlanFor(c.agent, mem.calls, mem.next, mem.approval.Some?) == RunBatch(n)
      modifies this`issued, this`tape, this`version, this`mem, this`got, this`w, this`worlds, this`moves, store
      ensures Valid() && loaded
      ensures saved ==> Closer(c, old(mem), mem)
    {
      var ok := RunCalls(n);
      if !ok { return false; }
      BatchNext(c, store.State(), mem, got, n);
      saved := SaveLater(Acted(mem, Collect(got, mem.next, n)));
    }

    /** The terminal transition for the result of the latest checkpoint. */
    method SettleNow() returns (raised: Option<Error>)
      requires Valid() && loaded && mem.Terminal?
      modifies this`w, this`worlds, this`moves, store
      ensures Valid()
      ensures raised.None? ==> c.run in store.runs && SettledAs(store.runs[c.run], mem.result)
    {
      var now: real := *;
      var op := SettleOp(c, token, mem.result, now);
      if mem.result.stopReason == CANCELLED {
        raised := store.FinishCancelled(c.run, token, now);
      } else if Natural(mem.result) {
        raised := store.CompleteRun(c.run, token, FinalPayload(mem.result), now);
      } else {
        raised := store.FailRun(c.run, token, op.error, now);
      }
      SettleMoves(c, w, token, now, raised, store.State());
      SettleTraced(c, worlds, moves, token, now);
      Note(SettleTurn(c, w, token, now), Settle(token, now));
    }

    /** An exception escaped: the run is failed if the lease still stands, and the process
        stops. */
    method Fail()
      requires Valid()
      modifies this`loaded, this`w, this`worlds, this`moves, store
      ensures Valid() && !loaded
    {
      var now: real := *;
      var error: Value := *;
      var raised := store.FailRun(c.run, token, error, now);
      AbortMoves(c, w, token, error, now, raised, store.State());
      AbortTraced(c, worlds, moves, token, error, now);
      Note(AbortTurn(c, w, token, error, now), Abort(token, error, now));
      loaded := false;
    }

    /** One turn of the loop; `cancel` is the cancel request as it was read at its start. */
    method Turn(cancel: bool) returns (saved: bool, ending: Option<Ending>)
      requires Valid() && FreshStart(c, start) && loaded && c.run in store.runs && cancel == store.runs[c.run].cancel
      modifies this`issued, this`loaded, this`tape, this`version, this`mem, this`got, this`w, this`worlds, this`moves, store
      ensures Valid() && (ending.None? ==> loaded)
      ensures saved ==> ending.None? && Closer(c, old(mem), mem)
      ensures ending.Some? && ending.value.Final? ==>
        loaded && mem.Terminal? && mem.result == ending.value.result && c.run in store.runs && SettledAs(store.runs[c.run], mem.result)
    {
      ending := None;
      if mem.Terminal? {
        if cancel && mem.result.stopReason != CANCELLED {
          saved := SaveNext(Terminal(mem.state, CancelledResult(mem.state)), true);
          return;
        }
        Others();
        var raised := SettleNow();
        if raised.None? { return false, Some(Final(mem.result)); }
        if c.run !in store.runs || !store.runs[c.run].cancel || mem.result.stopReason == CANCELLED { return false, None; }
        saved := SaveNext(Terminal(mem.state, CancelledResult(mem.state)), true);
      } else if cancel {
        saved := SaveNext(Terminal(mem.state, CancelledResult(mem.state)), true);
      } else if mem.Ready? {
        if mem.state.iteration >= c.agent.maxIterations {
          saved := SaveNext(Terminal(mem.state, MaxIterationsResult(mem.state)), false);
        } else {
          saved := SaveNext(BeforeLlm(mem.state, LlmId(c.run, mem.state.iteration)), false);
        }
      } else if mem.BeforeLlm? {
        saved := ModelTurn();
      } else {
        saved, ending := ReplyTurn();
      }
    }

    /** What follows a reply that leaves no call to make. */
    method ReplyNext() returns (n: Memory)
      requires ValidAgent(c.agent) && mem.Tools? && !InToolPhase(mem)
      ensures NextMemory(c, store.interrupts, mem, got, false) == Some(n)
    {
      if mem.reply.stopReason == "error" { return Terminal(mem.state, ErrorResult(mem.state, mem.reply)); }
      if mem.calls != [] { return Ready(Advance(mem.state, mem.reply, mem.results)); }
      if mem.reply.stopReason == "tool_use" { return Terminal(mem.state, MalformedResult(mem.state)); }
      var result := FinishedResult(c.agent, mem.state, mem.reply);
      return Terminal(result.state, result);
    }

    /** A turn after a reply. */
    method ReplyTurn() returns (saved: bool, ending: Option<Ending>)
      requires Valid() && FreshStart(c, start) && loaded && mem.Tools? && c.run in store.runs
      modifies this`issued, this`loaded, this`tape, this`version, this`mem, this`got, this`w, this`worlds, this`moves, store
      ensures Valid() && (ending.None? ==> loaded)
      ensures saved ==> ending.None? && Closer(c, old(mem), mem)
      ensures ending.Some? ==> !ending.value.Final?
    {
      if InToolPhase(mem) {
        saved, ending := ToolTurn();
      } else {
        var n := ReplyNext();
        saved := SaveNext(n, false);
        ending := None;
      }
    }

    /** One pass: the cancel request is read again, after whatever others have done. */
    method Pass() returns (saved: bool, ending: Option<Ending>)
      requires Valid() && FreshStart(c, start) && loaded && c.run in store.runs
      modifies this`issued, this`loaded, this`tape, this`version, this`mem, this`got, this`w, this`worlds, this`moves, store
      ensures Valid() && (ending.None? ==> loaded)
      ensures saved ==> ending.None? && Closer(c, old(mem), mem)
      ensures ending.Some? && ending.value.Final? ==> Concluded(ending.value.result)
    {
      Others();
      saved, ending := Turn(store.runs[c.run].cancel);
      if ending.Some? && ending.value.Final? { TraceFinal(c, worlds, moves, token); }
    }

    /** The run's row was settled with the result, which is the plain loop's on the recorded
        outcomes unless the run was cancelled. */
    ghost predicate Concluded(result: FinalResult)
      requires ValidAgent(c.agent)
      reads this, store
    {
      && c.run in store.runs && SettledAs(store.runs[c.run], result)
      && (result.stopReason != CANCELLED ==>
            forall o | Agrees(c, o, tape, store.interrupts) :: result == Loop(c.agent, o, c.initial))
    }

    /** The phase loop. It always ends: with a final result that is the plain loop's (unless
        the run was cancelled) and that the run's row was settled with, with a suspension, or
        with an exception. */
    method RunToCompletion() returns (ending: Ending)
      requires Valid() && FreshStart(c, start) && !loaded
      modifies this`issued, this`loaded, this`tape, this`version, this`mem, this`got, this`w, this`worlds, this`moves, store
      ensures Valid()
      ensures ending.Final? ==> Concluded(ending.result)
    {
      Others();
      var ok := LoadOrBegin();
      if ok { ending := Phases(); } else { ending := Raised; }
      if ending.Raised? { Fail(); }
    }

    /** One pass after the other, until one of them ends the run or raises. */
    method Phases() returns (ending: Ending)
      requires Valid() && FreshStart(c, start) && loaded
      modifies this`issued, this`loaded, this`tape, this`version, this`mem, this`got, this`w, this`worlds, this`moves, store
      ensures Valid()
      ensures ending.Final? ==> Concluded(ending.result)
    {
      while c.run in store.runs
        invariant Valid() && loaded
        decreases EndsLeft(mem), IterationsLeft(c, mem), 3 - Rank(mem), CallsLeft(mem)
      {
        var saved, step := Pass();
        if step.Some? { return step.value; }
        if !saved { return Raised; }
      }
      return Raised;
    }
  }

  /** The turn's next checkpoint, whatever others do meanwhile. */
  ghost predicate StaysNext(c: Setup, db: Db, m: Memory, got: map<nat, Value>, n: Memory)
    requires ValidAgent(c.agent)
  {
    forall later | StillThere(c, db, later) :: NextMemory(c, later.interrupts, m, got, false) == Some(n)
  }

  lemma ModelNext(c: Setup, db: Db, m: Memory, got: map<nat, Value>)
    requires ValidAgent(c.agent) && m.BeforeLlm? && 0 in got && got[0].Model?
    ensures StaysNext(c, db, m, got, Tools(m.state, false, m.effect, got[0].reply, ExtractCalls(got[0].reply.content), [], 0, None, None))
  {}

  lemma BatchNext(c: Setup, db: Db, m: Memory, got: map<nat, Value>, n: nat)
    requires ValidAgent(c.agent) && InToolPhase(m) && m.input.None? && m.next + n <= |m.calls|
    requires m.approval.Some? ==> IsAllowed(db.interrupts, m.approval.value)
    requires PlanFor(c.agent, m.calls, m.next, m.approval.Some?) == RunBatch(n)
    requires forall k | m.next <= k < m.next + n :: k in got
    ensures StaysNext(c, db, m, got, Acted(m, Collect(got, m.next, n)))
  {}

  /** Others never make a run disappear, nor an allowed interrupt change. */
  ghost predicate StillThere(c: Setup, a: Db, b: Db) {
    && (c.run in a.runs ==> c.run in b.runs)
    && forall i | IsAllowed(a.interrupts, i) :: i in b.interrupts && b.interrupts[i] == a.interrupts[i]
  }

  lemma StillThereThrough(c: Setup, a: Db, b: Db, d: Db)
    requires StillThere(c, a, b) && StillThere(c, b, d)
    ensures StillThere(c, a, d)
  {}

  lemma OtherMoves(c: Setup, w: World, op: Op)
    requires ValidAgent(c.agent) && OthersMay(c, w.claimed, op)
    ensures var next := OthersCall(c, w, op);
            && next.db == After(w.db, op) && next.tape == w.tape && next.workers == w.workers
            && next.claimed == Issued(c, w.claimed, op)
  {}

  lemma TraceInOrder(c: Setup, worlds: seq<World>, moves: seq<Move>)
    requires ValidAgent(c.agent) && Trace(c, worlds, moves) && FreshStart(c, worlds[0])
    ensures WellFormed(worlds[|moves|].db)
  {
    TraceInv(c, worlds, moves);
  }

  lemma OthersLeave(c: Setup, db: Db, op: Op)
    ensures StillThere(c, db, After(db, op))
  {
    StepInterrupts(db, op);
    if c.run in db.runs { StepMoves(db, op, c.run); }
  }

  lemma SaveMoves(c: Setup, w: World, token: Id, now: real, cancel: bool, n: Memory, raised: Option<Error>, db: Db)
    requires ValidAgent(c.agent) && token in w.workers && c.run in w.db.runs && (cancel ==> w.db.runs[c.run].cancel)
    requires NextMemory(c, w.db.interrupts, w.workers[token].mem, w.workers[token].got, cancel) == Some(n)
    requires Returned(SaveCheckpoint(w.db, c.run, token, w.workers[token].version, Encode(n), now), w.db, db, raised)
    ensures Wrote(w, SaveTurn(c, w, token, now, cancel), token, n, raised, db)
  {}

  lemma LoadMoves(c: Setup, w: World, token: Id)
    requires ValidAgent(c.agent) && token in w.claimed && c.run in w.db.runs
    requires (c.run, w.db.runs[c.run].version) in w.db.checkpoints
    requires Decode(w.db.checkpoints[(c.run, w.db.runs[c.run].version)]).Some?
    ensures var next := LoadLatest(c, w, token);
            && next.db == w.db && next.tape == w.tape && next.claimed == w.claimed && token in next.workers
            && next.workers[token] == Worker(w.db.runs[c.run].version, Decode(w.db.checkpoints[(c.run, w.db.runs[c.run].version)]).value, map[])
  {}

  lemma BeginMoves(c: Setup, w: World, token: Id, now: real, raised: Option<Error>, db: Db)
    requires ValidAgent(c.agent) && token in w.claimed
    requires Returned(SaveCheckpoint(w.db, c.run, token, 0, Encode(Ready(c.initial)), now), w.db, db, raised)
    ensures Began(c, w, BeginRun(c, w, token, now), token, raised, db)
  {}

  lemma SubmitMoves(c: Setup, w: World, token: Id, j: nat)
    requires ValidAgent(c.agent) && token in w.workers && Expects(c, w.db.interrupts, w.workers[token].mem, j).Some?
    requires Expects(c, w.db.interrupts, w.workers[token].mem, j).value.0 !in w.tape
    ensures var (id, request) := Expects(c, w.db.interrupts, w.workers[token].mem, j).value;
            var next := Submit(c, w, token, j);
            next.db == w.db && next.tape == w.tape[id := Effect(request, None)] && next.claimed == w.claimed && next.workers == w.workers
  {}

  lemma ReceiveMoves(c: Setup, w: World, token: Id, j: nat)
    requires ValidAgent(c.agent) && token in w.workers && Expects(c, w.db.interrupts, w.workers[token].mem, j).Some?
    requires var (id, request) := Expects(c, w.db.interrupts, w.workers[token].mem, j).value;
             id in w.tape && w.tape[id].request == request && w.tape[id].outcome.Some?
    ensures var id := Expects(c, w.db.interrupts, w.workers[token].mem, j).value.0;
            var next := Deliver(c, w, token, j);
            && next.db == w.db && next.tape == w.tape && next.claimed == w.claimed && token in next.workers
            && next.workers[token] == w.workers[token].(got := w.workers[token].got[j := w.tape[id].outcome.value])
  {}

  lemma AskMoves(c: Setup, w: World, token: Id, now: real, q: Question, raised: Option<Error>, db: Db)
    requires ValidAgent(c.agent) && token in w.workers && Asks(c, w.workers[token].mem) == Some(q)
    requires Returned(Suspend(w.db, c.run, token, w.workers[token].version, Encode(q.memory), q.id, q.kind, q.request, now), w.db, db, raised)
    ensures var next := AskTurn(c, w, token, now);
            && next.db == db && next.tape == w.tape && next.claimed == w.claimed
            && (raised.Some? ==> next == w)
  {
    AskIsTurn(c, w, token, now, q);
  }

  lemma AskIsTurn(c: Setup, w: World, token: Id, now: real, q: Question)
    requires ValidAgent(c.agent) && token in w.workers && Asks(c, w.workers[token].mem) == Some(q)
    ensures var s := Suspend(w.db, c.run, token, w.workers[token].version, Encode(q.memory), q.id, q.kind, q.request, now);
            AskTurn(c, w, token, now) ==
            if s.Ok? then w.(db := s.value, chain := w.chain + [q.memory], workers := w.workers - {token}) else w
  {}

  ghost predicate FreshStart(c: Setup, start: World) { Start(c, start) && WellFormed(start.db) }

  lemma TraceInv(c: Setup, worlds: seq<World>, moves: seq<Move>)
    requires ValidAgent(c.agent) && Trace(c, worlds, moves) && FreshStart(c, worlds[0])
    ensures Inv(c, worlds[|moves|])
  {
    TraceIsSchedule(c, worlds, moves);
    ScheduleKeeps(c, worlds[0], moves);
  }

  lemma NextCloser(c: Setup, w: World, token: Id, n: Memory, cancel: bool)
    requires ValidAgent(c.agent) && Inv(c, w) && token in w.workers
    requires NextMemory(c, w.db.interrupts, w.workers[token].mem, w.workers[token].got, cancel) == Some(n)
    ensures Closer(c, w.workers[token].mem, n)
  {
    assert WorkerOk(c, w.tape, w.chain, w.workers[token]);
    var k: nat := w.workers[token].version - 1;
    assert MemoryOk(c, w.chain[k]);
    TurnsComeCloser(c, w.tape, w.db.interrupts, w.workers[token].mem, w.workers[token].got, cancel);
  }

  /** Every saved turn comes closer to the end of the run. */
  lemma TraceCloser(c: Setup, worlds: seq<World>, moves: seq<Move>, token: Id, n: Memory, cancel: bool)
    requires ValidAgent(c.agent) && Trace(c, worlds, moves) && FreshStart(c, worlds[0])
    requires var w := worlds[|moves|];
             token in w.workers && NextMemory(c, w.db.interrupts, w.workers[token].mem, w.workers[token].got, cancel) == Some(n)
    ensures Closer(c, worlds[|moves|].workers[token].mem, n)
  {
    TraceInv(c, worlds, moves);
    NextCloser(c, worlds[|moves|], token, n, cancel);
  }

  /** The row a result is settled with. */
  predicate SettledAs(run: Run, result: FinalResult) {
    if result.stopReason == CANCELLED then run.state == Cancelled
    else if Natural(result) then run.state == Completed && run.result == Some(FinalPayload(result))
    else run.state == Failed
  }

  ghost function SettleCall(c: Setup, db: Db, token: Id, result: FinalResult, now: real): Result<Db, Error> {
    if result.stopReason == CANCELLED then FinishCancelled(db, c.run, token, now)
    else if Natural(result) then CompleteRun(db, c.run, token, FinalPayload(result), now)
    else FailRun(db, c.run, token, SettleOp(c, token, result, now).error, now)
  }

  lemma SettleIsStep(c: Setup, db: Db, token: Id, result: FinalResult, now: real)
    ensures Step(db, SettleOp(c, token, result, now)) == SettleCall(c, db, token, result, now)
  {
    var op := SettleOp(c, token, result, now);
    if result.stopReason == CANCELLED { assert op.OpFinishCancelled?; }
    else if Natural(result) { assert op.OpComplete?; }
    else { assert op.OpFail?; }
  }

  lemma CompletionSettles(db: Db, r: Id, token: Id, result: Value, now: real)
    ensures var s := CompleteRun(db, r, token, result, now);
            s.Ok? ==> r in s.value.runs && s.value.runs[r].state == Completed && s.value.runs[r].result == Some(result)
  {}

  lemma FailureSettles(db: Db, r: Id, token: Id, error: Value, now: real)
    ensures var s := FailRun(db, r, token, error, now); s.Ok? ==> r in s.value.runs && s.value.runs[r].state == Failed
  {}

  lemma CancellationSettles(db: Db, r: Id, token: Id, now: real)
    ensures var s := FinishCancelled(db, r, token, now); s.Ok? ==> r in s.value.runs && s.value.runs[r].state == Cancelled
  {}

  lemma SettleSettles(c: Setup, db: Db, token: Id, result: FinalResult, now: real)
    ensures var s := SettleCall(c, db, token, result, now);
            s.Ok? ==> c.run in s.value.runs && SettledAs(s.value.runs[c.run], result)
  {
    if result.stopReason == CANCELLED { CancellationSettles(db, c.run, token, now); }
    else if Natural(result) { CompletionSettles(db, c.run, token, FinalPayload(result), now); }
    else { FailureSettles(db, c.run, token, SettleOp(c, token, result, now).error, now); }
  }

  lemma SettleMoves(c: Setup, w: World, token: Id, now: real, raised: Option<Error>, db: Db)
    requires ValidAgent(c.agent) && token in w.workers && w.workers[token].mem.Terminal?
    requires Returned(SettleCall(c, w.db, token, w.workers[token].mem.result, now), w.db, db, raised)
    ensures var next := SettleTurn(c, w, token, now);
            next.db == db && next.tape == w.tape && next.claimed == w.claimed && next.workers == w.workers
    ensures raised.None? ==> c.run in db.runs && SettledAs(db.runs[c.run], w.workers[token].mem.result)
  {
    SettleIsStep(c, w.db, token, w.workers[token].mem.result, now);
    SettleSettles(c, w.db, token, w.workers[token].mem.result, now);
  }

  lemma AbortMoves(c: Setup, w: World, token: Id, error: Value, now: real, raised: Option<Error>, db: Db)
    requires ValidAgent(c.agent) && token in w.claimed
    requires Returned(FailRun(w.db, c.run, token, error, now), w.db, db, raised)
    ensures var next := AbortTurn(c, w, token, error, now);
            next.db == db && next.tape == w.tape && next.claimed == w.claimed
  {}

  lemma FinalIsTheLoops(c: Setup, w: World, token: Id, o: Oracle)
    requires Inv(c, w) && token in w.workers && w.workers[token].mem.Terminal? && ChainOnTrack(c, o, w.chain)
    ensures var result := w.workers[token].mem.result; result.stopReason != CANCELLED ==> result == Loop(c.agent, o, c.initial)
  {
    assert WorkerOk(c, w.tape, w.chain, w.workers[token]);
    var k: nat := w.workers[token].version - 1;
    assert OnTrack(c, o, w.chain[k]);
  }

  /** A worker that stands on a terminal checkpoint holds the plain loop's result. */
  lemma TraceFinal(c: Setup, worlds: seq<World>, moves: seq<Move>, token: Id)
    requires ValidAgent(c.agent) && Trace(c, worlds, moves) && FreshStart(c, worlds[0])
    requires token in worlds[|moves|].workers && worlds[|moves|].workers[token].mem.Terminal?
    ensures var w := worlds[|moves|];
            var result := w.workers[token].mem.result;
            result.stopReason != CANCELLED ==>
              forall o | Agrees(c, o, w.tape, w.db.interrupts) :: result == Loop(c.agent, o, c.initial)
  {
    var w := worlds[|moves|];
    TraceIsSchedule(c, worlds, moves);
    TraceInv(c, worlds, moves);
    if w.workers[token].mem.result.stopReason != CANCELLED {
      forall o | Agrees(c, o, w.tape, w.db.interrupts) ensures w.workers[token].mem.result == Loop(c.agent, o, c.initial) {
        ScheduleOnTrack(c, o, worlds[0], moves);
        FinalIsTheLoops(c, w, token, o);
      }
    }
  }
}
