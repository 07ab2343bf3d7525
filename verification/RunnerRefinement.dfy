/** The crashing system refines the plain loop: whatever the schedule, a durable run that ends
    of its own accord ends in the result the uninterrupted loop computes from the same
    outcomes, and its checkpoints are stops of that loop. */
module RunnerRefinement {
  import opened Values
  import opened Execution
  import opened ExecutionInvariant
  import opened ExecutionFrames
  import opened Durable
  import opened ReactLoop
  import opened Runner
  import opened RunnerChain
  import opened RunnerInvariant
  import opened RunnerTheorems

  ghost predicate ChainOnTrack(c: Setup, o: Oracle, chain: seq<Memory>) {
    forall k: nat | k < |chain| :: OnTrack(c, o, chain[k])
  }

  // -- outcomes are never taken back ------------------------------------------------

  predicate TapeExtends(tape: map<Id, Effect>, next: map<Id, Effect>) {
    forall id | id in tape :: id in next && next[id].request == tape[id].request
                              && (tape[id].outcome.Some? ==> next[id] == tape[id])
  }

  ghost predicate AnswersStay(interrupts: map<Id, Interrupt>, next: map<Id, Interrupt>) {
    forall i | IsAllowed(interrupts, i) :: IsAllowed(next, i) && next[i] == interrupts[i]
  }

  lemma AgreesBefore(c: Setup, o: Oracle, tape: map<Id, Effect>, next: map<Id, Effect>,
                     interrupts: map<Id, Interrupt>, later: map<Id, Interrupt>)
    requires TapeExtends(tape, next) && AnswersStay(interrupts, later) && Agrees(c, o, next, later)
    ensures Agrees(c, o, tape, interrupts)
  {
    forall i: nat, j: nat, call | IsAllowed(interrupts, InputId(c.run, i, j))
      ensures o.tool(i, j, call) == Answer(c.agent, call, interrupts[InputId(c.run, i, j)].response)
    {
      assert IsAllowed(later, InputId(c.run, i, j));
    }
  }

  lemma CallAnswersStay(db: Db, op: Op)
    ensures AnswersStay(db.interrupts, After(db, op).interrupts)
  {
    StepInterrupts(db, op);
  }

  lemma TurnAnswersStay(c: Setup, w: World, move: Move)
    requires ValidAgent(c.agent) && (move.Env? || move.Settle? || move.Abort?)
    ensures AnswersStay(w.db.interrupts, Do(c, w, move).db.interrupts) && TapeExtends(w.tape, Do(c, w, move).tape)
    ensures Do(c, w, move).chain == w.chain
  {
    match move
    case Env(op) => CallAnswersStay(w.db, op);
    case Settle(token, now) =>
      if token in w.workers && w.workers[token].mem.Terminal? {
        CallAnswersStay(w.db, SettleOp(c, token, w.workers[token].mem.result, now));
      }
    case Abort(token, error, now) => CallAnswersStay(w.db, OpFail(c.run, token, error, now));
  }

  lemma SaveAnswersStay(c: Setup, w: World, move: Move)
    requires ValidAgent(c.agent) && (move.Begin? || move.Save?)
    ensures AnswersStay(w.db.interrupts, Do(c, w, move).db.interrupts) && TapeExtends(w.tape, Do(c, w, move).tape)
  {}

  lemma SuspendAnswersStay(db: Db, r: Id, token: Id, expected: nat, cp: Checkpoint, i: Id, kind: string, request: Value, now: real)
    ensures var s := Suspend(db, r, token, expected, cp, i, kind, request, now);
            s.Ok? ==> AnswersStay(db.interrupts, s.value.interrupts)
  {}

  lemma AskAnswersStay(c: Setup, w: World, token: Id, now: real)
    requires ValidAgent(c.agent)
    ensures AnswersStay(w.db.interrupts, AskTurn(c, w, token, now).db.interrupts) && TapeExtends(w.tape, AskTurn(c, w, token, now).tape)
  {
    if token in w.workers && Asks(c, w.workers[token].mem).Some? {
      var q := Asks(c, w.workers[token].mem).value;
      SuspendAnswersStay(w.db, c.run, token, w.workers[token].version, Encode(q.memory), q.id, q.kind, q.request, now);
    }
  }

  lemma TapeMovesStay(c: Setup, w: World, move: Move)
    requires ValidAgent(c.agent) && (move.Load? || move.Submits? || move.Settles? || move.Receive? || move.Crash?)
    ensures AnswersStay(w.db.interrupts, Do(c, w, move).db.interrupts) && TapeExtends(w.tape, Do(c, w, move).tape)
    ensures Do(c, w, move).chain == w.chain
  {}

  // -- every checkpoint is a stop of the loop -------------------------------------------

  lemma AppendOnTrack(c: Setup, o: Oracle, chain: seq<Memory>, n: Memory)
    requires ChainOnTrack(c, o, chain) && OnTrack(c, o, n)
    ensures ChainOnTrack(c, o, chain + [n])
  {}

  lemma SaveOnTrack(c: Setup, o: Oracle, w: World, token: Id, now: real, cancel: bool)
    requires ValidAgent(c.agent) && Inv(c, w) && Agrees(c, o, w.tape, w.db.interrupts) && ChainOnTrack(c, o, w.chain)
    ensures ChainOnTrack(c, o, SaveTurn(c, w, token, now, cancel).chain)
  {
    if SaveTurn(c, w, token, now, cancel) != w {
      var worker := w.workers[token];
      var last: nat := worker.version - 1;
      assert WorkerOk(c, w.tape, w.chain, worker);
      assert MemoryOk(c, w.chain[last]) && OnTrack(c, o, w.chain[last]);
      TurnOnTrack(c, o, w.tape, w.db.interrupts, worker.mem, worker.got, cancel);
      AppendOnTrack(c, o, w.chain, NextMemory(c, w.db.interrupts, worker.mem, worker.got, cancel).value);
    }
  }

  lemma QuestionOnTrack(c: Setup, o: Oracle, m: Memory)
    requires ValidAgent(c.agent) && OnTrack(c, o, m) && Asks(c, m).Some?
    ensures OnTrack(c, o, Asks(c, m).value.memory)
  {}

  lemma AskOnTrack(c: Setup, o: Oracle, w: World, token: Id, now: real)
    requires ValidAgent(c.agent) && Inv(c, w) && ChainOnTrack(c, o, w.chain)
    ensures ChainOnTrack(c, o, AskTurn(c, w, token, now).chain)
  {
    if AskTurn(c, w, token, now) != w {
      var worker := w.workers[token];
      var last: nat := worker.version - 1;
      assert WorkerOk(c, w.tape, w.chain, worker) && OnTrack(c, o, w.chain[last]);
      QuestionOnTrack(c, o, worker.mem);
      AppendOnTrack(c, o, w.chain, Asks(c, worker.mem).value.memory);
    }
  }

  lemma BeginOnTrack(c: Setup, o: Oracle, w: World, token: Id, now: real)
    requires Inv(c, w) && ChainOnTrack(c, o, w.chain)
    ensures ChainOnTrack(c, o, BeginRun(c, w, token, now).chain)
  {
    if BeginRun(c, w, token, now) != w { AppendOnTrack(c, o, w.chain, Ready(c.initial)); }
  }

  /** The outcomes known before a step are known after it. */
  lemma StepExtends(c: Setup, w: World, move: Move)
    requires ValidAgent(c.agent)
    ensures AnswersStay(w.db.interrupts, Do(c, w, move).db.interrupts) && TapeExtends(w.tape, Do(c, w, move).tape)
  {
    if move.Env? || move.Settle? || move.Abort? { TurnAnswersStay(c, w, move); }
    else if move.Begin? || move.Save? { SaveAnswersStay(c, w, move); }
    else if move.Ask? { AskAnswersStay(c, w, move.token, move.now); }
    else { TapeMovesStay(c, w, move); }
  }

  lemma StepOnTrack(c: Setup, o: Oracle, w: World, move: Move)
    requires ValidAgent(c.agent) && Inv(c, w) && ChainOnTrack(c, o, w.chain) && Agrees(c, o, w.tape, w.db.interrupts)
    ensures ChainOnTrack(c, o, Do(c, w, move).chain)
  {
    if move.Save? { SaveOnTrack(c, o, w, move.token, move.now, move.cancel); }
    else if move.Ask? { AskOnTrack(c, o, w, move.token, move.now); }
    else if move.Begin? { BeginOnTrack(c, o, w, move.token, move.now); }
    else if move.Env? || move.Settle? || move.Abort? { TurnAnswersStay(c, w, move); }
    else { TapeMovesStay(c, w, move); }
  }

  lemma {:induction false} ScheduleOnTrack(c: Setup, o: Oracle, start: World, moves: seq<Move>)
    requires ValidAgent(c.agent) && Start(c, start) && WellFormed(start.db)
    requires Agrees(c, o, Schedule(c, start, moves).tape, Schedule(c, start, moves).db.interrupts)
    ensures ChainOnTrack(c, o, Schedule(c, start, moves).chain)
  {
    if moves != [] {
      var before := Schedule(c, start, moves[..|moves| - 1]);
      var move := moves[|moves| - 1];
      StepExtends(c, before, move);
      AgreesBefore(c, o, before.tape, Do(c, before, move).tape, before.db.interrupts, Do(c, before, move).db.interrupts);
      ScheduleOnTrack(c, o, start, moves[..|moves| - 1]);
      ScheduleKeeps(c, start, moves[..|moves| - 1]);
      StepOnTrack(c, o, before, move);
    }
  }

  /** Crash refinement: for every schedule and every oracle that agrees with what was
      recorded, each checkpoint is a stop of the plain loop, and every terminal checkpoint that
      is not a cancellation holds exactly the plain loop's result. */
  lemma CrashRefinement(c: Setup, o: Oracle, start: World, moves: seq<Move>, k: nat)
    requires ValidAgent(c.agent) && Start(c, start) && WellFormed(start.db)
    requires Agrees(c, o, Schedule(c, start, moves).tape, Schedule(c, start, moves).db.interrupts)
    requires k < |Schedule(c, start, moves).chain|
    ensures var m := Schedule(c, start, moves).chain[k];
            && OnTrack(c, o, m)
            && (m.Terminal? && m.result.stopReason != CANCELLED ==> m.result == Loop(c.agent, o, c.initial))
            && (!m.Terminal? ==> m.state == StateAt(o, c.initial, m.state.iteration))
  {
    ScheduleOnTrack(c, o, start, moves);
  }

  // -- such oracles exist ---------------------------------------------------------------------

  /** The oracle read off the records of a world. */
  function Recorded(c: Setup, tape: map<Id, Effect>, interrupts: map<Id, Interrupt>): Oracle {
    Oracle(
      (i: nat, request: Value) =>
        if LlmId(c.run, i) in tape && tape[LlmId(c.run, i)].outcome.Some? && tape[LlmId(c.run, i)].outcome.value.Model?
        then tape[LlmId(c.run, i)].outcome.value.reply else Reply([], "error", Null),
      (i: nat, j: nat, call: Value) =>
        if IsAllowed(interrupts, InputId(c.run, i, j)) then Answer(c.agent, call, interrupts[InputId(c.run, i, j)].response)
        else if ToolId(c.run, i, j) in tape && tape[ToolId(c.run, i, j)].outcome.Some?
        then tape[ToolId(c.run, i, j)].outcome.value else Null)
  }

  /** No effect outcome contradicts an external answer, so the refinement is never vacuous. */
  lemma RecordsAgree(c: Setup, w: World)
    requires Inv(c, w)
    ensures Agrees(c, Recorded(c, w.tape, w.db.interrupts), w.tape, w.db.interrupts)
  {
    var o := Recorded(c, w.tape, w.db.interrupts);
    forall i: nat | LlmId(c.run, i) in w.tape && w.tape[LlmId(c.run, i)].outcome.Some?
      ensures Model(o.model(i, w.tape[LlmId(c.run, i)].request)) == w.tape[LlmId(c.run, i)].outcome.value
    {
      assert OutcomeFits(LlmId(c.run, i), w.tape[LlmId(c.run, i)].request, w.tape[LlmId(c.run, i)].outcome.value);
    }
    forall i: nat, j: nat | ToolId(c.run, i, j) in w.tape && w.tape[ToolId(c.run, i, j)].outcome.Some?
      ensures o.tool(i, j, w.tape[ToolId(c.run, i, j)].request) == w.tape[ToolId(c.run, i, j)].outcome.value
    {
      if InputId(c.run, i, j) in w.db.interrupts { InputNeverRuns(c, w, i, j); }
    }
  }

  /** The natural result of a durable run is the plain loop's result on its own records. */
  lemma NaturalResultIsTheLoops(c: Setup, start: World, moves: seq<Move>)
    requires ValidAgent(c.agent) && Start(c, start) && WellFormed(start.db)
    requires c.run in Schedule(c, start, moves).db.runs && Schedule(c, start, moves).db.runs[c.run].state == Completed
    ensures var w := Schedule(c, start, moves);
            w.db.runs[c.run].result ==
              Some(FinalPayload(Loop(c.agent, Recorded(c, w.tape, w.db.interrupts), c.initial)))
  {
    var w := Schedule(c, start, moves);
    ScheduleKeeps(c, start, moves);
    RecordsAgree(c, w);
    CrashRefinement(c, Recorded(c, w.tape, w.db.interrupts), start, moves, |w.chain| - 1);
  }
}
