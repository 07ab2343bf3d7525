/** Re-running a composed strategy after crashes: the durable handoffs hold one chain of
    requests and values, whatever the attempts and everybody else on the store do. */
module CoordinationReplay {
  import opened Values
  import opened Execution
  import opened ExecutionFrames
  import opened ExecutionSettlement
  import opened CoordinationHandoff

  // -- what one call of the store keeps ----------------------------------------------

  ghost predicate TasksKept(a: Db, b: Db) {
    forall t | t in a.tasks ::
      t in b.tasks && b.tasks[t].goal == a.tasks[t].goal && b.tasks[t].workspace == a.tasks[t].workspace
  }

  ghost predicate RunsKept(a: Db, b: Db) {
    forall r | r in a.runs ::
      r in b.runs && b.runs[r].task == a.runs[r].task && (a.runs[r].state == Completed ==> b.runs[r] == a.runs[r])
  }

  ghost predicate Kept(a: Db, b: Db) { TasksKept(a, b) && RunsKept(a, b) }

  lemma KeptThrough(a: Db, b: Db, c: Db)
    requires Kept(a, b) && Kept(b, c)
    ensures Kept(a, c)
  {}

  lemma LeaseOpTasks(db: Db, op: Op)
    requires LeaseOp(op)
    ensures TasksKept(db, After(db, op)) && After(db, op).tasks.Keys == db.tasks.Keys
  {}

  lemma CreateTaskTasks(db: Db, op: Op)
    requires op.OpCreateTask?
    ensures TasksKept(db, After(db, op))
    ensures forall t | t in After(db, op).tasks && t !in db.tasks :: op.t == t
    ensures op.t !in db.tasks && op.t in After(db, op).tasks ==>
      After(db, op).tasks[op.t] == Task(op.goal, op.workspace, TaskOpen)
  {}

  lemma RequestTasks(db: Db, op: Op)
    requires op.OpRequestCancel?
    ensures TasksKept(db, After(db, op)) && After(db, op).tasks.Keys == db.tasks.Keys
  {}

  lemma CancelTasks(db: Db, op: Op)
    requires op.OpCancelTask?
    ensures TasksKept(db, After(db, op)) && After(db, op).tasks.Keys == db.tasks.Keys
  {}

  lemma RunTasks(db: Db, op: Op)
    requires op.OpCreateRun? || op.OpResolve?
    ensures TasksKept(db, After(db, op)) && After(db, op).tasks.Keys == db.tasks.Keys
  {}

  lemma PlainTasks(db: Db, op: Op)
    requires op.OpReopen? || op.OpAppendEvent? || op.OpConfigure? || op.OpReserve?
    ensures TasksKept(db, After(db, op)) && After(db, op).tasks.Keys == db.tasks.Keys
  {}

  lemma StepTasks(db: Db, op: Op)
    ensures TasksKept(db, After(db, op))
    ensures !op.OpCreateTask? ==> After(db, op).tasks.Keys == db.tasks.Keys
  {
    if LeaseOp(op) { LeaseOpTasks(db, op); }
    else if op.OpCreateTask? { CreateTaskTasks(db, op); }
    else if op.OpCreateRun? || op.OpResolve? { RunTasks(db, op); }
    else if op.OpRequestCancel? { RequestTasks(db, op); }
    else if op.OpCancelTask? { CancelTasks(db, op); }
    else { PlainTasks(db, op); }
  }

  lemma NewRun(db: Db, op: Op, r: Id)
    requires r !in db.runs && r in After(db, op).runs
    ensures op.OpCreateRun? && op.r == r && op.t in db.tasks && After(db, op).tasks == db.tasks
    ensures After(db, op).runs[r] == Run(op.t, Pending, 0, 0, None, None, false, None, None)
  {
    StepFrame(db, op);
    var q :| RunFrame(db, op, Step(db, op).value, q);
    assert q == r;
    if LeaseOp(op) || op.OpReopen? || op.OpRequestCancel? { NamesItsRun(db, op); }
    else if op.OpResolve? { ResolveRuns(db, op); }
    else if op.OpCancelTask? { CancelTaskRuns(db, op); }
    else if !op.OpCreateRun? { PlainRuns(db, op); }
  }

  lemma NamesItsRun(db: Db, op: Op)
    requires LeaseOp(op) || op.OpReopen? || op.OpRequestCancel?
    requires Step(db, op).Ok?
    ensures op.r in db.runs
  {}

  lemma ResolveRuns(db: Db, op: Op)
    requires op.OpResolve?
    ensures After(db, op).runs.Keys == db.runs.Keys
  {}

  lemma CancelTaskRuns(db: Db, op: Op)
    requires op.OpCancelTask?
    ensures After(db, op).runs.Keys == db.runs.Keys
  {}

  lemma PlainRuns(db: Db, op: Op)
    requires op.OpCreateTask? || op.OpAppendEvent? || op.OpConfigure? || op.OpReserve?
    ensures After(db, op).runs.Keys == db.runs.Keys
  {}

  lemma NewTask(db: Db, op: Op, t: Id)
    requires t !in db.tasks && t in After(db, op).tasks
    ensures op.OpCreateTask? && op.t == t && After(db, op).tasks[t] == Task(op.goal, op.workspace, TaskOpen)
  {
    StepTasks(db, op);
    if op.OpCreateTask? { CreateTaskTasks(db, op); }
  }

  lemma StepKept(db: Db, op: Op)
    ensures Kept(db, After(db, op))
  {
    StepTasks(db, op);
    forall r | r in db.runs
      ensures r in After(db, op).runs && After(db, op).runs[r].task == db.runs[r].task
      ensures db.runs[r].state == Completed ==> After(db, op).runs[r] == db.runs[r]
    {
      StepMoves(db, op, r);
    }
  }

  // -- the chain -----------------------------------------------------------------------

  predicate DoneRun(db: Db, r: Id) { r in db.runs && db.runs[r].state == Completed }

  function ValueIn(db: Db, r: Id): Value
    requires r in db.runs
  {
    if db.runs[r].result.Some? then Get(db.runs[r].result.value, "value") else Null
  }

  /** The payload of step `k` as the durable record of the steps before it has it. */
  function Known(s: Setup, db: Db, k: nat): Option<Value>
    requires k <= |s.names|
  {
    if k == 0 then Some(s.payload)
    else if DoneRun(db, RunId(StepId(s, k - 1))) then Some(ValueIn(db, RunId(StepId(s, k - 1))))
    else None
  }

  ghost predicate TaskOk(s: Setup, db: Db, k: nat)
    requires SetupOk(s) && k < |s.names|
  {
    var t := TaskId(StepId(s, k));
    t in db.tasks ==>
      && Known(s, db, k).Some?
      && db.tasks[t].goal == GoalOf(s, k, Known(s, db, k).value) && db.tasks[t].workspace == s.workspace
  }

  ghost predicate RunOk(s: Setup, db: Db, k: nat)
    requires SetupOk(s) && k < |s.names|
  {
    var h := StepId(s, k);
    RunId(h) in db.runs ==>
      && TaskId(h) in db.tasks && db.runs[RunId(h)].task == TaskId(h)
      && (DoneRun(db, RunId(h)) ==>
            && Known(s, db, k).Some?
            && db.runs[RunId(h)].result ==
                 Some(Encoded(h, Fingerprint(s, k, Known(s, db, k).value), ValueIn(db, RunId(h)))))
  }

  /** Every handoff that exists asks for exactly what its predecessor's recorded value makes
      it ask for, and every completed one has a result that fits its request. */
  ghost predicate ChainOk(s: Setup, db: Db)
    requires SetupOk(s)
  {
    forall k | 0 <= k < |s.names| :: TaskOk(s, db, k) && RunOk(s, db, k)
  }

  /** A call that could only come from an attempt at this very strategy. */
  ghost predicate Permitted(s: Setup, db: Db, op: Op, k: nat)
    requires SetupOk(s) && k < |s.names|
  {
    var h := StepId(s, k);
    && (op.OpCreateTask? && op.t == TaskId(h) ==>
          Known(s, db, k).Some? && op.goal == GoalOf(s, k, Known(s, db, k).value) && op.workspace == s.workspace)
    && (op.OpCreateRun? && op.r == RunId(h) ==> op.t == TaskId(h))
    && (op.OpComplete? && op.r == RunId(h) ==>
          Known(s, db, k).Some?
          && op.result == Encoded(h, Fingerprint(s, k, Known(s, db, k).value), Get(op.result, "value")))
  }

  ghost predicate AllPermitted(s: Setup, db: Db, op: Op)
    requires SetupOk(s)
  {
    forall k | 0 <= k < |s.names| :: Permitted(s, db, op, k)
  }

  lemma KnownKept(s: Setup, a: Db, b: Db, k: nat)
    requires k <= |s.names| && Kept(a, b) && Known(s, a, k).Some?
    ensures Known(s, b, k) == Known(s, a, k)
  {}

  lemma TaskStays(s: Setup, db: Db, op: Op, k: nat)
    requires SetupOk(s) && k < |s.names| && TaskOk(s, db, k) && Permitted(s, db, op, k)
    ensures TaskOk(s, After(db, op), k)
  {
    var t := TaskId(StepId(s, k));
    StepKept(db, op);
    if t in After(db, op).tasks {
      if t !in db.tasks { NewTask(db, op, t); }
      KnownKept(s, db, After(db, op), k);
    }
  }

  lemma RunStays(s: Setup, db: Db, op: Op, k: nat)
    requires SetupOk(s) && k < |s.names| && TaskOk(s, db, k) && RunOk(s, db, k) && Permitted(s, db, op, k)
    ensures RunOk(s, After(db, op), k)
  {
    var r := RunId(StepId(s, k));
    StepKept(db, op);
    if r in After(db, op).runs {
      if r !in db.runs {
        NewRun(db, op, r);
      } else {
        StepMoves(db, op, r);
        if DoneRun(After(db, op), r) {
          if !DoneRun(db, r) { CompletedByOp(db, op, r); }
          KnownKept(s, db, After(db, op), k);
        }
      }
    }
  }

  /** A run becomes completed only by `complete_run` on it, with that result. */
  lemma CompletedByOp(db: Db, op: Op, r: Id)
    requires r in db.runs && !DoneRun(db, r) && DoneRun(After(db, op), r)
    ensures op.OpComplete? && op.r == r && After(db, op).runs[r].result == Some(op.result)
  {
    StepFrame(db, op);
    RunFramed(db, op, Step(db, op).value, r);
  }

  lemma ChainStays(s: Setup, db: Db, op: Op)
    requires SetupOk(s) && ChainOk(s, db) && AllPermitted(s, db, op)
    ensures ChainOk(s, After(db, op)) && Kept(db, After(db, op))
  {
    forall k | 0 <= k < |s.names| ensures TaskOk(s, After(db, op), k) && RunOk(s, After(db, op), k) {
      TaskStays(s, db, op, k);
      RunStays(s, db, op, k);
    }
    StepKept(db, op);
  }

  // -- claiming --------------------------------------------------------------------------

  lemma StepIdsDiffer(s: Setup, j: nat, k: nat)
    requires j < |s.names| && k < |s.names| && j != k
    ensures StepId(s, j) != StepId(s, k)
  {}

  /** Calls that neither create anything nor complete a run are always permitted. */
  predicate Neutral(op: Op) { !op.OpCreateTask? && !op.OpCreateRun? && !op.OpComplete? }

  lemma NeutralStays(s: Setup, db: Db, op: Op)
    requires SetupOk(s) && ChainOk(s, db) && Neutral(op)
    ensures ChainOk(s, After(db, op)) && Kept(db, After(db, op))
  {
    forall k | 0 <= k < |s.names| ensures Permitted(s, db, op, k) {}
    ChainStays(s, db, op);
  }

  lemma OwnStays(s: Setup, db: Db, op: Op, k: nat)
    requires SetupOk(s) && ChainOk(s, db) && k < |s.names| && Permitted(s, db, op, k)
    requires op.OpCreateTask? ==> op.t == TaskId(StepId(s, k))
    requires op.OpCreateRun? || op.OpComplete? ==> op.r == RunId(StepId(s, k))
    ensures ChainOk(s, After(db, op)) && Kept(db, After(db, op))
  {
    forall j | 0 <= j < |s.names| ensures Permitted(s, db, op, j) {
      if j != k { StepIdsDiffer(s, j, k); }
    }
    ChainStays(s, db, op);
  }

  lemma SettledStays(s: Setup, db: Db, r: Id, token: Id, now: real)
    requires SetupOk(s) && ChainOk(s, db)
    ensures ChainOk(s, Settled(db, r, token, now)) && Kept(db, Settled(db, r, token, now))
  {
    NeutralStays(s, db, OpRequestCancel(r));
    var next := After(db, OpRequestCancel(r));
    NeutralStays(s, next, OpFinishCancelled(r, token, now));
    KeptThrough(db, next, After(next, OpFinishCancelled(r, token, now)));
    StepKept(db, OpRequestCancel(r));
    KeptSelf(db);
  }

  lemma KeptSelf(db: Db)
    ensures Kept(db, db)
  {}

  /** What `_claim_handoff` finds at step `k` when the payload is the recorded one. */
  ghost predicate ClaimOk(s: Setup, db: Db, k: nat, result: (Db, Outcome))
    requires SetupOk(s) && k < |s.names|
  {
    var r := RunId(StepId(s, k));
    && ChainOk(s, result.0) && Kept(db, result.0)
    && result.1 != IdentityConflict && result.1 != BadResult
    && (result.1.Replay? ==> DoneRun(result.0, r) && result.1.value == ValueIn(result.0, r))
    && (result.1.Claimed? ==> !DoneRun(db, r))
  }

  lemma TaskStepOk(s: Setup, db: Db, k: nat, payload: Value)
    requires SetupOk(s) && ChainOk(s, db) && k < |s.names| && Known(s, db, k) == Some(payload)
    ensures var d := WithTask(db, StepId(s, k), GoalOf(s, k, payload), s.workspace);
      && ChainOk(s, d) && Kept(db, d) && Known(s, d, k) == Some(payload)
      && (TaskId(StepId(s, k)) in d.tasks ==>
            d.tasks[TaskId(StepId(s, k))].goal == GoalOf(s, k, payload)
            && d.tasks[TaskId(StepId(s, k))].workspace == s.workspace)
  {
    var h := StepId(s, k);
    var d := WithTask(db, h, GoalOf(s, k, payload), s.workspace);
    KeptSelf(db);
    if TaskId(h) !in db.tasks { OwnStays(s, db, OpCreateTask(TaskId(h), GoalOf(s, k, payload), s.workspace), k); }
    KnownKept(s, db, d, k);
    assert TaskOk(s, d, k);
  }

  lemma RunStepOk(s: Setup, db: Db, k: nat)
    requires SetupOk(s) && ChainOk(s, db) && k < |s.names|
    ensures var e := WithRun(db, StepId(s, k));
      && ChainOk(s, e) && Kept(db, e)
      && (RunId(StepId(s, k)) in e.runs ==> e.runs[RunId(StepId(s, k))].task == TaskId(StepId(s, k)))
  {
    var h := StepId(s, k);
    KeptSelf(db);
    if RunId(h) !in db.runs { OwnStays(s, db, OpCreateRun(TaskId(h), RunId(h)), k); }
    assert RunOk(s, WithRun(db, h), k);
  }

  lemma TakeOk(s: Setup, db: Db, r: Id, token: Id, seconds: real, now: real)
    requires SetupOk(s) && ChainOk(s, db)
    ensures var (next, outcome) := Take(db, r, token, seconds, now);
      && ChainOk(s, next) && Kept(db, next) && outcome in {Claimed, Busy, Refused, WasCancelled}
  {
    KeptSelf(db);
    NeutralStays(s, db, OpClaim(r, token, seconds, now));
    var next := After(db, OpClaim(r, token, seconds, now));
    SettledStays(s, next, r, token, now);
    KeptThrough(db, next, Settled(next, r, token, now));
  }

  lemma ReplayFits(s: Setup, db: Db, k: nat, payload: Value)
    requires SetupOk(s) && ChainOk(s, db) && k < |s.names| && Known(s, db, k) == Some(payload)
    requires DoneRun(db, RunId(StepId(s, k)))
    ensures Replayed(StepId(s, k), Fingerprint(s, k, payload), db.runs[RunId(StepId(s, k))].result)
      == Replay(ValueIn(db, RunId(StepId(s, k))))
  {
    assert RunOk(s, db, k);
  }

  lemma DoneAnswer(s: Setup, db: Db, k: nat, payload: Value, safe: bool, token: Id, seconds: real, now: real)
    requires SetupOk(s) && ChainOk(s, db) && k < |s.names| && Known(s, db, k) == Some(payload)
    requires DoneRun(db, RunId(StepId(s, k)))
    ensures AnswerOrTake(db, StepId(s, k), Fingerprint(s, k, payload), safe, token, seconds, now)
      == (db, Replay(ValueIn(db, RunId(StepId(s, k)))))
  {
    ReplayFits(s, db, k, payload);
  }

  lemma AnswerWhileOpen(run: Run, h: Id, fingerprint: string, safe: bool, now: real)
    requires run.state != Completed
    ensures var answer := Answer(run, h, fingerprint, safe, now);
      answer.None? || answer.value in {MemberFailed, WasCancelled, RecoveryRequired, Busy}
  {}

  lemma OpenAnswer(s: Setup, db: Db, k: nat, fingerprint: string, safe: bool, token: Id, seconds: real, now: real)
    requires SetupOk(s) && ChainOk(s, db) && k < |s.names|
    requires RunId(StepId(s, k)) in db.runs && !DoneRun(db, RunId(StepId(s, k)))
    ensures ClaimOk(s, db, k, AnswerOrTake(db, StepId(s, k), fingerprint, safe, token, seconds, now))
  {
    var r := RunId(StepId(s, k));
    AnswerWhileOpen(db.runs[r], StepId(s, k), fingerprint, safe, now);
    if Answer(db.runs[r], StepId(s, k), fingerprint, safe, now).None? {
      TakeOk(s, db, r, token, seconds, now);
    } else {
      KeptSelf(db);
    }
  }

  lemma AnswerIsOk(s: Setup, db: Db, k: nat, payload: Value, safe: bool, token: Id, seconds: real, now: real)
    requires SetupOk(s) && ChainOk(s, db) && k < |s.names| && Known(s, db, k) == Some(payload)
    requires RunId(StepId(s, k)) in db.runs
    ensures ClaimOk(s, db, k, AnswerOrTake(db, StepId(s, k), Fingerprint(s, k, payload), safe, token, seconds, now))
  {
    if DoneRun(db, RunId(StepId(s, k))) {
      DoneAnswer(s, db, k, payload, safe, token, seconds, now);
      KeptSelf(db);
    } else {
      OpenAnswer(s, db, k, Fingerprint(s, k, payload), safe, token, seconds, now);
    }
  }

  lemma ClaimOkFrom(s: Setup, a: Db, b: Db, k: nat, result: (Db, Outcome))
    requires SetupOk(s) && k < |s.names| && Kept(a, b) && ClaimOk(s, b, k, result)
    ensures ClaimOk(s, a, k, result)
  {
    KeptThrough(a, b, result.0);
  }

  lemma ClaimIsOk(s: Setup, db: Db, k: nat, payload: Value, safe: bool, token: Id, seconds: real, now: real)
    requires SetupOk(s) && ChainOk(s, db) && k < |s.names| && Known(s, db, k) == Some(payload)
    ensures ClaimOk(s, db, k, Claim(db, StepId(s, k), GoalOf(s, k, payload), s.workspace,
                                    Fingerprint(s, k, payload), safe, token, seconds, now))
  {
    var h := StepId(s, k);
    var d := WithTask(db, h, GoalOf(s, k, payload), s.workspace);
    TaskStepOk(s, db, k, payload);
    if TaskId(h) in d.tasks {
      var e := WithRun(d, h);
      RunStepOk(s, d, k);
      KeptThrough(db, d, e);
      KnownKept(s, d, e, k);
      if RunId(h) in e.runs {
        AnswerIsOk(s, e, k, payload, safe, token, seconds, now);
        ClaimOkFrom(s, db, e, k, AnswerOrTake(e, h, Fingerprint(s, k, payload), safe, token, seconds, now));
      }
    }
  }

  // -- worlds ----------------------------------------------------------------------------

  /** The values an attempt holds are the recorded ones. */
  ghost predicate AttemptOk(s: Setup, db: Db, x: Attempt) {
    && |x.outcomes| <= |s.names|
    && (forall j | 0 <= j < |x.outcomes| :: Known(s, db, j + 1) == Some(x.outcomes[j]))
    && (x.pc.Ready? || x.pc.Calling? ==> |x.outcomes| < |s.names|)
    && (x.pc.Finished? ==> |x.outcomes| == |s.names|)
    && x.pc != Stopped(IdentityConflict) && x.pc != Stopped(BadResult)
  }

  ghost predicate CallOk(s: Setup, db: Db, c: Call) {
    c.k < |s.names| && Known(s, db, c.k) == Some(c.payload)
  }

  ghost predicate Inv(s: Setup, w: World)
    requires SetupOk(s)
  {
    && ChainOk(s, w.db)
    && (forall a | a in w.attempts :: AttemptOk(s, w.db, w.attempts[a]))
    && (forall i | 0 <= i < |w.calls| :: CallOk(s, w.db, w.calls[i]))
  }

  lemma CurrentIsKnown(s: Setup, db: Db, x: Attempt)
    requires AttemptOk(s, db, x)
    ensures Known(s, db, |x.outcomes|) == Some(Current(s, x.outcomes))
  {}

  lemma AttemptKept(s: Setup, a: Db, b: Db, x: Attempt)
    requires AttemptOk(s, a, x) && Kept(a, b)
    ensures AttemptOk(s, b, x)
  {
    forall j | 0 <= j < |x.outcomes| ensures Known(s, b, j + 1) == Some(x.outcomes[j]) {
      assert Known(s, a, j + 1) == Some(x.outcomes[j]);
      KnownKept(s, a, b, j + 1);
    }
  }

  lemma InvKept(s: Setup, w: World, db: Db)
    requires SetupOk(s) && Inv(s, w) && ChainOk(s, db) && Kept(w.db, db)
    ensures Inv(s, w.(db := db))
  {
    forall a | a in w.attempts ensures AttemptOk(s, db, w.attempts[a]) { AttemptKept(s, w.db, db, w.attempts[a]); }
    forall i | 0 <= i < |w.calls| ensures CallOk(s, db, w.calls[i]) {
      assert CallOk(s, w.db, w.calls[i]);
      KnownKept(s, w.db, db, w.calls[i].k);
    }
  }

  lemma InvPut(s: Setup, w: World, a: nat, x: Attempt)
    requires SetupOk(s) && Inv(s, w) && AttemptOk(s, w.db, x)
    ensures Inv(s, Put(w, a, x))
  {}

  lemma InvCall(s: Setup, w: World, c: Call)
    requires SetupOk(s) && Inv(s, w) && CallOk(s, w.db, c)
    ensures Inv(s, w.(calls := w.calls + [c]))
  {}

  /** Others may call anything on the store except what only this strategy would call. */
  ghost predicate Foreign(s: Setup, op: Op) {
    forall k | 0 <= k < |s.names| ::
      && (op.OpCreateTask? ==> op.t != TaskId(StepId(s, k)))
      && (op.OpCreateRun? || op.OpComplete? ==> op.r != RunId(StepId(s, k)))
  }

  ghost predicate MovesOk(s: Setup, moves: seq<Move>) {
    forall i | 0 <= i < |moves| && moves[i].Elsewhere? :: Foreign(s, moves[i].op)
  }

  ghost predicate Goes(s: Setup, w: World, next: World)
    requires SetupOk(s)
  {
    Inv(s, next) && Kept(w.db, next.db)
  }

  lemma AttemptOutcome(s: Setup, db: Db, x: Attempt, value: Value)
    requires AttemptOk(s, db, x) && |x.outcomes| < |s.names| && Known(s, db, |x.outcomes| + 1) == Some(value)
    ensures AttemptOk(s, db, Advanced(s, x.outcomes, value))
  {}

  lemma DispatchGoes(s: Setup, w: World, a: nat, token: Id, seconds: real, now: real)
    requires SetupOk(s) && Inv(s, w) && a in w.attempts && |w.attempts[a].outcomes| < |s.names|
    ensures Goes(s, w, DoDispatch(s, w, a, token, seconds, now))
  {
    var x := w.attempts[a];
    var k := |x.outcomes|;
    var payload := Current(s, x.outcomes);
    CurrentIsKnown(s, w.db, x);
    var safe := s.members[s.names[k]].redeliverySafe;
    ClaimIsOk(s, w.db, k, payload, safe, token, seconds, now);
    var (db, outcome) := Claim(w.db, StepId(s, k), GoalOf(s, k, payload), s.workspace, Fingerprint(s, k, payload),
                               safe, token, seconds, now);
    InvKept(s, w, db);
    AttemptKept(s, w.db, db, x);
    var v := w.(db := db);
    match outcome
    case Claimed =>
      KnownKept(s, w.db, db, k);
      InvCall(s, v, Call(k, payload));
      InvPut(s, v.(calls := v.calls + [Call(k, payload)]), a, Attempt(x.outcomes, Calling(token)));
    case Replay(value) =>
      AttemptOutcome(s, db, x, value);
      InvPut(s, v, a, Advanced(s, x.outcomes, value));
    case _ => InvPut(s, v, a, Attempt(x.outcomes, Stopped(outcome)));
  }

  lemma LeaveGoes(s: Setup, w: World, a: nat, db: Db, why: Outcome)
    requires SetupOk(s) && Inv(s, w) && a in w.attempts && ChainOk(s, db) && Kept(w.db, db)
    requires why != IdentityConflict && why != BadResult
    ensures Goes(s, w, DoLeave(s, w, a, db, why))
  {
    InvKept(s, w, db);
    AttemptKept(s, w.db, db, w.attempts[a]);
    InvPut(s, w.(db := db), a, Attempt(w.attempts[a].outcomes, Stopped(why)));
  }

  lemma CompleteOk(s: Setup, db: Db, k: nat, payload: Value, token: Id, value: Value, now: real)
    requires SetupOk(s) && ChainOk(s, db) && k < |s.names| && Known(s, db, k) == Some(payload)
    ensures var op := OpComplete(RunId(StepId(s, k)), token, Encoded(StepId(s, k), Fingerprint(s, k, payload), value), now);
      && ChainOk(s, After(db, op)) && Kept(db, After(db, op))
      && (Step(db, op).Ok? ==> Known(s, After(db, op), k + 1) == Some(value))
  {
    var h := StepId(s, k);
    var op := OpComplete(RunId(h), token, Encoded(h, Fingerprint(s, k, payload), value), now);
    assert Get(op.result, "value") == value;
    OwnStays(s, db, op, k);
    if Step(db, op).Ok? { CompleteWrites(db, op); }
  }

  lemma CompleteWrites(db: Db, op: Op)
    requires op.OpComplete? && Step(db, op).Ok?
    ensures DoneRun(Step(db, op).value, op.r) && Step(db, op).value.runs[op.r].result == Some(op.result)
  {}

  lemma ReturnGoes(s: Setup, w: World, a: nat, value: Value, now: real)
    requires SetupOk(s) && Inv(s, w) && InCall(s, w, a)
    ensures Goes(s, w, DoReturn(s, w, a, value, now))
  {
    var x := w.attempts[a];
    var k := |x.outcomes|;
    var r := RunId(StepId(s, k));
    CurrentIsKnown(s, w.db, x);
    CompleteOk(s, w.db, k, Current(s, x.outcomes), x.pc.token, value, now);
    var s0 := Step(w.db, OpComplete(r, x.pc.token, Encoded(StepId(s, k), Fingerprint(s, k, Current(s, x.outcomes)), value), now));
    if s0.Ok? {
      InvKept(s, w, s0.value);
      AttemptKept(s, w.db, s0.value, x);
      AttemptOutcome(s, s0.value, x, value);
      InvPut(s, w.(db := s0.value), a, Advanced(s, x.outcomes, value));
    } else {
      KeptSelf(w.db);
      SettledStays(s, w.db, r, x.pc.token, now);
      FailStays(s, w.db, r, x.pc.token, "ExecutionStateError", now);
      LeaveGoes(s, w, a, w.db, RecoveryRequired);
      LeaveGoes(s, w, a, Settled(w.db, r, x.pc.token, now), WasCancelled);
      LeaveGoes(s, w, a, FailClaimed(w.db, r, x.pc.token, "ExecutionStateError", now), MemberFailed);
    }
  }

  lemma FailStays(s: Setup, db: Db, r: Id, token: Id, kind: string, now: real)
    requires SetupOk(s) && ChainOk(s, db)
    ensures ChainOk(s, FailClaimed(db, r, token, kind, now)) && Kept(db, FailClaimed(db, r, token, kind, now))
  {
    NeutralStays(s, db, OpFail(r, token, Obj(map["type" := Str(kind), "message" := Str("coordination member failed")]), now));
  }

  lemma ForeignStays(s: Setup, db: Db, op: Op)
    requires SetupOk(s) && ChainOk(s, db) && Foreign(s, op)
    ensures ChainOk(s, After(db, op)) && Kept(db, After(db, op))
  {
    forall k | 0 <= k < |s.names| ensures Permitted(s, db, op, k) {}
    ChainStays(s, db, op);
  }

  /** One move of anyone keeps the chain and everything already obtained. */
  lemma MoveGoes(s: Setup, w: World, m: Move)
    requires SetupOk(s) && Inv(s, w) && (m.Elsewhere? ==> Foreign(s, m.op))
    ensures Goes(s, w, Do(s, w, m))
  {
    KeptSelf(w.db);
    match m
    case Begin(a) => if a !in w.attempts { InvPut(s, w, a, Attempt([], Ready)); }
    case Dispatch(a, token, seconds, now) =>
      if a in w.attempts && w.attempts[a].pc.Ready? { DispatchGoes(s, w, a, token, seconds, now); }
    case Return(a, value, now) => if InCall(s, w, a) { ReturnGoes(s, w, a, value, now); }
    case Raise(a, kind, now) =>
      if InCall(s, w, a) {
        var r, token := CalledRun(s, w.attempts[a]), w.attempts[a].pc.token;
        FailStays(s, w.db, r, token, kind, now);
        LeaveGoes(s, w, a, FailClaimed(w.db, r, token, kind, now), MemberFailed);
      }
    case GiveUp(a, now) =>
      if InCall(s, w, a) {
        var r, token := CalledRun(s, w.attempts[a]), w.attempts[a].pc.token;
        SettledStays(s, w.db, r, token, now);
        LeaveGoes(s, w, a, Settled(w.db, r, token, now), WasCancelled);
      }
    case Crash(a) => if a in w.attempts { LeaveGoes(s, w, a, w.db, Died); }
    case Elsewhere(op) =>
      ForeignStays(s, w.db, op);
      InvKept(s, w, After(w.db, op));
  }
}
