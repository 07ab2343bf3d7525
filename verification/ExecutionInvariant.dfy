/** The structural invariant of the execution tables, kept by every transition. */
module ExecutionInvariant {
  import opened Values
  import opened Execution

  /** A RUNNING run, and no other, carries a lease token and an expiry; a completed run was
      never asked to stop. */
  predicate RunShape(run: Run) {
    && (run.token.Some? <==> run.state == Running)
    && (run.expires.Some? <==> run.state == Running)
    && (run.state == Completed ==> !run.cancel && run.result.Some?)
    && (run.state == Failed ==> run.error.Some? && run.error.value.Obj?)
  }

  /** Runs belong to tasks, and a task has at most one active run. */
  ghost predicate RunsOk(tasks: map<Id, Task>, runs: map<Id, Run>) {
    && (forall r | r in runs :: runs[r].task in tasks && RunShape(runs[r]))
    && (forall t, a, b | ActiveOn(runs, t, a) && ActiveOn(runs, t, b) :: a == b)
  }

  /** The stored checkpoints of a run are exactly versions 1..version. */
  ghost predicate CheckpointsOk(runs: map<Id, Run>, checkpoints: map<(Id, nat), Checkpoint>) {
    forall r, v :: (r, v) in checkpoints <==> r in runs && 1 <= v <= runs[r].version
  }

  /** A run is WAITING exactly when it has a pending interrupt, and then it has one. */
  ghost predicate InterruptsOk(runs: map<Id, Run>, interrupts: map<Id, Interrupt>) {
    && (forall i | i in interrupts :: interrupts[i].run in runs)
    && (forall r, i | PendingOn(interrupts, r, i) :: runs[r].state == Waiting)
    && (forall r | r in runs && runs[r].state == Waiting :: exists i :: PendingOn(interrupts, r, i))
    && (forall r, i, j | PendingOn(interrupts, r, i) && PendingOn(interrupts, r, j) :: i == j)
  }

  /** Event sequences are 1..n in table order and identities are not reused. */
  ghost predicate EventRowsOk(es: seq<AgentEvent>) {
    && (forall k | 0 <= k < |es| :: es[k].sequence == k + 1)
    && (forall j, k | 0 <= j < k < |es| :: es[j].identity != es[k].identity)
  }

  ghost predicate EventsOk(runs: map<Id, Run>, events: map<Id, seq<AgentEvent>>) {
    forall r | r in events :: r in runs && EventRowsOk(events[r])
  }

  predicate CompletedBy(runs: map<Id, Run>, t: Id, r: Id) {
    r in runs && runs[r].task == t && runs[r].state == Completed
  }

  /** A COMPLETED task has a completed run and no active run. */
  ghost predicate TasksOk(tasks: map<Id, Task>, runs: map<Id, Run>) {
    forall t | t in tasks && tasks[t].state == TaskCompleted ::
      && (exists r :: CompletedBy(runs, t, r))
      && (forall r :: !ActiveOn(runs, t, r))
  }

  ghost predicate WellFormed(db: Db) {
    && RunsOk(db.tasks, db.runs)
    && CheckpointsOk(db.runs, db.checkpoints)
    && InterruptsOk(db.runs, db.interrupts)
    && EventsOk(db.runs, db.events)
    && TasksOk(db.tasks, db.runs)
  }

  // -- public event rows -------------------------------------------------

  lemma {:induction false} LastSequenceIsLength(es: seq<AgentEvent>)
    requires EventRowsOk(es)
    ensures LastSequence(es) == |es|
  {
    if es != [] { LastSequenceIsLength(es[..|es| - 1]); }
  }

  lemma {:induction false} FindEventSound(es: seq<AgentEvent>, identity: string)
    ensures FindEvent(es, identity).None? <==> forall k | 0 <= k < |es| :: es[k].identity != identity
    ensures FindEvent(es, identity).Some? ==> FindEvent(es, identity).value in es
  {
    if es != [] { FindEventSound(es[..|es| - 1], identity); }
  }

  /** Reading after a cursor returns exactly the rows numbered beyond it, in order. */
  lemma {:induction false} EventsAfterIsSuffix(es: seq<AgentEvent>, after: nat)
    requires EventRowsOk(es)
    ensures EventsAfter(es, after) == if after <= |es| then es[after..] else []
  {
    if es != [] {
      EventsAfterIsSuffix(es[..|es| - 1], after);
      if after < |es| { assert es[after..] == es[..|es| - 1][after..] + [es[|es| - 1]]; }
    }
  }

  lemma AppendKeeps(db: Db, r: Id, identity: string, kind: string, iteration: nat, data: Value, at: real)
    requires WellFormed(db)
    ensures var s := AppendEvent(db, r, identity, kind, iteration, data, at); s.Ok? ==> WellFormed(s.value)
  {
    if r in db.runs {
      LastSequenceIsLength(EventsOf(db, r));
      FindEventSound(EventsOf(db, r), identity);
    }
  }

  // -- replacing one run ---------------------------------------------------

  /** An active replacement must not meet another active run of its task. */
  lemma RunsUpdate(tasks: map<Id, Task>, runs: map<Id, Run>, r: Id, run: Run)
    requires RunsOk(tasks, runs) && RunShape(run) && run.task in tasks
    requires IsActive(run.state) ==> forall a | ActiveOn(runs, run.task, a) :: a == r
    ensures RunsOk(tasks, runs[r := run])
  {
    var next := runs[r := run];
    forall t, a, b | ActiveOn(next, t, a) && ActiveOn(next, t, b) ensures a == b {
      assert a != r ==> ActiveOn(runs, t, a);
      assert b != r ==> ActiveOn(runs, t, b);
    }
  }

  lemma TasksUpdate(tasks: map<Id, Task>, runs: map<Id, Run>, r: Id, run: Run)
    requires TasksOk(tasks, runs)
    requires r in runs ==> runs[r].task == run.task && (runs[r].state == Completed ==> run.state == Completed)
    requires IsActive(run.state) && run.task in tasks ==> tasks[run.task].state != TaskCompleted
    ensures TasksOk(tasks, runs[r := run])
  {
    var next := runs[r := run];
    forall t | t in tasks && tasks[t].state == TaskCompleted
      ensures (exists a :: CompletedBy(next, t, a)) && forall a :: !ActiveOn(next, t, a)
    {
      var c :| CompletedBy(runs, t, c);
      assert CompletedBy(next, t, c);
      forall a ensures !ActiveOn(next, t, a) { assert a != r ==> !ActiveOn(runs, t, a); }
    }
  }

  lemma InterruptsUpdate(runs: map<Id, Run>, interrupts: map<Id, Interrupt>, r: Id, run: Run)
    requires InterruptsOk(runs, interrupts) && run.state != Waiting
    requires r in runs ==> runs[r].state != Waiting
    ensures InterruptsOk(runs[r := run], interrupts)
  {
    var next := runs[r := run];
    assert forall a | a in next && next[a].state == Waiting :: a in runs && runs[a].state == Waiting;
  }

  /** The run stops waiting together with its interrupt. */
  lemma InterruptClosed(runs: map<Id, Run>, interrupts: map<Id, Interrupt>, i: Id, row: Interrupt, run: Run)
    requires InterruptsOk(runs, interrupts)
    requires i in interrupts && interrupts[i].state == Asked
    requires row.run == interrupts[i].run && row.state != Asked && run.state != Waiting
    ensures InterruptsOk(runs[row.run := run], interrupts[i := row])
  {
    var runs', ints' := runs[row.run := run], interrupts[i := row];
    assert PendingOn(interrupts, row.run, i);
    assert forall a, j :: PendingOn(ints', a, j) ==> PendingOn(interrupts, a, j);
    forall a | a in runs' && runs'[a].state == Waiting ensures exists j :: PendingOn(ints', a, j) {
      var j :| PendingOn(interrupts, a, j);
      assert PendingOn(ints', a, j);
    }
  }

  lemma InterruptOpened(runs: map<Id, Run>, interrupts: map<Id, Interrupt>, i: Id, row: Interrupt, run: Run)
    requires InterruptsOk(runs, interrupts) && i !in interrupts
    requires row.run in runs && runs[row.run].state != Waiting && row.state == Asked && run.state == Waiting
    ensures InterruptsOk(runs[row.run := run], interrupts[i := row])
  {
    var runs', ints' := runs[row.run := run], interrupts[i := row];
    assert PendingOn(ints', row.run, i);
    assert forall a, j :: PendingOn(ints', a, j) ==> PendingOn(interrupts, a, j) || (a == row.run && j == i);
    forall a | a in runs' && runs'[a].state == Waiting ensures exists j :: PendingOn(ints', a, j) {
      if a != row.run {
        var j :| PendingOn(interrupts, a, j);
        assert PendingOn(ints', a, j);
      }
    }
  }

  lemma CheckpointsExtend(runs: map<Id, Run>, checkpoints: map<(Id, nat), Checkpoint>, r: Id, run: Run, cp: Checkpoint)
    requires CheckpointsOk(runs, checkpoints) && r in runs && run.version == runs[r].version + 1
    ensures CheckpointsOk(runs[r := run], checkpoints[(r, run.version) := cp])
  {}

  lemma EventsUpdate(runs: map<Id, Run>, events: map<Id, seq<AgentEvent>>, r: Id, run: Run)
    requires EventsOk(runs, events)
    ensures EventsOk(runs[r := run], events)
  {}

  /** A run that is not waiting, neither before nor after. */
  lemma RunReplaced(db: Db, next: Db, r: Id, run: Run)
    requires WellFormed(db) && r in db.runs
    requires run.task == db.runs[r].task && run.version == db.runs[r].version && RunShape(run)
    requires db.runs[r].state != Waiting && run.state != Waiting && IsActive(db.runs[r].state)
    requires next == db.(runs := db.runs[r := run], audit := next.audit)
    ensures WellFormed(next)
  {
    assert ActiveOn(db.runs, run.task, r);
    RunsUpdate(db.tasks, db.runs, r, run);
    TasksUpdate(db.tasks, db.runs, r, run);
    InterruptsUpdate(db.runs, db.interrupts, r, run);
  }

  // -- one lemma per remaining transition ----------------------------------

  lemma CreateTaskKeeps(db: Db, t: Id, goal: string, workspace: string)
    requires WellFormed(db)
    ensures var s := CreateTask(db, t, goal, workspace); s.Ok? ==> WellFormed(s.value)
  {}

  lemma CreateRunKeeps(db: Db, t: Id, r: Id)
    requires WellFormed(db)
    ensures var s := CreateRun(db, t, r); s.Ok? ==> WellFormed(s.value)
  {
    if CreateRun(db, t, r).Ok? {
      var run := Run(t, Pending, 0, 0, None, None, false, None, None);
      RunsUpdate(db.tasks, db.runs, r, run);
      TasksUpdate(db.tasks, db.runs, r, run);
      InterruptsUpdate(db.runs, db.interrupts, r, run);
    }
  }

  lemma ClaimKeeps(db: Db, r: Id, token: Id, seconds: real, now: real)
    requires WellFormed(db)
    ensures var s := ClaimRun(db, r, token, seconds, now); s.Ok? ==> WellFormed(s.value)
  {
    var s := ClaimRun(db, r, token, seconds, now);
    if s.Ok? { RunReplaced(db, s.value, r, s.value.runs[r]); }
  }

  lemma RenewKeeps(db: Db, r: Id, token: Id, seconds: real, now: real)
    requires WellFormed(db)
    ensures var s := RenewLease(db, r, token, seconds, now); s.Ok? ==> WellFormed(s.value)
  {
    var s := RenewLease(db, r, token, seconds, now);
    if s.Ok? { RunReplaced(db, s.value, r, s.value.runs[r]); }
  }

  lemma FailKeeps(db: Db, r: Id, token: Id, error: Value, now: real)
    requires WellFormed(db)
    ensures var s := FailRun(db, r, token, error, now); s.Ok? ==> WellFormed(s.value)
  {
    var s := FailRun(db, r, token, error, now);
    if s.Ok? { RunReplaced(db, s.value, r, s.value.runs[r]); }
  }

  lemma FinishKeeps(db: Db, r: Id, token: Id, now: real)
    requires WellFormed(db)
    ensures var s := FinishCancelled(db, r, token, now); s.Ok? ==> WellFormed(s.value)
  {
    var s := FinishCancelled(db, r, token, now);
    if s.Ok? { RunReplaced(db, s.value, r, s.value.runs[r]); }
  }

  lemma SaveKeeps(db: Db, r: Id, token: Id, expected: nat, cp: Checkpoint, now: real)
    requires WellFormed(db)
    ensures var s := SaveCheckpoint(db, r, token, expected, cp, now); s.Ok? ==> WellFormed(s.value)
  {
    if SaveCheckpoint(db, r, token, expected, cp, now).Ok? {
      var run := db.runs[r].(version := expected + 1);
      assert ActiveOn(db.runs, run.task, r);
      RunsUpdate(db.tasks, db.runs, r, run);
      CheckpointsExtend(db.runs, db.checkpoints, r, run, cp);
      EventsUpdate(db.runs, db.events, r, run);
      TasksUpdate(db.tasks, db.runs, r, run);
      InterruptsUpdate(db.runs, db.interrupts, r, run);
    }
  }

  lemma SuspendKeeps(db: Db, r: Id, token: Id, expected: nat, cp: Checkpoint, i: Id, kind: string, request: Value, now: real)
    requires WellFormed(db)
    ensures var s := Suspend(db, r, token, expected, cp, i, kind, request, now); s.Ok? ==> WellFormed(s.value)
  {
    if Suspend(db, r, token, expected, cp, i, kind, request, now).Ok? {
      var run := Release(db.runs[r], Waiting).(version := expected + 1);
      assert ActiveOn(db.runs, run.task, r);
      RunsUpdate(db.tasks, db.runs, r, run);
      CheckpointsExtend(db.runs, db.checkpoints, r, run, cp);
      EventsUpdate(db.runs, db.events, r, run);
      TasksUpdate(db.tasks, db.runs, r, run);
      InterruptOpened(db.runs, db.interrupts, i, Interrupt(r, kind, request, Asked, Null), run);
    }
  }

  lemma ResolveKeeps(db: Db, i: Id, allow: bool, response: Value)
    requires WellFormed(db)
    ensures var s := ResolveInterrupt(db, i, allow, response); s.Ok? ==> WellFormed(s.value)
  {
    if ResolveInterrupt(db, i, allow, response).Ok? && db.interrupts[i].state == Asked {
      ResolvedKeeps(db, i, allow, response);
    }
  }

  lemma ResolvedKeeps(db: Db, i: Id, allow: bool, response: Value)
    requires WellFormed(db) && i in db.interrupts && db.interrupts[i].state == Asked && Resolvable(db, i)
    ensures WellFormed(Resolved(db, i, allow, response))
  {
    var r := db.interrupts[i].run;
    var run := db.runs[r].(state := if allow then Pending else Cancelled);
    var row := db.interrupts[i].(state := if allow then Allowed else Denied, response := response);
    assert ActiveOn(db.runs, run.task, r);
    RunsUpdate(db.tasks, db.runs, r, run);
    TasksUpdate(db.tasks, db.runs, r, run);
    InterruptClosed(db.runs, db.interrupts, i, row, run);
    StillInOrder(db, db.(interrupts := db.interrupts[i := row], runs := db.runs[r := run]), r);
  }

  /** A change to one run that keeps its version leaves checkpoints and events in order. */
  lemma StillInOrder(db: Db, next: Db, r: Id)
    requires WellFormed(db) && r in db.runs && r in next.runs
    requires next == db.(interrupts := next.interrupts, runs := db.runs[r := next.runs[r]])
    requires next.runs[r].version == db.runs[r].version
    requires RunsOk(next.tasks, next.runs) && TasksOk(next.tasks, next.runs) && InterruptsOk(next.runs, next.interrupts)
    ensures WellFormed(next)
  {}

  lemma CompleteKeeps(db: Db, r: Id, token: Id, result: Value, now: real)
    requires WellFormed(db)
    ensures var s := CompleteRun(db, r, token, result, now); s.Ok? ==> WellFormed(s.value)
  {
    var s := CompleteRun(db, r, token, result, now);
    if s.Ok? {
      var run := s.value.runs[r];
      var t := run.task;
      assert ActiveOn(db.runs, t, r);
      RunsUpdate(db.tasks, db.runs, r, run);
      TasksUpdate(db.tasks, db.runs, r, run);
      InterruptsUpdate(db.runs, db.interrupts, r, run);
      assert CompletedBy(s.value.runs, t, r);
      forall a ensures !ActiveOn(s.value.runs, t, a) { assert a != r ==> !ActiveOn(db.runs, t, a); }
    }
  }

  lemma ReopenKeeps(db: Db, r: Id, evidence: Value)
    requires WellFormed(db)
    ensures var s := ReopenUncertain(db, r, evidence); s.Ok? ==> WellFormed(s.value)
  {
    if ReopenUncertain(db, r, evidence).Ok? { ReopenedKeeps(db, r); }
  }

  lemma ReopenedKeeps(db: Db, r: Id)
    requires WellFormed(db) && r in db.runs && Recoverable(db.runs[r]) && forall a :: !ActiveOn(db.runs, db.runs[r].task, a)
    ensures WellFormed(Reopened(db, r))
  {
    var next := Reopened(db, r);
    var run := next.runs[r];
    RunsUpdate(db.tasks, db.runs, r, run);
    RunsOkAnyTaskState(db.tasks, next.tasks, next.runs);
    assert TasksOk(next.tasks, db.runs);
    TasksUpdate(next.tasks, db.runs, r, run);
    InterruptsUpdate(db.runs, db.interrupts, r, run);
  }

  lemma RunsOkAnyTaskState(tasks: map<Id, Task>, next: map<Id, Task>, runs: map<Id, Run>)
    requires RunsOk(tasks, runs) && tasks.Keys <= next.Keys
    ensures RunsOk(next, runs)
  {}

  lemma WaitingCancelKeeps(db: Db, r: Id, reason: Value)
    requires WellFormed(db) && r in db.runs && db.runs[r].state == Waiting
    ensures WellFormed(CancelRows(db, r, reason))
  {
    var run := Release(db.runs[r], Cancelled).(cancel := true);
    assert ActiveOn(db.runs, run.task, r);
    RunsUpdate(db.tasks, db.runs, r, run);
    TasksUpdate(db.tasks, db.runs, r, run);
    var i := PendingInterrupt(db.interrupts, r);
    assert i.Some?;
    InterruptClosed(db.runs, db.interrupts, i.value,
      db.interrupts[i.value].(state := Denied, response := reason), run);
  }

  lemma CancelRowsKeep(db: Db, r: Id, reason: Value)
    requires WellFormed(db) && r in db.runs && IsActive(db.runs[r].state)
    ensures WellFormed(CancelRows(db, r, reason))
  {
    if db.runs[r].state == Waiting {
      WaitingCancelKeeps(db, r, reason);
    } else {
      RunReplaced(db, CancelRows(db, r, reason), r, CancelRows(db, r, reason).runs[r]);
    }
  }

  lemma RequestCancelKeeps(db: Db, r: Id)
    requires WellFormed(db)
    ensures var s := RequestCancel(db, r); s.Ok? ==> WellFormed(s.value)
  {
    if RequestCancel(db, r).Ok? && IsActive(db.runs[r].state) {
      CancelRowsKeep(db, r, Obj(map["reason" := Str("run_cancelled")]));
    }
  }

  lemma CloseTaskKeeps(db: Db, t: Id, next: Db)
    requires WellFormed(db) && t in db.tasks
    requires next == db.(tasks := db.tasks[t := db.tasks[t].(state := TaskCancelled)], audit := next.audit)
    ensures WellFormed(next)
  {
    RunsOkAnyTaskState(db.tasks, next.tasks, db.runs);
  }

  lemma CancelTaskKeeps(db: Db, t: Id)
    requires WellFormed(db)
    ensures var s := CancelTask(db, t); s.Ok? ==> WellFormed(s.value)
  {
    var s := CancelTask(db, t);
    if s.Ok? && db.tasks[t].state == TaskOpen {
      var reason := Obj(map["reason" := Str("task_cancelled")]);
      match ActiveRun(db.runs, t)
      case Some(r) =>
        CancelRowsKeep(db, r, reason);
        CloseTaskKeeps(CancelRows(db, r, reason), t, s.value);
      case None => CloseTaskKeeps(db, t, s.value);
    }
  }

  // -- the invariant -----------------------------------------------------

  lemma LeaseOpKeeps(db: Db, op: Op)
    requires WellFormed(db) && LeaseOp(op)
    ensures WellFormed(After(db, op))
  {
    match op
    case OpClaim(r, token, seconds, now) => ClaimKeeps(db, r, token, seconds, now);
    case OpRenew(r, token, seconds, now) => RenewKeeps(db, r, token, seconds, now);
    case OpSave(r, token, expected, cp, now) => SaveKeeps(db, r, token, expected, cp, now);
    case OpSuspend(r, token, expected, cp, i, kind, request, now) =>
      SuspendKeeps(db, r, token, expected, cp, i, kind, request, now);
    case OpComplete(r, token, result, now) => CompleteKeeps(db, r, token, result, now);
    case OpFail(r, token, error, now) => FailKeeps(db, r, token, error, now);
    case OpFinishCancelled(r, token, now) => FinishKeeps(db, r, token, now);
  }

  lemma SharedOpKeeps(db: Db, op: Op)
    requires WellFormed(db) && !LeaseOp(op)
    ensures WellFormed(After(db, op))
  {
    match op
    case OpCreateTask(t, goal, workspace) => CreateTaskKeeps(db, t, goal, workspace);
    case OpCreateRun(t, r) => CreateRunKeeps(db, t, r);
    case OpResolve(i, allow, response) => ResolveKeeps(db, i, allow, response);
    case OpReopen(r, evidence) => ReopenKeeps(db, r, evidence);
    case OpRequestCancel(r) => RequestCancelKeeps(db, r);
    case OpCancelTask(t) => CancelTaskKeeps(db, t);
    case OpAppendEvent(r, identity, kind, iteration, data, at) =>
      AppendKeeps(db, r, identity, kind, iteration, data, at);
    case OpConfigure(scope, limits) => BudgetsApart(db, After(db, op));
    case OpReserve(scope, handoff, estimate) => BudgetsApart(db, After(db, op));
  }

  /** Every transition, whatever its arguments and clock, keeps the structural invariant. */
  lemma StepKeepsWellFormed(db: Db, op: Op)
    requires WellFormed(db)
    ensures WellFormed(After(db, op))
  {
    if LeaseOp(op) { LeaseOpKeeps(db, op); } else { SharedOpKeeps(db, op); }
  }

  lemma BudgetsApart(db: Db, next: Db)
    requires WellFormed(db) && next == db.(budgets := next.budgets, admissions := next.admissions, audit := next.audit)
    ensures WellFormed(next)
  {}

  /** The structural invariant holds after every history of calls. */
  lemma {:induction false} ReachableWellFormed(ops: seq<Op>)
    ensures WellFormed(Exec(EMPTY_DB, ops))
  {
    if ops != [] {
      ReachableWellFormed(ops[..|ops| - 1]);
      StepKeepsWellFormed(Exec(EMPTY_DB, ops[..|ops| - 1]), ops[|ops| - 1]);
    }
  }

  /** A waiting run's interrupt can always be resolved: the branch of `resolve_interrupt`
      that finds the run no longer waiting is dead. */
  lemma PendingInterruptResolvable(db: Db, i: Id, allow: bool, response: Value)
    requires WellFormed(db) && i in db.interrupts && db.interrupts[i].state == Asked
    ensures ResolveInterrupt(db, i, allow, response) != Err(WrongState)
  {
    assert PendingOn(db.interrupts, db.interrupts[i].run, i);
  }
}
