/** The store as the program runs it: an object whose tables are written one statement at a
    time inside a transaction that is rolled back when a guard fails. Every method is
    proved to be the transition of the same name on the abstract tables. */
module Store {
  import opened Values
  import opened Execution
  import opened ExecutionInvariant
  import opened ExecutionAudit

  /** A method that computes `s` from the tables `before`: on success the tables are the new
      ones, on failure the error is raised and the tables are untouched. */
  predicate Returned(s: Result<Db, Error>, before: Db, after: Db, raised: Option<Error>) {
    match s
    case Ok(next) => raised.None? && after == next
    case Err(e) => raised == Some(e) && after == before
  }

  function Without(estimate: map<string, real>, left: set<string>): map<string, real> {
    map b | b in estimate && b !in left :: estimate[b]
  }

  /** The buckets outside `left` have been added to what was spent. */
  ghost predicate AddedSoFar(budget: Budget, estimate: map<string, real>, left: set<string>, spent: map<string, real>) {
    Fits(budget, Without(estimate, left)) && spent == AddSpend(budget.spent, Without(estimate, left))
  }

  lemma AddedNothing(budget: Budget, estimate: map<string, real>)
    ensures AddedSoFar(budget, estimate, estimate.Keys, budget.spent)
  {
    assert AddSpend(budget.spent, map[]) == budget.spent;
    assert Without(estimate, estimate.Keys) == map[];
  }

  lemma AddedAll(budget: Budget, estimate: map<string, real>, spent: map<string, real>)
    requires AddedSoFar(budget, estimate, {}, spent)
    ensures Fits(budget, estimate) && spent == AddSpend(budget.spent, estimate)
  {
    assert Without(estimate, {}) == estimate;
  }

  lemma AddedOne(budget: Budget, estimate: map<string, real>, left: set<string>, spent: map<string, real>, b: string)
    requires AddedSoFar(budget, estimate, left, spent) && b in left && b in estimate
    ensures Amount(spent, b) == Amount(budget.spent, b)
    ensures b in budget.limits && Amount(spent, b) + estimate[b] <= budget.limits[b] ==>
            AddedSoFar(budget, estimate, left - {b}, spent[b := Amount(spent, b) + estimate[b]])
  {
    assert Without(estimate, left - {b}) == Without(estimate, left)[b := estimate[b]];
    AddSpendStep(budget.spent, Without(estimate, left), b, estimate[b]);
  }

  lemma AddSpendStep(spent: map<string, real>, done: map<string, real>, b: string, amount: real)
    requires b !in done
    ensures Amount(AddSpend(spent, done), b) == Amount(spent, b)
    ensures AddSpend(spent, done)[b := Amount(spent, b) + amount] == AddSpend(spent, done[b := amount])
  {
    var next := AddSpend(spent, done[b := amount]);
    assert next.Keys == AddSpend(spent, done).Keys + {b};
  }

  /** What a method returned, as the transition of the tables. */
  lemma ReturnedAfter(db: Db, op: Op, s: Result<Db, Error>, next: Db, raised: Option<Error>)
    requires WellFormed(db) && s == Step(db, op) && Returned(s, db, next, raised)
    ensures next == After(db, op) && WellFormed(next) && (raised.None? <==> s.Ok?)
  {
    StepKeepsWellFormed(db, op);
  }

  class ExecutionStore {
    var tasks: map<Id, Task>
    var runs: map<Id, Run>
    var checkpoints: map<(Id, nat), Checkpoint>
    var interrupts: map<Id, Interrupt>
    var events: map<Id, seq<AgentEvent>>
    var budgets: map<string, Budget>
    var admissions: seq<Admission>
    var audit: seq<AuditEvent>

    function State(): Db
      reads this
    {
      Db(tasks, runs, checkpoints, interrupts, events, budgets, admissions, audit)
    }

    ghost predicate Valid()
      reads this
    {
      WellFormed(State())
    }

    constructor ()
      ensures State() == EMPTY_DB && Valid()
    {
      tasks, runs, checkpoints, interrupts := map[], map[], map[], map[];
      events, budgets, admissions, audit := map[], map[], [], [];
    }

    /** Back to the tables a transaction started from. */
    method Rollback(saved: Db)
      modifies this
      ensures State() == saved
    {
      tasks, runs, checkpoints, interrupts := saved.tasks, saved.runs, saved.checkpoints, saved.interrupts;
      events, budgets, admissions, audit := saved.events, saved.budgets, saved.admissions, saved.audit;
    }

    /** `_record_audit_event` */
    method RecordAudit(e: AuditEvent) returns (ok: bool)
      modifies this`audit
      ensures match Record(old(audit), e)
        case Some(next) => ok && audit == next
        case None => !ok && audit == old(audit)
    {
      match Lookup(audit, e.id)
      case Some(body) => ok := body == e.body;
      case None =>
        audit := audit + [e];
        ok := true;
    }

    /** The end of a transaction with one audit row. */
    method CommitOne(saved: Db, e: AuditEvent) returns (raised: Option<Error>)
      modifies this
      ensures Returned(Commit(old(State()), [e]), saved, State(), raised)
    {
      RecordOneRow(audit, e);
      var ok := RecordAudit(e);
      if ok { return None; }
      Rollback(saved);
      return Some(AuditClash);
    }

    /** The end of a transaction with two audit rows. */
    method CommitTwo(saved: Db, e: AuditEvent, f: AuditEvent) returns (raised: Option<Error>)
      modifies this
      ensures Returned(Commit(old(State()), [e, f]), saved, State(), raised)
    {
      RecordTwoRows(audit, e, f);
      var ok := RecordAudit(e);
      if ok { ok := RecordAudit(f); }
      if ok { return None; }
      Rollback(saved);
      return Some(AuditClash);
    }

    // -- tasks and runs

    method CreateTask(t: Id, goal: string, workspace: string) returns (raised: Option<Error>)
      modifies this
      ensures Returned(Execution.CreateTask(old(State()), t, goal, workspace), old(State()), State(), raised)
    {
      var saved := State();
      if goal == "" { return Some(BadArgument); }
      if t in tasks { return Some(WrongState); }
      tasks := tasks[t := Task(goal, workspace, TaskOpen)];
      raised := CommitOne(saved, AuditEvent(TaskCreatedId(t), TaskCreated(t, goal, workspace)));
    }

    method CreateRun(t: Id, r: Id) returns (raised: Option<Error>)
      modifies this
      ensures Returned(Execution.CreateRun(old(State()), t, r), old(State()), State(), raised)
    {
      var saved := State();
      if t !in tasks { return Some(Missing); }
      if tasks[t].state != TaskOpen { return Some(WrongState); }
      if r in runs || exists a :: a in runs && ActiveOn(runs, t, a) { return Some(WrongState); }
      runs := runs[r := Run(t, Pending, 0, 0, None, None, false, None, None)];
      raised := CommitOne(saved, AuditEvent(RunCreatedId(r), RunCreated(r, t)));
    }

    method ClaimRun(r: Id, token: Id, seconds: real, now: real) returns (raised: Option<Error>)
      modifies this
      ensures Returned(Execution.ClaimRun(old(State()), r, token, seconds, now), old(State()), State(), raised)
    {
      var saved := State();
      if seconds <= 0.0 { return Some(BadArgument); }
      if r !in runs { return Some(Missing); }
      if !Claimable(runs[r], now) { return Some(LeaseLost); }
      var run := runs[r].(state := Running, attempt := runs[r].attempt + 1, token := Some(token), expires := Some(now + seconds));
      runs := runs[r := run];
      raised := CommitOne(saved, AuditEvent(RunClaimedId(r, run.attempt), RunClaimed(r, run.task, run.attempt, now + seconds)));
    }

    /** `_require_lease` */
    method RequireLease(r: Id, token: Id, now: real) returns (raised: Option<Error>)
      ensures raised.None? <==> Owns(State(), r, token, now)
      ensures raised.Some? ==> raised.value == LeaseError(State(), r)
    {
      if r !in runs { return Some(Missing); }
      var run := runs[r];
      if run.state != Running || run.token != Some(token) || run.expires.None? || run.expires.value <= now {
        return Some(LeaseLost);
      }
      return None;
    }

    method RenewLease(r: Id, token: Id, seconds: real, now: real) returns (raised: Option<Error>)
      modifies this
      ensures Returned(Execution.RenewLease(old(State()), r, token, seconds, now), old(State()), State(), raised)
    {
      var saved := State();
      if seconds <= 0.0 { return Some(BadArgument); }
      raised := RequireLease(r, token, now);
      if raised.Some? { return; }
      var run := runs[r].(expires := Some(now + seconds));
      runs := runs[r := run];
      raised := CommitOne(saved, AuditEvent(LeaseRenewedId(r, run.attempt, now + seconds),
                                            LeaseRenewed(r, run.task, run.attempt, now + seconds)));
    }

    // -- checkpoints and interrupts

    method SaveCheckpoint(r: Id, token: Id, expected: nat, cp: Checkpoint, now: real) returns (raised: Option<Error>)
      modifies this
      ensures Returned(Execution.SaveCheckpoint(old(State()), r, token, expected, cp, now), old(State()), State(), raised)
    {
      var saved := State();
      if cp.phase == "" || !cp.state.Obj? { return Some(BadArgument); }
      raised := RequireLease(r, token, now);
      if raised.Some? { return; }
      if runs[r].version != expected { return Some(VersionConflict); }
      if (r, expected + 1) in checkpoints { return Some(UniqueIndex); }
      checkpoints := checkpoints[(r, expected + 1) := cp];
      runs := runs[r := runs[r].(version := expected + 1)];
      raised := CommitOne(saved, AuditEvent(CheckpointId(r, expected + 1), CheckpointSaved(r, expected + 1, cp.phase)));
    }

    method Suspend(r: Id, token: Id, expected: nat, cp: Checkpoint, i: Id, kind: string, request: Value, now: real)
      returns (raised: Option<Error>)
      modifies this
      ensures Returned(Execution.Suspend(old(State()), r, token, expected, cp, i, kind, request, now),
                       old(State()), State(), raised)
    {
      var saved := State();
      raised := WriteSuspension(r, token, expected, cp, i, kind, request, now);
      if raised.Some? { Rollback(saved); return; }
      raised := CommitTwo(saved, AuditEvent(CheckpointId(r, expected + 1), CheckpointSaved(r, expected + 1, cp.phase)),
                          AuditEvent(InterruptAskedId(i), InterruptAsked(i, r, kind)));
    }

    /** The checks and writes of a suspension, stopped by the first one that fails. */
    method WriteSuspension(r: Id, token: Id, expected: nat, cp: Checkpoint, i: Id, kind: string, request: Value, now: real)
      returns (raised: Option<Error>)
      modifies this
      ensures raised == SuspendRefusal(old(State()), r, token, expected, cp, i, kind, request, now)
      ensures raised.None? ==> State() == Suspended(old(State()), r, cp, i, Interrupt(r, kind, request, Asked, Null))
    {
      if kind == "" || cp.phase == "" || !cp.state.Obj? || !request.Obj? { return Some(BadArgument); }
      raised := RequireLease(r, token, now);
      if raised.Some? { return; }
      if runs[r].version != expected { return Some(VersionConflict); }
      if (r, expected + 1) in checkpoints { return Some(WrongState); }
      checkpoints := checkpoints[(r, expected + 1) := cp];
      if i in interrupts || exists j :: j in interrupts && PendingOn(interrupts, r, j) { return Some(WrongState); }
      interrupts := interrupts[i := Interrupt(r, kind, request, Asked, Null)];
      runs := runs[r := Release(runs[r], Waiting).(version := expected + 1)];
    }

    method ResolveInterrupt(i: Id, allow: bool, response: Value) returns (raised: Option<Error>)
      modifies this
      ensures Returned(Execution.ResolveInterrupt(old(State()), i, allow, response), old(State()), State(), raised)
    {
      var saved := State();
      var target := if allow then Allowed else Denied;
      if i !in interrupts { return Some(Missing); }
      var row := interrupts[i];
      if row.state != Asked {
        return if row.state == target && row.response == response then None else Some(WrongState);
      }
      var written := WriteResolution(i, allow, response);
      if !written { Rollback(saved); return Some(WrongState); }
      raised := CommitResolution(saved, i, allow);
    }

    method WriteResolution(i: Id, allow: bool, response: Value) returns (written: bool)
      requires i in interrupts && interrupts[i].state == Asked
      modifies this
      ensures written <==> Resolvable(old(State()), i)
      ensures written ==> State() == Resolved(old(State()), i, allow, response)
    {
      var row := interrupts[i];
      interrupts := interrupts[i := row.(state := if allow then Allowed else Denied, response := response)];
      if row.run !in runs || runs[row.run].state != Waiting { return false; }
      runs := runs[row.run := runs[row.run].(state := if allow then Pending else Cancelled)];
      return true;
    }

    method CommitResolution(saved: Db, i: Id, allow: bool) returns (raised: Option<Error>)
      requires i in saved.interrupts && saved.interrupts[i].run in saved.runs
      modifies this
      ensures Returned(Commit(old(State()), ResolveEvents(saved, i, allow)), saved, State(), raised)
    {
      var row := saved.interrupts[i];
      if allow {
        raised := CommitOne(saved, ResolvedEvent(i, row, Allowed));
      } else {
        raised := CommitTwo(saved, ResolvedEvent(i, row, Denied), SettledEvent(row.run, saved.runs[row.run], Cancelled));
      }
    }

    // -- terminal transitions and cancellation

    /** Moves a task from one state to another if it is in the first. */
    method MoveTask(t: Id, from: TaskState, to: TaskState)
      modifies this`tasks
      ensures tasks == if t in old(tasks) && old(tasks)[t].state == from
                       then old(tasks)[t := old(tasks)[t].(state := to)] else old(tasks)
    {
      if t in tasks && tasks[t].state == from { tasks := tasks[t := tasks[t].(state := to)]; }
    }

    method CompleteRun(r: Id, token: Id, result: Value, now: real) returns (raised: Option<Error>)
      modifies this
      ensures Returned(Execution.CompleteRun(old(State()), r, token, result, now), old(State()), State(), raised)
    {
      var saved := State();
      raised := RequireLease(r, token, now);
      if raised.Some? { return; }
      var run := runs[r];
      if run.cancel { return Some(WrongState); }
      runs := runs[r := Release(run, Completed).(result := Some(result))];
      MoveTask(run.task, TaskOpen, TaskCompleted);
      raised := CommitTwo(saved, SettledEvent(r, run, Completed),
                          AuditEvent(TaskStateId(run.task, TaskCompleted), TaskClosed(run.task, TaskCompleted)));
    }

    method FailRun(r: Id, token: Id, error: Value, now: real) returns (raised: Option<Error>)
      modifies this
      ensures Returned(Execution.FailRun(old(State()), r, token, error, now), old(State()), State(), raised)
    {
      var saved := State();
      if !error.Obj? { return Some(BadArgument); }
      raised := RequireLease(r, token, now);
      if raised.Some? { return; }
      var run := runs[r];
      runs := runs[r := Release(run, Failed).(error := Some(error))];
      raised := CommitOne(saved, FailedEvent(r, run, error));
    }

    method ReopenUncertain(r: Id, evidence: Value) returns (raised: Option<Error>)
      modifies this
      ensures Returned(Execution.ReopenUncertain(old(State()), r, evidence), old(State()), State(), raised)
    {
      var saved := State();
      if !Get(evidence, "observation").Str? || Get(evidence, "observation").s == "" { return Some(BadArgument); }
      if r !in runs { return Some(Missing); }
      var run := runs[r];
      if !Recoverable(run) { return Some(WrongState); }
      if exists a :: a in runs && ActiveOn(runs, run.task, a) { return Some(UniqueIndex); }
      runs := runs[r := run.(state := Pending, error := None, cancel := false)];
      MoveTask(run.task, TaskCompleted, TaskOpen);
      assert State() == Reopened(saved, r);
      raised := CommitOne(saved, ReopenedEvent(r, run, evidence));
    }

    method FinishCancelled(r: Id, token: Id, now: real) returns (raised: Option<Error>)
      modifies this
      ensures Returned(Execution.FinishCancelled(old(State()), r, token, now), old(State()), State(), raised)
    {
      var saved := State();
      raised := RequireLease(r, token, now);
      if raised.Some? { return; }
      var run := runs[r];
      if !run.cancel { return Some(WrongState); }
      runs := runs[r := Release(run, Cancelled)];
      raised := CommitOne(saved, SettledEvent(r, run, Cancelled));
    }

    /** Records one more row of a transaction whose rows `done` were recorded over `base`. */
    method RecordNext(ok: bool, e: AuditEvent, ghost base: seq<AuditEvent>, ghost done: seq<AuditEvent>) returns (next: bool)
      requires RecordAll(base, done) == if ok then Some(audit) else None
      modifies this`audit
      ensures RecordAll(base, done + [e]) == if next then Some(audit) else None
    {
      RecordAllConcat(base, done, [e]);
      if !ok { return false; }
      RecordOneRow(audit, e);
      next := RecordAudit(e);
    }

    /** Flags a running run; cancels any other active run, with the interrupt it waits for. */
    method CancelActive(r: Id, reason: Value) returns (denied: seq<AuditEvent>)
      requires InterruptsOk(runs, interrupts) && r in runs && IsActive(runs[r].state)
      modifies this`runs, this`interrupts
      ensures State() == CancelRows(old(State()), r, reason)
      ensures denied == DeniedEvents(old(State()), r) && |denied| <= 1
    {
      denied := [];
      if runs[r].state == Waiting {
        if i :| i in interrupts && PendingOn(interrupts, r, i) {
          denied := [ResolvedEvent(i, interrupts[i], Denied)];
          interrupts := interrupts[i := interrupts[i].(state := Denied, response := reason)];
        }
      }
      runs := runs[r := CancelledRun(runs[r])];
    }

    method RecordDenied(ok: bool, denied: seq<AuditEvent>, ghost base: seq<AuditEvent>, ghost done: seq<AuditEvent>)
      returns (next: bool)
      requires RecordAll(base, done) == (if ok then Some(audit) else None) && |denied| <= 1
      modifies this`audit
      ensures RecordAll(base, done + denied) == if next then Some(audit) else None
    {
      if denied != [] {
        assert denied == [denied[0]];
        next := RecordNext(ok, denied[0], base, done);
      } else {
        assert done + denied == done;
        next := ok;
      }
    }

    /** The rows of a cancelled run after its cancel request, as `request_cancel` orders them. */
    method RecordSettledDenied(ok: bool, s: AuditEvent, denied: seq<AuditEvent>, ghost base: seq<AuditEvent>, ghost done: seq<AuditEvent>)
      returns (next: bool)
      requires RecordAll(base, done) == (if ok then Some(audit) else None) && |denied| <= 1
      modifies this`audit
      ensures RecordAll(base, done + ([s] + denied)) == if next then Some(audit) else None
    {
      next := RecordNext(ok, s, base, done);
      next := RecordDenied(next, denied, base, done + [s]);
      assert done + ([s] + denied) == done + [s] + denied;
    }

    /** The same rows as `cancel_task` orders them. */
    method RecordDeniedSettled(ok: bool, s: AuditEvent, denied: seq<AuditEvent>, ghost base: seq<AuditEvent>, ghost done: seq<AuditEvent>)
      returns (next: bool)
      requires RecordAll(base, done) == (if ok then Some(audit) else None) && |denied| <= 1
      modifies this`audit
      ensures RecordAll(base, done + (denied + [s])) == if next then Some(audit) else None
    {
      next := RecordDenied(ok, denied, base, done);
      next := RecordNext(next, s, base, done + denied);
      assert done + (denied + [s]) == done + denied + [s];
    }

    /** The writes of `request_cancel` on an active run, with its audit rows in order. */
    method WriteRequestCancel(r: Id, reason: Value) returns (ok: bool)
      requires InterruptsOk(runs, interrupts) && r in runs && IsActive(runs[r].state)
      modifies this
      ensures RecordAll(old(audit), RequestCancelEvents(old(State()), r)) == if ok then Some(audit) else None
      ensures State() == CancelRows(old(State()), r, reason).(audit := audit)
    {
      ghost var base := audit;
      var run := runs[r];
      var c := CancelEvent(r, run);
      ok := RecordNext(true, c, base, []);
      assert [] + [c] == [c] + [] == [c];
      var denied := CancelActive(r, reason);
      if run.state != Running { ok := RecordSettledDenied(ok, SettledEvent(r, run, Cancelled), denied, base, [c]); }
    }

    method RequestCancel(r: Id) returns (raised: Option<Error>)
      requires Valid()
      modifies this
      ensures Returned(Execution.RequestCancel(old(State()), r), old(State()), State(), raised)
    {
      var saved := State();
      if r !in runs { return Some(Missing); }
      if !IsActive(runs[r].state) { return None; }
      var ok := WriteRequestCancel(r, Obj(map["reason" := Str("run_cancelled")]));
      if ok { return None; }
      Rollback(saved);
      return Some(AuditClash);
    }

    /** The writes of `cancel_task` on the task's active run, with its audit rows in order. */
    method WriteTaskRunCancel(t: Id, r: Id, reason: Value) returns (ok: bool)
      requires InterruptsOk(runs, interrupts) && r in runs && IsActive(runs[r].state)
      modifies this`runs, this`interrupts, this`audit
      ensures RecordAll(old(audit), CancelTaskEvents(old(State()), t, r)) == if ok then Some(audit) else None
      ensures State() == CancelRows(old(State()), r, reason).(audit := audit)
    {
      ghost var base := audit;
      var run := runs[r];
      var c := CancelEvent(r, run);
      ok := RecordNext(true, c, base, []);
      assert [] + [c] == [c] + [] == [c];
      var denied := CancelActive(r, reason);
      ghost var tail := if run.state == Running then [] else denied + [SettledEvent(r, run, Cancelled)];
      if run.state != Running { ok := RecordDeniedSettled(ok, SettledEvent(r, run, Cancelled), denied, base, [c]); }
      ok := RecordNext(ok, ClosedEvent(t), base, [c] + tail);
    }

    method CancelTaskRun(t: Id, r: Id) returns (raised: Option<Error>)
      requires InterruptsOk(runs, interrupts) && r in runs && IsActive(runs[r].state) && t in tasks
      modifies this
      ensures Returned(Commit(CancelRows(old(State()), r, Obj(map["reason" := Str("task_cancelled")]))
                                .(tasks := CloseTask(old(tasks), t)), CancelTaskEvents(old(State()), t, r)),
                       old(State()), State(), raised)
    {
      var saved := State();
      var ok := WriteTaskRunCancel(t, r, Obj(map["reason" := Str("task_cancelled")]));
      tasks := CloseTask(tasks, t);
      if ok { return None; }
      Rollback(saved);
      return Some(AuditClash);
    }

    method CancelTask(t: Id) returns (raised: Option<Error>)
      requires Valid()
      modifies this
      ensures Returned(Execution.CancelTask(old(State()), t), old(State()), State(), raised)
    {
      var saved := State();
      if t !in tasks { return Some(Missing); }
      match tasks[t].state
      case TaskCancelled => return None;
      case TaskCompleted => return Some(WrongState);
      case TaskOpen =>
        if r :| r in runs && ActiveOn(runs, t, r) {
          raised := CancelTaskRun(t, r);
        } else {
          tasks := CloseTask(tasks, t);
          raised := CommitOne(saved, ClosedEvent(t));
        }
    }

    // -- public events

    method AppendAgentEvent(r: Id, identity: string, kind: string, iteration: nat, data: Value, at: real)
      returns (raised: Option<Error>)
      modifies this
      ensures Returned(AppendEvent(old(State()), r, identity, kind, iteration, data, at), old(State()), State(), raised)
    {
      if identity == "" || kind == "" || !data.Obj? { return Some(BadArgument); }
      if r !in runs { return Some(Missing); }
      var rows := EventsOf(State(), r);
      match FindEvent(rows, identity)
      case Some(e) =>
        return if e.kind == kind && e.iteration == iteration && e.data == data then None else Some(WrongState);
      case None =>
        events := events[r := rows + [AgentEvent(identity, LastSequence(rows) + 1, kind, iteration, data, at)]];
        return None;
    }

    // -- shared budgets

    method ConfigureBudget(scope: string, limits: map<string, real>) returns (raised: Option<Error>)
      modifies this
      ensures Returned(Execution.ConfigureBudget(old(State()), scope, limits), old(State()), State(), raised)
    {
      if !NonNegative(limits) || scope == "" { return Some(BadArgument); }
      if scope !in budgets {
        budgets := budgets[scope := Budget(limits, map[])];
        return None;
      }
      return if budgets[scope].limits == limits then None else Some(WrongState);
    }

    /** The admission loop: one bucket after another, the running spend in a local table. */
    method Admit(budget: Budget, estimate: map<string, real>) returns (spent: map<string, real>, fits: bool)
      ensures fits <==> Fits(budget, estimate)
      ensures fits ==> spent == AddSpend(budget.spent, estimate)
    {
      spent := budget.spent;
      var left := estimate.Keys;
      AddedNothing(budget, estimate);
      while left != {}
        invariant left <= estimate.Keys && AddedSoFar(budget, estimate, left, spent)
        decreases |left|
      {
        var b :| b in left;
        AddedOne(budget, estimate, left, spent, b);
        var current := Amount(spent, b);
        if b !in budget.limits || current + estimate[b] > budget.limits[b] { return spent, false; }
        spent := spent[b := current + estimate[b]];
        left := left - {b};
      }
      AddedAll(budget, estimate, spent);
      fits := true;
    }

    method ReserveBudget(scope: string, handoff: Id, estimate: map<string, real>) returns (raised: Option<Error>)
      modifies this
      ensures Returned(Execution.ReserveBudget(old(State()), scope, handoff, estimate), old(State()), State(), raised)
    {
      var saved := State();
      if scope == "" || !NonNegative(estimate) { return Some(BadArgument); }
      if scope !in budgets { return Some(WrongState); }
      match FindAdmission(admissions, scope, handoff)
      case Some(prior) => return if prior == estimate then None else Some(WrongState);
      case None =>
        var spent, fits := Admit(budgets[scope], estimate);
        if !fits { return Some(WrongState); }
        WriteAdmission(scope, handoff, estimate, spent);
        raised := CommitOne(saved, ReservedEvent(scope, handoff, estimate));
    }

    method WriteAdmission(scope: string, handoff: Id, estimate: map<string, real>, spent: map<string, real>)
      requires scope in budgets
      modifies this
      ensures State() == old(State()).(budgets := old(budgets)[scope := old(budgets)[scope].(spent := spent)],
                                       admissions := old(admissions) + [Admission(scope, handoff, estimate)])
    {
      admissions := admissions + [Admission(scope, handoff, estimate)];
      budgets := budgets[scope := budgets[scope].(spent := spent)];
    }

    /** Any call of the store, by whomever: the store stays in order, so one call may follow
        another. */
    method Perform(op: Op) returns (raised: Option<Error>)
      requires Valid()
      modifies this
      ensures Valid() && Returned(Step(old(State()), op), old(State()), State(), raised)
      ensures State() == After(old(State()), op) && (raised.None? <==> Step(old(State()), op).Ok?)
    {
      ghost var db := State();
      raised := Route(op);
      ReturnedAfter(db, op, Step(db, op), State(), raised);
    }

    method Route(op: Op) returns (raised: Option<Error>)
      requires Valid()
      modifies this
      ensures Returned(Step(old(State()), op), old(State()), State(), raised)
    {
      match op
      case OpCreateTask(t, goal, workspace) => raised := CreateTask(t, goal, workspace);
      case OpCreateRun(t, r) => raised := CreateRun(t, r);
      case OpClaim(r, token, seconds, now) => raised := ClaimRun(r, token, seconds, now);
      case OpRenew(r, token, seconds, now) => raised := RenewLease(r, token, seconds, now);
      case OpSave(r, token, expected, cp, now) => raised := SaveCheckpoint(r, token, expected, cp, now);
      case OpSuspend(r, token, expected, cp, i, kind, request, now) =>
        raised := Suspend(r, token, expected, cp, i, kind, request, now);
      case OpResolve(i, allow, response) => raised := ResolveInterrupt(i, allow, response);
      case OpComplete(r, token, result, now) => raised := CompleteRun(r, token, result, now);
      case OpFail(r, token, error, now) => raised := FailRun(r, token, error, now);
      case OpReopen(r, evidence) => raised := ReopenUncertain(r, evidence);
      case OpRequestCancel(r) => raised := RequestCancel(r);
      case OpFinishCancelled(r, token, now) => raised := FinishCancelled(r, token, now);
      case OpCancelTask(t) => raised := CancelTask(t);
      case OpAppendEvent(r, identity, kind, iteration, data, at) =>
        raised := AppendAgentEvent(r, identity, kind, iteration, data, at);
      case OpConfigure(scope, limits) => raised := ConfigureBudget(scope, limits);
      case OpReserve(scope, handoff, estimate) => raised := ReserveBudget(scope, handoff, estimate);
    }
  }
}
