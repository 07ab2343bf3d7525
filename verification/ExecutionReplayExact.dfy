/** Replay, exactly: which calls on a store the outbox tells, over every history. */
module ExecutionReplayExact {
  import opened Values
  import opened Execution
  import opened ExecutionInvariant
  import opened ExecutionAudit
  import opened ExecutionReplay

  // -- every transition ---------------------------------------------------------

  /** The outbox tells the tables of a store that is in order. */
  ghost predicate Sound(db: Db) { Replayed(db) && Invariant(db) }

  /** A second cancel request of a run whose flag a reopen has cleared. */
  ghost predicate CancelLost(db: Db, r: Id) {
    r in db.runs && IsActive(db.runs[r].state) && !db.runs[r].cancel && !Free(db, CancelRequestedId(r))
  }

  /** A completion that the outbox does not tell: of an open task whose completion is on
      record already, or of a run whose task was cancelled without one on record. */
  ghost predicate CompletionLost(db: Db, t: Id) {
    t in db.tasks && (db.tasks[t].state == TaskOpen <==> !Free(db, TaskStateId(t, TaskCompleted)))
  }

  /** The calls that replay does not follow. */
  ghost predicate Loses(db: Db, op: Op) {
    match op
    case OpComplete(r, token, _, now) => Completable(db, r, token, now) && CompletionLost(db, db.runs[r].task)
    case OpFail(r, token, error, now) => FailureLost(db, r, token, error, now)
    case OpReopen(r, evidence) =>
      && Observed(evidence)
      && r in db.runs && Recoverable(db.runs[r])
      && db.runs[r].task in db.tasks && db.tasks[db.runs[r].task].state == TaskCompleted
    case OpRequestCancel(r) => CancelLost(db, r)
    case OpCancelTask(t) => TaskCancelLost(db, t)
    case _ => false
  }

  /** What a call leaves is told unless it is a losing one. */
  ghost predicate Told(db: Db, s: Result<Db, Error>, lost: bool) {
    if lost then s.Ok? && !Replayed(s.value) else Stays(db, s)
  }

  ghost predicate Exact(db: Db, op: Op) { Told(db, Step(db, op), Loses(db, op)) }

  // -- calls that lose nothing

  lemma CreateTaskStays(db: Db, t: Id, goal: string, workspace: string)
    requires Sound(db)
    ensures Stays(db, CreateTask(db, t, goal, workspace))
  {
    if t !in db.tasks { IdentityFree(db, TaskCreatedId(t)); }
    CreateTaskCommits(db, t, goal, workspace);
  }

  lemma CreateRunStays(db: Db, t: Id, r: Id)
    requires Sound(db)
    ensures Stays(db, CreateRun(db, t, r))
  {
    RunIdentitiesFree(db, r);
    CreateRunCommits(db, t, r);
  }

  lemma ClaimStays(db: Db, r: Id, token: Id, seconds: real, now: real)
    requires Sound(db)
    ensures Stays(db, ClaimRun(db, r, token, seconds, now))
  {
    RunIdentitiesFree(db, r);
    ClaimCommits(db, r, token, seconds, now);
  }

  lemma RenewStays(db: Db, r: Id, token: Id, seconds: real, now: real)
    requires Sound(db)
    ensures Stays(db, RenewLease(db, r, token, seconds, now))
  {
    RenewIdentityFree(db, r, now + seconds);
    RenewCommits(db, r, token, seconds, now);
  }

  lemma SaveStays(db: Db, r: Id, token: Id, expected: nat, cp: Checkpoint, now: real)
    requires Sound(db)
    ensures Stays(db, SaveCheckpoint(db, r, token, expected, cp, now))
  {
    RunIdentitiesFree(db, r);
    SaveCommits(db, r, token, expected, cp, now);
  }

  lemma SuspendStays(db: Db, r: Id, token: Id, expected: nat, cp: Checkpoint, i: Id, kind: string, request: Value, now: real)
    requires Sound(db)
    ensures Stays(db, Suspend(db, r, token, expected, cp, i, kind, request, now))
  {
    RunIdentitiesFree(db, r);
    InterruptIdentitiesFree(db, i);
    SuspendCommits(db, r, token, expected, cp, i, kind, request, now);
  }

  lemma FinishStays(db: Db, r: Id, token: Id, now: real)
    requires Sound(db)
    ensures Stays(db, FinishCancelled(db, r, token, now))
  {
    RunIdentitiesFree(db, r);
    FinishCommits(db, r, token, now);
  }

  lemma ReserveCaseStays(db: Db, scope: string, handoff: Id, estimate: map<string, real>, s: Result<Db, Error>)
    requires Replayed(db) && AuditOk(db) && ReserveCase(s, db, scope, handoff, estimate)
    ensures Stays(db, s)
  {
    if s.Ok? && s != Ok(db) {
      IdentityFree(db, BudgetReservedId(scope, handoff));
      NeutralRowCommits(db, Reserved(db, scope, handoff, estimate), ReservedEvent(scope, handoff, estimate));
    }
  }

  lemma ReserveStays(db: Db, scope: string, handoff: Id, estimate: map<string, real>)
    requires Sound(db)
    ensures Stays(db, ReserveBudget(db, scope, handoff, estimate))
  {
    ReserveCases(db, scope, handoff, estimate);
    ReserveCaseStays(db, scope, handoff, estimate, ReserveBudget(db, scope, handoff, estimate));
  }

  lemma ResolveStays(db: Db, i: Id, allow: bool, response: Value)
    requires Sound(db)
    ensures Stays(db, ResolveInterrupt(db, i, allow, response))
  {
    if Resolvable(db, i) {
      RunIdentitiesFree(db, db.interrupts[i].run);
      InterruptIdentitiesFree(db, i);
      if allow { AllowCommits(db, i, response); } else { DenyCommits(db, i, response); }
    }
  }

  lemma SameRowsStays(db: Db, next: Db)
    requires Replayed(db) && next == db.(events := next.events, budgets := next.budgets, admissions := next.admissions)
    ensures Stays(db, Ok(next))
  {}

  // -- completion

  lemma ReplayGrows(audit: seq<AuditEvent>, e: AuditEvent)
    requires Lookup(audit, e.id).None?
    ensures RecordAll(audit, [e]) == Some(audit + [e])
    ensures Replay(audit + [e]) == Apply(Replay(audit), e.body)
  {
    RecordOneRow(audit, e);
    ApplyAllConcat(View(map[], map[], map[]), audit, [e]);
    OneApplies(Replay(audit), e);
  }

  /** Of two rows the second is on record already: only the first is appended. */
  lemma SecondKnown(audit: seq<AuditEvent>, e: AuditEvent, f: AuditEvent)
    requires Lookup(audit, e.id).None? && Lookup(audit, f.id) == Some(f.body) && e.id != f.id
    ensures RecordAll(audit, [e, f]) == Some(audit + [e])
    ensures Replay(audit + [e]) == Apply(Replay(audit), e.body)
  {
    RecordTwoRows(audit, e, f);
    ReplayGrows(audit, e);
    RecordOneRow(audit, e);
  }

  lemma BothNew(audit: seq<AuditEvent>, e: AuditEvent, f: AuditEvent)
    requires Lookup(audit, e.id).None? && Lookup(audit, f.id).None? && e.id != f.id
    ensures RecordAll(audit, [e, f]).Some?
    ensures Replay(RecordAll(audit, [e, f]).value) == Apply(Apply(Replay(audit), e.body), f.body)
  {
    TwoNew(audit, Replay(audit), e, f);
    NewRowsHeard(audit, Replay(audit), [e, f]);
    ReplayRecorded(audit, [e, f]);
    TwoApply(Replay(audit), e, f);
  }

  /** The task of a run that can be completed is open or cancelled. */
  lemma CompletableTask(db: Db, r: Id, token: Id, now: real)
    requires WellFormed(db) && Completable(db, r, token, now)
    ensures db.runs[r].task in db.tasks && db.tasks[db.runs[r].task].state != TaskCompleted
    ensures Flags(db) ==> db.tasks[db.runs[r].task].state == TaskOpen && Free(db, TaskStateId(db.runs[r].task, TaskCompleted))
  {
    assert ActiveOn(db.runs, db.runs[r].task, r);
  }

  lemma CompletionRow(db: Db, t: Id)
    requires AuditOk(db) && !Free(db, TaskStateId(t, TaskCompleted))
    ensures Lookup(db.audit, TaskStateId(t, TaskCompleted)) == Some(TaskClosed(t, TaskCompleted))
  {
    assert Justified(db, TaskStateId(t, TaskCompleted), Lookup(db.audit, TaskStateId(t, TaskCompleted)).value);
  }

  /** The view of the completed run, before anything is said of its task. */
  lemma CompletedView(db: Db, r: Id, result: Value)
    requires r in db.runs
    ensures var next := CompletedDb(db, r, result);
      Apply(Project(db), SettledEvent(r, db.runs[r], Completed).body) == Project(next).(tasks := db.tasks)
  {
    ViewRunsUpdate(db.runs, r, CompletedDb(db, r, result).runs[r]);
  }

  /** The completion of a cancelled task's run closes the task on record only. */
  lemma ClosedOnRecordOnly(db: Db, r: Id, result: Value)
    requires Replayed(db) && r in db.runs && Free(db, RunStateId(r, Completed)) && Free(db, TaskStateId(db.runs[r].task, TaskCompleted))
    requires db.runs[r].task in db.tasks && db.tasks[db.runs[r].task].state == TaskCancelled
    ensures var s := Commit(CompletedDb(db, r, result), [SettledEvent(r, db.runs[r], Completed), ClosedRow(db.runs[r].task)]);
      s.Ok? && !Replayed(s.value)
  {
    var t := db.runs[r].task;
    BothNew(db.audit, SettledEvent(r, db.runs[r], Completed), ClosedRow(t));
    CompletedView(db, r, result);
    assert Apply(Project(CompletedDb(db, r, result)).(tasks := db.tasks), ClosedRow(t).body).tasks[t].state == TaskCompleted;
  }

  /** A completion on record already: the outbox gains the run's row alone. */
  lemma ClosedBefore(db: Db, r: Id, result: Value)
    requires Replayed(db) && r in db.runs && Free(db, RunStateId(r, Completed))
    requires Lookup(db.audit, TaskStateId(db.runs[r].task, TaskCompleted)) == Some(TaskClosed(db.runs[r].task, TaskCompleted))
    requires db.runs[r].task in db.tasks
    ensures var s := Commit(CompletedDb(db, r, result), [SettledEvent(r, db.runs[r], Completed), ClosedRow(db.runs[r].task)]);
      s.Ok? && s.value.tasks == CompletedDb(db, r, result).tasks
      && (Replayed(s.value) <==> db.tasks[db.runs[r].task].state != TaskOpen)
  {
    var t := db.runs[r].task;
    SecondKnown(db.audit, SettledEvent(r, db.runs[r], Completed), ClosedRow(t));
    CompletedView(db, r, result);
    if db.tasks[t].state == TaskOpen { assert CompletedDb(db, r, result).tasks[t].state == TaskCompleted; }
  }

  lemma CompletionIsLost(db: Db, r: Id, token: Id, result: Value, now: real)
    requires Sound(db) && Completable(db, r, token, now) && CompletionLost(db, db.runs[r].task)
    ensures Told(db, CompleteRun(db, r, token, result, now), true)
  {
    var t := db.runs[r].task;
    RunIdentitiesFree(db, r);
    CompletableTask(db, r, token, now);
    CompleteCommitsTo(db, r, token, result, now);
    if db.tasks[t].state == TaskOpen {
      CompletionRow(db, t);
      ClosedBefore(db, r, result);
    } else {
      ClosedOnRecordOnly(db, r, result);
    }
  }

  lemma CompletionIsTold(db: Db, r: Id, token: Id, result: Value, now: real)
    requires Sound(db) && Completable(db, r, token, now) && !CompletionLost(db, db.runs[r].task)
    ensures Told(db, CompleteRun(db, r, token, result, now), false)
  {
    var t := db.runs[r].task;
    RunIdentitiesFree(db, r);
    CompletableTask(db, r, token, now);
    if db.tasks[t].state == TaskOpen {
      CompleteCommits(db, r, token, result, now);
    } else {
      CompleteCommitsTo(db, r, token, result, now);
      CompletionRow(db, t);
      ClosedBefore(db, r, result);
    }
  }

  lemma CompleteExact(db: Db, r: Id, token: Id, result: Value, now: real)
    requires Sound(db)
    ensures Told(db, CompleteRun(db, r, token, result, now),
                 Completable(db, r, token, now) && CompletionLost(db, db.runs[r].task))
  {
    if Completable(db, r, token, now) {
      if CompletionLost(db, db.runs[r].task) {
        CompletionIsLost(db, r, token, result, now);
      } else {
        CompletionIsTold(db, r, token, result, now);
      }
    } else {
      CompletionRefused(db, r, token, result, now);
    }
  }

  lemma CompletionRefused(db: Db, r: Id, token: Id, result: Value, now: real)
    requires !Completable(db, r, token, now)
    ensures Told(db, CompleteRun(db, r, token, result, now), false)
  {}

  // -- failure

  /** The owner repeats the failure that is on record from before a reopen. */
  ghost predicate FailureLost(db: Db, r: Id, token: Id, error: Value, now: real) {
    && error.Obj? && Owns(db, r, token, now)
    && Lookup(db.audit, RunStateId(r, Failed)) == Some(FailedEvent(r, db.runs[r], error).body)
  }

  lemma FailureIsLost(db: Db, r: Id, token: Id, error: Value, now: real)
    requires Replayed(db) && FailureLost(db, r, token, error, now)
    ensures Told(db, FailRun(db, r, token, error, now), true)
  {
    RecordOneRow(db.audit, FailedEvent(r, db.runs[r], error));
    FailedDiffers(db, r, Release(db.runs[r], Failed).(error := Some(error)));
  }

  lemma FailureClashes(db: Db, r: Id, token: Id, error: Value, now: real)
    requires error.Obj? && Owns(db, r, token, now) && !Free(db, RunStateId(r, Failed))
    requires Lookup(db.audit, RunStateId(r, Failed)) != Some(FailedEvent(r, db.runs[r], error).body)
    ensures Told(db, FailRun(db, r, token, error, now), false)
  {
    RecordOneRow(db.audit, FailedEvent(r, db.runs[r], error));
  }

  lemma FailExact(db: Db, r: Id, token: Id, error: Value, now: real)
    requires Sound(db)
    ensures Told(db, FailRun(db, r, token, error, now), FailureLost(db, r, token, error, now))
  {
    if error.Obj? && Owns(db, r, token, now) {
      RunIdentitiesFree(db, r);
      if Free(db, RunStateId(r, Failed)) {
        FailCommits(db, r, token, error, now);
      } else if FailureLost(db, r, token, error, now) {
        FailureIsLost(db, r, token, error, now);
      } else {
        FailureClashes(db, r, token, error, now);
      }
    } else {
      FailureRefused(db, r, token, error, now);
    }
  }

  lemma FailureRefused(db: Db, r: Id, token: Id, error: Value, now: real)
    requires !(error.Obj? && Owns(db, r, token, now))
    ensures Told(db, FailRun(db, r, token, error, now), false)
  {}

  lemma FailedDiffers(db: Db, r: Id, run: Run)
    requires r in db.runs && run.state != db.runs[r].state
    ensures ViewRuns(db.runs[r := run]) != ViewRuns(db.runs)
  {
    assert ViewRuns(db.runs[r := run])[r].state != ViewRuns(db.runs)[r].state;
  }

  // -- cancellation

  /** Rows that say nothing of cancel flags. */
  predicate SparesFlags(e: AuditEvent) { e.body.RunSettled? || e.body.InterruptResolved? || e.body.TaskClosed? }

  predicate Unflagged(v: View, r: Id) { r in v.runs && !v.runs[r].cancel }

  lemma {:induction false} FlagsSpared(v: View, es: seq<AuditEvent>, r: Id)
    requires Unflagged(v, r) && forall k | 0 <= k < |es| :: SparesFlags(es[k])
    ensures Unflagged(ApplyAll(v, es), r)
    decreases |es|
  {
    if es != [] {
      var rest := es[1..];
      assert forall k | 0 <= k < |rest| :: rest[k] == es[k + 1];
      assert SparesFlags(es[0]);
      FlagsSpared(Apply(v, es[0].body), rest, r);
    }
  }

  /** A repeated cancel request adds no row, so the flag it sets is not told. */
  lemma LostRequest(db: Db, mid: Db, r: Id, tail: seq<AuditEvent>)
    requires Replayed(db) && mid.audit == db.audit && r in db.runs && !db.runs[r].cancel
    requires Lookup(db.audit, CancelRequestedId(r)) == Some(CancelRequested(r, db.runs[r].task))
    requires PlainRows(db.audit, tail) && forall k | 0 <= k < |tail| :: SparesFlags(tail[k])
    requires r in mid.runs && mid.runs[r].cancel
    ensures var s := Commit(mid, [CancelEvent(r, db.runs[r])] + tail); s.Ok? && !Replayed(s.value)
  {
    var c := CancelEvent(r, db.runs[r]);
    assert ([c] + tail)[1..] == tail;
    assert RecordAll(db.audit, [c] + tail) == RecordAll(db.audit, tail);
    forall k | 0 <= k < |tail| ensures Lookup(db.audit, tail[k].id).None? { assert Plain(db.audit, tail[k]); }
    HeardNew(db.audit, Project(db), tail);
    ReplayRecorded(db.audit, tail);
    FlagsSpared(Project(db), tail, r);
    assert Project(mid).runs[r].cancel;
  }

  lemma TailSpares(db: Db, r: Id, tail: seq<AuditEvent>)
    requires r in db.runs && CancelTail(db, r, tail)
    ensures forall k | 0 <= k < |tail| :: SparesFlags(tail[k])
  {
    assert forall k | 0 <= k < |DeniedEvents(db, r)| :: SparesFlags(DeniedEvents(db, r)[k]);
  }

  lemma LostIsOnRecord(db: Db, r: Id)
    requires AuditOk(db) && CancelLost(db, r)
    ensures Lookup(db.audit, CancelRequestedId(r)) == Some(CancelRequested(r, db.runs[r].task))
  {
    assert Justified(db, CancelRequestedId(r), Lookup(db.audit, CancelRequestedId(r)).value);
  }

  lemma RequestCancelExact(db: Db, r: Id)
    requires Sound(db)
    ensures Exact(db, OpRequestCancel(r))
  {
    CancelIdentitiesFree(db, r);
    if CancelLost(db, r) {
      var run := db.runs[r];
      var reason := Obj(map["reason" := Str("run_cancelled")]);
      var tail := if run.state == Running then [] else [SettledEvent(r, run, Cancelled)] + DeniedEvents(db, r);
      LostIsOnRecord(db, r);
      CancelTailPlain(db, r, tail);
      TailSpares(db, r, tail);
      CancelRowsAudit(db, r, reason);
      LostRequest(db, CancelRows(db, r, reason), r, tail);
    } else if r in db.runs && !IsActive(db.runs[r].state) {
      SameRowsStays(db, db);
    } else {
      RequestCancelCommits(db, r);
    }
  }

  /** The task is open and its active run's cancel request is lost. */
  ghost predicate TaskCancelLost(db: Db, t: Id) {
    t in db.tasks && db.tasks[t].state == TaskOpen
    && ActiveRun(db.runs, t).Some? && CancelLost(db, ActiveRun(db.runs, t).value)
  }

  lemma CancelTaskExact(db: Db, t: Id)
    requires Sound(db)
    ensures Told(db, CancelTask(db, t), TaskCancelLost(db, t))
  {
    if t in db.tasks && db.tasks[t].state == TaskOpen {
      IdentityFree(db, TaskStateId(t, TaskCancelled));
      match ActiveRun(db.runs, t)
      case None => CloseIdleCommits(db, t);
      case Some(r) =>
        CancelIdentitiesFree(db, r);
        if CancelLost(db, r) { LostTaskCancel(db, t, r); } else { CloseActiveCommits(db, t, r); }
    } else {
      TaskNotOpen(db, t);
    }
  }

  lemma TaskNotOpen(db: Db, t: Id)
    requires Replayed(db) && !(t in db.tasks && db.tasks[t].state == TaskOpen)
    ensures Told(db, CancelTask(db, t), false)
  {}

  lemma LostTaskCancel(db: Db, t: Id, r: Id)
    requires Replayed(db) && AuditOk(db) && CancelFree(db, r) && CancelLost(db, r) && ActiveRun(db.runs, t) == Some(r)
    requires t in db.tasks && db.tasks[t].state == TaskOpen && Free(db, TaskStateId(t, TaskCancelled))
    ensures Told(db, CancelTask(db, t), true)
  {
    var run := db.runs[r];
    var reason := Obj(map["reason" := Str("task_cancelled")]);
    var tail := if run.state == Running then [] else DeniedEvents(db, r) + [SettledEvent(r, run, Cancelled)];
    LostIsOnRecord(db, r);
    CancelTailPlain(db, r, tail);
    TailSpares(db, r, tail);
    CloseTailPlain(db.audit, tail, ClosedEvent(t));
    CancelRowsAudit(db, r, reason);
    LostRequest(db, CancelRows(db, r, reason).(tasks := CloseTask(db.tasks, t)), r, tail + [ClosedEvent(t)]);
    assert [CancelEvent(r, run)] + (tail + [ClosedEvent(t)]) == [CancelEvent(r, run)] + tail + [ClosedEvent(t)];
  }

  // -- reopening

  lemma ReopenApplies(db: Db, r: Id, run: Run, evidence: Value)
    requires r in db.runs && run == db.runs[r].(state := Pending, error := None, cancel := false)
    ensures Apply(Project(db), ReopenedEvent(r, db.runs[r], evidence).body)
      == View(db.tasks, ViewRuns(db.runs[r := run]), ViewInterrupts(db.interrupts))
  {
    ViewRunsUpdate(db.runs, r, run);
  }

  lemma ReopenedTables(db: Db, r: Id)
    requires r in db.runs && db.runs[r].task in db.tasks
    ensures var next := Reopened(db, r);
      && next.audit == db.audit && next.interrupts == db.interrupts
      && next.runs == db.runs[r := db.runs[r].(state := Pending, error := None, cancel := false)]
      && (next.tasks == db.tasks <==> db.tasks[db.runs[r].task].state != TaskCompleted)
  {
    var t := db.runs[r].task;
    assert db.tasks[t].state == TaskCompleted ==> Reopened(db, r).tasks[t].state == TaskOpen;
  }

  lemma ReopenCommits(db: Db, r: Id, evidence: Value)
    requires Replayed(db) && AuditOk(db) && r in db.runs && db.runs[r].task in db.tasks && Recoverable(db.runs[r])
    ensures var s := Commit(Reopened(db, r), [ReopenedEvent(r, db.runs[r], evidence)]);
      s.Ok? && (Replayed(s.value) <==> db.tasks[db.runs[r].task].state != TaskCompleted)
  {
    var e := ReopenedEvent(r, db.runs[r], evidence);
    IdentityFree(db, e.id);
    ReplayGrows(db.audit, e);
    ReopenApplies(db, r, db.runs[r].(state := Pending, error := None, cancel := false), evidence);
    ReopenedTables(db, r);
  }

  predicate Observed(evidence: Value) {
    Get(evidence, "observation").Str? && Get(evidence, "observation").s != ""
  }

  /** A completed task has no active run, so nothing stands in the way of the reopen. */
  lemma ReopenIsLost(db: Db, r: Id, evidence: Value)
    requires Sound(db) && Observed(evidence) && r in db.runs && Recoverable(db.runs[r])
    requires db.runs[r].task in db.tasks && db.tasks[db.runs[r].task].state == TaskCompleted
    ensures ReopenUncertain(db, r, evidence) == Commit(Reopened(db, r), [ReopenedEvent(r, db.runs[r], evidence)])
  {
    assert forall a :: !ActiveOn(db.runs, db.runs[r].task, a);
  }

  lemma ReopenCases(db: Db, r: Id, evidence: Value)
    ensures var s := ReopenUncertain(db, r, evidence);
      s.Ok? ==> (&& Observed(evidence) && r in db.runs && Recoverable(db.runs[r])
                 && s == Commit(Reopened(db, r), [ReopenedEvent(r, db.runs[r], evidence)]))
  {}

  lemma ReopenExact(db: Db, r: Id, evidence: Value)
    requires Sound(db)
    ensures var s := ReopenUncertain(db, r, evidence);
      if Loses(db, OpReopen(r, evidence)) then s.Ok? && !Replayed(s.value) else s.Ok? ==> Replayed(s.value)
  {
    if Loses(db, OpReopen(r, evidence)) {
      ReopenIsLost(db, r, evidence);
      ReopenCommits(db, r, evidence);
    } else if ReopenUncertain(db, r, evidence).Ok? {
      ReopenCases(db, r, evidence);
      ReopenCommits(db, r, evidence);
    }
  }

  // -- every call ---------------------------------------------------------------------

  lemma LeaseOpExact(db: Db, op: Op)
    requires Sound(db) && LeaseOp(op)
    ensures Exact(db, op)
  {
    match op
    case OpClaim(r, token, seconds, now) => ClaimStays(db, r, token, seconds, now);
    case OpRenew(r, token, seconds, now) => RenewStays(db, r, token, seconds, now);
    case OpSave(r, token, expected, cp, now) => SaveStays(db, r, token, expected, cp, now);
    case OpSuspend(r, token, expected, cp, i, kind, request, now) =>
      SuspendStays(db, r, token, expected, cp, i, kind, request, now);
    case OpComplete(r, token, result, now) => CompleteExact(db, r, token, result, now);
    case OpFail(r, token, error, now) => FailExact(db, r, token, error, now);
    case OpFinishCancelled(r, token, now) => FinishStays(db, r, token, now);
  }

  lemma SharedOpExact(db: Db, op: Op)
    requires Sound(db) && !op.OpReopen? && !LeaseOp(op)
    ensures Exact(db, op)
  {
    match op
    case OpCreateTask(t, goal, workspace) => CreateTaskStays(db, t, goal, workspace);
    case OpCreateRun(t, r) => CreateRunStays(db, t, r);
    case OpResolve(i, allow, response) => ResolveStays(db, i, allow, response);
    case OpRequestCancel(r) => RequestCancelExact(db, r);
    case OpCancelTask(t) => CancelTaskExact(db, t);
    case OpAppendEvent(r, identity, kind, iteration, data, at) =>
      if Step(db, op).Ok? { SameRowsStays(db, Step(db, op).value); }
    case OpConfigure(scope, limits) =>
      if Step(db, op).Ok? { SameRowsStays(db, Step(db, op).value); }
    case OpReserve(scope, handoff, estimate) => ReserveStays(db, scope, handoff, estimate);
  }

  lemma ReopenFollows(db: Db, op: Op)
    requires Sound(db) && op.OpReopen?
    ensures Replayed(After(db, op)) <==> !Loses(db, op)
  {
    ReopenExact(db, op.r, op.evidence);
  }

  lemma ExactFollows(db: Db, op: Op)
    requires Sound(db) && Exact(db, op)
    ensures Replayed(After(db, op)) <==> !Loses(db, op)
  {}

  /** In every store in order whose outbox tells its tables, the outbox tells the tables
      after a call if and only if the call is not one of the losing ones. */
  lemma ReplayFollowsExactly(db: Db, op: Op)
    requires Invariant(db) && Replay(db.audit) == Project(db)
    ensures Replay(After(db, op).audit) == Project(After(db, op)) <==> !Loses(db, op)
  {
    if op.OpReopen? {
      ReopenFollows(db, op);
    } else {
      if LeaseOp(op) { LeaseOpExact(db, op); } else { SharedOpExact(db, op); }
      ExactFollows(db, op);
    }
  }

  // -- histories without a reopen -------------------------------------------------------

  /** Without a reopen no call loses anything. */
  lemma NothingLost(db: Db, op: Op)
    requires Sound(db) && Flags(db) && !op.OpReopen?
    ensures !Loses(db, op)
  {
    match op
    case OpComplete(r, token, _, now) => if Completable(db, r, token, now) { CompletableTask(db, r, token, now); }
    case OpFail(r, token, _, now) => if Owns(db, r, token, now) { RunIdentitiesFree(db, r); }
    case _ =>
  }

  lemma StepFaithful(db: Db, op: Op)
    requires Sound(db) && Flags(db) && !op.OpReopen?
    ensures Faithful(After(db, op))
  {
    NothingLost(db, op);
    if LeaseOp(op) { LeaseOpExact(db, op); } else { SharedOpExact(db, op); }
  }

  /** After every history without a reopen, replaying the outbox gives the current tables. */
  lemma {:induction false} ReplayRebuildsState(ops: seq<Op>)
    requires forall k | 0 <= k < |ops| :: !ops[k].OpReopen?
    ensures Replay(Exec(EMPTY_DB, ops).audit) == Project(Exec(EMPTY_DB, ops))
    ensures Faithful(Exec(EMPTY_DB, ops))
  {
    if ops != [] {
      ReplayRebuildsState(ops[..|ops| - 1]);
      ReachableInvariant(ops[..|ops| - 1]);
      StepFaithful(Exec(EMPTY_DB, ops[..|ops| - 1]), ops[|ops| - 1]);
    }
  }
}
