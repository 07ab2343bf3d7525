/** Concrete histories, from the empty store, that reach the surprising transitions. */
module ExecutionWitness {
  import opened Values
  import opened Execution
  import opened ExecutionAudit
  import opened ExecutionInvariant
  import opened ExecutionReplay
  import opened ExecutionReplayExact
  import opened ExecutionSettlement

  const TASK := Text("task")
  const RUN := Text("run")
  const OTHER := Text("other run")
  const FIRST := Text("first token")
  const SECOND := Text("second token")
  const ASK := Text("interrupt")

  const UNCERTAIN := Obj(map["recovery_required" := Bool(true)])
  const OBSERVED := Obj(map["observation" := Str("seen")])
  const DONE := Obj(map["answer" := Str("done")])

  // -- one more call ----------------------------------------------------------------

  lemma ExecSnoc(ops: seq<Op>, op: Op)
    ensures Exec(EMPTY_DB, ops + [op]) == After(Exec(EMPTY_DB, ops), op)
  {
    assert (ops + [op])[..|ops|] == ops;
  }

  ghost predicate TellsTables(ops: seq<Op>) { Replayed(Exec(EMPTY_DB, ops)) }

  lemma StillTold(ops: seq<Op>, op: Op)
    requires TellsTables(ops) && !Loses(Exec(EMPTY_DB, ops), op)
    ensures TellsTables(ops + [op])
  {
    ReachableInvariant(ops);
    ExecSnoc(ops, op);
    ReplayFollowsExactly(Exec(EMPTY_DB, ops), op);
  }

  lemma NowLost(ops: seq<Op>, op: Op)
    requires TellsTables(ops) && Loses(Exec(EMPTY_DB, ops), op)
    ensures !TellsTables(ops + [op])
  {
    ReachableInvariant(ops);
    ExecSnoc(ops, op);
    ReplayFollowsExactly(Exec(EMPTY_DB, ops), op);
  }

  /** The outbox holds these rows and no others. */
  ghost predicate Outbox(audit: seq<AuditEvent>, rows: map<AuditId, AuditBody>) {
    forall id :: Lookup(audit, id) == if id in rows then Some(rows[id]) else None
  }

  lemma Appends(db: Db, mid: Db, e: AuditEvent, rows: map<AuditId, AuditBody>)
    requires mid.audit == db.audit && Outbox(db.audit, rows) && e.id !in rows
    ensures Commit(mid, [e]) == Ok(mid.(audit := db.audit + [e]))
    ensures Outbox(db.audit + [e], rows[e.id := e.body])
  {
    RecordOneRow(db.audit, e);
    assert Record(db.audit, e) == Some(db.audit + [e]);
  }

  lemma AppendsTwo(db: Db, mid: Db, e: AuditEvent, f: AuditEvent, rows: map<AuditId, AuditBody>)
    requires mid.audit == db.audit && Outbox(db.audit, rows) && e.id !in rows && f.id !in rows && e.id != f.id
    ensures Commit(mid, [e, f]) == Ok(mid.(audit := db.audit + [e] + [f]))
    ensures Outbox(db.audit + [e] + [f], rows[e.id := e.body][f.id := f.body])
  {
    RecordTwoRows(db.audit, e, f);
    assert Record(db.audit, e) == Some(db.audit + [e]);
    assert Record(db.audit + [e], f) == Some(db.audit + [e] + [f]);
  }

  // -- histories with one task and one run -----------------------------------------------

  /** There is this one task with this one run. */
  ghost predicate Tables(db: Db, task: TaskState, run: Run, rows: map<AuditId, AuditBody>) {
    && db.tasks == map[TASK := Task("goal", "workspace", task)] && db.runs == map[RUN := run]
    && Outbox(db.audit, rows) && run.task == TASK
  }

  ghost predicate Holds(ops: seq<Op>, task: TaskState, run: Run, rows: map<AuditId, AuditBody>) {
    Tables(Exec(EMPTY_DB, ops), task, run, rows)
  }

  const NEW_RUN := Run(TASK, Pending, 0, 0, None, None, false, None, None)

  function Claimed(run: Run, token: Id, until: real): Run {
    run.(state := Running, attempt := run.attempt + 1, token := Some(token), expires := Some(until))
  }

  function Broken(run: Run): Run { Release(run, Failed).(error := Some(UNCERTAIN)) }

  function Opened(run: Run): Run { run.(state := Pending, error := None, cancel := false) }

  const CREATE := OpCreateTask(TASK, "goal", "workspace")
  const QUEUE := OpCreateRun(TASK, RUN)
  const CLAIM := OpClaim(RUN, FIRST, 10.0, 0.0)
  const FAIL := OpFail(RUN, FIRST, UNCERTAIN, 1.0)
  const REOPEN := OpReopen(RUN, OBSERVED)
  const FLAG := OpRequestCancel(RUN)
  const RECLAIM := OpClaim(RUN, SECOND, 10.0, 2.0)

  const QUEUED_ROWS: map<AuditId, AuditBody> :=
    map[TaskCreatedId(TASK) := TaskCreated(TASK, "goal", "workspace"), RunCreatedId(RUN) := RunCreated(RUN, TASK)]

  lemma Queues(ops: seq<Op>)
    requires ops == [CREATE]
    ensures Holds(ops + [QUEUE], TaskOpen, NEW_RUN, QUEUED_ROWS) && Exec(EMPTY_DB, ops + [QUEUE]).interrupts == map[]
  {
    ExecSnoc([], CREATE);
    assert [] + [CREATE] == ops;
    var tasks := map[TASK := Task("goal", "workspace", TaskOpen)];
    var e := AuditEvent(TaskCreatedId(TASK), TaskCreated(TASK, "goal", "workspace"));
    Appends(EMPTY_DB, EMPTY_DB.(tasks := tasks), e, map[]);
    var db := EMPTY_DB.(tasks := tasks, audit := [] + [e]);
    ExecSnoc(ops, QUEUE);
    Appends(db, db.(runs := map[RUN := NEW_RUN]), AuditEvent(RunCreatedId(RUN), RunCreated(RUN, TASK)), map[][e.id := e.body]);
  }

  lemma ClaimAppends(db: Db, r: Id, token: Id, seconds: real, now: real, rows: map<AuditId, AuditBody>)
    requires r in db.runs && db.runs[r].state == Pending && !db.runs[r].cancel && seconds > 0.0 && Outbox(db.audit, rows)
    requires RunClaimedId(r, db.runs[r].attempt + 1) !in rows
    ensures var next, run := ClaimRun(db, r, token, seconds, now), db.runs[r];
      && next.Ok? && next.value == db.(runs := db.runs[r := Claimed(run, token, now + seconds)], audit := next.value.audit)
      && Outbox(next.value.audit, rows[RunClaimedId(r, run.attempt + 1) := RunClaimed(r, run.task, run.attempt + 1, now + seconds)])
  {
    var c := Claimed(db.runs[r], token, now + seconds);
    Appends(db, db.(runs := db.runs[r := c]), AuditEvent(RunClaimedId(r, c.attempt), RunClaimed(r, c.task, c.attempt, now + seconds)), rows);
  }

  lemma ClaimStep(db: Db, task: TaskState, run: Run, token: Id, seconds: real, now: real, rows: map<AuditId, AuditBody>)
    requires Tables(db, task, run, rows) && run.state == Pending && !run.cancel && seconds > 0.0
    requires RunClaimedId(RUN, run.attempt + 1) !in rows
    ensures Tables(After(db, OpClaim(RUN, token, seconds, now)), task, Claimed(run, token, now + seconds),
                   rows[RunClaimedId(RUN, run.attempt + 1) := RunClaimed(RUN, TASK, run.attempt + 1, now + seconds)])
    ensures After(db, OpClaim(RUN, token, seconds, now)).interrupts == db.interrupts
  {
    ClaimAppends(db, RUN, token, seconds, now, rows);
  }

  lemma Claims(ops: seq<Op>, task: TaskState, run: Run, token: Id, seconds: real, now: real, rows: map<AuditId, AuditBody>)
    requires Holds(ops, task, run, rows) && run.state == Pending && !run.cancel && seconds > 0.0
    requires RunClaimedId(RUN, run.attempt + 1) !in rows
    ensures Holds(ops + [OpClaim(RUN, token, seconds, now)], task, Claimed(run, token, now + seconds),
                  rows[RunClaimedId(RUN, run.attempt + 1) := RunClaimed(RUN, TASK, run.attempt + 1, now + seconds)])
    ensures Exec(EMPTY_DB, ops + [OpClaim(RUN, token, seconds, now)]).interrupts == Exec(EMPTY_DB, ops).interrupts
  {
    ExecSnoc(ops, OpClaim(RUN, token, seconds, now));
    ClaimStep(Exec(EMPTY_DB, ops), task, run, token, seconds, now, rows);
  }

  lemma FailStep(db: Db, task: TaskState, run: Run, token: Id, now: real, rows: map<AuditId, AuditBody>)
    requires Tables(db, task, run, rows) && run.state == Running && run.token == Some(token)
    requires run.expires.Some? && now < run.expires.value && RunStateId(RUN, Failed) !in rows
    ensures Tables(After(db, OpFail(RUN, token, UNCERTAIN, now)), task, Broken(run),
                   rows[RunStateId(RUN, Failed) := RunFailed(RUN, TASK, run.version, UNCERTAIN)])
  {
    Appends(db, db.(runs := db.runs[RUN := Broken(run)]), FailedEvent(RUN, run, UNCERTAIN), rows);
  }

  lemma Fails(ops: seq<Op>, task: TaskState, run: Run, token: Id, now: real, rows: map<AuditId, AuditBody>)
    requires Holds(ops, task, run, rows) && run.state == Running && run.token == Some(token)
    requires run.expires.Some? && now < run.expires.value && RunStateId(RUN, Failed) !in rows
    ensures Holds(ops + [OpFail(RUN, token, UNCERTAIN, now)], task, Broken(run),
                  rows[RunStateId(RUN, Failed) := RunFailed(RUN, TASK, run.version, UNCERTAIN)])
  {
    ExecSnoc(ops, OpFail(RUN, token, UNCERTAIN, now));
    FailStep(Exec(EMPTY_DB, ops), task, run, token, now, rows);
  }

  lemma ReopenAppends(db: Db, run: Run, rows: map<AuditId, AuditBody>)
    requires RUN in db.runs && db.runs[RUN] == run && Recoverable(run) && Outbox(db.audit, rows)
    requires ReopenedId(RUN, run.attempt) !in rows && forall r :: !ActiveOn(db.runs, run.task, r)
    ensures var next := ReopenUncertain(db, RUN, OBSERVED);
      && next.Ok? && next.value == Reopened(db, RUN).(audit := next.value.audit)
      && Outbox(next.value.audit, rows[ReopenedId(RUN, run.attempt) := RunReopened(RUN, run.task, OBSERVED)])
  {
    Appends(db, Reopened(db, RUN), ReopenedEvent(RUN, run, OBSERVED), rows);
  }

  lemma ReopenTold(db: Db, task: TaskState, run: Run, rows: map<AuditId, AuditBody>)
    requires Tables(db, task, run, rows) && task != TaskCompleted
    ensures !Loses(db, REOPEN)
  {}

  lemma ReopenStep(db: Db, task: TaskState, run: Run, rows: map<AuditId, AuditBody>)
    requires Tables(db, task, run, rows) && Recoverable(run) && ReopenedId(RUN, run.attempt) !in rows && task != TaskCompleted
    ensures Tables(After(db, REOPEN), task, Opened(run), rows[ReopenedId(RUN, run.attempt) := RunReopened(RUN, TASK, OBSERVED)])
  {
    assert forall r :: !ActiveOn(db.runs, TASK, r);
    ReopenAppends(db, run, rows);
  }

  lemma Reopens(ops: seq<Op>, task: TaskState, run: Run, rows: map<AuditId, AuditBody>)
    requires Holds(ops, task, run, rows) && TellsTables(ops)
    requires Recoverable(run) && task != TaskCompleted && ReopenedId(RUN, run.attempt) !in rows
    ensures Holds(ops + [REOPEN], task, Opened(run), rows[ReopenedId(RUN, run.attempt) := RunReopened(RUN, TASK, OBSERVED)])
    ensures TellsTables(ops + [REOPEN])
  {
    ExecSnoc(ops, REOPEN);
    ReopenStep(Exec(EMPTY_DB, ops), task, run, rows);
    ReopenTold(Exec(EMPTY_DB, ops), task, run, rows);
    StillTold(ops, REOPEN);
  }

  lemma FlagStep(db: Db, task: TaskState, run: Run, rows: map<AuditId, AuditBody>)
    requires Tables(db, task, run, rows) && run.state == Running && CancelRequestedId(RUN) !in rows
    ensures Tables(After(db, FLAG), task, run.(cancel := true), rows[CancelRequestedId(RUN) := CancelRequested(RUN, TASK)])
    ensures After(db, FLAG).interrupts == db.interrupts
  {
    assert [CancelEvent(RUN, run)] + [] == [CancelEvent(RUN, run)];
    Appends(db, CancelRows(db, RUN, Obj(map["reason" := Str("run_cancelled")])), CancelEvent(RUN, run), rows);
  }

  lemma Flags(ops: seq<Op>, task: TaskState, run: Run, rows: map<AuditId, AuditBody>)
    requires Holds(ops, task, run, rows) && run.state == Running && CancelRequestedId(RUN) !in rows
    ensures Holds(ops + [FLAG], task, run.(cancel := true), rows[CancelRequestedId(RUN) := CancelRequested(RUN, TASK)])
    ensures Exec(EMPTY_DB, ops + [FLAG]).interrupts == Exec(EMPTY_DB, ops).interrupts
  {
    ExecSnoc(ops, FLAG);
    FlagStep(Exec(EMPTY_DB, ops), task, run, rows);
  }

  lemma Reclaims(ops: seq<Op>, task: TaskState, run: Run, rows: map<AuditId, AuditBody>)
    requires Holds(ops, task, run, rows) && run.state == Pending && !run.cancel && TellsTables(ops)
    requires RunClaimedId(RUN, run.attempt + 1) !in rows
    ensures Holds(ops + [RECLAIM], task, Claimed(run, SECOND, 12.0),
                  rows[RunClaimedId(RUN, run.attempt + 1) := RunClaimed(RUN, TASK, run.attempt + 1, 12.0)])
    ensures TellsTables(ops + [RECLAIM])
  {
    Claims(ops, task, run, SECOND, 10.0, 2.0, rows);
    StillTold(ops, RECLAIM);
  }

  // -- a run that its first owner is working on -------------------------------------------

  const STARTED := [CREATE] + [QUEUE] + [CLAIM]
  const STARTED_RUN := Claimed(NEW_RUN, FIRST, 10.0)

  /** The owner is at work and nothing but the run's start is on record. */
  ghost predicate AtWork(ops: seq<Op>, rows: map<AuditId, AuditBody>) {
    && Holds(ops, TaskOpen, STARTED_RUN, rows) && Exec(EMPTY_DB, ops).interrupts == map[]
    && rows.Keys == {TaskCreatedId(TASK), RunCreatedId(RUN), RunClaimedId(RUN, 1)}
  }

  lemma Starts(ops: seq<Op>, rows: map<AuditId, AuditBody>)
    requires Holds(ops, TaskOpen, NEW_RUN, rows) && Exec(EMPTY_DB, ops).interrupts == map[]
    requires rows.Keys == {TaskCreatedId(TASK), RunCreatedId(RUN)}
    ensures AtWork(ops + [CLAIM], rows[RunClaimedId(RUN, 1) := RunClaimed(RUN, TASK, 1, 10.0)])
  {
    FirstClaim(ops, rows);
    assert rows[RunClaimedId(RUN, 1) := RunClaimed(RUN, TASK, 1, 10.0)].Keys == rows.Keys + {RunClaimedId(RUN, 1)};
  }

  lemma FirstClaim(ops: seq<Op>, rows: map<AuditId, AuditBody>)
    requires Holds(ops, TaskOpen, NEW_RUN, rows) && RunClaimedId(RUN, 1) !in rows
    ensures Holds(ops + [CLAIM], TaskOpen, STARTED_RUN, rows[RunClaimedId(RUN, 1) := RunClaimed(RUN, TASK, 1, 10.0)])
    ensures Exec(EMPTY_DB, ops + [CLAIM]).interrupts == Exec(EMPTY_DB, ops).interrupts
  {
    Claims(ops, TaskOpen, NEW_RUN, FIRST, 10.0, 0.0, rows);
  }

  lemma Started() returns (rows: map<AuditId, AuditBody>)
    ensures AtWork(STARTED, rows)
  {
    Queues([CREATE]);
    Starts([CREATE] + [QUEUE], QUEUED_ROWS);
    rows := QUEUED_ROWS[RunClaimedId(RUN, 1) := RunClaimed(RUN, TASK, 1, 10.0)];
  }

  /** The run has failed once and waits for a second owner. */
  ghost predicate Requeued(ops: seq<Op>, task: TaskState, rows: map<AuditId, AuditBody>) {
    && Holds(ops, task, Opened(Broken(STARTED_RUN)), rows) && TellsTables(ops)
    && RunStateId(RUN, Failed) in rows && rows[RunStateId(RUN, Failed)] == RunFailed(RUN, TASK, 0, UNCERTAIN)
  }

  /** From a run at work, flagged or not, to its failure and reopening. */
  lemma FailsAndReopens(ops: seq<Op>, task: TaskState, run: Run, rows: map<AuditId, AuditBody>)
    returns (later: map<AuditId, AuditBody>)
    requires Holds(ops, task, run, rows) && run.(cancel := false) == STARTED_RUN && task != TaskCompleted
    requires RunStateId(RUN, Failed) !in rows && ReopenedId(RUN, 1) !in rows && TellsTables(ops + [FAIL])
    ensures Requeued(ops + [FAIL] + [REOPEN], task, later)
    ensures later.Keys == rows.Keys + {RunStateId(RUN, Failed), ReopenedId(RUN, 1)}
  {
    var failed := FirstFails(ops, task, run, rows);
    OpenedAlike(run);
    Reopens(ops + [FAIL], task, Broken(run), failed);
    later := failed[ReopenedId(RUN, 1) := RunReopened(RUN, TASK, OBSERVED)];
  }

  lemma OnlyThese(rows: map<AuditId, AuditBody>, later: map<AuditId, AuditBody>, id: AuditId)
    requires later.Keys == rows.Keys + {RunStateId(RUN, Failed), ReopenedId(RUN, 1)}
    ensures id in later <==> id in rows || id == RunStateId(RUN, Failed) || id == ReopenedId(RUN, 1)
  {}

  lemma OpenedAlike(run: Run)
    requires run.(cancel := false) == STARTED_RUN
    ensures Opened(Broken(run)) == Opened(Broken(STARTED_RUN)) && Recoverable(Broken(run)) && run.attempt == 1
  {}

  lemma FirstFails(ops: seq<Op>, task: TaskState, run: Run, rows: map<AuditId, AuditBody>) returns (later: map<AuditId, AuditBody>)
    requires Holds(ops, task, run, rows) && run.(cancel := false) == STARTED_RUN && RunStateId(RUN, Failed) !in rows
    ensures Holds(ops + [FAIL], task, Broken(run), later)
    ensures later == rows[RunStateId(RUN, Failed) := RunFailed(RUN, TASK, 0, UNCERTAIN)]
  {
    later := rows[RunStateId(RUN, Failed) := RunFailed(RUN, TASK, 0, UNCERTAIN)];
    Fails(ops, task, run, FIRST, 1.0, rows);
  }

  // -- a repeated failure -----------------------------------------------------------------

  lemma StartedFailTold()
    ensures TellsTables(STARTED + [FAIL])
  {
    ReplayRebuildsState(STARTED + [FAIL]);
  }

  ghost predicate FailsTwice(ops: seq<Op>, error: Value) {
    && !TellsTables(ops + [OpFail(RUN, SECOND, UNCERTAIN, 3.0)])
    && Step(Exec(EMPTY_DB, ops), OpFail(RUN, SECOND, error, 3.0)) == Err(AuditClash)
  }

  lemma OwnerFailsAgain(ops: seq<Op>, rows: map<AuditId, AuditBody>, error: Value)
    requires Holds(ops, TaskOpen, Claimed(Opened(Broken(STARTED_RUN)), SECOND, 12.0), rows) && TellsTables(ops)
    requires RunStateId(RUN, Failed) in rows && rows[RunStateId(RUN, Failed)] == RunFailed(RUN, TASK, 0, UNCERTAIN)
    requires error.Obj? && error != UNCERTAIN
    ensures FailsTwice(ops, error)
  {
    NowLost(ops, OpFail(RUN, SECOND, UNCERTAIN, 3.0));
    FailClashes(Exec(EMPTY_DB, ops), RUN, SECOND, error, 3.0);
  }

  lemma FailureRepeats(ops: seq<Op>, rows: map<AuditId, AuditBody>, error: Value)
    requires Holds(ops, TaskOpen, STARTED_RUN, rows) && TellsTables(ops + [FAIL]) && error.Obj? && error != UNCERTAIN
    requires RunStateId(RUN, Failed) !in rows && ReopenedId(RUN, 1) !in rows && RunClaimedId(RUN, 2) !in rows
    ensures FailsTwice(ops + [FAIL] + [REOPEN] + [RECLAIM], error)
  {
    var later := FailsAndReopens(ops, TaskOpen, STARTED_RUN, rows);
    OnlyThese(rows, later, RunClaimedId(RUN, 2));
    RetakenFails(ops + [FAIL] + [REOPEN], later, error);
  }

  lemma RetakenFails(ops: seq<Op>, rows: map<AuditId, AuditBody>, error: Value)
    requires Requeued(ops, TaskOpen, rows) && RunClaimedId(RUN, 2) !in rows
    requires error.Obj? && error != UNCERTAIN
    ensures FailsTwice(ops + [RECLAIM], error)
  {
    Reclaims(ops, TaskOpen, Opened(Broken(STARTED_RUN)), rows);
    OwnerFailsAgain(ops + [RECLAIM], rows[RunClaimedId(RUN, 2) := RunClaimed(RUN, TASK, 2, 12.0)], error);
  }

  /** A second failure like the first is accepted and absorbed: the table says FAILED and
      replay says RUNNING. A second failure unlike the first is refused. */
  lemma RepeatedFailure(error: Value)
    requires error.Obj? && error != UNCERTAIN
    ensures FailsTwice(STARTED + [FAIL] + [REOPEN] + [RECLAIM], error)
  {
    var rows := Started();
    StartedFailTold();
    FailureRepeats(STARTED, rows, error);
  }

  // -- a repeated cancel request -------------------------------------------------------------

  lemma FlaggedFailTold()
    ensures TellsTables(STARTED + [FLAG] + [FAIL])
  {
    ReplayRebuildsState(STARTED + [FLAG] + [FAIL]);
  }

  lemma CancelRepeats(ops: seq<Op>, rows: map<AuditId, AuditBody>)
    requires AtWork(ops, rows) && TellsTables(ops + [FLAG] + [FAIL])
    ensures !TellsTables(ops + [FLAG] + [FAIL] + [REOPEN] + [FLAG])
  {
    Flags(ops, TaskOpen, STARTED_RUN, rows);
    FlaggedTwice(ops + [FLAG], rows[CancelRequestedId(RUN) := CancelRequested(RUN, TASK)]);
  }

  lemma FlaggedTwice(ops: seq<Op>, rows: map<AuditId, AuditBody>)
    requires Holds(ops, TaskOpen, STARTED_RUN.(cancel := true), rows) && TellsTables(ops + [FAIL])
    requires RunStateId(RUN, Failed) !in rows && ReopenedId(RUN, 1) !in rows && CancelRequestedId(RUN) in rows
    ensures !TellsTables(ops + [FAIL] + [REOPEN] + [FLAG])
  {
    var later := FailsAndReopens(ops, TaskOpen, STARTED_RUN.(cancel := true), rows);
    OnlyThese(rows, later, CancelRequestedId(RUN));
    LosesRequest(ops + [FAIL] + [REOPEN], later);
  }

  lemma LosesRequest(ops: seq<Op>, rows: map<AuditId, AuditBody>)
    requires Requeued(ops, TaskOpen, rows) && CancelRequestedId(RUN) in rows
    ensures !TellsTables(ops + [FLAG])
  {
    NowLost(ops, FLAG);
  }

  /** After the reopen the same request is repeated, on the pending run: the table says that
      it is cancelled with its flag set, replay says without. */
  lemma RepeatedCancel()
    ensures !TellsTables(STARTED + [FLAG] + [FAIL] + [REOPEN] + [FLAG])
  {
    var rows := Started();
    FlaggedFailTold();
    CancelRepeats(STARTED, rows);
  }

  // -- a cancelled task -----------------------------------------------------------------------

  const CLOSE := OpCancelTask(TASK)
  const FINISH := OpComplete(RUN, SECOND, DONE, 3.0)

  ghost function ClosedTables(db: Db): Db
    requires RUN in db.runs && TASK in db.tasks
  {
    CancelRows(db, RUN, Obj(map["reason" := Str("task_cancelled")])).(tasks := CloseTask(db.tasks, TASK))
  }

  lemma CancelTaskCommits(ops: seq<Op>, run: Run, rows: map<AuditId, AuditBody>)
    requires Holds(ops, TaskOpen, run, rows) && run.state == Running
    ensures CancelTask(Exec(EMPTY_DB, ops), TASK)
      == Commit(ClosedTables(Exec(EMPTY_DB, ops)), [CancelEvent(RUN, run), ClosedEvent(TASK)])
  {
    assert ActiveOn(Exec(EMPTY_DB, ops).runs, TASK, RUN);
    assert [CancelEvent(RUN, run)] + [] + [ClosedEvent(TASK)] == [CancelEvent(RUN, run), ClosedEvent(TASK)];
  }

  lemma ClosedTablesHold(ops: seq<Op>, run: Run, rows: map<AuditId, AuditBody>)
    requires Holds(ops, TaskOpen, run, rows) && run.state == Running
    ensures var next := ClosedTables(Exec(EMPTY_DB, ops));
      && next.audit == Exec(EMPTY_DB, ops).audit && next.runs == map[RUN := run.(cancel := true)]
      && next.tasks == map[TASK := Task("goal", "workspace", TaskCancelled)]
  {}

  lemma Closes(ops: seq<Op>, run: Run, rows: map<AuditId, AuditBody>)
    requires Holds(ops, TaskOpen, run, rows) && run.state == Running
    requires CancelRequestedId(RUN) !in rows && TaskStateId(TASK, TaskCancelled) !in rows
    ensures Holds(ops + [CLOSE], TaskCancelled, run.(cancel := true),
                  rows[CancelRequestedId(RUN) := CancelRequested(RUN, TASK)]
                      [TaskStateId(TASK, TaskCancelled) := TaskClosed(TASK, TaskCancelled)])
  {
    var db := Exec(EMPTY_DB, ops);
    ExecSnoc(ops, CLOSE);
    CancelTaskCommits(ops, run, rows);
    ClosedTablesHold(ops, run, rows);
    AppendsTwo(db, ClosedTables(db), CancelEvent(RUN, run), ClosedEvent(TASK), rows);
  }

  lemma ClosedFailTold()
    ensures TellsTables(STARTED + [CLOSE] + [FAIL])
  {
    ReplayRebuildsState(STARTED + [CLOSE] + [FAIL]);
  }

  lemma LosesCompletion(ops: seq<Op>, rows: map<AuditId, AuditBody>)
    requires Holds(ops, TaskCancelled, Claimed(Opened(Broken(STARTED_RUN)), SECOND, 12.0), rows)
    requires TaskStateId(TASK, TaskCompleted) !in rows && TellsTables(ops)
    ensures !TellsTables(ops + [FINISH])
  {
    assert Free(Exec(EMPTY_DB, ops), TaskStateId(TASK, TaskCompleted));
    NowLost(ops, FINISH);
  }

  lemma WorkCloses(ops: seq<Op>, rows: map<AuditId, AuditBody>) returns (later: map<AuditId, AuditBody>)
    requires AtWork(ops, rows)
    ensures Holds(ops + [CLOSE], TaskCancelled, STARTED_RUN.(cancel := true), later)
    ensures later.Keys == rows.Keys + {CancelRequestedId(RUN), TaskStateId(TASK, TaskCancelled)}
  {
    Closes(ops, STARTED_RUN, rows);
    later := rows[CancelRequestedId(RUN) := CancelRequested(RUN, TASK)][TaskStateId(TASK, TaskCancelled) := TaskClosed(TASK, TaskCancelled)];
  }

  lemma ClosedCompletes(ops: seq<Op>, rows: map<AuditId, AuditBody>)
    requires Holds(ops, TaskCancelled, STARTED_RUN.(cancel := true), rows) && TellsTables(ops + [FAIL])
    requires RunStateId(RUN, Failed) !in rows && ReopenedId(RUN, 1) !in rows
    requires RunClaimedId(RUN, 2) !in rows && TaskStateId(TASK, TaskCompleted) !in rows
    ensures !TellsTables(ops + [FAIL] + [REOPEN] + [RECLAIM] + [FINISH])
  {
    var later := FailsAndReopens(ops, TaskCancelled, STARTED_RUN.(cancel := true), rows);
    OnlyThese(rows, later, RunClaimedId(RUN, 2));
    OnlyThese(rows, later, TaskStateId(TASK, TaskCompleted));
    RetakenCompletes(ops + [FAIL] + [REOPEN], later);
  }

  lemma RetakenCompletes(ops: seq<Op>, rows: map<AuditId, AuditBody>)
    requires Requeued(ops, TaskCancelled, rows)
    requires RunClaimedId(RUN, 2) !in rows && TaskStateId(TASK, TaskCompleted) !in rows
    ensures !TellsTables(ops + [RECLAIM] + [FINISH])
  {
    Reclaims(ops, TaskCancelled, Opened(Broken(STARTED_RUN)), rows);
    LosesCompletion(ops + [RECLAIM], rows[RunClaimedId(RUN, 2) := RunClaimed(RUN, TASK, 2, 12.0)]);
  }

  lemma StartedAndClosed() returns (rows: map<AuditId, AuditBody>)
    ensures Holds(STARTED + [CLOSE], TaskCancelled, STARTED_RUN.(cancel := true), rows)
    ensures rows.Keys == {TaskCreatedId(TASK), RunCreatedId(RUN), RunClaimedId(RUN, 1), CancelRequestedId(RUN), TaskStateId(TASK, TaskCancelled)}
  {
    rows := Started();
    rows := WorkCloses(STARTED, rows);
  }

  /** The run of a cancelled task is reopened and completed: the task stays cancelled, but the
      outbox says that it was completed. */
  lemma CompletionOfCancelledTask()
    ensures !TellsTables(STARTED + [CLOSE] + [FAIL] + [REOPEN] + [RECLAIM] + [FINISH])
  {
    var closed := StartedAndClosed();
    ClosedFailTold();
    ClosedCompletes(STARTED + [CLOSE], closed);
  }

  // -- a task completed by another run -------------------------------------------------------

  const TRY := OpCreateRun(TASK, OTHER)
  const TRY_CLAIM := OpClaim(OTHER, SECOND, 10.0, 2.0)
  const TRY_DONE := OpComplete(OTHER, SECOND, DONE, 3.0)

  /** The broken run and another one of its task. */
  ghost predicate Beside(ops: seq<Op>, other: Run, rows: map<AuditId, AuditBody>) {
    var db := Exec(EMPTY_DB, ops);
    && db.tasks == map[TASK := Task("goal", "workspace", TaskOpen)]
    && db.runs.Keys == {RUN, OTHER} && db.runs[RUN] == Broken(STARTED_RUN) && db.runs[OTHER] == other
    && Outbox(db.audit, rows)
  }

  ghost predicate DoneBeside(db: Db) {
    && RUN in db.runs && db.runs[RUN] == Broken(STARTED_RUN)
    && db.tasks == map[TASK := Task("goal", "workspace", TaskCompleted)]
  }

  lemma Tries(ops: seq<Op>, rows: map<AuditId, AuditBody>)
    requires Holds(ops, TaskOpen, Broken(STARTED_RUN), rows) && RunCreatedId(OTHER) !in rows
    ensures Beside(ops + [TRY], NEW_RUN, rows[RunCreatedId(OTHER) := RunCreated(OTHER, TASK)])
  {
    var db := Exec(EMPTY_DB, ops);
    ExecSnoc(ops, TRY);
    assert forall r :: !ActiveOn(db.runs, TASK, r);
    Appends(db, db.(runs := db.runs[OTHER := NEW_RUN]), AuditEvent(RunCreatedId(OTHER), RunCreated(OTHER, TASK)), rows);
  }

  lemma ClaimsOther(ops: seq<Op>, rows: map<AuditId, AuditBody>)
    requires Beside(ops, NEW_RUN, rows) && RunClaimedId(OTHER, 1) !in rows
    ensures Beside(ops + [TRY_CLAIM], Claimed(NEW_RUN, SECOND, 12.0),
                   rows[RunClaimedId(OTHER, 1) := RunClaimed(OTHER, TASK, 1, 12.0)])
  {
    ExecSnoc(ops, TRY_CLAIM);
    ClaimAppends(Exec(EMPTY_DB, ops), OTHER, SECOND, 10.0, 2.0, rows);
  }

  lemma OtherCompleted(ops: seq<Op>, rows: map<AuditId, AuditBody>)
    requires Beside(ops, Claimed(NEW_RUN, SECOND, 12.0), rows)
    ensures CompletedDb(Exec(EMPTY_DB, ops), OTHER, DONE).audit == Exec(EMPTY_DB, ops).audit
    ensures DoneBeside(CompletedDb(Exec(EMPTY_DB, ops), OTHER, DONE))
  {}

  lemma CompletesOther(ops: seq<Op>, rows: map<AuditId, AuditBody>)
    requires Beside(ops, Claimed(NEW_RUN, SECOND, 12.0), rows)
    requires RunStateId(OTHER, Completed) !in rows && TaskStateId(TASK, TaskCompleted) !in rows
    ensures DoneBeside(Exec(EMPTY_DB, ops + [TRY_DONE]))
  {
    var db := Exec(EMPTY_DB, ops);
    ExecSnoc(ops, TRY_DONE);
    CompleteCommitsTo(db, OTHER, SECOND, DONE, 3.0);
    OtherCompleted(ops, rows);
    AppendsTwo(db, CompletedDb(db, OTHER, DONE), SettledEvent(OTHER, db.runs[OTHER], Completed), ClosedRow(TASK), rows);
  }

  lemma WorkFails(ops: seq<Op>, rows: map<AuditId, AuditBody>) returns (later: map<AuditId, AuditBody>)
    requires AtWork(ops, rows)
    ensures Holds(ops + [FAIL], TaskOpen, Broken(STARTED_RUN), later)
    ensures later.Keys == rows.Keys + {RunStateId(RUN, Failed)}
  {
    Fails(ops, TaskOpen, STARTED_RUN, FIRST, 1.0, rows);
    later := rows[RunStateId(RUN, Failed) := RunFailed(RUN, TASK, 0, UNCERTAIN)];
  }

  lemma SecondTry(ops: seq<Op>, rows: map<AuditId, AuditBody>)
    requires Holds(ops, TaskOpen, Broken(STARTED_RUN), rows) && RunCreatedId(OTHER) !in rows && RunClaimedId(OTHER, 1) !in rows
    requires RunStateId(OTHER, Completed) !in rows && TaskStateId(TASK, TaskCompleted) !in rows
    ensures DoneBeside(Exec(EMPTY_DB, ops + [TRY] + [TRY_CLAIM] + [TRY_DONE]))
  {
    Tries(ops, rows);
    OtherRuns(ops + [TRY], rows[RunCreatedId(OTHER) := RunCreated(OTHER, TASK)]);
  }

  lemma OtherRuns(ops: seq<Op>, rows: map<AuditId, AuditBody>)
    requires Beside(ops, NEW_RUN, rows) && RunClaimedId(OTHER, 1) !in rows
    requires RunStateId(OTHER, Completed) !in rows && TaskStateId(TASK, TaskCompleted) !in rows
    ensures DoneBeside(Exec(EMPTY_DB, ops + [TRY_CLAIM] + [TRY_DONE]))
  {
    ClaimsOther(ops, rows);
    CompletesOther(ops + [TRY_CLAIM], rows[RunClaimedId(OTHER, 1) := RunClaimed(OTHER, TASK, 1, 12.0)]);
  }

  lemma SecondTryTold()
    ensures TellsTables(STARTED + [FAIL] + [TRY] + [TRY_CLAIM] + [TRY_DONE])
  {
    ReplayRebuildsState(STARTED + [FAIL] + [TRY] + [TRY_CLAIM] + [TRY_DONE]);
  }

  lemma ReopensCompleted(ops: seq<Op>)
    requires DoneBeside(Exec(EMPTY_DB, ops)) && TellsTables(ops)
    ensures !TellsTables(ops + [REOPEN])
  {
    NowLost(ops, REOPEN);
  }

  lemma StartedAndBroken() returns (rows: map<AuditId, AuditBody>)
    ensures Holds(STARTED + [FAIL], TaskOpen, Broken(STARTED_RUN), rows)
    ensures rows.Keys == {TaskCreatedId(TASK), RunCreatedId(RUN), RunClaimedId(RUN, 1), RunStateId(RUN, Failed)}
  {
    rows := Started();
    rows := WorkFails(STARTED, rows);
  }

  /** Reopening the broken run reopens the completed task, and no row says so. */
  lemma ReopenOfCompletedTask()
    ensures !TellsTables(STARTED + [FAIL] + [TRY] + [TRY_CLAIM] + [TRY_DONE] + [REOPEN])
  {
    var rows := StartedAndBroken();
    SecondTry(STARTED + [FAIL], rows);
    SecondTryTold();
    ReopensCompleted(STARTED + [FAIL] + [TRY] + [TRY_CLAIM] + [TRY_DONE]);
  }

  // -- a suspension of a flagged run ----------------------------------------------------------

  const PAUSED := Checkpoint("after_tool", Obj(map[]))
  const SUSPEND := OpSuspend(RUN, FIRST, 0, PAUSED, ASK, "approval", DONE, 1.0)

  ghost predicate StuckAfter(waiting: Db, response: Value) {
    && ResolveInterrupt(waiting, ASK, true, response).Ok?
    && !CanRun(ResolveInterrupt(waiting, ASK, true, response).value, RUN)
  }

  lemma Suspends(ops: seq<Op>, rows: map<AuditId, AuditBody>, response: Value)
    requires Holds(ops, TaskOpen, STARTED_RUN.(cancel := true), rows) && Exec(EMPTY_DB, ops).interrupts == map[]
    ensures StuckAfter(Exec(EMPTY_DB, ops + [SUSPEND]), response)
  {
    ExecSnoc(ops, SUSPEND);
    ReachableInvariant(ops);
    SuspendsFlagged(Exec(EMPTY_DB, ops), response);
  }

  lemma SuspendsFlagged(db: Db, response: Value)
    requires Invariant(db) && db.runs == map[RUN := STARTED_RUN.(cancel := true)] && db.interrupts == map[]
    ensures StuckAfter(After(db, SUSPEND), response)
  {
    SuspensionAccepted(db);
    assert After(db, SUSPEND) == Suspend(db, RUN, FIRST, 0, PAUSED, ASK, "approval", DONE, 1.0).value;
    SuspendedRunGoesOn(db, RUN, FIRST, 0, PAUSED, ASK, "approval", DONE, 1.0, response);
  }

  lemma FlagsAndSuspends(ops: seq<Op>, rows: map<AuditId, AuditBody>, response: Value)
    requires AtWork(ops, rows)
    ensures StuckAfter(Exec(EMPTY_DB, ops + [FLAG] + [SUSPEND]), response)
  {
    Flags(ops, TaskOpen, STARTED_RUN, rows);
    Suspends(ops + [FLAG], rows[CancelRequestedId(RUN) := CancelRequested(RUN, TASK)], response);
  }

  /** A flagged run suspends; allowed to go on, it never runs again. */
  lemma FlaggedSuspension(response: Value)
    ensures StuckAfter(Exec(EMPTY_DB, STARTED + [FLAG] + [SUSPEND]), response)
  {
    var rows := Started();
    FlagsAndSuspends(STARTED, rows, response);
  }

  lemma SuspensionAccepted(db: Db)
    requires Invariant(db) && db.runs == map[RUN := STARTED_RUN.(cancel := true)] && db.interrupts == map[]
    ensures Suspend(db, RUN, FIRST, 0, PAUSED, ASK, "approval", DONE, 1.0).Ok?
  {
    ClashOnlyWhenFailingAgain(db, SUSPEND);
    assert (RUN, 1) !in db.checkpoints;
    assert forall i :: !PendingOn(db.interrupts, RUN, i);
  }
}
