/** Audit identities: which transition can find its identity already taken by other data. */
module ExecutionAudit {
  import opened Values
  import opened Execution
  import opened ExecutionInvariant

  ghost predicate WasReopened(audit: seq<AuditEvent>, r: Id) {
    exists a :: Lookup(audit, ReopenedId(r, a)).Some?
  }

  /** What the tables say whenever an audit row is present. */
  ghost predicate Justified(db: Db, id: AuditId, body: AuditBody) {
    match id
    case TaskCreatedId(t) => t in db.tasks
    case TaskStateId(t, ts) =>
      && t in db.tasks && body == TaskClosed(t, ts)
      && (ts == TaskCancelled ==> db.tasks[t].state == TaskCancelled)
    case RunCreatedId(r) => r in db.runs
    case RunClaimedId(r, a) => r in db.runs && a <= db.runs[r].attempt
    case LeaseRenewedId(r, a, e) => r in db.runs && body == LeaseRenewed(r, db.runs[r].task, a, e)
    case CheckpointId(r, v) => r in db.runs && v <= db.runs[r].version
    case InterruptAskedId(i) => i in db.interrupts
    case InterruptResolvedId(i) => i in db.interrupts && db.interrupts[i].state != Asked
    case CancelRequestedId(r) => r in db.runs && body == CancelRequested(r, db.runs[r].task)
    case RunStateId(r, s) =>
      && r in db.runs
      && (s in {Completed, Cancelled} ==> db.runs[r].state == s)
      && (s == Failed ==> db.runs[r].state == Failed || WasReopened(db.audit, r))
    case ReopenedId(r, a) =>
      && r in db.runs && a <= db.runs[r].attempt
      && (a == db.runs[r].attempt ==> db.runs[r].state in {Pending, Cancelled})
    case BudgetReservedId(scope, h) => FindAdmission(db.admissions, scope, h).Some?
  }

  ghost predicate AuditOk(db: Db) {
    forall id | Lookup(db.audit, id).Some? :: Justified(db, id, Lookup(db.audit, id).value)
  }

  ghost predicate Invariant(db: Db) { WellFormed(db) && AuditOk(db) }

  // -- appending rows ------------------------------------------------------

  ghost predicate DistinctIds(es: seq<AuditEvent>) {
    forall j, k | 0 <= j < k < |es| :: es[j].id != es[k].id
  }

  /** Each identity is new or already carries the same data. */
  ghost predicate NoClash(audit: seq<AuditEvent>, es: seq<AuditEvent>) {
    forall k | 0 <= k < |es| :: Lookup(audit, es[k].id) in {None, Some(es[k].body)}
  }

  /** `next` holds the rows of `audit` and those of `es`, and nothing else. */
  ghost predicate Extends(audit: seq<AuditEvent>, es: seq<AuditEvent>, next: seq<AuditEvent>) {
    && (forall k | 0 <= k < |es| :: Lookup(next, es[k].id) == Some(es[k].body))
    && (forall id :: Lookup(next, id) == Lookup(audit, id) || exists k :: 0 <= k < |es| && es[k].id == id)
    && (forall id | Lookup(audit, id).Some? :: Lookup(next, id) == Lookup(audit, id))
  }

  lemma {:induction false} RecordAllExtends(audit: seq<AuditEvent>, es: seq<AuditEvent>)
    requires DistinctIds(es) && NoClash(audit, es)
    ensures RecordAll(audit, es).Some? && Extends(audit, es, RecordAll(audit, es).value)
    decreases |es|
  {
    if es != [] {
      var next := Record(audit, es[0]).value;
      var rest := es[1..];
      assert forall k | 0 <= k < |rest| :: rest[k] == es[k + 1];
      RecordAllExtends(next, rest);
      var all := RecordAll(audit, es).value;
      forall k | 0 <= k < |es| ensures Lookup(all, es[k].id) == Some(es[k].body) {
        if k > 0 { assert rest[k - 1] == es[k]; }
      }
      forall id ensures Lookup(all, id) == Lookup(audit, id) || exists k :: 0 <= k < |es| && es[k].id == id {
        if Lookup(all, id) != Lookup(next, id) {
          var k :| 0 <= k < |rest| && rest[k].id == id;
          assert es[k + 1].id == id;
        } else if id == es[0].id {
        }
      }
    }
  }

  /** How one transition may change a run; `reopens` is set when it is the run being reopened. */
  predicate RunEvolves(a: Run, b: Run, reopens: bool) {
    && b.task == a.task && a.attempt <= b.attempt && a.version <= b.version
    && (a.state in {Completed, Cancelled} ==> b == a)
    && (a.state == Failed ==> b.state == Failed || reopens)
    && (a.attempt == b.attempt && a.state == Pending ==> b.state in {Pending, Cancelled})
  }

  ghost predicate RunsEvolve(runs: map<Id, Run>, next: map<Id, Run>, reopens: Option<Id>) {
    forall r | r in runs :: r in next && RunEvolves(runs[r], next[r], reopens == Some(r))
  }

  ghost predicate TasksEvolve(tasks: map<Id, Task>, next: map<Id, Task>) {
    forall t | t in tasks :: t in next && (tasks[t].state == TaskCancelled ==> next[t] == tasks[t])
  }

  ghost predicate InterruptsEvolve(rows: map<Id, Interrupt>, next: map<Id, Interrupt>) {
    forall i | i in rows :: i in next && (rows[i].state != Asked ==> next[i] == rows[i])
  }

  ghost predicate AdmissionsEvolve(rows: seq<Admission>, next: seq<Admission>) {
    forall scope, h | FindAdmission(rows, scope, h).Some? :: FindAdmission(next, scope, h).Some?
  }

  ghost predicate Evolves(db: Db, next: Db, reopens: Option<Id>) {
    && TasksEvolve(db.tasks, next.tasks)
    && RunsEvolve(db.runs, next.runs, reopens)
    && InterruptsEvolve(db.interrupts, next.interrupts)
    && AdmissionsEvolve(db.admissions, next.admissions)
  }

  /** A justified row stays justified while the tables evolve and the outbox grows. */
  lemma JustifiedPersists(db: Db, next: Db, reopens: Option<Id>, id: AuditId, body: AuditBody)
    requires Justified(db, id, body) && Evolves(db, next, reopens)
    requires forall r | WasReopened(db.audit, r) || reopens == Some(r) :: WasReopened(next.audit, r)
    ensures Justified(next, id, body)
  {}

  lemma ReopenedPersists(audit: seq<AuditEvent>, es: seq<AuditEvent>, next: seq<AuditEvent>, r: Id)
    requires Extends(audit, es, next) && WasReopened(audit, r)
    ensures WasReopened(next, r)
  {
    var a :| Lookup(audit, ReopenedId(r, a)).Some?;
    assert Lookup(next, ReopenedId(r, a)).Some?;
  }

  /** The transaction commits, and the audit rows stay justified. */
  ghost predicate Recorded(s: Result<Db, Error>) {
    s != Err(AuditClash) && (s.Ok? ==> AuditOk(s.value))
  }

  lemma Commits(db: Db, mid: Db, es: seq<AuditEvent>, reopens: Option<Id>)
    requires AuditOk(db) && mid.audit == db.audit && Evolves(db, mid, reopens)
    requires DistinctIds(es) && NoClash(db.audit, es)
    requires forall k | 0 <= k < |es| :: Justified(mid, es[k].id, es[k].body)
    requires reopens.Some? ==> exists k :: 0 <= k < |es| && es[k].id.ReopenedId? && es[k].id.r == reopens.value
    ensures Recorded(Commit(mid, es))
  {
    RecordAllExtends(db.audit, es);
    var next := mid.(audit := RecordAll(db.audit, es).value);
    forall r | WasReopened(db.audit, r) ensures WasReopened(next.audit, r) {
      ReopenedPersists(db.audit, es, next.audit, r);
    }
    if reopens.Some? {
      var k :| 0 <= k < |es| && es[k].id.ReopenedId? && es[k].id.r == reopens.value;
      assert Lookup(next.audit, ReopenedId(reopens.value, es[k].id.attempt)).Some?;
    }
    forall id | Lookup(next.audit, id).Some? ensures Justified(next, id, Lookup(next.audit, id).value) {
      if Lookup(next.audit, id) == Lookup(db.audit, id) {
        JustifiedPersists(db, next, reopens, id, Lookup(db.audit, id).value);
      } else {
        var k :| 0 <= k < |es| && es[k].id == id;
        JustifiedLater(mid, next, es[k].id, es[k].body);
      }
    }
  }

  lemma JustifiedLater(mid: Db, next: Db, id: AuditId, body: AuditBody)
    requires Justified(mid, id, body) && next == mid.(audit := next.audit)
    requires forall r | WasReopened(mid.audit, r) :: WasReopened(next.audit, r)
    ensures Justified(next, id, body)
  {}

  /** A row on record would contradict the tables, so the identity is free. */
  lemma IdentityFree(db: Db, id: AuditId)
    requires AuditOk(db)
    requires forall body :: !Justified(db, id, body)
    ensures Lookup(db.audit, id).None?
  {}

  lemma OneRowRecorded(db: Db, mid: Db, e: AuditEvent)
    requires AuditOk(db) && mid.audit == db.audit && Evolves(db, mid, None)
    requires Lookup(db.audit, e.id).None? || Lookup(db.audit, e.id) == Some(e.body)
    requires Justified(mid, e.id, e.body)
    ensures Recorded(Commit(mid, [e]))
  {
    Commits(db, mid, [e], None);
  }

  lemma TwoRowsRecorded(db: Db, mid: Db, e: AuditEvent, f: AuditEvent)
    requires AuditOk(db) && mid.audit == db.audit && Evolves(db, mid, None) && e.id != f.id
    requires Lookup(db.audit, e.id).None? && Lookup(db.audit, f.id).None?
    requires Justified(mid, e.id, e.body) && Justified(mid, f.id, f.body)
    ensures Recorded(Commit(mid, [e, f]))
  {
    Commits(db, mid, [e, f], None);
  }

  /** Only run `r` changes, and it changes as runs may. */
  lemma RunAloneEvolves(db: Db, mid: Db, r: Id, run: Run)
    requires r in db.runs && RunEvolves(db.runs[r], run, false) && mid.runs == db.runs[r := run]
    requires mid.tasks == db.tasks && mid.interrupts == db.interrupts && mid.admissions == db.admissions
    ensures Evolves(db, mid, None)
  {}

  lemma RunAndInterruptEvolve(db: Db, mid: Db, r: Id, run: Run, i: Id, row: Interrupt)
    requires r in db.runs && RunEvolves(db.runs[r], run, false) && mid.runs == db.runs[r := run]
    requires i in db.interrupts ==> db.interrupts[i].state == Asked
    requires mid.tasks == db.tasks && mid.interrupts == db.interrupts[i := row] && mid.admissions == db.admissions
    ensures Evolves(db, mid, None)
  {}

  // -- transitions -----------------------------------------------------------

  lemma CreateTaskRecorded(db: Db, t: Id, goal: string, workspace: string)
    requires AuditOk(db)
    ensures Recorded(CreateTask(db, t, goal, workspace))
  {
    if goal != "" && t !in db.tasks {
      var e := AuditEvent(TaskCreatedId(t), TaskCreated(t, goal, workspace));
      Commits(db, db.(tasks := db.tasks[t := Task(goal, workspace, TaskOpen)]), [e], None);
    }
  }

  lemma CreateRunRecorded(db: Db, t: Id, r: Id)
    requires AuditOk(db)
    ensures Recorded(CreateRun(db, t, r))
  {
    if r !in db.runs {
      Commits(db, db.(runs := db.runs[r := Run(t, Pending, 0, 0, None, None, false, None, None)]),
        [AuditEvent(RunCreatedId(r), RunCreated(r, t))], None);
    }
  }

  lemma ClaimRecorded(db: Db, r: Id, token: Id, seconds: real, now: real)
    requires AuditOk(db)
    ensures Recorded(ClaimRun(db, r, token, seconds, now))
  {
    if r in db.runs && Claimable(db.runs[r], now) {
      var run := db.runs[r].(state := Running, attempt := db.runs[r].attempt + 1,
                             token := Some(token), expires := Some(now + seconds));
      var mid := db.(runs := db.runs[r := run]);
      RunAloneEvolves(db, mid, r, run);
      IdentityFree(db, RunClaimedId(r, run.attempt));
      OneRowRecorded(db, mid, AuditEvent(RunClaimedId(r, run.attempt), RunClaimed(r, run.task, run.attempt, now + seconds)));
    }
  }

  lemma RenewRecorded(db: Db, r: Id, token: Id, seconds: real, now: real)
    requires AuditOk(db)
    ensures Recorded(RenewLease(db, r, token, seconds, now))
  {
    if Owns(db, r, token, now) {
      var run := db.runs[r].(expires := Some(now + seconds));
      var mid := db.(runs := db.runs[r := run]);
      var e := AuditEvent(LeaseRenewedId(r, run.attempt, now + seconds),
                          LeaseRenewed(r, run.task, run.attempt, now + seconds));
      RunAloneEvolves(db, mid, r, run);
      if Lookup(db.audit, e.id).Some? { assert Justified(db, e.id, Lookup(db.audit, e.id).value); }
      OneRowRecorded(db, mid, e);
    }
  }

  lemma SaveRecorded(db: Db, r: Id, token: Id, expected: nat, cp: Checkpoint, now: real)
    requires AuditOk(db)
    ensures Recorded(SaveCheckpoint(db, r, token, expected, cp, now))
  {
    if Owns(db, r, token, now) && db.runs[r].version == expected {
      var run := db.runs[r].(version := expected + 1);
      var mid := db.(checkpoints := db.checkpoints[(r, expected + 1) := cp], runs := db.runs[r := run]);
      RunAloneEvolves(db, mid, r, run);
      IdentityFree(db, CheckpointId(r, expected + 1));
      OneRowRecorded(db, mid, AuditEvent(CheckpointId(r, expected + 1), CheckpointSaved(r, expected + 1, cp.phase)));
    }
  }

  lemma SuspendWrites(db: Db, r: Id, token: Id, expected: nat, cp: Checkpoint, i: Id, kind: string, request: Value, now: real)
    requires Suspend(db, r, token, expected, cp, i, kind, request, now).Ok?
    ensures r in db.runs && IsActive(db.runs[r].state) && i !in db.interrupts
    ensures Suspend(db, r, token, expected, cp, i, kind, request, now) ==
      Commit(Suspended(db, r, cp, i, Interrupt(r, kind, request, Asked, Null)),
        [AuditEvent(CheckpointId(r, db.runs[r].version + 1), CheckpointSaved(r, db.runs[r].version + 1, cp.phase)),
         AuditEvent(InterruptAskedId(i), InterruptAsked(i, r, kind))])
  {}

  lemma SuspendedRecorded(db: Db, r: Id, cp: Checkpoint, i: Id, row: Interrupt, e: AuditEvent, f: AuditEvent)
    requires AuditOk(db) && r in db.runs && IsActive(db.runs[r].state) && i !in db.interrupts
    requires RunEvolves(db.runs[r], Release(db.runs[r], Waiting).(version := db.runs[r].version + 1), false)
    requires e.id == CheckpointId(r, db.runs[r].version + 1) && f.id == InterruptAskedId(i)
    ensures Recorded(Commit(Suspended(db, r, cp, i, row), [e, f]))
  {
    RunAndInterruptEvolve(db, Suspended(db, r, cp, i, row), r,
      Release(db.runs[r], Waiting).(version := db.runs[r].version + 1), i, row);
    IdentityFree(db, e.id);
    IdentityFree(db, f.id);
    TwoRowsRecorded(db, Suspended(db, r, cp, i, row), e, f);
  }

  lemma SuspendRecorded(db: Db, r: Id, token: Id, expected: nat, cp: Checkpoint, i: Id, kind: string, request: Value, now: real)
    requires AuditOk(db)
    ensures Recorded(Suspend(db, r, token, expected, cp, i, kind, request, now))
  {
    if SuspendRefusal(db, r, token, expected, cp, i, kind, request, now).None? {
      SuspendedRecorded(db, r, cp, i, Interrupt(r, kind, request, Asked, Null),
        AuditEvent(CheckpointId(r, expected + 1), CheckpointSaved(r, expected + 1, cp.phase)),
        AuditEvent(InterruptAskedId(i), InterruptAsked(i, r, kind)));
    }
  }

  lemma AllowRecorded(db: Db, i: Id, response: Value)
    requires AuditOk(db) && Resolvable(db, i)
    ensures Recorded(ResolveInterrupt(db, i, true, response))
  {
    var row := db.interrupts[i];
    var mid := Resolved(db, i, true, response);
    RunAndInterruptEvolve(db, mid, row.run, mid.runs[row.run], i, mid.interrupts[i]);
    IdentityFree(db, InterruptResolvedId(i));
    OneRowRecorded(db, mid, ResolvedEvent(i, row, Allowed));
  }

  lemma DenyRecorded(db: Db, i: Id, response: Value)
    requires AuditOk(db) && Resolvable(db, i)
    ensures Recorded(ResolveInterrupt(db, i, false, response))
  {
    var row := db.interrupts[i];
    var mid := Resolved(db, i, false, response);
    RunAndInterruptEvolve(db, mid, row.run, mid.runs[row.run], i, mid.interrupts[i]);
    IdentityFree(db, InterruptResolvedId(i));
    IdentityFree(db, RunStateId(row.run, Cancelled));
    TwoRowsRecorded(db, mid, ResolvedEvent(i, row, Denied), SettledEvent(row.run, db.runs[row.run], Cancelled));
  }

  lemma ResolveRecorded(db: Db, i: Id, allow: bool, response: Value)
    requires AuditOk(db)
    ensures Recorded(ResolveInterrupt(db, i, allow, response))
  {
    if Resolvable(db, i) {
      if allow { AllowRecorded(db, i, response); } else { DenyRecorded(db, i, response); }
    }
  }

  lemma CompleteEvolves(db: Db, mid: Db, r: Id, run: Run)
    requires r in db.runs && RunEvolves(db.runs[r], run, false) && mid.runs == db.runs[r := run]
    requires TasksEvolve(db.tasks, mid.tasks) && mid.interrupts == db.interrupts && mid.admissions == db.admissions
    ensures Evolves(db, mid, None)
  {}

  lemma TaskClosedSame(db: Db, t: Id, ts: TaskState)
    requires AuditOk(db)
    ensures Lookup(db.audit, TaskStateId(t, ts)) in {None, Some(TaskClosed(t, ts))}
  {
    if Lookup(db.audit, TaskStateId(t, ts)).Some? {
      assert Justified(db, TaskStateId(t, ts), Lookup(db.audit, TaskStateId(t, ts)).value);
    }
  }

  ghost predicate Completable(db: Db, r: Id, token: Id, now: real) { Owns(db, r, token, now) && !db.runs[r].cancel }

  ghost function CompletedDb(db: Db, r: Id, result: Value): Db
    requires r in db.runs
  {
    var run := db.runs[r];
    var t := run.task;
    db.(runs := db.runs[r := Release(run, Completed).(result := Some(result))],
        tasks := if t in db.tasks && db.tasks[t].state == TaskOpen
                 then db.tasks[t := db.tasks[t].(state := TaskCompleted)] else db.tasks)
  }

  function ClosedRow(t: Id): AuditEvent { AuditEvent(TaskStateId(t, TaskCompleted), TaskClosed(t, TaskCompleted)) }

  lemma CompleteCommitsTo(db: Db, r: Id, token: Id, result: Value, now: real)
    requires Completable(db, r, token, now)
    ensures CompleteRun(db, r, token, result, now) ==
      Commit(CompletedDb(db, r, result), [SettledEvent(r, db.runs[r], Completed), ClosedRow(db.runs[r].task)])
  {}

  lemma CompletedRecorded(db: Db, r: Id, result: Value)
    requires AuditOk(db) && r in db.runs && db.runs[r].state == Running && db.runs[r].task in db.tasks
    ensures Recorded(Commit(CompletedDb(db, r, result), [SettledEvent(r, db.runs[r], Completed), ClosedRow(db.runs[r].task)]))
  {
    var mid := CompletedDb(db, r, result);
    TaskClosedSame(db, db.runs[r].task, TaskCompleted);
    IdentityFree(db, RunStateId(r, Completed));
    CompleteEvolves(db, mid, r, mid.runs[r]);
    Commits(db, mid, [SettledEvent(r, db.runs[r], Completed), ClosedRow(db.runs[r].task)], None);
  }

  lemma CompleteRecorded(db: Db, r: Id, token: Id, result: Value, now: real)
    requires AuditOk(db) && (r in db.runs ==> db.runs[r].task in db.tasks)
    ensures Recorded(CompleteRun(db, r, token, result, now))
  {
    if Completable(db, r, token, now) {
      CompleteCommitsTo(db, r, token, result, now);
      CompletedRecorded(db, r, result);
    } else {
      CompleteRefused(db, r, token, result, now);
    }
  }

  lemma CompleteRefused(db: Db, r: Id, token: Id, result: Value, now: real)
    requires !Completable(db, r, token, now)
    ensures CompleteRun(db, r, token, result, now).Err? && CompleteRun(db, r, token, result, now) != Err(AuditClash)
  {}

  lemma FinishRecorded(db: Db, r: Id, token: Id, now: real)
    requires AuditOk(db)
    ensures Recorded(FinishCancelled(db, r, token, now))
  {
    if Owns(db, r, token, now) {
      var run := Release(db.runs[r], Cancelled);
      var mid := db.(runs := db.runs[r := run]);
      RunAloneEvolves(db, mid, r, run);
      IdentityFree(db, RunStateId(r, Cancelled));
      OneRowRecorded(db, mid, SettledEvent(r, db.runs[r], Cancelled));
    }
  }

  lemma ReopenEvolves(db: Db, mid: Db, r: Id, run: Run)
    requires r in db.runs && RunEvolves(db.runs[r], run, true) && mid.runs == db.runs[r := run]
    requires TasksEvolve(db.tasks, mid.tasks) && mid.interrupts == db.interrupts && mid.admissions == db.admissions
    ensures Evolves(db, mid, Some(r))
  {}

  lemma ReopenRecorded(db: Db, r: Id, evidence: Value)
    requires AuditOk(db)
    ensures Recorded(ReopenUncertain(db, r, evidence))
  {
    if r in db.runs && Recoverable(db.runs[r]) {
      var mid := Reopened(db, r);
      var es := [ReopenedEvent(r, db.runs[r], evidence)];
      ReopenEvolves(db, mid, r, mid.runs[r]);
      IdentityFree(db, es[0].id);
      assert es[0].id.ReopenedId? && es[0].id.r == r;
      Commits(db, mid, es, Some(r));
    }
  }

  lemma CancelRowsEvolve(db: Db, r: Id, reason: Value)
    requires r in db.runs && IsActive(db.runs[r].state)
    ensures Evolves(db, CancelRows(db, r, reason), None)
  {}

  /** The rows that cancelling one run writes, whatever their order. */
  lemma CancelEventsFine(db: Db, r: Id, reason: Value, tasks: map<Id, Task>, e: AuditEvent)
    requires AuditOk(db) && r in db.runs && IsActive(db.runs[r].state)
    requires e == CancelEvent(r, db.runs[r])
          || (db.runs[r].state != Running && (e == SettledEvent(r, db.runs[r], Cancelled) || e in DeniedEvents(db, r)))
    ensures Lookup(db.audit, e.id) in {None, Some(e.body)}
    ensures Justified(CancelRows(db, r, reason).(tasks := tasks), e.id, e.body)
  {
    if Lookup(db.audit, e.id).Some? { assert Justified(db, e.id, Lookup(db.audit, e.id).value); }
  }

  lemma RequestCancelRecorded(db: Db, r: Id)
    requires AuditOk(db)
    ensures Recorded(RequestCancel(db, r))
  {
    if r in db.runs && IsActive(db.runs[r].state) {
      var run := db.runs[r];
      var reason := Obj(map["reason" := Str("run_cancelled")]);
      var es := [CancelEvent(r, run)] +
        if run.state == Running then [] else [SettledEvent(r, run, Cancelled)] + DeniedEvents(db, r);
      var mid := CancelRows(db, r, reason);
      forall k | 0 <= k < |es|
        ensures Lookup(db.audit, es[k].id) in {None, Some(es[k].body)} && Justified(mid, es[k].id, es[k].body)
      {
        CancelEventsFine(db, r, reason, db.tasks, es[k]);
      }
      CancelRowsEvolve(db, r, reason);
      Commits(db, mid, es, None);
    }
  }

  lemma CancelTaskEventsDistinct(db: Db, t: Id, r: Id)
    requires r in db.runs
    ensures DistinctIds(CancelTaskEvents(db, t, r))
  {
    if db.runs[r].state != Running && DeniedEvents(db, r) != [] {
      var i := PendingInterrupt(db.interrupts, r).value;
      assert CancelTaskEvents(db, t, r) ==
        [CancelEvent(r, db.runs[r]), ResolvedEvent(i, db.interrupts[i], Denied), SettledEvent(r, db.runs[r], Cancelled),
         AuditEvent(TaskStateId(t, TaskCancelled), TaskClosed(t, TaskCancelled))];
    }
  }

  lemma CancelActiveTaskRecorded(db: Db, t: Id, r: Id, reason: Value, tasks: map<Id, Task>)
    requires AuditOk(db) && t in db.tasks && db.tasks[t].state == TaskOpen
    requires r in db.runs && IsActive(db.runs[r].state)
    requires tasks == db.tasks[t := db.tasks[t].(state := TaskCancelled)]
    ensures Recorded(Commit(CancelRows(db, r, reason).(tasks := tasks), CancelTaskEvents(db, t, r)))
  {
    var mid := CancelRows(db, r, reason).(tasks := tasks);
    var es := CancelTaskEvents(db, t, r);
    CancelTaskEventsDistinct(db, t, r);
    assert Lookup(db.audit, TaskStateId(t, TaskCancelled)).None?;
    forall k | 0 <= k < |es|
      ensures Lookup(db.audit, es[k].id) in {None, Some(es[k].body)} && Justified(mid, es[k].id, es[k].body)
    {
      if !es[k].id.TaskStateId? { CancelEventsFine(db, r, reason, tasks, es[k]); }
    }
    CancelRowsEvolve(db, r, reason);
    Commits(db, mid, es, None);
  }

  lemma CancelTaskRecorded(db: Db, t: Id)
    requires AuditOk(db)
    ensures Recorded(CancelTask(db, t))
  {
    if t in db.tasks && db.tasks[t].state == TaskOpen {
      var tasks := db.tasks[t := db.tasks[t].(state := TaskCancelled)];
      match ActiveRun(db.runs, t)
      case None =>
        assert Lookup(db.audit, TaskStateId(t, TaskCancelled)).None?;
        Commits(db, db.(tasks := tasks), [AuditEvent(TaskStateId(t, TaskCancelled), TaskClosed(t, TaskCancelled))], None);
      case Some(r) =>
        CancelActiveTaskRecorded(db, t, r, Obj(map["reason" := Str("task_cancelled")]), tasks);
    }
  }

  lemma FindAdmissionAppend(rows: seq<Admission>, a: Admission, scope: string, h: Id)
    ensures FindAdmission(rows, scope, h).Some? ==> FindAdmission(rows + [a], scope, h).Some?
    ensures a.scope == scope && a.handoff == h ==> FindAdmission(rows + [a], scope, h) == Some(a.estimate)
    ensures !(a.scope == scope && a.handoff == h) ==> FindAdmission(rows + [a], scope, h) == FindAdmission(rows, scope, h)
  {
    assert (rows + [a])[..|rows|] == rows;
  }

  lemma ReserveRecorded(db: Db, scope: string, handoff: Id, estimate: map<string, real>)
    requires AuditOk(db)
    ensures Recorded(ReserveBudget(db, scope, handoff, estimate))
  {
    if scope in db.budgets && FindAdmission(db.admissions, scope, handoff).None? {
      forall sc, h { FindAdmissionAppend(db.admissions, Admission(scope, handoff, estimate), sc, h); }
      IdentityFree(db, BudgetReservedId(scope, handoff));
      OneRowRecorded(db, Reserved(db, scope, handoff, estimate), ReservedEvent(scope, handoff, estimate));
    }
  }

  // -- fail_run --------------------------------------------------------------

  /** The one clash there is: an owned run fails again after a reopen, and its earlier
      failure was recorded at another checkpoint version or with another error. */
  ghost predicate FailsAgain(db: Db, r: Id, error: Value) {
    && r in db.runs
    && WasReopened(db.audit, r)
    && Lookup(db.audit, RunStateId(r, Failed)).Some?
    && Lookup(db.audit, RunStateId(r, Failed)).value != FailedEvent(r, db.runs[r], error).body
  }

  lemma FailRecorded(db: Db, r: Id, token: Id, error: Value, now: real)
    requires AuditOk(db)
    ensures var s := FailRun(db, r, token, error, now);
            && (s == Err(AuditClash) <==> error.Obj? && Owns(db, r, token, now) && FailsAgain(db, r, error))
            && (s.Ok? ==> AuditOk(s.value))
  {
    if error.Obj? && Owns(db, r, token, now) {
      var e := FailedEvent(r, db.runs[r], error);
      if Lookup(db.audit, e.id) in {None, Some(e.body)} {
        Commits(db, db.(runs := db.runs[r := Release(db.runs[r], Failed).(error := Some(error))]), [e], None);
      } else {
        assert Justified(db, e.id, Lookup(db.audit, e.id).value);
      }
    }
  }

  lemma RecordOneRow(audit: seq<AuditEvent>, e: AuditEvent)
    ensures RecordAll(audit, [e]) == Record(audit, e)
  {
    assert [e][1..] == [];
  }

  lemma {:induction false} RecordAllConcat(audit: seq<AuditEvent>, a: seq<AuditEvent>, b: seq<AuditEvent>)
    ensures RecordAll(audit, a + b) ==
            match RecordAll(audit, a) case None => None case Some(next) => RecordAll(next, b)
    decreases |a|
  {
    if a == [] {
      assert a + b == b;
    } else {
      assert (a + b)[1..] == a[1..] + b;
      match Record(audit, a[0])
      case None =>
      case Some(next) => RecordAllConcat(next, a[1..], b);
    }
  }

  lemma RecordTwoRows(audit: seq<AuditEvent>, e: AuditEvent, f: AuditEvent)
    ensures RecordAll(audit, [e, f]) == match Record(audit, e) case None => None case Some(next) => Record(next, f)
  {
    assert [e, f] == [e] + [f];
    RecordAllConcat(audit, [e], [f]);
    RecordOneRow(audit, e);
    if Record(audit, e).Some? { RecordOneRow(Record(audit, e).value, f); }
  }

  lemma ReopenKeepsFailure(db: Db, r: Id, evidence: Value)
    requires ReopenUncertain(db, r, evidence).Ok?
    ensures var open := ReopenUncertain(db, r, evidence).value;
            && r in db.runs && r in open.runs && open.runs[r] == db.runs[r].(state := Pending, error := None, cancel := false)
            && Lookup(open.audit, RunStateId(r, Failed)) == Lookup(db.audit, RunStateId(r, Failed))
  {
    RecordOneRow(db.audit, ReopenedEvent(r, db.runs[r], evidence));
  }

  lemma ClaimKeepsFailure(db: Db, r: Id, token: Id, seconds: real, now: real)
    requires ClaimRun(db, r, token, seconds, now).Ok?
    ensures var next := ClaimRun(db, r, token, seconds, now).value;
            && r in db.runs && r in next.runs
            && next.runs[r] == db.runs[r].(state := Running, attempt := db.runs[r].attempt + 1,
                                           token := Some(token), expires := Some(now + seconds))
            && Lookup(next.audit, RunStateId(r, Failed)) == Lookup(db.audit, RunStateId(r, Failed))
  {
    RecordOneRow(db.audit, AuditEvent(RunClaimedId(r, db.runs[r].attempt + 1),
      RunClaimed(r, db.runs[r].task, db.runs[r].attempt + 1, now + seconds)));
  }

  lemma FailClashes(db: Db, r: Id, token: Id, error: Value, now: real)
    requires error.Obj? && Owns(db, r, token, now) && Lookup(db.audit, RunStateId(r, Failed)).Some?
    ensures FailRun(db, r, token, error, now) == Err(AuditClash) <==>
            Lookup(db.audit, RunStateId(r, Failed)).value != FailedEvent(r, db.runs[r], error).body
  {
    RecordOneRow(db.audit, FailedEvent(r, db.runs[r], error));
  }

  /** After its reopening and a new claim, the owner of a run that already has a recorded
      failure can fail it again only with the same error at the same checkpoint version:
      any other `fail_run` is refused and the run stays RUNNING. */
  lemma SecondFailureRefused(db: Db, r: Id, evidence: Value, token: Id, seconds: real, claimedAt: real, error: Value, failedAt: real)
    requires Lookup(db.audit, RunStateId(r, Failed)).Some? && error.Obj?
    requires ReopenUncertain(db, r, evidence).Ok?
    requires ClaimRun(ReopenUncertain(db, r, evidence).value, r, token, seconds, claimedAt).Ok?
    requires failedAt < claimedAt + seconds
    ensures var claimed := ClaimRun(ReopenUncertain(db, r, evidence).value, r, token, seconds, claimedAt).value;
            && r in db.runs && Owns(claimed, r, token, failedAt)
            && (FailRun(claimed, r, token, error, failedAt) == Err(AuditClash) <==>
                Lookup(db.audit, RunStateId(r, Failed)).value != FailedEvent(r, db.runs[r], error).body)
  {
    var open := ReopenUncertain(db, r, evidence).value;
    var claimed := ClaimRun(open, r, token, seconds, claimedAt).value;
    ReopenKeepsFailure(db, r, evidence);
    ClaimKeepsFailure(open, r, token, seconds, claimedAt);
    FailClashes(claimed, r, token, error, failedAt);
  }

  ghost predicate ClashExpected(db: Db, op: Op) {
    op.OpFail? && op.error.Obj? && Owns(db, op.r, op.token, op.now) && FailsAgain(db, op.r, op.error)
  }

  lemma LeaseOpRecorded(db: Db, op: Op)
    requires Invariant(db) && LeaseOp(op)
    ensures if op.OpFail? then (Step(db, op) == Err(AuditClash) <==> ClashExpected(db, op)) && (Step(db, op).Ok? ==> AuditOk(Step(db, op).value))
            else Recorded(Step(db, op))
  {
    match op
    case OpClaim(r, token, seconds, now) => ClaimRecorded(db, r, token, seconds, now);
    case OpRenew(r, token, seconds, now) => RenewRecorded(db, r, token, seconds, now);
    case OpSave(r, token, expected, cp, now) => SaveRecorded(db, r, token, expected, cp, now);
    case OpSuspend(r, token, expected, cp, i, kind, request, now) =>
      SuspendRecorded(db, r, token, expected, cp, i, kind, request, now);
    case OpComplete(r, token, result, now) => CompleteRecorded(db, r, token, result, now);
    case OpFail(r, token, error, now) => FailRecorded(db, r, token, error, now);
    case OpFinishCancelled(r, token, now) => FinishRecorded(db, r, token, now);
  }

  lemma OtherOpRecorded(db: Db, op: Op)
    requires AuditOk(db) && !LeaseOp(op)
    ensures Recorded(Step(db, op))
  {
    match op
    case OpCreateTask(t, goal, workspace) => CreateTaskRecorded(db, t, goal, workspace);
    case OpCreateRun(t, r) => CreateRunRecorded(db, t, r);
    case OpResolve(i, allow, response) => ResolveRecorded(db, i, allow, response);
    case OpReopen(r, evidence) => ReopenRecorded(db, r, evidence);
    case OpRequestCancel(r) => RequestCancelRecorded(db, r);
    case OpCancelTask(t) => CancelTaskRecorded(db, t);
    case OpAppendEvent(r, identity, kind, iteration, data, at) =>
      if Step(db, op).Ok? { SameRowsAuditOk(db, Step(db, op).value); }
    case OpConfigure(scope, limits) =>
      if Step(db, op).Ok? { SameRowsAuditOk(db, Step(db, op).value); }
    case OpReserve(scope, handoff, estimate) => ReserveRecorded(db, scope, handoff, estimate);
  }

  /** In every reachable store, a transition is refused for its audit identity exactly when
      it is a `fail_run` by the lease owner of a reopened run whose recorded failure differs. */
  lemma ClashOnlyWhenFailingAgain(db: Db, op: Op)
    requires Invariant(db)
    ensures Step(db, op) == Err(AuditClash) <==> ClashExpected(db, op)
    ensures AuditOk(After(db, op))
  {
    if LeaseOp(op) { LeaseOpRecorded(db, op); } else { OtherOpRecorded(db, op); }
  }

  lemma SameRowsAuditOk(db: Db, next: Db)
    requires AuditOk(db) && next == db.(events := next.events, budgets := next.budgets)
    ensures AuditOk(next)
  {
    forall id | Lookup(next.audit, id).Some? ensures Justified(next, id, Lookup(next.audit, id).value) {
      assert Justified(db, id, Lookup(db.audit, id).value);
    }
  }

  /** The structural and the audit invariant hold after every history of calls. */
  lemma {:induction false} ReachableInvariant(ops: seq<Op>)
    ensures Invariant(Exec(EMPTY_DB, ops))
  {
    if ops != [] {
      var before := ops[..|ops| - 1];
      ReachableInvariant(before);
      StepKeepsWellFormed(Exec(EMPTY_DB, before), ops[|ops| - 1]);
      ClashOnlyWhenFailingAgain(Exec(EMPTY_DB, before), ops[|ops| - 1]);
    }
  }
}
