/** Event sourcing: what replaying the audit outbox in row order makes of every task, every
    run's control state and every interrupt's state, and the rows each transition writes. */
module ExecutionReplay {
  import opened Values
  import opened Execution
  import opened ExecutionInvariant
  import opened ExecutionAudit

  datatype RunView = RunView(task: Id, state: RunState, attempt: nat, version: nat, cancel: bool)
  datatype InterruptView = InterruptView(run: Id, kind: string, state: InterruptState)
  datatype View = View(tasks: map<Id, Task>, runs: map<Id, RunView>, interrupts: map<Id, InterruptView>)

  // -- what the tables say ---------------------------------------------------

  function ViewOf(run: Run): RunView { RunView(run.task, run.state, run.attempt, run.version, run.cancel) }

  function ViewRuns(runs: map<Id, Run>): map<Id, RunView> { map r | r in runs :: ViewOf(runs[r]) }

  function ViewInterrupts(rows: map<Id, Interrupt>): map<Id, InterruptView> {
    map i | i in rows :: InterruptView(rows[i].run, rows[i].kind, rows[i].state)
  }

  function Project(db: Db): View { View(db.tasks, ViewRuns(db.runs), ViewInterrupts(db.interrupts)) }

  lemma ViewRunsUpdate(runs: map<Id, Run>, r: Id, run: Run)
    ensures ViewRuns(runs[r := run]) == ViewRuns(runs)[r := ViewOf(run)]
    ensures r in runs ==> r in ViewRuns(runs) && ViewRuns(runs)[r] == ViewOf(runs[r])
  {}

  lemma ViewInterruptsUpdate(rows: map<Id, Interrupt>, i: Id, row: Interrupt)
    ensures ViewInterrupts(rows[i := row]) == ViewInterrupts(rows)[i := InterruptView(row.run, row.kind, row.state)]
  {}

  // -- what the outbox says --------------------------------------------------

  function SetState(v: View, r: Id, s: RunState): View {
    if r in v.runs then v.(runs := v.runs[r := v.runs[r].(state := s)]) else v
  }

  function Apply(v: View, body: AuditBody): View {
    match body
    case TaskCreated(t, goal, workspace) => v.(tasks := v.tasks[t := Task(goal, workspace, TaskOpen)])
    case TaskClosed(t, ts) => if t in v.tasks then v.(tasks := v.tasks[t := v.tasks[t].(state := ts)]) else v
    case RunCreated(r, t) => v.(runs := v.runs[r := RunView(t, Pending, 0, 0, false)])
    case RunClaimed(r, _, a, _) =>
      if r in v.runs then v.(runs := v.runs[r := v.runs[r].(state := Running, attempt := a)]) else v
    case LeaseRenewed(_, _, _, _) => v
    case CheckpointSaved(r, n, _) => if r in v.runs then v.(runs := v.runs[r := v.runs[r].(version := n)]) else v
    case InterruptAsked(i, r, kind) =>
      SetState(v.(interrupts := v.interrupts[i := InterruptView(r, kind, Asked)]), r, Waiting)
    case InterruptResolved(i, r, kind, s) =>
      var next := v.(interrupts := v.interrupts[i := InterruptView(r, kind, s)]);
      if s == Allowed then SetState(next, r, Pending) else next
    case CancelRequested(r, _) => if r in v.runs then v.(runs := v.runs[r := v.runs[r].(cancel := true)]) else v
    case RunSettled(r, _, s, _) => SetState(v, r, s)
    case RunFailed(r, _, _, _) => SetState(v, r, Failed)
    case RunReopened(r, _, _) =>
      if r in v.runs then v.(runs := v.runs[r := v.runs[r].(state := Pending, cancel := false)]) else v
    case BudgetReserved(_, _, _) => v
  }

  function ApplyAll(v: View, es: seq<AuditEvent>): View
    decreases |es|
  {
    if es == [] then v else ApplyAll(Apply(v, es[0].body), es[1..])
  }

  function Replay(audit: seq<AuditEvent>): View { ApplyAll(View(map[], map[], map[]), audit) }

  lemma {:induction false} ApplyAllConcat(v: View, a: seq<AuditEvent>, b: seq<AuditEvent>)
    ensures ApplyAll(v, a + b) == ApplyAll(ApplyAll(v, a), b)
    decreases |a|
  {
    if a == [] { assert a + b == b; }
    else {
      assert (a + b)[1..] == a[1..] + b;
      ApplyAllConcat(Apply(v, a[0].body), a[1..], b);
    }
  }

  /** Each row either is new or changes nothing that replay has not seen. */
  predicate Heard(audit: seq<AuditEvent>, v: View, es: seq<AuditEvent>)
    decreases |es|
  {
    es == [] ||
    (&& (Lookup(audit, es[0].id).None? || (Lookup(audit, es[0].id) == Some(es[0].body) && Apply(v, es[0].body) == v))
     && Record(audit, es[0]).Some?
     && Heard(Record(audit, es[0]).value, Apply(v, es[0].body), es[1..]))
  }

  lemma {:induction false} ReplayRecorded(audit: seq<AuditEvent>, es: seq<AuditEvent>)
    requires Heard(audit, Replay(audit), es)
    ensures RecordAll(audit, es).Some?
    ensures Replay(RecordAll(audit, es).value) == ApplyAll(Replay(audit), es)
    decreases |es|
  {
    if es != [] {
      var next := Record(audit, es[0]).value;
      if Lookup(audit, es[0].id).None? { ApplyAllConcat(View(map[], map[], map[]), audit, [es[0]]); }
      assert Replay(next) == Apply(Replay(audit), es[0].body);
      ReplayRecorded(next, es[1..]);
    }
  }

  // -- histories without a reopen --------------------------------------------

  /** What holds while no run has been reopened: a cancel request is on record only for a
      flagged run, a completion only for a completed task, and the active run of a
      cancelled task is flagged. */
  ghost predicate FlagsOk(tasks: map<Id, Task>, runs: map<Id, Run>, audit: seq<AuditEvent>) {
    && (forall r, a :: Lookup(audit, ReopenedId(r, a)).None?)
    && (forall r | Lookup(audit, CancelRequestedId(r)).Some? :: r in runs && runs[r].cancel)
    && (forall t | Lookup(audit, TaskStateId(t, TaskCompleted)).Some? :: t in tasks && tasks[t].state == TaskCompleted)
    && (forall t, r | ActiveOn(runs, t, r) && t in tasks && tasks[t].state == TaskCancelled :: runs[r].cancel)
  }

  /** The outbox tells the tables. */
  ghost predicate Replayed(db: Db) { Replay(db.audit) == Project(db) }

  ghost predicate Faithful(db: Db) { Replayed(db) && Flags(db) }

  /** Rows that are neither reopenings nor unwarranted completions or cancel requests. */
  predicate Warranted(tasks: map<Id, Task>, runs: map<Id, Run>, e: AuditEvent) {
    && !e.id.ReopenedId?
    && (e.id.CancelRequestedId? ==> e.id.r in runs && runs[e.id.r].cancel)
    && (e.id.TaskStateId? && e.id.ts == TaskCompleted ==> e.id.t in tasks && tasks[e.id.t].state == TaskCompleted)
  }

  ghost predicate FlagsKept(db: Db, mid: Db) {
    && (forall r | r in db.runs && db.runs[r].cancel :: r in mid.runs && mid.runs[r].cancel)
    && (forall t | t in db.tasks && db.tasks[t].state == TaskCompleted :: t in mid.tasks && mid.tasks[t].state == TaskCompleted)
    && (forall t, r | ActiveOn(mid.runs, t, r) && t in mid.tasks && mid.tasks[t].state == TaskCancelled :: mid.runs[r].cancel)
  }

  /** Distinct rows, all new, except that the first may repeat what is already on record. */
  ghost predicate NewRows(audit: seq<AuditEvent>, v: View, es: seq<AuditEvent>) {
    && DistinctIds(es)
    && forall k | 0 <= k < |es| ::
         Lookup(audit, es[k].id).None? || (k == 0 && Repeats(audit, v, es[0]))
  }

  predicate Repeats(audit: seq<AuditEvent>, v: View, e: AuditEvent) {
    Lookup(audit, e.id) == Some(e.body) && Apply(v, e.body) == v
  }

  /** Applying the rows to one view gives the other. */
  ghost predicate Yields(v: View, es: seq<AuditEvent>, next: View) { ApplyAll(v, es) == next }

  ghost predicate AllWarranted(mid: Db, es: seq<AuditEvent>) {
    forall k | 0 <= k < |es| :: Warranted(mid.tasks, mid.runs, es[k])
  }

  /** The rows `es` of a transaction describe exactly its change from `db` to `mid`. */
  ghost predicate Described(db: Db, mid: Db, es: seq<AuditEvent>) {
    && mid.audit == db.audit
    && NewRows(db.audit, Project(db), es)
    && Yields(Project(db), es, Project(mid))
    && (Flags(db) ==> FlagsKept(db, mid) && AllWarranted(mid, es))
  }

  lemma NewRowsNoClash(audit: seq<AuditEvent>, v: View, es: seq<AuditEvent>)
    requires NewRows(audit, v, es)
    ensures NoClash(audit, es)
  {}

  lemma CommitFlags(db: Db, mid: Db, es: seq<AuditEvent>, next: seq<AuditEvent>)
    requires FlagsOk(db.tasks, db.runs, db.audit) && FlagsKept(db, mid) && AllWarranted(mid, es)
    requires Extends(db.audit, es, next)
    ensures FlagsOk(mid.tasks, mid.runs, next)
  {
    forall r, a ensures Lookup(next, ReopenedId(r, a)).None? {
      assert Lookup(db.audit, ReopenedId(r, a)).None?;
    }
    forall r | Lookup(next, CancelRequestedId(r)).Some? ensures r in mid.runs && mid.runs[r].cancel {}
    forall t | Lookup(next, TaskStateId(t, TaskCompleted)).Some?
      ensures t in mid.tasks && mid.tasks[t].state == TaskCompleted {}
  }

  /** What a successful transition leaves is told by its outbox, and flags stay in order. */
  ghost predicate Stays(db: Db, s: Result<Db, Error>) {
    s.Ok? ==> Replayed(s.value) && (Flags(db) ==> Flags(s.value))
  }

  lemma CommitStays(db: Db, mid: Db, es: seq<AuditEvent>)
    requires Replayed(db) && Described(db, mid, es)
    ensures Commit(mid, es).Ok? && Stays(db, Commit(mid, es))
  {
    NewRowsHeard(db.audit, Project(db), es);
    ReplayRecorded(db.audit, es);
    NewRowsNoClash(db.audit, Project(db), es);
    RecordAllExtends(db.audit, es);
    if Flags(db) { CommitFlags(db, mid, es, RecordAll(db.audit, es).value); }
  }

  lemma NewRowsHeard(audit: seq<AuditEvent>, v: View, es: seq<AuditEvent>)
    requires NewRows(audit, v, es)
    ensures Heard(audit, v, es)
  {
    if es != [] {
      var rest := es[1..];
      assert forall k | 0 <= k < |rest| :: rest[k] == es[k + 1];
      HeardNew(Record(audit, es[0]).value, Apply(v, es[0].body), rest);
    }
  }

  // -- every transition describes itself --------------------------------------

  ghost predicate Flags(db: Db) { FlagsOk(db.tasks, db.runs, db.audit) }

  ghost predicate Free(db: Db, id: AuditId) { Lookup(db.audit, id).None? }

  /** The identities that cancelling run `r` may record are free, or repeat a cancel request. */
  ghost predicate CancelFree(db: Db, r: Id) {
    r in db.runs && IsActive(db.runs[r].state) ==>
      && Free(db, RunStateId(r, Cancelled))
      && Lookup(db.audit, CancelRequestedId(r)) in {None, Some(CancelRequested(r, db.runs[r].task))}
      && (forall i | PendingOn(db.interrupts, r, i) :: Free(db, InterruptResolvedId(i)))
  }

  lemma RunIdentitiesFree(db: Db, r: Id)
    requires AuditOk(db)
    ensures r !in db.runs ==> Free(db, RunCreatedId(r))
    ensures r in db.runs ==> Free(db, RunClaimedId(r, db.runs[r].attempt + 1)) && Free(db, CheckpointId(r, db.runs[r].version + 1))
    ensures r in db.runs && IsActive(db.runs[r].state) ==>
      && Free(db, RunStateId(r, Completed)) && Free(db, RunStateId(r, Cancelled))
      && (Flags(db) ==> Free(db, RunStateId(r, Failed)))
  {
    if r !in db.runs {
      IdentityFree(db, RunCreatedId(r));
    } else {
      IdentityFree(db, RunClaimedId(r, db.runs[r].attempt + 1));
      IdentityFree(db, CheckpointId(r, db.runs[r].version + 1));
      if IsActive(db.runs[r].state) {
        IdentityFree(db, RunStateId(r, Completed));
        IdentityFree(db, RunStateId(r, Cancelled));
        if Flags(db) { IdentityFree(db, RunStateId(r, Failed)); }
      }
    }
  }

  lemma InterruptIdentitiesFree(db: Db, i: Id)
    requires AuditOk(db)
    ensures i !in db.interrupts ==> Free(db, InterruptAskedId(i))
    ensures i in db.interrupts && db.interrupts[i].state == Asked ==> Free(db, InterruptResolvedId(i))
  {
    if i !in db.interrupts { IdentityFree(db, InterruptAskedId(i)); }
    else if db.interrupts[i].state == Asked { IdentityFree(db, InterruptResolvedId(i)); }
  }

  lemma CancelIdentitiesFree(db: Db, r: Id)
    requires AuditOk(db)
    ensures CancelFree(db, r)
  {
    if r in db.runs && IsActive(db.runs[r].state) {
      RunIdentitiesFree(db, r);
      if Lookup(db.audit, CancelRequestedId(r)).Some? {
        assert Justified(db, CancelRequestedId(r), Lookup(db.audit, CancelRequestedId(r)).value);
      }
      forall i | PendingOn(db.interrupts, r, i) ensures Free(db, InterruptResolvedId(i)) {
        InterruptIdentitiesFree(db, i);
      }
    }
  }

  /** Renewing to the same expiry twice repeats the row that is already there. */
  ghost predicate RenewFree(db: Db, r: Id, expires: real) {
    r in db.runs ==>
      var run := db.runs[r];
      var id := LeaseRenewedId(r, run.attempt, expires);
      Free(db, id) || Lookup(db.audit, id) == Some(LeaseRenewed(r, run.task, run.attempt, expires))
  }

  lemma RenewIdentityFree(db: Db, r: Id, expires: real)
    requires AuditOk(db)
    ensures RenewFree(db, r, expires)
  {
    if r in db.runs {
      var id := LeaseRenewedId(r, db.runs[r].attempt, expires);
      if Lookup(db.audit, id).Some? { assert Justified(db, id, Lookup(db.audit, id).value); }
    }
  }

  lemma {:induction false} HeardNew(audit: seq<AuditEvent>, v: View, es: seq<AuditEvent>)
    requires DistinctIds(es) && forall k | 0 <= k < |es| :: Lookup(audit, es[k].id).None?
    ensures Heard(audit, v, es)
    decreases |es|
  {
    if es != [] {
      var rest := es[1..];
      assert forall k | 0 <= k < |rest| :: rest[k] == es[k + 1];
      HeardNew(Record(audit, es[0]).value, Apply(v, es[0].body), rest);
    }
  }

  lemma RunFlagsKept(db: Db, mid: Db, r: Id, run: Run)
    requires Flags(db) && r in db.runs
    requires mid.tasks == db.tasks && mid.runs == db.runs[r := run]
    requires run.task == db.runs[r].task && (db.runs[r].cancel ==> run.cancel)
    requires IsActive(run.state) ==> IsActive(db.runs[r].state)
    ensures FlagsKept(db, mid)
  {
    assert IsActive(run.state) ==> ActiveOn(db.runs, run.task, r);
    forall t, a | ActiveOn(mid.runs, t, a) && t in mid.tasks && mid.tasks[t].state == TaskCancelled ensures mid.runs[a].cancel {
      assert ActiveOn(db.runs, t, a);
    }
  }

  lemma OneNew(audit: seq<AuditEvent>, v: View, e: AuditEvent)
    requires Lookup(audit, e.id).None? || Repeats(audit, v, e)
    ensures NewRows(audit, v, [e])
  {}

  lemma TwoNew(audit: seq<AuditEvent>, v: View, e: AuditEvent, f: AuditEvent)
    requires Lookup(audit, e.id).None? && Lookup(audit, f.id).None? && e.id != f.id
    ensures NewRows(audit, v, [e, f])
  {}

  lemma OneApplies(v: View, e: AuditEvent)
    ensures ApplyAll(v, [e]) == Apply(v, e.body)
  {}

  lemma TwoApply(v: View, e: AuditEvent, f: AuditEvent)
    ensures ApplyAll(v, [e, f]) == Apply(Apply(v, e.body), f.body)
  {
    assert [e, f][1..] == [f];
    OneApplies(Apply(v, e.body), f);
  }

  lemma OneWarranted(mid: Db, e: AuditEvent)
    requires Warranted(mid.tasks, mid.runs, e)
    ensures AllWarranted(mid, [e])
  {}

  lemma TwoWarranted(mid: Db, e: AuditEvent, f: AuditEvent)
    requires Warranted(mid.tasks, mid.runs, e) && Warranted(mid.tasks, mid.runs, f)
    ensures AllWarranted(mid, [e, f])
  {}

  // -- tasks and runs

  lemma OneRowCommits(db: Db, mid: Db, e: AuditEvent)
    requires Replayed(db) && mid.audit == db.audit
    requires Free(db, e.id) || Repeats(db.audit, Project(db), e)
    requires Apply(Project(db), e.body) == Project(mid)
    requires Flags(db) ==> FlagsKept(db, mid) && Warranted(mid.tasks, mid.runs, e)
    ensures Stays(db, Commit(mid, [e]))
  {
    OneNew(db.audit, Project(db), e);
    OneApplies(Project(db), e);
    if Flags(db) { OneWarranted(mid, e); }
    CommitStays(db, mid, [e]);
  }

  lemma TwoRowsCommit(db: Db, mid: Db, e: AuditEvent, f: AuditEvent)
    requires Replayed(db) && mid.audit == db.audit
    requires Free(db, e.id) && Free(db, f.id) && e.id != f.id
    requires Apply(Apply(Project(db), e.body), f.body) == Project(mid)
    requires Flags(db) ==> FlagsKept(db, mid) && Warranted(mid.tasks, mid.runs, e) && Warranted(mid.tasks, mid.runs, f)
    ensures Stays(db, Commit(mid, [e, f]))
  {
    TwoNew(db.audit, Project(db), e, f);
    TwoApply(Project(db), e, f);
    if Flags(db) { TwoWarranted(mid, e, f); }
    CommitStays(db, mid, [e, f]);
  }

  lemma CreateTaskCommits(db: Db, t: Id, goal: string, workspace: string)
    requires Replayed(db) && (t !in db.tasks ==> Free(db, TaskCreatedId(t)))
    ensures Stays(db, CreateTask(db, t, goal, workspace))
  {
    if goal != "" && t !in db.tasks {
      OneRowCommits(db, db.(tasks := db.tasks[t := Task(goal, workspace, TaskOpen)]),
        AuditEvent(TaskCreatedId(t), TaskCreated(t, goal, workspace)));
    }
  }

  lemma CreateRunFlags(db: Db, t: Id, r: Id, mid: Db)
    requires Flags(db) && r !in db.runs && t in db.tasks && db.tasks[t].state == TaskOpen
    requires mid.tasks == db.tasks && mid.runs == db.runs[r := Run(t, Pending, 0, 0, None, None, false, None, None)]
    ensures FlagsKept(db, mid)
  {
    forall k, a | ActiveOn(mid.runs, k, a) && k in mid.tasks && mid.tasks[k].state == TaskCancelled ensures mid.runs[a].cancel {
      assert a != r ==> ActiveOn(db.runs, k, a);
    }
  }

  lemma CreateRunCommits(db: Db, t: Id, r: Id)
    requires Replayed(db) && (r !in db.runs ==> Free(db, RunCreatedId(r)))
    ensures Stays(db, CreateRun(db, t, r))
  {
    if t in db.tasks && db.tasks[t].state == TaskOpen && r !in db.runs && forall a :: !ActiveOn(db.runs, t, a) {
      var mid := db.(runs := db.runs[r := Run(t, Pending, 0, 0, None, None, false, None, None)]);
      ViewRunsUpdate(db.runs, r, mid.runs[r]);
      if Flags(db) { CreateRunFlags(db, t, r, mid); }
      OneRowCommits(db, mid, AuditEvent(RunCreatedId(r), RunCreated(r, t)));
    }
  }

  /** The new row `e` turns the view of run `r` into the view of `run`. */
  ghost predicate RunRow(runs: map<Id, Run>, r: Id, run: Run, body: AuditBody) {
    r in runs &&
    match body
    case RunClaimed(q, _, a, _) => q == r && ViewOf(run) == ViewOf(runs[r]).(state := Running, attempt := a)
    case LeaseRenewed(q, _, _, _) => q == r && ViewOf(run) == ViewOf(runs[r])
    case CheckpointSaved(q, n, _) => q == r && ViewOf(run) == ViewOf(runs[r]).(version := n)
    case RunSettled(q, _, s, _) => q == r && ViewOf(run) == ViewOf(runs[r]).(state := s)
    case RunFailed(q, _, _, _) => q == r && ViewOf(run) == ViewOf(runs[r]).(state := Failed)
    case _ => false
  }

  lemma RunRowApplies(db: Db, mid: Db, r: Id, run: Run, body: AuditBody)
    requires RunRow(db.runs, r, run, body)
    requires mid.tasks == db.tasks && mid.runs == db.runs[r := run] && mid.interrupts == db.interrupts
    ensures Apply(Project(db), body) == Project(mid)
    ensures body.LeaseRenewed? ==> Apply(Project(db), body) == Project(db)
  {
    ViewRunsUpdate(db.runs, r, run);
    if body.LeaseRenewed? { assert ViewRuns(db.runs)[r := ViewOf(run)] == ViewRuns(db.runs); }
  }

  lemma RunRowCommits(db: Db, mid: Db, r: Id, run: Run, e: AuditEvent)
    requires Replayed(db) && RunRow(db.runs, r, run, e.body)
    requires mid.tasks == db.tasks && mid.runs == db.runs[r := run] && mid.interrupts == db.interrupts && mid.audit == db.audit
    requires Free(db, e.id) || (e.body.LeaseRenewed? && Lookup(db.audit, e.id) == Some(e.body))
    requires run.task == db.runs[r].task && (db.runs[r].cancel ==> run.cancel)
    requires IsActive(run.state) ==> IsActive(db.runs[r].state)
    requires !e.id.ReopenedId? && !e.id.CancelRequestedId? && !e.id.TaskStateId?
    ensures Stays(db, Commit(mid, [e]))
  {
    RunRowApplies(db, mid, r, run, e.body);
    if Flags(db) { RunFlagsKept(db, mid, r, run); }
    OneRowCommits(db, mid, e);
  }

  lemma ClaimCommits(db: Db, r: Id, token: Id, seconds: real, now: real)
    requires Replayed(db) && (r in db.runs ==> Free(db, RunClaimedId(r, db.runs[r].attempt + 1)))
    ensures Stays(db, ClaimRun(db, r, token, seconds, now))
  {
    if r in db.runs && Claimable(db.runs[r], now) {
      var run := db.runs[r].(state := Running, attempt := db.runs[r].attempt + 1,
                             token := Some(token), expires := Some(now + seconds));
      RunRowCommits(db, db.(runs := db.runs[r := run]), r, run,
        AuditEvent(RunClaimedId(r, run.attempt), RunClaimed(r, run.task, run.attempt, now + seconds)));
    }
  }

  lemma RenewCommits(db: Db, r: Id, token: Id, seconds: real, now: real)
    requires Replayed(db) && RenewFree(db, r, now + seconds)
    ensures Stays(db, RenewLease(db, r, token, seconds, now))
  {
    if Owns(db, r, token, now) {
      var run := db.runs[r].(expires := Some(now + seconds));
      RunRowCommits(db, db.(runs := db.runs[r := run]), r, run,
        AuditEvent(LeaseRenewedId(r, run.attempt, now + seconds), LeaseRenewed(r, run.task, run.attempt, now + seconds)));
    }
  }

  lemma SaveCommits(db: Db, r: Id, token: Id, expected: nat, cp: Checkpoint, now: real)
    requires Replayed(db) && (r in db.runs ==> Free(db, CheckpointId(r, db.runs[r].version + 1)))
    ensures Stays(db, SaveCheckpoint(db, r, token, expected, cp, now))
  {
    if Owns(db, r, token, now) && db.runs[r].version == expected {
      var run := db.runs[r].(version := expected + 1);
      RunRowCommits(db, db.(checkpoints := db.checkpoints[(r, expected + 1) := cp], runs := db.runs[r := run]), r, run,
        AuditEvent(CheckpointId(r, expected + 1), CheckpointSaved(r, expected + 1, cp.phase)));
    }
  }

  lemma FailCommits(db: Db, r: Id, token: Id, error: Value, now: real)
    requires Replayed(db) && (r in db.runs && IsActive(db.runs[r].state) ==> Free(db, RunStateId(r, Failed)))
    ensures Stays(db, FailRun(db, r, token, error, now))
  {
    if Owns(db, r, token, now) {
      var run := Release(db.runs[r], Failed).(error := Some(error));
      RunRowCommits(db, db.(runs := db.runs[r := run]), r, run, FailedEvent(r, db.runs[r], error));
    }
  }

  lemma FinishCommits(db: Db, r: Id, token: Id, now: real)
    requires Replayed(db) && (r in db.runs && IsActive(db.runs[r].state) ==> Free(db, RunStateId(r, Cancelled)))
    ensures Stays(db, FinishCancelled(db, r, token, now))
  {
    if Owns(db, r, token, now) {
      var run := Release(db.runs[r], Cancelled);
      RunRowCommits(db, db.(runs := db.runs[r := run]), r, run, SettledEvent(r, db.runs[r], Cancelled));
    }
  }

  // -- interrupts

  lemma SuspendApplies(db: Db, mid: Db, r: Id, run: Run, i: Id, row: Interrupt, phase: string)
    requires r in db.runs && run.state == Waiting && row.state == Asked && row.run == r
    requires run == Release(db.runs[r], Waiting).(version := run.version)
    requires mid.tasks == db.tasks && mid.runs == db.runs[r := run] && mid.interrupts == db.interrupts[i := row]
    ensures Apply(Apply(Project(db), CheckpointSaved(r, run.version, phase)), InterruptAsked(i, r, row.kind)) == Project(mid)
  {
    ViewRunsUpdate(db.runs, r, run);
    ViewInterruptsUpdate(db.interrupts, i, row);
  }

  lemma SuspendCommits(db: Db, r: Id, token: Id, expected: nat, cp: Checkpoint, i: Id, kind: string, request: Value, now: real)
    requires Replayed(db) && (r in db.runs ==> Free(db, CheckpointId(r, db.runs[r].version + 1)))
    requires i !in db.interrupts ==> Free(db, InterruptAskedId(i))
    ensures Stays(db, Suspend(db, r, token, expected, cp, i, kind, request, now))
  {
    if Suspend(db, r, token, expected, cp, i, kind, request, now).Ok? {
      SuspendWrites(db, r, token, expected, cp, i, kind, request, now);
      SuspendedFaithful(db, r, cp, i, Interrupt(r, kind, request, Asked, Null));
    }
  }

  lemma SuspendedFaithful(db: Db, r: Id, cp: Checkpoint, i: Id, row: Interrupt)
    requires Replayed(db) && r in db.runs && IsActive(db.runs[r].state) && row.run == r && row.state == Asked
    requires Free(db, CheckpointId(r, db.runs[r].version + 1)) && Free(db, InterruptAskedId(i))
    ensures Stays(db, Commit(Suspended(db, r, cp, i, row),
        [AuditEvent(CheckpointId(r, db.runs[r].version + 1), CheckpointSaved(r, db.runs[r].version + 1, cp.phase)),
         AuditEvent(InterruptAskedId(i), InterruptAsked(i, r, row.kind))]))
  {
    var v := db.runs[r].version + 1;
    var run := Release(db.runs[r], Waiting).(version := v);
    var mid := Suspended(db, r, cp, i, row);
    var e := AuditEvent(CheckpointId(r, v), CheckpointSaved(r, v, cp.phase));
    var f := AuditEvent(InterruptAskedId(i), InterruptAsked(i, r, row.kind));
    SuspendApplies(db, mid, r, run, i, row, cp.phase);
    if Flags(db) { RunFlagsKept(db, mid, r, run); }
    TwoRowsCommit(db, mid, e, f);
  }

  lemma AllowApplies(db: Db, mid: Db, i: Id, row: Interrupt, next: Interrupt)
    requires row.run in db.runs && next.run == row.run && next.kind == row.kind && next.state == Allowed
    requires mid.tasks == db.tasks && mid.interrupts == db.interrupts[i := next]
    requires mid.runs == db.runs[row.run := db.runs[row.run].(state := Pending)]
    ensures Apply(Project(db), ResolvedEvent(i, row, Allowed).body) == Project(mid)
  {
    ViewRunsUpdate(db.runs, row.run, db.runs[row.run].(state := Pending));
    ViewInterruptsUpdate(db.interrupts, i, next);
  }

  lemma DenyApplies(db: Db, mid: Db, i: Id, row: Interrupt, next: Interrupt, run: Run)
    requires row.run in db.runs && next.run == row.run && next.kind == row.kind && next.state == Denied
    requires mid.tasks == db.tasks && mid.interrupts == db.interrupts[i := next]
    requires run == db.runs[row.run].(state := Cancelled) && mid.runs == db.runs[row.run := run]
    ensures Apply(Apply(Project(db), ResolvedEvent(i, row, Denied).body), SettledEvent(row.run, db.runs[row.run], Cancelled).body) == Project(mid)
  {
    ViewRunsUpdate(db.runs, row.run, run);
    ViewInterruptsUpdate(db.interrupts, i, next);
  }

  lemma AllowCommits(db: Db, i: Id, response: Value)
    requires Replayed(db) && Resolvable(db, i) && Free(db, InterruptResolvedId(i))
    ensures Stays(db, ResolveInterrupt(db, i, true, response))
  {
    var row := db.interrupts[i];
    var mid := Resolved(db, i, true, response);
    AllowApplies(db, mid, i, row, mid.interrupts[i]);
    if Flags(db) { RunFlagsKept(db, mid, row.run, db.runs[row.run].(state := Pending)); }
    OneRowCommits(db, mid, ResolvedEvent(i, row, Allowed));
  }

  lemma DenyCommits(db: Db, i: Id, response: Value)
    requires Replayed(db) && Resolvable(db, i)
    requires Free(db, InterruptResolvedId(i)) && Free(db, RunStateId(db.interrupts[i].run, Cancelled))
    ensures Stays(db, ResolveInterrupt(db, i, false, response))
  {
    var row := db.interrupts[i];
    var mid := Resolved(db, i, false, response);
    DenyApplies(db, mid, i, row, mid.interrupts[i], db.runs[row.run].(state := Cancelled));
    if Flags(db) { RunFlagsKept(db, mid, row.run, db.runs[row.run].(state := Cancelled)); }
    TwoRowsCommit(db, mid, ResolvedEvent(i, row, Denied), SettledEvent(row.run, db.runs[row.run], Cancelled));
  }

  // -- completion

  lemma CompleteFlags(db: Db, mid: Db, r: Id, run: Run)
    requires Flags(db) && RunsOk(db.tasks, db.runs) && TasksOk(db.tasks, db.runs)
    requires r in db.runs && db.runs[r].state == Running && !db.runs[r].cancel
    requires run.task == db.runs[r].task && run.state == Completed && run.cancel == db.runs[r].cancel
    requires mid.runs == db.runs[r := run]
    requires run.task in db.tasks ==> mid.tasks == db.tasks[run.task := db.tasks[run.task].(state := TaskCompleted)]
    ensures run.task in db.tasks && db.tasks[run.task].state == TaskOpen && FlagsKept(db, mid)
  {
    assert ActiveOn(db.runs, run.task, r);
    forall t, a | ActiveOn(mid.runs, t, a) && t in mid.tasks && mid.tasks[t].state == TaskCancelled ensures mid.runs[a].cancel {
      assert ActiveOn(db.runs, t, a);
    }
  }

  lemma CompleteApplies(db: Db, mid: Db, r: Id, run: Run)
    requires r in db.runs && run.task in db.tasks
    requires ViewOf(run) == ViewOf(db.runs[r]).(state := Completed)
    requires mid.runs == db.runs[r := run] && mid.interrupts == db.interrupts
    requires mid.tasks == db.tasks[run.task := db.tasks[run.task].(state := TaskCompleted)]
    ensures Apply(Apply(Project(db), SettledEvent(r, db.runs[r], Completed).body), TaskClosed(run.task, TaskCompleted)) == Project(mid)
  {
    ViewRunsUpdate(db.runs, r, run);
  }

  lemma CompleteCommits(db: Db, r: Id, token: Id, result: Value, now: real)
    requires Replayed(db) && RunsOk(db.tasks, db.runs) && TasksOk(db.tasks, db.runs)
    requires r in db.runs && IsActive(db.runs[r].state) ==> Free(db, RunStateId(r, Completed))
    requires Owns(db, r, token, now) && !db.runs[r].cancel ==>
      db.tasks[db.runs[r].task].state == TaskOpen && Free(db, TaskStateId(db.runs[r].task, TaskCompleted))
    ensures Stays(db, CompleteRun(db, r, token, result, now))
  {
    if Owns(db, r, token, now) && !db.runs[r].cancel {
      var run := Release(db.runs[r], Completed).(result := Some(result));
      var t := run.task;
      var mid := db.(runs := db.runs[r := run], tasks := db.tasks[t := db.tasks[t].(state := TaskCompleted)]);
      if Flags(db) { CompleteFlags(db, mid, r, run); }
      CompleteApplies(db, mid, r, run);
      TwoRowsCommit(db, mid, SettledEvent(r, db.runs[r], Completed),
        AuditEvent(TaskStateId(t, TaskCompleted), TaskClosed(t, TaskCompleted)));
    }
  }

  // -- cancellation ------------------------------------------------------------

  /** The rows that cancelling an active run writes after its cancel request. */
  ghost predicate CancelTail(db: Db, r: Id, tail: seq<AuditEvent>)
    requires r in db.runs
  {
    if db.runs[r].state == Running then tail == []
    else
      || tail == [SettledEvent(r, db.runs[r], Cancelled)] + DeniedEvents(db, r)
      || tail == DeniedEvents(db, r) + [SettledEvent(r, db.runs[r], Cancelled)]
  }

  lemma CancelRunningApplies(db: Db, r: Id, reason: Value)
    requires r in db.runs && IsActive(db.runs[r].state)
    ensures var v := Apply(Project(db), CancelRequested(r, db.runs[r].task));
            v == Project(db).(runs := ViewRuns(db.runs)[r := ViewOf(db.runs[r]).(cancel := true)])
            && (db.runs[r].state == Running ==> v == Project(CancelRows(db, r, reason)))
  {
    ViewRunsUpdate(db.runs, r, db.runs[r].(cancel := true));
  }

  /** The view of the cancelled run, with its denied interrupt if there is one. */
  lemma CancelIdleView(db: Db, r: Id, reason: Value)
    requires r in db.runs && IsActive(db.runs[r].state) && db.runs[r].state != Running
    ensures var next := Project(CancelRows(db, r, reason));
            && next.tasks == db.tasks
            && next.runs == ViewRuns(db.runs)[r := ViewOf(db.runs[r]).(cancel := true, state := Cancelled)]
            && next.interrupts ==
               (if DeniedEvents(db, r) == [] then ViewInterrupts(db.interrupts)
                else var i := PendingInterrupt(db.interrupts, r).value;
                     ViewInterrupts(db.interrupts)[i := InterruptView(r, db.interrupts[i].kind, Denied)])
  {
    var next := CancelRows(db, r, reason);
    ViewRunsUpdate(db.runs, r, next.runs[r]);
    if DeniedEvents(db, r) != [] {
      var i := PendingInterrupt(db.interrupts, r).value;
      ViewInterruptsUpdate(db.interrupts, i, next.interrupts[i]);
    }
  }

  /** Settling a run and denying its interrupt commute. */
  lemma SettleDeny(v: View, r: Id, i: Id, e: AuditBody, f: AuditBody, run: RunView)
    requires v.runs == v.runs[r := run] && r in v.runs
    requires e.RunSettled? && e.r == r && e.rs == Cancelled
    requires f.InterruptResolved? && f.i == i && f.state == Denied
    ensures Apply(Apply(v, e), f) == Apply(Apply(v, f), e) ==
            v.(runs := v.runs[r := run.(state := Cancelled)], interrupts := v.interrupts[i := InterruptView(f.r, f.kind, Denied)])
  {
    assert v.runs[r] == run;
  }

  lemma CancelTailApplies(db: Db, r: Id, reason: Value, tail: seq<AuditEvent>)
    requires r in db.runs && IsActive(db.runs[r].state) && CancelTail(db, r, tail)
    ensures Yields(Apply(Project(db), CancelRequested(r, db.runs[r].task)), tail, Project(CancelRows(db, r, reason)))
  {
    CancelRunningApplies(db, r, reason);
    if db.runs[r].state != Running {
      var v := Apply(Project(db), CancelRequested(r, db.runs[r].task));
      var run := ViewOf(db.runs[r]).(cancel := true);
      var e := SettledEvent(r, db.runs[r], Cancelled);
      CancelIdleView(db, r, reason);
      assert v.runs[r := run.(state := Cancelled)] == ViewRuns(db.runs)[r := run.(state := Cancelled)];
      if DeniedEvents(db, r) == [] {
        assert tail == [e];
        OneApplies(v, e);
      } else {
        var i := PendingInterrupt(db.interrupts, r).value;
        var f := ResolvedEvent(i, db.interrupts[i], Denied);
        assert tail == [e, f] || tail == [f, e];
        assert v.runs == v.runs[r := run];
        SettleDeny(v, r, i, e.body, f.body, run);
        TwoApply(v, e, f);
        TwoApply(v, f, e);
      }
    }
  }

  /** A row that replay has not heard of and that needs no warrant. */
  ghost predicate Plain(audit: seq<AuditEvent>, e: AuditEvent) {
    && Lookup(audit, e.id).None? && !e.id.CancelRequestedId? && !e.id.ReopenedId?
    && !(e.id.TaskStateId? && e.id.ts == TaskCompleted)
  }

  ghost predicate PlainRows(audit: seq<AuditEvent>, es: seq<AuditEvent>) {
    DistinctIds(es) && forall k | 0 <= k < |es| :: Plain(audit, es[k])
  }

  lemma CancelTailPlain(db: Db, r: Id, tail: seq<AuditEvent>)
    requires CancelFree(db, r) && r in db.runs && IsActive(db.runs[r].state) && CancelTail(db, r, tail)
    ensures PlainRows(db.audit, tail) && forall k | 0 <= k < |tail| :: !tail[k].id.TaskStateId?
  {
    if db.runs[r].state != Running {
      var e := SettledEvent(r, db.runs[r], Cancelled);
      assert Plain(db.audit, e);
      if DeniedEvents(db, r) != [] {
        var i := PendingInterrupt(db.interrupts, r).value;
        var f := ResolvedEvent(i, db.interrupts[i], Denied);
        assert Plain(db.audit, f);
        assert tail == [e, f] || tail == [f, e];
      } else {
        assert tail == [e];
      }
    }
  }

  lemma CloseTailPlain(audit: seq<AuditEvent>, tail: seq<AuditEvent>, closed: AuditEvent)
    requires PlainRows(audit, tail) && Plain(audit, closed) && closed.id.TaskStateId?
    requires forall k | 0 <= k < |tail| :: !tail[k].id.TaskStateId?
    ensures PlainRows(audit, tail + [closed])
  {}

  /** A repeated cancel request is absorbed by the outbox, and replay already knows it. */
  lemma CancelAbsorbed(db: Db, r: Id, t: Id)
    requires r in db.runs && db.runs[r].cancel
    ensures Apply(Project(db), CancelRequested(r, t)) == Project(db)
  {
    ViewRunsUpdate(db.runs, r, db.runs[r]);
    assert ViewRuns(db.runs)[r := ViewRuns(db.runs)[r].(cancel := true)] == ViewRuns(db.runs);
  }

  /** A cancel request of the run that is on record is still in force. */
  ghost predicate CancelTold(db: Db, r: Id) {
    r in db.runs ==> db.runs[r].cancel || Free(db, CancelRequestedId(r))
  }

  lemma CancelRepeats(db: Db, r: Id)
    requires CancelFree(db, r) && CancelTold(db, r) && r in db.runs && IsActive(db.runs[r].state)
    ensures Free(db, CancelRequestedId(r)) || Repeats(db.audit, Project(db), CancelEvent(r, db.runs[r]))
  {
    if Lookup(db.audit, CancelRequestedId(r)).Some? { CancelAbsorbed(db, r, db.runs[r].task); }
  }

  lemma PrependNew(audit: seq<AuditEvent>, v: View, e: AuditEvent, tail: seq<AuditEvent>)
    requires e.id.CancelRequestedId? && (Lookup(audit, e.id).None? || Repeats(audit, v, e)) && PlainRows(audit, tail)
    ensures NewRows(audit, v, [e] + tail)
  {
    var es := [e] + tail;
    forall k | 1 <= k < |es| ensures Plain(audit, es[k]) { assert es[k] == tail[k - 1]; }
  }

  lemma CancelHeard(db: Db, r: Id, tail: seq<AuditEvent>)
    requires CancelFree(db, r) && CancelTold(db, r) && r in db.runs && IsActive(db.runs[r].state) && PlainRows(db.audit, tail)
    ensures NewRows(db.audit, Project(db), [CancelEvent(r, db.runs[r])] + tail)
  {
    CancelRepeats(db, r);
    PrependNew(db.audit, Project(db), CancelEvent(r, db.runs[r]), tail);
  }

  lemma CancelWarranted(db: Db, mid: Db, r: Id, tail: seq<AuditEvent>)
    requires r in db.runs && r in mid.runs && mid.runs[r].cancel && PlainRows(db.audit, tail)
    ensures AllWarranted(mid, [CancelEvent(r, db.runs[r])] + tail)
  {
    var es := [CancelEvent(r, db.runs[r])] + tail;
    forall k | 0 <= k < |es| ensures Warranted(mid.tasks, mid.runs, es[k]) {
      if k > 0 { assert es[k] == tail[k - 1] && Plain(db.audit, tail[k - 1]); }
    }
  }

  lemma CancelRowsFlags(db: Db, r: Id, reason: Value)
    requires Flags(db) && r in db.runs && IsActive(db.runs[r].state)
    ensures FlagsKept(db, CancelRows(db, r, reason))
    ensures r in CancelRows(db, r, reason).runs && CancelRows(db, r, reason).runs[r].cancel
  {
    RunFlagsKept(db, CancelRows(db, r, reason), r, CancelRows(db, r, reason).runs[r]);
  }

  lemma CancelYields(db: Db, r: Id, reason: Value, tail: seq<AuditEvent>)
    requires r in db.runs && IsActive(db.runs[r].state) && CancelTail(db, r, tail)
    ensures Yields(Project(db), [CancelEvent(r, db.runs[r])] + tail, Project(CancelRows(db, r, reason)))
  {
    assert ([CancelEvent(r, db.runs[r])] + tail)[1..] == tail;
    CancelTailApplies(db, r, reason, tail);
  }

  lemma CancelRowsAudit(db: Db, r: Id, reason: Value)
    requires r in db.runs && IsActive(db.runs[r].state)
    ensures var rows := CancelRows(db, r, reason);
            && rows.audit == db.audit && rows.tasks == db.tasks
            && r in rows.runs && rows.runs == db.runs[r := rows.runs[r]] && rows.runs[r].task == db.runs[r].task
  {}

  lemma CancelRowsActive(db: Db, r: Id, reason: Value, k: Id, a: Id)
    requires r in db.runs && IsActive(db.runs[r].state) && ActiveOn(CancelRows(db, r, reason).runs, k, a)
    ensures ActiveOn(db.runs, k, a)
  {
    CancelRowsAudit(db, r, reason);
  }

  lemma CancelDescribed(db: Db, r: Id, reason: Value, tail: seq<AuditEvent>)
    requires CancelFree(db, r) && CancelTold(db, r) && r in db.runs && IsActive(db.runs[r].state) && CancelTail(db, r, tail)
    ensures Described(db, CancelRows(db, r, reason), [CancelEvent(r, db.runs[r])] + tail)
  {
    CancelRowsAudit(db, r, reason);
    CancelTailPlain(db, r, tail);
    CancelYields(db, r, reason, tail);
    CancelHeard(db, r, tail);
    if Flags(db) {
      CancelRowsFlags(db, r, reason);
      CancelWarranted(db, CancelRows(db, r, reason), r, tail);
    }
  }

  lemma CloseYields(db: Db, r: Id, t: Id, reason: Value, tail: seq<AuditEvent>)
    requires r in db.runs && IsActive(db.runs[r].state) && CancelTail(db, r, tail) && t in db.tasks
    ensures Yields(Project(db), [CancelEvent(r, db.runs[r])] + (tail + [ClosedEvent(t)]),
                   Project(CancelRows(db, r, reason).(tasks := CloseTask(db.tasks, t))))
  {
    var rows := CancelRows(db, r, reason);
    var es := [CancelEvent(r, db.runs[r])] + tail;
    CancelRowsAudit(db, r, reason);
    CancelYields(db, r, reason, tail);
    assert [CancelEvent(r, db.runs[r])] + (tail + [ClosedEvent(t)]) == es + [ClosedEvent(t)];
    ApplyAllConcat(Project(db), es, [ClosedEvent(t)]);
    OneApplies(Project(rows), ClosedEvent(t));
  }

  lemma CloseFlags(db: Db, rows: Db, t: Id, r: Id)
    requires RunsOk(db.tasks, db.runs) && FlagsKept(db, rows) && ActiveOn(db.runs, t, r)
    requires t in db.tasks && db.tasks[t].state == TaskOpen && rows.tasks == db.tasks
    requires r in rows.runs && rows.runs[r].cancel
    requires forall k, a | ActiveOn(rows.runs, k, a) :: ActiveOn(db.runs, k, a)
    ensures FlagsKept(db, rows.(tasks := CloseTask(db.tasks, t)))
  {
    var mid := rows.(tasks := CloseTask(db.tasks, t));
    forall k, a | ActiveOn(mid.runs, k, a) && k in mid.tasks && mid.tasks[k].state == TaskCancelled ensures mid.runs[a].cancel {
      assert ActiveOn(rows.runs, k, a) && ActiveOn(db.runs, k, a);
    }
  }

  /** A transaction may also close the task of the run it cancels. */
  lemma CloseDescribed(db: Db, t: Id, r: Id, reason: Value, tail: seq<AuditEvent>)
    requires CancelFree(db, r) && CancelTold(db, r) && RunsOk(db.tasks, db.runs) && ActiveOn(db.runs, t, r)
    requires Free(db, TaskStateId(t, TaskCancelled)) && t in db.tasks && db.tasks[t].state == TaskOpen && CancelTail(db, r, tail)
    ensures Described(db, CancelRows(db, r, reason).(tasks := CloseTask(db.tasks, t)),
              [CancelEvent(r, db.runs[r])] + (tail + [ClosedEvent(t)]))
  {
    var rows := CancelRows(db, r, reason);
    CancelRowsAudit(db, r, reason);
    CancelTailPlain(db, r, tail);
    CloseTailPlain(db.audit, tail, ClosedEvent(t));
    CancelHeard(db, r, tail + [ClosedEvent(t)]);
    CloseYields(db, r, t, reason, tail);
    if Flags(db) {
      CancelRowsFlags(db, r, reason);
      forall k, a | ActiveOn(rows.runs, k, a) ensures ActiveOn(db.runs, k, a) { CancelRowsActive(db, r, reason, k, a); }
      CloseFlags(db, rows, t, r);
      CancelWarranted(db, rows.(tasks := CloseTask(db.tasks, t)), r, tail + [ClosedEvent(t)]);
    }
  }

  lemma CloseIdleCommits(db: Db, t: Id)
    requires Replayed(db) && t in db.tasks && db.tasks[t].state == TaskOpen && Free(db, TaskStateId(t, TaskCancelled))
    requires ActiveRun(db.runs, t).None?
    ensures Stays(db, CancelTask(db, t))
  {
    OneRowCommits(db, db.(tasks := CloseTask(db.tasks, t)), ClosedEvent(t));
  }

  lemma CloseActiveCommits(db: Db, t: Id, r: Id)
    requires Replayed(db) && RunsOk(db.tasks, db.runs) && CancelFree(db, r) && CancelTold(db, r)
    requires t in db.tasks && db.tasks[t].state == TaskOpen && Free(db, TaskStateId(t, TaskCancelled))
    requires ActiveRun(db.runs, t) == Some(r)
    ensures Stays(db, CancelTask(db, t))
  {
    var run := db.runs[r];
    var reason := Obj(map["reason" := Str("task_cancelled")]);
    var tail := if run.state == Running then [] else DeniedEvents(db, r) + [SettledEvent(r, run, Cancelled)];
    CloseDescribed(db, t, r, reason, tail);
    CommitStays(db, CancelRows(db, r, reason).(tasks := CloseTask(db.tasks, t)), [CancelEvent(r, run)] + (tail + [ClosedEvent(t)]));
    assert [CancelEvent(r, run)] + (tail + [ClosedEvent(t)]) == [CancelEvent(r, run)] + tail + [ClosedEvent(t)];
  }

  lemma RequestCancelCommits(db: Db, r: Id)
    requires Replayed(db) && CancelFree(db, r) && CancelTold(db, r)
    ensures Stays(db, RequestCancel(db, r))
  {
    if r in db.runs && IsActive(db.runs[r].state) {
      var reason := Obj(map["reason" := Str("run_cancelled")]);
      var run := db.runs[r];
      var tail := if run.state == Running then [] else [SettledEvent(r, run, Cancelled)] + DeniedEvents(db, r);
      CancelDescribed(db, r, reason, tail);
      CommitStays(db, CancelRows(db, r, reason), [CancelEvent(r, run)] + tail);
    }
  }

  // -- budgets

  lemma NeutralApplies(v: View, body: AuditBody)
    requires body.BudgetReserved?
    ensures Apply(v, body) == v
  {}

  lemma NeutralRowCommits(db: Db, mid: Db, e: AuditEvent)
    requires Replayed(db) && Free(db, e.id) && e.id.BudgetReservedId? && e.body.BudgetReserved?
    requires mid.tasks == db.tasks && mid.runs == db.runs && mid.interrupts == db.interrupts && mid.audit == db.audit
    ensures Stays(db, Commit(mid, [e]))
  {
    NeutralApplies(Project(db), e.body);
    if Flags(db) { SameTables(db, mid); }
    OneRowCommits(db, mid, e);
  }

  lemma SameTables(db: Db, mid: Db)
    requires Flags(db) && mid.tasks == db.tasks && mid.runs == db.runs
    ensures FlagsKept(db, mid)
  {}
}
