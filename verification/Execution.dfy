/** The durable execution tables (tasks, runs, checkpoints, interrupts, public events,
    the audit outbox and shared budgets) and every transition of the store, each one a
    function from the tables before a transaction to the tables after it.

    A failed guard yields `Err`, and the transaction it stands in is rolled back: the
    tables stay what they were. Clock readings (`now`) are arbitrary arguments. */
module Execution {
  import opened Values

  // -- rows --------------------------------------------------------------

  datatype TaskState = TaskOpen | TaskCompleted | TaskCancelled
  datatype RunState = Pending | Running | Waiting | Completed | Failed | Cancelled
  datatype InterruptState = Asked | Allowed | Denied

  datatype Task = Task(goal: string, workspace: string, state: TaskState)

  datatype Run = Run(
    task: Id, state: RunState, attempt: nat, version: nat,
    token: Option<Id>, expires: Option<real>, cancel: bool,
    result: Option<Value>, error: Option<Value>)

  datatype Checkpoint = Checkpoint(phase: string, state: Value)

  datatype Interrupt = Interrupt(
    run: Id, kind: string, request: Value, state: InterruptState, response: Value)

  datatype AgentEvent = AgentEvent(
    identity: string, sequence: nat, kind: string, iteration: nat, data: Value, at: real)

  datatype Budget = Budget(limits: map<string, real>, spent: map<string, real>)
  datatype Admission = Admission(scope: string, handoff: Id, estimate: map<string, real>)

  // -- the audit outbox --------------------------------------------------

  /** What an audit row is keyed by. */
  datatype AuditId =
    | TaskCreatedId(t: Id)
    | TaskStateId(t: Id, ts: TaskState)
    | RunCreatedId(r: Id)
    | RunClaimedId(r: Id, attempt: nat)
    | LeaseRenewedId(r: Id, attempt: nat, expires: real)
    | CheckpointId(r: Id, version: nat)
    | InterruptAskedId(i: Id)
    | InterruptResolvedId(i: Id)
    | CancelRequestedId(r: Id)
    | RunStateId(r: Id, rs: RunState)
    | ReopenedId(r: Id, attempt: nat)
    | BudgetReservedId(scope: string, handoff: Id)

  /** What an audit row says: its tag and fields. */
  datatype AuditBody =
    | TaskCreated(t: Id, goal: string, workspace: string)
    | TaskClosed(t: Id, ts: TaskState)
    | RunCreated(r: Id, t: Id)
    | RunClaimed(r: Id, t: Id, attempt: nat, expires: real)
    | LeaseRenewed(r: Id, t: Id, attempt: nat, expires: real)
    | CheckpointSaved(r: Id, version: nat, phase: string)
    | InterruptAsked(i: Id, r: Id, kind: string)
    | InterruptResolved(i: Id, r: Id, kind: string, state: InterruptState)
    | CancelRequested(r: Id, t: Id)
    | RunSettled(r: Id, t: Id, rs: RunState, version: nat)
    | RunFailed(r: Id, t: Id, version: nat, error: Value)
    | RunReopened(r: Id, t: Id, evidence: Value)
    | BudgetReserved(scope: string, handoff: Id, estimate: map<string, real>)

  datatype AuditEvent = AuditEvent(id: AuditId, body: AuditBody)

  function Lookup(audit: seq<AuditEvent>, id: AuditId): Option<AuditBody> {
    if audit == [] then None
    else if audit[|audit| - 1].id == id then Some(audit[|audit| - 1].body)
    else Lookup(audit[..|audit| - 1], id)
  }

  /** `_record_audit_event`: a new identity appends a row, a repeated identity with equal
      data appends nothing, and a repeated identity with other data is an error. */
  function Record(audit: seq<AuditEvent>, e: AuditEvent): (r: Option<seq<AuditEvent>>)
    ensures r.Some? <==> Lookup(audit, e.id) in {None, Some(e.body)}
    ensures r.Some? ==> audit <= r.value
    ensures r.Some? ==> forall id :: Lookup(r.value, id) == if id == e.id then Some(e.body) else Lookup(audit, id)
  {
    match Lookup(audit, e.id)
    case Some(body) => if body == e.body then Some(audit) else None
    case None =>
      assert (audit + [e])[..|audit|] == audit;
      Some(audit + [e])
  }

  function RecordAll(audit: seq<AuditEvent>, es: seq<AuditEvent>): Option<seq<AuditEvent>>
    decreases |es|
  {
    if es == [] then Some(audit)
    else match Record(audit, es[0])
      case None => None
      case Some(next) => RecordAll(next, es[1..])
  }

  // -- the tables --------------------------------------------------------

  datatype Db = Db(
    tasks: map<Id, Task>,
    runs: map<Id, Run>,
    checkpoints: map<(Id, nat), Checkpoint>,
    interrupts: map<Id, Interrupt>,
    events: map<Id, seq<AgentEvent>>,
    budgets: map<string, Budget>,
    admissions: seq<Admission>,
    audit: seq<AuditEvent>)

  const EMPTY_DB := Db(map[], map[], map[], map[], map[], map[], [], [])

  datatype Error =
    | Missing           // KeyError
    | BadArgument       // ValueError / TypeError
    | LeaseLost         // ExecutionLeaseError
    | WrongState        // ExecutionStateError
    | VersionConflict   // CheckpointConflict
    | AuditClash        // an audit identity was reused with different data
    | UniqueIndex       // sqlite3.IntegrityError that no transition translates

  predicate IsActive(s: RunState) { s in {Pending, Running, Waiting} }

  predicate ActiveOn(runs: map<Id, Run>, t: Id, r: Id) {
    r in runs && runs[r].task == t && IsActive(runs[r].state)
  }

  predicate PendingOn(interrupts: map<Id, Interrupt>, r: Id, i: Id) {
    i in interrupts && interrupts[i].run == r && interrupts[i].state == Asked
  }

  /** The active run that the partial unique index on `task_id` allows at most one of. */
  ghost function ActiveRun(runs: map<Id, Run>, t: Id): (found: Option<Id>)
    ensures found.Some? ==> ActiveOn(runs, t, found.value)
    ensures found.None? ==> forall r :: !ActiveOn(runs, t, r)
  {
    if r :| ActiveOn(runs, t, r) then Some(r) else None
  }

  /** The pending interrupt that the partial unique index on `run_id` allows at most one of. */
  ghost function PendingInterrupt(interrupts: map<Id, Interrupt>, r: Id): (found: Option<Id>)
    ensures found.Some? ==> PendingOn(interrupts, r, found.value)
    ensures found.None? ==> forall i :: !PendingOn(interrupts, r, i)
  {
    if i :| PendingOn(interrupts, r, i) then Some(i) else None
  }

  /** `_require_lease`: the run is RUNNING under this token and the lease has not expired. */
  predicate Owns(db: Db, r: Id, token: Id, now: real) {
    && r in db.runs
    && db.runs[r].state == Running
    && db.runs[r].token == Some(token)
    && db.runs[r].expires.Some?
    && now < db.runs[r].expires.value
  }

  function LeaseError(db: Db, r: Id): Error { if r in db.runs then LeaseLost else Missing }

  /** End of a transaction: append its audit rows or roll back. */
  function Commit(db: Db, es: seq<AuditEvent>): Result<Db, Error> {
    match RecordAll(db.audit, es)
    case None => Err(AuditClash)
    case Some(audit) => Ok(db.(audit := audit))
  }

  function Release(run: Run, s: RunState): Run { run.(state := s, token := None, expires := None) }

  function SettledEvent(r: Id, run: Run, s: RunState): AuditEvent {
    AuditEvent(RunStateId(r, s), RunSettled(r, run.task, s, run.version))
  }

  function CancelEvent(r: Id, run: Run): AuditEvent {
    AuditEvent(CancelRequestedId(r), CancelRequested(r, run.task))
  }

  function ResolvedEvent(i: Id, row: Interrupt, s: InterruptState): AuditEvent {
    AuditEvent(InterruptResolvedId(i), InterruptResolved(i, row.run, row.kind, s))
  }

  // -- tasks and runs ----------------------------------------------------

  function CreateTask(db: Db, t: Id, goal: string, workspace: string): Result<Db, Error> {
    if goal == "" then Err(BadArgument)
    else if t in db.tasks then Err(WrongState)
    else Commit(db.(tasks := db.tasks[t := Task(goal, workspace, TaskOpen)]),
                [AuditEvent(TaskCreatedId(t), TaskCreated(t, goal, workspace))])
  }

  ghost function CreateRun(db: Db, t: Id, r: Id): Result<Db, Error> {
    if t !in db.tasks then Err(Missing)
    else if db.tasks[t].state != TaskOpen then Err(WrongState)
    else if r in db.runs || (exists a :: ActiveOn(db.runs, t, a)) then Err(WrongState)
    else Commit(db.(runs := db.runs[r := Run(t, Pending, 0, 0, None, None, false, None, None)]),
                [AuditEvent(RunCreatedId(r), RunCreated(r, t))])
  }

  predicate Claimable(run: Run, now: real) {
    || (run.state == Pending && !run.cancel)
    || (run.state == Running && run.expires.Some? && run.expires.value <= now)
  }

  function ClaimRun(db: Db, r: Id, token: Id, seconds: real, now: real): Result<Db, Error> {
    if seconds <= 0.0 then Err(BadArgument)
    else if r !in db.runs || !Claimable(db.runs[r], now) then Err(LeaseError(db, r))
    else
      var run := db.runs[r].(state := Running, attempt := db.runs[r].attempt + 1,
                             token := Some(token), expires := Some(now + seconds));
      Commit(db.(runs := db.runs[r := run]),
             [AuditEvent(RunClaimedId(r, run.attempt), RunClaimed(r, run.task, run.attempt, now + seconds))])
  }

  function RenewLease(db: Db, r: Id, token: Id, seconds: real, now: real): Result<Db, Error> {
    if seconds <= 0.0 then Err(BadArgument)
    else if !Owns(db, r, token, now) then Err(LeaseError(db, r))
    else
      var run := db.runs[r].(expires := Some(now + seconds));
      Commit(db.(runs := db.runs[r := run]),
             [AuditEvent(LeaseRenewedId(r, run.attempt, now + seconds),
                         LeaseRenewed(r, run.task, run.attempt, now + seconds))])
  }

  // -- checkpoints and interrupts ----------------------------------------

  function SaveCheckpoint(db: Db, r: Id, token: Id, expected: nat, cp: Checkpoint, now: real): Result<Db, Error> {
    if cp.phase == "" || !cp.state.Obj? then Err(BadArgument)
    else if !Owns(db, r, token, now) then Err(LeaseError(db, r))
    else if db.runs[r].version != expected then Err(VersionConflict)
    else if (r, expected + 1) in db.checkpoints then Err(UniqueIndex)
    else Commit(db.(checkpoints := db.checkpoints[(r, expected + 1) := cp],
                    runs := db.runs[r := db.runs[r].(version := expected + 1)]),
                [AuditEvent(CheckpointId(r, expected + 1), CheckpointSaved(r, expected + 1, cp.phase))])
  }

  ghost function SuspendRefusal(db: Db, r: Id, token: Id, expected: nat, cp: Checkpoint,
                                i: Id, kind: string, request: Value, now: real): Option<Error>
  {
    if kind == "" || cp.phase == "" || !cp.state.Obj? || !request.Obj? then Some(BadArgument)
    else if !Owns(db, r, token, now) then Some(LeaseError(db, r))
    else if db.runs[r].version != expected then Some(VersionConflict)
    else if (r, expected + 1) in db.checkpoints || i in db.interrupts || (exists j :: PendingOn(db.interrupts, r, j)) then
      Some(WrongState)
    else None
  }

  /** What a suspension writes: the checkpoint, the interrupt and the waiting run. */
  function Suspended(db: Db, r: Id, cp: Checkpoint, i: Id, row: Interrupt): Db
    requires r in db.runs
  {
    var v := db.runs[r].version + 1;
    db.(checkpoints := db.checkpoints[(r, v) := cp], interrupts := db.interrupts[i := row],
        runs := db.runs[r := Release(db.runs[r], Waiting).(version := v)])
  }

  ghost function Suspend(db: Db, r: Id, token: Id, expected: nat, cp: Checkpoint,
                         i: Id, kind: string, request: Value, now: real): Result<Db, Error>
  {
    match SuspendRefusal(db, r, token, expected, cp, i, kind, request, now)
    case Some(e) => Err(e)
    case None =>
      Commit(Suspended(db, r, cp, i, Interrupt(r, kind, request, Asked, Null)),
             [AuditEvent(CheckpointId(r, expected + 1), CheckpointSaved(r, expected + 1, cp.phase)),
              AuditEvent(InterruptAskedId(i), InterruptAsked(i, r, kind))])
  }

  /** What resolving a pending interrupt writes. */
  function Resolved(db: Db, i: Id, allow: bool, response: Value): Db
    requires i in db.interrupts && db.interrupts[i].run in db.runs
  {
    var row := db.interrupts[i];
    db.(interrupts := db.interrupts[i := row.(state := if allow then Allowed else Denied, response := response)],
        runs := db.runs[row.run := db.runs[row.run].(state := if allow then Pending else Cancelled)])
  }

  function ResolveEvents(db: Db, i: Id, allow: bool): seq<AuditEvent>
    requires i in db.interrupts && db.interrupts[i].run in db.runs
  {
    var row := db.interrupts[i];
    if allow then [ResolvedEvent(i, row, Allowed)]
    else [ResolvedEvent(i, row, Denied), SettledEvent(row.run, db.runs[row.run], Cancelled)]
  }

  /** The interrupt is pending and its run waits for it. */
  predicate Resolvable(db: Db, i: Id) {
    && i in db.interrupts && db.interrupts[i].state == Asked
    && db.interrupts[i].run in db.runs && db.runs[db.interrupts[i].run].state == Waiting
  }

  function ResolveInterrupt(db: Db, i: Id, allow: bool, response: Value): Result<Db, Error> {
    if i !in db.interrupts then Err(Missing)
    else
      var row := db.interrupts[i];
      if row.state != Asked then
        if row.state == (if allow then Allowed else Denied) && row.response == response then Ok(db) else Err(WrongState)
      else if !Resolvable(db, i) then Err(WrongState)
      else Commit(Resolved(db, i, allow, response), ResolveEvents(db, i, allow))
  }

  // -- terminal transitions and cancellation -----------------------------

  function CompleteRun(db: Db, r: Id, token: Id, result: Value, now: real): Result<Db, Error> {
    if !Owns(db, r, token, now) then Err(LeaseError(db, r))
    else if db.runs[r].cancel then Err(WrongState)
    else
      var run := db.runs[r];
      var t := run.task;
      var tasks := if t in db.tasks && db.tasks[t].state == TaskOpen
                   then db.tasks[t := db.tasks[t].(state := TaskCompleted)] else db.tasks;
      Commit(db.(runs := db.runs[r := Release(run, Completed).(result := Some(result))], tasks := tasks),
             [SettledEvent(r, run, Completed),
              AuditEvent(TaskStateId(t, TaskCompleted), TaskClosed(t, TaskCompleted))])
  }

  function FailedEvent(r: Id, run: Run, error: Value): AuditEvent {
    AuditEvent(RunStateId(r, Failed), RunFailed(r, run.task, run.version, error))
  }

  function FailRun(db: Db, r: Id, token: Id, error: Value, now: real): Result<Db, Error> {
    if !error.Obj? then Err(BadArgument)
    else if !Owns(db, r, token, now) then Err(LeaseError(db, r))
    else Commit(db.(runs := db.runs[r := Release(db.runs[r], Failed).(error := Some(error))]),
                [FailedEvent(r, db.runs[r], error)])
  }

  predicate Recoverable(run: Run) {
    run.state == Failed && run.error.Some? && Get(run.error.value, "recovery_required") == Bool(true)
  }

  /** What a reopen writes: a pending, unflagged run, and a completed task open again. */
  function Reopened(db: Db, r: Id): Db
    requires r in db.runs
  {
    var run := db.runs[r];
    db.(runs := db.runs[r := run.(state := Pending, error := None, cancel := false)],
        tasks := if run.task in db.tasks && db.tasks[run.task].state == TaskCompleted
                 then db.tasks[run.task := db.tasks[run.task].(state := TaskOpen)] else db.tasks)
  }

  function ReopenedEvent(r: Id, run: Run, evidence: Value): AuditEvent {
    AuditEvent(ReopenedId(r, run.attempt), RunReopened(r, run.task, evidence))
  }

  ghost function ReopenUncertain(db: Db, r: Id, evidence: Value): Result<Db, Error> {
    if !Get(evidence, "observation").Str? || Get(evidence, "observation").s == "" then Err(BadArgument)
    else if r !in db.runs then Err(Missing)
    else if !Recoverable(db.runs[r]) then Err(WrongState)
    else if exists a :: ActiveOn(db.runs, db.runs[r].task, a) then Err(UniqueIndex)
    else Commit(Reopened(db, r), [ReopenedEvent(r, db.runs[r], evidence)])
  }

  /** What cancelling does to an active run: a RUNNING run is only flagged, any other run
      is cancelled at once. */
  function CancelledRun(run: Run): Run {
    if run.state == Running then run.(cancel := true) else Release(run, Cancelled).(cancel := true)
  }

  /** Cancelling a waiting run denies the interrupt it waits for. */
  ghost function DenyPending(db: Db, r: Id, reason: Value): map<Id, Interrupt>
    requires r in db.runs
  {
    match PendingInterrupt(db.interrupts, r)
    case Some(i) =>
      if db.runs[r].state == Waiting
      then db.interrupts[i := db.interrupts[i].(state := Denied, response := reason)]
      else db.interrupts
    case None => db.interrupts
  }

  ghost function CancelRows(db: Db, r: Id, reason: Value): Db
    requires r in db.runs
  {
    db.(runs := db.runs[r := CancelledRun(db.runs[r])], interrupts := DenyPending(db, r, reason))
  }

  /** The audit rows of the denied interrupt, if cancelling `r` denies one. */
  ghost function DeniedEvents(db: Db, r: Id): seq<AuditEvent>
    requires r in db.runs
  {
    match PendingInterrupt(db.interrupts, r)
    case Some(i) =>
      if db.runs[r].state == Waiting then [ResolvedEvent(i, db.interrupts[i], Denied)] else []
    case None => []
  }

  /** The audit rows of `request_cancel` on an active run, in the order it records them. */
  ghost function RequestCancelEvents(db: Db, r: Id): seq<AuditEvent>
    requires r in db.runs
  {
    [CancelEvent(r, db.runs[r])] +
    if db.runs[r].state == Running then [] else [SettledEvent(r, db.runs[r], Cancelled)] + DeniedEvents(db, r)
  }

  ghost function RequestCancel(db: Db, r: Id): Result<Db, Error> {
    if r !in db.runs then Err(Missing)
    else if !IsActive(db.runs[r].state) then Ok(db)
    else Commit(CancelRows(db, r, Obj(map["reason" := Str("run_cancelled")])), RequestCancelEvents(db, r))
  }

  function FinishCancelled(db: Db, r: Id, token: Id, now: real): Result<Db, Error> {
    if !Owns(db, r, token, now) then Err(LeaseError(db, r))
    else if !db.runs[r].cancel then Err(WrongState)
    else Commit(db.(runs := db.runs[r := Release(db.runs[r], Cancelled)]),
                [SettledEvent(r, db.runs[r], Cancelled)])
  }

  function ClosedEvent(t: Id): AuditEvent { AuditEvent(TaskStateId(t, TaskCancelled), TaskClosed(t, TaskCancelled)) }

  function CloseTask(tasks: map<Id, Task>, t: Id): map<Id, Task>
    requires t in tasks
  {
    tasks[t := tasks[t].(state := TaskCancelled)]
  }

  /** The audit rows of `cancel_task` when the task has the active run `r`. */
  ghost function CancelTaskEvents(db: Db, t: Id, r: Id): seq<AuditEvent>
    requires r in db.runs
  {
    [CancelEvent(r, db.runs[r])] +
    (if db.runs[r].state == Running then [] else DeniedEvents(db, r) + [SettledEvent(r, db.runs[r], Cancelled)]) +
    [ClosedEvent(t)]
  }

  ghost function CancelTask(db: Db, t: Id): Result<Db, Error> {
    if t !in db.tasks then Err(Missing)
    else match db.tasks[t].state
      case TaskCancelled => Ok(db)
      case TaskCompleted => Err(WrongState)
      case TaskOpen =>
        var tasks := CloseTask(db.tasks, t);
        match ActiveRun(db.runs, t)
        case None => Commit(db.(tasks := tasks), [ClosedEvent(t)])
        case Some(r) =>
          Commit(CancelRows(db, r, Obj(map["reason" := Str("task_cancelled")])).(tasks := tasks), CancelTaskEvents(db, t, r))
  }

  // -- public events -----------------------------------------------------

  function EventsOf(db: Db, r: Id): seq<AgentEvent> { if r in db.events then db.events[r] else [] }

  /** `SELECT COALESCE(MAX(sequence),0)`. */
  function LastSequence(es: seq<AgentEvent>): nat {
    if es == [] then 0 else Max(es[|es| - 1].sequence, LastSequence(es[..|es| - 1]))
  }

  function FindEvent(es: seq<AgentEvent>, identity: string): Option<AgentEvent> {
    if es == [] then None
    else if es[|es| - 1].identity == identity then Some(es[|es| - 1])
    else FindEvent(es[..|es| - 1], identity)
  }

  function AppendEvent(db: Db, r: Id, identity: string, kind: string, iteration: nat, data: Value, at: real)
    : Result<Db, Error>
  {
    if identity == "" || kind == "" || !data.Obj? then Err(BadArgument)
    else if r !in db.runs then Err(Missing)
    else
      var es := EventsOf(db, r);
      match FindEvent(es, identity)
      case Some(e) =>
        if e.kind == kind && e.iteration == iteration && e.data == data then Ok(db) else Err(WrongState)
      case None =>
        Ok(db.(events := db.events[r := es + [AgentEvent(identity, LastSequence(es) + 1, kind, iteration, data, at)]]))
  }

  /** `agent_events(after=...)`: the persisted events strictly after a cursor, in table order. */
  function EventsAfter(es: seq<AgentEvent>, after: nat): seq<AgentEvent> {
    if es == [] then []
    else EventsAfter(es[..|es| - 1], after) + if es[|es| - 1].sequence > after then [es[|es| - 1]] else []
  }

  // -- shared budgets ----------------------------------------------------

  predicate NonNegative(m: map<string, real>) { forall b | b in m :: m[b] >= 0.0 }

  function Amount(m: map<string, real>, b: string): real { if b in m then m[b] else 0.0 }

  function AddSpend(spent: map<string, real>, estimate: map<string, real>): map<string, real> {
    map b | b in spent.Keys + estimate.Keys :: Amount(spent, b) + Amount(estimate, b)
  }

  predicate Fits(budget: Budget, estimate: map<string, real>) {
    forall b | b in estimate :: b in budget.limits && Amount(budget.spent, b) + estimate[b] <= budget.limits[b]
  }

  function FindAdmission(rows: seq<Admission>, scope: string, handoff: Id): Option<map<string, real>> {
    if rows == [] then None
    else
      var last := rows[|rows| - 1];
      if last.scope == scope && last.handoff == handoff then Some(last.estimate)
      else FindAdmission(rows[..|rows| - 1], scope, handoff)
  }

  function ConfigureBudget(db: Db, scope: string, limits: map<string, real>): Result<Db, Error> {
    if !NonNegative(limits) || scope == "" then Err(BadArgument)
    else if scope !in db.budgets then Ok(db.(budgets := db.budgets[scope := Budget(limits, map[])]))
    else if db.budgets[scope].limits == limits then Ok(db)
    else Err(WrongState)
  }

  /** What admitting a handoff writes. */
  function Reserved(db: Db, scope: string, handoff: Id, estimate: map<string, real>): Db
    requires scope in db.budgets
  {
    var budget := db.budgets[scope];
    db.(admissions := db.admissions + [Admission(scope, handoff, estimate)],
        budgets := db.budgets[scope := budget.(spent := AddSpend(budget.spent, estimate))])
  }

  function ReservedEvent(scope: string, handoff: Id, estimate: map<string, real>): AuditEvent {
    AuditEvent(BudgetReservedId(scope, handoff), BudgetReserved(scope, handoff, estimate))
  }

  function ReserveBudget(db: Db, scope: string, handoff: Id, estimate: map<string, real>): Result<Db, Error> {
    if scope == "" || !NonNegative(estimate) then Err(BadArgument)
    else if scope !in db.budgets then Err(WrongState)
    else match FindAdmission(db.admissions, scope, handoff)
      case Some(prior) => if prior == estimate then Ok(db) else Err(WrongState)
      case None =>
        if !Fits(db.budgets[scope], estimate) then Err(WrongState)
        else Commit(Reserved(db, scope, handoff, estimate), [ReservedEvent(scope, handoff, estimate)])
  }

  /** A reservation is refused, repeats an admission, or admits a new handoff that fits. */
  predicate ReserveCase(s: Result<Db, Error>, db: Db, scope: string, handoff: Id, estimate: map<string, real>) {
    || s.Err?
    || s == Ok(db)
    || (&& scope in db.budgets && NonNegative(estimate) && Fits(db.budgets[scope], estimate)
        && FindAdmission(db.admissions, scope, handoff).None?
        && s == Commit(Reserved(db, scope, handoff, estimate), [ReservedEvent(scope, handoff, estimate)]))
  }

  lemma ReserveCases(db: Db, scope: string, handoff: Id, estimate: map<string, real>)
    ensures ReserveCase(ReserveBudget(db, scope, handoff, estimate), db, scope, handoff, estimate)
  {}

  // -- histories ---------------------------------------------------------

  datatype Op =
    | OpCreateTask(t: Id, goal: string, workspace: string)
    | OpCreateRun(t: Id, r: Id)
    | OpClaim(r: Id, token: Id, seconds: real, now: real)
    | OpRenew(r: Id, token: Id, seconds: real, now: real)
    | OpSave(r: Id, token: Id, expected: nat, cp: Checkpoint, now: real)
    | OpSuspend(r: Id, token: Id, expected: nat, cp: Checkpoint, i: Id, kind: string, request: Value, now: real)
    | OpResolve(i: Id, allow: bool, response: Value)
    | OpComplete(r: Id, token: Id, result: Value, now: real)
    | OpFail(r: Id, token: Id, error: Value, now: real)
    | OpReopen(r: Id, evidence: Value)
    | OpRequestCancel(r: Id)
    | OpFinishCancelled(r: Id, token: Id, now: real)
    | OpCancelTask(t: Id)
    | OpAppendEvent(r: Id, identity: string, kind: string, iteration: nat, data: Value, at: real)
    | OpConfigure(scope: string, limits: map<string, real>)
    | OpReserve(scope: string, handoff: Id, estimate: map<string, real>)

  /** The calls that carry a lease token or issue one. */
  predicate LeaseOp(op: Op) {
    op.OpClaim? || op.OpRenew? || op.OpSave? || op.OpSuspend? || op.OpComplete? || op.OpFail? || op.OpFinishCancelled?
  }

  ghost function Step(db: Db, op: Op): Result<Db, Error> {
    match op
    case OpCreateTask(t, goal, workspace) => CreateTask(db, t, goal, workspace)
    case OpCreateRun(t, r) => CreateRun(db, t, r)
    case OpClaim(r, token, seconds, now) => ClaimRun(db, r, token, seconds, now)
    case OpRenew(r, token, seconds, now) => RenewLease(db, r, token, seconds, now)
    case OpSave(r, token, expected, cp, now) => SaveCheckpoint(db, r, token, expected, cp, now)
    case OpSuspend(r, token, expected, cp, i, kind, request, now) =>
      Suspend(db, r, token, expected, cp, i, kind, request, now)
    case OpResolve(i, allow, response) => ResolveInterrupt(db, i, allow, response)
    case OpComplete(r, token, result, now) => CompleteRun(db, r, token, result, now)
    case OpFail(r, token, error, now) => FailRun(db, r, token, error, now)
    case OpReopen(r, evidence) => ReopenUncertain(db, r, evidence)
    case OpRequestCancel(r) => RequestCancel(db, r)
    case OpFinishCancelled(r, token, now) => FinishCancelled(db, r, token, now)
    case OpCancelTask(t) => CancelTask(db, t)
    case OpAppendEvent(r, identity, kind, iteration, data, at) => AppendEvent(db, r, identity, kind, iteration, data, at)
    case OpConfigure(scope, limits) => ConfigureBudget(db, scope, limits)
    case OpReserve(scope, handoff, estimate) => ReserveBudget(db, scope, handoff, estimate)
  }

  /** One call on the store: a refused call leaves every table as it was. */
  ghost function After(db: Db, op: Op): Db {
    match Step(db, op)
    case Ok(next) => next
    case Err(_) => db
  }

  ghost function Exec(db: Db, ops: seq<Op>): Db {
    if ops == [] then db else After(Exec(db, ops[..|ops| - 1]), ops[|ops| - 1])
  }
}
