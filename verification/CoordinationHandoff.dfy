/** Handoffs of a composed strategy on the execution store: stable identities, the claim
    protocol, and any number of interleaved attempts at one `sequential` call. */
module CoordinationHandoff {
  import opened Values
  import opened Execution
  import opened ExecutionFrames
  import opened ExecutionSettlement

  datatype MemberInfo = MemberInfo(version: string, capabilities: seq<string>, redeliverySafe: bool)

  /** The arguments of one `sequential` call and the registrations it meets. `digest` is the
      fingerprint of a request and `goalOf` the text made of it. */
  datatype Setup = Setup(
    coordination: string, sender: string, names: seq<string>, payload: Value, workspace: string,
    members: map<string, MemberInfo>, digest: Value -> string, goalOf: (Id, string) -> string)

  ghost predicate SetupOk(s: Setup) {
    s.names != [] && forall k | 0 <= k < |s.names| :: s.names[k] in s.members
  }

  // -- identities ------------------------------------------------------------------

  /** Neither payload nor metadata is part of a handoff's identity. */
  function HandoffId(coordination: string, sequence: nat, sender: string, recipient: string, parent: Id): Id {
    Digest("handoff", Digest(coordination, Digest(sender, Digest(recipient, parent, 0, 0), 0, 0), 0, 0), sequence, 0)
  }

  function SenderOf(s: Setup, k: nat): string
    requires k < |s.names|
  {
    if k == 0 then s.sender else s.names[k - 1]
  }

  /** The handoff of step `k`; its parent is the handoff of the step before. */
  function StepId(s: Setup, k: nat): Id
    requires k < |s.names|
  {
    HandoffId(s.coordination, k, SenderOf(s, k), s.names[k], if k == 0 then Text("") else StepId(s, k - 1))
  }

  function TaskId(h: Id): Id { Digest("coord_task", h, 0, 0) }

  function RunId(h: Id): Id { Digest("coord_run", h, 0, 0) }

  function Texts(xs: seq<string>): seq<Value> { seq(|xs|, i requires 0 <= i < |xs| => Str(xs[i])) }

  /** Everything a handoff asks for, with the registration of its recipient. */
  function Request(s: Setup, k: nat, payload: Value): Value
    requires SetupOk(s) && k < |s.names|
  {
    var info := s.members[s.names[k]];
    Obj(map["version" := Int(1), "id" := Name(StepId(s, k)), "coordination_id" := Str(s.coordination),
            "sender" := Str(SenderOf(s, k)), "recipient" := Str(s.names[k]), "payload" := payload,
            "sequence" := Int(k), "parent_id" := if k == 0 then Null else Name(StepId(s, k - 1)),
            "metadata" := Obj(map[]),
            "member" := Obj(map["name" := Str(s.names[k]), "version" := Str(info.version),
                                "capabilities" := List(Texts(info.capabilities))])])
  }

  function Fingerprint(s: Setup, k: nat, payload: Value): string
    requires SetupOk(s) && k < |s.names|
  {
    s.digest(Request(s, k, payload))
  }

  function GoalOf(s: Setup, k: nat, payload: Value): string
    requires SetupOk(s) && k < |s.names|
  {
    s.goalOf(StepId(s, k), Fingerprint(s, k, payload))
  }

  /** The durable result of a completed handoff. */
  function Encoded(h: Id, fingerprint: string, value: Value): Value {
    Obj(map["coordination_version" := Int(1), "envelope_id" := Name(h),
            "request_fingerprint" := Str(fingerprint), "value" := value])
  }

  // -- claiming a handoff -------------------------------------------------------------

  datatype Outcome =
    | Claimed
    | Replay(value: Value)
    | IdentityConflict      // CoordinationIdentityConflict
    | BadResult             // CoordinationResultError
    | MemberFailed          // HandoffExecutionError
    | WasCancelled          // RunCancelled
    | RecoveryRequired      // CoordinationRecoveryRequired
    | Busy                  // CoordinationBusy
    | Refused               // an error of the store itself
    | Died                  // the process is gone

  /** `_replayed_outcome` for a member that is not a durable agent. */
  function Replayed(h: Id, fingerprint: string, result: Option<Value>): Outcome {
    if result.None? || !result.value.Obj? then BadResult
    else if Get(result.value, "coordination_version") != Int(1) || Get(result.value, "envelope_id") != Name(h)
            || Get(result.value, "request_fingerprint") != Str(fingerprint) || "value" !in result.value.fields
    then IdentityConflict
    else Replay(Get(result.value, "value"))
  }

  /** The task of a handoff, created by whoever comes first. */
  ghost function WithTask(db: Db, h: Id, goal: string, workspace: string): Db {
    if TaskId(h) in db.tasks then db else After(db, OpCreateTask(TaskId(h), goal, workspace))
  }

  ghost function WithRun(db: Db, h: Id): Db {
    if RunId(h) in db.runs then db else After(db, OpCreateRun(TaskId(h), RunId(h)))
  }

  /** `_finish_cancelled`: flags the run and, where it is running under this token, ends it. */
  ghost function Settled(db: Db, r: Id, token: Id, now: real): Db {
    match Step(db, OpRequestCancel(r))
    case Err(_) => db
    case Ok(next) => After(next, OpFinishCancelled(r, token, now))
  }

  /** What the state of the handoff's run answers before any claim is tried. */
  function Answer(run: Run, h: Id, fingerprint: string, safe: bool, now: real): Option<Outcome> {
    match run.state
    case Completed => Some(Replayed(h, fingerprint, run.result))
    case Failed => Some(MemberFailed)
    case Cancelled => Some(WasCancelled)
    case Waiting => Some(RecoveryRequired)
    case Running =>
      if run.expires.None? || run.expires.value > now then Some(Busy)
      else if !run.cancel && !safe then Some(RecoveryRequired)
      else None
    case Pending => None
  }

  ghost function Take(db: Db, r: Id, token: Id, seconds: real, now: real): (Db, Outcome) {
    match Step(db, OpClaim(r, token, seconds, now))
    case Err(e) => (db, if e == LeaseLost then Busy else Refused)
    case Ok(next) => if r in next.runs && next.runs[r].cancel then (Settled(next, r, token, now), WasCancelled) else (next, Claimed)
  }

  /** `_claim_handoff` as one atomic step, and the replay of a completed handoff. */
  ghost function Claim(db: Db, h: Id, goal: string, workspace: string, fingerprint: string, safe: bool,
                       token: Id, seconds: real, now: real): (Db, Outcome)
  {
    var d := WithTask(db, h, goal, workspace);
    if TaskId(h) !in d.tasks then (d, Refused)
    else if d.tasks[TaskId(h)].goal != goal || d.tasks[TaskId(h)].workspace != workspace then (d, IdentityConflict)
    else
      var e := WithRun(d, h);
      if RunId(h) !in e.runs then (e, Refused)
      else if e.runs[RunId(h)].task != TaskId(h) then (e, IdentityConflict)
      else AnswerOrTake(e, h, fingerprint, safe, token, seconds, now)
  }

  ghost function AnswerOrTake(db: Db, h: Id, fingerprint: string, safe: bool, token: Id, seconds: real, now: real)
    : (Db, Outcome)
    requires RunId(h) in db.runs
  {
    match Answer(db.runs[RunId(h)], h, fingerprint, safe, now)
    case Some(answer) => (db, answer)
    case None => Take(db, RunId(h), token, seconds, now)
  }

  // -- interleaved attempts --------------------------------------------------------------

  datatype Pc = Ready | Calling(token: Id) | Finished | Stopped(why: Outcome)

  /** One attempt: the values obtained so far and where it stands. */
  datatype Attempt = Attempt(outcomes: seq<Value>, pc: Pc)

  /** A member's handler was invoked for a step with a payload. */
  datatype Call = Call(k: nat, payload: Value)

  datatype World = World(db: Db, attempts: map<nat, Attempt>, calls: seq<Call>)

  /** `current`: the payload of the next handoff. */
  function Current(s: Setup, outcomes: seq<Value>): Value {
    if outcomes == [] then s.payload else outcomes[|outcomes| - 1]
  }

  datatype Move =
    | Begin(a: nat)
    | Dispatch(a: nat, token: Id, seconds: real, now: real)
    | Return(a: nat, value: Value, now: real)         // the handler returned
    | Raise(a: nat, kind: string, now: real)          // the handler raised an exception of this type
    | GiveUp(a: nat, now: real)                       // cancelled or past its deadline while calling
    | Crash(a: nat)
    | Elsewhere(op: Op)                               // any other call on the same store

  function Put(w: World, a: nat, x: Attempt): World { w.(attempts := w.attempts[a := x]) }

  /** After a value was obtained the attempt goes on or is finished. */
  function Advanced(s: Setup, outcomes: seq<Value>, value: Value): Attempt {
    Attempt(outcomes + [value], if |outcomes| + 1 == |s.names| then Finished else Ready)
  }

  ghost function DoDispatch(s: Setup, w: World, a: nat, token: Id, seconds: real, now: real): World
    requires SetupOk(s) && a in w.attempts && |w.attempts[a].outcomes| < |s.names|
  {
    var outcomes := w.attempts[a].outcomes;
    var k := |outcomes|;
    var payload := Current(s, outcomes);
    var (db, outcome) := Claim(w.db, StepId(s, k), GoalOf(s, k, payload), s.workspace, Fingerprint(s, k, payload),
                               s.members[s.names[k]].redeliverySafe, token, seconds, now);
    match outcome
    case Claimed => World(db, w.attempts[a := Attempt(outcomes, Calling(token))], w.calls + [Call(k, payload)])
    case Replay(value) => Put(w.(db := db), a, Advanced(s, outcomes, value))
    case _ => Put(w.(db := db), a, Attempt(outcomes, Stopped(outcome)))
  }

  ghost function DoReturn(s: Setup, w: World, a: nat, value: Value, now: real): World
    requires SetupOk(s) && a in w.attempts && w.attempts[a].pc.Calling? && |w.attempts[a].outcomes| < |s.names|
  {
    var x := w.attempts[a];
    var k := |x.outcomes|;
    var h := StepId(s, k);
    match Step(w.db, OpComplete(RunId(h), x.pc.token, Encoded(h, Fingerprint(s, k, Current(s, x.outcomes)), value), now))
    case Ok(db) => Put(w.(db := db), a, Advanced(s, x.outcomes, value))
    case Err(LeaseLost) => DoLeave(s, w, a, w.db, RecoveryRequired)
    case Err(e) =>
      if e == WrongState && RunId(h) in w.db.runs && w.db.runs[RunId(h)].cancel
      then DoLeave(s, w, a, Settled(w.db, RunId(h), x.pc.token, now), WasCancelled)
      else DoLeave(s, w, a, FailClaimed(w.db, RunId(h), x.pc.token, "ExecutionStateError", now), MemberFailed)
  }

  /** `_fail_claimed`: a refusal by the store is ignored. */
  ghost function FailClaimed(db: Db, r: Id, token: Id, kind: string, now: real): Db {
    After(db, OpFail(r, token, Obj(map["type" := Str(kind), "message" := Str("coordination member failed")]), now))
  }

  ghost function DoLeave(s: Setup, w: World, a: nat, db: Db, why: Outcome): World
    requires a in w.attempts
  {
    Put(w.(db := db), a, Attempt(w.attempts[a].outcomes, Stopped(why)))
  }

  /** The run that an attempt is calling the handler of. */
  function CalledRun(s: Setup, x: Attempt): Id
    requires |x.outcomes| < |s.names|
  {
    RunId(StepId(s, |x.outcomes|))
  }

  ghost predicate InCall(s: Setup, w: World, a: nat) {
    a in w.attempts && w.attempts[a].pc.Calling? && |w.attempts[a].outcomes| < |s.names|
  }

  /** A move that does not apply leaves the world as it is. */
  ghost function Do(s: Setup, w: World, m: Move): World
    requires SetupOk(s)
  {
    match m
    case Begin(a) => if a in w.attempts then w else Put(w, a, Attempt([], Ready))
    case Dispatch(a, token, seconds, now) =>
      if a in w.attempts && w.attempts[a].pc.Ready? && |w.attempts[a].outcomes| < |s.names|
      then DoDispatch(s, w, a, token, seconds, now) else w
    case Return(a, value, now) => if InCall(s, w, a) then DoReturn(s, w, a, value, now) else w
    case Raise(a, kind, now) =>
      if InCall(s, w, a)
      then DoLeave(s, w, a, FailClaimed(w.db, CalledRun(s, w.attempts[a]), w.attempts[a].pc.token, kind, now), MemberFailed)
      else w
    case GiveUp(a, now) =>
      if InCall(s, w, a)
      then DoLeave(s, w, a, Settled(w.db, CalledRun(s, w.attempts[a]), w.attempts[a].pc.token, now), WasCancelled)
      else w
    case Crash(a) =>
      if a in w.attempts && (w.attempts[a].pc.Ready? || w.attempts[a].pc.Calling?)
      then DoLeave(s, w, a, w.db, Died) else w
    case Elsewhere(op) => w.(db := After(w.db, op))
  }

  ghost function RunAll(s: Setup, w: World, moves: seq<Move>): World
    requires SetupOk(s)
  {
    if moves == [] then w else Do(s, RunAll(s, w, moves[..|moves| - 1]), moves[|moves| - 1])
  }
}
