/** The coordinator object: `dispatch` and `sequential` as they call the execution store. */
module Coordinator {
  import opened Values
  import opened Execution
  import opened ExecutionInvariant
  import opened ExecutionSettlement
  import opened Store
  import opened CoordinationHandoff
  import opened CoordinationReplay

  /** What a member's handler does when it is invoked. */
  datatype Reaction = Returns(value: Value) | Raises(kind: string)

  type Handlers = (nat, Value) -> Reaction

  ghost function Alone(db: Db): World { World(db, map[0 := Attempt([], Ready)], []) }

  /** Each value is the recorded one where the step was completed before the call, and
      otherwise what its handler makes of the value before. */
  ghost predicate Pipeline(s: Setup, db: Db, handlers: Handlers, outcomes: seq<Value>) {
    && |outcomes| <= |s.names|
    && forall j | 0 <= j < |outcomes| :: Stage(s, db, handlers, outcomes, j)
  }

  ghost predicate Stage(s: Setup, db: Db, handlers: Handlers, outcomes: seq<Value>, j: nat)
    requires j < |outcomes| && |outcomes| <= |s.names|
  {
    if DoneRun(db, RunId(StepId(s, j))) then outcomes[j] == ValueIn(db, RunId(StepId(s, j)))
    else handlers(j, Current(s, outcomes[..j])) == Returns(outcomes[j])
  }

  // -- which runs get completed ------------------------------------------------------------

  /** Runs that one database has completed and the other has not. */
  ghost predicate Completes(a: Db, b: Db, allowed: set<Id>) {
    forall r | DoneRun(b, r) :: DoneRun(a, r) || r in allowed
  }

  lemma StepCompletes(db: Db, op: Op)
    ensures Completes(db, After(db, op), if op.OpComplete? then {op.r} else {})
  {
    forall r | DoneRun(After(db, op), r) ensures DoneRun(db, r) || (op.OpComplete? && r == op.r) {
      if r !in db.runs { NewRun(db, op, r); }
      else if !DoneRun(db, r) { CompletedByOp(db, op, r); }
    }
  }

  /** Nothing gets lost and nothing gets completed. */
  ghost predicate Settles(a: Db, b: Db) { Kept(a, b) && Completes(a, b, {}) }

  lemma SettlesThrough(a: Db, b: Db, c: Db)
    requires Settles(a, b) && Settles(b, c)
    ensures Settles(a, c)
  {
    KeptThrough(a, b, c);
  }

  lemma StepSettles(db: Db, op: Op)
    requires !op.OpComplete?
    ensures Settles(db, After(db, op))
  {
    StepCompletes(db, op);
    StepKept(db, op);
  }

  lemma SettlesSelf(db: Db)
    ensures Settles(db, db)
  {}

  lemma SettledSettles(db: Db, r: Id, token: Id, now: real)
    ensures Settles(db, Settled(db, r, token, now))
  {
    SettlesSelf(db);
    StepSettles(db, OpRequestCancel(r));
    var flagged := After(db, OpRequestCancel(r));
    StepSettles(flagged, OpFinishCancelled(r, token, now));
    SettlesThrough(db, flagged, After(flagged, OpFinishCancelled(r, token, now)));
  }

  /** The tables before the state of the run is looked at. */
  ghost function Prepared(db: Db, h: Id, goal: string, workspace: string): Db {
    WithRun(WithTask(db, h, goal, workspace), h)
  }

  lemma PreparedSettles(db: Db, h: Id, goal: string, workspace: string)
    ensures Settles(db, WithTask(db, h, goal, workspace)) && Settles(db, Prepared(db, h, goal, workspace))
  {
    var d := WithTask(db, h, goal, workspace);
    SettlesSelf(db);
    SettlesSelf(d);
    StepSettles(db, OpCreateTask(TaskId(h), goal, workspace));
    StepSettles(d, OpCreateRun(TaskId(h), RunId(h)));
    SettlesThrough(db, d, WithRun(d, h));
  }

  /** What a claim does after the preparation, seen from its outcome. */
  lemma ClaimLooksAtPrepared(db: Db, h: Id, goal: string, workspace: string, fingerprint: string, safe: bool,
                             token: Id, seconds: real, now: real)
    ensures var c := Claim(db, h, goal, workspace, fingerprint, safe, token, seconds, now);
      var d := WithTask(db, h, goal, workspace); var e := Prepared(db, h, goal, workspace);
      || (c.0 == d && c.1 in {Refused, IdentityConflict})
      || (c.0 == e && c.1 in {Refused, IdentityConflict})
      || (RunId(h) in e.runs && c == AnswerOrTake(e, h, fingerprint, safe, token, seconds, now))
  {}

  lemma ClaimSettles(db: Db, h: Id, goal: string, workspace: string, fingerprint: string, safe: bool,
                     token: Id, seconds: real, now: real)
    ensures Settles(db, Claim(db, h, goal, workspace, fingerprint, safe, token, seconds, now).0)
  {
    ClaimLooksAtPrepared(db, h, goal, workspace, fingerprint, safe, token, seconds, now);
    PreparedSettles(db, h, goal, workspace);
    var e := Prepared(db, h, goal, workspace);
    if RunId(h) in e.runs {
      AnswerSettles(e, h, fingerprint, safe, token, seconds, now);
      SettlesThrough(db, e, AnswerOrTake(e, h, fingerprint, safe, token, seconds, now).0);
    }
  }

  lemma AnswerSettles(db: Db, h: Id, fingerprint: string, safe: bool, token: Id, seconds: real, now: real)
    requires RunId(h) in db.runs
    ensures Settles(db, AnswerOrTake(db, h, fingerprint, safe, token, seconds, now).0)
  {
    var claim := OpClaim(RunId(h), token, seconds, now);
    var next := After(db, claim);
    SettlesSelf(db);
    StepSettles(db, claim);
    SettledSettles(next, RunId(h), token, now);
    SettlesThrough(db, next, Settled(next, RunId(h), token, now));
  }

  lemma AnswerReplays(db: Db, h: Id, fingerprint: string, safe: bool, token: Id, seconds: real, now: real)
    requires RunId(h) in db.runs
    ensures var c := AnswerOrTake(db, h, fingerprint, safe, token, seconds, now).1;
      && (c.Replay? ==> DoneRun(db, RunId(h)) && c == Replay(ValueIn(db, RunId(h))))
      && (c.Claimed? ==> !DoneRun(db, RunId(h)))
  {}

  /** A replay hands over the value recorded on the completed run; a completed run is never
      claimed. */
  lemma ReplayIsRecorded(db: Db, h: Id, goal: string, workspace: string, fingerprint: string, safe: bool,
                         token: Id, seconds: real, now: real)
    ensures var c := Claim(db, h, goal, workspace, fingerprint, safe, token, seconds, now).1;
      && (c.Replay? ==> DoneRun(db, RunId(h)) && c == Replay(ValueIn(db, RunId(h))))
      && (c.Claimed? ==> !DoneRun(db, RunId(h)))
  {
    ClaimLooksAtPrepared(db, h, goal, workspace, fingerprint, safe, token, seconds, now);
    PreparedSettles(db, h, goal, workspace);
    var e := Prepared(db, h, goal, workspace);
    if RunId(h) in e.runs { AnswerReplays(e, h, fingerprint, safe, token, seconds, now); }
  }

  // -- schedules of one attempt --------------------------------------------------------------

  lemma RunAllSnoc(s: Setup, w: World, moves: seq<Move>, m: Move)
    requires SetupOk(s)
    ensures RunAll(s, w, moves + [m]) == Do(s, RunAll(s, w, moves), m)
  {
    assert (moves + [m])[..|moves|] == moves;
  }

  lemma RunAllNone(s: Setup, w: World)
    requires SetupOk(s)
    ensures RunAll(s, w, []) == w
  {}

  lemma RunAllOne(s: Setup, w: World, m: Move)
    requires SetupOk(s)
    ensures RunAll(s, w, [m]) == Do(s, w, m)
  {
    RunAllNone(s, w);
    RunAllSnoc(s, w, [], m);
    assert [] + [m] == [m];
  }

  predicate OwnMoves(moves: seq<Move>) { forall i | 0 <= i < |moves| :: !moves[i].Elsewhere? }

  /** The world in which attempt 0 is the only one. */
  ghost predicate Single(w: World, db: Db, x: Attempt) { w.db == db && w.attempts == map[0 := x] }

  /** `complete_run` by the attempt that holds the lease, and what follows a refusal. */
  ghost function ReturnDb(s: Setup, db: Db, k: nat, payload: Value, token: Id, value: Value, now: real): (Db, Option<Outcome>)
    requires SetupOk(s) && k < |s.names|
  {
    var h := StepId(s, k);
    match Step(db, OpComplete(RunId(h), token, Encoded(h, Fingerprint(s, k, payload), value), now))
    case Ok(next) => (next, None)
    case Err(LeaseLost) => (db, Some(RecoveryRequired))
    case Err(e) =>
      if e == WrongState && RunId(h) in db.runs && db.runs[RunId(h)].cancel
      then (Settled(db, RunId(h), token, now), Some(WasCancelled))
      else (FailClaimed(db, RunId(h), token, "ExecutionStateError", now), Some(MemberFailed))
  }

  lemma ReturnIsMove(s: Setup, w: World, outcomes: seq<Value>, token: Id, value: Value, now: real)
    requires SetupOk(s) && |outcomes| < |s.names| && w.attempts == map[0 := Attempt(outcomes, Calling(token))]
    ensures var (db, why) := ReturnDb(s, w.db, |outcomes|, Current(s, outcomes), token, value, now);
      Single(Do(s, w, Return(0, value, now)), db,
             if why.None? then Advanced(s, outcomes, value) else Attempt(outcomes, Stopped(why.value)))
  {}

  lemma RaiseIsMove(s: Setup, w: World, outcomes: seq<Value>, token: Id, kind: string, now: real)
    requires SetupOk(s) && |outcomes| < |s.names| && w.attempts == map[0 := Attempt(outcomes, Calling(token))]
    ensures Single(Do(s, w, Raise(0, kind, now)), FailClaimed(w.db, RunId(StepId(s, |outcomes|)), token, kind, now),
                   Attempt(outcomes, Stopped(MemberFailed)))
  {}

  function AfterClaim(s: Setup, outcomes: seq<Value>, token: Id, outcome: Outcome): Attempt {
    match outcome
    case Claimed => Attempt(outcomes, Calling(token))
    case Replay(value) => Advanced(s, outcomes, value)
    case _ => Attempt(outcomes, Stopped(outcome))
  }

  lemma DispatchIsMove(s: Setup, w: World, outcomes: seq<Value>, token: Id, seconds: real, now: real)
    requires SetupOk(s) && |outcomes| < |s.names| && w.attempts == map[0 := Attempt(outcomes, Ready)]
    ensures var k := |outcomes|; var payload := Current(s, outcomes);
      var (db, outcome) := Claim(w.db, StepId(s, k), GoalOf(s, k, payload), s.workspace, Fingerprint(s, k, payload),
                                 s.members[s.names[k]].redeliverySafe, token, seconds, now);
      Single(Do(s, w, Dispatch(0, token, seconds, now)), db,
             AfterClaim(s, outcomes, token, outcome))
  {}

  lemma ReturnCompletes(s: Setup, db: Db, k: nat, payload: Value, token: Id, value: Value, now: real)
    requires SetupOk(s) && k < |s.names|
    ensures var next := ReturnDb(s, db, k, payload, token, value, now).0;
      Kept(db, next) && Completes(db, next, {RunId(StepId(s, k))})
  {
    var h := StepId(s, k);
    var op := OpComplete(RunId(h), token, Encoded(h, Fingerprint(s, k, payload), value), now);
    StepCompletes(db, op);
    StepKept(db, op);
    SettlesSelf(db);
    SettledSettles(db, RunId(h), token, now);
    FailSettles(db, RunId(h), token, "ExecutionStateError", now);
  }

  lemma FailSettles(db: Db, r: Id, token: Id, kind: string, now: real)
    ensures Settles(db, FailClaimed(db, r, token, kind, now))
  {
    StepSettles(db, OpFail(r, token, Obj(map["type" := Str(kind), "message" := Str("coordination member failed")]), now));
  }

  function Dispatched(s: Setup, outcomes: seq<Value>, got: Result<Value, Outcome>): Attempt {
    if got.Ok? then Advanced(s, outcomes, got.value) else Attempt(outcomes, Stopped(got.error))
  }

  lemma {:induction false} RunAllConcat(s: Setup, w: World, moves: seq<Move>, more: seq<Move>)
    requires SetupOk(s)
    ensures RunAll(s, w, moves + more) == RunAll(s, RunAll(s, w, moves), more)
  {
    if more == [] {
      assert moves + more == moves;
    } else {
      var n := |more| - 1;
      RunAllConcat(s, w, moves, more[..n]);
      RunAllSnoc(s, w, moves + more[..n], more[n]);
      assert moves + more == moves + more[..n] + [more[n]];
    }
  }

  /** Only steps before `k` have been completed since. */
  ghost predicate OnlyEarlier(s: Setup, a: Db, b: Db, k: nat)
    requires k <= |s.names|
  {
    forall j | k <= j < |s.names| && DoneRun(b, RunId(StepId(s, j))) :: DoneRun(a, RunId(StepId(s, j)))
  }

  lemma EarlierStep(s: Setup, a: Db, b: Db, c: Db, k: nat)
    requires k < |s.names| && OnlyEarlier(s, a, b, k) && Completes(b, c, {RunId(StepId(s, k))})
    ensures OnlyEarlier(s, a, c, k + 1)
  {
    forall j | k + 1 <= j < |s.names| && DoneRun(c, RunId(StepId(s, j))) ensures DoneRun(a, RunId(StepId(s, j))) {
      StepIdsDiffer(s, j, k);
    }
  }

  lemma PipelineSnoc(s: Setup, a: Db, b: Db, handlers: Handlers, outcomes: seq<Value>, value: Value)
    requires |outcomes| < |s.names| && Pipeline(s, a, handlers, outcomes)
    requires Kept(a, b) && OnlyEarlier(s, a, b, |outcomes|)
    requires var r := RunId(StepId(s, |outcomes|));
      if DoneRun(b, r) then value == ValueIn(b, r) else handlers(|outcomes|, Current(s, outcomes)) == Returns(value)
    ensures Pipeline(s, a, handlers, outcomes + [value])
  {
    var next := outcomes + [value];
    forall j | 0 <= j < |next| ensures Stage(s, a, handlers, next, j) {
      assert next[..j] == outcomes[..j];
      if j < |outcomes| { assert Stage(s, a, handlers, outcomes, j); }
      else { assert outcomes[..j] == outcomes; }
    }
  }

  class AgentCoordinator {
    const execution: ExecutionStore
    const s: Setup

    constructor (execution: ExecutionStore, s: Setup)
      requires SetupOk(s)
      ensures this.execution == execution && this.s == s
    {
      this.execution, this.s := execution, s;
    }

    /** `_finish_cancelled` */
    method FinishCancelled(r: Id, token: Id, now: real)
      requires execution.Valid()
      modifies execution
      ensures execution.Valid() && execution.State() == Settled(old(execution.State()), r, token, now)
    {
      var raised := execution.Perform(OpRequestCancel(r));
      if raised.None? { raised := execution.Perform(OpFinishCancelled(r, token, now)); }
    }

    /** The tail of `_claim_handoff`: takes the lease, and settles at once a run that someone
        asked to cancel. */
    method TakeLease(r: Id, token: Id, seconds: real, now: real) returns (outcome: Outcome)
      requires execution.Valid()
      modifies execution
      ensures execution.Valid() && (execution.State(), outcome) == Take(old(execution.State()), r, token, seconds, now)
    {
      var raised := execution.Perform(OpClaim(r, token, seconds, now));
      if raised.Some? { return if raised.value == LeaseLost then Busy else Refused; }
      if r in execution.runs && execution.runs[r].cancel {
        FinishCancelled(r, token, now);
        return WasCancelled;
      }
      return Claimed;
    }

    /** `_claim_handoff`, and the replay of a completed handoff. */
    method ClaimHandoff(h: Id, goal: string, fingerprint: string, safe: bool, token: Id, seconds: real, now: real)
      returns (outcome: Outcome)
      requires execution.Valid()
      modifies execution
      ensures execution.Valid()
      ensures (execution.State(), outcome) ==
              Claim(old(execution.State()), h, goal, s.workspace, fingerprint, safe, token, seconds, now)
    {
      var t, r := TaskId(h), RunId(h);
      if t !in execution.tasks {
        var raised := execution.Perform(OpCreateTask(t, goal, s.workspace));
        if t !in execution.tasks { return Refused; }
      }
      var task := execution.tasks[t];
      if task.goal != goal || task.workspace != s.workspace { return IdentityConflict; }
      if r !in execution.runs {
        var raised := execution.Perform(OpCreateRun(t, r));
        if r !in execution.runs { return Refused; }
      }
      var run := execution.runs[r];
      if run.task != t { return IdentityConflict; }
      var answer := Answer(run, h, fingerprint, safe, now);
      if answer.Some? { return answer.value; }
      outcome := TakeLease(r, token, seconds, now);
    }

    /** `_fail_claimed` */
    method FailRun(r: Id, token: Id, kind: string, now: real)
      requires execution.Valid()
      modifies execution
      ensures execution.Valid() && execution.State() == FailClaimed(old(execution.State()), r, token, kind, now)
    {
      var error := Obj(map["type" := Str(kind), "message" := Str("coordination member failed")]);
      var raised := execution.Perform(OpFail(r, token, error, now));
    }

    /** The settlement of a claimed run whose handler returned a value. */
    method Complete(k: nat, payload: Value, token: Id, value: Value, now: real) returns (why: Option<Outcome>)
      requires SetupOk(s) && k < |s.names| && execution.Valid()
      modifies execution
      ensures execution.Valid()
      ensures (execution.State(), why) == ReturnDb(s, old(execution.State()), k, payload, token, value, now)
    {
      var h := StepId(s, k);
      var raised := execution.Perform(OpComplete(RunId(h), token, Encoded(h, Fingerprint(s, k, payload), value), now));
      if raised.None? { return None; }
      if raised.value == LeaseLost { return Some(RecoveryRequired); }
      if raised.value == WrongState && RunId(h) in execution.runs && execution.runs[RunId(h)].cancel {
        FinishCancelled(RunId(h), token, now);
        return Some(WasCancelled);
      }
      FailRun(RunId(h), token, "ExecutionStateError", now);
      return Some(MemberFailed);
    }

    /** `dispatch`: claims the handoff, replays it if it is completed, and otherwise invokes
        the member and settles the run. */
    method Dispatch(k: nat, payload: Value, handlers: Handlers, token: Id, seconds: real, now: real, later: real,
                    ghost w: World, ghost outcomes: seq<Value>)
      returns (got: Result<Value, Outcome>, ghost moves: seq<Move>)
      requires SetupOk(s) && execution.Valid() && k < |s.names|
      requires k == |outcomes| && payload == Current(s, outcomes)
      requires Single(w, execution.State(), Attempt(outcomes, Ready))
      modifies execution
      ensures execution.Valid() && OwnMoves(moves)
      ensures Single(RunAll(s, w, moves), execution.State(), Dispatched(s, outcomes, got))
      ensures Kept(old(execution.State()), execution.State())
      ensures Completes(old(execution.State()), execution.State(), {RunId(StepId(s, k))})
      ensures got.Ok? ==>
        if DoneRun(old(execution.State()), RunId(StepId(s, k)))
        then got.value == ValueIn(old(execution.State()), RunId(StepId(s, k)))
        else handlers(k, payload) == Returns(got.value)
    {
      var h := StepId(s, k);
      var safe := s.members[s.names[k]].redeliverySafe;
      ghost var db := execution.State();
      ClaimSettles(db, h, GoalOf(s, k, payload), s.workspace, Fingerprint(s, k, payload), safe, token, seconds, now);
      ReplayIsRecorded(db, h, GoalOf(s, k, payload), s.workspace, Fingerprint(s, k, payload), safe, token, seconds, now);
      DispatchIsMove(s, w, outcomes, token, seconds, now);
      moves := [CoordinationHandoff.Dispatch(0, token, seconds, now)];
      RunAllOne(s, w, moves[0]);
      var outcome := ClaimHandoff(h, GoalOf(s, k, payload), Fingerprint(s, k, payload), safe, token, seconds, now);
      if outcome.Replay? { return Ok(outcome.value), moves; }
      if outcome != Claimed { return Err(outcome), moves; }
      ghost var mid := execution.State();
      ghost var more;
      got, more := Invoke(k, payload, handlers(k, payload), token, later, Do(s, w, moves[0]), outcomes);
      RunAllSnoc(s, w, moves, more);
      moves := moves + [more];
      KeptThrough(db, mid, execution.State());
    }

    /** The claimed part of a dispatch: the handler's reaction and the settlement. */
    method Invoke(k: nat, payload: Value, reaction: Reaction, token: Id, later: real, ghost w: World, ghost outcomes: seq<Value>)
      returns (got: Result<Value, Outcome>, ghost move: Move)
      requires SetupOk(s) && execution.Valid() && k < |s.names|
      requires k == |outcomes| && payload == Current(s, outcomes)
      requires Single(w, execution.State(), Attempt(outcomes, Calling(token)))
      modifies execution
      ensures execution.Valid() && !move.Elsewhere?
      ensures Single(Do(s, w, move), execution.State(), Dispatched(s, outcomes, got))
      ensures Kept(old(execution.State()), execution.State())
      ensures Completes(old(execution.State()), execution.State(), {RunId(StepId(s, k))})
      ensures got.Ok? ==> reaction == Returns(got.value)
    {
      match reaction
      case Raises(kind) =>
        RaiseIsMove(s, w, outcomes, token, kind, later);
        FailSettles(execution.State(), RunId(StepId(s, k)), token, kind, later);
        FailRun(RunId(StepId(s, k)), token, kind, later);
        return Err(MemberFailed), Raise(0, kind, later);
      case Returns(value) =>
        ReturnIsMove(s, w, outcomes, token, value, later);
        ReturnCompletes(s, execution.State(), k, payload, token, value, later);
        var why := Complete(k, payload, token, value, later);
        return if why.None? then Ok(value) else Err(why.value), Return(0, value, later);
    }

    /** `sequential`: hands the payload from member to member and stops at the first failure.
        A call is one schedule of moves of a single attempt, so everything proved of all
        schedules holds of it; each value is the recorded one if its step was completed
        before, and else what its handler made of the value before. */
    method Sequential(handlers: Handlers, tokens: nat -> Id, clock: nat -> real, seconds: real)
      returns (outcomes: seq<Value>, failure: Option<Outcome>, ghost moves: seq<Move>)
      requires SetupOk(s) && execution.Valid()
      modifies execution
      ensures execution.Valid() && OwnMoves(moves)
      ensures Single(RunAll(s, Alone(old(execution.State())), moves), execution.State(),
                     Attempt(outcomes, if failure.None? then Finished else Stopped(failure.value)))
      ensures Pipeline(s, old(execution.State()), handlers, outcomes)
      ensures failure.None? <==> |outcomes| == |s.names|
    {
      outcomes, moves := [], [];
      ghost var db := execution.State();
      ghost var w := Alone(db);
      KeptSelf(db);
      RunAllNone(s, w);
      for k := 0 to |s.names|
        invariant execution.Valid() && OwnMoves(moves) && |outcomes| == k
        invariant w == RunAll(s, Alone(db), moves)
        invariant Single(w, execution.State(), Attempt(outcomes, if k == |s.names| then Finished else Ready))
        invariant Kept(db, execution.State()) && OnlyEarlier(s, db, execution.State(), k)
        invariant Pipeline(s, db, handlers, outcomes)
      {
        ghost var before := execution.State();
        var got; ghost var more;
        got, more := Dispatch(k, Current(s, outcomes), handlers, tokens(k), seconds, clock(2 * k), clock(2 * k + 1), w, outcomes);
        RunAllConcat(s, Alone(db), moves, more);
        moves, w := moves + more, RunAll(s, w, more);
        KeptThrough(db, before, execution.State());
        if got.Err? { return outcomes, Some(got.error), moves; }
        EarlierStep(s, db, before, execution.State(), k);
        PipelineSnoc(s, db, before, handlers, outcomes, got.value);
        outcomes := outcomes + [got.value];
      }
      return outcomes, None, moves;
    }
  }
}
