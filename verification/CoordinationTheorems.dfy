/** What holds of every re-run of a sequential composition, whatever crashes. */
module CoordinationTheorems {
  import opened Values
  import opened Execution
  import opened ExecutionFrames
  import opened ExecutionSettlement
  import opened CoordinationHandoff
  import opened CoordinationReplay

  /** A store that has never seen this composition. */
  ghost predicate Unseen(s: Setup, db: Db) {
    forall k | 0 <= k < |s.names| :: TaskId(StepId(s, k)) !in db.tasks && RunId(StepId(s, k)) !in db.runs
  }

  ghost function Start(db: Db): World { World(db, map[], []) }

  lemma {:induction false} RunGoes(s: Setup, w: World, moves: seq<Move>)
    requires SetupOk(s) && Inv(s, w) && MovesOk(s, moves)
    ensures Inv(s, RunAll(s, w, moves)) && Kept(w.db, RunAll(s, w, moves).db)
  {
    if moves == [] {
      KeptSelf(w.db);
    } else {
      var n := |moves| - 1;
      RunGoes(s, w, moves[..n]);
      var mid := RunAll(s, w, moves[..n]);
      MoveGoes(s, mid, moves[n]);
      KeptThrough(w.db, mid.db, Do(s, mid, moves[n]).db);
    }
  }

  lemma Reachable(s: Setup, db: Db, moves: seq<Move>)
    requires SetupOk(s) && Unseen(s, db) && MovesOk(s, moves)
    ensures Inv(s, RunAll(s, Start(db), moves))
  {
    forall k | 0 <= k < |s.names| ensures TaskOk(s, db, k) && RunOk(s, db, k) {}
    RunGoes(s, Start(db), moves);
  }

  /** No attempt at the same call ever meets an identity conflict or an unreadable result. */
  lemma NeverConflicts(s: Setup, db: Db, moves: seq<Move>, a: nat)
    requires SetupOk(s) && Unseen(s, db) && MovesOk(s, moves) && a in RunAll(s, Start(db), moves).attempts
    ensures RunAll(s, Start(db), moves).attempts[a].pc != Stopped(IdentityConflict)
    ensures RunAll(s, Start(db), moves).attempts[a].pc != Stopped(BadResult)
  {
    Reachable(s, db, moves);
  }

  /** With another payload the same handoff is refused, and only then: the identity does not
      cover the payload, the goal of the durable task does. */
  lemma ConflictIffDifferent(s: Setup, db: Db, k: nat, stored: Value, payload: Value, fingerprint: string,
                             safe: bool, token: Id, seconds: real, now: real)
    requires SetupOk(s) && ChainOk(s, db) && k < |s.names| && TaskId(StepId(s, k)) in db.tasks
    requires Known(s, db, k) == Some(stored)
    requires forall h, f, g :: s.goalOf(h, f) == s.goalOf(h, g) ==> f == g
    requires forall u, v :: s.digest(u) == s.digest(v) ==> u == v
    ensures var outcome := Claim(db, StepId(s, k), GoalOf(s, k, payload), s.workspace, Fingerprint(s, k, payload),
                                 safe, token, seconds, now).1;
      outcome == IdentityConflict <==> payload != stored
  {
    assert TaskOk(s, db, k);
    if payload == stored {
      ClaimIsOk(s, db, k, payload, safe, token, seconds, now);
    } else {
      RequestsDiffer(s, k, payload, stored);
      assert s.goalOf(StepId(s, k), Fingerprint(s, k, payload)) != s.goalOf(StepId(s, k), Fingerprint(s, k, stored));
    }
  }

  lemma RequestsDiffer(s: Setup, k: nat, u: Value, v: Value)
    requires SetupOk(s) && k < |s.names| && u != v
    ensures Request(s, k, u) != Request(s, k, v)
  {
    assert Request(s, k, u).fields["payload"] != Request(s, k, v).fields["payload"];
  }

  /** Any two attempts hold the same values as far as both have come; two that finish give
      the same final value. */
  lemma AttemptsAgree(s: Setup, db: Db, moves: seq<Move>, a: nat, b: nat)
    requires SetupOk(s) && Unseen(s, db) && MovesOk(s, moves)
    requires var w := RunAll(s, Start(db), moves); a in w.attempts && b in w.attempts
    ensures var w := RunAll(s, Start(db), moves); var x, y := w.attempts[a].outcomes, w.attempts[b].outcomes;
      && (|x| <= |y| ==> x <= y)
      && (w.attempts[a].pc.Finished? && w.attempts[b].pc.Finished? ==> x == y && Current(s, x) == Current(s, y))
  {
    Reachable(s, db, moves);
    var w := RunAll(s, Start(db), moves);
    var x, y := w.attempts[a].outcomes, w.attempts[b].outcomes;
    forall j | 0 <= j < |x| && j < |y| ensures x[j] == y[j] {
      assert Known(s, w.db, j + 1) == Some(x[j]);
      assert Known(s, w.db, j + 1) == Some(y[j]);
    }
  }

  /** Every invocation of a step's handler, by whatever attempt, gets the same payload. */
  lemma CallsAgree(s: Setup, db: Db, moves: seq<Move>, i: nat, j: nat)
    requires SetupOk(s) && Unseen(s, db) && MovesOk(s, moves)
    requires var calls := RunAll(s, Start(db), moves).calls; i < |calls| && j < |calls| && calls[i].k == calls[j].k
    ensures var calls := RunAll(s, Start(db), moves).calls; calls[i].payload == calls[j].payload
  {
    Reachable(s, db, moves);
    var w := RunAll(s, Start(db), moves);
    assert CallOk(s, w.db, w.calls[i]) && CallOk(s, w.db, w.calls[j]);
  }

  // -- completed steps are never called again ----------------------------------------------

  /** A move invokes at most one handler, and only of a step that is not completed. */
  lemma MoveCalls(s: Setup, w: World, m: Move)
    requires SetupOk(s) && Inv(s, w)
    ensures var next := Do(s, w, m);
      || next.calls == w.calls
      || (&& |next.calls| == |w.calls| + 1 && next.calls[..|w.calls|] == w.calls
          && next.calls[|w.calls|].k < |s.names| && !DoneRun(w.db, RunId(StepId(s, next.calls[|w.calls|].k))))
  {
    if m.Dispatch? {
      if m.a in w.attempts && w.attempts[m.a].pc.Ready? && |w.attempts[m.a].outcomes| < |s.names| {
        var x := w.attempts[m.a];
        var k := |x.outcomes|;
        CurrentIsKnown(s, w.db, x);
        ClaimIsOk(s, w.db, k, Current(s, x.outcomes), s.members[s.names[k]].redeliverySafe, m.token, m.seconds, m.now);
      }
    } else {
      OtherMovesCallNothing(s, w, m);
    }
  }

  lemma OtherMovesCallNothing(s: Setup, w: World, m: Move)
    requires SetupOk(s) && !m.Dispatch?
    ensures Do(s, w, m).calls == w.calls
  {}

  predicate Extended(before: seq<Call>, after: seq<Call>, k: nat) {
    |before| <= |after| && forall i | |before| <= i < |after| :: after[i].k != k
  }

  lemma MoveExtends(s: Setup, before: seq<Call>, w: World, m: Move, k: nat)
    requires SetupOk(s) && Inv(s, w) && k < |s.names| && DoneRun(w.db, RunId(StepId(s, k)))
    requires Extended(before, w.calls, k)
    ensures Extended(before, Do(s, w, m).calls, k)
  {
    MoveCalls(s, w, m);
    var next := Do(s, w, m).calls;
    forall i | |before| <= i < |next| ensures next[i].k != k {
      assert i < |w.calls| ==> next[i] == w.calls[i];
    }
  }

  /** A completed step's handler is never invoked again, by any attempt. */
  lemma {:induction false} CompletedNeverCalledAgain(s: Setup, w: World, moves: seq<Move>, k: nat)
    requires SetupOk(s) && Inv(s, w) && MovesOk(s, moves) && k < |s.names| && DoneRun(w.db, RunId(StepId(s, k)))
    ensures Extended(w.calls, RunAll(s, w, moves).calls, k)
  {
    if moves != [] {
      var n := |moves| - 1;
      CompletedNeverCalledAgain(s, w, moves[..n], k);
      RunGoes(s, w, moves[..n]);
      MoveExtends(s, w.calls, RunAll(s, w, moves[..n]), moves[n], k);
    }
  }

  // -- replay of the completed prefix --------------------------------------------------------

  /** Dispatching a completed step hands over its recorded value and changes nothing else. */
  lemma ReplayStep(s: Setup, w: World, a: nat, token: Id, seconds: real, now: real)
    requires SetupOk(s) && Inv(s, w) && a in w.attempts && w.attempts[a].pc.Ready?
    requires |w.attempts[a].outcomes| < |s.names| && DoneRun(w.db, RunId(StepId(s, |w.attempts[a].outcomes|)))
    ensures var x := w.attempts[a];
      Do(s, w, Dispatch(a, token, seconds, now)) ==
      Put(w, a, Advanced(s, x.outcomes, ValueIn(w.db, RunId(StepId(s, |x.outcomes|)))))
  {
    var x := w.attempts[a];
    var k := |x.outcomes|;
    CurrentIsKnown(s, w.db, x);
    assert TaskOk(s, w.db, k) && RunOk(s, w.db, k);
    DoneAnswer(s, w.db, k, Current(s, x.outcomes), s.members[s.names[k]].redeliverySafe, token, seconds, now);
  }

  predicate PrefixDone(s: Setup, db: Db, m: nat) {
    m <= |s.names| && forall k | 0 <= k < m :: DoneRun(db, RunId(StepId(s, k)))
  }

  function Recorded(s: Setup, db: Db, m: nat): (values: seq<Value>)
    requires PrefixDone(s, db, m)
    ensures |values| == m
  {
    if m == 0 then []
    else
      assert DoneRun(db, RunId(StepId(s, m - 1)));
      Recorded(s, db, m - 1) + [ValueIn(db, RunId(StepId(s, m - 1)))]
  }

  lemma {:induction false} RecordedOk(s: Setup, db: Db, m: nat)
    requires PrefixDone(s, db, m) && m < |s.names|
    ensures AttemptOk(s, db, Attempt(Recorded(s, db, m), Ready))
  {
    if m > 0 {
      RecordedOk(s, db, m - 1);
      var front := Recorded(s, db, m - 1);
      forall j | 0 <= j < m ensures Known(s, db, j + 1) == Some(Recorded(s, db, m)[j]) {
        if j < m - 1 { assert Known(s, db, j + 1) == Some(front[j]); }
      }
    }
  }

  function PrefixAttempt(s: Setup, db: Db, m: nat): Attempt
    requires PrefixDone(s, db, m)
  {
    Attempt(Recorded(s, db, m), if m == |s.names| then Finished else Ready)
  }

  lemma ReplayNext(s: Setup, w: World, a: nat, m: nat, token: Id, seconds: real, now: real)
    requires SetupOk(s) && Inv(s, w) && PrefixDone(s, w.db, m + 1)
    ensures Do(s, Put(w, a, PrefixAttempt(s, w.db, m)), Dispatch(a, token, seconds, now))
      == Put(w, a, PrefixAttempt(s, w.db, m + 1))
  {
    RecordedOk(s, w.db, m);
    var x := PrefixAttempt(s, w.db, m);
    InvPut(s, w, a, x);
    assert DoneRun(w.db, RunId(StepId(s, m)));
    ReplayStep(s, Put(w, a, x), a, token, seconds, now);
    PutTwice(w, a, x, PrefixAttempt(s, w.db, m + 1));
  }

  lemma PutTwice(w: World, a: nat, x: Attempt, y: Attempt)
    ensures Put(Put(w, a, x), a, y) == Put(w, a, y)
  {
    assert w.attempts[a := x][a := y] == w.attempts[a := y];
  }

  /** A new attempt replays exactly the completed prefix with its recorded values; handlers
      and store are left alone. */
  lemma {:induction false} ReplaysPrefix(s: Setup, w: World, a: nat, moves: seq<Move>)
    requires SetupOk(s) && Inv(s, w) && a in w.attempts && w.attempts[a] == Attempt([], Ready)
    requires PrefixDone(s, w.db, |moves|)
    requires forall i | 0 <= i < |moves| :: moves[i].Dispatch? && moves[i].a == a
    ensures RunAll(s, w, moves) == Put(w, a, PrefixAttempt(s, w.db, |moves|))
  {
    if moves == [] {
      assert w.attempts[a := Attempt([], Ready)] == w.attempts;
    } else {
      var n := |moves| - 1;
      ReplaysPrefix(s, w, a, moves[..n]);
      ReplayNext(s, w, a, n, moves[n].token, moves[n].seconds, moves[n].now);
    }
  }

  // -- members that are not redelivery safe --------------------------------------------------

  /** Leaves a run that has left PENDING out of it. */
  ghost predicate NotBack(a: Db, b: Db, r: Id) {
    r in a.runs && a.runs[r].state != Pending ==> r in b.runs && b.runs[r].state != Pending
  }

  predicate Resets(op: Op) { op.OpReopen? || op.OpResolve? }

  lemma LeaseNotBack(db: Db, op: Op, r: Id)
    requires LeaseOp(op)
    ensures NotBack(db, After(db, op), r)
  {}

  lemma CancelNotBack(db: Db, op: Op, r: Id)
    requires op.OpRequestCancel? || op.OpCancelTask?
    ensures NotBack(db, After(db, op), r)
  {}

  lemma PlainNotBack(db: Db, op: Op, r: Id)
    requires op.OpCreateTask? || op.OpCreateRun? || op.OpAppendEvent? || op.OpConfigure? || op.OpReserve?
    ensures NotBack(db, After(db, op), r)
  {}

  lemma StepNotBack(db: Db, op: Op, r: Id)
    requires !Resets(op)
    ensures NotBack(db, After(db, op), r)
  {
    if LeaseOp(op) { LeaseNotBack(db, op, r); }
    else if op.OpRequestCancel? || op.OpCancelTask? { CancelNotBack(db, op, r); }
    else { PlainNotBack(db, op, r); }
  }

  lemma SettledNotBack(db: Db, run: Id, token: Id, now: real, r: Id)
    ensures NotBack(db, Settled(db, run, token, now), r)
  {
    StepNotBack(db, OpRequestCancel(run), r);
    StepNotBack(After(db, OpRequestCancel(run)), OpFinishCancelled(run, token, now), r);
  }

  lemma TakeNotBack(db: Db, run: Id, token: Id, seconds: real, now: real, r: Id)
    ensures NotBack(db, Take(db, run, token, seconds, now).0, r)
  {
    StepNotBack(db, OpClaim(run, token, seconds, now), r);
    SettledNotBack(After(db, OpClaim(run, token, seconds, now)), run, token, now, r);
  }

  lemma ClaimNotBack(db: Db, h: Id, goal: string, workspace: string, fingerprint: string, safe: bool,
                     token: Id, seconds: real, now: real, r: Id)
    ensures NotBack(db, Claim(db, h, goal, workspace, fingerprint, safe, token, seconds, now).0, r)
  {
    var d := WithTask(db, h, goal, workspace);
    var e := WithRun(d, h);
    StepNotBack(db, OpCreateTask(TaskId(h), goal, workspace), r);
    StepNotBack(d, OpCreateRun(TaskId(h), RunId(h)), r);
    NotBackThrough(db, d, e, r);
    if RunId(h) in e.runs { AnswerNotBack(e, h, fingerprint, safe, token, seconds, now, r); }
  }

  lemma NotBackThrough(a: Db, b: Db, c: Db, r: Id)
    requires NotBack(a, b, r) && NotBack(b, c, r)
    ensures NotBack(a, c, r)
  {}

  lemma AnswerNotBack(db: Db, h: Id, fingerprint: string, safe: bool, token: Id, seconds: real, now: real, r: Id)
    requires RunId(h) in db.runs
    ensures NotBack(db, AnswerOrTake(db, h, fingerprint, safe, token, seconds, now).0, r)
  {
    TakeNotBack(db, RunId(h), token, seconds, now, r);
  }

  /** The claim of a member that is not redelivery safe succeeds only on a run that is
      pending or new, and leaves it running. */
  lemma UnsafeClaim(db: Db, h: Id, goal: string, workspace: string, fingerprint: string, token: Id, seconds: real, now: real)
    requires Claim(db, h, goal, workspace, fingerprint, false, token, seconds, now).1.Claimed?
    ensures RunId(h) in db.runs ==> db.runs[RunId(h)].state == Pending
    ensures var next := Claim(db, h, goal, workspace, fingerprint, false, token, seconds, now).0;
      RunId(h) in next.runs && next.runs[RunId(h)].state == Running
  {
    var d := WithTask(db, h, goal, workspace);
    var e := WithRun(d, h);
    StepNotBack(db, OpCreateTask(TaskId(h), goal, workspace), RunId(h));
    StepNotBack(d, OpCreateRun(TaskId(h), RunId(h)), RunId(h));
    StepKept(db, OpCreateTask(TaskId(h), goal, workspace));
    UnsafeTake(e, h, fingerprint, token, seconds, now);
  }

  lemma UnsafeTake(db: Db, h: Id, fingerprint: string, token: Id, seconds: real, now: real)
    requires RunId(h) in db.runs
    requires AnswerOrTake(db, h, fingerprint, false, token, seconds, now).1.Claimed?
    ensures db.runs[RunId(h)].state == Pending
    ensures var next := AnswerOrTake(db, h, fingerprint, false, token, seconds, now).0;
      RunId(h) in next.runs && next.runs[RunId(h)].state == Running
  {
    var r := RunId(h);
    StepMoves(db, OpClaim(r, token, seconds, now), r);
    ClaimRuns(db, r, token, seconds, now);
  }

  lemma ClaimRuns(db: Db, r: Id, token: Id, seconds: real, now: real)
    requires Step(db, OpClaim(r, token, seconds, now)).Ok?
    ensures r in After(db, OpClaim(r, token, seconds, now)).runs
    ensures After(db, OpClaim(r, token, seconds, now)).runs[r].state == Running
  {}

  function CallsOf(calls: seq<Call>, k: nat): nat {
    if calls == [] then 0
    else CallsOf(calls[..|calls| - 1], k) + if calls[|calls| - 1].k == k then 1 else 0
  }

  predicate Begun(db: Db, r: Id) { r in db.runs && db.runs[r].state != Pending }

  /** Someone reopens this run or resolves its interrupt, and it is pending again. */
  ghost predicate PutsBack(s: Setup, w: World, m: Move, r: Id)
    requires SetupOk(s)
  {
    Begun(w.db, r) && !Begun(Do(s, w, m).db, r)
  }

  ghost function TimesPutBack(s: Setup, w: World, moves: seq<Move>, r: Id): nat
    requires SetupOk(s)
  {
    if moves == [] then 0
    else
      var n := |moves| - 1;
      TimesPutBack(s, w, moves[..n], r) + if PutsBack(s, RunAll(s, w, moves[..n]), moves[n], r) then 1 else 0
  }

  /** A run that had begun is pending again only by its own reopening or by an answer to its
      own interrupt. */
  lemma OnlyResetsPutBack(s: Setup, w: World, m: Move, r: Id)
    requires SetupOk(s) && PutsBack(s, w, m, r)
    ensures m.Elsewhere? && Resets(m.op)
    ensures m.op.OpReopen? ==> m.op.r == r
    ensures m.op.OpResolve? ==> m.op.allow && m.op.i in w.db.interrupts && w.db.interrupts[m.op.i].run == r
  {
    if m.Dispatch? {
      if m.a in w.attempts && w.attempts[m.a].pc.Ready? && |w.attempts[m.a].outcomes| < |s.names| {
        DispatchNotBack(s, w, m.a, m.token, m.seconds, m.now, r);
      }
    } else if !(m.Elsewhere? && Resets(m.op)) {
      OtherMovesNotBack(s, w, m, r);
    } else {
      ResetTouches(w.db, m.op, r);
    }
  }

  lemma ResetTouches(db: Db, op: Op, r: Id)
    requires Resets(op) && Begun(db, r) && !Begun(After(db, op), r)
    ensures op.OpReopen? ==> op.r == r
    ensures op.OpResolve? ==> op.allow && op.i in db.interrupts && db.interrupts[op.i].run == r
  {
    StepFrame(db, op);
    RunFramed(db, op, Step(db, op).value, r);
    if op.OpResolve? && !op.allow { DeniedIsNotPending(db, op, r); }
  }

  lemma DeniedIsNotPending(db: Db, op: Op, r: Id)
    requires op.OpResolve? && !op.allow && Begun(db, r)
    ensures Begun(After(db, op), r)
  {}

  lemma DispatchNotBack(s: Setup, w: World, a: nat, token: Id, seconds: real, now: real, r: Id)
    requires SetupOk(s) && a in w.attempts && |w.attempts[a].outcomes| < |s.names|
    ensures NotBack(w.db, DoDispatch(s, w, a, token, seconds, now).db, r)
  {
    var outcomes := w.attempts[a].outcomes;
    var n := |outcomes|;
    var payload := Current(s, outcomes);
    ClaimNotBack(w.db, StepId(s, n), GoalOf(s, n, payload), s.workspace, Fingerprint(s, n, payload),
                 s.members[s.names[n]].redeliverySafe, token, seconds, now, r);
  }

  lemma OtherMovesNotBack(s: Setup, w: World, m: Move, r: Id)
    requires SetupOk(s) && !m.Dispatch? && !(m.Elsewhere? && Resets(m.op))
    ensures NotBack(w.db, Do(s, w, m).db, r)
  {
    match m
    case Return(a, value, now) =>
      if InCall(s, w, a) {
        var x := w.attempts[a];
        var h := StepId(s, |x.outcomes|);
        StepNotBack(w.db, OpComplete(RunId(h), x.pc.token,
                                     Encoded(h, Fingerprint(s, |x.outcomes|, Current(s, x.outcomes)), value), now), r);
        SettledNotBack(w.db, RunId(h), x.pc.token, now, r);
        FailNotBack(w.db, RunId(h), x.pc.token, "ExecutionStateError", now, r);
      }
    case Raise(a, kind, now) =>
      if InCall(s, w, a) { FailNotBack(w.db, CalledRun(s, w.attempts[a]), w.attempts[a].pc.token, kind, now, r); }
    case GiveUp(a, now) =>
      if InCall(s, w, a) { SettledNotBack(w.db, CalledRun(s, w.attempts[a]), w.attempts[a].pc.token, now, r); }
    case Elsewhere(op) => StepNotBack(w.db, op, r);
    case _ =>
  }

  lemma FailNotBack(db: Db, run: Id, token: Id, kind: string, now: real, r: Id)
    ensures NotBack(db, FailClaimed(db, run, token, kind, now), r)
  {
    StepNotBack(db, OpFail(run, token, Obj(map["type" := Str(kind), "message" := Str("coordination member failed")]), now), r);
  }

  /** One dispatch: a call of step `k` finds its run not begun and leaves it begun. */
  lemma DispatchBegins(s: Setup, w: World, a: nat, token: Id, seconds: real, now: real, k: nat)
    requires SetupOk(s) && k < |s.names| && !s.members[s.names[k]].redeliverySafe
    requires a in w.attempts && |w.attempts[a].outcomes| < |s.names|
    ensures var next := DoDispatch(s, w, a, token, seconds, now); var r := RunId(StepId(s, k));
      && NotBack(w.db, next.db, r)
      && CallsOf(next.calls, k) <= CallsOf(w.calls, k) + 1
      && (CallsOf(next.calls, k) == CallsOf(w.calls, k) + 1 ==> !Begun(w.db, r) && Begun(next.db, r))
  {
    var outcomes := w.attempts[a].outcomes;
    var n := |outcomes|;
    var payload := Current(s, outcomes);
    var h := StepId(s, n);
    var safe := s.members[s.names[n]].redeliverySafe;
    ClaimNotBack(w.db, h, GoalOf(s, n, payload), s.workspace, Fingerprint(s, n, payload), safe, token, seconds, now,
                 RunId(StepId(s, k)));
    if n == k && Claim(w.db, h, GoalOf(s, n, payload), s.workspace, Fingerprint(s, n, payload), safe,
                       token, seconds, now).1.Claimed? {
      UnsafeClaim(w.db, h, GoalOf(s, n, payload), s.workspace, Fingerprint(s, n, payload), token, seconds, now);
    }
  }

  /** A member that did not declare itself redelivery safe is invoked at most once for a step,
      through any crashes and expired leases, unless the step's own run is put back to pending
      by its reopening or by an answer to its interrupt, and then at most once more each time. */
  lemma {:induction false} UnsafeMembersAreCalledOnce(s: Setup, db: Db, moves: seq<Move>, k: nat)
    requires SetupOk(s) && k < |s.names| && !s.members[s.names[k]].redeliverySafe
    ensures var w, r := RunAll(s, Start(db), moves), RunId(StepId(s, k));
      CallsOf(w.calls, k) <= TimesPutBack(s, Start(db), moves, r) + if Begun(w.db, r) then 1 else 0
  {
    if moves != [] {
      var n := |moves| - 1;
      var m := moves[n];
      UnsafeMembersAreCalledOnce(s, db, moves[..n], k);
      var w := RunAll(s, Start(db), moves[..n]);
      if m.Dispatch? {
        if m.a in w.attempts && w.attempts[m.a].pc.Ready? && |w.attempts[m.a].outcomes| < |s.names| {
          DispatchBegins(s, w, m.a, m.token, m.seconds, m.now, k);
        }
      } else {
        OtherMovesCallNothing(s, w, m);
      }
    }
  }
}
