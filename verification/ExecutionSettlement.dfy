/** How runs end: settled states absorb, a failure is left only by a reopen, and a cancel
    request wins over completion. */
module ExecutionSettlement {
  import opened Values
  import opened Execution
  import opened ExecutionAudit
  import opened ExecutionFrames
  import opened ExecutionInvariant

  predicate ReopensRun(op: Op, r: Id) { op.OpReopen? && op.r == r }

  predicate NeverReopens(ops: seq<Op>, r: Id) { forall k | 0 <= k < |ops| :: !ReopensRun(ops[k], r) }

  /** One call moves a run along its life cycle or leaves it alone. */
  lemma StepMoves(db: Db, op: Op, r: Id)
    requires r in db.runs
    ensures r in After(db, op).runs && RunMoves(op, db.runs[r], After(db, op).runs[r])
    ensures op.OpReopen? && op.r != r ==> After(db, op).runs[r] == db.runs[r]
  {
    StepFrame(db, op);
    if Step(db, op).Ok? { RunFramed(db, op, Step(db, op).value, r); }
  }

  /** COMPLETED and CANCELLED absorb: the row of such a run never changes again. */
  lemma {:induction false} SettledIsFinal(db: Db, ops: seq<Op>, r: Id)
    requires r in db.runs && db.runs[r].state in {Completed, Cancelled}
    ensures r in Exec(db, ops).runs && Exec(db, ops).runs[r] == db.runs[r]
  {
    if ops != [] {
      SettledIsFinal(db, ops[..|ops| - 1], r);
      StepMoves(Exec(db, ops[..|ops| - 1]), ops[|ops| - 1], r);
    }
  }

  /** FAILED is left only by a reopen of that run. */
  lemma {:induction false} FailedStaysFailed(db: Db, ops: seq<Op>, r: Id)
    requires r in db.runs && db.runs[r].state == Failed && NeverReopens(ops, r)
    ensures r in Exec(db, ops).runs && Exec(db, ops).runs[r] == db.runs[r]
  {
    if ops != [] {
      FailedStaysFailed(db, ops[..|ops| - 1], r);
      StepMoves(Exec(db, ops[..|ops| - 1]), ops[|ops| - 1], r);
    }
  }

  /** Once cancellation is requested the flag stays and the run is never completed, until
      a reopen of that run. */
  lemma {:induction false} CancelBeatsCompletion(db: Db, ops: seq<Op>, r: Id)
    requires r in db.runs && db.runs[r].cancel && db.runs[r].state != Completed && NeverReopens(ops, r)
    ensures r in Exec(db, ops).runs && Exec(db, ops).runs[r].cancel && Exec(db, ops).runs[r].state != Completed
  {
    if ops != [] {
      CancelBeatsCompletion(db, ops[..|ops| - 1], r);
      StepMoves(Exec(db, ops[..|ops| - 1]), ops[|ops| - 1], r);
    }
  }

  /** A PENDING run with a cancel request can never run again: it stays as it is or is
      cancelled, without another checkpoint, whatever is called. */
  lemma {:induction false} FlaggedPendingNeverRuns(db: Db, ops: seq<Op>, r: Id)
    requires r in db.runs && db.runs[r].state == Pending && db.runs[r].cancel
    ensures r in Exec(db, ops).runs
    ensures var run := Exec(db, ops).runs[r];
            run == db.runs[r] || (run.state == Cancelled && run.version == db.runs[r].version)
  {
    if ops != [] {
      FlaggedPendingNeverRuns(db, ops[..|ops| - 1], r);
      StepMoves(Exec(db, ops[..|ops| - 1]), ops[|ops| - 1], r);
    }
  }

  /** Whether some calls from here on make the run RUNNING. */
  ghost predicate CanRun(db: Db, r: Id) {
    exists ops :: r in Exec(db, ops).runs && Exec(db, ops).runs[r].state == Running
  }

  lemma PendingCanRun(db: Db, r: Id)
    requires Invariant(db) && r in db.runs && db.runs[r].state == Pending && !db.runs[r].cancel
    ensures CanRun(db, r)
  {
    var op := OpClaim(r, Text(""), 1.0, 0.0);
    ClashOnlyWhenFailingAgain(db, op);
    assert [op][..0] == [];
    assert Exec(db, [op]) == After(db, op);
    assert Exec(db, [op]).runs[r].state == Running;
  }

  lemma FlaggedCannotRun(db: Db, r: Id)
    requires r in db.runs && db.runs[r].state == Pending && db.runs[r].cancel
    ensures !CanRun(db, r)
  {
    forall ops ensures !(r in Exec(db, ops).runs && Exec(db, ops).runs[r].state == Running) {
      FlaggedPendingNeverRuns(db, ops, r);
    }
  }

  lemma SuspensionWaits(db: Db, r: Id, token: Id, expected: nat, cp: Checkpoint, i: Id, kind: string, request: Value, now: real)
    requires Invariant(db) && Suspend(db, r, token, expected, cp, i, kind, request, now).Ok?
    ensures var waiting := Suspend(db, r, token, expected, cp, i, kind, request, now).value;
      && Invariant(waiting) && r in db.runs && r in waiting.runs && waiting.runs[r].cancel == db.runs[r].cancel
      && i in waiting.interrupts && waiting.interrupts[i].run == r && waiting.interrupts[i].state == Asked
  {
    var op := OpSuspend(r, token, expected, cp, i, kind, request, now);
    SuspensionWrites(db, r, token, expected, cp, i, kind, request, now);
    StepKeepsWellFormed(db, op);
    ClashOnlyWhenFailingAgain(db, op);
  }

  lemma SuspensionWrites(db: Db, r: Id, token: Id, expected: nat, cp: Checkpoint, i: Id, kind: string, request: Value, now: real)
    requires Suspend(db, r, token, expected, cp, i, kind, request, now).Ok?
    ensures var waiting := Suspend(db, r, token, expected, cp, i, kind, request, now).value;
      && r in db.runs && r in waiting.runs && waiting.runs[r].cancel == db.runs[r].cancel
      && i in waiting.interrupts && waiting.interrupts[i].run == r && waiting.interrupts[i].state == Asked
  {}

  /** A pending interrupt can be allowed, which makes its run PENDING with its flag as it was. */
  lemma AllowOpens(db: Db, i: Id, response: Value)
    requires Invariant(db) && i in db.interrupts && db.interrupts[i].state == Asked
    ensures ResolveInterrupt(db, i, true, response).Ok? && db.interrupts[i].run in db.runs
    ensures var open, r := ResolveInterrupt(db, i, true, response).value, db.interrupts[i].run;
      Invariant(open) && r in open.runs && open.runs[r].state == Pending && open.runs[r].cancel == db.runs[r].cancel
  {
    var op := OpResolve(i, true, response);
    PendingInterruptResolvable(db, i, true, response);
    assert PendingOn(db.interrupts, db.interrupts[i].run, i);
    StepKeepsWellFormed(db, op);
    ClashOnlyWhenFailingAgain(db, op);
  }

  /** An allowed interrupt lets its run go on if and only if no cancel request is pending at
      that moment: otherwise the run is stuck, PENDING and flagged. */
  lemma AllowedRunGoesOn(db: Db, i: Id, response: Value)
    requires Invariant(db) && i in db.interrupts && db.interrupts[i].state == Asked
    ensures ResolveInterrupt(db, i, true, response).Ok? && db.interrupts[i].run in db.runs
    ensures CanRun(ResolveInterrupt(db, i, true, response).value, db.interrupts[i].run)
      <==> !db.runs[db.interrupts[i].run].cancel
  {
    var r := db.interrupts[i].run;
    AllowOpens(db, i, response);
    var open := ResolveInterrupt(db, i, true, response).value;
    if open.runs[r].cancel { FlaggedCannotRun(open, r); } else { PendingCanRun(open, r); }
  }

  /** `suspend` does not look at the cancel request: a suspended run that is allowed to go on
      can run again if and only if it was not flagged when it was suspended. */
  lemma SuspendedRunGoesOn(db: Db, r: Id, token: Id, expected: nat, cp: Checkpoint, i: Id, kind: string, request: Value,
                           now: real, response: Value)
    requires Invariant(db) && Suspend(db, r, token, expected, cp, i, kind, request, now).Ok?
    ensures var waiting := Suspend(db, r, token, expected, cp, i, kind, request, now).value;
      && r in db.runs && ResolveInterrupt(waiting, i, true, response).Ok?
      && (CanRun(ResolveInterrupt(waiting, i, true, response).value, r) <==> !db.runs[r].cancel)
  {
    SuspensionWaits(db, r, token, expected, cp, i, kind, request, now);
    AllowedRunGoesOn(Suspend(db, r, token, expected, cp, i, kind, request, now).value, i, response);
  }

  /** Reopening is refused, with the error of the unique index and not one of its own,
      exactly when another run of the task is active. */
  lemma ReopenIndexViolation(db: Db, r: Id, evidence: Value)
    requires Get(evidence, "observation").Str? && Get(evidence, "observation").s != ""
    requires r in db.runs && Recoverable(db.runs[r])
    ensures ReopenUncertain(db, r, evidence) == Err(UniqueIndex) <==> exists a :: a != r && ActiveOn(db.runs, db.runs[r].task, a)
  {
    assert !ActiveOn(db.runs, db.runs[r].task, r);
  }
}
