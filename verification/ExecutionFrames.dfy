/** What one call on the store may change: at most one run, and how. */
module ExecutionFrames {
  import opened Values
  import opened Execution

  // -- what one call may do to tokens and checkpoints --------------------------

  predicate TokenFrame(db: Db, op: Op, q: Id, run: Run) {
    || run.token.None?
    || (q in db.runs && run.token == db.runs[q].token && run.attempt == db.runs[q].attempt)
    || (op.OpClaim? && q == op.r && q in db.runs && run.token == Some(op.token) && run.attempt == db.runs[q].attempt + 1)
  }

  /** How a call may move a run along its life cycle. */
  predicate RunMoves(op: Op, a: Run, b: Run) {
    && b.task == a.task && a.attempt <= b.attempt && a.version <= b.version
    && (b != a ==> IsActive(a.state) || (op.OpReopen? && a.state == Failed && b.state == Pending && !b.cancel))
    && (a.cancel && !op.OpReopen? ==> b.cancel)
    && (b.state == Running && a.state != Running ==> op.OpClaim? && a.state == Pending && !a.cancel)
    && (b.state == Completed && a.state != Completed ==>
          a.state == Running && !a.cancel && op.OpComplete? && b.result == Some(op.result))
    && (b.state == Waiting && a.state != Waiting ==> op.OpSuspend?)
    && (a.state == Waiting && b.state != Waiting ==> b.state == Cancelled || (op.OpResolve? && op.allow && b.state == Pending))
    && (b.version != a.version ==> op.OpSave? || op.OpSuspend?)
    && (a.state == Pending && b != a ==> b.state == Running || (b.state == Cancelled && b.version == a.version))
  }

  /** The run a call may touch. */
  predicate Touches(db: Db, op: Op, q: Id) {
    && (LeaseOp(op) || op.OpReopen? || op.OpCreateRun? || op.OpRequestCancel? ==> q == op.r)
    && (op.OpResolve? ==> op.i in db.interrupts && db.interrupts[op.i].state == Asked && q == db.interrupts[op.i].run)
  }

  /** One run changes at most. */
  ghost predicate RunFrame(db: Db, op: Op, next: Db, q: Id) {
    && q in next.runs && next.runs == db.runs[q := next.runs[q]]
    && TokenFrame(db, op, q, next.runs[q])
    && (q in db.runs ==> RunMoves(op, db.runs[q], next.runs[q])) && Touches(db, op, q)
  }

  ghost predicate RunsFrame(db: Db, op: Op, next: Db) {
    next.runs == db.runs || exists q :: RunFrame(db, op, next, q)
  }

  ghost predicate CheckpointsFrame(db: Db, op: Op, next: Db) {
    if op.OpSave? || op.OpSuspend? then
      && Owns(db, op.r, op.token, op.now) && op.expected == db.runs[op.r].version
      && (op.r, op.expected + 1) !in db.checkpoints
      && next.checkpoints == db.checkpoints[(op.r, op.expected + 1) := op.cp]
    else next.checkpoints == db.checkpoints
  }

  /** The frame of one call, seen from one run. */
  lemma RunFramed(db: Db, op: Op, next: Db, r: Id)
    requires Framed(db, op, next) && r in db.runs
    ensures r in next.runs && RunMoves(op, db.runs[r], next.runs[r]) && TokenFrame(db, op, r, next.runs[r])
    ensures next.runs[r] != db.runs[r] ==> Touches(db, op, r)
  {
    if next.runs != db.runs { var q :| RunFrame(db, op, next, q); }
  }

  predicate RowKept(a: Interrupt, b: Interrupt) {
    b.run == a.run && b.kind == a.kind && (a.state != Asked ==> b == a)
  }

  /** A resolved interrupt never changes, and only a suspension adds one. */
  ghost predicate InterruptsFrame(db: Db, op: Op, next: Db) {
    && (forall i | i in db.interrupts :: i in next.interrupts && RowKept(db.interrupts[i], next.interrupts[i]))
    && (forall i | i in next.interrupts && i !in db.interrupts ::
          op.OpSuspend? && i == op.i && next.interrupts[i].run == op.r && next.interrupts[i].kind == op.kind && next.interrupts[i].state == Asked)
    && (op.OpResolve? && op.allow && next.runs != db.runs ==>
          op.i in next.interrupts && next.interrupts[op.i].state == Allowed)
  }

  lemma LeaseOpInterrupts(db: Db, op: Op)
    requires LeaseOp(op) && Step(db, op).Ok?
    ensures InterruptsFrame(db, op, Step(db, op).value)
  {}

  lemma ResolveInterrupts(db: Db, op: Op)
    requires op.OpResolve? && Step(db, op).Ok?
    ensures InterruptsFrame(db, op, Step(db, op).value)
  {}

  lemma RequestCancelInterrupts(db: Db, op: Op)
    requires op.OpRequestCancel? && Step(db, op).Ok?
    ensures InterruptsFrame(db, op, Step(db, op).value)
  {}

  lemma CancelTaskInterrupts(db: Db, op: Op)
    requires op.OpCancelTask? && Step(db, op).Ok?
    ensures InterruptsFrame(db, op, Step(db, op).value)
  {}

  lemma OtherInterrupts(db: Db, op: Op)
    requires !LeaseOp(op) && !op.OpResolve? && !op.OpRequestCancel? && !op.OpCancelTask? && Step(db, op).Ok?
    ensures Step(db, op).value.interrupts == db.interrupts && InterruptsFrame(db, op, Step(db, op).value)
  {}

  lemma StepInterrupts(db: Db, op: Op)
    ensures Step(db, op).Ok? ==> InterruptsFrame(db, op, Step(db, op).value)
  {
    if Step(db, op).Ok? {
      if LeaseOp(op) { LeaseOpInterrupts(db, op); }
      else if op.OpResolve? { ResolveInterrupts(db, op); }
      else if op.OpRequestCancel? { RequestCancelInterrupts(db, op); }
      else if op.OpCancelTask? { CancelTaskInterrupts(db, op); }
      else { OtherInterrupts(db, op); }
    }
  }

  lemma WriterFrame(db: Db, op: Op)
    requires (op.OpSave? || op.OpSuspend?) && Step(db, op).Ok?
    ensures RunFrame(db, op, Step(db, op).value, op.r) && CheckpointsFrame(db, op, Step(db, op).value)
  {}

  lemma ClaimFrame(db: Db, op: Op)
    requires (op.OpClaim? || op.OpRenew?) && Step(db, op).Ok?
    ensures RunFrame(db, op, Step(db, op).value, op.r) && CheckpointsFrame(db, op, Step(db, op).value)
    ensures op.OpClaim? ==> Step(db, op).value.runs[op.r].token == Some(op.token)
  {}

  lemma SettleFrame(db: Db, op: Op)
    requires (op.OpComplete? || op.OpFail? || op.OpFinishCancelled?) && Step(db, op).Ok?
    ensures RunFrame(db, op, Step(db, op).value, op.r) && CheckpointsFrame(db, op, Step(db, op).value)
  {}

  lemma ReopenFrame(db: Db, op: Op)
    requires (op.OpReopen? || op.OpCreateRun?) && Step(db, op).Ok?
    ensures RunFrame(db, op, Step(db, op).value, op.r) && CheckpointsFrame(db, op, Step(db, op).value)
  {}

  lemma ResolveFrame(db: Db, op: Op)
    requires op.OpResolve? && Step(db, op).Ok?
    ensures RunsFrame(db, op, Step(db, op).value) && CheckpointsFrame(db, op, Step(db, op).value)
  {
    if db.interrupts[op.i].state == Asked { assert RunFrame(db, op, Step(db, op).value, db.interrupts[op.i].run); }
  }

  lemma RequestCancelFrame(db: Db, op: Op)
    requires op.OpRequestCancel? && Step(db, op).Ok?
    ensures RunsFrame(db, op, Step(db, op).value) && CheckpointsFrame(db, op, Step(db, op).value)
  {
    if IsActive(db.runs[op.r].state) { assert RunFrame(db, op, Step(db, op).value, op.r); }
  }

  lemma CancelTaskFrame(db: Db, op: Op)
    requires op.OpCancelTask? && Step(db, op).Ok?
    ensures RunsFrame(db, op, Step(db, op).value) && CheckpointsFrame(db, op, Step(db, op).value)
  {
    if db.tasks[op.t].state == TaskOpen && ActiveRun(db.runs, op.t).Some? {
      assert RunFrame(db, op, Step(db, op).value, ActiveRun(db.runs, op.t).value);
    }
  }

  lemma OtherFrame(db: Db, op: Op)
    requires (op.OpCreateTask? || op.OpAppendEvent? || op.OpConfigure? || op.OpReserve?) && Step(db, op).Ok?
    ensures RunsFrame(db, op, Step(db, op).value) && CheckpointsFrame(db, op, Step(db, op).value)
  {}

  /** Everything fencing needs to know about a successful call. */
  ghost predicate Framed(db: Db, op: Op, next: Db) {
    && RunsFrame(db, op, next) && CheckpointsFrame(db, op, next)
    && (op.OpClaim? ==> RunFrame(db, op, next, op.r) && next.runs[op.r].token == Some(op.token))
  }

  lemma StepFrame(db: Db, op: Op)
    ensures Step(db, op).Ok? ==> Framed(db, op, Step(db, op).value)
  {
    if Step(db, op).Ok? {
      if op.OpSave? || op.OpSuspend? { WriterFrame(db, op); }
      else if op.OpClaim? || op.OpRenew? { ClaimFrame(db, op); }
      else if op.OpComplete? || op.OpFail? || op.OpFinishCancelled? { SettleFrame(db, op); }
      else if op.OpReopen? || op.OpCreateRun? { ReopenFrame(db, op); }
      else if op.OpResolve? { ResolveFrame(db, op); }
      else if op.OpRequestCancel? { RequestCancelFrame(db, op); }
      else if op.OpCancelTask? { CancelTaskFrame(db, op); }
      else { OtherFrame(db, op); }
    }
  }
}
