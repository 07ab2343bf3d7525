/** The audit outbox is mirrored into a Claim tape by `repair_audit`: every row exactly once
    and in row order, through any number of bounded repairs, restarts and further calls. */
module ExecutionMirror {
  import opened Values
  import opened Execution

  /** `json_extract(fields_json, '$.run_id')` */
  function RunOf(body: AuditBody): Option<Id> {
    match body
    case RunCreated(r, _) => Some(r)
    case RunClaimed(r, _, _, _) => Some(r)
    case LeaseRenewed(r, _, _, _) => Some(r)
    case CheckpointSaved(r, _, _) => Some(r)
    case InterruptAsked(_, r, _) => Some(r)
    case InterruptResolved(_, r, _, _) => Some(r)
    case CancelRequested(r, _) => Some(r)
    case RunSettled(r, _, _, _) => Some(r)
    case RunFailed(r, _, _, _) => Some(r)
    case RunReopened(r, _, _) => Some(r)
    case _ => None
  }

  /** The rows a mirror wants: all of them, or those of one run. */
  predicate Wanted(run: Option<Id>, e: AuditEvent) { run.None? || RunOf(e.body) == run }

  function Pick(rows: seq<AuditEvent>, run: Option<Id>): seq<AuditEvent> {
    if rows == [] then []
    else
      var last := rows[|rows| - 1];
      Pick(rows[..|rows| - 1], run) + if Wanted(run, last) then [last] else []
  }

  predicate DistinctRows(rows: seq<AuditEvent>) {
    forall j, k | 0 <= j < k < |rows| :: rows[j].id != rows[k].id
  }

  // -- the outbox only grows and never repeats an identity ---------------------

  lemma {:induction false} LookupFinds(rows: seq<AuditEvent>, k: nat)
    requires k < |rows|
    ensures Lookup(rows, rows[k].id).Some?
  {
    if k < |rows| - 1 {
      assert rows[..|rows| - 1][k] == rows[k];
      LookupFinds(rows[..|rows| - 1], k);
    }
  }

  lemma RecordGrows(rows: seq<AuditEvent>, e: AuditEvent)
    requires DistinctRows(rows) && Record(rows, e).Some?
    ensures rows <= Record(rows, e).value && DistinctRows(Record(rows, e).value)
  {
    forall k | 0 <= k < |rows| ensures Lookup(rows, rows[k].id).Some? { LookupFinds(rows, k); }
  }

  lemma {:induction false} RecordAllGrows(rows: seq<AuditEvent>, es: seq<AuditEvent>)
    requires DistinctRows(rows) && RecordAll(rows, es).Some?
    ensures rows <= RecordAll(rows, es).value && DistinctRows(RecordAll(rows, es).value)
    decreases |es|
  {
    if es != [] {
      RecordGrows(rows, es[0]);
      RecordAllGrows(Record(rows, es[0]).value, es[1..]);
    }
  }

  /** A successful call appends some rows to the outbox and touches no other row. */
  ghost predicate Appends(db: Db, s: Result<Db, Error>) {
    s.Ok? ==> s.value.audit == db.audit || exists es :: RecordAll(db.audit, es) == Some(s.value.audit)
  }

  lemma WriterAppends(db: Db, op: Op)
    requires op.OpSave? || op.OpSuspend?
    ensures Appends(db, Step(db, op))
  {}

  lemma SettlerAppends(db: Db, op: Op)
    requires LeaseOp(op) && !op.OpSave? && !op.OpSuspend?
    ensures Appends(db, Step(db, op))
  {}

  lemma CancellerAppends(db: Db, op: Op)
    requires op.OpResolve? || op.OpRequestCancel? || op.OpCancelTask?
    ensures Appends(db, Step(db, op))
  {}

  lemma CreatorAppends(db: Db, op: Op)
    requires op.OpCreateTask? || op.OpCreateRun? || op.OpReopen?
    ensures Appends(db, Step(db, op))
  {}

  lemma SharedAppends(db: Db, op: Op)
    requires op.OpAppendEvent? || op.OpConfigure? || op.OpReserve?
    ensures Appends(db, Step(db, op))
  {}

  lemma OtherOpAppends(db: Db, op: Op)
    requires !LeaseOp(op)
    ensures Appends(db, Step(db, op))
  {
    if op.OpResolve? || op.OpRequestCancel? || op.OpCancelTask? { CancellerAppends(db, op); }
    else if op.OpCreateTask? || op.OpCreateRun? || op.OpReopen? { CreatorAppends(db, op); }
    else { SharedAppends(db, op); }
  }

  /** The outbox only grows, and its identities stay distinct. */
  lemma {:induction false} OutboxGrows(db: Db, ops: seq<Op>)
    requires DistinctRows(db.audit)
    ensures db.audit <= Exec(db, ops).audit && DistinctRows(Exec(db, ops).audit)
  {
    if ops != [] {
      var before, op := Exec(db, ops[..|ops| - 1]), ops[|ops| - 1];
      OutboxGrows(db, ops[..|ops| - 1]);
      if op.OpSave? || op.OpSuspend? { WriterAppends(before, op); }
      else if LeaseOp(op) { SettlerAppends(before, op); }
      else { OtherOpAppends(before, op); }
      if Step(before, op).Ok? && Step(before, op).value.audit != before.audit {
        var es :| RecordAll(before.audit, es) == Some(Step(before, op).value.audit);
        RecordAllGrows(before.audit, es);
      }
    }
  }

  // -- the mirror --------------------------------------------------------------

  lemma {:induction false} PickConcat(a: seq<AuditEvent>, b: seq<AuditEvent>, run: Option<Id>)
    ensures Pick(a + b, run) == Pick(a, run) + Pick(b, run)
    decreases |b|
  {
    if b == [] {
      assert a + b == a;
    } else {
      assert (a + b)[..|a + b| - 1] == a + b[..|b| - 1];
      PickConcat(a, b[..|b| - 1], run);
    }
  }

  lemma {:induction false} PickMembers(rows: seq<AuditEvent>, run: Option<Id>, e: AuditEvent)
    ensures e in Pick(rows, run) <==> e in rows && Wanted(run, e)
  {
    if rows != [] {
      PickMembers(rows[..|rows| - 1], run, e);
      assert rows == rows[..|rows| - 1] + [rows[|rows| - 1]];
    }
  }

  /** `contains_claim_id` on the tape. */
  predicate Known(tape: seq<AuditEvent>, e: AuditEvent) { exists k | 0 <= k < |tape| :: tape[k].id == e.id }

  /** A wanted row is on the tape exactly when it belongs to the mirrored prefix. */
  lemma KnownExactly(rows: seq<AuditEvent>, run: Option<Id>, done: nat, k: nat)
    requires DistinctRows(rows) && done <= |rows| && k < |rows| && Wanted(run, rows[k])
    ensures Known(Pick(rows[..done], run), rows[k]) <==> k < done
  {
    var tape := Pick(rows[..done], run);
    if k < done {
      assert rows[..done][k] == rows[k];
      PickMembers(rows[..done], run, rows[k]);
      var j :| 0 <= j < |tape| && tape[j] == rows[k];
    } else {
      forall j | 0 <= j < |tape| ensures tape[j].id != rows[k].id {
        PickMembers(rows[..done], run, tape[j]);
      }
    }
  }

  lemma PickSnoc(rows: seq<AuditEvent>, run: Option<Id>, k: nat)
    requires k < |rows|
    ensures Pick(rows[..k + 1], run) == Pick(rows[..k], run) + if Wanted(run, rows[k]) then [rows[k]] else []
  {
    assert rows[..k + 1][..k] == rows[..k];
  }

  /** The mirror side of a store: which rows it wants, where it reads on, and the tape. */
  class AuditMirror {
    const run: Option<Id>
    var cursor: nat
    var tape: seq<AuditEvent>

    /** The tape holds the wanted rows of the first `done` outbox rows, and the cursor has
        not run ahead of them. */
    ghost predicate Mirrors(outbox: seq<AuditEvent>, done: nat)
      reads this
    {
      DistinctRows(outbox) && cursor <= done <= |outbox| && tape == Pick(outbox[..done], run)
    }

    /** A restarted process reads from the beginning into the tape it finds. */
    constructor (run: Option<Id>, tape: seq<AuditEvent>)
      ensures this.run == run && cursor == 0 && this.tape == tape
    {
      this.run, cursor, this.tape := run, 0, tape;
    }

    /** `rowset.fold`: a claim id that is on the tape already is folded into nothing. */
    method Fold(e: AuditEvent) returns (added: bool)
      modifies this`tape
      ensures added <==> !Known(old(tape), e)
      ensures tape == if added then old(tape) + [e] else old(tape)
    {
      added := !(exists k | 0 <= k < |tape| :: tape[k].id == e.id);
      if added { tape := tape + [e]; }
    }

    /** `repair_audit`: mirrors at most `limit` wanted rows beyond the cursor. The tape stays
        the picture of a prefix of the outbox, `repaired` counts the rows it gained, and
        without a limit it ends as the picture of the whole outbox. */
    method RepairAudit(outbox: seq<AuditEvent>, limit: Option<nat>, ghost done: nat) returns (repaired: nat, ghost now: nat)
      requires Mirrors(outbox, done) && (limit.Some? ==> limit.value > 0)
      modifies this`cursor, this`tape
      ensures Mirrors(outbox, now) && done <= now && old(cursor) <= cursor
      ensures |tape| == |old(tape)| + repaired && (limit.Some? ==> repaired <= limit.value)
      ensures limit.None? ==> tape == Pick(outbox, run)
    {
      var k, read := cursor, 0;
      repaired, now := 0, done;
      while k < |outbox| && !(limit.Some? && read == limit.value)
        invariant old(cursor) <= cursor <= k <= |outbox| && (run.None? ==> cursor == k)
        invariant done <= now <= |outbox| && k <= now && tape == Pick(outbox[..now], run)
        invariant repaired <= read && |tape| == |old(tape)| + repaired
        invariant limit.Some? ==> read <= limit.value
        invariant read == 0 ==> repaired == 0
        decreases |outbox| - k
      {
        if k == now { PickSnoc(outbox, run, k); }
        if Wanted(run, outbox[k]) {
          KnownExactly(outbox, run, now, k);
          var added := Fold(outbox[k]);
          if added { repaired := repaired + 1; }
          cursor := k + 1;
          read := read + 1;
        }
        k := k + 1;
        if now < k { now := k; }
      }
      if read == 0 && run.Some? {
        assert k == |outbox|;
        cursor := if cursor >= |outbox| then cursor else |outbox|;
      }
      if limit.None? { assert outbox[..|outbox|] == outbox; }
    }
  }

  /** What a mirror holds of an outbox it still holds of every later outbox, and a restart
      loses nothing: the next full repair brings each missing row once. */
  lemma MirrorSurvives(db: Db, ops: seq<Op>, run: Option<Id>, tape: seq<AuditEvent>, done: nat)
    requires DistinctRows(db.audit) && done <= |db.audit| && tape == Pick(db.audit[..done], run)
    ensures var later := Exec(db, ops).audit;
            && DistinctRows(later) && done <= |later| && tape == Pick(later[..done], run)
            && Pick(later, run) == tape + Pick(later[done..], run)
  {
    OutboxGrows(db, ops);
    var later := Exec(db, ops).audit;
    assert later[..done] == db.audit[..done];
    assert later == later[..done] + later[done..];
    PickConcat(later[..done], later[done..], run);
  }
}
