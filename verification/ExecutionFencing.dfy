/** Lease fencing over whole runs of the store, for arbitrary clock readings: which token
    may change a run, and who wrote each checkpoint. */
module ExecutionFencing {
  import opened Values
  import opened Execution
  import opened ExecutionInvariant
  import opened ExecutionFrames

  /** A store with its past: the run and attempt each lease token was issued for, and the
      token that wrote each checkpoint. */
  datatype History = History(db: Db, issued: map<Id, (Id, nat)>, writers: map<(Id, nat), Id>)

  const START := History(EMPTY_DB, map[], map[])

  /** The past after a call that returned `s`: refused calls leave no trace. */
  function Extend(h: History, op: Op, s: Result<Db, Error>): History {
    match s
    case Err(_) => h
    case Ok(db) =>
      History(db,
        if op.OpClaim? && op.r in db.runs then h.issued[op.token := (op.r, db.runs[op.r].attempt)] else h.issued,
        if op.OpSave? || op.OpSuspend? then h.writers[(op.r, op.expected + 1) := op.token] else h.writers)
  }

  ghost function Next(h: History, op: Op): History { Extend(h, op, Step(h.db, op)) }

  ghost function Past(ops: seq<Op>): History {
    if ops == [] then START else Next(Past(ops[..|ops| - 1]), ops[|ops| - 1])
  }

  /** `claim_run` draws a new token every time. */
  predicate FreshTokens(ops: seq<Op>) {
    forall j, k | 0 <= j < k < |ops| && ops[j].OpClaim? && ops[k].OpClaim? :: ops[j].token != ops[k].token
  }

  lemma {:induction false} PastIsExec(ops: seq<Op>)
    ensures Past(ops).db == Exec(EMPTY_DB, ops)
  {
    if ops != [] { PastIsExec(ops[..|ops| - 1]); }
  }

  // -- the invariant -------------------------------------------------------------

  /** A run's current token was issued for it at its current attempt; attempts of issued
      tokens are past or present; two tokens never stand for the same attempt. */
  ghost predicate TokensOk(runs: map<Id, Run>, issued: map<Id, (Id, nat)>) {
    && (forall q | q in runs && runs[q].token.Some? ::
          runs[q].token.value in issued && issued[runs[q].token.value] == (q, runs[q].attempt))
    && (forall t | t in issued :: issued[t].0 in runs && issued[t].1 <= runs[issued[t].0].attempt)
    && (forall s, t | s in issued && t in issued && issued[s] == issued[t] :: s == t)
  }

  /** Every checkpoint was written under a token of its run, by non-decreasing attempts. */
  ghost predicate WritersOk(checkpoints: map<(Id, nat), Checkpoint>, issued: map<Id, (Id, nat)>, writers: map<(Id, nat), Id>) {
    && writers.Keys == checkpoints.Keys
    && (forall c | c in writers :: writers[c] in issued && issued[writers[c]].0 == c.0)
    && (forall c, d | c in writers && d in writers && c.0 == d.0 && c.1 <= d.1 ::
          issued[writers[c]].1 <= issued[writers[d]].1)
  }

  ghost predicate FenceOk(h: History) {
    && TokensOk(h.db.runs, h.issued) && WritersOk(h.db.checkpoints, h.issued, h.writers)
    && CheckpointsOk(h.db.runs, h.db.checkpoints)
  }

  ghost predicate Fresh(h: History, op: Op) { op.OpClaim? ==> op.token !in h.issued }

  lemma TokensKept(h: History, op: Op, next: Db)
    requires TokensOk(h.db.runs, h.issued) && Fresh(h, op) && Framed(h.db, op, next)
    ensures TokensOk(next.runs, Extend(h, op, Ok(next)).issued)
  {
    if next.runs != h.db.runs && !op.OpClaim? {
      var q :| RunFrame(h.db, op, next, q);
    }
  }

  lemma IssuedKept(h: History, op: Op, next: Db)
    requires Fresh(h, op)
    ensures var issued := Extend(h, op, Ok(next)).issued; forall t | t in h.issued :: t in issued && issued[t] == h.issued[t]
  {}

  lemma WritersStay(checkpoints: map<(Id, nat), Checkpoint>, a: map<Id, (Id, nat)>, b: map<Id, (Id, nat)>, writers: map<(Id, nat), Id>)
    requires WritersOk(checkpoints, a, writers) && forall t | t in a :: t in b && b[t] == a[t]
    ensures WritersOk(checkpoints, b, writers)
  {}

  lemma EarlierWriter(h: History, r: Id, token: Id, d: (Id, nat))
    requires FenceOk(h) && r in h.db.runs && h.db.runs[r].token == Some(token) && d in h.writers && d.0 == r
    ensures d.1 <= h.db.runs[r].version && token in h.issued && h.issued[h.writers[d]].1 <= h.issued[token].1
  {
    assert (d.0, d.1) in h.db.checkpoints;
    assert h.issued[token] == (r, h.db.runs[r].attempt);
  }

  lemma WritersExtend(checkpoints: map<(Id, nat), Checkpoint>, issued: map<Id, (Id, nat)>, writers: map<(Id, nat), Id>,
                      c: (Id, nat), cp: Checkpoint, token: Id)
    requires WritersOk(checkpoints, issued, writers) && token in issued && issued[token].0 == c.0
    requires forall d | d in writers && d.0 == c.0 :: d.1 < c.1 && issued[writers[d]].1 <= issued[token].1
    ensures WritersOk(checkpoints[c := cp], issued, writers[c := token])
  {}

  /** The writer of a new checkpoint holds the latest attempt of the run. */
  lemma WritersGrow(h: History, r: Id, token: Id, cp: Checkpoint)
    requires FenceOk(h) && r in h.db.runs && h.db.runs[r].token == Some(token)
    ensures var c := (r, h.db.runs[r].version + 1);
            WritersOk(h.db.checkpoints[c := cp], h.issued, h.writers[c := token])
  {
    var c := (r, h.db.runs[r].version + 1);
    assert h.issued[token] == (r, h.db.runs[r].attempt);
    forall d | d in h.writers && d.0 == r ensures d.1 < c.1 && h.issued[h.writers[d]].1 <= h.issued[token].1 {
      EarlierWriter(h, r, token, d);
    }
    WritersExtend(h.db.checkpoints, h.issued, h.writers, c, cp, token);
  }

  lemma FenceKept(h: History, op: Op, next: Db)
    requires FenceOk(h) && Fresh(h, op) && Framed(h.db, op, next) && CheckpointsOk(next.runs, next.checkpoints)
    ensures FenceOk(Extend(h, op, Ok(next)))
  {
    TokensKept(h, op, next);
    if op.OpSave? || op.OpSuspend? {
      WritersGrow(h, op.r, op.token, op.cp);
    } else {
      IssuedKept(h, op, next);
      WritersStay(h.db.checkpoints, h.issued, Extend(h, op, Ok(next)).issued, h.writers);
    }
  }

  lemma StepKeepsFence(h: History, op: Op)
    requires FenceOk(h) && Fresh(h, op) && WellFormed(h.db)
    ensures FenceOk(Next(h, op)) && WellFormed(Next(h, op).db)
  {
    StepKeepsWellFormed(h.db, op);
    if Step(h.db, op).Ok? {
      StepFrame(h.db, op);
      FenceKept(h, op, Step(h.db, op).value);
    }
  }

  lemma {:induction false} IssuedByClaims(ops: seq<Op>, t: Id)
    requires t in Past(ops).issued
    ensures exists k :: 0 <= k < |ops| && ops[k].OpClaim? && ops[k].token == t
  {
    if ops != [] {
      var last := |ops| - 1;
      if t in Past(ops[..last]).issued {
        IssuedByClaims(ops[..last], t);
        var k :| 0 <= k < last && ops[..last][k].OpClaim? && ops[..last][k].token == t;
        assert ops[k].OpClaim? && ops[k].token == t;
      } else {
        assert ops[last].OpClaim? && ops[last].token == t;
      }
    }
  }

  lemma LastIsFresh(ops: seq<Op>)
    requires ops != [] && FreshTokens(ops)
    ensures FreshTokens(ops[..|ops| - 1]) && Fresh(Past(ops[..|ops| - 1]), ops[|ops| - 1])
  {
    var last := |ops| - 1;
    if ops[last].OpClaim? && ops[last].token in Past(ops[..last]).issued {
      IssuedByClaims(ops[..last], ops[last].token);
    }
  }

  lemma {:induction false} ReachableFenceOk(ops: seq<Op>)
    requires FreshTokens(ops)
    ensures FenceOk(Past(ops)) && WellFormed(Past(ops).db)
  {
    if ops != [] {
      var last := |ops| - 1;
      LastIsFresh(ops);
      ReachableFenceOk(ops[..last]);
      StepKeepsFence(Past(ops[..last]), ops[last]);
    }
  }

  // -- a lost lease is lost for good -------------------------------------------------

  predicate Uses(op: Op, t: Id) { LeaseOp(op) && !op.OpClaim? && op.token == t }

  /** The token was issued and is no longer its run's current token. */
  predicate Superseded(h: History, t: Id) {
    t in h.issued && h.issued[t].0 in h.db.runs && h.db.runs[h.issued[t].0].token != Some(t)
  }

  lemma SupersededStaysFramed(h: History, op: Op, t: Id, next: Db)
    requires TokensOk(h.db.runs, h.issued) && Fresh(h, op) && Superseded(h, t) && Framed(h.db, op, next)
    ensures Superseded(Extend(h, op, Ok(next)), t)
  {
    if next.runs != h.db.runs && !op.OpClaim? {
      var q :| RunFrame(h.db, op, next, q);
    }
  }

  lemma SupersededStays(h: History, op: Op, t: Id)
    requires TokensOk(h.db.runs, h.issued) && Fresh(h, op) && Superseded(h, t)
    ensures Superseded(Next(h, op), t)
  {
    StepFrame(h.db, op);
    if Step(h.db, op).Ok? { SupersededStaysFramed(h, op, t, Step(h.db, op).value); }
  }

  lemma SupersededOwnsNothing(h: History, t: Id, q: Id, now: real)
    requires TokensOk(h.db.runs, h.issued) && Superseded(h, t)
    ensures !Owns(h.db, q, t, now)
  {}

  lemma NotOwnedRefused(db: Db, op: Op, t: Id)
    requires Uses(op, t) && !Owns(db, op.r, t, op.now)
    ensures Step(db, op).Err?
  {}

  lemma ReachableTokensOk(ops: seq<Op>)
    requires FreshTokens(ops)
    ensures TokensOk(Past(ops).db.runs, Past(ops).issued)
  {
    ReachableFenceOk(ops);
  }

  lemma SupersededNext(ops: seq<Op>, op: Op, t: Id)
    requires FreshTokens(ops + [op]) && Superseded(Past(ops), t)
    ensures Superseded(Past(ops + [op]), t)
  {
    assert (ops + [op])[..|ops|] == ops;
    LastIsFresh(ops + [op]);
    ReachableTokensOk(ops);
    SupersededStays(Past(ops), op, t);
  }

  lemma {:induction false} SupersededForever(past: seq<Op>, future: seq<Op>, t: Id)
    requires FreshTokens(past + future) && Superseded(Past(past), t)
    ensures Superseded(Past(past + future), t)
    decreases |future|
  {
    if future == [] {
      assert past + future == past;
    } else {
      var before, op := future[..|future| - 1], future[|future| - 1];
      assert past + future == past + before + [op];
      assert forall k | 0 <= k < |past + before| :: (past + before)[k] == (past + future)[k];
      SupersededForever(past, before, t);
      SupersededNext(past + before, op, t);
    }
  }

  /** Fencing: a token that has stopped being its run's current token changes nothing ever
      again, whatever happens in between and whatever the clocks say. */
  lemma LostLeaseIsLostForever(past: seq<Op>, future: seq<Op>, t: Id, op: Op)
    requires FreshTokens(past + future) && Superseded(Past(past), t) && Uses(op, t)
    ensures Step(Exec(EMPTY_DB, past + future), op).Err?
    ensures Exec(EMPTY_DB, past + future + [op]) == Exec(EMPTY_DB, past + future)
  {
    var all := past + future;
    SupersededForever(past, future, t);
    ReachableFenceOk(all);
    PastIsExec(all);
    SupersededOwnsNothing(Past(all), t, op.r, op.now);
    NotOwnedRefused(Exec(EMPTY_DB, all), op, t);
    assert (all + [op])[..|all|] == all;
  }

  lemma EndedLeaseSupersededFramed(h: History, op: Op, next: Db, r: Id)
    requires TokensOk(h.db.runs, h.issued) && Fresh(h, op) && Framed(h.db, op, next)
    requires r in h.db.runs && h.db.runs[r].token.Some? && r in next.runs && next.runs[r].token != h.db.runs[r].token
    ensures Superseded(Extend(h, op, Ok(next)), h.db.runs[r].token.value)
  {}

  /** Every lease that ends, by claim, suspension, settlement or cancellation, is superseded. */
  lemma EndedLeaseSuperseded(ops: seq<Op>, op: Op, r: Id)
    requires FreshTokens(ops + [op]) && r in Past(ops).db.runs && Past(ops).db.runs[r].token.Some?
    requires r in Past(ops + [op]).db.runs && Past(ops + [op]).db.runs[r].token != Past(ops).db.runs[r].token
    ensures Superseded(Past(ops + [op]), Past(ops).db.runs[r].token.value)
  {
    assert (ops + [op])[..|ops|] == ops;
    LastIsFresh(ops + [op]);
    ReachableFenceOk(ops);
    StepFrame(Past(ops).db, op);
    EndedLeaseSupersededFramed(Past(ops), op, Step(Past(ops).db, op).value, r);
  }

  // -- who wrote what -------------------------------------------------------------------

  /** Attempts of the writers never decrease along a run's checkpoints, an attempt has one
      owner, and what one owner wrote is contiguous. */
  ghost predicate Blocks(h: History, r: Id, v: nat, w: nat) {
    && (r, v) in h.writers && (r, w) in h.writers && h.writers[(r, v)] in h.issued && h.writers[(r, w)] in h.issued
    && h.issued[h.writers[(r, v)]].1 <= h.issued[h.writers[(r, w)]].1
    && (h.issued[h.writers[(r, v)]].1 == h.issued[h.writers[(r, w)]].1 <==> h.writers[(r, v)] == h.writers[(r, w)])
    && (h.writers[(r, v)] == h.writers[(r, w)] ==>
          forall u: nat | v <= u <= w :: (r, u) in h.writers && h.writers[(r, u)] == h.writers[(r, v)])
  }

  lemma AttemptBetween(checkpoints: map<(Id, nat), Checkpoint>, issued: map<Id, (Id, nat)>, writers: map<(Id, nat), Id>,
                       c: (Id, nat), d: (Id, nat), e: (Id, nat))
    requires WritersOk(checkpoints, issued, writers) && c in writers && d in writers && e in writers
    requires c.0 == d.0 == e.0 && c.1 <= d.1 <= e.1 && writers[c] == writers[e]
    ensures writers[c] in issued && writers[d] in issued && issued[writers[c]] == issued[writers[d]]
  {
    var a, b := writers[c], writers[d];
    assert issued[a].0 == issued[b].0 && issued[a].1 == issued[b].1;
  }

  lemma BlocksIn(h: History, r: Id, v: nat, w: nat)
    requires FenceOk(h) && (r, v) in h.db.checkpoints && (r, w) in h.db.checkpoints && v <= w
    ensures Blocks(h, r, v, w)
  {
    var a, b := h.writers[(r, v)], h.writers[(r, w)];
    assert h.issued[a].1 == h.issued[b].1 ==> h.issued[a] == h.issued[b];
    if a == b {
      forall u: nat | v <= u <= w ensures (r, u) in h.writers && h.writers[(r, u)] == a {
        assert (r, u) in h.db.checkpoints;
        AttemptBetween(h.db.checkpoints, h.issued, h.writers, (r, v), (r, u), (r, w));
      }
    }
  }

  /** The checkpoints of a run fall into contiguous blocks, one per owner, in the order of
      the owners' attempts. */
  lemma CheckpointBlocks(ops: seq<Op>, r: Id, v: nat, w: nat)
    requires FreshTokens(ops) && v <= w
    requires (r, v) in Exec(EMPTY_DB, ops).checkpoints && (r, w) in Exec(EMPTY_DB, ops).checkpoints
    ensures Blocks(Past(ops), r, v, w)
  {
    PastIsExec(ops);
    ReachableFenceOk(ops);
    BlocksIn(Past(ops), r, v, w);
  }
}
