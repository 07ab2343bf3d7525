/** The invariant of the durable runner's world, kept by every move of every schedule. */
module RunnerInvariant {
  import opened Values
  import opened Execution
  import opened ExecutionInvariant
  import opened ExecutionFrames
  import opened Durable
  import opened ReactLoop
  import opened Runner
  import opened RunnerChain

  // -- the parts -----------------------------------------------------------------

  /** The stored checkpoints of the run are exactly the chain. */
  ghost predicate StoreOk(c: Setup, db: Db, chain: seq<Memory>) {
    && c.run in db.runs && db.runs[c.run].version == |chain|
    && (forall v: nat :: (c.run, v) in db.checkpoints <==> 1 <= v <= |chain|)
    && (forall k: nat | k < |chain| :: db.checkpoints[(c.run, k + 1)] == Encode(chain[k]))
  }

  /** The chain starts with the initial state, every checkpoint is in order, consecutive ones
      follow each other and any two are in order. */
  ghost predicate ChainOk(c: Setup, chain: seq<Memory>) {
    && (chain != [] ==> chain[0] == Ready(c.initial))
    && (forall k: nat | k < |chain| :: MemoryOk(c, chain[k]))
    && (forall k: nat | 0 < k < |chain| :: Follows(c, chain[k - 1], chain[k]))
    && (forall j: nat, k: nat | j < k < |chain| :: Later(chain[j], chain[k]))
  }

  predicate WorkerOk(c: Setup, tape: map<Id, Effect>, chain: seq<Memory>, worker: Worker) {
    && 1 <= worker.version <= |chain| && worker.mem == chain[worker.version - 1]
    && GotOk(c, tape, worker.mem, worker.got)
  }

  /** Workers stand on checkpoints of the chain. */
  ghost predicate WorkersStand(c: Setup, claimed: set<Id>, tape: map<Id, Effect>, chain: seq<Memory>, workers: map<Id, Worker>) {
    forall t | t in workers :: t in claimed && WorkerOk(c, tape, chain, workers[t])
  }

  /** The worker with the lease stands on the latest checkpoint. */
  ghost predicate OwnerOk(c: Setup, runs: map<Id, Run>, claimed: set<Id>, latest: nat, workers: map<Id, Worker>) {
    c.run in runs ==>
      && (runs[c.run].token.Some? ==> runs[c.run].token.value in claimed)
      && (forall t | t in workers && runs[c.run].token == Some(t) :: workers[t].version == latest)
  }

  /** Call `call` of iteration `i` may run: no input boundary, and its approval was granted. */
  predicate Granted(c: Setup, interrupts: map<Id, Interrupt>, i: nat, j: nat, call: Value) {
    && Needed(c.agent, c.agent.input, call).None?
    && (Needed(c.agent, c.agent.approval, call).Some? ==> IsAllowed(interrupts, ApprovalId(c.run, i, j)))
  }

  predicate ModelEffect(c: Setup, m: Memory, id: Id, request: Value) {
    m.BeforeLlm? && m.effect == id && request == RequestOf(m.state)
  }

  predicate ToolEffect(c: Setup, interrupts: map<Id, Interrupt>, m: Memory, id: Id, request: Value) {
    && InToolPhase(m) && id.Digest? && id == ToolId(c.run, m.state.iteration, id.j)
    && id.j < |m.calls| && request == m.calls[id.j] && Granted(c, interrupts, m.state.iteration, id.j, request)
  }

  /** Every effect on the tape was asked for by a checkpoint of the chain. */
  ghost predicate EffectOk(c: Setup, interrupts: map<Id, Interrupt>, chain: seq<Memory>, id: Id, request: Value) {
    exists k: nat :: k < |chain| && (ModelEffect(c, chain[k], id, request) || ToolEffect(c, interrupts, chain[k], id, request))
  }

  ghost predicate TapeOk(c: Setup, interrupts: map<Id, Interrupt>, chain: seq<Memory>, tape: map<Id, Effect>) {
    TapeFits(tape) && forall id | id in tape :: EffectOk(c, interrupts, chain, id, tape[id].request)
  }

  /** The live submissions are the effects on the tape, each once. */
  ghost predicate LogOk(tape: map<Id, Effect>, log: seq<Id>) {
    && (forall id :: id in log <==> id in tape)
    && (forall j, k | 0 <= j < k < |log| :: log[j] != log[k])
  }

  predicate Names(m: Memory, id: Id) { m.Tools? && (m.input == Some(id) || m.approval == Some(id)) }

  /** The run's interrupts are those its checkpoints name. */
  ghost predicate NamedOk(c: Setup, interrupts: map<Id, Interrupt>, chain: seq<Memory>) {
    && (forall i | i in interrupts :: OwnInterrupt(c.run, i) <==> interrupts[i].run == c.run)
    && (forall i | i in interrupts && OwnInterrupt(c.run, i) ::
          (interrupts[i].kind == "input" <==> i.domain == "input") && exists k: nat :: k < |chain| && Names(chain[k], i))
    && (forall k: nat, i | k < |chain| && Names(chain[k], i) :: i in interrupts)
  }

  /** The latest checkpoint of a run that may go on names no interrupt but an allowed one; a
      waiting run waits for the interrupt its latest checkpoint names. */
  ghost predicate GateOk(c: Setup, db: Db, chain: seq<Memory>) {
    c.run in db.runs && chain != [] ==>
      var name, s := WaitsFor(chain[|chain| - 1]), db.runs[c.run].state;
      && (name.Some? && s in {Pending, Running, Failed} ==> IsAllowed(db.interrupts, name.value))
      && (s == Waiting ==> name.Some? && PendingOn(db.interrupts, c.run, name.value))
  }

  /** A completed run ended in the natural result that its row carries. */
  ghost predicate EndOk(c: Setup, db: Db, chain: seq<Memory>) {
    c.run in db.runs && db.runs[c.run].state == Completed ==>
      && chain != [] && chain[|chain| - 1].Terminal? && Natural(chain[|chain| - 1].result)
      && db.runs[c.run].result == Some(FinalPayload(chain[|chain| - 1].result))
  }

  ghost predicate Inv(c: Setup, w: World) {
    && WellFormed(w.db) && StoreOk(c, w.db, w.chain) && ChainOk(c, w.chain)
    && WorkersStand(c, w.claimed, w.tape, w.chain, w.workers) && OwnerOk(c, w.db.runs, w.claimed, |w.chain|, w.workers)
    && TapeOk(c, w.db.interrupts, w.chain, w.tape) && LogOk(w.tape, w.log)
    && NamedOk(c, w.db.interrupts, w.chain) && GateOk(c, w.db, w.chain) && EndOk(c, w.db, w.chain)
  }

  // -- calls on the store that add no checkpoint ------------------------------------

  /** A call that neither saves for this run nor takes one of its interrupt ids. */
  predicate Quiet(c: Setup, op: Op) {
    && (op.OpSave? || op.OpSuspend? ==> op.r != c.run)
    && (op.OpSuspend? ==> !OwnInterrupt(c.run, op.i))
  }

  ghost predicate Called(c: Setup, db: Db, op: Op, next: Db) {
    && Framed(db, op, next) && InterruptsFrame(db, op, next) && WellFormed(next) && Quiet(c, op)
  }

  lemma QuietStore(c: Setup, db: Db, op: Op, next: Db, chain: seq<Memory>)
    requires StoreOk(c, db, chain) && Framed(db, op, next) && Quiet(c, op)
    ensures StoreOk(c, next, chain)
  {
    RunFramed(db, op, next, c.run);
  }

  lemma EffectStays(c: Setup, db: Db, op: Op, next: Db, chain: seq<Memory>, id: Id, request: Value)
    requires InterruptsFrame(db, op, next) && EffectOk(c, db.interrupts, chain, id, request)
    ensures EffectOk(c, next.interrupts, chain, id, request)
  {
    var k: nat :| k < |chain| && (ModelEffect(c, chain[k], id, request) || ToolEffect(c, db.interrupts, chain[k], id, request));
    assert ModelEffect(c, chain[k], id, request) || ToolEffect(c, next.interrupts, chain[k], id, request);
  }

  lemma QuietTape(c: Setup, db: Db, op: Op, next: Db, chain: seq<Memory>, tape: map<Id, Effect>)
    requires InterruptsFrame(db, op, next) && TapeOk(c, db.interrupts, chain, tape)
    ensures TapeOk(c, next.interrupts, chain, tape)
  {
    forall id | id in tape ensures EffectOk(c, next.interrupts, chain, id, tape[id].request) {
      EffectStays(c, db, op, next, chain, id, tape[id].request);
    }
  }

  lemma QuietNamed(c: Setup, db: Db, op: Op, next: Db, chain: seq<Memory>)
    requires InterruptsFrame(db, op, next) && Quiet(c, op) && NamedOk(c, db.interrupts, chain)
    ensures NamedOk(c, next.interrupts, chain)
  {}

  lemma QuietGate(c: Setup, db: Db, op: Op, next: Db, chain: seq<Memory>)
    requires Framed(db, op, next) && InterruptsFrame(db, op, next) && Quiet(c, op) && InterruptsOk(db.runs, db.interrupts)
    requires InterruptsOk(next.runs, next.interrupts)
    requires c.run in db.runs && GateOk(c, db, chain)
    ensures GateOk(c, next, chain)
  {
    if chain != [] {
      RunFramed(db, op, next, c.run);
      var name := WaitsFor(chain[|chain| - 1]);
      if db.runs[c.run].state == Waiting {
        assert PendingOn(db.interrupts, c.run, name.value);
        if next.runs[c.run].state == Pending {
          assert PendingOn(db.interrupts, c.run, op.i);
        } else if next.runs[c.run].state == Waiting {
          var i :| PendingOn(next.interrupts, c.run, i);
          assert PendingOn(db.interrupts, c.run, i);
        }
      }
    }
  }

  lemma QuietEnd(c: Setup, db: Db, op: Op, next: Db, chain: seq<Memory>)
    requires Framed(db, op, next) && c.run in db.runs && EndOk(c, db, chain)
    requires op.OpComplete? ==> op.r != c.run
    ensures EndOk(c, next, chain)
  {
    RunFramed(db, op, next, c.run);
  }

  lemma QuietOwner(c: Setup, db: Db, op: Op, next: Db, claimed: set<Id>, latest: nat, workers: map<Id, Worker>)
    requires Framed(db, op, next) && c.run in db.runs && OwnerOk(c, db.runs, claimed, latest, workers)
    requires forall t | t in workers :: t in claimed
    requires op.OpClaim? && op.r == c.run ==> op.token !in claimed
    ensures OwnerOk(c, next.runs, Claims(c, claimed, op), latest, workers)
  {
    RunFramed(db, op, next, c.run);
  }

  function Claims(c: Setup, claimed: set<Id>, op: Op): set<Id> {
    if op.OpClaim? && op.r == c.run then claimed + {op.token} else claimed
  }

  /** Everything but the end condition survives a call that adds no checkpoint. */
  lemma QuietParts(c: Setup, w: World, op: Op, next: Db)
    requires Inv(c, w) && Called(c, w.db, op, next)
    requires op.OpClaim? && op.r == c.run ==> op.token !in w.claimed
    requires EndOk(c, next, w.chain)
    ensures Inv(c, w.(db := next, claimed := Claims(c, w.claimed, op)))
  {
    QuietStore(c, w.db, op, next, w.chain);
    QuietTape(c, w.db, op, next, w.chain, w.tape);
    QuietNamed(c, w.db, op, next, w.chain);
    QuietGate(c, w.db, op, next, w.chain);
    QuietOwner(c, w.db, op, next, w.claimed, |w.chain|, w.workers);
  }

  lemma CalledAfter(c: Setup, db: Db, op: Op)
    requires WellFormed(db) && Quiet(c, op) && Step(db, op).Ok?
    ensures Called(c, db, op, Step(db, op).value)
  {
    StepFrame(db, op);
    StepInterrupts(db, op);
    StepKeepsWellFormed(db, op);
  }

  lemma OthersAnswered(c: Setup, w: World, op: Op, next: Db)
    requires Inv(c, w) && OthersMay(c, w.claimed, op) && Called(c, w.db, op, next)
    ensures Inv(c, w.(db := next, claimed := Claims(c, w.claimed, op)))
  {
    QuietEnd(c, w.db, op, next, w.chain);
    QuietParts(c, w, op, next);
  }

  lemma OthersKeep(c: Setup, w: World, op: Op)
    requires Inv(c, w) && OthersMay(c, w.claimed, op)
    ensures Inv(c, OthersCall(c, w, op))
  {
    var s := Step(w.db, op);
    if s.Ok? {
      CalledAfter(c, w.db, op);
      OthersAnswered(c, w, op, s.value);
      assert OthersCall(c, w, op) == w.(db := s.value, claimed := Claims(c, w.claimed, op));
    } else {
      assert OthersCall(c, w, op) == w.(claimed := Claims(c, w.claimed, op));
      if op.OpClaim? && op.r == c.run { RefusedClaim(c, w, op.token); }
    }
  }

  lemma RefusedClaim(c: Setup, w: World, token: Id)
    requires Inv(c, w)
    ensures Inv(c, w.(claimed := w.claimed + {token}))
  {}

  /** A worker that owns the lease stands on the latest checkpoint. */
  lemma OwnerIsCurrent(c: Setup, w: World, token: Id, now: real)
    requires WorkersStand(c, w.claimed, w.tape, w.chain, w.workers) && OwnerOk(c, w.db.runs, w.claimed, |w.chain|, w.workers)
    requires token in w.workers && Owns(w.db, c.run, token, now)
    ensures w.workers[token].version == |w.chain| && w.workers[token].mem == w.chain[|w.chain| - 1]
  {}

  lemma SettleOpQuiet(c: Setup, token: Id, result: FinalResult, now: real)
    ensures var op := SettleOp(c, token, result, now);
            && Quiet(c, op) && op.r == c.run && op.token == token && op.now == now
            && (op.OpComplete? <==> result.stopReason != CANCELLED && Natural(result))
            && (op.OpComplete? ==> op.result == FinalPayload(result)) && LeaseOp(op) && !op.OpClaim?
  {}

  lemma SettledByOwner(db: Db, op: Op)
    requires (op.OpComplete? || op.OpFail? || op.OpFinishCancelled?) && Step(db, op).Ok?
    ensures Owns(db, op.r, op.token, op.now) && op.r in Step(db, op).value.runs
    ensures !op.OpComplete? ==> Step(db, op).value.runs[op.r].state in {Failed, Cancelled}
    ensures op.OpComplete? ==> Step(db, op).value.runs[op.r].result == Some(op.result)
  {}

  lemma SettleAnswered(c: Setup, w: World, token: Id, op: Op, next: Db)
    requires Inv(c, w) && Called(c, w.db, op, next) && LeaseOp(op) && !op.OpClaim? && c.run in next.runs
    requires token in w.workers && w.workers[token].mem.Terminal? && Owns(w.db, c.run, token, op.now)
    requires op.OpComplete? ==> Natural(w.workers[token].mem.result) && next.runs[c.run].result == Some(FinalPayload(w.workers[token].mem.result))
    requires !op.OpComplete? ==> next.runs[c.run].state in {Failed, Cancelled}
    ensures Inv(c, w.(db := next))
  {
    OwnerIsCurrent(c, w, token, op.now);
    SettledEnd(c, op, next, w.chain, w.workers[token].mem.result);
    QuietParts(c, w, op, next);
  }

  lemma SettleKeeps(c: Setup, w: World, token: Id, now: real)
    requires Inv(c, w)
    ensures Inv(c, SettleTurn(c, w, token, now))
  {
    if token in w.workers && w.workers[token].mem.Terminal? {
      var op := SettleOp(c, token, w.workers[token].mem.result, now);
      SettleOpQuiet(c, token, w.workers[token].mem.result, now);
      if Step(w.db, op).Ok? {
        CalledAfter(c, w.db, op);
        SettledByOwner(w.db, op);
        SettleAnswered(c, w, token, op, Step(w.db, op).value);
      }
    }
  }

  lemma SettledEnd(c: Setup, op: Op, next: Db, chain: seq<Memory>, result: FinalResult)
    requires chain != [] && chain[|chain| - 1].Terminal? && chain[|chain| - 1].result == result
    requires c.run in next.runs
    requires op.OpComplete? ==> Natural(result) && next.runs[c.run].result == Some(FinalPayload(result))
    requires !op.OpComplete? ==> next.runs[c.run].state in {Failed, Cancelled}
    ensures EndOk(c, next, chain)
  {}

  lemma AbortKeeps(c: Setup, w: World, token: Id, error: Value, now: real)
    requires Inv(c, w)
    ensures Inv(c, AbortTurn(c, w, token, error, now))
  {
    var op := OpFail(c.run, token, error, now);
    if token in w.claimed {
      if Step(w.db, op).Ok? {
        CalledAfter(c, w.db, op);
        QuietEnd(c, w.db, op, Step(w.db, op).value, w.chain);
        QuietParts(c, w, op, Step(w.db, op).value);
        StopKeeps(c, w.(db := Step(w.db, op).value), token);
      } else {
        StopKeeps(c, w, token);
      }
    }
  }

  lemma StopKeeps(c: Setup, w: World, token: Id)
    requires Inv(c, w)
    ensures Inv(c, w.(workers := w.workers - {token}))
  {}

  // -- a longer chain ------------------------------------------------------------------

  lemma ChainAppend(c: Setup, chain: seq<Memory>, n: Memory)
    requires ChainOk(c, chain) && MemoryOk(c, n)
    requires if chain == [] then n == Ready(c.initial) else Follows(c, chain[|chain| - 1], n)
    ensures ChainOk(c, chain + [n])
  {
    var next := chain + [n];
    if chain != [] {
      var last := |chain| - 1;
      FollowsLater(c, chain[last], n);
      forall j: nat | j < |chain| ensures Later(chain[j], n) {
        if j < last { LaterTransitive(chain[j], chain[last], n); }
      }
    }
  }

  lemma StoreAppend(c: Setup, db: Db, next: Db, chain: seq<Memory>, n: Memory)
    requires StoreOk(c, db, chain) && c.run in next.runs && next.runs[c.run].version == |chain| + 1
    requires next.checkpoints == db.checkpoints[(c.run, |chain| + 1) := Encode(n)]
    ensures StoreOk(c, next, chain + [n])
  {}

  lemma EffectAppend(c: Setup, interrupts: map<Id, Interrupt>, next: map<Id, Interrupt>, chain: seq<Memory>, n: Memory, id: Id, request: Value)
    requires EffectOk(c, interrupts, chain, id, request)
    requires forall i | IsAllowed(interrupts, i) :: IsAllowed(next, i)
    ensures EffectOk(c, next, chain + [n], id, request)
  {
    var k: nat :| k < |chain| && (ModelEffect(c, chain[k], id, request) || ToolEffect(c, interrupts, chain[k], id, request));
    assert (chain + [n])[k] == chain[k];
    assert ModelEffect(c, chain[k], id, request) || ToolEffect(c, next, chain[k], id, request);
  }

  lemma TapeAppend(c: Setup, interrupts: map<Id, Interrupt>, next: map<Id, Interrupt>, chain: seq<Memory>, n: Memory, tape: map<Id, Effect>)
    requires TapeOk(c, interrupts, chain, tape)
    requires forall i | IsAllowed(interrupts, i) :: IsAllowed(next, i)
    ensures TapeOk(c, next, chain + [n], tape)
  {
    forall id | id in tape ensures EffectOk(c, next, chain + [n], id, tape[id].request) {
      EffectAppend(c, interrupts, next, chain, n, id, tape[id].request);
    }
  }

  lemma NamedBefore(c: Setup, interrupts: map<Id, Interrupt>, chain: seq<Memory>, n: Memory, i: Id)
    requires NamedOk(c, interrupts, chain) && i in interrupts && OwnInterrupt(c.run, i)
    ensures exists k: nat :: k < |chain + [n]| && Names((chain + [n])[k], i)
  {
    var k: nat :| k < |chain| && Names(chain[k], i);
    assert Names((chain + [n])[k], i);
  }

  lemma NamedAppend(c: Setup, interrupts: map<Id, Interrupt>, chain: seq<Memory>, n: Memory)
    requires NamedOk(c, interrupts, chain) && WaitsFor(n).None?
    ensures NamedOk(c, interrupts, chain + [n])
  {
    forall i | i in interrupts && OwnInterrupt(c.run, i)
      ensures exists k: nat :: k < |chain + [n]| && Names((chain + [n])[k], i)
    {
      NamedBefore(c, interrupts, chain, n, i);
    }
    forall k: nat, i | k < |chain + [n]| && Names((chain + [n])[k], i) ensures i in interrupts {
      if k < |chain| { assert Names(chain[k], i); }
    }
  }

  lemma WorkerAppend(c: Setup, tape: map<Id, Effect>, chain: seq<Memory>, n: Memory, worker: Worker)
    requires WorkerOk(c, tape, chain, worker)
    ensures WorkerOk(c, tape, chain + [n], worker)
  {}

  lemma WorkersAppend(c: Setup, w: World, token: Id, n: Memory)
    requires WorkersStand(c, w.claimed, w.tape, w.chain, w.workers) && token in w.claimed
    ensures WorkersStand(c, w.claimed, w.tape, w.chain + [n], w.workers[token := Worker(|w.chain| + 1, n, map[])])
  {
    var next := w.workers[token := Worker(|w.chain| + 1, n, map[])];
    forall t | t in next ensures t in w.claimed && WorkerOk(c, w.tape, w.chain + [n], next[t]) {
      if t != token { WorkerAppend(c, w.tape, w.chain, n, w.workers[t]); }
    }
  }

  // -- a saved turn ---------------------------------------------------------------------

  /** What `save_checkpoint` does to the tables when it succeeds. */
  ghost predicate SavedDb(c: Setup, db: Db, next: Db, token: Id, n: Memory) {
    && c.run in db.runs && db.runs[c.run].state == Running && db.runs[c.run].token == Some(token)
    && next.runs == db.runs[c.run := db.runs[c.run].(version := db.runs[c.run].version + 1)]
    && next.checkpoints == db.checkpoints[(c.run, db.runs[c.run].version + 1) := Encode(n)]
    && next.interrupts == db.interrupts && WellFormed(next)
  }

  lemma SavedTables(db: Db, r: Id, token: Id, expected: nat, cp: Checkpoint, now: real)
    requires SaveCheckpoint(db, r, token, expected, cp, now).Ok?
    ensures var next := SaveCheckpoint(db, r, token, expected, cp, now).value;
      && Owns(db, r, token, now) && db.runs[r].version == expected
      && next.runs == db.runs[r := db.runs[r].(version := expected + 1)]
      && next.checkpoints == db.checkpoints[(r, expected + 1) := cp] && next.interrupts == db.interrupts
  {}

  lemma SaveWrites(c: Setup, db: Db, token: Id, expected: nat, n: Memory, now: real)
    requires WellFormed(db) && SaveCheckpoint(db, c.run, token, expected, Encode(n), now).Ok?
    ensures SavedDb(c, db, SaveCheckpoint(db, c.run, token, expected, Encode(n), now).value, token, n)
    ensures db.runs[c.run].version == expected && Owns(db, c.run, token, now)
  {
    SavedTables(db, c.run, token, expected, Encode(n), now);
    ExecutionInvariant.SaveKeeps(db, c.run, token, expected, Encode(n), now);
  }

  lemma SavedGate(c: Setup, db: Db, next: Db, token: Id, chain: seq<Memory>, n: Memory)
    requires SavedDb(c, db, next, token, n) && WaitsFor(n).None?
    ensures GateOk(c, next, chain + [n]) && EndOk(c, next, chain + [n])
  {}

  lemma SavedOwner(c: Setup, db: Db, next: Db, token: Id, n: Memory, w: World)
    requires SavedDb(c, db, next, token, n) && token in w.claimed
    ensures OwnerOk(c, next.runs, w.claimed, |w.chain| + 1, w.workers[token := Worker(|w.chain| + 1, n, map[])])
  {}

  /** Appending an unnamed checkpoint keeps every part. */
  lemma SavedKeeps(c: Setup, w: World, token: Id, n: Memory, next: Db)
    requires Inv(c, w) && token in w.claimed && SavedDb(c, w.db, next, token, n)
    requires MemoryOk(c, n) && WaitsFor(n).None?
    requires if w.chain == [] then n == Ready(c.initial) else Follows(c, w.chain[|w.chain| - 1], n)
    ensures Inv(c, Saved(c, w, token, |w.chain| + 1, n, next))
  {
    ChainAppend(c, w.chain, n);
    StoreAppend(c, w.db, next, w.chain, n);
    TapeAppend(c, w.db.interrupts, next.interrupts, w.chain, n, w.tape);
    NamedAppend(c, w.db.interrupts, w.chain, n);
    WorkersAppend(c, w, token, n);
    SavedOwner(c, w.db, next, token, n, w);
    SavedGate(c, w.db, next, token, w.chain, n);
  }

  /** A worker whose save succeeds stands on the latest checkpoint, and saves what follows. */
  lemma SavedTurn(c: Setup, w: World, token: Id, n: Memory, next: Db, now: real, cancel: bool)
    requires ValidAgent(c.agent) && Inv(c, w) && token in w.workers && Owns(w.db, c.run, token, now)
    requires NextMemory(c, w.db.interrupts, w.workers[token].mem, w.workers[token].got, cancel) == Some(n)
    requires SavedDb(c, w.db, next, token, n)
    ensures Inv(c, Saved(c, w, token, |w.chain| + 1, n, next))
  {
    OwnerIsCurrent(c, w, token, now);
    assert MemoryOk(c, w.chain[|w.chain| - 1]) && WorkerOk(c, w.tape, w.chain, w.workers[token]);
    TurnOk(c, w.tape, w.db.interrupts, w.workers[token].mem, w.workers[token].got, cancel);
    SavedKeeps(c, w, token, n, next);
  }

  lemma SaveKeeps(c: Setup, w: World, token: Id, now: real, cancel: bool)
    requires ValidAgent(c.agent) && Inv(c, w)
    ensures Inv(c, SaveTurn(c, w, token, now, cancel))
  {
    var next := SaveTurn(c, w, token, now, cancel);
    if next != w {
      var worker := w.workers[token];
      var n := NextMemory(c, w.db.interrupts, worker.mem, worker.got, cancel).value;
      SaveWrites(c, w.db, token, worker.version, n, now);
      SavedTurn(c, w, token, n, next.db, now, cancel);
    }
  }

  lemma BeginKeeps(c: Setup, w: World, token: Id, now: real)
    requires Inv(c, w)
    ensures Inv(c, BeginRun(c, w, token, now))
  {
    var n := Ready(c.initial);
    if token in w.claimed && SaveCheckpoint(w.db, c.run, token, 0, Encode(n), now).Ok? {
      SaveWrites(c, w.db, token, 0, n, now);
      SavedKeeps(c, w, token, n, SaveCheckpoint(w.db, c.run, token, 0, Encode(n), now).value);
    }
  }

  // -- a suspended turn --------------------------------------------------------------------

  ghost predicate AskedDb(c: Setup, db: Db, next: Db, q: Question) {
    && c.run in db.runs && db.runs[c.run].state == Running && q.id !in db.interrupts
    && c.run in next.runs && next.runs[c.run].state == Waiting && next.runs[c.run].token.None?
    && next.runs[c.run].version == db.runs[c.run].version + 1
    && next.checkpoints == db.checkpoints[(c.run, db.runs[c.run].version + 1) := Encode(q.memory)]
    && next.interrupts == db.interrupts[q.id := Interrupt(c.run, q.kind, q.request, Asked, Null)] && WellFormed(next)
  }

  lemma AskWrites(c: Setup, db: Db, token: Id, expected: nat, q: Question, now: real)
    requires WellFormed(db) && Suspend(db, c.run, token, expected, Encode(q.memory), q.id, q.kind, q.request, now).Ok?
    ensures AskedDb(c, db, Suspend(db, c.run, token, expected, Encode(q.memory), q.id, q.kind, q.request, now).value, q)
    ensures db.runs[c.run].version == expected && Owns(db, c.run, token, now)
  {
    SuspendKeeps(db, c.run, token, expected, Encode(q.memory), q.id, q.kind, q.request, now);
  }

  lemma QuestionNamed(c: Setup, interrupts: map<Id, Interrupt>, chain: seq<Memory>, q: Question)
    requires NamedOk(c, interrupts, chain) && q.id !in interrupts
    requires WaitsFor(q.memory) == Some(q.id) && (forall i | Names(q.memory, i) :: i == q.id)
    requires OwnInterrupt(c.run, q.id) && (q.kind == "input" <==> q.id.domain == "input")
    ensures NamedOk(c, interrupts[q.id := Interrupt(c.run, q.kind, q.request, Asked, Null)], chain + [q.memory])
  {
    var next := interrupts[q.id := Interrupt(c.run, q.kind, q.request, Asked, Null)];
    assert Names((chain + [q.memory])[|chain|], q.id);
    forall i | i in next && OwnInterrupt(c.run, i)
      ensures exists k: nat :: k < |chain + [q.memory]| && Names((chain + [q.memory])[k], i)
    {
      if i != q.id { NamedBefore(c, interrupts, chain, q.memory, i); }
    }
    forall k: nat, i | k < |chain + [q.memory]| && Names((chain + [q.memory])[k], i) ensures i in next {
      if k < |chain| { assert Names(chain[k], i); }
    }
  }

  lemma WorkersAsk(c: Setup, w: World, token: Id, n: Memory)
    requires WorkersStand(c, w.claimed, w.tape, w.chain, w.workers)
    ensures WorkersStand(c, w.claimed, w.tape, w.chain + [n], w.workers - {token})
  {
    forall t | t in w.workers - {token} ensures WorkerOk(c, w.tape, w.chain + [n], w.workers[t]) {
      WorkerAppend(c, w.tape, w.chain, n, w.workers[t]);
    }
  }

  lemma AskedGate(c: Setup, db: Db, next: Db, q: Question, w: World, workers: map<Id, Worker>)
    requires AskedDb(c, db, next, q) && WaitsFor(q.memory) == Some(q.id)
    ensures GateOk(c, next, w.chain + [q.memory]) && EndOk(c, next, w.chain + [q.memory])
    ensures OwnerOk(c, next.runs, w.claimed, |w.chain| + 1, workers)
  {
    assert PendingOn(next.interrupts, c.run, q.id);
  }

  lemma AskedTape(c: Setup, db: Db, next: Db, q: Question, chain: seq<Memory>, tape: map<Id, Effect>)
    requires AskedDb(c, db, next, q) && TapeOk(c, db.interrupts, chain, tape)
    ensures TapeOk(c, next.interrupts, chain + [q.memory], tape)
  {
    TapeAppend(c, db.interrupts, next.interrupts, chain, q.memory, tape);
  }

  lemma QuestionShape(c: Setup, m: Memory)
    requires ValidAgent(c.agent) && MemoryOk(c, m) && Asks(c, m).Some?
    ensures var q := Asks(c, m).value;
            && OwnInterrupt(c.run, q.id) && (q.kind == "input" <==> q.id.domain == "input")
            && (forall i | Names(q.memory, i) :: i == q.id)
  {
    AskOk(c, m);
    assert |"input"| == 5 && |"approval"| == 8;
  }

  lemma AskedStore(c: Setup, db: Db, next: Db, q: Question, chain: seq<Memory>)
    requires AskedDb(c, db, next, q) && StoreOk(c, db, chain)
    ensures StoreOk(c, next, chain + [q.memory])
  {
    StoreAppend(c, db, next, chain, q.memory);
  }

  lemma AskedNamed(c: Setup, db: Db, next: Db, q: Question, chain: seq<Memory>)
    requires AskedDb(c, db, next, q) && NamedOk(c, db.interrupts, chain) && WaitsFor(q.memory) == Some(q.id)
    requires OwnInterrupt(c.run, q.id) && (q.kind == "input" <==> q.id.domain == "input")
    requires forall i | Names(q.memory, i) :: i == q.id
    ensures NamedOk(c, next.interrupts, chain + [q.memory])
  {
    QuestionNamed(c, db.interrupts, chain, q);
  }

  lemma AskAnswered(c: Setup, w: World, token: Id, q: Question, next: Db)
    requires Inv(c, w) && w.chain != [] && AskedDb(c, w.db, next, q)
    requires MemoryOk(c, q.memory) && Follows(c, w.chain[|w.chain| - 1], q.memory) && WaitsFor(q.memory) == Some(q.id)
    requires OwnInterrupt(c.run, q.id) && (q.kind == "input" <==> q.id.domain == "input")
    requires forall i | Names(q.memory, i) :: i == q.id
    ensures Inv(c, w.(db := next, chain := w.chain + [q.memory], workers := w.workers - {token}))
  {
    ChainAppend(c, w.chain, q.memory);
    AskedStore(c, w.db, next, q, w.chain);
    AskedTape(c, w.db, next, q, w.chain, w.tape);
    AskedNamed(c, w.db, next, q, w.chain);
    WorkersAsk(c, w, token, q.memory);
    AskedGate(c, w.db, next, q, w, w.workers - {token});
  }

  lemma AskedTurn(c: Setup, w: World, token: Id, next: Db, now: real)
    requires ValidAgent(c.agent) && Inv(c, w) && token in w.workers && Owns(w.db, c.run, token, now)
    requires Asks(c, w.workers[token].mem).Some? && AskedDb(c, w.db, next, Asks(c, w.workers[token].mem).value)
    ensures var q := Asks(c, w.workers[token].mem).value;
            Inv(c, w.(db := next, chain := w.chain + [q.memory], workers := w.workers - {token}))
  {
    OwnerIsCurrent(c, w, token, now);
    assert MemoryOk(c, w.chain[|w.chain| - 1]) && WorkerOk(c, w.tape, w.chain, w.workers[token]);
    AskOk(c, w.workers[token].mem);
    QuestionShape(c, w.workers[token].mem);
    AskAnswered(c, w, token, Asks(c, w.workers[token].mem).value, next);
  }

  lemma AskKeeps(c: Setup, w: World, token: Id, now: real)
    requires ValidAgent(c.agent) && Inv(c, w)
    ensures Inv(c, AskTurn(c, w, token, now))
  {
    var next := AskTurn(c, w, token, now);
    if next != w {
      AskWrites(c, w.db, token, w.workers[token].version, Asks(c, w.workers[token].mem).value, now);
      AskedTurn(c, w, token, next.db, now);
    }
  }

  // -- the tape and the workers ---------------------------------------------------------------

  lemma GotKept(c: Setup, tape: map<Id, Effect>, next: map<Id, Effect>, m: Memory, got: map<nat, Value>)
    requires GotOk(c, tape, m, got)
    requires forall id | id in tape && tape[id].outcome.Some? :: id in next && next[id] == tape[id]
    ensures GotOk(c, next, m, got)
  {
    forall j | j in got ensures OnTape(c, next, m, j, got[j]) { assert OnTape(c, tape, m, j, got[j]); }
  }

  lemma WorkersTape(c: Setup, w: World, tape: map<Id, Effect>)
    requires WorkersStand(c, w.claimed, w.tape, w.chain, w.workers)
    requires forall id | id in w.tape && w.tape[id].outcome.Some? :: id in tape && tape[id] == w.tape[id]
    ensures WorkersStand(c, w.claimed, tape, w.chain, w.workers)
  {
    forall t | t in w.workers ensures WorkerOk(c, tape, w.chain, w.workers[t]) {
      GotKept(c, w.tape, tape, w.workers[t].mem, w.workers[t].got);
    }
  }

  /** What a worker may submit, the chain asked for. */
  lemma ExpectedEffectOk(c: Setup, w: World, token: Id, j: nat)
    requires ValidAgent(c.agent) && WorkersStand(c, w.claimed, w.tape, w.chain, w.workers) && ChainOk(c, w.chain) && token in w.workers
    requires Expects(c, w.db.interrupts, w.workers[token].mem, j).Some?
    ensures var (id, request) := Expects(c, w.db.interrupts, w.workers[token].mem, j).value;
            EffectOk(c, w.db.interrupts, w.chain, id, request)
  {
    var m := w.workers[token].mem;
    var (id, request) := Expects(c, w.db.interrupts, m, j).value;
    var k: nat := w.workers[token].version - 1;
    assert m == w.chain[k] && MemoryOk(c, m);
    if m.Tools? { BatchIsClear(c.agent, m.calls, m.next, m.approval.Some?); }
    assert ModelEffect(c, w.chain[k], id, request) || ToolEffect(c, w.db.interrupts, w.chain[k], id, request);
  }

  lemma LogGrows(tape: map<Id, Effect>, log: seq<Id>, id: Id, e: Effect)
    requires LogOk(tape, log) && id !in tape
    ensures LogOk(tape[id := e], log + [id])
  {
    var next := log + [id];
    forall x ensures x in next <==> x in tape[id := e] { assert x in next <==> x in log || x == id; }
  }

  lemma TapeGrows(c: Setup, w: World, id: Id, e: Effect)
    requires TapeOk(c, w.db.interrupts, w.chain, w.tape) && EffectOk(c, w.db.interrupts, w.chain, id, e.request)
    requires e.outcome.Some? ==> OutcomeFits(id, e.request, e.outcome.value)
    ensures TapeOk(c, w.db.interrupts, w.chain, w.tape[id := e])
  {}

  lemma SubmittedKeeps(c: Setup, w: World, id: Id, request: Value)
    requires Inv(c, w) && id !in w.tape && EffectOk(c, w.db.interrupts, w.chain, id, request)
    ensures Inv(c, WithEffect(w, id, request))
  {
    TapeGrows(c, w, id, Effect(request, None));
    LogGrows(w.tape, w.log, id, Effect(request, None));
    WorkersTape(c, w, w.tape[id := Effect(request, None)]);
  }

  lemma SubmitKeeps(c: Setup, w: World, token: Id, j: nat)
    requires ValidAgent(c.agent) && Inv(c, w)
    ensures Inv(c, Submit(c, w, token, j))
  {
    if Submit(c, w, token, j) != w {
      var (id, request) := Expects(c, w.db.interrupts, w.workers[token].mem, j).value;
      ExpectedEffectOk(c, w, token, j);
      SubmittedKeeps(c, w, id, request);
    }
  }

  lemma LogSame(tape: map<Id, Effect>, log: seq<Id>, id: Id, e: Effect)
    requires LogOk(tape, log) && id in tape
    ensures LogOk(tape[id := e], log)
  {}

  lemma TapeConcludes(c: Setup, w: World, id: Id, e: Effect)
    requires TapeOk(c, w.db.interrupts, w.chain, w.tape) && id in w.tape && e.request == w.tape[id].request
    requires e.outcome.Some? && OutcomeFits(id, e.request, e.outcome.value)
    ensures TapeOk(c, w.db.interrupts, w.chain, w.tape[id := e])
  {
    assert EffectOk(c, w.db.interrupts, w.chain, id, e.request);
  }

  lemma ConcludedKeeps(c: Setup, w: World, id: Id, e: Effect)
    requires Inv(c, w) && id in w.tape && w.tape[id].outcome.None? && e.request == w.tape[id].request
    requires e.outcome.Some? && OutcomeFits(id, e.request, e.outcome.value)
    ensures Inv(c, w.(tape := w.tape[id := e]))
  {
    TapeConcludes(c, w, id, e);
    LogSame(w.tape, w.log, id, e);
    WorkersTape(c, w, w.tape[id := e]);
  }

  lemma ConcludeKeeps(c: Setup, w: World, id: Id, outcome: Value)
    requires Inv(c, w)
    ensures Inv(c, Conclude(w, id, outcome))
  {
    if id in w.tape && w.tape[id].outcome.None? && OutcomeFits(id, w.tape[id].request, outcome) {
      ConcludedKeeps(c, w, id, w.tape[id].(outcome := Some(outcome)));
    }
  }

  lemma DeliveredOk(c: Setup, interrupts: map<Id, Interrupt>, tape: map<Id, Effect>, m: Memory, got: map<nat, Value>, j: nat, e: Effect)
    requires ValidAgent(c.agent) && GotOk(c, tape, m, got) && Expects(c, interrupts, m, j).Some? && e.outcome.Some?
    requires var (id, request) := Expects(c, interrupts, m, j).value; id in tape && tape[id] == e && e.request == request
    ensures GotOk(c, tape, m, got[j := e.outcome.value])
  {
    assert OnTape(c, tape, m, j, e.outcome.value);
  }

  lemma WorkersReplace(c: Setup, w: World, token: Id, worker: Worker)
    requires Inv(c, w) && token in w.claimed && WorkerOk(c, w.tape, w.chain, worker)
    requires w.db.runs[c.run].token == Some(token) ==> worker.version == |w.chain|
    ensures Inv(c, w.(workers := w.workers[token := worker]))
  {}

  lemma WorkerLearns(c: Setup, w: World, token: Id, got: map<nat, Value>)
    requires Inv(c, w) && token in w.workers && GotOk(c, w.tape, w.workers[token].mem, got)
    ensures Inv(c, w.(workers := w.workers[token := w.workers[token].(got := got)]))
  {
    LearnsOk(c, w.tape, w.chain, w.workers, w.claimed, token, got);
    WorkersReplace(c, w, token, w.workers[token].(got := got));
  }

  lemma LearnsOk(c: Setup, tape: map<Id, Effect>, chain: seq<Memory>, workers: map<Id, Worker>, claimed: set<Id>,
                 token: Id, got: map<nat, Value>)
    requires WorkersStand(c, claimed, tape, chain, workers) && token in workers
    requires GotOk(c, tape, workers[token].mem, got)
    ensures token in claimed && WorkerOk(c, tape, chain, workers[token].(got := got))
  {
    assert WorkerOk(c, tape, chain, workers[token]);
  }

  lemma DeliverKeeps(c: Setup, w: World, token: Id, j: nat)
    requires ValidAgent(c.agent) && Inv(c, w)
    ensures Inv(c, Deliver(c, w, token, j))
  {
    if Deliver(c, w, token, j) != w {
      var worker := w.workers[token];
      var id := Expects(c, w.db.interrupts, worker.mem, j).value.0;
      assert WorkerOk(c, w.tape, w.chain, worker);
      DeliveredOk(c, w.db.interrupts, w.tape, worker.mem, worker.got, j, w.tape[id]);
      WorkerLearns(c, w, token, worker.got[j := w.tape[id].outcome.value]);
    }
  }

  lemma LatestReads(c: Setup, db: Db, chain: seq<Memory>)
    requires StoreOk(c, db, chain) && ChainOk(c, chain) && chain != []
    ensures (c.run, |chain|) in db.checkpoints && Decode(db.checkpoints[(c.run, |chain|)]) == Some(chain[|chain| - 1])
  {
    var last: nat := |chain| - 1;
    assert db.checkpoints[(c.run, last + 1)] == Encode(chain[last]) && MemoryOk(c, chain[last]);
    MemoryWritable(c, chain[last]);
    CheckpointRoundTrip(chain[last]);
  }

  lemma LoadKeeps(c: Setup, w: World, token: Id)
    requires Inv(c, w)
    ensures Inv(c, LoadLatest(c, w, token))
  {
    if token in w.claimed && w.chain != [] {
      LatestReads(c, w.db, w.chain);
      WorkersReplace(c, w, token, Worker(|w.chain|, w.chain[|w.chain| - 1], map[]));
    } else {
      assert LoadLatest(c, w, token) == w;
    }
  }

  // -- every move --------------------------------------------------------------------------------

  predicate TurnMove(move: Move) { move.Begin? || move.Save? || move.Ask? || move.Settle? || move.Abort? }

  lemma TurnKeeps(c: Setup, w: World, move: Move)
    requires ValidAgent(c.agent) && Inv(c, w) && TurnMove(move)
    ensures Inv(c, Do(c, w, move))
  {
    match move
    case Begin(token, now) => BeginKeeps(c, w, token, now);
    case Save(token, now, cancel) => SaveKeeps(c, w, token, now, cancel);
    case Ask(token, now) => AskKeeps(c, w, token, now);
    case Settle(token, now) => SettleKeeps(c, w, token, now);
    case Abort(token, error, now) => AbortKeeps(c, w, token, error, now);
  }

  lemma OtherKeeps(c: Setup, w: World, move: Move)
    requires ValidAgent(c.agent) && Inv(c, w) && !TurnMove(move)
    ensures Inv(c, Do(c, w, move))
  {
    match move
    case Env(op) => if OthersMay(c, w.claimed, op) { OthersKeep(c, w, op); }
    case Load(token) => LoadKeeps(c, w, token);
    case Submits(token, j) => SubmitKeeps(c, w, token, j);
    case Settles(id, outcome) => ConcludeKeeps(c, w, id, outcome);
    case Receive(token, j) => DeliverKeeps(c, w, token, j);
    case Crash(token) => StopKeeps(c, w, token);
  }

  lemma DoKeeps(c: Setup, w: World, move: Move)
    requires ValidAgent(c.agent) && Inv(c, w)
    ensures Inv(c, Do(c, w, move))
  {
    if TurnMove(move) { TurnKeeps(c, w, move); } else { OtherKeeps(c, w, move); }
  }

  lemma StartOk(c: Setup, w: World)
    requires Start(c, w) && WellFormed(w.db)
    ensures Inv(c, w)
  {}

  /** The invariant holds after every schedule. */
  lemma {:induction false} ScheduleKeeps(c: Setup, start: World, moves: seq<Move>)
    requires ValidAgent(c.agent) && Start(c, start) && WellFormed(start.db)
    ensures Inv(c, Schedule(c, start, moves))
  {
    if moves == [] {
      StartOk(c, start);
    } else {
      ScheduleKeeps(c, start, moves[..|moves| - 1]);
      DoKeeps(c, Schedule(c, start, moves[..|moves| - 1]), moves[|moves| - 1]);
    }
  }
}
