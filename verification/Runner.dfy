/** The durable runner as a system: any number of workers drive one run from checkpoint to
    checkpoint over a shared store and a shared effect tape, while leases expire, processes
    crash, interrupts are resolved and cancellation arrives. */
module Runner {
  import opened Values
  import opened Execution
  import opened Durable
  import opened ReactLoop

  /** One durable run: its agent, its id and the state it was started with. */
  datatype Setup = Setup(agent: Agent, run: Id, initial: AgentState)

  // -- identities: hashes of the run, the iteration and the call index -------------

  function LlmId(r: Id, i: nat): Id { Digest("llm", r, i, 0) }
  function ToolId(r: Id, i: nat, j: nat): Id { Digest("tool", r, i, j) }
  function ApprovalId(r: Id, i: nat, j: nat): Id { Digest("approval", r, i, j) }
  function InputId(r: Id, i: nat, j: nat): Id { Digest("input", r, i, j) }

  predicate OwnInterrupt(r: Id, id: Id) { id.Digest? && id.owner == r && (id.domain == "approval" || id.domain == "input") }

  // -- what to do with the next tool call -------------------------------------------

  /** A policy is consulted only for a tool that exists. */
  function Needed(agent: Agent, policy: Value -> Option<Value>, call: Value): Option<Value> {
    if agent.registered(call) then policy(call) else None
  }

  /** The offset, from `at` on, of the first call of a candidate batch of `n` that a policy
      stops; the scan ends at the first unknown tool. */
  function FirstStop(agent: Agent, policy: Value -> Option<Value>, calls: seq<Value>, next: nat, n: nat, at: nat): (stop: Option<nat>)
    requires next + n <= |calls| && at <= n
    ensures stop.Some? ==> at <= stop.value < n && Needed(agent, policy, calls[next + stop.value]).Some?
    decreases n - at
  {
    if at == n || !agent.registered(calls[next + at]) then None
    else if policy(calls[next + at]).Some? then Some(at)
    else FirstStop(agent, policy, calls, next, n, at + 1)
  }

  datatype Plan = AskInput(request: Value) | AskApproval(request: Value) | RunBatch(count: nat)

  /** Input first, then approval; a boundary inside a batch shortens it, and a call whose
      approval was granted runs alone. */
  function PlanFor(agent: Agent, calls: seq<Value>, next: nat, approved: bool): Plan
    requires ValidAgent(agent) && next < |calls|
  {
    var n := ParallelCount(agent, calls, next);
    var input := FirstStop(agent, agent.input, calls, next, n, 0);
    if input == Some(0) then AskInput(agent.input(calls[next]).value)
    else
      var m := if input.Some? then input.value else n;
      if approved then RunBatch(1)
      else
        var approval := FirstStop(agent, agent.approval, calls, next, m, 0);
        if approval == Some(0) then AskApproval(agent.approval(calls[next]).value)
        else RunBatch(if approval.Some? then approval.value else m)
  }

  lemma {:induction false} NothingStops(agent: Agent, policy: Value -> Option<Value>, calls: seq<Value>, next: nat, n: nat, at: nat)
    requires next + n <= |calls| && at <= n
    requires n > 1 ==> forall k | next <= k < next + n :: agent.registered(calls[k])
    ensures var stop := FirstStop(agent, policy, calls, next, n, at);
            forall k | next + at <= k < next + (if stop.Some? then stop.value else n) :: Needed(agent, policy, calls[k]).None?
    decreases n - at
  {
    if at != n && agent.registered(calls[next + at]) && policy(calls[next + at]).None? {
      NothingStops(agent, policy, calls, next, n, at + 1);
    }
  }

  /** Every call of a batch is free of any boundary, except a lone call that was approved. */
  lemma BatchIsClear(agent: Agent, calls: seq<Value>, next: nat, approved: bool)
    requires ValidAgent(agent) && next < |calls|
    ensures match PlanFor(agent, calls, next, approved)
      case RunBatch(n) =>
        && 1 <= n && next + n <= |calls|
        && (forall k | next <= k < next + n :: Needed(agent, agent.input, calls[k]).None?)
        && (if approved then n == 1 else forall k | next <= k < next + n :: Needed(agent, agent.approval, calls[k]).None?)
      case AskInput(request) => Needed(agent, agent.input, calls[next]) == Some(request)
      case AskApproval(request) =>
        !approved && Needed(agent, agent.approval, calls[next]) == Some(request) && Needed(agent, agent.input, calls[next]).None?
  {
    var n := ParallelCount(agent, calls, next);
    NothingStops(agent, agent.input, calls, next, n, 0);
    var input := FirstStop(agent, agent.input, calls, next, n, 0);
    var m := if input.Some? then input.value else n;
    if input != Some(0) {
      NothingStops(agent, agent.approval, calls, next, m, 0);
    }
  }

  // -- the phase machine ---------------------------------------------------------------

  predicate IsAllowed(interrupts: map<Id, Interrupt>, id: Id) { id in interrupts && interrupts[id].state == Allowed }

  /** The tool result that an external answer stands for. */
  function Answer(agent: Agent, call: Value, response: Value): Value {
    Obj(map["type" := Str("tool_result"), "tool_use_id" := Get(call, "id"), "content" := Str(Printed(agent, response))])
  }

  /** Tool calls `next..` of this memory are still to be answered. */
  predicate InToolPhase(m: Memory) {
    m.Tools? && m.reply.stopReason != "error" && m.next < |m.calls|
  }

  /** The runner may execute call `j` now: it is in the batch, and a named approval was granted. */
  predicate MayRun(c: Setup, interrupts: map<Id, Interrupt>, m: Memory, j: nat)
    requires ValidAgent(c.agent)
  {
    && InToolPhase(m) && m.input.None? && m.next <= j < |m.calls|
    && (m.approval.Some? ==> IsAllowed(interrupts, m.approval.value))
    && match PlanFor(c.agent, m.calls, m.next, m.approval.Some?)
       case RunBatch(n) => j < m.next + n
       case _ => false
  }

  function Collect(got: map<nat, Value>, from: nat, n: nat): (results: seq<Value>)
    requires forall k | from <= k < from + n :: k in got
    ensures |results| == n && forall k | 0 <= k < n :: results[k] == got[from + k]
  {
    seq(n, k requires 0 <= k < n => got[from + k])
  }

  function Acted(m: Memory, more: seq<Value>): Memory
    requires m.Tools?
  {
    m.(acted := true, results := m.results + more, next := m.next + |more|, input := None, approval := None)
  }

  /** The next checkpoint once a reply is on record; None while something is missing. */
  function AfterReply(c: Setup, interrupts: map<Id, Interrupt>, m: Memory, got: map<nat, Value>): Option<Memory>
    requires ValidAgent(c.agent) && m.Tools?
  {
    if m.reply.stopReason == "error" then Some(Terminal(m.state, ErrorResult(m.state, m.reply)))
    else if m.calls == [] then
      if m.reply.stopReason == "tool_use" then Some(Terminal(m.state, MalformedResult(m.state)))
      else
        var result := FinishedResult(c.agent, m.state, m.reply);
        Some(Terminal(result.state, result))
    else if m.next >= |m.calls| then Some(Ready(Advance(m.state, m.reply, m.results)))
    else if m.input.Some? then
      if IsAllowed(interrupts, m.input.value) && interrupts[m.input.value].kind == "input"
      then Some(Acted(m, [Answer(c.agent, m.calls[m.next], interrupts[m.input.value].response)]))
      else None
    else if m.approval.Some? && !IsAllowed(interrupts, m.approval.value) then None
    else match PlanFor(c.agent, m.calls, m.next, m.approval.Some?)
      case RunBatch(n) =>
        if forall k | m.next <= k < m.next + n :: k in got then Some(Acted(m, Collect(got, m.next, n))) else None
      case _ => None
  }

  /** One turn of the loop that ends in a checkpoint; `cancel` is the flag as it was read. */
  function NextMemory(c: Setup, interrupts: map<Id, Interrupt>, m: Memory, got: map<nat, Value>, cancel: bool): Option<Memory>
    requires ValidAgent(c.agent)
  {
    if m.Terminal? then
      if cancel && m.result.stopReason != CANCELLED then Some(Terminal(m.state, CancelledResult(m.state))) else None
    else if cancel then Some(Terminal(m.state, CancelledResult(m.state)))
    else match m
      case Ready(state) =>
        if state.iteration >= c.agent.maxIterations then Some(Terminal(state, MaxIterationsResult(state)))
        else Some(BeforeLlm(state, LlmId(c.run, state.iteration)))
      case BeforeLlm(state, effect) =>
        if 0 in got && got[0].Model?
        then Some(Tools(state, false, effect, got[0].reply, ExtractCalls(got[0].reply.content), [], 0, None, None))
        else None
      case Tools(_, _, _, _, _, _, _, _, _) => AfterReply(c, interrupts, m, got)
  }

  datatype Question = Question(memory: Memory, id: Id, kind: string, request: Value)

  /** The suspension a turn ends in, if it ends in one. */
  function Asks(c: Setup, m: Memory): Option<Question>
    requires ValidAgent(c.agent)
  {
    if !InToolPhase(m) || m.input.Some? then None
    else match PlanFor(c.agent, m.calls, m.next, m.approval.Some?)
      case AskInput(request) =>
        var id := InputId(c.run, m.state.iteration, m.next);
        Some(Question(m.(input := Some(id)), id, "input", request))
      case AskApproval(request) =>
        var id := ApprovalId(c.run, m.state.iteration, m.next);
        Some(Question(m.(approval := Some(id)), id, "approval", request))
      case RunBatch(_) => None
  }

  // -- the world -------------------------------------------------------------------------

  /** An intent on the tape, and its terminal outcome once there is one. */
  datatype Effect = Effect(request: Value, outcome: Option<Value>)

  /** What a process holds: the checkpoint it stands on and the outcomes it has received. */
  datatype Worker = Worker(version: nat, mem: Memory, got: map<nat, Value>)

  /** `claimed` are the tokens issued for the run, `log` the live submissions in order and
      `chain` the memories of its checkpoints 1, 2, ... */
  datatype World = World(
    db: Db, claimed: set<Id>, tape: map<Id, Effect>, log: seq<Id>, chain: seq<Memory>, workers: map<Id, Worker>)

  /** What the harness answers fit what was asked. */
  predicate OutcomeFits(id: Id, request: Value, outcome: Value) {
    id.Digest? &&
    if id.domain == "llm" then outcome.Model?
    else outcome.Obj? && Get(outcome, "tool_use_id") == Get(request, "id")
  }

  datatype Move =
    | Env(op: Op)                                   // anybody else's call on the store
    | Begin(token: Id, now: real)                   // save the first checkpoint
    | Load(token: Id)                               // read the latest checkpoint
    | Submits(token: Id, j: nat)                    // live submission of the model call or of tool call j
    | Settles(id: Id, outcome: Value)               // a submission ends, or is reconciled
    | Receive(token: Id, j: nat)                    // an outcome reaches a worker, live or replayed
    | Save(token: Id, now: real, cancel: bool)      // a turn that ends in a checkpoint
    | Ask(token: Id, now: real)                     // a turn that ends in a suspension
    | Settle(token: Id, now: real)                  // terminal transition of the run
    | Abort(token: Id, error: Value, now: real)     // an exception: fail_run and stop
    | Crash(token: Id)

  /** Others never use this run's lease, except that the heartbeat may renew it at any time,
      and never answer for its interrupt ids; a claim of the run issues a new token. */
  predicate OthersMay(c: Setup, claimed: set<Id>, op: Op) {
    && (LeaseOp(op) && !op.OpClaim? && !op.OpRenew? ==> op.r != c.run)
    && (op.OpSuspend? ==> !OwnInterrupt(c.run, op.i))
    && (op.OpClaim? && op.r == c.run ==> op.token !in claimed)
  }

  function SettleOp(c: Setup, token: Id, result: FinalResult, now: real): Op {
    if result.stopReason == CANCELLED then OpFinishCancelled(c.run, token, now)
    else if Natural(result) then OpComplete(c.run, token, FinalPayload(result), now)
    else OpFail(c.run, token,
      Obj(map["type" := Str("agent_termination"), "stop_reason" := Str(result.stopReason), "detail" := result.error]), now)
  }

  /** The effect a worker waits for: the model call, or tool call `j` of its batch. */
  function Expects(c: Setup, interrupts: map<Id, Interrupt>, m: Memory, j: nat): Option<(Id, Value)>
    requires ValidAgent(c.agent)
  {
    if m.BeforeLlm? then if j == 0 then Some((m.effect, RequestOf(m.state))) else None
    else if MayRun(c, interrupts, m, j) then Some((ToolId(c.run, m.state.iteration, j), m.calls[j]))
    else None
  }

  function Saved(c: Setup, w: World, token: Id, version: nat, m: Memory, db: Db): World {
    w.(db := db, chain := w.chain + [m], workers := w.workers[token := Worker(version, m, map[])])
  }

  function WithEffect(w: World, id: Id, request: Value): World {
    w.(tape := w.tape[id := Effect(request, None)], log := w.log + [id])
  }

  /** The live submission of an effect: an intent that is not on the tape yet. */
  function Submit(c: Setup, w: World, token: Id, j: nat): World
    requires ValidAgent(c.agent)
  {
    if token !in w.workers then w
    else match Expects(c, w.db.interrupts, w.workers[token].mem, j)
      case None => w
      case Some((id, request)) => if id in w.tape then w else WithEffect(w, id, request)
  }

  ghost function OthersCall(c: Setup, w: World, op: Op): World {
    if !OthersMay(c, w.claimed, op) then w
    else w.(db := After(w.db, op), claimed := Issued(c, w.claimed, op))
  }

  function Issued(c: Setup, claimed: set<Id>, op: Op): set<Id> {
    if op.OpClaim? && op.r == c.run then claimed + {op.token} else claimed
  }

  function BeginRun(c: Setup, w: World, token: Id, now: real): World {
    if token !in w.claimed then w
    else match SaveCheckpoint(w.db, c.run, token, 0, Encode(Ready(c.initial)), now)
      case Err(_) => w
      case Ok(db) => Saved(c, w, token, 1, Ready(c.initial), db)
  }

  function LoadLatest(c: Setup, w: World, token: Id): World {
    if token !in w.claimed || c.run !in w.db.runs || (c.run, w.db.runs[c.run].version) !in w.db.checkpoints then w
    else match Decode(w.db.checkpoints[(c.run, w.db.runs[c.run].version)])
      case None => w
      case Some(m) => w.(workers := w.workers[token := Worker(w.db.runs[c.run].version, m, map[])])
  }

  function Conclude(w: World, id: Id, outcome: Value): World {
    if id in w.tape && w.tape[id].outcome.None? && OutcomeFits(id, w.tape[id].request, outcome)
    then w.(tape := w.tape[id := w.tape[id].(outcome := Some(outcome))]) else w
  }

  /** A terminal effect is handed over, whoever submitted it; an intent alone is not. */
  function Deliver(c: Setup, w: World, token: Id, j: nat): World
    requires ValidAgent(c.agent)
  {
    if token !in w.workers then w
    else
      var worker := w.workers[token];
      match Expects(c, w.db.interrupts, worker.mem, j)
      case None => w
      case Some((id, request)) =>
        if id in w.tape && w.tape[id].request == request && w.tape[id].outcome.Some?
        then w.(workers := w.workers[token := worker.(got := worker.got[j := w.tape[id].outcome.value])]) else w
  }

  function SaveTurn(c: Setup, w: World, token: Id, now: real, cancel: bool): World
    requires ValidAgent(c.agent)
  {
    if token !in w.workers || c.run !in w.db.runs || (cancel && !w.db.runs[c.run].cancel) then w
    else
      var worker := w.workers[token];
      match NextMemory(c, w.db.interrupts, worker.mem, worker.got, cancel)
      case None => w
      case Some(m) =>
        match SaveCheckpoint(w.db, c.run, token, worker.version, Encode(m), now)
        case Err(_) => w
        case Ok(db) => Saved(c, w, token, worker.version + 1, m, db)
  }

  ghost function AskTurn(c: Setup, w: World, token: Id, now: real): World
    requires ValidAgent(c.agent)
  {
    if token !in w.workers then w
    else match Asks(c, w.workers[token].mem)
      case None => w
      case Some(q) =>
        match Suspend(w.db, c.run, token, w.workers[token].version, Encode(q.memory), q.id, q.kind, q.request, now)
        case Err(_) => w
        case Ok(db) => w.(db := db, chain := w.chain + [q.memory], workers := w.workers - {token})
  }

  ghost function SettleTurn(c: Setup, w: World, token: Id, now: real): World {
    if token !in w.workers || !w.workers[token].mem.Terminal? then w
    else w.(db := After(w.db, SettleOp(c, token, w.workers[token].mem.result, now)))
  }

  /** An owner may fail before it has loaded anything. */
  ghost function AbortTurn(c: Setup, w: World, token: Id, error: Value, now: real): World {
    if token !in w.claimed then w
    else w.(db := After(w.db, OpFail(c.run, token, error, now)), workers := w.workers - {token})
  }

  /** One step; a move that is not possible leaves the world as it is. */
  ghost function Do(c: Setup, w: World, move: Move): World
    requires ValidAgent(c.agent)
  {
    match move
    case Env(op) => OthersCall(c, w, op)
    case Begin(token, now) => BeginRun(c, w, token, now)
    case Load(token) => LoadLatest(c, w, token)
    case Submits(token, j) => Submit(c, w, token, j)
    case Settles(id, outcome) => Conclude(w, id, outcome)
    case Receive(token, j) => Deliver(c, w, token, j)
    case Save(token, now, cancel) => SaveTurn(c, w, token, now, cancel)
    case Ask(token, now) => AskTurn(c, w, token, now)
    case Settle(token, now) => SettleTurn(c, w, token, now)
    case Abort(token, error, now) => AbortTurn(c, w, token, error, now)
    case Crash(token) => w.(workers := w.workers - {token})
  }

  /** A run that was just created: nothing saved, submitted or asked yet. */
  predicate Start(c: Setup, w: World) {
    && c.run in w.db.runs && w.db.runs[c.run].state == Pending && w.db.runs[c.run].version == 0
    && (forall i | i in w.db.interrupts :: !OwnInterrupt(c.run, i) && w.db.interrupts[i].run != c.run)
    && w.claimed == {} && w.tape == map[] && w.log == [] && w.chain == [] && w.workers == map[]
  }

  ghost function Schedule(c: Setup, start: World, moves: seq<Move>): World
    requires ValidAgent(c.agent)
  {
    if moves == [] then start else Do(c, Schedule(c, start, moves[..|moves| - 1]), moves[|moves| - 1])
  }
}
