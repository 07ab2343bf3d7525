/** The plain reason-act loop: what an agent computes when nothing crashes, as a function of
    the outcomes of its model and tool calls. Supervisors and observers are not part of it. */
module ReactLoop {
  import opened Values
  import opened Durable

  /** An agent's configuration. `registered`, `safe` and the two policies look at a tool call;
      policies are deterministic. `render` is how a value that is not a string is printed. */
  datatype Agent = Agent(
    maxIterations: nat, maxParallel: nat, serialOnly: bool,
    registered: Value -> bool, safe: Value -> bool,
    input: Value -> Option<Value>, approval: Value -> Option<Value>,
    render: Value -> string)

  predicate ValidAgent(agent: Agent) { agent.maxParallel >= 1 }

  // -- parsing a reply -----------------------------------------------------------

  predicate IsText(v: Value) { v.Str? && v.s != "" }

  predicate CallOk(block: Value) {
    && block.Obj? && Get(block, "type") == Str("tool_use")
    && IsText(Get(block, "id")) && IsText(Get(block, "name"))
    && (Get(block, "input").Null? || Get(block, "input").Obj?)
  }

  function ExtractCalls(content: seq<Value>): (calls: seq<Value>)
    ensures forall k | 0 <= k < |calls| :: CallOk(calls[k])
  {
    if content == [] then []
    else (if CallOk(content[0]) then [content[0]] else []) + ExtractCalls(content[1..])
  }

  function ExtractText(agent: Agent, content: seq<Value>): string {
    if content == [] then ""
    else
      var block := content[0];
      (if block.Obj? && Get(block, "type") == Str("text") then Printed(agent, Get(block, "text")) else "")
      + ExtractText(agent, content[1..])
  }

  function Printed(agent: Agent, v: Value): string { if v.Str? then v.s else agent.render(v) }

  // -- results and states ----------------------------------------------------------

  function Iterations(state: AgentState): map<string, Value> { map["iterations" := Int(state.iteration)] }

  function MaxIterationsResult(state: AgentState): FinalResult {
    FinalResult("", state, MAX_ITERATIONS, Null, Iterations(state))
  }

  function CancelledResult(state: AgentState): FinalResult {
    FinalResult("", state, CANCELLED, Null, Iterations(state))
  }

  function ErrorResult(state: AgentState, reply: Reply): FinalResult {
    var known := reply.error.Obj? && reply.error.fields != map[];
    FinalResult("", state, ERROR, if known then reply.error else Obj(map["type" := Str("unknown")]), Iterations(state))
  }

  function MalformedResult(state: AgentState): FinalResult {
    FinalResult("", state, ERROR,
      Obj(map["type" := Str("malformed_tool_use"),
              "message" := Str("model stopped for tool_use without a valid tool_use block")]),
      Iterations(state))
  }

  function AssistantMessage(reply: Reply): Value {
    Obj(map["role" := Str("assistant"), "content" := List(reply.content)])
  }

  function ResultsMessage(results: seq<Value>): Value {
    Obj(map["role" := Str("user"), "content" := List(results)])
  }

  function Said(state: AgentState, reply: Reply): AgentState {
    state.(messages := state.messages + [AssistantMessage(reply)], iteration := state.iteration + 1)
  }

  function FinishedResult(agent: Agent, state: AgentState, reply: Reply): FinalResult {
    var next := Said(state, reply);
    FinalResult(ExtractText(agent, reply.content), next,
      if reply.stopReason == "max_tokens" then MAX_TOKENS else NATURAL, Null, Iterations(next))
  }

  function Advance(state: AgentState, reply: Reply, results: seq<Value>): AgentState {
    state.(messages := state.messages + [AssistantMessage(reply), ResultsMessage(results)],
           iteration := state.iteration + 1)
  }

  function RequestOf(state: AgentState): Value { List(state.messages) }

  // -- the loop ----------------------------------------------------------------------

  /** The outcome of the model call of an iteration and of each of its tool calls. */
  datatype Oracle = Oracle(model: (nat, Value) -> Reply, tool: (nat, nat, Value) -> Value)

  function CallResults(o: Oracle, iteration: nat, calls: seq<Value>, from: nat): (results: seq<Value>)
    requires from <= |calls|
    ensures |results| == |calls| - from
    decreases |calls| - from
  {
    if from == |calls| then [] else [o.tool(iteration, from, calls[from])] + CallResults(o, iteration, calls, from + 1)
  }

  /** What becomes of a reply when the results `done` of its first calls are known. */
  function Finish(agent: Agent, o: Oracle, state: AgentState, reply: Reply, done: seq<Value>): FinalResult
    requires state.iteration < agent.maxIterations
    decreases agent.maxIterations - state.iteration, 0
  {
    var calls := ExtractCalls(reply.content);
    if reply.stopReason == "error" then ErrorResult(state, reply)
    else if calls == [] then
      if reply.stopReason == "tool_use" then MalformedResult(state) else FinishedResult(agent, state, reply)
    else
      var rest := if |done| <= |calls| then CallResults(o, state.iteration, calls, |done|) else [];
      Loop(agent, o, Advance(state, reply, done + rest))
  }

  function Loop(agent: Agent, o: Oracle, state: AgentState): FinalResult
    decreases if state.iteration < agent.maxIterations then agent.maxIterations - state.iteration else 0, 1
  {
    if state.iteration >= agent.maxIterations then MaxIterationsResult(state)
    else Finish(agent, o, state, o.model(state.iteration, RequestOf(state)), [])
  }

  /** The state the loop is in before iteration `n`, if every reply up to there asks for tools. */
  function StateAt(o: Oracle, initial: AgentState, n: nat): AgentState
    decreases n
  {
    if n <= initial.iteration then initial
    else
      var before := StateAt(o, initial, n - 1);
      var reply := o.model(n - 1, RequestOf(before));
      Advance(before, reply, CallResults(o, n - 1, ExtractCalls(reply.content), 0))
  }

  // -- batches -------------------------------------------------------------------------

  /** Leading calls from `at` that may run concurrently, at most `limit` of them. */
  function LeadingSafe(agent: Agent, calls: seq<Value>, at: nat, limit: nat): (n: nat)
    ensures n <= limit && (at <= |calls| ==> at + n <= |calls|)
    ensures forall k | at <= k < at + n && k < |calls| :: agent.registered(calls[k]) && agent.safe(calls[k])
    decreases limit
  {
    if limit == 0 || at >= |calls| then 0
    else if !agent.registered(calls[at]) || !agent.safe(calls[at]) then 0
    else 1 + LeadingSafe(agent, calls, at + 1, limit - 1)
  }

  /** `_parallel_tool_count`: always at least one call, and more than one only if all of them
      are registered and free of side effects. */
  function ParallelCount(agent: Agent, calls: seq<Value>, start: nat): (n: nat)
    requires ValidAgent(agent) && start < |calls|
    ensures 1 <= n <= agent.maxParallel && start + n <= |calls|
    ensures n > 1 ==> forall k | start <= k < start + n :: agent.registered(calls[k]) && agent.safe(calls[k])
  {
    if agent.maxParallel == 1 || agent.serialOnly then 1
    else Max(1, LeadingSafe(agent, calls, start, agent.maxParallel))
  }

  lemma {:induction false} CallResultsSplit(o: Oracle, i: nat, calls: seq<Value>, from: nat, n: nat)
    requires from + n <= |calls|
    ensures CallResults(o, i, calls, from) == CallResults(o, i, calls, from)[..n] + CallResults(o, i, calls, from + n)
    ensures forall k | 0 <= k < n :: CallResults(o, i, calls, from)[k] == o.tool(i, from + k, calls[from + k])
    decreases n
  {
    if n > 0 { CallResultsSplit(o, i, calls, from + 1, n - 1); }
  }

  /** The results of one batch, in call order. */
  function BatchResults(o: Oracle, i: nat, calls: seq<Value>, from: nat, n: nat): (results: seq<Value>)
    requires from + n <= |calls|
    ensures |results| == n
  {
    seq(n, k requires 0 <= k < n => o.tool(i, from + k, calls[from + k]))
  }

  lemma BatchSplit(o: Oracle, i: nat, calls: seq<Value>, from: nat, n: nat)
    requires from + n <= |calls|
    ensures CallResults(o, i, calls, from) == BatchResults(o, i, calls, from, n) + CallResults(o, i, calls, from + n)
  {
    CallResultsSplit(o, i, calls, from, n);
    assert BatchResults(o, i, calls, from, n) == CallResults(o, i, calls, from)[..n];
  }

  lemma BatchAppended(o: Oracle, i: nat, calls: seq<Value>, done: seq<Value>, from: nat, n: nat)
    requires from + n <= |calls|
    ensures done + CallResults(o, i, calls, from) ==
            (done + BatchResults(o, i, calls, from, n)) + CallResults(o, i, calls, from + n)
  {
    BatchSplit(o, i, calls, from, n);
  }

  method RunTools(agent: Agent, o: Oracle, iteration: nat, calls: seq<Value>) returns (results: seq<Value>)
    requires ValidAgent(agent)
    ensures results == CallResults(o, iteration, calls, 0)
  {
    results := [];
    var index := 0;
    while index < |calls|
      invariant |results| == index <= |calls|
      invariant results + CallResults(o, iteration, calls, index) == CallResults(o, iteration, calls, 0)
      decreases |calls| - index
    {
      var n := ParallelCount(agent, calls, index);
      BatchAppended(o, iteration, calls, results, index, n);
      results := results + BatchResults(o, iteration, calls, index, n);
      index := index + n;
    }
  }

  /** The uninterrupted loop as it runs, tool batches and all: batching changes nothing. */
  method RunLoop(agent: Agent, o: Oracle, initial: AgentState) returns (result: FinalResult)
    requires ValidAgent(agent)
    ensures result == Loop(agent, o, initial)
  {
    var state := initial;
    while state.iteration < agent.maxIterations
      invariant Loop(agent, o, state) == Loop(agent, o, initial)
      decreases if state.iteration < agent.maxIterations then agent.maxIterations - state.iteration else 0
    {
      var reply := o.model(state.iteration, RequestOf(state));
      assert Loop(agent, o, initial) == Finish(agent, o, state, reply, []);
      if reply.stopReason == "error" { return ErrorResult(state, reply); }
      var calls := ExtractCalls(reply.content);
      if calls == [] {
        return if reply.stopReason == "tool_use" then MalformedResult(state) else FinishedResult(agent, state, reply);
      }
      var results := RunTools(agent, o, state.iteration, calls);
      assert [] + results == results;
      state := Advance(state, reply, results);
    }
    result := MaxIterationsResult(state);
  }
}
