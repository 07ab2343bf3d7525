/** The durable form of an agent run: conversation state, final results, the checkpoints of
    the phase machine and their JSON payloads. */
module Durable {
  import opened Values
  import opened Execution

  datatype AgentState = AgentState(messages: seq<Value>, iteration: nat, metadata: map<string, Value>)

  /** `error` is Null or an object. */
  datatype FinalResult = FinalResult(
    text: string, state: AgentState, stopReason: string, error: Value, metadata: map<string, Value>)

  const NATURAL := "natural_stop"
  const MAX_ITERATIONS := "max_iterations"
  const MAX_TOKENS := "max_tokens"
  const ERROR := "error"
  const CANCELLED := "cancelled"

  const READY := "ready"
  const BEFORE_LLM := "before_llm"
  const AFTER_LLM := "after_llm"
  const AFTER_TOOL := "after_tool"
  const TERMINAL := "terminal"

  const STORE_KEY := "durable_claim_store_id"
  const SCHEMA := 1

  predicate Natural(result: FinalResult) { result.stopReason == NATURAL }

  // -- payloads ----------------------------------------------------------------

  function StateFields(state: AgentState): map<string, Value> {
    map["messages" := List(state.messages), "iteration" := Int(state.iteration), "metadata" := Obj(state.metadata)]
  }

  function StatePayload(state: AgentState): Value { Obj(StateFields(state)) }

  /** `_agent_state_from_payload`: missing fields default, wrong types are errors. */
  function StateFrom(v: Value): Option<AgentState> {
    if !v.Obj? then None
    else
      var messages := if "messages" in v.fields then v.fields["messages"] else List([]);
      var iteration := if "iteration" in v.fields then v.fields["iteration"] else Int(0);
      var metadata := if "metadata" in v.fields then v.fields["metadata"] else Obj(map[]);
      if messages.List? && iteration.Int? && iteration.n >= 0 && metadata.Obj?
      then Some(AgentState(messages.items, iteration.n, metadata.fields)) else None
  }

  function FinalPayload(result: FinalResult): Value {
    Obj(map["text" := Str(result.text), "state" := StatePayload(result.state), "stop_reason" := Str(result.stopReason),
            "error" := result.error, "metadata" := Obj(result.metadata)])
  }

  /** `_final_from_payload` on the JSON types that `_final_payload` writes. */
  function FinalFrom(v: Value): Option<FinalResult> {
    if !v.Obj? then None
    else
      var text := if "text" in v.fields then v.fields["text"] else Str("");
      var stop := if "stop_reason" in v.fields then v.fields["stop_reason"] else Str(ERROR);
      var metadata := if "metadata" in v.fields then v.fields["metadata"] else Obj(map[]);
      var error := Get(v, "error");
      match StateFrom(Get(v, "state"))
      case None => None
      case Some(state) =>
        if text.Str? && stop.Str? && metadata.Obj? && (error.Null? || error.Obj?)
        then Some(FinalResult(text.s, state, stop.s, error, metadata.fields)) else None
  }

  predicate FinalOk(result: FinalResult) { result.error.Null? || result.error.Obj? }

  lemma StateRoundTrip(state: AgentState)
    ensures StateFrom(StatePayload(state)) == Some(state)
  {}

  lemma FinalRoundTrip(result: FinalResult)
    requires FinalOk(result)
    ensures FinalFrom(FinalPayload(result)) == Some(result)
  {
    StateRoundTrip(result.state);
  }

  // -- checkpoints -----------------------------------------------------------------

  /** What the runner knows at a checkpoint. `Tools` is the state after a model reply;
      `acted` tells the phases after_llm and after_tool apart, `next` is the first tool call
      without a result, and `input`/`approval` name an interrupt that call `next` waited for. */
  datatype Memory =
    | Ready(state: AgentState)
    | BeforeLlm(state: AgentState, effect: Id)
    | Tools(state: AgentState, acted: bool, effect: Id, reply: Reply, calls: seq<Value>, results: seq<Value>,
            next: nat, input: Option<Id>, approval: Option<Id>)
    | Terminal(state: AgentState, result: FinalResult)

  function Phase(m: Memory): string {
    match m
    case Ready(_) => READY
    case BeforeLlm(_, _) => BEFORE_LLM
    case Tools(_, acted, _, _, _, _, _, _, _) => if acted then AFTER_TOOL else AFTER_LLM
    case Terminal(_, _) => TERMINAL
  }

  function Base(state: AgentState): map<string, Value> {
    map["schema_version" := Int(SCHEMA), "agent_state" := StatePayload(state)]
  }

  function Named(key: string, id: Option<Id>): map<string, Value> {
    match id case None => map[] case Some(i) => map[key := Name(i)]
  }

  function ToolFields(m: Memory): map<string, Value>
    requires m.Tools?
  {
    map["llm_effect_id" := Name(m.effect), "reply" := Model(m.reply), "tool_calls" := List(m.calls),
        "tool_results" := List(m.results), "next_tool_index" := Int(m.next)]
    + Named("input_interrupt_id", m.input) + Named("approval_interrupt_id", m.approval)
  }

  function EffectField(effect: Id): map<string, Value> { map["llm_effect_id" := Name(effect)] }

  function ResultField(result: FinalResult): map<string, Value> { map["final_result" := FinalPayload(result)] }

  /** What a phase adds to the payload. */
  function Extra(m: Memory): map<string, Value> {
    match m
    case Ready(_) => map[]
    case BeforeLlm(_, effect) => EffectField(effect)
    case Tools(_, _, _, _, _, _, _, _, _) => ToolFields(m)
    case Terminal(_, result) => ResultField(result)
  }

  function Payload(m: Memory): Value { Obj(Base(m.state) + Extra(m)) }

  function Encode(m: Memory): Checkpoint { Checkpoint(Phase(m), Payload(m)) }

  /** A payload key that is absent, or holds an identifier; anything else is an error. */
  function IdFrom(v: Value, key: string): Result<Option<Id>, Error> {
    match Get(v, key)
    case Null => Ok(None)
    case Name(id) => Ok(Some(id))
    case _ => Err(BadArgument)
  }

  function ObjectList(v: Value, key: string): Option<seq<Value>> {
    var raw := if v.Obj? && key in v.fields then v.fields[key] else List([]);
    if raw.List? && AllObjects(raw.items) then Some(raw.items) else None
  }

  function ToolsFrom(state: AgentState, acted: bool, v: Value): Option<Memory> {
    var reply, effect := Get(v, "reply"), Get(v, "llm_effect_id");
    var next := if v.Obj? && "next_tool_index" in v.fields then v.fields["next_tool_index"] else Int(0);
    var calls, results := ObjectList(v, "tool_calls"), ObjectList(v, "tool_results");
    if !reply.Model? || !effect.Name? || calls.None? || results.None? || !next.Int? then None
    else if !(0 <= next.n <= |calls.value|) then None
    else match (IdFrom(v, "input_interrupt_id"), IdFrom(v, "approval_interrupt_id"))
      case (Ok(input), Ok(approval)) =>
        Some(Tools(state, acted, effect.id, reply.reply, calls.value, results.value, next.n, input, approval))
      case _ => None
  }

  /** What a resumed runner reads out of a checkpoint, after the schema check. */
  function Decode(cp: Checkpoint): Option<Memory> {
    var v := cp.state;
    if Get(v, "schema_version") != Int(SCHEMA) then None
    else match StateFrom(Get(v, "agent_state"))
      case None => None
      case Some(state) =>
        if cp.phase == READY then Some(Ready(state))
        else if cp.phase == BEFORE_LLM then
          if Get(v, "llm_effect_id").Name? then Some(BeforeLlm(state, Get(v, "llm_effect_id").id)) else None
        else if cp.phase == AFTER_LLM then ToolsFrom(state, false, v)
        else if cp.phase == AFTER_TOOL then ToolsFrom(state, true, v)
        else if cp.phase == TERMINAL then
          match FinalFrom(Get(v, "final_result")) case Some(result) => Some(Terminal(state, result)) case None => None
        else None
  }

  /** The memories a runner writes. */
  predicate Writable(m: Memory) {
    match m
    case Tools(_, _, _, _, calls, results, next, _, _) => AllObjects(calls) && AllObjects(results) && next <= |calls|
    case Terminal(_, result) => FinalOk(result)
    case _ => true
  }

  lemma PhasesDiffer(m: Memory)
    ensures Phase(m) == READY <==> m.Ready?
    ensures Phase(m) == BEFORE_LLM <==> m.BeforeLlm?
    ensures Phase(m) == AFTER_LLM <==> m.Tools? && !m.acted
    ensures Phase(m) == AFTER_TOOL <==> m.Tools? && m.acted
    ensures Phase(m) == TERMINAL <==> m.Terminal?
    ensures Phase(m) != ""
  {
    assert |READY| == 5 && |BEFORE_LLM| == 10 && |AFTER_LLM| == 9 && |AFTER_TOOL| == 10 && |TERMINAL| == 8;
    assert BEFORE_LLM[0] == 'b' && AFTER_TOOL[0] == 'a';
  }

  /** No phase overwrites what every payload has. */
  lemma ExtraIsApart(m: Memory)
    ensures "schema_version" !in Extra(m) && "agent_state" !in Extra(m)
  {
    match m
    case Tools(_, _, _, _, _, _, _, _, _) => ToolsAreApart(m);
    case _ =>
  }

  lemma ToolsAreApart(m: Memory)
    requires m.Tools?
    ensures "schema_version" !in ToolFields(m) && "agent_state" !in ToolFields(m)
  {}

  lemma SchemaReads(m: Memory)
    ensures Get(Payload(m), "schema_version") == Int(SCHEMA)
  {
    ExtraIsApart(m);
  }

  lemma StateReads(m: Memory)
    ensures StateFrom(Get(Payload(m), "agent_state")) == Some(m.state)
  {
    ExtraIsApart(m);
    StateRoundTrip(m.state);
  }

  lemma IdReads(key: string, id: Option<Id>, v: Value)
    requires v.Obj? && (if id.None? then key !in v.fields else key in v.fields && v.fields[key] == Name(id.value))
    ensures IdFrom(v, key) == Ok(id)
  {}

  lemma InputReads(m: Memory)
    requires m.Tools?
    ensures IdFrom(Payload(m), "input_interrupt_id") == Ok(m.input)
  {
    IdReads("input_interrupt_id", m.input, Payload(m));
  }

  lemma ApprovalReads(m: Memory)
    requires m.Tools?
    ensures IdFrom(Payload(m), "approval_interrupt_id") == Ok(m.approval)
  {
    IdReads("approval_interrupt_id", m.approval, Payload(m));
  }

  lemma CallsRead(m: Memory)
    requires m.Tools? && Writable(m)
    ensures ObjectList(Payload(m), "tool_calls") == Some(m.calls)
  {}

  lemma ResultsRead(m: Memory)
    requires m.Tools? && Writable(m)
    ensures ObjectList(Payload(m), "tool_results") == Some(m.results)
  {}

  lemma FieldReads(m: Memory, key: string)
    requires m.Tools? && key in ToolFields(m)
    ensures Get(Payload(m), key) == ToolFields(m)[key]
  {}

  lemma ReplyReads(m: Memory)
    requires m.Tools?
    ensures Get(Payload(m), "reply") == Model(m.reply)
  {
    FieldReads(m, "reply");
  }

  lemma EffectReads(m: Memory)
    requires m.Tools?
    ensures Get(Payload(m), "llm_effect_id") == Name(m.effect)
  {
    FieldReads(m, "llm_effect_id");
  }

  lemma NextReads(m: Memory)
    requires m.Tools?
    ensures "next_tool_index" in Payload(m).fields && Payload(m).fields["next_tool_index"] == Int(m.next)
  {}

  lemma ToolsReadBack(m: Memory)
    requires m.Tools? && Writable(m)
    ensures ToolsFrom(m.state, m.acted, Payload(m)) == Some(m)
  {
    ReplyReads(m);
    EffectReads(m);
    CallsRead(m);
    ResultsRead(m);
    NextReads(m);
    InputReads(m);
    ApprovalReads(m);
  }

  /** A resumed runner knows exactly what the one that wrote the checkpoint knew. */
  lemma CheckpointRoundTrip(m: Memory)
    requires Writable(m)
    ensures Decode(Encode(m)) == Some(m)
    ensures Encode(m).phase != "" && Encode(m).state.Obj?
  {
    PhasesDiffer(m);
    SchemaReads(m);
    StateReads(m);
    match m
    case Ready(_) =>
    case BeforeLlm(_, effect) => assert Get(Payload(m), "llm_effect_id") == Name(effect);
    case Tools(_, _, _, _, _, _, _, _, _) => ToolsReadBack(m);
    case Terminal(_, result) =>
      assert Get(Payload(m), "final_result") == FinalPayload(result);
      FinalRoundTrip(result);
  }

  // -- settled runs ---------------------------------------------------------------------

  /** `settled_result_from_run`: the result of a terminal run, from its latest checkpoint. */
  function SettledResult(run: Run, latest: Option<Checkpoint>, storeId: string): Option<FinalResult> {
    if latest.Some? && latest.value.phase == TERMINAL then
      match Decode(latest.value)
      case Some(Terminal(_, result)) => if BoundTo(result.state, storeId) then Some(result) else None
      case _ => None
    else if run.state == Completed then None
    else
      var state := if latest.None? then Some(AgentState([], 0, map[STORE_KEY := Str(storeId)]))
                   else if Get(latest.value.state, "schema_version") != Int(SCHEMA) then None
                   else StateFrom(Get(latest.value.state, "agent_state"));
      if state.None? || !BoundTo(state.value, storeId) then None
      else
        var iterations := map["iterations" := Int(state.value.iteration)];
        if run.state == Cancelled then Some(FinalResult("", state.value, CANCELLED, Null, iterations))
        else if run.state == Failed then
          var known := run.error.Some? && run.error.value.Obj? && run.error.value.fields != map[];
          Some(FinalResult("", state.value, ERROR,
            if known then run.error.value else Obj(map["type" := Str("execution_failed")]), iterations))
        else None
  }

  /** The checkpoint belongs to this claim store. */
  predicate BoundTo(state: AgentState, storeId: string) {
    STORE_KEY in state.metadata && state.metadata[STORE_KEY] == Str(storeId)
  }

  // -- checkpoint migration ----------------------------------------------------------

  /** One registered step, or nothing; a step may also fail (`None` result). */
  type Migrations = nat -> Option<map<string, Value> -> Option<map<string, Value>>>

  function SchemaOf(payload: map<string, Value>): Option<nat> {
    var v := if "schema_version" in payload then payload["schema_version"] else Int(0);
    if v.Int? && v.n >= 0 then Some(v.n) else None
  }

  /** Migrating step by step, each step stamped with the version it reaches. */
  function Migrated(steps: Migrations, payload: map<string, Value>, from: nat, to: nat): Option<map<string, Value>>
    decreases if to > from then to - from else 0
  {
    if from >= to then Some(payload)
    else match steps(from)
      case None => None
      case Some(step) =>
        match step(payload)
        case None => None
        case Some(next) => Migrated(steps, next["schema_version" := Int(from + 1)], from + 1, to)
  }

  /** `migrate_checkpoint_payload`: refuses a schema newer than the target, and otherwise
      walks the registered steps one version at a time. */
  method MigratePayload(steps: Migrations, payload: map<string, Value>, target: nat) returns (migrated: Option<map<string, Value>>)
    ensures SchemaOf(payload).None? || SchemaOf(payload).value > target ==> migrated.None?
    ensures SchemaOf(payload).Some? && SchemaOf(payload).value <= target ==>
      migrated == Migrated(steps, payload, SchemaOf(payload).value, target)
  {
    var schema := SchemaOf(payload);
    if schema.None? || target < schema.value { return None; }
    var current, version := payload, schema.value;
    while version < target
      invariant schema.value <= version <= target
      invariant Migrated(steps, current, version, target) == Migrated(steps, payload, schema.value, target)
    {
      var step := steps(version);
      if step.None? { return None; }
      var next := step.value(current);
      if next.None? { return None; }
      version := version + 1;
      current := next.value["schema_version" := Int(version)];
    }
    return Some(current);
  }

  /** A migrated payload carries exactly the target version (or was at it already), and a
      missing step anywhere on the way refuses the payload. */
  lemma {:induction false} MigratedReachesTarget(steps: Migrations, payload: map<string, Value>, from: nat, to: nat)
    requires SchemaOf(payload) == Some(from) && from <= to
    ensures Migrated(steps, payload, from, to).Some? ==> SchemaOf(Migrated(steps, payload, from, to).value) == Some(to)
    ensures (exists v: nat :: from <= v < to && steps(v).None?) ==> Migrated(steps, payload, from, to).None?
    decreases if from < to then to - from else 0
  {
    if from < to && steps(from).Some? && steps(from).value(payload).Some? {
      var next := steps(from).value(payload).value["schema_version" := Int(from + 1)];
      MigratedReachesTarget(steps, next, from + 1, to);
    }
  }

  /** A future schema is refused; every known one goes through once and then is left alone. */
  lemma MigrationIsIdempotent(steps: Migrations, payload: map<string, Value>, from: nat, to: nat)
    requires SchemaOf(payload) == Some(from) && from <= to && Migrated(steps, payload, from, to).Some?
    ensures var once := Migrated(steps, payload, from, to).value;
            SchemaOf(once).Some? && Migrated(steps, once, SchemaOf(once).value, to) == Some(once)
  {
    MigratedReachesTarget(steps, payload, from, to);
  }
}
