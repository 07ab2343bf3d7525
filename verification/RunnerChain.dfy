/** One turn of the runner: what every checkpoint satisfies, how it follows from the one
    before, and that no turn loses track of the plain loop. */
module RunnerChain {
  import opened Values
  import opened Execution
  import opened Durable
  import opened ReactLoop
  import opened Runner

  // -- a single checkpoint -----------------------------------------------------------

  /** Result `j` carries the id of call `j`. */
  predicate ResultsAnswer(calls: seq<Value>, results: seq<Value>) {
    && |results| <= |calls| && AllObjects(results)
    && forall j | 0 <= j < |results| :: Get(results[j], "tool_use_id") == Get(calls[j], "id")
  }

  /** The names a tool checkpoint may carry: the interrupts of exactly its next call. */
  predicate NamesOk(c: Setup, m: Memory)
    requires m.Tools?
  {
    && (m.input.Some? || m.approval.Some? ==> InToolPhase(m))
    && (m.input.Some? ==>
          && m.approval.None? && m.input.value == InputId(c.run, m.state.iteration, m.next)
          && m.next < |m.calls| && Needed(c.agent, c.agent.input, m.calls[m.next]).Some?)
    && (m.approval.Some? ==>
          && m.approval.value == ApprovalId(c.run, m.state.iteration, m.next)
          && m.next < |m.calls| && Needed(c.agent, c.agent.approval, m.calls[m.next]).Some?
          && Needed(c.agent, c.agent.input, m.calls[m.next]).None?)
  }

  predicate MemoryOk(c: Setup, m: Memory) {
    match m
    case Ready(_) => true
    case BeforeLlm(state, effect) => state.iteration < c.agent.maxIterations && effect == LlmId(c.run, state.iteration)
    case Tools(state, _, effect, reply, calls, results, next, _, _) =>
      && state.iteration < c.agent.maxIterations && effect == LlmId(c.run, state.iteration)
      && calls == ExtractCalls(reply.content) && |results| == next && ResultsAnswer(calls, results)
      && NamesOk(c, m)
    case Terminal(_, result) => FinalOk(result)
  }

  lemma MemoryWritable(c: Setup, m: Memory)
    requires MemoryOk(c, m)
    ensures Writable(m)
  {}

  /** Outcome `j` that a worker received is on the tape, for the request it would make. */
  predicate OnTape(c: Setup, tape: map<Id, Effect>, m: Memory, j: nat, outcome: Value) {
    if m.BeforeLlm? then j == 0 && m.effect in tape && tape[m.effect] == Effect(RequestOf(m.state), Some(outcome))
    else
      && m.Tools? && j < |m.calls| && ToolId(c.run, m.state.iteration, j) in tape
      && tape[ToolId(c.run, m.state.iteration, j)] == Effect(m.calls[j], Some(outcome))
  }

  predicate GotOk(c: Setup, tape: map<Id, Effect>, m: Memory, got: map<nat, Value>) {
    forall j | j in got :: OnTape(c, tape, m, j, got[j])
  }

  predicate TapeFits(tape: map<Id, Effect>) {
    forall id | id in tape && tape[id].outcome.Some? :: OutcomeFits(id, tape[id].request, tape[id].outcome.value)
  }

  // -- two consecutive checkpoints ---------------------------------------------------

  /** The history relation: each checkpoint is the next stop of the loop, a suspension on the
      spot, or the end by cancellation. */
  predicate Follows(c: Setup, m: Memory, n: Memory) {
    || (n == Terminal(m.state, CancelledResult(m.state)) && !(m.Terminal? && m.result.stopReason == CANCELLED))
    || match m
       case Ready(state) =>
         n == if state.iteration >= c.agent.maxIterations then Terminal(state, MaxIterationsResult(state))
              else BeforeLlm(state, LlmId(c.run, state.iteration))
       case BeforeLlm(state, effect) =>
         n.Tools? && n == Tools(state, false, effect, n.reply, ExtractCalls(n.reply.content), [], 0, None, None)
       case Tools(state, _, _, reply, calls, results, next, _, _) =>
         if reply.stopReason == "error" then n == Terminal(state, ErrorResult(state, reply))
         else if calls == [] then
           n == if reply.stopReason == "tool_use" then Terminal(state, MalformedResult(state))
                else Terminal(Said(state, reply), FinishedResult(c.agent, state, reply))
         else if next >= |calls| then n == Ready(Advance(state, reply, results))
         else n.Tools? && (Suspends(m, n) || Acts(m, n))
       case Terminal(_, _) => false
  }

  predicate Suspends(m: Memory, n: Memory)
    requires m.Tools? && n.Tools?
  {
    n == m.(input := n.input, approval := n.approval) && m.input.None? && m.approval.None? && WaitsFor(n).Some?
  }

  predicate Acts(m: Memory, n: Memory)
    requires m.Tools? && n.Tools?
  {
    && m.next < n.next <= |m.calls| && m.results <= n.results
    && n == m.(acted := true, results := n.results, next := n.next, input := None, approval := None)
  }

  /** The interrupt a checkpoint waits for or was resumed through. */
  function WaitsFor(m: Memory): Option<Id> {
    if !m.Tools? then None else if m.input.Some? then m.input else m.approval
  }

  // -- any two checkpoints -------------------------------------------------------------

  function Rank(m: Memory): nat {
    match m case Ready(_) => 0 case BeforeLlm(_, _) => 1 case Tools(_, _, _, _, _, _, _, _, _) => 2 case Terminal(_, _) => 3
  }

  /** Within one iteration the state, reply and calls stay, and a name stays until its call
      is answered. */
  predicate SameTurn(m: Memory, n: Memory) {
    && n.state == m.state && Rank(m) <= Rank(n)
    && (m.BeforeLlm? && n.Tools? ==> n.effect == m.effect)
    && (m.BeforeLlm? && n.BeforeLlm? ==> n == m)
    && (m.Tools? && n.Tools? ==>
          && n.effect == m.effect && n.reply == m.reply && n.calls == m.calls && m.next <= n.next
          && (n.next == m.next ==> n.results == m.results && (m.input.Some? ==> n.input == m.input)
                                   && (m.approval.Some? ==> n.approval == m.approval)))
  }

  predicate Later(m: Memory, n: Memory) {
    || n.Terminal?
    || (!m.Terminal? && (m.state.iteration < n.state.iteration || SameTurn(m, n)))
  }

  lemma LaterTransitive(a: Memory, b: Memory, c: Memory)
    requires Later(a, b) && Later(b, c)
    ensures Later(a, c)
  {}

  lemma FollowsLater(c: Setup, m: Memory, n: Memory)
    requires Follows(c, m, n)
    ensures Later(m, n)
  {}

  // -- turns ------------------------------------------------------------------------------

  lemma CollectedAnswers(c: Setup, tape: map<Id, Effect>, m: Memory, got: map<nat, Value>, n: nat)
    requires MemoryOk(c, m) && m.Tools? && GotOk(c, tape, m, got) && TapeFits(tape) && m.next + n <= |m.calls|
    requires forall k | m.next <= k < m.next + n :: k in got
    ensures ResultsAnswer(m.calls, m.results + Collect(got, m.next, n))
  {
    var all := m.results + Collect(got, m.next, n);
    forall j | 0 <= j < |all| ensures all[j].Obj? && Get(all[j], "tool_use_id") == Get(m.calls[j], "id") {
      if j >= m.next {
        assert all[j] == got[j] && OnTape(c, tape, m, j, got[j]);
        assert OutcomeFits(ToolId(c.run, m.state.iteration, j), m.calls[j], got[j]);
      }
    }
  }

  lemma AnswerAnswers(c: Setup, m: Memory, response: Value)
    requires MemoryOk(c, m) && InToolPhase(m)
    ensures ResultsAnswer(m.calls, m.results + [Answer(c.agent, m.calls[m.next], response)])
  {
    var a := Answer(c.agent, m.calls[m.next], response);
    assert Get(a, "tool_use_id") == Get(m.calls[m.next], "id");
  }

  lemma ActedOk(c: Setup, m: Memory, more: seq<Value>)
    requires MemoryOk(c, m) && InToolPhase(m) && more != [] && ResultsAnswer(m.calls, m.results + more)
    ensures MemoryOk(c, Acted(m, more)) && Follows(c, m, Acted(m, more)) && WaitsFor(Acted(m, more)).None?
  {}

  lemma ToolTurnOk(c: Setup, tape: map<Id, Effect>, interrupts: map<Id, Interrupt>, m: Memory, got: map<nat, Value>)
    requires ValidAgent(c.agent) && MemoryOk(c, m) && m.Tools? && GotOk(c, tape, m, got) && TapeFits(tape)
    requires AfterReply(c, interrupts, m, got).Some?
    ensures var n := AfterReply(c, interrupts, m, got).value; MemoryOk(c, n) && Follows(c, m, n) && WaitsFor(n).None?
  {
    if InToolPhase(m) {
      if m.input.Some? {
        var response := interrupts[m.input.value].response;
        AnswerAnswers(c, m, response);
        ActedOk(c, m, [Answer(c.agent, m.calls[m.next], response)]);
      } else {
        BatchIsClear(c.agent, m.calls, m.next, m.approval.Some?);
        var n := PlanFor(c.agent, m.calls, m.next, m.approval.Some?).count;
        CollectedAnswers(c, tape, m, got, n);
        ActedOk(c, m, Collect(got, m.next, n));
      }
    }
  }

  /** Every checkpoint a turn saves is in order and follows the one the turn started from. */
  lemma TurnOk(c: Setup, tape: map<Id, Effect>, interrupts: map<Id, Interrupt>, m: Memory, got: map<nat, Value>, cancel: bool)
    requires ValidAgent(c.agent) && MemoryOk(c, m) && GotOk(c, tape, m, got) && TapeFits(tape)
    requires NextMemory(c, interrupts, m, got, cancel).Some?
    ensures var n := NextMemory(c, interrupts, m, got, cancel).value; MemoryOk(c, n) && Follows(c, m, n) && WaitsFor(n).None?
  {
    if m.Tools? && !cancel { ToolTurnOk(c, tape, interrupts, m, got); }
  }

  lemma AskOk(c: Setup, m: Memory)
    requires ValidAgent(c.agent) && MemoryOk(c, m) && Asks(c, m).Some?
    ensures var q := Asks(c, m).value;
            && MemoryOk(c, q.memory) && Follows(c, m, q.memory) && q.memory.Tools? && m.Tools?
            && m.input.None? && m.approval.None? && q.memory.next == m.next && q.memory.state == m.state
            && WaitsFor(q.memory) == Some(q.id)
            && ((q.kind == "input" && q.memory.input == Some(q.id) && q.memory.approval.None?) ||
                (q.kind == "approval" && q.memory.approval == Some(q.id) && q.memory.input.None?))
  {
    BatchIsClear(c.agent, m.calls, m.next, m.approval.Some?);
  }

  // -- the plain loop --------------------------------------------------------------------

  /** The outcomes an oracle promises are the ones on the tape, and the external answers for
      calls that were answered through an interrupt. */
  ghost predicate Agrees(c: Setup, o: Oracle, tape: map<Id, Effect>, interrupts: map<Id, Interrupt>) {
    && (forall i: nat | LlmId(c.run, i) in tape && tape[LlmId(c.run, i)].outcome.Some? ::
          Model(o.model(i, tape[LlmId(c.run, i)].request)) == tape[LlmId(c.run, i)].outcome.value)
    && (forall i: nat, j: nat | ToolId(c.run, i, j) in tape && tape[ToolId(c.run, i, j)].outcome.Some? ::
          o.tool(i, j, tape[ToolId(c.run, i, j)].request) == tape[ToolId(c.run, i, j)].outcome.value)
    && (forall i: nat, j: nat, call | IsAllowed(interrupts, InputId(c.run, i, j)) ::
          o.tool(i, j, call) == Answer(c.agent, call, interrupts[InputId(c.run, i, j)].response))
  }

  /** The checkpoint is a stop of the plain loop: same state, reply and results at the same
      point, and the loop ends from here as it ends from the start. */
  predicate OnTrack(c: Setup, o: Oracle, m: Memory) {
    match m
    case Ready(state) =>
      state == StateAt(o, c.initial, state.iteration) && c.initial.iteration <= state.iteration
      && Loop(c.agent, o, state) == Loop(c.agent, o, c.initial)
    case BeforeLlm(state, _) =>
      state == StateAt(o, c.initial, state.iteration) && c.initial.iteration <= state.iteration
      && Loop(c.agent, o, state) == Loop(c.agent, o, c.initial)
    case Tools(state, _, _, reply, calls, results, next, _, _) =>
      && state == StateAt(o, c.initial, state.iteration) && c.initial.iteration <= state.iteration
      && state.iteration < c.agent.maxIterations && calls == ExtractCalls(reply.content) && next <= |calls|
      && reply == o.model(state.iteration, RequestOf(state))
      && results + CallResults(o, state.iteration, calls, next) == CallResults(o, state.iteration, calls, 0)
      && Loop(c.agent, o, state) == Loop(c.agent, o, c.initial)
    case Terminal(_, result) => result.stopReason == CANCELLED || result == Loop(c.agent, o, c.initial)
  }

  lemma ReplyOnTrack(c: Setup, o: Oracle, m: Memory, reply: Reply)
    requires OnTrack(c, o, m) && m.BeforeLlm? && m.state.iteration < c.agent.maxIterations
    requires reply == o.model(m.state.iteration, RequestOf(m.state))
    ensures OnTrack(c, o, Tools(m.state, false, m.effect, reply, ExtractCalls(reply.content), [], 0, None, None))
  {
    var rest := CallResults(o, m.state.iteration, ExtractCalls(reply.content), 0);
    assert [] + rest == rest;
  }

  lemma EndOnTrack(c: Setup, o: Oracle, m: Memory)
    requires OnTrack(c, o, m) && m.Tools? && (m.reply.stopReason == "error" || m.calls == [])
    ensures Finish(c.agent, o, m.state, m.reply, []) == Loop(c.agent, o, c.initial)
  {}

  lemma AdvanceOnTrack(c: Setup, o: Oracle, m: Memory)
    requires OnTrack(c, o, m) && m.Tools? && m.reply.stopReason != "error" && m.calls != [] && m.next == |m.calls|
    ensures OnTrack(c, o, Ready(Advance(m.state, m.reply, m.results)))
  {
    var all := CallResults(o, m.state.iteration, m.calls, 0);
    assert m.results + [] == m.results == all;
    assert [] + all == all;
    var next := Advance(m.state, m.reply, m.results);
    assert Loop(c.agent, o, m.state) == Finish(c.agent, o, m.state, m.reply, []) == Loop(c.agent, o, next);
    assert StateAt(o, c.initial, next.iteration) == next;
  }

  lemma ActsOnTrack(c: Setup, o: Oracle, m: Memory, more: seq<Value>)
    requires OnTrack(c, o, m) && m.Tools? && m.next + |more| <= |m.calls|
    requires more == BatchResults(o, m.state.iteration, m.calls, m.next, |more|)
    ensures OnTrack(c, o, Acted(m, more))
  {
    BatchAppended(o, m.state.iteration, m.calls, m.results, m.next, |more|);
  }

  lemma BatchAgrees(c: Setup, o: Oracle, tape: map<Id, Effect>, interrupts: map<Id, Interrupt>, m: Memory, got: map<nat, Value>, n: nat)
    requires Agrees(c, o, tape, interrupts) && m.Tools? && GotOk(c, tape, m, got) && m.next + n <= |m.calls|
    requires forall k | m.next <= k < m.next + n :: k in got
    ensures Collect(got, m.next, n) == BatchResults(o, m.state.iteration, m.calls, m.next, n)
  {
    forall k: nat | m.next <= k < m.next + n ensures got[k] == o.tool(m.state.iteration, k, m.calls[k]) {
      assert OnTape(c, tape, m, k, got[k]);
    }
  }

  lemma AnswerAgrees(c: Setup, o: Oracle, tape: map<Id, Effect>, interrupts: map<Id, Interrupt>, m: Memory)
    requires Agrees(c, o, tape, interrupts) && MemoryOk(c, m) && InToolPhase(m) && m.input.Some?
    requires IsAllowed(interrupts, m.input.value)
    ensures [Answer(c.agent, m.calls[m.next], interrupts[m.input.value].response)] ==
            BatchResults(o, m.state.iteration, m.calls, m.next, 1)
  {
    assert m.input.value == InputId(c.run, m.state.iteration, m.next);
  }

  lemma ToolTurnOnTrack(c: Setup, o: Oracle, tape: map<Id, Effect>, interrupts: map<Id, Interrupt>, m: Memory, got: map<nat, Value>)
    requires ValidAgent(c.agent) && MemoryOk(c, m) && m.Tools? && GotOk(c, tape, m, got)
    requires Agrees(c, o, tape, interrupts) && OnTrack(c, o, m) && AfterReply(c, interrupts, m, got).Some?
    ensures OnTrack(c, o, AfterReply(c, interrupts, m, got).value)
  {
    if m.reply.stopReason == "error" || m.calls == [] {
      EndOnTrack(c, o, m);
    } else if m.next >= |m.calls| {
      AdvanceOnTrack(c, o, m);
    } else if m.input.Some? {
      AnswerAgrees(c, o, tape, interrupts, m);
      ActsOnTrack(c, o, m, [Answer(c.agent, m.calls[m.next], interrupts[m.input.value].response)]);
    } else {
      BatchIsClear(c.agent, m.calls, m.next, m.approval.Some?);
      var n := PlanFor(c.agent, m.calls, m.next, m.approval.Some?).count;
      BatchAgrees(c, o, tape, interrupts, m, got, n);
      ActsOnTrack(c, o, m, Collect(got, m.next, n));
    }
  }

  /** No turn leaves the track of the plain loop, whatever oracle agrees with the tape. */
  lemma TurnOnTrack(c: Setup, o: Oracle, tape: map<Id, Effect>, interrupts: map<Id, Interrupt>, m: Memory, got: map<nat, Value>, cancel: bool)
    requires ValidAgent(c.agent) && MemoryOk(c, m) && GotOk(c, tape, m, got)
    requires Agrees(c, o, tape, interrupts) && OnTrack(c, o, m) && NextMemory(c, interrupts, m, got, cancel).Some?
    ensures OnTrack(c, o, NextMemory(c, interrupts, m, got, cancel).value)
  {
    if cancel {
    } else if m.BeforeLlm? {
      assert OnTape(c, tape, m, 0, got[0]);
      ReplyOnTrack(c, o, m, got[0].reply);
    } else if m.Tools? {
      ToolTurnOnTrack(c, o, tape, interrupts, m, got);
    }
  }
}
