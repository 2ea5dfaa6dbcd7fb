/**
 * The agent: a mutable conversation history driven by a loop of provider
 * calls and tool executions. The provider is an oracle answering the k-th
 * call of a run, given the request it receives; tools run through the
 * registry, which the agent calls without a tool context.
 */
module AgentLoop {
  import opened Wrappers
  import opened Strings
  import opened Json
  import opened Types
  import ToolBase

  /** What one provider call settles to: a response, or a thrown error's message. */
  datatype ProviderReply = Reply(response: ChatResponse) | ProviderFailed(message: string)

  /** Why a run fails. */
  datatype AgentError = ProviderError(message: string) | ToolNotFound(name: string) | MaxIterationsReached(limit: nat) {
    function Message(): string {
      match this
      case ProviderError(m) => m
      case ToolNotFound(n) => "Tool not found: " + n
      case MaxIterationsReached(limit) => "Max iterations (" + NatToString(limit) + ") reached without final response"
    }
  }

  const MaxIterations: nat := 10

  /** The ceiling error, as the agent words it with its default of 10 iterations. */
  lemma CeilingMessage()
    ensures MaxIterationsReached(MaxIterations).Message() == "Max iterations (" + "10" + ") reached without final response"
  {
    assert NatToString(10) == NatToString(1) + [Digit(0)] == "10";
  }

  /** The reply asks for at least one tool call. */
  predicate HasToolCalls(r: ChatResponse) {
    r.toolCalls.Some? && |r.toolCalls.value| > 0
  }

  /** The `tool` messages appended for one reply's calls, and the error that
      stopped them, if any. */
  datatype ToolPhase = ToolPhase(messages: seq<Message>, failure: Option<AgentError>)

  /** The result message of one dispatched call. */
  function ResultMessage(call: ToolCall, result: string): Message {
    Tool(result, call.id, call.name)
  }

  /** The calls executed in order, one `tool` message per call answering it by
      id and name, until a call names an unregistered tool. */
  function ToolMessages(tools: ToolBase.ToolMap, calls: seq<ToolCall>, parse: string -> Result<Json, string>): (r: ToolPhase)
    ensures |r.messages| <= |calls|
    ensures forall k :: 0 <= k < |r.messages| ==>
              && ToolBase.ExecuteCall(tools, calls[k], None, parse).Ok?
              && r.messages[k] == ResultMessage(calls[k], ToolBase.ExecuteCall(tools, calls[k], None, parse).value)
    ensures r.failure.None? ==> |r.messages| == |calls|
    ensures r.failure.Some? ==> && |r.messages| < |calls|
                                && ToolBase.ExecuteCall(tools, calls[|r.messages|], None, parse).Err?
                                && r.failure.value == ToolNotFound(calls[|r.messages|].name)
  {
    if calls == [] then ToolPhase([], None)
    else
      match ToolBase.ExecuteCall(tools, calls[0], None, parse)
      case Err(e) => ToolPhase([], Some(ToolNotFound(calls[0].name)))
      case Ok(result) =>
        var rest := ToolMessages(tools, calls[1..], parse);
        ToolPhase([ResultMessage(calls[0], result)] + rest.messages, rest.failure)
  }

  /** The outcome of a run: the final history, the result or error, and the
      number of provider calls made. */
  datatype RunTrace = RunTrace(history: seq<Message>, outcome: Result<string, AgentError>, calls: nat)

  /** The request of one iteration: the whole history and every registered definition. */
  function IterationRequest(tools: ToolBase.ToolMap, history: seq<Message>): ChatRequest
    requires ToolBase.WellFormed(tools)
  {
    ChatRequest(history, Some(ToolBase.Definitions(tools)), None, None, None)
  }

  /** The loop from iteration `i` on, with `history` as it stands. */
  function RunLoop(tools: ToolBase.ToolMap, history: seq<Message>, i: nat, max: nat,
                   provider: (nat, ChatRequest) -> ProviderReply, parse: string -> Result<Json, string>): RunTrace
    requires ToolBase.WellFormed(tools)
    decreases max - i
  {
    if i >= max then RunTrace(history, Err(MaxIterationsReached(max)), i)
    else
      match provider(i, IterationRequest(tools, history))
      case ProviderFailed(m) => RunTrace(history, Err(ProviderError(m)), i + 1)
      case Reply(response) =>
        var h1 := history + [response.Message()];
        if !HasToolCalls(response) then RunTrace(h1, Ok(response.content), i + 1)
        else
          var phase := ToolMessages(tools, response.toolCalls.value, parse);
          if phase.failure.Some? then RunTrace(h1 + phase.messages, Err(phase.failure.value), i + 1)
          else RunLoop(tools, h1 + phase.messages, i + 1, max, provider, parse)
  }

  /** `run(userInput)` from a history `h`. */
  function RunSpec(tools: ToolBase.ToolMap, h: seq<Message>, userInput: string, max: nat,
                   provider: (nat, ChatRequest) -> ProviderReply, parse: string -> Result<Json, string>): RunTrace
    requires ToolBase.WellFormed(tools)
  {
    RunLoop(tools, h + [User(userInput)], 0, max, provider, parse)
  }

  /** The history only grows by appends, at most `max` provider calls are made,
      and the ceiling error comes after exactly `max` calls. */
  lemma {:induction false} RunLoopAppendsOnly(tools: ToolBase.ToolMap, history: seq<Message>, i: nat, max: nat,
                                              provider: (nat, ChatRequest) -> ProviderReply, parse: string -> Result<Json, string>)
    requires ToolBase.WellFormed(tools)
    requires i <= max
    ensures var t := RunLoop(tools, history, i, max, provider, parse);
            && history <= t.history
            && i <= t.calls <= max
            && (t.outcome == Err(MaxIterationsReached(max)) ==> t.calls == max)
    decreases max - i
  {
    if i < max {
      match provider(i, IterationRequest(tools, history))
      case ProviderFailed(m) =>
      case Reply(response) =>
        var h1 := history + [response.Message()];
        if HasToolCalls(response) {
          var phase := ToolMessages(tools, response.toolCalls.value, parse);
          if phase.failure.None? {
            RunLoopAppendsOnly(tools, h1 + phase.messages, i + 1, max, provider, parse);
          }
        }
    }
  }

  /** One iteration: the reply is appended whether or not it asks for tools;
      without tool calls the run returns its content; otherwise one `tool`
      message per call follows it, and a missing tool ends the run with that error. */
  lemma IterationEffect(tools: ToolBase.ToolMap, history: seq<Message>, i: nat, max: nat,
                        provider: (nat, ChatRequest) -> ProviderReply, parse: string -> Result<Json, string>)
    requires ToolBase.WellFormed(tools)
    requires i < max
    requires provider(i, IterationRequest(tools, history)).Reply?
    ensures var response := provider(i, IterationRequest(tools, history)).response;
            var t := RunLoop(tools, history, i, max, provider, parse);
            && history + [response.Message()] <= t.history
            && (!HasToolCalls(response) ==> t.outcome == Ok(response.content) && t.history == history + [response.Message()])
            && (HasToolCalls(response) ==>
                  var phase := ToolMessages(tools, response.toolCalls.value, parse);
                  && history + [response.Message()] + phase.messages <= t.history
                  && (phase.failure.Some? ==> t.outcome == Err(phase.failure.value)))
  {
    var response := provider(i, IterationRequest(tools, history));
    var response' := response.response;
    if HasToolCalls(response') {
      var phase := ToolMessages(tools, response'.toolCalls.value, parse);
      if phase.failure.None? {
        RunLoopAppendsOnly(tools, history + [response'.Message()] + phase.messages, i + 1, max, provider, parse);
      }
    }
  }

  /** A first reply without tool calls finishes the run at once: one provider
      call, and the history is the user message and that reply. */
  lemma ImmediateAnswer(tools: ToolBase.ToolMap, userInput: string, max: nat,
                        provider: (nat, ChatRequest) -> ProviderReply, parse: string -> Result<Json, string>)
    requires ToolBase.WellFormed(tools)
    requires max > 0
    requires provider(0, IterationRequest(tools, [User(userInput)])).Reply?
    requires !HasToolCalls(provider(0, IterationRequest(tools, [User(userInput)])).response)
    ensures var response := provider(0, IterationRequest(tools, [User(userInput)])).response;
            var t := RunSpec(tools, [], userInput, max, provider, parse);
            && t.outcome == Ok(response.content)
            && t.history == [User(userInput), response.Message()]
            && |t.history| == 2
            && t.calls == 1
  {
    assert [] + [User(userInput)] == [User(userInput)];
  }

  /** Every iteration's reply asks for tools, all of them registered. */
  predicate KeepsCallingTools(reply: ProviderReply, tools: ToolBase.ToolMap) {
    && reply.Reply? && HasToolCalls(reply.response)
    && forall c :: c in reply.response.toolCalls.value ==> c.name in tools.entries
  }

  /** If every reply asks for registered tools, the run fails with the ceiling
      error after exactly `max` provider calls. */
  lemma {:induction false} CeilingReached(tools: ToolBase.ToolMap, history: seq<Message>, i: nat, max: nat,
                                          provider: (nat, ChatRequest) -> ProviderReply, parse: string -> Result<Json, string>)
    requires ToolBase.WellFormed(tools)
    requires i <= max
    requires forall k, req :: i <= k < max ==> KeepsCallingTools(provider(k, req), tools)
    ensures RunLoop(tools, history, i, max, provider, parse).outcome == Err(MaxIterationsReached(max))
    ensures RunLoop(tools, history, i, max, provider, parse).calls == max
    decreases max - i
  {
    if i < max {
      var reply := provider(i, IterationRequest(tools, history));
      assert KeepsCallingTools(reply, tools);
      var calls := reply.response.toolCalls.value;
      var phase := ToolMessages(tools, calls, parse);
      CeilingReached(tools, history + [reply.response.Message()] + phase.messages, i + 1, max, provider, parse);
    }
  }

  /** Appending a reply and the results of its calls keeps every `tool`
      message answering an earlier assistant call. */
  lemma PhaseKeepsLinked(tools: ToolBase.ToolMap, h: seq<Message>, response: ChatResponse, parse: string -> Result<Json, string>)
    requires ToolResultsLinked(h)
    requires HasToolCalls(response)
    ensures ToolResultsLinked(h + [response.Message()] + ToolMessages(tools, response.toolCalls.value, parse).messages)
  {
    var calls := response.toolCalls.value;
    var ms := ToolMessages(tools, calls, parse).messages;
    var h' := h + [response.Message()] + ms;
    forall k | 0 <= k < |h'| && h'[k].Tool?
      ensures exists j :: 0 <= j < k && Issues(h'[j], h'[k].toolCallId)
    {
      if k < |h| {
        var j :| 0 <= j < k && Issues(h[j], h[k].toolCallId);
        assert h'[j] == h[j];
      } else {
        var m := k - |h| - 1;
        assert h'[k] == ms[m];
        assert calls[m] in calls;
        assert Issues(h'[|h|], h'[k].toolCallId);
      }
    }
  }

  /** A run keeps every `tool` message answering an earlier assistant call. */
  lemma {:induction false} RunKeepsLinked(tools: ToolBase.ToolMap, history: seq<Message>, i: nat, max: nat,
                                          provider: (nat, ChatRequest) -> ProviderReply, parse: string -> Result<Json, string>)
    requires ToolBase.WellFormed(tools)
    requires ToolResultsLinked(history)
    ensures ToolResultsLinked(RunLoop(tools, history, i, max, provider, parse).history)
    decreases max - i
  {
    if i < max {
      match provider(i, IterationRequest(tools, history))
      case ProviderFailed(m) =>
      case Reply(response) =>
        var h1 := history + [response.Message()];
        assert ToolResultsLinked(h1) by {
          forall k | 0 <= k < |h1| && h1[k].Tool?
            ensures exists j :: 0 <= j < k && Issues(h1[j], h1[k].toolCallId)
          {
            var j :| 0 <= j < k && Issues(history[j], history[k].toolCallId);
            assert h1[j] == history[j];
          }
        }
        if HasToolCalls(response) {
          PhaseKeepsLinked(tools, history, response, parse);
          var phase := ToolMessages(tools, response.toolCalls.value, parse);
          if phase.failure.None? {
            RunKeepsLinked(tools, h1 + phase.messages, i + 1, max, provider, parse);
          }
        }
    }
  }

  /** `setSystemPrompt`: replace a leading system message, or put one in front. */
  function WithSystemPrompt(h: seq<Message>, prompt: string): (r: seq<Message>)
    ensures |r| > 0 && r[0] == System(prompt)
    ensures |h| <= |r| <= |h| + 1
    ensures if h != [] && h[0].System? then r[1..] == h[1..] && |r| == |h| else r[1..] == h
  {
    if |h| > 0 && h[0].System? then h[0 := System(prompt)] else [System(prompt)] + h
  }

  /** Setting the prompt twice leaves one system message, with the later prompt. */
  lemma SystemPromptTwice(h: seq<Message>, p1: string, p2: string)
    ensures WithSystemPrompt(WithSystemPrompt(h, p1), p2) == WithSystemPrompt(h, p2)
  {
  }

  /** Setting the prompt keeps every `tool` message answering an earlier assistant call. */
  lemma SystemPromptKeepsLinked(h: seq<Message>, prompt: string)
    requires ToolResultsLinked(h)
    ensures ToolResultsLinked(WithSystemPrompt(h, prompt))
  {
    var r := WithSystemPrompt(h, prompt);
    var d := |r| - |h|;
    forall k | 0 <= k < |r| && r[k].Tool?
      ensures exists j :: 0 <= j < k && Issues(r[j], r[k].toolCallId)
    {
      assert r[k] == h[k - d];
      var j :| 0 <= j < k - d && Issues(h[j], h[k - d].toolCallId);
      assert h[j].Assistant?;
      assert r[j + d] == h[j];
    }
  }

  /** The j-th call of a phase that got that far: a missing tool stops the
      phase there with its error; otherwise its message is the j-th. */
  lemma PhaseStep(tools: ToolBase.ToolMap, calls: seq<ToolCall>, parse: string -> Result<Json, string>, j: nat)
    requires j < |calls| && j <= |ToolMessages(tools, calls, parse).messages|
    ensures var phase := ToolMessages(tools, calls, parse);
            var result := ToolBase.ExecuteCall(tools, calls[j], None, parse);
            && (result.Err? ==> j == |phase.messages| && phase.failure == Some(ToolNotFound(result.error.name)))
            && (result.Ok? ==> j < |phase.messages| && phase.messages[j] == ResultMessage(calls[j], result.value))
  {
  }

  /** A phase that ran through every call reports no failure. */
  lemma PhaseComplete(tools: ToolBase.ToolMap, calls: seq<ToolCall>, parse: string -> Result<Json, string>)
    requires |calls| <= |ToolMessages(tools, calls, parse).messages|
    ensures ToolMessages(tools, calls, parse).failure.None?
    ensures ToolMessages(tools, calls, parse).messages[..|calls|] == ToolMessages(tools, calls, parse).messages
  {
  }

  /** Regrouping appends, given to the solver as one fact for the history loop. */
  lemma SeqAssoc(a: seq<Message>, b: seq<Message>, c: seq<Message>)
    ensures (a + b) + c == a + (b + c)
  {
  }

  class Agent {
    const registry: ToolBase.ToolRegistry
    const provider: (nat, ChatRequest) -> ProviderReply
    var messages: seq<Message>
    const maxIterations: nat

    constructor(provider: (nat, ChatRequest) -> ProviderReply, registry: ToolBase.ToolRegistry)
      ensures this.provider == provider && this.registry == registry
      ensures messages == [] && maxIterations == MaxIterations
    {
      this.provider := provider;
      this.registry := registry;
      messages := [];
      maxIterations := MaxIterations;
    }

    /** `run`: the new history and the result are those of `RunSpec`. */
    method Run(userInput: string, parse: string -> Result<Json, string>) returns (r: Result<string, AgentError>)
      requires registry.Valid()
      modifies this
      ensures var t := RunSpec(registry.tools, old(messages), userInput, maxIterations, provider, parse);
              messages == t.history && r == t.outcome
    {
      ghost var tools := registry.tools;
      ghost var spec := RunSpec(tools, messages, userInput, maxIterations, provider, parse);
      messages := messages + [User(userInput)];
      var i := 0;
      while i < maxIterations
        invariant i <= maxIterations
        invariant RunLoop(tools, messages, i, maxIterations, provider, parse) == spec
      {
        var reply := provider(i, ChatRequest(messages, Some(registry.GetDefinitions()), None, None, None));
        assert reply == provider(i, IterationRequest(tools, messages));
        if reply.ProviderFailed? {
          return Err(ProviderError(reply.message));
        }
        var response := reply.response;
        messages := messages + [response.Message()];
        if response.toolCalls.None? || |response.toolCalls.value| == 0 {
          return Ok(response.content);
        }
        var failure := ExecuteToolCalls(response.toolCalls.value, parse);
        if failure.Some? {
          return Err(failure.value);
        }
        i := i + 1;
      }
      r := Err(MaxIterationsReached(maxIterations));
    }

    /** The inner loop of `run`: each call dispatched in order through the
        registry, its `tool` message appended, until a tool is missing. */
    method ExecuteToolCalls(calls: seq<ToolCall>, parse: string -> Result<Json, string>) returns (failure: Option<AgentError>)
      requires registry.Valid()
      modifies this
      ensures var phase := ToolMessages(registry.tools, calls, parse);
              messages == old(messages) + phase.messages && failure == phase.failure
    {
      ghost var h1 := messages;
      ghost var tools := registry.tools;
      ghost var phase := ToolMessages(tools, calls, parse);
      for j := 0 to |calls|
        invariant registry.tools == tools
        invariant j <= |phase.messages|
        invariant messages == h1 + phase.messages[..j]
      {
        var result := registry.Execute(calls[j], None, parse);
        PhaseStep(tools, calls, parse, j);
        if result.Err? {
          assert phase.messages[..j] == phase.messages;
          return Some(ToolNotFound(result.error.name));
        }
        assert phase.messages[..j + 1] == phase.messages[..j] + [phase.messages[j]];
        assert messages + [ResultMessage(calls[j], result.value)] == h1 + phase.messages[..j + 1] by {
          SeqAssoc(h1, phase.messages[..j], [phase.messages[j]]);
        }
        messages := messages + [ResultMessage(calls[j], result.value)];
      }
      PhaseComplete(tools, calls, parse);
      failure := None;
    }

    /** `clearHistory`. */
    method ClearHistory()
      modifies this
      ensures messages == []
    {
      messages := [];
    }

    /** `getHistory`: a copy equal to the history; nothing changes. */
    method GetHistory() returns (h: seq<Message>)
      ensures h == messages
    {
      h := messages;
    }

    /** `setSystemPrompt`. */
    method SetSystemPrompt(prompt: string)
      modifies this
      ensures messages == WithSystemPrompt(old(messages), prompt)
    {
      if |messages| > 0 && messages[0].System? {
        messages := messages[0 := System(prompt)];
      } else {
        messages := [System(prompt)] + messages;
      }
    }
  }
}
