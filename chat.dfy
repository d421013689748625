/**
 * The conversation store and the tool-calling loop of the program's `main`.
 *
 * The chat-completion gateway, the JSON decoding of tool arguments and the
 * weather provider are oracles (`Oracles`): pure functions the caller
 * supplies. The gateway is a function of the whole history it is sent, so
 * any sequence of replies can be expressed by it (every call sees a longer
 * history than the call before).
 */
module Chat {
  import opened Wrappers
  import Weather

  const RoleSystem := "system"
  const RoleUser := "user"
  const RoleAssistant := "assistant"
  const RoleTool := "tool"

  /** The bound on tool-calling rounds in `main`. */
  const MaxLoops := 5

  /** The single prompt `main` sends. */
  const Prompt := "What's the weather in Shenzhen? Is it suitable for outdoor activities?"

  datatype FunctionCall = FunctionCall(name: string, arguments: string)

  /** A tool invocation requested by the model; `arguments` is JSON text. */
  datatype ToolCall = ToolCall(id: string, func: FunctionCall)

  /**
   * A chat message. `toolCalls` is `None` for a nil slice and `Some(calls)`
   * for a slice that is present, possibly empty.
   */
  datatype Message = Message(
    role: string,
    content: string,
    toolCalls: Option<seq<ToolCall>>,
    name: string,
    toolCallId: string)

  /** The zero message the gateway returns when its request fails. */
  const EmptyMessage := Message("", "", None, "", "")

  /** The conversation store, an append-only list of messages. */
  class ChatMessages {
    var messages: seq<Message>

    /** The store as `init` leaves it: made empty, then cleared. */
    constructor ()
      ensures messages == []
    {
      messages := [];
    }

    method Clear()
      modifies this
      ensures messages == []
    {
      messages := [];
    }

    /** Appends a message with the given role, content and tool calls. */
    method AppendMessage(role: string, msg: string, toolCalls: Option<seq<ToolCall>>)
      modifies this
      ensures |messages| == |old(messages)| + 1
      ensures messages == old(messages) + [Message(role, msg, toolCalls, "", "")]
    {
      messages := messages + [Message(role, msg, toolCalls, "", "")];
    }

    /** A copy of the history in new storage: writing to it leaves the store alone. */
    method GetMessages() returns (ret: array<Message>)
      ensures fresh(ret)
      ensures ret[..] == messages
    {
      ret := new Message[|messages|](_ => EmptyMessage);
      for i := 0 to |messages|
        invariant ret[..i] == messages[..i]
      {
        ret[i] := messages[i];
      }
    }

    /** Appends a tool message answering the call `callId` of tool `name`. */
    method AddTool(msg: string, name: string, callId: string)
      modifies this
      ensures |messages| == |old(messages)| + 1
      ensures messages == old(messages) + [Message(RoleTool, msg, None, name, callId)]
    {
      messages := messages + [Message(RoleTool, msg, None, name, callId)];
    }
  }

  /** What the loop cannot see into. */
  datatype Oracles = Oracles(
    /** One chat-completion request with the weather tool offered. */
    gateway: seq<Message> -> Result<Message, string>,
    /** JSON decoding of a call's arguments into the tool's parameters. */
    decode: string -> Result<Weather.WeatherParams, string>,
    /** The weather provider: HTTP request, status check and decoding. */
    fetch: Weather.Values -> Result<Weather.WeatherData, string>)

  /** How a run ends: the final answer, or one of the fatal stops. */
  datatype Outcome =
    | Final(content: string)
    | DecodeFailed(error: string)
    | ToolFailed(error: string)
    | IndexPanic

  /** ChatWithTools: the model's next message, or the empty message on failure. */
  function ChatWithTools(gateway: seq<Message> -> Result<Message, string>, history: seq<Message>): (m: Message)
    ensures gateway(history).Failure? ==> m.toolCalls.None? && m.content == ""
  {
    match gateway(history)
    case Success(reply) => reply
    case Failure(_) => EmptyMessage
  }

  function UserMessage(prompt: string): Message {
    Message(RoleUser, prompt, None, "", "")
  }

  /** The assistant message the loop stores for a reply. */
  function AssistantEcho(reply: Message): Message {
    Message(RoleAssistant, reply.content, reply.toolCalls, "", "")
  }

  /** The tool message the loop stores for a call and its result. */
  function ToolReply(call: ToolCall, result: string): Message {
    Message(RoleTool, result, None, call.func.name, call.id)
  }

  /**
   * Decodes a call's arguments and runs the tool whose name matches exactly;
   * an unknown name yields the empty result. Failures are fatal outcomes.
   */
  function Dispatch(o: Oracles, call: ToolCall): (r: Result<string, Outcome>)
    ensures r.Failure? ==> !r.error.Final?
    ensures o.decode(call.func.arguments).Failure? ==> r == Failure(DecodeFailed(o.decode(call.func.arguments).error))
    ensures o.decode(call.func.arguments).Success? && call.func.name != Weather.ToolName ==> r == Success("")
    ensures r.Success? && call.func.name == Weather.ToolName ==> Weather.StartsWith(r.value, Weather.Header)
    ensures var d := o.decode(call.func.arguments);
      d.Success? && call.func.name == Weather.ToolName ==>
        var w := Weather.WeatherResult(d.value, o.fetch);
        && (w.Failure? ==> r == Failure(ToolFailed(w.error)))
        && (w.Success? ==> r == Success(w.value))
  {
    match o.decode(call.func.arguments)
    case Failure(e) => Failure(DecodeFailed(e))
    case Success(args) =>
      if call.func.name == Weather.ToolName then
        match Weather.WeatherResult(args, o.fetch)
        case Failure(e) => Failure(ToolFailed(e))
        case Success(report) => Success(report)
      else Success("")
  }

  /** A tool message answers the first call of the assistant message before it. */
  predicate Paired(assistant: Message, tool: Message) {
    && assistant.role == RoleAssistant
    && assistant.toolCalls.Some?
    && |assistant.toolCalls.value| > 0
    && tool.role == RoleTool
    && tool.name == assistant.toolCalls.value[0].func.name
    && tool.toolCallId == assistant.toolCalls.value[0].id
  }

  datatype StepResult =
    | Stop(outcome: Outcome)
    | Next(history: seq<Message>, response: Message)

  /**
   * One turn of the loop: stop on a reply without tool calls or at the bound;
   * otherwise run the first call and append the assistant and tool messages,
   * then ask the model again.
   */
  function Step(o: Oracles, maxLoops: nat, history: seq<Message>, response: Message, loopCount: nat): (s: StepResult)
    ensures (s.Stop? && s.outcome.Final?) <==> (response.toolCalls.None? || loopCount >= maxLoops)
    ensures s.Stop? && s.outcome.Final? ==> s.outcome.content == response.content
    ensures s.Next? ==> loopCount < maxLoops
    ensures s.Next? ==>
      && |s.history| == |history| + 2
      && s.history[..|history|] == history
      && s.history[|history|] == AssistantEcho(response)
      && Paired(s.history[|history|], s.history[|history| + 1])
      && s.response == ChatWithTools(o.gateway, s.history)
  {
    if response.toolCalls.None? || loopCount >= maxLoops then
      Stop(Final(response.content))
    else if |response.toolCalls.value| == 0 then
      Stop(IndexPanic)
    else
      var call := response.toolCalls.value[0];
      match Dispatch(o, call)
      case Failure(fatal) => Stop(fatal)
      case Success(result) =>
        var next := history + [AssistantEcho(response), ToolReply(call, result)];
        Next(next, ChatWithTools(o.gateway, next))
  }

  /** A run: how it ended, the history it left, the gateway calls it made. */
  datatype Trace = Trace(outcome: Outcome, history: seq<Message>, calls: nat)

  /**
   * The loop from a given state until a step stops. It makes at most one
   * gateway call per round left under the bound, whatever the oracles answer.
   */
  function Loop(o: Oracles, maxLoops: nat, history: seq<Message>, response: Message, loopCount: nat): (t: Trace)
    ensures loopCount <= maxLoops ==> t.calls <= maxLoops - loopCount
    ensures loopCount >= maxLoops ==> t.calls == 0
    decreases maxLoops - loopCount
  {
    match Step(o, maxLoops, history, response, loopCount)
    case Stop(outcome) => Trace(outcome, history, 0)
    case Next(next, reply) =>
      var rest := Loop(o, maxLoops, next, reply, loopCount + 1);
      Trace(rest.outcome, rest.history, rest.calls + 1)
  }

  /**
   * `main`: seed the history with the prompt, ask the model, run the loop.
   * A run terminates after at least one and at most `maxLoops + 1` gateway
   * calls, whatever the oracles answer.
   */
  function Session(o: Oracles, maxLoops: nat, history: seq<Message>, prompt: string): (t: Trace)
    ensures 1 <= t.calls <= maxLoops + 1
  {
    var seeded := history + [UserMessage(prompt)];
    var rest := Loop(o, maxLoops, seeded, ChatWithTools(o.gateway, seeded), 0);
    Trace(rest.outcome, rest.history, rest.calls + 1)
  }

  /**
   * The program's `main` over a fresh store: the loop exits at its head when
   * the reply has no tool calls or the bound is reached; a fatal stop ends
   * the run at once.
   */
  method RunMain(o: Oracles) returns (outcome: Outcome, store: ChatMessages, ghost calls: nat)
    ensures outcome == Session(o, MaxLoops, [], Prompt).outcome
    ensures store.messages == Session(o, MaxLoops, [], Prompt).history
    ensures calls == Session(o, MaxLoops, [], Prompt).calls
  {
    store := new ChatMessages();
    store.AppendMessage(RoleUser, Prompt, None);
    assert store.messages == [] + [UserMessage(Prompt)];
    var snapshot := store.GetMessages();
    var response := ChatWithTools(o.gateway, snapshot[..]);
    calls := 1;
    var toolCalls := response.toolCalls;
    var maxLoops := MaxLoops;
    var loopCount := 0;
    ghost var goal := Loop(o, maxLoops, store.messages, response, 0);
    var fatal: Option<Outcome> := None;
    while fatal.None? && toolCalls.Some? && loopCount < maxLoops
      invariant loopCount <= maxLoops
      invariant toolCalls == response.toolCalls
      invariant fatal.None? ==>
        && Loop(o, maxLoops, store.messages, response, loopCount).outcome == goal.outcome
        && Loop(o, maxLoops, store.messages, response, loopCount).history == goal.history
      invariant fatal.None? ==> calls + Loop(o, maxLoops, store.messages, response, loopCount).calls == goal.calls + 1
      invariant fatal.Some? ==> fatal.value == goal.outcome && store.messages == goal.history
      invariant fatal.Some? ==> calls == goal.calls + 1
      decreases maxLoops - loopCount, if fatal.None? then 1 else 0
    {
      ghost var made;
      ghost var before, asked := store.messages, response;
      ghost var step := Step(o, maxLoops, before, asked, loopCount);
      ghost var t := Loop(o, maxLoops, before, asked, loopCount);
      LoopUnfold(o, maxLoops, before, asked, loopCount);
      fatal, response, made := Turn(store, o, maxLoops, response, loopCount);
      calls := calls + made;
      if fatal.None? {
        assert step.Next? && made == 1;
        ghost var rest := Loop(o, maxLoops, store.messages, response, loopCount + 1);
        assert t.calls == rest.calls + 1;
        toolCalls := response.toolCalls;
        loopCount := loopCount + 1;
      } else {
        assert step.Stop? && made == 0 && t.calls == 0;
      }
    }
    outcome := if fatal.Some? then fatal.value else Final(response.content);
  }

  /**
   * One turn of the loop body, past the exit test: run the first tool call,
   * then append the assistant and tool messages and ask the model again.
   */
  method Turn(store: ChatMessages, o: Oracles, maxLoops: nat, response: Message, loopCount: nat)
    returns (fatal: Option<Outcome>, reply: Message, ghost made: nat)
    requires response.toolCalls.Some? && loopCount < maxLoops
    modifies store
    ensures var s := Step(o, maxLoops, old(store.messages), response, loopCount);
      && (s.Stop? ==> fatal == Some(s.outcome) && store.messages == old(store.messages) && reply == response)
      && (s.Next? ==> fatal.None? && store.messages == s.history && reply == s.response)
      && made == (if s.Next? then 1 else 0)
  {
    var toolCalls := response.toolCalls;
    reply := response;
    made := 0;
    if |toolCalls.value| == 0 {
      return Some(IndexPanic), reply, made;
    }
    var call := toolCalls.value[0];
    var decoded := o.decode(call.func.arguments);
    if decoded.Failure? {
      return Some(DecodeFailed(decoded.error)), reply, made;
    }
    var result := "";
    if call.func.name == Weather.ToolName {
      var weather := Weather.GetWeather(decoded.value, o.fetch);
      if weather.Failure? {
        return Some(ToolFailed(weather.error)), reply, made;
      }
      result := weather.value;
    }
    store.AppendMessage(RoleAssistant, response.content, toolCalls);
    store.AddTool(result, call.func.name, call.id);
    var snapshot := store.GetMessages();
    reply := ChatWithTools(o.gateway, snapshot[..]);
    made := made + 1;
    fatal := None;
  }

  // ---------------------------------------------------------------------
  // Properties of the loop
  // ---------------------------------------------------------------------

  /** One unfolding of the loop: a stop ends it, a step that goes on adds one call. */
  lemma LoopUnfold(o: Oracles, maxLoops: nat, history: seq<Message>, response: Message, loopCount: nat)
    ensures var s := Step(o, maxLoops, history, response, loopCount);
      && (s.Stop? ==> Loop(o, maxLoops, history, response, loopCount) == Trace(s.outcome, history, 0))
      && (s.Next? ==>
            var rest := Loop(o, maxLoops, s.history, s.response, loopCount + 1);
            Loop(o, maxLoops, history, response, loopCount) == Trace(rest.outcome, rest.history, rest.calls + 1))
  {
  }

  /**
   * The two messages a round appends at position `p`: the assistant message
   * echoing the gateway's reply to everything before it, then the tool
   * message answering its first call with the dispatched result.
   */
  predicate RoundAt(o: Oracles, h: seq<Message>, p: nat) {
    && p + 1 < |h|
    && h[p] == AssistantEcho(ChatWithTools(o.gateway, h[..p]))
    && Paired(h[p], h[p + 1])
    && Dispatch(o, h[p].toolCalls.value[0]) == Success(h[p + 1].content)
  }

  /** The loop keeps the history it starts from and appends two messages per call. */
  lemma {:induction false} LoopHistory(o: Oracles, maxLoops: nat, history: seq<Message>, response: Message, loopCount: nat)
    ensures var t := Loop(o, maxLoops, history, response, loopCount);
      && |t.history| == |history| + 2 * t.calls
      && t.history[..|history|] == history
    decreases maxLoops - loopCount
  {
    match Step(o, maxLoops, history, response, loopCount)
    case Stop(_) =>
    case Next(next, reply) =>
      LoopHistory(o, maxLoops, next, reply, loopCount + 1);
      var t := Loop(o, maxLoops, next, reply, loopCount + 1);
      assert t.history[..|history|] == t.history[..|next|][..|history|];
  }

  /** A step that goes on appends a round, and any extension of its history keeps it. */
  lemma RoundOfStep(o: Oracles, maxLoops: nat, history: seq<Message>, loopCount: nat, h: seq<Message>)
    requires Step(o, maxLoops, history, ChatWithTools(o.gateway, history), loopCount).Next?
    requires var next := Step(o, maxLoops, history, ChatWithTools(o.gateway, history), loopCount).history;
      |next| <= |h| && h[..|next|] == next
    ensures RoundAt(o, h, |history|)
  {
    var response := ChatWithTools(o.gateway, history);
    var next := Step(o, maxLoops, history, response, loopCount).history;
    var call := response.toolCalls.value[0];
    assert next == history + [AssistantEcho(response), ToolReply(call, Dispatch(o, call).value)];
    assert h[..|history|] == history by {
      assert h[..|history|] == h[..|next|][..|history|];
    }
    assert h[|history|] == next[|history|] && h[|history| + 1] == next[|history| + 1];
  }

  /** Where round `k` starts in a history whose rounds start at `base`. */
  function RoundStart(base: nat, k: nat): nat {
    base + 2 * k
  }

  /**
   * Every pair the loop appends is a round: an assistant message echoing
   * the gateway's reply to the history before it, then its tool answer.
   */
  lemma {:induction false} LoopRounds(o: Oracles, maxLoops: nat, history: seq<Message>, loopCount: nat)
    ensures var t := Loop(o, maxLoops, history, ChatWithTools(o.gateway, history), loopCount);
      forall k :: 0 <= k < t.calls ==> RoundAt(o, t.history, RoundStart(|history|, k))
    decreases maxLoops - loopCount
  {
    var s := Step(o, maxLoops, history, ChatWithTools(o.gateway, history), loopCount);
    if s.Next? {
      var next := s.history;
      LoopRounds(o, maxLoops, next, loopCount + 1);
      LoopHistory(o, maxLoops, next, s.response, loopCount + 1);
      var rest := Loop(o, maxLoops, next, s.response, loopCount + 1);
      RoundOfStep(o, maxLoops, history, loopCount, rest.history);
      forall k | 0 <= k < rest.calls + 1
        ensures RoundAt(o, rest.history, RoundStart(|history|, k))
      {
        if k > 0 {
          assert RoundStart(|history|, k) == RoundStart(|next|, k - 1);
        }
      }
    }
  }

  /** The loop stops in a state where one more step stops with the same outcome. */
  lemma {:induction false} LoopStops(o: Oracles, maxLoops: nat, history: seq<Message>, loopCount: nat)
    ensures var t := Loop(o, maxLoops, history, ChatWithTools(o.gateway, history), loopCount);
      Step(o, maxLoops, t.history, ChatWithTools(o.gateway, t.history), loopCount + t.calls) == Stop(t.outcome)
    decreases maxLoops - loopCount
  {
    var s := Step(o, maxLoops, history, ChatWithTools(o.gateway, history), loopCount);
    if s.Next? {
      LoopStops(o, maxLoops, s.history, loopCount + 1);
    }
  }

  /**
   * A run seeds the history with the user prompt, then appends one round
   * per gateway call after the first; every tool message answers the call of
   * the assistant message just before it.
   */
  lemma SessionShape(o: Oracles, maxLoops: nat, history: seq<Message>, prompt: string)
    ensures var t := Session(o, maxLoops, history, prompt);
      && |history| + 1 <= |t.history|
      && t.history[..|history| + 1] == history + [UserMessage(prompt)]
      && |t.history| == |history| + 1 + 2 * (t.calls - 1)
      && (forall k :: 0 <= k < t.calls - 1 ==> RoundAt(o, t.history, RoundStart(|history + [UserMessage(prompt)]|, k)))
  {
    var seeded := history + [UserMessage(prompt)];
    var response := ChatWithTools(o.gateway, seeded);
    LoopHistory(o, maxLoops, seeded, response, 0);
    LoopRounds(o, maxLoops, seeded, 0);
  }

  /**
   * The run ends in a final answer exactly when the last reply has no tool
   * calls or the bound is reached; the answer is that reply's content.
   */
  lemma SessionExit(o: Oracles, maxLoops: nat, history: seq<Message>, prompt: string)
    ensures var t := Session(o, maxLoops, history, prompt);
      var last := ChatWithTools(o.gateway, t.history);
      && (t.outcome.Final? <==> last.toolCalls.None? || t.calls - 1 >= maxLoops)
      && (t.outcome.Final? ==> t.outcome.content == last.content)
  {
    var seeded := history + [UserMessage(prompt)];
    LoopStops(o, maxLoops, seeded, 0);
  }

  /** A failed gateway request ends the loop at once with an empty answer. */
  lemma GatewayErrorEndsLoop(o: Oracles, maxLoops: nat, history: seq<Message>, loopCount: nat)
    requires o.gateway(history).Failure?
    ensures Loop(o, maxLoops, history, ChatWithTools(o.gateway, history), loopCount) == Trace(Final(""), history, 0)
  {
  }

  /** Arguments that do not decode stop the run before any append or further call. */
  lemma DecodeFailureHalts(o: Oracles, maxLoops: nat, history: seq<Message>, response: Message, loopCount: nat)
    requires response.toolCalls.Some? && |response.toolCalls.value| > 0 && loopCount < maxLoops
    requires o.decode(response.toolCalls.value[0].func.arguments).Failure?
    ensures Loop(o, maxLoops, history, response, loopCount)
         == Trace(DecodeFailed(o.decode(response.toolCalls.value[0].func.arguments).error), history, 0)
  {
  }

  /**
   * With a non-empty call list below the bound, a step goes on exactly when
   * dispatching the first call succeeds, and otherwise stops with its failure.
   */
  lemma StepFollowsDispatch(o: Oracles, maxLoops: nat, history: seq<Message>, response: Message, loopCount: nat)
    requires response.toolCalls.Some? && |response.toolCalls.value| > 0 && loopCount < maxLoops
    ensures var s := Step(o, maxLoops, history, response, loopCount);
      var d := Dispatch(o, response.toolCalls.value[0]);
      && (s.Next? <==> d.Success?)
      && (d.Failure? ==> s == Stop(d.error))
  {
  }

  /** A failing weather tool stops the run with its error, before any append or further gateway call. */
  lemma ToolFailureHalts(o: Oracles, maxLoops: nat, history: seq<Message>, response: Message, loopCount: nat)
    requires response.toolCalls.Some? && |response.toolCalls.value| > 0 && loopCount < maxLoops
    requires var call := response.toolCalls.value[0];
      && o.decode(call.func.arguments).Success?
      && call.func.name == Weather.ToolName
      && Weather.WeatherResult(o.decode(call.func.arguments).value, o.fetch).Failure?
    ensures var call := response.toolCalls.value[0];
      Loop(o, maxLoops, history, response, loopCount)
      == Trace(ToolFailed(Weather.WeatherResult(o.decode(call.func.arguments).value, o.fetch).error), history, 0)
  {
  }

  /** A present but empty list of tool calls stops the run where `main` indexes it. */
  lemma EmptyToolCallsPanic(o: Oracles, maxLoops: nat, history: seq<Message>, response: Message, loopCount: nat)
    requires response.toolCalls == Some([]) && loopCount < maxLoops
    ensures Loop(o, maxLoops, history, response, loopCount) == Trace(IndexPanic, history, 0)
  {
  }

  /**
   * A call to an unknown tool is still answered: the round appends the
   * assistant message and a tool message with empty content.
   */
  lemma UnknownToolAnsweredEmpty(o: Oracles, maxLoops: nat, history: seq<Message>, response: Message, loopCount: nat)
    requires response.toolCalls.Some? && |response.toolCalls.value| > 0 && loopCount < maxLoops
    requires o.decode(response.toolCalls.value[0].func.arguments).Success?
    requires response.toolCalls.value[0].func.name != Weather.ToolName
    ensures var call := response.toolCalls.value[0];
      Step(o, maxLoops, history, response, loopCount).Next?
      && Step(o, maxLoops, history, response, loopCount).history
         == history + [AssistantEcho(response), Message(RoleTool, "", None, call.func.name, call.id)]
  {
  }

  /**
   * A model that always asks for a tool that always succeeds is cut off by
   * the bound: the loop makes exactly the rounds left and ends with the
   * content of the last reply.
   */
  lemma {:induction false} PersistentToolCallsHitBound(o: Oracles, maxLoops: nat, reply: Message, history: seq<Message>, loopCount: nat)
    requires forall h :: o.gateway(h) == Success(reply)
    requires reply.toolCalls.Some? && |reply.toolCalls.value| > 0
    requires Dispatch(o, reply.toolCalls.value[0]).Success?
    requires loopCount <= maxLoops
    ensures Loop(o, maxLoops, history, reply, loopCount).calls == maxLoops - loopCount
    ensures Loop(o, maxLoops, history, reply, loopCount).outcome == Final(reply.content)
    decreases maxLoops - loopCount
  {
    if loopCount < maxLoops {
      match Step(o, maxLoops, history, reply, loopCount)
      case Next(next, r) =>
        assert r == reply;
        PersistentToolCallsHitBound(o, maxLoops, reply, next, loopCount + 1);
    }
  }

  /** A first reply without tool calls ends the run after one gateway call. */
  lemma DirectAnswer(o: Oracles, maxLoops: nat, history: seq<Message>, prompt: string)
    requires ChatWithTools(o.gateway, history + [UserMessage(prompt)]).toolCalls.None?
    ensures Session(o, maxLoops, history, prompt)
         == Trace(Final(ChatWithTools(o.gateway, history + [UserMessage(prompt)]).content), history + [UserMessage(prompt)], 1)
  {
  }
}
