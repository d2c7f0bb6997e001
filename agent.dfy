/** The tool-calling conversation loop of agent.ts: `createChat`/`chat`, which
    keep one message history across calls, and the one-shot `runAgent`.
    The chat completion endpoint, `JSON.parse` and the tool handlers are
    parameters: the endpoint is a function from the conversation it is sent
    to its reply, decoding is a partial function, and the handlers are a map
    from tool name to a function that may fail. */
module Agent {
  import opened Wrappers
  import opened Text
  import Tools
  import opened LlmClient

  // ---------------------------------------------------------------------------
  // Messages
  // ---------------------------------------------------------------------------

  datatype Role = System | User | Assistant | ToolRole

  /** `{ id, type: "function", function: { name, arguments } }`; `arguments`
      is JSON text. */
  datatype ToolCall = ToolCall(id: string, name: string, arguments: string)

  /** `content` is `string | null`; `toolCalls` is the optional `tool_calls`
      of an assistant turn; `toolCallId` links a tool turn to its call. */
  datatype Message = Message(
    role: Role,
    content: Option<string>,
    toolCalls: Option<seq<ToolCall>>,
    toolCallId: Option<string>)

  function SystemMessage(prompt: string): Message
  {
    Message(System, Some(prompt), None, None)
  }

  function UserMessage(text: string): Message
  {
    Message(User, Some(text), None, None)
  }

  function ToolMessage(id: string, content: string): Message
  {
    Message(ToolRole, Some(content), None, Some(id))
  }

  /** `tool_calls && tool_calls.length > 0`. */
  predicate HasToolCalls(m: Message)
  {
    m.toolCalls.Some? && |m.toolCalls.value| > 0
  }

  const NoContentReply := "No response"

  /** `content || "No response"`: null and the empty string both fall back. */
  function FinalAnswer(m: Message): (answer: string)
    ensures answer != ""
    ensures m.content.Some? && m.content.value != "" ==> answer == m.content.value
    ensures m.content.None? || m.content.value == "" ==> answer == NoContentReply
  {
    if m.content.Some? && m.content.value != "" then m.content.value else NoContentReply
  }

  // ---------------------------------------------------------------------------
  // The environment
  // ---------------------------------------------------------------------------

  /** What `callLLM` yields: the decoded response, whose `choices` are given
      by their messages, or a non-ok status with the body text. */
  datatype LlmReply =
    | Answered(choices: seq<Message>)
    | HttpFailure(status: nat, body: string)

  /** The endpoint, the argument decoder and the handler registry. */
  datatype Env = Env(
    model: seq<Message> -> LlmReply,
    decode: string -> Option<Tools.Json>,
    handlers: map<string, Tools.Handler>)

  /** Why a call ends with an exception instead of a reply: a non-ok
      response, an empty `choices` list ("No response from LLM"), arguments
      `JSON.parse` rejects, a TypeError from reading the arguments for the
      console line, or a handler whose promise rejects. None of these is
      caught by the loop. */
  datatype ChatError =
    | ApiError(message: string)
    | NoChoice
    | BadArguments(arguments: string)
    | ArgumentTypeError(name: string)
    | ToolFailed(name: string, message: string)

  /** What tells `chat` and `runAgent` apart: the reply when the iterations
      run out, and whether the arguments of `think` and `web_search` calls
      are read for the console line (`chat`) or only passed to
      `JSON.stringify`, which cannot throw on a parsed value (`runAgent`). */
  datatype Flavour = Flavour(gaveUp: string, logsArguments: bool)

  const ChatGaveUpReply := "Reached max iterations."
  const AgentGaveUpReply := "Agent reached maximum iterations without a final answer."
  const ChatFlavour := Flavour(ChatGaveUpReply, true)
  const AgentFlavour := Flavour(AgentGaveUpReply, false)
  const DefaultChatIterations := 25
  const DefaultAgentIterations := 10

  // ---------------------------------------------------------------------------
  // Running the tool calls of one assistant turn
  // ---------------------------------------------------------------------------

  function UnknownToolReply(name: string): string
  {
    "Error: Unknown tool \"" + name + "\""
  }

  /** `chat`'s console line prints `(args.thought || "").slice(0, 100)` for
      `think` and `args.query` for `web_search`; it throws where reading or
      printing those does. */
  predicate LogThrows(name: string, args: Tools.Json)
  {
    if name == "think" then
      match Tools.Arg(args, "thought")
      case Err(_) => true
      case Ok(thought) => Tools.Truthy(thought) && !Tools.SliceShows(thought, 100)
    else if name == "web_search" then
      match Tools.Arg(args, "query")
      case Err(_) => true
      case Ok(query) => !Tools.Printable(query)
    else false
  }

  /** The content of the tool turn for one call: arguments are decoded first,
      then (in `chat`) read for the console, then the handler is looked up;
      an unknown name is reported to the model, every failure escapes. */
  function CallTool(env: Env, flavour: Flavour, call: ToolCall): Result<string, ChatError>
  {
    match env.decode(call.arguments)
    case None => Err(BadArguments(call.arguments))
    case Some(args) =>
      if flavour.logsArguments && LogThrows(call.name, args) then Err(ArgumentTypeError(call.name))
      else if call.name !in env.handlers then Ok(UnknownToolReply(call.name))
      else
        match env.handlers[call.name](args)
        case Ok(result) => Ok(result)
        case Err(message) => Err(ToolFailed(call.name, message))
  }

  /** The tool turns pushed for `calls`, in order, and the error that stopped
      them, if any. */
  datatype Dispatch = Dispatch(pushed: seq<Message>, error: Option<ChatError>)

  function RunToolCalls(env: Env, flavour: Flavour, calls: seq<ToolCall>): Dispatch
    decreases |calls|
  {
    if calls == [] then Dispatch([], None)
    else
      match CallTool(env, flavour, calls[0])
      case Err(e) => Dispatch([], Some(e))
      case Ok(content) =>
        var rest := RunToolCalls(env, flavour, calls[1..]);
        Dispatch([ToolMessage(calls[0].id, content)] + rest.pushed, rest.error)
  }

  // ---------------------------------------------------------------------------
  // The loop
  // ---------------------------------------------------------------------------

  /** The reply or error, the history afterwards, and the conversations sent
      to the endpoint, one per model call, in order. */
  datatype Outcome = Outcome(reply: Result<string, ChatError>, messages: seq<Message>, sent: seq<seq<Message>>)

  /** The outcome of the loop from history `msgs` with `fuel` iterations
      left; `flavour.gaveUp` is returned when they run out. */
  function Loop(env: Env, msgs: seq<Message>, fuel: nat, flavour: Flavour): Outcome
    decreases fuel
  {
    if fuel == 0 then Outcome(Ok(flavour.gaveUp), msgs, [])
    else
      match env.model(msgs)
      case HttpFailure(status, body) => Outcome(Err(ApiError(ApiErrorMessage(status, body))), msgs, [msgs])
      case Answered(choices) =>
        if choices == [] then Outcome(Err(NoChoice), msgs, [msgs])
        else
          var m := choices[0];
          if !HasToolCalls(m) then Outcome(Ok(FinalAnswer(m)), msgs + [m], [msgs])
          else
            var d := RunToolCalls(env, flavour, m.toolCalls.value);
            if d.error.Some? then Outcome(Err(d.error.value), msgs + [m] + d.pushed, [msgs])
            else
              var o := Loop(env, msgs + [m] + d.pushed, fuel - 1, flavour);
              Outcome(o.reply, o.messages, [msgs] + o.sent)
  }

  /** `o` preceded by the model calls in `sent`. */
  function After(sent: seq<seq<Message>>, o: Outcome): Outcome
  {
    Outcome(o.reply, o.messages, sent + o.sent)
  }

  /** `d` with `pushed` put in front of its tool turns. */
  function Prepend(pushed: seq<Message>, d: Dispatch): Dispatch
  {
    Dispatch(pushed + d.pushed, d.error)
  }

  /** One tool round, as the loop takes it. */
  lemma LoopToolRound(env: Env, msgs: seq<Message>, fuel: nat, flavour: Flavour, m: Message, pushed: seq<Message>)
    requires fuel > 0 && env.model(msgs).Answered? && env.model(msgs).choices != []
    requires m == env.model(msgs).choices[0] && HasToolCalls(m)
    requires RunToolCalls(env, flavour, m.toolCalls.value) == Dispatch(pushed, None)
    ensures Loop(env, msgs, fuel, flavour) == After([msgs], Loop(env, msgs + [m] + pushed, fuel - 1, flavour))
  {
  }

  lemma AfterAfter(a: seq<seq<Message>>, b: seq<seq<Message>>, o: Outcome)
    ensures After(a, After(b, o)) == After(a + b, o)
  {
  }

  /** The inner loop over the tool calls of an assistant turn: each call
      appends its tool turn to `messages`, until one fails. */
  method DispatchToolCalls(env: Env, flavour: Flavour, calls: seq<ToolCall>, messages: seq<Message>)
    returns (messages': seq<Message>, error: Option<ChatError>)
    ensures messages <= messages'
    ensures RunToolCalls(env, flavour, calls) == Dispatch(messages'[|messages|..], error)
  {
    messages' := messages;
    var j := 0;
    while j < |calls|
      invariant j <= |calls|
      invariant messages <= messages'
      invariant RunToolCalls(env, flavour, calls) == Prepend(messages'[|messages|..], RunToolCalls(env, flavour, calls[j..]))
    {
      var call := calls[j];
      assert calls[j..][0] == call && calls[j..][1..] == calls[j + 1..];
      var args := env.decode(call.arguments);
      if args.None? {
        return messages', Some(BadArguments(call.arguments));
      }
      if flavour.logsArguments && LogThrows(call.name, args.value) {
        return messages', Some(ArgumentTypeError(call.name));
      }
      var content;
      if call.name !in env.handlers {
        content := UnknownToolReply(call.name);
      } else {
        var result := env.handlers[call.name](args.value);
        if result.Err? {
          return messages', Some(ToolFailed(call.name, result.error));
        }
        content := result.value;
      }
      assert CallTool(env, flavour, call) == Ok(content);
      messages' := messages' + [ToolMessage(call.id, content)];
      j := j + 1;
    }
    assert calls[j..] == [];
    error := None;
  }

  /** The loop of `chat` and `runAgent`: at most `maxIterations` model calls;
      each assistant turn is appended, then its tool turns one by one. */
  method Converse(env: Env, start: seq<Message>, maxIterations: nat, flavour: Flavour)
    returns (reply: Result<string, ChatError>, messages: seq<Message>, ghost sent: seq<seq<Message>>)
    ensures reply == Loop(env, start, maxIterations, flavour).reply
    ensures messages == Loop(env, start, maxIterations, flavour).messages
    ensures sent == Loop(env, start, maxIterations, flavour).sent
  {
    messages := start;
    sent := [];
    var i := 0;
    while i < maxIterations
      invariant i <= maxIterations
      invariant Loop(env, start, maxIterations, flavour) == After(sent, Loop(env, messages, maxIterations - i, flavour))
    {
      var response := env.model(messages);
      ghost var before := messages;
      ghost var sentBefore := sent;
      sent := sent + [messages];
      if response.HttpFailure? {
        reply := Err(ApiError(ApiErrorMessage(response.status, response.body)));
        return;
      }
      if |response.choices| == 0 {
        reply := Err(NoChoice);
        return;
      }
      var m := response.choices[0];
      messages := messages + [m];
      if !HasToolCalls(m) {
        reply := Ok(FinalAnswer(m));
        return;
      }
      ghost var base := messages;
      var error;
      messages, error := DispatchToolCalls(env, flavour, m.toolCalls.value, messages);
      if error.Some? {
        reply := Err(error.value);
        assert messages == base + messages[|base|..];
        return;
      }
      assert messages == base + messages[|base|..];
      LoopToolRound(env, before, maxIterations - i, flavour, m, messages[|base|..]);
      AfterAfter(sentBefore, [before], Loop(env, messages, maxIterations - i - 1, flavour));
      i := i + 1;
    }
    reply := Ok(flavour.gaveUp);
  }

  // ---------------------------------------------------------------------------
  // What the loop guarantees
  // ---------------------------------------------------------------------------

  /** The tool turns answer the calls in order, one per call and each linked
      to its call's id, until the first call that fails; that failure is the
      error. */
  lemma {:induction false} RunToolCallsShape(env: Env, flavour: Flavour, calls: seq<ToolCall>)
    ensures var d := RunToolCalls(env, flavour, calls);
            |d.pushed| <= |calls|
            && (forall k :: 0 <= k < |d.pushed| ==>
                  CallTool(env, flavour, calls[k]).Ok?
                  && d.pushed[k] == ToolMessage(calls[k].id, CallTool(env, flavour, calls[k]).value))
            && (d.error.None? <==> |d.pushed| == |calls|)
            && (d.error.Some? ==> CallTool(env, flavour, calls[|d.pushed|]) == Err(d.error.value))
    decreases |calls|
  {
    if calls != [] && CallTool(env, flavour, calls[0]).Ok? {
      RunToolCallsShape(env, flavour, calls[1..]);
      var d := RunToolCalls(env, flavour, calls);
      var rest := RunToolCalls(env, flavour, calls[1..]);
      assert d.pushed == [ToolMessage(calls[0].id, CallTool(env, flavour, calls[0]).value)] + rest.pushed;
      forall k | 1 <= k < |d.pushed|
        ensures CallTool(env, flavour, calls[k]).Ok? && d.pushed[k] == ToolMessage(calls[k].id, CallTool(env, flavour, calls[k]).value)
      {
        assert d.pushed[k] == rest.pushed[k - 1] && calls[1..][k - 1] == calls[k];
      }
      if d.error.Some? {
        assert calls[1..][|rest.pushed|] == calls[|d.pushed|];
      }
    }
  }

  /** A call naming no registered tool, with arguments that decode, gets the
      "Unknown tool" reply and processing goes on, even with `null`
      arguments; only `chat`'s console line for `think` and `web_search`
      can throw first. Arguments that do not decode escape, whatever the
      name. */
  lemma UnknownToolCall(env: Env, flavour: Flavour, call: ToolCall)
    requires call.name !in env.handlers
    ensures env.decode(call.arguments).Some? && (!flavour.logsArguments || (call.name != "think" && call.name != "web_search")) ==>
              CallTool(env, flavour, call) == Ok("Error: Unknown tool \"" + call.name + "\"")
    ensures env.decode(call.arguments) == Some(Tools.JNull) && flavour.logsArguments && (call.name == "think" || call.name == "web_search") ==>
              CallTool(env, flavour, call) == Err(ArgumentTypeError(call.name))
    ensures env.decode(call.arguments).None? ==> CallTool(env, flavour, call) == Err(BadArguments(call.arguments))
  {
  }

  /** With the registry of tools.ts, a `think` call answers "Strategy noted.
      Continue with your plan." exactly when its arguments decode to anything
      but `null` whose `thought`, if present, is a string or an array whose
      first 80 elements print, and, in `chat`, when the console line does
      not throw first (a truthy thought whose first 100 elements do not
      print); in every other case the call throws. */
  lemma ThinkCall(env: Env, flavour: Flavour, call: ToolCall,
                  apiKey: Option<string>, service: Tools.SearchService, read: Tools.FileReader)
    requires env.handlers == Tools.Registry(apiKey, service, read) && call.name == "think"
    ensures CallTool(env, flavour, call).Ok? <==>
              env.decode(call.arguments).Some? && Tools.ThoughtReadable(env.decode(call.arguments).value)
              && (flavour.logsArguments ==> !LogThrows("think", env.decode(call.arguments).value))
    ensures CallTool(env, flavour, call).Ok? ==> CallTool(env, flavour, call).value == "Strategy noted. Continue with your plan."
  {
    assert "think" in env.handlers && env.handlers["think"] == Tools.Think;
  }

  /** In `chat`, a `think` call whose thought prints in full gets past the
      console line and the handler: the fixed reply. */
  lemma ChatThinkPrints(env: Env, call: ToolCall, apiKey: Option<string>, service: Tools.SearchService,
                        read: Tools.FileReader, thought: Tools.Json)
    requires env.handlers == Tools.Registry(apiKey, service, read) && call.name == "think"
    requires env.decode(call.arguments) == Some(Tools.JObject(map["thought" := thought]))
    requires thought.JString? || (thought.JArray? && Tools.Printable(thought))
    ensures CallTool(env, ChatFlavour, call) == Ok("Strategy noted. Continue with your plan.")
  {
    assert "think" in env.handlers && env.handlers["think"] == Tools.Think;
    if thought.JArray? {
      var items := thought.items;
      if |items| >= 100 {
        Tools.PrintablePrefix(items, 100);
      } else {
        assert items[..|items|] == items;
      }
      Tools.SliceShowsShorter(thought, 80, 100);
    }
  }

  /** The history only grows: the starting history is a prefix of the final
      one, and so is every conversation sent; there are at most `fuel` model
      calls and the first one is sent the starting history. */
  lemma {:induction false} LoopGrows(env: Env, msgs: seq<Message>, fuel: nat, flavour: Flavour)
    ensures var o := Loop(env, msgs, fuel, flavour);
            msgs <= o.messages
            && |o.sent| <= fuel
            && (forall k :: 0 <= k < |o.sent| ==> msgs <= o.sent[k] <= o.messages)
            && (fuel > 0 ==> |o.sent| > 0 && o.sent[0] == msgs)
    decreases fuel
  {
    var o := Loop(env, msgs, fuel, flavour);
    if fuel > 0 {
      var r := env.model(msgs);
      if r.Answered? && r.choices != [] && HasToolCalls(r.choices[0]) {
        var m := r.choices[0];
        var d := RunToolCalls(env, flavour, m.toolCalls.value);
        var next := msgs + [m] + d.pushed;
        if d.error.None? {
          LoopGrows(env, next, fuel - 1, flavour);
          var o' := Loop(env, next, fuel - 1, flavour);
          assert o.sent == [msgs] + o'.sent;
          forall k | 1 <= k < |o.sent| ensures msgs <= o.sent[k] <= o.messages {
            assert o.sent[k] == o'.sent[k - 1];
            assert msgs <= next;
          }
        }
      }
    }
  }

  /** The model's reply to `msgs` asks for tools and every call succeeds. */
  ghost predicate ToolRound(env: Env, flavour: Flavour, msgs: seq<Message>)
  {
    var r := env.model(msgs);
    r.Answered? && r.choices != [] && HasToolCalls(r.choices[0])
    && RunToolCalls(env, flavour, r.choices[0].toolCalls.value).error.None?
  }

  /** The history after a tool round: the assistant turn, then its tool turns. */
  ghost function NextHistory(env: Env, flavour: Flavour, msgs: seq<Message>): seq<Message>
    requires ToolRound(env, flavour, msgs)
  {
    var m := env.model(msgs).choices[0];
    msgs + [m] + RunToolCalls(env, flavour, m.toolCalls.value).pushed
  }

  /** The next `n` rounds from `msgs` are all tool rounds. */
  ghost predicate ToolRounds(env: Env, flavour: Flavour, msgs: seq<Message>, n: nat)
    decreases n
  {
    n == 0 || (ToolRound(env, flavour, msgs) && ToolRounds(env, flavour, NextHistory(env, flavour, msgs), n - 1))
  }

  ghost function HistoryAfter(env: Env, flavour: Flavour, msgs: seq<Message>, n: nat): seq<Message>
    requires ToolRounds(env, flavour, msgs, n)
    decreases n
  {
    if n == 0 then msgs else HistoryAfter(env, flavour, NextHistory(env, flavour, msgs), n - 1)
  }

  /** `n` tool rounds use `n` model calls and leave the loop where the
      history after them, with `n` fewer iterations, would be. */
  lemma {:induction false} LoopAfterRounds(env: Env, msgs: seq<Message>, n: nat, fuel: nat, flavour: Flavour)
    requires ToolRounds(env, flavour, msgs, n) && n <= fuel
    ensures var o := Loop(env, msgs, fuel, flavour);
            var o' := Loop(env, HistoryAfter(env, flavour, msgs, n), fuel - n, flavour);
            o.reply == o'.reply && o.messages == o'.messages && |o.sent| == n + |o'.sent|
    decreases n
  {
    if n > 0 {
      LoopAfterRounds(env, NextHistory(env, flavour, msgs), n - 1, fuel - 1, flavour);
    }
  }

  /** When every round is a tool round the loop gives up after exactly
      `fuel` model calls; with no iterations it calls nothing. */
  lemma LoopExhausts(env: Env, msgs: seq<Message>, fuel: nat, flavour: Flavour)
    requires ToolRounds(env, flavour, msgs, fuel)
    ensures Loop(env, msgs, fuel, flavour).reply == Ok(flavour.gaveUp)
    ensures |Loop(env, msgs, fuel, flavour).sent| == fuel
  {
    LoopAfterRounds(env, msgs, fuel, fuel, flavour);
  }

  /** `n` tool rounds followed by an assistant turn without tool calls end the
      loop with that turn's answer after exactly `n + 1` model calls, when the
      iterations allow it. */
  lemma LoopStopsAfter(env: Env, msgs: seq<Message>, n: nat, fuel: nat, flavour: Flavour)
    requires ToolRounds(env, flavour, msgs, n) && n < fuel
    requires var r := env.model(HistoryAfter(env, flavour, msgs, n));
             r.Answered? && r.choices != [] && !HasToolCalls(r.choices[0])
    ensures Loop(env, msgs, fuel, flavour).reply
              == Ok(FinalAnswer(env.model(HistoryAfter(env, flavour, msgs, n)).choices[0]))
    ensures |Loop(env, msgs, fuel, flavour).sent| == n + 1
    ensures Loop(env, msgs, fuel, flavour).messages
              == HistoryAfter(env, flavour, msgs, n) + [env.model(HistoryAfter(env, flavour, msgs, n)).choices[0]]
  {
    LoopAfterRounds(env, msgs, n, fuel, flavour);
  }

  /** After `n` tool rounds the loop fails on the next model call when the
      endpoint answers with a non-ok status, when it returns no choice, or
      when a tool call of the turn escapes; the history is then the one the
      rounds produced, plus the turn and its answered tool calls in the last
      case, and exactly `n + 1` model calls were made. */
  lemma LoopFailsAfter(env: Env, msgs: seq<Message>, n: nat, fuel: nat, flavour: Flavour)
    requires ToolRounds(env, flavour, msgs, n) && n < fuel
    ensures var h := HistoryAfter(env, flavour, msgs, n);
            var o := Loop(env, msgs, fuel, flavour);
            (env.model(h).HttpFailure? ==>
               o.reply == Err(ApiError(ApiErrorMessage(env.model(h).status, env.model(h).body)))
               && o.messages == h && |o.sent| == n + 1)
            && (env.model(h) == Answered([]) ==>
                  o.reply == Err(NoChoice) && o.messages == h && |o.sent| == n + 1)
    ensures var h := HistoryAfter(env, flavour, msgs, n);
            var r := env.model(h);
            var o := Loop(env, msgs, fuel, flavour);
            r.Answered? && r.choices != [] && HasToolCalls(r.choices[0]) ==>
              var d := RunToolCalls(env, flavour, r.choices[0].toolCalls.value);
              d.error.Some? ==>
                o.reply == Err(d.error.value) && o.messages == h + [r.choices[0]] + d.pushed && |o.sent| == n + 1
  {
    LoopAfterRounds(env, msgs, n, fuel, flavour);
  }

  /** In a tool round the next model call is sent the history with the
      assistant turn and one tool turn per call appended, in call order and
      linked by id. */
  lemma NextCallSeesToolTurns(env: Env, msgs: seq<Message>, fuel: nat, flavour: Flavour)
    requires ToolRound(env, flavour, msgs) && fuel >= 2
    ensures var m := env.model(msgs).choices[0];
            var calls := m.toolCalls.value;
            var o := Loop(env, msgs, fuel, flavour);
            |o.sent| >= 2
            && |o.sent[1]| == |msgs| + 1 + |calls|
            && o.sent[1][..|msgs| + 1] == msgs + [m]
            && forall k :: 0 <= k < |calls| ==>
                 CallTool(env, flavour, calls[k]).Ok?
                 && o.sent[1][|msgs| + 1 + k] == ToolMessage(calls[k].id, CallTool(env, flavour, calls[k]).value)
  {
    var m := env.model(msgs).choices[0];
    var next := NextHistory(env, flavour, msgs);
    RunToolCallsShape(env, flavour, m.toolCalls.value);
    LoopGrows(env, next, fuel - 1, flavour);
    assert Loop(env, msgs, fuel, flavour).sent[1] == next;
    assert next[..|msgs| + 1] == msgs + [m];
  }

  // ---------------------------------------------------------------------------
  // createChat / chat
  // ---------------------------------------------------------------------------

  /** The closure returned by `createChat`: its `messages` persist from one
      `chat` call to the next. */
  class ChatSession {
    const systemPrompt: string
    const maxIterations: nat
    var messages: seq<Message>

    /** The system turn stays first. */
    ghost predicate Valid()
      reads this
    {
      |messages| > 0 && messages[0] == SystemMessage(systemPrompt)
    }

    constructor(systemPrompt: string, maxIterations: nat := DefaultChatIterations)
      ensures this.systemPrompt == systemPrompt && this.maxIterations == maxIterations
      ensures messages == [SystemMessage(systemPrompt)]
      ensures Valid()
    {
      this.systemPrompt := systemPrompt;
      this.maxIterations := maxIterations;
      messages := [SystemMessage(systemPrompt)];
    }

    /** `chat(userMessage)`: one user turn, then the loop. The history keeps
      what the loop appended even when an error escapes. */
    method Chat(env: Env, userMessage: string) returns (reply: Result<string, ChatError>, ghost sent: seq<seq<Message>>)
      requires Valid()
      modifies this
      ensures Valid()
      ensures var o := Loop(env, old(messages) + [UserMessage(userMessage)], maxIterations, ChatFlavour);
              reply == o.reply && messages == o.messages && sent == o.sent
      ensures old(messages) + [UserMessage(userMessage)] <= messages
      ensures |sent| <= maxIterations
    {
      var start := messages + [UserMessage(userMessage)];
      LoopGrows(env, start, maxIterations, ChatFlavour);
      reply, messages, sent := Converse(env, start, maxIterations, ChatFlavour);
      assert messages[0] == start[0];
    }
  }

  // ---------------------------------------------------------------------------
  // runAgent
  // ---------------------------------------------------------------------------

  /** `runAgent`: a fresh history of exactly the system and the user turn. */
  method RunAgent(env: Env, systemPrompt: string, userMessage: string, maxIterations: nat := DefaultAgentIterations)
    returns (reply: Result<string, ChatError>, ghost sent: seq<seq<Message>>)
    ensures reply == Loop(env, [SystemMessage(systemPrompt), UserMessage(userMessage)], maxIterations, AgentFlavour).reply
    ensures maxIterations == 0 ==> reply == Ok(AgentGaveUpReply)
    ensures sent == Loop(env, [SystemMessage(systemPrompt), UserMessage(userMessage)], maxIterations, AgentFlavour).sent
    ensures |sent| <= maxIterations
    ensures maxIterations > 0 ==> sent[0] == [SystemMessage(systemPrompt), UserMessage(userMessage)]
  {
    var start := [SystemMessage(systemPrompt), UserMessage(userMessage)];
    LoopGrows(env, start, maxIterations, AgentFlavour);
    var messages;
    reply, messages, sent := Converse(env, start, maxIterations, AgentFlavour);
  }
}
