/**
 * The agent's tool-calling workflow and its chat hook (backend/livekit-voice-agent/agent.py):
 * the LLM node, the routing decision, the tool node, the final formatting node, the graph
 * that wires them, and the handling of an incoming chat message.
 */
module TravelAgent {
  import opened Common

  /** A message's content: a plain string, or a list of parts given by their `str()` forms. */
  datatype Content = Text(text: string) | Parts(parts: seq<string>)

  /** Tool arguments after normalisation to a dictionary. */
  type ToolArgs = map<string, string>

  /** One entry of an AI message's `tool_calls`. */
  datatype ToolCall = ToolCall(id: string, name: string, args: ToolArgs)

  /**
   * An element of the graph state's `messages` list. `Bare` is a value that is not a
   * message object at all: what `format_response` appends.
   */
  datatype Message =
    | Human(content: Content)
    | System(content: Content)
    | AI(content: Content, toolCalls: seq<ToolCall>)
    | Tool(toolCallId: string, name: string, content: Content)
    | Bare(value: Content)

  /** What the bound chat model answers: a reply, or an exception. */
  datatype LlmReply = Reply(content: Content, toolCalls: seq<ToolCall>) | LlmFailed(message: string)

  /** What invoking a registered tool gives: the `str()` of its result, or an exception. */
  datatype ToolOutcome = Returned(repr: string) | Raised(message: string)

  /**
   * The collaborators the workflow calls and cannot be seen: the system prompt text,
   * the chat model, the names of the registered tools (`TOOL_NAMES` for this agent),
   * the tool invocation, and the error the graph raises when it reaches its recursion limit.
   */
  datatype Runtime = Runtime(
    prompt: string,
    llm: seq<Message> -> LlmReply,
    registry: set<string>,
    invoke: (string, ToolArgs) -> ToolOutcome,
    recursionError: string)

  /** The names the agent registers: its two search tools. */
  const TOOL_NAMES: set<string> := {"flights_finder", "hotels_finder"}

  const BAD_TOOL_NAME: string := "bad tool name, retry"
  const TOOL_ERROR_PREFIX: string := "Error invoking tool: "
  const FALLBACK_RESPONSE: string := "I've completed the travel research for you."
  const CHAT_ERROR_PREFIX: string := "I encountered an error while processing your request: "
  const CHAT_ERROR_SUFFIX: string := ". Let me try to help you in a different way."

  /** The two routes out of the LLM node. */
  datatype Route = MoreTools | FormatResponse

  /** The last message asks for tools: an AI message with at least one tool call. */
  predicate RequestsTools(m: Message) {
    m.AI? && |m.toolCalls| > 0
  }

  /** `exists_action`. */
  function ExistsAction(messages: seq<Message>): (r: Route)
    requires |messages| > 0
    ensures r == MoreTools <==> RequestsTools(Last(messages))
  {
    match Last(messages)
    case AI(_, calls) => if |calls| == 0 then FormatResponse else MoreTools
    case _ => FormatResponse
  }

  // ---------------------------------------------------------------- the tool node

  /** The tool message answering one call. */
  function ToolMessageFor(call: ToolCall, rt: Runtime): (m: Message)
    ensures m.Tool? && m.toolCallId == call.id && m.name == call.name
  {
    var result :=
      if call.name !in rt.registry then BAD_TOOL_NAME
      else match rt.invoke(call.name, call.args)
        case Returned(repr) => repr
        case Raised(msg) => TOOL_ERROR_PREFIX + msg;
    Tool(call.id, call.name, Text(result))
  }

  /**
   * What a call is answered with: "bad tool name, retry" for a name outside the registry,
   * the tool's result when it returns, and the prefixed error message when it raises.
   */
  lemma ToolAnswerContent(call: ToolCall, rt: Runtime)
    ensures call.name !in rt.registry ==> ToolMessageFor(call, rt).content == Text(BAD_TOOL_NAME)
    ensures call.name in rt.registry && rt.invoke(call.name, call.args).Raised? ==>
      ToolMessageFor(call, rt).content == Text(TOOL_ERROR_PREFIX + rt.invoke(call.name, call.args).message)
    ensures call.name in rt.registry && rt.invoke(call.name, call.args).Returned? ==>
      ToolMessageFor(call, rt).content == Text(rt.invoke(call.name, call.args).repr)
  {
  }

  /** The calls the tool node answers: those of the last message when it is an AI message. */
  function PendingCalls(messages: seq<Message>): seq<ToolCall>
    requires |messages| > 0
  {
    if Last(messages).AI? then Last(messages).toolCalls else []
  }

  /** One tool message per call, in call order. */
  function Answers(calls: seq<ToolCall>, rt: Runtime): (answers: seq<Message>)
    ensures |answers| == |calls|
    ensures forall i :: 0 <= i < |answers| ==> answers[i].Tool?
  {
    if calls == [] then [] else [ToolMessageFor(calls[0], rt)] + Answers(calls[1..], rt)
  }

  /** The `i`-th answer is the tool message for the `i`-th call. */
  lemma {:induction false} AnswersInCallOrder(calls: seq<ToolCall>, rt: Runtime, i: nat)
    requires i < |calls|
    ensures Answers(calls, rt)[i] == ToolMessageFor(calls[i], rt)
  {
    if i > 0 {
      AnswersInCallOrder(calls[1..], rt, i - 1);
    }
  }

  lemma {:induction false} AnswersAppend(calls: seq<ToolCall>, c: ToolCall, rt: Runtime)
    ensures Answers(calls + [c], rt) == Answers(calls, rt) + [ToolMessageFor(c, rt)]
  {
    if calls != [] {
      assert (calls + [c])[1..] == calls[1..] + [c];
      AnswersAppend(calls[1..], c, rt);
    } else {
      assert calls + [c] == [c];
    }
  }

  /** The tool node's output: the answers to the pending calls. */
  function ToolResults(messages: seq<Message>, rt: Runtime): (results: seq<Message>)
    requires |messages| > 0
    ensures |results| == |PendingCalls(messages)|
  {
    Answers(PendingCalls(messages), rt)
  }

  /** The calls that reach a tool: those naming a registered tool, in order. */
  function RegisteredCalls(calls: seq<ToolCall>, registry: set<string>): (r: seq<ToolCall>)
    ensures |r| <= |calls|
  {
    if calls == [] then []
    else if calls[0].name in registry then [calls[0]] + RegisteredCalls(calls[1..], registry)
    else RegisteredCalls(calls[1..], registry)
  }

  /** A call reaches a tool exactly when it is one of the calls and names a registered tool. */
  lemma {:induction false} RegisteredCallsMembers(calls: seq<ToolCall>, registry: set<string>, c: ToolCall)
    ensures c in RegisteredCalls(calls, registry) <==> c in calls && c.name in registry
  {
    if calls != [] {
      RegisteredCallsMembers(calls[1..], registry, c);
      assert calls == [calls[0]] + calls[1..];
    }
  }

  lemma {:induction false} RegisteredCallsAppend(calls: seq<ToolCall>, c: ToolCall, registry: set<string>)
    ensures RegisteredCalls(calls + [c], registry)
         == RegisteredCalls(calls, registry) + (if c.name in registry then [c] else [])
  {
    if calls != [] {
      assert (calls + [c])[1..] == calls[1..] + [c];
      RegisteredCallsAppend(calls[1..], c, registry);
    } else {
      assert calls + [c] == [c];
    }
  }

  /** Extending a prefix of the calls by one call extends both lists by its entry. */
  lemma PrefixStep(calls: seq<ToolCall>, i: nat, rt: Runtime)
    requires i < |calls|
    ensures Answers(calls[..i + 1], rt) == Answers(calls[..i], rt) + [ToolMessageFor(calls[i], rt)]
    ensures RegisteredCalls(calls[..i + 1], rt.registry)
         == RegisteredCalls(calls[..i], rt.registry) + (if calls[i].name in rt.registry then [calls[i]] else [])
  {
    assert calls[..i + 1] == calls[..i] + [calls[i]];
    AnswersAppend(calls[..i], calls[i], rt);
    RegisteredCallsAppend(calls[..i], calls[i], rt.registry);
  }

  /** One iteration of the tool node: answers one call, saying whether a tool was invoked for it. */
  method AnswerCall(t: ToolCall, rt: Runtime) returns (answer: Message, reached: bool)
    ensures answer == ToolMessageFor(t, rt)
    ensures reached <==> t.name in rt.registry
  {
    var result: string;
    if t.name !in rt.registry {
      result := BAD_TOOL_NAME;
      reached := false;
    } else {
      reached := true;
      var outcome := rt.invoke(t.name, t.args);
      result := if outcome.Returned? then outcome.repr else TOOL_ERROR_PREFIX + outcome.message;
    }
    answer := Tool(t.id, t.name, Text(result));
  }

  /**
   * `invoke_tools`: walks the last message's tool calls in order and answers each one,
   * also reporting which calls actually invoked a tool. Unknown names invoke nothing,
   * and an exception in one call does not stop the others.
   */
  method InvokeTools(messages: seq<Message>, rt: Runtime) returns (results: seq<Message>, invoked: seq<ToolCall>)
    requires |messages| > 0
    ensures results == ToolResults(messages, rt)
    ensures invoked == RegisteredCalls(PendingCalls(messages), rt.registry)
  {
    var last := Last(messages);
    if !last.AI? {
      return [], [];
    }
    results, invoked := AnswerAll(last.toolCalls, rt);
  }

  /** The loop of `invoke_tools` over a list of calls. */
  method AnswerAll(calls: seq<ToolCall>, rt: Runtime) returns (results: seq<Message>, invoked: seq<ToolCall>)
    ensures results == Answers(calls, rt)
    ensures invoked == RegisteredCalls(calls, rt.registry)
  {
    results, invoked := [], [];
    var i := 0;
    while i < |calls|
      invariant 0 <= i <= |calls|
      invariant results == Answers(calls[..i], rt)
      invariant invoked == RegisteredCalls(calls[..i], rt.registry)
    {
      var t := calls[i];
      var answer, reached := AnswerCall(t, rt);
      if reached {
        invoked := invoked + [t];
      }
      results := results + [answer];
      PrefixStep(calls, i, rt);
      i := i + 1;
    }
    assert calls[..i] == calls;
  }

  /** The tool node and the router agree: tools are answered exactly when the router asks for them. */
  lemma RouteMatchesToolNode(messages: seq<Message>, rt: Runtime)
    requires |messages| > 0
    ensures ExistsAction(messages) == MoreTools <==> |ToolResults(messages, rt)| > 0
    ensures !Last(messages).AI? ==> ToolResults(messages, rt) == []
  {
  }

  // ------------------------------------------------- the LLM and formatting nodes

  /** `.content` of a message object; a bare value has none. */
  function ContentOf(m: Message): Content
    requires !m.Bare?
  {
    m.content
  }

  /** What the LLM node sends the model: the system prompt, then the whole history. */
  function LlmInput(messages: seq<Message>, prompt: string): (input: seq<Message>)
    ensures |input| == |messages| + 1 && input[0] == System(Text(prompt)) && input[1..] == messages
  {
    [System(Text(prompt))] + messages
  }

  /** `format_response`: the last message's content, or the fixed text for an empty history. */
  function FormatResponseNode(messages: seq<Message>): (out: seq<Message>)
    requires messages == [] || !Last(messages).Bare?
    ensures |out| == 1 && out[0].Bare?
    ensures messages == [] ==> out[0].value == Text(FALLBACK_RESPONSE)
    ensures messages != [] ==> out[0].value == ContentOf(Last(messages))
  {
    [Bare(if messages == [] then Text(FALLBACK_RESPONSE) else ContentOf(Last(messages)))]
  }

  /** The outcome of one round: the LLM node, then the tool node or `format_response`. */
  datatype RoundOutcome = RoundFailed(message: string) | Ended(messages: seq<Message>) | Looped(messages: seq<Message>)

  /**
   * One round of the graph from the LLM node: the model's reply is appended; when it asks
   * for tools the tool node's answers are appended and the graph loops back to the LLM
   * node, otherwise `format_response` is appended and the run ends.
   */
  function Round(messages: seq<Message>, rt: Runtime): RoundOutcome {
    match rt.llm(LlmInput(messages, rt.prompt))
    case LlmFailed(msg) => RoundFailed(msg)
    case Reply(content, calls) =>
      var state := messages + [AI(content, calls)];
      if ExistsAction(state) == MoreTools then Looped(state + ToolResults(state, rt))
      else Ended(state + FormatResponseNode(state))
  }

  /**
   * A round only appends to the state, and appends no system message. A looping round
   * appends the reply and then the tool node's answers to it, at least one; an ending
   * round appends a reply without tool calls and then that reply's content.
   */
  lemma RoundAppendsOnly(messages: seq<Message>, rt: Runtime)
    ensures Round(messages, rt).Looped? ==>
      var reply := rt.llm(LlmInput(messages, rt.prompt));
      var state := messages + [AI(reply.content, reply.toolCalls)];
      reply.Reply? && Round(messages, rt).messages == state + ToolResults(state, rt)
    ensures Round(messages, rt).Looped? ==>
      var next := Round(messages, rt).messages;
      |next| >= |messages| + 2 && next[..|messages|] == messages
      && forall i :: |messages| <= i < |next| ==> !next[i].System?
    ensures Round(messages, rt).Ended? ==>
      var out := Round(messages, rt).messages;
      |out| == |messages| + 2 && out[..|messages|] == messages
      && out[|messages|].AI? && out[|messages|].toolCalls == []
      && out[|messages| + 1] == Bare(out[|messages|].content)
  {
    var reply := rt.llm(LlmInput(messages, rt.prompt));
    if reply.Reply? {
      var state := messages + [AI(reply.content, reply.toolCalls)];
      assert state[..|messages|] == messages;
      if ExistsAction(state) == MoreTools {
        var answers := ToolResults(state, rt);
        var next := state + answers;
        assert next[..|messages|] == messages;
        forall i | |messages| <= i < |next| ensures !next[i].System? {
          if i > |messages| {
            assert next[i] == answers[i - |state|];
          }
        }
      }
    }
  }

  /** The outcome of invoking the compiled graph. */
  datatype GraphOutcome = Finished(messages: seq<Message>) | GraphFailed(message: string)

  /**
   * The compiled graph, from the entry node `call_tools_llm`: every node's output is
   * appended to the state; after the LLM node, `exists_action` routes to the tool node
   * (which loops back to the LLM node) or to `format_response` (which ends the run).
   * `fuel` bounds the number of LLM rounds, standing for the graph's recursion limit.
   */
  function RunGraph(messages: seq<Message>, rt: Runtime, fuel: nat): GraphOutcome
    decreases fuel
  {
    if fuel == 0 then GraphFailed(rt.recursionError)
    else
      match Round(messages, rt)
      case RoundFailed(msg) => GraphFailed(msg)
      case Ended(out) => Finished(out)
      case Looped(next) => RunGraph(next, rt, fuel - 1)
  }

  /**
   * A finished run only appended to the history it started from, and added no system
   * message: the prompt goes to the model, never into the state.
   */
  lemma {:induction false} RunGraphAppendsOnly(messages: seq<Message>, rt: Runtime, fuel: nat, out: seq<Message>)
    requires RunGraph(messages, rt, fuel) == Finished(out)
    ensures |out| >= |messages| + 2 && out[..|messages|] == messages
    ensures forall i :: |messages| <= i < |out| ==> !out[i].System?
    decreases fuel
  {
    var round := Round(messages, rt);
    if round.Looped? {
      var next := round.messages;
      assert |next| >= |messages| + 2 && next[..|messages|] == messages
        && forall i :: |messages| <= i < |next| ==> !next[i].System? by {
        RoundAppendsOnly(messages, rt);
      }
      RunGraphAppendsOnly(next, rt, fuel - 1, out);
      assert out[..|messages|] == next[..|next|][..|messages|];
      forall i | |messages| <= i < |next| ensures !out[i].System? {
        assert out[i] == next[i];
      }
    } else {
      RoundAppendsOnly(messages, rt);
      assert round.Ended? && out == round.messages;
      forall i | |messages| <= i < |out| ensures !out[i].System? {
        assert i == |messages| || i == |messages| + 1;
      }
    }
  }

  /** A finished run ends with the content of a final AI reply that asked for no tools. */
  lemma {:induction false} RunGraphEndsWithAnswer(messages: seq<Message>, rt: Runtime, fuel: nat, out: seq<Message>)
    requires RunGraph(messages, rt, fuel) == Finished(out)
    ensures |out| >= 2 && out[|out| - 2].AI? && out[|out| - 2].toolCalls == []
    ensures out[|out| - 1] == Bare(out[|out| - 2].content)
    decreases fuel
  {
    var round := Round(messages, rt);
    if round.Looped? {
      RunGraphEndsWithAnswer(round.messages, rt, fuel - 1, out);
    } else {
      RoundAppendsOnly(messages, rt);
    }
  }

  // ------------------------------------------------------------ on_chat_received

  /** Joins the parts with single spaces, as `' '.join(parts)`. */
  function JoinWithSpaces(parts: seq<string>): string {
    if parts == [] then ""
    else if |parts| == 1 then parts[0]
    else parts[0] + " " + JoinWithSpaces(parts[1..])
  }

  /** `str.split(' ')`: the pieces between single spaces (empty pieces included). */
  function SplitOnSpaces(s: string): (pieces: seq<string>)
    ensures |pieces| > 0
  {
    if s == [] then [""]
    else
      var rest := SplitOnSpaces(s[1..]);
      if s[0] == ' ' then [""] + rest else [[s[0]] + rest[0]] + rest[1..]
  }

  lemma {:induction false} SplitWordThenRest(word: string, rest: string)
    requires ' ' !in word
    ensures SplitOnSpaces(word + " " + rest) == [word] + SplitOnSpaces(rest)
  {
    if word == [] {
      assert word + " " + rest == [' '] + rest;
      assert ([' '] + rest)[1..] == rest;
    } else {
      assert (word + " " + rest)[1..] == word[1..] + " " + rest;
      SplitWordThenRest(word[1..], rest);
      assert [word[0]] + word[1..] == word;
    }
  }

  lemma {:induction false} SplitWord(word: string)
    requires ' ' !in word
    ensures SplitOnSpaces(word) == [word]
  {
    if word != [] {
      SplitWord(word[1..]);
      assert [word[0]] + word[1..] == word;
    }
  }

  /** Joining list content can be undone by splitting, as long as no part holds a space. */
  lemma {:induction false} SplitUndoesJoin(parts: seq<string>)
    requires |parts| > 0
    requires forall i :: 0 <= i < |parts| ==> ' ' !in parts[i]
    ensures SplitOnSpaces(JoinWithSpaces(parts)) == parts
  {
    if |parts| == 1 {
      SplitWord(parts[0]);
    } else {
      SplitUndoesJoin(parts[1..]);
      SplitWordThenRest(parts[0], JoinWithSpaces(parts[1..]));
      assert [parts[0]] + parts[1..] == parts;
    }
  }

  /** The text of an incoming chat message: string content as is, list content joined with spaces. */
  function FlattenContent(c: Content): string {
    match c
    case Text(s) => s
    case Parts(ps) => JoinWithSpaces(ps)
  }

  /**
   * The text published for the final value of a finished run. A string is published as is;
   * a list has no `content` attribute and is published as its `str()`, which `listRepr` stands for.
   */
  function ResponseText(final: Message, listRepr: seq<string> -> string): string
    requires final.Bare?
  {
    match final.value
    case Text(s) => s
    case Parts(ps) => listRepr(ps)
  }

  /** The graph's input for an incoming chat: the history plus one human message with the flattened text. */
  function ChatInput(content: Content, history: seq<Message>): seq<Message> {
    history + [Human(Text(FlattenContent(content)))]
  }

  /** What is published for a run's outcome: nothing without a room, else the response or the apology. */
  function Publish(outcome: GraphOutcome, hasRoom: bool, listRepr: seq<string> -> string): (published: Option<string>)
    requires outcome.Finished? ==> |outcome.messages| > 0 && Last(outcome.messages).Bare?
    ensures published.Some? <==> hasRoom
  {
    if !hasRoom then None
    else match outcome
      case Finished(out) => Some(ResponseText(Last(out), listRepr))
      case GraphFailed(msg) => Some(CHAT_ERROR_PREFIX + msg + CHAT_ERROR_SUFFIX)
  }

  /**
   * `on_chat_received`: flattens the content into one human message, runs the graph on the
   * checkpointed history plus that message, and publishes the final response, or the apology
   * carrying the error text when the run raised. Nothing is published without a room.
   */
  function OnChatReceived(content: Content, history: seq<Message>, rt: Runtime, fuel: nat,
                          hasRoom: bool, listRepr: seq<string> -> string): (published: Option<string>)
    requires rt.registry == TOOL_NAMES
    ensures published.Some? <==> hasRoom
  {
    var input := ChatInput(content, history);
    var outcome := RunGraph(input, rt, fuel);
    match outcome
    case Finished(out) =>
      RunGraphEndsWithAnswer(input, rt, fuel, out);
      Publish(outcome, hasRoom, listRepr)
    case GraphFailed(_) => Publish(outcome, hasRoom, listRepr)
  }

  /**
   * With a room, a run that finishes publishes the content of the model's last reply: its
   * text, or the `str()` of its list of parts.
   */
  lemma ChatReplyIsLastAnswer(content: Content, history: seq<Message>, rt: Runtime, fuel: nat,
                              listRepr: seq<string> -> string, out: seq<Message>)
    requires rt.registry == TOOL_NAMES
    requires RunGraph(ChatInput(content, history), rt, fuel) == Finished(out)
    ensures |out| >= 2 && out[|out| - 2].AI? && out[|out| - 2].toolCalls == []
    ensures out[|out| - 2].content.Text? ==>
      OnChatReceived(content, history, rt, fuel, true, listRepr) == Some(out[|out| - 2].content.text)
    ensures out[|out| - 2].content.Parts? ==>
      OnChatReceived(content, history, rt, fuel, true, listRepr) == Some(listRepr(out[|out| - 2].content.parts))
  {
    RunGraphEndsWithAnswer(ChatInput(content, history), rt, fuel, out);
  }

  /** With a room, a run that raises publishes the apology carrying the error message. */
  lemma ChatFailureIsApology(content: Content, history: seq<Message>, rt: Runtime, fuel: nat,
                             listRepr: seq<string> -> string, msg: string)
    requires rt.registry == TOOL_NAMES
    requires RunGraph(ChatInput(content, history), rt, fuel) == GraphFailed(msg)
    ensures OnChatReceived(content, history, rt, fuel, true, listRepr) == Some(CHAT_ERROR_PREFIX + msg + CHAT_ERROR_SUFFIX)
  {
  }
}
