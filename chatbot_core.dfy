/**
  The chatbot's two-phase conversation loop: one LLM call offered the tools;
  if it asks for tools, each one is run in turn and its result appended to the
  history, then a second LLM call without tools gives the answer. The answer is
  split into thinking and final text, and a final text that looks unusable
  after tools ran is replaced by the formatted output of the first tool.

  The LLM, the JSON decoder of the tool arguments, the tool executor, the
  thinking extractor and the fallback formatter are parameters, each None
  where the Python callable raises: nothing in the loop catches, so any of
  them ends the run with the caller's list as far as it was extended. The
  model name and token budget, passed unchanged to every LLM call, are left out.
 */
module ChatbotCore {
  import opened Wrappers
  import opened Seqs
  import opened PyStr
  import opened PyValue

  /** One tool call the LLM asked for; `arguments` is the JSON text, "" when absent. */
  datatype ToolCall = ToolCall(id: string, callType: string, name: string, arguments: string)

  /** The message of an LLM completion: its text (None when absent) and its tool calls. */
  datatype Reply = Reply(content: Option<string>, toolCalls: seq<ToolCall>)

  /**
    A history entry: the ones the caller passed in, the assistant turn that
    asked for tools, one tool message per executed tool (its content is the
    JSON text of `result`), and the assistant's final answer.
   */
  datatype Message =
    | Given(entries: seq<(string, Value)>)
    | AssistantCalls(content: string, toolCalls: seq<ToolCall>)
    | ToolMessage(toolCallId: string, name: string, result: seq<(string, Value)>)
    | AssistantText(content: string)

  /** What one LLM call is given: the history at that moment, and whether the tools are offered. */
  datatype LlmRequest = LlmRequest(messages: seq<Message>, withTools: bool)

  /** An entry of `tool_calls_made`. */
  datatype ToolRecord = ToolRecord(name: string, arguments: Value, result: seq<(string, Value)>)

  /**
    The injected callables, each None where it raises: `llm` is `llm_call`,
    `decode` is `json.loads`, `exec` is `tool_executor`, `extract` splits a
    raw answer into (thinking, final message) and `format` is
    `format_tool_response`.
   */
  datatype Oracles = Oracles(
    llm: LlmRequest -> Option<Reply>,
    decode: string -> Option<Value>,
    exec: (string, Value) -> Option<seq<(string, Value)>>,
    extract: string -> Option<(string, string)>,
    format: (string, Value, seq<(string, Value)>) -> Option<string>)

  /** `RunConversationResult` apart from the message list, which is the caller's list. */
  datatype RunResult = RunResult(
    toolCalls: seq<ToolRecord>,
    visualizations: seq<Value>,
    thinking: string,
    finalMessage: string)

  /**
    Everything a run leaves behind: the history, the LLM calls made (the
    last one included when it raised), and the result, None when the run raised.
   */
  datatype Conversation = Conversation(messages: seq<Message>, llmRequests: seq<LlmRequest>, result: Option<RunResult>)

  /** One executed tool: the call, and its record. */
  datatype ToolStep = ToolStep(call: ToolCall, record: ToolRecord)

  /** The tool loop so far, and whether it raised. */
  datatype ToolRun = ToolRun(steps: seq<ToolStep>, raised: bool)

  /** `tool_call.function.arguments or "{}"` */
  function ArgumentsText(tc: ToolCall): (t: string)
    ensures t != ""
    ensures tc.arguments != "" ==> t == tc.arguments
  {
    if tc.arguments != "" then tc.arguments else "{}"
  }

  /** One turn of the tool loop: None when the arguments do not decode or the tool raises. */
  function ToolTurn(o: Oracles, tc: ToolCall): Option<ToolStep> {
    match o.decode(ArgumentsText(tc))
    case None => None
    case Some(args) =>
      match o.exec(tc.name, args)
      case None => None
      case Some(toolResult) => Some(ToolStep(tc, ToolRecord(tc.name, args, toolResult)))
  }

  /** `json.loads` raises on the call's arguments, or `tool_executor` raises on them. */
  predicate ToolFails(o: Oracles, tc: ToolCall) {
    var args := o.decode(ArgumentsText(tc));
    args.None? || o.exec(tc.name, args.value).None?
  }

  function ToolLoop(o: Oracles, calls: seq<ToolCall>): ToolRun {
    if calls == [] then ToolRun([], false)
    else
      var r := ToolLoop(o, calls[..|calls| - 1]);
      if r.raised then r
      else
        match ToolTurn(o, calls[|calls| - 1])
        case None => ToolRun(r.steps, true)
        case Some(st) => ToolRun(r.steps + [st], false)
  }

  /**
    The loop runs the calls in order and stops at the first whose arguments do
    not decode or whose tool raises: the executed steps are those of a prefix
    of the calls, it raised iff not every call ran, and then the next call is
    the one that failed.
   */
  lemma {:induction false} ToolLoopMeaning(o: Oracles, calls: seq<ToolCall>)
    ensures var r := ToolLoop(o, calls);
      && |r.steps| <= |calls|
      && (forall i :: 0 <= i < |r.steps| ==> ToolTurn(o, calls[i]) == Some(r.steps[i]))
      && (r.raised <==> |r.steps| < |calls|)
      && (r.raised ==> ToolTurn(o, calls[|r.steps|]).None?)
  {
    if calls != [] {
      var p := calls[..|calls| - 1];
      ToolLoopMeaning(o, p);
      assert forall i :: 0 <= i < |p| ==> p[i] == calls[i];
    }
  }

  /** The loop raises iff some call's arguments do not decode or its tool raises. */
  lemma ToolLoopRaises(o: Oracles, calls: seq<ToolCall>)
    ensures ToolLoop(o, calls).raised <==> exists i :: 0 <= i < |calls| && ToolFails(o, calls[i])
  {
    ToolLoopMeaning(o, calls);
    var r := ToolLoop(o, calls);
    if !r.raised {
      forall i | 0 <= i < |calls| ensures !ToolFails(o, calls[i]) {
        assert ToolTurn(o, calls[i]) == Some(r.steps[i]);
      }
    } else {
      assert ToolFails(o, calls[|r.steps|]);
    }
  }

  lemma ToolLoopStep(o: Oracles, calls: seq<ToolCall>, i: nat)
    requires i < |calls| && !ToolLoop(o, calls[..i]).raised
    ensures ToolTurn(o, calls[i]).None? ==> ToolLoop(o, calls[..i + 1]) == ToolRun(ToolLoop(o, calls[..i]).steps, true)
    ensures ToolTurn(o, calls[i]).Some? ==>
      ToolLoop(o, calls[..i + 1]) == ToolRun(ToolLoop(o, calls[..i]).steps + [ToolTurn(o, calls[i]).value], false)
  {
    assert calls[..i + 1][..i] == calls[..i];
  }

  /** Once a call has raised, the later calls are never looked at. */
  lemma {:induction false} ToolLoopAfterRaise(o: Oracles, calls: seq<ToolCall>, i: nat)
    requires i <= |calls| && ToolLoop(o, calls[..i]).raised
    ensures ToolLoop(o, calls) == ToolLoop(o, calls[..i])
  {
    if i < |calls| {
      var p := calls[..|calls| - 1];
      assert p[..i] == calls[..i];
      ToolLoopAfterRaise(o, p, i);
    } else {
      assert calls[..i] == calls;
    }
  }

  function Records(steps: seq<ToolStep>): (rs: seq<ToolRecord>)
    ensures |rs| == |steps|
    ensures forall i :: 0 <= i < |steps| ==> rs[i] == steps[i].record
  {
    if steps == [] then [] else Records(steps[..|steps| - 1]) + [steps[|steps| - 1].record]
  }

  /** The tool messages appended to the history, one per executed step. */
  function ToolMessages(steps: seq<ToolStep>): (ms: seq<Message>)
    ensures |ms| == |steps|
    ensures forall i :: 0 <= i < |steps| ==>
      ms[i] == ToolMessage(steps[i].call.id, steps[i].record.name, steps[i].record.result)
  {
    if steps == [] then []
    else
      var st := steps[|steps| - 1];
      ToolMessages(steps[..|steps| - 1]) + [ToolMessage(st.call.id, st.record.name, st.record.result)]
  }

  /** `tool_result["visualization"]` when the result has that key. */
  function VisualizationOf(r: ToolRecord): Option<Value> {
    Lookup(r.result, "visualization")
  }

  /** The final text is unusable when empty, short, JSON-looking or leaking tool arguments. */
  predicate Unusable(finalMessage: string) {
    || finalMessage == ""
    || |finalMessage| < 20
    || StartsWith(Strip(finalMessage), "{")
    || StartsWith(Strip(finalMessage), "[")
    || Contains(finalMessage, "\"path\"")
    || Contains(finalMessage, "\"query\"")
  }

  /**
    The answer after extraction, with the fallback to the first tool's
    formatted output; None when the extractor or the formatter raises.
   */
  function Answer(o: Oracles, records: seq<ToolRecord>, raw: string): Option<(string, string)> {
    match o.extract(raw)
    case None => None
    case Some(parts) =>
      if records != [] && Unusable(parts.1) then
        match o.format(records[0].name, records[0].arguments, records[0].result)
        case None => None
        case Some(text) => Some(("", text))
      else Some(parts)
  }

  /**
    The end of a run: the answer, and the assistant message only when no
    tool ran; when the answer raises nothing more is appended.
   */
  function Finish(o: Oracles, messages: seq<Message>, requests: seq<LlmRequest>,
                  steps: seq<ToolStep>, raw: string): Conversation
  {
    var records := Records(steps);
    match Answer(o, records, raw)
    case None => Conversation(messages, requests, None)
    case Some(answer) =>
      Conversation(
        if records == [] then messages + [AssistantText(answer.1)] else messages,
        requests,
        Some(RunResult(records, Collect(records, VisualizationOf), answer.0, answer.1)))
  }

  /** The history once the tool loop has run: the assistant turn, then one message per executed tool. */
  function ToolHistory(o: Oracles, messages: seq<Message>, reply: Reply): seq<Message> {
    messages + [AssistantCalls(reply.content.GetOr(""), reply.toolCalls)] + ToolMessages(ToolLoop(o, reply.toolCalls).steps)
  }

  /** `run_conversation` on the history `messages`. */
  function Converse(o: Oracles, messages: seq<Message>): Conversation {
    var first := LlmRequest(messages, true);
    match o.llm(first)
    case None => Conversation(messages, [first], None)
    case Some(reply) =>
      if reply.toolCalls == [] then
        Finish(o, messages, [first], [], reply.content.GetOr(""))
      else
        var run := ToolLoop(o, reply.toolCalls);
        var history := ToolHistory(o, messages, reply);
        if run.raised then Conversation(history, [first], None)
        else
          var second := LlmRequest(history, false);
          match o.llm(second)
          case None => Conversation(history, [first, second], None)
          case Some(answer) => Finish(o, history, [first, second], run.steps, answer.content.GetOr(""))
  }

  /** Once a tool ran, the history is left as the loop made it and the records are the steps'. */
  lemma FinishAfterTools(o: Oracles, messages: seq<Message>, requests: seq<LlmRequest>, steps: seq<ToolStep>, raw: string)
    requires steps != []
    ensures var c := Finish(o, messages, requests, steps, raw);
      && c.messages == messages
      && c.llmRequests == requests
      && (c.result.Some? ==> c.result.value.toolCalls == Records(steps))
  {
  }

  /**
    The end of a run raises iff the extractor raises, or tools ran, the
    extracted text is unusable and the formatter raises on the first tool;
    the history is then left as it was.
   */
  lemma FinishRaises(o: Oracles, messages: seq<Message>, requests: seq<LlmRequest>, steps: seq<ToolStep>, raw: string)
    ensures var records := Records(steps);
      var c := Finish(o, messages, requests, steps, raw);
      && c.llmRequests == requests
      && (c.result.None? <==>
            || o.extract(raw).None?
            || (steps != [] && Unusable(o.extract(raw).value.1) &&
                o.format(steps[0].record.name, steps[0].record.arguments, steps[0].record.result).None?))
      && (c.result.None? ==> c.messages == messages)
  {
    var records := Records(steps);
    assert steps != [] ==> records[0] == steps[0].record;
  }

  /** When the first LLM call raises, the run raises with the history untouched. */
  lemma ConverseFirstCallRaises(o: Oracles, messages: seq<Message>)
    requires o.llm(LlmRequest(messages, true)).None?
    ensures Converse(o, messages) == Conversation(messages, [LlmRequest(messages, true)], None)
  {
  }

  /**
    Without tool calls: one LLM call, offered the tools; the answer is the
    extracted reply with no fallback, and it is appended as an assistant
    message; when the extractor raises, nothing is appended.
   */
  lemma ConverseWithoutTools(o: Oracles, messages: seq<Message>)
    requires o.llm(LlmRequest(messages, true)).Some?
    requires o.llm(LlmRequest(messages, true)).value.toolCalls == []
    ensures var raw := o.llm(LlmRequest(messages, true)).value.content.GetOr("");
      var c := Converse(o, messages);
      && c.llmRequests == [LlmRequest(messages, true)]
      && (o.extract(raw).None? ==> c.result.None? && c.messages == messages)
      && (o.extract(raw).Some? ==>
            var (thinking, finalMessage) := o.extract(raw).value;
            && c.result == Some(RunResult([], [], thinking, finalMessage))
            && c.messages == messages + [AssistantText(finalMessage)])
  {
  }

  /**
    With k tool calls that all run: two LLM calls, the second without tools
    and on the final history; the history gains the assistant turn and k
    tool messages in call order and no final assistant message; the records
    are the calls' names, decoded arguments and executor results, in call order.
   */
  lemma ConverseWithTools(o: Oracles, messages: seq<Message>)
    requires o.llm(LlmRequest(messages, true)).Some?
    requires var calls := o.llm(LlmRequest(messages, true)).value.toolCalls;
      calls != [] && forall i :: 0 <= i < |calls| ==> !ToolFails(o, calls[i])
    ensures var reply := o.llm(LlmRequest(messages, true)).value;
      var calls := reply.toolCalls;
      var c := Converse(o, messages);
      && |c.messages| == |messages| + 1 + |calls|
      && c.messages[..|messages| + 1] == messages + [AssistantCalls(reply.content.GetOr(""), calls)]
      && c.llmRequests == [LlmRequest(messages, true), LlmRequest(c.messages, false)]
      && (c.result.Some? ==> |c.result.value.toolCalls| == |calls|)
      && forall i :: 0 <= i < |calls| ==>
           !ToolFails(o, calls[i]) &&
           var args := o.decode(ArgumentsText(calls[i])).value;
           var toolResult := o.exec(calls[i].name, args).value;
           && c.messages[|messages| + 1 + i] == ToolMessage(calls[i].id, calls[i].name, toolResult)
           && (c.result.Some? ==> c.result.value.toolCalls[i] == ToolRecord(calls[i].name, args, toolResult))
  {
    var reply := o.llm(LlmRequest(messages, true)).value;
    var calls := reply.toolCalls;
    var run := ToolLoop(o, calls);
    var history := ToolHistory(o, messages, reply);
    var c := Converse(o, messages);
    ToolsRan(o, messages);
    var withCalls := messages + [AssistantCalls(reply.content.GetOr(""), calls)];
    assert history == withCalls + ToolMessages(run.steps);
    assert history[..|messages| + 1] == withCalls;
    forall i | 0 <= i < |calls|
      ensures !ToolFails(o, calls[i]) &&
        var args := o.decode(ArgumentsText(calls[i])).value;
        var toolResult := o.exec(calls[i].name, args).value;
        && c.messages[|messages| + 1 + i] == ToolMessage(calls[i].id, calls[i].name, toolResult)
        && (c.result.Some? ==> c.result.value.toolCalls[i] == ToolRecord(calls[i].name, args, toolResult))
    {
      var args := o.decode(ArgumentsText(calls[i])).value;
      var toolResult := o.exec(calls[i].name, args).value;
      var st := run.steps[i];
      assert st == ToolStep(calls[i], ToolRecord(calls[i].name, args, toolResult)) by {
        assert ToolTurn(o, calls[i]) == Some(st);
      }
      assert history[|messages| + 1 + i] == ToolMessages(run.steps)[i];
    }
  }

  /** When every call runs, the run leaves the loop's history and requests, and records the loop's steps. */
  lemma ToolsRan(o: Oracles, messages: seq<Message>)
    requires o.llm(LlmRequest(messages, true)).Some?
    requires var calls := o.llm(LlmRequest(messages, true)).value.toolCalls;
      calls != [] && forall i :: 0 <= i < |calls| ==> !ToolFails(o, calls[i])
    ensures var reply := o.llm(LlmRequest(messages, true)).value;
      var calls := reply.toolCalls;
      var run := ToolLoop(o, calls);
      var history := ToolHistory(o, messages, reply);
      var c := Converse(o, messages);
      && !run.raised && |run.steps| == |calls|
      && (forall i :: 0 <= i < |calls| ==> ToolTurn(o, calls[i]) == Some(run.steps[i]))
      && c.messages == history
      && c.llmRequests == [LlmRequest(messages, true), LlmRequest(history, false)]
      && (c.result.Some? ==> c.result.value.toolCalls == Records(run.steps))
  {
    var reply := o.llm(LlmRequest(messages, true)).value;
    var calls := reply.toolCalls;
    var run := ToolLoop(o, calls);
    ToolLoopRaises(o, calls);
    ToolLoopMeaning(o, calls);
    var history := ToolHistory(o, messages, reply);
    var second := LlmRequest(history, false);
    if o.llm(second).Some? {
      FinishAfterTools(o, history, [LlmRequest(messages, true), second], run.steps,
        o.llm(second).value.content.GetOr(""));
    }
  }

  /**
    Once the first request asks for tools, the run stops after that one
    request iff some call's arguments do not decode or its tool raises; it
    then raised, leaving the assistant turn and the tool messages of the
    calls before the failing one in the history.
   */
  lemma ConverseRaises(o: Oracles, messages: seq<Message>)
    ensures var response := o.llm(LlmRequest(messages, true));
      response.Some? && response.value.toolCalls != [] ==>
      var reply := response.value;
      var calls := reply.toolCalls;
      var c := Converse(o, messages);
      && (c.llmRequests == [LlmRequest(messages, true)] <==> exists i :: 0 <= i < |calls| && ToolFails(o, calls[i]))
      && (c.llmRequests == [LlmRequest(messages, true)] ==>
            && c.result.None?
            && exists j :: 0 <= j < |calls| && ToolFails(o, calls[j]) &&
                 (forall i :: 0 <= i < j ==> !ToolFails(o, calls[i])) &&
                 c.messages == messages + [AssistantCalls(reply.content.GetOr(""), calls)] +
                               ToolMessages(ToolLoop(o, calls[..j]).steps))
  {
    var response := o.llm(LlmRequest(messages, true));
    if response.Some? && response.value.toolCalls != [] {
      var calls := response.value.toolCalls;
      ToolLoopRaises(o, calls);
      ToolLoopMeaning(o, calls);
      var run := ToolLoop(o, calls);
      if run.raised {
        var j := |run.steps|;
        ToolLoopMeaning(o, calls[..j]);
        var pre := ToolLoop(o, calls[..j]);
        assert !pre.raised;
        assert |pre.steps| == j;
        forall i | 0 <= i < j ensures pre.steps[i] == run.steps[i] {
          assert ToolTurn(o, calls[i]) == Some(run.steps[i]);
          assert calls[..j][i] == calls[i];
        }
        assert pre.steps == run.steps;
        forall i | 0 <= i < j ensures !ToolFails(o, calls[i]) {
          assert ToolTurn(o, calls[i]) == Some(run.steps[i]);
        }
        assert ToolFails(o, calls[j]);
      }
    }
  }

  /**
    When every tool ran and the second LLM call raises, the run raises after
    two requests, with the assistant turn and all k tool messages in the history.
   */
  lemma ConverseSecondCallRaises(o: Oracles, messages: seq<Message>)
    requires o.llm(LlmRequest(messages, true)).Some?
    requires var calls := o.llm(LlmRequest(messages, true)).value.toolCalls;
      calls != [] && forall i :: 0 <= i < |calls| ==> !ToolFails(o, calls[i])
    requires o.llm(LlmRequest(ToolHistory(o, messages, o.llm(LlmRequest(messages, true)).value), false)).None?
    ensures var reply := o.llm(LlmRequest(messages, true)).value;
      var c := Converse(o, messages);
      && c.result.None?
      && c.llmRequests == [LlmRequest(messages, true), LlmRequest(c.messages, false)]
      && |c.messages| == |messages| + 1 + |reply.toolCalls|
      && c.messages[..|messages| + 1] == messages + [AssistantCalls(reply.content.GetOr(""), reply.toolCalls)]
  {
    var reply := o.llm(LlmRequest(messages, true)).value;
    ToolLoopRaises(o, reply.toolCalls);
    ToolLoopMeaning(o, reply.toolCalls);
    var history := ToolHistory(o, messages, reply);
    assert history[..|messages| + 1] == messages + [AssistantCalls(reply.content.GetOr(""), reply.toolCalls)];
  }

  /**
    The fallback: once tools ran, an unusable extracted answer is replaced by
    the formatted output of the first tool, with empty thinking; a usable one
    is kept as extracted.
   */
  lemma ConverseFallback(o: Oracles, messages: seq<Message>)
    requires o.llm(LlmRequest(messages, true)).Some?
    requires o.llm(LlmRequest(messages, true)).value.toolCalls != []
    requires Converse(o, messages).result.Some?
    ensures var c := Converse(o, messages);
      var second := o.llm(LlmRequest(c.messages, false));
      && second.Some?
      && o.extract(second.value.content.GetOr("")).Some?
      && c.result.value.toolCalls != []
      && var (thinking, finalMessage) := o.extract(second.value.content.GetOr("")).value;
         var tool := c.result.value.toolCalls[0];
         && (Unusable(finalMessage) ==>
               && o.format(tool.name, tool.arguments, tool.result).Some?
               && c.result.value.thinking == ""
               && c.result.value.finalMessage == o.format(tool.name, tool.arguments, tool.result).value)
         && (!Unusable(finalMessage) ==>
               c.result.value.thinking == thinking && c.result.value.finalMessage == finalMessage)
  {
    var calls := o.llm(LlmRequest(messages, true)).value.toolCalls;
    ToolLoopMeaning(o, calls);
  }

  /**
    The visualizations are those of the tool results that have the key, in
    tool order: a value is there iff some record's result holds it.
   */
  lemma ConverseVisualizations(o: Oracles, messages: seq<Message>)
    requires Converse(o, messages).result.Some?
    ensures var r := Converse(o, messages).result.value;
      && |r.visualizations| <= |r.toolCalls|
      && forall v :: v in r.visualizations <==>
           exists i :: 0 <= i < |r.toolCalls| && Lookup(r.toolCalls[i].result, "visualization") == Some(v)
  {
    var r := Converse(o, messages).result.value;
    CollectMeaning(r.toolCalls, VisualizationOf);
    CollectLength(r.toolCalls, VisualizationOf);
  }

  lemma {:induction false} CollectLength<S, T>(s: seq<S>, f: S -> Option<T>)
    ensures |Collect(s, f)| <= |s|
  {
    if s != [] {
      CollectLength(s[..|s| - 1], f);
    }
  }

  /** The caller's message list, which the run extends in place. */
  class MessageList {
    var items: seq<Message>

    constructor(items: seq<Message>)
      ensures this.items == items
    {
      this.items := items;
    }

    method Append(m: Message)
      modifies this
      ensures items == old(items) + [m]
    {
      items := items + [m];
    }
  }

  /** What one executed tool adds to the records, the visualizations and the tool messages. */
  lemma StepAppends(steps: seq<ToolStep>, st: ToolStep)
    ensures Records(steps + [st]) == Records(steps) + [st.record]
    ensures ToolMessages(steps + [st]) ==
      ToolMessages(steps) + [ToolMessage(st.call.id, st.record.name, st.record.result)]
    ensures Collect(Records(steps + [st]), VisualizationOf) ==
      Collect(Records(steps), VisualizationOf) +
      (if VisualizationOf(st.record).Some? then [VisualizationOf(st.record).value] else [])
  {
    assert (steps + [st])[..|steps|] == steps;
    var rs := Records(steps + [st]);
    assert rs[..|steps|] == Records(steps);
  }

  /** The body of the tool loop for one call: decode its arguments, then run the tool. */
  method RunTool(o: Oracles, tc: ToolCall) returns (step: Option<ToolStep>)
    ensures step == ToolTurn(o, tc)
  {
    var decoded := o.decode(ArgumentsText(tc));
    if decoded.None? {
      return None;
    }
    var args := decoded.value;
    var toolResult := o.exec(tc.name, args);
    if toolResult.None? {
      return None;
    }
    step := Some(ToolStep(tc, ToolRecord(tc.name, args, toolResult.value)));
  }

  /** The tool record joins `tool_calls_made`, and its visualization, when it has one, `visualizations`. */
  method RecordStep(ghost steps: seq<ToolStep>, step: ToolStep, toolCallsMade: seq<ToolRecord>, visualizations: seq<Value>)
      returns (made: seq<ToolRecord>, shown: seq<Value>)
    requires toolCallsMade == Records(steps)
    requires visualizations == Collect(Records(steps), VisualizationOf)
    ensures made == Records(steps + [step])
    ensures shown == Collect(Records(steps + [step]), VisualizationOf)
  {
    StepAppends(steps, step);
    made := toolCallsMade + [step.record];
    shown := visualizations;
    var vis := Lookup(step.record.result, "visualization");
    if vis.Some? {
      shown := shown + [vis.value];
    }
  }

  /**
    The `for tool_call in ...` loop: runs the calls in order, appending one
    tool message per call to the history, until one's arguments do not
    decode or its tool raises.
   */
  method RunTools(messages: MessageList, o: Oracles, calls: seq<ToolCall>)
      returns (toolCallsMade: seq<ToolRecord>, visualizations: seq<Value>, raised: bool)
    modifies messages
    ensures var run := ToolLoop(o, calls);
      && raised == run.raised
      && toolCallsMade == Records(run.steps)
      && visualizations == Collect(Records(run.steps), VisualizationOf)
      && messages.items == old(messages.items) + ToolMessages(run.steps)
  {
    ghost var withCalls := messages.items;
    ghost var steps: seq<ToolStep> := [];
    ghost var sent: seq<Message> := [];
    toolCallsMade, visualizations, raised := [], [], false;
    var i := 0;
    while i < |calls|
      invariant 0 <= i <= |calls|
      invariant ToolLoop(o, calls[..i]) == ToolRun(steps, false)
      invariant toolCallsMade == Records(steps)
      invariant visualizations == Collect(Records(steps), VisualizationOf)
      invariant sent == ToolMessages(steps)
      invariant messages.items == withCalls + sent
    {
      ToolLoopStep(o, calls, i);
      var turn := RunTool(o, calls[i]);
      if turn.None? {
        ToolLoopAfterRaise(o, calls, i + 1);
        raised := true;
        return;
      }
      var step := turn.value;
      toolCallsMade, visualizations := RecordStep(steps, step, toolCallsMade, visualizations);
      var message := ToolMessage(step.call.id, step.record.name, step.record.result);
      assert ToolMessages(steps + [step]) == sent + [message] by {
        StepAppends(steps, step);
      }
      messages.Append(message);
      AppendAssoc(withCalls, sent, message);
      sent := sent + [message];
      steps := steps + [step];
      i := i + 1;
    }
    assert calls[..|calls|] == calls;
  }

  /**
    The end of `run_conversation`: extract the answer, fall back to the first
    tool's formatted output when it is unusable, and append the assistant
    message when no tool ran; None, with nothing appended, when the
    extractor or the formatter raises.
   */
  method FinishRun(messages: MessageList, o: Oracles, toolCallsMade: seq<ToolRecord>, raw: string)
      returns (answer: Option<(string, string)>)
    modifies messages
    ensures answer == Answer(o, toolCallsMade, raw)
    ensures messages.items ==
      if answer.Some? && toolCallsMade == [] then old(messages.items) + [AssistantText(answer.value.1)]
      else old(messages.items)
  {
    var parts := o.extract(raw);
    if parts.None? {
      return None;
    }
    var thinking, finalMessage := parts.value.0, parts.value.1;
    if toolCallsMade != [] && Unusable(finalMessage) {
      var firstTool := toolCallsMade[0];
      var formatted := o.format(firstTool.name, firstTool.arguments, firstTool.result);
      if formatted.None? {
        return None;
      }
      finalMessage := formatted.value;
      thinking := "";
    }
    if toolCallsMade == [] {
      messages.Append(AssistantText(finalMessage));
    }
    answer := Some((thinking, finalMessage));
  }

  /**
    The ways a run ends: the first request raises; no tools are asked for;
    a tool call fails; every tool runs and the second request raises; or
    every tool runs and the second request answers.
   */
  lemma ConverseEnds(o: Oracles, messages: seq<Message>)
    ensures var first := LlmRequest(messages, true);
      var c := Converse(o, messages);
      && (o.llm(first).None? ==> c == Conversation(messages, [first], None))
      && (o.llm(first).Some? ==>
            var reply := o.llm(first).value;
            var run := ToolLoop(o, reply.toolCalls);
            var history := ToolHistory(o, messages, reply);
            var second := LlmRequest(history, false);
            && (reply.toolCalls == [] ==> c == Finish(o, messages, [first], [], reply.content.GetOr("")))
            && (reply.toolCalls != [] && run.raised ==> c == Conversation(history, [first], None))
            && (reply.toolCalls != [] && !run.raised && o.llm(second).None? ==>
                  c == Conversation(history, [first, second], None))
            && (reply.toolCalls != [] && !run.raised && o.llm(second).Some? ==>
                  c == Finish(o, history, [first, second], run.steps, o.llm(second).value.content.GetOr(""))))
  {
  }

  lemma FinishIs(o: Oracles, messages: seq<Message>, requests: seq<LlmRequest>, steps: seq<ToolStep>, raw: string)
    ensures var records := Records(steps);
      var answer := Answer(o, records, raw);
      Finish(o, messages, requests, steps, raw) ==
      if answer.None? then Conversation(messages, requests, None)
      else Conversation(if records == [] then messages + [AssistantText(answer.value.1)] else messages, requests,
        Some(RunResult(records, Collect(records, VisualizationOf), answer.value.0, answer.value.1)))
  {
  }

  /**
    `run_conversation`: the LLM requests it makes, the result (None where it
    raises), and the history it leaves in the caller's list.
   */
  method RunConversation(messages: MessageList, o: Oracles) returns (requests: seq<LlmRequest>, result: Option<RunResult>)
    modifies messages
    ensures Converse(o, old(messages.items)) == Conversation(messages.items, requests, result)
  {
    ConverseEnds(o, messages.items);
    var first := LlmRequest(messages.items, true);
    requests := [first];
    var response := o.llm(first);
    if response.None? {
      return requests, None;
    }
    var reply := response.value;
    var toolCallsMade: seq<ToolRecord> := [];
    var visualizations: seq<Value> := [];
    var raw: string;
    if reply.toolCalls != [] {
      messages.Append(AssistantCalls(reply.content.GetOr(""), reply.toolCalls));
      var raised;
      toolCallsMade, visualizations, raised := RunTools(messages, o, reply.toolCalls);
      if raised {
        return requests, None;
      }
      var second := LlmRequest(messages.items, false);
      requests := requests + [second];
      var finalResponse := o.llm(second);
      if finalResponse.None? {
        return requests, None;
      }
      raw := finalResponse.value.content.GetOr("");
    } else {
      raw := reply.content.GetOr("");
    }
    ghost var history := messages.items;
    var answer := FinishRun(messages, o, toolCallsMade, raw);
    result := if answer.Some? then Some(RunResult(toolCallsMade, visualizations, answer.value.0, answer.value.1)) else None;
    FinishIs(o, history, requests, ToolLoop(o, reply.toolCalls).steps, raw);
  }
}
