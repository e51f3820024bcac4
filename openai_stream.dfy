/**
 * Rebuilding a completed response from a consumed OpenAI stream
 * (`mirascope/core/openai/stream.py`): the assistant message parameter built from
 * the streamed content and tool calls, and the `ChatCompletion` that
 * `construct_call_response` assembles from the stream's accumulated fields.
 */
module OpenAIStream {
  import opened Wrappers
  import opened PyValues

  // ---------------------------------------------------------------------------
  // The assistant message parameter
  // ---------------------------------------------------------------------------

  /** A tool call of the streamed assistant message: its id, function name and JSON arguments. */
  datatype ToolCall = ToolCall(id: string, name: string, arguments: string)

  /** The message parameter of a tool call: type "function", the function's arguments and name, and the id. */
  function ToolCallParam(tc: ToolCall): Value {
    PyDict(map[
      "type" := PyStr("function"),
      "function" := PyDict(map["arguments" := PyStr(tc.arguments), "name" := PyStr(tc.name)]),
      "id" := PyStr(tc.id)])
  }

  /** The message parameters of `toolCalls`, one per call, in order. */
  function ToolCallParams(toolCalls: seq<ToolCall>): (ps: seq<Value>)
    ensures |ps| == |toolCalls|
  {
    if toolCalls == [] then [] else [ToolCallParam(toolCalls[0])] + ToolCallParams(toolCalls[1..])
  }

  /** Reads a tool call back from its message parameter; `None` for anything else. */
  function DecodeToolCall(v: Value): Option<ToolCall> {
    if v.PyDict? && "type" in v.entries && v.entries["type"] == PyStr("function")
       && "id" in v.entries && v.entries["id"].PyStr?
       && "function" in v.entries && v.entries["function"].PyDict?
       && "name" in v.entries["function"].entries && v.entries["function"].entries["name"].PyStr?
       && "arguments" in v.entries["function"].entries && v.entries["function"].entries["arguments"].PyStr?
    then Some(ToolCall(v.entries["id"].s, v.entries["function"].entries["name"].s, v.entries["function"].entries["arguments"].s))
    else None
  }

  /** Reads a list of tool calls back; `None` if any element is not a tool call's parameter. */
  function DecodeToolCalls(vs: seq<Value>): (r: Option<seq<ToolCall>>)
    ensures r.Some? ==> |r.value| == |vs|
  {
    if vs == [] then Some([])
    else
      match (DecodeToolCall(vs[0]), DecodeToolCalls(vs[1..]))
      case (Some(tc), Some(rest)) => Some([tc] + rest)
      case _ => None
  }

  /** A tool call's parameter carries its type, id, name and arguments: decoding it gives the call back. */
  lemma ToolCallParamRoundTrip(tc: ToolCall)
    ensures DecodeToolCall(ToolCallParam(tc)) == Some(tc)
  {
    var fnEntries := map["arguments" := PyStr(tc.arguments), "name" := PyStr(tc.name)];
    assert ToolCallParam(tc).entries["function"] == PyDict(fnEntries);
  }

  /** The tool-call parameters keep every call, in order: decoding them gives the calls back. */
  lemma {:induction false} ToolCallParamsRoundTrip(toolCalls: seq<ToolCall>)
    ensures DecodeToolCalls(ToolCallParams(toolCalls)) == Some(toolCalls)
  {
    if toolCalls != [] {
      var ps := ToolCallParams(toolCalls);
      assert ps[0] == ToolCallParam(toolCalls[0]);
      assert ps[1..] == ToolCallParams(toolCalls[1..]);
      ToolCallParamRoundTrip(toolCalls[0]);
      ToolCallParamsRoundTrip(toolCalls[1..]);
      assert [toolCalls[0]] + toolCalls[1..] == toolCalls;
    }
  }

  /** The "content" value of a message parameter: the text, or `None`. */
  function ContentValue(content: Option<string>): Value {
    if content.Some? then PyStr(content.value) else PyNone
  }

  /**
   * `_construct_message_param`: an assistant message with the given content, and a
   * "tool_calls" entry only when there is at least one tool call.
   */
  function ConstructMessageParam(toolCalls: Option<seq<ToolCall>> := None, content: Option<string> := None)
    : (p: MessageParam)
    ensures "role" in p && p["role"] == PyStr("assistant")
    ensures "content" in p && (content.Some? ==> p["content"] == PyStr(content.value)) && (content.None? ==> p["content"] == PyNone)
    ensures "tool_calls" in p <==> toolCalls.Some? && toolCalls.value != []
    ensures p.Keys <= {"role", "content", "tool_calls"}
    ensures "tool_calls" in p ==>
      p["tool_calls"].PyList? && DecodeToolCalls(p["tool_calls"].items) == toolCalls
  {
    var base := map["role" := PyStr("assistant"), "content" := ContentValue(content)];
    if toolCalls.Some? && toolCalls.value != [] then
      ToolCallParamsRoundTrip(toolCalls.value);
      base["tool_calls" := PyList(ToolCallParams(toolCalls.value))]
    else base
  }

  // ---------------------------------------------------------------------------
  // The reconstructed response
  // ---------------------------------------------------------------------------

  /**
   * The fields of the stream that `construct_call_response` copies into the
   * response unchanged.
   */
  datatype CallContext = CallContext(
    metadata: map<string, Value>,
    toolTypes: Option<seq<ToolType>>,
    promptTemplate: Option<string>,
    dynamicConfig: Value,
    messages: seq<MessageParam>,
    callParams: map<string, Value>,
    callKwargs: map<string, Value>,
    userMessageParam: Option<MessageParam>,
    startTime: real,
    endTime: real)

  /**
   * What a stream has accumulated. `messageParam` is `None` while the stream has not
   * been consumed (the attribute does not exist yet); the token counts, id, finish
   * reasons and `fn_args` are `None` when the stream holds `None` for them.
   */
  datatype StreamState = StreamState(
    messageParam: Option<MessageParam>,
    inputTokens: Option<int>,
    outputTokens: Option<int>,
    id: Option<string>,
    model: string,
    finishReasons: Option<seq<string>>,
    fnArgs: Option<map<string, Value>>,
    context: CallContext)

  /** The errors `construct_call_response` raises. */
  datatype StreamError =
    | NotConsumed          // the `ValueError` for a stream without a message parameter
    | MissingRole          // the `KeyError` for a message parameter without a role
    | InvalidMessage       // the `ValidationError` of `ChatCompletionMessage.model_validate`
    | InvalidFinishReason  // the `ValidationError` of `Choice` for a finish reason it does not allow

  /** `CompletionUsage`. */
  datatype CompletionUsage = CompletionUsage(promptTokens: int, completionTokens: int, totalTokens: int)

  /** `ChatCompletionMessage`: the role, content and tool calls of the message. */
  datatype ChatMessage = ChatMessage(role: Value, content: Value, toolCalls: Value)

  /**
   * What `ChatCompletionMessage` accepts: the role "assistant", text or `None` as
   * content, and `None` or a list of well-formed tool calls as tool calls.
   */
  predicate IsValidMessage(m: ChatMessage) {
    m.role == PyStr("assistant") &&
    (m.content.PyStr? || m.content.PyNone?) &&
    (m.toolCalls.PyNone? || (m.toolCalls.PyList? && DecodeToolCalls(m.toolCalls.items).Some?))
  }

  /** The finish reasons `Choice` accepts. */
  const FinishReasons: set<string> := {"stop", "length", "tool_calls", "content_filter", "function_call"}

  /** `Choice`. */
  datatype Choice = Choice(finishReason: string, index: int, message: ChatMessage)

  /** `ChatCompletion`; `objectType` is its `object` field. */
  datatype ChatCompletion = ChatCompletion(
    id: string,
    model: string,
    choices: seq<Choice>,
    created: int,
    objectType: string,
    usage: Option<CompletionUsage>)

  /** `OpenAICallResponse`: the completion, `fn_args` and the copied fields. */
  datatype CallResponse = CallResponse(response: ChatCompletion, fnArgs: map<string, Value>, context: CallContext)

  /** A token count is truthy when it is present and not zero. */
  predicate TokensTruthy(tokens: Option<int>) {
    tokens.Some? && tokens.value != 0
  }

  /** `int(tokens or 0)`. */
  function TokensOrZero(tokens: Option<int>): int {
    if TokensTruthy(tokens) then tokens.value else 0
  }

  /**
   * The usage of the reconstructed response: none when neither count is truthy,
   * else the two counts, each 0 when missing, and their sum.
   */
  function StreamUsage(inputTokens: Option<int>, outputTokens: Option<int>): (u: Option<CompletionUsage>)
    ensures u.None? <==> (inputTokens.None? || inputTokens.value == 0) && (outputTokens.None? || outputTokens.value == 0)
    ensures u.Some? ==> u.value.promptTokens == (if inputTokens.Some? then inputTokens.value else 0)
    ensures u.Some? ==> u.value.completionTokens == (if outputTokens.Some? then outputTokens.value else 0)
    ensures u.Some? ==> u.value.totalTokens == u.value.promptTokens + u.value.completionTokens
  {
    if !TokensTruthy(inputTokens) && !TokensTruthy(outputTokens) then None
    else
      var prompt := TokensOrZero(inputTokens);
      var completion := TokensOrZero(outputTokens);
      Some(CompletionUsage(prompt, completion, prompt + completion))
  }

  /** The finish reason: the first one streamed, or "stop" when none was. */
  function FinishReason(finishReasons: Option<seq<string>>): (r: string)
    ensures finishReasons.Some? && |finishReasons.value| > 0 ==> r == finishReasons.value[0]
    ensures finishReasons.None? || finishReasons.value == [] ==> r == "stop"
  {
    if finishReasons.Some? && finishReasons.value != [] then finishReasons.value[0] else "stop"
  }

  /** The message `construct_call_response` validates: the role, and the content (default "") and tool calls (default []). */
  function MessageOf(mp: MessageParam): ChatMessage
    requires "role" in mp
  {
    ChatMessage(mp["role"], GetOr(mp, "content", PyStr("")), GetOr(mp, "tool_calls", PyList([])))
  }

  /**
   * `construct_call_response`: fails unless the stream was consumed, its message
   * parameter has a role, the message validates and the finish reason is one
   * `Choice` allows; otherwise a completion with one choice at index 0 whose message
   * copies the role and takes the content (default "") and tool calls (default [])
   * of the message parameter, the id (default ""), the model, the usage of
   * `StreamUsage`, `created` 0 and object "chat.completion"; `fn_args` defaults to
   * an empty map; everything else is copied.
   */
  function ConstructCallResponse(s: StreamState): (r: Result<CallResponse, StreamError>)
    ensures r.Failure? <==>
      s.messageParam.None? || "role" !in s.messageParam.value ||
      !IsValidMessage(MessageOf(s.messageParam.value)) || FinishReason(s.finishReasons) !in FinishReasons
    ensures s.messageParam.None? ==> r == Failure(NotConsumed)
    ensures s.messageParam.Some? && "role" !in s.messageParam.value ==> r == Failure(MissingRole)
    ensures s.messageParam.Some? && "role" in s.messageParam.value && !IsValidMessage(MessageOf(s.messageParam.value)) ==>
      r == Failure(InvalidMessage)
    ensures (s.messageParam.Some? && "role" in s.messageParam.value && IsValidMessage(MessageOf(s.messageParam.value)) &&
             FinishReason(s.finishReasons) !in FinishReasons) ==>
      r == Failure(InvalidFinishReason)
    ensures r.Success? ==>
      var c := r.value.response;
      c.id == (if s.id.Some? then s.id.value else "") && c.model == s.model &&
      c.created == 0 && c.objectType == "chat.completion" &&
      c.usage == StreamUsage(s.inputTokens, s.outputTokens) &&
      |c.choices| == 1 && c.choices[0].index == 0 && c.choices[0].finishReason == FinishReason(s.finishReasons)
    ensures r.Success? ==>
      var mp := s.messageParam.value;
      var m := r.value.response.choices[0].message;
      m.role == mp["role"] == PyStr("assistant") &&
      m.content == (if "content" in mp then mp["content"] else PyStr("")) &&
      m.toolCalls == (if "tool_calls" in mp then mp["tool_calls"] else PyList([]))
    ensures r.Success? ==> r.value.fnArgs == (if s.fnArgs.Some? then s.fnArgs.value else map[])
    ensures r.Success? ==> r.value.context == s.context
  {
    if s.messageParam.None? then Failure(NotConsumed)
    else if "role" !in s.messageParam.value then Failure(MissingRole)
    else
      var message := MessageOf(s.messageParam.value);
      if !IsValidMessage(message) then Failure(InvalidMessage)
      else if FinishReason(s.finishReasons) !in FinishReasons then Failure(InvalidFinishReason)
      else
      var completion := ChatCompletion(
        if s.id.Some? && s.id.value != "" then s.id.value else "",
        s.model,
        [Choice(FinishReason(s.finishReasons), 0, message)],
        0,
        "chat.completion",
        StreamUsage(s.inputTokens, s.outputTokens));
      var fnArgs := if s.fnArgs.Some? && s.fnArgs.value != map[] then s.fnArgs.value else map[];
      Success(CallResponse(completion, fnArgs, s.context))
  }

  /**
   * A stream consumed into `ConstructMessageParam(toolCalls, content)` is rebuilt into
   * a response whose message is the assistant's, with that content and exactly
   * those tool calls (none when there were none).
   */
  lemma {:induction false} ConsumedStreamRoundTrip(s: StreamState, toolCalls: Option<seq<ToolCall>>, content: Option<string>)
    requires s.messageParam == Some(ConstructMessageParam(toolCalls, content))
    requires FinishReason(s.finishReasons) in FinishReasons
    ensures ConstructCallResponse(s).Success?
    ensures var m := ConstructCallResponse(s).value.response.choices[0].message;
      m.role == PyStr("assistant") && m.content == ContentValue(content) && m.toolCalls.PyList? &&
      DecodeToolCalls(m.toolCalls.items) == Some(if toolCalls.Some? then toolCalls.value else [])
  {
    var mp := ConstructMessageParam(toolCalls, content);
    if toolCalls.Some? && toolCalls.value != [] {
      ToolCallParamsRoundTrip(toolCalls.value);
    }
  }

  /** Without usage counts the response has no usage; with any, its total is the sum of both counts. */
  lemma UsageTotals(s: StreamState)
    requires ConstructCallResponse(s).Success?
    ensures var u := ConstructCallResponse(s).value.response.usage;
      (u.None? <==> !TokensTruthy(s.inputTokens) && !TokensTruthy(s.outputTokens)) &&
      (u.Some? ==> u.value.totalTokens == TokensOrZero(s.inputTokens) + TokensOrZero(s.outputTokens))
  {
  }
}
