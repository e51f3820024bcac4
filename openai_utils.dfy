/**
 * The call-setup utilities of `mirascope/core/openai/_utils.py`: `setup_call`,
 * `setup_extract` and `openai_api_calculate_cost`.
 *
 * `fn_args` and `call_params` are `Dict` objects, because `setup_call` updates
 * `fn_args` in place and must leave `call_params` alone. A message list is a
 * `MessageList` object, because the list returned in a dynamic configuration is
 * handed back, and appended to by `setup_extract`, as that same object.
 * Prompt parsing, the tool converters, `tool_schema` and the JSON dump of a
 * tool's schema are not part of this model: parsing is a function parameter,
 * conversion yields a symbolic `ToolType`, and a schema is the value `PySchema`.
 */
module OpenAIUtils {
  import opened Wrappers
  import opened PyValues
  import TextWrap

  // ---------------------------------------------------------------------------
  // Inputs
  // ---------------------------------------------------------------------------

  /** A tool as the caller lists it: a `BaseTool` subclass or a plain function. */
  datatype ToolSource = BaseToolClass(name: string) | ToolFunction(name: string)

  /**
   * The decorated prompt function. `doc` is what `inspect.getdoc` reports for it:
   * `None` when it has no docstring.
   */
  datatype DecoratedFn = DecoratedFn(name: string, doc: Option<string>)

  /**
   * A dynamic configuration returned by the prompt function. A field is `None` when
   * its key is absent or maps to `None`, except `tools`, where `Some(None)` is a key
   * that is present with the value `None`.
   */
  datatype DynamicConfig = DynamicConfig(
    computedFields: Option<map<string, Value>>,
    tools: Option<Option<seq<ToolSource>>>,
    messages: Option<MessageList>,
    callParams: Option<map<string, Value>>)

  /**
   * `parse_prompt_messages(roles, template, attrs)`: the messages of a prompt
   * template, or the message of the error it raises.
   */
  type PromptParser = (seq<string>, string, map<string, Value>) -> Result<seq<MessageParam>, string>

  /** The roles `setup_call` lets a prompt template use. */
  const PromptRoles: seq<string> := ["system", "user", "assistant", "tool"]

  const ToolsKey: string := "tools"
  const ToolChoiceKey: string := "tool_choice"
  const ResponseFormatKey: string := "response_format"

  /** The exceptions the two setup functions raise. */
  datatype CallError =
    | MissingDocstring          // the docstring assertion fails
    | PromptError(message: string)  // prompt parsing raises
    | ToolUnpackError           // `[tool_type]` does not unpack to exactly one tool type

  /** What `setup_call` returns. */
  datatype CallSetup = CallSetup(
    promptTemplate: Option<string>,
    messages: MessageList,
    toolTypes: Option<seq<ToolType>>,
    callKwargs: Dict)

  /** What `setup_extract` returns. */
  datatype ExtractSetup = ExtractSetup(jsonMode: bool, messages: MessageList, callKwargs: Dict)

  // ---------------------------------------------------------------------------
  // Reading the dynamic configuration
  // ---------------------------------------------------------------------------

  /** The message list returned in the dynamic configuration, if any. */
  function GivenMessages(fnReturn: Option<DynamicConfig>): Option<MessageList> {
    if fnReturn.Some? then fnReturn.value.messages else None
  }

  /** The objects `GivenMessages` may point to. */
  function GivenSet(fnReturn: Option<DynamicConfig>): set<object> {
    if GivenMessages(fnReturn).Some? then {GivenMessages(fnReturn).value} else {}
  }

  /** `not messages`: no message list was returned, or the returned one is empty. */
  predicate UsesTemplate(fnReturn: Option<DynamicConfig>)
    reads GivenSet(fnReturn)
  {
    GivenMessages(fnReturn).None? || GivenMessages(fnReturn).value.items == []
  }

  /** The computed fields returned in the dynamic configuration; none when absent. */
  function ComputedFields(fnReturn: Option<DynamicConfig>): map<string, Value> {
    if fnReturn.Some? && fnReturn.value.computedFields.Some? then fnReturn.value.computedFields.value else map[]
  }

  /** The call parameters returned in the dynamic configuration, if any. */
  function DynamicParams(fnReturn: Option<DynamicConfig>): Option<map<string, Value>> {
    if fnReturn.Some? then fnReturn.value.callParams else None
  }

  /**
   * `fn_return.get("tools", tools)`: a `tools` entry of the dynamic configuration,
   * even one holding `None`, replaces the `tools` argument.
   */
  function EffectiveTools(fnReturn: Option<DynamicConfig>, tools: Option<seq<ToolSource>>): (eff: Option<seq<ToolSource>>)
    ensures fnReturn.Some? && fnReturn.value.tools.Some? ==> eff == fnReturn.value.tools.value
    ensures (fnReturn.None? || fnReturn.value.tools.None?) ==> eff == tools
  {
    if fnReturn.Some? && fnReturn.value.tools.Some? then fnReturn.value.tools.value else tools
  }

  // ---------------------------------------------------------------------------
  // Tool conversion and keyword arguments
  // ---------------------------------------------------------------------------

  /** A class is converted as a model, anything else as a function; the name is kept. */
  function ConvertTool(t: ToolSource): (tt: ToolType)
    ensures tt.FromModel? <==> t.BaseToolClass?
    ensures tt.name == t.name
  {
    match t
    case BaseToolClass(n) => FromModel(n)
    case ToolFunction(n) => FromFunction(n)
  }

  /** The tool types of `tools`, one per tool, in order. */
  function ConvertTools(tools: seq<ToolSource>): (tts: seq<ToolType>)
    ensures |tts| == |tools|
    ensures forall i :: 0 <= i < |tools| ==> tts[i] == ConvertTool(tools[i])
  {
    seq(|tools|, i requires 0 <= i < |tools| => ConvertTool(tools[i]))
  }

  /** `[tool_type.tool_schema() for tool_type in tool_types]`. */
  function Schemas(tts: seq<ToolType>): (schemas: seq<Value>)
    ensures |schemas| == |tts|
    ensures forall i :: 0 <= i < |tts| ==> schemas[i] == PySchema(tts[i])
  {
    seq(|tts|, i requires 0 <= i < |tts| => PySchema(tts[i]))
  }

  /** The tool types `setup_call` returns: `None` unless there is at least one tool. */
  function ToolTypesFor(tools: Option<seq<ToolSource>>): (r: Option<seq<ToolType>>)
    ensures r.Some? <==> tools.Some? && tools.value != []
    ensures r.Some? ==> r.value == ConvertTools(tools.value)
  {
    if tools.Some? && tools.value != [] then Some(ConvertTools(tools.value)) else None
  }

  /**
   * The keyword arguments `setup_call` returns: the static call parameters, then
   * the dynamic ones over them, then the tool schemas under "tools" when there are
   * tool types.
   */
  function CallKwargs(staticParams: map<string, Value>, dynamic: Option<map<string, Value>>, toolTypes: Option<seq<ToolType>>)
    : (r: map<string, Value>)
    ensures forall k :: k in r <==> k in staticParams || (dynamic.Some? && k in dynamic.value) || (k == ToolsKey && toolTypes.Some?)
    ensures toolTypes.Some? ==> r[ToolsKey] == PyList(Schemas(toolTypes.value))
    ensures forall k :: k in r && !(k == ToolsKey && toolTypes.Some?) ==>
      r[k] == if dynamic.Some? && k in dynamic.value then dynamic.value[k] else staticParams[k]
  {
    var merged := if dynamic.Some? then staticParams + dynamic.value else staticParams;
    if toolTypes.Some? then merged[ToolsKey := PyList(Schemas(toolTypes.value))] else merged
  }

  /**
   * Every tool gets its schema under "tools", in the order the tools were given,
   * and the tool types returned are exactly the ones those schemas belong to.
   */
  lemma ToolSchemasFollowTools(staticParams: map<string, Value>, dynamic: Option<map<string, Value>>, tools: seq<ToolSource>)
    requires tools != []
    ensures ToolTypesFor(Some(tools)).Some?
    ensures var r := CallKwargs(staticParams, dynamic, ToolTypesFor(Some(tools)));
      r[ToolsKey].PyList? && |r[ToolsKey].items| == |tools| &&
      forall i :: 0 <= i < |tools| ==> r[ToolsKey].items[i] == PySchema(ConvertTool(tools[i]))
  {
  }

  /** Without tools the keyword arguments have no "tools" entry of `setup_call`'s making. */
  lemma NoToolsLeavesToolsKey(staticParams: map<string, Value>, dynamic: Option<map<string, Value>>, tools: Option<seq<ToolSource>>)
    requires tools.None? || tools.value == []
    ensures ToolTypesFor(tools).None?
    ensures var r := CallKwargs(staticParams, dynamic, ToolTypesFor(tools));
      (ToolsKey in r <==> ToolsKey in staticParams || (dynamic.Some? && ToolsKey in dynamic.value))
  {
  }

  // ---------------------------------------------------------------------------
  // setup_call
  // ---------------------------------------------------------------------------

  /** `setup_call` fails exactly when it must parse the template and cannot. */
  predicate SetupFails(fn: DecoratedFn, fnArgs: map<string, Value>, fnReturn: Option<DynamicConfig>, parse: PromptParser)
    reads GivenSet(fnReturn)
  {
    UsesTemplate(fnReturn) && TemplateFails(fn, fnArgs, parse)
  }

  /** The docstring is missing, or parsing it against `fnArgs` raises. */
  predicate TemplateFails(fn: DecoratedFn, fnArgs: map<string, Value>, parse: PromptParser) {
    fn.doc.None? || parse(PromptRoles, fn.doc.value, fnArgs).Failure?
  }

  /**
   * `setup_call`. `fnArgs` is the model of `fn_args` (updated in place with the
   * computed fields), `callParams` the model of `call_params`, `parse` the model of
   * `parse_prompt_messages`. Its ensures say, in order: `call_params` is left
   * alone; when it fails and why; what `fn_args` becomes; the keyword arguments
   * are a new dictionary holding the static parameters overridden per key by the
   * dynamic ones, plus the tool schemas; the tool types follow the effective tools;
   * a non-empty returned message list is handed back as is, without a template,
   * while otherwise the docstring is parsed against the updated `fn_args`.
   */
  method SetupCall(fn: DecoratedFn, fnArgs: Dict, fnReturn: Option<DynamicConfig>, tools: Option<seq<ToolSource>>,
                   callParams: Dict, parse: PromptParser)
    returns (r: Result<CallSetup, CallError>)
    modifies fnArgs
    ensures callParams != fnArgs ==> unchanged(callParams)
    ensures r.Failure? <==> SetupFails(fn, fnArgs.items, fnReturn, parse)
    ensures r.Failure? ==> r.error == (if fn.doc.None? then MissingDocstring
                                       else PromptError(parse(PromptRoles, fn.doc.value, fnArgs.items).error))
    ensures fnArgs.items == if UsesTemplate(fnReturn) && fn.doc.Some? then old(fnArgs.items) + ComputedFields(fnReturn)
                            else old(fnArgs.items)
    ensures r.Success? ==> fresh(r.value.callKwargs)
    ensures r.Success? ==> r.value.toolTypes == ToolTypesFor(EffectiveTools(fnReturn, tools))
    ensures r.Success? ==> r.value.callKwargs.items == CallKwargs(old(callParams.items), DynamicParams(fnReturn), r.value.toolTypes)
    ensures r.Success? && !UsesTemplate(fnReturn) ==>
      r.value.promptTemplate.None? && Some(r.value.messages) == GivenMessages(fnReturn)
    ensures r.Success? && UsesTemplate(fnReturn) ==>
      r.value.promptTemplate == fn.doc && fn.doc.Some? && fresh(r.value.messages) &&
      r.value.messages.items == parse(PromptRoles, fn.doc.value, fnArgs.items).value
  {
    var callKwargs := StartCallKwargs(callParams, DynamicParams(fnReturn));
    var prompt := PromptMessages(fn, fnArgs, fnReturn, parse);
    if prompt.Failure? {
      return Failure(prompt.error);
    }
    var (promptTemplate, messageList) := prompt.value;
    var effectiveTools := EffectiveTools(fnReturn, tools);
    var toolTypes: Option<seq<ToolType>> := None;
    if effectiveTools.Some? && effectiveTools.value != [] {
      var tts := ConvertTools(effectiveTools.value);
      toolTypes := Some(tts);
      callKwargs.SetItem(ToolsKey, PyList(Schemas(tts)));
    }
    return Success(CallSetup(promptTemplate, messageList, toolTypes, callKwargs));
  }

  /** `call_params.copy()`, updated with the dynamic call parameters when there are any. */
  method StartCallKwargs(callParams: Dict, dynamic: Option<map<string, Value>>) returns (callKwargs: Dict)
    ensures fresh(callKwargs)
    ensures callKwargs.items == CallKwargs(callParams.items, dynamic, None)
  {
    callKwargs := callParams.Copy();
    if dynamic.Some? && dynamic.value != map[] {
      callKwargs.Update(dynamic.value);
    }
  }

  /**
   * The prompt part of `setup_call`: the returned message list when it is non-empty,
   * else the docstring (which must exist) parsed against `fn_args` after the
   * computed fields are merged into it.
   */
  method PromptMessages(fn: DecoratedFn, fnArgs: Dict, fnReturn: Option<DynamicConfig>, parse: PromptParser)
    returns (r: Result<(Option<string>, MessageList), CallError>)
    modifies fnArgs
    ensures r.Failure? <==> SetupFails(fn, fnArgs.items, fnReturn, parse)
    ensures r.Failure? ==> r.error == (if fn.doc.None? then MissingDocstring
                                       else PromptError(parse(PromptRoles, fn.doc.value, fnArgs.items).error))
    ensures fnArgs.items == if UsesTemplate(fnReturn) && fn.doc.Some? then old(fnArgs.items) + ComputedFields(fnReturn)
                            else old(fnArgs.items)
    ensures r.Success? && !UsesTemplate(fnReturn) ==>
      r.value.0.None? && Some(r.value.1) == GivenMessages(fnReturn)
    ensures r.Success? && UsesTemplate(fnReturn) ==>
      r.value.0 == fn.doc && fn.doc.Some? && fresh(r.value.1) &&
      r.value.1.items == parse(PromptRoles, fn.doc.value, fnArgs.items).value
  {
    var messages := GivenMessages(fnReturn);
    if messages.Some? && messages.value.items != [] {
      return Success((None, messages.value));
    }
    if fn.doc.None? {
      return Failure(MissingDocstring);
    }
    var computedFields := ComputedFields(fnReturn);
    if computedFields != map[] {
      fnArgs.Update(computedFields);
    }
    var parsed := parse(PromptRoles, fn.doc.value, fnArgs.items);
    if parsed.Failure? {
      return Failure(PromptError(parsed.error));
    }
    var messageList := new MessageList(parsed.value);
    return Success((fn.doc, messageList));
  }

  // ---------------------------------------------------------------------------
  // setup_extract
  // ---------------------------------------------------------------------------

  /**
   * JSON mode: the response format is truthy and is a dictionary whose "type" is
   * "json_object".
   */
  predicate IsJsonMode(responseFormat: Value) {
    Truthy(responseFormat) && responseFormat.PyDict? && "type" in responseFormat.entries && responseFormat.entries["type"] == PyStr("json_object")
  }

  /**
   * The first line of the JSON-mode instruction, "Extract a valid JSON object
   * instance from the content using this schema:", written in short pieces so that
   * the verifier can read its characters.
   */
  const JsonModeHeading: string :=
    "Extract a valid" + " JSON object" + " instance from" + " the content" + " using this" + " schema:"

  /** The indentation the instruction's lines carry in the source text. */
  const SourceIndent: string := "            "

  /**
   * The instruction's template text as written, up to where the schema's JSON is
   * inserted: the heading after the source indentation, a line holding twice that
   * indentation, and the indentation before the schema.
   */
  function InstructionTemplate(indent: string, heading: string): string {
    indent + heading + "\n" + (indent + indent) + "\n" + indent
  }

  /** A heading line: it has text, starts with a character that is not indentation, and holds no line break. */
  predicate IsHeading(heading: string) {
    heading != [] && !TextWrap.IsIndentChar(heading[0]) && '\n' !in heading
  }

  /**
   * The instruction as the source computes it: the schema's JSON is inserted into
   * the template and the whole text is dedented.
   */
  function AsWrittenInstruction(schemaJson: string): string {
    TextWrap.Dedent(InstructionTemplate(SourceIndent, JsonModeHeading) + schemaJson)
  }

  /**
   * The instruction as evidently intended, and as this model appends it: the
   * template is dedented, then the schema's JSON follows.
   */
  function JsonModeInstruction(schemaJson: string): string {
    TextWrap.Dedent(InstructionTemplate(SourceIndent, JsonModeHeading)) + schemaJson
  }

  /** The three lines of the template. */
  lemma TemplateLines(indent: string, heading: string)
    requires TextWrap.IsBlank(indent) && IsHeading(heading)
    ensures TextWrap.Lines(InstructionTemplate(indent, heading)) == [indent + heading, indent + indent, indent]
  {
    assert '\n' !in indent by {
      assert forall i :: 0 <= i < |indent| ==> indent[i] != '\n';
    }
    assert InstructionTemplate(indent, heading) == (indent + heading) + "\n" + ((indent + indent) + "\n" + indent);
    TextWrap.LinesAppend(indent + heading, (indent + indent) + "\n" + indent);
    TextWrap.LinesAppend(indent + indent, indent);
    TextWrap.LinesOfLine(indent + heading);
    TextWrap.LinesOfLine(indent + indent);
    TextWrap.LinesOfLine(indent);
  }

  /** Dedenting the template alone removes the indentation: the heading, then an empty line. */
  lemma DedentTemplate(indent: string, heading: string)
    requires TextWrap.IsBlank(indent) && IsHeading(heading)
    ensures TextWrap.Dedent(InstructionTemplate(indent, heading)) == heading + "\n\n"
  {
    TemplateLines(indent, heading);
    var ls := TextWrap.Lines(InstructionTemplate(indent, heading));
    assert (indent + heading)[|indent|] == heading[0];
    assert !TextWrap.IsBlank(indent + heading);
    assert TextWrap.IsBlank(indent + indent);
    assert TextWrap.Margin(ls[1..]).None?;
    TextWrap.IndentAfterPad(indent, heading);
    assert TextWrap.Indent(heading) == "";
    assert TextWrap.Indent(ls[0]) == indent;
    assert TextWrap.Margin(ls) == Some(indent);
    assert (indent + heading)[|indent|..] == heading;
    var out := seq(|ls|, i requires 0 <= i < |ls| => TextWrap.DedentLine(ls[i], indent));
    assert out == [heading, "", ""];
    assert out[1..] == ["", ""] && out[1..][1..] == [""];
    assert TextWrap.Join(out[1..]) == "\n";
    assert TextWrap.Join(out) == heading + "\n" + "\n";
  }

  /**
   * With JSON inserted whose last line is "}" at the first column, no margin is
   * common to all lines, so the heading keeps its indentation.
   */
  lemma DedentTemplateWithJson(indent: string, heading: string, schemaJson: string)
    requires TextWrap.IsBlank(indent) && IsHeading(heading)
    requires |schemaJson| >= 2 && schemaJson[|schemaJson| - 2..] == "\n}"
    ensures indent + heading + "\n" <= TextWrap.Dedent(InstructionTemplate(indent, heading) + schemaJson)
  {
    var body := schemaJson[..|schemaJson| - 2];
    var first := indent + heading;
    var text := InstructionTemplate(indent, heading) + schemaJson;
    assert '\n' !in indent by {
      assert forall i :: 0 <= i < |indent| ==> indent[i] != '\n';
    }
    assert text == first + "\n" + ((indent + indent) + "\n" + ((indent + body) + "\n" + "}"));
    TextWrap.LinesAppend(first, (indent + indent) + "\n" + ((indent + body) + "\n" + "}"));
    TextWrap.LinesAppend(indent + indent, (indent + body) + "\n" + "}");
    TextWrap.LinesAppend(indent + body, "}");
    TextWrap.LinesOfLine(first);
    TextWrap.LinesOfLine("}");
    var ls := TextWrap.Lines(text);
    assert ls[0] == first;
    assert ls[|ls| - 1] == "}";
    assert !TextWrap.IsBlank("}") && TextWrap.Indent("}") == "";
    TextWrap.UnindentedLineKeepsAll(ls, |ls| - 1);
    assert first[|indent|] == heading[0];
    var out := seq(|ls|, i requires 0 <= i < |ls| => TextWrap.DedentLine(ls[i], ""));
    assert out[0] == first;
    assert TextWrap.Join(out) == out[0] + "\n" + TextWrap.Join(out[1..]);
  }

  /** The source's indentation and heading fit the lemmas above. */
  lemma SourceTemplateShape()
    ensures TextWrap.IsBlank(SourceIndent) && |SourceIndent| == 12 && IsHeading(JsonModeHeading)
    ensures JsonModeHeading[0] == 'E'
  {
  }

  /**
   * The intended instruction starts at the first column: the heading, an empty
   * line, then the schema's JSON unchanged.
   */
  lemma JsonModeInstructionText(schemaJson: string)
    ensures JsonModeInstruction(schemaJson) == JsonModeHeading + "\n\n" + schemaJson
  {
    SourceTemplateShape();
    DedentTemplate(SourceIndent, JsonModeHeading);
  }

  /**
   * The schema's JSON is indented by two spaces per level and closes with "}" at
   * the first column, so the margin common to all lines is empty: the as-written
   * instruction keeps the source text's 12 spaces before the heading, and so
   * differs from the intended one.
   */
  lemma AsWrittenKeepsIndent(schemaJson: string)
    requires |schemaJson| >= 2 && schemaJson[|schemaJson| - 2..] == "\n}"
    ensures SourceIndent + JsonModeHeading + "\n" <= AsWrittenInstruction(schemaJson)
    ensures AsWrittenInstruction(schemaJson) != JsonModeInstruction(schemaJson)
  {
    SourceTemplateShape();
    DedentTemplateWithJson(SourceIndent, JsonModeHeading, schemaJson);
    JsonModeInstructionText(schemaJson);
    assert AsWrittenInstruction(schemaJson)[0] == ' ';
    assert JsonModeInstruction(schemaJson)[0] == 'E';
  }

  /** An instance: the schema of an object with one "type" entry, dumped with an indent of 2. */
  lemma AsWrittenExample()
    ensures AsWrittenInstruction("{\n  \"type\": \"object\"\n}") != JsonModeInstruction("{\n  \"type\": \"object\"\n}")
  {
    AsWrittenKeepsIndent("{\n  \"type\": \"object\"\n}");
  }

  /** The user message appended in JSON mode. */
  function JsonModeMessage(schemaJson: string): (m: MessageParam)
    ensures m.Keys == {"role", "content"}
    ensures m["role"] == PyStr("user") && m["content"] == PyStr(JsonModeInstruction(schemaJson))
  {
    map["role" := PyStr("user"), "content" := PyStr(JsonModeInstruction(schemaJson))]
  }

  /**
   * The keyword arguments `setup_extract` returns, from those `setup_call` returned
   * for the single tool type `toolType`: in JSON mode "tools" becomes `None`;
   * otherwise "tools" holds that one schema and "tool_choice" is "required". Every
   * other key keeps its value.
   */
  function ExtractKwargs(kwargs: map<string, Value>, toolType: ToolType): (r: map<string, Value>)
    ensures IsJsonMode(GetOr(kwargs, ResponseFormatKey, PyNone)) ==>
      r.Keys == kwargs.Keys + {ToolsKey} && r[ToolsKey] == PyNone
    ensures !IsJsonMode(GetOr(kwargs, ResponseFormatKey, PyNone)) ==>
      r.Keys == kwargs.Keys + {ToolsKey, ToolChoiceKey} &&
      r[ToolsKey] == PyList([PySchema(toolType)]) && r[ToolChoiceKey] == PyStr("required")
    ensures forall k :: k in kwargs && k != ToolsKey && k != ToolChoiceKey ==> r[k] == kwargs[k]
    ensures IsJsonMode(GetOr(kwargs, ResponseFormatKey, PyNone)) && ToolChoiceKey in kwargs ==>
      r[ToolChoiceKey] == kwargs[ToolChoiceKey]
  {
    if IsJsonMode(GetOr(kwargs, ResponseFormatKey, PyNone)) then kwargs[ToolsKey := PyNone]
    else kwargs[ToolsKey := PyList([PySchema(toolType)])][ToolChoiceKey := PyStr("required")]
  }

  /**
   * `setup_extract` keeps the response format, so it decides JSON mode the same way
   * on its own output, and applying it twice changes nothing more.
   */
  lemma {:induction false} ExtractKwargsIdempotent(kwargs: map<string, Value>, toolType: ToolType)
    ensures var once := ExtractKwargs(kwargs, toolType);
      IsJsonMode(GetOr(once, ResponseFormatKey, PyNone)) == IsJsonMode(GetOr(kwargs, ResponseFormatKey, PyNone)) &&
      ExtractKwargs(once, toolType) == once
  {
    var once := ExtractKwargs(kwargs, toolType);
    assert GetOr(once, ResponseFormatKey, PyNone) == GetOr(kwargs, ResponseFormatKey, PyNone);
    var twice := ExtractKwargs(once, toolType);
    assert twice.Keys == once.Keys;
    assert forall k :: k in once ==> twice[k] == once[k];
  }

  /** A tool list that unpacks as `[tool_type]`: exactly one tool. */
  predicate IsOneTool(tools: Option<seq<ToolSource>>) {
    tools.Some? && |tools.value| == 1
  }

  /** The tool type `[tool_type]` unpacks to. */
  function ExtractToolType(fnReturn: Option<DynamicConfig>, tool: ToolSource): ToolType
    requires IsOneTool(EffectiveTools(fnReturn, Some([tool])))
  {
    ConvertTool(EffectiveTools(fnReturn, Some([tool])).value[0])
  }

  /** The keyword arguments `setup_call` returns to `setup_extract` when unpacking succeeds. */
  function SetupKwargs(callParams: map<string, Value>, fnReturn: Option<DynamicConfig>, tool: ToolSource): map<string, Value>
    requires IsOneTool(EffectiveTools(fnReturn, Some([tool])))
  {
    CallKwargs(callParams, DynamicParams(fnReturn), Some([ExtractToolType(fnReturn, tool)]))
  }

  /** What JSON mode appends to the messages. */
  function Appended(jsonMode: bool, schemaJson: string): seq<MessageParam> {
    if jsonMode then [JsonModeMessage(schemaJson)] else []
  }

  /**
   * `setup_extract`. It runs `setup_call` with the single tool `tool`, so its
   * failures are those of `setup_call` plus the unpacking of `[tool_type]`, which
   * fails unless the effective tool list (a dynamic "tools" entry overrides `[tool]`)
   * holds exactly one tool. In JSON mode one user message carrying the
   * instruction is appended to the end of the message list (which may be the
   * list of the dynamic configuration) and tools are cleared; otherwise the
   * messages are unchanged and the single schema is required.
   * `schemaJson` is the model of the JSON dump of a tool type's schema.
   */
  method SetupExtract(fn: DecoratedFn, fnArgs: Dict, fnReturn: Option<DynamicConfig>, tool: ToolSource,
                      callParams: Dict, parse: PromptParser, schemaJson: ToolType -> string)
    returns (r: Result<ExtractSetup, CallError>)
    modifies fnArgs, GivenSet(fnReturn)
    ensures callParams != fnArgs ==> unchanged(callParams)
    ensures fnArgs.items == if old(UsesTemplate(fnReturn)) && fn.doc.Some? then old(fnArgs.items) + ComputedFields(fnReturn)
                            else old(fnArgs.items)
    ensures r.Failure? <==>
      (old(UsesTemplate(fnReturn)) && TemplateFails(fn, fnArgs.items, parse)) || !IsOneTool(EffectiveTools(fnReturn, Some([tool])))
    ensures r.Failure? ==>
      (r.error == ToolUnpackError <==> !(old(UsesTemplate(fnReturn)) && TemplateFails(fn, fnArgs.items, parse)))
    ensures r.Success? ==> IsOneTool(EffectiveTools(fnReturn, Some([tool]))) && fresh(r.value.callKwargs)
    ensures r.Success? ==>
      r.value.jsonMode == IsJsonMode(GetOr(SetupKwargs(old(callParams.items), fnReturn, tool), ResponseFormatKey, PyNone))
    ensures r.Success? ==>
      r.value.callKwargs.items == ExtractKwargs(SetupKwargs(old(callParams.items), fnReturn, tool), ExtractToolType(fnReturn, tool))
    ensures r.Success? && old(UsesTemplate(fnReturn)) ==>
      fresh(r.value.messages) &&
      r.value.messages.items == parse(PromptRoles, fn.doc.value, fnArgs.items).value
                                + Appended(r.value.jsonMode, schemaJson(ExtractToolType(fnReturn, tool)))
    ensures r.Success? && !old(UsesTemplate(fnReturn)) ==>
      Some(r.value.messages) == GivenMessages(fnReturn) &&
      r.value.messages.items == old(GivenMessages(fnReturn).value.items)
                                + Appended(r.value.jsonMode, schemaJson(ExtractToolType(fnReturn, tool)))
    ensures forall m :: m in GivenSet(fnReturn) && (r.Failure? || !r.value.jsonMode || old(UsesTemplate(fnReturn))) ==> unchanged(m)
  {
    var setup := SetupCall(fn, fnArgs, fnReturn, Some([tool]), callParams, parse);
    assert UsesTemplate(fnReturn) == old(UsesTemplate(fnReturn));
    if setup.Failure? {
      return Failure(setup.error);
    }
    ghost var argsAfterSetup := fnArgs.items;
    ghost var messagesBefore := setup.value.messages.items;
    assert !UsesTemplate(fnReturn) ==> messagesBefore == old(GivenMessages(fnReturn).value.items);
    r := FinishExtract(setup.value, schemaJson);
    assert fnArgs.items == argsAfterSetup;
    if r.Success? {
      assert setup.value.toolTypes.value == [ExtractToolType(fnReturn, tool)];
    }
  }

  /**
   * The part of `setup_extract` after `setup_call`: unpack the single tool type,
   * decide JSON mode from the response format, then append the instruction and
   * clear tools, or require the single tool.
   */
  method FinishExtract(s: CallSetup, schemaJson: ToolType -> string) returns (r: Result<ExtractSetup, CallError>)
    modifies s.messages, s.callKwargs
    ensures r.Failure? <==> !(s.toolTypes.Some? && |s.toolTypes.value| == 1)
    ensures r.Failure? ==> r.error == ToolUnpackError && unchanged(s.callKwargs)
    ensures r.Success? ==>
      var toolType := s.toolTypes.value[0];
      r.value.messages == s.messages && r.value.callKwargs == s.callKwargs &&
      r.value.jsonMode == IsJsonMode(GetOr(old(s.callKwargs.items), ResponseFormatKey, PyNone)) &&
      s.callKwargs.items == ExtractKwargs(old(s.callKwargs.items), toolType) &&
      s.messages.items == old(s.messages.items) + Appended(r.value.jsonMode, schemaJson(toolType))
    ensures (r.Failure? || !r.value.jsonMode) ==> unchanged(s.messages)
  {
    if s.toolTypes.None? || |s.toolTypes.value| != 1 {
      return Failure(ToolUnpackError);
    }
    var toolType := s.toolTypes.value[0];
    var responseFormat := GetOr(s.callKwargs.items, ResponseFormatKey, PyNone);
    var jsonMode := IsJsonMode(responseFormat);
    if jsonMode {
      s.messages.Append(JsonModeMessage(schemaJson(toolType)));
      s.callKwargs.SetItem(ToolsKey, PyNone);
    } else {
      s.callKwargs.SetItem(ToolsKey, PyList([PySchema(toolType)]));
      s.callKwargs.SetItem(ToolChoiceKey, PyStr("required"));
    }
    return Success(ExtractSetup(jsonMode, s.messages, s.callKwargs));
  }

  // ---------------------------------------------------------------------------
  // openai_api_calculate_cost
  // ---------------------------------------------------------------------------

  /** The token counts of a completion (`CompletionUsage`). */
  datatype Usage = Usage(promptTokens: int, completionTokens: int)

  /** Dollars per prompt token and per completion token. */
  datatype ModelPricing = ModelPricing(prompt: real, completion: real)

  /** The pricing table of `openai_api_calculate_cost`, in dollars per token. */
  const Pricing: map<string, ModelPricing> := map[
    "gpt-4o" := ModelPricing(0.000005, 0.000015),
    "gpt-4o-2024-05-13" := ModelPricing(0.000005, 0.000015),
    "gpt-4-turbo" := ModelPricing(0.00001, 0.00003),
    "gpt-4-turbo-2024-04-09" := ModelPricing(0.00001, 0.00003),
    "gpt-3.5-turbo-0125" := ModelPricing(0.0000005, 0.0000015),
    "gpt-3.5-turbo-1106" := ModelPricing(0.000001, 0.000002),
    "gpt-4-1106-preview" := ModelPricing(0.00001, 0.00003),
    "gpt-4" := ModelPricing(0.000003, 0.000006),
    "gpt-3.5-turbo-4k" := ModelPricing(0.000015, 0.00002),
    "gpt-3.5-turbo-16k" := ModelPricing(0.000003, 0.000004),
    "gpt-4-8k" := ModelPricing(0.000003, 0.000006),
    "gpt-4-32k" := ModelPricing(0.000006, 0.000012),
    "text-embedding-3-small" := ModelPricing(0.00000002, 0.00000002),
    "text-embedding-ada-002" := ModelPricing(0.0000001, 0.0000001),
    "text-embedding-3-large" := ModelPricing(0.00000013, 0.00000013)
  ]

  /** The model `openai_api_calculate_cost` prices when none is given. */
  const DefaultCostModel: string := "gpt-3.5-turbo-16k"

  /**
   * `openai_api_calculate_cost`: `None` without usage or for a model missing from
   * the table, else the prompt tokens at the prompt price plus the completion
   * tokens at the completion price.
   */
  function OpenAIApiCalculateCost(usage: Option<Usage>, model: string := DefaultCostModel): (cost: Option<real>)
    ensures cost.None? <==> usage.None? || model !in Pricing
    ensures cost.Some? ==>
      cost.value == usage.value.promptTokens as real * Pricing[model].prompt
                  + usage.value.completionTokens as real * Pricing[model].completion
  {
    if usage.None? then None
    else if model !in Pricing then None
    else
      var pricing := Pricing[model];
      var promptCost := usage.value.promptTokens as real * pricing.prompt;
      var completionCost := usage.value.completionTokens as real * pricing.completion;
      Some(promptCost + completionCost)
  }

  /** Every price in the table is positive. */
  lemma PricesArePositive(model: string)
    requires model in Pricing
    ensures Pricing[model].prompt > 0.0 && Pricing[model].completion > 0.0
  {
  }

  /** Costs add up: pricing two usages separately gives the cost of their sum. */
  lemma CostIsAdditive(a: Usage, b: Usage, model: string)
    requires model in Pricing
    ensures var sum := Usage(a.promptTokens + b.promptTokens, a.completionTokens + b.completionTokens);
      OpenAIApiCalculateCost(Some(sum), model).value
        == OpenAIApiCalculateCost(Some(a), model).value + OpenAIApiCalculateCost(Some(b), model).value
  {
  }

  /** With non-negative token counts the cost is non-negative and grows with either count. */
  lemma CostIsMonotone(a: Usage, b: Usage, model: string)
    requires model in Pricing
    requires 0 <= a.promptTokens <= b.promptTokens && 0 <= a.completionTokens <= b.completionTokens
    ensures 0.0 <= OpenAIApiCalculateCost(Some(a), model).value <= OpenAIApiCalculateCost(Some(b), model).value
  {
    PricesArePositive(model);
    var p := Pricing[model];
    assert a.promptTokens as real * p.prompt <= b.promptTokens as real * p.prompt;
    assert a.completionTokens as real * p.completion <= b.completionTokens as real * p.completion;
  }

  /** The default model is priced, so usage alone is enough for a cost. */
  lemma DefaultModelIsPriced(usage: Usage)
    ensures OpenAIApiCalculateCost(Some(usage)) == Some(usage.promptTokens as real * 0.000003 + usage.completionTokens as real * 0.000004)
  {
  }

  /** 1000 prompt and 500 completion tokens of gpt-4o cost 1.25 cents. */
  lemma Gpt4oExample()
    ensures OpenAIApiCalculateCost(Some(Usage(1000, 500)), "gpt-4o") == Some(0.0125)
  {
  }
}
