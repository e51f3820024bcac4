# mirascope core, modelled in Dafny

This project models three deterministic pieces of the mirascope LLM toolkit and proves properties of them.

- **Hook injection** (`mirascope/base/ops_utils.py`), module `OpsUtils`:
  - `wrap_mirascope_class_functions` replaces, in place, every public method of a class that is not on the ignore list with a `mirascope_span` wrapper.
  - `mirascope_span` picks one of four wrapper shapes from the method's calling convention: plain, coroutine, generator, async generator.
  - Each wrapper runs the before-hook, optionally inside the context manager the hook returns, then calls the method, then runs the after-hook.
  - The generator shapes collect every yielded value so the after-hook sees the whole output.
  - `get_class_vars` is modelled as well.
  - A call of a wrapper is modelled by the `SpanLog` class. Its `events` record the hook calls, entering and leaving the context, the call of the wrapped method and every value yielded to the caller.
- **Call setup and cost** (`mirascope/core/openai/_utils.py`), module `OpenAIUtils`:
  - `setup_call` copies the static call parameters and lets the dynamic configuration override them key by key.
  - It replaces the tool list, takes a non-empty returned message list over template parsing, and updates `fn_args` in place with computed fields.
  - `setup_extract` adds the JSON-mode branch.
  - `openai_api_calculate_cost` is a lookup in the pricing table.
  - `fn_args`, `call_params` and message lists are objects (`PyValues.Dict`, `PyValues.MessageList`), because the source updates and hands them back by reference.
  - Module `TextWrap` models Python's `textwrap.dedent`, which `setup_extract` applies to its JSON-mode instruction.
- **Stream reconstruction** (`mirascope/core/openai/stream.py`), module `OpenAIStream`:
  - `_construct_message_param` builds the assistant message parameter.
  - `construct_call_response` turns a consumed stream's accumulated fields into a `ChatCompletion`, with the source's defaults.

`Wrappers` holds `Option` and `Result`. `PyValues` holds the Python values passed around, plus the `dict` and `list` objects that are updated in place.

Three behaviours of the code worth stating plainly, because a reader might expect otherwise:
- Computed fields are merged into `fn_args` with `|=`, so a computed value wins over an explicit argument of the same name.
- When the dynamic configuration returns a non-empty message list, `prompt_template` is `None`; the docstring is not read at all.
- JSON mode appends a separate user message; it does not extend the last user message.

## Model

| member | source | states |
|---|---|---|
| OpsUtils.GetClassVars | mirascope/base/ops_utils.py:14-20 | Succeeds exactly when every class variable other than `api_key` is an attribute of the class. The result then holds exactly those variables with their attribute values. A failure names a missing variable. |
| OpsUtils.ShapeOf | mirascope/base/ops_utils.py:202-208 | The wrapper shape follows a fixed priority: async generator, then coroutine, then generator, else plain. Each shape is given as an if-and-only-if on the introspection flags. |
| OpsUtils.ShapeOfIntrospection | mirascope/base/ops_utils.py:202-208 | A wrapper of each shape reports a single calling convention, and that convention maps back to the same shape. |
| OpsUtils.IntrospectionOfShape | mirascope/base/ops_utils.py:202-208 | For a function with a single calling convention, the chosen shape reports exactly the function's own flags. The wrapper keeps the caller-visible convention. |
| OpsUtils.MirascopeSpan | mirascope/base/ops_utils.py:85-208 | The wrapper wraps `fn` with the given hooks, in the shape chosen from `fn`. It keeps `fn`'s name (`functools.wraps`) and, for a single-convention `fn`, its calling convention. |
| OpsUtils.WrapMemberChangesOnlyTargets | mirascope/base/ops_utils.py:242-253 | A member changes exactly when it is a function with a public name outside the ignore list. It is then replaced by a wrapper of itself. |
| OpsUtils.WrapMirascopeClassFunctions | mirascope/base/ops_utils.py:230-254 | Mutates the given class and returns that same object. The set of attribute names is kept. Every target is replaced by its span wrapper, and every other attribute is left unchanged. |
| OpsUtils.GeneratorAfterSeesYielded | mirascope/base/ops_utils.py:141-200 | In a generator wrapper's trace, the values yielded are exactly the wrapped generator's values, in order. The after-hook, if given, is called exactly once, with the list of all of them. |
| OpsUtils.GeneratorAfterFollowsYields | mirascope/base/ops_utils.py:153-170 | Every yield comes before the after-hook call. |
| OpsUtils.ValueAfterSeesResult | mirascope/base/ops_utils.py:94-139 | A plain or coroutine wrapper yields nothing. It calls the after-hook, if given, exactly once, with the wrapped function's result. |
| OpsUtils.ContextManagerBracketsCall | mirascope/base/ops_utils.py:101-108 | When the before-hook returns a context manager, the context is entered before the wrapped call. The after-hook runs inside the context with the entered value, and leaving the context is the last event. |
| OpsUtils.NoBeforeHookGivesNone | mirascope/base/ops_utils.py:96-115 | Without a before-hook, the wrapped function is called first. The after-hook receives `None` as the before value. |
| OpsUtils.SpanLog.Open | mirascope/base/ops_utils.py:96-103 | Records the before-hook call (the call's kwargs plus the custom kwargs), the context entry if any, and the wrapped call. Returns whether a context was entered and the before value the after-hook will get. |
| OpsUtils.SpanLog.Close | mirascope/base/ops_utils.py:104-108 | Records the after-hook call with the output and the before value, then the context exit, each only when it applies. |
| OpsUtils.SpanLog.CallValueWrapper | mirascope/base/ops_utils.py:94-115 | Returns the wrapped function's result unchanged. Appends exactly the value wrapper's trace to the log. |
| OpsUtils.SpanLog.YieldAll | mirascope/base/ops_utils.py:163-166 | The collected output equals the values, and one yield event is logged per value, in order. |
| OpsUtils.SpanLog.IterateGeneratorWrapper | mirascope/base/ops_utils.py:141-170 | Yields exactly the wrapped generator's values, one for one and in order. Appends exactly the generator wrapper's trace, with the after-hook given the collected list. |
| OpenAIUtils.EffectiveTools | mirascope/core/openai/_utils.py:67 | A "tools" entry in the dynamic configuration replaces the `tools` argument, even when it holds `None`. Without the entry, the argument is kept. |
| OpenAIUtils.ConvertTool | mirascope/core/openai/_utils.py:86-90 | A class is converted as a model and a function as a function; the name is kept. |
| OpenAIUtils.ToolTypesFor | mirascope/core/openai/_utils.py:84-91 | There are tool types exactly when the tool list is non-empty: one per tool, in order. |
| OpenAIUtils.CallKwargs | mirascope/core/openai/_utils.py:63-92 | The keys are those of the static parameters, the dynamic parameters, and "tools" when there are tool types. The dynamic value wins per key, static keys absent from the dynamic map keep their value, and "tools" holds the schemas. |
| OpenAIUtils.ToolSchemasFollowTools | mirascope/core/openai/_utils.py:84-92 | With non-empty tools, "tools" holds one schema per tool, in input order. |
| OpenAIUtils.NoToolsLeavesToolsKey | mirascope/core/openai/_utils.py:84-92 | With no tools or an empty list, the tool types are `None` and `setup_call` adds no "tools" key. |
| OpenAIUtils.StartCallKwargs | mirascope/core/openai/_utils.py:63-71 | A fresh copy of the call parameters, updated with the dynamic call parameters. |
| OpenAIUtils.PromptMessages | mirascope/core/openai/_utils.py:73-82 | A non-empty returned message list is handed back as the same object, with no template. Otherwise a missing docstring or a parse error fails. Otherwise computed fields are merged into `fn_args` in place, computed values winning, and the docstring is parsed against the updated arguments. |
| OpenAIUtils.SetupCall | mirascope/core/openai/_utils.py:51-94 | `call_params` is never modified. Failure happens exactly when the template must be parsed and cannot be. `fn_args` gains the computed fields exactly on the template path. The keyword arguments are a new dict following `CallKwargs`, and the tool types follow the effective tools. |
| OpenAIUtils.JsonModeMessage | mirascope/core/openai/_utils.py:118-128 | The appended message has exactly a "user" role, and its content is the corrected instruction `JsonModeInstruction` (see "## Findings"). |
| OpenAIUtils.ExtractKwargs | mirascope/core/openai/_utils.py:112-132 | In JSON mode, "tools" becomes `None`. Otherwise "tools" is the single schema and "tool_choice" is "required". Every other key keeps its value. |
| OpenAIUtils.ExtractKwargsIdempotent | mirascope/core/openai/_utils.py:112-132 | The response format is kept, so JSON mode is decided the same way again, and a second application changes nothing. |
| OpenAIUtils.FinishExtract | mirascope/core/openai/_utils.py:108-134 | Unpacking fails unless there is exactly one tool type. JSON mode holds exactly when the response format's "type" is "json_object". Then exactly one message, carrying the corrected instruction, is appended at the end; otherwise the messages are unchanged. The keyword arguments follow `ExtractKwargs`. |
| OpenAIUtils.SetupExtract | mirascope/core/openai/_utils.py:97-134 | Fails as `setup_call` does, or when the effective tools do not unpack to one tool. On success, the messages are the returned list (the same object) or the parsed ones, plus the corrected instruction in JSON mode, and the keyword arguments follow `ExtractKwargs`. A returned message list is untouched on failure, outside JSON mode, and whenever the template is parsed instead (including when the returned list is empty). |
| OpenAIUtils.DedentTemplate | mirascope/core/openai/_utils.py:121-125 | Dedenting the template text alone removes its source indentation, leaving the heading and then an empty line. |
| OpenAIUtils.DedentTemplateWithJson | mirascope/core/openai/_utils.py:121-125 | Dedenting the template with a JSON text inserted whose last line is "}" at column 0 leaves the heading indented. |
| OpenAIUtils.JsonModeInstructionText | mirascope/core/openai/_utils.py:121-125 | The corrected instruction is the heading, an empty line, then the schema's JSON unchanged. |
| OpenAIUtils.AsWrittenKeepsIndent | mirascope/core/openai/_utils.py:121-125 | For schema JSON ending in a "}" line, the instruction as written starts with 12 spaces and differs from the intended one. |
| OpenAIUtils.AsWrittenExample | mirascope/core/openai/_utils.py:121-125 | A concrete schema text on which the two instructions differ. |
| OpenAIUtils.OpenAIApiCalculateCost | mirascope/core/openai/_utils.py:162-255 | `None` exactly when usage is missing or the model is not in the table. Otherwise prompt tokens times the prompt price plus completion tokens times the completion price. |
| OpenAIUtils.PricesArePositive | mirascope/core/openai/_utils.py:182-243 | Every price in the table is positive. |
| OpenAIUtils.CostIsAdditive | mirascope/core/openai/_utils.py:251-255 | The cost of the sum of two usages is the sum of their costs. |
| OpenAIUtils.CostIsMonotone | mirascope/core/openai/_utils.py:251-255 | With non-negative counts the cost is non-negative and grows with either count. |
| OpenAIUtils.DefaultModelIsPriced | mirascope/core/openai/_utils.py:162-222 | Without a model argument, usage is priced as gpt-3.5-turbo-16k. |
| OpenAIUtils.Gpt4oExample | mirascope/core/openai/_utils.py:183-186 | gpt-4o with 1000 prompt and 500 completion tokens costs 0.0125. |
| OpenAIStream.ToolCallParamRoundTrip | mirascope/core/openai/stream.py:84-91 | A tool call's parameter has type "function" and copies id, name and arguments, so decoding it gives the call back. |
| OpenAIStream.ToolCallParamsRoundTrip | mirascope/core/openai/stream.py:82-93 | The tool-call parameters hold one entry per call, in order, and decode back to the calls. |
| OpenAIStream.ConstructMessageParam | mirascope/core/openai/stream.py:73-94 | Role is always "assistant" and content is the given one. There is a "tool_calls" key exactly when there are tool calls, and it decodes back to them. No other key exists. |
| OpenAIStream.StreamUsage | mirascope/core/openai/stream.py:111-118 | Usage is `None` exactly when both counts are missing or 0. Otherwise missing counts count as 0 and the total is prompt plus completion. |
| OpenAIStream.FinishReason | mirascope/core/openai/stream.py:123-126 | The first streamed finish reason, or "stop" when there is none. |
| OpenAIStream.ConstructCallResponse | mirascope/core/openai/stream.py:96-148 | Fails exactly when the stream was not consumed (no message parameter), the parameter has no role, the message does not validate as a `ChatCompletionMessage` (role other than "assistant", content that is neither text nor `None`, or malformed tool calls), or the finish reason is not one `Choice` allows. Each cause has its own error. Otherwise the role is "assistant" and there is one choice at index 0, with the role copied and content and tool calls defaulting to "" and []. The id defaults to "", created is 0 and object is "chat.completion". `fn_args` defaults to {} and the remaining fields are copied. |
| OpenAIStream.ConsumedStreamRoundTrip | mirascope/core/openai/stream.py:73-110 | A stream consumed into a constructed message parameter rebuilds to an assistant message with that content. Its tool calls decode back to exactly the streamed ones, or [] when there were none. |
| OpenAIStream.UsageTotals | mirascope/core/openai/stream.py:111-118 | In a reconstructed response, usage is absent exactly when no count is truthy. Otherwise the total is the sum of the two counts. |

## Findings

| source | as written | input that shows it | evidently intended | confidence | as-written member | corrected member |
|---|---|---|---|---|---|---|
| mirascope/core/openai/_utils.py:121-125 | `dedent` runs after the schema's JSON has been put into the indented template. The JSON's lines after the first carry none of the template's indentation, and its closing "}" is at column 0, so the common margin is empty and nothing is removed. | Any tool whose schema `json.dumps(..., indent=2)` prints on several lines, e.g. `{"type": "object"}`, which prints as "{", `  "type": "object"`, "}" | Dedent the template, then insert the schema. The instruction then starts with "Extract a valid JSON object instance ..." with no leading spaces. | not executed | OpenAIUtils.AsWrittenKeepsIndent | OpenAIUtils.JsonModeInstructionText |

`SetupExtract` appends the corrected instruction `JsonModeInstruction`; `AsWrittenInstruction` is what the code as written computes.

## Left out

- `get_wrapped_client`, `get_wrapped_async_client` and `get_wrapped_call` (mirascope/base/ops_utils.py:26-82): they import and call tracing SDKs (langfuse, logfire, weave).
- `inspect.getmembers`, `inspect.isfunction` and the calling-convention predicates: a method's calling convention is a given `Introspection` value.
- Member order: members are visited as a set, because wrapping one member never depends on another.
- OpsUtils.SpanLog.CallValueWrapper: when a hook is given, requires the call's keyword arguments and `custom_kwargs` to have disjoint names. Python raises `TypeError` for a repeated keyword argument in the hook call `**kwargs, **custom_kwargs`, and that error is not modelled. Without hooks no such call is made and any names are allowed.
- OpsUtils.SpanLog.IterateGeneratorWrapper: the same requirement as `CallValueWrapper`, for the same reason: disjoint names only when a hook is given, because the `TypeError` of a repeated keyword argument is not modelled.
- OpenAIUtils.JsonModeMessage: carries the corrected instruction (`JsonModeInstruction`, dedented before the schema is inserted), not the text the code computes (`AsWrittenInstruction`), which keeps 12 leading spaces for any multi-line schema; see "## Findings".
- OpenAIUtils.FinishExtract: appends `JsonModeMessage`, so in JSON mode its message content is the corrected instruction, not the one the code computes.
- OpenAIUtils.SetupExtract: appends `JsonModeMessage` through `FinishExtract`, so in JSON mode its message content is the corrected instruction, not the one the code computes.
- The async wrappers are modelled as their sync counterparts. Awaiting and concurrency are not modelled.
- A generator wrapper's body, including its before-hook, runs only at the first `next()`. The model records one complete iteration, so it captures the order of events, not when the caller triggers them.
- Exceptions from the wrapped method or the hooks, leaving the context on an exception, and generators abandoned before exhaustion are not modelled. These are runtime behaviour, not logic in the repository.
- The instance `self` and positional arguments of a wrapped call are not modelled; events carry only keyword arguments.
- `extract_tool_return` and `setup_extract_tool`: partial JSON parsing (jiter) and pydantic validation belong to foreign libraries.
- `parse_prompt_messages`, `convert_base_model_to_base_tool`, `convert_function_to_base_tool`, `tool_schema` and the JSON dump of `model_json_schema()`: their source is not part of this model. Parsing and the JSON dump are function parameters, a converted tool is a symbolic `ToolType`, and a schema is the value `PySchema`.
- `inspect.getdoc`'s cleaning of a docstring is not modelled: the decorated function carries the cleaned docstring.
- Running Python with `-O` removes the docstring assertion; the model always raises `MissingDocstring`.
- OpenAIUtils.IsJsonMode: a truthy `response_format` that is not a dictionary counts as not JSON mode. For such a value Python's `in` test and indexing search a string or list, or raise `TypeError`; the declared type is a dictionary.
- OpenAIUtils.OpenAIApiCalculateCost: computes with exact reals, not binary floating point. Prices come from the table literal, not the docstring; for "gpt-4" they differ (docstring $30/$60 per million tokens, table 0.000003/0.000006 per token).
- `OpenAIStream.cost` (mirascope/core/openai/stream.py:69-71): `calculate_cost` is not part of this model.
- How `BaseStream` accumulates chunks into the stream's fields is not modelled; `StreamState` holds the accumulated fields.
- OpenAIStream.ConstructCallResponse: pydantic validation is modelled for the role, the content's type, the tool calls' shape and the finish reason; pydantic's lax coercions and the optional fields the message parameter never carries are not modelled. A validated message keeps the raw role, content and tool-call values.
- Float token counts and the `int()` truncation applied to them: token counts are integers.
- mirascope/gemini/calls.py and mirascope/core/gemini/call_kwargs.py, and the getting-started demo script: vendor SDK calls, a type declaration and example usage.
