# openai-agents-laravel, modelled in Dafny

This project models the core of `openai-agents-laravel`, a Laravel port of the OpenAI Agents SDK, and proves properties of that model.

- **The run loop.** `Runner::run` is a class method with its loop. It opens a trace span per agent segment and checks the turn limit. The starting agent's input guardrails run on the first turn only. Each model output is classified as a handoff, tool calls or a final output. Tools are dispatched by first-match name. A final output goes through the output guardrails. The `finally` block finishes the open span and the trace.
- **The run's contract.** `Run`'s contract relates the result to the history of completed turns and states the trace calls the run makes.
- **Streaming.** `runStreamed` builds a `RunResultStreaming`. Its `wait` runs the loop once.
- **Values and records.**
  - Items and their input forms.
  - The usage counters and the run context.
  - Model settings and their merge.
  - Agents with their fluent setters and `clone`.
  - Handoffs, tools with parameter-schema inference, and guardrail verdicts.
  - The run configuration.
  - The trace and its spans.
- **The chat-completions model.** It shapes requests: messages, tools, response format and parameters. It folds a streamed reply into chunk events and one completion event.

PHP `mixed` is the `Values.Value` datatype: null, bool, int, float, string, list, map. A float is opaque text. Nothing does arithmetic on floats.

These are parameters, not modelled code:
- the clock, the uuid generator and the application configuration (`config(...)`);
- the model provider, the model call, the tool callbacks, the guardrail checks and the instruction closures;
- the HTTP client of the chat-completions model.

Modules follow the source files:

| module | file | models |
|---|---|---|
| `Values` | `values.dfy` | the JSON-like `Value` |
| `Usages` | `usage.dfy` | `Items\Usage` |
| `Contexts` | `run_context.dfy` | `RunContext` |
| `Settings` | `model_settings.dfy` | `Models\ModelSettings` |
| `Tools` | `tool.dfy` | `Tools\Tool` |
| `RunItems` | `run_item.dfy` | `Items\RunItem` |
| `ItemHelpers` | `item_helpers.dfy` | `Items\ItemHelpers` |
| `Results` | `run_result.dfy` | `Result\RunResult` |
| `Guardrails` | `guardrails.dfy` | `GuardrailOutput` and the two result pairs |
| `RunConfigs` | `run_config.dfy` | `RunConfig` |
| `Spans` | `trace_span.dfy` | `Tracing\TraceSpan` |
| `Tracing` | `trace.dfy` | `Tracing\Trace` |
| `Agents` | `agent.dfy` | `Agent` and `Handoffs\Handoff`, whose types refer to each other |
| `ChatCompletions` | `chat_completions.dfy` | `Models\OpenAIChatCompletionsModel` |
| `Runners` | `runner.dfy` | the pure parts of `Runner`, the guardrail and tool loops, and the run's history and outcome |
| `RunnerClass` | `runner_class.dfy` | the `Runner` object with `run` and `runStreamed`, and `Result\RunResultStreaming`; they refer to each other |

## Model

| member | source | states |
|---|---|---|
| Usages.TotalOrSum | src/Items/Usage.php:52 | a non-zero total is kept; a zero total becomes input plus output tokens |
| Usages.Usage.constructor | src/Items/Usage.php:43-53 | the four counters are the arguments, with the total defaulted as `TotalOrSum` says |
| Usages.Usage.Empty | src/Items/Usage.php:12-33 | a usage made with no arguments has every counter at zero |
| Usages.Usage.Add | src/Items/Usage.php:61-69 | the object's counters become the field-wise sum of both objects' earlier counters, and the object itself is returned |
| Usages.SumIdentity | src/Items/Usage.php:61-69 | adding an empty usage changes nothing, on either side |
| Usages.SumAssociativeCommutative | src/Items/Usage.php:61-69 | accumulated usage does not depend on the grouping or order of the additions |
| Usages.BalancedPreserved | src/Items/Usage.php:52-66 | a usage built without a total has total = input + output, and adding two such usages keeps that |
| Contexts.RunContext.constructor | src/RunContext.php:28-32 | the wrapper holds the given value and a fresh usage at zero |
| Contexts.RunContext.SetContext | src/RunContext.php:50-54 | the value is replaced and the wrapper itself is returned |
| Contexts.RunContext.AddUsage | src/RunContext.php:72-76 | the wrapper's usage becomes the sum of its earlier counters and the added ones; the value is untouched |
| Settings.ModelSettings.Resolve | src/Models/ModelSettings.php:198-231 | the clone-and-copy of every non-null field of the other object is the field-wise `merge` (lines 176-190) |
| Settings.MergeOverrideWins | src/Models/ModelSettings.php:176-190 | each field of a merge is the other object's value when that is non-null, and the receiver's otherwise |
| Settings.MergeIdentity | src/Models/ModelSettings.php:176-190 | merging with no object, with an all-null object, or into an all-null object gives the same settings back |
| Settings.MergeIdempotent | src/Models/ModelSettings.php:176-190 | merging settings with themselves changes nothing |
| Settings.MergeAssociative | src/Models/ModelSettings.php:176-190 | merging with b and then c equals merging with b already merged with c |
| Settings.WithIsOneFieldMerge | src/Models/ModelSettings.php:98-168 | each `with*` copy equals a merge with an object that sets only that one field |
| Settings.ModelSettings.ToArray | src/Models/ModelSettings.php:298-323 | a request key is present exactly when its field is non-null, with that field's value; the timeout never appears; the map is `Fields()` |
| Settings.FieldsDetermined | src/Models/ModelSettings.php:298-323 | any map with the keys and values `toArray` promises is exactly `Fields()` |
| Tools.JsonType | src/Tools/Tool.php:169-193 | `int`, `float`, `bool` and `array` map to `integer`, `number`, `boolean` and `array`; every other type, and no named type, maps to `string`, in both directions |
| Tools.InferParameters | src/Tools/Tool.php:130-161 | the one-pass loop computes `InferredSchema`: the context parameter dropped, an empty object for no arguments, else `properties` and `required` |
| Tools.NewTool | src/Tools/Tool.php:49-55 | name, description and callback are kept; given parameters are kept as they are, null ones are inferred from the callback |
| Tools.PropertiesOfEntries | src/Tools/Tool.php:145-154 | `properties` has one key per parameter name, and a parameter not shadowed by a later one of the same name has its own schema there |
| Tools.PropertiesOfKeys | src/Tools/Tool.php:148-150 | the keys of `properties` are exactly the parameters' names |
| Tools.PropertiesOfEntry | src/Tools/Tool.php:148-150 | parameter `i`'s schema is under its name when no later parameter reuses the name |
| Tools.RequiredOfExactly | src/Tools/Tool.php:151-153 | `required` holds a name exactly when a non-optional parameter has it, and is every name in order when none is optional |
| Tools.NoArgumentsSchema | src/Tools/Tool.php:136-143 | a callback with at most the context parameter gets `{type: object, properties: []}` and no `required` |
| Tools.ContextParameterIgnored | src/Tools/Tool.php:135-136 | callbacks differing only in their first parameter get the same schema |
| RunItems.InputItemKeys | src/Items/RunItem.php:58-84 | each kind of item becomes a message with exactly its keys; only an item of an unknown type gets no `role`, and it keeps its type and content |
| RunItems.InputItemRoundTrip | src/Items/RunItem.php:58-84 | an item whose payload fits its message reads back from that message as the same item |
| RunItems.AssistantTextPayloadCollapses | src/Items/RunItem.php:60-65 | an assistant text and an assistant payload holding just that text become the same message |
| RunItems.NonNullOfPayload | src/Items/RunItem.php:63-71 | reading a message's fields back under the item's keys recovers a payload of non-null values |
| ItemHelpers.InputToNewInputList | src/Items/ItemHelpers.php:13-25 | a text becomes one user message with that content; a message list comes back unchanged |
| ItemHelpers.TextMessageOutputs | src/Items/ItemHelpers.php:33-50 | the loop's result is the assistant items' texts, in item order, joined with newlines |
| ItemHelpers.ContributionsAppend | src/Items/ItemHelpers.php:37-47 | the texts of two concatenated item lists are the two lists' texts concatenated |
| ItemHelpers.NoAssistantNoText | src/Items/ItemHelpers.php:38 | a list with no assistant message yields the empty text |
| ItemHelpers.JoinSnoc | src/Items/ItemHelpers.php:49 | one more part is added after a newline, or alone to an empty list |
| ItemHelpers.SingleAssistantText | src/Items/ItemHelpers.php:38-45 | one assistant text comes back verbatim; an item that contributes nothing changes nothing |
| Results.RunResult.GetTextOutput | src/Result/RunResult.php:167-174 | a string final output is returned as it is; otherwise the result is the new items' assistant texts joined with newlines |
| Results.NewRunResult | src/Result/RunResult.php:74-90 | the five given arguments are stored, and both guardrail result lists default to empty |
| Guardrails.Passed | src/Guardrails/GuardrailOutput.php:39-42 | a passed verdict has its tripwire not triggered and keeps the given message |
| Guardrails.Failed | src/Guardrails/GuardrailOutput.php:50-53 | a failed verdict has its tripwire triggered and carries the given message |
| RunConfigs.InitialState | src/RunConfig.php:20-107 | a new configuration has no model, settings, filter, guardrails, ids or metadata, the workflow name `Agent workflow` and the container's provider; tracing is off exactly when `agents.tracing.enabled` is present and falsy; the sensitive-data flag is the configured value, default false |
| RunConfigs.RunConfig.constructor | src/RunConfig.php:102-107 | the new object's fields are `InitialState` of the application configuration |
| RunConfigs.RunConfig.WithModel | src/RunConfig.php:115-119 | only `model` changes, to the argument, and the same object is returned |
| RunConfigs.RunConfig.WithModelProvider | src/RunConfig.php:127-131 | only `modelProvider` changes, to the argument, and the same object is returned |
| RunConfigs.RunConfig.WithModelSettings | src/RunConfig.php:139-143 | only `modelSettings` changes, to the argument, and the same object is returned |
| RunConfigs.RunConfig.WithHandoffInputFilter | src/RunConfig.php:151-155 | only `handoffInputFilter` changes, to the argument, and the same object is returned |
| RunConfigs.RunConfig.WithInputGuardrails | src/RunConfig.php:163-167 | only `inputGuardrails` changes, to the argument, and the same object is returned |
| RunConfigs.RunConfig.WithOutputGuardrails | src/RunConfig.php:175-179 | only `outputGuardrails` changes, to the argument, and the same object is returned |
| RunConfigs.RunConfig.WithTracingDisabled | src/RunConfig.php:187-191 | only `tracingDisabled` changes, to the argument (default true), and the same object is returned |
| RunConfigs.RunConfig.WithTraceIncludeSensitiveData | src/RunConfig.php:199-203 | only `traceIncludeSensitiveData` changes, to the argument (default true), and the same object is returned |
| RunConfigs.RunConfig.WithWorkflowName | src/RunConfig.php:211-215 | only `workflowName` changes, to the argument, and the same object is returned |
| RunConfigs.RunConfig.WithTraceId | src/RunConfig.php:223-227 | only `traceId` changes, to the argument, and the same object is returned |
| RunConfigs.RunConfig.WithGroupId | src/RunConfig.php:235-239 | only `groupId` changes, to the argument, and the same object is returned |
| RunConfigs.RunConfig.WithTraceMetadata | src/RunConfig.php:247-251 | only `traceMetadata` changes, to the argument, and the same object is returned |
| Spans.WithError | src/Tracing/TraceSpan.php:81-89 | one error entry with the message and data is appended; every other part of the span is unchanged |
| Spans.Finished | src/Tracing/TraceSpan.php:97-101 | the end time becomes the given time, possibly overwriting an earlier one; nothing else changes |
| Spans.TraceSpan.constructor | src/Tracing/TraceSpan.php:65-72 | a new span holds its id, name, type, start time and attributes, with no end time and no errors |
| Spans.TraceSpan.AddError | src/Tracing/TraceSpan.php:81-89 | the span's state becomes `WithError` of its earlier state, and the span itself is returned |
| Spans.TraceSpan.Finish | src/Tracing/TraceSpan.php:97-101 | the span's state becomes `Finished` of its earlier state, the span is returned, and its duration is then end minus start |
| Spans.TraceSpan.GetDuration | src/Tracing/TraceSpan.php:178-185 | no duration exactly while unfinished; otherwise start plus duration is the end time |
| Tracing.BroadcastEach | src/Tracing/Trace.php:121-123 | a notification goes to every processor, one each, in processor order |
| Tracing.SpanFiled | src/Tracing/Trace.php:157 | filing a span under a new id adds exactly one entry to the span map |
| Tracing.Trace.constructor | src/Tracing/Trace.php:15-98 | a new trace is enabled, has no identity, times or spans, and has the log processor as its one processor |
| Tracing.Trace.ReadClock | src/Tracing/Trace.php:252-255 | the time returned is the clock's next reading, and one more reading is counted |
| Tracing.Trace.NewUuid | src/Tracing/Trace.php:116 | the id is the generator's next draw, and no span is filed under it yet |
| Tracing.Trace.Notify | src/Tracing/Trace.php:121-123 | the processors are told the event, once each, in order, after everything told before |
| Tracing.Trace.Start | src/Tracing/Trace.php:109-126 | a disabled trace changes nothing; otherwise the identity is stored (a fresh uuid when no id is given), the start time is one clock reading, and the processors are told with those values |
| Tracing.Trace.StartAgentSpan | src/Tracing/Trace.php:137-165 | a disabled trace returns "" and changes nothing; otherwise a new `agent` span with the given attributes is filed under a fresh id and made current; a started trace then announces it with its trace id and returns the id, while a trace never started fails with a type error and tells no one |
| Tracing.Trace.AddErrorToSpan | src/Tracing/Trace.php:175-189 | with a trace that is enabled and a known id, that span gets the error appended; a started trace then tells the processors, one never started fails with a type error and tells no one; otherwise nothing changes |
| Tracing.Trace.FinishSpan | src/Tracing/Trace.php:197-213 | with a trace that is enabled and a known id, that span's end time is one clock reading; a started trace then tells the processors and no span is current, one never started fails with a type error, tells no one and keeps its current span; otherwise nothing changes |
| Tracing.Trace.Finish | src/Tracing/Trace.php:220-233 | an enabled trace records one clock reading as its end; a started one then hands all spans and the time since its start to the processors, one never started fails with a type error and tells no one; a disabled one changes nothing |
| Tracing.Trace.SetDisabled | src/Tracing/Trace.php:241-245 | only the flag changes, and the trace itself is returned |
| Agents.NewHandoff | src/Handoffs/Handoff.php:45-51 | the handoff points at the agent and copies its name; the description is the given one, else the agent's handoff description, else `Handoff to <name> agent` |
| Agents.WithInputFilterKeeps | src/Handoffs/Handoff.php:99-120 | a copy with a filter keeps target, name and description, and its input is then what the filter returns; without a filter the input passes unchanged |
| Agents.Agent.constructor | src/Agent.php:92-100 | a new agent has the name, instructions and settings (the container's when none are given), and every other field at its default |
| Agents.Agent.WithHandoffDescription | src/Agent.php:108-112 | only the handoff description changes, and the agent itself is returned |
| Agents.Agent.WithHandoffs | src/Agent.php:120-124 | only the handoff list changes, and the agent itself is returned |
| Agents.Agent.WithModel | src/Agent.php:132-136 | only the model changes, and the agent itself is returned |
| Agents.Agent.WithModelSettings | src/Agent.php:144-148 | only the model settings change, and the agent itself is returned |
| Agents.Agent.WithTools | src/Agent.php:156-160 | only the tool list changes, and the agent itself is returned |
| Agents.Agent.WithInputGuardrails | src/Agent.php:168-172 | only the input guardrails change, and the agent itself is returned |
| Agents.Agent.WithOutputGuardrails | src/Agent.php:180-184 | only the output guardrails change, and the agent itself is returned |
| Agents.Agent.WithOutputType | src/Agent.php:192-196 | only the output type changes, and the agent itself is returned |
| Agents.Agent.Clone | src/Agent.php:204-221 | a fresh agent whose state is the receiver's with the attributes assigned in order |
| Agents.Agent.Assign | src/Agent.php:216-218 | one attribute assignment changes the named property to the value and nothing else |
| Agents.ApplyAttributesAppend | src/Agent.php:206-218 | no attributes copy every field; attribute lists apply in order, so a later assignment wins |
| Agents.Agent.AsTool | src/Agent.php:231-247 | the tool is named by the given name or the agent's name in function style, described by the given text or "", and takes one required `input` parameter |
| Agents.AgentToolSchemaInferred | src/Agent.php:236 | inferring the wrapped closure's parameters gives one required untyped-hence-string `input` parameter |
| Agents.LowerAll | src/Agent.php:274 | `strtolower` keeps the length and lowers each character |
| Agents.DropSpaces | src/Agent.php:274 | dropping leading whitespace leaves a text that does not start with whitespace |
| Agents.CollapseSpacesHasNone | src/Agent.php:274 | no whitespace is left after the `\s+` to `_` replacement |
| Agents.CollapseWithoutSpaces | src/Agent.php:274 | text without whitespace is unchanged by the replacement |
| Agents.LowerKeepsSpaces | src/Agent.php:274 | lower-casing neither adds nor removes whitespace |
| Agents.LowerAllIdempotent | src/Agent.php:274 | lower-casing twice is lower-casing once |
| Agents.FunctionStyleNormalises | src/Agent.php:272-275 | a function-style name has no whitespace and no upper-case ASCII letter, is a fixed point of the transformation, and equals the lower-cased text when there was no whitespace |
| Agents.CollapseSplit | src/Agent.php:274 | a leading word without whitespace is kept as it is by the replacement |
| Agents.DropSpacesRun | src/Agent.php:274 | a whitespace run is dropped exactly up to the next non-space |
| Agents.WhitespaceRunBecomesUnderscore | src/Agent.php:274 | a word, a whitespace run and the rest become the word, one underscore and the transformed rest |
| Agents.CollapseRun | src/Agent.php:274 | a whitespace run before the rest becomes exactly one underscore |
| ChatCompletions.MessageKeys | src/Models/OpenAIChatCompletionsModel.php:229-252 | each message carries the item's role and its content or null, the tool calls exactly when set and non-empty, and the call id (with the name when set) exactly for a `tool` item with a call id; no other key |
| ChatCompletions.ItemMessagesEach | src/Models/OpenAIChatCompletionsModel.php:229-253 | one message per input item, the i-th built from the i-th item |
| ChatCompletions.MessagesFollowItems | src/Models/OpenAIChatCompletionsModel.php:218-256 | a system message comes first exactly when the instructions are truthy (so `""` and `"0"` give none), then the items' messages one for one and in order |
| ChatCompletions.PrepareMessages | src/Models/OpenAIChatCompletionsModel.php:218-256 | the loop builds exactly those messages |
| ChatCompletions.FunctionEntriesEach | src/Models/OpenAIChatCompletionsModel.php:271-280 | one function entry per tool, in order, with its name, description and parameters |
| ChatCompletions.HandoffEntriesEach | src/Models/OpenAIChatCompletionsModel.php:283-302 | one `handoff` function per handoff, in order, whose one required parameter is restricted to that handoff's agent name |
| ChatCompletions.ResolvedEach | src/Models/OpenAIChatCompletionsModel.php:283-302 | each handoff-list entry stands for one handoff in the same place |
| ChatCompletions.ToolsThenHandoffs | src/Models/OpenAIChatCompletionsModel.php:266-305 | the tool list holds the function tools first, in order, then one entry per handoff, in order, and nothing else |
| ChatCompletions.HandoffListOffered | src/Models/OpenAIChatCompletionsModel.php:266-305 | after the function tools, each entry of the handoff list is offered in its own place under its target's name |
| ChatCompletions.PlainAgentOfferedByName | src/Models/OpenAIChatCompletionsModel.php:283-302 | an agent in the handoff list is offered under its own name, with its handoff description or the default one |
| ChatCompletions.PrepareTools | src/Models/OpenAIChatCompletionsModel.php:266-305 | the two loops build exactly the tool list (corrected form; see Findings) |
| ChatCompletions.ToolEntriesAsWritten | src/Models/OpenAIChatCompletionsModel.php:283-302 | as written, building the list fails exactly when the handoff list holds a plain agent |
| ChatCompletions.AsWrittenAgreesOnHandoffObjects | src/Models/OpenAIChatCompletionsModel.php:283-302 | with only `Handoff` objects in the list, the code as written builds the same list as the corrected form |
| ChatCompletions.AsWrittenFailsOnPlainAgent | src/Models/OpenAIChatCompletionsModel.php:294-295 | an agent handed off to directly makes the code as written fail, where the corrected form offers it |
| ChatCompletions.ResponseFormat | src/Models/OpenAIChatCompletionsModel.php:313-322 | a JSON-object response format exactly when the output type is truthy |
| ChatCompletions.ParamsKeys | src/Models/OpenAIChatCompletionsModel.php:64-75 | the parameters carry the model name and the messages, `stream` exactly for a streamed request, every set setting unchanged, the tools exactly when there are any, the response format exactly when present; no other key |
| ChatCompletions.ResponseFormatSentIffOutputType | src/Models/OpenAIChatCompletionsModel.php:121-133 | a request sends a response format exactly when the output type is truthy, streamed or not |
| ChatCompletions.PrepareRequest | src/Models/OpenAIChatCompletionsModel.php:60-75 | the messages and parameters both request kinds start from |
| ChatCompletions.GetResponse | src/Models/OpenAIChatCompletionsModel.php:51-94 | the model response is the first choice's message with a usage of one request and the reply's token counts, and the reply's id; a client exception is passed on |
| ChatCompletions.RecordByIndex | src/Models/OpenAIChatCompletionsModel.php:151-165 | filing one more delta under its index keeps every call in step with its own deltas |
| ChatCompletions.KeyedByIndex | src/Models/OpenAIChatCompletionsModel.php:142-167 | filing a stream's deltas by index gives one call per distinct index, each assembled from its own deltas |
| ChatCompletions.StreamCallsByIndex | src/Models/OpenAIChatCompletionsModel.php:150-184 | a stream's calls: one per distinct index, listed once each in order of first appearance, each taking id, type and name from its first delta and the arguments of all its deltas in order (corrected form; see Findings) |
| ChatCompletions.AsWrittenMergesCalls | src/Models/OpenAIChatCompletionsModel.php:151-165 | as written, two calls streamed one delta per chunk are both filed at position 0: the second's arguments land in the first and the second is lost, where filing by index keeps both |
| ChatCompletions.FinalOutputKeys | src/Models/OpenAIChatCompletionsModel.php:178-184 | the final output holds the whole streamed text, and the list of calls exactly when there are any |
| ChatCompletions.EstimateTokenCount | src/Models/OpenAIChatCompletionsModel.php:330-334 | about four bytes per token, rounded up: the least n with 4n at least the length |
| ChatCompletions.StreamUsageBalanced | src/Models/OpenAIChatCompletionsModel.php:186-195 | the estimated usage of a streamed reply is one request whose total is the sum of its parts |
| ChatCompletions.KeyedAppend | src/Models/OpenAIChatCompletionsModel.php:142-167 | filing two runs of deltas in turn is filing them together |
| ChatCompletions.RecordAll | src/Models/OpenAIChatCompletionsModel.php:151-166 | the loop over a chunk's deltas files them as the keyed fold does |
| ChatCompletions.StreamEventsShape | src/Models/OpenAIChatCompletionsModel.php:142-204 | a streamed reply yields one chunk event per chunk, in order, with that chunk's content and deltas, then exactly one completion event, last |
| ChatCompletions.Fold | src/Models/OpenAIChatCompletionsModel.php:142-175 | the loop yields the chunk events and ends with the last chunk's id, all content in order and the calls keyed by index |
| ChatCompletions.Complete | src/Models/OpenAIChatCompletionsModel.php:177-204 | the completion event is built from what the fold accumulated |
| ChatCompletions.Events | src/Models/OpenAIChatCompletionsModel.php:142-204 | the events are exactly the chunk events then the completion event |
| ChatCompletions.StreamResponse | src/Models/OpenAIChatCompletionsModel.php:108-209 | the streamed request is sent and its reply's events are yielded; a client exception is passed on |
| Runners.ResolveMaxTurns | src/Runner.php:69 | the caller's limit wins; without one the configured default, and 10 when that is unset too |
| Runners.SelectModelPrecedence | src/Runner.php:372-383 | the run configuration's model overrides the agent's whatever the agent's is; with neither the provider is asked for the default name; a model object is used as it is, never looked up |
| Runners.ResolveModelSettings | src/Runner.php:392-399 | with no configuration settings the agent's settings are kept; otherwise the field-by-field merge in which the configuration's set fields win |
| Runners.FirstMatch | src/Runner.php:420-428 | the first handoff entry matching the output's `handoff` name, no earlier entry matching; the length when none does |
| Runners.ProcessModelResponse | src/Runner.php:410-443 | a handoff exactly when some `Handoff` entry is named by the output, and then the first such; tool calls exactly when there is no handoff and `tool_calls` is set and non-empty; otherwise the final output, the whole output with an output type and the `content` entry (default "") without |
| Runners.PlainAgentsNeverHandOff | src/Runner.php:420-428 | a handoff list made only of plain agents never yields a handoff, whatever the model writes |
| Runners.FindTool | src/Runner.php:518-527 | the first tool with exactly that name, none before it having it; the length when no tool has it |
| Runners.DispatchCall | src/Runner.php:484-496 | a call whose name is not a string is a type error; an unknown name adds no item; a known one adds exactly one `tool_result` item with the callback's result on the call's arguments (default `[]`); it fails exactly in the two type-error cases |
| Runners.ToolItemsSpec | src/Runner.php:484-496 | the tool loop succeeds exactly when every call does, then adds one item per call naming a tool, in call order; otherwise it fails with the first failing call's error |
| Runners.TurnEffectsItems | src/Runner.php:457-509 | a turn keeps the earlier items as a prefix, then exactly one `ai_message` with the raw output, then only `tool_result` items, one per resolving call; the input and the response are passed on and the next step follows the classification |
| Runners.ExecuteToolsAndSideEffects | src/Runner.php:457-509 | the loop computes exactly what `TurnEffects` defines, so `TurnEffectsItems` holds of its result |
| Runners.PrependTwice | src/Runner.php:466-496 | prepending items twice is prepending their concatenation, on success and failure alike |
| Runners.FirstTripped | src/Runner.php:320-327 | the position of the first tripped verdict, none before it tripped; the length when none trips |
| Runners.InputVerdicts | src/Runner.php:320-322 | one verdict per input guardrail, in declaration order, each the guardrail's own check |
| Runners.OutputVerdicts | src/Runner.php:353-355 | one verdict per output guardrail, in declaration order |
| Runners.InputOutcomeSpec | src/Runner.php:308-330 | the input pass succeeds exactly when no guardrail trips, with one result per guardrail in order; otherwise its exception carries the first tripping guardrail's result, all earlier ones having passed |
| Runners.OutputOutcomeSpec | src/Runner.php:341-363 | the output pass, likewise |
| Runners.RunInputGuardrails | src/Runner.php:308-330 | the loop returns exactly the input pass's outcome, and evaluates every guardrail on success and stops right after the first tripwire otherwise |
| Runners.RunOutputGuardrails | src/Runner.php:341-363 | the same for the output guardrails |
| Runners.TripwireAsWrittenIsTypeError | src/Runner.php:325 | as written, a tripped guardrail's `throw` hands a `GuardrailOutput` to a constructor typed for the guardrail result, so the caller gets a type error and never the tripwire exception (see Findings) |
| Runners.InputTripwire | src/Exceptions/InputGuardrailTripwireTriggered.php:21-25 | the intended exception carries the guardrail result and its message names the guardrail |
| Runners.OutputTripwire | src/Exceptions/OutputGuardrailTripwireTriggered.php:21-25 | the same for the output tripwire |
| Runners.InputMessagesShape | src/Runner.php:536-545 | the base list (one user message for a text input, the messages as given otherwise) comes first, then one input form per generated item, in order |
| Runners.PrepareInput | src/Runner.php:536-545 | the loop builds exactly that message list |
| Runners.GetHandoffNames | src/Runner.php:553-564 | one name per handoff entry, in order: the handoff's agent name or the plain agent's name |
| Runners.GetToolNames | src/Runner.php:572-579 | one name per tool, in order |
| Runners.Responses | src/Runner.php:145 | the responses collected are those of the turns, one per turn, in order |
| Runners.SegmentAgents | src/Runner.php:90-101 | the agents spans are opened for begin with the starting agent |
| Runners.HistoryEach | src/Runner.php:88-179 | in a run's history every turn follows from the turns before it |
| Runners.HistoryContinues | src/Runner.php:88-179 | only the last turn of a history may be final |
| Runners.OpenSpanLog | src/Runner.php:90-101 | opening a span appends its start to the log of closed spans |
| Runners.CloseSpanLog | src/Runner.php:170-174 | finishing the open span turns the log into a log of closed spans |
| Runners.RunLog | src/Runner.php:181-186 | the loop's exit calls and the `finally` block's finish complete the run's span log |
| Runners.QuietExit | src/Runner.php:113-141 | an exit through a tripwire or a turn error makes no trace call of its own |
| Runners.TurnErrors | src/Runner.php:255-297 | a turn fails only because the model call or the tool loop does |
| Runners.RecordedNames | src/Runner.php:90-101 | one span name per agent, in order |
| Runners.RecordedNamesStep | src/Runner.php:90-101 | one more agent adds exactly its recorded name |
| Runners.RecordedNamesFrame | src/Runner.php:170-174 | recording a newly met agent leaves the names of those already met alone |
| Runners.RecordTurn | src/Runner.php:143-179 | a turn that follows the history extends it; the agent moves to the handoff's target, the items to the turn's, one more response is collected, and one more span is due exactly on a handoff |
| Runners.AllRecordedStep | src/Runner.php:170-174 | an agent whose fields are recorded can join the recorded agents |
| Runners.TurnsRecordedStep | src/Runner.php:143-147 | a turn made with its agent's recorded fields can join the recorded turns |
| Runners.RecordedFrame | src/Runner.php:170-174 | recording another agent keeps every agent and turn recorded so far |
| Runners.MaxTurnsExit | src/Runner.php:103-111 | a run past its limit, none of whose turns was final, ends with the limit's exception |
| Runners.InputTripExit | src/Runner.php:115-122 | an input tripwire on the first turn ends the run with that exception |
| Runners.TurnFailureExit | src/Runner.php:124-141 | a failing turn within the limit ends the run with the turn's error |
| Runners.OutputTripExit | src/Runner.php:151-157 | an output tripwire on a final turn ends the run with that exception |
| Runners.SuccessExit | src/Runner.php:151-169 | a final turn whose output passes the output guardrails ends the run with the input, the items, every response, the output, the agent and both result lists |
| Runners.TurnMade | src/Runner.php:124-141 | the turn the loop makes from its state follows the history |
| Runners.AgainStep | src/Runner.php:175-176 | a `run_again` step keeps the loop's facts with the same agent and span |
| Runners.HandoffStep | src/Runner.php:170-174 | a handoff keeps the loop's facts with the new agent, its fields recorded and no span open |
| Runners.FinalStep | src/Runner.php:151-169 | a final step leaves the loop's facts as the exits need them |
| Runners.InputTripped | src/Runner.php:115-122 | an input tripwire ends the loop with its exception and the span open |
| Runners.TurnFailed | src/Runner.php:124-141 | a failing turn ends the loop with its error |
| Runners.LimitReached | src/Runner.php:103-111 | past the limit the loop ends with the limit's exception |
| Runners.Opened | src/Runner.php:90-101 | opening the current agent's span adds its name and id |
| Runners.Record | src/Runner.php:170-174 | recording an agent's current fields keeps the record true |
| Runners.Started | src/Runner.php:74-86 | the loop starts with the starting agent, no turns, no items and no span |
| Runners.OutputTripped | src/Runner.php:151-157 | an output tripwire ends the loop with its exception |
| Runners.Succeeded | src/Runner.php:151-169 | passing output guardrails end the loop with the run's result |
| RunnerClass.Runner.constructor | src/Runner.php:43-47 | the runner keeps the model provider and the trace it is given |
| RunnerClass.Runner.Run | src/Runner.php:61-187 | with the given or a new configuration and the resolved limit: at most that many turns, each following from the last; success exactly as a final turn whose output passes the output guardrails, returning the input, the last items, every response, the output, the last agent and both result lists; the limit's exception exactly when every allowed turn continued the run; an input tripwire only before any turn; an output tripwire only on a final turn; any other error is that of the turn the run would make next; the trace gets one start, one span per agent segment named after its agent (the limit's error recorded on the last), every span finished, then one finish |
| RunnerClass.Runner.TryFinally | src/Runner.php:73-186 | the loop with its `finally` block: the same outcome, and the span log followed by the trace's finish |
| RunnerClass.Runner.Loop | src/Runner.php:88-180 | the loop ends in one of the run's outcomes with the last span still open, having logged every span it opened and its exit calls |
| RunnerClass.Runner.Finally | src/Runner.php:181-186 | the open span is finished, then the trace, and no agent changes |
| RunnerClass.Runner.Step | src/Runner.php:89-179 | one pass either ends the run with its outcome or comes round with one more turn and the loop's facts kept |
| RunnerClass.Runner.Enter | src/Runner.php:90-111 | a span is open afterwards; past the limit the run ends with the limit's exception |
| RunnerClass.Runner.Begin | src/Runner.php:90-101 | with no span open, the current agent's span is opened and logged |
| RunnerClass.Runner.ExceedMaxTurns | src/Runner.php:103-111 | past the limit the span records the error and the run ends with the limit's exception |
| RunnerClass.Runner.Advance | src/Runner.php:113-179 | one turn ends the run with its outcome or comes round with the loop's facts kept |
| RunnerClass.Runner.Attempt | src/Runner.php:113-141 | a failing input pass or turn ends the loop with its error; a turn made follows the history |
| RunnerClass.Runner.StartingGuardrails | src/Runner.php:115-122 | the starting agent's input pass runs on the first turn only, and its results stand afterwards |
| RunnerClass.Runner.Proceed | src/Runner.php:149-179 | a final output ends the run, a handoff or another round continues it |
| RunnerClass.Runner.HandOff | src/Runner.php:170-174 | a handoff finishes the span, and the next round starts with the new agent and no span |
| RunnerClass.Runner.Finish | src/Runner.php:151-169 | the final output's guardrails decide between the tripwire and the run's result, the span is finished on success |
| RunnerClass.Runner.Complete | src/Runner.php:159-168 | with the output guardrails passed, the open span is finished and the result holds the input, the items, the responses, the output, the last agent and both guardrail result lists, which is how the run ends |
| RunnerClass.Runner.RunSingleTurn | src/Runner.php:255-297 | the request is built from the agent's fields (prompt, input messages, model, merged settings, tools, output type, handoffs) and the result is the model call's failure or the classified response's effects |
| RunnerClass.Runner.OpenSpan | src/Runner.php:90-101 | one span start, named after the agent, is logged |
| RunnerClass.Runner.RunStreamed | src/Runner.php:199-242 | the configuration and limit are resolved as in `run` and the trace is started; the result holds the input, the starting agent and the limit, is not complete, and knows this runner, a new context wrapper holding the context and the configuration, so that `wait` runs it |
| RunnerClass.Runner.RunFor | src/Runner.php:61-187 | `run` with a given limit and configuration, recording what it produced |
| RunnerClass.RunResultStreaming.constructor | src/Result/RunResultStreaming.php:129-151 | the ten arguments are kept as given; runner, context and configuration are unset |
| RunnerClass.RunResultStreaming.SetRunner | src/Result/RunResultStreaming.php:159-163 | only the runner changes, and the result itself is returned |
| RunnerClass.RunResultStreaming.SetContext | src/Result/RunResultStreaming.php:171-175 | only the context wrapper changes, and the result itself is returned |
| RunnerClass.RunResultStreaming.SetRunConfig | src/Result/RunResultStreaming.php:183-187 | only the configuration changes, and the result itself is returned |
| RunnerClass.RunResultStreaming.Stream | src/Result/RunResultStreaming.php:199-217 | the callbacks are neither stored nor called and the result itself is returned |
| RunnerClass.RunResultStreaming.Wait | src/Result/RunResultStreaming.php:224-256 | when not complete and fully set up, `run` is called with the stored agent, input, context value, limit and configuration; its success is taken over and the result becomes complete, its exception leaves the result unchanged; otherwise nothing changes and the stored fields are returned |
| RunnerClass.RunResultStreaming.Absorb | src/Result/RunResultStreaming.php:239-244 | the run's items, responses, output and guardrail results are taken over and the result is complete |
| RunnerClass.Runner.StartTrace | src/Runner.php:71 | the trace is started once with the configuration's workflow name, trace id, group id and metadata; afterwards it is disabled or has its id, so none of the run's span operations fails with a type error |
| RunnerClass.Runner.ErrorSpan | src/Runner.php:104-108 | the open span records `Max turns exceeded` with the limit |
| RunnerClass.Runner.CloseSpan | src/Runner.php:159 | one span finish is logged |
| RunnerClass.Runner.FinishTrace | src/Runner.php:185 | one trace finish is logged |

## Left out

- Runners.DispatchCall: the tool callback receives the user context value, not the `RunContext` wrapper of Runner.php:489. A callback that calls `setContext` or `addUsage` on the wrapper, with later turns seeing the change, is not modelled.
- Runners.InputVerdicts: the input guardrail checks receive the constant context value, not the wrapper, so a check cannot change what later callbacks see.
- Runners.OutputVerdicts: the same for the output guardrail checks.
- Runners.TurnRequest: the instruction closures receive the constant context value, not the wrapper.
- Runners.Collaborators: tool callbacks, guardrail checks and instruction closures are total functions. An exception thrown inside one of them is not modelled. Only the model call may fail, as a `None` reply. They also receive values, not the live objects: PHP hands guardrail checks and instruction closures the `$agent` object itself (e.g. Runner.php:321, Agent.php:260), and a change they make to its fields is not modelled.
- Runners.ToolCallList: a `tool_calls` entry that is a map yields no calls. PHP's `foreach` would iterate an associative array's values in insertion order, and `Value`'s maps are unordered.
- Agents.Agent.Clone: only the known attribute keys, each with a value of its field's type, can be expressed. PHP's `$clone->{$key} = $value` also accepts unknown keys (a dynamic property) and throws a `TypeError` for a mistyped value. Neither case is modelled.
- Tracing.Trace.constructor: it requires the injected uuid generator never to repeat an id. This is stronger than what `Str::uuid()` guarantees, and the distinctness of span ids rests on it.
- Settings.ModelSettings.ToArray: the result is a Dafny map, so PHP's key order is lost. Only the set of keys and their values are stated.
- Tools.InferParameters: the `properties` map likewise loses PHP's key order. `required` keeps declaration order.
- `Log::debug` (Runner.php:113) and `Log::error` (OpenAIChatCompletionsModel.php:91, :206) write to a log sink and change no state. They are not modelled.
- The trace processors are not called. Each notification is appended to the trace's `notifications` log. `LogProcessor` is the one processor a trace has. Its `string` trace-id parameter is kept: where PHP would pass it a null id, the trace operation returns `typeError` and no notification is made.
- The clock (`microtime`) is a function from the number of reads to an integer. The uuid generator is a function from the number of ids issued to a string.
- Trace spans are held in the trace as values (`Spans.SpanSnapshot`). The `TraceSpan` objects are not. `Spans.TraceSpan` models the class by itself, and the trace's span operations are defined through the same `Spans.WithError` and `Spans.Finished` functions. Aliasing a span object outside the trace is therefore not modelled.
- Runners.Collaborators: the model behind a turn is an id that the provider lookup yields, and its `getResponse` is the `respond` collaborator. The chat-completions model's `GetResponse` is modelled separately. The two are not tied together.
- ChatCompletions.GetResponse: the HTTP client is a function from the parameters to a completion or `None`, so a thrown `ErrorException` is `None`. The completion holds its first choice's message, so a reply with no choices is not modelled.
- ChatCompletions.CompletedEvent: `json_encode`'s output length is a parameter, because JSON text is not modelled.
- ChatCompletions.StreamResponse: the reply is the whole chunk sequence. An exception in the middle of the stream, after some events were yielded, is not modelled. Nor is the generator's laziness.
- ChatCompletions.MessageOf: here an input item that is not an array reads every key as null. What PHP does with such an item depends on its type, and that is not modelled.
- The `tracing` parameter of `getResponse` and `streamResponse` is unused by the source and is not a parameter here.
- The usage in a model response is a `Usages.Counts` value, not a `Usage` object. Nothing in the run loop adds it to the context.
- `Runner::run`'s `throw new AgentsException("Unknown next step type")` (Runner.php:178) cannot be reached. `NextStep` has exactly the three step kinds `executeToolsAndSideEffects` produces.
- Namespaces: Runner.php is declared in `JawadAshraf\OpenAI\Agents` (its line 3), and the classes it names live under two roots, so not every name resolves as written. Names that resolve: `Exceptions\OutputGuardrailTripwireTriggered` (line 358) and the imported `OutputGuardrailResult`, `Trace`, `RunResult`, `RunResultStreaming`, `Handoff`, `ModelSettings` and `ModelProviderInterface`. Names that do not: the imported `InputGuardrailResult` (line 10), `ModelResponse` and `RunItem` (lines 15-16), which are declared under `JawadAshraf\OpenAI\Agents`; `Exceptions\InputGuardrailTripwireTriggered` (line 325), declared in `OpenAI\Agents\Exceptions`; and the unqualified `Agent`, `RunConfig`, `RunContext` and `Models\Model` (lines 62-68, 79, 209, 256-260, 372-378), declared under `OpenAI\Agents`. As written, `new RunConfig` and `new RunContext` name classes that do not exist, the `Agent`, `RunConfig` and `RunContext` parameter types refuse the real objects, `instanceof Models\Model` is always false, and so is the plain-agent test `instanceof Agent` of `getHandoffNames` (line 559). The model reads each short class name as the one class of that name, and none of these resolution failures is modelled; `Runners.GetHandoffNames` and `Runners.SelectModelPrecedence` state that reading.
- Namespaces, OpenAIChatCompletionsModel.php: the class is declared in `JawadAshraf\OpenAI\Agents\Models` (its line 3), so `implements Model` (line 11), which has no import, names `JawadAshraf\OpenAI\Agents\Models\Model`, while the interface is declared in `OpenAI\Agents\Models` (Model.php:3); as written the class cannot be declared. Its imported `ModelResponse` (line 7) names `OpenAI\Agents\Items\ModelResponse`, while ModelResponse.php:3 declares the class under `JawadAshraf\OpenAI\Agents\Items`, so `new ModelResponse` (line 89) names a class that does not exist. Every `ChatCompletions` member, `ChatCompletions.GetResponse` and `ChatCompletions.StreamResponse` among them, follows the one-class-per-short-name reading.
- ItemHelpers.TextMessageOutputs: `instanceof RunItem` (ItemHelpers.php:38) is written inside `OpenAI\Agents\Items`, so it names `OpenAI\Agents\Items\RunItem`, while RunItem.php:3 declares the class under `JawadAshraf\OpenAI\Agents\Items`. As written the test is always false and `textMessageOutputs` returns "" for every list. The member states the intended reading: the newline join of the assistant texts.
- Results.RunResult.GetTextOutput: for a final output that is not a string it returns `textMessageOutputs` of the new items (RunResult.php:173), so as written it returns "" there too. The member states the intended reading, as `ItemHelpers.TextMessageOutputs` does.
- RunnerClass.RunResultStreaming.SetRunner: the parameter type `Runner` (RunResultStreaming.php:159, with the property type at :87) comes from the import `OpenAI\Agents\Runner` (:8), while the runner is declared in `JawadAshraf\OpenAI\Agents` (Runner.php:3). As written `setRunner($this)` (Runner.php:237) is refused. `SetRunner` and `RunnerClass.Runner.RunStreamed` follow the one-class-per-short-name reading.
- Namespaces, ModelResponse.php: `new Usage()` (its line 38), for a missing usage, is written inside `JawadAshraf\OpenAI\Agents\Items` and names a class that does not exist there (Usage.php:3 declares `OpenAI\Agents\Items`). The model's zero usage for a missing one follows the intended reading. The `InputGuardrail` imports of Agent.php:9 and RunConfig.php:10 also name a class declared elsewhere, but only doc comments use them, so they change nothing.
- `Tool::fromFunction` (Tool.php:65-80) and `FunctionTool` read a callable's parameters by reflection and docblock parsing. They are not modelled. A tool's parameter descriptors are given.
- `ModelSettings::default()` (ModelSettings.php:80-90) reads the application configuration. It is not modelled. `Agents.Agent.constructor` takes the container's settings as a parameter.
- The container, facades, service provider, helpers and `HandoffHelper` are framework wiring and are not part of this model. The same goes for `OpenAIProvider`, the example scripts and `asTool`'s callback, which resolves a nested runner from the container.
- RunnerClass.RunResultStreaming: the streaming buffer the class declares is never read, so it is not a field. `stream` calls none of its callbacks, as in the source.
- RunnerClass.RunResultStreaming.Wait: the `RunResult` it returns is built from the stored fields, so its input and last agent are the stored ones, not the run's. `runStreamed` starts the trace and `wait`'s `run` starts it again. Both are as written and both are stated, not corrected.
- Agents.Agent.GetSystemPrompt: the closure call is the `closures` collaborator. The method carries no contract of its own. Its cases are stated by `Agents.Prompt`, and `Runners.TurnRequest` uses it.

## Findings

| source | as written | input that shows it | evidently intended | confidence | as-written member | corrected member |
|---|---|---|---|---|---|---|
| src/Runner.php:325 | a tripped guardrail throws `new InputGuardrailTripwireTriggered($result)` with `$result` the `GuardrailOutput` verdict, but the constructor's parameter (src/Exceptions/InputGuardrailTripwireTriggered.php:21) is typed `InputGuardrailResult`; src/Runner.php:358 does the same for the output exception | any input guardrail whose check returns `GuardrailOutput::failed(...)` | the exception carries the guardrail result appended just before the throw, and its message names the guardrail; the guardrail loops and the run raise this one (`Runners.OutputTripwire` likewise) | not executed; high, since a typed parameter handed another class is a `TypeError` in PHP | Runners.TripwireAsWrittenIsTypeError | Runners.InputTripwire |
| src/Models/OpenAIChatCompletionsModel.php:283-302 | every handoff-list entry gets `getAgentName()` and `getDescription()`, but `Agent::withHandoffs` also accepts plain agents, which have neither method (`ChatCompletions.ToolEntriesAsWritten`) | an agent whose handoff list is `[$otherAgent]` | a plain agent is offered as the handoff `new Handoff($agent)` makes, under its own name (`ChatCompletions.HandoffListOffered`, `ChatCompletions.PlainAgentOfferedByName`) | not executed; high, since calling an undefined method is an `Error` | ChatCompletions.AsWrittenFailsOnPlainAgent | ChatCompletions.PrepareTools |
| src/Models/OpenAIChatCompletionsModel.php:151-165 | the streamed tool calls are keyed by a delta's position in its chunk's `toolCalls` list, not by the delta's own `index` (`ChatCompletions.StreamCallsAsWritten`) | two tool calls streamed one delta per chunk, each first in its chunk's list | each delta is filed under its own `index`, so every call keeps its own id, name and arguments; `ChatCompletions.Fold` and `ChatCompletions.StreamResponse` build the calls this way | not executed; medium, since it depends on the client delivering one delta per chunk, as the chat-completions stream does | ChatCompletions.AsWrittenMergesCalls | ChatCompletions.StreamCallsByIndex |
