/**
 * The agent loop (`Runner`): model choice and settings resolution, the
 * classification of a model output, tool dispatch, the guardrail passes,
 * one turn, and the run loop with its span bookkeeping.
 */
module Runners {
  import opened Values
  import opened Contexts
  import opened Settings
  import opened RunItems
  import opened ItemHelpers
  import opened Guardrails
  import opened Tools
  import opened Agents
  import opened Tracing
  import opened RunConfigs
  import opened Results

  /** `Runner::DEFAULT_MAX_TURNS`. */
  const DefaultMaxTurns := 10

  /** What `processModelResponse` decides about one model output. */
  datatype ProcessedResponse =
    | HandoffMatched(handoff: Handoff)
    | ToolCallsFound(toolCalls: Value)
    | FinalOutputFound(output: Value)

  /** The `nextStep` of a turn. */
  datatype NextStep = NextFinalOutput(output: Value) | NextHandoff(newAgent: Agent) | NextRunAgain

  /** The array `executeToolsAndSideEffects` returns. */
  datatype TurnResult = TurnResult(
    originalInput: RunInput,
    generatedItems: seq<RunItem>,
    modelResponse: ModelResponse,
    nextStep: NextStep)

  /** The model chosen for a turn and the arguments of its `getResponse` call. */
  datatype ModelRequest = ModelRequest(
    model: ModelId,
    systemPrompt: Option<string>,
    input: seq<Value>,
    settings: ModelSettings,
    tools: seq<Tool>,
    outputType: Option<string>,
    handoffs: seq<HandoffEntry>)

  /** The exceptions a run can end with. */
  datatype RunError =
    | MaxTurnsExceeded(maxTurns: int)
    | InputGuardrailTripwireTriggered(inputResult: InputGuardrailResult)
    | OutputGuardrailTripwireTriggered(outputResult: OutputGuardrailResult)
    /** `getResponse` threw. */
    | ModelCallFailed(request: ModelRequest)
    /** `findTool(..., string $name)` was handed a tool call whose name is null or an array. */
    | ToolNameNotString(call: Value)
    /** `Tool::execute(..., array $arguments)` was handed a non-array. */
    | ToolArgumentsNotArray(call: Value)
    /** Any other PHP `TypeError`. */
    | TypeError(message: string)

  /** `ModelProviderInterface::getModel($name)`. */
  type ProviderLookup = (ProviderId, Option<string>) -> ModelId
  /** `Model::getResponse(...)`: a response, or `None` when the call throws. */
  type Responder = ModelRequest -> Option<ModelResponse>
  /** `InputGuardrail::check($input, $context, $agent)`. */
  type InputCheck = (InputGuardrail, Value, Value, Agent) -> GuardrailOutput
  /** `OutputGuardrail::check($output, $context, $agent)`. */
  type OutputCheck = (OutputGuardrail, Value, Value, Agent) -> GuardrailOutput

  /** The code a run calls but does not own. */
  datatype Collaborators = Collaborators(
    lookup: ProviderLookup,
    respond: Responder,
    invoke: Invoker,
    checkInput: InputCheck,
    checkOutput: OutputCheck,
    closures: InstructionsFn)

  /** `$maxTurns ?? config('agents.default_max_turns', 10)`. */
  function ResolveMaxTurns(maxTurns: Option<int>, app: AppConfig): (m: int)
    ensures maxTurns.Some? ==> m == maxTurns.value
    ensures maxTurns.None? && app.defaultMaxTurns.Some? ==> m == app.defaultMaxTurns.value
    ensures maxTurns.None? && app.defaultMaxTurns.None? ==> m == DefaultMaxTurns
  {
    maxTurns.GetOr(app.defaultMaxTurns.GetOr(DefaultMaxTurns))
  }

  // ---------------------------------------------------------------------
  // Model choice and settings

  /**
   * `getModel`: the configuration's model object, else the provider's model
   * for the configuration's name, else the agent's model object, else the
   * provider's model for the agent's name or the default model name.
   */
  function SelectModel(configModel: ModelChoice, agentModel: ModelChoice, provider: ProviderId,
                       defaultModel: Option<string>, lookup: ProviderLookup): ModelId
  {
    match configModel
    case ModelObject(m) => m
    case ModelName(n) => lookup(provider, Some(n))
    case NoModel =>
      match agentModel
      case ModelObject(m) => m
      case ModelName(n) => lookup(provider, Some(n))
      case NoModel => lookup(provider, defaultModel)
  }

  /**
   * The configuration's choice overrides the agent's; without one the
   * agent's choice is taken the same way; the default name is consulted
   * only when neither chooses; a model object is used without asking the
   * provider.
   */
  lemma SelectModelPrecedence(c: ModelChoice, a: ModelChoice, a': ModelChoice, p: ProviderId,
                              d: Option<string>, d': Option<string>, l: ProviderLookup)
    ensures c != NoModel ==> SelectModel(c, a, p, d, l) == SelectModel(c, a', p, d', l)
    ensures SelectModel(NoModel, a, p, d, l) == SelectModel(a, NoModel, p, d, l)
    ensures (c != NoModel || a != NoModel) ==> SelectModel(c, a, p, d, l) == SelectModel(c, a, p, d', l)
    ensures c.ModelObject? ==> SelectModel(c, a, p, d, l) == c.model
    ensures c.NoModel? && a.ModelObject? ==> SelectModel(c, a, p, d, l) == a.model
    ensures c.NoModel? && a.NoModel? ==> SelectModel(c, a, p, d, l) == l(p, d)
  {
  }

  /** `resolveModelSettings`: the agent's settings, overridden field by field by the configuration's. */
  function ResolveModelSettings(agentSettings: ModelSettings, configSettings: Option<ModelSettings>): (s: ModelSettings)
    ensures configSettings.None? ==> s == agentSettings
    ensures s == agentSettings.Merge(configSettings)
  {
    if configSettings.None? then agentSettings else agentSettings.Merge(configSettings)
  }

  // ---------------------------------------------------------------------
  // Classification of a model output

  /**
   * Whether a handoff-list entry is the one the output asks for: a
   * `Handoff` object whose agent name is identical to `$output['handoff']`.
   * A plain agent in the list never matches.
   */
  predicate Matches(output: Value, entry: HandoffEntry) {
    entry.HandoffObject? && IsSet(output, "handoff") && Get(output, "handoff") == VStr(entry.handoff.agentName)
  }

  /** The position of the first matching entry; the length when none matches. */
  function FirstMatch(output: Value, handoffs: seq<HandoffEntry>): (k: nat)
    ensures k <= |handoffs|
    ensures forall j :: 0 <= j < k ==> !Matches(output, handoffs[j])
    ensures k < |handoffs| ==> Matches(output, handoffs[k])
    decreases |handoffs|
  {
    if |handoffs| == 0 then 0
    else if Matches(output, handoffs[0]) then 0
    else 1 + FirstMatch(output, handoffs[1..])
  }

  /**
   * `processModelResponse`: the first matching handoff; otherwise the
   * `tool_calls` entry when it is set and non-empty; otherwise a final
   * output, which is the whole output when an output type is set and the
   * `content` entry (default "") when not.
   */
  function ProcessModelResponse(output: Value, outputType: Option<string>, handoffs: seq<HandoffEntry>): (p: ProcessedResponse)
    ensures p.HandoffMatched? <==> exists i :: 0 <= i < |handoffs| && Matches(output, handoffs[i])
    ensures p.HandoffMatched? ==>
      exists i :: 0 <= i < |handoffs| && Matches(output, handoffs[i]) && handoffs[i].handoff == p.handoff &&
        forall j :: 0 <= j < i ==> !Matches(output, handoffs[j])
    ensures p.ToolCallsFound? <==>
      (forall i :: 0 <= i < |handoffs| ==> !Matches(output, handoffs[i])) && Truthy(Get(output, "tool_calls"))
    ensures p.ToolCallsFound? ==> p.toolCalls == Get(output, "tool_calls")
    ensures p.FinalOutputFound? && TruthyString(outputType) ==> p.output == output
    ensures p.FinalOutputFound? && !TruthyString(outputType) ==> p.output == GetOr(output, "content", VStr(""))
  {
    var k := FirstMatch(output, handoffs);
    if k < |handoffs| then HandoffMatched(handoffs[k].handoff)
    else if Truthy(Get(output, "tool_calls")) then ToolCallsFound(Get(output, "tool_calls"))
    else if TruthyString(outputType) then FinalOutputFound(output)
    else FinalOutputFound(GetOr(output, "content", VStr("")))
  }

  /** A handoff list made only of plain agents never hands off, whatever the output says. */
  lemma PlainAgentsNeverHandOff(output: Value, outputType: Option<string>, handoffs: seq<HandoffEntry>)
    requires forall i :: 0 <= i < |handoffs| ==> handoffs[i].PlainAgent?
    ensures !ProcessModelResponse(output, outputType, handoffs).HandoffMatched?
  {
  }

  // ---------------------------------------------------------------------
  // Tool dispatch

  /** `findTool`: the position of the first tool with exactly this name; the length when none has it. */
  function FindTool(tools: seq<Tool>, name: string): (k: nat)
    ensures k <= |tools|
    ensures forall j :: 0 <= j < k ==> tools[j].name != name
    ensures k < |tools| ==> tools[k].name == name
    decreases |tools|
  {
    if |tools| == 0 then 0
    else if tools[0].name == name then 0
    else 1 + FindTool(tools[1..], name)
  }

  /** Whether a tool call's name is a string naming one of the tools. */
  predicate Resolves(tools: seq<Tool>, call: Value) {
    var name := CoerceToString(Get(call, "name"));
    name.Some? && FindTool(tools, name.value) < |tools|
  }

  /**
   * One iteration of the tool loop: a name that is not a string is a type
   * error; an unknown name adds nothing; a known one is executed with the
   * call's `arguments` (default `[]`, which must be an array) and adds one
   * `tool_result` item holding the raw name and the callback's result.
   */
  function DispatchCall(tools: seq<Tool>, call: Value, context: Value, invoke: Invoker): (r: Result<seq<RunItem>, RunError>)
    ensures CoerceToString(Get(call, "name")).None? ==> r == Failure(ToolNameNotString(call))
    ensures r.Success? && !Resolves(tools, call) ==> r.value == []
    ensures r.Success? && Resolves(tools, call) ==>
      var tool := tools[FindTool(tools, CoerceToString(Get(call, "name")).value)];
      var args := GetOr(call, "arguments", VList([]));
      r.value == [RunItem(ToolResult, VMap(map["tool_name" := Get(call, "name"), "result" := invoke(tool.callback, context, args)]))]
    ensures r.Failure? <==> CoerceToString(Get(call, "name")).None? || (Resolves(tools, call) && !IsArray(GetOr(call, "arguments", VList([]))))
    ensures r.Failure? ==> r.error == ToolNameNotString(call) || r.error == ToolArgumentsNotArray(call)
  {
    match CoerceToString(Get(call, "name"))
    case None => Failure(ToolNameNotString(call))
    case Some(name) =>
      var k := FindTool(tools, name);
      if k == |tools| then Success([])
      else
        var args := GetOr(call, "arguments", VList([]));
        if !IsArray(args) then Failure(ToolArgumentsNotArray(call))
        else Success([RunItem(ToolResult, VMap(map["tool_name" := Get(call, "name"), "result" := invoke(tools[k].callback, context, args)]))])
  }

  /** The items a list of tool calls adds, in call order, or the first call's error. */
  function ToolItems(tools: seq<Tool>, calls: seq<Value>, context: Value, invoke: Invoker): Result<seq<RunItem>, RunError>
    decreases |calls|
  {
    if |calls| == 0 then Success([])
    else match DispatchCall(tools, calls[0], context, invoke)
      case Failure(e) => Failure(e)
      case Success(items) => Prepend(items, ToolItems(tools, calls[1..], context, invoke))
  }

  function Prepend(items: seq<RunItem>, r: Result<seq<RunItem>, RunError>): Result<seq<RunItem>, RunError> {
    match r
    case Success(more) => Success(items + more)
    case Failure(e) => Failure(e)
  }

  /** The number of calls that resolve to a tool. */
  function ResolvedCount(tools: seq<Tool>, calls: seq<Value>): nat
    decreases |calls|
  {
    if |calls| == 0 then 0 else (if Resolves(tools, calls[0]) then 1 else 0) + ResolvedCount(tools, calls[1..])
  }

  /**
   * The tool loop succeeds exactly when every call does; it then adds one
   * `tool_result` item per resolving call; otherwise it fails with the
   * error of the first failing call.
   */
  lemma {:induction false} ToolItemsSpec(tools: seq<Tool>, calls: seq<Value>, context: Value, invoke: Invoker)
    ensures ToolItems(tools, calls, context, invoke).Success? <==>
      forall i :: 0 <= i < |calls| ==> DispatchCall(tools, calls[i], context, invoke).Success?
    ensures ToolItems(tools, calls, context, invoke).Success? ==>
      var items := ToolItems(tools, calls, context, invoke).value;
      |items| == ResolvedCount(tools, calls) && forall j :: 0 <= j < |items| ==> items[j].itemType == ToolResult
    ensures ToolItems(tools, calls, context, invoke).Failure? ==>
      exists k :: 0 <= k < |calls| && DispatchCall(tools, calls[k], context, invoke) == Failure(ToolItems(tools, calls, context, invoke).error) &&
        forall j :: 0 <= j < k ==> DispatchCall(tools, calls[j], context, invoke).Success?
    decreases |calls|
  {
    if |calls| > 0 {
      var rest := calls[1..];
      ToolItemsSpec(tools, rest, context, invoke);
      assert forall i :: 0 < i < |calls| ==> calls[i] == rest[i - 1];
      var first := DispatchCall(tools, calls[0], context, invoke);
      if first.Success? && ToolItems(tools, rest, context, invoke).Failure? {
        var k :| 0 <= k < |rest| && DispatchCall(tools, rest[k], context, invoke) == Failure(ToolItems(tools, rest, context, invoke).error) &&
          forall j :: 0 <= j < k ==> DispatchCall(tools, rest[j], context, invoke).Success?;
        assert DispatchCall(tools, calls[k + 1], context, invoke) == Failure(ToolItems(tools, calls, context, invoke).error);
      }
    }
  }

  /** The tool calls a `tool_calls` entry lists; anything but a list is iterated as no calls. */
  function ToolCallList(toolCalls: Value): seq<Value> {
    if toolCalls.VList? then toolCalls.items else []
  }

  /**
   * `executeToolsAndSideEffects`: the previous items, one `ai_message`
   * holding the raw output, and for tool calls the items of the tool loop;
   * the next step follows the classification.
   */
  function TurnEffects(tools: seq<Tool>, originalInput: RunInput, preItems: seq<RunItem>, response: ModelResponse,
                       processed: ProcessedResponse, context: Value, invoke: Invoker): Result<TurnResult, RunError>
  {
    var items := preItems + [RunItem(AiMessage, response.output)];
    match processed
    case FinalOutputFound(o) => Success(TurnResult(originalInput, items, response, NextFinalOutput(o)))
    case HandoffMatched(h) => Success(TurnResult(originalInput, items, response, NextHandoff(h.agent)))
    case ToolCallsFound(c) =>
      match ToolItems(tools, ToolCallList(c), context, invoke)
      case Failure(e) => Failure(e)
      case Success(results) => Success(TurnResult(originalInput, items + results, response, NextRunAgain))
  }

  /**
   * A turn keeps the previous items as a prefix, appends exactly one
   * `ai_message` with the raw output and after it only `tool_result` items,
   * one per resolving call, and returns the original input and the response;
   * a final output, a handoff and tool calls lead to the final-output,
   * handoff and run-again steps.
   */
  lemma TurnEffectsItems(tools: seq<Tool>, originalInput: RunInput, preItems: seq<RunItem>, response: ModelResponse,
                         processed: ProcessedResponse, context: Value, invoke: Invoker)
    ensures var r := TurnEffects(tools, originalInput, preItems, response, processed, context, invoke);
      r.Success? ==>
        var items := r.value.generatedItems;
        r.value.originalInput == originalInput && r.value.modelResponse == response &&
        |items| > |preItems| && items[..|preItems|] == preItems && items[|preItems|] == RunItem(AiMessage, response.output) &&
        (forall j :: |preItems| < j < |items| ==> items[j].itemType == ToolResult) &&
        (processed.ToolCallsFound? ==> |items| == |preItems| + 1 + ResolvedCount(tools, ToolCallList(processed.toolCalls))) &&
        (!processed.ToolCallsFound? ==> |items| == |preItems| + 1)
    ensures var r := TurnEffects(tools, originalInput, preItems, response, processed, context, invoke);
      r.Failure? <==> processed.ToolCallsFound? && ToolItems(tools, ToolCallList(processed.toolCalls), context, invoke).Failure?
    ensures var r := TurnEffects(tools, originalInput, preItems, response, processed, context, invoke);
      r.Success? ==> r.value.nextStep == (match processed
        case FinalOutputFound(o) => NextFinalOutput(o)
        case HandoffMatched(h) => NextHandoff(h.agent)
        case ToolCallsFound(_) => NextRunAgain)
  {
    if processed.ToolCallsFound? {
      ToolItemsSpec(tools, ToolCallList(processed.toolCalls), context, invoke);
      var r := TurnEffects(tools, originalInput, preItems, response, processed, context, invoke);
      if r.Success? {
        var results := ToolItems(tools, ToolCallList(processed.toolCalls), context, invoke).value;
        var items := r.value.generatedItems;
        assert items == preItems + [RunItem(AiMessage, response.output)] + results;
        assert forall j :: |preItems| < j < |items| ==> items[j] == results[j - |preItems| - 1];
      }
    }
  }

  /** The loop form of `executeToolsAndSideEffects`. */
  method ExecuteToolsAndSideEffects(tools: seq<Tool>, originalInput: RunInput, preItems: seq<RunItem>, response: ModelResponse,
                                    processed: ProcessedResponse, context: Value, invoke: Invoker)
    returns (r: Result<TurnResult, RunError>)
    ensures r == TurnEffects(tools, originalInput, preItems, response, processed, context, invoke)
  {
    var items := preItems + [RunItem(AiMessage, response.output)];
    match processed {
      case FinalOutputFound(o) =>
        return Success(TurnResult(originalInput, items, response, NextFinalOutput(o)));
      case HandoffMatched(h) =>
        return Success(TurnResult(originalInput, items, response, NextHandoff(h.agent)));
      case ToolCallsFound(c) =>
        var calls := ToolCallList(c);
        var results: seq<RunItem> := [];
        var i := 0;
        assert calls[0..] == calls;
        assert Prepend([], ToolItems(tools, calls, context, invoke)) == ToolItems(tools, calls, context, invoke) by {
          if ToolItems(tools, calls, context, invoke).Success? {
            assert [] + ToolItems(tools, calls, context, invoke).value == ToolItems(tools, calls, context, invoke).value;
          }
        }
        while i < |calls|
          invariant 0 <= i <= |calls|
          invariant ToolItems(tools, calls, context, invoke) == Prepend(results, ToolItems(tools, calls[i..], context, invoke))
        {
          assert calls[i..][1..] == calls[i + 1..];
          var d := DispatchCall(tools, calls[i], context, invoke);
          if d.Failure? {
            return Failure(d.error);
          }
          PrependTwice(results, d.value, ToolItems(tools, calls[i + 1..], context, invoke));
          results := results + d.value;
          i := i + 1;
        }
        assert calls[i..] == [] && results + [] == results;
        return Success(TurnResult(originalInput, items + results, response, NextRunAgain));
    }
  }

  lemma PrependTwice(xs: seq<RunItem>, ys: seq<RunItem>, r: Result<seq<RunItem>, RunError>)
    ensures Prepend(xs, Prepend(ys, r)) == Prepend(xs + ys, r)
  {
    if r.Success? {
      assert xs + (ys + r.value) == (xs + ys) + r.value;
    }
  }

  // ---------------------------------------------------------------------
  // Guardrails

  /** The position of the first tripped verdict; the length when none trips. */
  function FirstTripped(verdicts: seq<GuardrailOutput>): (k: nat)
    ensures k <= |verdicts|
    ensures forall j :: 0 <= j < k ==> !verdicts[j].tripwireTriggered
    ensures k < |verdicts| ==> verdicts[k].tripwireTriggered
    decreases |verdicts|
  {
    if |verdicts| == 0 then 0
    else if verdicts[0].tripwireTriggered then 0
    else 1 + FirstTripped(verdicts[1..])
  }

  /** The verdicts of the input guardrails, in declaration order. */
  function InputVerdicts(guardrails: seq<InputGuardrail>, input: Value, context: Value, agent: Agent, check: InputCheck): (vs: seq<GuardrailOutput>)
    ensures |vs| == |guardrails| && forall i :: 0 <= i < |guardrails| ==> vs[i] == check(guardrails[i], input, context, agent)
  {
    seq(|guardrails|, i requires 0 <= i < |guardrails| => check(guardrails[i], input, context, agent))
  }

  /** The verdicts of the output guardrails, in declaration order. */
  function OutputVerdicts(guardrails: seq<OutputGuardrail>, output: Value, context: Value, agent: Agent, check: OutputCheck): (vs: seq<GuardrailOutput>)
    ensures |vs| == |guardrails| && forall i :: 0 <= i < |guardrails| ==> vs[i] == check(guardrails[i], output, context, agent)
  {
    seq(|guardrails|, i requires 0 <= i < |guardrails| => check(guardrails[i], output, context, agent))
  }

  /** `runInputGuardrails`: one result per guardrail, or the exception for the first tripwire. */
  function InputOutcome(guardrails: seq<InputGuardrail>, input: Value, context: Value, agent: Agent, check: InputCheck): Result<seq<InputGuardrailResult>, RunError> {
    var vs := InputVerdicts(guardrails, input, context, agent, check);
    var k := FirstTripped(vs);
    if k < |guardrails| then Failure(InputTripwire(InputGuardrailResult(guardrails[k], vs[k])))
    else Success(seq(|guardrails|, i requires 0 <= i < |guardrails| => InputGuardrailResult(guardrails[i], vs[i])))
  }

  /** `runOutputGuardrails`: one result per guardrail, or the exception for the first tripwire. */
  function OutputOutcome(guardrails: seq<OutputGuardrail>, output: Value, context: Value, agent: Agent, check: OutputCheck): Result<seq<OutputGuardrailResult>, RunError> {
    var vs := OutputVerdicts(guardrails, output, context, agent, check);
    var k := FirstTripped(vs);
    if k < |guardrails| then Failure(OutputTripwire(OutputGuardrailResult(guardrails[k], vs[k])))
    else Success(seq(|guardrails|, i requires 0 <= i < |guardrails| => OutputGuardrailResult(guardrails[i], vs[i])))
  }

  /**
   * The input pass succeeds exactly when no guardrail trips, with one result
   * per guardrail in order; otherwise the exception carries the result of
   * the first guardrail that trips, all earlier ones having passed.
   */
  lemma InputOutcomeSpec(guardrails: seq<InputGuardrail>, input: Value, context: Value, agent: Agent, check: InputCheck)
    ensures var r := InputOutcome(guardrails, input, context, agent, check);
      (r.Success? <==> forall i :: 0 <= i < |guardrails| ==> !check(guardrails[i], input, context, agent).tripwireTriggered) &&
      (r.Success? ==> (|r.value| == |guardrails| &&
        forall i :: 0 <= i < |guardrails| ==> r.value[i] == InputGuardrailResult(guardrails[i], check(guardrails[i], input, context, agent)))) &&
      (r.Failure? ==> (r.error.InputGuardrailTripwireTriggered? &&
        exists k :: 0 <= k < |guardrails| && r.error.inputResult == InputGuardrailResult(guardrails[k], check(guardrails[k], input, context, agent)) &&
          check(guardrails[k], input, context, agent).tripwireTriggered &&
          forall j :: 0 <= j < k ==> !check(guardrails[j], input, context, agent).tripwireTriggered))
  {
    var vs := InputVerdicts(guardrails, input, context, agent, check);
    var k := FirstTripped(vs);
    assert forall i :: 0 <= i < |guardrails| ==> vs[i] == check(guardrails[i], input, context, agent);
    if k < |guardrails| {
      assert InputOutcome(guardrails, input, context, agent, check).error.inputResult == InputGuardrailResult(guardrails[k], vs[k]);
    }
  }

  /** The output pass, likewise. */
  lemma OutputOutcomeSpec(guardrails: seq<OutputGuardrail>, output: Value, context: Value, agent: Agent, check: OutputCheck)
    ensures var r := OutputOutcome(guardrails, output, context, agent, check);
      (r.Success? <==> forall i :: 0 <= i < |guardrails| ==> !check(guardrails[i], output, context, agent).tripwireTriggered) &&
      (r.Success? ==> (|r.value| == |guardrails| &&
        forall i :: 0 <= i < |guardrails| ==> r.value[i] == OutputGuardrailResult(guardrails[i], check(guardrails[i], output, context, agent)))) &&
      (r.Failure? ==> (r.error.OutputGuardrailTripwireTriggered? &&
        exists k :: 0 <= k < |guardrails| && r.error.outputResult == OutputGuardrailResult(guardrails[k], check(guardrails[k], output, context, agent)) &&
          check(guardrails[k], output, context, agent).tripwireTriggered &&
          forall j :: 0 <= j < k ==> !check(guardrails[j], output, context, agent).tripwireTriggered))
  {
    var vs := OutputVerdicts(guardrails, output, context, agent, check);
    var k := FirstTripped(vs);
    assert forall i :: 0 <= i < |guardrails| ==> vs[i] == check(guardrails[i], output, context, agent);
    if k < |guardrails| {
      assert OutputOutcome(guardrails, output, context, agent, check).error.outputResult == OutputGuardrailResult(guardrails[k], vs[k]);
    }
  }

  /**
   * The loop of `runInputGuardrails`; `evaluated` counts the checks made,
   * which stop right after the first tripwire.
   */
  method RunInputGuardrails(agent: Agent, guardrails: seq<InputGuardrail>, input: Value, context: Value, check: InputCheck)
    returns (r: Result<seq<InputGuardrailResult>, RunError>, ghost evaluated: nat)
    ensures r == InputOutcome(guardrails, input, context, agent, check)
    ensures evaluated == if r.Success? then |guardrails| else FirstTripped(InputVerdicts(guardrails, input, context, agent, check)) + 1
  {
    ghost var vs := InputVerdicts(guardrails, input, context, agent, check);
    var results: seq<InputGuardrailResult> := [];
    var i := 0;
    while i < |guardrails|
      invariant 0 <= i <= |guardrails|
      invariant |results| == i && forall j :: 0 <= j < i ==> results[j] == InputGuardrailResult(guardrails[j], vs[j]) && !vs[j].tripwireTriggered
    {
      var verdict := check(guardrails[i], input, context, agent);
      assert verdict == vs[i];
      results := results + [InputGuardrailResult(guardrails[i], verdict)];
      if verdict.tripwireTriggered {
        assert FirstTripped(vs) == i;
        return Failure(InputTripwire(results[i])), i + 1;
      }
      i := i + 1;
    }
    assert FirstTripped(vs) == |guardrails|;
    assert results == seq(|guardrails|, i requires 0 <= i < |guardrails| => InputGuardrailResult(guardrails[i], vs[i]));
    r, evaluated := Success(results), i;
  }

  /** The loop of `runOutputGuardrails`. */
  method RunOutputGuardrails(guardrails: seq<OutputGuardrail>, agent: Agent, output: Value, context: Value, check: OutputCheck)
    returns (r: Result<seq<OutputGuardrailResult>, RunError>, ghost evaluated: nat)
    ensures r == OutputOutcome(guardrails, output, context, agent, check)
    ensures evaluated == if r.Success? then |guardrails| else FirstTripped(OutputVerdicts(guardrails, output, context, agent, check)) + 1
  {
    ghost var vs := OutputVerdicts(guardrails, output, context, agent, check);
    var results: seq<OutputGuardrailResult> := [];
    var i := 0;
    while i < |guardrails|
      invariant 0 <= i <= |guardrails|
      invariant |results| == i && forall j :: 0 <= j < i ==> results[j] == OutputGuardrailResult(guardrails[j], vs[j]) && !vs[j].tripwireTriggered
    {
      var verdict := check(guardrails[i], output, context, agent);
      assert verdict == vs[i];
      results := results + [OutputGuardrailResult(guardrails[i], verdict)];
      if verdict.tripwireTriggered {
        assert FirstTripped(vs) == i;
        return Failure(OutputTripwire(results[i])), i + 1;
      }
      i := i + 1;
    }
    assert FirstTripped(vs) == |guardrails|;
    assert results == seq(|guardrails|, i requires 0 <= i < |guardrails| => OutputGuardrailResult(guardrails[i], vs[i]));
    r, evaluated := Success(results), i;
  }

  // ---------------------------------------------------------------------
  // Tripwire exceptions

  /** What the constructor of a tripwire exception is handed. */
  datatype TripwireArgument =
    | VerdictArgument(verdict: GuardrailOutput)
    | InputResultArgument(inputResult: InputGuardrailResult)
    | OutputResultArgument(outputResult: OutputGuardrailResult)

  /**
   * `new InputGuardrailTripwireTriggered($result)`: the parameter is typed
   * `InputGuardrailResult`, so any other argument is a `TypeError`.
   */
  function NewInputTripwire(arg: TripwireArgument): RunError {
    if arg.InputResultArgument? then InputGuardrailTripwireTriggered(arg.inputResult)
    else TypeError("InputGuardrailTripwireTriggered::__construct(): Argument #1 ($result) must be of type InputGuardrailResult")
  }

  /** `new OutputGuardrailTripwireTriggered($result)`, likewise for `OutputGuardrailResult`. */
  function NewOutputTripwire(arg: TripwireArgument): RunError {
    if arg.OutputResultArgument? then OutputGuardrailTripwireTriggered(arg.outputResult)
    else TypeError("OutputGuardrailTripwireTriggered::__construct(): Argument #1 ($result) must be of type OutputGuardrailResult")
  }

  /** The input loop's `throw` as written: it hands over the verdict `$result`, a `GuardrailOutput`. */
  function InputTripwireAsWritten(result: InputGuardrailResult): RunError {
    NewInputTripwire(VerdictArgument(result.output))
  }

  /** The output loop's `throw` as written, likewise. */
  function OutputTripwireAsWritten(result: OutputGuardrailResult): RunError {
    NewOutputTripwire(VerdictArgument(result.output))
  }

  /**
   * As written, a tripped guardrail never reaches the caller as its
   * tripwire exception: constructing the exception is a `TypeError`.
   */
  lemma TripwireAsWrittenIsTypeError(i: InputGuardrailResult, o: OutputGuardrailResult)
    ensures InputTripwireAsWritten(i).TypeError? && !InputTripwireAsWritten(i).InputGuardrailTripwireTriggered?
    ensures OutputTripwireAsWritten(o).TypeError? && !OutputTripwireAsWritten(o).OutputGuardrailTripwireTriggered?
  {
  }

  /** The input exception as intended: it carries the result recorded just before the throw. */
  function InputTripwire(result: InputGuardrailResult): (e: RunError)
    ensures e == InputGuardrailTripwireTriggered(result)
    ensures Message(e) == Some("Input guardrail tripwire triggered: " + result.guardrail.name)
  {
    NewInputTripwire(InputResultArgument(result))
  }

  /** The output exception as intended. */
  function OutputTripwire(result: OutputGuardrailResult): (e: RunError)
    ensures e == OutputGuardrailTripwireTriggered(result)
    ensures Message(e) == Some("Output guardrail tripwire triggered: " + result.guardrail.name)
  {
    NewOutputTripwire(OutputResultArgument(result))
  }

  /** The message of an exception whose text this model knows. */
  function Message(e: RunError): Option<string> {
    match e
    case MaxTurnsExceeded(n) => Some("Max turns (" + IntToString(n) + ") exceeded")
    case InputGuardrailTripwireTriggered(r) => Some("Input guardrail tripwire triggered: " + r.guardrail.name)
    case OutputGuardrailTripwireTriggered(r) => Some("Output guardrail tripwire triggered: " + r.guardrail.name)
    case TypeError(m) => Some(m)
    case _ => None
  }

  // ---------------------------------------------------------------------
  // Preparing a turn

  /** The input forms of the generated items, in order. */
  function ItemMessages(items: seq<RunItem>): seq<Value>
    decreases |items|
  {
    if |items| == 0 then [] else ItemMessages(items[..|items| - 1]) + [ToInputItem(items[|items| - 1])]
  }

  /** The messages of a turn: the run input as a message list, then the generated items. */
  function InputMessages(input: RunInput, items: seq<RunItem>): seq<Value> {
    InputToNewInputList(input) + ItemMessages(items)
  }

  /**
   * A text input becomes one user message and a message list is kept; each
   * generated item then contributes its input form, in order, so the
   * length is the base length plus the number of items.
   */
  lemma {:induction false} InputMessagesShape(input: RunInput, items: seq<RunItem>)
    ensures var base := InputToNewInputList(input);
      var msgs := InputMessages(input, items);
      |msgs| == |base| + |items| && msgs[..|base|] == base &&
      forall i :: 0 <= i < |items| ==> msgs[|base| + i] == ToInputItem(items[i])
    ensures input.TextInput? ==> InputMessages(input, items)[..1] == [UserTextMessage(input.text)]
    ensures input.MessageList? ==> InputMessages(input, items)[..|input.messages|] == input.messages
    decreases |items|
  {
    if |items| > 0 {
      InputMessagesShape(input, items[..|items| - 1]);
    }
  }

  /** `prepareInput`. */
  method PrepareInput(input: RunInput, items: seq<RunItem>) returns (msgs: seq<Value>)
    ensures msgs == InputMessages(input, items)
  {
    msgs := InputToNewInputList(input);
    var i := 0;
    while i < |items|
      invariant 0 <= i <= |items|
      invariant msgs == InputToNewInputList(input) + ItemMessages(items[..i])
    {
      assert items[..i + 1][..i] == items[..i];
      msgs := msgs + [ToInputItem(items[i])];
      i := i + 1;
    }
    assert items[..|items|] == items;
  }

  /** The name a span records for a handoff-list entry. */
  function EntryName(entry: HandoffEntry): string
    reads if entry.PlainAgent? then {entry.agent} else {}
  {
    match entry
    case HandoffObject(h) => h.agentName
    case PlainAgent(a) => a.name
  }

  /** `getHandoffNames`: one name per entry, in order. */
  method GetHandoffNames(agent: Agent) returns (names: seq<string>)
    ensures |names| == |agent.handoffs|
    ensures forall i :: 0 <= i < |names| ==> names[i] == EntryName(agent.handoffs[i])
  {
    names := [];
    var i := 0;
    while i < |agent.handoffs|
      invariant 0 <= i <= |agent.handoffs|
      invariant |names| == i && forall j :: 0 <= j < i ==> names[j] == EntryName(agent.handoffs[j])
    {
      match agent.handoffs[i] {
        case HandoffObject(h) => names := names + [h.agentName];
        case PlainAgent(a) => names := names + [a.name];
      }
      i := i + 1;
    }
  }

  /** `getToolNames`: one name per tool, in order. */
  method GetToolNames(agent: Agent) returns (names: seq<string>)
    ensures |names| == |agent.tools|
    ensures forall i :: 0 <= i < |names| ==> names[i] == agent.tools[i].name
  {
    names := [];
    var i := 0;
    while i < |agent.tools|
      invariant 0 <= i <= |agent.tools|
      invariant |names| == i && forall j :: 0 <= j < i ==> names[j] == agent.tools[j].name
    {
      names := names + [agent.tools[i].name];
      i := i + 1;
    }
  }

  // ---------------------------------------------------------------------
  // One turn, and the history of a run

  /** What a run is given besides the trace: the starting agent, the input, the user context, the configuration in force, the runner's provider, the default model name and the collaborators. */
  datatype RunParams = RunParams(
    start: Agent,
    input: RunInput,
    context: Value,
    config: ConfigState,
    provider: ProviderId,
    defaultModel: Option<string>,
    env: Collaborators)

  /** The request `runSingleTurn` makes for an agent with fields `s` after the given items. */
  function TurnRequest(p: RunParams, agent: Agent, s: AgentState, items: seq<RunItem>): ModelRequest {
    ModelRequest(
      SelectModel(p.config.model, s.model, p.provider, p.defaultModel, p.env.lookup),
      Prompt(s.instructions, p.context, p.env.closures, agent),
      InputMessages(p.input, items),
      ResolveModelSettings(s.modelSettings, p.config.modelSettings),
      s.tools, s.outputType, s.handoffs)
  }

  /** What `runSingleTurn` returns for that request: the model's failure, or the classified response's effects. */
  function TurnOutcome(p: RunParams, s: AgentState, items: seq<RunItem>, request: ModelRequest): Result<TurnResult, RunError> {
    match p.env.respond(request)
    case None => Failure(ModelCallFailed(request))
    case Some(response) =>
      TurnEffects(s.tools, p.input, items, response, ProcessModelResponse(response.output, s.outputType, s.handoffs), p.context, p.env.invoke)
  }

  /** One completed turn: the agent, its fields then, the items before the turn, the request and the result. */
  datatype Turn = Turn(agent: Agent, state: AgentState, itemsBefore: seq<RunItem>, request: ModelRequest, result: TurnResult)

  predicate IsFinal(t: Turn) {
    t.result.nextStep.NextFinalOutput?
  }

  /** The agent that runs after a turn: the handoff's target, or the same agent. */
  function AgentAfter(t: Turn): Agent {
    if t.result.nextStep.NextHandoff? then t.result.nextStep.newAgent else t.agent
  }

  /** The agent of the next turn. */
  function CurrentAgent(p: RunParams, turns: seq<Turn>): Agent {
    if |turns| == 0 then p.start else AgentAfter(turns[|turns| - 1])
  }

  /** The items the next turn starts from. */
  function CurrentItems(turns: seq<Turn>): seq<RunItem> {
    if |turns| == 0 then [] else turns[|turns| - 1].result.generatedItems
  }

  /** The model responses of the turns, in order. */
  function Responses(turns: seq<Turn>): (rs: seq<ModelResponse>)
    ensures |rs| == |turns| && forall k :: 0 <= k < |turns| ==> rs[k] == turns[k].result.modelResponse
  {
    seq(|turns|, k requires 0 <= k < |turns| => turns[k].result.modelResponse)
  }

  /** The agents spans are opened for: the starting agent, then each handoff's target. */
  function SegmentAgents(p: RunParams, turns: seq<Turn>): (agents: seq<Agent>)
    ensures |agents| > 0 && agents[0] == p.start
    decreases |turns|
  {
    if |turns| == 0 then [p.start]
    else
      var last := turns[|turns| - 1];
      SegmentAgents(p, turns[..|turns| - 1]) + (if last.result.nextStep.NextHandoff? then [last.result.nextStep.newAgent] else [])
  }

  /**
   * `t` is the turn a run makes after the history `before`: its agent is
   * the current one, it starts from the current items, its request is the
   * one `runSingleTurn` builds from the agent's fields, and it succeeded.
   */
  ghost predicate Follows(p: RunParams, before: seq<Turn>, t: Turn)
    decreases |before|, 1
  {
    History(p, before) && (|before| > 0 ==> !IsFinal(before[|before| - 1])) &&
    t.agent == CurrentAgent(p, before) && t.itemsBefore == CurrentItems(before) &&
    t.request == TurnRequest(p, t.agent, t.state, t.itemsBefore) &&
    TurnOutcome(p, t.state, t.itemsBefore, t.request) == Success(t.result)
  }

  /**
   * The turns of a run so far: each follows the ones before it, starting
   * from the starting agent and no items, and every turn before the last
   * continued the run.
   */
  ghost predicate History(p: RunParams, turns: seq<Turn>)
    decreases |turns|, 0
  {
    |turns| == 0 || Follows(p, turns[..|turns| - 1], turns[|turns| - 1])
  }

  /** In a history every turn follows its predecessors. */
  lemma {:induction false} HistoryEach(p: RunParams, turns: seq<Turn>, k: nat)
    requires History(p, turns) && k < |turns|
    ensures Follows(p, turns[..k], turns[k])
    decreases |turns|
  {
    var before := turns[..|turns| - 1];
    if k < |before| {
      HistoryEach(p, before, k);
      assert before[..k] == turns[..k] && before[k] == turns[k];
    }
  }

  /** In a history only the last turn may be final. */
  lemma {:induction false} HistoryContinues(p: RunParams, turns: seq<Turn>)
    requires History(p, turns)
    ensures forall k :: 0 <= k < |turns| - 1 ==> !IsFinal(turns[k])
    decreases |turns|
  {
    if |turns| > 0 {
      var before := turns[..|turns| - 1];
      HistoryContinues(p, before);
      forall k | 0 <= k < |turns| - 1
        ensures !IsFinal(turns[k])
      {
        assert before[k] == turns[k];
      }
    }
  }

  // ---------------------------------------------------------------------
  // The span log of a run

  /** Spans opened and finished on a handoff, one pair of calls each. */
  function ClosedSpans(names: seq<string>, ids: seq<string>): seq<TraceCall>
    requires |names| == |ids|
    decreases |names|
  {
    if |names| == 0 then []
    else ClosedSpans(names[..|names| - 1], ids[..|ids| - 1]) + [SpanStartCalled(names[|names| - 1], ids[|ids| - 1]), SpanFinishCalled(ids[|ids| - 1])]
  }

  /** The calls the trace gets after the last span opened, by the way the run ends. */
  function ExitCalls(r: Result<RunResult, RunError>, spanId: string): seq<TraceCall> {
    if r.Success? then [SpanFinishCalled(spanId), SpanFinishCalled(spanId)]
    else if r.error.MaxTurnsExceeded? then
      [SpanErrorCalled(spanId, "Max turns exceeded", VMap(map["max_turns" := VInt(r.error.maxTurns)])), SpanFinishCalled(spanId)]
    else [SpanFinishCalled(spanId)]
  }

  /** The span calls of a whole run: the handed-off spans, then the last span and its exit calls. */
  function SpanLog(names: seq<string>, ids: seq<string>, r: Result<RunResult, RunError>): seq<TraceCall>
    requires |names| == |ids| > 0
  {
    var n := |names|;
    ClosedSpans(names[..n - 1], ids[..n - 1]) + [SpanStartCalled(names[n - 1], ids[n - 1])] + ExitCalls(r, ids[n - 1])
  }

  /** The log of the spans opened so far: the handed-off ones, then the open one if any. */
  function OpenLog(names: seq<string>, ids: seq<string>, open: bool): seq<TraceCall>
    requires |names| == |ids| && (open ==> |names| > 0)
  {
    if open then ClosedSpans(names[..|names| - 1], ids[..|ids| - 1]) + [SpanStartCalled(names[|names| - 1], ids[|ids| - 1])]
    else ClosedSpans(names, ids)
  }

  /** The calls the loop makes as it exits; the `finally` block then finishes the span once more. */
  function LoopExitCalls(r: Result<RunResult, RunError>, spanId: string): seq<TraceCall> {
    if r.Success? then [SpanFinishCalled(spanId)]
    else if r.error.MaxTurnsExceeded? then [SpanErrorCalled(spanId, "Max turns exceeded", VMap(map["max_turns" := VInt(r.error.maxTurns)]))]
    else []
  }

  /** Opening a span after `base` and the closed spans logs its start. */
  lemma OpenSpanLog(base: seq<TraceCall>, names: seq<string>, ids: seq<string>, name: string, id: string)
    requires |names| == |ids|
    ensures base + OpenLog(names + [name], ids + [id], true) == base + OpenLog(names, ids, false) + [SpanStartCalled(name, id)]
  {
    assert (names + [name])[..|names|] == names;
    assert (ids + [id])[..|ids|] == ids;
  }

  /** Finishing the open span after `base` closes it in the log. */
  lemma CloseSpanLog(base: seq<TraceCall>, names: seq<string>, ids: seq<string>)
    requires |names| == |ids| > 0
    ensures base + OpenLog(names, ids, true) + [SpanFinishCalled(ids[|ids| - 1])] == base + OpenLog(names, ids, false)
  {
    var n := |names|;
    var prefix := ClosedSpans(names[..n - 1], ids[..n - 1]);
    assert prefix + [SpanStartCalled(names[n - 1], ids[n - 1])] + [SpanFinishCalled(ids[n - 1])]
        == prefix + [SpanStartCalled(names[n - 1], ids[n - 1]), SpanFinishCalled(ids[n - 1])];
  }

  /** The loop's calls and the `finally` block's finish make up the span log. */
  lemma RunLog(names: seq<string>, ids: seq<string>, r: Result<RunResult, RunError>)
    requires |names| == |ids| > 0
    ensures OpenLog(names, ids, true) + LoopExitCalls(r, ids[|ids| - 1]) + [SpanFinishCalled(ids[|ids| - 1])] == SpanLog(names, ids, r)
  {
  }

  /** An exit that makes no trace call leaves the log as it is. */
  lemma QuietExit(log: seq<TraceCall>, r: Result<RunResult, RunError>, spanId: string)
    requires r.Failure? && !r.error.MaxTurnsExceeded?
    ensures log + LoopExitCalls(r, spanId) == log
  {
  }

  lemma Regroup<T>(a: seq<T>, x: seq<T>, y: seq<T>, u: T, v: T)
    ensures a + x + y + [u, v] == a + (x + y + [u]) + [v]
  {
  }

  /** The number of turns a limit allows. */
  function Bound(maxTurns: int): nat {
    if maxTurns < 0 then 0 else maxTurns
  }

  /** The errors a turn itself can end with. */
  predicate IsTurnError(e: RunError) {
    e.ModelCallFailed? || e.ToolNameNotString? || e.ToolArgumentsNotArray?
  }

  /** A turn fails only because the model call or the tool loop does. */
  lemma TurnErrors(p: RunParams, s: AgentState, items: seq<RunItem>, request: ModelRequest)
    ensures TurnOutcome(p, s, items, request).Failure? ==> IsTurnError(TurnOutcome(p, s, items, request).error)
  {
    var response := p.env.respond(request);
    if response.Some? {
      var processed := ProcessModelResponse(response.value.output, s.outputType, s.handoffs);
      if processed.ToolCallsFound? {
        ToolItemsSpec(s.tools, ToolCallList(processed.toolCalls), p.context, p.env.invoke);
      }
    }
  }

  /**
   * The fields of the agents a run meets, as it read them. Nothing in a
   * run assigns an agent's fields, so they stay as recorded.
   */
  ghost predicate Unmoved(m: map<Agent, AgentState>)
    reads m.Keys
  {
    forall a :: a in m ==> a.State() == m[a]
  }

  /**
   * The facts about a run's turns and spans that hold throughout the loop:
   * at most `bound` turns, each following from the one before; one span per
   * segment (the current one open or not yet opened), named after its
   * agent; `m` records every agent met, and each turn used its agent's
   * recorded fields.
   */
  ghost predicate Consistent(p: RunParams, m: map<Agent, AgentState>, bound: nat, turns: seq<Turn>,
                             names: seq<string>, ids: seq<string>, open: bool) {
    var segments := SegmentAgents(p, turns);
    |turns| <= bound && History(p, turns) &&
    |names| == |ids| && |ids| == |segments| - (if open then 0 else 1) &&
    p.start in m && AllRecorded(m, segments) && TurnsRecorded(m, turns) &&
    names == RecordedNames(m, segments[..|names|])
  }

  /** The names the agents were recorded with, in order. */
  function RecordedNames(m: map<Agent, AgentState>, agents: seq<Agent>): (names: seq<string>)
    ensures |names| == |agents|
    decreases |agents|
  {
    if |agents| == 0 then []
    else
      var a := agents[|agents| - 1];
      RecordedNames(m, agents[..|agents| - 1]) + [if a in m then m[a].name else ""]
  }

  /** One more agent, one more name. */
  lemma RecordedNamesStep(m: map<Agent, AgentState>, agents: seq<Agent>, k: nat)
    requires k < |agents|
    ensures RecordedNames(m, agents[..k + 1]) == RecordedNames(m, agents[..k]) + [if agents[k] in m then m[agents[k]].name else ""]
  {
    assert agents[..k + 1][..k] == agents[..k];
  }

  /** Recording another agent leaves the names of those already recorded alone. */
  lemma {:induction false} RecordedNamesFrame(m: map<Agent, AgentState>, a: Agent, v: AgentState, agents: seq<Agent>)
    requires a in m ==> m[a] == v
    requires AllRecorded(m, agents)
    ensures RecordedNames(m[a := v], agents) == RecordedNames(m, agents)
    decreases |agents|
  {
    if |agents| > 0 {
      RecordedNamesFrame(m, a, v, agents[..|agents| - 1]);
    }
  }

  /**
   * How a run that completed these turns ends (lines 103-179). Success
   * needs a final turn whose output passes the output guardrails, and
   * returns the input, that turn's items, every response, the output, the
   * agent and both result lists. The limit is exceeded exactly when all
   * allowed turns continued the run. The input tripwire comes before any
   * model call; the output tripwire ends a final turn; any other error is
   * that of the turn the run would make next, within the limit.
   */
  ghost predicate Outcome(p: RunParams, m: map<Agent, AgentState>, L: int, turns: seq<Turn>, r: Result<RunResult, RunError>) {
    var M := Bound(L);
    p.start in m && CurrentAgent(p, turns) in m &&
    var inputPass := InputOutcome(m[p.start].inputGuardrails, InputValue(p.input), p.context, p.start, p.env.checkInput);
    (r.Success? ==>
      |turns| > 0 && IsFinal(turns[|turns| - 1]) && inputPass.Success? &&
      var last := turns[|turns| - 1];
      var o := last.result.nextStep.output;
      var outputPass := OutputOutcome(last.state.outputGuardrails, o, p.context, last.agent, p.env.checkOutput);
      outputPass.Success? &&
      r.value == RunResult(p.input, last.result.generatedItems, Responses(turns), o, last.agent, inputPass.value, outputPass.value)) &&
    (r == Failure(MaxTurnsExceeded(L)) <==> |turns| == M && (M == 0 || !IsFinal(turns[|turns| - 1]))) &&
    (r.Failure? ==>
      r.error == MaxTurnsExceeded(L) || r.error.InputGuardrailTripwireTriggered? ||
      r.error.OutputGuardrailTripwireTriggered? || IsTurnError(r.error)) &&
    (r.Failure? && r.error.InputGuardrailTripwireTriggered? ==> turns == [] && M > 0 && inputPass == Failure(r.error)) &&
    (r.Failure? && r.error.OutputGuardrailTripwireTriggered? ==>
      |turns| > 0 && IsFinal(turns[|turns| - 1]) &&
      var last := turns[|turns| - 1];
      OutputOutcome(last.state.outputGuardrails, last.result.nextStep.output, p.context, last.agent, p.env.checkOutput) == Failure(r.error)) &&
    (r.Failure? && IsTurnError(r.error) ==>
      |turns| < M && (|turns| == 0 ==> inputPass.Success?) && (|turns| > 0 ==> !IsFinal(turns[|turns| - 1])) &&
      var a := CurrentAgent(p, turns);
      TurnOutcome(p, m[a], CurrentItems(turns), TurnRequest(p, a, m[a], CurrentItems(turns))) == Failure(r.error))
  }

  /** Recording a turn extends the history and moves the agent, the items, the responses and the segments on. */
  lemma RecordTurn(p: RunParams, turns: seq<Turn>, t: Turn)
    requires Follows(p, turns, t)
    ensures History(p, turns + [t])
    ensures CurrentAgent(p, turns + [t]) == AgentAfter(t) && CurrentItems(turns + [t]) == t.result.generatedItems
    ensures Responses(turns + [t]) == Responses(turns) + [t.result.modelResponse]
    ensures !t.result.nextStep.NextHandoff? ==> SegmentAgents(p, turns + [t]) == SegmentAgents(p, turns)
    ensures t.result.nextStep.NextHandoff? ==> SegmentAgents(p, turns + [t]) == SegmentAgents(p, turns) + [t.result.nextStep.newAgent]
  {
    assert (turns + [t])[..|turns|] == turns;
  }

  /** Every one of these agents has its fields recorded. */
  ghost predicate AllRecorded(m: map<Agent, AgentState>, agents: seq<Agent>)
    decreases |agents|
  {
    |agents| == 0 || (AllRecorded(m, agents[..|agents| - 1]) && agents[|agents| - 1] in m)
  }

  /** Every turn was made with its agent's recorded fields. */
  ghost predicate TurnsRecorded(m: map<Agent, AgentState>, turns: seq<Turn>)
    decreases |turns|
  {
    |turns| == 0 || (TurnsRecorded(m, turns[..|turns| - 1]) &&
      var t := turns[|turns| - 1]; t.agent in m && m[t.agent] == t.state)
  }

  lemma AllRecordedStep(m: map<Agent, AgentState>, agents: seq<Agent>, a: Agent)
    requires AllRecorded(m, agents) && a in m
    ensures AllRecorded(m, agents + [a])
  {
    assert (agents + [a])[..|agents|] == agents;
  }

  lemma TurnsRecordedStep(m: map<Agent, AgentState>, turns: seq<Turn>, t: Turn)
    requires TurnsRecorded(m, turns) && t.agent in m && m[t.agent] == t.state
    ensures TurnsRecorded(m, turns + [t])
  {
    assert (turns + [t])[..|turns|] == turns;
  }

  /** Recording one more agent keeps the agents recorded, and the turns when it agrees with what they used. */
  lemma {:induction false} RecordedFrame(m: map<Agent, AgentState>, a: Agent, v: AgentState, agents: seq<Agent>, turns: seq<Turn>)
    requires a in m ==> m[a] == v
    ensures AllRecorded(m, agents) ==> AllRecorded(m[a := v], agents)
    ensures TurnsRecorded(m, turns) ==> TurnsRecorded(m[a := v], turns)
    decreases |agents| + |turns|
  {
    if |agents| > 0 {
      RecordedFrame(m, a, v, agents[..|agents| - 1], turns);
    }
    if |turns| > 0 {
      RecordedFrame(m, a, v, agents, turns[..|turns| - 1]);
    }
  }

  lemma MaxTurnsExit(p: RunParams, m: map<Agent, AgentState>, L: int, turns: seq<Turn>, names: seq<string>, ids: seq<string>)
    requires Consistent(p, m, Bound(L), turns, names, ids, true) && |turns| + 1 > L
    requires CurrentAgent(p, turns) in m
    requires |turns| > 0 ==> !IsFinal(turns[|turns| - 1])
    ensures Outcome(p, m, L, turns, Failure(MaxTurnsExceeded(L)))
  {
  }

  lemma InputTripExit(p: RunParams, m: map<Agent, AgentState>, L: int, e: RunError)
    requires 1 <= L && p.start in m
    requires InputOutcome(m[p.start].inputGuardrails, InputValue(p.input), p.context, p.start, p.env.checkInput) == Failure(e)
    ensures Outcome(p, m, L, [], Failure(e))
  {
  }

  lemma TurnFailureExit(p: RunParams, m: map<Agent, AgentState>, L: int, turns: seq<Turn>, e: RunError)
    requires p.start in m && CurrentAgent(p, turns) in m
    requires |turns| + 1 <= L && (|turns| > 0 ==> !IsFinal(turns[|turns| - 1]))
    requires |turns| == 0 ==> InputOutcome(m[p.start].inputGuardrails, InputValue(p.input), p.context, p.start, p.env.checkInput).Success?
    requires
      var a := CurrentAgent(p, turns);
      TurnOutcome(p, m[a], CurrentItems(turns), TurnRequest(p, a, m[a], CurrentItems(turns))) == Failure(e)
    ensures Outcome(p, m, L, turns, Failure(e))
  {
    var a := CurrentAgent(p, turns);
    TurnErrors(p, m[a], CurrentItems(turns), TurnRequest(p, a, m[a], CurrentItems(turns)));
  }

  lemma OutputTripExit(p: RunParams, m: map<Agent, AgentState>, L: int, turns: seq<Turn>, e: RunError)
    requires p.start in m && CurrentAgent(p, turns) in m
    requires |turns| > 0 && IsFinal(turns[|turns| - 1]) && |turns| <= Bound(L)
    requires
      var last := turns[|turns| - 1];
      OutputOutcome(last.state.outputGuardrails, last.result.nextStep.output, p.context, last.agent, p.env.checkOutput) == Failure(e)
    ensures Outcome(p, m, L, turns, Failure(e))
  {
  }

  lemma SuccessExit(p: RunParams, m: map<Agent, AgentState>, L: int, turns: seq<Turn>, r: Result<RunResult, RunError>)
    requires p.start in m && CurrentAgent(p, turns) in m
    requires |turns| > 0 && IsFinal(turns[|turns| - 1])
    requires
      var last := turns[|turns| - 1];
      var o := last.result.nextStep.output;
      var inputPass := InputOutcome(m[p.start].inputGuardrails, InputValue(p.input), p.context, p.start, p.env.checkInput);
      var outputPass := OutputOutcome(last.state.outputGuardrails, o, p.context, last.agent, p.env.checkOutput);
      inputPass.Success? && outputPass.Success? &&
      r == Success(RunResult(p.input, last.result.generatedItems, Responses(turns), o, last.agent, inputPass.value, outputPass.value))
    ensures Outcome(p, m, L, turns, r)
  {
  }

  /** The variables of the loop of `run`: the turn counter, the items, the responses, the input guardrail results, the agent and the open span. */
  datatype LoopState = LoopState(
    currentTurn: int,
    items: seq<RunItem>,
    responses: seq<ModelResponse>,
    inputResults: seq<InputGuardrailResult>,
    agent: Agent,
    span: Option<string>)

  /** What the loop has done so far: the agents met, the turns completed, the names and ids of the spans opened. */
  datatype Progress = Progress(m: map<Agent, AgentState>, turns: seq<Turn>, names: seq<string>, ids: seq<string>)

  /**
   * What holds each time the loop of `run` comes round (lines 88-180): the
   * counter counts the completed turns, none of them final; the agent, the
   * items and the responses are the history's; the agent's span is the
   * last one opened; after the first turn the input guardrails have passed.
   */
  ghost predicate Between(p: RunParams, L: int, s: LoopState, g: Progress) {
    match s.span
    case None => Round(p, L, s, g)
    case Some(id) => Round(p, L, s, g) && |g.ids| > 0 && id == g.ids[|g.ids| - 1]
  }

  ghost predicate Round(p: RunParams, L: int, s: LoopState, g: Progress) {
    var segments := SegmentAgents(p, g.turns);
    Consistent(p, g.m, Bound(L), g.turns, g.names, g.ids, s.span.Some?) &&
    (|g.turns| > 0 ==> !IsFinal(g.turns[|g.turns| - 1])) &&
    s.currentTurn == |g.turns| && s.agent == CurrentAgent(p, g.turns) && s.agent in g.m &&
    s.items == CurrentItems(g.turns) && s.responses == Responses(g.turns) &&
    segments[|segments| - 1] == s.agent &&
    (|g.turns| > 0 ==>
      InputOutcome(g.m[p.start].inputGuardrails, InputValue(p.input), p.context, p.start, p.env.checkInput) == Success(s.inputResults))
  }

  /** How the loop ended: within the facts it keeps, with this outcome, and the span still open. */
  ghost predicate Ended(p: RunParams, L: int, g: Progress, r: Result<RunResult, RunError>, spanId: string) {
    match g
    case Progress(m, turns, names, ids) =>
      Consistent(p, m, Bound(L), turns, names, ids, true) && Outcome(p, m, L, turns, r) &&
      |ids| > 0 && spanId == ids[|ids| - 1]
  }

  /** The loop state after a turn that continues with the same agent: one more turn, its items, one more response. */
  function After(s: LoopState, t: TurnResult, inputResults: seq<InputGuardrailResult>): LoopState {
    LoopState(s.currentTurn + 1, t.generatedItems, s.responses + [t.modelResponse], inputResults, s.agent, s.span)
  }

  /**
   * What a successful turn adds to the loop's facts: it follows the history,
   * made by the current agent with its recorded fields, and after the first
   * turn the input results are the ones the loop holds.
   */
  ghost predicate Made(p: RunParams, L: int, s: LoopState, g: Progress, t: Turn, inputResults: seq<InputGuardrailResult>) {
    Between(p, L, s, g) && s.span.Some? && s.currentTurn + 1 <= L &&
    Follows(p, g.turns, t) && t.agent == s.agent && t.state == g.m[s.agent] &&
    InputOutcome(g.m[p.start].inputGuardrails, InputValue(p.input), p.context, p.start, p.env.checkInput) == Success(inputResults)
  }

  /** The turn the loop makes from its state, when the model call and the tools succeed. */
  lemma TurnMade(p: RunParams, L: int, s: LoopState, g: Progress, request: ModelRequest, res: TurnResult,
                 inputResults: seq<InputGuardrailResult>)
    requires Between(p, L, s, g) && s.span.Some? && s.currentTurn + 1 <= L
    requires request == TurnRequest(p, s.agent, g.m[s.agent], s.items)
    requires TurnOutcome(p, g.m[s.agent], s.items, request) == Success(res)
    requires InputOutcome(g.m[p.start].inputGuardrails, InputValue(p.input), p.context, p.start, p.env.checkInput) == Success(inputResults)
    ensures Made(p, L, s, g, Turn(s.agent, g.m[s.agent], s.items, request, res), inputResults)
  {
  }

  /** A turn that runs again keeps the loop's facts, with the same agent and span. */
  lemma AgainStep(p: RunParams, L: int, s: LoopState, g: Progress, t: Turn, inputResults: seq<InputGuardrailResult>)
    requires Made(p, L, s, g, t, inputResults) && t.result.nextStep.NextRunAgain?
    ensures Between(p, L, After(s, t.result, inputResults), g.(turns := g.turns + [t]))
  {
    RecordTurn(p, g.turns, t);
    TurnsRecordedStep(g.m, g.turns, t);
  }

  /**
   * A turn that hands off keeps the loop's facts with the new agent, whose
   * fields are recorded, and no span open; the names recorded so far stay.
   */
  lemma HandoffStep(p: RunParams, L: int, s: LoopState, g: Progress, t: Turn, inputResults: seq<InputGuardrailResult>, v: AgentState,
                    s': LoopState, g': Progress)
    requires Made(p, L, s, g, t, inputResults) && t.result.nextStep.NextHandoff?
    requires var a := t.result.nextStep.newAgent; a in g.m ==> g.m[a] == v
    requires s' == After(s, t.result, inputResults).(agent := t.result.nextStep.newAgent, span := None)
    requires g' == Progress(g.m[t.result.nextStep.newAgent := v], g.turns + [t], g.names, g.ids)
    ensures Between(p, L, s', g') && s'.currentTurn == s.currentTurn + 1
    ensures |g.names| == |g.ids| > 0 && s.span == Some(g.ids[|g.ids| - 1])
  {
    var a := t.result.nextStep.newAgent;
    RecordTurn(p, g.turns, t);
    TurnsRecordedStep(g.m, g.turns, t);
    var segments := SegmentAgents(p, g.turns);
    RecordedFrame(g.m, a, v, segments, g.turns + [t]);
    AllRecordedStep(g.m[a := v], segments, a);
    assert segments[..|g.names|] == segments;
    assert SegmentAgents(p, g.turns + [t])[..|g.names|] == segments;
    RecordedNamesFrame(g.m, a, v, segments);
  }

  /** A final turn leaves the loop's facts as the output guardrails and the exits need them. */
  lemma FinalStep(p: RunParams, L: int, s: LoopState, g: Progress, t: Turn, inputResults: seq<InputGuardrailResult>)
    requires Made(p, L, s, g, t, inputResults) && IsFinal(t)
    ensures var g' := g.(turns := g.turns + [t]);
      var s' := After(s, t.result, inputResults);
      Consistent(p, g'.m, Bound(L), g'.turns, g'.names, g'.ids, true) &&
      Closing(p, g', s', t.result.nextStep.output)
  {
    RecordTurn(p, g.turns, t);
    TurnsRecordedStep(g.m, g.turns, t);
  }

  /** The loop's facts once a final turn is recorded: the turn, its agent and the state the result is built from. */
  ghost predicate Closing(p: RunParams, g: Progress, s: LoopState, o: Value) {
    |g.turns| > 0 && IsFinal(g.turns[|g.turns| - 1]) && g.turns[|g.turns| - 1].result.nextStep.output == o &&
    p.start in g.m && s.agent in g.m && s.agent == CurrentAgent(p, g.turns) &&
    g.turns[|g.turns| - 1].agent == s.agent && g.turns[|g.turns| - 1].state == g.m[s.agent] &&
    s.items == CurrentItems(g.turns) && s.responses == Responses(g.turns) &&
    InputOutcome(g.m[p.start].inputGuardrails, InputValue(p.input), p.context, p.start, p.env.checkInput) == Success(s.inputResults) &&
    s.span.Some? && |g.ids| > 0 && s.span.value == g.ids[|g.ids| - 1]
  }

  /** An input tripwire on the first turn ends the loop with its exception. */
  lemma InputTripped(p: RunParams, L: int, s: LoopState, g: Progress, e: RunError)
    requires Between(p, L, s, g) && s.span.Some? && s.currentTurn == 0 && 1 <= L
    requires InputOutcome(g.m[p.start].inputGuardrails, InputValue(p.input), p.context, p.start, p.env.checkInput) == Failure(e)
    ensures Ended(p, L, g, Failure(e), s.span.value)
  {
    InputTripExit(p, g.m, L, e);
  }

  /** A failing turn ends the loop with its error. */
  lemma TurnFailed(p: RunParams, L: int, s: LoopState, g: Progress, e: RunError, inputResults: seq<InputGuardrailResult>)
    requires Between(p, L, s, g) && s.span.Some? && s.currentTurn + 1 <= L
    requires InputOutcome(g.m[p.start].inputGuardrails, InputValue(p.input), p.context, p.start, p.env.checkInput) == Success(inputResults)
    requires TurnOutcome(p, g.m[s.agent], s.items, TurnRequest(p, s.agent, g.m[s.agent], s.items)) == Failure(e)
    ensures Ended(p, L, g, Failure(e), s.span.value)
  {
    TurnFailureExit(p, g.m, L, g.turns, e);
  }

  /** Past the limit the loop ends with the limit's exception. */
  lemma LimitReached(p: RunParams, L: int, s: LoopState, g: Progress)
    requires Between(p, L, s, g) && s.span.Some? && s.currentTurn + 1 > L
    ensures Ended(p, L, g, Failure(MaxTurnsExceeded(L)), s.span.value)
  {
    MaxTurnsExit(p, g.m, L, g.turns, g.names, g.ids);
  }

  /** Opening the current agent's span keeps the loop's facts, with one more name and id. */
  lemma Opened(p: RunParams, L: int, s: LoopState, g: Progress, id: string)
    requires Between(p, L, s, g) && s.span.None?
    ensures Between(p, L, s.(span := Some(id)), g.(names := g.names + [g.m[s.agent].name], ids := g.ids + [id]))
  {
    RecordedNamesStep(g.m, SegmentAgents(p, g.turns), |g.names|);
  }

  /** Recording an agent's current fields keeps the snapshot true. */
  lemma Record(m: map<Agent, AgentState>, a: Agent)
    requires Unmoved(m)
    ensures a in m ==> m[a] == a.State()
    ensures Unmoved(m[a := a.State()])
  {
  }

  /** The loop starts with the starting agent, no turns, no span and the starting agent's fields recorded. */
  lemma Started(p: RunParams, L: int, v: AgentState)
    ensures Between(p, L, LoopState(0, [], [], [], p.start, None), Progress(map[p.start := v], [], [], []))
  {
    assert Responses([]) == [];
  }

  /** An output tripwire on the final turn ends the loop with its exception. */
  lemma OutputTripped(p: RunParams, L: int, g: Progress, s: LoopState, o: Value, e: RunError)
    requires Consistent(p, g.m, Bound(L), g.turns, g.names, g.ids, true) && Closing(p, g, s, o)
    requires OutputOutcome(g.m[s.agent].outputGuardrails, o, p.context, s.agent, p.env.checkOutput) == Failure(e)
    ensures Ended(p, L, g, Failure(e), s.span.value)
  {
    OutputTripExit(p, g.m, L, g.turns, e);
  }

  /** Output guardrails that pass end the loop with the run's result. */
  lemma Succeeded(p: RunParams, L: int, g: Progress, s: LoopState, o: Value, results: seq<OutputGuardrailResult>)
    requires Consistent(p, g.m, Bound(L), g.turns, g.names, g.ids, true) && Closing(p, g, s, o)
    requires OutputOutcome(g.m[s.agent].outputGuardrails, o, p.context, s.agent, p.env.checkOutput) == Success(results)
    ensures Ended(p, L, g, Success(RunResult(p.input, s.items, s.responses, o, s.agent, s.inputResults, results)), s.span.value)
  {
    SuccessExit(p, g.m, L, g.turns, Success(RunResult(p.input, s.items, s.responses, o, s.agent, s.inputResults, results)));
  }

  /** The configuration a run uses: the given one, or a new one. */
  function ConfigOf(runConfig: RunConfig?, app: AppConfig): ConfigState
    reads runConfig
  {
    if runConfig == null then InitialState(app) else runConfig.State()
  }
}

