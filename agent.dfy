/**
 * Agents (`Agent`) and handoffs (`Handoffs\Handoff`). An agent is a mutable
 * object configured by fluent setters; a handoff is an immutable descriptor
 * that points at its target agent. The two types refer to each other (an
 * agent's handoff list holds handoffs and plain agents), so they share one
 * module.
 */
module Agents {
  import opened Values
  import opened Settings
  import opened Tools
  import opened Guardrails

  /** A model object (`Models\Model`), by identity. */
  datatype ModelId = ModelId(id: nat)

  /** A model provider object (`ModelProviderInterface`), by identity. */
  datatype ProviderId = ProviderId(id: nat)

  /** The `string|Model|null` an agent or a run configuration names its model by. */
  datatype ModelChoice = NoModel | ModelName(name: string) | ModelObject(model: ModelId)

  /** An agent's instructions: none, a fixed text, or a closure (by identity) computing them. */
  datatype Instructions = NoInstructions | TextInstructions(text: string) | ClosureInstructions(closure: nat)

  /** Calling an instructions closure with (context value, agent); the behaviour is supplied from outside. */
  type InstructionsFn = (nat, Value, Agent) -> Option<string>

  /** A handoff input filter object (`HandoffInputFilter`), by identity. */
  datatype FilterId = FilterId(id: nat)

  /** Calling a filter's `filter($input, $context, $handoff)`; the behaviour is supplied from outside. */
  type FilterFn = (FilterId, seq<Value>, Value, Handoff) -> seq<Value>

  /** An entry of an agent's handoff list: a plain agent or a `Handoff` object. */
  datatype HandoffEntry = PlainAgent(agent: Agent) | HandoffObject(handoff: Handoff)

  /**
   * A handoff to an agent. The agent name is read from the agent once, at
   * construction, and there is no setter for it.
   */
  datatype Handoff = Handoff(agent: Agent, agentName: string, description: string, inputFilter: Option<FilterId>)
  {
    /** `withInputFilter($filter)`: a copy with the filter set; the receiver is a value and stays as it was. */
    function WithInputFilter(f: FilterId): Handoff {
      this.(inputFilter := Some(f))
    }

    /** `applyInputFilter($input, $context)`: the input itself without a filter, else the filter's result. */
    function ApplyInputFilter(input: seq<Value>, context: Value, filters: FilterFn): seq<Value> {
      match inputFilter
      case None => input
      case Some(f) => filters(f, input, context, this)
    }
  }

  /** The description a handoff gets by default when its target has no handoff description. */
  function DefaultHandoffDescription(agentName: string): string {
    "Handoff to " + agentName + " agent"
  }

  /**
   * `new Handoff($agent, $description, $inputFilter)`: the name is the
   * target's, the description the given one, else the target's handoff
   * description, else the default text.
   */
  function NewHandoff(agent: Agent, description: Option<string>, inputFilter: Option<FilterId>): (h: Handoff)
    reads agent
    ensures h.agent == agent && h.agentName == agent.name && h.inputFilter == inputFilter
    ensures description.Some? ==> h.description == description.value
    ensures description.None? && agent.handoffDescription.Some? ==> h.description == agent.handoffDescription.value
    ensures description.None? && agent.handoffDescription.None? ==> h.description == DefaultHandoffDescription(agent.name)
  {
    Handoff(agent, agent.name, description.GetOr(agent.handoffDescription.GetOr(DefaultHandoffDescription(agent.name))), inputFilter)
  }

  /** The fields of an agent, as a value. */
  datatype AgentState = AgentState(
    name: string,
    instructions: Instructions,
    handoffDescription: Option<string>,
    handoffs: seq<HandoffEntry>,
    model: ModelChoice,
    modelSettings: ModelSettings,
    tools: seq<Tool>,
    inputGuardrails: seq<InputGuardrail>,
    outputGuardrails: seq<OutputGuardrail>,
    outputType: Option<string>)

  /** One `$key => $value` entry of the attribute array `clone` takes. */
  datatype Attribute =
    | SetName(name: string)
    | SetInstructions(instructions: Instructions)
    | SetHandoffDescription(handoffDescription: Option<string>)
    | SetHandoffs(handoffs: seq<HandoffEntry>)
    | SetModel(model: ModelChoice)
    | SetModelSettings(modelSettings: ModelSettings)
    | SetTools(tools: seq<Tool>)
    | SetInputGuardrails(inputGuardrails: seq<InputGuardrail>)
    | SetOutputGuardrails(outputGuardrails: seq<OutputGuardrail>)
    | SetOutputType(outputType: Option<string>)

  /** The state after assigning one attribute. */
  function ApplyAttribute(s: AgentState, a: Attribute): AgentState {
    match a
    case SetName(v) => s.(name := v)
    case SetInstructions(v) => s.(instructions := v)
    case SetHandoffDescription(v) => s.(handoffDescription := v)
    case SetHandoffs(v) => s.(handoffs := v)
    case SetModel(v) => s.(model := v)
    case SetModelSettings(v) => s.(modelSettings := v)
    case SetTools(v) => s.(tools := v)
    case SetInputGuardrails(v) => s.(inputGuardrails := v)
    case SetOutputGuardrails(v) => s.(outputGuardrails := v)
    case SetOutputType(v) => s.(outputType := v)
  }

  /** The state after assigning the attributes in order. */
  function ApplyAttributes(s: AgentState, attributes: seq<Attribute>): AgentState
    decreases |attributes|
  {
    if |attributes| == 0 then s
    else ApplyAttribute(ApplyAttributes(s, attributes[..|attributes| - 1]), attributes[|attributes| - 1])
  }

  /** The schema every agent-as-tool gets: one required string parameter `input`. */
  const AgentToolSchema: Value :=
    VMap(map["type" := VStr("object"),
             "properties" := VMap(map["input" := VMap(map["type" := VStr("string")])]),
             "required" := VList([VStr("input")])])

  class Agent {
    var name: string
    var instructions: Instructions
    var handoffDescription: Option<string>
    var handoffs: seq<HandoffEntry>
    var model: ModelChoice
    var modelSettings: ModelSettings
    var tools: seq<Tool>
    var inputGuardrails: seq<InputGuardrail>
    var outputGuardrails: seq<OutputGuardrail>
    var outputType: Option<string>

    function State(): AgentState
      reads this
    {
      AgentState(name, instructions, handoffDescription, handoffs, model, modelSettings,
                 tools, inputGuardrails, outputGuardrails, outputType)
    }

    /**
     * `new Agent($name, $instructions, $modelSettings)`. Without settings the
     * agent takes the settings the application container provides,
     * `containerSettings`.
     */
    constructor(name: string, instructions: Instructions, modelSettings: Option<ModelSettings>, containerSettings: ModelSettings)
      ensures State() == AgentState(name, instructions, None, [], NoModel, modelSettings.GetOr(containerSettings), [], [], [], None)
    {
      this.name := name;
      this.instructions := instructions;
      this.modelSettings := modelSettings.GetOr(containerSettings);
      handoffDescription := None;
      handoffs := [];
      model := NoModel;
      tools := [];
      inputGuardrails := [];
      outputGuardrails := [];
      outputType := None;
    }

    method WithHandoffDescription(description: string) returns (r: Agent)
      modifies this
      ensures r == this && State() == old(State()).(handoffDescription := Some(description))
    {
      handoffDescription := Some(description);
      r := this;
    }

    method WithHandoffs(handoffs: seq<HandoffEntry>) returns (r: Agent)
      modifies this
      ensures r == this && State() == old(State()).(handoffs := handoffs)
    {
      this.handoffs := handoffs;
      r := this;
    }

    method WithModel(model: ModelChoice) returns (r: Agent)
      modifies this
      ensures r == this && State() == old(State()).(model := model)
    {
      this.model := model;
      r := this;
    }

    method WithModelSettings(settings: ModelSettings) returns (r: Agent)
      modifies this
      ensures r == this && State() == old(State()).(modelSettings := settings)
    {
      modelSettings := settings;
      r := this;
    }

    method WithTools(tools: seq<Tool>) returns (r: Agent)
      modifies this
      ensures r == this && State() == old(State()).(tools := tools)
    {
      this.tools := tools;
      r := this;
    }

    method WithInputGuardrails(guardrails: seq<InputGuardrail>) returns (r: Agent)
      modifies this
      ensures r == this && State() == old(State()).(inputGuardrails := guardrails)
    {
      inputGuardrails := guardrails;
      r := this;
    }

    method WithOutputGuardrails(guardrails: seq<OutputGuardrail>) returns (r: Agent)
      modifies this
      ensures r == this && State() == old(State()).(outputGuardrails := guardrails)
    {
      outputGuardrails := guardrails;
      r := this;
    }

    method WithOutputType(outputType: string) returns (r: Agent)
      modifies this
      ensures r == this && State() == old(State()).(outputType := Some(outputType))
    {
      this.outputType := Some(outputType);
      r := this;
    }

    /**
     * `clone($attributes)`: a new agent with every field copied, then each
     * attribute assigned in order. The receiver is not modified.
     */
    method Clone(attributes: seq<Attribute>) returns (c: Agent)
      ensures fresh(c)
      ensures c.State() == ApplyAttributes(State(), attributes)
    {
      c := new Agent(name, instructions, Some(modelSettings), modelSettings);
      c.handoffDescription := handoffDescription;
      c.handoffs := handoffs;
      c.model := model;
      c.tools := tools;
      c.inputGuardrails := inputGuardrails;
      c.outputGuardrails := outputGuardrails;
      c.outputType := outputType;
      var i := 0;
      while i < |attributes|
        invariant 0 <= i <= |attributes|
        invariant c.State() == ApplyAttributes(State(), attributes[..i])
      {
        assert attributes[..i + 1][..i] == attributes[..i];
        c.Assign(attributes[i]);
        i := i + 1;
      }
      assert attributes[..|attributes|] == attributes;
    }

    /** One attribute assignment of `clone`: the named property takes the value. */
    method Assign(attribute: Attribute)
      modifies this
      ensures State() == ApplyAttribute(old(State()), attribute)
    {
      match attribute {
        case SetName(v) => name := v;
        case SetInstructions(v) => instructions := v;
        case SetHandoffDescription(v) => handoffDescription := v;
        case SetHandoffs(v) => handoffs := v;
        case SetModel(v) => model := v;
        case SetModelSettings(v) => modelSettings := v;
        case SetTools(v) => tools := v;
        case SetInputGuardrails(v) => inputGuardrails := v;
        case SetOutputGuardrails(v) => outputGuardrails := v;
        case SetOutputType(v) => outputType := v;
      }
    }

    /**
     * `asTool($toolName, $toolDescription)`: a tool named by the given name or
     * this agent's name in function style, described by the given text or "",
     * whose callback `function ($context, $input)` has identity `callbackId`.
     * Its parameters are inferred from that callback.
     */
    method AsTool(toolName: Option<string>, toolDescription: Option<string>, callbackId: nat) returns (t: Tool)
      ensures t.name == toolName.GetOr(FunctionStyle(name))
      ensures t.description == toolDescription.GetOr("")
      ensures t.callback == AgentToolCallback(callbackId)
      ensures t.parameters == AgentToolSchema
    {
      t := NewTool(toolName.GetOr(FunctionStyle(name)), toolDescription.GetOr(""), AgentToolCallback(callbackId), None);
      AgentToolSchemaInferred(callbackId);
    }

    /** `getSystemPrompt($context)`: text instructions as they are, a closure's result, or null. */
    function GetSystemPrompt(context: Value, closures: InstructionsFn): Option<string>
      reads this
    {
      Prompt(instructions, context, closures, this)
    }
  }

  /** The system prompt an agent with these instructions produces. */
  function Prompt(instructions: Instructions, context: Value, closures: InstructionsFn, agent: Agent): Option<string> {
    match instructions
    case TextInstructions(s) => Some(s)
    case ClosureInstructions(f) => closures(f, context, agent)
    case NoInstructions => None
  }

  /** The closure `asTool` wraps: two untyped, required parameters `$context` and `$input`. */
  function AgentToolCallback(id: nat): Callback {
    Callback(id, [Parameter("context", None, false), Parameter("input", None, false)])
  }

  lemma AgentToolSchemaInferred(id: nat)
    ensures InferredSchema(AgentToolCallback(id).parameters) == AgentToolSchema
  {
    var args := ArgumentParameters(AgentToolCallback(id).parameters);
    assert args == [Parameter("input", None, false)];
    assert args[..0] == [];
    assert PropertiesOf(args) == map["input" := VMap(map["type" := VStr("string")])];
    assert RequiredOf(args) == ["input"];
    assert Strings(["input"]).items == [VStr("input")];
  }

  /** Cloning without attributes copies every field; attribute lists apply in order, a later attribute winning. */
  lemma {:induction false} ApplyAttributesAppend(s: AgentState, xs: seq<Attribute>, ys: seq<Attribute>)
    ensures ApplyAttributes(s, []) == s
    ensures ApplyAttributes(s, xs + ys) == ApplyAttributes(ApplyAttributes(s, xs), ys)
    decreases |ys|
  {
    if |ys| == 0 {
      assert xs + ys == xs;
    } else {
      assert (xs + ys)[..|xs + ys| - 1] == xs + ys[..|ys| - 1];
      ApplyAttributesAppend(s, xs, ys[..|ys| - 1]);
    }
  }

  /** A copy with a filter keeps the target, its name and the description, and the filter then decides the input. */
  lemma WithInputFilterKeeps(h: Handoff, f: FilterId, input: seq<Value>, context: Value, filters: FilterFn)
    ensures h.WithInputFilter(f).agent == h.agent
    ensures h.WithInputFilter(f).agentName == h.agentName
    ensures h.WithInputFilter(f).description == h.description
    ensures h.WithInputFilter(f).ApplyInputFilter(input, context, filters) == filters(f, input, context, h.WithInputFilter(f))
    ensures h.inputFilter.None? ==> h.ApplyInputFilter(input, context, filters) == input
  {
  }

  // Function-style names (`transformStringToFunctionStyle`).

  /** The characters PCRE's `\s` matches: tab, newline, vertical tab, form feed, carriage return and space. */
  predicate IsSpace(c: char) {
    c == ' ' || '\t' <= c <= '\r'
  }

  /** `strtolower` on one character: ASCII upper case letters only. */
  function Lower(c: char): char {
    if 'A' <= c <= 'Z' then (c as int + 32) as char else c
  }

  function LowerAll(s: string): (r: string)
    ensures |r| == |s| && forall i :: 0 <= i < |s| ==> r[i] == Lower(s[i])
  {
    if |s| == 0 then "" else [Lower(s[0])] + LowerAll(s[1..])
  }

  /** The string without its leading whitespace. */
  function DropSpaces(s: string): (r: string)
    ensures |r| <= |s|
    ensures |r| > 0 ==> !IsSpace(r[0])
  {
    if |s| > 0 && IsSpace(s[0]) then DropSpaces(s[1..]) else s
  }

  /** `preg_replace('/\s+/', '_', $s)`: every maximal run of whitespace becomes one underscore. */
  function CollapseSpaces(s: string): string
    decreases |s|
  {
    if |s| == 0 then ""
    else if IsSpace(s[0]) then "_" + CollapseSpaces(DropSpaces(s[1..]))
    else [s[0]] + CollapseSpaces(s[1..])
  }

  /** `transformStringToFunctionStyle($s)`. */
  function FunctionStyle(s: string): string {
    LowerAll(CollapseSpaces(s))
  }

  predicate NoSpaces(s: string) {
    forall i :: 0 <= i < |s| ==> !IsSpace(s[i])
  }

  lemma {:induction false} CollapseSpacesHasNone(s: string)
    ensures NoSpaces(CollapseSpaces(s))
    decreases |s|
  {
    if |s| > 0 {
      if IsSpace(s[0]) {
        CollapseSpacesHasNone(DropSpaces(s[1..]));
      } else {
        CollapseSpacesHasNone(s[1..]);
      }
    }
  }

  lemma {:induction false} CollapseWithoutSpaces(s: string)
    requires NoSpaces(s)
    ensures CollapseSpaces(s) == s
    decreases |s|
  {
    if |s| > 0 {
      assert !IsSpace(s[0]);
      CollapseWithoutSpaces(s[1..]);
    }
  }

  lemma LowerKeepsSpaces(s: string)
    ensures NoSpaces(s) <==> NoSpaces(LowerAll(s))
  {
    forall i | 0 <= i < |s|
      ensures IsSpace(s[i]) <==> IsSpace(LowerAll(s)[i])
    {
    }
  }

  lemma LowerAllIdempotent(s: string)
    ensures LowerAll(LowerAll(s)) == LowerAll(s)
  {
  }

  /**
   * A function-style name has no whitespace and no upper case ASCII letter,
   * and transforming it again changes nothing; text without whitespace is
   * only lower-cased.
   */
  lemma FunctionStyleNormalises(s: string)
    ensures NoSpaces(FunctionStyle(s))
    ensures forall i :: 0 <= i < |FunctionStyle(s)| ==> !('A' <= FunctionStyle(s)[i] <= 'Z')
    ensures FunctionStyle(FunctionStyle(s)) == FunctionStyle(s)
    ensures NoSpaces(s) ==> FunctionStyle(s) == LowerAll(s)
  {
    CollapseSpacesHasNone(s);
    LowerKeepsSpaces(CollapseSpaces(s));
    CollapseWithoutSpaces(FunctionStyle(s));
    LowerAllIdempotent(CollapseSpaces(s));
    if NoSpaces(s) {
      CollapseWithoutSpaces(s);
    }
  }

  lemma {:induction false} CollapseSplit(a: string, b: string)
    requires NoSpaces(a)
    ensures CollapseSpaces(a + b) == a + CollapseSpaces(b)
    decreases |a|
  {
    if |a| > 0 {
      assert (a + b)[0] == a[0] && !IsSpace(a[0]);
      assert (a + b)[1..] == a[1..] + b;
      CollapseSplit(a[1..], b);
      calc {
        CollapseSpaces(a + b);
        [a[0]] + CollapseSpaces(a[1..] + b);
        [a[0]] + (a[1..] + CollapseSpaces(b));
        { assert [a[0]] + a[1..] == a; }
        a + CollapseSpaces(b);
      }
    } else {
      assert a + b == b;
    }
  }

  lemma {:induction false} DropSpacesRun(w: string, b: string)
    requires forall i :: 0 <= i < |w| ==> IsSpace(w[i])
    requires |b| == 0 || !IsSpace(b[0])
    ensures DropSpaces(w + b) == b
    decreases |w|
  {
    if |w| > 0 {
      assert (w + b)[1..] == w[1..] + b;
      DropSpacesRun(w[1..], b);
    }
  }

  /**
   * A word, a non-empty run of whitespace, and the rest of the text: the run
   * becomes exactly one underscore between the word and the transformed rest.
   */
  lemma WhitespaceRunBecomesUnderscore(a: string, w: string, b: string)
    requires NoSpaces(a)
    requires |w| > 0 && forall i :: 0 <= i < |w| ==> IsSpace(w[i])
    requires |b| == 0 || !IsSpace(b[0])
    ensures CollapseSpaces(a + w + b) == a + "_" + CollapseSpaces(b)
  {
    assert a + w + b == a + (w + b);
    CollapseSplit(a, w + b);
    CollapseRun(w, b);
  }

  /** A non-empty run of whitespace before the rest collapses to one underscore. */
  lemma CollapseRun(w: string, b: string)
    requires |w| > 0 && forall i :: 0 <= i < |w| ==> IsSpace(w[i])
    requires |b| == 0 || !IsSpace(b[0])
    ensures CollapseSpaces(w + b) == "_" + CollapseSpaces(b)
  {
    assert (w + b)[0] == w[0];
    assert (w + b)[1..] == w[1..] + b;
    DropSpacesRun(w[1..], b);
  }
}
