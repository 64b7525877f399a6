/**
 * The chat-completions model (`Models\OpenAIChatCompletionsModel`): how a
 * request is assembled from the system instructions, the input items, the
 * settings, the tools and the handoffs; how a reply becomes a model
 * response; and how a streamed reply is folded into chunk events and one
 * completion event. The HTTP client is a parameter: a function from the
 * request parameters to the reply, or to `None` when the client throws.
 */
module ChatCompletions {
  import opened Values
  import opened Settings
  import opened Tools
  import opened Agents
  import opened Usages
  import opened RunItems

  // Messages

  /** The message `prepareMessages` puts first when there are system instructions. */
  function SystemMessage(instructions: string): Value {
    VMap(map["role" := VStr("system"), "content" := VStr(instructions)])
  }

  /** An input item that is a tool result: role `tool` and a set `tool_call_id`. */
  predicate IsToolReply(item: Value) {
    Get(item, "role") == VStr("tool") && IsSet(item, "tool_call_id")
  }

  /**
   * The message for one input item: its role and content (null when
   * missing), its tool calls when they are present and non-empty, and for a
   * tool result its call id and, when set, its name.
   */
  function MessageOf(item: Value): Value {
    var base := map["role" := Get(item, "role"), "content" := Get(item, "content")];
    var withCalls := if Truthy(Get(item, "tool_calls")) then base["tool_calls" := Get(item, "tool_calls")] else base;
    var withId := if IsToolReply(item) then withCalls["tool_call_id" := Get(item, "tool_call_id")] else withCalls;
    VMap(if IsToolReply(item) && IsSet(item, "name") then withId["name" := Get(item, "name")] else withId)
  }

  /**
   * What a message carries: always the role and the content (null when
   * missing), the tool calls exactly when they are non-empty, and the call
   * id, and the name when set, exactly for a tool result.
   */
  lemma MessageKeys(item: Value)
    ensures var m := MessageOf(item);
      m.VMap? && m.fields.Keys <= {"role", "content", "tool_calls", "tool_call_id", "name"} &&
      "role" in m.fields && m.fields["role"] == Get(item, "role") &&
      "content" in m.fields && m.fields["content"] == Get(item, "content") &&
      ("tool_calls" in m.fields <==> Truthy(Get(item, "tool_calls"))) &&
      ("tool_calls" in m.fields ==> m.fields["tool_calls"] == Get(item, "tool_calls")) &&
      ("tool_call_id" in m.fields <==> IsToolReply(item)) &&
      ("tool_call_id" in m.fields ==> m.fields["tool_call_id"] == Get(item, "tool_call_id")) &&
      ("name" in m.fields <==> IsToolReply(item) && IsSet(item, "name")) &&
      ("name" in m.fields ==> m.fields["name"] == Get(item, "name"))
  {
  }

  /** One message per input item, in order. */
  function ItemMessages(input: seq<Value>): seq<Value>
    decreases |input|
  {
    if |input| == 0 then [] else ItemMessages(input[..|input| - 1]) + [MessageOf(input[|input| - 1])]
  }

  /** The messages of a request: the system message when the instructions are truthy, then the items' messages. */
  function Messages(systemInstructions: Option<string>, input: seq<Value>): seq<Value> {
    (if TruthyString(systemInstructions) then [SystemMessage(systemInstructions.value)] else []) + ItemMessages(input)
  }

  lemma {:induction false} ItemMessagesEach(input: seq<Value>)
    ensures |ItemMessages(input)| == |input|
    ensures forall i {:trigger ItemMessages(input)[i]} :: 0 <= i < |input| ==> ItemMessages(input)[i] == MessageOf(input[i])
    decreases |input|
  {
    if |input| > 0 {
      var front := input[..|input| - 1];
      ItemMessagesEach(front);
      assert forall i :: 0 <= i < |front| ==> front[i] == input[i];
    }
  }

  /**
   * The messages follow the input items one for one and in order, after a
   * system message that is there exactly when the instructions are truthy
   * (so `""` and `"0"` give none).
   */
  lemma MessagesFollowItems(systemInstructions: Option<string>, input: seq<Value>)
    ensures |Messages(systemInstructions, input)| == (if TruthyString(systemInstructions) then 1 else 0) + |input|
    ensures TruthyString(systemInstructions) ==> Messages(systemInstructions, input)[0] == SystemMessage(systemInstructions.value)
    ensures forall i :: 0 <= i < |input| ==>
      Messages(systemInstructions, input)[(if TruthyString(systemInstructions) then 1 else 0) + i] == MessageOf(input[i])
  {
    ItemMessagesEach(input);
    var items := ItemMessages(input);
    if TruthyString(systemInstructions) {
      assert Messages(systemInstructions, input) == [SystemMessage(systemInstructions.value)] + items;
      ShiftedIndex([SystemMessage(systemInstructions.value)], items);
    } else {
      assert Messages(systemInstructions, input) == items;
    }
  }

  lemma ShiftedIndex<T>(xs: seq<T>, ys: seq<T>)
    ensures forall i :: 0 <= i < |ys| ==> (xs + ys)[|xs| + i] == ys[i]
  {
  }

  /** `prepareMessages($systemInstructions, $input)`. */
  method PrepareMessages(systemInstructions: Option<string>, input: seq<Value>) returns (messages: seq<Value>)
    ensures messages == Messages(systemInstructions, input)
  {
    messages := [];
    if TruthyString(systemInstructions) {
      messages := messages + [SystemMessage(systemInstructions.value)];
    }
    ghost var head := messages;
    var i := 0;
    while i < |input|
      invariant 0 <= i <= |input|
      invariant messages == head + ItemMessages(input[..i])
    {
      assert input[..i + 1][..i] == input[..i];
      messages := messages + [MessageOf(input[i])];
      i := i + 1;
    }
    assert input[..|input|] == input;
  }

  // Tools

  /** The entry `prepareTools` makes for a function tool. */
  function FunctionEntry(t: Tool): Value {
    VMap(map["type" := VStr("function"),
             "function" := VMap(map["name" := VStr(t.name), "description" := VStr(t.description),
                                    "parameters" := t.parameters])])
  }

  /**
   * The entry for a handoff: a function named `handoff` whose one required
   * parameter, `agent_name`, is a string that must equal the target's name.
   */
  function HandoffTool(agentName: string, description: string): Value {
    var agentNameSchema := VMap(map["type" := VStr("string"), "enum" := VList([VStr(agentName)]),
                                    "description" := VStr(description)]);
    VMap(map["type" := VStr("function"),
             "function" := VMap(map["name" := VStr("handoff"), "description" := VStr("Handoff to another agent"),
                                    "parameters" := VMap(map["type" := VStr("object"),
                                                             "properties" := VMap(map["agent_name" := agentNameSchema]),
                                                             "required" := VList([VStr("agent_name")])])])])
  }

  /** The entry offering a handoff's target under its name. */
  function HandoffToolOf(h: Handoff): Value {
    HandoffTool(h.agentName, h.description)
  }

  /** The handoff an entry stands for: its `Handoff`, or for a plain agent the one `new Handoff($agent)` makes. */
  function HandoffOf(e: HandoffEntry): Handoff
    reads if e.PlainAgent? then {e.agent} else {}
  {
    match e
    case HandoffObject(h) => h
    case PlainAgent(a) => NewHandoff(a, None, None)
  }

  /** The handoffs a handoff list stands for, in order. */
  function Resolved(handoffs: seq<HandoffEntry>): seq<Handoff>
    reads set e | e in handoffs && e.PlainAgent? :: e.agent
    decreases |handoffs|
  {
    if |handoffs| == 0 then [] else Resolved(handoffs[..|handoffs| - 1]) + [HandoffOf(handoffs[|handoffs| - 1])]
  }

  function FunctionEntries(tools: seq<Tool>): seq<Value>
    decreases |tools|
  {
    if |tools| == 0 then [] else FunctionEntries(tools[..|tools| - 1]) + [FunctionEntry(tools[|tools| - 1])]
  }

  function HandoffEntries(hs: seq<Handoff>): seq<Value>
    decreases |hs|
  {
    if |hs| == 0 then []
    else HandoffEntries(hs[..|hs| - 1]) + [HandoffToolOf(hs[|hs| - 1])]
  }

  /** The tool list for some tools and handoffs: the function tools, then one entry per handoff. */
  function ToolList(tools: seq<Tool>, hs: seq<Handoff>): seq<Value> {
    FunctionEntries(tools) + HandoffEntries(hs)
  }

  /** The tool list of a request, for the handoffs its handoff list stands for. */
  function ToolEntries(tools: seq<Tool>, handoffs: seq<HandoffEntry>): seq<Value>
    reads set e | e in handoffs && e.PlainAgent? :: e.agent
  {
    ToolList(tools, Resolved(handoffs))
  }

  lemma {:induction false} FunctionEntriesLength(tools: seq<Tool>)
    ensures |FunctionEntries(tools)| == |tools|
    decreases |tools|
  {
    if |tools| > 0 {
      FunctionEntriesLength(tools[..|tools| - 1]);
    }
  }

  lemma {:induction false} FunctionEntriesEach(tools: seq<Tool>)
    ensures |FunctionEntries(tools)| == |tools|
    ensures forall i {:trigger FunctionEntries(tools)[i]} :: 0 <= i < |tools| ==> FunctionEntries(tools)[i] == FunctionEntry(tools[i])
    decreases |tools|
  {
    if |tools| > 0 {
      var front := tools[..|tools| - 1];
      FunctionEntriesEach(front);
      assert forall i :: 0 <= i < |front| ==> front[i] == tools[i];
    }
  }

  lemma {:induction false} HandoffEntriesEach(hs: seq<Handoff>)
    ensures |HandoffEntries(hs)| == |hs|
    ensures forall j {:trigger HandoffEntries(hs)[j]} :: 0 <= j < |hs| ==>
      HandoffEntries(hs)[j] == HandoffToolOf(hs[j])
    decreases |hs|
  {
    if |hs| > 0 {
      var front := hs[..|hs| - 1];
      HandoffEntriesEach(front);
      assert forall j :: 0 <= j < |front| ==> front[j] == hs[j];
    }
  }

  /** Each entry of a handoff list stands for one handoff, in the same place. */
  lemma {:induction false} ResolvedEach(handoffs: seq<HandoffEntry>)
    ensures |Resolved(handoffs)| == |handoffs|
    ensures forall j {:trigger Resolved(handoffs)[j]} :: 0 <= j < |handoffs| ==> Resolved(handoffs)[j] == HandoffOf(handoffs[j])
    decreases |handoffs|
  {
    if |handoffs| > 0 {
      var front := handoffs[..|handoffs| - 1];
      ResolvedEach(front);
      assert forall j :: 0 <= j < |front| ==> front[j] == handoffs[j];
    }
  }

  /**
   * The tool list holds one entry per tool and then one per handoff, in
   * order; a handoff's entry offers exactly its target's name.
   */
  lemma ToolsThenHandoffs(tools: seq<Tool>, hs: seq<Handoff>)
    ensures |ToolList(tools, hs)| == |tools| + |hs|
    ensures forall i :: 0 <= i < |tools| ==> ToolList(tools, hs)[i] == FunctionEntry(tools[i])
    ensures forall j :: 0 <= j < |hs| ==> ToolList(tools, hs)[|tools| + j] == HandoffToolOf(hs[j])
  {
    ToolsFirst(tools, hs);
    HandoffsAfter(tools, hs);
  }

  lemma ToolsFirst(tools: seq<Tool>, hs: seq<Handoff>)
    ensures |ToolList(tools, hs)| == |tools| + |hs|
    ensures forall i :: 0 <= i < |tools| ==> ToolList(tools, hs)[i] == FunctionEntry(tools[i])
  {
    FunctionEntriesEach(tools);
    HandoffEntriesEach(hs);
    assert ToolList(tools, hs)[..|tools|] == FunctionEntries(tools);
    forall i | 0 <= i < |tools|
      ensures ToolList(tools, hs)[i] == FunctionEntry(tools[i])
    {
      assert ToolList(tools, hs)[i] == ToolList(tools, hs)[..|tools|][i];
    }
  }

  lemma HandoffsAfter(tools: seq<Tool>, hs: seq<Handoff>)
    ensures |ToolList(tools, hs)| == |tools| + |hs|
    ensures forall j :: 0 <= j < |hs| ==> ToolList(tools, hs)[|tools| + j] == HandoffToolOf(hs[j])
  {
    FunctionEntriesLength(tools);
    HandoffEntriesEach(hs);
    assert ToolList(tools, hs)[|tools|..] == HandoffEntries(hs);
    forall j | 0 <= j < |hs|
      ensures ToolList(tools, hs)[|tools| + j] == HandoffToolOf(hs[j])
    {
      assert ToolList(tools, hs)[|tools| + j] == ToolList(tools, hs)[|tools|..][j];
    }
  }

  /** The request's tool list offers each entry of the handoff list, in order, after the function tools. */
  lemma HandoffListOffered(tools: seq<Tool>, handoffs: seq<HandoffEntry>)
    ensures |ToolEntries(tools, handoffs)| == |tools| + |handoffs|
    ensures forall j :: 0 <= j < |handoffs| ==>
      ToolEntries(tools, handoffs)[|tools| + j] == HandoffToolOf(HandoffOf(handoffs[j]))
  {
    ResolvedEach(handoffs);
    var hs := Resolved(handoffs);
    HandoffsAfter(tools, hs);
    forall j | 0 <= j < |handoffs|
      ensures ToolEntries(tools, handoffs)[|tools| + j] == HandoffToolOf(HandoffOf(handoffs[j]))
    {
      assert ToolList(tools, hs)[|tools| + j] == HandoffToolOf(hs[j]);
    }
  }

  /** A plain agent in the handoff list is offered under its own name. */
  lemma PlainAgentOfferedByName(a: Agent)
    ensures ToolEntries([], [PlainAgent(a)]) ==
      [HandoffTool(a.name, a.handoffDescription.GetOr(DefaultHandoffDescription(a.name)))]
  {
    assert [PlainAgent(a)][..0] == [];
    assert Resolved([PlainAgent(a)]) == [NewHandoff(a, None, None)];
    var h := NewHandoff(a, None, None);
    assert [h][..0] == [];
    assert HandoffEntries([h]) == [HandoffToolOf(h)];
  }

  /** `prepareTools($tools, $handoffs, $outputType)`, with every handoff entry read as the handoff it stands for. */
  method PrepareTools(tools: seq<Tool>, handoffs: seq<HandoffEntry>) returns (result: seq<Value>)
    ensures result == ToolEntries(tools, handoffs)
  {
    result := [];
    var i := 0;
    while i < |tools|
      invariant 0 <= i <= |tools|
      invariant result == FunctionEntries(tools[..i])
    {
      assert tools[..i + 1][..i] == tools[..i];
      result := result + [FunctionEntry(tools[i])];
      i := i + 1;
    }
    assert tools[..|tools|] == tools;
    var j := 0;
    while j < |handoffs|
      invariant 0 <= j <= |handoffs|
      invariant result == FunctionEntries(tools) + HandoffEntries(Resolved(handoffs[..j]))
    {
      assert handoffs[..j + 1][..j] == handoffs[..j];
      var h := HandoffOf(handoffs[j]);
      ghost var before := Resolved(handoffs[..j]);
      assert Resolved(handoffs[..j + 1]) == before + [h];
      assert (before + [h])[..|before|] == before;
      result := result + [HandoffToolOf(h)];
      j := j + 1;
    }
    assert handoffs[..|handoffs|] == handoffs;
  }

  /** Why building the tool list fails. */
  datatype ToolsError = UndefinedMethod(className: string, methodName: string)

  /** The `Handoff` objects of a list that holds nothing else. */
  function HandoffObjects(handoffs: seq<HandoffEntry>): seq<Handoff>
    requires forall e :: e in handoffs ==> e.HandoffObject?
    decreases |handoffs|
  {
    if |handoffs| == 0 then [] else HandoffObjects(handoffs[..|handoffs| - 1]) + [handoffs[|handoffs| - 1].handoff]
  }

  /**
   * `prepareTools` as written: `getAgentName()` is called on every handoff
   * entry, and a plain agent has no such method, so a list holding one
   * fails with an `Error`.
   */
  function ToolEntriesAsWritten(tools: seq<Tool>, handoffs: seq<HandoffEntry>): (r: Result<seq<Value>, ToolsError>)
    ensures r.Failure? <==> exists e :: e in handoffs && e.PlainAgent?
  {
    if exists e :: e in handoffs && e.PlainAgent? then Failure(UndefinedMethod("Agent", "getAgentName"))
    else Success(ToolList(tools, HandoffObjects(handoffs)))
  }

  lemma {:induction false} HandoffObjectsResolved(handoffs: seq<HandoffEntry>)
    requires forall e :: e in handoffs ==> e.HandoffObject?
    ensures HandoffObjects(handoffs) == Resolved(handoffs)
    decreases |handoffs|
  {
    if |handoffs| > 0 {
      var front := handoffs[..|handoffs| - 1];
      assert forall x :: x in front ==> x in handoffs;
      assert handoffs[|handoffs| - 1] in handoffs;
      HandoffObjectsResolved(front);
    }
  }

  /** Without plain agents in the handoff list, the code as written builds the same list as the model. */
  lemma AsWrittenAgreesOnHandoffObjects(tools: seq<Tool>, handoffs: seq<HandoffEntry>)
    requires forall e :: e in handoffs ==> e.HandoffObject?
    ensures ToolEntriesAsWritten(tools, handoffs) == Success(ToolEntries(tools, handoffs))
  {
    HandoffObjectsResolved(handoffs);
  }

  /** An agent handed off to directly, as `withHandoffs([$agent])` allows, makes the code as written fail. */
  lemma AsWrittenFailsOnPlainAgent(a: Agent)
    ensures ToolEntriesAsWritten([], [PlainAgent(a)]).Failure?
    ensures |ToolEntries([], [PlainAgent(a)])| == 1
  {
    assert PlainAgent(a) in [PlainAgent(a)];
    PlainAgentOfferedByName(a);
  }

  // Response format and request parameters

  const JsonObjectFormat: Value := VMap(map["type" := VStr("json_object")])

  /** `prepareResponseFormat($outputType)`: a JSON object format exactly when the output type is truthy. */
  function ResponseFormat(outputType: Option<string>): (r: Option<Value>)
    ensures r.Some? <==> TruthyString(outputType)
    ensures r.Some? ==> r.value == JsonObjectFormat
  {
    if !TruthyString(outputType) then None else Some(JsonObjectFormat)
  }

  /**
   * The parameters of a request: model and messages (and `stream` for a
   * streamed one), merged with the settings array, then the tools when
   * there are any and the response format when it is truthy.
   */
  function Params(modelName: string, messages: seq<Value>, settings: ModelSettings, tools: seq<Value>,
                  responseFormat: Option<Value>, stream: bool): map<string, Value>
  {
    var head := map["model" := VStr(modelName), "messages" := VList(messages)];
    var merged := (if stream then head["stream" := VBool(true)] else head) + settings.Fields();
    var withTools := if |tools| > 0 then merged["tools" := VList(tools)] else merged;
    if responseFormat.Some? && Truthy(responseFormat.value) then withTools["response_format" := responseFormat.value]
    else withTools
  }

  /**
   * The parameters carry the model and the messages, `stream` exactly for
   * a streamed request, the tools exactly when there are any, the response
   * format exactly when it is truthy, and every set setting unchanged; no
   * other key.
   */
  lemma ParamsKeys(modelName: string, messages: seq<Value>, settings: ModelSettings, tools: seq<Value>,
                   responseFormat: Option<Value>, stream: bool)
    ensures var params := Params(modelName, messages, settings, tools, responseFormat, stream);
      "model" in params && params["model"] == VStr(modelName) &&
      "messages" in params && params["messages"] == VList(messages) &&
      ("stream" in params <==> stream) &&
      (stream ==> params["stream"] == VBool(true)) &&
      ("tools" in params <==> |tools| > 0) &&
      ("tools" in params ==> params["tools"] == VList(tools)) &&
      ("response_format" in params <==> responseFormat.Some? && Truthy(responseFormat.value)) &&
      ("response_format" in params ==> params["response_format"] == responseFormat.value) &&
      (forall key :: key in settings.Fields() ==> key in params && params[key] == settings.Fields()[key]) &&
      params.Keys <= {"model", "messages", "stream", "tools", "response_format"} + RequestKeys
  {
  }

  /** The response format is sent exactly when an output type is set and truthy. */
  lemma ResponseFormatSentIffOutputType(modelName: string, messages: seq<Value>, settings: ModelSettings,
                                        tools: seq<Value>, outputType: Option<string>, stream: bool)
    ensures var params := Params(modelName, messages, settings, tools, ResponseFormat(outputType), stream);
      ("response_format" in params <==> TruthyString(outputType)) &&
      (TruthyString(outputType) ==> params["response_format"] == JsonObjectFormat)
  {
    ParamsKeys(modelName, messages, settings, tools, ResponseFormat(outputType), stream);
  }

  /** The request of `getResponse` or `streamResponse`. */
  function Request(modelName: string, systemInstructions: Option<string>, input: seq<Value>, settings: ModelSettings,
                   tools: seq<Tool>, outputType: Option<string>, handoffs: seq<HandoffEntry>, stream: bool): map<string, Value>
    reads set e | e in handoffs && e.PlainAgent? :: e.agent
  {
    Params(modelName, Messages(systemInstructions, input), settings, ToolEntries(tools, handoffs),
           ResponseFormat(outputType), stream)
  }

  /** The messages and the parameters `getResponse` and `streamResponse` both start from. */
  method PrepareRequest(modelName: string, systemInstructions: Option<string>, input: seq<Value>, settings: ModelSettings,
                        tools: seq<Tool>, outputType: Option<string>, handoffs: seq<HandoffEntry>, stream: bool)
    returns (messages: seq<Value>, params: map<string, Value>)
    ensures messages == Messages(systemInstructions, input)
    ensures params == Request(modelName, systemInstructions, input, settings, tools, outputType, handoffs, stream)
  {
    messages := PrepareMessages(systemInstructions, input);
    var toolList := PrepareTools(tools, handoffs);
    params := Params(modelName, messages, settings, toolList, ResponseFormat(outputType), stream);
  }

  // Replies

  /** What the client returns for a completion: its id, the usage numbers and the first choice's message. */
  datatype Completion = Completion(id: string, promptTokens: int, completionTokens: int, totalTokens: int, message: Value)

  /** `$client->chat()->create($params)`: the completion, or `None` when it throws. */
  type Client = map<string, Value> -> Option<Completion>

  /** `getResponse(...)`: the first choice's message, the usage of one request, and the completion's id. */
  method GetResponse(modelName: string, systemInstructions: Option<string>, input: seq<Value>, settings: ModelSettings,
                     tools: seq<Tool>, outputType: Option<string>, handoffs: seq<HandoffEntry>, client: Client)
    returns (r: Option<ModelResponse>)
    ensures var reply := client(Request(modelName, systemInstructions, input, settings, tools, outputType, handoffs, false));
      match reply
      case None => r.None?
      case Some(c) =>
        r == Some(ModelResponse(c.message, Counts(1, c.promptTokens, c.completionTokens,
                                                  TotalOrSum(c.promptTokens, c.completionTokens, c.totalTokens)),
                                Some(c.id)))
  {
    var messages, params := PrepareRequest(modelName, systemInstructions, input, settings, tools, outputType, handoffs, false);
    var response := client(params);
    if response.None? {
      return None;
    }
    var c := response.value;
    var usage := Counts(1, c.promptTokens, c.completionTokens, TotalOrSum(c.promptTokens, c.completionTokens, c.totalTokens));
    r := Some(ModelResponse(c.message, usage, Some(c.id)));
  }

  // Streaming

  /** One tool-call delta of a streamed chunk: the call's index and whatever parts this delta carries. */
  datatype ToolCallDelta = ToolCallDelta(index: int, id: Option<string>, kind: Option<string>,
                                         name: Option<string>, arguments: Option<string>)

  /** One streamed chunk: its id and its first choice's delta. */
  datatype Chunk = Chunk(id: string, content: Option<string>, toolCalls: Option<seq<ToolCallDelta>>)

  /** `$client->chat()->createStreamed($params)`: the chunks, or `None` when it throws. */
  type StreamClient = map<string, Value> -> Option<seq<Chunk>>

  /** A tool call as the stream has built it so far. */
  datatype StreamedCall = StreamedCall(id: Option<string>, kind: string, name: string, arguments: string)

  /** The calls built so far, by key, with the keys in the order they first appeared. */
  datatype Calls = Calls(order: seq<int>, byKey: map<int, StreamedCall>)

  const NoCalls := Calls([], map[])

  /** The call a first delta starts: its id, its type or `function`, its name or `""`, its arguments or `""`. */
  function Started(d: ToolCallDelta): StreamedCall {
    StreamedCall(d.id, d.kind.GetOr("function"), d.name.GetOr(""), d.arguments.GetOr(""))
  }

  /** A delta filed under `key`: a new key starts a call, a known key takes only the delta's arguments, when present. */
  function Record(calls: Calls, key: int, d: ToolCallDelta): Calls {
    if key !in calls.byKey then Calls(calls.order + [key], calls.byKey[key := Started(d)])
    else if d.arguments.Some? then
      Calls(calls.order, calls.byKey[key := calls.byKey[key].(arguments := calls.byKey[key].arguments + d.arguments.value)])
    else calls
  }

  /** Deltas filed under their own index. */
  function Keyed(calls: Calls, ds: seq<ToolCallDelta>): Calls
    decreases |ds|
  {
    if |ds| == 0 then calls else Record(Keyed(calls, ds[..|ds| - 1]), ds[|ds| - 1].index, ds[|ds| - 1])
  }

  /** All tool-call deltas of a stream, in order. */
  function Deltas(chunks: seq<Chunk>): seq<ToolCallDelta>
    decreases |chunks|
  {
    if |chunks| == 0 then [] else Deltas(chunks[..|chunks| - 1]) + chunks[|chunks| - 1].toolCalls.GetOr([])
  }

  /** The tool calls of a stream, each delta filed under its index. */
  function StreamCalls(chunks: seq<Chunk>): Calls {
    Keyed(NoCalls, Deltas(chunks))
  }

  /** The deltas of call `k`, in stream order. */
  function DeltasOf(ds: seq<ToolCallDelta>, k: int): seq<ToolCallDelta>
    decreases |ds|
  {
    if |ds| == 0 then []
    else DeltasOf(ds[..|ds| - 1], k) + (if ds[|ds| - 1].index == k then [ds[|ds| - 1]] else [])
  }

  /** The concatenated arguments of some deltas, a missing part counting as empty. */
  function ArgumentsOf(ds: seq<ToolCallDelta>): string
    decreases |ds|
  {
    if |ds| == 0 then "" else ArgumentsOf(ds[..|ds| - 1]) + ds[|ds| - 1].arguments.GetOr("")
  }

  /** A call from all its deltas: the first fixes id, type and name, and the arguments are all of theirs joined. */
  function Assembled(ds: seq<ToolCallDelta>): StreamedCall
    requires |ds| > 0
  {
    Started(ds[0]).(arguments := ArgumentsOf(ds))
  }

  predicate Distinct(keys: seq<int>) {
    forall i, j :: 0 <= i < j < |keys| ==> keys[i] != keys[j]
  }

  /** What filing a sequence of deltas by index keeps true, starting from no calls. */
  ghost predicate KeyedFrom(ds: seq<ToolCallDelta>, calls: Calls) {
    Distinct(calls.order) &&
    (forall k :: k in calls.order <==> k in calls.byKey) &&
    (forall k :: k in calls.byKey <==> |DeltasOf(ds, k)| > 0) &&
    forall k :: k in calls.byKey ==> |DeltasOf(ds, k)| > 0 && calls.byKey[k] == Assembled(DeltasOf(ds, k))
  }

  lemma AssembledStep(ds: seq<ToolCallDelta>, d: ToolCallDelta)
    requires |ds| > 0
    ensures Assembled(ds + [d]) ==
      Assembled(ds).(arguments := Assembled(ds).arguments + d.arguments.GetOr(""))
  {
    assert (ds + [d])[..|ds|] == ds;
  }

  lemma DeltasOfSnoc(front: seq<ToolCallDelta>, d: ToolCallDelta, k: int)
    ensures DeltasOf(front + [d], k) == DeltasOf(front, k) + (if d.index == k then [d] else [])
  {
    assert (front + [d])[..|front|] == front;
  }

  /** A delta at a new index starts a call made from it alone. */
  lemma RecordNew(front: seq<ToolCallDelta>, d: ToolCallDelta, before: Calls)
    requires d.index !in before.byKey && DeltasOf(front, d.index) == []
    ensures var after := Record(before, d.index, d);
      d.index in after.byKey && DeltasOf(front + [d], d.index) == [d] && after.byKey[d.index] == Assembled([d])
  {
    DeltasOfSnoc(front, d, d.index);
    assert [d][..0] == [];
    assert ArgumentsOf([d]) == "" + d.arguments.GetOr("") == d.arguments.GetOr("");
  }

  /** A delta at a known index extends that call's arguments by its own. */
  lemma RecordKnown(front: seq<ToolCallDelta>, d: ToolCallDelta, before: Calls)
    requires d.index in before.byKey && |DeltasOf(front, d.index)| > 0
    requires before.byKey[d.index] == Assembled(DeltasOf(front, d.index))
    ensures var after := Record(before, d.index, d);
      d.index in after.byKey && after.byKey[d.index] == Assembled(DeltasOf(front + [d], d.index))
  {
    var earlier := DeltasOf(front, d.index);
    DeltasOfSnoc(front, d, d.index);
    AssembledStep(earlier, d);
    assert before.byKey[d.index].arguments + "" == before.byKey[d.index].arguments;
  }

  /** A delta leaves the calls at other indices alone. */
  lemma RecordOther(front: seq<ToolCallDelta>, d: ToolCallDelta, before: Calls, k: int)
    requires k != d.index
    ensures var after := Record(before, d.index, d);
      (k in after.byKey <==> k in before.byKey) && (k in after.byKey ==> after.byKey[k] == before.byKey[k]) &&
      DeltasOf(front + [d], k) == DeltasOf(front, k)
  {
    DeltasOfSnoc(front, d, k);
  }

  /** Filing one more delta by its index keeps call `k` in step with its deltas. */
  lemma RecordAt(front: seq<ToolCallDelta>, d: ToolCallDelta, before: Calls, k: int)
    requires KeyedFrom(front, before)
    ensures var after := Record(before, d.index, d);
      (k in after.byKey <==> |DeltasOf(front + [d], k)| > 0) &&
      (k in after.byKey ==> after.byKey[k] == Assembled(DeltasOf(front + [d], k)))
  {
    if k != d.index {
      RecordOther(front, d, before, k);
    } else if k in before.byKey {
      RecordKnown(front, d, before);
    } else {
      RecordNew(front, d, before);
    }
  }

  /** Filing one more delta by its index keeps the calls in step with the deltas. */
  lemma RecordByIndex(front: seq<ToolCallDelta>, d: ToolCallDelta, before: Calls)
    requires KeyedFrom(front, before)
    ensures KeyedFrom(front + [d], Record(before, d.index, d))
  {
    forall k {
      RecordAt(front, d, before, k);
    }
  }

  lemma {:induction false} KeyedByIndex(ds: seq<ToolCallDelta>)
    ensures KeyedFrom(ds, Keyed(NoCalls, ds))
    decreases |ds|
  {
    if |ds| > 0 {
      var front, d := ds[..|ds| - 1], ds[|ds| - 1];
      KeyedByIndex(front);
      assert front + [d] == ds;
      RecordByIndex(front, d, Keyed(NoCalls, front));
    }
  }

  /**
   * The tool calls of a stream: there is one per distinct index among the
   * deltas, listed once each, and each is built from its own deltas alone —
   * identity from the first, arguments from all of them in order.
   */
  lemma StreamCallsByIndex(chunks: seq<Chunk>)
    ensures var calls := StreamCalls(chunks); var ds := Deltas(chunks);
      Distinct(calls.order) &&
      (forall k :: k in calls.order <==> |DeltasOf(ds, k)| > 0) &&
      forall k :: k in calls.byKey ==> |DeltasOf(ds, k)| > 0 && calls.byKey[k] == Assembled(DeltasOf(ds, k))
  {
    KeyedByIndex(Deltas(chunks));
  }

  /** Deltas filed under their position in their chunk's list, which is the key the `foreach` over a chunk's tool calls uses. */
  function Positional(calls: Calls, ds: seq<ToolCallDelta>): Calls
    decreases |ds|
  {
    if |ds| == 0 then calls else Record(Positional(calls, ds[..|ds| - 1]), |ds| - 1, ds[|ds| - 1])
  }

  /** The tool calls of a stream as written: each chunk's deltas filed by position, not by index. */
  function StreamCallsAsWritten(chunks: seq<Chunk>): Calls
    decreases |chunks|
  {
    if |chunks| == 0 then NoCalls
    else Positional(StreamCallsAsWritten(chunks[..|chunks| - 1]), chunks[|chunks| - 1].toolCalls.GetOr([]))
  }

  /** The first delta of the counterexample below: call 0, id `a`, function `f`. */
  const FirstDelta := ToolCallDelta(0, Some("a"), None, Some("f"), Some("1"))

  /** The second delta: call 1, id `b`, function `g`. */
  const SecondDelta := ToolCallDelta(1, Some("b"), None, Some("g"), Some("2"))

  /** Two chunks, each carrying one delta first in its list. */
  const TwoCalls := [Chunk("r", None, Some([FirstDelta])), Chunk("r", None, Some([SecondDelta]))]

  /**
   * Two calls streamed one delta per chunk: the code as written files both
   * at position 0, so the second call's arguments land in the first and
   * the second call is lost; filing by index keeps both.
   */
  lemma AsWrittenMergesCalls()
    ensures StreamCallsAsWritten(TwoCalls).byKey == map[0 := StreamedCall(Some("a"), "function", "f", "12")]
    ensures StreamCalls(TwoCalls).order == [0, 1]
  {
    AsWrittenTwoCalls();
    ByIndexTwoCalls();
  }

  lemma AsWrittenTwoCalls()
    ensures StreamCallsAsWritten(TwoCalls).byKey == map[0 := StreamedCall(Some("a"), "function", "f", "12")]
  {
    var first, second := TwoCalls[0], TwoCalls[1];
    assert TwoCalls[..1] == [first];
    assert [first][..0] == [];
    assert [FirstDelta][..0] == [] && [SecondDelta][..0] == [];
    var one := Record(NoCalls, 0, FirstDelta);
    assert one.byKey == map[0 := StreamedCall(Some("a"), "function", "f", "1")];
    assert StreamCallsAsWritten([first]) == Positional(NoCalls, [FirstDelta]) == one;
    assert StreamCallsAsWritten(TwoCalls) == Positional(one, [SecondDelta]) == Record(one, 0, SecondDelta);
    assert "1" + "2" == "12";
  }

  lemma ByIndexTwoCalls()
    ensures StreamCalls(TwoCalls).order == [0, 1]
  {
    var first := TwoCalls[0];
    assert TwoCalls[..1] == [first];
    assert [first][..0] == [];
    assert Deltas([first]) == [FirstDelta];
    assert Deltas(TwoCalls) == [FirstDelta, SecondDelta];
    assert [FirstDelta, SecondDelta][..1] == [FirstDelta];
    assert [FirstDelta][..0] == [];
    var one := Record(NoCalls, 0, FirstDelta);
    assert Keyed(NoCalls, [FirstDelta]) == one;
    assert one.order == [0] && 1 !in one.byKey;
    assert Keyed(NoCalls, [FirstDelta, SecondDelta]) == Record(one, 1, SecondDelta);
  }

  /** A built call as the final output lists it. */
  function CallValue(c: StreamedCall): Value {
    VMap(map["id" := (if c.id.Some? then VStr(c.id.value) else VNull), "type" := VStr(c.kind),
             "function" := VMap(map["name" := VStr(c.name), "arguments" := VStr(c.arguments)])])
  }

  /** `array_values($toolCalls)`: the calls in the order their keys first appeared. */
  function CallList(calls: Calls): seq<Value> {
    seq(|calls.order|, i requires 0 <= i < |calls.order| =>
      if calls.order[i] in calls.byKey then CallValue(calls.byKey[calls.order[i]]) else VNull)
  }

  /** The streamed text, each chunk's content appended in order. */
  function ContentOf(chunks: seq<Chunk>): string
    decreases |chunks|
  {
    if |chunks| == 0 then "" else ContentOf(chunks[..|chunks| - 1]) + chunks[|chunks| - 1].content.GetOr("")
  }

  /** The id of the last chunk, if any. */
  function LastId(chunks: seq<Chunk>): Option<string> {
    if |chunks| == 0 then None else Some(chunks[|chunks| - 1].id)
  }

  /** The final output: the content, and the tool calls when there are any. */
  function FinalOutput(content: string, calls: Calls): Value {
    var base := map["content" := VStr(content)];
    VMap(if |calls.order| > 0 then base["tool_calls" := VList(CallList(calls))] else base)
  }

  /** The final output holds the whole streamed text, and the list of calls exactly when there are any. */
  lemma FinalOutputKeys(content: string, calls: Calls)
    ensures var out := FinalOutput(content, calls);
      out.VMap? && "content" in out.fields && out.fields["content"] == VStr(content) &&
      ("tool_calls" in out.fields <==> |calls.order| > 0) &&
      ("tool_calls" in out.fields ==> out.fields["tool_calls"] == VList(CallList(calls))) &&
      out.fields.Keys <= {"content", "tool_calls"}
  {
  }

  /** `estimateTokenCount($text)` for a text of `length` bytes: about four bytes per token, rounded up. */
  function EstimateTokenCount(length: nat): (n: nat)
    ensures 4 * n >= length && 4 * n < length + 4
  {
    (length + 3) / 4
  }

  /** An event `streamResponse` yields. */
  datatype StreamEvent =
    | ChunkEvent(content: Option<string>, toolCalls: Option<seq<ToolCallDelta>>)
    | Completed(id: Option<string>, output: Value, usage: Counts)

  /** `json_encode`'s output length, which the model takes as given. */
  type JsonLength = Value -> nat

  /** The completion event after `chunks`, with tokens estimated from the encoded messages and output. */
  function CompletedEvent(messages: seq<Value>, chunks: seq<Chunk>, jsonLength: JsonLength): StreamEvent {
    var output := FinalOutput(ContentOf(chunks), StreamCalls(chunks));
    var promptTokens := EstimateTokenCount(jsonLength(VList(messages)));
    var completionTokens := EstimateTokenCount(jsonLength(output));
    Completed(LastId(chunks), output, Counts(1, promptTokens, completionTokens,
                                             TotalOrSum(promptTokens, completionTokens, promptTokens + completionTokens)))
  }

  /** The estimated usage of a streamed reply always adds up. */
  lemma StreamUsageBalanced(messages: seq<Value>, chunks: seq<Chunk>, jsonLength: JsonLength)
    ensures Balanced(CompletedEvent(messages, chunks, jsonLength).usage)
    ensures CompletedEvent(messages, chunks, jsonLength).usage.requests == 1
  {
  }

  lemma {:induction false} KeyedAppend(calls: Calls, a: seq<ToolCallDelta>, b: seq<ToolCallDelta>)
    ensures Keyed(calls, a + b) == Keyed(Keyed(calls, a), b)
    decreases |b|
  {
    if |b| == 0 {
      assert a + b == a;
    } else {
      assert (a + b)[..|a + b| - 1] == a + b[..|b| - 1];
      assert (a + b)[|a + b| - 1] == b[|b| - 1];
      KeyedAppend(calls, a, b[..|b| - 1]);
    }
  }

  /** Files one chunk's deltas, by index. */
  method RecordAll(calls: Calls, deltas: seq<ToolCallDelta>) returns (r: Calls)
    ensures r == Keyed(calls, deltas)
  {
    r := calls;
    var i := 0;
    while i < |deltas|
      invariant 0 <= i <= |deltas|
      invariant r == Keyed(calls, deltas[..i])
    {
      assert deltas[..i + 1][..i] == deltas[..i];
      r := Record(r, deltas[i].index, deltas[i]);
      i := i + 1;
    }
    assert deltas[..|deltas|] == deltas;
  }

  /** One chunk event per chunk, each passing on the chunk's content and tool-call deltas. */
  function ChunkEvents(chunks: seq<Chunk>): seq<StreamEvent>
    decreases |chunks|
  {
    if |chunks| == 0 then []
    else ChunkEvents(chunks[..|chunks| - 1]) + [ChunkEvent(chunks[|chunks| - 1].content, chunks[|chunks| - 1].toolCalls)]
  }

  /** The events of a streamed reply: the chunk events, then the completion event. */
  function StreamEvents(messages: seq<Value>, chunks: seq<Chunk>, jsonLength: JsonLength): seq<StreamEvent> {
    ChunkEvents(chunks) + [CompletedEvent(messages, chunks, jsonLength)]
  }

  lemma {:induction false} ChunkEventsEach(chunks: seq<Chunk>)
    ensures |ChunkEvents(chunks)| == |chunks|
    ensures forall i {:trigger ChunkEvents(chunks)[i]} :: 0 <= i < |chunks| ==> ChunkEvents(chunks)[i] == ChunkEvent(chunks[i].content, chunks[i].toolCalls)
    decreases |chunks|
  {
    if |chunks| > 0 {
      var front := chunks[..|chunks| - 1];
      ChunkEventsEach(front);
      assert forall i :: 0 <= i < |front| ==> front[i] == chunks[i];
    }
  }

  /**
   * A streamed reply yields one chunk event per chunk, in order and
   * carrying that chunk's delta, and then exactly one completion event,
   * which comes last.
   */
  lemma StreamEventsShape(messages: seq<Value>, chunks: seq<Chunk>, jsonLength: JsonLength)
    ensures var events := StreamEvents(messages, chunks, jsonLength);
      |events| == |chunks| + 1 &&
      (forall i :: 0 <= i < |chunks| ==> events[i] == ChunkEvent(chunks[i].content, chunks[i].toolCalls)) &&
      events[|chunks|].Completed?
  {
    ChunkEventsEach(chunks);
  }

  /** The fold over the chunks: one event per chunk, and the accumulated id, content and calls. */
  method Fold(chunks: seq<Chunk>) returns (events: seq<StreamEvent>, responseId: Option<string>, content: string, calls: Calls)
    ensures events == ChunkEvents(chunks)
    ensures responseId == LastId(chunks) && content == ContentOf(chunks) && calls == StreamCalls(chunks)
  {
    events, responseId, content, calls := [], None, "", NoCalls;
    var i := 0;
    while i < |chunks|
      invariant 0 <= i <= |chunks|
      invariant events == ChunkEvents(chunks[..i])
      invariant responseId == LastId(chunks[..i]) && content == ContentOf(chunks[..i])
      invariant calls == StreamCalls(chunks[..i])
    {
      assert chunks[..i + 1][..i] == chunks[..i];
      var chunk := chunks[i];
      responseId := Some(chunk.id);
      if chunk.content.Some? {
        content := content + chunk.content.value;
      }
      KeyedAppend(NoCalls, Deltas(chunks[..i]), chunk.toolCalls.GetOr([]));
      if chunk.toolCalls.Some? {
        calls := RecordAll(calls, chunk.toolCalls.value);
      }
      events := events + [ChunkEvent(chunk.content, chunk.toolCalls)];
      i := i + 1;
    }
    assert chunks[..|chunks|] == chunks;
  }

  /** The completion event from the accumulated id, content and calls. */
  method Complete(messages: seq<Value>, responseId: Option<string>, content: string, calls: Calls, jsonLength: JsonLength,
                  ghost chunks: seq<Chunk>)
    returns (e: StreamEvent)
    requires responseId == LastId(chunks) && content == ContentOf(chunks) && calls == StreamCalls(chunks)
    ensures e == CompletedEvent(messages, chunks, jsonLength)
  {
    var output := FinalOutput(content, calls);
    var promptTokens := EstimateTokenCount(jsonLength(VList(messages)));
    var completionTokens := EstimateTokenCount(jsonLength(output));
    var usage := Counts(1, promptTokens, completionTokens,
                        TotalOrSum(promptTokens, completionTokens, promptTokens + completionTokens));
    e := Completed(responseId, output, usage);
  }

  /** The loop over the stream and the completion event after it. */
  method Events(messages: seq<Value>, chunks: seq<Chunk>, jsonLength: JsonLength) returns (events: seq<StreamEvent>)
    ensures events == StreamEvents(messages, chunks, jsonLength)
  {
    var chunkEvents, responseId, content, calls := Fold(chunks);
    var completed := Complete(messages, responseId, content, calls, jsonLength, chunks);
    events := chunkEvents + [completed];
  }

  /** `streamResponse(...)`: the events of the streamed reply, or `None` when the client throws. */
  method StreamResponse(modelName: string, systemInstructions: Option<string>, input: seq<Value>, settings: ModelSettings,
                        tools: seq<Tool>, outputType: Option<string>, handoffs: seq<HandoffEntry>,
                        client: StreamClient, jsonLength: JsonLength)
    returns (r: Option<seq<StreamEvent>>)
    ensures var stream := client(Request(modelName, systemInstructions, input, settings, tools, outputType, handoffs, true));
      r == if stream.None? then None else Some(StreamEvents(Messages(systemInstructions, input), stream.value, jsonLength))
  {
    var messages, params := PrepareRequest(modelName, systemInstructions, input, settings, tools, outputType, handoffs, true);
    match client(params)
    case None =>
      r := None;
    case Some(chunks) =>
      var events := Events(messages, chunks, jsonLength);
      r := Some(events);
  }
}
