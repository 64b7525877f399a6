/**
 * Conversation items (`Items\RunItem`), model responses (`Items\ModelResponse`)
 * and the shape of a run's input, with the conversion of an item into the
 * chat message the model is sent next turn.
 */
module RunItems {
  import opened Values
  import opened Usages

  /** What `run` accepts as input: a user text, or a list of chat messages. */
  datatype RunInput = TextInput(text: string) | MessageList(messages: seq<Value>)

  /** A run input as the PHP value guardrails receive. */
  function InputValue(input: RunInput): Value {
    match input
    case TextInput(s) => VStr(s)
    case MessageList(ms) => VList(ms)
  }

  /** One generated item: its type tag and its payload; the getters are the two fields. */
  datatype RunItem = RunItem(itemType: string, content: Value)

  const AiMessage := "ai_message"
  const ToolResult := "tool_result"
  const UserMessage := "user_message"

  /** `new ModelResponse($output, $usage, $referenceableId)`; a missing usage is a zero usage. */
  datatype ModelResponse = ModelResponse(output: Value, usage: Counts, referenceableId: Option<string>)

  /** `toInputItem()`: the chat message that replays this item to the model. */
  function ToInputItem(item: RunItem): Value {
    var c := item.content;
    if item.itemType == AiMessage then
      VMap(map["role" := VStr("assistant"),
               "content" := if c.VStr? then c else Get(c, "content"),
               "tool_calls" := Get(c, "tool_calls")])
    else if item.itemType == ToolResult then
      VMap(map["role" := VStr("tool"),
               "tool_call_id" := Get(c, "tool_call_id"),
               "name" := Get(c, "tool_name"),
               "content" := Get(c, "result")])
    else if item.itemType == UserMessage then
      VMap(map["role" := VStr("user"), "content" := c])
    else
      VMap(map["type" := VStr(item.itemType), "content" := c])
  }

  /** The entries of a map whose value is not null. */
  function NonNull(m: map<string, Value>): map<string, Value> {
    map k | k in m && m[k] != VNull :: m[k]
  }

  /**
   * Reading a chat message back as an item: the role selects the item type,
   * and the message's fields are put back under the item's own keys.
   */
  function FromInputItem(msg: Value): RunItem {
    var role := Get(msg, "role");
    if role == VStr("assistant") then
      var content := Get(msg, "content");
      var calls := Get(msg, "tool_calls");
      if calls == VNull && content.VStr? then RunItem(AiMessage, content)
      else RunItem(AiMessage, VMap(NonNull(map["content" := content, "tool_calls" := calls])))
    else if role == VStr("tool") then
      RunItem(ToolResult, VMap(NonNull(map["tool_call_id" := Get(msg, "tool_call_id"),
                                           "tool_name" := Get(msg, "name"),
                                           "result" := Get(msg, "content")])))
    else if role == VStr("user") then
      RunItem(UserMessage, Get(msg, "content"))
    else
      var t := Get(msg, "type");
      RunItem(if t.VStr? then t.s else "", Get(msg, "content"))
  }

  /** A map holds only non-null values under the given keys. */
  predicate PayloadOf(c: Value, keys: set<string>) {
    c.VMap? && c.fields.Keys <= keys && forall k :: k in c.fields ==> c.fields[k] != VNull
  }

  /**
   * The items whose message carries everything: any user message and any item
   * of another type; an assistant message with text content, or with a payload
   * of `content` and `tool_calls` that is not just a text; a tool result whose
   * payload has only `tool_call_id`, `tool_name` and `result`.
   */
  predicate Replayable(item: RunItem) {
    var c := item.content;
    if item.itemType == AiMessage then
      c.VStr? || (PayloadOf(c, {"content", "tool_calls"}) && ("tool_calls" in c.fields || !Get(c, "content").VStr?))
    else if item.itemType == ToolResult then
      PayloadOf(c, {"tool_call_id", "tool_name", "result"})
    else true
  }

  /** The exact keys of each kind of message; only items of an unknown type get no `role`. */
  lemma InputItemKeys(item: RunItem)
    ensures ToInputItem(item).VMap?
    ensures item.itemType == AiMessage ==> ToInputItem(item).fields.Keys == {"role", "content", "tool_calls"}
    ensures item.itemType == ToolResult ==> ToInputItem(item).fields.Keys == {"role", "tool_call_id", "name", "content"}
    ensures item.itemType == UserMessage ==> ToInputItem(item).fields.Keys == {"role", "content"}
    ensures "role" !in ToInputItem(item).fields <==> item.itemType !in {AiMessage, ToolResult, UserMessage}
    ensures "role" !in ToInputItem(item).fields ==> ToInputItem(item).fields == map["type" := VStr(item.itemType), "content" := item.content]
  {
  }

  lemma NonNullOfPayload(c: Value, m: map<string, Value>, keys: set<string>)
    requires PayloadOf(c, keys)
    requires m.Keys == keys
    requires forall k :: k in keys ==> m[k] == Get(c, k)
    ensures NonNull(m) == c.fields
  {
    forall k | k in NonNull(m)
      ensures k in c.fields && c.fields[k] == NonNull(m)[k]
    {
      assert m[k] == Get(c, k) && m[k] != VNull;
    }
    forall k | k in c.fields
      ensures k in NonNull(m)
    {
      assert Get(c, k) == c.fields[k];
    }
  }

  /** Replaying a replayable item loses nothing: the message reads back as the same item. */
  lemma InputItemRoundTrip(item: RunItem)
    requires Replayable(item)
    ensures FromInputItem(ToInputItem(item)) == item
  {
    var c := item.content;
    var msg := ToInputItem(item);
    if item.itemType == AiMessage {
      if !c.VStr? {
        var m := map["content" := Get(c, "content"), "tool_calls" := Get(c, "tool_calls")];
        assert m.Keys == {"content", "tool_calls"};
        NonNullOfPayload(c, m, {"content", "tool_calls"});
        assert Get(msg, "content") == Get(c, "content");
        assert Get(msg, "tool_calls") == Get(c, "tool_calls");
      }
    } else if item.itemType == ToolResult {
      var m := map["tool_call_id" := Get(c, "tool_call_id"), "tool_name" := Get(c, "tool_name"), "result" := Get(c, "result")];
      assert m.Keys == {"tool_call_id", "tool_name", "result"};
      NonNullOfPayload(c, m, {"tool_call_id", "tool_name", "result"});
      assert Get(msg, "tool_call_id") == Get(c, "tool_call_id");
      assert Get(msg, "name") == Get(c, "tool_name");
      assert Get(msg, "content") == Get(c, "result");
    }
  }

  /**
   * The conversion is not injective: an assistant text and an assistant
   * payload holding only that text become the same message.
   */
  lemma AssistantTextPayloadCollapses(s: string)
    ensures ToInputItem(RunItem(AiMessage, VStr(s))) == ToInputItem(RunItem(AiMessage, VMap(map["content" := VStr(s)])))
  {
  }
}
