/**
 * Helpers over items (`Items\ItemHelpers`): normalising a run input into a
 * message list, and extracting the assistant's text from generated items.
 */
module ItemHelpers {
  import opened Values
  import opened RunItems

  /** `['role' => 'user', 'content' => $text]`. */
  function UserTextMessage(text: string): Value {
    VMap(map["role" := VStr("user"), "content" := VStr(text)])
  }

  /** `inputToNewInputList($input)`: a text becomes one user message, a message list is kept. */
  function InputToNewInputList(input: RunInput): (r: seq<Value>)
    ensures input.TextInput? ==> r == [UserTextMessage(input.text)]
    ensures input.MessageList? ==> r == input.messages
  {
    match input
    case TextInput(s) => [UserTextMessage(s)]
    case MessageList(ms) => ms
  }

  /**
   * What one item adds to the text output: an assistant message's text
   * content, or the `content` entry of its array content when that is set,
   * converted to a string as `implode` does. Other items add nothing.
   */
  function Contribution(item: RunItem): Option<string> {
    if item.itemType != AiMessage then None
    else if item.content.VStr? then Some(item.content.s)
    else if IsArray(item.content) && IsSet(item.content, "content") then Some(ToPhpString(Get(item.content, "content")))
    else None
  }

  /** The contributions of the items, in item order. */
  function Contributions(items: seq<RunItem>): seq<string>
    decreases |items|
  {
    if |items| == 0 then []
    else
      var rest := Contributions(items[..|items| - 1]);
      match Contribution(items[|items| - 1])
      case Some(s) => rest + [s]
      case None => rest
  }

  /** `implode($separator, $parts)`. */
  function Join(separator: string, parts: seq<string>): string
    decreases |parts|
  {
    if |parts| == 0 then ""
    else if |parts| == 1 then parts[0]
    else Join(separator, parts[..|parts| - 1]) + separator + parts[|parts| - 1]
  }

  /** `textMessageOutputs($items)`: collects the contributions in a loop and joins them with newlines. */
  method TextMessageOutputs(items: seq<RunItem>) returns (text: string)
    ensures text == Join("\n", Contributions(items))
  {
    var outputs: seq<string> := [];
    var i := 0;
    while i < |items|
      invariant 0 <= i <= |items|
      invariant outputs == Contributions(items[..i])
    {
      assert items[..i + 1][..i] == items[..i];
      var item := items[i];
      if item.itemType == AiMessage {
        var content := item.content;
        if content.VStr? {
          outputs := outputs + [content.s];
        } else if IsArray(content) && IsSet(content, "content") {
          outputs := outputs + [ToPhpString(Get(content, "content"))];
        }
      }
      i := i + 1;
    }
    assert items[..|items|] == items;
    text := Join("\n", outputs);
  }

  /** The contributions of concatenated item lists are concatenated. */
  lemma {:induction false} ContributionsAppend(a: seq<RunItem>, b: seq<RunItem>)
    ensures Contributions(a + b) == Contributions(a) + Contributions(b)
    decreases |b|
  {
    if |b| == 0 {
      assert a + b == a;
    } else {
      var b' := b[..|b| - 1];
      assert (a + b)[..|a + b| - 1] == a + b';
      ContributionsAppend(a, b');
    }
  }

  /** Only assistant messages contribute: any list without one yields the empty text. */
  lemma {:induction false} NoAssistantNoText(items: seq<RunItem>)
    requires forall i :: 0 <= i < |items| ==> items[i].itemType != AiMessage
    ensures Contributions(items) == []
    ensures Join("\n", Contributions(items)) == ""
    decreases |items|
  {
    if |items| > 0 {
      NoAssistantNoText(items[..|items| - 1]);
    }
  }

  /** Appending one contribution appends it after a newline, except to an empty list. */
  lemma JoinSnoc(separator: string, parts: seq<string>, s: string)
    ensures Join(separator, parts + [s]) == if |parts| == 0 then s else Join(separator, parts) + separator + s
  {
    assert (parts + [s])[..|parts + [s]| - 1] == parts;
  }

  /** One assistant text is returned verbatim, and an item without a contribution changes nothing. */
  lemma SingleAssistantText(items: seq<RunItem>, s: string)
    ensures Join("\n", Contributions([RunItem(AiMessage, VStr(s))])) == s
    ensures forall it :: Contribution(it).None? ==> Contributions(items + [it]) == Contributions(items)
  {
    assert [RunItem(AiMessage, VStr(s))][..0] == [];
    forall it | Contribution(it).None?
      ensures Contributions(items + [it]) == Contributions(items)
    {
      assert (items + [it])[..|items + [it]| - 1] == items;
    }
  }
}
