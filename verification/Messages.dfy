/** The conversation data model.  A `string` stands for the bytes of a UTF-8
    text, so `|s|` is the byte length that the token counter measures. */
module Messages {
  import opened Wrappers

  datatype Role = System | User | Assistant | Tool

  datatype ContentPart = TextPart(text: string) | ImagePart(data: string, mediaType: string)

  datatype Content = Text(text: string) | Parts(parts: seq<ContentPart>) {
    /** The text parts, one after the other; images contribute nothing. */
    function AsTextLossy(): string {
      match this
      case Text(s) => s
      case Parts(ps) => TextOfParts(ps)
    }
  }

  function TextOfParts(parts: seq<ContentPart>): string {
    if parts == [] then ""
    else (if parts[0].TextPart? then parts[0].text else "") + TextOfParts(parts[1..])
  }

  lemma {:induction false} TextOfTwo(a: seq<ContentPart>, b: seq<ContentPart>)
    ensures TextOfParts(a + b) == TextOfParts(a) + TextOfParts(b)
  {
    if a == [] {
      assert a + b == b;
    } else {
      assert (a + b)[1..] == a[1..] + b;
      TextOfTwo(a[1..], b);
      AppendText(if a[0].TextPart? then a[0].text else "", TextOfParts(a[1..]), TextOfParts(b));
    }
  }

  lemma AppendText(a: string, b: string, c: string)
    ensures a + (b + c) == (a + b) + c
  {
  }

  lemma TextOfOne(part: ContentPart)
    ensures TextOfParts([part]) == if part.TextPart? then part.text else ""
  {
    assert [part][1..] == [];
  }

  /** Texts follow one another without anything between; images contribute nothing. */
  lemma PartsRead(a: seq<ContentPart>, b: seq<ContentPart>, text: string, data: string, mediaType: string)
    ensures Parts(a + b).AsTextLossy() == Parts(a).AsTextLossy() + Parts(b).AsTextLossy()
    ensures Parts([TextPart(text)]).AsTextLossy() == text == Text(text).AsTextLossy()
    ensures Parts([ImagePart(data, mediaType)]).AsTextLossy() == ""
  {
    hide TextOfParts;
    TextOfTwo(a, b);
    TextOfOne(TextPart(text));
    TextOfOne(ImagePart(data, mediaType));
  }

  /** The two things the code reads from a JSON argument value: its rendering
      and its "path" member when that is a string. */
  datatype Arguments = Arguments(json: string, path: Option<string>)

  datatype ToolCall = ToolCall(id: string, name: string, arguments: Arguments)

  datatype ToolResult = ToolResult(content: string, isError: bool)

  datatype Message = Message(role: Role, content: Content, toolCalls: seq<ToolCall>,
                             reasoning: Option<string>, name: Option<string>, toolCallId: Option<string>)

  type History = seq<Message>

  function UserMessage(text: string): Message {
    Message(User, Text(text), [], None, None, None)
  }

  /** A growable list of messages that several components update in place. */
  class MessageLog {
    var messages: History

    constructor (h: History)
      ensures messages == h
    {
      messages := h;
    }

    method Push(m: Message)
      modifies this
      ensures messages == old(messages) + [m]
    {
      messages := messages + [m];
    }
  }
}
