/** The conversation messages that flow through the agent graph (langchain's
    `SystemMessage`, `HumanMessage`, `AIMessage` and `ToolMessage`), reduced to the
    fields that the agent's own code reads. */
module Messages {
  import opened Wrappers

  /** Which langchain message class a message is. */
  datatype Kind = System | Human | AI | Tool

  /** One element of a multi-part content list. */
  datatype Part =
    | TextPart(text: string)      // {"type": "text", "text": ...}
    | ImageUrlPart(url: string)   // {"type": "image_url", "image_url": {"url": ...}}

  /** A message's `content`: a plain string or a list of parts. */
  datatype Content = Text(text: string) | Parts(parts: seq<Part>)

  /** A message: its class, its optional `name` (a tool message carries the tool's name,
      the other classes usually `None`), its content, and how many entries its
      `tool_calls` list has (only an `AIMessage` has that attribute). */
  datatype Message = Message(kind: Kind, name: Option<string>, content: Content, toolCalls: nat)

  /** What the screenshot bridge obtains from a message's content: a JSON object (a
      dictionary, reduced to its string-valued entries), a `json.JSONDecodeError`, or
      some value that is not a dictionary (a JSON list, string, number or `null`, or a
      content that is already a list). */
  datatype Payload = Object(fields: map<string, string>) | DecodeError | NotObject

  /** The payload of `m`, where `decode` stands for `json.loads`: a string content is
      decoded, and any other content is taken as it is, which is a list and so not a
      dictionary. */
  function PayloadOf(m: Message, decode: string -> Payload): Payload
  {
    match m.content
    case Text(s) => decode(s)
    case Parts(_) => NotObject
  }

  /** `HumanMessage(content=text)`: no name and no tool calls. */
  function HumanText(text: string): Message
  {
    Message(Human, None, Text(text), 0)
  }
}
