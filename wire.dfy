/**
 * The shapes the chat loop reads from its two remote collaborators: the
 * answer of the language model's `generateContent` call and the result of a
 * tool call made over the tool server's protocol. Only the fields the loop
 * looks at are kept. A JavaScript field that may be `undefined` is an
 * `Option`. A missing list of candidates or of content items is an empty
 * sequence: every read of those behaves the same on a missing and on an empty
 * list. A candidate's parts list is an `Option`, because the conversation
 * reads it without a check and so fails on a missing list but not on an
 * empty one.
 */
module Wire {

  datatype Option<+T> = None | Some(value: T)

  /** The arguments of a function call, by parameter name (values kept as strings). */
  type Args = map<string, string>

  /** A function call the model asks for: the tool's name and its arguments. */
  datatype FunctionCall = FunctionCall(name: string, args: Args)

  /** One part of a candidate's content; the model may set a function call, a text, both or neither. */
  datatype Part = Part(functionCall: Option<FunctionCall>, text: Option<string>)

  /** One candidate of a reply; `parts` is `None` when it has no content or its content has no parts list. */
  datatype Candidate = Candidate(parts: Option<seq<Part>>)

  /** The answer of one `generateContent` call. */
  datatype Response = Response(candidates: seq<Candidate>)

  /** One item of a tool result's content; items that are not text carry no text. */
  datatype ContentItem = ContentItem(text: Option<string>)

  /** The answer of one `callTool` call. */
  datatype ToolResult = ToolResult(content: seq<ContentItem>)

  /** JavaScript truthiness of an optional string: present and not empty. */
  predicate Truthy(s: Option<string>)
  {
    s.Some? && s.value != ""
  }

  /** The reply has a first candidate and that candidate has a parts list, so reading its first part does not fail. */
  predicate HasParts(r: Response)
  {
    |r.candidates| > 0 && r.candidates[0].parts.Some?
  }

  /** The first part of the first candidate, when all of them exist. */
  function FirstPart(r: Response): (p: Option<Part>)
    ensures p.Some? <==> HasParts(r) && |r.candidates[0].parts.value| > 0
    ensures p.Some? ==> p.value == r.candidates[0].parts.value[0]
  {
    if HasParts(r) && |r.candidates[0].parts.value| > 0 then Some(r.candidates[0].parts.value[0]) else None
  }

  /** The text of the first part of the first candidate, when there is one. */
  function FirstText(r: Response): (t: Option<string>)
    ensures t.Some? ==> FirstPart(r).Some? && FirstPart(r).value.text == t
    ensures FirstPart(r).Some? ==> t == FirstPart(r).value.text
  {
    match FirstPart(r)
    case Some(p) => p.text
    case None => None
  }
}
