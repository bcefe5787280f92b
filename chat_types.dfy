/** Shared data model: the agent service's "core" messages and their content
    parts, the chat UI's messages and parts, and small helpers over them. */
module ChatTypes {

  datatype Option<T> = None | Some(value: T) {
    function GetOr(default: T): T {
      match this
      case Some(v) => v
      case None => default
    }
  }

  datatype Result<T, E> = Ok(value: T) | Err(error: E)

  /** The errors the converters throw. */
  datatype ConvertError =
    | UnsupportedPartType(kind: string)
    | UnexpectedSystemMessageFormat
    | UnknownMessageRole(role: string)

  /** A JSON value (tool arguments and tool results). */
  datatype Json =
    | JNull
    | JBool(b: bool)
    | JNum(n: int)
    | JStr(s: string)
    | JArr(items: seq<Json>)
    | JObj(fields: map<string, Json>)

  /** The empty JSON object `{}`. */
  const EmptyObject: Json := JObj(map[])

  /** `x ?? {}` on a value read from a map: a missing entry and a stored
      JSON null both become `{}`. */
  function OrEmptyObject(x: Option<Json>): Json {
    if x.Some? && x.value != JNull then x.value else EmptyObject
  }

  /** One content part of a core message. A tool-call part may carry the
      result the stream attached to it; `Unknown` stands for a part whose
      type is outside the typed union. */
  datatype Part =
    | Text(text: string)
    | Image(image: string)
    | File(mimeType: string, data: string)
    | Reasoning(text: string)
    | RedactedReasoning(data: string)
    | ToolCall(toolCallId: string, toolName: string, args: Json, result: Option<Json>)
    | ToolResult(toolCallId: string, toolName: string, resultValue: Json, isError: Option<bool>)
    | Unknown(kind: string)

  datatype Role = System | User | Assistant | Tool

  /** Message content: a plain string or an ordered list of parts. */
  datatype Content = Str(s: string) | Parts(parts: seq<Part>)

  datatype StatusReason = StopReason | UnknownReason | CancelledReason | LengthReason | ContentFilterReason | OtherReason | ErrorReason

  datatype MessageStatus = Running | Complete(reason: StatusReason) | Incomplete(reason: StatusReason)

  /** A core message; `status` is set only by the finish-message updater. */
  datatype Message = Message(role: Role, content: Content, status: Option<MessageStatus>)

  /** One content part of a chat-UI message ("append" or "thread" message).
      `UiOther` stands for UI part types the service does not accept. */
  datatype UiPart =
    | UiText(text: string)
    | UiImage(image: string)
    | UiFile(mimeType: string, data: string)
    | UiReasoning(text: string)
    | UiToolCall(toolCallId: string, toolName: string, args: Json, argsText: Option<string>,
                 result: Option<Json>, isError: Option<bool>)
    | UiOther(kind: string)

  datatype UiRole = UiSystem | UiUser | UiAssistant

  datatype UiMessage = UiMessage(role: UiRole, content: seq<UiPart>)

  /** A new assistant message holding the given parts and no status. */
  function AssistantWith(parts: seq<Part>): Message {
    Message(Assistant, Parts(parts), None)
  }

  /** The last element of a non-empty sequence. */
  function Last<T>(s: seq<T>): T
    requires |s| > 0
  {
    s[|s| - 1]
  }

  /** True when the transcript ends with an assistant message. */
  predicate EndsWithAssistant(messages: seq<Message>) {
    |messages| > 0 && Last(messages).role == Assistant
  }

  /** The concatenation of a list of strings. */
  function Concat(ss: seq<string>): string {
    if ss == [] then "" else Concat(ss[..|ss| - 1]) + Last(ss)
  }

  /** The text a reader sees in a part list: the texts of its text parts, in order. */
  function TextOfParts(ps: seq<Part>): string {
    if ps == [] then "" else TextOfParts(ps[..|ps| - 1]) + (if Last(ps).Text? then Last(ps).text else "")
  }

  /** The text of message content: the string itself, or the text of its parts. */
  function TextOf(c: Content): string {
    match c
    case Str(s) => s
    case Parts(ps) => TextOfParts(ps)
  }

  /** The ids of the tool-call parts, in order. */
  function ToolCallIds(ps: seq<Part>): seq<string> {
    if ps == [] then [] else ToolCallIds(ps[..|ps| - 1]) + (if Last(ps).ToolCall? then [Last(ps).toolCallId] else [])
  }

  /** True when part `p` is a tool-call part with the given id. */
  predicate IsToolCallWithId(p: Part, id: string) {
    p.ToolCall? && p.toolCallId == id
  }

  /** The index of the first tool-call part with the given id, or |ps| when there is none. */
  function FindToolCall(ps: seq<Part>, id: string): (k: nat)
    ensures k <= |ps|
    ensures k < |ps| ==> IsToolCallWithId(ps[k], id)
    ensures forall j :: 0 <= j < k ==> !IsToolCallWithId(ps[j], id)
  {
    if ps == [] then 0
    else if IsToolCallWithId(ps[0], id) then 0
    else 1 + FindToolCall(ps[1..], id)
  }

  lemma {:induction false} TextOfPartsAppend(ps: seq<Part>, qs: seq<Part>)
    ensures TextOfParts(ps + qs) == TextOfParts(ps) + TextOfParts(qs)
    decreases |qs|
  {
    if qs == [] {
      assert ps + qs == ps;
    } else {
      var q := Last(qs);
      var init := qs[..|qs| - 1];
      assert ps + qs == (ps + init) + [q];
      assert (ps + qs)[..|ps + qs| - 1] == ps + init;
      TextOfPartsAppend(ps, init);
    }
  }

  lemma {:induction false} ToolCallIdsAppend(ps: seq<Part>, qs: seq<Part>)
    ensures ToolCallIds(ps + qs) == ToolCallIds(ps) + ToolCallIds(qs)
    decreases |qs|
  {
    if qs == [] {
      assert ps + qs == ps;
    } else {
      var init := qs[..|qs| - 1];
      assert (ps + qs)[..|ps + qs| - 1] == ps + init;
      ToolCallIdsAppend(ps, init);
    }
  }

  /** Replacing a part by one of the same text contribution and tool-call id keeps both views. */
  lemma {:induction false} ReplaceKeepsViews(ps: seq<Part>, k: nat, q: Part)
    requires k < |ps|
    requires TextOfParts([q]) == TextOfParts([ps[k]])
    requires ToolCallIds([q]) == ToolCallIds([ps[k]])
    ensures TextOfParts(ps[k := q]) == TextOfParts(ps)
    ensures ToolCallIds(ps[k := q]) == ToolCallIds(ps)
  {
    assert ps == ps[..k] + [ps[k]] + ps[k + 1..];
    assert ps[k := q] == ps[..k] + [q] + ps[k + 1..];
    TextOfPartsAppend(ps[..k] + [ps[k]], ps[k + 1..]);
    TextOfPartsAppend(ps[..k], [ps[k]]);
    TextOfPartsAppend(ps[..k] + [q], ps[k + 1..]);
    TextOfPartsAppend(ps[..k], [q]);
    ToolCallIdsAppend(ps[..k] + [ps[k]], ps[k + 1..]);
    ToolCallIdsAppend(ps[..k], [ps[k]]);
    ToolCallIdsAppend(ps[..k] + [q], ps[k + 1..]);
    ToolCallIdsAppend(ps[..k], [q]);
  }
}
