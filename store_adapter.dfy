/** The older client's store adapter: the outbound message converter, the
    messages `onNew` appends, and the per-stream state with its three
    transcript updaters (text, tool call, tool result). */
module StoreAdapter {
  import opened ChatTypes
  import Converters
  import StreamProcessors

  // ---------------------------------------------------------------------
  // Outbound conversion.

  /** The part the unchecked cast hands on for a UI part: the same type and
      fields, a tool call keeping any result it carries. */
  function CastPart(u: UiPart): Part {
    match u
    case UiText(t) => Text(t)
    case UiImage(i) => Image(i)
    case UiFile(m, d) => File(m, d)
    case UiReasoning(t) => Reasoning(t)
    case UiToolCall(id, name, args, _, result, _) => ToolCall(id, name, args, result)
    case UiOther(kind) => Unknown(kind)
  }

  /** True when the UI part has a `text` field. */
  predicate HasTextField(u: UiPart) {
    u.UiText? || u.UiReasoning?
  }

  /** A system message must be exactly one part that has a text field; user
      and assistant messages are cast part by part without a check. */
  function ConvertAssistantUIMessageToMastraMessage(m: UiMessage): (r: Result<Message, ConvertError>)
    ensures r.Err? <==> m.role == UiSystem && !(|m.content| == 1 && HasTextField(m.content[0]))
    ensures r.Err? ==> r.error == UnexpectedSystemMessageFormat
    ensures m.role == UiSystem && r.Ok? ==> r.value == Message(System, Str(m.content[0].text), None)
    ensures m.role != UiSystem ==>
      && r.value.role == (if m.role == UiUser then User else Assistant)
      && r.value.status == None
      && r.value.content.Parts?
      && |r.value.content.parts| == |m.content|
      && forall i :: 0 <= i < |m.content| ==> r.value.content.parts[i] == CastPart(m.content[i])
  {
    match m.role
    case UiSystem =>
      if |m.content| == 1 && HasTextField(m.content[0]) then Ok(Message(System, Str(m.content[0].text), None))
      else Err(UnexpectedSystemMessageFormat)
    case UiUser => Ok(Message(User, Parts(seq(|m.content|, i requires 0 <= i < |m.content| => CastPart(m.content[i]))), None))
    case UiAssistant => Ok(Message(Assistant, Parts(seq(|m.content|, i requires 0 <= i < |m.content| => CastPart(m.content[i]))), None))
  }

  /** On user and assistant messages of supported parts whose tool calls carry
      no result, the unchecked cast and the frontend's checked converter agree. */
  lemma CastAgreesWithCheckedConverter(m: UiMessage)
    requires m.role != UiSystem
    requires forall i :: 0 <= i < |m.content| ==> !m.content[i].UiOther?
    requires forall i :: 0 <= i < |m.content| ==> m.content[i].UiToolCall? ==> m.content[i].result.None?
    ensures ConvertAssistantUIMessageToMastraMessage(m) == Converters.AppendMessageToCoreMessage(m)
  {
    var a := ConvertAssistantUIMessageToMastraMessage(m).value;
    var b := Converters.AppendMessageToCoreMessage(m).value;
    assert a.content.parts == b.content.parts by {
      forall i | 0 <= i < |m.content| ensures a.content.parts[i] == b.content.parts[i] {
        assert Converters.MapsTo(m.content[i], b.content.parts[i]);
      }
    }
  }

  /** A system message of two text parts: this converter throws where the
      frontend converter joins the texts with a newline. */
  lemma SystemConvertersDisagree(x: string, y: string)
    ensures ConvertAssistantUIMessageToMastraMessage(UiMessage(UiSystem, [UiText(x), UiText(y)])).Err?
    ensures Converters.AppendMessageToCoreMessage(UiMessage(UiSystem, [UiText(x), UiText(y)]))
            == Ok(Message(System, Str(x + "\n" + y), None))
  {
    var ps := [UiText(x), UiText(y)];
    assert ps[1..] == [UiText(y)] && ps[1..][1..] == [];
    assert Converters.TextsOf([UiText(y)]) == [y] + Converters.TextsOf([]);
    assert Converters.TextsOf(ps) == [x] + [y];
    assert [x, y][1..] == [y];
    assert Converters.JoinLines([x, y]) == x + "\n" + y;
  }

  /** The assistant message `onNew` starts the reply with. */
  const InitialAssistantMessage: Message := AssistantWith([Text("")])

  /** The transcript after `onNew`: the converted user message, then the
      initial assistant message; a conversion error leaves it as it was. */
  function OnNewMessages(prev: seq<Message>, m: UiMessage): (r: Result<seq<Message>, ConvertError>)
    ensures r.Ok? <==> ConvertAssistantUIMessageToMastraMessage(m).Ok?
    ensures r.Ok? ==> |r.value| == |prev| + 2 && r.value[..|prev|] == prev
                      && r.value[|prev|] == ConvertAssistantUIMessageToMastraMessage(m).value
                      && Last(r.value) == InitialAssistantMessage
  {
    var user := ConvertAssistantUIMessageToMastraMessage(m);
    if user.Err? then Err(user.error)
    else
      assert (prev + [user.value] + [InitialAssistantMessage])[..|prev|] == prev;
      Ok(prev + [user.value] + [InitialAssistantMessage])
  }

  // ---------------------------------------------------------------------
  // What the three updaters compute.

  /** The updaters act only when the last message is an assistant message with a part list. */
  predicate OpenParts(messages: seq<Message>) {
    |messages| > 0 && Last(messages).role == Assistant && Last(messages).content.Parts?
  }

  /** The list with its last message's content replaced. */
  function ReplaceLast(messages: seq<Message>, c: Content): (r: seq<Message>)
    requires |messages| > 0
    ensures |r| == |messages| && r[..|r| - 1] == messages[..|messages| - 1]
    ensures Last(r) == Last(messages).(content := c)
  {
    messages[..|messages| - 1] + [Last(messages).(content := c)]
  }

  predicate HasTextPart(ps: seq<Part>) {
    exists j :: 0 <= j < |ps| && ps[j].Text?
  }

  /** Every text part set to the accumulated text, and one appended when there is none. */
  function WithText(ps: seq<Part>, acc: string): seq<Part> {
    seq(|ps|, i requires 0 <= i < |ps| => if ps[i].Text? then Text(acc) else ps[i])
    + (if HasTextPart(ps) then [] else [Text(acc)])
  }

  function TextUpdate(messages: seq<Message>, acc: string): seq<Message> {
    if OpenParts(messages) then ReplaceLast(messages, Parts(WithText(Last(messages).content.parts, acc)))
    else messages
  }

  /** The parts with the call appended, unless a call with its id is already there. */
  function WithToolCall(ps: seq<Part>, call: StreamProcessors.ToolCallEvent): seq<Part> {
    if FindToolCall(ps, call.toolCallId) < |ps| then ps
    else ps + [ToolCall(call.toolCallId, call.toolName, call.args, None)]
  }

  function ToolCallUpdate(messages: seq<Message>, call: StreamProcessors.ToolCallEvent): seq<Message> {
    if OpenParts(messages) then ReplaceLast(messages, Parts(WithToolCall(Last(messages).content.parts, call)))
    else messages
  }

  /** Every tool call with the id gets the result. */
  function WithResult(ps: seq<Part>, id: string, result: Json): seq<Part> {
    seq(|ps|, i requires 0 <= i < |ps| => if IsToolCallWithId(ps[i], id) then ps[i].(result := Some(result)) else ps[i])
  }

  function ToolResultUpdate(messages: seq<Message>, id: string, result: Json): seq<Message> {
    if OpenParts(messages) then ReplaceLast(messages, Parts(WithResult(Last(messages).content.parts, id, result)))
    else messages
  }

  // ---------------------------------------------------------------------
  // The updaters as the source writes them: loops that push into a new list.

  /** The `onTextPart` updater. */
  method TextUpdater(prev: seq<Message>, acc: string) returns (r: seq<Message>)
    ensures r == TextUpdate(prev, acc)
  {
    if !OpenParts(prev) {
      return prev;
    }
    var ps := Last(prev).content.parts;
    var updated: seq<Part> := [];
    var textPartFound := false;
    for i := 0 to |ps|
      invariant |updated| == i
      invariant forall j :: 0 <= j < i ==> updated[j] == if ps[j].Text? then Text(acc) else ps[j]
      invariant textPartFound <==> exists j :: 0 <= j < i && ps[j].Text?
    {
      if ps[i].Text? {
        textPartFound := true;
        updated := updated + [Text(acc)];
      } else {
        updated := updated + [ps[i]];
      }
    }
    if !textPartFound {
      updated := updated + [Text(acc)];
    }
    assert updated == WithText(ps, acc);
    r := ReplaceLast(prev, Parts(updated));
  }

  /** The `onToolCallPart` updater. */
  method ToolCallUpdater(prev: seq<Message>, call: StreamProcessors.ToolCallEvent) returns (r: seq<Message>)
    ensures r == ToolCallUpdate(prev, call)
  {
    if !OpenParts(prev) {
      return prev;
    }
    var ps := Last(prev).content.parts;
    var updated: seq<Part> := [];
    var toolCallFound := false;
    for i := 0 to |ps|
      invariant updated == ps[..i]
      invariant toolCallFound <==> FindToolCall(ps, call.toolCallId) < i
    {
      if ps[i].ToolCall? && ps[i].toolCallId == call.toolCallId {
        toolCallFound := true;
        updated := updated + [ToolCall(call.toolCallId, ps[i].toolName, ps[i].args, ps[i].result)];
      } else {
        updated := updated + [ps[i]];
      }
    }
    assert updated == ps;
    if !toolCallFound {
      updated := updated + [ToolCall(call.toolCallId, call.toolName, call.args, None)];
    }
    r := ReplaceLast(prev, Parts(updated));
  }

  // ---------------------------------------------------------------------
  // Properties of the updaters.

  /** After a text update every text part of the open message holds the
      accumulated text, there is at least one, the other parts keep their
      places, and a part is added only when there was no text part. */
  lemma TextUpdateShowsAccumulated(messages: seq<Message>, acc: string)
    ensures !OpenParts(messages) ==> TextUpdate(messages, acc) == messages
    ensures OpenParts(messages) ==>
      var ps := Last(messages).content.parts;
      var r := TextUpdate(messages, acc);
      var qs := Last(r).content.parts;
      && |r| == |messages| && r[..|r| - 1] == messages[..|messages| - 1]
      && Last(r).role == Assistant
      && |qs| == (if HasTextPart(ps) then |ps| else |ps| + 1)
      && HasTextPart(qs)
      && (forall k :: 0 <= k < |qs| && qs[k].Text? ==> qs[k].text == acc)
      && (forall k :: 0 <= k < |ps| && !ps[k].Text? ==> qs[k] == ps[k])
  {
    if OpenParts(messages) {
      var ps := Last(messages).content.parts;
      var qs := WithText(ps, acc);
      if HasTextPart(ps) {
        var j :| 0 <= j < |ps| && ps[j].Text?;
        assert qs[j].Text?;
      } else {
        assert qs[|ps|].Text?;
      }
    }
  }

  /** Only the latest accumulated text matters: a text update overwrites
      what the previous one wrote. */
  lemma TextUpdateLastWins(messages: seq<Message>, a: string, b: string)
    ensures TextUpdate(TextUpdate(messages, a), b) == TextUpdate(messages, b)
  {
    if OpenParts(messages) {
      var ps := Last(messages).content.parts;
      var qs := WithText(ps, a);
      TextUpdateShowsAccumulated(messages, a);
      assert HasTextPart(qs);
      assert WithText(qs, b) == WithText(ps, b);
    }
  }

  /** A tool call with a known id adds nothing, so a repeated call is absorbed;
      a call with a new id is appended as announced, without a result; after
      the update a call with the id is in the open message. */
  lemma {:induction false} ToolCallUpdateDeduplicates(messages: seq<Message>, call: StreamProcessors.ToolCallEvent)
    ensures ToolCallUpdate(ToolCallUpdate(messages, call), call) == ToolCallUpdate(messages, call)
    ensures OpenParts(messages) ==>
      var ps := Last(messages).content.parts;
      var qs := Last(ToolCallUpdate(messages, call)).content.parts;
      && FindToolCall(qs, call.toolCallId) < |qs|
      && qs[..|ps|] == ps
      && |qs| == (if FindToolCall(ps, call.toolCallId) < |ps| then |ps| else |ps| + 1)
      && (FindToolCall(ps, call.toolCallId) == |ps| ==> Last(qs) == ToolCall(call.toolCallId, call.toolName, call.args, None))
  {
    if OpenParts(messages) {
      var ps := Last(messages).content.parts;
      var qs := WithToolCall(ps, call);
      if FindToolCall(ps, call.toolCallId) == |ps| {
        StreamProcessors.FindAfterAppend(ps, ToolCall(call.toolCallId, call.toolName, call.args, None), call.toolCallId);
        assert qs[..|ps|] == ps;
      }
      assert WithToolCall(qs, call) == qs;
      var once := ToolCallUpdate(messages, call);
      assert once[..|once| - 1] + [Last(once).(content := Parts(qs))] == once;
    }
  }

  /** A tool result reaches every matching tool call and nothing else:
      a matching call gains the result and keeps its other fields, every
      other part and every earlier message stays as it was, the part count,
      the text and the tool-call ids are kept, and delivering it again
      changes nothing. */
  lemma ToolResultUpdateKeepsViews(messages: seq<Message>, id: string, result: Json)
    ensures !OpenParts(messages) ==> ToolResultUpdate(messages, id, result) == messages
    ensures OpenParts(messages) ==>
      var ps := Last(messages).content.parts;
      var r := ToolResultUpdate(messages, id, result);
      var qs := Last(r).content.parts;
      && |r| == |messages| && r[..|r| - 1] == messages[..|messages| - 1]
      && |qs| == |ps|
      && Last(r).role == Last(messages).role && Last(r).status == Last(messages).status
      && (forall k :: 0 <= k < |ps| ==> IsToolCallWithId(ps[k], id) ==> qs[k] == ps[k].(result := Some(result)))
      && (forall k :: 0 <= k < |ps| && !IsToolCallWithId(ps[k], id) ==> qs[k] == ps[k])
      && TextOfParts(qs) == TextOfParts(ps)
      && ToolCallIds(qs) == ToolCallIds(ps)
    ensures var once := ToolResultUpdate(messages, id, result);
            ToolResultUpdate(once, id, result) == once
  {
    if OpenParts(messages) {
      var ps := Last(messages).content.parts;
      WithResultKeepsViews(ps, id, result);
      var qs := WithResult(ps, id, result);
      assert WithResult(qs, id, result) == qs;
      var once := ToolResultUpdate(messages, id, result);
      assert once[..|once| - 1] + [Last(once).(content := Parts(qs))] == once;
    }
  }

  lemma {:induction false} WithResultKeepsViews(ps: seq<Part>, id: string, result: Json)
    ensures TextOfParts(WithResult(ps, id, result)) == TextOfParts(ps)
    ensures ToolCallIds(WithResult(ps, id, result)) == ToolCallIds(ps)
    decreases |ps|
  {
    if ps != [] {
      var init := ps[..|ps| - 1];
      var qs := WithResult(ps, id, result);
      WithResultKeepsViews(init, id, result);
      assert qs[..|qs| - 1] == WithResult(init, id, result);
    }
  }

  /** When the open message holds exactly one call with the id, this updater
      and the frontend's tool-result reducer give the same transcript. */
  lemma {:induction false} ToolResultAgreesOnSingleCall(messages: seq<Message>, id: string, result: Json)
    requires OpenParts(messages)
    requires var ps := Last(messages).content.parts;
             exists k :: 0 <= k < |ps| && IsToolCallWithId(ps[k], id) && forall j :: 0 <= j < |ps| && IsToolCallWithId(ps[j], id) ==> j == k
    ensures ToolResultUpdate(messages, id, result)
            == StreamProcessors.HandleOnToolResultPart(StreamProcessors.ToolResultEvent(id, result), messages)
  {
    var ps := Last(messages).content.parts;
    var k :| 0 <= k < |ps| && IsToolCallWithId(ps[k], id) && forall j :: 0 <= j < |ps| && IsToolCallWithId(ps[j], id) ==> j == k;
    var f := FindToolCall(ps, id);
    assert IsToolCallWithId(ps[k], id);
    assert f == k;
    assert StreamProcessors.ResultApplies(StreamProcessors.ToolResultEvent(id, result), messages);
    assert WithResult(ps, id, result) == ps[k := ps[k].(result := Some(result))];
  }

  /** Text that arrives after a tool call is written into the text part
      before it: "a", a tool call, then "b" show "ab" ahead of the call. */
  lemma TextAfterToolCallShownBeforeIt(prev: seq<Message>, call: StreamProcessors.ToolCallEvent)
    ensures var m0 := prev + [InitialAssistantMessage];
            var m1 := TextUpdate(m0, "a");
            var m2 := ToolCallUpdate(m1, call);
            var m3 := TextUpdate(m2, "ab");
            Last(m3).content == Parts([Text("ab"), ToolCall(call.toolCallId, call.toolName, call.args, None)])
  {
    var m0 := prev + [InitialAssistantMessage];
    var tc := ToolCall(call.toolCallId, call.toolName, call.args, None);
    assert OpenParts(m0) && Last(m0).content.parts == [Text("")];
    assert HasTextPart([Text("")]) by { assert [Text("")][0].Text?; }
    assert WithText([Text("")], "a") == [Text("a")];
    var m1 := TextUpdate(m0, "a");
    assert Last(m1).content.parts == [Text("a")];
    assert FindToolCall([Text("a")], call.toolCallId) == 1 by {
      assert [Text("a")][1..] == [];
    }
    var m2 := ToolCallUpdate(m1, call);
    assert Last(m2).content.parts == [Text("a"), tc];
    assert HasTextPart([Text("a"), tc]) by { assert [Text("a"), tc][0].Text?; }
    assert WithText([Text("a"), tc], "ab") == [Text("ab"), tc];
  }

  // ---------------------------------------------------------------------
  // The per-stream state of one `onNew` call.

  /** True when a tool call with the id was seen in this stream. */
  predicate Seen(calls: seq<StreamProcessors.ToolCallEvent>, id: string) {
    exists j :: 0 <= j < |calls| && calls[j].toolCallId == id
  }

  /** The transcript and the state the stream handlers keep: the text
      accumulated so far and the tool calls seen so far. */
  class StoreStream {
    var messages: seq<Message>
    var assistantMessageText: string
    var assistantToolCalls: seq<StreamProcessors.ToolCallEvent>
    /** The text deltas received so far. */
    ghost var deltas: seq<string>

    ghost predicate Valid()
      reads this
    {
      assistantMessageText == Concat(deltas)
    }

    /** Starts a stream over the transcript `onNew` produced. */
    constructor(messages: seq<Message>)
      ensures Valid()
      ensures this.messages == messages && assistantMessageText == "" && assistantToolCalls == [] && deltas == []
    {
      this.messages := messages;
      assistantMessageText := "";
      assistantToolCalls := [];
      deltas := [];
    }

    /** A text delta: the accumulated text grows and every text part of the
      open assistant message is set to all of it. */
    method OnTextPart(text: string)
      requires Valid()
      modifies this
      ensures Valid()
      ensures deltas == old(deltas) + [text]
      ensures assistantMessageText == old(assistantMessageText) + text
      ensures assistantToolCalls == old(assistantToolCalls)
      ensures messages == TextUpdate(old(messages), assistantMessageText)
      ensures OpenParts(old(messages)) ==>
        var qs := Last(messages).content.parts;
        HasTextPart(qs) && forall k :: 0 <= k < |qs| && qs[k].Text? ==> qs[k].text == Concat(deltas)
    {
      assistantMessageText := assistantMessageText + text;
      deltas := deltas + [text];
      assert deltas[..|deltas| - 1] == old(deltas);
      messages := TextUpdater(messages, assistantMessageText);
      TextUpdateShowsAccumulated(old(messages), assistantMessageText);
    }

    /** A tool call: it is remembered, and added to the open assistant
      message unless a call with its id is already there. */
    method OnToolCallPart(call: StreamProcessors.ToolCallEvent)
      requires Valid()
      modifies this
      ensures Valid()
      ensures assistantToolCalls == old(assistantToolCalls) + [call]
      ensures assistantMessageText == old(assistantMessageText) && deltas == old(deltas)
      ensures messages == ToolCallUpdate(old(messages), call)
    {
      assistantToolCalls := assistantToolCalls + [call];
      messages := ToolCallUpdater(messages, call);
    }

    /** A tool result: ignored unless a call with its id was seen in this
      stream, otherwise attached to every matching tool call. */
    method OnToolResultPart(result: StreamProcessors.ToolResultEvent)
      requires Valid()
      modifies this`messages
      ensures Valid()
      ensures Seen(assistantToolCalls, result.toolCallId)
              ==> messages == ToolResultUpdate(old(messages), result.toolCallId, result.result)
      ensures !Seen(assistantToolCalls, result.toolCallId) ==> messages == old(messages)
    {
      if Seen(assistantToolCalls, result.toolCallId) {
        messages := ToolResultUpdate(messages, result.toolCallId, result.result);
      }
    }
  }
}
