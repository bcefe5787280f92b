/** The frontend send-message hook: the transcript's message shape, the
    user-message append before streaming, and the finish-message updater. */
module SendMessage {
  import opened ChatTypes
  import Converters
  import StreamProcessors

  /** The finish reasons the stream reports. */
  datatype FinishReason = Stop | Length | ContentFilter | ToolCalls | ErrorFinish | OtherFinish | UnknownFinish

  /** The content an assistant message may hold in the transcript: a string,
      or a list of text, reasoning, redacted-reasoning, file and tool-call
      parts, where a tool call may carry a result. */
  predicate ModifiedAssistantContent(c: Content) {
    c.Parts? ==> forall i :: 0 <= i < |c.parts| ==>
      (c.parts[i].Text? || c.parts[i].Reasoning? || c.parts[i].RedactedReasoning? || c.parts[i].File? || c.parts[i].ToolCall?)
  }

  /** Every assistant message of the transcript has the shape above. */
  predicate WellShaped(messages: seq<Message>) {
    forall i :: 0 <= i < |messages| ==> messages[i].role == Assistant ==> ModifiedAssistantContent(messages[i].content)
  }

  /** Converts the UI message and appends it to the transcript; a conversion
      error is passed on and the transcript is not touched. */
  function SendMessageAppend(prev: seq<Message>, message: UiMessage): (r: Result<seq<Message>, ConvertError>)
    ensures r.Ok? <==> Converters.AppendMessageToCoreMessage(message).Ok?
    ensures r.Ok? ==> |r.value| == |prev| + 1 && r.value[..|prev|] == prev
                      && Last(r.value) == Converters.AppendMessageToCoreMessage(message).value
    ensures r.Err? ==> r.error == Converters.AppendMessageToCoreMessage(message).error
  {
    var m := Converters.AppendMessageToCoreMessage(message);
    if m.Err? then Err(m.error)
    else
      assert (prev + [m.value])[..|prev|] == prev;
      Ok(prev + [m.value])
  }

  /** The status the finish-message updater sets. */
  function FinishStatus(reason: FinishReason): (s: MessageStatus)
    ensures s.Complete?
    ensures s.reason == StopReason <==> reason == Stop
    ensures s.reason == StopReason || s.reason == UnknownReason
  {
    Complete(if reason == Stop then StopReason else UnknownReason)
  }

  /** Marks the last message complete. The source spreads the last element
      of the list, which on an empty list yields an object without a role,
      outside the message type; the list is therefore required non-empty. */
  function OnFinishMessagePart(reason: FinishReason, prev: seq<Message>): (r: seq<Message>)
    requires |prev| > 0
    ensures |r| == |prev|
    ensures r[..|r| - 1] == prev[..|prev| - 1]
    ensures Last(r).role == Last(prev).role && Last(r).content == Last(prev).content
    ensures Last(r).status == Some(FinishStatus(reason))
  {
    prev[..|prev| - 1] + [Last(prev).(status := Some(FinishStatus(reason)))]
  }

  /** A converted user message is never empty of role: after the append the
      transcript is non-empty, so the finish updater's demand is met, and
      each streaming reducer keeps it non-empty. */
  lemma TranscriptStaysNonEmpty(prev: seq<Message>, message: UiMessage, text: string,
                                call: StreamProcessors.ToolCallEvent, result: StreamProcessors.ToolResultEvent,
                                messages: seq<Message>)
    ensures SendMessageAppend(prev, message).Ok? ==> |SendMessageAppend(prev, message).value| > 0
    ensures |StreamProcessors.HandleOnTextPart(text, messages)| > 0
    ensures |StreamProcessors.HandleOnToolCallPart(call, messages)| > 0
    ensures |messages| > 0 ==> |StreamProcessors.HandleOnToolResultPart(result, messages)| > 0
  {
  }

  // ---------------------------------------------------------------------
  // The transcript keeps its shape under every updater.

  lemma {:induction false} TextKeepsShape(text: string, messages: seq<Message>)
    requires WellShaped(messages)
    ensures WellShaped(StreamProcessors.HandleOnTextPart(text, messages))
  {
    var r := StreamProcessors.HandleOnTextPart(text, messages);
    if EndsWithAssistant(messages) {
      var ps := Last(messages).content;
      assert ModifiedAssistantContent(ps) by { assert messages[|messages| - 1].role == Assistant; }
      forall i | 0 <= i < |r| && r[i].role == Assistant
        ensures ModifiedAssistantContent(r[i].content)
      {
        if i < |r| - 1 {
          assert r[i] == r[..|messages| - 1][i] == messages[i];
        } else if r[i].content.Parts? {
          var qs := r[i].content.parts;
          forall j | 0 <= j < |qs| ensures qs[j].Text? || qs[j].Reasoning? || qs[j].RedactedReasoning? || qs[j].File? || qs[j].ToolCall? {
            if j < |ps.parts| - 1 || (j < |ps.parts| && !Last(ps.parts).Text?) {
              assert ps.Parts? && qs[j] == ps.parts[j];
            }
          }
        }
      }
    } else {
      forall i | 0 <= i < |r| && r[i].role == Assistant
        ensures ModifiedAssistantContent(r[i].content)
      {
        if i < |messages| {
          assert r[i] == r[..|messages|][i] == messages[i];
        } else {
          assert r[i] == AssistantWith([Text(text)]);
        }
      }
    }
  }

  lemma {:induction false} ToolCallKeepsShape(call: StreamProcessors.ToolCallEvent, messages: seq<Message>)
    requires WellShaped(messages)
    ensures WellShaped(StreamProcessors.HandleOnToolCallPart(call, messages))
  {
    var r := StreamProcessors.HandleOnToolCallPart(call, messages);
    var part := ToolCall(call.toolCallId, call.toolName, call.args, None);
    if EndsWithAssistant(messages) {
      var c := Last(messages).content;
      assert ModifiedAssistantContent(c) by { assert messages[|messages| - 1].role == Assistant; }
      var qs := Last(r).content.parts;
      if c.Str? {
        StreamProcessors.ToolCallPromotesString(call, messages);
        assert qs == [Text(c.s), part];
      } else {
        StreamProcessors.ToolCallAppendsWithoutDedup(call, messages);
        assert qs == c.parts + [part];
      }
      assert ModifiedAssistantContent(Last(r).content);
      forall i | 0 <= i < |r| && r[i].role == Assistant
        ensures ModifiedAssistantContent(r[i].content)
      {
        if i < |r| - 1 {
          assert r[i] == r[..|messages| - 1][i] == messages[i];
        }
      }
    } else {
      StreamProcessors.ToolCallDiscardsTranscript(call, messages);
      assert r == [AssistantWith([part])];
    }
  }

  lemma {:induction false} ToolResultKeepsShape(result: StreamProcessors.ToolResultEvent, messages: seq<Message>)
    requires WellShaped(messages)
    ensures WellShaped(StreamProcessors.HandleOnToolResultPart(result, messages))
  {
    var r := StreamProcessors.HandleOnToolResultPart(result, messages);
    if StreamProcessors.ResultApplies(result, messages) {
      var ps := Last(messages).content.parts;
      var k := FindToolCall(ps, result.toolCallId);
      assert ModifiedAssistantContent(Last(messages).content) by { assert messages[|messages| - 1].role == Assistant; }
      forall i | 0 <= i < |r| && r[i].role == Assistant
        ensures ModifiedAssistantContent(r[i].content)
      {
        if i < |r| - 1 {
          assert r[i] == r[..|messages| - 1][i] == messages[i];
        } else {
          assert r[i].content.parts == ps[k := ps[k].(result := Some(result.result))];
        }
      }
    }
  }

  lemma {:induction false} FinishKeepsShape(reason: FinishReason, messages: seq<Message>)
    requires |messages| > 0 && WellShaped(messages)
    ensures WellShaped(OnFinishMessagePart(reason, messages))
  {
    var r := OnFinishMessagePart(reason, messages);
    forall i | 0 <= i < |r| && r[i].role == Assistant
      ensures ModifiedAssistantContent(r[i].content)
    {
      if i < |r| - 1 {
        assert r[i] == r[..|messages| - 1][i] == messages[i];
      } else {
        assert messages[i].role == Assistant;
      }
    }
  }

  /** The outbound converter casts an assistant message's parts without a
      check, so an image part reaches an assistant message, outside the
      transcript's shape. */
  lemma AssistantImageBreaksShape(image: string)
    ensures var r := SendMessageAppend([], UiMessage(UiAssistant, [UiImage(image)]));
            r.Ok? && !WellShaped(r.value)
  {
    var r := SendMessageAppend([], UiMessage(UiAssistant, [UiImage(image)])).value;
    assert r[0].content.parts[0] == Image(image);
  }

  /** Any other outbound message keeps the transcript well shaped. */
  lemma {:induction false} SendKeepsShape(prev: seq<Message>, message: UiMessage)
    requires WellShaped(prev) && SendMessageAppend(prev, message).Ok?
    requires message.role == UiAssistant ==> forall j :: 0 <= j < |message.content| ==> !message.content[j].UiImage?
    ensures WellShaped(SendMessageAppend(prev, message).value)
  {
    var r := SendMessageAppend(prev, message).value;
    var m := Last(r);
    forall i | 0 <= i < |r| && r[i].role == Assistant
      ensures ModifiedAssistantContent(r[i].content)
    {
      if i < |prev| {
        assert r[i] == r[..|prev|][i] == prev[i];
      } else if m.content.Parts? {
        assert message.role == UiAssistant;
        forall j | 0 <= j < |m.content.parts|
          ensures m.content.parts[j].ToolCall? || m.content.parts[j].Text? || m.content.parts[j].Reasoning? || m.content.parts[j].File?
        {
          assert Converters.MapsTo(message.content[j], m.content.parts[j]);
        }
      }
    }
  }
}
