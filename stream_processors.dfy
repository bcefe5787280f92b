/** The pure transcript reducers of the frontend: each takes one streamed
    event and the current transcript and returns the next transcript. */
module StreamProcessors {
  import opened ChatTypes

  /** A streamed tool-call announcement. */
  datatype ToolCallEvent = ToolCallEvent(toolCallId: string, toolName: string, args: Json)

  /** A streamed tool result (without tool name and args). */
  datatype ToolResultEvent = ToolResultEvent(toolCallId: string, result: Json)

  /** The number of parts of message content (a string counts as none). */
  function PartCount(c: Content): nat {
    if c.Str? then 0 else |c.parts|
  }

  /** Folds a text delta into the transcript. */
  function HandleOnTextPart(text: string, messages: seq<Message>): (r: seq<Message>)
    ensures EndsWithAssistant(r)
    ensures |r| == if EndsWithAssistant(messages) then |messages| else |messages| + 1
    ensures |messages| > 0 ==> r[..|messages| - 1] == messages[..|messages| - 1]
    ensures !EndsWithAssistant(messages) ==> r[..|messages|] == messages
    ensures TextOf(Last(r).content) == (if EndsWithAssistant(messages) then TextOf(Last(messages).content) else "") + text
    ensures Last(r).content.Parts? ==> |Last(r).content.parts| > 0 && Last(Last(r).content.parts).Text?
    ensures EndsWithAssistant(messages) && Last(messages).content.Str? ==> Last(r).content.Str?
    ensures (EndsWithAssistant(messages) && Last(messages).content.Parts? && |Last(messages).content.parts| > 0
             && Last(Last(messages).content.parts).Text?) ==> PartCount(Last(r).content) == PartCount(Last(messages).content)
  {
    if EndsWithAssistant(messages) then
      var last := Last(messages);
      var init := messages[..|messages| - 1];
      match last.content
      case Str(s) => init + [last.(content := Str(s + text))]
      case Parts(ps) =>
        if |ps| > 0 && Last(ps).Text? then
          var updated := ps[..|ps| - 1] + [Text(Last(ps).text + text)];
          assert updated[..|updated| - 1] == ps[..|ps| - 1];
          assert ps == ps[..|ps| - 1] + [Last(ps)];
          init + [last.(content := Parts(updated))]
        else if |ps| > 0 then
          var updated := ps + [Text(text)];
          assert updated[..|updated| - 1] == ps;
          init + [last.(content := Parts(updated))]
        else
          assert [Text(text)][..0] == [];
          init + [last.(content := Parts([Text(text)]))]
    else
      assert [Text(text)][..0] == [];
      assert TextOfParts([Text(text)]) == text;
      if |messages| > 0 then messages + [AssistantWith([Text(text)])]
      else [AssistantWith([Text(text)])]
  }

  /** Folds a tool-call announcement into the transcript. */
  function HandleOnToolCallPart(call: ToolCallEvent, messages: seq<Message>): (r: seq<Message>)
    ensures EndsWithAssistant(r) && Last(r).content.Parts?
    ensures EndsWithAssistant(messages) ==> |r| == |messages| && r[..|messages| - 1] == messages[..|messages| - 1]
    ensures !EndsWithAssistant(messages) ==> |r| == 1
    ensures var old_ := if EndsWithAssistant(messages) then Last(messages).content else Parts([]);
            && TextOf(Last(r).content) == TextOf(old_)
            && ToolCallIds(Last(r).content.parts) == ToolCallIds(if old_.Parts? then old_.parts else []) + [call.toolCallId]
  {
    var part := ToolCall(call.toolCallId, call.toolName, call.args, None);
    if EndsWithAssistant(messages) then
      var last := Last(messages);
      var init := messages[..|messages| - 1];
      match last.content
      case Str(s) =>
        assert [Text(s), part][..1] == [Text(s)];
        assert [Text(s)][..0] == [];
        assert TextOfParts([Text(s)]) == s;
        assert ToolCallIds([Text(s)]) == [];
        init + [last.(content := Parts([Text(s), part]))]
      case Parts(ps) =>
        assert (ps + [part])[..|ps|] == ps;
        init + [last.(content := Parts(ps + [part]))]
    else
      [AssistantWith([part])]
  }

  /** True when the tool result would be attached: the last message is an
      assistant message with a part list holding a tool call with that id. */
  predicate ResultApplies(result: ToolResultEvent, messages: seq<Message>) {
    && EndsWithAssistant(messages)
    && Last(messages).content.Parts?
    && FindToolCall(Last(messages).content.parts, result.toolCallId) < |Last(messages).content.parts|
  }

  /** Attaches a tool result to the matching tool call of the last message. */
  function HandleOnToolResultPart(result: ToolResultEvent, messages: seq<Message>): (r: seq<Message>)
    ensures !ResultApplies(result, messages) ==> r == messages
    ensures |r| == |messages|
    ensures |messages| > 0 ==> r[..|messages| - 1] == messages[..|messages| - 1]
    ensures ResultApplies(result, messages) ==>
      var ps := Last(messages).content.parts;
      var k := FindToolCall(ps, result.toolCallId);
      && Last(r) == Last(messages).(content := Parts(ps[k := ps[k].(result := Some(result.result))]))
      && TextOfParts(Last(r).content.parts) == TextOfParts(ps)
      && ToolCallIds(Last(r).content.parts) == ToolCallIds(ps)
  {
    if !ResultApplies(result, messages) then messages
    else
      var last := Last(messages);
      var ps := last.content.parts;
      var k := FindToolCall(ps, result.toolCallId);
      var updated := ps[k].(result := Some(result.result));
      assert ps[..k] + [updated] + ps[k + 1..] == ps[k := updated];
      assert TextOfParts([updated]) == TextOfParts([ps[k]]) by {
        assert [updated][..0] == [] && [ps[k]][..0] == [];
      }
      assert ToolCallIds([updated]) == ToolCallIds([ps[k]]) by {
        assert [updated][..0] == [] && [ps[k]][..0] == [];
      }
      ReplaceKeepsViews(ps, k, updated);
      messages[..|messages| - 1] + [last.(content := Parts(ps[..k] + [updated] + ps[k + 1..]))]
  }

  // ---------------------------------------------------------------------
  // The individual branches of the text reducer.

  /** String content: the delta is concatenated and no part list is created. */
  lemma TextOnStringContent(text: string, messages: seq<Message>)
    requires EndsWithAssistant(messages) && Last(messages).content.Str?
    ensures var r := HandleOnTextPart(text, messages);
            Last(r) == Last(messages).(content := Str(Last(messages).content.s + text))
  {
  }

  /** A trailing text part absorbs the delta; the part count is unchanged and earlier parts are untouched. */
  lemma TextCoalescesIntoLastTextPart(text: string, messages: seq<Message>)
    requires EndsWithAssistant(messages) && Last(messages).content.Parts?
    requires var ps := Last(messages).content.parts; |ps| > 0 && Last(ps).Text?
    ensures var ps := Last(messages).content.parts;
            var qs := Last(HandleOnTextPart(text, messages)).content.parts;
            && |qs| == |ps|
            && qs[..|qs| - 1] == ps[..|ps| - 1]
            && Last(qs) == Text(Last(ps).text + text)
            && Last(HandleOnTextPart(text, messages)).status == Last(messages).status
  {
  }

  /** After a non-text part a new text part is started: text never merges across it. */
  lemma TextAfterNonTextPartStartsNewPart(text: string, messages: seq<Message>)
    requires EndsWithAssistant(messages) && Last(messages).content.Parts?
    requires var ps := Last(messages).content.parts; |ps| > 0 && !Last(ps).Text?
    ensures Last(HandleOnTextPart(text, messages)).content.parts == Last(messages).content.parts + [Text(text)]
  {
  }

  /** Without a trailing assistant message a new one is appended and every prior message is kept. */
  lemma TextWithoutAssistantAppendsMessage(text: string, messages: seq<Message>)
    requires !EndsWithAssistant(messages)
    ensures HandleOnTextPart(text, messages) == messages + [AssistantWith([Text(text)])]
  {
  }

  /** A sealed (completed) assistant message is reopened: the delta is merged into it and its status is kept. */
  lemma TextReopensSealedMessage(text: string, messages: seq<Message>, reason: StatusReason)
    requires EndsWithAssistant(messages) && Last(messages).status == Some(Complete(reason))
    ensures var r := HandleOnTextPart(text, messages);
            |r| == |messages| && Last(r).status == Some(Complete(reason))
  {
  }

  // ---------------------------------------------------------------------
  // The tool-call reducer.

  /** String content is promoted to exactly [text(old string), tool-call]. */
  lemma ToolCallPromotesString(call: ToolCallEvent, messages: seq<Message>)
    requires EndsWithAssistant(messages) && Last(messages).content.Str?
    ensures Last(HandleOnToolCallPart(call, messages)).content.parts
            == [Text(Last(messages).content.s), ToolCall(call.toolCallId, call.toolName, call.args, None)]
  {
  }

  /** On a part list the call is appended at the end, even when its id is already present. */
  lemma ToolCallAppendsWithoutDedup(call: ToolCallEvent, messages: seq<Message>)
    requires EndsWithAssistant(messages) && Last(messages).content.Parts?
    ensures Last(HandleOnToolCallPart(call, messages)).content.parts
            == Last(messages).content.parts + [ToolCall(call.toolCallId, call.toolName, call.args, None)]
  {
  }

  /** Without a trailing assistant message every prior message is discarded. */
  lemma ToolCallDiscardsTranscript(call: ToolCallEvent, messages: seq<Message>)
    requires !EndsWithAssistant(messages)
    ensures HandleOnToolCallPart(call, messages) == [AssistantWith([ToolCall(call.toolCallId, call.toolName, call.args, None)])]
  {
  }

  // ---------------------------------------------------------------------
  // Properties over several events.

  /** Folds a sequence of text deltas, in arrival order. */
  function FoldTextDeltas(deltas: seq<string>, messages: seq<Message>): seq<Message>
    decreases |deltas|
  {
    if deltas == [] then messages
    else HandleOnTextPart(Last(deltas), FoldTextDeltas(deltas[..|deltas| - 1], messages))
  }

  /** A delta that arrives while the open assistant message ends in text
      extends that text in place. */
  lemma TextDeltaExtends(text: string, messages: seq<Message>)
    requires EndsWithAssistant(messages)
    requires Last(messages).content.Parts? ==> |Last(messages).content.parts| > 0 && Last(Last(messages).content.parts).Text?
    ensures var r := HandleOnTextPart(text, messages);
            && |r| == |messages|
            && r[..|r| - 1] == messages[..|messages| - 1]
            && PartCount(Last(r).content) == PartCount(Last(messages).content)
            && TextOf(Last(r).content) == TextOf(Last(messages).content) + text
  {
  }

  /** The messages a text delta keeps in front of the assistant message it writes to. */
  function KeptBefore(messages: seq<Message>): seq<Message> {
    if EndsWithAssistant(messages) then messages[..|messages| - 1] else messages
  }

  /** The text the assistant message holds before the first delta arrives. */
  function TextBefore(messages: seq<Message>): string {
    if EndsWithAssistant(messages) then TextOf(Last(messages).content) else ""
  }

  /** The number of parts of the assistant message after the first delta:
      a string stays a string, a trailing text part absorbs the delta, and
      otherwise one text part is added (or a new message holds just it). */
  function PartsAfterFirst(messages: seq<Message>): nat {
    if !EndsWithAssistant(messages) then 1
    else match Last(messages).content
      case Str(_) => 0
      case Parts(ps) => if |ps| > 0 && Last(ps).Text? then |ps| else |ps| + 1
  }

  /** What folding the non-empty `deltas` into `messages` promises of the
      result `r`: the messages before the open assistant message are kept,
      no part is created after the first delta, the text grows by the
      concatenation of the deltas, and the message ends in text. */
  predicate CoalescedInto(deltas: seq<string>, messages: seq<Message>, r: seq<Message>) {
    && EndsWithAssistant(r)
    && r[..|r| - 1] == KeptBefore(messages)
    && PartCount(Last(r).content) == PartsAfterFirst(messages)
    && TextOf(Last(r).content) == TextBefore(messages) + Concat(deltas)
    && (Last(r).content.Parts? ==> |Last(r).content.parts| > 0 && Last(Last(r).content.parts).Text?)
  }

  /** The first delta keeps the promise. */
  lemma TextDeltaFirst(d: string, messages: seq<Message>)
    ensures CoalescedInto([d], messages, HandleOnTextPart(d, messages))
  {
    assert [d][..0] == [];
    var r := HandleOnTextPart(d, messages);
    if EndsWithAssistant(messages) {
      var c := Last(messages).content;
      if c.Parts? && !(|c.parts| > 0 && Last(c.parts).Text?) {
        if |c.parts| > 0 {
          TextAfterNonTextPartStartsNewPart(d, messages);
        }
      }
    } else {
      TextWithoutAssistantAppendsMessage(d, messages);
    }
  }

  /** Consecutive text deltas coalesce into the open assistant message. */
  lemma {:induction false} TextDeltasCoalesce(deltas: seq<string>, messages: seq<Message>)
    requires |deltas| > 0
    ensures CoalescedInto(deltas, messages, FoldTextDeltas(deltas, messages))
    decreases |deltas|
  {
    var init := deltas[..|deltas| - 1];
    if init == [] {
      assert deltas == [deltas[0]];
      assert FoldTextDeltas(init, messages) == messages;
      TextDeltaFirst(deltas[0], messages);
    } else {
      TextDeltasCoalesce(init, messages);
      TextDeltaNext(deltas, FoldTextDeltas(init, messages), messages);
    }
  }

  /** The step of TextDeltasCoalesce: one more delta keeps the promise. */
  lemma TextDeltaNext(deltas: seq<string>, before: seq<Message>, messages: seq<Message>)
    requires |deltas| > 1
    requires CoalescedInto(deltas[..|deltas| - 1], messages, before)
    ensures CoalescedInto(deltas, messages, HandleOnTextPart(Last(deltas), before))
  {
    TextDeltaExtends(Last(deltas), before);
  }

  /** Folding "Hel" and "lo" into an empty transcript gives one assistant message with one text part "Hello". */
  lemma HelloCoalesces()
    ensures FoldTextDeltas(["Hel", "lo"], []) == [AssistantWith([Text("Hello")])]
  {
    assert ["Hel", "lo"][..1] == ["Hel"];
    assert ["Hel"][..0] == [];
    var one := FoldTextDeltas(["Hel"], []);
    assert one == [AssistantWith([Text("Hel")])];
    assert [Text("Hel")][..0] == [];
    assert "Hel" + "lo" == "Hello";
  }

  /** A tool call followed by its result gives one tool-call part carrying the result, at the end. */
  lemma {:induction false} ToolCallThenResult(call: ToolCallEvent, result: Json, messages: seq<Message>)
    requires EndsWithAssistant(messages) && Last(messages).content.Parts?
    requires call.toolCallId !in ToolCallIds(Last(messages).content.parts)
    ensures var r := HandleOnToolResultPart(ToolResultEvent(call.toolCallId, result), HandleOnToolCallPart(call, messages));
            && |r| == |messages|
            && Last(r).content.parts == Last(messages).content.parts + [ToolCall(call.toolCallId, call.toolName, call.args, Some(result))]
  {
    var ps := Last(messages).content.parts;
    var tc := ToolCall(call.toolCallId, call.toolName, call.args, None);
    var mid := HandleOnToolCallPart(call, messages);
    ToolCallAppendsWithoutDedup(call, messages);
    var qs := Last(mid).content.parts;
    assert qs == ps + [tc];
    NotInIdsMeansNotFound(ps, call.toolCallId);
    FindAfterAppend(ps, tc, call.toolCallId);
    assert FindToolCall(qs, call.toolCallId) == |ps|;
    assert ResultApplies(ToolResultEvent(call.toolCallId, result), mid);
    assert qs[|ps| := qs[|ps|].(result := Some(result))] == ps + [ToolCall(call.toolCallId, call.toolName, call.args, Some(result))];
  }

  lemma {:induction false} NotInIdsMeansNotFound(ps: seq<Part>, id: string)
    requires id !in ToolCallIds(ps)
    ensures FindToolCall(ps, id) == |ps|
    decreases |ps|
  {
    if ps != [] {
      var init := ps[..|ps| - 1];
      NotInIdsMeansNotFound(init, id);
      assert ps == init + [Last(ps)];
      assert !IsToolCallWithId(Last(ps), id);
      FindAfterAppend(init, Last(ps), id);
    }
  }

  lemma {:induction false} FindAfterAppend(ps: seq<Part>, q: Part, id: string)
    requires FindToolCall(ps, id) == |ps|
    ensures FindToolCall(ps + [q], id) == if IsToolCallWithId(q, id) then |ps| else |ps| + 1
    decreases |ps|
  {
    if ps != [] {
      assert (ps + [q])[1..] == ps[1..] + [q];
      FindAfterAppend(ps[1..], q, id);
    }
  }

  /** Delivering the same tool result twice has the effect of delivering it once. */
  lemma {:induction false} ToolResultIdempotent(result: ToolResultEvent, messages: seq<Message>)
    ensures var once := HandleOnToolResultPart(result, messages);
            HandleOnToolResultPart(result, once) == once
  {
    var once := HandleOnToolResultPart(result, messages);
    if ResultApplies(result, messages) {
      var ps := Last(messages).content.parts;
      var k := FindToolCall(ps, result.toolCallId);
      var qs := ps[k := ps[k].(result := Some(result.result))];
      FindAfterUpdate(ps, k, ps[k].(result := Some(result.result)), result.toolCallId);
      assert Last(once).content.parts == qs;
      assert ResultApplies(result, once);
      assert qs[k := qs[k].(result := Some(result.result))] == qs;
      assert once[..|once| - 1] + [Last(once)] == once;
    }
  }

  /** Replacing the first match by another tool call with the same id keeps it the first match. */
  lemma {:induction false} FindAfterUpdate(ps: seq<Part>, k: nat, q: Part, id: string)
    requires k == FindToolCall(ps, id) && k < |ps|
    requires IsToolCallWithId(q, id)
    ensures FindToolCall(ps[k := q], id) == k
    decreases |ps|
  {
    if k > 0 {
      assert ps[k := q][1..] == ps[1..][k - 1 := q];
      FindAfterUpdate(ps[1..], k - 1, q, id);
    }
  }
}
