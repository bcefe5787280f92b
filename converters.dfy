/** Converters between the chat UI's messages and the service's core messages:
    outbound (an "append" message from the UI becomes a core message) and
    inbound (a core message becomes a UI "thread message"). `JSON.stringify`
    is the parameter `stringify`. */
module Converters {
  import opened ChatTypes
  import StreamProcessors

  // ---------------------------------------------------------------------
  // Outbound

  /** `p` is the core part carrying the type and the fields of UI part `u`. */
  predicate MapsTo(u: UiPart, p: Part) {
    match u
    case UiText(t) => p == Text(t)
    case UiImage(i) => p == Image(i)
    case UiFile(m, d) => p == File(m, d)
    case UiReasoning(t) => p == Reasoning(t)
    case UiToolCall(id, name, args, _, _, _) => p == ToolCall(id, name, args, None)
    case UiOther(_) => false
  }

  predicate Supported(u: UiPart) {
    !u.UiOther?
  }

  /** Maps UI parts 1:1 onto core parts; the first part of an unsupported type throws. */
  function AppendMessagePartsToCoreMessageParts(parts: seq<UiPart>): (r: Result<seq<Part>, ConvertError>)
    ensures r.Ok? <==> forall i :: 0 <= i < |parts| ==> Supported(parts[i])
    ensures r.Ok? ==> |r.value| == |parts| && forall i :: 0 <= i < |parts| ==> MapsTo(parts[i], r.value[i])
    ensures r.Err? ==> exists i :: 0 <= i < |parts| && !Supported(parts[i])
                                   && (forall j :: 0 <= j < i ==> Supported(parts[j]))
                                   && r.error == UnsupportedPartType(parts[i].kind)
  {
    if parts == [] then Ok([])
    else
      var head: Result<Part, ConvertError> :=
        match parts[0]
        case UiText(t) => Ok(Text(t))
        case UiImage(i) => Ok(Image(i))
        case UiFile(m, d) => Ok(File(m, d))
        case UiReasoning(t) => Ok(Reasoning(t))
        case UiToolCall(id, name, args, _, _, _) => Ok(ToolCall(id, name, args, None))
        case UiOther(kind) => Err(UnsupportedPartType(kind));
      if head.Err? then Err(head.error)
      else
        var rest := AppendMessagePartsToCoreMessageParts(parts[1..]);
        if rest.Err? then
          ghost var i :| 0 <= i < |parts[1..]| && !Supported(parts[1..][i])
                        && (forall j :: 0 <= j < i ==> Supported(parts[1..][j]))
                        && rest.error == UnsupportedPartType(parts[1..][i].kind);
          assert !Supported(parts[i + 1]) && forall j :: 0 <= j < i + 1 ==> Supported(parts[j]);
          Err(rest.error)
        else
          Ok([head.value] + rest.value)
  }

  /** `xs.join("\n")`. */
  function JoinLines(xs: seq<string>): string {
    if xs == [] then ""
    else if |xs| == 1 then xs[0]
    else xs[0] + "\n" + JoinLines(xs[1..])
  }

  /** The texts of the text parts, in order (non-text parts are ignored). */
  function TextsOf(parts: seq<UiPart>): seq<string> {
    if parts == [] then []
    else (if parts[0].UiText? then [parts[0].text] else []) + TextsOf(parts[1..])
  }

  /** Converts a UI append message to a core message. */
  function AppendMessageToCoreMessage(m: UiMessage): (r: Result<Message, ConvertError>)
    ensures r.Ok? <==> m.role == UiSystem || forall i :: 0 <= i < |m.content| ==> Supported(m.content[i])
    ensures r.Ok? ==> r.value.status == None
    ensures m.role == UiSystem ==> r.value.role == System && r.value.content.Str?
    ensures m.role == UiSystem ==> r.value.content == Str(JoinLines(TextsOf(m.content)))
    ensures m.role == UiSystem && TextsOf(m.content) == [] ==> r.value.content == Str("")
    ensures m.role == UiSystem && TextsOf(m.content) != [] && NoNewlines(TextsOf(m.content)) ==>
              SplitLines(r.value.content.s) == TextsOf(m.content)
    ensures m.role != UiSystem && r.Ok? ==>
              && r.value.role == (if m.role == UiUser then User else Assistant)
              && r.value.content.Parts?
              && |r.value.content.parts| == |m.content|
              && forall i :: 0 <= i < |m.content| ==> MapsTo(m.content[i], r.value.content.parts[i])
  {
    match m.role
    case UiSystem =>
      var texts := TextsOf(m.content);
      SplitJoinWhenNewlineFree(texts);
      Ok(Message(System, Str(JoinLines(texts)), None))
    case UiUser =>
      var parts := AppendMessagePartsToCoreMessageParts(m.content);
      if parts.Err? then Err(parts.error) else Ok(Message(User, Parts(parts.value), None))
    case UiAssistant =>
      var parts := AppendMessagePartsToCoreMessageParts(m.content);
      if parts.Err? then Err(parts.error) else Ok(Message(Assistant, Parts(parts.value), None))
  }

  /** A system message that carries an unsupported part still converts: only text parts are read. */
  lemma SystemIgnoresUnsupportedParts(m: UiMessage, kind: string)
    requires m.role == UiSystem
    ensures AppendMessageToCoreMessage(UiMessage(UiSystem, m.content + [UiOther(kind)])).Ok?
  {
  }

  // ---------------------------------------------------------------------
  // Splitting a joined string again (the inverse of JoinLines).

  predicate NoNewlines(xs: seq<string>) {
    forall i :: 0 <= i < |xs| ==> '\n' !in xs[i]
  }

  /** The index of the first newline of `s`, or |s|. */
  function FirstNewline(s: string): (k: nat)
    ensures k <= |s|
    ensures k < |s| ==> s[k] == '\n'
    ensures forall j :: 0 <= j < k ==> s[j] != '\n'
  {
    if s == [] then 0 else if s[0] == '\n' then 0 else 1 + FirstNewline(s[1..])
  }

  /** Splits a string at every newline. */
  function SplitLines(s: string): (r: seq<string>)
    decreases |s|
  {
    var k := FirstNewline(s);
    if k == |s| then [s] else [s[..k]] + SplitLines(s[k + 1..])
  }

  lemma SplitJoinWhenNewlineFree(xs: seq<string>)
    ensures xs != [] && NoNewlines(xs) ==> SplitLines(JoinLines(xs)) == xs
  {
    if xs != [] && NoNewlines(xs) {
      SplitJoin(xs);
    }
  }

  lemma {:induction false} FirstNewlineAfterLine(x: string, rest: string)
    requires '\n' !in x
    ensures FirstNewline(x + "\n" + rest) == |x|
  {
    var s := x + "\n" + rest;
    forall j | 0 <= j < |x| ensures s[j] != '\n' {
      assert s[j] == x[j] && x[j] in x;
    }
    assert s[|x|] == '\n';
  }

  lemma {:induction false} FirstNewlineOfLine(x: string)
    requires '\n' !in x
    ensures FirstNewline(x) == |x|
  {
    forall j | 0 <= j < |x| ensures x[j] != '\n' {
      assert x[j] in x;
    }
  }

  /** Splitting a join of newline-free strings gives the strings back. */
  lemma {:induction false} SplitJoin(xs: seq<string>)
    requires xs != [] && NoNewlines(xs)
    ensures SplitLines(JoinLines(xs)) == xs
    decreases |xs|
  {
    if |xs| == 1 {
      FirstNewlineOfLine(xs[0]);
    } else {
      assert '\n' !in xs[0];
      var s := xs[0] + "\n" + JoinLines(xs[1..]);
      FirstNewlineAfterLine(xs[0], JoinLines(xs[1..]));
      assert s[..|xs[0]|] == xs[0];
      assert s[|xs[0]| + 1..] == JoinLines(xs[1..]);
      assert NoNewlines(xs[1..]) by {
        forall i | 0 <= i < |xs[1..]| ensures '\n' !in xs[1..][i] {
          assert xs[1..][i] == xs[i + 1];
        }
      }
      SplitJoin(xs[1..]);
      assert JoinLines(xs) == s;
      assert SplitLines(s) == [xs[0]] + SplitLines(JoinLines(xs[1..]));
      assert xs == [xs[0]] + xs[1..];
    }
  }

  // ---------------------------------------------------------------------
  // Inbound

  /** The accumulated state of the inbound fold: the converted parts and the
      args of the tool calls seen so far. */
  datatype Inbound = Inbound(parts: seq<UiPart>, argsMap: map<string, Json>)

  predicate Typed(ps: seq<Part>) {
    forall i :: 0 <= i < |ps| ==> !ps[i].Unknown?
  }

  /** Converts one core part, given the args of the tool calls seen before it. */
  function InboundPart(p: Part, argsMap: map<string, Json>, stringify: Json -> string): UiPart
    requires !p.Unknown?
  {
    match p
    case Reasoning(t) => UiReasoning(t)
    case Image(i) => UiImage(i)
    case Text(t) => UiText(t)
    case File(m, d) => UiFile(m, d)
    case RedactedReasoning(d) => UiReasoning(d)
    case ToolCall(id, name, args, _) => UiToolCall(id, name, args, Some(stringify(args)), None, None)
    case ToolResult(id, name, res, isError) =>
      var args := OrEmptyObject(if id in argsMap then Some(argsMap[id]) else None);
      UiToolCall(id, name, args, Some(stringify(args)), Some(res), isError)
  }

  /** The inbound conversion of a part list: a left fold that converts each
      part and records the args of each tool call in a map. */
  function InboundFold(ps: seq<Part>, stringify: Json -> string): (r: Inbound)
    requires Typed(ps)
    ensures |r.parts| == |ps|
    decreases |ps|
  {
    if ps == [] then Inbound([], map[])
    else
      var before := InboundFold(ps[..|ps| - 1], stringify);
      var p := Last(ps);
      Inbound(before.parts + [InboundPart(p, before.argsMap, stringify)],
              if p.ToolCall? then before.argsMap[p.toolCallId := p.args] else before.argsMap)
  }

  function CoreMessagePartsToThreadMessageLikeParts(c: Content, stringify: Json -> string): seq<UiPart>
    requires c.Parts? ==> Typed(c.parts)
  {
    match c
    case Str(s) => [UiText(s)]
    case Parts(ps) => InboundFold(ps, stringify).parts
  }

  function CoreMessageToThreadMessageLike(m: Message, stringify: Json -> string): (r: UiMessage)
    requires m.content.Parts? ==> Typed(m.content.parts)
    ensures r.role == match m.role
                      case System => UiSystem
                      case User => UiUser
                      case Assistant => UiAssistant
                      case Tool => UiAssistant
    ensures m.content.Str? ==> r.content == [UiText(m.content.s)]
    ensures m.content.Parts? ==> |r.content| == |m.content.parts|
  {
    var content := CoreMessagePartsToThreadMessageLikeParts(m.content, stringify);
    match m.role
    case System => UiMessage(UiSystem, content)
    case User => UiMessage(UiUser, content)
    case Tool => UiMessage(UiAssistant, content)
    case Assistant => UiMessage(UiAssistant, content)
  }

  /** The args of the last tool call with the given id, if any. */
  function LastArgs(ps: seq<Part>, id: string): Option<Json> {
    if ps == [] then None
    else if IsToolCallWithId(Last(ps), id) then Some(Last(ps).args)
    else LastArgs(ps[..|ps| - 1], id)
  }

  lemma {:induction false} InboundFoldPrefix(ps: seq<Part>, k: nat, stringify: Json -> string)
    requires Typed(ps) && k <= |ps|
    ensures Typed(ps[..k]) && InboundFold(ps[..k], stringify).parts == InboundFold(ps, stringify).parts[..k]
    decreases |ps|
  {
    if k < |ps| {
      var init := ps[..|ps| - 1];
      assert init[..k] == ps[..k];
      InboundFoldPrefix(init, k, stringify);
    } else {
      assert ps[..k] == ps;
    }
  }

  /** The map holds exactly the ids of the tool calls seen, each with the args of the last one. */
  lemma {:induction false} ArgsMapHoldsLastArgs(ps: seq<Part>, id: string, stringify: Json -> string)
    requires Typed(ps)
    ensures var m := InboundFold(ps, stringify).argsMap;
            && (id in m <==> LastArgs(ps, id).Some?)
            && (id in m ==> m[id] == LastArgs(ps, id).value)
    decreases |ps|
  {
    if ps != [] {
      ArgsMapHoldsLastArgs(ps[..|ps| - 1], id, stringify);
    }
  }

  /** Inbound conversion keeps the number and order of the parts: the part at
      position i is the conversion of input part i, with the args of the tool
      calls before it. */
  lemma {:induction false} InboundConvertsEachPart(ps: seq<Part>, i: nat, stringify: Json -> string)
    requires Typed(ps) && i < |ps|
    ensures Typed(ps[..i])
    ensures InboundFold(ps, stringify).parts[i] == InboundPart(ps[i], InboundFold(ps[..i], stringify).argsMap, stringify)
  {
    InboundFoldPrefix(ps, i + 1, stringify);
    assert ps[..i + 1][..i] == ps[..i];
  }

  /** An inbound tool result becomes a tool call carrying the result; its args
      are those of the last earlier tool call with the same id, or {} when
      there is none or its args were null. */
  lemma InboundToolResultTakesEarlierArgs(ps: seq<Part>, i: nat, stringify: Json -> string)
    requires Typed(ps) && i < |ps| && ps[i].ToolResult?
    ensures var args := OrEmptyObject(LastArgs(ps[..i], ps[i].toolCallId));
            InboundFold(ps, stringify).parts[i]
              == UiToolCall(ps[i].toolCallId, ps[i].toolName, args, Some(stringify(args)), Some(ps[i].resultValue), ps[i].isError)
  {
    InboundConvertsEachPart(ps, i, stringify);
    ArgsMapHoldsLastArgs(ps[..i], ps[i].toolCallId, stringify);
  }

  /** A tool result whose call had null args is shown with `{}`, and with
      the argsText of `{}`: `?? {}` replaces the stored null. */
  lemma NullArgsShownAsEmptyObject(id: string, name: string, res: Json, stringify: Json -> string)
    ensures InboundFold([ToolCall(id, name, JNull, None), ToolResult(id, name, res, None)], stringify).parts
            == [UiToolCall(id, name, JNull, Some(stringify(JNull)), None, None),
                UiToolCall(id, name, EmptyObject, Some(stringify(EmptyObject)), Some(res), None)]
  {
  }

  /** Redacted reasoning is shown as reasoning whose text is the redacted data. */
  lemma InboundRedactedReasoning(ps: seq<Part>, i: nat, stringify: Json -> string)
    requires Typed(ps) && i < |ps| && ps[i].RedactedReasoning?
    ensures InboundFold(ps, stringify).parts[i] == UiReasoning(ps[i].data)
  {
    InboundConvertsEachPart(ps, i, stringify);
    var m := InboundFold(ps[..i], stringify).argsMap;
    assert InboundPart(ps[i], m, stringify) == UiReasoning(ps[i].data);
  }

  // ---------------------------------------------------------------------
  // Round trip

  /** What outbound-then-inbound makes of a supported UI part: tool calls get
      their args serialised and lose any result. */
  function Normalized(u: UiPart, stringify: Json -> string): UiPart {
    if u.UiToolCall? then u.(argsText := Some(stringify(u.args)), result := None, isError := None) else u
  }

  /** A core part produced from a supported UI part comes back normalised. */
  lemma RoundTripPart(u: UiPart, ps: seq<Part>, i: nat, stringify: Json -> string)
    requires Typed(ps) && i < |ps| && MapsTo(u, ps[i])
    ensures InboundFold(ps, stringify).parts[i] == Normalized(u, stringify)
  {
    InboundConvertsEachPart(ps, i, stringify);
  }

  /** A user or assistant message survives outbound then inbound conversion,
      up to the normalisation of its tool calls. */
  lemma {:induction false} RoundTrip(m: UiMessage, stringify: Json -> string)
    requires m.role != UiSystem
    requires forall i :: 0 <= i < |m.content| ==> Supported(m.content[i])
    ensures var r := AppendMessageToCoreMessage(m);
            && r.Ok?
            && r.value.content.Parts? && Typed(r.value.content.parts)
            && CoreMessageToThreadMessageLike(r.value, stringify)
               == UiMessage(m.role, seq(|m.content|, i requires 0 <= i < |m.content| => Normalized(m.content[i], stringify)))
  {
    var r := AppendMessageToCoreMessage(m);
    var ps := r.value.content.parts;
    assert |ps| == |m.content|;
    assert forall i :: 0 <= i < |ps| ==> MapsTo(m.content[i], ps[i]);
    assert Typed(ps);
    var out := CoreMessageToThreadMessageLike(r.value, stringify).content;
    assert out == InboundFold(ps, stringify).parts;
    var want := seq(|m.content|, i requires 0 <= i < |m.content| => Normalized(m.content[i], stringify));
    forall i | 0 <= i < |m.content| ensures out[i] == want[i] {
      RoundTripPart(m.content[i], ps, i, stringify);
    }
    assert out == want;
  }

  /** A user message with a single text part survives the round trip unchanged. */
  lemma SingleTextRoundTrip(t: string, stringify: Json -> string)
    ensures var r := AppendMessageToCoreMessage(UiMessage(UiUser, [UiText(t)]));
            r.Ok? && r.value.content.Parts? && Typed(r.value.content.parts)
            && CoreMessageToThreadMessageLike(r.value, stringify) == UiMessage(UiUser, [UiText(t)])
  {
    RoundTrip(UiMessage(UiUser, [UiText(t)]), stringify);
  }

  // ---------------------------------------------------------------------
  // A result attached by the stream is not shown.

  /** As written: a tool call that carries a result is shown without it. */
  lemma {:induction false} InboundDropsAttachedResult(ps: seq<Part>, i: nat, stringify: Json -> string)
    requires Typed(ps) && i < |ps| && ps[i].ToolCall? && ps[i].result.Some?
    ensures InboundFold(ps, stringify).parts[i].UiToolCall?
    ensures InboundFold(ps, stringify).parts[i].result == None
  {
    InboundConvertsEachPart(ps, i, stringify);
  }

  /** The conversion with results: every tool call's attached result is shown. */
  function CoreMessageToThreadMessageLikeWithResults(m: Message, stringify: Json -> string): (r: UiMessage)
    requires m.content.Parts? ==> Typed(m.content.parts)
    ensures r.role == CoreMessageToThreadMessageLike(m, stringify).role
    ensures |r.content| == |CoreMessageToThreadMessageLike(m, stringify).content|
  {
    var shown := CoreMessageToThreadMessageLike(m, stringify);
    if m.content.Str? then shown
    else
      var ps := m.content.parts;
      shown.(content := seq(|ps|, i requires 0 <= i < |ps| =>
        if ps[i].ToolCall? && shown.content[i].UiToolCall? then shown.content[i].(result := ps[i].result) else shown.content[i]))
  }

  /** With results carried, a result delivered by the stream reaches the UI:
      after a tool call and its result, the shown tool call carries the result. */
  lemma {:induction false} StreamedResultIsShown(call: StreamProcessors.ToolCallEvent, result: Json,
                                                 messages: seq<Message>, stringify: Json -> string)
    requires EndsWithAssistant(messages) && Last(messages).content.Parts? && Typed(Last(messages).content.parts)
    requires call.toolCallId !in ToolCallIds(Last(messages).content.parts)
    ensures var r := StreamProcessors.HandleOnToolResultPart(StreamProcessors.ToolResultEvent(call.toolCallId, result),
                                                            StreamProcessors.HandleOnToolCallPart(call, messages));
            var n := |Last(messages).content.parts|;
            && Last(r).content.Parts? && Typed(Last(r).content.parts)
            && |CoreMessageToThreadMessageLikeWithResults(Last(r), stringify).content| == n + 1
            && CoreMessageToThreadMessageLikeWithResults(Last(r), stringify).content[n]
               == UiToolCall(call.toolCallId, call.toolName, call.args, Some(stringify(call.args)), Some(result), None)
  {
    var ps := Last(messages).content.parts;
    var n := |ps|;
    StreamProcessors.ToolCallThenResult(call, result, messages);
    var r := StreamProcessors.HandleOnToolResultPart(StreamProcessors.ToolResultEvent(call.toolCallId, result),
                                                    StreamProcessors.HandleOnToolCallPart(call, messages));
    var qs := Last(r).content.parts;
    assert qs == ps + [ToolCall(call.toolCallId, call.toolName, call.args, Some(result))];
    assert Typed(qs);
    InboundConvertsEachPart(qs, n, stringify);
  }
}
