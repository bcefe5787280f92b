/** The legacy inbound converter: stored core messages become UI thread
    messages. The args of every tool call go into one map that lives as long
    as the converter, across parts, messages and calls; a later tool result
    takes its args from there. `JSON.stringify` is the parameter `stringify`. */
module LegacyConverter {
  import opened ChatTypes
  import Converters

  /** A stored part as the service hands it over: text, data and mimeType
      may be missing. `SOther` is a part of any other type. */
  datatype StoredPart =
    | SText(text: Option<string>)
    | SImage(image: Option<string>)
    | SReasoning(text: Option<string>)
    | SRedactedReasoning(data: Option<string>)
    | SFile(mimeType: Option<string>, data: Option<string>)
    | SToolCall(toolCallId: string, toolName: string, args: Json)
    | SToolResult(toolCallId: string, toolName: string, result: Json)
    | SOther(kind: string)

  datatype StoredContent = SStr(s: string) | SParts(parts: seq<StoredPart>)

  /** The roles a stored message may carry; `ROther` is any other role. */
  datatype StoredRole = RSystem | RUser | RAssistant | RTool | ROther(name: string)

  datatype StoredMessage = StoredMessage(role: StoredRole, content: StoredContent)

  /** The text of the thrown error: the message object is interpolated into
      a template string, which renders any object the same way. */
  const UnknownRoleText: string := "[object Object]"

  /** Converts one stored part, given the args recorded so far; parts of
      other types are dropped. */
  function ConvertPart(p: StoredPart, argsMap: map<string, Json>, stringify: Json -> string): Option<UiPart> {
    match p
    case SText(t) => Some(UiText(t.GetOr("")))
    case SImage(i) => Some(UiImage(i.GetOr("")))
    case SReasoning(t) => Some(UiReasoning(t.GetOr("")))
    case SRedactedReasoning(d) => Some(UiReasoning(d.GetOr("")))
    case SFile(m, d) => Some(UiFile(m.GetOr(""), d.GetOr("")))
    case SToolCall(id, name, args) => Some(UiToolCall(id, name, args, Some(stringify(args)), None, None))
    case SToolResult(id, name, res) =>
      if id in argsMap then Some(UiToolCall(id, name, OrEmptyObject(Some(argsMap[id])), Some(stringify(argsMap[id])), Some(res), None))
      else Some(UiToolCall(id, name, EmptyObject, None, Some(res), None))
    case SOther(_) => None
  }

  /** The converted parts and the args map after a run of parts. */
  datatype Converted = Converted(parts: seq<UiPart>, argsMap: map<string, Json>)

  /** The conversion of a part list from a given map: a left fold that
      converts each part and records the args of each tool call. */
  function PartsFold(ps: seq<StoredPart>, m: map<string, Json>, stringify: Json -> string): Converted
    decreases |ps|
  {
    if ps == [] then Converted([], m)
    else
      var before := PartsFold(ps[..|ps| - 1], m, stringify);
      var p := Last(ps);
      var c := ConvertPart(p, before.argsMap, stringify);
      Converted(before.parts + (if c.Some? then [c.value] else []),
                if p.SToolCall? then before.argsMap[p.toolCallId := p.args] else before.argsMap)
  }

  // ---------------------------------------------------------------------
  // The converter object: the map outlives every call.

  class MastraMessageConverter {
    /** The args of the tool calls converted so far, by tool-call id. */
    var previousToolCallId: map<string, Json>

    /** The map starts empty when the module loads. */
    constructor()
      ensures previousToolCallId == map[]
    {
      previousToolCallId := map[];
    }

    /** Converts message content to UI parts, recording tool-call args. */
    method ContentToParts(content: StoredContent, stringify: Json -> string) returns (parts: seq<UiPart>)
      modifies this
      ensures content.SStr? ==> parts == [UiText(content.s)] && previousToolCallId == old(previousToolCallId)
      ensures content.SParts? ==>
        && parts == PartsFold(content.parts, old(previousToolCallId), stringify).parts
        && previousToolCallId == PartsFold(content.parts, old(previousToolCallId), stringify).argsMap
    {
      if content.SStr? {
        return [UiText(content.s)];
      }
      var ps := content.parts;
      parts := [];
      for i := 0 to |ps|
        invariant Converted(parts, previousToolCallId) == PartsFold(ps[..i], old(previousToolCallId), stringify)
      {
        assert ps[..i + 1][..i] == ps[..i];
        var c := ConvertPart(ps[i], previousToolCallId, stringify);
        if ps[i].SToolCall? {
          previousToolCallId := previousToolCallId[ps[i].toolCallId := ps[i].args];
        }
        if c.Some? {
          parts := parts + [c.value];
        }
      }
      assert ps[..|ps|] == ps;
    }

    /** Converts one stored message; an unknown role throws. */
    method ConvertMastraMessages(message: StoredMessage, stringify: Json -> string) returns (r: Result<UiMessage, ConvertError>)
      modifies this
      ensures r.Err? <==> message.role.ROther?
      ensures r.Err? ==> r.error == UnknownMessageRole(UnknownRoleText)
      ensures message.role.RSystem? || message.role.ROther? ==> previousToolCallId == old(previousToolCallId)
      ensures message.role.RSystem? ==>
        r.value == UiMessage(UiSystem, [UiText(if message.content.SStr? then message.content.s else "")])
      ensures !message.role.RSystem? && !message.role.ROther? ==>
        && r.value.role == (if message.role.RUser? then UiUser else UiAssistant)
        && (message.content.SStr? ==> r.value.content == [UiText(message.content.s)]
                                      && previousToolCallId == old(previousToolCallId))
        && (message.content.SParts? ==>
              r.value.content == PartsFold(message.content.parts, old(previousToolCallId), stringify).parts
              && previousToolCallId == PartsFold(message.content.parts, old(previousToolCallId), stringify).argsMap)
    {
      match message.role
      case RSystem =>
        r := Ok(UiMessage(UiSystem, [UiText(if message.content.SStr? then message.content.s else "")]));
      case RUser =>
        var parts := ContentToParts(message.content, stringify);
        r := Ok(UiMessage(UiUser, parts));
      case RAssistant =>
        var parts := ContentToParts(message.content, stringify);
        r := Ok(UiMessage(UiAssistant, parts));
      case RTool =>
        var parts := ContentToParts(message.content, stringify);
        r := Ok(UiMessage(UiAssistant, parts));
      case ROther(_) =>
        r := Err(UnknownMessageRole(UnknownRoleText));
    }
  }

  // ---------------------------------------------------------------------
  // Properties of the fold.

  /** `u` is what stored part `p` is shown as, whatever args were recorded:
      the same kind, the same fields with a missing one read as "", a tool
      call without result and a tool result carrying its result. */
  predicate Shows(p: StoredPart, u: UiPart, stringify: Json -> string) {
    match p
    case SText(t) => u == UiText(t.GetOr(""))
    case SImage(i) => u == UiImage(i.GetOr(""))
    case SReasoning(t) => u == UiReasoning(t.GetOr(""))
    case SRedactedReasoning(d) => u == UiReasoning(d.GetOr(""))
    case SFile(m, d) => u == UiFile(m.GetOr(""), d.GetOr(""))
    case SToolCall(id, name, args) => u == UiToolCall(id, name, args, Some(stringify(args)), None, None)
    case SToolResult(id, name, res) =>
      u.UiToolCall? && u.toolCallId == id && u.toolName == name && u.args != JNull && u.result == Some(res) && u.isError.None?
    case SOther(_) => false
  }

  /** The parts of a known type, in order. */
  function Known(ps: seq<StoredPart>): (k: seq<StoredPart>)
    ensures |k| <= |ps|
    ensures (forall i :: 0 <= i < |ps| ==> !ps[i].SOther?) ==> k == ps
  {
    if ps == [] then []
    else Known(ps[..|ps| - 1]) + (if Last(ps).SOther? then [] else [Last(ps)])
  }

  /** Parts of other types are dropped and the rest keep their order: the
      output is the known parts, each shown as `Shows` says, so it is never
      longer than the input. */
  lemma {:induction false} PartsFoldShowsKnownParts(ps: seq<StoredPart>, m: map<string, Json>, stringify: Json -> string)
    ensures var r := PartsFold(ps, m, stringify).parts;
            && |r| == |Known(ps)| <= |ps|
            && forall j :: 0 <= j < |r| ==> Shows(Known(ps)[j], r[j], stringify)
    decreases |ps|
  {
    if ps != [] {
      var init := ps[..|ps| - 1];
      PartsFoldShowsKnownParts(init, m, stringify);
      var before := PartsFold(init, m, stringify);
      var c := ConvertPart(Last(ps), before.argsMap, stringify);
      assert c.Some? <==> !Last(ps).SOther?;
      assert c.Some? ==> Shows(Last(ps), c.value, stringify);
    }
  }

  /** The args of the last tool call with the given id, if any. */
  function LastCallArgs(ps: seq<StoredPart>, id: string): Option<Json> {
    if ps == [] then None
    else if Last(ps).SToolCall? && Last(ps).toolCallId == id then Some(Last(ps).args)
    else LastCallArgs(ps[..|ps| - 1], id)
  }

  /** After a run of parts the map holds, for each id, the args of the last
      tool call with it in the run, and otherwise what it held before. */
  lemma {:induction false} PartsFoldRecordsLastArgs(ps: seq<StoredPart>, m: map<string, Json>, stringify: Json -> string, id: string)
    ensures var after := PartsFold(ps, m, stringify).argsMap;
            && (id in after <==> id in m || LastCallArgs(ps, id).Some?)
            && (LastCallArgs(ps, id).Some? ==> after[id] == LastCallArgs(ps, id).value)
            && (LastCallArgs(ps, id).None? && id in m ==> after[id] == m[id])
    decreases |ps|
  {
    if ps != [] {
      PartsFoldRecordsLastArgs(ps[..|ps| - 1], m, stringify, id);
    }
  }

  /** A tool result is shown as a tool call carrying the result, with the
      args recorded for its id (from this run or from any earlier
      conversion), `{}` in place of recorded null args (the argsText is
      still that of the recorded value), or `{}` and no argsText when the
      id was never seen. */
  lemma ToolResultTakesRecordedArgs(ps: seq<StoredPart>, m: map<string, Json>, stringify: Json -> string,
                                    id: string, name: string, res: Json)
    ensures var before := PartsFold(ps, m, stringify).argsMap;
            var shown := if id in before then UiToolCall(id, name, OrEmptyObject(Some(before[id])), Some(stringify(before[id])), Some(res), None)
                         else UiToolCall(id, name, EmptyObject, None, Some(res), None);
            PartsFold(ps + [SToolResult(id, name, res)], m, stringify).parts == PartsFold(ps, m, stringify).parts + [shown]
  {
    assert (ps + [SToolResult(id, name, res)])[..|ps|] == ps;
  }

  /** A tool result whose call had null args is shown with `{}`, while its
      argsText is that of the recorded null. */
  lemma NullArgsShownAsEmptyObject(id: string, name: string, res: Json, stringify: Json -> string)
    ensures PartsFold([SToolCall(id, name, JNull), SToolResult(id, name, res)], map[], stringify).parts
            == [UiToolCall(id, name, JNull, Some(stringify(JNull)), None, None),
                UiToolCall(id, name, EmptyObject, Some(stringify(JNull)), Some(res), None)]
  {
    var ps := [SToolCall(id, name, JNull), SToolResult(id, name, res)];
    assert ps[..1] == [SToolCall(id, name, JNull)] && ps[..1][..0] == [];
    var one := [SToolCall(id, name, JNull)];
    assert one[..|one| - 1] == [] && Last(one) == SToolCall(id, name, JNull);
    assert PartsFold([], map[], stringify) == Converted([], map[]);
    assert PartsFold(one, map[], stringify)
           == Converted([UiToolCall(id, name, JNull, Some(stringify(JNull)), None, None)], map[id := JNull]);
  }

  /** The map outlives a message: a tool result converted after a message
      holding its call takes that call's args, where the frontend converter,
      whose map lives for one message, shows `{}`. */
  lemma {:induction false} ArgsPersistAcrossMessages(ps: seq<StoredPart>, m: map<string, Json>, stringify: Json -> string,
                                                     id: string, name: string, res: Json)
    requires LastCallArgs(ps, id).Some?
    ensures var a := LastCallArgs(ps, id).value;
            PartsFold([SToolResult(id, name, res)], PartsFold(ps, m, stringify).argsMap, stringify).parts
            == [UiToolCall(id, name, OrEmptyObject(Some(a)), Some(stringify(a)), Some(res), None)]
    ensures Converters.InboundFold([ToolResult(id, name, res, None)], stringify).parts
            == [UiToolCall(id, name, EmptyObject, Some(stringify(EmptyObject)), Some(res), None)]
  {
    PartsFoldRecordsLastArgs(ps, m, stringify, id);
    ToolResultTakesRecordedArgs([], PartsFold(ps, m, stringify).argsMap, stringify, id, name, res);
    assert [ToolResult(id, name, res, None)][..0] == [];
  }
}
