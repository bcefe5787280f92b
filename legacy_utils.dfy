/** The older client's text updater: folds a text delta into message content. */
module LegacyUtils {
  import opened ChatTypes
  import StreamProcessors

  /** Folds `newText` into `parts`. The source reads the last element of a
      part list without a guard, so an empty part list is excluded. */
  function UpdateTextParts(parts: Content, newText: string): (r: Content)
    requires parts.Parts? ==> |parts.parts| > 0
    ensures parts.Str? <==> r.Str?
    ensures parts.Str? ==> r.s == parts.s + newText
    ensures parts.Parts? ==>
      var ps := parts.parts;
      && |r.parts| == (if Last(ps).Text? then |ps| else |ps| + 1)
      && r.parts[..|ps| - 1] == ps[..|ps| - 1]
      && (Last(ps).Text? ==> Last(r.parts) == Text(Last(ps).text + newText))
      && (!Last(ps).Text? ==> r.parts == ps + [Text(newText)])
  {
    match parts
    case Str(s) => Str(s + newText)
    case Parts(ps) =>
      if Last(ps).Text? then
        var updated := ps[..|ps| - 1] + [Text(Last(ps).text + newText)];
        assert updated[..|ps| - 1] == ps[..|ps| - 1];
        Parts(updated)
      else
        assert (ps + [Text(newText)])[..|ps| - 1] == ps[..|ps| - 1];
        Parts(ps + [Text(newText)])
  }

  /** Whatever the branch, the text a reader sees grows by exactly `newText`
      and the tool calls are those of the input. */
  lemma {:induction false} UpdateTextPartsAppendsText(parts: Content, newText: string)
    requires parts.Parts? ==> |parts.parts| > 0
    ensures TextOf(UpdateTextParts(parts, newText)) == TextOf(parts) + newText
    ensures parts.Parts? ==> ToolCallIds(UpdateTextParts(parts, newText).parts) == ToolCallIds(parts.parts)
  {
    if parts.Parts? {
      var ps := parts.parts;
      var init := ps[..|ps| - 1];
      assert ps == init + [Last(ps)];
      var q := if Last(ps).Text? then Text(Last(ps).text + newText) else Last(ps);
      var tail := if Last(ps).Text? then [q] else [q, Text(newText)];
      var r := UpdateTextParts(parts, newText).parts;
      assert r == init + tail;
      TextOfPartsAppend(init, tail);
      TextOfPartsAppend(init, [Last(ps)]);
      ToolCallIdsAppend(init, tail);
      ToolCallIdsAppend(init, [Last(ps)]);
      assert [Last(ps)][..0] == [] && [q][..0] == [];
      if !Last(ps).Text? {
        assert tail[..1] == [q];
      }
    }
  }

  /** The older updater agrees with the frontend text reducer on the content
      of an open assistant message that is a string or a non-empty part list. */
  lemma AgreesWithFrontendReducer(text: string, messages: seq<Message>)
    requires EndsWithAssistant(messages)
    requires Last(messages).content.Parts? ==> |Last(messages).content.parts| > 0
    ensures Last(StreamProcessors.HandleOnTextPart(text, messages)).content
            == UpdateTextParts(Last(messages).content, text)
  {
  }
}
