/** The order-based part processor: a streaming assistant message keeps the
    raw parts it received (each stamped with an `order`) and rebuilds its
    displayed `content` from them after every new part. Parts are objects:
    the rebuilt content holds the very part objects of `parts`, so appending
    text to the last displayed part also changes the stored part. */
module MessagePartProcessor {
  import opened ChatTypes

  /** A stored content part. Its type, ids and order never change; the
      `text` of a text or reasoning part and the `data` of a redacted-reasoning
      or file part are updated in place. */
  class MessagePart {
    const id: string
    const order: nat
    const shape: Part
    var text: string
    var data: string

    constructor (id: string, order: nat, v: Part)
      ensures this.id == id && this.order == order && shape == v && Value() == v
    {
      this.id := id;
      this.order := order;
      shape := v;
      text := if v.Text? || v.Reasoning? then v.text else "";
      data := if v.RedactedReasoning? || v.File? then v.data else "";
    }

    /** The part's current value. */
    function Value(): (v: Part)
      reads this
      ensures v.Text? == shape.Text? && v.Reasoning? == shape.Reasoning?
      ensures v.RedactedReasoning? == shape.RedactedReasoning?
    {
      match shape
      case Text(_) => Text(text)
      case Reasoning(_) => Reasoning(text)
      case RedactedReasoning(_) => RedactedReasoning(data)
      case File(m, _) => File(m, data)
      case _ => shape
    }
  }

  /** An assistant (or other) message being streamed. */
  class StreamingMessage {
    const id: string
    const role: Role
    const isComplete: bool
    var content: seq<MessagePart>
    var parts: seq<MessagePart>

    /** Every stored part's order is its position (so the parts are distinct
        objects, and sorting by order leaves them as they are). */
    ghost predicate Valid()
      reads this
    {
      forall i :: 0 <= i < |parts| ==> parts[i].order == i
    }

    constructor (id: string, role: Role, isComplete: bool)
      ensures this.id == id && this.role == role && this.isComplete == isComplete
      ensures content == [] && parts == [] && Valid()
    {
      this.id := id;
      this.role := role;
      this.isComplete := isComplete;
      content := [];
      parts := [];
    }
  }

  datatype PartKind = TextKind | ImageKind | FileKind | ReasoningKind | RedactedReasoningKind | ToolCallKind | ToolResultKind | UnknownKind

  /** The part's type tag. */
  function Kind(p: Part): PartKind {
    match p
    case Text(_) => TextKind
    case Image(_) => ImageKind
    case File(_, _) => FileKind
    case Reasoning(_) => ReasoningKind
    case RedactedReasoning(_) => RedactedReasoningKind
    case ToolCall(_, _, _, _) => ToolCallKind
    case ToolResult(_, _, _, _) => ToolResultKind
    case Unknown(_) => UnknownKind
  }

  /** The current values of a list of part objects. */
  function Values(ps: seq<MessagePart>): (vs: seq<Part>)
    reads set p | p in ps
    ensures |vs| == |ps| && forall i :: 0 <= i < |ps| ==> vs[i] == ps[i].Value()
  {
    if ps == [] then [] else Values(ps[..|ps| - 1]) + [Last(ps).Value()]
  }

  /** What a content search for a tool call sees of a part: its tool-call id, if it is a tool call. */
  function PartKey(v: Part): Option<string> {
    if v.ToolCall? then Some(v.toolCallId) else None
  }

  function Keys(ps: seq<MessagePart>): (ks: seq<Option<string>>)
    ensures |ks| == |ps| && forall i :: 0 <= i < |ps| ==> ks[i] == PartKey(ps[i].shape)
  {
    if ps == [] then [] else Keys(ps[..|ps| - 1]) + [PartKey(Last(ps).shape)]
  }

  function ValueKeys(vs: seq<Part>): (ks: seq<Option<string>>)
    ensures |ks| == |vs| && forall i :: 0 <= i < |vs| ==> ks[i] == PartKey(vs[i])
  {
    if vs == [] then [] else ValueKeys(vs[..|vs| - 1]) + [PartKey(Last(vs))]
  }

  /** The position of the first tool call with the given id, or |ks|. */
  function FirstKey(ks: seq<Option<string>>, id: string): (k: nat)
    ensures k <= |ks|
    ensures k < |ks| ==> ks[k] == Some(id)
    ensures forall j :: 0 <= j < k ==> ks[j] != Some(id)
  {
    if ks == [] then 0 else if ks[0] == Some(id) then 0 else 1 + FirstKey(ks[1..], id)
  }

  // ---------------------------------------------------------------------
  // The rebuild of the content, on values.

  /** The state of a content rebuild: the positions of the stored parts that
      make up the new content, the current values of all stored parts, and
      the tool-call keys of the previous content (a matched tool result
      replaces its tool call there). */
  datatype Rebuilt = Rebuilt(heads: seq<nat>, vals: seq<Part>, prev: seq<Option<string>>)

  /** Every head is one of the first n stored parts. */
  ghost predicate HeadsBelow(st: Rebuilt, n: nat) {
    forall k :: 0 <= k < |st.heads| ==> st.heads[k] < n
  }

  /** The displayed content: the values of the head parts. */
  function Render(st: Rebuilt): (r: seq<Part>)
    requires forall k :: 0 <= k < |st.heads| ==> st.heads[k] < |st.vals|
    ensures |r| == |st.heads| && forall k :: 0 <= k < |r| ==> r[k] == st.vals[st.heads[k]]
  {
    seq(|st.heads|, k requires 0 <= k < |st.heads| => st.vals[st.heads[k]])
  }

  /** The part that results when the last shown part `a` absorbs stored part `v`. */
  function Merge(a: Part, v: Part): (merged: Part)
    requires Mergeable(a, v)
    ensures Kind(merged) == Kind(a) && Coalescable(merged)
  {
    if v.Text? then Text(a.text + v.text)
    else if v.Reasoning? then Reasoning(a.text + v.text)
    else RedactedReasoning(a.data + v.data)
  }

  /** Processes stored part i: a part of an unknown type is skipped; a tool
      result whose call is in the previous content clears that entry there;
      a text, reasoning or redacted-reasoning part following a shown part of
      its own type is merged into it; any other part is shown after the rest. */
  function Step(st: Rebuilt, i: nat): (r: Rebuilt)
    requires i < |st.vals|
    requires forall k :: 0 <= k < |st.heads| ==> st.heads[k] < |st.vals|
    ensures |r.vals| == |st.vals| && |r.prev| == |st.prev|
    ensures HeadsBelow(st, i) ==> HeadsBelow(r, i + 1)
  {
    var v := st.vals[i];
    if v.Unknown? then st
    else if v.ToolResult? && FirstKey(st.prev, v.toolCallId) < |st.prev| then
      st.(prev := st.prev[FirstKey(st.prev, v.toolCallId) := None])
    else if |st.heads| > 0 && Mergeable(st.vals[Last(st.heads)], v) then
      st.(vals := st.vals[Last(st.heads) := Merge(st.vals[Last(st.heads)], v)])
    else st.(heads := st.heads + [i])
  }

  /** Processes the stored parts from position i on. */
  function RebuildFrom(st: Rebuilt, i: nat): (r: Rebuilt)
    requires i <= |st.vals| && HeadsBelow(st, i)
    ensures |r.vals| == |st.vals| && |r.prev| == |st.prev| && HeadsBelow(r, |st.vals|)
    decreases |st.vals| - i
  {
    if i == |st.vals| then st else RebuildFrom(Step(st, i), i + 1)
  }

  /** The rebuild of all stored parts `vs` against the previous content's tool-call keys `prev`. */
  function Rebuild(vs: seq<Part>, prev: seq<Option<string>>): (st: Rebuilt)
    ensures |st.vals| == |vs| && |st.prev| == |prev| && HeadsBelow(st, |vs|)
  {
    RebuildFrom(Rebuilt([], vs, prev), 0)
  }

  // ---------------------------------------------------------------------
  // The imperative operations.

  /** The open assistant message (the last one, when it is an assistant
      message not marked complete), or a fresh empty one to go after the last. */
  method GetOrCreateAssistantMessage(messages: seq<StreamingMessage>, newId: string)
    returns (message: StreamingMessage, messageIndex: nat)
    requires |messages| > 0
    ensures var last := Last(messages);
            if last.role == Assistant && !last.isComplete then
              message == last && messageIndex == |messages| - 1
            else
              && fresh(message) && messageIndex == |messages|
              && message.id == newId && message.role == Assistant && !message.isComplete
              && message.content == [] && message.parts == [] && message.Valid()
  {
    var lastMessage := messages[|messages| - 1];
    if lastMessage.role == Assistant && !lastMessage.isComplete {
      return lastMessage, |messages| - 1;
    }
    message := new StreamingMessage(newId, Assistant, false);
    messageIndex := |messages|;
  }

  /** Stores a new part whose order is the number of parts before it. */
  method AddPartToMessage(message: StreamingMessage, v: Part, newId: string)
    requires message.Valid()
    modifies message`parts
    ensures message.Valid()
    ensures |message.parts| > 0 && message.parts == old(message.parts) + [Last(message.parts)]
    ensures fresh(Last(message.parts))
    ensures Last(message.parts).id == newId && Last(message.parts).order == |old(message.parts)|
    ensures Values(message.parts) == old(Values(message.parts)) + [v]
  {
    var newPart := new MessagePart(newId, |message.parts|, v);
    message.parts := message.parts + [newPart];
  }

  /** The stored parts have distinct orders equal to their positions. */
  ghost predicate Ordered(ps: seq<MessagePart>) {
    forall j :: 0 <= j < |ps| ==> ps[j].order == j
  }

  /** The content under construction is the head parts of a rebuild state
      whose values are the stored parts' current values. */
  ghost predicate Tracks(content: seq<MessagePart>, ps: seq<MessagePart>, st: Rebuilt)
    reads set p | p in ps
  {
    && |st.vals| == |ps|
    && (forall j :: 0 <= j < |ps| ==> ps[j].Value() == st.vals[j])
    && |content| == |st.heads|
    && (forall k :: 0 <= k < |content| ==> st.heads[k] < |ps| && content[k] == ps[st.heads[k]])
  }

  lemma TracksRender(content: seq<MessagePart>, ps: seq<MessagePart>, st: Rebuilt)
    requires Tracks(content, ps, st)
    ensures forall k :: 0 <= k < |st.heads| ==> st.heads[k] < |st.vals|
    ensures Values(content) == Render(st)
  {
  }

  /** Appending stored part i to the content keeps the content in step with a rebuild that pushes i. */
  lemma TracksPush(content: seq<MessagePart>, ps: seq<MessagePart>, st: Rebuilt, i: nat)
    requires Tracks(content, ps, st) && i < |ps|
    ensures Tracks(content + [ps[i]], ps, st.(heads := st.heads + [i]))
  {
  }

  /** Appends to the text of stored part h (a text or reasoning part). */
  method AppendText(target: MessagePart, ps: seq<MessagePart>, ghost content: seq<MessagePart>, ghost st: Rebuilt, ghost h: nat, suffix: string)
    requires Ordered(ps) && h < |ps| && target == ps[h] && (target.shape.Text? || target.shape.Reasoning?)
    requires Tracks(content, ps, st)
    modifies target
    ensures target.text == old(target.text) + suffix
    ensures Tracks(content, ps, st.(vals := st.vals[h := target.Value()]))
  {
    target.text := target.text + suffix;
    assert forall j :: 0 <= j < |ps| && j != h ==> ps[j] != target by {
      forall j | 0 <= j < |ps| && j != h
        ensures ps[j] != target
      {
        assert ps[j].order != target.order;
      }
    }
  }

  /** Appends to the data of stored part h (a redacted-reasoning part). */
  method AppendData(target: MessagePart, ps: seq<MessagePart>, ghost content: seq<MessagePart>, ghost st: Rebuilt, ghost h: nat, suffix: string)
    requires Ordered(ps) && h < |ps| && target == ps[h] && target.shape.RedactedReasoning?
    requires Tracks(content, ps, st)
    modifies target
    ensures target.data == old(target.data) + suffix
    ensures Tracks(content, ps, st.(vals := st.vals[h := target.Value()]))
  {
    target.data := target.data + suffix;
    assert forall j :: 0 <= j < |ps| && j != h ==> ps[j] != target by {
      forall j | 0 <= j < |ps| && j != h
        ensures ps[j] != target
      {
        assert ps[j].order != target.order;
      }
    }
  }

  /** The tool-result case of the rebuild loop: a result whose call is in
      the previous content replaces that call there (and so is left out of
      the new content); any other result is appended. */
  method TakeToolResult(message: StreamingMessage, ps: seq<MessagePart>, content: seq<MessagePart>, i: nat, ghost st: Rebuilt)
    returns (next: seq<MessagePart>)
    requires Ordered(ps) && i < |ps| && HeadsBelow(st, i) && ps[i].shape.ToolResult?
    requires Tracks(content, ps, st) && Keys(message.content) == st.prev
    modifies message`content
    ensures Tracks(next, ps, Step(st, i)) && Keys(message.content) == Step(st, i).prev
  {
    var part := ps[i];
    assert st.vals[i] == part.shape;
    var k := FirstKey(Keys(message.content), part.shape.toolCallId);
    if k < |message.content| {
      assert Step(st, i) == st.(prev := st.prev[k := None]);
      var replacement := new MessagePart(part.id, part.order,
        ToolResult(part.shape.toolCallId, part.shape.toolName, part.shape.resultValue, None));
      message.content := message.content[k := replacement];
      assert Keys(message.content) == st.prev[k := None];
      next := content;
    } else {
      next := content + [part];
      TracksPush(content, ps, st, i);
      assert Step(st, i) == st.(heads := st.heads + [i]);
    }
  }

  /** One turn of the rebuild loop: processes stored part i against the
      content built so far and the previous content. */
  method RebuildStep(message: StreamingMessage, ps: seq<MessagePart>, content: seq<MessagePart>, i: nat, ghost st: Rebuilt)
    returns (next: seq<MessagePart>)
    requires Ordered(ps) && i < |ps| && HeadsBelow(st, i)
    requires Tracks(content, ps, st) && Keys(message.content) == st.prev
    modifies message`content, ps
    ensures Tracks(next, ps, Step(st, i)) && Keys(message.content) == Step(st, i).prev
  {
    ghost var h := if |st.heads| > 0 then Last(st.heads) else 0;
    var part := ps[i];
    assert part.Value() == st.vals[i];
    assert |content| > 0 ==> content[|content| - 1] == ps[h] && ps[h].Value() == st.vals[h] && h < i;
    next := content;
    ghost var pushed := st.(heads := st.heads + [i]);
    match part.shape {
      case Text(_) =>
        if |content| > 0 && content[|content| - 1].shape.Text? {
          ghost var merged := Text(st.vals[h].text + part.text);
          AppendText(content[|content| - 1], ps, content, st, h, part.text);
          assert Step(st, i) == st.(vals := st.vals[h := merged]);
        } else {
          next := content + [part];
          TracksPush(content, ps, st, i);
          assert Step(st, i) == pushed;
        }
      case Reasoning(_) =>
        if |content| > 0 && content[|content| - 1].shape.Reasoning? {
          ghost var merged := Reasoning(st.vals[h].text + part.text);
          AppendText(content[|content| - 1], ps, content, st, h, part.text);
          assert Step(st, i) == st.(vals := st.vals[h := merged]);
        } else {
          next := content + [part];
          TracksPush(content, ps, st, i);
          assert Step(st, i) == pushed;
        }
      case RedactedReasoning(_) =>
        if |content| > 0 && content[|content| - 1].shape.RedactedReasoning? {
          ghost var merged := RedactedReasoning(st.vals[h].data + part.data);
          AppendData(content[|content| - 1], ps, content, st, h, part.data);
          assert Step(st, i) == st.(vals := st.vals[h := merged]);
        } else {
          next := content + [part];
          TracksPush(content, ps, st, i);
          assert Step(st, i) == pushed;
        }
      case Image(_) =>
        next := content + [part];
        TracksPush(content, ps, st, i);
        assert Step(st, i) == pushed;
      case File(_, _) =>
        next := content + [part];
        TracksPush(content, ps, st, i);
        assert Step(st, i) == pushed;
      case ToolCall(_, _, _, _) =>
        next := content + [part];
        TracksPush(content, ps, st, i);
        assert Step(st, i) == pushed;
      case ToolResult(_, _, _, _) =>
        next := TakeToolResult(message, ps, content, i, st);
      case Unknown(_) =>
        assert Step(st, i) == st;
    }
  }

  /** Rebuilds `content` from the stored parts in ascending order: adjacent
      text, reasoning and redacted-reasoning parts are merged into the first
      of them (changing that stored part), other parts are appended, and a
      tool result whose call is in the previous content is dropped (the
      previous content has the call replaced by the result). */
  method UpdateMessageContent(message: StreamingMessage)
    requires message.Valid()
    modifies message`content, message.parts
    ensures message.parts == old(message.parts) && message.Valid()
    ensures var st := Rebuild(old(Values(message.parts)), old(Keys(message.content)));
            && Values(message.parts) == st.vals
            && |message.content| == |st.heads|
            && (forall k :: 0 <= k < |st.heads| ==> message.content[k] == message.parts[st.heads[k]])
            && Values(message.content) == Render(st)
  {
    ghost var vs, prev := Values(message.parts), Keys(message.content);
    ghost var st := Rebuild(vs, prev);
    var content := RebuildContent(message, vs, prev);
    message.content := content;
    TracksRender(content, message.parts, st);
    assert Values(message.parts) == st.vals;
  }

  /** The rebuild loop: walks the stored parts in order and returns the new
      content; the previous content is changed only where a tool result
      replaces its call. */
  method RebuildContent(message: StreamingMessage, ghost vs: seq<Part>, ghost prev: seq<Option<string>>)
    returns (content: seq<MessagePart>)
    requires message.Valid() && vs == Values(message.parts) && prev == Keys(message.content)
    modifies message`content, message.parts
    ensures message.parts == old(message.parts) && message.Valid()
    ensures Tracks(content, message.parts, Rebuild(vs, prev))
  {
    var ps := message.parts;
    content := [];
    var i := 0;
    ghost var st := Rebuilt([], vs, prev);
    ghost var goal := Rebuild(vs, prev);
    while i < |ps|
      invariant 0 <= i <= |ps|
      invariant message.parts == ps && Ordered(ps)
      invariant HeadsBelow(st, i) && |st.vals| == |ps| && RebuildFrom(st, i) == goal
      invariant Tracks(content, ps, st) && Keys(message.content) == st.prev
    {
      content, st := RebuildTurn(message, ps, content, i, st, goal);
      i := i + 1;
    }
    assert RebuildFrom(st, i) == st;
  }

  /** One turn of the rebuild loop, with the rebuild state it reaches: the
      rest of the rebuild from there still ends at `goal`. */
  method RebuildTurn(message: StreamingMessage, ps: seq<MessagePart>, content: seq<MessagePart>, i: nat,
                     ghost st: Rebuilt, ghost goal: Rebuilt)
    returns (next: seq<MessagePart>, ghost st': Rebuilt)
    requires Ordered(ps) && i < |ps| && HeadsBelow(st, i) && |st.vals| == |ps| && RebuildFrom(st, i) == goal
    requires Tracks(content, ps, st) && Keys(message.content) == st.prev
    modifies message`content, ps
    ensures HeadsBelow(st', i + 1) && |st'.vals| == |ps| && RebuildFrom(st', i + 1) == goal
    ensures Tracks(next, ps, st') && Keys(message.content) == st'.prev
  {
    st' := Step(st, i);
    RebuildFromUnfold(st, i);
    next := RebuildStep(message, ps, content, i, st);
  }

  lemma RebuildFromUnfold(st: Rebuilt, i: nat)
    requires i < |st.vals| && HeadsBelow(st, i)
    ensures RebuildFrom(st, i) == RebuildFrom(Step(st, i), i + 1)
  {
  }

  /** The list with position `index` replaced by `message`, or with
      `message` appended when `index` is the length of the list. */
  function PutAt(messages: seq<StreamingMessage>, index: nat, message: StreamingMessage): (r: seq<StreamingMessage>)
    requires index <= |messages|
    ensures |r| == if index < |messages| then |messages| else |messages| + 1
    ensures r[..index] == messages[..index] && r[index] == message
    ensures forall j :: index < j < |r| ==> r[j] == messages[j]
  {
    // Slicing past the end of the list yields the empty list.
    var after := if index < |messages| then messages[index + 1..] else [];
    messages[..index] + [message] + after
  }

  /** Folds one text delta into the open assistant message (creating one when
      there is none) and returns the list with that message in place. */
  method ProcessTextPart(messages: seq<StreamingMessage>, text: string, newMessageId: string, newPartId: string)
    returns (r: seq<StreamingMessage>)
    requires |messages| > 0
    requires Last(messages).Valid()
    modifies Last(messages), Last(messages).parts
    ensures var isOpen := Last(messages).role == Assistant && !Last(messages).isComplete;
            var kept := if isOpen then |messages| - 1 else |messages|;
            && |r| == kept + 1
            && r[..kept] == messages[..kept]
            && (isOpen ==> Last(r) == Last(messages))
            && (!isOpen ==> fresh(Last(r)) && Last(r).role == Assistant && !Last(r).isComplete && Last(r).id == newMessageId)
            && Last(r).Valid()
            && |Last(r).parts| > 0 && fresh(Last(Last(r).parts))
            && Last(r).parts == (if isOpen then old(Last(messages).parts) else []) + [Last(Last(r).parts)]
            && var before := if isOpen then old(Values(Last(messages).parts)) else [];
               var beforeKeys := if isOpen then old(Keys(Last(messages).content)) else [];
               var st := Rebuild(before + [Text(text)], beforeKeys);
               && Values(Last(r).parts) == st.vals
               && Values(Last(r).content) == Render(st)
    ensures var isOpen := Last(messages).role == Assistant && !Last(messages).isComplete;
            !isOpen ==> unchanged(Last(messages)) && forall p :: p in old(Last(messages).parts) ==> unchanged(p)
  {
    ghost var isOpen := Last(messages).role == Assistant && !Last(messages).isComplete;
    ghost var oldParts := if isOpen then Values(Last(messages).parts) else [];
    ghost var beforeKeys := if isOpen then Keys(Last(messages).content) else [];
    ghost var stored := if isOpen then Last(messages).parts else [];
    var message, messageIndex := GetOrCreateAssistantMessage(messages, newMessageId);
    assert Values(message.parts) == oldParts && Keys(message.content) == beforeKeys;
    assert message.parts == stored && messageIndex == (if isOpen then |messages| - 1 else |messages|);
    assert !isOpen ==> fresh(message);
    AddTextAndRebuild(message, text, newPartId);
    r := PutAt(messages, messageIndex, message);
    assert Last(r) == message;
  }

  /** Stores a new text part and rebuilds the content from all stored parts. */
  method AddTextAndRebuild(message: StreamingMessage, text: string, newPartId: string)
    requires message.Valid()
    modifies message, message.parts
    ensures message.Valid()
    ensures |message.parts| > 0 && fresh(Last(message.parts))
    ensures message.parts == old(message.parts) + [Last(message.parts)]
    ensures var st := Rebuild(old(Values(message.parts)) + [Text(text)], old(Keys(message.content)));
            Values(message.parts) == st.vals && Values(message.content) == Render(st)
  {
    ghost var ks := Keys(message.content);
    AddPartToMessage(message, Text(text), newPartId);
    assert Keys(message.content) == ks;
    UpdateMessageContent(message);
  }

  // ---------------------------------------------------------------------
  // Properties of the rebuild.

  /** The tool-call parts of a part list, in order. */
  function ToolCallsOf(ps: seq<Part>): seq<Part> {
    if ps == [] then [] else ToolCallsOf(ps[..|ps| - 1]) + (if Last(ps).ToolCall? then [Last(ps)] else [])
  }

  predicate Coalescable(p: Part) {
    p.Text? || p.Reasoning? || p.RedactedReasoning?
  }

  /** Two parts the rebuild merges when they are neighbours. */
  predicate Mergeable(a: Part, b: Part) {
    (a.Text? && b.Text?) || (a.Reasoning? && b.Reasoning?) || (a.RedactedReasoning? && b.RedactedReasoning?)
  }

  predicate NoMergeableNeighbours(r: seq<Part>) {
    forall k :: 0 <= k < |r| - 1 ==> !Mergeable(r[k], r[k + 1])
  }

  ghost predicate Increasing(heads: seq<nat>) {
    forall k, l :: 0 <= k < l < |heads| ==> heads[k] < heads[l]
  }

  /** What holds of the rebuild state once the first i stored parts `vs` are processed. */
  ghost predicate Shaped(st: Rebuilt, vs: seq<Part>, i: nat) {
    && i <= |vs| && |st.vals| == |vs|
    && HeadsBelow(st, i) && Increasing(st.heads)
    && (forall j :: i <= j < |vs| ==> st.vals[j] == vs[j])
    && (forall j :: 0 <= j < |vs| ==> Kind(st.vals[j]) == Kind(vs[j]))
    && (forall j :: 0 <= j < |vs| && !Coalescable(vs[j]) ==> st.vals[j] == vs[j])
    && (|st.heads| == 0 ==> forall j :: 0 <= j < i ==> vs[j].ToolResult? || vs[j].Unknown?)
  }

  ghost predicate Reached(st: Rebuilt, vs: seq<Part>, i: nat) {
    && Shaped(st, vs, i)
    && TextOfParts(Render(st)) == TextOfParts(vs[..i])
    && ToolCallsOf(Render(st)) == ToolCallsOf(vs[..i])
    && NoMergeableNeighbours(Render(st))
  }

  lemma {:induction false} ToolCallsOfAppend(ps: seq<Part>, q: Part)
    ensures ToolCallsOf(ps + [q]) == ToolCallsOf(ps) + ToolCallsOf([q])
  {
    assert (ps + [q])[..|ps|] == ps;
    assert [q][..0] == [];
  }

  lemma {:induction false} TextOfPartsSnoc(ps: seq<Part>, q: Part)
    ensures TextOfParts(ps + [q]) == TextOfParts(ps) + TextOfParts([q])
  {
    assert (ps + [q])[..|ps|] == ps;
    assert [q][..0] == [];
  }

  /** Pushing stored part i keeps the rebuild state shaped. */
  lemma {:induction false} PushShaped(st: Rebuilt, vs: seq<Part>, i: nat)
    requires Shaped(st, vs, i) && i < |vs|
    ensures Shaped(st.(heads := st.heads + [i]), vs, i + 1)
  {
    var next := st.(heads := st.heads + [i]);
    assert HeadsBelow(next, i + 1);
    assert Increasing(next.heads) by {
      forall k, l | 0 <= k < l < |next.heads| ensures next.heads[k] < next.heads[l] {
        if l < |st.heads| {
          assert next.heads[k] == st.heads[k] && next.heads[l] == st.heads[l];
        } else {
          assert next.heads[k] == st.heads[k] < i;
        }
      }
    }
  }

  /** Pushing stored part i shows it after the parts shown so far. */
  lemma {:induction false} PushRender(st: Rebuilt, vs: seq<Part>, i: nat)
    requires Shaped(st, vs, i) && i < |vs|
    ensures Render(st.(heads := st.heads + [i])) == Render(st) + [vs[i]]
  {
    var next := st.(heads := st.heads + [i]);
    var r := Render(st);
    var r' := Render(next);
    forall k | 0 <= k < |r| ensures r'[k] == r[k] {
      assert next.heads[k] == st.heads[k];
    }
    assert r'[|r|] == st.vals[i] == vs[i];
  }

  /** Pushing stored part i, which does not merge with the last shown part. */
  lemma {:induction false} PushReached(st: Rebuilt, vs: seq<Part>, i: nat)
    requires Reached(st, vs, i) && i < |vs|
    requires |st.heads| > 0 ==> !Mergeable(st.vals[Last(st.heads)], vs[i])
    ensures Reached(st.(heads := st.heads + [i]), vs, i + 1)
  {
    var next := st.(heads := st.heads + [i]);
    PushShaped(st, vs, i);
    PushRender(st, vs, i);
    var r := Render(st);
    var r' := r + [vs[i]];
    assert Render(next) == r';
    assert NoMergeableNeighbours(r') by {
      forall k | 0 <= k < |r'| - 1 ensures !Mergeable(r'[k], r'[k + 1]) {
        if k < |r| - 1 {
          assert r'[k] == r[k] && r'[k + 1] == r[k + 1];
        } else {
          assert r'[k] == st.vals[Last(st.heads)];
        }
      }
    }
    assert vs[..i + 1] == vs[..i] + [vs[i]];
    TextOfPartsSnoc(r, vs[i]);
    TextOfPartsSnoc(vs[..i], vs[i]);
    ToolCallsOfAppend(r, vs[i]);
    ToolCallsOfAppend(vs[..i], vs[i]);
  }

  /** Changing the value of the last head changes only the last shown part. */
  lemma {:induction false} RenderAfterMerge(st: Rebuilt, merged: Part)
    requires |st.heads| > 0 && Increasing(st.heads)
    requires forall k :: 0 <= k < |st.heads| ==> st.heads[k] < |st.vals|
    ensures var r := Render(st);
            && Render(st.(vals := st.vals[Last(st.heads) := merged])) == r[..|r| - 1] + [merged]
            && r == r[..|r| - 1] + [st.vals[Last(st.heads)]]
  {
    var h := Last(st.heads);
    var r := Render(st);
    var r' := Render(st.(vals := st.vals[h := merged]));
    forall k | 0 <= k < |r| - 1
      ensures r'[k] == r[k]
    {
      assert st.heads[k] < h;
    }
    assert r' == r[..|r| - 1] + [merged];
  }

  /** Merging changes neither the heads nor the values of other stored parts. */
  lemma {:induction false} MergeShaped(st: Rebuilt, vs: seq<Part>, i: nat, merged: Part)
    requires Shaped(st, vs, i) && i < |vs| && |st.heads| > 0
    requires Kind(merged) == Kind(st.vals[Last(st.heads)]) && Coalescable(merged)
    ensures Shaped(st.(vals := st.vals[Last(st.heads) := merged]), vs, i + 1)
  {
    var h := Last(st.heads);
    assert h < i;
    var next := st.(vals := st.vals[h := merged]);
    assert forall j :: 0 <= j < |vs| && j != h ==> next.vals[j] == st.vals[j];
  }

  /** How the last shown part `a` absorbs stored part `v`. */
  predicate Absorbs(a: Part, v: Part, merged: Part) {
    || (a.Text? && v.Text? && merged == Text(a.text + v.text))
    || (a.Reasoning? && v.Reasoning? && merged == Reasoning(a.text + v.text))
    || (a.RedactedReasoning? && v.RedactedReasoning? && merged == RedactedReasoning(a.data + v.data))
  }

  lemma {:induction false} AbsorbKeepsText(init: seq<Part>, a: Part, merged: Part, shown: seq<Part>, v: Part)
    requires TextOfParts(init + [a]) == TextOfParts(shown) && Absorbs(a, v, merged)
    ensures TextOfParts(init + [merged]) == TextOfParts(shown + [v])
  {
    TextOfPartsSnoc(init, merged);
    TextOfPartsSnoc(init, a);
    TextOfPartsSnoc(shown, v);
    assert [a][..0] == [] && [merged][..0] == [] && [v][..0] == [];
    if a.Text? {
      calc {
        TextOfParts(init + [merged]);
        TextOfParts(init) + a.text + v.text;
        TextOfParts(shown) + v.text;
      }
    }
  }

  lemma {:induction false} AbsorbKeepsToolCalls(init: seq<Part>, a: Part, merged: Part, shown: seq<Part>, v: Part)
    requires ToolCallsOf(init + [a]) == ToolCallsOf(shown) && Absorbs(a, v, merged)
    ensures ToolCallsOf(init + [merged]) == ToolCallsOf(shown + [v])
  {
    ToolCallsOfAppend(init, merged);
    ToolCallsOfAppend(init, a);
    ToolCallsOfAppend(shown, v);
    assert [a][..0] == [] && [merged][..0] == [] && [v][..0] == [];
  }

  lemma {:induction false} AbsorbKeepsNeighbours(init: seq<Part>, a: Part, merged: Part)
    requires NoMergeableNeighbours(init + [a]) && Kind(merged) == Kind(a)
    ensures NoMergeableNeighbours(init + [merged])
  {
    forall k | 0 <= k < |init|
      ensures !Mergeable((init + [merged])[k], (init + [merged])[k + 1])
    {
      assert (init + [merged])[k] == (init + [a])[k];
      assert Kind((init + [merged])[k + 1]) == Kind((init + [a])[k + 1]);
    }
  }

  /** Merging stored part i into the last shown part. */
  lemma {:induction false} MergeReached(st: Rebuilt, vs: seq<Part>, i: nat, merged: Part)
    requires Reached(st, vs, i) && i < |vs| && |st.heads| > 0
    requires Absorbs(st.vals[Last(st.heads)], vs[i], merged)
    ensures Reached(st.(vals := st.vals[Last(st.heads) := merged]), vs, i + 1)
  {
    var h := Last(st.heads);
    var next := st.(vals := st.vals[h := merged]);
    MergeShaped(st, vs, i, merged);
    var r := Render(st);
    var init := r[..|r| - 1];
    RenderAfterMerge(st, merged);
    assert vs[..i + 1] == vs[..i] + [vs[i]];
    AbsorbKeepsText(init, st.vals[h], merged, vs[..i], vs[i]);
    AbsorbKeepsToolCalls(init, st.vals[h], merged, vs[..i], vs[i]);
    AbsorbKeepsNeighbours(init, st.vals[h], merged);
  }

  /** Leaving stored part i out of the content. */
  lemma {:induction false} SkipReached(st: Rebuilt, vs: seq<Part>, i: nat, next: Rebuilt)
    requires Reached(st, vs, i) && i < |vs| && (vs[i].ToolResult? || vs[i].Unknown?)
    requires next.heads == st.heads && next.vals == st.vals
    ensures Reached(next, vs, i + 1)
  {
    assert Render(next) == Render(st);
    assert vs[..i + 1] == vs[..i] + [vs[i]];
    TextOfPartsSnoc(vs[..i], vs[i]);
    ToolCallsOfAppend(vs[..i], vs[i]);
  }

  lemma {:induction false} StepReached(st: Rebuilt, vs: seq<Part>, i: nat)
    requires Reached(st, vs, i) && i < |vs|
    ensures Reached(Step(st, i), vs, i + 1)
  {
    var v := vs[i];
    assert st.vals[i] == v;
    var hasLast := |st.heads| > 0;
    var h := if hasLast then Last(st.heads) else 0;
    if v.Unknown? || (v.ToolResult? && FirstKey(st.prev, v.toolCallId) < |st.prev|) {
      SkipReached(st, vs, i, Step(st, i));
    } else if hasLast && Mergeable(st.vals[h], v) {
      MergeReached(st, vs, i, Merge(st.vals[h], v));
    } else {
      PushReached(st, vs, i);
    }
  }

  lemma {:induction false} RebuildFromReached(st: Rebuilt, vs: seq<Part>, i: nat)
    requires Reached(st, vs, i)
    ensures Reached(RebuildFrom(st, i), vs, |vs|)
    decreases |vs| - i
  {
    if i < |vs| {
      StepReached(st, vs, i);
      RebuildFromReached(Step(st, i), vs, i + 1);
    }
  }

  lemma RebuildReached(vs: seq<Part>, prev: seq<Option<string>>)
    ensures Reached(Rebuild(vs, prev), vs, |vs|)
  {
    var st := Rebuilt([], vs, prev);
    assert Render(st) == [] && vs[..0] == [];
    RebuildFromReached(st, vs, 0);
  }

  /** The rebuilt content shows exactly the text of the stored parts. */
  lemma RebuildKeepsText(vs: seq<Part>, prev: seq<Option<string>>)
    ensures TextOfParts(Render(Rebuild(vs, prev))) == TextOfParts(vs)
  {
    RebuildReached(vs, prev);
    assert vs[..|vs|] == vs;
  }

  /** The rebuilt content shows every stored tool call, unchanged and in order. */
  lemma RebuildKeepsToolCalls(vs: seq<Part>, prev: seq<Option<string>>)
    ensures ToolCallsOf(Render(Rebuild(vs, prev))) == ToolCallsOf(vs)
  {
    RebuildReached(vs, prev);
    assert vs[..|vs|] == vs;
  }

  /** No two neighbouring parts of the rebuilt content are both text, both
      reasoning or both redacted reasoning. */
  lemma RebuildMergesNeighbours(vs: seq<Part>, prev: seq<Option<string>>)
    ensures NoMergeableNeighbours(Render(Rebuild(vs, prev)))
  {
    RebuildReached(vs, prev);
  }

  lemma {:induction false} AllTextFrom(st: Rebuilt, vs: seq<Part>, n: nat)
    requires 1 <= n <= |vs| && forall j :: 0 <= j < |vs| ==> vs[j].Text?
    requires st.heads == [0] && |st.vals| == |vs|
    requires st.vals[0] == Text(TextOfParts(vs[..n]))
    requires forall j :: 1 <= j < |vs| ==> st.vals[j] == vs[j]
    ensures RebuildFrom(st, n).heads == [0]
    ensures RebuildFrom(st, n).vals == [Text(TextOfParts(vs))] + vs[1..]
    decreases |vs| - n
  {
    if n == |vs| {
      assert vs[..n] == vs;
      assert st.vals == [st.vals[0]] + vs[1..];
    } else {
      var next := st.(vals := st.vals[0 := Text(st.vals[0].text + vs[n].text)]);
      assert Step(st, n) == next;
      assert vs[..n + 1] == vs[..n] + [vs[n]];
      TextOfPartsSnoc(vs[..n], vs[n]);
      assert [vs[n]][..0] == [];
      AllTextFrom(next, vs, n + 1);
    }
  }

  /** Rebuilding a non-empty run of text parts merges them all into the
      first stored part and leaves the others as they are. */
  lemma AllTextRebuild(vs: seq<Part>, prev: seq<Option<string>>)
    requires |vs| > 0 && forall j :: 0 <= j < |vs| ==> vs[j].Text?
    ensures Rebuild(vs, prev).heads == [0]
    ensures Rebuild(vs, prev).vals == [Text(TextOfParts(vs))] + vs[1..]
  {
    RebuildFirstShown(vs, prev);
    assert vs[..1] == [vs[0]];
    TextOfOne(vs[0]);
    AllTextFrom(Rebuilt([0], vs, prev), vs, 1);
  }

  /** A first stored part that is not a tool result or of an unknown type
      becomes the first shown part. */
  lemma RebuildFirstShown(vs: seq<Part>, prev: seq<Option<string>>)
    requires |vs| > 0 && !vs[0].ToolResult? && !vs[0].Unknown?
    ensures Rebuild(vs, prev) == RebuildFrom(Rebuilt([0], vs, prev), 1)
  {
    assert Step(Rebuilt([], vs, prev), 0) == Rebuilt([0], vs, prev);
  }

  /** A non-empty run of text parts is shown as one text part holding all of their text. */
  lemma AllTextRendersOnePart(vs: seq<Part>, prev: seq<Option<string>>)
    requires |vs| > 0 && forall j :: 0 <= j < |vs| ==> vs[j].Text?
    ensures Render(Rebuild(vs, prev)) == [Text(TextOfParts(vs))]
  {
    AllTextRebuild(vs, prev);
  }

  // ---------------------------------------------------------------------
  // Reasoning, redacted reasoning, images and files.

  /** What a part contributes to the running text of kind k: the text of a
      text or reasoning part, the data of a redacted-reasoning part, and
      nothing for a part of another kind. */
  function KindText(p: Part, k: PartKind): string {
    if Kind(p) != k then ""
    else if p.Text? || p.Reasoning? then p.text
    else if p.RedactedReasoning? then p.data
    else ""
  }

  /** The concatenated text (or data) of the parts of kind k, in order. */
  function KindTextOf(ps: seq<Part>, k: PartKind): string {
    if ps == [] then "" else KindTextOf(ps[..|ps| - 1], k) + KindText(Last(ps), k)
  }

  lemma KindTextOfOne(q: Part, k: PartKind)
    ensures KindTextOf([q], k) == KindText(q, k)
  {
    assert [q][..0] == [];
  }

  /** The image and file parts, in order. */
  function MediaOf(ps: seq<Part>): seq<Part> {
    if ps == [] then [] else MediaOf(ps[..|ps| - 1]) + (if Last(ps).Image? || Last(ps).File? then [Last(ps)] else [])
  }

  lemma {:induction false} KindTextSnoc(ps: seq<Part>, q: Part, k: PartKind)
    ensures KindTextOf(ps + [q], k) == KindTextOf(ps, k) + KindText(q, k)
  {
    assert (ps + [q])[..|ps|] == ps;
  }

  lemma {:induction false} MediaSnoc(ps: seq<Part>, q: Part)
    ensures MediaOf(ps + [q]) == MediaOf(ps) + (if q.Image? || q.File? then [q] else [])
  {
    assert (ps + [q])[..|ps|] == ps;
  }

  /** The reasoning text, the redacted data and the images and files shown
      after the first i stored parts are processed are those of the parts. */
  ghost predicate ViewsKept(st: Rebuilt, vs: seq<Part>, i: nat)
    requires i <= |vs| && forall k :: 0 <= k < |st.heads| ==> st.heads[k] < |st.vals|
  {
    && KindTextOf(Render(st), ReasoningKind) == KindTextOf(vs[..i], ReasoningKind)
    && KindTextOf(Render(st), RedactedReasoningKind) == KindTextOf(vs[..i], RedactedReasoningKind)
    && MediaOf(Render(st)) == MediaOf(vs[..i])
  }

  /** Appending the same part to the shown and the processed parts keeps the views. */
  lemma {:induction false} ViewsAppend(r: seq<Part>, done: seq<Part>, q: Part)
    requires KindTextOf(r, ReasoningKind) == KindTextOf(done, ReasoningKind)
    requires KindTextOf(r, RedactedReasoningKind) == KindTextOf(done, RedactedReasoningKind)
    requires MediaOf(r) == MediaOf(done)
    ensures KindTextOf(r + [q], ReasoningKind) == KindTextOf(done + [q], ReasoningKind)
    ensures KindTextOf(r + [q], RedactedReasoningKind) == KindTextOf(done + [q], RedactedReasoningKind)
    ensures MediaOf(r + [q]) == MediaOf(done + [q])
  {
    KindTextSnoc(r, q, ReasoningKind);
    KindTextSnoc(done, q, ReasoningKind);
    KindTextSnoc(r, q, RedactedReasoningKind);
    KindTextSnoc(done, q, RedactedReasoningKind);
    MediaSnoc(r, q);
    MediaSnoc(done, q);
  }

  /** Absorbing `v` into the last shown part `a` keeps the running text of kind k. */
  lemma {:induction false} KindTextAbsorb(init: seq<Part>, a: Part, merged: Part, done: seq<Part>, v: Part, k: PartKind)
    requires Absorbs(a, v, merged) && KindTextOf(init + [a], k) == KindTextOf(done, k)
    ensures KindTextOf(init + [merged], k) == KindTextOf(done + [v], k)
  {
    var t, x, y := KindTextOf(init, k), KindText(a, k), KindText(v, k);
    KindTextSnoc(init, a, k);
    KindTextSnoc(init, merged, k);
    KindTextSnoc(done, v, k);
    AbsorbKindText(a, v, merged, k);
    calc {
      KindTextOf(init + [merged], k);
      t + (x + y);
      (t + x) + y;
      KindTextOf(init + [a], k) + y;
      KindTextOf(done + [v], k);
    }
  }

  lemma AbsorbKindText(a: Part, v: Part, merged: Part, k: PartKind)
    requires Absorbs(a, v, merged)
    ensures KindText(merged, k) == KindText(a, k) + KindText(v, k)
  {
  }

  /** Absorbing `v` into the last shown part `a` keeps the images and files. */
  lemma {:induction false} MediaAbsorb(init: seq<Part>, a: Part, merged: Part, done: seq<Part>, v: Part)
    requires Absorbs(a, v, merged) && MediaOf(init + [a]) == MediaOf(done)
    ensures MediaOf(init + [merged]) == MediaOf(done + [v])
  {
    MediaSnoc(init, a);
    MediaSnoc(init, merged);
    MediaSnoc(done, v);
  }

  /** Each step of the rebuild keeps the views. */
  lemma {:induction false} StepKeepsViews(st: Rebuilt, vs: seq<Part>, i: nat)
    requires Reached(st, vs, i) && i < |vs| && ViewsKept(st, vs, i)
    ensures Reached(Step(st, i), vs, i + 1) && ViewsKept(Step(st, i), vs, i + 1)
  {
    StepReached(st, vs, i);
    var v := vs[i];
    assert st.vals[i] == v;
    if v.Unknown? || (v.ToolResult? && FirstKey(st.prev, v.toolCallId) < |st.prev|) {
      SkipKeepsViews(st, vs, i, Step(st, i));
    } else if |st.heads| > 0 && Mergeable(st.vals[Last(st.heads)], v) {
      MergeKeepsViews(st, vs, i, Merge(st.vals[Last(st.heads)], v));
    } else {
      PushKeepsViews(st, vs, i);
    }
  }

  lemma {:induction false} SkipKeepsViews(st: Rebuilt, vs: seq<Part>, i: nat, next: Rebuilt)
    requires Reached(st, vs, i) && i < |vs| && ViewsKept(st, vs, i) && (vs[i].ToolResult? || vs[i].Unknown?)
    requires next.heads == st.heads && next.vals == st.vals
    ensures ViewsKept(next, vs, i + 1)
  {
    assert Render(next) == Render(st);
    assert vs[..i + 1] == vs[..i] + [vs[i]];
    ViewsSkip(vs[..i], vs[i]);
  }

  /** A tool result or a part of an unknown type adds nothing to the views. */
  lemma ViewsSkip(done: seq<Part>, q: Part)
    requires q.ToolResult? || q.Unknown?
    ensures KindTextOf(done + [q], ReasoningKind) == KindTextOf(done, ReasoningKind)
    ensures KindTextOf(done + [q], RedactedReasoningKind) == KindTextOf(done, RedactedReasoningKind)
    ensures MediaOf(done + [q]) == MediaOf(done)
  {
    KindTextSnoc(done, q, ReasoningKind);
    KindTextSnoc(done, q, RedactedReasoningKind);
    MediaSnoc(done, q);
  }

  lemma {:induction false} MergeKeepsViews(st: Rebuilt, vs: seq<Part>, i: nat, merged: Part)
    requires Reached(st, vs, i) && i < |vs| && ViewsKept(st, vs, i) && |st.heads| > 0
    requires Absorbs(st.vals[Last(st.heads)], vs[i], merged)
    ensures ViewsKept(st.(vals := st.vals[Last(st.heads) := merged]), vs, i + 1)
  {
    var h := Last(st.heads);
    var r := Render(st);
    var init := r[..|r| - 1];
    RenderAfterMerge(st, merged);
    assert vs[..i + 1] == vs[..i] + [vs[i]];
    KindTextAbsorb(init, st.vals[h], merged, vs[..i], vs[i], ReasoningKind);
    KindTextAbsorb(init, st.vals[h], merged, vs[..i], vs[i], RedactedReasoningKind);
    MediaAbsorb(init, st.vals[h], merged, vs[..i], vs[i]);
  }

  lemma {:induction false} PushKeepsViews(st: Rebuilt, vs: seq<Part>, i: nat)
    requires Reached(st, vs, i) && i < |vs| && ViewsKept(st, vs, i)
    ensures ViewsKept(st.(heads := st.heads + [i]), vs, i + 1)
  {
    PushRender(st, vs, i);
    assert vs[..i + 1] == vs[..i] + [vs[i]];
    ViewsAppend(Render(st), vs[..i], vs[i]);
  }

  lemma {:induction false} RebuildFromKeepsViews(st: Rebuilt, vs: seq<Part>, i: nat)
    requires Reached(st, vs, i) && ViewsKept(st, vs, i)
    ensures ViewsKept(RebuildFrom(st, i), vs, |vs|)
    decreases |vs| - i
  {
    if i < |vs| {
      StepKeepsViews(st, vs, i);
      RebuildFromKeepsViews(Step(st, i), vs, i + 1);
    }
  }

  /** The rebuilt content shows exactly the reasoning text and the redacted
      reasoning data of the stored parts, and every stored image and file
      part, unchanged and in order. */
  lemma RebuildKeepsReasoningAndMedia(vs: seq<Part>, prev: seq<Option<string>>)
    ensures KindTextOf(Render(Rebuild(vs, prev)), ReasoningKind) == KindTextOf(vs, ReasoningKind)
    ensures KindTextOf(Render(Rebuild(vs, prev)), RedactedReasoningKind) == KindTextOf(vs, RedactedReasoningKind)
    ensures MediaOf(Render(Rebuild(vs, prev))) == MediaOf(vs)
  {
    var st := Rebuilt([], vs, prev);
    assert Render(st) == [] && vs[..0] == [];
    RebuildReached(vs, prev);
    assert Reached(st, vs, 0);
    RebuildFromKeepsViews(st, vs, 0);
    assert vs[..|vs|] == vs;
  }

  /** The text, reasoning or redacted-reasoning part of kind k holding s. */
  function Joined(k: PartKind, s: string): (p: Part)
    ensures k == TextKind || k == ReasoningKind || k == RedactedReasoningKind ==> Kind(p) == k && KindText(p, k) == s
  {
    if k == TextKind then Text(s) else if k == ReasoningKind then Reasoning(s) else RedactedReasoning(s)
  }

  lemma {:induction false} RunFrom(st: Rebuilt, vs: seq<Part>, n: nat, k: PartKind)
    requires k == TextKind || k == ReasoningKind || k == RedactedReasoningKind
    requires 1 <= n <= |vs| && forall j :: 0 <= j < |vs| ==> Kind(vs[j]) == k
    requires st.heads == [0] && st.vals == vs[0 := Joined(k, KindTextOf(vs[..n], k))]
    ensures RebuildFrom(st, n).heads == [0]
    ensures RebuildFrom(st, n).vals[0] == Joined(k, KindTextOf(vs, k))
    decreases |vs| - n
  {
    if n == |vs| {
      assert vs[..n] == vs;
    } else {
      var v := vs[n];
      var merged := Merge(st.vals[0], v);
      assert merged == Joined(k, KindTextOf(vs[..n], k) + KindText(v, k));
      var next := st.(vals := st.vals[0 := merged]);
      assert Step(st, n) == next;
      assert vs[..n + 1] == vs[..n] + [v];
      KindTextSnoc(vs[..n], v, k);
      assert next.vals == vs[0 := Joined(k, KindTextOf(vs[..n + 1], k))];
      RunFrom(next, vs, n + 1, k);
    }
  }

  /** Rebuilding a run of one mergeable kind merges it into the first stored part. */
  lemma RunRebuild(vs: seq<Part>, prev: seq<Option<string>>, k: PartKind)
    requires |vs| > 0 && Coalescable(vs[0]) && k == Kind(vs[0])
    requires forall j :: 0 <= j < |vs| ==> Kind(vs[j]) == k
    ensures Rebuild(vs, prev).heads == [0]
    ensures Rebuild(vs, prev).vals[0] == Joined(k, KindTextOf(vs, k))
  {
    RebuildFirstShown(vs, prev);
    JoinedFirst(vs, k);
    assert vs == vs[0 := Joined(k, KindTextOf(vs[..1], k))];
    RunFrom(Rebuilt([0], vs, prev), vs, 1, k);
  }

  /** A non-empty run of text, reasoning or redacted-reasoning parts of one
      kind is shown as one part of that kind holding their concatenated text
      (or data). */
  lemma RunRendersOnePart(vs: seq<Part>, prev: seq<Option<string>>)
    requires |vs| > 0 && Coalescable(vs[0])
    requires forall j :: 0 <= j < |vs| ==> Kind(vs[j]) == Kind(vs[0])
    ensures Render(Rebuild(vs, prev)) == [Joined(Kind(vs[0]), KindTextOf(vs, Kind(vs[0])))]
  {
    RunRebuild(vs, prev, Kind(vs[0]));
  }

  /** The first part of a run is the run of its prefix of length one. */
  lemma JoinedFirst(vs: seq<Part>, k: PartKind)
    requires |vs| > 0 && Coalescable(vs[0]) && Kind(vs[0]) == k
    ensures vs[0] == Joined(k, KindTextOf(vs[..1], k))
  {
    assert vs[..1] == [vs[0]];
    KindTextOfOne(vs[0], k);
  }


  // ---------------------------------------------------------------------
  // What becomes of a tool result.

  /** A step either keeps the heads or pushes the processed part; a tool
      result is pushed exactly when its call is not in the previous content. */
  lemma StepHeads(st: Rebuilt, n: nat)
    requires n < |st.vals| && HeadsBelow(st, n)
    ensures Step(st, n).heads == st.heads || Step(st, n).heads == st.heads + [n]
    ensures st.vals[n].ToolResult? ==>
              (Step(st, n).heads == st.heads + [n] <==> Some(st.vals[n].toolCallId) !in st.prev)
  {
    var v := st.vals[n];
    if v.ToolResult? {
      var k := FirstKey(st.prev, v.toolCallId);
      if Some(v.toolCallId) in st.prev {
        var j :| 0 <= j < |st.prev| && st.prev[j] == Some(v.toolCallId);
        assert k <= j;
      }
    }
  }

  /** A step removes from the previous content's keys at most the call of
      the processed tool result, and adds none. */
  lemma StepKeys(st: Rebuilt, n: nat, id: string)
    requires n < |st.vals| && HeadsBelow(st, n)
    ensures Some(id) !in st.prev ==> Some(id) !in Step(st, n).prev
    ensures Some(id) in st.prev && !(st.vals[n].ToolResult? && st.vals[n].toolCallId == id) ==>
              Some(id) in Step(st, n).prev
  {
    var v := st.vals[n];
    var next := Step(st, n);
    if v.ToolResult? && FirstKey(st.prev, v.toolCallId) < |st.prev| {
      var k := FirstKey(st.prev, v.toolCallId);
      assert next.prev == st.prev[k := None];
      if Some(id) in st.prev && v.toolCallId != id {
        var j :| 0 <= j < |st.prev| && st.prev[j] == Some(id);
        assert next.prev[j] == Some(id);
      }
    } else {
      assert next.prev == st.prev;
    }
  }

  /** A step changes no stored part after the processed one. */
  lemma StepKeepsLater(st: Rebuilt, vs: seq<Part>, n: nat)
    requires Pending(st, vs, n) && n < |vs|
    ensures Pending(Step(st, n), vs, n + 1)
  {
  }

  lemma {:induction false} HeadStays(st: Rebuilt, n: nat, i: nat)
    requires n <= |st.vals| && HeadsBelow(st, n) && i in st.heads
    ensures i in RebuildFrom(st, n).heads
    decreases |st.vals| - n
  {
    if n < |st.vals| {
      var next := Step(st, n);
      assert RebuildFrom(st, n) == RebuildFrom(next, n + 1);
      StepHeads(st, n);
      HeadStays(next, n + 1, i);
    }
  }

  lemma {:induction false} HeadStaysOut(st: Rebuilt, n: nat, i: nat)
    requires n <= |st.vals| && HeadsBelow(st, n) && i < n && i !in st.heads
    ensures i !in RebuildFrom(st, n).heads
    decreases |st.vals| - n
  {
    if n < |st.vals| {
      var next := Step(st, n);
      assert RebuildFrom(st, n) == RebuildFrom(next, n + 1);
      StepHeads(st, n);
      assert i !in next.heads;
      HeadStaysOut(next, n + 1, i);
    }
  }

  /** The stored parts from position n on are still unprocessed. */
  ghost predicate Pending(st: Rebuilt, vs: seq<Part>, n: nat) {
    && n <= |vs| && |st.vals| == |vs| && HeadsBelow(st, n)
    && forall j :: n <= j < |vs| ==> st.vals[j] == vs[j]
  }

  lemma {:induction false} UnmatchedShownFrom(st: Rebuilt, vs: seq<Part>, n: nat, i: nat)
    requires Pending(st, vs, n) && n <= i < |vs| && vs[i].ToolResult?
    requires Some(vs[i].toolCallId) !in st.prev
    ensures i in RebuildFrom(st, n).heads
    decreases |vs| - n
  {
    var next := Step(st, n);
    assert RebuildFrom(st, n) == RebuildFrom(next, n + 1);
    StepKeepsLater(st, vs, n);
    if n < i {
      StepKeys(st, n, vs[i].toolCallId);
      UnmatchedShownFrom(next, vs, n + 1, i);
    } else {
      StepHeads(st, n);
      HeadStays(next, n + 1, i);
    }
  }

  lemma {:induction false} MatchedDroppedFrom(st: Rebuilt, vs: seq<Part>, n: nat, i: nat)
    requires Pending(st, vs, n) && n <= i < |vs| && vs[i].ToolResult?
    requires Some(vs[i].toolCallId) in st.prev
    requires forall j :: n <= j < i ==> !(vs[j].ToolResult? && vs[j].toolCallId == vs[i].toolCallId)
    ensures i !in RebuildFrom(st, n).heads
    decreases |vs| - n
  {
    var next := Step(st, n);
    assert RebuildFrom(st, n) == RebuildFrom(next, n + 1);
    StepKeepsLater(st, vs, n);
    if n < i {
      StepKeys(st, n, vs[i].toolCallId);
      MatchedDroppedFrom(next, vs, n + 1, i);
    } else {
      StepHeads(st, n);
      HeadStaysOut(next, n + 1, i);
    }
  }

  /** A tool result whose call is not in the previous content is shown. */
  lemma UnmatchedResultIsShown(vs: seq<Part>, prev: seq<Option<string>>, i: nat)
    requires i < |vs| && vs[i].ToolResult? && Some(vs[i].toolCallId) !in prev
    ensures vs[i] in Render(Rebuild(vs, prev))
  {
    var st := Rebuild(vs, prev);
    RebuildReached(vs, prev);
    UnmatchedShownFrom(Rebuilt([], vs, prev), vs, 0, i);
    var k :| 0 <= k < |st.heads| && st.heads[k] == i;
    assert Render(st)[k] == st.vals[i] == vs[i];
  }

  /** The first result for a call that is in the previous content is not
      shown: it only replaces that call in the previous content. */
  lemma MatchedResultIsDropped(vs: seq<Part>, prev: seq<Option<string>>, i: nat)
    requires i < |vs| && vs[i].ToolResult? && Some(vs[i].toolCallId) in prev
    requires forall j :: 0 <= j < i ==> !(vs[j].ToolResult? && vs[j].toolCallId == vs[i].toolCallId)
    ensures i !in Rebuild(vs, prev).heads
  {
    MatchedDroppedFrom(Rebuilt([], vs, prev), vs, 0, i);
  }

  // ---------------------------------------------------------------------
  // A text stream into one open assistant message.

  /** The text parts holding the given deltas. */
  function TextParts(deltas: seq<string>): (ps: seq<Part>)
    ensures |ps| == |deltas| && forall j :: 0 <= j < |deltas| ==> ps[j] == Text(deltas[j])
  {
    if deltas == [] then [] else TextParts(deltas[..|deltas| - 1]) + [Text(Last(deltas))]
  }

  lemma {:induction false} TextOfTextParts(deltas: seq<string>)
    ensures TextOfParts(TextParts(deltas)) == Concat(deltas)
  {
    if deltas != [] {
      var init := deltas[..|deltas| - 1];
      TextOfTextParts(init);
      assert TextParts(deltas)[..|deltas| - 1] == TextParts(init);
    }
  }

  lemma TextOfOne(q: Part)
    ensures TextOfParts([q]) == if q.Text? then q.text else ""
  {
    assert [q][..0] == [];
  }

  lemma TextBetween(a: string, rest: seq<Part>, d: string)
    ensures TextOfParts([Text(a)] + (rest + [Text(d)])) == a + (TextOfParts(rest) + d)
  {
    TextOfPartsAppend([Text(a)], rest + [Text(d)]);
    TextOfPartsAppend(rest, [Text(d)]);
    TextOfOne(Text(a));
    TextOfOne(Text(d));
  }

  /** The stored parts and the rebuilt content after each delta went through
      ProcessTextPart as written: the merge writes into the stored parts, so
      every rebuild starts from the already merged values. */
  function AsWrittenStream(deltas: seq<string>): (st: Rebuilt)
    ensures |st.vals| == |deltas| && HeadsBelow(st, |st.vals|)
  {
    if deltas == [] then Rebuilt([], [], [])
    else
      var before := AsWrittenStream(deltas[..|deltas| - 1]);
      Rebuild(before.vals + [Text(Last(deltas))], ValueKeys(Render(before)))
  }

  /** The text the as-written stream shows: each rebuild adds the merged
      first part, the later deltas but the last a second time, and the new delta. */
  function AsWrittenText(deltas: seq<string>): string {
    if |deltas| <= 1 then Concat(deltas)
    else
      var init := deltas[..|deltas| - 1];
      AsWrittenText(init) + Concat(init[1..]) + Last(deltas)
  }

  /** One step of the as-written stream: the next rebuild starts from the
      stored values so far plus the new delta. */
  lemma AsWrittenStreamStep(deltas: seq<string>)
    requires |deltas| > 0
    ensures AsWrittenStream(deltas)
         == Rebuild(AsWrittenStream(deltas[..|deltas| - 1]).vals + [Text(Last(deltas))],
                    ValueKeys(Render(AsWrittenStream(deltas[..|deltas| - 1]))))
  {
  }

  /** The stored values the as-written stream rebuilds from are all text. */
  lemma {:induction false} AsWrittenStreamAllText(deltas: seq<string>)
    ensures forall j :: 0 <= j < |AsWrittenStream(deltas).vals| ==> AsWrittenStream(deltas).vals[j].Text?
  {
    if deltas != [] {
      var init := deltas[..|deltas| - 1];
      AsWrittenStreamAllText(init);
      AsWrittenStreamStep(deltas);
      var vs := AsWrittenStream(init).vals + [Text(Last(deltas))];
      AllTextRebuild(vs, ValueKeys(Render(AsWrittenStream(init))));
    }
  }

  /** Each as-written rebuild merges the stored values so far and the new
      delta into the first stored part and shows only that part. */
  lemma AsWrittenMerges(deltas: seq<string>)
    requires |deltas| > 0
    ensures var vs := AsWrittenStream(deltas[..|deltas| - 1]).vals + [Text(Last(deltas))];
      && AsWrittenStream(deltas).vals == [Text(TextOfParts(vs))] + vs[1..]
      && Render(AsWrittenStream(deltas)) == [Text(TextOfParts(vs))]
  {
    var before := AsWrittenStream(deltas[..|deltas| - 1]);
    var vs := before.vals + [Text(Last(deltas))];
    AsWrittenStreamStep(deltas);
    AsWrittenStreamAllText(deltas[..|deltas| - 1]);
    AllTextRebuild(vs, ValueKeys(Render(before)));
  }

  /** As written, a non-empty stream of deltas is shown as one text part
      holding `AsWrittenText`, and the first stored part holds that text too. */
  lemma {:induction false} AsWrittenStreamShows(deltas: seq<string>)
    requires |deltas| > 0
    ensures AsWrittenStream(deltas).vals == [Text(AsWrittenText(deltas))] + TextParts(deltas)[1..]
    ensures Render(AsWrittenStream(deltas)) == [Text(AsWrittenText(deltas))]
  {
    var init := deltas[..|deltas| - 1];
    var d := Last(deltas);
    var vs := AsWrittenStream(init).vals + [Text(d)];
    AsWrittenMerges(deltas);
    if init == [] {
      assert deltas == [d];
      assert vs == [Text(d)];
      assert TextOfParts(vs) == d by { TextOfOne(Text(d)); }
      assert Concat(deltas) == d by { assert deltas[..0] == []; }
    } else {
      AsWrittenStreamShows(init);
      AsWrittenShowsNext(deltas, vs);
    }
  }

  /** The inductive step of `AsWrittenStreamShows`: the values the next
      rebuild starts from hold the text shown so far, the later deltas and
      the new one. */
  lemma AsWrittenShowsNext(deltas: seq<string>, vs: seq<Part>)
    requires |deltas| > 1
    requires var init := deltas[..|deltas| - 1];
             && AsWrittenStream(init).vals == [Text(AsWrittenText(init))] + TextParts(init)[1..]
             && vs == AsWrittenStream(init).vals + [Text(Last(deltas))]
    ensures vs[1..] == TextParts(deltas)[1..]
    ensures TextOfParts(vs) == AsWrittenText(deltas)
  {
    var init := deltas[..|deltas| - 1];
    var d := Last(deltas);
    var rest := TextParts(init)[1..];
    assert vs == [Text(AsWrittenText(init))] + (rest + [Text(d)]);
    assert vs[1..] == rest + [Text(d)];
    assert TextParts(deltas)[1..] == rest + [Text(d)];
    TextBetween(AsWrittenText(init), rest, d);
    TextPartsTail(init);
    TextOfTextParts(init[1..]);
  }

  lemma TextPartsTail(ds: seq<string>)
    requires |ds| > 0
    ensures TextParts(ds)[1..] == TextParts(ds[1..])
  {
    var a, b := TextParts(ds)[1..], TextParts(ds[1..]);
    assert |a| == |b|;
    forall j | 0 <= j < |a| ensures a[j] == b[j] {
      assert a[j] == TextParts(ds)[j + 1] == Text(ds[j + 1]);
    }
  }

  /** As written, the deltas "a", "b", "c" are shown as "abbc" rather than
      "abc": the second delta is counted twice because the first stored part
      already holds it when the third rebuild starts. */
  lemma AsWrittenRepeatsText()
    ensures Render(AsWrittenStream(["a", "b", "c"])) == [Text("abbc")]
    ensures Concat(["a", "b", "c"]) == "abc"
  {
    var ds := ["a", "b", "c"];
    AsWrittenStreamShows(ds);
    assert ds[..2] == ["a", "b"] && ["a", "b"][..1] == ["a"] && ["a"][..0] == [];
    assert ds[..2][1..] == ["b"] && ["a", "b"][..1][1..] == [];
    assert ["b"][..0] == [];
    assert AsWrittenText(["a"]) == "a";
    assert AsWrittenText(["a", "b"]) == "ab";
    assert AsWrittenText(ds) == "abbc";
  }

  /** The tool-call keys of a list of part objects are those of their current values. */
  lemma KeysOfValues(ps: seq<MessagePart>)
    ensures Keys(ps) == ValueKeys(Values(ps))
  {
    var vs := Values(ps);
    forall j | 0 <= j < |ps| ensures Keys(ps)[j] == ValueKeys(vs)[j] {
      KeyOfValue(ps[j]);
    }
  }

  lemma KeyOfValue(p: MessagePart)
    ensures PartKey(p.shape) == PartKey(p.Value())
  {
  }

  // ProcessTextPart, delta by delta, follows AsWrittenStream: the two
  // methods below carry a stream from its first delta to the next.

  /** The first delta, after a message that is not an open assistant
      message: a new assistant message holds the state `AsWrittenStream`
      gives for that delta alone. */
  method ProcessFirstDelta(messages: seq<StreamingMessage>, deltas: seq<string>, messageId: string, partId: string)
    returns (r: seq<StreamingMessage>)
    requires |messages| > 0 && Last(messages).Valid() && |deltas| > 0
    requires Last(messages).role != Assistant || Last(messages).isComplete
    modifies Last(messages), Last(messages).parts
    ensures |r| == |messages| + 1 && r[..|messages|] == messages
    ensures unchanged(Last(messages)) && forall p :: p in old(Last(messages).parts) ==> unchanged(p)
    ensures fresh(Last(r)) && Last(r).role == Assistant && !Last(r).isComplete && Last(r).id == messageId
    ensures Last(r).Valid() && |Last(r).parts| == 1 && fresh(Last(r).parts[0])
    ensures Values(Last(r).parts) == AsWrittenStream(deltas[..1]).vals
    ensures Values(Last(r).content) == Render(AsWrittenStream(deltas[..1]))
  {
    assert deltas[..1] == [deltas[0]] && deltas[..1][..0] == [];
    AsWrittenStreamStep(deltas[..1]);
    assert !(Last(messages).role == Assistant && !Last(messages).isComplete);
    r := ProcessTextPart(messages, deltas[0], messageId, partId);
  }

  /** A later delta: when the open assistant message holds the stored parts
      and content `AsWrittenStream` gives for the deltas before `i`,
      ProcessTextPart leaves it holding those for the deltas up to `i`. */
  method ProcessNextDelta(messages: seq<StreamingMessage>, deltas: seq<string>, i: nat, messageId: string, partId: string)
    returns (r: seq<StreamingMessage>)
    requires 0 < i < |deltas| && |messages| > 0
    requires Last(messages).role == Assistant && !Last(messages).isComplete && Last(messages).Valid()
    requires Values(Last(messages).parts) == AsWrittenStream(deltas[..i]).vals
    requires Values(Last(messages).content) == Render(AsWrittenStream(deltas[..i]))
    modifies Last(messages), Last(messages).parts
    ensures |r| == |messages| && r[..|r| - 1] == messages[..|messages| - 1] && Last(r) == Last(messages)
    ensures Last(r).Valid()
    ensures |Last(r).parts| > 0 && Last(r).parts == old(Last(messages).parts) + [Last(Last(r).parts)] && fresh(Last(Last(r).parts))
    ensures Values(Last(r).parts) == AsWrittenStream(deltas[..i + 1]).vals
    ensures Values(Last(r).content) == Render(AsWrittenStream(deltas[..i + 1]))
  {
    assert deltas[..i + 1][..i] == deltas[..i];
    AsWrittenStreamStep(deltas[..i + 1]);
    KeysOfValues(Last(messages).content);
    r := ProcessTextPart(messages, deltas[i], messageId, partId);
  }

  /** The stored parts and the rebuilt content when the merge writes into a
      copy of the first part: the stored parts keep the deltas. */
  function CorrectedStream(deltas: seq<string>): (r: (seq<Part>, seq<Part>))
    ensures |r.0| == |deltas|
  {
    if deltas == [] then ([], [])
    else
      var before := CorrectedStream(deltas[..|deltas| - 1]);
      var parts := before.0 + [Text(Last(deltas))];
      (parts, Render(Rebuild(parts, ValueKeys(before.1))))
  }

  /** With the copying merge, the stored parts are the deltas and a
      non-empty stream is shown as one text part holding their concatenation. */
  lemma {:induction false} CorrectedStreamShowsConcatenation(deltas: seq<string>)
    ensures CorrectedStream(deltas).0 == TextParts(deltas)
    ensures |deltas| > 0 ==> CorrectedStream(deltas).1 == [Text(Concat(deltas))]
  {
    if deltas != [] {
      var init := deltas[..|deltas| - 1];
      CorrectedStreamShowsConcatenation(init);
      var before := CorrectedStream(init);
      var parts := before.0 + [Text(Last(deltas))];
      assert parts == TextParts(deltas);
      AllTextRendersOnePart(parts, ValueKeys(before.1));
      TextOfTextParts(deltas);
    }
  }
}
