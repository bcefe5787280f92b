# Chat transcript folding between a chat UI and an agent service

This project models the message plumbing between an assistant chat UI and an
agent service. That plumbing has three parts:
- Outbound converters turn a UI "append message" into a core message for the service.
- Stream reducers fold the service's streamed events into the transcript: text
  deltas, tool calls, tool results and the finish message.
- Inbound converters turn stored core messages back into UI thread messages.

The repository carries several divergent versions of each piece, and each one
is modelled as written:

| module | file | form |
|---|---|---|
| `ChatTypes` | shared | datatypes for JSON, core parts and messages, UI parts and messages; text and tool-call views |
| `StreamProcessors` | `frontend/mastra/stream-processors.ts` | pure reducers over the transcript |
| `Converters` | `frontend/mastra/converters.ts` | pure outbound and inbound converters |
| `SendMessage` | `frontend/mastra/use-send-message.tsx` | the append before streaming and the finish-message updater |
| `MessagePartProcessor` | `assistant-ui-client/hooks/mastra/MessagePartProcessor.ts` | classes whose fields change in place |
| `StoreAdapter` | `assistant-ui-client/hooks/use-mastra-store-adapter.tsx` | updater loops, plus a class for the per-stream state |
| `LegacyConverter` | `old/mastra-external-store-adapter/src/convertMastraMessages.ts` | a class holding the module-level args map |
| `LegacyUtils` | `old/assistant-ui-client/lib/utils.ts` | the older text updater |

Details of each model:
- `JSON.stringify` is a parameter `stringify: Json -> string`.
- `crypto.randomUUID()` values are id parameters.
- `MessagePartProcessor` keeps the source's aliasing. The rebuilt `content`
  holds the very part objects stored in `parts`, so merging text into the last
  shown part also rewrites a stored part. `AsWrittenStream` follows this stream
  by stream, and `ProcessFirstDelta`/`ProcessNextDelta` prove that
  `ProcessTextPart` matches it delta by delta.
- The in-place `sort` by `order` is modelled by the invariant
  `parts[i].order == i` (`StreamingMessage.Valid`). The only writer of `parts`
  stamps each new part with the current length, so the sort leaves the list
  as it is.
- The reducers of one client differ from another's, and several lemmas state
  those differences outright:
  - The frontend tool-call reducer discards the transcript when it does not
    end with an assistant message (`ToolCallDiscardsTranscript`).
  - The frontend text reducer merges into a message already marked complete
    (`TextReopensSealedMessage`).
  - The store adapter writes text that arrives after a tool call into the text
    part in front of it (`TextAfterToolCallShownBeforeIt`).
  - The legacy inbound converter keeps tool-call args across messages, where
    the frontend one keeps them for one message only (`ArgsPersistAcrossMessages`).
  - The two outbound converters treat a system message with two text parts
    differently (`SystemConvertersDisagree`).

Where the code and the intended design differ, the model follows the code:
- A repeated tool-call announcement is appended again by the frontend reducer
  (`ToolCallAppendsWithoutDedup`). The store adapter keeps the existing part
  unchanged rather than overwriting its name and args (`ToolCallUpdateDeduplicates`).
- Consecutive text deltas are meant never to merge across an intervening
  non-text part. The store adapter merges them: text after a tool call is
  written into the text part before it (`TextAfterToolCallShownBeforeIt`).
- Late events after a message is sealed are meant to be discarded. The
  frontend text reducer merges them into the sealed message.
- `tool` messages are meant never to reach the inbound converters. Both
  converters map them to assistant messages (`CoreMessageToThreadMessageLike`,
  `ConvertMastraMessages`).
- The finish updater maps the finish reason `stop` to `stop` and every other
  reason to `unknown`. Nothing sets an `incomplete` status (`FinishStatus`).

## Model

| member | source | states |
|---|---|---|
| `ChatTypes.FindToolCall` | frontend/mastra/stream-processors.ts:130-132 | the index of the first tool-call part with the id, or the length when there is none; no earlier part matches |
| `StreamProcessors.HandleOnTextPart` | frontend/mastra/stream-processors.ts:7-68 | the transcript ends with an assistant message; earlier messages are kept; one message is added only when there was no trailing assistant message; the shown text grows by exactly the delta; part content ends in text; string content stays a string; a trailing text part is extended without a new part |
| `StreamProcessors.TextOnStringContent` | frontend/mastra/stream-processors.ts:14-20 | string content gets the delta appended and nothing else about the message changes |
| `StreamProcessors.TextCoalescesIntoLastTextPart` | frontend/mastra/stream-processors.ts:22-35 | a trailing text part absorbs the delta; the part count, the other parts and the status are kept |
| `StreamProcessors.TextAfterNonTextPartStartsNewPart` | frontend/mastra/stream-processors.ts:38-46 | after a non-text part the delta becomes a new text part appended to the list |
| `StreamProcessors.TextWithoutAssistantAppendsMessage` | frontend/mastra/stream-processors.ts:57-67 | without a trailing assistant message, a new assistant message holding the delta is appended and the transcript is kept |
| `StreamProcessors.TextReopensSealedMessage` | frontend/mastra/stream-processors.ts:13-55 | a delta after a message marked complete is merged into it, and the message still reads complete |
| `StreamProcessors.HandleOnToolCallPart` | frontend/mastra/stream-processors.ts:70-112 | the result ends with an assistant message holding a part list; earlier messages are kept when the last was an assistant message, otherwise one message remains; the text is unchanged; the tool-call ids gain exactly the new id at the end |
| `StreamProcessors.ToolCallPromotesString` | frontend/mastra/stream-processors.ts:77-95 | string content is promoted to a text part followed by the tool call |
| `StreamProcessors.ToolCallAppendsWithoutDedup` | frontend/mastra/stream-processors.ts:97-103 | the call is appended even when a call with its id is already present |
| `StreamProcessors.ToolCallDiscardsTranscript` | frontend/mastra/stream-processors.ts:106-111 | without a trailing assistant message the whole transcript is replaced by one assistant message holding the call |
| `StreamProcessors.HandleOnToolResultPart` | frontend/mastra/stream-processors.ts:114-154 | the transcript is returned unchanged unless the last assistant message's part list has a call with the id; otherwise only the first such call gains the result; length, earlier messages, text and tool-call ids are kept |
| `StreamProcessors.TextDeltaExtends` | frontend/mastra/stream-processors.ts:22-35 | on a message that ends in text, a delta keeps the message count and part count and extends the text by the delta |
| `StreamProcessors.TextDeltaFirst` | frontend/mastra/stream-processors.ts:7-68 | the first delta of a run keeps the messages before the open assistant message, fixes the part count and leaves the message ending in text |
| `StreamProcessors.TextDeltaNext` | frontend/mastra/stream-processors.ts:22-35 | each further delta keeps that shape and appends its text |
| `StreamProcessors.TextDeltasCoalesce` | frontend/mastra/stream-processors.ts:7-68 | any run of consecutive deltas adds no part after the first one, and the message's text grows by their concatenation |
| `StreamProcessors.HelloCoalesces` | frontend/mastra/stream-processors.ts:7-68 | "Hel" then "lo" into an empty transcript give one assistant message with one text part "Hello" |
| `StreamProcessors.ToolCallThenResult` | frontend/mastra/stream-processors.ts:97-153 | a new call followed by its result gives one tool-call part carrying the result, in the place the call was appended, with no duplicate |
| `StreamProcessors.NotInIdsMeansNotFound` | frontend/mastra/stream-processors.ts:126-132 | an id not among the tool-call ids is not found |
| `StreamProcessors.FindAfterAppend` | frontend/mastra/stream-processors.ts:126-132 | after an append, the search finds the new part exactly when it is a call with the id |
| `StreamProcessors.ToolResultIdempotent` | frontend/mastra/stream-processors.ts:114-154 | delivering the same result twice gives the same transcript as delivering it once |
| `StreamProcessors.FindAfterUpdate` | frontend/mastra/stream-processors.ts:130-150 | after a result is attached to the found call, the search still finds that position |
| `Converters.AppendMessagePartsToCoreMessageParts` | frontend/mastra/converters.ts:41-69 | succeeds exactly when every part has a supported type, and then maps each part 1:1 onto the core part with the same fields (a tool call loses any result); otherwise the error names the first unsupported part's type |
| `Converters.AppendMessageToCoreMessage` | frontend/mastra/converters.ts:71-100 | a system message always converts to string content: its text parts joined by newlines, in order (the empty string without text parts); splitting it at newlines gives back the text parts when they hold no newline; user and assistant messages convert exactly when all parts are supported, part by part |
| `Converters.SystemIgnoresUnsupportedParts` | frontend/mastra/converters.ts:75-86 | an unsupported part in a system message does not make the conversion fail |
| `Converters.SplitJoin` | frontend/mastra/converters.ts:76-79 | newline-joining a non-empty list of newline-free texts and splitting at newlines gives the list back |
| `Converters.SplitJoinWhenNewlineFree` | frontend/mastra/converters.ts:76-79 | the same round trip, stated for any list of texts |
| `Converters.InboundFold` | frontend/mastra/converters.ts:109-163 | one UI part per core part |
| `Converters.CoreMessageToThreadMessageLike` | frontend/mastra/converters.ts:166-187 | system, user and assistant keep their role and tool becomes assistant; string content becomes one text part; a part list keeps its length |
| `Converters.InboundConvertsEachPart` | frontend/mastra/converters.ts:111-163 | position i of the output converts input part i with the args map built from the parts before it |
| `Converters.ArgsMapHoldsLastArgs` | frontend/mastra/converters.ts:139-150 | the args map holds an id exactly when a tool call with it came earlier, and then that id's last call's args |
| `Converters.InboundToolResultTakesEarlierArgs` | frontend/mastra/converters.ts:149-161 | a tool result is shown as a tool call carrying the result and error flag, with the args of the last earlier call with its id, or `{}` when there is none or its args were null; the args text is that of the args shown |
| `Converters.NullArgsShownAsEmptyObject` | frontend/mastra/converters.ts:139-161 | a call with null args followed by its result: the call is shown with null args, the result with `{}` and the args text of `{}` |
| `Converters.InboundRedactedReasoning` | frontend/mastra/converters.ts:134-138 | redacted reasoning is shown as reasoning whose text is the redacted data |
| `Converters.RoundTripPart` | frontend/mastra/converters.ts:44-163 | a core part produced from a supported UI part comes back as that part, normalised |
| `Converters.RoundTrip` | frontend/mastra/converters.ts:71-187 | a user or assistant message with supported parts survives outbound then inbound conversion, except that tool calls get `argsText` and lose any result |
| `Converters.SingleTextRoundTrip` | frontend/mastra/converters.ts:71-187 | a user message with one text part survives the round trip unchanged |
| `Converters.InboundDropsAttachedResult` | frontend/mastra/converters.ts:139-148 | a tool-call part that carries a result is shown without it |
| `Converters.CoreMessageToThreadMessageLikeWithResults` | frontend/mastra/converters.ts:139-148 | the corrected inbound converter keeps the role and the part count of the one as written |
| `Converters.StreamedResultIsShown` | frontend/mastra/converters.ts:139-148 | with the corrected converter, a result the stream attached to a call is shown on that call |
| `SendMessage.SendMessageAppend` | frontend/mastra/use-send-message.tsx:69-73 | the converted message is appended exactly when conversion succeeds; the earlier transcript is kept; a conversion error is passed on |
| `SendMessage.FinishStatus` | frontend/mastra/use-send-message.tsx:98-101 | the status is complete; its reason is stop exactly when the finish reason is stop, and unknown otherwise |
| `SendMessage.OnFinishMessagePart` | frontend/mastra/use-send-message.tsx:93-103 | only the last message changes: its role and content are kept and it gets the finish status |
| `SendMessage.TranscriptStaysNonEmpty` | frontend/mastra/use-send-message.tsx:71-103 | after the append, and under every stream reducer, the transcript is non-empty, as the finish updater needs |
| `SendMessage.TextKeepsShape` | frontend/mastra/use-send-message.tsx:28-48 | the text reducer keeps every assistant message within the transcript's content type |
| `SendMessage.ToolCallKeepsShape` | frontend/mastra/use-send-message.tsx:28-48 | the tool-call reducer keeps that shape |
| `SendMessage.ToolResultKeepsShape` | frontend/mastra/use-send-message.tsx:28-48 | the tool-result reducer keeps that shape |
| `SendMessage.FinishKeepsShape` | frontend/mastra/use-send-message.tsx:93-103 | the finish updater keeps that shape |
| `SendMessage.SendKeepsShape` | frontend/mastra/use-send-message.tsx:71-73 | appending a converted message without assistant images keeps that shape |
| `SendMessage.AssistantImageBreaksShape` | frontend/mastra/use-send-message.tsx:28-37 | an assistant message with an image part converts, and the result is outside the transcript's content type |
| `MessagePartProcessor.MessagePart.constructor` | assistant-ui-client/hooks/mastra/MessagePartProcessor.ts:39-43 | a new stored part with the given id, order and value |
| `MessagePartProcessor.StreamingMessage.constructor` | assistant-ui-client/hooks/mastra/MessagePartProcessor.ts:23-31 | a new message with no content and no parts |
| `MessagePartProcessor.GetOrCreateAssistantMessage` | assistant-ui-client/hooks/mastra/MessagePartProcessor.ts:15-33 | the last message and its index when it is an open assistant message, otherwise a fresh empty open assistant message with the given id, at index length |
| `MessagePartProcessor.AddPartToMessage` | assistant-ui-client/hooks/mastra/MessagePartProcessor.ts:35-46 | one fresh part is appended, with the given id and the old part count as its order; the stored values gain exactly the new value |
| `MessagePartProcessor.FirstKey` | assistant-ui-client/hooks/mastra/MessagePartProcessor.ts:96-98 | the index of the first tool call with the id in the previous content, or its length |
| `MessagePartProcessor.Merge` | assistant-ui-client/hooks/mastra/MessagePartProcessor.ts:62-90 | a merged part keeps the kind of the part it merges into |
| `MessagePartProcessor.Step` | assistant-ui-client/hooks/mastra/MessagePartProcessor.ts:59-114 | one part of the rebuild keeps the number of stored parts and previous entries, and every shown position stays below the processed one |
| `MessagePartProcessor.Rebuild` | assistant-ui-client/hooks/mastra/MessagePartProcessor.ts:48-118 | the rebuild keeps the number of stored parts and shows only stored parts; what it shows is stated by `RebuildKeepsText`, `RebuildKeepsToolCalls`, `RebuildKeepsReasoningAndMedia`, `RebuildMergesNeighbours`, `RunRendersOnePart`, `UnmatchedResultIsShown` and `MatchedResultIsDropped` |
| `MessagePartProcessor.AppendText` | assistant-ui-client/hooks/mastra/MessagePartProcessor.ts:62-83 | the last shown text or reasoning part gets the suffix, and the stored part at its position changes with it |
| `MessagePartProcessor.AppendData` | assistant-ui-client/hooks/mastra/MessagePartProcessor.ts:84-90 | the same for the data of redacted reasoning |
| `MessagePartProcessor.TakeToolResult` | assistant-ui-client/hooks/mastra/MessagePartProcessor.ts:95-113 | a result whose call is in the previous content replaces that call there and is not shown; any other result is shown |
| `MessagePartProcessor.RebuildStep` | assistant-ui-client/hooks/mastra/MessagePartProcessor.ts:59-114 | one loop turn moves the content and the stored parts from one rebuild state to the next |
| `MessagePartProcessor.RebuildContent` | assistant-ui-client/hooks/mastra/MessagePartProcessor.ts:58-115 | the loop leaves the content and stored parts at the state `Rebuild` gives for the old values and keys |
| `MessagePartProcessor.UpdateMessageContent` | assistant-ui-client/hooks/mastra/MessagePartProcessor.ts:48-118 | the content becomes the stored part objects at the rebuild's shown positions; the stored parts become the rebuild's values; the message stays ordered |
| `MessagePartProcessor.PutAt` | assistant-ui-client/hooks/mastra/MessagePartProcessor.ts:137-141 | the list with the message at its index (replacing or appending) and every other message in place |
| `MessagePartProcessor.ProcessTextPart` | assistant-ui-client/hooks/mastra/MessagePartProcessor.ts:120-142 | the open assistant message, or a fresh one, gets one new stored text part; its stored parts and content are the rebuild of the old values plus the delta; the other messages stay in place; when the last message is not an open assistant message, it and its stored parts are left unchanged |
| `MessagePartProcessor.AddTextAndRebuild` | assistant-ui-client/hooks/mastra/MessagePartProcessor.ts:132-133 | stores the delta as a fresh part, then rebuilds from all stored values |
| `MessagePartProcessor.StepReached` | assistant-ui-client/hooks/mastra/MessagePartProcessor.ts:59-114 | each step keeps the invariant: the shown parts carry the text and the tool calls of the parts processed so far, and no two neighbours merge |
| `MessagePartProcessor.RebuildReached` | assistant-ui-client/hooks/mastra/MessagePartProcessor.ts:58-115 | the whole rebuild ends in that invariant |
| `MessagePartProcessor.RebuildKeepsText` | assistant-ui-client/hooks/mastra/MessagePartProcessor.ts:62-68 | the content shows exactly the concatenated text of the stored parts it was rebuilt from |
| `MessagePartProcessor.RebuildKeepsToolCalls` | assistant-ui-client/hooks/mastra/MessagePartProcessor.ts:91-94 | the content shows every stored tool call, unchanged and in order |
| `MessagePartProcessor.RebuildMergesNeighbours` | assistant-ui-client/hooks/mastra/MessagePartProcessor.ts:62-90 | no two neighbouring shown parts are both text, both reasoning or both redacted reasoning |
| `MessagePartProcessor.AllTextRebuild` | assistant-ui-client/hooks/mastra/MessagePartProcessor.ts:62-68 | a run of text parts is merged into the first stored part, which then holds all their text; the others are left as they were |
| `MessagePartProcessor.AllTextRendersOnePart` | assistant-ui-client/hooks/mastra/MessagePartProcessor.ts:62-68 | a run of text parts is shown as one text part |
| `MessagePartProcessor.StepKeepsViews` | assistant-ui-client/hooks/mastra/MessagePartProcessor.ts:59-114 | each step keeps a second invariant: the shown parts carry the reasoning text, the redacted-reasoning data and the image and file parts of the parts processed so far |
| `MessagePartProcessor.RebuildKeepsReasoningAndMedia` | assistant-ui-client/hooks/mastra/MessagePartProcessor.ts:70-90 | the content shows exactly the concatenated reasoning text and the concatenated redacted-reasoning data of the stored parts, and every stored image and file part, unchanged and in order |
| `MessagePartProcessor.RunRebuild` | assistant-ui-client/hooks/mastra/MessagePartProcessor.ts:62-90 | a run of text, reasoning or redacted-reasoning parts of one kind is merged into the first stored part, which then holds the concatenated text or data of the run |
| `MessagePartProcessor.RunRendersOnePart` | assistant-ui-client/hooks/mastra/MessagePartProcessor.ts:62-90 | such a run is shown as one part of its kind holding the concatenated text or data |
| `MessagePartProcessor.UnmatchedResultIsShown` | assistant-ui-client/hooks/mastra/MessagePartProcessor.ts:109-111 | a tool result whose call is not in the previous content is shown |
| `MessagePartProcessor.MatchedResultIsDropped` | assistant-ui-client/hooks/mastra/MessagePartProcessor.ts:96-108 | the first result for a call in the previous content is not shown |
| `MessagePartProcessor.AsWrittenStream` | assistant-ui-client/hooks/mastra/MessagePartProcessor.ts:120-142 | the state after each delta goes through `processTextPart` as written holds one stored part per delta |
| `MessagePartProcessor.AsWrittenMerges` | assistant-ui-client/hooks/mastra/MessagePartProcessor.ts:62-68 | each rebuild merges the already merged stored values plus the new delta into the first stored part |
| `MessagePartProcessor.AsWrittenStreamShows` | assistant-ui-client/hooks/mastra/MessagePartProcessor.ts:62-68 | as written, a stream is shown as one text part holding `AsWrittenText`, which repeats every delta but the first and the last |
| `MessagePartProcessor.AsWrittenRepeatsText` | assistant-ui-client/hooks/mastra/MessagePartProcessor.ts:62-68 | the deltas "a", "b", "c" are shown as "abbc", not their concatenation "abc" |
| `MessagePartProcessor.ProcessFirstDelta` | assistant-ui-client/hooks/mastra/MessagePartProcessor.ts:120-142 | after a sealed or non-assistant message, the first delta creates a fresh open assistant message in the state `AsWrittenStream` gives for that delta, and leaves the last message and its stored parts unchanged |
| `MessagePartProcessor.ProcessNextDelta` | assistant-ui-client/hooks/mastra/MessagePartProcessor.ts:120-142 | from the as-written state for the deltas before i, the next delta leads to the as-written state for the deltas up to i |
| `MessagePartProcessor.CorrectedStreamShowsConcatenation` | assistant-ui-client/hooks/mastra/MessagePartProcessor.ts:62-68 | when the merge writes into a copy, the stored parts keep the deltas and a stream is shown as one text part holding their concatenation |
| `StoreAdapter.ConvertAssistantUIMessageToMastraMessage` | assistant-ui-client/hooks/use-mastra-store-adapter.tsx:21-57 | a system message converts exactly when it has one part with a text field, and then to that text; other roles are cast part by part, unchecked |
| `StoreAdapter.CastAgreesWithCheckedConverter` | assistant-ui-client/hooks/use-mastra-store-adapter.tsx:39-55 | for user and assistant messages with known parts and no results, the cast agrees with the frontend's checked converter |
| `StoreAdapter.SystemConvertersDisagree` | assistant-ui-client/hooks/use-mastra-store-adapter.tsx:25-37 | a system message with two text parts throws here, while the frontend converter joins the parts with a newline |
| `StoreAdapter.OnNewMessages` | assistant-ui-client/hooks/use-mastra-store-adapter.tsx:83-91 | a converted user message and the empty assistant message are appended; a conversion error leaves the transcript alone |
| `StoreAdapter.TextUpdater` | assistant-ui-client/hooks/use-mastra-store-adapter.tsx:107-146 | the loop computes `TextUpdate` |
| `StoreAdapter.ToolCallUpdater` | assistant-ui-client/hooks/use-mastra-store-adapter.tsx:160-205 | the loop computes `ToolCallUpdate` |
| `StoreAdapter.TextUpdateShowsAccumulated` | assistant-ui-client/hooks/use-mastra-store-adapter.tsx:112-143 | every text part of the open message holds the accumulated text, and there is at least one; other parts keep their places; a part is added only when there was no text part |
| `StoreAdapter.TextUpdateLastWins` | assistant-ui-client/hooks/use-mastra-store-adapter.tsx:105-146 | a text update overwrites what the previous one wrote |
| `StoreAdapter.ToolCallUpdateDeduplicates` | assistant-ui-client/hooks/use-mastra-store-adapter.tsx:165-201 | a repeated call adds nothing; a call with a new id is appended as announced, without a result; afterwards a call with the id is present; the parts before are kept |
| `StoreAdapter.ToolResultUpdateKeepsViews` | assistant-ui-client/hooks/use-mastra-store-adapter.tsx:217-249 | every matching call gets the result and keeps its other fields; every other part, the earlier messages and the last message's role and status are unchanged; part count, text and tool-call ids are kept; a second delivery changes nothing |
| `StoreAdapter.WithResultKeepsViews` | assistant-ui-client/hooks/use-mastra-store-adapter.tsx:227-240 | attaching results keeps the text and the tool-call ids |
| `StoreAdapter.ToolResultAgreesOnSingleCall` | assistant-ui-client/hooks/use-mastra-store-adapter.tsx:227-240 | with exactly one matching call, this updater and the frontend tool-result reducer agree |
| `StoreAdapter.TextAfterToolCallShownBeforeIt` | assistant-ui-client/hooks/use-mastra-store-adapter.tsx:105-206 | "a", a tool call, then "b" show "ab" ahead of the call |
| `StoreAdapter.StoreStream.constructor` | assistant-ui-client/hooks/use-mastra-store-adapter.tsx:100-102 | the stream starts with no text and no tool calls |
| `StoreAdapter.StoreStream.OnTextPart` | assistant-ui-client/hooks/use-mastra-store-adapter.tsx:105-147 | the accumulated text is the concatenation of all deltas, and every text part of the open message shows it |
| `StoreAdapter.StoreStream.OnToolCallPart` | assistant-ui-client/hooks/use-mastra-store-adapter.tsx:154-206 | the call is remembered and the transcript gets `ToolCallUpdate` |
| `StoreAdapter.StoreStream.OnToolResultPart` | assistant-ui-client/hooks/use-mastra-store-adapter.tsx:207-250 | a result for a call never seen in this stream is ignored; otherwise it is attached to every matching call |
| `LegacyConverter.MastraMessageConverter.constructor` | old/mastra-external-store-adapter/src/convertMastraMessages.ts:22 | the args map starts empty |
| `LegacyConverter.MastraMessageConverter.ContentToParts` | old/mastra-external-store-adapter/src/convertMastraMessages.ts:24-73 | string content becomes one text part; a part list becomes the fold of its parts (where a tool result takes the recorded args, `{}` in place of null), and the args map is updated to the fold's map |
| `LegacyConverter.MastraMessageConverter.ConvertMastraMessages` | old/mastra-external-store-adapter/src/convertMastraMessages.ts:75-108 | fails exactly for an unknown role, with the rendered-object message; system content is kept only when it is a string; tool becomes assistant |
| `LegacyConverter.Known` | old/mastra-external-store-adapter/src/convertMastraMessages.ts:68-72 | the known parts are never more than the parts, and are all of them when none is of another type |
| `LegacyConverter.PartsFoldShowsKnownParts` | old/mastra-external-store-adapter/src/convertMastraMessages.ts:29-72 | the output is the known parts in order, each shown with its fields and a missing one read as ""; a tool result is never shown with null args |
| `LegacyConverter.PartsFoldRecordsLastArgs` | old/mastra-external-store-adapter/src/convertMastraMessages.ts:46-50 | after a run the map holds, for each id, the args of its last call in the run, and otherwise what it held before |
| `LegacyConverter.ToolResultTakesRecordedArgs` | old/mastra-external-store-adapter/src/convertMastraMessages.ts:59-67 | a tool result takes the recorded args and their text, with `{}` in place of recorded null args (the text stays that of null), or `{}` and no args text for an id never seen |
| `LegacyConverter.NullArgsShownAsEmptyObject` | old/mastra-external-store-adapter/src/convertMastraMessages.ts:46-67 | a call with null args followed by its result: the result is shown with `{}` as its args and the text of null as its args text |
| `LegacyConverter.ArgsPersistAcrossMessages` | old/mastra-external-store-adapter/src/convertMastraMessages.ts:22-67 | a result converted after the message holding its call takes that call's args (`{}` if they were null) and their text, where the frontend converter shows `{}` |
| `LegacyUtils.UpdateTextParts` | old/assistant-ui-client/lib/utils.ts:17-32 | a string gets the text appended; a trailing text part is extended; otherwise a text part is appended; the other parts are kept |
| `LegacyUtils.UpdateTextPartsAppendsText` | old/assistant-ui-client/lib/utils.ts:17-32 | whichever branch runs, the shown text grows by exactly the new text and the tool-call ids are kept |
| `LegacyUtils.AgreesWithFrontendReducer` | old/assistant-ui-client/lib/utils.ts:17-32 | on an open assistant message with string or non-empty part content, this updater and the frontend text reducer agree |

## Findings

| source | as written | input that shows it | evidently intended | confidence | as-written member | corrected member |
|---|---|---|---|---|---|---|
| assistant-ui-client/hooks/mastra/MessagePartProcessor.ts:62-68 | `content.push(part)` puts the stored part object itself into the content, and `lastPart.text += part.text` then writes the merged text into that stored part, so every later rebuild starts from text that is already merged | the deltas "a", "b", "c" through `processTextPart` are shown as "abbc" | the shown text is the concatenation of the deltas, "abc" | not executed | `MessagePartProcessor.AsWrittenRepeatsText` | `MessagePartProcessor.CorrectedStreamShowsConcatenation` |
| frontend/mastra/converters.ts:139-148 | the inbound tool-call case rebuilds the part from its args only, so a `result` the tool-result reducer attached to the call is dropped | a tool call followed by its result, converted inbound | the call is shown with its result | not executed | `Converters.InboundDropsAttachedResult` | `Converters.StreamedResultIsShown` |

## Left out

- The `sort` by `order` in `updateMessageContent` is not executed. It is replaced by the invariant that each part's order is its position, which makes the sort the identity.
- The `toolCalls` map that `updateMessageContent` fills is never read, so it is not modelled.
- `console.log`, `console.warn` and `console.error` calls are not modelled, nor the store adapter's `handleError`.
- The React state hooks (`useState`, `useCallback`, `useEffect`), `isRunning`, `isDisabled` and the error state are not modelled. Each `setMessages` updater is modelled as applied at once, in event order.
- `agent.stream` and `processDataStream` are not modelled: each event handler is modelled on its own, with the event as a parameter.
- The handlers that only log (data, file, error, reasoning, finish-step and annotation parts) are not modelled.
- `onEdit`, `onAddToolResult`, `onCancel`, `onReload` and `convertMessage` of the store adapter are empty or plain casts. They are not modelled.
- `coreMessagesToModifiedCoreMessages` and the thread-list loading are not part of this model.
- `cn` and the stub updaters `updateToolCallParts` and `updateToolResultParts` in the old utilities are not modelled: `cn` is styling and the stubs return constants.
- `JSON.stringify` is an uninterpreted parameter, and `toString()` on image and file data is the identity.
- Loop driver: the model has no loop that calls `ProcessTextPart` over a whole stream. `ProcessFirstDelta` and `ProcessNextDelta` carry the state from one delta to the next.
- `SendMessage.OnFinishMessagePart`: requires a non-empty transcript. On an empty one the source builds a message without a role, which is outside the message type. `SendMessage.TranscriptStaysNonEmpty` shows the requirement always holds when the updater runs.
- `StoreAdapter.ConvertAssistantUIMessageToMastraMessage`: the source's unchecked cast passes parts through with their types. The model's `CastPart` carries every part into the core part type: a reasoning part stays reasoning and a part of another type becomes an unknown part. A UI tool call's `argsText` and `isError` are dropped by `CastPart`, where the cast hands them on unchanged; the core part type has no field for them.
- `StoreAdapter.HasTextField`: the source tests `"text" in part`. The model takes text and reasoning parts as the ones carrying a text field.
- `Converters.InboundFold`: the inbound switch covers every part type of its input type, so parts of other types are excluded by the precondition `Typed` rather than modelled.
- `LegacyUtils.UpdateTextParts`: requires a non-empty part list. The source reads the last element of the list without a guard and fails on an empty one.
- `MessagePartProcessor.GetOrCreateAssistantMessage`: requires a non-empty message list. The source reads the role of the last message without a guard and fails on an empty list.
- `MessagePartProcessor.CorrectedStreamShowsConcatenation`: the correction is stated on values (`CorrectedStream`), not as a second in-place processor; `ProcessTextPart` keeps the behaviour as written.
