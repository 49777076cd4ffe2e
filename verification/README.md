# A model of the Chat Completions compatibility gateway

The gateway accepts Chat Completions requests and either passes them on or translates them to the Responses API and
back. It keeps no conversation state: clients store the Responses output items and send them with the next turn.
This project models the four parts in which its guarantees live and proves them for every input, every run and every
interleaving.

**The streaming translator** (`StreamMapper`, `StreamGrammar`, `CallIndexes`, `StreamReassembly`, `StreamMeaning`,
`ReassemblyExact`, `StreamAgreement`, `StreamAnswer`, `Sse`, `JsonReader`, `JsonUnique`). `StreamMapper.Mapper` is the
loop of `map_stream_events` as a class with the loop's own variables as fields. Each method is proved to do what the
pure `Step` and `Run` say; the theorems are about those. What the events *mean* (`Calls`, `NameOf`, `ArgumentsOf`,
`ContentText`) is defined on the whole event sequence: an arguments delta that names its call by an item id belongs to
the call added under that id, be it earlier or later, and a call's name is the first one any event gives it. What a
client *understands* (`Fold`) is defined on the chunks alone. The main result says exactly when the two agree, under
any interleaving of calls; on the way, `StreamReassembly` says what the mapper can *hear*, reading each event by those
before it.

**The runtime shell** (`GeneratorStack`, `Upstream`, `GuardedOutput`, `CompleteRuns`, `Admission`, `Deadline`). A
streamed answer is a stack of generators that are not started, suspended or finished; closing one that was not started
runs none of its body. The stack is a transition system whose actions are pulls, upstream signals (data, end,
exceptions, cancellation) and closing by the consumer. `Admission` runs any number of such stacks beside the requests
still in their handlers; `Deadline` puts a clock around one, with timers that also fire while the generators are
suspended at a chunk.

**The transcript translator** (`RequestMapper`, `TranslationAtoms`, `Translatable`, `ChatService`, `Routing`,
`Pairing`, `PreparedMeaning`, `ToolAccounting`, `ToolContents`, `Replay`). JSON is a tree (`Values`), failure a
`Result`. Meaning is a sequence of atoms (texts, images, files, breakpoints, calls, answers) read from chat messages
by one set of functions and from input items by another.

**The output normaliser** (`Serialization`, `Items`, `LegacyLog`, `ResponseMapper`, `Registry`, `WireFormat`,
`WireReports`). `WireFormat` has the output items of the API as types of their own, an encoding of each under its wire
names, and what is to be reported of it, told from the item alone; `WireReports` proves that both paths report that.

## What the code does differently from its documentation

Each of these comes with its input as a lemma, named last, beside the theorem that has the exact condition.

- `RUNTIME_RESILIENCE.md:15` says upstream streams are closed on total-deadline expiry. On the Responses path, when
  the deadline has passed before the first pull, the mapper was never started, so its `finally` block cannot run and
  the upstream stream stays open (`GeneratorStack.ResourceSafety`; `GeneratorStack.LateStreamStaysOpen`).
- The same line says a disconnect releases the slot. It does not when the guard is closed before its first pull, nor
  when the consumer leaves in mid-stream and closing the upstream raises: the guard then never reaches its release
  (`GeneratorStack.ResourceSafety`, `Admission.SettledIffReleased`; `GeneratorStack.UnstartedLeaks`,
  `GeneratorStack.AbandonedSlotIsKept`).
- A stream can carry two `[DONE]`s: the mapper has sent its own, and closing the upstream then fails
  (`GuardedOutput.ResponsesDoneLast`; `GuardedOutput.SecondDone`).
- A call added without a call id reaches the client as two calls: one with no id and no arguments, one that bears the
  item's id and all the arguments (`ReassemblyExact.Reassembly`; `ReassemblyExact.MissingCallIdSplitsCall`).
- A call that is added again, or only after arguments that carry its call id, reaches the client with its id and name
  doubled (`ReassemblyExact.Reassembly`; `ReassemblyExact.LateAddDoublesId`).
- A call that is added only after arguments that carry its item id alone reaches the client as two calls: the item's id
  with the arguments, and the call's id and name without them (`ReassemblyExact.Reassembly`;
  `ReassemblyExact.EarlyArgumentsSplitCall`).
- A name given only after the first mention of its call never reaches the client, although the loop reads the name of
  every delta (`ReassemblyExact.Reassembly`; `ReassemblyExact.LateNameIsLost`).
- `README.md:274` says `file_search` is converted to the built-in tool. Bridging alone enables nothing: the tool is
  present exactly when the client configured it (`ToolAccounting.ToolsAccountedFor`;
  `ToolAccounting.BridgedFileSearchVanishes`).
- `README.md:19` routes bridged function names to Responses. Automatic routing looks at tool definitions only: a
  transcript whose tool messages are bridged goes native, where nobody searches (`Routing.AutoRoutingLosesNothing`;
  `Routing.NativeLosesBridgedMessage`).
- Replay items of an assistant message are lost when all its tool calls are bridged and it has no content or refusal;
  on any other role they are ignored, though they force the Responses path (`Replay.ReplayStateSurvivesIff`,
  `Replay.ItemsForceResponses`; `Replay.SearchSwallowsReplay`).
- When an assistant message carries replay items beside a bridged call and some text, the call is replayed and its
  answer dropped (`Pairing.PairingSurvivesBridging`; `Pairing.ReplayedCallLosesAnswer`).
- A tool message that carries a bridged tool's name although its call was not bridged disappears and leaves its call
  unanswered (`Pairing.DropsInPairsIffNamed`; `Pairing.MisnamedReplyBreaksPair`).
- A top-level refusal is dropped silently next to content that already holds a refusal part, or that is neither text,
  list nor object (`TranslationAtoms.TranslationPreservesMeaning`; `TranslationAtoms.SecondRefusalDropped`).
- Stream and non-stream differ (`StreamAgreement.StreamAgreesWithNonStream`): in citations on content parts that are
  not text (`StreamAgreement.CitationOutsideText`), in the status of a response without one
  (`StreamAgreement.StatusMadeUp`), in the text of an answer with several messages
  (`StreamAgreement.FirstMessageLeftOut`), and in the finish reason when a function call coincides with
  `max_output_tokens` (`StreamAgreement.CallAtTokenLimit`).

## Model

| member | source | states |
|---|---|---|
| ReassemblyExact.Reassembly | app/mappers/stream_mapper.py:58-167 | folding the chunks by index gives back, under any interleaving, each call's id, name and argument deltas in order, and the content and refusal texts, as the events mean them as a whole: if ids are given, each call is added at most once and before anything else is said of it, no item is added after a delta that had to name its call by the item's id, and each name is there from the first mention; and only then, if item ids are not also call ids and no given id looks like a made-up key |
| StreamMeaning.EachAddedFirstSplits | app/mappers/stream_mapper.py:105-146 | with ids given, the first two of those order conditions say that each call, read as meant, is added at most once and before anything else is said of it |
| StreamMeaning.LateItemHeard | app/mappers/stream_mapper.py:140-146 | an item that comes after such a delta makes the mapper hear of more calls than are meant |
| ReassemblyExact.EarlyArgumentsSplitCall | app/mappers/stream_mapper.py:140-152 | for all ids: arguments with the item id alone, and then the item, reach the client as two calls |
| ReassemblyExact.LateNameIsLost | app/mappers/stream_mapper.py:145-152 | for all ids and names: a name given after the first mention is lost |
| ReassemblyExact.LateAddDoublesId | app/mappers/stream_mapper.py:105-152 | for all ids and names: a call added after arguments that carry its call id has both doubled at the client |
| ReassemblyExact.MissingCallIdSplitsCall | app/mappers/stream_mapper.py:140-152 | for all item ids and names: a call added without a call id becomes two calls at the client |
| ReassemblyExact.NamelessEventsAddCalls | app/mappers/stream_mapper.py:58-62 | the client holds one call per id the mapper heard and one more for every event that spoke of a call without an id |
| ReassemblyExact.ClientHoldsIndexes | app/mappers/stream_mapper.py:58-62 | whatever the ids, and whether or not the stream has ended, the client holds a call for each index in the table and no other |
| ReassemblyExact.ReservedIdHidesMissingId | app/mappers/stream_mapper.py:58-62 | a given id equal to a made-up key merges with the nameless call, which is why the converse excludes such ids |
| ReassemblyExact.SharedIdHidesLateItem | app/mappers/stream_mapper.py:140-146 | an item id that is also a call id can hide a late item, which is why the converse keeps the two apart |
| StreamReassembly.LiveReassembly | app/mappers/stream_mapper.py:58-167 | in every state before the end, a client of calls that are added first and once holds exactly what the mapper could hear so far, each event read by those before it |
| StreamReassembly.FirstChunkNamesCall | app/mappers/stream_mapper.py:105-167 | with ids given, in every state, ended or not, exactly one index per call heard occurs and the first chunk of each index carries that call's id |
| CallIndexes.AlwaysDense | app/mappers/stream_mapper.py:58-62 | in every reachable state, missing ids included, the index map is a bijection onto 0..n-1 and every emitted index is below n |
| CallIndexes.EntriesNeverChange | app/mappers/stream_mapper.py:58-62 | an index once given stays with its key for the rest of the run |
| StreamGrammar.OutputGrammar | app/mappers/stream_mapper.py:64-288 | output is empty, or the role chunk and deltas, or those and one closing group; closed exactly when a terminal event was read |
| StreamGrammar.DoneIsLast | app/mappers/stream_mapper.py:272-288 | `[DONE]` occurs at most once, only last, and exactly when a terminal event occurred |
| StreamGrammar.PrefixMonotone | app/mappers/stream_mapper.py:64-288 | further events only extend the output |
| StreamGrammar.TerminalIsFinal | app/mappers/stream_mapper.py:272-288 | nothing after the first terminal event has any effect |
| StreamMapper.Mapper.CallIndex | app/mappers/stream_mapper.py:58-62 | the in-place table gains at most the call's key, with the next free index, and the result is its entry |
| StreamMapper.Mapper.AddArguments | app/mappers/stream_mapper.py:140-167 | an arguments delta resolves its call and name through the remembered items and announces the call once |
| StreamMapper.Mapper.CompleteItem | app/mappers/stream_mapper.py:169-216 | a done item is collected with its citations and tool event and yields no chunk |
| StreamMapper.Mapper.Finish | app/mappers/stream_mapper.py:218-273 | the end of a response replaces the collected items by its output when that is not empty and yields the closing chunks of the specification, which StreamAgreement.ClosingSays reads one by one |
| StreamMapper.Mapper.Take | app/mappers/async_stream_mapper.py:57-283 | one turn of the loop, role chunk first, is one step of the specification |
| StreamMapper.Mapper.MapStreamEvents | app/mappers/stream_mapper.py:42-288 | the whole loop, early return included, is the run of the specification over all events |
| StreamAgreement.ClosingSays | app/mappers/stream_mapper.py:218-273 | a stream that ends with a response closes with one final chunk, whose finish reason is "length" iff the response ran out of tokens, else "tool_calls" iff an item is a function call, else "stop"; then the usage chunk iff it was asked for, and `[DONE]` |
| WireReports.StreamRead | app/mappers/stream_mapper.py:169-260 | for all output items as the API sends them: the final chunk reports their citations, tool events, file results, interpreter outputs, log steps, last text, id, status and reason, and the finish reason they call for |
| WireReports.FailureRead | app/mappers/stream_mapper.py:275-288 | a failure shows the message, type and code of the event's error or else of its response's, with the stand-ins where there is none, and then `[DONE]` alone |
| StreamAgreement.StreamAgreesWithNonStream | app/mappers/stream_mapper.py:218-260 | if the done items are the response's output, the final chunk of the output reports the same items, results, steps and events as the non-stream answer; citations, assistant text, status and the emitted finish reason each agree under an exact condition |
| StreamAnswer.FoldedAgreesWithNonStream | app/mappers/response_mapper.py:79-98 | for a stream in good order that ends with the response whose output it announced as done: the calls a client folds are the answer's tool calls, in order, and its text the answer's, iff the deltas concatenate to the done items |
| StreamAgreement.TextsAgree | app/mappers/stream_mapper.py:35-39 | the text of the last message equals the text of all messages, both stripped, iff only white space precedes it |
| StreamAgreement.CitationOutsideText | app/mappers/stream_mapper.py:206-216 | input on which the streamed citations differ |
| StreamAgreement.CallAtTokenLimit | app/mappers/stream_mapper.py:233-236 | input on which the finish reasons differ |
| StreamAgreement.StatusMadeUp | app/mappers/stream_mapper.py:230 | input on which the status differs |
| StreamAgreement.FirstMessageLeftOut | app/mappers/stream_mapper.py:35-39 | for every two texts, the first not blank: the stream leaves the first message out |
| StreamAgreement.CitationsAgree | app/mappers/stream_mapper.py:206-216 | streamed citations equal the non-stream ones iff no URL citation sits on a part that is not text |
| StreamAgreement.CallsSeen | app/api/chat_completions.py:135-140 | the non-stream tool calls are empty exactly when the stream's finish-reason test finds no function call |
| ResponseMapper.NormalizeFinalResponse | app/mappers/response_mapper.py:71-178 | the one loop that fills six lists computes each as its own independent pass over the output, in order |
| WireReports.AnswerRead | app/mappers/response_mapper.py:71-178 | for all output items as the API sends them, field by field under their wire names: the answer holds the text, calls, citations, events, results, outputs, log steps, id, status and reason that the items tell, in order |
| ResponseMapper.AppendAnnotationCitations | app/mappers/response_mapper.py:57-68 | exactly the URL citations of the part are appended, in order |
| LegacyLog.ToLegacyLogSteps | app/mappers/legacy_log_mapper.py:45-174 | the loop with its filled and reset pending list yields the steps defined by looking back to the last message |
| LegacyLog.BridgeNameMap | app/mappers/legacy_log_mapper.py:9-14 | each built-in is shown under the first non-empty display name of a bridge to it, and is absent if there is none |
| WireReports.LogRead | app/mappers/legacy_log_mapper.py:45-174 | for all output items as the API sends them: the steps are a message with the calls since the last one, and for a built-in call its id, shown name, arguments and result, each told from the item |
| WireReports.FirstNameShown | app/mappers/legacy_log_mapper.py:9-14 | the name shown for a built-in is that of the first bridge to it that has a non-empty one |
| LegacyLog.GroupingConservesCalls | app/mappers/legacy_log_mapper.py:53-71 | the calls carried by message steps, then those after the last message, are all function calls in order: none lost, doubled or moved |
| LegacyLog.CallsAndResultsAlternate | app/mappers/legacy_log_mapper.py:73-172 | every built-in call step is followed at once by the tool step with its id and name, and tool steps occur nowhere else |
| LegacyLog.StepCount | app/mappers/legacy_log_mapper.py:45-174 | the number of steps is the messages plus twice the built-in calls |
| Serialization.JsonableFixesNormalForms | app/mappers/response_mapper.py:9-20 | the values that serialisation leaves alone are exactly the plain trees without a null field |
| Serialization.JsonableIdempotent | app/mappers/response_mapper.py:9-20 | items replayed over any number of turns never drift |
| Serialization.JsonableKeepsEveryPath | app/mappers/response_mapper.py:9-26 | at any depth, the same paths lead to the same things before and after: nothing visible is lost or moved |
| Serialization.FieldsKept | app/mappers/response_mapper.py:9-20 | a dict keeps the fields that are not null, an object those of them that do not begin with an underscore |
| GeneratorStack.ResourceSafety | app/api/chat_completions.py:223-267 | over every run the slot is released at most once and only at the end, released iff the guard was started and not abandoned with a failing close; the upstream is closed exactly once iff the guard was started, except on the Responses path when the first pull came late |
| GeneratorStack.AlwaysAccounted | app/services/async_chat_service.py:25-48 | in every reachable state the latch, the generators, the closes and the releases stand as the guard's position says |
| GeneratorStack.NextAccounted | app/api/chat_completions.py:169-175 | every pull, upstream signal and close keeps that account |
| GeneratorStack.LateStreamStaysOpen | app/services/async_chat_service.py:25-29 | the run in which a late first pull leaves the upstream stream open |
| GeneratorStack.AbandonedSlotIsKept | app/api/chat_completions.py:257-259 | the run in which a failing close keeps the slot |
| GeneratorStack.UnstartedLeaks | app/api/chat_completions.py:223-259 | a guard closed before its first pull releases neither slot nor upstream |
| GuardedOutput.AlwaysForwards | app/api/chat_completions.py:223-256 | in every run the consumer has received a prefix of what the mapper yields for the events the upstream sent, all of it when nothing is pending, or all of it and then only the guard's error frame and `[DONE]` |
| GuardedOutput.ResponsesDoneLast | app/api/chat_completions.py:223-256 | on the mapper path `[DONE]` is at most once and last, iff no close failed after the mapper's own `[DONE]` |
| GuardedOutput.AlwaysNativeForwards | app/api/chat_completions.py:169-175 | on the native path the consumer has received the data the upstream sent, in order, and after it at most `[DONE]`, or the guard's error frame and `[DONE]` |
| Upstream.AllRead | app/services/async_chat_service.py:31-35 | in every run the events consumed and the data forwarded are those the upstream delivered to an outstanding pull: none dropped, doubled or moved |
| CompleteRuns.CompleteRun | app/api/chat_completions.py:233-259 | when nothing fails, a consumer that keeps pulling receives all the mapper yields up to the terminal event; then the upstream is closed once and the slot given back once |
| CompleteRuns.CompleteNativeRun | app/api/chat_completions.py:169-175 | the same on the native path: each datum of the upstream in order, `[DONE]`, one close, one release |
| CompleteRuns.FailureReported | app/api/chat_completions.py:237-259 | after any run, an exception at a waiting guard closes the upstream once and shows the code of its kind, then `[DONE]`, then the release; or ends the guard without a word iff what is on its way is a cancellation no timer owns |
| GuardedOutput.NativeDoneLast | app/api/chat_completions.py:169-175 | on the native path `[DONE]` is at most once and last in every run |
| GuardedOutput.DoneUnlessEndsShort | app/api/chat_completions.py:237-256 | whatever closing the upstream raises, a step ends the guard without `[DONE]` exactly when the consumer closes it before `[DONE]`, a cancellation arrives or comes out of closing, or the Responses stream ends without a terminal event |
| GuardedOutput.SecondDone | app/mappers/async_stream_mapper.py:282-285 | counterexample: a failing close after the mapper's `[DONE]` makes the guard send another |
| Admission.InflightLimiter.TryAcquire | app/api/chat_completions.py:39-44 | a slot is taken iff fewer than `capacity` are, and then the count grows by one |
| Admission.InflightLimiter.Release | app/api/chat_completions.py:46-49 | one slot is given back, none below zero |
| Admission.AlwaysConserved | app/api/chat_completions.py:320-401 | over all runs of any number of requests, the count equals the admitted requests still holding their slot, and never exceeds capacity |
| Admission.ActiveIsOpen | app/api/chat_completions.py:39-49 | in every run the count is the number of admitted requests that are not over |
| Admission.Effects | app/api/chat_completions.py:320-401 | in every run an arriving request is admitted iff fewer than `capacity` are not over; a handler that is done or handed off synchronously is over; a handed-off stream lives on as a new guard and grows by each action |
| Admission.SlotReturns | app/api/chat_completions.py:354-394 | a request that leaves its handler lowers the count by one at once, unless its stream was handed off |
| Admission.ReleaseNeverAbsorbed | app/api/chat_completions.py:46-49 | every release any run performs finds a slot to give back: the zero test hides no surplus release |
| Admission.SettledIffReleased | app/api/chat_completions.py:390-401 | the count is back at 0 exactly when every admitted request was answered, or its stream started and ended without an abandoning close that failed |
| Deadline.CreationBounded | app/services/async_chat_service.py:60-68 | the upstream call succeeds iff it answers before start + limit, however much time preparation took, and hands on that same instant |
| Deadline.DeadlineAsyncIterable.Aclose | app/services/async_chat_service.py:37-48 | the wrapped stream is closed by the first call only, and state and exception are those of the stack's wrapper-closing step |
| Deadline.DeadlineAsyncIterable.Begin | app/services/async_chat_service.py:25-29 | iteration starts with the time left, or closes the stream and ends in error: together the stack's first pull on the native path |
| Deadline.TimedRefinesUntimed | app/services/async_chat_service.py:94-113 | every timed run is a run of the untimed stack, so the resource and output results hold under the clock |
| Deadline.OneDeadline | app/api/chat_completions.py:232-236 | for every clock trace an upstream signal, and a pull of a guard suspended at a chunk, get through iff they come before start + limit; a later signal becomes the wrapper's cancellation, never the guard's, and a later pull finds the guard closed |
| Deadline.NothingAfterDeadline | app/services/async_chat_service.py:25-35 | over whole traces: from start + limit on the upstream is read no further and the consumer gets no more of its data, only the guard's error frame and `[DONE]`; a late first pull reads nothing |
| Deadline.DeadlineReported | app/api/chat_completions.py:241-244 | an expired deadline reads no event and shows the consumer a timeout error, iff closing the upstream is not attempted, succeeds or itself reports a timeout |
| RequestMapper.ToResponsesInput | app/mappers/request_mapper.py:184-224 | the loop yields each message's items in order, or the error of the first message that has one |
| RequestMapper.FailureStays | app/mappers/request_mapper.py:184-224 | a transcript with a prefix that fails, fails with that prefix's error whatever follows |
| Translatable.TranslatesIff | app/mappers/request_mapper.py:148-224 | a transcript translates iff each message does: replay items always, else iff its parts do and an assistant's refusal is text |
| Translatable.PartTranslatesIff | app/mappers/request_mapper.py:38-133 | a part translates iff it is a text, image, file or refusal part with its field in order and no field but the known ones, or is already of the Responses kind |
| TranslationAtoms.TranslationPreservesMeaning | app/mappers/request_mapper.py:148-224 | when a transcript without replay state translates, the items' atoms equal the messages' atoms in order, each under the role name the client sent, iff every field sits on its role and no refusal is dropped; otherwise something is missing |
| TranslationAtoms.RolesKept | app/mappers/request_mapper.py:186-223 | every item a message becomes bears that message's own role name, or is a call or a call's output |
| TranslationAtoms.ItemsOfMessage | app/mappers/request_mapper.py:196-223 | a message becomes one item, an assistant with calls one for each call and one before them iff it says anything |
| PreparedMeaning.PreparedSays | app/services/chat_service.py:249-330 | when every field sits on its role and no refusal is dropped, the whole payload says what the input items say, then what each message, or the replay items in its place, says but for bridged calls and their answers, and then, as the user, the searches those answers stood for |
| PreparedMeaning.PreparedIff | app/services/chat_service.py:85-174 | a request is prepared iff it asks for nothing translation cannot carry and each message that bridging leaves in it translates |
| TranslationAtoms.SecondRefusalDropped | app/mappers/request_mapper.py:159-163 | for every two refusals: the one beside the content is lost although translation succeeds |
| TranslationAtoms.PartPreserved | app/mappers/request_mapper.py:38-133 | a content part that translates keeps its text, image and detail, file fields and cache breakpoint |
| TranslationAtoms.ToolOutputPreserved | app/mappers/request_mapper.py:174-181 | tool output that translates keeps its pieces, an object as its JSON text |
| TranslationAtoms.NothingUnreadTranslates | app/mappers/request_mapper.py:9-12 | a part with a non-null field that translation does not read fails; native Responses parts pass unchanged |
| Routing.AutoRoutingLosesNothing | app/services/chat_service.py:45-73 | automatic routing picks the native path exactly when stripping the extension fields changes nothing, no tool definition is bridged, and reasoning with tools comes only with audio; of a request so routed, preparation would have enabled nothing iff no tool message is replaced by a web search, and executed nothing iff none is replaced |
| Routing.RequestedMode | app/services/chat_service.py:45-52 | a mode asked for is the mode taken; the only failure is the native one without an adapter, and without an adapter nothing goes native |
| Routing.NativeLosesBridgedMessage | app/services/chat_service.py:56-62 | the transcript that goes native although preparation would have turned web search on |
| ChatService.ValidateResponsesCompatibility | app/services/chat_service.py:85-174 | conflicts are reported iff some part of the request is outside what translation carries |
| ChatService.CollectBridgedCalls | app/services/chat_service.py:233-247 | the first pass finds the bridged calls of all assistant messages, the last one with an id winning |
| ChatService.CollectedKeys | app/services/chat_service.py:233-247 | an id is bridged iff some assistant call bears it with a bridged name and a non-empty id |
| ToolContents.BridgedIff | app/services/chat_service.py:233-247 | over the messages: an id is bridged iff an assistant's call bears it with one of the four bridged names |
| ToolContents.LastCallWins | app/services/chat_service.py:233-247 | a bridged id stands for the name and the parsed arguments of the last bridged call that bears it |
| ChatService.PrepareRequest | app/services/chat_service.py:197-338 | all loops together compute the model name, payload, tools, include list and bridge record of the two-pass specification, or the error |
| ToolContents.PreparedCarries | app/mappers/request_mapper.py:225-278 | the client's model or the default one; each unbridged tool in order with its own description, parameters and strictness or the defaults; the built-in tools with every field the client gave, and the default container iff it gave none; each include entry iff it is called for |
| ToolContents.AnswerBecomesSearch | app/services/chat_service.py:264-308 | a tool message is replaced iff it answers a bridged call or bears a bridged name; its record has the call's or else the message's name and query, and the user's request for that query takes its place |
| ToolContents.PreparedRecords | app/services/chat_service.py:207-217 | the bridge record is one entry for each tool definition taken over, by its name, and then those of the messages, in order |
| ToolContents.BridgeTable | app/tools/registry.py:14-22 | exactly four names are bridged, each to its built-in and the arguments its query may stand in |
| ChatService.MergeBuiltinTools | app/mappers/request_mapper.py:243-259 | built-in tools are appended after the custom ones, each when enabled |
| ChatService.BuildIncludeList | app/mappers/request_mapper.py:262-278 | the include list computed by appending is the specified one |
| Registry.QueryOfFirstSettled | app/tools/registry.py:25-32 | the query is that of the first candidate which is a non-blank text or a list of texts, the non-blank ones joined by spaces, whatever follows; it is never blank and has no outer white space |
| Pairing.PairingSurvivesBridging | app/services/chat_service.py:249-330 | in a paired conversation, input items and replay items counted, the payload is paired iff bridging drops both or neither of every call and its reply; a bridged id occurs in the payload iff input items or kept replay items speak of it |
| Pairing.DropsInPairsIffNamed | app/services/chat_service.py:264-275 | without replay items that condition says that no tool message bears a bridged name without its call being bridged |
| Pairing.ReplayedCallLosesAnswer | app/services/chat_service.py:251-262 | the transcript whose replayed call loses its answer |
| Pairing.MisnamedReplyBreaksPair | app/services/chat_service.py:265-275 | the transcript whose misnamed reply leaves its call unanswered |
| Pairing.ConsistentNames | app/services/chat_service.py:264-275 | a client whose tool messages name the call they answer, or nothing, meets that condition |
| Pairing.PairedPositions | app/mappers/request_mapper.py:196-221 | in a paired payload every call has exactly one output, later, and its id occurs nowhere else |
| ToolAccounting.ToolsAccountedFor | app/services/chat_service.py:207-338 | custom tools keep their order; web search is there once iff configured or bridged, file search and the interpreter iff configured; each base include entry is there iff its tool is |
| ToolAccounting.BridgedFileSearchVanishes | app/services/chat_service.py:225-231 | the request whose bridged file_search leaves no tool at all |
| ToolAccounting.EnableAllEffect | app/services/chat_service.py:218-231 | bridges can turn web search on, never file search, and turn nothing off or over |
| ToolAccounting.ExecutionsUse | app/services/chat_service.py:207-294 | a bridge to a built-in is recorded iff a tool definition or a tool message of the request is bridged to it |
| Replay.LosslessReplay | app/services/chat_service.py:328-330 | for conversations of any length in which bridging swallows no reply, takes no call from a new message and replaces none, bridged tools or not, the stateless payload is the log a stateful server would hold, followed by the new messages |
| Replay.UnbridgedSpared | app/services/chat_service.py:233-247 | in particular when no tool call and no tool message names a bridged tool |
| Replay.SparedEarlier | app/services/chat_service.py:251-275 | what bridging spares in a transcript it spares in every earlier part of it |
| Replay.PayloadExtends | app/mappers/request_mapper.py:189-194 | each turn's payload is the previous payload, then that turn's serialised output, then the new messages |
| Replay.PreparedPayload | app/services/chat_service.py:328-330 | preparation returns the input items followed by that payload, or its error |
| Replay.ReplayStateSurvivesIff | app/services/chat_service.py:251-262 | replay items reach the payload whole if they sit on an assistant message that is not dropped (all its calls bridged, nothing else in it); on every other message they make no difference whatever they are |
| Replay.ItemsForceResponses | app/services/chat_service.py:53-57 | replay items on any role send the request to the Responses path |
| Replay.SearchSwallowsReplay | app/services/chat_service.py:251-262 | for all replay items: beside a lone bridged call they vanish without an error |
| Replay.ToolCallRoundTrip | app/mappers/response_mapper.py:91-98 | the tool calls of any output, sent back as a plain assistant message, become the same ids, names and arguments in the same order |
| Sse.FramingRoundTrip | app/mappers/stream_mapper.py:15-16 | an event stream decoder (section 9.2 of the WHATWG HTML Living Standard) gives back exactly the framed bodies |
| JsonUnique.PayloadsRecovered | app/mappers/stream_mapper.py:15-16 | what the decoder gives back determines the payload sequence, JSON values and `[DONE]` alike |
| JsonUnique.StreamUnderstood | app/mappers/stream_mapper.py:15-16 | decoding the event stream and reading each event as JSON text gives back every payload, in order, and `[DONE]` where it was sent |
| JsonReader.ReadsBack | app/mappers/stream_mapper.py:15-16 | a reader of JSON text (RFC 8259, integers) gives back the value that was dumped and stops right after it |
| JsonUnique.DumpsUnique | app/mappers/stream_mapper.py:15-16 | dumped JSON is unambiguous: equal texts come from equal values, and end at the same place |
| Sse.DumpsOneLine | app/mappers/stream_mapper.py:15-16 | JSON text has no control character, whatever its strings hold (section 7 of RFC 8259), so no frame breaks |
| Sse.DoneIsUnique | app/mappers/stream_mapper.py:272 | no JSON payload can be mistaken for the closing `[DONE]` |

## Left out

- The OpenAI SDK, httpx, FastAPI, Starlette and the adapters: the upstream is an arbitrary sequence of signals.
- Request and response validation by pydantic: the model starts from validated requests; SDK objects are maps from
  field names to values, so a required field of an output item that is absent reads as null instead of raising.
- Ids made by `uuid`, timestamps, logging, the audit record, usage figures, headers, HTTP error bodies and the key check.
- `json.loads` is an arbitrary partial function; `json.dumps` and `str` of tool data are symbolic values that only keep
  what they were made from. Byte-level JSON appears in `Sse` alone.
- asyncio itself: cancellation is a signal that can arrive at any pull; a task that is never resumed is not modelled.
- Generator objects: the stack is a transition system on values rather than suspended method bodies, and the
  asynchronous mapper is the same `Step` with its `finally` block in `GeneratorStack`. Tracebacks, garbage collection
  of abandoned generators and the lock around the limiter's count are not captured.
- GeneratorStack.ResourceSafety: assumes that constructing the streaming response after the hand-off does not fail.
- Admission.SettledIffReleased: says nothing of a returned stream that the server never starts; such a slot stays taken.
- Deadline.OneDeadline: timers are ideal, firing exactly at their instant and before anything that comes at or after it;
  closing takes no time, so no timer fires inside a `finally` block. A task cancelled while the generators are suspended
  leaves the guard to the event loop's finaliser, which closes it.
- GuardedOutput.AlwaysForwards: an exception raised by the mapper's or native generator's own body is a step when it is
  raised on arrival of an item (`Fault`), not between two chunks of one event (after the role chunk of the first event,
  or before the usage chunk of the last).
- JsonReader.ReadsBack: numbers are integers, `default=str` is not modelled, and no string holds an unpaired surrogate.
- ChatService.ValidateResponsesCompatibility: fields the translation does not know are flags, so the names listed in the
  message are not modelled, and kinds of unsupported tool or call fields share one entry.
- ChatService.PrepareRequest: tool choice and the optional parameters passed through are not modelled.
- TranslationAtoms.TranslationPreservesMeaning: an unknown field of a native Responses part is no atom; that such parts
  pass unchanged is in TranslationAtoms.NothingUnreadTranslates.
- StreamAgreement.StreamAgreesWithNonStream: says nothing of the payloads of tool events, which the stream reports for
  web search alone.
- `_copy_prompt_cache_breakpoint`, `_to_responses_content_part` and `_native_payload` build or strip a dict in place; the
  model states their results as functions.
- The synchronous wrappers `_native_sse` and `_timeout_safe_sse`, `ToolExecutor`, `to_responses_text_config` and the
  LangChain client: they would add only easy members.
