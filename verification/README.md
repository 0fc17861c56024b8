# A verified model of the protocol translator

The repository translates between three LLM wire protocols: Chat Completions,
Anthropic Messages and OpenAI Responses. Requests are rebuilt for the upstream's
protocol; responses, and above all streams, are rebuilt for the client's. This
project models the parts of it that are hard to get right and proves, for all
inputs, what they promise.

- **Stream converters.** One class per pair of protocols, with the fields and the
  loops of the original, proved against a pure specification of one step; the
  theorems are then about whole runs of that specification. For the Messages and
  Chat Completions targets a client is modelled that rebuilds the message from
  the events and refuses whatever breaks the protocol (`ClaudeClient`,
  `ChatClient`); for the Responses target every well-formed stream is shown to be
  one canonical event sequence of the turn it says (`TurnPieces`), which is also
  how two different converters are shown to emit the same events (`RouteParity`).
  What holds of other streams is in `MessagesPositions`, `MessagesText`,
  `MessagesEnds`, `ChatTerminals`, `ResponsesClaudeMeaning` and
  `ResponsesClaudeDeltas`; what a Responses client receives for each output item, in
  terms of what the upstream sent, is in `ResponsesItems` and `StreamedItems`.
- **Framing and lines.** The incremental parser against one that sees all bytes
  (`Framing`, `FrameFields`), the independence of every converter from how the
  network cuts its bytes (`LineFeed`, `FrameFeed`), and from printed bytes to what
  the clients have read (`ChatBytes`, `MessagesBytes`, `ResponsesBytes`).
- **Tool identity.** Flattening of namespaced and custom tools and its inverse
  (`ResponseTools`, `ToolIdentities`, `ToolChoices`), what a normalized request is
  sent with and when it is refused (`SentRequests`), with a concrete JSON decoder
  (`Json`) for the input that custom tools wrap (`CustomInput`, and over whole
  streams `StreamedInputs`).
- **Concurrency.** The host bridge and the plugin's lifecycle as transition
  systems in which the steps of all parties interleave freely (`HostBridge`,
  `Lifecycle`); the stream pump against every outcome of its reads, emits and
  watchdog (`StreamPump`), alone and driving a converter (`PumpedClaude`).
- **Catalog.** The snapshot and its index (`Catalog`, `CatalogManager`), and where
  each entry is routed (`CatalogRoutes`).
- **Requests, batch conversions, reasoning controls** (`MessageOrder`,
  `ChatHistory`, `ToldHistory`, `MessagesBatch`, `ChatBatch`, `ChatResponsesBatch`,
  `Thinking`).

How to read it: a module with a class holds the specification first and the class
after it; `Valid()` ties fields to the specification's state, and each method
says what the specification's function says. A module named `...Meaning` or
`...Pieces` holds the theorems about that specification. JSON decoding, digests,
URL functions and redaction are arbitrary functions passed as parameters, so the
theorems hold for all of them; strings stand for byte strings. One Go converter
that switches on its target format is one class per target here. `hide` statements
only keep proofs quick.

Facts about the code that the proofs brought out, each stated by a member below:

- On the Messages target a fragment that resumes an earlier call lands on a block
  already stopped (`ChatClaudeMeaning.DeltasNameTheOpenBlockIff`,
  `ResponsesClaudeDeltas.DeltasNameTheOpenBlockIff`); from chat upstreams the
  arguments still arrive whole.
- A flush can end a message while a block that began after the finish reason is
  open (`ChatClaudeMeaning.FlushEndsTheFinished`).
- A complete copy of a call's arguments followed by fragments reaches the client
  twice, and one that follows an empty fragment never does; exactly when they
  arrive once is `ResponsesCalls.ArgumentsArriveOnceIff`, the smallest streams of
  both kinds are `ResponsesCalls.LaterFragmentDoublesArguments` and
  `ResponsesCalls.EmptyFragmentLosesArguments`.
- On the Messages target a call opened by a fragment alone does not make the stop
  reason `tool_use`; on the Chat Completions target it does
  (`ResponsesClaudeMeaning.EveryStreamIsAccepted`, `ResponsesOpenAIMeaning.ReplyIsRead`).
- Messages blocks that start out of index order are announced at positions that the
  final output gives to others (`MessagesPieces.OutOfOrderStartsMove`); exactly which
  orders keep them is `MessagesPositions.AnnouncedIsFinalIff`.
- Text of a Messages stream is sent in order of arrival and rendered in order of
  blocks: text that goes back to an earlier text block is rendered in another order
  (`MessagesPieces.TextForAnEarlierBlockMoves`), text for a call is sent under the
  index of the call and never rendered (`MessagesText.TextForACallIsLost`). When
  the rendered text is the sent text is `MessagesText.SentTextIsRenderedIff`, when
  every text delta names an announced message is
  `MessagesText.EveryDeltaNamesItsItemIff`.
- Converting a complete chat response at once puts the message first, although its
  comment claims parity with the stream, which keeps the order of arrival
  (`ChatResponsesBatch.StreamAgreesWithBatchIff`).
- The two converters of Responses streams go on past a terminal event inside one
  chunk, so what follows it depends on how the network cuts the bytes; exactly when
  it does is `LineFeed.LooseChunkInvarianceIff`, examples are the two
  `TextBehindTheTerminal`.
- [DONE] without any choice before it sends a message_stop that ends no message
  (`ChatClaudeMeaning.DoneEndsTheMessage`).
- A tool block without fragments never reaches a Chat Completions client
  (`MessagesToOpenAI.ToolAppearsIffFed`), although it makes the finish reason
  "tool_calls" (`MessagesToOpenAI.UnfedToolsStillFinish`).
- A conversion failure without a text closes the downstream like success
  (`PumpedClaude.SilentFailure`); exactly when the label is empty is
  `StreamPump.SilentCloseIff`.
- In the grace window the in-flight count is released before the late stream is
  closed (`HostBridge.GraceWindowReleasesEarly`).
- Data lines that are empty are lost in front of the first that is not
  (`FrameFields.FieldsSay`).
- Effort validation and budget derivation disagree in three cases, although the
  comment on validation says they match (`Thinking.ValidatedEffortsHaveBudgets`).

`dafny verify dfyconfig.toml` checks the whole project.

## Model

| member | source | states |
|---|---|---|
| Framing.SSEFramer.Push | internal/adapter/shared/shared.go:37-39 | a chunk joins the buffer; the open block is untouched |
| Framing.SSEFramer.Line | internal/adapter/shared/shared.go:52-80 | one line updates the open block or completes a frame, as the line function says |
| Framing.SSEFramer.Next | internal/adapter/shared/shared.go:43-82 | returns the next complete frame of the buffered bytes and leaves the rest; terminates because the buffer shrinks |
| Framing.SSEFramer.Drain | internal/adapter/shared/shared.go:43-82 | calling Next until it has nothing yields what consuming the buffer line by line yields |
| Framing.FramerRefinesParser | internal/adapter/shared/shared.go:22-82 | under every chunking the frames are those of a parser that sees all bytes at once |
| FrameFields.FieldsSay | internal/adapter/shared/shared.go:43-82 | a block is a frame if and only if it has an event or data line; its name is what the last event line gives, trimmed, its data the payloads of its data lines one under the other, those before the first non-empty one lost; comments and other lines say nothing |
| Framing.RawBytesConserved | internal/adapter/shared/shared.go:22-82 | in raw mode emitted blocks, pending block and buffer together are exactly the bytes pushed |
| Framing.ParsingUndoesPrinting | internal/adapter/shared/shared.go:528-536 | printed events parse back to their names and payloads, unchanged if and only if names are trimmed and payloads do not end in a carriage return |
| LineFeed.ConsumeSplit | internal/adapter/chatcompletions/stream.go:78-97 | bytes that arrive later are as good as bytes that were there at once, with the loop stopping at the end of a stream or a failure |
| LineFeed.ChunkInvariance | internal/adapter/chatcompletions/stream.go:78-97 | up to its end or failure a converter gives the same events, state and outcome for every chunking of the bytes |
| LineFeed.LooseChunkInvarianceIff | internal/adapter/responses/stream.go:250-273 | a loop that does not stop at the end of its stream gives, in chunks, the same output and outcome up to that end if and only if what follows the end in its own chunk emits nothing and does not fail |
| LineFeed.FeedOnInvariance | internal/adapter/responses/stream.go:250-273 | under a caller that feeds every chunk, such a loop is independent of the chunking without a condition |
| FrameFeed.LateFrameShows | internal/adapter/responses/stream.go:250-273 | a frame behind the end is converted if it came in the chunk of the end, and not read if it came in the next |
| FrameFeed.ConsumeByFrame | internal/adapter/messages/stream.go:73-91 | the frame loop is the line loop with the framer in front |
| ChatBytes.PrintedIsRead | internal/adapter/shared/shared.go:540-542 | bytes that print payloads as data lines, with any white space around them and any other lines between, are read as exactly the chunks they decode to; with the line "data: [DONE]" behind them the stream is over, without it it is not |
| ChatBytes.PrintedStreamReachesMessages | internal/adapter/chatcompletions/stream.go:281-358 | cut in any way, such bytes give the Messages client the whole message once [DONE] came, if any chunk has a choice, and what the chunks say so far before |
| ChatBytes.PrintedStreamReachesResponses | internal/adapter/chatcompletions/stream.go:421-452 | cut in any way, the printed chunks of a turn, its usage trailer and [DONE] give the Responses client that turn, item by item |
| MessagesBytes.PrintedStreamReachesResponses | internal/adapter/messages/stream.go:73-163 | cut in any way, a printed Messages stream, its events named by event lines or by their payloads, gives the Responses client the turn it tells, item by item |
| MessagesBytes.PrintedStreamReachesChat | internal/adapter/messages/stream.go:73-163 | cut in any way, any printed events give the Chat Completions client what they come to; the stream is over with message_stop, and fails exactly as the events do |
| ResponsesBytes.PrintedStreamReachesMessages | internal/adapter/responses/stream.go:250-371 | cut in any way, a printed Responses stream up to its terminal event gives the Messages client what its events come to, accepted if and only if response.created came first and once |
| ResponsesBytes.PrintedStreamReachesChat | internal/adapter/responses/stream.go:250-371 | and so for the Chat Completions client |
| ResponseTools.ToolContext.Leaf | internal/adapter/shared/responses_tools.go:84-101 | one function or custom declaration: its wire name is registered, a second declaration of the same identity adds nothing, a collision fails |
| ResponseTools.ToolContext.Add | internal/adapter/shared/responses_tools.go:55-102 | one declaration: namespaces are flattened, optional hosted tools dropped for targets that strip them, the rest rejected |
| ResponseTools.ToolContext.AddList | internal/adapter/shared/responses_tools.go:103-107 | a list of declarations in order, up to the first failure |
| ResponseTools.ToolContext.Register | internal/adapter/shared/responses_tools.go:103-124 | all declarations of a request, those of the tools field and then those of additional_tools items, up to the first failure; the other items are the conversation |
| ResponseTools.ToolContext.Normalize | internal/adapter/shared/responses_tools.go:42-189 | a request: the registered declarations, the rewritten conversation, the tool choice, and parallel_tool_calls, which goes with the choice when no tool is left |
| ToolChoices.ChosenToolIsSent | internal/adapter/shared/responses_tools.go:165-186 | when hosted tools were dropped, the choice sent asks for nothing that is not sent with it; without any tool left neither it nor parallel_tool_calls is sent |
| ToolChoices.ChoiceFollowsItsTool | internal/adapter/shared/responses_tools.go:146-164 | the choice of a declared namespaced function takes its wire name, which stands for that function on the way back |
| SentRequests.ToolsAreSent | internal/adapter/shared/responses_tools.go:42-102 | on success the tools sent are, in order, the declarations that stay: each function once, under its wire name and otherwise as declared; a custom tool as a function whose one required parameter is a string input; tools the upstream runs itself verbatim; nothing for hosted tools that are dropped |
| SentRequests.WireNames | internal/adapter/shared/responses_tools.go:218-232 | a name in no namespace stays; one in a namespace is joined to it and, if that is longer than 64, cut to 50 and told apart by its digest |
| SentRequests.ConversationIsSent | internal/adapter/shared/responses_tools.go:108-145 | the conversation sent is the client's without its declarations, item by item: calls under their wire names, custom calls and outputs as those of functions, the input wrapped, nothing else changed |
| SentRequests.RegistrationFailsWith | internal/adapter/shared/responses_tools.go:55-122 | registration fails with the first thing that is wrong with the declarations in their order: unreadable, of a kind nobody runs, nameless, or under the wire name of another tool |
| SentRequests.RequestIsSentIff | internal/adapter/shared/responses_tools.go:42-189 | a request is sent if and only if nothing is wrong with its declarations, its history and its choice, and is refused for the first such thing; the choice is sent unchanged but for the wire name, or not at all when no tool is left, and parallel_tool_calls with it |
| ToolIdentities.RegistrationSucceedsIff | internal/adapter/shared/responses_tools.go:42-144 | Normalize succeeds if and only if all declarations are well formed and no two identities share a wire name; then every identity has one wire name, the names are those of declarations, and each is emitted once in order of first declaration - whatever the digest |
| ToolIdentities.RestoreUndoesFlattening | internal/adapter/shared/responses_tools.go:239-280 | RestoreCall on the wire name of a declared identity gives back its name, namespace and kind |
| ToolIdentities.HistoryRoundTrip | internal/adapter/shared/responses_tools.go:124-144 | a call of the history comes back from Normalize and RestoreCall, a missing input as the empty one, if and only if the registry holds its identity for its wire name, for which declaring it suffices; unchanged if and only if moreover nothing was missing |
| ToolIdentities.UnwrapUndoesWrap | internal/adapter/shared/responses_tools.go:135-136 | unwrapping the wrapper of any input gives the input |
| Json.ObjectIsFinal | internal/adapter/shared/responses_tools.go:208-216 | a text that decodes to an object has no longer text that decodes to anything else |
| Json.WrappedInputIsFinal | internal/adapter/shared/responses_tools.go:208-216 | once accumulated arguments decode to an input, more fragments cannot change it and still decode |
| Json.WrappedInputIsShorter | internal/adapter/shared/responses_tools.go:208-216 | an unwrapped input is shorter than its wrapper, so it never equals it |
| Json.InputFieldSays | internal/adapter/shared/responses_tools.go:208-216 | the input is the string of the last field under its key, none if that is null, and any other value under such a key spoils the whole |
| Json.InputKeyIff | internal/adapter/shared/responses_tools.go:208-216 | its key is "input" in any mixture of upper and lower case |
| CustomInput.DeltasSpellFirstInput | internal/adapter/shared/shared.go:726-755 | however arguments are cut, the input deltas spell the input of the first accumulation that decodes |
| CustomInput.DeltasEqualDoneIff | internal/adapter/shared/shared.go:726-755 | for the fragments of one call: the deltas equal the unwrapped, defaulted arguments if and only if the complete arguments decode to an object with a string input |
| CustomInput.CanonicalWrapperSpellsInput | internal/adapter/shared/shared.go:726-755 | every cutting of the wrapper {"input":v} streams exactly v |
| StreamedInputs.RunIsFeed | internal/adapter/shared/shared.go:726-755 | in any run of a turn, however calls interleave, the deltas at one output index are those of its call fed alone |
| StreamedInputs.DeltasSpellTheDoneInputIff | internal/adapter/shared/shared.go:684-800 | in any run of a turn and its terminal: the deltas of a custom call spell the input of its done event if and only if its arguments decode to an object with a string input, and then they spell that input |
| StreamedInputs.ChatInputs | internal/adapter/chatcompletions/stream.go:479-549 | so it is in every well-formed chat stream, for each of its custom calls |
| StreamedInputs.MessagesInputs | internal/adapter/messages/stream.go:304-363 | and in every well-formed Messages stream |
| Wire.StopReasonsRoundTrip | internal/adapter/shared/shared.go:276-371 | exactly which stop and finish reasons survive both tables, and that the status tables agree through them |
| Wire.StatusesRoundTrip | internal/adapter/shared/shared.go:325-371 | a status says truncation and nothing else; the two tables back from a status are inverse to those to one, exactly on which values, and agree with each other |
| OutputAssembly.OutputAssembler.ReserveTextSlot | internal/adapter/shared/shared.go:1615-1621 | the first reservation takes the next position, later ones nothing |
| OutputAssembly.OutputAssembler.AppendFunctionCall | internal/adapter/shared/shared.go:1632-1645 | a call is appended with its restored identity; custom tools carry the unwrapped input |
| OutputAssembly.OutputAssembler.Render | internal/adapter/shared/shared.go:1649-1664 | the message fills its slot, or leads when there is text and no slot; all calls keep their order |
| ResponsesTurn.AnnouncedIndexIsFinalPosition | internal/adapter/shared/shared.go:684-800 | over any run of a turn, output[k] is the item announced with output_index k |
| ResponsesItems.TurnIsRead | internal/adapter/shared/shared.go:684-800 | every turn, with text and calls interleaved in any way, is received as response.created, then for each output index the announcement of its item, the fragments as they came, and the done events and completed item with their joined text or arguments, then response.completed with exactly these items |
| ChatToResponses.StreamConverter.Content | internal/adapter/chatcompletions/stream.go:452-462 | text opens the one message item and adds to it |
| ChatToResponses.StreamConverter.Announce | internal/adapter/chatcompletions/stream.go:463-478 | the first entry of an upstream index announces a call at the next position |
| ChatToResponses.StreamConverter.Arguments | internal/adapter/chatcompletions/stream.go:479-484 | a fragment goes to its call; custom tools send only unwrapped input |
| ChatToResponses.StreamConverter.Terminate | internal/adapter/chatcompletions/stream.go:502-568 | the held terminal is emitted once, with the last usage |
| ChatToResponses.StreamConverter.Assemble | internal/adapter/chatcompletions/stream.go:519-549 | the loop over calls in arrival order, with the text slot reserved in its place, builds exactly the output of the turn |
| ChatToResponses.StreamConverter.HandleLine | internal/adapter/chatcompletions/stream.go:421-491 | one line: nothing, [DONE], a failure, or a chunk |
| ChatToResponses.StreamConverter.Feed | internal/adapter/chatcompletions/stream.go:78-97 | a network chunk is consumed line by line up to [DONE] or a failure |
| ChatToResponses.StreamConverter.Flush | internal/adapter/chatcompletions/stream.go:119-142 | a close without [DONE] emits the held terminal, once |
| ChatMeaning.ChatIsCanonical | internal/adapter/chatcompletions/stream.go:421-568 | a well-formed chat stream reaches the client as the one event sequence of the turn it says |
| StreamedItems.ChatStreamIsRead | internal/adapter/chatcompletions/stream.go:421-568 | every well-formed chat stream is received as that turn, its texts, calls and argument fragments being the non-empty ones of the chunks in order, call by upstream index, with the status that its finish reason stands for and the usage reported by its end |
| ChatTerminals.BeginsAndEndsOnce | internal/adapter/chatcompletions/stream.go:421-568 | whatever the chunks are, a Responses client gets one response.created, with the identity of the first chunk that has a choice, and one response.completed if any chunk has a finish reason, with the status of the first and the usage reported up to one chunk later, delivered with the next chunk or with [DONE] or the flush |
| ChatMeaning.AnnouncedIndexIsFinalPositionAlways | internal/adapter/chatcompletions/stream.go:452-477 | for every upstream stream, whatever it sends, announced indexes are final positions |
| MessagesToResponses.StreamConverter.StartBlock | internal/adapter/messages/stream.go:261-288 | a block start announces the message item once, or a call |
| MessagesToResponses.StreamConverter.Text | internal/adapter/messages/stream.go:293-303 | text accumulates at its block and goes to the message item |
| MessagesToResponses.StreamConverter.Json | internal/adapter/messages/stream.go:304-311 | a fragment without a tool_use block fails; otherwise it goes to its call |
| MessagesToResponses.StreamConverter.OutputItems | internal/adapter/messages/stream.go:419-437 | blocks in upstream index order through the assembler |
| MessagesToResponses.StreamConverter.ResponsesCompleted | internal/adapter/messages/stream.go:342-363 | completions of all items, then response.completed with status and usage |
| MessagesToResponses.StreamConverter.Feed | internal/adapter/messages/stream.go:73-91 | frames are dispatched up to message_stop or a failure |
| MessagesToResponses.StreamConverter.Flush | internal/adapter/messages/stream.go:394-410 | an early close renders the terminal if anything was emitted, once |
| MessagesMeaning.OutputIsTurns | internal/adapter/messages/stream.go:419-437 | the blocks sorted by upstream index render as the turn accumulated in arrival order, when block starts have increasing indexes |
| MessagesMeaning.EventStep | internal/adapter/messages/stream.go:251-331 | each event does to the block map what its actions do to the turn, and emits the same events |
| MessagesPieces.MessagesIsCanonical | internal/adapter/messages/stream.go:251-437 | a Messages stream with increasing block starts, text that never goes back to an earlier text block and message_stop at its end reaches the client as the one event sequence of the turn it says |
| StreamedItems.MessagesStreamIsRead | internal/adapter/messages/stream.go:251-437 | every well-formed Messages stream is received as that turn, its texts, calls and argument fragments being those of its blocks in order, with the status its stop reason stands for and its last counts |
| MessagesEnds.EventSays | internal/adapter/messages/stream.go:251-363 | after any events, one more fails if and only if it is an error of the upstream or arguments for what is no tool block, and ends the stream if and only if it is message_stop, with one response.completed that has the model, status and counts reported by then |
| MessagesPieces.OutOfOrderStartsMove | internal/adapter/messages/stream.go:419-424 | the smallest stream that moves: two calls started in the other order end at each other's announced positions |
| MessagesPieces.EarlyCloseIsCanonical | internal/adapter/messages/stream.go:394-410 | a stream that closes after some of its blocks reaches the client as the event sequence of the turn said so far, rendered as completed |
| MessagesPieces.TextForAnEarlierBlockMoves | internal/adapter/messages/stream.go:293-303 | the smallest stream whose text goes back: it is sent in one order and rendered in the other |
| MessagesText.SentTextIsRenderedIff | internal/adapter/messages/stream.go:251-437 | for every stream that starts each block index once, read off the upstream: the text joined from the deltas is that of the rendered message if every non-empty fragment goes to a started text block and the indexes of those blocks never decrease; a fragment for no text block always breaks it, and with characters that differ so does a decrease |
| MessagesText.TextForACallIsLost | internal/adapter/messages/stream.go:293-303 | text for a tool block is sent under the output index of its call and never rendered |
| MessagesText.EveryDeltaNamesItsItemIff | internal/adapter/messages/stream.go:251-303 | for every stream: each text delta names, by index and id, a message item announced before it if and only if all text comes after the start of a text block and under the same message_start |
| MessagesPositions.AnnouncedIsFinalIff | internal/adapter/messages/stream.go:251-437 | for every stream that starts each block index once, announced indexes are final positions if the blocks behind them came in index order, the message counting as its lowest text block, and the message was not renamed; with distinct call ids only then |
| MessagesPositions.AnnouncedIndexIsFinalPositionInOrder | internal/adapter/messages/stream.go:342-410 | with block starts in order, whatever else the stream does, output[k] is the item announced with output_index k, at message_stop and at a flush |
| RouteParity.SamePiecesSameEvents | internal/adapter/chatcompletions/stream.go:421-568 | a chat stream and a Messages stream that say the same turn give a Responses client the same events |
| RouteParity.RouteParity | internal/adapter/messages/stream.go:251-437 | any turn encoded once as chat chunks and once as Messages events gives the identical Responses event sequence |
| ClaudeClient.AcceptedStreamsArePaired | internal/adapter/shared/shared.go:600-668 | what acceptance means: each block started once and stopped once, message_start and message_delta at most once, nothing after message_stop |
| ClaudeClient.AcceptedIff | internal/adapter/shared/shared.go:600-668 | a stream is accepted if and only if each event may follow those before it: message_start first and only first, blocks one after the other under consecutive indexes, each stopped before anything else starts or the message ends, deltas for started blocks of their kind - a strict client: for the open one -, one message_delta, nothing behind message_stop |
| ClaudeClient.EnvelopeAndBlocks | internal/adapter/shared/shared.go:600-668 | a stream is accepted if and only if message_start comes first and once and its blocks are accepted without it |
| ClaudeClient.ToolChanges | internal/adapter/chatcompletions/stream.go:347-350 | changing one tool block changes that tool alone |
| ChatToClaude.StreamConverter.StopBlocks | internal/adapter/chatcompletions/stream.go:399-410 | the loop over all tools emits exactly one stop, for the one open block, or none |
| ChatToClaude.StreamConverter.Content | internal/adapter/chatcompletions/stream.go:315-334 | text continues the open text block, or closes the open block and starts a new one |
| ChatToClaude.StreamConverter.Announce | internal/adapter/chatcompletions/stream.go:335-346 | the first entry of an upstream index closes the open block and starts a tool_use block |
| ChatToClaude.StreamConverter.ToolCall | internal/adapter/chatcompletions/stream.go:335-351 | an entry opens its block if it is new and sends its fragment |
| ChatToClaude.StreamConverter.Terminal | internal/adapter/chatcompletions/stream.go:362-385 | the held message_delta is emitted once, with the tool-aware reason and the last usage |
| ChatToClaude.StreamConverter.HandleLine | internal/adapter/chatcompletions/stream.go:281-358 | one line: nothing, the [DONE] ending, a failure, or a chunk |
| ChatToClaude.StreamConverter.Feed | internal/adapter/chatcompletions/stream.go:78-97 | a network chunk is consumed line by line up to [DONE] or a failure |
| ChatToClaude.StreamConverter.Flush | internal/adapter/chatcompletions/stream.go:119-136 | a close without [DONE] adds the held terminal and message_stop, once |
| ChatClaudeMeaning.ClientReadsTheTurn | internal/adapter/chatcompletions/stream.go:281-385 | for every chat stream: the client accepts all events (one open block, consecutive indexes, no double stop, message_delta with no block open) and reads the concatenated text, the calls in first-arrival order with all their fragments however interleaved, the identity, and the terminal with the usage up to one chunk after the finish reason |
| ChatClaudeMeaning.DeltasNameTheOpenBlockIff | internal/adapter/chatcompletions/stream.go:335-350 | every delta names the open block if and only if the upstream never sends arguments for a call after something else began |
| ChatClaudeMeaning.InterleavedCallsAreRefused | internal/adapter/chatcompletions/stream.go:335-350 | the smallest streams for which it does not |
| ChatClaudeMeaning.DoneEndsTheMessage | internal/adapter/chatcompletions/stream.go:286-291 | [DONE] closes the open block, delivers the terminal if there was a finish reason, and ends the message; without any choice before it, it sends a lone message_stop, which the client refuses |
| ChatClaudeMeaning.FlushEndsTheFinished | internal/adapter/chatcompletions/stream.go:119-142 | a close without [DONE] adds nothing before a finish reason; after one it ends the message, acceptably if and only if no block was opened since |
| ChatClaudeMeaning.AnyChunkingRuns | internal/adapter/chatcompletions/stream.go:78-97 | from bytes to events: any chunking gives the run over the chunks the bytes hold |
| ChatClaudeMeaning.WholeStreamIsRead | internal/adapter/chatcompletions/stream.go:78-97 | a byte stream that ended with [DONE] leaves its client with the whole message, if it had any choice |
| ChatClient.RoleAndContent | internal/adapter/shared/shared.go:546-558 | a chat stream is accepted if and only if its role comes first and once and the rest is accepted without it |
| ChatClient.AcceptedRepliesSay | internal/adapter/shared/shared.go:546-597 | what acceptance means: the role once and first, each call opened once before all its other entries, and the reply says the contents joined and each call with the arguments of all its entries |
| ChatUnits.CurrentIs | internal/adapter/chatcompletions/stream.go:342-350 | the call whose block is open is the one nothing interrupted since its first entry |
| ToolTracking.ToolTracker.State | internal/adapter/responses/stream.go:132-145 | either name resolves to one shared state, both names are bound to it, and a new call takes the next index |
| ToolTracking.ResolveSays | internal/adapter/responses/stream.go:132-151 | a call known under either name is that call, the call_id going first, and otherwise new with the next index; from then on both names lead to it, and no other name is touched |
| ToolTracking.ToolTracker.Observe | internal/adapter/responses/stream.go:111-118 | an item event: whether the call is new, its index, and whether its complete arguments are due |
| ToolTracking.ToolTracker.StreamArgs | internal/adapter/responses/stream.go:124-129 | a fragment marks its call as delivered |
| ResponsesCalls.TracksEvent | internal/adapter/responses/stream.go:92-151 | with distinct name pairs, in any order of item and fragment events, each call keeps one index, indexes are injective, and complete arguments are due exactly when nothing was sent before |
| ResponsesCalls.ArgumentsArriveOnceIff | internal/adapter/responses/stream.go:480-556 | the client has the arguments of a call whose complete copies agree, once, if and only if its fragments add up to nothing after a complete copy that came before any of them, and to all arguments if none did |
| ResponsesCalls.EmptyFragmentLosesArguments | internal/adapter/responses/stream.go:124-129 | one way to fail: an empty fragment marks the call as delivered, and the complete copy after it is never sent |
| ResponsesCalls.LaterFragmentDoublesArguments | internal/adapter/responses/stream.go:530-556 | the other: fragments after a complete copy are sent again |
| ResponsesToClaude.StreamConverter.CloseOpenBlocks | internal/adapter/responses/stream.go:613-625 | stops the open block, and a later text delta opens a new one |
| ResponsesToClaude.StreamConverter.Text | internal/adapter/responses/stream.go:454-475 | text continues the open text block, or closes the open block and starts a new one |
| ResponsesToClaude.StreamConverter.Item | internal/adapter/responses/stream.go:480-524 | a function_call item opens its block if it is new and delivers complete arguments once |
| ResponsesToClaude.StreamConverter.Fragment | internal/adapter/responses/stream.go:530-556 | a fragment opens its block if it precedes the announcement |
| ResponsesToClaude.StreamConverter.Finish | internal/adapter/responses/stream.go:563-591 | the terminal stops the open block, then message_delta and message_stop |
| ResponsesToClaude.StreamConverter.Feed | internal/adapter/responses/stream.go:250-273 | frames are converted in order; a terminal event does not end the loop |
| ResponsesClaudeMeaning.EveryPrefixIsAccepted | internal/adapter/responses/stream.go:454-556 | whatever the upstream sends under whatever names, up to its first terminal event or failure: the client accepts the blocks, one open at a time, and when the converter takes text to be open, the open block is a text block and is the text index |
| ResponsesClaudeMeaning.EveryStreamIsAccepted | internal/adapter/responses/stream.go:454-625 | up to and with the first terminal event: every block one start and one stop, all stopped before message_delta and message_stop; the client reads the text, the usage with cached tokens not counted again, and the stop reason: tool_use if there was a function_call item, else max_tokens for an incomplete response, else end_turn; the whole stream, message_start included, is accepted if and only if response.created came first and once |
| ResponsesClaudeMeaning.TextBehindTheTerminal | internal/adapter/responses/stream.go:250-273 | text behind the terminal event is converted after message_stop if it came in the same chunk, and not read otherwise |
| ResponsesClaudeMeaning.CallsAreRead | internal/adapter/responses/stream.go:480-556 | when each call has its own pair of names, the client reads each call once, in order of first appearance, with the identity of its first event and the arguments sent for it |
| ResponsesClaudeDeltas.DeltasNameTheOpenBlockIff | internal/adapter/responses/stream.go:480-556 | when each call has its own pair of names: every delta names the open block if and only if the upstream sends no arguments for a call after text or another call began, a complete copy that is due included; the whole stream is accepted with that if and only if response.created also came first and once |
| ResponsesToOpenAI.StreamConverter.Item | internal/adapter/responses/stream.go:480-506 | an announcement embeds complete arguments that come along; later they are replayed only if nothing was delivered |
| ResponsesToOpenAI.StreamConverter.Fragment | internal/adapter/responses/stream.go:530-544 | a fragment opens its entry if it precedes the announcement |
| ResponsesToOpenAI.StreamConverter.Feed | internal/adapter/responses/stream.go:250-273 | frames are converted in order; a terminal event does not end the loop |
| ResponsesOpenAIMeaning.ReplyIsRead | internal/adapter/responses/stream.go:480-576 | whatever comes before the first terminal event, when each call has its own pair of names: a chat client reads the text, each call under its own index in order of first appearance, the usage, and the finish reason: tool_calls if there was any call, else length for an incomplete response, else stop; the whole stream, role included, is accepted if and only if response.created came once and before all text and calls |
| ResponsesOpenAIMeaning.TextBehindTheTerminal | internal/adapter/responses/stream.go:250-273 | the same on the Chat Completions target |
| ResponsesOpenAIMeaning.TargetsAgree | internal/adapter/responses/stream.go:480-556 | up to and with the first terminal event, in any order before it, both targets tell their clients the same text and the same calls |
| ResponsesOpenAIMeaning.RolesAreNamed | internal/adapter/responses/stream.go:634-643 | each response.created gives a Chat Completions client the role under the last id and model that were not empty |
| MessagesToOpenAI.StreamConverter.Json | internal/adapter/messages/stream.go:208-223 | the first fragment of a tool block sends its opening entry, later ones continue it; a fragment for no tool block fails |
| MessagesToOpenAI.StreamConverter.Dispatch | internal/adapter/messages/stream.go:186-248 | one event: role once and first, content, entries, the finish chunk with the accumulated usage |
| MessagesToOpenAI.StreamConverter.Feed | internal/adapter/messages/stream.go:73-91 | frames are dispatched up to message_stop or a failure |
| MessagesToOpenAI.ReplyIsRead | internal/adapter/messages/stream.go:186-248 | a stream fails if and only if the upstream reports an error or sends arguments for no tool block; otherwise the client reads its text, a call with all fragments for each tool block that has one, and the finish reason and usage of the last message_delta |
| MessagesToOpenAI.RoleIsNamed | internal/adapter/messages/stream.go:447-455 | the role comes once, with the identity of the message_start before anything was sent |
| MessagesToOpenAI.UnfedToolsStillFinish | internal/adapter/messages/stream.go:225-248 | tool blocks without fragments make the finish reason "tool_calls" while no call reaches the client |
| MessagesToOpenAI.ToolAppearsIffFed | internal/adapter/messages/stream.go:208-223 | a tool block reaches the client if and only if it has at least one fragment |
| MessagesBatch.ClaudeToResponses | internal/adapter/messages/convert.go:162-202 | a complete response: text in one message at the first text slot, calls in order, unknown block kinds fail |
| MessagesBatch.RefusedIff | internal/adapter/messages/convert.go:162-202 | a response is refused if and only if it has a block of a kind that is not text, tool_use, thinking or redacted_thinking, and for the first such kind |
| MessagesBatch.StreamAgreesWithBatch | internal/adapter/messages/convert.go:162-202 | for any events that say a response - block starts in order, the rest anywhere, pings and block stops included - the terminal carries the identity, status, usage and output of converting it at once, which alone refuses unknown block kinds |
| MessagesBatch.WellFormedIsSteady | internal/adapter/messages/stream.go:251-331 | every well-formed stream is among them |
| ChatResponsesBatch.ChatToResponses | internal/adapter/chatcompletions/convert.go:160-208 | a complete response: the joined text in a message that leads, if there is any, then the calls in order; a part that is not text fails |
| ChatResponsesBatch.RefusedIff | internal/adapter/chatcompletions/convert.go:160-208 | a response is refused if and only if a part of its content is no text, and for the first such part; otherwise its status is that of its finish reason and its text the parts joined |
| ChatResponsesBatch.StreamAgreesWithBatchIff | internal/adapter/chatcompletions/convert.go:181-195 | a stream of a response ends with the identity, status and usage of converting it at once, and with the same output array if and only if no call starts before the text |
| ChatBatch.ClaudeToolUseBlocks | internal/adapter/chatcompletions/convert.go:139-151 | tool calls with decoded arguments in order, up to the first malformed one |
| ChatBatch.StreamAgreesWithBatch | internal/adapter/chatcompletions/convert.go:94-123 | a client that reads any stream of a response has the identity, joined text, tools, stop reason and usage of converting it at once |
| ChatBatch.InputAndCacheMakeThePromptIff | internal/adapter/shared/shared.go:899-909 | input and cached tokens add up to the prompt if and only if no more were cached than the prompt has |
| HostBridge.InFlightIsExact | internal/plugin/hostbridge.go:187-256 | in every interleaving the count is the number of invocations that have not released theirs, so never negative; a count is released exactly when the callback has exited and the post-work is settled, and the one channel value is received at most once |
| HostBridge.ReleaseIsFinal | internal/plugin/hostbridge.go:200-211 | a released count stays released and a produced value never changes |
| HostBridge.NoOrphanedStream | internal/plugin/hostbridge.go:331-379 | every do_stream result that names a stream is returned to the caller or closed once, exactly one of the two, however late |
| HostBridge.OnlyNamedStreamsAreClosed | internal/plugin/hostbridge.go:331-379 | nothing is closed but the stream that a do_stream result names, which was not returned, once; a failed result closes nothing |
| HostBridge.DeadlineFreesTheCaller | internal/plugin/hostbridge.go:214-256 | whatever the host does, a waiting caller with a deadline is back after three steps of its own, a do_stream by way of its grace window; a caller without one never gives up |
| HostBridge.AbandonHoldsTheCount | internal/plugin/hostbridge.go:240-250 | the count stays above zero until an abandoned stream_close has returned |
| HostBridge.WaitedMeansDrained | internal/plugin/hostbridge.go:258-276 | at count zero no callback is in the host and no abandon goroutine lives |
| HostBridge.GraceWindowReleasesEarly | internal/plugin/hostbridge.go:234-236 | in the grace window the count can reach zero before the late stream is closed |
| HostBridge.NeverStuck | internal/plugin/hostbridge.go:187-256 | once the host has returned from its callbacks, every unfinished invocation can move, by a step of its own or of the stream_close it waits for |
| StreamPump.Pump.CloseStreams | internal/plugin/executor.go:459-467 | both streams are closed the first time only |
| StreamPump.Pump.EmitAll | internal/plugin/executor.go:538-545 | events are emitted in order up to the first that fails |
| StreamPump.Pump.Turn | internal/plugin/executor.go:486-520 | one turn of the loop comes to what the read, the budget, the converter and the emits make of it, in the order of its checks |
| StreamPump.Pump.Finish | internal/plugin/executor.go:522-531 | after the loop the flush of a converter that was not done, then the deferred close |
| StreamPump.Pump.Run | internal/plugin/executor.go:459-531 | for every outcome of reads, emits and watchdog: exactly the calls and the verdict that the first read that does not go on brings about |
| StreamPump.StopsAtTheFirst | internal/plugin/executor.go:486-520 | the stream ends with the first read that is aborted, failed, over the budget, not converted, not emitted, closed or done, and with no other |
| StreamPump.HostIsAsked | internal/plugin/executor.go:459-531 | what the host is asked for: the events due by then, flush included, up to the first emit that fails; then the upstream closed and the downstream closed with the text of what was checked first of all that went wrong |
| StreamPump.PrefixThenOneClose | internal/plugin/executor.go:459-531 | the downstream sees a prefix of what the converter returned, flush included, cut short only at the first emit that failed; then one close of each stream and nothing more, the own close of the upstream by the watchdog (lines 469-477) not being among the recorded calls |
| StreamPump.FedStaysWithinBudget | internal/plugin/executor.go:502-507 | the bytes the converter is fed never exceed the budget |
| StreamPump.SilentCloseIff | internal/plugin/executor.go:459-531 | in terms of reads, budget, emits and converter: the downstream is closed without a text if and only if the read that ended the stream ended it well - and then everything was delivered - or brought a failure whose redacted text is empty, of the read, the conversion or an emit |
| PumpedClaude.SilentFailure | internal/plugin/executor.go:508-511 | such a failure exists: driven by the pump, an upstream error object with an empty message, after any reads, closes the downstream with the label of success |
| PumpedClaude.CompletedDelivers | internal/plugin/executor.go:507-530 | driving the chat-to-Messages converter, a completed pump has delivered the events of the chunks read and their ending, once |
| PumpedClaude.EveryPathStopsLast | internal/plugin/executor.go:486-530 | on every path, whatever fails, message_stop is at most the last of what the converter returned, of which the downstream sees a prefix |
| PumpedClaude.DeliveredStopsOnceIff | internal/adapter/chatcompletions/stream.go:119-142 | message_stop comes at most once and last, and it comes if and only if the upstream sent [DONE] or a finish reason |
| CatalogManager.Manager.Swap | internal/catalog/catalog.go:258-357 | the loop builds exactly the rebuild of the entries under the own config |
| CatalogManager.Manager.Fail | internal/catalog/catalog.go:242-252 | a failed refresh keeps the snapshot or clears it with its entries, by the stale policy |
| CatalogManager.Manager.Refresh | internal/catalog/catalog.go:195-239 | a usable response is swapped in; anything else fails |
| CatalogManager.Manager.SeedFrom | internal/catalog/catalog.go:184-189 | the entries of another manager, rebuilt under the own config |
| CatalogManager.Manager.Lookup | internal/catalog/catalog.go:467-472 | finds a record if and only if a scan of the models would |
| Catalog.LookupIsScan | internal/catalog/catalog.go:338-352 | every key leads to the one record that holds it as public or upstream id |
| Catalog.EveryEntryAccountedOnce | internal/catalog/catalog.go:265-353 | each distinct id is one routable or one unsupported model, never both; entries without an id are unsupported |
| Catalog.FirstInOrderWins | internal/catalog/catalog.go:338-349 | a first occurrence is routable if and only if it is judged so and no earlier routable model clashes with it; a clash is named with its owner |
| Catalog.ClashIsCrossRole | internal/catalog/catalog.go:330-337 | whoever holds an id of a later record holds it in its other role |
| Catalog.OnlyEnabledRoutes | internal/catalog/catalog.go:283-292 | no routable model uses a disabled protocol |
| CatalogRoutes.OneFamily | internal/catalog/catalog.go:121-143 | no id is of two families, so the longest prefix wins whatever the order of the list |
| CatalogRoutes.FamilyProtocols | internal/catalog/catalog.go:121-143 | the protocol of each family |
| CatalogRoutes.EveryEntryIsRouted | internal/catalog/catalog.go:258-391 | the first entry of each id becomes the record its route deserves - by its override alone if it has one, else by its family, with the own path of the protocol where no endpoint is given - or is unsupported for want of a route, for a disabled protocol, for an endpoint that leaves the host, or for a collision; an override shows among the warnings |
| CatalogRoutes.EveryRecordIsRouted | internal/catalog/catalog.go:258-391 | every record is that of the first entry with its id, routed so over an enabled protocol, with the limits, modes, display name and reasoning bounds of the entry |
| CatalogRoutes.WarningsSay | internal/catalog/catalog.go:265-353 | what one more entry adds to the diagnostics: a repeated id one warning, a first entry its override and its collision with the ids that its reason names, an entry without an id none |
| Lifecycle.ServedIsTheRebuild | internal/plugin/plugin.go:274-333 | in every interleaving of calls and ticks what is served is exactly the rebuild of the retained entries under the published config, its warnings included, with one more after a response without data |
| Lifecycle.OneLoopAlive | internal/plugin/plugin.go:427-498 | at most one refresh loop is alive; outside a call one is if and only if anything is served: the tracked one, refreshing the served manager |
| Lifecycle.NoLoopWhilePublishing | internal/plugin/plugin.go:302-307 | no loop is alive when a call publishes or clears |
| Lifecycle.OutageRejudges | internal/plugin/plugin.go:311-324 | in every interleaving that reaches the install of a reconfigure during an outage: if the new config keeps stale snapshots and something was served, the entries the old manager retained are served, judged anew, so a protocol it disables is gone at once; otherwise nothing is served |
| Lifecycle.CallsPublish | internal/plugin/plugin.go:274-333 | a reconfigure publishes the config it began with, and its own catalog if the first refresh brought one, with a loop to refresh it; a shutdown publishes nothing and leaves no loop; a failed authentication changes nothing |
| Lifecycle.TicksRefreshTheServed | internal/plugin/plugin.go:449-486 | a tick refreshes the served manager and no other: the entries of a good response are served, otherwise what was served before or nothing, by the stale policy |
| Lifecycle.FirstRefreshStarts | internal/plugin/plugin.go:308-324 | a new manager starts from nothing, and only the failure of its first refresh lets its install serve the old entries |
| MessageOrder.MsgBuilder.Add | internal/adapter/messages/request.go:131-138 | a block joins the current message or starts the next one |
| MessageOrder.MsgBuilder.Finish | internal/adapter/messages/request.go:140-151 | the messages are the maximal runs of one role |
| MessageOrder.Assemble | internal/adapter/messages/request.go:226-285 | the message loop groups what all entries add, or fails with the first rejected entry |
| MessageOrder.FromChatCompletions | internal/adapter/messages/request.go:226-285 | the message loop over Chat Completions messages |
| MessageOrder.FromResponses | internal/adapter/messages/request.go:336-425 | the message loop over instructions and Responses items |
| MessageOrder.HistoryIsOrdered | internal/adapter/messages/request.go:226-285 | a converted history says all blocks its entries contribute, in order, in messages whose roles strictly alternate, and its system texts; or it is the failure of its first rejected entry |
| MessageOrder.ChatMessageSays | internal/adapter/messages/request.go:229-281 | what one message contributes: a user message its parts, an assistant message its text and then its calls, a tool message one result with its joined text, or with its parts if one is an image |
| MessageOrder.HistoryItemSays | internal/adapter/messages/request.go:350-425 | what one Responses item contributes: a user item its parts, an assistant item its text, a call one tool use, an output one result with its text and images, reasoning its summary, a system item its text |
| MessageOrder.SystemSays | internal/adapter/messages/request.go:226-285 | a system message contributes its text to the system texts |
| MessageOrder.RejectedIff | internal/adapter/messages/request.go:226-425 | exactly which entries are rejected: those that do not decode, of an unknown role or kind, and images that are neither the user's nor a tool's |
| MessageOrder.ChatRejectionSays | internal/adapter/messages/request.go:226-285 | what a rejected message fails with: the unknown role, what did not decode, the image that may not be there, or the first call whose arguments did not decode |
| MessageOrder.ItemRejectionSays | internal/adapter/messages/request.go:336-425 | and a rejected item, likewise |
| MessageOrder.RolesAlternateAndNothingMoves | internal/adapter/messages/request.go:121-151 | roles strictly alternate and the messages say the blocks added, in order |
| ChatHistory.Convert | internal/adapter/chatcompletions/request.go:376-462 | the item loop gives each maximal run of tool outputs its replies together and then all its images in one user message, every other item on its own, adjacent calls merged; or the first failure |
| ChatHistory.CallsAreKept | internal/adapter/chatcompletions/request.go:431-446 | every call of the history is sent, once and in order |
| ToldHistory.HistoryIsTold | internal/adapter/chatcompletions/request.go:376-462 | the messages sent say the instructions and the items one by one: system items as their text, other messages with their role and content, calls, tool replies, and behind each run of replies its images, labelled, in one user message; adjacent calls share a message; or the conversion fails with the first item that cannot be told |
| ChatHistory.NativeItemSays | internal/adapter/responses/request.go:83-117 | what the native route leaves out of a history and what it changes in an item |
| ChatHistory.HistoriesAgree | internal/adapter/responses/request.go:95-113 | the chat route and the native route send the same calls with the same names and defaulted arguments |
| Thinking.ComputeSupported | internal/thinking/thinking.go:195-212 | the declared levels in canonical order, or the default ones |
| Thinking.ClampToSupported | internal/thinking/thinking.go:63-80 | the nearest supported level, the weaker one on a tie |
| Thinking.NearestIsNearest | internal/thinking/thinking.go:55-80 | no other supported level is nearer |
| Thinking.SupportedAre | internal/thinking/thinking.go:195-216 | a level is supported if and only if its name is declared, or, where no canonical name is, if it is low, medium or high |
| Thinking.TablesFit | internal/thinking/thinking.go:26-53 | a positive budget reads as the weakest level whose own budget is as large, and as the level above those beyond them |
| Thinking.Sentinels | internal/thinking/thinking.go:97-150 | what no budget reads as, and what budgets the efforts auto and none have |
| Thinking.AdmittedIff | internal/thinking/thinking.go:170-191 | exactly which efforts validation admits |
| Thinking.BoundsMove | internal/thinking/thinking.go:151-160 | declared bounds move a budget only if it is outside of them, and to the bound |
| Thinking.EffortIsSupported | internal/thinking/thinking.go:82-109 | the effort is supported, or "auto" where allowed; a larger budget never yields a weaker effort |
| Thinking.BudgetsAreBounded | internal/thinking/thinking.go:122-160 | a budget other than the sentinels stays within the declared bounds |
| Thinking.ValidatedEffortsHaveBudgets | internal/thinking/thinking.go:163-191 | an admitted effort has a budget; the only efforts with a budget that are not admitted are the three fall-backs |
| Thinking.LevelRoundTripIff | internal/thinking/thinking.go:40-160 | under any declared bounds a supported level survives budget and back if and only if no other supported level is nearer to what its bounded budget reads as, or, with a budget of zero, it is "none" and that is what no budget means; where the bounds leave the budget alone only the strongest can fail, and it survives if and only if the two below it are not supported |

## Left out

- JSON decoding of stream payloads and requests: decoders are arbitrary functions from payloads to decoded events, except for the wrapped custom-tool input, whose decoder is concrete; Go's nesting limit and its replacement of invalid UTF-8 are not modelled there.
- ResponsesItems.TurnIsRead: text is taken to come after its announcement, as it does in every well-formed stream of both routes; MessagesText.EveryDeltaNamesItsItemIff says when it does in others.
- ChatBytes.PrintedIsRead, MessagesBytes.PrintedStreamReachesResponses and their neighbours: one data line per event, as upstreams print them; FrameFields.FieldsSay has the general frame.
- Integer widths: token counts, indexes and byte totals are unbounded integers, and the truncation of upstream floating-point counts is part of the arbitrary decoders.
- Byte lengths: a string's length stands for its length in bytes, in the 64-byte limit of wire names and in the pump's budget.
- ResponseTools.ToolContext.Normalize: tool_choice is taken as decoded.
- MessagesPieces.MessagesIsCanonical: block starts are taken to have increasing indexes, as the Messages protocol prescribes, and text not to go back to an earlier text block; outside of these MessagesPositions.AnnouncedIsFinalIff says exactly when announced indexes are final and MessagesText.SentTextIsRenderedIff when the sent text is rendered.
- ResponsesClaudeMeaning.CallsAreRead: each call is taken to have its own pair of names, with both on item events; for other names only the block discipline and the text are proved.
- MessagesPositions.AnnouncedIsFinalIff: each block index is taken to be started once; a second start of one index replaces the first block in the converter's map.
- MessagesText.SentTextIsRenderedIff: likewise; and a decrease of block indexes is shown to break the text only when its characters differ, as equal ones may come out right by chance.
- ResponsesClaudeDeltas.DeltasNameTheOpenBlockIff: each call is taken to have its own pair of names, as in ResponsesClaudeMeaning.CallsAreRead; so do the theorems of ResponsesOpenAIMeaning.
- StreamPump.Pump.Run: a failed emit counts as attempted; whether a timed-out emit still reaches the host later is not modelled, and the watchdog, with its own close of the upstream, is what each read observes of it. StreamPump.SilentCloseIff takes redaction to leave no text empty.
- HostBridge.InFlightIsExact: time is left out: a deadline and the end of a grace window are steps that may come at any moment; panics inside an abandon function are not modelled.
- Lifecycle.ServedIsTheRebuild: configuration loading and auth materialisation are steps that succeed or fail; the watcher goroutine that cancels a tick is a tick whose fetch fails.
- created_at and every other timestamp of emitted events, and the identity repeated on each Chat Completions chunk after the first.
- OutputAssembly.OutputAssembler.Render: returns the array instead of also replacing the assembler's own items; the original renders once.
- Native passthrough of all three protocols, including the restoring of tool calls in passed-through Responses frames: raw forwarding beside the framer's raw mode, which is modelled.
- The Chat Completions target of the batch Messages conversion: the loop of the modelled Responses target over other fields.
- The Anthropic-to-Chat and Anthropic-to-Responses request builders, tool-choice renderers, image URL helpers, schema defaults and reasoning-effort plumbing in requests: single-branch translation.
- Thinking.EffortFromBudget and its neighbours: case folding and trimming are one arbitrary function.
- Gemini, auth, quota, the C entry points, configuration validation, redaction and session identifiers: delegated to libraries or thin wrappers, and not part of this model.
