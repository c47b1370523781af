# A verified model of the SignalR message loop

This project models the protocol core of a SignalR implementation in Go: two parties exchange
invocations, completions and stream items over one connection, each through a message loop with
two registries of outstanding calls and streams; a Redis back-plane connects several server
instances; and three wire formats carry the messages.

Code that updates things in place is a class whose methods are proved against functions on values.
Goroutines are modelled as step machines: a run is any sequence of steps, every interleaving
included, and the main results speak about every state of every run.

| file | what it holds |
|---|---|
| `Messages.dfy` | hub messages, and Go channels as cells that remember sends, closes and panics |
| `InvokeClient.dfy`, `CallHistory.dfy`, `InvokeRaces.dfy`, `InvokeResult.dfy`, `Ids.dfy` | outstanding calls: the table, what each call gets by its history, the unlocked middle of a completion, the merge of result and error channel, the ids |
| `StreamClient.dfy`, `PulledStreams.dfy`, `StreamRaces.dfy` | receiving ends of streams, both registries together, what callers get from them, the unlocked close of a completion |
| `Loop.dfy`, `LoopTimes.dfy`, `LoopRegistries.dfy` | the event loop `Run`; when and why it ends and its tickers; its events as steps of the registries and what it writes |
| `Streamer.dfy`, `Cancels.dfy`, `Streaming.dfy` | sending ends of streams, what a cancel does to them, and streams end to end over a FIFO link |
| `Dispatch.dfy`, `Arguments.dfy` | answering invocations, splitting and merging their arguments |
| `KeepAlive.dfy` | pings and timeouts of two loops in integer time |
| `Bytes.dfy`, `Splitting.dfy`, `JsonFraming.dfy` | readers that deliver in pieces, and the JSON framing |
| `MessagePackFraming.dfy`, `FramingOrder.dfy`, `FramingRoundTrip.dfy`, `MessagePackCodec.dfy`, `MessagePackGrammar.dfy`, `MessagePackWire.dfy` | the MessagePack framing, when it keeps its bytes in order, when frames come back, the layout of messages, the grammar of what is accepted, and framing and layout together |
| `ServerSentEvents.dfy`, `EventReads.dfy` | the event printer of the server and the parser of the client, and which divisions into reads keep the contents |
| `Redis.dfy`, `HttpMux.dfy`, `ClientState.dfy` | the Redis lifetime manager, the negotiation table, the client state and its observers |

## What the model says about the code

Some promises of the code or its comments do not hold as they stand.  The code is kept as it is,
and the condition under which the promise holds is proved beside a case where it fails.

- Ids (`loop.go:191`: "new, connection-unique"): unique if and only if no two calls of `GetNewID` overlap (`UniqueIffNoOverlap`).
- A completion (`invokeclient.go:73-117`) is sent without the lock: a run has panicked exactly when a caller deleted the call being answered and a send for it came later (`PanicsIffSentAfterRace`).  These runs do not register an id again while it is outstanding or being answered.
- The channel of a stream is closed outside the lock too (`streamclient.go:144`): in runs that register an id once at a time, it is closed twice exactly when a caller whose send failed deletes the stream between that close and the removal from the table, or between the lookup and that close, with the close still to come (`PanicsIffClosedTwice`).
- An invocation gets exactly one completion if and only if its method does not panic; otherwise it gets two, or three for a stream invocation (`ExactlyOneIffNoPanic`).
- `cancelCount` (`streamer.go:11`: "tracks entries in cancels") counts effective cancels as well as waiting ones, and is never lowered: once both together reach the limit no further cancel is taken (`CancelCountDrifts`, `SpentCancelsDisableStop`).
- More stream ids than channel parameters lead to an index panic, or to the stream limit if that is met first; the check behind the loop of `buildMethodArguments` that is meant for this case is never reached (`OutcomeByCounts`).
- `readFrames` loses, adds or moves bytes.  It accounts for them in order at every turn if and only if the input is steady (`InOrderIffSteady`): every length is decoded from a full length buffer, no EOF comes inside a body, and what is put back behind buffered bytes is put behind nothing or behind bytes it commutes with.  A zero-length frame or an unfinished prefix in front of more than five buffered bytes moves bytes behind others (`ZeroFrameMoves`, `UnfinishedPrefixMoves`, `ZeroFrameReorders`).
- A length decoded from a length buffer with room left puts zero bytes into the frame.  The frame is right if and only if its bytes beyond the buffer are all zero, in particular if it is whole, as a ping on an idle connection is (`ShortFrameRightIff`, `ShortReadCorrupts`).  The test for an overlong prefix never strikes (`OverlongIsNeverRejected`).
- Every MessagePack message is one array of its announced length except Close, which announces three elements and writes four (`OneArrayIffNotClose`).
- A Redis call reaches its target exactly if and only if the target has a name: an empty connection id addresses everyone (`ExactIffNamed`). Group commands of a connection may still run after its disconnect, and the last command decides: a gone connection is in the set of a group if and only if its last command for that group was an add without error that came after the disconnect or that the disconnect did not remove, or a command that reported an error and left it a member (`GoneButMemberIff`).  Without any failure a connection is in no set right after its disconnect, and later exactly if its last command after the disconnect was an add (`FlawlessDisconnect`).  Such an add puts a gone connection back (`AddBesideDisconnect`), and such a removal makes up for a failed one (`RemoveBesideDisconnect`).
- Serving a websocket frees its pending entry if and only if it was negotiated under its own id (`ServeFreesIff`); an entry negotiated under a token and not asked for by an event stream counts against the limit until a tick reaps it, whatever is served (`TokenEntryStaysIff`).
- A stream can still be delivered whole if and only if connection and receiving loop live, no close message was written, no cancel waits for its next item, its own announcement was not refused, and neither a message under way nor its remaining items make the receiver fail (`StreamCanFinishIff`).
- An upload goes on after the invocation that announced it was refused, and ends the receiving loop: a delivery fails as unknown if and only if it is an item or completion of a refused stream (`UnknownIffRefused`, `RefusedUploadFails`).
- The loop closes every call when it ends, but no stream: exactly the streams still registered stay open, and those whose id was registered again (`RunLeavesStreamsOpen`).
- Observers of the client state are listed exactly while open if and only if callers neither register a closed channel nor cancel one that is registered twice (`ListedIffFair`, `SharedChannelPanics`).
- With a size limit the outcome of reading JSON frames depends on the pieces (`LimitDependsOnChunking`): none is refused if and only if what is left over, the data up to its first separator and one read more stay within the limit (`LimitSafeIff`).
- A payload survives server-sent events unchanged if and only if it has no newline and no blank at its end (`ArrivesUnchangedIff`); events can be read as whole lines in the client's 32 KiB reads if and only if no line is longer (`ReadableIff`).  For every division the contents arrive if and only if, wherever a read ends inside a line, the next read continues that line with blanks alone or leaves it without content (`EventsArriveIff`).
- A result is delivered together with an empty `InvokeResult`, and either may come first (`InvokeDelivers`, `EitherMayComeFirst`).

## Model

| member | source | states |
|---|---|---|
| `EndToEnd.StreamArrivesInOrder` | streamer.go:16-39 | in every run of sender, FIFO link and receiver, with ordinary calls on the same link, a stream's channel always holds the first items of its source in order, is closed at most once, exactly when its empty completion has arrived, and without a cancel holds the whole source when closed |
| `EndToEnd.UnknownIffRefused` | streamclient.go:68-82 | in every run a delivery fails if and only if its message is an item or completion of a refused stream or does not decode, and it fails with an unknown id if and only if it is of a refused stream |
| `EndToEnd.RefusedUploadFails` | loop.go:201-204 | a run in which an upload to a missing method ends the receiving loop with an unknown stream |
| `EndToEnd.DrainedLinkShowsAll` | loop.go:264-292 | once the link is empty the receiver has exactly what was sent, and is closed exactly when the sender completed |
| `EndToEnd.StreamCanFinishIff` | loop.go:97-102 | from every reachable state, for every decoder, a running stream can still end with its channel closed and the whole source in it, if and only if the connection is not aborted, the receiver has not failed, no close message was written, no cancel waits unless all items were taken, the stream was not refused, and every undelivered message and every remaining item decodes and is of no refused stream |
| `EndToEnd.NextEvent` | streamclient.go:118-154 | the only message that can arrive for a bound stream is its next item, or its completion after the last one |
| `EndToEnd.FirstEvent` | streamclient.go:32-49 | the only message that can arrive for an unbound upload stream is the invocation that announces it |
| `EndToEnd.NextKeepsSystem` | loop.go:83-111 | every step of sender, link or receiver keeps the relation between what was written, delivered and put into channels |
| `Streamers.StreamOnTheWire` | streamer.go:16-39 | whatever is interleaved, completions of ordinary calls included, the wire carries a stream's items in order, at most one empty completion and nothing behind it; without a cancel the completion follows all items |
| `Streamers.NoStopNoCancel` | streamer.go:22-26 | a stream is cut short only if a cancel for its id was received |
| `StreamCancels.CancelStopsStream` | streamer.go:16-48 | in every run a cancel that the limit lets in stops its stream: nothing more is sent, and the next turn on a live connection writes the empty completion and ends it |
| `StreamCancels.CutShortIff` | streamer.go:22-26 | a completed stream has not sent its whole source if and only if a cancel for its id was let in, before or while it ran, and another item came from its channel afterwards |
| `StreamCancels.WaitsOrHasCut` | streamer.go:41-48 | a cancel was let in for an id if and only if it waits in the table or has cut its stream |
| `StreamCancels.AbortEndsStreams` | streamer.go:27-29 | on a connection that is gone the next turn ends a stream and writes nothing |
| `Streamers.CancelCountDrifts` | streamer.go:41-48 | the counter exceeds the cancel table by exactly the cancels that took effect, and stays within the limit |
| `Streamers.SpentCancelsDisableStop` | streamer.go:41-48 | once waiting and effective cancels together reach the limit, no new id ever enters the table |
| `Streamers.NextKeepsOk` | streamer.go:16-39 | every step keeps each stream's trace in the log equal to its progress |
| `Streamers.HubConnection.WriteMessage` | hubconnection.go:239-263 | a write is stamped always, logged only on a live connection, and a failed one cancels the connection |
| `Streamers.HubConnection.Abort` | hubconnection.go:86-88 | cancels and changes nothing else |
| `Streamers.Streamer.Turn` | streamer.go:20-36 | one turn of the sending goroutine is the step of the model |
| `Streamers.Streamer.Stop` | streamer.go:41-48 | a cancel enters the table once, within the limit, as the step whose effect on the stream is proved |
| `InvokeClients.CallChannelsAreSafe` | invokeclient.go:31-64 | in every run no call channel is closed twice, sent to after closing or sent more than its buffer holds |
| `InvokeClients.CancelAllClosesExactlyTheUnlost` | invokeclient.go:52-64 | after cancelAllInvokes and its goroutines, the older calls with both channels closed are exactly those not registered again while outstanding |
| `CallHistories.CallsFollowTheirHistory` | invokeclient.go:31-117 | in every run each call is decided by the first step that concerns it (registered again, deleted, answered, or caught by cancelAllInvokes), and its channels carry exactly what that step brought and are closed exactly then |
| `CallHistories.WaitingCallersAreTold` | invokeclient.go:52-64 | a call outstanding at cancelAllInvokes has, once its goroutine has run, no value and exactly the error that the loop ended, and its caller receives exactly one error result under every uncancelled schedule |
| `InvokeClients.FreshIdsLoseNothing` | invokeclient.go:31-40 | no call is lost if and only if no id was registered while outstanding |
| `InvokeClients.CompleteDelivers` | invokeclient.go:73-117 | a completion closes the call's channels with exactly its content on them, an error hiding a result |
| `InvokeClients.NextKeepsInv` | invokeclient.go:31-117 | every operation keeps each channel pair outstanding, leaving, lost or closed |
| `InvokeClients.CloseEach` | invokeclient.go:52-64 | the loop closes every result channel of the table once and starts one goroutine for each |
| `InvokeClients.InvokeClient.NewInvocation` | invokeclient.go:31-40 | registers a fresh channel pair under the id |
| `InvokeClients.InvokeClient.DeleteInvocation` | invokeclient.go:42-50 | removes a known call and closes both its channels; nothing for an unknown one |
| `InvokeClients.InvokeClient.CancelAllInvokes` | invokeclient.go:52-64 | empties the table as the model's step does |
| `InvokeClients.InvokeClient.ReceiveCompletionItem` | invokeclient.go:73-117 | answers and removes a known call, reports an unknown or undecodable one |
| `InvokeRaces.NoRaceNoPanic` | invokeclient.go:73-117 | with lookup, sends and deletion as separate steps, every interleaving is safe in which no caller deletes the call being answered or registers it again |
| `InvokeRaces.NoRaceDelivers` | invokeclient.go:73-117 | in every interleaving without such a race, when the handling of a completion is over the call's channels are closed with exactly its content |
| `InvokeRaces.PanicsIffSentAfterRace` | invokeclient.go:73-117 | some channel has panicked if and only if a caller deleted the call being answered and a send came later, over all runs with any steps in between that register no id while it is outstanding or being answered |
| `InvokeResults.MergeInterleaves` | Invokeresult.go:15-45 | for every select schedule the output interleaves both inputs in order with nothing lost or duplicated, and closes without a cancel only after both, holding all of both |
| `InvokeResults.CancelEndsMerge` | Invokeresult.go:22-24 | when the context ends the output is closed with what it had, whatever is still to come |
| `InvokeResults.ErrorOnlyYieldsOneError` | client.go:530-538 | a source with only an error yields exactly one error result |
| `InvokeResults.InvokeDelivers` | client.go:426-452 | what a caller of Invoke receives for each form of completion, under every schedule |
| `InvokeResults.EitherMayComeFirst` | invokeclient.go:98-106 | the value and the nil error of a result can arrive in either order |
| `InvokeResults.MergeChannels` | Invokeresult.go:17-43 | the goroutine's loop computes the merge |
| `Ids.UniqueIffNoOverlap` | loop.go:191-195 | when all calls are done their ids are unique if and only if none overlapped another |
| `Ids.RunValues` | loop.go:191-195 | the counter is the number of calls begun, a call's id is never below its own number, and all are equal to it exactly when nothing overlapped |
| `StreamClients.RegistriesAgree` | loop.go:150-162 | in every run a pulled stream is in both registries or in neither, and its stream channel is closed exactly when its call channels are |
| `StreamClients.PulledCompletionIsKnown` | loop.go:278-292 | a completion of any form for an outstanding pulled stream is never unknown |
| `StreamClients.CompletionRetires` | streamclient.go:118-154 | after a completion its id is in neither registry and what was registered is closed |
| `StreamClients.ResultIsTheOnlyItem` | streamclient.go:127-143 | in every run a completion with a result is accepted only for a stream without items, and its channel then holds exactly that result |
| `StreamClients.NextKeepsInv` | streamclient.go:51-82 | every event keeps the registries in agreement and every channel sound |
| `PulledStreams.PulledStreamCarries` | loop.go:150-162 | in every run the channels of a pulled stream hold the items that came for it, in order, and the error that ended it or nothing, and are open exactly until it is over |
| `PulledStreams.ErrorReachesCaller` | streamclient.go:124-126 | after an error completion of an outstanding pulled stream its error channel holds that error alone, for good, its items are as they were, and all is closed |
| `PulledStreams.PulledCallerGets` | Invokeresult.go:15-45 | under every uncancelled schedule the caller of a pulled stream gets its items in order, and an error if and only if an error completion ended it |
| `PulledStreams.LoopCallsFollow` | loop.go:278-292 | in every run of both registries the table of calls refines the history of the steps that concern it |
| `PulledStreams.AnsweredCallerGets` | invokeclient.go:73-117 | what a completion brought for an ordinary call is on its closed channels from then on, and is exactly what its caller gets |
| `StreamRaces.UninterruptedIsCompletion` | streamclient.go:118-154 | lookup, result, close and removal with nothing in between are the completion of the registry |
| `StreamRaces.PanicsIffClosedTwice` | streamclient.go:118-154 | with lookup, result, close and removal as separate steps, some stream channel has panicked if and only if a caller deleted the stream after the close and before the removal, or after the lookup with the close still to come |
| `StreamClients.CompletionUnknownIff` | loop.go:278-292 | a completion of any form is unknown if and only if no call has its id and no stream has it, or only a stream and the completion is an error |
| `StreamClients.StreamClient.BuildChannelArgument` | streamclient.go:32-49 | binds the next stream id to a new channel, or says why not |
| `StreamClients.StreamClient.NewUpstreamChannel` | streamclient.go:51-57 | registers a new channel |
| `StreamClients.StreamClient.DeleteUpstreamChannel` | streamclient.go:59-66 | closes and removes a known channel |
| `StreamClients.StreamClient.ReceiveStreamItem` | streamclient.go:68-101 | marks the stream as running and sends the decoded item, with each error case |
| `StreamClients.StreamClient.ReceiveCompletionItem` | streamclient.go:118-154 | ends a known stream in both registries, with each error case |
| `MessageLoops.RunLeavesNoCallWaiting` | loop.go:140-148 | whatever ends the loop short of a crash, afterwards no call is outstanding: every result channel is closed once and every error channel closed or about to be, except those of calls whose id was registered again while outstanding |
| `MessageLoops.RunLeavesStreamsOpen` | loop.go:140-148 | the end of the loop closes no stream: the open stream channels are exactly those registered when it ended and those whose id was registered again while they were |
| `MessageLoops.MessageLoop.Run` | loop.go:48-148 | the event loop and its shutdown compute the model's run: registries, log, write stamp, next tick, deadline, and when and why it ends |
| `LoopTimes.LoopEndsFor` | loop.go:79-139 | a loop that goes on has met no timeout, cancel, failed receive or close, and its deadline is one timeout after the last message or its start; a loop that has ended did so at its last event, for the reason that goes with it |
| `LoopTimes.MessageEndsIff` | loop.go:83-124 | exactly which items, completions, invocations and keep-alive ticks end the loop |
| `LoopTimes.LoopWatchesALine` | loop.go:83-85 | in every run the loop's receives and timeout are the watcher's steps of a keep-alive line: its deadline is the line's, and it has ended with the timeout error if and only if the line is dead |
| `LoopTimes.LoopTimeoutIff` | loop.go:125-127 | the message loop itself can time out on a running peer if and only if the peer's interval, lag, delay and head start together reach the timeout |
| `LoopTimes.LoopWritesALine` | loop.go:112-124 | on a live connection the loop's writes and keep-alive ticks are the writer's steps of a line, with its stamp and next tick |
| `LoopTimes.LoopIsNeverSilent` | loop.go:112-124 | the loop is never silent longer than interval and lag, and a tick sends a ping exactly after a silent interval |
| `LoopTimes.PeerHearsOfTheEnd` | loop.go:140-148 | after the loop nothing is written any more; after an error the last message is the close that ends the loop of a peer that gets it |
| `LoopRegistries.LoopRunsItsRegistries` | loop.go:83-111 | the registries of a loop are where the steps its events amount to lead, and with proper ids this is a run of the registries |
| `LoopRegistries.LoopTellsItsCallers` | loop.go:150-162 | in every run of the message loop with proper ids a pulled stream's channels carry the items and the error that came for it |
| `LoopRegistries.LoopEndTellsCallers` | loop.go:140-148 | whatever ends the loop short of a crash, each caller that still waits is told that it ended, and nothing else |
| `LoopRegistries.LoopAnswers` | loop.go:197-276 | on a live connection the loop itself answers exactly refused invocations and items nobody took, each with one error completion; calls and pulls put their invocation on the wire; a cancel makes the next turn of its stream end it |
| `MessageLoops.MessageLoop.HandleEvent` | loop.go:82-134 | each case of the select has the effect and the error of the model's event; a message and a failed receive move the deadline |
| `MessageLoops.MessageLoop.HandleMessage` | loop.go:83-111 | each kind of message has the effect of the model's, an answer to it being in the log and the stamp |
| `MessageLoops.MessageLoop.HandleInvocationMessage` | loop.go:197-226 | binds the arguments, and writes the completion of a refused invocation |
| `MessageLoops.MessageLoop.PullStream` | loop.go:150-162 | registers call and stream together, writes the invocation, and removes both when sending fails |
| `MessageLoops.MessageLoop.PlaceCall` | client.go:435-443 | registers a call, writes the invocation, and removes the call when sending fails |
| `MessageLoops.MessageLoop.HandleStreamItemMessage` | loop.go:264-276 | delivers an item; a receive timeout is answered to the peer instead of returned |
| `MessageLoops.MessageLoop.HandleCompletionMessage` | loop.go:278-292 | gives the completion to the registry that knows its id |
| `Dispatch.OneCompletion` | loop.go:197-262 | for a method that does not panic there is at every moment at most one completion and nothing behind it, and on a live connection the reply is exactly the protocol's |
| `Dispatch.ExactlyOneIffNoPanic` | loop.go:216-223 | a finished invocation on a live connection has exactly one completion if and only if it did not panic, else two or three |
| `Dispatch.AnswerSaysWhatHappened` | loop.go:197-262 | a finished invocation on a live connection has been answered as it is due: a non-empty error for a missing method, bad arguments, a stream invocation without one result, a panic or a channel closed empty; otherwise the value, or the items, all of them unless a cancel came |
| `Dispatch.NextKeepsOk` | loop.go:228-262 | every action of every goroutine keeps what was sent a part of the reply |
| `Dispatch.InvocationHandler.HandleInvocationMessage` | loop.go:197-226 | refuses a missing method, bad arguments or a stream invocation without one result; else starts the call |
| `Dispatch.InvocationHandler.SendResult` | loop.go:305-329 | no value, one or several give an empty completion, or the given kind of message |
| `Dispatch.InvocationHandler.Resume` | loop.go:217-262 | each action after the call has the effect of the model's step |
| `Arguments.SplitThenMerge` | loop.go:164-189 | what PushStreams takes apart buildMethodArguments puts together: parameter i is bound to argument i, for every matching signature; with decodable arguments it succeeds when the limit has room, and for new ids only then |
| `Arguments.OutcomeByCounts` | loop.go:345-375 | when arguments decode and stream ids are new, success, stream limit, too few streams and index panic each follow from the counts and the room under the limit alone; the check behind the loop never fires |
| `Arguments.MergeOutcome` | loop.go:352-374 | each outcome of the loop tells how stream ids and channel parameters compare |
| `Arguments.MergeKeepsLimit` | streamclient.go:37-44 | binding stream arguments leaves the table within the limit of concurrent streams, or as it was |
| `Arguments.RoomSuffices` | streamclient.go:37-44 | with room for all announced streams the limit never strikes |
| `Arguments.MergeKeepsExact` | loop.go:352-374 | binding keeps the open stream channels exactly the registered ones and those whose id was bound again |
| `Arguments.SplitArguments` | loop.go:167-178 | the loop separates channels and plain arguments in order and gives each channel its own id |
| `Arguments.BuildMethodArguments` | loop.go:345-375 | the loop computes the merge |
| `KeepAlive.TimeoutSafeIff` | loop.go:125-127 | a watcher can time out on a running peer if and only if keep-alive interval, lag, link delay and head start together reach the timeout |
| `KeepAlive.NeitherTimesOut` | loop.go:76-135 | if each party's interval plus lag, delay and head start is below the other's timeout, neither ever times out |
| `KeepAlive.WriteGapBound` | loop.go:112-123 | with writes at any time, also before the loop starts: the next tick is at most one interval after the last write or the start of the loop, whichever is later; the writer is never silent longer than interval and lag after that; and a tick pings exactly when an interval has passed since |
| `KeepAlive.NextKeepsLine` | loop.go:83-127 | every step keeps the send times gapped and the deadline ahead |
| `FramingRoundTrip.FramesRoundTrip` | messagepackhubprotocol.go:35-100 | bodies prefixed with their lengths come back in order from repeated calls, however the bytes are cut into reads, while every length buffer is full or holds whole frames only and no EOF cuts a body; what is left over encodes the rest, and if it is only zero bytes everything has come back |
| `FramingRoundTrip.ShortFrameRightIff` | messagepackhubprotocol.go:68-97 | a frame whose length was decoded from a buffer with room left is right if and only if its bytes beyond that buffer are all zero |
| `FramingRoundTrip.TurnFollows` | messagepackhubprotocol.go:39-97 | a turn takes the next body, skips a zero byte or waits, and what is buffered and to come then encodes exactly the bodies left |
| `FramingRoundTrip.PaddedTake` | messagepackhubprotocol.go:40-73 | a length buffer with room left acts like one filled up with zero bytes |
| `FramingOrder.InOrderIffSteady` | messagepackhubprotocol.go:37-99 | every turn that goes on or returns accounts for all bytes in order, if and only if the input (buffered bytes, bytes to come, answers of the reader) is steady |
| `FramingOrder.SteadyConserves` | messagepackhubprotocol.go:37-99 | a call on steady input that returns has neither lost, added nor moved a byte |
| `FramingOrder.TurnMeetsVerdict` | messagepackhubprotocol.go:39-97 | for each turn the input decides whether it ends in order, loses the order, or goes on, and with which bytes |
| `FramingOrder.CutNeverKeeps` | messagepackhubprotocol.go:78-82 | EOF inside a body always loses bytes: padding never makes up for the prefix |
| `FramingOrder.UnfinishedPrefixMoves` | messagepackhubprotocol.go:51-56 | five buffered bytes that are no whole prefix are put behind the other buffered bytes |
| `FramingOrder.ZeroFrameMoves` | messagepackhubprotocol.go:60-65 | the four bytes after a zero length are put behind the other buffered bytes |
| `FramingOrder.ZeroFrameReorders` | messagepackhubprotocol.go:60-65 | an input with full length buffers and no EOF whose frame mixes the bytes of others |
| `FramingOrder.ReorderJudged` | messagepackhubprotocol.go:60-65 | that input is not steady |
| `MessagePackFraming.FramesHaveTheirLengths` | messagepackhubprotocol.go:50-97 | whatever the bytes and reads, the frames are the non-empty bodies behind prefixes that decode to their lengths |
| `MessagePackFraming.ReadBodyConserves` | messagepackhubprotocol.go:76-98 | the inner loop keeps its bytes; a cut drops only what came with the EOF |
| `MessagePackFraming.CutKeepsEarlierReads` | messagepackhubprotocol.go:76-82 | a body cut by EOF is put back with the bytes of the reads before it and with none that came with the EOF |
| `MessagePackFraming.OverlongIsNeverRejected` | messagepackhubprotocol.go:57-59 | the length error of the prefix is never returned |
| `FramingRoundTrip.ShortReadCorrupts` | messagepackhubprotocol.go:73-73 | a short first read puts zero bytes into the frame |
| `MessagePackFraming.FitsLengthBuffer` | messagepackhubprotocol.go:373-378 | a prefix fits the five bytes exactly for lengths below 2 to the 35th |
| `MessagePackFraming.UvarintInverts` | messagepackhubprotocol.go:50-50 | decoding a written prefix gives the length back, whatever follows |
| `MessagePackFraming.UvarintCut` | messagepackhubprotocol.go:51-56 | a prefix is decoded from its own bytes and from no fewer |
| `MessagePackFraming.MessagePackHubProtocol.ReadFrames` | messagepackhubprotocol.go:35-100 | the loop over reader and remain buffer computes the call |
| `MessagePackFraming.MessagePackHubProtocol.ReadFrame` | messagepackhubprotocol.go:38-97 | one turn of it |
| `MessagePackFraming.MessagePackHubProtocol.TakeFrame` | messagepackhubprotocol.go:60-97 | the part after the length is known |
| `MessagePackFraming.MessagePackHubProtocol.ReadWhole` | messagepackhubprotocol.go:76-98 | the inner loop |
| `MessagePackCodec.MessageRoundTrip` | messagepackhubprotocol.go:102-371 | every written message, with any nested values, parses back to its normal form with all tokens used |
| `MessagePackCodec.UnchangedIff` | messagepackhubprotocol.go:317-346 | a message comes back unchanged unless it is a completion with both error and result |
| `MessagePackGrammar.ParseIff` | messagepackhubprotocol.go:102-249 | the parser accepts exactly the layouts of the grammar, written by this writer or not: any header map, invocations with or without stream ids, ids or nil, closes with or without the reconnect flag, each result kind with its length; and gives the message laid out and what follows it |
| `MessagePackGrammar.IgnoredIff` | messagepackhubprotocol.go:121-249 | exactly well-formed heads of unknown type are passed over; everything else is an error |
| `MessagePackGrammar.HeadersIgnored` | messagepackhubprotocol.go:116-120 | a message parses as its body does, whatever its header map |
| `MessagePackGrammar.DecodedIsEncoded` | messagepackhubprotocol.go:145-151 | decoding takes exactly the tokens of the value it gives |
| `MessagePackGrammar.WrittenIsLayout` | messagepackhubprotocol.go:268-371 | what is written is one of these layouts, without headers |
| `MessagePackCodec.ParsedIsNormal` | messagepackhubprotocol.go:102-249 | whatever tokens a message was parsed from, writing it again gives it back; which tokens these are says `ParseIff` |
| `MessagePackCodec.OneArrayIffNotClose` | messagepackhubprotocol.go:361-370 | the tokens are one complete array of the announced length for every message but Close, which leaves its last element behind |
| `MessagePackCodec.DecodeEncode` | messagepackhubprotocol.go:145-151 | a nested value is read back from its tokens and no further |
| `MessagePackCodec.WriteMessage` | messagepackhubprotocol.go:268-371 | the branches and loops write the layout |
| `MessagePackCodec.ReadArguments` | messagepackhubprotocol.go:145-151 | the loop reads that many values or fails |
| `MessagePackCodec.ReadStreamIds` | messagepackhubprotocol.go:158-164 | the loop reads that many strings or fails |
| `MessagePackWire.MessagesComeBack` | messagepackhubprotocol.go:19-33 | layout and framing together: for any division into reads with length buffers full or holding whole frames, and no EOF inside a body, the frames parse to the messages written, in order; to all of them when only zero bytes are left |
| `JsonFraming.ChunkingDoesNotMatter` | jsonhubprotocol.go:158-184 | for every division into reads and calls, the frames handed out are the split of the bytes consumed and the remainder is its tail |
| `JsonFraming.CallConserves` | jsonhubprotocol.go:158-184 | a call that returns conserves its bytes and keeps frames and remainder free of separators and within the limit |
| `JsonFraming.GatherSplits` | jsonhubprotocol.go:163-183 | a returned call has at least one frame; a refused one gathered more than the limit |
| `JsonFraming.ReturnsIffSeparated` | jsonhubprotocol.go:163-183 | a call that is not refused returns if and only if a separator comes before the reader fails, and otherwise hands on the reader's error |
| `JsonFraming.WrittenFramesComeBack` | jsonhubprotocol.go:215-217 | bodies without a separator come back from what is written |
| `JsonFraming.LimitDependsOnChunking` | jsonhubprotocol.go:171-173 | with a limit the same bytes are accepted or refused depending on the reads |
| `JsonFraming.LimitSafeIff` | jsonhubprotocol.go:169-173 | no division of the data is refused if and only if there is none, or the leftover and the data up to one read behind its first separator stay within the limit |
| `JsonFraming.ParseJSONFrames` | jsonhubprotocol.go:186-201 | the loop computes the split |
| `JsonFraming.ReadBytes` | jsonhubprotocol.go:189-194 | cuts at the first separator, or takes everything |
| `JsonFraming.ReadJSONFrames` | jsonhubprotocol.go:158-184 | the loop over reader and remain buffer computes the call |
| `RedisHub.AtMostOneSend` | ext/redishublifetimemnager.go:126-258 | in every run each call is queued once for every instance, and causes at most one send per connection, with its own method and arguments, none where it was published and none to an excluded one |
| `RedisHub.OnePatternEach` | ext/redishublifetimemnager.go:78-116 | every published channel matches exactly one of the two subscribed patterns |
| `RedisHub.HandleReachesTheIntended` | ext/redishublifetimemnager.go:147-254 | handling a publication adds exactly the sends its target selects, for a group without those members whose query failed, and publishes nothing; nothing else sends |
| `RedisHub.ExactIffNamed` | ext/redishublifetimemnager.go:316-414 | a target is reached exactly in every state if and only if it has a name |
| `RedisHub.CacheAgreesWithRedis` | ext/redishublifetimemnager.go:262-311 | whatever commands fail, and also for connections that are gone, cached groups have the connection in Redis; if none fails they agree |
| `RedisHub.MemberIff` | ext/redishublifetimemnager.go:262-494 | in every run a connection is in the set of a group if and only if its last command for the group was an add without error and no disconnect removed it since, or a command that reported an error and left it a member |
| `RedisHub.FlawlessDisconnect` | ext/redishublifetimemnager.go:270-311 | without a failure a connection is in no set right after its disconnect, and later is in the set of a group if and only if its last command for the group came after the disconnect and was an add |
| `RedisHub.AddBesideDisconnect` | ext/redishublifetimemnager.go:417-454 | a run without any failure at whose end a gone connection is in a set |
| `RedisHub.RemoveBesideDisconnect` | ext/redishublifetimemnager.go:457-494 | a run in which a removal after the disconnect makes up for the one that failed |
| `RedisHub.GoneButMemberIff` | ext/redishublifetimemnager.go:270-311 | at any time after a disconnect, whatever commands followed it, the connection is in the set of a group if and only if its last command for the group was an add without error that came after the disconnect or that the disconnect did not remove, or a command that reported an error and left it a member |
| `RedisHub.NextKeepsCacheOk` | ext/redishublifetimemnager.go:417-494 | every step, group commands of gone connections included, keeps the cache within Redis |
| `RedisHub.MembersAfter` | ext/redishublifetimemnager.go:262-494 | how each step changes the set of each group |
| `RedisHub.RedisHubLifetimeManager.OnConnected` | ext/redishublifetimemnager.go:262-268 | adds the connection with an empty cache entry |
| `RedisHub.RedisHubLifetimeManager.OnDisconnected` | ext/redishublifetimemnager.go:270-311 | removes it and, by its cache, from the sets |
| `RedisHub.RedisHubLifetimeManager.AddToGroup` | ext/redishublifetimemnager.go:417-454 | adds to cache and set, taking the cache back on an error |
| `RedisHub.RedisHubLifetimeManager.RemoveFromGroup` | ext/redishublifetimemnager.go:457-494 | removes from the cache and, if Redis does, from the set |
| `RedisHub.RedisHubLifetimeManager.HandleRedisMessage` | ext/redishublifetimemnager.go:126-258 | sends once to each recipient the dispatch selects |
| `RedisHub.SendToEach` | ext/redishublifetimemnager.go:184-221 | the visits of the client table that pass, each once |
| `HttpMuxes.PendingIsBounded` | httpmux.go:253-271 | in every run negotiated pending entries stay within the limit and none is older than twice the time to live |
| `HttpMuxes.ReapedAtTheRightAge` | httpmux.go:34-52 | a tick removes exactly the pending entries older than the time to live, none older than twice that, and no live connection |
| `HttpMuxes.OldestAgeIsReached` | httpmux.go:42-50 | the bound of twice the time to live is reached |
| `HttpMuxes.ServeFreesIff` | httpmux.go:208-209 | in every run, serving a claimed connection frees its pending entry if and only if it is an event stream or was negotiated under its own id |
| `HttpMuxes.NegotiationIsAnswered` | httpmux.go:253-271 | in every run a negotiation is accepted exactly if its entry is then pending under the key it was told, and refused exactly if a limit of pending entries is reached, which changes nothing |
| `HttpMuxes.PendingIffWaiting` | httpmux.go:34-52 | the pending entries are in every run exactly those made and since then neither expired at a tick nor served nor removed, each with the time it was made |
| `HttpMuxes.LiveIffServing` | httpmux.go:302-311 | the live entries are in every run exactly the connections being served |
| `HttpMuxes.TokenEntryStaysIff` | httpmux.go:253-271 | an entry negotiated under a token that no event stream asks for is pending and counted, whatever is served, if and only if no tick has reaped it |
| `HttpMuxes.NextKeepsOk` | httpmux.go:191-311 | every step keeps limit and ages |
| `HttpMuxes.CountPending` | httpmux.go:255-260 | the loop counts the pending entries |
| `HttpMuxes.ReapLoop` | httpmux.go:44-48 | the loop removes the expired entries |
| `HttpMuxes.HttpMux.Negotiate` | httpmux.go:223-271 | inserts under id or token unless the limit is reached |
| `HttpMuxes.HttpMux.OnReaperTick` | httpmux.go:42-49 | reaps the table |
| `ServerSentEvents.EventsArrive` | clientsseconnection.go:41-65 | for every division into reads of whole lines the client writes the contents of the payloads in order |
| `EventReads.EventsArriveIff` | clientsseconnection.go:41-65 | for every division into reads the contents of the payloads arrive if and only if each read ends at the end of a line, or the next one continues the line with blanks alone or leaves it without content |
| `EventReads.CutLine` | clientsseconnection.go:48-64 | a printed line cut in two loses content unless the cut is harmless, and never gains any |
| `ServerSentEvents.ReadableIff` | clientsseconnection.go:41-47 | events can be divided into reads of whole lines of at most 32 KiB if and only if every line with its end fits one |
| `ServerSentEvents.CleanPayloadsArrive` | clientsseconnection.go:41-65 | payloads without newlines and trailing blanks arrive as they are |
| `ServerSentEvents.ArrivesUnchangedIff` | serversseconnection.go:76-91 | a payload is unchanged if and only if it has no newline and no blank at its end |
| `ServerSentEvents.LineBack` | clientsseconnection.go:50-59 | a printed line parses to the line without trailing blanks |
| `ServerSentEvents.WriteEvent` | serversseconnection.go:80-87 | the loop prints the event |
| `ServerSentEvents.HandleRead` | clientsseconnection.go:48-64 | the loop parses a read |
| `ClientStates.ListedIffFair` | client.go:345-366 | throughout a run an observer is listed exactly while open, if and only if no channel is registered after closing or cancelled while registered twice |
| `ClientStates.ObserversAreSafe` | client.go:321-366 | for every interleaving of state changes, late deliveries, registrations and cancels by such callers, no observer channel is closed twice or sent to after closing |
| `ClientStates.DistinctIsFair` | client.go:345-354 | distinct observer channels meet that condition |
| `ClientStates.ObserversAreTold` | client.go:321-343 | distinct observers are told every state as it is set and nothing else: deliveries made, under way and missed are as many as the times the state was set while the channel was registered; and the client's state is the one set last |
| `ClientStates.SharedChannelPanics` | client.go:356-366 | a run from a new client in which a channel is registered twice and cancelled once ends in a panic of the delivery under way |
| `ClientStates.NextKeepsOk` | client.go:328-366 | every step keeps list and channels in agreement |
| `ClientStates.WaitForState` | client.go:380-424 | yields at most one error, the one that goes with what ended the wait, and closes without one exactly when the awaited state was seen |
| `ClientStates.StateObservable.SetState` | client.go:321-343 | sets the state and starts one delivery for each entry |
| `ClientStates.StateObservable.CancelObserveStateChanged` | client.go:356-366 | removes the first entry of the channel and closes it |

## Left out

- Value encoding: payloads are opaque, with a partial decoding function; the byte form of MessagePack tokens is any invertible function; JSON bodies are taken to have no raw separator.
- MessagePack library: a decoder accepts the token of the asked kind only, while the real one also takes nil for a string or an array.
- `parseMessage` as one method: the parser is a function on tokens, with its two loops as methods.
- Reflection: a hub method is a list of parameter kinds and an outcome; looking methods up by name is not part of the model.
- The goroutine that keeps an item after a receive timeout (`streamclient.go:84-101`) and may still send it later: runs with such timeouts are in the registry results, not in the end-to-end ones.
- The timers beside the capacity-1 sends of `invokeClient.receiveCompletionItem` are taken not to fire before a send that cannot block.
- Atomic steps: apart from `InvokeRaces` and `StreamRaces`, each method under a mutex and each loop event is one step; so is each group command of the Redis manager, which holds no lock between its cache and Redis.
- Registering an id again while it is outstanding or being handled: in the table results, not in `InvokeRaces` and `StreamRaces`.
- Group commands issued on another instance than the one the connection belongs to.
- A message whose write was abandoned by a cancelled connection but still reached the wire is treated as written before the cancel.
- Calls placed after the loop has ended are not covered by `RunLeavesNoCallWaiting`.
- The error that a caller of PullStream or Invoke gets directly when its own send failed: only the removal from the registries is modelled, and the error-only result channel by itself (`ErrorOnlyYieldsOneError`).
- In `LoopTimes` the clock of a run is that of one line; the two lines of a loop share it in `NeitherTimesOut`.
- A pulled stream whose method is refused or panics, and which is answered by an error completion: in the registry results, not in the end-to-end ones.
- Lock waits: a delivery of a state change holds the client's lock while its channel is full; progress of observers is not claimed.
- Handshake, reconnect and back-off of the client, hub lifetime without Redis, group and client proxies, routers, transports and logging: I/O, forwarding or single branches that would only add easy members.
- Redis subscription failures and instances that join late: every instance is subscribed from the start.
