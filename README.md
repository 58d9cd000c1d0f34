# katchat event loop and chat client, modelled in Dafny

katchat is a small chat system built on Java NIO. Each party is a component
(`AbstractServerComponent`) that owns one selectable channel and a
selector. A thread runs `run`, which repeats `runMainLoop` while `running`
is set. `runMainLoop` selects, then walks the selected-key set. It removes
each key from the set and skips it when it is invalid. Otherwise it hands
the key to exactly one handler, examined in the order connect, accept, read,
write. When `running` is cleared, `cleanUp` closes every registered channel
and then the selector.

The client role (`Client`) registers a non-blocking, connecting socket for
OP_CONNECT. It frames each outgoing message by appending the message
delimiter and queues it in `sendMessage`, which also asks for OP_WRITE.
Its write hook drains the queue and then asks for OP_READ. Its
`handleIncomingData` splits each received payload on the delimiter with
the semantics of Java's `String.split` and passes each piece to
`onMessage`.

The project has five modules:

- `Framing` (framing.dfy): `String.split` on a literal delimiter, the
  framing that `sendMessage` applies, and their round trip.
- `Nio` (nio.dfy): the part of `java.nio` the loop relies on, as plain
  state. Channels are open or closed and blocking or not. Keys are valid
  or cancelled and carry an interest set and a ready set. The selected-key
  set is kept in iteration order. The operating system's answers (readiness
  reports, accept, read and write outcomes) are inputs. The module also
  holds the handler choice for one key.
- `Driver` (driver.dfy): the whole state of a component as one value
  (`World`), and every transition of the loop and the client as a function
  on it. Exceptions are explicit: `Threw` is an IOException that escapes to
  `runMainLoop` and is caught there; `Crashed` is an unchecked exception
  that ends the loop thread.
- `Properties` (properties.dfy): properties that relate several
  transitions. These cover the dispatch order, the fate of every queued
  message, the trip from `sendMessage` over the wire to `onMessage`, and
  shutdown.
- `Component` (component.dfy): the component as the program has it, a
  class whose fields the methods update in place. It has a fixed-size
  `array` for the receive buffer, and loops that fill the buffer, drain
  the queue, walk the selected keys, close every channel and repeat the
  main loop. Each method is proved to perform a `Driver` transition on
  `Abs()`, the object's state read as a `World`. That is the transition of
  the same name, except that `Close` performs `CloseAndCancel` and
  `RunMainLoop` performs `MainLoop`. So everything proved about `Driver`
  holds of the object.

Behaviour of the code that the model keeps:

- An empty payload (a read that returns 0 characters) is split into
  `[""]`, so `onMessage("")` is called once. This is Java's `split` result
  for an input with no match.
- `accept()` returning null (no connection pending) makes the next call
  throw a NullPointerException. Nothing catches it, so the loop thread ends
  without cleaning up (`Crashed`, `RunExit.Died`).
- An IOException from the client's write hook loses the message just
  polled from the queue. The messages after it stay queued.
- An exception from a handler ends the walk of the selected keys. The keys
  not yet reached stay selected for the next iteration.
- The framing round trip needs more than "the message does not contain the
  delimiter" when the delimiter can overlap itself.
  `OverlappingDelimiterCounterexample` shows `"xa"` framed with `"aa"`
  coming back as `["x", "a"]`. The exact condition is `Unambiguous`: no
  occurrence of the delimiter starts inside the message. For a
  one-character delimiter this is the same as not containing it.
- `sendMessage` replaces the key's interest set rather than adding to it.
  Called before the connection is finished, it turns OP_CONNECT into
  OP_WRITE, and a later readiness to finish the connection no longer
  selects the key (`SendBeforeConnect`).
- `cleanUp` closes the selector, and nothing reopens it. `start` called
  again after `run` has cleaned up runs the loop on the closed selector:
  `select` throws the unchecked ClosedSelectorException, which the
  `catch (IOException e)` does not catch, so the thread dies. Stopped before
  its first iteration, it dies in `cleanUp`'s `keys()` instead
  (`RestartAfterCleanUp`).
- Java's `finishConnect` result is ignored by the code, so only whether it
  throws matters. `Os.finishConnect` is that choice.

## Model

| member | source | states |
|---|---|---|
| Framing.IndexFrom | src/main/java/com/kat/client/Client.java:45 | the result is the leftmost occurrence of the delimiter at or after `from`, and none is reported exactly when there is no occurrence there |
| Framing.Pieces | src/main/java/com/kat/client/Client.java:45 | cutting at leftmost non-overlapping occurrences yields at least one piece, and no piece contains the delimiter |
| Framing.DropTrailingEmpty | src/main/java/com/kat/client/Client.java:45 | the result is a prefix of the input ending in a non-empty string, and everything it removes is empty |
| Framing.Split | src/main/java/com/kat/client/Client.java:45 | with no occurrence the whole input is the single result, the empty input included; otherwise the pieces without trailing empty strings; no result contains the delimiter |
| Framing.JoinPieces | src/main/java/com/kat/client/Client.java:45 | splitting loses nothing: the pieces joined with the delimiter are the input |
| Framing.Frame | src/main/java/com/kat/client/Client.java:61 | the frame `sendMessage` queues is the message, then one occurrence of the delimiter at the message's end |
| Framing.Frames | src/main/java/com/kat/client/Client.java:61 | one frame per message (the order is `FramesAt`) |
| Framing.FramesAt | src/main/java/com/kat/client/Client.java:61 | the k-th frame is the frame of the k-th message, so the frames keep the messages' order |
| Framing.Concat | src/main/java/com/kat/client/Client.java:55 | nothing written puts nothing on the wire (one string is `ConcatSingle`, several are `ConcatAppend`) |
| Framing.ConcatSingle | src/main/java/com/kat/client/Client.java:55 | one string written puts exactly that string on the wire |
| Framing.ConcatAppend | src/main/java/com/kat/client/Client.java:53-56 | writing two batches one after the other puts their concatenation on the wire |
| Framing.SingleCharUnambiguous | src/main/java/com/kat/client/Client.java:61 | for a one-character delimiter, a frame is unambiguous exactly when the message does not contain the delimiter |
| Framing.OverlappingDelimiterCounterexample | src/main/java/com/kat/client/Client.java:45 | one instance: the delimiter-free message `"xa"` framed with the self-overlapping delimiter `"aa"` splits into `["x", "a"]`, so not containing the delimiter is not enough for the round trip |
| Framing.PiecesOfFrame | src/main/java/com/kat/client/Client.java:45 | when the message is unambiguous, its frame followed by more input splits into the message, then the pieces of the rest |
| Framing.PiecesOfFrames | src/main/java/com/kat/client/Client.java:45 | when each message is unambiguous, the concatenated frames cut into the messages plus one empty trailing piece |
| Framing.RoundTrip | src/main/java/com/kat/client/Client.java:45 | splitting the concatenation of the frames `sendMessage` queues (line 61) gives back exactly the messages, when there is one, the last is non-empty and each is unambiguous |
| Framing.SplitEmpty | src/main/java/com/kat/client/Client.java:45 | the empty payload is delivered as one empty message |
| Framing.SplitTrailingDelimiter | src/main/java/com/kat/client/Client.java:45 | the payload `"a;b;"` with delimiter `";"` splits to `["a", "b"]`, an example of the trailing delimiter yielding no empty final message (the general fact is `Split`'s ensures that a non-empty result never ends in `""`) |
| Framing.PiecesOfDelimiterFree | src/main/java/com/kat/client/Client.java:45 | an input without the delimiter is its own single piece |
| Framing.SplitTrailingPiece | src/main/java/com/kat/client/Client.java:45 | for any delimiter, an unambiguous message followed by the delimiter and a non-empty final piece without the delimiter splits into exactly those two; with an empty first message, a leading delimiter yields a leading empty message |
| Framing.SplitOnlyDelimiters | src/main/java/com/kat/client/Client.java:45 | for any delimiter, a payload of one or more delimiters only yields no message |
| Nio.Choose | src/main/java/com/kat/server/AbstractServerComponent.java:83-95 | a key gets no handler exactly when it is invalid |
| Nio.ChoosePriority | src/main/java/com/kat/server/AbstractServerComponent.java:87-95 | a valid key goes to the handler of an operation exactly when that operation is ready and no ready operation is examined before it; it goes to none exactly when nothing is ready |
| Nio.Registered | src/main/java/com/kat/server/AbstractServerComponent.java:75 | deregistering cancelled keys leaves exactly the selected keys that are still registered, still distinct |
| Nio.MarkReady | src/main/java/com/kat/server/AbstractServerComponent.java:75 | a key named with operations of interest gets exactly those as its ready set, added to its earlier readiness when it was already selected; any other key keeps its ready set |
| Nio.Mark | src/main/java/com/kat/server/AbstractServerComponent.java:75 | a key joins the selected set exactly when it was selected or the report names it with an operation it is interested in; no key appears, disappears or changes validity or interest |
| Driver.Initial | src/main/java/com/kat/client/Client.java:29-41 | the component starts not running, with its one channel open, non-blocking and registered under identity 0; a client's channel is a socket registered for OP_CONNECT |
| Driver.Start | src/main/java/com/kat/server/AbstractServerComponent.java:45-49 | `running` is set and nothing else changes |
| Driver.Stop | src/main/java/com/kat/server/AbstractServerComponent.java:51-53 | `running` is cleared and nothing else changes |
| Driver.CloseAndCancel | src/main/java/com/kat/server/AbstractServerComponent.java:137-138 | exactly the one channel is closed and its key cancelled; nothing else changes |
| Driver.Connect | src/main/java/com/kat/server/AbstractServerComponent.java:116-127 | success makes the channel non-blocking with interest OP_WRITE; failure closes the channel and cancels its key; no other channel or key changes |
| Driver.Accept | src/main/java/com/kat/server/AbstractServerComponent.java:109-114 | a new connection adds exactly one fresh, open, non-blocking channel with a valid key for OP_READ; a null result crashes the loop and an IOException escapes, both changing nothing |
| Driver.HandleIncomingData | src/main/java/com/kat/client/Client.java:43-48 | the payload is recorded once; the client passes `onMessage` the split pieces in order, the server nothing |
| Driver.Read | src/main/java/com/kat/server/AbstractServerComponent.java:129-154 | a fault or end of stream closes and cancels that channel only and delivers nothing; otherwise at most the buffer's capacity is read, and exactly the first `position` characters of the buffer are delivered |
| Driver.Write | src/main/java/com/kat/client/Client.java:50-58 | the client's queue goes to the wire whole and in order, then the interest becomes OP_READ; a write throws exactly when the outcome names a queued message, which is then lost while the rest stay queued and the interest stays; the server's hook changes nothing |
| Driver.Dispatched | src/main/java/com/kat/server/AbstractServerComponent.java:80 | the key taken from the iterator is recorded with the handler its state chooses |
| Driver.HandleKey | src/main/java/com/kat/server/AbstractServerComponent.java:83-95 | handling a key records its one dispatch, keeps the state well formed, and leaves the selected set, `running` and the buffer's capacity alone |
| Driver.HandleKeyRoutes | src/main/java/com/kat/server/AbstractServerComponent.java:87-95 | a key whose chosen handler is connect, accept, read or write goes through exactly that transition, after its dispatch is recorded |
| Driver.HandleKeyEffects | src/main/java/com/kat/server/AbstractServerComponent.java:83-95 | no other key changes; only accept and write let an IOException escape, only accept crashes; an invalid or idle key changes nothing but the record |
| Driver.Advance | src/main/java/com/kat/server/AbstractServerComponent.java:80-81 | the key taken is removed from the selected set before it is handled, and does not occur in the rest |
| Driver.ProcessSelected | src/main/java/com/kat/server/AbstractServerComponent.java:79-96 | the walk keeps the state well formed; what stays selected is a suffix of the selected set, and nothing stays when the walk completes |
| Driver.Select | src/main/java/com/kat/server/AbstractServerComponent.java:75 | exactly the valid keys stay registered, with their interest; a key is selected exactly when it is registered and was selected or was reported with an operation it is interested in |
| Driver.SelectReady | src/main/java/com/kat/server/AbstractServerComponent.java:75 | a live key's ready set becomes the reported operations of interest, added to its earlier readiness when it was already selected, and stays as it was when none is reported |
| Driver.MainLoop | src/main/java/com/kat/server/AbstractServerComponent.java:73-100 | an iteration keeps the state well formed and `running` as it was; on a selector `cleanUp` closed, `select` throws the unchecked ClosedSelectorException and the thread ends with nothing changed; otherwise a failing selection is caught and changes nothing, and a successful one is followed by the walk, which ends the loop thread exactly when it crashed |
| Driver.CleanUp | src/main/java/com/kat/server/AbstractServerComponent.java:102-107 | every registered channel is closed and its key cancelled, other channels are untouched, then the selector is closed |
| Driver.Run | src/main/java/com/kat/server/AbstractServerComponent.java:57-62 | the loop cleans up exactly when the selector was open and it ends by `running` being false, and then every channel that still has a key is closed and its key cancelled, and the selector is closed; started stopped, it cleans up, or dies in `cleanUp`'s `keys()` when the selector was already closed; on a closed selector nothing changes, and the thread dies unless it was given no iteration |
| Driver.RunEndsOnlyOnStop | src/main/java/com/kat/server/AbstractServerComponent.java:57-62 | the loop cleans up only when it started stopped or an iteration requested a stop; it is still running after the iterations only when none requested one; it dies only while running or on a closed selector |
| Driver.SendMessage | src/main/java/com/kat/client/Client.java:60-64 | the frame is appended at the tail of the queue, earlier entries unchanged; the key's interest becomes OP_WRITE exactly when the key is still registered and valid, otherwise the call fails with the frame queued |
| Properties.Expected | src/main/java/com/kat/server/AbstractServerComponent.java:79-95 | the reference dispatch record of a walk has one entry per key |
| Properties.ExpectedAgree | src/main/java/com/kat/server/AbstractServerComponent.java:87-95 | keys in the same state get the same handlers |
| Properties.FirstStep | src/main/java/com/kat/server/AbstractServerComponent.java:79-96 | the first step removes and dispatches the head, keeps the other selected keys as they were, and the walk continues from it unless it threw |
| Properties.DispatchStep | src/main/java/com/kat/server/AbstractServerComponent.java:79-96 | dispatching the head and then the rest as the reference record says gives the reference record of the whole |
| Properties.DispatchedInOrder | src/main/java/com/kat/server/AbstractServerComponent.java:77-96 | every key the walk reaches is dispatched exactly once, in iteration order, to the handler its state chose before the walk began |
| Properties.DrainKeepsOrder | src/main/java/com/kat/client/Client.java:53-56 | every queued message reaches the wire once and in queue order, except at most the one whose write threw, which is neither sent nor kept |
| Properties.ReceiveFramed | src/main/java/com/kat/client/Client.java:45 | a payload of framed messages that fits the buffer reaches `onMessage` as exactly those messages, in order |
| Properties.SendAll | src/main/java/com/kat/client/Client.java:60-64 | successive `sendMessage` calls queue the frames in call order after the earlier entries |
| Properties.SendThenFlushRoundTrip | src/main/java/com/kat/client/Client.java:50-64 | sending messages and then flushing puts on the wire exactly the characters that split back into those messages, and empties the queue |
| Properties.SendBeforeConnect | src/main/java/com/kat/client/Client.java:63 | a message sent before the connection is finished replaces the client's OP_CONNECT interest with OP_WRITE, so a report that the connection can be finished no longer selects the key |
| Properties.SelectFaultIsContained | src/main/java/com/kat/server/AbstractServerComponent.java:97-99 | a failing selection is caught and the loop goes on as if that iteration had not happened; on a closed selector the thread dies instead |
| Properties.HandlerFaultIsContained | src/main/java/com/kat/server/AbstractServerComponent.java:97-99 | with the selector open, an IOException from a handler ends only the current iteration; the loop goes on from the state it left |
| Properties.StopThenRun | src/main/java/com/kat/server/AbstractServerComponent.java:51-62 | once stopped, `run` performs no iteration and cleans up, or dies in `cleanUp`'s `keys()` when the selector was already closed; stopping twice is stopping once |
| Properties.RestartAfterCleanUp | src/main/java/com/kat/server/AbstractServerComponent.java:45-62 | after `cleanUp` the selector stays closed: a restarted `run` dies at its first `select`, or in `cleanUp` when stopped first, and changes nothing |
| Properties.CleanUpIdempotent | src/main/java/com/kat/server/AbstractServerComponent.java:102-107 | the closing pass of `cleanUp` leaves nothing to close: applied to its own result it changes nothing; a fact about the pass only, since the program's second `cleanUp` throws in `keys()` |
| Component.Fill | src/main/java/com/kat/server/AbstractServerComponent.java:131-135 | the cleared buffer receives the available characters from its start, up to its capacity, and keeps the rest |
| Component.CloseAll | src/main/java/com/kat/server/AbstractServerComponent.java:103-105 | every registered channel is closed and its key cancelled; channels without a key are left alone |
| Component.Component.constructor | src/main/java/com/kat/server/AbstractServerComponent.java:36-42 | the new object is in the initial state of its role, with a fresh buffer of the given capacity |
| Component.Component.Start | src/main/java/com/kat/server/AbstractServerComponent.java:45-49 | performs `Driver.Start` in place |
| Component.Component.Stop | src/main/java/com/kat/server/AbstractServerComponent.java:51-53 | performs `Driver.Stop` in place |
| Component.Component.Connect | src/main/java/com/kat/server/AbstractServerComponent.java:116-127 | performs `Driver.Connect` on the object's channels and keys |
| Component.Component.Accept | src/main/java/com/kat/server/AbstractServerComponent.java:109-114 | performs `Driver.Accept` on the object's channels and keys and returns how it ended |
| Component.Component.Close | src/main/java/com/kat/server/AbstractServerComponent.java:137-138 | performs `Driver.CloseAndCancel` in place |
| Component.Component.HandleIncomingData | src/main/java/com/kat/client/Client.java:43-48 | performs `Driver.HandleIncomingData` on the object's record |
| Component.Component.Read | src/main/java/com/kat/server/AbstractServerComponent.java:129-154 | clears and fills the buffer array in place and performs `Driver.Read` |
| Component.Component.Write | src/main/java/com/kat/client/Client.java:50-58 | the drain loop performs `Driver.Write` and returns how it ended |
| Component.Component.HandleKey | src/main/java/com/kat/server/AbstractServerComponent.java:83-95 | performs `Driver.HandleKey` in place |
| Component.Component.ProcessSelected | src/main/java/com/kat/server/AbstractServerComponent.java:77-96 | the iterator loop performs `Driver.ProcessSelected` in place |
| Component.Component.Select | src/main/java/com/kat/server/AbstractServerComponent.java:75 | performs `Driver.Select` on the object's keys and selected set |
| Component.Component.RunMainLoop | src/main/java/com/kat/server/AbstractServerComponent.java:73-100 | performs `Driver.MainLoop` in place |
| Component.Component.CleanUp | src/main/java/com/kat/server/AbstractServerComponent.java:102-107 | performs `Driver.CleanUp` in place |
| Component.Component.Run | src/main/java/com/kat/server/AbstractServerComponent.java:57-62 | the `while (running)` loop performs `Driver.Run` in place |
| Component.Component.SendMessage | src/main/java/com/kat/client/Client.java:60-64 | performs `Driver.SendMessage` for the client's own channel in place |

## Left out

- Threads: the thread `start` creates, the visibility of the `volatile` `running` flag, and the unsynchronised use of the message `LinkedList` from two threads are not modelled. Calls are sequential, and a `stop` from another thread is a flag (`Round.stopRequested`) seen at the next loop test.
- The selector's timeout, and readiness as the operating system computes it, are not modelled. Each iteration's readiness report and each channel's accept, read and write outcomes are inputs (`Round`, `Os`).
- Partial writes are not modelled: the code ignores the count `channel.write` returns, and a write sends the whole message or throws.
- Character set conversion (`new String(data)`, `getBytes()`) is not modelled: payloads are sequences of characters, and the buffer holds characters.
- `split` reads its argument as a regular expression. The model reads the delimiter as a literal, non-empty string, because the configuration that defines it (`ChatConfig`, with `BUFFER_SIZE` and `MESSAGE_DELIMITER`) is not part of this model. Both are parameters: the role's delimiter and the buffer's capacity.
- `com.kat.utils.Closer` is not part of this model. Closing is taken to close the channel, and to cancel its key, and never to fail. Stack-trace logging has no effect.
- The constructor's address handling is not modelled. The client's `connect(address)` is taken to be initiated, and its outcome arrives as `Os.finishConnect`.
- The server subclass is not part of this model. Its `handleIncomingData` is only recorded (`Trace.deliveries`), and its write hook changes nothing.
- Driver.Initial: the server's own channel is assumed to be a non-blocking listener registered for OP_ACCEPT under identity 0, because the server's `channel` and `selector` hooks are not part of this model.
- Java's selected-key set is a hash set with no specified iteration order. The model fixes one order: keys already selected come first, then newly selected keys in the order the readiness report names them.
- The casts of `key.channel()` to `SocketChannel` or `ServerSocketChannel` are not checked: the handlers do not look at the kind of channel, so a `ClassCastException` is not modelled.
- Exceptions from `configureBlocking` and `register` inside `accept` and `connect` are not modelled. Those calls succeed.
