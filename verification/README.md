# Verified models of the stream framework's protocols, codecs and fast forms

The repository is a C and C++ framework of asynchronous streams. This project models
the parts of it whose correctness is not visible from one function, and proves what
they are for.

**Protocols**, as steps of many threads that interleave without bound. A step is an
interlocked operation, a plain read, a critical section or a call; a failed assert of
the source is an outcome that is proved not to occur.

* `SyncControl*` - serialising requests to one inner stream, and who closes it.
* `ClientSystem`, `ClientRuns`, `IoQueue`, `MqttClient` - the check and run machine of a
  client component, the abortable serial queue, and the client that joins both.
* `Timer`, `TimerTree`, `TimerPool`, `TimerRuns` - the scheduler with wrapped 32-bit
  deadlines, one leader for each deadline and a ring of followers, in a tree that is
  searched by the wrapped order.
* `AsyncTcp`, `AsyncOvlp` - passing an operation between a requester and the epoll thread
  through one status word.
* `Events`, `EventRuns`, `EventManager`, `SlicePool` - the receiver registry, emission
  outside the lock, and the chunked queue it drains.
* `RingBuffer`, `RingRuns` - the single-writer single-reader ring.

**Codecs.** `Http*` (the header and body states of the HTTP parser, whole and in
fragments), `AOption*` (the option printer and parser), `Mqtt*` (MQTT framing and PUBLISH).

**Fast forms.** `Crc*` (slicing by four against bit-at-a-time division) and `Hash*`,
`Sha1`, `Sha256`, `Md5` (streaming against the padded message, unrolled rounds against
rolled ones).

Each protocol has a `Step` or `Next` function; `Reachable` states are those of any finite
run of it. The main results are lemmas about every reachable state or every run. Code that
works in place is a class whose methods are proved against the functions the lemmas are
about. Words have their C width wherever it shows.

Some obvious claims are false of the code. Where that is so the condition is exact and is
proved both ways, and where it takes a run a run is given: `HttpCuts.CuttingIsExact`,
`HttpChunked.ChunkedBodyDelivers`, `MqttRoundTrip.FramingIsExact`,
`MqttRoundTrip.PublishIsExact`, `HashContext.Sha.Update`, `Events.SubscribeFails`,
`Events.UnsubscribeFails`, `EventRuns.CountIsExact` with `EventRuns.CountGoesWrong`,
`TimerRuns.NeverFails` and `TimerRuns.OrderOfRuns` with `TimerRuns.FarDeadlinesFail`,
`MqttClient.HitsExactlyAfterLateBegin` with `MqttClient.LateEndHitsNextSession`.

## Model

| member | source | states |
|---|---|---|
| `SyncControlRuns.NeverFaults` | SyncControl/AModule_Stream.cpp:133-235 | In every interleaving of opens, requests, cancels, completions and closes, over any set of request slots and any number of reopenings, no assert on the counter, the status, a queue or the close message fails. |
| `SyncControlRuns.CountIsExact` | SyncControl/AModule_Stream.cpp:403-446 | `request_count` is always the open hold plus one for each request that is in flight or whose dispatcher has not lowered the count yet. |
| `SyncControlRuns.ClosesOnce` | SyncControl/AModule_Stream.cpp:271-284 | Whoever is about to close the inner stream with a message finds that this open has not closed it yet. |
| `SyncControlRuns.ClosesWhenIdle` | SyncControl/AModule_Stream.cpp:332-339 | At that point no request is in flight, no dispatcher is left and every queue is empty. |
| `SyncControlRuns.ClosedMeansClosedOnce` | SyncControl/AModule_Stream.cpp:249-260 | A closed object has closed its stream exactly once, with the count at zero and nothing left in any slot. |
| `SyncControlRuns.CloserReachedZero` | SyncControl/AModule_Stream.cpp:530-538 | The thread that starts to close an open object is the one whose decrement took the count from one to zero, and no request is in flight then. |
| `SyncControlRuns.OneOutstanding` | SyncControl/AModule_Stream.cpp:294-330 | At most one stream request for each slot is outstanding. |
| `SyncControlRuns.CompletedAtMostOnce` | SyncControl/AModule_Stream.cpp:294-317 | Every accepted request is, exactly once, one of: completed after it was started, completed with -EINTR while it waited, cancelled, waiting, or being worked. |
| `SyncControlResults.AnswersAreTold` | SyncControl/AModule_Stream.cpp:294-349 | In every run the results that a slot's messages have been told, with the one about to be told, are the answers of the stream for them, in the order of the answers. |
| `SyncControlResults.CompletedWithAnswer` | SyncControl/AModule_Stream.cpp:294-349 | Every request completed after it was started is completed with the result that the stream returned for it. |
| `SyncControlRuns.AllCompletedWhenClosed` | SyncControl/AModule_Stream.cpp:271-277 | When the object is closed every request it ever accepted has been completed or cancelled. |
| `SyncControlRuns.NothingStranded` | SyncControl/AModule_Stream.cpp:403-446 | While the object is open, a slot with waiting requests has a thread working it. |
| `SyncControlRuns.BackPostsStartInOrder` | SyncControl/AModule_Stream.cpp:424-429 | Back-queued requests of a slot start in the order they were accepted, across reopenings. |
| `SyncControlRuns.HeadStartsNext` | SyncControl/AModule_Stream.cpp:310-312 | The request that starts next is ahead of all that keep waiting: front posts before back posts. |
| `SyncControlObject.Sync.Post` | SyncControl/AModule_Stream.cpp:403-436 | The critical section of a request in place: it starts, queues or refuses, and never counts from zero. |
| `SyncControlObject.Sync.TakeNext` | SyncControl/AModule_Stream.cpp:298-314 | The critical section of the dispatch loop in place: the head of the queue becomes current, or the slot is given up. |
| `SyncControlObject.Sync.TryClose` | SyncControl/AModule_Stream.cpp:503-521 | One exchange of the closing loop with its return codes. |
| `ClientRuns.OneToken` | ecs/AClientSystem.cpp:7-104 | In every run no assert fails, a check grants a run token only when none is out, and `busy_count` is the run token plus abort tokens plus holds. |
| `ClientRuns.OpensAndClosesAlternate` | ecs/AClientSystem.cpp:114-183 | Calls of open and close alternate strictly, beginning with open. |
| `ClientRuns.ClosesAlone` | ecs/AClientSystem.cpp:144-174 | close is called only when no hold is left, given that holds are taken while the component is valid. |
| `ClientRuns.NoHoldUnlessInUse` | ecs/AClientSystem.h:38-51 | A live hold means that the component is in use, and that nobody runs it once it is closing. |
| `ClientSystem.Component.CheckOne` | ecs/AClientSystem.cpp:7-104 | check_one in place: the fields and the token it gives are the machine's. |
| `ClientSystem.Component.Run` | ecs/AClientSystem.cpp:114-183 | The fall-through switch of client_run_internal in place: fields, calls and the point where it waits are the machine's. |
| `IoQueue.OneWorker` | ecs/AInOutComponent.cpp:6-26 | The queue has a worker exactly when it is not empty, under any interleaving of posts, completions and aborts. |
| `IoQueue.PostOrder` | ecs/AInOutComponent.cpp:35-68 | Messages leave the queue, and reach the stream or the abort, in the order of their posts. |
| `IoQueue.CompletedOnce` | ecs/AInOutComponent.cpp:53-57 | No message is completed twice, and when nothing is under way each accepted one has been completed once. |
| `IoQueue.PostsEndOnce` | ecs/AInOutComponent.h:63-78 | The post-end callback is called once for each begin; after it nothing is accepted until the next begin. |
| `IoQueue.PostEndWhenDrained` | ecs/AInOutComponent.cpp:45-50 | It is called only when the queue is aborted and empty. |
| `IoQueue.InOut.Dequeue` | ecs/AInOutComponent.cpp:41-51 | The locked part of a completion in place: the head leaves, and the last one of an aborted queue takes the callback with it. |
| `MqttClient.NeverFaults` | iot/MQTTClient.cpp:73-166 | In every run of the client joined with its queue no assert fails. |
| `MqttClient.EachHoldDroppedOnce` | iot/MQTTClient.cpp:157-160 | Each login takes two holds; the reader's failure gives back one, once, and the post-end callback the other, once. |
| `MqttClient.NoOverlap` | iot/MQTTClient.cpp:312-326 | When open or close is called every hold is back and the queue is empty, aborted and without a worker; no reader executes then if and only if none that has failed is late in ending the queue. |
| `MqttClient.LateEndIsExact` | iot/MQTTClient.cpp:312-326 | In every reachable state the last act of a late reader touches the queue or the hold of a session other than its own if and only if a later login has begun the queue and that queue is not ended yet. |
| `MqttClient.HitsExactlyAfterLateBegin` | iot/MQTTClient.cpp:312-326 | A run has a state in which a late reader would hit another session if and only if a login of the run began the queue while a failed reader had not ended it yet. |
| `MqttClient.LateEndHitsNextSession` | iot/MQTTClient.cpp:312-326 | There is such a run: by way of check and client_abort a late reader aborts the queue of the next session and gives back its hold while that session's reader runs. |
| `Timer.DelayIsFinite` | base/AOperator.h:70-77 | A finite non-zero timeout never becomes 0 or INFINITE and is stretched by at most two ticks. |
| `TimerTree.LinkInserts` | base/rbtree.h:213-236 | The node that the descent by the wrapped comparison links, in a tree of any shape, changes the row of groups at the place where the search ended and nowhere else. |
| `TimerTree.Descend` | base/rbtree.h:195-236 | The loop of rb_find and rb_insert ends where the search function says. |
| `TimerTree.OrderIsExact` | base/rbtree.h:195-212 | Every group is found in every shape of the tree if and only if any two groups compare as they stand. |
| `TimerTree.InsertIsExact` | base/AOperator.cpp:480-492 | A post to a tree in order keeps it in order if and only if its deadline is that of a group or has a place between the groups. |
| `TimerTree.InOrderIsSorted` | base/AOperator.cpp:18-21 | For deadlines in a window of less than half the range, that order is the order of the true deadlines. |
| `TimerTree.InsertSorted` | base/AOperator.cpp:480-492 | In a window a post, to a tree of any shape, keeps the groups in the order of true deadlines. |
| `Timer.RemoveSorted` | base/AOperator.cpp:514-537 | So does taking an operator out, a follower taking the place of a leader. |
| `Timer.WalkExpires` | base/AOperator.cpp:52-95 | One pass takes exactly the operators whose deadline is at most one tick away. |
| `Timer.WaitFits` | base/AOperator.cpp:44-105 | The wait returned is at most the thread's own and at most the time to every kept deadline that the thread owns or has claimed. |
| `TimerRuns.NeverFails` | base/AOperator.cpp:515-536 | In every state of every run of posts, signals, cancels, expiries and shutdown, the asserts hold in whatever shape the tree is, so that a signalled operator is found in its group, if and only if the groups are in order. |
| `TimerRuns.OrderOfRuns` | base/AOperator.cpp:480-492 | A run keeps its tree in order throughout if and only if every post of it finds a tree that admits its deadline. |
| `TimerRuns.NearRunsNeverFail` | base/AOperator.cpp:480-536 | So it does, and no assert fails, in every run in which each new deadline lies in one window of less than half the range with the live ones. |
| `TimerRuns.FarDeadlinesFail` | base/AOperator.cpp:515-523 | Three posts a third of the range apart and a cancel leave the third operator where no search finds it: its signal meets the assert, and another post with its deadline makes a second group. |
| `TimerRuns.EndsOnce` | base/AOperator.cpp:330-363 | Every post, near or far, ends exactly once, as a cancel, a time-out, a wake or an interrupt, or waits in exactly one place, up to the first failed assert. |
| `TimerRuns.InOneGroup` | base/AOperator.cpp:480-492 | An operator with a finite deadline is in a group of that deadline, once, and in no other group; while the tree is in order there is no other group of that deadline. |
| `TimerRuns.EndEndsAll` | base/AOperator.cpp:339-362 | When the pool has ended, every post has ended. |
| `TimerRuns.PassTakesTheDue` | base/AOperator.cpp:44-105 | After a run of near posts, a pass at a time in a window with the deadlines hands over exactly the due operators in the order of their deadlines and leaves the others in that order. |
| `TimerPool.Scheduler.PostOperator` | base/AOperator.cpp:459-498 | A post in place by the descent of the tree, in any shape, and whether a thread has to be woken for a new first deadline. |
| `TimerPool.Scheduler.SignalOperator` | base/AOperator.cpp:500-561 | A signal or cancel in place by the descent of the tree, with the promotion of a follower and the returned signal. |
| `TimerPool.Scheduler.CheckTimewait` | base/AOperator.cpp:52-95 | The loop over the tree in place equals the walk that the lemmas are about, ticks cleared included. |
| `AsyncTcp.NeverFaults` | io/AModule_AsyncTcp.cpp:150-168 | In every run no signal meets the error mark and a stream is closed with nothing parked. |
| `AsyncTcp.OneRunner` | io/AModule_AsyncTcp.cpp:89-148 | At most one thread executes the procedure for an operation, and none while it is parked. |
| `AsyncTcp.OneHolder` | io/AModule_AsyncTcp.cpp:137-139 | A request that is not complete is held by its caller's thread, by the epoll thread or by the status word. |
| `AsyncTcp.ErrorStays` | io/AModule_AsyncTcp.cpp:189-210 | The error mark stays until the stream is bound again. |
| `AsyncTcp.CompletedOnce` | io/AModule_AsyncTcp.cpp:231-265 | Every request and every open is completed exactly once, by its returned value or by one done call. |
| `AsyncTcp.ResultsFit` | io/AModule_AsyncTcp.cpp:104-116 | A request that does not fail has moved something, and a block has moved everything. |
| `AsyncOvlp.Ovlp.Proc` | io/AModule_AsyncTcp.cpp:89-148 | The procedure on the shared fields takes the machine's steps. |
| `HttpExecute.HttpParser.Execute` | http/http_parser.c:640-2099 | http_parser_execute on a fragment, with its marks, its skips and its counter, leaves the parser, the callbacks, the counter and the result of feeding the bytes one at a time; the header limit is reported only when exceeded. |
| `HttpExecute.HttpParser.ReadValue` | http/http_parser.c:1512-1701 | The value loop with the memchr skip does what the bytes do one at a time. |
| `HttpCalls.ExecuteAll` | http/http_parser.c:640-2099 | One call after another on non-empty fragments, until an upgrade, leaves the parser and the callbacks that feeding the fragments says, unless the header limit is exceeded. |
| `HttpCuts.FragmentsAgree` | http/http_parser.c:1541-1564 | With legal header values any two ways of cutting the same bytes into non-empty fragments give the same parser, stop and notifications, and the same callback bytes when accepted. |
| `HttpCuts.AcceptedAgrees` | http/http_parser.c:708-712 | What is accepted byte by byte is accepted with the same result in non-empty fragments of any sizes. |
| `HttpCuts.CuttingIsExact` | http/http_parser.c:1541-1564 | The cutting cannot be noticed if and only if, fed whole, no illegal byte is skipped over and no byte is refused while earlier ones are marked but untold. |
| `HttpTrailers.TrailersRun` | http/http_parser.c:1254-1800 | A trailer with any names is read to its last line, unless a Content-Length in it is not decimal, exceeds the limit or comes after another; then it is refused. |
| `HttpChunked.ChunkedBodyDelivers` | http/http_parser.c:1940-2060 | A well-formed chunked body (section 4.1 of RFC 7230), with extensions and any trailer and in any non-empty fragments, delivers exactly the concatenated chunk data; it is accepted and its message completed if and only if no Content-Length of the trailer is refused. |
| `HttpChunked.LengthIsDecimal` | http/http_parser.c:1571-1596 | A Content-Length of digits is read as its decimal value, and is refused exactly when all digits but the last exceed the conservative limit. |
| `HttpChunked.AccumulatorsExact` | http/http_parser.c:1981-1992 | At every byte of every input, in any fragments, a digit of a Content-Length or chunk size is added without wrapping and never gives the value that stands for "absent". |
| `HttpChunked.ReachedIsOk` | http/http_parser.c:1888-2060 | For every input in any fragments the asserts of the body states hold, `nread == 1` after the added s_chunk_next_size state included. |
| `HttpInv.StepKeeps` | http/http_parser.c:714-2066 | Every byte keeps the invariant behind those asserts, in all states. |
| `AOption.Encode` | base/AOption.cpp:265-370 | The walk over children, brothers and parents terminates, writes what a recursive printer writes, and returns its length; a refused write ends it with a prefix of that text. |
| `AOptionDecode.Decode` | base/AOption.cpp:112-263 | The decoding loop in place equals the character machine, result codes and byte count included. |
| `AOptionRoundTrip.RoundTrip` | base/AOption.cpp:112-370 | For trees of any depth and width in the printable domain, decoding the encoded text followed by anything rebuilds names, values and shape and uses exactly the bytes encoding wrote. |
| `MqttCodec.CutsAgree` | iot/mqtt_codec.c:822-883 | However a byte stream is cut into calls, the codec, its calls of packetComplete and its failure are those of one call. |
| `MqttCodec.Instance.BytesReceived` | iot/mqtt_codec.c:822-883 | The codec's fields and buffers, updated byte by byte, follow the packet machine. |
| `MqttCodec.Instance.Length` | iot/mqtt_codec.c:443-460 | The loop over the stored digits computes the remaining length and gives up at the fourth digit. |
| `MqttFrame.FixedHeader` | iot/mqtt_codec.c:308-328 | The header in its array of six bytes holds for every length below 128^5 and is put before the packet. |
| `MqttFrame.HeaderFits` | iot/mqtt_codec.c:318-326 | A length below 128^k has at most k digits. |
| `MqttFrame.Send` | iot/mqtt_codec.c:636-689 | mqtt_codec_publish builds flags, topic, identifier and payload behind a fixed header, or refuses and leaves the buffer empty or as it was. |
| `MqttFrame.Reply` | iot/mqtt_codec.c:281-306 | The replies to a PUBLISH are frames of two bytes; a buffer that is in use is refused. |
| `MqttBuffer.Buffer.Enlarge` | iot/buffer.c:208-232 | A buffer grows and keeps what it holds. |
| `MqttBuffer.Buffer.Prepend` | iot/buffer.c:295-336 | The new bytes come before the old ones. |
| `MqttRoundTrip.FramingIsExact` | iot/mqtt_codec.c:436-475 | A frame in any fragments is delivered once with its type, flags and body and resets the codec, if and only if its length is from 1 to below 128^3 with a top digit other than 127, or is 0 for a ping response. The standard (section 2.2.3 of MQTT 3.1.1) allows more. |
| `MqttRoundTrip.StreamArrives` | iot/mqtt_codec.c:822-883 | Any number of such packets in a row, cut anywhere, are delivered in order. |
| `MqttRoundTrip.PublishIsExact` | iot/mqtt_codec.c:494-520 | A PUBLISH arrives with its topic, identifier, payload and flags if and only if its frame can be read, its topic is not empty, and its QoS is 1 or 2, or 0 with neither DUP nor RETAIN. |
| `MqttRoundTrip.ReplyArrives` | iot/mqtt_codec.c:521-531 | A reply to a PUBLISH arrives with the identifier it answers. |
| `Crc.CheckDivides` | crypto/crc.c:378-402 | For every accepted polynomial the byte-at-a-time check, lowest bit first, is the remainder of bit-at-a-time division, for every seed and buffer. |
| `Crc.CheckIsSwapped` | crypto/crc.c:346-350 | Highest bit first, it is that division with the bytes of the register reversed. |
| `Crc.CheckJoin` | crypto/crc.c:378-402 | The check of a concatenation is the check of the second part seeded with that of the first. |
| `Crc.QuadChecks` | crypto/crc.c:389-395 | Four table lookups at once check four bytes. |
| `CrcTable.Init` | crypto/crc.c:331-362 | av_crc_init accepts exactly the stated widths, polynomials and sizes, fills the table in place, and leaves it alone otherwise. |
| `CrcTable.MarkSelects` | crypto/crc.c:385-385 | Entry 256 is zero exactly in the table of 1024, so it selects the path. |
| `CrcTable.Compute` | crypto/crc.c:378-402 | av_crc, with either table and any alignment of the buffer, computes the byte-at-a-time check. |
| `HashContext.Sha.Update` | crypto/sha.c:298-323 | Updates accumulate the message: the state is the fold of its whole blocks, the rest is in the buffer; the copy overruns the buffer if and only if the length in 32 bits wraps the test for a full block. |
| `HashContext.Sha.UpdateAll` | crypto/sha.c:298-323 | A row of updates gives the context of the concatenation, unless the length of one of them overflows the test for a full block. |
| `HashContext.Sha.Final` | crypto/sha.c:325-336 | The padding loop yields the fold over the padded message (section 5.1.1 of FIPS 180-4). |
| `HashContext.Md5Context.Update` | crypto/av_md5.c:144-177 | The same for MD5, aligned or not. |
| `Hashes.CutsDoNotShow` | crypto/sha.c:298-323 | Two contexts given rows of updates with the same concatenation end in the same state, count and kept bytes. |
| `Hashes.Sha256OfParts` | crypto/sha.c:298-336 | The digest after any row of updates is that of the concatenated message. |
| `Hashes.Sha1Final` | crypto/sha.c:325-336 | After any updates the SHA-1 digest of the whole message. |
| `Hashes.Sha256Final` | crypto/sha.c:325-336 | The same for SHA-256 and SHA-224. |
| `Hashes.Md5Sum` | crypto/av_md5.c:194-204 | The MD5 digest of a message (sections 3.1 to 3.5 of RFC 1321). |
| `Sha1.TransformFast` | crypto/sha.c:48-138 | The unrolled rounds over five rotating registers and an extended block array compute the state of the rolled rounds. |
| `Sha1.FIsStandard` | crypto/sha.c:65-77 | The rewritten functions of the rounds are Ch, Parity and Maj (section 4.1.1 of FIPS 180-4). |
| `Sha256.TransformFast` | crypto/sha.c:186-254 | The same with eight registers. |
| `Sha256.FunctionsAreStandard` | crypto/sha.c:160-166 | Ch, Maj and the four sigmas, as rewritten, are those of section 4.1.2 of FIPS 180-4. |
| `Md5.TransformFast` | crypto/av_md5.c:88-132 | The same for MD5 with four registers. |
| `Md5.FIsStandard` | crypto/av_md5.c:69-86 | The functions of the rounds are F, G, H and I of section 3.4 of RFC 1321. |
| `Events.SubscribeFails` | ecs/AEvent.cpp:58-72 | A subscription fails an assert if and only if the receiver has been subscribed before, since nothing clears its manager. |
| `Events.UnsubscribeFails` | ecs/AEvent.cpp:97-114 | An unsubscription fails one if and only if the receiver is not subscribed and is not mistaken for a subscribed one: held by an unfinished clearing while two others are subscribed under its name. An uncleared map node of a leader that left changes nothing. |
| `Events.MistakenDrifts` | ecs/AEvent.cpp:75-114 | Then it passes every check, takes the receiver off the clearing's list, takes one off the count and nobody out of the registry. |
| `Events.EraseKeeps` | ecs/AEvent.cpp:75-94 | Taking a follower, a last receiver or a leader out keeps each ring and lowers the count by exactly one. |
| `Events.EmitKeeps` | ecs/AEvent.cpp:136-156 | An emission calls exactly the receivers of the name that take the event, each once, and removes exactly the one-shots among them. |
| `EventRuns.CountIsExact` | ecs/AEvent.cpp:58-114 | In every interleaving of subscriptions, unsubscriptions, emissions, clearings and releases each receiver is in the ring of its name once, and the count is short by the number of mistaken unsubscriptions: it is exact if and only if there was none. |
| `EventRuns.CountGoesWrong` | ecs/AEvent.cpp:97-208 | Clear a receiver, subscribe two of its name before it is released and unsubscribe it: two are subscribed and the count is one. |
| `EventRuns.ReferencesConserved` | ecs/AEvent.cpp:136-172 | References are one for each subscription and one for each call or release to come. |
| `EventRuns.DealtOnce` | ecs/AEvent.cpp:161-208 | An emission calls each receiver it took once and in order, outside the lock; a clearing releases each once and in order, and counts it, except those that a mistaken unsubscription has taken off its list. |
| `EventRuns.OneShotOnce` | ecs/AEvent.cpp:150-154 | A one-shot is taken by at most one emission of a run, and nobody after a clearing. |
| `EventManager.Manager.EmitUnderLock` | ecs/AEvent.cpp:136-157 | The loop over the ring, which erases while it walks, leaves the registry and the pool that the emission function says. |
| `EventManager.Manager.EmitEvent` | ecs/AEvent.cpp:117-179 | A whole emission: the calls made, their number returned, the references, and the chunks handed back as new. |
| `EventManager.Manager.Unsub` | ecs/AEvent.cpp:97-114 | An unsubscription in place, the mistaken one included. |
| `EventManager.Manager.ClearUnderLock` | ecs/AEvent.cpp:182-200 | The locked part of a clearing takes every receiver once into its own list and leaves an empty registry. |
| `EventManager.Manager.ClearSubMap` | ecs/AEvent.cpp:182-208 | A whole clearing with nobody in between: each receiver is released once, and their number is returned. |
| `SlicePool.Pool.Push` | base/buf_util.h:178-197 | Items go to the end of the pool's contents over any number of chunks; the counters match the chunks. |
| `SlicePool.Pool.PopFront` | base/buf_util.h:198-240 | Items leave from the front; an emptied chunk leaves too unless it is being filled. |
| `SlicePool.Pool.Reset` | base/buf_util.h:160-176 | An emptied pool has only chunks that are as new, and its room is counted exactly. |
| `RingBuffer.Ring.Write` | base/srsw.hpp:96-125 | A write appends as much as fits, in one step or two. |
| `RingBuffer.Ring.Read` | base/srsw.hpp:127-155 | A read takes from the front of what is held. |
| `RingBuffer.Ring.Commit` | base/srsw.hpp:181-196 | A commit makes everything up to the end of the block readable, a skipped tail included. |
| `RingBuffer.Ring.Decommit` | base/srsw.hpp:198-211 | A decommit drops exactly that from the front. |
| `RingBuffer.Ring.WriteInPlace` | base/srsw.hpp:157-196 | Filling what reserve gives and committing it does what write does. |
| `RingRuns.DeliversInOrder` | base/srsw.hpp:96-155 | In every interleaving of one writer and one reader, byte by byte, what has been read is a prefix of what was written, and the writer is at most one round ahead. |
| `RingRuns.NeverOverwrites` | base/srsw.hpp:104-120 | No store of the writer lands on a byte that is still to be read. |
| `RingRuns.FieldsAreTotals` | base/srsw.hpp:69-73 | Positions are the totals modulo the capacity and sizes are the totals modulo the width of size_t. |
| `RingRuns.CallsCanEnd` | base/srsw.hpp:96-155 | A call under way can take every step, and an idle side can start whenever there is room or data. |

## Left out

- Sockets, epoll, files, threads, clocks and allocation: their results are nondeterministic answers or parameters, and allocation does not fail.
- SyncControl: notify lists, a close without a message, option passthrough, the reference count of the object and the int width of the counter; the loop that would create more slots is commented out in the source, so any finite set of slots is modelled.
- SyncControlObject.Sync.Post: is one critical section on the shared fields; threads are modelled by the state machine, not by threads of Dafny.
- ClientSystem: the loop over all components, whose node a check may unlink, and the events on close.
- MqttClient: the packets' contents, logging and reconnect timing; what a failed reader does after giving back its hold is one step.
- TimerTree: the colours and rotations of the red-black tree; a post or a signal finds it in any shape that has the same groups in the same order.
- TimerPool: ending a pool is one step; wake-up signals are counted only as results; a run ends where a search for an operator's group does not end there, since what the code does next without its asserts corrupts the rings.
- AsyncTcp: that no readiness is lost, since the perform and signal counters are heuristic, so whether they agree is nondeterministic; a failing bind.
- HttpExecute: a callback that fails or pauses, going on after an upgrade, and http_parser_parse_url; a call without data is ExecuteEof, and the lemmas about fragments are about non-empty ones.
- HttpTrailers: a trailer value continued on a second line.
- HttpCuts.FragmentsAgree: says nothing about `nread`, which the parser counts once more for each fragment that ends in a header, nor about runs that exceed the header limit.
- AOption: StrExt strings, files and running out of memory; the tree is a value walked with a path instead of nodes linked in place.
- AOptionRoundTrip.RoundTrip: scalar type tags are not compared, and names, values and sizes are in the printable domain.
- MqttCodec: building CONNECT, SUBSCRIBE and UNSUBSCRIBE; a body that is too short for its type delivers an unspecified value, as an UNSUBACK of the standard's length does, whose identifier is read two bytes too far.
- CrcTable: the built-in tables of polynomials and the hard-coded tables.
- HashContext: av_sha_init's choice of transform and the small build's update loop.
- Events: index keys, whose comparison truncates 64 bits; a receiver's name does not change while it is subscribed.
- EventRuns: a clearing takes a receiver off its list and releases it in one step; the code does so without the lock, so an unsubscription between the two is a data race.
- EventManager.Manager.EmitEvent: is an emission with nobody in between; EventRuns has the interleavings.
- SlicePool: joining a chunk that holds items, forced pushes, and a reset with items present.
- RingBuffer: srsw_queue; RingRuns: the memory is sequentially consistent.
- rtmp, golomb, the proxies of PVD, SSL, FFmpeg and m3u8, and module registration.
