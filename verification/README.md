# libkinetic: a verified model

libkinetic talks to key-value drives over the Kinetic protocol. This project models its five stateful
parts in Dafny and proves what they are for:

- **The KTLI transport** (`Places`, `Transport`, `TransportInvariant`, `TransportRuns`, `TransportAnswers`,
  `TransportService`, `TransportOutcomes`, `TransportTimeouts`, `TransportReturned`, `TransportSchedules`,
  `Session`, `SessionSteps`). A session has a send, a receive and a completion queue, one
  sender thread, one receiver thread and any number of callers. `Transport` is the transition system of all of them: one step is what a thread does while it holds a
  queue lock, or one store to a field nobody guards. `TransportInvariant` holds what every step keeps, and
  `TransportRuns` what follows for every schedule. `TransportAnswers` says what each response does,
  `TransportService` what becomes of a request from its submission to its return, `TransportOutcomes` in which
  state every request of every schedule ends and why, `TransportTimeouts` how long it waits, and
  `TransportReturned` what is still done to a kio that is back with its caller. `Session` is the same session as an object whose methods
  update its fields, each method tied to what it does to the state; `SessionSteps` proves its scan and its
  drains to be chains of single steps, so that what holds for every schedule holds for them. `TransportSchedules` holds concrete schedules that
  the code's intent does not foresee.
- **The windowed key iterator** (`Keys`, `Iterator`, `IteratorChanging`). Many range requests are stitched into
  one iteration, over a store that stands still and over one that others change.
- **The byte stream** (`Vectors`, `Socket`, `Pdu`, `Framing`, `Conversation`). Scattered vectors, short writes,
  short reads, the header and the two-stage read compose to the identity on lists of messages
  (`Conversation.Converse`).
- **Values over many keys** (`BasicKv`). Cutting, naming, storing, joining and deleting the pieces of a value.
- **Counters, limits, slots, statistics and the escape notation** (`Counters`, `ActiveBatches`, `BatchLimits`,
  `Slots`, `Welford`, `Stats`, `Escape`).

`Common` and `Vectors` hold what several of them share.

## Where the code and its intent part

The model follows the code. Each of these is a theorem with its exact condition, or a concrete run.

- A request whose send fails is taken off the receive queue by its back pointer
  (src/ktli.c:1246-1249). When its timeout, a drain or a response got hold of it first, the element under the
  cursor goes instead, and the request is completed a second time. `Safe` is the guard; `FailedSendIsSafeIff`
  proves that it is the exact condition, and `HandedBackTwice` is a schedule on which one kio reaches its caller
  twice.
- The timeout is set after the kio is visible on the receive queue (src/ktli.c:1173-1188), so a request can time
  out before a byte of it is written (`TimedOutUnsent`), and in that moment only the expired need not be the
  front of the queue (`ExpiredFirstIff`, with `LastExpiresFirst` as the case that happens).
- The abort path means the send queue but names the receive queue twice (src/ktli.c:1408), and so locks one
  default mutex twice (src/ktli.c:1596-1597). The receiver waits for itself, with the receive queue locked:
  nothing that waited there fails, times out or gets back to its caller, whatever anyone does (`AbortHangs`), and
  a drain never ends (`HungWhileWaiting`).
- Between putting a request on the receive queue and being done with it, the sender stores the timeout, the
  state and the status without asking who has the kio by then (src/ktli.c:1184-1262). A kio handed back is its
  caller's alone exactly when the sender is not in that stretch with it (`NeverWrittenIff`), and a caller can
  have it back and see its timeout change (`WrittenAfterHandBack`).
- `ktli_drain_match` answers from its search of the send queue alone (src/ktli.c:1024-1047):
  `DrainMatchCodeIff`.
- A drained session opens, and may be closed, although a thread still holds a kio (`AllHandedBackIff`, and
  `OpenedWithKioOut` as the case that happens).
- An acknowledged sequence of 0 (what `ki_getaseq` answers for a message it cannot read) or below -1 skips the
  search (src/ktli.c:1492-1498), and the response goes to the last kio waiting. Such responses are part of every
  schedule; `AnswersMatch` is about positive ones. When no kio waits the program follows a null pointer; the
  schedules stop short of that.
- `ki_start` and `ki_next` look at `kr_count`, which the answer never sets (src/iter.c:215, 297;
  src/range.c:454). A window answered with an OK status and no keys is taken for a key: `WholeStill` says when.
  A negative count other than -1 yields one key.
- `b_atom_inc` hands out the old value. After just 1000 failed swaps it reports a failure although it has
  counted, after one more it reports success although it has not (src/batch.c:68-82): `AtomInc`,
  `ReturnCodeIff`, `OwnIdIff`. The check against the device's batch limit sees the old value, so one batch
  more is let through, and one more for every start whose increment gave up (src/batch.c:134-147):
  `ActiveLimit`, `LimitIsExceeded`.
- The counts of a batch wrap at 32 bits (src/put.c:247), and each request is compared with the limits in three
  moments of its own. A request can be sent exactly when three such moments exist at which bytes, operations and
  deletions pass (`Sendable`). For any limits, some interleaving sends just the requests that can be sent and
  none sends more (`MostSent`), so more than so many bytes get out exactly when those make up more
  (`BytesExceededIff`). The limits on operations and deletions hold for fewer than two to the 32 requests
  whatever the bytes do (`LimitsHold`).
- `PACK_PDU` goes through `htonl` and then writes the low byte first, so a big-endian host puts its lengths on
  the wire the wrong way round (src/protocol_interface.h:48-62): `PackIsWireIff`.
- A length of two gigabytes or more passes through `int32_t` into `size_t` and cannot be allocated
  (src/open.c:44-72, src/ktli.c:1446-1458): `ReadFrameIff`. The test for a negative length compares an unsigned
  value and never holds.
- `kts_free_slot` looks at the slot again after clearing it (src/ktli_session.c:124-133): it frees nothing, or
  another caller's record in use (`FreeHitsTheHolderIff`, and `LiveRecordIsFreed` as the case that happens).
  `kts_isvalid` lets index 1024 through (`ValidIsHeldIff`).
- `bkv_putn` keeps the number of keys in 32 bits (src/basickv.c:392): `PutThenGetIff`. The comment above it
  counts names from 001; the code starts at 000.
- `ts_sub` borrows a second from the completion time, which is then used again (src/stat.c:106-122, 165-167), so
  an operation whose completion lies earlier in its second than its start did is dropped (`KeptIff`). A
  dropped sample lowers `kop_ok` after the size statistics have used it: from then on mean
  and square term are right exactly as long as every operation is of the mean size (`DropForgets`,
  `RightThroughoutIff`), and the variance made of them is right only when it is 0, because it is divided by the
  lowered count (`UpdateKop`). `ki_get` never sets its
  first mean (src/get.c:516-518): `GetSizes`.
- The escape printer does not escape a backslash, so a literal `\x` does not survive (`RoundTripIff`).

## Modelling choices

- A queue is a sequence of cells with identities; a back pointer is a cell's address. The list library is not
  part of this model. Assumed of it: removing the current element leaves the cursor on the one behind it; a
  `list_setcurr` that fails leaves the cursor at the rear, where every user of the receive queue left it;
  the byte count a receive returns is none of the codes `LIST_EXTENT` and `LIST_EMPTY`.
- The loops of the abort path, which a default mutex keeps the receiver from, are specified as what they would do
  if a thread could lock a mutex again (`AbortQueues`, `FailAllShape`, `FailAllInv`). No schedule contains them.
- A kio is named by its submission, so a caller's structure used again has a new name.
- Callers' steps are possible in every session state, which allows more schedules than the code; what holds for
  every schedule holds for the code's. The concrete schedules of `TransportSchedules` keep to the session states
  the code asks for. The checks of the session state are in the methods of `Session.Session`, which describe
  calls that return. The sender's test for a non-empty send queue and its removal are one step; the lock it
  takes after a send only to signal the receiver is none.
- A start or end of a batch is counted by one step, which may also give up or report a failure as `b_atom_inc`
  does. The limit is proved while the count stays clear of both ends of its 32 bits.
- Sockets, the driver and the network are parameters: scripts of short transfers, retries and failures, what a
  server holds when it is asked, how each request goes.
- A range without a start or an end key is unbounded on that side, as the code sends it.
- A `uint32_t` is a `Word` and wraps; an `int32_t` count is an `Int32`. Sequence numbers, `ki_seenkeys`,
  operation counts and the byte totals of one transfer are not bounded.
- Statistics are over the reals.

## Model

| member | source | states |
|---|---|---|
| Places.PushOk | src/ktli.c:1173-1181 | a kio in some hand that goes to the rear of a queue is then in that queue only, its back pointer on its cell, its state fitting the queue, all else in place |
| Places.DropOk | src/ktli.c:1141-1149 | a kio taken off the send or receive queue is in a hand only and has no back pointer |
| Places.HandBackOk | src/ktli.c:957-966 | a kio taken off any queue for its caller is with the caller only |
| Places.OwnPlace | src/ktli.c:621-623 | a back pointer leads to the kio's own cell; a kio without one is in a hand or back with its caller |
| Places.StateTellsTheQueue | src/ktli.c:725-757 | a kio still with the transport is RECEIVED, FAILED or TIMEDOUT exactly when it is on the completion queue |
| TransportInvariant.SubmitInv | src/ktli.c:611-630 | accepting a request keeps the invariant |
| TransportInvariant.TakeInv | src/ktli.c:1139-1159 | taking the front request and numbering it keeps the invariant |
| TransportInvariant.EnqueueInv | src/ktli.c:1173-1181 | putting the request on the receive queue before it is sent keeps the invariant, the order by sequence number included |
| TransportInvariant.StampInv | src/ktli.c:1184-1188 | so does setting its timeout, after which waiting kios expire in queue order |
| TransportInvariant.DriverSendInv | src/ktli.c:1195-1214 | so does the driver's return with the swap from NEW to SENT, whatever the receiver has done meanwhile |
| TransportInvariant.PullInv | src/ktli.c:1232-1262 | so does taking back a failed request that still waits |
| TransportInvariant.FinishInv | src/ktli.c:1268-1278 | so does completing a failed or request-only kio |
| TransportInvariant.MatchInv | src/ktli.c:1533-1560 | so does hanging a response on the waiting kio with its number |
| TransportInvariant.UnsolicitedInv | src/ktli.c:1518-1530 | so does making a kio for an unsolicited message |
| TransportInvariant.RespondInv | src/ktli.c:1485-1544 | so does any response: matched, late, unsolicited or unreadable |
| TransportInvariant.DeliverInv | src/ktli.c:1562-1575 | so does completing the matched kio |
| TransportInvariant.MoveToCompInv | src/ktli.c:1763-1797 | so does completing a waiting kio as TIMEDOUT or FAILED |
| TransportInvariant.FinishedIsOnCompq | src/ktli.c:725-757 | for a finished kio not handed back, the back pointer finds a cell of the completion queue and that cell holds the kio: what the asserts check |
| TransportInvariant.ReapInv | src/ktli.c:715-757 | receiving a kio keeps the invariant |
| TransportInvariant.ReapUnsolicitedInv | src/ktli.c:816-831 | so does receiving an unsolicited one |
| TransportInvariant.DrainAtInv | src/ktli.c:957-966 | so does draining any queued kio |
| TransportInvariant.StepInv | src/ktli.c:1087-1633 | every guarded step of every thread keeps the invariant |
| TransportRuns.ReachedInv | src/ktli.c:1087-1804 | so every schedule of guarded steps ends in a state that satisfies it |
| TransportRuns.Ownership | src/ktli.c:611-630 | in every such state each kio is in exactly one of send queue, sender's hand, receive queue, receiver's hand, completion queue, or with its caller |
| TransportRuns.HandedBackOnce | src/ktli.c:725-757 | no kio is handed back twice |
| TransportRuns.AssertsHold | src/ktli.c:725-757 | the asserts of ktli_receive never fire; state and queue agree; every back pointer is the kio's own cell |
| TransportRuns.AssertFiresIff | src/ktli.c:725-757 | what would fire them: a finished kio whose back pointer does not lead to its own cell of the completion queue |
| TransportRuns.WireOrder | src/ktli.c:1139-1197 | requests reach the driver numbered 100, 101, ... in the order of ktli_send; each accepted one was numbered, still queues or was drained unsent, and none is missing unless some were |
| TransportRuns.RecvqOrder | src/ktli.c:1156-1181 | the receive queue is strictly ordered by sequence number, all below the session's next |
| TransportRuns.AnswersMatch | src/ktli.c:1492-1544 | a positive acknowledged sequence attaches to the one kio that carried it, and never to one that timed out |
| TransportRuns.StaysGone | src/ktli.c:1492-1544 | a number whose kio no longer waits never waits again, over every further schedule |
| TransportRuns.LateAckIsTossed | src/ktli.c:1500-1516 | the response to a request that timed out changes nothing, whenever it comes |
| TransportRuns.FailedSendIsSafeIff | src/ktli.c:1241-1258 | taking back a failed request keeps the invariant exactly when the request is still on the receive queue |
| TransportRuns.AbortHangs | src/ktli.c:1587-1598 | once the receiver aborts, what waits on the receive queue stays there unfinished over every further schedule, and never gets back to its caller |
| TransportAnswers.ResponseFinds | src/ktli.c:1492-1560 | the response to a waiting request takes just that request off the receive queue, wherever it is, and hangs on it; everything else stays |
| TransportAnswers.OtherResponses | src/ktli.c:1492-1541 | a positive acknowledged sequence nobody waits for changes nothing, -1 brings a kio of its own, 0 and those below -1 take the last kio waiting |
| TransportAnswers.UnsolicitedLeaves | src/ktli.c:816-831 | who asks for an unsolicited message gets the first completed kio without a request; when there is none nothing happens |
| TransportService.SubmittedIs | src/ktli.c:611-630 | a submission queues last, unnumbered, with its flags and whatever timeout it came with |
| TransportService.FrontIsAnswered | src/ktli.c:1139-1575 | the front request, sent and answered, is back with its caller RECEIVED, with the next number, thirty seconds and its own response, and all else is as before |
| TransportService.FrontFails | src/ktli.c:1216-1278 | when its send fails it is back FAILED without a response, and all else is as before |
| TransportService.OneWayIsDone | src/ktli.c:1216-1278 | a request that wants no response is back RECEIVED if its send succeeded, else FAILED, without ever waiting |
| TransportService.ConnectionDies | src/ktli.c:1579-1598 | a failing receiver aborts the session, drains it if the driver lets go, and locks itself out |
| TransportOutcomes.StepAccounted | src/ktli.c:1087-1804 | every step keeps the account of which sends succeeded, whom the scan and whom a drain took, and what that makes of each kio |
| TransportOutcomes.FinalStates | src/ktli.c:1216-1278 | in every schedule a finished kio that was not drained is RECEIVED exactly when a response hangs on it or it wants none and its send succeeded, TIMEDOUT exactly when the scan took it, else FAILED; a drained one is FAILED |
| TransportOutcomes.SentIff | src/ktli.c:1195-1214 | a request that waits is SENT exactly when the driver has returned from sending it |
| TransportTimeouts.ThirtySeconds | src/ktli.c:1184-1188 | once its timeout is set, the scan can take a waiting request exactly from thirty seconds later on, whatever else happens |
| TransportSchedules.TimedOutUnsent | src/ktli.c:1173-1197 | a guarded schedule where a request times out before anything is written |
| TransportReturned.UnwrittenStays | src/ktli.c:574-1804 | a step changes no kio but those it is said to store into |
| TransportReturned.OnlySenderWrites | src/ktli.c:1184-1262 | of all steps only the sender's timeout store, its return from the driver and its taking back can store into a kio that is back with its caller |
| TransportReturned.NeverWrittenIff | src/ktli.c:1184-1262 | no schedule ever stores into a kio handed back exactly when the sender is not between queuing it for a response and being done with it |
| TransportSchedules.WrittenAfterHandBack | src/ktli.c:1173-1188 | a guarded schedule after which a caller has its request back and the sender's next step changes its timeout |
| TransportSchedules.HandedBackTwice | src/ktli.c:1241-1278 | a schedule where a request times out, its send fails, and the caller gets the same kio twice |
| TransportSchedules.HungWhileWaiting | src/ktli.c:1587-1598 | a connection that dies while a request waits leaves a draining session that can never be emptied |
| TransportSchedules.OpenedWithKioOut | src/ktli.c:949-977 | a guarded schedule whose drain opens the session while the sender has a request in hand |
| TransportSchedules.LastExpiresFirst | src/ktli.c:1173-1188 | a guarded schedule where the last request is expired and the one in front of it is not |
| Session.ReapedIsReap | src/ktli.c:715-757 | the receive of the object is the step of the transition system, and possible for every kio its caller waits for |
| Session.Session.constructor | src/ktli.c:225-246 | an opened session starts with empty queues and sequence 100 |
| Session.Session.Connect | src/ktli.c:444-499 | only an OPENED session connects |
| Session.Session.Disconnect | src/ktli.c:511-558 | only a CONNECTED or ABORTED session disconnects, and it is then DRAINING |
| Session.Session.Close | src/ktli.c:289-346 | close succeeds only from OPENED with all queues empty, or when already closed; the error of every other case |
| Session.Session.Send | src/ktli.c:574-631 | errors, and on success the queued state |
| Session.Session.Pop | src/ktli.c:713-772 | the received kio leaves the completion queue; the return code by its state |
| Session.Session.Receive | src/ktli.c:681-775 | by session state: an error, a drain of that kio, or a receive with its return code by the kio's state |
| Session.Session.ReceiveUnsolicited | src/ktli.c:790-843 | hands back the first completed kio without a request, and nothing exactly when there is none |
| Session.Session.TakeOff | src/ktli.c:957-966 | one queued kio leaves for the caller as FAILED |
| Session.Session.Drain | src/ktli.c:930-980 | the first kio of the completion, receive or send queue, in that order; OPENED when there is none |
| Session.Session.DrainMatch | src/ktli.c:1024-1059 | the kio leaves whatever queue it is on; OPENED when nothing is left; the answer is that of the last search |
| Session.Session.DrainAll | src/ktli_test.c:272-274 | a client's loop gets every queued kio once, completion before receive before send queue, in one call more than there are kios, and the session opens |
| Session.Session.CheckTimeouts | src/ktli.c:1736-1812 | the scan with its cursor comes to the specified one and terminates; none twice in one second |
| Session.Session.Complete | src/ktli.c:1763-1797 | one waiting kio moves to the rear of the completion queue |
| Session.Session.AbortQueues | src/ktli.c:1603-1633 | the loops behind the second lock, for a mutex that could be locked again: every waiting kio fails and the send queue is not touched |
| Session.Session.TakeFront | src/ktli.c:1141-1159 | the sender's first section is the step Take |
| Session.Session.QueueForResponse | src/ktli.c:1173-1181 | its second is Enqueue |
| Session.Session.SetTimeout | src/ktli.c:1184-1188 | then Stamp |
| Session.Session.DriverReturned | src/ktli.c:1195-1223 | then DriverSend |
| Session.Session.PullBack | src/ktli.c:1232-1262 | then, for a failure or a request without response, Pull |
| Session.Session.FinishSend | src/ktli.c:1268-1278 | then Finish |
| Session.Session.MatchResponse | src/ktli.c:1485-1560 | which kio a response takes and leaves the queue without, for each kind of acknowledged sequence; none exactly when a positive one is not waited for |
| Session.Session.DeliverResponse | src/ktli.c:1562-1575 | that kio goes to the rear of the completion queue as RECEIVED |
| Session.DrainOneShape | src/ktli.c:949-977 | one drain call takes the first of the queued kios as FAILED and leaves the others as they are |
| Session.DrainMatchCodeIff | src/ktli.c:1036-1047 | the answer of ktli_drain_match is right exactly when the kio is on neither the completion nor the receive queue |
| Session.MatchInBag | src/ktli.c:1035-1047 | one search takes out that kio, if it is there, and no other |
| Session.DrainMatchedShape | src/ktli.c:1024-1059 | one call hands back just that kio as FAILED, changes no other, keeps the invariant, and opens the session exactly when nothing is left |
| Session.DrainMatchAnyOrder | src/ktli.c:995-1059 | asked for in any order, the queued kios all come back, each once, and the session opens with the last |
| Session.AllHandedBackIff | src/ktli.c:318-328 | with empty queues all kios are back with their callers exactly when no thread holds one |
| Session.ScanPartition | src/ktli.c:1755-1804 | after a timeout check nothing expired waits, survivors keep order and cells, the expired are appended in order as TIMEDOUT, no other kio changes |
| Session.ScanInv | src/ktli.c:1755-1804 | the whole scan keeps the invariant |
| SessionSteps.ScanIsSteps | src/ktli.c:1755-1804 | the scan under one lock is the chain of one timeout step for each expired kio the cursor comes to |
| SessionSteps.ScanIsReached | src/ktli.c:1755-1804 | the state after a scan is one that some schedule reaches |
| SessionSteps.DrainOneIsStep | src/ktli.c:949-977 | one drain is one step |
| SessionSteps.DrainMatchedIsSteps | src/ktli.c:1024-1059 | one drain of a kio is its three searches and, when nothing is left, the opening of the session, as steps |
| SessionSteps.DrainIsReached | src/ktli.c:949-1059 | the state after either drain is one that some schedule reaches |
| SessionSteps.AnswerAndReceive | src/ktli.c:1485-1575 | the response to any waiting request, received by its caller: the call succeeds, and the kio is RECEIVED with its own response |
| Session.ExpiredFirstIff | src/ktli.c:1184-1188 | the expired are the front of the receive queue exactly unless the last request, its timeout not yet set, is expired before the one in front of it |
| Session.ExpiredAreFirst | src/ktli.c:1755-1804 | whenever the sender is not in that moment, the expired are the front of the receive queue |
| Session.FailAllShape | src/ktli.c:1603-1633 | those loops would fail all that waits, in order, and nothing that still queues to be sent |
| Session.FailAllInv | src/ktli.c:1603-1633 | and would keep the invariant |
| Keys.LessTransitive | src/util.c:244-252 | the byte order of keys is transitive |
| Keys.LessTotal | src/util.c:244-252 | and total |
| Keys.DupFlat | src/util.c:205-243 | the copy in one buffer is the joined key |
| Keys.Prepend | src/util.c:102-129 | the grown vector stands for the prefix followed by the key; a buffer over the length limit is refused |
| Keys.Append | src/util.c:135-158 | the same at the other end |
| Keys.KeyLast | src/util.c:287-313 | the last key is all 0xFF |
| Keys.FirstIsLeast | src/util.c:253-272 | no key comes before the first one |
| Keys.AfterLastIff | src/util.c:275-313 | a key comes after the last one of a length exactly when it extends it |
| Iterator.Kiter.constructor | src/iter.c:87-128 | a new iterator keeps the session's limits, holds no keys, has seen none and yields none |
| Iterator.Kiter.Start | src/iter.c:174-222 | first window, its count, and what each answer means |
| Iterator.Kiter.Next | src/iter.c:228-305 | next key of the window, or a window behind the last key for what is left of the count; NULL again once the count is used up; a read in front of the key array after an empty or failed window |
| Iterator.Iterate | src/iter.c:51-58 | the client's loop yields the specified trace |
| Iterator.RestartAfter | src/iter.c:265-281 | behind one key of the range, exclusively, lie exactly the keys that follow it |
| Iterator.NextIsAhead | src/iter.c:262-294 | each new window asks for exactly what has not been seen |
| Iterator.NextIsValid | src/validate.c:154-196 | and is accepted by the range check |
| Iterator.WindowAsks | src/iter.c:273-287 | a new window asks for what is still wanted or for as much as is allowed, so an obeying server sends no key in vain |
| Iterator.FirstWindowAsks | src/iter.c:206-211 | so does the first one |
| Iterator.RefusedIff | src/validate.c:154-196 | which range requests are refused: a negative count counts as a huge one |
| Iterator.IllegalYieldsNothing | src/iter.c:174-222 | an iteration with a bound that is no key yields nothing |
| Iterator.CutRange | src/iter.c:265-281 | cutting a range at one of its keys loses and doubles nothing |
| Iterator.ResumeStill | src/iter.c:228-305 | from any point on, an iteration yields what lies ahead up to its count |
| Iterator.WholeStill | src/iter.c:173-305 | over a store that stands still, whatever the windows, the keys are the first of the range up to the count; failures cut it to a prefix; how exactly it ends |
| IteratorChanging.NextFair | src/iter.c:262-301 | a new window leaves out no staying key between the last key and its own last |
| IteratorChanging.ResumeChanging | src/iter.c:228-305 | from any point on, keys ascend and no staying key is stepped over |
| IteratorChanging.WholeChanging | src/iter.c:173-305 | over a changing store: strictly ascending, in range, within the count, all staying keys up to the last returned, and all of them when it ends by itself |
| Vectors.Flatten | src/util.c:232-240 | copying buffer after buffer gives the joined bytes |
| Socket.CopyVectors | src/ktli_socket.c:273-284 | the working copy of the vectors is whole and its total is right |
| Socket.Advance | src/ktli_socket.c:335-348 | consumed vectors are passed over and the current one is cut, so that the position moves by what was moved |
| Socket.WriteSome | src/ktli_socket.c:298-348 | one call writes the next bytes of the joined message and nothing else |
| Socket.Send | src/ktli_socket.c:253-369 | for any short writes and retries a prefix goes out, all of it on success; vectors make no difference to how the exchange ends |
| Socket.GatherIsRest | src/ktli_socket.c:298 | the vectors from the current one on stand for just the bytes not yet moved |
| Socket.ScatterJoined | src/ktli_socket.c:412 | dealing bytes out to the vectors overwrites exactly that stretch of the joined buffers |
| Socket.ReadSome | src/ktli_socket.c:412-453 | one call stores the next bytes of the stream where the last ones ended |
| Socket.Receive | src/ktli_socket.c:376-472 | the buffers begin with what was taken off the stream, all else in them is untouched, and on success they are full |
| Socket.NextCallDecides | src/ktli_socket.c:298-369 | which error is which: what each further call makes of an unfinished exchange, by its result and errno |
| Pdu.UnpackPack | src/protocol_interface.h:32-62 | unpacking a packed header restores it, for every magic and all 32-bit lengths, on every host |
| Pdu.PackUnpack | src/protocol_interface.h:32-62 | packing an unpacked header restores its nine bytes |
| Pdu.PackIsWireIff | src/protocol_types.h:291-299 | the bytes are the prescribed big-endian ones exactly on a little-endian host or for lengths that read the same both ways |
| Pdu.UnpackWireIff | src/protocol_types.h:291-299 | a host reads a prescribed header exactly when it would have written it |
| Pdu.WireReads | src/protocol_types.h:291-299 | read as big-endian numbers, the bytes of the prescribed layout are the two lengths |
| Framing.ValueLength | src/put.c:228-233 | the value length is the length of the joined vectors in 32 bits |
| Framing.VectorsAreFrame | src/put.c:204-236 | the vectors of a put are one frame |
| Framing.SetSeq | src/protocol_interface.c:589-641 | the header of a message becomes that of the repacked message with the same value |
| Framing.ReadHeader | src/ktli.c:1426-1443 | a full first receive is the first nine bytes |
| Framing.ReadBody | src/ktli.c:1456-1483 | a full second receive splits into message and value |
| Framing.RecvMsg | src/ktli.c:1418-1483 | success means the packet at the front of the stream has been read; it comes exactly when both receives move all their bytes and both lengths can be allocated |
| Framing.ReadFrameIff | src/ktli.c:1446-1483 | a frame is read back, with nothing of what follows, exactly when both parts are below two gigabytes |
| Framing.ReadAllIff | src/ktli.c:1418-1483 | reading on and on gives back the list of packets and leaves nothing, exactly when every packet fits |
| Framing.FramesArePrefixFree | src/protocol_types.h:278-299 | different packets never begin alike |
| Framing.HeaderReads | src/protocol_types.h:278-299 | a frame begins with an F and the two lengths, high byte first, on a little-endian host |
| Framing.CutFrameIsCutOff | src/ktli.c:1418-1483 | a message that is not all there is not read, wherever it is cut |
| Framing.TooLongIsRefused | src/ktli.c:1446-1458 | one that announces two gigabytes or more is refused |
| Conversation.SendAll | src/ktli_socket.c:253-369 | what a sender puts on the wire is a prefix of the frames of its messages, all of them exactly when every send moves all its bytes |
| Conversation.ReadOfCut | src/ktli.c:1418-1483 | off a stream that may be cut short, only the first message sent can be read, and whole |
| Conversation.ReceiveAll | src/ktli.c:1418-1483 | a receiver gets a prefix of the packets, all of them and nothing left exactly when every read moves all its bytes |
| Conversation.Converse | src/ktli_socket.c:253-472 | messages scattered, sent and received in any pieces: if all fit, what is received is a prefix of what was sent; when all transfers go through nothing is left, and it is the whole list exactly when all fit |
| BasicKv.Kv.BkvLimits | src/basickv.c:59-79 | the limits, or an error while the server has told no key length |
| BasicKv.Kv.PutN | src/basickv.c:360-460 | errors; the number of keys; exactly a prefix of the pieces is stored, all of them on success |
| BasicKv.Kv.GetN | src/basickv.c:151-275 | errors; the joined values of the first n keys if all are there |
| BasicKv.Kv.DelN | src/basickv.c:526-600 | errors; exactly a prefix of the keys is gone; success, with all of them gone, exactly when every request is done and every key was there |
| BasicKv.CeilingIs | src/basickv.c:392 | the quotient rounded up is the least number of pieces that hold the value |
| BasicKv.PiecesLegal | src/basickv.c:426-452 | no piece is empty or longer than the server takes |
| BasicKv.PiecesAreAll | src/basickv.c:426-452 | joined, the pieces are the value |
| BasicKv.PutThenGetIff | src/basickv.c:391-452 | getn after putn gives the value back exactly when the number of keys fits 32 bits |
| BasicKv.NameInjective | src/basickv.c:26-29 | generated names tell base key and index |
| BasicKv.SuffixReads | src/basickv.c:26-29 | the suffix is a dot and the three decimal digits of the index, highest first |
| BasicKv.NameFitsIff | src/basickv.c:382-390 | a generated name fits the key length exactly when the base passes the length test |
| BasicKv.OtherBaseStays | src/basickv.c:426-460 | putn and deln on one base never change what getn finds under another |
| BasicKv.DeletedIsGone | src/basickv.c:579-600 | after deln every getn of that base fails |
| BasicKv.DeleteUndoesPut | src/basickv.c:579-600 | deln of as many keys undoes a putn of new ones |
| Counters.AtomInc | src/batch.c:68-82 | when the call adds, what it returns and what it reports, by the number of failed swaps |
| Counters.StepInv | src/batch.c:74-77 | every read and swap of every call keeps the counter's invariant |
| Counters.NothingLost | src/batch.c:123-130 | in every interleaving no increment is lost and the n-th winner gets the n-th identifier from 1000 on |
| Counters.OwnIdIff | src/batch.c:123-130 | a call has an identifier of its own exactly when it did increment |
| Counters.ReturnCodeIff | src/batch.c:79-82 | the return code is right exactly below 1000 failures |
| Counters.SwapIs | src/batch.c:74-82 | in every reached state a swap that meets the value read adds one and ends its call with it; any other changes nothing, and ends the call only after 1000 failures |
| Counters.UndisturbedWins | src/batch.c:123-130 | from every reached state a new call that nobody disturbs wins the next identifier |
| Counters.ReturnsInTime | src/batch.c:68-82 | in every interleaving a call has returned by its 1001st swap, and has failed as often as it says |
| ActiveBatches.ActiveLimit | src/batch.c:134-147 | in every interleaving, with increments that give up or misreport among them, at most one batch above the limit is active, and one more for each start that was not counted |
| ActiveBatches.LimitIsExceeded | src/batch.c:134-147 | and for every limit that many can be |
| ActiveBatches.CountIs | src/batch.c:134-147 | the active batches are those started and not ended, and the count is their number, off by just one for each increment or decrement that went wrong |
| ActiveBatches.LeaksLockOut | src/batch.c:68-82 | with one lost count more than the limit no batch is let through any more, though none is active |
| BatchLimits.AccountInv | src/del.c:225-237 | accounting for one more request keeps the counters right, wrapped, and every request's stage earned by comparisons that passed |
| BatchLimits.CheckInv | src/del.c:239-259 | so does each comparison made without the lock |
| BatchLimits.LimitsHold | src/put.c:238-265 | in every interleaving of fewer than two to the 32 requests what is sent stays within operations and deletions, and within bytes while no wrapped byte count passes for a true one |
| BatchLimits.MostSent | src/del.c:225-259 | for any limits and any number of requests, some interleaving sends exactly the requests for which three moments in order exist at which bytes, operations and deletions pass, and none sends more requests, bytes or deletions than those have |
| BatchLimits.BytesExceededIff | src/put.c:238-265 | for any limits, some interleaving sends more than so many bytes exactly when the requests that can be sent have more |
| BatchLimits.OneMomentIff | src/del.c:239-259 | for fewer than two to the 32 requests, a request can be sent exactly when bytes, operations and deletions all pass after some number of requests, itself included |
| BatchLimits.RejectedIff | src/put.c:250-265 | in every reached state a comparison rejects exactly when there is a limit and the count of the moment, in 32 bits, is above it |
| BatchLimits.FittingIsSent | src/put.c:238-265 | requests that all fit are never rejected, whatever the interleaving, and all of them can be sent |
| Slots.AllocSlot | src/ktli_session.c:88-122 | alone, the first free slot, or -1 exactly when there is none |
| Slots.StepInv | src/ktli_session.c:88-133 | every step of every caller keeps slots and holders in agreement |
| Slots.NoSharing | src/ktli_session.c:100-117 | no two callers hold one slot |
| Slots.FreeHitsTheHolderIff | src/ktli_session.c:125-133 | giving a slot back frees nothing, or exactly when it has been taken again, the new holder's record |
| Slots.LiveRecordIsFreed | src/ktli_session.c:125-133 | a schedule of two callers on which one frees the record the other holds |
| Slots.ValidIsHeldIff | src/ktli_session.c:156-159 | an index is valid exactly when a caller holds that slot; for one index the test reads past the table |
| Slots.ScanAlone | src/ktli_session.c:88-122 | a caller that scans past taken slots takes the next one, and gives up only when there is none |
| Slots.GivenBackAlone | src/ktli_session.c:125-133 | a slot given back undisturbed is empty, and its record is not freed |
| Welford.MeanNext | src/put.c:537-548 | the running mean is the mean |
| Welford.DeviationsNext | src/put.c:532-536 | the running square term is the sum of squared deviations from the mean |
| Welford.DropForgets | src/stat.c:168-173 | after any run with a drop that left the mean right, one more operation leaves it right exactly when its size is the mean |
| Welford.RightThroughoutIff | src/put.c:524-548 | whatever was dropped when, mean and square term are right after every operation of a run exactly when, from the first drop on, each size is the mean of those before it |
| Welford.NoDropsIsRight | src/put.c:524-548 | without drops they are right |
| Stats.TsSubIs | src/stat.c:106-122 | the interval is the true one in microseconds when it makes sense, else 0 |
| Stats.KeptIff | src/stat.c:164-173 | which samples in temporal order are kept |
| Stats.KeptAreTrue | src/stat.c:164-173 | a kept sample has the true intervals |
| Stats.AddTime | src/stat.c:137-149 | the array tells total, mean and squared deviations of all times so far |
| Stats.KopStat.constructor | src/kinetic_types.h:418-481 | empty statistics are valid |
| Stats.KopStat.AddSizes | src/put.c:524-548 | means and square term follow the run, dropped samples and all |
| Stats.KopStat.AddStamps | src/stat.c:156-208 | a kept sample is added to all three arrays, a dropped one to none |
| Stats.KopStat.Complete | src/del.c:512-550 | a completed operation keeps both, whether its sample is kept or dropped |
| Stats.KopStat.UpdateKop | src/stat.c:215-237 | the reported variances of total, request and response times are the sample variances of the kept samples, and, where mean and square term are right, that of the sizes exactly when none was dropped or their squared deviations are 0 |
| Stats.GetSizes | src/get.c:514-527 | the statistics of ki_get are those of a run whose first value is 0 |
| Escape.AsciiDump | toolbox/kctl/util.c:117-129 | prints the specified notation |
| Escape.AsciiDecode | toolbox/kctl/util.c:136-198 | decodes as specified, reading where it is specified to read; each byte is written no further on than that |
| Escape.NeverPast | toolbox/kctl/util.c:136-198 | the k-th byte is read at place k or further on |
| Escape.DecodedDumped | toolbox/kctl/util.c:136-198 | what comes back is the data, or shorter, or nothing |
| Escape.RoundTripIff | toolbox/kctl/util.c:117-198 | decoding what is printed gives the data back exactly when it has no backslash with an x behind it |
| Escape.EscapedIs | toolbox/kctl/util.c:117-129 | from space to tilde a byte stands for itself; any other is printed as a backslash, an x and two upper-case digits |
| Escape.EitherCaseReads | toolbox/kctl/util.c:136-198 | an escape with digits of either case is read back as its byte |
| Escape.OddPairsRead | toolbox/kctl/util.c:136-198 | what else strtol reads to its end: white space, a sign or a NUL |
| Escape.NoNumberFails | toolbox/kctl/util.c:136-198 | an escape strtol does not read to its end fails the decoding |

## Left out

- Stats.KopStat.UpdateKop: needs two operations; with fewer the program divides by zero. Square roots are not modelled.
- Iterator.Kiter.Start: does not model a window limit of two to the 31 or more, which an `int32_t` count cannot hold.
- Iterator.Kiter.Next: says nothing of what follows once the program has read in front of its key array.
- Socket.Send: transfers of two gigabytes or more in one call overflow the program's `int` totals.
- Waiting and waking: condition variables, `ktli_poll`, thread creation and joining, and exit flags.
- Liveness: that a waiting request is ever answered depends on the server and the scheduler.
- Aliasing of kio structures used again before they are handed back (`NeverWrittenIff` tells when the one handed back is free for use).
- Allocation failures other than those of announced lengths.
- A drain that empties the send queue between the sender's size test and its removal.
- Protobuf packing, HMAC and digests: a repacked message is opaque bytes.
- A put or get of one key in `basickv`: one request with argument checks.
- Slot setters and getters: single stores.
- A server that allows no keys per range request: every request is then refused and every iteration empty.
- BatchLimits.LimitsHold: fewer than two to the 32 requests in one batch; beyond that the operation count wraps as well (`MostSent` and `BytesExceededIff` have no such bound).
- Reverse ranges: declared unsupported by the iterator.
- Floating-point rounding.
- The other command line code of the toolbox: user interface.
