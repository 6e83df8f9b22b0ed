# Verified models of RDMA++

RDMA++ wraps InfiniBand verbs in C++20 coroutines. Its repository also holds a coroutine RPC protocol,
a handshake that connects queue pairs over TCP, and a small blocking queue. This project models the
parts of it in which several parties race, and proves what they keep over every run.

| files | subject |
|---|---|
| `Rpc*.dfy`, `RequestId.dfy`, `Memory.dfy` | `RpcClient`, `RpcServer` and the network between them as one transition system over byte-level memory; the client on its poller threads; the classes whose methods the steps are; the client multiplexer |
| `Asio*.dfy` | asynchronous operations on the asio path: initiation, poller callback and cancellation race on a flag, on shared and weak pointers and on a heap callback |
| `Native*.dfy` | operations on the native path: one operation, all operations of a process at addresses that recur, and the poller's loop with the coroutines that it resumes |
| `Serdes.dfy`, `QpCodec.dfy` | byte order, the wire forms of a queue pair and of a memory region, framing on a stream |
| `Handshake*.dfy`, `QueuePairs.dfy` | connecting queue pairs: any number of interleaved connections, and the procedures of one |
| `BlockingQueue.dfy` | the monitor with close and drain |
| `Bytes.dfy`, `Options.dfy`, `Finite.dfy` | bytes, host byte order, `Option` and `Result`, finite sets of numbers |

Concurrent code is a transition system: one step is the code between two suspension points, or one
access to shared memory inside it, or one action of the device. A run is any sequence of enabled
steps, so every interleaving is covered. Code that works by updating fields is a class whose methods
are proved against the functions that the transition system applies.

## What is assumed

RPC (`RpcModel`):

- The reliable connection delivers each sent message exactly once; a send that fails is not delivered.
  Messages may be delivered in any order (two bags), so nothing depends on their order.
- A request is at most `kSendMsgSize` bytes (the code does not check this), and the handler answers
  with `n` bytes, `0 < n <= kRecvMsgSize`; otherwise the handler is any relation.
- Memory is sequentially consistent. Both hosts have the same byte order, since RPC headers are
  copied as they lie in memory.
- `RpcModel` alone lets any code run at any time. `RpcPoller` binds what a completion resumes to the
  thread that polled it, until it suspends: the receive worker, the call that the worker resumes, and
  the next call that this call's return goes on to, including its spin for a slot. Of the code after a
  call only such a next call is modelled; anything else that it does is taken to suspend.
- `RpcPoller` has three modes. `Shared(true)`: one thread and one queue, as the connector sets it up,
  and a send's completion is generated before the receive completion of its response. `Shared(false)`:
  the same in any order; `RpcDeadlock` shows that the thread can then spin forever. `Separate`: a
  thread and a queue for sends, another for receives, in any order.
- A thread that dispatches completions has no other work.

Asio path: every posted work request gets one completion; heap addresses are unique while allocated;
`complete` of a composed operation consumes the function object that the operation holds.
Native path: at most one completion for each posted work request, and none for others; an awaitable
lives until it has been resumed, and no other awaitable is at its address until then.
Handshake: streams lose and reorder nothing but may break at any byte; a device gives no two existing
queue pairs the same number, and hosts have different gids.
Blocking queue: `closed_` starts `false` (the code leaves it uninitialised); a notified or spuriously
woken consumer takes the mutex at any later time.

## Where the code does not do what one would expect

- A call of the RPC client whose send fails returns 0 and leaves the caller's buffer untouched. With a
  buffer that is not empty 0 is returned exactly if the send failed, at its post or with its completion
  (`RpcSafety.CallResult`), and `RpcFailedSend.FailedSendReturnsZero` gives both runs.
- With more callers than slots a client can stop for good: a call that returns on the receiving thread
  goes on to a next call there, which spins for a slot that only this thread could free
  (`RpcStarvation.ReceivingThreadCanStarve`). With up to `limit` callers this is excluded exactly if
  `limit <= max_inflight_` (`RpcStarvation.NeverStarvesExactlyIf`). Callers that wait on threads of their
  own do no harm, however many they are (`RpcLiveness.OwnThreadsFinish`).
- `basic_qp::send` is documented to return the bytes transferred and returns 0 on success: the right
  length exactly if that is 0 (`NativeCompletion.SendReturnsLength`). A write returns its length exactly
  if that is below 2^32 (`NativeCompletion.WriteReturnsLength`).
- A posted receive can be left without any completion, in exactly one interleaving with a
  cancellation (`AsioOutcome.OutcomeAtRest`, `AsioOutcome.CompletionCanBeLost`).
- An operation on the asio path whose post fails is completed by a cancellation only, a send therefore never
  (`AsioOutcome.FailedPostNeverCompletes`, and `AsioOutcome.FailedSendIsLost` for a run).
- An error completion on the asio path ends the process exactly if it is a send's, or a receive's whose
  flag no cancellation handler has set (`AsioTermination.ErrorEndsExactlyIf`); otherwise it is skipped.
  `AsioTermination.ErrorCompletionTerminates` and `AsioTermination.CancelledErrorIsSkipped` are runs.
- A queue pair is left on its device exactly if one of its transitions failed
  (`HandshakeSafety.LeakedExactlyIf`), in a run that `HandshakeSafety.FailedTransitionLeaks` gives.
- User data of 2^32 bytes or more does not survive the handshake (`HandshakeSafety.Agreement`), and in
  `from_socket` a connector's user data is empty when it is sent.
- The multiplexer is fair across the wrap of its counter exactly if the number of clients divides 2^32
  (`RpcMux.FairExactlyIf`).

## Model

| member | source | states |
|---|---|---|
| RequestId.ShiftOr | examples/include/coro_rpc.hpp:107-110 | on 64-bit words the shift-or that builds an id is a sum of disjoint halves, and masking gives the slot back |
| RequestId.WordIsEncode | examples/include/coro_rpc.hpp:107-110 | the 64-bit word made by shift and or, read as a number, is the id that the other results speak of, for every value of the counter and every slot |
| RequestId.SlotOfEncode | examples/include/coro_rpc.hpp:163-165 | for every counter value, past 2^32 and 2^64 too, the low half of an id decodes to the slot |
| RequestId.EncodeInjective | examples/include/coro_rpc.hpp:107-115 | two ids are equal exactly for one slot and counters congruent modulo 2^32, so slots held together have different ids |
| RequestId.EqualIdsFarApart | examples/include/coro_rpc.hpp:107-110 | different calls with one id are at least 2^32 sequence numbers apart |
| Memory.RegionsDisjoint | examples/include/coro_rpc.hpp:118-120 | two regions of a buffer pool share no byte, for any region size and any indices |
| Memory.PutRegion | examples/include/coro_rpc.hpp:122-127 | a store into one region changes that region as told and no byte of any other |
| RpcPreservation.StepInv | examples/include/coro_rpc.hpp:95-202 | every step of callers, receive workers, server workers and the device keeps the protocol's invariant; where a step takes each call and each worker is stated in RpcHistory |
| RpcPreservation.MatchFinds | examples/include/coro_rpc.hpp:157-179 | the header check of a receive worker always finds the slot of the call whose response it has |
| RpcPreservation.HandleStores | examples/include/coro_rpc.hpp:313-330 | the handler step leaves in the reply region a frame with the request's own id and the handler's answer, and other workers' regions alone |
| RpcPreservation.CopyFinds | examples/include/coro_rpc.hpp:181-188 | the copy reads inside the region and writes min(answer, buffer) bytes into the buffer of that very call |
| RpcHistory.CallsAsInvoked | examples/include/coro_rpc.hpp:95-96 | the calls of a run are those made in it, in order, and each keeps the request and the buffer that it was made with |
| RpcHistory.IdsInOrder | examples/include/coro_rpc.hpp:107-110 | in every run the j-th call to take an id has the counter's first value plus j in it, with its own slot, and keeps it; the counter moves by one for each, no call takes two, and every call past that point has taken one |
| RpcHistory.EqualIdsInRun | examples/include/coro_rpc.hpp:107-115 | two calls of one run have equal ids if and only if they had one slot and a multiple of 2^32 ids were taken from one to the other, so at least 2^32 |
| RpcHistory.StepFollowsCalls | examples/include/coro_rpc.hpp:95-143 | every step leaves each call where it is or takes it to the next point of `call`, through its send and response or through the failed send |
| RpcHistory.StepFollowsLoops | examples/include/coro_rpc.hpp:146-202 | every step leaves each client and server worker where it is or takes it to the next point of its loop, and only a failed receive leads out of a loop |
| RpcHistory.LeavesExactlyIf | examples/include/coro_rpc.hpp:198-202 | in every run a worker, of the client or the server, has left its loop if and only if a receive of its own failed |
| RpcHistory.FailedReplyGoesOn | examples/include/coro_rpc.hpp:334-341 | a reply can fail when it is posted and when it completes, and the server worker then goes on to post its next receive |
| RpcSafety.NeverFaults | examples/include/coro_rpc.hpp:155-179 | no run reaches a short packet, an invalid slot index, the mismatch that terminates, an overrunning copy, or a resumption of a handle that is not waiting |
| RpcSafety.MatchedExactlyIf | examples/include/coro_rpc.hpp:155-179 | on the bytes: a message is matched with a slot if and only if it holds a header, the low half of its id is the index of a slot, and that slot expects this very id; too short and mismatched messages are told apart likewise |
| RpcSafety.Matching | examples/include/coro_rpc.hpp:107-115 | every request or response under way, in memory or on the wire, carries exactly the id its slot expects, and that slot is held by a call between sending and resumption |
| RpcSafety.OneTokenPerSlot | examples/include/coro_rpc.hpp:163-179 | at most one request or response is under way for a slot, wherever it is |
| RpcSafety.SlotConservation | examples/include/coro_rpc.hpp:79-105 | free queue and calls partition the slots: each index is once in the queue or held by exactly one call, after failures too |
| RpcSafety.RendezvousSafety | examples/include/coro_rpc.hpp:190-195 | a handle loaded by the spin loop is that of the call whose id is in the response, and that call is suspended on it; never a former user's |
| RpcSafety.ResumedAtMostOnce | examples/include/coro_rpc.hpp:42-49 | in every run a call is resumed from its response wait at most once |
| RpcSafety.CallResult | examples/include/coro_rpc.hpp:129-142 | a call that finishes in a run returned min(answer, buffer) with exactly these bytes of a handler answer to its own request in its own buffer and the rest untouched, or, if and only if its send failed in the run, 0 with the buffer untouched and its request never handled; with a buffer that is not empty, 0 if and only if the send failed |
| RpcFailedSend.FailedSendReturnsZero | examples/include/coro_rpc.hpp:129-140 | for every configuration, request and buffer: a run in which the only call's send fails, at the post or with an error completion, and the call returns 0 and leaves its buffer as it was |
| RpcRefinement.StepRefines | examples/include/coro_rpc.hpp:287-342 | every step is invisible or one step of the specification "a call atomically applies the handler" |
| RpcRefinement.RunRefines | examples/include/coro_rpc.hpp:95-342 | every run of client, network and concurrent server is, seen from its callers, a behaviour of that specification; each request is handled at most once |
| RpcOwnership.Layout | examples/include/coro_rpc.hpp:68-76 | in all four pools, for every depth, region i lies i times 272 or 4112 bytes into the pool and inside it, and different ones are disjoint |
| RpcOwnership.SendViewNotClamped | src/mr.cc:85-87 | the view on a send region is as long as header and request, never cut at the end of the pool |
| RpcOwnership.MessagesFit | examples/include/coro_rpc.hpp:30-31 | every message under way fits the region it is received into and holds at least a header |
| RpcOwnership.CpuLeavesNicRegions | examples/include/coro_rpc.hpp:298-301 | no step of the code reads or writes a region between its post and its completion |
| RpcOwnership.NicTouchesOwned | examples/include/coro_rpc.hpp:129-131 | the device reads or writes a region only between its post and its completion |
| RpcOwnership.WritesWithinFootprint | examples/include/coro_rpc.hpp:122-127 | a step changes bytes only in regions that the code or the device touches in it |
| RpcOwnership.NicRegionsStable | examples/include/coro_rpc.hpp:129-131 | from post to completion no step changes a byte of a send region, and only the delivery changes a posted receive region |
| RpcOwnership.SendsAreOnlyRead | examples/include/coro_rpc.hpp:334-340 | transmitting changes no send region |
| RpcCredits.ClientQueueBounds | examples/qp_connector.cc:34-36 | the client's entries in its send queue, and those in its receive queue, from post until the completion is polled, are each at most `max_inflight_` |
| RpcCredits.ServerQueueBounds | examples/qp_acceptor.cc:38-41 | the server's entries in both queues, from post until the completion is polled, are together at most `recv_depth_` |
| RpcCredits.ReceiveCredits | examples/include/coro_rpc.hpp:146-153 | responses still to come never outnumber receives posted, workers about to post one and workers that have left their loop; so with no worker gone, receives posted and about to be posted suffice |
| RpcCredits.DequeueNeverSpins | examples/include/coro_rpc.hpp:98-105 | with at most `max_inflight_` concurrent callers an entering call always finds a free slot |
| RpcProgress.StepDecreases | examples/include/coro_rpc.hpp:95-202 | every step except a new call, failures included, strictly decreases a natural measure of the state |
| RpcLiveness.NeverStuck | examples/include/coro_rpc.hpp:146-202 | while no worker has left its loop and no reply was lost: if every completion may be dispatched on a thread of its own, in any order, some step is enabled while a call is under way, for any number of callers |
| RpcLiveness.SpinEndsAtOnce | examples/include/coro_rpc.hpp:190-192 | on one thread with ordered completions the spin on the waiter succeeds at its first load, with the right handle |
| RpcLiveness.PolledNeverStuck | examples/include/coro_rpc.hpp:98-105 | while no worker has left its loop and no reply was lost: on one thread with ordered completions, or on two threads in any order, some step is enabled until all calls have finished, though resumed calls occupy the thread, if at most `max_inflight_` calls are under way or no poller thread is looking for a slot |
| RpcLiveness.RunBounded | examples/include/coro_rpc.hpp:95-143 | a run without new calls is no longer than the measure of its first state |
| RpcLiveness.PolledCallsFinish | src/cq_poller.cc:33-39 | on the same threads and under the same conditions, runs without new calls and failures are bounded, and one that cannot go on has finished all calls |
| RpcLiveness.OwnThreadsFinish | examples/async_rpc.cc:85-100 | with any number of callers that wait on threads of their own, so that no poller thread goes on from one call to the next, all calls finish likewise |
| RpcStarvation.NeverStarvesExactlyIf | examples/include/coro_rpc.hpp:98-105 | for every depth: with up to `limit` calls under way the receiving thread is never stuck on the empty slot pool, if and only if `limit <= max_inflight_` |
| RpcStarvation.ReceivingThreadCanStarve | examples/async_rpc.cc:144-145 | for every depth, `max_inflight_ + 1` callers and no failure reach a state after which no call under way ever returns, whatever else is done or called |
| RpcStarvation.SlotComesExactlyIf | examples/include/coro_rpc.hpp:98-105 | a call that looks for a slot on the one thread can still get one if and only if the pool is not empty or some call is already returning its slot |
| RpcStarvation.BlockedForever | examples/include/coro_rpc.hpp:139-142 | a receiving thread blocked on the pool stays blocked, and no call under way returns, in every continuation without failures, new calls included |
| RpcDeadlock.SpinEndsOrBlocks | examples/include/coro_rpc.hpp:190-195 | on one thread, in any order of completions, the worker gets past its spin exactly if the call has suspended on its response; otherwise the thread is blocked |
| RpcDeadlock.BlockedNeverFinishes | examples/include/coro_rpc.hpp:190-195 | a blocked thread stays blocked in every continuation and its call never finishes |
| RpcDeadlock.UnorderedCompletionsCanBlock | examples/qp_connector.cc:32-33 | for every configuration one call without any failure reaches that blocked state when the response's completion overtakes the send's |
| RpcPoller.PolledReachableInv | src/cq_poller.cc:31-40 | each queue holds exactly its thread's pending completions, each once; a thread runs one worker or call at a time, and every resumed call and worker is run by the thread that dispatched it |
| RpcPoller.HeadIsPublished | src/cq_poller.cc:31-40 | a response at the head of an ordered queue finds its call already suspended on it |
| RpcEndpoints.RpcClient.constructor | examples/include/coro_rpc.hpp:68-85 | pools and slots of the right sizes, slots without a waiter, a free queue with each index once, and the counter at 0 |
| RpcEndpoints.RpcClient.TryDequeue | examples/include/coro_rpc.hpp:98-105 | takes one slot that was free, or reports an empty queue and changes nothing |
| RpcEndpoints.RpcClient.Prepare | examples/include/coro_rpc.hpp:108-127 | the id is made of the counter's value and the slot, the counter then moves by one, the slot expects the id and has no waiter, header and payload are stored as the protocol's steps say, and nothing else changes |
| RpcEndpoints.RpcClient.PrepareEach | examples/include/coro_rpc.hpp:107-115 | calls that take their ids one after the other get consecutive counter values, whatever their slots |
| RpcEndpoints.RpcClient.PublishWaiter | examples/include/coro_rpc.hpp:45-47 | stores the handle in the slot's waiter and changes nothing else |
| RpcEndpoints.RpcClient.Finish | examples/include/coro_rpc.hpp:140-142 | returns the stored length and puts the slot back |
| RpcEndpoints.RpcClient.CheckHeader | examples/include/coro_rpc.hpp:157-179 | decides as the protocol's header check: short packet, bad index, mismatch, or the slot |
| RpcEndpoints.RpcClient.CopyPayload | examples/include/coro_rpc.hpp:181-188 | copies min(header length, buffer) bytes from inside the region, keeps the rest of the buffer, records the length |
| RpcEndpoints.RpcClient.ReceiveResponse | examples/include/coro_rpc.hpp:155-192 | the worker's code from receive to first load: the check's outcome, nothing changed on failure, else buffer, length and the handle that is there |
| RpcEndpoints.RpcServer.CallHandler | examples/include/coro_rpc.hpp:321-325 | the handler may leave any bytes in the payload and in the reply after its header, and touches nothing else |
| RpcEndpoints.RpcServer.WriteHeader | examples/include/coro_rpc.hpp:326-327 | the id is read after the handler has run, and goes with the length into the reply's header |
| RpcEndpoints.RpcServer.Serve | examples/include/coro_rpc.hpp:303-330 | around a handler that may write into payload and reply, leaves answer, echoed id and length in the reply region; refuses short packets without a change |
| RpcEndpoints.CopyPayloadCallable | examples/include/coro_rpc.hpp:183-188 | in every reachable state the copy is called within its bounds |
| RpcEndpoints.ServeIsHandle | examples/include/coro_rpc.hpp:313-330 | in every reachable state a delivered request is long enough for the server's code, whose effect, whatever the handler leaves behind, is a handler step of the protocol |
| RpcMux.RpcClientMux.Select | examples/include/coro_rpc.hpp:216-221 | the counter modulo the number of clients picks the client, and the counter wraps at 2^32 |
| RpcMux.RpcClientMux.SelectMany | examples/include/coro_rpc.hpp:216-221 | consecutive calls pick the sequence of clients that the fairness results are about |
| RpcMux.LoadCounts | examples/include/coro_rpc.hpp:216-221 | a client's load is how often it occurs among the chosen clients |
| RpcMux.FairWithoutWrap | examples/include/coro_rpc.hpp:216-221 | in any window without wrap each of n clients gets the floor or the ceiling of k/n calls |
| RpcMux.UnfairAtWrap | examples/include/coro_rpc.hpp:206-219 | if n does not divide 2^32 there is a window around the wrap that is not shared evenly |
| RpcMux.FairExactlyIf | examples/include/coro_rpc.hpp:206-219 | every window is shared evenly if and only if n divides 2^32 |
| AsioPreservation.StepInv | src/qp.cc:474-563 | every step of initiation, poller and cancellation keeps exact reference counts, one winner of the flag and one heap address per live callback |
| AsioPreservation.CancelTestOk | src/qp.cc:522-527 | a handler that finds the flag clear is the first and only winner |
| AsioPreservation.CompletionFindsOwner | src/executor.cc:27-37 | the address in a completion is that of the live callback of the operation that posted the request, even after addresses were reused |
| AsioSafety.MemorySafety | src/executor.cc:27-50 | no run calls or deletes a deleted callback, drops a pointer twice or completes twice; without error completions it has no fault at all |
| AsioSafety.AtMostOnce | src/qp.cc:510-563 | counted over any run, an operation is completed at most once and its callback called at most once and deleted at most once |
| AsioSafety.CalledBeforeDeleted | src/executor.cc:34-37 | a deleted callback was deleted once, and called once exactly if its request had been posted |
| AsioSafety.CallbackLifetime | include/rdmapp/executor.h:33-45 | heap addresses and live callbacks correspond one to one; a posted callback is live exactly while its request, its completion or the poller's run of it is there |
| AsioSafety.CompletionsAreRouted | src/executor.cc:33-34 | the poller always runs the callback of the operation whose request the completion is for |
| AsioSafety.OwnResult | src/qp.cc:470-472 | an operation completes at most once, with its own completion entry or, for a cancellable receive, with an abort |
| AsioSafety.RegisteredWhileOutstanding | src/mr.cc:23-35 | a span's temporary registration stays from creation while the request is outstanding, also after a cancellation, and goes exactly with its last holder |
| AsioHistory.OperationsAsRun | src/qp.cc:501-563 | the operations of a run are those created in it, in order, of their kind and registered if and only if on a span; one is cancellable, or posted, if and only if the run says so; and every signal is taken up once or still to come |
| AsioTermination.TerminatesExactlyIf | src/qp.cc:470-472 | a run ends the process if and only if its last step, in the state that the steps before it reach, takes the result of an error completion whose callback won the flag; nothing happens after it |
| AsioTermination.ErrorEndsExactlyIf | src/qp.cc:546-552 | where the poller tests the flag with an error completion, no continuation gets past it if and only if it is a send's or the flag is clear; the end of the process then stays enabled until it happens |
| AsioTermination.ErrorCompletionTerminates | src/qp.cc:470-472 | a run in which a posted receive fails and the process ends |
| AsioTermination.CancelledErrorIsSkipped | src/qp.cc:522-553 | a run in which the same receive was cancelled before the test: the error is skipped and the callback deleted |
| AsioOutcome.ZeroOnlyInWindow | src/qp.cc:522-540 | a posted operation whose callback is gone has completed, or a handler holds the lock, or one had passed the flag and not locked when the callback was deleted |
| AsioOutcome.LockFailsExactlyIf | src/qp.cc:528 | the lock fails if and only if the callback is deleted and the initiating function has returned |
| AsioOutcome.LockedCompletes | src/qp.cc:528-534 | a handler that holds the lock completes the operation, with an abort, in its next step |
| AsioOutcome.LostForever | src/qp.cc:525-540 | an operation lost in the window is completed in no continuation |
| AsioOutcome.CompletionCanBeLost | src/qp.cc:525-548 | the window exists: a run that posts a receive, deletes its callback and completes it in no continuation |
| AsioOutcome.FailedPostNeverCompletes | src/qp.cc:555-558 | after a failed post only a cancellation completes an operation, in any continuation, and a send never completes |
| AsioOutcome.FailedSendIsLost | src/qp.cc:491-494 | a run in which a send's post fails and no continuation completes it |
| AsioOutcome.InitiationMoves | src/qp.cc:480-497 | the initiating function can always go on until it has returned, without a failing post |
| AsioOutcome.CallbackMoves | src/executor.cc:55-61 | a callback whose initiating function has returned is never stuck before its deletion |
| AsioOutcome.OutcomeAtRest | src/qp.cc:501-563 | when nothing can move, every callback is deleted once and a posted operation has completed exactly once, except exactly if a handler won the flag and failed to lock |
| AsioProgress.StepDecreases | src/qp.cc:501-563 | every step but a new operation and a new cancellation signal strictly decreases a natural measure of the state, failures included |
| AsioProgress.OperationsEnd | src/executor.cc:55-61 | so runs without these are bounded, and where one cannot go on, either an error completion has ended the process or every operation has the outcome above |
| NativeCompletion.Operation.Suspend | src/qp.cc:359-404 | a read or write remembers the view's length cut to 32 bits; a refused post records its exception and does not suspend |
| NativeCompletion.Operation.SetFromWc | src/qp.cc:321-343 | status and flags always, length except for sends and writes, immediate data for receives only |
| NativeCompletion.Operation.AwaitResume | src/qp.cc:417-434 | post exception first, then an error status, then the result for the kind of operation |
| NativeCompletion.Operation.ExecuteCallback | src/executor.cc:16-23 | the state becomes the one that the completion entry gives, and the coroutine is resumed once |
| NativeCompletion.ResultIsOwed | src/qp.cc:321-434 | posting, filling and reading an operation gives its post's failure, or what its completion owes: write the view's length, read and atomic the entry's, send 0, receive an immediate exactly when flagged |
| NativeCompletion.SendReturnsLength | src/qp.cc:321-343 | a successful send returns the view's length if and only if it is 0 |
| NativeCompletion.WriteReturnsLength | src/qp.cc:371-379 | a successful write returns the view's length if and only if it is below 2^32 |
| NativeCompletion.CompletionQueue.Poll | src/cq.cc:30-32 | a poll moves a prefix of the queue into the batch, in order, and never nothing when something is ready |
| NativeRuns.StepInv | src/executor.cc:16-23 | every launch, completion, poll and resumption keeps routing exact: a pending completion is that of the operation now at its id, and no id is dangling |
| NativeRuns.EachResumedOnce | src/qp.cc:321-434 | in every run, however often addresses recur, each operation goes on once with its post's failure and is not resumed by the poller, or is resumed once with the result of its own completion if that was processed, and otherwise does not go on at all |
| NativeRuns.OwnEntryOnly | src/executor.cc:16-23 | the state of a resumed operation comes from its own completion alone |
| NativeRuns.ProcessedInOrder | src/executor.cc:55-61 | completions are processed in the order in which they were generated, each once and none left out, in whatever batches, and never for a coroutine that has gone on |
| NativeRuns.OrderIrrelevant | src/executor.cc:55-61 | in any two runs, equal launches with equal completions have equal results, whatever the order, the batches and the other operations |
| NativeRuns.AllResumed | src/cq_poller.cc:31-45 | when everything posted has completed and is processed, every operation ever launched has gone on exactly once and none is suspended |
| NativeRuns.NeverStuck | src/cq_poller.cc:31-45 | until then the poller can go on, or the device has something to complete |
| NativeRuns.AddressesRecur | examples/include/coro_rpc.hpp:149-153 | a receive loop: two receives at one address, each with the length of its own message |
| NativePoller.Poller.Await | src/qp.cc:352-404 | a launch at a free address is a launch step of the runs above; it suspends, or goes on at once with its post's failure |
| NativePoller.Poller.Execute | src/executor.cc:16-23 | the operation at the entry's id is filled and resumed, as a processing step, with the result owed for its launch, and its address is free again |
| NativePoller.Poller.ProcessWc | src/executor.cc:55-61 | exactly the first n entries of the batch array are processed, in order, while every resumed coroutine launches what it likes in between |
| NativePoller.Poller.PollOnce | src/cq_poller.cc:33-39 | one poll, never of nothing when something is ready, and the whole batch that it got |
| NativePoller.Poller.Worker | src/cq_poller.cc:31-45 | any schedule of polls, failures, completions and launches is a run as above, with one poll in each iteration up to the first poll that fails, none after it, and every polled entry processed |
| Serdes.NetworkOrder | include/rdmapp/detail/serdes.h:26-31 | on a host of either byte order the serialized number lies in memory most significant byte first |
| Serdes.HostOrder | include/rdmapp/detail/serdes.h:39-45 | a host of either byte order reads back the number that the bytes spell |
| Serdes.NtohHton | include/rdmapp/detail/serdes.h:14-24 | the two conversions undo each other |
| Bytes.BigDigit | include/rdmapp/detail/serdes.h:26-31 | byte i of a number in network order is its digit of weight 256^(k-1-i) |
| Serdes.Sink.Put | include/rdmapp/detail/serdes.h:26-31 | appends the number's bytes, independent of the host |
| Serdes.Source.Get | include/rdmapp/detail/serdes.h:39-53 | reads the number and advances by its size, independent of the host |
| QpCodec.DecodeEncodeHeader | include/rdmapp/qp.h:60-88 | decoding an encoded header gives it back |
| QpCodec.EncodeDecodeHeader | include/rdmapp/qp.h:60-88 | any 30 bytes decode to a valid header that encodes back to them |
| QpCodec.HeaderOnWire | include/rdmapp/qp.h:60-78 | lid, number, starting number, size of user data and gid lie at offsets 0, 2, 6, 10 and 14 of 30 bytes |
| QpCodec.DecodeEncodeRegion | src/mr.cc:37-44 | decoding an encoded memory region record gives it back |
| QpCodec.EncodeDecodeRegion | include/rdmapp/mr.h:124-125 | any 20 bytes decode to a record that encodes back to them |
| QpCodec.RegionOnWire | src/mr.cc:37-44 | address, length and key lie at offsets 0, 8 and 16 of 20 bytes |
| QpCodec.SerializeRegion | src/mr.cc:37-44 | the code's bytes are the record, on any host |
| QpCodec.DeserializeRegion | include/rdmapp/mr.h:185-191 | reads the record at the front of any longer buffer, on any host |
| QpCodec.SerializeQp | src/qp.cc:71-81 | the code's bytes are header and user data, on any host |
| QpCodec.DeserializeHeader | include/rdmapp/qp.h:80-88 | the code reads the header that the 30 bytes encode, on any host |
| QpCodec.Framing | examples/qp_transmission.cc:24-49 | whatever follows on the stream, a reader gets the fields and the first size-modulo-2^32 bytes of user data |
| QpCodec.RoundTripExactlyIf | examples/qp_transmission.cc:24-49 | a reader gets exactly what was sent and leaves exactly the rest unread if and only if the user data is below 2^32 bytes |
| QpCodec.DecodedIsEncoded | examples/qp_transmission.cc:23-49 | for any bytes: a reader that succeeds has read exactly the message of the queue pair that it returns, with its user data below 2^32 bytes; it fails if and only if the stream begins with no whole message, and then leaves nothing unread |
| QpCodec.CutMessageFails | examples/qp_transmission.cc:23-49 | a stream that ends inside a message, after any number of its bytes, is an error |
| QpCodec.RoundTripAll | examples/qp_transmission.cc:24-49 | several queue pairs sent on one stream are read one after the other |
| QpCodec.Socket.SendQp | examples/qp_transmission.cc:14-21 | appends the wire form to the stream |
| QpCodec.Socket.RecvQp | examples/qp_transmission.cc:23-49 | success exactly when the stream begins with a whole message, which is then the part that was read; an error takes all there was |
| QpCodec.Exchange | examples/qp_transmission.cc:14-49 | between hosts of any two byte orders a queue pair arrives unchanged exactly if its user data is below 2^32 bytes |
| HandshakeInvariant.StepInv | src/qp.cc:83-187 | every step of every connection, failures and broken streams included, keeps the invariant of all connections; what a run says of starting numbers and streams is stated in HandshakeHistory |
| HandshakeInvariant.ReadHeaderOk | examples/qp_transmission.cc:29-32 | a header read from bytes that arrived in any pieces is the one the peer sent |
| HandshakeHistory.NumbersInOrder | src/qp.cc:105 | in every run the k-th queue pair that a process makes, on any of its connections, starts from (1 + k) modulo 2^32 and keeps this number, and the counter has moved by as many as were made |
| HandshakeHistory.EqualNumbers | src/qp.cc:105 | two queue pairs of one process start from one number if and only if a multiple of 2^32 lies between them |
| HandshakeHistory.ArrivedIsDelivered | examples/qp_transmission.cc:23-49 | what has arrived on a stream is what the run delivered, and never more than was written |
| HandshakeHistory.BrokenWrite | examples/qp_transmission.cc:14-21 | a write that breaks after n bytes leaves exactly the first n bytes of the message on the stream, and the queue pair destroyed |
| HandshakeHistory.ToldWhenReady | examples/qp_acceptor.cc:38-43 | a connector tells of its queue pair only once that is in INIT, an acceptor only once its own is in RTS and holds the peer's user data; a connector in RTS holds it too |
| HandshakeSafety.Paired | examples/qp_connector.cc:41-42 | a side past RTR points at its peer's queue pair and expects its starting number, and the peer had reached the point of telling it |
| HandshakeSafety.Agreement | examples/qp_connector.cc:37-48 | a connector in RTS implies its acceptor reached RTS before; each points at the other; both hold one user data, the connector's own if and only if it is below 2^32 bytes |
| HandshakeSafety.PeerIsUnique | examples/qp_acceptor.cc:38-43 | the queue pair a connected side points at is the only existing one on any device with that number and gid |
| HandshakeSafety.NoStateSkipped | src/qp.cc:110-187 | no step of any connection makes a queue pair skip a state or go back, or change its number, its starting sequence number or, except on the way to RTR, its destination |
| HandshakeSafety.LeakedExactlyIf | src/qp.cc:120-128 | a queue pair is left on its device without a holder if and only if one of its transitions failed |
| HandshakeSafety.LeakedForever | src/qp.cc:635-646 | it is then destroyed in no continuation |
| HandshakeSafety.FailedTransitionLeaks | src/qp.cc:110-129 | for every connection a run whose connector's first transition fails, and which leaves the queue pair without a holder in every continuation |
| HandshakeSafety.NeverStuck | examples/qp_acceptor.cc:33-44 | while no side has failed, some side of every unfinished connection can go on |
| HandshakeSafety.RunsAreBounded | examples/qp_connector.cc:32-48 | a run without failures is no longer than the actions and bytes left at its start |
| HandshakeSafety.AllConnectInTheEnd | examples/qp_connector.cc:32-48 | where a run without failures cannot go on, both queue pairs of every connection are in RTS |
| QueuePairs.Process.FetchAdd | src/qp.cc:105 | starting sequence numbers are handed out one by one and wrap at 2^32 |
| QueuePairs.QueuePair.Init | src/qp.cc:110-129 | INIT on success; on failure the handle is gone and the state stays |
| QueuePairs.QueuePair.Rtr | src/qp.cc:131-163 | RTR with the peer's number, starting number, lid and gid; on failure the handle is gone and the state stays |
| QueuePairs.QueuePair.Rts | src/qp.cc:165-187 | RTS on success; on failure the handle is gone and the state stays |
| QueuePairs.QueuePair.Destroy | src/qp.cc:635-658 | the error state and destruction if there is a handle, nothing otherwise |
| QueuePairs.FromSocket | examples/qp_connector.cc:29-49 | succeeds exactly if the device allows everything and a whole queue pair arrives; what it wrote, left unread and returns; the counter of starting numbers moves by one exactly if a queue pair was made; one not returned is destroyed exactly if the stream failed |
| QueuePairs.Accept | examples/qp_acceptor.cc:31-49 | gives a queue pair in RTS exactly if everything succeeds, writes its reply only then, and no byte otherwise; the counter moves by one exactly if a queue pair was made; one not returned is left on the device by a refused transition |
| QueuePairs.DoneAsPromised | examples/qp_connector.cc:29-49 | in every run of all connections, in any interleaving, a side that has done all its actions has the queue pair and has written the bytes that `FromSocket` and `Accept` promise for its peer's message |
| BlockingQueue.Queue.Push | include/rdmapp/detail/blocking_queue.h:19-26 | refused exactly when closed; otherwise appends and wakes one sleeper, any one, if there is one |
| BlockingQueue.Queue.Try | include/rdmapp/detail/blocking_queue.h:27-36 | with the mutex a consumer takes the front item, or throws if closed and empty, or sleeps; it never closes the queue |
| BlockingQueue.Queue.Close | include/rdmapp/detail/blocking_queue.h:37-41 | sets the flag and wakes every sleeper |
| BlockingQueue.StepKeeps | include/rdmapp/detail/blocking_queue.h:19-41 | every critical section and spurious wakeup keeps the invariant and only extends the history |
| BlockingQueue.ClosedExactlyIf | include/rdmapp/detail/blocking_queue.h:37-41 | in every state of every run the queue is closed if and only if close was called before |
| BlockingQueue.FirstInFirstOut | include/rdmapp/detail/blocking_queue.h:19-36 | what pops have returned, followed by what is in the queue, is what was accepted from pushes, in order, in every state of every run |
| BlockingQueue.Consumers | include/rdmapp/detail/blocking_queue.h:19-41 | which consumers sleep and which are woken after each step: an accepted push wakes exactly one sleeper if there is one, close wakes all, a wakeup of one concerns it alone |
| BlockingQueue.NoConsumerForgotten | include/rdmapp/detail/blocking_queue.h:19-36 | in every run: no sleeper or at most as many items as woken consumers, popped items a prefix of accepted ones; nobody sleeps once closed |
| BlockingQueue.RefusedAfterClose | include/rdmapp/detail/blocking_queue.h:19-26 | a push is refused if and only if close was called before it, and after a close the accepted items are final |
| BlockingQueue.PopOutcome | include/rdmapp/detail/blocking_queue.h:27-36 | pop throws if and only if close was called before and every item ever accepted has been delivered; otherwise it delivers the next accepted item, or sleeps when there is none |
| BlockingQueue.CloseDrains | include/rdmapp/detail/blocking_queue.h:37-41 | after a close the woken consumers, in any order, take the front items and none waits any more |

## Left out

- libibverbs, asio, cppcoro and the concurrent queue inside: only the assumptions above. Overflow of a
  completion queue (256 or 512 entries are configured for more work requests) is not modelled.
- Weak memory orders (`memory_order_relaxed` on the flag and the selector), receiver-not-ready retries, shared receive
  queues, the 24-bit cut of sequence numbers by the device, and payload bytes of reads, writes and atomics at the remote host.
- `examples/include/task.hpp` and `future.hpp`, the device, protection domain, shared receive queue and
  completion queue wrappers, logging, text forms of gids, mains, benchmarks and the Python binding.
- `default_handler` past 2^31 requests, where its signed counter goes negative: the handler is a relation.
- `RpcServer::server_worker`: an error on a worker's receive is a step that ends the worker.
- `RpcClientMux` on poller threads: `RpcPoller` has one client, so a call that returns on one client's
  thread and goes on to a call of another client there is not modelled.
- `executor_t::make_callback`: its out-of-memory exception.
- The release of a cancellation handler by asio: a slot, once assigned, keeps the awaitable (and with it the registration).
- `local_mr`: assignment over a registration that is still held, which loses it.
- `basic_qp::create`: queue capacities and completion queues of a queue pair.
- RpcSafety.CallResult: does not say that a call finishes; RpcLiveness.PolledCallsFinish does, under its assumptions.
- RpcRefinement.RunRefines: a call whose reply is lost stays applied and unreturned in the specification, as it stays
  suspended in the code.
- RpcEndpoints.RpcClient.TryDequeue: takes the oldest entry; the concurrent queue promises no order, and the
  transition system allows any free slot.
- RpcLiveness.NeverStuck: says nothing of a bounded number of threads; RpcLiveness.PolledNeverStuck does.
- RpcStarvation.SlotComesExactlyIf: speaks of one thread; for two, RpcStarvation.BlockedForever gives the half that the thread is stuck.
- NativePoller.Poller.Worker: what a resumed coroutine launches comes before the next entry; coroutines that other
  threads run are steps of `NativeRuns` only.
- HandshakeSafety.AllConnectInTheEnd: failures, broken streams and a device without a free number are excluded there.
