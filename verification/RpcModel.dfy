/**
 * The RPC protocol of RpcClient and RpcServer as a transition system.
 *
 * A state holds the calls made so far, the client's and the server's memory, the stage of every
 * receive worker and the two bags of messages under way. A step is one piece of code between two
 * suspension points (or one access to shared memory inside it), or one action of the NIC.
 *
 * Call.token, Call.handled, Call.initial, State.holders and the origin of a message or a stage
 * are history: no guard and no branch reads them.
 */
module RpcModel {
  import opened Bytes
  import opened Memory
  import opened Options
  import RequestId

  type Data = seq<byte>
  type CallId = nat
  type Tag = nat

  const HEADER: nat := 16
  const SEND_MSG: nat := 256
  const RECV_MSG: nat := 4096
  const REQ_REGION: nat := SEND_MSG + HEADER
  const RESP_REGION: nat := RECV_MSG + HEADER

  /**
   * endian: the byte order, the same on both hosts, since headers are copied as they lie in memory.
   * inflight: max_inflight_ of the client. depth: recv_depth_ of the server.
   * handles(p, r): the handler may answer payload p with r.
   */
  datatype Config = Config(endian: Endian, inflight: nat, depth: nat, handles: (Data, Data) -> bool)
  {
    predicate Valid() {
      0 < inflight < TWO_32 && 0 < depth
    }
  }

  /** Where a call of RpcClient::call stands. */
  datatype Phase =
    | Entering      // in the loop that dequeues a slot
    | Dequeued      // slot held
    | Numbered      // request id computed
    | Initialised   // slot fields set
    | Filled        // header and payload in the send region
    | SendPosted    // send work request posted, the NIC has not read the region yet
    | SendSent      // the NIC has read the region and sent the message
    | SendAcked     // the send completion lies in the completion queue
    | SendErred     // an error completion lies in the completion queue
    | SendDone      // resumed from the send, waiter not yet stored
    | Waiting       // waiter stored, suspended
    | Resumed       // resumed from the response wait
    | Returning(n: nat)   // result known, slot still held
    | Finished(n: nat)    // slot returned, result returned

  /** Where the one message exchange of a call stands. */
  datatype Token =
    | Unsent
    | OnRequestWire(tag: Tag)
    | AtServer(worker: nat)
    | OnResponseWire(tag: Tag)
    | AtClient(worker: nat)
    | Spent
    | Lost

  datatype Call = Call(request: Data, initial: Data, buffer: Data, phase: Phase, slot: nat, id: nat,
                       token: Token, handled: seq<Data>)

  /** RpcSlot: user names the call whose response buffer the slot's span points to. */
  datatype Slot = Slot(waiter: Option<CallId>, user: CallId, bufLen: nat, actualLen: nat, expected: nat)

  /** The fields of RpcClient. */
  datatype ClientMem = ClientMem(free: multiset<nat>, nextSeq: nat, slots: seq<Slot>, sendPool: Data, recvPool: Data)

  /** Where a client receive worker stands. */
  datatype Stage =
    | Idle                                   // about to post a receive
    | Posted
    | Completed(nbytes: nat, origin: CallId) // the NIC has written the region; completion in the queue
    | Delivered(nbytes: nat, origin: CallId) // resumed from the receive
    | Matched(slot: nat, origin: CallId)     // header checked
    | Copied(slot: nat, origin: CallId)      // payload copied, spinning on the waiter
    | Loaded(handle: CallId, origin: CallId) // waiter loaded, about to resume it
    | Dead                                   // left its loop after an error

  /** The fields of RpcServer. */
  datatype ServerMem = ServerMem(recvPool: Data, sendPool: Data)

  /** Where a server worker stands. */
  datatype ServerStage =
    | ServerIdle
    | ServerPosted
    | ServerDelivered(nbytes: nat, origin: CallId) // request in the region, worker on the thread pool
    | Ready(n: nat, origin: CallId)                // handler done, reply in the send region
    | ReplyPosted(n: nat, origin: CallId)          // reply posted, the NIC has not read it yet
    | ReplySent                                    // the NIC has read it, no completion yet
    | ServerDead

  datatype Message = Message(data: Data, origin: CallId)

  /** The ways in which the code could leave the protocol. */
  datatype Fault =
    | NoFault
    | ShortResponse    // nbytes < sizeof(RpcHeader) at the client
    | BadSlotIndex     // decoded index >= max_inflight_
    | IdMismatch       // expected_req_id differs: std::terminate
    | CopyOverrun      // copy past the receive region
    | BadResume        // the handle resumed is not suspended on its response
    | ShortRequest     // nbytes < sizeof(RpcHeader) at the server
    | LengthMismatch   // header length differs from the bytes received

  datatype State = State(calls: seq<Call>, holders: seq<Option<CallId>>, client: ClientMem, workers: seq<Stage>,
                         server: ServerMem, serverWorkers: seq<ServerStage>,
                         requests: map<Tag, Message>, responses: map<Tag, Message>, fault: Fault)

  // ---------------------------------------------------------------- bytes of a message

  /** b is a header carrying id and the payload length, followed by the payload; its padding is arbitrary. */
  predicate IsFrame(e: Endian, b: Data, id: nat, payload: Data) {
    && |b| == HEADER + |payload|
    && HeaderId(e, b) == id
    && HeaderLength(e, b) == |payload|
    && b[HEADER..] == payload
  }

  function HeaderId(e: Endian, b: Data): nat
    requires |b| >= HEADER
  {
    FromHost(e, b[..8])
  }

  function HeaderLength(e: Endian, b: Data): nat
    requires |b| >= HEADER
  {
    FromHost(e, b[8..12])
  }

  function Min(a: nat, b: nat): nat {
    if a <= b then a else b
  }

  /** The caller's buffer after the first min(|from|, |buffer|) bytes of from were copied into it. */
  function CopyInto(buffer: Data, from: Data): (r: Data)
    ensures |r| == |buffer|
  {
    var n := Min(|from|, |buffer|);
    from[..n] + buffer[n..]
  }

  // ---------------------------------------------------------------- what the client's code does to its memory

  function TakeSlot(m: ClientMem, slot: nat): ClientMem {
    m.(free := m.free - multiset{slot})
  }

  function TakeNumber(m: ClientMem): ClientMem {
    m.(nextSeq := m.nextSeq + 1)
  }

  function InitSlot(m: ClientMem, slot: nat, user: CallId, bufLen: nat, id: nat): ClientMem
    requires slot < |m.slots|
  {
    m.(slots := m.slots[slot := m.slots[slot].(waiter := None, user := user, bufLen := bufLen, expected := id)])
  }

  /** A header and a payload stored in region i of a pool. */
  function PutFrame(e: Endian, pool: Data, size: nat, i: nat, id: nat, payload: Data): Data {
    var p := Put(pool, size, i, 0, ToHost(e, 8, id));
    var q := Put(p, size, i, 8, ToHost(e, 4, |payload|));
    Put(q, size, i, HEADER, payload)
  }

  function FillRequest(e: Endian, m: ClientMem, slot: nat, id: nat, request: Data): ClientMem {
    m.(sendPool := PutFrame(e, m.sendPool, REQ_REGION, slot, id, request))
  }

  function StoreWaiter(m: ClientMem, slot: nat, handle: CallId): ClientMem
    requires slot < |m.slots|
  {
    m.(slots := m.slots[slot := m.slots[slot].(waiter := Some(handle))])
  }

  function SetActual(m: ClientMem, slot: nat, n: nat): ClientMem
    requires slot < |m.slots|
  {
    m.(slots := m.slots[slot := m.slots[slot].(actualLen := n)])
  }

  function GiveSlot(m: ClientMem, slot: nat): ClientMem {
    m.(free := m.free + multiset{slot})
  }

  datatype Outcome = Failed(fault: Fault) | Match(slot: nat)

  /** What a receive worker decides from the header of the message in its region. */
  function MatchHeader(e: Endian, inflight: nat, m: ClientMem, w: nat, nbytes: nat): Outcome {
    var region := Region(m.recvPool, RESP_REGION, w);
    if nbytes < HEADER || |region| < HEADER then
      Failed(ShortResponse)
    else
      var id := HeaderId(e, region);
      var slot := RequestId.Slot(id);
      if slot >= inflight || slot >= |m.slots| then
        Failed(BadSlotIndex)
      else if m.slots[slot].expected != id then
        Failed(IdMismatch)
      else
        Match(slot)
  }

  /** How many payload bytes a receive worker copies, by the header and the caller's buffer. */
  function CopyLength(e: Endian, m: ClientMem, w: nat, slot: nat): nat
    requires slot < |m.slots|
  {
    var region := Region(m.recvPool, RESP_REGION, w);
    if |region| < HEADER then 0 else Min(HeaderLength(e, region), m.slots[slot].bufLen)
  }

  // ---------------------------------------------------------------- what a server worker does to the server's memory

  /**
   * Handler and header: the handler leaves the bytes reply (its result is the first n of them)
   * in the reply region and the bytes scribble in the payload it was given; the identifier is
   * read from the request header after the handler has returned.
   */
  function HandleRequest(e: Endian, m: ServerMem, w: nat, scribble: Data, reply: Data, n: nat): ServerMem {
    var recv := Put(m.recvPool, REQ_REGION, w, HEADER, scribble);
    var request := Region(recv, REQ_REGION, w);
    var send := Put(m.sendPool, RESP_REGION, w, HEADER, reply);
    var id := if |request| < HEADER then 0 else HeaderId(e, request);
    var send1 := Put(send, RESP_REGION, w, 0, ToHost(e, 8, id));
    ServerMem(recv, Put(send1, RESP_REGION, w, 8, ToHost(e, 4, n)))
  }

  // ---------------------------------------------------------------- steps

  /** Steps of a call of RpcClient::call, and of the NIC on its send. */
  datatype CallerStep =
    | Invoke(request: Data, buffer: Data)
    | Dequeue(c: CallId, slot: nat)
    | Number(c: CallId)
    | Init(c: CallId)
    | Fill(c: CallId)
    | PostSend(c: CallId)
    | PostSendFail(c: CallId)
    | Transmit(c: CallId, tag: Tag)
    | AckSend(c: CallId)
    | ErrSend(c: CallId)
    | DispatchSend(c: CallId)
    | Publish(c: CallId)
    | ReadLength(c: CallId)
    | ReturnSlot(c: CallId)

  /** Steps of a client receive worker, and of the NIC on its receive. */
  datatype ReceiverStep =
    | PostRecv(w: nat)
    | FailRecv(w: nat)
    | Deliver(tag: Tag, w: nat)
    | DispatchRecv(w: nat)
    | MatchStep(w: nat)
    | CopyStep(w: nat)
    | LoadWaiter(w: nat)
    | Resume(w: nat)

  /** Steps of a server worker, and of the NIC on its receive and its send. */
  datatype ServerStep =
    | ServerPostRecv(w: nat)
    | ServerFailRecv(w: nat)
    | ServerDeliver(tag: Tag, w: nat)
    | Handle(w: nat, scribble: Data, reply: Data, n: nat)
    | ServerPostSend(w: nat)
    | ServerPostSendFail(w: nat)
    | ServerTransmit(w: nat, tag: Tag)
    | ServerAckSend(w: nat)
    | ServerErrSend(w: nat)

  datatype Step = Caller(caller: CallerStep) | Receiver(receiver: ReceiverStep) | Server(server: ServerStep)

  predicate InPhase(s: State, c: CallId, phase: Phase) {
    c < |s.calls| && s.calls[c].phase == phase
  }

  predicate InStage(s: State, w: nat, stage: Stage) {
    w < |s.workers| && s.workers[w] == stage
  }

  predicate InServerStage(s: State, w: nat, stage: ServerStage) {
    w < |s.serverWorkers| && s.serverWorkers[w] == stage
  }

  function SetCall(s: State, c: CallId, call: Call): State
    requires c < |s.calls|
  {
    s.(calls := s.calls[c := call])
  }

  function SetPhase(s: State, c: CallId, phase: Phase): State
    requires c < |s.calls|
  {
    SetCall(s, c, s.calls[c].(phase := phase))
  }

  function SetToken(s: State, c: CallId, token: Token): State {
    if c < |s.calls| then SetCall(s, c, s.calls[c].(token := token)) else s
  }

  function SetHolder(s: State, slot: nat, holder: Option<CallId>): State {
    if slot < |s.holders| then s.(holders := s.holders[slot := holder]) else s
  }

  function SetStage(s: State, w: nat, stage: Stage): State
    requires w < |s.workers|
  {
    s.(workers := s.workers[w := stage])
  }

  function SetServerStage(s: State, w: nat, stage: ServerStage): State
    requires w < |s.serverWorkers|
  {
    s.(serverWorkers := s.serverWorkers[w := stage])
  }

  // The guards.

  predicate CallerEnabled(s: State, step: CallerStep) {
    match step
    case Invoke(request, _) => |request| <= SEND_MSG
    case Dequeue(c, slot) => InPhase(s, c, Entering) && slot in s.client.free
    case Number(c) => InPhase(s, c, Dequeued) && s.calls[c].slot < TWO_32
    case Init(c) => InPhase(s, c, Numbered) && s.calls[c].slot < |s.client.slots|
    case Fill(c) => InPhase(s, c, Initialised)
    case PostSend(c) => InPhase(s, c, Filled)
    case PostSendFail(c) => InPhase(s, c, Filled)
    case Transmit(c, tag) => InPhase(s, c, SendPosted) && tag !in s.requests
    case AckSend(c) => InPhase(s, c, SendSent)
    case ErrSend(c) => InPhase(s, c, SendPosted)
    case DispatchSend(c) => InPhase(s, c, SendAcked) || InPhase(s, c, SendErred)
    case Publish(c) => InPhase(s, c, SendDone) && s.calls[c].slot < |s.client.slots|
    case ReadLength(c) => InPhase(s, c, Resumed) && s.calls[c].slot < |s.client.slots|
    case ReturnSlot(c) => c < |s.calls| && s.calls[c].phase.Returning?
  }

  predicate ReceiverEnabled(s: State, step: ReceiverStep) {
    match step
    case PostRecv(w) => InStage(s, w, Idle)
    case FailRecv(w) => InStage(s, w, Idle) || InStage(s, w, Posted)
    case Deliver(tag, w) => tag in s.responses && InStage(s, w, Posted) && |s.responses[tag].data| <= RESP_REGION
    case DispatchRecv(w) => w < |s.workers| && s.workers[w].Completed?
    case MatchStep(w) => w < |s.workers| && s.workers[w].Delivered?
    case CopyStep(w) => w < |s.workers| && s.workers[w].Matched? && s.workers[w].slot < |s.client.slots|
    case LoadWaiter(w) =>
      && w < |s.workers| && s.workers[w].Copied? && s.workers[w].slot < |s.client.slots|
      && s.client.slots[s.workers[w].slot].waiter.Some?
    case Resume(w) => w < |s.workers| && s.workers[w].Loaded?
  }

  predicate ServerEnabled(cfg: Config, s: State, step: ServerStep) {
    match step
    case ServerPostRecv(w) => InServerStage(s, w, ServerIdle)
    case ServerFailRecv(w) => InServerStage(s, w, ServerIdle) || InServerStage(s, w, ServerPosted)
    case ServerDeliver(tag, w) =>
      tag in s.requests && InServerStage(s, w, ServerPosted) && |s.requests[tag].data| <= REQ_REGION
    case Handle(w, scribble, reply, n) =>
      && w < |s.serverWorkers| && s.serverWorkers[w].ServerDelivered?
      && var payload := RequestPayload(s, w);
         && |scribble| == |payload| && |reply| == RECV_MSG && 0 < n <= RECV_MSG
         && cfg.handles(payload, reply[..n])
    case ServerPostSend(w) => w < |s.serverWorkers| && s.serverWorkers[w].Ready?
    case ServerPostSendFail(w) => w < |s.serverWorkers| && s.serverWorkers[w].Ready?
    case ServerTransmit(w, tag) => w < |s.serverWorkers| && s.serverWorkers[w].ReplyPosted? && tag !in s.responses
    case ServerAckSend(w) => InServerStage(s, w, ReplySent)
    case ServerErrSend(w) => w < |s.serverWorkers| && s.serverWorkers[w].ReplyPosted?
  }

  predicate Enabled(cfg: Config, s: State, step: Step) {
    && s.fault == NoFault
    && match step
       case Caller(caller) => CallerEnabled(s, caller)
       case Receiver(receiver) => ReceiverEnabled(s, receiver)
       case Server(server) => ServerEnabled(cfg, s, server)
  }

  /** The payload a server worker hands to the handler. */
  function RequestPayload(s: State, w: nat): Data
    requires w < |s.serverWorkers| && s.serverWorkers[w].ServerDelivered?
  {
    var region := Region(s.server.recvPool, REQ_REGION, w);
    var nbytes := s.serverWorkers[w].nbytes;
    if HEADER <= nbytes <= |region| then region[HEADER..nbytes] else []
  }

  function DoInvoke(s: State, request: Data, buffer: Data): State {
    s.(calls := s.calls + [Call(request, buffer, buffer, Entering, 0, 0, Unsent, [])])
  }

  function DoDequeue(s: State, c: CallId, slot: nat): State
    requires c < |s.calls|
  {
    SetHolder(SetCall(s, c, s.calls[c].(phase := Dequeued, slot := slot)), slot, Some(c))
    .(client := TakeSlot(s.client, slot))
  }

  function DoNumber(s: State, c: CallId): State
    requires c < |s.calls| && s.calls[c].slot < TWO_32
  {
    var id := RequestId.Encode(s.client.nextSeq, s.calls[c].slot);
    SetCall(s, c, s.calls[c].(phase := Numbered, id := id)).(client := TakeNumber(s.client))
  }

  function DoInit(s: State, c: CallId): State
    requires c < |s.calls| && s.calls[c].slot < |s.client.slots|
  {
    var call := s.calls[c];
    SetPhase(s, c, Initialised).(client := InitSlot(s.client, call.slot, c, |call.buffer|, call.id))
  }

  function DoFill(e: Endian, s: State, c: CallId): State
    requires c < |s.calls|
  {
    var call := s.calls[c];
    SetPhase(s, c, Filled).(client := FillRequest(e, s.client, call.slot, call.id, call.request))
  }

  /** The NIC reads the send region as it is now. */
  function DoTransmit(s: State, c: CallId, tag: Tag): State
    requires c < |s.calls|
  {
    var call := s.calls[c];
    var region := Region(s.client.sendPool, REQ_REGION, call.slot);
    var data := region[..Min(HEADER + |call.request|, |region|)];
    SetCall(s, c, call.(phase := SendSent, token := OnRequestWire(tag)))
    .(requests := s.requests[tag := Message(data, c)])
  }

  function DoDispatchSend(s: State, c: CallId): State
    requires c < |s.calls|
  {
    SetPhase(s, c, if s.calls[c].phase == SendErred then Returning(0) else SendDone)
  }

  function DoPublish(s: State, c: CallId): State
    requires c < |s.calls| && s.calls[c].slot < |s.client.slots|
  {
    SetPhase(s, c, Waiting).(client := StoreWaiter(s.client, s.calls[c].slot, c))
  }

  function DoReturnSlot(s: State, c: CallId): State
    requires c < |s.calls| && s.calls[c].phase.Returning?
  {
    var call := s.calls[c];
    SetHolder(SetPhase(s, c, Finished(call.phase.n)), call.slot, None)
    .(client := GiveSlot(s.client, call.slot))
  }

  /** The NIC writes the message into the posted region and completes the receive. */
  function DoDeliver(s: State, tag: Tag, w: nat): State
    requires tag in s.responses && w < |s.workers|
  {
    var m := s.responses[tag];
    SetToken(SetStage(s, w, Completed(|m.data|, m.origin)), m.origin, AtClient(w))
    .(client := s.client.(recvPool := Put(s.client.recvPool, RESP_REGION, w, 0, m.data)),
      responses := s.responses - {tag})
  }

  function DoMatch(cfg: Config, s: State, w: nat): State
    requires w < |s.workers| && s.workers[w].Delivered?
  {
    var stage := s.workers[w];
    match MatchHeader(cfg.endian, cfg.inflight, s.client, w, stage.nbytes)
    case Failed(fault) => s.(fault := fault)
    case Match(slot) => SetStage(s, w, Matched(slot, stage.origin))
  }

  function DoCopy(cfg: Config, s: State, w: nat): State
    requires w < |s.workers| && s.workers[w].Matched? && s.workers[w].slot < |s.client.slots|
  {
    var stage := s.workers[w];
    var region := Region(s.client.recvPool, RESP_REGION, w);
    var n := CopyLength(cfg.endian, s.client, w, stage.slot);
    var user := s.client.slots[stage.slot].user;
    if HEADER + n > |region| || user >= |s.calls| || n > |s.calls[user].buffer| then
      s.(fault := CopyOverrun)
    else
      var call := s.calls[user];
      SetCall(SetStage(s, w, Copied(stage.slot, stage.origin)), user,
              call.(buffer := region[HEADER..HEADER + n] + call.buffer[n..]))
      .(client := SetActual(s.client, stage.slot, n))
  }

  function DoLoadWaiter(s: State, w: nat): State
    requires w < |s.workers| && s.workers[w].Copied? && s.workers[w].slot < |s.client.slots|
    requires s.client.slots[s.workers[w].slot].waiter.Some?
  {
    var stage := s.workers[w];
    SetStage(s, w, Loaded(s.client.slots[stage.slot].waiter.value, stage.origin))
  }

  /** Resuming a handle that is not suspended on its response is an error of the program. */
  function DoResume(s: State, w: nat): State
    requires w < |s.workers| && s.workers[w].Loaded?
  {
    var h := s.workers[w].handle;
    if h >= |s.calls| || s.calls[h].phase != Waiting then
      s.(fault := BadResume)
    else
      SetCall(SetStage(s, w, Idle), h, s.calls[h].(phase := Resumed, token := Spent))
  }

  function DoServerDeliver(s: State, tag: Tag, w: nat): State
    requires tag in s.requests && w < |s.serverWorkers|
  {
    var m := s.requests[tag];
    SetToken(SetServerStage(s, w, ServerDelivered(|m.data|, m.origin)), m.origin, AtServer(w))
    .(server := s.server.(recvPool := Put(s.server.recvPool, REQ_REGION, w, 0, m.data)),
      requests := s.requests - {tag})
  }

  function DoHandle(cfg: Config, s: State, w: nat, scribble: Data, reply: Data, n: nat): State
    requires w < |s.serverWorkers| && s.serverWorkers[w].ServerDelivered? && n <= |reply|
  {
    var stage := s.serverWorkers[w];
    var region := Region(s.server.recvPool, REQ_REGION, w);
    if stage.nbytes < HEADER || |region| < HEADER then
      s.(fault := ShortRequest)
    else if HeaderLength(cfg.endian, region) + HEADER != stage.nbytes then
      s.(fault := LengthMismatch)
    else
      var s1 := SetServerStage(s, w, Ready(n, stage.origin))
                .(server := HandleRequest(cfg.endian, s.server, w, scribble, reply, n));
      if stage.origin < |s.calls| then
        var call := s.calls[stage.origin];
        SetCall(s1, stage.origin, call.(handled := call.handled + [reply[..n]]))
      else
        s1
  }

  function DoServerTransmit(s: State, w: nat, tag: Tag): State
    requires w < |s.serverWorkers| && s.serverWorkers[w].ReplyPosted?
  {
    var stage := s.serverWorkers[w];
    var region := Region(s.server.sendPool, RESP_REGION, w);
    var data := region[..Min(HEADER + stage.n, |region|)];
    SetToken(SetServerStage(s, w, ReplySent), stage.origin, OnResponseWire(tag))
    .(responses := s.responses[tag := Message(data, stage.origin)])
  }

  // The state after a step.

  function ApplyCaller(cfg: Config, s: State, step: CallerStep): State
    requires CallerEnabled(s, step)
  {
    match step
    case Invoke(request, buffer) => DoInvoke(s, request, buffer)
    case Dequeue(c, slot) => DoDequeue(s, c, slot)
    case Number(c) => DoNumber(s, c)
    case Init(c) => DoInit(s, c)
    case Fill(c) => DoFill(cfg.endian, s, c)
    case PostSend(c) => SetPhase(s, c, SendPosted)
    case PostSendFail(c) => SetPhase(s, c, Returning(0))
    case Transmit(c, tag) => DoTransmit(s, c, tag)
    case AckSend(c) => SetPhase(s, c, SendAcked)
    case ErrSend(c) => SetPhase(s, c, SendErred)
    case DispatchSend(c) => DoDispatchSend(s, c)
    case Publish(c) => DoPublish(s, c)
    case ReadLength(c) => SetPhase(s, c, Returning(s.client.slots[s.calls[c].slot].actualLen))
    case ReturnSlot(c) => DoReturnSlot(s, c)
  }

  function ApplyReceiver(cfg: Config, s: State, step: ReceiverStep): State
    requires ReceiverEnabled(s, step)
  {
    match step
    case PostRecv(w) => SetStage(s, w, Posted)
    case FailRecv(w) => SetStage(s, w, Dead)
    case Deliver(tag, w) => DoDeliver(s, tag, w)
    case DispatchRecv(w) => SetStage(s, w, Delivered(s.workers[w].nbytes, s.workers[w].origin))
    case MatchStep(w) => DoMatch(cfg, s, w)
    case CopyStep(w) => DoCopy(cfg, s, w)
    case LoadWaiter(w) => DoLoadWaiter(s, w)
    case Resume(w) => DoResume(s, w)
  }

  function ApplyServer(cfg: Config, s: State, step: ServerStep): State
    requires ServerEnabled(cfg, s, step)
  {
    match step
    case ServerPostRecv(w) => SetServerStage(s, w, ServerPosted)
    case ServerFailRecv(w) => SetServerStage(s, w, ServerDead)
    case ServerDeliver(tag, w) => DoServerDeliver(s, tag, w)
    case Handle(w, scribble, reply, n) => DoHandle(cfg, s, w, scribble, reply, n)
    case ServerPostSend(w) => SetServerStage(s, w, ReplyPosted(s.serverWorkers[w].n, s.serverWorkers[w].origin))
    case ServerPostSendFail(w) => SetToken(SetServerStage(s, w, ServerIdle), s.serverWorkers[w].origin, Lost)
    case ServerTransmit(w, tag) => DoServerTransmit(s, w, tag)
    case ServerAckSend(w) => SetServerStage(s, w, ServerIdle)
    case ServerErrSend(w) => SetToken(SetServerStage(s, w, ServerIdle), s.serverWorkers[w].origin, Lost)
  }

  function Apply(cfg: Config, s: State, step: Step): State
    requires Enabled(cfg, s, step)
  {
    match step
    case Caller(caller) => ApplyCaller(cfg, s, caller)
    case Receiver(receiver) => ApplyReceiver(cfg, s, receiver)
    case Server(server) => ApplyServer(cfg, s, server)
  }

  /** The constructors have run; no worker has posted a receive and no call was made. */
  predicate Initial(cfg: Config, s: State) {
    && s.calls == []
    && s.fault == NoFault
    && s.client.free == multiset(seq(cfg.inflight, i => i))
    && |s.client.slots| == cfg.inflight
    && s.holders == seq(cfg.inflight, _ => None)
    && s.workers == seq(cfg.inflight, _ => Idle)
    && s.serverWorkers == seq(cfg.depth, _ => ServerIdle)
    && |s.client.sendPool| == cfg.inflight * REQ_REGION
    && |s.client.recvPool| == cfg.inflight * RESP_REGION
    && |s.server.recvPool| == cfg.depth * REQ_REGION
    && |s.server.sendPool| == cfg.depth * RESP_REGION
    && s.requests == map[]
    && s.responses == map[]
  }

  /** From s, the steps of run can be taken in order and lead to t. */
  predicate Run(cfg: Config, s: State, run: seq<Step>, t: State)
    decreases |run|
  {
    if run == [] then
      s == t
    else
      Enabled(cfg, s, run[0]) && Run(cfg, Apply(cfg, s, run[0]), run[1..], t)
  }

  /** t is reachable: some run leads from an initial state to it. */
  ghost predicate Reachable(cfg: Config, t: State) {
    exists s, run :: Initial(cfg, s) && Run(cfg, s, run, t)
  }
}
