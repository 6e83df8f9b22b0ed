/** The invariant of the RPC protocol. */
module RpcInvariant {
  import opened Bytes
  import opened Memory
  import opened Options
  import opened RpcModel
  import RequestId

  // ---------------------------------------------------------------- the invariant, object by object

  /** The call has a slot. */
  predicate Holds(phase: Phase) {
    !phase.Entering? && !phase.Finished?
  }

  /** The slot's fields were set for the call. */
  predicate OwnsSlotFields(phase: Phase) {
    Holds(phase) && !phase.Dequeued? && !phase.Numbered?
  }

  /** The request message has left and the response was not handed over yet. */
  predicate Exchanging(phase: Phase) {
    phase.SendSent? || phase.SendAcked? || phase.SendDone? || phase.Waiting?
  }

  predicate UnderWay(token: Token) {
    !token.Unsent? && !token.Spent?
  }

  /** The handler produced exactly one answer, for this call's own request. */
  predicate Answered(cfg: Config, call: Call) {
    && |call.handled| == 1
    && 0 < |call.handled[0]| <= RECV_MSG
    && cfg.handles(call.request, call.handled[0])
  }

  /** What history says about the answer and the caller's buffer. */
  predicate HistoryInv(cfg: Config, call: Call) {
    && |call.request| <= SEND_MSG
    && |call.buffer| == |call.initial|
    && (call.handled == [] || Answered(cfg, call))
    && (call.token.Unsent? || call.token.OnRequestWire? ==> call.handled == [])
    && (call.token.OnResponseWire? || call.token.AtClient? || call.token.Spent? ==> Answered(cfg, call))
    && (!call.token.AtClient? && !call.token.Spent? ==> call.buffer == call.initial)
    && (call.token.Spent? ==> call.buffer == CopyInto(call.initial, call.handled[0]))
  }

  predicate PhaseInv(cfg: Config, call: Call) {
    && (Exchanging(call.phase) <==> UnderWay(call.token))
    && (call.phase.Resumed? ==> call.token.Spent?)
    && (call.token.Spent? ==> call.phase.Resumed? || call.phase.Returning? || call.phase.Finished?)
    && (call.phase.Returning? ==> ReturnInv(cfg, call, call.phase.n))
    && (call.phase.Finished? ==> ReturnInv(cfg, call, call.phase.n))
  }

  predicate ReturnInv(cfg: Config, call: Call, n: nat) {
    if call.token.Spent? then
      Answered(cfg, call) && n == Min(|call.handled[0]|, |call.initial|)
    else
      call.token.Unsent? && n == 0
  }

  /** The call's slot: held by it alone, its fields as the call set them. */
  predicate FieldsOk(inflight: nat, call: Call, c: CallId, holders: seq<Option<CallId>>, slots: seq<Slot>)
    requires |slots| == |holders| == inflight
  {
    && (Holds(call.phase) ==> call.slot < inflight && holders[call.slot] == Some(c))
    && (Holds(call.phase) && !call.phase.Dequeued? ==> call.id < TWO_64 && RequestId.Slot(call.id) == call.slot)
    && (OwnsSlotFields(call.phase) ==> SlotOk(call, c, slots[call.slot]))
  }

  predicate SlotOk(call: Call, c: CallId, slot: Slot) {
    && slot.user == c && slot.bufLen == |call.buffer| && slot.expected == call.id
    && (call.phase.Waiting? ==> slot.waiter == Some(c))
    && (call.phase.Resumed? && |call.handled| == 1 ==> slot.actualLen == Min(|call.handled[0]|, |call.initial|))
    && (!call.phase.Waiting? && !call.phase.Resumed? && !call.phase.Returning? ==> slot.waiter == None)
  }

  /** While the NIC may still read it, the send region holds the call's own request. */
  predicate SendRegionOk(e: Endian, call: Call, pool: Data) {
    call.phase.Filled? || call.phase.SendPosted? || call.phase.SendSent? ==>
      && HEADER + |call.request| <= |Region(pool, REQ_REGION, call.slot)|
      && IsFrame(e, Region(pool, REQ_REGION, call.slot)[..HEADER + |call.request|], call.id, call.request)
  }

  function ServerOrigin(stage: ServerStage): Option<CallId> {
    match stage
    case ServerDelivered(_, origin) => Some(origin)
    case Ready(_, origin) => Some(origin)
    case ReplyPosted(_, origin) => Some(origin)
    case _ => None
  }

  function ClientOrigin(stage: Stage): Option<CallId> {
    match stage
    case Completed(_, origin) => Some(origin)
    case Delivered(_, origin) => Some(origin)
    case Matched(_, origin) => Some(origin)
    case Copied(_, origin) => Some(origin)
    case Loaded(_, origin) => Some(origin)
    case _ => None
  }

  /** A call's token is where history says. */
  predicate TokenOk(token: Token, c: CallId, requests: map<Tag, Message>, responses: map<Tag, Message>,
                    serverWorkers: seq<ServerStage>, workers: seq<Stage>) {
    match token
    case OnRequestWire(tag) => tag in requests && requests[tag].origin == c
    case AtServer(w) => w < |serverWorkers| && ServerOrigin(serverWorkers[w]) == Some(c)
    case OnResponseWire(tag) => tag in responses && responses[tag].origin == c
    case AtClient(w) => w < |workers| && ClientOrigin(workers[w]) == Some(c)
    case _ => true
  }

  /** A slot is either once in the free queue or held by exactly the call that history names. */
  predicate HolderOk(calls: seq<Call>, x: nat, holder: Option<CallId>, count: nat) {
    match holder
    case None => count == 1
    case Some(c) => count == 0 && c < |calls| && calls[c].slot == x && Holds(calls[c].phase)
  }

  predicate RequestOk(e: Endian, calls: seq<Call>, tag: Tag, m: Message) {
    && m.origin < |calls|
    && calls[m.origin].token == OnRequestWire(tag)
    && IsFrame(e, m.data, calls[m.origin].id, calls[m.origin].request)
  }

  predicate ResponseOk(cfg: Config, calls: seq<Call>, tag: Tag, m: Message) {
    && m.origin < |calls|
    && calls[m.origin].token == OnResponseWire(tag)
    && Answered(cfg, calls[m.origin])
    && IsFrame(cfg.endian, m.data, calls[m.origin].id, calls[m.origin].handled[0])
  }

  /** A server worker and its two regions carry the frames of the call it works for. */
  predicate ServerWorkerOk(cfg: Config, calls: seq<Call>, m: ServerMem, w: nat, stage: ServerStage) {
    match stage
    case ServerDelivered(nbytes, c) =>
      && c < |calls| && calls[c].token == AtServer(w) && calls[c].handled == []
      && nbytes <= |Region(m.recvPool, REQ_REGION, w)|
      && IsFrame(cfg.endian, Region(m.recvPool, REQ_REGION, w)[..nbytes], calls[c].id, calls[c].request)
    case Ready(n, c) => ReplyOk(cfg, calls, m, w, n, c)
    case ReplyPosted(n, c) => ReplyOk(cfg, calls, m, w, n, c)
    case _ => true
  }

  predicate ReplyOk(cfg: Config, calls: seq<Call>, m: ServerMem, w: nat, n: nat, c: CallId) {
    && c < |calls| && calls[c].token == AtServer(w) && Answered(cfg, calls[c]) && |calls[c].handled[0]| == n
    && HEADER + n <= |Region(m.sendPool, RESP_REGION, w)|
    && IsFrame(cfg.endian, Region(m.sendPool, RESP_REGION, w)[..HEADER + n], calls[c].id, calls[c].handled[0])
  }

  /** A client worker's region carries the answer of its call until the call is resumed. */
  predicate WorkerOk(cfg: Config, calls: seq<Call>, slots: seq<Slot>, pool: Data, w: nat, stage: Stage) {
    match stage
    case Completed(nbytes, c) => AtWorker(cfg, calls, pool, w, c) && NotCopied(calls[c])
      && nbytes == AnswerLength(calls[c])
    case Delivered(nbytes, c) => AtWorker(cfg, calls, pool, w, c) && NotCopied(calls[c])
      && nbytes == AnswerLength(calls[c])
    case Matched(slot, c) => AtWorker(cfg, calls, pool, w, c) && NotCopied(calls[c]) && slot == calls[c].slot
    case Copied(slot, c) => AtWorker(cfg, calls, pool, w, c) && slot == calls[c].slot && CopiedOk(calls[c], slots)
    case Loaded(handle, c) =>
      AtWorker(cfg, calls, pool, w, c) && handle == c && calls[c].phase.Waiting? && CopiedOk(calls[c], slots)
    case _ => true
  }

  predicate AtWorker(cfg: Config, calls: seq<Call>, pool: Data, w: nat, c: CallId) {
    && c < |calls| && calls[c].token == AtClient(w) && Answered(cfg, calls[c])
    && AnswerLength(calls[c]) <= |Region(pool, RESP_REGION, w)|
    && IsFrame(cfg.endian, Region(pool, RESP_REGION, w)[..AnswerLength(calls[c])], calls[c].id, calls[c].handled[0])
  }

  function AnswerLength(call: Call): nat
    requires |call.handled| == 1
  {
    HEADER + |call.handled[0]|
  }

  predicate NotCopied(call: Call) {
    call.buffer == call.initial
  }

  predicate CopiedOk(call: Call, slots: seq<Slot>)
    requires |call.handled| == 1
  {
    && call.buffer == CopyInto(call.initial, call.handled[0])
    && call.slot < |slots|
    && slots[call.slot].actualLen == Min(|call.handled[0]|, |call.initial|)
  }

  // ---------------------------------------------------------------- the invariant, family by family

  predicate Shape(cfg: Config, s: State) {
    && cfg.Valid()
    && s.fault == NoFault
    && |s.client.slots| == |s.holders| == |s.workers| == cfg.inflight
    && |s.serverWorkers| == cfg.depth
    && |s.client.sendPool| == cfg.inflight * REQ_REGION
    && |s.client.recvPool| == cfg.inflight * RESP_REGION
    && |s.server.recvPool| == cfg.depth * REQ_REGION
    && |s.server.sendPool| == cfg.depth * RESP_REGION
  }

  predicate CallsInv(cfg: Config, calls: seq<Call>) {
    forall c: CallId :: c < |calls| ==> HistoryInv(cfg, calls[c]) && PhaseInv(cfg, calls[c])
  }

  predicate FieldsInv(inflight: nat, calls: seq<Call>, holders: seq<Option<CallId>>, slots: seq<Slot>)
    requires |slots| == |holders| == inflight
  {
    forall c: CallId :: c < |calls| ==> FieldsOk(inflight, calls[c], c, holders, slots)
  }

  predicate SendRegionsInv(e: Endian, calls: seq<Call>, pool: Data) {
    forall c: CallId :: c < |calls| ==> SendRegionOk(e, calls[c], pool)
  }

  predicate TokensInv(calls: seq<Call>, requests: map<Tag, Message>, responses: map<Tag, Message>,
                      serverWorkers: seq<ServerStage>, workers: seq<Stage>) {
    forall c: CallId :: c < |calls| ==> TokenOk(calls[c].token, c, requests, responses, serverWorkers, workers)
  }

  ghost predicate SlotsInv(calls: seq<Call>, holders: seq<Option<CallId>>, free: multiset<nat>) {
    && (forall x: nat :: x < |holders| ==> HolderOk(calls, x, holders[x], free[x]))
    && (forall x :: x in free ==> x < |holders|)
  }

  predicate RequestsInv(e: Endian, calls: seq<Call>, requests: map<Tag, Message>) {
    forall tag :: tag in requests ==> RequestOk(e, calls, tag, requests[tag])
  }

  predicate ResponsesInv(cfg: Config, calls: seq<Call>, responses: map<Tag, Message>) {
    forall tag :: tag in responses ==> ResponseOk(cfg, calls, tag, responses[tag])
  }

  predicate ServerInv(cfg: Config, calls: seq<Call>, m: ServerMem, stages: seq<ServerStage>) {
    forall w: nat :: w < |stages| ==> ServerWorkerOk(cfg, calls, m, w, stages[w])
  }

  predicate WorkersInv(cfg: Config, calls: seq<Call>, slots: seq<Slot>, pool: Data, stages: seq<Stage>) {
    forall w: nat :: w < |stages| ==> WorkerOk(cfg, calls, slots, pool, w, stages[w])
  }

  ghost predicate Inv(cfg: Config, s: State) {
    && Shape(cfg, s)
    && CallsInv(cfg, s.calls)
    && FieldsInv(cfg.inflight, s.calls, s.holders, s.client.slots)
    && SendRegionsInv(cfg.endian, s.calls, s.client.sendPool)
    && TokensInv(s.calls, s.requests, s.responses, s.serverWorkers, s.workers)
    && SlotsInv(s.calls, s.holders, s.client.free)
    && RequestsInv(cfg.endian, s.calls, s.requests)
    && ResponsesInv(cfg, s.calls, s.responses)
    && ServerInv(cfg, s.calls, s.server, s.serverWorkers)
    && WorkersInv(cfg, s.calls, s.client.slots, s.client.recvPool, s.workers)
  }

  lemma InitialInv(cfg: Config, s: State)
    requires cfg.Valid() && Initial(cfg, s)
    ensures Inv(cfg, s)
  {
    forall x: nat
      ensures s.client.free[x] == if x < cfg.inflight then 1 else 0
    {
      UpToOnce(cfg.inflight, x);
    }
  }

  lemma {:induction false} UpToOnce(n: nat, x: nat)
    ensures multiset(seq(n, i => i))[x] == if x < n then 1 else 0
  {
    if n > 0 {
      UpToOnce(n - 1, x);
      assert seq(n, i => i) == seq(n - 1, i => i) + [n - 1];
    }
  }
}
