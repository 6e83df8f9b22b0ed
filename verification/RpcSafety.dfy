/** What holds in every reachable state of the RPC protocol. */
module RpcSafety {
  import opened Bytes
  import opened Memory
  import opened Options
  import opened RpcModel
  import opened RpcInvariant
  import opened RpcPreservation
  import RequestId

  /**
   * No run leaves the protocol: messages are never too short, indices never out of range, ids never
   * mismatch, copies never overrun, and only handles suspended on their response are resumed.
   */
  lemma NeverFaults(cfg: Config, s: State)
    requires cfg.Valid() && Reachable(cfg, s)
    ensures s.fault == NoFault
  {
    ReachableInv(cfg, s);
  }

  // ---------------------------------------------------------------- matching

  /**
   * The header check, on the bytes: a message is matched with a slot exactly if it holds a header, the low
   * half of the id in it is the slot's index, there is such a slot, and that slot expects this very id.
   */
  lemma MatchedExactlyIf(e: Endian, inflight: nat, m: ClientMem, w: nat, nbytes: nat, slot: nat)
    ensures var region := Region(m.recvPool, RESP_REGION, w);
            MatchHeader(e, inflight, m, w, nbytes) == Match(slot) <==>
              && nbytes >= 16 && |region| >= 16
              && slot == FromHost(e, region[0..8]) % TWO_32 && slot < inflight && slot < |m.slots|
              && m.slots[slot].expected == FromHost(e, region[0..8])
    ensures MatchHeader(e, inflight, m, w, nbytes) == Outcome.Failed(ShortResponse) <==>
              nbytes < 16 || |Region(m.recvPool, RESP_REGION, w)| < 16
    ensures var region := Region(m.recvPool, RESP_REGION, w);
            MatchHeader(e, inflight, m, w, nbytes) == Outcome.Failed(IdMismatch) <==>
              && nbytes >= 16 && |region| >= 16
              && var id := FromHost(e, region[0..8]);
                 id % TWO_32 < inflight && id % TWO_32 < |m.slots| && m.slots[id % TWO_32].expected != id
  {
    var region := Region(m.recvPool, RESP_REGION, w);
    if |region| >= 16 {
      assert region[0..8] == region[..8];
    }
  }

  /** The places where a request or a response can be before its call is resumed. */
  datatype Carrier = RequestWire(tag: Tag) | ServerSide(w: nat) | ResponseWire(tag: Tag) | ClientSide(w: nat)

  predicate Present(s: State, x: Carrier) {
    match x
    case RequestWire(tag) => tag in s.requests
    case ServerSide(w) => w < |s.serverWorkers| && ServerOrigin(s.serverWorkers[w]).Some?
    case ResponseWire(tag) => tag in s.responses
    case ClientSide(w) => w < |s.workers| && ClientOrigin(s.workers[w]).Some?
  }

  /** The bytes that carry it: the message, or the region that the worker reads or sends. */
  function CarriedBytes(s: State, x: Carrier): Data
    requires Present(s, x)
  {
    match x
    case RequestWire(tag) => s.requests[tag].data
    case ServerSide(w) =>
      if s.serverWorkers[w].ServerDelivered? then Region(s.server.recvPool, REQ_REGION, w)
      else Region(s.server.sendPool, RESP_REGION, w)
    case ResponseWire(tag) => s.responses[tag].data
    case ClientSide(w) => Region(s.client.recvPool, RESP_REGION, w)
  }

  function CarriedId(cfg: Config, s: State, x: Carrier): nat
    requires Present(s, x)
  {
    var b := CarriedBytes(s, x);
    if |b| < HEADER then 0 else HeaderId(cfg.endian, b)
  }

  function CarrierOrigin(s: State, x: Carrier): CallId
    requires Present(s, x)
  {
    match x
    case RequestWire(tag) => s.requests[tag].origin
    case ServerSide(w) => ServerOrigin(s.serverWorkers[w]).value
    case ResponseWire(tag) => s.responses[tag].origin
    case ClientSide(w) => ClientOrigin(s.workers[w]).value
  }

  function CarrierToken(x: Carrier): Token {
    match x
    case RequestWire(tag) => OnRequestWire(tag)
    case ServerSide(w) => AtServer(w)
    case ResponseWire(tag) => OnResponseWire(tag)
    case ClientSide(w) => AtClient(w)
  }

  lemma CarrierFacts(cfg: Config, s: State, x: Carrier)
    requires Inv(cfg, s) && Present(s, x)
    ensures var c := CarrierOrigin(s, x);
            c < |s.calls| && s.calls[c].token == CarrierToken(x) && CarriedId(cfg, s, x) == s.calls[c].id
  {
    hide CallsInv, FieldsInv, SendRegionsInv, TokensInv, SlotsInv, RequestsInv, ResponsesInv, ServerInv, WorkersInv;
    hide Region;
    match x
    case RequestWire(tag) => RequestAt(cfg, s, tag);
    case ServerSide(w) =>
      ServerWorkerAt(cfg, s, w);
      var c := CarrierOrigin(s, x);
      var b := CarriedBytes(s, x);
      match s.serverWorkers[w] {
        case ServerDelivered(nbytes, _) => RegionFrame(cfg.endian, b, nbytes, s.calls[c].id, s.calls[c].request);
        case Ready(n, _) => RegionFrame(cfg.endian, b, HEADER + n, s.calls[c].id, s.calls[c].handled[0]);
        case ReplyPosted(n, _) => RegionFrame(cfg.endian, b, HEADER + n, s.calls[c].id, s.calls[c].handled[0]);
        case _ =>
      }
    case ResponseWire(tag) => ResponseAt(cfg, s, tag);
    case ClientSide(w) =>
      WorkerAt(cfg, s, w);
      var c := CarrierOrigin(s, x);
      RegionFrame(cfg.endian, CarriedBytes(s, x), AnswerLength(s.calls[c]), s.calls[c].id, s.calls[c].handled[0]);
  }

  /**
   * Every request or response under way carries exactly the id its slot expects; the slot is held,
   * by a call that is between sending and being resumed.
   */
  lemma Matching(cfg: Config, s: State, x: Carrier)
    requires cfg.Valid() && Reachable(cfg, s) && Present(s, x)
    ensures var id := CarriedId(cfg, s, x);
            var slot := RequestId.Slot(id);
            && slot < cfg.inflight && |s.client.slots| == cfg.inflight
            && s.client.slots[slot].expected == id
            && slot !in s.client.free
            && exists c: CallId ::
                 c < |s.calls| && s.calls[c].slot == slot && s.calls[c].id == id && Exchanging(s.calls[c].phase)
  {
    ReachableInv(cfg, s);
    CarrierFacts(cfg, s, x);
    var c := CarrierOrigin(s, x);
    CallAt(cfg, s, c);
    HolderAt(cfg, s, s.calls[c].slot);
  }

  /** At most one request or response is under way for a slot, wherever it is. */
  lemma OneTokenPerSlot(cfg: Config, s: State, x: Carrier, y: Carrier)
    requires cfg.Valid() && Reachable(cfg, s) && Present(s, x) && Present(s, y)
    requires RequestId.Slot(CarriedId(cfg, s, x)) == RequestId.Slot(CarriedId(cfg, s, y))
    ensures x == y
  {
    ReachableInv(cfg, s);
    CarrierFacts(cfg, s, x);
    CarrierFacts(cfg, s, y);
    var c, d := CarrierOrigin(s, x), CarrierOrigin(s, y);
    CallAt(cfg, s, c);
    CallAt(cfg, s, d);
    assert s.holders[s.calls[c].slot] == Some(c) && s.holders[s.calls[d].slot] == Some(d);
  }

  // ---------------------------------------------------------------- slots

  predicate HoldsSlot(s: State, c: CallId, x: nat) {
    c < |s.calls| && Holds(s.calls[c].phase) && s.calls[c].slot == x
  }

  /**
   * The slots are conserved: each index below max_inflight_ is once in the free queue or held by
   * exactly one call, and nothing else is in the queue.
   */
  lemma SlotConservation(cfg: Config, s: State)
    requires cfg.Valid() && Reachable(cfg, s)
    ensures forall x: nat :: x < cfg.inflight ==>
              s.client.free[x] == (if exists c: CallId :: HoldsSlot(s, c, x) then 0 else 1)
    ensures forall x :: x in s.client.free ==> x < cfg.inflight
    ensures forall c: CallId, x: nat :: HoldsSlot(s, c, x) ==> x < cfg.inflight
    ensures forall c: CallId, d: CallId, x: nat :: HoldsSlot(s, c, x) && HoldsSlot(s, d, x) ==> c == d
  {
    ReachableInv(cfg, s);
    forall c: CallId, x: nat | HoldsSlot(s, c, x)
      ensures x < cfg.inflight && s.holders[x] == Some(c)
    {
      CallAt(cfg, s, c);
    }
    forall x: nat | x < cfg.inflight
      ensures s.client.free[x] == (if exists c: CallId :: HoldsSlot(s, c, x) then 0 else 1)
    {
      HolderAt(cfg, s, x);
      match s.holders[x]
      case None =>
      case Some(c) => assert HoldsSlot(s, c, x);
    }
  }

  // ---------------------------------------------------------------- rendezvous

  /**
   * The waiter a receive worker loads, when there is one, is the handle of the call whose id is in
   * the response; that call is suspended on its response, and no other call expects this id.
   */
  lemma RendezvousSafety(cfg: Config, s: State, w: nat)
    requires cfg.Valid() && Reachable(cfg, s) && w < |s.workers| && s.workers[w].Copied?
    ensures var x := s.workers[w].slot;
            && x < |s.client.slots|
            && match s.client.slots[x].waiter
               case None => true
               case Some(h) =>
                 InPhase(s, h, Waiting) && s.calls[h].slot == x && s.calls[h].id == CarriedId(cfg, s, ClientSide(w))
  {
    hide Reachable, Inv, Region, IsFrame;
    ReachableInv(cfg, s);
    WorkerAt(cfg, s, w);
    CarrierFacts(cfg, s, ClientSide(w));
    CallAt(cfg, s, s.workers[w].origin);
  }

  /** The call that a step resumes from its response wait. */
  predicate ResumesCall(s: State, step: Step, c: CallId) {
    step.Receiver? && step.receiver.Resume? && step.receiver.w < |s.workers| && s.workers[step.receiver.w].Loaded?
    && s.workers[step.receiver.w].handle == c
  }

  /** How often call c is resumed from its response wait in a run. */
  function Resumptions(cfg: Config, s: State, run: seq<Step>, c: CallId): nat
    decreases |run|
  {
    if run == [] || !Enabled(cfg, s, run[0]) then 0
    else (if ResumesCall(s, run[0], c) then 1 else 0) + Resumptions(cfg, Apply(cfg, s, run[0]), run[1..], c)
  }

  predicate BeyondWait(s: State, c: CallId) {
    c < |s.calls| && (s.calls[c].phase.Resumed? || s.calls[c].phase.Returning? || s.calls[c].phase.Finished?)
  }

  lemma CallerKeepsBeyond(cfg: Config, s: State, step: CallerStep, c: CallId)
    requires CallerEnabled(s, step) && BeyondWait(s, c)
    ensures BeyondWait(ApplyCaller(cfg, s, step), c)
  {
    hide Region, TakeSlot, TakeNumber, InitSlot, FillRequest, StoreWaiter, GiveSlot;
  }

  lemma ReceiverKeepsBeyond(cfg: Config, s: State, step: ReceiverStep, c: CallId)
    requires ReceiverEnabled(s, step) && BeyondWait(s, c)
    ensures BeyondWait(ApplyReceiver(cfg, s, step), c)
  {
    hide Region, MatchHeader, CopyLength, SetActual;
  }

  lemma ServerKeepsBeyond(cfg: Config, s: State, step: ServerStep, c: CallId)
    requires ServerEnabled(cfg, s, step) && BeyondWait(s, c)
    ensures BeyondWait(ApplyServer(cfg, s, step), c)
  {
    hide Region, HandleRequest, HeaderLength;
  }

  lemma BeyondWaitStays(cfg: Config, s: State, step: Step, c: CallId)
    requires Inv(cfg, s) && Enabled(cfg, s, step) && BeyondWait(s, c)
    ensures !ResumesCall(s, step, c) && BeyondWait(Apply(cfg, s, step), c)
  {
    match step
    case Caller(caller) => CallerKeepsBeyond(cfg, s, caller, c);
    case Receiver(receiver) =>
      ReceiverKeepsBeyond(cfg, s, receiver, c);
      if receiver.Resume? {
        WorkerAt(cfg, s, receiver.w);
      }
    case Server(server) => ServerKeepsBeyond(cfg, s, server, c);
  }

  /** In any run from any reachable state a call is resumed from its response wait at most once. */
  lemma {:induction false} ResumedAtMostOnce(cfg: Config, s: State, run: seq<Step>, c: CallId)
    requires Inv(cfg, s)
    ensures Resumptions(cfg, s, run, c) <= if BeyondWait(s, c) then 0 else 1
    decreases |run|
  {
    hide Inv, Enabled, Apply;
    if run != [] && Enabled(cfg, s, run[0]) {
      var t := Apply(cfg, s, run[0]);
      StepInv(cfg, s, run[0]);
      ResumedAtMostOnce(cfg, t, run[1..], c);
      if BeyondWait(s, c) {
        BeyondWaitStays(cfg, s, run[0], c);
      } else if ResumesCall(s, run[0], c) {
        ResumeMovesBeyond(cfg, s, run[0], c);
      }
    }
  }

  lemma ResumeMovesBeyond(cfg: Config, s: State, step: Step, c: CallId)
    requires Inv(cfg, s) && Enabled(cfg, s, step) && ResumesCall(s, step, c)
    ensures BeyondWait(Apply(cfg, s, step), c)
  {
    WorkerAt(cfg, s, step.receiver.w);
  }

  // ---------------------------------------------------------------- results

  /** The step with which the send of call c fails: the post is refused, or its completion is an error. */
  predicate FailsSend(step: Step, c: CallId) {
    step == Caller(PostSendFail(c)) || step == Caller(ErrSend(c))
  }

  predicate SendFailed(run: seq<Step>, c: CallId) {
    exists k :: 0 <= k < |run| && FailsSend(run[k], c)
  }

  /** The call's request was not sent and never will be. */
  predicate Failed(s: State, c: CallId) {
    && c < |s.calls| && s.calls[c].token.Unsent?
    && (s.calls[c].phase.SendErred? || s.calls[c].phase.Returning? || s.calls[c].phase.Finished?)
  }

  lemma CallerFails(cfg: Config, s: State, step: CallerStep, c: CallId)
    requires Inv(cfg, s) && CallerEnabled(s, step)
    ensures Failed(ApplyCaller(cfg, s, step), c) <==> Failed(s, c) || FailsSend(Caller(step), c)
  {
    hide Inv, Failed, ApplyCaller, CallerEnabled;
    if !step.Invoke? && step.c == c {
      OwnFails(cfg, s, step, c);
    } else {
      OthersFail(cfg, s, step, c);
    }
  }

  lemma OwnFails(cfg: Config, s: State, step: CallerStep, c: CallId)
    requires Inv(cfg, s) && CallerEnabled(s, step) && !step.Invoke? && step.c == c
    ensures Failed(ApplyCaller(cfg, s, step), c) <==> Failed(s, c) || FailsSend(Caller(step), c)
  {
    hide Inv, Region, TakeSlot, TakeNumber, InitSlot, FillRequest, StoreWaiter, GiveSlot, HistoryInv;
    hide FieldsOk, SendRegionOk, TokenOk;
    CallAt(cfg, s, c);
  }

  lemma OthersFail(cfg: Config, s: State, step: CallerStep, c: CallId)
    requires CallerEnabled(s, step) && (step.Invoke? || step.c != c)
    ensures Failed(ApplyCaller(cfg, s, step), c) <==> Failed(s, c)
    ensures !FailsSend(Caller(step), c)
  {
    hide Region, TakeSlot, TakeNumber, InitSlot, FillRequest, StoreWaiter, GiveSlot;
  }

  lemma ReceiverFails(cfg: Config, s: State, step: ReceiverStep, c: CallId)
    requires Inv(cfg, s) && ReceiverEnabled(s, step)
    ensures Failed(ApplyReceiver(cfg, s, step), c) <==> Failed(s, c)
  {
    hide Inv, Region, MatchHeader, CopyLength, SetActual, Put, HistoryInv, IsFrame;
    if step.Deliver? {
      ResponseAt(cfg, s, step.tag);
    }
  }

  lemma ServerFails(cfg: Config, s: State, step: ServerStep, c: CallId)
    requires Inv(cfg, s) && ServerEnabled(cfg, s, step)
    ensures Failed(ApplyServer(cfg, s, step), c) <==> Failed(s, c)
  {
    hide Inv, Region, HandleRequest, HeaderLength, Put, HistoryInv, IsFrame;
    if step.ServerDeliver? {
      RequestAt(cfg, s, step.tag);
    } else {
      ServerWorkerAt(cfg, s, step.w);
    }
  }

  lemma StepFails(cfg: Config, s: State, step: Step, c: CallId)
    requires Inv(cfg, s) && Enabled(cfg, s, step)
    ensures Failed(Apply(cfg, s, step), c) <==> Failed(s, c) || FailsSend(step, c)
  {
    hide Inv, Failed, CallerEnabled, ReceiverEnabled, ServerEnabled, ApplyCaller, ApplyReceiver, ApplyServer;
    match step
    case Caller(x) => CallerFails(cfg, s, x, c);
    case Receiver(x) => ReceiverFails(cfg, s, x, c);
    case Server(x) => ServerFails(cfg, s, x, c);
  }

  lemma {:induction false} RunFails(cfg: Config, s: State, run: seq<Step>, t: State, c: CallId)
    requires Inv(cfg, s) && Run(cfg, s, run, t)
    ensures Failed(t, c) <==> Failed(s, c) || SendFailed(run, c)
    decreases |run|
  {
    hide Inv, Enabled, Apply, Failed, FailsSend;
    if run != [] {
      var u := Apply(cfg, s, run[0]);
      StepInv(cfg, s, run[0]);
      StepFails(cfg, s, run[0], c);
      RunFails(cfg, u, run[1..], t, c);
      assert run == [run[0]] + run[1..];
      assert SendFailed(run, c) <==> FailsSend(run[0], c) || SendFailed(run[1..], c);
    }
  }

  /** A finished call: its send failed and nothing happened, or the handler answered its own request exactly once. */
  predicate ResultOk(cfg: Config, call: Call, n: nat, failed: bool) {
    if failed then
      n == 0 && call.buffer == call.initial && call.handled == []
    else
      && Answered(cfg, call)
      && n == Min(|call.handled[0]|, |call.initial|)
      && |call.buffer| == |call.initial|
      && call.buffer[..n] == call.handled[0][..n]
      && call.buffer[n..] == call.initial[n..]
  }

  /**
   * What a call that finishes in a run has returned, and what it did to the caller's buffer: by whether
   * its send failed in the run. With a buffer that is not empty it returned 0 exactly if the send failed.
   */
  lemma CallResult(cfg: Config, s: State, run: seq<Step>, t: State, c: CallId)
    requires cfg.Valid() && Initial(cfg, s) && Run(cfg, s, run, t) && c < |t.calls| && t.calls[c].phase.Finished?
    ensures |t.calls[c].buffer| == |t.calls[c].initial|
    ensures t.calls[c].phase.n <= |t.calls[c].initial|
    ensures ResultOk(cfg, t.calls[c], t.calls[c].phase.n, SendFailed(run, c))
    ensures |t.calls[c].initial| > 0 ==> (t.calls[c].phase.n == 0 <==> SendFailed(run, c))
  {
    hide Run, Initial, SendFailed, Inv;
    InitialInv(cfg, s);
    NoneFailed(cfg, s, c);
    RunFails(cfg, s, run, t, c);
    RunInv(cfg, s, run, t);
    CallAt(cfg, t, c);
  }

  lemma NoneFailed(cfg: Config, s: State, c: CallId)
    requires Initial(cfg, s)
    ensures !Failed(s, c)
  {
  }
}
