/**
 * Calls under way always finish: on threads without limit, on one poller thread, or on one for sends and
 * one for receives.
 */
module RpcLiveness {
  import opened Bytes
  import opened Memory
  import opened Options
  import opened RpcModel
  import opened RpcInvariant
  import opened RpcPreservation
  import opened RpcProgress
  import opened RpcCredits
  import opened RpcPoller
  import Finite

  // ---------------------------------------------------------------- assumptions

  /** No worker has left its loop and no reply was lost. */
  predicate Healthy(s: State) {
    && (forall w: nat :: w < |s.workers| ==> !s.workers[w].Dead?)
    && (forall w: nat :: w < |s.serverWorkers| ==> !s.serverWorkers[w].ServerDead?)
    && (forall c: CallId :: c < |s.calls| ==> !s.calls[c].token.Lost?)
  }

  /** The handler answers every request with at least one byte and at most a response buffer. */
  ghost predicate HandlerAnswers(cfg: Config) {
    forall p: Data :: |p| <= SEND_MSG ==> exists r: Data :: 0 < |r| <= RECV_MSG && cfg.handles(p, r)
  }

  /** Neither a new call nor a failure. */
  predicate Regular(step: Step) {
    match step
    case Caller(x) => !x.Invoke? && !x.PostSendFail? && !x.ErrSend?
    case Receiver(x) => !x.FailRecv?
    case Server(x) => !x.ServerFailRecv? && !x.ServerPostSendFail? && !x.ServerErrSend?
  }

  predicate AllFinished(s: State) {
    forall c: CallId :: c < |s.calls| ==> s.calls[c].phase.Finished?
  }

  // ---------------------------------------------------------------- what can move

  lemma FreshTag(m: map<Tag, Message>) returns (tag: Tag)
    ensures tag !in m
  {
    tag := Finite.Bound(m.Keys);
  }

  /** A call outside the two waits can take its next step. */
  lemma CallerMoves(cfg: Config, s: State, c: CallId) returns (step: CallerStep)
    requires Inv(cfg, s) && c < |s.calls|
    requires Holds(s.calls[c].phase) && !s.calls[c].phase.Waiting?
    ensures CallerEnabled(s, step) && Regular(Caller(step)) && step.c == c
    ensures step.DispatchSend? <==> s.calls[c].phase.SendAcked? || s.calls[c].phase.SendErred?
    ensures step.Publish? <==> s.calls[c].phase.SendDone?
  {
    hide Inv, Region, IsFrame, SendRegionOk, HistoryInv;
    CallAt(cfg, s, c);
    ShapeOf(cfg, s);
    match s.calls[c].phase
    case Dequeued => step := Number(c);
    case Numbered => step := Init(c);
    case Initialised => step := Fill(c);
    case Filled => step := PostSend(c);
    case SendPosted =>
      var tag := FreshTag(s.requests);
      step := Transmit(c, tag);
    case SendSent => step := AckSend(c);
    case SendDone => step := Publish(c);
    case Resumed => step := ReadLength(c);
    case Returning(_) => step := ReturnSlot(c);
    case _ => step := DispatchSend(c);
  }

  lemma ShapeOf(cfg: Config, s: State)
    requires Inv(cfg, s)
    ensures Shape(cfg, s)
  {
  }

  /** A server worker that has not posted its receive can take its next step. */
  lemma ServerMoves(cfg: Config, s: State, w: nat) returns (step: ServerStep)
    requires Inv(cfg, s) && w < |s.serverWorkers| && HandlerAnswers(cfg)
    requires !s.serverWorkers[w].ServerPosted? && !s.serverWorkers[w].ServerDead?
    ensures ServerEnabled(cfg, s, step) && Regular(Server(step)) && step.w == w
  {
    hide Inv, Region, IsFrame, SendRegionOk, HistoryInv;
    ServerWorkerAt(cfg, s, w);
    match s.serverWorkers[w]
    case ServerIdle => step := ServerPostRecv(w);
    case ServerDelivered(_, _) =>
      var payload := RequestPayload(s, w);
      PayloadFits(cfg, s, w);
      var r: Data :| 0 < |r| <= RECV_MSG && cfg.handles(payload, r);
      var reply := r + seq(RECV_MSG - |r|, _ => 0);
      assert reply[..|r|] == r;
      step := Handle(w, payload, reply, |r|);
    case Ready(_, _) => step := ServerPostSend(w);
    case ReplyPosted(_, _) =>
      var tag := FreshTag(s.responses);
      step := ServerTransmit(w, tag);
    case ReplySent => step := ServerAckSend(w);
    case _ =>
  }

  lemma PayloadFits(cfg: Config, s: State, w: nat)
    requires Inv(cfg, s) && w < |s.serverWorkers| && s.serverWorkers[w].ServerDelivered?
    ensures |RequestPayload(s, w)| <= SEND_MSG
  {
    ServerWorkerAt(cfg, s, w);
    CallAt(cfg, s, s.serverWorkers[w].origin);
  }

  /** A client worker with a response, or about to post, can move, if the call it serves has published. */
  lemma WorkerCanMove(cfg: Config, s: State, w: nat) returns (step: ReceiverStep)
    requires Inv(cfg, s) && w < |s.workers| && !s.workers[w].Posted? && !s.workers[w].Dead?
    requires s.workers[w].Copied? ==> InPhase(s, s.workers[w].origin, Waiting)
    ensures ReceiverEnabled(s, step) && Regular(Receiver(step)) && step.w == w
    ensures step.PostRecv? <==> s.workers[w].Idle?
    ensures step.DispatchRecv? <==> s.workers[w].Completed?
    ensures !step.Deliver?
  {
    hide Inv, Region, IsFrame, SendRegionOk, HistoryInv;
    WorkerAt(cfg, s, w);
    ShapeOf(cfg, s);
    if ClientOrigin(s.workers[w]).Some? {
      CallAt(cfg, s, ClientOrigin(s.workers[w]).value);
    }
    match s.workers[w]
    case Idle => step := PostRecv(w);
    case Completed(_, _) => step := DispatchRecv(w);
    case Delivered(_, _) => step := MatchStep(w);
    case Matched(_, _) => step := CopyStep(w);
    case Copied(_, _) => step := LoadWaiter(w);
    case Loaded(_, _) => step := Resume(w);
    case _ =>
  }

  // ---------------------------------------------------------------- threads without limit

  /** A waiting call: its message is somewhere, and whoever has it, or must take it, can move. */
  lemma WaitingMoves(cfg: Config, s: State, c: CallId) returns (step: Step)
    requires Inv(cfg, s) && Healthy(s) && HandlerAnswers(cfg) && InPhase(s, c, Waiting)
    ensures Enabled(cfg, s, step) && Regular(step)
    ensures step.Receiver? && step.receiver.Deliver? ==>
              step.receiver.tag in s.responses && s.responses[step.receiver.tag].origin == c
    ensures !step.Caller?
    ensures step.Receiver? && !step.receiver.Deliver? && !step.receiver.PostRecv? && !step.receiver.DispatchRecv? ==>
              step.receiver.w < |s.workers| && (Running(s.workers[step.receiver.w]))
  {
    hide Inv, Region, IsFrame, SendRegionOk, HistoryInv;
    CallAt(cfg, s, c);
    ShapeOf(cfg, s);
    match s.calls[c].token
    case OnRequestWire(tag) =>
      RequestFits(cfg, s, tag);
      if s.serverWorkers[0].ServerPosted? {
        step := Server(ServerDeliver(tag, 0));
      } else {
        var x := ServerMoves(cfg, s, 0);
        step := Server(x);
      }
    case AtServer(w) =>
      var x := ServerMoves(cfg, s, w);
      step := Server(x);
    case OnResponseWire(tag) =>
      ResponseAt(cfg, s, tag);
      step := TakeResponse(cfg, s, c, tag);
    case AtClient(w) =>
      WorkerAt(cfg, s, w);
      var x := WorkerCanMove(cfg, s, w);
      step := Receiver(x);
    case _ =>
  }

  lemma RequestFits(cfg: Config, s: State, tag: Tag)
    requires Inv(cfg, s) && tag in s.requests
    ensures |s.requests[tag].data| <= REQ_REGION
  {
    RequestAt(cfg, s, tag);
    CallAt(cfg, s, s.requests[tag].origin);
  }

  /** A response on the wire: some client worker has posted a receive, or is about to. */
  lemma TakeResponse(cfg: Config, s: State, c: CallId, tag: Tag) returns (step: Step)
    requires Inv(cfg, s) && Healthy(s) && tag in s.responses && s.responses[tag].origin == c && c < |s.calls|
    ensures Enabled(cfg, s, step) && step.Receiver? && Regular(step)
    ensures step.receiver.PostRecv? || (step.receiver.Deliver? && step.receiver.tag == tag)
  {
    hide Inv, Region, IsFrame, SendRegionOk, HistoryInv;
    ShapeOf(cfg, s);
    ResponseAt(cfg, s, tag);
    var w := FreeWorker(cfg, s, c);
    if s.workers[w].Posted? {
      step := Receiver(Deliver(tag, w));
    } else {
      step := Receiver(PostRecv(w));
    }
  }

  lemma FreeWorker(cfg: Config, s: State, c: CallId) returns (w: nat)
    requires Inv(cfg, s) && Healthy(s) && c < |s.calls| && s.calls[c].token.OnResponseWire?
    ensures w < |s.workers| && (s.workers[w].Posted? || s.workers[w].Idle?)
  {
    Credits(cfg, s);
    assert c in Unconsumed(s);
    assert Free(s) != {};
    w :| w in Free(s);
  }

  /**
   * When every completion is dispatched on a thread of its own, no call under way is ever stuck, in
   * whatever order completions come.
   */
  lemma NeverStuck(cfg: Config, s: State)
    requires cfg.Valid() && Reachable(cfg, s) && Healthy(s) && HandlerAnswers(cfg) && !AllFinished(s)
    ensures exists step :: Enabled(cfg, s, step) && Regular(step)
  {
    ReachableInv(cfg, s);
    hide Inv, Region, IsFrame, SendRegionOk, HistoryInv;
    ShapeOf(cfg, s);
    var c: CallId :| c < |s.calls| && !s.calls[c].phase.Finished?;
    var d := SlotHolder(cfg, s, c);
    if s.calls[d].phase.Waiting? {
      var step := WaitingMoves(cfg, s, d);
    } else if s.calls[d].phase.Entering? {
      var slot :| slot in s.client.free;
      assert Enabled(cfg, s, Caller(Dequeue(d, slot)));
    } else {
      var step := CallerMoves(cfg, s, d);
      assert Enabled(cfg, s, Caller(step));
    }
  }

  /** A call still entering can take a slot, or another call holds one. */
  lemma SlotHolder(cfg: Config, s: State, c: CallId) returns (d: CallId)
    requires Inv(cfg, s) && c < |s.calls| && !s.calls[c].phase.Finished?
    ensures d < |s.calls| && !s.calls[d].phase.Finished?
    ensures s.calls[d].phase.Entering? ==> s.client.free != multiset{}
  {
    d := c;
    if s.calls[c].phase.Entering? && s.client.free == multiset{} {
      HolderAt(cfg, s, 0);
      d := s.holders[0].value;
    }
  }

  // ---------------------------------------------------------------- all calls finish

  predicate NoNewCall(run: seq<Step>) {
    forall i :: 0 <= i < |run| ==> !(run[i].Caller? && run[i].caller.Invoke?)
  }

  predicate AllRegular(run: seq<Step>) {
    forall i :: 0 <= i < |run| ==> Regular(run[i])
  }

  /** Without new calls a run is no longer than the measure of the state it starts from, failures included. */
  lemma {:induction false} RunBounded(cfg: Config, s: State, run: seq<Step>, t: State)
    requires Inv(cfg, s) && Run(cfg, s, run, t) && NoNewCall(run)
    ensures |run| + Measure(t) <= Measure(s)
    decreases |run|
  {
    hide Inv, Enabled, Apply, Measure;
    if run != [] {
      StepInv(cfg, s, run[0]);
      StepDecreases(cfg, s, run[0]);
      RunBounded(cfg, Apply(cfg, s, run[0]), run[1..], t);
    }
  }

  lemma CallerKeepsHealth(cfg: Config, s: State, step: CallerStep)
    requires Healthy(s) && CallerEnabled(s, step)
    ensures Healthy(ApplyCaller(cfg, s, step))
  {
    hide Region, TakeSlot, TakeNumber, InitSlot, FillRequest, StoreWaiter, GiveSlot;
  }

  lemma ReceiverKeepsHealth(cfg: Config, s: State, step: ReceiverStep)
    requires Healthy(s) && ReceiverEnabled(s, step) && !step.FailRecv?
    ensures Healthy(ApplyReceiver(cfg, s, step))
  {
    hide Region, MatchHeader, CopyLength, SetActual;
  }

  lemma ServerKeepsHealth(cfg: Config, s: State, step: ServerStep)
    requires Healthy(s) && ServerEnabled(cfg, s, step) && Regular(Server(step))
    ensures Healthy(ApplyServer(cfg, s, step))
  {
    hide Region, HandleRequest, HeaderLength;
  }

  lemma RegularKeepsHealth(cfg: Config, s: State, step: Step)
    requires Healthy(s) && Enabled(cfg, s, step) && Regular(step)
    ensures Healthy(Apply(cfg, s, step))
  {
    hide Healthy, CallerEnabled, ReceiverEnabled, ServerEnabled, ApplyCaller, ApplyReceiver, ApplyServer;
    match step
    case Caller(x) => CallerKeepsHealth(cfg, s, x);
    case Receiver(x) => ReceiverKeepsHealth(cfg, s, x);
    case Server(x) => ServerKeepsHealth(cfg, s, x);
  }

  lemma {:induction false} RegularRunKeepsHealth(cfg: Config, s: State, run: seq<Step>, t: State)
    requires Healthy(s) && Run(cfg, s, run, t) && AllRegular(run)
    ensures Healthy(t)
    decreases |run|
  {
    hide Healthy, Enabled, Apply;
    if run != [] {
      RegularKeepsHealth(cfg, s, run[0]);
      RegularRunKeepsHealth(cfg, Apply(cfg, s, run[0]), run[1..], t);
    }
  }

  // ---------------------------------------------------------------- poller threads

  /** The arrangements of threads in which the spin on a waiter always ends. */
  predicate Live(mode: Pollers) {
    mode == Shared(true) || mode == Separate
  }

  predicate RegularMove(m: Move) {
    m.Plain? && Regular(m.step)
  }

  predicate AllRegularMoves(run: seq<Move>) {
    forall i :: 0 <= i < |run| ==> RegularMove(run[i])
  }

  /** The waiter is there exactly when the call has suspended on its response. */
  lemma SpinWaits(cfg: Config, s: State, w: nat)
    requires Inv(cfg, s) && w < |s.workers| && s.workers[w].Copied?
    ensures ReceiverEnabled(s, LoadWaiter(w)) <==> InPhase(s, s.workers[w].origin, Waiting)
    ensures s.workers[w].slot < |s.client.slots|
    ensures s.client.slots[s.workers[w].slot].waiter in {None, Some(s.workers[w].origin)}
    ensures s.workers[w].origin < |s.calls| && Exchanging(s.calls[s.workers[w].origin].phase)
  {
    hide Inv, Region, IsFrame, SendRegionOk, HistoryInv;
    WorkerAt(cfg, s, w);
    ShapeOf(cfg, s);
    CallAt(cfg, s, s.workers[w].origin);
  }

  /**
   * With one thread and ordered completions the spin on the waiter ends at its first load: the
   * call has stored its handle before the thread gets to its response.
   */
  lemma SpinEndsAtOnce(cfg: Config, p: Polled, w: nat)
    requires cfg.Valid() && PolledReachable(cfg, Shared(true), p) && w < |p.s.workers| && p.s.workers[w].Copied?
    ensures PolledEnabled(cfg, Shared(true), p, Plain(Receiver(LoadWaiter(w))))
    ensures p.s.client.slots[p.s.workers[w].slot].waiter == Some(p.s.workers[w].origin)
  {
    hide Inv, PolledReachable;
    PolledReachableInv(cfg, Shared(true), p);
    assert OrderOk(p.s.calls, p.first.queue, w, p.s.workers[w]);
    ShapeOf(cfg, p.s);
    SpinWaits(cfg, p.s, w);
  }

  /** A thread runs a call that looks for a slot, and there is none. */
  predicate Starved(p: Polled) {
    && p.s.client.free == multiset{}
    && exists k: Thread :: LaneOf(p, k).runner.call.Some? && InPhase(p.s, LaneOf(p, k).runner.call.value, Entering)
  }

  /** Thread k runs a call that has not returned: it can go on, or looks for a slot in vain. */
  lemma ThreadCallNext(cfg: Config, mode: Pollers, p: Polled, k: Thread) returns (m: Move)
    requires PolledInv(cfg, mode, p) && !Yielded(p, k) && !Starved(p)
    ensures PolledEnabled(cfg, mode, p, m) && RegularMove(m)
  {
    hide Inv, QueueOk, OrderInv;
    ShapeOf(cfg, p.s);
    var c := LaneOf(p, k).runner.call.value;
    if p.s.calls[c].phase.Entering? {
      var slot :| slot in p.s.client.free;
      m := Plain(Caller(Dequeue(c, slot)));
    } else {
      var x := CallerMoves(cfg, p.s, c);
      m := Plain(Caller(x));
    }
  }

  /** Completions wait for a thread that runs nothing. */
  lemma DispatchNext(cfg: Config, mode: Pollers, p: Polled, k: Thread) returns (m: Move)
    requires PolledInv(cfg, mode, p) && Yielded(p, k) && LaneOf(p, k).runner.worker.None? && LaneOf(p, k).queue != []
    ensures PolledEnabled(cfg, mode, p, m) && RegularMove(m)
  {
    hide Inv, RunnerOk, OrderInv;
    ShapeOf(cfg, p.s);
    var x := LaneOf(p, k).queue[0];
    assert x in LaneOf(p, k).queue;
    match x
    case SendDoneFor(c) => m := Plain(Caller(DispatchSend(c)));
    case ReceivedBy(w) => m := Plain(Receiver(DispatchRecv(w)));
  }

  /** The receiving thread is in worker w, which can go on, or waits for what the sending thread can do. */
  lemma WorkerNext(cfg: Config, mode: Pollers, p: Polled, w: nat) returns (m: Move)
    requires Live(mode) && PolledInv(cfg, mode, p) && RunsWorker(p, Receiving(mode), w)
    requires Yielded(p, First) && Yielded(p, Second)
    ensures PolledEnabled(cfg, mode, p, m) && RegularMove(m)
  {
    hide Inv;
    var s := p.s;
    ShapeOf(cfg, s);
    if s.workers[w].Copied? {
      SpinWaits(cfg, s, w);
      var c := s.workers[w].origin;
      assert !InPhase(s, c, SendDone);
      if mode == Shared(true) {
        assert OrderOk(s.calls, p.first.queue, w, s.workers[w]);
      }
      if s.calls[c].phase.SendSent? {
        return Plain(Caller(AckSend(c)));
      }
      if s.calls[c].phase.SendAcked? {
        assert Announced(s, SendDoneFor(c));
        m := DispatchNext(cfg, mode, p, First);
        return;
      }
    }
    var x := WorkerCanMove(cfg, s, w);
    m := Plain(Receiver(x));
  }

  /** No thread has anything to do: somebody else has. */
  lemma IdleNext(cfg: Config, mode: Pollers, p: Polled) returns (m: Move)
    requires Live(mode) && PolledInv(cfg, mode, p) && Healthy(p.s) && HandlerAnswers(cfg) && !AllFinished(p.s)
    requires Yielded(p, First) && Yielded(p, Second)
    requires p.first.queue == [] == p.second.queue && p.first.runner.worker.None? && p.second.runner.worker.None?
    ensures PolledEnabled(cfg, mode, p, m) && RegularMove(m)
  {
    hide Inv, OrderInv;
    var s := p.s;
    ShapeOf(cfg, s);
    var c: CallId :| c < |s.calls| && !s.calls[c].phase.Finished?;
    var d := SlotHolder(cfg, s, c);
    assert !InPhase(s, d, SendDone) && !InPhase(s, d, Resumed);
    assert !Announced(s, SendDoneFor(d));
    forall w: nat | w < |s.workers|
      ensures ClientOrigin(s.workers[w]).None?
    {
      assert !Announced(s, ReceivedBy(w));
    }
    if s.calls[d].phase.Waiting? {
      var step := WaitingMoves(cfg, s, d);
      m := Plain(step);
    } else if s.calls[d].phase.Entering? {
      var slot :| slot in s.client.free;
      m := Plain(Caller(Dequeue(d, slot)));
    } else {
      var x := CallerMoves(cfg, s, d);
      m := Plain(Caller(x));
    }
  }

  /** The step that a client on poller threads can take next, unless a thread looks for a slot in vain. */
  lemma PolledNext(cfg: Config, mode: Pollers, p: Polled) returns (m: Move)
    requires Live(mode) && PolledInv(cfg, mode, p) && Healthy(p.s) && HandlerAnswers(cfg) && !AllFinished(p.s)
    requires !Starved(p)
    ensures PolledEnabled(cfg, mode, p, m) && RegularMove(m)
  {
    hide Inv, QueueOk, OrderInv, PolledEnabled, Healthy, HandlerAnswers, AllFinished, Starved;
    if !Yielded(p, First) {
      m := ThreadCallNext(cfg, mode, p, First);
    } else if !Yielded(p, Second) {
      m := ThreadCallNext(cfg, mode, p, Second);
    } else if p.first.runner.worker.Some? {
      m := WorkerNext(cfg, mode, p, p.first.runner.worker.value);
    } else if p.second.runner.worker.Some? {
      m := WorkerNext(cfg, mode, p, p.second.runner.worker.value);
    } else if p.first.queue != [] {
      m := DispatchNext(cfg, mode, p, First);
    } else if p.second.queue != [] {
      m := DispatchNext(cfg, mode, p, Second);
    } else {
      m := IdleNext(cfg, mode, p);
    }
  }

  /** Not more callers than slots: no thread looks for a slot in vain. */
  lemma NotStarved(cfg: Config, p: Polled)
    requires Inv(cfg, p.s) && |Active(p.s)| <= cfg.inflight
    ensures !Starved(p)
  {
    hide Inv;
    if Starved(p) {
      var k: Thread :| LaneOf(p, k).runner.call.Some? && InPhase(p.s, LaneOf(p, k).runner.call.value, Entering);
      AllHeld(cfg, p.s);
      SubsetSize(Holders(p.s) + {LaneOf(p, k).runner.call.value}, Active(p.s));
    }
  }

  // ---------------------------------------------------------------- callers on threads of their own

  /** No poller thread runs a call that is still looking for a slot: such calls are made on other threads. */
  predicate NoneEnters(p: Polled) {
    forall k: Thread :: LaneOf(p, k).runner.call.Some? ==> !InPhase(p.s, LaneOf(p, k).runner.call.value, Entering)
  }

  predicate Inside(s: State, c: CallId) {
    c < |s.calls| && s.calls[c].phase != Entering
  }

  lemma CallerInside(cfg: Config, s: State, step: CallerStep, c: CallId)
    requires CallerEnabled(s, step) && Inside(s, c)
    ensures Inside(ApplyCaller(cfg, s, step), c)
  {
    hide Region, TakeSlot, TakeNumber, InitSlot, FillRequest, StoreWaiter, GiveSlot;
  }

  lemma ReceiverInside(cfg: Config, s: State, step: ReceiverStep, c: CallId)
    requires ReceiverEnabled(s, step) && Inside(s, c)
    ensures Inside(ApplyReceiver(cfg, s, step), c)
  {
    hide Region, MatchHeader, CopyLength, SetActual, Put;
  }

  lemma StepInside(cfg: Config, s: State, step: Step, c: CallId)
    requires Enabled(cfg, s, step) && Inside(s, c)
    ensures Inside(Apply(cfg, s, step), c)
  {
    hide CallerEnabled, ReceiverEnabled, ServerEnabled, ApplyCaller, ApplyReceiver, ApplyServer;
    match step
    case Caller(x) => CallerInside(cfg, s, x, c);
    case Receiver(x) => ReceiverInside(cfg, s, x, c);
    case Server(x) => ServerObserved(cfg, s, x);
  }

  /** A thread comes to run a call by a dispatch or a resumption only, and the call then has its slot. */
  lemma RunsInside(cfg: Config, mode: Pollers, p: Polled, m: Move, k: Thread)
    requires PolledInv(cfg, mode, p) && PolledEnabled(cfg, mode, p, m) && m.Plain? && NoneEnters(p)
    requires RunnerAfter(mode, p, m, k).call.Some?
    ensures Inside(p.s, RunnerAfter(mode, p, m, k).call.value)
  {
    hide Inv, QueueOk, OrderInv;
    if m.step.Receiver? && m.step.receiver.Resume? {
      HandleWaits(cfg, p.s, m.step.receiver.w);
    }
  }

  lemma HandleWaits(cfg: Config, s: State, w: nat)
    requires Inv(cfg, s) && w < |s.workers| && s.workers[w].Loaded?
    ensures InPhase(s, s.workers[w].handle, Waiting)
  {
    hide Inv, Region, IsFrame;
    WorkerAt(cfg, s, w);
  }

  lemma NoneEntersStep(cfg: Config, mode: Pollers, p: Polled, m: Move)
    requires PolledInv(cfg, mode, p) && PolledEnabled(cfg, mode, p, m) && m.Plain? && NoneEnters(p)
    ensures NoneEnters(PolledApply(cfg, mode, p, m))
  {
    hide PolledInv, Enabled, Apply, RunnerAfter, QueueAfter;
    var q := PolledApply(cfg, mode, p, m);
    forall k: Thread | LaneOf(q, k).runner.call.Some?
      ensures !InPhase(q.s, LaneOf(q, k).runner.call.value, Entering)
    {
      RunsInside(cfg, mode, p, m, k);
      StepInside(cfg, p.s, m.step, LaneOf(q, k).runner.call.value);
    }
  }

  /** A run in which no poller thread goes on from one call to the next. */
  predicate NoNext(run: seq<Move>) {
    forall i :: 0 <= i < |run| ==> run[i].Plain?
  }

  lemma {:induction false} NoneEntersInRun(cfg: Config, mode: Pollers, p: Polled, run: seq<Move>, q: Polled)
    requires PolledInv(cfg, mode, p) && PolledRun(cfg, mode, p, run, q) && NoNext(run) && NoneEnters(p)
    ensures NoneEnters(q)
    decreases |run|
  {
    hide PolledInv, PolledEnabled, PolledApply, NoneEnters;
    if run != [] {
      PolledStepInv(cfg, mode, p, run[0]);
      NoneEntersStep(cfg, mode, p, run[0]);
      NoneEntersInRun(cfg, mode, PolledApply(cfg, mode, p, run[0]), run[1..], q);
    }
  }

  /** Not more callers than slots, or none of them on a poller thread. */
  predicate CallersFit(cfg: Config, p: Polled) {
    |Active(p.s)| <= cfg.inflight || NoneEnters(p)
  }

  lemma FitNotStarved(cfg: Config, p: Polled)
    requires Inv(cfg, p.s) && CallersFit(cfg, p)
    ensures !Starved(p)
  {
    hide Inv;
    if |Active(p.s)| <= cfg.inflight {
      NotStarved(cfg, p);
    }
  }

  /**
   * On one thread with ordered completions, and on two threads in any order, no call under way is
   * ever stuck, as long as there are not more callers than slots or no poller thread looks for a slot.
   */
  lemma PolledNeverStuck(cfg: Config, mode: Pollers, p: Polled)
    requires cfg.Valid() && Live(mode) && PolledReachable(cfg, mode, p) && Healthy(p.s) && HandlerAnswers(cfg)
    requires !AllFinished(p.s) && CallersFit(cfg, p)
    ensures exists m :: PolledEnabled(cfg, mode, p, m) && RegularMove(m)
  {
    hide PolledReachable, Starved, ThreadsInv, Inv, CallersFit;
    PolledReachableInv(cfg, mode, p);
    FitNotStarved(cfg, p);
    var m := PolledNext(cfg, mode, p);
  }

  // ---------------------------------------------------------------- runs on poller threads

  /** A run reaches p; no worker has left its loop and no reply was lost. */
  ghost predicate Reached(cfg: Config, mode: Pollers, p: Polled) {
    PolledReachable(cfg, mode, p) && PolledInv(cfg, mode, p) && Healthy(p.s)
  }

  /** The constructors have run, every buffer is zero. */
  function Start(cfg: Config): Polled {
    Polled(State([], seq(cfg.inflight, _ => None),
                 ClientMem(multiset(seq(cfg.inflight, i => i)), 0, seq(cfg.inflight, _ => Slot(None, 0, 0, 0, 0)),
                           seq(cfg.inflight * REQ_REGION, _ => 0), seq(cfg.inflight * RESP_REGION, _ => 0)),
                 seq(cfg.inflight, _ => Idle),
                 ServerMem(seq(cfg.depth * REQ_REGION, _ => 0), seq(cfg.depth * RESP_REGION, _ => 0)),
                 seq(cfg.depth, _ => ServerIdle), map[], map[], NoFault),
           Lane([], NOBODY), Lane([], NOBODY))
  }

  lemma StartReached(cfg: Config, mode: Pollers)
    requires cfg.Valid()
    ensures PolledInitial(cfg, Start(cfg)) && Reached(cfg, mode, Start(cfg)) && 0 in Start(cfg).s.client.free
  {
    var p := Start(cfg);
    PolledInitialInv(cfg, mode, p);
    assert PolledRun(cfg, mode, p, [], p);
    UpToOnce(cfg.inflight, 0);
  }

  lemma CallerHealth(cfg: Config, s: State, step: Step)
    requires Healthy(s) && Enabled(cfg, s, step) && step.Caller?
    ensures Healthy(Apply(cfg, s, step))
  {
    hide Healthy, CallerEnabled, ApplyCaller;
    CallerKeepsHealth(cfg, s, step.caller);
  }

  lemma Take(cfg: Config, mode: Pollers, p: Polled, m: Move)
    requires Reached(cfg, mode, p) && PolledEnabled(cfg, mode, p, m) && (RegularMove(m) || StepOf(m).Caller?)
    ensures Reached(cfg, mode, PolledApply(cfg, mode, p, m))
  {
    hide PolledInv, PolledReachable, Enabled, Apply, Regular, Healthy;
    ReachableThen(cfg, mode, p, m);
    PolledStepInv(cfg, mode, p, m);
    if RegularMove(m) {
      RegularKeepsHealth(cfg, p.s, StepOf(m));
    } else {
      CallerHealth(cfg, p.s, StepOf(m));
    }
  }

  function StepsOf(run: seq<Move>): (steps: seq<Step>)
    ensures |steps| == |run|
  {
    if run == [] then [] else [StepOf(run[0])] + StepsOf(run[1..])
  }

  /** What the polled client does, the client may do. */
  lemma {:induction false} PolledRunIsRun(cfg: Config, mode: Pollers, p: Polled, run: seq<Move>, q: Polled)
    requires PolledRun(cfg, mode, p, run, q)
    ensures Run(cfg, p.s, StepsOf(run), q.s)
    decreases |run|
  {
    hide Enabled, Apply;
    if run != [] {
      PolledRunIsRun(cfg, mode, PolledApply(cfg, mode, p, run[0]), run[1..], q);
    }
  }

  lemma {:induction false} StepsRegular(run: seq<Move>)
    requires AllRegularMoves(run)
    ensures AllRegular(StepsOf(run)) && NoNewCall(StepsOf(run))
    decreases |run|
  {
    if run != [] {
      StepsRegular(run[1..]);
    }
  }

  /** Calls that have returned stay so, and no call is added. */
  predicate NoNewActive(s: State, t: State) {
    && |t.calls| == |s.calls|
    && forall c: CallId :: c < |s.calls| && s.calls[c].phase.Finished? ==> t.calls[c].phase.Finished?
  }

  lemma CallerActive(cfg: Config, s: State, step: CallerStep)
    requires CallerEnabled(s, step) && !step.Invoke?
    ensures NoNewActive(s, ApplyCaller(cfg, s, step))
  {
    hide Region, TakeSlot, TakeNumber, InitSlot, FillRequest, StoreWaiter, GiveSlot;
  }

  lemma ReceiverActive(cfg: Config, s: State, step: ReceiverStep)
    requires ReceiverEnabled(s, step)
    ensures NoNewActive(s, ApplyReceiver(cfg, s, step))
  {
    hide Region, MatchHeader, CopyLength, SetActual, Put;
  }

  lemma StepActive(cfg: Config, s: State, step: Step)
    requires Enabled(cfg, s, step) && Regular(step)
    ensures NoNewActive(s, Apply(cfg, s, step))
  {
    hide CallerEnabled, ReceiverEnabled, ServerEnabled, ApplyCaller, ApplyReceiver, ApplyServer;
    match step
    case Caller(x) => CallerActive(cfg, s, x);
    case Receiver(x) => ReceiverActive(cfg, s, x);
    case Server(x) => ServerObserved(cfg, s, x);
  }

  lemma {:induction false} RunActive(cfg: Config, s: State, run: seq<Step>, t: State)
    requires Run(cfg, s, run, t) && AllRegular(run)
    ensures Active(t) <= Active(s) && |Active(t)| <= |Active(s)|
    decreases |run|
  {
    hide Enabled, Apply, Regular;
    if run != [] {
      assert Regular(run[0]);
      StepActive(cfg, s, run[0]);
      RunActive(cfg, Apply(cfg, s, run[0]), run[1..], t);
    }
    SubsetSize(Active(t), Active(s));
  }

  /** Without new calls, callers go on fitting. */
  lemma FitInRun(cfg: Config, mode: Pollers, p: Polled, run: seq<Move>, q: Polled)
    requires PolledInv(cfg, mode, p) && PolledRun(cfg, mode, p, run, q) && AllRegularMoves(run) && CallersFit(cfg, p)
    requires |Active(q.s)| <= |Active(p.s)|
    ensures CallersFit(cfg, q)
  {
    hide PolledInv, PolledRun, NoneEnters, Regular;
    if NoneEnters(p) {
      NoneEntersInRun(cfg, mode, p, run, q);
    }
  }

  /**
   * On one thread with ordered completions, and on two threads in any order: with not more callers
   * than slots, or no caller on a poller thread, every run without new calls and failures is bounded,
   * and when it can go no further all calls have finished.
   */
  lemma PolledCallsFinish(cfg: Config, mode: Pollers, p: Polled, run: seq<Move>, q: Polled)
    requires cfg.Valid() && Live(mode) && PolledReachable(cfg, mode, p) && Healthy(p.s) && HandlerAnswers(cfg)
    requires CallersFit(cfg, p) && PolledRun(cfg, mode, p, run, q) && AllRegularMoves(run)
    ensures |run| <= Measure(p.s)
    ensures (exists m :: PolledEnabled(cfg, mode, q, m) && RegularMove(m)) || AllFinished(q.s)
  {
    hide Healthy, HandlerAnswers, AllFinished, PolledReachable, PolledRun, PolledEnabled;
    hide Measure, Starved, Inv, ThreadsInv, CallersFit;
    hide RegularMove, AllRegular, NoNewCall;
    PolledReachableInv(cfg, mode, p);
    PolledRunInv(cfg, mode, p, run, q);
    PolledRunIsRun(cfg, mode, p, run, q);
    StepsRegular(run);
    RunBounded(cfg, p.s, StepsOf(run), q.s);
    RegularRunKeepsHealth(cfg, p.s, StepsOf(run), q.s);
    RunActive(cfg, p.s, StepsOf(run), q.s);
    FitInRun(cfg, mode, p, run, q);
    FitNotStarved(cfg, q);
    if !AllFinished(q.s) {
      var m := PolledNext(cfg, mode, q);
    }
  }

  /**
   * Callers that wait on threads of their own: with any number of them, the calls of a run in which no
   * poller thread goes on from one call to the next all finish, once no call is added and nothing fails.
   */
  lemma OwnThreadsFinish(cfg: Config, mode: Pollers, start: Polled, before: seq<Move>, p: Polled, run: seq<Move>,
                         q: Polled)
    requires cfg.Valid() && Live(mode) && HandlerAnswers(cfg) && Healthy(p.s)
    requires PolledInitial(cfg, start) && PolledRun(cfg, mode, start, before, p) && NoNext(before)
    requires PolledRun(cfg, mode, p, run, q) && AllRegularMoves(run)
    ensures |run| <= Measure(p.s)
    ensures (exists m :: PolledEnabled(cfg, mode, q, m) && RegularMove(m)) || AllFinished(q.s)
  {
    hide PolledInv, PolledRun, Measure, Healthy, HandlerAnswers, PolledEnabled, AllFinished, AllRegularMoves, NoNext;
    PolledInitialInv(cfg, mode, start);
    NoneEntersInRun(cfg, mode, start, before, p);
    PolledCallsFinish(cfg, mode, p, run, q);
  }
}
