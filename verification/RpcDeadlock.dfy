/**
 * Why the order of completions matters to a client with one poller: a run of one call, without
 * any failure, after which the poller spins forever on the waiter that only it could have stored.
 */
module RpcDeadlock {
  import opened Bytes
  import opened Memory
  import opened Options
  import opened RpcModel
  import opened RpcInvariant
  import opened RpcPreservation
  import opened RpcProgress
  import opened RpcPoller
  import opened RpcLiveness

  // ---------------------------------------------------------------- when the thread is blocked

  /** The poller spins on the waiter of a call that has not been resumed from its send. */
  predicate Blocked(p: Polled, w: nat, c: CallId) {
    && p.first.runner == Runner(None, Some(w))
    && w < |p.s.workers| && p.s.workers[w].Copied? && p.s.workers[w].origin == c
    && (InPhase(p.s, c, SendSent) || InPhase(p.s, c, SendAcked))
  }

  /**
   * Whatever the order of completions: the poller gets past its spin exactly if the call has
   * suspended on its response; if not, it is blocked.
   */
  lemma SpinEndsOrBlocks(cfg: Config, p: Polled, w: nat)
    requires cfg.Valid() && PolledReachable(cfg, Shared(false), p) && w < |p.s.workers| && p.s.workers[w].Copied?
    ensures var c := p.s.workers[w].origin;
            && (PolledEnabled(cfg, Shared(false), p, Plain(Receiver(LoadWaiter(w)))) <==> InPhase(p.s, c, Waiting))
            && (Blocked(p, w, c) <==> !InPhase(p.s, c, Waiting))
  {
    hide Inv, PolledReachable;
    PolledReachableInv(cfg, Shared(false), p);
    SpinWaits(cfg, p.s, w);
    ShapeOf(cfg, p.s);
    assert !InPhase(p.s, p.s.workers[w].origin, SendDone);
  }

  /** A blocked poller stays blocked, whatever anybody else does. */
  lemma BlockedForever(cfg: Config, p: Polled, m: Move, w: nat, c: CallId)
    requires PolledInv(cfg, Shared(false), p) && PolledEnabled(cfg, Shared(false), p, m) && Blocked(p, w, c)
    ensures Blocked(PolledApply(cfg, Shared(false), p, m), w, c)
  {
    hide Inv, ThreadsInv;
    SpinWaits(cfg, p.s, w);
    match m
    case Next(_, _, _) => BlockedByNext(cfg, p, m, w, c);
    case Plain(Caller(x)) => BlockedByCaller(cfg, p, x, w, c);
    case Plain(Receiver(x)) => BlockedByReceiver(cfg, p, x, w, c);
    case Plain(Server(x)) => ServerObserved(cfg, p.s, x);
  }

  lemma BlockedByNext(cfg: Config, p: Polled, m: Move, w: nat, c: CallId)
    requires m.Next? && PolledEnabled(cfg, Shared(false), p, m) && Blocked(p, w, c)
    ensures Blocked(PolledApply(cfg, Shared(false), p, m), w, c)
  {
    hide Region;
  }

  lemma BlockedByCaller(cfg: Config, p: Polled, step: CallerStep, w: nat, c: CallId)
    requires PolledEnabled(cfg, Shared(false), p, Plain(Caller(step))) && Blocked(p, w, c)
    ensures Blocked(PolledApply(cfg, Shared(false), p, Plain(Caller(step))), w, c)
  {
    hide Region, TakeSlot, TakeNumber, InitSlot, FillRequest, StoreWaiter, GiveSlot;
  }

  lemma BlockedByReceiver(cfg: Config, p: Polled, step: ReceiverStep, w: nat, c: CallId)
    requires PolledEnabled(cfg, Shared(false), p, Plain(Receiver(step))) && Blocked(p, w, c)
    requires !ReceiverEnabled(p.s, LoadWaiter(w))
    ensures Blocked(PolledApply(cfg, Shared(false), p, Plain(Receiver(step))), w, c)
  {
    hide Region, MatchHeader, CopyLength, SetActual;
  }

  /** So its call never finishes. */
  lemma {:induction false} BlockedNeverFinishes(cfg: Config, p: Polled, run: seq<Move>, q: Polled, w: nat, c: CallId)
    requires PolledInv(cfg, Shared(false), p) && PolledRun(cfg, Shared(false), p, run, q) && Blocked(p, w, c)
    ensures Blocked(q, w, c) && c < |q.s.calls| && !q.s.calls[c].phase.Finished?
    decreases |run|
  {
    hide PolledInv, PolledEnabled, PolledApply;
    if run != [] {
      PolledStepInv(cfg, Shared(false), p, run[0]);
      BlockedForever(cfg, p, run[0], w, c);
      BlockedNeverFinishes(cfg, PolledApply(cfg, Shared(false), p, run[0]), run[1..], q, w, c);
    }
  }

  // ---------------------------------------------------------------- a run into it

  /** One call in the given phase, and the first worker of each side in the given stage. */
  predicate Snap(p: Polled, phase: Phase, stage: Stage, serverStage: ServerStage) {
    && |p.s.calls| == 1 && p.s.calls[0].phase == phase
    && |p.s.workers| > 0 && p.s.workers[0] == stage && |p.s.serverWorkers| > 0 && p.s.serverWorkers[0] == serverStage
    && p.first == Lane([], NOBODY) == p.second && p.s.fault == NoFault
  }

  /** The call's next step, with the phase it leads to. */
  lemma TakeCaller(cfg: Config, p: Polled, phase: Phase, next: Phase, stage: Stage, serverStage: ServerStage)
    returns (q: Polled)
    requires Reached(cfg, Shared(false), p) && Snap(p, phase, stage, serverStage)
    requires match phase
             case Dequeued => next == Numbered
             case Numbered => next == Initialised
             case Initialised => next == Filled
             case Filled => next == SendPosted
             case SendPosted => next == SendSent
             case _ => false
    ensures Reached(cfg, Shared(false), q) && Snap(q, next, stage, serverStage)
    ensures next == SendSent ==> q.s.calls[0].token.OnRequestWire?
  {
    hide Inv, QueueOk, RunnerOk, Region, TakeNumber, InitSlot, FillRequest, PolledRun;
    ShapeOf(cfg, p.s);
    var x := CallerMoves(cfg, p.s, 0);
    Take(cfg, Shared(false), p, Plain(Caller(x)));
    q := PolledApply(cfg, Shared(false), p, Plain(Caller(x)));
  }

  /** The call has sent its request; the first worker of each side has posted its receive. */
  lemma RequestSent(cfg: Config) returns (q: Polled)
    requires cfg.Valid()
    ensures Reached(cfg, Shared(false), q) && Snap(q, SendSent, Posted, ServerPosted)
    ensures q.s.calls[0].token.OnRequestWire?
  {
    hide Reached;
    var p := Invoked(cfg);
    Take(cfg, Shared(false), p, Plain(Caller(Dequeue(0, 0))));
    q := PolledApply(cfg, Shared(false), p, Plain(Caller(Dequeue(0, 0))));
    assert Snap(q, Dequeued, Posted, ServerPosted);
    q := TakeCaller(cfg, q, Dequeued, Numbered, Posted, ServerPosted);
    q := TakeCaller(cfg, q, Numbered, Initialised, Posted, ServerPosted);
    q := TakeCaller(cfg, q, Initialised, Filled, Posted, ServerPosted);
    q := TakeCaller(cfg, q, Filled, SendPosted, Posted, ServerPosted);
    q := TakeCaller(cfg, q, SendPosted, SendSent, Posted, ServerPosted);
  }

  lemma Invoked(cfg: Config) returns (q: Polled)
    requires cfg.Valid()
    ensures Reached(cfg, Shared(false), q) && Snap(q, Entering, Posted, ServerPosted) && 0 in q.s.client.free
  {
    hide Reached, Region;
    var p := Start(cfg);
    var invoke := Plain(Caller(Invoke([], [])));
    StartReached(cfg, Shared(false));
    Take(cfg, Shared(false), p, invoke);
    var p1 := PolledApply(cfg, Shared(false), p, invoke);
    Take(cfg, Shared(false), p1, Plain(Receiver(PostRecv(0))));
    var p2 := PolledApply(cfg, Shared(false), p1, Plain(Receiver(PostRecv(0))));
    Take(cfg, Shared(false), p2, Plain(Server(ServerPostRecv(0))));
    q := PolledApply(cfg, Shared(false), p2, Plain(Server(ServerPostRecv(0))));
  }

  lemma RequestDelivered(cfg: Config, p: Polled) returns (q: Polled)
    requires Reached(cfg, Shared(false), p) && Snap(p, SendSent, Posted, ServerPosted)
    requires p.s.calls[0].token.OnRequestWire?
    ensures Reached(cfg, Shared(false), q) && AtServerWorker(q) && q.s.serverWorkers[0].ServerDelivered?
  {
    hide Inv, QueueOk, RunnerOk, Region, PolledRun, IsFrame, Put, Healthy, SendRegionOk, HistoryInv;
    var tag := p.s.calls[0].token.tag;
    CallAt(cfg, p.s, 0);
    RequestFits(cfg, p.s, tag);
    RequestAt(cfg, p.s, tag);
    var step := Plain(Server(ServerDeliver(tag, 0)));
    Take(cfg, Shared(false), p, step);
    q := PolledApply(cfg, Shared(false), p, step);
  }

  /** The client waits for both completions; the server worker is in some stage. */
  predicate AtServerWorker(p: Polled) {
    |p.s.serverWorkers| > 0 && Snap(p, SendSent, Posted, p.s.serverWorkers[0])
  }

  /** The server worker's next step. */
  lemma TakeServer(cfg: Config, p: Polled) returns (q: Polled)
    requires Reached(cfg, Shared(false), p) && AtServerWorker(p) && HandlerAnswers(cfg)
    requires var stage := p.s.serverWorkers[0]; stage.ServerDelivered? || stage.Ready? || stage.ReplyPosted?
    ensures Reached(cfg, Shared(false), q) && AtServerWorker(q)
    ensures p.s.serverWorkers[0].ServerDelivered? ==> q.s.serverWorkers[0].Ready?
    ensures p.s.serverWorkers[0].Ready? ==> q.s.serverWorkers[0].ReplyPosted?
    ensures p.s.serverWorkers[0].ReplyPosted? ==> exists tag :: tag in q.s.responses
  {
    hide Inv, QueueOk, RunnerOk, Region, PolledRun, HandleRequest, HandlerAnswers, IsFrame, HeaderLength, Healthy;
    var x := ServerMoves(cfg, p.s, 0);
    assert x.Handle? || x.ServerPostSend? || x.ServerTransmit?;
    if x.Handle? {
      HandleStores(cfg, p.s, 0, x.scribble, x.reply, x.n);
    }
    Take(cfg, Shared(false), p, Plain(Server(x)));
    q := PolledApply(cfg, Shared(false), p, Plain(Server(x)));
    if x.ServerTransmit? {
      assert x.tag in q.s.responses;
    }
  }

  /** The response is in the client's region and dispatched; the completion of the send is still to come. */
  lemma ResponseDispatched(cfg: Config, p: Polled, tag: Tag) returns (q: Polled)
    requires Reached(cfg, Shared(false), p) && AtServerWorker(p) && tag in p.s.responses
    ensures Reached(cfg, Shared(false), q) && InPhase(q.s, 0, SendSent) && |q.s.calls| == 1
    ensures |q.s.workers| > 0 && q.s.workers[0].Delivered? && q.first.runner == Runner(None, Some(0))
  {
    hide Inv, QueueOk, RunnerOk, Region, PolledRun, IsFrame, Put, Healthy, SendRegionOk, HistoryInv;
    ResponseAt(cfg, p.s, tag);
    var deliver := Plain(Receiver(Deliver(tag, 0)));
    Take(cfg, Shared(false), p, deliver);
    var p1 := PolledApply(cfg, Shared(false), p, deliver);
    Take(cfg, Shared(false), p1, Plain(Receiver(DispatchRecv(0))));
    q := PolledApply(cfg, Shared(false), p1, Plain(Receiver(DispatchRecv(0))));
  }

  lemma ResponseCopied(cfg: Config, p: Polled) returns (q: Polled)
    requires Reached(cfg, Shared(false), p) && InPhase(p.s, 0, SendSent) && |p.s.calls| == 1
    requires |p.s.workers| > 0 && p.s.workers[0].Delivered? && p.first.runner == Runner(None, Some(0))
    ensures Reached(cfg, Shared(false), q) && InPhase(q.s, 0, SendSent) && |q.s.calls| == 1
    ensures |q.s.workers| > 0 && q.s.workers[0].Copied? && q.first.runner == Runner(None, Some(0))
  {
    hide Inv, QueueOk, RunnerOk, Region, PolledRun, MatchHeader, CopyLength, IsFrame, Healthy;
    ShapeOf(cfg, p.s);
    MatchFinds(cfg, p.s, 0);
    Take(cfg, Shared(false), p, Plain(Receiver(MatchStep(0))));
    var p1 := PolledApply(cfg, Shared(false), p, Plain(Receiver(MatchStep(0))));
    ShapeOf(cfg, p1.s);
    WorkerAt(cfg, p1.s, 0);
    CallAt(cfg, p1.s, p1.s.workers[0].origin);
    CopyFinds(cfg, p1.s, 0);
    Take(cfg, Shared(false), p1, Plain(Receiver(CopyStep(0))));
    q := PolledApply(cfg, Shared(false), p1, Plain(Receiver(CopyStep(0))));
  }

  lemma BlockedState(cfg: Config) returns (p: Polled)
    requires cfg.Valid() && HandlerAnswers(cfg)
    ensures Reached(cfg, Shared(false), p) && Blocked(p, 0, 0) && |p.s.calls| == 1
  {
    hide Reached, AtServerWorker, HandlerAnswers;
    p := RequestSent(cfg);
    p := RequestDelivered(cfg, p);
    p := TakeServer(cfg, p);
    p := TakeServer(cfg, p);
    p := TakeServer(cfg, p);
    var tag :| tag in p.s.responses;
    p := ResponseDispatched(cfg, p, tag);
    p := ResponseCopied(cfg, p);
    OriginIsOnlyCall(cfg, p);
  }

  lemma OriginIsOnlyCall(cfg: Config, p: Polled)
    requires Reached(cfg, Shared(false), p) && |p.s.calls| == 1 && |p.s.workers| > 0 && p.s.workers[0].Copied?
    ensures p.s.workers[0].origin == 0
  {
    WorkerAt(cfg, p.s, 0);
  }

  /**
   * For every configuration: a single call and no failure, yet a client with one poller can get blocked
   * when the response's completion overtakes the send's, and from there no continuation finishes the call.
   */
  lemma UnorderedCompletionsCanBlock(cfg: Config) returns (p: Polled)
    requires cfg.Valid() && HandlerAnswers(cfg)
    ensures PolledReachable(cfg, Shared(false), p) && |p.s.calls| == 1 && Healthy(p.s) && Blocked(p, 0, 0)
    ensures forall run, q :: PolledRun(cfg, Shared(false), p, run, q) ==>
              |q.s.calls| > 0 && !q.s.calls[0].phase.Finished?
  {
    hide PolledRun, PolledInv, HandlerAnswers;
    p := BlockedState(cfg);
    forall run, q | PolledRun(cfg, Shared(false), p, run, q)
      ensures |q.s.calls| > 0 && !q.s.calls[0].phase.Finished?
    {
      BlockedNeverFinishes(cfg, p, run, q, 0, 0);
    }
  }
}
