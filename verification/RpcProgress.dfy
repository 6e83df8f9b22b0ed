/** Every step of the RPC protocol makes progress, and calls under way never get stuck. */
module RpcProgress {
  import opened Bytes
  import opened Memory
  import opened Options
  import opened RpcModel
  import opened RpcInvariant
  import opened RpcPreservation

  // ---------------------------------------------------------------- a measure

  function PhaseRank(phase: Phase): nat {
    match phase
    case Entering => 12
    case Dequeued => 11
    case Numbered => 10
    case Initialised => 9
    case Filled => 8
    case SendPosted => 7
    case SendSent => 6
    case SendAcked => 5
    case SendErred => 5
    case SendDone => 4
    case Waiting => 3
    case Resumed => 2
    case Returning(_) => 1
    case Finished(_) => 0
  }

  function TokenRank(token: Token): nat {
    match token
    case Unsent => 5
    case OnRequestWire(_) => 4
    case AtServer(_) => 3
    case OnResponseWire(_) => 2
    case AtClient(_) => 1
    case Spent => 0
    case Lost => 0
  }

  function CallRank(call: Call): nat {
    PhaseRank(call.phase) + 8 * TokenRank(call.token)
  }

  function StageRank(stage: Stage): nat {
    match stage
    case Completed(_, _) => 7
    case Delivered(_, _) => 6
    case Matched(_, _) => 5
    case Copied(_, _) => 4
    case Loaded(_, _) => 3
    case Idle => 2
    case Posted => 1
    case Dead => 0
  }

  function ServerRank(stage: ServerStage): nat {
    match stage
    case ServerDelivered(_, _) => 6
    case Ready(_, _) => 5
    case ReplyPosted(_, _) => 4
    case ReplySent => 3
    case ServerIdle => 2
    case ServerPosted => 1
    case ServerDead => 0
  }

  function Sum<T>(f: T -> nat, xs: seq<T>): nat {
    if xs == [] then 0 else Sum(f, xs[..|xs| - 1]) + f(xs[|xs| - 1])
  }

  lemma {:induction false} SumUpdate<T>(f: T -> nat, xs: seq<T>, i: nat, x: T)
    requires i < |xs|
    ensures Sum(f, xs[i := x]) == Sum(f, xs) - f(xs[i]) + f(x)
  {
    var n := |xs| - 1;
    if i == n {
      assert xs[i := x][..n] == xs[..n];
    } else {
      assert xs[i := x][..n] == xs[..n][i := x];
      SumUpdate(f, xs[..n], i, x);
    }
  }

  /** How far the system is from having nothing left to do. */
  function Measure(s: State): nat {
    Sum(CallRank, s.calls) + Sum(StageRank, s.workers) + Sum(ServerRank, s.serverWorkers)
  }

  lemma MeasureOne(s: State, t: State, c: CallId)
    requires c < |s.calls| == |t.calls| && t.calls == s.calls[c := t.calls[c]]
    requires t.workers == s.workers && t.serverWorkers == s.serverWorkers
    ensures Measure(t) == Measure(s) - CallRank(s.calls[c]) + CallRank(t.calls[c])
  {
    SumUpdate(CallRank, s.calls, c, t.calls[c]);
  }

  lemma MeasureWorker(s: State, t: State, w: nat, c: CallId)
    requires w < |s.workers| == |t.workers| && t.workers == s.workers[w := t.workers[w]]
    requires c < |s.calls| == |t.calls| && t.calls == s.calls[c := t.calls[c]]
    requires t.serverWorkers == s.serverWorkers
    ensures Measure(t)
            == Measure(s) - CallRank(s.calls[c]) + CallRank(t.calls[c])
               - StageRank(s.workers[w]) + StageRank(t.workers[w])
  {
    SumUpdate(CallRank, s.calls, c, t.calls[c]);
    SumUpdate(StageRank, s.workers, w, t.workers[w]);
  }

  lemma MeasureStage(s: State, w: nat, stage: Stage)
    requires w < |s.workers|
    ensures Measure(SetStage(s, w, stage)) == Measure(s) - StageRank(s.workers[w]) + StageRank(stage)
  {
    SumUpdate(StageRank, s.workers, w, stage);
  }

  lemma MeasureServerStage(s: State, w: nat, stage: ServerStage)
    requires w < |s.serverWorkers|
    ensures Measure(SetServerStage(s, w, stage)) == Measure(s) - ServerRank(s.serverWorkers[w]) + ServerRank(stage)
  {
    SumUpdate(ServerRank, s.serverWorkers, w, stage);
  }

  lemma MeasureServer(s: State, t: State, w: nat, c: CallId)
    requires w < |s.serverWorkers| == |t.serverWorkers| && t.serverWorkers == s.serverWorkers[w := t.serverWorkers[w]]
    requires c < |s.calls| == |t.calls| && t.calls == s.calls[c := t.calls[c]]
    requires t.workers == s.workers
    ensures Measure(t) == Measure(s) - CallRank(s.calls[c]) + CallRank(t.calls[c])
                          - ServerRank(s.serverWorkers[w]) + ServerRank(t.serverWorkers[w])
  {
    SumUpdate(CallRank, s.calls, c, t.calls[c]);
    SumUpdate(ServerRank, s.serverWorkers, w, t.serverWorkers[w]);
  }

  /** A step of a call moves that call to a later phase, and no other call, and no worker. */
  lemma CallerMovesOne(cfg: Config, s: State, step: CallerStep)
    requires CallerEnabled(s, step) && !step.Invoke?
    requires step.Transmit? ==> s.calls[step.c].token.Unsent?
    ensures var t := ApplyCaller(cfg, s, step);
            && step.c < |s.calls| == |t.calls| && t.calls == s.calls[step.c := t.calls[step.c]]
            && CallRank(t.calls[step.c]) < CallRank(s.calls[step.c])
            && t.workers == s.workers && t.serverWorkers == s.serverWorkers
  {
    hide Region, TakeSlot, TakeNumber, InitSlot, FillRequest, StoreWaiter, GiveSlot;
  }

  lemma CallerDecreases(cfg: Config, s: State, step: CallerStep)
    requires Inv(cfg, s) && CallerEnabled(s, step) && !step.Invoke?
    ensures Measure(ApplyCaller(cfg, s, step)) < Measure(s)
  {
    hide ApplyCaller, Measure, CallRank;
    if step.Transmit? {
      CallAt(cfg, s, step.c);
    }
    CallerMovesOne(cfg, s, step);
    MeasureOne(s, ApplyCaller(cfg, s, step), step.c);
  }

  lemma ReceiverDecreases(cfg: Config, s: State, step: ReceiverStep)
    requires Inv(cfg, s) && ReceiverEnabled(s, step)
    ensures Measure(ApplyReceiver(cfg, s, step)) < Measure(s)
  {
    hide CallsInv, FieldsInv, SendRegionsInv, TokensInv, SlotsInv, RequestsInv, ResponsesInv, ServerInv, WorkersInv;
    hide IsFrame, SetActual, Measure, SetStage, MatchHeader, CopyLength;
    match step
    case PostRecv(w) => MeasureStage(s, w, Posted);
    case FailRecv(w) => MeasureStage(s, w, Dead);
    case Deliver(tag, w) => DeliverDecreases(cfg, s, tag, w);
    case DispatchRecv(w) => MeasureStage(s, w, Delivered(s.workers[w].nbytes, s.workers[w].origin));
    case MatchStep(w) =>
      MatchFinds(cfg, s, w);
      MeasureStage(s, w, Matched(s.calls[s.workers[w].origin].slot, s.workers[w].origin));
    case CopyStep(w) => CopyDecreases(cfg, s, w);
    case LoadWaiter(w) =>
      MeasureStage(s, w, Loaded(s.client.slots[s.workers[w].slot].waiter.value, s.workers[w].origin));
    case Resume(w) => ResumeDecreases(cfg, s, w);
  }

  lemma DeliverDecreases(cfg: Config, s: State, tag: Tag, w: nat)
    requires Inv(cfg, s) && ReceiverEnabled(s, Deliver(tag, w))
    ensures Measure(DoDeliver(s, tag, w)) < Measure(s)
  {
    hide IsFrame, Measure;
    ResponseAt(cfg, s, tag);
    MeasureWorker(s, DoDeliver(s, tag, w), w, s.responses[tag].origin);
  }

  lemma CopyDecreases(cfg: Config, s: State, w: nat)
    requires Inv(cfg, s) && ReceiverEnabled(s, CopyStep(w))
    ensures Measure(DoCopy(cfg, s, w)) < Measure(s)
  {
    hide CallsInv, FieldsInv, SendRegionsInv, TokensInv, SlotsInv, RequestsInv, ResponsesInv, ServerInv, WorkersInv;
    hide IsFrame, Measure, CopyLength, SetActual;
    CopyFinds(cfg, s, w);
    MeasureWorker(s, DoCopy(cfg, s, w), w, s.workers[w].origin);
  }

  lemma ResumeDecreases(cfg: Config, s: State, w: nat)
    requires Inv(cfg, s) && ReceiverEnabled(s, Resume(w))
    ensures Measure(DoResume(s, w)) < Measure(s)
  {
    hide IsFrame, Measure;
    WorkerAt(cfg, s, w);
    MeasureWorker(s, DoResume(s, w), w, s.workers[w].origin);
  }

  lemma ServerDecreases(cfg: Config, s: State, step: ServerStep)
    requires Inv(cfg, s) && ServerEnabled(cfg, s, step)
    ensures Measure(ApplyServer(cfg, s, step)) < Measure(s)
  {
    hide CallsInv, FieldsInv, SendRegionsInv, TokensInv, SlotsInv, RequestsInv, ResponsesInv, ServerInv, WorkersInv;
    hide IsFrame, HandleRequest, Measure, HeaderLength;
    var t := ApplyServer(cfg, s, step);
    match step
    case ServerPostRecv(w) => MeasureServerStage(s, w, ServerPosted);
    case ServerFailRecv(w) => MeasureServerStage(s, w, ServerDead);
    case ServerAckSend(w) => MeasureServerStage(s, w, ServerIdle);
    case ServerPostSend(w) => MeasureServerStage(s, w, ReplyPosted(s.serverWorkers[w].n, s.serverWorkers[w].origin));
    case ServerDeliver(tag, w) =>
      RequestAt(cfg, s, tag);
      MeasureServer(s, t, w, s.requests[tag].origin);
    case Handle(w, scribble, reply, n) =>
      HandleStores(cfg, s, w, scribble, reply, n);
      MeasureServer(s, t, w, s.serverWorkers[w].origin);
    case _ =>
      ServerWorkerAt(cfg, s, step.w);
      MeasureServer(s, t, step.w, s.serverWorkers[step.w].origin);
  }

  /** Every step but a new call brings the system strictly closer to rest. */
  lemma StepDecreases(cfg: Config, s: State, step: Step)
    requires Inv(cfg, s) && Enabled(cfg, s, step) && !(step.Caller? && step.caller.Invoke?)
    ensures Measure(Apply(cfg, s, step)) < Measure(s)
  {
    hide Inv, CallerEnabled, ReceiverEnabled, ServerEnabled, ApplyCaller, ApplyReceiver, ApplyServer, Measure;
    match step
    case Caller(caller) => CallerDecreases(cfg, s, caller);
    case Receiver(receiver) => ReceiverDecreases(cfg, s, receiver);
    case Server(server) => ServerDecreases(cfg, s, server);
  }
}
