/** The RPC protocol refines "a call applies the handler". */
module RpcRefinement {
  import opened Bytes
  import opened Memory
  import opened Options
  import opened RpcModel
  import opened RpcInvariant
  import opened RpcPreservation

  // ---------------------------------------------------------------- the specification

  /** A call made with a request and a buffer: not applied yet, applied once, or returned. */
  datatype SpecCall =
    | Pending(request: Data, buffer: Data)
    | Applied(request: Data, buffer: Data, answer: Data)
    | Returned(request: Data, n: nat, buffer: Data)

  type Spec = seq<SpecCall>

  predicate SpecInvoke(a: Spec, b: Spec) {
    |b| == |a| + 1 && b[..|a|] == a && b[|a|].Pending?
  }

  /** The handler is applied, atomically and once, to the call's own request. */
  predicate SpecApply(cfg: Config, a: Spec, b: Spec, c: nat) {
    && c < |a| == |b| && a[c].Pending? && b[c].Applied?
    && b == a[c := Applied(a[c].request, a[c].buffer, b[c].answer)]
    && 0 < |b[c].answer| <= RECV_MSG
    && cfg.handles(a[c].request, b[c].answer)
  }

  /** The call returns the answer, cut to the caller's buffer; or 0 if it was never applied. */
  predicate SpecReturn(a: Spec, b: Spec, c: nat) {
    && c < |a| == |b|
    && match a[c]
       case Applied(request, buffer, answer) =>
         b == a[c := Returned(request, Min(|answer|, |buffer|), CopyInto(buffer, answer))]
       case Pending(request, buffer) => b == a[c := Returned(request, 0, buffer)]
       case Returned(_, _, _) => false
  }

  ghost predicate SpecNext(cfg: Config, a: Spec, b: Spec) {
    SpecInvoke(a, b) || (exists c: nat :: SpecApply(cfg, a, b, c) || SpecReturn(a, b, c))
  }

  /** A behaviour of the specification: it starts empty and moves by its steps or stands still. */
  ghost predicate SpecBehaviour(cfg: Config, trace: seq<Spec>) {
    && |trace| > 0 && trace[0] == []
    && forall i: nat :: i + 1 < |trace| ==> trace[i] == trace[i + 1] || SpecNext(cfg, trace[i], trace[i + 1])
  }

  // ---------------------------------------------------------------- the abstraction

  function AbsCall(call: Call): SpecCall {
    if call.phase.Finished? then Returned(call.request, call.phase.n, call.buffer)
    else if call.handled == [] then Pending(call.request, call.initial)
    else Applied(call.request, call.initial, call.handled[0])
  }

  function Abs(s: State): (a: Spec)
    ensures |a| == |s.calls|
  {
    seq(|s.calls|, c requires 0 <= c < |s.calls| => AbsCall(s.calls[c]))
  }

  /** A step that changes at most call c, and not what the specification sees of it. */
  lemma Stutter(s: State, t: State, c: CallId)
    requires |t.calls| == |s.calls|
    requires forall d: CallId :: d < |s.calls| && d != c ==> t.calls[d] == s.calls[d]
    requires c < |s.calls| ==> AbsCall(t.calls[c]) == AbsCall(s.calls[c])
    ensures Abs(t) == Abs(s)
  {
  }

  lemma CallerStutters(cfg: Config, s: State, step: CallerStep)
    requires CallerEnabled(s, step) && !step.Invoke? && !step.ReturnSlot?
    ensures Abs(ApplyCaller(cfg, s, step)) == Abs(s)
  {
    hide Region, TakeSlot, TakeNumber, InitSlot, FillRequest, StoreWaiter, GiveSlot;
    Stutter(s, ApplyCaller(cfg, s, step), step.c);
  }

  lemma CallerRefines(cfg: Config, s: State, step: CallerStep)
    requires Inv(cfg, s) && CallerEnabled(s, step)
    ensures var t := ApplyCaller(cfg, s, step);
            Abs(t) == Abs(s) || SpecNext(cfg, Abs(s), Abs(t))
  {
    hide CallsInv, FieldsInv, SendRegionsInv, TokensInv, SlotsInv, RequestsInv, ResponsesInv, ServerInv, WorkersInv;
    hide Region, TakeSlot, TakeNumber, InitSlot, FillRequest, StoreWaiter, GiveSlot, CopyInto, SpecNext;
    var t := ApplyCaller(cfg, s, step);
    match step
    case Invoke(request, buffer) =>
      assert Abs(t) == Abs(s) + [Pending(request, buffer)];
      assert SpecInvoke(Abs(s), Abs(t));
      InvokeIsNext(cfg, Abs(s), Abs(t));
    case ReturnSlot(c) =>
      CallAt(cfg, s, c);
      assert Abs(t) == Abs(s)[c := AbsCall(t.calls[c])];
      assert SpecReturn(Abs(s), Abs(t), c);
      ReturnIsNext(cfg, Abs(s), Abs(t), c);
    case _ => CallerStutters(cfg, s, step);
  }

  lemma InvokeIsNext(cfg: Config, a: Spec, b: Spec)
    requires SpecInvoke(a, b)
    ensures SpecNext(cfg, a, b)
  {
  }

  lemma ReturnIsNext(cfg: Config, a: Spec, b: Spec, c: nat)
    requires SpecReturn(a, b, c)
    ensures SpecNext(cfg, a, b)
  {
  }

  lemma ReceiverRefines(cfg: Config, s: State, step: ReceiverStep)
    requires Inv(cfg, s) && ReceiverEnabled(s, step)
    ensures Abs(ApplyReceiver(cfg, s, step)) == Abs(s)
  {
    hide CallsInv, FieldsInv, SendRegionsInv, TokensInv, SlotsInv, RequestsInv, ResponsesInv, ServerInv, WorkersInv;
    hide Region, MatchHeader, CopyLength, SetActual, CopyInto, IsFrame;
    var t := ApplyReceiver(cfg, s, step);
    match step
    case Deliver(tag, w) =>
      ResponseAt(cfg, s, tag);
      Stutter(s, t, s.responses[tag].origin);
    case CopyStep(w) =>
      WorkerAt(cfg, s, w);
      CopyFinds(cfg, s, w);
      CallAt(cfg, s, s.workers[w].origin);
      Stutter(s, t, s.workers[w].origin);
    case Resume(w) =>
      WorkerAt(cfg, s, w);
      Stutter(s, t, s.workers[w].origin);
    case _ => Stutter(s, t, 0);
  }

  lemma ServerRefines(cfg: Config, s: State, step: ServerStep)
    requires Inv(cfg, s) && ServerEnabled(cfg, s, step)
    ensures var t := ApplyServer(cfg, s, step);
            Abs(t) == Abs(s) || SpecNext(cfg, Abs(s), Abs(t))
  {
    hide CallsInv, FieldsInv, SendRegionsInv, TokensInv, SlotsInv, RequestsInv, ResponsesInv, ServerInv, WorkersInv;
    hide Region, HandleRequest, HeaderLength, IsFrame;
    var t := ApplyServer(cfg, s, step);
    match step
    case ServerDeliver(tag, w) =>
      RequestAt(cfg, s, tag);
      Stutter(s, t, s.requests[tag].origin);
    case Handle(w, scribble, reply, n) =>
      ServerWorkerAt(cfg, s, w);
      HandleStores(cfg, s, w, scribble, reply, n);
      var c := s.serverWorkers[w].origin;
      CallAt(cfg, s, c);
      assert t.calls[c].handled == [reply[..n]];
      assert Abs(t) == Abs(s)[c := AbsCall(t.calls[c])];
      assert SpecApply(cfg, Abs(s), Abs(t), c);
    case ServerPostSendFail(w) =>
      ServerWorkerAt(cfg, s, w);
      Stutter(s, t, s.serverWorkers[w].origin);
    case ServerTransmit(w, tag) =>
      ServerWorkerAt(cfg, s, w);
      Stutter(s, t, s.serverWorkers[w].origin);
    case ServerErrSend(w) =>
      ServerWorkerAt(cfg, s, w);
      Stutter(s, t, s.serverWorkers[w].origin);
    case _ => Stutter(s, t, 0);
  }

  /** Every step of the protocol is a step of the specification, or invisible to it. */
  lemma StepRefines(cfg: Config, s: State, step: Step)
    requires Inv(cfg, s) && Enabled(cfg, s, step)
    ensures var t := Apply(cfg, s, step);
            Abs(t) == Abs(s) || SpecNext(cfg, Abs(s), Abs(t))
  {
    hide Inv, CallerEnabled, ReceiverEnabled, ServerEnabled, ApplyCaller, ApplyReceiver, ApplyServer, SpecNext, Abs;
    match step
    case Caller(caller) => CallerRefines(cfg, s, caller);
    case Receiver(receiver) => ReceiverRefines(cfg, s, receiver);
    case Server(server) => ServerRefines(cfg, s, server);
  }

  /** The states that a run passes through, as the specification sees them. */
  function AbsTrace(cfg: Config, s: State, run: seq<Step>): (trace: seq<Spec>)
    ensures |trace| > 0 && trace[0] == Abs(s)
    decreases |run|
  {
    if run == [] || !Enabled(cfg, s, run[0]) then [Abs(s)]
    else [Abs(s)] + AbsTrace(cfg, Apply(cfg, s, run[0]), run[1..])
  }

  lemma {:induction false} TraceMoves(cfg: Config, s: State, run: seq<Step>, t: State)
    requires Inv(cfg, s) && Run(cfg, s, run, t)
    ensures var trace := AbsTrace(cfg, s, run);
            && trace[|trace| - 1] == Abs(t)
            && forall i: nat :: i + 1 < |trace| ==> trace[i] == trace[i + 1] || SpecNext(cfg, trace[i], trace[i + 1])
    decreases |run|
  {
    hide Inv, Enabled, Apply, SpecNext, Abs;
    if run != [] {
      StepInv(cfg, s, run[0]);
      StepRefines(cfg, s, run[0]);
      TraceMoves(cfg, Apply(cfg, s, run[0]), run[1..], t);
    }
  }

  /** Every run of client, network and server is, seen from its callers, a behaviour of the specification. */
  lemma RunRefines(cfg: Config, s: State, run: seq<Step>, t: State)
    requires cfg.Valid() && Initial(cfg, s) && Run(cfg, s, run, t)
    ensures SpecBehaviour(cfg, AbsTrace(cfg, s, run))
    ensures var trace := AbsTrace(cfg, s, run); trace[|trace| - 1] == Abs(t)
  {
    hide Inv, Run, SpecNext, AbsTrace;
    InitialInv(cfg, s);
    TraceMoves(cfg, s, run, t);
  }
}
