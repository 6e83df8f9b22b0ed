/** A call whose send fails: the run exists, for every request and every buffer. */
module RpcFailedSend {
  import opened Bytes
  import opened Memory
  import opened Options
  import opened RpcModel
  import opened RpcInvariant
  import opened RpcPreservation
  import opened RpcSafety
  import L = RpcLiveness

  lemma {:induction false} RunThen(cfg: Config, s: State, run: seq<Step>, t: State, step: Step)
    requires Run(cfg, s, run, t) && Enabled(cfg, t, step)
    ensures Run(cfg, s, run + [step], Apply(cfg, t, step))
    decreases |run|
  {
    hide Enabled, Apply;
    if run == [] {
      assert (run + [step])[1..] == [];
    } else {
      assert (run + [step])[1..] == run[1..] + [step];
      RunThen(cfg, Apply(cfg, s, run[0]), run[1..], t, step);
    }
  }

  /** The only call, in a phase, with its request and its buffer as they were given. */
  predicate Snap(cfg: Config, s: State, run: seq<Step>, t: State, request: Data, buffer: Data, phase: Phase) {
    && Run(cfg, s, run, t) && t.fault == NoFault && |t.calls| == 1 && t.calls[0].phase == phase
    && t.calls[0].request == request && t.calls[0].initial == buffer == t.calls[0].buffer
    && (!phase.Entering? ==> t.calls[0].slot == 0) && 0 < |t.client.slots|
  }

  /** The call's next step. */
  lemma Next(cfg: Config, s: State, run: seq<Step>, t: State, request: Data, buffer: Data, phase: Phase,
             step: CallerStep, next: Phase) returns (run': seq<Step>, t': State)
    requires Snap(cfg, s, run, t, request, buffer, phase)
    requires match step
             case Number(0) => phase == Dequeued && next == Numbered
             case Init(0) => phase == Numbered && next == Initialised
             case Fill(0) => phase == Initialised && next == Filled
             case PostSend(0) => phase == Filled && next == SendPosted
             case PostSendFail(0) => phase == Filled && next == Returning(0)
             case ErrSend(0) => phase == SendPosted && next == SendErred
             case DispatchSend(0) => phase == SendErred && next == Returning(0)
             case ReturnSlot(0) => phase == Returning(0) && next == Finished(0)
             case _ => false
    ensures run' == run + [Caller(step)] && Snap(cfg, s, run', t', request, buffer, next)
  {
    hide Run, TakeNumber, InitSlot, FillRequest, GiveSlot;
    run', t' := run + [Caller(step)], Apply(cfg, t, Caller(step));
    RunThen(cfg, s, run, t, Caller(step));
    SlotsStay(cfg, t, step);
  }

  lemma SlotsStay(cfg: Config, s: State, step: CallerStep)
    requires CallerEnabled(s, step)
    ensures |ApplyCaller(cfg, s, step).client.slots| == |s.client.slots|
  {
    hide Region, PutFrame;
  }

  /** A call up to the point where it posts its send. */
  lemma UpToPost(cfg: Config, request: Data, buffer: Data) returns (s: State, run: seq<Step>, t: State)
    requires cfg.Valid() && |request| <= SEND_MSG
    ensures Initial(cfg, s) && Snap(cfg, s, run, t, request, buffer, Filled)
  {
    hide Run, Snap, Initial;
    s, run, t := Entered(cfg, request, buffer);
    run, t := Next(cfg, s, run, t, request, buffer, Dequeued, Number(0), Numbered);
    run, t := Next(cfg, s, run, t, request, buffer, Numbered, Init(0), Initialised);
    run, t := Next(cfg, s, run, t, request, buffer, Initialised, Fill(0), Filled);
  }

  lemma Entered(cfg: Config, request: Data, buffer: Data) returns (s: State, run: seq<Step>, t: State)
    requires cfg.Valid() && |request| <= SEND_MSG
    ensures Initial(cfg, s) && Snap(cfg, s, run, t, request, buffer, Dequeued)
  {
    s := L.Start(cfg).s;
    UpToOnce(cfg.inflight, 0);
    var a := Caller(Invoke(request, buffer));
    var u := Apply(cfg, s, a);
    var b := Caller(Dequeue(0, 0));
    assert Run(cfg, s, [], s);
    RunThen(cfg, s, [], s, a);
    RunThen(cfg, s, [] + [a], u, b);
    run, t := [] + [a] + [b], Apply(cfg, u, b);
  }

  /**
   * For every configuration, request and buffer: a run of one call whose send fails, at the post or at
   * its completion, and which returns 0 and leaves the buffer as it was.
   */
  lemma FailedSendReturnsZero(cfg: Config, request: Data, buffer: Data, posted: bool)
    returns (s: State, run: seq<Step>, t: State)
    requires cfg.Valid() && |request| <= SEND_MSG
    ensures Initial(cfg, s) && Run(cfg, s, run, t) && |t.calls| == 1
    ensures t.calls[0].phase == Finished(0) && t.calls[0].request == request
    ensures t.calls[0].initial == buffer == t.calls[0].buffer
    ensures (if posted then Caller(ErrSend(0)) else Caller(PostSendFail(0))) in run && SendFailed(run, 0)
  {
    hide Run, Initial, Snap, SendFailed;
    s, run, t := UpToPost(cfg, request, buffer);
    if posted {
      run, t := Next(cfg, s, run, t, request, buffer, Filled, PostSend(0), SendPosted);
      run, t := Next(cfg, s, run, t, request, buffer, SendPosted, ErrSend(0), SendErred);
      run, t := Next(cfg, s, run, t, request, buffer, SendErred, DispatchSend(0), Returning(0));
    } else {
      run, t := Next(cfg, s, run, t, request, buffer, Filled, PostSendFail(0), Returning(0));
    }
    run, t := Next(cfg, s, run, t, request, buffer, Returning(0), ReturnSlot(0), Finished(0));
    Contains(run, if posted then Caller(ErrSend(0)) else Caller(PostSendFail(0)));
    SnapIs(cfg, s, run, t, request, buffer, Finished(0));
  }

  lemma Contains(run: seq<Step>, step: Step)
    requires step in run && FailsSend(step, 0)
    ensures SendFailed(run, 0)
  {
  }

  lemma SnapIs(cfg: Config, s: State, run: seq<Step>, t: State, request: Data, buffer: Data, phase: Phase)
    requires Snap(cfg, s, run, t, request, buffer, phase)
    ensures Run(cfg, s, run, t) && |t.calls| == 1 && t.calls[0].phase == phase && t.calls[0].request == request
    ensures t.calls[0].initial == buffer == t.calls[0].buffer
  {
    hide Run;
  }
}
