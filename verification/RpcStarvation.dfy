/**
 * Why the number of callers matters to a client on poller threads: a call that returns on the receiving
 * thread may go on to the next call there, and spin for a slot that only this thread could free. When
 * that happens, that it lasts, and that it can happen exactly with more callers than slots.
 */
module RpcStarvation {
  import opened Bytes
  import opened Memory
  import opened Options
  import opened RpcModel
  import opened RpcInvariant
  import opened RpcPreservation
  import opened RpcProgress
  import opened RpcCredits
  import opened RpcPoller
  import opened RpcLiveness

  // ---------------------------------------------------------------- the blocked state

  /** A call in this phase returns its slot without the receiving thread. */
  predicate Releases(mode: Pollers, phase: Phase) {
    phase.Returning? || (mode.Separate? && phase.SendErred?)
  }

  /** The receiving thread runs call c, which looks for a slot; there is none and none will come back. */
  predicate PoolBlocked(mode: Pollers, p: Polled, c: CallId) {
    && RunsCall(p, Receiving(mode), c) && InPhase(p.s, c, Entering) && p.s.client.free == multiset{}
    && forall d: CallId :: d < |p.s.calls| ==> !Releases(mode, p.s.calls[d].phase)
  }

  /** No failure; new calls are allowed. */
  predicate Unfailing(m: Move) {
    RegularMove(m) || (StepOf(m).Caller? && StepOf(m).caller.Invoke?)
  }

  predicate AllUnfailing(run: seq<Move>) {
    forall i :: 0 <= i < |run| ==> Unfailing(run[i])
  }

  /** None of the calls under way returns. */
  predicate NoneReturns(s: State, t: State) {
    && |s.calls| <= |t.calls|
    && forall c: CallId :: c < |s.calls| && !s.calls[c].phase.Finished? ==> !t.calls[c].phase.Finished?
  }

  lemma BlockedByCaller(cfg: Config, mode: Pollers, p: Polled, m: Move, c: CallId)
    requires PoolBlocked(mode, p, c) && PolledEnabled(cfg, mode, p, m) && Unfailing(m) && StepOf(m).Caller?
    requires forall d: CallId :: InPhase(p.s, d, Resumed) ==> d == c
    ensures PoolBlocked(mode, PolledApply(cfg, mode, p, m), c)
    ensures NoneReturns(p.s, PolledApply(cfg, mode, p, m).s)
  {
    hide Region, ApplyCaller;
    var step := StepOf(m).caller;
    assert Quiet(p.s, step);
    CallerFree(cfg, p.s, step);
    CallerPhases(cfg, mode, p.s, step, c);
  }

  /** A step of a call that neither takes nor gives a slot nor lets the call return. */
  predicate Quiet(s: State, step: CallerStep)
    requires CallerEnabled(s, step)
  {
    && !step.Dequeue? && !step.ReturnSlot? && !step.ReadLength? && !step.PostSendFail? && !step.ErrSend?
    && (step.DispatchSend? ==> s.calls[step.c].phase.SendAcked?)
  }

  lemma CallerFree(cfg: Config, s: State, step: CallerStep)
    requires CallerEnabled(s, step) && Quiet(s, step)
    ensures ApplyCaller(cfg, s, step).client.free == s.client.free
  {
    hide Region, PutFrame;
  }

  lemma CallerPhases(cfg: Config, mode: Pollers, s: State, step: CallerStep, c: CallId)
    requires CallerEnabled(s, step) && Quiet(s, step) && InPhase(s, c, Entering)
    requires forall d: CallId :: d < |s.calls| ==> !Releases(mode, s.calls[d].phase)
    ensures var t := ApplyCaller(cfg, s, step);
            && NoneReturns(s, t) && InPhase(t, c, Entering)
            && forall d: CallId :: d < |t.calls| ==> !Releases(mode, t.calls[d].phase)
  {
    hide Region, TakeSlot, TakeNumber, InitSlot, FillRequest, StoreWaiter, GiveSlot;
  }

  lemma BlockedByReceiver(cfg: Config, mode: Pollers, p: Polled, step: ReceiverStep, c: CallId)
    requires PoolBlocked(mode, p, c) && PolledEnabled(cfg, mode, p, Plain(Receiver(step)))
    requires forall w: nat :: w < |p.s.workers| && Running(p.s.workers[w]) ==> !RunsCall(p, Receiving(mode), c)
    ensures PoolBlocked(mode, PolledApply(cfg, mode, p, Plain(Receiver(step))), c)
    ensures NoneReturns(p.s, PolledApply(cfg, mode, p, Plain(Receiver(step))).s)
  {
    hide Region, MatchHeader, CopyLength, SetActual, Put;
  }

  /** What the invariant says of a thread that runs a call which has not been resumed by a worker. */
  lemma OnlyCall(mode: Pollers, p: Polled, c: CallId)
    requires ThreadsInv(mode, p) && RunsCall(p, Receiving(mode), c)
    ensures forall d: CallId :: InPhase(p.s, d, Resumed) ==> d == c
    ensures forall w: nat :: w < |p.s.workers| && Running(p.s.workers[w]) ==> !RunsCall(p, Receiving(mode), c)
  {
    hide QueueOk, OrderInv;
  }

  lemma ServerFrees(cfg: Config, s: State, step: ServerStep)
    requires ServerEnabled(cfg, s, step)
    ensures ApplyServer(cfg, s, step).client == s.client
  {
    hide Region, HandleRequest, HeaderLength;
  }

  /** A blocked thread stays blocked, whatever anybody does without failing, and no call under way returns. */
  lemma BlockedStep(cfg: Config, mode: Pollers, p: Polled, m: Move, c: CallId)
    requires PolledInv(cfg, mode, p) && PoolBlocked(mode, p, c) && PolledEnabled(cfg, mode, p, m) && Unfailing(m)
    ensures PoolBlocked(mode, PolledApply(cfg, mode, p, m), c) && NoneReturns(p.s, PolledApply(cfg, mode, p, m).s)
  {
    hide Inv, ThreadsInv;
    OnlyCall(mode, p, c);
    match StepOf(m)
    case Caller(_) => BlockedByCaller(cfg, mode, p, m, c);
    case Receiver(x) => BlockedByReceiver(cfg, mode, p, x, c);
    case Server(x) =>
      ServerObserved(cfg, p.s, x);
      ServerFrees(cfg, p.s, x);
  }

  lemma {:induction false} BlockedForever(cfg: Config, mode: Pollers, p: Polled, run: seq<Move>, q: Polled, c: CallId)
    requires PolledInv(cfg, mode, p) && PoolBlocked(mode, p, c) && PolledRun(cfg, mode, p, run, q) && AllUnfailing(run)
    ensures PoolBlocked(mode, q, c) && NoneReturns(p.s, q.s)
    decreases |run|
  {
    hide PolledInv, PolledEnabled, PolledApply, PoolBlocked, Unfailing;
    if run != [] {
      assert Unfailing(run[0]);
      PolledStepInv(cfg, mode, p, run[0]);
      BlockedStep(cfg, mode, p, run[0], c);
      BlockedForever(cfg, mode, PolledApply(cfg, mode, p, run[0]), run[1..], q, c);
    }
  }

  /** A continuation without failures in which call c gets a slot. */
  ghost predicate GetsSlot(cfg: Config, mode: Pollers, p: Polled, c: CallId) {
    exists run, q :: PolledRun(cfg, mode, p, run, q) && AllUnfailing(run) && InPhase(q.s, c, Dequeued)
  }

  lemma OneStep(cfg: Config, mode: Pollers, p: Polled, m: Move)
    requires PolledEnabled(cfg, mode, p, m) && Unfailing(m)
    ensures PolledRun(cfg, mode, p, [m], PolledApply(cfg, mode, p, m)) && AllUnfailing([m])
  {
    hide PolledEnabled, PolledApply;
    assert [m][1..] == [];
  }

  /**
   * With one thread, whatever the order of completions: a call that looks for a slot on the thread can
   * still get one, without failures, if and only if there is a free slot or some call is returning one.
   */
  lemma SlotComesExactlyIf(cfg: Config, ordered: bool, p: Polled, c: CallId)
    requires cfg.Valid() && PolledReachable(cfg, Shared(ordered), p) && RunsCall(p, First, c)
    requires InPhase(p.s, c, Entering)
    ensures GetsSlot(cfg, Shared(ordered), p, c) <==> !PoolBlocked(Shared(ordered), p, c)
  {
    var mode := Shared(ordered);
    hide PolledReachable, ThreadsInv, Inv, PolledRun;
    PolledReachableInv(cfg, mode, p);
    ShapeOf(cfg, p.s);
    if PoolBlocked(mode, p, c) {
      forall run, q | PolledRun(cfg, mode, p, run, q) && AllUnfailing(run)
        ensures !InPhase(q.s, c, Dequeued)
      {
        BlockedForever(cfg, mode, p, run, q, c);
      }
    } else if slot :| slot in p.s.client.free {
      OneStep(cfg, mode, p, Plain(Caller(Dequeue(c, slot))));
    } else {
      var d: CallId :| d < |p.s.calls| && p.s.calls[d].phase.Returning?;
      ReturnAndTake(cfg, mode, p, c, d);
    }
  }

  lemma ReturnAndTake(cfg: Config, mode: Pollers, p: Polled, c: CallId, d: CallId)
    requires p.s.fault == NoFault && InPhase(p.s, c, Entering) && d < |p.s.calls| && p.s.calls[d].phase.Returning?
    ensures GetsSlot(cfg, mode, p, c)
  {
    var m := Plain(Caller(ReturnSlot(d)));
    var q := PolledApply(cfg, mode, p, m);
    OneStep(cfg, mode, p, m);
    var n := Plain(Caller(Dequeue(c, p.s.calls[d].slot)));
    hide PolledRun;
    assert PolledEnabled(cfg, mode, q, n);
    RunThen(cfg, mode, p, [m], q, n);
    assert AllUnfailing([m] + [n]);
  }

  // ---------------------------------------------------------------- a run into it

  /** Every call has returned, or has just taken a slot. */
  predicate Simple(p: Polled) {
    forall d: CallId :: d < |p.s.calls| ==> p.s.calls[d].phase.Finished? || p.s.calls[d].phase.Dequeued?
  }

  /** A call that returns does so on the receiving thread: no send has failed. */
  predicate Tidy(mode: Pollers, p: Polled) {
    forall d: CallId :: d < |p.s.calls| ==>
      !p.s.calls[d].phase.SendErred? && (p.s.calls[d].phase.Returning? ==> RunsCall(p, Receiving(mode), d))
  }

  lemma TidyStep(cfg: Config, mode: Pollers, p: Polled, m: Move)
    requires PolledInv(cfg, mode, p) && Tidy(mode, p) && PolledEnabled(cfg, mode, p, m) && RegularMove(m)
    ensures Tidy(mode, PolledApply(cfg, mode, p, m))
  {
    hide Inv, ThreadsInv, CallerEnabled, ReceiverEnabled, ServerEnabled, ApplyCaller, ApplyReceiver, ApplyServer;
    match m.step
    case Caller(x) => TidyCaller(cfg, mode, p, x);
    case Receiver(x) => TidyReceiver(cfg, mode, p, x);
    case Server(x) => ServerObserved(cfg, p.s, x);
  }

  lemma TidyCaller(cfg: Config, mode: Pollers, p: Polled, step: CallerStep)
    requires Tidy(mode, p) && PolledEnabled(cfg, mode, p, Plain(Caller(step))) && Regular(Caller(step))
    ensures Tidy(mode, PolledApply(cfg, mode, p, Plain(Caller(step))))
  {
    hide Region, TakeSlot, TakeNumber, InitSlot, FillRequest, StoreWaiter, GiveSlot;
  }

  lemma TidyReceiver(cfg: Config, mode: Pollers, p: Polled, step: ReceiverStep)
    requires PolledInv(cfg, mode, p) && Tidy(mode, p) && PolledEnabled(cfg, mode, p, Plain(Receiver(step)))
    requires Regular(Receiver(step))
    ensures Tidy(mode, PolledApply(cfg, mode, p, Plain(Receiver(step))))
  {
    hide Region, MatchHeader, CopyLength, SetActual, Put, Inv, QueueOk, OrderInv;
  }

  /** The step after which the only call has returned was its return, on the receiving thread. */
  lemma LastReturn(cfg: Config, mode: Pollers, p: Polled, m: Move)
    requires Tidy(mode, p) && |p.s.calls| == 1 && !AllFinished(p.s) && PolledEnabled(cfg, mode, p, m) && RegularMove(m)
    requires AllFinished(PolledApply(cfg, mode, p, m).s)
    ensures RunsCall(PolledApply(cfg, mode, p, m), Receiving(mode), 0)
  {
    hide CallerEnabled, ReceiverEnabled, ServerEnabled, ApplyCaller, ApplyReceiver, ApplyServer;
    StepActive(cfg, p.s, m.step);
    assert !p.s.calls[0].phase.Finished? && PolledApply(cfg, mode, p, m).s.calls[0].phase.Finished?;
    match m.step
    case Caller(x) => ReturnFinishes(cfg, p.s, x);
    case Receiver(x) => ReceiverFinishesNone(cfg, p.s, x);
    case Server(x) => ServerObserved(cfg, p.s, x);
  }

  lemma ReturnFinishes(cfg: Config, s: State, step: CallerStep)
    requires CallerEnabled(s, step) && |s.calls| == 1 && !s.calls[0].phase.Finished? && !step.Invoke?
    requires ApplyCaller(cfg, s, step).calls != [] && ApplyCaller(cfg, s, step).calls[0].phase.Finished?
    ensures step == ReturnSlot(0) && s.calls[0].phase.Returning?
  {
    hide Region, TakeSlot, TakeNumber, InitSlot, FillRequest, StoreWaiter, GiveSlot;
  }

  lemma ReceiverFinishesNone(cfg: Config, s: State, step: ReceiverStep)
    requires ReceiverEnabled(s, step) && |s.calls| == 1 && !s.calls[0].phase.Finished?
    ensures ApplyReceiver(cfg, s, step).calls != [] && !ApplyReceiver(cfg, s, step).calls[0].phase.Finished?
  {
    hide Region, MatchHeader, CopyLength, SetActual, Put;
  }

  /** One call alone returns in the end, and its thread is then free to go on to another. */
  lemma {:induction false} FinishOne(cfg: Config, mode: Pollers, p: Polled) returns (q: Polled)
    requires cfg.Valid() && Live(mode) && HandlerAnswers(cfg) && Reached(cfg, mode, p) && Tidy(mode, p)
    requires |p.s.calls| == 1 && !AllFinished(p.s)
    ensures Reached(cfg, mode, q) && AllFinished(q.s) && |q.s.calls| == 1 && RunsCall(q, Receiving(mode), 0)
    decreases Measure(p.s)
  {
    hide PolledReachable, Healthy, HandlerAnswers, Inv, ThreadsInv, Tidy;
    hide PolledApply, PolledEnabled, AllFinished, Starved;
    hide Measure, Regular;
    SubsetSize(Active(p.s), {0});
    NotStarved(cfg, p);
    var m := PolledNext(cfg, mode, p);
    q := PolledApply(cfg, mode, p, m);
    Take(cfg, mode, p, m);
    TidyStep(cfg, mode, p, m);
    FinishStep(cfg, mode, p, m);
    if AllFinished(q.s) {
      LastReturn(cfg, mode, p, m);
    } else {
      q := FinishOne(cfg, mode, q);
    }
  }

  lemma FinishStep(cfg: Config, mode: Pollers, p: Polled, m: Move)
    requires PolledInv(cfg, mode, p) && PolledEnabled(cfg, mode, p, m) && RegularMove(m)
    ensures var q := PolledApply(cfg, mode, p, m); |q.s.calls| == |p.s.calls| && Measure(q.s) < Measure(p.s)
  {
    hide Inv, ThreadsInv, Enabled, Apply, Measure, QueueAfter, RunnerAfter;
    StepDecreases(cfg, p.s, m.step);
    StepActive(cfg, p.s, m.step);
  }

  /** Other callers take the free slots, one each. */
  lemma {:induction false} FillPool(cfg: Config, mode: Pollers, p: Polled) returns (q: Polled)
    requires Reached(cfg, mode, p) && Simple(p) && RunsCall(p, Receiving(mode), 0) && |p.s.calls| > 0
    requires p.s.calls[0].phase.Finished?
    ensures Reached(cfg, mode, q) && Simple(q) && RunsCall(q, Receiving(mode), 0) && |q.s.calls| > 0
    ensures q.s.calls[0].phase.Finished? && q.s.client.free == multiset{}
    decreases |p.s.client.free|
  {
    hide Reached, Simple;
    if p.s.client.free == multiset{} {
      return p;
    }
    var slot :| slot in p.s.client.free;
    NoFaultYet(cfg, mode, p);
    var m := Plain(Caller(Invoke([], [])));
    var q1 := PolledApply(cfg, mode, p, m);
    Take(cfg, mode, p, m);
    var n := Plain(Caller(Dequeue(|p.s.calls|, slot)));
    NoFaultYet(cfg, mode, q1);
    var q2 := PolledApply(cfg, mode, q1, n);
    Take(cfg, mode, q1, n);
    assert Simple(q2) by {
      SimpleKept(p, q2);
    }
    q := FillPool(cfg, mode, q2);
  }

  lemma SimpleKept(p: Polled, q: Polled)
    requires Simple(p) && |q.s.calls| == |p.s.calls| + 1 && q.s.calls[|p.s.calls|].phase.Dequeued?
    requires forall d: CallId :: d < |p.s.calls| ==> q.s.calls[d].phase == p.s.calls[d].phase
    ensures Simple(q)
  {
  }

  lemma NoFaultYet(cfg: Config, mode: Pollers, p: Polled)
    requires Reached(cfg, mode, p)
    ensures p.s.fault == NoFault
  {
    hide Inv, PolledReachable, ThreadsInv, Healthy;
    ShapeOf(cfg, p.s);
  }

  /** With the pool empty, as many calls are under way as there are slots. */
  lemma HoldersFill(cfg: Config, s: State)
    requires Inv(cfg, s) && s.client.free == multiset{}
    ensures |Holders(s)| == cfg.inflight
  {
    hide Inv;
    AllHeld(cfg, s);
    HoldersInjective(cfg, s, Holders(s));
  }

  /** The calls under way when every call has returned or holds a slot, but for c. */
  lemma ActiveAre(s: State, t: State)
    requires |t.calls| == |s.calls| + 1 && t.calls[|s.calls|].phase == Entering
    requires forall d: CallId :: d < |s.calls| ==> t.calls[d].phase == s.calls[d].phase
    requires forall d: CallId :: d < |s.calls| ==> s.calls[d].phase.Finished? || s.calls[d].phase.Dequeued?
    ensures |Active(t)| == |Holders(s)| + 1
  {
    assert Active(t) == Holders(s) + {|s.calls|};
  }

  /**
   * For every depth, with one thread and ordered completions or with two threads: one caller more than
   * there are slots, and no failure, can block the receiving thread, and then no call under way ever
   * returns, whatever else is called or done.
   */
  lemma ReceivingThreadCanStarve(cfg: Config, mode: Pollers) returns (p: Polled, c: CallId)
    requires cfg.Valid() && Live(mode) && HandlerAnswers(cfg)
    ensures PolledReachable(cfg, mode, p) && Healthy(p.s) && |Active(p.s)| == cfg.inflight + 1
    ensures PoolBlocked(mode, p, c)
    ensures forall run, q :: PolledRun(cfg, mode, p, run, q) && AllUnfailing(run) ==> NoneReturns(p.s, q.s)
  {
    hide PolledReachable, Healthy, HandlerAnswers, Inv, ThreadsInv, PolledRun, NoneReturns, AllUnfailing;
    p := OneCallMade(cfg, mode);
    p := FinishOne(cfg, mode, p);
    p := FillPool(cfg, mode, p);
    NoFaultYet(cfg, mode, p);
    HoldersFill(cfg, p.s);
    c := |p.s.calls|;
    var s := p.s;
    var m := Next(Receiving(mode), [], []);
    Take(cfg, mode, p, m);
    p := PolledApply(cfg, mode, p, m);
    ActiveAre(s, p.s);
    forall run, q | PolledRun(cfg, mode, p, run, q) && AllUnfailing(run)
      ensures NoneReturns(p.s, q.s)
    {
      BlockedForever(cfg, mode, p, run, q, c);
    }
  }

  lemma OneCallMade(cfg: Config, mode: Pollers) returns (p: Polled)
    requires cfg.Valid()
    ensures Reached(cfg, mode, p) && Tidy(mode, p) && |p.s.calls| == 1 && !AllFinished(p.s)
  {
    hide Reached;
    StartReached(cfg, mode);
    var m := Plain(Caller(Invoke([], [])));
    Take(cfg, mode, Start(cfg), m);
    p := PolledApply(cfg, mode, Start(cfg), m);
    assert p.s.calls[0].phase == Entering;
  }

  /**
   * The receiving thread is never blocked on the pool with up to limit concurrent callers, if and only
   * if there are at least as many slots.
   */
  lemma NeverStarvesExactlyIf(cfg: Config, mode: Pollers, limit: nat)
    requires cfg.Valid() && Live(mode) && HandlerAnswers(cfg)
    ensures (forall p, c :: PolledReachable(cfg, mode, p) && |Active(p.s)| <= limit ==> !PoolBlocked(mode, p, c))
            <==> limit <= cfg.inflight
  {
    hide PolledReachable, Healthy, HandlerAnswers, Inv, ThreadsInv, PolledRun, NoneReturns, AllUnfailing;
    if limit <= cfg.inflight {
      forall p, c | PolledReachable(cfg, mode, p) && |Active(p.s)| <= limit
        ensures !PoolBlocked(mode, p, c)
      {
        PolledReachableInv(cfg, mode, p);
        NotStarved(cfg, p);
      }
    } else {
      var p, c := ReceivingThreadCanStarve(cfg, mode);
    }
  }
}
