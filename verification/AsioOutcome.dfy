/**
 * How often an operation on the asio path completes in the end: once, except for one interleaving
 * of the poller with a cancellation handler, and except when its request could not be posted.
 */
module AsioOutcome {
  import opened AsioCompletion
  import opened AsioPreservation
  import opened AsioSafety
  import Finite

  // ---------------------------------------------------------------- the window

  /**
   * A posted operation whose callback is deleted has completed once, or a cancellation handler has
   * passed the flag: it is about to complete it (Locked), or it had not locked yet when the callback
   * was deleted.
   */
  lemma ZeroOnlyInWindow(s: State, i: nat)
    requires Reachable(s) && i < |s.ops| && s.ops[i].postOk && s.ops[i].callback == Gone
    ensures s.ops[i].completions == 1 || s.ops[i].winner == Locked
            || (s.ops[i].winner in {Took, LockFailed} && s.ops[i].tookAtDestroy)
    ensures s.ops[i].completions == 0 ==> s.ops[i].kind == Recv && s.ops[i].slotAssigned && s.ops[i].outcome == Pending
    ensures s.ops[i].winner == LockFailed ==> s.ops[i].completions == 0
  {
    hide Reachable, Inv;
    ReachableInv(s);
    OpAt(s, i);
  }

  /** The lock fails exactly when the callback is deleted and the initiating function has returned. */
  lemma LockFailsExactlyIf(s: State, i: nat)
    requires Reachable(s) && Enabled(s, CancelLock(i))
    ensures Apply(s, CancelLock(i)).ops[i].winner == LockFailed
            <==> s.ops[i].callback == Gone && s.ops[i].init == Returned
  {
    hide Reachable, Inv;
    ReachableInv(s);
    OpAt(s, i);
  }

  /** A handler that holds the lock completes the operation in its next step. */
  lemma LockedCompletes(s: State, i: nat)
    requires Reachable(s) && s.fault == NoFault && WinnerIs(s, i, Locked)
    ensures Enabled(s, CancelComplete(i)) && Apply(s, CancelComplete(i)).fault == NoFault
    ensures Apply(s, CancelComplete(i)).ops[i].completions == 1 && Apply(s, CancelComplete(i)).ops[i].outcome == Aborted
  {
    hide Reachable, Inv;
    ReachableInv(s);
    OpAt(s, i);
  }

  lemma LockFailedStep(s: State, step: Step, i: nat)
    requires Inv(s) && Enabled(s, step) && WinnerIs(s, i, LockFailed)
    ensures WinnerIs(Apply(s, step), i, LockFailed)
  {
    hide Inv, OpOk, DropSelf, DropAwaitable, DestroyCallback, Complete;
    OpAt(s, i);
    LockFailedFacts(s.ops[i]);
    if i != Subject(s, step) {
      OthersStay(s, step, i);
    } else if step.Hardware? {
      WorkAt(s, step.tag, false);
    } else if step.Invoke? {
      CompletionFindsOwner(s, step.tag);
    } else if step.TestFlag? || step.CompleteOp? || step.DestroyRun? {
      RunAt(s, step.tag);
    }
  }

  lemma LockFailedFacts(op: Op)
    requires OpOk(op) && op.winner == LockFailed
    ensures op.callback == Gone && op.flag && op.completions == 0 && op.init == Returned
  {
  }

  /** An operation lost in the window never completes, whatever happens later. */
  lemma {:induction false} LostForever(s: State, run: seq<Step>, t: State, i: nat)
    requires Inv(s) && Run(s, run, t) && WinnerIs(s, i, LockFailed)
    ensures WinnerIs(t, i, LockFailed) && t.ops[i].completions == 0
    decreases |run|
  {
    hide Inv, OpOk, Enabled, Apply;
    if run == [] {
      OpAt(s, i);
      LockFailedFacts(s.ops[i]);
    } else {
      LockFailedStep(s, run[0], i);
      StepInv(s, run[0]);
      LostForever(Apply(s, run[0]), run[1..], t, i);
    }
  }

  // ---------------------------------------------------------------- requests that could not be posted

  /** The post failed: what follows is the deletion of the callback and the return. */
  predicate Unposted(s: State, i: nat) {
    i < |s.ops| && !s.ops[i].postOk && (s.ops[i].init == PostFailed || s.ops[i].init == Returned)
  }

  lemma UnpostedFacts(op: Op)
    requires OpOk(op) && !op.postOk && (op.init == PostFailed || op.init == Returned)
    ensures op.callback == Made || op.callback == Gone
    ensures op.kind == Send ==> op.completions == 0
    ensures op.completions == 1 <==> op.winner == Completed || op.winner == Released
    ensures !op.outcome.FromCompletion?
  {
  }

  /** No request, completion or poller run is about an operation whose post failed. */
  lemma UnpostedHasNoWork(s: State, step: Step, i: nat)
    requires Inv(s) && Enabled(s, step) && Unposted(s, i) && TouchesWork(step)
    ensures i != Subject(s, step)
  {
    hide Inv, OpOk;
    OpAt(s, i);
    UnpostedFacts(s.ops[i]);
    if step.Hardware? {
      WorkAt(s, step.tag, false);
    } else if step.Invoke? {
      CompletionFindsOwner(s, step.tag);
    } else if !step.Post? {
      RunAt(s, step.tag);
    }
  }

  lemma UnpostedLocal(s: State, step: Step, i: nat)
    requires Enabled(s, step) && Unposted(s, i) && !TouchesWork(step) && i == Subject(s, step)
    ensures Unposted(Apply(s, step), i) && Apply(s, step).ops[i].kind == s.ops[i].kind
  {
    hide DropSelf, DropAwaitable, DestroyCallback, Complete, Allocate, Posted, TryLock, NewOp;
  }

  lemma UnpostedStep(s: State, step: Step, i: nat)
    requires Inv(s) && Enabled(s, step) && Unposted(s, i)
    ensures Unposted(Apply(s, step), i) && Apply(s, step).ops[i].kind == s.ops[i].kind
  {
    hide Inv, Apply, Enabled;
    if TouchesWork(step) {
      UnpostedHasNoWork(s, step, i);
    }
    if i == Subject(s, step) {
      UnpostedLocal(s, step, i);
    } else {
      OthersStay(s, step, i);
    }
  }

  /**
   * After a failed post nothing but a cancellation completes the operation, in no run, so a send is
   * then never completed at all.
   */
  lemma {:induction false} FailedPostNeverCompletes(s: State, run: seq<Step>, t: State, i: nat)
    requires Inv(s) && Run(s, run, t) && Unposted(s, i)
    ensures Unposted(t, i) && t.ops[i].kind == s.ops[i].kind
    ensures t.ops[i].completions == 1 <==> t.ops[i].winner == Completed || t.ops[i].winner == Released
    ensures s.ops[i].kind == Send ==> t.ops[i].completions == 0
    decreases |run|
  {
    hide Inv, OpOk, Enabled, Apply;
    if run == [] {
      OpAt(s, i);
      UnpostedFacts(s.ops[i]);
    } else {
      UnpostedStep(s, run[0], i);
      StepInv(s, run[0]);
      FailedPostNeverCompletes(Apply(s, run[0]), run[1..], t, i);
    }
  }

  // ---------------------------------------------------------------- when nothing can move

  /** Nothing moves any more: no new operation, no new signal, and every request has completed. */
  ghost predicate Quiescent(s: State) {
    s.fault == NoFault && forall step :: Enabled(s, step) ==> step.New? || step.Signal?
  }

  /** Neither a new operation, nor a signal, nor a failure. */
  predicate Proceeds(step: Step) {
    !step.New? && !step.Signal? && !step.PostFail? && (step.Hardware? ==> step.ok)
  }

  /** A tag that no request, completion or poller run has. */
  lemma FreshTag(s: State) returns (tag: nat)
    ensures Unused(s, tag)
  {
    tag := Finite.Bound(s.requests.Keys + s.completions.Keys + s.runs.Keys);
  }

  /** The initiating function, once started, can always go on until it returns, without a failing post. */
  lemma InitiationMoves(s: State, i: nat) returns (step: Step)
    requires Inv(s) && s.fault == NoFault && i < |s.ops| && s.ops[i].init != Returned
    ensures Enabled(s, step) && Proceeds(step)
  {
    hide Inv, OpOk;
    OpAt(s, i);
    OpFacts(s.ops[i]);
    match s.ops[i].init {
      case Fresh => step := Enter(i);
      case SelfReady => step := SkipSlot(i);
      case SlotDone =>
        var addr := Finite.Bound(s.heap.Keys);
        step := MakeCallback(i, addr);
      case CallbackReady =>
        var tag := FreshTag(s);
        step := Post(i, tag);
      case PostDone => step := Return(i);
      case PostFailed =>
        UnpostedFacts(s.ops[i]);
        step := if s.ops[i].callback == Made then DestroyUnposted(i) else Return(i);
    }
  }

  lemma RunMoves(s: State, tag: nat) returns (step: Step)
    requires Inv(s) && s.fault == NoFault && tag in s.runs
    ensures Enabled(s, step) && Proceeds(step)
  {
    hide Inv, OpOk;
    RunAt(s, tag);
    match s.runs[tag].stage
    case Entered => step := TestFlag(tag);
    case Won => step := CompleteOp(tag);
    case Finished => step := DestroyRun(tag);
  }

  /** A callback whose initiating function has returned is never stuck before its deletion. */
  lemma CallbackMoves(s: State, i: nat) returns (step: Step)
    requires Inv(s) && s.fault == NoFault && i < |s.ops| && s.ops[i].init == Returned && s.ops[i].callback != Gone
    ensures Enabled(s, step) && Proceeds(step)
  {
    hide Inv, OpOk;
    OpAt(s, i);
    ReturnedFacts(s.ops[i]);
    match s.ops[i].callback {
      case InRequest(tag) => step := Hardware(tag, true);
      case InCompletion(tag) => step := Invoke(tag);
      case InRun(tag) => step := RunMoves(s, tag);
    }
  }

  lemma OpEnds(s: State, i: nat)
    requires Inv(s) && Quiescent(s) && i < |s.ops|
    ensures s.ops[i].init == Returned && s.ops[i].callback == Gone
  {
    hide Inv, OpOk;
    if s.ops[i].init != Returned {
      var step := InitiationMoves(s, i);
    } else if s.ops[i].callback != Gone {
      var step := CallbackMoves(s, i);
    }
  }

  lemma ReturnedFacts(op: Op)
    requires OpOk(op) && op.init == Returned
    ensures op.callback != NotMade && op.callback != Made
  {
  }

  /**
   * When nothing can move any more, every operation has returned from initiation, its callback has
   * been deleted once, and it has completed exactly once, except that a posted one has not exactly
   * if a cancellation handler passed the flag and failed to lock, and one that could not be posted
   * has not exactly if no cancellation handler completed it.
   */
  lemma OutcomeAtRest(s: State, i: nat)
    requires Reachable(s) && Quiescent(s) && i < |s.ops|
    ensures s.heap == map[] && s.requests == map[] && s.completions == map[] && s.runs == map[]
    ensures var op := s.ops[i];
            && op.init == Returned && op.callback == Gone && op.destroys == 1 && op.completions <= 1
            && (op.postOk ==>
              (op.completions == 0 <==> op.winner == LockFailed) && (op.completions == 0 ==> op.tookAtDestroy))
            && (!op.postOk ==> (op.completions == 0 <==> op.winner != Released))
            && (op.region == Registered ==> op.slotAssigned || op.completions == 0)
  {
    hide Reachable, Inv, OpOk;
    ReachableInv(s);
    OpEnds(s, i);
    OpAt(s, i);
    assert !Enabled(s, CancelLock(i)) && !Enabled(s, CancelComplete(i)) && !Enabled(s, CancelRelease(i));
    RestFacts(s.ops[i]);
    NothingLeft(s);
  }

  lemma RestFacts(op: Op)
    requires OpOk(op) && op.init == Returned && op.callback == Gone && op.winner !in {Took, Locked, Completed}
    ensures op.destroys == 1 && op.completions <= 1
    ensures op.postOk ==>
              (op.completions == 0 <==> op.winner == LockFailed) && (op.completions == 0 ==> op.tookAtDestroy)
    ensures !op.postOk ==> (op.completions == 0 <==> op.winner != Released)
    ensures op.region == Registered ==> op.slotAssigned || op.completions == 0
  {
  }

  lemma NothingLeft(s: State)
    requires Inv(s) && Quiescent(s)
    ensures s.heap == map[] && s.requests == map[] && s.completions == map[] && s.runs == map[]
  {
    hide Inv, OpOk, HeapOk;
    forall a | a in s.heap
      ensures false
    {
      HeapAt(s, a);
      OpEnds(s, s.heap[a]);
    }
    forall tag | tag in s.runs
      ensures false
    {
      var step := RunMoves(s, tag);
    }
    forall tag
      ensures tag !in s.requests && tag !in s.completions
    {
      assert tag in s.requests <==> Enabled(s, Hardware(tag, true));
      assert tag in s.completions <==> Enabled(s, Invoke(tag));
    }
  }

  // ---------------------------------------------------------------- witnesses

  lemma {:induction false} RunThen(s: State, run: seq<Step>, t: State, step: Step)
    requires Run(s, run, t) && Enabled(t, step)
    ensures Run(s, run + [step], Apply(t, step))
    decreases |run|
  {
    hide Enabled, Apply;
    if run == [] {
      assert (run + [step])[1..] == [];
    } else {
      assert (run + [step])[1..] == run[1..] + [step];
      RunThen(Apply(s, run[0]), run[1..], t, step);
    }
  }

  lemma Take(s: State, step: Step)
    requires Reachable(s) && Enabled(s, step)
    ensures Reachable(Apply(s, step))
  {
    hide Enabled, Apply;
    var u, run :| Initial(u) && Run(u, run, s);
    RunThen(u, run, s, step);
  }

  function Start(): State {
    State([], map[], map[], map[], map[], NoFault)
  }

  lemma StartReachable()
    ensures Reachable(Start())
  {
    assert Run(Start(), [], Start());
  }

  /** One receive on a span, cancellable, posted under the address and the tag 0. */
  lemma PostedReceive() returns (s: State)
    ensures Reachable(s) && |s.ops| == 1 && s.fault == NoFault && s.heap == map[0 := 0]
    ensures s.requests == map[0 := Work(0, 0, true)] && s.completions == map[] && s.runs == map[]
    ensures s.ops[0] == NewOp(Recv, true).(init := PostDone, slotAssigned := true, selfRefs := 2, awaitRefs := 4,
                                           callback := InRequest(0), postOk := true)
  {
    hide Reachable;
    StartReachable();
    s := Start();
    Take(s, New(Recv, true));
    s := Apply(s, New(Recv, true));
    Take(s, Enter(0));
    s := Apply(s, Enter(0));
    Take(s, AssignSlot(0));
    s := Apply(s, AssignSlot(0));
    Take(s, MakeCallback(0, 0));
    s := Apply(s, MakeCallback(0, 0));
    Take(s, Post(0, 0));
    s := Apply(s, Post(0, 0));
  }

  /** The poller finds the flag set by a handler that has not locked yet, and deletes the callback. */
  lemma WindowRun(s: State) returns (t: State)
    requires Reachable(s) && |s.ops| == 1 && s.fault == NoFault && s.heap == map[0 := 0]
    requires s.requests == map[0 := Work(0, 0, true)] && s.completions == map[] && s.runs == map[]
    requires s.ops[0] == NewOp(Recv, true).(init := Returned, slotAssigned := true, selfRefs := 1, awaitRefs := 3,
                                            flag := true, winner := Took,
                                            callback := InRequest(0), postOk := true)
    ensures Reachable(t) && t.fault == NoFault && |t.ops| == 1 && t.ops[0].callback == Gone && t.ops[0].selfRefs == 0
    ensures t.ops[0].postOk && t.ops[0].winner == Took
  {
    hide Reachable;
    t := s;
    Take(t, Hardware(0, true));
    t := Apply(t, Hardware(0, true));
    Take(t, Invoke(0));
    t := Apply(t, Invoke(0));
    Take(t, TestFlag(0));
    t := Apply(t, TestFlag(0));
    Take(t, DestroyRun(0));
    t := Apply(t, DestroyRun(0));
  }

  /** The one interleaving exists: a successfully posted receive that no continuation completes. */
  lemma CompletionCanBeLost() returns (s: State)
    ensures Reachable(s) && |s.ops| == 1 && s.fault == NoFault && s.ops[0].postOk && s.ops[0].callback == Gone
    ensures forall run, t :: Run(s, run, t) ==> 0 < |t.ops| && t.ops[0].completions == 0
  {
    hide Reachable, Inv;
    s := PostedReceive();
    Take(s, Return(0));
    s := Apply(s, Return(0));
    Take(s, Signal(0));
    s := Apply(s, Signal(0));
    Take(s, CancelTest(0));
    s := Apply(s, CancelTest(0));
    s := WindowRun(s);
    Take(s, CancelLock(0));
    s := Apply(s, CancelLock(0));
    ReachableInv(s);
    forall run, t | Run(s, run, t)
      ensures 0 < |t.ops| && t.ops[0].completions == 0
    {
      LostForever(s, run, t, 0);
    }
  }

  /** A send whose post fails: its callback is deleted and no continuation completes it. */
  lemma FailedSendIsLost() returns (s: State)
    ensures Reachable(s) && |s.ops| == 1 && s.fault == NoFault && s.ops[0].callback == Gone && s.ops[0].init == Returned
    ensures forall run, t :: Run(s, run, t) ==> 0 < |t.ops| && t.ops[0].completions == 0
  {
    hide Reachable, Inv;
    StartReachable();
    s := Start();
    Take(s, New(Send, false));
    s := Apply(s, New(Send, false));
    Take(s, Enter(0));
    s := Apply(s, Enter(0));
    Take(s, SkipSlot(0));
    s := Apply(s, SkipSlot(0));
    Take(s, MakeCallback(0, 0));
    s := Apply(s, MakeCallback(0, 0));
    Take(s, PostFail(0));
    s := Apply(s, PostFail(0));
    Take(s, DestroyUnposted(0));
    s := Apply(s, DestroyUnposted(0));
    Take(s, Return(0));
    s := Apply(s, Return(0));
    ReachableInv(s);
    forall run, t | Run(s, run, t)
      ensures 0 < |t.ops| && t.ops[0].completions == 0
    {
      FailedPostNeverCompletes(s, run, t, 0);
    }
  }
}
