/**
 * What every run of the asio path guarantees: no dangling or doubled callback, at most one
 * completion per operation, its own completion entry, a registered buffer while a request is out;
 * and the one interleaving in which a posted receive is never completed.
 */
module AsioSafety {
  import opened AsioCompletion
  import opened AsioPreservation

  // ---------------------------------------------------------------- faults

  predicate AllSucceed(run: seq<Step>) {
    forall k: nat :: k < |run| && run[k].Hardware? ==> run[k].ok
  }

  predicate AllOk(s: State) {
    && (forall tag :: tag in s.requests ==> s.requests[tag].ok)
    && (forall tag :: tag in s.completions ==> s.completions[tag].ok)
    && (forall tag :: tag in s.runs ==> s.runs[tag].ok)
  }

  predicate TouchesWork(step: Step) {
    step.Post? || step.Hardware? || step.Invoke? || step.TestFlag? || step.CompleteOp? || step.DestroyRun?
  }

  lemma TablesStay(s: State, step: Step)
    requires Enabled(s, step) && !TouchesWork(step)
    ensures SameWork(s, Apply(s, step))
  {
    hide TakePointers, TakeSlot, Allocate, Posted, TryLock, NewOp, DropSelf, DropAwaitable;
    hide DestroyCallback, Complete, DoDestroy, DoReturn, DoCancelTest, DoCancelComplete;
  }

  lemma StepAllOk(s: State, step: Step)
    requires Enabled(s, step) && AllOk(s) && (step.Hardware? ==> step.ok)
    ensures AllOk(Apply(s, step)) && Apply(s, step).fault != Terminated
  {
    hide NewOp, DropSelf, DropAwaitable, DestroyCallback, Complete;
    if TouchesWork(step) {
      WorkStaysOk(s, step);
    } else {
      TablesStay(s, step);
    }
  }

  lemma WorkStaysOk(s: State, step: Step)
    requires Enabled(s, step) && AllOk(s) && (step.Hardware? ==> step.ok) && TouchesWork(step)
    ensures AllOk(Apply(s, step)) && Apply(s, step).fault != Terminated
  {
    hide TakePointers, TakeSlot, Allocate, Posted, TryLock, NewOp, DropSelf, DropAwaitable, DestroyCallback, Complete;
  }

  lemma {:induction false} RunAllOk(s: State, run: seq<Step>, t: State)
    requires Inv(s) && Run(s, run, t) && AllOk(s) && AllSucceed(run) && s.fault == NoFault
    ensures t.fault == NoFault
    decreases |run|
  {
    hide Inv, Enabled, Apply, AllOk;
    if run != [] {
      var u := Apply(s, run[0]);
      StepAllOk(s, run[0]);
      StepInv(s, run[0]);
      NoOtherFault(u);
      assert AllSucceed(run[1..]) by {
        assert forall k: nat :: k < |run[1..]| ==> run[1..][k] == run[k + 1];
      }
      RunAllOk(u, run[1..], t);
    }
  }

  lemma NoOtherFault(s: State)
    requires Inv(s)
    ensures s.fault == NoFault || s.fault == Terminated
  {
    hide OpsOk, HeapsOk, PlacesOk, WorksOk, RunsOk;
  }

  /**
   * No run calls or deletes a deleted callback, drops a pointer twice or completes twice. Only an
   * error completion can end the process.
   */
  lemma MemorySafety(s: State, run: seq<Step>, t: State)
    requires Initial(s) && Run(s, run, t)
    ensures t.fault == NoFault || t.fault == Terminated
    ensures AllSucceed(run) ==> t.fault == NoFault
  {
    hide Run, Enabled, Apply, AllSucceed, Inv;
    InitialInv(s);
    RunInv(s, run, t);
    NoOtherFault(t);
    if AllSucceed(run) {
      RunAllOk(s, run, t);
    }
  }

  // ---------------------------------------------------------------- counting events of a run

  datatype Event = Completes | Deletes | Calls

  /** The step calls complete on operation i, deletes its callback, or calls the callback. */
  predicate Causes(s: State, step: Step, e: Event, i: nat) {
    match step
    case CancelComplete(j) => e == Completes && j == i
    case CompleteOp(tag) => e == Completes && tag in s.runs && s.runs[tag].target == i && s.runs[tag].ok
    case DestroyUnposted(j) => e == Deletes && j == i
    case DestroyRun(tag) => e == Deletes && tag in s.runs && s.runs[tag].target == i
    case Invoke(tag) => e == Calls && tag in s.completions && s.completions[tag].owner == i
    case _ => false
  }

  function Count(s: State, run: seq<Step>, e: Event, i: nat): nat
    decreases |run|
  {
    if run == [] || !Enabled(s, run[0]) then 0
    else (if Causes(s, run[0], e, i) then 1 else 0) + Count(Apply(s, run[0]), run[1..], e, i)
  }

  /** Whether the event has happened to operation i. */
  predicate Happened(s: State, e: Event, i: nat) {
    i < |s.ops| &&
    match e
    case Completes => s.ops[i].completions > 0
    case Deletes => s.ops[i].callback.Gone?
    case Calls => s.ops[i].callback.InRun? || (s.ops[i].callback.Gone? && s.ops[i].postOk)
  }

  lemma OpFacts(op: Op)
    requires OpOk(op)
    ensures op.completions <= 1
    ensures op.init == PostFailed ==> !op.postOk
    ensures op.callback.InRequest? || op.callback.InCompletion? || op.callback.InRun? ==> op.postOk
    ensures op.callback.Made? || op.callback.NotMade? ==> !op.postOk
    ensures op.init == SlotDone ==> op.callback == NotMade
    ensures op.init == CallbackReady ==> op.callback == Made
    ensures op.init == Fresh || op.init == SelfReady ==> op.callback == NotMade
    ensures op.winner == Locked ==> op.completions == 0
    ensures op.callback.InRun? && op.cbWon && !op.cbDone ==> op.completions == 0
  {
  }

  /** The operation the step is about, if it is about one. */
  function Subject(s: State, step: Step): nat
    requires Enabled(s, step)
  {
    match step
    case New(_, _) => |s.ops|
    case Hardware(tag, _) => s.requests[tag].owner
    case Invoke(tag) => s.completions[tag].owner
    case TestFlag(tag) => s.runs[tag].target
    case CompleteOp(tag) => s.runs[tag].target
    case DestroyRun(tag) => s.runs[tag].target
    case _ => step.i
  }

  /** A step is about one operation; the others are as they were. */
  lemma OthersStay(s: State, step: Step, i: nat)
    requires Inv(s) && Enabled(s, step) && i != Subject(s, step)
    ensures var t := Apply(s, step);
            && |t.ops| >= |s.ops| && (i < |s.ops| ==> t.ops[i] == s.ops[i])
            && (i >= |s.ops| ==> i >= |t.ops|)
  {
    hide DoDestroy, DoReturn, DoCancelTest, DoCancelComplete, DoTestFlag, DoComplete;
    hide SetOp, TakePointers, TakeSlot, Allocate;
    hide Posted, TryLock, Inv, OpOk, NewOp, DropSelf, DropAwaitable, DestroyCallback, Complete;
    match step {
      case Invoke(tag) => CompletionFindsOwner(s, tag);
      case Hardware(tag, _) => WorkAt(s, tag, false);
      case _ =>
    }
  }

  lemma OthersUncaused(s: State, step: Step, e: Event, i: nat)
    requires Inv(s) && Enabled(s, step) && i != Subject(s, step)
    ensures !Causes(s, step, e, i)
  {
    hide Inv, OpOk;
  }

  /** The steps of the initiating function and of the cancellation handlers in which nothing happens. */
  lemma CountQuiet(s: State, step: Step, e: Event, i: nat)
    requires Inv(s) && Enabled(s, step) && !TouchesWork(step) && !step.New? && i == step.i
    requires !step.DestroyUnposted? && !step.CancelComplete?
    ensures Happened(Apply(s, step), e, i) <==> Happened(s, e, i)
    ensures !Causes(s, step, e, i)
  {
    hide Inv, OpOk, DropSelf, DropAwaitable, HeapOk, PlacedOk, DoDestroy, DoCancelComplete;
    OpAt(s, i);
    OpFacts(s.ops[i]);
    if step.Return? {
      ReturnOk(s.ops[i]);
    } else if step.CancelTest? {
      CancelTestOk(s.ops[i]);
    } else if step.CancelRelease? {
      CancelReleaseOk(s.ops[i]);
    }
  }

  /** The initiating function deletes the callback; a cancellation handler completes the operation. */
  lemma CountDirect(s: State, step: Step, e: Event, i: nat)
    requires Inv(s) && Enabled(s, step) && (step.DestroyUnposted? || step.CancelComplete?) && i == step.i
    ensures Happened(Apply(s, step), e, i) <==> Happened(s, e, i) || Causes(s, step, e, i)
    ensures Causes(s, step, e, i) ==> !Happened(s, e, i)
  {
    hide Inv, OpOk, DestroyCallback, Complete, HeapOk, PlacedOk;
    OpAt(s, i);
    OpFacts(s.ops[i]);
    if step.DestroyUnposted? {
      DestroyOk(s.ops[i]);
      InHeap(s, i);
    }
  }

  lemma InHeap(s: State, i: nat)
    requires i < |s.ops| && HeapOk(s, i) && Live(s.ops[i].callback)
    ensures s.ops[i].addr in s.heap
  {
  }

  /** Posting, and the poller until it calls the function. */
  lemma CountPosted(s: State, step: Step, e: Event, i: nat)
    requires Inv(s) && Enabled(s, step) && (step.Post? || step.Hardware? || step.Invoke?) && i == Subject(s, step)
    ensures Happened(Apply(s, step), e, i) <==> Happened(s, e, i) || Causes(s, step, e, i)
    ensures Causes(s, step, e, i) ==> !Happened(s, e, i)
  {
    hide Inv, OpOk, PlacedOk, HeapOk;
    match step {
      case Post(_, _) =>
        OpAt(s, i);
        OpFacts(s.ops[i]);
      case Hardware(tag, _) =>
        WorkAt(s, tag, false);
      case Invoke(tag) =>
        CompletionFindsOwner(s, tag);
    }
  }

  /** The poller inside the function, and the deletion after it. */
  lemma CountRun(s: State, step: Step, e: Event, i: nat)
    requires Inv(s) && Enabled(s, step) && (step.TestFlag? || step.CompleteOp? || step.DestroyRun?)
    requires i == Subject(s, step)
    ensures Happened(Apply(s, step), e, i) <==> Happened(s, e, i) || Causes(s, step, e, i)
    ensures Causes(s, step, e, i) ==> !Happened(s, e, i)
  {
    hide Inv, OpOk, DestroyCallback, Complete;
    RunAt(s, step.tag);
    OpFacts(s.ops[i]);
    if step.DestroyRun? {
      DestroyOk(s.ops[i]);
    }
  }

  /** An event happens to an operation in the steps that cause it, and at most once. */
  lemma CountStep(s: State, step: Step, e: Event, i: nat)
    requires Inv(s) && Enabled(s, step)
    ensures Happened(Apply(s, step), e, i) <==> Happened(s, e, i) || Causes(s, step, e, i)
    ensures Causes(s, step, e, i) ==> !Happened(s, e, i)
  {
    if i != Subject(s, step) {
      hide Inv, Apply;
      OthersStay(s, step, i);
      OthersUncaused(s, step, e, i);
    } else if step.New? {
    } else if step.Post? || step.Hardware? || step.Invoke? {
      CountPosted(s, step, e, i);
    } else if TouchesWork(step) {
      CountRun(s, step, e, i);
    } else if step.DestroyUnposted? || step.CancelComplete? {
      CountDirect(s, step, e, i);
    } else {
      CountQuiet(s, step, e, i);
    }
  }

  /**
   * In every run from a state in which nothing has happened to operation i, its callback is called
   * at most once, deleted at most once, and the operation is completed at most once; the state at
   * the end tells whether it was.
   */
  lemma {:induction false} CountRunEvents(s: State, run: seq<Step>, t: State, e: Event, i: nat)
    requires Inv(s) && Run(s, run, t)
    ensures Count(s, run, e, i) == (if Happened(t, e, i) then 1 else 0) - (if Happened(s, e, i) then 1 else 0)
    decreases |run|
  {
    hide Inv, Enabled, Apply, Happened, Causes;
    if run != [] {
      var u := Apply(s, run[0]);
      CountStep(s, run[0], e, i);
      StepInv(s, run[0]);
      CountRunEvents(u, run[1..], t, e, i);
    }
  }

  lemma AtMostOnce(s: State, run: seq<Step>, t: State, e: Event, i: nat)
    requires Initial(s) && Run(s, run, t)
    ensures Count(s, run, e, i) == if Happened(t, e, i) then 1 else 0
  {
    hide Run, Inv, Count, Enabled, Apply;
    InitialInv(s);
    CountRunEvents(s, run, t, e, i);
  }

  /** A callback is deleted only after it was called, or after its post failed. */
  lemma CalledBeforeDeleted(s: State, run: seq<Step>, t: State, i: nat)
    requires Initial(s) && Run(s, run, t) && i < |t.ops| && t.ops[i].callback.Gone?
    ensures Count(s, run, Deletes, i) == 1
    ensures Count(s, run, Calls, i) == if t.ops[i].postOk then 1 else 0
  {
    hide Run, Inv, Count, Enabled, Apply;
    AtMostOnce(s, run, t, Deletes, i);
    AtMostOnce(s, run, t, Calls, i);
  }

  // ---------------------------------------------------------------- the callback's life

  /** Operation i's work request with this tag is posted, completed or being processed by the poller. */
  predicate Outstanding(s: State, i: nat, tag: nat) {
    || (tag in s.requests && s.requests[tag].owner == i)
    || (tag in s.completions && s.completions[tag].owner == i)
    || (tag in s.runs && s.runs[tag].target == i)
  }

  /**
   * Addresses on the heap and live callbacks correspond one to one. A posted callback is live
   * exactly while its work request, its completion or the poller's run of it is there, and there is
   * then exactly one of the three.
   */
  lemma CallbackLifetime(s: State, i: nat)
    requires Reachable(s) && i < |s.ops|
    ensures Live(s.ops[i].callback) <==> exists a :: a in s.heap && s.heap[a] == i
    ensures forall a, b :: a in s.heap && b in s.heap && s.heap[a] == s.heap[b] ==> a == b
    ensures s.ops[i].postOk ==>
              var tag := s.ops[i].requestTag;
              && (Live(s.ops[i].callback) <==> Outstanding(s, i, tag))
              && (tag in s.requests ==> tag !in s.completions && tag !in s.runs)
              && (tag in s.completions ==> tag !in s.runs)
  {
    hide Reachable, Inv, OpOk;
    ReachableInv(s);
    OpAt(s, i);
    OpFacts(s.ops[i]);
    forall a | a in s.heap
      ensures s.heap[a] < |s.ops| && Live(s.ops[s.heap[a]].callback) && s.ops[s.heap[a]].addr == a
    {
      HeapAt(s, a);
    }
    if s.ops[i].postOk {
      if Live(s.ops[i].callback) {
        TagIs(s.ops[i]);
      }
      var tag := s.ops[i].requestTag;
      if Outstanding(s, i, tag) {
        Placed(s, i, tag);
      }
      TagsOf(s);
    }
  }

  lemma HeapAt(s: State, a: nat)
    requires Inv(s) && a in s.heap
    ensures s.heap[a] < |s.ops| && Live(s.ops[s.heap[a]].callback) && s.ops[s.heap[a]].addr == a
  {
    hide OpsOk, PlacesOk, WorksOk, RunsOk;
  }

  lemma Placed(s: State, i: nat, tag: nat)
    requires Inv(s) && i < |s.ops|
    requires Outstanding(s, i, tag)
    ensures Live(s.ops[i].callback)
  {
    hide Inv, OpOk;
    if tag in s.requests {
      WorkAt(s, tag, false);
    }
    if tag in s.completions {
      WorkAt(s, tag, true);
    }
    if tag in s.runs {
      RunAt(s, tag);
    }
  }

  /** The poller always runs the callback of the operation whose request the completion is for. */
  lemma CompletionsAreRouted(s: State, tag: nat)
    requires Reachable(s)
    ensures tag in s.completions ==>
              s.completions[tag].wrId in s.heap && s.heap[s.completions[tag].wrId] == s.completions[tag].owner
    ensures tag in s.runs ==>
              var r := s.runs[tag];
              r.target == r.owner < |s.ops| && s.ops[r.target].requestTag == tag && s.ops[r.target].addr == r.addr
  {
    hide Reachable, Inv, OpOk;
    ReachableInv(s);
    if tag in s.completions {
      CompletionFindsOwner(s, tag);
    }
    if tag in s.runs {
      RunAt(s, tag);
      TagIs(s.ops[s.runs[tag].target]);
    }
  }

  /** What an operation completed with: its own completion entry, or an abort of a receive. */
  lemma OwnResult(s: State, i: nat)
    requires Reachable(s) && i < |s.ops|
    ensures s.ops[i].completions <= 1
    ensures match s.ops[i].outcome
            case Pending => s.ops[i].completions == 0
            case FromCompletion(tag) => s.ops[i].completions == 1 && s.ops[i].postOk && tag == s.ops[i].requestTag
            case Aborted => s.ops[i].completions == 1 && s.ops[i].kind == Recv && s.ops[i].slotAssigned
  {
    hide Reachable, Inv;
    ReachableInv(s);
    OpAt(s, i);
  }

  // ---------------------------------------------------------------- the temporary registration

  /** A step leaves open whether an operation registered its buffer. */
  lemma OwningStays(s: State, step: Step, i: nat)
    requires Inv(s) && Enabled(s, step) && i < |s.ops|
    ensures i < |Apply(s, step).ops| && (Apply(s, step).ops[i].region.NoRegion? <==> s.ops[i].region.NoRegion?)
  {
    hide TakePointers, TakeSlot, Allocate, Posted, TryLock, Inv;
    hide OpOk, DropSelf, DropAwaitable, DestroyCallback, Complete;
    if i != Subject(s, step) {
      OthersStay(s, step, i);
    } else if step.Hardware? {
      WorkAt(s, step.tag, false);
    } else if step.Invoke? {
      CompletionFindsOwner(s, step.tag);
    }
  }

  lemma {:induction false} OwningStaysInRun(s: State, run: seq<Step>, t: State, i: nat)
    requires Inv(s) && Run(s, run, t) && i < |s.ops|
    ensures i < |t.ops| && (t.ops[i].region.NoRegion? <==> s.ops[i].region.NoRegion?)
    decreases |run|
  {
    hide Inv, Enabled, Apply;
    if run != [] {
      OwningStays(s, run[0], i);
      StepInv(s, run[0]);
      OwningStaysInRun(Apply(s, run[0]), run[1..], t, i);
    }
  }

  /**
   * The temporary registration of an operation on a span: from its creation on, and whatever
   * happens, including a cancellation, it is in place while a work request of the operation, its
   * completion or the poller's run is there; and it goes with the last holder.
   */
  lemma RegisteredWhileOutstanding(s: State, run: seq<Step>, t: State, i: nat)
    requires Reachable(s) && i < |s.ops| && s.ops[i] == NewOp(s.ops[i].kind, true) && Run(s, run, t)
    ensures i < |t.ops|
    ensures forall tag :: Outstanding(t, i, tag) ==> t.ops[i].region == Registered
    ensures var op := t.ops[i];
            op.region == Deregistered <==>
              (op.init == Returned || op.init == Fresh) && !Live(op.callback) && !op.implHeld && !op.slotAssigned
  {
    hide Reachable, Inv, Run, OpOk;
    ReachableInv(s);
    RunInv(s, run, t);
    OwningStaysInRun(s, run, t, i);
    OpAt(t, i);
    RegionFacts(t.ops[i]);
    forall tag | Outstanding(t, i, tag)
      ensures t.ops[i].region == Registered
    {
      Placed(t, i, tag);
    }
  }

  lemma RegionFacts(op: Op)
    requires OpOk(op) && !op.region.NoRegion?
    ensures op.region == Deregistered
            <==> !Initiating(op.init) && !Live(op.callback) && !op.implHeld && !op.slotAssigned
  {
  }
}
