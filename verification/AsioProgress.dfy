/** Operations on the asio path come to rest: without new operations and new signals every run ends. */
module AsioProgress {
  import opened AsioCompletion
  import opened AsioPreservation
  import opened AsioSafety
  import opened AsioOutcome

  // ---------------------------------------------------------------- what an operation has before it

  function InitLeft(init: Initiation): nat {
    match init
    case Fresh => 5
    case SelfReady => 4
    case SlotDone => 3
    case CallbackReady => 2
    case PostDone => 1
    case PostFailed => 1
    case Returned => 0
  }

  function StageLeft(stage: RunStage): nat {
    match stage
    case Entered => 3
    case Won => 2
    case Finished => 1
  }

  function CallbackLeft(callback: Callback, runs: map<nat, Running>): nat {
    match callback
    case NotMade => 7
    case Made => 6
    case InRequest(_) => 5
    case InCompletion(_) => 4
    case InRun(tag) => if tag in runs then StageLeft(runs[tag].stage) else 0
    case Gone => 0
  }

  function WinnerLeft(winner: Winner): nat {
    match winner
    case NoWinner => 4
    case Took => 3
    case Locked => 2
    case Completed => 1
    case Released => 0
    case LockFailed => 0
  }

  function OpLeft(op: Op, runs: map<nat, Running>): nat {
    InitLeft(op.init) + CallbackLeft(op.callback, runs) + WinnerLeft(op.winner) + op.arrived
  }

  function Total(ops: seq<Op>, runs: map<nat, Running>): nat {
    if ops == [] then 0 else OpLeft(ops[0], runs) + Total(ops[1..], runs)
  }

  function Measure(s: State): nat {
    Total(s.ops, s.runs) + if s.fault == NoFault then 1 else 0
  }

  // ---------------------------------------------------------------- every step

  predicate Arrival(step: Step) {
    step.New? || step.Signal?
  }

  lemma {:induction false} TotalLess(ops: seq<Op>, runs: map<nat, Running>, ops': seq<Op>, runs': map<nat, Running>,
                                     i: nat)
    requires i < |ops| == |ops'| && OpLeft(ops'[i], runs') < OpLeft(ops[i], runs)
    requires forall j :: 0 <= j < |ops| && j != i ==> OpLeft(ops'[j], runs') == OpLeft(ops[j], runs)
    ensures Total(ops', runs') < Total(ops, runs)
    decreases |ops|
  {
    hide OpLeft;
    if i == 0 {
      TotalSame(ops[1..], runs, ops'[1..], runs');
    } else {
      TotalLess(ops[1..], runs, ops'[1..], runs', i - 1);
    }
  }

  lemma {:induction false} TotalSame(ops: seq<Op>, runs: map<nat, Running>, ops': seq<Op>, runs': map<nat, Running>)
    requires |ops| == |ops'|
    requires forall j :: 0 <= j < |ops| ==> OpLeft(ops'[j], runs') == OpLeft(ops[j], runs)
    ensures Total(ops', runs') == Total(ops, runs)
    decreases |ops|
  {
    hide OpLeft;
    if ops != [] {
      TotalSame(ops[1..], runs, ops'[1..], runs');
    }
  }

  /** Everything but the counts, the function object, the registration and what completed it. */
  predicate Unmoved(a: Op, b: Op) {
    && b.init == a.init && b.callback == a.callback && b.winner == a.winner && b.arrived == a.arrived
    && b.slotAssigned == a.slotAssigned && b.postOk == a.postOk && b.kind == a.kind
    && (b.region.NoRegion? <==> a.region.NoRegion?)
  }

  /** Dropping references and completing move nothing else. */
  lemma Dropped(op: Op, outcome: Outcome)
    ensures Unmoved(op, DropSelf(op)) && Unmoved(op, DropAwaitable(op)) && Unmoved(op, Complete(op, outcome))
  {
    hide DropAwaitable, DropImpl;
    AwaitableDropped(op);
    ImplDropped(op.(selfRefs := 0));
    ImplDropped(op.(completions := op.completions + 1, outcome := outcome));
  }

  lemma AwaitableDropped(op: Op)
    ensures Unmoved(op, DropAwaitable(op))
  {
  }

  lemma ImplDropped(op: Op)
    ensures Unmoved(op, DropImpl(op))
  {
    hide DropAwaitable;
    AwaitableDropped(op.(implHeld := false));
  }

  lemma Destroys(op: Op)
    ensures Unmoved(op.(callback := Gone), DestroyCallback(op))
  {
    hide DropSelf, DropAwaitable;
    var a := op.(callback := Gone, destroys := op.destroys + 1, tookAtDestroy := op.winner == Took);
    Dropped(a, Aborted);
    Dropped(DropSelf(a), Aborted);
  }

  lemma Returns(op: Op)
    ensures Unmoved(op.(init := Returned), DropAwaitable(DropSelf(op.(init := Returned))))
  {
    hide DropSelf, DropAwaitable;
    Dropped(op.(init := Returned), Aborted);
    Dropped(DropSelf(op.(init := Returned)), Aborted);
  }

  /** The initiating function's steps up to its post. */
  predicate Sets(step: Step) {
    step.Enter? || step.AssignSlot? || step.SkipSlot? || step.MakeCallback? || step.PostFail?
  }

  lemma SetupLess(s: State, step: Step)
    requires Enabled(s, step) && Sets(step) && OpOk(s.ops[step.i])
    ensures OpLeft(Apply(s, step).ops[step.i], s.runs) < OpLeft(s.ops[step.i], s.runs)
  {
    hide OpOk;
    OpFacts(s.ops[step.i]);
  }

  /** A cancellation handler has gone on, or there is one less to come. */
  lemma HandlerLess(op: Op, op': Op, runs: map<nat, Running>)
    requires op'.init == op.init && op'.callback == op.callback
    requires WinnerLeft(op'.winner) + op'.arrived < WinnerLeft(op.winner) + op.arrived
    ensures OpLeft(op', runs) < OpLeft(op, runs)
  {
  }

  lemma TestLess(s: State, i: nat)
    requires Enabled(s, CancelTest(i)) && Apply(s, CancelTest(i)).fault == NoFault
    ensures OpLeft(Apply(s, CancelTest(i)).ops[i], s.runs) < OpLeft(s.ops[i], s.runs)
  {
    hide OpLeft;
    var op := s.ops[i].(arrived := s.ops[i].arrived - 1);
    assert Apply(s, CancelTest(i)).ops[i] == if op.flag then op else op.(flag := true, winner := Took);
    HandlerLess(s.ops[i], Apply(s, CancelTest(i)).ops[i], s.runs);
  }

  lemma LockLess(s: State, i: nat)
    requires Enabled(s, CancelLock(i))
    ensures OpLeft(Apply(s, CancelLock(i)).ops[i], s.runs) < OpLeft(s.ops[i], s.runs)
  {
    hide OpLeft;
    HandlerLess(s.ops[i], TryLock(s.ops[i]), s.runs);
  }

  lemma CompleteLess(s: State, i: nat)
    requires Enabled(s, CancelComplete(i)) && Apply(s, CancelComplete(i)).fault == NoFault
    ensures OpLeft(Apply(s, CancelComplete(i)).ops[i], s.runs) < OpLeft(s.ops[i], s.runs)
  {
    hide OpLeft, Complete;
    Dropped(s.ops[i], Aborted);
    HandlerLess(s.ops[i], Complete(s.ops[i], Aborted).(winner := Completed), s.runs);
  }

  lemma ReleaseLess(s: State, i: nat)
    requires Enabled(s, CancelRelease(i)) && Apply(s, CancelRelease(i)).fault == NoFault
    ensures OpLeft(Apply(s, CancelRelease(i)).ops[i], s.runs) < OpLeft(s.ops[i], s.runs)
  {
    hide OpLeft, DropSelf;
    Dropped(s.ops[i], Aborted);
    HandlerLess(s.ops[i], DropSelf(s.ops[i]).(winner := Released), s.runs);
  }

  lemma EndLess(s: State, step: Step)
    requires Enabled(s, step) && (step.DestroyUnposted? || step.Return?) && Apply(s, step).fault == NoFault
    ensures OpLeft(Apply(s, step).ops[step.i], s.runs) < OpLeft(s.ops[step.i], s.runs)
  {
    hide DropSelf, DropAwaitable, DestroyCallback;
    Destroys(s.ops[step.i]);
    Returns(s.ops[step.i]);
  }

  /** The step of an operation that no completion is about. */
  lemma QuietLess(s: State, step: Step)
    requires Inv(s) && Enabled(s, step) && !Arrival(step) && !TouchesWork(step) && Apply(s, step).fault == NoFault
    ensures step.i < |s.ops| == |Apply(s, step).ops|
    ensures OpLeft(Apply(s, step).ops[step.i], s.runs) < OpLeft(s.ops[step.i], s.runs)
  {
    hide Inv, OpOk, Apply, OpLeft;
    SameLength(s, step);
    if Sets(step) {
      OpAt(s, step.i);
      SetupLess(s, step);
    } else if step.CancelTest? {
      TestLess(s, step.i);
    } else if step.CancelLock? {
      LockLess(s, step.i);
    } else if step.CancelComplete? {
      CompleteLess(s, step.i);
    } else if step.CancelRelease? {
      ReleaseLess(s, step.i);
    } else {
      EndLess(s, step);
    }
  }

  lemma PostLess(s: State, step: Step)
    requires Inv(s) && Enabled(s, step) && (step.Post? || step.Hardware? || step.Invoke?)
    requires Apply(s, step).fault == NoFault
    ensures var i, t := Subject(s, step), Apply(s, step);
            i < |s.ops| == |t.ops| && OpLeft(t.ops[i], t.runs) < OpLeft(s.ops[i], s.runs)
  {
    hide Inv, OpOk;
    match step {
      case Post(i, _) =>
        OpAt(s, i);
        OpFacts(s.ops[i]);
      case Hardware(tag, _) => WorkAt(s, tag, false);
      case Invoke(tag) => CompletionFindsOwner(s, tag);
    }
  }

  lemma RunLess(s: State, step: Step)
    requires Inv(s) && Enabled(s, step) && (step.TestFlag? || step.CompleteOp? || step.DestroyRun?)
    requires Apply(s, step).fault == NoFault
    ensures var i, t := Subject(s, step), Apply(s, step);
            i < |s.ops| == |t.ops| && OpLeft(t.ops[i], t.runs) < OpLeft(s.ops[i], s.runs)
  {
    hide Inv, OpOk, Complete, DestroyCallback;
    RunAt(s, step.tag);
    Dropped(s.ops[s.runs[step.tag].target], FromCompletion(step.tag));
    Destroys(s.ops[s.runs[step.tag].target]);
  }

  /** The poller's runs that belong to another operation are as they were. */
  lemma OthersLeft(s: State, step: Step, j: nat)
    requires Inv(s) && Enabled(s, step) && !step.New? && j < |s.ops| && j != Subject(s, step)
    requires Apply(s, step).fault == NoFault
    ensures var t := Apply(s, step); j < |t.ops| && OpLeft(t.ops[j], t.runs) == OpLeft(s.ops[j], s.runs)
  {
    hide Inv, Apply, OpOk;
    OthersStay(s, step, j);
    OpAt(s, j);
    TagsOf(s);
    if TouchesWork(step) {
      OtherRuns(s, step, j);
    } else {
      TablesStay(s, step);
    }
  }

  lemma OtherRuns(s: State, step: Step, j: nat)
    requires Enabled(s, step) && TouchesWork(step) && j < |s.ops| && j != Subject(s, step) && TagsApart(s)
    requires PlacedOk(s, j) && Apply(s, step).fault == NoFault
    ensures CallbackLeft(s.ops[j].callback, Apply(s, step).runs) == CallbackLeft(s.ops[j].callback, s.runs)
  {
    hide DestroyCallback, Complete, Posted;
  }

  lemma OnlyTerminated(s: State, step: Step)
    requires Inv(s) && Enabled(s, step) && Apply(s, step).fault != NoFault
    ensures Apply(s, step).ops == s.ops && Apply(s, step).runs == s.runs
  {
    hide Inv, DestroyCallback, Complete, Posted, DropSelf, DropAwaitable;
    StepInv(s, step);
    NoOtherFault(Apply(s, step));
  }

  lemma SameLength(s: State, step: Step)
    requires Enabled(s, step) && !step.New?
    ensures |Apply(s, step).ops| == |s.ops|
  {
    hide DestroyCallback, Complete, Posted, DropSelf, DropAwaitable;
  }

  /** Every step but a new operation and a new signal brings the operations closer to rest, failures included. */
  lemma StepDecreases(s: State, step: Step)
    requires Inv(s) && Enabled(s, step) && !Arrival(step)
    ensures Measure(Apply(s, step)) < Measure(s)
  {
    hide Inv, Apply, OpLeft;
    var t := Apply(s, step);
    if t.fault != NoFault {
      OnlyTerminated(s, step);
    } else {
      var i := Subject(s, step);
      if TouchesWork(step) {
        if step.Post? || step.Hardware? || step.Invoke? {
          PostLess(s, step);
        } else {
          RunLess(s, step);
        }
      } else {
        QuietLess(s, step);
        TablesStay(s, step);
      }
      SameLength(s, step);
      forall j: nat | j < |s.ops| && j != i
        ensures OpLeft(t.ops[j], t.runs) == OpLeft(s.ops[j], s.runs)
      {
        OthersLeft(s, step, j);
      }
      TotalLess(s.ops, s.runs, t.ops, t.runs, i);
    }
  }

  // ---------------------------------------------------------------- runs

  predicate NoArrival(run: seq<Step>) {
    forall k :: 0 <= k < |run| ==> !Arrival(run[k])
  }

  lemma {:induction false} RunBounded(s: State, run: seq<Step>, t: State)
    requires Inv(s) && Run(s, run, t) && NoArrival(run)
    ensures |run| + Measure(t) <= Measure(s)
    decreases |run|
  {
    hide Inv, Enabled, Apply, Measure, Arrival;
    if run != [] {
      StepInv(s, run[0]);
      StepDecreases(s, run[0]);
      RunBounded(Apply(s, run[0]), run[1..], t);
    }
  }

  /** Where nothing goes on without failing, nothing goes on at all. */
  lemma AtRest(s: State)
    requires s.fault == NoFault && forall step :: Enabled(s, step) ==> !Proceeds(step)
    ensures Quiescent(s)
  {
    forall step | Enabled(s, step)
      ensures step.New? || step.Signal?
    {
      if step.PostFail? {
        var tag := FreshTag(s);
        assert Enabled(s, Post(step.i, tag));
      } else if step.Hardware? {
        assert Enabled(s, Hardware(step.tag, true));
      }
    }
  }

  /** How an operation ends: its callback deleted once, and completed once but for the two exceptions. */
  predicate Settled(op: Op) {
    && op.init == Returned && op.callback == Gone && op.destroys == 1 && op.completions <= 1
    && (op.postOk ==> (op.completions == 0 <==> op.winner == LockFailed))
    && (!op.postOk ==> (op.completions == 0 <==> op.winner != Released))
  }

  /**
   * Without new operations and new signals every run is bounded, failures included; and when it can go
   * no further without one, either an error completion has ended the process or every operation has
   * come to its end.
   */
  lemma OperationsEnd(s: State, run: seq<Step>, t: State)
    requires Reachable(s) && Run(s, run, t) && NoArrival(run)
    ensures |run| <= Measure(s)
    ensures (exists step :: Enabled(t, step) && Proceeds(step)) || t.fault == Terminated
            || forall i: nat :: i < |t.ops| ==> Settled(t.ops[i])
  {
    hide Reachable, Inv, Measure, Run, Enabled, Proceeds, NoArrival, Quiescent;
    ReachableInv(s);
    RunBounded(s, run, t);
    RunInv(s, run, t);
    NoOtherFault(t);
    if t.fault != Terminated && forall step :: Enabled(t, step) ==> !Proceeds(step) {
      AtRest(t);
      ReachableThen(s, run, t);
      forall i: nat | i < |t.ops|
        ensures Settled(t.ops[i])
      {
        OutcomeAtRest(t, i);
      }
    }
  }

  lemma {:induction false} ReachableThen(s: State, run: seq<Step>, t: State)
    requires Reachable(s) && Run(s, run, t)
    ensures Reachable(t)
    decreases |run|
  {
    hide Reachable, Enabled, Apply;
    if run != [] {
      Take(s, run[0]);
      ReachableThen(Apply(s, run[0]), run[1..], t);
    }
  }
}
