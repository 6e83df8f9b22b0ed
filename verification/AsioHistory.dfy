/**
 * What the steps of a run say about its operations: how each was created, whether it can be cancelled,
 * whether its request was posted, and which signals have been taken up.
 */
module AsioHistory {
  import opened AsioCompletion
  import opened AsioPreservation
  import opened AsioSafety
  import opened AsioProgress

  /** The operations created in a run, in order: their kinds, and whether they are on a span. */
  function Created(run: seq<Step>): seq<(Kind, bool)> {
    if run == [] then []
    else (if run[0].New? then [(run[0].kind, run[0].owning)] else []) + Created(run[1..])
  }

  function Signals(run: seq<Step>, i: nat): nat {
    if run == [] then 0 else (if run[0] == Signal(i) then 1 else 0) + Signals(run[1..], i)
  }

  function Tests(run: seq<Step>, i: nat): nat {
    if run == [] then 0 else (if run[0] == CancelTest(i) then 1 else 0) + Tests(run[1..], i)
  }

  predicate PostedIn(run: seq<Step>, i: nat) {
    exists k :: 0 <= k < |run| && run[k].Post? && run[k].i == i
  }

  predicate CreatedAs(op: Op, created: (Kind, bool)) {
    op.kind == created.0 && (op.region.NoRegion? <==> !created.1)
  }

  /** What a step does to an operation that is there, as far as history goes. */
  predicate Records(a: Op, b: Op, step: Step, i: nat) {
    && b.kind == a.kind && (b.region.NoRegion? <==> a.region.NoRegion?)
    && (b.slotAssigned <==> a.slotAssigned || step == AssignSlot(i))
    && (b.postOk <==> a.postOk || (step.Post? && step.i == i))
    && b.arrived + (if step == CancelTest(i) then 1 else 0) == a.arrived + if step == Signal(i) then 1 else 0
  }

  lemma SetupRecords(s: State, step: Step)
    requires Enabled(s, step) && (Sets(step) || step.Signal?)
    ensures step.i < |s.ops| == |Apply(s, step).ops|
    ensures Records(s.ops[step.i], Apply(s, step).ops[step.i], step, step.i)
  {
  }

  lemma TestRecords(s: State, i: nat)
    requires Enabled(s, CancelTest(i)) && Apply(s, CancelTest(i)).fault == NoFault
    ensures i < |s.ops| == |Apply(s, CancelTest(i)).ops|
    ensures Records(s.ops[i], Apply(s, CancelTest(i)).ops[i], CancelTest(i), i)
  {
  }

  lemma LockRecords(s: State, i: nat)
    requires Enabled(s, CancelLock(i))
    ensures i < |s.ops| == |Apply(s, CancelLock(i)).ops|
    ensures Records(s.ops[i], Apply(s, CancelLock(i)).ops[i], CancelLock(i), i)
  {
  }

  lemma AbortRecords(s: State, i: nat)
    requires Enabled(s, CancelComplete(i)) && Apply(s, CancelComplete(i)).fault == NoFault
    ensures i < |s.ops| == |Apply(s, CancelComplete(i)).ops|
    ensures Records(s.ops[i], Apply(s, CancelComplete(i)).ops[i], CancelComplete(i), i)
  {
    hide Complete;
    Dropped(s.ops[i], Aborted);
  }

  lemma ReleaseRecords(s: State, i: nat)
    requires Enabled(s, CancelRelease(i)) && Apply(s, CancelRelease(i)).fault == NoFault
    ensures i < |s.ops| == |Apply(s, CancelRelease(i)).ops|
    ensures Records(s.ops[i], Apply(s, CancelRelease(i)).ops[i], CancelRelease(i), i)
  {
    hide DropSelf;
    Dropped(s.ops[i], Aborted);
  }

  lemma EndRecords(s: State, step: Step)
    requires Enabled(s, step) && (step.DestroyUnposted? || step.Return?) && Apply(s, step).fault == NoFault
    ensures step.i < |s.ops| == |Apply(s, step).ops|
    ensures Records(s.ops[step.i], Apply(s, step).ops[step.i], step, step.i)
  {
    hide DropSelf, DropAwaitable, DestroyCallback;
    Destroys(s.ops[step.i]);
    Returns(s.ops[step.i]);
  }

  lemma PostRecords(s: State, step: Step)
    requires Inv(s) && Enabled(s, step) && (step.Post? || step.Hardware? || step.Invoke?)
    requires Apply(s, step).fault == NoFault
    ensures var i, t := Subject(s, step), Apply(s, step);
            i < |s.ops| == |t.ops| && Records(s.ops[i], t.ops[i], step, i)
  {
    hide Inv, OpOk;
    match step {
      case Post(_, _) =>
      case Hardware(tag, _) => WorkAt(s, tag, false);
      case Invoke(tag) => CompletionFindsOwner(s, tag);
    }
  }

  lemma FlagRecords(s: State, tag: nat)
    requires Enabled(s, TestFlag(tag))
    ensures var i, t := s.runs[tag].target, Apply(s, TestFlag(tag));
            i < |s.ops| == |t.ops| && Records(s.ops[i], t.ops[i], TestFlag(tag), i)
  {
  }

  lemma CompleteRecords(s: State, tag: nat)
    requires Enabled(s, CompleteOp(tag)) && Apply(s, CompleteOp(tag)).fault == NoFault
    ensures var i, t := s.runs[tag].target, Apply(s, CompleteOp(tag));
            i < |s.ops| == |t.ops| && Records(s.ops[i], t.ops[i], CompleteOp(tag), i)
  {
    hide Complete;
    Dropped(s.ops[s.runs[tag].target], FromCompletion(tag));
  }

  lemma DestroyRecords(s: State, tag: nat)
    requires Enabled(s, DestroyRun(tag)) && Apply(s, DestroyRun(tag)).fault == NoFault
    ensures var i, t := s.runs[tag].target, Apply(s, DestroyRun(tag));
            i < |s.ops| == |t.ops| && Records(s.ops[i], t.ops[i], DestroyRun(tag), i)
  {
    hide DestroyCallback;
    Destroys(s.ops[s.runs[tag].target]);
  }

  lemma OwnRecords(s: State, step: Step)
    requires Inv(s) && Enabled(s, step) && !step.New? && Apply(s, step).fault == NoFault
    ensures var i, t := Subject(s, step), Apply(s, step);
            i < |s.ops| == |t.ops| && Records(s.ops[i], t.ops[i], step, i)
  {
    hide Inv, Apply, Records;
    match step
    case Post(_, _) => PostRecords(s, step);
    case Hardware(_, _) => PostRecords(s, step);
    case Invoke(_) => PostRecords(s, step);
    case TestFlag(tag) => FlagRecords(s, tag);
    case CompleteOp(tag) => CompleteRecords(s, tag);
    case DestroyRun(tag) => DestroyRecords(s, tag);
    case DestroyUnposted(_) => EndRecords(s, step);
    case Return(_) => EndRecords(s, step);
    case CancelTest(i) => TestRecords(s, i);
    case CancelLock(i) => LockRecords(s, i);
    case CancelComplete(i) => AbortRecords(s, i);
    case CancelRelease(i) => ReleaseRecords(s, i);
    case _ => SetupRecords(s, step);
  }

  /** A step that ends the process changes no operation; any other changes one as told, or creates one. */
  lemma StepRecords(s: State, step: Step, i: nat)
    requires Inv(s) && Enabled(s, step) && i < |s.ops|
    ensures i < |Apply(s, step).ops| && Records(s.ops[i], Apply(s, step).ops[i], step, i)
  {
    hide Inv, Apply;
    if Apply(s, step).fault != NoFault {
      OnlyTerminated(s, step);
      EndsByCompletion(s, step);
    } else if i == Subject(s, step) {
      OwnRecords(s, step);
    } else {
      OthersStay(s, step, i);
    }
  }

  lemma EndsByCompletion(s: State, step: Step)
    requires Inv(s) && Enabled(s, step) && Apply(s, step).fault != NoFault
    ensures step.CompleteOp?
  {
    hide Inv, DestroyCallback, Complete, Posted, DropSelf, DropAwaitable;
    StepInv(s, step);
    NoOtherFault(Apply(s, step));
  }

  lemma StepCreates(s: State, step: Step)
    requires Enabled(s, step)
    ensures var t := Apply(s, step);
            if step.New? then
              && |t.ops| == |s.ops| + 1 && CreatedAs(t.ops[|s.ops|], (step.kind, step.owning))
              && !t.ops[|s.ops|].slotAssigned && !t.ops[|s.ops|].postOk && t.ops[|s.ops|].arrived == 0
            else |t.ops| == |s.ops|
  {
    hide Apply;
    if step.New? {
      Creates(s, step.kind, step.owning);
    } else {
      SameLength(s, step);
    }
  }

  lemma Creates(s: State, kind: Kind, owning: bool)
    requires Enabled(s, New(kind, owning))
    ensures var t := Apply(s, New(kind, owning));
            && |t.ops| == |s.ops| + 1 && CreatedAs(t.ops[|s.ops|], (kind, owning))
            && !t.ops[|s.ops|].slotAssigned && !t.ops[|s.ops|].postOk && t.ops[|s.ops|].arrived == 0
  {
  }

  /** What the run from s to t says about operation i of t, which s had or which the run created. */
  predicate Recorded(s: State, run: seq<Step>, t: State, i: nat) {
    && i < |t.ops| == |s.ops| + |Created(run)|
    && (if i < |s.ops| then
          t.ops[i].kind == s.ops[i].kind && (t.ops[i].region.NoRegion? <==> s.ops[i].region.NoRegion?)
        else CreatedAs(t.ops[i], Created(run)[i - |s.ops|]))
    && (t.ops[i].slotAssigned <==> (i < |s.ops| && s.ops[i].slotAssigned) || AssignSlot(i) in run)
    && (t.ops[i].postOk <==> (i < |s.ops| && s.ops[i].postOk) || PostedIn(run, i))
    && t.ops[i].arrived + Tests(run, i) == (if i < |s.ops| then s.ops[i].arrived else 0) + Signals(run, i)
  }

  lemma {:induction false} RunRecords(s: State, run: seq<Step>, t: State, i: nat)
    requires Inv(s) && Run(s, run, t) && i < |t.ops|
    ensures Recorded(s, run, t, i)
    decreases |run|
  {
    hide Inv, Enabled, Apply, Recorded;
    if run == [] {
      NothingRecorded(s, i);
    } else {
      StepInv(s, run[0]);
      RunRecords(Apply(s, run[0]), run[1..], t, i);
      FirstRecorded(s, run, t, i);
    }
  }

  lemma NothingRecorded(s: State, i: nat)
    requires i < |s.ops|
    ensures Recorded(s, [], s, i)
  {
  }

  /** No step is about an operation that is not there yet. */
  lemma NotBefore(s: State, step: Step, i: nat)
    requires Enabled(s, step) && i >= |s.ops|
    ensures step != AssignSlot(i) && step != CancelTest(i) && step != Signal(i) && !(step.Post? && step.i == i)
  {
  }

  lemma FirstRecorded(s: State, run: seq<Step>, t: State, i: nat)
    requires Inv(s) && run != [] && Enabled(s, run[0]) && i < |t.ops|
    requires Recorded(Apply(s, run[0]), run[1..], t, i)
    ensures Recorded(s, run, t, i)
  {
    hide Inv, Enabled, Apply;
    var step, rest := run[0], run[1..];
    assert run == [step] + rest;
    StepCreates(s, step);
    PostedFirst(step, rest, i);
    if i < |s.ops| {
      StepRecords(s, step, i);
    } else {
      NotBefore(s, step, i);
    }
  }

  lemma PostedFirst(step: Step, rest: seq<Step>, i: nat)
    ensures PostedIn([step] + rest, i) <==> (step.Post? && step.i == i) || PostedIn(rest, i)
  {
    var run := [step] + rest;
    if PostedIn(rest, i) {
      var k :| 0 <= k < |rest| && rest[k].Post? && rest[k].i == i;
      assert run[k + 1] == rest[k];
    }
    if step.Post? && step.i == i {
      assert run[0] == step;
    }
    if PostedIn(run, i) {
      var k :| 0 <= k < |run| && run[k].Post? && run[k].i == i;
      assert k > 0 ==> rest[k - 1] == run[k];
    }
  }

  /**
   * The operations of a run are those created in it, in order, of the kind and on the buffer that they
   * were created with. One can be cancelled exactly if it took a slot, was posted exactly if it was, and
   * every signal is taken up once or still to come.
   */
  lemma OperationsAsRun(s: State, run: seq<Step>, t: State, i: nat)
    requires Initial(s) && Run(s, run, t)
    ensures |t.ops| == |Created(run)|
    ensures i < |t.ops| ==>
              && CreatedAs(t.ops[i], Created(run)[i])
              && (t.ops[i].slotAssigned <==> AssignSlot(i) in run) && (t.ops[i].postOk <==> PostedIn(run, i))
              && t.ops[i].arrived + Tests(run, i) == Signals(run, i)
  {
    hide Run, Inv;
    InitialInv(s);
    CountOps(s, run, t);
    if i < |t.ops| {
      RunRecords(s, run, t, i);
    }
  }

  lemma {:induction false} CountOps(s: State, run: seq<Step>, t: State)
    requires Run(s, run, t)
    ensures |t.ops| == |s.ops| + |Created(run)|
    decreases |run|
  {
    hide Enabled, Apply;
    if run != [] {
      StepCreates(s, run[0]);
      CountOps(Apply(s, run[0]), run[1..], t);
    }
  }
}
