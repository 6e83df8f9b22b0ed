/**
 * When an error completion ends the process: the result of an operation is taken inside a function
 * that must not throw, and taking the result of an error throws.
 */
module AsioTermination {
  import opened AsioCompletion
  import opened AsioPreservation
  import opened AsioSafety
  import opened AsioOutcome

  // ---------------------------------------------------------------- the step that ends it

  /** The poller takes the result of an error completion whose callback won the flag. */
  predicate TakesError(s: State, step: Step) {
    step.CompleteOp? && step.tag in s.runs && s.runs[step.tag].stage == Won && !s.runs[step.tag].ok
  }

  lemma StepTerminates(s: State, step: Step)
    requires Enabled(s, step)
    ensures Apply(s, step).fault == Terminated <==> TakesError(s, step)
  {
    if TouchesWork(step) {
      WorkTerminates(s, step);
    } else {
      hide Apply;
      TablesStay(s, step);
    }
  }

  lemma WorkTerminates(s: State, step: Step)
    requires Enabled(s, step) && TouchesWork(step)
    ensures Apply(s, step).fault == Terminated <==> TakesError(s, step)
  {
    hide DropSelf, DropAwaitable, DestroyCallback, Complete, Posted;
  }

  /** A run that is not empty goes up to its last step, and then takes it. */
  lemma {:induction false} LastStep(s: State, run: seq<Step>, t: State) returns (u: State)
    requires Run(s, run, t) && run != []
    ensures Run(s, run[..|run| - 1], u) && Enabled(u, run[|run| - 1]) && t == Apply(u, run[|run| - 1])
    decreases |run|
  {
    hide Enabled, Apply;
    var rest := run[1..];
    if rest == [] {
      u := s;
    } else {
      u := LastStep(Apply(s, run[0]), rest, t);
      assert run[..|run| - 1] == [run[0]] + rest[..|rest| - 1];
    }
  }

  /**
   * A run ends the process if and only if its last step, taken in the state u that the steps before it
   * reach, takes the result of an error completion whose callback had won the flag. Nothing else does,
   * and nothing happens afterwards.
   */
  lemma TerminatesExactlyIf(s: State, run: seq<Step>, t: State) returns (u: State)
    requires Initial(s) && Run(s, run, t)
    ensures run != [] ==> Run(s, run[..|run| - 1], u)
    ensures t.fault == Terminated <==> run != [] && TakesError(u, run[|run| - 1])
    ensures t.fault == NoFault || t.fault == Terminated
    ensures t.fault == Terminated ==> forall step :: !Enabled(t, step)
  {
    hide Run, Inv, TakesError;
    MemorySafety(s, run, t);
    u := s;
    if run != [] {
      u := LastStep(s, run, t);
      StepTerminates(u, run[|run| - 1]);
    } else {
      assert t == s by {
        EmptyRun(s, t);
      }
    }
  }

  lemma EmptyRun(s: State, t: State)
    requires Run(s, [], t)
    ensures t == s
  {
  }

  // ---------------------------------------------------------------- which error completions end it

  /** The callback at tag has won the flag with an error completion. */
  predicate Doomed(s: State, tag: nat) {
    tag in s.runs && s.runs[tag].stage == Won && !s.runs[tag].ok
  }

  lemma DoomedStep(s: State, step: Step, tag: nat)
    requires Inv(s) && Enabled(s, step) && Doomed(s, tag)
    ensures Apply(s, step).fault == Terminated || Doomed(Apply(s, step), tag)
  {
    hide Inv;
    if TouchesWork(step) {
      DoomedWork(s, step, tag);
    } else {
      hide Apply;
      TablesStay(s, step);
    }
  }

  lemma DoomedWork(s: State, step: Step, tag: nat)
    requires Inv(s) && Enabled(s, step) && TouchesWork(step) && Doomed(s, tag)
    ensures Apply(s, step).fault == Terminated || Doomed(Apply(s, step), tag)
  {
    hide Inv, DropSelf, DropAwaitable, DestroyCallback, Complete, Posted;
    TagsOf(s);
  }

  lemma {:induction false} DoomedRun(s: State, run: seq<Step>, t: State, tag: nat)
    requires Inv(s) && Run(s, run, t) && Doomed(s, tag)
    ensures t.fault == Terminated || Doomed(t, tag)
    decreases |run|
  {
    hide Inv, Enabled, Apply, Doomed;
    if run != [] {
      var u := Apply(s, run[0]);
      StepInv(s, run[0]);
      DoomedStep(s, run[0], tag);
      if u.fault == Terminated {
        EndIsEnd(u, run[1..], t);
      } else {
        DoomedRun(u, run[1..], t, tag);
      }
    }
  }

  lemma EndIsEnd(s: State, run: seq<Step>, t: State)
    requires s.fault == Terminated && Run(s, run, t)
    ensures t == s
  {
  }

  /** A doomed state still goes on, and when nothing is left to do the process has ended. */
  lemma DoomedEnds(s: State, tag: nat)
    requires Inv(s) && s.fault == NoFault && Doomed(s, tag)
    ensures Enabled(s, CompleteOp(tag)) && Apply(s, CompleteOp(tag)).fault == Terminated
  {
    hide Inv, OpOk;
    RunAt(s, tag);
  }

  /** Some continuation brings the poller past the completion with this tag. */
  ghost predicate GetsPast(s: State, tag: nat) {
    exists run, t :: Run(s, run, t) && t.fault == NoFault && tag !in t.runs
  }

  lemma SkippedGetsPast(s: State, tag: nat)
    requires Inv(s) && s.fault == NoFault && tag in s.runs && s.runs[tag].stage == Finished
    ensures GetsPast(s, tag)
  {
    hide Inv, OpOk, DestroyCallback;
    RunAt(s, tag);
    DestroyOk(s.ops[s.runs[tag].target]);
    var t := Apply(s, DestroyRun(tag));
    assert [DestroyRun(tag)][1..] == [];
    assert Run(t, [], t);
    assert Run(s, [DestroyRun(tag)], t);
  }

  /**
   * The poller inside a callback with an error completion: from its test of the flag on the process is
   * bound to end if and only if the operation is a send or the flag was clear. A receive whose flag a
   * cancellation handler has set is skipped, and the poller gets past it.
   */
  lemma ErrorEndsExactlyIf(s: State, tag: nat)
    requires Reachable(s) && Enabled(s, TestFlag(tag)) && !s.runs[tag].ok
    ensures var op, t := s.ops[s.runs[tag].target], Apply(s, TestFlag(tag));
            && (op.kind == Send || !op.flag <==> !GetsPast(t, tag))
            && (op.kind == Send || !op.flag ==>
                  forall run, u :: Run(t, run, u) ==> u.fault == Terminated || Enabled(u, CompleteOp(tag)))
  {
    hide Reachable, Inv, Run, GetsPast, OpOk;
    ReachableInv(s);
    RunAt(s, tag);
    var t := Apply(s, TestFlag(tag));
    StepInv(s, TestFlag(tag));
    if Doomed(t, tag) {
      forall run, u | Run(t, run, u)
        ensures u.fault == Terminated || (tag in u.runs && Enabled(u, CompleteOp(tag)))
      {
        RunInv(t, run, u);
        DoomedRun(t, run, u, tag);
        if u.fault != Terminated {
          NoOtherFault(u);
          DoomedEnds(u, tag);
        }
      }
      NotPast(t, tag);
    } else {
      SkippedGetsPast(t, tag);
    }
  }

  lemma NotPast(s: State, tag: nat)
    requires forall run, u :: Run(s, run, u) ==> u.fault == Terminated || tag in u.runs
    ensures !GetsPast(s, tag)
  {
    hide Run;
  }

  // ---------------------------------------------------------------- witnesses

  /** A posted receive whose request fails: the process ends. */
  lemma ErrorCompletionTerminates() returns (s: State)
    ensures Reachable(s) && s.fault == Terminated && |s.ops| == 1 && s.ops[0].kind == Recv
  {
    hide Reachable;
    s := PostedReceive();
    Take(s, Hardware(0, false));
    s := Apply(s, Hardware(0, false));
    Take(s, Invoke(0));
    s := Apply(s, Invoke(0));
    Take(s, TestFlag(0));
    s := Apply(s, TestFlag(0));
    Take(s, CompleteOp(0));
    s := Apply(s, CompleteOp(0));
  }

  /** The same receive, cancelled before the poller tests the flag: the error is skipped. */
  lemma CancelledErrorIsSkipped() returns (s: State)
    ensures Reachable(s) && s.fault == NoFault && |s.ops| == 1 && s.ops[0].callback == Gone && s.ops[0].postOk
    ensures s.ops[0].destroys == 1 && !s.ops[0].cbWon && s.ops[0].winner == Took
  {
    hide Reachable;
    s := PostedReceive();
    Take(s, Signal(0));
    s := Apply(s, Signal(0));
    Take(s, CancelTest(0));
    s := Apply(s, CancelTest(0));
    Take(s, Hardware(0, false));
    s := Apply(s, Hardware(0, false));
    Take(s, Invoke(0));
    s := Apply(s, Invoke(0));
    Take(s, TestFlag(0));
    s := Apply(s, TestFlag(0));
    Take(s, DestroyRun(0));
    s := Apply(s, DestroyRun(0));
  }
}
