/**
 * Operations on the asio path: initiating function, poller callback and cancellation handler race
 * on a flag, on the shared and weak pointers to the composed operation, and on a heap callback whose
 * address is the work request's id.
 *
 * A state holds any number of operations. test_and_set, lock, callback invocation, completion,
 * callback destruction and post are separate steps. Reference counts are explicit: an object is
 * released when its count reaches zero.
 *
 * Handlers of cancellation signals that have not tested the flag yet do not differ, so only their
 * number is kept; the one that sets the flag is followed step by step. Op.postOk, Op.cbWon,
 * Op.cbDone, Op.destroys and Op.tookAtDestroy, and the owner of a work request, are history.
 */
module AsioCompletion {
  datatype Kind = Send | Recv

  /** Where the initiating function stands. */
  datatype Initiation = Fresh | SelfReady | SlotDone | CallbackReady | PostDone | PostFailed | Returned

  /** The heap callback of an operation. */
  datatype Callback =
    | NotMade
    | Made               // held by the initiating function only
    | InRequest(tag: nat)  // its address is the id of a posted work request
    | InCompletion(tag: nat) // ... of a completion in the queue
    | InRun(tag: nat)      // ... of the completion the poller is processing
    | Gone               // deleted

  /** The cancellation handler that set the flag. */
  datatype Winner =
    | NoWinner
    | Took      // test_and_set returned false, lock not tried
    | Locked    // lock succeeded
    | Completed // complete called, still holding the locked pointer
    | Released
    | LockFailed

  datatype Registration = NoRegion | Registered | Deregistered

  /** How the operation completed. */
  datatype Outcome = Pending | FromCompletion(tag: nat) | Aborted

  datatype Op = Op(kind: Kind, init: Initiation, slotAssigned: bool, flag: bool, selfRefs: nat, awaitRefs: nat,
                   implHeld: bool, region: Registration, callback: Callback, addr: nat, arrived: nat, winner: Winner,
                   completions: nat, outcome: Outcome, requestTag: nat,
                   postOk: bool, cbWon: bool, cbDone: bool, destroys: nat, tookAtDestroy: bool)

  /** A posted work request, or its completion: the id it carries and the operation that posted it. */
  datatype Work = Work(wrId: nat, owner: nat, ok: bool)

  /** The poller inside a callback: which operation the callback at that address belongs to. */
  datatype RunStage = Entered | Won | Finished
  datatype Running = Running(addr: nat, target: nat, owner: nat, ok: bool, stage: RunStage)

  datatype Fault =
    | NoFault
    | CalledDead      // the poller called a deleted callback
    | FreedDead       // a callback was deleted twice
    | Underflow       // a reference was dropped that nobody held
    | CompletedTwice  // complete called on a completed operation
    | TwoWinners      // two cancellation handlers passed the flag
    | Terminated      // an error completion threw inside a noexcept function

  datatype State = State(ops: seq<Op>, heap: map<nat, nat>, requests: map<nat, Work>, completions: map<nat, Work>,
                         runs: map<nat, Running>, fault: Fault)

  datatype Step =
    | New(kind: Kind, owning: bool)
    | Enter(i: nat)
    | AssignSlot(i: nat)
    | SkipSlot(i: nat)
    | MakeCallback(i: nat, addr: nat)
    | Post(i: nat, tag: nat)
    | PostFail(i: nat)
    | DestroyUnposted(i: nat)
    | Return(i: nat)
    | Hardware(tag: nat, ok: bool)
    | Invoke(tag: nat)
    | TestFlag(tag: nat)
    | CompleteOp(tag: nat)
    | DestroyRun(tag: nat)
    | Signal(i: nat)
    | CancelTest(i: nat)
    | CancelLock(i: nat)
    | CancelComplete(i: nat)
    | CancelRelease(i: nat)

  // ---------------------------------------------------------------- reference counts

  /** Dropping a reference touches the counts, the function object and the registration only. */
  predicate Untouched(a: Op, b: Op) {
    b.callback == a.callback && b.addr == a.addr && b.flag == a.flag && b.cbWon == a.cbWon && b.cbDone == a.cbDone
    && b.postOk == a.postOk && b.winner == a.winner && b.init == a.init && b.kind == a.kind
    && (b.region.NoRegion? <==> a.region.NoRegion?)
  }

  function DropAwaitable(op: Op): (r: Op)
    ensures Untouched(op, r) && r.completions == op.completions
  {
    if op.awaitRefs == 1 then
      op.(awaitRefs := 0, region := if op.region == Registered then Deregistered else op.region)
    else if op.awaitRefs == 0 then op
    else op.(awaitRefs := op.awaitRefs - 1)
  }

  /** The composed operation's object is destroyed with the function object it holds. */
  function DropImpl(op: Op): (r: Op)
    ensures Untouched(op, r) && r.completions == op.completions
  {
    if op.implHeld then DropAwaitable(op.(implHeld := false)) else op
  }

  function DropSelf(op: Op): (r: Op)
    ensures Untouched(op, r) && r.completions == op.completions
  {
    if op.selfRefs == 1 then DropImpl(op.(selfRefs := 0))
    else if op.selfRefs == 0 then op
    else op.(selfRefs := op.selfRefs - 1)
  }

  /** complete consumes the function object. */
  function Complete(op: Op, outcome: Outcome): (r: Op)
    ensures Untouched(op, r) && r.completions == op.completions + 1
  {
    DropImpl(op.(completions := op.completions + 1, outcome := outcome))
  }

  function DestroyCallback(op: Op): (r: Op)
    ensures r.callback == Gone && r.completions == op.completions && r.postOk == op.postOk
    ensures r.init == op.init && r.kind == op.kind && (r.region.NoRegion? <==> op.region.NoRegion?)
  {
    DropAwaitable(DropSelf(op.(callback := Gone, destroys := op.destroys + 1, tookAtDestroy := op.winner == Took)))
  }

  // ---------------------------------------------------------------- steps

  predicate Is(s: State, i: nat, init: Initiation) {
    i < |s.ops| && s.ops[i].init == init
  }

  predicate WinnerIs(s: State, i: nat, winner: Winner) {
    i < |s.ops| && s.ops[i].winner == winner
  }

  predicate Unused(s: State, tag: nat) {
    tag !in s.requests && tag !in s.completions && tag !in s.runs
  }

  predicate Enabled(s: State, step: Step) {
    && s.fault == NoFault
    && match step
       case New(_, _) => true
       case Enter(i) => Is(s, i, Fresh)
       case AssignSlot(i) => Is(s, i, SelfReady) && s.ops[i].kind == Recv
       case SkipSlot(i) => Is(s, i, SelfReady)
       case MakeCallback(i, addr) => Is(s, i, SlotDone) && addr !in s.heap
       case Post(i, tag) => Is(s, i, CallbackReady) && Unused(s, tag)
       case PostFail(i) => Is(s, i, CallbackReady)
       case DestroyUnposted(i) => Is(s, i, PostFailed) && s.ops[i].callback == Made
       case Return(i) => Is(s, i, PostDone) || (Is(s, i, PostFailed) && s.ops[i].callback == Gone)
       case Hardware(tag, _) => tag in s.requests
       case Invoke(tag) => tag in s.completions
       case TestFlag(tag) => tag in s.runs && s.runs[tag].stage == Entered && s.runs[tag].target < |s.ops|
       case CompleteOp(tag) => tag in s.runs && s.runs[tag].stage == Won && s.runs[tag].target < |s.ops|
       case DestroyRun(tag) => tag in s.runs && s.runs[tag].stage == Finished && s.runs[tag].target < |s.ops|
       case Signal(i) => i < |s.ops| && s.ops[i].slotAssigned
       case CancelTest(i) => i < |s.ops| && s.ops[i].arrived > 0
       case CancelLock(i) => WinnerIs(s, i, Took)
       case CancelComplete(i) => WinnerIs(s, i, Locked)
       case CancelRelease(i) => WinnerIs(s, i, Completed)
  }

  /** Neither requests nor completions nor the poller's runs change, and no exception ends the process. */
  predicate SameWork(s: State, t: State) {
    t.requests == s.requests && t.completions == s.completions && t.runs == s.runs
      && (t.fault == Terminated ==> s.fault == Terminated)
  }

  /** Only operation i changed among the operations. */
  predicate OnlyOp(s: State, t: State, i: nat) {
    i < |s.ops| == |t.ops| && forall j: nat :: j < |s.ops| && j != i ==> t.ops[j] == s.ops[j]
  }

  function SetOp(s: State, i: nat, op: Op): (t: State)
    requires i < |s.ops|
    ensures OnlyOp(s, t, i)
  {
    s.(ops := s.ops[i := op])
  }

  function NewOp(kind: Kind, owning: bool): Op {
    Op(kind, Fresh, false, false, 0, 1, true, if owning then Registered else NoRegion, NotMade, 0, 0, NoWinner,
       0, Pending, 0, false, false, false, 0, false)
  }

  /** The initiating function moves the operation behind a shared pointer and copies the awaitable's. */
  function TakePointers(op: Op): (r: Op)
    ensures r.region == op.region
    ensures r.completions == op.completions
  {
    op.(init := SelfReady, selfRefs := 1, awaitRefs := op.awaitRefs + 1)
  }

  /** The cancellation handler holds the awaitable, and the operation weakly. */
  function TakeSlot(op: Op): (r: Op)
    ensures r.region == op.region
    ensures r.completions == op.completions
  {
    op.(init := SlotDone, slotAssigned := true, awaitRefs := op.awaitRefs + 1)
  }

  function Allocate(op: Op, addr: nat): (r: Op)
    ensures r.region == op.region
    ensures r.completions == op.completions && r.callback == Made
  {
    op.(init := CallbackReady, callback := Made, addr := addr, selfRefs := op.selfRefs + 1,
        awaitRefs := op.awaitRefs + 1)
  }

  function Posted(op: Op, tag: nat): (r: Op)
    ensures r.region == op.region
    ensures r.completions == op.completions && r.callback == InRequest(tag)
  {
    op.(init := PostDone, callback := InRequest(tag), postOk := true, requestTag := tag)
  }

  function TryLock(op: Op): (r: Op)
    ensures r.region == op.region
    ensures r.completions == op.completions && r.postOk == op.postOk && r.callback == op.callback
    ensures r.init == op.init && r.kind == op.kind
  {
    if op.selfRefs == 0 then op.(winner := LockFailed) else op.(winner := Locked, selfRefs := op.selfRefs + 1)
  }

  /** The callback at addr is deleted: its captures go, and the address may be used again. */
  function DoDestroy(s: State, addr: nat, i: nat): (t: State)
    requires i < |s.ops|
    ensures SameWork(s, t) && OnlyOp(s, t, i)
  {
    if addr !in s.heap then s.(fault := FreedDead)
    else if s.ops[i].selfRefs == 0 || s.ops[i].awaitRefs == 0 then s.(fault := Underflow)
    else SetOp(s, i, DestroyCallback(s.ops[i])).(heap := s.heap - {addr})
  }

  /** The initiating function drops its two local pointers. */
  function DoReturn(s: State, i: nat): (t: State)
    requires i < |s.ops|
    ensures SameWork(s, t) && OnlyOp(s, t, i)
  {
    var op := s.ops[i];
    if op.selfRefs == 0 || op.awaitRefs == 0 then s.(fault := Underflow)
    else SetOp(s, i, DropAwaitable(DropSelf(op.(init := Returned))))
  }

  /** The poller calls the function at the address that the completion carries. */
  function DoInvoke(s: State, tag: nat): State
    requires tag in s.completions
  {
    var w := s.completions[tag];
    if w.wrId !in s.heap || s.heap[w.wrId] >= |s.ops| then
      s.(fault := CalledDead)
    else
      var j := s.heap[w.wrId];
      SetOp(s, j, s.ops[j].(callback := InRun(tag)))
      .(completions := s.completions - {tag}, runs := s.runs[tag := Running(w.wrId, j, w.owner, w.ok, Entered)])
  }

  /** A send completes without a flag; a receive only if the flag was clear. */
  function DoTestFlag(s: State, tag: nat): (t: State)
    requires tag in s.runs && s.runs[tag].target < |s.ops|
    ensures OnlyOp(s, t, s.runs[tag].target)
  {
    var r := s.runs[tag];
    var op := s.ops[r.target];
    if op.kind == Recv && op.flag then
      s.(runs := s.runs[tag := r.(stage := Finished)])
    else
      SetOp(s, r.target, op.(flag := true, cbWon := true)).(runs := s.runs[tag := r.(stage := Won)])
  }

  function DoComplete(s: State, tag: nat): (t: State)
    requires tag in s.runs && s.runs[tag].target < |s.ops|
    ensures OnlyOp(s, t, s.runs[tag].target)
  {
    var r := s.runs[tag];
    var op := s.ops[r.target];
    if !r.ok then s.(fault := Terminated)
    else if op.completions > 0 then s.(fault := CompletedTwice)
    else
      SetOp(s, r.target, Complete(op, FromCompletion(tag)).(cbDone := true))
      .(runs := s.runs[tag := r.(stage := Finished)])
  }

  function DoCancelTest(s: State, i: nat): (t: State)
    requires i < |s.ops| && s.ops[i].arrived > 0
    ensures SameWork(s, t) && OnlyOp(s, t, i)
  {
    var op := s.ops[i].(arrived := s.ops[i].arrived - 1);
    if op.flag then SetOp(s, i, op)
    else if op.winner != NoWinner then s.(fault := TwoWinners)
    else SetOp(s, i, op.(flag := true, winner := Took))
  }

  function DoCancelComplete(s: State, i: nat): (t: State)
    requires i < |s.ops|
    ensures SameWork(s, t) && OnlyOp(s, t, i)
  {
    var op := s.ops[i];
    if op.completions > 0 then s.(fault := CompletedTwice)
    else SetOp(s, i, Complete(op, Aborted).(winner := Completed))
  }

  function Apply(s: State, step: Step): State
    requires Enabled(s, step)
  {
    match step
    case New(kind, owning) => s.(ops := s.ops + [NewOp(kind, owning)])
    case Enter(i) => SetOp(s, i, TakePointers(s.ops[i]))
    case AssignSlot(i) => SetOp(s, i, TakeSlot(s.ops[i]))
    case SkipSlot(i) => SetOp(s, i, s.ops[i].(init := SlotDone))
    case MakeCallback(i, addr) => SetOp(s, i, Allocate(s.ops[i], addr)).(heap := s.heap[addr := i])
    case Post(i, tag) =>
      SetOp(s, i, Posted(s.ops[i], tag)).(requests := s.requests[tag := Work(s.ops[i].addr, i, true)])
    case PostFail(i) => SetOp(s, i, s.ops[i].(init := PostFailed))
    case DestroyUnposted(i) => DoDestroy(s, s.ops[i].addr, i)
    case Return(i) => DoReturn(s, i)
    case Hardware(tag, ok) =>
      var w := s.requests[tag];
      var t := s.(requests := s.requests - {tag}, completions := s.completions[tag := w.(ok := ok)]);
      if w.owner < |s.ops| then SetOp(t, w.owner, s.ops[w.owner].(callback := InCompletion(tag))) else t
    case Invoke(tag) => DoInvoke(s, tag)
    case TestFlag(tag) => DoTestFlag(s, tag)
    case CompleteOp(tag) => DoComplete(s, tag)
    case DestroyRun(tag) => DoDestroy(s, s.runs[tag].addr, s.runs[tag].target).(runs := s.runs - {tag})
    case Signal(i) => SetOp(s, i, s.ops[i].(arrived := s.ops[i].arrived + 1))
    case CancelTest(i) => DoCancelTest(s, i)
    case CancelLock(i) => SetOp(s, i, TryLock(s.ops[i]))
    case CancelComplete(i) => DoCancelComplete(s, i)
    case CancelRelease(i) =>
      if s.ops[i].selfRefs == 0 then s.(fault := Underflow) else SetOp(s, i, DropSelf(s.ops[i]).(winner := Released))
  }

  predicate Initial(s: State) {
    s == State([], map[], map[], map[], map[], NoFault)
  }

  predicate Run(s: State, run: seq<Step>, t: State)
    decreases |run|
  {
    if run == [] then s == t else Enabled(s, run[0]) && Run(Apply(s, run[0]), run[1..], t)
  }

  ghost predicate Reachable(t: State) {
    exists s, run :: Initial(s) && Run(s, run, t)
  }
}
