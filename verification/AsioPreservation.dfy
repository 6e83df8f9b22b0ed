/**
 * The invariant of operations on the asio path, and its preservation by every step: exact reference
 * counts, one winner of the flag, one heap address per live callback, and a one-to-one
 * correspondence between live posted callbacks and requests, completions and poller runs.
 */
module AsioPreservation {
  import opened AsioCompletion

  // ---------------------------------------------------------------- the invariant

  predicate Live(callback: Callback) {
    !callback.NotMade? && !callback.Gone?
  }

  function One(b: bool): nat {
    if b then 1 else 0
  }

  /** The initiating function holds its local pointers. */
  predicate Initiating(init: Initiation) {
    !init.Fresh? && !init.Returned?
  }

  /** The counts are exactly the pointers held. */
  predicate CountsOk(op: Op) {
    && op.selfRefs == One(Initiating(op.init)) + One(Live(op.callback)) + One(op.winner.Locked? || op.winner.Completed?)
    && op.awaitRefs == One(op.implHeld) + One(Initiating(op.init)) + One(Live(op.callback)) + One(op.slotAssigned)
    && (op.implHeld <==> op.completions == 0 && (op.init.Fresh? || op.selfRefs > 0))
    && (op.region.Deregistered? ==> op.awaitRefs == 0)
    && (op.region.Registered? ==> op.awaitRefs > 0)
  }

  /** At most one side passed the flag, and who passed it completes. */
  predicate FlagOk(op: Op) {
    && op.flag == (op.cbWon || op.winner != NoWinner)
    && !(op.cbWon && op.winner != NoWinner)
    && op.completions == One(op.cbDone) + One(op.winner.Completed? || op.winner.Released?)
    && (op.cbDone ==> op.cbWon)
    && (op.kind == Send ==> !op.slotAssigned)
    && (!op.slotAssigned ==> op.winner == NoWinner && op.arrived == 0)
    && (op.cbWon ==> op.callback.InRun? || op.callback.Gone?)
    && (op.outcome.Pending? <==> op.completions == 0)
    && (op.outcome.FromCompletion? ==> op.cbDone && op.outcome.tag == op.requestTag)
    && (op.outcome.Aborted? ==> op.winner.Completed? || op.winner.Released?)
  }

  /** The callback's life. */
  predicate LifeOk(op: Op) {
    && (op.callback.NotMade? <==> op.init.Fresh? || op.init.SelfReady? || op.init.SlotDone?)
    && (op.callback.Made? ==> op.init.CallbackReady? || op.init.PostFailed?)
    && (op.init.CallbackReady? ==> op.callback.Made?)
    && (op.init.PostDone? ==> op.postOk)
    && (op.init.PostFailed? ==> !op.postOk)
    && (op.init.Fresh? ==> !op.slotAssigned)
    && (op.init.SelfReady? ==> !op.slotAssigned)
    && (op.postOk ==> op.init.PostDone? || op.init.Returned?)
    && ((op.callback.InRequest? || op.callback.InCompletion? || op.callback.InRun?) ==>
      op.postOk && TagOf(op.callback) == op.requestTag)
    && (op.init.Returned? && !op.postOk ==> op.callback.Gone?)
    && op.destroys == One(op.callback.Gone?)
    && (op.callback.Gone? && op.postOk ==> op.flag && (op.cbWon ==> op.cbDone))
    && (op.callback.Gone? && !op.postOk ==> !op.cbWon)
    && (op.winner.LockFailed? ==> op.callback.Gone? && op.init.Returned?)
    && (op.callback.Gone? && op.postOk && (op.winner.Took? || op.winner.LockFailed?) ==> op.tookAtDestroy)
  }

  function TagOf(callback: Callback): nat
    requires callback.InRequest? || callback.InCompletion? || callback.InRun?
  {
    match callback
    case InRequest(tag) => tag
    case InCompletion(tag) => tag
    case InRun(tag) => tag
  }

  predicate OpOk(op: Op) {
    CountsOk(op) && FlagOk(op) && LifeOk(op)
  }

  /** Live callbacks are on the heap, each at its own address. */
  predicate HeapOk(s: State, i: nat)
    requires i < |s.ops|
  {
    Live(s.ops[i].callback) ==> s.ops[i].addr in s.heap && s.heap[s.ops[i].addr] == i
  }

  /** A posted work request (done is false) or its completion. */
  predicate WorkOk(ops: seq<Op>, tag: nat, w: Work, done: bool) {
    && w.owner < |ops| && w.wrId == ops[w.owner].addr
    && ops[w.owner].callback == if done then InCompletion(tag) else InRequest(tag)
  }

  function Works(s: State, done: bool): map<nat, Work> {
    if done then s.completions else s.requests
  }

  predicate RunOk(ops: seq<Op>, tag: nat, r: Running) {
    && r.owner == r.target < |ops| && ops[r.target].callback == InRun(tag) && r.addr == ops[r.target].addr
    && match r.stage
       case Entered => !ops[r.target].cbWon
       case Won => ops[r.target].cbWon && !ops[r.target].cbDone
       case Finished => ops[r.target].flag && (ops[r.target].cbWon ==> ops[r.target].cbDone)
  }

  /** A posted callback's address is in exactly the place the callback remembers. */
  predicate PlacedOk(s: State, i: nat)
    requires i < |s.ops|
  {
    match s.ops[i].callback
    case InRequest(tag) => tag in s.requests && s.requests[tag].owner == i
    case InCompletion(tag) => tag in s.completions && s.completions[tag].owner == i
    case InRun(tag) => tag in s.runs && s.runs[tag].target == i
    case _ => true
  }

  /** A request is posted, completed or being processed, never two of these. */
  predicate TagsApart(s: State) {
    s.requests.Keys !! s.completions.Keys && s.requests.Keys !! s.runs.Keys && s.completions.Keys !! s.runs.Keys
  }

  predicate OpsOk(s: State) {
    forall i: nat :: i < |s.ops| ==> OpOk(s.ops[i])
  }

  predicate HeapsOk(s: State) {
    && (forall i: nat :: i < |s.ops| ==> HeapOk(s, i))
    && (forall a :: a in s.heap ==>
      s.heap[a] < |s.ops| && Live(s.ops[s.heap[a]].callback) && s.ops[s.heap[a]].addr == a)
  }

  predicate PlacesOk(s: State) {
    forall i: nat :: i < |s.ops| ==> PlacedOk(s, i)
  }

  predicate WorksOk(s: State, done: bool) {
    forall tag :: tag in Works(s, done) ==> WorkOk(s.ops, tag, Works(s, done)[tag], done)
  }

  predicate RunsOk(s: State) {
    forall tag :: tag in s.runs ==> RunOk(s.ops, tag, s.runs[tag])
  }

  predicate Inv(s: State) {
    && (s.fault == NoFault || s.fault == Terminated)
    && TagsApart(s) && OpsOk(s) && HeapsOk(s) && PlacesOk(s)
    && WorksOk(s, false) && WorksOk(s, true) && RunsOk(s)
  }

  // ---------------------------------------------------------------- preservation, inside one operation

  /** The callback has not moved, and the poller's run of it does not notice the change from a to b. */
  predicate Kept(a: Op, b: Op) {
    && b.callback == a.callback && b.addr == a.addr && b.cbWon == a.cbWon && b.cbDone == a.cbDone
    && (a.flag ==> b.flag)
  }

  predicate Follows(a: Op, b: Op) {
    OpOk(b) && Kept(a, b)
  }

  lemma FreshOk(op: Op)
    requires op.init == Fresh && op.callback == NotMade && op.winner == NoWinner && op.outcome == Pending
    requires !op.slotAssigned && !op.flag && op.implHeld && !op.postOk && !op.cbWon && !op.cbDone
    requires op.selfRefs == 0 && op.awaitRefs == 1 && op.arrived == 0 && op.completions == 0 && op.destroys == 0
    requires !op.region.Deregistered?
    ensures OpOk(op)
  {
  }

  lemma SetupOk(op: Op)
    requires OpOk(op)
    ensures op.init == Fresh ==> Follows(op, TakePointers(op))
    ensures op.init == SelfReady && op.kind == Recv ==> Follows(op, TakeSlot(op))
    ensures op.init == SelfReady ==> Follows(op, op.(init := SlotDone))
    ensures op.init == CallbackReady ==> Follows(op, op.(init := PostFailed))
    ensures op.slotAssigned ==> Follows(op, op.(arrived := op.arrived + 1))
  {
  }

  lemma MadeOk(op: Op, addr: nat)
    requires OpOk(op) && op.init == SlotDone
    ensures op.callback == NotMade && OpOk(Allocate(op, addr))
  {
  }

  lemma PostedOk(op: Op, tag: nat)
    requires OpOk(op) && op.init == CallbackReady
    ensures op.callback == Made && OpOk(Posted(op, tag))
  {
  }

  lemma MovedOk(op: Op, tag: nat)
    requires OpOk(op) && tag == op.requestTag
    ensures op.callback == InRequest(tag) ==> OpOk(op.(callback := InCompletion(tag)))
    ensures op.callback == InCompletion(tag) ==> OpOk(op.(callback := InRun(tag))) && !op.cbWon
  {
  }

  lemma ReturnOk(op: Op)
    requires OpOk(op) && (op.init == PostDone || (op.init == PostFailed && op.callback == Gone))
    ensures op.selfRefs > 0 && op.awaitRefs > 0
    ensures Follows(op, DropAwaitable(DropSelf(op.(init := Returned))))
  {
  }

  lemma CancelTestOk(op: Op)
    requires OpOk(op) && op.arrived > 0
    ensures op.flag ==> Follows(op, op.(arrived := op.arrived - 1))
    ensures !op.flag ==>
              op.winner == NoWinner && Follows(op, op.(arrived := op.arrived - 1, flag := true, winner := Took))
  {
  }

  lemma CancelLockOk(op: Op)
    requires OpOk(op) && op.winner == Took
    ensures Follows(op, TryLock(op))
  {
  }

  lemma CancelCompleteOk(op: Op)
    requires OpOk(op) && op.winner == Locked
    ensures op.completions == 0 && Follows(op, Complete(op, Aborted).(winner := Completed))
  {
  }

  lemma CancelReleaseOk(op: Op)
    requires OpOk(op) && op.winner == Completed
    ensures op.selfRefs > 0 && Follows(op, DropSelf(op).(winner := Released))
  {
  }

  lemma FlagTestedOk(op: Op)
    requires OpOk(op) && op.callback.InRun? && !op.cbWon && !(op.kind == Recv && op.flag)
    ensures !op.cbDone && OpOk(op.(flag := true, cbWon := true))
  {
  }

  lemma CallbackCompletesOk(op: Op, tag: nat)
    requires OpOk(op) && op.callback == InRun(tag) && op.cbWon && !op.cbDone
    ensures op.completions == 0 && op.flag && OpOk(Complete(op, FromCompletion(tag)).(cbDone := true))
  {
  }

  lemma DestroyOk(op: Op)
    requires OpOk(op)
    requires (op.callback == Made && op.init == PostFailed)
             || (op.callback.InRun? && op.flag && (op.cbWon ==> op.cbDone))
    ensures op.selfRefs > 0 && op.awaitRefs > 0 && OpOk(DestroyCallback(op))
  {
  }

  // ---------------------------------------------------------------- preservation, among operations

  lemma OpAt(s: State, i: nat)
    requires Inv(s) && i < |s.ops|
    ensures OpOk(s.ops[i]) && HeapOk(s, i) && PlacedOk(s, i)
  {
    hide OpOk, WorksOk, RunsOk;
  }

  lemma WorkAt(s: State, tag: nat, done: bool)
    requires Inv(s) && tag in Works(s, done)
    ensures WorkOk(s.ops, tag, Works(s, done)[tag], done)
  {
    hide OpsOk, HeapsOk, PlacesOk, RunsOk, WorkOk;
  }

  lemma RunAt(s: State, tag: nat)
    requires Inv(s) && tag in s.runs
    ensures RunOk(s.ops, tag, s.runs[tag]) && OpOk(s.ops[s.runs[tag].target])
    ensures HeapOk(s, s.runs[tag].target) && PlacedOk(s, s.runs[tag].target)
  {
    hide OpOk, WorksOk, HeapOk, PlacedOk;
    OpAt(s, s.runs[tag].target);
  }

  /** A step of operation i that moves neither its callback nor what the poller's run depends on. */
  lemma LocalStep(s: State, i: nat, op: Op)
    requires Inv(s) && i < |s.ops| && Follows(s.ops[i], op)
    ensures Inv(SetOp(s, i, op))
  {
    hide Inv, OpOk, RunOk;
    var t := SetOp(s, i, op);
    assert OpsOk(t) && HeapsOk(t) && PlacesOk(t) by {
      LocalOps(s, i, op);
    }
    LocalTables(s, i, op);
    LocalRest(s, i, op);
  }

  lemma LocalOps(s: State, i: nat, op: Op)
    requires Inv(s) && i < |s.ops| && Follows(s.ops[i], op)
    ensures var t := SetOp(s, i, op); OpsOk(t) && HeapsOk(t) && PlacesOk(t)
  {
    hide OpOk, WorksOk, RunsOk;
    var t := SetOp(s, i, op);
    forall j: nat | j < |t.ops|
      ensures HeapOk(t, j) && PlacedOk(t, j)
    {
      OpAt(s, j);
    }
  }

  lemma LocalTables(s: State, i: nat, op: Op)
    requires Inv(s) && i < |s.ops| && Follows(s.ops[i], op)
    ensures var t := SetOp(s, i, op); WorksOk(t, false) && WorksOk(t, true) && RunsOk(t)
  {
    hide Inv, OpOk;
    var t := SetOp(s, i, op);
    forall tag, done | tag in Works(t, done)
      ensures WorkOk(t.ops, tag, Works(t, done)[tag], done)
    {
      WorkAt(s, tag, done);
    }
    forall tag | tag in t.runs
      ensures RunOk(t.ops, tag, t.runs[tag])
    {
      RunAt(s, tag);
    }
  }

  lemma LocalRest(s: State, i: nat, op: Op)
    requires Inv(s) && i < |s.ops| && Follows(s.ops[i], op)
    requires var t := SetOp(s, i, op); OpsOk(t) && HeapsOk(t) && PlacesOk(t)
    requires var t := SetOp(s, i, op); WorksOk(t, false) && WorksOk(t, true) && RunsOk(t)
    ensures Inv(SetOp(s, i, op))
  {
    hide OpsOk, HeapsOk, PlacesOk, WorksOk, RunsOk;
  }

  lemma NewInv(s: State, kind: Kind, owning: bool)
    requires Inv(s)
    ensures Inv(s.(ops := s.ops + [NewOp(kind, owning)]))
  {
    hide OpOk;
    var t := s.(ops := s.ops + [NewOp(kind, owning)]);
    FreshOk(NewOp(kind, owning));
    forall j: nat | j < |t.ops|
      ensures HeapOk(t, j) && PlacedOk(t, j)
    {
      if j < |s.ops| {
        OpAt(s, j);
      }
    }
    forall tag, done | tag in Works(t, done)
      ensures WorkOk(t.ops, tag, Works(t, done)[tag], done)
    {
      WorkAt(s, tag, done);
    }
  }

  lemma SetupInv(s: State, step: Step)
    requires Inv(s) && Enabled(s, step)
    requires (step.Enter? || step.AssignSlot? || step.SkipSlot? || step.PostFail? || step.Signal?)
    ensures Inv(Apply(s, step))
  {
    hide Inv, OpOk;
    OpAt(s, step.i);
    SetupOk(s.ops[step.i]);
    LocalStep(s, step.i, Apply(s, step).ops[step.i]);
  }

  lemma CancelInv(s: State, step: Step)
    requires Inv(s) && Enabled(s, step)
    requires (step.CancelTest? || step.CancelLock? || step.CancelComplete? || step.CancelRelease?)
    ensures Inv(Apply(s, step))
  {
    hide Inv, OpOk, Kept, DropSelf, Complete;
    OpAt(s, step.i);
    var op := s.ops[step.i];
    match step {
      case CancelTest(i) => CancelTestOk(op);
      case CancelLock(i) => CancelLockOk(op);
      case CancelComplete(i) => CancelCompleteOk(op);
      case CancelRelease(i) => CancelReleaseOk(op);
      case _ =>
    }
    LocalStep(s, step.i, Apply(s, step).ops[step.i]);
  }

  lemma ReturnInv(s: State, i: nat)
    requires Inv(s) && Enabled(s, Return(i))
    ensures Inv(Apply(s, Return(i)))
  {
    hide Inv, OpOk, Kept, DropSelf, DropAwaitable;
    OpAt(s, i);
    ReturnOk(s.ops[i]);
    LocalStep(s, i, Apply(s, Return(i)).ops[i]);
  }

  // ---------------------------------------------------------------- preservation, when a callback moves

  /** The heap after operation i's callback moved: other addresses stay, i's holds exactly while it is live. */
  predicate HeapMoved(s: State, t: State, i: nat)
    requires i < |t.ops|
  {
    && HeapOk(t, i)
    && (forall a :: a in s.heap && s.heap[a] != i ==> a in t.heap && t.heap[a] == s.heap[a])
    && (forall a :: a in t.heap && t.heap[a] != i ==> a in s.heap && t.heap[a] == s.heap[a])
    && (forall a :: a in t.heap && t.heap[a] == i ==> a == t.ops[i].addr && Live(t.ops[i].callback))
  }

  predicate WorksMoved(s: State, t: State, i: nat, done: bool)
    requires i < |t.ops|
  {
    var a, b := Works(s, done), Works(t, done);
    && (forall tag :: tag in a && a[tag].owner != i ==> tag in b && b[tag] == a[tag])
    && (forall tag :: tag in b && b[tag].owner != i ==> tag in a && b[tag] == a[tag])
    && (forall tag :: tag in b && b[tag].owner == i ==> WorkOk(t.ops, tag, b[tag], done))
  }

  predicate RunsMoved(s: State, t: State, i: nat)
    requires i < |t.ops|
  {
    && (forall tag :: tag in s.runs && s.runs[tag].target != i ==> tag in t.runs && t.runs[tag] == s.runs[tag])
    && (forall tag :: tag in t.runs && t.runs[tag].target != i ==> tag in s.runs && t.runs[tag] == s.runs[tag])
    && (forall tag :: tag in t.runs && t.runs[tag].target == i ==> RunOk(t.ops, tag, t.runs[tag]))
  }

  lemma HeapsStep(s: State, t: State, i: nat)
    requires HeapsOk(s) && OnlyOp(s, t, i) && HeapMoved(s, t, i)
    ensures HeapsOk(t)
  {
    forall j: nat | j < |t.ops|
      ensures HeapOk(t, j)
    {
      assert HeapOk(s, j);
    }
  }

  lemma WorksStep(s: State, t: State, i: nat, done: bool)
    requires WorksOk(s, done) && OnlyOp(s, t, i) && WorksMoved(s, t, i, done)
    ensures WorksOk(t, done)
  {
    forall tag | tag in Works(t, done)
      ensures WorkOk(t.ops, tag, Works(t, done)[tag], done)
    {
    }
  }

  lemma RunsStep(s: State, t: State, i: nat)
    requires RunsOk(s) && OnlyOp(s, t, i) && RunsMoved(s, t, i)
    ensures RunsOk(t)
  {
    forall tag | tag in t.runs
      ensures RunOk(t.ops, tag, t.runs[tag])
    {
    }
  }

  lemma PlacesStep(s: State, t: State, i: nat)
    requires PlacesOk(s) && OnlyOp(s, t, i) && PlacedOk(t, i)
    requires WorksMoved(s, t, i, false) && WorksMoved(s, t, i, true) && RunsMoved(s, t, i)
    ensures PlacesOk(t)
  {
    hide WorkOk, RunOk;
    forall j: nat | j < |t.ops|
      ensures PlacedOk(t, j)
    {
      assert PlacedOk(s, j);
      assert Works(s, false) == s.requests && Works(s, true) == s.completions;
      assert Works(t, false) == t.requests && Works(t, true) == t.completions;
    }
  }

  /**
   * A step that moves the callback of operation i: the other operations and their requests,
   * completions and runs stay, the callback's own place and the heap may change.
   */
  lemma CallbackStep(s: State, t: State, i: nat)
    requires Inv(s) && t.fault == NoFault && OnlyOp(s, t, i) && OpOk(t.ops[i]) && PlacedOk(t, i) && TagsApart(t)
    requires HeapMoved(s, t, i) && WorksMoved(s, t, i, false) && WorksMoved(s, t, i, true) && RunsMoved(s, t, i)
    ensures Inv(t)
  {
    hide OpOk, HeapsOk, PlacesOk, WorksOk, RunsOk, HeapMoved, WorksMoved, RunsMoved, PlacedOk;
    HeapsStep(s, t, i);
    WorksStep(s, t, i, false);
    WorksStep(s, t, i, true);
    RunsStep(s, t, i);
    PlacesStep(s, t, i);
  }

  /** The heap, when operation i's callback stays at its address and stays live. */
  lemma HeapSame(s: State, t: State, i: nat)
    requires Inv(s) && OnlyOp(s, t, i) && t.heap == s.heap
    requires t.ops[i].addr == s.ops[i].addr && Live(t.ops[i].callback) && Live(s.ops[i].callback)
    ensures HeapMoved(s, t, i)
  {
    hide OpsOk, WorksOk, RunsOk, PlacesOk;
    assert HeapOk(s, i);
  }

  /** A table that operation i has no entry in, before or after. */
  lemma WorksSame(s: State, t: State, i: nat, done: bool)
    requires Inv(s) && OnlyOp(s, t, i) && Works(t, done) == Works(s, done)
    requires !(if done then s.ops[i].callback.InCompletion? else s.ops[i].callback.InRequest?)
    ensures WorksMoved(s, t, i, done)
  {
    hide Inv, OpOk;
    forall tag | tag in Works(s, done)
      ensures Works(s, done)[tag].owner != i
    {
      WorkAt(s, tag, done);
    }
  }

  lemma WorkAdded(s: State, t: State, i: nat, tag: nat, w: Work, done: bool)
    requires Inv(s) && OnlyOp(s, t, i) && Works(t, done) == Works(s, done)[tag := w] && tag !in Works(s, done)
    requires !(if done then s.ops[i].callback.InCompletion? else s.ops[i].callback.InRequest?)
    requires w.owner == i && WorkOk(t.ops, tag, w, done)
    ensures WorksMoved(s, t, i, done)
  {
    hide Inv, OpOk;
    forall other | other in Works(s, done)
      ensures Works(s, done)[other].owner != i
    {
      WorkAt(s, other, done);
    }
  }

  lemma WorkRemoved(s: State, t: State, i: nat, tag: nat, done: bool)
    requires Inv(s) && OnlyOp(s, t, i) && Works(t, done) == Works(s, done) - {tag}
    requires s.ops[i].callback == if done then InCompletion(tag) else InRequest(tag)
    ensures WorksMoved(s, t, i, done)
  {
    hide Inv, OpOk;
    forall other | other in Works(s, done)
      ensures Works(s, done)[other].owner == i <==> other == tag
    {
      WorkAt(s, other, done);
      OpAt(s, i);
    }
  }

  lemma RunsSame(s: State, t: State, i: nat)
    requires Inv(s) && OnlyOp(s, t, i) && t.runs == s.runs && !s.ops[i].callback.InRun?
    ensures RunsMoved(s, t, i)
  {
    hide Inv, OpOk;
    forall tag | tag in s.runs
      ensures s.runs[tag].target != i
    {
      RunAt(s, tag);
    }
  }

  /** The run of operation i's callback starts, or goes on. */
  lemma RunSet(s: State, t: State, i: nat, tag: nat, r: Running)
    requires Inv(s) && OnlyOp(s, t, i) && t.runs == s.runs[tag := r] && r.target == i && RunOk(t.ops, tag, r)
    requires s.ops[i].callback == InRun(tag) || (!s.ops[i].callback.InRun? && tag !in s.runs)
    ensures RunsMoved(s, t, i)
  {
    hide Inv, OpOk;
    forall other | other in s.runs
      ensures s.runs[other].target == i ==> other == tag
      ensures other == tag ==> s.runs[other].target == i
    {
      RunAt(s, other);
      OpAt(s, i);
    }
  }

  lemma RunEnded(s: State, t: State, i: nat, tag: nat)
    requires Inv(s) && OnlyOp(s, t, i) && t.runs == s.runs - {tag} && s.ops[i].callback == InRun(tag)
    ensures RunsMoved(s, t, i)
  {
    hide Inv, OpOk;
    forall other | other in s.runs
      ensures s.runs[other].target == i <==> other == tag
    {
      RunAt(s, other);
      OpAt(s, i);
    }
  }

  lemma MakeCallbackInv(s: State, i: nat, addr: nat)
    requires Inv(s) && Enabled(s, MakeCallback(i, addr))
    ensures Inv(Apply(s, MakeCallback(i, addr)))
  {
    hide OpOk, OpsOk, WorksOk, RunsOk, PlacesOk, WorksMoved, RunsMoved, Inv;
    OpAt(s, i);
    MadeOk(s.ops[i], addr);
    var t := Apply(s, MakeCallback(i, addr));
    WorksSame(s, t, i, false);
    WorksSame(s, t, i, true);
    RunsSame(s, t, i);
    HeapAdded(s, t, i, addr);
    TagsKept(s, t);
    CallbackStep(s, t, i);
  }

  lemma HeapAdded(s: State, t: State, i: nat, addr: nat)
    requires Inv(s) && OnlyOp(s, t, i) && addr !in s.heap && t.heap == s.heap[addr := i]
    requires !Live(s.ops[i].callback) && Live(t.ops[i].callback) && t.ops[i].addr == addr
    ensures HeapMoved(s, t, i)
  {
    hide OpsOk, WorksOk, RunsOk, PlacesOk;
  }

  lemma HeapRemoved(s: State, t: State, i: nat)
    requires Inv(s) && OnlyOp(s, t, i) && t.heap == s.heap - {s.ops[i].addr}
    requires Live(s.ops[i].callback) && t.ops[i].callback == Gone
    ensures HeapMoved(s, t, i)
  {
    hide OpsOk, WorksOk, RunsOk, PlacesOk;
    assert HeapOk(s, i);
  }

  lemma TagsKept(s: State, t: State)
    requires Inv(s) && t.requests == s.requests && t.completions == s.completions && t.runs.Keys <= s.runs.Keys
    ensures TagsApart(t)
  {
    hide OpsOk, HeapsOk, WorksOk, RunsOk, PlacesOk;
  }

  /** A posted callback carries the tag of its own request. */
  lemma TagIs(op: Op)
    requires OpOk(op) && (op.callback.InRequest? || op.callback.InCompletion? || op.callback.InRun?)
    ensures TagOf(op.callback) == op.requestTag
  {
  }

  lemma PostInv(s: State, i: nat, tag: nat)
    requires Inv(s) && Enabled(s, Post(i, tag))
    ensures Inv(Apply(s, Post(i, tag)))
  {
    hide OpOk, Inv, HeapMoved, WorksMoved, RunsMoved;
    OpAt(s, i);
    PostedOk(s.ops[i], tag);
    var t := Apply(s, Post(i, tag));
    HeapSame(s, t, i);
    WorkAdded(s, t, i, tag, t.requests[tag], false);
    WorksSame(s, t, i, true);
    RunsSame(s, t, i);
    TagsOf(s);
    CallbackStep(s, t, i);
  }

  lemma TagsOf(s: State)
    requires Inv(s)
    ensures TagsApart(s)
  {
    hide OpsOk, HeapsOk, WorksOk, RunsOk, PlacesOk;
  }

  lemma HardwareInv(s: State, tag: nat, ok: bool)
    requires Inv(s) && Enabled(s, Hardware(tag, ok))
    ensures Inv(Apply(s, Hardware(tag, ok)))
  {
    hide OpOk, Inv, HeapMoved, WorksMoved, RunsMoved;
    var i := s.requests[tag].owner;
    WorkAt(s, tag, false);
    OpAt(s, i);
    TagIs(s.ops[i]);
    MovedOk(s.ops[i], tag);
    TagsOf(s);
    var t := Apply(s, Hardware(tag, ok));
    HeapSame(s, t, i);
    WorkRemoved(s, t, i, tag, false);
    WorkAdded(s, t, i, tag, t.completions[tag], true);
    RunsSame(s, t, i);
    CallbackStep(s, t, i);
  }

  /** The callback found at a completion's address is the one of the operation that posted the request. */
  lemma CompletionFindsOwner(s: State, tag: nat)
    requires Inv(s) && tag in s.completions
    ensures s.completions[tag].wrId in s.heap && s.heap[s.completions[tag].wrId] == s.completions[tag].owner < |s.ops|
    ensures s.ops[s.completions[tag].owner].callback == InCompletion(tag)
  {
    hide OpOk, Inv;
    WorkAt(s, tag, true);
    OpAt(s, s.completions[tag].owner);
  }

  lemma InvokeInv(s: State, tag: nat)
    requires Inv(s) && Enabled(s, Invoke(tag))
    ensures Inv(Apply(s, Invoke(tag)))
  {
    hide OpOk, Inv, HeapMoved, WorksMoved, RunsMoved;
    CompletionFindsOwner(s, tag);
    var i := s.completions[tag].owner;
    WorkAt(s, tag, true);
    OpAt(s, i);
    TagIs(s.ops[i]);
    MovedOk(s.ops[i], tag);
    TagsOf(s);
    var t := Apply(s, Invoke(tag));
    HeapSame(s, t, i);
    WorksSame(s, t, i, false);
    WorkRemoved(s, t, i, tag, true);
    RunSet(s, t, i, tag, t.runs[tag]);
    CallbackStep(s, t, i);
  }

  /** A step of the poller's run for tag, other than its end. */
  lemma RunStep(s: State, tag: nat, op: Op, r: Running)
    requires Inv(s) && s.fault == NoFault && tag in s.runs && OpOk(op)
    requires r == s.runs[tag].(stage := r.stage)
    requires op.callback == s.ops[r.target].callback && op.addr == s.ops[r.target].addr
    requires match r.stage
             case Entered => !op.cbWon
             case Won => op.cbWon && !op.cbDone
             case Finished => op.flag && (op.cbWon ==> op.cbDone)
    ensures Inv(SetOp(s, r.target, op).(runs := s.runs[tag := r]))
  {
    hide Inv, OpOk, HeapMoved, WorksMoved, RunsMoved;
    RunAt(s, tag);
    var t, i := SetOp(s, r.target, op).(runs := s.runs[tag := r]), r.target;
    HeapSame(s, t, i);
    WorksSame(s, t, i, false);
    WorksSame(s, t, i, true);
    RunSet(s, t, i, tag, r);
    assert t.runs.Keys == s.runs.Keys;
    TagsKept(s, t);
    CallbackStep(s, t, i);
  }

  lemma TestFlagInv(s: State, tag: nat)
    requires Inv(s) && Enabled(s, TestFlag(tag))
    ensures Inv(Apply(s, TestFlag(tag)))
  {
    hide Inv, OpOk;
    RunAt(s, tag);
    var r := s.runs[tag];
    var op := s.ops[r.target];
    if op.kind == Recv && op.flag {
      assert s.ops == s.ops[r.target := op];
      RunStep(s, tag, op, r.(stage := Finished));
    } else {
      FlagTestedOk(op);
      RunStep(s, tag, op.(flag := true, cbWon := true), r.(stage := Won));
    }
  }

  lemma CompleteOpInv(s: State, tag: nat)
    requires Inv(s) && Enabled(s, CompleteOp(tag))
    ensures Inv(Apply(s, CompleteOp(tag)))
  {
    hide Inv, OpOk, Complete;
    RunAt(s, tag);
    var r := s.runs[tag];
    CallbackCompletesOk(s.ops[r.target], tag);
    if r.ok {
      RunStep(s, tag, Complete(s.ops[r.target], FromCompletion(tag)).(cbDone := true), r.(stage := Finished));
    } else {
      TerminateInv(s);
    }
  }

  lemma TerminateInv(s: State)
    requires Inv(s)
    ensures Inv(s.(fault := Terminated))
  {
    hide OpOk;
    var t := s.(fault := Terminated);
    forall j: nat | j < |t.ops|
      ensures HeapOk(t, j) && PlacedOk(t, j)
    {
      OpAt(s, j);
    }
    forall tag, done | tag in Works(t, done)
      ensures WorkOk(t.ops, tag, Works(t, done)[tag], done)
    {
      WorkAt(s, tag, done);
    }
  }

  /** The initiating function deletes the callback of a request that could not be posted. */
  lemma DestroyUnpostedInv(s: State, i: nat)
    requires Inv(s) && Enabled(s, DestroyUnposted(i))
    ensures Inv(Apply(s, DestroyUnposted(i)))
  {
    hide Inv, OpOk, DestroyCallback, HeapMoved, WorksMoved, RunsMoved;
    OpAt(s, i);
    DestroyOk(s.ops[i]);
    var t := Apply(s, DestroyUnposted(i));
    HeapRemoved(s, t, i);
    WorksSame(s, t, i, false);
    WorksSame(s, t, i, true);
    RunsSame(s, t, i);
    TagsKept(s, t);
    CallbackStep(s, t, i);
  }

  /** The poller deletes the callback it has run. */
  lemma DestroyRunInv(s: State, tag: nat)
    requires Inv(s) && Enabled(s, DestroyRun(tag))
    ensures Inv(Apply(s, DestroyRun(tag)))
  {
    hide Inv, OpOk, DestroyCallback, HeapMoved, WorksMoved, RunsMoved;
    RunAt(s, tag);
    var i := s.runs[tag].target;
    DestroyOk(s.ops[i]);
    var t := Apply(s, DestroyRun(tag));
    HeapRemoved(s, t, i);
    WorksSame(s, t, i, false);
    WorksSame(s, t, i, true);
    RunEnded(s, t, i, tag);
    TagsKept(s, t);
    CallbackStep(s, t, i);
  }

  lemma StepInv(s: State, step: Step)
    requires Inv(s) && Enabled(s, step)
    ensures Inv(Apply(s, step))
  {
    hide Inv, DropSelf, DropAwaitable, Complete, DestroyCallback;
    match step {
      case New(kind, owning) => NewInv(s, kind, owning);
      case Enter(_) => SetupInv(s, step);
      case AssignSlot(_) => SetupInv(s, step);
      case SkipSlot(_) => SetupInv(s, step);
      case MakeCallback(i, addr) => MakeCallbackInv(s, i, addr);
      case Post(i, tag) => PostInv(s, i, tag);
      case PostFail(_) => SetupInv(s, step);
      case DestroyUnposted(i) => DestroyUnpostedInv(s, i);
      case Return(i) => ReturnInv(s, i);
      case Hardware(tag, ok) => HardwareInv(s, tag, ok);
      case Invoke(tag) => InvokeInv(s, tag);
      case TestFlag(tag) => TestFlagInv(s, tag);
      case CompleteOp(tag) => CompleteOpInv(s, tag);
      case DestroyRun(tag) => DestroyRunInv(s, tag);
      case Signal(_) => SetupInv(s, step);
      case CancelTest(_) => CancelInv(s, step);
      case CancelLock(_) => CancelInv(s, step);
      case CancelComplete(_) => CancelInv(s, step);
      case CancelRelease(_) => CancelInv(s, step);
    }
  }

  lemma InitialInv(s: State)
    requires Initial(s)
    ensures Inv(s)
  {
  }

  lemma {:induction false} RunInv(s: State, run: seq<Step>, t: State)
    requires Inv(s) && Run(s, run, t)
    ensures Inv(t)
    decreases |run|
  {
    hide Inv, Enabled, Apply;
    if run != [] {
      StepInv(s, run[0]);
      RunInv(Apply(s, run[0]), run[1..], t);
    }
  }

  lemma ReachableInv(t: State)
    requires Reachable(t)
    ensures Inv(t)
  {
    hide Enabled, Apply;
    var s, run :| Initial(s) && Run(s, run, t);
    InitialInv(s);
    RunInv(s, run, t);
  }
}
