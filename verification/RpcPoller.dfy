/**
 * The client driven by poller threads: one thread on one completion queue for sends and receives, as
 * the connector sets it up, or a thread and a queue for each.
 *
 * A thread dispatches completions in the order in which they were generated, one at a time. What a
 * dispatch resumes runs on that thread until it suspends: the receive worker, the call that the worker
 * resumes, what the return of that call goes on with, which may be the next call up to its send, and
 * then the worker's next post. A spin, on a waiter or on an empty slot pool, keeps the thread from
 * everything else.
 */
module RpcPoller {
  import opened Bytes
  import opened Memory
  import opened Options
  import opened RpcModel
  import opened RpcInvariant
  import opened RpcPreservation
  import opened RpcProgress

  datatype Completion = SendDoneFor(c: CallId) | ReceivedBy(w: nat)

  /**
   * Shared: one thread and one queue. With ordered, a send is completed before the receive of its
   * response. Separate: a thread and a queue for sends, another for receives, in any order.
   */
  datatype Pollers = Shared(ordered: bool) | Separate

  /** The first thread has the sends' completions, and the receives' if it is the only one. */
  datatype Thread = First | Second

  function Receiving(mode: Pollers): Thread {
    if mode.Shared? then First else Second
  }

  function ThreadOf(mode: Pollers, x: Completion): Thread {
    if x.SendDoneFor? then First else Receiving(mode)
  }

  /**
   * What a thread is running: a receive worker from its dispatch to its next post, and on top of it,
   * or alone, a call. A finished call stands for the code that awaited it.
   */
  datatype Runner = Runner(call: Option<CallId>, worker: Option<nat>)

  const NOBODY: Runner := Runner(None, None)

  datatype Lane = Lane(queue: seq<Completion>, runner: Runner)

  datatype Polled = Polled(s: State, first: Lane, second: Lane)

  function LaneOf(p: Polled, k: Thread): Lane {
    if k.First? then p.first else p.second
  }

  /** A step of the protocol, or a new call made on thread k by the code that the last one returned to. */
  datatype Move = Plain(step: Step) | Next(k: Thread, request: Data, buffer: Data)

  function StepOf(m: Move): Step {
    match m
    case Plain(step) => step
    case Next(_, request, buffer) => Caller(Invoke(request, buffer))
  }

  // ---------------------------------------------------------------- guards

  /** Thread k runs no call, or one that has returned and whose awaiting code suspends. */
  predicate Yielded(p: Polled, k: Thread) {
    match LaneOf(p, k).runner.call
    case None => true
    case Some(c) => c < |p.s.calls| && p.s.calls[c].phase.Finished?
  }

  predicate Dispatches(p: Polled, k: Thread, x: Completion) {
    var lane := LaneOf(p, k);
    lane.runner.worker.None? && Yielded(p, k) && lane.queue != [] && lane.queue[0] == x
  }

  predicate RunsCall(p: Polled, k: Thread, c: CallId) {
    LaneOf(p, k).runner.call == Some(c)
  }

  predicate RunsWorker(p: Polled, k: Thread, w: nat) {
    LaneOf(p, k).runner.worker == Some(w)
  }

  /** The send of the call that the message answers was completed before. */
  predicate SendCompletedFirst(s: State, tag: Tag)
    requires tag in s.responses
  {
    var c := s.responses[tag].origin;
    c < |s.calls| && (s.calls[c].phase.SendAcked? || s.calls[c].phase.SendDone? || s.calls[c].phase.Waiting?)
  }

  predicate ReceiverAllowed(mode: Pollers, p: Polled, step: ReceiverStep)
    requires ReceiverEnabled(p.s, step)
  {
    var k := Receiving(mode);
    match step
    case Deliver(tag, _) => mode == Shared(true) ==> SendCompletedFirst(p.s, tag)
    case DispatchRecv(w) => Dispatches(p, k, ReceivedBy(w))
    case PostRecv(w) => RunsWorker(p, k, w) ==> Yielded(p, k)
    case FailRecv(w) => RunsWorker(p, k, w) ==> Yielded(p, k)
    case _ => RunsWorker(p, k, step.w)
  }

  predicate PolledEnabled(cfg: Config, mode: Pollers, p: Polled, m: Move) {
    && Enabled(cfg, p.s, StepOf(m))
    && match m
       case Next(k, _, _) => LaneOf(p, k).runner.call.Some? && Yielded(p, k)
       case Plain(Caller(DispatchSend(c))) => Dispatches(p, First, SendDoneFor(c))
       case Plain(Caller(Publish(c))) => RunsCall(p, First, c)
       case Plain(Caller(ReadLength(c))) => RunsCall(p, Receiving(mode), c)
       case Plain(Receiver(step)) => ReceiverAllowed(mode, p, step)
       case Plain(_) => true
  }

  // ---------------------------------------------------------------- steps

  function Tail(xs: seq<Completion>): seq<Completion> {
    if xs == [] then [] else xs[1..]
  }

  function QueueAfter(mode: Pollers, p: Polled, m: Move, k: Thread): seq<Completion> {
    var queue := LaneOf(p, k).queue;
    match m
    case Plain(Caller(AckSend(c))) => if k.First? then queue + [SendDoneFor(c)] else queue
    case Plain(Caller(ErrSend(c))) => if k.First? then queue + [SendDoneFor(c)] else queue
    case Plain(Caller(DispatchSend(_))) => if k.First? then Tail(queue) else queue
    case Plain(Receiver(Deliver(_, w))) => if k == Receiving(mode) then queue + [ReceivedBy(w)] else queue
    case Plain(Receiver(DispatchRecv(_))) => if k == Receiving(mode) then Tail(queue) else queue
    case _ => queue
  }

  /** Call c suspends: whichever thread ran it goes on without it. */
  function Leave(r: Runner, c: CallId): Runner {
    if r.call == Some(c) then r.(call := None) else r
  }

  function RunnerAfter(mode: Pollers, p: Polled, m: Move, k: Thread): Runner {
    var r := LaneOf(p, k).runner;
    match m
    case Next(j, _, _) => if k == j then r.(call := Some(|p.s.calls|)) else r
    case Plain(Caller(DispatchSend(c))) => if k.First? then Runner(Some(c), None) else r
    case Plain(Caller(Publish(c))) => Leave(r, c)
    case Plain(Caller(PostSend(c))) => Leave(r, c)
    case Plain(Receiver(DispatchRecv(w))) => if k == Receiving(mode) then Runner(None, Some(w)) else r
    case Plain(Receiver(Resume(w))) =>
      if k != Receiving(mode) || w >= |p.s.workers| || !p.s.workers[w].Loaded? then r
      else r.(call := Some(p.s.workers[w].handle))
    case Plain(Receiver(PostRecv(w))) => if r.worker == Some(w) then NOBODY else r
    case Plain(Receiver(FailRecv(w))) => if r.worker == Some(w) then NOBODY else r
    case _ => r
  }

  function LaneAfter(mode: Pollers, p: Polled, m: Move, k: Thread): Lane {
    Lane(QueueAfter(mode, p, m, k), RunnerAfter(mode, p, m, k))
  }

  function PolledApply(cfg: Config, mode: Pollers, p: Polled, m: Move): Polled
    requires PolledEnabled(cfg, mode, p, m)
  {
    Polled(Apply(cfg, p.s, StepOf(m)), LaneAfter(mode, p, m, First), LaneAfter(mode, p, m, Second))
  }

  predicate PolledInitial(cfg: Config, p: Polled) {
    Initial(cfg, p.s) && p.first == Lane([], NOBODY) == p.second
  }

  predicate PolledRun(cfg: Config, mode: Pollers, p: Polled, run: seq<Move>, q: Polled)
    decreases |run|
  {
    if run == [] then
      p == q
    else
      PolledEnabled(cfg, mode, p, run[0]) && PolledRun(cfg, mode, PolledApply(cfg, mode, p, run[0]), run[1..], q)
  }

  ghost predicate PolledReachable(cfg: Config, mode: Pollers, q: Polled) {
    exists p, run :: PolledInitial(cfg, p) && PolledRun(cfg, mode, p, run, q)
  }

  // ---------------------------------------------------------------- the invariant of the pollers

  predicate Announced(s: State, x: Completion) {
    match x
    case SendDoneFor(c) => InPhase(s, c, SendAcked) || InPhase(s, c, SendErred)
    case ReceivedBy(w) => w < |s.workers| && s.workers[w].Completed?
  }

  /** Stages that only a poller thread runs. */
  predicate Running(stage: Stage) {
    stage.Delivered? || stage.Matched? || stage.Copied? || stage.Loaded?
  }

  /** Phases in which a thread is executing the call, or code after it. */
  predicate OnThread(phase: Phase) {
    match phase
    case SendPosted => false
    case SendSent => false
    case SendAcked => false
    case SendErred => false
    case Waiting => false
    case _ => true
  }

  predicate Distinct(xs: seq<Completion>) {
    forall i, j :: 0 <= i < j < |xs| ==> xs[i] != xs[j]
  }

  /** The completions of a queue are those announced for its thread, each once. */
  ghost predicate QueueOk(mode: Pollers, s: State, queue: seq<Completion>, k: Thread) {
    && (forall x :: x in queue <==> ThreadOf(mode, x) == k && Announced(s, x))
    && Distinct(queue)
  }

  /** A thread runs what only it can run; on top of a worker's own code it runs no call. */
  ghost predicate RunnerOk(mode: Pollers, s: State, r: Runner, k: Thread) {
    && (forall c: CallId :: k.First? && InPhase(s, c, SendDone) ==> r.call == Some(c))
    && (forall c: CallId :: k == Receiving(mode) && InPhase(s, c, Resumed) ==> r.call == Some(c))
    && (r.call.Some? ==> r.call.value < |s.calls| && OnThread(s.calls[r.call.value].phase))
    && (forall w: nat :: k == Receiving(mode) && w < |s.workers| && Running(s.workers[w]) ==>
      r == Runner(None, Some(w)))
    && (r.worker.Some? ==>
          k == Receiving(mode) && r.worker.value < |s.workers|
          && (Running(s.workers[r.worker.value]) || s.workers[r.worker.value].Idle?))
  }

  ghost predicate LaneOk(mode: Pollers, s: State, lane: Lane, k: Thread) {
    QueueOk(mode, s, lane.queue, k) && RunnerOk(mode, s, lane.runner, k)
  }

  predicate Before(xs: seq<Completion>, x: Completion, y: Completion) {
    exists i, j :: 0 <= i < j < |xs| && xs[i] == x && xs[j] == y
  }

  /** The call of a response that has reached worker w has had its send completed, and earlier. */
  predicate OrderOk(calls: seq<Call>, queue: seq<Completion>, w: nat, stage: Stage) {
    match ClientOrigin(stage)
    case None => true
    case Some(c) =>
      && c < |calls|
      && match calls[c].phase
         case SendAcked => stage.Completed? && Before(queue, SendDoneFor(c), ReceivedBy(w))
         case SendDone => stage.Completed?
         case Waiting => true
         case _ => false
  }

  predicate OrderInv(p: Polled) {
    forall w: nat :: w < |p.s.workers| ==> OrderOk(p.s.calls, p.first.queue, w, p.s.workers[w])
  }

  ghost predicate ThreadsInv(mode: Pollers, p: Polled) {
    && LaneOk(mode, p.s, p.first, First) && LaneOk(mode, p.s, p.second, Second)
    && (mode == Shared(true) ==> OrderInv(p))
  }

  ghost predicate PolledInv(cfg: Config, mode: Pollers, p: Polled) {
    Inv(cfg, p.s) && ThreadsInv(mode, p)
  }

  // ---------------------------------------------------------------- steps that no thread notices

  /** What the invariant sees of a phase. */
  function Observed(phase: Phase): Phase {
    match phase
    case SendAcked => phase
    case SendErred => phase
    case SendDone => phase
    case Waiting => phase
    case Resumed => phase
    case SendPosted => SendPosted
    case SendSent => SendPosted
    case _ => Entering
  }

  /** Calls look the same, but for new ones; workers are the same. */
  predicate LooksSame(s: State, t: State) {
    && t.workers == s.workers && |t.calls| >= |s.calls|
    && forall c: CallId :: c < |t.calls| ==>
         Observed(t.calls[c].phase) == if c < |s.calls| then Observed(s.calls[c].phase) else Entering
  }

  lemma LaneUnnoticed(mode: Pollers, s: State, t: State, lane: Lane, k: Thread)
    requires LooksSame(s, t) && LaneOk(mode, s, lane, k)
    ensures LaneOk(mode, t, lane, k)
  {
    assert forall x :: Announced(t, x) == Announced(s, x);
  }

  lemma OrderUnnoticed(s: State, t: State, queue: seq<Completion>, w: nat)
    requires LooksSame(s, t) && w < |s.workers| && OrderOk(s.calls, queue, w, s.workers[w])
    ensures OrderOk(t.calls, queue, w, t.workers[w])
  {
  }

  lemma UnnoticedStep(mode: Pollers, p: Polled, q: Polled)
    requires LooksSame(p.s, q.s) && q.first == p.first && q.second == p.second && ThreadsInv(mode, p)
    ensures ThreadsInv(mode, q)
  {
    hide LooksSame, LaneOk, OrderOk;
    LaneUnnoticed(mode, p.s, q.s, p.first, First);
    LaneUnnoticed(mode, p.s, q.s, p.second, Second);
    assert q.s.workers == p.s.workers by {
      SameWorkers(p.s, q.s);
    }
    if mode == Shared(true) {
      forall w: nat | w < |q.s.workers|
        ensures OrderOk(q.s.calls, q.first.queue, w, q.s.workers[w])
      {
        OrderUnnoticed(p.s, q.s, p.first.queue, w);
      }
    }
  }

  lemma SameWorkers(s: State, t: State)
    requires LooksSame(s, t)
    ensures t.workers == s.workers
  {
  }

  predicate NoticedCaller(step: CallerStep) {
    step.PostSend? || step.AckSend? || step.ErrSend? || step.DispatchSend? || step.Publish? || step.ReadLength?
  }

  lemma CallerObserved(cfg: Config, s: State, step: CallerStep)
    requires CallerEnabled(s, step) && !NoticedCaller(step)
    ensures LooksSame(s, ApplyCaller(cfg, s, step))
  {
    hide Region, TakeSlot, TakeNumber, InitSlot, FillRequest, StoreWaiter, GiveSlot;
  }

  lemma ServerObserved(cfg: Config, s: State, step: ServerStep)
    requires ServerEnabled(cfg, s, step)
    ensures var t := ApplyServer(cfg, s, step);
            && t.workers == s.workers && |t.calls| == |s.calls|
            && forall c: CallId :: c < |t.calls| ==> t.calls[c].phase == s.calls[c].phase
  {
    hide Region, HandleRequest, HeaderLength;
  }

  // ---------------------------------------------------------------- queues

  lemma Append(xs: seq<Completion>, x: Completion)
    requires Distinct(xs) && x !in xs
    ensures Distinct(xs + [x]) && forall y :: y in xs + [x] <==> y in xs || y == x
  {
  }

  lemma RemoveHead(xs: seq<Completion>)
    requires Distinct(xs) && xs != []
    ensures Distinct(xs[1..]) && forall y :: y in xs[1..] <==> y in xs && y != xs[0]
  {
    assert xs == [xs[0]] + xs[1..];
  }

  /** Taking off the head, or adding a tail, keeps the order of what remains. */
  lemma BeforeKept(xs: seq<Completion>, ys: seq<Completion>, x: Completion, y: Completion)
    requires Before(xs, x, y)
    requires xs <= ys || (xs != [] && ys == xs[1..] && xs[0] != x)
    ensures Before(ys, x, y)
  {
    var i, j :| 0 <= i < j < |xs| && xs[i] == x && xs[j] == y;
    if xs <= ys {
      assert ys[i] == x && ys[j] == y;
    } else {
      assert ys[i - 1] == x && ys[j - 1] == y;
    }
  }

  /** Nothing changes but that x is announced, and added to its thread's queue. */
  lemma QueueGrows(mode: Pollers, s: State, t: State, queue: seq<Completion>, k: Thread, x: Completion)
    requires QueueOk(mode, s, queue, k) && !Announced(s, x) && Announced(t, x)
    requires forall y :: y != x ==> Announced(t, y) == Announced(s, y)
    ensures QueueOk(mode, t, if ThreadOf(mode, x) == k then queue + [x] else queue, k)
  {
    if ThreadOf(mode, x) == k {
      Append(queue, x);
    }
  }

  /** Nothing changes but that x is dispatched, from the head of its thread's queue. */
  lemma QueueShrinks(mode: Pollers, s: State, t: State, queue: seq<Completion>, k: Thread, x: Completion)
    requires QueueOk(mode, s, queue, k) && Announced(s, x) && !Announced(t, x)
    requires forall y :: y != x ==> Announced(t, y) == Announced(s, y)
    requires ThreadOf(mode, x) == k ==> queue != [] && queue[0] == x
    ensures QueueOk(mode, t, if ThreadOf(mode, x) == k then Tail(queue) else queue, k)
  {
    if ThreadOf(mode, x) == k {
      RemoveHead(queue);
    }
  }

  lemma QueueKept(mode: Pollers, s: State, t: State, queue: seq<Completion>, k: Thread)
    requires QueueOk(mode, s, queue, k) && forall y :: Announced(t, y) == Announced(s, y)
    ensures QueueOk(mode, t, queue, k)
  {
  }

  // ---------------------------------------------------------------- steps of calls, as a thread sees them

  /** Call c changes its phase and nobody else does; no worker moves. */
  predicate OneCall(s: State, t: State, c: CallId) {
    && t.workers == s.workers && c < |s.calls| == |t.calls|
    && forall d: CallId :: d < |s.calls| && d != c ==> t.calls[d].phase == s.calls[d].phase
  }

  /** The phases that a noticed step leads between. */
  predicate CallMoves(step: CallerStep, a: Phase, b: Phase) {
    match step
    case PostSend(_) => a.Filled? && b.SendPosted?
    case AckSend(_) => a.SendSent? && b.SendAcked?
    case ErrSend(_) => a.SendPosted? && b.SendErred?
    case DispatchSend(_) => (a.SendAcked? && b.SendDone?) || (a.SendErred? && b.Returning?)
    case Publish(_) => a.SendDone? && b.Waiting?
    case ReadLength(_) => a.Resumed? && b.Returning?
    case _ => false
  }

  lemma CallerNoticed(cfg: Config, s: State, step: CallerStep)
    requires CallerEnabled(s, step) && NoticedCaller(step)
    ensures OneCall(s, ApplyCaller(cfg, s, step), step.c)
    ensures CallMoves(step, s.calls[step.c].phase, ApplyCaller(cfg, s, step).calls[step.c].phase)
  {
    hide Region, StoreWaiter;
  }

  lemma CallerQueues(mode: Pollers, p: Polled, q: Polled, step: CallerStep, k: Thread)
    requires LaneOk(mode, p.s, LaneOf(p, k), k) && NoticedCaller(step) && OneCall(p.s, q.s, step.c)
    requires CallMoves(step, p.s.calls[step.c].phase, q.s.calls[step.c].phase)
    requires step.DispatchSend? ==> Dispatches(p, First, SendDoneFor(step.c))
    ensures QueueOk(mode, q.s, QueueAfter(mode, p, Plain(Caller(step)), k), k)
  {
    hide RunnerOk, QueueOk;
    var x := SendDoneFor(step.c);
    var queue := LaneOf(p, k).queue;
    assert forall y :: y != x ==> Announced(q.s, y) == Announced(p.s, y);
    match step
    case AckSend(_) => QueueGrows(mode, p.s, q.s, queue, k, x);
    case ErrSend(_) => QueueGrows(mode, p.s, q.s, queue, k, x);
    case DispatchSend(_) => QueueShrinks(mode, p.s, q.s, queue, k, x);
    case _ => QueueKept(mode, p.s, q.s, queue, k);
  }

  lemma CallerRunners(mode: Pollers, p: Polled, q: Polled, step: CallerStep, k: Thread)
    requires LaneOk(mode, p.s, LaneOf(p, k), k) && NoticedCaller(step) && OneCall(p.s, q.s, step.c)
    requires CallMoves(step, p.s.calls[step.c].phase, q.s.calls[step.c].phase)
    requires step.DispatchSend? ==> Dispatches(p, First, SendDoneFor(step.c))
    requires step.Publish? ==> RunsCall(p, First, step.c)
    ensures RunnerOk(mode, q.s, RunnerAfter(mode, p, Plain(Caller(step)), k), k)
  {
    hide QueueOk;
  }

  lemma KeepOrder(p: Polled, q: Polled, c: CallId)
    requires OrderInv(p) && OneCall(p.s, q.s, c)
    requires p.first.queue <= q.first.queue
          || (p.first.queue != [] && q.first.queue == p.first.queue[1..] && p.first.queue[0] == SendDoneFor(c))
    requires match p.s.calls[c].phase
             case SendAcked => q.s.calls[c].phase.SendDone?
             case SendDone => q.s.calls[c].phase.Waiting?
             case Waiting => false
             case _ => true
    ensures OrderInv(q)
  {
    forall w: nat | w < |q.s.workers|
      ensures OrderOk(q.s.calls, q.first.queue, w, q.s.workers[w])
    {
      assert OrderOk(p.s.calls, p.first.queue, w, p.s.workers[w]);
      match ClientOrigin(p.s.workers[w])
      case None =>
      case Some(d) =>
        if d != c && p.s.calls[d].phase.SendAcked? {
          BeforeKept(p.first.queue, q.first.queue, SendDoneFor(d), ReceivedBy(w));
        }
    }
  }

  lemma CallerPolled(cfg: Config, mode: Pollers, p: Polled, step: CallerStep)
    requires PolledInv(cfg, mode, p) && PolledEnabled(cfg, mode, p, Plain(Caller(step)))
    ensures ThreadsInv(mode, PolledApply(cfg, mode, p, Plain(Caller(step))))
  {
    hide Inv, QueueOk, RunnerOk, OrderInv, ApplyCaller, CallerEnabled;
    var q := PolledApply(cfg, mode, p, Plain(Caller(step)));
    if NoticedCaller(step) {
      CallerNoticed(cfg, p.s, step);
      CallerQueues(mode, p, q, step, First);
      CallerQueues(mode, p, q, step, Second);
      CallerRunners(mode, p, q, step, First);
      CallerRunners(mode, p, q, step, Second);
      if mode == Shared(true) {
        KeepOrder(p, q, step.c);
      }
    } else {
      CallerObserved(cfg, p.s, step);
      UnnoticedStep(mode, p, q);
    }
  }

  /** A new call on thread k, made by the code that the last one returned to. */
  lemma NextPolled(cfg: Config, mode: Pollers, p: Polled, m: Move)
    requires PolledInv(cfg, mode, p) && m.Next? && PolledEnabled(cfg, mode, p, m)
    ensures ThreadsInv(mode, PolledApply(cfg, mode, p, m))
  {
    hide Inv, LaneOk, OrderInv;
    var q := PolledApply(cfg, mode, p, m);
    CallerObserved(cfg, p.s, StepOf(m).caller);
    UnnoticedStep(mode, p, Polled(q.s, p.first, p.second));
    NextRuns(mode, p, q, m.k);
    assert mode == Shared(true) ==> OrderInv(q) by {
      if mode == Shared(true) {
        SameOrder(Polled(q.s, p.first, p.second), q);
      }
    }
  }

  lemma SameOrder(p: Polled, q: Polled)
    requires OrderInv(p) && q.s == p.s && q.first.queue == p.first.queue
    ensures OrderInv(q)
  {
  }

  lemma NextRuns(mode: Pollers, p: Polled, q: Polled, k: Thread)
    requires LaneOk(mode, p.s, LaneOf(p, k), k) && LaneOf(p, k).runner.call.Some? && Yielded(p, k)
    requires LooksSame(p.s, q.s) && LaneOk(mode, q.s, LaneOf(p, k), k)
    requires |q.s.calls| == |p.s.calls| + 1 && q.s.calls[|p.s.calls|].phase == Entering
    ensures LaneOk(mode, q.s, LaneOf(p, k).(runner := LaneOf(p, k).runner.(call := Some(|p.s.calls|))), k)
  {
    hide QueueOk;
  }

  // ---------------------------------------------------------------- steps of workers, as a thread sees them

  /** Worker w changes its stage and nobody else does; no phase changes. */
  predicate OneWorker(s: State, t: State, w: nat) {
    && w < |s.workers| == |t.workers| && |t.calls| == |s.calls|
    && (forall v: nat :: v < |s.workers| && v != w ==> t.workers[v] == s.workers[v])
    && (forall d: CallId :: d < |s.calls| ==> t.calls[d].phase == s.calls[d].phase)
  }

  /** The stages that a step leads between; the response in hand stays the same. */
  predicate StageMoves(step: ReceiverStep, a: Stage, b: Stage) {
    match step
    case PostRecv(_) => a.Idle? && b.Posted?
    case FailRecv(_) => (a.Idle? || a.Posted?) && b.Dead?
    case Deliver(_, _) => a.Posted? && b.Completed?
    case DispatchRecv(_) => a.Completed? && b.Delivered? && b.origin == a.origin
    case Resume(_) => false
    case _ => Running(a) && Running(b) && ClientOrigin(a) == ClientOrigin(b)
  }

  lemma ReceiverNoticed(cfg: Config, s: State, step: ReceiverStep)
    requires Inv(cfg, s) && ReceiverEnabled(s, step) && !step.Resume?
    ensures OneWorker(s, ApplyReceiver(cfg, s, step), step.w)
    ensures StageMoves(step, s.workers[step.w], ApplyReceiver(cfg, s, step).workers[step.w])
    ensures step.Deliver? ==>
              ApplyReceiver(cfg, s, step).workers[step.w]
              == Completed(|s.responses[step.tag].data|, s.responses[step.tag].origin)
  {
    hide Inv, Region, MatchHeader, CopyLength, SetActual, Put, IsFrame;
    match step
    case MatchStep(w) => MatchFinds(cfg, s, w);
    case CopyStep(w) => CopyFinds(cfg, s, w);
    case Deliver(tag, w) => ResponseAt(cfg, s, tag);
    case _ =>
  }

  lemma ReceiverQueues(mode: Pollers, p: Polled, q: Polled, step: ReceiverStep, k: Thread)
    requires LaneOk(mode, p.s, LaneOf(p, k), k) && OneWorker(p.s, q.s, step.w) && ReceiverEnabled(p.s, step)
    requires StageMoves(step, p.s.workers[step.w], q.s.workers[step.w]) && ReceiverAllowed(mode, p, step)
    ensures QueueOk(mode, q.s, QueueAfter(mode, p, Plain(Receiver(step)), k), k)
  {
    hide RunnerOk, QueueOk, ReceiverEnabled;
    var x := ReceivedBy(step.w);
    var queue := LaneOf(p, k).queue;
    assert forall y :: y != x ==> Announced(q.s, y) == Announced(p.s, y);
    match step
    case Deliver(_, _) => QueueGrows(mode, p.s, q.s, queue, k, x);
    case DispatchRecv(_) => QueueShrinks(mode, p.s, q.s, queue, k, x);
    case _ => QueueKept(mode, p.s, q.s, queue, k);
  }

  lemma ReceiverRunners(mode: Pollers, p: Polled, q: Polled, step: ReceiverStep, k: Thread)
    requires LaneOk(mode, p.s, LaneOf(p, k), k) && OneWorker(p.s, q.s, step.w) && ReceiverEnabled(p.s, step)
    requires StageMoves(step, p.s.workers[step.w], q.s.workers[step.w]) && ReceiverAllowed(mode, p, step)
    ensures RunnerOk(mode, q.s, RunnerAfter(mode, p, Plain(Receiver(step)), k), k)
  {
    hide QueueOk, ReceiverEnabled;
  }

  lemma OrderKept(p: Polled, q: Polled, v: nat)
    requires v < |p.s.workers| == |q.s.workers| && OrderOk(p.s.calls, p.first.queue, v, p.s.workers[v])
    requires q.s.workers[v] == p.s.workers[v] && |q.s.calls| == |p.s.calls|
    requires forall d: CallId :: d < |p.s.calls| && ClientOrigin(p.s.workers[v]) == Some(d) ==>
               q.s.calls[d].phase == p.s.calls[d].phase
    requires p.first.queue <= q.first.queue
          || (p.first.queue != [] && q.first.queue == p.first.queue[1..] && p.first.queue[0].ReceivedBy?)
    ensures OrderOk(q.s.calls, q.first.queue, v, q.s.workers[v])
  {
    match ClientOrigin(p.s.workers[v])
    case None =>
    case Some(d) =>
      if p.s.calls[d].phase.SendAcked? {
        BeforeKept(p.first.queue, q.first.queue, SendDoneFor(d), ReceivedBy(v));
      }
  }

  /** With one thread and ordered completions, a response at the head of the queue finds its call waiting. */
  lemma HeadIsPublished(p: Polled, w: nat)
    requires ThreadsInv(Shared(true), p) && Dispatches(p, First, ReceivedBy(w))
    requires w < |p.s.workers| && p.s.workers[w].Completed?
    ensures InPhase(p.s, p.s.workers[w].origin, Waiting)
  {
    assert OrderOk(p.s.calls, p.first.queue, w, p.s.workers[w]);
    assert !InPhase(p.s, p.s.workers[w].origin, SendDone);
  }

  lemma OrderDelivered(p: Polled, q: Polled, tag: Tag, w: nat)
    requires LaneOk(Shared(true), p.s, p.first, First)
    requires ReceiverEnabled(p.s, Deliver(tag, w)) && ReceiverAllowed(Shared(true), p, Deliver(tag, w))
    requires OneWorker(p.s, q.s, w) && q.s.workers[w].Completed? && q.s.workers[w].origin == p.s.responses[tag].origin
    requires q.first.queue == p.first.queue + [ReceivedBy(w)]
    ensures OrderOk(q.s.calls, q.first.queue, w, q.s.workers[w])
  {
    var c := q.s.workers[w].origin;
    if p.s.calls[c].phase.SendAcked? {
      assert Announced(p.s, SendDoneFor(c));
      var i :| 0 <= i < |p.first.queue| && p.first.queue[i] == SendDoneFor(c);
      assert q.first.queue[i] == SendDoneFor(c) && q.first.queue[|p.first.queue|] == ReceivedBy(w);
    }
  }

  lemma ReceiverOrder(cfg: Config, p: Polled, step: ReceiverStep)
    requires PolledInv(cfg, Shared(true), p) && PolledEnabled(cfg, Shared(true), p, Plain(Receiver(step)))
    requires !step.Resume?
    ensures OrderInv(PolledApply(cfg, Shared(true), p, Plain(Receiver(step))))
  {
    hide Inv, LaneOk, ApplyReceiver, ReceiverEnabled, OrderOk;
    ReceiverNoticed(cfg, p.s, step);
    var q := PolledApply(cfg, Shared(true), p, Plain(Receiver(step)));
    var w := step.w;
    assert OrderOk(p.s.calls, p.first.queue, w, p.s.workers[w]);
    forall v: nat | v < |q.s.workers|
      ensures OrderOk(q.s.calls, q.first.queue, v, q.s.workers[v])
    {
      if v != w {
        OrderKept(p, q, v);
      } else if step.Deliver? {
        OrderDelivered(p, q, step.tag, w);
      } else if step.DispatchRecv? {
        HeadIsPublished(p, w);
        OrderSimple(p.s.calls, q.s.calls, p.first.queue, q.first.queue, w, q.s.workers[w]);
      } else {
        OrderMoves(p, q, step);
      }
    }
  }

  lemma OrderSimple(calls: seq<Call>, calls': seq<Call>, queue: seq<Completion>, queue': seq<Completion>, w: nat,
                    stage: Stage)
    requires ClientOrigin(stage).Some? && ClientOrigin(stage).value < |calls| == |calls'|
    requires calls[ClientOrigin(stage).value].phase == Waiting == calls'[ClientOrigin(stage).value].phase
    ensures OrderOk(calls', queue', w, stage)
  {
  }

  lemma OrderMoves(p: Polled, q: Polled, step: ReceiverStep)
    requires OneWorker(p.s, q.s, step.w) && q.first.queue == p.first.queue && !step.Deliver? && !step.DispatchRecv?
    requires StageMoves(step, p.s.workers[step.w], q.s.workers[step.w])
    requires OrderOk(p.s.calls, p.first.queue, step.w, p.s.workers[step.w])
    ensures OrderOk(q.s.calls, q.first.queue, step.w, q.s.workers[step.w])
  {
  }

  // ---------------------------------------------------------------- resuming a call

  lemma WorkersApart(cfg: Config, s: State, v: nat, w: nat)
    requires Inv(cfg, s) && v < |s.workers| && w < |s.workers| && v != w && ClientOrigin(s.workers[w]).Some?
    ensures ClientOrigin(s.workers[v]) != ClientOrigin(s.workers[w])
  {
    hide Inv, Region, IsFrame;
    WorkerAt(cfg, s, v);
    WorkerAt(cfg, s, w);
  }

  /** The worker resumes the waiting call on its own thread, on top of itself. */
  predicate CallResumed(s: State, t: State, w: nat, h: CallId) {
    && w < |s.workers| && s.workers[w].Loaded? && s.workers[w].handle == h && t.workers == s.workers[w := Idle]
    && ClientOrigin(s.workers[w]) == Some(h)
    && h < |s.calls| == |t.calls| && s.calls[h].phase.Waiting? && t.calls[h].phase.Resumed?
    && forall d: CallId :: d < |s.calls| && d != h ==> t.calls[d].phase == s.calls[d].phase
  }

  lemma ResumeNoticed(cfg: Config, s: State, w: nat)
    requires Inv(cfg, s) && ReceiverEnabled(s, Resume(w))
    ensures CallResumed(s, ApplyReceiver(cfg, s, Resume(w)), w, s.workers[w].handle)
  {
    hide Inv, Region, IsFrame;
    WorkerAt(cfg, s, w);
    CallAt(cfg, s, s.workers[w].origin);
  }

  lemma ResumeLane(mode: Pollers, p: Polled, q: Polled, w: nat, h: CallId, k: Thread)
    requires LaneOk(mode, p.s, LaneOf(p, k), k) && CallResumed(p.s, q.s, w, h) && RunsWorker(p, Receiving(mode), w)
    ensures LaneOk(mode, q.s, LaneAfter(mode, p, Plain(Receiver(Resume(w))), k), k)
  {
    assert forall x :: Announced(q.s, x) == Announced(p.s, x);
  }

  lemma ResumePolled(cfg: Config, mode: Pollers, p: Polled, w: nat)
    requires PolledInv(cfg, mode, p) && PolledEnabled(cfg, mode, p, Plain(Receiver(Resume(w))))
    ensures ThreadsInv(mode, PolledApply(cfg, mode, p, Plain(Receiver(Resume(w)))))
  {
    hide Inv, LaneOk, ApplyReceiver, ReceiverEnabled, OrderOk, LaneAfter;
    ResumeNoticed(cfg, p.s, w);
    var q := PolledApply(cfg, mode, p, Plain(Receiver(Resume(w))));
    var h := p.s.workers[w].handle;
    ResumeLane(mode, p, q, w, h, First);
    ResumeLane(mode, p, q, w, h, Second);
    if mode == Shared(true) {
      forall v: nat | v < |q.s.workers|
        ensures OrderOk(q.s.calls, q.first.queue, v, q.s.workers[v])
      {
        SameQueue(mode, p, w);
        assert OrderOk(p.s.calls, p.first.queue, v, p.s.workers[v]);
        if v != w {
          WorkersApart(cfg, p.s, v, w);
          OrderKept(p, q, v);
        } else {
          OrderNone(q, w);
        }
      }
    }
  }

  lemma SameQueue(mode: Pollers, p: Polled, w: nat)
    ensures LaneAfter(mode, p, Plain(Receiver(Resume(w))), First).queue == p.first.queue
  {
  }

  lemma OrderNone(q: Polled, w: nat)
    requires w < |q.s.workers| && q.s.workers[w].Idle?
    ensures OrderOk(q.s.calls, q.first.queue, w, q.s.workers[w])
  {
  }

  // ---------------------------------------------------------------- every step

  lemma ReceiverPolled(cfg: Config, mode: Pollers, p: Polled, step: ReceiverStep)
    requires PolledInv(cfg, mode, p) && PolledEnabled(cfg, mode, p, Plain(Receiver(step)))
    ensures ThreadsInv(mode, PolledApply(cfg, mode, p, Plain(Receiver(step))))
  {
    hide Inv, QueueOk, RunnerOk, OrderInv, ApplyReceiver, ReceiverEnabled, ReceiverAllowed;
    if step.Resume? {
      ResumePolled(cfg, mode, p, step.w);
    } else {
      var q := PolledApply(cfg, mode, p, Plain(Receiver(step)));
      ReceiverNoticed(cfg, p.s, step);
      ReceiverQueues(mode, p, q, step, First);
      ReceiverQueues(mode, p, q, step, Second);
      ReceiverRunners(mode, p, q, step, First);
      ReceiverRunners(mode, p, q, step, Second);
      if mode == Shared(true) {
        ReceiverOrder(cfg, p, step);
      }
    }
  }

  /** Every step of the polled client keeps the invariant. */
  lemma PolledStepInv(cfg: Config, mode: Pollers, p: Polled, m: Move)
    requires PolledInv(cfg, mode, p) && PolledEnabled(cfg, mode, p, m)
    ensures PolledInv(cfg, mode, PolledApply(cfg, mode, p, m))
  {
    hide Inv, ThreadsInv, CallerEnabled, ReceiverEnabled, ServerEnabled, ApplyCaller, ApplyReceiver, ApplyServer;
    StepInv(cfg, p.s, StepOf(m));
    match m
    case Next(_, _, _) => NextPolled(cfg, mode, p, m);
    case Plain(Caller(caller)) => CallerPolled(cfg, mode, p, caller);
    case Plain(Receiver(receiver)) => ReceiverPolled(cfg, mode, p, receiver);
    case Plain(Server(server)) =>
      ServerObserved(cfg, p.s, server);
      UnnoticedStep(mode, p, PolledApply(cfg, mode, p, m));
  }

  lemma {:induction false} PolledRunInv(cfg: Config, mode: Pollers, p: Polled, run: seq<Move>, q: Polled)
    requires PolledInv(cfg, mode, p) && PolledRun(cfg, mode, p, run, q)
    ensures PolledInv(cfg, mode, q)
    decreases |run|
  {
    hide PolledInv, PolledEnabled, PolledApply;
    if run != [] {
      PolledStepInv(cfg, mode, p, run[0]);
      PolledRunInv(cfg, mode, PolledApply(cfg, mode, p, run[0]), run[1..], q);
    }
  }

  lemma PolledInitialInv(cfg: Config, mode: Pollers, p: Polled)
    requires cfg.Valid() && PolledInitial(cfg, p)
    ensures PolledInv(cfg, mode, p)
  {
    InitialInv(cfg, p.s);
    assert forall x :: !Announced(p.s, x);
  }

  lemma PolledReachableInv(cfg: Config, mode: Pollers, q: Polled)
    requires cfg.Valid() && PolledReachable(cfg, mode, q)
    ensures PolledInv(cfg, mode, q)
  {
    hide PolledInv, PolledInitial, PolledEnabled, PolledApply;
    var p, run :| PolledInitial(cfg, p) && PolledRun(cfg, mode, p, run, q);
    PolledInitialInv(cfg, mode, p);
    PolledRunInv(cfg, mode, p, run, q);
  }

  lemma {:induction false} RunThen(cfg: Config, mode: Pollers, p: Polled, run: seq<Move>, q: Polled, m: Move)
    requires PolledRun(cfg, mode, p, run, q) && PolledEnabled(cfg, mode, q, m)
    ensures PolledRun(cfg, mode, p, run + [m], PolledApply(cfg, mode, q, m))
    decreases |run|
  {
    hide PolledEnabled, PolledApply;
    if run == [] {
      assert (run + [m])[1..] == [];
    } else {
      assert (run + [m])[1..] == run[1..] + [m];
      RunThen(cfg, mode, PolledApply(cfg, mode, p, run[0]), run[1..], q, m);
    }
  }

  lemma ReachableThen(cfg: Config, mode: Pollers, p: Polled, m: Move)
    requires PolledReachable(cfg, mode, p) && PolledEnabled(cfg, mode, p, m)
    ensures PolledReachable(cfg, mode, PolledApply(cfg, mode, p, m))
  {
    hide PolledEnabled, PolledApply, PolledInitial;
    var u, run :| PolledInitial(cfg, u) && PolledRun(cfg, mode, u, run, p);
    RunThen(cfg, mode, u, run, p, m);
  }
}
