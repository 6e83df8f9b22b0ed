/**
 * A queue with blocking consumers: a mutex, a condition variable and a closed flag. Each critical
 * section is one step. Consumers are sleeping on the condition variable, or woken and still to take
 * the mutex again, or neither. Wakeups may be spurious, and a consumer that comes along may overtake
 * the woken ones.
 */
module BlockingQueue {
  import opened Options

  /** accepted and popped are history: everything pushed, everything delivered, in order. */
  datatype View<T> = View(queue: seq<T>, closed: bool, sleeping: set<nat>, woken: set<nat>, accepted: seq<T>,
                          popped: seq<T>)

  datatype QueueError = QueueClosed

  /** How a consumer's turn with the mutex ends: it waits (again), it has an item, or pop throws. */
  datatype Turn<T> = Slept | Got(item: T) | Refused

  // ---------------------------------------------------------------- what the critical sections do

  /** notify_one wakes one sleeper, any one, if there is one. */
  ghost predicate NotifiesOne<T(!new)>(v: View<T>, w: View<T>) {
    if v.sleeping == {} then w == v
    else exists c :: c in v.sleeping && w == v.(sleeping := v.sleeping - {c}, woken := v.woken + {c})
  }

  function Enqueued<T>(v: View<T>, item: T): View<T> {
    v.(queue := v.queue + [item], accepted := v.accepted + [item])
  }

  ghost predicate Pushes<T(!new)>(v: View<T>, item: T, ok: bool, w: View<T>) {
    if v.closed then !ok && w == v
    else ok && NotifiesOne(Enqueued(v, item), w)
  }

  function TurnOf<T>(v: View<T>): Turn<T> {
    if v.queue != [] then Got(v.queue[0]) else if v.closed then Refused else Slept
  }

  /** A consumer that is not sleeping has the mutex: it waits, takes the front item, or gives up. */
  function Tried<T>(v: View<T>, c: nat): View<T> {
    var awake := v.(woken := v.woken - {c});
    match TurnOf(v)
    case Slept => awake.(sleeping := v.sleeping + {c})
    case Got(item) => awake.(queue := v.queue[1..], popped := v.popped + [item])
    case Refused => awake
  }

  function Closed<T>(v: View<T>): View<T> {
    v.(closed := true, sleeping := {}, woken := v.woken + v.sleeping)
  }

  function Spurious<T>(v: View<T>, c: nat): View<T> {
    v.(sleeping := v.sleeping - {c}, woken := v.woken + {c})
  }

  // ---------------------------------------------------------------- the class

  class Queue<T(!new)> {
    var queue: seq<T>
    var closed: bool
    var sleeping: set<nat>
    var woken: set<nat>
    ghost var accepted: seq<T>
    ghost var popped: seq<T>

    ghost function Contents(): View<T>
      reads this
    {
      View(queue, closed, sleeping, woken, accepted, popped)
    }

    ghost predicate Valid()
      reads this
    {
      Inv(Contents())
    }

    constructor ()
      ensures Valid() && Contents() == View([], false, {}, {}, [], [])
    {
      queue, closed, sleeping, woken, accepted, popped := [], false, {}, {}, [], [];
    }

    method Push(item: T) returns (r: Result<(), QueueError>)
      requires Valid()
      modifies this
      ensures Valid() && Pushes(old(Contents()), item, r.Ok?, Contents()) && closed == old(closed)
    {
      hide Inv;
      ghost var before := Contents();
      if closed {
        return Err(QueueClosed);
      }
      queue := queue + [item];
      accepted := accepted + [item];
      ghost var enqueued := Contents();
      if sleeping != {} {
        var c :| c in sleeping;
        sleeping, woken := sleeping - {c}, woken + {c};
        assert Contents() == enqueued.(sleeping := enqueued.sleeping - {c}, woken := enqueued.woken + {c});
      }
      assert NotifiesOne(enqueued, Contents());
      PushKeeps(before, item, true, Contents());
      return Ok(());
    }

    /** What consumer c does each time it has the mutex inside pop, at first and after every wakeup. */
    method Try(c: nat) returns (turn: Turn<T>)
      requires Valid() && c !in sleeping
      modifies this
      ensures Valid() && turn == TurnOf(old(Contents())) && Contents() == Tried(old(Contents()), c)
      ensures closed == old(closed)
    {
      hide Inv;
      TryKeeps(Contents(), c);
      woken := woken - {c};
      if queue == [] && !closed {
        sleeping := sleeping + {c};
        return Slept;
      }
      if queue == [] {
        return Refused;
      }
      turn := Got(queue[0]);
      popped := popped + [queue[0]];
      queue := queue[1..];
    }

    method Close()
      requires Valid()
      modifies this
      ensures Valid() && Contents() == Closed(old(Contents()))
    {
      hide Inv;
      CloseKeeps(Contents());
      closed := true;
      sleeping, woken := {}, woken + sleeping;
    }
  }

  // ---------------------------------------------------------------- the invariant

  /** No lost wakeup: while a consumer sleeps, for every item there is a woken consumer still to run. */
  predicate NoLostWakeup<T>(v: View<T>) {
    (v.sleeping == {} || |v.queue| <= |v.woken|) && (v.closed ==> v.sleeping == {})
  }

  ghost predicate Inv<T>(v: View<T>) {
    && NoLostWakeup(v)
    && v.sleeping !! v.woken
    && v.popped + v.queue == v.accepted
  }

  lemma NotifyKeeps<T(!new)>(v: View<T>, w: View<T>)
    requires NotifiesOne(v, w) && v.sleeping !! v.woken && !v.closed && v.popped + v.queue == v.accepted
    requires v.sleeping == {} || |v.queue| <= |v.woken| + 1
    ensures Inv(w)
  {
    if c :| c in v.sleeping && w == v.(sleeping := v.sleeping - {c}, woken := v.woken + {c}) {
      assert |w.woken| == |v.woken| + 1;
    }
  }

  lemma PushKeeps<T(!new)>(v: View<T>, item: T, ok: bool, w: View<T>)
    requires Inv(v) && Pushes(v, item, ok, w)
    ensures Inv(w)
  {
    if ok {
      assert v.popped + (v.queue + [item]) == v.accepted + [item];
      NotifyKeeps(Enqueued(v, item), w);
    }
  }

  lemma TryKeeps<T>(v: View<T>, c: nat)
    requires Inv(v) && c !in v.sleeping
    ensures Inv(Tried(v, c))
  {
    assert |v.woken - {c}| >= |v.woken| - 1;
    if v.queue != [] {
      assert v.popped + [v.queue[0]] + v.queue[1..] == v.popped + v.queue;
    }
  }

  lemma CloseKeeps<T>(v: View<T>)
    requires Inv(v)
    ensures Inv(Closed(v))
  {
  }

  lemma SpuriousKeeps<T>(v: View<T>, c: nat)
    requires Inv(v) && c in v.sleeping
    ensures Inv(Spurious(v, c))
  {
    assert |v.woken + {c}| == |v.woken| + 1;
  }

  // ---------------------------------------------------------------- runs

  datatype Step<T> = DoPush(item: T, ok: bool) | DoTry(c: nat) | DoClose | DoSpurious(c: nat)

  ghost predicate Moves<T(!new)>(v: View<T>, step: Step<T>, w: View<T>) {
    match step
    case DoPush(item, ok) => Pushes(v, item, ok, w)
    case DoTry(c) => c !in v.sleeping && w == Tried(v, c)
    case DoClose => w == Closed(v)
    case DoSpurious(c) => c in v.sleeping && w == Spurious(v, c)
  }

  /** The states of a run, one more than its steps. */
  ghost predicate Run<T(!new)>(states: seq<View<T>>, steps: seq<Step<T>>) {
    && |states| == |steps| + 1 && states[0] == View([], false, {}, {}, [], [])
    && forall k :: 0 <= k < |steps| ==> Moves(states[k], steps[k], states[k + 1])
  }

  lemma StepKeeps<T(!new)>(v: View<T>, step: Step<T>, w: View<T>)
    requires Inv(v) && Moves(v, step, w)
    ensures Inv(w)
    ensures v.accepted <= w.accepted && v.popped <= w.popped && (v.closed ==> w.closed && w.accepted == v.accepted)
  {
    match step {
      case DoPush(item, ok) => PushKeeps(v, item, ok, w);
      case DoTry(c) => TryKeeps(v, c);
      case DoClose => CloseKeeps(v);
      case DoSpurious(c) => SpuriousKeeps(v, c);
    }
  }

  lemma {:induction false} RunKeeps<T(!new)>(states: seq<View<T>>, steps: seq<Step<T>>, k: nat)
    requires Run(states, steps) && k <= |steps|
    ensures Inv(states[k])
    decreases k
  {
    if k > 0 {
      RunKeeps(states, steps, k - 1);
      StepKeeps(states[k - 1], steps[k - 1], states[k]);
    }
  }

  lemma {:induction false} HistoryGrows<T(!new)>(states: seq<View<T>>, steps: seq<Step<T>>, j: nat, k: nat)
    requires Run(states, steps) && j <= k <= |steps|
    ensures states[j].accepted <= states[k].accepted && states[j].popped <= states[k].popped
    ensures states[j].closed ==> states[k].closed && states[k].accepted == states[j].accepted
    decreases k
  {
    if j < k {
      HistoryGrows(states, steps, j, k - 1);
      RunKeeps(states, steps, k - 1);
      StepKeeps(states[k - 1], steps[k - 1], states[k]);
    }
  }

  /**
   * In every state of every run, what was delivered is a prefix of what was accepted, in order, and
   * no wakeup is lost: if items are there and a consumer sleeps, there is a woken consumer, and
   * whichever of the woken ones comes first gets an item.
   */
  lemma NoConsumerForgotten<T(!new)>(states: seq<View<T>>, steps: seq<Step<T>>, k: nat)
    requires Run(states, steps) && k <= |steps|
    ensures var v := states[k];
            && NoLostWakeup(v) && v.popped <= v.accepted
            && (v.queue != [] && v.sleeping != {} ==> v.woken != {} && forall c :: c in v.woken ==>
              c !in v.sleeping && TurnOf(v).Got?)
            && (v.closed ==> v.sleeping == {} && TurnOf(v) != Slept)
  {
    RunKeeps(states, steps, k);
  }

  predicate CloseIn<T>(steps: seq<Step<T>>) {
    exists j :: 0 <= j < |steps| && steps[j].DoClose?
  }

  lemma ClosedStep<T(!new)>(v: View<T>, step: Step<T>, w: View<T>)
    requires Moves(v, step, w)
    ensures w.closed <==> v.closed || step.DoClose?
  {
  }

  /** The queue is closed if and only if close was called. */
  lemma {:induction false} ClosedExactlyIf<T(!new)>(states: seq<View<T>>, steps: seq<Step<T>>, k: nat)
    requires Run(states, steps) && k <= |steps|
    ensures states[k].closed <==> CloseIn(steps[..k])
    decreases k
  {
    hide Moves;
    if k > 0 {
      ClosedExactlyIf(states, steps, k - 1);
      ClosedStep(states[k - 1], steps[k - 1], states[k]);
      assert steps[..k] == steps[..k - 1] + [steps[k - 1]];
      if CloseIn(steps[..k - 1]) {
        var j :| 0 <= j < k - 1 && steps[..k - 1][j].DoClose?;
        assert steps[..k][j].DoClose?;
      }
      if steps[k - 1].DoClose? {
        assert steps[..k][k - 1].DoClose?;
      }
    }
  }

  /** The items of the accepted pushes, in order. */
  function Accepted<T>(steps: seq<Step<T>>): seq<T> {
    if steps == [] then []
    else
      var last := steps[|steps| - 1];
      Accepted(steps[..|steps| - 1]) + if last.DoPush? && last.ok then [last.item] else []
  }

  /** The items that pops have returned, in order. */
  function Returned<T>(states: seq<View<T>>, steps: seq<Step<T>>): seq<T>
    requires |states| > |steps|
  {
    if steps == [] then []
    else
      var k := |steps| - 1;
      Returned(states, steps[..k])
      + if steps[k].DoTry? && TurnOf(states[k]).Got? then [TurnOf(states[k]).item] else []
  }

  lemma HistoryStep<T(!new)>(v: View<T>, step: Step<T>, w: View<T>)
    requires Moves(v, step, w)
    ensures w.accepted == v.accepted + if step.DoPush? && step.ok then [step.item] else []
    ensures w.popped == v.popped + if step.DoTry? && TurnOf(v).Got? then [TurnOf(v).item] else []
  {
  }

  lemma {:induction false} HistoryIs<T(!new)>(states: seq<View<T>>, steps: seq<Step<T>>, k: nat)
    requires Run(states, steps) && k <= |steps|
    ensures states[k].accepted == Accepted(steps[..k]) && states[k].popped == Returned(states, steps[..k])
    decreases k
  {
    hide Moves, TurnOf;
    if k > 0 {
      HistoryIs(states, steps, k - 1);
      HistoryStep(states[k - 1], steps[k - 1], states[k]);
      assert steps[..k][..k - 1] == steps[..k - 1];
    }
  }

  /**
   * First in, first out: what pops have returned is a prefix of what pushes were accepted with, and what is
   * left of it is in the queue. Nothing else brings an item in or takes one out.
   */
  lemma FirstInFirstOut<T(!new)>(states: seq<View<T>>, steps: seq<Step<T>>, k: nat)
    requires Run(states, steps) && k <= |steps|
    ensures Returned(states, steps[..k]) + states[k].queue == Accepted(steps[..k])
  {
    hide Moves;
    RunKeeps(states, steps, k);
    HistoryIs(states, steps, k);
  }

  lemma WakesOne<T(!new)>(v: View<T>, item: T, ok: bool, w: View<T>)
    requires Pushes(v, item, ok, w)
    ensures w.sleeping <= v.sleeping && w.woken == v.woken + (v.sleeping - w.sleeping)
    ensures |w.sleeping| == if ok && v.sleeping != {} then |v.sleeping| - 1 else |v.sleeping|
  {
    if ok && v.sleeping != {} {
      var e := Enqueued(v, item);
      var c :| c in e.sleeping && w == e.(sleeping := e.sleeping - {c}, woken := e.woken + {c});
      assert v.sleeping - w.sleeping == {c};
    }
  }

  /** Who sleeps and who is woken after a step. */
  lemma Consumers<T(!new)>(v: View<T>, step: Step<T>, w: View<T>)
    requires Inv(v) && Moves(v, step, w)
    ensures match step
            case DoPush(_, ok) =>
              && w.sleeping <= v.sleeping && w.woken == v.woken + (v.sleeping - w.sleeping)
              && |w.sleeping| == if ok && v.sleeping != {} then |v.sleeping| - 1 else |v.sleeping|
            case DoTry(c) =>
              && w.woken == v.woken - {c}
              && w.sleeping == v.sleeping + if v.queue == [] && !v.closed then {c} else {}
            case DoClose => w.sleeping == {} && w.woken == v.woken + v.sleeping
            case DoSpurious(c) => w.sleeping == v.sleeping - {c} && w.woken == v.woken + {c}
  {
    if step.DoPush? {
      hide Inv;
      WakesOne(v, step.item, step.ok, w);
    }
  }

  /**
   * A push is refused exactly if the queue is closed, which is exactly if close was called before; and
   * after that the accepted items are final.
   */
  lemma RefusedAfterClose<T(!new)>(states: seq<View<T>>, steps: seq<Step<T>>, j: nat, k: nat)
    requires Run(states, steps) && j <= k < |steps| && steps[k].DoPush?
    ensures (steps[k].ok <==> !states[k].closed) && (steps[k].ok <==> !CloseIn(steps[..k]))
    ensures steps[k].ok ==> states[k + 1].accepted == states[k].accepted + [steps[k].item]
    ensures steps[j].DoClose? && j < k ==> !steps[k].ok && states[k + 1].accepted == states[j].accepted
  {
    RunKeeps(states, steps, k);
    ClosedExactlyIf(states, steps, k);
    assert Moves(states[k], steps[k], states[k + 1]);
    if steps[j].DoClose? && j < k {
      assert Moves(states[j], steps[j], states[j + 1]);
      HistoryGrows(states, steps, j + 1, k);
    }
  }

  /**
   * pop throws exactly if close was called before and nothing is left: every item ever accepted, even
   * later, has then been delivered. A pop that returns delivers the next accepted item.
   */
  lemma PopOutcome<T(!new)>(states: seq<View<T>>, steps: seq<Step<T>>, k: nat, end: nat)
    requires Run(states, steps) && k < |steps| && steps[k].DoTry? && k <= end <= |steps|
    ensures TurnOf(states[k]).Refused? <==> CloseIn(steps[..k]) && Returned(states, steps[..k]) == Accepted(steps[..k])
    ensures match TurnOf(states[k])
            case Refused =>
              && states[k].closed
              && states[k].popped == states[k].accepted == states[end].accepted == states[end].popped
            case Got(item) =>
              |states[k].popped| < |states[k].accepted| && item == states[k].accepted[|states[k].popped|]
              && states[k + 1].popped == states[k].popped + [item]
            case Slept =>
              && !states[k].closed && states[k].popped == states[k].accepted
              && steps[k].c in states[k + 1].sleeping
  {
    RunKeeps(states, steps, k);
    RunKeeps(states, steps, end);
    HistoryGrows(states, steps, k, end);
    ClosedExactlyIf(states, steps, k);
    FirstInFirstOut(states, steps, k);
    assert Moves(states[k], steps[k], states[k + 1]);
  }

  // ---------------------------------------------------------------- waking everybody up

  /** The state after the given consumers have had their turns, one after the other. */
  function TryAll<T>(v: View<T>, cs: seq<nat>): View<T>
    decreases |cs|
  {
    if cs == [] then v else TryAll(Tried(v, cs[0]), cs[1..])
  }

  predicate Distinct(cs: seq<nat>) {
    forall i, j :: 0 <= i < j < |cs| ==> cs[i] != cs[j]
  }

  /**
   * Once the queue is closed, nobody waits any more: after the turns of the woken consumers, in any
   * order, none is left, and they have taken the items in front, as many as there were of either.
   */
  lemma {:induction false} CloseDrains<T>(v: View<T>, cs: seq<nat>)
    requires Inv(v) && v.closed && Distinct(cs) && (forall c :: c in cs <==> c in v.woken)
    ensures var w := TryAll(v, cs);
            var n := if |cs| <= |v.queue| then |cs| else |v.queue|;
            w.sleeping == {} && w.woken == {} && w.popped == v.popped + v.queue[..n] && w.queue == v.queue[n..]
    decreases |cs|
  {
    if cs != [] {
      var c, rest := cs[0], cs[1..];
      var u := Tried(v, c);
      TryKeeps(v, c);
      forall d
        ensures d in rest <==> d in u.woken
      {
        assert d in cs <==> d == c || d in rest;
      }
      CloseDrains(u, rest);
      if v.queue != [] {
        var n := if |rest| <= |u.queue| then |rest| else |u.queue|;
        assert v.popped + [v.queue[0]] + u.queue[..n] == v.popped + v.queue[..n + 1];
      }
    }
  }
}
