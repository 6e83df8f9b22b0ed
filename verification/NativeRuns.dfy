/**
 * All operations of a process on the native path, from their launch to their resumption. The id of a
 * work request is the address of the awaitable that posted it, and an address is used again as soon as
 * its coroutine has gone on: a receive loop posts every receive under one id.
 *
 * records, generated and processed are history, but for the state of a live operation.
 */
module NativeRuns {
  import opened Bytes
  import opened Options
  import opened NativeCompletion

  /** An operation: what it was launched with, where, its state, its completion, and how its coroutine went on. */
  datatype Record = Record(launch: Launch, addr: nat, state: OpState, entry: Option<Wc>,
                           results: seq<Result<Outcome, Failure>>)

  datatype Fault = NoFault | Dangling

  /**
   * live: the suspended operation at each address. queue: completions in the completion queue; batch: those
   * polled and not processed yet. generated, processed: the operations in the order of their completions.
   */
  datatype State = State(records: seq<Record>, live: map<nat, nat>, queue: seq<Wc>, batch: seq<Wc>,
                         generated: seq<nat>, processed: seq<nat>, fault: Fault)

  datatype Step =
    | Start(addr: nat, launch: Launch)
    | Complete(wc: Wc)
    | Poll(n: nat)
    | ProcessNext

  predicate Enabled(s: State, step: Step) {
    && s.fault == NoFault
    && match step
       case Start(addr, _) => addr !in s.live
       case Complete(wc) => wc.wrId in s.live && s.live[wc.wrId] < |s.records| && s.records[s.live[wc.wrId]].entry.None?
       case Poll(n) => s.batch == [] && n <= |s.queue|
       case ProcessNext => s.batch != []
  }

  function Launched(launch: Launch, addr: nat): Record {
    var state := Suspended(New(launch.opcode, launch.viewLength), launch.post);
    Record(launch, addr, state, None, if launch.post.Some? then [ResultOf(state)] else [])
  }

  /** The operation at the id is filled and resumed, and its awaitable goes. */
  function DoProcess(s: State): State
    requires s.batch != []
  {
    var wc := s.batch[0];
    if wc.wrId !in s.live || s.live[wc.wrId] >= |s.records| then s.(fault := Dangling)
    else
      var i := s.live[wc.wrId];
      var r := s.records[i];
      var state := Completed(r.state, wc);
      s.(records := s.records[i := r.(state := state, results := r.results + [ResultOf(state)])],
         live := s.live - {wc.wrId}, batch := s.batch[1..], processed := s.processed + [i])
  }

  function Apply(s: State, step: Step): State
    requires Enabled(s, step)
  {
    match step
    case Start(addr, launch) =>
      s.(records := s.records + [Launched(launch, addr)],
         live := if launch.post.Some? then s.live else s.live[addr := |s.records|])
    case Complete(wc) =>
      var i := s.live[wc.wrId];
      s.(records := s.records[i := s.records[i].(entry := Some(wc))], queue := s.queue + [wc],
         generated := s.generated + [i])
    case Poll(n) => s.(batch := s.queue[..n], queue := s.queue[n..])
    case ProcessNext => DoProcess(s)
  }

  const EMPTY: State := State([], map[], [], [], [], [], NoFault)

  predicate Run(s: State, run: seq<Step>, t: State)
    decreases |run|
  {
    if run == [] then s == t else Enabled(s, run[0]) && Run(Apply(s, run[0]), run[1..], t)
  }

  ghost predicate Reachable(t: State) {
    exists run :: Run(EMPTY, run, t)
  }

  // ---------------------------------------------------------------- the invariant

  /** Completions not processed yet, in order. */
  function Pending(s: State): seq<Wc> {
    s.batch + s.queue
  }

  /** How an operation stands, by what has happened to it. */
  predicate RecordOk(s: State, i: nat)
    requires i < |s.records|
  {
    var r := s.records[i];
    var suspended := Suspended(New(r.launch.opcode, r.launch.viewLength), r.launch.post);
    match r.launch.post
    case Some(why) => r.results == [Err(NotPosted(why))] && r.entry.None? && r.state == suspended
    case None =>
      if r.results == [] then
        r.state == suspended && r.addr in s.live && s.live[r.addr] == i
      else
        r.entry.Some? && r.state == Completed(suspended, r.entry.value) && r.results == [Owed(r.launch, r.entry.value)]
  }

  predicate LiveOk(s: State, addr: nat)
    requires addr in s.live
  {
    var i := s.live[addr];
    i < |s.records| && s.records[i].addr == addr && s.records[i].launch.post.None? && s.records[i].results == []
  }

  /** A pending completion is the one generated for the live operation at its id. */
  predicate PendingOk(s: State, k: nat)
    requires k < |Pending(s)|
  {
    var wc := Pending(s)[k];
    wc.wrId in s.live && s.live[wc.wrId] < |s.records| && s.records[s.live[wc.wrId]].entry == Some(wc)
  }

  ghost predicate OrderOk(s: State) {
    && |s.generated| == |s.processed| + |Pending(s)|
    && s.processed <= s.generated
    && (forall k: nat :: k < |Pending(s)| ==>
          Pending(s)[k].wrId in s.live && s.generated[|s.processed| + k] == s.live[Pending(s)[k].wrId])
    && (forall j, k :: 0 <= j < k < |s.generated| ==> s.generated[j] != s.generated[k])
    && (forall i: nat :: i in s.generated <==> i < |s.records| && s.records[i].entry.Some?)
    && (forall i: nat ::
          i in s.processed <==> i < |s.records| && s.records[i].entry.Some? && s.records[i].results != [])
  }

  ghost predicate Inv(s: State) {
    && s.fault == NoFault
    && (forall i: nat :: i < |s.records| ==> RecordOk(s, i))
    && (forall addr :: addr in s.live ==> LiveOk(s, addr))
    && (forall k: nat :: k < |Pending(s)| ==> PendingOk(s, k))
    && OrderOk(s)
  }

  /** Nothing pending is touched: the order of completions is as it was. */
  lemma OrderKept(s: State, t: State)
    requires OrderOk(s) && Pending(t) == Pending(s) && t.generated == s.generated && t.processed == s.processed
    requires |s.records| <= |t.records|
    requires forall i: nat :: i < |s.records| ==>
               t.records[i].entry == s.records[i].entry && t.records[i].results == s.records[i].results
    requires forall i: nat :: |s.records| <= i < |t.records| ==> t.records[i].entry.None?
    requires forall addr :: addr in s.live ==> addr in t.live && t.live[addr] == s.live[addr]
    ensures OrderOk(t)
  {
  }

  lemma StartInv(s: State, addr: nat, launch: Launch)
    requires Inv(s) && Enabled(s, Start(addr, launch))
    ensures Inv(Apply(s, Start(addr, launch)))
  {
    hide OrderOk;
    var t := Apply(s, Start(addr, launch));
    assert Pending(t) == Pending(s);
    forall i: nat | i < |t.records|
      ensures RecordOk(t, i)
    {
      if i < |s.records| {
        assert RecordOk(s, i);
      }
    }
    forall a | a in t.live
      ensures LiveOk(t, a)
    {
      assert a in s.live ==> LiveOk(s, a);
    }
    forall k: nat | k < |Pending(t)|
      ensures PendingOk(t, k)
    {
      assert PendingOk(s, k);
    }
    OrderKept(s, t);
  }

  lemma CompleteOrder(s: State, wc: Wc)
    requires Inv(s) && Enabled(s, Complete(wc))
    ensures OrderOk(Apply(s, Complete(wc)))
  {
    var t, i := Apply(s, Complete(wc)), s.live[wc.wrId];
    assert LiveOk(s, wc.wrId);
    assert Pending(t) == Pending(s) + [wc];
    assert i !in s.generated;
    forall k: nat | k < |Pending(t)|
      ensures Pending(t)[k].wrId in t.live && t.generated[|t.processed| + k] == t.live[Pending(t)[k].wrId]
    {
      if k < |Pending(s)| {
        assert Pending(t)[k] == Pending(s)[k] && t.generated[|t.processed| + k] == s.generated[|s.processed| + k];
      }
    }
  }

  lemma CompleteInv(s: State, wc: Wc)
    requires Inv(s) && Enabled(s, Complete(wc))
    ensures Inv(Apply(s, Complete(wc)))
  {
    hide OrderOk;
    var t := Apply(s, Complete(wc));
    assert LiveOk(s, wc.wrId);
    assert Pending(t) == Pending(s) + [wc];
    forall j: nat | j < |t.records|
      ensures RecordOk(t, j)
    {
      assert RecordOk(s, j);
    }
    forall a | a in t.live
      ensures LiveOk(t, a)
    {
      assert LiveOk(s, a);
    }
    forall k: nat | k < |Pending(t)|
      ensures PendingOk(t, k)
    {
      if k < |Pending(s)| {
        assert PendingOk(s, k);
      }
    }
    CompleteOrder(s, wc);
  }

  lemma PollInv(s: State, n: nat)
    requires Inv(s) && Enabled(s, Poll(n))
    ensures Inv(Apply(s, Poll(n)))
  {
    var t := Apply(s, Poll(n));
    assert Pending(t) == Pending(s);
    forall i: nat | i < |t.records|
      ensures RecordOk(t, i)
    {
      assert RecordOk(s, i);
    }
    forall a | a in t.live
      ensures LiveOk(t, a)
    {
      assert LiveOk(s, a);
    }
    forall k: nat | k < |Pending(t)|
      ensures PendingOk(t, k)
    {
      assert PendingOk(s, k);
    }
  }

  /** The completion at the head is for the operation that is next in the order. */
  lemma HeadIsNext(s: State)
    requires Inv(s) && s.batch != []
    ensures var wc := s.batch[0];
            && wc.wrId in s.live && s.live[wc.wrId] < |s.records| && s.records[s.live[wc.wrId]].entry == Some(wc)
            && |s.processed| < |s.generated| && s.generated[|s.processed|] == s.live[wc.wrId]
            && LiveOk(s, wc.wrId) && RecordOk(s, s.live[wc.wrId])
  {
    assert Pending(s)[0] == s.batch[0] && PendingOk(s, 0);
    assert LiveOk(s, s.batch[0].wrId);
  }

  /** Different pending completions are for different operations, at different addresses. */
  lemma OtherPending(s: State, k: nat)
    requires Inv(s) && s.batch != [] && 0 < k < |Pending(s)|
    ensures Pending(s)[k].wrId != s.batch[0].wrId
  {
    HeadIsNext(s);
    assert s.generated[|s.processed| + k] == s.live[Pending(s)[k].wrId];
  }

  lemma ProcessOrder(s: State)
    requires Inv(s) && Enabled(s, ProcessNext)
    ensures OrderOk(Apply(s, ProcessNext))
  {
    var t := Apply(s, ProcessNext);
    HeadIsNext(s);
    assert Pending(s) == [s.batch[0]] + Pending(t);
    forall k: nat | k < |Pending(t)|
      ensures Pending(t)[k].wrId in t.live && t.generated[|t.processed| + k] == t.live[Pending(t)[k].wrId]
    {
      OtherPending(s, k + 1);
      assert Pending(t)[k] == Pending(s)[k + 1];
      assert s.generated[|s.processed| + (k + 1)] == s.live[Pending(s)[k + 1].wrId];
    }
  }

  lemma ProcessInv(s: State)
    requires Inv(s) && Enabled(s, ProcessNext)
    ensures Inv(Apply(s, ProcessNext))
  {
    hide OrderOk, Completed, Owed, ResultOf, Suspended;
    var t := Apply(s, ProcessNext);
    HeadIsNext(s);
    var i := s.live[s.batch[0].wrId];
    ResultIsOwed(s.records[i].launch, s.batch[0]);
    assert Pending(s) == [s.batch[0]] + Pending(t);
    forall j: nat | j < |t.records|
      ensures RecordOk(t, j)
    {
      assert RecordOk(s, j);
    }
    forall a | a in t.live
      ensures LiveOk(t, a)
    {
      assert LiveOk(s, a);
    }
    forall k: nat | k < |Pending(t)|
      ensures PendingOk(t, k)
    {
      assert PendingOk(s, k + 1) && Pending(t)[k] == Pending(s)[k + 1];
      OtherPending(s, k + 1);
    }
    ProcessOrder(s);
  }

  lemma StepInv(s: State, step: Step)
    requires Inv(s) && Enabled(s, step)
    ensures Inv(Apply(s, step))
  {
    hide Inv, Apply;
    match step
    case Start(addr, launch) => StartInv(s, addr, launch);
    case Complete(wc) => CompleteInv(s, wc);
    case Poll(n) => PollInv(s, n);
    case ProcessNext => ProcessInv(s);
  }

  lemma {:induction false} RunInv(s: State, run: seq<Step>, t: State)
    requires Inv(s) && Run(s, run, t)
    ensures Inv(t)
    decreases |run|
  {
    hide Inv, Enabled, Apply;
    if run != [] {
      StepInv(s, run[0]);
      RunInv(Apply(s, run[0]), run[1..], t);
    }
  }

  lemma ReachableInv(t: State)
    requires Reachable(t)
    ensures Inv(t)
  {
    var run :| Run(EMPTY, run, t);
    assert Inv(EMPTY);
    RunInv(EMPTY, run, t);
  }

  // ---------------------------------------------------------------- results

  /**
   * Every operation, however often its address was and will be used: its coroutine has gone on once
   * with its post's failure, or once with the result owed for its own completion if that was
   * processed, and otherwise not at all; and the poller has resumed it in the second case only.
   */
  lemma EachResumedOnce(s: State, i: nat)
    requires Reachable(s) && i < |s.records|
    ensures var r := s.records[i];
            match r.launch.post
            case Some(why) => r.results == [Err(NotPosted(why))]
            case None =>
              && (i in s.processed ==> r.entry.Some? && r.results == [Owed(r.launch, r.entry.value)])
              && (i !in s.processed ==> r.results == [])
    ensures s.records[i].state.resumes == if i in s.processed then 1 else 0
  {
    hide Reachable;
    ReachableInv(s);
    assert RecordOk(s, i);
  }

  /** The completion that an operation was resumed with carries its own address, and no other operation's result. */
  lemma OwnEntryOnly(s: State, i: nat)
    requires Reachable(s) && i in s.processed
    ensures i < |s.records| && s.records[i].entry.Some?
    ensures var r := s.records[i];
            r.state == Completed(Suspended(New(r.launch.opcode, r.launch.viewLength), None), r.entry.value)
  {
    hide Reachable;
    ReachableInv(s);
    assert RecordOk(s, i);
  }

  /** The k-th pending completion is that of the k-th operation not processed yet. */
  predicate GeneratedAs(s: State, k: nat)
    requires k < |Pending(s)|
  {
    && |s.processed| + k < |s.generated| && s.generated[|s.processed| + k] < |s.records|
    && s.records[s.generated[|s.processed| + k]].entry == Some(Pending(s)[k])
  }

  /**
   * Completions are processed in the order in which they were generated, each once, none left out, in
   * whatever batches; no id ever leads to a coroutine that has gone on.
   */
  lemma ProcessedInOrder(s: State)
    requires Reachable(s)
    ensures s.fault == NoFault && s.processed <= s.generated
    ensures |s.generated| == |s.processed| + |s.batch| + |s.queue|
    ensures forall j, k :: 0 <= j < k < |s.processed| ==> s.processed[j] != s.processed[k]
    ensures forall k: nat :: k < |Pending(s)| ==> GeneratedAs(s, k)
  {
    hide Reachable;
    ReachableInv(s);
    forall k: nat | k < |Pending(s)|
      ensures GeneratedAs(s, k)
    {
      assert PendingOk(s, k);
      assert s.generated[|s.processed| + k] == s.live[Pending(s)[k].wrId];
    }
  }

  /**
   * Neither order, nor batches, nor other operations matter: equal launches with equal completions have
   * equal results.
   */
  lemma OrderIrrelevant(s: State, i: nat, t: State, j: nat)
    requires Reachable(s) && Reachable(t) && i in s.processed && j in t.processed
    requires i < |s.records| && j < |t.records|
    requires s.records[i].launch == t.records[j].launch && s.records[i].entry == t.records[j].entry
    ensures s.records[i].results == t.records[j].results && |s.records[i].results| == 1
  {
    hide Reachable;
    ReachableInv(s);
    ReachableInv(t);
    assert RecordOk(s, i) && RecordOk(t, j);
  }

  /** Nothing is pending and the device has completed everything posted. */
  predicate Drained(s: State) {
    s.batch == [] && s.queue == [] && forall i: nat :: i < |s.records| && s.records[i].launch.post.None? ==>
      s.records[i].entry.Some?
  }

  /** Then every operation that was ever launched has gone on exactly once, and no awaitable is suspended. */
  lemma AllResumed(s: State)
    requires Reachable(s) && Drained(s)
    ensures s.live == map[] && forall i: nat :: i < |s.records| ==> |s.records[i].results| == 1
  {
    hide Reachable;
    ReachableInv(s);
    assert s.processed == s.generated;
    forall i: nat | i < |s.records|
      ensures |s.records[i].results| == 1
    {
      assert RecordOk(s, i);
    }
    forall addr | addr in s.live
      ensures false
    {
      LiveIsUnprocessed(s, addr);
    }
  }

  lemma LiveIsUnprocessed(s: State, addr: nat)
    requires Inv(s) && addr in s.live
    ensures s.live[addr] < |s.records| && s.live[addr] !in s.processed && s.records[s.live[addr]].launch.post.None?
  {
    assert LiveOk(s, addr);
  }

  /** While anything is under way the poller can go on, or the device has something to complete. */
  lemma NeverStuck(s: State) returns (step: Step)
    requires Reachable(s) && !Drained(s)
    ensures Enabled(s, step) && !step.Start? && (step.Poll? ==> step.n > 0)
  {
    hide Reachable;
    ReachableInv(s);
    if s.batch != [] {
      step := ProcessNext;
    } else if s.queue != [] {
      step := Poll(1);
    } else {
      var i: nat :| i < |s.records| && s.records[i].launch.post.None? && s.records[i].entry.None?;
      assert RecordOk(s, i);
      step := Complete(Wc(s.records[i].addr, 0, false, 0, 0));
    }
  }

  lemma {:induction false} RunThen(s: State, run: seq<Step>, t: State, step: Step)
    requires Run(s, run, t) && Enabled(t, step)
    ensures Run(s, run + [step], Apply(t, step))
    decreases |run|
  {
    hide Enabled, Apply;
    if run == [] {
      assert (run + [step])[1..] == [];
    } else {
      assert (run + [step])[1..] == run[1..] + [step];
      RunThen(Apply(s, run[0]), run[1..], t, step);
    }
  }

  lemma Take(s: State, step: Step)
    requires Reachable(s) && Enabled(s, step)
    ensures Reachable(Apply(s, step))
  {
    hide Enabled, Apply;
    var run :| Run(EMPTY, run, s);
    RunThen(EMPTY, run, s, step);
  }

  /** Nothing is under way. */
  predicate Quiet(s: State) {
    s.live == map[] && s.queue == [] == s.batch && s.fault == NoFault
  }

  /** A receive at an address from its launch to its resumption. */
  lemma ReceiveOnce(s: State, addr: nat, length: nat) returns (t: State)
    requires Reachable(s) && Quiet(s)
    ensures Reachable(t) && Quiet(t) && |t.records| == |s.records| + 1 && t.records[..|s.records|] == s.records
    ensures t.records[|s.records|].addr == addr && t.records[|s.records|].results == [Ok(Received(length, None))]
    ensures t.processed == s.processed + [|s.records|]
  {
    hide Reachable;
    var wc := Wc(addr, 0, false, length, 0);
    t := s;
    Take(t, Start(addr, Launch(None, length, None)));
    t := Apply(t, Start(addr, Launch(None, length, None)));
    Take(t, Complete(wc));
    t := Apply(t, Complete(wc));
    Take(t, Poll(1));
    t := Apply(t, Poll(1));
    Take(t, ProcessNext);
    t := Apply(t, ProcessNext);
  }

  /** A receive loop: two receives at one address, one after the other, each with the length of its own message. */
  lemma AddressesRecur(addr: nat, first: nat, second: nat) returns (s: State)
    ensures Reachable(s) && |s.records| == 2 && s.records[0].addr == addr == s.records[1].addr && s.processed == [0, 1]
    ensures s.records[0].results == [Ok(Received(first, None))] && s.records[1].results == [Ok(Received(second, None))]
  {
    hide Reachable, Quiet;
    StartsEmpty();
    s := ReceiveOnce(EMPTY, addr, first);
    s := ReceiveOnce(s, addr, second);
  }

  lemma StartsEmpty()
    ensures Reachable(EMPTY) && Quiet(EMPTY)
  {
    assert Run(EMPTY, [], EMPTY);
  }
}
