/**
 * The poller's loop on the native path, with the coroutines that it resumes: each may launch operations,
 * at addresses that are free, before the loop goes on. Whatever it does is a run of module NativeRuns.
 */
module NativePoller {
  import opened Options
  import opened NativeCompletion
  import opened NativeRuns
  import Finite

  /** What happens in one iteration: completions before the poll, how much is ready, what resumed coroutines launch. */
  datatype Turn = Turn(contents: seq<Content>, fails: bool, ready: nat, launches: seq<seq<Launch>>)

  // ---------------------------------------------------------------- memory and device, by the steps

  function LiveState(s: State, addr: nat): Option<OpState> {
    if addr in s.live && s.live[addr] < |s.records| then Some(s.records[s.live[addr]].state) else None
  }

  /** The ids of work requests without a completion. */
  function Outstanding(s: State): set<nat> {
    set addr | addr in s.live && s.live[addr] < |s.records| && s.records[s.live[addr]].entry.None?
  }

  /** The awaitables in t that were in s have the same states. */
  predicate SameStates(s: State, t: State) {
    forall a :: a in t.live && a in s.live ==> LiveState(t, a) == LiveState(s, a)
  }

  lemma AfterStart(s: State, addr: nat, launch: Launch)
    requires Inv(s) && addr !in s.live
    ensures Enabled(s, Start(addr, launch)) && addr !in Outstanding(s)
    ensures var t := Apply(s, Start(addr, launch));
            && Inv(t) && SameStates(s, t) && t.queue == s.queue && t.batch == s.batch
            && t.live.Keys == s.live.Keys + (if launch.post.None? then {addr} else {})
            && Outstanding(t) == Outstanding(s) + (if launch.post.None? then {addr} else {})
            && (launch.post.None? ==>
              LiveState(t, addr) == Some(Suspended(New(launch.opcode, launch.viewLength), None)))
  {
    hide OrderOk, Suspended;
    StartInv(s, addr, launch);
    assert forall a :: a in s.live ==> LiveOk(s, a);
  }

  lemma StartRecords(s: State, addr: nat, launch: Launch)
    requires Enabled(s, Start(addr, launch))
    ensures var t := Apply(s, Start(addr, launch));
            |t.records| == |s.records| + 1 && s.records <= t.records && t.records[|s.records|].launch == launch
              && t.processed == s.processed
  {
  }

  lemma ProcessCounts(s: State)
    requires Inv(s) && Enabled(s, ProcessNext)
    ensures |Apply(s, ProcessNext).processed| == |s.processed| + 1
  {
    HeadIsNext(s);
  }

  lemma AfterProcess(s: State)
    requires Inv(s) && s.batch != []
    ensures Enabled(s, ProcessNext)
    ensures var t, wc := Apply(s, ProcessNext), s.batch[0];
            && Inv(t) && SameStates(s, t) && t.queue == s.queue && t.batch == s.batch[1..]
            && wc.wrId in s.live && t.live == s.live - {wc.wrId} && Outstanding(t) == Outstanding(s)
            && s.live[wc.wrId] < |s.records|
            && ResultOf(Completed(s.records[s.live[wc.wrId]].state, wc)) == Owed(s.records[s.live[wc.wrId]].launch, wc)
  {
    hide OrderOk, Completed, Owed, ResultOf;
    ProcessInv(s);
    HeadIsNext(s);
    var wc := s.batch[0];
    ResultIsOwed(s.records[s.live[wc.wrId]].launch, wc);
    assert forall a :: a in s.live ==> LiveOk(s, a);
  }

  lemma AfterComplete(s: State, wc: Wc)
    requires Inv(s) && wc.wrId in Outstanding(s)
    ensures Enabled(s, Complete(wc))
    ensures var t := Apply(s, Complete(wc));
            && Inv(t) && SameStates(s, t) && t.queue == s.queue + [wc] && t.batch == s.batch
            && t.live == s.live && Outstanding(t) == Outstanding(s) - {wc.wrId}
  {
    hide OrderOk;
    CompleteInv(s, wc);
    assert forall a :: a in s.live ==> LiveOk(s, a);
  }

  lemma AfterPoll(s: State, n: nat)
    requires Inv(s) && s.batch == [] && n <= |s.queue|
    ensures Enabled(s, Poll(n))
    ensures var t := Apply(s, Poll(n));
            && Inv(t) && SameStates(s, t) && t.queue == s.queue[n..] && t.batch == s.queue[..n]
            && t.live == s.live && Outstanding(t) == Outstanding(s)
  {
    hide OrderOk;
    PollInv(s, n);
  }

  lemma RunNone(s: State)
    ensures Run(s, [], s)
  {
  }

  lemma {:induction false} RunsJoin(s: State, a: seq<Step>, t: State, b: seq<Step>, u: State)
    requires Run(s, a, t) && Run(t, b, u)
    ensures Run(s, a + b, u)
    decreases |a|
  {
    hide Enabled, Apply;
    if a == [] {
      assert a + b == b;
    } else {
      assert (a + b)[1..] == a[1..] + b;
      RunsJoin(Apply(s, a[0]), a[1..], t, b, u);
    }
  }

  predicate NoPoll(run: seq<Step>) {
    forall k :: 0 <= k < |run| ==> !run[k].Poll?
  }

  function Polls(run: seq<Step>): nat {
    if run == [] then 0 else (if run[0].Poll? then 1 else 0) + Polls(run[1..])
  }

  /** Whenever the run polls, it gets something if there is something. */
  predicate Busy(s: State, run: seq<Step>)
    decreases |run|
  {
    run == [] || !Enabled(s, run[0])
    || ((run[0] == Poll(0) ==> s.queue == []) && Busy(Apply(s, run[0]), run[1..]))
  }

  lemma {:induction false} NothingPolled(s: State, run: seq<Step>)
    requires NoPoll(run)
    ensures Polls(run) == 0 && Busy(s, run)
    decreases |run|
  {
    hide Enabled, Apply;
    if run != [] && Enabled(s, run[0]) {
      NothingPolled(Apply(s, run[0]), run[1..]);
    } else if run != [] {
      NothingPolled(s, run[1..]);
    }
  }

  lemma {:induction false} PollsJoin(s: State, a: seq<Step>, t: State, b: seq<Step>)
    requires Run(s, a, t)
    ensures Polls(a + b) == Polls(a) + Polls(b)
    ensures Busy(s, a) && Busy(t, b) ==> Busy(s, a + b)
    decreases |a|
  {
    hide Enabled, Apply;
    if a == [] {
      assert a + b == b;
    } else {
      assert (a + b)[1..] == a[1..] + b;
      PollsJoin(Apply(s, a[0]), a[1..], t, b);
    }
  }

  lemma OnePoll(s: State, n: nat)
    ensures Polls([Poll(n)]) == 1
    ensures (n == 0 ==> s.queue == []) ==> Busy(s, [Poll(n)])
  {
    assert [Poll(n)][1..] == [];
  }

  lemma NonePolled(s: State)
    ensures Polls([]) == 0 && Busy(s, [])
  {
  }

  /** How many polls the loop gets to. */
  function Iterations(turns: seq<Turn>): nat {
    if turns == [] || turns[0].fails then 0 else 1 + Iterations(turns[1..])
  }

  /** The loop gets as far as the first poll that fails, or through all of them. */
  lemma {:induction false} IterationsAre(turns: seq<Turn>)
    ensures (forall j :: 0 <= j < |turns| ==> !turns[j].fails) ==> Iterations(turns) == |turns|
    ensures forall k :: 0 <= k < |turns| && turns[k].fails && (forall j :: 0 <= j < k ==> !turns[j].fails) ==>
              Iterations(turns) == k
    decreases |turns|
  {
    if turns != [] && !turns[0].fails {
      IterationsAre(turns[1..]);
      forall k | 0 <= k < |turns| && turns[k].fails && (forall j :: 0 <= j < k ==> !turns[j].fails)
        ensures Iterations(turns) == k
      {
        assert turns[1..][k - 1] == turns[k];
        assert forall j :: 0 <= j < k - 1 ==> turns[1..][j] == turns[j + 1];
      }
    }
  }

  // ---------------------------------------------------------------- the poller

  class Poller {
    const wcs: array<Wc>
    const cq: CompletionQueue
    var ops: map<nat, Operation>  // the awaitables in memory, by address
    ghost var view: State

    ghost predicate Valid()
      reads this, cq, ops.Values
    {
      && Inv(view) && view.queue == cq.entries && ops.Keys == view.live.Keys && cq.posted == Outstanding(view)
      && forall addr :: addr in ops ==> ops[addr].wrId == addr && LiveState(view, addr) == Some(ops[addr].View())
    }

    constructor (batch: nat)
      ensures Valid() && view == EMPTY && wcs.Length == batch && fresh(wcs) && fresh(cq)
    {
      wcs := new Wc[batch](_ => Wc(0, 0, false, 0, 0));
      cq := new CompletionQueue();
      ops, view := map[], EMPTY;
    }

    /** A new awaitable at a free address is asked to suspend. */
    method Prepare(addr: nat, launch: Launch) returns (op: Operation, suspended: bool)
      ensures fresh(op) && op.wrId == addr && (suspended <==> launch.post.None?)
      ensures op.View() == Suspended(New(launch.opcode, launch.viewLength), launch.post)
    {
      op := new Operation(launch.opcode, launch.viewLength, addr);
      suspended := op.Suspend(launch.post);
    }

    /** The awaitable stays, and its work request is posted. */
    method Keep(addr: nat, op: Operation, launch: Launch)
      requires Valid() && addr !in ops && op !in ops.Values && op.wrId == addr && launch.post.None?
      requires op.View() == Suspended(New(launch.opcode, launch.viewLength), None)
      modifies this`ops, this`view, cq`posted
      ensures Valid() && Enabled(old(view), Start(addr, launch)) && view == Apply(old(view), Start(addr, launch))
      ensures ops == old(ops)[addr := op] && view.batch == old(view).batch
    {
      hide Inv, Apply, Enabled, LiveState, Outstanding, Suspended, New;
      AfterStart(view, addr, launch);
      view := Apply(view, Start(addr, launch));
      cq.Post(addr);
      ops := ops[addr := op];
    }

    /** A coroutine awaits an operation: suspended, or going on at once with its post's failure. */
    method Await(addr: nat, launch: Launch) returns (result: Option<Result<Outcome, Failure>>)
      requires Valid() && addr !in ops
      modifies this`ops, this`view, cq`posted
      ensures Valid() && Enabled(old(view), Start(addr, launch)) && view == Apply(old(view), Start(addr, launch))
      ensures fresh(ops.Values - old(ops.Values)) && view.batch == old(view).batch
      ensures result == match launch.post case None => None case Some(why) => Some(Err(NotPosted(why)))
    {
      hide Inv, Apply, Enabled, LiveState, Outstanding, Suspended, New, ResultOf, Owed;
      var op, suspended := Prepare(addr, launch);
      if suspended {
        Keep(addr, op, launch);
        result := None;
      } else {
        var r := op.AwaitResume();
        result := Some(r);
        ResultIsOwed(launch, Wc(addr, 0, false, 0, 0));
        AfterStart(view, addr, launch);
        view := Apply(view, Start(addr, launch));
      }
    }

    /** The address in the completion is cast back to the state; the coroutine goes on and its awaitable goes. */
    method Execute(wc: Wc) returns (result: Result<Outcome, Failure>)
      requires Valid() && view.batch != [] && view.batch[0] == wc
      modifies this`ops, this`view, ops.Values
      ensures Valid() && Enabled(old(view), ProcessNext) && view == Apply(old(view), ProcessNext)
      ensures ops == old(ops) - {wc.wrId} && view.batch == old(view).batch[1..]
      ensures wc.wrId in old(view).live && old(view).live[wc.wrId] < |old(view).records|
      ensures result == Owed(old(view).records[old(view).live[wc.wrId]].launch, wc)
    {
      hide Inv, Apply, Enabled, Outstanding, Completed, Owed, ResultOf;
      AfterProcess(view);
      var op := ops[wc.wrId];
      op.ExecuteCallback(wc);
      result := op.AwaitResume();
      view := Apply(view, ProcessNext);
      ops := ops - {wc.wrId};
    }

    /** The device generates completions. */
    method Generate(contents: seq<Content>) returns (ghost run: seq<Step>)
      requires Valid()
      modifies this`view, cq
      ensures Valid() && Run(old(view), run, view) && NoPoll(run) && view.batch == old(view).batch
      ensures |view.queue| == |old(view).queue| + if |contents| <= |old(cq.posted)| then |contents|
              else |old(cq.posted)|
      ensures old(view).queue <= view.queue
      ensures forall k: nat :: k < |contents| && k < |old(cq.posted)| ==>
                var wc := view.queue[|old(view).queue| + k];
                Content(wc.status, wc.withImm, wc.byteLen, wc.imm) == contents[k]
    {
      hide Inv, Apply, Enabled, Outstanding, LiveState;
      run := [];
      var k := 0;
      while k < |contents|
        invariant 0 <= k <= |contents| && Valid() && Run(old(view), run, view) && NoPoll(run)
        invariant view.batch == old(view).batch
        invariant |cq.posted| == if k <= |old(cq.posted)| then |old(cq.posted)| - k else 0
        invariant |view.queue| + |cq.posted| == |old(view).queue| + |old(cq.posted)| && old(view).queue <= view.queue
        invariant forall j: nat :: j < k && j < |old(cq.posted)| ==>
                    var wc := view.queue[|old(view).queue| + j];
                    Content(wc.status, wc.withImm, wc.byteLen, wc.imm) == contents[j]
      {
        var wc := cq.Generate(contents[k]);
        if wc.Some? {
          AfterComplete(view, wc.value);
          RunThen(old(view), run, view, Complete(wc.value));
          run := run + [Complete(wc.value)];
          view := Apply(view, Complete(wc.value));
        }
        k := k + 1;
      }
    }

    /** A coroutine that was resumed launches operations, one after the other, at addresses that are free. */
    method LaunchAll(launches: seq<Launch>) returns (ghost run: seq<Step>)
      requires Valid()
      modifies this`ops, this`view, cq
      ensures Valid() && Run(old(view), run, view) && NoPoll(run) && view.batch == old(view).batch
      ensures fresh(ops.Values - old(ops.Values))
      ensures |view.records| == |old(view).records| + |launches| && view.processed == old(view).processed
      ensures forall k: nat :: k < |launches| ==> view.records[|old(view).records| + k].launch == launches[k]
    {
      hide Inv, Apply, Enabled, Outstanding, LiveState;
      run := [];
      var k := 0;
      while k < |launches|
        invariant 0 <= k <= |launches| && Valid() && Run(old(view), run, view) && NoPoll(run)
        invariant view.batch == old(view).batch
        invariant fresh(ops.Values - old(ops.Values))
        invariant |view.records| == |old(view).records| + k && view.processed == old(view).processed
        invariant forall j: nat :: j < k ==> view.records[|old(view).records| + j].launch == launches[j]
      {
        ghost var bound := Finite.Bound(ops.Keys);
        assert bound !in ops.Keys;
        var addr: nat :| addr !in ops;
        ghost var before := view;
        var result := Await(addr, launches[k]);
        StartRecords(before, addr, launches[k]);
        RunThen(old(view), run, before, Start(addr, launches[k]));
        run := run + [Start(addr, launches[k])];
        k := k + 1;
      }
    }

    /** One entry, and what its coroutine launches before the next. */
    method ProcessOne(wc: Wc, launches: seq<Launch>) returns (ghost run: seq<Step>)
      requires Valid() && view.batch != [] && view.batch[0] == wc
      modifies this`ops, this`view, cq, ops.Values
      ensures Valid() && Run(old(view), run, view) && NoPoll(run) && view.batch == old(view).batch[1..]
      ensures fresh(ops.Values - old(ops.Values)) && |view.processed| == |old(view).processed| + 1
    {
      hide Inv, Apply, Enabled, Outstanding, LiveState, Owed, Run;
      RunNone(view);
      var result := Execute(wc);
      ProcessCounts(old(view));
      RunThen(old(view), [], old(view), ProcessNext);
      ghost var after := view;
      ghost var more := LaunchAll(launches);
      RunsJoin(old(view), [] + [ProcessNext], after, more, view);
      run := [] + [ProcessNext] + more;
    }

    /** Handles the first n entries of the batch, in order; every coroutine resumed may launch before the next entry. */
    method ProcessWc(n: nat, launches: seq<seq<Launch>>) returns (ghost run: seq<Step>)
      requires Valid() && n <= wcs.Length && view.batch == wcs[..n]
      modifies this`ops, this`view, cq, ops.Values
      ensures Valid() && Run(old(view), run, view) && NoPoll(run) && view.batch == []
      ensures fresh(ops.Values - old(ops.Values)) && |view.processed| == |old(view).processed| + n
    {
      hide Inv, Apply, Enabled, Outstanding, LiveState, Run;
      run := [];
      RunNone(view);
      var k := 0;
      while k < n
        invariant 0 <= k <= n && Valid() && Run(old(view), run, view) && NoPoll(run) && view.batch == wcs[k..n]
        invariant fresh(ops.Values - old(ops.Values)) && |view.processed| == |old(view).processed| + k
      {
        ghost var before := view;
        ghost var more := ProcessOne(wcs[k], if k < |launches| then launches[k] else []);
        RunsJoin(old(view), run, before, more, view);
        run := run + more;
        k := k + 1;
      }
    }

    /**
     * The poller's loop, until it is asked to stop or a poll fails, with everything that the device and the
     * resumed coroutines do meanwhile: whatever that is, it is a run, with a poll in every iteration that
     * gets something if there is something, and with every polled entry processed.
     */
    method Worker(turns: seq<Turn>) returns (ghost run: seq<Step>)
      requires Valid() && view.batch == []
      modifies this`ops, this`view, cq, wcs, ops.Values
      ensures Valid() && Run(old(view), run, view) && view.batch == []
      ensures (forall j :: 0 <= j < |turns| ==> !turns[j].fails) ==> Polls(run) == |turns|
      ensures forall k :: 0 <= k < |turns| && turns[k].fails && (forall j :: 0 <= j < k ==> !turns[j].fails) ==>
                Polls(run) == k
      ensures wcs.Length > 0 && (forall t :: t in turns ==> t.ready > 0) ==> Busy(old(view), run)
    {
      hide Inv, Apply, Enabled, Outstanding, LiveState, Run, Busy, Polls, NoPoll;
      run := [];
      RunNone(view);
      NonePolled(view);
      IterationsAre(turns);
      var left := turns;
      while left != []
        invariant Valid() && Run(old(view), run, view) && view.batch == []
        invariant fresh(ops.Values - old(ops.Values))
        invariant Polls(run) + Iterations(left) == Iterations(turns) && (forall t :: t in left ==> t in turns)
        invariant wcs.Length > 0 && (forall t :: t in turns ==> t.ready > 0) ==> Busy(old(view), run)
        decreases |left|
      {
        ghost var v := view;
        ghost var more := Generate(left[0].contents);
        NothingPolled(v, more);
        PollsJoin(old(view), run, v, more);
        RunsJoin(old(view), run, v, more, view);
        run := run + more;
        if left[0].fails {
          return;
        }
        ghost var u := view;
        ghost var polled := PollOnce(left[0]);
        PollsJoin(old(view), run, u, polled);
        RunsJoin(old(view), run, u, polled, view);
        run := run + polled;
        left := left[1..];
      }
    }

    /** One poll, and the batch that it got. */
    method PollOnce(turn: Turn) returns (ghost run: seq<Step>)
      requires Valid() && view.batch == []
      modifies this`ops, this`view, cq, wcs, ops.Values
      ensures Valid() && view.batch == [] && Run(old(view), run, view)
      ensures fresh(ops.Values - old(ops.Values)) && Polls(run) == 1
      ensures wcs.Length > 0 && turn.ready > 0 ==> Busy(old(view), run)
    {
      hide Inv, Apply, Enabled, Outstanding, LiveState, Run, Busy, Polls, NoPoll;
      var n := cq.Poll(wcs, turn.ready);
      AfterPoll(view, n);
      RunNone(view);
      RunThen(view, [], view, Poll(n));
      assert [] + [Poll(n)] == [Poll(n)];
      view := Apply(view, Poll(n));
      OnePoll(old(view), n);
      ghost var w := view;
      ghost var rest := ProcessWc(n, turn.launches);
      NothingPolled(w, rest);
      PollsJoin(old(view), [Poll(n)], w, rest);
      RunsJoin(old(view), [Poll(n)], w, rest, view);
      run := [Poll(n)] + rest;
    }
  }
}
