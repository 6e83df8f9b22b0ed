/** Counting: queue bounds, credits and the slot pool. */
module RpcCredits {
  import opened Options
  import opened RpcModel
  import opened RpcInvariant
  import opened RpcPreservation
  import opened RpcOwnership

  // ---------------------------------------------------------------- counting

  /** The numbers below n. */
  function Below(n: nat): set<nat> {
    if n == 0 then {} else Below(n - 1) + {n - 1}
  }

  lemma {:induction false} BelowSize(n: nat)
    ensures |Below(n)| == n
    ensures forall x: nat :: x in Below(n) <==> x < n
  {
    if n > 0 {
      BelowSize(n - 1);
    }
  }

  lemma {:induction false} SubsetSize(a: set<nat>, b: set<nat>)
    requires a <= b
    ensures |a| <= |b|
  {
    if a != {} {
      var x :| x in a;
      SubsetSize(a - {x}, b - {x});
    }
  }

  /** An injective image is as large as the set. */
  lemma {:induction false} ImageSize(a: set<nat>, f: nat -> nat)
    requires forall x, y :: x in a && y in a && f(x) == f(y) ==> x == y
    ensures |set x | x in a :: f(x)| == |a|
    decreases a
  {
    if a != {} {
      var x :| x in a;
      ImageSize(a - {x}, f);
      assert (set y | y in a :: f(y)) == (set y | y in a - {x} :: f(y)) + {f(x)};
      assert f(x) !in (set y | y in a - {x} :: f(y));
    } else {
      assert (set x | x in a :: f(x)) == {};
    }
  }

  /** A set that maps injectively below n has at most n members. */
  lemma Pigeonhole(a: set<nat>, f: nat -> nat, n: nat)
    requires forall x, y :: x in a && y in a && f(x) == f(y) ==> x == y
    requires forall x :: x in a ==> f(x) < n
    ensures |a| <= n
  {
    ImageSize(a, f);
    BelowSize(n);
    SubsetSize(set x | x in a :: f(x), Below(n));
  }

  function SlotOf(calls: seq<Call>): nat -> nat {
    (c: nat) => if c < |calls| then calls[c].slot else 0
  }

  function Holders(s: State): set<CallId> {
    set c: nat | c < |s.calls| && Holds(s.calls[c].phase)
  }

  /** Calls that hold a slot map injectively to the slots. */
  lemma HoldersInjective(cfg: Config, s: State, some: set<CallId>)
    requires Inv(cfg, s) && some <= Holders(s)
    ensures |some| <= cfg.inflight
  {
    forall c | c in some
      ensures SlotOf(s.calls)(c) < cfg.inflight && s.holders[s.calls[c].slot] == Some(c)
    {
      CallAt(cfg, s, c);
    }
    Pigeonhole(some, SlotOf(s.calls), cfg.inflight);
  }

  // ---------------------------------------------------------------- the client's queues

  /** Calls whose send has an entry in the send queue: from its post until its completion is polled. */
  function SendsPosted(s: State): set<CallId> {
    set c: nat | c < |s.calls| && (SendOutstanding(s, c) || s.calls[c].phase.SendAcked? || s.calls[c].phase.SendErred?)
  }

  /** Workers whose receive has an entry in the receive queue, until its completion is polled. */
  function RecvsPosted(s: State): set<nat> {
    set w: nat | w < |s.workers| && (s.workers[w].Posted? || s.workers[w].Completed?)
  }

  /** The client's entries in each of its queues stay within max_inflight_, whatever the number of callers. */
  lemma ClientQueueBounds(cfg: Config, s: State)
    requires cfg.Valid() && Reachable(cfg, s)
    ensures |SendsPosted(s)| <= cfg.inflight && |RecvsPosted(s)| <= cfg.inflight
  {
    ReachableInv(cfg, s);
    HoldersInjective(cfg, s, SendsPosted(s));
    Pigeonhole(RecvsPosted(s), w => w, cfg.inflight);
  }

  // ---------------------------------------------------------------- the server's queues

  /** ServerDelivered begins before the completion is polled. */
  function ServerRecvsPosted(s: State): set<nat> {
    set w: nat | w < |s.serverWorkers| && (s.serverWorkers[w].ServerPosted? || s.serverWorkers[w].ServerDelivered?)
  }

  function ServerSendsPosted(s: State): set<nat> {
    set w: nat | w < |s.serverWorkers| && (s.serverWorkers[w].ReplyPosted? || s.serverWorkers[w].ReplySent?)
  }

  /** The server's sends and receives together stay within recv_depth_. */
  lemma ServerQueueBounds(cfg: Config, s: State)
    requires cfg.Valid() && Reachable(cfg, s)
    ensures |ServerRecvsPosted(s)| + |ServerSendsPosted(s)| <= cfg.depth
  {
    ReachableInv(cfg, s);
    assert ServerRecvsPosted(s) !! ServerSendsPosted(s);
    Pigeonhole(ServerRecvsPosted(s) + ServerSendsPosted(s), w => w, cfg.depth);
  }

  // ---------------------------------------------------------------- credits

  /** Calls whose response is still to be delivered to the client. */
  function Unconsumed(s: State): set<CallId> {
    set c: nat | c < |s.calls|
      && (s.calls[c].token.OnRequestWire? || s.calls[c].token.AtServer? || s.calls[c].token.OnResponseWire?)
  }

  /** Client workers that have a response in hand. */
  function Busy(s: State): set<nat> {
    set w: nat | w < |s.workers| && ClientOrigin(s.workers[w]).Some?
  }

  /** Client workers that have posted a receive, or will post one, or have given up. */
  function Free(s: State): set<nat> {
    set w: nat | w < |s.workers| && (s.workers[w].Posted? || s.workers[w].Idle? || s.workers[w].Dead?)
  }

  function Received(s: State): set<CallId> {
    set c: nat | c < |s.calls| && s.calls[c].token.AtClient?
  }

  function OriginOf(stages: seq<Stage>): nat -> nat {
    (w: nat) => if w < |stages| && ClientOrigin(stages[w]).Some? then ClientOrigin(stages[w]).value else 0
  }

  lemma BusyHaveCalls(cfg: Config, s: State)
    requires Inv(cfg, s)
    ensures |Busy(s)| <= |Received(s)|
  {
    var f := OriginOf(s.workers);
    forall w | w in Busy(s)
      ensures f(w) < |s.calls| && s.calls[f(w)].token == AtClient(w)
    {
      WorkerAt(cfg, s, w);
    }
    ImageSize(Busy(s), f);
    SubsetSize(set w | w in Busy(s) :: f(w), Received(s));
  }

  lemma Credits(cfg: Config, s: State)
    requires Inv(cfg, s)
    ensures |Unconsumed(s)| <= |Free(s)|
  {
    BusyHaveCalls(cfg, s);
    var u, r := Unconsumed(s), Received(s);
    forall c | c in u + r
      ensures c in Holders(s)
    {
      CallAt(cfg, s, c);
    }
    assert u !! r;
    HoldersInjective(cfg, s, u + r);
    AllWorkers(s);
    assert Free(s) !! Busy(s);
    assert |Free(s) + Busy(s)| == |Free(s)| + |Busy(s)|;
  }

  /** Client workers that have posted a receive, or will post one. */
  function Receivers(s: State): set<nat> {
    set w: nat | w < |s.workers| && (s.workers[w].Posted? || s.workers[w].Idle?)
  }

  /** Client workers that have left their loop. */
  function Left(s: State): set<nat> {
    set w: nat | w < |s.workers| && s.workers[w].Dead?
  }

  /**
   * The client is never short of receives: responses still to come are at most as many as workers that
   * have posted a receive or will, and as workers that have left their loop, if any has.
   */
  lemma ReceiveCredits(cfg: Config, s: State)
    requires cfg.Valid() && Reachable(cfg, s)
    ensures |Unconsumed(s)| <= |Receivers(s)| + |Left(s)|
    ensures (forall w: nat :: w < |s.workers| ==> !s.workers[w].Dead?) ==> |Unconsumed(s)| <= |Receivers(s)|
  {
    ReachableInv(cfg, s);
    Credits(cfg, s);
    assert Free(s) == Receivers(s) + Left(s) && Receivers(s) !! Left(s);
    if forall w: nat :: w < |s.workers| ==> !s.workers[w].Dead? {
      assert Left(s) == {};
    }
  }

  lemma AllWorkers(s: State)
    ensures |Free(s) + Busy(s)| == |s.workers|
  {
    BelowSize(|s.workers|);
    assert Free(s) + Busy(s) == Below(|s.workers|);
  }

  // ---------------------------------------------------------------- the slot pool

  /** Calls that have entered RpcClient::call and not returned. */
  function Active(s: State): set<CallId> {
    set c: nat | c < |s.calls| && !s.calls[c].phase.Finished?
  }

  lemma AllHeld(cfg: Config, s: State)
    requires Inv(cfg, s) && s.client.free == multiset{}
    ensures |Holders(s)| >= cfg.inflight
  {
    var f: nat -> nat := (x: nat) => if x < |s.holders| && s.holders[x].Some? then s.holders[x].value else 0;
    var slots := Below(cfg.inflight);
    BelowSize(cfg.inflight);
    forall x | x in slots
      ensures x < cfg.inflight && s.holders[x] == Some(f(x)) && f(x) in Holders(s) && s.calls[f(x)].slot == x
    {
      assert HolderOk(s.calls, x, s.holders[x], s.client.free[x]);
    }
    ImageSize(slots, f);
    SubsetSize(set x | x in slots :: f(x), Holders(s));
  }

  /** With at most max_inflight_ concurrent callers the dequeue loop never finds the pool empty. */
  lemma DequeueNeverSpins(cfg: Config, s: State, c: CallId)
    requires cfg.Valid() && Reachable(cfg, s) && |Active(s)| <= cfg.inflight && InPhase(s, c, Entering)
    ensures exists slot: nat :: Enabled(cfg, s, Caller(Dequeue(c, slot)))
  {
    ReachableInv(cfg, s);
    if s.client.free == multiset{} {
      assert c !in Holders(s);
      AllHeld(cfg, s);
      SubsetSize(Holders(s) + {c}, Active(s));
    } else {
      var slot :| slot in s.client.free;
      assert Enabled(cfg, s, Caller(Dequeue(c, slot)));
    }
  }
}
