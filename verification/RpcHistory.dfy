/**
 * What the steps of a run say about the state that it leads to: the calls made, in order; the ids that
 * they took, in order; and which workers have left their loops.
 */
module RpcHistory {
  import opened Bytes
  import opened Memory
  import opened Options
  import opened RpcModel
  import opened RpcInvariant
  import opened RpcPreservation
  import RequestId

  // ---------------------------------------------------------------- what a step leaves as it is

  /** The call has computed its id. */
  predicate HasId(phase: Phase) {
    !phase.Entering? && !phase.Dequeued?
  }

  predicate SameIdentity(a: Call, b: Call) {
    && b.request == a.request && b.initial == a.initial
    && (HasId(a.phase) ==> HasId(b.phase) && b.id == a.id && b.slot == a.slot)
  }

  predicate IdentitiesStay(s: State, t: State) {
    |s.calls| <= |t.calls| && forall c: CallId :: c < |s.calls| ==> SameIdentity(s.calls[c], t.calls[c])
  }

  predicate SameIds(s: State, t: State) {
    forall c: CallId :: c < |t.calls| ==> (HasId(t.calls[c].phase) <==> c < |s.calls| && HasId(s.calls[c].phase))
  }

  /** No call computes its id, and the counter stands still. */
  predicate NoneNumbered(s: State, t: State) {
    t.client.nextSeq == s.client.nextSeq && SameIds(s, t)
  }

  lemma CallerStays(cfg: Config, s: State, step: CallerStep)
    requires CallerEnabled(s, step)
    ensures IdentitiesStay(s, ApplyCaller(cfg, s, step))
  {
    hide Region, TakeSlot, TakeNumber, InitSlot, FillRequest, StoreWaiter, GiveSlot;
  }

  lemma CallerIds(cfg: Config, s: State, step: CallerStep)
    requires CallerEnabled(s, step) && !step.Number?
    ensures SameIds(s, ApplyCaller(cfg, s, step))
  {
    hide Region, TakeSlot, TakeNumber, InitSlot, FillRequest, StoreWaiter, GiveSlot;
  }

  lemma CallerCounter(cfg: Config, s: State, step: CallerStep)
    requires CallerEnabled(s, step) && !step.Number?
    ensures ApplyCaller(cfg, s, step).client.nextSeq == s.client.nextSeq
  {
    hide Region, PutFrame;
  }

  lemma CallerIdentities(cfg: Config, s: State, step: CallerStep)
    requires CallerEnabled(s, step)
    ensures IdentitiesStay(s, ApplyCaller(cfg, s, step))
    ensures !step.Number? ==> NoneNumbered(s, ApplyCaller(cfg, s, step))
  {
    hide CallerEnabled, ApplyCaller, IdentitiesStay, SameIds;
    CallerStays(cfg, s, step);
    if !step.Number? {
      CallerIds(cfg, s, step);
      CallerCounter(cfg, s, step);
    }
  }

  lemma ReceiverIdentities(cfg: Config, s: State, step: ReceiverStep)
    requires ReceiverEnabled(s, step)
    ensures IdentitiesStay(s, ApplyReceiver(cfg, s, step)) && NoneNumbered(s, ApplyReceiver(cfg, s, step))
    ensures |ApplyReceiver(cfg, s, step).calls| == |s.calls|
  {
    hide Region, MatchHeader, CopyLength, Put;
  }

  lemma ServerIdentities(cfg: Config, s: State, step: ServerStep)
    requires ServerEnabled(cfg, s, step)
    ensures IdentitiesStay(s, ApplyServer(cfg, s, step)) && NoneNumbered(s, ApplyServer(cfg, s, step))
    ensures |ApplyServer(cfg, s, step).calls| == |s.calls|
  {
    hide Region, HandleRequest, HeaderLength, Put;
  }

  lemma StepIdentities(cfg: Config, s: State, step: Step)
    requires Enabled(cfg, s, step)
    ensures IdentitiesStay(s, Apply(cfg, s, step))
    ensures !(step.Caller? && step.caller.Number?) ==> NoneNumbered(s, Apply(cfg, s, step))
  {
    hide CallerEnabled, ReceiverEnabled, ServerEnabled, ApplyCaller, ApplyReceiver, ApplyServer;
    hide IdentitiesStay, NoneNumbered;
    match step
    case Caller(x) => CallerIdentities(cfg, s, x);
    case Receiver(x) => ReceiverIdentities(cfg, s, x);
    case Server(x) => ServerIdentities(cfg, s, x);
  }

  // ---------------------------------------------------------------- the calls made

  /** The requests and buffers of the calls made in a run, in order. */
  function Invocations(run: seq<Step>): seq<(Data, Data)> {
    if run == [] then []
    else match run[0]
         case Caller(Invoke(request, buffer)) => [(request, buffer)] + Invocations(run[1..])
         case _ => Invocations(run[1..])
  }

  predicate MadeAs(s: State, first: nat, made: seq<(Data, Data)>) {
    && |s.calls| == first + |made|
    && forall j: nat :: j < |made| ==>
         s.calls[first + j].request == made[j].0 && s.calls[first + j].initial == made[j].1
  }

  lemma StepMakes(cfg: Config, s: State, step: Step)
    requires Enabled(cfg, s, step)
    ensures MadeAs(Apply(cfg, s, step), |s.calls|, Invocations([step]))
  {
    hide CallerEnabled, ReceiverEnabled, ServerEnabled, ApplyReceiver, ApplyServer;
    assert [step][1..] == [];
    match step
    case Caller(x) => CallerMakes(cfg, s, x);
    case Receiver(x) => ReceiverIdentities(cfg, s, x);
    case Server(x) => ServerIdentities(cfg, s, x);
  }

  lemma CallerMakes(cfg: Config, s: State, step: CallerStep)
    requires CallerEnabled(s, step)
    ensures match step
            case Invoke(request, buffer) => MadeAs(ApplyCaller(cfg, s, step), |s.calls|, [(request, buffer)])
            case _ => |ApplyCaller(cfg, s, step).calls| == |s.calls|
  {
    hide Region, PutFrame;
  }

  lemma {:induction false} RunMakes(cfg: Config, s: State, run: seq<Step>, t: State)
    requires Run(cfg, s, run, t)
    ensures IdentitiesStay(s, t) && MadeAs(t, |s.calls|, Invocations(run))
    decreases |run|
  {
    hide Enabled, Apply;
    if run != [] {
      var u := Apply(cfg, s, run[0]);
      StepIdentities(cfg, s, run[0]);
      StepMakes(cfg, s, run[0]);
      RunMakes(cfg, u, run[1..], t);
      var first := Invocations([run[0]]);
      assert Invocations(run) == first + Invocations(run[1..]) by {
        assert [run[0]][1..] == [];
      }
    }
  }

  /** Every call of a run has the request and the buffer that it was made with, and nothing else makes a call. */
  lemma CallsAsInvoked(cfg: Config, s: State, run: seq<Step>, t: State)
    requires Initial(cfg, s) && Run(cfg, s, run, t)
    ensures |t.calls| == |Invocations(run)|
    ensures forall c: CallId :: c < |t.calls| ==>
              t.calls[c].request == Invocations(run)[c].0 && t.calls[c].initial == Invocations(run)[c].1
  {
    hide Run;
    RunMakes(cfg, s, run, t);
    assert forall c: CallId :: c < |t.calls| ==> t.calls[c] == t.calls[0 + c];
  }

  // ---------------------------------------------------------------- the ids taken

  /** The calls that take their id in a run, in order. */
  function Numbered(run: seq<Step>): seq<CallId> {
    if run == [] then []
    else match run[0]
         case Caller(Number(c)) => [c] + Numbered(run[1..])
         case _ => Numbered(run[1..])
  }

  lemma NumberStep(cfg: Config, s: State, c: CallId)
    requires CallerEnabled(s, Number(c))
    ensures var t := ApplyCaller(cfg, s, Number(c));
            && c < |t.calls| == |s.calls| && !HasId(s.calls[c].phase) && HasId(t.calls[c].phase)
            && t.calls[c].slot == s.calls[c].slot < TWO_32
            && t.calls[c].id == RequestId.Encode(s.client.nextSeq, t.calls[c].slot)
            && t.client.nextSeq == s.client.nextSeq + 1
            && forall d: CallId :: d < |s.calls| && d != c ==> t.calls[d] == s.calls[d]
  {
  }

  /** The call took the id that the counter gave it at its turn. */
  predicate TookId(t: State, first: nat, order: seq<CallId>, j: nat)
    requires j < |order|
  {
    && order[j] < |t.calls| && HasId(t.calls[order[j]].phase) && t.calls[order[j]].slot < TWO_32
    && t.calls[order[j]].id == RequestId.Encode(first + j, t.calls[order[j]].slot)
  }

  /** The calls in order are those that have taken an id between s and t. */
  predicate TookIdBetween(s: State, t: State, order: seq<CallId>) {
    && (forall c :: c in order ==> c < |t.calls| && !(c < |s.calls| && HasId(s.calls[c].phase)))
    && (forall c: CallId :: c < |t.calls| ==>
          (HasId(t.calls[c].phase) <==> (c < |s.calls| && HasId(s.calls[c].phase)) || c in order))
    && (forall a, b :: 0 <= a < b < |order| ==> order[a] != order[b])
  }

  lemma {:induction false} RunNumbers(cfg: Config, s: State, run: seq<Step>, t: State)
    requires Run(cfg, s, run, t)
    ensures IdentitiesStay(s, t) && t.client.nextSeq == s.client.nextSeq + |Numbered(run)|
    ensures TookIdBetween(s, t, Numbered(run))
    ensures forall j: nat :: j < |Numbered(run)| ==> TookId(t, s.client.nextSeq, Numbered(run), j)
    decreases |run|
  {
    hide Enabled, Apply, RequestId.Encode;
    if run != [] {
      var u := Apply(cfg, s, run[0]);
      StepIdentities(cfg, s, run[0]);
      RunNumbers(cfg, u, run[1..], t);
      match run[0] {
        case Caller(Number(c)) => FirstNumbered(cfg, s, c, run, t);
        case _ =>
      }
    }
  }

  lemma FirstBetween(s: State, u: State, t: State, c: CallId, rest: seq<CallId>)
    requires c < |s.calls| == |u.calls| && !HasId(s.calls[c].phase) && HasId(u.calls[c].phase)
    requires forall d: CallId :: d < |s.calls| && d != c ==> u.calls[d] == s.calls[d]
    requires IdentitiesStay(u, t) && TookIdBetween(u, t, rest)
    ensures TookIdBetween(s, t, [c] + rest)
  {
    hide SameIdentity;
    assert SameIdentity(u.calls[c], t.calls[c]);
    StillHasId(u.calls[c], t.calls[c]);
    var order := [c] + rest;
    forall d: CallId
      ensures d in order <==> d == c || d in rest
    {
    }
  }

  lemma StillHasId(a: Call, b: Call)
    requires SameIdentity(a, b) && HasId(a.phase)
    ensures HasId(b.phase) && b.id == a.id && b.slot == a.slot
  {
  }

  lemma FirstNumbered(cfg: Config, s: State, c: CallId, run: seq<Step>, t: State)
    requires run != [] && run[0] == Caller(Number(c)) && Enabled(cfg, s, run[0])
    requires var u := Apply(cfg, s, run[0]);
             && IdentitiesStay(u, t) && t.client.nextSeq == u.client.nextSeq + |Numbered(run[1..])|
             && TookIdBetween(u, t, Numbered(run[1..]))
             && forall j: nat :: j < |Numbered(run[1..])| ==> TookId(t, u.client.nextSeq, Numbered(run[1..]), j)
    ensures t.client.nextSeq == s.client.nextSeq + |Numbered(run)| && TookIdBetween(s, t, Numbered(run))
    ensures forall j: nat :: j < |Numbered(run)| ==> TookId(t, s.client.nextSeq, Numbered(run), j)
  {
    hide ApplyCaller, CallerEnabled, RequestId.Encode, TookIdBetween, SameIdentity, TookId;
    NumberStep(cfg, s, c);
    var u, rest := Apply(cfg, s, run[0]), Numbered(run[1..]);
    assert Numbered(run) == [c] + rest;
    FirstBetween(s, u, t, c, rest);
    assert SameIdentity(u.calls[c], t.calls[c]);
    StillHasId(u.calls[c], t.calls[c]);
    TookInOrder(t, s.client.nextSeq, u.client.nextSeq, c, rest);
  }

  lemma TookInOrder(t: State, first: nat, next: nat, c: CallId, rest: seq<CallId>)
    requires next == first + 1 && c < |t.calls| && HasId(t.calls[c].phase) && t.calls[c].slot < TWO_32
    requires t.calls[c].id == RequestId.Encode(first, t.calls[c].slot)
    requires forall j: nat :: j < |rest| ==> TookId(t, next, rest, j)
    ensures forall j: nat :: j < |[c] + rest| ==> TookId(t, first, [c] + rest, j)
  {
    hide RequestId.Encode;
    forall j: nat | j < |[c] + rest|
      ensures TookId(t, first, [c] + rest, j)
    {
      if j > 0 {
        assert TookId(t, next, rest, j - 1);
      }
    }
  }

  /**
   * The ids of a run: the j-th call to take one has the counter's first value plus j in it, together with
   * its slot, and keeps both; no call takes two, and every call that is past that point has taken one.
   */
  lemma IdsInOrder(cfg: Config, s: State, run: seq<Step>, t: State)
    requires Initial(cfg, s) && Run(cfg, s, run, t)
    ensures t.client.nextSeq == s.client.nextSeq + |Numbered(run)|
    ensures forall j: nat :: j < |Numbered(run)| ==> TookId(t, s.client.nextSeq, Numbered(run), j)
    ensures forall c: CallId :: c < |t.calls| ==> (HasId(t.calls[c].phase) <==> c in Numbered(run))
    ensures forall a, b :: 0 <= a < b < |Numbered(run)| ==> Numbered(run)[a] != Numbered(run)[b]
  {
    hide Run;
    RunNumbers(cfg, s, run, t);
  }

  /**
   * Two calls of one run have the same id exactly if they had the same slot and the number of ids taken
   * from one to the other is a multiple of 2^32; so it is at least 2^32.
   */
  lemma EqualIdsInRun(cfg: Config, s: State, run: seq<Step>, t: State, a: nat, b: nat)
    requires Initial(cfg, s) && Run(cfg, s, run, t) && a < b < |Numbered(run)|
    ensures var x, y := Numbered(run)[a], Numbered(run)[b];
            && x < |t.calls| && y < |t.calls| && x != y
            && (t.calls[x].id == t.calls[y].id <==>
                  t.calls[x].slot == t.calls[y].slot && (b - a) % TWO_32 == 0)
            && (t.calls[x].id == t.calls[y].id ==> b - a >= TWO_32)
  {
    hide Run, RequestId.Encode;
    IdsInOrder(cfg, s, run, t);
    var k := s.client.nextSeq;
    var x, y := Numbered(run)[a], Numbered(run)[b];
    assert TookId(t, k, Numbered(run), a) && TookId(t, k, Numbered(run), b);
    RequestId.EncodeInjective(k + a, t.calls[x].slot, k + b, t.calls[y].slot);
    Congruent(k + a, k + b);
  }

  // ---------------------------------------------------------------- calls and workers' loops

  /** The loop of a server worker: from one stage to the next, and out of it from a receive only. */
  predicate ServerEdge(a: ServerStage, b: ServerStage) {
    match a
    case ServerIdle => b.ServerPosted? || b.ServerDead?
    case ServerPosted => b.ServerDelivered? || b.ServerDead?
    case ServerDelivered(_, c) => b.Ready? && b.origin == c
    case Ready(n, c) => b == ReplyPosted(n, c) || b == ServerIdle
    case ReplyPosted(_, _) => b == ReplySent || b == ServerIdle
    case ReplySent => b == ServerIdle
    case ServerDead => false
  }

  /** The loop of a client receive worker. */
  predicate ReceiverEdge(a: Stage, b: Stage) {
    match a
    case Idle => b.Posted? || b.Dead?
    case Posted => b.Completed? || b.Dead?
    case Completed(n, c) => b == Delivered(n, c)
    case Delivered(_, c) => b.Matched? && b.origin == c
    case Matched(x, c) => b == Copied(x, c)
    case Copied(_, c) => b.Loaded? && b.origin == c
    case Loaded(_, _) => b == Idle
    case Dead => false
  }

  /** What a call does next, through its send and its response or through a failed send. */
  predicate CallEdge(a: Phase, b: Phase) {
    match a
    case Entering => b == Dequeued
    case Dequeued => b.Numbered?
    case Numbered => b == Initialised
    case Initialised => b == Filled
    case Filled => b == SendPosted || b == Returning(0)
    case SendPosted => b == SendSent || b == SendErred
    case SendSent => b == SendAcked
    case SendAcked => b == SendDone
    case SendErred => b == Returning(0)
    case SendDone => b == Waiting
    case Waiting => b == Resumed
    case Resumed => b.Returning?
    case Returning(n) => b == Finished(n)
    case Finished(_) => false
  }

  predicate CallsFollowed(s: State, t: State) {
    && |s.calls| <= |t.calls|
    && (forall c: CallId :: c < |s.calls| ==>
          t.calls[c].phase == s.calls[c].phase || CallEdge(s.calls[c].phase, t.calls[c].phase))
    && (forall c: CallId :: |s.calls| <= c < |t.calls| ==> t.calls[c].phase == Entering)
  }

  lemma CallerFollows(cfg: Config, s: State, step: CallerStep)
    requires CallerEnabled(s, step)
    ensures CallsFollowed(s, ApplyCaller(cfg, s, step))
  {
    hide CallerEnabled, ApplyCaller, CallEdge;
    forall c: CallId | c < |s.calls|
      ensures c < |ApplyCaller(cfg, s, step).calls|
      ensures var phase := ApplyCaller(cfg, s, step).calls[c].phase;
              phase == s.calls[c].phase || CallEdge(s.calls[c].phase, phase)
    {
      if !step.Invoke? && step.c == c {
        OwnFollows(cfg, s, step);
      } else {
        OthersFollow(cfg, s, step, c);
      }
    }
    NewCalls(cfg, s, step);
  }

  lemma OwnFollows(cfg: Config, s: State, step: CallerStep)
    requires CallerEnabled(s, step) && !step.Invoke?
    ensures step.c < |s.calls| == |ApplyCaller(cfg, s, step).calls|
    ensures var phase := ApplyCaller(cfg, s, step).calls[step.c].phase;
            phase == s.calls[step.c].phase || CallEdge(s.calls[step.c].phase, phase)
  {
    hide Region, TakeSlot, TakeNumber, InitSlot, FillRequest, StoreWaiter, GiveSlot;
  }

  lemma OthersFollow(cfg: Config, s: State, step: CallerStep, c: CallId)
    requires CallerEnabled(s, step) && c < |s.calls| && (step.Invoke? || step.c != c)
    ensures c < |ApplyCaller(cfg, s, step).calls| && ApplyCaller(cfg, s, step).calls[c].phase == s.calls[c].phase
  {
    hide Region, TakeSlot, TakeNumber, InitSlot, FillRequest, StoreWaiter, GiveSlot;
  }

  lemma NewCalls(cfg: Config, s: State, step: CallerStep)
    requires CallerEnabled(s, step)
    ensures |s.calls| <= |ApplyCaller(cfg, s, step).calls|
    ensures forall c: CallId :: |s.calls| <= c < |ApplyCaller(cfg, s, step).calls| ==>
              ApplyCaller(cfg, s, step).calls[c].phase == Entering
  {
    hide Region, TakeSlot, TakeNumber, InitSlot, FillRequest, StoreWaiter, GiveSlot;
  }

  lemma ReceiverFollows(cfg: Config, s: State, step: ReceiverStep)
    requires ReceiverEnabled(s, step)
    ensures CallsFollowed(s, ApplyReceiver(cfg, s, step))
  {
    hide Region, MatchHeader, CopyLength, SetActual, Put;
  }

  lemma ServerFollows(cfg: Config, s: State, step: ServerStep)
    requires ServerEnabled(cfg, s, step)
    ensures CallsFollowed(s, ApplyServer(cfg, s, step))
  {
    hide Region, HandleRequest, HeaderLength, Put;
  }

  /** Every call stays where it is or takes the next step of RpcClient::call, and new ones begin at its start. */
  lemma StepFollowsCalls(cfg: Config, s: State, step: Step)
    requires Enabled(cfg, s, step)
    ensures CallsFollowed(s, Apply(cfg, s, step))
  {
    hide CallerEnabled, ReceiverEnabled, ServerEnabled, ApplyCaller, ApplyReceiver, ApplyServer, CallsFollowed;
    match step
    case Caller(x) => CallerFollows(cfg, s, x);
    case Receiver(x) => ReceiverFollows(cfg, s, x);
    case Server(x) => ServerFollows(cfg, s, x);
  }

  predicate LoopsFollowed(s: State, t: State) {
    && |t.workers| == |s.workers| && |t.serverWorkers| == |s.serverWorkers|
    && (forall w: nat :: w < |s.workers| ==>
          t.workers[w] == s.workers[w] || ReceiverEdge(s.workers[w], t.workers[w]))
    && (forall w: nat :: w < |s.serverWorkers| ==>
          t.serverWorkers[w] == s.serverWorkers[w] || ServerEdge(s.serverWorkers[w], t.serverWorkers[w]))
  }

  predicate Gone(s: State, w: nat) {
    w < |s.workers| && s.workers[w].Dead?
  }

  predicate ServerGone(s: State, w: nat) {
    w < |s.serverWorkers| && s.serverWorkers[w].ServerDead?
  }

  lemma CallerLoops(cfg: Config, s: State, step: CallerStep)
    requires CallerEnabled(s, step)
    ensures ApplyCaller(cfg, s, step).workers == s.workers
    ensures ApplyCaller(cfg, s, step).serverWorkers == s.serverWorkers
  {
    hide Region, PutFrame;
  }

  lemma ReceiverLoops(cfg: Config, s: State, step: ReceiverStep)
    requires ReceiverEnabled(s, step)
    ensures LoopsFollowed(s, ApplyReceiver(cfg, s, step))
    ensures forall w: nat :: Gone(ApplyReceiver(cfg, s, step), w) <==> Gone(s, w) || step == FailRecv(w)
    ensures ApplyReceiver(cfg, s, step).serverWorkers == s.serverWorkers
  {
    hide Region, MatchHeader, CopyLength, Put;
  }

  lemma ServerLoops(cfg: Config, s: State, step: ServerStep)
    requires ServerEnabled(cfg, s, step)
    ensures LoopsFollowed(s, ApplyServer(cfg, s, step))
    ensures forall w: nat :: ServerGone(ApplyServer(cfg, s, step), w) <==> ServerGone(s, w) || step == ServerFailRecv(w)
    ensures ApplyServer(cfg, s, step).workers == s.workers
  {
    hide Region, HandleRequest, HeaderLength, Put;
  }

  /** Every worker stays where it is or takes the next edge of its loop, and only a failed receive leads out of it. */
  lemma StepFollowsLoops(cfg: Config, s: State, step: Step)
    requires Enabled(cfg, s, step)
    ensures LoopsFollowed(s, Apply(cfg, s, step))
    ensures forall w: nat :: Gone(Apply(cfg, s, step), w) <==> Gone(s, w) || step == Receiver(FailRecv(w))
    ensures forall w: nat ::
              ServerGone(Apply(cfg, s, step), w) <==> ServerGone(s, w) || step == Server(ServerFailRecv(w))
  {
    hide CallerEnabled, ReceiverEnabled, ServerEnabled, ApplyCaller, ApplyReceiver, ApplyServer;
    match step
    case Caller(x) => CallerLoops(cfg, s, x);
    case Receiver(x) => ReceiverLoops(cfg, s, x);
    case Server(x) => ServerLoops(cfg, s, x);
  }

  lemma {:induction false} RunLeaves(cfg: Config, s: State, run: seq<Step>, t: State, w: nat)
    requires Run(cfg, s, run, t)
    ensures Gone(t, w) <==> Gone(s, w) || Receiver(FailRecv(w)) in run
    ensures ServerGone(t, w) <==> ServerGone(s, w) || Server(ServerFailRecv(w)) in run
    decreases |run|
  {
    hide Enabled, Apply, Gone, ServerGone;
    if run != [] {
      StepFollowsLoops(cfg, s, run[0]);
      RunLeaves(cfg, Apply(cfg, s, run[0]), run[1..], t, w);
      assert run == [run[0]] + run[1..];
    }
  }

  /** A worker has left its loop if and only if a receive of its own failed in the run. */
  lemma LeavesExactlyIf(cfg: Config, s: State, run: seq<Step>, t: State, w: nat)
    requires Initial(cfg, s) && Run(cfg, s, run, t)
    ensures Gone(t, w) <==> Receiver(FailRecv(w)) in run
    ensures ServerGone(t, w) <==> Server(ServerFailRecv(w)) in run
  {
    hide Run;
    RunLeaves(cfg, s, run, t, w);
  }

  /**
   * A reply can always fail, when it is posted and when it is completed, and a receive when it is posted
   * and after; and a server worker whose reply failed goes on to post its next receive.
   */
  lemma FailedReplyGoesOn(cfg: Config, s: State, w: nat)
    requires s.fault == NoFault && w < |s.serverWorkers|
    ensures w < |s.workers| ==>
              (Enabled(cfg, s, Receiver(FailRecv(w))) <==> s.workers[w].Idle? || s.workers[w].Posted?)
    ensures Enabled(cfg, s, Server(ServerPostSendFail(w))) <==> s.serverWorkers[w].Ready?
    ensures Enabled(cfg, s, Server(ServerErrSend(w))) <==> s.serverWorkers[w].ReplyPosted?
    ensures Enabled(cfg, s, Server(ServerFailRecv(w))) <==>
              s.serverWorkers[w].ServerIdle? || s.serverWorkers[w].ServerPosted?
    ensures forall x :: x in {ServerPostSendFail(w), ServerErrSend(w)} && Enabled(cfg, s, Server(x)) ==>
              Enabled(cfg, Apply(cfg, s, Server(x)), Server(ServerPostRecv(w)))
  {
  }
}
