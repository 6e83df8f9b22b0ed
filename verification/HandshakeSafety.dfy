/** What connecting guarantees: agreement of both sides, order of states, unique peers, and an end. */
module HandshakeSafety {
  import opened Bytes
  import opened Options
  import opened QpCodec
  import opened Handshake
  import opened HandshakeInvariant

  // ---------------------------------------------------------------- agreement

  /** x points at y, with the sequence number that y starts from. */
  predicate PointsAt(x: Qp, y: Qp, host: Host) {
    x.destNum == y.num && x.rqPsn == y.sqPsn && x.dlid == host.lid && x.dgid == host.gid
  }

  /** A side that has taken its queue pair to RTR points it at the one its peer made. */
  lemma Paired(cfg: Config, s: State, i: nat, side: Side)
    requires Inv(cfg, s) && i < |s.conns| && Did(s.conns[i], side, ToRtr)
    ensures var c, other := s.conns[i], Other(side);
            && End(c, side).qp.Some? && End(c, other).qp.Some?
            && HostIndex(cfg.plans[i], other) < |cfg.hosts|
            && PointsAt(End(c, side).qp.value, End(c, other).qp.value, cfg.hosts[HostIndex(cfg.plans[i], other)])
            && From(c, other).sent != [] && End(c, other).pc >= At(other, Send)
  {
    hide EncodeQp, HeaderOf, NumsOk;
    ConnAt(cfg, s, i, side);
  }

  /** Both sides hold what the connector's queue pair was made with, cut to a size of four bytes. */
  lemma SameUserData(cfg: Config, s: State, i: nat, side: Side)
    requires Inv(cfg, s) && i < |s.conns| && Did(s.conns[i], side, Store)
    ensures End(s.conns[i], side).qp.Some?
    ensures End(s.conns[i], side).qp.value.userData == Cut(cfg.plans[i].userData)
  {
    hide EncodeQp, HeaderOf, NumsOk;
    ConnAt(cfg, s, i, side);
    CutTwice(cfg.plans[i].userData);
  }

  lemma CutTwice(data: seq<byte>)
    ensures Cut(Cut(data)) == Cut(data)
    ensures Cut(data) == data <==> |data| < TWO_32
  {
    var n := |data| % TWO_32;
    assert |data[..n]| == n && n % TWO_32 == n;
  }

  /**
   * Handshake agreement. When a connector's queue pair is ready to send, the acceptor's got there
   * before; each points at the other and expects the number that the other starts from; and both
   * hold the same user data, the connector's own exactly if it is shorter than 2^32 bytes.
   */
  lemma Agreement(cfg: Config, s: State, i: nat)
    requires cfg.Valid() && Reachable(cfg, s) && i < |s.conns| && s.conns[i].connector.qp.Some?
    requires s.conns[i].connector.qp.value.state == Rts
    ensures i < |cfg.plans| && cfg.plans[i].connector < |cfg.hosts| && cfg.plans[i].acceptor < |cfg.hosts|
    ensures var c, plan := s.conns[i], cfg.plans[i];
            && c.acceptor.qp.Some?
            && var x, y := c.connector.qp.value, c.acceptor.qp.value;
               && Did(c, Acceptor, ToRts) && (Alive(c.acceptor) ==> y.state == Rts) && y.state in {Rts, Error}
               && PointsAt(x, y, cfg.hosts[plan.acceptor]) && PointsAt(y, x, cfg.hosts[plan.connector])
               && x.userData == y.userData
               && (x.userData == plan.userData <==> |plan.userData| < TWO_32)
  {
    hide Reachable, EncodeQp, HeaderOf, NumsOk, FlowOk, Cut;
    ReachableInv(cfg, s);
    ConnAt(cfg, s, i, Connector);
    Paired(cfg, s, i, Connector);
    Paired(cfg, s, i, Acceptor);
    SameUserData(cfg, s, i, Connector);
    SameUserData(cfg, s, i, Acceptor);
    CutTwice(cfg.plans[i].userData);
  }

  /** The queue pair that a connected side points at is the only one on any device with that number and gid. */
  lemma PeerIsUnique(cfg: Config, s: State, i: nat, side: Side, j: nat, y: Side)
    requires cfg.Valid() && Reachable(cfg, s) && i < |s.conns| && Did(s.conns[i], side, ToRtr)
    requires Exists(s.conns[i], Other(side))
    requires j < |s.conns| && Exists(s.conns[j], y) && End(s.conns[i], side).qp.Some?
    requires j < |cfg.plans| && HostIndex(cfg.plans[j], y) < |cfg.hosts|
    requires End(s.conns[j], y).qp.value.num == End(s.conns[i], side).qp.value.destNum
    requires cfg.hosts[HostIndex(cfg.plans[j], y)].gid == End(s.conns[i], side).qp.value.dgid
    ensures j == i && y == Other(side)
  {
    hide Reachable, EndOk, FlowOk;
    ReachableInv(cfg, s);
    Paired(cfg, s, i, side);
    assert SameDevice(cfg, s, i, Other(side), j, y);
  }

  // ---------------------------------------------------------------- order of states

  /** From nothing, or from one state to the next, or from any state to the error state. */
  predicate Follows(a: Option<Qp>, b: Option<Qp>) {
    match (a, b)
    case (None, None) => true
    case (None, Some(q)) => q.state == Reset
    case (Some(_), None) => false
    case (Some(p), Some(q)) =>
      || p.state == q.state
      || (p.state == Reset && q.state == Init)
      || (p.state == Init && q.state == Rtr)
      || (p.state == Rtr && q.state == Rts)
      || q.state == Error
  }

  /** What a queue pair was made with never changes, and what it was pointed at is set on the way to RTR only. */
  predicate Stable(a: Option<Qp>, b: Option<Qp>) {
    a.Some? ==>
      && b.Some? && b.value.num == a.value.num && b.value.sqPsn == a.value.sqPsn
      && (a.value.state != Init || b.value.state != Rtr ==>
            b.value.destNum == a.value.destNum && b.value.rqPsn == a.value.rqPsn && b.value.dlid == a.value.dlid
              && b.value.dgid == a.value.dgid)
  }

  /** A step changes the queue pair of the side that takes it only. */
  lemma PeerStays(cfg: Config, s: State, step: Step, side: Side)
    requires Enabled(cfg, s, step) && (step.Deliver? || side != step.side)
    ensures End(ApplyConn(cfg, s, step), side).qp == End(s.conns[step.i], side).qp
  {
    hide EncodeQp, DecodeHeader, NumFree;
  }

  lemma OwnOrder(cfg: Config, s: State, step: Step)
    requires Enabled(cfg, s, step) && !step.Deliver? && EndOk(cfg.plans[step.i], s.conns[step.i], step.side)
    ensures Follows(End(s.conns[step.i], step.side).qp, End(ApplyConn(cfg, s, step), step.side).qp)
  {
    hide EncodeQp, DecodeHeader, NumFree, Available;
  }

  lemma OwnStable(cfg: Config, s: State, step: Step)
    requires Enabled(cfg, s, step) && !step.Deliver? && EndOk(cfg.plans[step.i], s.conns[step.i], step.side)
    ensures Stable(End(s.conns[step.i], step.side).qp, End(ApplyConn(cfg, s, step), step.side).qp)
  {
    hide EncodeQp, DecodeHeader, NumFree, Available;
  }

  /** No step of any connection makes a queue pair skip a state or go back. */
  lemma NoStateSkipped(cfg: Config, s: State, step: Step, i: nat, side: Side)
    requires Inv(cfg, s) && Enabled(cfg, s, step) && i < |s.conns|
    ensures var t := Apply(cfg, s, step);
            |t.conns| == |s.conns| && Follows(End(s.conns[i], side).qp, End(t.conns[i], side).qp)
            && Stable(End(s.conns[i], side).qp, End(t.conns[i], side).qp)
  {
    hide EndOk, FlowOk, NumsOk, NumFree, CanAdvance, CanBreak, ApplyConn;
    if i == step.i && side == step.side && !step.Deliver? {
      ConnAt(cfg, s, i, side);
      OwnOrder(cfg, s, step);
      OwnStable(cfg, s, step);
    } else if i == step.i {
      PeerStays(cfg, s, step, side);
    }
  }

  // ---------------------------------------------------------------- queue pairs nobody destroys

  /** On the device, not held by any object any more. */
  predicate Leaked(e: Endpoint) {
    e.qp.Some? && !e.qp.value.held && e.qp.value.state != Error
  }

  /** A queue pair is lost on the device exactly if one of its transitions failed. */
  lemma LeakedExactlyIf(cfg: Config, s: State, i: nat, side: Side)
    requires cfg.Valid() && Reachable(cfg, s) && i < |s.conns|
    ensures var e := End(s.conns[i], side);
            Leaked(e) <==> e.failed && Next(side, e.pc) in {ToInit, ToRtr, ToRts}
  {
    hide Reachable, EncodeQp, HeaderOf, NumsOk, FlowOk;
    ReachableInv(cfg, s);
    ConnAt(cfg, s, i, side);
  }

  lemma LeakedStep(cfg: Config, s: State, step: Step, i: nat, side: Side)
    requires Inv(cfg, s) && Enabled(cfg, s, step) && i < |s.conns| && Leaked(End(s.conns[i], side))
    ensures var t := Apply(cfg, s, step); i < |t.conns| && Leaked(End(t.conns[i], side))
  {
    hide EncodeQp, DecodeHeader, FlowOk, NumsOk, NumFree;
    ConnAt(cfg, s, i, side);
  }

  lemma {:induction false} LeakedForever(cfg: Config, s: State, run: seq<Step>, t: State, i: nat, side: Side)
    requires Inv(cfg, s) && Run(cfg, s, run, t) && i < |s.conns| && Leaked(End(s.conns[i], side))
    ensures i < |t.conns| && Leaked(End(t.conns[i], side))
    decreases |run|
  {
    hide Inv, Enabled, Apply, Leaked;
    if run != [] {
      LeakedStep(cfg, s, run[0], i, side);
      StepInv(cfg, s, run[0]);
      LeakedForever(cfg, Apply(cfg, s, run[0]), run[1..], t, i, side);
    }
  }

  function Start(cfg: Config): State {
    State(seq(|cfg.plans|, _ => Conn(Idle(), Idle(), Pipe([], 0, 0), Pipe([], 0, 0))), seq(|cfg.hosts|, _ => 1))
  }

  /** The first queue pair of a run is made. */
  lemma MadeFirst(cfg: Config, i: nat)
    requires cfg.Valid() && i < |cfg.plans|
    ensures Initial(cfg, Start(cfg)) && Enabled(cfg, Start(cfg), Advance(i, Connector, 0))
  {
    var s := Start(cfg);
    assert s.conns[i].connector == Idle();
    assert forall j: nat, side: Side :: j < |s.conns| ==> !Exists(s.conns[j], side);
    assert NumFree(cfg, s, cfg.plans[i].connector, 0);
  }

  /**
   * Every connection can lose its connector's queue pair: its first transition fails, and it is then
   * on the device without a holder in every continuation.
   */
  lemma FailedTransitionLeaks(cfg: Config, i: nat) returns (s: State)
    requires cfg.Valid() && i < |cfg.plans|
    ensures Reachable(cfg, s) && i < |s.conns| && Leaked(s.conns[i].connector)
    ensures forall run, t :: Run(cfg, s, run, t) ==> i < |t.conns| && Leaked(t.conns[i].connector)
  {
    hide Inv, NumFree, CanAdvance;
    var a, make, fail := Start(cfg), Advance(i, Connector, 0), Fail(i, Connector);
    MadeFirst(cfg, i);
    var b := Apply(cfg, a, make);
    assert b.conns[i].connector.pc == 1 && b.conns[i].connector.qp == Some(Made(0, 1, cfg.plans[i].userData));
    s := Apply(cfg, b, fail);
    assert Run(cfg, a, [make, fail], s) by {
      assert [make, fail][1..] == [fail] && [fail][1..] == [];
      assert Run(cfg, s, [], s);
      assert Run(cfg, b, [fail], s);
    }
    ReachableInv(cfg, s);
    forall run, t | Run(cfg, s, run, t)
      ensures i < |t.conns| && Leaked(t.conns[i].connector)
    {
      LeakedForever(cfg, s, run, t, i, Connector);
    }
  }

  // ---------------------------------------------------------------- handshakes end

  /** Neither a failure nor an end of a connection. */
  predicate Regular(step: Step) {
    step.Advance? || step.Deliver?
  }

  predicate AllAlive(s: State) {
    forall i: nat, side: Side :: i < |s.conns| ==> Alive(End(s.conns[i], side))
  }

  /** Devices never run out of numbers. */
  ghost predicate NumbersLeft(cfg: Config, s: State) {
    forall h: nat :: h < |cfg.hosts| ==> HasNumber(cfg, s, h)
  }

  ghost predicate HasNumber(cfg: Config, s: State, h: nat) {
    exists num: nat :: num < Pow256(4) && NumFree(cfg, s, h, num)
  }

  /** A side that is waiting for bytes: its peer has sent them all, or is not waiting itself. */
  lemma SideMoves(cfg: Config, s: State, i: nat, side: Side) returns (step: Step)
    requires Inv(cfg, s) && AllAlive(s) && NumbersLeft(cfg, s) && i < |s.conns|
    requires End(s.conns[i], side).pc < LAST
    requires Next(side, End(s.conns[i], side).pc) in {ReadHeader, ReadBody} ==> Did(s.conns[i], Other(side), Send)
    ensures Enabled(cfg, s, step) && Regular(step)
  {
    hide NumsOk, NumFree, FlowOk, DecodeHeader;
    ConnAt(cfg, s, i, side);
    var c := s.conns[i];
    PipeAt(cfg.hosts[HostIndex(cfg.plans[i], Other(side))], cfg.plans[i], c, Other(side));
    assert Alive(End(c, side));
    var a := Next(side, End(c, side).pc);
    if a == Create {
      var h := HostIndex(cfg.plans[i], side);
      assert HasNumber(cfg, s, h);
      var num: nat :| num < Pow256(4) && NumFree(cfg, s, h, num);
      step := Advance(i, side, num);
    } else if a == ReadHeader || a == ReadBody {
      step := ReaderMoves(cfg, s, i, side);
    } else {
      step := Advance(i, side, 0);
    }
  }

  lemma PipeAt(host: Host, plan: Plan, c: Conn, side: Side)
    requires FlowOk(host, plan, c, side)
    ensures PipeOk(From(c, side))
  {
  }

  /** When all of the peer's message has arrived, the rest of it is as long as the next read wants. */
  lemma EnoughArrived(host: Host, plan: Plan, c: Conn, side: Side)
    requires FlowOk(host, plan, c, side) && Did(c, side, Send) && From(c, side).arrived == |From(c, side).sent|
    requires |host.gid| == GID_SIZE
    ensures !Did(c, Other(side), ReadHeader) ==> |Available(From(c, side))| >= HEADER_SIZE
    ensures Did(c, Other(side), ReadHeader) && !Did(c, Other(side), ReadBody) ==>
              var h := End(c, Other(side)).header; h.Some? && |Available(From(c, side))| >= h.value.userDataSize
  {
    hide EncodeQp, HeaderOf;
    MessageLength(Message(host, plan, c, side));
  }

  lemma ReaderMoves(cfg: Config, s: State, i: nat, side: Side) returns (step: Step)
    requires Inv(cfg, s) && AllAlive(s) && i < |s.conns|
    requires End(s.conns[i], side).pc < LAST && Next(side, End(s.conns[i], side).pc) in {ReadHeader, ReadBody}
    requires Did(s.conns[i], Other(side), Send)
    ensures Enabled(cfg, s, step) && Regular(step)
  {
    hide NumsOk, NumFree, EncodeQp, DecodeHeader, FlowOk, EndOk;
    ConnAt(cfg, s, i, side);
    var c, host := s.conns[i], cfg.hosts[HostIndex(cfg.plans[i], Other(side))];
    assert Alive(End(c, side));
    var p := From(c, Other(side));
    PipeAt(host, cfg.plans[i], c, Other(side));
    if p.arrived < |p.sent| {
      step := Deliver(i, Other(side), 1);
    } else {
      EnoughArrived(host, cfg.plans[i], c, Other(side));
      step := Advance(i, side, 0);
    }
  }

  lemma MessageLength(q: QpInfo)
    requires |q.gid| == GID_SIZE
    ensures |EncodeQp(q)| == HEADER_SIZE + |q.userData| && HeaderOf(q).userDataSize <= |q.userData|
  {
  }

  /** As long as no side has failed, some side of every unfinished connection can go on. */
  lemma NeverStuck(cfg: Config, s: State, i: nat) returns (step: Step)
    requires cfg.Valid() && Reachable(cfg, s) && AllAlive(s) && NumbersLeft(cfg, s) && i < |s.conns|
    requires s.conns[i].connector.pc < LAST || s.conns[i].acceptor.pc < LAST
    ensures Enabled(cfg, s, step) && Regular(step)
  {
    hide Reachable, AllAlive, NumbersLeft, EncodeQp, HeaderOf, NumsOk;
    ReachableInv(cfg, s);
    ConnAt(cfg, s, i, Connector);
    var c := s.conns[i];
    if c.connector.pc < LAST
      && (!(Next(Connector, c.connector.pc) in {ReadHeader, ReadBody}) || Did(c, Acceptor, Send)) {
      step := SideMoves(cfg, s, i, Connector);
    } else {
      step := SideMoves(cfg, s, i, Acceptor);
    }
  }

  /** How many actions and bytes a connection still has before it. */
  function Left(plan: Plan, c: Conn): int {
    (LAST - c.connector.pc) + (LAST - c.acceptor.pc)
    + (HEADER_SIZE + |plan.userData| - c.fromConnector.arrived)
    + (HEADER_SIZE + |plan.userData| - c.fromAcceptor.arrived)
  }

  function LeftOf(plans: seq<Plan>, conns: seq<Conn>): int
    requires |plans| == |conns|
  {
    if conns == [] then 0 else Left(plans[0], conns[0]) + LeftOf(plans[1..], conns[1..])
  }

  lemma {:induction false} LeftUpdate(plans: seq<Plan>, conns: seq<Conn>, i: nat, c: Conn)
    requires |plans| == |conns| && i < |conns|
    ensures LeftOf(plans, conns[i := c]) == LeftOf(plans, conns) - Left(plans[i], conns[i]) + Left(plans[i], c)
    decreases |conns|
  {
    hide Left;
    if i == 0 {
      assert conns[i := c][1..] == conns[1..];
    } else {
      assert conns[i := c][1..] == conns[1..][i - 1 := c];
      LeftUpdate(plans[1..], conns[1..], i - 1, c);
    }
  }

  lemma LeftStep(cfg: Config, s: State, step: Step)
    requires Inv(cfg, s) && Enabled(cfg, s, step) && Regular(step)
    ensures var t := Apply(cfg, s, step);
            && |t.conns| == |cfg.plans|
            && LeftOf(cfg.plans, t.conns) < LeftOf(cfg.plans, s.conns)
  {
    hide Inv, NumFree, LeftOf, EncodeQp, DecodeHeader;
    assert Left(cfg.plans[step.i], ApplyConn(cfg, s, step)) < Left(cfg.plans[step.i], s.conns[step.i]);
    LeftUpdate(cfg.plans, s.conns, step.i, ApplyConn(cfg, s, step));
  }

  lemma LeftAt(cfg: Config, s: State, i: nat)
    requires Inv(cfg, s) && i < |s.conns|
    ensures Left(cfg.plans[i], s.conns[i]) >= 0
  {
    hide NumsOk, EncodeQp, HeaderOf;
    ConnAt(cfg, s, i, Connector);
    var c, plan := s.conns[i], cfg.plans[i];
    if c.fromConnector.sent != [] {
      MessageLength(Message(cfg.hosts[plan.connector], plan, c, Connector));
    }
    if c.fromAcceptor.sent != [] {
      MessageLength(Message(cfg.hosts[plan.acceptor], plan, c, Acceptor));
      SameUserData(cfg, s, i, Acceptor);
    }
  }

  lemma {:induction false} LeftNonNegative(plans: seq<Plan>, conns: seq<Conn>)
    requires |plans| == |conns| && forall i :: 0 <= i < |conns| ==> Left(plans[i], conns[i]) >= 0
    ensures LeftOf(plans, conns) >= 0
    decreases |conns|
  {
    hide Left;
    if conns != [] {
      LeftNonNegative(plans[1..], conns[1..]);
    }
  }

  predicate AllRegular(run: seq<Step>) {
    forall k :: 0 <= k < |run| ==> Regular(run[k])
  }

  /** No run without failures is longer than the actions and bytes left at its start. */
  lemma {:induction false} RunsAreBounded(cfg: Config, s: State, run: seq<Step>, t: State)
    requires Inv(cfg, s) && Run(cfg, s, run, t) && AllRegular(run)
    ensures |s.conns| == |t.conns| == |cfg.plans| && |run| <= LeftOf(cfg.plans, s.conns)
    decreases |run|
  {
    hide Enabled, Apply, ConnOk, LeftOf, Left, NumsOk;
    if run == [] {
      forall i | 0 <= i < |s.conns|
        ensures Left(cfg.plans[i], s.conns[i]) >= 0
      {
        LeftAt(cfg, s, i);
      }
      LeftNonNegative(cfg.plans, s.conns);
    } else {
      assert Regular(run[0]);
      LeftStep(cfg, s, run[0]);
      StepInv(cfg, s, run[0]);
      RunsAreBounded(cfg, Apply(cfg, s, run[0]), run[1..], t);
    }
  }

  /**
   * Where a run without failures cannot go on, every connection is made: both queue pairs are ready
   * to send and agree.
   */
  lemma AllConnectInTheEnd(cfg: Config, s: State, i: nat)
    requires cfg.Valid() && Reachable(cfg, s) && AllAlive(s) && NumbersLeft(cfg, s) && i < |s.conns|
    requires forall step :: Enabled(cfg, s, step) ==> !Regular(step)
    ensures s.conns[i].connector.qp.Some? && s.conns[i].connector.qp.value.state == Rts
    ensures s.conns[i].acceptor.qp.Some? && s.conns[i].acceptor.qp.value.state == Rts
  {
    hide Reachable, AllAlive, NumbersLeft, Enabled, EncodeQp, HeaderOf, NumsOk, FlowOk;
    if s.conns[i].connector.pc < LAST || s.conns[i].acceptor.pc < LAST {
      var step := NeverStuck(cfg, s, i);
    } else {
      ReachableInv(cfg, s);
      BothAlive(s, i);
      ConnAt(cfg, s, i, Connector);
    }
  }

  lemma BothAlive(s: State, i: nat)
    requires AllAlive(s) && i < |s.conns|
    ensures Alive(s.conns[i].connector) && Alive(s.conns[i].acceptor)
  {
    assert Alive(End(s.conns[i], Connector)) && Alive(End(s.conns[i], Acceptor));
  }
}
