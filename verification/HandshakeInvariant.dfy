/** Every step of a connection keeps its invariant. */
module HandshakeInvariant {
  import opened Bytes
  import opened Options
  import opened QpCodec
  import opened Handshake

  // ---------------------------------------------------------------- reading what was written

  lemma HeaderArrives(m: QpInfo, p: Pipe)
    requires m.Valid() && PipeOk(p) && p.read == 0 && p.sent <= EncodeQp(m) && |Available(p)| >= HEADER_SIZE
    ensures DecodeHeader(Available(p)[..HEADER_SIZE]) == HeaderOf(m) && p.sent != []
  {
    HeaderOfValid(m);
    DecodeEncodeHeader(HeaderOf(m));
    assert Available(p)[..HEADER_SIZE] == EncodeQp(m)[..HEADER_SIZE] == EncodeHeader(HeaderOf(m));
  }

  lemma BodyArrives(m: QpInfo, p: Pipe)
    requires m.Valid() && PipeOk(p) && p.read == HEADER_SIZE && p.sent <= EncodeQp(m)
    requires |Available(p)| >= HeaderOf(m).userDataSize
    ensures Available(p)[..HeaderOf(m).userDataSize] == Cut(m.userData)
  {
    var n := HeaderOf(m).userDataSize;
    assert Available(p)[..n] == EncodeQp(m)[HEADER_SIZE..HEADER_SIZE + n] == m.userData[..n];
  }

  lemma MessageValid(host: Host, plan: Plan, c: Conn, side: Side)
    requires host.lid < Pow256(2) && |host.gid| == GID_SIZE && EndOk(plan, c, side) && End(c, side).qp.Some?
    ensures Message(host, plan, c, side).Valid()
  {
  }

  // ---------------------------------------------------------------- one action

  predicate HostOk(host: Host) {
    host.lid < Pow256(2) && |host.gid| == GID_SIZE
  }

  /** The invariant, with the host of the side that moves and the host of its peer. */
  predicate PairOk(me: Host, peer: Host, plan: Plan, c: Conn, side: Side) {
    EndOk(plan, c, side) && EndOk(plan, c, Other(side)) && FlowOk(me, plan, c, side)
      && FlowOk(peer, plan, c, Other(side))
  }

  lemma MakeOkEnds(me: Host, peer: Host, plan: Plan, c: Conn, side: Side, num: nat, psn: nat)
    requires PairOk(me, peer, plan, c, side) && CanAdvance(c, side) && num < Pow256(4) && psn < Pow256(4)
    requires var a := Next(side, End(c, side).pc); a == Create || a == ToInit
    ensures var d := DoAdvance(me, plan, c, side, num, psn); EndOk(plan, d, side) && EndOk(plan, d, Other(side))
  {
    hide EncodeQp, HeaderOf, DecodeHeader, Pow256, Cut, FlowOk;
  }

  lemma ConnectOkEnds(me: Host, peer: Host, plan: Plan, c: Conn, side: Side, num: nat, psn: nat)
    requires PairOk(me, peer, plan, c, side) && CanAdvance(c, side) && num < Pow256(4) && psn < Pow256(4)
    requires var a := Next(side, End(c, side).pc); a == ToRtr || a == Store || a == ToRts
    ensures var d := DoAdvance(me, plan, c, side, num, psn); EndOk(plan, d, side) && EndOk(plan, d, Other(side))
  {
    hide EncodeQp, HeaderOf, DecodeHeader, Pow256, Cut, FlowOk;
  }

  lemma QpActionOkEnds(me: Host, peer: Host, plan: Plan, c: Conn, side: Side, num: nat, psn: nat)
    requires PairOk(me, peer, plan, c, side) && CanAdvance(c, side) && num < Pow256(4) && psn < Pow256(4)
    requires var a := Next(side, End(c, side).pc); DeviceAction(a) || a == Store
    ensures var d := DoAdvance(me, plan, c, side, num, psn); EndOk(plan, d, side) && EndOk(plan, d, Other(side))
  {
    hide EndOk, FlowOk, DoAdvance;
    if Next(side, End(c, side).pc) == Create || Next(side, End(c, side).pc) == ToInit {
      MakeOkEnds(me, peer, plan, c, side, num, psn);
    } else {
      ConnectOkEnds(me, peer, plan, c, side, num, psn);
    }
  }

  lemma QpActionOkMine(me: Host, peer: Host, plan: Plan, c: Conn, side: Side, num: nat, psn: nat)
    requires PairOk(me, peer, plan, c, side) && CanAdvance(c, side) && num < Pow256(4) && psn < Pow256(4)
    requires var a := Next(side, End(c, side).pc); DeviceAction(a) || a == Store
    ensures FlowOk(me, plan, DoAdvance(me, plan, c, side, num, psn), side)
  {
    hide EncodeQp, HeaderOf, DecodeHeader, Pow256, Cut;
  }

  lemma QpActionOkTheirs(me: Host, peer: Host, plan: Plan, c: Conn, side: Side, num: nat, psn: nat)
    requires PairOk(me, peer, plan, c, side) && CanAdvance(c, side) && num < Pow256(4) && psn < Pow256(4)
    requires var a := Next(side, End(c, side).pc); DeviceAction(a) || a == Store
    ensures FlowOk(peer, plan, DoAdvance(me, plan, c, side, num, psn), Other(side))
  {
    hide EncodeQp, HeaderOf, DecodeHeader, Pow256, Cut;
  }

  lemma QpActionOk(me: Host, peer: Host, plan: Plan, c: Conn, side: Side, num: nat, psn: nat)
    requires PairOk(me, peer, plan, c, side) && CanAdvance(c, side) && num < Pow256(4) && psn < Pow256(4)
    requires var a := Next(side, End(c, side).pc); DeviceAction(a) || a == Store
    ensures PairOk(me, peer, plan, DoAdvance(me, plan, c, side, num, psn), side)
  {
    hide EndOk, FlowOk;
    QpActionOkEnds(me, peer, plan, c, side, num, psn);
    QpActionOkMine(me, peer, plan, c, side, num, psn);
    QpActionOkTheirs(me, peer, plan, c, side, num, psn);
  }

  lemma SendOk(me: Host, peer: Host, plan: Plan, c: Conn, side: Side, num: nat, psn: nat)
    requires PairOk(me, peer, plan, c, side) && CanAdvance(c, side) && Next(side, End(c, side).pc) == Send
    ensures PairOk(me, peer, plan, DoAdvance(me, plan, c, side, num, psn), side)
  {
    hide EncodeQp, HeaderOf, DecodeHeader, Pow256, Cut;
  }

  lemma ReadHeaderOk(me: Host, peer: Host, plan: Plan, c: Conn, side: Side, num: nat, psn: nat)
    requires PairOk(me, peer, plan, c, side) && CanAdvance(c, side) && Next(side, End(c, side).pc) == ReadHeader
    requires HostOk(peer)
    ensures PairOk(me, peer, plan, DoAdvance(me, plan, c, side, num, psn), side)
  {
    hide EncodeQp, HeaderOf, DecodeHeader, Pow256, Cut;
    MessageValid(peer, plan, c, Other(side));
    HeaderArrives(Message(peer, plan, c, Other(side)), From(c, Other(side)));
  }

  lemma ReadBodyOk(me: Host, peer: Host, plan: Plan, c: Conn, side: Side, num: nat, psn: nat)
    requires PairOk(me, peer, plan, c, side) && CanAdvance(c, side) && Next(side, End(c, side).pc) == ReadBody
    requires HostOk(peer)
    ensures PairOk(me, peer, plan, DoAdvance(me, plan, c, side, num, psn), side)
  {
    hide EncodeQp, DecodeHeader, Pow256, Cut;
    MessageValid(peer, plan, c, Other(side));
    BodyArrives(Message(peer, plan, c, Other(side)), From(c, Other(side)));
  }

  lemma FailOkEnds(me: Host, peer: Host, plan: Plan, c: Conn, side: Side)
    requires PairOk(me, peer, plan, c, side) && Alive(End(c, side)) && DeviceAction(Next(side, End(c, side).pc))
    ensures var d := DoFail(c, side); EndOk(plan, d, side) && EndOk(plan, d, Other(side))
  {
    hide EncodeQp, HeaderOf, DecodeHeader, Pow256, Cut, FlowOk;
  }

  lemma FailOkMine(me: Host, peer: Host, plan: Plan, c: Conn, side: Side)
    requires PairOk(me, peer, plan, c, side) && Alive(End(c, side)) && DeviceAction(Next(side, End(c, side).pc))
    ensures FlowOk(me, plan, DoFail(c, side), side)
  {
    hide EncodeQp, HeaderOf, DecodeHeader, Pow256, Cut;
  }

  lemma FailOkTheirs(me: Host, peer: Host, plan: Plan, c: Conn, side: Side)
    requires PairOk(me, peer, plan, c, side) && Alive(End(c, side)) && DeviceAction(Next(side, End(c, side).pc))
    ensures FlowOk(peer, plan, DoFail(c, side), Other(side))
  {
    hide EncodeQp, HeaderOf, DecodeHeader, Pow256, Cut;
  }

  lemma FailOk(me: Host, peer: Host, plan: Plan, c: Conn, side: Side)
    requires PairOk(me, peer, plan, c, side) && Alive(End(c, side)) && DeviceAction(Next(side, End(c, side).pc))
    ensures PairOk(me, peer, plan, DoFail(c, side), side)
  {
    hide EndOk, FlowOk;
    FailOkEnds(me, peer, plan, c, side);
    FailOkMine(me, peer, plan, c, side);
    FailOkTheirs(me, peer, plan, c, side);
  }

  lemma BreakOkEnds(me: Host, peer: Host, plan: Plan, c: Conn, side: Side, n: nat)
    requires PairOk(me, peer, plan, c, side) && CanBreak(me, c, side, n)
    ensures var d := DoBreak(me, c, side, n); EndOk(plan, d, side) && EndOk(plan, d, Other(side))
  {
    hide EncodeQp, HeaderOf, DecodeHeader, Pow256, Cut, FlowOk;
  }

  lemma BreakOkMine(me: Host, peer: Host, plan: Plan, c: Conn, side: Side, n: nat)
    requires PairOk(me, peer, plan, c, side) && CanBreak(me, c, side, n)
    ensures FlowOk(me, plan, DoBreak(me, c, side, n), side)
  {
    hide EncodeQp, HeaderOf, DecodeHeader, Pow256, Cut;
  }

  lemma BreakOkTheirs(me: Host, peer: Host, plan: Plan, c: Conn, side: Side, n: nat)
    requires PairOk(me, peer, plan, c, side) && CanBreak(me, c, side, n)
    ensures FlowOk(peer, plan, DoBreak(me, c, side, n), Other(side))
  {
    hide EncodeQp, HeaderOf, DecodeHeader, Pow256, Cut;
  }

  lemma BreakOk(me: Host, peer: Host, plan: Plan, c: Conn, side: Side, n: nat)
    requires PairOk(me, peer, plan, c, side) && CanBreak(me, c, side, n)
    ensures PairOk(me, peer, plan, DoBreak(me, c, side, n), side)
  {
    hide EndOk, FlowOk;
    BreakOkEnds(me, peer, plan, c, side, n);
    BreakOkMine(me, peer, plan, c, side, n);
    BreakOkTheirs(me, peer, plan, c, side, n);
  }

  lemma DeliverOk(me: Host, peer: Host, plan: Plan, c: Conn, side: Side, n: nat)
    requires PairOk(me, peer, plan, c, side) && n <= |From(c, side).sent| - From(c, side).arrived
    ensures PairOk(me, peer, plan, SetFrom(c, side, From(c, side).(arrived := From(c, side).arrived + n)), side)
  {
    hide EncodeQp, HeaderOf, DecodeHeader, Pow256, Cut;
  }

  lemma CloseOk(me: Host, peer: Host, plan: Plan, c: Conn, side: Side)
    requires PairOk(me, peer, plan, c, side) && Alive(End(c, side)) && End(c, side).pc == LAST
    ensures PairOk(me, peer, plan, SetEnd(c, side, End(c, side).(closed := true, qp := Destroyed(End(c, side).qp))),
                   side)
  {
    hide EncodeQp, HeaderOf, DecodeHeader, Pow256, Cut;
  }

  // ---------------------------------------------------------------- all connections

  /** No two queue pairs on a device have the same number. */
  predicate NumsOk(cfg: Config, s: State) {
    |s.conns| == |cfg.plans| &&
    forall i: nat, j: nat, x: Side, y: Side ::
      i < |s.conns| && j < |s.conns| && SameDevice(cfg, s, i, x, j, y) ==> i == j && x == y
  }

  /** Two queue pairs on one device with one number. */
  predicate SameDevice(cfg: Config, s: State, i: nat, x: Side, j: nat, y: Side)
    requires i < |s.conns| == |cfg.plans| && j < |s.conns|
  {
    && Exists(s.conns[i], x) && Exists(s.conns[j], y)
    && HostIndex(cfg.plans[i], x) == HostIndex(cfg.plans[j], y)
    && End(s.conns[i], x).qp.value.num == End(s.conns[j], y).qp.value.num
  }

  predicate Inv(cfg: Config, s: State) {
    && cfg.Valid() && |s.conns| == |cfg.plans| && |s.psn| == |cfg.hosts|
    && (forall h :: 0 <= h < |s.psn| ==> s.psn[h] < TWO_32)
    && (forall i: nat :: i < |s.conns| ==> ConnOk(cfg, i, s.conns[i]))
    && NumsOk(cfg, s)
  }

  lemma ConnAt(cfg: Config, s: State, i: nat, side: Side)
    requires Inv(cfg, s) && i < |s.conns|
    ensures var plan := cfg.plans[i];
            var g, h := HostIndex(plan, side), HostIndex(plan, Other(side));
            g < |cfg.hosts| && h < |cfg.hosts| && HostOk(cfg.hosts[g]) && HostOk(cfg.hosts[h])
            && PairOk(cfg.hosts[g], cfg.hosts[h], plan, s.conns[i], side)
  {
    hide EndOk, FlowOk, NumsOk;
    assert ConnOk(cfg, i, s.conns[i]);
  }

  lemma ConnOkFrom(cfg: Config, i: nat, c: Conn, side: Side)
    requires cfg.Valid() && i < |cfg.plans|
    requires PairOk(cfg.hosts[HostIndex(cfg.plans[i], side)], cfg.hosts[HostIndex(cfg.plans[i], Other(side))],
                    cfg.plans[i], c, side)
    ensures ConnOk(cfg, i, c)
  {
    hide EndOk, FlowOk;
  }

  lemma ConnStep(cfg: Config, s: State, step: Step)
    requires Inv(cfg, s) && Enabled(cfg, s, step)
    ensures ConnOk(cfg, step.i, ApplyConn(cfg, s, step))
  {
    hide EndOk, FlowOk, NumsOk, ConnOk, DoAdvance, DoFail, DoBreak, Destroyed, CanAdvance, CanBreak, PairOk, NumFree;
    ConnAt(cfg, s, step.i, step.side);
    var i, side := step.i, step.side;
    var plan, c := cfg.plans[i], s.conns[i];
    var g, h := HostIndex(plan, side), HostIndex(plan, Other(side));
    var me, peer := cfg.hosts[g], cfg.hosts[h];
    match step {
      case Advance(_, _, num) =>
        Pow256Values();
        AdvanceOk(me, peer, plan, c, side, num, s.psn[g]);
      case Fail(_, _) => FailOk(me, peer, plan, c, side);
      case Break(_, _, n) => BreakOk(me, peer, plan, c, side, n);
      case Deliver(_, _, n) => DeliverOk(me, peer, plan, c, side, n);
      case Close(_, _) => CloseOk(me, peer, plan, c, side);
    }
    ConnOkFrom(cfg, i, ApplyConn(cfg, s, step), side);
  }

  lemma AdvanceOk(me: Host, peer: Host, plan: Plan, c: Conn, side: Side, num: nat, psn: nat)
    requires PairOk(me, peer, plan, c, side) && CanAdvance(c, side) && HostOk(peer) && psn < Pow256(4)
    requires Next(side, End(c, side).pc) == Create ==> num < Pow256(4)
    ensures PairOk(me, peer, plan, DoAdvance(me, plan, c, side, num, psn), side)
  {
    hide EndOk, FlowOk, PairOk;
    match Next(side, End(c, side).pc) {
      case Send => SendOk(me, peer, plan, c, side, num, psn);
      case ReadHeader => ReadHeaderOk(me, peer, plan, c, side, num, psn);
      case ReadBody => ReadBodyOk(me, peer, plan, c, side, num, psn);
      case Create => QpActionOk(me, peer, plan, c, side, num, psn);
      case Return => assert End(c, side).pc < LAST; IsLast(side, End(c, side).pc);
      case _ =>
        NumIgnored(me, plan, c, side, num, psn);
        ZeroFits();
        QpActionOk(me, peer, plan, c, side, 0, psn);
    }
  }

  lemma ZeroFits()
    ensures 0 < Pow256(4)
  {
  }

  lemma IsLast(side: Side, pc: nat)
    ensures Next(side, pc) == Return <==> pc >= LAST
  {
  }

  lemma NumIgnored(host: Host, plan: Plan, c: Conn, side: Side, num: nat, psn: nat)
    requires CanAdvance(c, side) && Next(side, End(c, side).pc) != Create
    ensures DoAdvance(host, plan, c, side, num, psn) == DoAdvance(host, plan, c, side, 0, psn)
  {
    hide EncodeQp, DecodeHeader;
  }

  /** A step brings no queue pair back and changes no number, except for the one that it makes. */
  lemma QpStays(cfg: Config, s: State, step: Step, side: Side)
    requires Inv(cfg, s) && Enabled(cfg, s, step)
    ensures var c, d := s.conns[step.i], ApplyConn(cfg, s, step);
            (Exists(d, side) && !(Creates(s, step) && side == step.side)) ==>
              Exists(c, side) && End(c, side).qp.value.num == End(d, side).qp.value.num
    ensures Creates(s, step) ==>
              Exists(ApplyConn(cfg, s, step), step.side)
                && End(ApplyConn(cfg, s, step), step.side).qp.value.num == step.num
  {
    hide Inv, EndOk, FlowOk, ApplyConn, CanAdvance, CanBreak, NumFree;
    ConnAt(cfg, s, step.i, step.side);
    if step.Advance? {
      AdvanceStays(cfg, s, step, side);
    } else {
      OtherStays(cfg, s, step, side);
    }
  }

  lemma AdvanceStays(cfg: Config, s: State, step: Step, side: Side)
    requires Enabled(cfg, s, step) && step.Advance? && EndOk(cfg.plans[step.i], s.conns[step.i], step.side)
    ensures var c, d := s.conns[step.i], ApplyConn(cfg, s, step);
            (Exists(d, side) && !(Creates(s, step) && side == step.side)) ==>
              Exists(c, side) && End(c, side).qp.value.num == End(d, side).qp.value.num
    ensures Creates(s, step) ==>
              Exists(ApplyConn(cfg, s, step), step.side)
                && End(ApplyConn(cfg, s, step), step.side).qp.value.num == step.num
  {
    hide EncodeQp, DecodeHeader, NumFree, Available;
  }

  lemma OtherStays(cfg: Config, s: State, step: Step, side: Side)
    requires Enabled(cfg, s, step) && !step.Advance?
    ensures var c, d := s.conns[step.i], ApplyConn(cfg, s, step);
            Exists(d, side) ==> Exists(c, side) && End(c, side).qp.value.num == End(d, side).qp.value.num
  {
    hide EncodeQp, NumFree, CanAdvance;
  }

  lemma NumsStep(cfg: Config, s: State, step: Step)
    requires Inv(cfg, s) && Enabled(cfg, s, step)
    ensures NumsOk(cfg, Apply(cfg, s, step))
  {
    hide ConnOk, ApplyConn, Exists, End, CanAdvance, CanBreak;
    var t := Apply(cfg, s, step);
    QpStays(cfg, s, step, Connector);
    QpStays(cfg, s, step, Acceptor);
    forall i: nat, j: nat, x: Side, y: Side | i < |t.conns| && j < |t.conns| && SameDevice(cfg, t, i, x, j, y)
      ensures i == j && x == y
    {
      if !(Creates(s, step) && ((i == step.i && x == step.side) || (j == step.i && y == step.side))) {
        assert SameDevice(cfg, s, i, x, j, y);
      }
    }
  }

  lemma StepInv(cfg: Config, s: State, step: Step)
    requires Inv(cfg, s) && Enabled(cfg, s, step)
    ensures Inv(cfg, Apply(cfg, s, step))
  {
    hide ConnOk, ApplyConn, NumsOk, CanAdvance, CanBreak, NumFree;
    ConnStep(cfg, s, step);
    NumsStep(cfg, s, step);
  }

  lemma InitialInv(cfg: Config, s: State)
    requires cfg.Valid() && Initial(cfg, s)
    ensures Inv(cfg, s)
  {
    hide EncodeQp, HeaderOf;
  }

  lemma {:induction false} RunInv(cfg: Config, s: State, run: seq<Step>, t: State)
    requires Inv(cfg, s) && Run(cfg, s, run, t)
    ensures Inv(cfg, t)
    decreases |run|
  {
    hide Inv, Enabled, Apply;
    if run != [] {
      StepInv(cfg, s, run[0]);
      RunInv(cfg, Apply(cfg, s, run[0]), run[1..], t);
    }
  }

  lemma ReachableInv(cfg: Config, t: State)
    requires cfg.Valid() && Reachable(cfg, t)
    ensures Inv(cfg, t)
  {
    hide Inv, Enabled, Apply;
    var s, run :| Initial(cfg, s) && Run(cfg, s, run, t);
    InitialInv(cfg, s);
    RunInv(cfg, s, run, t);
  }
}
