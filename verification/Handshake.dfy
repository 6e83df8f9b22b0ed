/**
 * Connecting queue pairs: any number of connections between hosts, each an interleaving of what a
 * connector and an acceptor do, over two byte streams whose bytes arrive in pieces of any size.
 */
module Handshake {
  import opened Bytes
  import opened Options
  import opened QpCodec

  datatype Side = Connector | Acceptor

  function Other(side: Side): Side {
    if side == Connector then Acceptor else Connector
  }

  /** What a side does, one after the other. */
  datatype Action = Create | ToInit | Send | ReadHeader | ReadBody | ToRtr | Store | ToRts | Return

  function Next(side: Side, pc: nat): Action {
    match side
    case Connector =>
      (match pc
       case 0 => Create
       case 1 => ToInit
       case 2 => Send
       case 3 => ReadHeader
       case 4 => ReadBody
       case 5 => ToRtr
       case 6 => Store
       case 7 => ToRts
       case _ => Return)
    case Acceptor =>
      (match pc
       case 0 => ReadHeader
       case 1 => ReadBody
       case 2 => Create
       case 3 => ToInit
       case 4 => ToRtr
       case 5 => ToRts
       case 6 => Store
       case 7 => Send
       case _ => Return)
  }

  const LAST: nat := 8

  /** The position of an action in a side's order. */
  function At(side: Side, a: Action): (pc: nat)
    ensures Next(side, pc) == a
  {
    match a
    case Create => if side == Connector then 0 else 2
    case ToInit => if side == Connector then 1 else 3
    case Send => if side == Connector then 2 else 7
    case ReadHeader => if side == Connector then 3 else 0
    case ReadBody => if side == Connector then 4 else 1
    case ToRtr => if side == Connector then 5 else 4
    case Store => 6
    case ToRts => if side == Connector then 7 else 5
    case Return => LAST
  }

  /** Queue pair states of section 10.3.1 of the InfiniBand Architecture Specification, Volume 1. */
  datatype QpState = Reset | Init | Rtr | Rts | Error

  /** A device's queue pair and the object that holds it, until it drops the handle. */
  datatype Qp = Qp(num: nat, sqPsn: nat, state: QpState, destNum: nat, rqPsn: nat, dlid: nat, dgid: seq<byte>,
                   userData: seq<byte>, held: bool)

  datatype Endpoint = Endpoint(pc: nat, failed: bool, closed: bool, qp: Option<Qp>, header: Option<Header>,
                               remote: Option<QpInfo>)

  /** One direction of a connection: what was written, how much of it has arrived, how much was read. */
  datatype Pipe = Pipe(sent: seq<byte>, arrived: nat, read: nat)

  datatype Conn = Conn(connector: Endpoint, acceptor: Endpoint, fromConnector: Pipe, fromAcceptor: Pipe)

  /** A process with its device. */
  datatype Host = Host(lid: nat, gid: seq<byte>)

  /** Which hosts a connection is between, and the user data of the connector's queue pair when made. */
  datatype Plan = Plan(connector: nat, acceptor: nat, userData: seq<byte>)

  datatype Config = Config(hosts: seq<Host>, plans: seq<Plan>) {
    predicate Valid() {
      && (forall h :: 0 <= h < |hosts| ==> hosts[h].lid < Pow256(2) && |hosts[h].gid| == GID_SIZE)
      && (forall g, h :: 0 <= g < h < |hosts| ==> hosts[g].gid != hosts[h].gid)
      && (forall i :: 0 <= i < |plans| ==> plans[i].connector < |hosts| && plans[i].acceptor < |hosts|)
    }
  }

  /** psn is each process's counter of starting sequence numbers. */
  datatype State = State(conns: seq<Conn>, psn: seq<nat>)

  datatype Step =
    | Advance(i: nat, side: Side, num: nat)
    | Fail(i: nat, side: Side)               // the device refuses a queue pair or a transition
    | Break(i: nat, side: Side, n: nat)      // the stream breaks, n bytes into a write
    | Deliver(i: nat, side: Side, n: nat)    // n more bytes that side wrote arrive
    | Close(i: nat, side: Side)              // the application drops a connected queue pair

  // ---------------------------------------------------------------- access by side

  function End(c: Conn, side: Side): Endpoint {
    if side == Connector then c.connector else c.acceptor
  }

  /** The direction that side writes. */
  function From(c: Conn, side: Side): Pipe {
    if side == Connector then c.fromConnector else c.fromAcceptor
  }

  function SetEnd(c: Conn, side: Side, e: Endpoint): Conn {
    if side == Connector then c.(connector := e) else c.(acceptor := e)
  }

  function SetFrom(c: Conn, side: Side, p: Pipe): Conn {
    if side == Connector then c.(fromConnector := p) else c.(fromAcceptor := p)
  }

  function HostIndex(plan: Plan, side: Side): nat {
    if side == Connector then plan.connector else plan.acceptor
  }

  function Available(p: Pipe): seq<byte>
    requires p.read <= p.arrived <= |p.sent|
  {
    p.sent[p.read..p.arrived]
  }

  // ---------------------------------------------------------------- steps of one connection

  function InfoOf(host: Host, qp: Qp): QpInfo {
    QpInfo(host.lid, qp.num, qp.sqPsn, host.gid, qp.userData)
  }

  predicate PipeOk(p: Pipe) {
    p.read <= p.arrived <= |p.sent|
  }

  predicate Alive(e: Endpoint) {
    !e.failed && !e.closed
  }

  predicate CanAdvance(c: Conn, side: Side) {
    var e, from := End(c, side), From(c, Other(side));
    && Alive(e) && e.pc < LAST && PipeOk(from)
    && match Next(side, e.pc)
       case ReadHeader => |Available(from)| >= HEADER_SIZE
       case ReadBody => e.header.Some? && |Available(from)| >= e.header.value.userDataSize
       case Create => true
       case Store => e.qp.Some? && e.remote.Some?
       case ToRtr => e.qp.Some? && e.remote.Some?
       case _ => e.qp.Some?
  }

  function Made(num: nat, psn: nat, userData: seq<byte>): Qp {
    Qp(num, psn, Reset, 0, 0, 0, [], userData, true)
  }

  function Connected(qp: Qp, remote: QpInfo): Qp {
    qp.(state := Rtr, destNum := remote.qpNum, rqPsn := remote.sqPsn, dlid := remote.lid, dgid := remote.gid)
  }

  /** One action of one side. The data for a connector's queue pair is there when it is made. */
  function DoAdvance(host: Host, plan: Plan, c: Conn, side: Side, num: nat, psn: nat): Conn
    requires CanAdvance(c, side)
  {
    var e, from := End(c, side), From(c, Other(side));
    var done := e.(pc := e.pc + 1);
    match Next(side, e.pc)
    case Create => SetEnd(c, side, done.(qp := Some(Made(num, psn, if side == Connector then plan.userData else []))))
    case ToInit => SetEnd(c, side, done.(qp := Some(e.qp.value.(state := Init))))
    case Send =>
      var p := From(c, side);
      SetFrom(SetEnd(c, side, done), side, p.(sent := p.sent + EncodeQp(InfoOf(host, e.qp.value))))
    case ReadHeader =>
      SetFrom(SetEnd(c, side, done.(header := Some(DecodeHeader(Available(from)[..HEADER_SIZE])))), Other(side),
              from.(read := from.read + HEADER_SIZE))
    case ReadBody =>
      var h := e.header.value;
      var remote := QpInfo(h.lid, h.qpNum, h.sqPsn, h.gid, Available(from)[..h.userDataSize]);
      SetFrom(SetEnd(c, side, done.(remote := Some(remote))), Other(side),
              from.(read := from.read + h.userDataSize))
    case ToRtr => SetEnd(c, side, done.(qp := Some(Connected(e.qp.value, e.remote.value))))
    case Store => SetEnd(c, side, done.(qp := Some(e.qp.value.(userData := e.remote.value.userData))))
    case ToRts => SetEnd(c, side, done.(qp := Some(e.qp.value.(state := Rts))))
    case Return => c
  }

  predicate DeviceAction(a: Action) {
    a.Create? || a.ToInit? || a.ToRtr? || a.ToRts?
  }

  /** A failed transition forgets the handle first, so what then destroys the queue pair finds none. */
  function DoFail(c: Conn, side: Side): Conn {
    var e := End(c, side);
    SetEnd(c, side, e.(failed := true, qp := match e.qp case None => None case Some(qp) => Some(qp.(held := false))))
  }

  /** The queue pair is set to the error state and destroyed. */
  function Destroyed(qp: Option<Qp>): Option<Qp> {
    match qp case None => None case Some(q) => if q.held then Some(q.(state := Error, held := false)) else qp
  }

  predicate StreamAction(a: Action) {
    a.Send? || a.ReadHeader? || a.ReadBody?
  }

  predicate CanBreak(host: Host, c: Conn, side: Side, n: nat) {
    var e := End(c, side);
    && Alive(e) && e.pc < LAST && StreamAction(Next(side, e.pc))
    && (Next(side, e.pc) == Send ==> e.qp.Some? && n <= |EncodeQp(InfoOf(host, e.qp.value))|)
  }

  function DoBreak(host: Host, c: Conn, side: Side, n: nat): Conn
    requires CanBreak(host, c, side, n)
  {
    var e, p := End(c, side), From(c, side);
    var d := SetEnd(c, side, e.(failed := true, qp := Destroyed(e.qp)));
    if Next(side, e.pc) != Send then d
    else SetFrom(d, side, p.(sent := p.sent + EncodeQp(InfoOf(host, e.qp.value))[..n]))
  }

  // ---------------------------------------------------------------- steps of all connections

  /** The device gives out no number that a queue pair not destroyed has. */
  predicate NumFree(cfg: Config, s: State, h: nat, num: nat) {
    forall j: nat, side: Side ::
      j < |s.conns| && j < |cfg.plans| && HostIndex(cfg.plans[j], side) == h && Exists(s.conns[j], side) ==>
        End(s.conns[j], side).qp.value.num != num
  }

  /** The side's queue pair is on the device. */
  predicate Exists(c: Conn, side: Side) {
    End(c, side).qp.Some? && End(c, side).qp.value.state != Error
  }

  predicate Enabled(cfg: Config, s: State, step: Step) {
    && step.i < |s.conns| == |cfg.plans|
    && var c := s.conns[step.i];
       var h := HostIndex(cfg.plans[step.i], step.side);
       && h < |cfg.hosts| == |s.psn|
       && match step
          case Advance(i, side, num) =>
            && CanAdvance(c, side)
            && (Next(side, End(c, side).pc) == Create ==> num < Pow256(4) && NumFree(cfg, s, h, num))
          case Fail(i, side) => Alive(End(c, side)) && DeviceAction(Next(side, End(c, side).pc))
          case Break(i, side, n) => CanBreak(cfg.hosts[h], c, side, n)
          case Deliver(i, side, n) => 0 < n <= |From(c, side).sent| - From(c, side).arrived
          case Close(i, side) => Alive(End(c, side)) && End(c, side).pc == LAST
  }

  /** What the step makes of its connection. */
  function ApplyConn(cfg: Config, s: State, step: Step): Conn
    requires Enabled(cfg, s, step)
  {
    var c := s.conns[step.i];
    var plan := cfg.plans[step.i];
    var h := HostIndex(plan, step.side);
    match step
    case Advance(i, side, num) => DoAdvance(cfg.hosts[h], plan, c, side, num, s.psn[h])
    case Fail(i, side) => DoFail(c, side)
    case Break(i, side, n) => DoBreak(cfg.hosts[h], c, side, n)
    case Deliver(i, side, n) => SetFrom(c, side, From(c, side).(arrived := From(c, side).arrived + n))
    case Close(i, side) => SetEnd(c, side, End(c, side).(closed := true, qp := Destroyed(End(c, side).qp)))
  }

  predicate Creates(s: State, step: Step)
    requires step.i < |s.conns|
  {
    step.Advance? && Next(step.side, End(s.conns[step.i], step.side).pc) == Create
  }

  function Apply(cfg: Config, s: State, step: Step): State
    requires Enabled(cfg, s, step)
  {
    var h := HostIndex(cfg.plans[step.i], step.side);
    State(s.conns[step.i := ApplyConn(cfg, s, step)],
          if Creates(s, step) then s.psn[h := (s.psn[h] + 1) % TWO_32] else s.psn)
  }

  predicate Initial(cfg: Config, s: State) {
    && |s.conns| == |cfg.plans| && |s.psn| == |cfg.hosts|
    && (forall h :: 0 <= h < |s.psn| ==> s.psn[h] == 1)
    && (forall i :: 0 <= i < |s.conns| ==> s.conns[i] == Conn(Idle(), Idle(), Pipe([], 0, 0), Pipe([], 0, 0)))
  }

  function Idle(): Endpoint {
    Endpoint(0, false, false, None, None, None)
  }

  predicate Run(cfg: Config, s: State, run: seq<Step>, t: State)
    decreases |run|
  {
    if run == [] then s == t else Enabled(cfg, s, run[0]) && Run(cfg, Apply(cfg, s, run[0]), run[1..], t)
  }

  ghost predicate Reachable(cfg: Config, t: State) {
    exists s, run :: Initial(cfg, s) && Run(cfg, s, run, t)
  }

  // ---------------------------------------------------------------- the invariant of one connection

  predicate Did(c: Conn, side: Side, a: Action) {
    End(c, side).pc > At(side, a)
  }

  /** The state that a side's actions have brought its queue pair to. */
  function StateOf(c: Conn, side: Side): QpState {
    if Did(c, side, ToRts) then Rts else if Did(c, side, ToRtr) then Rtr else if Did(c, side, ToInit) then Init
      else Reset
  }

  predicate EndOk(plan: Plan, c: Conn, side: Side) {
    var e := End(c, side);
    && e.pc <= LAST
    && (e.qp.Some? <==> Did(c, side, Create))
    && (e.header.Some? <==> Did(c, side, ReadHeader))
    && (e.remote.Some? <==> Did(c, side, ReadBody))
    && (e.closed ==> e.pc == LAST && !e.failed)
    && (e.failed ==> DeviceAction(Next(side, e.pc)) || StreamAction(Next(side, e.pc)))
    && (e.qp.Some? ==>
          var qp := e.qp.value;
          && qp.num < Pow256(4) && qp.sqPsn < Pow256(4)
          && qp.state == (if e.closed || (e.failed && StreamAction(Next(side, e.pc))) then Error else StateOf(c, side))
          && (qp.held <==> Alive(e))
          && (Did(c, side, ToRtr) ==>
                qp.destNum == e.remote.value.qpNum && qp.rqPsn == e.remote.value.sqPsn
                  && qp.dlid == e.remote.value.lid && qp.dgid == e.remote.value.gid)
          && (Did(c, side, Store) ==> qp.userData == e.remote.value.userData)
          && (!Did(c, side, Store) && side == Connector ==> qp.userData == plan.userData))
  }

  /** What a side writes, once its queue pair is made: as long as it has not, an acceptor's user data is open. */
  function Message(host: Host, plan: Plan, c: Conn, side: Side): QpInfo
    requires End(c, side).qp.Some?
  {
    var info := InfoOf(host, End(c, side).qp.value);
    if side == Connector then info.(userData := plan.userData) else info
  }

  function Cut(data: seq<byte>): seq<byte> {
    data[..|data| % TWO_32]
  }

  predicate FlowOk(host: Host, plan: Plan, c: Conn, side: Side) {
    var me, peer, p := End(c, side), End(c, Other(side)), From(c, side);
    && PipeOk(p)
    && (p.sent != [] ==> me.qp.Some? && me.pc >= At(side, Send) && p.sent <= EncodeQp(Message(host, plan, c, side)))
    && (me.pc <= At(side, Send) && Alive(me) ==> p.sent == [])
    && (Did(c, side, Send) ==> me.qp.Some? && p.sent == EncodeQp(Message(host, plan, c, side)))
    && (!Did(c, Other(side), ReadHeader) ==> p.read == 0)
    && (Did(c, Other(side), ReadHeader) ==>
          && p.sent != []
          && peer.header == Some(HeaderOf(Message(host, plan, c, side)))
          && (!Did(c, Other(side), ReadBody) ==> p.read == HEADER_SIZE))
    && (Did(c, Other(side), ReadBody) ==>
          var m := Message(host, plan, c, side);
          peer.remote == Some(m.(userData := Cut(m.userData))))
  }

  predicate ConnOk(cfg: Config, i: nat, c: Conn)
    requires cfg.Valid() && i < |cfg.plans|
  {
    var plan := cfg.plans[i];
    && EndOk(plan, c, Connector) && EndOk(plan, c, Acceptor)
    && FlowOk(cfg.hosts[plan.connector], plan, c, Connector) && FlowOk(cfg.hosts[plan.acceptor], plan, c, Acceptor)
  }
}
