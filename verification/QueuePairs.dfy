/**
 * A queue pair object, the connector's and the acceptor's procedures, step by step as the code runs
 * them on one connection. Their effects are those of the actions of module Handshake.
 */
module QueuePairs {
  import opened Bytes
  import opened Options
  import opened QpCodec
  import H = Handshake
  import I = HandshakeInvariant

  datatype QpError = DeviceRefused | Stream(error: StreamError)

  /** What the device answers to the creation and to the three transitions. */
  datatype Device = Device(creates: bool, init: bool, rtr: bool, rts: bool)

  /** The counter of starting sequence numbers that the queue pairs of a process share. */
  class Process {
    var nextSqPsn: nat

    constructor ()
      ensures nextSqPsn == 1
    {
      nextSqPsn := 1;
    }

    /** Takes a number; the counter wraps at four bytes. */
    method FetchAdd() returns (psn: nat)
      requires nextSqPsn < TWO_32
      modifies this
      ensures psn == old(nextSqPsn) && nextSqPsn == (old(nextSqPsn) + 1) % TWO_32
    {
      psn := nextSqPsn;
      nextSqPsn := if nextSqPsn + 1 == TWO_32 then 0 else nextSqPsn + 1;
    }
  }

  class QueuePair {
    const num: nat
    const sqPsn: nat
    var state: H.QpState
    var destNum: nat
    var rqPsn: nat
    var dlid: nat
    var dgid: seq<byte>
    var userData: seq<byte>
    var held: bool

    ghost function View(): H.Qp
      reads this
    {
      H.Qp(num, sqPsn, state, destNum, rqPsn, dlid, dgid, userData, held)
    }

    constructor (num: nat, sqPsn: nat)
      ensures View() == H.Made(num, sqPsn, [])
    {
      this.num, this.sqPsn := num, sqPsn;
      state, destNum, rqPsn, dlid, dgid, userData, held := H.Reset, 0, 0, 0, [], [], true;
    }

    method Init(ok: bool) returns (r: Result<(), QpError>)
      requires held
      modifies this
      ensures r == if ok then Ok(()) else Err(DeviceRefused)
      ensures View() == if ok then old(View()).(state := H.Init) else old(View()).(held := false)
    {
      if !ok {
        held := false;
        Destroy();
        return Err(DeviceRefused);
      }
      state := H.Init;
      return Ok(());
    }

    method Rtr(remote: QpInfo, ok: bool) returns (r: Result<(), QpError>)
      requires held
      modifies this
      ensures r == if ok then Ok(()) else Err(DeviceRefused)
      ensures View() == if ok then H.Connected(old(View()), remote) else old(View()).(held := false)
    {
      if !ok {
        held := false;
        Destroy();
        return Err(DeviceRefused);
      }
      state, destNum, rqPsn, dlid, dgid := H.Rtr, remote.qpNum, remote.sqPsn, remote.lid, remote.gid;
      return Ok(());
    }

    method Rts(ok: bool) returns (r: Result<(), QpError>)
      requires held
      modifies this
      ensures r == if ok then Ok(()) else Err(DeviceRefused)
      ensures View() == if ok then old(View()).(state := H.Rts) else old(View()).(held := false)
    {
      if !ok {
        held := false;
        Destroy();
        return Err(DeviceRefused);
      }
      state := H.Rts;
      return Ok(());
    }

    /** Nothing to destroy without the handle. */
    method Destroy()
      modifies this
      ensures View() == H.Destroyed(Some(old(View()))).value
    {
      if !held {
        return;
      }
      state := H.Error;
      held := false;
    }
  }

  /** A new queue pair in INIT, or nothing. made is the queue pair on the device, also if it is not returned. */
  method MakeQp(process: Process, num: nat, device: Device)
    returns (r: Result<QueuePair, QpError>, ghost made: Option<QueuePair>)
    requires process.nextSqPsn < TWO_32
    modifies process
    ensures process.nextSqPsn == (if device.creates then (old(process.nextSqPsn) + 1) % TWO_32
                                  else old(process.nextSqPsn))
    ensures r.Ok? <==> device.creates && device.init
    ensures r.Err? ==> r.error == DeviceRefused
    ensures r.Ok? ==>
              fresh(r.value) && made == Some(r.value)
              && r.value.View() == H.Made(num, old(process.nextSqPsn), []).(state := H.Init)
    ensures made.Some? <==> device.creates
    ensures made.Some? && r.Err? ==> fresh(made.value) && made.value.state == H.Reset && !made.value.held
  {
    made := None;
    if !device.creates {
      return Err(DeviceRefused), made;
    }
    var psn := process.FetchAdd();
    var qp := new QueuePair(num, psn);
    made := Some(qp);
    var init := qp.Init(device.init);
    if init.Err? {
      return Err(init.error), made;
    }
    return Ok(qp), made;
  }

  /** A queue pair brought from INIT to RTS towards remote, holding the user data that remote sent. */
  function Towards(num: nat, psn: nat, remote: QpInfo): H.Qp {
    H.Connected(H.Made(num, psn, []), remote).(state := H.Rts, userData := remote.userData)
  }

  /** What a side tells about a queue pair that it has just made. */
  function NewInfo(host: H.Host, num: nat, psn: nat, userData: seq<byte>): QpInfo {
    QpInfo(host.lid, num, psn, host.gid, userData)
  }

  /** The counter of starting numbers moves by one when a queue pair is made, and wraps at four bytes. */
  predicate CounterAfter(before: nat, made: bool, after: nat) {
    after == (if made then (before + 1) % TWO_32 else before)
  }

  /** A queue pair that was made and not returned: destroyed, or left as it was by a refused transition. */
  ghost predicate Abandoned(made: Option<QueuePair>, destroyed: bool)
    reads if made.Some? then {made.value} else {}
  {
    made.Some? ==> !made.value.held && (made.value.state == H.Error <==> destroyed)
  }

  /**
   * The connector: makes a queue pair and tells of it first, then reads the peer's and connects. It
   * succeeds exactly if the device allows everything and a whole queue pair could be read.
   */
  method FromSocket(e: Endian, host: H.Host, process: Process, num: nat, device: Device, socket: Socket)
    returns (r: Result<QueuePair, QpError>, ghost made: Option<QueuePair>)
    requires process.nextSqPsn < TWO_32 && NewInfo(host, num, process.nextSqPsn, []).Valid()
    modifies process, socket
    ensures r.Ok? <==> device == Device(true, true, true, true) && DecodeQp(old(socket.incoming)).0.Ok?
    ensures r == Err(Stream(EndOfStream)) <==> device.creates && device.init && DecodeQp(old(socket.incoming)).0.Err?
    ensures socket.written ==
            old(socket.written)
            + if device.creates && device.init then EncodeQp(NewInfo(host, num, old(process.nextSqPsn), [])) else []
    ensures r.Ok? ==>
              var (remote, rest) := DecodeQp(old(socket.incoming));
              fresh(r.value) && r.value.View() == Towards(num, old(process.nextSqPsn), remote.value)
                && socket.incoming == rest && made == Some(r.value)
    ensures CounterAfter(old(process.nextSqPsn), made.Some?, process.nextSqPsn) && (made.Some? <==> device.creates)
    ensures r.Err? ==> Abandoned(made, r.error.Stream?)
  {
    var init: Result<QueuePair, QpError>;
    init, made := MakeQp(process, num, device);
    if init.Err? {
      return Err(init.error), made;
    }
    var qp := init.value;
    socket.SendQp(e, NewInfo(host, qp.num, qp.sqPsn, qp.userData));
    var remote := socket.RecvQp(e);
    if remote.Err? {
      qp.Destroy();
      return Err(Stream(remote.error)), made;
    }
    var rtr := qp.Rtr(remote.value, device.rtr);
    if rtr.Err? {
      qp.Destroy();
      return Err(rtr.error), made;
    }
    qp.userData := remote.value.userData;
    var rts := qp.Rts(device.rts);
    if rts.Err? {
      qp.Destroy();
      return Err(rts.error), made;
    }
    return Ok(qp), made;
  }

  /**
   * The acceptor: reads the peer's queue pair, makes its own and brings it to RTS, and only then
   * tells of it. Any failure gives no queue pair, and then not a byte was written.
   */
  method Accept(e: Endian, host: H.Host, process: Process, num: nat, device: Device, socket: Socket)
    returns (r: Option<QueuePair>, ghost made: Option<QueuePair>)
    requires process.nextSqPsn < TWO_32 && NewInfo(host, num, process.nextSqPsn, []).Valid()
    modifies process, socket
    ensures r.Some? <==> device == Device(true, true, true, true) && DecodeQp(old(socket.incoming)).0.Ok?
    ensures r.None? ==> socket.written == old(socket.written)
    ensures r.Some? ==>
              var (remote, rest) := DecodeQp(old(socket.incoming));
              && fresh(r.value) && r.value.View() == Towards(num, old(process.nextSqPsn), remote.value)
                && socket.incoming == rest
              && socket.written ==
                 old(socket.written) + EncodeQp(NewInfo(host, num, old(process.nextSqPsn), remote.value.userData))
              && made == r
    ensures CounterAfter(old(process.nextSqPsn), made.Some?, process.nextSqPsn)
    ensures made.Some? <==> device.creates && DecodeQp(old(socket.incoming)).0.Ok?
    ensures r.None? ==> Abandoned(made, false)
  {
    made := None;
    var remote := socket.RecvQp(e);
    if remote.Err? {
      return None, made;
    }
    var init: Result<QueuePair, QpError>;
    init, made := MakeQp(process, num, device);
    if init.Err? {
      return None, made;
    }
    var qp := init.value;
    var rtr := qp.Rtr(remote.value, device.rtr);
    if rtr.Err? {
      qp.Destroy();
      return None, made;
    }
    var rts := qp.Rts(device.rts);
    if rts.Err? {
      qp.Destroy();
      return None, made;
    }
    qp.userData := remote.value.userData;
    socket.SendQp(e, NewInfo(host, qp.num, qp.sqPsn, qp.userData));
    return Some(qp), made;
  }

  // ---------------------------------------------------------------- the procedures inside the transition system

  /** The queue pair and the bytes written that FromSocket and Accept promise for a peer's message m. */
  ghost predicate AsPromised(host: H.Host, own: seq<byte>, e: H.Endpoint, written: seq<byte>, m: QpInfo) {
    && e.qp.Some? && e.remote.Some?
    && (forall more :: DecodeQp(EncodeQp(m) + more).0 == Ok(e.remote.value))
    && e.qp.value == Towards(e.qp.value.num, e.qp.value.sqPsn, e.remote.value)
    && written == EncodeQp(NewInfo(host, e.qp.value.num, e.qp.value.sqPsn, own))
  }

  /**
   * In every run of all connections, in any interleaving and with bytes arriving in any pieces, a side that
   * has done all its actions has the queue pair that the procedure makes of the peer's message, and has
   * written what the procedure writes: the connector what it was made with, the acceptor what it read.
   */
  lemma DoneAsPromised(cfg: H.Config, s: H.State, i: nat, side: H.Side) returns (m: QpInfo)
    requires cfg.Valid() && H.Reachable(cfg, s) && i < |s.conns| == |cfg.plans|
    requires H.Alive(H.End(s.conns[i], side)) && H.End(s.conns[i], side).pc == H.LAST
    ensures H.HostIndex(cfg.plans[i], side) < |cfg.hosts|
    ensures var c, plan := s.conns[i], cfg.plans[i];
            var e := H.End(c, side);
            && e.remote.Some? && H.From(c, H.Other(side)).sent <= EncodeQp(m)
            && var own := if side == H.Connector then plan.userData else e.remote.value.userData;
               AsPromised(cfg.hosts[H.HostIndex(plan, side)], own, e, H.From(c, side).sent, m)
  {
    hide H.Reachable, EncodeQp, DecodeQp, HeaderOf, I.NumsOk;
    I.ReachableInv(cfg, s);
    I.ConnAt(cfg, s, i, side);
    var c, plan, other := s.conns[i], cfg.plans[i], H.Other(side);
    var host := cfg.hosts[H.HostIndex(plan, other)];
    m := H.Message(host, plan, c, other);
    I.MessageValid(host, plan, c, other);
    forall more
      ensures DecodeQp(EncodeQp(m) + more).0 == Ok(m.(userData := H.Cut(m.userData)))
    {
      Framing(m, more);
    }
  }
}
