/**
 * RpcClient and RpcServer as objects: the pieces of their code between two suspension points,
 * updating slots, queue and buffer pools in place. Each is proved to do to the object's memory what
 * the corresponding step of the protocol model does to it.
 */
module RpcEndpoints {
  import opened Bytes
  import opened Memory
  import opened Options
  import opened RpcModel
  import opened RpcInvariant
  import opened RpcPreservation
  import RequestId

  /** memcpy into a pool. */
  method Store(pool: array<byte>, at: nat, data: Data)
    requires at + |data| <= pool.Length
    modifies pool
    ensures pool[..] == Overlay(old(pool[..]), at, data)
  {
    for i := 0 to |data|
      invariant pool[..] == Overlay(old(pool[..]), at, data[..i])
    {
      pool[at + i] := data[i];
      assert data[..i + 1] == data[..i] + [data[i]];
    }
    assert data[..|data|] == data;
  }

  lemma PutIsOverlay(pool: Data, n: nat, size: nat, i: nat, at: nat, v: Data)
    requires i < n && |pool| == n * size && at + |v| <= size
    ensures Offset(size, i) + at + |v| <= |pool|
    ensures Put(pool, size, i, at, v) == Overlay(pool, Offset(size, i) + at, v)
  {
    RegionInBounds(n, size, i);
  }

  lemma OverlayFront(b: Data, v: Data)
    requires |v| <= |b|
    ensures Overlay(b, 0, v) == v + b[|v|..]
  {
  }

  /** Part of a region, read from the array. */
  lemma RegionSlice(pool: Data, n: nat, size: nat, i: nat, lo: nat, hi: nat)
    requires i < n && |pool| == n * size && lo <= hi <= size
    ensures Offset(size, i) + hi <= |pool| && |Region(pool, size, i)| == size
    ensures pool[Offset(size, i) + lo..Offset(size, i) + hi] == Region(pool, size, i)[lo..hi]
  {
    hide Offset;
    RegionInBounds(n, size, i);
    SliceOfSlice(pool, Offset(size, i), size, lo, hi);
  }

  lemma SliceOfSlice(pool: Data, at: nat, size: nat, lo: nat, hi: nat)
    requires at + size <= |pool| && lo <= hi <= size
    ensures pool[at + lo..at + hi] == pool[at..at + size][lo..hi]
  {
    var whole := pool[at..at + size];
    forall k | 0 <= k < hi - lo
      ensures pool[at + lo..at + hi][k] == whole[lo..hi][k]
    {
      assert whole[lo + k] == pool[at + lo + k];
    }
  }

  class RpcClient {
    const endian: Endian
    const inflight: nat
    const slots: array<Slot>
    const sendPool: array<byte>
    const recvPool: array<byte>
    var freeSlots: seq<nat>
    var globalSeq: nat

    ghost predicate Valid()
      reads this
    {
      && 0 < inflight < TWO_32
      && slots.Length == inflight
      && sendPool.Length == inflight * REQ_REGION
      && recvPool.Length == inflight * RESP_REGION
      && sendPool != recvPool
    }

    ghost function View(): ClientMem
      reads this, slots, sendPool, recvPool
    {
      ClientMem(multiset(freeSlots), globalSeq, slots[..], sendPool[..], recvPool[..])
    }

    constructor (endian: Endian, recvDepth: nat)
      requires 0 < recvDepth < TWO_32
      ensures Valid() && this.endian == endian && inflight == recvDepth
      ensures fresh(slots) && fresh(sendPool) && fresh(recvPool)
      ensures View().free == multiset(seq(recvDepth, i => i)) && globalSeq == 0
      ensures forall x :: 0 <= x < recvDepth ==> slots[x] == Slot(None, 0, 0, 0, 0)
    {
      this.endian := endian;
      inflight := recvDepth;
      slots := new Slot[recvDepth](_ => Slot(None, 0, 0, 0, 0));
      sendPool := new byte[recvDepth * REQ_REGION](_ => 0);
      recvPool := new byte[recvDepth * RESP_REGION](_ => 0);
      globalSeq := 0;
      freeSlots := [];
      new;
      for i := 0 to recvDepth
        invariant Valid() && inflight == recvDepth && globalSeq == 0
        invariant freeSlots == seq(i, j => j) && forall x :: 0 <= x < recvDepth ==> slots[x] == Slot(None, 0, 0, 0, 0)
      {
        freeSlots := freeSlots + [i];
      }
    }

    /** One attempt of the loop that dequeues a free slot. */
    method TryDequeue() returns (slot: Option<nat>)
      modifies this`freeSlots
      ensures match slot
              case None => old(View()).free == multiset{} && View() == old(View())
              case Some(x) => x in old(View()).free && View() == TakeSlot(old(View()), x)
    {
      if freeSlots == [] {
        slot := None;
      } else {
        slot := Some(freeSlots[0]);
        assert freeSlots == [freeSlots[0]] + freeSlots[1..];
        freeSlots := freeSlots[1..];
      }
    }

    /** The client's part of a call up to the post of its send: number, slot fields, header and payload. */
    method Prepare(slot: nat, user: CallId, bufLen: nat, request: Data) returns (id: nat)
      requires Valid() && slot < inflight && |request| <= SEND_MSG
      modifies this`globalSeq, slots, sendPool
      ensures id == RequestId.Encode(old(globalSeq), slot) && globalSeq == old(globalSeq) + 1
      ensures slots[slot].expected == id && slots[slot].waiter == None && freeSlots == old(freeSlots)
      ensures View() == FillRequest(endian, InitSlot(TakeNumber(old(View())), slot, user, bufLen, id), slot, id,
                                    request)
    {
      id := RequestId.Encode(globalSeq, slot);
      globalSeq := globalSeq + 1;
      slots[slot] := slots[slot].(waiter := None, user := user, bufLen := bufLen, expected := id);
      WriteRequest(slot, id, request);
    }

    /** Calls that take their ids one after the other: the counter moves by one for each, whatever the slots. */
    method PrepareEach(taken: seq<nat>, user: CallId, bufLen: nat, request: Data) returns (ids: seq<nat>)
      requires Valid() && |request| <= SEND_MSG && forall j :: 0 <= j < |taken| ==> taken[j] < inflight
      modifies this`globalSeq, slots, sendPool
      ensures Valid() && globalSeq == old(globalSeq) + |taken| && |ids| == |taken|
      ensures forall j :: 0 <= j < |taken| ==> ids[j] == RequestId.Encode(old(globalSeq) + j, taken[j])
    {
      hide RequestId.Encode;
      ids := [];
      for i := 0 to |taken|
        invariant Valid() && globalSeq == old(globalSeq) + i && |ids| == i
        invariant forall j :: 0 <= j < i ==> ids[j] == RequestId.Encode(old(globalSeq) + j, taken[j])
      {
        var id := Prepare(taken[i], user, bufLen, request);
        ids := ids + [id];
      }
    }

    method WriteRequest(slot: nat, id: nat, request: Data)
      requires Valid() && slot < inflight && |request| <= SEND_MSG
      modifies sendPool
      ensures sendPool[..] == PutFrame(endian, old(sendPool[..]), REQ_REGION, slot, id, request)
    {
      RegionInBounds(inflight, REQ_REGION, slot);
      var off := Offset(REQ_REGION, slot);
      PutIsOverlay(sendPool[..], inflight, REQ_REGION, slot, 0, ToHost(endian, 8, id));
      Store(sendPool, off, ToHost(endian, 8, id));
      PutIsOverlay(sendPool[..], inflight, REQ_REGION, slot, 8, ToHost(endian, 4, |request|));
      Store(sendPool, off + 8, ToHost(endian, 4, |request|));
      PutIsOverlay(sendPool[..], inflight, REQ_REGION, slot, HEADER, request);
      Store(sendPool, off + HEADER, request);
    }

    /** await_suspend of the response wait. */
    method PublishWaiter(slot: nat, handle: CallId)
      requires Valid() && slot < inflight
      modifies slots
      ensures View() == StoreWaiter(old(View()), slot, handle)
    {
      slots[slot] := slots[slot].(waiter := Some(handle));
    }

    /** await_resume of the response wait, and the return of the slot. */
    method Finish(slot: nat) returns (nbytes: nat)
      requires Valid() && slot < inflight
      modifies this`freeSlots
      ensures nbytes == View().slots[slot].actualLen
      ensures View() == GiveSlot(old(View()), slot)
    {
      nbytes := slots[slot].actualLen;
      freeSlots := freeSlots + [slot];
    }

    /** The checks of a receive worker on the header of the response in its region. */
    method CheckHeader(w: nat, nbytes: nat) returns (outcome: Outcome)
      requires Valid() && w < inflight
      ensures outcome == MatchHeader(endian, inflight, View(), w, nbytes)
    {
      RegionInBounds(inflight, RESP_REGION, w);
      if nbytes < HEADER {
        return Failed(ShortResponse);
      }
      var off := Offset(RESP_REGION, w);
      ghost var region := Region(recvPool[..], RESP_REGION, w);
      assert recvPool[off..off + 8] == region[..8];
      var id := FromHost(endian, recvPool[off..off + 8]);
      var slot := RequestId.Slot(id);
      if slot >= inflight {
        return Failed(BadSlotIndex);
      }
      if slots[slot].expected != id {
        return Failed(IdMismatch);
      }
      return Match(slot);
    }

    /** The copy of the payload into the caller's buffer; it stays inside the region. */
    method CopyPayload(w: nat, slot: nat, buffer: array<byte>) returns (n: nat)
      requires Valid() && w < inflight && slot < inflight
      requires buffer.Length == slots[slot].bufLen
      requires buffer != sendPool && buffer != recvPool
      requires CopyLength(endian, View(), w, slot) <= RECV_MSG
      modifies slots, buffer
      ensures n == CopyLength(endian, old(View()), w, slot) <= buffer.Length
      ensures var region := Region(recvPool[..], RESP_REGION, w);
              |region| == RESP_REGION && buffer[..] == region[HEADER..HEADER + n] + old(buffer[..])[n..]
      ensures View() == SetActual(old(View()), slot, n)
    {
      hide Offset, Region, CopyLength, Overlay;
      n := LengthToCopy(w, slot);
      var off := Offset(RESP_REGION, w);
      ghost var before := buffer[..];
      RegionSlice(recvPool[..], inflight, RESP_REGION, w, HEADER, HEADER + n);
      var payload := recvPool[off + HEADER..off + HEADER + n];
      OverlayFront(before, payload);
      Store(buffer, 0, payload);
      slots[slot] := slots[slot].(actualLen := n);
    }

    /** The payload's length by its header, cut to the caller's buffer. */
    method LengthToCopy(w: nat, slot: nat) returns (n: nat)
      requires Valid() && w < inflight && slot < inflight
      ensures n == CopyLength(endian, View(), w, slot) <= slots[slot].bufLen
    {
      hide Offset, Region;
      var off := Offset(RESP_REGION, w);
      RegionSlice(recvPool[..], inflight, RESP_REGION, w, 8, 12);
      n := Min(FromHost(endian, recvPool[off + 8..off + 12]), slots[slot].bufLen);
    }

    /**
     * A receive worker's code from its receive to the first load of the waiter: header check, copy, and the
     * handle to resume, if it is there already. buffer is the one that the slot's call passed.
     */
    method ReceiveResponse(w: nat, nbytes: nat, buffer: array<byte>) returns (outcome: Outcome, handle: Option<CallId>)
      requires Valid() && w < inflight && buffer != sendPool && buffer != recvPool
      requires match MatchHeader(endian, inflight, View(), w, nbytes)
               case Failed(_) => true
               case Match(x) =>
                 && x < inflight && buffer.Length == slots[x].bufLen
                 && CopyLength(endian, View(), w, x) <= RECV_MSG
      modifies slots, buffer
      ensures outcome == MatchHeader(endian, inflight, old(View()), w, nbytes)
      ensures outcome.Failed? ==> View() == old(View()) && buffer[..] == old(buffer[..]) && handle == None
      ensures outcome.Match? ==>
                var n := CopyLength(endian, old(View()), w, outcome.slot);
                && |Region(recvPool[..], RESP_REGION, w)| == RESP_REGION
                && HEADER + n <= RESP_REGION && n <= buffer.Length
                && buffer[..] == Region(recvPool[..], RESP_REGION, w)[HEADER..HEADER + n] + old(buffer[..])[n..]
                && View() == SetActual(old(View()), outcome.slot, n)
                && handle == old(View()).slots[outcome.slot].waiter
    {
      hide Region, CopyLength, MatchHeader;
      outcome := CheckHeader(w, nbytes);
      handle := None;
      if outcome.Match? {
        var n := CopyPayload(w, outcome.slot, buffer);
        handle := slots[outcome.slot].waiter;
      }
    }
  }

  class RpcServer {
    const endian: Endian
    const depth: nat
    const recvPool: array<byte>
    const sendPool: array<byte>

    ghost predicate Valid()
      reads this
    {
      && recvPool.Length == depth * REQ_REGION
      && sendPool.Length == depth * RESP_REGION
      && sendPool != recvPool
    }

    ghost function View(): ServerMem
      reads this, recvPool, sendPool
    {
      ServerMem(recvPool[..], sendPool[..])
    }

    constructor (endian: Endian, recvDepth: nat)
      ensures Valid() && this.endian == endian && depth == recvDepth
      ensures fresh(recvPool) && fresh(sendPool)
    {
      this.endian := endian;
      depth := recvDepth;
      recvPool := new byte[recvDepth * REQ_REGION](_ => 0);
      sendPool := new byte[recvDepth * RESP_REGION](_ => 0);
    }

    /** The handler runs: it may leave any bytes in the payload and in the reply that it was given. */
    method CallHandler(w: nat, scribble: Data, reply: Data)
      requires Valid() && w < depth && HEADER + |scribble| <= REQ_REGION && HEADER + |reply| <= RESP_REGION
      modifies recvPool, sendPool
      ensures View() == ServerMem(Put(old(recvPool[..]), REQ_REGION, w, HEADER, scribble),
                                  Put(old(sendPool[..]), RESP_REGION, w, HEADER, reply))
    {
      hide Offset;
      PutIsOverlay(recvPool[..], depth, REQ_REGION, w, HEADER, scribble);
      Store(recvPool, Offset(REQ_REGION, w) + HEADER, scribble);
      PutIsOverlay(sendPool[..], depth, RESP_REGION, w, HEADER, reply);
      Store(sendPool, Offset(RESP_REGION, w) + HEADER, reply);
    }

    /** The header of the reply: the request's id, read after the handler has returned, and the length. */
    method WriteHeader(w: nat, n: nat)
      requires Valid() && w < depth
      modifies sendPool
      ensures |Region(recvPool[..], REQ_REGION, w)| == REQ_REGION
      ensures var id := HeaderId(endian, Region(recvPool[..], REQ_REGION, w));
              sendPool[..] == Put(Put(old(sendPool[..]), RESP_REGION, w, 0, ToHost(endian, 8, id)), RESP_REGION, w, 8,
                                  ToHost(endian, 4, n))
    {
      hide Offset, Region;
      var off, out := Offset(REQ_REGION, w), Offset(RESP_REGION, w);
      RegionSlice(recvPool[..], depth, REQ_REGION, w, 0, 8);
      var id := FromHost(endian, recvPool[off..off + 8]);
      PutIsOverlay(sendPool[..], depth, RESP_REGION, w, 0, ToHost(endian, 8, id));
      Store(sendPool, out, ToHost(endian, 8, id));
      PutIsOverlay(sendPool[..], depth, RESP_REGION, w, 8, ToHost(endian, 4, n));
      Store(sendPool, out + 8, ToHost(endian, 4, n));
    }

    /**
     * A worker's code between its receive and its send, around a handler that leaves scribble in the payload
     * and reply in the reply region and returns n. None when the packet is shorter than a header.
     */
    method Serve(w: nat, nbytes: nat, scribble: Data, reply: Data, n: nat) returns (replyLength: Option<nat>)
      requires Valid() && w < depth && nbytes <= REQ_REGION
      requires nbytes >= HEADER ==> |scribble| == nbytes - HEADER && |reply| == RECV_MSG && n <= RECV_MSG
      modifies recvPool, sendPool
      ensures nbytes < HEADER ==> replyLength == None && View() == old(View())
      ensures nbytes >= HEADER ==>
                replyLength == Some(HEADER + n) && View() == HandleRequest(endian, old(View()), w, scribble, reply, n)
    {
      if nbytes < HEADER {
        return None;
      }
      hide Put, Region, ToHost;
      CallHandler(w, scribble, reply);
      WriteHeader(w, n);
      return Some(HEADER + n);
    }
  }

  // ---------------------------------------------------------------- the objects inside the protocol

  /** In every reachable state the copy of a receive worker meets what CopyPayload asks of its caller. */
  lemma CopyPayloadCallable(cfg: Config, s: State, w: nat)
    requires cfg.Valid() && Reachable(cfg, s) && w < |s.workers| && s.workers[w].Matched?
    ensures var slot := s.workers[w].slot;
            && slot < cfg.inflight == |s.client.slots|
            && CopyLength(cfg.endian, s.client, w, slot) <= RECV_MSG
            && var user := s.client.slots[slot].user;
               user < |s.calls| && |s.calls[user].buffer| == s.client.slots[slot].bufLen
  {
    hide CallsInv, FieldsInv, SendRegionsInv, TokensInv, SlotsInv, RequestsInv, ResponsesInv, ServerInv, WorkersInv;
    hide Region, IsFrame, CopyLength, CopyInto;
    ReachableInv(cfg, s);
    WorkerAt(cfg, s, w);
    CallAt(cfg, s, s.workers[w].origin);
    CopyFinds(cfg, s, w);
  }

  /** A delivered request is whole: its header says how long the packet is. */
  lemma DeliveredRequest(cfg: Config, s: State, w: nat)
    requires Inv(cfg, s) && w < |s.serverWorkers| && s.serverWorkers[w].ServerDelivered?
    ensures var nbytes := s.serverWorkers[w].nbytes;
            var request := Region(s.server.recvPool, REQ_REGION, w);
            && HEADER <= nbytes <= REQ_REGION == |request| && HeaderLength(cfg.endian, request) + HEADER == nbytes
            && s.fault == NoFault
  {
    hide CallsInv, FieldsInv, SendRegionsInv, TokensInv, SlotsInv, RequestsInv, ResponsesInv, ServerInv, WorkersInv;
    hide Offset, IsFrame, Reachable, Put;
    ServerWorkerAt(cfg, s, w);
    RegionInBounds(cfg.depth, REQ_REGION, w);
    var c := s.serverWorkers[w].origin;
    CallAt(cfg, s, c);
    RegionFrame(cfg.endian, Region(s.server.recvPool, REQ_REGION, w), s.serverWorkers[w].nbytes, s.calls[c].id,
                s.calls[c].request);
  }

  /**
   * In every reachable state a delivered request is long enough for Serve, and what Serve does around
   * anything that the handler may do is a handler step of the protocol, with the header that the code checks.
   */
  lemma ServeIsHandle(cfg: Config, s: State, w: nat, scribble: Data, reply: Data, n: nat)
    requires cfg.Valid() && Reachable(cfg, s) && w < |s.serverWorkers| && s.serverWorkers[w].ServerDelivered?
    requires |scribble| == |RequestPayload(s, w)| && |reply| == RECV_MSG && 0 < n <= RECV_MSG
    requires cfg.handles(RequestPayload(s, w), reply[..n])
    ensures var nbytes := s.serverWorkers[w].nbytes;
            var request := Region(s.server.recvPool, REQ_REGION, w);
            && HEADER <= nbytes <= REQ_REGION == |request| && |scribble| == nbytes - HEADER
            && RequestPayload(s, w) == request[HEADER..nbytes] && HeaderLength(cfg.endian, request) + HEADER == nbytes
            && Enabled(cfg, s, Server(Handle(w, scribble, reply, n)))
            && var t := Apply(cfg, s, Server(Handle(w, scribble, reply, n)));
               && t.server == HandleRequest(cfg.endian, s.server, w, scribble, reply, n)
               && InServerStage(t, w, Ready(n, s.serverWorkers[w].origin)) && t.fault == NoFault
  {
    hide HandleRequest, HeaderLength, Region, Reachable, Inv;
    ReachableInv(cfg, s);
    DeliveredRequest(cfg, s, w);
  }
}
