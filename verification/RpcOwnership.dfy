/** Who may touch which bytes of the four buffer pools, and when. */
module RpcOwnership {
  import opened Bytes
  import opened Memory
  import opened Options
  import opened RpcModel
  import opened RpcInvariant
  import opened RpcPreservation

  datatype Pool = ClientSend | ClientRecv | ServerRecv | ServerSend

  function PoolBytes(s: State, pool: Pool): Data {
    match pool
    case ClientSend => s.client.sendPool
    case ClientRecv => s.client.recvPool
    case ServerRecv => s.server.recvPool
    case ServerSend => s.server.sendPool
  }

  function RegionSize(pool: Pool): nat {
    match pool
    case ClientSend => REQ_REGION
    case ClientRecv => RESP_REGION
    case ServerRecv => REQ_REGION
    case ServerSend => RESP_REGION
  }

  function RegionCount(cfg: Config, pool: Pool): nat {
    if pool.ClientSend? || pool.ClientRecv? then cfg.inflight else cfg.depth
  }

  function RegionBytes(s: State, pool: Pool, i: nat): Data {
    Region(PoolBytes(s, pool), RegionSize(pool), i)
  }

  /** A work request on the region is posted and not completed: the bytes belong to the NIC. */
  ghost predicate NicOwned(s: State, pool: Pool, i: nat) {
    match pool
    case ClientSend => exists c: CallId :: SendOutstanding(s, c) && s.calls[c].slot == i
    case ClientRecv => InStage(s, i, Posted)
    case ServerRecv => InServerStage(s, i, ServerPosted)
    case ServerSend => i < |s.serverWorkers| && (s.serverWorkers[i].ReplyPosted? || s.serverWorkers[i].ReplySent?)
  }

  predicate SendOutstanding(s: State, c: CallId) {
    c < |s.calls| && (s.calls[c].phase.SendPosted? || s.calls[c].phase.SendSent?)
  }

  /** The regions that the code of a step reads or writes. */
  predicate CpuTouches(s: State, step: Step, pool: Pool, i: nat) {
    match step
    case Caller(Fill(c)) => pool == ClientSend && c < |s.calls| && s.calls[c].slot == i
    case Receiver(MatchStep(w)) => pool == ClientRecv && w == i
    case Receiver(CopyStep(w)) => pool == ClientRecv && w == i
    case Server(Handle(w, _, _, _)) => (pool == ServerRecv || pool == ServerSend) && w == i
    case _ => false
  }

  /** The regions that the NIC reads or writes in a step. */
  predicate NicTouches(s: State, step: Step, pool: Pool, i: nat) {
    match step
    case Caller(Transmit(c, _)) => pool == ClientSend && c < |s.calls| && s.calls[c].slot == i
    case Receiver(Deliver(_, w)) => pool == ClientRecv && w == i
    case Server(ServerDeliver(_, w)) => pool == ServerRecv && w == i
    case Server(ServerTransmit(w, _)) => pool == ServerSend && w == i
    case _ => false
  }

  // ---------------------------------------------------------------- layout

  lemma At(size: nat, i: nat)
    ensures Offset(size, i) == i * size
  {
  }

  /** The regions of each pool lie inside it and are pairwise disjoint, for every depth. */
  lemma Layout(cfg: Config, s: State, pool: Pool, i: nat, j: nat)
    requires cfg.Valid() && Reachable(cfg, s) && i < RegionCount(cfg, pool) && j < RegionCount(cfg, pool)
    ensures var size := RegionSize(pool);
            && size in {16 + 256, 16 + 4096} && Offset(size, i) == i * size
            && Offset(size, i) + size <= |PoolBytes(s, pool)|
            && |RegionBytes(s, pool, i)| == size
            && (i != j ==> Offset(size, i) + size <= Offset(size, j) || Offset(size, j) + size <= Offset(size, i))
  {
    hide Offset;
    ReachableInv(cfg, s);
    At(RegionSize(pool), i);
    RegionInBounds(RegionCount(cfg, pool), RegionSize(pool), i);
    if i != j {
      RegionsDisjoint(RegionSize(pool), i, j);
    }
  }

  /** The view on a send region is never cut at the end of the pool: it is as long as the message. */
  lemma SendViewNotClamped(cfg: Config, s: State, c: CallId)
    requires cfg.Valid() && Reachable(cfg, s) && c < |s.calls| && Holds(s.calls[c].phase)
    ensures var len := HEADER + |s.calls[c].request|;
            var off := Offset(REQ_REGION, s.calls[c].slot);
            len <= REQ_REGION && off <= |s.client.sendPool| && Min(len, |s.client.sendPool| - off) == len
  {
    hide Offset;
    ReachableInv(cfg, s);
    CallAt(cfg, s, c);
    RegionInBounds(cfg.inflight, REQ_REGION, s.calls[c].slot);
  }

  /** Every message fits the region it is received into, so no receive is refused or cut. */
  lemma MessagesFit(cfg: Config, s: State)
    requires cfg.Valid() && Reachable(cfg, s)
    ensures forall tag :: tag in s.requests ==> HEADER <= |s.requests[tag].data| <= REQ_REGION
    ensures forall tag :: tag in s.responses ==> HEADER < |s.responses[tag].data| <= RESP_REGION
  {
    ReachableInv(cfg, s);
    forall tag | tag in s.requests
      ensures HEADER <= |s.requests[tag].data| <= REQ_REGION
    {
      RequestAt(cfg, s, tag);
      CallAt(cfg, s, s.requests[tag].origin);
    }
    forall tag | tag in s.responses
      ensures HEADER < |s.responses[tag].data| <= RESP_REGION
    {
      ResponseAt(cfg, s, tag);
    }
  }

  // ---------------------------------------------------------------- ownership

  /** The code never reads or writes a region that belongs to the NIC. */
  lemma CpuLeavesNicRegions(cfg: Config, s: State, step: Step, pool: Pool, i: nat)
    requires cfg.Valid() && Reachable(cfg, s) && Enabled(cfg, s, step)
    requires CpuTouches(s, step, pool, i)
    ensures !NicOwned(s, pool, i)
  {
    ReachableInv(cfg, s);
    match step
    case Caller(Fill(c)) =>
      CallAt(cfg, s, c);
      forall d: CallId | SendOutstanding(s, d)
        ensures s.calls[d].slot != i
      {
        CallAt(cfg, s, d);
      }
    case _ =>
  }

  /** The NIC touches a region only while it owns it. */
  lemma NicTouchesOwned(cfg: Config, s: State, step: Step, pool: Pool, i: nat)
    requires Enabled(cfg, s, step) && NicTouches(s, step, pool, i)
    ensures NicOwned(s, pool, i)
  {
    match step
    case Caller(Transmit(c, _)) => assert SendOutstanding(s, c);
    case _ =>
  }

  lemma CallerWrites(cfg: Config, s: State, step: CallerStep, pool: Pool, i: nat)
    requires Inv(cfg, s) && CallerEnabled(s, step) && i < RegionCount(cfg, pool)
    requires !CpuTouches(s, Caller(step), pool, i)
    ensures RegionBytes(ApplyCaller(cfg, s, step), pool, i) == RegionBytes(s, pool, i)
  {
    hide CallsInv, FieldsInv, SendRegionsInv, TokensInv, SlotsInv, RequestsInv, ResponsesInv, ServerInv, WorkersInv;
    hide Region, IsFrame, PutFrame;
    match step
    case Fill(c) =>
      CallAt(cfg, s, c);
      var call := s.calls[c];
      PutFrameStores(cfg.endian, s.client.sendPool, cfg.inflight, REQ_REGION, call.slot, call.id, call.request);
    case _ =>
  }

  lemma ReceiverWrites(cfg: Config, s: State, step: ReceiverStep, pool: Pool, i: nat)
    requires Inv(cfg, s) && ReceiverEnabled(s, step) && i < RegionCount(cfg, pool)
    requires !NicTouches(s, Receiver(step), pool, i)
    ensures RegionBytes(ApplyReceiver(cfg, s, step), pool, i) == RegionBytes(s, pool, i)
  {
    hide CallsInv, FieldsInv, SendRegionsInv, TokensInv, SlotsInv, RequestsInv, ResponsesInv, ServerInv, WorkersInv;
    hide Region, IsFrame, MatchHeader, CopyLength, Put;
    match step
    case Deliver(tag, w) => PutMessage(s.client.recvPool, cfg.inflight, RESP_REGION, w, s.responses[tag].data);
    case _ =>
  }

  lemma ServerWrites(cfg: Config, s: State, step: ServerStep, pool: Pool, i: nat)
    requires Inv(cfg, s) && ServerEnabled(cfg, s, step) && i < RegionCount(cfg, pool)
    requires !CpuTouches(s, Server(step), pool, i) && !NicTouches(s, Server(step), pool, i)
    ensures RegionBytes(ApplyServer(cfg, s, step), pool, i) == RegionBytes(s, pool, i)
  {
    hide CallsInv, FieldsInv, SendRegionsInv, TokensInv, SlotsInv, RequestsInv, ResponsesInv, ServerInv, WorkersInv;
    hide Region, IsFrame, HandleRequest, HeaderLength, Put;
    match step
    case ServerDeliver(tag, w) => PutMessage(s.server.recvPool, cfg.depth, REQ_REGION, w, s.requests[tag].data);
    case Handle(w, scribble, reply, n) => HandleStores(cfg, s, w, scribble, reply, n);
    case _ =>
  }

  /** The footprints above are complete: a region changes only in a step that touches it. */
  lemma WritesWithinFootprint(cfg: Config, s: State, step: Step, pool: Pool, i: nat)
    requires cfg.Valid() && Reachable(cfg, s) && Enabled(cfg, s, step) && i < RegionCount(cfg, pool)
    requires RegionBytes(Apply(cfg, s, step), pool, i) != RegionBytes(s, pool, i)
    ensures CpuTouches(s, step, pool, i) || NicTouches(s, step, pool, i)
  {
    hide CallerEnabled, ReceiverEnabled, ServerEnabled, ApplyCaller, ApplyReceiver, ApplyServer, RegionBytes;
    ReachableInv(cfg, s);
    match step
    case Caller(caller) =>
      if !CpuTouches(s, step, pool, i) {
        CallerWrites(cfg, s, caller, pool, i);
      }
    case Receiver(receiver) =>
      if !NicTouches(s, step, pool, i) {
        ReceiverWrites(cfg, s, receiver, pool, i);
      }
    case Server(server) =>
      if !CpuTouches(s, step, pool, i) && !NicTouches(s, step, pool, i) {
        ServerWrites(cfg, s, server, pool, i);
      }
  }

  /**
   * From post to completion no step changes a byte of a send region, and none but the NIC's own
   * delivery changes a byte of a posted receive region.
   */
  lemma NicRegionsStable(cfg: Config, s: State, step: Step, pool: Pool, i: nat)
    requires cfg.Valid() && Reachable(cfg, s) && Enabled(cfg, s, step) && i < RegionCount(cfg, pool)
    requires NicOwned(s, pool, i)
    ensures RegionBytes(Apply(cfg, s, step), pool, i) == RegionBytes(s, pool, i)
            || (NicTouches(s, step, pool, i) && (pool == ClientRecv || pool == ServerRecv))
  {
    hide Enabled, Apply, Reachable, RegionBytes, NicOwned, NicTouches, CpuTouches;
    if RegionBytes(Apply(cfg, s, step), pool, i) != RegionBytes(s, pool, i) {
      WritesWithinFootprint(cfg, s, step, pool, i);
      if CpuTouches(s, step, pool, i) {
        CpuLeavesNicRegions(cfg, s, step, pool, i);
      } else if pool == ClientSend || pool == ServerSend {
        SendsAreOnlyRead(cfg, s, step, pool, i);
      }
    }
  }

  /** Transmitting reads a send region and changes none. */
  lemma SendsAreOnlyRead(cfg: Config, s: State, step: Step, pool: Pool, i: nat)
    requires Enabled(cfg, s, step) && NicTouches(s, step, pool, i) && (pool == ClientSend || pool == ServerSend)
    ensures RegionBytes(Apply(cfg, s, step), pool, i) == RegionBytes(s, pool, i)
  {
    hide Region;
  }
}
