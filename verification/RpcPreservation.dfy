/** Every step of the RPC protocol keeps the invariant. */
module RpcPreservation {
  import opened Bytes
  import opened Memory
  import opened Options
  import opened RpcModel
  import opened RpcInvariant
  import RequestId

  // ---------------------------------------------------------------- what a step leaves alone

  /** Nothing that the message exchange of a call depends on changed. */
  predicate SameExchange(a: Call, b: Call) {
    && a.token == b.token && a.id == b.id && a.slot == b.slot && a.request == b.request
    && a.handled == b.handled && a.initial == b.initial && a.buffer == b.buffer
    && (a.phase.Waiting? ==> b.phase.Waiting?)
  }

  /** Call c changed from a to b, and whoever has its token at loc need not notice. */
  predicate Untouched(a: Call, b: Call, loc: Token) {
    a.token != loc || SameExchange(a, b)
  }

  /** At most call c changed. */
  predicate Others(calls: seq<Call>, calls': seq<Call>, c: CallId) {
    c < |calls| == |calls'| && calls' == calls[c := calls'[c]]
  }

  /** At most slot x changed, and no call but c holds it. */
  predicate OtherSlots(holders: seq<Option<CallId>>, slots: seq<Slot>, slots': seq<Slot>, c: CallId, x: nat) {
    && x < |slots| == |slots'| == |holders|
    && slots' == slots[x := slots'[x]]
    && (holders[x] == None || holders[x] == Some(c))
  }

  /** The pools agree on every region but one. */
  ghost predicate OtherRegions(p: Data, q: Data, size: nat, x: nat) {
    forall y: nat :: y != x ==> Region(q, size, y) == Region(p, size, y)
  }

  lemma FieldsFrame(inflight: nat, calls: seq<Call>, calls': seq<Call>, holders: seq<Option<CallId>>,
                    holders': seq<Option<CallId>>, slots: seq<Slot>, slots': seq<Slot>, c: CallId, x: nat)
    requires |slots| == |holders| == |holders'| == inflight && FieldsInv(inflight, calls, holders, slots)
    requires Others(calls, calls', c) && OtherSlots(holders, slots, slots', c, x)
    requires holders' == holders[x := holders'[x]]
    requires FieldsOk(inflight, calls'[c], c, holders', slots')
    ensures FieldsInv(inflight, calls', holders', slots')
  {
    hide Region, IsFrame;
    forall d: CallId | d < |calls'|
      ensures FieldsOk(inflight, calls'[d], d, holders', slots')
    {
      assert FieldsOk(inflight, calls[d], d, holders, slots);
    }
  }

  lemma SendRegionsFrame(cfg: Config, calls: seq<Call>, calls': seq<Call>, holders: seq<Option<CallId>>,
                         slots: seq<Slot>, p: Data, q: Data, c: CallId, x: nat)
    requires |slots| == |holders| == cfg.inflight && FieldsInv(cfg.inflight, calls, holders, slots)
    requires SendRegionsInv(cfg.endian, calls, p) && Others(calls, calls', c) && OtherSlots(holders, slots, slots, c, x)
    requires OtherRegions(p, q, REQ_REGION, x) && SendRegionOk(cfg.endian, calls'[c], q)
    ensures SendRegionsInv(cfg.endian, calls', q)
  {
    hide Region, IsFrame;
    forall d: CallId | d < |calls'|
      ensures SendRegionOk(cfg.endian, calls'[d], q)
    {
      assert FieldsOk(cfg.inflight, calls[d], d, holders, slots) && SendRegionOk(cfg.endian, calls[d], p);
    }
  }

  lemma RequestsFrame(e: Endian, calls: seq<Call>, calls': seq<Call>, requests: map<Tag, Message>,
                      requests': map<Tag, Message>, c: CallId)
    requires RequestsInv(e, calls, requests) && Others(calls, calls', c)
    requires forall tag :: tag in requests' ==>
               || (tag in requests && requests'[tag] == requests[tag]
                   && Untouched(calls[c], calls'[c], OnRequestWire(tag)))
               || RequestOk(e, calls', tag, requests'[tag])
    ensures RequestsInv(e, calls', requests')
  {
    hide Region, IsFrame;
    forall tag | tag in requests'
      ensures RequestOk(e, calls', tag, requests'[tag])
    {
      if tag in requests {
        assert RequestOk(e, calls, tag, requests[tag]);
      }
    }
  }

  lemma ResponsesFrame(cfg: Config, calls: seq<Call>, calls': seq<Call>, responses: map<Tag, Message>,
                       responses': map<Tag, Message>, c: CallId)
    requires ResponsesInv(cfg, calls, responses) && Others(calls, calls', c)
    requires forall tag :: tag in responses' ==>
               || (tag in responses && responses'[tag] == responses[tag]
                   && Untouched(calls[c], calls'[c], OnResponseWire(tag)))
               || ResponseOk(cfg, calls', tag, responses'[tag])
    ensures ResponsesInv(cfg, calls', responses')
  {
    hide Region, IsFrame;
    forall tag | tag in responses'
      ensures ResponseOk(cfg, calls', tag, responses'[tag])
    {
      if tag in responses {
        assert ResponseOk(cfg, calls, tag, responses[tag]);
      }
    }
  }

  /** Worker w, its stage and its two regions are as they were. */
  predicate ServerKept(m: ServerMem, m': ServerMem, stages: seq<ServerStage>, stages': seq<ServerStage>, w: nat)
    requires w < |stages| == |stages'|
  {
    && stages'[w] == stages[w]
    && Region(m'.recvPool, REQ_REGION, w) == Region(m.recvPool, REQ_REGION, w)
    && Region(m'.sendPool, RESP_REGION, w) == Region(m.sendPool, RESP_REGION, w)
  }

  lemma ServerFrame(cfg: Config, calls: seq<Call>, calls': seq<Call>, m: ServerMem, m': ServerMem,
                    stages: seq<ServerStage>, stages': seq<ServerStage>, c: CallId)
    requires ServerInv(cfg, calls, m, stages) && Others(calls, calls', c) && |stages| == |stages'|
    requires forall w: nat :: w < |stages'| ==>
               || (ServerKept(m, m', stages, stages', w) && Untouched(calls[c], calls'[c], AtServer(w)))
               || ServerWorkerOk(cfg, calls', m', w, stages'[w])
    ensures ServerInv(cfg, calls', m', stages')
  {
    hide Region, IsFrame;
    forall w: nat | w < |stages'|
      ensures ServerWorkerOk(cfg, calls', m', w, stages'[w])
    {
      assert ServerWorkerOk(cfg, calls, m, w, stages[w]);
    }
  }

  /** Worker w, its stage and its region are as they were. */
  predicate WorkerKept(p: Data, q: Data, stages: seq<Stage>, stages': seq<Stage>, w: nat)
    requires w < |stages| == |stages'|
  {
    stages'[w] == stages[w] && Region(q, RESP_REGION, w) == Region(p, RESP_REGION, w)
  }

  lemma WorkersFrame(cfg: Config, calls: seq<Call>, calls': seq<Call>, holders: seq<Option<CallId>>, slots: seq<Slot>,
                     slots': seq<Slot>, p: Data, q: Data, stages: seq<Stage>, stages': seq<Stage>, c: CallId, x: nat)
    requires |slots| == |holders| == cfg.inflight && FieldsInv(cfg.inflight, calls, holders, slots)
    requires CallsInv(cfg, calls)
    requires WorkersInv(cfg, calls, slots, p, stages) && Others(calls, calls', c)
    requires OtherSlots(holders, slots, slots', c, x)
    requires |stages| == |stages'|
    requires forall w: nat :: w < |stages'| ==>
               || (WorkerKept(p, q, stages, stages', w) && Untouched(calls[c], calls'[c], AtClient(w))
                   && (calls[c].token == AtClient(w) ==> slots'[x].actualLen == slots[x].actualLen))
               || WorkerOk(cfg, calls', slots', q, w, stages'[w])
    ensures WorkersInv(cfg, calls', slots', q, stages')
  {
    hide Region, IsFrame;
    forall w: nat | w < |stages'|
      ensures WorkerOk(cfg, calls', slots', q, w, stages'[w])
    {
      assert WorkerOk(cfg, calls, slots, p, w, stages[w]);
      match ClientOrigin(stages[w]) {
        case None =>
        case Some(d) =>
          if d < |calls| && d != c {
            assert FieldsOk(cfg.inflight, calls[d], d, holders, slots) && PhaseInv(cfg, calls[d]);
          }
      }
    }
  }

  lemma HoldersFrame(calls: seq<Call>, calls': seq<Call>, holders: seq<Option<CallId>>, free: multiset<nat>, c: CallId)
    requires SlotsInv(calls, holders, free) && Others(calls, calls', c)
    requires Holds(calls[c].phase) ==> Holds(calls'[c].phase) && calls'[c].slot == calls[c].slot
    ensures SlotsInv(calls', holders, free)
  {
    hide Region, IsFrame;
    forall x: nat | x < |holders|
      ensures HolderOk(calls', x, holders[x], free[x])
    {
      assert HolderOk(calls, x, holders[x], free[x]);
    }
  }

  lemma TokensFrame(s: State, t: State, c: CallId)
    requires TokensInv(s.calls, s.requests, s.responses, s.serverWorkers, s.workers) && Others(s.calls, t.calls, c)
    requires TokenOk(t.calls[c].token, c, t.requests, t.responses, t.serverWorkers, t.workers)
    requires |s.serverWorkers| == |t.serverWorkers| && |s.workers| == |t.workers|
    requires forall tag :: tag in s.requests && s.requests[tag].origin != c ==>
               tag in t.requests && t.requests[tag] == s.requests[tag]
    requires forall tag :: tag in s.responses && s.responses[tag].origin != c ==>
               tag in t.responses && t.responses[tag] == s.responses[tag]
    requires forall w: nat :: w < |s.serverWorkers| ==>
               t.serverWorkers[w] == s.serverWorkers[w] || ServerOrigin(s.serverWorkers[w]) in {None, Some(c)}
    requires forall w: nat :: w < |s.workers| ==>
               t.workers[w] == s.workers[w] || ClientOrigin(s.workers[w]) in {None, Some(c)}
    ensures TokensInv(t.calls, t.requests, t.responses, t.serverWorkers, t.workers)
  {
    hide Region, IsFrame;
    forall d: CallId | d < |t.calls|
      ensures TokenOk(t.calls[d].token, d, t.requests, t.responses, t.serverWorkers, t.workers)
    {
      assert TokenOk(s.calls[d].token, d, s.requests, s.responses, s.serverWorkers, s.workers);
    }
  }

  /** A step in which call c moves on without its token moving, touching only its own slot and send region. */
  lemma LocalStep(cfg: Config, s: State, t: State, c: CallId)
    requires Inv(cfg, s) && Others(s.calls, t.calls, c)
    requires t == s.(calls := t.calls,
                     client := s.client.(nextSeq := t.client.nextSeq, slots := t.client.slots,
                                         sendPool := t.client.sendPool))
    requires var a, b := s.calls[c], t.calls[c];
             && a.token == b.token && a.slot == b.slot && Holds(a.phase) && Holds(b.phase)
             && (UnderWay(a.token) ==> SameExchange(a, b))
             && HistoryInv(cfg, b) && PhaseInv(cfg, b)
             && OtherSlots(s.holders, s.client.slots, t.client.slots, c, a.slot)
             && t.client.slots[a.slot].actualLen == s.client.slots[a.slot].actualLen
             && FieldsOk(cfg.inflight, b, c, s.holders, t.client.slots)
             && SendRegionOk(cfg.endian, b, t.client.sendPool)
             && |t.client.sendPool| == |s.client.sendPool|
             && OtherRegions(s.client.sendPool, t.client.sendPool, REQ_REGION, a.slot)
    ensures Inv(cfg, t)
  {
    hide Region, IsFrame;
    var x := s.calls[c].slot;
    FieldsFrame(cfg.inflight, s.calls, t.calls, s.holders, s.holders, s.client.slots, t.client.slots, c, x);
    SendRegionsFrame(cfg, s.calls, t.calls, s.holders, s.client.slots, s.client.sendPool, t.client.sendPool, c, x);
    RequestsFrame(cfg.endian, s.calls, t.calls, s.requests, s.requests, c);
    ResponsesFrame(cfg, s.calls, t.calls, s.responses, s.responses, c);
    ServerFrame(cfg, s.calls, t.calls, s.server, s.server, s.serverWorkers, s.serverWorkers, c);
    WorkersFrame(cfg, s.calls, t.calls, s.holders, s.client.slots, t.client.slots, s.client.recvPool,
                 s.client.recvPool, s.workers, s.workers, c, x);
    HoldersFrame(s.calls, t.calls, s.holders, s.client.free, c);
    TokensFrame(s, t, c);
    assert CallsInv(cfg, t.calls);
  }

  // ---------------------------------------------------------------- frames in regions

  lemma FrameInRegion(e: Endian, r: Data, id: nat, payload: Data)
    requires HEADER + |payload| <= |r| && id < TWO_64 && |payload| < TWO_32
    requires r[..8] == ToHost(e, 8, id) && r[8..12] == ToHost(e, 4, |payload|)
    requires r[HEADER..HEADER + |payload|] == payload
    ensures IsFrame(e, r[..HEADER + |payload|], id, payload)
  {
    Pow256Values();
    FromToHost(e, 8, id);
    FromToHost(e, 4, |payload|);
    var b := r[..HEADER + |payload|];
    assert b[..8] == r[..8] && b[8..12] == r[8..12];
  }

  lemma PrefixOfSlice(r: Data, lo: nat, hi: nat, n: nat)
    requires lo <= hi <= |r| && n <= hi - lo
    ensures r[lo..lo + n] == r[lo..hi][..n]
  {
  }

  /** Reading a frame from the start of a region. */
  lemma RegionFrame(e: Endian, r: Data, len: nat, id: nat, payload: Data)
    requires len <= |r| && IsFrame(e, r[..len], id, payload)
    ensures len == HEADER + |payload|
    ensures HeaderId(e, r) == id && HeaderLength(e, r) == |payload|
    ensures r[HEADER..len] == payload
    ensures forall n: nat :: n <= |payload| ==> r[HEADER..HEADER + n] == payload[..n]
  {
    var b := r[..len];
    assert b[..8] == r[..8] && b[8..12] == r[8..12] && b[HEADER..] == r[HEADER..len];
    forall n: nat | n <= |payload|
      ensures r[HEADER..HEADER + n] == payload[..n]
    {
      PrefixOfSlice(r, HEADER, len, n);
    }
  }

  /** What the client and the server store is the frame they mean, and only in the region they mean. */
  lemma PutFrameStores(e: Endian, pool: Data, n: nat, size: nat, i: nat, id: nat, payload: Data)
    requires i < n && |pool| == n * size && HEADER + |payload| <= size && id < TWO_64 && |payload| < TWO_32
    ensures var q := PutFrame(e, pool, size, i, id, payload);
            && |q| == |pool| && |Region(q, size, i)| == size
            && IsFrame(e, Region(q, size, i)[..HEADER + |payload|], id, payload)
            && OtherRegions(pool, q, size, i)
  {
    var p1 := Put(pool, size, i, 0, ToHost(e, 8, id));
    var p2 := Put(p1, size, i, 8, ToHost(e, 4, |payload|));
    var p3 := Put(p2, size, i, HEADER, payload);
    PutRegion(pool, n, size, i, 0, ToHost(e, 8, id));
    PutRegion(p1, n, size, i, 8, ToHost(e, 4, |payload|));
    PutRegion(p2, n, size, i, HEADER, payload);
    var r := Region(p3, size, i);
    assert r[..8] == ToHost(e, 8, id);
    assert r[8..12] == ToHost(e, 4, |payload|);
    assert r[HEADER..HEADER + |payload|] == payload;
    FrameInRegion(e, r, id, payload);
  }

  // ---------------------------------------------------------------- the client's caller

  lemma CallAt(cfg: Config, s: State, c: CallId)
    requires Inv(cfg, s) && c < |s.calls|
    ensures HistoryInv(cfg, s.calls[c]) && PhaseInv(cfg, s.calls[c])
    ensures FieldsOk(cfg.inflight, s.calls[c], c, s.holders, s.client.slots)
    ensures SendRegionOk(cfg.endian, s.calls[c], s.client.sendPool)
    ensures TokenOk(s.calls[c].token, c, s.requests, s.responses, s.serverWorkers, s.workers)
  {
    hide Region, IsFrame;
  }

  lemma HolderAt(cfg: Config, s: State, x: nat)
    requires Inv(cfg, s) && x < cfg.inflight
    ensures x < |s.holders| && HolderOk(s.calls, x, s.holders[x], s.client.free[x])
  {
  }

  lemma RequestAt(cfg: Config, s: State, tag: Tag)
    requires Inv(cfg, s) && tag in s.requests
    ensures RequestOk(cfg.endian, s.calls, tag, s.requests[tag])
  {
    hide Region, IsFrame;
  }

  lemma ResponseAt(cfg: Config, s: State, tag: Tag)
    requires Inv(cfg, s) && tag in s.responses
    ensures ResponseOk(cfg, s.calls, tag, s.responses[tag])
    ensures |s.responses[tag].data| == AnswerLength(s.calls[s.responses[tag].origin])
  {
  }

  lemma NumberInv(cfg: Config, s: State, c: CallId)
    requires Inv(cfg, s) && CallerEnabled(s, Number(c))
    ensures Inv(cfg, DoNumber(s, c))
  {
    hide CallsInv, FieldsInv, SendRegionsInv, TokensInv, SlotsInv, RequestsInv, ResponsesInv, ServerInv, WorkersInv;
    hide Region, IsFrame;
    CallAt(cfg, s, c);
    var n, slot := s.client.nextSeq, s.calls[c].slot;
    RequestId.SlotOfEncode(n, slot);
    RequestId.EncodeShape(n, slot);
    LocalStep(cfg, s, DoNumber(s, c), c);
  }

  lemma InitInv(cfg: Config, s: State, c: CallId)
    requires Inv(cfg, s) && CallerEnabled(s, Init(c))
    ensures Inv(cfg, DoInit(s, c))
  {
    hide CallsInv, FieldsInv, SendRegionsInv, TokensInv, SlotsInv, RequestsInv, ResponsesInv, ServerInv, WorkersInv;
    hide Region, IsFrame;
    CallAt(cfg, s, c);
    LocalStep(cfg, s, DoInit(s, c), c);
  }

  lemma FillInv(cfg: Config, s: State, c: CallId)
    requires Inv(cfg, s) && CallerEnabled(s, Fill(c))
    ensures Inv(cfg, DoFill(cfg.endian, s, c))
  {
    hide CallsInv, FieldsInv, SendRegionsInv, TokensInv, SlotsInv, RequestsInv, ResponsesInv, ServerInv, WorkersInv;
    hide Region, IsFrame;
    CallAt(cfg, s, c);
    var call := s.calls[c];
    PutFrameStores(cfg.endian, s.client.sendPool, cfg.inflight, REQ_REGION, call.slot, call.id, call.request);
    LocalStep(cfg, s, DoFill(cfg.endian, s, c), c);
  }

  /** Steps that change nothing but the phase. */
  lemma PhaseStep(cfg: Config, s: State, c: CallId, phase: Phase)
    requires Inv(cfg, s) && c < |s.calls| && Holds(s.calls[c].phase) && !s.calls[c].phase.Waiting? && Holds(phase)
    requires PhaseInv(cfg, s.calls[c].(phase := phase))
    requires FieldsOk(cfg.inflight, s.calls[c].(phase := phase), c, s.holders, s.client.slots)
    requires SendRegionOk(cfg.endian, s.calls[c].(phase := phase), s.client.sendPool)
    ensures Inv(cfg, SetPhase(s, c, phase))
  {
    hide CallsInv, FieldsInv, SendRegionsInv, TokensInv, SlotsInv, RequestsInv, ResponsesInv, ServerInv, WorkersInv;
    hide Region, IsFrame;
    CallAt(cfg, s, c);
    LocalStep(cfg, s, SetPhase(s, c, phase), c);
  }

  /** The steps of a call that change its phase only. */
  predicate PhaseOnly(step: CallerStep) {
    step.PostSend? || step.PostSendFail? || step.AckSend? || step.ErrSend? || step.DispatchSend? || step.ReadLength?
  }

  lemma OnlyPhase(cfg: Config, s: State, step: CallerStep)
    requires CallerEnabled(s, step) && PhaseOnly(step)
    ensures step.c < |s.calls| && step.c < |ApplyCaller(cfg, s, step).calls|
    ensures ApplyCaller(cfg, s, step) == SetPhase(s, step.c, ApplyCaller(cfg, s, step).calls[step.c].phase)
  {
  }

  lemma PhaseOnlyInv(cfg: Config, s: State, step: CallerStep)
    requires Inv(cfg, s) && CallerEnabled(s, step) && PhaseOnly(step)
    ensures Inv(cfg, ApplyCaller(cfg, s, step))
  {
    hide Inv, Region, IsFrame;
    hide DoInvoke, DoDequeue, DoNumber, DoInit, DoFill, DoTransmit, DoPublish, DoReturnSlot;
    OnlyPhase(cfg, s, step);
    CallAt(cfg, s, step.c);
    PhaseStep(cfg, s, step.c, ApplyCaller(cfg, s, step).calls[step.c].phase);
  }

  lemma PublishInv(cfg: Config, s: State, c: CallId)
    requires Inv(cfg, s) && CallerEnabled(s, Publish(c))
    ensures Inv(cfg, DoPublish(s, c))
  {
    hide CallsInv, FieldsInv, SendRegionsInv, TokensInv, SlotsInv, RequestsInv, ResponsesInv, ServerInv, WorkersInv;
    hide Region, IsFrame;
    CallAt(cfg, s, c);
    LocalStep(cfg, s, DoPublish(s, c), c);
  }

  /** A new call disturbs nobody: its token is unsent and it holds no slot. */
  lemma InvokeInv(cfg: Config, s: State, request: Data, buffer: Data)
    requires Inv(cfg, s) && CallerEnabled(s, Invoke(request, buffer))
    ensures Inv(cfg, DoInvoke(s, request, buffer))
  {
    hide Region, IsFrame;
    var t := DoInvoke(s, request, buffer);
    assert RequestsInv(cfg.endian, t.calls, t.requests) && ResponsesInv(cfg, t.calls, t.responses);
    InvokeWorkers(cfg, s.calls, t.calls, s.server, s.serverWorkers, s.client, s.workers);
  }

  lemma InvokeWorkers(cfg: Config, calls: seq<Call>, calls': seq<Call>, m: ServerMem, serverStages: seq<ServerStage>,
                      client: ClientMem, stages: seq<Stage>)
    requires calls <= calls'
    requires ServerInv(cfg, calls, m, serverStages) && WorkersInv(cfg, calls, client.slots, client.recvPool, stages)
    ensures ServerInv(cfg, calls', m, serverStages) && WorkersInv(cfg, calls', client.slots, client.recvPool, stages)
  {
    hide Region, IsFrame;
    assert forall d: CallId :: d < |calls| ==> calls'[d] == calls[d];
    forall w: nat | w < |serverStages|
      ensures ServerWorkerOk(cfg, calls', m, w, serverStages[w])
    {
      assert ServerWorkerOk(cfg, calls, m, w, serverStages[w]);
    }
    forall w: nat | w < |stages|
      ensures WorkerOk(cfg, calls', client.slots, client.recvPool, w, stages[w])
    {
      assert WorkerOk(cfg, calls, client.slots, client.recvPool, w, stages[w]);
    }
  }

  /** Calls outside any exchange: the wires and the workers do not know call c, before or after. */
  lemma QuietStep(cfg: Config, s: State, t: State, c: CallId)
    requires Inv(cfg, s) && Others(s.calls, t.calls, c)
    requires t == s.(calls := t.calls, holders := t.holders, client := s.client.(free := t.client.free))
    requires var a, b := s.calls[c], t.calls[c];
             && a.token == b.token && !UnderWay(a.token) && HistoryInv(cfg, b) && PhaseInv(cfg, b)
             && b.slot < cfg.inflight == |t.holders| && t.holders == s.holders[b.slot := t.holders[b.slot]]
             && (s.holders[b.slot] == None || s.holders[b.slot] == Some(c))
             && FieldsOk(cfg.inflight, b, c, t.holders, s.client.slots)
             && SendRegionOk(cfg.endian, b, s.client.sendPool)
    requires SlotsInv(t.calls, t.holders, t.client.free)
    ensures Inv(cfg, t)
  {
    hide Region, IsFrame;
    var x := t.calls[c].slot;
    FieldsFrame(cfg.inflight, s.calls, t.calls, s.holders, t.holders, s.client.slots, s.client.slots, c, x);
    SendRegionsFrame(cfg, s.calls, t.calls, s.holders, s.client.slots, s.client.sendPool, s.client.sendPool, c, x);
    RequestsFrame(cfg.endian, s.calls, t.calls, s.requests, s.requests, c);
    ResponsesFrame(cfg, s.calls, t.calls, s.responses, s.responses, c);
    ServerFrame(cfg, s.calls, t.calls, s.server, s.server, s.serverWorkers, s.serverWorkers, c);
    WorkersFrame(cfg, s.calls, t.calls, s.holders, s.client.slots, s.client.slots, s.client.recvPool,
                 s.client.recvPool, s.workers, s.workers, c, x);
    TokensFrame(s, t, c);
    assert CallsInv(cfg, t.calls);
  }

  lemma DequeueInv(cfg: Config, s: State, c: CallId, slot: nat)
    requires Inv(cfg, s) && CallerEnabled(s, Dequeue(c, slot))
    ensures Inv(cfg, DoDequeue(s, c, slot))
  {
    hide Region, IsFrame;
    CallAt(cfg, s, c);
    var t := DoDequeue(s, c, slot);
    assert HolderOk(s.calls, slot, s.holders[slot], s.client.free[slot]);
    forall x: nat | x < |t.holders|
      ensures HolderOk(t.calls, x, t.holders[x], t.client.free[x])
    {
      assert HolderOk(s.calls, x, s.holders[x], s.client.free[x]);
    }
    QuietStep(cfg, s, t, c);
  }

  lemma ReturnSlotInv(cfg: Config, s: State, c: CallId)
    requires Inv(cfg, s) && CallerEnabled(s, ReturnSlot(c))
    ensures Inv(cfg, DoReturnSlot(s, c))
  {
    hide Region, IsFrame;
    CallAt(cfg, s, c);
    var t := DoReturnSlot(s, c);
    forall x: nat | x < |t.holders|
      ensures HolderOk(t.calls, x, t.holders[x], t.client.free[x])
    {
      assert HolderOk(s.calls, x, s.holders[x], s.client.free[x]);
    }
    QuietStep(cfg, s, t, c);
  }

  // ---------------------------------------------------------------- worker steps that move no token

  lemma WorkerAt(cfg: Config, s: State, w: nat)
    requires Inv(cfg, s) && w < |s.workers|
    ensures WorkerOk(cfg, s.calls, s.client.slots, s.client.recvPool, w, s.workers[w])
  {
    hide Region, IsFrame;
  }

  lemma ServerWorkerAt(cfg: Config, s: State, w: nat)
    requires Inv(cfg, s) && w < |s.serverWorkers|
    ensures ServerWorkerOk(cfg, s.calls, s.server, w, s.serverWorkers[w])
  {
    hide Region, IsFrame;
  }

  lemma StageTokens(s: State, t: State)
    requires TokensInv(s.calls, s.requests, s.responses, s.serverWorkers, s.workers)
    requires t == s.(serverWorkers := t.serverWorkers, workers := t.workers)
    requires |t.workers| == |s.workers|
    requires forall w: nat :: w < |s.workers| ==> ClientOrigin(t.workers[w]) == ClientOrigin(s.workers[w])
    requires |t.serverWorkers| == |s.serverWorkers|
    requires forall w: nat :: w < |s.serverWorkers| ==>
               ServerOrigin(t.serverWorkers[w]) == ServerOrigin(s.serverWorkers[w])
    ensures TokensInv(t.calls, t.requests, t.responses, t.serverWorkers, t.workers)
  {
    hide Region, IsFrame;
    forall d: CallId | d < |t.calls|
      ensures TokenOk(t.calls[d].token, d, t.requests, t.responses, t.serverWorkers, t.workers)
    {
      assert TokenOk(s.calls[d].token, d, s.requests, s.responses, s.serverWorkers, s.workers);
    }
  }

  lemma StageStep(cfg: Config, s: State, w: nat, stage: Stage)
    requires Inv(cfg, s) && w < |s.workers| && ClientOrigin(stage) == ClientOrigin(s.workers[w])
    requires WorkerOk(cfg, s.calls, s.client.slots, s.client.recvPool, w, stage)
    ensures Inv(cfg, SetStage(s, w, stage))
  {
    hide Region, IsFrame;
    var t := SetStage(s, w, stage);
    StageTokens(s, t);
    assert WorkersInv(cfg, t.calls, t.client.slots, t.client.recvPool, t.workers);
  }

  lemma ServerStageStep(cfg: Config, s: State, w: nat, stage: ServerStage)
    requires Inv(cfg, s) && w < |s.serverWorkers| && ServerOrigin(stage) == ServerOrigin(s.serverWorkers[w])
    requires ServerWorkerOk(cfg, s.calls, s.server, w, stage)
    ensures Inv(cfg, SetServerStage(s, w, stage))
  {
    hide Region, IsFrame;
    var t := SetServerStage(s, w, stage);
    StageTokens(s, t);
    assert ServerInv(cfg, t.calls, t.server, t.serverWorkers);
  }

  /** The header a receive worker reads names the slot of the message's own call. */
  lemma MatchFinds(cfg: Config, s: State, w: nat)
    requires Inv(cfg, s) && w < |s.workers| && s.workers[w].Delivered?
    ensures var c := s.workers[w].origin;
            && c < |s.calls|
              && MatchHeader(cfg.endian, cfg.inflight, s.client, w, s.workers[w].nbytes) == Match(s.calls[c].slot)
            && s.workers[w].nbytes == HEADER + |s.calls[c].handled[0]|
  {
    hide CallsInv, FieldsInv, SendRegionsInv, TokensInv, SlotsInv, RequestsInv, ResponsesInv, ServerInv, WorkersInv;
    hide Region, IsFrame;
    WorkerAt(cfg, s, w);
    var c, nbytes := s.workers[w].origin, s.workers[w].nbytes;
    CallAt(cfg, s, c);
    RegionFrame(cfg.endian, Region(s.client.recvPool, RESP_REGION, w), nbytes, s.calls[c].id, s.calls[c].handled[0]);
  }

  lemma MatchInv(cfg: Config, s: State, w: nat)
    requires Inv(cfg, s) && ReceiverEnabled(s, MatchStep(w))
    ensures Inv(cfg, DoMatch(cfg, s, w))
  {
    hide CallsInv, FieldsInv, SendRegionsInv, TokensInv, SlotsInv, RequestsInv, ResponsesInv, ServerInv, WorkersInv;
    hide Region, IsFrame;
    MatchFinds(cfg, s, w);
    WorkerAt(cfg, s, w);
    var c := s.workers[w].origin;
    StageStep(cfg, s, w, Matched(s.calls[c].slot, c));
  }

  /** The handle a receive worker loads is that of the very call whose response it carries. */
  lemma LoadFinds(cfg: Config, s: State, w: nat)
    requires Inv(cfg, s) && ReceiverEnabled(s, LoadWaiter(w))
    ensures var c := s.workers[w].origin;
            && InPhase(s, c, Waiting) && s.client.slots[s.workers[w].slot].waiter == Some(c)
  {
    hide CallsInv, FieldsInv, SendRegionsInv, TokensInv, SlotsInv, RequestsInv, ResponsesInv, ServerInv, WorkersInv;
    hide Region, IsFrame;
    WorkerAt(cfg, s, w);
    CallAt(cfg, s, s.workers[w].origin);
  }

  lemma LoadWaiterInv(cfg: Config, s: State, w: nat)
    requires Inv(cfg, s) && ReceiverEnabled(s, LoadWaiter(w))
    ensures Inv(cfg, DoLoadWaiter(s, w))
  {
    hide CallsInv, FieldsInv, SendRegionsInv, TokensInv, SlotsInv, RequestsInv, ResponsesInv, ServerInv, WorkersInv;
    hide Region, IsFrame;
    LoadFinds(cfg, s, w);
    WorkerAt(cfg, s, w);
    var c := s.workers[w].origin;
    StageStep(cfg, s, w, Loaded(c, c));
  }

  /** The steps of a receive worker that change its stage only. */
  lemma StageOnlyInv(cfg: Config, s: State, step: ReceiverStep)
    requires Inv(cfg, s) && ReceiverEnabled(s, step) && (step.PostRecv? || step.FailRecv? || step.DispatchRecv?)
    ensures Inv(cfg, ApplyReceiver(cfg, s, step))
  {
    hide CallsInv, FieldsInv, SendRegionsInv, TokensInv, SlotsInv, RequestsInv, ResponsesInv, ServerInv, WorkersInv;
    hide Region, IsFrame;
    WorkerAt(cfg, s, step.w);
    StageStep(cfg, s, step.w, ApplyReceiver(cfg, s, step).workers[step.w]);
  }

  /** The steps of a server worker that change its stage only. */
  predicate ServerStageOnly(step: ServerStep) {
    step.ServerPostRecv? || step.ServerFailRecv? || step.ServerPostSend? || step.ServerAckSend?
  }

  lemma ServerStageOnlyInv(cfg: Config, s: State, step: ServerStep)
    requires Inv(cfg, s) && ServerEnabled(cfg, s, step) && ServerStageOnly(step)
    ensures Inv(cfg, ApplyServer(cfg, s, step))
  {
    hide CallsInv, FieldsInv, SendRegionsInv, TokensInv, SlotsInv, RequestsInv, ResponsesInv, ServerInv, WorkersInv;
    hide Region, IsFrame;
    ServerWorkerAt(cfg, s, step.w);
    ServerStageStep(cfg, s, step.w, ApplyServer(cfg, s, step).serverWorkers[step.w]);
  }

  // ---------------------------------------------------------------- steps that move a token

  /**
   * A step that moves the token of call c, or changes its answer or buffer while a worker has it.
   * Slot holders and send regions stay. Of the bags and the workers, those that neither had the
   * token nor changed keep their part of the invariant.
   */
  lemma TokenStep(cfg: Config, s: State, t: State, c: CallId)
    requires Inv(cfg, s) && Shape(cfg, t) && Others(s.calls, t.calls, c)
    requires t.holders == s.holders
    requires t.client == s.client.(slots := t.client.slots, recvPool := t.client.recvPool)
    requires var a, b := s.calls[c], t.calls[c];
             && Holds(a.phase) && Holds(b.phase)
             && a.slot == b.slot && HistoryInv(cfg, b) && PhaseInv(cfg, b)
             && OtherSlots(s.holders, s.client.slots, t.client.slots, c, a.slot)
             && FieldsOk(cfg.inflight, b, c, s.holders, t.client.slots)
             && SendRegionOk(cfg.endian, b, s.client.sendPool)
    requires var token := s.calls[c].token;
             && ((!token.OnRequestWire? && t.requests == s.requests) || RequestsInv(cfg.endian, t.calls, t.requests))
             && ((!token.OnResponseWire? && t.responses == s.responses) || ResponsesInv(cfg, t.calls, t.responses))
             && ((!token.AtServer? && t.server == s.server && t.serverWorkers == s.serverWorkers)
                 || ServerInv(cfg, t.calls, t.server, t.serverWorkers))
             && ((!token.AtClient? && t.client == s.client && t.workers == s.workers)
                 || WorkersInv(cfg, t.calls, t.client.slots, t.client.recvPool, t.workers))
    requires TokensInv(t.calls, t.requests, t.responses, t.serverWorkers, t.workers)
    ensures Inv(cfg, t)
  {
    hide Region, IsFrame;
    var x := s.calls[c].slot;
    FieldsFrame(cfg.inflight, s.calls, t.calls, s.holders, s.holders, s.client.slots, t.client.slots, c, x);
    SendRegionsFrame(cfg, s.calls, t.calls, s.holders, s.client.slots, s.client.sendPool, s.client.sendPool, c, x);
    HoldersFrame(s.calls, t.calls, s.holders, s.client.free, c);
    if !RequestsInv(cfg.endian, t.calls, t.requests) {
      RequestsFrame(cfg.endian, s.calls, t.calls, s.requests, s.requests, c);
    }
    if !ResponsesInv(cfg, t.calls, t.responses) {
      ResponsesFrame(cfg, s.calls, t.calls, s.responses, s.responses, c);
    }
    if !ServerInv(cfg, t.calls, t.server, t.serverWorkers) {
      ServerFrame(cfg, s.calls, t.calls, s.server, s.server, s.serverWorkers, s.serverWorkers, c);
    }
    if !WorkersInv(cfg, t.calls, t.client.slots, t.client.recvPool, t.workers) {
      WorkersFrame(cfg, s.calls, t.calls, s.holders, s.client.slots, s.client.slots, s.client.recvPool,
                   s.client.recvPool, s.workers, s.workers, c, x);
    }
    assert CallsInv(cfg, t.calls);
  }

  lemma TransmitInv(cfg: Config, s: State, c: CallId, tag: Tag)
    requires Inv(cfg, s) && CallerEnabled(s, Transmit(c, tag))
    ensures Inv(cfg, DoTransmit(s, c, tag))
  {
    hide CallsInv, FieldsInv, SendRegionsInv, TokensInv, SlotsInv, RequestsInv, ResponsesInv, ServerInv, WorkersInv;
    hide Region, IsFrame;
    CallAt(cfg, s, c);
    var t := DoTransmit(s, c, tag);
    var x := s.calls[c].slot;
    RequestsFrame(cfg.endian, s.calls, t.calls, s.requests, t.requests, c);
    TokensFrame(s, t, c);
    TokenStep(cfg, s, t, c);
  }

  /** A message written at the start of a region can be read back from it, and no other region changes. */
  lemma PutMessage(pool: Data, n: nat, size: nat, w: nat, data: Data)
    requires w < n && |pool| == n * size && |data| <= size
    ensures var q := Put(pool, size, w, 0, data);
            && |q| == |pool| && |Region(q, size, w)| == size && Region(q, size, w)[..|data|] == data
            && OtherRegions(pool, q, size, w)
  {
    PutRegion(pool, n, size, w, 0, data);
  }

  lemma ServerDeliverInv(cfg: Config, s: State, tag: Tag, w: nat)
    requires Inv(cfg, s) && ServerEnabled(cfg, s, ServerDeliver(tag, w))
    ensures Inv(cfg, DoServerDeliver(s, tag, w))
  {
    hide CallsInv, FieldsInv, SendRegionsInv, TokensInv, SlotsInv, RequestsInv, ResponsesInv, ServerInv, WorkersInv;
    hide Region, IsFrame;
    var m := s.requests[tag];
    var c := m.origin;
    RequestAt(cfg, s, tag);
    CallAt(cfg, s, c);
    ServerWorkerAt(cfg, s, w);
    var t := DoServerDeliver(s, tag, w);
    PutMessage(s.server.recvPool, cfg.depth, REQ_REGION, w, m.data);
    RequestsFrame(cfg.endian, s.calls, t.calls, s.requests, t.requests, c);
    ServerFrame(cfg, s.calls, t.calls, s.server, t.server, s.serverWorkers, t.serverWorkers, c);
    RequestOrigins(cfg, s, tag);
    TokensFrame(s, t, c);
    TokenStep(cfg, s, t, c);
  }

  /** No two messages of the request bag belong to one call. */
  lemma RequestOrigins(cfg: Config, s: State, tag: Tag)
    requires Inv(cfg, s) && tag in s.requests
    ensures forall other :: other in s.requests && s.requests[other].origin == s.requests[tag].origin ==> other == tag
  {
    hide Region, IsFrame;
    assert RequestOk(cfg.endian, s.calls, tag, s.requests[tag]);
    forall other | other in s.requests && s.requests[other].origin == s.requests[tag].origin
      ensures other == tag
    {
      assert RequestOk(cfg.endian, s.calls, other, s.requests[other]);
    }
  }

  lemma ResponseOrigins(cfg: Config, s: State, tag: Tag)
    requires Inv(cfg, s) && tag in s.responses
    ensures forall other :: other in s.responses && s.responses[other].origin == s.responses[tag].origin ==>
              other == tag
  {
    hide Region, IsFrame;
    assert ResponseOk(cfg, s.calls, tag, s.responses[tag]);
    forall other | other in s.responses && s.responses[other].origin == s.responses[tag].origin
      ensures other == tag
    {
      assert ResponseOk(cfg, s.calls, other, s.responses[other]);
    }
  }

  lemma DeliverInv(cfg: Config, s: State, tag: Tag, w: nat)
    requires Inv(cfg, s) && ReceiverEnabled(s, Deliver(tag, w))
    ensures Inv(cfg, DoDeliver(s, tag, w))
  {
    hide CallsInv, FieldsInv, SendRegionsInv, TokensInv, SlotsInv, RequestsInv, ResponsesInv, ServerInv, WorkersInv;
    hide Region, IsFrame;
    var m := s.responses[tag];
    var c := m.origin;
    ResponseAt(cfg, s, tag);
    CallAt(cfg, s, c);
    WorkerAt(cfg, s, w);
    var t := DoDeliver(s, tag, w);
    PutMessage(s.client.recvPool, cfg.inflight, RESP_REGION, w, m.data);
    ResponsesFrame(cfg, s.calls, t.calls, s.responses, t.responses, c);
    WorkersFrame(cfg, s.calls, t.calls, s.holders, s.client.slots, s.client.slots, s.client.recvPool,
                 t.client.recvPool, s.workers, t.workers, c, s.calls[c].slot);
    ResponseOrigins(cfg, s, tag);
    TokensFrame(s, t, c);
    TokenStep(cfg, s, t, c);
  }

  lemma ServerTransmitInv(cfg: Config, s: State, w: nat, tag: Tag)
    requires Inv(cfg, s) && ServerEnabled(cfg, s, ServerTransmit(w, tag))
    ensures Inv(cfg, DoServerTransmit(s, w, tag))
  {
    hide CallsInv, FieldsInv, SendRegionsInv, TokensInv, SlotsInv, RequestsInv, ResponsesInv, ServerInv, WorkersInv;
    hide Region, IsFrame;
    ServerWorkerAt(cfg, s, w);
    var c := s.serverWorkers[w].origin;
    CallAt(cfg, s, c);
    var t := DoServerTransmit(s, w, tag);
    ResponsesFrame(cfg, s.calls, t.calls, s.responses, t.responses, c);
    ServerFrame(cfg, s.calls, t.calls, s.server, s.server, s.serverWorkers, t.serverWorkers, c);
    TokensFrame(s, t, c);
    TokenStep(cfg, s, t, c);
  }

  /** A reply that could not be sent: the call will not be answered. */
  lemma LoseReplyInv(cfg: Config, s: State, w: nat)
    requires Inv(cfg, s) && (ServerEnabled(cfg, s, ServerPostSendFail(w)) || ServerEnabled(cfg, s, ServerErrSend(w)))
    ensures Inv(cfg, SetToken(SetServerStage(s, w, ServerIdle), s.serverWorkers[w].origin, Lost))
  {
    hide CallsInv, FieldsInv, SendRegionsInv, TokensInv, SlotsInv, RequestsInv, ResponsesInv, ServerInv, WorkersInv;
    hide Region, IsFrame;
    ServerWorkerAt(cfg, s, w);
    var c := s.serverWorkers[w].origin;
    CallAt(cfg, s, c);
    var t := SetToken(SetServerStage(s, w, ServerIdle), c, Lost);
    ServerFrame(cfg, s.calls, t.calls, s.server, s.server, s.serverWorkers, t.serverWorkers, c);
    TokensFrame(s, t, c);
    TokenStep(cfg, s, t, c);
  }

  /** The handler sees the request of the call, and the reply region then holds its answer under the call's id. */
  lemma HandleStores(cfg: Config, s: State, w: nat, scribble: Data, reply: Data, n: nat)
    requires Inv(cfg, s) && ServerEnabled(cfg, s, Handle(w, scribble, reply, n))
    ensures var stage := s.serverWorkers[w];
            var region := Region(s.server.recvPool, REQ_REGION, w);
            && stage.origin < |s.calls| && HEADER <= stage.nbytes <= |region|
            && HeaderLength(cfg.endian, region) + HEADER == stage.nbytes
            && RequestPayload(s, w) == s.calls[stage.origin].request
            && var m := HandleRequest(cfg.endian, s.server, w, scribble, reply, n);
               && |m.recvPool| == |s.server.recvPool| && |m.sendPool| == |s.server.sendPool|
               && |Region(m.sendPool, RESP_REGION, w)| == RESP_REGION
               && IsFrame(cfg.endian, Region(m.sendPool, RESP_REGION, w)[..HEADER + n], s.calls[stage.origin].id,
                          reply[..n])
               && Region(m.recvPool, REQ_REGION, w) == Overlay(region, HEADER, scribble)
               && Region(m.sendPool, RESP_REGION, w)[HEADER..] == reply
               && OtherRegions(s.server.recvPool, m.recvPool, REQ_REGION, w)
               && OtherRegions(s.server.sendPool, m.sendPool, RESP_REGION, w)
  {
    hide CallsInv, FieldsInv, SendRegionsInv, TokensInv, SlotsInv, RequestsInv, ResponsesInv, ServerInv, WorkersInv;
    ServerWorkerAt(cfg, s, w);
    var e := cfg.endian;
    var c, nbytes := s.serverWorkers[w].origin, s.serverWorkers[w].nbytes;
    CallAt(cfg, s, c);
    var region := Region(s.server.recvPool, REQ_REGION, w);
    var id := s.calls[c].id;
    RegionFrame(e, region, nbytes, id, s.calls[c].request);
    RegionInBounds(cfg.depth, REQ_REGION, w);
    PutRegion(s.server.recvPool, cfg.depth, REQ_REGION, w, HEADER, scribble);
    var recv := Put(s.server.recvPool, REQ_REGION, w, HEADER, scribble);
    assert Region(recv, REQ_REGION, w)[..8] == region[..8];
    ReplyStores(e, s.server.sendPool, cfg.depth, w, id, reply, n);
  }

  lemma ReplyStores(e: Endian, pool: Data, depth: nat, w: nat, id: nat, reply: Data, n: nat)
    requires w < depth && |pool| == depth * RESP_REGION && |reply| == RECV_MSG && n <= RECV_MSG && id < TWO_64
    ensures var p1 := Put(pool, RESP_REGION, w, HEADER, reply);
            var p2 := Put(p1, RESP_REGION, w, 0, ToHost(e, 8, id));
            var p3 := Put(p2, RESP_REGION, w, 8, ToHost(e, 4, n));
            && |p3| == |pool| && |Region(p3, RESP_REGION, w)| == RESP_REGION
            && IsFrame(e, Region(p3, RESP_REGION, w)[..HEADER + n], id, reply[..n])
            && OtherRegions(pool, p3, RESP_REGION, w)
  {
    hide Put, Region, IsFrame, ToHost;
    var p1 := Put(pool, RESP_REGION, w, HEADER, reply);
    var p2 := Put(p1, RESP_REGION, w, 0, ToHost(e, 8, id));
    var p3 := Put(p2, RESP_REGION, w, 8, ToHost(e, 4, n));
    PutRegion(pool, depth, RESP_REGION, w, HEADER, reply);
    PutRegion(p1, depth, RESP_REGION, w, 0, ToHost(e, 8, id));
    PutRegion(p2, depth, RESP_REGION, w, 8, ToHost(e, 4, n));
    var r := Region(p3, RESP_REGION, w);
    assert r[..8] == ToHost(e, 8, id);
    assert r[8..12] == ToHost(e, 4, n);
    assert r[HEADER..HEADER + n] == reply[..n];
    FrameInRegion(e, r, id, reply[..n]);
  }

  lemma HandleInv(cfg: Config, s: State, w: nat, scribble: Data, reply: Data, n: nat)
    requires Inv(cfg, s) && ServerEnabled(cfg, s, Handle(w, scribble, reply, n))
    ensures Inv(cfg, DoHandle(cfg, s, w, scribble, reply, n))
  {
    hide CallsInv, FieldsInv, SendRegionsInv, TokensInv, SlotsInv, RequestsInv, ResponsesInv, ServerInv, WorkersInv;
    hide Region, IsFrame, HandleRequest;
    ServerWorkerAt(cfg, s, w);
    HandleStores(cfg, s, w, scribble, reply, n);
    var c := s.serverWorkers[w].origin;
    CallAt(cfg, s, c);
    var t := DoHandle(cfg, s, w, scribble, reply, n);
    assert t.calls[c].handled == [reply[..n]];
    ServerFrame(cfg, s.calls, t.calls, s.server, t.server, s.serverWorkers, t.serverWorkers, c);
    TokensFrame(s, t, c);
    TokenStep(cfg, s, t, c);
  }

  /** What a receive worker copies is the answer, into the buffer of the call that asked. */
  lemma CopyFinds(cfg: Config, s: State, w: nat)
    requires Inv(cfg, s) && ReceiverEnabled(s, CopyStep(w))
    ensures var c := s.workers[w].origin;
            var slot := s.workers[w].slot;
            var region := Region(s.client.recvPool, RESP_REGION, w);
            && c < |s.calls| && Answered(cfg, s.calls[c]) && s.client.slots[slot].user == c
            && var n := CopyLength(cfg.endian, s.client, w, slot);
               && n == Min(|s.calls[c].handled[0]|, |s.calls[c].initial|)
               && HEADER + n <= |region| && n <= |s.calls[c].buffer|
               && region[HEADER..HEADER + n] + s.calls[c].buffer[n..]
                  == CopyInto(s.calls[c].initial, s.calls[c].handled[0])
  {
    hide CallsInv, FieldsInv, SendRegionsInv, TokensInv, SlotsInv, RequestsInv, ResponsesInv, ServerInv, WorkersInv;
    hide Region, IsFrame, HeaderLength;
    WorkerAt(cfg, s, w);
    var c := s.workers[w].origin;
    CallAt(cfg, s, c);
    var region := Region(s.client.recvPool, RESP_REGION, w);
    var answer := s.calls[c].handled[0];
    RegionFrame(cfg.endian, region, HEADER + |answer|, s.calls[c].id, answer);
  }

  lemma CopyInv(cfg: Config, s: State, w: nat)
    requires Inv(cfg, s) && ReceiverEnabled(s, CopyStep(w))
    ensures Inv(cfg, DoCopy(cfg, s, w))
  {
    hide CallsInv, FieldsInv, SendRegionsInv, TokensInv, SlotsInv, RequestsInv, ResponsesInv, ServerInv, WorkersInv;
    hide Region, IsFrame;
    WorkerAt(cfg, s, w);
    CopyFinds(cfg, s, w);
    var c := s.workers[w].origin;
    CallAt(cfg, s, c);
    var t := DoCopy(cfg, s, w);
    WorkersFrame(cfg, s.calls, t.calls, s.holders, s.client.slots, t.client.slots, s.client.recvPool,
                 s.client.recvPool, s.workers, t.workers, c, s.calls[c].slot);
    TokensFrame(s, t, c);
    TokenStep(cfg, s, t, c);
  }

  lemma ResumeInv(cfg: Config, s: State, w: nat)
    requires Inv(cfg, s) && ReceiverEnabled(s, Resume(w))
    ensures Inv(cfg, DoResume(s, w))
  {
    hide CallsInv, FieldsInv, SendRegionsInv, TokensInv, SlotsInv, RequestsInv, ResponsesInv, ServerInv, WorkersInv;
    hide Region, IsFrame;
    WorkerAt(cfg, s, w);
    var c := s.workers[w].origin;
    CallAt(cfg, s, c);
    var t := DoResume(s, w);
    WorkersFrame(cfg, s.calls, t.calls, s.holders, s.client.slots, s.client.slots, s.client.recvPool,
                 s.client.recvPool, s.workers, t.workers, c, s.calls[c].slot);
    TokensFrame(s, t, c);
    TokenStep(cfg, s, t, c);
  }

  // ---------------------------------------------------------------- every step, every run

  lemma CallerStepInv(cfg: Config, s: State, step: CallerStep)
    requires Inv(cfg, s) && CallerEnabled(s, step)
    ensures Inv(cfg, ApplyCaller(cfg, s, step))
  {
    hide Inv, CallerEnabled;
    match step
    case Invoke(request, buffer) => InvokeInv(cfg, s, request, buffer);
    case Dequeue(c, slot) => DequeueInv(cfg, s, c, slot);
    case Number(c) => NumberInv(cfg, s, c);
    case Init(c) => InitInv(cfg, s, c);
    case Fill(c) => FillInv(cfg, s, c);
    case Transmit(c, tag) => TransmitInv(cfg, s, c, tag);
    case Publish(c) => PublishInv(cfg, s, c);
    case ReturnSlot(c) => ReturnSlotInv(cfg, s, c);
    case _ => PhaseOnlyInv(cfg, s, step);
  }

  lemma ReceiverStepInv(cfg: Config, s: State, step: ReceiverStep)
    requires Inv(cfg, s) && ReceiverEnabled(s, step)
    ensures Inv(cfg, ApplyReceiver(cfg, s, step))
  {
    hide Inv, ReceiverEnabled;
    match step
    case Deliver(tag, w) => DeliverInv(cfg, s, tag, w);
    case MatchStep(w) => MatchInv(cfg, s, w);
    case CopyStep(w) => CopyInv(cfg, s, w);
    case LoadWaiter(w) => LoadWaiterInv(cfg, s, w);
    case Resume(w) => ResumeInv(cfg, s, w);
    case _ => StageOnlyInv(cfg, s, step);
  }

  lemma ServerStepInv(cfg: Config, s: State, step: ServerStep)
    requires Inv(cfg, s) && ServerEnabled(cfg, s, step)
    ensures Inv(cfg, ApplyServer(cfg, s, step))
  {
    hide Inv, ServerEnabled;
    match step
    case ServerDeliver(tag, w) => ServerDeliverInv(cfg, s, tag, w);
    case Handle(w, scribble, reply, n) => HandleInv(cfg, s, w, scribble, reply, n);
    case ServerPostSendFail(w) => LoseReplyInv(cfg, s, w);
    case ServerTransmit(w, tag) => ServerTransmitInv(cfg, s, w, tag);
    case ServerErrSend(w) => LoseReplyInv(cfg, s, w);
    case _ => ServerStageOnlyInv(cfg, s, step);
  }

  /** Every step keeps the invariant. */
  lemma StepInv(cfg: Config, s: State, step: Step)
    requires Inv(cfg, s) && Enabled(cfg, s, step)
    ensures Inv(cfg, Apply(cfg, s, step))
  {
    hide Inv, ApplyCaller, ApplyReceiver, ApplyServer, CallerEnabled, ReceiverEnabled, ServerEnabled;
    match step
    case Caller(caller) => CallerStepInv(cfg, s, caller);
    case Receiver(receiver) => ReceiverStepInv(cfg, s, receiver);
    case Server(server) => ServerStepInv(cfg, s, server);
  }

  lemma {:induction false} RunInv(cfg: Config, s: State, run: seq<Step>, t: State)
    requires Inv(cfg, s) && Run(cfg, s, run, t)
    ensures Inv(cfg, t)
    decreases |run|
  {
    hide Enabled, Apply, Inv;
    if run != [] {
      StepInv(cfg, s, run[0]);
      RunInv(cfg, Apply(cfg, s, run[0]), run[1..], t);
    }
  }

  lemma ReachableInv(cfg: Config, t: State)
    requires cfg.Valid() && Reachable(cfg, t)
    ensures Inv(cfg, t)
  {
    var s, run :| Initial(cfg, s) && Run(cfg, s, run, t);
    InitialInv(cfg, s);
    RunInv(cfg, s, run, t);
  }
}
