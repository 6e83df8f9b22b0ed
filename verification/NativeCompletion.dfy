/**
 * Completions on the native path: an awaitable posts its work request under the address of its own
 * state, the poller copies completion entries out of the queue in batches, stores each entry in the
 * state it names and resumes the coroutine, which then turns the state into a result.
 */
module NativeCompletion {
  import opened Bytes
  import opened Options

  datatype Opcode = SendOp | RdmaWrite | RdmaWriteWithImm | RdmaRead | CompareAndSwap | FetchAndAdd

  /** A completion entry. Status 0 is success. */
  datatype Wc = Wc(wrId: nat, status: int, withImm: bool, byteLen: nat, imm: nat)

  datatype PostFailure = QpExpired | PostRefused(rc: int)

  datatype Failure = NotPosted(why: PostFailure) | Unsuccessful(status: int)

  datatype Outcome = Transferred(bytes: nat) | Received(bytes: nat, imm: Option<nat>)

  /** The value of an operation's state. No opcode: a receive. */
  datatype OpState = OpState(opcode: Option<Opcode>, viewLength: nat, status: int, withImm: bool, imm: nat,
                             byteLen: nat, failure: Option<PostFailure>, resumes: nat)

  predicate IsRdma(opcode: Option<Opcode>) {
    opcode == Some(RdmaRead) || opcode == Some(RdmaWrite) || opcode == Some(RdmaWriteWithImm)
  }

  /** The opcodes for which the completion entry's length is not read. */
  predicate LengthUnread(opcode: Option<Opcode>) {
    opcode == Some(SendOp) || opcode == Some(RdmaWrite) || opcode == Some(RdmaWriteWithImm)
  }

  function New(opcode: Option<Opcode>, viewLength: nat): OpState {
    OpState(opcode, viewLength, 0, false, 0, 0, None, 0)
  }

  function Suspended(v: OpState, post: Option<PostFailure>): OpState {
    v.(byteLen := if IsRdma(v.opcode) then v.viewLength % TWO_32 else v.byteLen, failure := post)
  }

  /** The state after the poller has stored a completion entry and resumed the coroutine. */
  function Completed(v: OpState, wc: Wc): OpState {
    v.(status := wc.status, withImm := wc.withImm, resumes := v.resumes + 1,
       byteLen := if LengthUnread(v.opcode) then v.byteLen else wc.byteLen,
       imm := if v.opcode.None? then wc.imm else v.imm)
  }

  function ResultOf(v: OpState): Result<Outcome, Failure> {
    if v.failure.Some? then Err(NotPosted(v.failure.value))
    else if v.status != 0 then Err(Unsuccessful(v.status))
    else if v.opcode.Some? then Ok(Transferred(v.byteLen))
    else Ok(Received(v.byteLen, if v.withImm then Some(v.imm) else None))
  }

  /** An awaitable about to be suspended, and what the verbs call answers. */
  datatype Launch = Launch(opcode: Option<Opcode>, viewLength: nat, post: Option<PostFailure>)

  /** The result a caller is owed for a launch whose work request completed with wc. */
  function Owed(launch: Launch, wc: Wc): Result<Outcome, Failure> {
    if wc.status != 0 then Err(Unsuccessful(wc.status))
    else match launch.opcode
         case None => Ok(Received(wc.byteLen, if wc.withImm then Some(wc.imm) else None))
         case Some(SendOp) => Ok(Transferred(0))
         case Some(RdmaWrite) => Ok(Transferred(launch.viewLength % TWO_32))
         case Some(RdmaWriteWithImm) => Ok(Transferred(launch.viewLength % TWO_32))
         case Some(_) => Ok(Transferred(wc.byteLen))
  }

  /** Posting, filling and reading an operation's state gives what is owed, or the post's failure. */
  lemma ResultIsOwed(launch: Launch, wc: Wc)
    ensures var v := Suspended(New(launch.opcode, launch.viewLength), launch.post);
            && (launch.post.None? ==> ResultOf(Completed(v, wc)) == Owed(launch, wc))
            && (launch.post.Some? ==> ResultOf(v) == Err(NotPosted(launch.post.value)))
  {
  }

  /** A write returns the view's length exactly if it fits 32 bits. */
  lemma WriteReturnsLength(launch: Launch, wc: Wc)
    requires wc.status == 0 && (launch.opcode == Some(RdmaWrite) || launch.opcode == Some(RdmaWriteWithImm))
    ensures Owed(launch, wc) == Ok(Transferred(launch.viewLength)) <==> launch.viewLength < TWO_32
  {
    if launch.viewLength >= TWO_32 {
      assert launch.viewLength % TWO_32 < TWO_32;
    }
  }

  /** A successful send returns the bytes that it sent exactly if there were none. */
  lemma SendReturnsLength(launch: Launch, wc: Wc)
    requires wc.status == 0 && launch.opcode == Some(SendOp)
    ensures Owed(launch, wc) == Ok(Transferred(launch.viewLength)) <==> launch.viewLength == 0
  {
  }

  // ---------------------------------------------------------------- the objects

  /** An awaitable with its operation state. The id of its work request is the address of the state. */
  class Operation {
    const opcode: Option<Opcode>
    const viewLength: nat
    const wrId: nat
    var status: int
    var withImm: bool
    var imm: nat
    var byteLen: nat
    var failure: Option<PostFailure>
    var resumes: nat

    ghost function View(): OpState
      reads this
    {
      OpState(opcode, viewLength, status, withImm, imm, byteLen, failure, resumes)
    }

    constructor (opcode: Option<Opcode>, viewLength: nat, wrId: nat)
      ensures View() == New(opcode, viewLength) && this.wrId == wrId && failure.None?
    {
      this.opcode, this.viewLength, this.wrId := opcode, viewLength, wrId;
      status, withImm, imm, byteLen, failure, resumes := 0, false, 0, 0, None, 0;
    }

    /** post says what the verbs call answers. Returns whether the coroutine stays suspended. */
    method Suspend(post: Option<PostFailure>) returns (suspended: bool)
      requires failure.None?
      modifies this
      ensures View() == Suspended(old(View()), post)
      ensures suspended <==> post.None?
    {
      if IsRdma(opcode) {
        byteLen := viewLength % TWO_32;
      }
      if post.Some? {
        failure := post;
        return false;
      }
      return true;
    }

    method SetFromWc(wc: Wc)
      modifies this`status, this`withImm, this`byteLen, this`imm
      ensures View() == Completed(old(View()), wc).(resumes := resumes)
    {
      status := wc.status;
      withImm := wc.withImm;
      if opcode.None? {
        byteLen := wc.byteLen;
        imm := wc.imm;
        return;
      }
      match opcode.value {
        case RdmaWriteWithImm =>
        case RdmaWrite =>
        case SendOp =>
        case _ => byteLen := wc.byteLen;
      }
    }

    method Resume()
      modifies this`resumes
      ensures resumes == old(resumes) + 1
    {
      resumes := resumes + 1;
    }

    /** What the executor does with a completion for this operation. */
    method ExecuteCallback(wc: Wc)
      modifies this`status, this`withImm, this`byteLen, this`imm, this`resumes
      ensures View() == Completed(old(View()), wc) && resumes == old(resumes) + 1 && status == wc.status
    {
      SetFromWc(wc);
      Resume();
    }

    method AwaitResume() returns (r: Result<Outcome, Failure>)
      ensures r == ResultOf(View())
    {
      if failure.Some? {
        return Err(NotPosted(failure.value));
      }
      if status != 0 {
        return Err(Unsuccessful(status));
      }
      if opcode.Some? {
        return Ok(Transferred(byteLen));
      }
      if withImm {
        return Ok(Received(byteLen, Some(imm)));
      }
      return Ok(Received(byteLen, None));
    }
  }

  /** What a completion says besides the id. */
  datatype Content = Content(status: int, withImm: bool, byteLen: nat, imm: nat)

  class CompletionQueue {
    var posted: set<nat>  // ids of work requests without a completion
    var entries: seq<Wc>

    constructor ()
      ensures entries == [] && posted == {}
    {
      entries, posted := [], {};
    }

    method Post(id: nat)
      requires id !in posted
      modifies this`posted
      ensures posted == old(posted) + {id}
    {
      posted := posted + {id};
    }

    /** The device completes a work request, whichever, if there is one. */
    method Generate(c: Content) returns (wc: Option<Wc>)
      modifies this
      ensures wc.None? ==> old(posted) == {} == posted && entries == old(entries)
      ensures wc.Some? ==>
                && wc.value == Wc(wc.value.wrId, c.status, c.withImm, c.byteLen, c.imm)
                && wc.value.wrId in old(posted) && posted == old(posted) - {wc.value.wrId}
                && entries == old(entries) + [wc.value]
    {
      if posted == {} {
        return None;
      }
      var id :| id in posted;
      posted := posted - {id};
      wc := Some(Wc(id, c.status, c.withImm, c.byteLen, c.imm));
      entries := entries + [wc.value];
    }

    /** Moves entries to the front of wcs: as many as the device chooses to hand out, and fit. */
    method Poll(wcs: array<Wc>, ready: nat) returns (n: nat)
      modifies this`entries, wcs
      ensures n <= wcs.Length && n <= |old(entries)|
      ensures ready > 0 && wcs.Length > 0 && |old(entries)| > 0 ==> n > 0
      ensures wcs[..n] == old(entries)[..n] && entries == old(entries)[n..]
    {
      n := 0;
      while n < wcs.Length && n < ready && n < |entries|
        invariant 0 <= n <= wcs.Length && n <= |entries| && entries == old(entries)
        invariant wcs[..n] == entries[..n]
        decreases wcs.Length - n
      {
        wcs[n] := entries[n];
        n := n + 1;
      }
      entries := entries[n..];
    }
  }
}
