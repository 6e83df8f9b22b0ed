/** The wire forms of a queue pair and of a memory region, and their framing on a socket. */
module QpCodec {
  import opened Bytes
  import opened Options
  import opened Serdes

  const GID_SIZE: nat := 16

  /** Two bytes of lid, three numbers of four bytes, and the gid. */
  const HEADER_SIZE: nat := 30

  const MR_SIZE: nat := 20

  datatype Header = Header(lid: nat, qpNum: nat, sqPsn: nat, userDataSize: nat, gid: seq<byte>) {
    predicate Valid() {
      lid < Pow256(2) && qpNum < Pow256(4) && sqPsn < Pow256(4) && userDataSize < Pow256(4) && |gid| == GID_SIZE
    }
  }

  /** What one side tells the other about its queue pair. */
  datatype QpInfo = QpInfo(lid: nat, qpNum: nat, sqPsn: nat, gid: seq<byte>, userData: seq<byte>) {
    predicate Valid() {
      lid < Pow256(2) && qpNum < Pow256(4) && sqPsn < Pow256(4) && |gid| == GID_SIZE
    }
  }

  datatype Region = Region(addr: nat, length: nat, rkey: nat) {
    predicate Valid() {
      addr < Pow256(8) && length < Pow256(8) && rkey < Pow256(4)
    }
  }

  // ---------------------------------------------------------------- the header

  function EncodeHeader(h: Header): (b: seq<byte>)
    ensures |h.gid| == GID_SIZE ==> |b| == HEADER_SIZE
  {
    ToBig(2, h.lid) + ToBig(4, h.qpNum) + ToBig(4, h.sqPsn) + ToBig(4, h.userDataSize) + h.gid
  }

  function DecodeHeader(b: seq<byte>): Header
    requires |b| == HEADER_SIZE
  {
    Header(FromBig(b[..2]), FromBig(b[2..6]), FromBig(b[6..10]), FromBig(b[10..14]), b[14..])
  }

  lemma DecodeEncodeHeader(h: Header)
    requires h.Valid()
    ensures DecodeHeader(EncodeHeader(h)) == h
  {
    var b := EncodeHeader(h);
    assert b[..2] == ToBig(2, h.lid);
    assert b[2..6] == ToBig(4, h.qpNum);
    assert b[6..10] == ToBig(4, h.sqPsn);
    assert b[10..14] == ToBig(4, h.userDataSize);
    assert b[14..] == h.gid;
    FromToBig(2, h.lid);
    FromToBig(4, h.qpNum);
    FromToBig(4, h.sqPsn);
    FromToBig(4, h.userDataSize);
  }

  /** Every header of the right size means something, and encodes back to itself. */
  lemma EncodeDecodeHeader(b: seq<byte>)
    requires |b| == HEADER_SIZE
    ensures DecodeHeader(b).Valid() && EncodeHeader(DecodeHeader(b)) == b
  {
    ToFromBig(b[..2]);
    ToFromBig(b[2..6]);
    ToFromBig(b[6..10]);
    ToFromBig(b[10..14]);
    assert b == b[..2] + b[2..6] + b[6..10] + b[10..14] + b[14..];
  }

  /** Where each field of a header lies on the wire. */
  lemma HeaderOnWire(h: Header)
    requires h.Valid()
    ensures var b := EncodeHeader(h);
            && |b| == 30
            && FromBig(b[0..2]) == h.lid && FromBig(b[2..6]) == h.qpNum && FromBig(b[6..10]) == h.sqPsn
            && FromBig(b[10..14]) == h.userDataSize && b[14..30] == h.gid
  {
    var b := EncodeHeader(h);
    assert b[0..2] == ToBig(2, h.lid) && b[2..6] == ToBig(4, h.qpNum) && b[6..10] == ToBig(4, h.sqPsn);
    assert b[10..14] == ToBig(4, h.userDataSize) && b[14..30] == h.gid;
    FromToBig(2, h.lid);
    FromToBig(4, h.qpNum);
    FromToBig(4, h.sqPsn);
    FromToBig(4, h.userDataSize);
  }

  // ---------------------------------------------------------------- the memory region record

  function EncodeRegion(r: Region): (b: seq<byte>)
    ensures |b| == MR_SIZE
  {
    ToBig(8, r.addr) + ToBig(8, r.length) + ToBig(4, r.rkey)
  }

  function DecodeRegion(b: seq<byte>): Region
    requires |b| == MR_SIZE
  {
    Region(FromBig(b[..8]), FromBig(b[8..16]), FromBig(b[16..]))
  }

  lemma DecodeEncodeRegion(r: Region)
    requires r.Valid()
    ensures DecodeRegion(EncodeRegion(r)) == r
  {
    var b := EncodeRegion(r);
    assert b[..8] == ToBig(8, r.addr);
    assert b[8..16] == ToBig(8, r.length);
    assert b[16..] == ToBig(4, r.rkey);
    FromToBig(8, r.addr);
    FromToBig(8, r.length);
    FromToBig(4, r.rkey);
  }

  lemma EncodeDecodeRegion(b: seq<byte>)
    requires |b| == MR_SIZE
    ensures DecodeRegion(b).Valid() && EncodeRegion(DecodeRegion(b)) == b
  {
    ToFromBig(b[..8]);
    ToFromBig(b[8..16]);
    ToFromBig(b[16..]);
    assert b == b[..8] + b[8..16] + b[16..];
  }

  lemma RegionOnWire(r: Region)
    requires r.Valid()
    ensures var b := EncodeRegion(r);
            |b| == 20 && FromBig(b[0..8]) == r.addr && FromBig(b[8..16]) == r.length && FromBig(b[16..20]) == r.rkey
  {
    var b := EncodeRegion(r);
    assert b[0..8] == ToBig(8, r.addr) && b[8..16] == ToBig(8, r.length) && b[16..20] == ToBig(4, r.rkey);
    FromToBig(8, r.addr);
    FromToBig(8, r.length);
    FromToBig(4, r.rkey);
  }

  method SerializeRegion(e: Endian, r: Region) returns (buffer: seq<byte>)
    requires r.Valid()
    ensures buffer == EncodeRegion(r)
  {
    var it := new Sink();
    it.Put(e, 8, r.addr);
    it.Put(e, 8, r.length);
    it.Put(e, 4, r.rkey);
    buffer := it.bytes;
  }

  /** Reads the record at the front of a longer buffer. */
  method DeserializeRegion(e: Endian, b: seq<byte>) returns (r: Region)
    requires |b| >= MR_SIZE
    ensures r == DecodeRegion(b[..MR_SIZE])
  {
    var it := new Source(b);
    var addr := it.Get(e, 8);
    var length := it.Get(e, 8);
    var rkey := it.Get(e, 4);
    ghost var record := b[..MR_SIZE];
    assert record[..8] == b[0..8] && record[8..16] == b[8..16] && record[16..] == b[16..20];
    r := Region(addr, length, rkey);
  }

  // ---------------------------------------------------------------- a queue pair with its user data

  /** The size of the user data is cut to four bytes. */
  function HeaderOf(q: QpInfo): Header {
    Header(q.lid, q.qpNum, q.sqPsn, |q.userData| % TWO_32, q.gid)
  }

  function EncodeQp(q: QpInfo): seq<byte> {
    EncodeHeader(HeaderOf(q)) + q.userData
  }

  datatype StreamError = EndOfStream

  /** What a reader takes from the stream: a queue pair, or everything if the stream ends too early. */
  function DecodeQp(stream: seq<byte>): (r: (Result<QpInfo, StreamError>, seq<byte>))
  {
    if |stream| < HEADER_SIZE then (Err(EndOfStream), [])
    else
      var h := DecodeHeader(stream[..HEADER_SIZE]);
      var body := stream[HEADER_SIZE..];
      if |body| < h.userDataSize then (Err(EndOfStream), [])
      else (Ok(QpInfo(h.lid, h.qpNum, h.sqPsn, h.gid, body[..h.userDataSize])), body[h.userDataSize..])
  }

  lemma HeaderOfValid(q: QpInfo)
    requires q.Valid()
    ensures HeaderOf(q).Valid()
  {
    Pow256Values();
  }

  /** Whatever follows, a reader gets the sender's fields and the first |userData| mod 2^32 bytes of user data. */
  lemma Framing(q: QpInfo, rest: seq<byte>)
    requires q.Valid()
    ensures var n := |q.userData| % TWO_32;
            DecodeQp(EncodeQp(q) + rest) == (Ok(q.(userData := q.userData[..n])), q.userData[n..] + rest)
  {
    var stream := EncodeQp(q) + rest;
    var n := |q.userData| % TWO_32;
    HeaderOfValid(q);
    DecodeEncodeHeader(HeaderOf(q));
    assert stream[..HEADER_SIZE] == EncodeHeader(HeaderOf(q));
    assert stream[HEADER_SIZE..] == q.userData + rest;
    assert (q.userData + rest)[..n] == q.userData[..n];
    assert (q.userData + rest)[n..] == q.userData[n..] + rest;
  }

  /**
   * A reader gets exactly what was sent, and leaves exactly what follows unread, if and only if the
   * user data is shorter than 2^32 bytes.
   */
  lemma RoundTripExactlyIf(q: QpInfo, rest: seq<byte>)
    requires q.Valid()
    ensures DecodeQp(EncodeQp(q) + rest) == (Ok(q), rest) <==> |q.userData| < TWO_32
  {
    hide DecodeQp, EncodeQp;
    Framing(q, rest);
    var n := |q.userData| % TWO_32;
    if |q.userData| < TWO_32 {
      assert q.userData[..n] == q.userData && q.userData[n..] + rest == rest;
    } else {
      assert |q.userData[..n]| != |q.userData|;
    }
  }

  /** q can be sent so that the peer reads it again. */
  predicate Sendable(q: QpInfo) {
    q.Valid() && |q.userData| < TWO_32
  }

  /** A reader that succeeds has read exactly the message of the queue pair that it returns, and no more. */
  lemma DecodedIsEncoded(stream: seq<byte>)
    ensures var (r, rest) := DecodeQp(stream);
            match r
            case Ok(q) => Sendable(q) && stream == EncodeQp(q) + rest
            case Err(_) => rest == [] && forall q :: Sendable(q) ==> !(EncodeQp(q) <= stream)
  {
    var (r, rest) := DecodeQp(stream);
    match r
    case Ok(q) =>
      var front := stream[..HEADER_SIZE];
      EncodeDecodeHeader(front);
      Pow256Values();
      assert HeaderOf(q) == DecodeHeader(front);
      assert stream == front + q.userData + rest;
    case Err(_) =>
      forall q | Sendable(q)
        ensures !(EncodeQp(q) <= stream)
      {
        if EncodeQp(q) <= stream {
          var more := stream[|EncodeQp(q)|..];
          assert stream == EncodeQp(q) + more;
          RoundTripExactlyIf(q, more);
        }
      }
  }

  /** A stream that ends inside a message, wherever, is an error, and nothing is left to read. */
  lemma CutMessageFails(q: QpInfo, cut: nat)
    requires Sendable(q) && cut < |EncodeQp(q)|
    ensures DecodeQp(EncodeQp(q)[..cut]) == (Err(EndOfStream), [])
  {
    hide EncodeHeader, DecodeHeader;
    var b, s := EncodeQp(q), EncodeQp(q)[..cut];
    HeaderOfValid(q);
    DecodeEncodeHeader(HeaderOf(q));
    if cut >= HEADER_SIZE {
      assert s[..HEADER_SIZE] == EncodeHeader(HeaderOf(q));
      assert |s[HEADER_SIZE..]| < |q.userData|;
    }
  }

  /** Several queue pairs sent one after the other are read one after the other. */
  function EncodeAll(qs: seq<QpInfo>): seq<byte> {
    if qs == [] then [] else EncodeQp(qs[0]) + EncodeAll(qs[1..])
  }

  function DecodeAll(n: nat, stream: seq<byte>): Option<seq<QpInfo>> {
    if n == 0 then (if stream == [] then Some([]) else None)
    else
      var (r, rest) := DecodeQp(stream);
      if r.Err? then None
      else match DecodeAll(n - 1, rest) case None => None case Some(qs) => Some([r.value] + qs)
  }

  lemma {:induction false} RoundTripAll(qs: seq<QpInfo>)
    requires forall k :: 0 <= k < |qs| ==> qs[k].Valid() && |qs[k].userData| < TWO_32
    ensures DecodeAll(|qs|, EncodeAll(qs)) == Some(qs)
  {
    if qs != [] {
      RoundTripExactlyIf(qs[0], EncodeAll(qs[1..]));
      RoundTripAll(qs[1..]);
      assert qs == [qs[0]] + qs[1..];
    }
  }

  // ---------------------------------------------------------------- the code

  method SerializeQp(e: Endian, q: QpInfo) returns (buffer: seq<byte>)
    requires q.Valid()
    ensures buffer == EncodeQp(q)
  {
    hide ToBig, Pow256;
    Pow256Values();
    var it := new Sink();
    it.Put(e, 2, q.lid);
    it.Put(e, 4, q.qpNum);
    it.Put(e, 4, q.sqPsn);
    it.Put(e, 4, |q.userData| % TWO_32);
    it.Copy(q.gid);
    it.Copy(q.userData);
    buffer := it.bytes;
  }

  method DeserializeHeader(e: Endian, b: seq<byte>) returns (h: Header)
    requires |b| == HEADER_SIZE
    ensures h == DecodeHeader(b)
  {
    var it := new Source(b);
    var lid := it.Get(e, 2);
    var qpNum := it.Get(e, 4);
    var sqPsn := it.Get(e, 4);
    var userDataSize := it.Get(e, 4);
    var gid := it.Copy(GID_SIZE);
    assert b[0..2] == b[..2] && b[14..30] == b[14..];
    h := Header(lid, qpNum, sqPsn, userDataSize, gid);
  }

  /** One end of a byte stream: what was written, and what is there to read before the stream ends. */
  class Socket {
    var written: seq<byte>
    var incoming: seq<byte>

    constructor (incoming: seq<byte>)
      ensures this.incoming == incoming && written == []
    {
      this.incoming := incoming;
      written := [];
    }

    method Write(b: seq<byte>)
      modifies this`written
      ensures written == old(written) + b
    {
      written := written + b;
    }

    /** Exactly n bytes, or an error after taking all there is. */
    method Read(n: nat) returns (r: Result<seq<byte>, StreamError>)
      modifies this`incoming
      ensures |old(incoming)| < n ==> r == Err(EndOfStream) && incoming == []
      ensures |old(incoming)| >= n ==> r == Ok(old(incoming)[..n]) && incoming == old(incoming)[n..]
    {
      if |incoming| < n {
        incoming := [];
        return Err(EndOfStream);
      }
      r := Ok(incoming[..n]);
      incoming := incoming[n..];
    }

    method SendQp(e: Endian, q: QpInfo)
      requires q.Valid()
      modifies this`written
      ensures written == old(written) + EncodeQp(q)
    {
      var data := SerializeQp(e, q);
      Write(data);
    }

    method RecvQp(e: Endian) returns (r: Result<QpInfo, StreamError>)
      modifies this`incoming
      ensures (r, incoming) == DecodeQp(old(incoming))
      ensures r.Ok? ==> Sendable(r.value) && old(incoming) == EncodeQp(r.value) + incoming
      ensures r.Err? ==> incoming == [] && forall q :: Sendable(q) ==> !(EncodeQp(q) <= old(incoming))
    {
      DecodedIsEncoded(incoming);
      var header := Read(HEADER_SIZE);
      if header.Err? {
        return Err(header.error);
      }
      var h := DeserializeHeader(e, header.value);
      var userData: seq<byte> := [];
      if h.userDataSize > 0 {
        var body := Read(h.userDataSize);
        if body.Err? {
          return Err(body.error);
        }
        userData := body.value;
      }
      r := Ok(QpInfo(h.lid, h.qpNum, h.sqPsn, h.gid, userData));
    }
  }

  /** Between any two hosts, whatever their byte orders: what one sends is what the other receives. */
  method Exchange(sender: Endian, receiver: Endian, q: QpInfo, rest: seq<byte>)
    returns (r: Result<QpInfo, StreamError>, left: seq<byte>)
    requires q.Valid()
    ensures |q.userData| < TWO_32 <==> r == Ok(q) && left == rest
  {
    var out := new Socket([]);
    out.SendQp(sender, q);
    var back := new Socket(out.written + rest);
    r := back.RecvQp(receiver);
    left := back.incoming;
    assert out.written == EncodeQp(q);
    RoundTripExactlyIf(q, rest);
  }
}
