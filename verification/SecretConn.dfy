/** `gossip/secret_connection.go`: a byte stream carried in sealed frames, one nonce per frame. */
module SecretConns {
  import opened Types
  import opened Wire
  import Merkle

  const DATA_LEN_SIZE: nat := 4
  const DATA_MAX_SIZE: nat := 1024

  /** An ideal sealed frame: it opens under the nonce it was sealed with and under no other. */
  datatype Sealed = Sealed(nonce: nat, frame: Bytes)

  datatype ReadOutcome = Data(data: Bytes) | WouldBlock | DecryptFailure | BadLength

  /** A frame: the length of the chunk, the chunk, and whatever the pooled buffer held after it. */
  function Frame(chunk: Bytes, padding: Bytes): Bytes { LittleEndian(|chunk|, DATA_LEN_SIZE) + chunk + padding }

  ghost predicate IsFrame(frame: Bytes, chunk: Bytes) {
    |chunk| <= DATA_MAX_SIZE && exists padding :: frame == Frame(chunk, padding)
  }

  lemma FrameReadBack(frame: Bytes, chunk: Bytes)
    requires IsFrame(frame, chunk)
    ensures |chunk| <= DATA_MAX_SIZE && |frame| >= DATA_LEN_SIZE + |chunk|
    ensures ReadLittleEndian(frame, 0, DATA_LEN_SIZE) == |chunk|
    ensures frame[DATA_LEN_SIZE..DATA_LEN_SIZE + |chunk|] == chunk
  {
    hide LittleEndian, ReadLittleEndian, Merkle.Pow2;
    var padding :| frame == Frame(chunk, padding);
    var length := LittleEndian(|chunk|, DATA_LEN_SIZE);
    assert frame[0..4] == length;
    FourBytes();
    LittleEndianBack(frame, 0, |chunk|, DATA_LEN_SIZE);
  }

  lemma FourBytes()
    ensures Merkle.Pow2(32) > DATA_MAX_SIZE
  {
    Merkle.Pow2Monotone(10, 32);
    assert Merkle.Pow2(5) == 32 && Merkle.Pow2(10) == 1024;
  }

  /** The bytes carried by frames in transit. */
  function Payload(chunks: seq<Bytes>): Bytes {
    if chunks == [] then [] else chunks[0] + Payload(chunks[1..])
  }

  lemma {:induction false} PayloadAppend(chunks: seq<Bytes>, c: Bytes)
    ensures Payload(chunks + [c]) == Payload(chunks) + c
  {
    if chunks != [] {
      PayloadAppend(chunks[1..], c);
      assert (chunks + [c])[1..] == chunks[1..] + [c];
    } else {
      assert [c][1..] == [];
    }
  }

  /** One direction of a connection: the sender's nonce, the sealed frames in transit, and the receiver's nonce
      and buffer. The ghost fields hold the chunk of every frame in transit and all nonces ever used. */
  class SecretPipe {
    var sendNonce: nat
    var wire: seq<Sealed>
    var recvNonce: nat
    var recvBuffer: Bytes
    ghost var chunks: seq<Bytes>
    ghost var used: seq<nat>

    /** Both ends agree on the nonce of every frame in transit, and no nonce was used twice. */
    ghost predicate Valid()
      reads this
    {
      && |chunks| == |wire| && sendNonce == recvNonce + |wire| < U64
      && (forall k | 0 <= k < |wire| :: wire[k].nonce == recvNonce + k && IsFrame(wire[k].frame, chunks[k]))
      && |used| == sendNonce && (forall k | 0 <= k < |used| :: used[k] == k)
    }

    /** What has been written and not yet read. */
    ghost function Stream(): Bytes
      reads this
    {
      recvBuffer + Payload(chunks)
    }

    constructor ()
      ensures Valid() && Stream() == []
    {
      sendNonce, wire, recvNonce, recvBuffer, chunks, used := 0, [], 0, [], [], [];
    }

    /** One frame. The counter is never increased past the last 64-bit value: the source panics instead. */
    method SendFrame(chunk: Bytes, padding: Bytes) returns (ok: bool)
      requires Valid() && |chunk| <= DATA_MAX_SIZE
      modifies this
      ensures Valid() && (ok <==> old(sendNonce) < U64 - 1) && (!ok ==> sendNonce == U64 - 1)
      ensures Stream() == if ok then old(Stream()) + chunk else old(Stream())
      ensures sendNonce == if ok then old(sendNonce) + 1 else old(sendNonce)
    {
      hide LittleEndian, IsFrame;
      if sendNonce == U64 - 1 { return false; }
      var frame := Frame(chunk, padding);
      FrameOk(chunk, padding);
      PayloadAppend(chunks, chunk);
      wire := wire + [Sealed(sendNonce, frame)];
      chunks := chunks + [chunk];
      used := used + [sendNonce];
      sendNonce := sendNonce + 1;
      ok := true;
    }

    /** `Write`: the data joins the stream, cut into frames. `n` is less than all of it only when the nonces
        have run out. */
    method Write(data: Bytes, padding: Bytes) returns (n: nat, panicked: bool)
      requires Valid()
      modifies this
      ensures Valid() && n <= |data| && Stream() == old(Stream()) + data[..n]
      ensures panicked <==> n < |data|
      ensures panicked ==> sendNonce == U64 - 1
      ensures !panicked ==> sendNonce == old(sendNonce) + (|data| + DATA_MAX_SIZE - 1) / DATA_MAX_SIZE
    {
      n := 0;
      var rest := data;
      while 0 < |rest|
        invariant Valid() && n <= |data| && rest == data[n..] && Stream() == old(Stream()) + data[..n]
        invariant sendNonce + (|rest| + DATA_MAX_SIZE - 1) / DATA_MAX_SIZE == old(sendNonce) + (|data| + DATA_MAX_SIZE - 1) / DATA_MAX_SIZE
        decreases |rest|
      {
        var chunk := rest;
        if DATA_MAX_SIZE < |rest| { chunk := rest[..DATA_MAX_SIZE]; }
        var ok := SendFrame(chunk, padding);
        if !ok { return n, true; }
        assert data[..n] + chunk == data[..n + |chunk|];
        rest := rest[|chunk|..];
        n := n + |chunk|;
      }
      panicked := false;
      assert data[..n] == data;
    }

    /** `Read` into `size` bytes: the next bytes of the stream. On frames that the other end sealed, opening
        never fails and the length is never too large. */
    method Read(size: nat) returns (r: ReadOutcome)
      requires Valid()
      modifies this
      ensures Valid() && !r.DecryptFailure? && !r.BadLength?
      ensures r.WouldBlock? ==> old(Stream()) == Stream() == []
      ensures r.WouldBlock? <==> old(recvBuffer == [] && chunks == [])
      ensures r.Data? ==>
                var ready := if old(recvBuffer) != [] then old(recvBuffer) else old(chunks)[0];
                r.data == if size < |ready| then ready[..size] else ready
      ensures r.Data? ==> old(Stream()) == r.data + Stream() && |r.data| <= size
      ensures r.Data? && r.data == [] ==> size == 0 || old(chunks != [] && chunks[0] == [])
    {
      hide Payload, IsFrame;
      if 0 < |recvBuffer| {
        var n := if size < |recvBuffer| then size else |recvBuffer|;
        var out := recvBuffer[..n];
        recvBuffer := recvBuffer[n..];
        return Data(out);
      }
      if wire == [] {
        PayloadNone();
        return WouldBlock;
      }
      ghost var sent, rest := chunks[0], Payload(chunks[1..]);
      PayloadHead(chunks);
      var chunk := OpenFrame();
      assert chunk == sent;
      var n := if size < |chunk| then size else |chunk|;
      if n < |chunk| { recvBuffer := chunk[n..]; }
      assert chunk == chunk[..n] + chunk[n..];
      return Data(chunk[..n]);
    }

    /** Take the oldest frame off the wire and open it; neither of the two errors is reached. */
    method OpenFrame() returns (chunk: Bytes)
      requires Valid() && wire != []
      modifies this`wire, this`recvNonce, this`chunks
      ensures Valid() && chunk == old(chunks)[0] && chunks == old(chunks)[1..]
    {
      hide LittleEndian, ReadLittleEndian, IsFrame;
      var sealed := wire[0];
      FrameReadBack(sealed.frame, chunks[0]);
      if sealed.nonce != recvNonce { assert false; }
      recvNonce := recvNonce + 1;
      wire := wire[1..];
      chunks := chunks[1..];
      var chunkLength := ReadLittleEndian(sealed.frame, 0, DATA_LEN_SIZE);
      if chunkLength > DATA_MAX_SIZE { assert false; }
      chunk := sealed.frame[DATA_LEN_SIZE..DATA_LEN_SIZE + chunkLength];
    }
  }

  lemma PayloadNone()
    ensures Payload([]) == []
  {
  }

  lemma PayloadHead(chunks: seq<Bytes>)
    requires chunks != []
    ensures Payload(chunks) == chunks[0] + Payload(chunks[1..])
  {
  }

  lemma FrameOk(chunk: Bytes, padding: Bytes)
    requires |chunk| <= DATA_MAX_SIZE
    ensures IsFrame(Frame(chunk, padding), chunk)
  {
  }
}
