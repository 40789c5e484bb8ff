/** `types/part_set.go`: a block's bytes split into proved parts and put together again. */
module PartSets {
  import opened Types
  import opened Merkle
  import opened MerkleProofs
  import opened MerkleTrails

  datatype Part = Part(index: nat, bytes: Bytes, proof: Proof)

  // ---------------------------------------------------------------- splitting

  /** The number of parts, computed in 32-bit arithmetic. */
  function NumParts(length: nat, partSize: nat): nat
    requires 0 < partSize < U32
  {
    ((length % U32 + partSize - 1) % U32) / partSize
  }

  function Min(a: int, b: int): int { if a < b then a else b }

  function Chunk(data: Bytes, partSize: nat, i: nat): Bytes
    requires 0 < partSize < U32 && i < NumParts(|data|, partSize)
  {
    ChunkInRange(|data|, partSize, i);
    data[i * partSize..Min(|data|, (i + 1) * partSize)]
  }

  function Chunks(data: Bytes, partSize: nat): (r: seq<Bytes>)
    requires 0 < partSize < U32
    ensures |r| == NumParts(|data|, partSize)
    ensures forall i | 0 <= i < |r| :: r[i] == Chunk(data, partSize, i)
  {
    seq(NumParts(|data|, partSize), i requires 0 <= i < NumParts(|data|, partSize) => Chunk(data, partSize, i))
  }

  function Concat(parts: seq<Bytes>): Bytes {
    if parts == [] then [] else Concat(parts[..|parts| - 1]) + parts[|parts| - 1]
  }

  /** The 32-bit count covers the data exactly when the sum does not wrap around. */
  predicate Fits(length: nat, partSize: nat) { length + partSize - 1 < U32 }

  lemma DivideBounds(a: nat, b: nat)
    requires b > 0
    ensures (a / b) * b <= a < (a / b + 1) * b
  {
  }

  lemma MulMonotone(a: nat, b: nat, c: nat)
    requires a <= b
    ensures a * c <= b * c
  {
  }

  lemma ChunkInRange(length: nat, partSize: nat, i: nat)
    requires 0 < partSize < U32 && i < NumParts(length, partSize)
    ensures 0 <= i * partSize <= Min(length, (i + 1) * partSize)
    ensures i + 1 < NumParts(length, partSize) ==> (i + 1) * partSize <= length
  {
    var n := NumParts(length, partSize);
    var sum := (length % U32 + partSize - 1) % U32;
    DivideBounds(sum, partSize);
    MulMonotone(i + 1, n, partSize);
    assert (i + 1) * partSize == i * partSize + partSize;
    if i + 1 < n {
      MulMonotone(i + 2, n, partSize);
      assert (i + 2) * partSize == (i + 1) * partSize + partSize;
    }
    SumBounds(length, partSize);
  }

  /** The wrapped sum is never more than the data needs. */
  lemma SumBounds(length: nat, partSize: nat)
    requires 0 < partSize < U32
    ensures (length % U32 + partSize - 1) % U32 <= length + partSize - 1
    ensures !Fits(length, partSize) ==> (length % U32 + partSize - 1) % U32 < length
  {
  }

  lemma {:induction false} ConcatLength(data: Bytes, partSize: nat, n: nat)
    requires 0 < partSize < U32 && n <= NumParts(|data|, partSize)
    ensures n > 0 ==> (n - 1) * partSize <= |data|
    ensures Concat(Chunks(data, partSize)[..n]) == data[..Min(|data|, n * partSize)]
  {
    var cs := Chunks(data, partSize);
    if n > 0 {
      ConcatLength(data, partSize, n - 1);
      ChunkInRange(|data|, partSize, n - 1);
      assert cs[..n][..n - 1] == cs[..n - 1];
      if n > 1 { ChunkInRange(|data|, partSize, n - 2); }
      assert (n - 1) * partSize <= |data|;
      assert data[..Min(|data|, n * partSize)] == data[..(n - 1) * partSize] + Chunk(data, partSize, n - 1);
    }
  }

  lemma Coverage(length: nat, partSize: nat)
    requires 0 < partSize < U32
    ensures NumParts(length, partSize) * partSize >= length <==> length == 0 || Fits(length, partSize)
  {
    var sum := (length % U32 + partSize - 1) % U32;
    DivideBounds(sum, partSize);
    SumBounds(length, partSize);
    assert (NumParts(length, partSize) + 1) * partSize == NumParts(length, partSize) * partSize + partSize;
  }

  /** The parts concatenate to the data exactly when the length fits the 32-bit count. */
  lemma PartsConcatenate(data: Bytes, partSize: nat)
    requires 0 < partSize < U32
    ensures Concat(Chunks(data, partSize)) == data <==> data == [] || Fits(|data|, partSize)
  {
    hide NumParts, Chunks, Fits, Concat;
    var n := NumParts(|data|, partSize);
    ConcatLength(data, partSize, n);
    assert Chunks(data, partSize)[..n] == Chunks(data, partSize);
    Coverage(|data|, partSize);
    if n * partSize < |data| { assert |data[..n * partSize]| < |data|; }
    else { assert data[..|data|] == data; }
  }

  // ---------------------------------------------------------------- collecting

  datatype PartState = PartState(total: nat, hash: Bytes, parts: seq<Option<Part>>,
                                 bits: set<int>, count: nat, byteSize: nat)

  datatype AddError = NoError | UnexpectedIndex | InvalidProof

  /** `NewPartSetFromHeader`. */
  function HeaderOnly(total: nat, hash: Bytes): PartState {
    PartState(total, hash, seq(total, _ => None), {}, 0, 0)
  }

  /** `AddPart`. */
  function Add(sum: Hasher, s: PartState, p: Part): (PartState, bool, AddError)
    requires |s.parts| == s.total
  {
    if p.index >= s.total then (s, false, UnexpectedIndex)
    else if s.parts[p.index].Some? then (s, false, NoError)
    else if !Verifies(sum, p.proof, s.hash, p.bytes) then (s, false, InvalidProof)
    else (s.(parts := s.parts[p.index := Some(p)], bits := s.bits + {p.index},
             count := s.count + 1, byteSize := s.byteSize + |p.bytes|), true, NoError)
  }

  predicate IsComplete(s: PartState) { s.count == s.total }

  function Size(p: Option<Part>): nat { if p.Some? then |p.value.bytes| else 0 }

  function SizeBelow(parts: seq<Option<Part>>, n: nat): nat
    requires n <= |parts|
  {
    if n == 0 then 0 else SizeBelow(parts, n - 1) + Size(parts[n - 1])
  }

  function FilledBelow(parts: seq<Option<Part>>, n: nat): nat
    requires n <= |parts|
  {
    if n == 0 then 0 else FilledBelow(parts, n - 1) + (if parts[n - 1].Some? then 1 else 0)
  }

  /** Bits, count and byte size all describe the parts held, and each part held was proved against the hash. */
  ghost predicate Valid(sum: Hasher, s: PartState) {
    && |s.parts| == s.total
    && s.bits == (set i | 0 <= i < |s.parts| && s.parts[i].Some?)
    && s.count == FilledBelow(s.parts, |s.parts|)
    && s.byteSize == SizeBelow(s.parts, |s.parts|)
    && forall i | 0 <= i < |s.parts| && s.parts[i].Some? ::
         s.parts[i].value.index == i && Verifies(sum, s.parts[i].value.proof, s.hash, s.parts[i].value.bytes)
  }

  lemma {:induction false} FillSlot(parts: seq<Option<Part>>, i: nat, p: Part, n: nat)
    requires n <= |parts| && i < |parts| && parts[i].None?
    ensures FilledBelow(parts[i := Some(p)], n) == FilledBelow(parts, n) + (if i < n then 1 else 0)
    ensures SizeBelow(parts[i := Some(p)], n) == SizeBelow(parts, n) + (if i < n then |p.bytes| else 0)
  {
    if n > 0 { FillSlot(parts, i, p, n - 1); }
  }

  lemma AddKeeps(sum: Hasher, s: PartState, p: Part)
    requires Valid(sum, s)
    ensures Valid(sum, Add(sum, s, p).0)
  {
    if Add(sum, s, p).1 { FillSlot(s.parts, p.index, p, |s.parts|); }
  }

  lemma FromHeaderValid(sum: Hasher, total: nat, hash: Bytes)
    ensures Valid(sum, HeaderOnly(total, hash))
  {
    NothingFilled(HeaderOnly(total, hash).parts, total);
  }

  lemma {:induction false} NothingFilled(parts: seq<Option<Part>>, n: nat)
    requires n <= |parts| && forall i | 0 <= i < |parts| :: parts[i].None?
    ensures FilledBelow(parts, n) == 0 && SizeBelow(parts, n) == 0
  {
    if n > 0 { NothingFilled(parts, n - 1); }
  }

  lemma {:induction false} FilledAll(parts: seq<Option<Part>>, n: nat)
    requires n <= |parts|
    ensures FilledBelow(parts, n) <= n
    ensures FilledBelow(parts, n) == n <==> forall i | 0 <= i < n :: parts[i].Some?
  {
    if n > 0 { FilledAll(parts, n - 1); }
  }

  /** The set is complete exactly when every slot is filled. */
  lemma CompleteWhenFilled(sum: Hasher, s: PartState)
    requires Valid(sum, s)
    ensures |s.parts| == s.total
    ensures IsComplete(s) <==> forall i | 0 <= i < s.total :: s.parts[i].Some?
  {
    FilledAll(s.parts, s.total);
  }

  // ---------------------------------------------------------------- the originals, in any order

  function Original(sum: Hasher, items: seq<Bytes>, i: nat): Part
    requires i < |items|
  {
    Part(i, items[i], ProofOf(sum, items, i))
  }

  /** A header-only set after the original parts with the given numbers have arrived, repeats included. */
  ghost function Receive(sum: Hasher, items: seq<Bytes>, order: seq<nat>): (s: PartState)
    requires forall k | 0 <= k < |order| :: order[k] < |items|
    ensures Valid(sum, s) && s.total == |items| && s.hash == Root(sum, items)
  {
    if order == [] then
      FromHeaderValid(sum, |items|, Root(sum, items));
      HeaderOnly(|items|, Root(sum, items))
    else
      var s := Receive(sum, items, order[..|order| - 1]);
      AddKeeps(sum, s, Original(sum, items, order[|order| - 1]));
      Add(sum, s, Original(sum, items, order[|order| - 1])).0
  }

  /** Whatever the order and the repeats, exactly the parts that arrived are held, each of them the original. */
  lemma {:induction false} ReceiveHolds(sum: Hasher, items: seq<Bytes>, order: seq<nat>, i: nat)
    requires FixedSize(sum) && i < |items| && forall k | 0 <= k < |order| :: order[k] < |items|
    ensures Receive(sum, items, order).parts[i] == if i in order then Some(Original(sum, items, i)) else None
  {
    hide Root, Verifies, ProofOf;
    if order != [] {
      var n := |order| - 1;
      ReceiveHolds(sum, items, order[..n], i);
      ReceiveHolds(sum, items, order[..n], order[n]);
      ProofAccepted(sum, items, order[n]);
      assert order == order[..n] + [order[n]];
    }
  }

  lemma ProofAccepted(sum: Hasher, items: seq<Bytes>, i: nat)
    requires FixedSize(sum) && i < |items|
    ensures var p := Original(sum, items, i); Verifies(sum, p.proof, Root(sum, items), p.bytes)
  {
    GeneratedProofVerifies(sum, items, i);
  }

  function BytesOf(parts: seq<Option<Part>>): seq<Bytes> {
    seq(|parts|, i requires 0 <= i < |parts| => if parts[i].Some? then parts[i].value.bytes else [])
  }

  /** The receiver is complete exactly when every part has arrived, and then holds exactly the data. */
  lemma AnyOrderReassembles(sum: Hasher, data: Bytes, partSize: nat, order: seq<nat>)
    requires FixedSize(sum) && 0 < partSize < U32 && Fits(|data|, partSize)
    requires forall k | 0 <= k < |order| :: order[k] < NumParts(|data|, partSize)
    ensures var s := Receive(sum, Chunks(data, partSize), order);
            && (IsComplete(s) <==> forall i: nat | i < s.total :: i in order)
            && (IsComplete(s) ==> Concat(BytesOf(s.parts)) == data)
  {
    hide NumParts, Chunks, Concat, Root, Fits, Valid, Receive, Original, IsComplete;
    var items := Chunks(data, partSize);
    var s := Receive(sum, items, order);
    CompleteWhenFilled(sum, s);
    forall i: nat | i < |items| ensures s.parts[i] == if i in order then Some(Original(sum, items, i)) else None {
      ReceiveHolds(sum, items, order, i);
    }
    if IsComplete(s) {
      OriginalBytes(sum, items, s.parts);
      PartsConcatenate(data, partSize);
    }
  }

  lemma OriginalBytes(sum: Hasher, items: seq<Bytes>, parts: seq<Option<Part>>)
    requires |parts| == |items| && forall i: nat | i < |items| :: parts[i] == Some(Original(sum, items, i))
    ensures BytesOf(parts) == items
  {
    hide ProofOf;
  }

  // ---------------------------------------------------------------- parts from strangers

  /** Two colliding inputs of the hash function can be read off the part. */
  ghost predicate Exposes(sum: Hasher, items: seq<Bytes>, p: Part) {
    Collision(sum, Extract(sum, items, p.proof.index, p.proof.total, p.proof.aunts, p.bytes))
  }

  /** An accepted, well-formed part holds the item its proof's path lands on, whatever slot, index and total it
      claims. So it holds its slot's item exactly when the item it lands on is the same. */
  lemma AcceptedPart(sum: Hasher, items: seq<Bytes>, p: Part)
    requires FixedSize(sum) && ValidateBasic(p.proof) && Verifies(sum, p.proof, Root(sum, items), p.bytes)
    requires p.index < |items| && !Exposes(sum, items, p)
    ensures var place := Landing(p.proof.index, p.proof.total, |items|);
            && place.Some? && p.bytes == items[place.value]
            && (p.bytes == items[p.index] <==> items[place.value] == items[p.index])
  {
    hide Landing, Extract, AuntsOf;
    VerifyingProofIsSound(sum, items, p.proof, p.bytes);
  }

  /** `AddPart` compares neither index nor total of the proof with the slot. An accepted, well-formed part is the
      original of its slot exactly when they match; otherwise it exposes a collision. */
  lemma OwnPartIff(sum: Hasher, items: seq<Bytes>, p: Part)
    requires FixedSize(sum) && ValidateBasic(p.proof) && Verifies(sum, p.proof, Root(sum, items), p.bytes)
    requires p.index < |items|
    ensures Exposes(sum, items, p)
         || (p == Original(sum, items, p.index) <==> p.proof.index == p.index && p.proof.total == |items|)
  {
    hide Landing, Extract, AuntsOf;
    VerifyingProofIsSound(sum, items, p.proof, p.bytes);
  }

  /** Any other item with its own proof is accepted in slot `i`. */
  lemma MisplacedPart(sum: Hasher, items: seq<Bytes>, i: nat, j: nat)
    requires FixedSize(sum) && i < |items| && j < |items|
    ensures var p := Part(i, items[j], ProofOf(sum, items, j));
            var (s, added, err) := Add(sum, HeaderOnly(|items|, Root(sum, items)), p);
            added && s.parts[i].value.bytes == items[j]
  {
    GeneratedProofVerifies(sum, items, j);
  }

  /** A header-only set after any parts at all were offered, in order. */
  ghost function Collect(sum: Hasher, items: seq<Bytes>, offered: seq<Part>): (s: PartState)
    ensures Valid(sum, s) && s.total == |items| && s.hash == Root(sum, items)
  {
    if offered == [] then
      FromHeaderValid(sum, |items|, Root(sum, items));
      HeaderOnly(|items|, Root(sum, items))
    else
      var s := Collect(sum, items, offered[..|offered| - 1]);
      AddKeeps(sum, s, offered[|offered| - 1]);
      Add(sum, s, offered[|offered| - 1]).0
  }

  lemma {:induction false} CollectHolds(sum: Hasher, items: seq<Bytes>, offered: seq<Part>, i: nat)
    requires i < |items|
    ensures var s := Collect(sum, items, offered); s.parts[i].Some? ==> s.parts[i].value in offered
    decreases |offered|
  {
    if offered != [] {
      hide Root, Verifies;
      CollectHolds(sum, items, offered[..|offered| - 1], i);
    }
  }

  /** Index and total of the proof are those of the slot. */
  predicate Matches(p: Part, total: nat) { p.proof.index == p.index && p.proof.total == total }

  /** Whoever the parts come from: if they are well formed and none exposes a collision, a set that is complete
      holds the originals exactly when every part in it matches its slot. */
  lemma CompleteIff(sum: Hasher, items: seq<Bytes>, offered: seq<Part>)
    requires FixedSize(sum) && IsComplete(Collect(sum, items, offered))
    requires forall p | p in offered :: ValidateBasic(p.proof) && !Exposes(sum, items, p)
    ensures var s := Collect(sum, items, offered);
            && (forall i: nat | i < |items| :: s.parts[i].Some?)
            && ((forall i: nat | i < |items| :: s.parts[i] == Some(Original(sum, items, i)))
                <==> (forall i: nat | i < |items| :: Matches(s.parts[i].value, |items|)))
  {
    hide Root, Verifies, Exposes, Original, ValidateBasic, IsComplete, Collect;
    var s := Collect(sum, items, offered);
    CompleteWhenFilled(sum, s);
    forall i: nat | i < |items|
      ensures s.parts[i] == Some(Original(sum, items, i)) <==> Matches(s.parts[i].value, |items|)
    {
      CollectHolds(sum, items, offered, i);
      OwnPartIff(sum, items, s.parts[i].value);
      OriginalMatches(sum, items, i);
    }
  }

  lemma OriginalMatches(sum: Hasher, items: seq<Bytes>, i: nat)
    requires i < |items|
    ensures Matches(Original(sum, items, i), |items|)
  {
  }

  /** Parts from anyone: when every well-formed part that would be accepted matches its slot, a complete set reads
      back as the data, or one of the parts exposes a collision. */
  lemma StrangersReassemble(sum: Hasher, data: Bytes, partSize: nat, offered: seq<Part>)
    requires FixedSize(sum) && 0 < partSize < U32 && Fits(|data|, partSize)
    requires forall p | p in offered :: ValidateBasic(p.proof)
    requires forall p | p in offered && Verifies(sum, p.proof, Root(sum, Chunks(data, partSize)), p.bytes) ::
               Matches(p, NumParts(|data|, partSize))
    requires IsComplete(Collect(sum, Chunks(data, partSize), offered))
    ensures Concat(BytesOf(Collect(sum, Chunks(data, partSize), offered).parts)) == data
         || exists p :: p in offered && Exposes(sum, Chunks(data, partSize), p)
  {
    hide NumParts, Chunks, Concat, Root, Fits, Verifies, Exposes, Original, ValidateBasic, IsComplete, Collect;
    var items := Chunks(data, partSize);
    if forall p | p in offered :: !Exposes(sum, items, p) {
      var s := Collect(sum, items, offered);
      CompleteIff(sum, items, offered);
      forall i: nat | i < |items| ensures Matches(s.parts[i].value, |items|) {
        CollectHolds(sum, items, offered, i);
      }
      OriginalBytes(sum, items, s.parts);
      PartsConcatenate(data, partSize);
    }
  }

  // ---------------------------------------------------------------- the objects

  class PartSet {
    const sum: Hasher
    const total: nat
    const hash: Bytes
    const parts: array<Option<Part>>
    var bits: set<int>
    var count: nat
    var byteSize: nat

    ghost function View(): PartState
      reads this, parts
    {
      PartState(total, hash, parts[..], bits, count, byteSize)
    }

    constructor FromHeader(sum: Hasher, total: nat, hash: Bytes)
      ensures fresh(parts) && this.sum == sum && View() == HeaderOnly(total, hash) && Valid(sum, View())
    {
      this.sum, this.total, this.hash := sum, total, hash;
      parts := new Option<Part>[total](_ => None);
      bits, count, byteSize := {}, 0, 0;
      new;
      assert parts[..] == HeaderOnly(total, hash).parts;
      FromHeaderValid(sum, total, hash);
    }

    method AddPart(p: Part) returns (added: bool, err: AddError)
      requires Valid(sum, View())
      modifies this, parts
      ensures (View(), added, err) == Add(sum, old(View()), p) && Valid(sum, View())
      ensures err == UnexpectedIndex <==> p.index >= total
      ensures err == InvalidProof <==>
                p.index < total && old(View()).parts[p.index].None? && !Verifies(sum, p.proof, hash, p.bytes)
      ensures added <==> p.index < total && old(View()).parts[p.index].None? && Verifies(sum, p.proof, hash, p.bytes)
      ensures View().parts == if added then old(View()).parts[p.index := Some(p)] else old(View()).parts
    {
      AddKeeps(sum, View(), p);
      if p.index >= total { return false, UnexpectedIndex; }
      if parts[p.index].Some? { return false, NoError; }
      if !Verifies(sum, p.proof, hash, p.bytes) { return false, InvalidProof; }
      parts[p.index] := Some(p);
      bits := bits + {p.index};
      count := count + 1;
      byteSize := byteSize + |p.bytes|;
      return true, NoError;
    }
  }

  /** `NewPartSetFromData`: the parts and the root hash of the data. */
  method SplitData(sum: Hasher, data: Bytes, partSize: nat) returns (root: Bytes, parts: seq<Part>)
    requires 0 < partSize < U32
    ensures root == Root(sum, Chunks(data, partSize)) && |parts| == NumParts(|data|, partSize)
    ensures forall i | 0 <= i < |parts| :: parts[i] == Original(sum, Chunks(data, partSize), i)
  {
    hide NumParts, Chunks, Root, ProofOf;
    var total := NumParts(|data|, partSize);
    var pieces := [];
    var i := 0;
    while i < total
      invariant 0 <= i <= total && |pieces| == i
      invariant forall j | 0 <= j < i :: pieces[j] == Chunk(data, partSize, j)
    {
      ChunkInRange(|data|, partSize, i);
      pieces := pieces + [data[i * partSize..Min(|data|, (i + 1) * partSize)]];
      i := i + 1;
    }
    assert pieces == Chunks(data, partSize);
    var proofs;
    root, proofs := ProofsFromByteSlices(sum, pieces);
    parts := [];
    i := 0;
    while i < total
      invariant 0 <= i <= total && |parts| == i
      invariant forall j | 0 <= j < i :: parts[j] == Original(sum, pieces, j)
    {
      parts := parts + [Part(i, pieces[i], proofs[i])];
      i := i + 1;
    }
  }

  /** `PartSetReader`: `unread` is what is left of part `i`. */
  class PartSetReader {
    const parts: seq<Bytes>
    var i: nat
    var unread: Bytes

    /** Everything still to be read. */
    ghost function Rest(): Bytes
      reads this
    {
      unread + From(parts, i + 1)
    }

    constructor (parts: seq<Bytes>)
      requires parts != []
      ensures this.parts == parts && Rest() == Concat(parts)
    {
      this.parts := parts;
      i := 0;
      unread := parts[0];
      new;
      FromIsConcat(parts, 0);
      assert parts[0..] == parts;
    }

    /** `Read` into a buffer of `n` bytes. */
    method Read(n: nat) returns (out: Bytes, eof: bool)
      modifies this
      ensures old(Rest()) == out + Rest() && |out| == Min(n, |old(Rest())|)
      ensures n > 0 ==> (eof <==> |old(Rest())| < n)
      decreases |parts| - i, n
    {
      if |unread| >= n {
        out := unread[..n];
        eof := unread == [];
        unread := unread[n..];
        return;
      }
      if |unread| > 0 {
        var first := unread;
        unread := [];
        ghost var rest := Rest();
        assert old(Rest()) == first + rest;
        var second;
        second, eof := Read(n - |first|);
        assert rest == second + Rest();
        return first + second, eof;
      }
      i := i + 1;
      if i >= |parts| { return [], true; }
      unread := parts[i];
      out, eof := Read(n);
    }

    /** Reading until end of file, with whatever positive buffer sizes, yields all that was left. */
    method ReadAll(sizes: int -> nat) returns (out: Bytes)
      requires forall k :: sizes(k) > 0
      modifies this
      ensures out == old(Rest())
    {
      out := [];
      var eof := false;
      var k := 0;
      while !eof
        invariant old(Rest()) == out + Rest()
        invariant eof ==> Rest() == []
        decreases !eof, |Rest()|
      {
        var chunk;
        chunk, eof := Read(sizes(k));
        out := out + chunk;
        k := k + 1;
      }
    }
  }

  /** The bytes of the parts from `i` on. */
  function From(parts: seq<Bytes>, i: nat): Bytes
    decreases |parts| - i
  {
    if i >= |parts| then [] else parts[i] + From(parts, i + 1)
  }

  lemma {:induction false} FromIsConcat(parts: seq<Bytes>, i: nat)
    requires i <= |parts|
    ensures From(parts, i) == Concat(parts[i..])
    decreases |parts| - i
  {
    if i < |parts| {
      FromIsConcat(parts, i + 1);
      ConcatHead(parts[i..]);
      assert parts[i..][1..] == parts[i + 1..];
    }
  }

  lemma {:induction false} ConcatHead(parts: seq<Bytes>)
    requires parts != []
    ensures Concat(parts) == parts[0] + Concat(parts[1..])
    decreases |parts|
  {
    if |parts| > 1 {
      var n := |parts| - 1;
      ConcatHead(parts[..n]);
      assert parts[..n][1..] == parts[1..][..n - 1];
    } else {
      assert parts[..0] == [] && parts[1..] == [];
    }
  }
}
