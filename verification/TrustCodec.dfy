/** `proto/crtrust/crtrust.pb.go`: the `Notice` and `LocalEvaluation` messages. */
module TrustCodec {
  import opened Types
  import opened Wire
  import opened Codec
  import Merkle

  /** Both messages: a notice is an evaluation message without evaluations. Values are the bits of a float64. */
  datatype Trust = Trust(evals: map<Bytes, nat>, src: Bytes, height: int) {
    predicate InRange() { -I64 <= height < I64 && forall k | k in evals :: evals[k] < U64 }
  }

  datatype Kind = Notice | LocalEvaluation

  const NEW_TRUST := Trust(map[], [], 0)

  // ---------------------------------------------------------------- encoding

  function BytesField(tag: byte, s: Bytes): Bytes { [tag] + Varint(|s|) + s }

  function OptBytesField(tag: byte, s: Bytes): Bytes { if s == [] then [] else BytesField(tag, s) }

  function EntryBody(k: Bytes, v: nat): Bytes { BytesField(0xa, k) + ([0x11] + LittleEndian(v, 8)) }

  function Entry(k: Bytes, v: nat): Bytes { BytesField(0xa, EntryBody(k, v)) }

  function Entries(evals: map<Bytes, nat>, order: seq<Bytes>): Bytes
    requires forall k | k in order :: k in evals
  {
    if order == [] then [] else Entry(order[0], evals[order[0]]) + Entries(evals, order[1..])
  }

  /** What `Marshal` produces when the map is walked so that its entries end up in the given order. */
  function Encode(m: Trust, order: seq<Bytes>): Bytes
    requires m.InRange() && forall k | k in order :: k in m.evals
  {
    Entries(m.evals, order) + OptBytesField(0x12, m.src) + VarintField(0x18, m.height)
  }

  // ---------------------------------------------------------------- decoding

  /** The loop over one map entry; `end` is where the entry is said to end. */
  function DecodeEntry(data: Bytes, i: nat, end: nat, k: Bytes, v: nat): Result<(Bytes, nat)>
    requires end <= |data|
    decreases |data| - i
  {
    if i >= end then Ok((k, v))
    else
      match ReadVarint(data, i)
      case Overflow => Err(IntOverflow)
      case ShortInput => Err(UnexpectedEOF)
      case Got(wire, j) =>
        var field := ToI32(wire / 8);
        if field == 1 then
          match ReadLength(data, j)
          case Err(e) => Err(e)
          case Ok((start, stop)) => DecodeEntry(data, stop, end, data[start..stop], v)
        else if field == 2 then
          if j + 8 > |data| then Err(UnexpectedEOF)
          else DecodeEntry(data, j + 8, end, k, ReadLittleEndian(data, j, 8))
        else
          match SkipFrom(data[i..], 0, 0)
          case Err(e) => Err(e)
          case Ok(n) =>
            if i + n >= I64 then Err(InvalidLength)
            else if i + n > end then Err(UnexpectedEOF)
            else DecodeEntry(data, i + n, end, k, v)
  }

  /** `Unmarshal`, from index `i` on, into a message that already holds `m`. */
  function Decode(kind: Kind, data: Bytes, i: nat, m: Trust): Result<Trust>
    decreases |data| - i
  {
    if i >= |data| then Ok(m)
    else
      match ReadTag(data, i)
      case Err(e) => Err(e)
      case Ok(Tag(field, wireType, j)) =>
        if field == 2 || (field == 1 && kind == LocalEvaluation) then
          if wireType != 2 then Err(WrongWireType)
          else
            match ReadLength(data, j)
            case Err(e) => Err(e)
            case Ok((start, stop)) =>
              if field == 2 then Decode(kind, data, stop, m.(src := data[start..stop]))
              else
                match DecodeEntry(data, start, stop, [], 0)
                case Err(e) => Err(e)
                case Ok((k, v)) => Decode(kind, data, stop, m.(evals := m.evals[k := v]))
        else if field == 3 then
          if wireType != 0 then Err(WrongWireType)
          else
            match ReadVarint(data, j)
            case Got(u, k) => Decode(kind, data, k, m.(height := ToI64(u)))
            case r => Err(ReadError(r))
        else
          match SkipField(data, i)
          case Err(e) => Err(e)
          case Ok(k) => Decode(kind, data, k, m)
  }

  // ---------------------------------------------------------------- round trip

  lemma BytesFieldParts(data: Bytes, i: nat, tag: byte, s: Bytes)
    requires At(data, i, BytesField(tag, s)) && |data| < I64
    ensures i < |data| && data[i] == tag
    ensures var stop := i + |BytesField(tag, s)|;
            ReadLength(data, i + 1) == Ok((stop - |s|, stop)) && data[stop - |s|..stop] == s && stop - |s| > i
  {
    hide Varint, ReadVarint;
    var n := |Varint(|s|)|;
    assert BytesField(tag, s) == [tag] + (Varint(|s|) + s);
    AtSplit(data, i, [tag], Varint(|s|) + s);
    AtSplit(data, i + 1, Varint(|s|), s);
    assert data[i] == data[i..i + 1][0];
    VarintRoundTrip(data, i + 1, |s|);
  }

  /** A known field in another wire type is refused, and so is a group that ends before it began. */
  lemma FieldRefused(kind: Kind, data: Bytes, i: nat, m: Trust)
    requires i < |data| && (data[i] as int / 8 in {2, 3} || (data[i] as int / 8 == 1 && kind == LocalEvaluation))
    requires data[i] as int % 8 != if data[i] as int / 8 == 3 then 0 else 2
    ensures Decode(kind, data, i, m) == Err(if data[i] as int % 8 == 4 then EndGroup else WrongWireType)
  {
    hide ReadVarint, SkipField, ReadLength, DecodeEntry;
    OneByteVarint(data, i);
  }

  lemma DecodeSrc(kind: Kind, data: Bytes, i: nat, m: Trust, s: Bytes)
    requires At(data, i, OptBytesField(0x12, s)) && |data| < I64 && m.src == []
    ensures Decode(kind, data, i, m) == Decode(kind, data, i + |OptBytesField(0x12, s)|, m.(src := s))
  {
    hide ReadVarint, ReadTag, ReadLength, SkipField, DecodeEntry, Decode, Varint, At;
    if s != [] {
      BytesFieldParts(data, i, 0x12, s);
      SmallTag(data, i);
      var stop := i + |BytesField(0x12, s)|;
      DecodeField2(kind, data, i, m, stop - |s|, stop);
    }
  }

  /** One turn of the decoding loop at a field of number 2. */
  lemma DecodeField2(kind: Kind, data: Bytes, i: nat, m: Trust, start: nat, stop: nat)
    requires i < |data| && ReadTag(data, i) == Ok(Tag(2, 2, i + 1)) && ReadLength(data, i + 1) == Ok((start, stop))
    ensures start <= stop <= |data| && Decode(kind, data, i, m) == Decode(kind, data, stop, m.(src := data[start..stop]))
  {
    hide ReadVarint, ReadTag, ReadLength, SkipField, DecodeEntry;
  }

  lemma DecodeHeight(kind: Kind, data: Bytes, i: nat, m: Trust, x: int)
    requires -I64 <= x < I64 && At(data, i, VarintField(0x18, x)) && m.height == 0
    ensures Decode(kind, data, i, m) == Decode(kind, data, i + |VarintField(0x18, x)|, m.(height := x))
  {
    hide ReadVarint, ReadTag, ReadLength, SkipField, DecodeEntry, ToU64, ToI64;
    if x != 0 { DecodeVarintField(data, i, 0x18, x); }
  }

  lemma EntryKey(data: Bytes, i: nat, end: nat, k: Bytes)
    requires At(data, i, BytesField(0xa, k)) && end <= |data| < I64 && i < end
    ensures DecodeEntry(data, i, end, [], 0) == DecodeEntry(data, i + |BytesField(0xa, k)|, end, k, 0)
  {
    hide ReadVarint, ReadLength, SkipFrom;
    BytesFieldParts(data, i, 0xa, k);
    OneByteVarint(data, i);
  }

  lemma EntryValue(data: Bytes, i: nat, end: nat, k: Bytes, v: nat)
    requires At(data, i, [0x11] + LittleEndian(v, 8)) && v < U64 && end == i + 9 <= |data|
    ensures DecodeEntry(data, i, end, k, 0) == Ok((k, v))
  {
    hide ReadVarint, ReadLength, SkipFrom, ReadLittleEndian, LittleEndian, Merkle.Pow2;
    AtSplit(data, i, [0x11], LittleEndian(v, 8));
    assert data[i] == data[i..i + 1][0];
    OneByteVarint(data, i);
    Pow2Of64();
    LittleEndianBack(data, i + 1, v, 8);
  }

  lemma DecodeOneEntry(data: Bytes, i: nat, m: Trust, k: Bytes, v: nat)
    requires At(data, i, Entry(k, v)) && v < U64 && |data| < I64
    ensures Decode(LocalEvaluation, data, i, m)
         == Decode(LocalEvaluation, data, i + |Entry(k, v)|, m.(evals := m.evals[k := v]))
  {
    hide ReadVarint, ReadTag, ReadLength, SkipField, DecodeEntry, LittleEndian, BytesField;
    var body := EntryBody(k, v);
    BytesFieldParts(data, i, 0xa, body);
    SmallTag(data, i);
    var stop := i + |Entry(k, v)|;
    var start := stop - |body|;
    AtSplit(data, start, BytesField(0xa, k), [0x11] + LittleEndian(v, 8));
    EntryKey(data, start, stop, k);
    EntryValue(data, start + |BytesField(0xa, k)|, stop, k, v);
  }

  /** The map filled in the given order. */
  function Filled(start: map<Bytes, nat>, evals: map<Bytes, nat>, order: seq<Bytes>): map<Bytes, nat>
    requires forall k | k in order :: k in evals
    decreases |order|
  {
    if order == [] then start else Filled(start[order[0] := evals[order[0]]], evals, order[1..])
  }

  lemma {:induction false} FilledIs(start: map<Bytes, nat>, evals: map<Bytes, nat>, order: seq<Bytes>)
    requires forall k | k in order :: k in evals
    requires forall k | k in start :: k in evals && start[k] == evals[k]
    requires forall k | k in evals :: k in start || k in order
    ensures Filled(start, evals, order) == evals
    decreases |order|
  {
    if order != [] {
      assert order == [order[0]] + order[1..];
      FilledIs(start[order[0] := evals[order[0]]], evals, order[1..]);
    }
  }

  lemma {:induction false} DecodeEntries(data: Bytes, i: nat, m: Trust, evals: map<Bytes, nat>, order: seq<Bytes>)
    requires forall k | k in order :: k in evals
    requires At(data, i, Entries(evals, order)) && |data| < I64 && forall k | k in evals :: evals[k] < U64
    ensures Decode(LocalEvaluation, data, i, m)
         == Decode(LocalEvaluation, data, i + |Entries(evals, order)|, m.(evals := Filled(m.evals, evals, order)))
    decreases |order|
  {
    hide Decode, Entry;
    if order != [] {
      var k := order[0];
      AtSplit(data, i, Entry(k, evals[k]), Entries(evals, order[1..]));
      DecodeOneEntry(data, i, m, k, evals[k]);
      DecodeEntries(data, i + |Entry(k, evals[k])|, m.(evals := m.evals[k := evals[k]]), evals, order[1..]);
    }
  }

  /** `Unmarshal(Marshal(m))` gives every message back, negative heights and empty map keys included, in
      whatever order the map was walked. */
  lemma TrustRoundTrip(kind: Kind, m: Trust, order: seq<Bytes>)
    requires m.InRange() && (kind == Notice ==> m.evals == map[])
    requires forall k :: k in order <==> k in m.evals
    requires |Encode(m, order)| < I64
    ensures Decode(kind, Encode(m, order), 0, NEW_TRUST) == Ok(m)
  {
    hide Decode, OptBytesField, VarintField, Entries, Filled, At;
    var data := Encode(m, order);
    var a, b, c := Entries(m.evals, order), OptBytesField(0x12, m.src), VarintField(0x18, m.height);
    PiecesAt(a, b, c);
    if kind == LocalEvaluation {
      DecodeEntries(data, 0, NEW_TRUST, m.evals, order);
      FilledIs(map[], m.evals, order);
    } else {
      NoEntries(m.evals, order);
    }
    DecodeSrc(kind, data, |a|, NEW_TRUST.(evals := m.evals), m.src);
    DecodeHeight(kind, data, |a| + |b|, NEW_TRUST.(evals := m.evals, src := m.src), m.height);
    AtTheEnd(kind, data, m);
  }

  lemma PiecesAt(a: Bytes, b: Bytes, c: Bytes)
    ensures At(a + b + c, 0, a) && At(a + b + c, |a|, b) && At(a + b + c, |a| + |b|, c)
  {
    var data := a + b + c;
    assert data[0..|a|] == a && data[|a|..|a| + |b|] == b && data[|a| + |b|..|data|] == c;
  }

  lemma NoEntries(evals: map<Bytes, nat>, order: seq<Bytes>)
    requires evals == map[] && forall k | k in order :: k in evals
    ensures Entries(evals, order) == []
  {
    Inhabited(order);
  }

  lemma AtTheEnd(kind: Kind, data: Bytes, m: Trust)
    ensures Decode(kind, data, |data|, m) == Ok(m)
  {
  }
}
