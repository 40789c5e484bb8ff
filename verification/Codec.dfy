/** The generated codecs of `proto/store/store_types.pb.go` and `proto/crtrust/crtrust.pb.go`. */
module Codec {
  import opened Types
  import opened Wire
  import Merkle

  datatype DecodeError = IntOverflow | UnexpectedEOF | EndGroup | IllegalTag | WrongWireType | InvalidLength
                       | UnexpectedEndOfGroup | IllegalWireType

  datatype Result<+T> = Ok(value: T) | Err(error: DecodeError)

  // ---------------------------------------------------------------- fields

  datatype Tag = Tag(field: int, wireType: nat, next: nat)

  function ReadError(r: ReadResult): DecodeError { if r.Overflow? then IntOverflow else UnexpectedEOF }

  function ReadTag(data: Bytes, i: nat): (r: Result<Tag>)
    ensures r.Ok? ==> i < r.value.next <= |data|
  {
    match ReadVarint(data, i)
    case Got(wire, next) =>
      if wire % 8 == 4 then Err(EndGroup)
      else if ToI32(wire / 8) <= 0 then Err(IllegalTag)
      else Ok(Tag(ToI32(wire / 8), wire % 8, next))
    case r => Err(ReadError(r))
  }

  /** A length-delimited field's extent. */
  function ReadLength(data: Bytes, i: nat): (r: Result<(nat, nat)>)
    ensures r.Ok? ==> i < r.value.0 <= r.value.1 <= |data|
  {
    match ReadVarint(data, i)
    case Got(u, next) =>
      if ToI64(u) < 0 || next + u >= I64 then Err(InvalidLength)
      else if next + u > |data| then Err(UnexpectedEOF)
      else Ok((next, next + u))
    case r => Err(ReadError(r))
  }

  /** `skip`: the end of the field that starts at the beginning of `data`, groups included. The end of a
      fixed-size or length-delimited field is not checked against the input here. */
  function SkipFrom(data: Bytes, i: nat, depth: nat): (r: Result<nat>)
    ensures r.Ok? ==> r.value > i
    decreases |data| - i, 0
  {
    match ReadVarint(data, i)
    case Overflow => Err(IntOverflow)
    case ShortInput => Err(UnexpectedEOF)
    case Got(wire, next) =>
      var t := wire % 8;
      if t == 0 then
        match ReadVarint(data, next)
        case Got(_, end) => SkipMore(data, end, depth)
        case r => Err(ReadError(r))
      else if t == 1 then SkipMore(data, next + 8, depth)
      else if t == 2 then
        match ReadVarint(data, next)
        case Got(u, start) =>
          if ToI64(u) < 0 || start + u >= I64 then Err(InvalidLength) else SkipMore(data, start + u, depth)
        case r => Err(ReadError(r))
      else if t == 3 then SkipMore(data, next, depth + 1)
      else if t == 4 then if depth == 0 then Err(UnexpectedEndOfGroup) else SkipMore(data, next, depth - 1)
      else if t == 5 then SkipMore(data, next + 4, depth)
      else Err(IllegalWireType)
  }

  function SkipMore(data: Bytes, i: nat, depth: nat): (r: Result<nat>)
    ensures r.Ok? ==> r.value >= i
    decreases |data| - i, 1
  {
    if depth == 0 then Ok(i) else if i >= |data| then Err(UnexpectedEOF) else SkipFrom(data, i, depth)
  }

  /** Where an unknown field that starts at `i` ends. */
  function SkipField(data: Bytes, i: nat): (r: Result<nat>)
    requires i < |data|
    ensures r.Ok? ==> i < r.value <= |data|
  {
    match SkipFrom(data[i..], 0, 0)
    case Err(e) => Err(e)
    case Ok(n) =>
      if i + n >= I64 then Err(InvalidLength) else if i + n > |data| then Err(UnexpectedEOF) else Ok(i + n)
  }

  // ---------------------------------------------------------------- BlockStoreState

  datatype StoreState = StoreState(base: int, height: int, unrecognized: Bytes) {
    predicate InRange() { -I64 <= base < I64 && -I64 <= height < I64 }
  }

  function VarintField(tag: byte, x: int): Bytes
    requires -I64 <= x < I64
  {
    if x == 0 then [] else [tag] + Varint(ToU64(x))
  }

  /** What `Marshal` produces. */
  function EncodeStore(m: StoreState): Bytes
    requires m.InRange()
  {
    VarintField(0x8, m.base) + VarintField(0x10, m.height) + m.unrecognized
  }

  /** `Unmarshal`, from index `i` on, into a message that already holds `m`. */
  function DecodeStore(data: Bytes, i: nat, m: StoreState): Result<StoreState>
    decreases |data| - i
  {
    if i >= |data| then Ok(m)
    else
      match ReadTag(data, i)
      case Err(e) => Err(e)
      case Ok(Tag(field, wireType, j)) =>
        if field == 1 || field == 2 then
          if wireType != 0 then Err(WrongWireType)
          else
            match ReadVarint(data, j)
            case Got(u, k) =>
              DecodeStore(data, k, if field == 1 then m.(base := ToI64(u)) else m.(height := ToI64(u)))
            case r => Err(ReadError(r))
        else
          match SkipField(data, i)
          case Err(e) => Err(e)
          case Ok(k) => DecodeStore(data, k, m.(unrecognized := m.unrecognized + data[i..k]))
  }

  /** From `i` on the data is a sequence of well-formed fields none of which this message knows. */
  predicate UnknownFrom(data: Bytes, i: nat)
    decreases |data| - i
  {
    i >= |data| ||
    (&& ReadTag(data, i).Ok? && ReadTag(data, i).value.field != 1 && ReadTag(data, i).value.field != 2
     && SkipField(data, i).Ok? && UnknownFrom(data, SkipField(data, i).value))
  }

  lemma {:induction false} DecodeLength(data: Bytes, i: nat, m: StoreState)
    requires i <= |data| && DecodeStore(data, i, m).Ok?
    ensures m.unrecognized <= DecodeStore(data, i, m).value.unrecognized
    ensures |DecodeStore(data, i, m).value.unrecognized| <= |m.unrecognized| + |data| - i
    ensures !UnknownFrom(data, i) ==>
              |DecodeStore(data, i, m).value.unrecognized| < |m.unrecognized| + |data| - i
    decreases |data| - i
  {
    if i < |data| {
      var tag := ReadTag(data, i).value;
      if tag.field == 1 || tag.field == 2 {
        var r := ReadVarint(data, tag.next);
        DecodeLength(data, r.next, if tag.field == 1 then m.(base := ToI64(r.value)) else m.(height := ToI64(r.value)));
      } else {
        var k := SkipField(data, i).value;
        DecodeLength(data, k, m.(unrecognized := m.unrecognized + data[i..k]));
      }
    }
  }

  lemma {:induction false} DecodeUnknown(data: Bytes, i: nat, m: StoreState)
    requires i <= |data| && UnknownFrom(data, i)
    ensures DecodeStore(data, i, m) == Ok(m.(unrecognized := m.unrecognized + data[i..]))
    decreases |data| - i
  {
    if i < |data| {
      var k := SkipField(data, i).value;
      DecodeUnknown(data, k, m.(unrecognized := m.unrecognized + data[i..k]));
      assert m.unrecognized + data[i..k] + data[k..] == m.unrecognized + data[i..];
    } else {
      assert m.unrecognized + data[i..] == m.unrecognized;
    }
  }

  /** Tags of the fields these messages have: one byte, a field number and a wire type. */
  lemma SmallTag(data: Bytes, i: nat)
    requires i < |data| && 8 <= data[i] < 128 && data[i] as int % 8 != 4
    ensures ReadTag(data, i) == Ok(Tag(data[i] as int / 8, data[i] as int % 8, i + 1))
  {
    hide ReadVarint;
    OneByteVarint(data, i);
  }

  lemma SignedRoundTrip(x: int)
    requires -I64 <= x < I64
    ensures ToU64(x) < U64 && ToI64(ToU64(x)) == x
  {
  }

  lemma DecodeVarintField(data: Bytes, i: nat, tag: byte, x: int)
    requires -I64 <= x < I64 && x != 0 && 8 <= tag < 128 && tag as int % 8 == 0
    requires i + |VarintField(tag, x)| <= |data| && data[i..i + |VarintField(tag, x)|] == VarintField(tag, x)
    ensures ReadTag(data, i) == Ok(Tag(tag as int / 8, 0, i + 1))
    ensures ReadVarint(data, i + 1) == Got(ToU64(x), i + |VarintField(tag, x)|) && ToI64(ToU64(x)) == x
  {
    hide Varint, ReadVarint, ReadTag, ToU64, ToI64;
    var f := VarintField(tag, x);
    SignedRoundTrip(x);
    assert data[i] == data[i..i + |f|][0];
    SmallTag(data, i);
    assert data[i + 1..i + |f|] == data[i..i + |f|][1..] == Varint(ToU64(x));
    VarintRoundTrip(data, i + 1, ToU64(x));
  }

  lemma OneByteVarint(data: Bytes, i: nat)
    requires i < |data| && data[i] < 128
    ensures ReadVarint(data, i) == Got(data[i] as nat, i + 1)
  {
    assert data[i..i + 1] == Varint(data[i] as nat);
    VarintRoundTrip(data, i, data[i] as nat);
  }

  /** Reading past a present or absent varint field of the store state. */
  lemma DecodeStoreField(data: Bytes, i: nat, m: StoreState, tag: byte, x: int)
    requires -I64 <= x < I64 && (tag == 0x8 || tag == 0x10)
    requires i + |VarintField(tag, x)| <= |data| && data[i..i + |VarintField(tag, x)|] == VarintField(tag, x)
    requires x == 0 ==> if tag == 0x8 then m.base == 0 else m.height == 0
    ensures DecodeStore(data, i, m) == DecodeStore(data, i + |VarintField(tag, x)|,
                                                   if tag == 0x8 then m.(base := x) else m.(height := x))
  {
    hide ReadVarint, ReadTag, ToU64, ToI64, SkipField;
    if x != 0 { DecodeVarintField(data, i, tag, x); }
  }

  /** A field of the store state in another wire type is refused, and so is a group that ends before it began. */
  lemma StoreFieldRefused(data: Bytes, i: nat, m: StoreState)
    requires i < |data| && data[i] as int / 8 in {1, 2} && data[i] as int % 8 != 0
    ensures DecodeStore(data, i, m) == Err(if data[i] as int % 8 == 4 then EndGroup else WrongWireType)
  {
    hide ReadVarint, SkipField;
    OneByteVarint(data, i);
  }

  const NEW_STORE := StoreState(0, 0, [])

  // Where a field stands in the input, and what follows it, makes no difference to how it is read.

  lemma {:induction false} ReadShift(p: Bytes, u: Bytes, i: nat, shift: nat, acc: nat)
    ensures ReadFrom(p + u, |p| + i, shift, acc) == match ReadFrom(u, i, shift, acc)
                                                    case Got(v, next) => Got(v, |p| + next)
                                                    case r => r
    decreases 64 - shift
  {
    if shift < 64 && i < |u| {
      assert (p + u)[|p| + i] == u[i];
      ReadShift(p, u, i + 1, shift + 7, (acc + (u[i] as nat % 128) * Merkle.Pow2(shift)) % U64);
    }
  }

  lemma {:induction false} ReadExtends(u: Bytes, f: Bytes, i: nat, shift: nat, acc: nat)
    requires ReadFrom(u, i, shift, acc).Got?
    ensures ReadFrom(u + f, i, shift, acc) == ReadFrom(u, i, shift, acc)
    decreases 64 - shift
  {
    if u[i] >= 128 { ReadExtends(u, f, i + 1, shift + 7, (acc + (u[i] as nat % 128) * Merkle.Pow2(shift)) % U64); }
  }

  lemma {:induction false} SkipExtends(u: Bytes, f: Bytes, i: nat, depth: nat)
    requires SkipFrom(u, i, depth).Ok? && SkipFrom(u, i, depth).value <= |u|
    ensures SkipFrom(u + f, i, depth) == SkipFrom(u, i, depth)
    decreases |u| - i, 0
  {
    hide ReadVarint;
    ReadVarintExtends(u, f, i);
    var r := ReadVarint(u, i);
    var t := r.value % 8;
    if t == 0 || t == 2 { ReadVarintExtends(u, f, r.next); }
    var q := ReadVarint(u, r.next);
    if t == 0 { MoreExtends(u, f, q.next, depth); }
    else if t == 1 { MoreExtends(u, f, r.next + 8, depth); }
    else if t == 2 { MoreExtends(u, f, q.next + q.value, depth); }
    else if t == 3 { MoreExtends(u, f, r.next, depth + 1); }
    else if t == 4 { MoreExtends(u, f, r.next, depth - 1); }
    else { MoreExtends(u, f, r.next + 4, depth); }
  }

  lemma ReadVarintExtends(u: Bytes, f: Bytes, i: nat)
    requires ReadVarint(u, i).Got?
    ensures ReadVarint(u + f, i) == ReadVarint(u, i)
  {
    ReadExtends(u, f, i, 0, 0);
  }

  lemma {:induction false} MoreExtends(u: Bytes, f: Bytes, i: nat, depth: nat)
    requires SkipMore(u, i, depth).Ok? && SkipMore(u, i, depth).value <= |u|
    ensures SkipMore(u + f, i, depth) == SkipMore(u, i, depth)
    decreases |u| - i, 1
  {
    if depth != 0 { SkipExtends(u, f, i, depth); }
  }

  lemma {:induction false} UnknownShift(p: Bytes, u: Bytes, i: nat)
    requires |p| + |u| < I64
    ensures UnknownFrom(p + u, |p| + i) <==> UnknownFrom(u, i)
    decreases |u| - i
  {
    hide SkipFrom;
    if i < |u| {
      ReadShift(p, u, i, 0, 0);
      assert (p + u)[|p| + i..] == u[i..];
      if SkipField(u, i).Ok? { UnknownShift(p, u, SkipField(u, i).value); }
    }
  }

  lemma {:induction false} UnknownAppend(u: Bytes, f: Bytes, i: nat)
    requires |u| + |f| < I64 && i <= |u| && UnknownFrom(u, i) && UnknownFrom(f, 0)
    ensures UnknownFrom(u + f, i)
    decreases |u| - i
  {
    hide ReadTag, SkipField;
    if i == |u| {
      UnknownShift(u, f, 0);
    } else {
      FieldExtends(u, f, i);
      UnknownAppend(u, f, SkipField(u, i).value);
    }
  }

  lemma FieldExtends(u: Bytes, f: Bytes, i: nat)
    requires |u| + |f| < I64 && i < |u| && ReadTag(u, i).Ok? && SkipField(u, i).Ok?
    ensures ReadTag(u + f, i) == ReadTag(u, i) && SkipField(u + f, i) == SkipField(u, i)
  {
    hide SkipFrom, ReadVarint;
    ReadVarintExtends(u, f, i);
    SkipExtends(u[i..], f, 0, 0);
    assert (u + f)[i..] == u[i..] + f;
  }

  lemma {:induction false} ReadShrinks(u: Bytes, f: Bytes, i: nat, shift: nat, acc: nat)
    requires ReadFrom(u + f, i, shift, acc).Got? && ReadFrom(u + f, i, shift, acc).next <= |u|
    ensures ReadFrom(u, i, shift, acc) == ReadFrom(u + f, i, shift, acc)
    decreases 64 - shift
  {
    assert (u + f)[i] == u[i];
    if u[i] >= 128 { ReadShrinks(u, f, i + 1, shift + 7, (acc + (u[i] as nat % 128) * Merkle.Pow2(shift)) % U64); }
  }

  lemma ReadVarintShrinks(u: Bytes, f: Bytes, i: nat)
    requires ReadVarint(u + f, i).Got? && ReadVarint(u + f, i).next <= |u|
    ensures ReadVarint(u, i) == ReadVarint(u + f, i)
  {
    ReadShrinks(u, f, i, 0, 0);
  }

  lemma {:induction false} SkipShrinks(u: Bytes, f: Bytes, i: nat, depth: nat)
    requires SkipFrom(u + f, i, depth).Ok? && SkipFrom(u + f, i, depth).value <= |u|
    ensures SkipFrom(u, i, depth) == SkipFrom(u + f, i, depth)
    decreases |u| - i, 0
  {
    hide ReadVarint;
    var r := ReadVarint(u + f, i);
    var t := r.value % 8;
    ReadVarintShrinks(u, f, i);
    var q := ReadVarint(u + f, r.next);
    if t == 0 || t == 2 { ReadVarintShrinks(u, f, r.next); }
    if t == 0 { MoreShrinks(u, f, q.next, depth); }
    else if t == 1 { MoreShrinks(u, f, r.next + 8, depth); }
    else if t == 2 { MoreShrinks(u, f, q.next + q.value, depth); }
    else if t == 3 { MoreShrinks(u, f, r.next, depth + 1); }
    else if t == 4 { MoreShrinks(u, f, r.next, depth - 1); }
    else { MoreShrinks(u, f, r.next + 4, depth); }
  }

  lemma {:induction false} MoreShrinks(u: Bytes, f: Bytes, i: nat, depth: nat)
    requires SkipMore(u + f, i, depth).Ok? && SkipMore(u + f, i, depth).value <= |u|
    ensures SkipMore(u, i, depth) == SkipMore(u + f, i, depth)
    decreases |u| - i, 1
  {
    if depth != 0 { SkipShrinks(u, f, i, depth); }
  }

  lemma SkipReadsTag(data: Bytes, i: nat, depth: nat)
    requires SkipFrom(data, i, depth).Ok?
    ensures ReadVarint(data, i).Got? && ReadVarint(data, i).next <= SkipFrom(data, i, depth).value
  {
    hide ReadVarint;
  }

  /** One unknown field, cut out of the input it was read from. */
  lemma UnknownAlone(data: Bytes, i: nat)
    requires i < |data| < I64 && ReadTag(data, i).Ok? && ReadTag(data, i).value.field != 1
    requires ReadTag(data, i).value.field != 2 && SkipField(data, i).Ok?
    ensures UnknownFrom(data[i..SkipField(data, i).value], 0)
  {
    hide SkipFrom;
    var k := SkipField(data, i).value;
    var u, f := data[i..k], data[k..];
    assert data[i..] == u + f && data == data[..i] + data[i..];
    ReadShift(data[..i], data[i..], 0, 0, 0);
    SkipReadsTag(u + f, 0, 0);
    ReadVarintShrinks(u, f, 0);
    SkipShrinks(u, f, 0, 0);
    assert u[0..] == u;
  }

  /** What `Unmarshal` keeps as unrecognized is always a sequence of unknown fields. */
  lemma {:induction false} DecodedIsUnknown(data: Bytes, i: nat, m: StoreState)
    requires i <= |data| && |m.unrecognized| + |data| - i < I64 && |data| < I64 && UnknownFrom(m.unrecognized, 0)
    requires DecodeStore(data, i, m).Ok?
    ensures UnknownFrom(DecodeStore(data, i, m).value.unrecognized, 0)
    decreases |data| - i
  {
    hide ReadTag, SkipField, UnknownFrom, ReadVarint;
    if i < |data| {
      var tag := ReadTag(data, i).value;
      if tag.field == 1 || tag.field == 2 {
        var r := ReadVarint(data, tag.next);
        DecodedIsUnknown(data, r.next, if tag.field == 1 then m.(base := ToI64(r.value)) else m.(height := ToI64(r.value)));
      } else {
        var k := SkipField(data, i).value;
        UnknownAlone(data, i);
        UnknownAppend(m.unrecognized, data[i..k], 0);
        DecodedIsUnknown(data, k, m.(unrecognized := m.unrecognized + data[i..k]));
      }
    }
  }

  /** `Unmarshal(Marshal(m))` gives `m` back exactly when the bytes kept as unrecognized are what `Unmarshal`
      itself keeps: well-formed fields of other numbers. */
  lemma StoreRoundTrip(m: StoreState)
    requires m.InRange() && |EncodeStore(m)| < I64
    ensures DecodeStore(EncodeStore(m), 0, NEW_STORE) == Ok(m) <==> UnknownFrom(m.unrecognized, 0)
  {
    hide DecodeStore, UnknownFrom, VarintField;
    var data := EncodeStore(m);
    var a, b := VarintField(0x8, m.base), VarintField(0x10, m.height);
    assert data[0..|a|] == a;
    DecodeStoreField(data, 0, NEW_STORE, 0x8, m.base);
    assert data[|a|..|a| + |b|] == b;
    DecodeStoreField(data, |a|, NEW_STORE.(base := m.base), 0x10, m.height);
    var k := |a| + |b|;
    var known := StoreState(m.base, m.height, []);
    assert data == (a + b) + m.unrecognized;
    UnknownShift(a + b, m.unrecognized, 0);
    assert known.unrecognized + data[k..] == m.unrecognized;
    if UnknownFrom(data, k) {
      DecodeUnknown(data, k, known);
    } else if DecodeStore(data, k, known).Ok? {
      DecodeLength(data, k, known);
    }
  }
}
