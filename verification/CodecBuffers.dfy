/** The same codecs as they run: a writer that fills a pre-sized buffer from its end, and readers that scan by
    index. */
module CodecBuffers {
  import opened Types
  import opened Wire
  import opened Codec
  import opened TrustCodec

  /** Nothing below `j` has changed. */
  ghost predicate Below(before: Bytes, after: Bytes, j: int) {
    |before| == |after| && forall x | 0 <= x < j && x < |before| :: after[x] == before[x]
  }

  /** `copy(dAtA[i:], s)` for a slice that ends at `i`. */
  method PutBytes(buf: array<byte>, i: nat, s: Bytes) returns (j: nat)
    requires |s| <= i <= buf.Length
    modifies buf
    ensures j == i - |s| && buf[j..] == s + old(buf[i..]) && Below(old(buf[..]), buf[..], j)
  {
    j := i - |s|;
    var k := 0;
    while k < |s|
      invariant 0 <= k <= |s| && buf[j..j + k] == s[..k]
      invariant buf[..j] == old(buf[..j]) && buf[i..] == old(buf[i..])
    {
      buf[j + k] := s[k];
      k := k + 1;
    }
    assert buf[j..] == buf[j..i] + buf[i..];
  }

  method PutByte(buf: array<byte>, i: nat, b: byte) returns (j: nat)
    requires 1 <= i <= buf.Length
    modifies buf
    ensures j == i - 1 && buf[j..] == [b] + old(buf[i..]) && Below(old(buf[..]), buf[..], j)
  {
    j := i - 1;
    buf[j] := b;
  }

  method PutVarint(buf: array<byte>, i: nat, v: nat) returns (j: nat)
    requires |Varint(v)| <= i <= buf.Length
    modifies buf
    ensures j == i - |Varint(v)| && buf[j..] == Varint(v) + old(buf[i..]) && Below(old(buf[..]), buf[..], j)
  {
    hide Varint;
    j := EncodeVarint(buf, i, v);
    assert buf[j..] == buf[j..i] + buf[i..];
  }

  /** An integer field, absent when zero. */
  method PutVarintField(buf: array<byte>, i: nat, tag: byte, x: int) returns (j: nat)
    requires -I64 <= x < I64 && |VarintField(tag, x)| <= i <= buf.Length
    modifies buf
    ensures j == i - |VarintField(tag, x)| && buf[j..] == VarintField(tag, x) + old(buf[i..])
    ensures Below(old(buf[..]), buf[..], j)
  {
    hide Varint, ToU64;
    j := i;
    if x != 0 {
      j := PutVarint(buf, j, ToU64(x));
      j := PutByte(buf, j, tag);
    }
  }

  // ---------------------------------------------------------------- BlockStoreState

  /** `Size` is exactly the number of bytes written. */
  method SizeStore(m: StoreState) returns (n: nat)
    requires m.InRange()
    ensures n == |EncodeStore(m)|
  {
    n := 0;
    SovIsLength(ToU64(m.base));
    SovIsLength(ToU64(m.height));
    if m.base != 0 { n := n + 1 + Sov(ToU64(m.base)); }
    if m.height != 0 { n := n + 1 + Sov(ToU64(m.height)); }
    n := n + |m.unrecognized|;
  }

  method MarshalStoreToSizedBuffer(m: StoreState, buf: array<byte>) returns (n: nat)
    requires m.InRange() && |EncodeStore(m)| <= buf.Length
    modifies buf
    ensures n == |EncodeStore(m)| && buf[buf.Length - n..] == EncodeStore(m)
    ensures Below(old(buf[..]), buf[..], buf.Length - n)
  {
    hide VarintField;
    ghost var a, b, u := VarintField(0x8, m.base), VarintField(0x10, m.height), m.unrecognized;
    var i := buf.Length;
    i := PutBytes(buf, i, m.unrecognized);
    assert buf[i..] == u;
    i := PutVarintField(buf, i, 0x10, m.height);
    assert buf[i..] == b + u;
    i := PutVarintField(buf, i, 0x8, m.base);
    assert buf[i..] == a + b + u;
    n := buf.Length - i;
  }

  /** `Marshal`. */
  method MarshalStore(m: StoreState) returns (buf: array<byte>)
    requires m.InRange()
    ensures fresh(buf) && buf[..] == EncodeStore(m)
  {
    var size := SizeStore(m);
    buf := new byte[size](_ => 0);
    var n := MarshalStoreToSizedBuffer(m, buf);
    assert buf[..] == buf[buf.Length - n..];
  }

  /** `skipStoreTypes` and `skipCrtrust`, from the start of the slice. */
  method Skip(data: Bytes) returns (r: Result<nat>)
    requires data != []
    ensures r == SkipFrom(data, 0, 0)
  {
    hide ReadVarint;
    var i: nat, depth: nat := 0, 0;
    while i < |data|
      invariant SkipFrom(data, i, depth) == SkipFrom(data, 0, 0)
      decreases |data| - i
    {
      var tag := DecodeVarint(data, i);
      if !tag.Got? { return Err(ReadError(tag)); }
      i := tag.next;
      var wireType := tag.value % 8;
      if wireType == 0 {
        var v := DecodeVarint(data, i);
        if !v.Got? { return Err(ReadError(v)); }
        i := v.next;
      } else if wireType == 1 {
        i := i + 8;
      } else if wireType == 2 {
        var length := DecodeVarint(data, i);
        if !length.Got? { return Err(ReadError(length)); }
        if ToI64(length.value) < 0 || length.next + length.value >= I64 { return Err(InvalidLength); }
        i := length.next + length.value;
      } else if wireType == 3 {
        depth := depth + 1;
      } else if wireType == 4 {
        if depth == 0 { return Err(UnexpectedEndOfGroup); }
        depth := depth - 1;
      } else if wireType == 5 {
        i := i + 4;
      } else {
        return Err(IllegalWireType);
      }
      if depth == 0 { return Ok(i); }
      if i >= |data| { PastTheEnd(data, i); }
    }
    PastTheEnd(data, i);
    return Err(UnexpectedEOF);
  }

  lemma PastTheEnd(data: Bytes, i: nat)
    requires i >= |data|
    ensures ReadVarint(data, i) == ShortInput
  {
  }

  /** `Unmarshal`. */
  method UnmarshalStore(data: Bytes) returns (r: Result<StoreState>)
    ensures r == DecodeStore(data, 0, NEW_STORE)
  {
    hide ReadVarint, SkipFrom;
    var m := NEW_STORE;
    var i: nat := 0;
    while i < |data|
      invariant DecodeStore(data, i, m) == DecodeStore(data, 0, NEW_STORE)
      decreases |data| - i
    {
      var preIndex := i;
      var tag := DecodeVarint(data, i);
      if !tag.Got? { return Err(ReadError(tag)); }
      i := tag.next;
      var fieldNum, wireType := ToI32(tag.value / 8), tag.value % 8;
      if wireType == 4 { return Err(EndGroup); }
      if fieldNum <= 0 { return Err(IllegalTag); }
      if fieldNum == 1 || fieldNum == 2 {
        if wireType != 0 { return Err(WrongWireType); }
        var v := DecodeVarint(data, i);
        if !v.Got? { return Err(ReadError(v)); }
        if fieldNum == 1 { m := m.(base := ToI64(v.value)); } else { m := m.(height := ToI64(v.value)); }
        i := v.next;
      } else {
        i := preIndex;
        var skippy := Skip(data[i..]);
        if skippy.Err? { return Err(skippy.error); }
        if i + skippy.value >= I64 { return Err(InvalidLength); }
        if i + skippy.value > |data| { return Err(UnexpectedEOF); }
        m := m.(unrecognized := m.unrecognized + data[i..i + skippy.value]);
        i := i + skippy.value;
      }
    }
    return Ok(m);
  }

  // ---------------------------------------------------------------- Notice and LocalEvaluation

  /** `Size`, with the map walked in any order. */
  method SizeTrust(m: Trust, order: seq<Bytes>) returns (n: nat)
    requires m.InRange() && forall k | k in order :: k in m.evals
    ensures n == |Encode(m, order)|
  {
    hide Varint, LittleEndian;
    n := 0;
    var i := |order|;
    while i > 0
      invariant 0 <= i <= |order| && n == |Entries(m.evals, order[i..])|
    {
      i := i - 1;
      var k := order[i];
      SovIsLength(|k|);
      var mapEntrySize := 1 + |k| + Sov(|k|) + 1 + 8;
      SovIsLength(mapEntrySize);
      assert mapEntrySize == |EntryBody(k, m.evals[k])|;
      assert order[i..][1..] == order[i + 1..];
      n := n + mapEntrySize + 1 + Sov(mapEntrySize);
    }
    assert order[0..] == order;
    SovIsLength(|m.src|);
    SovIsLength(ToU64(m.height));
    if |m.src| > 0 { n := n + 1 + |m.src| + Sov(|m.src|); }
    if m.height != 0 { n := n + 1 + Sov(ToU64(m.height)); }
  }

  lemma FieldConcat(tag: byte, s: Bytes, rest: Bytes)
    ensures |BytesField(tag, s)| == 1 + |Varint(|s|)| + |s|
    ensures [tag] + (Varint(|s|) + (s + rest)) == BytesField(tag, s) + rest
  {
    hide Varint;
  }

  /** The length and the tag of a field whose content has been written. */
  method PutLengthAndTag(buf: array<byte>, i: nat, tag: byte, ghost s: Bytes, ghost rest: Bytes, length: nat)
    returns (j: nat)
    requires 1 + |Varint(length)| <= i <= buf.Length && length == |s| && buf[i..] == s + rest
    modifies buf
    ensures j == i - 1 - |Varint(length)| && buf[j..] == BytesField(tag, s) + rest && Below(old(buf[..]), buf[..], j)
  {
    hide Varint, BytesField, Below;
    FieldConcat(tag, s, rest);
    ghost var before := buf[..];
    j := PutVarint(buf, i, length);
    ghost var mid, j0 := buf[..], j;
    j := PutByte(buf, j, tag);
    BelowMore(before, mid, buf[..], j0, j);
  }

  method PutBytesField(buf: array<byte>, i: nat, tag: byte, s: Bytes) returns (j: nat)
    requires |BytesField(tag, s)| <= i <= buf.Length
    modifies buf
    ensures j == i - |BytesField(tag, s)| && buf[j..] == BytesField(tag, s) + old(buf[i..])
    ensures Below(old(buf[..]), buf[..], j)
  {
    hide Varint, BytesField, Below;
    FieldConcat(tag, s, buf[i..]);
    ghost var before, rest := buf[..], buf[i..];
    j := PutBytes(buf, i, s);
    ghost var mid, j0 := buf[..], j;
    j := PutLengthAndTag(buf, j, tag, s, rest, |s|);
    BelowMore(before, mid, buf[..], j0, j);
  }

  method PutEntryBody(buf: array<byte>, i: nat, k: Bytes, v: nat) returns (j: nat)
    requires |EntryBody(k, v)| <= i <= buf.Length
    modifies buf
    ensures j == i - |EntryBody(k, v)| && buf[j..] == EntryBody(k, v) + old(buf[i..])
    ensures Below(old(buf[..]), buf[..], j)
  {
    hide LittleEndian, BytesField;
    j := PutBytes(buf, i, LittleEndian(v, 8));
    j := PutByte(buf, j, 0x11);
    j := PutBytesField(buf, j, 0xa, k);
  }

  /** One map entry, its length written after its body. */
  method PutEntry(buf: array<byte>, i: nat, k: Bytes, v: nat) returns (j: nat)
    requires |Entry(k, v)| <= i <= buf.Length
    modifies buf
    ensures j == i - |Entry(k, v)| && buf[j..] == Entry(k, v) + old(buf[i..])
    ensures Below(old(buf[..]), buf[..], j)
  {
    hide Varint, EntryBody, BytesField, Below;
    FieldConcat(0xa, EntryBody(k, v), buf[i..]);
    ghost var before, rest := buf[..], buf[i..];
    var baseI := i;
    j := PutEntryBody(buf, i, k, v);
    ghost var mid, j0 := buf[..], j;
    j := PutLengthAndTag(buf, j, 0xa, EntryBody(k, v), rest, baseI - j);
    BelowMore(before, mid, buf[..], j0, j);
  }

  method MarshalTrustToSizedBuffer(m: Trust, order: seq<Bytes>, buf: array<byte>) returns (n: nat)
    requires m.InRange() && (forall k | k in order :: k in m.evals) && |Encode(m, order)| <= buf.Length
    modifies buf
    ensures n == |Encode(m, order)| && buf[buf.Length - n..] == Encode(m, order)
    ensures Below(old(buf[..]), buf[..], buf.Length - n)
  {
    hide VarintField, BytesField, Entries;
    ghost var tail := OptBytesField(0x12, m.src) + VarintField(0x18, m.height);
    assert Entries(m.evals, order) + tail == Encode(m, order);
    var i := PutVarintField(buf, buf.Length, 0x18, m.height);
    if |m.src| > 0 { i := PutBytesField(buf, i, 0x12, m.src); }
    assert buf[i..] == tail;
    i := PutEntries(buf, i, m.evals, order);
    n := buf.Length - i;
  }

  /** The loop over the map. */
  method PutEntries(buf: array<byte>, i: nat, evals: map<Bytes, nat>, order: seq<Bytes>) returns (j: nat)
    requires forall e | e in order :: e in evals
    requires |Entries(evals, order)| <= i <= buf.Length
    modifies buf
    ensures j == i - |Entries(evals, order)| && buf[j..] == Entries(evals, order) + old(buf[i..])
    ensures Below(old(buf[..]), buf[..], j)
  {
    hide Entry, Entries, Below;
    ghost var tail := buf[i..];
    j := i;
    var k := |order|;
    NoEntriesLeft(evals, order);
    BelowSame(buf[..], j);
    while k > 0
      invariant 0 <= k <= |order| && |Entries(evals, order[k..])| <= i && j == i - |Entries(evals, order[k..])|
      invariant buf[j..] == Entries(evals, order[k..]) + tail
      invariant Below(old(buf[..]), buf[..], j)
    {
      k := k - 1;
      EntriesLength(evals, order, k);
      EntriesStep(evals, order, k);
      ghost var before, j0 := buf[..], j;
      j := PutEntry(buf, j, order[k], evals[order[k]]);
      BelowMore(old(buf[..]), before, buf[..], j0, j);
    }
    assert order[0..] == order;
  }

  lemma NoEntriesLeft(evals: map<Bytes, nat>, order: seq<Bytes>)
    ensures order[|order|..] == [] && Entries(evals, []) == []
  {
  }

  lemma BelowSame(before: Bytes, j: int)
    ensures Below(before, before, j)
  {
  }

  lemma BelowMore(before: Bytes, mid: Bytes, after: Bytes, j: int, j': int)
    requires Below(before, mid, j) && Below(mid, after, j') && j' <= j
    ensures Below(before, after, j')
  {
  }

  lemma EntriesStep(evals: map<Bytes, nat>, order: seq<Bytes>, k: nat)
    requires k < |order| && forall e | e in order :: e in evals
    ensures Entries(evals, order[k..]) == Entry(order[k], evals[order[k]]) + Entries(evals, order[k + 1..])
  {
    assert order[k..][1..] == order[k + 1..];
  }

  lemma {:induction false} EntriesLength(evals: map<Bytes, nat>, order: seq<Bytes>, k: nat)
    requires k <= |order| && forall e | e in order :: e in evals
    ensures |Entries(evals, order[k..])| <= |Entries(evals, order)|
    decreases |order|
  {
    hide Entry;
    if k > 0 {
      assert order[1..][k - 1..] == order[k..];
      EntriesLength(evals, order[1..], k - 1);
    } else {
      assert order[0..] == order;
    }
  }

  /** `Marshal`. */
  method MarshalTrust(m: Trust, order: seq<Bytes>) returns (buf: array<byte>)
    requires m.InRange() && forall k | k in order :: k in m.evals
    ensures fresh(buf) && buf[..] == Encode(m, order)
  {
    hide Encode;
    var size := SizeTrust(m, order);
    buf := new byte[size](_ => 0);
    var n := MarshalTrustToSizedBuffer(m, order, buf);
    assert buf[..] == buf[buf.Length - n..];
  }

  method DecodeExtent(data: Bytes, i: nat) returns (r: Result<(nat, nat)>)
    ensures r == ReadLength(data, i)
  {
    hide ReadVarint;
    var length := DecodeVarint(data, i);
    if !length.Got? { return Err(ReadError(length)); }
    if ToI64(length.value) < 0 { return Err(InvalidLength); }
    var postIndex := length.next + length.value;
    if postIndex >= I64 { return Err(InvalidLength); }
    if postIndex > |data| { return Err(UnexpectedEOF); }
    return Ok((length.next, postIndex));
  }

  method DecodeLittleEndian(data: Bytes, i: nat) returns (v: nat)
    requires i + 8 <= |data|
    ensures v == ReadLittleEndian(data, i, 8)
  {
    v := 0;
    var k := 8;
    while k > 0
      invariant 0 <= k <= 8 && v == ReadLittleEndian(data, i + k, 8 - k)
    {
      k := k - 1;
      v := data[i + k] as nat + 256 * v;
    }
  }

  /** The loop over one map entry. */
  method UnmarshalEntry(data: Bytes, start: nat, postIndex: nat) returns (r: Result<(Bytes, nat)>)
    requires postIndex <= |data|
    ensures r == DecodeEntry(data, start, postIndex, [], 0)
  {
    hide ReadVarint, SkipFrom, ReadLength, ReadLittleEndian;
    var mapkey: Bytes, mapvalue: nat, i: nat := [], 0, start;
    while i < postIndex
      invariant DecodeEntry(data, i, postIndex, mapkey, mapvalue) == DecodeEntry(data, start, postIndex, [], 0)
      decreases |data| - i
    {
      var tag := DecodeVarint(data, i);
      if !tag.Got? { return Err(ReadError(tag)); }
      var fieldNum := ToI32(tag.value / 8);
      if fieldNum == 1 {
        var extent := DecodeExtent(data, tag.next);
        if extent.Err? { return Err(extent.error); }
        mapkey := data[extent.value.0..extent.value.1];
        i := extent.value.1;
      } else if fieldNum == 2 {
        if tag.next + 8 > |data| { return Err(UnexpectedEOF); }
        mapvalue := DecodeLittleEndian(data, tag.next);
        i := tag.next + 8;
      } else {
        var skippy := Skip(data[i..]);
        if skippy.Err? { return Err(skippy.error); }
        if i + skippy.value >= I64 { return Err(InvalidLength); }
        if i + skippy.value > postIndex { return Err(UnexpectedEOF); }
        i := i + skippy.value;
      }
    }
    return Ok((mapkey, mapvalue));
  }

  /** `Unmarshal` of either message. */
  method UnmarshalTrust(kind: Kind, data: Bytes) returns (r: Result<Trust>)
    ensures r == Decode(kind, data, 0, NEW_TRUST)
  {
    hide ReadVarint, SkipFrom, ReadLength, DecodeEntry;
    var m := NEW_TRUST;
    var i: nat := 0;
    while i < |data|
      invariant Decode(kind, data, i, m) == Decode(kind, data, 0, NEW_TRUST)
      decreases |data| - i
    {
      var tag := DecodeVarint(data, i);
      if !tag.Got? { return Err(ReadError(tag)); }
      var fieldNum, wireType := ToI32(tag.value / 8), tag.value % 8;
      if wireType == 4 { return Err(EndGroup); }
      if fieldNum <= 0 { return Err(IllegalTag); }
      if fieldNum == 2 || (fieldNum == 1 && kind == LocalEvaluation) {
        if wireType != 2 { return Err(WrongWireType); }
        var extent := DecodeExtent(data, tag.next);
        if extent.Err? { return Err(extent.error); }
        i := extent.value.1;
        if fieldNum == 2 {
          m := m.(src := data[extent.value.0..i]);
        } else {
          var entry := UnmarshalEntry(data, extent.value.0, i);
          if entry.Err? { return Err(entry.error); }
          m := m.(evals := m.evals[entry.value.0 := entry.value.1]);
        }
      } else if fieldNum == 3 {
        if wireType != 0 { return Err(WrongWireType); }
        var v := DecodeVarint(data, tag.next);
        if !v.Got? { return Err(ReadError(v)); }
        m := m.(height := ToI64(v.value));
        i := v.next;
      } else {
        var skippy := Skip(data[i..]);
        if skippy.Err? { return Err(skippy.error); }
        if i + skippy.value >= I64 { return Err(InvalidLength); }
        if i + skippy.value > |data| { return Err(UnexpectedEOF); }
        i := i + skippy.value;
      }
    }
    return Ok(m);
  }
}
