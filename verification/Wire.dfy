/** Varints and field skipping as the generated codecs of `proto/crtrust` and `proto/store` do them. */
module Wire {
  import opened Types
  import opened Merkle

  const U64: int := 0x1_0000_0000_0000_0000
  const I64: int := 0x8000_0000_0000_0000
  const I32: int := 0x8000_0000

  /** Two's complement conversions between 64-bit signed and unsigned integers. */
  function ToU64(x: int): nat
    requires -I64 <= x < I64
  {
    if x < 0 then x + U64 else x
  }

  function ToI64(u: nat): int
    requires u < U64
  {
    if u < I64 then u else u - U64
  }

  function ToI32(u: nat): int { if u % U32 < I32 then u % U32 else u % U32 - U32 }

  // ---------------------------------------------------------------- varints

  /** Seven bits to a byte, lowest first; every byte but the last has its top bit set. */
  function Varint(v: nat): (r: Bytes)
    ensures |r| >= 1
  {
    if v < 128 then [v as byte] else [(v % 128 + 128) as byte] + Varint(v / 128)
  }

  /** `sov`: the length of a varint, from the number of bits. */
  function Sov(v: nat): nat { (BitLen(if v % 2 == 0 then v + 1 else v) + 6) / 7 }

  lemma BitLenHalf(v: nat)
    requires v >= 1
    ensures BitLen(v) == 1 + BitLen(v / 2)
  {
  }

  lemma BitLenShift(v: nat)
    requires v >= 128
    ensures BitLen(v) == BitLen(v / 128) + 7
  {
    hide BitLen;
    BitLenHalf(v);
    BitLenHalf(v / 2);
    BitLenHalf(v / 4);
    BitLenHalf(v / 8);
    BitLenHalf(v / 16);
    BitLenHalf(v / 32);
    BitLenHalf(v / 64);
    assert v / 2 / 2 == v / 4 && v / 4 / 2 == v / 8 && v / 8 / 2 == v / 16;
    assert v / 16 / 2 == v / 32 && v / 32 / 2 == v / 64 && v / 64 / 2 == v / 128;
  }

  lemma {:induction false} BitLenOdd(v: nat)
    requires v >= 1
    ensures BitLen(if v % 2 == 0 then v + 1 else v) == BitLen(v)
  {
    assert (v + 1) / 2 == v / 2 || v % 2 == 1;
  }

  lemma {:induction false} SovIsLength(v: nat)
    ensures Sov(v) == |Varint(v)|
  {
    if v < 128 {
      SmallBitLen(v);
    } else {
      SovIsLength(v / 128);
      BitLenShift(v);
      BitLenOdd(v);
      BitLenOdd(v / 128);
    }
  }

  lemma SmallBitLen(v: nat)
    requires v < 128
    ensures 1 <= BitLen(if v % 2 == 0 then v + 1 else v) <= 7
  {
    var w := if v % 2 == 0 then v + 1 else v;
    BitLenBounds(w);
    if BitLen(w) > 7 {
      Pow2AtLeast(BitLen(w) - 1);
    }
  }

  lemma Pow2AtLeast(k: nat)
    requires k >= 7
    ensures Pow2(k) >= 128
  {
    assert Pow2(7) == 128;
    if k > 7 { Pow2Monotone(7, k); }
  }

  /** `encodeVarint`: the bytes go just below `offset`, and nothing else changes. */
  method EncodeVarint(buf: array<byte>, offset: nat, v: nat) returns (base: nat)
    requires |Varint(v)| <= offset <= buf.Length
    modifies buf
    ensures base == offset - |Varint(v)| && buf[base..offset] == Varint(v)
    ensures buf[..base] == old(buf[..base]) && buf[offset..] == old(buf[offset..])
  {
    hide Varint, Sov;
    SovIsLength(v);
    base := offset - Sov(v);
    var o, w := base, v;
    while w >= 128
      invariant base <= o && o + |Varint(w)| == offset && Varint(w) == Varint(v)[o - base..]
      invariant forall k | base <= k < o :: buf[k] == Varint(v)[k - base]
      invariant forall k | 0 <= k < base || offset <= k < buf.Length :: buf[k] == old(buf[k])
      decreases w
    {
      VarintHead(w);
      assert Varint(w)[0] == Varint(v)[o - base];
      buf[o] := (w % 128 + 128) as byte;
      w := w / 128;
      o := o + 1;
    }
    VarintHead(w);
    assert Varint(w)[0] == Varint(v)[o - base];
    buf[o] := w as byte;
  }

  lemma VarintHead(v: nat)
    ensures v < 128 ==> Varint(v) == [v as byte]
    ensures v >= 128 ==> Varint(v)[0] == (v % 128 + 128) as byte && Varint(v)[1..] == Varint(v / 128)
  {
  }

  datatype ReadResult = Got(value: nat, next: nat) | Overflow | ShortInput

  /** The varint loop every decoder contains, from shift `shift` with `acc` read so far. */
  function ReadFrom(data: Bytes, i: nat, shift: nat, acc: nat): (r: ReadResult)
    ensures r.Got? ==> i < r.next <= |data| && r.value < U64
    decreases 64 - shift
  {
    if shift >= 64 then Overflow
    else if i >= |data| then ShortInput
    else
      var acc' := (acc + (data[i] as nat % 128) * Pow2(shift)) % U64;
      if data[i] < 128 then Got(acc', i + 1) else ReadFrom(data, i + 1, shift + 7, acc')
  }

  function ReadVarint(data: Bytes, i: nat): (r: ReadResult)
    ensures r.Got? ==> i < r.next <= |data| && r.value < U64
  {
    ReadFrom(data, i, 0, 0)
  }

  method DecodeVarint(data: Bytes, start: nat) returns (r: ReadResult)
    ensures r == ReadVarint(data, start)
  {
    var i: nat, shift: nat, acc: nat, power: nat := start, 0, 0, 1;
    while true
      invariant start <= i && 0 <= shift && power == Pow2(shift)
      invariant ReadFrom(data, i, shift, acc) == ReadVarint(data, start)
      decreases 64 - shift
    {
      if shift >= 64 { return Overflow; }
      if i >= |data| { return ShortInput; }
      var b := data[i];
      i := i + 1;
      acc := (acc + (b as nat % 128) * power) % U64;
      if b < 128 { return Got(acc, i); }
      PowSeven(shift);
      power := power * 128;
      shift := shift + 7;
    }
  }

  lemma PowSeven(k: nat)
    ensures Pow2(k + 7) == 128 * Pow2(k)
  {
    assert Pow2(k + 1) == 2 * Pow2(k);
    assert Pow2(k + 2) == 4 * Pow2(k);
    assert Pow2(k + 3) == 8 * Pow2(k);
    assert Pow2(k + 4) == 16 * Pow2(k);
    assert Pow2(k + 5) == 32 * Pow2(k);
    assert Pow2(k + 6) == 64 * Pow2(k);
  }

  lemma Pow2Of64()
    ensures Pow2(64) == U64
  {
    assert Pow2(7) == 128;
    PowSeven(7);
    PowSeven(14);
    PowSeven(21);
    PowSeven(28);
    PowSeven(35);
    PowSeven(42);
    PowSeven(49);
    PowSeven(56);
    assert Pow2(63) == I64;
  }

  /** One byte of a varint, as arithmetic: `p` is the weight of the byte. */
  lemma ByteArithmetic(v: nat, p: nat, acc: nat)
    requires v >= 128 && acc < p
    ensures acc + (v % 128) * p < 128 * p <= v * p
    ensures (v / 128) * (128 * p) + (acc + (v % 128) * p) == acc + v * p
  {
    var q, r := v / 128, v % 128;
    Distribute(q, r, p);
    TimesMonotone(r, 127, p);
    TimesMonotone(128, v, p);
  }

  lemma Distribute(q: nat, r: nat, p: nat)
    ensures (128 * q + r) * p == q * (128 * p) + r * p
  {
  }

  lemma TimesMonotone(a: nat, b: nat, p: nat)
    requires a <= b
    ensures a * p <= b * p
  {
  }

  lemma ShiftFits(shift: nat)
    requires 128 * Pow2(shift) < U64
    ensures shift + 7 < 64
  {
    PowSeven(shift);
    if shift + 7 >= 64 { Pow2Large(shift + 7); }
  }

  lemma Pow2Large(k: nat)
    requires k >= 64
    ensures Pow2(k) >= U64
  {
    hide Pow2;
    Pow2Of64();
    if k > 64 { Pow2Monotone(64, k); }
  }

  lemma ReadOne(data: Bytes, i: nat, shift: nat, acc: nat, p: nat)
    requires i < |data| && shift < 64 && p == (data[i] as nat % 128) * Pow2(shift) && acc + p < U64
    ensures ReadFrom(data, i, shift, acc)
         == if data[i] < 128 then Got(acc + p, i + 1) else ReadFrom(data, i + 1, shift + 7, acc + p)
  {
    hide Pow2;
    SmallMod(acc + p);
  }

  lemma SmallMod(x: nat)
    requires x < U64
    ensures x % U64 == x
  {
  }

  lemma VarintSplit(v: nat)
    requires v >= 128
    ensures Varint(v) == [(v % 128 + 128) as byte] + Varint(v / 128)
  {
  }

  /** Reading back what was written, wherever it stands in the input. */
  lemma {:induction false} ReadBack(data: Bytes, i: nat, v: nat, shift: nat, acc: nat)
    requires i + |Varint(v)| <= |data| && data[i..i + |Varint(v)|] == Varint(v)
    requires shift < 64 && acc < Pow2(shift) && acc + v * Pow2(shift) < U64
    ensures ReadFrom(data, i, shift, acc) == Got(acc + v * Pow2(shift), i + |Varint(v)|)
    decreases v
  {
    hide Pow2, ReadFrom;
    var n, p := |Varint(v)|, Pow2(shift);
    assert data[i] == data[i..i + n][0];
    if v >= 128 {
      VarintSplit(v);
      ByteArithmetic(v, p, acc);
      ShiftFits(shift);
      PowSeven(shift);
      var rest := Varint(v / 128);
      assert data[i + 1..i + n] == data[i..i + n][1..] == rest;
      assert data[i] as nat % 128 == v % 128;
      ReadOne(data, i, shift, acc, (v % 128) * p);
      ReadBack(data, i + 1, v / 128, shift + 7, acc + (v % 128) * p);
    } else {
      assert data[i] as nat % 128 == v;
      ReadOne(data, i, shift, acc, v * p);
    }
  }

  /** The reader inverts the writer on every 64-bit value. */
  lemma VarintRoundTrip(data: Bytes, i: nat, v: nat)
    requires v < U64 && i + |Varint(v)| <= |data| && data[i..i + |Varint(v)|] == Varint(v)
    ensures ReadVarint(data, i) == Got(v, i + |Varint(v)|)
  {
    ReadBack(data, i, v, 0, 0);
  }

  // ---------------------------------------------------------------- fixed-size integers

  function LittleEndian(v: nat, n: nat): (r: Bytes)
    ensures |r| == n
  {
    if n == 0 then [] else [(v % 256) as byte] + LittleEndian(v / 256, n - 1)
  }

  function ReadLittleEndian(data: Bytes, i: nat, n: nat): nat
    requires i + n <= |data|
    decreases n
  {
    if n == 0 then 0 else data[i] as nat + 256 * ReadLittleEndian(data, i + 1, n - 1)
  }

  /** `data` holds `f` at `i`. */
  predicate At(data: Bytes, i: nat, f: Bytes) { i + |f| <= |data| && data[i..i + |f|] == f }

  lemma AtSplit(data: Bytes, i: nat, f: Bytes, g: Bytes)
    requires At(data, i, f + g)
    ensures At(data, i, f) && At(data, i + |f|, g)
  {
    var h := f + g;
    assert data[i..i + |f|] == data[i..i + |h|][..|f|] == f;
    assert data[i + |f|..i + |f| + |g|] == data[i..i + |h|][|f|..] == g;
  }

  lemma {:induction false} LittleEndianBack(data: Bytes, i: nat, v: nat, n: nat)
    requires At(data, i, LittleEndian(v, n)) && v < Pow2(8 * n)
    ensures ReadLittleEndian(data, i, n) == v
    decreases n
  {
    if n > 0 {
      var rest := LittleEndian(v / 256, n - 1);
      AtSplit(data, i, [(v % 256) as byte], rest);
      assert data[i] == data[i..i + 1][0];
      PowSeven(8 * n - 8);
      assert Pow2(8 * n) == 2 * Pow2(8 * n - 1);
      LittleEndianBack(data, i + 1, v / 256, n - 1);
    }
  }
}
