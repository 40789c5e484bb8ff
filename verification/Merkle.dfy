/** `crypto/merkle`: the hash tree of section 2.1 of RFC 6962, recursive and in place, for any hash function. */
module Merkle {
  import opened Types

  /** The underlying hash function, SHA-256 in the program. */
  type Hasher = Bytes -> Bytes

  function EmptyHash(sum: Hasher): Bytes { sum([]) }

  function LeafHash(sum: Hasher, leaf: Bytes): Bytes { sum([0] + leaf) }

  function InnerHash(sum: Hasher, left: Bytes, right: Bytes): Bytes { sum([1] + left + right) }

  // ---------------------------------------------------------------- where to split

  function Pow2(k: nat): (p: nat)
    ensures p >= 1
  {
    if k == 0 then 1 else 2 * Pow2(k - 1)
  }

  /** `bits.Len`. */
  function BitLen(n: nat): nat { if n == 0 then 0 else 1 + BitLen(n / 2) }

  /** `getSplitPoint`. */
  function SplitPoint(n: nat): nat
    requires n >= 1
  {
    var k := Pow2(BitLen(n) - 1);
    if k == n then k / 2 else k
  }

  ghost predicate IsPow2(k: nat) { exists e: nat :: k == Pow2(e) }

  lemma {:induction false} BitLenBounds(n: nat)
    requires n >= 1
    ensures Pow2(BitLen(n) - 1) <= n < 2 * Pow2(BitLen(n) - 1)
  {
    if n > 1 { BitLenBounds(n / 2); }
  }

  /** The split point is the largest power of two below `n`. */
  lemma SplitPointLargest(n: nat)
    requires n >= 2
    ensures IsPow2(SplitPoint(n)) && SplitPoint(n) < n <= 2 * SplitPoint(n)
  {
    BitLenBounds(n);
    var e := BitLen(n) - 1;
    assert e > 0;
    assert SplitPoint(n) == if Pow2(e) == n then Pow2(e - 1) else Pow2(e);
  }

  lemma {:induction false} Pow2Monotone(d: nat, e: nat)
    requires d < e
    ensures 2 * Pow2(d) <= Pow2(e)
  {
    if d + 1 < e { Pow2Monotone(d, e - 1); }
  }

  lemma SplitPointUnique(n: nat, k: nat)
    requires n >= 2 && IsPow2(k) && k < n <= 2 * k
    ensures SplitPoint(n) == k
  {
    SplitPointLargest(n);
    var d: nat :| k == Pow2(d);
    var e: nat :| SplitPoint(n) == Pow2(e);
    if d < e { Pow2Monotone(d, e); }
    if e < d { Pow2Monotone(e, d); }
  }

  lemma HalfPow2(k: nat)
    requires IsPow2(k) && k >= 2
    ensures k % 2 == 0 && IsPow2(k / 2)
  {
    var e: nat :| k == Pow2(e);
    assert k / 2 == Pow2(e - 1);
  }

  // ---------------------------------------------------------------- the recursive hash

  /** `HashFromByteSlices`. */
  function Root(sum: Hasher, items: seq<Bytes>): Bytes {
    if items == [] then EmptyHash(sum)
    else if |items| == 1 then LeafHash(sum, items[0])
    else
      SplitPointLargest(|items|);
      var k := SplitPoint(|items|);
      InnerHash(sum, Root(sum, items[..k]), Root(sum, items[k..]))
  }

  /** The hash of no items, and of up to three, written out: section 2.1 of RFC 6962. */
  lemma SmallTrees(sum: Hasher, a: Bytes, b: Bytes, c: Bytes)
    ensures Root(sum, []) == sum([])
    ensures Root(sum, [a]) == sum([0] + a)
    ensures Root(sum, [a, b]) == sum([1] + sum([0] + a) + sum([0] + b))
    ensures Root(sum, [a, b, c]) == sum([1] + sum([1] + sum([0] + a) + sum([0] + b)) + sum([0] + c))
  {
    assert Pow2(0) == 1 && Pow2(1) == 2;
    SplitPointUnique(2, 1);
    SplitPointUnique(3, 2);
    assert [a, b][..1] == [a] && [a, b][1..] == [b];
    assert [a, b, c][..2] == [a, b] && [a, b, c][2..] == [c];
  }

  /** The same tree above leaves that are hashed already. */
  function Tree(sum: Hasher, hashes: seq<Bytes>): Bytes
    requires hashes != []
  {
    if |hashes| == 1 then hashes[0]
    else
      SplitPointLargest(|hashes|);
      var k := SplitPoint(|hashes|);
      InnerHash(sum, Tree(sum, hashes[..k]), Tree(sum, hashes[k..]))
  }

  function Leaves(sum: Hasher, items: seq<Bytes>): (r: seq<Bytes>)
    ensures |r| == |items| && forall i | 0 <= i < |items| :: r[i] == LeafHash(sum, items[i])
  {
    seq(|items|, i requires 0 <= i < |items| => LeafHash(sum, items[i]))
  }

  lemma {:induction false} RootIsTree(sum: Hasher, items: seq<Bytes>)
    requires items != []
    ensures Root(sum, items) == Tree(sum, Leaves(sum, items))
    decreases |items|
  {
    if |items| > 1 {
      SplitPointLargest(|items|);
      var k := SplitPoint(|items|);
      RootIsTree(sum, items[..k]);
      RootIsTree(sum, items[k..]);
      assert Leaves(sum, items)[..k] == Leaves(sum, items[..k]);
      assert Leaves(sum, items)[k..] == Leaves(sum, items[k..]);
    }
  }

  // ---------------------------------------------------------------- one level at a time

  /** One pass of the iterative hash: neighbours are combined, an odd last element moves up as it is. */
  function Level(sum: Hasher, hs: seq<Bytes>): (r: seq<Bytes>)
    ensures |r| == (|hs| + 1) / 2
  {
    if hs == [] then []
    else if |hs| == 1 then [hs[0]]
    else [InnerHash(sum, hs[0], hs[1])] + Level(sum, hs[2..])
  }

  lemma {:induction false} LevelSplits(sum: Hasher, hs: seq<Bytes>, k: nat)
    requires k <= |hs| && k % 2 == 0
    ensures Level(sum, hs) == Level(sum, hs[..k]) + Level(sum, hs[k..])
    decreases |hs|
  {
    hide Level, InnerHash;
    LevelNone(sum);
    if k == 0 {
      assert hs[..k] == [] && hs[k..] == hs;
    } else {
      LevelStep(sum, hs);
      LevelStep(sum, hs[..k]);
      LevelSplits(sum, hs[2..], k - 2);
      assert hs[2..][..k - 2] == hs[..k][2..] && hs[2..][k - 2..] == hs[k..];
    }
  }

  lemma LevelNone(sum: Hasher)
    ensures Level(sum, []) == []
  {
  }

  lemma LevelStep(sum: Hasher, hs: seq<Bytes>)
    requires |hs| >= 2
    ensures Level(sum, hs) == [InnerHash(sum, hs[0], hs[1])] + Level(sum, hs[2..])
  {
  }

  /** A pass does not change the root. */
  lemma {:induction false} LevelKeepsTree(sum: Hasher, hs: seq<Bytes>)
    requires hs != []
    ensures Tree(sum, Level(sum, hs)) == Tree(sum, hs)
    decreases |hs|
  {
    var n := |hs|;
    if n == 2 {
      assert SplitPoint(2) == 1;
      assert Level(sum, hs[2..]) == [];
    } else if n > 2 {
      SplitPointLargest(n);
      var k := SplitPoint(n);
      HalfPow2(k);
      LevelSplits(sum, hs, k);
      var up := Level(sum, hs);
      var left, right := Level(sum, hs[..k]), Level(sum, hs[k..]);
      SplitPointUnique(|up|, k / 2);
      assert up[..k / 2] == left && up[k / 2..] == right;
      LevelKeepsTree(sum, hs[..k]);
      LevelKeepsTree(sum, hs[k..]);
    }
  }

  lemma {:induction false} LevelAt(sum: Hasher, hs: seq<Bytes>, j: nat)
    requires j < (|hs| + 1) / 2
    ensures Level(sum, hs)[j] == if 2 * j + 1 < |hs| then InnerHash(sum, hs[2 * j], hs[2 * j + 1]) else hs[2 * j]
    decreases |hs|
  {
    if j > 0 { LevelAt(sum, hs[2..], j - 1); }
  }

  /** One level in place: the first `size` entries are replaced by the first `wp` of the next level. */
  method Combine(sum: Hasher, items: array<Bytes>, size: nat) returns (wp: nat)
    requires 2 <= size <= items.Length
    modifies items
    ensures wp == (size + 1) / 2 && items[..wp] == Level(sum, old(items[..size]))
  {
    ghost var hs := items[..size];
    var rp := 0;
    wp := 0;
    while rp < size
      invariant 0 <= wp <= rp <= size && wp == (rp + 1) / 2 && (rp < size ==> rp == 2 * wp)
      invariant forall j | 0 <= j < wp :: items[j] == Level(sum, hs)[j]
      invariant forall j | rp <= j < size :: items[j] == hs[j]
    {
      LevelAt(sum, hs, wp);
      if rp + 1 < size {
        items[wp] := InnerHash(sum, items[rp], items[rp + 1]);
        rp := rp + 2;
      } else {
        items[wp] := items[rp];
        rp := rp + 1;
      }
      wp := wp + 1;
    }
  }

  method HashLeaves(sum: Hasher, input: seq<Bytes>) returns (items: array<Bytes>)
    ensures fresh(items) && items[..] == Leaves(sum, input)
  {
    items := new Bytes[|input|](_ => []);
    var i := 0;
    while i < |input|
      invariant 0 <= i <= |input|
      invariant forall j | 0 <= j < i :: items[j] == LeafHash(sum, input[j])
    {
      items[i] := LeafHash(sum, input[i]);
      i := i + 1;
    }
  }

  lemma TreeOfOne(sum: Hasher, hashes: seq<Bytes>)
    requires |hashes| == 1
    ensures Tree(sum, hashes) == hashes[0]
  {
  }

  lemma RootOfNone(sum: Hasher)
    ensures Root(sum, []) == EmptyHash(sum)
  {
  }

  /** `HashFromByteSlicesIterative`: the in-place hash is the recursive one, for every list of items. */
  method HashFromByteSlicesIterative(sum: Hasher, input: seq<Bytes>) returns (r: Bytes)
    ensures r == Root(sum, input)
  {
    hide Root, Tree, Level, Leaves;
    var items := HashLeaves(sum, input);
    assert items[..] == items[..items.Length];
    if |input| > 0 { RootIsTree(sum, input); }
    var size := items.Length;
    while size > 1
      invariant 0 <= size <= items.Length && (size == 0 <==> input == [])
      invariant size > 0 ==> Tree(sum, items[..size]) == Root(sum, input)
    {
      LevelKeepsTree(sum, items[..size]);
      size := Combine(sum, items, size);
    }
    if size == 0 {
      RootOfNone(sum);
      return EmptyHash(sum);
    }
    TreeOfOne(sum, items[..size]);
    return items[0];
  }
}
