/** `crypto/merkle/proof.go`: audit paths of section 2.1.1 of RFC 6962. */
module MerkleProofs {
  import opened Types
  import opened Merkle

  const MAX_AUNTS: nat := 100

  datatype Proof = Proof(total: int, index: int, leafHash: Bytes, aunts: seq<Bytes>)

  // ---------------------------------------------------------------- verification

  /** `computeHashFromAunts`; the empty sequence stands for nil. */
  function HashFromAunts(sum: Hasher, index: int, total: int, leafHash: Bytes, aunts: seq<Bytes>): Bytes
    decreases total
  {
    if index >= total || index < 0 || total <= 0 then []
    else if total == 1 then if aunts != [] then [] else leafHash
    else if aunts == [] then []
    else
      SplitPointLargest(total);
      var k := SplitPoint(total);
      var last := aunts[|aunts| - 1];
      if index < k then
        var left := HashFromAunts(sum, index, k, leafHash, aunts[..|aunts| - 1]);
        if left == [] then [] else InnerHash(sum, left, last)
      else
        var right := HashFromAunts(sum, index - k, total - k, leafHash, aunts[..|aunts| - 1]);
        if right == [] then [] else InnerHash(sum, last, right)
  }

  /** `Proof.Verify`. */
  predicate Verifies(sum: Hasher, p: Proof, root: Bytes, leaf: Bytes) {
    && p.total >= 0 && p.index >= 0 && p.leafHash == LeafHash(sum, leaf)
    && HashFromAunts(sum, p.index, p.total, p.leafHash, p.aunts) == root
  }

  /** `Proof.ValidateBasic`. */
  predicate ValidateBasic(p: Proof) {
    && p.total >= 0 && p.index >= 0 && |p.leafHash| == HASH_SIZE && |p.aunts| <= MAX_AUNTS
    && forall i | 0 <= i < |p.aunts| :: |p.aunts[i]| == HASH_SIZE
  }

  // ---------------------------------------------------------------- generation

  /** The siblings on the way from item `i` to the root, lowest first. */
  function AuntsOf(sum: Hasher, items: seq<Bytes>, i: nat): seq<Bytes>
    requires i < |items|
    decreases |items|
  {
    if |items| == 1 then []
    else
      SplitPointLargest(|items|);
      var k := SplitPoint(|items|);
      if i < k then AuntsOf(sum, items[..k], i) + [Root(sum, items[k..])]
      else AuntsOf(sum, items[k..], i - k) + [Root(sum, items[..k])]
  }

  function ProofOf(sum: Hasher, items: seq<Bytes>, i: nat): Proof
    requires i < |items|
  {
    Proof(|items|, i, LeafHash(sum, items[i]), AuntsOf(sum, items, i))
  }

  ghost predicate FixedSize(sum: Hasher) { forall b :: |sum(b)| == HASH_SIZE }

  /** One step up an audit path, from the left or the right half. */
  lemma StepUp(sum: Hasher, index: int, total: int, leafHash: Bytes, aunts: seq<Bytes>, last: Bytes)
    requires 0 <= index < total && total > 1
    ensures SplitPoint(total) < total
    ensures var k := SplitPoint(total);
            var below := if index < k then HashFromAunts(sum, index, k, leafHash, aunts)
                         else HashFromAunts(sum, index - k, total - k, leafHash, aunts);
            HashFromAunts(sum, index, total, leafHash, aunts + [last])
            == if below == [] then [] else if index < k then InnerHash(sum, below, last) else InnerHash(sum, last, below)
  {
    SplitPointLargest(total);
    assert (aunts + [last])[..|aunts|] == aunts;
  }

  lemma RootStep(sum: Hasher, items: seq<Bytes>)
    requires |items| > 1
    ensures 0 < SplitPoint(|items|) < |items|
    ensures var k := SplitPoint(|items|);
            Root(sum, items) == InnerHash(sum, Root(sum, items[..k]), Root(sum, items[k..]))
  {
    SplitPointLargest(|items|);
  }

  lemma AuntsStep(sum: Hasher, items: seq<Bytes>, i: nat)
    requires i < |items| && |items| > 1
    ensures 0 < SplitPoint(|items|) < |items|
    ensures var k := SplitPoint(|items|);
            AuntsOf(sum, items, i) == if i < k then AuntsOf(sum, items[..k], i) + [Root(sum, items[k..])]
                                      else AuntsOf(sum, items[k..], i - k) + [Root(sum, items[..k])]
  {
    SplitPointLargest(|items|);
  }

  lemma OneItem(sum: Hasher, items: seq<Bytes>, leafHash: Bytes)
    requires |items| == 1
    ensures AuntsOf(sum, items, 0) == [] && Root(sum, items) == LeafHash(sum, items[0])
    ensures HashFromAunts(sum, 0, 1, leafHash, []) == leafHash
  {
  }

  lemma {:induction false} AuntsLeadToRoot(sum: Hasher, items: seq<Bytes>, i: nat)
    requires i < |items| && FixedSize(sum)
    ensures HashFromAunts(sum, i, |items|, LeafHash(sum, items[i]), AuntsOf(sum, items, i)) == Root(sum, items)
    decreases |items|
  {
    hide Root, HashFromAunts, SplitPoint, AuntsOf, InnerHash, LeafHash;
    var n, lh := |items|, LeafHash(sum, items[i]);
    if n == 1 {
      OneItem(sum, items, lh);
    } else {
      RootStep(sum, items);
      AuntsStep(sum, items, i);
      var k := SplitPoint(n);
      if i < k {
        AuntsLeadToRoot(sum, items[..k], i);
        RootSize(sum, items[..k]);
        StepUp(sum, i, n, lh, AuntsOf(sum, items[..k], i), Root(sum, items[k..]));
      } else {
        AuntsLeadToRoot(sum, items[k..], i - k);
        RootSize(sum, items[k..]);
        StepUp(sum, i, n, lh, AuntsOf(sum, items[k..], i - k), Root(sum, items[..k]));
      }
    }
  }

  lemma RootSize(sum: Hasher, items: seq<Bytes>)
    requires FixedSize(sum)
    ensures |Root(sum, items)| == HASH_SIZE
  {
  }

  /** At most `d` aunts when there are at most `2^d` items, each of them a hash. */
  lemma {:induction false} AuntsBounded(sum: Hasher, items: seq<Bytes>, i: nat, d: nat)
    requires i < |items| <= Pow2(d) && FixedSize(sum)
    ensures |AuntsOf(sum, items, i)| <= d && AllHashes(AuntsOf(sum, items, i))
    decreases |items|
  {
    hide Root, SplitPoint, AuntsOf, Pow2, FixedSize, IsPow2;
    var n := |items|;
    if n == 1 {
      OneItem(sum, items, []);
    } else {
      SplitPointLargest(n);
      AuntsStep(sum, items, i);
      var k := SplitPoint(n);
      HalfAtMost(n, k, d);
      RootSize(sum, items[k..]);
      RootSize(sum, items[..k]);
      if i < k { AuntsBounded(sum, items[..k], i, d - 1); } else { AuntsBounded(sum, items[k..], i - k, d - 1); }
    }
  }

  ghost predicate AllHashes(aunts: seq<Bytes>) { forall j | 0 <= j < |aunts| :: |aunts[j]| == HASH_SIZE }

  lemma HalfAtMost(n: nat, k: nat, d: nat)
    requires 1 < n <= Pow2(d) && IsPow2(k) && k < n <= 2 * k
    ensures d > 0 && k <= Pow2(d - 1) && n - k <= Pow2(d - 1)
  {
    var e: nat :| k == Pow2(e);
    if d <= e {
      if d < e { Pow2Monotone(d, e); }
    } else if e < d - 1 {
      Pow2Monotone(e, d - 1);
    }
  }

  /** Every generated proof verifies its own item against the root, and is well formed for any number of items
      up to `2^100`. */
  lemma GeneratedProofVerifies(sum: Hasher, items: seq<Bytes>, i: nat)
    requires i < |items| && FixedSize(sum)
    ensures Verifies(sum, ProofOf(sum, items, i), Root(sum, items), items[i])
    ensures |items| <= Pow2(MAX_AUNTS) ==> ValidateBasic(ProofOf(sum, items, i))
  {
    hide Root, HashFromAunts, AuntsOf, Pow2;
    AuntsLeadToRoot(sum, items, i);
    if |items| <= Pow2(MAX_AUNTS) { AuntsBounded(sum, items, i, MAX_AUNTS); }
  }

  // ---------------------------------------------------------------- soundness

  ghost predicate Collision(sum: Hasher, pair: (Bytes, Bytes)) {
    pair.0 != pair.1 && sum(pair.0) == sum(pair.1)
  }

  /** What the root of a list is the hash of. */
  function Preimage(sum: Hasher, items: seq<Bytes>): Bytes {
    if items == [] then []
    else if |items| == 1 then [0] + items[0]
    else
      SplitPointLargest(|items|);
      var k := SplitPoint(|items|);
      [1] + Root(sum, items[..k]) + Root(sum, items[k..])
  }

  /** The hash one step below the top of a path. */
  function Below(sum: Hasher, index: int, total: int, leafHash: Bytes, rest: seq<Bytes>): Bytes
    requires total > 1
  {
    SplitPointLargest(total);
    var k := SplitPoint(total);
    if index < k then HashFromAunts(sum, index, k, leafHash, rest)
    else HashFromAunts(sum, index - k, total - k, leafHash, rest)
  }

  /** What the last hash on a path is the hash of. */
  function PathPreimage(sum: Hasher, index: int, total: int, leaf: Bytes, aunts: seq<Bytes>): Bytes {
    if total <= 1 || aunts == [] then [0] + leaf
    else
      var last := aunts[|aunts| - 1];
      var below := Below(sum, index, total, LeafHash(sum, leaf), aunts[..|aunts| - 1]);
      if index < SplitPoint(total) then [1] + below + last else [1] + last + below
  }

  lemma RootHashes(sum: Hasher, items: seq<Bytes>)
    ensures Root(sum, items) == sum(Preimage(sum, items))
  {
  }

  lemma PathHashes(sum: Hasher, index: int, total: int, leaf: Bytes, aunts: seq<Bytes>)
    requires HashFromAunts(sum, index, total, LeafHash(sum, leaf), aunts) != []
    ensures 0 <= index < total && (total == 1 <==> aunts == [])
    ensures HashFromAunts(sum, index, total, LeafHash(sum, leaf), aunts) == sum(PathPreimage(sum, index, total, leaf, aunts))
    ensures total > 1 ==> Below(sum, index, total, LeafHash(sum, leaf), aunts[..|aunts| - 1]) != []
  {
    if total > 1 { SplitPointLargest(total); }
  }

  /** Two different inputs of the hash function, found by following a proof down the tree until it disagrees. */
  function Extract(sum: Hasher, items: seq<Bytes>, index: int, total: int, aunts: seq<Bytes>, leaf: Bytes): (Bytes, Bytes)
    decreases |items|
  {
    var x, y := PathPreimage(sum, index, total, leaf, aunts), Preimage(sum, items);
    if x != y || |items| <= 1 || total <= 1 || aunts == [] then (x, y)
    else
      SplitPointLargest(|items|);
      var k, kt, rest := SplitPoint(|items|), SplitPoint(total), aunts[..|aunts| - 1];
      if index < kt then Extract(sum, items[..k], index, kt, rest, leaf)
      else Extract(sum, items[k..], index - kt, total - kt, rest, leaf)
  }

  /** Where a path for place `index` of `total` ends in a tree of `n` leaves: it is the way down that matters.
      None if the path is too short or too long for that tree. */
  function Landing(index: int, total: int, n: nat): (r: Option<nat>)
    ensures r.Some? ==> r.value < n
    ensures 0 <= index < total == n ==> r == Some(index)
    decreases n
  {
    if n == 0 || total <= 0 then None
    else if n == 1 || total == 1 then if n == total then Some(0) else None
    else
      SplitPointLargest(n);
      var k, kt := SplitPoint(n), SplitPoint(total);
      if index < kt then
        Landing(index, kt, k)
      else
        match Landing(index - kt, total - kt, n - k)
        case None => None
        case Some(i) => Some(k + i)
  }

  /** The path proves the leaf it lands on, and is that leaf's audit path. */
  ghost predicate Proves(sum: Hasher, items: seq<Bytes>, index: int, total: int, aunts: seq<Bytes>, leaf: Bytes) {
    var place := Landing(index, total, |items|);
    place.Some? && leaf == items[place.value] && aunts == AuntsOf(sum, items, place.value)
  }

  lemma AuntHashSize(sum: Hasher, index: int, total: int, leafHash: Bytes, aunts: seq<Bytes>)
    requires FixedSize(sum) && |leafHash| == HASH_SIZE
    ensures var h := HashFromAunts(sum, index, total, leafHash, aunts); h == [] || |h| == HASH_SIZE
  {
  }

  lemma SameHalves(a: Bytes, b: Bytes, c: Bytes, d: Bytes)
    requires [1] + a + b == [1] + c + d && |a| == |c|
    ensures a == c && b == d
  {
    assert ([1] + a + b)[1..] == a + b && ([1] + c + d)[1..] == c + d;
    assert (a + b)[..|a|] == a && (c + d)[..|c|] == c;
    assert (a + b)[|a|..] == b && (c + d)[|c|..] == d;
  }

  /** If path and tree agree at the top, they agree on the two hashes below it. */
  lemma TopAgrees(sum: Hasher, items: seq<Bytes>, index: int, total: int, rest: seq<Bytes>, last: Bytes, leaf: Bytes)
    requires FixedSize(sum) && |items| > 1 && total > 1 && |last| == HASH_SIZE
    requires Below(sum, index, total, LeafHash(sum, leaf), rest) != []
    requires PathPreimage(sum, index, total, leaf, rest + [last]) == Preimage(sum, items)
    ensures 0 < SplitPoint(|items|) < |items|
    ensures var k := SplitPoint(|items|);
            var below := Below(sum, index, total, LeafHash(sum, leaf), rest);
            if index < SplitPoint(total) then below == Root(sum, items[..k]) && last == Root(sum, items[k..])
            else below == Root(sum, items[k..]) && last == Root(sum, items[..k])
  {
    hide Root, HashFromAunts, SplitPoint;
    SplitPointLargest(|items|);
    SplitPointLargest(total);
    var k, kt, lh := SplitPoint(|items|), SplitPoint(total), LeafHash(sum, leaf);
    RootSize(sum, items[..k]);
    RootSize(sum, items[k..]);
    assert (rest + [last])[..|rest|] == rest;
    if index < kt {
      AuntHashSize(sum, index, kt, lh, rest);
      SameHalves(HashFromAunts(sum, index, kt, lh, rest), last, Root(sum, items[..k]), Root(sum, items[k..]));
    } else {
      AuntHashSize(sum, index - kt, total - kt, lh, rest);
      SameHalves(last, HashFromAunts(sum, index - kt, total - kt, lh, rest), Root(sum, items[..k]), Root(sum, items[k..]));
    }
  }

  /** One level: what holds of the half the path goes into holds of the whole. */
  lemma ProvesUp(sum: Hasher, items: seq<Bytes>, index: int, total: int, rest: seq<Bytes>, last: Bytes, leaf: Bytes)
    requires |items| > 1 && total > 1 && 0 <= index
    requires 0 < SplitPoint(|items|) < |items| && SplitPoint(total) < total
    requires var k, kt := SplitPoint(|items|), SplitPoint(total);
             if index < kt then Proves(sum, items[..k], index, kt, rest, leaf) && last == Root(sum, items[k..])
             else Proves(sum, items[k..], index - kt, total - kt, rest, leaf) && last == Root(sum, items[..k])
    ensures Proves(sum, items, index, total, rest + [last], leaf)
  {
    hide Root, SplitPoint;
  }

  /** Leaves and inner nodes are told apart by the first byte. */
  lemma PathPrefix(sum: Hasher, index: int, total: int, leaf: Bytes, aunts: seq<Bytes>)
    ensures var x := PathPreimage(sum, index, total, leaf, aunts);
            |x| > 0 && (x[0] == 0 <==> total <= 1 || aunts == [])
  {
  }

  /** The bottom of the path: agreeing inputs mean the same leaf, or no tree there at all. */
  lemma BottomAgrees(sum: Hasher, items: seq<Bytes>, index: int, total: int, aunts: seq<Bytes>, leaf: Bytes)
    requires 0 <= index < total && (total == 1 <==> aunts == []) && (|items| <= 1 || total == 1)
    requires PathPreimage(sum, index, total, leaf, aunts) == Preimage(sum, items)
    ensures Proves(sum, items, index, total, aunts, leaf)
  {
    hide Root, HashFromAunts, SplitPoint, Below;
    PathPrefix(sum, index, total, leaf, aunts);
    if total == 1 && |items| == 1 { assert ([0] + leaf)[1..] == leaf && ([0] + items[0])[1..] == items[0]; }
  }

  lemma {:induction false} PathSound(sum: Hasher, items: seq<Bytes>, index: int, total: int, aunts: seq<Bytes>, leaf: Bytes)
    requires FixedSize(sum) && AllHashes(aunts)
    requires HashFromAunts(sum, index, total, LeafHash(sum, leaf), aunts) == Root(sum, items)
    ensures Proves(sum, items, index, total, aunts, leaf) || Collision(sum, Extract(sum, items, index, total, aunts, leaf))
    decreases |items|
  {
    hide Root, HashFromAunts, SplitPoint, PathPreimage, Preimage, Proves;
    RootSize(sum, items);
    RootHashes(sum, items);
    PathHashes(sum, index, total, leaf, aunts);
    if PathPreimage(sum, index, total, leaf, aunts) == Preimage(sum, items) {
      if |items| <= 1 || total == 1 {
        BottomAgrees(sum, items, index, total, aunts, leaf);
      } else {
        var last, rest := aunts[|aunts| - 1], aunts[..|aunts| - 1];
        assert rest + [last] == aunts;
        TopAgrees(sum, items, index, total, rest, last, leaf);
        SplitPointLargest(total);
        var k, kt := SplitPoint(|items|), SplitPoint(total);
        if index < kt { PathSound(sum, items[..k], index, kt, rest, leaf); }
        else { PathSound(sum, items[k..], index - kt, total - kt, rest, leaf); }
        if !Collision(sum, Extract(sum, items, index, total, aunts, leaf)) {
          ProvesUp(sum, items, index, total, rest, last, leaf);
        }
      }
    }
  }

  /** A well-formed proof that verifies against the root, whatever total and index it claims, proves the item its
      path lands on and carries that item's audit path; otherwise two colliding inputs of the hash function can
      be read off it. With the tree's own total it lands on its index. */
  lemma VerifyingProofIsSound(sum: Hasher, items: seq<Bytes>, p: Proof, leaf: Bytes)
    requires FixedSize(sum) && ValidateBasic(p) && Verifies(sum, p, Root(sum, items), leaf)
    ensures 0 <= p.index < p.total
    ensures Proves(sum, items, p.index, p.total, p.aunts, leaf)
         || Collision(sum, Extract(sum, items, p.index, p.total, p.aunts, leaf))
    ensures p.total == |items| ==>
              (p == ProofOf(sum, items, p.index) && leaf == items[p.index])
              || Collision(sum, Extract(sum, items, p.index, p.total, p.aunts, leaf))
  {
    RootSize(sum, items);
    PathSound(sum, items, p.index, p.total, p.aunts, leaf);
  }
}
