/** `trailsFromByteSlices` and `FlattenAunts`: proofs are read off a tree of nodes linked upwards. */
module MerkleTrails {
  import opened Types
  import opened Merkle
  import opened MerkleProofs

  /** `ProofNode`. The ghost field holds the hashes of the siblings met on the way to the root. */
  class ProofNode {
    const hash: Bytes
    var parent: ProofNode?
    var left: ProofNode?
    var right: ProofNode?
    ghost var aunts: seq<Bytes>

    constructor (hash: Bytes)
      ensures this.hash == hash && parent == null && left == null && right == null && aunts == []
    {
      this.hash := hash;
      parent, left, right := null, null, null;
      aunts := [];
    }
  }

  /** Below the root a node has exactly one sibling, and its parent's path continues its own. */
  ghost predicate NodeLinked(n: ProofNode, nodes: set<ProofNode>)
    requires n in nodes
    reads nodes
  {
    if n.parent == null then n.left == null && n.right == null && n.aunts == []
    else
      && n.parent in nodes && (n.left == null) != (n.right == null)
      && n.aunts == [if n.left != null then n.left.hash else n.right.hash] + n.parent.aunts
  }

  /** The nodes of one tree; only its root has no parent. */
  ghost predicate Linked(nodes: set<ProofNode>, root: ProofNode)
    reads nodes
  {
    && root in nodes && root.parent == null
    && (forall n | n in nodes :: NodeLinked(n, nodes))
    && (forall n | n in nodes && n.parent == null :: n == root)
  }

  lemma LinkedNode(n: ProofNode, nodes: set<ProofNode>, root: ProofNode)
    requires n in nodes && Linked(nodes, root)
    ensures NodeLinked(n, nodes)
  {
  }

  lemma LinkedAlone(root: ProofNode)
    requires root.parent == null && root.left == null && root.right == null && root.aunts == []
    ensures Linked({root}, root)
  {
  }

  /** `FlattenAunts`: the loop up the parents collects the siblings' hashes. */
  method FlattenAunts(node: ProofNode, ghost nodes: set<ProofNode>, ghost root: ProofNode) returns (hashes: seq<Bytes>)
    requires node in nodes && Linked(nodes, root)
    ensures hashes == node.aunts
  {
    hide Linked;
    hashes := [];
    var spn: ProofNode? := node;
    while spn != null
      invariant spn != null ==> spn in nodes && hashes + spn.aunts == node.aunts
      invariant spn == null ==> hashes == node.aunts
      decreases if spn == null then 0 else 1 + |spn.aunts|
      modifies {}
    {
      LinkedNode(spn, nodes, root);
      if spn.left != null {
        hashes := hashes + [spn.left.hash];
      } else if spn.right != null {
        hashes := hashes + [spn.right.hash];
      }
      spn := spn.parent;
    }
  }

  /** Hang two trees below a new root: every node's path grows by the hash of the other tree. */
  method Join(l: ProofNode, r: ProofNode, hash: Bytes, ghost ls: set<ProofNode>, ghost rs: set<ProofNode>)
    returns (root: ProofNode)
    requires Linked(ls, l) && Linked(rs, r) && ls !! rs
    modifies ls, rs
    ensures fresh(root) && root.hash == hash && Linked(ls + rs + {root}, root)
    ensures forall n | n in ls :: n.aunts == old(n.aunts) + [r.hash]
    ensures forall n | n in rs :: n.aunts == old(n.aunts) + [l.hash]
  {
    hide NodeLinked, Linked, Below;
    root := new ProofNode(hash);
    Hang(l, root, null, r, ls);
    Hang(r, root, l, null, rs);
    JointLinked(ls, rs, root);
  }

  /** The tree hangs below `root`, and its top has the other tree as its sibling. */
  ghost predicate Below(own: set<ProofNode>, root: ProofNode)
    reads own, root
  {
    forall n | n in own :: n.parent != null && NodeLinked(n, own + {root})
  }

  /** Hang one tree below `root`, next to the sibling that is given. */
  method Hang(top: ProofNode, root: ProofNode, left: ProofNode?, right: ProofNode?, ghost own: set<ProofNode>)
    requires Linked(own, top) && root !in own && root.aunts == [] && (left == null) != (right == null)
    modifies own
    ensures Below(own, root)
    ensures forall n | n in own :: n.aunts == old(n.aunts) + [if left != null then left.hash else right.hash]
  {
    ghost var hash := if left != null then left.hash else right.hash;
    top.parent, top.left, top.right := root, left, right;
    forall n | n in own { n.aunts := n.aunts + [hash]; }
    forall n | n in own ensures n.parent != null && NodeLinked(n, own + {root}) { assert old(NodeLinked(n, own)); }
  }

  lemma JointLinked(ls: set<ProofNode>, rs: set<ProofNode>, root: ProofNode)
    requires Below(ls, root) && Below(rs, root)
    requires root.parent == null && root.left == null && root.right == null && root.aunts == []
    ensures Linked(ls + rs + {root}, root)
  {
    var nodes := ls + rs + {root};
    forall n | n in nodes ensures NodeLinked(n, nodes) && (n.parent == null ==> n == root) {
      if n in ls { assert NodeLinked(n, ls + {root}); }
      else if n in rs { assert NodeLinked(n, rs + {root}); }
    }
  }

  /** `trailsFromByteSlices`: one trail per item, leading to a root that carries the tree's hash. */
  method Trails(sum: Hasher, items: seq<Bytes>)
    returns (trails: seq<ProofNode>, root: ProofNode, ghost nodes: set<ProofNode>)
    ensures fresh(nodes) && Linked(nodes, root) && root.hash == Root(sum, items)
    ensures |trails| == |items|
    ensures forall i | 0 <= i < |items| ::
              && trails[i] in nodes && trails[i].hash == LeafHash(sum, items[i])
              && trails[i].aunts == AuntsOf(sum, items, i)
    decreases |items|, 1
  {
    hide Linked, NodeLinked, AuntsOf;
    if |items| <= 1 {
      root := new ProofNode(if items == [] then EmptyHash(sum) else LeafHash(sum, items[0]));
      LinkedAlone(root);
      if items != [] { NoAunts(sum, items); }
      return if items == [] then [] else [root], root, {root};
    }
    trails, root, nodes := JoinHalves(sum, items);
  }

  lemma NoAunts(sum: Hasher, items: seq<Bytes>)
    requires |items| == 1
    ensures AuntsOf(sum, items, 0) == []
  {
  }

  method JoinHalves(sum: Hasher, items: seq<Bytes>)
    returns (trails: seq<ProofNode>, root: ProofNode, ghost nodes: set<ProofNode>)
    requires |items| > 1
    ensures fresh(nodes) && Linked(nodes, root) && root.hash == Root(sum, items)
    ensures |trails| == |items|
    ensures forall i | 0 <= i < |items| ::
              && trails[i] in nodes && trails[i].hash == LeafHash(sum, items[i])
              && trails[i].aunts == AuntsOf(sum, items, i)
    decreases |items|, 0
  {
    hide Root, SplitPoint, Linked, NodeLinked, AuntsOf, LeafHash, InnerHash;
    RootStep(sum, items);
    var k := SplitPoint(|items|);
    ghost var ls, rs;
    var lefts, l, rights, r;
    lefts, l, ls := Trails(sum, items[..k]);
    rights, r, rs := Trails(sum, items[k..]);
    root := Join(l, r, InnerHash(sum, l.hash, r.hash), ls, rs);
    trails := lefts + rights;
    nodes := ls + rs + {root};
    forall i | 0 <= i < |items|
      ensures trails[i] in nodes && trails[i].hash == LeafHash(sum, items[i])
      ensures trails[i].aunts == AuntsOf(sum, items, i)
    {
      AuntsStep(sum, items, i);
      if i < k { assert trails[i] == lefts[i]; } else { assert trails[i] == rights[i - k]; }
    }
  }

  /** `ProofsFromByteSlices`: the proofs are exactly the audit paths, and the root is the tree's hash. */
  method ProofsFromByteSlices(sum: Hasher, items: seq<Bytes>) returns (root: Bytes, proofs: seq<Proof>)
    ensures root == Root(sum, items) && |proofs| == |items|
    ensures forall i | 0 <= i < |items| :: proofs[i] == ProofOf(sum, items, i)
  {
    hide Root, AuntsOf, Linked;
    ghost var nodes;
    var trails, spn;
    trails, spn, nodes := Trails(sum, items);
    root := spn.hash;
    proofs := [];
    var i := 0;
    while i < |trails|
      invariant 0 <= i <= |trails| && |proofs| == i
      invariant forall j | 0 <= j < i :: proofs[j] == ProofOf(sum, items, j)
      modifies {}
    {
      var aunts := FlattenAunts(trails[i], nodes, spn);
      proofs := proofs + [Proof(|items|, i, trails[i].hash, aunts)];
      i := i + 1;
    }
  }
}
