/** `mempool/clist_mempool.go` with the local client, whose answers arrive before the call returns. */
module Mempools {
  import opened Types
  import CLists
  import opened CListObjects

  type Tx = Bytes

  /** Bytes of the listed transactions among the first `n` elements. */
  function BytesBelow(nodes: seq<CLists.Node>, n: nat): nat
    requires n <= |nodes|
  {
    if n == 0 then 0 else BytesBelow(nodes, n - 1) + (if nodes[n - 1].removed then 0 else |nodes[n - 1].value|)
  }

  lemma {:induction false} BytesSame(nodes: seq<CLists.Node>, more: seq<CLists.Node>, n: nat)
    requires n <= |nodes| && n <= |more|
    requires forall k | 0 <= k < n :: nodes[k].removed == more[k].removed && nodes[k].value == more[k].value
    ensures BytesBelow(nodes, n) == BytesBelow(more, n)
  {
    if n > 0 { BytesSame(nodes, more, n - 1); }
  }

  lemma {:induction false} BytesRemove(nodes: seq<CLists.Node>, more: seq<CLists.Node>, i: nat, n: nat)
    requires i < n <= |nodes| == |more| && !nodes[i].removed && more[i].removed && more[i].value == nodes[i].value
    requires forall k | 0 <= k < n && k != i :: nodes[k].removed == more[k].removed && nodes[k].value == more[k].value
    ensures BytesBelow(more, n) == BytesBelow(nodes, n) - |nodes[i].value|
  {
    if n - 1 == i { BytesSame(nodes, more, n - 1); } else { BytesRemove(nodes, more, i, n - 1); }
  }

  /** The transactions listed among the first `n` elements, in order, as far as `keep` holds. */
  function ListedWhere(nodes: seq<CLists.Node>, n: nat, keep: int -> bool): seq<Tx>
    requires n <= |nodes|
  {
    if n == 0 then []
    else ListedWhere(nodes, n - 1, keep)
         + (if !nodes[n - 1].removed && keep(n - 1) then [nodes[n - 1].value] else [])
  }

  function Listed(nodes: seq<CLists.Node>): seq<Tx> { ListedWhere(nodes, |nodes|, _ => true) }

  lemma {:induction false} FilteredList(nodes: seq<CLists.Node>, more: seq<CLists.Node>, n: nat, keep: int -> bool)
    requires n <= |nodes| == |more|
    requires forall k | 0 <= k < |nodes| :: more[k].value == nodes[k].value
    requires forall k :: CLists.IsLive(more, k) <==> CLists.IsLive(nodes, k) && keep(k)
    ensures ListedWhere(more, n, _ => true) == ListedWhere(nodes, n, keep)
  {
    if n > 0 {
      FilteredList(nodes, more, n - 1, keep);
      assert CLists.IsLive(more, n - 1) <==> CLists.IsLive(nodes, n - 1) && keep(n - 1);
    }
  }

  // ---------------------------------------------------------------- the cache of seen transactions

  function Without(cache: seq<Tx>, tx: Tx): (r: seq<Tx>)
    ensures forall t :: t in r <==> t in cache && t != tx
  {
    if cache == [] then []
    else (if cache[0] == tx then [] else [cache[0]]) + Without(cache[1..], tx)
  }

  /** `mapTxCache.Push`, least recently used first; with size 0 there is no cache. The flag says "not seen". */
  function CachePush(cache: seq<Tx>, size: nat, tx: Tx): (seq<Tx>, bool) {
    if size == 0 then (cache, true)
    else if tx in cache then (Without(cache, tx) + [tx], false)
    else ((if |cache| >= size then cache[1..] else cache) + [tx], true)
  }

  /** Taking a transaction out leaves the order of the others alone. */
  lemma {:induction false} WithoutJoin(a: seq<Tx>, b: seq<Tx>, tx: Tx)
    ensures Without(a + b, tx) == Without(a, tx) + Without(b, tx)
    ensures tx !in a ==> Without(a, tx) == a
    decreases |a|
  {
    if a == [] {
      assert a + b == b;
    } else {
      assert (a + b)[1..] == a[1..] + b && (a + b)[0] == a[0];
      WithoutJoin(a[1..], b, tx);
      assert a == [a[0]] + a[1..];
    }
  }

  /** A transaction that is seen again becomes the most recently used one, and nothing is driven out. */
  lemma CacheRefreshed(before: seq<Tx>, after: seq<Tx>, size: nat, tx: Tx)
    requires size > 0 && tx !in before && tx !in after
    ensures CachePush(before + [tx] + after, size, tx) == (before + after + [tx], false)
  {
    hide Without;
    WithoutJoin(before + [tx], after, tx);
    WithoutJoin(before, [tx], tx);
    WithoutJoin(after, [], tx);
    OnlyOne(tx);
    assert before + [] == before;
    assert (before + [tx] + after)[|before|] == tx;
  }

  lemma OnlyOne(tx: Tx)
    ensures Without([tx], tx) == []
  {
    assert [tx][1..] == [];
  }

  /** Pushing a new transaction drives at most the least recently used one out. */
  lemma Evicted(cache: seq<Tx>, size: nat, tx: Tx, listed: map<Tx, int>)
    requires size > 0 && tx !in cache && forall t | t in listed :: t in cache
    ensures (forall t | t in listed || t == tx :: t in CachePush(cache, size, tx).0)
       <==> |cache| < size || cache[0] !in listed || cache[0] in cache[1..]
  {
    if |cache| >= size { assert cache == [cache[0]] + cache[1..]; }
  }

  datatype CheckResult = Full | TooLarge | PreCheckFailed | InCache | Rejected | Added

  class Mempool {
    const maxSize: nat
    const maxTxsBytes: nat
    const maxTxBytes: nat
    const cacheSize: nat
    const txs: CList
    var cache: seq<Tx>
    var txsBytes: int
    var txsMap: map<Tx, int>
    var recheckCursor: int
    var recheckEnd: int

    /** The byte counter is the sum of the listed sizes, both limits hold, and the map leads to listed
        elements. */
    ghost predicate Core()
      reads this, txs
    {
      && CLists.Valid(txs.View())
      && txsBytes == BytesBelow(txs.nodes, |txs.nodes|) <= maxTxsBytes
      && txs.len <= maxSize <= CLists.MAX_LENGTH
      && (forall tx | tx in txsMap :: CLists.IsLive(txs.nodes, txsMap[tx]) && txs.nodes[txsMap[tx]].value == tx)
    }

    /** Between operations no recheck is under way. */
    ghost predicate Valid()
      reads this, txs
    {
      Core() && recheckCursor == -1
    }

    /** Every listed transaction is listed once and found through the map. */
    ghost predicate Complete()
      reads this, txs
    {
      forall k | CLists.IsLive(txs.nodes, k) :: Mapped(k)
    }

    /** Every transaction in the map is in the cache. */
    ghost predicate Cached()
      reads this
    {
      forall tx | tx in txsMap :: tx in cache
    }

    /** The map leads to this element for its transaction. */
    ghost predicate Mapped(k: int)
      reads this, txs
    {
      0 <= k < |txs.nodes| && txs.nodes[k].value in txsMap && txsMap[txs.nodes[k].value] == k
    }

    constructor (maxSize: nat, maxTxsBytes: nat, maxTxBytes: nat, cacheSize: nat)
      requires maxSize <= CLists.MAX_LENGTH
      ensures cache == [] && this.cacheSize == cacheSize
      ensures Valid() && Complete() && txs.View() == CLists.EMPTY && txsMap == map[] && txsBytes == 0
      ensures this.maxSize == maxSize && this.maxTxsBytes == maxTxsBytes && this.maxTxBytes == maxTxBytes
      ensures fresh(txs)
    {
      this.maxSize, this.maxTxsBytes, this.maxTxBytes := maxSize, maxTxsBytes, maxTxBytes;
      this.cacheSize, cache := cacheSize, [];
      txs := new CList();
      txsBytes, txsMap, recheckCursor, recheckEnd := 0, map[], -1, -1;
    }

    predicate IsFull(txSize: nat)
      reads this, txs
    {
      txs.len >= maxSize || txSize + txsBytes > maxTxsBytes
    }

    /** `addTx`. */
    method AddTx(tx: Tx)
      requires Core() && !IsFull(|tx|)
      modifies this, txs
      ensures Core() && txs.View() == CLists.Push(old(txs.View()), tx)
      ensures txsMap == old(txsMap)[tx := |old(txs.nodes)|]
      ensures recheckCursor == old(recheckCursor) && cache == old(cache)
    {
      hide CLists.Valid;
      ghost var before := txs.nodes;
      CLists.PushKeeps(txs.View(), tx);
      var e := txs.PushBack(tx);
      txsMap := txsMap[tx := e];
      txsBytes := txsBytes + |tx|;
      BytesSame(before, txs.nodes, |before|);
    }

    /** `removeTx`: unlink the element, forget the map entry, and give the bytes back. */
    method RemoveTx(tx: Tx, i: nat)
      requires Core() && CLists.IsLive(txs.nodes, i) && txs.nodes[i].value == tx
      modifies this`txsBytes, this`txsMap, this`cache, txs
      ensures cache == Without(old(cache), tx)
      ensures Core() && |txs.nodes| == |old(txs.nodes)| && txsMap == old(txsMap) - {tx}
      ensures forall k :: CLists.IsLive(txs.nodes, k) <==> CLists.IsLive(old(txs.nodes), k) && k != i
      ensures forall k | 0 <= k < |txs.nodes| :: txs.nodes[k].value == old(txs.nodes)[k].value
      ensures txs.nodes[i].next == old(txs.nodes)[i].next
    {
      hide CLists.Valid;
      ghost var before := txs.nodes;
      txs.RemoveElement(i);
      RemoveShape(old(txs.View()), i);
      txs.DetachPrev(i);
      txsMap := txsMap - {tx};
      txsBytes := txsBytes - |tx|;
      cache := Without(cache, tx);
      BytesRemove(before, txs.nodes, i, |before|);
    }

    /** `CheckTx` and `resCbFirstTime`. Listed exactly when there is room, the transaction is not too large, it
        passes the pre-check, is not in the cache, and the application accepts it. */
    method CheckTx(tx: Tx, preCheckOk: bool, accepted: bool) returns (r: CheckResult)
      requires Valid()
      modifies this, txs
      ensures Valid()
      ensures r == if old(IsFull(|tx|)) then Full else if |tx| > maxTxBytes then TooLarge
                   else if !preCheckOk then PreCheckFailed else if cacheSize > 0 && tx in old(cache) then InCache
                   else if accepted then Added else Rejected
      ensures cache == match r
                       case Added => CachePush(old(cache), cacheSize, tx).0
                       case InCache => CachePush(old(cache), cacheSize, tx).0
                       case Rejected => Without(CachePush(old(cache), cacheSize, tx).0, tx)
                       case _ => old(cache)
      ensures txs.View() == if r.Added? then CLists.Push(old(txs.View()), tx) else old(txs.View())
      ensures txsMap == if r.Added? then old(txsMap)[tx := |old(txs.nodes)|] else old(txsMap)
      ensures old(Complete()) ==> (Complete() <==> !(r.Added? && tx in old(txsMap)))
      ensures old(Complete() && Cached()) && cacheSize > 0 ==> Complete()
      ensures old(Cached()) && r.Added? && cacheSize > 0 ==>
                (Cached() <==> |old(cache)| < cacheSize || old(cache)[0] !in old(txsMap) || old(cache)[0] in old(cache)[1..])
    {
      hide CLists.Valid;
      if IsFull(|tx|) { return Full; }
      if |tx| > maxTxBytes { return TooLarge; }
      if !preCheckOk { return PreCheckFailed; }
      var (pushed, isNew) := CachePush(cache, cacheSize, tx);
      cache := pushed;
      if !isNew { return InCache; }
      if recheckCursor != -1 { assert false; }
      if !accepted {
        cache := Without(cache, tx);
        return Rejected;
      }
      CLists.PushKeeps(txs.View(), tx);
      AddTx(tx);
      PushShape(old(txs.View()), tx);
      if old(Complete()) {
        if tx in old(txsMap) {
          assert CLists.IsLive(txs.nodes, old(txsMap)[tx]) && !Mapped(old(txsMap)[tx]);
        } else {
          forall k | CLists.IsLive(txs.nodes, k) ensures Mapped(k) {
            assert k < |old(txs.nodes)| ==> CLists.IsLive(old(txs.nodes), k) && old(Mapped(k));
          }
        }
      }
      if old(Cached()) && cacheSize > 0 { Evicted(old(cache), cacheSize, tx, old(txsMap)); }
      return Added;
    }

    /** `resCbRecheck` for the answer to the transaction under the cursor. */
    method ResCbRecheck(tx: Tx, accepted: bool)
      requires Core() && 0 <= recheckCursor < |txs.nodes|
      requires CLists.IsLive(txs.nodes, recheckCursor) && txs.nodes[recheckCursor].value == tx
      modifies this, txs
      ensures Core() && |txs.nodes| == |old(txs.nodes)| && recheckEnd == old(recheckEnd)
      ensures forall k ::
                CLists.IsLive(txs.nodes, k) <==> CLists.IsLive(old(txs.nodes), k) && (k == old(recheckCursor) ==> accepted)
      ensures forall k | 0 <= k < |txs.nodes| :: txs.nodes[k].value == old(txs.nodes)[k].value
      ensures txs.nodes[old(recheckCursor)].next == old(txs.nodes)[old(recheckCursor)].next
      ensures recheckCursor == if old(recheckCursor == recheckEnd) then -1 else old(txs.nodes)[old(recheckCursor)].next
      ensures forall tx | tx in txsMap :: tx in old(txsMap) && txsMap[tx] == old(txsMap)[tx]
      ensures old(Complete()) ==> Complete()
    {
      hide CLists.Valid;
      var memTx := txs.nodes[recheckCursor].value;
      if tx != memTx { assert false; }
      if !accepted { RemoveTx(tx, recheckCursor); }
      if recheckCursor == recheckEnd {
        recheckCursor := -1;
      } else {
        recheckCursor := txs.nodes[recheckCursor].next;
      }
    }

    /** `recheckTxs`. The loop and the callback each walk the list, and the callback removes elements under the
        loop; they stay in step, and what is left is exactly the accepted transactions, in their old order. */
    method RecheckTxs(ok: int -> bool)
      requires Valid() && txs.len > 0
      modifies this, txs
      ensures Valid() && |txs.nodes| == |old(txs.nodes)|
      ensures forall k :: CLists.IsLive(txs.nodes, k) <==> CLists.IsLive(old(txs.nodes), k) && ok(k)
      ensures forall k | 0 <= k < |txs.nodes| :: txs.nodes[k].value == old(txs.nodes)[k].value
      ensures Listed(txs.nodes) == ListedWhere(old(txs.nodes), |old(txs.nodes)|, ok)
      ensures forall tx | tx in txsMap :: tx in old(txsMap) && txsMap[tx] == old(txsMap)[tx]
      ensures old(Complete()) ==> Complete()
    {
      hide CLists.Valid, CLists.Gap;
      EndsOf(txs.View());
      recheckCursor := txs.head;
      recheckEnd := txs.tail;
      var e := txs.head;
      while e != -1
        invariant Core() && recheckCursor == e && recheckEnd == old(txs.tail) && |txs.nodes| == |old(txs.nodes)|
        invariant e != -1 ==> CLists.IsLive(txs.nodes, e) && e <= recheckEnd
        invariant forall k ::
                    CLists.IsLive(txs.nodes, k) <==> CLists.IsLive(old(txs.nodes), k) && (e == -1 || k < e ==> ok(k))
        invariant forall k | 0 <= k < |txs.nodes| :: txs.nodes[k].value == old(txs.nodes)[k].value
        invariant forall tx | tx in txsMap :: tx in old(txsMap) && txsMap[tx] == old(txsMap)[tx]
        invariant old(Complete()) ==> Complete()
        decreases if e == -1 then 0 else |txs.nodes| - e
      {
        Advance(txs.View(), e, recheckEnd);
        ResCbRecheck(txs.nodes[e].value, ok(e));
        e := txs.nodes[e].next;
      }
      FilteredList(old(txs.nodes), txs.nodes, |txs.nodes|, ok);
    }

    /** One turn of the loop over the committed transactions. A delivered one is remembered in the cache, but
        `removeTx` takes it out again if it was listed, so that it can be submitted anew. */
    method DropCommitted(tx: Tx, delivered: bool)
      requires Valid()
      modifies this, txs
      ensures Valid() && |txs.nodes| == |old(txs.nodes)|
      ensures forall k ::
                CLists.IsLive(txs.nodes, k) <==>
                  CLists.IsLive(old(txs.nodes), k) && !(old(txs.nodes)[k].value == tx && old(Mapped(k)))
      ensures forall k | 0 <= k < |txs.nodes| :: txs.nodes[k].value == old(txs.nodes)[k].value
      ensures txsMap == map t | t in old(txsMap) && t != tx :: old(txsMap)[t]
      ensures tx in cache <==> delivered && tx !in old(txsMap) && (cacheSize > 0 || tx in old(cache))
      ensures old(Complete()) ==> Complete()
    {
      hide CLists.Valid, BytesBelow, Without, Cached;
      if delivered { cache := CachePush(cache, cacheSize, tx).0; } else { cache := Without(cache, tx); }
      if tx in txsMap { RemoveTx(tx, txsMap[tx]); }
    }

    /** The loop of `Update` over the committed transactions: exactly the elements that the map lists for a
        committed transaction go. */
    method RemoveCommitted(committed: seq<Tx>, delivered: seq<bool>)
      requires Valid() && |delivered| == |committed|
      modifies this, txs
      ensures Valid() && |txs.nodes| == |old(txs.nodes)|
      ensures forall k ::
                CLists.IsLive(txs.nodes, k) <==>
                  && CLists.IsLive(old(txs.nodes), k)
                  && !(old(txs.nodes)[k].value in committed && old(Mapped(k)))
      ensures forall k | 0 <= k < |txs.nodes| :: txs.nodes[k].value == old(txs.nodes)[k].value
      ensures forall tx :: tx in txsMap <==> tx in old(txsMap) && tx !in committed
      ensures forall tx | tx in txsMap :: txsMap[tx] == old(txsMap)[tx]
      ensures old(Complete()) ==> Complete()
    {
      hide CLists.Valid, BytesBelow, Without, CachePush, Cached;
      var i := 0;
      while i < |committed|
        invariant 0 <= i <= |committed| && Valid() && |txs.nodes| == |old(txs.nodes)|
        invariant forall k | 0 <= k < |txs.nodes| :: txs.nodes[k].value == old(txs.nodes)[k].value
        invariant forall tx :: tx in txsMap <==> tx in old(txsMap) && tx !in committed[..i]
        invariant forall tx | tx in txsMap :: txsMap[tx] == old(txsMap)[tx]
        invariant forall k ::
                    CLists.IsLive(txs.nodes, k) <==>
                      && CLists.IsLive(old(txs.nodes), k)
                      && !(old(txs.nodes)[k].value in committed[..i] && old(Mapped(k)))
        invariant old(Complete()) ==> Complete()
      {
        assert committed[..i + 1] == committed[..i] + [committed[i]];
        DropCommitted(committed[i], delivered[i]);
        i := i + 1;
      }
      assert committed[..i] == committed;
    }

    /** `Update`: drop what the map lists as committed, then drop what the application no longer accepts. */
    method Update(committed: seq<Tx>, delivered: seq<bool>, recheck: bool, ok: int -> bool)
      requires Valid() && |delivered| == |committed|
      modifies this, txs
      ensures Valid() && |txs.nodes| == |old(txs.nodes)|
      ensures forall k ::
                CLists.IsLive(txs.nodes, k) <==>
                  && CLists.IsLive(old(txs.nodes), k)
                  && !(old(txs.nodes)[k].value in committed && old(Mapped(k)))
                  && (recheck ==> ok(k))
      ensures forall k | 0 <= k < |txs.nodes| :: txs.nodes[k].value == old(txs.nodes)[k].value
      ensures forall tx | tx in txsMap :: tx in old(txsMap) && tx !in committed && txsMap[tx] == old(txsMap)[tx]
      ensures old(Complete()) ==> Complete() && forall k ::
                CLists.IsLive(txs.nodes, k) <==>
                  && CLists.IsLive(old(txs.nodes), k) && old(txs.nodes)[k].value !in committed && (recheck ==> ok(k))
    {
      hide CLists.Valid;
      RemoveCommitted(committed, delivered);
      NoneLive(txs.View());
      if txs.len > 0 && recheck { RecheckTxs(ok); }
    }
  }

  /** With a cache of one entry, a second transaction drives the first out of it; submitted again, the first is
      listed twice. */
  method ListedTwice(tx: Tx, other: Tx) returns (m: Mempool)
    requires tx != other
    ensures fresh(m) && fresh(m.txs) && m.Valid() && |m.txs.nodes| == 3
    ensures CLists.IsLive(m.txs.nodes, 0) && CLists.IsLive(m.txs.nodes, 2)
    ensures m.txs.nodes[0].value == m.txs.nodes[2].value == tx && m.Mapped(2) && !m.Mapped(0)
  {
    hide CLists.Valid, CLists.Push, CLists.IsLive;
    m := TwoListed(tx, other);
    CLists.PushKeeps(m.txs.View(), tx);
    PushShape(m.txs.View(), tx);
    var third := m.CheckTx(tx, true, true);
    assert third.Added? && |m.txs.nodes| == 3;
    LiveAt(m.txs.nodes, 0);
    LiveAt(m.txs.nodes, 2);
  }

  method TwoListed(tx: Tx, other: Tx) returns (m: Mempool)
    requires tx != other
    ensures fresh(m) && fresh(m.txs) && m.Valid() && |m.txs.nodes| == 2 && !m.IsFull(|tx|) && |tx| <= m.maxTxBytes
    ensures m.txs.nodes[0].value == tx && !m.txs.nodes[0].removed && m.cacheSize == 1 && tx !in m.cache
  {
    hide CLists.Valid, CLists.Push, CLists.IsLive, BytesBelow, Without, Mempool.Complete, Mempool.Cached;
    m := OneListed(tx, other);
    CLists.PushKeeps(m.txs.View(), other);
    PushShape(m.txs.View(), other);
    ghost var nodes := m.txs.nodes;
    var second := m.CheckTx(other, true, true);
    assert second.Added? && |m.txs.nodes| == 2 && m.cache == [other];
    BytesPush(nodes, m.txs.nodes);
  }

  method OneListed(tx: Tx, other: Tx) returns (m: Mempool)
    requires tx != other
    ensures fresh(m) && fresh(m.txs) && m.Valid() && |m.txs.nodes| == m.txs.len == 1
    ensures m.maxSize == 3 && m.maxTxsBytes == 2 * |tx| + |other| && m.maxTxBytes == |tx| + |other|
    ensures m.txsBytes == |tx| && m.cacheSize == 1 && m.cache == [tx]
    ensures m.txs.nodes[0].value == tx && !m.txs.nodes[0].removed
  {
    hide CLists.Valid, CLists.Push, CLists.IsLive, BytesBelow, Without, Mempool.Complete, Mempool.Cached;
    m := new Mempool(3, 2 * |tx| + |other|, |tx| + |other|, 1);
    PushShape(m.txs.View(), tx);
    ghost var nodes := m.txs.nodes;
    var first := m.CheckTx(tx, true, true);
    assert first.Added?;
    BytesPush(nodes, m.txs.nodes);
  }

  lemma BytesPush(nodes: seq<CLists.Node>, more: seq<CLists.Node>)
    requires |more| == |nodes| + 1 && !more[|nodes|].removed
    requires forall k | 0 <= k < |nodes| :: nodes[k].removed == more[k].removed && nodes[k].value == more[k].value
    ensures BytesBelow(more, |more|) == BytesBelow(nodes, |nodes|) + |more[|nodes|].value|
  {
    BytesSame(nodes, more, |nodes|);
  }

  /** Committing a transaction that is listed twice removes only the second copy. */
  method CommittedButListed(tx: Tx, other: Tx) returns (m: Mempool)
    requires tx != other
    ensures fresh(m) && fresh(m.txs) && m.Valid() && !m.Complete()
    ensures CLists.IsLive(m.txs.nodes, 0) && m.txs.nodes[0].value == tx
    ensures |m.txs.nodes| == 3 && !CLists.IsLive(m.txs.nodes, 2) && m.txs.nodes[2].value == tx
  {
    hide CLists.Valid, CLists.IsLive;
    m := ListedTwice(tx, other);
    m.Update([tx], [true], false, _ => true);
    assert !m.Mapped(0);
  }

  lemma LiveAt(nodes: seq<CLists.Node>, k: nat)
    requires k < |nodes| && !nodes[k].removed
    ensures CLists.IsLive(nodes, k)
  {
  }

  lemma PushShape(s: CLists.ListState, tx: Tx)
    requires s.tail == -1 || 0 <= s.tail < |s.nodes|
    ensures var t := CLists.Push(s, tx);
            && |t.nodes| == |s.nodes| + 1 && t.len == s.len + 1
            && t.nodes[|s.nodes|].value == tx && !t.nodes[|s.nodes|].removed
            && forall k | 0 <= k < |s.nodes| :: t.nodes[k].value == s.nodes[k].value && t.nodes[k].removed == s.nodes[k].removed
  {
  }

  lemma NoneLive(s: CLists.ListState)
    requires CLists.Valid(s)
    ensures s.len == 0 ==> forall k :: !CLists.IsLive(s.nodes, k)
  {
    CLists.EmptyIff(s);
  }

  lemma EndsOf(s: CLists.ListState)
    requires CLists.Valid(s) && s.len > 0
    ensures CLists.IsLive(s.nodes, s.head) && CLists.IsLive(s.nodes, s.tail) && s.head <= s.tail
    ensures forall k | CLists.IsLive(s.nodes, k) :: s.head <= k <= s.tail
  {
    CLists.EmptyIff(s);
  }

  /** Where the walk goes next: to the next live element, or nowhere from the last one. */
  lemma Advance(s: CLists.ListState, e: int, end: int)
    requires CLists.Valid(s) && CLists.IsLive(s.nodes, e) && e <= end
    requires e < end ==> CLists.IsLive(s.nodes, end)
    requires forall k | CLists.IsLive(s.nodes, k) && e <= k :: k <= end
    ensures s.nodes[e].next == -1 <==> e == end
    ensures e != end ==>
              && e < s.nodes[e].next <= end && CLists.IsLive(s.nodes, s.nodes[e].next)
              && forall k | e < k < s.nodes[e].next :: !CLists.IsLive(s.nodes, k)
  {
    assert CLists.ForwardOk(s.nodes, e);
  }

  lemma RemoveShape(s: CLists.ListState, i: nat)
    requires CLists.Valid(s) && CLists.IsLive(s.nodes, i)
    requires CLists.InRange(s, s.nodes[i].prev) && CLists.InRange(s, s.nodes[i].next) && s.len > 0
    ensures var t := CLists.Remove(s, i);
            && |t.nodes| == |s.nodes| && t.len == s.len - 1
            && t.nodes[i].removed && t.nodes[i].next == s.nodes[i].next
            && (forall k | 0 <= k < |s.nodes| :: t.nodes[k].value == s.nodes[k].value)
            && (forall k | 0 <= k < |s.nodes| && k != i :: t.nodes[k].removed == s.nodes[k].removed)
  {
    CLists.Neighbours(s, i);
  }
}
