/** `libs/clist/clist.go`: a doubly linked list whose removed elements keep leading readers forward. Elements
    are numbered in the order of insertion; -1 stands for nil. */
module CLists {
  import opened Types

  /** `CElement`; a channel is represented by whether it is closed. */
  datatype Node = Node(value: Bytes, prev: int, prevClosed: bool, next: int, nextClosed: bool, removed: bool)

  datatype ListState = ListState(nodes: seq<Node>, head: int, tail: int, len: nat, waitClosed: bool)

  const MAX_LENGTH: nat := 0x7fff_ffff_ffff_ffff

  const EMPTY := ListState([], -1, -1, 0, false)

  // ---------------------------------------------------------------- element operations

  function WithNext(n: Node, next: int): Node {
    n.(next := next, nextClosed := if (n.next == -1) == (next == -1) then n.nextClosed else next != -1)
  }

  function WithPrev(n: Node, prev: int): Node {
    n.(prev := prev, prevClosed := if (n.prev == -1) == (prev == -1) then n.prevClosed else prev != -1)
  }

  function AsRemoved(n: Node): Node {
    n.(removed := true, prevClosed := n.prevClosed || n.prev == -1, nextClosed := n.nextClosed || n.next == -1)
  }

  /** `PushBack`. */
  function Push(s: ListState, v: Bytes): ListState
    requires s.tail == -1 || 0 <= s.tail < |s.nodes|
  {
    var i := |s.nodes|;
    var node := Node(v, -1, false, -1, false, false);
    if s.tail == -1 then ListState(s.nodes + [node], i, i, s.len + 1, true)
    else ListState(s.nodes[s.tail := WithNext(s.nodes[s.tail], i)] + [WithPrev(node, s.tail)],
                   s.head, i, s.len + 1, true)
  }

  predicate InRange(s: ListState, i: int) { i == -1 || 0 <= i < |s.nodes| }

  function LinkNext(nodes: seq<Node>, i: int, next: int): (r: seq<Node>)
    requires i == -1 || 0 <= i < |nodes|
    ensures |r| == |nodes|
  {
    if i == -1 then nodes else nodes[i := WithNext(nodes[i], next)]
  }

  function LinkPrev(nodes: seq<Node>, i: int, prev: int): (r: seq<Node>)
    requires i == -1 || 0 <= i < |nodes|
    ensures |r| == |nodes|
  {
    if i == -1 then nodes else nodes[i := WithPrev(nodes[i], prev)]
  }

  /** `Remove`, followed by `DetachPrev` if asked. */
  function Remove(s: ListState, i: nat): ListState
    requires i < |s.nodes| && InRange(s, s.nodes[i].prev) && InRange(s, s.nodes[i].next)
    requires s.len > 0
  {
    var p, n := s.nodes[i].prev, s.nodes[i].next;
    var linked := LinkPrev(LinkNext(s.nodes, p, n), n, p);
    ListState(linked[i := AsRemoved(linked[i])],
              if p == -1 then n else s.head, if n == -1 then p else s.tail, s.len - 1, s.len != 1)
  }

  // ---------------------------------------------------------------- invariant

  predicate IsLive(nodes: seq<Node>, k: int) { 0 <= k < |nodes| && !nodes[k].removed }

  /** Nothing alive strictly between two places. */
  ghost predicate Gap(nodes: seq<Node>, lo: int, hi: int) {
    forall k | lo < k < hi :: !IsLive(nodes, k)
  }

  /** A live element's `next` is the next live element. A removed element's `next` is at some later element
      with nothing alive in between, unless there was none when it was removed. A wait channel is closed
      exactly when there is a successor or the element has been removed. */
  ghost predicate ForwardOk(nodes: seq<Node>, i: int)
    requires 0 <= i < |nodes|
  {
    var e := nodes[i];
    && (e.nextClosed <==> e.next != -1 || e.removed)
    && (e.next != -1 ==> i < e.next < |nodes| && Gap(nodes, i, e.next))
    && (!e.removed ==> if e.next == -1 then Gap(nodes, i, |nodes|) else IsLive(nodes, e.next))
  }

  ghost predicate BackwardOk(nodes: seq<Node>, i: int)
    requires 0 <= i < |nodes|
  {
    var e := nodes[i];
    && (e.prevClosed <==> e.prev != -1 || e.removed)
    && (e.prev != -1 ==> 0 <= e.prev < i)
    && (!e.removed ==> Gap(nodes, e.prev, i) && (e.prev == -1 || IsLive(nodes, e.prev)))
  }

  function LiveBelow(nodes: seq<Node>, n: nat): nat
    requires n <= |nodes|
  {
    if n == 0 then 0 else LiveBelow(nodes, n - 1) + (if nodes[n - 1].removed then 0 else 1)
  }

  ghost predicate EndsOk(s: ListState) {
    && (if s.head == -1 then Gap(s.nodes, -1, |s.nodes|) else IsLive(s.nodes, s.head) && Gap(s.nodes, -1, s.head))
    && (if s.tail == -1 then Gap(s.nodes, -1, |s.nodes|) else IsLive(s.nodes, s.tail) && Gap(s.nodes, s.tail, |s.nodes|))
    && s.len == LiveBelow(s.nodes, |s.nodes|)
    && (s.waitClosed <==> s.len > 0)
  }

  ghost predicate Valid(s: ListState) {
    && (forall i | 0 <= i < |s.nodes| :: ForwardOk(s.nodes, i))
    && (forall i | 0 <= i < |s.nodes| :: BackwardOk(s.nodes, i))
    && EndsOk(s)
  }

  lemma {:induction false} LiveBelowPrefix(nodes: seq<Node>, more: seq<Node>, n: nat)
    requires n <= |nodes| && n <= |more| && forall k | 0 <= k < n :: nodes[k].removed == more[k].removed
    ensures LiveBelow(nodes, n) == LiveBelow(more, n)
  {
    if n > 0 { LiveBelowPrefix(nodes, more, n - 1); }
  }

  lemma {:induction false} LiveBelowRemove(nodes: seq<Node>, more: seq<Node>, i: nat, n: nat)
    requires i < n <= |nodes| == |more| && !nodes[i].removed && more[i].removed
    requires forall k | 0 <= k < n && k != i :: nodes[k].removed == more[k].removed
    ensures LiveBelow(more, n) == LiveBelow(nodes, n) - 1
  {
    if n - 1 == i { LiveBelowPrefix(nodes, more, n - 1); } else { LiveBelowRemove(nodes, more, i, n - 1); }
  }

  /** A list is empty exactly when it has no ends. */
  lemma {:induction false} LiveBelowZero(nodes: seq<Node>, n: nat)
    requires n <= |nodes|
    ensures LiveBelow(nodes, n) == 0 <==> Gap(nodes, -1, n)
  {
    if n > 0 {
      LiveBelowZero(nodes, n - 1);
      assert Gap(nodes, -1, n) <==> Gap(nodes, -1, n - 1) && !IsLive(nodes, n - 1);
    }
  }

  lemma EmptyIff(s: ListState)
    requires EndsOk(s)
    ensures s.len == 0 <==> s.tail == -1
    ensures s.len == 0 <==> s.head == -1
  {
    LiveBelowZero(s.nodes, |s.nodes|);
  }

  // ---------------------------------------------------------------- PushBack

  lemma PushNode(s: ListState, v: Bytes, i: nat)
    requires Valid(s) && i < |Push(s, v).nodes|
    ensures ForwardOk(Push(s, v).nodes, i) && BackwardOk(Push(s, v).nodes, i)
  {
    var t := Push(s, v).nodes;
    hide LiveBelow;
    forall k | k < |s.nodes| ensures IsLive(t, k) <==> IsLive(s.nodes, k) {
    }
    if i < |s.nodes| {
      assert ForwardOk(s.nodes, i) && BackwardOk(s.nodes, i);
      LastIsTail(s, i);
    }
  }

  /** Only the tail is alive without a successor. */
  lemma LastIsTail(s: ListState, i: nat)
    requires Valid(s) && i < |s.nodes|
    ensures IsLive(s.nodes, i) ==> s.tail != -1 && (s.nodes[i].next == -1 <==> i == s.tail)
  {
    if IsLive(s.nodes, i) {
      assert ForwardOk(s.nodes, i);
    }
  }

  lemma PushKeeps(s: ListState, v: Bytes)
    requires Valid(s)
    ensures s.tail == -1 || 0 <= s.tail < |s.nodes|
    ensures Valid(Push(s, v))
    ensures s.waitClosed <==> s.len > 0
    ensures s.tail != -1 ==> s.nodes[s.tail].next == -1 && !s.nodes[s.tail].nextClosed
  {
    hide ForwardOk, BackwardOk;
    var t := Push(s, v);
    forall i | 0 <= i < |t.nodes| ensures ForwardOk(t.nodes, i) && BackwardOk(t.nodes, i) { PushNode(s, v, i); }
    LiveBelowPrefix(s.nodes, t.nodes, |s.nodes|);
    EmptyIff(s);
    PushEnds(s, v);
    if s.tail != -1 { TailOpen(s); }
  }

  lemma TailOpen(s: ListState)
    requires Valid(s) && s.tail != -1
    ensures s.nodes[s.tail].next == -1 && !s.nodes[s.tail].nextClosed
  {
    assert ForwardOk(s.nodes, s.tail);
  }

  lemma PushEnds(s: ListState, v: Bytes)
    requires EndsOk(s) && LiveBelow(Push(s, v).nodes, |s.nodes|) == s.len
    ensures EndsOk(Push(s, v))
  {
    var t := Push(s, v);
    assert LiveBelow(t.nodes, |t.nodes|) == s.len + 1;
    hide LiveBelow;
    EmptyIff(s);
    forall k | k < |s.nodes| ensures IsLive(t.nodes, k) <==> IsLive(s.nodes, k) {
    }
  }

  // ---------------------------------------------------------------- Remove

  /** The neighbours of a live element point back at it, and only they do among the living. */
  lemma Neighbours(s: ListState, i: nat)
    requires Valid(s) && IsLive(s.nodes, i)
    ensures var (p, n) := (s.nodes[i].prev, s.nodes[i].next);
            && -1 <= p < i && (p != -1 ==> IsLive(s.nodes, p) && s.nodes[p].next == i)
            && (n == -1 || i < n < |s.nodes|) && (n != -1 ==> IsLive(s.nodes, n) && s.nodes[n].prev == i)
            && (p == -1 <==> s.head == i) && (n == -1 <==> s.tail == i)
            && Gap(s.nodes, p, i) && Gap(s.nodes, i, if n == -1 then |s.nodes| else n)
            && s.len > 0
  {
    hide LiveBelow;
    assert ForwardOk(s.nodes, i) && BackwardOk(s.nodes, i);
    var p, n := s.nodes[i].prev, s.nodes[i].next;
    if p != -1 { assert ForwardOk(s.nodes, p); }
    if n != -1 { assert BackwardOk(s.nodes, n); }
    LastIsTail(s, i);
    EmptyIff(s);
  }

  lemma OthersPointElsewhere(s: ListState, i: nat, k: nat)
    requires Valid(s) && IsLive(s.nodes, i) && IsLive(s.nodes, k) && k != i
    ensures s.nodes[k].next == i <==> k == s.nodes[i].prev
    ensures s.nodes[k].prev == i <==> k == s.nodes[i].next
  {
    Neighbours(s, i);
    Neighbours(s, k);
  }

  lemma RemoveForward(s: ListState, i: nat, k: nat)
    requires Valid(s) && IsLive(s.nodes, i) && k < |s.nodes|
    requires InRange(s, s.nodes[i].prev) && InRange(s, s.nodes[i].next) && s.len > 0
    ensures ForwardOk(Remove(s, i).nodes, k)
  {
    hide LiveBelow, BackwardOk;
    Neighbours(s, i);
    var t := Remove(s, i).nodes;
    forall j ensures IsLive(t, j) <==> IsLive(s.nodes, j) && j != i {
    }
    assert ForwardOk(s.nodes, k) && ForwardOk(s.nodes, i);
    if IsLive(s.nodes, k) && k != i { OthersPointElsewhere(s, i, k); }
  }

  lemma RemoveBackward(s: ListState, i: nat, k: nat)
    requires Valid(s) && IsLive(s.nodes, i) && k < |s.nodes|
    requires InRange(s, s.nodes[i].prev) && InRange(s, s.nodes[i].next) && s.len > 0
    ensures BackwardOk(Remove(s, i).nodes, k)
  {
    hide LiveBelow, ForwardOk;
    Neighbours(s, i);
    var t := Remove(s, i).nodes;
    forall j ensures IsLive(t, j) <==> IsLive(s.nodes, j) && j != i {
    }
    assert BackwardOk(s.nodes, k) && BackwardOk(s.nodes, i);
    if IsLive(s.nodes, k) && k != i { OthersPointElsewhere(s, i, k); }
  }

  lemma RemoveEnds(s: ListState, i: nat)
    requires Valid(s) && IsLive(s.nodes, i)
    requires InRange(s, s.nodes[i].prev) && InRange(s, s.nodes[i].next) && s.len > 0
    ensures EndsOk(Remove(s, i))
  {
    hide ForwardOk, BackwardOk;
    Neighbours(s, i);
    var t := Remove(s, i);
    LiveBelowRemove(s.nodes, t.nodes, i, |s.nodes|);
    hide LiveBelow;
    forall j ensures IsLive(t.nodes, j) <==> IsLive(s.nodes, j) && j != i {
    }
  }

  /** `Remove` keeps the list in order, reaches none of its panics and closes no channel twice. */
  lemma RemoveKeeps(s: ListState, i: nat)
    requires Valid(s) && IsLive(s.nodes, i)
    ensures InRange(s, s.nodes[i].prev) && InRange(s, s.nodes[i].next) && s.len > 0
    ensures Valid(Remove(s, i))
    ensures forall k :: IsLive(Remove(s, i).nodes, k) <==> IsLive(s.nodes, k) && k != i
  {
    Neighbours(s, i);
    var t := Remove(s, i).nodes;
    forall k | 0 <= k < |t| ensures ForwardOk(t, k) && BackwardOk(t, k) {
      RemoveForward(s, i, k);
      RemoveBackward(s, i, k);
    }
    RemoveEnds(s, i);
    hide ForwardOk, BackwardOk, EndsOk;
    forall k ensures IsLive(t, k) <==> IsLive(s.nodes, k) && k != i {
    }
  }

  /** `DetachPrev` on a removed element touches nothing that the order depends on. */
  lemma DetachKeeps(s: ListState, i: nat)
    requires Valid(s) && i < |s.nodes| && s.nodes[i].removed
    ensures Valid(s.(nodes := s.nodes[i := s.nodes[i].(prev := -1)]))
  {
    var t := s.nodes[i := s.nodes[i].(prev := -1)];
    forall j ensures IsLive(t, j) <==> IsLive(s.nodes, j) {
    }
    forall k | 0 <= k < |t| ensures ForwardOk(t, k) && BackwardOk(t, k) {
      assert ForwardOk(s.nodes, k) && BackwardOk(s.nodes, k);
    }
    LiveBelowPrefix(s.nodes, t, |t|);
  }

  /** Neither does `DetachNext`: a reader that stands there merely ends. */
  lemma DetachNextKeeps(s: ListState, i: nat)
    requires Valid(s) && i < |s.nodes| && s.nodes[i].removed
    ensures Valid(s.(nodes := s.nodes[i := s.nodes[i].(next := -1)]))
  {
    var t := s.nodes[i := s.nodes[i].(next := -1)];
    forall j ensures IsLive(t, j) <==> IsLive(s.nodes, j) {
    }
    forall k | 0 <= k < |t| ensures ForwardOk(t, k) && BackwardOk(t, k) {
      assert ForwardOk(s.nodes, k) && BackwardOk(s.nodes, k);
    }
    LiveBelowPrefix(s.nodes, t, |t|);
  }

  // ---------------------------------------------------------------- readers

  /** The elements a reader meets by following `next`. */
  function Trail(nodes: seq<Node>, i: int): seq<int>
    decreases |nodes| - i
  {
    if 0 <= i < |nodes| && i < nodes[i].next < |nodes| then [nodes[i].next] + Trail(nodes, nodes[i].next) else []
  }

  /** From any element, live or removed, a reader moves forward only, meets every element alive that was
      inserted later, in order, and stops either at the last live element or at a removed one. */
  lemma {:induction false} ReadersSeeTheRest(s: ListState, i: nat)
    requires Valid(s) && i < |s.nodes|
    ensures var trail := Trail(s.nodes, i);
            var last := if trail == [] then i else trail[|trail| - 1];
            && (forall a, b | 0 <= a < b < |trail| :: trail[a] < trail[b])
            && (forall a | 0 <= a < |trail| :: i < trail[a] < |s.nodes|)
            && (forall k | i < k <= last && IsLive(s.nodes, k) :: k in trail)
            && 0 <= last < |s.nodes| && s.nodes[last].next == -1
            && (s.nodes[last].removed || forall k | i < k && IsLive(s.nodes, k) :: k in trail)
    decreases |s.nodes| - i
  {
    hide LiveBelow, BackwardOk, EndsOk;
    assert ForwardOk(s.nodes, i);
    if s.nodes[i].next != -1 { ReadersSeeTheRest(s, s.nodes[i].next); }
  }

  // ---------------------------------------------------------------- readers between writers

  /** A list with one reader: the element it stands at, and those it has met since it started. */
  datatype Reading = Reading(list: ListState, cur: int, seen: seq<int>)

  /** One operation of a writer. */
  ghost predicate Written(s: ListState, t: ListState) {
    && Valid(s) && InRange(s, s.tail)
    && (|| (exists v :: t == Push(s, v))
        || (exists i: nat | IsLive(s.nodes, i) :: RemovedFrom(s, t, i))
        || (exists i: nat | i < |s.nodes| && s.nodes[i].removed :: Detached(s, t, i)))
  }

  ghost predicate Detached(s: ListState, t: ListState, i: nat)
    requires i < |s.nodes|
  {
    || t == s.(nodes := s.nodes[i := s.nodes[i].(prev := -1)])
    || t == s.(nodes := s.nodes[i := s.nodes[i].(next := -1)])
  }

  ghost predicate RemovedFrom(s: ListState, t: ListState, i: nat)
    requires IsLive(s.nodes, i)
  {
    InRange(s, s.nodes[i].prev) && InRange(s, s.nodes[i].next) && s.len > 0 && t == Remove(s, i)
  }

  /** The reader takes one step, or somebody else changes the list. */
  ghost predicate Proceeds(r: Reading, r': Reading) {
    || (Written(r.list, r'.list) && r'.cur == r.cur && r'.seen == r.seen)
    || (&& r'.list == r.list && 0 <= r.cur < |r.list.nodes| && r.list.nodes[r.cur].next != -1
        && r'.cur == r.list.nodes[r.cur].next && r'.seen == r.seen + [r'.cur])
  }

  /** What a reader that started at `start` can rely on: it has moved forward only, and has met every element up to
      where it stands that is alive now. */
  ghost predicate ReadOk(r: Reading, start: int) {
    && Valid(r.list) && 0 <= start <= r.cur < |r.list.nodes|
    && (forall a, b | 0 <= a < b < |r.seen| :: r.seen[a] < r.seen[b])
    && (forall a | 0 <= a < |r.seen| :: start < r.seen[a] <= r.cur)
    && (forall k | start < k <= r.cur && IsLive(r.list.nodes, k) :: k in r.seen)
  }

  /** Nothing comes back to life, and new elements come last. */
  lemma WrittenKeeps(s: ListState, t: ListState)
    requires Written(s, t)
    ensures Valid(t) && |s.nodes| <= |t.nodes|
    ensures forall k | 0 <= k < |s.nodes| && IsLive(t.nodes, k) :: IsLive(s.nodes, k)
  {
    hide Valid;
    if exists v :: t == Push(s, v) {
      var v :| t == Push(s, v);
      PushKeeps(s, v);
    } else if exists i: nat | IsLive(s.nodes, i) :: RemovedFrom(s, t, i) {
      var i: nat :| IsLive(s.nodes, i) && RemovedFrom(s, t, i);
      RemoveKeeps(s, i);
    } else {
      var i: nat :| i < |s.nodes| && s.nodes[i].removed && Detached(s, t, i);
      DetachKeeps(s, i);
      DetachNextKeeps(s, i);
    }
  }

  lemma ReaderStep(r: Reading, r': Reading, start: int)
    requires ReadOk(r, start) && Proceeds(r, r')
    ensures ReadOk(r', start) && r.cur <= r'.cur
  {
    hide LiveBelow, BackwardOk, EndsOk;
    if Written(r.list, r'.list) && r'.cur == r.cur && r'.seen == r.seen {
      WrittenKeeps(r.list, r'.list);
    } else {
      assert ForwardOk(r.list.nodes, r.cur);
    }
  }

  /** Between any operations of any writers, a reader only moves forward, misses no element that is still alive, and
      if it stands at a live element without a successor it has met every live element inserted after its
      start. */
  lemma {:induction false} ReaderBetweenWriters(trace: seq<Reading>, start: int, n: nat)
    requires n < |trace| && trace[0].cur == start && trace[0].seen == [] && Valid(trace[0].list)
    requires 0 <= start < |trace[0].list.nodes| && forall i | 0 <= i < |trace| - 1 :: Proceeds(trace[i], trace[i + 1])
    ensures ReadOk(trace[n], start)
    ensures var (nodes, cur) := (trace[n].list.nodes, trace[n].cur);
            !nodes[cur].removed && nodes[cur].next == -1 ==> forall k | start < k && IsLive(nodes, k) :: k in trace[n].seen
  {
    hide Valid, Proceeds;
    if n > 0 {
      ReaderBetweenWriters(trace, start, n - 1);
      assert Proceeds(trace[n - 1], trace[n - 1 + 1]);
      ReaderStep(trace[n - 1], trace[n], start);
    }
    if !trace[n].list.nodes[trace[n].cur].removed && trace[n].list.nodes[trace[n].cur].next == -1 {
      LastHasRest(trace[n], start);
    }
  }

  lemma LastHasRest(r: Reading, start: int)
    requires ReadOk(r, start) && !r.list.nodes[r.cur].removed && r.list.nodes[r.cur].next == -1
    ensures forall k | start < k && IsLive(r.list.nodes, k) :: k in r.seen
  {
    hide LiveBelow, BackwardOk, EndsOk;
    assert ForwardOk(r.list.nodes, r.cur);
  }
}
