/** `libs/clist/clist.go` as it runs. The elements live in a table in order of insertion, and a reference to an
    element is its place in the table, so that a removed element can still be followed. */
module CListObjects {
  import opened Types
  import opened CLists

  class CList {
    var nodes: seq<Node>
    var head: int
    var tail: int
    var len: nat
    var waitClosed: bool

    function View(): ListState
      reads this
    {
      ListState(nodes, head, tail, len, waitClosed)
    }

    constructor ()
      ensures View() == EMPTY && Valid(View())
    {
      nodes, head, tail, len, waitClosed := [], -1, -1, 0, false;
    }

    /** `SetNext`; closing a closed channel would panic. */
    method SetNext(i: nat, newNext: int)
      requires i < |nodes| && (nodes[i].next == -1 && newNext != -1 ==> !nodes[i].nextClosed)
      modifies this`nodes
      ensures nodes == old(nodes)[i := WithNext(old(nodes)[i], newNext)]
    {
      var oldNext := nodes[i].next;
      var closed := nodes[i].nextClosed;
      if oldNext != -1 && newNext == -1 { closed := false; }
      if oldNext == -1 && newNext != -1 { closed := true; }
      nodes := nodes[i := nodes[i].(next := newNext, nextClosed := closed)];
    }

    /** `SetPrev`. */
    method SetPrev(i: nat, newPrev: int)
      requires i < |nodes| && (nodes[i].prev == -1 && newPrev != -1 ==> !nodes[i].prevClosed)
      modifies this`nodes
      ensures nodes == old(nodes)[i := WithPrev(old(nodes)[i], newPrev)]
    {
      var oldPrev := nodes[i].prev;
      var closed := nodes[i].prevClosed;
      if oldPrev != -1 && newPrev == -1 { closed := false; }
      if oldPrev == -1 && newPrev != -1 { closed := true; }
      nodes := nodes[i := nodes[i].(prev := newPrev, prevClosed := closed)];
    }

    /** `SetRemoved`: whoever waits for a neighbour is woken. */
    method SetRemoved(i: nat)
      requires i < |nodes|
      requires (nodes[i].prev == -1 ==> !nodes[i].prevClosed) && (nodes[i].next == -1 ==> !nodes[i].nextClosed)
      modifies this`nodes
      ensures nodes == old(nodes)[i := AsRemoved(old(nodes)[i])]
    {
      var e := nodes[i].(removed := true);
      if e.prev == -1 { e := e.(prevClosed := true); }
      if e.next == -1 { e := e.(nextClosed := true); }
      nodes := nodes[i := e];
    }

    /** `PushBack`; it panics on a list of maximum length. */
    method PushBack(v: Bytes) returns (i: nat)
      requires Valid(View()) && len < MAX_LENGTH
      modifies this
      ensures Valid(View()) && View() == Push(old(View()), v) && i == |old(nodes)|
    {
      hide Valid;
      PushKeeps(View(), v);
      i := |nodes|;
      nodes := nodes + [Node(v, -1, false, -1, false, false)];
      if len == 0 {
        assert !waitClosed;
        waitClosed := true;
      }
      len := len + 1;
      if tail == -1 {
        head := i;
        tail := i;
      } else {
        SetPrev(i, tail);
        SetNext(tail, i);
        tail := i;
      }
      assert nodes == Push(old(View()), v).nodes;
    }

    /** `Remove`, for an element that is in the list. Its panics are not reached, and no channel is closed
        twice. */
    method RemoveElement(i: nat)
      requires Valid(View()) && IsLive(nodes, i)
      modifies this
      ensures InRange(old(View()), old(nodes)[i].prev) && InRange(old(View()), old(nodes)[i].next) && old(len) > 0
      ensures Valid(View()) && View() == Remove(old(View()), i)
      ensures forall k :: IsLive(nodes, k) <==> IsLive(old(nodes), k) && k != i
    {
      hide Valid, ForwardOk, BackwardOk, EndsOk, Gap;
      RemoveKeeps(View(), i);
      Neighbours(View(), i);
      OpenEnds(View(), i);
      var prev, next := nodes[i].prev, nodes[i].next;
      if head == -1 || tail == -1 { assert false; }
      if prev == -1 && head != i { assert false; }
      if next == -1 && tail != i { assert false; }
      if len == 1 { waitClosed := false; }
      len := len - 1;
      if prev == -1 { head := next; } else { SetNext(prev, next); }
      if next == -1 { tail := prev; } else { SetPrev(next, prev); }
      SetRemoved(i);
    }

    /** `DetachPrev`. */
    method DetachPrev(i: nat)
      requires Valid(View()) && i < |nodes| && nodes[i].removed
      modifies this`nodes
      ensures Valid(View()) && nodes == old(nodes)[i := old(nodes)[i].(prev := -1)]
    {
      DetachKeeps(View(), i);
      nodes := nodes[i := nodes[i].(prev := -1)];
    }

    /** `DetachNext`. */
    method DetachNext(i: nat)
      requires Valid(View()) && i < |nodes| && nodes[i].removed
      modifies this`nodes
      ensures Valid(View()) && nodes == old(nodes)[i := old(nodes)[i].(next := -1)]
    {
      DetachNextKeeps(View(), i);
      nodes := nodes[i := nodes[i].(next := -1)];
    }

    /** A reader that starts at any element and follows `Next` until it is nil. */
    method Follow(start: nat) returns (seen: seq<int>)
      requires Valid(View()) && start < |nodes|
      ensures seen == Trail(nodes, start)
    {
      hide EndsOk, BackwardOk, Gap;
      seen := [];
      var e: int := start;
      while nodes[e].next != -1
        invariant 0 <= e < |nodes| && seen + Trail(nodes, e) == Trail(nodes, start)
        decreases |nodes| - e
      {
        assert ForwardOk(nodes, e);
        e := nodes[e].next;
        seen := seen + [e];
      }
    }
  }

  lemma OpenEnds(s: ListState, i: nat)
    requires Valid(s) && IsLive(s.nodes, i)
    ensures (s.nodes[i].prev == -1 ==> !s.nodes[i].prevClosed) && (s.nodes[i].next == -1 ==> !s.nodes[i].nextClosed)
    ensures s.head != -1 && s.tail != -1 && s.waitClosed
  {
    assert ForwardOk(s.nodes, i) && BackwardOk(s.nodes, i);
    Neighbours(s, i);
    EmptyIff(s);
  }
}
