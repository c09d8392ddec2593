/** The condition variable of txcond.c: a doubly linked list of waiter nodes, changed in place while
    the queue lock is held, and the walk with which a broadcast wakes the nodes it took. */
module TxCondQueue {
  import opened Common
  import Lcg
  import Q = TxQueue

  datatype Status = WAITING | TIMEOUT | AWOKEN

  class TxNode {
    var next: TxNode?
    var prev: TxNode?
    var sem: nat
    var status: Status

    constructor ()
      ensures next == null && prev == null && sem == 0 && status == WAITING
    {
      next, prev, sem, status := null, null, 0, WAITING;
    }

    method Post()
      modifies this`sem
      ensures sem == old(sem) + 1
    {
      sem := sem + 1;
    }

    /** The compare-and-swap with which waiter and waker race: the second to come has to free the node. */
    method Claim(wanted: Status) returns (first: bool)
      modifies this`status
      ensures first <==> old(status) == WAITING
      ensures status == if first then wanted else old(status)
    {
      first := status == WAITING;
      if first {
        status := wanted;
      }
    }
  }

  class TxCond {
    var head: TxNode?
    var tail: TxNode?
    var cnt: nat
    ghost var items: seq<TxNode>

    ghost predicate Valid()
      reads this, items
    {
      && Distinct(items)
      && head == First(items) && tail == Last(items)
      && (forall i {:trigger After(items, i)} :: 0 <= i < |items| ==> items[i].next == After(items, i))
      && (forall i {:trigger Before(items, i)} :: 0 <= i < |items| ==> items[i].prev == Before(items, i))
    }

    constructor ()
      ensures Valid() && items == [] && cnt == 0
    {
      head, tail, cnt := null, null, 0;
      items := [];
    }

    /** The locked part of a wait. */
    method Enqueue(node: TxNode)
      requires Valid() && node.next == null && node.prev == null && node !in items
      modifies this`head, this`tail, this`items, node`prev, items`next
      ensures Valid() && items == old(items) + [node] && cnt == old(cnt)
    {
      ghost var was := items;
      if tail != null {
        node.prev := tail;
        tail.next := node;
        tail := node;
      } else {
        head := node;
        tail := node;
      }
      items := items + [node];
      forall i | 0 <= i < |items|
        ensures items[i].next == After(items, i) && items[i].prev == Before(items, i)
      {
        if i < |was| {
          assert i + 1 < |was| ==> After(was, i) == After(items, i);
          assert Before(was, i) == Before(items, i);
        }
      }
    }

    method PopHead() returns (node: TxNode?)
      requires Valid()
      modifies this`head, this`tail, this`items, items`prev
      ensures Valid() && items == Q.Popped(old(items), true) && node == First(old(items))
      ensures if old(items) == [] then node == null && items == [] else node != null && [node] + items == old(items)
      ensures cnt == old(cnt)
    {
      ghost var was := items;
      node := head;
      if head == null {
        return;
      }
      assert node.next == After(was, 0);
      head := head.next;
      if head == null {
        tail := null;
      } else {
        head.prev := null;
      }
      items := items[1..];
      forall j | 0 <= j < |items|
        ensures items[j].next == After(items, j) && items[j].prev == Before(items, j)
      {
        assert After(was, j + 1) == After(items, j);
        assert j > 0 ==> Before(was, j + 1) == Before(items, j);
      }
    }

    method PopTail() returns (node: TxNode?)
      requires Valid()
      modifies this`head, this`tail, this`items, items`next
      ensures Valid() && items == Q.Popped(old(items), false) && node == Last(old(items))
      ensures if old(items) == [] then node == null && items == [] else node != null && items + [node] == old(items)
      ensures cnt == old(cnt)
    {
      ghost var was := items;
      node := tail;
      if tail == null {
        return;
      }
      assert node.prev == Before(was, |was| - 1);
      tail := node.prev;
      if tail == null {
        head := null;
      } else {
        tail.next := null;
      }
      items := items[..|items| - 1];
      forall j | 0 <= j < |items|
        ensures items[j].next == After(items, j) && items[j].prev == Before(items, j)
      {
        assert j + 1 < |items| ==> After(was, j) == After(items, j);
        assert Before(was, j) == Before(items, j);
      }
    }

    /** The locked part of a signal: the generator says from which end a waiter is taken. */
    method Dequeue() returns (node: TxNode?)
      requires Valid()
      modifies this, items`next, items`prev
      ensures Valid()
      ensures cnt == Q.Draw(old(cnt))
      ensures cnt == ((if old(cnt) == 0 then 5 else old(cnt)) * 1103515245 + 12345) % TWO32
      ensures items == Q.Popped(old(items), Q.PicksHead(cnt))
      ensures node == if Q.PicksHead(cnt) then First(old(items)) else Last(old(items))
      ensures old(items) != [] ==> node != null
      ensures old(items) != [] ==> old(items) == if Q.PicksHead(cnt) then [node] + items else items + [node]
    {
      if cnt == 0 {
        cnt := 5;
      }
      cnt := (cnt * Lcg.A + Lcg.C) % TWO32;
      var i := Q.Signed(cnt);
      if Q.Rem(i, 10) == 0 {
        node := PopHead();
      } else {
        node := PopTail();
      }
    }

    /** The locked part of a broadcast.  The nodes taken stay linked to each other. */
    method TakeAll() returns (first: TxNode?, ghost taken: seq<TxNode>)
      requires Valid()
      modifies this`head, this`tail, this`items
      ensures Valid() && items == [] && cnt == old(cnt)
      ensures taken == old(items) && first == First(taken)
      ensures forall i {:trigger After(taken, i)} :: 0 <= i < |taken| ==> taken[i].next == After(taken, i)
    {
      taken := items;
      first := head;
      if head != null {
        head := null;
        tail := null;
      }
      items := [];
    }
  }

  /** The rest of a broadcast, for as long as nobody interferes: every node taken is posted once, and
      then either left to its waiter or, if the waiter has already gone, freed. */
  method WakeAll(first: TxNode?, ghost taken: seq<TxNode>) returns (ghost freed: set<TxNode>)
    requires Distinct(taken) && first == First(taken)
    requires forall i {:trigger After(taken, i)} :: 0 <= i < |taken| ==> taken[i].next == After(taken, i)
    modifies taken`sem, taken`status
    ensures forall n :: n in taken ==> n.sem == old(n.sem) + 1
    ensures forall n :: n in taken ==> n.status == if old(n.status) == WAITING then AWOKEN else old(n.status)
    ensures forall n :: n in freed <==> n in taken && old(n.status) != WAITING
  {
    freed := {};
    var node := first;
    ghost var k := 0;
    while node != null
      invariant k <= |taken| && node == if k < |taken| then taken[k] else null
      invariant forall i :: 0 <= i < k ==> taken[i].sem == old(taken[i].sem) + 1
      invariant forall i :: 0 <= i < k ==>
        taken[i].status == if old(taken[i].status) == WAITING then AWOKEN else old(taken[i].status)
      invariant forall i :: k <= i < |taken| ==>
        taken[i].sem == old(taken[i].sem) && taken[i].status == old(taken[i].status)
      invariant forall n :: n in freed <==> n in taken[..k] && old(n.status) != WAITING
      decreases |taken| - k
    {
      node.Post();
      var prevNode := node;
      assert node.next == After(taken, k);
      node := node.next;
      var won := prevNode.Claim(AWOKEN);
      if !won {
        freed := freed + {prevNode};
      }
      k := k + 1;
    }
    assert taken[..k] == taken;
  }
}
