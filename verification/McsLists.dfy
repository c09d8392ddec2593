/** A thread's queue nodes in txlock.c: a singly linked free list and a doubly linked list of the
    nodes in use, both kept with the pointers inside the nodes. */
module McsLists {
  import opened Common

  const NUM_NODES: nat := 8

  // ---------- the two lists as values ----------

  /** `locks[i]` is the lock for which `used[i]` is enqueued, and `nodes` all nodes ever allocated. */
  datatype Lists<T> = Lists(free: seq<T>, used: seq<T>, locks: seq<nat>, nodes: set<T>)

  /** What a thread does with its lists.  `more` are the nodes it has to allocate first, if any. */
  datatype ListOp<T> = Acquire(lk: nat, more: seq<T>) | TryFails(lk: nat, more: seq<T>) | Release(lk: nat)

  /** Every node ever allocated is on exactly one of the lists, and no lock has two nodes. */
  ghost predicate Good<T>(l: Lists<T>) {
    && |l.locks| == |l.used|
    && Distinct(l.free) && Distinct(l.used) && Distinct(l.locks)
    && (forall i, j :: 0 <= i < |l.free| && 0 <= j < |l.used| ==> l.free[i] != l.used[j])
    && Elements(l.free) + Elements(l.used) == l.nodes
  }

  /** Nodes are allocated when the free list is empty, and only then. */
  ghost predicate Supplied<T>(l: Lists<T>, more: seq<T>) {
    if l.free == [] then |more| == NUM_NODES && Distinct(more) && forall i :: 0 <= i < |more| ==> more[i] !in l.nodes
    else more == []
  }

  /** Acquisitions are not recursive, and only a held lock is released. */
  ghost predicate Allowed<T>(l: Lists<T>, op: ListOp<T>) {
    match op
    case Acquire(lk, more) => lk !in l.locks && Supplied(l, more)
    case TryFails(_, more) => Supplied(l, more)
    case Release(lk) => lk in l.locks && |l.locks| == |l.used|
  }

  ghost function Refilled<T>(l: Lists<T>, more: seq<T>): Lists<T> {
    l.(free := l.free + more, nodes := l.nodes + Elements(more))
  }

  ghost function Taken<T>(l: Lists<T>, lk: nat): Lists<T>
    requires l.free != []
  {
    l.(free := l.free[1..], used := [l.free[0]] + l.used, locks := [lk] + l.locks)
  }

  ghost function GivenBack<T>(l: Lists<T>, k: nat): Lists<T>
    requires k < |l.used| == |l.locks|
  {
    l.(free := [l.used[k]] + l.free, used := Dropped(l.used, k), locks := Dropped(l.locks, k))
  }

  /** The place of the first node for the lock. */
  ghost function Find(locks: seq<nat>, lk: nat): (k: nat)
    requires lk in locks
    ensures k < |locks| && locks[k] == lk && forall i :: 0 <= i < k ==> locks[i] != lk
  {
    if locks[0] == lk then 0 else Find(locks[1..], lk) + 1
  }

  ghost function Apply<T>(l: Lists<T>, op: ListOp<T>): Lists<T>
    requires Allowed(l, op)
  {
    match op
    case Acquire(lk, more) => Taken(Refilled(l, more), lk)
    case TryFails(_, more) => Refilled(l, more)
    case Release(lk) => GivenBack(l, Find(l.locks, lk))
  }

  lemma ElementsAdd<T>(a: seq<T>, b: seq<T>)
    ensures Elements(a + b) == Elements(a) + Elements(b)
  {
  }

  lemma DroppedGood<T>(s: seq<T>, k: nat)
    requires k < |s| && Distinct(s)
    ensures Distinct(Dropped(s, k)) && Elements(Dropped(s, k)) + {s[k]} == Elements(s) && s[k] !in Dropped(s, k)
  {
    forall x | x in Elements(s) && x != s[k]
      ensures x in Dropped(s, k)
    {
      var i :| 0 <= i < |s| && s[i] == x;
      assert Dropped(s, k)[if i < k then i else i - 1] == x;
    }
  }

  lemma RefilledGood<T>(l: Lists<T>, more: seq<T>)
    requires Good(l) && Supplied(l, more)
    ensures Good(Refilled(l, more)) && Refilled(l, more).free != []
  {
    ElementsAdd(l.free, more);
    assert l.free == [] ==> l.free + more == more;
    assert l.free != [] ==> l.free + more == l.free;
    assert forall j :: 0 <= j < |l.used| ==> l.used[j] in Elements(l.used);
  }

  lemma TakenGood<T>(l: Lists<T>, lk: nat)
    requires Good(l) && l.free != [] && lk !in l.locks
    ensures Good(Taken(l, lk))
  {
    var l' := Taken(l, lk);
    assert l.free == [l.free[0]] + l.free[1..];
    ElementsAdd([l.free[0]], l.free[1..]);
    ElementsAdd([l.free[0]], l.used);
    assert Elements([l.free[0]]) == {l.free[0]};
    assert forall j :: 0 < j < |l'.used| ==> l'.used[j] == l.used[j - 1];
    assert forall j :: 0 < j < |l'.locks| ==> l'.locks[j] == l.locks[j - 1];
  }

  lemma GivenBackGood<T>(l: Lists<T>, k: nat)
    requires Good(l) && k < |l.used|
    ensures Good(GivenBack(l, k))
  {
    var l' := GivenBack(l, k);
    DroppedGood(l.used, k);
    DroppedGood(l.locks, k);
    ElementsAdd([l.used[k]], l.free);
    assert Elements([l.used[k]]) == {l.used[k]};
    assert forall i :: 0 < i < |l'.free| ==> l'.free[i] == l.free[i - 1];
  }

  lemma GoodStep<T>(l: Lists<T>, op: ListOp<T>)
    requires Good(l) && Allowed(l, op)
    ensures Good(Apply(l, op))
  {
    match op
    case Acquire(lk, more) =>
      RefilledGood(l, more);
      TakenGood(Refilled(l, more), lk);
    case TryFails(_, more) => RefilledGood(l, more);
    case Release(lk) => GivenBackGood(l, Find(l.locks, lk));
  }

  /** The pair at one place. */
  ghost predicate PairAt<T>(l: Lists<T>, i: int, lk: nat, n: T) {
    0 <= i < |l.locks| && i < |l.used| && l.locks[i] == lk && l.used[i] == n
  }

  /** The node is enqueued for the lock. */
  ghost predicate HeldFor<T>(l: Lists<T>, lk: nat, n: T) {
    exists i :: PairAt(l, i, lk, n)
  }

  lemma KeptPair<T>(l: Lists<T>, k: nat, i: int, lk: nat, n: T)
    requires |l.locks| == |l.used| && k < |l.used|
    ensures PairAt(GivenBack(l, k), i, lk, n) <==> PairAt(l, if i < k then i else i + 1, lk, n)
  {
  }

  lemma DroppedHeld<T>(l: Lists<T>, k: nat, lk: nat, n: T)
    requires Good(l) && k < |l.used|
    ensures HeldFor(GivenBack(l, k), lk, n) <==> HeldFor(l, lk, n) && lk != l.locks[k]
  {
    if HeldFor(GivenBack(l, k), lk, n) {
      var i :| PairAt(GivenBack(l, k), i, lk, n);
      KeptPair(l, k, i, lk, n);
    }
    if HeldFor(l, lk, n) && lk != l.locks[k] {
      var j :| PairAt(l, j, lk, n);
      KeptPair(l, k, if j < k then j else j - 1, lk, n);
    }
  }

  /** A release puts the node that was enqueued for this lock on the free list; the lock has none then,
      and every other lock keeps exactly its own. */
  lemma ReleaseGivesBack<T>(l: Lists<T>, lk: nat)
    requires Good(l) && Allowed(l, Release(lk))
    ensures var l' := Apply(l, Release(lk));
            && lk !in l'.locks
            && l'.free != [] && HeldFor(l, lk, l'.free[0]) && l'.free[1..] == l.free
            && forall other, n :: HeldFor(l', other, n) <==> HeldFor(l, other, n) && other != lk
  {
    var k := Find(l.locks, lk);
    var l' := Apply(l, Release(lk));
    assert PairAt(l, k, lk, l'.free[0]);
    forall other, n
      ensures HeldFor(l', other, n) <==> HeldFor(l, other, n) && other != lk
    {
      DroppedHeld(l, k, other, n);
    }
    DroppedGood(l.locks, k);
  }

  /** The node that an acquisition takes: the first free one, or the first of those it allocates. */
  ghost function FirstFree<T>(l: Lists<T>, more: seq<T>): T
    requires Supplied(l, more)
  {
    if l.free == [] then more[0] else l.free[0]
  }

  /** After an acquisition that node is the lock's, and every other lock keeps exactly its own. */
  lemma AcquireTakes<T>(l: Lists<T>, lk: nat, more: seq<T>)
    requires Good(l) && Allowed(l, Acquire(lk, more))
    ensures var l' := Apply(l, Acquire(lk, more));
            forall other, n :: HeldFor(l', other, n) <==>
              if other == lk then n == FirstFree(l, more) else HeldFor(l, other, n)
  {
    var l' := Apply(l, Acquire(lk, more));
    assert PairAt(l', 0, lk, FirstFree(l, more));
    forall other, n
      ensures HeldFor(l', other, n) <==> if other == lk then n == FirstFree(l, more) else HeldFor(l, other, n)
    {
      if other != lk && HeldFor(l, other, n) {
        var i :| PairAt(l, i, other, n);
        assert PairAt(l', i + 1, other, n);
      }
      if HeldFor(l', other, n) {
        var i :| PairAt(l', i, other, n);
        assert i > 0 ==> PairAt(l, i - 1, other, n);
      }
    }
  }

  ghost function At<T>(ops: seq<ListOp<T>>, n: nat): Option<Lists<T>>
    requires n <= |ops|
  {
    if n == 0 then Some(Lists([], [], [], {}))
    else
      match At(ops, n - 1)
      case None => None
      case Some(l) => if Allowed(l, ops[n - 1]) then Some(Apply(l, ops[n - 1])) else None
  }

  /** All nodes that the first `n` operations allocated. */
  ghost function Allocated<T>(ops: seq<ListOp<T>>, n: nat): set<T>
    requires n <= |ops|
  {
    if n == 0 then {}
    else Allocated(ops, n - 1) + if ops[n - 1].Release? then {} else Elements(ops[n - 1].more)
  }

  /** An operation adds what it allocates. */
  lemma NodesStep<T>(l: Lists<T>, op: ListOp<T>)
    requires Allowed(l, op)
    ensures Apply(l, op).nodes == l.nodes + if op.Release? then {} else Elements(op.more)
  {
  }

  lemma {:induction false} GoodRun<T>(ops: seq<ListOp<T>>, n: nat, l: Lists<T>)
    requires n <= |ops| && At(ops, n) == Some(l)
    ensures Good(l) && l.nodes == Allocated(ops, n)
    decreases n
  {
    if n > 0 {
      var was := At(ops, n - 1).value;
      GoodRun(ops, n - 1, was);
      GoodStep(was, ops[n - 1]);
      NodesStep(was, ops[n - 1]);
    }
  }

  /** The node given to the lock by the last acquisition, unless it has been released since. */
  ghost function Given<T>(ops: seq<ListOp<T>>, n: nat, lk: nat): Option<T>
    requires n <= |ops| && At(ops, n).Some?
  {
    if n == 0 then None
    else
      var l := At(ops, n - 1).value;
      match ops[n - 1]
      case Acquire(lk', more) => if lk' == lk then Some(FirstFree(l, more)) else Given(ops, n - 1, lk)
      case Release(lk') => if lk' == lk then None else Given(ops, n - 1, lk)
      case TryFails(_, _) => Given(ops, n - 1, lk)
  }

  lemma HeldStep<T(!new)>(l: Lists<T>, op: ListOp<T>, lk: nat, n: T)
    requires Good(l) && Allowed(l, op)
    ensures HeldFor(Apply(l, op), lk, n) <==>
            match op
            case Acquire(lk', more) => if lk' == lk then n == FirstFree(l, more) else HeldFor(l, lk, n)
            case Release(lk') => HeldFor(l, lk, n) && lk' != lk
            case TryFails(_, _) => HeldFor(l, lk, n)
  {
    match op
    case Acquire(lk', more) => AcquireTakes(l, lk', more);
    case Release(lk') => ReleaseGivesBack(l, lk');
    case TryFails(_, _) => assert forall i :: PairAt(Apply(l, op), i, lk, n) <==> PairAt(l, i, lk, n);
  }

  /** Over any sequence of operations a lock's node is the one its last acquisition took, until its own
      release, whatever happens to other locks in between. */
  lemma {:induction false} HeldIsGiven<T(!new)>(ops: seq<ListOp<T>>, n: nat, l: Lists<T>, lk: nat, x: T)
    requires n <= |ops| && At(ops, n) == Some(l)
    ensures HeldFor(l, lk, x) <==> Given(ops, n, lk) == Some(x)
    decreases n
  {
    if n > 0 {
      var was := At(ops, n - 1).value;
      GoodRun(ops, n - 1, was);
      HeldIsGiven(ops, n - 1, was, lk, x);
      HeldStep(was, ops[n - 1], lk, x);
    }
  }

  lemma NodesCount<T>(l: Lists<T>)
    requires Good(l)
    ensures |l.free| + |l.used| == |l.nodes|
  {
    ElementsCard(l.free);
    ElementsCard(l.used);
    assert Elements(l.free) !! Elements(l.used);
  }

  /** Over any sequence of acquisitions, failed trylocks and releases in any order, the two lists hold
      every node allocated, each once, and the search in unlock ends at the only node for its lock. */
  lemma ListsAccountForAll<T>(ops: seq<ListOp<T>>, n: nat, l: Lists<T>)
    requires n <= |ops| && At(ops, n) == Some(l)
    ensures Elements(l.free) + Elements(l.used) == Allocated(ops, n)
    ensures |l.free| + |l.used| == |Allocated(ops, n)|
    ensures |l.locks| == |l.used|
    ensures forall lk, i :: lk in l.locks && 0 <= i < |l.locks| && l.locks[i] == lk ==> i == Find(l.locks, lk)
  {
    GoodRun(ops, n, l);
    NodesCount(l);
  }

  // ---------- the lists with their pointers ----------

  class McsNode {
    var lockNext: McsNode?
    var wait: bool
    var speculate: bool
    var cnt: nat
    var lock: Option<nat>
    var listNext: McsNode?
    var listPrev: McsNode?

    /** As `alloc_more_nodes` leaves a node, but for its place in the list. */
    ghost predicate Blank()
      reads this
    {
      lockNext == null && wait && speculate && cnt == 0 && lock == None && listPrev == null
    }

    /** Made ready for another acquisition. */
    method Reset(lk: nat)
      modifies this`lockNext, this`lock, this`wait, this`speculate, this`cnt
      ensures lockNext == null && lock == Some(lk) && wait && speculate && cnt == 0
    {
      lockNext := null;
      lock := Some(lk);
      wait := true;
      speculate := true;
      cnt := 0;
    }

    constructor ()
      ensures Blank() && listNext == null
    {
      lockNext, wait, speculate, cnt, lock := null, true, true, 0, None;
      listNext, listPrev := null, null;
    }
  }

  /** The allocation in `alloc_more_nodes`: a block of nodes, each linked to the next. */
  method NewBlock() returns (block: seq<McsNode>)
    ensures |block| == NUM_NODES && Distinct(block)
    ensures forall n :: n in block ==> fresh(n) && n.Blank()
    ensures forall i {:trigger After(block, i)} :: 0 <= i < |block| ==> block[i].listNext == After(block, i)
  {
    block := [];
    while |block| < NUM_NODES
      invariant |block| <= NUM_NODES
      invariant forall n :: n in block ==> fresh(n) && n.Blank() && n.listNext == null
      invariant Distinct(block)
    {
      var n := new McsNode();
      block := block + [n];
    }
    for i := 0 to NUM_NODES - 1
      invariant forall n :: n in block ==> fresh(n) && n.Blank()
      invariant forall j :: 0 <= j < |block| ==> block[j].listNext == if j < i then After(block, j) else null
    {
      assert block[i] in block;
      block[i].listNext := block[i + 1];
    }
  }

  class McsThread {
    var myFree: McsNode?
    var myUsed: McsNode?
    ghost var free: seq<McsNode>
    ghost var used: seq<McsNode>

    ghost var locks: seq<nat>
    ghost var nodes: set<McsNode>

    ghost function View(): Lists<McsNode>
      reads this
    {
      Lists(free, used, locks, nodes)
    }

    /** The pointers represent the two lists. */
    ghost predicate Linked()
      reads this, free, used
    {
      && myFree == First(free) && myUsed == First(used)
      && |locks| == |used|
      && (forall i :: 0 <= i < |used| ==> used[i].lock == Some(locks[i]))
      && (forall i {:trigger After(free, i)} :: 0 <= i < |free| ==> free[i].listNext == After(free, i))
      && (forall i {:trigger After(used, i)} :: 0 <= i < |used| ==> used[i].listNext == After(used, i))
      && (forall i {:trigger Before(used, i)} :: 0 <= i < |used| ==> used[i].listPrev == Before(used, i))
    }

    ghost predicate Valid()
      reads this, free, used
    {
      Linked() && Good(View())
    }

    constructor ()
      ensures Valid() && View() == Lists([], [], [], {})
    {
      myFree, myUsed := null, null;
      free, used, locks, nodes := [], [], [], {};
    }

    /** `alloc_more_nodes`. */
    method AllocMoreNodes() returns (ghost more: seq<McsNode>)
      requires Valid() && free == []
      modifies this`myFree, this`free, this`nodes
      ensures Valid() && Supplied(old(View()), more) && View() == Refilled(old(View()), more)
      ensures forall n :: n in more ==> fresh(n) && n.lockNext == null && n.wait && n.speculate && n.cnt == 0
      ensures forall n :: n in more ==> n.lock == None && n.listPrev == null
    {
      var block := NewBlock();
      more := block;
      myFree := block[0];
      free, nodes := more, nodes + Elements(more);
      assert old(View()).free + more == more;
      RefilledGood(old(View()), more);
    }

    /** The start of lock and trylock: a free node is made ready, and stays on the free list until it
        is known to be enqueued. */
    method Prepare(lk: nat) returns (mine: McsNode, ghost more: seq<McsNode>)
      requires Valid()
      modifies this`myFree, this`free, this`nodes, free`lockNext, free`lock, free`wait, free`speculate, free`cnt
      ensures Valid() && Supplied(old(View()), more) && View() == Refilled(old(View()), more)
      ensures forall n :: n in more ==> fresh(n)
      ensures free != [] && mine == free[0] && used == old(used)
      ensures if old(free) == [] then free == more && |more| == 8 else free == old(free) && more == []
      ensures mine.lockNext == null && mine.lock == Some(lk) && mine.wait && mine.speculate && mine.cnt == 0
      ensures forall n :: n in old(free) && n != mine ==> n.lock == old(n.lock)
    {
      more := [];
      assert free + more == free && nodes + Elements(more) == nodes;
      if myFree == null {
        more := AllocMoreNodes();
      }
      mine := myFree;
      assert mine in free;
      mine.Reset(lk);
    }

    /** The node at the head of the free list moves to the head of the used list. */
    method TakeNode(ghost lk: nat) returns (mine: McsNode)
      requires Valid() && free != [] && free[0].lock == Some(lk) && lk !in locks
      modifies this, free`listNext, free`listPrev, used`listPrev
      ensures Valid()
      ensures mine == old(free[0]) && View() == Taken(old(View()), lk)
    {
      ghost var was := View();
      mine := PopFree();
      PushUsed(mine, lk);
      TakenGood(was, lk);
    }

    method PopFree() returns (mine: McsNode)
      requires Linked() && free != []
      modifies this`myFree, this`free
      ensures Linked()
      ensures mine == old(free[0]) && free == old(free)[1..]
    {
      ghost var f := free;
      mine := myFree;
      assert mine.listNext == After(f, 0);
      myFree := mine.listNext;
      free := free[1..];
      forall i | 0 <= i < |free|
        ensures free[i].listNext == After(free, i)
      {
        assert After(f, i + 1) == After(free, i);
      }
    }

    method PushUsed(mine: McsNode, ghost lk: nat)
      requires Linked() && Distinct(used) && mine.lock == Some(lk) && mine !in free && mine !in used
      requires forall i, j :: 0 <= i < |free| && 0 <= j < |used| ==> free[i] != used[j]
      modifies this`myUsed, this`used, this`locks, mine`listNext, mine`listPrev, used`listPrev
      ensures Linked()
      ensures used == [mine] + old(used) && locks == [lk] + old(locks)
    {
      ghost var u := used;
      mine.listNext := myUsed;
      if myUsed != null {
        myUsed.listPrev := mine;
      }
      myUsed := mine;
      mine.listPrev := null;
      used, locks := [mine] + used, [lk] + locks;
      forall i | 0 <= i < |used|
        ensures used[i].listNext == After(used, i) && used[i].listPrev == Before(used, i)
      {
        if i > 0 {
          assert After(u, i - 1) == After(used, i);
          assert i > 1 ==> Before(u, i - 1) == Before(used, i);
        }
      }
    }

    /** The node leaves the used list; its neighbours are joined. */
    method Unlink(mine: McsNode, ghost k: nat)
      requires Distinct(used) && |locks| == |used| && k < |used| && used[k] == mine && myUsed == First(used)
      requires forall i {:trigger After(used, i)} :: 0 <= i < |used| ==> used[i].listNext == After(used, i)
      requires forall i {:trigger Before(used, i)} :: 0 <= i < |used| ==> used[i].listPrev == Before(used, i)
      modifies this`myUsed, this`used, this`locks, used`listNext, used`listPrev
      ensures used == Dropped(old(used), k) && locks == Dropped(old(locks), k)
      ensures myUsed == First(used)
      ensures forall i {:trigger After(used, i)} :: 0 <= i < |used| ==> used[i].listNext == After(used, i)
      ensures forall i {:trigger Before(used, i)} :: 0 <= i < |used| ==> used[i].listPrev == Before(used, i)
    {
      ghost var was := used;
      assert mine.listNext == After(was, k) && mine.listPrev == Before(was, k);
      if mine.listPrev != null {
        mine.listPrev.listNext := mine.listNext;
      } else {
        myUsed := mine.listNext;
      }
      if mine.listNext != null {
        mine.listNext.listPrev := mine.listPrev;
      }
      used, locks := Dropped(used, k), Dropped(locks, k);
      forall i | 0 <= i < |used|
        ensures used[i].listNext == After(used, i) && used[i].listPrev == Before(used, i)
      {
        DroppedNeighbours(was, k, i);
        var j := if i < k then i else i + 1;
        assert j + 1 != k ==> After(was, j) == After(used, i);
        assert j != k + 1 ==> Before(was, j) == Before(used, i);
      }
    }

    /** `dealloc_node`: unlink from the used list, push on the free list. */
    method DeallocNode(mine: McsNode, ghost k: nat)
      requires Valid() && k < |used| && used[k] == mine
      modifies this, used`lockNext, used`listNext, used`listPrev
      ensures Valid()
      ensures mine.lockNext == null
      ensures View() == GivenBack(old(View()), k)
      ensures free == [mine] + old(free) && used == Dropped(old(used), k) && locks == Dropped(old(locks), k)
    {
      ghost var was := View();
      MoveBack(mine, k);
      GivenBackGood(was, k);
    }

    method MoveBack(mine: McsNode, ghost k: nat)
      requires Linked() && k < |used| && used[k] == mine
      requires Distinct(used) && forall i, j :: 0 <= i < |free| && 0 <= j < |used| ==> free[i] != used[j]
      modifies this, used`lockNext, used`listNext, used`listPrev
      ensures Linked()
      ensures mine.lockNext == null
      ensures View() == GivenBack(old(View()), k)
    {
      mine.lockNext := null;
      Unlink(mine, k);
      assert mine !in used;
      PushFree(mine);
    }

    method PushFree(mine: McsNode)
      requires Linked() && mine !in free && mine !in used
      modifies this`myFree, this`free, mine`listNext
      ensures Linked()
      ensures free == [mine] + old(free)
    {
      ghost var f := free;
      mine.listNext := myFree;
      myFree := mine;
      free := [mine] + f;
      forall i | 0 <= i < |free|
        ensures free[i].listNext == After(free, i)
      {
        assert i > 0 ==> After(f, i - 1) == After(free, i);
      }
    }

    /** The search at the start of unlock ends at the only node for the lock, if there is one. */
    method FindUsed(lk: nat) returns (mine: McsNode?, ghost k: nat)
      requires Valid()
      ensures mine == null <==> lk !in locks
      ensures mine != null ==> k < |used| && used[k] == mine && locks[k] == lk && k == Find(locks, lk)
      ensures forall i :: 0 <= i < |used| && used[i].lock == Some(lk) ==> used[i] == mine
    {
      mine, k := myUsed, 0;
      while mine != null && mine.lock != Some(lk)
        invariant k <= |used|
        invariant mine == if k < |used| then used[k] else null
        invariant forall i :: 0 <= i < k ==> used[i].lock != Some(lk)
        decreases |used| - k
      {
        assert mine.listNext == After(used, k);
        mine := mine.listNext;
        k := k + 1;
      }
    }

    /** What lock, and a trylock that succeeds, do with the lists. */
    method AcquireNode(lk: nat) returns (mine: McsNode, ghost more: seq<McsNode>)
      requires Valid() && lk !in locks
      modifies this, free, used
      ensures Valid() && Allowed(old(View()), Acquire(lk, more)) && View() == Apply(old(View()), Acquire(lk, more))
      ensures mine == used[0] && mine.lock == Some(lk) && forall n :: n in more ==> fresh(n)
      // The lock's node is the former head of the free list, and all other pairs are as they were.
      ensures mine == if old(free) == [] then more[0] else old(free[0])
      ensures used == [mine] + old(used) && locks == [lk] + old(locks)
    {
      mine, more := Prepare(lk);
      mine := TakeNode(lk);
    }

    /** What a trylock that fails does with them. */
    method TryNode(lk: nat) returns (ghost more: seq<McsNode>)
      requires Valid()
      modifies this, free
      ensures Valid() && Allowed(old(View()), TryFails(lk, more)) && View() == Apply(old(View()), TryFails(lk, more))
      ensures forall n :: n in more ==> fresh(n)
    {
      var mine;
      mine, more := Prepare(lk);
    }

    /** What unlock does with them. */
    method ReleaseNode(lk: nat)
      requires Valid() && lk in locks
      modifies this, used
      ensures Valid() && View() == Apply(old(View()), Release(lk))
      // The node enqueued for the lock is the one given back, and all other pairs are as they were.
      ensures lk !in locks
      ensures free != [] && free[1..] == old(free) && free[0].lock == Some(lk) && free[0].lockNext == null
      ensures exists k: nat ::
        && k < |old(used)| && |old(used)| == |old(locks)| && old(locks)[k] == lk
        && free[0] == old(used)[k] && used == Dropped(old(used), k) && locks == Dropped(old(locks), k)
    {
      ghost var was := View();
      var mine, k := FindUsed(lk);
      DeallocNode(mine, k);
      DroppedGood(was.locks, k);
    }
  }
}
