/** The MCS queue lock of txlock.c in its plain mode: any number of threads and locks, with queue
    nodes that go back to their thread's free list after a release and serve any lock next.
    A thread's lists appear here as sets of nodes; McsLists has the lists themselves. */
module McsProtocol {
  import opened Common
  import McsLists
  import Runs

  type NodeId = nat
  type LockId = nat

  /** `owner` is the thread whose lists hold the node, `used` tells which of the two lists, and
      `turn` is the node's place in its lock's history while it is queued.  No step tests `turn`. */
  datatype Node = Node(
    lockNext: Option<NodeId>, wait: bool, lock: Option<LockId>, owner: Tid, used: bool, turn: Option<nat>)

  datatype Pc =
    | Idle
    | Swap(lk: LockId, mine: NodeId, tries: bool)
    | Link(lk: LockId, mine: NodeId, pred: NodeId)
    | Spin(lk: LockId, mine: NodeId)
    | Test(lk: LockId, mine: NodeId)
    | Cas(lk: LockId, mine: NodeId)
    | Await(lk: LockId, mine: NodeId)
    | Grant(lk: LockId, mine: NodeId)
    | Dealloc(lk: LockId, mine: NodeId)

  /** All nodes ever enqueued on a lock, in order; the first `served` of them have passed the lock
      on.  `entered` and `acquired` list the threads in the order in which they joined the queue and
      got the lock.  No step tests any of these. */
  datatype History = History(slots: seq<NodeId>, served: nat, entered: seq<Tid>, acquired: seq<Tid>)

  datatype State = State(
    tail: map<LockId, Option<NodeId>>,
    node: map<NodeId, Node>,
    th: map<Tid, Pc>,
    hist: map<LockId, History>)

  datatype Event =
    | Call(t: Tid, lk: LockId, mine: NodeId, tries: bool, more: set<NodeId>)
    | SwapTail(t: Tid)
    | LinkPred(t: Tid)
    | EndSpin(t: Tid)
    | Unlock(t: Tid, lk: LockId, mine: NodeId)
    | TestNext(t: Tid)
    | CasTail(t: Tid)
    | SeeNext(t: Tid)
    | GrantNext(t: Tid)
    | Recycle(t: Tid)

  // ---------- the steps ----------

  ghost predicate IsFree(s: State, t: Tid, n: NodeId) {
    n in s.node && s.node[n].owner == t && !s.node[n].used
  }

  ghost predicate IsUsedFor(s: State, t: Tid, n: NodeId, lk: LockId) {
    n in s.node && s.node[n].owner == t && s.node[n].used && s.node[n].lock == Some(lk)
  }

  /** What the thread's next step dereferences is there. */
  ghost predicate PlaceOk(s: State, p: Pc) {
    && (!p.Idle? ==> p.lk in s.tail && p.lk in s.hist && p.mine in s.node)
    && (p.Link? ==> p.pred in s.node)
    && (p.Grant? ==> s.node[p.mine].lockNext.Some? && s.node[p.mine].lockNext.value in s.node)
  }

  ghost predicate Enabled(s: State, e: Event) {
    e.t in s.th && PlaceOk(s, s.th[e.t]) &&
    var p := s.th[e.t];
    match e
    case Call(t, lk, mine, tries, more) =>
      && p.Idle? && lk in s.tail && lk in s.hist
      // A blocking call is not recursive.
      && (!tries ==> forall n :: n in s.node ==> !IsUsedFor(s, t, n, lk))
      && (if more == {} then IsFree(s, t, mine)
          else
            && |more| == McsLists.NUM_NODES && mine in more && more !! s.node.Keys
            && forall n :: n in s.node ==> !IsFree(s, t, n))
    case SwapTail(_) => p.Swap?
    case LinkPred(_) => p.Link?
    case EndSpin(_) => p.Spin? && !s.node[p.mine].wait
    case Unlock(t, lk, mine) => p.Idle? && lk in s.tail && lk in s.hist && IsUsedFor(s, t, mine, lk)
    case TestNext(_) => p.Test?
    case CasTail(_) => p.Cas?
    case SeeNext(_) => p.Await? && s.node[p.mine].lockNext.Some?
    case GrantNext(_) => p.Grant?
    case Recycle(_) => p.Dealloc?
  }

  ghost function Joined(x: History, mine: NodeId, t: Tid): History {
    x.(slots := x.slots + [mine], entered := x.entered + [t])
  }

  ghost function Acquired(x: History, t: Tid): History {
    x.(acquired := x.acquired + [t])
  }

  ghost function Served(x: History): History {
    x.(served := x.served + 1)
  }

  ghost function Blank(t: Tid): Node {
    Node(None, true, None, t, false, None)
  }

  ghost function Moved(s: State, t: Tid, p: Pc): State {
    s.(th := s.th[t := p])
  }

  /** The chosen node is made ready; `more` are the nodes of a fresh allocation. */
  ghost function Prepared(s: State, t: Tid, lk: LockId, mine: NodeId, tries: bool, more: set<NodeId>): State {
    var node := s.node + Filled(more, Blank(t));
    s.(node := node[mine := Blank(t).(lock := Some(lk))], th := s.th[t := Swap(lk, mine, tries)])
  }

  /** The node becomes the tail, and moves from the free list to the used one. */
  ghost function Enqueued(s: State, t: Tid, lk: LockId, mine: NodeId, p: Pc): State
    requires lk in s.hist && mine in s.node
  {
    s.(tail := s.tail[lk := Some(mine)],
       node := s.node[mine := s.node[mine].(used := true, turn := Some(|s.hist[lk].slots|))],
       th := s.th[t := p],
       hist := s.hist[lk := Joined(s.hist[lk], mine, t)])
  }

  /** The thread is past its spin, or found the queue empty. */
  ghost function Admitted(s: State, t: Tid, lk: LockId): State
    requires lk in s.hist
  {
    s.(th := s.th[t := Idle], hist := s.hist[lk := Acquired(s.hist[lk], t)])
  }

  ghost function Linked(s: State, t: Tid, lk: LockId, mine: NodeId, pred: NodeId): State
    requires pred in s.node
  {
    s.(node := s.node[pred := s.node[pred].(lockNext := Some(mine))], th := s.th[t := Spin(lk, mine)])
  }

  /** The node leaves the head of the queue, which is now empty or has `next` at its head. */
  ghost function Released(s: State, t: Tid, lk: LockId, mine: NodeId, next: Option<NodeId>): State
    requires lk in s.hist && mine in s.node && (next.Some? ==> next.value in s.node)
  {
    var node := match next
      case None => s.node
      case Some(n) => s.node[n := s.node[n].(wait := false)];
    s.(tail := if next.None? then s.tail[lk := None] else s.tail,
       node := node[mine := node[mine].(turn := None)],
       th := s.th[t := Dealloc(lk, mine)],
       hist := s.hist[lk := Served(s.hist[lk])])
  }

  /** `dealloc_node`: back to the free list. */
  ghost function Recycled(s: State, t: Tid, mine: NodeId): State
    requires mine in s.node
  {
    s.(node := s.node[mine := s.node[mine].(lockNext := None, used := false)], th := s.th[t := Idle])
  }

  ghost function Step(s: State, e: Event): State
    requires Enabled(s, e)
  {
    var t, p := e.t, s.th[e.t];
    match e
    case Call(_, lk, mine, tries, more) => Prepared(s, t, lk, mine, tries, more)
    case SwapTail(_) =>
      // A swap, or trylock's compare-and-swap with NULL.
      (match s.tail[p.lk]
       case None => Admitted(Enqueued(s, t, p.lk, p.mine, Idle), t, p.lk)
       case Some(pred) => if p.tries then Moved(s, t, Idle) else Enqueued(s, t, p.lk, p.mine, Link(p.lk, p.mine, pred)))
    case LinkPred(_) => Linked(s, t, p.lk, p.mine, p.pred)
    case EndSpin(_) => Admitted(s, t, p.lk)
    case Unlock(_, lk, mine) => Moved(s, t, Test(lk, mine))
    case TestNext(_) => Moved(s, t, if s.node[p.mine].lockNext.None? then Cas(p.lk, p.mine) else Grant(p.lk, p.mine))
    case CasTail(_) =>
      if s.tail[p.lk] == Some(p.mine) then Released(s, t, p.lk, p.mine, None)
      else Moved(s, t, Await(p.lk, p.mine))
    case SeeNext(_) => Moved(s, t, Grant(p.lk, p.mine))
    case GrantNext(_) => Released(s, t, p.lk, p.mine, s.node[p.mine].lockNext)
    case Recycle(_) => Recycled(s, t, p.mine)
  }

  ghost function Start(threads: set<Tid>, locks: set<LockId>): State {
    State(Filled(locks, None), map[], Filled(threads, Idle), Filled(locks, History([], 0, [], [])))
  }

  ghost function Next(s: State, e: Event): Option<State> {
    if Enabled(s, e) then Some(Step(s, e)) else None
  }

  ghost function At(s: State, es: seq<Event>, n: nat): Option<State>
    requires n <= |es|
  {
    Runs.At(Next, s, es, n)
  }

  // ---------- the invariant ----------

  /** Not yet past the spin that guards entry to the critical section. */
  ghost predicate Behind(p: Pc, n: NodeId) {
    (p.Link? || p.Spin?) && p.mine == n
  }

  ghost predicate Queued(s: State, lk: LockId, i: nat)
    requires lk in s.hist
  {
    s.hist[lk].served <= i < |s.hist[lk].slots|
  }

  ghost predicate NodeOk(s: State, n: NodeId)
    requires n in s.node
  {
    var x := s.node[n];
    && x.owner in s.th
    && (x.turn.Some? ==> x.used)
    && (x.used ==>
          && x.lock.Some? && x.lock.value in s.hist
          && (x.turn.None? ==> s.th[x.owner] == Dealloc(x.lock.value, n))
          && (x.turn.Some? ==> Queued(s, x.lock.value, x.turn.value) && s.hist[x.lock.value].slots[x.turn.value] == n))
  }

  ghost predicate Nodes(s: State) {
    forall n {:trigger NodeOk(s, n)} :: n in s.node ==> NodeOk(s, n)
  }

  /** A thread has at most one used node for each lock. */
  ghost predicate OneEach(s: State) {
    forall n, m :: n in s.node && m in s.node && s.node[n].used && s.node[m].used ==>
      s.node[n].owner == s.node[m].owner && s.node[n].lock == s.node[m].lock ==> n == m
  }

  /** The node in a slot that has not been served. */
  ghost predicate SlotOk(s: State, lk: LockId, i: nat)
    requires lk in s.hist && Queued(s, lk, i)
  {
    var x := s.hist[lk];
    var n := x.slots[i];
    && n in s.node && s.node[n].turn == Some(i) && s.node[n].lock == Some(lk) && s.node[n].owner in s.th
    && var p := s.th[s.node[n].owner];
    && (i + 1 == |x.slots| ==> s.node[n].lockNext == None)
    && (i == x.served && Behind(p, n) ==> p == Spin(lk, n) && !s.node[n].wait)
    && (i > x.served ==>
          && s.node[n].wait && x.slots[i - 1] in s.node
          && (|| (p == Link(lk, n, x.slots[i - 1]) && s.node[x.slots[i - 1]].lockNext == None)
              || (p == Spin(lk, n) && s.node[x.slots[i - 1]].lockNext == Some(n))))
  }

  ghost predicate Slots(s: State) {
    forall lk, i {:trigger SlotOk(s, lk, i)} :: lk in s.hist && Queued(s, lk, i) ==> SlotOk(s, lk, i)
  }

  ghost predicate Tails(s: State) {
    s.tail.Keys == s.hist.Keys && forall lk {:trigger lk in s.hist} :: lk in s.hist ==> TailOk(s, lk)
  }

  /** The word holds the last node in the queue. */
  ghost predicate TailOk(s: State, lk: LockId)
    requires lk in s.hist && lk in s.tail
  {
    var x := s.hist[lk];
    x.served <= |x.slots| && s.tail[lk] == if x.served < |x.slots| then Some(x.slots[|x.slots| - 1]) else None
  }

  ghost predicate Owns(s: State, t: Tid, lk: LockId, n: NodeId) {
    n in s.node && s.node[n].owner == t && s.node[n].used && s.node[n].lock == Some(lk) && lk in s.hist
  }

  ghost predicate Heads(s: State, t: Tid, lk: LockId, n: NodeId) {
    Owns(s, t, lk, n) && s.node[n].turn == Some(s.hist[lk].served)
  }

  ghost predicate HasNext(s: State, lk: LockId) {
    lk in s.hist && s.hist[lk].served + 1 < |s.hist[lk].slots|
  }

  /** What a thread's place says about its node. */
  ghost predicate PcOk(s: State, t: Tid)
    requires t in s.th
  {
    match s.th[t]
    case Idle => true
    case Swap(lk, mine, tries) =>
      && lk in s.hist && mine in s.node && s.node[mine] == Blank(t).(lock := Some(lk))
      && (!tries ==> forall n :: n in s.node ==> !IsUsedFor(s, t, n, lk))
    case Link(lk, mine, pred) => Owns(s, t, lk, mine) && s.node[mine].turn.Some?
    case Spin(lk, mine) => Owns(s, t, lk, mine) && s.node[mine].turn.Some?
    case Test(lk, mine) => Heads(s, t, lk, mine)
    case Cas(lk, mine) => Heads(s, t, lk, mine)
    case Await(lk, mine) => Heads(s, t, lk, mine) && HasNext(s, lk)
    case Grant(lk, mine) =>
      Heads(s, t, lk, mine) && HasNext(s, lk) && s.node[mine].lockNext == Some(s.hist[lk].slots[s.hist[lk].served + 1])
    case Dealloc(lk, mine) => Owns(s, t, lk, mine) && s.node[mine].turn.None?
  }

  ghost predicate Pcs(s: State) {
    forall t {:trigger PcOk(s, t)} :: t in s.th ==> PcOk(s, t)
  }

  /** The thread at the head of the queue, if any, has got the lock. */
  ghost predicate HeadIn(s: State, lk: LockId)
    requires lk in s.hist
  {
    var x := s.hist[lk];
    && Queued(s, lk, x.served)
    && x.slots[x.served] in s.node && s.node[x.slots[x.served]].owner in s.th
    && !Behind(s.th[s.node[x.slots[x.served]].owner], x.slots[x.served])
  }

  /** Threads get the lock in the order in which they swapped themselves into its queue. */
  ghost predicate OrderOk(s: State, lk: LockId)
    requires lk in s.hist
  {
    var x := s.hist[lk];
    && |x.entered| == |x.slots|
    && (forall i :: 0 <= i < |x.slots| ==> x.slots[i] in s.node && x.entered[i] == s.node[x.slots[i]].owner)
    && x.acquired <= x.entered
    && |x.acquired| == x.served + if HeadIn(s, lk) then 1 else 0
  }

  ghost predicate Order(s: State) {
    forall lk {:trigger OrderOk(s, lk)} :: lk in s.hist ==> OrderOk(s, lk)
  }

  ghost predicate Inv(s: State) {
    Nodes(s) && OneEach(s) && Slots(s) && Tails(s) && Pcs(s) && Order(s)
  }

  // ---------- every step keeps the invariant ----------

  lemma InvStart(threads: set<Tid>, locks: set<LockId>)
    ensures Inv(Start(threads, locks))
  {
  }

  // Frames: what a step must leave alone for one slot, or one thread, to stay in order.

  ghost predicate SlotSame(s: State, s': State, lk: LockId, i: nat)
    requires lk in s.hist && Queued(s, lk, i) && SlotOk(s, lk, i)
  {
    && lk in s'.hist && Queued(s', lk, i)
    && var x, x' := s.hist[lk], s'.hist[lk];
    && (i + 1 == |x'.slots| ==> i + 1 == |x.slots|)
    && (i == x'.served <==> i == x.served)
    && x'.slots[i] == x.slots[i]
    && x.slots[i] in s'.node && s'.node[x.slots[i]] == s.node[x.slots[i]]
    && (i > x.served ==>
          && x'.slots[i - 1] == x.slots[i - 1] && x.slots[i - 1] in s'.node
          && s'.node[x.slots[i - 1]].lockNext == s.node[x.slots[i - 1]].lockNext)
    && s.node[x.slots[i]].owner in s'.th
    && var p, p' := s.th[s.node[x.slots[i]].owner], s'.th[s.node[x.slots[i]].owner];
    && (p' == p || (!Behind(p, x.slots[i]) && !Behind(p', x.slots[i])))
  }

  lemma SlotFrame(s: State, s': State, lk: LockId, i: nat)
    requires lk in s.hist && Queued(s, lk, i) && SlotOk(s, lk, i) && SlotSame(s, s', lk, i)
    ensures SlotOk(s', lk, i)
  {
  }

  ghost predicate ThreadSame(s: State, s': State, u: Tid)
    requires u in s.th
  {
    && u in s'.th && s'.th[u] == s.th[u]
    && (forall n :: n in s.node && s.node[n].owner == u ==>
          && n in s'.node && s'.node[n].owner == u
          && (!s.node[n].used ==> s'.node[n] == s.node[n])
          && s'.node[n].lock == s.node[n].lock && s'.node[n].used == s.node[n].used && s'.node[n].turn == s.node[n].turn
          && (s.node[n].lockNext.Some? ==> s'.node[n].lockNext == s.node[n].lockNext))
    && (forall n :: n in s'.node && s'.node[n].owner == u && s'.node[n].used ==> n in s.node && s.node[n].owner == u)
    && (forall lk :: lk in s.hist ==>
          && lk in s'.hist && s.hist[lk].slots <= s'.hist[lk].slots
          && ((exists n :: Heads(s, u, lk, n)) ==> s'.hist[lk].served == s.hist[lk].served))
  }

  lemma PcFrame(s: State, s': State, u: Tid)
    requires u in s.th && PcOk(s, u) && ThreadSame(s, s', u)
    ensures PcOk(s', u)
  {
    if s.th[u].Test? || s.th[u].Cas? || s.th[u].Await? || s.th[u].Grant? {
      assert Heads(s, u, s.th[u].lk, s.th[u].mine);
    }
  }

  // ---- steps that move only the thread itself ----

  ghost predicate Quiet(p: Pc) {
    !p.Link? && !p.Spin? && !p.Dealloc?
  }

  lemma MovedSlots(s: State, t: Tid, p: Pc)
    requires Slots(s) && t in s.th && Quiet(s.th[t]) && Quiet(p)
    ensures Slots(Moved(s, t, p))
  {
    var s' := Moved(s, t, p);
    forall lk, i: nat | lk in s'.hist && Queued(s', lk, i)
      ensures SlotOk(s', lk, i)
    {
      assert SlotOk(s, lk, i);
      SlotFrame(s, s', lk, i);
    }
  }

  lemma MovedPcs(s: State, t: Tid, p: Pc)
    requires Pcs(s) && t in s.th && PcOk(Moved(s, t, p), t)
    ensures Pcs(Moved(s, t, p))
  {
    var s' := Moved(s, t, p);
    forall u | u in s'.th
      ensures PcOk(s', u)
    {
      if u != t {
        assert PcOk(s, u);
        PcFrame(s, s', u);
      }
    }
  }

  lemma MovedOrder(s: State, t: Tid, p: Pc)
    requires Order(s) && t in s.th && Quiet(s.th[t]) && Quiet(p)
    ensures Order(Moved(s, t, p))
  {
    var s' := Moved(s, t, p);
    forall lk | lk in s'.hist
      ensures OrderOk(s', lk)
    {
      assert OrderOk(s, lk);
    }
  }

  lemma MovedRest(s: State, t: Tid, p: Pc)
    requires Nodes(s) && OneEach(s) && Tails(s) && t in s.th && Quiet(s.th[t])
    ensures Nodes(Moved(s, t, p)) && OneEach(Moved(s, t, p)) && Tails(Moved(s, t, p))
  {
    var s' := Moved(s, t, p);
    forall n | n in s'.node
      ensures NodeOk(s', n)
    {
      assert NodeOk(s, n);
    }
  }

  lemma InvMoved(s: State, t: Tid, p: Pc)
    requires Inv(s) && t in s.th && Quiet(s.th[t]) && Quiet(p) && PcOk(Moved(s, t, p), t)
    ensures Inv(Moved(s, t, p))
  {
    MovedRest(s, t, p);
    MovedSlots(s, t, p);
    MovedPcs(s, t, p);
    MovedOrder(s, t, p);
  }

  /** Whoever unlocks heads the queue. */
  lemma UnlockerHeads(s: State, e: Event)
    requires Inv(s) && Enabled(s, e) && e.Unlock?
    ensures Heads(s, e.t, e.lk, e.mine)
  {
    assert NodeOk(s, e.mine);
    var i := s.node[e.mine].turn.value;
    assert SlotOk(s, e.lk, i);
  }

  /** A link that is there leads to the next slot. */
  lemma LinkLeads(s: State, t: Tid, lk: LockId, mine: NodeId)
    requires Inv(s) && Heads(s, t, lk, mine) && s.node[mine].lockNext.Some?
    ensures HasNext(s, lk) && s.node[mine].lockNext == Some(s.hist[lk].slots[s.hist[lk].served + 1])
  {
    assert NodeOk(s, mine);
    assert SlotOk(s, lk, s.hist[lk].served);
    assert SlotOk(s, lk, s.hist[lk].served + 1);
  }

  /** A tail that is not mine has somebody behind me. */
  lemma TailLeads(s: State, t: Tid, lk: LockId, mine: NodeId)
    requires Inv(s) && Heads(s, t, lk, mine) && lk in s.tail && s.tail[lk] != Some(mine)
    ensures HasNext(s, lk)
  {
    assert NodeOk(s, mine);
  }

  lemma InvUnlock(s: State, e: Event)
    requires Inv(s) && Enabled(s, e) && e.Unlock?
    ensures Inv(Step(s, e))
  {
    UnlockerHeads(s, e);
    InvMoved(s, e.t, Test(e.lk, e.mine));
  }

  lemma InvNextSeen(s: State, e: Event)
    requires Inv(s) && Enabled(s, e) && (e.TestNext? || e.SeeNext?)
    ensures Inv(Step(s, e))
  {
    var p := s.th[e.t];
    assert PcOk(s, e.t);
    if s.node[p.mine].lockNext.Some? {
      LinkLeads(s, e.t, p.lk, p.mine);
    }
    InvMoved(s, e.t, Step(s, e).th[e.t]);
  }

  lemma InvCasMisses(s: State, e: Event)
    requires Inv(s) && Enabled(s, e) && e.CasTail? && s.tail[s.th[e.t].lk] != Some(s.th[e.t].mine)
    ensures Inv(Step(s, e))
  {
    var p := s.th[e.t];
    assert PcOk(s, e.t);
    TailLeads(s, e.t, p.lk, p.mine);
    InvMoved(s, e.t, Await(p.lk, p.mine));
  }

  lemma InvTryFails(s: State, e: Event)
    requires Inv(s) && Enabled(s, e) && e.SwapTail? && s.th[e.t].tries && s.tail[s.th[e.t].lk].Some?
    ensures Inv(Step(s, e))
  {
    InvMoved(s, e.t, Idle);
  }

  // ---- preparing a node ----

  ghost predicate CanPrepare(s: State, t: Tid, lk: LockId, mine: NodeId, tries: bool, more: set<NodeId>) {
    && t in s.th && s.th[t].Idle? && lk in s.hist
    && (!tries ==> forall n :: n in s.node ==> !IsUsedFor(s, t, n, lk))
    && more !! s.node.Keys
    && (if more == {} then IsFree(s, t, mine) else mine in more)
  }

  lemma PreparedNodes(s: State, t: Tid, lk: LockId, mine: NodeId, tries: bool, more: set<NodeId>)
    requires Nodes(s) && CanPrepare(s, t, lk, mine, tries, more)
    ensures Nodes(Prepared(s, t, lk, mine, tries, more))
  {
    var s' := Prepared(s, t, lk, mine, tries, more);
    forall n | n in s'.node
      ensures NodeOk(s', n)
    {
      assert n in s.node ==> NodeOk(s, n);
    }
  }

  lemma PreparedRest(s: State, t: Tid, lk: LockId, mine: NodeId, tries: bool, more: set<NodeId>)
    requires OneEach(s) && Tails(s)
    ensures OneEach(Prepared(s, t, lk, mine, tries, more)) && Tails(Prepared(s, t, lk, mine, tries, more))
  {
  }

  lemma PreparedSlots(s: State, t: Tid, lk: LockId, mine: NodeId, tries: bool, more: set<NodeId>)
    requires Nodes(s) && Slots(s) && CanPrepare(s, t, lk, mine, tries, more)
    ensures Slots(Prepared(s, t, lk, mine, tries, more))
  {
    var s' := Prepared(s, t, lk, mine, tries, more);
    forall l, i: nat | l in s'.hist && Queued(s', l, i)
      ensures SlotOk(s', l, i)
    {
      assert SlotOk(s, l, i);
      assert NodeOk(s, s.hist[l].slots[i]);
      if i > s.hist[l].served {
        assert SlotOk(s, l, i - 1);
        assert NodeOk(s, s.hist[l].slots[i - 1]);
      }
      SlotFrame(s, s', l, i);
    }
  }

  lemma PreparedPcs(s: State, t: Tid, lk: LockId, mine: NodeId, tries: bool, more: set<NodeId>)
    requires Nodes(s) && Pcs(s) && CanPrepare(s, t, lk, mine, tries, more)
    ensures Pcs(Prepared(s, t, lk, mine, tries, more))
  {
    var s' := Prepared(s, t, lk, mine, tries, more);
    forall u | u in s'.th
      ensures PcOk(s', u)
    {
      assert PcOk(s, u);
      if u != t {
        PcFrame(s, s', u);
      }
    }
  }

  lemma PreparedOrder(s: State, t: Tid, lk: LockId, mine: NodeId, tries: bool, more: set<NodeId>)
    requires Nodes(s) && Slots(s) && Order(s) && CanPrepare(s, t, lk, mine, tries, more)
    ensures Order(Prepared(s, t, lk, mine, tries, more))
  {
    var s' := Prepared(s, t, lk, mine, tries, more);
    forall l | l in s'.hist
      ensures OrderOk(s', l)
    {
      assert OrderOk(s, l);
      if Queued(s, l, s.hist[l].served) {
        assert SlotOk(s, l, s.hist[l].served);
      }
    }
  }

  lemma InvPrepared(s: State, t: Tid, lk: LockId, mine: NodeId, tries: bool, more: set<NodeId>)
    requires Inv(s) && CanPrepare(s, t, lk, mine, tries, more)
    ensures Inv(Prepared(s, t, lk, mine, tries, more))
  {
    PreparedNodes(s, t, lk, mine, tries, more);
    PreparedRest(s, t, lk, mine, tries, more);
    PreparedSlots(s, t, lk, mine, tries, more);
    PreparedPcs(s, t, lk, mine, tries, more);
    PreparedOrder(s, t, lk, mine, tries, more);
  }

  // ---- joining the queue ----

  ghost predicate CanEnqueue(s: State, t: Tid, lk: LockId, mine: NodeId, p: Pc) {
    && t in s.th && s.th[t].Swap? && lk in s.tail && lk in s.hist && mine in s.node
    && s.node[mine] == Blank(t).(lock := Some(lk))
    && (forall n :: n in s.node ==> !IsUsedFor(s, t, n, lk))
    && p == match s.tail[lk]
            case None => Idle
            case Some(pred) => Link(lk, mine, pred)
  }

  lemma EnqueuedNodes(s: State, t: Tid, lk: LockId, mine: NodeId, p: Pc)
    requires Nodes(s) && Tails(s) && CanEnqueue(s, t, lk, mine, p)
    ensures Nodes(Enqueued(s, t, lk, mine, p))
  {
    var s' := Enqueued(s, t, lk, mine, p);
    forall n | n in s'.node
      ensures NodeOk(s', n)
    {
      assert NodeOk(s, n);
    }
  }

  lemma EnqueuedRest(s: State, t: Tid, lk: LockId, mine: NodeId, p: Pc)
    requires OneEach(s) && Tails(s) && CanEnqueue(s, t, lk, mine, p)
    ensures OneEach(Enqueued(s, t, lk, mine, p)) && Tails(Enqueued(s, t, lk, mine, p))
  {
    EnqueuedOneEach(s, t, lk, mine, p);
    EnqueuedTails(s, t, lk, mine, p);
  }

  lemma EnqueuedOneEach(s: State, t: Tid, lk: LockId, mine: NodeId, p: Pc)
    requires OneEach(s) && CanEnqueue(s, t, lk, mine, p)
    ensures OneEach(Enqueued(s, t, lk, mine, p))
  {
  }

  lemma EnqueuedTails(s: State, t: Tid, lk: LockId, mine: NodeId, p: Pc)
    requires Tails(s) && CanEnqueue(s, t, lk, mine, p)
    ensures Tails(Enqueued(s, t, lk, mine, p))
  {
    var s' := Enqueued(s, t, lk, mine, p);
    forall l | l in s'.hist
      ensures TailOk(s', l)
    {
      assert l in s.hist && TailOk(s, l);
    }
  }

  lemma EnqueuedSlots(s: State, t: Tid, lk: LockId, mine: NodeId, p: Pc)
    requires Nodes(s) && Slots(s) && Tails(s) && CanEnqueue(s, t, lk, mine, p)
    ensures Slots(Enqueued(s, t, lk, mine, p))
  {
    var s' := Enqueued(s, t, lk, mine, p);
    forall l, i: nat | l in s'.hist && Queued(s', l, i)
      ensures SlotOk(s', l, i)
    {
      var x := s.hist[l];
      if i > x.served {
        assert SlotOk(s, l, i - 1);
        assert NodeOk(s, x.slots[i - 1]);
      }
      if l != lk || i < |x.slots| {
        assert SlotOk(s, l, i);
      }
    }
  }

  lemma EnqueuedPcs(s: State, t: Tid, lk: LockId, mine: NodeId, p: Pc)
    requires Pcs(s) && CanEnqueue(s, t, lk, mine, p)
    ensures Pcs(Enqueued(s, t, lk, mine, p))
  {
    var s' := Enqueued(s, t, lk, mine, p);
    forall u | u in s'.th
      ensures PcOk(s', u)
    {
      assert PcOk(s, u);
      if u != t {
        PcFrame(s, s', u);
      }
    }
  }

  lemma EnqueuedOrder(s: State, t: Tid, lk: LockId, mine: NodeId, p: Pc)
    requires Nodes(s) && Slots(s) && Tails(s) && Order(s) && CanEnqueue(s, t, lk, mine, p) && s.tail[lk].Some?
    ensures Order(Enqueued(s, t, lk, mine, p))
  {
    var s' := Enqueued(s, t, lk, mine, p);
    forall l | l in s'.hist
      ensures OrderOk(s', l)
    {
      assert OrderOk(s, l);
      if Queued(s, l, s.hist[l].served) {
        assert SlotOk(s, l, s.hist[l].served);
      }
    }
  }

  lemma InvJoinBehind(s: State, t: Tid, lk: LockId, mine: NodeId, p: Pc)
    requires Inv(s) && CanEnqueue(s, t, lk, mine, p) && s.tail[lk].Some?
    ensures Inv(Enqueued(s, t, lk, mine, p))
  {
    EnqueuedNodes(s, t, lk, mine, p);
    EnqueuedRest(s, t, lk, mine, p);
    EnqueuedSlots(s, t, lk, mine, p);
    EnqueuedPcs(s, t, lk, mine, p);
    EnqueuedOrder(s, t, lk, mine, p);
  }

  // ---- getting the lock ----

  /** The thread heads the queue, and nothing keeps it from going on. */
  ghost predicate CanAdmit(s: State, t: Tid, lk: LockId, mine: NodeId) {
    t in s.th && Heads(s, t, lk, mine) && (s.th[t] == Idle || s.th[t] == Spin(lk, mine))
  }

  lemma AdmittedRest(s: State, t: Tid, lk: LockId, mine: NodeId)
    requires Nodes(s) && OneEach(s) && Tails(s) && CanAdmit(s, t, lk, mine)
    ensures var s' := Admitted(s, t, lk); Nodes(s') && OneEach(s') && Tails(s')
  {
    var s' := Admitted(s, t, lk);
    forall n | n in s'.node
      ensures NodeOk(s', n)
    {
      assert NodeOk(s, n);
    }
  }

  lemma AdmittedSlots(s: State, t: Tid, lk: LockId, mine: NodeId)
    requires Nodes(s) && Slots(s) && CanAdmit(s, t, lk, mine)
    ensures Slots(Admitted(s, t, lk))
  {
    var s' := Admitted(s, t, lk);
    forall l, i: nat | l in s'.hist && Queued(s', l, i)
      ensures SlotOk(s', l, i)
    {
      assert SlotOk(s, l, i);
    }
  }

  lemma AdmittedPcs(s: State, t: Tid, lk: LockId, mine: NodeId)
    requires Pcs(s) && CanAdmit(s, t, lk, mine)
    ensures Pcs(Admitted(s, t, lk))
  {
    var s' := Admitted(s, t, lk);
    forall u | u in s'.th
      ensures PcOk(s', u)
    {
      assert PcOk(s, u);
      if u != t {
        PcFrame(s, s', u);
      }
    }
  }

  /** Nobody was admitted to this place before. */
  ghost predicate OrderBut(s: State, lk: LockId)
    requires lk in s.hist
  {
    var x := s.hist[lk];
    && |x.entered| == |x.slots|
    && (forall i :: 0 <= i < |x.slots| ==> x.slots[i] in s.node && x.entered[i] == s.node[x.slots[i]].owner)
    && x.acquired <= x.entered
    && |x.acquired| == x.served
  }

  lemma AdmittedOrder(s: State, t: Tid, lk: LockId, mine: NodeId)
    requires Nodes(s) && Slots(s) && CanAdmit(s, t, lk, mine)
    requires OrderBut(s, lk) && forall l :: l in s.hist && l != lk ==> OrderOk(s, l)
    ensures Order(Admitted(s, t, lk))
  {
    var s' := Admitted(s, t, lk);
    assert NodeOk(s, mine);
    forall l | l in s'.hist
      ensures OrderOk(s', l)
    {
      if l != lk {
        assert OrderOk(s, l);
        if Queued(s, l, s.hist[l].served) {
          assert SlotOk(s, l, s.hist[l].served);
        }
      }
    }
  }

  lemma InvAdmitted(s: State, t: Tid, lk: LockId, mine: NodeId)
    requires Nodes(s) && OneEach(s) && Tails(s) && Slots(s) && Pcs(s) && CanAdmit(s, t, lk, mine)
    requires OrderBut(s, lk) && forall l :: l in s.hist && l != lk ==> OrderOk(s, l)
    ensures Inv(Admitted(s, t, lk))
  {
    AdmittedRest(s, t, lk, mine);
    AdmittedSlots(s, t, lk, mine);
    AdmittedPcs(s, t, lk, mine);
    AdmittedOrder(s, t, lk, mine);
  }

  lemma EmptyOrder(s: State, t: Tid, lk: LockId, mine: NodeId)
    requires Nodes(s) && Slots(s) && Tails(s) && Order(s) && CanEnqueue(s, t, lk, mine, Idle)
    ensures var s' := Enqueued(s, t, lk, mine, Idle);
            OrderBut(s', lk) && forall l :: l in s'.hist && l != lk ==> OrderOk(s', l)
  {
    var s' := Enqueued(s, t, lk, mine, Idle);
    forall l | l in s'.hist && l != lk
      ensures OrderOk(s', l)
    {
      assert OrderOk(s, l);
      if Queued(s, l, s.hist[l].served) {
        assert SlotOk(s, l, s.hist[l].served);
      }
    }
    assert OrderOk(s, lk);
  }

  /** An empty queue admits at once. */
  lemma InvJoinEmpty(s: State, t: Tid, lk: LockId, mine: NodeId)
    requires Inv(s) && CanEnqueue(s, t, lk, mine, Idle)
    ensures Inv(Admitted(Enqueued(s, t, lk, mine, Idle), t, lk))
  {
    var s' := Enqueued(s, t, lk, mine, Idle);
    EnqueuedNodes(s, t, lk, mine, Idle);
    EnqueuedRest(s, t, lk, mine, Idle);
    EnqueuedSlots(s, t, lk, mine, Idle);
    EnqueuedPcs(s, t, lk, mine, Idle);
    EmptyOrder(s, t, lk, mine);
    InvAdmitted(s', t, lk, mine);
  }

  /** A spin that ends does so at the head of the queue. */
  lemma SpinEndsAtHead(s: State, t: Tid, lk: LockId, mine: NodeId)
    requires Inv(s) && t in s.th && s.th[t] == Spin(lk, mine) && mine in s.node && !s.node[mine].wait
    ensures CanAdmit(s, t, lk, mine) && OrderBut(s, lk)
  {
    assert PcOk(s, t);
    assert NodeOk(s, mine);
    assert SlotOk(s, lk, s.node[mine].turn.value);
    assert OrderOk(s, lk);
  }

  lemma InvEndSpin(s: State, t: Tid, lk: LockId, mine: NodeId)
    requires Inv(s) && t in s.th && s.th[t] == Spin(lk, mine) && mine in s.node && !s.node[mine].wait && lk in s.hist
    ensures Inv(Admitted(s, t, lk))
  {
    SpinEndsAtHead(s, t, lk, mine);
    InvAdmitted(s, t, lk, mine);
  }

  // ---- linking ----

  /** The predecessor found by the swap is still the queue's last but one, and unlinked. */
  lemma LinkPlace(s: State, t: Tid, lk: LockId, mine: NodeId, pred: NodeId)
    requires Inv(s) && t in s.th && s.th[t] == Link(lk, mine, pred)
    ensures Owns(s, t, lk, mine) && s.node[mine].turn.Some?
    ensures var i := s.node[mine].turn.value;
            && s.hist[lk].served < i < |s.hist[lk].slots| && s.hist[lk].slots[i] == mine
            && s.hist[lk].slots[i - 1] == pred && pred in s.node
            && s.node[pred].turn == Some(i - 1) && s.node[pred].lock == Some(lk) && s.node[pred].lockNext == None
  {
    assert PcOk(s, t);
    assert NodeOk(s, mine);
    var i := s.node[mine].turn.value;
    assert SlotOk(s, lk, i);
    assert SlotOk(s, lk, i - 1);
  }

  ghost predicate CanLink(s: State, t: Tid, lk: LockId, mine: NodeId, pred: NodeId) {
    && t in s.th && s.th[t] == Link(lk, mine, pred) && pred in s.node
    && Owns(s, t, lk, mine) && s.node[mine].turn.Some?
    && var i := s.node[mine].turn.value;
    && s.hist[lk].served < i < |s.hist[lk].slots| && s.hist[lk].slots[i] == mine && s.hist[lk].slots[i - 1] == pred
    && s.node[pred].turn == Some(i - 1) && s.node[pred].lock == Some(lk) && s.node[pred].lockNext == None
  }

  lemma LinkedRest(s: State, t: Tid, lk: LockId, mine: NodeId, pred: NodeId)
    requires Nodes(s) && OneEach(s) && Tails(s) && CanLink(s, t, lk, mine, pred)
    ensures var s' := Linked(s, t, lk, mine, pred); Nodes(s') && OneEach(s') && Tails(s')
  {
    var s' := Linked(s, t, lk, mine, pred);
    forall n | n in s'.node
      ensures NodeOk(s', n)
    {
      assert NodeOk(s, n);
    }
  }

  lemma LinkedSlots(s: State, t: Tid, lk: LockId, mine: NodeId, pred: NodeId)
    requires Slots(s) && CanLink(s, t, lk, mine, pred)
    ensures Slots(Linked(s, t, lk, mine, pred))
  {
    var s' := Linked(s, t, lk, mine, pred);
    forall l, i: nat | l in s'.hist && Queued(s', l, i)
      ensures SlotOk(s', l, i)
    {
      assert SlotOk(s, l, i);
      if i > s.hist[l].served {
        assert SlotOk(s, l, i - 1);
      }
    }
  }

  lemma LinkedPcs(s: State, t: Tid, lk: LockId, mine: NodeId, pred: NodeId)
    requires Pcs(s) && CanLink(s, t, lk, mine, pred) && NodeOk(s, pred)
    ensures Pcs(Linked(s, t, lk, mine, pred))
  {
    var s' := Linked(s, t, lk, mine, pred);
    forall u | u in s'.th
      ensures PcOk(s', u)
    {
      assert PcOk(s, u);
      if u != t {
        PcFrame(s, s', u);
      }
    }
  }

  lemma LinkedOrder(s: State, t: Tid, lk: LockId, mine: NodeId, pred: NodeId)
    requires Slots(s) && Order(s) && CanLink(s, t, lk, mine, pred)
    ensures Order(Linked(s, t, lk, mine, pred))
  {
    var s' := Linked(s, t, lk, mine, pred);
    forall l | l in s'.hist
      ensures OrderOk(s', l)
    {
      assert OrderOk(s, l);
      if Queued(s, l, s.hist[l].served) {
        assert SlotOk(s, l, s.hist[l].served);
      }
    }
  }

  lemma InvLinked(s: State, t: Tid, lk: LockId, mine: NodeId, pred: NodeId)
    requires Inv(s) && t in s.th && s.th[t] == Link(lk, mine, pred) && pred in s.node
    ensures Inv(Linked(s, t, lk, mine, pred))
  {
    LinkPlace(s, t, lk, mine, pred);
    LinkedRest(s, t, lk, mine, pred);
    LinkedSlots(s, t, lk, mine, pred);
    LinkedPcs(s, t, lk, mine, pred);
    LinkedOrder(s, t, lk, mine, pred);
  }

  // ---- passing the lock on ----

  ghost predicate CanRelease(s: State, t: Tid, lk: LockId, mine: NodeId, next: Option<NodeId>) {
    && t in s.th && (s.th[t].Cas? || s.th[t].Grant?) && Heads(s, t, lk, mine) && lk in s.tail
    && (next.Some? ==> HasNext(s, lk) && next.value in s.node && s.node[mine].lockNext == next
                       && next == Some(s.hist[lk].slots[s.hist[lk].served + 1]))
    && (next.None? ==> s.hist[lk].served + 1 == |s.hist[lk].slots|)
  }

  lemma ReleasedNodes(s: State, t: Tid, lk: LockId, mine: NodeId, next: Option<NodeId>)
    requires Nodes(s) && CanRelease(s, t, lk, mine, next)
    ensures Nodes(Released(s, t, lk, mine, next))
  {
    var s' := Released(s, t, lk, mine, next);
    assert NodeOk(s, mine);
    forall n | n in s'.node
      ensures NodeOk(s', n)
    {
      assert NodeOk(s, n);
    }
  }

  lemma ReleasedOneEach(s: State, t: Tid, lk: LockId, mine: NodeId, next: Option<NodeId>)
    requires OneEach(s) && CanRelease(s, t, lk, mine, next)
    ensures OneEach(Released(s, t, lk, mine, next))
  {
  }

  lemma ReleasedTails(s: State, t: Tid, lk: LockId, mine: NodeId, next: Option<NodeId>)
    requires Tails(s) && CanRelease(s, t, lk, mine, next)
    ensures Tails(Released(s, t, lk, mine, next))
  {
    var s' := Released(s, t, lk, mine, next);
    forall l | l in s'.hist
      ensures TailOk(s', l)
    {
      assert l in s.hist && TailOk(s, l);
    }
  }

  lemma ReleasedSlots(s: State, t: Tid, lk: LockId, mine: NodeId, next: Option<NodeId>)
    requires Slots(s) && CanRelease(s, t, lk, mine, next) && NodeOk(s, mine)
    ensures Slots(Released(s, t, lk, mine, next))
  {
    var s' := Released(s, t, lk, mine, next);
    assert SlotOk(s, lk, s.hist[lk].served);
    if next.Some? {
      assert SlotOk(s, lk, s.hist[lk].served + 1);
    }
    forall l, i: nat | l in s'.hist && Queued(s', l, i)
      ensures SlotOk(s', l, i)
    {
      assert SlotOk(s, l, i);
      if i > s.hist[l].served {
        assert SlotOk(s, l, i - 1);
      }
    }
  }

  lemma ReleasedPcs(s: State, t: Tid, lk: LockId, mine: NodeId, next: Option<NodeId>)
    requires Nodes(s) && Slots(s) && Pcs(s) && CanRelease(s, t, lk, mine, next)
    ensures Pcs(Released(s, t, lk, mine, next))
  {
    var s' := Released(s, t, lk, mine, next);
    assert NodeOk(s, mine);
    if next.Some? {
      assert SlotOk(s, lk, s.hist[lk].served + 1);
      assert NodeOk(s, next.value);
    }
    forall u | u in s'.th
      ensures PcOk(s', u)
    {
      assert PcOk(s, u);
      if u != t {
        forall n | Heads(s, u, lk, n)
          ensures n == mine
        {
          assert NodeOk(s, n);
        }
        PcFrame(s, s', u);
      }
    }
  }

  lemma ReleasedOrder(s: State, t: Tid, lk: LockId, mine: NodeId, next: Option<NodeId>)
    requires Nodes(s) && Slots(s) && Order(s) && CanRelease(s, t, lk, mine, next)
    ensures Order(Released(s, t, lk, mine, next))
  {
    var s' := Released(s, t, lk, mine, next);
    assert NodeOk(s, mine);
    if next.Some? {
      assert SlotOk(s, lk, s.hist[lk].served + 1);
    }
    forall l | l in s'.hist
      ensures OrderOk(s', l)
    {
      assert OrderOk(s, l);
      if Queued(s, l, s.hist[l].served) {
        assert SlotOk(s, l, s.hist[l].served);
      }
    }
  }

  lemma InvReleased(s: State, t: Tid, lk: LockId, mine: NodeId, next: Option<NodeId>)
    requires Inv(s) && CanRelease(s, t, lk, mine, next)
    ensures Inv(Released(s, t, lk, mine, next))
  {
    ReleasedNodes(s, t, lk, mine, next);
    ReleasedOneEach(s, t, lk, mine, next);
    ReleasedTails(s, t, lk, mine, next);
    ReleasedSlots(s, t, lk, mine, next);
    ReleasedPcs(s, t, lk, mine, next);
    ReleasedOrder(s, t, lk, mine, next);
  }

  // ---- back to the free list ----

  ghost predicate CanRecycle(s: State, t: Tid, lk: LockId, mine: NodeId) {
    t in s.th && s.th[t] == Dealloc(lk, mine) && Owns(s, t, lk, mine) && s.node[mine].turn.None?
  }

  lemma RecycledRest(s: State, t: Tid, lk: LockId, mine: NodeId)
    requires Nodes(s) && OneEach(s) && Tails(s) && CanRecycle(s, t, lk, mine)
    ensures var s' := Recycled(s, t, mine); Nodes(s') && OneEach(s') && Tails(s')
  {
    var s' := Recycled(s, t, mine);
    forall n | n in s'.node
      ensures NodeOk(s', n)
    {
      assert NodeOk(s, n);
    }
  }

  lemma RecycledSlots(s: State, t: Tid, lk: LockId, mine: NodeId)
    requires Slots(s) && CanRecycle(s, t, lk, mine)
    ensures Slots(Recycled(s, t, mine))
  {
    var s' := Recycled(s, t, mine);
    forall l, i: nat | l in s'.hist && Queued(s', l, i)
      ensures SlotOk(s', l, i)
    {
      assert SlotOk(s, l, i);
      if i > s.hist[l].served {
        assert SlotOk(s, l, i - 1);
      }
      SlotFrame(s, s', l, i);
    }
  }

  lemma RecycledPcs(s: State, t: Tid, lk: LockId, mine: NodeId)
    requires Pcs(s) && CanRecycle(s, t, lk, mine)
    ensures Pcs(Recycled(s, t, mine))
  {
    var s' := Recycled(s, t, mine);
    forall u | u in s'.th
      ensures PcOk(s', u)
    {
      assert PcOk(s, u);
      if u != t {
        PcFrame(s, s', u);
      }
    }
  }

  lemma RecycledOrder(s: State, t: Tid, lk: LockId, mine: NodeId)
    requires Slots(s) && Order(s) && CanRecycle(s, t, lk, mine)
    ensures Order(Recycled(s, t, mine))
  {
    var s' := Recycled(s, t, mine);
    forall l | l in s'.hist
      ensures OrderOk(s', l)
    {
      assert OrderOk(s, l);
      if Queued(s, l, s.hist[l].served) {
        assert SlotOk(s, l, s.hist[l].served);
      }
    }
  }

  lemma InvRecycled(s: State, t: Tid, lk: LockId, mine: NodeId)
    requires Inv(s) && CanRecycle(s, t, lk, mine)
    ensures Inv(Recycled(s, t, mine))
  {
    RecycledRest(s, t, lk, mine);
    RecycledSlots(s, t, lk, mine);
    RecycledPcs(s, t, lk, mine);
    RecycledOrder(s, t, lk, mine);
  }

  // ---- all steps, and all runs ----

  lemma InvSwap(s: State, e: Event)
    requires Inv(s) && Enabled(s, e) && e.SwapTail?
    ensures Inv(Step(s, e))
  {
    var p := s.th[e.t];
    assert PcOk(s, e.t);
    match s.tail[p.lk]
    case None =>
      assert forall n :: n in s.node && IsUsedFor(s, e.t, n, p.lk) ==> NodeOk(s, n);
      InvJoinEmpty(s, e.t, p.lk, p.mine);
    case Some(pred) =>
      if p.tries {
        InvTryFails(s, e);
      } else {
        InvJoinBehind(s, e.t, p.lk, p.mine, Link(p.lk, p.mine, pred));
      }
  }

  lemma InvCasTail(s: State, e: Event)
    requires Inv(s) && Enabled(s, e) && e.CasTail?
    ensures Inv(Step(s, e))
  {
    var p := s.th[e.t];
    assert PcOk(s, e.t);
    assert NodeOk(s, p.mine);
    if s.tail[p.lk] == Some(p.mine) {
      assert SlotOk(s, p.lk, |s.hist[p.lk].slots| - 1);
      InvReleased(s, e.t, p.lk, p.mine, None);
    } else {
      InvCasMisses(s, e);
    }
  }

  lemma InvCall(s: State, e: Event)
    requires Inv(s) && Enabled(s, e) && e.Call?
    ensures Inv(Step(s, e))
  {
    InvPrepared(s, e.t, e.lk, e.mine, e.tries, e.more);
  }

  lemma InvSpinStep(s: State, e: Event)
    requires Inv(s) && Enabled(s, e) && (e.LinkPred? || e.EndSpin?)
    ensures Inv(Step(s, e))
  {
    var p := s.th[e.t];
    if e.LinkPred? {
      InvLinked(s, e.t, p.lk, p.mine, p.pred);
    } else {
      InvEndSpin(s, e.t, p.lk, p.mine);
    }
  }

  lemma InvGrant(s: State, e: Event)
    requires Inv(s) && Enabled(s, e) && e.GrantNext?
    ensures Inv(Step(s, e))
  {
    var p := s.th[e.t];
    assert PcOk(s, e.t);
    InvReleased(s, e.t, p.lk, p.mine, s.node[p.mine].lockNext);
  }

  lemma InvRecycle(s: State, e: Event)
    requires Inv(s) && Enabled(s, e) && e.Recycle?
    ensures Inv(Step(s, e))
  {
    assert PcOk(s, e.t);
    InvRecycled(s, e.t, s.th[e.t].lk, s.th[e.t].mine);
  }

  lemma InvStep(s: State, e: Event)
    requires Inv(s) && Enabled(s, e)
    ensures Inv(Step(s, e))
  {
    match e
    case Call(_, _, _, _, _) => InvCall(s, e);
    case SwapTail(_) => InvSwap(s, e);
    case LinkPred(_) => InvSpinStep(s, e);
    case EndSpin(_) => InvSpinStep(s, e);
    case Unlock(_, _, _) => InvUnlock(s, e);
    case TestNext(_) => InvNextSeen(s, e);
    case CasTail(_) => InvCasTail(s, e);
    case SeeNext(_) => InvNextSeen(s, e);
    case GrantNext(_) => InvGrant(s, e);
    case Recycle(_) => InvRecycle(s, e);
  }

  lemma InvRun(threads: set<Tid>, locks: set<LockId>, es: seq<Event>, n: nat)
    requires n <= |es| && At(Start(threads, locks), es, n).Some?
    ensures Inv(At(Start(threads, locks), es, n).value)
  {
    InvStart(threads, locks);
    forall p, e | Inv(p) && Next(p, e).Some?
      ensures Inv(Next(p, e).value)
    {
      InvStep(p, e);
    }
    Runs.Kept(Next, Inv, Start(threads, locks), es, n);
  }
}
