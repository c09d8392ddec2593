/** What users of the MCS lock of txlock.c may rely on, for every run of any number of threads on any
    number of locks. */
module McsGuarantees {
  import opened Common
  import opened McsProtocol
  import Runs

  ghost predicate Reachable(s: State) {
    exists threads, locks, es: seq<Event> :: At(Start(threads, locks), es, |es|) == Some(s)
  }

  lemma ReachableInv(s: State)
    requires Reachable(s)
    ensures Inv(s)
  {
    var threads, locks, es: seq<Event> :| At(Start(threads, locks), es, |es|) == Some(s);
    InvRun(threads, locks, es, |es|);
  }

  /** At first there are no nodes, every queue is empty and nobody is in a call. */
  lemma StartReachable(threads: set<Tid>, locks: set<LockId>)
    ensures var s := Start(threads, locks);
            && Reachable(s) && s.th.Keys == threads && s.tail.Keys == locks && s.node == map[]
            && (forall t :: t in threads ==> s.th[t].Idle?) && (forall lk :: lk in locks ==> s.tail[lk] == None)
  {
    assert At(Start(threads, locks), [], 0) == Some(Start(threads, locks));
  }

  /** Runs go on: every event that can happen in a state of a run leads to another such state. */
  lemma ReachableStep(s: State, e: Event)
    requires Reachable(s) && Enabled(s, e)
    ensures Reachable(Step(s, e))
  {
    var threads, locks, es: seq<Event> :| At(Start(threads, locks), es, |es|) == Some(s);
    Runs.AtAppend(Next, Start(threads, locks), es, e, s);
  }

  // One instance of the invariant at a time.

  lemma ReachableNode(s: State, n: NodeId)
    requires Reachable(s) && n in s.node
    ensures NodeOk(s, n)
  {
    ReachableInv(s);
  }

  lemma ReachableSlot(s: State, lk: LockId, i: nat)
    requires Reachable(s) && lk in s.hist && Queued(s, lk, i)
    ensures SlotOk(s, lk, i)
  {
    ReachableInv(s);
  }

  lemma ReachablePc(s: State, t: Tid)
    requires Reachable(s) && t in s.th
    ensures PcOk(s, t)
  {
    ReachableInv(s);
  }

  lemma TailAt(s: State, lk: LockId)
    requires Tails(s)
    ensures lk in s.tail <==> lk in s.hist
    ensures lk in s.hist ==>
      var x := s.hist[lk];
      && x.served <= |x.slots|
      && s.tail[lk] == if x.served < |x.slots| then Some(x.slots[|x.slots| - 1]) else None
  {
  }

  lemma ReachableTail(s: State, lk: LockId)
    requires Reachable(s)
    ensures lk in s.tail <==> lk in s.hist
    ensures lk in s.hist ==>
      var x := s.hist[lk];
      && x.served <= |x.slots|
      && s.tail[lk] == if x.served < |x.slots| then Some(x.slots[|x.slots| - 1]) else None
  {
    ReachableInv(s);
    TailAt(s, lk);
  }

  /** The thread has a node enqueued for the lock, and is neither on its way in nor already out. */
  ghost predicate Holds(s: State, t: Tid, lk: LockId, n: NodeId) {
    IsUsedFor(s, t, n, lk) && t in s.th && !Behind(s.th[t], n) && s.th[t] != Dealloc(lk, n)
  }

  lemma HolderHeads(s: State, t: Tid, lk: LockId, n: NodeId)
    requires Reachable(s) && Holds(s, t, lk, n)
    ensures lk in s.hist && Queued(s, lk, s.hist[lk].served) && s.hist[lk].slots[s.hist[lk].served] == n
  {
    ReachableNode(s, n);
    ReachableSlot(s, lk, s.node[n].turn.value);
  }

  /** At most one thread holds a lock, through one node. */
  lemma MutualExclusion(s: State, lk: LockId, t: Tid, n: NodeId, u: Tid, m: NodeId)
    requires Reachable(s) && Holds(s, t, lk, n) && Holds(s, u, lk, m)
    ensures t == u && n == m
  {
    HolderHeads(s, t, lk, n);
    HolderHeads(s, u, lk, m);
  }

  /** Threads get the lock in the order of their swaps on `tail`; the queue is those that have
      swapped and not yet passed the lock on. */
  lemma FirstComeFirstServed(s: State, lk: LockId)
    requires Reachable(s) && lk in s.hist
    ensures s.hist[lk].acquired <= s.hist[lk].entered
    ensures s.hist[lk].served <= |s.hist[lk].acquired| <= s.hist[lk].served + 1
    ensures lk in s.tail && (s.tail[lk] == None <==> s.hist[lk].served == |s.hist[lk].entered|)
  {
    ReachableInv(s);
    assert OrderOk(s, lk);
  }

  lemma ReachableLink(s: State, t: Tid)
    requires Reachable(s) && t in s.th && s.th[t].Link?
    ensures var p := s.th[t];
            && Owns(s, t, p.lk, p.mine) && p.pred in s.node && NodeOk(s, p.pred)
            && s.node[p.pred].lock == Some(p.lk) && s.node[p.pred].lockNext == None
            && s.node[p.pred].turn.Some? && s.node[p.mine].turn == Some(s.node[p.pred].turn.value + 1)
  {
    ReachableInv(s);
    LinkPlace(s, t, s.th[t].lk, s.th[t].mine, s.th[t].pred);
  }

  /** No step dereferences a node that is not there. */
  lemma NoDanglingNode(s: State, t: Tid)
    requires Reachable(s) && t in s.th
    ensures PlaceOk(s, s.th[t])
  {
    var p := s.th[t];
    if !p.Idle? {
      ReachablePlace(s, t);
    }
    if p.Link? {
      ReachableLink(s, t);
    } else if p.Grant? {
      ReachableGrant(s, t);
    }
  }

  lemma ReachablePlace(s: State, t: Tid)
    requires Reachable(s) && t in s.th && !s.th[t].Idle?
    ensures var p := s.th[t]; p.lk in s.tail && p.lk in s.hist && p.mine in s.node
  {
    ReachablePc(s, t);
    ReachableTail(s, s.th[t].lk);
  }

  lemma ReachableGrant(s: State, t: Tid)
    requires Reachable(s) && t in s.th && s.th[t].Grant? && s.th[t].mine in s.node
    ensures var next := s.node[s.th[t].mine].lockNext; next.Some? && next.value in s.node
  {
    ReachablePc(s, t);
    ReachableSlot(s, s.th[t].lk, s.hist[s.th[t].lk].served + 1);
  }

  /** The store to the predecessor hits the node just ahead in the same queue, not yet linked to
      anyone, although nodes are reused for any lock. */
  lemma LinkHitsPredecessor(s: State, t: Tid)
    requires Reachable(s) && t in s.th && s.th[t].Link?
    ensures var p := s.th[t];
            && IsUsedFor(s, t, p.mine, p.lk) && p.pred in s.node && s.node[p.pred].used
            && s.node[p.pred].lock == Some(p.lk) && s.node[p.pred].lockNext == None
            && s.node[p.pred].turn.Some? && s.node[p.mine].turn == Some(s.node[p.pred].turn.value + 1)
  {
    ReachableLink(s, t);
  }

  /** The node in the slot behind a holder's: its thread spins on it, or is about to link itself. */
  ghost predicate Follows(s: State, lk: LockId, mine: NodeId, next: NodeId) {
    && mine in s.node && next in s.node && s.node[next].owner in s.th && s.node[next].wait
    && s.node[mine].turn.Some? && s.node[next].turn == Some(s.node[mine].turn.value + 1)
    && (|| (s.node[mine].lockNext == Some(next) && s.th[s.node[next].owner] == Spin(lk, next))
        || (s.node[mine].lockNext == None && s.th[s.node[next].owner] == Link(lk, next, mine)))
  }

  lemma NextFollows(s: State, t: Tid, lk: LockId, mine: NodeId)
    requires Reachable(s) && Heads(s, t, lk, mine) && HasNext(s, lk)
    ensures Follows(s, lk, mine, s.hist[lk].slots[s.hist[lk].served + 1])
  {
    ReachableNode(s, mine);
    ReachableSlot(s, lk, s.hist[lk].served + 1);
  }

  /** The store that ends a spin hits the immediate successor, whose thread is spinning for this very
      lock. */
  lemma GrantHitsSuccessor(s: State, t: Tid)
    requires Reachable(s) && t in s.th && s.th[t].Grant?
    ensures var p := s.th[t];
            && p.mine in s.node && s.node[p.mine].lockNext.Some?
            && Follows(s, p.lk, p.mine, s.node[p.mine].lockNext.value)
  {
    ReachablePc(s, t);
    NextFollows(s, t, s.th[t].lk, s.th[t].mine);
  }

  /** A releasing thread that waits for a successor has one that is about to link itself or has. */
  lemma AwaitIsAnswered(s: State, t: Tid)
    requires Reachable(s) && t in s.th && s.th[t].Await?
    ensures exists next :: Follows(s, s.th[t].lk, s.th[t].mine, next)
  {
    ReachablePc(s, t);
    NextFollows(s, t, s.th[t].lk, s.th[t].mine);
  }

  /** Whoever heads a queue either holds the lock or can leave its spin at once. */
  lemma HeadIsNotStuck(s: State, lk: LockId)
    requires Reachable(s) && lk in s.hist && Queued(s, lk, s.hist[lk].served)
    ensures var n := s.hist[lk].slots[s.hist[lk].served];
            n in s.node && (Holds(s, s.node[n].owner, lk, n) || Enabled(s, EndSpin(s.node[n].owner)))
  {
    var n := s.hist[lk].slots[s.hist[lk].served];
    ReachableTail(s, lk);
    ReachableSlot(s, lk, s.hist[lk].served);
    ReachableNode(s, n);
    ReachablePc(s, s.node[n].owner);
  }

  /** Trylock succeeds exactly on an empty queue, and then holds the lock. */
  lemma TryLockNeedsEmptyQueue(s: State, t: Tid)
    requires Reachable(s) && Enabled(s, SwapTail(t)) && s.th[t].tries
    ensures var p := s.th[t]; var s' := Step(s, SwapTail(t));
            && (Holds(s', t, p.lk, p.mine) <==> s.hist[p.lk].served == |s.hist[p.lk].slots|)
            && (!Holds(s', t, p.lk, p.mine) ==> s' == Moved(s, t, Idle))
  {
    ReachablePc(s, t);
    ReachableTail(s, s.th[t].lk);
  }

  /** Without recursion the search in unlock has one answer. */
  lemma UnlockFindsOne(s: State, t: Tid, lk: LockId, n: NodeId, m: NodeId)
    requires Reachable(s) && IsUsedFor(s, t, n, lk) && IsUsedFor(s, t, m, lk)
    ensures n == m
  {
    ReachableInv(s);
  }

  // ---------- passing the lock on ----------

  lemma NextSpins(s: State, t: Tid)
    requires Reachable(s) && t in s.th && s.th[t].Grant?
    ensures Enabled(s, GrantNext(t))
    ensures var p := s.th[t]; var next := s.node[p.mine].lockNext.value; var u := s.node[next].owner;
            && p.lk in s.hist && Heads(s, t, p.lk, p.mine) && next != p.mine
            && IsUsedFor(s, u, next, p.lk) && u in s.th && s.th[u] == Spin(p.lk, next)
  {
    var p := s.th[t];
    GrantHitsSuccessor(s, t);
    NoDanglingNode(s, t);
    ReachablePc(s, t);
    ReachableNode(s, s.node[p.mine].lockNext.value);
    ReachableSlot(s, p.lk, s.hist[p.lk].served + 1);
  }

  /** A release that finds its successor linked serves one more place, and its own thread no longer holds
      the lock. */
  lemma GrantServes(s: State, t: Tid)
    requires Reachable(s) && t in s.th && s.th[t].Grant?
    ensures Enabled(s, GrantNext(t))
    ensures var p := s.th[t]; var s' := Step(s, GrantNext(t));
            && p.lk in s'.hist && s'.hist[p.lk] == Served(s.hist[p.lk]) && s'.tail == s.tail
            && s'.th[t] == Dealloc(p.lk, p.mine) && !Holds(s', t, p.lk, p.mine)
  {
    NextSpins(s, t);
  }

  /** The successor's spin can then end at once, and its thread holds the lock. */
  lemma GrantLetsIn(s: State, t: Tid)
    requires Reachable(s) && t in s.th && s.th[t].Grant?
    ensures Enabled(s, GrantNext(t)) && s.node[s.th[t].mine].lockNext.value in s.node
    ensures var lk := s.th[t].lk; var next := s.node[s.th[t].mine].lockNext.value; var u := s.node[next].owner;
            var s' := Step(s, GrantNext(t));
            Enabled(s', EndSpin(u)) && Holds(Step(s', EndSpin(u)), u, lk, next)
  {
    NextSpins(s, t);
  }

  /** A release that finds nobody behind it empties the queue; if somebody has come it waits for the
      link, and changes nothing else. */
  lemma CasServesOrWaits(s: State, t: Tid)
    requires Reachable(s) && t in s.th && s.th[t].Cas?
    ensures Enabled(s, CasTail(t))
    ensures var p := s.th[t]; var s' := Step(s, CasTail(t));
            if s.hist[p.lk].served + 1 == |s.hist[p.lk].slots| then
              && s'.hist[p.lk] == Served(s.hist[p.lk]) && s'.tail[p.lk] == None
              && s'.th[t] == Dealloc(p.lk, p.mine) && !Holds(s', t, p.lk, p.mine)
            else s' == Moved(s, t, Await(p.lk, p.mine))
  {
    ReachablePc(s, t);
    NoDanglingNode(s, t);
    ReachableTail(s, s.th[t].lk);
    ReachableNode(s, s.th[t].mine);
    ReachableSlot(s, s.th[t].lk, |s.hist[s.th[t].lk].slots| - 1);
  }

  /** The node goes back to its thread's free list, blank but for the lock it last served. */
  lemma RecycleFrees(s: State, t: Tid)
    requires Reachable(s) && t in s.th && s.th[t].Dealloc?
    ensures Enabled(s, Recycle(t))
    ensures var p := s.th[t]; var s' := Step(s, Recycle(t));
            s'.th[t].Idle? && IsFree(s', t, p.mine) && s'.node[p.mine].lockNext == None && s'.hist == s.hist
  {
    ReachablePc(s, t);
    NoDanglingNode(s, t);
  }

  /** The rest of unlock: it looks for its successor, and goes on as soon as that is linked. */
  lemma UnlockLooks(s: State, t: Tid, lk: LockId, n: NodeId)
    requires Reachable(s) && t in s.th
    ensures s.th[t].Idle? && IsUsedFor(s, t, n, lk) ==>
      Enabled(s, Unlock(t, lk, n)) && Step(s, Unlock(t, lk, n)) == Moved(s, t, Test(lk, n))
    ensures s.th[t].Test? ==>
      && Enabled(s, TestNext(t))
      && Step(s, TestNext(t)) ==
         Moved(s, t, if s.node[s.th[t].mine].lockNext == None then Cas(s.th[t].lk, s.th[t].mine)
                     else Grant(s.th[t].lk, s.th[t].mine))
    ensures s.th[t].Await? ==>
      && s.th[t].mine in s.node
      && (s.node[s.th[t].mine].lockNext.Some? ==>
            Enabled(s, SeeNext(t)) && Step(s, SeeNext(t)) == Moved(s, t, Grant(s.th[t].lk, s.th[t].mine)))
  {
    NoDanglingNode(s, t);
    if s.th[t].Idle? && IsUsedFor(s, t, n, lk) {
      ReachableNode(s, n);
      ReachableTail(s, lk);
    }
  }

  /** A call goes through: it can always be made with a free node, and joins the queue, or is over at
      once when a trylock finds the queue occupied. */
  lemma CallJoins(s: State, t: Tid, lk: LockId, mine: NodeId, tries: bool)
    requires Reachable(s) && t in s.th && lk in s.tail
    ensures s.th[t].Idle? && IsFree(s, t, mine) && (tries || forall n :: n in s.node ==> !IsUsedFor(s, t, n, lk)) ==>
      && Enabled(s, Call(t, lk, mine, tries, {}))
      && Step(s, Call(t, lk, mine, tries, {})).th[t] == Swap(lk, mine, tries)
    ensures s.th[t].Swap? && !s.th[t].tries ==>
      && Enabled(s, SwapTail(t))
      && var p := s.th[t]; var s' := Step(s, SwapTail(t));
         && s'.tail[p.lk] == Some(p.mine) && IsUsedFor(s', t, p.mine, p.lk)
         && s'.hist[p.lk].entered == s.hist[p.lk].entered + [t]
         && s'.th[t] == if s.tail[p.lk].None? then Idle else Link(p.lk, p.mine, s.tail[p.lk].value)
    ensures s.th[t].Link? ==> Enabled(s, LinkPred(t)) && Step(s, LinkPred(t)).th[t] == Spin(s.th[t].lk, s.th[t].mine)
  {
    NoDanglingNode(s, t);
    ReachablePc(s, t);
    ReachableTail(s, lk);
    if !s.th[t].Idle? {
      ReachableTail(s, s.th[t].lk);
    }
  }

  /** A thread without a free node gets eight new ones, all free until the swap succeeds. */
  lemma CallAllocates(s: State, t: Tid, lk: LockId, mine: NodeId, tries: bool, more: set<NodeId>)
    requires Reachable(s) && t in s.th && lk in s.tail && s.th[t].Idle?
    requires tries || forall n :: n in s.node ==> !IsUsedFor(s, t, n, lk)
    requires (forall n :: n in s.node ==> !IsFree(s, t, n)) && |more| == 8 && mine in more && more !! s.node.Keys
    ensures Enabled(s, Call(t, lk, mine, tries, more))
    ensures var s' := Step(s, Call(t, lk, mine, tries, more));
            && s'.th[t] == Swap(lk, mine, tries) && s'.tail == s.tail
            && forall n :: IsFree(s', t, n) <==> n in more
  {
    ReachableTail(s, lk);
  }
}
