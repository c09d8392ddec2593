/** What every run of the waits, signals and broadcasts of txcond.c guarantees: memory safety and
    reclamation of the waiter nodes, one wakeup per waiter, and the queue discipline of TxQueue. */
module TxNodeGuarantees {
  import opened Common
  import opened TxNodes
  import C = TxCondQueue
  import Q = TxQueue

  ghost predicate Reachable(s: State) {
    exists threads, es: seq<Event> :: At(Start(threads), es, |es|) == Some(s)
  }

  lemma ReachableInv(s: State)
    requires Reachable(s)
    ensures Inv(s)
  {
    var threads, es: seq<Event> :| At(Start(threads), es, |es|) == Some(s);
    InvRun(threads, es, |es|);
  }

  lemma {:induction false} RunPrefix(s: State, es: seq<Event>, e: Event, n: nat)
    requires n <= |es|
    ensures At(s, es + [e], n) == At(s, es, n)
  {
    if n > 0 {
      RunPrefix(s, es, e, n - 1);
    }
  }

  lemma RunAppend(s: State, es: seq<Event>, e: Event, m: State)
    requires At(s, es, |es|) == Some(m) && Enabled(m, e)
    ensures At(s, es + [e], |es + [e]|) == Some(Step(m, e))
  {
    RunPrefix(s, es, e, |es|);
  }

  /** Runs go on: every event that can happen in a state of a run leads to another such state. */
  lemma ReachableStep(s: State, e: Event)
    requires Reachable(s) && Enabled(s, e)
    ensures Reachable(Step(s, e))
  {
    var threads, es: seq<Event> :| At(Start(threads), es, |es|) == Some(s);
    RunAppend(Start(threads), es, e, s);
  }

  /** At first there are no nodes, the queue is empty, nothing has been drawn and nobody is in a call. */
  lemma StartReachable(threads: set<Tid>)
    ensures var s := Start(threads);
            && Reachable(s) && s.th.Keys == threads && s.heap == map[] && s.head == None && s.tail == None
            && s.lo == s.hi && s.cnt == 0 && forall t :: t in threads ==> s.th[t].Idle?
  {
    assert At(Start(threads), [], 0) == Some(Start(threads));
  }

  // ---------- memory ----------

  ghost predicate Live(s: State, n: NodeId) {
    n in s.heap && !s.heap[n].freed
  }

  /** The nodes at both ends of the queue are live, and so are their neighbours. */
  lemma EndsLive(s: State, n: NodeId)
    requires Inv(s) && n in HeadNodes(s) + TailNodes(s)
    ensures Live(s, n)
  {
    assert SlotOk(s, s.lo) && SlotOk(s, s.hi - 1);
    if s.lo + 1 < s.hi {
      assert SlotOk(s, s.lo + 1) && SlotOk(s, s.hi - 2);
    }
    assert NodeOk(s, n);
  }

  /** No step ever touches a node that is not allocated or that has been freed; in particular no
      node is freed twice. */
  lemma NoUseAfterFree(s: State, e: Event)
    requires Reachable(s) && Ready(s, e)
    ensures forall n :: n in Touches(s, e) ==> Live(s, n)
    ensures Enabled(s, e)
  {
    ReachableInv(s);
    forall n | n in Touches(s, e)
      ensures Live(s, n)
    {
      if n in HeadNodes(s) + TailNodes(s) {
        EndsLive(s, n);
      } else {
        OwnLive(s, e.t);
      }
    }
  }

  /** The node a thread is at is live. */
  lemma OwnLive(s: State, t: Tid)
    requires Inv(s) && t in s.th && !s.th[t].Idle?
    ensures Live(s, s.th[t].n)
  {
    var p := s.th[t];
    assert PcOk(s, t) && NodeOk(s, p.n);
    if WalkPlace(p) {
      assert WalkNode(s, t, p.walk, p.walk.k);
    }
  }

  ghost predicate AtRest(s: State) {
    s.head.None? && forall t :: t in s.th ==> s.th[t].Idle?
  }

  /** Once every call has returned and the queue is empty, no node is left allocated. */
  lemma NothingLeaks(s: State)
    requires Reachable(s) && AtRest(s)
    ensures forall n :: n in s.heap ==> s.heap[n].freed
  {
    ReachableInv(s);
    assert s.lo < s.hi ==> SlotOk(s, s.lo);
    forall n | n in s.heap
      ensures s.heap[n].freed
    {
      assert NodeOk(s, n);
    }
  }

  datatype Deed = Free | SemPost

  /** The event frees the node, or posts its semaphore. */
  ghost predicate Does(s: State, e: Event, deed: Deed, n: NodeId) {
    && e.Go? && e.t in s.th && Going(s.th[e.t]) && s.th[e.t].n == n
    && var p := s.th[e.t];
       match deed
       case Free => p.WaiterFree? || p.SignalFree? || p.AllFree?
       case SemPost => p.Post? || p.AllPost?
  }

  ghost function Times(s: State, es: seq<Event>, deed: Deed, n: NodeId, k: nat): nat
    requires k <= |es| && At(s, es, k).Some?
  {
    if k == 0 then 0
    else Times(s, es, deed, n, k - 1) + if Does(At(s, es, k - 1).value, es[k - 1], deed, n) then 1 else 0
  }

  /** What the node remembers of what was done to it. */
  ghost function Record(s: State, deed: Deed, n: NodeId): nat {
    if n !in s.heap then 0
    else
      match deed
      case Free => if s.heap[n].freed then 1 else 0
      case SemPost => s.heap[n].posts
  }

  lemma RecordStep(s: State, e: Event, deed: Deed, n: NodeId)
    requires Enabled(s, e) && (!s.th[e.t].Idle? ==> Live(s, s.th[e.t].n))
    ensures Record(Step(s, e), deed, n) == Record(s, deed, n) + if Does(s, e, deed, n) then 1 else 0
  {
    if e.Signal? && n in s.heap {
      assert n in Step(s, e).heap;
    }
  }

  lemma {:induction false} RecordRun(threads: set<Tid>, es: seq<Event>, deed: Deed, n: NodeId, k: nat)
    requires k <= |es| && At(Start(threads), es, k).Some?
    ensures Times(Start(threads), es, deed, n, k) == Record(At(Start(threads), es, k).value, deed, n)
  {
    if k > 0 {
      RecordRun(threads, es, deed, n, k - 1);
      var m := At(Start(threads), es, k - 1).value;
      InvRun(threads, es, k - 1);
      if !m.th[es[k - 1].t].Idle? {
        OwnLive(m, es[k - 1].t);
      }
      RecordStep(m, es[k - 1], deed, n);
    }
  }

  /** In every run each node is freed at most once and posted at most once; when everybody is done
      and the queue is empty, each node ever allocated has been posted once and freed once. */
  lemma FreedExactlyOnce(threads: set<Tid>, es: seq<Event>, n: NodeId)
    requires At(Start(threads), es, |es|).Some?
    ensures Times(Start(threads), es, Free, n, |es|) <= 1
    ensures Times(Start(threads), es, SemPost, n, |es|) <= 1
    ensures var s := At(Start(threads), es, |es|).value;
            AtRest(s) && n in s.heap ==>
              Times(Start(threads), es, Free, n, |es|) == 1 && Times(Start(threads), es, SemPost, n, |es|) == 1
  {
    var s := At(Start(threads), es, |es|).value;
    RecordRun(threads, es, Free, n, |es|);
    RecordRun(threads, es, SemPost, n, |es|);
    assert Reachable(s);
    ReachableInv(s);
    if n in s.heap {
      assert NodeOk(s, n);
    }
    if AtRest(s) {
      NothingLeaks(s);
    }
  }

  // ---------- the queue ----------

  /** The nodes in the queue, first to last. */
  ghost function Items(s: State): seq<NodeId>
    requires s.lo <= s.hi
  {
    seq(s.hi - s.lo, i requires 0 <= i => if s.lo + i in s.slots then s.slots[s.lo + i] else 0)
  }

  /** A node is in the queue exactly while nobody has begun to wake its waiter. */
  lemma Listed(s: State, w: NodeId)
    requires Nodes(s) && Line(s) && w in s.heap
    ensures w in Items(s) <==> s.heap[w].waker.Queued?
  {
    assert NodeOk(s, w);
    if s.heap[w].waker.Queued? {
      assert Items(s)[s.heap[w].waker.pos - s.lo] == w;
    }
    if w in Items(s) {
      var i :| 0 <= i < |Items(s)| && Items(s)[i] == w;
      assert SlotOk(s, s.lo + i);
    }
  }

  /** By the time a waiter gives up the user lock its node is in the queue, in one place only, or a
      waker has already taken it; so a wakeup sent after that cannot miss it. */
  lemma QueuedBeforeUnlock(s: State, t: Tid)
    requires Reachable(s) && t in s.th && s.th[t].Release?
    ensures Live(s, s.th[t].n) && Line(s)
    ensures s.th[t].n in Items(s) || s.heap[s.th[t].n].waker.Held? || s.heap[s.th[t].n].waker.Gone?
  {
    ReachableInv(s);
    OwnLive(s, t);
    assert PcOk(s, t);
    Listed(s, s.th[t].n);
  }

  /** What an event does to the queue. */
  ghost function OpOf(s: State, e: Event): Option<Q.Event>
    requires Enabled(s, e)
  {
    match e
    case Enqueue(t) => Some(Q.Wait(s.th[t].n))
    case Signal(_) => Some(Q.Signal)
    case Broadcast(_) => Some(Q.Broadcast)
    case _ => None
  }

  ghost function Abstract(s: State): Q.Queue
    requires s.lo <= s.hi
  {
    Q.Queue(Items(s), s.cnt)
  }

  /** The linked list does what the sequence does. */
  lemma QueueStep(s: State, e: Event)
    requires Line(s) && Enabled(s, e)
    ensures Step(s, e).lo <= Step(s, e).hi
    ensures Abstract(Step(s, e)) == match OpOf(s, e) case None => Abstract(s) case Some(op) => Q.Step(Abstract(s), op)
  {
    var s' := Step(s, e);
    match e
    case Enqueue(t) => assert Items(s') == Items(s) + [s.th[t].n];
    case Signal(_) =>
      assert s.lo < s.hi ==> SlotOk(s, s.lo) && SlotOk(s, s.hi - 1);
      assert Items(s') == Q.Popped(Items(s), Q.PicksHead(Q.Draw(s.cnt)));
    case Broadcast(_) =>
      assert s.lo < s.hi ==> SlotOk(s, s.lo);
      assert Items(s') == [];
    case _ => assert Items(s') == Items(s);
  }

  /** In every state of every run the locked part of a signal or a broadcast can be carried out, on a
      well-formed queue. */
  lemma QueueReady(s: State, e: Event)
    requires Reachable(s) && Ready(s, e)
    ensures Enabled(s, e) && Line(s)
  {
    NoUseAfterFree(s, e);
    ReachableLine(s);
  }

  /** A signal on a queue that is not empty puts the node that the draw picks into the hands of the
      signalling thread, which goes on to post it; on an empty queue it does nothing but draw. */
  lemma SignalTakes(s: State, t: Tid)
    requires Enabled(s, Signal(t)) && Line(s)
    ensures var s' := Step(s, Signal(t)); var items := Items(s);
            && s'.cnt == Q.Draw(s.cnt)
            && if items == [] then s'.th[t].Idle? && s'.heap == s.heap
               else
                 var n := if Q.PicksHead(s'.cnt) then items[0] else items[|items| - 1];
                 s'.th[t] == Post(n) && n in s'.heap && s'.heap[n].waker.Held? && s'.heap[n].waker.t == t
  {
    if Items(s) != [] {
      ItemAt(s, 0);
      ItemAt(s, |Items(s)| - 1);
      assert SlotOk(s, s.lo) && SlotOk(s, s.hi - 1);
    }
  }

  lemma ItemAt(s: State, i: nat)
    requires Line(s) && i < |Items(s)|
    ensures s.lo + i in s.slots && s.slots[s.lo + i] == Items(s)[i]
  {
    assert SlotOk(s, s.lo + i);
  }

  lemma LineTaken(s: State, t: Tid)
    requires Line(s) && Enabled(s, Broadcast(t)) && Items(s) != []
    ensures Step(s, Broadcast(t)).th[t] == AllPost(Items(s)[0], Walk(s.slots, s.lo, s.hi))
  {
    ItemAt(s, 0);
  }

  /** A broadcast takes the whole queue, and walks along it from the first node to the last; on an empty
      queue it does nothing. */
  lemma BroadcastTakes(s: State, t: Tid, i: nat)
    requires Enabled(s, Broadcast(t)) && Line(s)
    ensures Items(s) == [] ==> Step(s, Broadcast(t)) == s
    ensures Items(s) != [] ==>
      var p := Step(s, Broadcast(t)).th[t];
      && p.AllPost? && p.n == Items(s)[0] && p.walk.end - p.walk.k == |Items(s)|
      && (i < |Items(s)| ==> p.walk.k + i in p.walk.line && p.walk.line[p.walk.k + i] == Items(s)[i])
  {
    if Items(s) != [] {
      LineTaken(s, t);
      if i < |Items(s)| {
        ItemAt(s, i);
      }
    }
  }

  lemma ReachableLine(s: State)
    requires Reachable(s)
    ensures Line(s)
  {
    ReachableInv(s);
  }

  /** Who comes first in the race for a node leaves it to the other, who frees it.  A wait has timed out
      exactly when its thread came first after giving up, and the node's status then says so. */
  lemma RaceOutcome(s: State, t: Tid)
    requires Reachable(s) && t in s.th && Going(s.th[t])
    ensures Enabled(s, Go(t))
    ensures var p := s.th[t]; var s' := Step(s, Go(t)); var x, x' := s.heap[p.n], s'.heap[p.n];
            && (p.Took? || p.Expired? || p.Claim? || p.AllClaim? ==>
                  if x.status == C.WAITING then
                    && x'.status == (if p.Expired? then C.TIMEOUT else C.AWOKEN) && !x'.freed
                    && (s'.th[t].Idle? || p.AllClaim?)
                  else
                    && x' == x && s'.th[t].n == p.n
                    && (p.Took? || p.Expired? ==> s'.th[t].WaiterFree?)
                    && (p.Claim? ==> s'.th[t].SignalFree?) && (p.AllClaim? ==> s'.th[t].AllFree?))
            && (p.Post? || p.AllPost? ==> x'.sem == x.sem + 1 && x'.posts == 1 && s'.th[t].n == p.n)
            && (p.WaiterFree? || p.SignalFree? || p.AllFree? ==> x'.freed && !x.freed)
            && (p.WaiterFree? || p.SignalFree? ==> s'.th[t].Idle?)
  {
    NoUseAfterFree(s, Go(t));
    ReachablePc(s, t);
  }

  lemma ReachablePc(s: State, t: Tid)
    requires Reachable(s) && t in s.th
    ensures PcOk(s, t)
  {
    ReachableInv(s);
  }

  /** A broadcast done with one node goes on to the next in line, and is over after the last. */
  lemma WalkGoesOn(s: State, t: Tid)
    requires Reachable(s) && t in s.th
    requires s.th[t].AllFree? || (s.th[t].AllClaim? && s.th[t].n in s.heap && s.heap[s.th[t].n].status == C.WAITING)
    ensures Enabled(s, Go(t))
    ensures var w := s.th[t].walk; var q := Step(s, Go(t)).th[t];
            if w.k + 1 < w.end then w.k + 1 in w.line && q == AllPost(w.line[w.k + 1], w.(k := w.k + 1)) else q.Idle?
  {
    NoUseAfterFree(s, Go(t));
    ReachablePc(s, t);
    RestOfWalk(s, t);
  }

  lemma RestOfWalk(s: State, t: Tid)
    requires t in s.th && PcOk(s, t) && (s.th[t].AllClaim? || s.th[t].AllFree?)
    ensures var w := s.th[t].walk;
            if w.k + 1 < w.end then w.k + 1 in w.line && s.th[t].rest == Some(w.line[w.k + 1]) else s.th[t].rest == None
  {
    var w := s.th[t].walk;
    assert WalkNode(s, t, w, w.k);
    if w.k + 1 < w.end {
      assert WalkNode(s, t, w, w.k + 1);
    }
  }

  /** Every thread has a step to take, except that a sleeper without a deadline waits to be posted; and a
      posted sleeper can go on. */
  lemma ThreadsCanMove(s: State, t: Tid)
    requires Reachable(s) && t in s.th
    ensures match s.th[t]
            case Idle =>
              Enabled(s, Signal(t)) && Enabled(s, Broadcast(t)) && forall n :: n !in s.heap ==> Enabled(s, Alloc(t, n))
            case Enq(_) => Enabled(s, Enqueue(t))
            case Release(n) => Enabled(s, Unlock(t)) && Step(s, Unlock(t)).th[t] == Sleep(n)
            case Sleep(n) => Enabled(s, TimeOut(t)) && n in s.heap && (s.heap[n].posts == 1 <==> Enabled(s, SemWait(t)))
            case _ => Enabled(s, Go(t))
  {
    ReachablePc(s, t);
    match s.th[t]
    case Idle =>
      NoUseAfterFree(s, Signal(t));
    case Enq(_) => NoUseAfterFree(s, Enqueue(t));
    case Release(_) => NoUseAfterFree(s, Unlock(t));
    case Sleep(n) =>
      NoUseAfterFree(s, TimeOut(t));
      ReachableNode(s, n);
    case _ => NoUseAfterFree(s, Go(t));
  }

  lemma ReachableNode(s: State, n: NodeId)
    requires Reachable(s) && n in s.heap
    ensures NodeOk(s, n)
  {
    ReachableInv(s);
  }

  /** A wait allocates its node, enqueues it, gives up the user lock and sleeps; posted, or when it gives
      up, it goes to the race for its node. */
  lemma WaitGoes(s: State, t: Tid)
    requires t in s.th
    ensures forall n :: Enabled(s, Alloc(t, n)) ==>
      Step(s, Alloc(t, n)).th[t] == Enq(n) && Step(s, Alloc(t, n)).heap == s.heap[n := Made(t)]
    ensures Enabled(s, Enqueue(t)) ==> Step(s, Enqueue(t)).th[t] == Release(s.th[t].n)
    ensures Enabled(s, SemWait(t)) ==> Step(s, SemWait(t)).th[t] == Took(s.th[t].n)
    ensures Enabled(s, TimeOut(t)) ==> Step(s, TimeOut(t)).th[t] == Expired(s.th[t].n)
  {
  }

  /** The queue operations among the events from `i` to `n`. */
  ghost function Ops(s: State, es: seq<Event>, i: nat, n: nat): seq<Q.Event>
    requires i <= n <= |es| && At(s, es, n).Some?
    decreases n
  {
    if n == i then []
    else
      var m := At(s, es, n - 1).value;
      Ops(s, es, i, n - 1) + match OpOf(m, es[n - 1]) case None => [] case Some(op) => [op]
  }

  lemma {:induction false} AtPrefix(q: Q.Queue, ops: seq<Q.Event>, more: seq<Q.Event>, n: nat)
    requires n <= |ops|
    ensures Q.At(q, ops + more, n) == Q.At(q, ops, n)
  {
    if n > 0 {
      AtPrefix(q, ops, more, n - 1);
    }
  }

  lemma AtAppend(q: Q.Queue, ops: seq<Q.Event>, op: Q.Event)
    ensures Q.At(q, ops + [op], |ops + [op]|) == Q.Step(Q.At(q, ops, |ops|), op)
  {
    AtPrefix(q, ops, [op], |ops|);
  }

  ghost predicate Begins(s0: State) {
    exists threads :: s0 == Start(threads)
  }

  /** The first `n` events lead to `m`. */
  ghost predicate Leads(s0: State, es: seq<Event>, n: nat, m: State) {
    n <= |es| && At(s0, es, n) == Some(m)
  }

  ghost predicate Between(s0: State, es: seq<Event>, i: nat, n: nat, ops: seq<Q.Event>) {
    i <= n <= |es| && At(s0, es, n).Some? && ops == Ops(s0, es, i, n)
  }

  lemma RunState(s0: State, es: seq<Event>, n: nat, m: State)
    requires Begins(s0) && Leads(s0, es, n, m)
    ensures Inv(m)
  {
    var threads :| s0 == Start(threads);
    InvRun(threads, es, n);
  }

  lemma RunLine(s0: State, es: seq<Event>, n: nat, m: State)
    requires Begins(s0) && Leads(s0, es, n, m)
    ensures Line(m)
  {
    RunState(s0, es, n, m);
  }

  /** What one event adds to the operations. */
  ghost function OpSeq(s: State, e: Event): seq<Q.Event>
    requires Enabled(s, e)
  {
    match OpOf(s, e) case None => [] case Some(op) => [op]
  }

  lemma NoneBetween(s0: State, es: seq<Event>, i: nat, a: State, m: State, ops: seq<Q.Event>)
    requires Leads(s0, es, i, a) && Leads(s0, es, i, m) && Between(s0, es, i, i, ops)
    ensures a == m && ops == []
  {
  }

  /** The last step of a run, and the operations before it. */
  lemma LastStep(s0: State, es: seq<Event>, i: nat, n: nat, m: State, ops: seq<Q.Event>)
    returns (k: nat, p: State, before: seq<Q.Event>)
    requires i < n && Leads(s0, es, n, m) && Between(s0, es, i, n, ops)
    ensures k + 1 == n && Leads(s0, es, k, p) && Enabled(p, es[k]) && m == Step(p, es[k])
    ensures Between(s0, es, i, k, before) && ops == before + OpSeq(p, es[k])
  {
    k := n - 1;
    p := AtLast(s0, es, n, m);
    before := Ops(s0, es, i, n - 1);
  }

  lemma QueueMoves(s: State, e: Event, q: Q.Queue, ops: seq<Q.Event>)
    requires Line(s) && Enabled(s, e) && Abstract(s) == Q.At(q, ops, |ops|)
    ensures Step(s, e).lo <= Step(s, e).hi
    ensures var all := ops + OpSeq(s, e); Abstract(Step(s, e)) == Q.At(q, all, |all|)
  {
    QueueStep(s, e);
    if OpOf(s, e).Some? {
      AtAppend(q, ops, OpOf(s, e).value);
    } else {
      assert ops + OpSeq(s, e) == ops;
    }
  }

  /** Between any two moments of a run the pointers and links of the condvar carry out, on one finite
      sequence, exactly the appends and removals of the events in between. */
  lemma {:induction false} QueueRefined(
      s0: State, es: seq<Event>, i: nat, a: State, n: nat, m: State, ops: seq<Q.Event>)
    requires Begins(s0) && Leads(s0, es, i, a) && Leads(s0, es, n, m) && Between(s0, es, i, n, ops)
    ensures Line(a) && Line(m) && Abstract(m) == Q.At(Abstract(a), ops, |ops|)
    decreases n
  {
    RunLine(s0, es, i, a);
    RunLine(s0, es, n, m);
    if i < n {
      var k, p, before := LastStep(s0, es, i, n, m, ops);
      QueueRefined(s0, es, i, a, k, p, before);
      QueueMoves(p, es[k], Abstract(a), before);
    } else {
      NoneBetween(s0, es, i, a, m, ops);
    }
  }

  /** What a broadcast has still to wake is live and untouched, and linked in the order of the queue it
      took, however far ahead of it the waiters run. */
  lemma WalkIntact(s: State, t: Tid, i: int)
    requires Reachable(s) && t in s.th && WalkPlace(s.th[t]) && s.th[t].walk.k <= i < s.th[t].walk.end
    ensures var w := s.th[t].walk;
            && i in w.line && Live(s, w.line[i])
            && (i == w.k ==> w.line[i] == s.th[t].n)
            && (i > w.k ==> s.heap[w.line[i]].posts == 0)
            && (i + 1 < w.end ==> i + 1 in w.line && s.heap[w.line[i]].next == Some(w.line[i + 1]))
            && (i + 1 == w.end ==> s.heap[w.line[i]].next == None)
  {
    ReachableInv(s);
    var w := s.th[t].walk;
    assert PcOk(s, t) && WalkNode(s, t, w, i) && NodeOk(s, w.line[i]);
    if i + 1 < w.end {
      assert WalkNode(s, t, w, i + 1);
    }
  }

  // ---------- nobody starves ----------

  ghost predicate BeenQueued(s: State, w: NodeId) {
    w in s.heap && !s.heap[w].waker.Fresh?
  }

  lemma RunMover(s0: State, es: seq<Event>, n: nat, m: State, e: Event)
    requires Begins(s0) && Leads(s0, es, n, m) && Enabled(m, e)
    ensures PcOk(m, e.t)
  {
    RunState(s0, es, n, m);
  }

  /** A node that has been in the queue is never put there again. */
  lemma {:induction false} NeverAgain(
      s0: State, es: seq<Event>, w: NodeId, i: nat, a: State, n: nat, m: State, ops: seq<Q.Event>)
    requires Begins(s0) && Leads(s0, es, i, a) && Leads(s0, es, n, m) && Between(s0, es, i, n, ops)
    requires BeenQueued(a, w)
    ensures BeenQueued(m, w) && Q.Wait(w) !in ops
    decreases n
  {
    if i < n {
      var k, p, before := LastStep(s0, es, i, n, m, ops);
      NeverAgain(s0, es, w, i, a, k, p, before);
      RunMover(s0, es, k, p, es[k]);
      StaysOld(p, es[k], w);
    } else {
      NoneBetween(s0, es, i, a, m, ops);
    }
  }

  lemma StaysOld(s: State, e: Event, w: NodeId)
    requires Enabled(s, e) && PcOk(s, e.t) && BeenQueued(s, w)
    ensures BeenQueued(Step(s, e), w)
    ensures Q.Wait(w) !in OpSeq(s, e)
  {
  }

  lemma StandsOnce(s: State, p: nat)
    requires Inv(s) && p < |Items(s)|
    ensures Q.StandsAt(Abstract(s), Items(s)[p], p)
    ensures Items(s)[p] in s.heap && s.heap[Items(s)[p]].waker == Queued(s.lo + p)
  {
    assert SlotOk(s, s.lo + p);
    forall j | 0 <= j < |Items(s)| && j != p
      ensures Items(s)[j] != Items(s)[p]
    {
      assert SlotOk(s, s.lo + j);
    }
  }

  /** In every run a waiter with `p` others before it is taken off the queue, to be posted by whoever
      took it, within (p + 1) * 2^32 signals, whatever else happens meanwhile. */
  lemma EveryWaiterServed(
      s0: State, es: seq<Event>, p: nat, i: nat, a: State, n: nat, m: State, ops: seq<Q.Event>)
    requires Begins(s0) && Leads(s0, es, i, a) && Leads(s0, es, n, m) && Between(s0, es, i, n, ops)
    requires a.lo <= a.hi && p < |Items(a)| && Q.Signals(ops, |ops|) >= (p + 1) * TWO32
    ensures var w := Items(a)[p]; w in m.heap && (m.heap[w].waker.Held? || m.heap[w].waker.Gone?)
  {
    var w := Items(a)[p];
    RunState(s0, es, i, a);
    StandsOnce(a, p);
    NeverAgain(s0, es, w, i, a, n, m, ops);
    QueueRefined(s0, es, i, a, n, m, ops);
    Q.NobodyStarves(Abstract(a), ops, w, p, |ops|);
    RunState(s0, es, n, m);
    Listed(m, w);
  }
}
