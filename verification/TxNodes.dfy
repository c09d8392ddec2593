/** Who owns a waiter node of txcond.c, and when it is freed: any number of threads waiting (with and
    without a deadline), signalling and broadcasting.  Code under the queue lock is one step; every
    other access to a node is a step of its own. */
module TxNodes {
  import opened Common
  import Q = TxQueue
  import C = TxCondQueue

  type NodeId = nat

  /** Who is going to wake the node's waiter. */
  datatype Waker = Fresh | Queued(pos: int) | Held(t: Tid, pos: int) | Gone

  /** `waiter`, `waker` and `posts` record who still refers to the node and how often it was posted;
      no step tests them. */
  datatype Node = Node(
    next: Option<NodeId>, prev: Option<NodeId>, sem: nat, status: C.Status, freed: bool,
    waiter: Option<Tid>, waker: Waker, posts: nat)

  /** A broadcaster's walk is at the node in place `k` of `line`, which ends before `end`. */
  datatype Walk = Walk(line: map<int, NodeId>, k: int, end: int)

  datatype Pc =
    | Idle
    | Enq(n: NodeId)
    | Release(n: NodeId)
    | Sleep(n: NodeId)
    | Took(n: NodeId)
    | Expired(n: NodeId)
    | WaiterFree(n: NodeId)
    | Post(n: NodeId)
    | Claim(n: NodeId)
    | SignalFree(n: NodeId)
    | AllPost(n: NodeId, walk: Walk)
    | AllNext(n: NodeId, walk: Walk)
    | AllClaim(n: NodeId, rest: Option<NodeId>, walk: Walk)
    | AllFree(n: NodeId, rest: Option<NodeId>, walk: Walk)

  /** The queue holds the nodes in places `lo` to `hi` of `slots`; only `head`, `tail` and the links
      in the nodes are really there. */
  datatype State = State(
    head: Option<NodeId>, tail: Option<NodeId>, cnt: nat, heap: map<NodeId, Node>, th: map<Tid, Pc>,
    slots: map<int, NodeId>, lo: int, hi: int)

  datatype Event =
    | Alloc(t: Tid, n: NodeId)
    | Enqueue(t: Tid)
    | Unlock(t: Tid)
    | SemWait(t: Tid)
    | TimeOut(t: Tid)
    | Go(t: Tid)
    | Signal(t: Tid)
    | Broadcast(t: Tid)

  ghost function Made(t: Tid): Node {
    Node(None, None, 0, C.WAITING, false, Some(t), Fresh, 0)
  }

  /** Places where the thread's next step is on its node alone. */
  ghost predicate Going(p: Pc) {
    !p.Idle? && !p.Enq? && !p.Release? && !p.Sleep?
  }

  /** The thread is at the place where the event happens. */
  ghost predicate Ready(s: State, e: Event) {
    e.t in s.th &&
    var p := s.th[e.t];
    match e
    case Alloc(_, n) => p.Idle? && n !in s.heap
    case Enqueue(_) => p.Enq?
    case Unlock(_) => p.Release?
    case SemWait(_) => p.Sleep? && (p.n in s.heap ==> s.heap[p.n].sem > 0)
    case TimeOut(_) => p.Sleep?
    case Go(_) => Going(p)
    case Signal(_) => p.Idle?
    case Broadcast(_) => p.Idle?
  }

  ghost function OneOf(n: Option<NodeId>): set<NodeId> {
    match n
    case None => {}
    case Some(m) => {m}
  }

  /** The nodes whose memory the event reads or writes. */
  ghost function Touches(s: State, e: Event): set<NodeId>
    requires Ready(s, e)
  {
    var p := s.th[e.t];
    match e
    case Alloc(_, n) => {}
    case Enqueue(_) => {p.n} + OneOf(s.tail)
    case Unlock(_) => {p.n}
    case SemWait(_) => {p.n}
    case TimeOut(_) => {p.n}
    case Go(_) => {p.n}
    case Signal(_) => if Q.PicksHead(Q.Draw(s.cnt)) then HeadNodes(s) else TailNodes(s)
    case Broadcast(_) => {}
  }

  /** The nodes in the hands of a signal that takes the first, and of one that takes the last. */
  ghost function HeadNodes(s: State): set<NodeId> {
    OneOf(s.head) + if s.head.Some? && s.head.value in s.heap then OneOf(s.heap[s.head.value].next) else {}
  }

  ghost function TailNodes(s: State): set<NodeId> {
    OneOf(s.tail) + if s.tail.Some? && s.tail.value in s.heap then OneOf(s.heap[s.tail.value].prev) else {}
  }

  /** An event can happen as long as the memory it needs has ever been allocated. */
  ghost predicate Enabled(s: State, e: Event) {
    Ready(s, e) && Touches(s, e) <= s.heap.Keys
  }

  // ---------- the steps ----------

  ghost function Put(s: State, t: Tid, p: Pc, n: NodeId, x: Node): State {
    s.(heap := s.heap[n := x], th := s.th[t := p])
  }

  ghost function EnqueueStep(s: State, t: Tid, n: NodeId): State
    requires {n} + OneOf(s.tail) <= s.heap.Keys
  {
    var x := s.heap[n].(prev := s.tail, waker := Queued(s.hi));
    var heap := match s.tail
      case None => s.heap
      case Some(last) => s.heap[last := s.heap[last].(next := Some(n))];
    s.(head := if s.tail.None? then Some(n) else s.head, tail := Some(n),
       heap := heap[n := x], th := s.th[t := Release(n)],
       slots := s.slots[s.hi := n], hi := s.hi + 1)
  }

  ghost function PopHeadStep(s: State, t: Tid): State
    requires HeadNodes(s) <= s.heap.Keys && s.head.Some?
  {
    var n := s.head.value;
    var next := s.heap[n].next;
    var heap := s.heap[n := s.heap[n].(waker := Held(t, 0))];
    s.(head := next, tail := if next.None? then None else s.tail,
       heap := if next.None? then heap else heap[next.value := heap[next.value].(prev := None)],
       th := s.th[t := Post(n)], lo := s.lo + 1)
  }

  ghost function PopTailStep(s: State, t: Tid): State
    requires TailNodes(s) <= s.heap.Keys && s.tail.Some?
  {
    var n := s.tail.value;
    var prev := s.heap[n].prev;
    var heap := s.heap[n := s.heap[n].(waker := Held(t, 0))];
    s.(tail := prev, head := if prev.None? then None else s.head,
       heap := if prev.None? then heap else heap[prev.value := heap[prev.value].(next := None)],
       th := s.th[t := Post(n)], hi := s.hi - 1)
  }

  ghost function SignalStep(s: State, t: Tid): State
    requires (if Q.PicksHead(Q.Draw(s.cnt)) then HeadNodes(s) else TailNodes(s)) <= s.heap.Keys
  {
    var s1 := s.(cnt := Q.Draw(s.cnt));
    if Q.PicksHead(s1.cnt) then
      if s1.head.None? then s1 else PopHeadStep(s1, t)
    else
      if s1.tail.None? then s1 else PopTailStep(s1, t)
  }

  ghost function TakeAllStep(s: State, t: Tid): State {
    match s.head
    case None => s
    case Some(n) =>
      var heap := Mapped(s.heap, (m: nat, x: Node) => if x.waker.Queued? then x.(waker := Held(t, x.waker.pos)) else x);
      s.(head := None, tail := None, heap := heap,
         th := s.th[t := AllPost(n, Walk(s.slots, s.lo, s.hi))], lo := s.hi)
  }

  /** The loop test of a broadcast. */
  ghost function NextNode(rest: Option<NodeId>, walk: Walk): Pc {
    match rest
    case None => Idle
    case Some(n) => AllPost(n, walk.(k := walk.k + 1))
  }

  /** The compare-and-swap on `status`: whoever comes first leaves at once, and the other one frees. */
  ghost function Race(x: Node, won: C.Status): Node {
    if x.status == C.WAITING then x.(status := won) else x
  }

  ghost function WaiterLeft(x: Node): Node {
    x.(waiter := None)
  }

  ghost function WakerLeft(x: Node): Node {
    x.(waker := Gone)
  }

  ghost function Freed(x: Node): Node {
    x.(freed := true)
  }

  ghost function Posted(x: Node): Node {
    x.(sem := x.sem + 1, posts := x.posts + 1)
  }

  /** The thread's next place, and its node, after a step on that node alone. */
  ghost function GoStep(p: Pc, x: Node): (Pc, Node)
    requires Going(p)
  {
    var waiting := x.status == C.WAITING;
    match p
    case Took(n) => if waiting then (Idle, WaiterLeft(Race(x, C.AWOKEN))) else (WaiterFree(n), x)
    case Expired(n) => if waiting then (Idle, WaiterLeft(Race(x, C.TIMEOUT))) else (WaiterFree(n), x)
    case WaiterFree(n) => (Idle, WaiterLeft(Freed(x)))
    case Post(n) => (Claim(n), Posted(x))
    case Claim(n) => if waiting then (Idle, WakerLeft(Race(x, C.AWOKEN))) else (SignalFree(n), x)
    case SignalFree(n) => (Idle, WakerLeft(Freed(x)))
    case AllPost(n, walk) => (AllNext(n, walk), Posted(x))
    case AllNext(n, walk) => (AllClaim(n, x.next, walk), x)
    case AllClaim(n, rest, walk) =>
      if waiting then (NextNode(rest, walk), WakerLeft(Race(x, C.AWOKEN))) else (AllFree(n, rest, walk), x)
    case AllFree(n, rest, walk) => (NextNode(rest, walk), WakerLeft(Freed(x)))
  }

  ghost function Step(s: State, e: Event): State
    requires Enabled(s, e)
  {
    var t, p := e.t, s.th[e.t];
    match e
    case Alloc(_, n) => Put(s, t, Enq(n), n, Made(t))
    case Enqueue(_) => EnqueueStep(s, t, p.n)
    case Unlock(_) => Put(s, t, Sleep(p.n), p.n, s.heap[p.n])
    case SemWait(_) => Put(s, t, Took(p.n), p.n, s.heap[p.n].(sem := s.heap[p.n].sem - 1))
    case TimeOut(_) => Put(s, t, Expired(p.n), p.n, s.heap[p.n])
    case Go(_) => var (q, x) := GoStep(p, s.heap[p.n]); Put(s, t, q, p.n, x)
    case Signal(_) => SignalStep(s, t)
    case Broadcast(_) => TakeAllStep(s, t)
  }

  ghost function Start(threads: set<Tid>): State {
    State(None, None, 0, map[], Filled(threads, Idle), map[], 0, 0)
  }

  ghost function At(s: State, es: seq<Event>, n: nat): Option<State>
    requires n <= |es|
  {
    if n == 0 then Some(s)
    else
      match At(s, es, n - 1)
      case None => None
      case Some(m) => if Enabled(m, es[n - 1]) then Some(Step(m, es[n - 1])) else None
  }

  // ---------- the invariant ----------

  ghost predicate WaiterPlace(p: Pc) {
    p.Enq? || p.Release? || p.Sleep? || p.Took? || p.Expired? || p.WaiterFree?
  }

  ghost predicate SignalPlace(p: Pc) {
    p.Post? || p.Claim? || p.SignalFree?
  }

  ghost predicate WalkPlace(p: Pc) {
    p.AllPost? || p.AllNext? || p.AllClaim? || p.AllFree?
  }

  /** The thread is a waker of this node: the one it is at, or one further along its walk. */
  ghost predicate Wakes(p: Pc, n: NodeId, pos: int) {
    || (SignalPlace(p) && p.n == n)
    || (WalkPlace(p) && p.walk.k <= pos < p.walk.end && pos in p.walk.line && p.walk.line[pos] == n)
  }

  ghost predicate NodeOk(s: State, n: NodeId)
    requires n in s.heap
  {
    var x := s.heap[n];
    && (x.waiter.Some? ==> x.waiter.value in s.th && WaiterPlace(s.th[x.waiter.value]) && s.th[x.waiter.value].n == n)
    && (x.waker.Fresh? ==> x.waiter.Some? && s.th[x.waiter.value] == Enq(n))
    && (x.waker.Queued? ==> s.lo <= x.waker.pos < s.hi && x.waker.pos in s.slots && s.slots[x.waker.pos] == n)
    && (x.waker.Held? ==> x.waker.t in s.th && Wakes(s.th[x.waker.t], n, x.waker.pos))
    && (x.freed <==> x.waiter.None? && x.waker.Gone?)
    && (x.status == C.WAITING ==> x.waiter.Some? && !x.waker.Gone?)
    && (x.status != C.WAITING ==> x.waiter.None? || x.waker.Gone?)
    && x.sem <= x.posts <= 1
    && (x.waker.Fresh? || x.waker.Queued? ==> x.posts == 0)
    && (x.waker.Gone? ==> x.posts == 1)
  }

  ghost predicate Nodes(s: State) {
    forall n :: n in s.heap ==> NodeOk(s, n)
  }

  /** The node in one place of a walk: held by the broadcaster, and linked to the next. */
  ghost predicate WalkNode(s: State, t: Tid, w: Walk, i: int) {
    && i in w.line && w.line[i] in s.heap
    && s.heap[w.line[i]].waker == Held(t, i)
    && s.heap[w.line[i]].next == (if i + 1 < w.end && i + 1 in w.line then Some(w.line[i + 1]) else None)
    && (i > w.k ==> s.heap[w.line[i]].posts == 0)
  }

  ghost predicate WalkOk(s: State, t: Tid, w: Walk) {
    forall i :: w.k <= i < w.end ==> WalkNode(s, t, w, i)
  }

  ghost predicate PcOk(s: State, t: Tid)
    requires t in s.th
  {
    var p := s.th[t];
    && (!p.Idle? ==> p.n in s.heap)
    && (WaiterPlace(p) ==> s.heap[p.n].waiter == Some(t))
    && (p.Enq? ==> s.heap[p.n] == Made(t))
    && (WaiterPlace(p) && !p.Enq? ==> !s.heap[p.n].waker.Fresh?)
    && (p.Release? || p.Sleep? || p.Expired? ==> s.heap[p.n].sem == s.heap[p.n].posts)
    && (p.Took? ==> s.heap[p.n].sem == 0 && s.heap[p.n].posts == 1)
    && (p.WaiterFree? || p.SignalFree? || p.AllFree? ==> s.heap[p.n].status != C.WAITING)
    && (SignalPlace(p) ==> s.heap[p.n].waker == Held(t, 0))
    && (p.Post? || p.AllPost? ==> s.heap[p.n].posts == 0)
    && ((SignalPlace(p) && !p.Post?) || (WalkPlace(p) && !p.AllPost?) ==> s.heap[p.n].posts == 1)
    && (WalkPlace(p) ==>
          && p.walk.k < p.walk.end && p.walk.k in p.walk.line && p.walk.line[p.walk.k] == p.n
          && WalkOk(s, t, p.walk))
    && (p.AllClaim? || p.AllFree? ==> p.rest == s.heap[p.n].next)
  }

  ghost predicate Pcs(s: State) {
    forall t :: t in s.th ==> PcOk(s, t)
  }

  /** The node in one place of the queue: its links are those of the sequence. */
  ghost predicate SlotOk(s: State, i: int) {
    && i in s.slots && s.slots[i] in s.heap
    && s.heap[s.slots[i]].waker == Queued(i)
    && s.heap[s.slots[i]].next == (if i + 1 < s.hi && i + 1 in s.slots then Some(s.slots[i + 1]) else None)
    && s.heap[s.slots[i]].prev == (if i > s.lo && i - 1 in s.slots then Some(s.slots[i - 1]) else None)
  }

  ghost predicate Ends(s: State) {
    && s.lo <= s.hi
    && s.head == (if s.lo < s.hi && s.lo in s.slots then Some(s.slots[s.lo]) else None)
    && s.tail == (if s.lo < s.hi && s.hi - 1 in s.slots then Some(s.slots[s.hi - 1]) else None)
  }

  ghost predicate Line(s: State) {
    Ends(s) && forall i :: s.lo <= i < s.hi ==> SlotOk(s, i)
  }

  ghost predicate Inv(s: State) {
    Nodes(s) && Pcs(s) && Line(s)
  }

  lemma InvStart(threads: set<Tid>)
    ensures Inv(Start(threads))
  {
  }

  // ---------- what a thread relies on ----------

  /** What no other thread's step changes in a node that thread `u` waits with or is to wake. */
  ghost predicate Kept(u: Tid, x: Node, x': Node) {
    && (x.status != C.WAITING ==> x'.status != C.WAITING)
    && (x.waiter == Some(u) ==>
          && x'.waiter == x.waiter
          && (if x.waker.Fresh? then x' == x else !x'.waker.Fresh?)
          && x'.sem - x'.posts == x.sem - x.posts
          && (x.posts == 1 ==> x'.posts == 1))
    && (x.waker.Held? && x.waker.t == u ==> x'.next == x.next && x'.waker == x.waker && x'.posts == x.posts)
  }

  ghost predicate AllKept(s: State, s': State, u: Tid) {
    forall n :: n in s.heap ==> n in s'.heap && Kept(u, s.heap[n], s'.heap[n])
  }

  lemma WalkKept(s: State, s': State, u: Tid, w: Walk)
    requires WalkOk(s, u, w) && AllKept(s, s', u)
    ensures WalkOk(s', u, w)
  {
    forall i | w.k <= i < w.end
      ensures WalkNode(s', u, w, i)
    {
      assert WalkNode(s, u, w, i);
    }
  }

  lemma PcKept(s: State, s': State, u: Tid)
    requires u in s.th && PcOk(s, u) && AllKept(s, s', u)
    requires u in s'.th && s'.th[u] == s.th[u]
    ensures PcOk(s', u)
  {
    var p := s.th[u];
    if WalkPlace(p) {
      assert WalkNode(s, u, p.walk, p.walk.k);
      WalkKept(s, s', u, p.walk);
    }
  }

  // ---------- steps on one node ----------

  /** What a step of thread `t` on its own node may change, as far as the others can see. */
  ghost predicate Gentle(t: Tid, x: Node, x': Node) {
    && x'.next == x.next && x'.prev == x.prev
    && (x'.waiter == x.waiter || x.waiter == Some(t))
    && (x'.waker == x.waker || (x.waker.Held? && x.waker.t == t && x'.waker.Gone?))
    && (x'.status == x.status || (x.status == C.WAITING && x'.status != C.WAITING))
    && (x.waiter != Some(t) ==> x'.sem - x'.posts == x.sem - x.posts && (x.posts == 1 ==> x'.posts == 1))
    && (!(x.waker.Held? && x.waker.t == t) ==> x'.posts == x.posts)
    && (x.waker.Fresh? && x.waiter != Some(t) ==> x' == x)
  }

  ghost predicate CanPut(s: State, t: Tid, p: Pc, n: NodeId, x: Node) {
    && t in s.th && !s.th[t].Idle? && s.th[t].n == n && n in s.heap
    && Gentle(t, s.heap[n], x)
    && (forall m, pos :: m != n && Wakes(s.th[t], m, pos) ==> Wakes(p, m, pos))
  }

  lemma PutNodes(s: State, t: Tid, p: Pc, n: NodeId, x: Node)
    requires Nodes(s) && CanPut(s, t, p, n, x) && NodeOk(Put(s, t, p, n, x), n)
    ensures Nodes(Put(s, t, p, n, x))
  {
    var s' := Put(s, t, p, n, x);
    forall m | m in s'.heap
      ensures NodeOk(s', m)
    {
      assert NodeOk(s, m);
    }
  }

  lemma PutPcs(s: State, t: Tid, p: Pc, n: NodeId, x: Node)
    requires Pcs(s) && CanPut(s, t, p, n, x) && PcOk(Put(s, t, p, n, x), t)
    ensures Pcs(Put(s, t, p, n, x))
  {
    var s' := Put(s, t, p, n, x);
    forall u | u in s'.th && u != t
      ensures PcOk(s', u)
    {
      assert PcOk(s, u);
      PcKept(s, s', u);
    }
  }

  lemma PutLine(s: State, t: Tid, p: Pc, n: NodeId, x: Node)
    requires Line(s) && CanPut(s, t, p, n, x)
    ensures Line(Put(s, t, p, n, x))
  {
    var s' := Put(s, t, p, n, x);
    forall i | s'.lo <= i < s'.hi
      ensures SlotOk(s', i)
    {
      assert SlotOk(s, i);
    }
  }

  ghost predicate MayPut(s: State, t: Tid, p: Pc, n: NodeId, x: Node) {
    CanPut(s, t, p, n, x) && NodeOk(Put(s, t, p, n, x), n) && PcOk(Put(s, t, p, n, x), t)
  }

  lemma InvPut(s: State, t: Tid, p: Pc, n: NodeId, x: Node)
    requires Inv(s) && MayPut(s, t, p, n, x)
    ensures Inv(Put(s, t, p, n, x))
  {
    PutNodes(s, t, p, n, x);
    PutPcs(s, t, p, n, x);
    PutLine(s, t, p, n, x);
  }

  /** The thread is at a node, and both are in order. */
  ghost predicate AtNode(s: State, t: Tid) {
    t in s.th && !s.th[t].Idle? && PcOk(s, t) && NodeOk(s, s.th[t].n)
  }

  lemma InvAtNode(s: State, t: Tid)
    requires Inv(s) && t in s.th && !s.th[t].Idle?
    ensures AtNode(s, t)
  {
    assert PcOk(s, t);
  }

  lemma WaiterGoes(s: State, t: Tid)
    requires AtNode(s, t) && (s.th[t].Took? || s.th[t].Expired? || s.th[t].WaiterFree?)
    ensures var (q, x) := GoStep(s.th[t], s.heap[s.th[t].n]); MayPut(s, t, q, s.th[t].n, x)
  {
  }

  lemma SignalGoes(s: State, t: Tid)
    requires AtNode(s, t) && SignalPlace(s.th[t])
    ensures var (q, x) := GoStep(s.th[t], s.heap[s.th[t].n]); MayPut(s, t, q, s.th[t].n, x)
  {
  }

  /** A walk's steps at one node leave the rest of the walk alone. */
  lemma WalkStays(s: State, t: Tid, p: Pc, x: Node)
    requires AtNode(s, t) && WalkPlace(s.th[t]) && WalkPlace(p)
    requires p.n == s.th[t].n && p.walk == s.th[t].walk && p.n in s.heap
    requires Gentle(t, s.heap[p.n], x) && x.waker == s.heap[p.n].waker
    ensures CanPut(s, t, p, p.n, x)
    ensures WalkOk(Put(s, t, p, p.n, x), t, p.walk)
  {
    var w := p.walk;
    var s' := Put(s, t, p, p.n, x);
    assert WalkNode(s, t, w, w.k);
    forall i | w.k <= i < w.end
      ensures WalkNode(s', t, w, i)
    {
      assert WalkNode(s, t, w, i);
    }
  }

  /** The rest of a walk, once its first node is done with. */
  lemma WalkTail(s: State, t: Tid, w: Walk, p: Pc, x: Node)
    requires WalkOk(s, t, w) && w.k < w.end && w.k in w.line && w.line[w.k] in s.heap
    requires x.next == s.heap[w.line[w.k]].next
    ensures WalkOk(Put(s, t, p, w.line[w.k], x), t, w.(k := w.k + 1))
  {
    var s' := Put(s, t, p, w.line[w.k], x);
    assert WalkNode(s, t, w, w.k);
    var w' := w.(k := w.k + 1);
    forall i | w'.k <= i < w'.end
      ensures WalkNode(s', t, w', i)
    {
      assert WalkNode(s, t, w, i);
    }
  }

  /** When a walk is done with a node it is at the next one, or at its end. */
  lemma WalkAdvances(s: State, t: Tid, x: Node)
    requires AtNode(s, t) && (s.th[t].AllClaim? || s.th[t].AllFree?)
    requires Gentle(t, s.heap[s.th[t].n], x)
    ensures var p := NextNode(s.th[t].rest, s.th[t].walk);
            && CanPut(s, t, p, s.th[t].n, x)
            && PcOk(Put(s, t, p, s.th[t].n, x), t)
  {
    var q := s.th[t];
    var w := q.walk;
    var p := NextNode(q.rest, w);
    assert WalkNode(s, t, w, w.k);
    if w.k + 1 < w.end {
      assert WalkNode(s, t, w, w.k + 1);
      WalkTail(s, t, w, p, x);
    }
  }

  lemma WalkGoes(s: State, t: Tid)
    requires AtNode(s, t) && WalkPlace(s.th[t])
    ensures var (q, x) := GoStep(s.th[t], s.heap[s.th[t].n]); MayPut(s, t, q, s.th[t].n, x)
  {
    var p := s.th[t];
    var (q, x) := GoStep(p, s.heap[p.n]);
    assert WalkNode(s, t, p.walk, p.walk.k);
    if p.AllFree? || (p.AllClaim? && s.heap[p.n].status == C.WAITING) {
      WalkAdvances(s, t, x);
    } else {
      WalkStays(s, t, q, x);
    }
  }

  // ---------- allocation and the queue ----------

  lemma AllocNodes(s: State, t: Tid, n: NodeId)
    requires Nodes(s) && t in s.th && s.th[t].Idle? && n !in s.heap
    ensures Nodes(Put(s, t, Enq(n), n, Made(t)))
  {
    var s' := Put(s, t, Enq(n), n, Made(t));
    forall m | m in s'.heap
      ensures NodeOk(s', m)
    {
      if m != n {
        assert NodeOk(s, m);
      }
    }
  }

  lemma AllocPcs(s: State, t: Tid, n: NodeId)
    requires Pcs(s) && t in s.th && s.th[t].Idle? && n !in s.heap
    ensures Pcs(Put(s, t, Enq(n), n, Made(t)))
  {
    var s' := Put(s, t, Enq(n), n, Made(t));
    forall u | u in s'.th && u != t
      ensures PcOk(s', u)
    {
      assert PcOk(s, u);
      PcKept(s, s', u);
    }
  }

  lemma AllocLine(s: State, t: Tid, n: NodeId)
    requires Line(s) && n !in s.heap
    ensures Line(Put(s, t, Enq(n), n, Made(t)))
  {
    var s' := Put(s, t, Enq(n), n, Made(t));
    forall i | s'.lo <= i < s'.hi
      ensures SlotOk(s', i)
    {
      assert SlotOk(s, i);
    }
  }

  lemma InvAlloc(s: State, t: Tid, n: NodeId)
    requires Inv(s) && t in s.th && s.th[t].Idle? && n !in s.heap
    ensures Inv(Put(s, t, Enq(n), n, Made(t)))
  {
    AllocNodes(s, t, n);
    AllocPcs(s, t, n);
    AllocLine(s, t, n);
  }

  ghost predicate CanEnqueue(s: State, t: Tid, n: NodeId) {
    t in s.th && s.th[t] == Enq(n) && {n} + OneOf(s.tail) <= s.heap.Keys && s.heap[n] == Made(t)
  }

  lemma EnqueueNodes(s: State, t: Tid, n: NodeId)
    requires Nodes(s) && Line(s) && CanEnqueue(s, t, n)
    ensures Nodes(EnqueueStep(s, t, n))
  {
    var s' := EnqueueStep(s, t, n);
    assert s.lo < s.hi ==> SlotOk(s, s.hi - 1);
    forall m | m in s'.heap
      ensures NodeOk(s', m)
    {
      assert NodeOk(s, m);
    }
  }

  lemma EnqueuePcs(s: State, t: Tid, n: NodeId)
    requires Pcs(s) && Line(s) && CanEnqueue(s, t, n)
    ensures Pcs(EnqueueStep(s, t, n))
  {
    var s' := EnqueueStep(s, t, n);
    assert s.lo < s.hi ==> SlotOk(s, s.hi - 1);
    forall u | u in s'.th && u != t
      ensures PcOk(s', u)
    {
      assert PcOk(s, u);
      PcKept(s, s', u);
    }
  }

  lemma EnqueueLine(s: State, t: Tid, n: NodeId)
    requires Line(s) && CanEnqueue(s, t, n)
    ensures Line(EnqueueStep(s, t, n))
  {
    var s' := EnqueueStep(s, t, n);
    assert s.lo < s.hi ==> SlotOk(s, s.hi - 1) && SlotOk(s, s.lo);
    forall i | s'.lo <= i < s'.hi
      ensures SlotOk(s', i)
    {
      if i < s.hi {
        assert SlotOk(s, i);
      }
      if i > s.lo {
        assert SlotOk(s, i - 1);
      }
    }
  }

  lemma InvEnqueue(s: State, t: Tid, n: NodeId)
    requires Inv(s) && CanEnqueue(s, t, n)
    ensures Inv(EnqueueStep(s, t, n))
  {
    EnqueueNodes(s, t, n);
    EnqueuePcs(s, t, n);
    EnqueueLine(s, t, n);
  }

  // ---------- taking nodes off the queue ----------

  ghost predicate CanPop(s: State, t: Tid) {
    t in s.th && s.th[t].Idle?
  }

  /** What taking nodes off the queue does to any node. */
  ghost predicate QueueOnly(x: Node, x': Node) {
    && x'.sem == x.sem && x'.posts == x.posts && x'.status == x.status && x'.waiter == x.waiter
    && (if x.waker.Queued? then !x'.waker.Fresh? else x' == x)
  }

  ghost predicate OnlyQueued(s: State, s': State) {
    forall n :: n in s.heap ==> n in s'.heap && QueueOnly(s.heap[n], s'.heap[n])
  }

  lemma QueuePcs(s: State, s': State, t: Tid)
    requires Pcs(s) && OnlyQueued(s, s')
    requires t in s.th && t in s'.th && s'.th == s.th[t := s'.th[t]] && PcOk(s', t)
    ensures Pcs(s')
  {
    forall u | u in s'.th && u != t
      ensures PcOk(s', u)
    {
      assert PcOk(s, u);
      PcKept(s, s', u);
    }
  }

  /** A node whose waker did not change is still in order while the queue keeps its place. */
  lemma NodeKept(s: State, s': State, t: Tid, m: NodeId)
    requires Nodes(s) && CanPop(s, t) && m in s.heap && t in s'.th && s'.th == s.th[t := s'.th[t]]
    requires m in s'.heap && s'.heap[m] == s.heap[m].(next := s'.heap[m].next, prev := s'.heap[m].prev)
    requires s'.slots == s.slots
    requires s.heap[m].waker.Queued? ==> s'.lo <= s.heap[m].waker.pos < s'.hi
    ensures NodeOk(s', m)
  {
    assert NodeOk(s, m);
  }

  lemma PopHeadNodes(s: State, t: Tid)
    requires Nodes(s) && Line(s) && CanPop(s, t) && HeadNodes(s) <= s.heap.Keys && s.head.Some?
    ensures Nodes(PopHeadStep(s, t))
  {
    var s' := PopHeadStep(s, t);
    assert SlotOk(s, s.lo);
    assert s.lo + 1 < s.hi ==> SlotOk(s, s.lo + 1);
    assert NodeOk(s, s'.th[t].n);
    forall m | m in s'.heap
      ensures NodeOk(s', m)
    {
      if m != s'.th[t].n {
        assert NodeOk(s, m);
        NodeKept(s, s', t, m);
      }
    }
  }

  lemma PopHeadOnly(s: State, t: Tid)
    requires Line(s) && CanPop(s, t) && HeadNodes(s) <= s.heap.Keys && s.head.Some?
    ensures OnlyQueued(s, PopHeadStep(s, t))
  {
    assert SlotOk(s, s.lo);
    assert s.lo + 1 < s.hi ==> SlotOk(s, s.lo + 1);
  }

  lemma PopHeadOwn(s: State, t: Tid)
    requires Nodes(s) && Line(s) && CanPop(s, t) && HeadNodes(s) <= s.heap.Keys && s.head.Some?
    ensures var s' := PopHeadStep(s, t); PcOk(s', t) && s'.th == s.th[t := s'.th[t]]
  {
    assert SlotOk(s, s.lo);
    assert NodeOk(s, s.slots[s.lo]);
  }

  lemma PopHeadPcs(s: State, t: Tid)
    requires Inv(s) && CanPop(s, t) && HeadNodes(s) <= s.heap.Keys && s.head.Some?
    ensures Pcs(PopHeadStep(s, t))
  {
    PopHeadOnly(s, t);
    PopHeadOwn(s, t);
    QueuePcs(s, PopHeadStep(s, t), t);
  }

  lemma PopHeadLine(s: State, t: Tid)
    requires Line(s) && CanPop(s, t) && HeadNodes(s) <= s.heap.Keys && s.head.Some?
    ensures Line(PopHeadStep(s, t))
  {
    var s' := PopHeadStep(s, t);
    assert SlotOk(s, s.lo);
    assert s.lo + 1 < s.hi ==> SlotOk(s, s.lo + 1);
    forall i | s'.lo <= i < s'.hi
      ensures SlotOk(s', i)
    {
      assert SlotOk(s, i);
    }
  }

  lemma InvPopHead(s: State, t: Tid)
    requires Inv(s) && CanPop(s, t) && HeadNodes(s) <= s.heap.Keys && s.head.Some?
    ensures Inv(PopHeadStep(s, t))
  {
    PopHeadNodes(s, t);
    PopHeadPcs(s, t);
    PopHeadLine(s, t);
  }

  lemma PopTailNodes(s: State, t: Tid)
    requires Nodes(s) && Line(s) && CanPop(s, t) && TailNodes(s) <= s.heap.Keys && s.tail.Some?
    ensures Nodes(PopTailStep(s, t))
  {
    var s' := PopTailStep(s, t);
    assert SlotOk(s, s.hi - 1);
    assert s.lo < s.hi - 1 ==> SlotOk(s, s.hi - 2);
    assert NodeOk(s, s'.th[t].n);
    forall m | m in s'.heap
      ensures NodeOk(s', m)
    {
      if m != s'.th[t].n {
        assert NodeOk(s, m);
        NodeKept(s, s', t, m);
      }
    }
  }

  lemma PopTailOnly(s: State, t: Tid)
    requires Line(s) && CanPop(s, t) && TailNodes(s) <= s.heap.Keys && s.tail.Some?
    ensures OnlyQueued(s, PopTailStep(s, t))
  {
    assert SlotOk(s, s.hi - 1);
    assert s.lo < s.hi - 1 ==> SlotOk(s, s.hi - 2);
  }

  lemma PopTailOwn(s: State, t: Tid)
    requires Nodes(s) && Line(s) && CanPop(s, t) && TailNodes(s) <= s.heap.Keys && s.tail.Some?
    ensures var s' := PopTailStep(s, t); PcOk(s', t) && s'.th == s.th[t := s'.th[t]]
  {
    assert SlotOk(s, s.hi - 1);
    assert NodeOk(s, s.slots[s.hi - 1]);
  }

  lemma PopTailPcs(s: State, t: Tid)
    requires Inv(s) && CanPop(s, t) && TailNodes(s) <= s.heap.Keys && s.tail.Some?
    ensures Pcs(PopTailStep(s, t))
  {
    PopTailOnly(s, t);
    PopTailOwn(s, t);
    QueuePcs(s, PopTailStep(s, t), t);
  }

  lemma PopTailLine(s: State, t: Tid)
    requires Line(s) && CanPop(s, t) && TailNodes(s) <= s.heap.Keys && s.tail.Some?
    ensures Line(PopTailStep(s, t))
  {
    var s' := PopTailStep(s, t);
    assert SlotOk(s, s.hi - 1);
    assert s.lo < s.hi - 1 ==> SlotOk(s, s.hi - 2);
    forall i | s'.lo <= i < s'.hi
      ensures SlotOk(s', i)
    {
      assert SlotOk(s, i);
    }
  }

  lemma InvPopTail(s: State, t: Tid)
    requires Inv(s) && CanPop(s, t) && TailNodes(s) <= s.heap.Keys && s.tail.Some?
    ensures Inv(PopTailStep(s, t))
  {
    PopTailNodes(s, t);
    PopTailPcs(s, t);
    PopTailLine(s, t);
  }

  lemma TakeAllNodes(s: State, t: Tid)
    requires Nodes(s) && Line(s) && CanPop(s, t) && s.head.Some?
    ensures Nodes(TakeAllStep(s, t))
  {
    var s' := TakeAllStep(s, t);
    forall m | m in s'.heap
      ensures NodeOk(s', m)
    {
      assert NodeOk(s, m);
    }
  }

  lemma TakeAllWalk(s: State, t: Tid, i: int)
    requires Nodes(s) && Line(s) && CanPop(s, t) && s.head.Some? && s.lo <= i < s.hi
    ensures var s' := TakeAllStep(s, t); s'.th[t].AllPost? && WalkNode(s', t, s'.th[t].walk, i)
  {
    assert SlotOk(s, i) && NodeOk(s, s.slots[i]);
    assert i + 1 < s.hi ==> SlotOk(s, i + 1);
  }

  lemma TakeAllOwn(s: State, t: Tid)
    requires Nodes(s) && Line(s) && CanPop(s, t) && s.head.Some?
    ensures var s' := TakeAllStep(s, t);
            PcOk(s', t) && OnlyQueued(s, s') && s'.th == s.th[t := s'.th[t]]
  {
    var s' := TakeAllStep(s, t);
    forall i | s.lo <= i < s.hi
      ensures WalkNode(s', t, s'.th[t].walk, i)
    {
      TakeAllWalk(s, t, i);
    }
    assert WalkNode(s', t, s'.th[t].walk, s.lo);
  }

  lemma TakeAllPcs(s: State, t: Tid)
    requires Inv(s) && CanPop(s, t) && s.head.Some?
    ensures Pcs(TakeAllStep(s, t))
  {
    TakeAllOwn(s, t);
    QueuePcs(s, TakeAllStep(s, t), t);
  }

  lemma InvTakeAll(s: State, t: Tid)
    requires Inv(s) && CanPop(s, t)
    ensures Inv(TakeAllStep(s, t))
  {
    if s.head.Some? {
      TakeAllNodes(s, t);
      TakeAllPcs(s, t);
    }
  }

  lemma InvGo(s: State, t: Tid)
    requires Inv(s) && Enabled(s, Go(t))
    ensures Inv(Step(s, Go(t)))
  {
    var p := s.th[t];
    var (q, x) := GoStep(p, s.heap[p.n]);
    InvAtNode(s, t);
    if WaiterPlace(p) {
      WaiterGoes(s, t);
    } else if SignalPlace(p) {
      SignalGoes(s, t);
    } else {
      WalkGoes(s, t);
    }
    InvPut(s, t, q, p.n, x);
  }

  lemma WaitsMayPut(s: State, e: Event)
    requires Enabled(s, e) && (e.Unlock? || e.SemWait? || e.TimeOut?) && AtNode(s, e.t)
    ensures var n, s' := s.th[e.t].n, Step(s, e);
            && e.t in s'.th && n in s'.heap && MayPut(s, e.t, s'.th[e.t], n, s'.heap[n])
            && s' == Put(s, e.t, s'.th[e.t], n, s'.heap[n])
  {
  }

  lemma InvWaits(s: State, e: Event)
    requires Inv(s) && Enabled(s, e) && (e.Unlock? || e.SemWait? || e.TimeOut?)
    ensures Inv(Step(s, e))
  {
    var n := s.th[e.t].n;
    InvAtNode(s, e.t);
    WaitsMayPut(s, e);
    InvPut(s, e.t, Step(s, e).th[e.t], n, Step(s, e).heap[n]);
  }

  lemma InvStep(s: State, e: Event)
    requires Inv(s) && Enabled(s, e)
    ensures Inv(Step(s, e))
  {
    var p := s.th[e.t];
    assert PcOk(s, e.t);
    match e
    case Alloc(t, n) => InvAlloc(s, t, n);
    case Enqueue(t) => InvEnqueue(s, t, p.n);
    case Go(t) => InvGo(s, t);
    case Signal(t) =>
      var s1 := s.(cnt := Q.Draw(s.cnt));
      InvCnt(s, Q.Draw(s.cnt));
      if s1.head.Some? && Q.PicksHead(s1.cnt) {
        InvPopHead(s1, t);
      } else if s1.tail.Some? && !Q.PicksHead(s1.cnt) {
        InvPopTail(s1, t);
      }
    case Broadcast(t) => InvTakeAll(s, t);
    case _ => InvWaits(s, e);
  }

  lemma InvCnt(s: State, cnt: nat)
    requires Inv(s)
    ensures Inv(s.(cnt := cnt))
  {
    var s' := s.(cnt := cnt);
    forall n | n in s.heap
      ensures NodeOk(s', n)
    {
      assert NodeOk(s, n);
    }
    forall t | t in s.th
      ensures PcOk(s', t)
    {
      assert PcOk(s, t);
      PcKept(s, s', t);
    }
    forall i | s.lo <= i < s.hi
      ensures SlotOk(s', i)
    {
      assert SlotOk(s, i);
    }
  }

  /** A run's last state comes from the one before it. */
  lemma AtLast(s: State, es: seq<Event>, n: nat, m: State) returns (p: State)
    requires 0 < n <= |es| && At(s, es, n) == Some(m)
    ensures At(s, es, n - 1) == Some(p) && Enabled(p, es[n - 1]) && m == Step(p, es[n - 1])
  {
    p := At(s, es, n - 1).value;
  }

  lemma {:induction false} InvRun(threads: set<Tid>, es: seq<Event>, n: nat)
    requires n <= |es| && At(Start(threads), es, n).Some?
    ensures Inv(At(Start(threads), es, n).value)
  {
    if n == 0 {
      InvStart(threads);
    } else {
      InvRun(threads, es, n - 1);
      InvStep(At(Start(threads), es, n - 1).value, es[n - 1]);
    }
  }
}
