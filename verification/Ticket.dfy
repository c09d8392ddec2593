/** The ticket lock of txlock.c: 32-bit ticket numbers that wrap, a trylock that swaps both words at
    once, and an unlock that is a plain load followed by a plain store. */
module Ticket {
  import opened Common

  datatype Words = Words(next: nat, now: nat)

  /** Fetch-and-add on `next`. */
  function Taken(w: Words): Words {
    w.(next := Add32(w.next, 1))
  }

  /** Compare-and-swap of both words against a lock that looked free at `seen`. */
  predicate TryWins(w: Words, seen: nat) {
    w.next == seen && w.now == seen
  }

  class TicketLock {
    var next: nat
    var now: nat

    function View(): Words
      reads this
    {
      Words(next, now)
    }

    method TakeTicket() returns (mine: nat)
      modifies this
      ensures mine == old(next) && View() == Taken(old(View()))
      ensures next == (old(next) + 1) % TWO32 && now == old(now)
    {
      mine := next;
      next := Add32(next, 1);
    }

    /** The swap writes `now` as well as `next`. */
    method TrySwap(seen: nat) returns (ok: bool)
      modifies this
      ensures ok == TryWins(old(View()), seen)
      ensures View() == if ok then Taken(old(View())) else old(View())
      ensures ok <==> old(next) == seen && old(now) == seen
      ensures now == old(now) && next == if ok then (seen + 1) % TWO32 else old(next)
    {
      var expected := Words(seen, seen);
      var wanted := Words(Add32(seen, 1), seen);
      ok := next == expected.next && now == expected.now;
      if ok {
        next, now := wanted.next, wanted.now;
      }
    }

    method StoreNow(loaded: nat)
      modifies this
      ensures now == (loaded + 1) % TWO32 && next == old(next)
    {
      now := Add32(loaded, 1);
    }
  }

  datatype Pc =
    | Idle
    | Waiting(ticket: nat)
    | Owner
    | Bumping(loaded: nat)
    | TryRead(seen: nat)

  /** `taken` and `granted` list the threads in the order in which they drew a ticket and in which
      their lock or trylock succeeded; `queue` holds the outstanding tickets.  No step tests them. */
  datatype State = State(w: Words, th: map<Tid, Pc>, queue: seq<Tid>, taken: seq<Tid>, granted: seq<Tid>)

  datatype Event =
    | Take(t: Tid)
    | Enter(t: Tid)
    | TryLoad(t: Tid)
    | TrySwap(t: Tid)
    | LoadNow(t: Tid)
    | StoreNow(t: Tid)

  ghost predicate Enabled(s: State, e: Event) {
    e.t in s.th &&
    match e
    case Take(t) => s.th[t].Idle?
    case Enter(t) => s.th[t].Waiting? && s.th[t].ticket == s.w.now
    case TryLoad(t) => s.th[t].Idle?
    case TrySwap(t) => s.th[t].TryRead?
    case LoadNow(t) => s.th[t].Owner?
    case StoreNow(t) => s.th[t].Bumping?
  }

  ghost function Step(s: State, e: Event): State
    requires Enabled(s, e)
  {
    match e
    case Take(t) =>
      s.(w := Taken(s.w), th := s.th[t := Waiting(s.w.next)], queue := s.queue + [t], taken := s.taken + [t])
    case Enter(t) => s.(th := s.th[t := Owner], granted := s.granted + [t])
    case TryLoad(t) => s.(th := s.th[t := TryRead(s.w.now)])
    case TrySwap(t) =>
      if TryWins(s.w, s.th[t].seen) then
        s.(w := Taken(s.w), th := s.th[t := Owner], queue := s.queue + [t],
           taken := s.taken + [t], granted := s.granted + [t])
      else s.(th := s.th[t := Idle])
    case LoadNow(t) => s.(th := s.th[t := Bumping(s.w.now)])
    case StoreNow(t) =>
      s.(w := s.w.(now := Add32(s.th[t].loaded, 1)), th := s.th[t := Idle],
         queue := if s.queue == [] then [] else s.queue[1..])
  }

  ghost function Start(threads: set<Tid>): State {
    State(Words(0, 0), Filled(threads, Idle), [], [], [])
  }

  ghost function At(s: State, es: seq<Event>, n: nat): Option<State>
    requires n <= |es|
  {
    if n == 0 then Some(s)
    else
      match At(s, es, n - 1)
      case None => None
      case Some(m) => if Enabled(m, es[n - 1]) then Some(Step(m, es[n - 1])) else None
  }

  lemma {:induction false} AtPrefix(s: State, es: seq<Event>, e: Event, n: nat)
    requires n <= |es|
    ensures At(s, es + [e], n) == At(s, es, n)
  {
    if n > 0 {
      AtPrefix(s, es, e, n - 1);
    }
  }

  lemma AtAppend(s: State, es: seq<Event>, e: Event, m: State)
    requires At(s, es, |es|) == Some(m)
    ensures At(s, es + [e], |es + [e]|) == if Enabled(m, e) then Some(Step(m, e)) else None
  {
    AtPrefix(s, es, e, |es|);
  }

  // ---------- the invariant ----------

  ghost predicate Owns(p: Pc) {
    p.Owner? || p.Bumping?
  }

  /** A thread with a ticket that has not been returned. */
  ghost predicate Outstanding(p: Pc) {
    p.Waiting? || Owns(p)
  }

  ghost predicate Tickets(s: State) {
    && s.w.next < TWO32 && s.w.now < TWO32
    && s.w.next == Add32(s.w.now, |s.queue|)
    && Distinct(s.queue)
    && (forall i :: 0 <= i < |s.queue| ==> s.queue[i] in s.th)
    && (forall t :: t in s.th && Outstanding(s.th[t]) ==> t in s.queue)
    && (forall i :: 0 <= i < |s.queue| ==>
          (Owns(s.th[s.queue[i]]) && i == 0) || s.th[s.queue[i]] == Waiting(Add32(s.w.now, i)))
    && (forall t :: t in s.th && s.th[t].Bumping? ==> s.th[t].loaded == s.w.now)
  }

  ghost function Done(s: State): int {
    |s.taken| - |s.queue|
  }

  ghost predicate Histories(s: State) {
    && |s.queue| <= |s.taken|
    && s.taken[Done(s)..] == s.queue
    && (forall i :: 0 <= i < |s.queue| ==> s.queue[i] in s.th)
    && s.granted == s.taken[..Done(s) + if s.queue != [] && Owns(s.th[s.queue[0]]) then 1 else 0]
  }

  ghost predicate Inv(s: State) {
    Tickets(s) && Histories(s)
  }

  lemma AddAdd(x: nat, i: nat, j: nat)
    ensures Add32(Add32(x, i), j) == Add32(x, i + j)
  {
  }

  lemma AddSame(x: nat, i: nat)
    requires x < TWO32
    ensures Add32(x, i) == x <==> i % TWO32 == 0
  {
    WholeTurns(x, x + i);
  }

  /** No more tickets are out than there are threads. */
  lemma FewTickets(s: State)
    requires Tickets(s)
    ensures |s.queue| <= |s.th.Keys|
  {
    DistinctLength(s.queue, s.th.Keys);
  }

  /** With fewer threads than ticket numbers, whoever sees its number served heads the queue. */
  lemma EntrantIsHead(s: State, t: Tid)
    requires Tickets(s) && |s.th.Keys| <= TWO32 && t in s.th
    requires s.th[t].Waiting? && s.th[t].ticket == s.w.now
    ensures s.queue != [] && s.queue[0] == t
  {
    FewTickets(s);
    var i :| 0 <= i < |s.queue| && s.queue[i] == t;
    AddSame(s.w.now, i);
  }

  /** A thread in the middle of a trylock has no ticket, so the others cannot have used up a turn. */
  lemma WinnerIsAlone(s: State, t: Tid)
    requires Tickets(s) && |s.th.Keys| <= TWO32 && t in s.th && s.th[t].TryRead? && TryWins(s.w, s.th[t].seen)
    ensures s.queue == []
  {
    DistinctLength(s.queue, s.th.Keys - {t});
    AddSame(s.w.now, |s.queue|);
  }

  lemma OwnerIsHead(s: State, t: Tid)
    requires Tickets(s) && t in s.th && Owns(s.th[t])
    ensures s.queue != [] && s.queue[0] == t
  {
    var i :| 0 <= i < |s.queue| && s.queue[i] == t;
  }

  /** A thread without a ticket joins at the end. */
  lemma TicketsPush(s: State, s': State, t: Tid)
    requires Tickets(s) && t in s.th && t !in s.queue
    requires s'.w == Taken(s.w) && s'.queue == s.queue + [t] && t in s'.th && s'.th == s.th[t := s'.th[t]]
    requires s'.th[t] == Waiting(s.w.next) || (s.queue == [] && s'.th[t] == Owner)
    ensures Tickets(s')
  {
    AddAdd(s.w.now, |s.queue|, 1);
    assert forall i :: 0 <= i < |s.queue| ==> s'.queue[i] == s.queue[i];
    assert forall u :: u in s.queue ==> u in s'.queue;
    assert s'.queue[|s.queue|] == t;
  }

  /** A thread without a ticket does something else. */
  lemma TicketsIdle(s: State, s': State, t: Tid)
    requires Tickets(s) && t in s.th && t !in s.queue
    requires s'.w == s.w && s'.queue == s.queue && t in s'.th && s'.th == s.th[t := s'.th[t]]
    requires !Outstanding(s'.th[t])
    ensures Tickets(s')
  {
  }

  lemma NotQueued(s: State, t: Tid)
    requires Tickets(s) && t in s.th && !Outstanding(s.th[t])
    ensures t !in s.queue
  {
  }

  lemma TicketsTake(s: State, e: Event)
    requires Tickets(s) && |s.th.Keys| <= TWO32 && Enabled(s, e)
    requires e.Take? || e.TryLoad? || e.TrySwap?
    ensures Tickets(Step(s, e))
  {
    NotQueued(s, e.t);
    if e.TrySwap? && TryWins(s.w, s.th[e.t].seen) {
      WinnerIsAlone(s, e.t);
    }
    if e.Take? || (e.TrySwap? && TryWins(s.w, s.th[e.t].seen)) {
      TicketsPush(s, Step(s, e), e.t);
    } else {
      TicketsIdle(s, Step(s, e), e.t);
    }
  }

  lemma StoreShifts(s: State, e: Event, i: nat)
    requires Tickets(s) && Enabled(s, e) && e.StoreNow? && s.queue != [] && s.queue[0] == e.t
    requires i + 1 < |s.queue|
    ensures var s' := Step(s, e);
            i < |s'.queue| && s'.queue[i] == s.queue[i + 1] && s'.queue[i] in s'.th
            && s'.th[s'.queue[i]] == Waiting(Add32(s'.w.now, i))
  {
    AddAdd(s.w.now, 1, i);
  }

  lemma StoreKeeps(s: State, e: Event, t: Tid)
    requires Tickets(s) && Enabled(s, e) && e.StoreNow? && s.queue != [] && s.queue[0] == e.t
    requires t in s.th && t != e.t && Outstanding(s.th[t])
    ensures t in Step(s, e).queue
  {
    var i :| 0 <= i < |s.queue| && s.queue[i] == t;
    assert Step(s, e).queue[i - 1] == t;
  }

  lemma TicketsStore(s: State, e: Event)
    requires Tickets(s) && Enabled(s, e) && e.StoreNow?
    ensures Tickets(Step(s, e))
  {
    var s' := Step(s, e);
    OwnerIsHead(s, e.t);
    AddAdd(s.w.now, 1, |s'.queue|);
    forall i | 0 <= i < |s'.queue|
      ensures s'.queue[i] == s.queue[i + 1] && s'.queue[i] in s'.th && s'.th[s'.queue[i]] == Waiting(Add32(s'.w.now, i))
    {
      StoreShifts(s, e, i);
    }
    forall t | t in s'.th && Outstanding(s'.th[t])
      ensures t in s'.queue
    {
      StoreKeeps(s, e, t);
    }
  }

  lemma TicketsStep(s: State, e: Event)
    requires Tickets(s) && |s.th.Keys| <= TWO32 && Enabled(s, e)
    ensures Tickets(Step(s, e)) && Step(s, e).th.Keys == s.th.Keys
  {
    match e
    case Enter(t) => EntrantIsHead(s, t);
    case StoreNow(_) => TicketsStore(s, e);
    case LoadNow(t) => OwnerIsHead(s, t);
    case _ => TicketsTake(s, e);
  }

  // What the histories need to know of the queue.

  lemma HistoriesTake(s: State, e: Event)
    requires Histories(s) && Enabled(s, e) && e.Take? && e.t !in s.queue
    ensures Histories(Step(s, e))
  {
    var s' := Step(s, e);
    assert s'.taken[Done(s)..] == s'.queue;
    assert s'.taken[..Done(s)] == s.taken[..Done(s)];
    if s.queue != [] {
      assert s'.taken[..Done(s) + 1] == s.taken[..Done(s) + 1];
      assert s'.queue[0] == s.queue[0];
    }
  }

  lemma HistoriesTry(s: State, e: Event)
    requires Histories(s) && Enabled(s, e) && e.TrySwap? && e.t !in s.queue
    requires TryWins(s.w, s.th[e.t].seen) ==> s.queue == []
    ensures Histories(Step(s, e))
  {
    if TryWins(s.w, s.th[e.t].seen) {
      assert s.granted == s.taken;
    }
  }

  lemma HistoriesStore(s: State, e: Event)
    requires Histories(s) && Enabled(s, e) && e.StoreNow? && s.queue != [] && s.queue[0] == e.t
    requires |s.queue| > 1 ==> s.queue[1] != e.t && s.queue[1] in s.th && !Owns(s.th[s.queue[1]])
    requires e.t !in s.queue[1..]
    ensures Histories(Step(s, e))
  {
    var s' := Step(s, e);
    assert s'.taken[Done(s')..] == s.taken[Done(s)..][1..];
  }

  lemma HistoriesEnter(s: State, e: Event)
    requires Histories(s) && Enabled(s, e) && e.Enter? && s.queue != [] && s.queue[0] == e.t
    ensures Histories(Step(s, e))
  {
    var d := Done(s);
    assert s.taken[d] == s.taken[d..][0] == e.t;
    assert s.granted == s.taken[..d];
    assert s.taken[..d + 1] == s.taken[..d] + [s.taken[d]];
  }

  lemma HistoriesLoad(s: State, e: Event)
    requires Histories(s) && Enabled(s, e) && (e.LoadNow? || e.TryLoad?)
    requires if e.TryLoad? then e.t !in s.queue else s.queue != [] && s.queue[0] == e.t
    ensures Histories(Step(s, e))
  {
  }

  lemma SecondWaits(s: State, t: Tid)
    requires Tickets(s) && s.queue != [] && s.queue[0] == t
    ensures |s.queue| > 1 ==> s.queue[1] != t && s.queue[1] in s.th && !Owns(s.th[s.queue[1]])
    ensures t !in s.queue[1..]
  {
  }

  lemma HistoriesStep(s: State, e: Event)
    requires Inv(s) && |s.th.Keys| <= TWO32 && Enabled(s, e)
    ensures Histories(Step(s, e))
  {
    match e
    case Take(t) =>
      NotQueued(s, t);
      HistoriesTake(s, e);
    case TrySwap(t) =>
      NotQueued(s, t);
      if TryWins(s.w, s.th[t].seen) {
        WinnerIsAlone(s, t);
      }
      HistoriesTry(s, e);
    case StoreNow(t) =>
      OwnerIsHead(s, t);
      SecondWaits(s, t);
      HistoriesStore(s, e);
    case Enter(t) =>
      EntrantIsHead(s, t);
      HistoriesEnter(s, e);
    case LoadNow(t) =>
      OwnerIsHead(s, t);
      HistoriesLoad(s, e);
    case TryLoad(t) =>
      NotQueued(s, t);
      HistoriesLoad(s, e);
  }

  lemma InvStep(s: State, e: Event)
    requires Inv(s) && |s.th.Keys| <= TWO32 && Enabled(s, e)
    ensures Inv(Step(s, e)) && Step(s, e).th.Keys == s.th.Keys
  {
    TicketsStep(s, e);
    HistoriesStep(s, e);
  }

  lemma {:induction false} InvRun(threads: set<Tid>, es: seq<Event>, n: nat)
    requires |threads| <= TWO32 && n <= |es| && At(Start(threads), es, n).Some?
    ensures Inv(At(Start(threads), es, n).value) && At(Start(threads), es, n).value.th.Keys == threads
  {
    if n > 0 {
      InvRun(threads, es, n - 1);
      InvStep(At(Start(threads), es, n - 1).value, es[n - 1]);
    }
  }

  // ---------- what the lock promises ----------

  ghost function OutstandingSet(s: State): set<Tid> {
    set t | t in s.th && Outstanding(s.th[t])
  }

  lemma WordDistance(x: nat, n: nat)
    requires x < TWO32
    ensures Sub32(Add32(x, n), x) == n % TWO32
  {
    WholeTurns(n, x + n + (TWO32 - x));
    assert Sub32(Add32(x, n), x) == ((x + n) % TWO32 + (TWO32 - x)) % TWO32 == (x + n + (TWO32 - x)) % TWO32;
  }

  lemma OneOwner(s: State, t: Tid, u: Tid)
    requires Inv(s) && t in s.th && u in s.th && Owns(s.th[t]) && Owns(s.th[u])
    ensures t == u
  {
    OwnerIsHead(s, t);
    OwnerIsHead(s, u);
  }

  lemma OutstandingCount(s: State)
    requires Inv(s)
    ensures |OutstandingSet(s)| == |s.queue|
  {
    ElementsCard(s.queue);
    assert OutstandingSet(s) == Elements(s.queue);
  }

  /** The distance between the words is the number of tickets out, but for a full turn of them. */
  lemma WordsCount(s: State)
    requires Inv(s)
    ensures Sub32(s.w.next, s.w.now) == |OutstandingSet(s)| % TWO32
  {
    OutstandingCount(s);
    WordDistance(s.w.now, |s.queue|);
  }

  /** No more threads than ticket numbers: the words count the outstanding tickets, at most one thread
      owns the lock, the value an owner loaded is still there when it stores, and ownership is
      granted in the order in which tickets were drawn. */
  lemma TicketLockSafe(threads: set<Tid>, es: seq<Event>, n: nat)
    requires |threads| <= TWO32 && n <= |es| && At(Start(threads), es, n).Some?
    ensures var s := At(Start(threads), es, n).value;
            && s.w.now < TWO32 && Sub32(s.w.next, s.w.now) == |OutstandingSet(s)| % TWO32
            && (forall t, u :: t in s.th && u in s.th && Owns(s.th[t]) && Owns(s.th[u]) ==> t == u)
            && (forall t :: t in s.th && s.th[t].Bumping? ==> s.th[t].loaded == s.w.now)
            && s.granted <= s.taken
  {
    InvRun(threads, es, n);
    var s := At(Start(threads), es, n).value;
    WordsCount(s);
    forall t, u | t in s.th && u in s.th && Owns(s.th[t]) && Owns(s.th[u])
      ensures t == u
    {
      OneOwner(s, t, u);
    }
  }

  /** A state of some run of at most 2^32 threads. */
  ghost predicate Reachable(s: State) {
    exists threads, es: seq<Event> :: |threads| <= TWO32 && At(Start(threads), es, |es|) == Some(s)
  }

  lemma ReachableInv(s: State)
    requires Reachable(s)
    ensures Inv(s) && |s.th.Keys| <= TWO32
  {
    var threads, es: seq<Event> :| |threads| <= TWO32 && At(Start(threads), es, |es|) == Some(s);
    InvRun(threads, es, |es|);
  }

  /** Runs go on: every event that can happen in a state of a run leads to another such state. */
  lemma ReachableStep(s: State, e: Event)
    requires Reachable(s) && Enabled(s, e)
    ensures Reachable(Step(s, e))
  {
    var threads, es: seq<Event> :| |threads| <= TWO32 && At(Start(threads), es, |es|) == Some(s);
    AtAppend(Start(threads), es, e, s);
  }

  lemma NobodyOut(s: State)
    requires Reachable(s)
    ensures OutstandingSet(s) == {} <==> s.queue == []
  {
    ReachableInv(s);
    OutstandingCount(s);
  }

  lemma ReachableTickets(s: State)
    requires Reachable(s)
    ensures Tickets(s) && |s.th.Keys| <= TWO32
  {
    ReachableInv(s);
  }

  lemma WinMeansFree(s: State, t: Tid)
    requires Reachable(s) && t in s.th && s.th[t].TryRead? && TryWins(s.w, s.th[t].seen)
    ensures s.queue == []
  {
    ReachableTickets(s);
    WinnerIsAlone(s, t);
  }

  lemma FreeWords(s: State)
    requires Tickets(s) && s.queue == []
    ensures s.w.next == s.w.now
  {
    AddSame(s.w.now, 0);
  }

  lemma WinsExactly(s: State, t: Tid)
    requires Reachable(s) && t in s.th && s.th[t].TryRead?
    ensures TryWins(s.w, s.th[t].seen) <==> s.w.now == s.th[t].seen && OutstandingSet(s) == {}
  {
    NobodyOut(s);
    if TryWins(s.w, s.th[t].seen) {
      WinMeansFree(s, t);
    } else if s.queue == [] {
      ReachableTickets(s);
      FreeWords(s);
    }
  }

  lemma SwapMeans(s: State, t: Tid)
    requires t in s.th && s.th[t].TryRead?
    ensures Enabled(s, TrySwap(t))
    ensures var s' := Step(s, TrySwap(t));
            && (s'.th[t].Owner? <==> TryWins(s.w, s.th[t].seen))
            && (s'.th[t].Owner? ==> s'.w == Words((s.w.next + 1) % TWO32, s.w.now) && s'.granted == s.granted + [t])
            && (!s'.th[t].Owner? ==> s' == s.(th := s.th[t := Idle]))
  {
  }

  /** A trylock succeeds, and then owns at once, exactly when `now` is still what it read and no ticket
      is out; otherwise it changes nothing but its own place. */
  lemma TryLockExactly(s: State, t: Tid)
    requires Reachable(s) && t in s.th && s.th[t].TryRead?
    ensures Enabled(s, TrySwap(t))
    ensures var s' := Step(s, TrySwap(t));
            && (s'.th[t].Owner? <==> s.w.now == s.th[t].seen && OutstandingSet(s) == {})
            && (s'.th[t].Owner? ==> s'.w == Words((s.w.next + 1) % TWO32, s.w.now) && s'.granted == s.granted + [t])
            && (!s'.th[t].Owner? ==> s' == s.(th := s.th[t := Idle]))
  {
    WinsExactly(s, t);
    SwapMeans(s, t);
  }

  lemma HeadPlace(s: State)
    requires Tickets(s) && s.queue != []
    ensures var t := s.queue[0]; t in s.th && (Owns(s.th[t]) || s.th[t] == Waiting(Add32(s.w.now, 0)))
  {
  }

  lemma HeadIs(s: State)
    requires Reachable(s) && s.queue != []
    ensures var t := s.queue[0]; t in s.th && (Owns(s.th[t]) || s.th[t] == Waiting(s.w.now))
  {
    ReachableTickets(s);
    HeadPlace(s);
    AddSame(s.w.now, 0);
  }

  /** The lock never gets stuck: while tickets are out, the first of them is the owner's, or its thread
      finds its ticket being served. */
  lemma HeadCanEnter(s: State)
    requires Reachable(s) && OutstandingSet(s) != {}
    ensures exists t :: t in OutstandingSet(s) && (Owns(s.th[t]) || Enabled(s, Enter(t)))
  {
    NobodyOut(s);
    HeadIs(s);
    assert s.queue[0] in OutstandingSet(s);
  }

  lemma BumperLoaded(s: State, t: Tid)
    requires Reachable(s) && t in s.th && s.th[t].Bumping?
    ensures s.th[t].loaded == s.w.now
  {
    ReachableInv(s);
  }

  /** Unlocking gives back the owner's ticket and no other, and serves the next. */
  lemma UnlockServes(s: State, t: Tid)
    requires Reachable(s) && t in s.th && s.th[t].Bumping?
    ensures var s' := Step(s, StoreNow(t));
            && s'.th[t].Idle? && OutstandingSet(s') == OutstandingSet(s) - {t}
            && s'.w == Words(s.w.next, (s.w.now + 1) % TWO32)
  {
    BumperLoaded(s, t);
  }

  /** Every thread outside the queue can start, and every owner can go on to unlock. */
  lemma ThreadsCanMove(s: State, t: Tid)
    requires t in s.th
    ensures match s.th[t]
            case Idle => Enabled(s, Take(t)) && Enabled(s, TryLoad(t))
            case Waiting(ticket) => Enabled(s, Enter(t)) <==> ticket == s.w.now
            case Owner => Enabled(s, LoadNow(t)) && Step(s, LoadNow(t)).th[t] == Bumping(s.w.now)
            case Bumping(_) => Enabled(s, StoreNow(t))
            case TryRead(_) => Enabled(s, TrySwap(t))
  {
  }

  /** A trylock that succeeds found nobody outstanding, and owns at once. */
  lemma TryLockOwns(s: State, t: Tid)
    requires Inv(s) && |s.th.Keys| <= TWO32 && Enabled(s, TrySwap(t)) && TryWins(s.w, s.th[t].seen)
    ensures OutstandingSet(s) == {} && Step(s, TrySwap(t)).th[t].Owner?
  {
    WinnerIsAlone(s, t);
  }

  /** The lock looks free exactly when the outstanding tickets make whole turns of the word. */
  lemma LooksFree(s: State)
    requires Inv(s)
    ensures s.w.next == s.w.now <==> |s.queue| % TWO32 == 0
  {
    AddSame(s.w.now, |s.queue|);
  }

  // ---------- the bound on the number of threads ----------

  /** A trylock by `t` that reads `now` and is then held up while all of `vs` draw tickets and the
      first of them enters. */
  ghost function FullTurn(t: Tid, vs: seq<Tid>): seq<Event>
    requires vs != []
  {
    [TryLoad(t)] + seq(|vs|, i requires 0 <= i < |vs| => Take(vs[i])) + [Enter(vs[0]), TrySwap(t)]
  }

  ghost predicate OneShort(threads: set<Tid>, t: Tid, vs: seq<Tid>) {
    t in threads && t !in vs && Distinct(vs) && |vs| == TWO32 && forall i :: 0 <= i < |vs| ==> vs[i] in threads
  }

  /** The trylock has read 0, and the first `k` of `vs` have drawn their tickets. */
  ghost predicate Turning(m: State, threads: set<Tid>, t: Tid, vs: seq<Tid>, k: nat)
    requires vs != []
  {
    && m.w == Words(k % TWO32, 0) && m.th.Keys == threads && t in threads && m.th[t] == TryRead(0)
    && (forall j :: 0 <= j < |vs| ==> vs[j] in threads)
    && (k > 0 ==> m.th[vs[0]] == Waiting(0))
    && forall j :: k <= j < |vs| ==> m.th[vs[j]] == Idle
  }

  lemma TurnStep(m: State, threads: set<Tid>, t: Tid, vs: seq<Tid>, k: nat)
    requires OneShort(threads, t, vs) && k < |vs| && Turning(m, threads, t, vs, k)
    ensures Enabled(m, Take(vs[k])) && Turning(Step(m, Take(vs[k])), threads, t, vs, k + 1)
  {
    AddAdd(0, k, 1);
  }

  lemma {:induction false} TurnBegins(threads: set<Tid>, t: Tid, vs: seq<Tid>, k: nat)
    requires OneShort(threads, t, vs) && k <= |vs|
    ensures var m := At(Start(threads), FullTurn(t, vs), k + 1); m.Some? && Turning(m.value, threads, t, vs, k)
  {
    var es := FullTurn(t, vs);
    if k == 0 {
      assert At(Start(threads), es, 0) == Some(Start(threads));
      assert es[0] == TryLoad(t);
    } else {
      TurnBegins(threads, t, vs, k - 1);
      var m := At(Start(threads), es, k).value;
      TurnStep(m, threads, t, vs, k - 1);
      assert es[k] == Take(vs[k - 1]);
    }
  }

  /** With one thread more than ticket numbers there is a run in which two threads own the lock. */
  lemma FullTurnBreaks(threads: set<Tid>, t: Tid, vs: seq<Tid>)
    requires OneShort(threads, t, vs)
    ensures var es := FullTurn(t, vs); var m := At(Start(threads), es, |es|);
            m.Some? && t in m.value.th && vs[0] in m.value.th && t != vs[0]
            && Owns(m.value.th[t]) && Owns(m.value.th[vs[0]])
  {
    var es := FullTurn(t, vs);
    TurnBegins(threads, t, vs, TWO32);
    assert es[TWO32 + 1] == Enter(vs[0]) && es[TWO32 + 2] == TrySwap(t);
    var m := At(Start(threads), es, TWO32 + 1).value;
    assert At(Start(threads), es, TWO32 + 2) == Some(Step(m, Enter(vs[0])));
  }

  ghost predicate NeverTwoOwners(threads: set<Tid>) {
    forall es: seq<Event>, t, u :: At(Start(threads), es, |es|).Some? ==>
      var m := At(Start(threads), es, |es|).value;
      t in m.th && u in m.th && Owns(m.th[t]) && Owns(m.th[u]) ==> t == u
  }

  lemma {:induction false} Pick(d: set<Tid>, k: nat) returns (vs: seq<Tid>)
    requires k <= |d|
    ensures |vs| == k && Distinct(vs) && forall i :: 0 <= i < k ==> vs[i] in d
    decreases k
  {
    if k == 0 {
      vs := [];
    } else {
      var t :| t in d;
      vs := Pick(d - {t}, k - 1);
      vs := [t] + vs;
    }
  }

  /** The ticket lock excludes exactly as many threads as there are ticket numbers. */
  lemma ThreadBound(threads: set<Tid>)
    ensures NeverTwoOwners(threads) <==> |threads| <= TWO32
  {
    if |threads| <= TWO32 {
      forall es: seq<Event>, t, u | At(Start(threads), es, |es|).Some?
        ensures var m := At(Start(threads), es, |es|).value;
                t in m.th && u in m.th && Owns(m.th[t]) && Owns(m.th[u]) ==> t == u
      {
        TicketLockSafe(threads, es, |es|);
      }
    } else {
      var t :| t in threads;
      var vs := Pick(threads - {t}, TWO32);
      FullTurnBreaks(threads, t, vs);
    }
  }
}
