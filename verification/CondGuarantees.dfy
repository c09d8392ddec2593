/** What callers of the condition variable of pthread_cond.c may rely on, for every run of any
    number of threads. */
module CondGuarantees {
  import opened Common
  import opened CondCounters
  import opened CondProtocol

  /** A fresh condition variable in a setup in which no wait can be committed while it is still
      counted; `CountsHoldExactly` says why this is asked. */
  ghost predicate Begins(s: State) {
    !Exposed(s.setup) && exists threads, clock, u :: s == Start(threads, clock, u)
  }

  ghost predicate Reachable(s: State) {
    exists s0, es: seq<Event> :: Begins(s0) && At(s0, es, |es|) == Some(s)
  }

  lemma BeginsInv(s: State)
    requires Begins(s)
    ensures Inv(s) && !Exposed(s.setup)
  {
    var threads, clock, u :| s == Start(threads, clock, u);
    InvStart(threads, clock, u);
  }

  lemma ReachableInv(s: State)
    requires Reachable(s)
    ensures Inv(s) && !Exposed(s.setup)
  {
    var s0, es: seq<Event> :| Begins(s0) && At(s0, es, |es|) == Some(s);
    BeginsInv(s0);
    InvRun(s0, es, |es|, s);
  }

  lemma {:induction false} AtPrefix(s: State, es: seq<Event>, e: Event, n: nat)
    requires n <= |es|
    ensures At(s, es + [e], n) == At(s, es, n)
  {
    if n > 0 {
      AtPrefix(s, es, e, n - 1);
    }
  }

  lemma AtAppend(s: State, es: seq<Event>, e: Event, m: State)
    requires At(s, es, |es|) == Some(m) && Enabled(m, e) && Timely(m, e)
    ensures At(s, es + [e], |es + [e]|) == Some(Step(m, e))
  {
    AtPrefix(s, es, e, |es|);
  }

  /** Runs go on: every event that can happen in a state of a run leads to another such state. */
  lemma ReachableStep(s: State, e: Event)
    requires Reachable(s) && Enabled(s, e) && Timely(s, e)
    ensures Reachable(Step(s, e))
  {
    var s0, es: seq<Event> :| Begins(s0) && At(s0, es, |es|) == Some(s);
    AtAppend(s0, es, e, s);
  }

  lemma ReachableOrder(s: State)
    requires Reachable(s)
    ensures Order(s)
  {
    ReachableInv(s);
  }

  lemma ReachableWords(s: State)
    requires Reachable(s)
    ensures Words(s)
  {
    ReachableInv(s);
  }

  lemma UsersRead(word: nat, n: nat, clock: nat)
    requires CountsUsers(word, n, clock) && n < TWO32 / 2 && clock < 2
    ensures word / 2 == n
  {
    assert 2 * n + clock < TWO32;
  }

  /** The counters never overtake each other, the words agree with them, and `nwaiters` counts the
      registered threads. */
  lemma CounterOrder(s: State)
    requires Reachable(s)
    ensures s.c.wokenSeq <= s.c.wakeupSeq <= s.c.totalSeq
    ensures s.c.totalSeq - s.c.wokenSeq == |Current(s)|
    ensures s.c.futex == (s.c.totalSeq + s.c.wakeupSeq) % TWO32
    ensures |Registered(s)| < TWO32 / 2 ==> s.c.nwaiters / 2 == |Registered(s)|
  {
    ReachableOrder(s);
    ReachableWords(s);
    if |Registered(s)| < TWO32 / 2 {
      UsersRead(s.c.nwaiters, |Registered(s)|, s.clock);
    }
  }

  /** Every registration, effective signal, timeout and effective broadcast moves the futex word
      forward; nothing else moves it. */
  lemma FutexMoves(s: State, e: Event)
    requires Reachable(s) && Enabled(s, e)
    ensures Changes(s.c) <= Changes(Step(s, e).c)
    ensures Changes(s.c) < Changes(Step(s, e).c) <==>
            || e.Wait?
            || ((e.Signal? || e.Broadcast?) && Effective(s.c))
            || (e.Recheck? && Judge(s.c, s.th[e.t].w, e.err, e.expired).TimedOut?)
  {
    ReachableInv(s);
  }

  /** A sampled value is taken for current exactly when the word has made whole turns since. */
  lemma StaleSample(s: State, t: Tid)
    requires Reachable(s) && t in s.th && s.th[t].Sampled?
    ensures Enabled(s, Park(t)) <==> (Changes(s.c) - s.th[t].at) % TWO32 == 0
  {
    ReachableInv(s);
    WholeTurns(s.th[t].at, Changes(s.c));
  }

  /** A waiter goes to sleep when nothing has changed since its sample, and one of the present generation
      can look again. */
  lemma QuietSleeps(s: State, t: Tid, err: int, expired: bool)
    requires Reachable(s) && t in s.th
    ensures s.th[t].Sampled? && s.th[t].at == Changes(s.c) ==>
      Enabled(s, Park(t)) && Reachable(Step(s, Park(t))) && Step(s, Park(t)).th[t].Parked?
    ensures s.th[t].Relock? && s.th[t].gen == s.gen ==>
      Enabled(s, Recheck(t, err, expired)) && Reachable(Step(s, Recheck(t, err, expired)))
  {
    if s.th[t].Sampled? && s.th[t].at == Changes(s.c) {
      StaleSample(s, t);
      ReachableStep(s, Park(t));
    }
    if s.th[t].Relock? && s.th[t].gen == s.gen {
      ReachableStep(s, Recheck(t, err, expired));
    }
  }

  lemma PendingHasConsumers(s: State)
    requires Reachable(s)
    ensures |Entitled(s)| >= s.c.wakeupSeq - s.c.wokenSeq
  {
    ReachableInv(s);
  }

  /** Unless a wake-all is due, at least as many current waiters as wakeups are pending may take one,
      are awake, and cannot go to sleep before they have looked at the counters again. */
  lemma NoStrandedWakeup(s: State)
    requires Reachable(s)
    ensures WakeAllDue(s) || |AlertEntitled(s)| >= s.c.wakeupSeq - s.c.wokenSeq
    ensures AlertEntitled(s) <= Entitled(s) - Sleepers(s)
    ensures forall t :: t in AlertEntitled(s) && Enabled(s, Park(t)) ==> !Timely(s, Park(t))
  {
    ReachableInv(s);
    forall t | t in AlertEntitled(s) && Enabled(s, Park(t))
      ensures !Timely(s, Park(t))
    {
      if Timely(s, Park(t)) {
        TimelyTests(s, Park(t));
      }
    }
  }

  /** Every call has either returned or is asleep. */
  ghost predicate Quiet(s: State) {
    forall t :: t in s.th ==> s.th[t].Out? || s.th[t].Parked?
  }

  /** When everything has come to rest no wakeup is left over, every sleeper still counts as a
      waiter, and so a signal is lost only when nobody sleeps. */
  lemma NoLostWakeup(s: State)
    requires Reachable(s) && Quiet(s)
    ensures s.c.wakeupSeq == s.c.wokenSeq
    ensures s.c.totalSeq - s.c.wakeupSeq == |Sleepers(s)|
    ensures Effective(s.c) <==> Sleepers(s) != {}
  {
    ReachableInv(s);
    assert AlertEntitled(s) == {};
    SleepersCurrent(s);
    assert Current(s) == Sleepers(s);
  }

  // ---------- broadcasts ----------

  /** A waiter leaves because of a broadcast exactly when one took effect after it registered. */
  lemma BroadcastReleases(s: State, t: Tid, err: int, expired: bool)
    requires Reachable(s) && t in s.th && s.th[t].Relock? && Timely(s, Recheck(t, err, expired))
    ensures Judge(s.c, s.th[t].w, err, expired).BroadcastOut? <==> s.th[t].gen < s.gen
  {
    ReachableInv(s);
    TimelyTests(s, Recheck(t, err, expired));
  }

  lemma GenStep(s: State, e: Event)
    requires Enabled(s, e)
    ensures Step(s, e).gen == if e.Broadcast? && Effective(s.c) then s.gen + 1 else s.gen
  {
  }

  lemma {:induction false} GenerationsGrow(s: State, es: seq<Event>, i: nat, a: State, n: nat, m: State)
    requires i <= n <= |es| && At(s, es, i) == Some(a) && At(s, es, n) == Some(m)
    ensures a.gen <= m.gen
    decreases n
  {
    if i < n {
      var k, p := AtLast(s, es, n, m);
      GenerationsGrow(s, es, i, a, k, p);
      GenStep(p, es[k]);
    }
  }

  /** A broadcast that took effect is behind every later state. */
  lemma {:induction false} BroadcastCounts(s: State, es: seq<Event>, b: nat, a: State, n: nat, m: State)
    requires b < n <= |es| && At(s, es, b) == Some(a) && At(s, es, n) == Some(m)
    requires es[b].Broadcast? && Effective(a.c)
    ensures a.gen + 1 <= m.gen
    decreases n
  {
    var k, p := AtLast(s, es, n, m);
    GenStep(p, es[k]);
    if b + 1 < n {
      BroadcastCounts(s, es, b, a, k, p);
    }
  }

  // ---------- what a waiter finds when it looks again ----------

  /** A wakeup is there to be taken by the waiter. */
  ghost predicate PendingFor(s: State, t: Tid)
    requires t in s.th && IsWaiter(s.th[t])
  {
    s.th[t].w.seqNo != s.c.wakeupSeq && s.c.wokenSeq != s.c.wakeupSeq
  }

  ghost predicate PastDeadline(s: State, e: Event)
    requires e.Recheck? && e.t in s.th && IsWaiter(s.th[e.t])
  {
    s.th[e.t].w.timed && (e.err == -ETIMEDOUT || e.expired)
  }

  ghost predicate LooksAgain(s: State, e: Event) {
    Reachable(s) && e.Recheck? && Enabled(s, e) && Timely(s, e)
  }

  /** A wait times out, which counts as a wakeup sent and taken, exactly when no broadcast has come, no
      wakeup is there for it, and it has a deadline that has passed. */
  lemma TimesOutExactly(s: State, e: Event)
    requires LooksAgain(s, e)
    ensures Step(s, e).c.wakeupSeq == s.c.wakeupSeq + 1 <==>
            s.th[e.t].gen == s.gen && !PendingFor(s, e.t) && PastDeadline(s, e)
    ensures Step(s, e).c.wakeupSeq != s.c.wakeupSeq + 1 ==> Step(s, e).c.wakeupSeq == s.c.wakeupSeq
  {
    ReachableInv(s);
    TimelyTests(s, e);
  }

  /** It waits on, with a new sample, exactly when no broadcast has come, no wakeup is there for it, and
      it has no deadline or has not reached it; nothing else changes then.  Otherwise it is out. */
  lemma WaitsOnExactly(s: State, e: Event)
    requires LooksAgain(s, e)
    ensures Step(s, e).th[e.t].Sampled? <==>
            s.th[e.t].gen == s.gen && !PendingFor(s, e.t) && !PastDeadline(s, e)
    ensures Step(s, e).th[e.t].Sampled? ==>
            var p := Step(s, e).th[e.t];
            && Step(s, e).c == s.c && p.futexVal == s.c.futex && p.at == Changes(s.c) && !p.tested
            && p.w == s.th[e.t].w && p.gen == s.th[e.t].gen && p.tries == s.th[e.t].tries
    ensures !Step(s, e).th[e.t].Sampled? ==> Step(s, e).th[e.t].Out?
  {
    ReachableInv(s);
    TimelyTests(s, e);
  }

  /** It takes a wakeup, one that was sent, exactly when no broadcast has come and one is there for it. */
  lemma TakesWakeupExactly(s: State, e: Event)
    requires LooksAgain(s, e)
    ensures (Step(s, e).c.wokenSeq == s.c.wokenSeq + 1 && Step(s, e).c.wakeupSeq == s.c.wakeupSeq) <==>
            s.th[e.t].gen == s.gen && PendingFor(s, e.t)
  {
    ReachableInv(s);
    TimelyTests(s, e);
  }

  /** Whatever a thread is doing, it has a step of its own to take. */
  lemma ThreadsCanMove(s: State, t: Tid)
    requires t in s.th
    ensures match s.th[t]
            case Out => Enabled(s, Wait(t, false, false)) && Enabled(s, Broadcast(t))
            case Sampled(_, _, _, _, _, _) => Enabled(s, Wake(t))
            case Ahead(_, _, _, _, _) => Enabled(s, RollBack(t))
            case Parked(_, _, _) => Enabled(s, Wake(t))
            case Relock(_, _, _) => Enabled(s, Recheck(t, 0, false))
            case WakeAll(_) => Enabled(s, RouseAll(t))
    ensures s.th[t].Out? ==> Enabled(s, Signal(t, if Effective(s.c) then Sleepers(s) else {}))
  {
  }

  /** An effective signal may wake any sleepers, also a single one; those and no others go to look again,
      and the call is over.  One that finds nobody to wake changes nothing. */
  lemma SignalWakes(s: State, t: Tid, roused: set<Tid>)
    requires t in s.th && s.th[t].Out? && roused <= Sleepers(s)
    ensures Effective(s.c) && roused != {} ==>
      && Enabled(s, Signal(t, roused))
      && var s' := Step(s, Signal(t, roused));
         && Sleepers(s') == Sleepers(s) - roused && s'.th[t].Out?
         && (forall u :: u in roused ==> s'.th[u] == Relock(s.th[u].w, s.th[u].gen, s.th[u].tries))
         && (forall u :: u in s.th && u !in roused ==> s'.th[u] == s.th[u])
    ensures !Effective(s.c) ==>
      Enabled(s, Signal(t, {})) && Step(s, Signal(t, {})).c == s.c && Step(s, Signal(t, {})).th == s.th
  {
    if !Effective(s.c) {
      assert Rouse(s.th, {}) == s.th;
    }
  }

  /** An effective broadcast still owes a wake-all, with which the call is over and nobody sleeps; any
      other broadcast is over at once. */
  lemma BroadcastWakes(s: State, t: Tid)
    requires t in s.th && s.th[t].Out?
    ensures var s' := Step(s, Broadcast(t));
            if Effective(s.c) then
              && s'.th == s.th[t := WakeAll(s'.gen)] && Enabled(s', RouseAll(t))
              && Sleepers(Step(s', RouseAll(t))) == {} && Step(s', RouseAll(t)).th[t].Out?
              && Step(s', RouseAll(t)).c == s'.c
            else s' == s
  {
  }

  /** Where a waiter's own steps lead. */
  lemma WaiterMoves(s: State, t: Tid)
    requires t in s.th
    ensures Enabled(s, Park(t)) ==> Step(s, Park(t)).th[t].Parked? && Step(s, Park(t)).c == s.c
    ensures Enabled(s, Wake(t)) ==> Step(s, Wake(t)).th[t].Relock? && Step(s, Wake(t)).c == s.c
    ensures Enabled(s, RunAhead(t)) ==> Step(s, RunAhead(t)).th[t].Ahead? && Step(s, RunAhead(t)).c == s.c
    ensures Enabled(s, RollBack(t)) ==>
      Step(s, RollBack(t)).th[t].Sampled? && Step(s, RollBack(t)).th[t].tested && Step(s, RollBack(t)).c == s.c
    ensures s.th[t].Sampled? && !s.th[t].tested && !s.th[t].w.timed && s.th[t].futexVal == s.c.futex ==>
      (Enabled(s, RunAhead(t)) <==> s.setup.speculates && s.th[t].tries < s.setup.maxTries)
    ensures forall timed, expired :: Enabled(s, Wait(t, timed, expired)) ==>
      var p := Step(s, Wait(t, timed, expired)).th[t];
      if timed && expired then p.Out?
      else p.Sampled? && !p.tested && p.w == Waiter(s.c.wakeupSeq, s.c.broadcastSeq, timed) && p.gen == s.gen
  {
  }

  /** No waiter older than generation `g` sleeps. */
  ghost predicate NoneAsleepBefore(s: State, g: nat) {
    forall t :: t in s.th && s.th[t].Parked? ==> s.th[t].gen >= g
  }

  /** Only a waiter of the present generation can fall asleep. */
  lemma NoneAsleepKept(s: State, e: Event, g: nat)
    requires Inv(s) && Enabled(s, e) && Timely(s, e)
    requires g <= s.gen && (e.RouseAll? || NoneAsleepBefore(s, g))
    ensures NoneAsleepBefore(Step(s, e), g)
  {
    if e.Park? {
      TimelyTests(s, e);
    }
  }

  lemma KeptInRun(s: State, es: seq<Event>, k: nat, p: State, g: nat)
    requires Begins(s) && k < |es| && At(s, es, k) == Some(p) && Enabled(p, es[k]) && Timely(p, es[k])
    requires g <= p.gen && (es[k].RouseAll? || NoneAsleepBefore(p, g))
    ensures NoneAsleepBefore(Step(p, es[k]), g)
  {
    BeginsInv(s);
    InvRun(s, es, k, p);
    NoneAsleepKept(p, es[k], g);
  }

  /** Once a wake-all has run after an effective broadcast, nobody who was waiting at that broadcast
      is ever asleep again. */
  lemma {:induction false} BroadcastComplete(
      s: State, es: seq<Event>, b: nat, a: State, r: nat, n: nat, m: State)
    requires Begins(s) && b < r < n <= |es| && At(s, es, b) == Some(a) && At(s, es, n) == Some(m)
    requires es[b].Broadcast? && Effective(a.c) && es[r].RouseAll?
    ensures NoneAsleepBefore(m, a.gen + 1)
    decreases n
  {
    var k, p := AtLast(s, es, n, m);
    BroadcastCounts(s, es, b, a, k, p);
    if r < k {
      BroadcastComplete(s, es, b, a, r, k, p);
    }
    KeptInRun(s, es, k, p, a.gen + 1);
  }

  // ---------- conservation of wakeups ----------

  /** Events since the last effective broadcast, and the value all counters had then. */
  datatype Tally = Tally(base: nat, signals: nat, resumed: nat, timeouts: nat)

  ghost function Count(s: State, y: Tally, e: Event): Tally
    requires Enabled(s, e)
  {
    match e
    case Wait(_, timed, expired) => if timed && expired then y.(timeouts := y.timeouts + 1) else y
    case Recheck(t, err, expired) =>
      (match Judge(s.c, s.th[t].w, err, expired)
       case Consumed => y.(resumed := y.resumed + 1)
       case TimedOut => y.(timeouts := y.timeouts + 1)
       case _ => y)
    case Signal(_, _) => if Effective(s.c) then y.(signals := y.signals + 1) else y
    case Broadcast(_) => if Effective(s.c) then Tally(s.c.totalSeq, 0, 0, 0) else y
    case _ => y
  }

  ghost function TallyOf(s: State, es: seq<Event>, n: nat): Tally
    requires n <= |es| && At(s, es, n).Some?
  {
    if n == 0 then Tally(0, 0, 0, 0)
    else Count(At(s, es, n - 1).value, TallyOf(s, es, n - 1), es[n - 1])
  }

  ghost predicate Tallied(s: State, y: Tally) {
    && s.c.wakeupSeq == y.base + y.signals + y.timeouts
    && s.c.wokenSeq == y.base + y.resumed + y.timeouts
  }

  lemma TalliedStep(s: State, y: Tally, e: Event)
    requires Tallied(s, y) && Enabled(s, e)
    ensures Tallied(Step(s, e), Count(s, y, e))
  {
  }

  /** The counters are the tally of what happened. */
  lemma {:induction false} CountersTally(s: State, es: seq<Event>, n: nat, m: State)
    requires Begins(s) && n <= |es| && At(s, es, n) == Some(m)
    ensures Tallied(m, TallyOf(s, es, n))
    decreases n
  {
    if n > 0 {
      var k, p := AtLast(s, es, n, m);
      CountersTally(s, es, k, p);
      TalliedStep(p, TallyOf(s, es, k), es[k]);
    }
  }

  /** Waits that return because of signals never outnumber the effective signals since the last
      effective broadcast; once everything is at rest there are as many of the one as of the other. */
  lemma WakeupsConserved(s: State, es: seq<Event>, m: State)
    requires Begins(s) && At(s, es, |es|) == Some(m)
    ensures var y := TallyOf(s, es, |es|); y.resumed <= y.signals && (Quiet(m) ==> y.resumed == y.signals)
  {
    CountersTally(s, es, |es|, m);
    assert Reachable(m);
    CounterOrder(m);
    if Quiet(m) {
      NoLostWakeup(m);
    }
  }

  // ---------- waits that return in a transaction ----------

  /** Transactions the thread has entered since it last began to wait. */
  ghost function Attempts(es: seq<Event>, t: Tid, n: nat): nat
    requires n <= |es|
  {
    if n == 0 then 0
    else if es[n - 1].Wait? && es[n - 1].t == t then 0
    else Attempts(es, t, n - 1) + if es[n - 1] == RunAhead(t) then 1 else 0
  }

  ghost function Tried(p: Pc): nat {
    if p.Ahead? then p.tries + 1 else if IsWaiter(p) then p.tries else 0
  }

  lemma TriedStep(s: State, e: Event, t: Tid)
    requires Enabled(s, e) && t in s.th && IsWaiter(Step(s, e).th[t])
    ensures Step(s, e).setup == s.setup
    ensures if e.Wait? && e.t == t then Tried(Step(s, e).th[t]) == 0
            else IsWaiter(s.th[t]) && Tried(Step(s, e).th[t]) == Tried(s.th[t]) + if e == RunAhead(t) then 1 else 0
    ensures e == RunAhead(t) ==> s.setup.speculates && Tried(s.th[t]) < s.setup.maxTries
  {
  }

  /** One wait enters at most as many transactions as it may. */
  lemma {:induction false} AttemptsBounded(s: State, es: seq<Event>, n: nat, m: State, t: Tid)
    requires Begins(s) && n <= |es| && At(s, es, n) == Some(m) && t in m.th && IsWaiter(m.th[t])
    ensures m.setup == s.setup && Attempts(es, t, n) == Tried(m.th[t])
    ensures Attempts(es, t, n) > 0 ==> s.setup.speculates && Attempts(es, t, n) <= s.setup.maxTries
    decreases n
  {
    if n > 0 {
      var k, p := AtLast(s, es, n, m);
      SameThreads(p, es[k]);
      TriedStep(p, es[k], t);
      SetupKept(s, es, k, p);
      if !(es[k].Wait? && es[k].t == t) {
        AttemptsBounded(s, es, k, p, t);
      }
    }
  }

  lemma SameThreads(s: State, e: Event)
    requires Enabled(s, e)
    ensures Step(s, e).th.Keys == s.th.Keys && Step(s, e).setup == s.setup
  {
  }

  lemma {:induction false} SetupKept(s: State, es: seq<Event>, n: nat, m: State)
    requires n <= |es| && At(s, es, n) == Some(m)
    ensures m.setup == s.setup
    decreases n
  {
    if n > 0 {
      var k, p := AtLast(s, es, n, m);
      SetupKept(s, es, k, p);
      SameThreads(p, es[k]);
    }
  }

  /** The shortest run in which a wait returns in a transaction and the caller's unlock commits it. */
  ghost function Leak(t: Tid): seq<Event> {
    [Wait(t, false, false), RunAhead(t), Commit(t)]
  }

  /** In an exposed setup that run leaves everybody at rest and nobody waiting, while the counters still
      say that somebody waits: signals then go to a waiter that is not there. */
  lemma CommittedWaitLeaks(threads: set<Tid>, clock: nat, u: Setup, t: Tid)
    requires Exposed(u) && t in threads
    ensures At(Start(threads, clock, u), Leak(t), 3).Some?
    ensures var m := At(Start(threads, clock, u), Leak(t), 3).value;
            && Quiet(m) && Sleepers(m) == {} && Registered(m) == {}
            && Effective(m.c) && m.c.totalSeq - m.c.wokenSeq == 1 && m.c.nwaiters / 2 == 1
  {
    var s := Start(threads, clock, u);
    var s1 := Step(s, Leak(t)[0]);
    var s2 := Step(s1, Leak(t)[1]);
    assert At(s, Leak(t), 0) == Some(s);
    assert At(s, Leak(t), 1) == Some(s1);
    assert At(s, Leak(t), 2) == Some(s2);
  }

  ghost predicate CountsHold(threads: set<Tid>, clock: nat, u: Setup) {
    forall es: seq<Event> :: At(Start(threads, clock, u), es, |es|).Some? ==>
      Order(At(Start(threads, clock, u), es, |es|).value)
  }

  /** The counters count the waiters in every run exactly when no wait can be committed: waits do not
      speculate, or the user mutex's unlock ends no transaction. */
  lemma CountsHoldExactly(threads: set<Tid>, clock: nat, u: Setup)
    requires threads != {}
    ensures CountsHold(threads, clock, u) <==> !Exposed(u)
  {
    if Exposed(u) {
      var t :| t in threads;
      CommittedWaitLeaks(threads, clock, u, t);
      var m := At(Start(threads, clock, u), Leak(t), |Leak(t)|).value;
      assert Current(m) <= Registered(m);
      assert !Order(m);
    } else {
      forall es: seq<Event> | At(Start(threads, clock, u), es, |es|).Some?
        ensures Order(At(Start(threads, clock, u), es, |es|).value)
      {
        InvStart(threads, clock, u);
        InvRun(Start(threads, clock, u), es, |es|, At(Start(threads, clock, u), es, |es|).value);
      }
    }
  }
}
