/** Any number of threads waiting on, signalling and broadcasting one condition variable of
    pthread_cond.c.  A stretch of code under the internal lock is one step; going to sleep in the
    futex, leaving it and the wake-all of a broadcast are steps of their own. */
module CondProtocol {
  import opened Common
  import opened CondCounters

  /** How the library is set up: whether waits speculate and how often a wait may try, and whether
      unlocking the user mutex ends a running transaction, as that of the elided lock does. */
  datatype Setup = Setup(speculates: bool, maxTries: nat, unlockEnds: bool)

  /** `gen` counts effective broadcasts and `at` futex changes, both without wrap-around; the
      protocol never tests them.  `tries` counts a wait's failed transactions, and `tested` tells
      whether it is past the point where it may enter one for this sample.  A thread that is `Ahead`
      has returned from its wait inside a transaction. */
  datatype Pc =
    | Out
    | Sampled(w: Waiter, gen: nat, futexVal: nat, at: nat, tries: nat, tested: bool)
    | Ahead(w: Waiter, gen: nat, futexVal: nat, at: nat, tries: nat)
    | Parked(w: Waiter, gen: nat, tries: nat)
    | Relock(w: Waiter, gen: nat, tries: nat)
    | WakeAll(due: nat)

  datatype State = State(c: Cond, gen: nat, clock: nat, setup: Setup, th: map<Tid, Pc>)

  datatype Event =
    | Wait(t: Tid, timed: bool, expired: bool)
    | Park(t: Tid)
    | RunAhead(t: Tid)
    | RollBack(t: Tid)
    | Commit(t: Tid)
    | Wake(t: Tid)
    | Recheck(t: Tid, err: int, expired: bool)
    | Signal(t: Tid, roused: set<Tid>)
    | Broadcast(t: Tid)
    | RouseAll(t: Tid)

  ghost predicate IsWaiter(p: Pc) {
    p.Sampled? || p.Ahead? || p.Parked? || p.Relock?
  }

  ghost predicate HasSample(p: Pc) {
    p.Sampled? || p.Ahead?
  }

  ghost function Sleepers(s: State): set<Tid> {
    set t | t in s.th && s.th[t].Parked?
  }

  ghost function Rouse(th: map<Tid, Pc>, who: set<Tid>): map<Tid, Pc> {
    Mapped(th, (t: nat, p: Pc) => if t in who && p.Parked? then Relock(p.w, p.gen, p.tries) else p)
  }

  ghost predicate Enabled(s: State, e: Event) {
    e.t in s.th &&
    match e
    case Wait(t, _, _) => s.th[t].Out?
    case Park(t) => s.th[t].Sampled? && s.th[t].futexVal == s.c.futex
    case RunAhead(t) =>
      && s.th[t].Sampled? && !s.th[t].tested && !s.th[t].w.timed
      && s.setup.speculates && s.th[t].tries < s.setup.maxTries && s.th[t].futexVal == s.c.futex
    case RollBack(t) => s.th[t].Ahead?
    case Commit(t) => s.th[t].Ahead? && s.setup.unlockEnds
    case Wake(t) => s.th[t].Sampled? || s.th[t].Parked?
    case Recheck(t, _, _) => s.th[t].Relock?
    case Signal(t, roused) =>
      // The kernel picks whom to wake, but it wakes somebody when anybody sleeps.
      s.th[t].Out? && roused <= Sleepers(s) &&
      (if Effective(s.c) then Sleepers(s) != {} ==> roused != {} else roused == {})
    case Broadcast(t) => s.th[t].Out?
    case RouseAll(t) => s.th[t].WakeAll?
  }

  ghost function Step(s: State, e: Event): State
    requires Enabled(s, e)
  {
    match e
    case Wait(t, timed, expired) =>
      (match EntryFor(s.c, timed, 0, expired)
       case Waiting(w, sample) =>
         var c := Entered(s.c);
         s.(c := c, th := s.th[t := Sampled(w, s.gen, sample, Changes(c), 0, false)])
       case _ => s.(c := Left(Expire(Entered(s.c)))))
    case Park(t) => s.(th := s.th[t := Parked(s.th[t].w, s.th[t].gen, s.th[t].tries)])
    case RunAhead(t) =>
      var p := s.th[t];
      s.(th := s.th[t := Ahead(p.w, p.gen, p.futexVal, p.at, p.tries)])
    case RollBack(t) =>
      var p := s.th[t];
      s.(th := s.th[t := Sampled(p.w, p.gen, p.futexVal, p.at, p.tries + 1, true)])
    case Commit(t) => s.(th := s.th[t := Out])
    case Wake(t) => s.(th := s.th[t := Relock(s.th[t].w, s.th[t].gen, s.th[t].tries)])
    case Recheck(t, err, expired) =>
      var p := s.th[t];
      var v := Judge(s.c, p.w, err, expired);
      var c := Judged(s.c, v);
      s.(c := c, th := s.th[t := if v.Resample? then Sampled(p.w, p.gen, c.futex, Changes(c), p.tries, false) else Out])
    case Signal(t, roused) => s.(c := Signalled(s.c), th := Rouse(s.th, roused))
    case Broadcast(t) =>
      if Effective(s.c) then
        s.(c := Broadcasted(s.c), gen := s.gen + 1, th := s.th[t := WakeAll(s.gen + 1)])
      else s
    case RouseAll(t) => s.(th := Rouse(s.th, s.th.Keys)[t := Out])
  }

  /** Fewer than 2^32 futex changes lie between a sample and going to sleep on it, and fewer than 2^32
      broadcasts between registering and looking again. */
  ghost predicate Timely(s: State, e: Event)
    requires Enabled(s, e)
  {
    match e
    case Park(t) => Changes(s.c) < s.th[t].at + TWO32
    case Recheck(t, _, _) => s.gen < s.th[t].gen + TWO32
    case _ => true
  }

  /** A wait may return in a transaction that the caller then ends. */
  ghost predicate Exposed(u: Setup) {
    u.speculates && u.maxTries > 0 && u.unlockEnds
  }

  ghost function Start(threads: set<Tid>, clock: nat, u: Setup): State {
    State(Initial(clock), 0, clock % 2, u, Filled(threads, Out))
  }

  /** The state after the first `n` events, if each of them was enabled and timely. */
  ghost function At(s: State, es: seq<Event>, n: nat): Option<State>
    requires n <= |es|
  {
    if n == 0 then Some(s)
    else
      match At(s, es, n - 1)
      case None => None
      case Some(m) => if Enabled(m, es[n - 1]) && Timely(m, es[n - 1]) then Some(Step(m, es[n - 1])) else None
  }

  // ---------- the invariant ----------

  /** Everybody who is between registering and deregistering. */
  ghost function Registered(s: State): set<Tid> {
    set t | t in s.th && IsWaiter(s.th[t])
  }

  /** Waiters that registered after the last effective broadcast. */
  ghost function Current(s: State): set<Tid> {
    set t | t in s.th && IsWaiter(s.th[t]) && s.th[t].gen == s.gen
  }

  /** Current waiters that may take a wakeup. */
  ghost function Entitled(s: State): set<Tid> {
    set t | t in s.th && IsWaiter(s.th[t]) && s.th[t].gen == s.gen && s.th[t].w.seqNo < s.c.wakeupSeq
  }

  /** Awake, and unable to sleep without looking at the counters first. */
  ghost predicate Alert(s: State, p: Pc) {
    p.Relock? || (HasSample(p) && p.at < Changes(s.c))
  }

  ghost function AlertEntitled(s: State): set<Tid> {
    set t | t in Entitled(s) && Alert(s, s.th[t])
  }

  ghost predicate WakeAllDue(s: State) {
    exists t :: t in s.th && s.th[t].WakeAll?
  }

  ghost predicate Due(s: State, g: nat) {
    exists t :: t in s.th && s.th[t] == WakeAll(g)
  }

  ghost predicate WaiterOk(s: State, p: Pc)
    requires IsWaiter(p)
  {
    && p.gen <= s.gen
    && p.w.bcSeq == p.gen % TWO32
    && (p.gen == s.gen ==> p.w.seqNo <= s.c.wakeupSeq && p.w.seqNo < s.c.totalSeq)
  }

  ghost predicate SampleOk(s: State, p: Pc)
    requires HasSample(p)
  {
    && p.at <= Changes(s.c)
    && p.futexVal == p.at % TWO32
    && (p.gen < s.gen ==> p.at < Changes(s.c))
    && (p.gen == s.gen && p.at == Changes(s.c) ==> p.w.seqNo == s.c.wakeupSeq || s.c.wokenSeq == s.c.wakeupSeq)
  }

  ghost predicate Words(s: State) {
    && s.clock < 2
    && s.c.futex == Changes(s.c) % TWO32
    && s.c.broadcastSeq == s.gen % TWO32
    && CountsUsers(s.c.nwaiters, |Registered(s)|, s.clock)
  }

  ghost predicate Order(s: State) {
    && s.c.wokenSeq <= s.c.wakeupSeq <= s.c.totalSeq
    && |Current(s)| == s.c.totalSeq - s.c.wokenSeq
  }

  ghost predicate Threads(s: State) {
    forall t :: t in s.th ==>
      && (IsWaiter(s.th[t]) ==> WaiterOk(s, s.th[t]))
      && (HasSample(s.th[t]) ==> SampleOk(s, s.th[t]))
      && (s.th[t].Ahead? ==> s.setup.speculates && s.th[t].tries < s.setup.maxTries)
  }

  /** A waiter overtaken by broadcasts sleeps only while all of their wake-alls are still to come. */
  ghost predicate Overtaken(s: State) {
    forall t, g :: t in s.th && s.th[t].Parked? && s.th[t].gen < g <= s.gen ==> Due(s, g)
  }

  ghost predicate Consumers(s: State) {
    |Entitled(s)| >= s.c.wakeupSeq - s.c.wokenSeq
  }

  ghost predicate NotStranded(s: State) {
    WakeAllDue(s) || |AlertEntitled(s)| >= s.c.wakeupSeq - s.c.wokenSeq
  }

  ghost predicate Core(s: State) {
    Order(s) && Threads(s) && Overtaken(s) && Consumers(s) && NotStranded(s)
  }

  ghost predicate Inv(s: State) {
    Words(s) && Core(s)
  }

  // ---------- every step keeps the invariant ----------

  /** In time, the 32-bit comparisons decide the unbounded questions: nobody goes to sleep on an old
      sample, and nobody who looks again mistakes an old broadcast counter for the present one. */
  lemma TimelyTests(s: State, e: Event)
    requires Inv(s) && Enabled(s, e) && Timely(s, e)
    ensures e.Park? ==> s.th[e.t].at == Changes(s.c)
    ensures e.Recheck? ==> (s.th[e.t].w.bcSeq != s.c.broadcastSeq <==> s.th[e.t].gen != s.gen)
  {
    if e.Park? {
      SameWord(s.th[e.t].at, Changes(s.c));
    } else if e.Recheck? {
      SameWord(s.th[e.t].gen, s.gen);
    }
  }

  /** A wake-all that is still to come stays so while its thread does not move. */
  lemma DueKept(s: State, s': State)
    requires forall t :: t in s.th && s.th[t].WakeAll? ==> t in s'.th && s'.th[t] == s.th[t]
    ensures forall g :: Due(s, g) ==> Due(s', g)
    ensures WakeAllDue(s) ==> WakeAllDue(s')
  {
    forall g | Due(s, g)
      ensures Due(s', g)
    {
      var t :| t in s.th && s.th[t] == WakeAll(g);
      assert s'.th[t] == WakeAll(g);
    }
    if t :| t in s.th && s.th[t].WakeAll? {
      assert s'.th[t].WakeAll?;
    }
  }

  /** Wrapped counters keep tracking the unbounded ones. */
  lemma WrappedUp(word: nat, n: nat, k: nat)
    requires word == n % TWO32
    ensures Add32(word, k) == (n + k) % TWO32
  {
  }

  lemma WrappedDown(word: nat, n: nat, k: nat)
    requires word == n % TWO32 && k <= n && k <= TWO32
    ensures Sub32(word, k) == (n - k) % TWO32
  {
    assert word + (TWO32 - k) == n - k + TWO32 - n / TWO32 * TWO32;
    WholeTurns(n - k, n - k + TWO32);
  }

  lemma Doubled(n: nat)
    ensures n % TWO32 * 2 % TWO32 == (n + n) % TWO32
  {
    DoubledWord(n);
  }

  lemma FutexStep(s: State, e: Event)
    requires Words(s) && Enabled(s, e)
    ensures var s' := Step(s, e);
            s'.c.futex == Changes(s'.c) % TWO32 && s'.c.broadcastSeq == s'.gen % TWO32
  {
    match e
    case Broadcast(_) =>
      WrappedUp(s.c.broadcastSeq, s.gen, 1);
      Doubled(s.c.totalSeq);
    case _ =>
      WrappedUp(s.c.futex, Changes(s.c), 1);
      WrappedUp(Add32(s.c.futex, 1), Changes(s.c) + 1, 1);
  }

  ghost predicate Joins(e: Event) {
    e.Wait? && !(e.timed && e.expired)
  }

  ghost predicate Leaves(s: State, e: Event)
    requires Enabled(s, e)
  {
    e.Recheck? && !Judge(s.c, s.th[e.t].w, e.err, e.expired).Resample?
  }

  /** A call that joins or leaves moves `Registered` by itself. */
  lemma RegisteredStep(s: State, e: Event)
    requires Enabled(s, e) && !e.Commit?
    ensures Registered(Step(s, e)) ==
            if Leaves(s, e) then Registered(s) - {e.t} else if Joins(e) then Registered(s) + {e.t} else Registered(s)
    ensures Leaves(s, e) ==> e.t in Registered(s)
    ensures Joins(e) ==> e.t !in Registered(s)
  {
  }

  lemma NwaitersStep(s: State, e: Event)
    requires Enabled(s, e)
    ensures Step(s, e).clock == s.clock
    ensures Step(s, e).c.nwaiters ==
            if Leaves(s, e) then Sub32(s.c.nwaiters, 2)
            else if Joins(e) then Add32(s.c.nwaiters, 2)
            else if e.Wait? then Sub32(Add32(s.c.nwaiters, 2), 2)
            else s.c.nwaiters
  {
  }

  ghost predicate CountsUsers(word: nat, k: nat, clock: nat) {
    word == (2 * k + clock) % TWO32
  }

  lemma UserJoins(word: nat, k: nat, clock: nat)
    requires CountsUsers(word, k, clock)
    ensures CountsUsers(Add32(word, 2), k + 1, clock)
  {
    WrappedUp(word, 2 * k + clock, 2);
  }

  lemma UserLeaves(word: nat, k: nat, clock: nat)
    requires CountsUsers(word, k, clock) && k > 0
    ensures CountsUsers(Sub32(word, 2), k - 1, clock)
  {
    WrappedDown(word, 2 * k + clock, 2);
  }

  lemma UsersStep(s: State, e: Event)
    requires Words(s) && Enabled(s, e) && !e.Commit?
    ensures Step(s, e).clock == s.clock && CountsUsers(Step(s, e).c.nwaiters, |Registered(Step(s, e))|, s.clock)
  {
    var k := |Registered(s)|;
    RegisteredStep(s, e);
    NwaitersStep(s, e);
    if Leaves(s, e) {
      UserLeaves(s.c.nwaiters, k, s.clock);
    } else if e.Wait? {
      UserJoins(s.c.nwaiters, k, s.clock);
      UserLeaves(Add32(s.c.nwaiters, 2), k + 1, s.clock);
    }
  }

  /** The wrapped words agree with what they count after every step. */
  lemma WordsStep(s: State, e: Event)
    requires Words(s) && Enabled(s, e) && !e.Commit?
    ensures Words(Step(s, e))
  {
    FutexStep(s, e);
    UsersStep(s, e);
  }

  /** Nobody new goes to sleep and no broadcast starts, so `Overtaken` stays. */
  lemma OvertakenKept(s: State, s': State)
    requires Overtaken(s) && s'.gen == s.gen
    requires forall t :: t in s.th && s.th[t].WakeAll? ==> t in s'.th && s'.th[t] == s.th[t]
    requires forall t :: t in s'.th && s'.th[t].Parked? && s'.th[t].gen < s.gen ==> t in s.th && s.th[t] == s'.th[t]
    ensures Overtaken(s')
  {
    DueKept(s, s');
  }

  // ---- Wait ----

  lemma WaitThreads(s: State, e: Event)
    requires Inv(s) && Enabled(s, e) && e.Wait?
    ensures Threads(Step(s, e)) && Overtaken(Step(s, e))
  {
    FutexStep(s, e);
    OvertakenKept(s, Step(s, e));
  }

  lemma JoinCounters(s: State, e: Event)
    requires Enabled(s, e) && Joins(e)
    ensures var s' := Step(s, e);
            && s'.gen == s.gen && s'.c.wakeupSeq == s.c.wakeupSeq
            && s'.th == s.th[e.t := s'.th[e.t]]
            && IsWaiter(s'.th[e.t]) && s'.th[e.t].gen == s.gen && s'.th[e.t].w.seqNo == s.c.wakeupSeq
  {
  }

  lemma JoinSets(s: State, e: Event)
    requires Enabled(s, e) && Joins(e)
    ensures Current(Step(s, e)) == Current(s) + {e.t} && e.t !in Current(s)
    ensures Entitled(Step(s, e)) == Entitled(s)
  {
    JoinCounters(s, e);
  }

  lemma PassSets(s: State, e: Event)
    requires Threads(s) && Enabled(s, e) && e.Wait? && !Joins(e)
    ensures Current(Step(s, e)) == Current(s) && Entitled(Step(s, e)) == Current(s)
  {
  }

  lemma WaitAlert(s: State, e: Event)
    requires Inv(s) && Enabled(s, e) && e.Wait?
    ensures AlertEntitled(s) <= AlertEntitled(Step(s, e))
  {
    if Joins(e) {
      JoinSets(s, e);
    } else {
      PassSets(s, e);
    }
  }

  lemma WaitNotStranded(s: State, e: Event)
    requires Inv(s) && Enabled(s, e) && e.Wait?
    ensures NotStranded(Step(s, e))
  {
    DueKept(s, Step(s, e));
    WaitAlert(s, e);
    SubsetCard(AlertEntitled(s), AlertEntitled(Step(s, e)));
  }

  lemma CoreWait(s: State, e: Event)
    requires Inv(s) && Enabled(s, e) && e.Wait?
    ensures Core(Step(s, e))
  {
    WaitThreads(s, e);
    WaitNotStranded(s, e);
    if Joins(e) {
      JoinSets(s, e);
    } else {
      PassSets(s, e);
    }
  }

  // ---- steps of one waiter that leave the counters alone ----

  ghost predicate OwnMove(s: State, e: Event) {
    Enabled(s, e) && (e.Park? || e.RunAhead? || e.RollBack? || e.Wake?)
  }

  lemma OwnMoveSets(s: State, e: Event)
    requires OwnMove(s, e)
    ensures Current(Step(s, e)) == Current(s) && Entitled(Step(s, e)) == Entitled(s)
  {
  }

  lemma ParkSets(s: State, e: Event)
    requires Inv(s) && Enabled(s, e) && Timely(s, e) && e.Park?
    ensures s.c.wokenSeq < s.c.wakeupSeq ==> AlertEntitled(Step(s, e)) == AlertEntitled(s)
  {
    TimelyTests(s, e);
  }

  lemma ParkOvertaken(s: State, e: Event)
    requires Inv(s) && Enabled(s, e) && Timely(s, e) && e.Park?
    ensures Overtaken(Step(s, e))
  {
    TimelyTests(s, e);
    OvertakenKept(s, Step(s, e));
  }

  lemma CorePark(s: State, e: Event)
    requires Inv(s) && Enabled(s, e) && Timely(s, e) && e.Park?
    ensures Core(Step(s, e))
  {
    OwnMoveSets(s, e);
    ParkOvertaken(s, e);
    DueKept(s, Step(s, e));
    ParkSets(s, e);
  }

  /** Waking up, running ahead and being rolled back make nobody less alert. */
  lemma AwakeSets(s: State, e: Event)
    requires OwnMove(s, e) && !e.Park?
    ensures AlertEntitled(s) <= AlertEntitled(Step(s, e))
  {
    OwnMoveSets(s, e);
  }

  lemma AwakeThreads(s: State, e: Event)
    requires Threads(s) && Overtaken(s) && OwnMove(s, e) && !e.Park?
    ensures Threads(Step(s, e)) && Overtaken(Step(s, e))
  {
    OvertakenKept(s, Step(s, e));
  }

  lemma CoreAwake(s: State, e: Event)
    requires Inv(s) && OwnMove(s, e) && !e.Park?
    ensures Core(Step(s, e))
  {
    OwnMoveSets(s, e);
    AwakeThreads(s, e);
    DueKept(s, Step(s, e));
    AwakeSets(s, e);
    SubsetCard(AlertEntitled(s), AlertEntitled(Step(s, e)));
  }

  // ---- Recheck ----

  /** A waiter that looks again and stays has nothing pending, or is not entitled to it. */
  lemma RecheckThreads(s: State, e: Event)
    requires Inv(s) && Enabled(s, e) && Timely(s, e) && e.Recheck?
    ensures Threads(Step(s, e)) && Overtaken(Step(s, e))
  {
    var s' := Step(s, e);
    TimelyTests(s, e);
    FutexStep(s, e);
    OvertakenKept(s, s');
  }

  /** How looking again moves the three sets of waiters. */
  lemma RecheckSets(s: State, e: Event)
    requires Inv(s) && Enabled(s, e) && Timely(s, e) && e.Recheck?
    ensures var s' := Step(s, e);
            match Judge(s.c, s.th[e.t].w, e.err, e.expired)
            case BroadcastOut => Current(s') == Current(s) && Entitled(s') == Entitled(s)
            case Consumed => Current(s') == Current(s) - {e.t} && Entitled(s') == Entitled(s) - {e.t}
            case TimedOut => e.t in Current(s) && Current(s') == Current(s) - {e.t} && Entitled(s') == Current(s')
            case Resample => Current(s') == Current(s) && Entitled(s') == Entitled(s)
  {
    TimelyTests(s, e);
  }

  lemma RecheckOrder(s: State, e: Event)
    requires Inv(s) && Enabled(s, e) && Timely(s, e) && e.Recheck?
    ensures Order(Step(s, e)) && Consumers(Step(s, e))
  {
    TimelyTests(s, e);
    RecheckSets(s, e);
    assert Judge(s.c, s.th[e.t].w, e.err, e.expired).Consumed? ==> e.t in Entitled(s);
  }

  lemma RecheckNotStranded(s: State, e: Event)
    requires Inv(s) && Enabled(s, e) && Timely(s, e) && e.Recheck?
    ensures NotStranded(Step(s, e))
  {
    var s' := Step(s, e);
    TimelyTests(s, e);
    RecheckSets(s, e);
    DueKept(s, s');
    SubsetCard(AlertEntitled(s) - {e.t}, AlertEntitled(s'));
    if e.t !in AlertEntitled(s) {
      assert AlertEntitled(s) - {e.t} == AlertEntitled(s);
    }
  }

  lemma CoreRecheck(s: State, e: Event)
    requires Inv(s) && Enabled(s, e) && Timely(s, e) && e.Recheck?
    ensures Core(Step(s, e))
  {
    RecheckThreads(s, e);
    RecheckOrder(s, e);
    RecheckNotStranded(s, e);
  }

  // ---- Signal ----

  lemma SignalThreads(s: State, e: Event)
    requires Order(s) && Threads(s) && Overtaken(s) && Enabled(s, e) && e.Signal?
    ensures Threads(Step(s, e)) && Overtaken(Step(s, e))
  {
    OvertakenKept(s, Step(s, e));
  }

  lemma SignalSets(s: State, e: Event)
    requires Inv(s) && Enabled(s, e) && e.Signal?
    ensures Current(Step(s, e)) == Current(s)
    ensures Entitled(Step(s, e)) == if Effective(s.c) then Current(s) else Entitled(s)
  {
  }

  /** Unless a wake-all is due, nobody overtaken is asleep, so every sleeper is current. */
  lemma SleepersCurrent(s: State)
    requires Threads(s) && Overtaken(s) && !WakeAllDue(s)
    ensures Sleepers(s) <= Current(s)
  {
    forall t | t in Sleepers(s)
      ensures t in Current(s)
    {
      assert s.th[t].gen < s.gen ==> Due(s, s.gen);
    }
  }

  lemma SignalAlert(s: State, e: Event)
    requires Inv(s) && Enabled(s, e) && e.Signal? && Effective(s.c) && !WakeAllDue(s)
    ensures AlertEntitled(Step(s, e)) == (Current(s) - Sleepers(s)) + e.roused
    ensures AlertEntitled(s) <= Current(s) - Sleepers(s)
  {
    SignalSets(s, e);
    SleepersCurrent(s);
  }

  lemma SignalRouses(s: State, e: Event)
    requires Inv(s) && Enabled(s, e) && e.Signal? && Effective(s.c)
    ensures NotStranded(Step(s, e))
  {
    var s' := Step(s, e);
    DueKept(s, s');
    if !WakeAllDue(s) {
      var awake := Current(s) - Sleepers(s);
      SignalAlert(s, e);
      if Sleepers(s) == {} {
        assert awake + e.roused == Current(s);
      } else {
        SubsetCard(AlertEntitled(s), awake);
        var r :| r in e.roused;
        SubsetCard(awake + {r}, AlertEntitled(s'));
      }
    }
  }

  lemma IdleSignal(s: State, e: Event)
    requires Inv(s) && Enabled(s, e) && e.Signal? && !Effective(s.c)
    ensures Step(s, e).th == s.th && Step(s, e).c == s.c
  {
  }

  lemma CoreSignal(s: State, e: Event)
    requires Inv(s) && Enabled(s, e) && e.Signal?
    ensures Core(Step(s, e))
  {
    if Effective(s.c) {
      SignalThreads(s, e);
      SignalSets(s, e);
      SignalRouses(s, e);
    } else {
      IdleSignal(s, e);
      assert Step(s, e) == s;
    }
  }

  // ---- Broadcast ----

  lemma CoreBroadcast(s: State, e: Event)
    requires Inv(s) && Enabled(s, e) && e.Broadcast?
    ensures Core(Step(s, e))
  {
    var s' := Step(s, e);
    if Effective(s.c) {
      assert Current(s') == {};
      DueKept(s, s');
      assert s'.th[e.t] == WakeAll(s'.gen);
      assert Due(s', s'.gen);
    }
  }

  lemma RouseAllSets(s: State, e: Event)
    requires Enabled(s, e) && e.RouseAll?
    ensures Current(Step(s, e)) == Current(s) && Entitled(Step(s, e)) == Entitled(s)
    ensures Sleepers(Step(s, e)) == {}
  {
  }

  lemma RouseAllThreads(s: State, e: Event)
    requires Inv(s) && Enabled(s, e) && e.RouseAll?
    ensures Threads(Step(s, e)) && Overtaken(Step(s, e))
  {
    forall t | t in Step(s, e).th
      ensures !Step(s, e).th[t].Parked?
    {
    }
  }

  lemma CoreRouseAll(s: State, e: Event)
    requires Inv(s) && Enabled(s, e) && e.RouseAll?
    ensures Core(Step(s, e))
  {
    RouseAllSets(s, e);
    RouseAllThreads(s, e);
    RouseAllAlert(s, e);
  }

  lemma RouseAllAlert(s: State, e: Event)
    requires Inv(s) && Enabled(s, e) && e.RouseAll?
    ensures NotStranded(Step(s, e))
  {
    RouseAllSets(s, e);
    if s.c.wokenSeq < s.c.wakeupSeq {
      assert AlertEntitled(Step(s, e)) == Entitled(s);
    }
  }

  lemma NobodyCommits(s: State, e: Event)
    requires Threads(s) && Enabled(s, e) && !Exposed(s.setup)
    ensures !e.Commit?
  {
  }

  lemma InvStep(s: State, e: Event)
    requires Inv(s) && Enabled(s, e) && Timely(s, e) && !Exposed(s.setup)
    ensures Inv(Step(s, e))
  {
    NobodyCommits(s, e);
    WordsStep(s, e);
    match e
    case Wait(_, _, _) => CoreWait(s, e);
    case Park(_) => CorePark(s, e);
    case RunAhead(_) => CoreAwake(s, e);
    case RollBack(_) => CoreAwake(s, e);
    case Commit(_) =>
    case Wake(_) => CoreAwake(s, e);
    case Recheck(_, _, _) => CoreRecheck(s, e);
    case Signal(_, _) => CoreSignal(s, e);
    case Broadcast(_) => CoreBroadcast(s, e);
    case RouseAll(_) => CoreRouseAll(s, e);
  }

  lemma InvStart(threads: set<Tid>, clock: nat, u: Setup)
    ensures Inv(Start(threads, clock, u))
  {
    var s := Start(threads, clock, u);
    assert Registered(s) == {} && Current(s) == {};
  }

  /** A run's last state comes from the one before it. */
  lemma AtLast(s: State, es: seq<Event>, n: nat, m: State) returns (k: nat, p: State)
    requires 0 < n <= |es| && At(s, es, n) == Some(m)
    ensures k + 1 == n && At(s, es, k) == Some(p)
    ensures Enabled(p, es[k]) && Timely(p, es[k]) && m == Step(p, es[k])
  {
    k, p := n - 1, At(s, es, n - 1).value;
  }

  lemma {:induction false} InvRun(s: State, es: seq<Event>, n: nat, m: State)
    requires Inv(s) && !Exposed(s.setup) && n <= |es| && At(s, es, n) == Some(m)
    ensures Inv(m) && m.setup == s.setup
    decreases n
  {
    if n > 0 {
      var k, p := AtLast(s, es, n, m);
      InvRun(s, es, k, p);
      InvStep(p, es[k]);
    }
  }
}
