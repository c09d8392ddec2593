/** The priority test-and-set lock of txlock.c.  A thread whose speculation was rolled back announces
    itself in `ready`; the fast path of lock and trylock needs a snapshot in which `ready` is 0. */
module PriorityLock {
  import opened Common
  import opened TasWord

  /** Where a thread stands.  `tries` says whether it is in trylock rather than lock; in `Test` and
      `Swap` the snapshot had `ready == 0`. */
  datatype Pc =
    | Idle
    | Snap(tries: bool)
    | Snapped(tries: bool, ready: int)
    | Test(tries: bool)
    | Swap(tries: bool)
    | Decide(ready: int)
    | Announce
    | UrgentTest
    | UrgentSwap
    | UrgentOwner
    | Owner

  datatype State = State(w: Word, window: nat, th: map<Tid, Pc>)

  datatype Event = Call(t: Tid, tries: bool) | Go(t: Tid) | Unlock(t: Tid)

  ghost predicate Enabled(s: State, e: Event) {
    e.t in s.th &&
    match e
    case Call(t, _) => s.th[t].Idle?
    case Go(t) => !s.th[t].Idle? && !s.th[t].Owner?
    case Unlock(t) => s.th[t].Owner?
  }

  /** After a missed fast path, trylock gives up and lock goes on. */
  ghost function Missed(tries: bool, ready: int): Pc {
    if tries then Idle else Decide(ready)
  }

  /** The lock word and the thread's place after its next operation.  A speculation entered in
      `Decide` is rolled back, so only its end shows. */
  ghost function Next(w: Word, window: nat, p: Pc): (Word, Pc)
    requires !p.Idle? && !p.Owner?
  {
    match p
    case Snap(tries) => (w, Snapped(tries, w.ready))
    case Snapped(tries, ready) => (w, if ready == 0 then Test(tries) else Missed(tries, ready))
    case Test(tries) => (w, if w.val != 0 then Missed(tries, 0) else Swap(tries))
    case Swap(tries) => (Swapped(w), if w.val != 0 then Missed(tries, 0) else Owner)
    case Decide(ready) => (w, if ready % TWO32 < window then Announce else Snap(false))
    case Announce => (ReadyAdded(w, 1), UrgentTest)
    case UrgentTest => (w, if w.val != 0 then UrgentTest else UrgentSwap)
    case UrgentSwap => (Swapped(w), if w.val != 0 then UrgentTest else UrgentOwner)
    case UrgentOwner => (ReadyAdded(w, -1), Owner)
  }

  ghost function Step(s: State, e: Event): State
    requires Enabled(s, e)
  {
    match e
    case Call(t, tries) => s.(th := s.th[t := Snap(tries)])
    case Go(t) => var (w, p) := Next(s.w, s.window, s.th[t]); s.(w := w, th := s.th[t := p])
    case Unlock(t) => s.(w := Released(s.w), th := s.th[t := Idle])
  }

  ghost function Start(threads: set<Tid>, window: nat): State {
    State(Word(0, 0), window, Filled(threads, Idle))
  }

  ghost function At(s: State, es: seq<Event>, n: nat): Option<State>
    requires n <= |es|
  {
    if n == 0 then Some(s)
    else
      match At(s, es, n - 1)
      case None => None
      case Some(m) => if Enabled(m, es[n - 1]) then Some(Step(m, es[n - 1])) else None
  }

  // ---------- the invariant ----------

  /** Between its increment of `ready` and its decrement. */
  ghost predicate Urgent(p: Pc) {
    p.UrgentTest? || p.UrgentSwap? || p.UrgentOwner?
  }

  ghost predicate Owns(p: Pc) {
    p.Owner? || p.UrgentOwner?
  }

  ghost function UrgentSet(s: State): set<Tid> {
    set t | t in s.th && Urgent(s.th[t])
  }

  ghost predicate Held(s: State) {
    exists t :: t in s.th && Owns(s.th[t])
  }

  ghost predicate Inv(s: State) {
    && s.w.ready == |UrgentSet(s)|
    && (s.w.val == if Held(s) then 1 else 0)
    && (forall t, u :: t in s.th && u in s.th && Owns(s.th[t]) && Owns(s.th[u]) ==> t == u)
  }

  lemma UrgentStep(s: State, e: Event)
    requires Enabled(s, e)
    ensures UrgentSet(Step(s, e)) ==
            if e.Go? && s.th[e.t].Announce? then UrgentSet(s) + {e.t}
            else if e.Go? && s.th[e.t].UrgentOwner? then UrgentSet(s) - {e.t}
            else UrgentSet(s)
    ensures UrgentSet(Step(s, e)) <= s.th.Keys
    ensures e.Go? && s.th[e.t].Announce? ==> e.t !in UrgentSet(s)
    ensures e.Go? && s.th[e.t].UrgentOwner? ==> e.t in UrgentSet(s)
  {
  }

  lemma ReadyStep(s: State, e: Event)
    requires s.w.ready == |UrgentSet(s)| && |s.th.Keys| < TWO15 && Enabled(s, e)
    ensures Step(s, e).w.ready == |UrgentSet(Step(s, e))|
  {
    UrgentStep(s, e);
    SubsetCard(UrgentSet(Step(s, e)), s.th.Keys);
  }

  /** The word is set by whoever comes to own the lock, and cleared by its unlock. */
  lemma HeldStep(s: State, e: Event)
    requires Inv(s) && Enabled(s, e)
    ensures var s' := Step(s, e);
            && s'.w.val == (if Held(s') then 1 else 0)
            && forall t, u :: t in s'.th && u in s'.th && Owns(s'.th[t]) && Owns(s'.th[u]) ==> t == u
  {
    var s' := Step(s, e);
    if t :| t in s.th && t != e.t && Owns(s.th[t]) {
      assert s'.th[t] == s.th[t];
    }
    assert Owns(s'.th[e.t]) ==> Held(s');
    assert Owns(s.th[e.t]) ==> Held(s);
  }

  lemma InvStep(s: State, e: Event)
    requires Inv(s) && |s.th.Keys| < TWO15 && Enabled(s, e)
    ensures Inv(Step(s, e)) && Step(s, e).th.Keys == s.th.Keys
  {
    ReadyStep(s, e);
    HeldStep(s, e);
  }

  /** Fewer than 2^15 threads: `ready` counts the urgent ones, and at most one thread owns. */
  lemma {:induction false} PriorityLockSafe(threads: set<Tid>, window: nat, es: seq<Event>, n: nat)
    requires |threads| < TWO15 && n <= |es| && At(Start(threads, window), es, n).Some?
    ensures var s := At(Start(threads, window), es, n).value;
            && s.th.Keys == threads && s.window == window
            && Inv(s)
  {
    if n == 0 {
      assert UrgentSet(Start(threads, window)) == {};
    } else {
      PriorityLockSafe(threads, window, es, n - 1);
      InvStep(At(Start(threads, window), es, n - 1).value, es[n - 1]);
    }
  }

  // ---------- the lock can be had ----------

  /** An unlock leaves the lock free, and the next test and swap of any announced thread take it. */
  lemma UnlockFrees(s: State, t: Tid, u: Tid)
    requires Inv(s) && Enabled(s, Unlock(t)) && u in s.th && s.th[u].UrgentTest?
    ensures var s1 := Step(s, Unlock(t));
            && s1.w == Word(0, s.w.ready) && s1.th[t].Idle? && !Held(s1)
            && Enabled(s1, Go(u)) && Enabled(Step(s1, Go(u)), Go(u))
            && Owns(Step(Step(s1, Go(u)), Go(u)).th[u])
  {
    assert Held(s);
    assert forall v :: v in s.th && Owns(s.th[v]) ==> v == t;
  }

  /** The word and the thread's place after `n` of its operations when nobody interferes. */
  ghost function Alone(w: Word, window: nat, p: Pc, n: nat): (Word, Pc) {
    if n == 0 then (w, p)
    else
      var (w', p') := Alone(w, window, p, n - 1);
      if p'.Idle? || p'.Owner? then (w', p') else Next(w', window, p')
  }

  lemma AloneTwice(w: Word, window: nat, p: Pc)
    ensures Alone(w, window, p, 0) == (w, p)
    ensures Alone(w, window, p, 1) == if p.Idle? || p.Owner? then (w, p) else Next(w, window, p)
    ensures Alone(w, window, p, 2) ==
            var (w1, p1) := Alone(w, window, p, 1); if p1.Idle? || p1.Owner? then (w1, p1) else Next(w1, window, p1)
    ensures Alone(w, window, p, 3) ==
            var (w2, p2) := Alone(w, window, p, 2); if p2.Idle? || p2.Owner? then (w2, p2) else Next(w2, window, p2)
    ensures Alone(w, window, p, 4) ==
            var (w3, p3) := Alone(w, window, p, 3); if p3.Idle? || p3.Owner? then (w3, p3) else Next(w3, window, p3)
  {
  }

  /** Undisturbed, a trylock takes the lock exactly when it is free and nobody is announced, and is over
      after four operations. */
  lemma TryAlone(w: Word, window: nat)
    requires w.val == 0 || w.val == 1
    ensures Alone(w, window, Snap(true), 4) ==
            if w.val == 0 && w.ready == 0 then (Word(1, 0), Owner) else (w, Idle)
  {
    AloneTwice(w, window, Snap(true));
  }

  /** Undisturbed, so does the fast path of lock; otherwise lock goes on with the number announced. */
  lemma LockAlone(w: Word, window: nat)
    requires w.val == 0 || w.val == 1
    ensures w.val == 0 && w.ready == 0 ==> Alone(w, window, Snap(false), 4) == (Word(1, 0), Owner)
    ensures w.ready != 0 ==> Alone(w, window, Snap(false), 2) == (w, Decide(w.ready))
    ensures w.val != 0 && w.ready == 0 ==> Alone(w, window, Snap(false), 3) == (w, Decide(0))
  {
    AloneTwice(w, window, Snap(false));
  }

  /** Whatever a thread is doing, it has a step of its own to take. */
  lemma ThreadsCanMove(s: State, t: Tid)
    requires t in s.th
    ensures match s.th[t]
            case Idle => Enabled(s, Call(t, false)) && Enabled(s, Call(t, true))
            case Owner => Enabled(s, Unlock(t))
            case _ => Enabled(s, Go(t))
  {
  }

  /** A call starts on the fast path, as lock or as trylock. */
  lemma CallStarts(s: State, t: Tid, tries: bool)
    requires t in s.th && s.th[t].Idle?
    ensures Enabled(s, Call(t, tries)) && Step(s, Call(t, tries)) == s.(th := s.th[t := Snap(tries)])
  {
  }

  /** A thread announces itself when fewer than `window` threads are; it then counts among them until it
      owns the lock, and leaves their number as it was when it goes on as an ordinary owner. */
  lemma AnnouncesExactly(w: Word, window: nat, ready: nat)
    requires ready < TWO15 && 0 <= w.ready < TWO15 - 1
    ensures Next(w, window, Decide(ready)) == (w, if ready < window then Announce else Snap(false))
    ensures Alone(w.(val := 0), window, Announce, 4) == (Word(1, w.ready), Owner)
    ensures Alone(w.(val := 1), window, Announce, 2) == (Word(1, w.ready + 1), UrgentTest)
  {
    AloneTwice(w.(val := 0), window, Announce);
    AloneTwice(w.(val := 1), window, Announce);
  }

  // ---------- bounded overtaking ----------

  /** Holding a snapshot with `ready == 0` that has not been spent. */
  ghost predicate Armed(p: Pc) {
    (p.Snapped? && p.ready == 0) || p.Test? || p.Swap?
  }

  ghost function Chances(s: State, t: Tid): nat {
    if t in s.th && Armed(s.th[t]) then 1 else 0
  }

  /** Does this event take the lock for `t` on the fast path? */
  ghost predicate FastPath(s: State, e: Event, t: Tid) {
    e.t == t && Enabled(s, e) && e.Go? && s.th[t].Swap? && s.w.val == 0
  }

  /** Fast-path acquisitions of `t` among the events from `i` to `n`. */
  ghost function FastPaths(s: State, es: seq<Event>, t: Tid, i: nat, n: nat): nat
    requires i <= n <= |es|
  {
    if i == n then 0
    else
      FastPaths(s, es, t, i, n - 1) +
      match At(s, es, n - 1)
      case Some(m) => if FastPath(m, es[n - 1], t) then 1 else 0
      case None => 0
  }

  ghost predicate UrgentAt(s: State, es: seq<Event>, p: Tid, k: nat)
    requires k <= |es|
  {
    match At(s, es, k)
    case Some(m) => p in UrgentSet(m)
    case None => false
  }

  lemma ChancesStep(s: State, e: Event, p: Tid, t: Tid)
    requires Inv(s) && |s.th.Keys| < TWO15 && Enabled(s, e) && p in UrgentSet(s)
    ensures Chances(Step(s, e), t) + (if FastPath(s, e, t) then 1 else 0) <= Chances(s, t)
  {
    assert s.w.ready > 0;
  }

  /** While thread `p` stays urgent, every thread makes at most one fast-path acquisition, and none
      at all unless it was already holding a snapshot from before. */
  lemma {:induction false} BoundedOvertaking(
      threads: set<Tid>, window: nat, es: seq<Event>, p: Tid, t: Tid, i: nat, n: nat)
    requires |threads| < TWO15 && i <= n <= |es| && At(Start(threads, window), es, n).Some?
    requires forall k :: i <= k <= n ==> UrgentAt(Start(threads, window), es, p, k)
    ensures At(Start(threads, window), es, i).Some?
    ensures FastPaths(Start(threads, window), es, t, i, n) + Chances(At(Start(threads, window), es, n).value, t)
            <= Chances(At(Start(threads, window), es, i).value, t) <= 1
  {
    if i < n {
      var s0 := Start(threads, window);
      BoundedOvertaking(threads, window, es, p, t, i, n - 1);
      PriorityLockSafe(threads, window, es, n - 1);
      assert UrgentAt(s0, es, p, n - 1);
      ChancesStep(At(s0, es, n - 1).value, es[n - 1], p, t);
    }
  }
}
