/** The `ticket` and `ticket_tm` locks of txlock.c as lock code: what they do step by step, that the
    second is the first with invisible speculation, and that the runs of the first are runs of the
    ticket lock in module Ticket. */
module TicketSpeculation {
  import opened Common
  import opened Htm
  import opened Speculation
  import T = Ticket

  const NEXT: nat := 0
  const NOW: nat := 1

  datatype Call = Lock | Unlock

  // ---------- ticket ----------

  /** `Dist` reads `now` once more, for the length of the wait; `LoadNow` and `StoreNow` are the two
      halves of `now++`. */
  datatype Plain =
    | Idle
    | Owner
    | Take
    | Spin(mine: int)
    | Dist(mine: int)
    | LoadNow
    | StoreNow(loaded: int)

  ghost function PlainOp(p: Plain): Op {
    match p
    case Take => FetchAdd(NEXT, 1)
    case StoreNow(loaded) => StoreWord(NOW, (loaded + 1) % TWO32)
    case _ => LoadWord(NOW)
  }

  ghost function PlainNext(p: Plain, r: int): Plain {
    match p
    case Take => Spin(r)
    case Spin(mine) => if mine == r then Owner else Dist(mine)
    case Dist(mine) => Spin(mine)
    case LoadNow => StoreNow(r)
    case _ => Idle
  }

  ghost function PlainEnter(p: Plain, c: Call): Option<Plain> {
    match (p, c)
    case (Idle, Lock) => Some(Take)
    case (Owner, Unlock) => Some(LoadNow)
    case _ => None
  }

  ghost predicate PlainOwns(p: Plain) {
    p.Owner? || p.LoadNow? || p.StoreNow?
  }

  ghost function TicketLock(): Code<Plain, Call> {
    Code(PlainOp, PlainNext, (p: Plain) => p.Idle? || p.Owner?, PlainEnter, PlainOwns)
  }

  // ---------- ticket_tm ----------

  datatype Tuning = Tuning(maxTries: nat, minDistance: nat, maxDistance: nat)

  /** `Check` looks at `now` inside the transaction, and `Quit` aborts it. */
  datatype Tm =
    | TmIdle
    | TmOwner
    | LockEntry
    | UnlockEntry
    | TmTake
    | TmSpin(mine: int, tries: nat)
    | TmDist(mine: int, tries: nat)
    | Arm(mine: int, tries: nat)
    | Begin(mine: int, tries: nat)
    | Check(mine: int)
    | Quit
    | Clear(mine: int, tries: nat)
    | TmLoadNow
    | TmStoreNow(loaded: int)

  ghost function TmOp(p: Tm): Op {
    match p
    case LockEntry => GetSpec
    case UnlockEntry => GetSpec
    case TmTake => FetchAdd(NEXT, 1)
    case Arm(_, _) => SetSpec(true)
    case Begin(_, _) => HtmBegin
    case Quit => HtmAbort
    case Clear(_, _) => SetSpec(false)
    case TmStoreNow(loaded) => StoreWord(NOW, (loaded + 1) % TWO32)
    case _ => LoadWord(NOW)
  }

  /** How far the ticket is from being served. */
  function Distance(mine: int, now: int): nat {
    (mine - now) % TWO32
  }

  ghost function TmNext(g: Tuning, p: Tm, r: int): Tm {
    match p
    case LockEntry => if r == 0 then TmTake else TmOwner
    case UnlockEntry => if r == 0 then TmLoadNow else TmIdle
    case TmTake => TmSpin(r, 0)
    case TmSpin(mine, tries) => if mine == r then TmOwner else TmDist(mine, tries)
    case TmDist(mine, tries) =>
      if g.minDistance <= Distance(mine, r) <= g.maxDistance && tries < g.maxTries then Arm(mine, tries)
      else TmSpin(mine, tries)
    case Arm(mine, tries) => Begin(mine, tries)
    case Begin(mine, tries) => if r != 0 then Check(mine) else Clear(mine, tries)
    case Check(mine) => if r == mine then Quit else TmOwner
    case Clear(mine, tries) => TmSpin(mine, tries + 1)
    case TmLoadNow => TmStoreNow(r)
    case _ => TmIdle
  }

  ghost function TmEnter(p: Tm, c: Call): Option<Tm> {
    match (p, c)
    case (TmIdle, Lock) => Some(LockEntry)
    case (TmOwner, Unlock) => Some(UnlockEntry)
    case _ => None
  }

  ghost predicate TmOwns(p: Tm) {
    p.TmOwner? || p.UnlockEntry? || p.TmLoadNow? || p.TmStoreNow?
  }

  ghost function TicketTm(g: Tuning): Code<Tm, Call> {
    Code(TmOp, (p: Tm, r: int) => TmNext(g, p, r), (p: Tm) => p.TmIdle? || p.TmOwner?, TmEnter, TmOwns)
  }

  ghost function KindOf(p: Tm): Kind {
    match p
    case TmIdle => Client
    case TmOwner => Client
    case LockEntry => Entry
    case UnlockEntry => Entry
    case Begin(_, _) => Armed
    case Check(_) => Inside
    case Quit => Inside
    case Clear(_, _) => Cleanup
    case _ => Real
  }

  ghost function View(p: Tm): Plain {
    match p
    case TmIdle => Idle
    case TmOwner => Owner
    case LockEntry => Take
    case TmTake => Take
    case UnlockEntry => LoadNow
    case TmLoadNow => LoadNow
    case TmStoreNow(loaded) => StoreNow(loaded)
    case TmSpin(mine, _) => Spin(mine)
    case TmDist(mine, _) => Dist(mine)
    case Arm(mine, _) => Spin(mine)
    case Begin(mine, _) => Spin(mine)
    case Clear(mine, _) => Spin(mine)
    case Check(mine) => Spin(mine)
    case Quit => Take
  }

  /** `ticket_tm` tests `spec_entry` as it should, and is `ticket` wherever it touches a lock word
      outside transactions. */
  lemma TicketTmSimulates(g: Tuning)
    ensures Simulates(TicketTm(g), KindOf, TicketLock(), View)
  {
    forall p
      ensures WellPlaced(TicketTm(g), KindOf, p) && LooksPlain(TicketTm(g), KindOf, TicketLock(), View, p)
    {
    }
  }

  // ---------- runs of ticket are runs of the ticket lock ----------

  ghost predicate SamePlace(p: Plain, q: T.Pc) {
    match p
    case Idle => q.Idle?
    case Take => q.Idle?
    case Owner => q.Owner?
    case LoadNow => q.Owner?
    case Spin(mine) => q.Waiting? && q.ticket == mine
    case Dist(mine) => q.Waiting? && q.ticket == mine
    case StoreNow(loaded) => q.Bumping? && q.loaded == loaded
  }

  ghost predicate Matches(s: State<Plain>, q: T.State) {
    && q.w.next == Get(s.mem, Word(NEXT)) && q.w.now == Get(s.mem, Word(NOW))
    && q.th.Keys == s.th.Keys && q.granted == s.grants
    && forall t :: t in s.th ==> s.th[t].tx.None? && SamePlace(s.th[t].p, q.th[t])
  }

  /** The event of the ticket lock that an event of its code is, if any. */
  ghost function ActOf(s: State<Plain>, e: Event<Call>): Option<T.Event> {
    if !e.Go? || e.t !in s.th then None
    else
      match s.th[e.t].p
      case Take => Some(T.Take(e.t))
      case Spin(mine) => if mine == Get(s.mem, Word(NOW)) then Some(T.Enter(e.t)) else None
      case LoadNow => Some(T.LoadNow(e.t))
      case StoreNow(_) => Some(T.StoreNow(e.t))
      case _ => None
  }

  /** What the step does to its own thread, to the words and to the grants. */
  lemma OwnAct(s: State<Plain>, q: T.State, e: Event<Call>)
    requires Matches(s, q) && Step(TicketLock(), s, e).Some? && ActOf(s, e).Some?
    ensures var s', a := Step(TicketLock(), s, e).value, ActOf(s, e).value;
            && T.Enabled(q, a)
            && var q' := T.Step(q, a);
               && q'.w.next == Get(s'.mem, Word(NEXT)) && q'.w.now == Get(s'.mem, Word(NOW)) && q'.granted == s'.grants
               && q'.th == q.th[e.t := q'.th[e.t]]
               && e.t in s'.th && s'.th[e.t].tx.None? && SamePlace(s'.th[e.t].p, q'.th[e.t])
  {
  }

  lemma NoAct(s: State<Plain>, q: T.State, e: Event<Call>)
    requires Matches(s, q) && Step(TicketLock(), s, e).Some? && ActOf(s, e).None?
    ensures Matches(Step(TicketLock(), s, e).value, q)
  {
    StepIsOwn(TicketLock(), s, e);
  }

  lemma ActStep(s: State<Plain>, q: T.State, e: Event<Call>)
    requires Matches(s, q) && Step(TicketLock(), s, e).Some?
    ensures match ActOf(s, e)
            case None => Matches(Step(TicketLock(), s, e).value, q)
            case Some(a) => T.Enabled(q, a) && Matches(Step(TicketLock(), s, e).value, T.Step(q, a))
  {
    if ActOf(s, e).Some? {
      OwnAct(s, q, e);
      StepIsOwn(TicketLock(), s, e);
    } else {
      NoAct(s, q, e);
    }
  }

  ghost function Acts(s: State<Plain>, es: seq<Event<Call>>, n: nat): seq<T.Event>
    requires n <= |es| && At(TicketLock(), s, es, n).Some?
  {
    if n == 0 then []
    else
      Acts(s, es, n - 1) +
      match ActOf(At(TicketLock(), s, es, n - 1).value, es[n - 1])
      case None => []
      case Some(a) => [a]
  }

  /** Every run of the code is a run of the ticket lock, word for word and thread for thread. */
  lemma {:induction false} TicketRun(s: State<Plain>, q: T.State, es: seq<Event<Call>>, n: nat)
    requires Matches(s, q) && n <= |es| && At(TicketLock(), s, es, n).Some?
    ensures var a := Acts(s, es, n);
            T.At(q, a, |a|).Some? && Matches(At(TicketLock(), s, es, n).value, T.At(q, a, |a|).value)
  {
    if n > 0 {
      TicketRun(s, q, es, n - 1);
      var m, a := At(TicketLock(), s, es, n - 1).value, Acts(s, es, n - 1);
      var q' := T.At(q, a, |a|).value;
      ActStep(m, q', es[n - 1]);
      match ActOf(m, es[n - 1])
      case None => assert Acts(s, es, n) == a;
      case Some(act) => T.AtAppend(q, a, act, q');
    }
  }

  // ---------- what ticket_tm promises ----------

  lemma StartMatches(g: Tuning, s: State<Tm>)
    requires Starts(TicketTm(g), s, TmIdle)
    ensures Matches(Project(View, s), T.Start(s.th.Keys))
  {
    forall t | t in s.th
      ensures Project(View, s).th[t] == Seen(View, s.th[t]) && SamePlace(Project(View, s).th[t].p, T.Idle)
    {
    }
  }

  /** The run of the ticket lock behind a run of `ticket_tm`. */
  ghost function TmActs(g: Tuning, s: State<Tm>, es: seq<Event<Call>>, n: nat): seq<T.Event>
    requires Starts(TicketTm(g), s, TmIdle) && n <= |es| && At(TicketTm(g), s, es, n).Some?
  {
    TicketTmVisible(g, s, es, n);
    var v := Visible(TicketTm(g), s, es, n);
    Acts(Project(View, s), v, |v|)
  }

  lemma TicketTmVisible(g: Tuning, s: State<Tm>, es: seq<Event<Call>>, n: nat)
    requires Starts(TicketTm(g), s, TmIdle) && n <= |es| && At(TicketTm(g), s, es, n).Some?
    ensures var v := Visible(TicketTm(g), s, es, n);
            At(TicketLock(), Project(View, s), v, |v|) == Some(Project(View, At(TicketTm(g), s, es, n).value))
  {
    TicketTmSimulates(g);
    InvStart(TicketTm(g), KindOf, s, TmIdle);
    SpeculationInvisible(TicketTm(g), KindOf, TicketLock(), View, s, es, n);
  }

  /** Every run of `ticket_tm` is, to everybody outside transactions, a run of the ticket lock. */
  lemma TicketTmRun(g: Tuning, s: State<Tm>, es: seq<Event<Call>>, n: nat)
    requires Starts(TicketTm(g), s, TmIdle) && n <= |es| && At(TicketTm(g), s, es, n).Some?
    ensures var a := TmActs(g, s, es, n);
            && T.At(T.Start(s.th.Keys), a, |a|).Some?
            && Matches(Project(View, At(TicketTm(g), s, es, n).value), T.At(T.Start(s.th.Keys), a, |a|).value)
  {
    TicketTmVisible(g, s, es, n);
    StartMatches(g, s);
    var v := Visible(TicketTm(g), s, es, n);
    TicketRun(Project(View, s), T.Start(s.th.Keys), v, |v|);
  }

  ghost predicate ReallyOwns(s: State<Tm>, t: Tid) {
    t in s.th && s.th[t].tx.None? && TmOwns(s.th[t].p)
  }

  lemma OwnerSeen(m: State<Tm>, q: T.State, t: Tid)
    requires Matches(Project(View, m), q) && ReallyOwns(m, t)
    ensures t in q.th && T.Owns(q.th[t])
  {
    assert Project(View, m).th[t] == Seen(View, m.th[t]);
  }

  lemma OneOwnerIn(threads: set<Tid>, a: seq<T.Event>, q: T.State, t: Tid, u: Tid)
    requires |threads| <= TWO32 && T.At(T.Start(threads), a, |a|) == Some(q)
    requires t in q.th && u in q.th && T.Owns(q.th[t]) && T.Owns(q.th[u])
    ensures t == u
  {
    T.TicketLockSafe(threads, a, |a|);
  }

  /** With at most 2^32 threads, one thread at a time owns `ticket_tm` outside transactions. */
  lemma TicketTmSafe(g: Tuning, s: State<Tm>, es: seq<Event<Call>>, n: nat, t: Tid, u: Tid)
    requires Starts(TicketTm(g), s, TmIdle) && n <= |es| && At(TicketTm(g), s, es, n).Some?
    requires |s.th.Keys| <= TWO32
    requires ReallyOwns(At(TicketTm(g), s, es, n).value, t) && ReallyOwns(At(TicketTm(g), s, es, n).value, u)
    ensures t == u
  {
    var m, a := At(TicketTm(g), s, es, n).value, TmActs(g, s, es, n);
    TicketTmRun(g, s, es, n);
    var q := T.At(T.Start(s.th.Keys), a, |a|).value;
    OwnerSeen(m, q, t);
    OwnerSeen(m, q, u);
    OneOwnerIn(s.th.Keys, a, q, t, u);
  }

  /** Ownership of `ticket_tm` is granted in the order in which tickets were drawn. */
  lemma TicketTmInOrder(g: Tuning, s: State<Tm>, es: seq<Event<Call>>, n: nat)
    requires Starts(TicketTm(g), s, TmIdle) && n <= |es| && At(TicketTm(g), s, es, n).Some?
    requires |s.th.Keys| <= TWO32
    ensures var a := TmActs(g, s, es, n); var q := T.At(T.Start(s.th.Keys), a, |a|);
            q.Some? && At(TicketTm(g), s, es, n).value.grants <= q.value.taken
  {
    var a := TmActs(g, s, es, n);
    TicketTmRun(g, s, es, n);
    T.TicketLockSafe(s.th.Keys, a, |a|);
  }

  // ---------- when a thread speculates ----------

  /** A waiter's place in the queue is the distance of its ticket from the one being served. */
  lemma DistanceIsPlace(q: T.State, t: Tid) returns (i: nat)
    requires T.Inv(q) && |q.th.Keys| <= TWO32 && t in q.th && q.th[t].Waiting?
    ensures i < |q.queue| && q.queue[i] == t && Distance(q.th[t].ticket, q.w.now) == i
  {
    i :| 0 <= i < |q.queue| && q.queue[i] == t;
    T.FewTickets(q);
    T.WordDistance(q.w.now, i);
    BackwardDistance(q.w.now, i);
  }

  lemma BackwardDistance(now: nat, i: nat)
    requires now < TWO32 && i < TWO32
    ensures Distance(Add32(now, i), now) == i
  {
  }

  lemma DistStep(g: Tuning, m: State<Tm>, t: Tid)
    requires t in m.th && m.th[t].tx.None? && m.th[t].p.TmDist?
    ensures var p := m.th[t].p; var s' := Step(TicketTm(g), m, Go(t)); var d := Distance(p.mine, Get(m.mem, Word(NOW)));
            && s'.Some? && t in s'.value.th
            && s'.value.th[t].p ==
               if g.minDistance <= d <= g.maxDistance && p.tries < g.maxTries then Arm(p.mine, p.tries)
               else TmSpin(p.mine, p.tries)
  {
  }

  lemma SpinStep(g: Tuning, m: State<Tm>, t: Tid)
    requires t in m.th && m.th[t].tx.None? && m.th[t].p.TmSpin?
    ensures var p := m.th[t].p; var s' := Step(TicketTm(g), m, Go(t));
            && s'.Some? && t in s'.value.th
            && s'.value.th[t].p == if p.mine == Get(m.mem, Word(NOW)) then TmOwner else TmDist(p.mine, p.tries)
  {
  }

  lemma WaiterSeen(m: State<Tm>, q: T.State, t: Tid)
    requires Matches(Project(View, m), q) && t in m.th && m.th[t].tx.None? && (m.th[t].p.TmSpin? || m.th[t].p.TmDist?)
    ensures t in q.th && q.th[t].Waiting? && q.th[t].ticket == m.th[t].p.mine && q.w.now == Get(m.mem, Word(NOW))
  {
    assert Project(View, m).th[t] == Seen(View, m.th[t]);
  }

  lemma RunPlace(threads: set<Tid>, a: seq<T.Event>, q: T.State, t: Tid) returns (i: nat)
    requires |threads| <= TWO32 && T.At(T.Start(threads), a, |a|) == Some(q) && t in q.th && q.th[t].Waiting?
    ensures i < |q.queue| && q.queue[i] == t && Distance(q.th[t].ticket, q.w.now) == i
    ensures q.th[t].ticket < TWO32 && q.w.now < TWO32
  {
    T.InvRun(threads, a, |a|);
    i := DistanceIsPlace(q, t);
  }

  lemma NoneAhead(mine: nat, now: nat, i: nat)
    requires mine < TWO32 && now < TWO32 && i == Distance(mine, now)
    ensures i == 0 <==> mine == now
  {
  }

  /** A waiting thread that looks which ticket is being served gets the lock exactly when nobody is ahead
      of it in the queue. */
  lemma TicketTmServed(g: Tuning, s: State<Tm>, es: seq<Event<Call>>, n: nat, m: State<Tm>, t: Tid) returns (i: nat)
    requires Starts(TicketTm(g), s, TmIdle) && n <= |es| && At(TicketTm(g), s, es, n) == Some(m)
    requires |s.th.Keys| <= TWO32 && t in m.th && m.th[t].tx.None? && m.th[t].p.TmSpin?
    ensures var a := TmActs(g, s, es, n);
            && T.At(T.Start(s.th.Keys), a, |a|).Some?
            && var q := T.At(T.Start(s.th.Keys), a, |a|).value; i < |q.queue| && q.queue[i] == t
    ensures var p := m.th[t].p; var s' := Step(TicketTm(g), m, Go(t));
            s'.Some? && s'.value.th[t].p == if i == 0 then TmOwner else TmDist(p.mine, p.tries)
  {
    var a := TmActs(g, s, es, n);
    TicketTmRun(g, s, es, n);
    var q := T.At(T.Start(s.th.Keys), a, |a|).value;
    WaiterSeen(m, q, t);
    i := RunPlace(s.th.Keys, a, q, t);
    NoneAhead(q.th[t].ticket, q.w.now, i);
    SpinStep(g, m, t);
  }

  /** A thread that has looked how far it is from being served enters a transaction exactly when the
      number of threads ahead of it is within the window and it has tries left; otherwise it spins. */
  lemma TicketTmWindow(g: Tuning, s: State<Tm>, es: seq<Event<Call>>, n: nat, m: State<Tm>, t: Tid) returns (i: nat)
    requires Starts(TicketTm(g), s, TmIdle) && n <= |es| && At(TicketTm(g), s, es, n) == Some(m)
    requires |s.th.Keys| <= TWO32 && t in m.th && m.th[t].tx.None? && m.th[t].p.TmDist?
    ensures var a := TmActs(g, s, es, n);
            && T.At(T.Start(s.th.Keys), a, |a|).Some?
            && var q := T.At(T.Start(s.th.Keys), a, |a|).value; i < |q.queue| && q.queue[i] == t
    ensures var p := m.th[t].p; var s' := Step(TicketTm(g), m, Go(t));
            && s'.Some?
            && s'.value.th[t].p ==
               if g.minDistance <= i <= g.maxDistance && p.tries < g.maxTries then Arm(p.mine, p.tries)
               else TmSpin(p.mine, p.tries)
  {
    var a := TmActs(g, s, es, n);
    TicketTmRun(g, s, es, n);
    var q := T.At(T.Start(s.th.Keys), a, |a|).value;
    WaiterSeen(m, q, t);
    i := RunPlace(s.th.Keys, a, q, t);
    DistStep(g, m, t);
  }

  /** Whoever does not have the lock can ask for it, whoever has it can give it back, and a call under
      way goes on. */
  lemma CallsGoThrough(g: Tuning, s: State<Tm>, t: Tid)
    requires t in s.th
    ensures var code := TicketTm(g); var h := s.th[t];
            match h.p
            case TmIdle =>
              && Step(code, s, Event.Call(t, Lock)).Some?
              && Step(code, s, Event.Call(t, Lock)).value.th[t] == h.(p := LockEntry)
            case TmOwner =>
              && Step(code, s, Event.Call(t, Unlock)).Some?
              && Step(code, s, Event.Call(t, Unlock)).value.th[t] == h.(p := UnlockEntry)
            case _ => Step(code, s, Go(t)).Some?
  {
  }

  /** A transaction that begins looks whether the thread has been served after all, and if not makes it
      go on as the owner; a rollback uses up a try. */
  lemma RunsAhead(g: Tuning, s: State<Tm>, t: Tid)
    requires t in s.th && ThreadOk(KindOf, s.th[t]) && Step(TicketTm(g), s, Go(t)).Some?
    ensures var s' := Step(TicketTm(g), s, Go(t)).value; var p := s.th[t].p;
            && (p.Begin? ==> s'.th[t].p == Check(p.mine) && s'.th[t].tx.Some?)
            && (p.Check? ==> s'.th[t].tx.Some? && (s'.th[t].p.TmOwner? || s'.th[t].p.Quit?))
            && (p.Quit? ==> s'.th[t].tx.None? && s'.th[t].p.Clear?)
            && (p.Clear? ==> s'.th[t].p == TmSpin(p.mine, p.tries + 1) && !s'.th[t].spec)
            && (s.th[t].tx.Some? && p.LockEntry? ==> s'.th[t].p.TmOwner?)
            && (s.th[t].tx.Some? && p.UnlockEntry? ==> s'.th[t].p.TmIdle?)
            && (s.th[t].tx.Some? ==> s'.mem == s.mem)
  {
    assert WellPlaced(TicketTm(g), KindOf, s.th[t].p) by {
      TicketTmSimulates(g);
    }
    if s.th[t].tx.Some? {
      assert WellPlaced(TicketTm(g), KindOf, s.th[t].tx.value.p) by {
        TicketTmSimulates(g);
      }
    }
  }

  /** Rollbacks of the thread, of either kind, since its last call outside transactions. */
  ghost function Rollbacks(g: Tuning, s: State<Tm>, es: seq<Event<Call>>, t: Tid, n: nat): nat
    requires n <= |es| && At(TicketTm(g), s, es, n).Some?
  {
    if n == 0 then 0
    else Counted(At(TicketTm(g), s, es, n - 1).value, es[n - 1], t, Rollbacks(g, s, es, t, n - 1))
  }

  /** The count after one more event. */
  ghost function Counted(s: State<Tm>, e: Event<Call>, t: Tid, before: nat): nat {
    if e.t != t || t !in s.th then before
    else if e.Call? && s.th[t].tx.None? then 0
    else before + if RollsBack(s.th[t], e) then 1 else 0
  }

  ghost predicate RollsBack(h: Thread<Tm>, e: Event<Call>) {
    e.Abort? || (e.Go? && h.p.Quit?)
  }

  /** The place counts the tries, which are never more than there may be. */
  ghost predicate AsTried(p: Tm, rollbacks: nat, maxTries: nat) {
    match p
    case LockEntry => rollbacks == 0
    case TmTake => rollbacks == 0
    case TmSpin(_, tries) => rollbacks == tries <= maxTries
    case TmDist(_, tries) => rollbacks == tries <= maxTries
    case Arm(_, tries) => rollbacks == tries < maxTries
    case Begin(_, tries) => rollbacks == tries < maxTries
    case Clear(_, tries) => rollbacks == tries + 1 <= maxTries
    case _ => true
  }

  ghost predicate ThreadTried(h: Thread<Tm>, rollbacks: nat, maxTries: nat) {
    AsTried(if h.tx.Some? then h.tx.value.p else h.p, rollbacks, maxTries)
  }

  lemma TriedStep(g: Tuning, s: State<Tm>, e: Event<Call>, rollbacks: nat)
    requires Step(TicketTm(g), s, e).Some? && ThreadOk(KindOf, s.th[e.t])
    requires ThreadTried(s.th[e.t], rollbacks, g.maxTries)
    ensures e.t in Step(TicketTm(g), s, e).value.th
    ensures ThreadTried(Step(TicketTm(g), s, e).value.th[e.t], Counted(s, e, e.t, rollbacks), g.maxTries)
  {
  }

  lemma RollbacksLast(g: Tuning, s: State<Tm>, es: seq<Event<Call>>, t: Tid, n: nat, m: State<Tm>)
    returns (k: nat, p: State<Tm>, before: nat)
    requires n > 0 && Leads(TicketTm(g), s, es, n, m)
    ensures k + 1 == n && Leads(TicketTm(g), s, es, k, p) && Step(TicketTm(g), p, es[k]) == Some(m)
    ensures CountIs(g, s, es, t, k, before)
    ensures forall count :: CountIs(g, s, es, t, n, count) <==> count == Counted(p, es[k], t, before)
  {
    k, p := LastStep(TicketTm(g), s, es, n, m);
    before := Rollbacks(g, s, es, t, k);
  }

  ghost predicate CountIs(g: Tuning, s: State<Tm>, es: seq<Event<Call>>, t: Tid, n: nat, count: nat) {
    n <= |es| && At(TicketTm(g), s, es, n).Some? && count == Rollbacks(g, s, es, t, n)
  }

  lemma NothingYet(g: Tuning, s: State<Tm>, es: seq<Event<Call>>, t: Tid, m: State<Tm>, count: nat)
    requires Starts(TicketTm(g), s, TmIdle) && Leads(TicketTm(g), s, es, 0, m)
    requires CountIs(g, s, es, t, 0, count) && t in m.th
    ensures ThreadTried(m.th[t], count, g.maxTries)
  {
  }

  /** In every run a waiting thread has been rolled back as often as its place says, and so one lock call
      enters at most `maxTries` transactions. */
  lemma {:induction false} TriesCounted(
      g: Tuning, s: State<Tm>, es: seq<Event<Call>>, n: nat, m: State<Tm>, t: Tid, count: nat)
    requires Starts(TicketTm(g), s, TmIdle) && Leads(TicketTm(g), s, es, n, m) && t in m.th
    requires CountIs(g, s, es, t, n, count)
    ensures ThreadTried(m.th[t], count, g.maxTries)
    decreases n
  {
    if n == 0 {
      NothingYet(g, s, es, t, m, count);
    } else {
      var k, p, before := RollbacksLast(g, s, es, t, n, m);
      StepIsOwn(TicketTm(g), p, es[k]);
      TriesCounted(g, s, es, k, p, t, before);
      if es[k].t == t {
        TicketTmSimulates(g);
        RunThread(TicketTm(g), KindOf, s, TmIdle, es, k, p, t);
        TriedStep(g, p, es[k], before);
      }
    }
  }

  // ---------- what a speculating thread looks at ----------

  /** A speculating thread that is past its check has seen another ticket being served, and the only
      lock word it has read is `now`. */
  ghost predicate Looked(h: Thread<Tm>) {
    && h.tx.Some? && h.spec && h.tx.value.p.Begin? && NoWord(h.tx.value.sets.buf)
    && (forall i :: Word(i) in h.tx.value.sets.log ==> i == NOW)
    && match h.p
       case Check(mine) => mine == h.tx.value.p.mine
       case Quit => true
       case _ =>
         && (KindOf(h.p).Client? || KindOf(h.p).Entry?)
         && Word(NOW) in h.tx.value.sets.log && h.tx.value.sets.log[Word(NOW)] != h.tx.value.p.mine
  }

  lemma LookedStep(g: Tuning, s: State<Tm>, e: Event<Call>)
    requires Inv(KindOf, s) && Step(TicketTm(g), s, e).Some?
    requires s.th[e.t].tx.Some? ==> Looked(s.th[e.t])
    ensures var h := Step(TicketTm(g), s, e).value.th[e.t]; h.tx.Some? ==> Looked(h)
  {
    assert ThreadOk(KindOf, s.th[e.t]);
  }

  /** `ticket_tm` speculates only while it has not been served. */
  lemma {:induction false} TicketTmLooked(g: Tuning, s: State<Tm>, es: seq<Event<Call>>, n: nat)
    requires Starts(TicketTm(g), s, TmIdle) && n <= |es| && At(TicketTm(g), s, es, n).Some?
    ensures var m := At(TicketTm(g), s, es, n).value;
            forall t :: t in m.th && m.th[t].tx.Some? ==> Looked(m.th[t])
  {
    if n > 0 {
      var m := At(TicketTm(g), s, es, n - 1).value;
      TicketTmLooked(g, s, es, n - 1);
      TicketTmSimulates(g);
      InvStart(TicketTm(g), KindOf, s, TmIdle);
      InvRun(TicketTm(g), KindOf, s, es, n - 1);
      StepIsOwn(TicketTm(g), m, es[n - 1]);
      LookedStep(g, m, es[n - 1]);
    }
  }
}
