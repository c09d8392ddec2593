/** Prefetching by speculation, as the `_tm` locks of txlock.c do it with `enter_htm` of txutil.h: a
    waiting thread enters a hardware transaction, runs ahead as if it had the lock, and is rolled back
    in the end, because these locks never end a transaction.  The code of lock, trylock and unlock is a
    parameter.  A thread runs the same code inside a transaction as outside, and only the thread-local
    `spec_entry`, which that code tests, keeps it from the lock words. */
module Speculation {
  import opened Common
  import opened Htm

  /** Lock words and the clients' data share one memory. */
  datatype Loc = Word(i: nat) | Data(x: nat)

  type Memory = Mem<Loc>

  /** What lock code can do in one step.  `GetSpec` and `SetSpec` access `spec_entry`, of which only
      matters whether it is NULL. */
  datatype Op =
    | LoadWord(i: nat)
    | StoreWord(i: nat, v: int)
    | Exchange(i: nat, v: int)
    | FetchAdd(i: nat, d: int)
    | GetSpec
    | SetSpec(on: bool)
    | HtmBegin
    | HtmAbort

  /** Lock code over places `P` for calls `C`.
      - `op`: the step at a place, and `next`: where it leads, given its result;
      - `inClient`: no call is in progress; `enter`: where a call made there starts;
      - `owns`: the thread believes that it has the lock. */
  datatype Code<!P, !C> = Code(
    op: P -> Op,
    next: (P, int) -> P,
    inClient: P -> bool,
    enter: (P, C) -> Option<P>,
    owns: P -> bool)

  /** The checkpoint a transaction goes back to, taken as it begins, and its read and write sets. */
  datatype Running<P> = Running(p: P, regs: seq<int>, spec: bool, sets: Sets<Loc>)

  datatype Thread<P> = Thread(p: P, regs: seq<int>, spec: bool, tx: Option<Running<P>>)

  /** `grants` lists the threads in the order in which they came to own the lock outside transactions;
      no step tests it. */
  datatype State<P> = State(mem: Memory, th: map<Tid, Thread<P>>, grants: seq<Tid>)

  datatype Event<C> =
    | Call(t: Tid, c: C)
    | Go(t: Tid)
    | Load(t: Tid, x: nat)
    | Store(t: Tid, x: nat, v: int)
    | Abort(t: Tid)

  // ---------- the steps ----------

  /** The value an operation yields, the thread's sets after it, and memory after it. */
  datatype Done<P> = Done(value: int, h: Thread<P>, mem: Memory)

  ghost function LoadAt<P>(h: Thread<P>, m: Memory, a: Loc): Done<P> {
    match h.tx
    case None => Done(Get(m, a), h, m)
    case Some(x) => Done(TxGet(x.sets, m, a), h.(tx := Some(x.(sets := TxRead(x.sets, m, a)))), m)
  }

  ghost function StoreAt<P>(h: Thread<P>, m: Memory, a: Loc, v: int): Done<P> {
    match h.tx
    case None => Done(0, h, m[a := v])
    case Some(x) => Done(0, h.(tx := Some(x.(sets := TxWrite(x.sets, a, v)))), m)
  }

  /** An atomic read-modify-write. */
  ghost function ModifyAt<P>(h: Thread<P>, m: Memory, a: Loc, update: int -> int): Done<P> {
    var d := LoadAt(h, m, a);
    StoreAt(d.h, m, a, update(d.value)).(value := d.value)
  }

  /** Beginning a transaction inside another one only nests it. */
  ghost function Perform<P>(op: Op, h: Thread<P>, m: Memory): Done<P> {
    match op
    case LoadWord(i) => LoadAt(h, m, Word(i))
    case StoreWord(i, v) => StoreAt(h, m, Word(i), v)
    case Exchange(i, v) => ModifyAt(h, m, Word(i), (was: int) => v)
    case FetchAdd(i, d) => ModifyAt(h, m, Word(i), (was: int) => (was + d) % TWO32)
    case GetSpec => Done(if h.spec then 1 else 0, h, m)
    case SetSpec(on) => Done(0, h.(spec := on), m)
    case HtmBegin => Done(1, if h.tx.Some? then h else h.(tx := Some(Running(h.p, h.regs, h.spec, Fresh()))), m)
    case HtmAbort => Done(0, h, m)
  }

  /** Everything is as it was when the transaction began, only that beginning it has now failed. */
  ghost function Rolled<P, C>(code: Code<P, C>, h: Thread<P>): Thread<P>
    requires h.tx.Some?
  {
    Thread(code.next(h.tx.value.p, 0), h.tx.value.regs, h.tx.value.spec, None)
  }

  ghost function Arrive<P, C>(code: Code<P, C>, s: State<P>, t: Tid, h: Thread<P>, m: Memory): State<P>
    requires t in s.th
  {
    var was := s.th[t];
    var granted := was.tx.None? && h.tx.None? && !code.owns(was.p) && code.owns(h.p);
    State(m, s.th[t := h], if granted then s.grants + [t] else s.grants)
  }

  /** The state after an event, or None if it cannot happen. */
  ghost function Step<P, C>(code: Code<P, C>, s: State<P>, e: Event<C>): Option<State<P>> {
    if e.t !in s.th then None
    else
      var h := s.th[e.t];
      if e.Abort? then
        if h.tx.None? then None else Some(Arrive(code, s, e.t, Rolled(code, h), s.mem))
      else if e.Go? then
        if code.inClient(h.p) then None
        else if code.op(h.p).HtmAbort? && h.tx.Some? then Some(Arrive(code, s, e.t, Rolled(code, h), s.mem))
        else
          var d := Perform(code.op(h.p), h, s.mem);
          Some(Arrive(code, s, e.t, d.h.(p := code.next(h.p, d.value)), d.mem))
      else if !code.inClient(h.p) then None
      else
        match e
        case Call(t, c) =>
          (match code.enter(h.p, c)
           case None => None
           case Some(q) => Some(Arrive(code, s, t, h.(p := q), s.mem)))
        case Load(t, x) =>
          var d := LoadAt(h, s.mem, Data(x));
          Some(Arrive(code, s, t, d.h.(regs := h.regs + [d.value]), d.mem))
        case Store(t, x, v) =>
          var d := StoreAt(h, s.mem, Data(x), v);
          Some(Arrive(code, s, t, d.h, d.mem))
  }

  ghost function At<P, C>(code: Code<P, C>, s: State<P>, es: seq<Event<C>>, n: nat): Option<State<P>>
    requires n <= |es|
  {
    if n == 0 then Some(s)
    else
      match At(code, s, es, n - 1)
      case None => None
      case Some(m) => Step(code, m, es[n - 1])
  }

  /** The first `n` events lead to `m`. */
  ghost predicate Leads<P, C>(code: Code<P, C>, s: State<P>, es: seq<Event<C>>, n: nat, m: State<P>) {
    n <= |es| && At(code, s, es, n) == Some(m)
  }

  lemma LastStep<P, C>(code: Code<P, C>, s: State<P>, es: seq<Event<C>>, n: nat, m: State<P>)
    returns (k: nat, p: State<P>)
    requires n > 0 && Leads(code, s, es, n, m)
    ensures k + 1 == n && Leads(code, s, es, k, p) && Step(code, p, es[k]) == Some(m)
  {
    k, p := n - 1, At(code, s, es, n - 1).value;
  }

  /** Everybody is in client code at `idle`, and the lock words are 0. */
  ghost predicate Starts<P, C>(code: Code<P, C>, s: State<P>, idle: P) {
    && code.inClient(idle) && !code.owns(idle)
    && (forall t :: t in s.th ==> s.th[t] == Thread(idle, s.th[t].regs, false, None))
    && (forall i :: Word(i) !in s.mem)
    && s.grants == []
  }

  /** Any threads can start, on any data. */
  lemma StartExists<P, C>(code: Code<P, C>, idle: P, threads: set<Tid>, m: Memory)
    requires code.inClient(idle) && !code.owns(idle) && forall i :: Word(i) !in m
    ensures var s := State(m, Filled(threads, Thread(idle, [], false, None)), []);
            Starts(code, s, idle) && s.th.Keys == threads
  {
  }

  // ---------- `spec_entry` tells whether a transaction runs ----------

  /** What is known of the thread at a place.
      - `Client`, `Entry`: in client code, or about to test `spec_entry`;
      - `Real`: the test said NULL;
      - `Armed`: `spec_entry` has been set and the transaction is about to begin;
      - `Inside`: lock code in the transaction;
      - `Cleanup`: the transaction was rolled back and `spec_entry` is still set. */
  datatype Kind = Client | Entry | Real | Armed | Inside | Cleanup

  ghost predicate AccessesWord(op: Op) {
    op.LoadWord? || op.StoreWord? || op.Exchange? || op.FetchAdd?
  }

  /** What lock code must do at a place of each kind, and where that may lead. */
  ghost predicate WellPlaced<P, C(!new)>(code: Code<P, C>, kind: P -> Kind, p: P) {
    && (code.inClient(p) <==> kind(p).Client?)
    && match kind(p)
       case Client => forall c :: code.enter(p, c).Some? ==> kind(code.enter(p, c).value).Entry?
       case Entry =>
         code.op(p).GetSpec? && kind(code.next(p, 0)).Real? && kind(code.next(p, 1)).Client?
       case Real =>
         if code.op(p) == SetSpec(true) then kind(code.next(p, 0)).Armed?
         else AccessesWord(code.op(p)) && forall r :: kind(code.next(p, r)).Real? || kind(code.next(p, r)).Client?
       case Armed =>
         && code.op(p).HtmBegin?
         && (kind(code.next(p, 1)).Inside? || kind(code.next(p, 1)).Client?) && kind(code.next(p, 0)).Cleanup?
       case Inside =>
         || code.op(p).HtmAbort?
         || (code.op(p).LoadWord? && forall r :: kind(code.next(p, r)).Inside? || kind(code.next(p, r)).Client?)
       case Cleanup => code.op(p) == SetSpec(false) && kind(code.next(p, 0)).Real?
  }

  ghost predicate Disciplined<P(!new), C(!new)>(code: Code<P, C>, kind: P -> Kind) {
    forall p :: WellPlaced(code, kind, p)
  }

  ghost predicate PlaceOk<P>(k: Kind, h: Thread<P>) {
    match k
    case Client => h.spec <==> h.tx.Some?
    case Entry => h.spec <==> h.tx.Some?
    case Real => !h.spec && h.tx.None?
    case Armed => h.spec && h.tx.None?
    case Inside => h.spec && h.tx.Some?
    case Cleanup => h.spec && h.tx.None?
  }

  ghost predicate NoWord(m: Memory) {
    forall i :: Word(i) !in m
  }

  ghost predicate ThreadOk<P>(kind: P -> Kind, h: Thread<P>) {
    && PlaceOk(kind(h.p), h)
    && (h.tx.Some? ==> kind(h.tx.value.p).Armed? && h.tx.value.spec && NoWord(h.tx.value.sets.buf))
  }

  ghost predicate Inv<P>(kind: P -> Kind, s: State<P>) {
    forall t :: t in s.th ==> ThreadOk(kind, s.th[t])
  }

  lemma GoKeepsOk<P(!new), C(!new)>(code: Code<P, C>, kind: P -> Kind, h: Thread<P>, m: Memory)
    requires Disciplined(code, kind) && ThreadOk(kind, h) && !code.inClient(h.p) && !code.op(h.p).HtmAbort?
    ensures var d := Perform(code.op(h.p), h, m); ThreadOk(kind, d.h.(p := code.next(h.p, d.value)))
  {
    assert WellPlaced(code, kind, h.p);
  }

  lemma RolledOk<P(!new), C(!new)>(code: Code<P, C>, kind: P -> Kind, h: Thread<P>)
    requires Disciplined(code, kind) && ThreadOk(kind, h) && h.tx.Some?
    ensures ThreadOk(kind, Rolled(code, h))
  {
    assert WellPlaced(code, kind, h.tx.value.p);
  }

  /** A step touches no other thread. */
  lemma StepIsOwn<P, C>(code: Code<P, C>, s: State<P>, e: Event<C>)
    requires Step(code, s, e).Some?
    ensures var s' := Step(code, s, e).value;
            e.t in s.th && e.t in s'.th && s'.th == s.th[e.t := s'.th[e.t]]
  {
  }

  lemma OwnStepOk<P(!new), C(!new)>(code: Code<P, C>, kind: P -> Kind, s: State<P>, e: Event<C>)
    requires Disciplined(code, kind) && Step(code, s, e).Some? && ThreadOk(kind, s.th[e.t])
    ensures ThreadOk(kind, Step(code, s, e).value.th[e.t])
  {
    var h := s.th[e.t];
    assert WellPlaced(code, kind, h.p);
    if e.Abort? || (e.Go? && code.op(h.p).HtmAbort? && h.tx.Some?) {
      RolledOk(code, kind, h);
    } else if e.Go? {
      GoKeepsOk(code, kind, h, s.mem);
    }
  }

  lemma InvStep<P(!new), C(!new)>(code: Code<P, C>, kind: P -> Kind, s: State<P>, e: Event<C>)
    requires Disciplined(code, kind) && Step(code, s, e).Some? && Inv(kind, s)
    ensures Inv(kind, Step(code, s, e).value)
  {
    StepIsOwn(code, s, e);
    OwnStepOk(code, kind, s, e);
  }

  lemma InvStart<P(!new), C(!new)>(code: Code<P, C>, kind: P -> Kind, s: State<P>, idle: P)
    requires Disciplined(code, kind) && Starts(code, s, idle)
    ensures Inv(kind, s)
  {
    assert WellPlaced(code, kind, idle);
  }

  lemma {:induction false} InvRun<P(!new), C(!new)>(
      code: Code<P, C>, kind: P -> Kind, s: State<P>, es: seq<Event<C>>, n: nat)
    requires Disciplined(code, kind) && Inv(kind, s) && n <= |es| && At(code, s, es, n).Some?
    ensures Inv(kind, At(code, s, es, n).value)
  {
    if n > 0 {
      InvRun(code, kind, s, es, n - 1);
      InvStep(code, kind, At(code, s, es, n - 1).value, es[n - 1]);
    }
  }

  lemma RunThread<P(!new), C(!new)>(
      code: Code<P, C>, kind: P -> Kind, s: State<P>, idle: P, es: seq<Event<C>>, n: nat, m: State<P>, t: Tid)
    requires Disciplined(code, kind) && Starts(code, s, idle) && Leads(code, s, es, n, m) && t in m.th
    ensures ThreadOk(kind, m.th[t])
  {
    InvStart(code, kind, s, idle);
    InvRun(code, kind, s, es, n);
  }

  /** In every run of disciplined lock code, in client code and wherever a call tests it, `spec_entry`
      is set exactly while a transaction runs; and no lock word is ever in a write buffer. */
  lemma SpecEntryExact<P(!new), C(!new)>(
      code: Code<P, C>, kind: P -> Kind, s: State<P>, idle: P, es: seq<Event<C>>, n: nat, t: Tid)
    requires Disciplined(code, kind) && Starts(code, s, idle) && n <= |es| && At(code, s, es, n).Some?
    requires t in At(code, s, es, n).value.th
    ensures var h := At(code, s, es, n).value.th[t];
            && (code.inClient(h.p) || code.op(h.p).GetSpec? ==> (h.spec <==> h.tx.Some?))
            && (h.tx.Some? ==> NoWord(h.tx.value.sets.buf))
  {
    InvStart(code, kind, s, idle);
    InvRun(code, kind, s, es, n);
    var h := At(code, s, es, n).value.th[t];
    assert ThreadOk(kind, h);
    assert WellPlaced(code, kind, h.p);
  }

  // ---------- what a speculating client works on ----------

  /** In a transaction the client's stores stay in the transaction, and its later loads see them; what it
      has not stored it sees as it first found it, whatever others store meanwhile. */
  lemma SpeculativeData<P, C>(code: Code<P, C>, s: State<P>, t: Tid, x: nat, v: int, m: Memory)
    requires t in s.th && s.th[t].tx.Some? && code.inClient(s.th[t].p)
    ensures var s1 := Step(code, s, Store(t, x, v));
            && s1.Some? && t in s1.value.th && s1.value.mem == s.mem && s1.value.th[t].p == s.th[t].p
            && var s2 := Step(code, s1.value.(mem := m), Load(t, x));
               s2.Some? && t in s2.value.th && s2.value.mem == m && s2.value.th[t].regs == s.th[t].regs + [v]
    ensures var s1 := Step(code, s, Load(t, x));
            && s1.Some? && t in s1.value.th && s1.value.mem == s.mem && |s1.value.th[t].regs| == |s.th[t].regs| + 1
            && var seen := s1.value.th[t].regs[|s.th[t].regs|];
               && (Data(x) !in s.th[t].tx.value.sets.buf && Data(x) !in s.th[t].tx.value.sets.log ==>
                     seen == Get(s.mem, Data(x)))
               && var s2 := Step(code, s1.value.(mem := m), Load(t, x));
                  s2.Some? && t in s2.value.th && s2.value.th[t].regs == s1.value.th[t].regs + [seen]
  {
  }

  /** Outside transactions loads and stores are on memory itself. */
  lemma RealData<P, C>(code: Code<P, C>, s: State<P>, t: Tid, x: nat, v: int)
    requires t in s.th && s.th[t].tx.None? && code.inClient(s.th[t].p)
    ensures var s1 := Step(code, s, Store(t, x, v)); s1 == Some(s.(mem := s.mem[Data(x) := v]))
    ensures var s1 := Step(code, s, Load(t, x));
            s1 == Some(s.(th := s.th[t := s.th[t].(regs := s.th[t].regs + [Get(s.mem, Data(x))])]))
  {
    assert s.th[t := s.th[t]] == s.th;
  }

  /** Nothing holds a thread up: in a call it can take the call's next step, in client code it can make
      any call that there is, and load and store; all this in a transaction as well as outside. */
  lemma ThreadsCanMove<P, C>(code: Code<P, C>, s: State<P>, t: Tid, c: C, x: nat, v: int)
    requires t in s.th
    ensures !code.inClient(s.th[t].p) ==> Step(code, s, Go(t)).Some?
    ensures code.inClient(s.th[t].p) ==> Step(code, s, Load(t, x)).Some? && Step(code, s, Store(t, x, v)).Some?
    ensures code.inClient(s.th[t].p) && code.enter(s.th[t].p, c).Some? ==>
      var s' := Step(code, s, Call(t, c));
      s'.Some? && t in s'.value.th && s'.value.th[t] == s.th[t].(p := code.enter(s.th[t].p, c).value)
  {
  }

  /** A rollback can come at any moment of a transaction.  It brings back the thread's registers as they
      were when the transaction began and leaves memory alone; the thread finds that it did not begin. */
  lemma RollbackRestores<P, C>(code: Code<P, C>, s: State<P>, t: Tid)
    requires t in s.th && s.th[t].tx.Some?
    ensures var s' := Step(code, s, Abort(t)); var x := s.th[t].tx.value;
            && s'.Some? && t in s'.value.th && s'.value.mem == s.mem && s'.value.grants == s.grants
            && s'.value.th[t] == Thread(code.next(x.p, 0), x.regs, x.spec, None)
  {
  }

  // ---------- the projection to the plain lock ----------

  /** How places of the speculating lock look in the plain one: its accesses to lock words are the
      plain lock's, and everything else it does is invisible. */
  ghost predicate LooksPlain<P, Q, C(!new)>(
      code: Code<P, C>, kind: P -> Kind, plain: Code<Q, C>, view: P -> Q, p: P)
  {
    && (plain.owns(view(p)) <==> code.owns(p))
    && (plain.inClient(view(p)) <==> code.inClient(p))
    && match kind(p)
       case Client =>
         forall c ::
           plain.enter(view(p), c) == (if code.enter(p, c).None? then None else Some(view(code.enter(p, c).value)))
       case Real =>
         if AccessesWord(code.op(p)) then
           plain.op(view(p)) == code.op(p) && forall r :: plain.next(view(p), r) == view(code.next(p, r))
         else view(code.next(p, 0)) == view(p)
       case Inside => true
       case _ => view(code.next(p, 0)) == view(p)
  }

  ghost predicate Simulates<P(!new), Q, C(!new)>(code: Code<P, C>, kind: P -> Kind, plain: Code<Q, C>, view: P -> Q) {
    Disciplined(code, kind) && forall p :: LooksPlain(code, kind, plain, view, p)
  }

  /** What a thread amounts to: itself, or its checkpoint while it speculates. */
  ghost function Seen<P, Q>(view: P -> Q, h: Thread<P>): Thread<Q> {
    match h.tx
    case None => Thread(view(h.p), h.regs, false, None)
    case Some(x) => Thread(view(x.p), x.regs, false, None)
  }

  ghost function Project<P, Q>(view: P -> Q, s: State<P>): State<Q> {
    State(s.mem, Mapped(s.th, (t: nat, h: Thread<P>) => Seen(view, h)), s.grants)
  }

  /** Does the event show in the plain lock?  Nothing done in a transaction does, nor its rollback. */
  ghost predicate Shows<P, C>(code: Code<P, C>, s: State<P>, e: Event<C>) {
    && e.t in s.th && s.th[e.t].tx.None?
    && (e.Go? ==> AccessesWord(code.op(s.th[e.t].p)))
  }

  lemma Projected<P, Q>(view: P -> Q, s: State<P>, s': State<P>, t: Tid)
    requires t in s'.th && s'.th == s.th[t := s'.th[t]]
    ensures Project(view, s').th == Project(view, s).th[t := Seen(view, s'.th[t])]
  {
    MappedUpdate(s.th, (u: nat, h: Thread<P>) => Seen(view, h), t, s'.th[t]);
    assert Project(view, s').th == Mapped(s'.th, (u: nat, h: Thread<P>) => Seen(view, h));
  }

  /** An event that does not show leaves the thread looking as it did, and memory as it was. */
  lemma HiddenThread<P(!new), Q, C(!new)>(
      code: Code<P, C>, kind: P -> Kind, plain: Code<Q, C>, view: P -> Q, s: State<P>, e: Event<C>)
    requires Simulates(code, kind, plain, view) && Step(code, s, e).Some? && ThreadOk(kind, s.th[e.t])
    requires !Shows(code, s, e)
    ensures var s' := Step(code, s, e).value;
            && e.t in s'.th && Seen(view, s'.th[e.t]) == Seen(view, s.th[e.t])
            && s'.mem == s.mem && s'.grants == s.grants
  {
    var h := s.th[e.t];
    assert WellPlaced(code, kind, h.p) && LooksPlain(code, kind, plain, view, h.p);
    if h.tx.Some? {
      assert LooksPlain(code, kind, plain, view, h.tx.value.p);
    } else if code.op(h.p).GetSpec? || code.op(h.p).SetSpec? {
      assert LooksPlain(code, kind, plain, view, code.next(h.p, 0));
    }
  }

  /** An event that shows is the same event of the plain lock. */
  lemma ShownThread<P(!new), Q, C(!new)>(
      code: Code<P, C>, kind: P -> Kind, plain: Code<Q, C>, view: P -> Q, s: State<P>, q: State<Q>, e: Event<C>)
    requires Simulates(code, kind, plain, view) && Step(code, s, e).Some? && ThreadOk(kind, s.th[e.t])
    requires Shows(code, s, e)
    requires e.t in q.th && q.th[e.t] == Seen(view, s.th[e.t]) && q.mem == s.mem && q.grants == s.grants
    ensures var s' := Step(code, s, e).value;
            e.t in s'.th && Step(plain, q, e) == Some(State(s'.mem, q.th[e.t := Seen(view, s'.th[e.t])], s'.grants))
  {
    var h := s.th[e.t];
    var h' := Step(code, s, e).value.th[e.t];
    assert WellPlaced(code, kind, h.p) && LooksPlain(code, kind, plain, view, h.p);
    assert LooksPlain(code, kind, plain, view, h'.p);
  }

  lemma StepShows<P(!new), Q, C(!new)>(
      code: Code<P, C>, kind: P -> Kind, plain: Code<Q, C>, view: P -> Q, s: State<P>, e: Event<C>)
    requires Simulates(code, kind, plain, view) && Step(code, s, e).Some? && Inv(kind, s)
    ensures var s' := Step(code, s, e).value;
            if Shows(code, s, e) then Step(plain, Project(view, s), e) == Some(Project(view, s'))
            else Project(view, s') == Project(view, s)
  {
    var s', q := Step(code, s, e).value, Project(view, s);
    StepIsOwn(code, s, e);
    Projected(view, s, s', e.t);
    assert q.th[e.t] == Seen(view, s.th[e.t]);
    if Shows(code, s, e) {
      ShownThread(code, kind, plain, view, s, q, e);
    } else {
      HiddenThread(code, kind, plain, view, s, e);
      assert q.th[e.t := q.th[e.t]] == q.th;
    }
  }

  /** The events among the first `n` that show. */
  ghost function Visible<P, C>(code: Code<P, C>, s: State<P>, es: seq<Event<C>>, n: nat): seq<Event<C>>
    requires n <= |es| && At(code, s, es, n).Some?
  {
    if n == 0 then []
    else
      var m := At(code, s, es, n - 1).value;
      Visible(code, s, es, n - 1) + if Shows(code, m, es[n - 1]) then [es[n - 1]] else []
  }

  lemma {:induction false} AtPrefix<P, C>(code: Code<P, C>, s: State<P>, es: seq<Event<C>>, e: Event<C>, n: nat)
    requires n <= |es|
    ensures At(code, s, es + [e], n) == At(code, s, es, n)
  {
    if n > 0 {
      AtPrefix(code, s, es, e, n - 1);
    }
  }

  lemma AtAppend<P, C>(code: Code<P, C>, s: State<P>, es: seq<Event<C>>, e: Event<C>, m: State<P>)
    requires At(code, s, es, |es|) == Some(m)
    ensures At(code, s, es + [e], |es + [e]|) == Step(code, m, e)
  {
    AtPrefix(code, s, es, e, |es|);
  }

  /** Every run of the speculating lock is, to everybody else, a run of the plain lock: the events that
      show, by the same threads in the same order, lead to the same memory and the same grants. */
  lemma {:induction false} SpeculationInvisible<P(!new), Q, C(!new)>(
      code: Code<P, C>, kind: P -> Kind, plain: Code<Q, C>, view: P -> Q, s: State<P>, es: seq<Event<C>>, n: nat)
    requires Simulates(code, kind, plain, view) && Inv(kind, s) && n <= |es| && At(code, s, es, n).Some?
    ensures var v := Visible(code, s, es, n);
            At(plain, Project(view, s), v, |v|) == Some(Project(view, At(code, s, es, n).value))
  {
    if n > 0 {
      SpeculationInvisible(code, kind, plain, view, s, es, n - 1);
      InvRun(code, kind, s, es, n - 1);
      var m, e := At(code, s, es, n - 1).value, es[n - 1];
      StepShows(code, kind, plain, view, m, e);
      var v := Visible(code, s, es, n - 1);
      if Shows(code, m, e) {
        AtAppend(plain, Project(view, s), v, e, Project(view, m));
      } else {
        assert Visible(code, s, es, n) == v;
      }
    }
  }
}
