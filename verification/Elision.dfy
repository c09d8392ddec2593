/** Lock elision in txlock.c (the `tas_hle` lock): a critical section runs as a hardware transaction
    that has looked at the lock word, or, after too many aborts, under the lock itself.  The
    transactional memory is modelled as a read log and a write buffer; a commit is possible only
    while the log agrees with memory, and takes effect at once. */
module Elision {
  import opened Common
  import opened Htm

  type Addr = nat
  type Memory = Mem<Addr>

  datatype Op = Read(a: Addr) | Write(a: Addr, v: int) | Finish(result: int)

  /** The program of every critical section: its next operation, given what it has received so far. */
  type Code = (nat, seq<int>) -> Op

  datatype Pc =
    | Idle
    | Begin(sec: nat, tries: nat)
    | TxLock(sec: nat, tries: nat)
    | Tx(sec: nat, tries: nat, got: seq<int>, sawVal: nat, tx: Sets<Addr>)
    | Doomed(sec: nat, tries: nat)
    | TestVal(sec: nat)
    | SwapVal(sec: nat)
    | Locked(sec: nat, got: seq<int>)

  /** A finished section and the result it returned. */
  datatype Finished = Finished(sec: nat, result: int)

  /** `finished` lists the sections in the order of their commits and releases and `base` is memory
      as the last of them left it; no step tests either. */
  datatype State = State(val: nat, mem: Memory, maxTries: nat, th: map<Tid, Pc>, finished: seq<Finished>, base: Memory)

  datatype Event =
    | Call(t: Tid, sec: nat)
    | Enter(t: Tid)
    | LookAtLock(t: Tid)
    | TxStep(t: Tid)
    | Commit(t: Tid)
    | Abort(t: Tid)
    | Test(t: Tid)
    | Swap(t: Tid)
    | LockedStep(t: Tid)
    | Release(t: Tid)

  ghost predicate Enabled(code: Code, s: State, e: Event) {
    e.t in s.th &&
    var p := s.th[e.t];
    match e
    case Call(_, _) => p.Idle?
    case Enter(_) => p.Begin?
    case LookAtLock(_) => p.TxLock?
    case TxStep(_) => p.Tx? && !code(p.sec, p.got).Finish?
    case Commit(_) => p.Tx? && code(p.sec, p.got).Finish? && p.sawVal == s.val && Agrees(p.tx.log, s.mem)
    case Abort(_) => p.TxLock? || p.Tx? || p.Doomed?
    case Test(_) => p.TestVal?
    case Swap(_) => p.SwapVal?
    case LockedStep(_) => p.Locked? && !code(p.sec, p.got).Finish?
    case Release(_) => p.Locked? && code(p.sec, p.got).Finish?
  }

  ghost function TxNext(p: Pc, m: Memory, op: Op): Pc
    requires p.Tx? && !op.Finish?
  {
    match op
    case Read(a) =>
      p.(got := p.got + [TxGet(p.tx, m, a)], tx := TxRead(p.tx, m, a))
    case Write(a, v) => p.(got := p.got + [0], tx := TxWrite(p.tx, a, v))
  }

  ghost function Step(code: Code, s: State, e: Event): State
    requires Enabled(code, s, e)
  {
    var p := s.th[e.t];
    match e
    case Call(t, sec) => s.(th := s.th[t := Begin(sec, 0)])
    case Enter(t) => s.(th := s.th[t := TxLock(p.sec, p.tries)])
    case LookAtLock(t) =>
      s.(th := s.th[t := if s.val == 1 then Doomed(p.sec, p.tries) else Tx(p.sec, p.tries, [], s.val, Fresh())])
    case TxStep(t) => s.(th := s.th[t := TxNext(p, s.mem, code(p.sec, p.got))])
    case Commit(t) =>
      s.(mem := s.mem + p.tx.buf, base := s.mem + p.tx.buf, th := s.th[t := Idle],
         finished := s.finished + [Finished(p.sec, code(p.sec, p.got).result)])
    case Abort(t) =>
      s.(th := s.th[t := if p.tries + 1 >= s.maxTries then TestVal(p.sec) else Begin(p.sec, p.tries + 1)])
    case Test(t) => s.(th := s.th[t := if s.val != 0 then TestVal(p.sec) else SwapVal(p.sec)])
    case Swap(t) =>
      s.(val := 1, th := s.th[t := if s.val != 0 then TestVal(p.sec) else Locked(p.sec, [])])
    case LockedStep(t) =>
      (match code(p.sec, p.got)
       case Read(a) => s.(th := s.th[t := Locked(p.sec, p.got + [Get(s.mem, a)])])
       case Write(a, v) => s.(mem := s.mem[a := v], th := s.th[t := Locked(p.sec, p.got + [0])]))
    case Release(t) =>
      s.(val := 0, base := s.mem, th := s.th[t := Idle],
         finished := s.finished + [Finished(p.sec, code(p.sec, p.got).result)])
  }

  ghost function Start(threads: set<Tid>, m: Memory, maxTries: nat): State {
    State(0, m, maxTries, Filled(threads, Idle), [], m)
  }

  ghost function At(code: Code, s: State, es: seq<Event>, n: nat): Option<State>
    requires n <= |es|
  {
    if n == 0 then Some(s)
    else
      match At(code, s, es, n - 1)
      case None => None
      case Some(m) => if Enabled(code, m, es[n - 1]) then Some(Step(code, m, es[n - 1])) else None
  }

  // ---------- running sections one at a time ----------

  /** What a section has received and what memory holds after `n` operations of it running alone. */
  ghost function Solo(code: Code, sec: nat, m: Memory, n: nat): (r: (seq<int>, Memory))
  {
    if n == 0 then ([], m)
    else
      var (got, m') := Solo(code, sec, m, n - 1);
      match code(sec, got)
      case Read(a) => (got + [Get(m', a)], m')
      case Write(a, v) => (got + [0], m'[a := v])
      case Finish(_) => (got, m')
  }

  /** Alone in memory `m`, the section finishes with this result and leaves `m'`. */
  ghost predicate RunsTo(code: Code, f: Finished, m: Memory, m': Memory) {
    exists n: nat :: Solo(code, f.sec, m, n).1 == m' && code(f.sec, Solo(code, f.sec, m, n).0) == Op.Finish(f.result)
  }

  /** Run one after another from `m`, the sections return these results and leave `m'`. */
  ghost predicate Serial(code: Code, m: Memory, fs: seq<Finished>, m': Memory)
    decreases |fs|, 1
  {
    if fs == [] then m == m' else exists mid: Memory :: SerialVia(code, m, fs, mid, m')
  }

  ghost predicate SerialVia(code: Code, m: Memory, fs: seq<Finished>, mid: Memory, m': Memory)
    requires fs != []
    decreases |fs|, 0
  {
    Serial(code, m, fs[..|fs| - 1], mid) && RunsTo(code, fs[|fs| - 1], mid, m')
  }

  lemma SerialSnoc(code: Code, m: Memory, fs: seq<Finished>, mid: Memory, f: Finished, m': Memory)
    requires Serial(code, m, fs, mid) && RunsTo(code, f, mid, m')
    ensures Serial(code, m, fs + [f], m')
  {
    assert (fs + [f])[..|fs|] == fs;
    assert SerialVia(code, m, fs + [f], mid, m');
  }

  lemma {:induction false} SoloDone(code: Code, sec: nat, m: Memory, n: nat, k: nat)
    requires n <= k && code(sec, Solo(code, sec, m, n).0).Finish?
    ensures Solo(code, sec, m, k) == Solo(code, sec, m, n)
    decreases k
  {
    if n < k {
      SoloDone(code, sec, m, n, k - 1);
    }
  }

  lemma RunsToUnique(code: Code, f: Finished, g: Finished, m: Memory, m1: Memory, m2: Memory)
    requires RunsTo(code, f, m, m1) && RunsTo(code, g, m, m2) && f.sec == g.sec
    ensures f == g && m1 == m2
  {
    var i: nat :| Solo(code, f.sec, m, i).1 == m1 && code(f.sec, Solo(code, f.sec, m, i).0) == Op.Finish(f.result);
    var j: nat :| Solo(code, g.sec, m, j).1 == m2 && code(g.sec, Solo(code, g.sec, m, j).0) == Op.Finish(g.result);
    if i <= j {
      SoloDone(code, f.sec, m, i, j);
    } else {
      SoloDone(code, f.sec, m, j, i);
    }
  }

  /** Running sections one at a time has one outcome: the order of the sections decides every result
      and the memory. */
  lemma {:induction false} SerialUnique(
      code: Code, m: Memory, fs: seq<Finished>, gs: seq<Finished>, m1: Memory, m2: Memory)
    requires Serial(code, m, fs, m1) && Serial(code, m, gs, m2)
    requires |fs| == |gs| && forall i :: 0 <= i < |fs| ==> fs[i].sec == gs[i].sec
    ensures fs == gs && m1 == m2
  {
    if fs != [] {
      var last := |fs| - 1;
      var x: Memory :| SerialVia(code, m, fs, x, m1);
      var y: Memory :| SerialVia(code, m, gs, y, m2);
      SerialUnique(code, m, fs[..last], gs[..last], x, y);
      RunsToUnique(code, fs[last], gs[last], x, m1, m2);
      assert fs == fs[..last] + [fs[last]] && gs == gs[..last] + [gs[last]];
    }
  }

  // ---------- the invariant ----------

  ghost predicate Held(s: State) {
    exists t :: t in s.th && s.th[t].Locked?
  }

  /** The lock word is 1 while a fallback section runs, and 0 otherwise; there is one at a time. */
  ghost predicate LockWord(s: State) {
    && s.val == (if Held(s) then 1 else 0)
    && (forall t, u :: t in s.th && u in s.th && s.th[t].Locked? && s.th[u].Locked? ==> t == u)
  }

  /** In any memory that agrees with its log, the section alone would have got this far. */
  ghost predicate Replays(code: Code, p: Pc)
    requires p.Tx?
  {
    forall m: Memory :: Agrees(p.tx.log, m) ==> Solo(code, p.sec, m, |p.got|) == (p.got, m + p.tx.buf)
  }

  ghost predicate TxsOk(code: Code, s: State) {
    forall t :: t in s.th && s.th[t].Tx? ==> s.th[t].sawVal == 0 && Replays(code, s.th[t])
  }

  ghost predicate LockedOk(code: Code, s: State) {
    && (forall t :: t in s.th && s.th[t].Locked? ==>
          Solo(code, s.th[t].sec, s.base, |s.th[t].got|) == (s.th[t].got, s.mem))
    && (!Held(s) ==> s.mem == s.base)
  }

  ghost predicate Progress(code: Code, s: State) {
    TxsOk(code, s) && LockedOk(code, s)
  }

  ghost predicate Inv(code: Code, m0: Memory, s: State) {
    LockWord(s) && Progress(code, s) && Serial(code, m0, s.finished, s.base)
  }

  lemma TxStepReplays(code: Code, p: Pc, mem: Memory)
    requires p.Tx? && Replays(code, p) && !code(p.sec, p.got).Finish?
    ensures Replays(code, TxNext(p, mem, code(p.sec, p.got)))
  {
    var op := code(p.sec, p.got);
    var p' := TxNext(p, mem, op);
    forall m: Memory | Agrees(p'.tx.log, m)
      ensures Solo(code, p.sec, m, |p'.got|) == (p'.got, m + p'.tx.buf)
    {
      match op
      case Read(a) =>
        TxReadMeans(p.tx, mem, a, m);
        assert Solo(code, p.sec, m, |p.got|) == (p.got, m + p.tx.buf);
      case Write(a, v) =>
        assert Solo(code, p.sec, m, |p.got|) == (p.got, m + p.tx.buf);
        assert (m + p.tx.buf)[a := v] == m + p'.tx.buf;
    }
  }

  /** A section that has come to its end alone, by `Solo`, extends the serial history. */
  lemma FinishSerial(code: Code, m0: Memory, fs: seq<Finished>, base: Memory, f: Finished, m': Memory, got: seq<int>)
    requires Serial(code, m0, fs, base)
    requires Solo(code, f.sec, base, |got|) == (got, m') && code(f.sec, got) == Op.Finish(f.result)
    ensures Serial(code, m0, fs + [f], m')
  {
    SerialSnoc(code, m0, fs, base, f, m');
  }

  lemma CommitSerial(code: Code, m0: Memory, s: State, e: Event)
    requires Inv(code, m0, s) && Enabled(code, s, e) && e.Commit?
    ensures Serial(code, m0, Step(code, s, e).finished, Step(code, s, e).base)
  {
    var p := s.th[e.t];
    FinishSerial(code, m0, s.finished, s.base, Finished(p.sec, code(p.sec, p.got).result), s.mem + p.tx.buf, p.got);
  }

  lemma ReleaseSerial(code: Code, m0: Memory, s: State, e: Event)
    requires Inv(code, m0, s) && Enabled(code, s, e) && e.Release?
    ensures Serial(code, m0, Step(code, s, e).finished, Step(code, s, e).base)
  {
    var p := s.th[e.t];
    FinishSerial(code, m0, s.finished, s.base, Finished(p.sec, code(p.sec, p.got).result), s.mem, p.got);
  }

  lemma SerialStep(code: Code, m0: Memory, s: State, e: Event)
    requires Inv(code, m0, s) && Enabled(code, s, e)
    ensures Serial(code, m0, Step(code, s, e).finished, Step(code, s, e).base)
  {
    match e
    case Commit(_) => CommitSerial(code, m0, s, e);
    case Release(_) => ReleaseSerial(code, m0, s, e);
    case _ => assert Step(code, s, e).finished == s.finished && Step(code, s, e).base == s.base;
  }

  lemma LockWordStep(code: Code, s: State, e: Event)
    requires LockWord(s) && Enabled(code, s, e)
    ensures LockWord(Step(code, s, e))
    ensures Held(s) && !e.Release? ==> Held(Step(code, s, e))
    ensures Held(Step(code, s, e)) && !e.Swap? ==> Held(s)
  {
    var s' := Step(code, s, e);
    if t :| t in s.th && t != e.t && s.th[t].Locked? {
      assert s'.th[t] == s.th[t];
    }
    if t :| t in s'.th && t != e.t && s'.th[t].Locked? {
      assert s.th[t] == s'.th[t];
    }
    assert s'.th[e.t].Locked? ==> Held(s');
    assert s.th[e.t].Locked? ==> Held(s);
  }

  lemma TxsStep(code: Code, s: State, e: Event)
    requires LockWord(s) && TxsOk(code, s) && Enabled(code, s, e)
    ensures TxsOk(code, Step(code, s, e))
  {
    var s' := Step(code, s, e);
    if e.TxStep? {
      TxStepReplays(code, s.th[e.t], s.mem);
    } else if e.LookAtLock? {
      assert s'.th[e.t].Tx? ==> forall m: Memory :: m + s'.th[e.t].tx.buf == m;
    }
  }

  lemma LockedOkStep(code: Code, s: State, e: Event)
    requires LockWord(s) && Progress(code, s) && Enabled(code, s, e)
    ensures LockedOk(code, Step(code, s, e))
  {
    LockWordStep(code, s, e);
    assert e.Commit? ==> s.val == 0 && !Held(s);
  }

  lemma InvStep(code: Code, m0: Memory, s: State, e: Event)
    requires Inv(code, m0, s) && Enabled(code, s, e)
    ensures Inv(code, m0, Step(code, s, e))
  {
    LockWordStep(code, s, e);
    TxsStep(code, s, e);
    LockedOkStep(code, s, e);
    SerialStep(code, m0, s, e);
  }

  /** Every run is serializable: whenever no fallback section runs, memory is what the finished sections
      leave when they run one at a time in the order of their commits and releases, and each of them
      returned what it returns there. */
  lemma {:induction false} Serializable(
      code: Code, threads: set<Tid>, m0: Memory, maxTries: nat, es: seq<Event>, n: nat)
    requires n <= |es| && At(code, Start(threads, m0, maxTries), es, n).Some?
    ensures var s := At(code, Start(threads, m0, maxTries), es, n).value;
            && Inv(code, m0, s)
            && (!Held(s) ==> Serial(code, m0, s.finished, s.mem))
  {
    if n > 0 {
      var s := At(code, Start(threads, m0, maxTries), es, n - 1).value;
      Serializable(code, threads, m0, maxTries, es, n - 1);
      InvStep(code, m0, s, es[n - 1]);
    }
  }

  // ---------- the lock can be had ----------

  ghost predicate Reachable(code: Code, s: State) {
    exists threads, m0: Memory, maxTries, es: seq<Event> ::
      At(code, Start(threads, m0, maxTries), es, |es|) == Some(s)
  }

  lemma {:induction false} AtPrefix(code: Code, s: State, es: seq<Event>, e: Event, n: nat)
    requires n <= |es|
    ensures At(code, s, es + [e], n) == At(code, s, es, n)
  {
    if n > 0 {
      AtPrefix(code, s, es, e, n - 1);
    }
  }

  lemma AtAppend(code: Code, s: State, es: seq<Event>, e: Event, m: State)
    requires At(code, s, es, |es|) == Some(m) && Enabled(code, m, e)
    ensures At(code, s, es + [e], |es + [e]|) == Some(Step(code, m, e))
  {
    AtPrefix(code, s, es, e, |es|);
  }

  /** Runs go on: every event that can happen in a state of a run leads to another such state. */
  lemma ReachableStep(code: Code, s: State, e: Event)
    requires Reachable(code, s) && Enabled(code, s, e)
    ensures Reachable(code, Step(code, s, e))
  {
    var threads, m0: Memory, maxTries, es: seq<Event> :| At(code, Start(threads, m0, maxTries), es, |es|) == Some(s);
    AtAppend(code, Start(threads, m0, maxTries), es, e, s);
  }

  lemma ReachableWord(code: Code, s: State)
    requires Reachable(code, s)
    ensures LockWord(s)
  {
    var threads, m0: Memory, maxTries, es: seq<Event> :| At(code, Start(threads, m0, maxTries), es, |es|) == Some(s);
    Serializable(code, threads, m0, maxTries, es, |es|);
  }

  /** While no fallback section runs, the next test and swap of the fallback take the lock, and a
      transaction that looks at the lock goes on to run its section. */
  lemma FreeLockWorks(code: Code, s: State, t: Tid)
    requires Reachable(code, s) && !Held(s) && t in s.th
    ensures s.th[t].TestVal? ==>
      && Enabled(code, s, Test(t)) && Enabled(code, Step(code, s, Test(t)), Swap(t))
      && Step(code, Step(code, s, Test(t)), Swap(t)).th[t] == Locked(s.th[t].sec, [])
    ensures s.th[t].SwapVal? ==> Enabled(code, s, Swap(t)) && Step(code, s, Swap(t)).th[t] == Locked(s.th[t].sec, [])
    ensures s.th[t].TxLock? ==>
      && Enabled(code, s, LookAtLock(t))
      && var p := Step(code, s, LookAtLock(t)).th[t];
         p.Tx? && p.sec == s.th[t].sec && p.got == [] && p.tx == Fresh()
  {
    ReachableWord(code, s);
  }

  /** While one runs, the fallback of others keeps testing, and a transaction that looks at the lock can
      only be aborted. */
  lemma HeldLockExcludes(code: Code, s: State, t: Tid)
    requires Reachable(code, s) && Held(s) && t in s.th
    ensures Enabled(code, s, Test(t)) ==> Step(code, s, Test(t)).th[t].TestVal?
    ensures Enabled(code, s, Swap(t)) ==> Step(code, s, Swap(t)).th[t].TestVal? && Step(code, s, Swap(t)).val == s.val
    ensures Enabled(code, s, LookAtLock(t)) ==> Step(code, s, LookAtLock(t)).th[t].Doomed?
  {
    ReachableWord(code, s);
  }

  lemma ReachableProgress(code: Code, s: State)
    requires Reachable(code, s)
    ensures Progress(code, s)
  {
    var threads, m0: Memory, maxTries, es: seq<Event> :| At(code, Start(threads, m0, maxTries), es, |es|) == Some(s);
    Serializable(code, threads, m0, maxTries, es, |es|);
  }

  /** A transaction that has come to the end of its section can commit exactly when no fallback section
      runs and nothing that it read has been changed. */
  lemma CommitsExactly(code: Code, s: State, t: Tid)
    requires Reachable(code, s) && t in s.th && s.th[t].Tx? && code(s.th[t].sec, s.th[t].got).Finish?
    ensures Enabled(code, s, Commit(t)) <==> !Held(s) && Agrees(s.th[t].tx.log, s.mem)
  {
    ReachableWord(code, s);
    ReachableProgress(code, s);
  }

  /** A release gives the lock back, and a section that has come to its end alone leaves it free. */
  lemma ReleaseFrees(code: Code, s: State, t: Tid)
    requires Reachable(code, s) && Enabled(code, s, Release(t))
    ensures Step(code, s, Release(t)).val == 0 && !Held(Step(code, s, Release(t)))
  {
    ReachableWord(code, s);
    LockWordStep(code, s, Release(t));
  }

  /** Every thread has a step to take. */
  lemma ThreadsCanMove(code: Code, s: State, t: Tid)
    requires t in s.th
    ensures match s.th[t]
            case Idle => Enabled(code, s, Call(t, 0))
            case Begin(_, _) => Enabled(code, s, Enter(t))
            case TxLock(_, _) => Enabled(code, s, LookAtLock(t))
            case Tx(sec, _, got, _, _) =>
              Enabled(code, s, Abort(t)) && (Enabled(code, s, TxStep(t)) <==> !code(sec, got).Finish?)
            case Doomed(_, _) => Enabled(code, s, Abort(t))
            case TestVal(_) => Enabled(code, s, Test(t))
            case SwapVal(_) => Enabled(code, s, Swap(t))
            case Locked(_, _) => Enabled(code, s, LockedStep(t)) || Enabled(code, s, Release(t))
  {
  }

  // ---------- what a call comes to ----------

  /** The section of the thread's present or last call, and its aborts since then. */
  ghost function Asked(es: seq<Event>, t: Tid, n: nat): Option<nat>
    requires n <= |es|
  {
    if n == 0 then None
    else if es[n - 1].Call? && es[n - 1].t == t then Some(es[n - 1].sec)
    else Asked(es, t, n - 1)
  }

  ghost function Aborts(es: seq<Event>, t: Tid, n: nat): nat
    requires n <= |es|
  {
    if n == 0 then 0
    else if es[n - 1].Call? && es[n - 1].t == t then 0
    else Aborts(es, t, n - 1) + if es[n - 1] == Abort(t) then 1 else 0
  }

  ghost predicate Trying(p: Pc) {
    p.Begin? || p.TxLock? || p.Tx? || p.Doomed?
  }

  /** The thread runs the section it was asked for, and has turned to the fallback exactly when as many
      of its transactions have aborted as it may try. */
  ghost predicate AsAsked(p: Pc, sec: Option<nat>, aborts: nat, maxTries: nat) {
    && (!p.Idle? ==> sec == Some(p.sec))
    && (Trying(p) ==> p.tries == aborts && (aborts == 0 || aborts < maxTries))
    && (!p.Idle? && !Trying(p) ==> aborts > 0 && (aborts == 1 || aborts == maxTries) && aborts >= maxTries)
  }

  lemma AsAskedStep(code: Code, s: State, e: Event, t: Tid, sec: Option<nat>, aborts: nat)
    requires Enabled(code, s, e) && t in s.th && AsAsked(s.th[t], sec, aborts, s.maxTries)
    ensures t in Step(code, s, e).th && Step(code, s, e).maxTries == s.maxTries
    ensures if e.Call? && e.t == t then AsAsked(Step(code, s, e).th[t], Some(e.sec), 0, s.maxTries)
            else AsAsked(Step(code, s, e).th[t], sec, aborts + if e == Abort(t) then 1 else 0, s.maxTries)
  {
  }

  /** In every run each thread runs what it was asked to, and takes the lock for it exactly when its
      tries are used up, the first of which it always has. */
  lemma {:induction false} RunsAsAsked(
      code: Code, threads: set<Tid>, m0: Memory, maxTries: nat, es: seq<Event>, n: nat, t: Tid)
    requires n <= |es| && At(code, Start(threads, m0, maxTries), es, n).Some? && t in threads
    ensures var s := At(code, Start(threads, m0, maxTries), es, n).value;
            t in s.th && s.maxTries == maxTries && AsAsked(s.th[t], Asked(es, t, n), Aborts(es, t, n), maxTries)
  {
    if n > 0 {
      var s := At(code, Start(threads, m0, maxTries), es, n - 1).value;
      RunsAsAsked(code, threads, m0, maxTries, es, n - 1, t);
      AsAskedStep(code, s, es[n - 1], t, Asked(es, t, n - 1), Aborts(es, t, n - 1));
    }
  }

  /** Every call ends in one entry of the history, and nothing else does. */
  lemma FinishesOnce(code: Code, s: State, e: Event)
    requires Enabled(code, s, e)
    ensures var s' := Step(code, s, e); var p := s.th[e.t];
            && (e.Call? ==> s'.th[e.t].Begin?)
            && (!e.Call? ==> (s'.th[e.t].Idle? <==> |s'.finished| == |s.finished| + 1))
            && (s'.th[e.t].Idle? && !e.Call? ==>
                  s'.finished[..|s.finished|] == s.finished && s'.finished[|s.finished|].sec == p.sec)
            && (!s'.th[e.t].Idle? ==> s'.finished == s.finished)
  {
  }
}
