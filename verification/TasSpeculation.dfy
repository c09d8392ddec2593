/** The `tas` and `tas_tm` locks of txlock.c as lock code: what they do step by step, that the second is
    the first with invisible speculation, and that both have one owner at a time. */
module TasSpeculation {
  import opened Common
  import opened Htm
  import opened Speculation

  /** The lock word, `val`. */
  const VAL: nat := 0

  datatype Call = Lock | TryLock | Unlock

  // ---------- tas ----------

  /** `Test` and `Swap` are the two halves of `tatas`; `tries` marks trylock. */
  datatype Plain =
    | Idle
    | Owner
    | Test(tries: bool)
    | Swap(tries: bool)
    | Release

  ghost function PlainOp(p: Plain): Op {
    match p
    case Test(_) => LoadWord(VAL)
    case Swap(_) => Exchange(VAL, 1)
    case _ => StoreWord(VAL, 0)
  }

  ghost function PlainMissed(tries: bool): Plain {
    if tries then Idle else Test(false)
  }

  ghost function PlainNext(p: Plain, r: int): Plain {
    match p
    case Test(tries) => if r != 0 then PlainMissed(tries) else Swap(tries)
    case Swap(tries) => if r != 0 then PlainMissed(tries) else Owner
    case _ => Idle
  }

  ghost function PlainEnter(p: Plain, c: Call): Option<Plain> {
    match (p, c)
    case (Idle, Lock) => Some(Test(false))
    case (Idle, TryLock) => Some(Test(true))
    case (Owner, Unlock) => Some(Release)
    case _ => None
  }

  ghost function Tas(): Code<Plain, Call> {
    Code(PlainOp, PlainNext, (p: Plain) => p.Idle? || p.Owner?, PlainEnter, (p: Plain) => p.Owner? || p.Release?)
  }

  // ---------- tas_tm ----------

  /** Whose `tatas` it is: the loop that speculates, the loop that has given that up, or trylock. */
  datatype Mode = Eager | Patient | Once

  datatype Tm =
    | TmIdle
    | TmOwner
    | LockEntry
    | TryEntry
    | UnlockEntry
    | TmTest(mode: Mode, tries: nat)
    | TmSwap(mode: Mode, tries: nat)
    | Arm(tries: nat)
    | Begin(tries: nat)
    | Clear(tries: nat)
    | TmRelease

  ghost function TmOp(p: Tm): Op {
    match p
    case TmTest(_, _) => LoadWord(VAL)
    case TmSwap(_, _) => Exchange(VAL, 1)
    case Arm(_) => SetSpec(true)
    case Begin(_) => HtmBegin
    case Clear(_) => SetSpec(false)
    case TmRelease => StoreWord(VAL, 0)
    case _ => GetSpec
  }

  ghost function TmMissed(mode: Mode, tries: nat): Tm {
    match mode
    case Eager => Arm(tries)
    case Patient => TmTest(Patient, tries)
    case Once => TmIdle
  }

  /** A transaction that begins makes lock return as if it had succeeded. */
  ghost function TmNext(maxTries: nat, p: Tm, r: int): Tm {
    match p
    case LockEntry => if r == 0 then TmTest(Eager, 0) else TmOwner
    case TryEntry => if r == 0 then TmTest(Once, 0) else TmOwner
    case UnlockEntry => if r == 0 then TmRelease else TmIdle
    case TmTest(mode, tries) => if r != 0 then TmMissed(mode, tries) else TmSwap(mode, tries)
    case TmSwap(mode, tries) => if r != 0 then TmMissed(mode, tries) else TmOwner
    case Arm(tries) => Begin(tries)
    case Begin(tries) => if r != 0 then TmOwner else Clear(tries)
    case Clear(tries) => TmTest(if tries + 1 >= maxTries then Patient else Eager, tries + 1)
    case _ => TmIdle
  }

  ghost function TmEnter(p: Tm, c: Call): Option<Tm> {
    match (p, c)
    case (TmIdle, Lock) => Some(LockEntry)
    case (TmIdle, TryLock) => Some(TryEntry)
    case (TmOwner, Unlock) => Some(UnlockEntry)
    case _ => None
  }

  ghost function TasTm(maxTries: nat): Code<Tm, Call> {
    Code(TmOp, (p: Tm, r: int) => TmNext(maxTries, p, r), (p: Tm) => p.TmIdle? || p.TmOwner?, TmEnter,
         (p: Tm) => p.TmOwner? || p.UnlockEntry? || p.TmRelease?)
  }

  ghost function KindOf(p: Tm): Kind {
    match p
    case TmIdle => Client
    case TmOwner => Client
    case LockEntry => Entry
    case TryEntry => Entry
    case UnlockEntry => Entry
    case Begin(_) => Armed
    case Clear(_) => Cleanup
    case _ => Real
  }

  ghost function View(p: Tm): Plain {
    match p
    case TmIdle => Idle
    case TmOwner => Owner
    case UnlockEntry => Release
    case TmRelease => Release
    case TryEntry => Test(true)
    case TmTest(mode, _) => Test(mode.Once?)
    case TmSwap(mode, _) => Swap(mode.Once?)
    case _ => Test(false)
  }

  /** `tas_tm` tests `spec_entry` as it should, and is `tas` wherever it touches the lock word. */
  lemma TasTmSimulates(maxTries: nat)
    ensures Simulates(TasTm(maxTries), KindOf, Tas(), View)
  {
    forall p
      ensures WellPlaced(TasTm(maxTries), KindOf, p) && LooksPlain(TasTm(maxTries), KindOf, Tas(), View, p)
    {
    }
  }

  // ---------- one owner ----------

  ghost predicate OwnsPlain(s: State<Plain>, t: Tid) {
    t in s.th && Tas().owns(s.th[t].p)
  }

  ghost predicate Held(s: State<Plain>) {
    exists t :: OwnsPlain(s, t)
  }

  /** Nobody speculates; the word is 1 while a thread owns the lock, and 0 otherwise; and the owner is
      the last one granted. */
  ghost predicate Exclusive(s: State<Plain>) {
    && (forall t :: t in s.th ==> s.th[t].tx.None?)
    && Get(s.mem, Word(VAL)) == (if Held(s) then 1 else 0)
    && (forall t :: OwnsPlain(s, t) ==> s.grants != [] && s.grants[|s.grants| - 1] == t)
  }

  /** What a step does to the word and to the ownership of its own thread. */
  lemma OwnExclusive(s: State<Plain>, e: Event<Call>)
    requires Exclusive(s) && Step(Tas(), s, e).Some?
    ensures var s' := Step(Tas(), s, e).value;
            && e.t in s'.th && s'.th[e.t].tx.None?
            && (OwnsPlain(s', e.t) && !OwnsPlain(s, e.t) ==>
                  !Held(s) && Get(s'.mem, Word(VAL)) == 1 && s'.grants == s.grants + [e.t])
            && (OwnsPlain(s, e.t) && !OwnsPlain(s', e.t) ==> Get(s'.mem, Word(VAL)) == 0 && s'.grants == s.grants)
            && ((OwnsPlain(s, e.t) <==> OwnsPlain(s', e.t)) ==>
                  Get(s'.mem, Word(VAL)) == Get(s.mem, Word(VAL)) && s'.grants == s.grants)
  {
  }

  lemma ExclusiveStep(s: State<Plain>, e: Event<Call>)
    requires Exclusive(s) && Step(Tas(), s, e).Some?
    ensures Exclusive(Step(Tas(), s, e).value)
  {
    var s' := Step(Tas(), s, e).value;
    StepIsOwn(Tas(), s, e);
    OwnExclusive(s, e);
    assert OwnsPlain(s, e.t) ==> Held(s);
    assert OwnsPlain(s', e.t) ==> Held(s');
    assert forall t :: t != e.t ==> (OwnsPlain(s, t) <==> OwnsPlain(s', t));
    if t :| t != e.t && OwnsPlain(s, t) {
      assert OwnsPlain(s', t);
    }
  }

  /** In every run of `tas` at most one thread owns the lock, the last one granted, and the word is set
      exactly while one does. */
  lemma {:induction false} PlainExclusive(s: State<Plain>, es: seq<Event<Call>>, n: nat)
    requires n <= |es| && Exclusive(s) && At(Tas(), s, es, n).Some?
    ensures Exclusive(At(Tas(), s, es, n).value)
  {
    if n > 0 {
      PlainExclusive(s, es, n - 1);
      ExclusiveStep(At(Tas(), s, es, n - 1).value, es[n - 1]);
    }
  }

  /** On a free lock the next two steps of `tatas` make the thread its owner; on a held one they fail:
      trylock is over, and lock tries again. */
  lemma TatasMeans(s: State<Plain>, t: Tid)
    requires Exclusive(s) && t in s.th
    ensures s.th[t].p.Test? && !Held(s) ==>
      && Step(Tas(), s, Go(t)).Some? && Step(Tas(), Step(Tas(), s, Go(t)).value, Go(t)).Some?
      && OwnsPlain(Step(Tas(), Step(Tas(), s, Go(t)).value, Go(t)).value, t)
    ensures (s.th[t].p.Test? || s.th[t].p.Swap?) && Held(s) ==>
      && Step(Tas(), s, Go(t)).Some?
      && Step(Tas(), s, Go(t)).value.th[t].p == (if s.th[t].p.tries then Idle else Test(false))
    ensures s.th[t].p.Release? ==>
      && Step(Tas(), s, Go(t)).Some?
      && var s' := Step(Tas(), s, Go(t)).value; s'.th[t].p.Idle? && Get(s'.mem, Word(VAL)) == 0
    ensures s.th[t].p.Idle? ==>
      Step(Tas(), s, Event.Call(t, Lock)).Some? && Step(Tas(), s, Event.Call(t, TryLock)).Some?
    ensures s.th[t].p.Owner? ==>
      Step(Tas(), s, Event.Call(t, Unlock)).Some? && Step(Tas(), s, Event.Call(t, Unlock)).value.th[t].p.Release?
  {
  }

  ghost predicate ReallyOwns(s: State<Tm>, t: Tid) {
    t in s.th && s.th[t].tx.None? && (s.th[t].p.TmOwner? || s.th[t].p.UnlockEntry? || s.th[t].p.TmRelease?)
  }

  lemma StartExclusive(maxTries: nat, s: State<Tm>)
    requires Starts(TasTm(maxTries), s, TmIdle)
    ensures Exclusive(Project(View, s))
  {
    assert forall t :: t in s.th ==> Project(View, s).th[t].p == Idle;
  }

  lemma ProjectExclusive(maxTries: nat, s: State<Tm>, es: seq<Event<Call>>, n: nat)
    requires Starts(TasTm(maxTries), s, TmIdle) && n <= |es| && At(TasTm(maxTries), s, es, n).Some?
    ensures Exclusive(Project(View, At(TasTm(maxTries), s, es, n).value))
    ensures Inv(KindOf, At(TasTm(maxTries), s, es, n).value)
  {
    var v := Visible(TasTm(maxTries), s, es, n);
    TasTmSimulates(maxTries);
    InvStart(TasTm(maxTries), KindOf, s, TmIdle);
    SpeculationInvisible(TasTm(maxTries), KindOf, Tas(), View, s, es, n);
    StartExclusive(maxTries, s);
    PlainExclusive(Project(View, s), v, |v|);
    InvRun(TasTm(maxTries), KindOf, s, es, n);
  }

  lemma OwnerSeen(m: State<Tm>, t: Tid)
    requires t in m.th ==> ThreadOk(KindOf, m.th[t])
    ensures OwnsPlain(Project(View, m), t) <==> ReallyOwns(m, t)
  {
    if t in m.th {
      assert Project(View, m).th[t] == Seen(View, m.th[t]);
      SeenOwner(m.th[t]);
    }
  }

  lemma SeenOwner(h: Thread<Tm>)
    requires ThreadOk(KindOf, h)
    ensures Tas().owns(Seen(View, h).p) <==> h.tx.None? && (h.p.TmOwner? || h.p.UnlockEntry? || h.p.TmRelease?)
  {
  }

  /** In every run of `tas_tm` at most one thread outside a transaction owns the lock, the last one
      granted, and the lock word is set exactly while one does. */
  lemma TasTmExclusive(maxTries: nat, s: State<Tm>, es: seq<Event<Call>>, n: nat)
    requires Starts(TasTm(maxTries), s, TmIdle) && n <= |es| && At(TasTm(maxTries), s, es, n).Some?
    ensures var m := At(TasTm(maxTries), s, es, n).value;
            && (forall t :: ReallyOwns(m, t) ==> m.grants != [] && m.grants[|m.grants| - 1] == t)
            && Get(m.mem, Word(VAL)) == if exists t :: ReallyOwns(m, t) then 1 else 0
  {
    var m := At(TasTm(maxTries), s, es, n).value;
    ProjectExclusive(maxTries, s, es, n);
    forall t
      ensures OwnsPlain(Project(View, m), t) <==> ReallyOwns(m, t)
    {
      OwnerSeen(m, t);
    }
  }

  /** Whoever does not have the lock can ask for it, whoever has it can give it back, and a call under
      way goes on. */
  lemma CallsGoThrough(maxTries: nat, s: State<Tm>, t: Tid)
    requires t in s.th
    ensures var code := TasTm(maxTries); var h := s.th[t];
            match h.p
            case TmIdle =>
              && Step(code, s, Event.Call(t, Lock)).Some? && Step(code, s, Event.Call(t, TryLock)).Some?
              && Step(code, s, Event.Call(t, Lock)).value.th[t] == h.(p := LockEntry)
              && Step(code, s, Event.Call(t, TryLock)).value.th[t] == h.(p := TryEntry)
            case TmOwner =>
              && Step(code, s, Event.Call(t, Unlock)).Some?
              && Step(code, s, Event.Call(t, Unlock)).value.th[t] == h.(p := UnlockEntry)
            case _ => Step(code, s, Go(t)).Some?
  {
  }

  // ---------- running ahead ----------

  /** A transaction that begins makes the thread go on as the owner.  While it lasts, lock and trylock
      succeed at once, unlock returns at once, and none of them touches memory. */
  lemma RunsAhead(maxTries: nat, s: State<Tm>, t: Tid)
    requires t in s.th && ThreadOk(KindOf, s.th[t]) && Step(TasTm(maxTries), s, Go(t)).Some?
    ensures var s' := Step(TasTm(maxTries), s, Go(t)).value; var p := s.th[t].p;
            && (p.Begin? ==> s'.th[t].p.TmOwner? && s'.th[t].tx.Some? && s'.mem == s.mem)
            && (s.th[t].tx.Some? ==>
                  && s'.mem == s.mem && s'.th[t].tx == s.th[t].tx
                  && s'.th[t].p == if p.UnlockEntry? then TmIdle else TmOwner)
  {
    assert WellPlaced(TasTm(maxTries), KindOf, s.th[t].p) by {
      TasTmSimulates(maxTries);
    }
  }

  /** Rollbacks of the thread since its last call outside transactions. */
  ghost function Rollbacks(maxTries: nat, s: State<Tm>, es: seq<Event<Call>>, t: Tid, n: nat): nat
    requires n <= |es| && At(TasTm(maxTries), s, es, n).Some?
  {
    if n == 0 then 0
    else Counted(At(TasTm(maxTries), s, es, n - 1).value, es[n - 1], t, Rollbacks(maxTries, s, es, t, n - 1))
  }

  /** The count after one more event. */
  ghost function Counted(s: State<Tm>, e: Event<Call>, t: Tid, before: nat): nat {
    if e.t != t || t !in s.th then before
    else if e.Call? && s.th[t].tx.None? then 0
    else before + if e.Abort? then 1 else 0
  }

  ghost predicate InMode(mode: Mode, tries: nat, maxTries: nat) {
    match mode
    case Eager => tries == 0 || tries < maxTries
    case Patient => tries >= maxTries && (tries == 1 || (tries > 1 && tries == maxTries))
    case Once => tries == 0
  }

  /** A lock call speculates on every miss, but stops when its tries are used up; the first it always
      has.  Trylock never speculates. */
  ghost predicate AsTried(p: Tm, rollbacks: nat, maxTries: nat) {
    match p
    case TmTest(mode, tries) => rollbacks == tries && InMode(mode, tries, maxTries)
    case TmSwap(mode, tries) => rollbacks == tries && InMode(mode, tries, maxTries)
    case Arm(tries) => rollbacks == tries && (tries == 0 || tries < maxTries)
    case Begin(tries) => rollbacks == tries && (tries == 0 || tries < maxTries)
    case Clear(tries) => rollbacks == tries + 1 && (tries == 0 || tries < maxTries)
    case LockEntry => rollbacks == 0
    case TryEntry => rollbacks == 0
    case _ => true
  }

  ghost predicate ThreadTried(h: Thread<Tm>, rollbacks: nat, maxTries: nat) {
    AsTried(if h.tx.Some? then h.tx.value.p else h.p, rollbacks, maxTries)
  }

  lemma TriedStep(maxTries: nat, s: State<Tm>, e: Event<Call>, rollbacks: nat)
    requires Step(TasTm(maxTries), s, e).Some? && ThreadOk(KindOf, s.th[e.t])
    requires ThreadTried(s.th[e.t], rollbacks, maxTries)
    ensures e.t in Step(TasTm(maxTries), s, e).value.th
    ensures ThreadTried(Step(TasTm(maxTries), s, e).value.th[e.t], Counted(s, e, e.t, rollbacks), maxTries)
  {
  }

  lemma RollbacksLast(maxTries: nat, s: State<Tm>, es: seq<Event<Call>>, t: Tid, n: nat, m: State<Tm>)
    returns (k: nat, p: State<Tm>, before: nat)
    requires n > 0 && Leads(TasTm(maxTries), s, es, n, m)
    ensures k + 1 == n && Leads(TasTm(maxTries), s, es, k, p) && Step(TasTm(maxTries), p, es[k]) == Some(m)
    ensures CountIs(maxTries, s, es, t, k, before)
    ensures forall count :: CountIs(maxTries, s, es, t, n, count) <==> count == Counted(p, es[k], t, before)
  {
    k, p := LastStep(TasTm(maxTries), s, es, n, m);
    before := Rollbacks(maxTries, s, es, t, k);
  }

  ghost predicate CountIs(maxTries: nat, s: State<Tm>, es: seq<Event<Call>>, t: Tid, n: nat, count: nat) {
    n <= |es| && At(TasTm(maxTries), s, es, n).Some? && count == Rollbacks(maxTries, s, es, t, n)
  }

  lemma NothingYet(maxTries: nat, s: State<Tm>, es: seq<Event<Call>>, t: Tid, m: State<Tm>, count: nat)
    requires Starts(TasTm(maxTries), s, TmIdle) && Leads(TasTm(maxTries), s, es, 0, m)
    requires CountIs(maxTries, s, es, t, 0, count) && t in m.th
    ensures ThreadTried(m.th[t], count, maxTries)
  {
  }

  /** In every run a lock call that misses has been rolled back as often as its place says. */
  lemma {:induction false} TriesCounted(
      maxTries: nat, s: State<Tm>, es: seq<Event<Call>>, n: nat, m: State<Tm>, t: Tid, count: nat)
    requires Starts(TasTm(maxTries), s, TmIdle) && Leads(TasTm(maxTries), s, es, n, m) && t in m.th
    requires CountIs(maxTries, s, es, t, n, count)
    ensures ThreadTried(m.th[t], count, maxTries)
    decreases n
  {
    if n == 0 {
      NothingYet(maxTries, s, es, t, m, count);
    } else {
      var k, p, before := RollbacksLast(maxTries, s, es, t, n, m);
      StepIsOwn(TasTm(maxTries), p, es[k]);
      TriesCounted(maxTries, s, es, k, p, t, before);
      if es[k].t == t {
        TasTmSimulates(maxTries);
        RunThread(TasTm(maxTries), KindOf, s, TmIdle, es, k, p, t);
        TriedStep(maxTries, p, es[k], before);
      }
    }
  }

  // ---------- what a speculating thread looks at ----------

  /** A speculating thread has neither read nor written a lock word: its lock and unlock calls return
      before they touch any. */
  ghost predicate AloofThread(h: Thread<Tm>) {
    h.tx.Some? ==>
      && (KindOf(h.p).Client? || KindOf(h.p).Entry?) && h.spec && h.tx.value.p.Begin?
      && NoWord(h.tx.value.sets.log) && NoWord(h.tx.value.sets.buf)
  }

  ghost predicate Aloof(s: State<Tm>) {
    forall t :: t in s.th ==> AloofThread(s.th[t])
  }

  lemma AloofStep(maxTries: nat, s: State<Tm>, e: Event<Call>)
    requires Step(TasTm(maxTries), s, e).Some? && AloofThread(s.th[e.t]) && ThreadOk(KindOf, s.th[e.t])
    ensures e.t in Step(TasTm(maxTries), s, e).value.th && AloofThread(Step(TasTm(maxTries), s, e).value.th[e.t])
  {
  }

  /** So a release of the lock disturbs nobody's transaction. */
  lemma {:induction false} TasTmAloof(maxTries: nat, s: State<Tm>, es: seq<Event<Call>>, n: nat)
    requires Starts(TasTm(maxTries), s, TmIdle) && n <= |es| && At(TasTm(maxTries), s, es, n).Some?
    ensures Aloof(At(TasTm(maxTries), s, es, n).value)
  {
    if n > 0 {
      var m := At(TasTm(maxTries), s, es, n - 1).value;
      TasTmAloof(maxTries, s, es, n - 1);
      TasTmSimulates(maxTries);
      InvStart(TasTm(maxTries), KindOf, s, TmIdle);
      InvRun(TasTm(maxTries), KindOf, s, es, n - 1);
      StepIsOwn(TasTm(maxTries), m, es[n - 1]);
      AloofStep(maxTries, m, es[n - 1]);
    }
  }
}
