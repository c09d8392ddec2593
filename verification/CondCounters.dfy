/** The condition-variable record of pthread_cond.c and the stretches of code that run while its
    internal lock is held.  Each stretch is given twice: as a function on the record's value, which
    the protocol in CondProtocol interleaves, and as a method that updates the record in place. */
module CondCounters {
  import opened Common

  const ETIMEDOUT: int := 110
  const EINVAL: nat := 22
  const NANOS: nat := 1_000_000_000

  /** One user of the condvar occupies this much of `nwaiters`; the bit below holds the clock. */
  const NWAITERS_UNIT: nat := 2

  datatype Cond = Cond(futex: nat, nwaiters: nat, totalSeq: nat, wakeupSeq: nat, wokenSeq: nat, broadcastSeq: nat)

  /** What a waiting call keeps on its stack. */
  datatype Waiter = Waiter(seqNo: nat, bcSeq: nat, timed: bool)

  /** How a pass through the wait loop ends. */
  datatype Verdict = BroadcastOut | Consumed | TimedOut | Resample

  /** How many times the futex word has moved, counted without wrap-around. */
  function Changes(c: Cond): nat {
    c.totalSeq + c.wakeupSeq
  }

  function Initial(clock: nat): Cond {
    Cond(0, clock % 2, 0, 0, 0, 0)
  }

  function Entered(c: Cond): Cond {
    c.(totalSeq := c.totalSeq + 1, futex := Add32(c.futex, 1), nwaiters := Add32(c.nwaiters, NWAITERS_UNIT))
  }

  function Left(c: Cond): Cond {
    c.(nwaiters := Sub32(c.nwaiters, NWAITERS_UNIT))
  }

  function Expire(c: Cond): Cond {
    c.(wakeupSeq := c.wakeupSeq + 1, futex := Add32(c.futex, 1), wokenSeq := c.wokenSeq + 1)
  }

  predicate Effective(c: Cond) {
    c.totalSeq > c.wakeupSeq
  }

  function Signalled(c: Cond): Cond {
    if Effective(c) then c.(wakeupSeq := c.wakeupSeq + 1, futex := Add32(c.futex, 1)) else c
  }

  function Broadcasted(c: Cond): Cond {
    if Effective(c) then
      c.(wakeupSeq := c.totalSeq, wokenSeq := c.totalSeq,
         futex := (c.totalSeq % TWO32) * 2 % TWO32, broadcastSeq := Add32(c.broadcastSeq, 1))
    else c
  }

  /** The tests a waiter makes once it has the internal lock again. */
  function Judge(c: Cond, w: Waiter, err: int, expired: bool): Verdict {
    if w.bcSeq != c.broadcastSeq then BroadcastOut
    else if c.wakeupSeq != w.seqNo && c.wokenSeq != c.wakeupSeq then Consumed
    else if w.timed && (err == -ETIMEDOUT || expired) then TimedOut
    else Resample
  }

  function Judged(c: Cond, v: Verdict): Cond {
    match v
    case BroadcastOut => Left(c)
    case Consumed => Left(c.(wokenSeq := c.wokenSeq + 1))
    case TimedOut => Left(Expire(c))
    case Resample => c
  }

  /** The deadline test of the timed wait: the difference is borrowed so that the nanoseconds are
      not negative, and then the sign of the seconds decides. */
  function Expired(absSec: int, absNsec: int, nowSec: int, nowUsec: int): (r: bool)
    requires 0 <= absNsec < NANOS
    requires 0 <= nowUsec < 1_000_000
    ensures r <==> absSec * NANOS + absNsec < nowSec * NANOS + nowUsec * 1000
  {
    var sec := absSec - nowSec;
    var nsec := absNsec - nowUsec * 1000;
    var borrowed := if nsec < 0 then sec - 1 else sec;
    borrowed < 0
  }

  /** A call that stops before registering leaves no trace; any other call is registered, and a
      timed call whose deadline has passed has already left again. */
  datatype Entry = Rejected(error: int) | Gone | Waiting(w: Waiter, sample: nat)

  function EntryFor(c: Cond, timed: bool, unlockErr: int, expired: bool): Entry {
    if unlockErr != 0 then Rejected(unlockErr)
    else if timed && expired then Gone
    else Waiting(Waiter(c.wakeupSeq, c.broadcastSeq, timed), Entered(c).futex)
  }

  lemma DoubledWord(n: nat)
    ensures n % TWO32 * 2 % TWO32 == (2 * n) % TWO32
  {
    var q, r := n / TWO32, n % TWO32;
    assert 2 * n == r * 2 + 2 * q * TWO32;
    TurnsOff(r * 2, 2 * q);
  }

  class CondVar {
    var futex: nat
    var nwaiters: nat
    var totalSeq: nat
    var wakeupSeq: nat
    var wokenSeq: nat
    var broadcastSeq: nat

    function View(): Cond
      reads this
    {
      Cond(futex, nwaiters, totalSeq, wakeupSeq, wokenSeq, broadcastSeq)
    }

    constructor Init(clock: nat)
      ensures View() == Initial(clock)
      ensures futex == totalSeq == wakeupSeq == wokenSeq == broadcastSeq == 0 && nwaiters == clock % 2
    {
      futex := 0;
      nwaiters := clock % 2;
      totalSeq, wakeupSeq, wokenSeq := 0, 0, 0;
      broadcastSeq := 0;
    }

    /** From taking the internal lock to releasing it before the first park. */
    method Enter(timed: bool, nsec: int, unlockErr: int, expired: bool) returns (entry: Entry)
      modifies this
      ensures timed && !(0 <= nsec < NANOS) ==> entry == Rejected(EINVAL) && View() == old(View())
      ensures !timed || 0 <= nsec < NANOS ==> entry == EntryFor(old(View()), timed, unlockErr, expired)
      ensures entry.Rejected? ==> View() == old(View())
      ensures entry.Gone? ==> View() == Left(Expire(Entered(old(View()))))
      ensures entry.Waiting? ==> View() == Entered(old(View())) && entry.sample == futex
      // In the record's own fields:
      ensures entry.Rejected? <==> (timed && !(0 <= nsec < NANOS)) || unlockErr != 0
      ensures entry.Gone? <==> timed && 0 <= nsec < NANOS && unlockErr == 0 && expired
      ensures entry.Gone? ==> totalSeq == old(totalSeq) + 1 && wakeupSeq == old(wakeupSeq) + 1
      ensures entry.Gone? ==> wokenSeq == old(wokenSeq) + 1 && futex == Add32(Add32(old(futex), 1), 1)
      ensures entry.Waiting? ==> entry.w == Waiter(old(wakeupSeq), old(broadcastSeq), timed)
      ensures entry.Waiting? ==> totalSeq == old(totalSeq) + 1 && futex == Add32(old(futex), 1)
      ensures entry.Waiting? ==> wakeupSeq == old(wakeupSeq) && wokenSeq == old(wokenSeq)
      ensures entry.Waiting? ==> nwaiters == Add32(old(nwaiters), 2)
      ensures broadcastSeq == old(broadcastSeq)
    {
      if timed && (nsec < 0 || nsec >= NANOS) {
        return Rejected(EINVAL);
      }
      if unlockErr != 0 {
        return Rejected(unlockErr);
      }
      totalSeq := totalSeq + 1;
      futex := Add32(futex, 1);
      nwaiters := Add32(nwaiters, NWAITERS_UNIT);
      var w := Waiter(wakeupSeq, broadcastSeq, timed);
      if timed && expired {
        wakeupSeq := wakeupSeq + 1;
        futex := Add32(futex, 1);
        wokenSeq := wokenSeq + 1;
        nwaiters := Sub32(nwaiters, NWAITERS_UNIT);
        return Gone;
      }
      return Waiting(w, futex);
    }

    /** From retaking the internal lock after the futex call to releasing it. */
    method Recheck(w: Waiter, err: int, expired: bool) returns (v: Verdict, sample: nat)
      modifies this
      ensures v == Judge(old(View()), w, err, expired)
      ensures View() == Judged(old(View()), v)
      ensures sample == futex
      // The four ways to go, in the record's own fields: a broadcast has come, a wakeup is pending for
      // this waiter, its deadline has passed, or it waits on.
      ensures v.BroadcastOut? <==> w.bcSeq != old(broadcastSeq)
      ensures v.Consumed? <==>
        w.bcSeq == old(broadcastSeq) && old(wakeupSeq) != w.seqNo && old(wokenSeq) != old(wakeupSeq)
      ensures v.TimedOut? <==>
        && w.bcSeq == old(broadcastSeq) && (old(wakeupSeq) == w.seqNo || old(wokenSeq) == old(wakeupSeq))
        && w.timed && (err == -ETIMEDOUT || expired)
      ensures v.Resample? ==> View() == old(View())
      ensures !v.Resample? ==> nwaiters == Sub32(old(nwaiters), 2)
      ensures wakeupSeq == if v.TimedOut? then old(wakeupSeq) + 1 else old(wakeupSeq)
      ensures wokenSeq == if v.TimedOut? || v.Consumed? then old(wokenSeq) + 1 else old(wokenSeq)
      ensures futex == if v.TimedOut? then Add32(old(futex), 1) else old(futex)
      ensures totalSeq == old(totalSeq) && broadcastSeq == old(broadcastSeq)
    {
      v := Resample;
      if w.bcSeq != broadcastSeq {
        v := BroadcastOut;
      } else {
        var val := wakeupSeq;
        if val != w.seqNo && wokenSeq != val {
          v := Consumed;
        } else if w.timed {
          if err == -ETIMEDOUT || expired {
            wakeupSeq := wakeupSeq + 1;
            futex := Add32(futex, 1);
            v := TimedOut;
          }
        }
        if v != Resample {
          wokenSeq := wokenSeq + 1;
        }
      }
      if v != Resample {
        nwaiters := Sub32(nwaiters, NWAITERS_UNIT);
      }
      sample := futex;
    }

    method Signal() returns (effective: bool)
      modifies this
      ensures effective == Effective(old(View()))
      ensures View() == Signalled(old(View()))
      ensures effective <==> old(totalSeq) > old(wakeupSeq)
      ensures effective ==> wakeupSeq == old(wakeupSeq) + 1 && futex == Add32(old(futex), 1)
      ensures !effective ==> wakeupSeq == old(wakeupSeq) && futex == old(futex)
      ensures totalSeq == old(totalSeq) && wokenSeq == old(wokenSeq) && broadcastSeq == old(broadcastSeq)
      ensures nwaiters == old(nwaiters)
    {
      effective := false;
      if totalSeq > wakeupSeq {
        wakeupSeq := wakeupSeq + 1;
        futex := Add32(futex, 1);
        effective := true;
      }
    }

    method Broadcast() returns (effective: bool)
      modifies this
      ensures effective == Effective(old(View()))
      ensures View() == Broadcasted(old(View()))
      ensures effective <==> old(totalSeq) > old(wakeupSeq)
      ensures effective ==> wakeupSeq == wokenSeq == totalSeq && futex == (2 * totalSeq) % TWO32
      ensures effective ==> broadcastSeq == Add32(old(broadcastSeq), 1)
      ensures !effective ==> View() == old(View())
      ensures totalSeq == old(totalSeq) && nwaiters == old(nwaiters)
    {
      effective := false;
      if totalSeq > wakeupSeq {
        wakeupSeq := totalSeq;
        wokenSeq := totalSeq;
        futex := (totalSeq % TWO32) * 2 % TWO32;
        DoubledWord(totalSeq);
        broadcastSeq := Add32(broadcastSeq, 1);
        effective := true;
      }
    }
  }
}
