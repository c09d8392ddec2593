/** The lock word of the test-and-set locks in txlock.c (`val`, and the 16-bit signed `ready` of the
    priority lock), and the atomic operations on it.  `ul_lock` of txutil.h uses the same `val`. */
module TasWord {
  const TWO16: int := 0x1_0000
  const TWO15: int := 0x8000

  /** A 16-bit signed word after an addition. */
  function Wrap16(x: int): (r: int)
    ensures -TWO15 <= r < TWO15
    ensures -TWO15 <= x < TWO15 ==> r == x
  {
    (x + TWO15) % TWO16 - TWO15
  }

  datatype Word = Word(val: int, ready: int)

  /** The second half of `tatas`: store 1 and return what was there. */
  function Swapped(w: Word): Word {
    w.(val := 1)
  }

  function Released(w: Word): Word {
    w.(val := 0)
  }

  function ReadyAdded(w: Word, d: int): Word {
    w.(ready := Wrap16(w.ready + d))
  }

  class TasLock {
    var val: int
    var ready: int

    function View(): Word
      reads this
    {
      Word(val, ready)
    }

    /** One 64-bit load of the whole word. */
    method Snapshot() returns (copy: Word)
      ensures copy.val == val && copy.ready == ready
    {
      copy := Word(val, ready);
    }

    method Swap() returns (was: int)
      modifies this
      ensures was == old(val) && View() == Swapped(old(View()))
      ensures val == 1 && ready == old(ready)
    {
      was := val;
      val := 1;
    }

    method Release()
      modifies this
      ensures View() == Released(old(View()))
      ensures val == 0 && ready == old(ready)
    {
      val := 0;
    }

    method AddReady(d: int)
      modifies this
      ensures View() == ReadyAdded(old(View()), d)
      ensures val == old(val) && (-TWO15 <= old(ready) + d < TWO15 ==> ready == old(ready) + d)
    {
      ready := Wrap16(ready + d);
    }

    /** `tatas` when nobody interferes: it fails on a held lock and otherwise takes it. */
    method Tatas() returns (held: bool)
      modifies this
      ensures held <==> old(val) != 0
      ensures ready == old(ready) && val == if held then old(val) else 1
    {
      if val != 0 {
        return true;
      }
      var was := Swap();
      held := was != 0;
    }

    /** The priority lock's trylock when nobody interferes: it fails on a held lock and whenever
        somebody is announced, and then leaves the word alone. */
    method PriorityTry() returns (failed: bool)
      modifies this
      ensures failed <==> old(ready) != 0 || old(val) != 0
      ensures ready == old(ready) && val == if failed then old(val) else 1
    {
      var copy := Snapshot();
      if copy.ready != 0 {
        return true;
      }
      failed := Tatas();
    }
  }
}
