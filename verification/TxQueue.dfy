/** The waiter queue of txcond.c as a sequence: waits append, a signal takes the first or the last
    waiter as the generator says, a broadcast takes all. */
module TxQueue {
  import opened Common
  import opened Lcg

  type NodeId = nat

  /** One draw of the generator; a zero is first replaced by 5. */
  function Draw(cnt: nat): (r: nat)
    ensures r < TWO32
  {
    ((if cnt == 0 then 5 else cnt) * A + C) % TWO32
  }

  /** The 32-bit word read as a signed integer. */
  function Signed(cnt: nat): int {
    if cnt < TWO32 / 2 then cnt else cnt - TWO32
  }

  /** C's remainder, which takes the sign of the dividend. */
  function Rem(x: int, m: nat): int
    requires m > 0
  {
    if x >= 0 then x % m else -((-x) % m)
  }

  predicate PicksHead(cnt: nat) {
    Rem(Signed(cnt), 10) == 0
  }

  /** The head is picked for a draw that ends in 0 in the lower half of the range and in 6 in the
      upper half, where the draw is negative. */
  lemma PicksHeadMeans(cnt: nat)
    requires cnt < TWO32
    ensures PicksHead(cnt) <==> cnt % 10 == if cnt < TWO32 / 2 then 0 else 6
  {
    if cnt >= TWO32 / 2 {
      var x := TWO32 - cnt;
      assert Rem(Signed(cnt), 10) == -(x % 10);
      assert TWO32 == 10 * 429496729 + 6;
    }
  }

  datatype Queue = Queue(items: seq<NodeId>, cnt: nat)

  datatype Event = Wait(n: NodeId) | Signal | Broadcast

  function Popped<T>(items: seq<T>, head: bool): seq<T> {
    if items == [] then [] else if head then items[1..] else items[..|items| - 1]
  }

  function Step(q: Queue, e: Event): Queue {
    match e
    case Wait(n) => q.(items := q.items + [n])
    case Signal => Queue(Popped(q.items, PicksHead(Draw(q.cnt))), Draw(q.cnt))
    case Broadcast => q.(items := [])
  }

  /** A signal takes exactly one waiter off a queue that is not empty, the first or the last as the draw
      says, and leaves the others in their order. */
  lemma SignalTakesOne(q: Queue)
    requires q.items != []
    ensures var q' := Step(q, Signal);
            q.items == if PicksHead(Draw(q.cnt)) then [q.items[0]] + q'.items
                       else q'.items + [q.items[|q.items| - 1]]
  {
    if !PicksHead(Draw(q.cnt)) {
      assert q.items == q.items[..|q.items| - 1] + [q.items[|q.items| - 1]];
    }
  }

  /** What the first signals on a fresh condition variable draw, and which of them takes the first. */
  lemma FirstDraws()
    ensures Draws(0, 1) == 1222621274 && Draws(0, 2) == 2701728395 && Draws(0, 3) == 695785320
    ensures !PicksHead(1222621274) && !PicksHead(2701728395) && PicksHead(695785320)
  {
    assert Draw(0) == 1222621274;
    assert Draw(1222621274) == 2701728395;
    assert Draw(2701728395) == 695785320;
    assert Draws(0, 1) == Draw(Draws(0, 0)) && Draws(0, 2) == Draw(Draws(0, 1)) && Draws(0, 3) == Draw(Draws(0, 2));
  }

  function At(q: Queue, es: seq<Event>, n: nat): Queue
    requires n <= |es|
  {
    if n == 0 then q else Step(At(q, es, n - 1), es[n - 1])
  }

  function Signals(es: seq<Event>, n: nat): nat
    requires n <= |es|
  {
    if n == 0 then 0 else Signals(es, n - 1) + if es[n - 1].Signal? then 1 else 0
  }

  // ---------- the generator returns to zero ----------

  function Draws(cnt: nat, k: nat): nat {
    if k == 0 then cnt else Draw(Draws(cnt, k - 1))
  }

  lemma {:induction false} DrawsFirst(cnt: nat, k: nat)
    ensures Draws(Draw(cnt), k) == Draws(cnt, k + 1)
  {
    if k > 0 {
      DrawsFirst(cnt, k - 1);
    }
  }

  lemma ModAffine(x: nat, y: int)
    requires (y - x) % TWO32 == 0
    ensures (A * y + C - (x * A + C) % TWO32) % TWO32 == 0
  {
    var q, z := (y - x) / TWO32, x * A + C;
    assert y == x + q * TWO32;
    assert A * y + C - z % TWO32 == (A * q + z / TWO32) * TWO32;
    MultipleIsZero(A * q + z / TWO32, TWO32);
  }

  /** Until a zero turns up the draws follow the affine map. */
  lemma {:induction false} DrawsFollow(cnt: nat, k: nat)
    requires k > 0
    requires forall j :: 0 < j < k ==> Draws(cnt, j) != 0
    ensures (Iterate(A, C, if cnt == 0 then 5 else cnt, k) - Draws(cnt, k)) % TWO32 == 0
  {
    var x := if cnt == 0 then 5 else cnt;
    if k == 1 {
      assert Iterate(A, C, x, 1) == Affine(A, C, Iterate(A, C, x, 0));
      assert Draws(cnt, 1) == Draw(Draws(cnt, 0));
      ModAffine(x, x);
    } else {
      DrawsFollow(cnt, k - 1);
      ModAffine(Draws(cnt, k - 1), Iterate(A, C, x, k - 1));
    }
  }

  predicate FirstZero(cnt: nat, k: nat) {
    k > 0 && Draws(cnt, k) == 0 && forall j :: 0 < j < k ==> Draws(cnt, j) != 0
  }

  lemma {:induction false} LeastZero(cnt: nat, k: nat) returns (j: nat)
    requires k > 0 && Draws(cnt, k) == 0
    ensures FirstZero(cnt, j) && j <= k
  {
    j := 1;
    while Draws(cnt, j) != 0
      invariant 0 < j <= k
      invariant forall i :: 0 < i < j ==> Draws(cnt, i) != 0
      decreases k - j
    {
      j := j + 1;
    }
  }

  lemma Pow32()
    ensures Pow2(32) == TWO32
  {
    assert Pow2(8) == 256;
    assert Pow2(16) == 65536;
    assert Pow2(24) == 0x100_0000;
  }

  lemma IterateFirst(a: nat, c: nat, x: int, k: nat)
    ensures Iterate(a, c, x, k + 1) == Iterate(a, c, Affine(a, c, x), k)
  {
    IterateAdd(a, c, x, 1, k);
    assert Iterate(a, c, x, 1) == Affine(a, c, Iterate(a, c, x, 0));
  }

  lemma MultipleSomewhere(x: nat) returns (k: nat)
    ensures 0 < k <= TWO32 && Iterate(A, C, x, k) % TWO32 == 0
  {
    var m := FullPeriod(A, C, Affine(A, C, x), 0, 32);
    Pow32();
    IterateFirst(A, C, x, m);
    k := m + 1;
  }

  lemma {:induction false} DrawsSmall(cnt: nat, k: nat)
    ensures k > 0 ==> Draws(cnt, k) < TWO32
  {
  }

  lemma ZeroResidue(y: int, d: nat)
    requires y % TWO32 == 0 && d < TWO32 && (y - d) % TWO32 == 0
    ensures d == 0
  {
  }

  /** From any value the generator draws a zero within 2^32 steps. */
  lemma ZeroReturns(cnt: nat) returns (k: nat)
    ensures FirstZero(cnt, k) && k <= TWO32
  {
    var x := if cnt == 0 then 5 else cnt;
    k := MultipleSomewhere(x);
    if j :| 0 < j < k && Draws(cnt, j) == 0 {
      k := LeastZero(cnt, j);
    } else {
      DrawsFollow(cnt, k);
      DrawsSmall(cnt, k);
      ZeroResidue(Iterate(A, C, x, k), Draws(cnt, k));
      k := LeastZero(cnt, k);
    }
  }

  /** How many draws it takes to the next zero. */
  ghost function Distance(cnt: nat): (k: nat)
    ensures FirstZero(cnt, k) && k <= TWO32
  {
    assert exists k: nat :: FirstZero(cnt, k) && k <= TWO32 by {
      var k := ZeroReturns(cnt);
    }
    var k: nat :| FirstZero(cnt, k) && k <= TWO32;
    k
  }

  lemma FirstZeroUnique(cnt: nat, j: nat, k: nat)
    requires FirstZero(cnt, j) && FirstZero(cnt, k)
    ensures j == k
  {
  }

  lemma DistanceStep(cnt: nat)
    ensures Draw(cnt) == 0 <==> Distance(cnt) == 1
    ensures Draw(cnt) != 0 ==> Distance(Draw(cnt)) == Distance(cnt) - 1
  {
    var k := Distance(cnt);
    assert Draws(cnt, 1) == Draw(Draws(cnt, 0));
    if Draw(cnt) == 0 {
      FirstZeroUnique(cnt, 1, k);
    } else {
      forall j: nat
        ensures Draws(Draw(cnt), j) == Draws(cnt, j + 1)
      {
        DrawsFirst(cnt, j);
      }
      assert FirstZero(Draw(cnt), k - 1);
      FirstZeroUnique(Draw(cnt), k - 1, Distance(Draw(cnt)));
    }
  }

  /** Every run of 2^32 signals pops the head at least once. */
  lemma {:induction false} HeadIsPicked(q: Queue, es: seq<Event>, n: nat)
    requires n <= |es| && Signals(es, n) >= Distance(q.cnt)
    ensures exists i :: 0 <= i < n && es[i].Signal? && PicksHead(Draw(At(q, es, i).cnt))
  {
    if forall i :: 0 <= i < n && es[i].Signal? ==> !PicksHead(Draw(At(q, es, i).cnt)) {
      NoHeadYet(q, es, n);
    }
  }

  lemma {:induction false} NoHeadYet(q: Queue, es: seq<Event>, n: nat)
    requires n <= |es|
    requires forall i :: 0 <= i < n && es[i].Signal? ==> !PicksHead(Draw(At(q, es, i).cnt))
    ensures Signals(es, n) + Distance(At(q, es, n).cnt) <= Distance(q.cnt)
  {
    if n > 0 {
      NoHeadYet(q, es, n - 1);
      DistanceStep(At(q, es, n - 1).cnt);
    }
  }

  // ---------- nobody starves ----------

  /** An upper bound on the signals it takes to reach the waiter at position `p`. */
  ghost function Rank(q: Queue, p: nat): nat {
    p * TWO32 + Distance(q.cnt)
  }

  /** The waiter stands at position `p` and nowhere else. */
  predicate StandsAt(q: Queue, w: NodeId, p: nat) {
    p < |q.items| && q.items[p] == w && forall j :: 0 <= j < |q.items| && j != p ==> q.items[j] != w
  }

  /** A step serves the waiter or leaves it no further from the head, and a signal brings it nearer. */
  lemma RankStep(q: Queue, e: Event, w: NodeId, p: nat) returns (p': nat)
    requires StandsAt(q, w, p) && e != Wait(w)
    ensures w !in Step(q, e).items || (StandsAt(Step(q, e), w, p') && p' <= p
              && Rank(Step(q, e), p') + (if e.Signal? then 1 else 0) <= Rank(q, p))
  {
    var q' := Step(q, e);
    p' := p;
    if e.Signal? {
      DistanceStep(q.cnt);
      if PicksHead(Draw(q.cnt)) && p > 0 {
        p' := p - 1;
        assert q'.items[p'] == w;
      }
    }
  }

  lemma {:induction false} Starvation(q: Queue, es: seq<Event>, w: NodeId, p: nat, n: nat) returns (p': nat)
    requires StandsAt(q, w, p) && n <= |es| && Wait(w) !in es
    ensures || w !in At(q, es, n).items
            || (StandsAt(At(q, es, n), w, p') && Signals(es, n) + Rank(At(q, es, n), p') <= Rank(q, p))
  {
    if n == 0 {
      p' := p;
    } else {
      p' := Starvation(q, es, w, p, n - 1);
      if w in At(q, es, n - 1).items {
        p' := RankStep(At(q, es, n - 1), es[n - 1], w, p');
      } else {
        p' := 0;
      }
    }
  }

  /** Eventual FIFO: whatever else happens, a waiter with `p` others before it is served by the
      first (p + 1) * 2^32 signals. */
  lemma NobodyStarves(q: Queue, es: seq<Event>, w: NodeId, p: nat, n: nat)
    requires StandsAt(q, w, p) && n <= |es| && Wait(w) !in es
    requires Signals(es, n) >= (p + 1) * TWO32
    ensures w !in At(q, es, n).items
  {
    var p' := Starvation(q, es, w, p, n);
  }
}
