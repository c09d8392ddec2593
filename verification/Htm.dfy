/** Hardware transactional memory, as a read log and a write buffer over any kind of address. */
module Htm {
  type Mem<!A> = map<A, int>

  function Get<A>(m: Mem<A>, a: A): int {
    if a in m then m[a] else 0
  }

  /** What a running transaction has read from memory, and what it would write. */
  datatype Sets<!A> = Sets(log: Mem<A>, buf: Mem<A>)

  function Fresh<A>(): Sets<A> {
    Sets(map[], map[])
  }

  /** What a transaction reads: its own writes, then what it has already seen, then memory. */
  function TxGet<A>(x: Sets<A>, m: Mem<A>, a: A): int {
    if a in x.buf then x.buf[a] else if a in x.log then x.log[a] else Get(m, a)
  }

  function TxRead<A>(x: Sets<A>, m: Mem<A>, a: A): Sets<A> {
    if a in x.buf then x else x.(log := x.log[a := TxGet(x, m, a)])
  }

  function TxWrite<A>(x: Sets<A>, a: A, v: int): Sets<A> {
    x.(buf := x.buf[a := v])
  }

  ghost predicate Agrees<A(!new)>(log: Mem<A>, m: Mem<A>) {
    forall a :: a in log ==> Get(m, a) == log[a]
  }

  /** A transactional read means what a plain read means in any memory that agrees with the log, with
      the buffered writes made. */
  lemma TxReadMeans<A(!new)>(x: Sets<A>, m: Mem<A>, a: A, other: Mem<A>)
    requires Agrees(TxRead(x, m, a).log, other)
    ensures Agrees(x.log, other)
    ensures TxGet(x, m, a) == Get(other + x.buf, a)
  {
    forall b | b in x.log
      ensures Get(other, b) == x.log[b]
    {
      assert TxRead(x, m, a).log[b] == x.log[b];
    }
    if a !in x.buf {
      assert Get(other, a) == TxRead(x, m, a).log[a];
    }
  }
}
