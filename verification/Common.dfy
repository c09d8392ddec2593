/** Vocabulary shared by the models: machine-word width, options, and the few facts about finite
    sets, maps and sequences that several invariants need. */
module Common {

  /** Number of values of a 32-bit word. */
  const TWO32: nat := 0x1_0000_0000

  type Tid = nat

  datatype Option<+T> = None | Some(value: T)

  /** Addition on a 32-bit unsigned word. */
  function Add32(x: nat, y: nat): (r: nat)
    ensures r < TWO32
  {
    (x + y) % TWO32
  }

  /** Subtraction on a 32-bit unsigned word. */
  function Sub32(x: nat, y: nat): (r: nat)
    requires y <= TWO32
    ensures r < TWO32
  {
    (x + (TWO32 - y)) % TWO32
  }

  lemma SubsetCard<T>(a: set<T>, b: set<T>)
    requires a <= b
    ensures |a| <= |b|
  {
    var rest := b - a;
    assert b == a + rest;
  }

  /** Within one turn of the word, equal residues mean equal values. */
  lemma SameWord(lo: nat, hi: nat)
    requires lo <= hi < lo + TWO32
    ensures lo % TWO32 == hi % TWO32 <==> lo == hi
  {
  }

  /** Residues are equal exactly when the distance is a whole number of turns. */
  lemma WholeTurns(lo: nat, hi: nat)
    requires lo <= hi
    ensures lo % TWO32 == hi % TWO32 <==> (hi - lo) % TWO32 == 0
  {
    var d := hi - lo;
    assert hi % TWO32 == (lo % TWO32 + d % TWO32) % TWO32;
  }

  lemma TurnsOff(x: nat, q: nat)
    ensures (x + q * TWO32) % TWO32 == x % TWO32
  {
  }

  predicate Distinct<T(==)>(s: seq<T>) {
    forall i, j :: 0 <= i < j < |s| ==> s[i] != s[j]
  }

  /** A duplicate-free sequence over a finite set is no longer than the set. */
  lemma {:induction false} DistinctLength<T>(s: seq<T>, d: set<T>)
    requires Distinct(s)
    requires forall i :: 0 <= i < |s| ==> s[i] in d
    ensures |s| <= |d|
  {
    if s != [] {
      var last := |s| - 1;
      DistinctLength(s[..last], d - {s[last]});
    }
  }

  function Elements<T>(q: seq<T>): set<T> {
    set x | x in q
  }

  lemma {:induction false} ElementsCard<T>(q: seq<T>)
    requires Distinct(q)
    ensures |Elements(q)| == |q|
  {
    if q != [] {
      var init, last := q[..|q| - 1], q[|q| - 1];
      ElementsCard(init);
      assert last !in init;
      assert q == init + [last];
      assert Elements(q) == Elements(init) + {last};
    }
  }

  // ---------- maps built at once ----------

  // By recursion and not by map comprehension: the axioms of Dafny 4.11 make all comprehensions with
  // an empty domain equal, values included, from which anything follows.

  /** The map with domain `d` and one value throughout. */
  ghost function Filled<V>(d: set<nat>, v: V): (r: map<nat, V>)
    ensures r.Keys == d
    ensures forall k :: k in d ==> r[k] == v
    decreases |d|
  {
    if d == {} then map[] else var k :| k in d; Filled(d - {k}, v)[k := v]
  }

  /** The map with every value changed by `f`. */
  ghost function Mapped<V, W>(m: map<nat, V>, f: (nat, V) -> W): (r: map<nat, W>)
    ensures r.Keys == m.Keys
    ensures forall k :: k in m ==> r[k] == f(k, m[k])
    decreases |m.Keys|
  {
    if m.Keys == {} then map[]
    else
      var k :| k in m;
      assert (m - {k}).Keys == m.Keys - {k};
      Mapped(m - {k}, f)[k := f(k, m[k])]
  }

  lemma MappedUpdate<V, W>(m: map<nat, V>, f: (nat, V) -> W, k: nat, v: V)
    ensures Mapped(m[k := v], f) == Mapped(m, f)[k := f(k, v)]
  {
  }

  // ---------- linked lists, as sequences of their nodes ----------

  function First(s: seq<object>): object? {
    if s == [] then null else s[0]
  }

  function Last(s: seq<object>): object? {
    if s == [] then null else s[|s| - 1]
  }

  function After(s: seq<object>, i: nat): object? {
    if i + 1 < |s| then s[i + 1] else null
  }

  function Before(s: seq<object>, i: nat): object? {
    if 0 < i <= |s| then s[i - 1] else null
  }

  /** The sequence without its element `k`. */
  function Dropped<T>(s: seq<T>, k: nat): (r: seq<T>)
    requires k < |s|
    ensures |r| == |s| - 1
    ensures forall i :: 0 <= i < |r| ==> r[i] == if i < k then s[i] else s[i + 1]
  {
    s[..k] + s[k + 1..]
  }

  lemma DroppedNeighbours(s: seq<object>, k: nat, i: nat)
    requires k < |s| && i < |s| - 1
    ensures var j := if i < k then i else i + 1;
            && Dropped(s, k)[i] == s[j]
            && After(Dropped(s, k), i) == After(s, if j + 1 == k then k else j)
            && Before(Dropped(s, k), i) == Before(s, if j == k + 1 then k else j)
  {
  }
}
