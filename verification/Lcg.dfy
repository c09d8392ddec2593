/** The linear congruential generator with which txcond.c picks the end of its queue, and why it
    comes round to every value. */
module Lcg {
  const A: nat := 1103515245
  const C: nat := 12345

  /** The affine map over the integers, and its iterates. */
  function Affine(a: nat, c: nat, x: int): int {
    a * x + c
  }

  function Iterate(a: nat, c: nat, x: int, n: nat): int {
    if n == 0 then x else Affine(a, c, Iterate(a, c, x, n - 1))
  }

  lemma {:induction false} IterateAdd(a: nat, c: nat, x: int, m: nat, n: nat)
    ensures Iterate(a, c, x, m + n) == Iterate(a, c, Iterate(a, c, x, m), n)
  {
    if n > 0 {
      IterateAdd(a, c, x, m, n - 1);
    }
  }

  function Pow2(n: nat): (r: nat)
    ensures r > 0
  {
    if n == 0 then 1 else 2 * Pow2(n - 1)
  }

  /** 2^n steps of the map at once are the affine map with these coefficients. */
  function Mul(a: nat, n: nat): nat {
    if n == 0 then a else Mul(a, n - 1) * Mul(a, n - 1)
  }

  function Inc(a: nat, c: nat, n: nat): nat {
    if n == 0 then c else (Mul(a, n - 1) + 1) * Inc(a, c, n - 1)
  }

  lemma {:induction false} DoubledSteps(a: nat, c: nat, x: int, n: nat)
    ensures Iterate(a, c, x, Pow2(n)) == Mul(a, n) * x + Inc(a, c, n)
    decreases n
  {
    if n == 0 {
      assert Iterate(a, c, x, 1) == Affine(a, c, Iterate(a, c, x, 0));
    } else {
      var h, m, i := Pow2(n - 1), Mul(a, n - 1), Inc(a, c, n - 1);
      var z := Iterate(a, c, x, h);
      DoubledSteps(a, c, x, n - 1);
      DoubledSteps(a, c, z, n - 1);
      IterateAdd(a, c, x, h, h);
      assert Pow2(n) == h + h;
      Coefficients(a, c, n);
      Twice(m, i, x);
    }
  }

  lemma Coefficients(a: nat, c: nat, n: nat)
    requires n > 0
    ensures Mul(a, n) == Mul(a, n - 1) * Mul(a, n - 1)
    ensures Inc(a, c, n) == (Mul(a, n - 1) + 1) * Inc(a, c, n - 1)
  {
  }

  lemma Twice(m: int, i: int, x: int)
    ensures m * (m * x + i) + i == (m * m) * x + (m + 1) * i
  {
    assert m * (m * x) == (m * m) * x;
  }

  /** The shape of the coefficients when `a` is 1 modulo 4 and `c` is odd. */
  lemma {:induction false} Shapes(a: nat, c: nat, n: nat) returns (u: nat, v: nat)
    requires a % 4 == 1 && c % 2 == 1
    ensures Mul(a, n) == 1 + 4 * Pow2(n) * u
    ensures Inc(a, c, n) == Pow2(n) * (1 + 2 * v)
  {
    if n == 0 {
      u, v := a / 4, c / 2;
    } else {
      var u', v' := Shapes(a, c, n - 1);
      var p := Pow2(n - 1);
      SquareShape(p, u');
      ProductShape(p, u', v');
      u := u' + 2 * p * u' * u';
      v := v' + p * u' * (1 + 2 * v');
    }
  }

  lemma SquareShape(p: nat, u: nat)
    ensures (1 + 4 * p * u) * (1 + 4 * p * u) == 1 + 4 * (2 * p) * (u + 2 * p * u * u)
  {
    var w := p * u;
    assert 4 * p * u == 4 * w;
    assert (2 * p) * (u + 2 * p * u * u) == 2 * w + 4 * w * w by {
      assert p * u * u == w * u;
      assert 2 * p * (2 * p * u * u) == 4 * (w * w) by {
        assert p * (p * u * u) == w * w by {
          assert p * (p * u * u) == p * (w * u) == p * u * w;
        }
      }
    }
  }

  lemma ProductShape(p: nat, u: nat, v: nat)
    ensures (1 + 4 * p * u + 1) * (p * (1 + 2 * v)) == 2 * p * (1 + 2 * (v + p * u * (1 + 2 * v)))
  {
    var w, d := p * u, 1 + 2 * v;
    assert 4 * p * u == 4 * w;
    assert (2 + 4 * w) * (p * d) == 2 * p * ((1 + 2 * w) * d);
    assert (1 + 2 * w) * d == d + 2 * (w * d);
  }

  /** 2^n steps add exactly 2^n, modulo 2^(n+1). */
  lemma HalfTurn(a: nat, c: nat, x: int, n: nat)
    requires a % 4 == 1 && c % 2 == 1
    ensures (Iterate(a, c, x, Pow2(n)) - x - Pow2(n)) % Pow2(n + 1) == 0
  {
    var u, v := Shapes(a, c, n);
    DoubledSteps(a, c, x, n);
    var p := Pow2(n);
    TurnArithmetic(p, u, v, x);
    MultipleIsZero(2 * u * x + v, 2 * p);
  }

  lemma TurnArithmetic(p: nat, u: nat, v: nat, x: int)
    ensures (1 + 4 * p * u) * x + p * (1 + 2 * v) - x - p == (2 * u * x + v) * (2 * p)
  {
    assert 4 * p * u * x == 2 * u * x * (2 * p);
  }

  lemma MultipleIsZero(k: int, m: nat)
    requires m > 0
    ensures k * m % m == 0
  {
    QuotientUnique(k * m, m, k, 0);
  }

  lemma Larger(d: int, m: nat)
    requires d > 0
    ensures d * m >= m
  {
  }

  lemma QuotientUnique(x: int, m: nat, q: int, r: int)
    requires m > 0 && 0 <= r < m && x == q * m + r
    ensures x % m == r
  {
    var d := x / m - q;
    assert d * m == r - x % m;
    if d > 0 {
      Larger(d, m);
    } else if d < 0 {
      Larger(-d, m);
    }
  }

  /** A multiple of 2^n is a multiple of 2^(n+1), or is one when 2^n is added. */
  lemma NextBit(d: int, p: nat, m: nat)
    requires p > 0 && m == 2 * p && d % p == 0
    ensures d % m == 0 || (d + p) % m == 0
  {
    var q := d / p;
    assert d == q * p;
    if q % 2 == 0 {
      MultipleIsZero(q / 2, m);
      assert d == q / 2 * m by {
        assert q == q / 2 * 2;
      }
    } else {
      MultipleIsZero((q + 1) / 2, m);
      assert d + p == (q + 1) / 2 * m by {
        assert q + 1 == (q + 1) / 2 * 2;
      }
    }
  }

  lemma SumOfMultiples(x: int, y: int, m: nat)
    requires m > 0 && x % m == 0 && y % m == 0
    ensures (x + y) % m == 0
  {
    var i, j := x / m, y / m;
    assert x + y == (i + j) * m by {
      assert x == i * m && y == j * m;
    }
    MultipleIsZero(i + j, m);
  }

  /** Half a turn of 2^(n+1) further on, the missing bit is right. */
  lemma OtherHalf(a: nat, c: nat, z: int, y: int, n: nat)
    requires a % 4 == 1 && c % 2 == 1 && (z - y + Pow2(n)) % Pow2(n + 1) == 0
    ensures (Iterate(a, c, z, Pow2(n)) - y) % Pow2(n + 1) == 0
  {
    HalfTurn(a, c, z, n);
    SumOfMultiples(Iterate(a, c, z, Pow2(n)) - z - Pow2(n), z - y + Pow2(n), Pow2(n + 1));
  }

  /** A step count that is right modulo 2^n is right modulo 2^(n+1), or is so with 2^n added. */
  lemma OneMoreBit(a: nat, c: nat, x: int, y: int, n: nat, j: nat) returns (k: nat)
    requires a % 4 == 1 && c % 2 == 1 && j < Pow2(n)
    requires (Iterate(a, c, x, j) - y) % Pow2(n) == 0
    ensures k < Pow2(n + 1) && (Iterate(a, c, x, k) - y) % Pow2(n + 1) == 0
  {
    var z, p := Iterate(a, c, x, j), Pow2(n);
    NextBit(z - y, p, Pow2(n + 1));
    k := j;
    if (z - y) % Pow2(n + 1) != 0 {
      OtherHalf(a, c, z, y, n);
      IterateAdd(a, c, x, j, p);
      k := j + p;
    }
  }

  /** Full period: from any `x`, every residue `y` modulo 2^n is reached within 2^n steps. */
  lemma {:induction false} FullPeriod(a: nat, c: nat, x: int, y: int, n: nat) returns (k: nat)
    requires a % 4 == 1 && c % 2 == 1
    ensures k < Pow2(n)
    ensures (Iterate(a, c, x, k) - y) % Pow2(n) == 0
  {
    if n == 0 {
      k := 0;
    } else {
      var j := FullPeriod(a, c, x, y, n - 1);
      k := OneMoreBit(a, c, x, y, n - 1, j);
    }
  }
}
