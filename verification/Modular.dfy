/** Powers of two, remainders, and arithmetic modulo a prime with inverses by the extended Euclidean algorithm. */
module Modular {

  function Pow2(n: nat): nat {
    if n == 0 then 1 else 2 * Pow2(n - 1)
  }

  lemma {:induction false} Pow2Positive(n: nat)
    ensures Pow2(n) > 0
  {
    if n > 0 {
      Pow2Positive(n - 1);
    }
  }

  /** The remainder, with what defines it. */
  function Residue(x: nat, m: nat): (r: nat)
    requires m > 0
    ensures r < m
    ensures x < m ==> r == x
  {
    x % m
  }

  /** Halving a remainder modulo `2 * m` is the remainder of the half modulo `m`. */
  lemma HalfRemainder(x: nat, m: nat)
    requires m > 0
    ensures x % (2 * m) % 2 == x % 2
    ensures x % (2 * m) / 2 == x / 2 % m
  {
    var q, r := x / (2 * m), x % (2 * m);
    assert x == 2 * m * q + r;
    assert 2 * m * q == 2 * (m * q);
    assert x % 2 == r % 2;
    assert x / 2 == m * q + r / 2;
    ModUnique(x / 2, m, q, r / 2);
  }

  ghost predicate Prime(q: nat) {
    q > 1 && forall d :: 1 < d < q ==> q % d != 0
  }

  lemma MulAtLeast(q: nat, d: int)
    ensures d >= 1 ==> q * d >= q
    ensures d <= -1 ==> q * d <= 0 - q
  {
    if d >= 1 {
      assert q * d == q + q * (d - 1) && q * (d - 1) >= 0;
    } else if d <= -1 {
      assert q * d == 0 - q - q * (0 - d - 1) && q * (0 - d - 1) >= 0;
    }
  }

  lemma ModUnique(x: int, q: nat, k: int, r: int)
    requires 0 <= r < q && x == q * k + r
    ensures x % q == r && x / q == k
  {
    var d := k - x / q;
    assert q * d == q * k - q * (x / q);
    MulAtLeast(q, d);
  }

  lemma SmallMod(x: nat, q: nat)
    requires x < q
    ensures x % q == x
  {}

  lemma AddMultiple(x: int, k: int, q: nat)
    requires q > 0
    ensures (x + q * k) % q == x % q
  {
    assert x + q * k == q * (x / q + k) + x % q;
    ModUnique(x + q * k, q, x / q + k, x % q);
  }

  lemma MulModLeft(a: int, b: int, q: nat)
    requires q > 0
    ensures (a % q) * b % q == a * b % q
  {
    var k := a / q;
    assert a == q * k + a % q;
    assert a * b == (a % q) * b + q * (k * b);
    AddMultiple((a % q) * b, k * b, q);
  }

  lemma AddModLeft(a: int, b: int, q: nat)
    requires q > 0
    ensures (a % q + b) % q == (a + b) % q
  {
    assert a == q * (a / q) + a % q;
    AddMultiple(a % q + b, a / q, q);
  }

  /** The greatest common divisor of `a` and `b`, with the coefficients that combine them to it. */
  function Bezout(a: nat, b: nat): (nat, int, int)
    decreases b
  {
    if b == 0 then (a, 1, 0)
    else
      var (g, x, y) := Bezout(b, a % b);
      (g, y, x - a / b * y)
  }

  lemma Regroup(a: int, b: int, k: int, m: int, x: int, y: int)
    requires a == b * k + m
    ensures a * y + b * (x - k * y) == b * x + m * y
  {
    assert a * y == b * k * y + m * y;
    assert b * (x - k * y) == b * x - b * (k * y);
    assert b * k * y == b * (k * y);
  }

  lemma {:induction false} BezoutCombines(a: nat, b: nat)
    ensures var (g, x, y) := Bezout(a, b);
            a * x + b * y == g
    decreases b
  {
    if b != 0 {
      BezoutCombines(b, a % b);
      var (g, x, y) := Bezout(b, a % b);
      Regroup(a, b, a / b, a % b, x, y);
    }
  }

  ghost predicate Divides(g: nat, a: nat) {
    exists s: nat :: a == g * s
  }

  lemma DividesItself(a: nat)
    ensures Divides(a, a) && Divides(a, 0)
  {
    assert a == a * 1 && 0 == a * 0;
  }

  lemma DividesCombination(g: nat, b: nat, k: nat, m: nat)
    requires Divides(g, b) && Divides(g, m)
    ensures Divides(g, b * k + m)
  {
    var s: nat, t: nat :| b == g * s && m == g * t;
    assert b * k == g * (s * k) by { assert g * s * k == g * (s * k); }
    assert b * k + m == g * (s * k + t);
  }

  lemma DividesDividend(g: nat, a: nat, b: nat)
    requires b > 0 && Divides(g, b) && Divides(g, a % b)
    ensures Divides(g, a)
  {
    DividesCombination(g, b, a / b, a % b);
    assert a == b * (a / b) + a % b;
  }

  lemma {:induction false} BezoutDivides(a: nat, b: nat)
    requires a > 0 || b > 0
    ensures var g := Bezout(a, b).0;
            g > 0 && Divides(g, a) && Divides(g, b)
    decreases b
  {
    hide Divides;
    if b == 0 {
      DividesItself(a);
    } else {
      BezoutNext(a, b);
      hide Bezout;
      BezoutDivides(b, a % b);
      DividesDividend(Bezout(a, b).0, a, b);
    }
  }

  lemma BezoutNext(a: nat, b: nat)
    requires b > 0
    ensures Bezout(a, b).0 == Bezout(b, a % b).0
  {}

  function Inverse(r: nat, q: nat): nat
    requires q > 0
  {
    Bezout(r, q).1 % q
  }

  /** Modulo a prime every scalar but zero has an inverse. */
  lemma InverseInverts(r: nat, q: nat)
    requires Prime(q) && 0 < r < q
    ensures r * Inverse(r, q) % q == 1
  {
    var (g, x, y) := Bezout(r, q);
    BezoutCombines(r, q);
    CoprimeToPrime(r, q);
    hide Bezout, Prime;
    InverseOf(r, q, x, y);
  }

  lemma InverseOf(r: nat, q: nat, x: int, y: int)
    requires q > 1 && r * x + q * y == 1
    ensures r * (x % q) % q == 1
  {
    assert x * r == 1 + q * (0 - y) by { assert q * (0 - y) == 0 - q * y; }
    AddMultiple(1, 0 - y, q);
    MulModLeft(x, r, q);
    SmallMod(1, q);
    assert (x % q) * r == r * (x % q);
  }

  lemma CoprimeToPrime(r: nat, q: nat)
    requires Prime(q) && 0 < r < q
    ensures Bezout(r, q).0 == 1
  {
    var g := Bezout(r, q).0;
    BezoutDivides(r, q);
    hide Bezout;
    var s: nat, t: nat :| r == g * s && q == g * t;
    assert s >= 1;
    MulAtLeast(g, s);
    assert q % g == 0 by { ModUnique(q, g, t, 0); }
  }

  /** Multiplying by an inverse and back. */
  lemma Cancel(d: int, r: nat, inv: nat, q: nat)
    requires q > 1 && r * inv % q == 1
    ensures (d * inv % q) * r % q == d % q
  {
    MulModLeft(d * inv, r, q);
    assert d * inv * r == r * inv * d by { assert d * inv * r == d * (inv * r) && inv * r == r * inv; }
    MulModLeft(r * inv, d, q);
  }

  lemma ZeroTimes(x: int, q: nat)
    requires q > 0
    ensures 0 * x % q == 0
  {}

  /** A multiple by an invertible factor is zero only if the number is. */
  lemma CancelZero(d: int, r: nat, inv: nat, q: nat)
    requires q > 1 && r * inv % q == 1
    ensures d * inv % q == 0 <==> d % q == 0
  {
    Cancel(d, r, inv, q);
    MulModLeft(d, inv, q);
    ZeroTimes(r, q);
    ZeroTimes(inv, q);
  }

  /** A difference, taken modulo `q`, and added back. */
  lemma Restore(z: nat, m: nat, q: nat)
    requires z < q && m < q
    ensures ((z - m) % q + m) % q == z
    ensures (z - m) % q == 0 <==> z == m
  {
    AddModLeft(z - m, m, q);
    SmallMod(z, q);
    SmallMod(m, q);
  }
}
