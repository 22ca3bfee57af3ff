// Modular exponentiation by squaring and modular inverse by the extended
// Euclidean algorithm, as `BigUint::modpow` and `BigUint::modinv` provide them,
// with the laws of exponents that ElGamal rests on. No modulus is assumed prime.
module Modular {
  import opened Wrappers

  function Pow(b: nat, e: nat): (r: nat) {
    if e == 0 then 1 else b * Pow(b, e - 1)
  }

  /** A quotient and a remainder in range are the quotient and the remainder. */
  lemma RemainderUnique(x: int, m: nat, q: int, t: nat)
    requires t < m && x == m * q + t
    ensures x % m == t
  {
    var d := q - x / m;
    assert x == m * (x / m) + x % m;
    assert m * d == x % m - t by {
      assert m * d == m * q - m * (x / m);
    }
    MultipleOutside(m, d);
  }

  /** Multiples of `m` other than 0 lie outside (-m, m). */
  lemma MultipleOutside(m: nat, d: int)
    ensures d >= 1 ==> m * d >= m
    ensures d <= -1 ==> m * d + m <= 0
  {
    if d >= 1 {
      assert m * (d - 1) >= 0;
    } else if d <= -1 {
      assert m * (-d - 1) >= 0;
    }
  }

  lemma SmallMod(x: nat, m: nat)
    requires x < m
    ensures x % m == x
  {
    RemainderUnique(x, m, 0, x);
  }

  lemma AddMultiple(r: int, k: int, m: nat)
    requires m > 0
    ensures (r + m * k) % m == r % m
  {
    assert r + m * k == m * (r / m + k) + r % m by {
      assert m * (r / m + k) == m * (r / m) + m * k;
    }
    RemainderUnique(r + m * k, m, r / m + k, r % m);
  }

  /** A factor may be reduced before multiplying. */
  lemma MulMod(a: int, b: int, m: nat)
    requires m > 0
    ensures (a * b) % m == ((a % m) * b) % m
  {
    var q, r := a / m, a % m;
    assert a * b == r * b + m * (q * b) by {
      assert a == m * q + r;
      assert (m * q) * b == m * (q * b);
    }
    AddMultiple(r * b, q * b, m);
  }

  /** Both factors may be reduced before multiplying. */
  lemma MulModBoth(a: int, b: int, m: nat)
    requires m > 0
    ensures (a * b) % m == ((a % m) * (b % m)) % m
  {
    MulMod(a, b, m);
    MulMod(b, a % m, m);
    assert (a % m) * b == b * (a % m) && (a % m) * (b % m) == (b % m) * (a % m);
  }

  /** Congruent factors give congruent products. */
  lemma CongruentProduct(a: int, a': int, b: int, b': int, m: nat)
    requires m > 0 && a % m == a' % m && b % m == b' % m
    ensures (a * b) % m == (a' * b') % m
  {
    MulModBoth(a, b, m);
    MulModBoth(a', b', m);
  }

  lemma {:induction false} PowAdd(b: nat, e: nat, f: nat)
    ensures Pow(b, e + f) == Pow(b, e) * Pow(b, f)
  {
    if e > 0 {
      PowAdd(b, e - 1, f);
      Associate(b, Pow(b, e - 1), Pow(b, f));
    }
  }

  lemma Associate(a: nat, b: nat, c: nat)
    ensures (a * b) * c == a * (b * c)
  {
  }

  lemma {:induction false} PowMul(b: nat, e: nat, f: nat)
    ensures Pow(b, e * f) == Pow(Pow(b, e), f)
  {
    if f == 0 {
      assert e * f == 0;
    } else {
      assert e * f == e + e * (f - 1);
      PowAdd(b, e, e * (f - 1));
      PowMul(b, e, f - 1);
    }
  }

  lemma {:induction false} PowProduct(a: nat, b: nat, e: nat)
    ensures Pow(a * b, e) == Pow(a, e) * Pow(b, e)
  {
    if e > 0 {
      PowProduct(a, b, e - 1);
      var x, y := Pow(a, e - 1), Pow(b, e - 1);
      Interchange(a, b, x, y);
    }
  }

  lemma Interchange(a: nat, b: nat, x: nat, y: nat)
    ensures (a * b) * (x * y) == (a * x) * (b * y)
  {
    Associate(a, b, x * y);
    Associate(b, x, y);
    Associate(x, b, y);
    Associate(a, x, b * y);
    assert b * x == x * b;
  }

  lemma {:induction false} PowOne(e: nat)
    ensures Pow(1, e) == 1
  {
    if e > 0 {
      PowOne(e - 1);
    }
  }

  lemma {:induction false} PowMod(b: nat, e: nat, m: nat)
    requires m > 0
    ensures Pow(b, e) % m == Pow(b % m, e) % m
  {
    if e > 0 {
      PowMod(b, e - 1, m);
      SmallMod(b % m, m);
      CongruentProduct(b, b % m, Pow(b, e - 1), Pow(b % m, e - 1), m);
    }
  }

  /** `BigUint::modpow`: exponentiation by repeated squaring computes the power. */
  function ModPow(b: nat, e: nat, m: nat): (r: nat)
    requires m > 0
    ensures r == Pow(b, e) % m
    decreases e
  {
    if e == 0 then 1 % m
    else
      var half := ModPow(b * b % m, e / 2, m);
      PowMod(b * b, e / 2, m);
      Squaring(b, e);
      if e % 2 == 0 then half
      else
        MulMod(Pow(b * b, e / 2), b, m);
        half * b % m
  }

  lemma Squaring(b: nat, e: nat)
    ensures Pow(b, e) == if e % 2 == 0 then Pow(b * b, e / 2) else Pow(b * b, e / 2) * b
  {
    PowProduct(b, b, e / 2);
    PowAdd(b, e / 2, e / 2);
    assert e / 2 + e / 2 == e - e % 2;
  }

  /** `d` divides `n`. */
  ghost predicate Divides(d: nat, n: int) {
    exists k: int :: n == d * k
  }

  /** The extended Euclidean algorithm: a common divisor with its two cofactors. */
  function ExtendedGcd(a: nat, b: nat): (r: (nat, int, int))
    ensures r.0 == a * r.1 + b * r.2
    ensures Divides(r.0, a) && Divides(r.0, b)
    ensures a > 0 || b > 0 ==> r.0 > 0
    decreases b
  {
    if b == 0 then
      assert a == a * 1 && 0 == a * 0;
      (a, 1, 0)
    else
      var (g, x, y) := ExtendedGcd(b, a % b);
      EuclidStep(a, b, g, x, y);
      (g, y, x - a / b * y)
  }

  lemma EuclidStep(a: nat, b: nat, g: nat, x: int, y: int)
    requires b > 0 && g == b * x + (a % b) * y
    requires Divides(g, b) && Divides(g, a % b)
    ensures g == a * y + b * (x - a / b * y)
    ensures Divides(g, a)
  {
    var q, r := a / b, a % b;
    assert a == b * q + r;
    assert a * y + b * (x - q * y) == b * x + r * y by {
      assert a * y == (b * q) * y + r * y;
      assert (b * q) * y == b * (q * y);
      assert b * (x - q * y) == b * x - b * (q * y);
    }
    var i: int :| b == g * i;
    var j: int :| r == g * j;
    assert a == g * (i * q + j) by {
      assert b * q == (g * i) * q == g * (i * q);
    }
  }

  /** `b` is an inverse of `a` modulo `m`. */
  predicate IsInverse(a: nat, b: nat, m: nat)
    requires m > 1
  {
    b < m && (a * b) % m == 1
  }

  ghost predicate Invertible(a: nat, m: nat)
    requires m > 1
  {
    exists b: nat :: IsInverse(a, b, m)
  }

  /** `BigUint::modinv`: the inverse when there is one, and `None` only when there is none. */
  function ModInv(a: nat, m: nat): (r: Option<nat>)
    requires m > 1
    ensures r.Some? ==> IsInverse(a, r.value, m)
    ensures r.None? ==> forall b: nat :: !IsInverse(a, b, m)
  {
    var (g, x, y) := ExtendedGcd(a, m);
    if g == 1 then
      Cofactor(a, m, x, y);
      Some(x % m)
    else
      NoInverse(a, m, g);
      None
  }

  lemma Cofactor(a: nat, m: nat, x: int, y: int)
    requires m > 1 && 1 == a * x + m * y
    ensures (a * (x % m)) % m == 1
  {
    SmallMod(x % m, m);
    CongruentProduct(a, a, x % m, x, m);
    var ax, my := a * x, m * y;
    assert ax == 1 + m * (-y) by {
      assert m * (-y) == -my;
    }
    AddMultiple(1, -y, m);
    SmallMod(1, m);
  }

  lemma NoInverse(a: nat, m: nat, g: nat)
    requires m > 1 && g > 1 && Divides(g, a) && Divides(g, m)
    ensures forall b: nat :: !IsInverse(a, b, m)
  {
    var i: int :| a == g * i;
    var j: int :| m == g * j;
    forall b: nat
      ensures !IsInverse(a, b, m)
    {
      NotCongruentToOne(i, j, b, g);
    }
  }

  lemma NotCongruentToOne(i: int, j: int, b: nat, g: nat)
    requires g > 1 && g * i >= 0 && g * j > 0
    ensures ((g * i) * b) % (g * j) != 1
  {
    var a, m := g * i, g * j;
    var q := a * b / m;
    assert a * b == m * q + a * b % m;
    CommonFactor(g, i, j, b, q);
    MultipleOutside(g, i * b - j * q);
  }

  /** What a common divisor of `a` and `m` leaves of `a * b - m * q`. */
  lemma CommonFactor(g: nat, i: int, j: int, b: nat, q: int)
    ensures (g * i) * b - (g * j) * q == g * (i * b - j * q)
  {
    assert (g * i) * b == g * (i * b);
    assert (g * j) * q == g * (j * q);
  }

  lemma PowersInvertible(a: nat, b: nat, k: nat, m: nat)
    requires m > 1 && a * b % m == 1
    ensures ((Pow(a, k) % m) * (Pow(b, k) % m)) % m == 1
  {
    var x, y := Pow(a, k), Pow(b, k);
    MulModBoth(x, y, m);
    assert (x * y) % m == 1 by {
      PowProduct(a, b, k);
      PowMod(a * b, k, m);
      PowOne(k);
      SmallMod(1, m);
    }
  }

  /** Two is invertible modulo any odd number, and so is each of its powers. */
  lemma PowerOfTwoInvertible(k: nat, m: nat)
    requires m > 1 && m % 2 == 1
    ensures Invertible(Pow(2, k) % m, m)
  {
    var half := (m + 1) / 2;
    assert 2 * half % m == 1;
    PowersInvertible(2, half, k, m);
    assert IsInverse(Pow(2, k) % m, Pow(half, k) % m, m);
  }

  /** Multiplying by an inverse cancels: the solution of `x * s == c (mod m)`. */
  lemma CancelInverse(c: nat, s: nat, inv: nat, m: nat)
    requires m > 1 && IsInverse(s, inv, m)
    ensures ((c * inv % m) * s) % m == c % m
  {
    MulMod(c * inv, s, m);
    assert (c * inv) * s == (s * inv) * c;
    MulMod(s * inv, c, m);
  }

  /** ... and the only one below `m`. */
  lemma SolutionUnique(x: nat, y: nat, s: nat, inv: nat, m: nat)
    requires m > 1 && IsInverse(s, inv, m) && x < m && y < m
    requires (x * s) % m == (y * s) % m
    ensures x == y
  {
    Undo(x, s, inv, m);
    Undo(y, s, inv, m);
  }

  lemma Undo(x: nat, s: nat, inv: nat, m: nat)
    requires m > 1 && IsInverse(s, inv, m) && x < m
    ensures ((x * s % m) * inv) % m == x
  {
    SmallMod(x, m);
    MulMod(x * s, inv, m);
    assert (x * s) * inv == (s * inv) * x;
    MulMod(s * inv, x, m);
  }
}
