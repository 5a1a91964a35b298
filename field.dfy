/** The prime field the circuits are defined over.

    A field element is represented by any integer; two integers denote the same
    element when they are congruent modulo the field order `p`.  The order is a
    parameter of every definition (the circuits are generic over the field type),
    and primality is never assumed silently: the lemmas that need it ask for
    `NoZeroDivisors(p)`. */
module Field {

  /** A field order.  Every order of interest is prime; only `p > 1` is built in. */
  type Modulus = p: int | p > 1 witness 2

  /** Order of the scalar field `Fr` of the BN254 (alt_bn128) curve, the field the tests use. */
  const FrModulus: Modulus := 21888242871839275222246405745257275088548364400416034343698204186575808495617

  /** Field multiplication on representatives. */
  function Mul(p: Modulus, x: int, y: int): (r: int)
    ensures 0 <= r < p
  {
    (x * y) % p
  }

  /** The field has no zero divisors: true exactly when `p` is prime. */
  ghost predicate NoZeroDivisors(p: Modulus)
  {
    forall x, y :: 0 <= x < p && 0 <= y < p && Mul(p, x, y) == 0 ==> x == 0 || y == 0
  }

  /** The remainder is determined by any decomposition `x == q * p + r` with `0 <= r < p`. */
  lemma ModUnique(p: Modulus, x: int, q: int, r: int)
    requires 0 <= r < p && x == q * p + r
    ensures x % p == r
  {
    var q' := x / p;
    assert x == q' * p + x % p;
    assert (q - q') * p == x % p - r;
    MultipleBounds(p, q - q');
  }

  /** A non-zero multiple of `p` is at least `p` in absolute value. */
  lemma MultipleBounds(p: Modulus, k: int)
    ensures k >= 1 ==> k * p >= p
    ensures k <= -1 ==> k * p + p <= 0
  {
    if k >= 1 {
      assert k * p == p + (k - 1) * p;
    } else if k <= -1 {
      assert k * p + p == (k + 1) * p;
    }
  }

  /** Reducing the operands of a sum does not change the sum modulo `p`. */
  lemma ModSum(p: Modulus, x: int, y: int)
    ensures (x % p + y % p) % p == (x + y) % p
  {
    var t := x % p + y % p;
    assert x == (x / p) * p + x % p;
    assert y == (y / p) * p + y % p;
    assert t == (t / p) * p + t % p;
    assert x + y == (x / p + y / p + t / p) * p + t % p;
    ModUnique(p, x + y, x / p + y / p + t / p, t % p);
  }

  /** Reducing the operands of a difference does not change it modulo `p`. */
  lemma ModDiff(p: Modulus, x: int, y: int)
    ensures (x % p - y % p) % p == (x - y) % p
  {
    var t := x % p - y % p;
    assert x == (x / p) * p + x % p;
    assert y == (y / p) * p + y % p;
    assert t == (t / p) * p + t % p;
    assert x - y == (x / p - y / p + t / p) * p + t % p;
    ModUnique(p, x - y, x / p - y / p + t / p, t % p);
  }

  /** Multiplying out two decompositions `q * p + r`. */
  lemma ProductExpansion(p: int, qx: int, rx: int, qy: int, ry: int)
    ensures (qx * p + rx) * (qy * p + ry) == (qx * qy * p + qx * ry + rx * qy) * p + rx * ry
  {
    calc {
      (qx * p + rx) * (qy * p + ry);
      (qx * p) * (qy * p + ry) + rx * (qy * p + ry);
      (qx * p) * (qy * p) + (qx * p) * ry + rx * (qy * p) + rx * ry;
      (qx * qy * p) * p + (qx * ry) * p + (rx * qy) * p + rx * ry;
      (qx * qy * p + qx * ry + rx * qy) * p + rx * ry;
    }
  }

  /** Adding a multiple of `p` does not change the remainder. */
  lemma ModShift(p: Modulus, x: int, k: int, t: int)
    requires x == k * p + t
    ensures x % p == t % p
  {
    assert t == (t / p) * p + t % p;
    assert x == (k + t / p) * p + t % p;
    ModUnique(p, x, k + t / p, t % p);
  }

  /** Reducing the operands of a product does not change it modulo `p`. */
  lemma ModProduct(p: Modulus, x: int, y: int)
    ensures ((x % p) * (y % p)) % p == (x * y) % p
  {
    var qx, rx := x / p, x % p;
    var qy, ry := y / p, y % p;
    var k := qx * qy * p + qx * ry + rx * qy;
    assert x * y == k * p + rx * ry by {
      assert x == qx * p + rx;
      assert y == qy * p + ry;
      ProductExpansion(p, qx, rx, qy, ry);
    }
    ModShift(p, x * y, k, rx * ry);
  }

  /** Two integers denote the same field element iff their difference denotes zero. */
  lemma CongruentIffDifferenceVanishes(p: Modulus, x: int, y: int)
    ensures x % p == y % p <==> (x - y) % p == 0
  {
    ModDiff(p, x, y);
    var d := x % p - y % p;
    if d == 0 {
      ModUnique(p, d, 0, 0);
    } else if d > 0 {
      ModUnique(p, d, 0, d);
    } else {
      ModUnique(p, d, -1, d + p);
    }
  }

  /** A product with a factor that denotes zero denotes zero, whether or not `p` is prime. */
  lemma ZeroFactor(p: Modulus, x: int, y: int)
    requires x % p == 0 || y % p == 0
    ensures (x * y) % p == 0
  {
    ModProduct(p, x, y);
    assert (x % p) * (y % p) == 0;
    ModUnique(p, 0, 0, 0);
  }

  /** In a field a product denotes zero iff one of its factors does. */
  lemma ProductVanishes(p: Modulus, x: int, y: int)
    requires NoZeroDivisors(p)
    ensures (x * y) % p == 0 <==> x % p == 0 || y % p == 0
  {
    ModProduct(p, x, y);
    assert Mul(p, x % p, y % p) == (x * y) % p;
    if x % p == 0 || y % p == 0 {
      ZeroFactor(p, x, y);
    }
  }
}
