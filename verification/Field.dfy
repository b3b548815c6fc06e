/** Integers modulo a prime: the scalar field of the curve's prime-order subgroup.

    A field element is an integer; every operation returns the representative
    in [0, p). The subgroup itself is cyclic of order p, so a point is modelled
    by its discrete logarithm to the base point.
 */
module Field {

  const TWO_32: nat := 0x1_0000_0000

  predicate Divides(d: nat, n: int)
    requires d > 0
  {
    n % d == 0
  }

  ghost predicate IsPrime(p: int) {
    1 < p && forall d: nat :: 1 < d < p ==> !Divides(d, p)
  }

  /** The order of the subgroup: a prime that no 32-bit index can reach. */
  type Modulus = p: nat | IsPrime(p) && p > TWO_32 ghost witness PrimeAbove(TWO_32)

  // ---------- division with remainder ----------

  lemma MulBounds(k: int, p: nat)
    ensures k >= 1 ==> k * p >= p
    ensures k <= -1 ==> k * p <= -(p as int)
    ensures k <= 0 ==> k * p <= 0
  {
  }

  lemma Distribute(a: int, b: int, c: int)
    ensures (a + b) * c == a * c + b * c
    ensures (a - b) * c == a * c - b * c
  {
  }

  lemma Associate(a: int, b: int, c: int)
    ensures a * (b * c) == a * b * c
  {
  }

  lemma ModUnique(p: nat, a: int, q: int, r: int)
    requires 0 <= r < p
    requires a == q * p + r
    ensures a % p == r && a / p == q
  {
    var q', r' := a / p, a % p;
    assert (q - q') * p == r' - r;
    MulBounds(q - q', p);
  }

  lemma ModShift(p: nat, a: int, k: int)
    requires p > 0
    ensures (a + k * p) % p == a % p
  {
    assert a + k * p == (a / p + k) * p + a % p;
    ModUnique(p, a + k * p, a / p + k, a % p);
  }

  lemma DividesMeans(d: nat, n: int)
    requires d > 0
    ensures Divides(d, n) <==> exists k: int :: n == k * d
  {
    if Divides(d, n) {
      assert n == (n / d) * d;
    }
    if k: int :| n == k * d {
      ModUnique(d, n, k, 0);
    }
  }

  // ---------- primes ----------

  function Factorial(n: nat): (f: nat)
    ensures f >= 1
  {
    if n == 0 then 1 else n * Factorial(n - 1)
  }

  lemma {:induction false} FactorialMultiple(n: nat, d: nat) returns (k: int)
    requires 1 <= d <= n
    ensures Factorial(n) == k * d
  {
    if d == n {
      k := Factorial(n - 1);
    } else {
      var k' := FactorialMultiple(n - 1, d);
      k := n * k';
    }
  }

  /** Every number above 1 has a prime divisor: descend through proper divisors. */
  lemma {:induction false} PrimeDivisor(n: nat) returns (q: nat, k: int)
    requires n > 1
    ensures IsPrime(q) && n == k * q
  {
    if IsPrime(n) {
      q, k := n, 1;
    } else {
      var d: nat :| 1 < d < n && Divides(d, n);
      var k' := n / d;
      var j;
      q, j := PrimeDivisor(d);
      k := k' * j;
    }
  }

  /** There is no largest prime. */
  lemma PrimesUnbounded(n: nat)
    ensures exists q: nat :: IsPrime(q) && q > n
  {
    var q, k := PrimeDivisor(Factorial(n) + 1);
    if q <= n {
      var j := FactorialMultiple(n, q);
      MulBounds(k - j, q);
      Distribute(k, j, q);
      assert false;
    }
  }

  ghost function PrimeAbove(n: nat): (q: nat)
    ensures IsPrime(q) && q > n
  {
    PrimesUnbounded(n);
    var q: nat :| IsPrime(q) && q > n;
    q
  }

  // ---------- congruence ----------

  /** a and b stand for the same field element. */
  ghost predicate Cong(p: nat, a: int, b: int)
    requires p > 0
  {
    a % p == b % p
  }

  lemma CongMeans(p: nat, a: int, b: int)
    requires p > 0
    ensures Cong(p, a, b) <==> exists k: int :: a == b + k * p
  {
    if Cong(p, a, b) {
      assert a == b + (a / p - b / p) * p;
    }
    if k: int :| a == b + k * p {
      ModShift(p, b, k);
    }
  }

  lemma CongMod(p: nat, a: int)
    requires p > 0
    ensures Cong(p, a % p, a)
  {
    ModUnique(p, a % p, 0, a % p);
  }

  lemma CongTrans(p: nat, a: int, b: int, c: int)
    requires p > 0 && Cong(p, a, b) && Cong(p, b, c)
    ensures Cong(p, a, c)
  {
  }

  lemma CongAdd(p: nat, a: int, a': int, b: int, b': int)
    requires p > 0 && Cong(p, a, a') && Cong(p, b, b')
    ensures Cong(p, a + b, a' + b')
    ensures Cong(p, a - b, a' - b')
  {
    CongMeans(p, a, a');
    CongMeans(p, b, b');
    var k: int :| a == a' + k * p;
    var j: int :| b == b' + j * p;
    assert a + b == a' + b' + (k + j) * p;
    assert a - b == a' - b' + (k - j) * p;
    ModShift(p, a' + b', k + j);
    ModShift(p, a' - b', k - j);
  }

  lemma CongScale(p: nat, a: int, a': int, b: int)
    requires p > 0 && Cong(p, a, a')
    ensures Cong(p, a * b, a' * b)
  {
    CongMeans(p, a, a');
    var k: int :| a == a' + k * p;
    assert a * b == a' * b + (k * b) * p;
    ModShift(p, a' * b, k * b);
  }

  lemma CongMul(p: nat, a: int, a': int, b: int, b': int)
    requires p > 0 && Cong(p, a, a') && Cong(p, b, b')
    ensures Cong(p, a * b, a' * b')
  {
    CongScale(p, a, a', b);
    CongScale(p, b, b', a');
  }

  /** Representatives in [0, p) are unique. */
  lemma CongSmall(p: nat, a: int, b: int)
    requires p > 0 && Cong(p, a, b) && 0 <= a < p && 0 <= b < p
    ensures a == b
  {
    ModUnique(p, a, 0, a);
    ModUnique(p, b, 0, b);
  }

  // ---------- inverses ----------

  /** Extended Euclid: g divides both arguments and is an integer combination of them. */
  function Bezout(a: nat, b: nat): (r: (nat, int, int))
    ensures r.0 == a * r.1 + b * r.2
    decreases b
  {
    if b == 0 then (a, 1, 0)
    else
      var (g, x, y) := Bezout(b, a % b);
      assert a == (a / b) * b + a % b;
      assert a * y + b * (x - (a / b) * y) == b * x + (a - (a / b) * b) * y;
      (g, y, x - (a / b) * y)
  }

  lemma Recombine(a: nat, b: nat, k: int, j: int, g: int)
    requires b > 0 && b == k * g && a % b == j * g
    ensures a == ((a / b) * k + j) * g
  {
    var q := a / b;
    assert q * b == (q * k) * g;
    Distribute(q * k, j, g);
  }

  lemma {:induction false} BezoutDivides(a: nat, b: nat) returns (k: int, j: int)
    requires a > 0 || b > 0
    ensures Bezout(a, b).0 > 0
    ensures a == k * Bezout(a, b).0 && b == j * Bezout(a, b).0
    decreases b
  {
    var g := Bezout(a, b).0;
    if b == 0 {
      k, j := 1, 0;
    } else {
      var k', j' := BezoutDivides(b, a % b);
      Recombine(a, b, k', j', g);
      k, j := (a / b) * k' + j', k';
    }
  }

  /** A prime is coprime to everything it does not divide. */
  lemma PrimeCoprime(p: nat, a: nat)
    requires IsPrime(p) && 0 < a < p
    ensures Bezout(a, p).0 == 1
  {
    var g := Bezout(a, p).0;
    var k, j := BezoutDivides(a, p);
    MulBounds(k, g);
    assert g <= a;
    DividesMeans(g, p);
    assert Divides(g, p);
  }

  datatype Option<T> = None | Some(value: T)

  /** `invert()`: None exactly for zero. */
  function Invert(p: Modulus, a: int): (r: Option<int>)
    ensures r.None? <==> a % p == 0
    ensures r.Some? ==> 0 <= r.value < p && (a * r.value) % p == 1
  {
    var x := a % p;
    if x == 0 then None
    else
      var (g, u, v) := Bezout(x, p);
      InvertSound(p, a);
      Some(u % p)
  }

  lemma InvertSound(p: Modulus, a: int)
    requires a % p != 0
    ensures (a * (Bezout(a % p, p).1 % p)) % p == 1
  {
    var x := a % p;
    var u, v := Bezout(x, p).1, Bezout(x, p).2;
    PrimeCoprime(p, x);
    assert x * u == 1 + (-v) * p;
    ModShift(p, 1, -v);
    ModUnique(p, 1, 0, 1);
    CongMod(p, a);
    CongMod(p, u);
    CongMul(p, a, x, u % p, u);
  }

  function Inv(p: Modulus, a: int): (r: int)
    requires a % p != 0
    ensures 0 <= r < p && (a * r) % p == 1
  {
    Invert(p, a).value
  }

  /** A field has no zero divisors, so nonzero factors cancel. */
  lemma Cancel(p: Modulus, a: int, x: int, y: int)
    requires a % p != 0 && Cong(p, a * x, a * y)
    ensures Cong(p, x, y)
  {
    var r := Inv(p, a);
    ModUnique(p, 1, 0, 1);
    CongMul(p, r, r, a * x, a * y);
    CongMul(p, a * r, 1, x, x);
    CongMul(p, a * r, 1, y, y);
    assert r * (a * x) == (a * r) * x;
    assert r * (a * y) == (a * r) * y;
  }

  lemma NonzeroProduct(p: Modulus, a: int, b: int)
    requires a % p != 0 && b % p != 0
    ensures (a * b) % p != 0
  {
    if (a * b) % p == 0 {
      ModUnique(p, 0, 0, 0);
      assert Cong(p, a * b, a * 0);
      Cancel(p, a, b, 0);
      assert false;
    }
  }

  /** Two distinct 32-bit indices stay distinct in the field. */
  lemma IndexDifference(p: Modulus, i: int, j: int)
    requires 0 <= i < TWO_32 && 0 <= j < TWO_32 && i != j
    ensures (j - i) % p != 0
  {
    if i < j {
      ModUnique(p, j - i, 0, j - i);
    } else {
      ModUnique(p, j - i, -1, j - i + p);
    }
  }
}
