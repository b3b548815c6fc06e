/** Feldman verifiable secret sharing (network/crates/cryptography/src/polynomial.rs:93-123).

    A point is the exponent of the base point, so the commitment to a coefficient
    is that coefficient as an element of the field.
 */
module Vss {
  import opened Field
  import opened Polynomial

  const TWO_128: nat := 0x1_0000_0000_0000_0000_0000_0000_0000_0000

  /** Commitment to the first t coefficients. */
  function Commit(p: Modulus, c: seq<int>, t: nat): (v: seq<int>)
    requires t <= |c|
    ensures |v| == t
    ensures forall k :: 0 <= k < t ==> v[k] == c[k] % p
  {
    seq(t, k requires 0 <= k < t => c[k] % p)
  }

  /** `feldman_vss`: the shares at the keys of the set, visited in any order,
      and the commitments. */
  method FeldmanVss(p: Modulus, c: seq<int>, keys: set<nat>, t: nat) returns (y: map<nat, int>, v: seq<int>)
    requires t <= |c|
    ensures y.Keys == keys
    ensures forall k :: k in keys ==> y[k] == Eval(p, c, k)
    ensures v == Commit(p, c, t)
  {
    y := map[];
    var rest := keys;
    while rest != {}
      invariant rest <= keys && y.Keys == keys - rest
      invariant forall k :: k in y ==> y[k] == Eval(p, c, k)
      decreases |rest|
    {
      var key :| key in rest;
      y := y[key := Eval(p, c, key)];
      rest := rest - {key};
    }
    v := [];
    for j := 0 to t
      invariant |v| == j && forall k :: 0 <= k < j ==> v[k] == c[k] % p
    {
      v := v + [c[j] % p];
    }
  }

  // ---------- the check ----------

  /** The sum of e * x^k * v_k. */
  function RunSum(x: int, e: int, v: seq<int>): int
    decreases v
  {
    if v == [] then 0 else e * v[0] + RunSum(x, e * x, v[1..])
  }

  /** Multiplication of two `u128` values, wrapping around. */
  function WrapMul(e: nat, index: nat): (r: nat)
    ensures r < TWO_128
    ensures e * index < TWO_128 ==> r == e * index
  {
    e * index % TWO_128
  }

  /** The same sum when the power lives in a `u128` that wraps around. */
  function WrapSum(index: nat, e: nat, v: seq<int>): int
    decreases v
  {
    if v == [] then 0 else e * v[0] + WrapSum(index, WrapMul(e, index), v[1..])
  }

  /** `verify_vss` accepts. */
  predicate Accepts(p: Modulus, index: nat, share: int, v: seq<int>) {
    share % p == WrapSum(index, 1, v) % p
  }

  /** The loop of `verify_vss`. */
  method VerifyVss(p: Modulus, index: nat, share: int, checks: seq<int>) returns (ok: bool)
    requires checks != []
    ensures ok <==> Accepts(p, index, share, checks)
  {
    var res := share % p;
    var accum := checks[0] % p;
    ghost var done := checks[0];
    var exp: nat := 1;
    var k := 1;
    while k < |checks|
      invariant 1 <= k <= |checks|
      invariant WrapSum(index, 1, checks) == done + WrapSum(index, WrapMul(exp, index), checks[k..])
      invariant accum == done % p
    {
      exp := WrapMul(exp, index);
      var temp := exp % p;
      var res2 := checks[k] * temp % p;
      AccumStep(p, done, exp, checks[k]);
      accum := (accum + res2) % p;
      assert checks[k..][0] == checks[k] && checks[k..][1..] == checks[k + 1..];
      done := done + exp * checks[k];
      k := k + 1;
    }
    assert checks[k..] == [];
    ok := res == accum;
  }

  lemma AccumStep(p: Modulus, done: int, exp: int, check: int)
    ensures (done % p + check * (exp % p) % p) % p == (done + exp * check) % p
  {
    var e := exp % p;
    CongMod(p, done);
    CongMod(p, exp);
    CongScale(p, e, exp, check);
    CongMod(p, check * e);
    CongAdd(p, done % p, done, check * e % p, exp * check);
  }

  lemma {:induction false} RunSumIsHorner(x: int, e: int, v: seq<int>)
    ensures RunSum(x, e, v) == e * Horner(v, x)
    decreases v
  {
    if v != [] {
      RunSumIsHorner(x, e * x, v[1..]);
      var h := Horner(v[1..], x);
      Associate(e, x, h);
      Distribute(v[0], x * h, e);
    }
  }

  lemma {:induction false} PowerPositive(x: nat, k: nat)
    requires x >= 1
    ensures Power(x, k) >= 1
  {
    if k > 0 {
      PowerPositive(x, k - 1);
      MulBounds(x, Power(x, k - 1));
    }
  }

  /** As long as the largest power fits, nothing wraps. */
  lemma {:induction false} NoWrap(index: nat, e: nat, v: seq<int>)
    requires v != [] && e * Power(index, |v| - 1) < TWO_128
    ensures WrapSum(index, e, v) == RunSum(index, e, v)
    decreases v
  {
    if |v| == 1 {
      assert v[1..] == [];
    } else if index == 0 {
      ZeroSums(v[1..]);
    } else {
      Fits(index, e, |v| - 1);
      NoWrap(index, e * index, v[1..]);
    }
  }

  lemma Fits(index: nat, e: nat, k: nat)
    requires index >= 1 && k >= 1 && e * Power(index, k) < TWO_128
    ensures e * index < TWO_128
    ensures e * index * Power(index, k - 1) < TWO_128
  {
    var w := Power(index, k - 1);
    Associate(e, index, w);
    PowerPositive(index, k - 1);
    MulBounds(w, e * index);
  }

  lemma {:induction false} ZeroSums(v: seq<int>)
    ensures WrapSum(0, 0, v) == RunSum(0, 0, v) == 0
  {
    if v != [] { ZeroSums(v[1..]); }
  }

  lemma {:induction false} ZeroVector(index: nat, e: nat, n: nat)
    ensures WrapSum(index, e, seq(n, _ => 0)) == RunSum(index, e, seq(n, _ => 0)) == 0
    decreases n
  {
    if n > 0 {
      var v: seq<int> := seq(n, _ => 0);
      assert v[1..] == seq(n - 1, _ => 0);
      ZeroVector(index, WrapMul(e, index), n - 1);
      ZeroVector(index, e * index, n - 1);
    }
  }

  lemma TwoPowerNonzero(p: Modulus)
    ensures TWO_128 % p != 0
  {
    ModUnique(p, TWO_32, 0, TWO_32);
    NonzeroProduct(p, TWO_32, TWO_32);
    NonzeroProduct(p, TWO_32 * TWO_32, TWO_32 * TWO_32);
    assert TWO_32 * TWO_32 * (TWO_32 * TWO_32) == TWO_128;
  }

  /** A power that wraps is a different field element. */
  lemma WrapDiffers(p: Modulus, e: nat, index: nat)
    requires e < TWO_128 && 1 <= index < p && e * index >= TWO_128
    ensures !Cong(p, e * index % TWO_128, e * index)
  {
    var n, q := e * index, e * index / TWO_128;
    assert n == q * TWO_128 + n % TWO_128;
    assert 1 <= q < index by {
      assert n < TWO_128 * index;
      MulBounds(q - index, TWO_128);
      Distribute(q, index, TWO_128);
    }
    ModUnique(p, q, 0, q);
    TwoPowerNonzero(p);
    NonzeroProduct(p, q, TWO_128);
    if Cong(p, n % TWO_128, n) {
      CongAdd(p, n, n % TWO_128, n % TWO_128, n % TWO_128);
      ModUnique(p, 0, 0, 0);
      assert false;
    }
  }

  /** Once the largest power does not fit, some commitment is misjudged. */
  lemma {:induction false} WrapWitness(p: Modulus, index: nat, e: nat, t: nat) returns (v: seq<int>)
    requires 1 <= t && 1 <= index < p && 1 <= e < TWO_128
    requires e * Power(index, t - 1) >= TWO_128
    ensures |v| == t && !Cong(p, WrapSum(index, e, v), RunSum(index, e, v))
    decreases t
  {
    if e * index >= TWO_128 {
      v := [0, 1] + seq(t - 2, _ => 0);
      assert v[1..][1..] == seq(t - 2, _ => 0) && v[1..][0] == 1;
      ZeroVector(index, WrapMul(WrapMul(e, index), index), t - 2);
      ZeroVector(index, e * index * index, t - 2);
      WrapDiffers(p, e, index);
    } else {
      Associate(e, index, Power(index, t - 2));
      MulBounds(e, index);
      var v' := WrapWitness(p, index, e * index, t - 1);
      v := [0] + v';
      assert v[1..] == v';
    }
  }

  /** The check accepts exactly the evaluations of the committed polynomial. */
  ghost predicate CheckIsExact(p: Modulus, index: nat, t: nat) {
    forall share: int, v: seq<int> :: |v| == t && 0 <= share < p ==>
      (Accepts(p, index, share, v) <==> share == Eval(p, v, index))
  }

  lemma AcceptsMeans(p: Modulus, index: nat, share: int, v: seq<int>)
    requires v != [] && Power(index, |v| - 1) < TWO_128
    ensures Accepts(p, index, share, v) <==> Cong(p, share, Horner(v, index))
  {
    NoWrap(index, 1, v);
    RunSumIsHorner(index, 1, v);
  }

  /** `verify_vss` is exact for thresholds up to t if and only if index^(t-1) fits in 128 bits. */
  lemma VssExact(p: Modulus, index: nat, t: nat)
    requires 1 <= t && index < p
    ensures CheckIsExact(p, index, t) <==> Power(index, t - 1) < TWO_128
  {
    ZeroPower(t - 1);
    if Power(index, t - 1) < TWO_128 {
      forall share: int, v: seq<int> | |v| == t && 0 <= share < p
        ensures Accepts(p, index, share, v) <==> share == Eval(p, v, index)
      {
        AcceptsMeans(p, index, share, v);
        EvalIsHorner(p, v, index);
        ModUnique(p, share, 0, share);
      }
    } else {
      var v := WrapWitness(p, index, 1, t);
      var share := Eval(p, v, index);
      RunSumIsHorner(index, 1, v);
      EvalIsHorner(p, v, index);
      ModUnique(p, share, 0, share);
      assert !Accepts(p, index, share, v);
    }
  }

  lemma ZeroPower(k: nat)
    ensures Power(0, k) <= 1
  {
  }

  lemma CommitStep(p: Modulus, c: int, x: int, h: int, h': int)
    requires Cong(p, h, h')
    ensures Cong(p, c % p + x * h, c + x * h')
  {
    hide Cong;
    CongMod(p, c);
    CongScale(p, h, h', x);
    CongAdd(p, c % p, c, x * h, x * h');
  }

  lemma {:induction false} CommitEval(p: Modulus, c: seq<int>, x: int)
    ensures Cong(p, Horner(Commit(p, c, |c|), x), Horner(c, x))
  {
    if c != [] {
      var v := Commit(p, c, |c|);
      assert v[1..] == Commit(p, c[1..], |c| - 1) && v[0] == c[0] % p;
      CommitEval(p, c[1..], x);
      CommitStep(p, c[0], x, Horner(v[1..], x), Horner(c[1..], x));
    }
  }

  /** Every honest share passes its own check. */
  lemma HonestShareAccepted(p: Modulus, c: seq<int>, index: nat)
    requires c != [] && Power(index, |c| - 1) < TWO_128
    ensures Accepts(p, index, Eval(p, c, index), Commit(p, c, |c|))
  {
    CommitEval(p, c, index);
    EvalIsHorner(p, c, index);
    CongMod(p, Horner(c, index));
    AcceptsMeans(p, index, Eval(p, c, index), Commit(p, c, |c|));
  }
}
