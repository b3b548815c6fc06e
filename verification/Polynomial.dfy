/** Polynomials over the scalar field and Lagrange interpolation at zero
    (network/crates/cryptography/src/polynomial.rs).
 */
module Polynomial {
  import opened Field

  // ---------- evaluation ----------

  function Power(x: int, k: nat): int {
    if k == 0 then 1 else x * Power(x, k - 1)
  }

  /** `Polynomial::eval`: the sum of x^i * c_i, coefficients in ascending order. */
  function Eval(p: Modulus, c: seq<int>, x: int): (r: int)
    ensures 0 <= r < p
  {
    PowerSum(p, c, x, 0)
  }

  function PowerSum(p: Modulus, c: seq<int>, x: int, i: nat): (r: int)
    requires i <= |c|
    ensures 0 <= r < p
    decreases |c| - i
  {
    if i == |c| then 0 else (Power(x, i) % p * c[i] + PowerSum(p, c, x, i + 1)) % p
  }

  /** The value over the integers, by Horner's rule. */
  function Horner(c: seq<int>, x: int): int {
    if c == [] then 0 else c[0] + x * Horner(c[1..], x)
  }

  lemma {:induction false} PowerSumIsHorner(p: Modulus, c: seq<int>, x: int, i: nat)
    requires i <= |c|
    ensures Cong(p, PowerSum(p, c, x, i), Power(x, i) * Horner(c[i..], x))
    decreases |c| - i
  {
    if i < |c| {
      PowerSumIsHorner(p, c, x, i + 1);
      var w, h := Power(x, i), Horner(c[i + 1..], x);
      assert c[i..][1..] == c[i + 1..];
      CongMod(p, w);
      CongScale(p, w % p, w, c[i]);
      CongAdd(p, w % p * c[i], w * c[i], PowerSum(p, c, x, i + 1), Power(x, i + 1) * h);
      CongMod(p, w % p * c[i] + PowerSum(p, c, x, i + 1));
      assert w * c[i] + x * w * h == w * (c[i] + x * h);
    }
  }

  /** Evaluating by powers and by Horner's rule agree in the field. */
  lemma EvalIsHorner(p: Modulus, c: seq<int>, x: int)
    ensures Eval(p, c, x) == Horner(c, x) % p
  {
    PowerSumIsHorner(p, c, x, 0);
    assert c[0..] == c;
    CongMod(p, Horner(c, x));
    CongSmall(p, Eval(p, c, x), Horner(c, x) % p);
  }

  lemma EvalAtZero(p: Modulus, c: seq<int>)
    ensures Horner(c, 0) == if c == [] then 0 else c[0]
    ensures Eval(p, c, 0) == (if c == [] then 0 else c[0]) % p
  {
    EvalIsHorner(p, c, 0);
  }

  /** `add_same_deg`. */
  function AddSameDegree(c: seq<int>, d: seq<int>): (e: seq<int>)
    requires |c| == |d|
    ensures |e| == |c|
    ensures forall k :: 0 <= k < |c| ==> e[k] == c[k] + d[k]
  {
    if c == [] then [] else [c[0] + d[0]] + AddSameDegree(c[1..], d[1..])
  }

  lemma {:induction false} AddEval(c: seq<int>, d: seq<int>, x: int)
    requires |c| == |d|
    ensures Horner(AddSameDegree(c, d), x) == Horner(c, x) + Horner(d, x)
  {
    if c != [] {
      AddEval(c[1..], d[1..], x);
      var u, v := Horner(c[1..], x), Horner(d[1..], x);
      assert AddSameDegree(c, d)[1..] == AddSameDegree(c[1..], d[1..]);
      assert x * (u + v) == x * u + x * v;
    }
  }

  /** Synthetic division by (x - a): the quotient has one coefficient fewer. */
  function Quotient(c: seq<int>, a: int): (g: seq<int>)
    ensures |g| == if c == [] then 0 else |c| - 1
  {
    if |c| <= 1 then [] else [Horner(c[1..], a)] + Quotient(c[1..], a)
  }

  lemma Regroup(x: int, a: int, h: int, g: int)
    ensures x * (h + (x - a) * g) == a * h + (x - a) * (h + x * g)
  {
    var d := x - a;
    Associate(x, d, g);
    Associate(d, x, g);
    Distribute(a, d, h);
    assert x * (h + d * g) == x * h + x * (d * g);
    assert d * (h + x * g) == d * h + d * (x * g);
  }

  lemma {:induction false} QuotientEval(c: seq<int>, a: int, x: int)
    ensures Horner(c, x) == Horner(c, a) + (x - a) * Horner(Quotient(c, a), x)
  {
    if |c| <= 1 {
      if |c| == 1 { assert c[1..] == []; }
    } else {
      var t := c[1..];
      QuotientEval(t, a, x);
      assert Quotient(c, a)[1..] == Quotient(t, a);
      Regroup(x, a, Horner(t, a), Horner(Quotient(t, a), x));
    }
  }

  // ---------- Lagrange basis at zero ----------

  /** A node index as the code hands it to Lagrange: a positive `u32`. */
  predicate IsIndex(i: int) {
    1 <= i < TWO_32
  }

  predicate Indices(s: seq<int>) {
    forall k :: 0 <= k < |s| ==> IsIndex(s[k])
  }

  predicate Distinct<T(==)>(s: seq<T>) {
    forall j, k :: 0 <= j < k < |s| ==> s[j] != s[k]
  }

  /** One loop step: multiply by j / (j - i), skipping j == i. */
  function Ratio(p: Modulus, i: int, j: int): int
    requires IsIndex(i) && IsIndex(j)
  {
    if j == i then 1 else IndexDifference(p, i, j); j * Inv(p, j - i)
  }

  function Basis(p: Modulus, i: int, s: seq<int>): int
    requires IsIndex(i) && Indices(s)
  {
    if s == [] then 1 else Ratio(p, i, s[0]) * Basis(p, i, s[1..])
  }

  lemma {:induction false} BasisAppend(p: Modulus, i: int, s: seq<int>, t: seq<int>)
    requires IsIndex(i) && Indices(s) && Indices(t)
    ensures Indices(s + t)
    ensures Basis(p, i, s + t) == Basis(p, i, s) * Basis(p, i, t)
  {
    if s == [] {
      assert s + t == t;
    } else {
      assert (s + t)[1..] == s[1..] + t;
      BasisAppend(p, i, s[1..], t);
      Associate(Ratio(p, i, s[0]), Basis(p, i, s[1..]), Basis(p, i, t));
    }
  }

  /** Any `u32`: what the code can be handed. */
  predicate Words(s: seq<int>) {
    forall k :: 0 <= k < |s| ==> 0 <= s[k] < TWO_32
  }

  /** `lagrange_basis_at_0`: the loop of the source, once it has asserted that i is
      positive. The unwrapped inverse always exists, for every list of 32-bit numbers.
      The result is the basis value, and zero when the list holds a zero. */
  method LagrangeBasisAt0(p: Modulus, i: int, indices: seq<int>) returns (acc: int)
    requires IsIndex(i) && Words(indices)
    ensures acc == if Indices(indices) then Basis(p, i, indices) % p else 0
  {
    hide Basis;
    acc := 1;
    BasisEmpty(p, i);
    var k := 0;
    while k < |indices|
      invariant 0 <= k <= |indices|
      invariant acc == if Indices(indices[..k]) then Basis(p, i, indices[..k]) % p else 0
    {
      var j := indices[k];
      ghost var was := acc;
      assert indices[..k + 1] == indices[..k] + [j];
      if j != i {
        IndexDifference(p, i, j);
        var denominator := (j - i) % p;
        CongMod(p, j - i);
        var inverse := Invert(p, denominator);
        acc := acc * j % p;
        acc := acc * inverse.value % p;
      }
      BasisLoop(p, i, indices[..k], j, was, acc);
      k := k + 1;
    }
    assert indices[..|indices|] == indices;
  }

  lemma BasisEmpty(p: Modulus, i: int)
    requires IsIndex(i)
    ensures forall s: seq<int> :: Basis(p, i, s[..0]) % p == 1
  {
    ModUnique(p, 1, 0, 1);
  }

  /** One iteration, from the value for the list before j to the value with j. */
  lemma BasisLoop(p: Modulus, i: int, before: seq<int>, j: int, was: int, acc: int)
    requires IsIndex(i) && Words(before) && 0 <= j < TWO_32
    requires was == if Indices(before) then Basis(p, i, before) % p else 0
    requires j == i ==> acc == was
    requires j != i ==> (j - i) % p % p != 0 && acc == was * j % p * Inv(p, (j - i) % p) % p
    ensures acc == if Indices(before + [j]) then Basis(p, i, before + [j]) % p else 0
  {
    hide Basis;
    assert Indices(before + [j]) <==> Indices(before) && j != 0 by {
      assert (before + [j])[|before|] == j;
      assert forall k :: 0 <= k < |before| ==> (before + [j])[k] == before[k];
    }
    if Indices(before + [j]) {
      BasisAppend(p, i, before, [j]);
      BasisSingle(p, i, j);
      if j != i {
        LoopStep(p, was, Basis(p, i, before), i, j);
      }
    } else {
      ZeroStays(p, was, j, if j != i then Inv(p, (j - i) % p) else 0);
    }
  }

  lemma BasisSingle(p: Modulus, i: int, j: int)
    requires IsIndex(i) && IsIndex(j)
    ensures Basis(p, i, [j]) == Ratio(p, i, j)
  {
    assert [j][1..] == [];
  }

  lemma ZeroStays(p: Modulus, was: int, j: int, inverse: int)
    requires was == 0 || j == 0
    ensures was * j % p * inverse % p == 0
  {
    assert was * j == 0;
    ModUnique(p, 0, 0, 0);
  }

  lemma LoopStep(p: Modulus, acc: int, before: int, i: int, j: int)
    requires IsIndex(i) && IsIndex(j) && i != j
    requires acc == before % p
    ensures (j - i) % p % p != 0
    ensures (acc * j % p) * Inv(p, (j - i) % p) % p == before * Ratio(p, i, j) % p
  {
    IndexDifference(p, i, j);
    CongMod(p, j - i);
    var u, v := Inv(p, (j - i) % p), Inv(p, j - i);
    CongScale(p, (j - i) % p, j - i, u);
    ModUnique(p, 1, 0, 1);
    Cancel(p, j - i, u, v);
    CongSmall(p, u, v);
    CongMod(p, before);
    CongScale(p, acc, before, j);
    CongMod(p, acc * j);
    CongScale(p, acc * j % p, before * j, v);
    assert before * j * v == before * (j * v);
  }

  // ---------- interpolation ----------

  /** The sum, over the members q of s, of L_q(0) * f(q). */
  function Weighted(p: Modulus, q: seq<int>, s: seq<int>, c: seq<int>): int
    requires Indices(q) && Indices(s)
  {
    if q == [] then 0
    else Basis(p, q[0], s) * Horner(c, q[0]) + Weighted(p, q[1..], s, c)
  }

  lemma RatioCancels(p: Modulus, i: int, a: int)
    requires IsIndex(i) && IsIndex(a) && i != a
    ensures Cong(p, Ratio(p, i, a) * (i - a), -a)
  {
    IndexDifference(p, i, a);
    var v := Inv(p, a - i);
    ModUnique(p, 1, 0, 1);
    CongScale(p, (a - i) * v, 1, -a);
    assert a * v * (i - a) == (a - i) * v * -a;
  }

  lemma Expand(k: int, b: int, f: int, d: int, g: int)
    ensures (k * b) * (f + d * g) == f * (k * b) + k * d * (b * g)
  {
    Distribute(f, d * g, k * b);
    Associate(k * d, b, g);
    Associate(k * b, d, g);
    assert k * d * b == k * b * d by { Associate(k, d, b); Associate(k, b, d); }
  }

  lemma SplitTerm(p: Modulus, i: int, a: int, r: seq<int>, c: seq<int>)
    requires IsIndex(i) && IsIndex(a) && i != a && Indices(r)
    ensures Indices([a] + r)
    ensures Cong(p, Basis(p, i, [a] + r) * Horner(c, i),
                 Horner(c, a) * Basis(p, i, [a] + r) - a * (Basis(p, i, r) * Horner(Quotient(c, a), i)))
  {
    assert ([a] + r)[1..] == r;
    var k, b, fa, g := Ratio(p, i, a), Basis(p, i, r), Horner(c, a), Horner(Quotient(c, a), i);
    QuotientEval(c, a, i);
    RatioCancels(p, i, a);
    CongScale(p, k * (i - a), -a, b * g);
    CongAdd(p, fa * (k * b), fa * (k * b), k * (i - a) * (b * g), -a * (b * g));
    Expand(k, b, fa, i - a, g);
  }

  lemma SumStep(f: int, b: int, w: int, a: int, u: int, v: int)
    ensures f * b - a * u + (f * w - a * v) == f * (b * 1 + w) - a * (u + v)
  {
    Distribute(b, w, f);
    Distribute(u, v, a);
  }

  lemma {:induction false} SplitSum(p: Modulus, q: seq<int>, a: int, r: seq<int>, c: seq<int>)
    requires Indices(q) && IsIndex(a) && Indices(r) && a !in q
    ensures Indices([a] + r)
    ensures Cong(p, Weighted(p, q, [a] + r, c),
                 Horner(c, a) * Weighted(p, q, [a] + r, [1]) - a * Weighted(p, q, r, Quotient(c, a)))
  {
    if q != [] {
      var i, s, g, fa := q[0], [a] + r, Quotient(c, a), Horner(c, a);
      SplitTerm(p, i, a, r, c);
      SplitSum(p, q[1..], a, r, c);
      var b, b' := Basis(p, i, s), Basis(p, i, r);
      var w1, wg := Weighted(p, q[1..], s, [1]), Weighted(p, q[1..], r, g);
      CongAdd(p, b * Horner(c, i), fa * b - a * (b' * Horner(g, i)),
              Weighted(p, q[1..], s, c), fa * w1 - a * wg);
      SmallHorner(a, i);
      SumStep(fa, b, w1, a, b' * Horner(g, i), wg);
    }
  }

  /** Pulling one index out of the list: f(x) = f(a) + (x - a) g(x). */
  lemma Split(p: Modulus, a: int, r: seq<int>, c: seq<int>)
    requires IsIndex(a) && Indices(r) && a !in r
    ensures Indices([a] + r)
    ensures Cong(p, Weighted(p, [a] + r, [a] + r, c),
                 Horner(c, a) * Weighted(p, [a] + r, [a] + r, [1]) - a * Weighted(p, r, r, Quotient(c, a)))
  {
    var s, fa := [a] + r, Horner(c, a);
    assert s[1..] == r;
    SplitSum(p, r, a, r, c);
    var b, w1, wg := Basis(p, a, s), Weighted(p, r, s, [1]), Weighted(p, r, r, Quotient(c, a));
    CongAdd(p, b * fa, b * fa, Weighted(p, r, s, c), fa * w1 - a * wg);
    SmallHorner(a, a);
    assert fa * (b + w1) == fa * b + fa * w1;
  }

  lemma {:induction false} SwapWeighted(p: Modulus, q: seq<int>, a: int, b: int, t: seq<int>, c: seq<int>)
    requires Indices(q) && IsIndex(a) && IsIndex(b) && Indices(t)
    ensures Indices([a, b] + t) && Indices([b, a] + t)
    ensures Weighted(p, q, [a, b] + t, c) == Weighted(p, q, [b, a] + t, c)
  {
    if q != [] {
      SwapWeighted(p, q[1..], a, b, t, c);
      BasisPair(p, q[0], a, b, t);
      BasisPair(p, q[0], b, a, t);
    }
  }

  lemma BasisPair(p: Modulus, i: int, a: int, b: int, t: seq<int>)
    requires IsIndex(i) && IsIndex(a) && IsIndex(b) && Indices(t)
    ensures Indices([a, b] + t)
    ensures Basis(p, i, [a, b] + t) == Ratio(p, i, a) * Ratio(p, i, b) * Basis(p, i, t)
  {
    assert ([a, b] + t)[1..] == [b] + t;
    assert ([b] + t)[1..] == t;
    var x, y, z := Ratio(p, i, a), Ratio(p, i, b), Basis(p, i, t);
    assert x * (y * z) == x * y * z;
  }

  /** The first two members of the list may change places. */
  lemma Swap(p: Modulus, a: int, b: int, t: seq<int>, c: seq<int>)
    requires IsIndex(a) && IsIndex(b) && Indices(t)
    ensures Indices([a, b] + t) && Indices([b, a] + t)
    ensures Weighted(p, [a, b] + t, [a, b] + t, c) == Weighted(p, [b, a] + t, [b, a] + t, c)
  {
    var s, s' := [a, b] + t, [b, a] + t;
    SwapWeighted(p, s', a, b, t, c);
    assert s[1..] == [b] + t && s'[1..] == [a] + t;
    assert ([b] + t)[1..] == t && ([a] + t)[1..] == t;
  }

  lemma SmallHorner(a: int, x: int)
    ensures Horner([1], x) == 1
    ensures Horner([-a, 1], x) == x - a
    ensures Quotient([-a, 1], a) == [1]
  {
    assert [1][1..] == [] && [-a, 1][1..] == [1];
    assert Horner([1], x) == 1 + x * Horner([], x);
    assert Horner([1], a) == 1 + a * Horner([], a);
  }

  lemma DifferenceStep(m: int, i: int, a: int, b: int, w: int)
    ensures m * (i - a) - m * (i - b) + (b - a) * w == (b - a) * (m * 1 + w)
  {
    Distribute(i - a, i - b, m);
    Distribute(m, w, b - a);
  }

  lemma {:induction false} WeightedDifference(p: Modulus, q: seq<int>, s: seq<int>, a: int, b: int)
    requires Indices(q) && Indices(s)
    ensures Weighted(p, q, s, [-a, 1]) - Weighted(p, q, s, [-b, 1]) == (b - a) * Weighted(p, q, s, [1])
  {
    if q != [] {
      var i, m := q[0], Basis(p, q[0], s);
      WeightedDifference(p, q[1..], s, a, b);
      SmallHorner(a, i);
      SmallHorner(b, i);
      DifferenceStep(m, i, a, b, Weighted(p, q[1..], s, [1]));
    }
  }

  /** x - a vanishes at a, so only the other members contribute. */
  lemma LinearWeighted(p: Modulus, a: int, r: seq<int>)
    requires IsIndex(a) && Indices(r) && a !in r
    requires Cong(p, Weighted(p, r, r, [1]), 1)
    ensures Indices([a] + r)
    ensures Cong(p, Weighted(p, [a] + r, [a] + r, [-a, 1]), -a)
  {
    Split(p, a, r, [-a, 1]);
    SmallHorner(a, a);
    var w := Weighted(p, r, r, [1]);
    CongScale(p, w, 1, -a);
    assert w * -a == -(a * w);
  }

  /** 1 is the difference of the lines x - a and x - b, divided by b - a. */
  lemma TwoLines(p: Modulus, s: seq<int>, a: int, b: int)
    requires Indices(s) && IsIndex(a) && IsIndex(b) && a != b
    requires Cong(p, Weighted(p, s, s, [-a, 1]), -a)
    requires Cong(p, Weighted(p, s, s, [-b, 1]), -b)
    ensures Cong(p, Weighted(p, s, s, [1]), 1)
  {
    WeightedDifference(p, s, s, a, b);
    CongAdd(p, Weighted(p, s, s, [-a, 1]), -a, Weighted(p, s, s, [-b, 1]), -b);
    IndexDifference(p, a, b);
    Cancel(p, b - a, Weighted(p, s, s, [1]), 1);
  }

  /** The basis values sum to one. */
  lemma {:induction false} BasisSumsToOne(p: Modulus, s: seq<int>)
    requires Indices(s) && Distinct(s) && s != []
    ensures Cong(p, Weighted(p, s, s, [1]), 1)
    decreases |s|
  {
    var a, r := s[0], s[1..];
    assert s == [a] + r;
    if r == [] {
      SmallHorner(a, a);
      assert Basis(p, a, s) == Ratio(p, a, a) * Basis(p, a, []);
    } else {
      var b, t := r[0], r[1..];
      var r' := [a] + t;
      assert s == [a, b] + t && r == [b] + t;
      assert forall k :: 0 < k < |r'| ==> r'[k] == s[k + 1];
      BasisSumsToOne(p, r);
      BasisSumsToOne(p, r');
      PairStep(p, a, b, t);
    }
  }

  lemma PairStep(p: Modulus, a: int, b: int, t: seq<int>)
    requires IsIndex(a) && IsIndex(b) && a != b && Indices(t) && a !in t && b !in t
    requires Indices([a] + t) && Indices([b] + t)
    requires Cong(p, Weighted(p, [a] + t, [a] + t, [1]), 1)
    requires Cong(p, Weighted(p, [b] + t, [b] + t, [1]), 1)
    ensures Indices([a, b] + t)
    ensures Cong(p, Weighted(p, [a, b] + t, [a, b] + t, [1]), 1)
  {
    assert [a, b] + t == [a] + ([b] + t);
    assert [b, a] + t == [b] + ([a] + t);
    LinearWeighted(p, a, [b] + t);
    LinearWeighted(p, b, [a] + t);
    Swap(p, a, b, t, [-b, 1]);
    TwoLines(p, [a, b] + t, a, b);
  }

  /** Interpolation: any list of distinct indices at least as long as the
      coefficient list recovers the constant term, whatever the order. */
  lemma {:induction false} Interpolation(p: Modulus, s: seq<int>, c: seq<int>)
    requires Indices(s) && Distinct(s) && |c| <= |s|
    ensures Cong(p, Weighted(p, s, s, c), Horner(c, 0))
    decreases |s|
  {
    if s == [] {
      assert c == [];
    } else {
      hide Weighted;
      hide Quotient;
      var a, r := s[0], s[1..];
      assert s == [a] + r;
      var g := Quotient(c, a);
      Split(p, a, r, c);
      BasisSumsToOne(p, s);
      Interpolation(p, r, g);
      QuotientEval(c, a, 0);
      Assemble(p, Weighted(p, s, s, c), Horner(c, a), Weighted(p, s, s, [1]), a, Weighted(p, r, r, g), Horner(g, 0));
    }
  }

  lemma Assemble(p: Modulus, w: int, fa: int, one: int, a: int, wg: int, g0: int)
    requires Cong(p, w, fa * one - a * wg) && Cong(p, one, 1) && Cong(p, wg, g0)
    ensures Cong(p, w, fa + (0 - a) * g0)
  {
    hide Cong;
    CongScale(p, one, 1, fa);
    CongScale(p, wg, g0, a);
    CongAdd(p, fa * one, fa, a * wg, a * g0);
    CongTrans(p, w, fa * one - a * wg, fa - a * g0);
  }

  // ---------- repeated indices ----------

  /** The coefficients of (x - d) * c. */
  function TimesLine(c: seq<int>, d: int): (e: seq<int>)
    ensures |e| == |c| + 1
  {
    if c == [] then [0]
    else
      var e := TimesLine(c[1..], d);
      [0 - d * c[0], c[0] + e[0]] + e[1..]
  }

  lemma {:induction false} TimesLineEval(c: seq<int>, d: int, x: int)
    ensures Horner(TimesLine(c, d), x) == (x - d) * Horner(c, x)
  {
    var e := TimesLine(c, d);
    if c == [] {
      assert e[1..] == [];
      assert Horner(e, x) == e[0] + x * Horner(e[1..], x);
    } else {
      var e', h := TimesLine(c[1..], d), Horner(c[1..], x);
      TimesLineEval(c[1..], d, x);
      assert e[1..] == [c[0] + e'[0]] + e'[1..];
      assert e[1..][1..] == e'[1..];
      assert Horner(e[1..], x) == c[0] + Horner(e', x);
      LineStep(c[0], d, x, h);
    }
  }

  lemma LineStep(c: int, d: int, x: int, h: int)
    ensures 0 - d * c + x * (c + (x - d) * h) == (x - d) * (c + x * h)
  {
    Associate(x, x - d, h);
    Associate(x - d, x, h);
    Distribute(c, (x - d) * h, x);
    Distribute(c, x * h, x - d);
    Distribute(x, d, c);
  }

  /** The polynomial that vanishes on the list: the product of x - s_k. */
  function Vanishing(s: seq<int>): (c: seq<int>)
    ensures |c| == |s| + 1
  {
    if s == [] then [1] else TimesLine(Vanishing(s[1..]), s[0])
  }

  lemma {:induction false} VanishingEval(p: Modulus, s: seq<int>, x: int)
    requires Indices(s)
    ensures x in s ==> Horner(Vanishing(s), x) == 0
    ensures Horner(Vanishing(s), 0) % p != 0
  {
    if s == [] {
      SmallHorner(0, 0);
      ModUnique(p, 1, 0, 1);
    } else {
      var v := Vanishing(s[1..]);
      VanishingEval(p, s[1..], x);
      TimesLineEval(v, s[0], x);
      TimesLineEval(v, s[0], 0);
      IndexDifference(p, s[0], 0);
      NonzeroProduct(p, 0 - s[0], Horner(v, 0));
      assert x in s && x != s[0] ==> x in s[1..];
    }
  }

  lemma {:induction false} WeightedZero(p: Modulus, q: seq<int>, s: seq<int>, c: seq<int>)
    requires Indices(q) && Indices(s)
    requires forall i :: i in q ==> Horner(c, i) == 0
    ensures Weighted(p, q, s, c) == 0
  {
    if q != [] {
      WeightedZero(p, q[1..], s, c);
    }
  }

  /** The list recovers the constant term of every polynomial of its own length. */
  ghost predicate Recovers(p: Modulus, s: seq<int>)
    requires Indices(s)
  {
    forall c: seq<int> :: |c| == |s| ==> Cong(p, Weighted(p, s, s, c), Horner(c, 0))
  }

  /** Distinctness is exactly what interpolation needs: a list with a repeated
      index misses the constant term of some polynomial. */
  lemma InterpolationExact(p: Modulus, s: seq<int>)
    requires Indices(s)
    ensures Recovers(p, s) <==> Distinct(s)
  {
    if Distinct(s) {
      forall c: seq<int> | |c| == |s|
        ensures Cong(p, Weighted(p, s, s, c), Horner(c, 0))
      {
        Interpolation(p, s, c);
      }
    } else {
      var c := MissedPolynomial(p, s);
      assert !Cong(p, Weighted(p, s, s, c), Horner(c, 0));
    }
  }

  lemma SpareMember(s: seq<int>, j: nat, k: nat, i: int)
    requires j < k < |s| && s[j] == s[k] && i in s
    ensures i in s[..k] + s[k + 1..]
  {
    var d := s[..k] + s[k + 1..];
    var m :| 0 <= m < |s| && s[m] == i;
    assert if m < k then d[m] == i else if m == k then d[j] == i else d[m - 1] == i;
  }

  lemma MissedPolynomial(p: Modulus, s: seq<int>) returns (c: seq<int>)
    requires Indices(s) && !Distinct(s)
    ensures |c| == |s| && !Cong(p, Weighted(p, s, s, c), Horner(c, 0))
  {
    var j, k :| 0 <= j < k < |s| && s[j] == s[k];
    var d := s[..k] + s[k + 1..];
    c := Vanishing(d);
    forall i | i in s
      ensures Horner(c, i) == 0
    {
      SpareMember(s, j, k, i);
      VanishingEval(p, d, i);
    }
    WeightedZero(p, s, s, c);
    VanishingEval(p, d, 0);
    ModUnique(p, 0, 0, 0);
  }
}
