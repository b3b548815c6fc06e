/** Sums over hash maps. A hash map is iterated in an arbitrary order, so a fold
    over one is specified by a sum that no order can change.
 */
module Sums {
  import opened Field
  import opened Polynomial

  /** The sum of the values of a map. */
  ghost function Sum(m: map<nat, int>): int {
    if m == map[] then 0
    else
      var k :| k in m;
      m[k] + Sum(m - {k})
  }

  /** Any key may be taken first: the sum does not depend on the order. */
  lemma {:induction false} SumRemove(m: map<nat, int>, k: nat)
    requires k in m
    ensures Sum(m) == m[k] + Sum(m - {k})
    decreases |m|
  {
    var j :| j in m && Sum(m) == m[j] + Sum(m - {j});
    if j != k {
      assert |m - {j}| < |m| && |m - {k}| < |m| by {
        assert (m - {j}).Keys == m.Keys - {j} && (m - {k}).Keys == m.Keys - {k};
      }
      SumRemove(m - {j}, k);
      SumRemove(m - {k}, j);
      assert m - {j} - {k} == m - {k} - {j};
    }
  }

  /** The same keys, congruent values. */
  lemma {:induction false} SumCong(p: nat, m: map<nat, int>, n: map<nat, int>)
    requires p > 0 && m.Keys == n.Keys
    requires forall k :: k in m ==> Cong(p, m[k], n[k])
    ensures Cong(p, Sum(m), Sum(n))
    decreases |m|
  {
    if m == map[] {
      assert n == map[];
    } else {
      var k :| k in m;
      SumRemove(m, k);
      SumRemove(n, k);
      var m', n' := m - {k}, n - {k};
      assert m'.Keys == m.Keys - {k} && n'.Keys == m'.Keys;
      forall j | j in m'
        ensures Cong(p, m'[j], n'[j])
      {
        assert m'[j] == m[j] && n'[j] == n[j];
      }
      SumCong(p, m', n');
      CongAdd(p, m[k], n[k], Sum(m'), Sum(n'));
    }
  }

  // ---------- enumerations ----------

  ghost predicate Enumerates(s: seq<nat>, keys: set<nat>) {
    Distinct(s) && forall k :: k in s <==> k in keys
  }

  /** Some order of a set: what one iteration over a hash map may yield. */
  ghost function Enumerate(keys: set<nat>): (s: seq<nat>)
    ensures Enumerates(s, keys) && |s| == |keys|
  {
    if keys == {} then []
    else
      var k :| k in keys;
      [k] + Enumerate(keys - {k})
  }

  lemma EnumerationTail(s: seq<nat>, keys: set<nat>)
    requires Enumerates(s, keys) && s != []
    ensures s[0] in keys && Enumerates(s[1..], keys - {s[0]})
  {
    assert s == [s[0]] + s[1..];
    assert forall j :: 0 <= j < |s[1..]| ==> s[1..][j] == s[j + 1];
  }

  lemma {:induction false} EnumerationLength(s: seq<nat>, keys: set<nat>)
    requires Enumerates(s, keys)
    ensures |s| == |keys|
  {
    if s == [] {
      assert keys == {};
    } else {
      var k := s[0];
      EnumerationTail(s, keys);
      EnumerationLength(s[1..], keys - {k});
    }
  }

  ghost function SeqSum(s: seq<nat>, m: map<nat, int>): int
    requires forall k :: k in s ==> k in m
  {
    if s == [] then 0 else m[s[0]] + SeqSum(s[1..], m)
  }

  lemma EnumerationMembers(s: seq<nat>, keys: set<nat>)
    requires Enumerates(s, keys)
    ensures forall k :: k in s <==> k in keys
  {
  }

  lemma {:induction false} SeqSumRestrict(s: seq<nat>, m: map<nat, int>, k: nat)
    requires forall x :: x in s ==> x in m
    requires k !in s
    ensures SeqSum(s, m) == SeqSum(s, m - {k})
  {
    if s != [] {
      SeqSumRestrict(s[1..], m, k);
    }
  }

  /** Folding along any iteration order gives the sum. */
  lemma {:induction false} SumAlong(s: seq<nat>, m: map<nat, int>)
    requires Enumerates(s, m.Keys)
    ensures SeqSum(s, m) == Sum(m)
    decreases |s|
  {
    if s == [] {
      assert m == map[];
    } else {
      hide Sum;
      hide Enumerates;
      var k, t := s[0], s[1..];
      EnumerationTail(s, m.Keys);
      EnumerationMembers(t, m.Keys - {k});
      assert (m - {k}).Keys == m.Keys - {k};
      SumRemove(m, k);
      SumAlong(t, m - {k});
      SeqSumRestrict(t, m, k);
    }
  }

  // ---------- Lagrange over a set of indices ----------

  ghost predicate IndexSet(keys: set<nat>) {
    forall k :: k in keys ==> IsIndex(k)
  }

  lemma {:induction false} BasisRemove(p: Modulus, i: nat, s: seq<nat>, k: nat)
    requires IsIndex(i) && Indices(s) && k < |s|
    ensures Indices(s[..k] + s[k + 1..])
    ensures Basis(p, i, s) == Ratio(p, i, s[k]) * Basis(p, i, s[..k] + s[k + 1..])
  {
    var u, v, j := s[..k], s[k + 1..], s[k];
    assert s == u + ([j] + v);
    BasisAppend(p, i, u, [j] + v);
    BasisAppend(p, i, u, v);
    assert ([j] + v)[1..] == v;
    var x, y, z := Basis(p, i, u), Ratio(p, i, j), Basis(p, i, v);
    Associate(x, y, z);
    Associate(y, x, z);
  }

  lemma RemoveCommon(s: seq<nat>, t: seq<nat>, k: nat)
    requires s != [] && multiset(s) == multiset(t) && k < |t| && t[k] == s[0]
    ensures multiset(s[1..]) == multiset(t[..k] + t[k + 1..])
  {
    assert s == [s[0]] + s[1..];
    assert t == t[..k] + [t[k]] + t[k + 1..];
    assert multiset(s) == multiset([s[0]]) + multiset(s[1..]);
    assert multiset(t) == multiset([s[0]]) + multiset(t[..k] + t[k + 1..]);
    assert multiset(s[1..]) == multiset(s) - multiset([s[0]]);
  }

  /** The basis value is the same for every order of the indices. */
  lemma {:induction false} BasisAnyOrder(p: Modulus, i: nat, s: seq<nat>, t: seq<nat>)
    requires IsIndex(i) && Indices(s) && Indices(t) && multiset(s) == multiset(t)
    ensures Basis(p, i, s) == Basis(p, i, t)
    decreases |s|
  {
    if s == [] {
      assert |multiset(t)| == 0;
    } else {
      hide Ratio;
      assert s[0] in multiset(s);
      var k :| 0 <= k < |t| && t[k] == s[0];
      RemoveCommon(s, t, k);
      BasisRemove(p, i, t, k);
      BasisAnyOrder(p, i, s[1..], t[..k] + t[k + 1..]);
    }
  }

  lemma EnumerationsAgree(s: seq<nat>, t: seq<nat>, keys: set<nat>)
    requires Enumerates(s, keys) && Enumerates(t, keys)
    ensures multiset(s) == multiset(t)
  {
    DistinctOnce(s);
    DistinctOnce(t);
  }

  lemma {:induction false} DistinctOnce(s: seq<nat>)
    requires Distinct(s)
    ensures forall x :: multiset(s)[x] == if x in s then 1 else 0
  {
    if s != [] {
      assert forall j :: 0 <= j < |s[1..]| ==> s[1..][j] == s[j + 1];
      DistinctOnce(s[1..]);
      assert s == [s[0]] + s[1..];
    }
  }

  /** L_i(0) over a set of indices. */
  ghost function Lagrange(p: Modulus, i: nat, keys: set<nat>): (r: int)
    requires IsIndex(i) && IndexSet(keys)
    ensures 0 <= r < p
  {
    Basis(p, i, Enumerate(keys)) % p
  }

  lemma LagrangeAlong(p: Modulus, i: nat, s: seq<nat>, keys: set<nat>)
    requires IsIndex(i) && IndexSet(keys) && Enumerates(s, keys)
    ensures Indices(s) && Basis(p, i, s) % p == Lagrange(p, i, keys)
  {
    EnumerationsAgree(s, Enumerate(keys), keys);
    BasisAnyOrder(p, i, s, Enumerate(keys));
  }

  /** Each share times its basis value. */
  ghost function Additive(p: Modulus, shares: map<nat, int>): (m: map<nat, int>)
    requires IndexSet(shares.Keys)
    ensures m.Keys == shares.Keys
  {
    map i | i in shares :: Lagrange(p, i, shares.Keys) * shares[i]
  }

  ghost predicate OnPolynomial(p: Modulus, shares: map<nat, int>, c: seq<int>) {
    forall i :: i in shares ==> Cong(p, shares[i], Horner(c, i))
  }

  lemma {:induction false} WeightedAlong(p: Modulus, q: seq<nat>, s: seq<nat>, shares: map<nat, int>, c: seq<int>)
    requires IndexSet(shares.Keys) && Enumerates(s, shares.Keys) && OnPolynomial(p, shares, c)
    requires forall k :: k in q ==> k in shares
    ensures Indices(q) && Indices(s)
    ensures Cong(p, SeqSum(q, Additive(p, shares)), Weighted(p, q, s, c))
  {
    if q != [] {
      hide Basis;
      hide Horner;
      hide Lagrange;
      var i := q[0];
      WeightedAlong(p, q[1..], s, shares, c);
      AdditiveTerm(p, i, s, shares, c);
      CongAdd(p, Additive(p, shares)[i], Basis(p, i, s) * Horner(c, i),
              SeqSum(q[1..], Additive(p, shares)), Weighted(p, q[1..], s, c));
    }
  }

  lemma AdditiveTerm(p: Modulus, i: nat, s: seq<nat>, shares: map<nat, int>, c: seq<int>)
    requires IndexSet(shares.Keys) && Enumerates(s, shares.Keys) && OnPolynomial(p, shares, c) && i in shares
    ensures Indices(s)
    ensures Cong(p, Additive(p, shares)[i], Basis(p, i, s) * Horner(c, i))
  {
    hide Basis;
    hide Horner;
    LagrangeAlong(p, i, s, shares.Keys);
    CongMod(p, Basis(p, i, s));
    CongMul(p, Lagrange(p, i, shares.Keys), Basis(p, i, s), shares[i], Horner(c, i));
  }

  /** Shares on one polynomial, at least as many as it has coefficients,
      add up to its constant term once weighted. */
  lemma Reconstruction(p: Modulus, shares: map<nat, int>, c: seq<int>)
    requires IndexSet(shares.Keys) && OnPolynomial(p, shares, c) && |c| <= |shares|
    ensures Cong(p, Sum(Additive(p, shares)), Horner(c, 0))
  {
    var s := Enumerate(shares.Keys);
    WeightedAlong(p, s, s, shares, c);
    SumAlong(s, Additive(p, shares));
    Interpolation(p, s, c);
  }
}
