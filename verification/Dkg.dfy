/** Distributed key generation (network/crates/cryptography/src/dkg.rs).

    RSA is a private channel: a ciphertext can be opened by its recipient alone.
    A Rust `assert!` that fails is the outcome Panic.
 */
module Dkg {
  import opened Field
  import opened Polynomial
  import opened Sums
  import opened Vss

  datatype Failure = RsaError | Other

  datatype Outcome<T> = Ok(value: T) | Err(reason: Failure) | Panic

  /** The members of a quorum; a member's RSA key is known by its id. */
  datatype Network = Network(threshold: nat, totalNodes: nat, publicKeys: set<nat>)

  datatype Node = Node(
    id: nat,
    initPubShare: int,
    privateShare: int,
    networkPubkey: int,
    ownPartialShare: int)

  datatype Cipher = Cipher(recipient: nat, plain: nat)

  /** What round 2 computes: the private share, its public key, the group key. */
  datatype Keys = Keys(share: int, pubShare: int, groupKey: int)

  /** `Network::new`: which parameters are let through. */
  predicate ValidSize(t: nat, n: nat, isTstar: bool) {
    if isTstar then t <= n && n >= 2 && t != 0 else t < n && n > 2 && t != 0
  }

  /** `Network::new`: a network without members, or an error. T* may have as few members
      as the threshold; a new quorum has more, and at least three. */
  function NewNetwork(t: nat, n: nat, isTstar: bool): (r: Outcome<Network>)
    ensures r.Ok? <==> 1 <= t && (if isTstar then t <= n && 2 <= n else t < n && 3 <= n)
    ensures r.Ok? ==> r.value.threshold == t && r.value.totalNodes == n && r.value.publicKeys == {}
    ensures !r.Ok? ==> r == Err(Other)
  {
    if ValidSize(t, n, isTstar) then Ok(Network(t, n, {})) else Err(Other)
  }

  // ---------- round 1 ----------

  /** The encrypted shares of the polynomial c for every other member. */
  function EncryptedShares(p: Modulus, c: seq<int>, keys: set<nat>): (y: map<nat, Cipher>)
    ensures y.Keys == keys
  {
    map k | k in keys :: Cipher(k, Eval(p, c, k))
  }

  /** `dkg_round_1` with the random polynomial c. */
  method DkgRound1(p: Modulus, node: Node, network: Network, c: seq<int>)
    returns (r: Outcome<(map<nat, Cipher>, seq<int>, int)>)
    requires |c| == network.threshold >= 1
    ensures r == if node.id in network.publicKeys
                 then Ok((EncryptedShares(p, c, network.publicKeys - {node.id}),
                          Commit(p, c, network.threshold), Eval(p, c, node.id)))
                 else Err(Other)
  {
    var y, v := FeldmanVss(p, c, network.publicKeys, network.threshold);
    var yct: map<nat, Cipher> := map[];
    var rest := network.publicKeys;
    while rest != {}
      invariant rest <= network.publicKeys
      invariant yct == EncryptedShares(p, c, network.publicKeys - {node.id} - rest)
      decreases |rest|
    {
      var key :| key in rest;
      if key != node.id {
        yct := yct[key := Cipher(key, y[key])];
      }
      rest := rest - {key};
    }
    assert network.publicKeys - {node.id} - {} == network.publicKeys - {node.id};
    if node.id !in y {
      return Err(Other);
    }
    return Ok((yct, v, y[node.id]));
  }

  // ---------- round 2 ----------

  /** The decrypted shares, as field elements. */
  function Plain(p: Modulus, inputY: map<nat, Cipher>): (y: map<nat, int>)
    ensures y.Keys == inputY.Keys
  {
    map k | k in inputY :: inputY[k].plain % p
  }

  predicate AllDecrypt(id: nat, inputY: map<nat, Cipher>) {
    forall k :: k in inputY ==> inputY[k].recipient == id
  }

  predicate AllVerify(p: Modulus, id: nat, y: map<nat, int>, inputV: map<nat, seq<int>>) {
    forall k :: k in y ==> k in inputV && Accepts(p, id, y[k], inputV[k])
  }

  /** Steps 8 and 9: decrypt every share, then check it against its dealer's commitments. */
  function Opened(p: Modulus, id: nat, inputY: map<nat, Cipher>, inputV: map<nat, seq<int>>): (r: Outcome<map<nat, int>>)
    ensures r.Ok? <==> AllDecrypt(id, inputY) && AllVerify(p, id, Plain(p, inputY), inputV)
  {
    if !AllDecrypt(id, inputY) then Err(RsaError)
    else if !AllVerify(p, id, Plain(p, inputY), inputV) then Err(Other)
    else Ok(Plain(p, inputY))
  }

  /** Step 8. */
  method DecryptShares(p: Modulus, id: nat, inputY: map<nat, Cipher>) returns (r: Outcome<map<nat, int>>)
    ensures r == if AllDecrypt(id, inputY) then Ok(Plain(p, inputY)) else Err(RsaError)
  {
    var y: map<nat, int> := map[];
    var rest := inputY.Keys;
    while rest != {}
      invariant rest <= inputY.Keys && y.Keys == inputY.Keys - rest
      invariant forall k :: k in y ==> inputY[k].recipient == id && y[k] == inputY[k].plain % p
      decreases |rest|
    {
      var key :| key in rest;
      if inputY[key].recipient != id {
        return Err(RsaError);
      }
      y := y[key := inputY[key].plain % p];
      rest := rest - {key};
    }
    assert y == Plain(p, inputY);
    return Ok(y);
  }

  /** Step 9. */
  method VerifyShares(p: Modulus, id: nat, y: map<nat, int>, inputV: map<nat, seq<int>>) returns (ok: bool)
    requires forall k :: k in inputV ==> inputV[k] != []
    ensures ok <==> AllVerify(p, id, y, inputV)
  {
    var rest := y.Keys;
    while rest != {}
      invariant rest <= y.Keys
      invariant forall k :: k in y && k !in rest ==> k in inputV && Accepts(p, id, y[k], inputV[k])
      decreases |rest|
    {
      var key :| key in rest;
      if key !in inputV {
        return false;
      }
      var accepted := VerifyVss(p, id, y[key], inputV[key]);
      if !accepted {
        return false;
      }
      rest := rest - {key};
    }
    return true;
  }

  method OpenShares(p: Modulus, id: nat, inputY: map<nat, Cipher>, inputV: map<nat, seq<int>>)
    returns (r: Outcome<map<nat, int>>)
    requires forall k :: k in inputV ==> inputV[k] != []
    ensures r == Opened(p, id, inputY, inputV)
  {
    r := DecryptShares(p, id, inputY);
    if r.Ok? {
      var verified := VerifyShares(p, id, r.value, inputV);
      if !verified {
        return Err(Other);
      }
    }
  }

  /** A fold over the values of a hash map, in whatever order it is iterated. */
  method FoldValues(p: Modulus, start: int, m: map<nat, int>) returns (acc: int)
    ensures acc == (start + Sum(m)) % p
  {
    acc := start % p;
    var rest := m;
    ghost var done := start;
    while rest != map[]
      invariant done + Sum(rest) == start + Sum(m)
      invariant acc == done % p
      decreases |rest|
    {
      assert rest.Keys != {};
      var key :| key in rest.Keys;
      SumRemove(rest, key);
      FoldStep(p, done, rest[key]);
      acc := (acc + rest[key]) % p;
      done := done + rest[key];
      assert (rest - {key}).Keys == rest.Keys - {key};
      rest := rest - {key};
    }
  }

  lemma FoldStep(p: Modulus, done: int, x: int)
    ensures (done % p + x) % p == (done + x) % p
  {
    CongMod(p, done);
    CongAdd(p, done % p, done, x, x);
  }

  /** The commitments to the constant terms. */
  function Constants(inputV: map<nat, seq<int>>): (m: map<nat, int>)
    requires forall k :: k in inputV ==> inputV[k] != []
    ensures m.Keys == inputV.Keys
  {
    map k | k in inputV :: inputV[k][0]
  }

  predicate WellSized(t: nat, n: nat, inputY: map<nat, Cipher>, inputV: map<nat, seq<int>>) {
    |inputV| == n && |inputY| == n && forall k :: k in inputV ==> |inputV[k]| == t
  }

  ghost function Round2(p: Modulus, node: Node, network: Network, inputY: map<nat, Cipher>, inputV: map<nat, seq<int>>): Outcome<Keys>
    requires network.threshold >= 1 && network.totalNodes >= 1
  {
    if !WellSized(network.threshold, network.totalNodes - 1, inputY, inputV) then Panic
    else
      match Opened(p, node.id, inputY, inputV)
      case Panic => Panic
      case Err(e) => Err(e)
      case Ok(y) =>
        var ki := (node.ownPartialShare + Sum(y)) % p;
        Ok(Keys(ki, ki, (node.initPubShare + Sum(Constants(inputV))) % p))
  }

  lemma Round2Accepts(p: Modulus, node: Node, network: Network, inputY: map<nat, Cipher>, inputV: map<nat, seq<int>>,
      share: int, groupKey: int)
    requires network.threshold >= 1 && network.totalNodes >= 1
    requires WellSized(network.threshold, network.totalNodes - 1, inputY, inputV)
    requires Opened(p, node.id, inputY, inputV) == Ok(Plain(p, inputY))
    requires share == (node.ownPartialShare + Sum(Plain(p, inputY))) % p
    requires groupKey == (node.initPubShare + Sum(Constants(inputV))) % p
    ensures Round2(p, node, network, inputY, inputV) == Ok(Keys(share, share, groupKey))
  {
  }

  /** `dkg_round_2`. */
  method DkgRound2(p: Modulus, node: Node, network: Network, inputY: map<nat, Cipher>, inputV: map<nat, seq<int>>)
    returns (r: Outcome<Keys>)
    requires network.threshold >= 1 && network.totalNodes >= 1
    ensures r == Round2(p, node, network, inputY, inputV)
  {
    hide Sum;
    hide AllDecrypt;
    hide AllVerify;
    if !WellSized(network.threshold, network.totalNodes - 1, inputY, inputV) {
      return Panic;
    }
    var shares := OpenShares(p, node.id, inputY, inputV);
    if shares.Err? {
      return Err(shares.reason);
    }
    var K := FoldValues(p, node.initPubShare, Constants(inputV));
    var ki := FoldValues(p, node.ownPartialShare, shares.value);
    return Ok(Keys(ki, ki, K));
  }

  // ---------- round 3 ----------

  ghost function Round3(p: Modulus, node: Node, network: Network, Kj: map<nat, int>): Outcome<int>
    requires IndexSet(network.publicKeys)
  {
    if |Kj| != network.totalNodes then Panic
    else if !(network.publicKeys <= Kj.Keys) then Err(Other)
    else
      var shares := map k | k in network.publicKeys :: Kj[k];
      var res := Sum(Additive(p, shares)) % p;
      if res == node.networkPubkey then Ok(res) else Panic
  }

  /** One iteration order of a hash map's keys. */
  method KeysInSomeOrder(keys: set<nat>) returns (s: seq<nat>)
    ensures Enumerates(s, keys)
  {
    s := [];
    var rest := keys;
    while rest != {}
      invariant rest <= keys && Enumerates(s, keys - rest)
      decreases |rest|
    {
      var key :| key in rest;
      s := s + [key];
      rest := rest - {key};
    }
  }

  /** Step 15: the Lagrange coefficient of every member. */
  method LagrangeCoefficients(p: Modulus, keys: set<nat>) returns (lambda: map<nat, int>)
    requires IndexSet(keys)
    ensures lambda.Keys == keys
    ensures forall k :: k in keys ==> lambda[k] == Lagrange(p, k, keys)
  {
    var indices := KeysInSomeOrder(keys);
    lambda := map[];
    var rest := keys;
    while rest != {}
      invariant rest <= keys && lambda.Keys == keys - rest
      invariant forall k :: k in lambda ==> lambda[k] == Lagrange(p, k, keys)
      decreases |rest|
    {
      var key :| key in rest;
      LagrangeAlong(p, key, indices, keys);
      var basis := LagrangeBasisAt0(p, key, indices);
      lambda := lambda[key := basis];
      rest := rest - {key};
    }
  }

  function Products(lambda: map<nat, int>, Kj: map<nat, int>): (m: map<nat, int>)
    requires lambda.Keys <= Kj.Keys
    ensures m.Keys == lambda.Keys
    ensures forall k :: k in m ==> m[k] == lambda[k] * Kj[k]
  {
    map k | k in lambda :: lambda[k] * Kj[k]
  }

  /** Step 16: the fold over the coefficients, which stops at a missing key. */
  method WeighKeys(lambda: map<nat, int>, Kj: map<nat, int>) returns (r: Outcome<map<nat, int>>)
    ensures r == if lambda.Keys <= Kj.Keys then Ok(Products(lambda, Kj)) else Err(Other)
  {
    var terms: map<nat, int> := map[];
    var rest := lambda.Keys;
    while rest != {}
      invariant rest <= lambda.Keys && terms.Keys == lambda.Keys - rest
      invariant forall k :: k in terms ==> k in Kj && terms[k] == lambda[k] * Kj[k]
      decreases |rest|
    {
      var key :| key in rest;
      if key !in Kj {
        return Err(Other);
      }
      terms := terms[key := lambda[key] * Kj[key]];
      rest := rest - {key};
    }
    assert terms == Products(lambda, Kj);
    return Ok(terms);
  }

  /** `dkg_round_3` and `resharing_round_3`, which compute the same. */
  method DkgRound3(p: Modulus, node: Node, network: Network, Kj: map<nat, int>) returns (r: Outcome<int>)
    requires IndexSet(network.publicKeys)
    ensures r == Round3(p, node, network, Kj)
  {
    hide Sum;
    hide Lagrange;
    if |Kj| != network.totalNodes {
      return Panic;
    }
    var lambda := LagrangeCoefficients(p, network.publicKeys);
    var terms := WeighKeys(lambda, Kj);
    if terms.Err? {
      return Err(terms.reason);
    }
    ghost var shares := map k | k in network.publicKeys :: Kj[k];
    assert terms.value == Additive(p, shares) by {
      assert shares.Keys == network.publicKeys;
    }
    var res := FoldValues(p, 0, terms.value);
    if res != node.networkPubkey {
      return Panic;
    }
    return Ok(res);
  }

  // ---------- the sum of all dealers' polynomials ----------

  /** The coefficientwise sum of polynomials with t coefficients. */
  ghost function SumPoly(polys: map<nat, seq<int>>, t: nat): (c: seq<int>)
    requires forall k :: k in polys ==> |polys[k]| == t
    ensures |c| == t
  {
    if polys == map[] then seq(t, _ => 0)
    else
      assert polys.Keys != {};
      var k :| k in polys.Keys;
      AddSameDegree(polys[k], SumPoly(polys - {k}, t))
  }

  ghost function Values(polys: map<nat, seq<int>>, x: int): (m: map<nat, int>)
    ensures m.Keys == polys.Keys
  {
    map k | k in polys :: Horner(polys[k], x)
  }

  lemma {:induction false} ZeroPoly(t: nat, x: int)
    ensures Horner(seq(t, _ => 0), x) == 0
  {
    if t > 0 {
      ZeroPoly(t - 1, x);
      assert seq(t, _ => 0)[1..] == seq(t - 1, _ => 0);
    }
  }

  lemma {:induction false} SumPolyEval(polys: map<nat, seq<int>>, t: nat, x: int)
    requires forall k :: k in polys ==> |polys[k]| == t
    ensures Horner(SumPoly(polys, t), x) == Sum(Values(polys, x))
    decreases |polys|
  {
    if polys == map[] {
      ZeroPoly(t, x);
      assert Values(polys, x) == map[];
    } else {
      assert polys.Keys != {};
      var k :| k in polys.Keys && SumPoly(polys, t) == AddSameDegree(polys[k], SumPoly(polys - {k}, t));
      assert (polys - {k}).Keys == polys.Keys - {k};
      SumPolyEval(polys - {k}, t, x);
      AddEval(polys[k], SumPoly(polys - {k}, t), x);
      SumRemove(Values(polys, x), k);
      assert Values(polys, x) - {k} == Values(polys - {k}, x);
    }
  }

  // ---------- a whole run with honest nodes ----------

  /** The polynomials picked in round 1, by dealer. */
  ghost predicate Dealt(polys: map<nat, seq<int>>, t: nat) {
    && t >= 1
    && IndexSet(polys.Keys)
    && (forall k :: k in polys ==> |polys[k]| == t)
    && (forall k :: k in polys ==> Power(k, t - 1) < TWO_128)
  }

  /** What node i has received after round 1: its share and the commitments from
      what every other dealer's round 1 sent out. */
  ghost function ReceivedY(p: Modulus, polys: map<nat, seq<int>>, i: nat): (y: map<nat, Cipher>)
    requires i in polys
    ensures y.Keys == polys.Keys - {i}
  {
    map j | j in polys.Keys - {i} :: EncryptedShares(p, polys[j], polys.Keys - {j})[i]
  }

  ghost function ReceivedV(p: Modulus, polys: map<nat, seq<int>>, i: nat): (v: map<nat, seq<int>>)
    ensures v.Keys == polys.Keys - {i}
  {
    map j | j in polys.Keys - {i} :: Commit(p, polys[j], |polys[j]|)
  }

  /** Node i once round 1 has stored its own share and commitment. */
  ghost predicate AfterRound1(p: Modulus, polys: map<nat, seq<int>>, t: nat, node: Node)
    requires Dealt(polys, t)
  {
    && node.id in polys
    && node.ownPartialShare == Eval(p, polys[node.id], node.id)
    && node.initPubShare == polys[node.id][0] % p
  }

  lemma OwnPlusOthers(p: Modulus, i: nat, own: int, others: map<nat, int>, all: map<nat, int>)
    requires i in all && others.Keys == all.Keys - {i}
    requires Cong(p, own, all[i]) && forall j :: j in others ==> Cong(p, others[j], all[j])
    ensures Cong(p, own + Sum(others), Sum(all))
  {
    SumRemove(all, i);
    assert (all - {i}).Keys == others.Keys;
    SumCong(p, others, all - {i});
    CongAdd(p, own, all[i], Sum(others), Sum(all - {i}));
  }

  lemma SharesSum(p: Modulus, polys: map<nat, seq<int>>, t: nat, i: nat)
    requires Dealt(polys, t) && i in polys
    ensures (Eval(p, polys[i], i) + Sum(Plain(p, ReceivedY(p, polys, i)))) % p == Eval(p, SumPoly(polys, t), i)
  {
    hide Sum;
    hide Horner;
    hide SumPoly;
    var others := Plain(p, ReceivedY(p, polys, i));
    forall j | j in polys
      ensures Cong(p, Eval(p, polys[j], i), Values(polys, i)[j])
      ensures j in others ==> Cong(p, others[j], Values(polys, i)[j])
    {
      EvalIsHorner(p, polys[j], i);
      CongMod(p, Horner(polys[j], i));
      CongMod(p, Eval(p, polys[j], i));
    }
    OwnPlusOthers(p, i, Eval(p, polys[i], i), others, Values(polys, i));
    SumPolyEval(polys, t, i);
    EvalIsHorner(p, SumPoly(polys, t), i);
  }

  lemma ConstantsSum(p: Modulus, polys: map<nat, seq<int>>, t: nat, i: nat)
    requires Dealt(polys, t) && i in polys
    ensures (polys[i][0] % p + Sum(Constants(ReceivedV(p, polys, i)))) % p == Eval(p, SumPoly(polys, t), 0)
  {
    hide Sum;
    hide SumPoly;
    var others := Constants(ReceivedV(p, polys, i));
    forall j | j in polys
      ensures Cong(p, polys[j][0] % p, Values(polys, 0)[j])
      ensures j in others ==> Cong(p, others[j], Values(polys, 0)[j])
    {
      EvalAtZero(p, polys[j]);
      CongMod(p, polys[j][0]);
    }
    OwnPlusOthers(p, i, polys[i][0] % p, others, Values(polys, 0));
    SumPolyEval(polys, t, 0);
    EvalIsHorner(p, SumPoly(polys, t), 0);
  }

  lemma HonestOpened(p: Modulus, polys: map<nat, seq<int>>, t: nat, i: nat)
    requires Dealt(polys, t) && i in polys
    ensures var y := ReceivedY(p, polys, i);
            Opened(p, i, y, ReceivedV(p, polys, i)) == Ok(Plain(p, y))
  {
    var y, v := ReceivedY(p, polys, i), ReceivedV(p, polys, i);
    forall j | j in y
      ensures Accepts(p, i, Plain(p, y)[j], v[j])
    {
      HonestShareAccepted(p, polys[j], i);
      var e := Eval(p, polys[j], i);
      ModUnique(p, e, 0, e);
    }
  }

  /** In an honest run round 2 accepts at every node: the share is F(i) and the
      group key F(0), for F the sum of all the dealers' polynomials. */
  lemma HonestRound2(p: Modulus, polys: map<nat, seq<int>>, t: nat, node: Node)
    requires Dealt(polys, t) && AfterRound1(p, polys, t, node)
    ensures var F, i := SumPoly(polys, t), node.id;
            Round2(p, node, Network(t, |polys|, polys.Keys), ReceivedY(p, polys, i), ReceivedV(p, polys, i))
            == Ok(Keys(Eval(p, F, i), Eval(p, F, i), Eval(p, F, 0)))
  {
    hide Eval;
    hide Sum;
    var F, i := SumPoly(polys, t), node.id;
    var y, v := ReceivedY(p, polys, i), ReceivedV(p, polys, i);
    assert |y.Keys| == |polys.Keys| - 1;
    HonestOpened(p, polys, t, i);
    SharesSum(p, polys, t, i);
    ConstantsSum(p, polys, t, i);
    Round2Accepts(p, node, Network(t, |polys|, polys.Keys), y, v, Eval(p, F, i), Eval(p, F, 0));
  }

  /** ... and round 3 accepts at every node when the threshold is at most the size. */
  lemma HonestRound3(p: Modulus, c: seq<int>, keys: set<nat>, node: Node, Kj: map<nat, int>)
    requires IndexSet(keys) && |c| <= |keys| && Kj.Keys == keys
    requires forall k :: k in Kj ==> Kj[k] == Eval(p, c, k)
    requires node.networkPubkey == Eval(p, c, 0)
    ensures Round3(p, node, Network(|c|, |keys|, keys), Kj) == Ok(Eval(p, c, 0))
  {
    assert (map k | k in keys :: Kj[k]) == Kj;
    forall k | k in Kj
      ensures Cong(p, Kj[k], Horner(c, k))
    {
      EvalIsHorner(p, c, k);
      CongMod(p, Horner(c, k));
    }
    Reconstruction(p, Kj, c);
    EvalIsHorner(p, c, 0);
  }

  /** DKG end to end: every node ends with the same group key F(0), its share lies
      on F, and the check of round 3 passes, for every choice of polynomials. */
  lemma DkgEndToEnd(p: Modulus, polys: map<nat, seq<int>>, t: nat, node: Node)
    requires Dealt(polys, t) && t <= |polys| && AfterRound1(p, polys, t, node)
    ensures var F, network, i := SumPoly(polys, t), Network(t, |polys|, polys.Keys), node.id;
            var r := Round2(p, node, network, ReceivedY(p, polys, i), ReceivedV(p, polys, i));
            && r == Ok(Keys(Eval(p, F, i), Eval(p, F, i), Eval(p, F, 0)))
            && Round3(p, node.(privateShare := r.value.share, networkPubkey := r.value.groupKey), network,
                      map k | k in polys.Keys :: Eval(p, F, k)) == Ok(Eval(p, F, 0))
  {
    var F := SumPoly(polys, t);
    HonestRound2(p, polys, t, node);
    var after := node.(privateShare := Eval(p, F, node.id), networkPubkey := Eval(p, F, 0));
    HonestRound3(p, F, polys.Keys, after, map k | k in polys.Keys :: Eval(p, F, k));
  }
}
