/** Resharing the group secret to a new quorum (network/crates/cryptography/src/resharing.rs),
    and what acceptance says about dealers that may send anything.
 */
module Resharing {
  import opened Field
  import opened Polynomial
  import opened Sums
  import opened Vss
  import opened Dkg

  // ---------- the rounds ----------

  /** Steps 1-3: the dealer's polynomial hides its share times its Lagrange
      coefficient; the other coefficients are random. */
  ghost function DealerPoly(p: Modulus, id: nat, share: int, tstar: set<nat>, random: seq<int>): (c: seq<int>)
    requires random != [] && IsIndex(id) && IndexSet(tstar)
    ensures |c| == |random| && c[1..] == random[1..]
  {
    [share * Lagrange(p, id, tstar) % p] + random[1..]
  }

  /** `resharing_round_1`. */
  method ResharingRound1(p: Modulus, node: Node, tstar: Network, quorum: Network, random: seq<int>)
    returns (y: map<nat, Cipher>, v: seq<int>)
    requires IsIndex(node.id) && IndexSet(tstar.publicKeys)
    requires |random| == quorum.threshold >= 1
    ensures var c := DealerPoly(p, node.id, node.privateShare, tstar.publicKeys, random);
            y == EncryptedShares(p, c, quorum.publicKeys) && v == Commit(p, c, quorum.threshold)
  {
    var indices := KeysInSomeOrder(tstar.publicKeys);
    LagrangeAlong(p, node.id, indices, tstar.publicKeys);
    var lambda := LagrangeBasisAt0(p, node.id, indices);
    var c := [node.privateShare * lambda % p] + random[1..];
    var shares;
    shares, v := FeldmanVss(p, c, quorum.publicKeys, quorum.threshold);
    y := map[];
    var rest := quorum.publicKeys;
    while rest != {}
      invariant rest <= quorum.publicKeys
      invariant y == EncryptedShares(p, c, quorum.publicKeys - rest)
      decreases |rest|
    {
      var key :| key in rest;
      y := y[key := Cipher(key, shares[key])];
      rest := rest - {key};
    }
    assert quorum.publicKeys - {} == quorum.publicKeys;
  }

  ghost function Round2(p: Modulus, id: nat, tstarSize: nat, t: nat, inputY: map<nat, Cipher>, inputV: map<nat,
      seq<int>>, groupKey: int): Outcome<Keys>
    requires t >= 1
  {
    if !WellSized(t, tstarSize, inputY, inputV) then Panic
    else
      match Opened(p, id, inputY, inputV)
      case Panic => Panic
      case Err(e) => Err(e)
      case Ok(y) =>
        var K := Sum(Constants(inputV)) % p;
        if K != groupKey then Err(Other) else Ok(Keys(Sum(y) % p, Sum(y) % p, K))
  }

  /** `resharing_round_2`. */
  method ResharingRound2(p: Modulus, node: Node, tstar: Network, quorum: Network, inputY: map<nat, Cipher>,
      inputV: map<nat, seq<int>>, groupKey: int)
    returns (r: Outcome<Keys>)
    requires quorum.threshold >= 1
    ensures r == Round2(p, node.id, tstar.totalNodes, quorum.threshold, inputY, inputV, groupKey)
  {
    hide Sum;
    hide AllDecrypt;
    hide AllVerify;
    if !WellSized(quorum.threshold, tstar.totalNodes, inputY, inputV) {
      return Panic;
    }
    var shares := OpenShares(p, node.id, inputY, inputV);
    if shares.Err? {
      return Err(shares.reason);
    }
    var K := FoldValues(p, 0, Constants(inputV));
    if K != groupKey {
      return Err(Other);
    }
    var ki := FoldValues(p, 0, shares.value);
    return Ok(Keys(ki, ki, K));
  }

  // ---------- soundness for arbitrary dealers ----------

  lemma {:induction false} SameSizeSubset(a: set<nat>, b: set<nat>)
    requires a <= b && |a| == |b|
    ensures a == b
  {
    if a != b {
      var x :| x in b && x !in a;
      SubsetSize(a, b - {x});
      assert false;
    }
  }

  lemma {:induction false} SubsetSize(a: set<nat>, b: set<nat>)
    requires a <= b
    ensures |a| <= |b|
  {
    if a != {} {
      var x :| x in a;
      SubsetSize(a - {x}, b - {x});
    }
  }

  /** Acceptance pins the dealers down: the shares and the commitments that were
      used have the same dealers, and each share is an evaluation of its commitment. */
  lemma AcceptedInputs(p: Modulus, id: nat, n: nat, t: nat, inputY: map<nat, Cipher>, inputV: map<nat, seq<int>>, groupKey: int)
    requires t >= 1 && Power(id, t - 1) < TWO_128
    requires Round2(p, id, n, t, inputY, inputV, groupKey).Ok?
    ensures WellSized(t, n, inputY, inputV) && inputY.Keys == inputV.Keys
    ensures forall k :: k in inputV ==> Cong(p, Plain(p, inputY)[k], Values(inputV, id)[k])
  {
    hide Sum;
    hide Accepts;
    hide Cong;
    hide Horner;
    assert |inputY.Keys| == |inputV.Keys|;
    SameSizeSubset(inputY.Keys, inputV.Keys);
    forall k | k in inputV
      ensures Cong(p, Plain(p, inputY)[k], Values(inputV, id)[k])
    {
      AcceptsMeans(p, id, Plain(p, inputY)[k], inputV[k]);
    }
  }

  /** Soundness: whatever the dealers sent, and however few they were, an accepted
      share lies on the one polynomial their commitments define, and that
      polynomial's constant term is the old group key's logarithm. */
  lemma ResharingSound(p: Modulus, id: nat, n: nat, t: nat, inputY: map<nat, Cipher>, inputV: map<nat, seq<int>>, groupKey: int)
    requires t >= 1 && Power(id, t - 1) < TWO_128
    requires Round2(p, id, n, t, inputY, inputV, groupKey).Ok?
    ensures forall k :: k in inputV ==> |inputV[k]| == t
    ensures var F := SumPoly(inputV, t);
            Round2(p, id, n, t, inputY, inputV, groupKey) == Ok(Keys(Eval(p, F, id), Eval(p, F, id), groupKey))
            && groupKey == Eval(p, F, 0)
  {
    hide Sum;
    hide SumPoly;
    hide Opened;
    var y := Plain(p, inputY);
    AcceptedInputs(p, id, n, t, inputY, inputV, groupKey);
    ShareOnSum(p, t, id, y, inputV);
    ConstantOnSum(p, t, inputV);
    Round2Value(p, id, n, t, inputY, inputV, groupKey);
  }

  lemma Round2Value(p: Modulus, id: nat, n: nat, t: nat, inputY: map<nat, Cipher>, inputV: map<nat, seq<int>>, groupKey: int)
    requires t >= 1
    requires Round2(p, id, n, t, inputY, inputV, groupKey).Ok?
    ensures WellSized(t, n, inputY, inputV)
    ensures var ki := Sum(Plain(p, inputY)) % p;
            Round2(p, id, n, t, inputY, inputV, groupKey) == Ok(Keys(ki, ki, groupKey))
            && groupKey == Sum(Constants(inputV)) % p
  {
  }

  lemma ShareOnSum(p: Modulus, t: nat, id: nat, y: map<nat, int>, inputV: map<nat, seq<int>>)
    requires forall k :: k in inputV ==> |inputV[k]| == t
    requires y.Keys == inputV.Keys && forall k :: k in inputV ==> Cong(p, y[k], Values(inputV, id)[k])
    ensures Sum(y) % p == Eval(p, SumPoly(inputV, t), id)
  {
    SumCong(p, y, Values(inputV, id));
    SumPolyEval(inputV, t, id);
    EvalIsHorner(p, SumPoly(inputV, t), id);
  }

  lemma ConstantOnSum(p: Modulus, t: nat, inputV: map<nat, seq<int>>)
    requires t >= 1 && forall k :: k in inputV ==> |inputV[k]| == t
    ensures Sum(Constants(inputV)) % p == Eval(p, SumPoly(inputV, t), 0)
  {
    forall k | k in inputV
      ensures Constants(inputV)[k] == Values(inputV, 0)[k]
    {
      EvalAtZero(p, inputV[k]);
    }
    assert Constants(inputV) == Values(inputV, 0);
    SumPolyEval(inputV, t, 0);
    EvalIsHorner(p, SumPoly(inputV, t), 0);
  }
}
