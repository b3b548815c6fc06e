/** What the checks of the rounds are worth when the dealers may send anything: round 2
    of the key generation accepts exactly the inputs whose shares fit their commitments,
    and round 3 accepts exactly the public shares that amount to the group key.
 */
module DkgSoundness {
  import opened Field
  import opened Polynomial
  import opened Sums
  import opened Vss
  import opened Dkg
  import Resharing
  import Epochs

  // ---------- round 2 ----------

  /** The counts that round 2 asserts. */
  ghost predicate Counts(t: nat, n: nat, inputY: map<nat, Cipher>, inputV: map<nat, seq<int>>) {
    |inputY| + 1 == n && |inputV| + 1 == n && forall k :: k in inputV ==> |inputV[k]| == t
  }

  /** The shares come from those who committed, and each is meant for this node and is a
      value of its dealer's committed polynomial. */
  ghost predicate AllFit(p: Modulus, id: nat, inputY: map<nat, Cipher>, inputV: map<nat, seq<int>>) {
    && inputY.Keys == inputV.Keys
    && forall k :: k in inputY ==> inputY[k].recipient == id && Cong(p, inputY[k].plain, Horner(inputV[k], id))
  }

  lemma ShareFits(p: Modulus, id: nat, plain: nat, v: seq<int>)
    requires v != [] && Power(id, |v| - 1) < TWO_128
    ensures Accepts(p, id, plain % p, v) <==> Cong(p, plain, Horner(v, id))
  {
    hide Accepts;
    hide Horner;
    AcceptsMeans(p, id, plain % p, v);
    CongMod(p, plain);
  }

  lemma OpenedExactly(p: Modulus, id: nat, t: nat, inputY: map<nat, Cipher>, inputV: map<nat, seq<int>>)
    requires t >= 1 && Power(id, t - 1) < TWO_128 && |inputY| == |inputV| && forall k :: k in inputV ==> |inputV[k]| == t
    ensures Opened(p, id, inputY, inputV).Ok? <==> AllFit(p, id, inputY, inputV)
    ensures Opened(p, id, inputY, inputV) == Err(RsaError) <==> exists k :: k in inputY && inputY[k].recipient != id
    ensures !Opened(p, id, inputY, inputV).Panic?
  {
    hide Accepts;
    hide Horner;
    hide Cong;
    hide Power;
    var y := Plain(p, inputY);
    forall k | k in inputY && k in inputV
      ensures Accepts(p, id, y[k], inputV[k]) <==> Cong(p, inputY[k].plain, Horner(inputV[k], id))
    {
      ShareFits(p, id, inputY[k].plain, inputV[k]);
    }
    if AllVerify(p, id, y, inputV) {
      assert |inputY.Keys| == |inputV.Keys|;
      Resharing.SameSizeSubset(inputY.Keys, inputV.Keys);
    }
  }

  /** When round 2 of the key generation panics, cannot decrypt, refuses and accepts,
      for every input whatever. */
  lemma Round2Exact(p: Modulus, node: Node, network: Network, inputY: map<nat, Cipher>, inputV: map<nat, seq<int>>)
    requires network.threshold >= 1 && network.totalNodes >= 1 && Power(node.id, network.threshold - 1) < TWO_128
    ensures var r, counts := Round2(p, node, network, inputY, inputV), Counts(network.threshold, network.totalNodes, inputY, inputV);
            && (r.Panic? <==> !counts)
            && (r == Err(RsaError) <==> counts && exists k :: k in inputY && inputY[k].recipient != node.id)
            && (r.Ok? <==> counts && AllFit(p, node.id, inputY, inputV))
  {
    hide Sum;
    hide AllFit;
    hide Power;
    hide Opened;
    hide AllDecrypt;
    hide AllVerify;
    if Counts(network.threshold, network.totalNodes, inputY, inputV) {
      OpenedExactly(p, node.id, network.threshold, inputY, inputV);
    }
  }

  /** The same for round 2 of a resharing, where the dealers are T* and the commitments
      have to amount to the group key. */
  lemma ReshareExact(p: Modulus, id: nat, n: nat, t: nat, inputY: map<nat, Cipher>, inputV: map<nat, seq<int>>, groupKey: int)
    requires t >= 1 && Power(id, t - 1) < TWO_128
    ensures var r, counts := Resharing.Round2(p, id, n, t, inputY, inputV, groupKey), Counts(t, n + 1, inputY, inputV);
            && (r.Panic? <==> !counts)
            && (r == Err(RsaError) <==> counts && exists k :: k in inputY && inputY[k].recipient != id)
            && (r.Ok? <==> counts && AllFit(p, id, inputY, inputV) && groupKey == Eval(p, SumPoly(inputV, t), 0))
  {
    hide Sum;
    hide SumPoly;
    hide Eval;
    hide AllFit;
    hide Power;
    hide Opened;
    hide AllDecrypt;
    hide AllVerify;
    if Counts(t, n + 1, inputY, inputV) {
      OpenedExactly(p, id, t, inputY, inputV);
      Resharing.ConstantOnSum(p, t, inputV);
    }
  }

  /** The node's own share and commitment, as its round 1 left them. */
  ghost predicate OwnFits(p: Modulus, node: Node, own: seq<int>) {
    own != [] && Cong(p, node.ownPartialShare, Horner(own, node.id)) && Cong(p, node.initPubShare, own[0])
  }

  lemma AddOwn(p: Modulus, own: seq<int>, rest: seq<int>, x: int, a: int, b: int)
    requires |own| == |rest| && Cong(p, a, Horner(own, x)) && b % p == Eval(p, rest, x)
    ensures (a + b) % p == Eval(p, AddSameDegree(own, rest), x)
  {
    hide Horner;
    AddEval(own, rest, x);
    EvalIsHorner(p, rest, x);
    EvalIsHorner(p, AddSameDegree(own, rest), x);
    CongAdd(p, a, Horner(own, x), b, Horner(rest, x));
  }

  lemma Round2Sums(p: Modulus, node: Node, network: Network, inputY: map<nat, Cipher>, inputV: map<nat, seq<int>>)
    requires network.threshold >= 1 && network.totalNodes >= 1 && Round2(p, node, network, inputY, inputV).Ok?
    ensures Opened(p, node.id, inputY, inputV).Ok? && forall k :: k in inputV ==> |inputV[k]| == network.threshold
    ensures var ki := (node.ownPartialShare + Sum(Plain(p, inputY))) % p;
            Round2(p, node, network, inputY, inputV) == Ok(Keys(ki, ki, (node.initPubShare + Sum(Constants(inputV))) % p))
  {
    hide Sum;
    hide AllVerify;
  }

  /** Soundness of the key generation: whatever the dealers sent, an accepted share is
      the value at this node's id, and the group key the value at zero, of the sum of
      its own and all the committed polynomials. */
  lemma DkgSound(p: Modulus, node: Node, network: Network, inputY: map<nat, Cipher>, inputV: map<nat, seq<int>>, own: seq<int>)
    requires network.totalNodes >= 1 && |own| == network.threshold >= 1 && Power(node.id, network.threshold - 1) < TWO_128
    requires OwnFits(p, node, own) && Round2(p, node, network, inputY, inputV).Ok?
    ensures forall k :: k in inputV ==> |inputV[k]| == network.threshold
    ensures var F := AddSameDegree(own, SumPoly(inputV, network.threshold));
            Round2(p, node, network, inputY, inputV) == Ok(Keys(Eval(p, F, node.id), Eval(p, F, node.id), Eval(p, F, 0)))
  {
    hide Round2;
    hide Sum;
    hide SumPoly;
    hide Eval;
    hide Power;
    hide Opened;
    hide Horner;
    hide Accepts;
    var t := network.threshold;
    Round2Sums(p, node, network, inputY, inputV);
    Round2Exact(p, node, network, inputY, inputV);
    var y, rest := Plain(p, inputY), SumPoly(inputV, t);
    forall k | k in inputV
      ensures Cong(p, y[k], Values(inputV, node.id)[k])
    {
      CongMod(p, inputY[k].plain);
    }
    Resharing.ShareOnSum(p, t, node.id, y, inputV);
    Resharing.ConstantOnSum(p, t, inputV);
    AddOwn(p, own, rest, node.id, node.ownPartialShare, Sum(y));
    EvalAtZero(p, own);
    AddOwn(p, own, rest, 0, node.initPubShare, Sum(Constants(inputV)));
  }

  // ---------- a whole key generation with arbitrary dealers ----------

  /** A member's round 2 returned this share and key on the broadcast commitments, its
      own among them; what the others sent it is arbitrary. */
  ghost predicate Accepted(p: Modulus, t: nat, commitments: map<nat, seq<int>>, node: Node, inputY: map<nat, Cipher>, share: int, key: int) {
    && t >= 1 && node.id in commitments && |commitments| >= 1
    && |commitments[node.id]| == t && OwnFits(p, node, commitments[node.id])
    && Round2(p, node, Network(t, |commitments|, commitments.Keys), inputY, commitments - {node.id}) == Ok(Keys(share, share, key))
  }

  lemma SumSplit(commitments: map<nat, seq<int>>, t: nat, i: nat, x: int)
    requires i in commitments && forall k :: k in commitments ==> |commitments[k]| == t
    ensures Horner(SumPoly(commitments, t), x) == Horner(AddSameDegree(commitments[i], SumPoly(commitments - {i}, t)), x)
  {
    hide SumPoly;
    hide Horner;
    SumPolyEval(commitments, t, x);
    SumPolyEval(commitments - {i}, t, x);
    AddEval(commitments[i], SumPoly(commitments - {i}, t), x);
    SumRemove(Values(commitments, x), i);
    assert Values(commitments, x) - {i} == Values(commitments - {i}, x);
  }

  lemma AcceptedShare(p: Modulus, t: nat, commitments: map<nat, seq<int>>, node: Node, inputY: map<nat, Cipher>, share: int, key: int)
    requires Accepted(p, t, commitments, node, inputY, share, key) && Power(node.id, t - 1) < TWO_128
    ensures forall k :: k in commitments ==> |commitments[k]| == t
    ensures share == Eval(p, SumPoly(commitments, t), node.id) && key == Eval(p, SumPoly(commitments, t), 0)
  {
    hide Round2;
    hide SumPoly;
    hide Eval;
    hide OwnFits;
    hide Power;
    var i := node.id;
    var others := commitments - {i};
    DkgSound(p, node, Network(t, |commitments|, commitments.Keys), inputY, others, commitments[i]);
    assert forall k :: k in commitments && k != i ==> k in others && others[k] == commitments[k];
    var F, G := SumPoly(commitments, t), AddSameDegree(commitments[i], SumPoly(others, t));
    SumSplit(commitments, t, i, i);
    SumSplit(commitments, t, i, 0);
    EvalIsHorner(p, F, i);
    EvalIsHorner(p, G, i);
    EvalIsHorner(p, F, 0);
    EvalIsHorner(p, G, 0);
  }

  /** Every member accepted what it received. */
  ghost predicate AllAccepted(p: Modulus, e: Epochs.Epoch, commitments: map<nat, seq<int>>, nodes: map<nat, Node>,
      received: map<nat, map<nat, Cipher>>) {
    && e.shares.Keys == commitments.Keys == nodes.Keys == received.Keys
    && forall i :: i in nodes ==>
         nodes[i].id == i && Accepted(p, e.threshold, commitments, nodes[i], received[i], e.shares[i], e.groupKey)
  }

  /** If every member's round 2 accepts, the quorum shares one secret: the shares lie on
      the one polynomial that the commitments define and the group key is its constant,
      whatever was sent. */
  lemma KeyGenerationSound(p: Modulus, e: Epochs.Epoch, commitments: map<nat, seq<int>>, nodes: map<nat, Node>,
      received: map<nat, map<nat, Cipher>>)
    requires Epochs.Admissible(commitments.Keys, e.threshold) && AllAccepted(p, e, commitments, nodes, received)
    ensures forall k :: k in commitments ==> |commitments[k]| == e.threshold
    ensures Epochs.Shares(p, e, Eval(p, SumPoly(commitments, e.threshold), 0))
  {
    hide Accepted;
    hide SumPoly;
    hide Eval;
    hide Power;
    hide OnPolynomial;
    var j :| j in commitments.Keys;
    AcceptedShare(p, e.threshold, commitments, nodes[j], received[j], e.shares[j], e.groupKey);
    var F := SumPoly(commitments, e.threshold);
    forall i | i in e.shares
      ensures e.shares[i] == Eval(p, F, i)
    {
      AcceptedShare(p, e.threshold, commitments, nodes[i], received[i], e.shares[i], e.groupKey);
    }
    Epochs.OnEval(p, e.shares, F);
    assert Epochs.SharesOf(p, e, F, Eval(p, F, 0));
  }

  // ---------- round 3 ----------

  /** A product of scalars that are not zero is not zero. */
  lemma NoZeroDivisors(p: Modulus, a: int, b: int)
    requires a % p != 0 && b % p != 0
    ensures a * b % p != 0
  {
    ModUnique(p, 0, 0, 0);
    if a * b % p == 0 {
      Cancel(p, a, b, 0);
    }
  }

  lemma RatioNonzero(p: Modulus, i: int, j: int)
    requires IsIndex(i) && IsIndex(j)
    ensures Ratio(p, i, j) % p != 0
  {
    if i == j {
      ModUnique(p, 1, 0, 1);
    } else {
      IndexDifference(p, i, j);
      var d := Inv(p, j - i);
      ModUnique(p, j, 0, j);
      ModUnique(p, d, 0, d);
      NoZeroDivisors(p, j, d);
    }
  }

  lemma {:induction false} BasisNonzero(p: Modulus, i: int, s: seq<int>)
    requires IsIndex(i) && Indices(s)
    ensures Basis(p, i, s) % p != 0
  {
    if s == [] {
      ModUnique(p, 1, 0, 1);
    } else {
      hide Ratio;
      BasisNonzero(p, i, s[1..]);
      RatioNonzero(p, i, s[0]);
      NoZeroDivisors(p, Ratio(p, i, s[0]), Basis(p, i, s[1..]));
    }
  }

  /** The Lagrange coefficient of an index is never zero. */
  lemma LagrangeNonzero(p: Modulus, i: nat, keys: set<nat>)
    requires IsIndex(i) && IndexSet(keys)
    ensures Lagrange(p, i, keys) % p != 0
  {
    hide Basis;
    BasisNonzero(p, i, Enumerate(keys));
    ModUnique(p, Lagrange(p, i, keys), 0, Lagrange(p, i, keys));
  }

  /** Changing one share changes the weighted sum, unless it changes nothing. */
  lemma OneShareMatters(p: Modulus, shares: map<nat, int>, i: nat, x: int)
    requires IndexSet(shares.Keys) && i in shares
    ensures IndexSet(shares[i := x].Keys)
    ensures Cong(p, Sum(Additive(p, shares[i := x])), Sum(Additive(p, shares))) <==> Cong(p, x, shares[i])
  {
    hide Sum;
    hide Lagrange;
    var shares' := shares[i := x];
    assert shares'.Keys == shares.Keys;
    var a, a', l := Additive(p, shares), Additive(p, shares'), Lagrange(p, i, shares.Keys);
    SumRemove(a, i);
    SumRemove(a', i);
    assert a - {i} == a' - {i};
    LagrangeNonzero(p, i, shares.Keys);
    OneTerm(p, l, x, shares[i], Sum(a - {i}));
  }

  lemma OneTerm(p: Modulus, l: int, x: int, y: int, rest: int)
    requires l % p != 0
    ensures Cong(p, l * x + rest, l * y + rest) <==> Cong(p, x, y)
  {
    if Cong(p, l * x + rest, l * y + rest) {
      CongAdd(p, l * x + rest, l * y + rest, rest, rest);
      Cancel(p, l, x, y);
    } else if Cong(p, x, y) {
      CongScale(p, x, y, l);
      CongAdd(p, l * x, l * y, rest, rest);
    }
  }

  /** The public shares of the members. */
  ghost function MemberShares(network: Network, Kj: map<nat, int>): (m: map<nat, int>)
    requires network.publicKeys <= Kj.Keys
    ensures m.Keys == network.publicKeys
  {
    map k | k in network.publicKeys :: Kj[k]
  }

  /** When round 3 passes, lacks a key and panics, for every input whatever. */
  lemma Round3Outcome(p: Modulus, node: Node, network: Network, Kj: map<nat, int>)
    requires IndexSet(network.publicKeys)
    ensures var r, complete := Round3(p, node, network, Kj), network.publicKeys <= Kj.Keys;
            && (r.Err? <==> |Kj| == network.totalNodes && !complete)
            && (r.Ok? <==> |Kj| == network.totalNodes && complete
                           && node.networkPubkey == Sum(Additive(p, MemberShares(network, Kj))) % p)
            && (r.Ok? ==> r.value == node.networkPubkey)
  {
    hide Sum;
    hide Lagrange;
  }

  /** Public shares on a polynomial pass if and only if the stored group key is its
      value at zero; with any other key round 3 panics. */
  lemma Round3Exact(p: Modulus, c: seq<int>, node: Node, network: Network, Kj: map<nat, int>)
    requires IndexSet(network.publicKeys) && network.publicKeys <= Kj.Keys && |Kj| == network.totalNodes
    requires |c| <= |network.publicKeys| && OnPolynomial(p, MemberShares(network, Kj), c)
    ensures Round3(p, node, network, Kj) == if node.networkPubkey == Eval(p, c, 0) then Ok(Eval(p, c, 0)) else Panic
  {
    hide Sum;
    hide Lagrange;
    hide Horner;
    var shares := MemberShares(network, Kj);
    assert |shares| == |shares.Keys|;
    Reconstruction(p, shares, c);
    EvalIsHorner(p, c, 0);
    Round3Outcome(p, node, network, Kj);
  }

  /** One public share that is not what it was makes round 3 panic: of all its values
      only one passes. */
  lemma Round3Refuses(p: Modulus, node: Node, network: Network, Kj: map<nat, int>, i: nat, x: int)
    requires IndexSet(network.publicKeys) && Round3(p, node, network, Kj).Ok? && i in network.publicKeys
    ensures i in Kj && Round3(p, node, network, Kj[i := x]) == if Cong(p, x, Kj[i]) then Round3(p, node, network, Kj) else Panic
  {
    hide Sum;
    hide Lagrange;
    Round3Outcome(p, node, network, Kj);
    var Kj' := Kj[i := x];
    assert Kj'.Keys == Kj.Keys;
    assert |Kj'| == |Kj'.Keys| == |Kj.Keys| == |Kj|;
    Round3Outcome(p, node, network, Kj');
    var shares := MemberShares(network, Kj);
    assert MemberShares(network, Kj') == shares[i := x];
    OneShareMatters(p, shares, i, x);
  }
}
