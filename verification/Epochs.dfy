/** Whole runs: one key generation followed by any number of resharings. */
module Epochs {
  import opened Field
  import opened Polynomial
  import opened Sums
  import opened Vss
  import opened Dkg
  import Resharing

  /** What a quorum holds between two resharings. */
  datatype Epoch = Epoch(threshold: nat, shares: map<nat, int>, groupKey: int)

  /** One resharing as the new members saw it: the encrypted shares each of them
      received, by dealer, and the commitments, which are broadcast. */
  datatype Transfer = Transfer(
    tstarSize: nat,
    threshold: nat,
    received: map<nat, map<nat, Cipher>>,
    commitments: map<nat, seq<int>>)

  /** A quorum the code can serve: 32-bit ids, and no power wraps in the share check. */
  ghost predicate Admissible(members: set<nat>, t: nat) {
    && t >= 1
    && members != {}
    && IndexSet(members)
    && forall j :: j in members ==> Power(j, t - 1) < TWO_128
  }

  /** The transfer completed: `resharing_round_2` returned Ok at every new member. */
  ghost predicate Completed(p: Modulus, e: Epoch, x: Transfer, e': Epoch) {
    && Admissible(x.received.Keys, x.threshold)
    && e'.threshold == x.threshold
    && e'.shares.Keys == x.received.Keys
    && forall j :: j in x.received ==>
         Resharing.Round2(p, j, x.tstarSize, x.threshold, x.received[j], x.commitments, e.groupKey)
         == Ok(Keys(e'.shares[j], e'.shares[j], e'.groupKey))
  }

  ghost predicate SharesOf(p: Modulus, e: Epoch, c: seq<int>, secret: int) {
    && |c| == e.threshold
    && IndexSet(e.shares.Keys)
    && OnPolynomial(p, e.shares, c)
    && Eval(p, c, 0) == secret
    && e.groupKey == secret
  }

  /** The shares lie on one polynomial with `threshold` coefficients whose value
      at zero is the secret, and the group key is the secret's. */
  ghost predicate Shares(p: Modulus, e: Epoch, secret: int) {
    exists c: seq<int> :: SharesOf(p, e, c, secret)
  }

  lemma GroupKeyIsSecret(p: Modulus, e: Epoch, secret: int)
    requires Shares(p, e, secret)
    ensures e.groupKey == secret
  {
  }

  lemma OnEval(p: Modulus, shares: map<nat, int>, c: seq<int>)
    requires forall j :: j in shares ==> shares[j] == Eval(p, c, j)
    ensures OnPolynomial(p, shares, c)
  {
    forall j | j in shares
      ensures Cong(p, shares[j], Horner(c, j))
    {
      EvalIsHorner(p, c, j);
      CongMod(p, Horner(c, j));
    }
  }

  /** A completed transfer keeps the secret, whatever its dealers did. */
  lemma TransferKeepsSecret(p: Modulus, e: Epoch, x: Transfer, e': Epoch, secret: int)
    requires Completed(p, e, x, e') && e.groupKey == secret
    ensures Shares(p, e', secret)
  {
    hide Resharing.Round2;
    hide SumPoly;
    hide Eval;
    hide OnPolynomial;
    var j0 :| j0 in x.received;
    Resharing.ResharingSound(p, j0, x.tstarSize, x.threshold, x.received[j0], x.commitments, secret);
    var F := SumPoly(x.commitments, x.threshold);
    forall j | j in e'.shares
      ensures e'.shares[j] == Eval(p, F, j)
    {
      Resharing.ResharingSound(p, j, x.tstarSize, x.threshold, x.received[j], x.commitments, secret);
    }
    OnEval(p, e'.shares, F);
    assert SharesOf(p, e', F, secret);
  }

  /** The k-th transfer leads from the k-th epoch to the next. */
  ghost predicate Transfers(p: Modulus, epochs: seq<Epoch>, transfers: seq<Transfer>, k: nat)
    requires |epochs| == |transfers| + 1
  {
    k < |transfers| ==> Completed(p, epochs[k], transfers[k], epochs[k + 1])
  }

  /** A run of completed transfers. */
  ghost predicate IsRun(p: Modulus, epochs: seq<Epoch>, transfers: seq<Transfer>) {
    |epochs| == |transfers| + 1 && forall k :: Transfers(p, epochs, transfers, k)
  }

  /** The quorum right after an honest key generation. */
  ghost function AfterDkg(p: Modulus, polys: map<nat, seq<int>>, t: nat): Epoch
    requires Dealt(polys, t)
  {
    var F := SumPoly(polys, t);
    Epoch(t, map i | i in polys.Keys :: Eval(p, F, i), Eval(p, F, 0))
  }

  lemma DkgShares(p: Modulus, polys: map<nat, seq<int>>, t: nat)
    requires Dealt(polys, t)
    ensures Shares(p, AfterDkg(p, polys, t), Eval(p, SumPoly(polys, t), 0))
  {
    var F, e := SumPoly(polys, t), AfterDkg(p, polys, t);
    OnEval(p, e.shares, F);
    assert SharesOf(p, e, F, Eval(p, F, 0));
  }

  /** Over every run, every epoch shares the one secret the key generation made:
      the group key never changes. */
  lemma {:induction false} RunKeepsSecret(p: Modulus, epochs: seq<Epoch>, transfers: seq<Transfer>, secret: int, k: nat)
    requires IsRun(p, epochs, transfers) && Shares(p, epochs[0], secret)
    requires k < |epochs|
    ensures Shares(p, epochs[k], secret) && epochs[k].groupKey == epochs[0].groupKey == secret
  {
    hide Shares;
    hide Completed;
    GroupKeyIsSecret(p, epochs[0], secret);
    if k > 0 {
      RunKeepsSecret(p, epochs, transfers, secret, k - 1);
      assert Transfers(p, epochs, transfers, k - 1);
      TransferKeepsSecret(p, epochs[k - 1], transfers[k - 1], epochs[k], secret);
      GroupKeyIsSecret(p, epochs[k], secret);
    }
  }

  /** Part of an epoch's shares. */
  ghost function Part(e: Epoch, members: set<nat>): (m: map<nat, int>)
    requires members <= e.shares.Keys
    ensures m.Keys == members
  {
    map j | j in members :: e.shares[j]
  }

  lemma PartReconstructs(p: Modulus, e: Epoch, members: set<nat>, secret: int)
    requires Shares(p, e, secret) && members <= e.shares.Keys && |members| >= e.threshold
    ensures IndexSet(members)
    ensures Sum(Additive(p, Part(e, members))) % p == secret
  {
    var c :| SharesOf(p, e, c, secret);
    var part := Part(e, members);
    assert |part| == |part.Keys|;
    Reconstruction(p, part, c);
    EvalIsHorner(p, c, 0);
  }

  /** The protocol's promise: after any run, any `threshold` members of the current
      quorum hold the secret that the key generation made. */
  lemma RunReconstructs(p: Modulus, polys: map<nat, seq<int>>, t: nat, epochs: seq<Epoch>, transfers: seq<Transfer>,
      k: nat, members: set<nat>)
    requires Dealt(polys, t) && IsRun(p, epochs, transfers) && epochs[0] == AfterDkg(p, polys, t)
    requires k < |epochs| && members <= epochs[k].shares.Keys && |members| >= epochs[k].threshold
    ensures IndexSet(members)
    ensures Sum(Additive(p, Part(epochs[k], members))) % p == Eval(p, SumPoly(polys, t), 0) == epochs[k].groupKey
  {
    var secret := Eval(p, SumPoly(polys, t), 0);
    DkgShares(p, polys, t);
    RunKeepsSecret(p, epochs, transfers, secret, k);
    PartReconstructs(p, epochs[k], members, secret);
  }

  // ---------- honest dealers ----------

  /** The random coefficients drawn by each member of T*. */
  ghost predicate Drawn(shares: map<nat, int>, random: map<nat, seq<int>>, t: nat) {
    && IndexSet(shares.Keys)
    && random.Keys == shares.Keys
    && t >= 1
    && forall i :: i in random ==> |random[i]| == t
  }

  ghost function DealerPolys(p: Modulus, shares: map<nat, int>, random: map<nat, seq<int>>, t: nat): (polys: map<nat, seq<int>>)
    requires Drawn(shares, random, t)
    ensures polys.Keys == shares.Keys
    ensures forall i :: i in polys ==> |polys[i]| == t
  {
    map i | i in shares :: Resharing.DealerPoly(p, i, shares[i], shares.Keys, random[i])
  }

  ghost function HonestV(p: Modulus, polys: map<nat, seq<int>>): (v: map<nat, seq<int>>)
    ensures v.Keys == polys.Keys
  {
    map i | i in polys :: Commit(p, polys[i], |polys[i]|)
  }

  ghost function HonestY(p: Modulus, polys: map<nat, seq<int>>, j: nat): (y: map<nat, Cipher>)
    ensures y.Keys == polys.Keys
  {
    map i | i in polys :: Cipher(j, Eval(p, polys[i], j))
  }

  lemma HonestOpens(p: Modulus, polys: map<nat, seq<int>>, t: nat, j: nat)
    requires t >= 1 && Power(j, t - 1) < TWO_128
    requires forall i :: i in polys ==> |polys[i]| == t
    ensures Opened(p, j, HonestY(p, polys, j), HonestV(p, polys)) == Ok(Plain(p, HonestY(p, polys, j)))
  {
    var y, v := HonestY(p, polys, j), HonestV(p, polys);
    forall i | i in y
      ensures Accepts(p, j, Plain(p, y)[i], v[i])
    {
      HonestShareAccepted(p, polys[i], j);
      var e := Eval(p, polys[i], j);
      ModUnique(p, e, 0, e);
    }
  }

  lemma HonestConstants(p: Modulus, shares: map<nat, int>, random: map<nat, seq<int>>, t: nat)
    requires Drawn(shares, random, t)
    ensures Sum(Constants(HonestV(p, DealerPolys(p, shares, random, t)))) % p == Sum(Additive(p, shares)) % p
  {
    hide Sum;
    hide Lagrange;
    var m := Constants(HonestV(p, DealerPolys(p, shares, random, t)));
    forall i | i in m
      ensures Cong(p, m[i], Additive(p, shares)[i])
    {
      var a := shares[i] * Lagrange(p, i, shares.Keys);
      CongMod(p, a);
      CongMod(p, a % p);
    }
    SumCong(p, m, Additive(p, shares));
  }

  /** Honest dealers are accepted exactly when the weighted shares of T* amount
      to the group key. */
  lemma HonestAccepted(p: Modulus, shares: map<nat, int>, random: map<nat, seq<int>>, t: nat, j: nat, groupKey: int)
    requires Drawn(shares, random, t) && Power(j, t - 1) < TWO_128
    ensures var polys := DealerPolys(p, shares, random, t);
            Resharing.Round2(p, j, |shares|, t, HonestY(p, polys, j), HonestV(p, polys), groupKey).Ok?
            <==> groupKey == Sum(Additive(p, shares)) % p
  {
    hide Sum;
    hide Opened;
    hide DealerPolys;
    hide Additive;
    hide Constants;
    hide Plain;
    var polys := DealerPolys(p, shares, random, t);
    assert |HonestY(p, polys, j).Keys| == |HonestV(p, polys).Keys| == |shares.Keys|;
    HonestOpens(p, polys, t, j);
    HonestConstants(p, shares, random, t);
  }

  /** ... and then the share is an evaluation of the sum of their polynomials,
      whose constant term is the group key. */
  lemma HonestShare(p: Modulus, shares: map<nat, int>, random: map<nat, seq<int>>, t: nat, j: nat, groupKey: int)
    requires Drawn(shares, random, t) && Power(j, t - 1) < TWO_128 && groupKey == Sum(Additive(p, shares)) % p
    ensures var polys := DealerPolys(p, shares, random, t);
            var F := SumPoly(HonestV(p, polys), t);
            && Resharing.Round2(p, j, |shares|, t, HonestY(p, polys, j), HonestV(p, polys), groupKey)
               == Ok(Keys(Eval(p, F, j), Eval(p, F, j), groupKey))
            && Eval(p, F, 0) == groupKey
  {
    hide Sum;
    hide Additive;
    hide Resharing.Round2;
    hide SumPoly;
    hide Eval;
    hide Power;
    var polys := DealerPolys(p, shares, random, t);
    HonestAccepted(p, shares, random, t, j, groupKey);
    Resharing.ResharingSound(p, j, |shares|, t, HonestY(p, polys, j), HonestV(p, polys), groupKey);
  }

  /** What each new member gets out of the dealers' round 1. */
  ghost function HonestReceived(p: Modulus, polys: map<nat, seq<int>>, members: set<nat>): (m: map<nat, map<nat, Cipher>>)
    ensures m.Keys == members
  {
    map j | j in members :: Sent(p, polys, members, j)
  }

  ghost function Sent(p: Modulus, polys: map<nat, seq<int>>, members: set<nat>, j: nat): map<nat, Cipher>
    requires j in members
  {
    map i | i in polys :: EncryptedShares(p, polys[i], members)[j]
  }

  lemma SentIsHonest(p: Modulus, polys: map<nat, seq<int>>, members: set<nat>, j: nat)
    requires j in members
    ensures Sent(p, polys, members, j) == HonestY(p, polys, j)
  {
    hide Eval;
  }

  /** What an honest T* sends to the members of a new quorum. */
  ghost function HonestTransfer(p: Modulus, shares: map<nat, int>, random: map<nat, seq<int>>, t: nat, members: set<nat>): (x: Transfer)
    requires Drawn(shares, random, t)
    ensures x.received.Keys == members
  {
    var polys := DealerPolys(p, shares, random, t);
    Transfer(|shares|, t, HonestReceived(p, polys, members), HonestV(p, polys))
  }

  /** The polynomial that an honest transfer puts the new shares on. */
  ghost function TransferPoly(p: Modulus, shares: map<nat, int>, random: map<nat, seq<int>>, t: nat): (c: seq<int>)
    requires Drawn(shares, random, t)
    ensures |c| == t
  {
    SumPoly(HonestV(p, DealerPolys(p, shares, random, t)), t)
  }

  /** One new member's round 2 on what it was sent. */
  lemma MemberAccepts(p: Modulus, shares: map<nat, int>, random: map<nat, seq<int>>, t: nat, members: set<nat>, j: nat, groupKey: int)
    requires Drawn(shares, random, t) && Power(j, t - 1) < TWO_128 && groupKey == Sum(Additive(p, shares)) % p && j in members
    ensures var x, F := HonestTransfer(p, shares, random, t, members), TransferPoly(p, shares, random, t);
            && Resharing.Round2(p, j, x.tstarSize, x.threshold, x.received[j], x.commitments, groupKey)
               == Ok(Keys(Eval(p, F, j), Eval(p, F, j), groupKey))
            && Eval(p, F, 0) == groupKey
  {
    hide Sum;
    hide Additive;
    hide Resharing.Round2;
    hide SumPoly;
    hide Eval;
    hide Power;
    hide Sent;
    hide HonestY;
    HonestShare(p, shares, random, t, j, groupKey);
    SentIsHonest(p, DealerPolys(p, shares, random, t), members, j);
  }

  /** Completeness: with a T* of at least the old threshold, honest dealers always
      complete, and round 3 then passes at every member of the new quorum. */
  lemma HonestTransferCompletes(p: Modulus, e: Epoch, secret: int, tstar: set<nat>, random: map<nat, seq<int>>, t: nat,
      members: set<nat>) returns (e': Epoch)
    requires Shares(p, e, secret) && tstar <= e.shares.Keys && |tstar| >= e.threshold
    requires Drawn(Part(e, tstar), random, t) && Admissible(members, t)
    ensures Completed(p, e, HonestTransfer(p, Part(e, tstar), random, t, members), e')
    ensures e'.groupKey == secret && e'.shares.Keys == members
    ensures t <= |members| ==> forall node: Node :: node.networkPubkey == secret ==>
              Round3(p, node, Network(t, |members|, members), e'.shares) == Ok(secret)
  {
    hide Sum;
    hide TransferPoly;
    hide Eval;
    hide Resharing.Round2;
    hide Shares;
    hide Power;
    hide HonestReceived;
    hide HonestV;
    hide DealerPolys;
    hide Round3;
    var part := Part(e, tstar);
    var j0 :| j0 in members;
    GroupKeyIsSecret(p, e, secret);
    PartReconstructs(p, e, tstar, secret);
    MemberAccepts(p, part, random, t, members, j0, secret);
    var F := TransferPoly(p, part, random, t);
    e' := Epoch(t, map j | j in members :: Eval(p, F, j), secret);
    forall j | j in members
      ensures var x := HonestTransfer(p, part, random, t, members);
              Resharing.Round2(p, j, x.tstarSize, x.threshold, x.received[j], x.commitments, secret)
              == Ok(Keys(Eval(p, F, j), Eval(p, F, j), secret))
    {
      MemberAccepts(p, part, random, t, members, j, secret);
    }
    if t <= |members| {
      forall node: Node | node.networkPubkey == secret
        ensures Round3(p, node, Network(t, |members|, members), e'.shares) == Ok(secret)
      {
        HonestRound3(p, F, members, node, e'.shares);
      }
    }
  }

  // ---------- how large T* has to be ----------

  /** Every old polynomial with `oldT` coefficients survives a resharing by T*. */
  ghost predicate Suffices(p: Modulus, tstar: set<nat>, oldT: nat)
    requires IndexSet(tstar)
  {
    forall c: seq<int> :: |c| == oldT ==>
      Sum(Additive(p, map i | i in tstar :: Eval(p, c, i))) % p == Eval(p, c, 0)
  }

  lemma {:induction false} PaddedHorner(c: seq<int>, n: nat, x: int)
    ensures Horner(c + seq(n, _ => 0), x) == Horner(c, x)
  {
    if c == [] {
      ZeroPoly(n, x);
      assert c + seq(n, _ => 0) == seq(n, _ => 0);
    } else {
      PaddedHorner(c[1..], n, x);
      assert (c + seq(n, _ => 0))[1..] == c[1..] + seq(n, _ => 0);
    }
  }

  lemma {:induction false} SumZero(m: map<nat, int>)
    requires forall k :: k in m ==> m[k] == 0
    ensures Sum(m) == 0
    decreases |m|
  {
    if m != map[] {
      assert m.Keys != {};
      var k :| k in m.Keys;
      SumRemove(m, k);
      assert (m - {k}).Keys == m.Keys - {k};
      SumZero(m - {k});
    }
  }

  /** A T* smaller than the old threshold loses the key of some quorum: its shares
      are all zero while its secret is not. */
  lemma TooSmall(p: Modulus, tstar: set<nat>, oldT: nat) returns (c: seq<int>)
    requires IndexSet(tstar) && |tstar| < oldT
    ensures |c| == oldT && Sum(Additive(p, map i | i in tstar :: Eval(p, c, i))) % p == 0 && Eval(p, c, 0) != 0
  {
    hide Enumerate;
    hide Vanishing;
    hide Horner;
    hide Sum;
    hide Lagrange;
    hide Eval;
    var s := Enumerate(tstar);
    var w := Vanishing(s);
    c := w + seq(oldT - |w|, _ => 0);
    var shares := map i | i in tstar :: Eval(p, c, i);
    forall i | i in tstar
      ensures shares[i] == 0
    {
      PaddedHorner(w, oldT - |w|, i);
      VanishingEval(p, s, i);
      EvalIsHorner(p, c, i);
      ModUnique(p, 0, 0, 0);
    }
    assert shares.Keys == tstar;
    SumZero(Additive(p, shares));
    ModUnique(p, 0, 0, 0);
    PaddedHorner(w, oldT - |w|, 0);
    VanishingEval(p, s, 0);
    EvalIsHorner(p, c, 0);
  }

  /** The old threshold is exactly the size T* needs. */
  lemma TstarSize(p: Modulus, tstar: set<nat>, oldT: nat)
    requires IndexSet(tstar)
    ensures Suffices(p, tstar, oldT) <==> |tstar| >= oldT
  {
    if |tstar| >= oldT {
      forall c: seq<int> | |c| == oldT
        ensures Sum(Additive(p, map i | i in tstar :: Eval(p, c, i))) % p == Eval(p, c, 0)
      {
        var shares := map i | i in tstar :: Eval(p, c, i);
        assert shares.Keys == tstar && |shares| == |shares.Keys|;
        OnEval(p, shares, c);
        Reconstruction(p, shares, c);
        EvalIsHorner(p, c, 0);
      }
    } else {
      var c := TooSmall(p, tstar, oldT);
    }
  }

  ghost function FirstIndices(n: nat): (s: set<nat>)
    requires n < TWO_32
    ensures IndexSet(s) && |s| == n && forall i :: i in s ==> i <= n
  {
    if n == 0 then {} else FirstIndices(n - 1) + {n}
  }

  /** The relay compares T* with the threshold of the first election, which no
      re-election updates. That lets through only sufficient T* exactly when the
      current quorum's threshold is not above the first one. */
  lemma FirstThresholdGuard(p: Modulus, firstT: nat, oldT: nat)
    requires firstT < TWO_32
    ensures (forall tstar: set<nat> :: IndexSet(tstar) && |tstar| >= firstT ==> Suffices(p, tstar, oldT)) <==> oldT <= firstT
  {
    hide Suffices;
    hide IndexSet;
    if oldT <= firstT {
      forall tstar: set<nat> | IndexSet(tstar) && |tstar| >= firstT
        ensures Suffices(p, tstar, oldT)
      {
        TstarSize(p, tstar, oldT);
      }
    } else {
      TstarSize(p, FirstIndices(firstT), oldT);
    }
  }
}
