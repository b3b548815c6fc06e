/** Reconstruction of the network's answer from its members' answers
    (network/crates/cryptography/src/reconstruct.rs), and the oblivious PRF built on it.
 */
module Reconstruct {
  import opened Field
  import opened Polynomial
  import opened Dleq

  /** The first `n` answers, each times its Lagrange coefficient over all the indices. */
  function Combined(p: Modulus, answers: seq<int>, q: seq<int>, indices: seq<int>): int
    requires |answers| <= |q| && Indices(q) && Indices(indices)
  {
    if answers == [] then 0
    else answers[0] * (Basis(p, q[0], indices) % p) + Combined(p, answers[1..], q[1..], indices)
  }

  lemma {:induction false} CombinedAppend(p: Modulus, answers: seq<int>, q: seq<int>, indices: seq<int>, n: nat)
    requires |answers| <= |q| && Indices(q) && Indices(indices) && n < |answers|
    ensures Combined(p, answers[..n + 1], q, indices)
            == Combined(p, answers[..n], q, indices) + answers[n] * (Basis(p, q[n], indices) % p)
  {
    hide Basis;
    var u, v := answers[..n + 1], answers[..n];
    if n == 0 {
      assert u[1..] == [] && v == [];
    } else {
      CombinedAppend(p, answers[1..], q[1..], indices, n - 1);
      assert u[1..] == answers[1..][..n] && v[1..] == answers[1..][..n - 1];
    }
  }

  lemma ReduceStep(p: Modulus, done: int, a: int, b: int)
    ensures (done % p + a * b % p) % p == (done + a * b) % p
  {
    CongMod(p, done);
    CongMod(p, a * b);
    CongAdd(p, done % p, done, a * b % p, a * b);
  }

  function Shorter(a: nat, b: nat): nat {
    if a <= b then a else b
  }

  /** `threshold_unchecked`: pairs are taken until either list ends. None is the panic
      of the Lagrange loop, which asserts that the index it works for is positive. A
      zero among the indices that find no answer makes every coefficient zero. */
  method ThresholdUnchecked(p: Modulus, responses: seq<int>, indices: seq<int>) returns (r: Option<int>)
    requires Words(indices)
    ensures var n := Shorter(|responses|, |indices|);
            && (r.None? <==> 0 in indices[..n])
            && (r.Some? ==> r.value == if Indices(indices) then Combined(p, responses[..n], indices, indices) % p else 0)
  {
    hide Combined;
    hide Basis;
    var n := Shorter(|responses|, |indices|);
    var used := responses[..n];
    var result := 0;
    ModUnique(p, 0, 0, 0);
    if Indices(indices) {
      CombinedEmpty(p, indices);
    }
    for k := 0 to n
      invariant 0 !in indices[..k]
      invariant result == if Indices(indices) then Combined(p, used[..k], indices, indices) % p else 0
    {
      assert indices[..k + 1] == indices[..k] + [indices[k]];
      if indices[k] == 0 {
        assert 0 in indices[..n];
        return None;
      }
      var atZero := LagrangeBasisAt0(p, indices[k], indices);
      var asAdditiveShare := responses[k] * atZero % p;
      if Indices(indices) {
        CombinedAppend(p, used, indices, indices, k);
        ReduceStep(p, Combined(p, used[..k], indices, indices), responses[k], atZero);
      }
      result := (result + asAdditiveShare) % p;
    }
    assert used[..n] == used;
    return Some(result);
  }

  lemma CombinedEmpty(p: Modulus, indices: seq<int>)
    requires Indices(indices)
    ensures forall a: seq<int> :: Combined(p, a[..0], indices, indices) == 0
  {
  }

  /** Every one of the first n proofs verifies for its own key. */
  predicate AllValid(p: Modulus, h: ChallengeHash, point: int, responses: seq<Proof>, pubkeys: seq<int>, n: nat)
    requires n <= |responses| && n <= |pubkeys|
  {
    forall k :: 0 <= k < n ==> VerifyAndGetOutput(p, h, responses[k], pubkeys[k], point).Success?
  }

  function Outputs(responses: seq<Proof>): (s: seq<int>)
    ensures |s| == |responses|
    ensures forall k :: 0 <= k < |s| ==> s[k] == responses[k].outputPoint
  {
    seq(|responses|, k requires 0 <= k < |responses| => responses[k].outputPoint)
  }

  function Min(a: nat, b: nat, c: nat): (m: nat)
    ensures m <= a && m <= b && m <= c && (m == a || m == b || m == c)
  {
    if a <= b && a <= c then a else if b <= c then b else c
  }

  /** The k-th proof verifies for its own key. */
  predicate ValidAt(p: Modulus, h: ChallengeHash, point: int, responses: seq<Proof>, pubkeys: seq<int>, k: nat)
    requires k < |responses| && k < |pubkeys|
  {
    VerifyAndGetOutput(p, h, responses[k], pubkeys[k], point).Success?
  }

  /** The first n proofs verify and their indices are positive. */
  predicate Passes(p: Modulus, h: ChallengeHash, point: int, responses: seq<Proof>, pubkeys: seq<int>, indices: seq<int>, n: nat)
    requires n <= |responses| && n <= |pubkeys| && n <= |indices|
  {
    AllValid(p, h, point, responses, pubkeys, n) && 0 !in indices[..n]
  }

  /** What stops the reconstruction at k: all before it pass, and it does not. */
  predicate StopsAt(p: Modulus, h: ChallengeHash, point: int, responses: seq<Proof>, pubkeys: seq<int>, indices: seq<int>, k: nat)
    requires k < |responses| && k < |pubkeys| && k < |indices|
  {
    Passes(p, h, point, responses, pubkeys, indices, k) && !Passes(p, h, point, responses, pubkeys, indices, k + 1)
  }

  lemma Earlier(p: Modulus, h: ChallengeHash, point: int, responses: seq<Proof>, pubkeys: seq<int>, indices: seq<int>, m: nat, n: nat)
    requires m <= n <= |responses| && n <= |pubkeys| && n <= |indices|
    ensures Passes(p, h, point, responses, pubkeys, indices, n) ==> Passes(p, h, point, responses, pubkeys, indices, m)
  {
    hide VerifyAndGetOutput;
    assert indices[..m] == indices[..n][..m];
  }

  /** `threshold`: at the first answer that does not pass it fails if the proof does not
      verify and panics, which is None, if only its index is zero. Without such an answer
      it agrees with the unchecked reconstruction from the proven outputs. */
  method Threshold(p: Modulus, h: ChallengeHash, point: int, responses: seq<Proof>, pubkeys: seq<int>, indices: seq<int>)
    returns (r: Option<Result<int>>)
    requires Words(indices)
    ensures var n := Min(|responses|, |pubkeys|, |indices|);
            && (Passes(p, h, point, responses, pubkeys, indices, n) ==>
                  r == Some(Success(if Indices(indices) then Combined(p, Outputs(responses)[..n], indices, indices) % p else 0)))
            && (forall k: nat :: k < n && StopsAt(p, h, point, responses, pubkeys, indices, k) ==>
                  r == if ValidAt(p, h, point, responses, pubkeys, k) then None else Some(InvalidProof))
  {
    hide Combined;
    hide Basis;
    hide VerifyAndGetOutput;
    var n := Min(|responses|, |pubkeys|, |indices|);
    var used := Outputs(responses)[..n];
    var result := 0;
    ModUnique(p, 0, 0, 0);
    if Indices(indices) {
      CombinedEmpty(p, indices);
    }
    for k := 0 to n
      invariant Passes(p, h, point, responses, pubkeys, indices, k)
      invariant result == if Indices(indices) then Combined(p, used[..k], indices, indices) % p else 0
    {
      assert indices[..k + 1] == indices[..k] + [indices[k]];
      var output := VerifyAndGetOutput(p, h, responses[k], pubkeys[k], point);
      if !output.Success? {
        OnlyStop(p, h, point, responses, pubkeys, indices, k);
        return Some(InvalidProof);
      }
      if indices[k] == 0 {
        OnlyStop(p, h, point, responses, pubkeys, indices, k);
        return None;
      }
      var atZero := LagrangeBasisAt0(p, indices[k], indices);
      var asAdditiveShare := output.value * atZero % p;
      if Indices(indices) {
        CombinedAppend(p, used, indices, indices, k);
        ReduceStep(p, Combined(p, used[..k], indices, indices), output.value, atZero);
      }
      result := (result + asAdditiveShare) % p;
    }
    assert used[..n] == used;
    NoStop(p, h, point, responses, pubkeys, indices, n);
    return Some(Success(result));
  }

  lemma OnlyStop(p: Modulus, h: ChallengeHash, point: int, responses: seq<Proof>, pubkeys: seq<int>, indices: seq<int>, k: nat)
    requires k < |responses| && k < |pubkeys| && k < |indices| && StopsAt(p, h, point, responses, pubkeys, indices, k)
    ensures var n := Min(|responses|, |pubkeys|, |indices|);
            && !Passes(p, h, point, responses, pubkeys, indices, n)
            && forall j: nat :: j < n && StopsAt(p, h, point, responses, pubkeys, indices, j) ==> j == k
  {
    hide Passes;
    var n := Min(|responses|, |pubkeys|, |indices|);
    Earlier(p, h, point, responses, pubkeys, indices, k + 1, n);
    forall j: nat | j < n && StopsAt(p, h, point, responses, pubkeys, indices, j)
      ensures j == k
    {
      if j < k {
        Earlier(p, h, point, responses, pubkeys, indices, j + 1, k);
      } else if k < j {
        Earlier(p, h, point, responses, pubkeys, indices, k + 1, j);
      }
    }
  }

  lemma NoStop(p: Modulus, h: ChallengeHash, point: int, responses: seq<Proof>, pubkeys: seq<int>, indices: seq<int>, n: nat)
    requires n <= |responses| && n <= |pubkeys| && n <= |indices| && Passes(p, h, point, responses, pubkeys, indices, n)
    ensures forall k: nat :: k < n ==> !StopsAt(p, h, point, responses, pubkeys, indices, k)
  {
    hide Passes;
    forall k: nat | k < n
      ensures !StopsAt(p, h, point, responses, pubkeys, indices, k)
    {
      Earlier(p, h, point, responses, pubkeys, indices, k + 1, n);
    }
  }

  // ---------- what is reconstructed ----------

  /** Each answer is the point times the member's share of c. */
  ghost predicate Answers(p: Modulus, point: int, c: seq<int>, answers: seq<int>, q: seq<int>)
    requires |answers| == |q|
  {
    forall k :: 0 <= k < |q| ==> Cong(p, answers[k], point * Horner(c, q[k]))
  }

  lemma {:induction false} CombinedIsWeighted(p: Modulus, point: int, c: seq<int>, answers: seq<int>, q: seq<int>, indices: seq<int>)
    requires |answers| == |q| && Indices(q) && Indices(indices) && Answers(p, point, c, answers, q)
    ensures Cong(p, Combined(p, answers, q, indices), point * Weighted(p, q, indices, c))
  {
    if q != [] {
      hide Basis;
      hide Horner;
      var b, f := Basis(p, q[0], indices), Horner(c, q[0]);
      assert Answers(p, point, c, answers[1..], q[1..]);
      CombinedIsWeighted(p, point, c, answers[1..], q[1..], indices);
      CombinedTerm(p, answers[0], b, point, f, Combined(p, answers[1..], q[1..], indices), Weighted(p, q[1..], indices, c));
    }
  }

  lemma CombinedTerm(p: Modulus, a: int, b: int, point: int, f: int, rest: int, w: int)
    requires Cong(p, a, point * f) && Cong(p, rest, point * w)
    ensures Cong(p, a * (b % p) + rest, point * (b * f + w))
  {
    CongMod(p, b);
    CongMul(p, a, point * f, b % p, b);
    CongAdd(p, a * (b % p), point * f * b, rest, point * w);
    FactorPoint(point, f, b, w);
  }

  lemma FactorPoint(x: int, f: int, b: int, w: int)
    ensures x * f * b + x * w == x * (b * f + w)
  {
    Associate(x, f, b);
    Distribute(b * f, w, x);
  }

  /** It does not matter who answers: any members with distinct indices, at least as
      many as the secret polynomial has coefficients and in any order, give f(0)
      times the point. */
  lemma AnyoneMayAnswer(p: Modulus, point: int, c: seq<int>, answers: seq<int>, indices: seq<int>)
    requires Indices(indices) && Distinct(indices) && |c| <= |indices| == |answers|
    requires Answers(p, point, c, answers, indices)
    ensures Combined(p, answers, indices, indices) % p == point * Eval(p, c, 0) % p
  {
    CombinedIsWeighted(p, point, c, answers, indices, indices);
    Interpolation(p, indices, c);
    CongScale(p, Weighted(p, indices, indices, c), Horner(c, 0), point);
    EvalIsHorner(p, c, 0);
    CongMod(p, Horner(c, 0));
    CongScale(p, Eval(p, c, 0), Horner(c, 0), point);
  }

  /** `threshold` on honest proofs succeeds with f(0) times the point. */
  lemma HonestThreshold(p: Modulus, h: ChallengeHash, point: int, c: seq<int>, nonces: seq<int>, indices: seq<int>)
    requires Indices(indices) && Distinct(indices) && |c| <= |indices| == |nonces|
    ensures var proofs := HonestProofs(p, h, point, c, nonces, indices);
            && AllValid(p, h, point, proofs, SharePubkeys(p, c, indices), |indices|)
            && Combined(p, Outputs(proofs), indices, indices) % p == point * Eval(p, c, 0) % p
  {
    hide VerifyAndGetOutput;
    hide Eval;
    hide Combined;
    var proofs := HonestProofs(p, h, point, c, nonces, indices);
    forall k | 0 <= k < |indices|
      ensures VerifyAndGetOutput(p, h, proofs[k], SharePubkeys(p, c, indices)[k], point).Success?
      ensures Cong(p, Outputs(proofs)[k], point * Horner(c, indices[k]))
    {
      var s := Eval(p, c, indices[k]);
      HonestProofVerifies(p, h, point, s, nonces[k]);
      CongMod(p, point * s);
      EvalIsHorner(p, c, indices[k]);
      CongMod(p, Horner(c, indices[k]));
      CongScale(p, s, Horner(c, indices[k]), point);
    }
    AnyoneMayAnswer(p, point, c, Outputs(proofs), indices);
  }

  /** The proofs of the members with these indices, each with its share of c. */
  function HonestProofs(p: Modulus, h: ChallengeHash, point: int, c: seq<int>, nonces: seq<int>, indices: seq<int>): (s: seq<Proof>)
    requires |nonces| == |indices|
    ensures |s| == |indices|
  {
    seq(|indices|, k requires 0 <= k < |indices| => Prove(p, h, point, Eval(p, c, indices[k]), nonces[k]))
  }

  function SharePubkeys(p: Modulus, c: seq<int>, indices: seq<int>): (s: seq<int>)
    ensures |s| == |indices|
  {
    seq(|indices|, k requires 0 <= k < |indices| => Eval(p, c, indices[k]) % p)
  }

  // ---------- the oblivious PRF ----------

  /** `oprf_client_1`: the hashed input times the mask. */
  function MaskInput(p: Modulus, hashed: int, mask: int): int {
    hashed * mask % p
  }

  /** On which curve a point is unmasked. */
  datatype MaskCurve = Secp256k1 | BabyJubJub

  datatype Unmasked = Hashed(hash: nat) | Refused | Panicked

  /** Unmasking the reconstructed point. A zero mask is refused on secp256k1; on
      BabyJubJub the inverse is unwrapped before anyone asks whether it exists. */
  function Unmask(p: Modulus, curve: MaskCurve, hashFromCurve: int -> nat, mask: int, point: int): Unmasked {
    match Invert(p, mask)
    case None => if curve.Secp256k1? then Refused else Panicked
    case Some(inverse) => Hashed(hashFromCurve(point * inverse % p))
  }

  lemma MaskCancels(p: Modulus, hashed: int, mask: int, k: int)
    requires mask % p != 0
    ensures MaskInput(p, hashed, mask) * k % p * Inv(p, mask) % p == hashed * k % p
  {
    var i, m := Inv(p, mask), hashed * mask;
    ModUnique(p, 1, 0, 1);
    CongMod(p, m);
    CongScale(p, m % p, m, k);
    CongMod(p, m % p * k);
    CongScale(p, m % p * k % p, m * k, i);
    CongScale(p, mask * i, 1, hashed * k);
    assert m * k * i == mask * i * (hashed * k) by {
      Associate(hashed, mask, k);
      Associate(mask, i, hashed * k);
      Associate(mask * k, hashed, i);
    }
  }

  /** The whole pipeline: masking, the answers of any sufficient set of members,
      reconstruction and unmasking give the hash of f(0) times the hashed input.
      Neither the mask, the nonces nor the answering set shows in the result. */
  lemma OprfPipeline(p: Modulus, h: ChallengeHash, hashFromCurve: int -> nat, hashed: int, mask: int, c: seq<int>,
      nonces: seq<int>, indices: seq<int>, curve: MaskCurve)
    requires mask % p != 0
    requires Indices(indices) && Distinct(indices) && |c| <= |indices| == |nonces|
    ensures var masked := MaskInput(p, hashed, mask);
            var proofs := HonestProofs(p, h, masked, c, nonces, indices);
            && AllValid(p, h, masked, proofs, SharePubkeys(p, c, indices), |indices|)
            && Unmask(p, curve, hashFromCurve, mask, Combined(p, Outputs(proofs), indices, indices) % p)
               == Hashed(hashFromCurve(hashed * Eval(p, c, 0) % p))
  {
    hide Eval;
    hide Combined;
    hide MaskInput;
    HonestThreshold(p, h, MaskInput(p, hashed, mask), c, nonces, indices);
    MaskCancels(p, hashed, mask, Eval(p, c, 0));
  }

  /** `oprf_client_2`: the server's proof is checked first, then its output is unmasked. */
  function ClientFinish(p: Modulus, h: ChallengeHash, curve: MaskCurve, hashFromCurve: int -> nat, masked: int, mask: int,
      serverPubkey: int, proof: Proof): Unmasked {
    match VerifyAndGetOutput(p, h, proof, serverPubkey, masked)
    case Success(output) => Unmask(p, curve, hashFromCurve, mask, output)
    case _ => Refused
  }

  /** The oblivious PRF with one server: the client ends with the hash of the secret times
      the hashed input, whatever mask and nonce were drawn. */
  lemma OprfWithServer(p: Modulus, h: ChallengeHash, curve: MaskCurve, hashFromCurve: int -> nat, hashed: int, mask: int, secret: int, nonce: int)
    requires mask % p != 0
    ensures var masked := MaskInput(p, hashed, mask);
            ClientFinish(p, h, curve, hashFromCurve, masked, mask, secret % p, Prove(p, h, masked, secret, nonce))
            == Hashed(hashFromCurve(hashed * secret % p))
  {
    hide VerifyAndGetOutput;
    hide Prove;
    hide MaskInput;
    HonestProofVerifies(p, h, MaskInput(p, hashed, mask), secret, nonce);
    MaskCancels(p, hashed, mask, secret);
  }

  /** ... and whatever server answers, an accepted true statement gives that result: a
      client that ends with a hash has a verified proof, and if the proof is true of the
      server's key the hash is that of the secret times the hashed input. */
  lemma ClientAccepts(p: Modulus, h: ChallengeHash, curve: MaskCurve, hashFromCurve: int -> nat, hashed: int, mask: int, secret: int, proof: Proof)
    requires Cong(p, proof.outputPoint, MaskInput(p, hashed, mask) * secret)
    ensures var masked := MaskInput(p, hashed, mask);
            var r := ClientFinish(p, h, curve, hashFromCurve, masked, mask, secret % p, proof);
            && (r.Hashed? <==> mask % p != 0 && VerifyAndGetOutput(p, h, proof, secret % p, masked).Success?)
            && (r.Hashed? ==> r.hash == hashFromCurve(hashed * secret % p))
  {
    hide VerifyAndGetOutput;
    hide MaskInput;
    if mask % p != 0 {
      MaskCancels(p, hashed, mask, secret);
      CongMod(p, MaskInput(p, hashed, mask) * secret);
      CongScale(p, proof.outputPoint, MaskInput(p, hashed, mask) * secret % p, Inv(p, mask));
    }
  }

  /** When unmasking works: for every mask but those that are zero modulo the order. */
  lemma UnmaskOutcome(p: Modulus, curve: MaskCurve, hashFromCurve: int -> nat, mask: int, point: int)
    ensures Unmask(p, curve, hashFromCurve, mask, point).Hashed? <==> mask % p != 0
    ensures Unmask(p, curve, hashFromCurve, mask, point).Panicked? <==> mask % p == 0 && curve == BabyJubJub
  {
  }
}
