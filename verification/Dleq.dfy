/** Proofs that two points have the same discrete logarithm
    (network/crates/cryptography/src/lib.rs:109-187). The Fiat-Shamir hash is a parameter.
 */
module Dleq {
  import opened Field

  /** input, public key, output, and the two nonce commitments. */
  type ChallengeHash = (int, int, int, int, int) -> int

  datatype Result<T> = Success(value: T) | InvalidInput | InvalidProof

  datatype Proof = Proof(
    inputPoint: int,
    pubkey: int,
    outputPoint: int,
    rPub: int,
    rIn: int,
    challenge: int,
    response: int)

  function Challenge(p: Modulus, h: ChallengeHash, input: int, pubkey: int, output: int, rPub: int, rIn: int): (c: int)
    ensures 0 <= c < p
  {
    h(input, pubkey, output, rPub, rIn) % p
  }

  /** `DLEQProof::new` with nonce r. */
  function Prove(p: Modulus, h: ChallengeHash, input: int, secret: int, r: int): Proof {
    var pubkey := secret % p;
    var output := input * secret % p;
    var rPub := r % p;
    var rIn := input * r % p;
    var c := Challenge(p, h, input, pubkey, output, rPub, rIn);
    Proof(input, pubkey, output, rPub, rIn, c, (r - c * secret) % p)
  }

  /** The commitments a verifier recomputes from a challenge and a response. */
  function RecomputedPub(p: Modulus, pubkey: int, challenge: int, response: int): int {
    (response + pubkey * challenge) % p
  }

  function RecomputedIn(p: Modulus, input: int, output: int, challenge: int, response: int): int {
    (input * response + output * challenge) % p
  }

  /** `verify_and_get_output`. */
  function VerifyAndGetOutput(p: Modulus, h: ChallengeHash, proof: Proof, pubkey: int, point: int): (r: Result<int>)
    ensures r.Success? ==> proof.inputPoint == point && proof.pubkey == pubkey && r.value == proof.outputPoint
    ensures r.Success? || r.InvalidProof?
  {
    var a := RecomputedPub(p, proof.pubkey, proof.challenge, proof.response);
    var b := RecomputedIn(p, proof.inputPoint, proof.outputPoint, proof.challenge, proof.response);
    var c := Challenge(p, h, point, proof.pubkey, proof.outputPoint, a, b);
    if c == proof.challenge && proof.inputPoint == point && proof.pubkey == pubkey then Success(proof.outputPoint)
    else InvalidProof
  }

  lemma CancelNonce(p: Modulus, k: int, r: int, c: int, x: int, kx: int)
    requires Cong(p, kx, k * x)
    ensures Cong(p, k * ((r - c * x) % p) + kx * c, k * r)
  {
    CongMod(p, r - c * x);
    CongScale(p, (r - c * x) % p, r - c * x, k);
    CongScale(p, kx, k * x, c);
    CongAdd(p, k * ((r - c * x) % p), k * (r - c * x), kx * c, k * x * c);
    assert (r - c * x) * k + k * x * c == k * r by {
      Distribute(r, c * x, k);
      Associate(k, x, c);
    }
  }

  /** What an honest proof commits to: from its challenge and response the verifier
      recomputes the nonce and the nonce times the input, which the proof also carries. */
  lemma HonestCommitments(p: Modulus, h: ChallengeHash, input: int, secret: int, r: int)
    ensures var proof := Prove(p, h, input, secret, r);
            && RecomputedPub(p, proof.pubkey, proof.challenge, proof.response) == proof.rPub == r % p
            && RecomputedIn(p, proof.inputPoint, proof.outputPoint, proof.challenge, proof.response) == proof.rIn == input * r % p
            && proof.challenge == h(input, secret % p, input * secret % p, r % p, input * r % p) % p
  {
    var proof := Prove(p, h, input, secret, r);
    CongMod(p, secret);
    CongMod(p, input * secret);
    CancelNonce(p, 1, r, proof.challenge, secret, secret % p);
    CancelNonce(p, input, r, proof.challenge, secret, input * secret % p);
  }

  /** Completeness: an honest proof verifies under the prover's key and yields x times the input. */
  lemma HonestProofVerifies(p: Modulus, h: ChallengeHash, input: int, secret: int, r: int)
    ensures VerifyAndGetOutput(p, h, Prove(p, h, input, secret, r), secret % p, input) == Success(input * secret % p)
  {
    HonestCommitments(p, h, input, secret, r);
  }

  /** Two transcripts with the same commitments. */
  ghost predicate SameCommitments(p: Modulus, input: int, pubkey: int, output: int, c: int, s: int, c': int, s': int) {
    && RecomputedPub(p, pubkey, c, s) == RecomputedPub(p, pubkey, c', s')
    && RecomputedIn(p, input, output, c, s) == RecomputedIn(p, input, output, c', s')
  }

  lemma TranscriptDifference(p: Modulus, k: int, q: int, c: int, s: int, c': int, s': int)
    requires Cong(p, k * s + q * c, k * s' + q * c')
    ensures Cong(p, k * (s - s'), q * (c' - c))
  {
    CongAdd(p, k * s + q * c, k * s' + q * c', k * s' + q * c, k * s' + q * c);
    Distribute(s, s', k);
    Distribute(c', c, q);
  }

  /** Special soundness: two transcripts that share commitments but not challenges
      determine the scalar, and it multiplies both the base point and the input. */
  lemma TranscriptsDetermineScalar(p: Modulus, input: int, pubkey: int, output: int, c: int, s: int, c': int, s': int)
    requires SameCommitments(p, input, pubkey, output, c, s, c', s') && (c' - c) % p != 0
    ensures var x := (s - s') * Inv(p, c' - c);
            Cong(p, x, pubkey) && Cong(p, input * x, output)
  {
    var d, u, i := c' - c, s - s', Inv(p, c' - c);
    TranscriptDifference(p, 1, pubkey, c, s, c', s');
    TranscriptDifference(p, input, output, c, s, c', s');
    Quotient(p, u, pubkey, d, i);
    Quotient(p, input * u, output, d, i);
    Associate(input, u, i);
  }

  lemma Quotient(p: Modulus, u: int, q: int, d: int, i: int)
    requires Cong(p, u, q * d) && (d * i) % p == 1
    ensures Cong(p, u * i, q)
  {
    ModUnique(p, 1, 0, 1);
    CongScale(p, u, q * d, i);
    CongScale(p, d * i, 1, q);
    Associate(q, d, i);
  }

  /** For a false statement, any pair of commitments is consistent with at most one challenge. */
  lemma FalseStatementFixesChallenge(p: Modulus, input: int, pubkey: int, output: int, c: int, s: int, c': int, s': int)
    requires !Cong(p, input * pubkey, output)
    requires SameCommitments(p, input, pubkey, output, c, s, c', s')
    ensures Cong(p, c, c')
  {
    if (c' - c) % p != 0 {
      TranscriptsDetermineScalar(p, input, pubkey, output, c, s, c', s');
      var x := (s - s') * Inv(p, c' - c);
      CongScale(p, x, pubkey, input);
      assert false;
    } else {
      ModUnique(p, 0, 0, 0);
      CongAdd(p, c' - c, 0, c, c);
    }
  }

  /** What acceptance of a false statement takes: the hash of the recomputed
      commitments hit the one challenge that fits them. */
  lemma AcceptedFalseStatement(p: Modulus, h: ChallengeHash, proof: Proof, pubkey: int, point: int, c': int, s': int)
    requires VerifyAndGetOutput(p, h, proof, pubkey, point).Success? && !Cong(p, point * pubkey, proof.outputPoint)
    requires SameCommitments(p, point, pubkey, proof.outputPoint, proof.challenge, proof.response, c', s')
    ensures var a := RecomputedPub(p, pubkey, c', s');
            var b := RecomputedIn(p, point, proof.outputPoint, c', s');
            h(point, pubkey, proof.outputPoint, a, b) % p == c' % p
  {
    FalseStatementFixesChallenge(p, point, pubkey, proof.outputPoint, proof.challenge, proof.response, c', s');
    var e := h(point, pubkey, proof.outputPoint, RecomputedPub(p, pubkey, c', s'), RecomputedIn(p, point, proof.outputPoint, c', s'));
    CongMod(p, e);
  }
}
