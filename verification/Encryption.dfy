/** ElGamal encryption of 24-byte messages on a curve, with Koblitz's mapping of
    messages to points (network/crates/cryptography/src/encryption.rs).

    The curve is a parameter: which coordinates y have a point in the subgroup, and
    the coordinate y of a point. Points are exponents, as everywhere.
 */
module Encryption {
  import opened Field
  import opened Polynomial
  import opened Dleq
  import opened Reconstruct

  type Byte = x: nat | x < 256

  /** The modulus of the field the curve is defined over. */
  const BASE_MODULUS: nat := 0x30644e72e131a029b85045b68181585d2833e84879b9709143e1f593f0000001

  const TWO_192: nat := 0x1000000000000000000000000000000000000000000000000

  /** The largest counter tried, the largest 64-bit number shifted right by one. */
  const MAX_COUNTER: nat := 0x7FFFFFFFFFFFFFFF

  /** Coordinates are reduced modulo BASE_MODULUS before they get here. */
  datatype CurveModel = CurveModel(pointFromY: (nat, bool) -> Option<int>, yOf: int -> nat)

  /** A point made from a coordinate is a point of the subgroup with that coordinate. */
  ghost predicate CurveOk(p: Modulus, curve: CurveModel) {
    (forall y, sign :: HasY(p, curve, y, sign)) && forall e :: curve.yOf(e) < BASE_MODULUS
  }

  predicate HasY(p: Modulus, curve: CurveModel, y: nat, sign: bool) {
    var point := curve.pointFromY(y, sign);
    point.Some? ==> 0 <= point.value < p && curve.yOf(point.value) == y
  }

  // ---------- bytes ----------

  /** The number that a big-endian byte string denotes. */
  function Value(b: seq<Byte>): nat {
    if b == [] then 0 else Value(b[..|b| - 1]) * 256 + b[|b| - 1]
  }

  function Power256(n: nat): (r: nat)
    ensures r >= 1
  {
    if n == 0 then 1 else 256 * Power256(n - 1)
  }

  /** Big-endian bytes without leading zeros; zero is one byte. */
  function ToBytes(n: nat): (b: seq<Byte>)
    ensures Value(b) == n && |b| >= 1
  {
    if n < 256 then [n]
    else
      var b := ToBytes(n / 256) + [n % 256];
      assert b[..|b| - 1] == ToBytes(n / 256);
      b
  }

  function Zeros(n: nat): (b: seq<Byte>)
    ensures |b| == n
  {
    seq(n, _ => 0)
  }

  lemma {:induction false} ValueBound(b: seq<Byte>)
    ensures Value(b) < Power256(|b|)
  {
    if b != [] {
      ValueBound(b[..|b| - 1]);
    }
  }

  lemma {:induction false} ValueConcat(a: seq<Byte>, b: seq<Byte>)
    ensures Value(a + b) == Value(a) * Power256(|b|) + Value(b)
    decreases |b|
  {
    if b == [] {
      assert a + b == a;
    } else {
      var n := |b| - 1;
      ValueConcat(a, b[..n]);
      assert (a + b)[..|a + b| - 1] == a + b[..n];
      Regroup(Value(a), Power256(n), Value(b[..n]), b[n]);
    }
  }

  lemma Regroup(a: nat, w: nat, v: nat, x: nat)
    ensures (a * w + v) * 256 + x == a * (256 * w) + (v * 256 + x)
  {
  }

  lemma {:induction false} ZerosValue(n: nat)
    ensures Value(Zeros(n)) == 0
  {
    if n > 0 {
      ZerosValue(n - 1);
      assert Zeros(n)[..n - 1] == Zeros(n - 1);
    }
  }

  lemma SameDigit(h: int, l: int, h': int, l': int)
    requires h * 256 + l == h' * 256 + l' && 0 <= l < 256 && 0 <= l' < 256
    ensures h == h' && l == l'
  {
  }

  /** Different byte strings of the same length denote different numbers. */
  lemma {:induction false} ValueInjective(a: seq<Byte>, b: seq<Byte>)
    requires |a| == |b| && Value(a) == Value(b)
    ensures a == b
  {
    if a != [] {
      var n := |a| - 1;
      SameDigit(Value(a[..n]), a[n], Value(b[..n]), b[n]);
      ValueInjective(a[..n], b[..n]);
      assert a == a[..n] + [a[n]] && b == b[..n] + [b[n]];
    }
  }

  lemma {:induction false} ToBytesLength(n: nat, k: nat)
    requires n < Power256(k) && k >= 1
    ensures |ToBytes(n)| <= k
    decreases k
  {
    if n >= 256 {
      assert n < 256 * Power256(k - 1);
      ToBytesLength(n / 256, k - 1);
    }
  }

  lemma Powers()
    ensures Power256(24) == TWO_192 && Power256(32) == 0x10000000000000000000000000000000000000000000000000000000000000000
  {
    assert Power256(4) == 0x100000000;
    assert Power256(8) == 0x10000000000000000;
    assert Power256(12) == 0x1000000000000000000000000;
    assert Power256(16) == 0x100000000000000000000000000000000;
    assert Power256(20) == 0x10000000000000000000000000000000000000000;
    assert Power256(24) == 0x1000000000000000000000000000000000000000000000000;
    assert Power256(28) == 0x100000000000000000000000000000000000000000000000000000000;
  }

  /** Big-endian bytes padded with zeros to a fixed length. */
  function FixedBytes(n: nat, k: nat): (b: seq<Byte>)
    requires k >= 1 && n < Power256(k)
    ensures |b| == k && Value(b) == n
  {
    ToBytesLength(n, k);
    var digits := ToBytes(n);
    ZerosValue(k - |digits|);
    ValueConcat(Zeros(k - |digits|), digits);
    Zeros(k - |digits|) + digits
  }

  lemma SmallEnough(curve: CurveModel, p: Modulus, e: int)
    requires CurveOk(p, curve)
    ensures curve.yOf(e) < Power256(32)
  {
    hide Power256;
    Powers();
  }

  lemma CounterFits(acc: nat)
    requires acc <= MAX_COUNTER
    ensures acc < Power256(8)
  {
    assert Power256(4) == 0x100000000;
  }

  // ---------- messages and points ----------

  /** The number whose coordinate is tried: the counter, then the message. */
  function Candidate(msg: seq<Byte>, acc: nat): nat
    requires acc <= MAX_COUNTER
  {
    CounterFits(acc);
    Value(FixedBytes(acc, 8) + msg)
  }

  function Tried(curve: CurveModel, sign: seq<Byte> -> bool, msg: seq<Byte>, acc: nat): Option<int>
    requires acc <= MAX_COUNTER
  {
    curve.pointFromY(Candidate(msg, acc) % BASE_MODULUS, sign(msg))
  }

  /** The mapping stops at this counter. */
  ghost predicate StopsAt(curve: CurveModel, sign: seq<Byte> -> bool, msg: seq<Byte>, acc: nat) {
    acc <= MAX_COUNTER && Tried(curve, sign, msg, acc).Some? && forall b :: 0 <= b < acc ==> Tried(curve, sign, msg, b).None?
  }

  /** `koblitz_map`. */
  method KoblitzMap(curve: CurveModel, sign: seq<Byte> -> bool, msg: seq<Byte>) returns (r: Result<int>, ghost at: nat)
    ensures r.Success? ==> StopsAt(curve, sign, msg, at) && r.value == Tried(curve, sign, msg, at).value
    ensures !r.Success? ==> r == InvalidInput && forall b :: 0 <= b <= MAX_COUNTER ==> Tried(curve, sign, msg, b).None?
  {
    hide Value;
    hide Power256;
    hide FixedBytes;
    var acc := 0;
    while acc <= MAX_COUNTER
      invariant acc <= MAX_COUNTER + 1
      invariant forall b :: 0 <= b < acc ==> Tried(curve, sign, msg, b).None?
    {
      CounterFits(acc);
      var y := FixedBytes(acc, 8) + msg;
      var point := curve.pointFromY(Value(y) % BASE_MODULUS, sign(msg));
      if point.Some? {
        return Success(point.value), acc;
      }
      acc := acc + 1;
    }
    return InvalidInput, acc;
  }

  /** `reverse_koblitz`: the identity has no coordinates. */
  function ReverseKoblitz(p: Modulus, curve: CurveModel, point: int): Result<seq<Byte>>
    requires CurveOk(p, curve)
  {
    SmallEnough(curve, p, point);
    if point == 0 then InvalidInput else Success(FixedBytes(curve.yOf(point), 32)[8..32])
  }

  /** The last 24 bytes of a 32-byte string are its number modulo 2^192. */
  lemma LowBytes(b: seq<Byte>)
    requires |b| == 32
    ensures Value(b[8..32]) == Value(b) % TWO_192
  {
    hide Value;
    hide Power256;
    assert b == b[..8] + b[8..32];
    ValueConcat(b[..8], b[8..32]);
    ValueBound(b[8..32]);
    Powers();
    LowPart(Value(b[..8]), TWO_192, Value(b[8..32]));
  }

  lemma LowPart(h: nat, w: nat, l: nat)
    requires l < w
    ensures (h * w + l) % w == l
  {
    ModUnique(w, h * w + l, h, l);
  }

  lemma CandidateIs(msg: seq<Byte>, acc: nat)
    requires |msg| == 24 && acc <= MAX_COUNTER
    ensures Candidate(msg, acc) == acc * TWO_192 + Value(msg) && Value(msg) < TWO_192
  {
    hide Value;
    hide Power256;
    CounterFits(acc);
    ValueConcat(FixedBytes(acc, 8), msg);
    ValueBound(msg);
    Powers();
  }

  /** Reduction modulo the field keeps the low 192 bits exactly when it does nothing:
      the modulus and its double are no multiples of 2^192. */
  lemma ReductionKeepsLow(acc: nat, m: nat)
    requires acc <= MAX_COUNTER && m < TWO_192
    ensures var v := acc * TWO_192 + m;
            v % BASE_MODULUS % TWO_192 == m <==> v < BASE_MODULUS
  {
    var v := acc * TWO_192 + m;
    assert v < 3 * BASE_MODULUS;
    if v < BASE_MODULUS {
      LowPart(acc, TWO_192, m);
    } else if v < 2 * BASE_MODULUS {
      ModUnique(BASE_MODULUS, v, 1, v - BASE_MODULUS);
      NotLow(acc, m, BASE_MODULUS);
    } else {
      ModUnique(BASE_MODULUS, v, 2, v - 2 * BASE_MODULUS);
      NotLow(acc, m, 2 * BASE_MODULUS);
    }
  }

  lemma LowMultiple(acc: int, m: int, k: int)
    requires (acc * TWO_192 + m - k) % TWO_192 == m
    ensures k % TWO_192 == 0
  {
    var d := acc * TWO_192 + m - k;
    assert k == (acc - d / TWO_192) * TWO_192;
    ModUnique(TWO_192, k, acc - d / TWO_192, 0);
  }

  lemma NotLow(acc: nat, m: nat, k: nat)
    requires k % TWO_192 != 0
    ensures (acc * TWO_192 + m - k) % TWO_192 != m
  {
    if (acc * TWO_192 + m - k) % TWO_192 == m {
      LowMultiple(acc, m, k);
    }
  }

  /** The point that a message is mapped to gives the message back exactly when the
      candidate was below the modulus and the point is not the identity. */
  lemma KoblitzRoundTrip(p: Modulus, curve: CurveModel, sign: seq<Byte> -> bool, msg: seq<Byte>, acc: nat)
    requires |msg| == 24 && CurveOk(p, curve) && StopsAt(curve, sign, msg, acc)
    ensures var point := Tried(curve, sign, msg, acc).value;
            && 0 <= point < p
            && (ReverseKoblitz(p, curve, point) == Success(msg)
                <==> point != 0 && acc * TWO_192 + Value(msg) < BASE_MODULUS)
  {
    hide Value;
    hide Power256;
    hide FixedBytes;
    var y := Candidate(msg, acc) % BASE_MODULUS;
    var point := Tried(curve, sign, msg, acc).value;
    assert HasY(p, curve, y, sign(msg));
    CandidateIs(msg, acc);
    SmallEnough(curve, p, point);
    var b := FixedBytes(curve.yOf(point), 32);
    LowBytes(b);
    ReductionKeepsLow(acc, Value(msg));
    if Value(b[8..32]) == Value(msg) {
      ValueInjective(b[8..32], msg);
    }
  }

  /** The coordinate that the message has with this counter. */
  function Coordinate(msg: seq<Byte>, acc: nat): nat {
    (acc * TWO_192 + Value(msg)) % BASE_MODULUS
  }

  /** Which point it is: the one with the coordinate and the sign that the message gives,
      for the first counter that has one. */
  lemma MappedFrom(curve: CurveModel, sign: seq<Byte> -> bool, msg: seq<Byte>, acc: nat)
    requires |msg| == 24 && acc <= MAX_COUNTER
    ensures Tried(curve, sign, msg, acc) == curve.pointFromY(Coordinate(msg, acc), sign(msg))
    ensures StopsAt(curve, sign, msg, acc) <==>
            && curve.pointFromY(Coordinate(msg, acc), sign(msg)).Some?
            && forall b :: 0 <= b < acc ==> curve.pointFromY(Coordinate(msg, b), sign(msg)).None?
  {
    hide Value;
    hide Candidate;
    forall b: nat | b <= acc
      ensures Tried(curve, sign, msg, b) == curve.pointFromY(Coordinate(msg, b), sign(msg))
    {
      CandidateIs(msg, b);
    }
    hide Tried;
    hide Coordinate;
  }

  /** The counter at which the candidates start to pass the modulus. */
  lemma SafeCounter(msg: seq<Byte>, acc: nat)
    requires |msg| == 24 && acc < 0x30644E72E131A029
    ensures acc * TWO_192 + Value(msg) < BASE_MODULUS
  {
    hide Value;
    hide Power256;
    ValueBound(msg);
    Powers();
  }

  /** The message that denotes the number one. */
  function One(): (msg: seq<Byte>)
    ensures |msg| == 24 && Value(msg) == 1
  {
    ZerosValue(23);
    var msg: seq<Byte> := Zeros(23) + [1];
    assert msg[..|msg| - 1] == Zeros(23);
    msg
  }

  /** On a curve whose identity has the coordinate 1, the message one is mapped to the
      identity at the first attempt and does not come back. */
  lemma IdentityMessage(p: Modulus, curve: CurveModel, sign: seq<Byte> -> bool)
    requires CurveOk(p, curve) && curve.pointFromY(1, true) == curve.pointFromY(1, false) == Some(0)
    ensures StopsAt(curve, sign, One(), 0) && Tried(curve, sign, One(), 0) == Some(0)
    ensures ReverseKoblitz(p, curve, 0) == InvalidInput
  {
    CandidateIs(One(), 0);
    assert Candidate(One(), 0) % BASE_MODULUS == 1;
    assert sign(One()) == true || sign(One()) == false;
  }

  // ---------- encryption ----------

  datatype Ciphertext = Ciphertext(encryptedMsg: int, ephemeralDhPubkey: int)

  /** `encrypt_elgamal` with the ephemeral secret as an argument. */
  method EncryptElgamal(p: Modulus, curve: CurveModel, sign: seq<Byte> -> bool, msg: seq<Byte>, recipientPubkey: int, ephemSecret: int)
    returns (r: Result<Ciphertext>, ghost at: nat)
    ensures r.Success? ==> StopsAt(curve, sign, msg, at)
    ensures r.Success? ==> r.value == Encrypted(p, Tried(curve, sign, msg, at).value, recipientPubkey, ephemSecret)
    ensures !r.Success? ==> r == InvalidInput && forall b :: 0 <= b <= MAX_COUNTER ==> Tried(curve, sign, msg, b).None?
  {
    hide Tried;
    var mapped;
    mapped, at := KoblitzMap(curve, sign, msg);
    if !mapped.Success? {
      return InvalidInput, at;
    }
    var sharedSecretDh := recipientPubkey * ephemSecret % p;
    return Success(Ciphertext((sharedSecretDh + mapped.value) % p, ephemSecret % p)), at;
  }

  function Encrypted(p: Modulus, point: int, recipientPubkey: int, ephemSecret: int): Ciphertext {
    Ciphertext((recipientPubkey * ephemSecret % p + point) % p, ephemSecret % p)
  }

  /** `decrypt_elgamal_from_shared_secret`. */
  function Decrypt(p: Modulus, curve: CurveModel, c: Ciphertext, sharedSecret: int): Result<seq<Byte>>
    requires CurveOk(p, curve)
  {
    ReverseKoblitz(p, curve, (c.encryptedMsg + -sharedSecret % p) % p)
  }

  /** Subtracting the shared secret gives the message's point back. */
  lemma SecretCancels(p: Modulus, point: int, s: int)
    requires 0 <= point < p
    ensures ((s % p + point) % p + -(s % p) % p) % p == point
  {
    var u := s % p;
    CongMod(p, u + point);
    CongMod(p, -u);
    CongAdd(p, (u + point) % p, u + point, -u % p, -u);
    ModUnique(p, point, 0, point);
  }

  /** Anyone who holds the recipient's secret, or has it multiply the ephemeral key,
      knows the shared secret. */
  lemma SharedSecret(p: Modulus, secret: int, ephemSecret: int)
    ensures ephemSecret % p * secret % p == secret % p * ephemSecret % p
  {
    CongMod(p, ephemSecret);
    CongScale(p, ephemSecret % p, ephemSecret, secret);
    CongMod(p, secret);
    CongScale(p, secret % p, secret, ephemSecret);
  }

  /** The whole pipeline: a message encrypted to the group key is decrypted with what
      any sufficient set of members makes of the ephemeral key in the ciphertext,
      exactly when its candidate was below the modulus and its point is not the
      identity. */
  lemma ElGamalRoundTrip(p: Modulus, curve: CurveModel, sign: seq<Byte> -> bool, msg: seq<Byte>, acc: nat, ephemSecret: int,
                         cipher: Ciphertext, c: seq<int>, answers: seq<int>, indices: seq<int>)
    requires |msg| == 24 && CurveOk(p, curve) && StopsAt(curve, sign, msg, acc)
    requires Indices(indices) && Distinct(indices) && |c| <= |indices| == |answers|
    requires cipher == Encrypted(p, Tried(curve, sign, msg, acc).value, Eval(p, c, 0) % p, ephemSecret)
    requires Answers(p, cipher.ephemeralDhPubkey, c, answers, indices)
    ensures var point := Tried(curve, sign, msg, acc).value;
            var shared := Combined(p, answers, indices, indices) % p;
            Decrypt(p, curve, cipher, shared) == Success(msg) <==> point != 0 && acc * TWO_192 + Value(msg) < BASE_MODULUS
  {
    hide Value;
    hide Combined;
    hide Eval;
    hide ReverseKoblitz;
    hide Tried;
    hide Distinct;
    var point := Tried(curve, sign, msg, acc).value;
    AnyoneMayAnswer(p, cipher.ephemeralDhPubkey, c, answers, indices);
    SharedSecret(p, Eval(p, c, 0), ephemSecret);
    KoblitzRoundTrip(p, curve, sign, msg, acc);
    SecretCancels(p, point, Eval(p, c, 0) % p * ephemSecret);
  }
}
