/** The relay collects the members' answers to one request and reconstructs the
    network's answer (network/crates/actors/src/app_state_actor.rs).

    The request is in the cache, its batch entry does not expire, and storing proofs
    succeeds.
 */
module RelayCollection {
  import opened Field
  import opened Polynomial
  import opened Dleq
  import opened Reconstruct

  type Peer = nat

  datatype TxState = Requested | ConstructedProof | Verified

  /** One result: the index the member claims, and its proven output. */
  datatype Stored = Stored(idx: int, output: int)

  datatype Collection = Collection(
    numNodes: nat,
    mulResults: seq<Stored>,
    reconstructedPoint: Option<int>,
    status: TxState,
    batched: bool,
    panicked: bool)

  /** The request: its point, the threshold, and the public key share of each member. */
  datatype Request = Request(p: Modulus, h: ChallengeHash, point: int, t: nat, pubkeys: map<Peer, int>)

  datatype Arrival = Arrival(idx: int, peer: Peer, proof: Proof)

  function IndicesOf(results: seq<Stored>): (s: seq<int>)
    ensures |s| == |results| && forall k :: 0 <= k < |s| ==> s[k] == results[k].idx
  {
    seq(|results|, k requires 0 <= k < |results| => results[k].idx)
  }

  function OutputsOf(results: seq<Stored>): (s: seq<int>)
    ensures |s| == |results| && forall k :: 0 <= k < |s| ==> s[k] == results[k].output
  {
    seq(|results|, k requires 0 <= k < |results| => results[k].output)
  }

  /** The proof verifies under the key share of the peer that sent it. */
  predicate Valid(r: Request, a: Arrival) {
    a.peer in r.pubkeys && VerifyAndGetOutput(r.p, r.h, a.proof, r.pubkeys[a.peer], r.point).Success?
  }

  /** What `threshold_unchecked` makes of all the stored results; None is its panic. */
  function Reconstructed(r: Request, results: seq<Stored>): (point: Option<int>)
    requires Words(IndicesOf(results))
    ensures point.None? <==> 0 in IndicesOf(results)
  {
    if 0 in IndicesOf(results) then None
    else
      assert Indices(IndicesOf(results));
      Some(Combined(r.p, OutputsOf(results), IndicesOf(results), IndicesOf(results)) % r.p)
  }

  /** One arrival. An actor that has panicked takes no more. */
  function Receive(r: Request, c: Collection, a: Arrival): Collection
    requires Words(IndicesOf(c.mulResults)) && 0 <= a.idx < TWO_32
  {
    if c.panicked || !Valid(r, a) then c
    else
      var c1 := c.(numNodes := c.numNodes + 1, mulResults := c.mulResults + [Stored(a.idx, a.proof.outputPoint)]);
      if c.batched then c1.(status := Verified)
      else if c1.numNodes >= r.t then
        assert Words(IndicesOf(c1.mulResults));
        var point := Reconstructed(r, c1.mulResults);
        if point.None? then c1.(status := ConstructedProof, panicked := true)
        else c1.(reconstructedPoint := point, status := Verified, batched := true)
      else c1.(status := ConstructedProof)
  }

  /** The relay's record of the request, updated in place. */
  class RelayRecord {
    const request: Request
    var numNodes: nat
    var mulResults: seq<Stored>
    var reconstructedPoint: Option<int>
    var status: TxState
    var batched: bool
    var panicked: bool

    function View(): Collection
      reads this
    {
      Collection(numNodes, mulResults, reconstructedPoint, status, batched, panicked)
    }

    constructor (r: Request)
      ensures View() == Collection(0, [], None, Requested, false, false) && request == r
    {
      request := r;
      numNodes, mulResults, reconstructedPoint := 0, [], None;
      status, batched, panicked := Requested, false, false;
    }

    /** `process_verification`. */
    method ProcessVerification()
      requires Words(IndicesOf(mulResults))
      modifies this`reconstructedPoint, this`status, this`batched, this`panicked
      ensures View() == if numNodes < request.t then old(View())
                        else if 0 in IndicesOf(mulResults) then old(View()).(panicked := true)
                        else old(View()).(reconstructedPoint := Reconstructed(request, mulResults), status := Verified, batched := true)
    {
      hide Combined;
      if numNodes >= request.t {
        var outputs, indices := OutputsOf(mulResults), IndicesOf(mulResults);
        var point := ThresholdUnchecked(request.p, outputs, indices);
        assert outputs[..|outputs|] == outputs && indices[..|indices|] == indices;
        if point.None? {
          panicked := true;
          return;
        }
        reconstructedPoint := point;
        status := Verified;
        if !batched {
          batched := true;
        }
      }
    }

    /** `process_received_proof`. */
    method ProcessReceivedProof(a: Arrival)
      requires Words(IndicesOf(mulResults)) && 0 <= a.idx < TWO_32
      modifies this
      ensures View() == Receive(request, old(View()), a)
    {
      hide Combined;
      hide VerifyAndGetOutput;
      if panicked || a.peer !in request.pubkeys {
        return;
      }
      var result := VerifyAndGetOutput(request.p, request.h, a.proof, request.pubkeys[a.peer], request.point);
      if result.Success? {
        numNodes := numNodes + 1;
        mulResults := mulResults + [Stored(a.idx, result.value)];
        if batched {
          status := Verified;
          return;
        }
        status := ConstructedProof;
        ProcessVerification();
      }
    }
  }

  // ---------- every arrival order ----------

  predicate AllWords(arrivals: seq<Arrival>) {
    forall k :: 0 <= k < |arrivals| ==> 0 <= arrivals[k].idx < TWO_32
  }

  function WithArrival(r: Request, s: seq<Stored>, a: Arrival): seq<Stored> {
    if Valid(r, a) then s + [Stored(a.idx, a.proof.outputPoint)] else s
  }

  /** The results of the valid arrivals, in order. */
  function ValidResults(r: Request, arrivals: seq<Arrival>): (s: seq<Stored>)
    requires AllWords(arrivals)
    ensures Words(IndicesOf(s)) && |s| <= |arrivals|
  {
    if arrivals == [] then []
    else WithArrival(r, ValidResults(r, arrivals[..|arrivals| - 1]), arrivals[|arrivals| - 1])
  }

  function After(r: Request, arrivals: seq<Arrival>): (c: Collection)
    requires AllWords(arrivals)
    ensures Words(IndicesOf(c.mulResults))
  {
    if arrivals == [] then Collection(0, [], None, Requested, false, false)
    else Receive(r, After(r, arrivals[..|arrivals| - 1]), arrivals[|arrivals| - 1])
  }

  /** How many valid results it takes: at least one, even for threshold zero. */
  function Needed(r: Request): nat {
    if r.t == 0 then 1 else r.t
  }

  /** The results that decide the point: the first that suffice. */
  function Deciding(r: Request, s: seq<Stored>): (d: seq<Stored>)
    requires |s| >= Needed(r) && Words(IndicesOf(s))
    ensures Words(IndicesOf(d))
  {
    s[..Needed(r)]
  }

  /** The state when s are the valid results so far. As many nodes are counted as
      results are stored. The point is the reconstruction from the first results that
      sufficed. The relay panics exactly when one of those has the index zero; before
      that it stores every result. */
  ghost predicate Collected(r: Request, c: Collection, s: seq<Stored>)
    requires Words(IndicesOf(s))
  {
    var enough := |s| >= Needed(r);
    && c.numNodes == |c.mulResults|
    && (c.panicked <==> enough && 0 in IndicesOf(Deciding(r, s)))
    && c.mulResults == (if c.panicked then Deciding(r, s) else s)
    && (c.batched <==> enough && !c.panicked)
    && c.reconstructedPoint == (if enough then Reconstructed(r, Deciding(r, s)) else None)
    && c.status == (if c.batched then Verified else if s != [] then ConstructedProof else Requested)
  }

  lemma WordsAppend(s: seq<Stored>, x: Stored)
    requires Words(IndicesOf(s)) && 0 <= x.idx < TWO_32
    ensures Words(IndicesOf(s + [x]))
  {
  }

  lemma ReceiveKeeps(r: Request, c: Collection, s: seq<Stored>, a: Arrival)
    requires Words(IndicesOf(s)) && Words(IndicesOf(c.mulResults)) && Collected(r, c, s) && 0 <= a.idx < TWO_32
    ensures Words(IndicesOf(WithArrival(r, s, a))) && Collected(r, Receive(r, c, a), WithArrival(r, s, a))
  {
    hide Reconstructed;
    hide Valid;
    hide Words;
    var n, s' := Needed(r), WithArrival(r, s, a);
    WordsAppend(s, Stored(a.idx, a.proof.outputPoint));
    assert |s| >= n ==> s'[..n] == s[..n];
    assert |s'| == n ==> s'[..n] == s';
  }

  /** Over every order of valid and invalid proofs. */
  lemma {:induction false} CollectedAlways(r: Request, arrivals: seq<Arrival>)
    requires AllWords(arrivals)
    ensures Collected(r, After(r, arrivals), ValidResults(r, arrivals))
  {
    hide Receive;
    hide WithArrival;
    hide Reconstructed;
    if arrivals != [] {
      var before, last := arrivals[..|arrivals| - 1], arrivals[|arrivals| - 1];
      CollectedAlways(r, before);
      ReceiveKeeps(r, After(r, before), ValidResults(r, before), last);
    }
  }

  /** What one more arrival does to the stored results: a result is added exactly when the
      relay has not panicked and the proof verifies under the key share of the member
      that sent it; and then it is the index that the member claims and the output that
      the proof proves. */
  lemma StoredWhenProven(r: Request, arrivals: seq<Arrival>, a: Arrival)
    requires AllWords(arrivals) && 0 <= a.idx < TWO_32
    ensures AllWords(arrivals + [a])
    ensures var before, after := After(r, arrivals), After(r, arrivals + [a]);
            if !before.panicked && a.peer in r.pubkeys && VerifyAndGetOutput(r.p, r.h, a.proof, r.pubkeys[a.peer], r.point).Success?
            then after.mulResults == before.mulResults + [Stored(a.idx, a.proof.outputPoint)]
            else after == before
  {
    hide Reconstructed;
    hide VerifyAndGetOutput;
    assert (arrivals + [a])[..|arrivals + [a]| - 1] == arrivals;
  }

  /** When the relay panics: exactly when one of the first results that suffice came
      with the index zero. */
  lemma PanicsExactly(r: Request, arrivals: seq<Arrival>)
    requires AllWords(arrivals)
    ensures var s := ValidResults(r, arrivals);
            After(r, arrivals).panicked <==> |s| >= Needed(r) && 0 in IndicesOf(s[..Needed(r)])
  {
    hide Reconstructed;
    CollectedAlways(r, arrivals);
  }

  lemma {:induction false} ResultsExtend(r: Request, first: seq<Arrival>, more: seq<Arrival>)
    requires AllWords(first) && AllWords(more)
    ensures AllWords(first + more) && ValidResults(r, first) <= ValidResults(r, first + more)
    decreases |more|
  {
    hide Valid;
    if more == [] {
      assert first + more == first;
    } else {
      var n := |more| - 1;
      ResultsExtend(r, first, more[..n]);
      assert (first + more)[..|first + more| - 1] == first + more[..n];
      assert (first + more)[|first + more| - 1] == more[n];
    }
  }

  /** Once there is a point, no later arrival changes it. */
  lemma PointIsFinal(r: Request, first: seq<Arrival>, more: seq<Arrival>)
    requires AllWords(first) && AllWords(more) && After(r, first).reconstructedPoint.Some?
    ensures AllWords(first + more) && After(r, first + more).reconstructedPoint == After(r, first).reconstructedPoint
  {
    hide Reconstructed;
    CollectedAlways(r, first);
    ResultsExtend(r, first, more);
    CollectedAlways(r, first + more);
    var s, s', n := ValidResults(r, first), ValidResults(r, first + more), Needed(r);
    assert s'[..n] == s[..n];
  }

  /** Every stored result is the requested point times the member's share of c. */
  ghost predicate Truthful(r: Request, c: seq<int>, results: seq<Stored>) {
    forall k :: 0 <= k < |results| ==> Cong(r.p, results[k].output, r.point * Horner(c, results[k].idx))
  }

  /** The relay's promise: whatever the order, once enough members with distinct
      positive indices have answered, the stored point is the secret times the
      requested point; before that there is none. */
  lemma CollectionAnswers(r: Request, c: seq<int>, arrivals: seq<Arrival>)
    requires AllWords(arrivals) && Truthful(r, c, ValidResults(r, arrivals)) && |c| <= Needed(r)
    requires Distinct(IndicesOf(ValidResults(r, arrivals))) && 0 !in IndicesOf(ValidResults(r, arrivals))
    ensures After(r, arrivals).reconstructedPoint
            == if |ValidResults(r, arrivals)| >= Needed(r) then Some(r.point * Eval(r.p, c, 0) % r.p) else None
  {
    hide Reconstructed;
    hide Eval;
    hide Truthful;
    CollectedAlways(r, arrivals);
    var s := ValidResults(r, arrivals);
    if |s| >= Needed(r) {
      DecidingAnswers(r, c, s);
    }
  }

  lemma DecidingAnswers(r: Request, c: seq<int>, s: seq<Stored>)
    requires Words(IndicesOf(s)) && |s| >= Needed(r) && Truthful(r, c, s) && |c| <= Needed(r)
    requires Distinct(IndicesOf(s)) && 0 !in IndicesOf(s)
    ensures Reconstructed(r, Deciding(r, s)) == Some(r.point * Eval(r.p, c, 0) % r.p)
  {
    hide Combined;
    hide Eval;
    hide Horner;
    var n, used := Needed(r), Deciding(r, s);
    forall k | 0 <= k < n
      ensures IndicesOf(used)[k] == IndicesOf(s)[k] && used[k] == s[k] && IndicesOf(s)[k] != 0
    {
      assert IndicesOf(s)[k] in IndicesOf(s);
    }
    assert Answers(r.p, r.point, c, OutputsOf(used), IndicesOf(used));
    AnyoneMayAnswer(r.p, r.point, c, OutputsOf(used), IndicesOf(used));
  }

  lemma ScaledResidue(p: Modulus, point: int, s: int, f: int)
    requires s == f % p
    ensures Cong(p, point * s % p, point * f)
  {
    CongMod(p, f);
    CongScale(p, s, f, point);
    CongMod(p, point * s);
  }

  lemma TrueOutput(p: Modulus, point: int, c: seq<int>, idx: int)
    ensures Cong(p, point * Eval(p, c, idx) % p, point * Horner(c, idx))
  {
    hide Eval;
    hide Horner;
    hide Cong;
    EvalIsHorner(p, c, idx);
    ScaledResidue(p, point, Eval(p, c, idx), Horner(c, idx));
  }

  /** An honest member's proof is accepted, and what is stored is truthful. */
  lemma HonestArrival(r: Request, c: seq<int>, idx: int, peer: Peer, nonce: int)
    requires peer in r.pubkeys && r.pubkeys[peer] == Eval(r.p, c, idx) % r.p
    ensures var a := Arrival(idx, peer, Prove(r.p, r.h, r.point, Eval(r.p, c, idx), nonce));
            Valid(r, a) && Cong(r.p, a.proof.outputPoint, r.point * Horner(c, idx))
  {
    hide Eval;
    hide Horner;
    hide Prove;
    HonestProofVerifies(r.p, r.h, r.point, Eval(r.p, c, idx), nonce);
    TrueOutput(r.p, r.point, c, idx);
  }

  // ---------- repeated indices ----------

  /** The answers that members with these indices give for the polynomial c. */
  function TrueResults(r: Request, c: seq<int>, indices: seq<int>): (s: seq<Stored>)
    ensures |s| == |indices| && IndicesOf(s) == indices
  {
    seq(|indices|, k requires 0 <= k < |indices| => Stored(indices[k], r.point * Eval(r.p, c, indices[k]) % r.p))
  }

  lemma TrueResultsAnswer(r: Request, c: seq<int>, indices: seq<int>)
    ensures Answers(r.p, r.point, c, OutputsOf(TrueResults(r, c, indices)), indices)
  {
    hide Eval;
    forall k | 0 <= k < |indices|
      ensures Cong(r.p, OutputsOf(TrueResults(r, c, indices))[k], r.point * Horner(c, indices[k]))
    {
      TrueOutput(r.p, r.point, c, indices[k]);
    }
  }

  /** The relay does not look for repeated indices, and it matters: true answers at
      these indices give the right point for every secret polynomial with that many
      coefficients exactly when no index is repeated. */
  lemma RepeatedIndices(r: Request, indices: seq<int>)
    requires Indices(indices) && r.point % r.p != 0
    ensures (forall c: seq<int> :: |c| == |indices| ==> Reconstructed(r, TrueResults(r, c, indices)) == Some(r.point * Eval(r.p, c, 0) % r.p))
            <==> Distinct(indices)
  {
    hide Combined;
    hide Eval;
    hide Horner;
    hide Weighted;
    forall c: seq<int> | |c| == |indices|
      ensures Reconstructed(r, TrueResults(r, c, indices)) == Some(r.point * Eval(r.p, c, 0) % r.p)
              <==> Cong(r.p, Weighted(r.p, indices, indices, c), Horner(c, 0))
    {
      TrueResultsAnswer(r, c, indices);
      CombinedIsWeighted(r.p, r.point, c, OutputsOf(TrueResults(r, c, indices)), indices, indices);
      EvalIsHorner(r.p, c, 0);
      SamePoint(r.p, r.point, Weighted(r.p, indices, indices, c), Horner(c, 0),
                Combined(r.p, OutputsOf(TrueResults(r, c, indices)), indices, indices));
    }
    InterpolationExact(r.p, indices);
  }

  lemma SamePoint(p: Modulus, x: int, a: int, b: int, combined: int)
    requires x % p != 0 && Cong(p, combined, x * a)
    ensures combined % p == x * (b % p) % p <==> Cong(p, a, b)
  {
    CongMod(p, b);
    CongScale(p, b % p, b, x);
    if Cong(p, a, b) {
      CongScale(p, a, b, x);
    } else {
      NotSame(p, x, a, b);
    }
    SameResidue(p, combined, x * a, x * b, x * (b % p));
  }

  lemma SameResidue(p: Modulus, u: int, v: int, w: int, z: int)
    requires Cong(p, u, v) && Cong(p, z, w)
    ensures u % p == z % p <==> Cong(p, v, w)
  {
  }

  lemma NotSame(p: Modulus, x: int, a: int, b: int)
    requires x % p != 0 && !Cong(p, a, b)
    ensures !Cong(p, x * a, x * b)
  {
    if Cong(p, x * a, x * b) {
      Cancel(p, x, a, b);
      assert false;
    }
  }
}
