/** The actor that drives the rounds on a prover
    (network/crates/actors/src/dkg_engine_actor.rs): what each message of a
    resharing does to its state, and what it gossips or sends to itself.
 */
module DkgEngine {
  import opened Field
  import opened Polynomial
  import opened Sums
  import opened Vss
  import opened Dkg
  import opened Election
  import Resharing

  /** A key is generated and reshared for each of these. */
  datatype KeyType = OPRFSecp256k1 | OPRFBabyJubJub | JWTPRFSecp256k1 | DecryptBabyJubjub

  /** The scalar field of each key type's curve. */
  type Curves = KeyType -> Modulus

  function AllTypes(): set<KeyType> {
    {OPRFSecp256k1, OPRFBabyJubJub, JWTPRFSecp256k1, DecryptBabyJubjub}
  }

  /** A dealer's output of round 1: encrypted shares by recipient, commitments. */
  datatype Deal = Deal(y: map<nat, Cipher>, v: seq<int>)

  type Deals = map<KeyType, Deal>

  datatype NodeData = NodeData(
    node: Node,
    inputY: map<nat, Cipher>,
    inputV: map<nat, seq<int>>,
    otherPubshares: map<nat, int>)

  /** What the relay announces for one resharing: T* and the new quorum with the
      index of each prover, the new threshold, and the group keys. */
  datatype Attempt = Attempt(
    tstar: map<Peer, nat>,
    quorum: map<Peer, nat>,
    threshold: nat,
    groupKeys: map<KeyType, int>)

  datatype Engine = Engine(
    idx: nat,
    peer: Peer,
    nodes: map<KeyType, NodeData>,
    tstarProvers: map<Peer, nat>,
    newProvers: map<Peer, nat>,
    threshold: nat,
    groupKeys: map<KeyType, int>,
    round1Threshold: Option<nat>)

  /** What travels over the gossip network during a resharing. */
  datatype Gossip =
    | ReElectedProvers
    | ReElectionReport(peer: Peer)
    | StartResharingInit
    | InitCompleted(peer: Peer)
    | StartResharingRound1
    | Round1Out(idx: nat, deals: Deals)
    | Round1Completed(peer: Peer)
    | StartResharingRound2
    | Round2Out(idx: nat, pubshares: map<KeyType, int>)
    | Round2Completed(peer: Peer)
    | StartResharingRound3
    | Prepared(idx: nat, peer: Peer, pubshares: map<KeyType, int>)

  /** The engine's own messages. */
  datatype Command =
    | ClearShares
    | ResharingInit(idx: nat, peer: Peer, attempt: Attempt)
    | StartRound1
    | RunRound1(threshold: nat, isReelected: bool)
    | StoreRound1Out(idx: nat, deals: Deals)
    | StartRound2
    | RunRound2
    | StorePubshares(idx: nat, pubshares: map<KeyType, int>)
    | StartRound3
    | RunRound3

  /** What handling one message amounts to; `failed` covers an error and a panic. */
  datatype Effect = Effect(state: Option<Engine>, gossip: seq<Gossip>, casts: seq<Command>, failed: bool)

  function Nothing(e: Option<Engine>): Effect {
    Effect(e, [], [], false)
  }

  function Refused(e: Option<Engine>): Effect {
    Effect(e, [], [], true)
  }

  // ---------- clearing and initialising ----------

  function Cleared(nodes: map<KeyType, NodeData>): (r: map<KeyType, NodeData>)
    ensures r.Keys == nodes.Keys
  {
    map k | k in nodes :: NodeData(nodes[k].node, map[], map[], map[])
  }

  function HandleClearShares(e: Option<Engine>): Effect {
    Nothing(if e.Some? then Some(e.value.(nodes := Cleared(e.value.nodes))) else None)
  }

  function FreshNode(idx: nat, share: int, groupKey: int): NodeData {
    NodeData(Node(idx, 0, share, groupKey, 0), map[], map[], map[])
  }

  /** `restore_old_resharing_state`: the shares come from disk. */
  function Restored(idx: nat, peer: Peer, a: Attempt, stored: map<KeyType, int>): (e: Option<Engine>)
    ensures e.Some? <==> AllTypes() <= stored.Keys && AllTypes() <= a.groupKeys.Keys && ValidSize(a.threshold, |a.quorum|, false)
  {
    if !(AllTypes() <= stored.Keys && AllTypes() <= a.groupKeys.Keys) || !ValidSize(a.threshold, |a.quorum|, false) then None
    else
      var nodes := map k | k in AllTypes() :: FreshNode(idx, stored[k], a.groupKeys[k]);
      Some(Engine(idx, peer, nodes, a.tstar, a.quorum, a.threshold, a.groupKeys, None))
  }

  /** `dkg_init`: a prover without a state draws new random shares. */
  function Initialised(idx: nat, peer: Peer, a: Attempt, random: KeyType -> int): (e: Option<Engine>)
    ensures e.Some? <==> ValidSize(a.threshold, |a.quorum|, false)
  {
    if !ValidSize(a.threshold, |a.quorum|, false) then None
    else
      var nodes := map k | k in AllTypes() :: FreshNode(idx, random(k), 0);
      Some(Engine(idx, peer, nodes, a.tstar, a.quorum, a.threshold, a.groupKeys, None))
  }

  /** An engine with a state takes part in the next attempt. */
  function Reinitialised(e: Engine, a: Attempt): Engine {
    e.(nodes := Cleared(e.nodes), tstarProvers := a.tstar, newProvers := a.quorum, threshold := a.threshold,
       groupKeys := a.groupKeys, round1Threshold := if e.peer in a.tstar then Some(a.threshold) else None)
  }

  function HandleInit(e: Option<Engine>, idx: nat, peer: Peer, a: Attempt, stored: map<KeyType, int>, random: KeyType -> int): Effect {
    if !ValidSize(a.threshold, |a.tstar|, true) then Refused(e)
    else
      var e1 := if peer in a.tstar && e.None? then Restored(idx, peer, a, stored) else e;
      if peer in a.tstar && e1.None? then Refused(e)
      else if e1.Some? then
        Effect(Some(Reinitialised(e1.value, a)),
               if e1.value.peer in a.tstar || e1.value.peer in a.quorum then [InitCompleted(e1.value.peer)] else [], [], false)
      else if peer in a.quorum then
        var e2 := Initialised(idx, peer, a, random);
        if e2.None? then Refused(e) else Effect(e2, [InitCompleted(peer)], [], false)
      else Nothing(e)
  }

  // ---------- round 1 ----------

  function HandleStartRound1(e: Option<Engine>): Effect {
    if e.Some? && e.value.peer in e.value.tstarProvers && e.value.round1Threshold.Some? then
      Effect(e, [], [RunRound1(e.value.round1Threshold.value, e.value.peer in e.value.newProvers)], false)
    else Nothing(e)
  }

  /** Both inputs are there from as many dealers as T* has provers, for every key type. */
  predicate Round1Ready(e: Engine) {
    forall k :: k in e.nodes ==>
      && |e.nodes[k].inputV| == |e.tstarProvers|
      && |e.nodes[k].inputY| == |e.tstarProvers|
      && e.peer in e.newProvers
  }

  function Register(nd: NodeData, dealer: nat, y: Cipher, v: seq<int>): NodeData {
    nd.(inputY := nd.inputY[dealer := y], inputV := nd.inputV[dealer := v])
  }

  /** Registering a dealer's output, where it holds a share for this prover. */
  function Registered(nodes: map<KeyType, NodeData>, me: nat, dealer: nat, deals: Deals): (r: map<KeyType, NodeData>)
    ensures r.Keys == nodes.Keys
  {
    map k | k in nodes :: if k in deals && me in deals[k].y
                          then Register(nodes[k], dealer, deals[k].y[me], deals[k].v) else nodes[k]
  }

  /** The dealer polynomial of each key type. */
  ghost function DealerPolys(curve: Curves, e: Engine, random: map<KeyType, seq<int>>): (c: map<KeyType, seq<int>>)
    requires IsIndex(e.idx) && IndexSet(e.tstarProvers.Values)
    requires e.nodes.Keys == random.Keys && forall k :: k in random ==> random[k] != []
    ensures c.Keys == e.nodes.Keys
  {
    map k | k in e.nodes :: Resharing.DealerPoly(curve(k), e.idx, e.nodes[k].node.privateShare, e.tstarProvers.Values, random[k])
  }

  ghost function DealsOf(curve: Curves, polys: map<KeyType, seq<int>>, quorum: set<nat>): (d: Deals)
    ensures d.Keys == polys.Keys
  {
    map k | k in polys :: Deal(EncryptedShares(curve(k), polys[k], quorum), Commit(curve(k), polys[k], |polys[k]|))
  }

  ghost predicate EngineOk(e: Engine) {
    && IsIndex(e.idx) && IndexSet(e.tstarProvers.Values) && IndexSet(e.newProvers.Values)
    && forall k :: k in e.nodes ==> e.nodes[k].node.id == e.idx
  }

  ghost function HandleRound1(curve: Curves, e: Option<Engine>, threshold: nat, isReelected: bool, random: map<KeyType, seq<int>>): Effect
    requires e.Some? ==> EngineOk(e.value) && random.Keys == e.value.nodes.Keys
    requires threshold >= 1 ==> forall k :: k in random ==> |random[k]| == threshold
  {
    if e.None? || e.value.peer !in e.value.tstarProvers
       || !ValidSize(threshold, |e.value.tstarProvers|, true) || !ValidSize(threshold, |e.value.newProvers|, false) then Nothing(e)
    else
      var deals := DealsOf(curve, DealerPolys(curve, e.value, random), e.value.newProvers.Values);
      if isReelected && e.value.nodes != map[] && e.value.idx !in e.value.newProvers.Values then
        Effect(e, [Round1Out(e.value.idx, deals)], [], true)
      else
        var e' := if isReelected then e.value.(nodes := Registered(e.value.nodes, e.value.idx, e.value.idx, deals)) else e.value;
        Effect(Some(e'), [Round1Out(e.value.idx, deals)]
               + (if Round1Ready(e') && e'.peer in e'.newProvers then [Round1Completed(e'.peer)] else []), [], false)
  }

  function HandleRound1Out(e: Option<Engine>, dealer: nat, deals: Deals): Effect {
    if e.None? || e.value.peer !in e.value.newProvers || dealer !in e.value.tstarProvers.Values then Nothing(e)
    else
      var e' := e.value.(nodes := Registered(e.value.nodes, e.value.idx, dealer, deals));
      Effect(Some(e'), if Round1Ready(e') then [Round1Completed(e'.peer)] else [], [], false)
  }

  // ---------- round 2 ----------

  function HandleStartRound2(e: Option<Engine>): Effect {
    if e.Some? && e.value.peer in e.value.newProvers then Effect(e, [], [RunRound2], false) else Nothing(e)
  }

  ghost function NodeRound2(curve: Curves, e: Engine, k: KeyType): Outcome<Keys>
    requires k in e.nodes && e.threshold >= 1
  {
    if k !in e.groupKeys then Err(Other)
    else Resharing.Round2(curve(k), e.nodes[k].node.id, |e.tstarProvers|, e.threshold, e.nodes[k].inputY, e.nodes[k].inputV, e.groupKeys[k])
  }

  function Updated(nd: NodeData, r: Keys): NodeData {
    nd.(node := nd.node.(privateShare := r.share, networkPubkey := r.groupKey),
        otherPubshares := nd.otherPubshares[nd.node.id := r.pubShare])
  }

  predicate Round2Ready(e: Engine) {
    forall k :: k in e.nodes ==> |e.nodes[k].otherPubshares| == |e.newProvers|
  }

  ghost predicate Round2Passes(curve: Curves, e: Engine)
    requires e.threshold >= 1
  {
    forall k :: k in e.nodes ==> NodeRound2(curve, e, k).Ok?
  }

  /** The nodes after round 2 passed for every key type. */
  ghost function AfterRound2(curve: Curves, e: Engine): (r: map<KeyType, NodeData>)
    requires e.threshold >= 1 && Round2Passes(curve, e)
    ensures r.Keys == e.nodes.Keys
  {
    map k | k in e.nodes :: Updated(e.nodes[k], NodeRound2(curve, e, k).value)
  }

  ghost function Round2Pubshares(curve: Curves, e: Engine): (r: map<KeyType, int>)
    requires e.threshold >= 1 && Round2Passes(curve, e)
    ensures r.Keys == e.nodes.Keys
  {
    map k | k in e.nodes :: NodeRound2(curve, e, k).value.pubShare
  }

  ghost function HandleRound2(curve: Curves, e: Option<Engine>): Effect {
    if e.None? || e.value.peer !in e.value.newProvers then Nothing(e)
    else if !ValidSize(e.value.threshold, |e.value.newProvers|, false) || !ValidSize(e.value.threshold, |e.value.tstarProvers|, true) then Refused(e)
    else if !Round2Passes(curve, e.value) then Refused(e)
    else
      var e' := e.value.(nodes := AfterRound2(curve, e.value));
      Effect(Some(e'), [Round2Out(e.value.idx, Round2Pubshares(curve, e.value))]
             + (if Round2Ready(e') then [Round2Completed(e'.peer)] else []), [], false)
  }

  /** Storing another member's public shares. */
  function WithPubshares(nodes: map<KeyType, NodeData>, idx: nat, pubshares: map<KeyType, int>): (r: map<KeyType, NodeData>)
    ensures r.Keys == nodes.Keys
  {
    map k | k in nodes :: if k in pubshares
                          then nodes[k].(otherPubshares := nodes[k].otherPubshares[idx := pubshares[k]]) else nodes[k]
  }

  function HandlePubshares(e: Option<Engine>, idx: nat, pubshares: map<KeyType, int>): Effect {
    if e.None? || e.value.idx == idx || e.value.peer !in e.value.newProvers || idx !in e.value.newProvers.Values then Nothing(e)
    else
      var e' := e.value.(nodes := WithPubshares(e.value.nodes, idx, pubshares));
      Effect(Some(e'), if Round2Ready(e') then [Round2Completed(e'.peer)] else [], [], false)
  }

  // ---------- round 3 ----------

  function HandleStartRound3(e: Option<Engine>): Effect {
    if e.Some? && e.value.peer in e.value.newProvers then Effect(e, [], [RunRound3], false) else Nothing(e)
  }

  ghost predicate Round3Passes(curve: Curves, e: Engine)
    requires IndexSet(e.newProvers.Values)
  {
    var network := Network(e.threshold, |e.newProvers|, e.newProvers.Values);
    forall k :: k in e.nodes ==> Round3(curve(k), e.nodes[k].node, network, e.nodes[k].otherPubshares).Ok?
  }

  /** The public shares: each private share times the generator. */
  function PublicShares(nodes: map<KeyType, NodeData>): (r: map<KeyType, int>)
    ensures r.Keys == nodes.Keys
  {
    map k | k in nodes :: nodes[k].node.privateShare
  }

  ghost function HandleRound3(curve: Curves, e: Option<Engine>): Effect
    requires e.Some? ==> EngineOk(e.value)
  {
    if e.None? then Nothing(e)
    else if !ValidSize(e.value.threshold, |e.value.newProvers|, false) || !Round3Passes(curve, e.value) then Refused(e)
    else if e.value.peer in e.value.newProvers then
      Effect(e, [Prepared(e.value.idx, e.value.peer, PublicShares(e.value.nodes))], [], false)
    else Nothing(e)
  }

  /** One message; what is random or read from disk is a parameter. */
  ghost function Handle(curve: Curves, e: Option<Engine>, m: Command, stored: map<KeyType, int>, drawn: KeyType -> int,
      random: map<KeyType, seq<int>>): Effect
    requires (m.RunRound1? || m.RunRound3?) && e.Some? ==> EngineOk(e.value)
    requires m.RunRound1? && e.Some? ==> random.Keys == e.value.nodes.Keys
    requires m.RunRound1? && m.threshold >= 1 ==> forall k :: k in random ==> |random[k]| == m.threshold
  {
    match m
    case ClearShares => HandleClearShares(e)
    case ResharingInit(idx, peer, a) => HandleInit(e, idx, peer, a, stored, drawn)
    case StartRound1 => HandleStartRound1(e)
    case RunRound1(threshold, isReelected) => HandleRound1(curve, e, threshold, isReelected, random)
    case StoreRound1Out(idx, deals) => HandleRound1Out(e, idx, deals)
    case StartRound2 => HandleStartRound2(e)
    case RunRound2 => HandleRound2(curve, e)
    case StorePubshares(idx, pubshares) => HandlePubshares(e, idx, pubshares)
    case StartRound3 => HandleStartRound3(e)
    case RunRound3 => HandleRound3(curve, e)
  }
}
