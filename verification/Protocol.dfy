/** One resharing attempt as a state machine: the relay's election actor, and on
    every prover the election actor and the DKG engine, over a gossip network that
    delays, reorders and loses messages but delivers no copy twice.

    The provers are T* and the new quorum. Their state from earlier attempts is
    arbitrary; the relay has just announced the attempt.
 */
module Protocol {
  import opened Field
  import opened Polynomial
  import opened Sums
  import opened Vss
  import opened Dkg
  import opened Election
  import opened DkgEngine
  import Epochs
  import Resharing

  /** What is fixed during the attempt; `shares` are what T* holds, by key type and index. */
  datatype Setup = Setup(attempt: Attempt, curve: Curves, shares: map<KeyType, map<nat, int>>)

  datatype Prover = Prover(
    pending: multiset<Gossip>,   // published, not delivered to this prover
    context: Option<Attempt>,    // what its election actor took from the announcement
    mailbox: seq<Command>,       // of its DKG engine
    engine: Option<Engine>,
    stored: map<KeyType, int>)   // its shares on disk

  datatype State = State(
    relay: Relay,
    toRelay: multiset<Gossip>,
    provers: map<Peer, Prover>,
    log: set<Gossip>,                              // all that was ever published
    polys: map<nat, map<KeyType, seq<int>>>,       // what each dealer dealt
    failed: bool)                                  // some engine's handler failed

  function Participants(g: Setup): set<Peer> {
    g.attempt.tstar.Keys + g.attempt.quorum.Keys
  }

  /** The indices of T* and of the new quorum. */
  function Dealers(g: Setup): set<nat> {
    g.attempt.tstar.Values
  }

  function NewMembers(g: Setup): set<nat> {
    g.attempt.quorum.Values
  }

  /** A participant's index. */
  function Idx(g: Setup, q: Peer): nat {
    if q in g.attempt.tstar then g.attempt.tstar[q] else if q in g.attempt.quorum then g.attempt.quorum[q] else 0
  }

  /** The share that the prover of T* with index i holds. */
  function OldShare(g: Setup, k: KeyType, i: nat): int {
    if k in g.shares && i in g.shares[k] then g.shares[k][i] else 0
  }

  function GroupKey(g: Setup, k: KeyType): int {
    if k in g.attempt.groupKeys then g.attempt.groupKeys[k] else 0
  }

  /** Every participant has its own index. */
  predicate OwnIndices(g: Setup) {
    && (forall q :: q in g.attempt.tstar && q in g.attempt.quorum ==> g.attempt.tstar[q] == g.attempt.quorum[q])
    && (forall q, r :: q in Participants(g) && r in Participants(g) && Idx(g, q) == Idx(g, r) ==> q == r)
  }

  /** The group key of this type is what the shares of T* amount to. */
  ghost predicate KeyMatches(g: Setup, k: KeyType) {
    && k in g.shares && k in g.attempt.groupKeys
    && g.shares[k].Keys == Dealers(g)
    && IndexSet(g.shares[k].Keys)
    && GroupKey(g, k) == Sum(Additive(g.curve(k), g.shares[k])) % g.curve(k)
  }

  /** No power wraps in the share check of a new member. */
  ghost predicate PowersFit(g: Setup) {
    g.attempt.threshold >= 1 ==> forall j :: j in NewMembers(g) ==> Power(j, g.attempt.threshold - 1) < TWO_128
  }

  /** The relay gives every participant its own index, and knows the group keys
      that the shares of T* amount to. */
  ghost predicate SetupOk(g: Setup) {
    && OwnIndices(g)
    && IndexSet(Dealers(g)) && IndexSet(NewMembers(g))
    && (forall k :: k in AllTypes() ==> KeyMatches(g, k))
    && PowersFit(g)
  }

  /** The sizes that `Network::new` lets through. */
  predicate Sized(g: Setup) {
    ValidSize(g.attempt.threshold, |g.attempt.tstar|, true) && ValidSize(g.attempt.threshold, |g.attempt.quorum|, false)
  }

  /** A participant's engine before the attempt reaches it. */
  predicate EngineBefore(g: Setup, q: Peer, engine: Option<Engine>, stored: map<KeyType, int>) {
    match engine
    case Some(e) =>
      && e.peer == q && e.idx == Idx(g, q) && e.nodes.Keys == AllTypes()
      && forall k :: k in e.nodes ==>
           && e.nodes[k].node.id == Idx(g, q)
           && (q in g.attempt.tstar ==> e.nodes[k].node.privateShare == OldShare(g, k, Idx(g, q)))
    case None =>
      q in g.attempt.tstar ==> AllTypes() <= stored.Keys && forall k :: k in AllTypes() ==> stored[k] == OldShare(g, k, Idx(g, q))
  }

  /** The relay has elected these provers, and nobody has reported yet. */
  predicate Elected(relay: Relay, tstar: set<Peer>, quorum: set<Peer>) {
    && relay == Relay(relay.tstarProvers, relay.electedProvers, {}, {}, {}, {})
    && Members(relay.tstarProvers) == tstar && Members(relay.electedProvers) == quorum && NoDuplicates(relay.electedProvers)
  }

  ghost predicate Start(g: Setup, s: State) {
    && Elected(s.relay, g.attempt.tstar.Keys, g.attempt.quorum.Keys)
    && s.toRelay == multiset{}
    && s.provers.Keys == Participants(g)
    && (forall q :: q in s.provers ==>
          && s.provers[q].pending == multiset{ReElectedProvers}
          && s.provers[q].mailbox == []
          && EngineBefore(g, q, s.provers[q].engine, s.provers[q].stored))
    && s.log == {ReElectedProvers}
    && s.polys == map[]
    && !s.failed
  }

  // ---------- steps ----------

  predicate ForRelay(m: Gossip) {
    m.ReElectionReport? || m.InitCompleted? || m.Round1Completed? || m.Round2Completed?
  }

  predicate ForProvers(m: Gossip) {
    || m.StartResharingInit? || m.StartResharingRound1? || m.StartResharingRound2? || m.StartResharingRound3?
    || m.Round1Out? || m.Round2Out?
  }

  function Post(p: Prover, m: Gossip): Prover {
    p.(pending := p.pending + multiset{m})
  }

  /** A published message reaches everyone it is for but its sender. */
  function Publish(s: State, from: Option<Peer>, m: Gossip): State {
    s.(log := s.log + {m},
       toRelay := if ForRelay(m) then s.toRelay + multiset{m} else s.toRelay,
       provers := if ForProvers(m)
                  then map q | q in s.provers :: if from == Some(q) then s.provers[q] else Post(s.provers[q], m)
                  else s.provers)
  }

  function PublishAll(s: State, from: Option<Peer>, ms: seq<Gossip>): State
    decreases |ms|
  {
    if ms == [] then s else PublishAll(Publish(s, from, ms[0]), from, ms[1..])
  }

  function StageOf(m: Gossip): Stage
    requires ForRelay(m)
  {
    if m.ReElectionReport? then ReElection else if m.InitCompleted? then Initialisation
    else if m.Round1Completed? then FirstRound else SecondRound
  }

  function ReportOf(stage: Stage, q: Peer): Gossip {
    match stage
    case ReElection => ReElectionReport(q)
    case Initialisation => InitCompleted(q)
    case FirstRound => Round1Completed(q)
    case SecondRound => Round2Completed(q)
  }

  function NextStage(stage: Stage): Gossip {
    match stage
    case ReElection => StartResharingInit
    case Initialisation => StartResharingRound1
    case FirstRound => StartResharingRound2
    case SecondRound => StartResharingRound3
  }

  /** The relay handles a report. */
  function RelayStep(s: State, m: Gossip): State
    requires ForRelay(m)
  {
    var (relay', opens) := Record(s.relay, StageOf(m), m.peer);
    PublishAll(s.(relay := relay', toRelay := s.toRelay - multiset{m}), None, if opens then [NextStage(StageOf(m))] else [])
  }

  /** A prover's election actor handles the announcement. */
  function AnnouncedStep(g: Setup, s: State, q: Peer): State
    requires q in s.provers
  {
    var p := s.provers[q];
    var p' := p.(pending := p.pending - multiset{ReElectedProvers}, context := Some(g.attempt), mailbox := p.mailbox + [ClearShares]);
    PublishAll(s.(provers := s.provers[q := p']), Some(q),
               if q in Participants(g) then [ReElectionReport(q)] else [])
  }

  /** ... and the start of the initialisation. */
  function StartInitStep(s: State, q: Peer): State
    requires q in s.provers
  {
    var p := s.provers[q];
    var casts := if p.context.None? then []
                 else if q in p.context.value.tstar then [ResharingInit(p.context.value.tstar[q], q, p.context.value)]
                 else if q in p.context.value.quorum then [ResharingInit(p.context.value.quorum[q], q, p.context.value)]
                 else [];
    s.(provers := s.provers[q := p.(pending := p.pending - multiset{StartResharingInit}, mailbox := p.mailbox + casts)])
  }

  predicate ForEngine(m: Gossip) {
    ForProvers(m) && !m.StartResharingInit?
  }

  function ToCommand(m: Gossip): Command
    requires ForEngine(m)
  {
    match m
    case StartResharingRound1 => StartRound1
    case StartResharingRound2 => StartRound2
    case StartResharingRound3 => StartRound3
    case Round1Out(idx, deals) => StoreRound1Out(idx, deals)
    case Round2Out(idx, pubshares) => StorePubshares(idx, pubshares)
  }

  /** The gossip actor hands a message to the DKG engine. */
  function DeliverStep(s: State, q: Peer, m: Gossip): State
    requires q in s.provers && ForEngine(m)
  {
    var p := s.provers[q];
    s.(provers := s.provers[q := p.(pending := p.pending - multiset{m}, mailbox := p.mailbox + [ToCommand(m)])])
  }

  function LoseStep(s: State, q: Peer, m: Gossip): State
    requires q in s.provers
  {
    var p := s.provers[q];
    s.(provers := s.provers[q := p.(pending := p.pending - multiset{m})])
  }

  /** The random coefficients fit the message. */
  ghost predicate RandomFits(p: Prover, random: map<KeyType, seq<int>>) {
    p.mailbox != [] && p.mailbox[0].RunRound1? ==>
      && (p.engine.Some? ==> EngineOk(p.engine.value) && random.Keys == p.engine.value.nodes.Keys)
      && forall k :: k in random ==> |random[k]| == p.mailbox[0].threshold
  }

  ghost predicate CanHandle(p: Prover, random: map<KeyType, seq<int>>) {
    && p.mailbox != []
    && RandomFits(p, random)
    && (p.mailbox[0].RunRound3? && p.engine.Some? ==> EngineOk(p.engine.value))
  }

  /** What a dealer has dealt, as far as this effect shows. */
  ghost function WithDeal(g: Setup, p: Prover, effect: Effect, random: map<KeyType, seq<int>>, polys: map<nat,
      map<KeyType, seq<int>>>): map<nat, map<KeyType, seq<int>>>
    requires CanHandle(p, random)
  {
    if p.mailbox[0].RunRound1? && p.engine.Some? && effect.gossip != [] && p.mailbox[0].threshold >= 1
    then polys[p.engine.value.idx := DkgEngine.DealerPolys(g.curve, p.engine.value, random)] else polys
  }

  /** The effect has taken place, and nothing has been published yet. */
  function Applied(s: State, q: Peer, effect: Effect, polys: map<nat, map<KeyType, seq<int>>>): State
    requires q in s.provers && s.provers[q].mailbox != []
  {
    var p := s.provers[q];
    s.(provers := s.provers[q := p.(engine := effect.state, mailbox := p.mailbox[1..] + effect.casts)],
       polys := polys, failed := s.failed || effect.failed)
  }

  /** A prover's DKG engine handles the first message of its mailbox. */
  ghost function EngineStep(g: Setup, s: State, q: Peer, drawn: KeyType -> int, random: map<KeyType, seq<int>>): State
    requires q in s.provers && CanHandle(s.provers[q], random)
  {
    var p := s.provers[q];
    var effect := Handle(g.curve, p.engine, p.mailbox[0], p.stored, drawn, random);
    PublishAll(Applied(s, q, effect, WithDeal(g, p, effect, random, s.polys)), Some(q), effect.gossip)
  }

  datatype Step =
    | RelayHandles(m: Gossip)
    | Announced(q: Peer)
    | InitStarted(q: Peer)
    | Delivered(q: Peer, m: Gossip)
    | EngineHandles(q: Peer, drawn: KeyType -> int, random: map<KeyType, seq<int>>)
    | Lost(q: Peer, m: Gossip)
    | ReportLost(m: Gossip)

  ghost predicate Enabled(g: Setup, s: State, step: Step) {
    match step
    case RelayHandles(m) => m in s.toRelay && ForRelay(m)
    case Announced(q) => q in s.provers && ReElectedProvers in s.provers[q].pending
    case InitStarted(q) => q in s.provers && StartResharingInit in s.provers[q].pending
    case Delivered(q, m) => q in s.provers && m in s.provers[q].pending && ForEngine(m)
    case EngineHandles(q, drawn, random) => q in s.provers && CanHandle(s.provers[q], random)
    case Lost(q, m) => q in s.provers && m in s.provers[q].pending
    case ReportLost(m) => m in s.toRelay
  }

  ghost function Next(g: Setup, s: State, step: Step): State
    requires Enabled(g, s, step)
  {
    match step
    case RelayHandles(m) => RelayStep(s, m)
    case Announced(q) => AnnouncedStep(g, s, q)
    case InitStarted(q) => StartInitStep(s, q)
    case Delivered(q, m) => DeliverStep(s, q, m)
    case EngineHandles(q, drawn, random) => EngineStep(g, s, q, drawn, random)
    case Lost(q, m) => LoseStep(s, q, m)
    case ReportLost(m) => s.(toRelay := s.toRelay - multiset{m})
  }

  /** The i-th step leads from the i-th state to the next. */
  ghost predicate Steps(g: Setup, states: seq<State>, steps: seq<Step>, i: nat)
    requires |states| == |steps| + 1
  {
    i < |steps| ==> Enabled(g, states[i], steps[i]) && states[i + 1] == Next(g, states[i], steps[i])
  }

  /** The states of a run of the attempt. */
  ghost predicate IsRun(g: Setup, states: seq<State>, steps: seq<Step>) {
    && |states| == |steps| + 1
    && Start(g, states[0])
    && forall i :: Steps(g, states, steps, i)
  }
}
