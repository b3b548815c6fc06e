/** What holds in every state of every run of a resharing attempt. */
module ProtocolSafety {
  import opened Field
  import opened Polynomial
  import opened Sums
  import opened Vss
  import opened Dkg
  import opened Election
  import opened DkgEngine
  import opened Protocol
  import Epochs
  import Resharing

  type Polys = map<nat, map<KeyType, seq<int>>>

  /** What dealer d dealt for a key type. */
  function At(polys: Polys, d: nat, k: KeyType): seq<int> {
    if d in polys && k in polys[d] then polys[d][k] else []
  }

  /** The dealers' polynomials of one key type. */
  function Of(polys: Polys, k: KeyType): (r: map<nat, seq<int>>)
    ensures r.Keys == polys.Keys
  {
    map d | d in polys :: At(polys, d, k)
  }

  /** The constant term of an honest dealer: its weighted share. */
  ghost function DealtConstant(g: Setup, d: nat, k: KeyType): int
    requires IsIndex(d) && IndexSet(Dealers(g))
  {
    OldShare(g, k, d) * Lagrange(g.curve(k), d, Dealers(g)) % g.curve(k)
  }

  ghost predicate DealOk(g: Setup, d: nat, k: KeyType, c: seq<int>) {
    && |c| == g.attempt.threshold && c != []
    && IsIndex(d) && IndexSet(Dealers(g))
    && c[0] == DealtConstant(g, d, k)
  }

  /** Every dealer that dealt is one of T* and dealt honestly. */
  ghost predicate PolysOk(g: Setup, polys: Polys) {
    forall d :: d in polys ==>
      && d in Dealers(g)
      && polys[d].Keys == AllTypes()
      && forall k :: k in AllTypes() ==> DealOk(g, d, k, At(polys, d, k))
  }

  /** The polynomial the new quorum's shares lie on. */
  ghost function NewPoly(g: Setup, polys: Polys, k: KeyType): seq<int> {
    var v := Epochs.HonestV(g.curve(k), Of(polys, k));
    if forall d :: d in v ==> |v[d]| == g.attempt.threshold then SumPoly(v, g.attempt.threshold) else []
  }

  ghost function NewShare(g: Setup, polys: Polys, k: KeyType, i: nat): int {
    Eval(g.curve(k), NewPoly(g, polys, k), i)
  }

  ghost function NewShares(g: Setup, polys: Polys, i: nat): map<KeyType, int> {
    map k | k in AllTypes() :: NewShare(g, polys, k, i)
  }

  // ---------- the invariant ----------

  /** Who has to report a stage. */
  function RequiredOf(g: Setup, stage: Stage): set<Peer> {
    if stage.ReElection? || stage.Initialisation? then Participants(g) else g.attempt.quorum.Keys
  }

  /** What was published was preceded by what had to come before it. */
  ghost predicate LogInv(g: Setup, log: set<Gossip>, polys: Polys) {
    && PolysOk(g, polys)
    && (polys != map[] ==> StartResharingRound1 in log)
    && (forall stage :: NextStage(stage) in log ==> forall q :: q in RequiredOf(g, stage) ==> ReportOf(stage, q) in log)
    && (StartResharingRound2 in log ==> StartResharingRound1 in log && polys.Keys == Dealers(g))
    && (StartResharingRound3 in log ==> StartResharingRound2 in log)
    && (forall m :: m in log ==> MessageInv(g, log, polys, m))
  }

  ghost predicate MessageInv(g: Setup, log: set<Gossip>, polys: Polys, m: Gossip) {
    var a := g.attempt;
    match m
    case ReElectionReport(q) => q in Participants(g)
    case InitCompleted(q) => q in Participants(g) && StartResharingInit in log
    case Round1Out(d, deals) => d in polys && deals == DealsOf(g.curve, polys[d], NewMembers(g))
    case Round1Completed(q) => q in a.quorum && StartResharingRound1 in log
    case Round2Out(i, pubshares) => StartResharingRound2 in log && i in NewMembers(g) && pubshares == NewShares(g, polys, i)
    case Round2Completed(q) => q in a.quorum && StartResharingRound2 in log
    case Prepared(i, q, pubshares) => q in a.quorum && i == a.quorum[q] && StartResharingRound3 in log && pubshares == NewShares(g, polys, i)
    case _ => true
  }

  ghost predicate RelayInv(g: Setup, s: State) {
    && Members(s.relay.tstarProvers) == g.attempt.tstar.Keys
    && Members(s.relay.electedProvers) == g.attempt.quorum.Keys
    && NoDuplicates(s.relay.electedProvers)
    && (forall m :: m in s.toRelay ==> m in s.log)
    && (forall stage, q :: q in Recorded(s.relay, stage) ==> ReportOf(stage, q) in s.log)
    && (forall stage :: NextStage(stage) in s.log ==> Recorded(s.relay, stage) == RequiredOf(g, stage))
  }

  ghost function InitCommand(g: Setup, q: Peer): Command {
    ResharingInit(Idx(g, q), q, g.attempt)
  }

  /** A prover that has not completed its initialisation. */
  ghost predicate Early(g: Setup, log: set<Gossip>, q: Peer, p: Prover) {
    && (p.mailbox == [] || p.mailbox == [ClearShares] || p.mailbox == [InitCommand(g, q)] || p.mailbox == [ClearShares, InitCommand(g, q)])
    && p.pending[ReElectedProvers] <= 1 && p.pending[StartResharingInit] <= 1
    && (p.pending[ReElectedProvers] > 0 ==> p.mailbox == [])
    && (ReElectionReport(q) in log ==> p.pending[ReElectedProvers] == 0 && p.context == Some(g.attempt))
    && (InitCommand(g, q) in p.mailbox ==> StartResharingInit in log && p.pending[StartResharingInit] == 0)
    && EngineBefore(g, q, p.engine, p.stored)
  }

  /** Where a message in the mailbox of an initialised engine comes from. */
  ghost predicate CommandInv(g: Setup, log: set<Gossip>, q: Peer, m: Command) {
    match m
    case ClearShares => false
    case ResharingInit(_, _, _) => false
    case StartRound1 => StartResharingRound1 in log
    case RunRound1(t, b) => StartResharingRound1 in log && q in g.attempt.tstar && t == g.attempt.threshold && b == (q in g.attempt.quorum)
    case StoreRound1Out(d, deals) => Round1Out(d, deals) in log
    case StartRound2 => StartResharingRound2 in log
    case RunRound2 => StartResharingRound2 in log && q in g.attempt.quorum
    case StorePubshares(i, pubshares) => Round2Out(i, pubshares) in log
    case StartRound3 => StartResharingRound3 in log
    case RunRound3 => StartResharingRound3 in log && q in g.attempt.quorum
  }

  /** The inputs of one key type are honest outputs of dealers that have dealt. */
  ghost predicate InputsInv(g: Setup, polys: Polys, q: Peer, k: KeyType, nd: NodeData) {
    && nd.inputY.Keys == nd.inputV.Keys <= polys.Keys
    && (q !in g.attempt.quorum ==> nd.inputY == map[])
    && (forall d :: d in nd.inputY ==>
          && nd.inputY[d] == Cipher(Idx(g, q), Eval(g.curve(k), At(polys, d, k), Idx(g, q)))
          && nd.inputV[d] == Commit(g.curve(k), At(polys, d, k), |At(polys, d, k)|))
  }

  /** The private share is the old one until round 2 replaces it, and the public
      shares are evaluations of the one new polynomial. */
  ghost predicate SharesInv(g: Setup, log: set<Gossip>, polys: Polys, q: Peer, k: KeyType, nd: NodeData) {
    && nd.node.id == Idx(g, q)
    && (StartResharingRound2 !in log && q in g.attempt.tstar ==> nd.node.privateShare == OldShare(g, k, Idx(g, q)))
    && (forall i :: i in nd.otherPubshares ==>
          StartResharingRound2 in log && i in NewMembers(g) && nd.otherPubshares[i] == NewShare(g, polys, k, i))
    && (Idx(g, q) in nd.otherPubshares ==>
          nd.node.privateShare == NewShare(g, polys, k, Idx(g, q)) && nd.node.networkPubkey == GroupKey(g, k))
  }

  ghost predicate NodesInv(g: Setup, log: set<Gossip>, polys: Polys, q: Peer, nodes: map<KeyType, NodeData>) {
    && nodes.Keys == AllTypes()
    && forall k :: k in AllTypes() ==> InputsInv(g, polys, q, k, nodes[k]) && SharesInv(g, log, polys, q, k, nodes[k])
  }

  ghost predicate Configured(g: Setup, q: Peer, e: Engine) {
    var a := g.attempt;
    && e.peer == q && e.idx == Idx(g, q)
    && e.tstarProvers == a.tstar && e.newProvers == a.quorum && e.threshold == a.threshold && e.groupKeys == a.groupKeys
    && e.round1Threshold == (if q in a.tstar then Some(a.threshold) else None)
  }

  ghost predicate InputsComplete(g: Setup, nodes: map<KeyType, NodeData>) {
    forall k :: k in nodes ==> nodes[k].inputY.Keys == nodes[k].inputV.Keys == Dealers(g)
  }

  ghost predicate PubsharesComplete(g: Setup, nodes: map<KeyType, NodeData>) {
    forall k :: k in nodes ==> nodes[k].otherPubshares.Keys == NewMembers(g)
  }

  /** How often round 1 can still be dealt or has been dealt. */
  ghost function Rounds1(g: Setup, polys: Polys, q: Peer, p: Prover): nat {
    p.pending[StartResharingRound1] + multiset(p.mailbox)[StartRound1]
    + multiset(p.mailbox)[RunRound1(g.attempt.threshold, q in g.attempt.quorum)]
    + (if Idx(g, q) in polys then 1 else 0)
  }

  /** A prover that has completed its initialisation. */
  ghost predicate Late(g: Setup, log: set<Gossip>, polys: Polys, q: Peer, p: Prover) {
    && p.pending[ReElectedProvers] == 0 && p.pending[StartResharingInit] == 0
    && ReElectionReport(q) in log
    && ValidSize(g.attempt.threshold, |g.attempt.tstar|, true)
    && (forall m :: m in p.mailbox ==> CommandInv(g, log, q, m))
    && (q in g.attempt.tstar ==> Rounds1(g, polys, q, p) <= 1)
    && p.engine.Some? && Configured(g, q, p.engine.value)
    && NodesInv(g, log, polys, q, p.engine.value.nodes)
    && (Round1Completed(q) in log ==> InputsComplete(g, p.engine.value.nodes))
    && (Round2Completed(q) in log ==> PubsharesComplete(g, p.engine.value.nodes))
  }

  ghost predicate ProverInv(g: Setup, log: set<Gossip>, polys: Polys, q: Peer, p: Prover) {
    && (forall m :: m in p.pending ==> m in log)
    && (if InitCompleted(q) in log then Late(g, log, polys, q, p) else Early(g, log, q, p))
  }

  ghost predicate Invariant(g: Setup, s: State) {
    && LogInv(g, s.log, s.polys)
    && RelayInv(g, s)
    && s.provers.Keys == Participants(g)
    && (forall q :: q in Participants(g) ==> ProverInv(g, s.log, s.polys, q, s.provers[q]))
    && (Sized(g) ==> !s.failed)
  }

  // ---------- the start ----------

  lemma StartInv(g: Setup, s: State)
    requires Start(g, s)
    ensures Invariant(g, s)
  {
    hide LogInv;
    hide RelayInv;
    hide ProverInv;
    hide EngineBefore;
    StartLog(g, s);
    StartRelay(g, s);
    forall q | q in Participants(g)
      ensures ProverInv(g, s.log, s.polys, q, s.provers[q])
    {
      StartProver(g, s, q);
    }
  }

  lemma StartLog(g: Setup, s: State)
    requires s.log == {ReElectedProvers} && s.polys == map[]
    ensures LogInv(g, s.log, s.polys)
  {
    hide RequiredOf;
    hide ReportOf;
    hide DealOk;
    hide AllTypes;
  }

  lemma StartRelay(g: Setup, s: State)
    requires Start(g, s)
    ensures RelayInv(g, s)
  {
    hide Members;
    hide EngineBefore;
    hide Participants;
    hide ReportOf;
    hide AllTypes;
  }

  lemma StartProver(g: Setup, s: State, q: Peer)
    requires Start(g, s) && q in Participants(g)
    ensures ProverInv(g, s.log, s.polys, q, s.provers[q])
  {
    hide EngineBefore;
    hide Late;
    hide Members;
    hide NoDuplicates;
    assert s.provers[q].pending == multiset{ReElectedProvers};
  }

  // ---------- publishing ----------

  /** When a message may be published. */
  ghost predicate Justified(g: Setup, s: State, m: Gossip) {
    && MessageInv(g, s.log, s.polys, m)
    && (forall stage :: m == NextStage(stage) ==> m !in s.log && Recorded(s.relay, stage) == RequiredOf(g, stage))
    && (m == StartResharingRound2 ==> StartResharingRound1 in s.log && s.polys.Keys == Dealers(g))
    && (m == StartResharingRound3 ==> StartResharingRound2 in s.log)
    && (forall q :: q in s.provers ==> OwnReport(g, s.log, s.polys, q, s.provers[q], m))
  }

  /** What a prover's own reports say about it. */
  ghost predicate OwnReport(g: Setup, log: set<Gossip>, polys: Polys, q: Peer, p: Prover, m: Gossip) {
    && (m == ReElectionReport(q) ==> p.pending[ReElectedProvers] == 0 && p.context == Some(g.attempt))
    && (m == InitCompleted(q) ==> Late(g, log, polys, q, p))
    && (m == Round1Completed(q) ==> p.engine.Some? && InputsComplete(g, p.engine.value.nodes))
    && (m == Round2Completed(q) ==> p.engine.Some? && PubsharesComplete(g, p.engine.value.nodes))
  }

  lemma LogPublish(g: Setup, log: set<Gossip>, polys: Polys, m: Gossip)
    requires LogInv(g, log, polys) && MessageInv(g, log, polys, m)
    requires forall stage :: m == NextStage(stage) ==> forall q :: q in RequiredOf(g, stage) ==> ReportOf(stage, q) in log
    requires m == StartResharingRound2 ==> StartResharingRound1 in log && polys.Keys == Dealers(g)
    requires m == StartResharingRound3 ==> StartResharingRound2 in log
    ensures LogInv(g, log + {m}, polys)
  {
    hide PolysOk;
    hide RequiredOf;
    hide NewShares;
    hide DealsOf;
    hide Participants;
    var log' := log + {m};
    forall x | x in log'
      ensures MessageInv(g, log', polys, x)
    {
      assert MessageInv(g, log, polys, x);
    }
  }

  lemma NodesGrow(g: Setup, log: set<Gossip>, log': set<Gossip>, polys: Polys, q: Peer, nodes: map<KeyType, NodeData>)
    requires NodesInv(g, log, polys, q, nodes) && log <= log'
    ensures NodesInv(g, log', polys, q, nodes)
  {
    hide InputsInv;
    hide NewShare;
    hide OldShare;
    hide AllTypes;
    forall k | k in AllTypes()
      ensures SharesInv(g, log', polys, q, k, nodes[k])
    {
      assert SharesInv(g, log, polys, q, k, nodes[k]);
    }
  }

  lemma LateGrows(g: Setup, log: set<Gossip>, polys: Polys, q: Peer, p: Prover, m: Gossip)
    requires Late(g, log, polys, q, p)
    requires m == Round1Completed(q) ==> InputsComplete(g, p.engine.value.nodes)
    requires m == Round2Completed(q) ==> PubsharesComplete(g, p.engine.value.nodes)
    ensures Late(g, log + {m}, polys, q, p)
  {
    hide NodesInv;
    hide Rounds1;
    hide Configured;
    hide InputsComplete;
    hide PubsharesComplete;
    NodesGrow(g, log, log + {m}, polys, q, p.engine.value.nodes);
    forall c | c in p.mailbox
      ensures CommandInv(g, log + {m}, q, c)
    {
      assert CommandInv(g, log, q, c);
    }
  }

  lemma ProverGrows(g: Setup, log: set<Gossip>, polys: Polys, q: Peer, p: Prover, m: Gossip)
    requires ProverInv(g, log, polys, q, p) && OwnReport(g, log, polys, q, p, m)
    requires m == Round1Completed(q) || m == Round2Completed(q) ==> InitCompleted(q) in log
    ensures ProverInv(g, log + {m}, polys, q, p)
  {
    hide Late;
    hide EngineBefore;
    hide InputsComplete;
    hide PubsharesComplete;
    if InitCompleted(q) in log + {m} {
      LateEngine(g, log, polys, q, p);
      LateGrows(g, log, polys, q, p, m);
    }
  }

  lemma LateEngine(g: Setup, log: set<Gossip>, polys: Polys, q: Peer, p: Prover)
    requires Late(g, log, polys, q, p)
    ensures p.engine.Some?
  {
  }

  /** Delivery to come: a start signal is new, so it is the only copy. */
  lemma ProverPost(g: Setup, log: set<Gossip>, polys: Polys, q: Peer, p: Prover, m: Gossip)
    requires ProverInv(g, log, polys, q, p) && m in log && ForProvers(m)
    requires m == StartResharingInit ==> InitCompleted(q) !in log && m !in p.pending && InitCommand(g, q) !in p.mailbox
    requires m == StartResharingRound1 && InitCompleted(q) in log ==> Rounds1(g, polys, q, p) == 0
    ensures ProverInv(g, log, polys, q, Post(p, m))
  {
    hide EngineBefore;
    hide Configured;
    hide NodesInv;
    hide InputsComplete;
    hide PubsharesComplete;
    hide CommandInv;
    var p' := Post(p, m);
    assert forall x :: p'.pending[x] == p.pending[x] + (if x == m then 1 else 0);
  }

  /** Before a start signal is published, nothing it causes exists. */
  lemma BeforeStartInit(g: Setup, log: set<Gossip>, polys: Polys, q: Peer, p: Prover)
    requires LogInv(g, log, polys) && ProverInv(g, log, polys, q, p) && StartResharingInit !in log
    ensures InitCompleted(q) !in log && StartResharingInit !in p.pending && InitCommand(g, q) !in p.mailbox
  {
    hide Late;
    hide PolysOk;
    hide EngineBefore;
    assert InitCompleted(q) in log ==> MessageInv(g, log, polys, InitCompleted(q));
  }

  lemma BeforeStartRound1(g: Setup, log: set<Gossip>, polys: Polys, q: Peer, p: Prover)
    requires LogInv(g, log, polys) && ProverInv(g, log, polys, q, p) && StartResharingRound1 !in log && InitCompleted(q) in log
    ensures Rounds1(g, polys, q, p) == 0
  {
    hide PolysOk;
    hide NodesInv;
    hide Configured;
    hide MessageInv;
    var run := RunRound1(g.attempt.threshold, q in g.attempt.quorum);
    assert StartRound1 !in p.mailbox && run !in p.mailbox;
    assert StartRound1 !in multiset(p.mailbox) && run !in multiset(p.mailbox);
  }

  lemma AllInitialised(g: Setup, log: set<Gossip>, polys: Polys, q: Peer)
    requires LogInv(g, log, polys) && StartResharingRound1 in log && q in Participants(g)
    ensures InitCompleted(q) in log
  {
    hide PolysOk;
    hide MessageInv;
    assert NextStage(Initialisation) == StartResharingRound1 && ReportOf(Initialisation, q) == InitCompleted(q);
  }

  /** Whoever reports the end of a round has been initialised. */
  lemma ReporterInitialised(g: Setup, log: set<Gossip>, polys: Polys, q: Peer, m: Gossip)
    requires LogInv(g, log, polys) && MessageInv(g, log, polys, m) && (m == Round1Completed(q) || m == Round2Completed(q))
    ensures q in Participants(g) && InitCompleted(q) in log
  {
    hide PolysOk;
    AllInitialised(g, log, polys, q);
  }

  lemma ProverPublish(g: Setup, log: set<Gossip>, polys: Polys, q: Peer, p: Prover, m: Gossip)
    requires LogInv(g, log, polys) && ProverInv(g, log, polys, q, p) && q in Participants(g)
    requires MessageInv(g, log, polys, m) && OwnReport(g, log, polys, q, p, m)
    requires m == StartResharingInit || m == StartResharingRound1 ==> m !in log
    ensures ProverInv(g, log + {m}, polys, q, p)
    ensures ForProvers(m) ==> ProverInv(g, log + {m}, polys, q, Post(p, m))
  {
    hide LogInv;
    hide ProverInv;
    hide MessageInv;
    hide OwnReport;
    hide Participants;
    hide Rounds1;
    if m == Round1Completed(q) || m == Round2Completed(q) {
      ReporterInitialised(g, log, polys, q, m);
    }
    ProverGrows(g, log, polys, q, p, m);
    if m == StartResharingInit {
      BeforeStartInit(g, log, polys, q, p);
    } else if m == StartResharingRound1 && InitCompleted(q) in log {
      BeforeStartRound1(g, log, polys, q, p);
    }
    if ForProvers(m) {
      ProverPost(g, log + {m}, polys, q, p, m);
    }
  }

  lemma PublishKeeps(g: Setup, s: State, from: Option<Peer>, m: Gossip)
    requires Invariant(g, s) && Justified(g, s, m)
    ensures Invariant(g, Publish(s, from, m))
  {
    hide ProverInv;
    hide Participants;
    hide PolysOk;
    hide MessageInv;
    hide OwnReport;
    var s' := Publish(s, from, m);
    assert NextStage(ReElection) == StartResharingInit && NextStage(Initialisation) == StartResharingRound1;
    forall q | q in Participants(g)
      ensures ProverInv(g, s'.log, s'.polys, q, s'.provers[q])
    {
      ProverPublish(g, s.log, s.polys, q, s.provers[q], m);
    }
    LogPublish(g, s.log, s.polys, m);
  }

  // ---------- the relay ----------

  lemma RequiredAre(g: Setup, s: State, stage: Stage)
    requires RelayInv(g, s)
    ensures Required(s.relay, stage) == RequiredOf(g, stage) && Quota(s.relay, stage) == |RequiredOf(g, stage)|
  {
    hide Members;
  }

  lemma ReportsAreRequired(g: Setup, s: State, stage: Stage, q: Peer)
    requires LogInv(g, s.log, s.polys) && ReportOf(stage, q) in s.log
    ensures q in RequiredOf(g, stage)
  {
    hide PolysOk;
    assert MessageInv(g, s.log, s.polys, ReportOf(stage, q));
  }

  lemma RecordedAreRequired(g: Setup, s: State, stage: Stage)
    requires LogInv(g, s.log, s.polys) && RelayInv(g, s)
    ensures Recorded(s.relay, stage) <= RequiredOf(g, stage)
  {
    hide LogInv;
    hide ReportOf;
    hide RequiredOf;
    forall q | q in Recorded(s.relay, stage)
      ensures q in RequiredOf(g, stage)
    {
      ReportsAreRequired(g, s, stage, q);
    }
  }

  ghost predicate RecordsReport(s: State, s': State, stage: Stage, q: Peer) {
    && s'.log == s.log && s'.toRelay <= s.toRelay
    && s'.relay == Record(s.relay, stage, q).0
  }

  lemma RecordKeeps(g: Setup, s: State, s': State, stage: Stage, q: Peer)
    requires LogInv(g, s.log, s.polys) && RelayInv(g, s) && ReportOf(stage, q) in s.log
    requires RecordsReport(s, s', stage, q)
    ensures RelayInv(g, s')
    ensures Record(s.relay, stage, q).1 ==> Recorded(s'.relay, stage) == RequiredOf(g, stage) && NextStage(stage) !in s.log
  {
    hide LogInv;
    hide Members;
    hide RequiredOf;
    hide Required;
    hide Quota;
    RequiredAre(g, s, stage);
    ReportsAreRequired(g, s, stage, q);
    RecordedAreRequired(g, s, stage);
    SubsetOfSameSize(Recorded(s'.relay, stage), RequiredOf(g, stage));
  }

  /** All new members completed round 1, so all of T* has dealt. */
  lemma AllDealt(g: Setup, s: State, q: Peer)
    requires Invariant(g, s) && Round1Completed(q) in s.log
    ensures StartResharingRound1 in s.log && s.polys.Keys == Dealers(g)
  {
    hide RelayInv;
    hide PolysOk;
    hide Late;
    assert MessageInv(g, s.log, s.polys, Round1Completed(q));
    ReporterInitialised(g, s.log, s.polys, q, Round1Completed(q));
    AllDealtTo(g, s.log, s.polys, q, s.provers[q]);
  }

  lemma AllDealtTo(g: Setup, log: set<Gossip>, polys: Polys, q: Peer, p: Prover)
    requires PolysOk(g, polys) && Late(g, log, polys, q, p) && Round1Completed(q) in log
    ensures polys.Keys == Dealers(g)
  {
    hide DealOk;
    hide CommandInv;
    hide Rounds1;
    hide Configured;
    hide SharesInv;
    hide Dealers;
    hide PubsharesComplete;
    var nd := p.engine.value.nodes[OPRFSecp256k1];
    assert InputsInv(g, polys, q, OPRFSecp256k1, nd);
  }

  lemma OpeningJustified(g: Setup, s: State, stage: Stage, q: Peer)
    requires Invariant(g, s) && ReportOf(stage, q) in s.log
    requires Recorded(s.relay, stage) == RequiredOf(g, stage) && NextStage(stage) !in s.log
    ensures Justified(g, s, NextStage(stage))
  {
    hide ProverInv;
    hide RelayInv;
    hide RequiredOf;
    hide PolysOk;
    if stage == FirstRound {
      AllDealt(g, s, q);
    } else if stage == SecondRound {
      assert MessageInv(g, s.log, s.polys, Round2Completed(q));
    }
  }

  lemma PublishOne(s: State, from: Option<Peer>, m: Gossip)
    ensures PublishAll(s, from, [m]) == Publish(s, from, m)
  {
    hide Publish;
    assert [m][1..] == [];
  }

  lemma RelayKeeps(g: Setup, s: State, m: Gossip)
    requires Invariant(g, s) && m in s.toRelay && ForRelay(m)
    ensures Invariant(g, RelayStep(s, m))
  {
    hide ProverInv;
    hide LogInv;
    hide Justified;
    hide Record;
    hide Recorded;
    hide RequiredOf;
    hide PublishAll;
    hide Publish;
    hide Participants;
    var stage := StageOf(m);
    assert m == ReportOf(stage, m.peer) && m in s.log;
    var s' := s.(relay := Record(s.relay, stage, m.peer).0, toRelay := s.toRelay - multiset{m});
    RecordKeeps(g, s, s', stage, m.peer);
    if Record(s.relay, stage, m.peer).1 {
      OpeningJustified(g, s', stage, m.peer);
      PublishKeeps(g, s', None, NextStage(stage));
      PublishOne(s', None, NextStage(stage));
    } else {
      PublishNone(s', None);
    }
  }

  lemma PublishNone(s: State, from: Option<Peer>)
    ensures PublishAll(s, from, []) == s
  {
  }

  // ---------- a prover's election and gossip actors ----------

  lemma UpdateKeeps(g: Setup, s: State, q: Peer, p: Prover)
    requires Invariant(g, s) && q in Participants(g) && ProverInv(g, s.log, s.polys, q, p)
    ensures Invariant(g, s.(provers := s.provers[q := p]))
  {
    hide ProverInv;
    hide LogInv;
    hide Recorded;
    hide RequiredOf;
    hide Members;
    hide ReportOf;
  }

  lemma AnnouncedProver(g: Setup, log: set<Gossip>, polys: Polys, q: Peer, p: Prover, p': Prover)
    requires ProverInv(g, log, polys, q, p) && ReElectedProvers in p.pending
    requires p' == p.(pending := p.pending - multiset{ReElectedProvers}, context := Some(g.attempt), mailbox := p.mailbox + [ClearShares])
    ensures ProverInv(g, log, polys, q, p') && p'.pending[ReElectedProvers] == 0 && p'.context == Some(g.attempt)
  {
    hide EngineBefore;
    hide NodesInv;
    hide CommandInv;
  }

  lemma AnnouncedKeeps(g: Setup, s: State, q: Peer)
    requires Invariant(g, s) && q in s.provers && ReElectedProvers in s.provers[q].pending
    ensures Invariant(g, AnnouncedStep(g, s, q))
  {
    hide ProverInv;
    hide LogInv;
    hide RelayInv;
    hide PublishAll;
    hide Publish;
    hide Late;
    hide NextStage;
    var p := s.provers[q];
    var p' := p.(pending := p.pending - multiset{ReElectedProvers}, context := Some(g.attempt), mailbox := p.mailbox + [ClearShares]);
    AnnouncedProver(g, s.log, s.polys, q, p, p');
    UpdateKeeps(g, s, q, p');
    var s' := s.(provers := s.provers[q := p']);
    ReportJustified(g, s', q);
    PublishKeeps(g, s', Some(q), ReElectionReport(q));
    PublishOne(s', Some(q), ReElectionReport(q));
  }

  lemma ReportJustified(g: Setup, s: State, q: Peer)
    requires q in s.provers && q in Participants(g) && s.provers[q].pending[ReElectedProvers] == 0 && s.provers[q].context == Some(g.attempt)
    ensures Justified(g, s, ReElectionReport(q))
  {
  }

  lemma StartInitProver(g: Setup, log: set<Gossip>, polys: Polys, q: Peer, p: Prover, p': Prover)
    requires LogInv(g, log, polys) && ProverInv(g, log, polys, q, p) && q in Participants(g) && StartResharingInit in p.pending
    requires p' == p.(pending := p.pending - multiset{StartResharingInit}, mailbox := p.mailbox + [InitCommand(g, q)])
    ensures p.context == Some(g.attempt)
    ensures ProverInv(g, log, polys, q, p')
  {
    hide EngineBefore;
    hide NodesInv;
    hide CommandInv;
    hide PolysOk;
    hide MessageInv;
    assert NextStage(ReElection) == StartResharingInit && ReportOf(ReElection, q) == ReElectionReport(q);
    assert p'.mailbox == [InitCommand(g, q)] || p'.mailbox == [ClearShares, InitCommand(g, q)];
  }

  lemma StartInitKeeps(g: Setup, s: State, q: Peer)
    requires Invariant(g, s) && q in s.provers && StartResharingInit in s.provers[q].pending
    ensures Invariant(g, StartInitStep(s, q))
  {
    hide ProverInv;
    hide LogInv;
    hide RelayInv;
    var p := s.provers[q];
    var p' := p.(pending := p.pending - multiset{StartResharingInit}, mailbox := p.mailbox + [InitCommand(g, q)]);
    StartInitProver(g, s.log, s.polys, q, p, p');
    UpdateKeeps(g, s, q, p');
    assert StartInitStep(s, q) == s.(provers := s.provers[q := p']);
  }

  /** Whatever reaches an engine was published after the initialisation. */
  lemma AfterInit(g: Setup, log: set<Gossip>, polys: Polys, q: Peer, m: Gossip)
    requires LogInv(g, log, polys) && m in log && ForEngine(m) && q in Participants(g)
    ensures InitCompleted(q) in log
  {
    hide PolysOk;
    assert MessageInv(g, log, polys, m);
    AllInitialised(g, log, polys, q);
  }

  lemma DeliverProver(g: Setup, log: set<Gossip>, polys: Polys, q: Peer, p: Prover, m: Gossip, p': Prover)
    requires LogInv(g, log, polys) && ProverInv(g, log, polys, q, p) && q in Participants(g) && m in p.pending && ForEngine(m)
    requires p' == p.(pending := p.pending - multiset{m}, mailbox := p.mailbox + [ToCommand(m)])
    ensures ProverInv(g, log, polys, q, p')
  {
    hide LogInv;
    hide NodesInv;
    hide Configured;
    hide InputsComplete;
    hide PubsharesComplete;
    hide Early;
    hide Participants;
    hide Rounds1;
    AfterInit(g, log, polys, q, m);
    DeliverRounds(g, polys, q, p, m, p');
    assert CommandInv(g, log, q, ToCommand(m));
    hide ToCommand;
    hide CommandInv;
    assert p'.pending[ReElectedProvers] <= p.pending[ReElectedProvers] && p'.pending[StartResharingInit] <= p.pending[StartResharingInit];
    forall c | c in p'.mailbox
      ensures CommandInv(g, log, q, c)
    {
    }
  }

  lemma DeliverRounds(g: Setup, polys: Polys, q: Peer, p: Prover, m: Gossip, p': Prover)
    requires m in p.pending && ForEngine(m)
    requires p' == p.(pending := p.pending - multiset{m}, mailbox := p.mailbox + [ToCommand(m)])
    ensures Rounds1(g, polys, q, p') == Rounds1(g, polys, q, p)
  {
    hide Idx;
  }

  lemma DeliverKeeps(g: Setup, s: State, q: Peer, m: Gossip)
    requires Invariant(g, s) && q in s.provers && m in s.provers[q].pending && ForEngine(m)
    ensures Invariant(g, DeliverStep(s, q, m))
  {
    hide ProverInv;
    hide LogInv;
    hide RelayInv;
    var p := s.provers[q];
    var p' := p.(pending := p.pending - multiset{m}, mailbox := p.mailbox + [ToCommand(m)]);
    DeliverProver(g, s.log, s.polys, q, p, m, p');
    UpdateKeeps(g, s, q, p');
  }

  lemma LoseProver(g: Setup, log: set<Gossip>, polys: Polys, q: Peer, p: Prover, m: Gossip)
    requires ProverInv(g, log, polys, q, p)
    ensures ProverInv(g, log, polys, q, p.(pending := p.pending - multiset{m}))
  {
    hide EngineBefore;
    hide NodesInv;
    hide CommandInv;
  }

  lemma LoseKeeps(g: Setup, s: State, q: Peer, m: Gossip)
    requires Invariant(g, s) && q in s.provers
    ensures Invariant(g, LoseStep(s, q, m))
  {
    hide ProverInv;
    hide LogInv;
    hide RelayInv;
    LoseProver(g, s.log, s.polys, q, s.provers[q], m);
    UpdateKeeps(g, s, q, s.provers[q].(pending := s.provers[q].pending - multiset{m}));
  }

  // ---------- what the rounds compute ----------

  /** An index map that gives every prover its own index has as many indices as provers. */
  lemma {:induction false} DistinctValues(m: map<Peer, nat>)
    requires forall q, r :: q in m && r in m && m[q] == m[r] ==> q == r
    ensures |m.Values| == |m|
    decreases |m|
  {
    if m != map[] {
      assert m.Keys != {};
      var q :| q in m.Keys;
      var rest := m - {q};
      assert rest.Keys == m.Keys - {q};
      DistinctValues(rest);
      assert forall r :: r in m ==> r == q || (r in rest && rest[r] == m[r]);
      assert m.Values == rest.Values + {m[q]} by {
        assert m[q] in m.Values;
        forall x | x in rest.Values
          ensures x in m.Values
        {
          var r :| r in rest && rest[r] == x;
          assert m[r] == x;
        }
      }
      assert m[q] !in rest.Values;
      assert |rest| == |rest.Keys| && |m| == |m.Keys|;
    }
  }

  lemma Sizes(g: Setup)
    requires OwnIndices(g)
    ensures |Dealers(g)| == |g.attempt.tstar| && |NewMembers(g)| == |g.attempt.quorum|
  {
    forall q, r | q in g.attempt.quorum && r in g.attempt.quorum && g.attempt.quorum[q] == g.attempt.quorum[r]
      ensures q == r
    {
      assert Idx(g, q) == g.attempt.quorum[q] && Idx(g, r) == g.attempt.quorum[r];
    }
    forall q, r | q in g.attempt.tstar && r in g.attempt.tstar && g.attempt.tstar[q] == g.attempt.tstar[r]
      ensures q == r
    {
      assert Idx(g, q) == Idx(g, r);
    }
    DistinctValues(g.attempt.tstar);
    DistinctValues(g.attempt.quorum);
  }

  lemma OwnIndex(g: Setup, q: Peer)
    requires OwnIndices(g)
    ensures q in g.attempt.tstar ==> Idx(g, q) in Dealers(g)
    ensures q in g.attempt.quorum ==> Idx(g, q) == g.attempt.quorum[q] && Idx(g, q) in NewMembers(g)
  {
  }

  lemma DealerHonest(g: Setup, k: KeyType, d: nat, c: seq<int>)
    requires KeyMatches(g, k) && d in Dealers(g) && DealOk(g, d, k, c)
    ensures c == Resharing.DealerPoly(g.curve(k), d, g.shares[k][d], g.shares[k].Keys, c)
  {
    hide Sum;
    hide Lagrange;
    hide Dealers;
    hide IndexSet;
    assert c == [c[0]] + c[1..];
  }

  /** Once all of T* has dealt, its polynomials are those of an honest transfer. */
  lemma DealtHonestly(g: Setup, polys: Polys, k: KeyType)
    requires PolysOk(g, polys) && KeyMatches(g, k) && k in AllTypes() && polys.Keys == Dealers(g) && g.attempt.threshold >= 1
    ensures Epochs.Drawn(g.shares[k], Of(polys, k), g.attempt.threshold)
    ensures Of(polys, k) == Epochs.DealerPolys(g.curve(k), g.shares[k], Of(polys, k), g.attempt.threshold)
    ensures NewPoly(g, polys, k) == SumPoly(Epochs.HonestV(g.curve(k), Of(polys, k)), g.attempt.threshold)
  {
    hide AllTypes;
    hide Sum;
    hide SumPoly;
    hide Dealers;
    hide IndexSet;
    hide DealtConstant;
    hide Resharing.DealerPoly;
    hide Additive;
    var t, random := g.attempt.threshold, Of(polys, k);
    forall d | d in polys
      ensures |random[d]| == t
    {
      assert DealOk(g, d, k, At(polys, d, k));
    }
    forall d | d in polys
      ensures random[d] == Epochs.DealerPolys(g.curve(k), g.shares[k], random, t)[d]
    {
      DealerHonest(g, k, d, random[d]);
    }
    SamePolys(random, Epochs.DealerPolys(g.curve(k), g.shares[k], random, t));
  }

  lemma SamePolys(a: map<nat, seq<int>>, b: map<nat, seq<int>>)
    requires a.Keys == b.Keys && forall d :: d in a ==> a[d] == b[d]
    ensures a == b
  {
  }

  lemma CompleteInputs(g: Setup, polys: Polys, q: Peer, k: KeyType, nd: NodeData)
    requires InputsInv(g, polys, q, k, nd) && nd.inputY.Keys == Dealers(g) == polys.Keys
    ensures nd.inputY == Epochs.HonestY(g.curve(k), Of(polys, k), Idx(g, q))
    ensures nd.inputV == Epochs.HonestV(g.curve(k), Of(polys, k))
  {
    hide Dealers;
    hide Idx;
    hide Eval;
    hide Commit;
    SamePolys(nd.inputV, Epochs.HonestV(g.curve(k), Of(polys, k)));
  }

  /** Round 2 of one key type passes on complete inputs, with the share on the new polynomial. */
  lemma Round2Computes(g: Setup, polys: Polys, q: Peer, k: KeyType, nd: NodeData)
    requires KeyMatches(g, k) && OwnIndices(g) && PowersFit(g) && PolysOk(g, polys) && k in AllTypes() && g.attempt.threshold >= 1
    requires q in g.attempt.quorum && InputsInv(g, polys, q, k, nd) && nd.inputY.Keys == Dealers(g) == polys.Keys
    ensures Resharing.Round2(g.curve(k), Idx(g, q), |g.attempt.tstar|, g.attempt.threshold, nd.inputY, nd.inputV, GroupKey(g, k))
            == Ok(Keys(NewShare(g, polys, k, Idx(g, q)), NewShare(g, polys, k, Idx(g, q)), GroupKey(g, k)))
  {
    hide AllTypes;
    hide PolysOk;
    hide Dealers;
    hide InputsInv;
    hide Epochs.HonestY;
    hide Epochs.HonestV;
    hide Sum;
    hide Additive;
    hide Resharing.Round2;
    hide SumPoly;
    hide Eval;
    hide Power;
    hide IndexSet;
    hide NewPoly;
    hide Epochs.DealerPolys;
    hide Epochs.Drawn;
    hide OwnIndices;
    hide Of;
    Sizes(g);
    OwnIndex(g, q);
    assert |g.shares[k].Keys| == |g.shares[k]|;
    DealtHonestly(g, polys, k);
    CompleteInputs(g, polys, q, k, nd);
    Epochs.HonestShare(g.curve(k), g.shares[k], Of(polys, k), g.attempt.threshold, Idx(g, q), GroupKey(g, k));
  }

  /** The constant term of the new polynomial is the group key. */
  lemma NewConstant(g: Setup, polys: Polys, k: KeyType)
    requires KeyMatches(g, k) && PolysOk(g, polys) && k in AllTypes() && g.attempt.threshold >= 1 && polys.Keys == Dealers(g)
    ensures GroupKey(g, k) == NewShare(g, polys, k, 0) && |NewPoly(g, polys, k)| == g.attempt.threshold
  {
    hide AllTypes;
    hide PolysOk;
    hide Sum;
    hide Additive;
    hide SumPoly;
    hide Eval;
    hide IndexSet;
    hide NewPoly;
    hide Epochs.DealerPolys;
    hide Dealers;
    var p, t := g.curve(k), g.attempt.threshold;
    DealtHonestly(g, polys, k);
    Epochs.HonestConstants(p, g.shares[k], Of(polys, k), t);
    Resharing.ConstantOnSum(p, t, Epochs.HonestV(p, Of(polys, k)));
  }

  // ---------- a prover's engine, before the initialisation ----------

  lemma ClearProver(g: Setup, log: set<Gossip>, polys: Polys, q: Peer, p: Prover)
    requires ProverInv(g, log, polys, q, p) && p.mailbox != [] && p.mailbox[0] == ClearShares
    ensures var effect := HandleClearShares(p.engine);
            ProverInv(g, log, polys, q, p.(engine := effect.state, mailbox := p.mailbox[1..] + effect.casts))
  {
    hide NodesInv;
    hide AllTypes;
    hide OldShare;
    assert p.mailbox[0] in p.mailbox;
    assert p.mailbox[1..] == [] || p.mailbox[1..] == [InitCommand(g, q)];
  }

  /** A fresh start: nothing is received, and T* still holds the old shares. */
  lemma ClearedNodes(g: Setup, log: set<Gossip>, polys: Polys, q: Peer, nodes: map<KeyType, NodeData>)
    requires nodes.Keys == AllTypes()
    requires forall k :: k in nodes ==> nodes[k].node.id == Idx(g, q)
    requires q in g.attempt.tstar ==> forall k :: k in nodes ==> nodes[k].node.privateShare == OldShare(g, k, Idx(g, q))
    ensures NodesInv(g, log, polys, q, Cleared(nodes))
  {
    hide AllTypes;
    hide OldShare;
    hide NewShare;
    hide Idx;
  }

  lemma RestoredEngine(g: Setup, q: Peer, stored: map<KeyType, int>)
    requires EngineBefore(g, q, None, stored) && q in g.attempt.tstar
    ensures var e := Restored(Idx(g, q), q, g.attempt, stored);
            EngineBefore(g, q, e, stored) && (e.Some? ==> e.value.peer == q)
  {
    hide AllTypes;
    hide OldShare;
    hide Idx;
  }

  /** Taking part in this attempt, with nothing received. */
  ghost predicate Ready(g: Setup, q: Peer, e: Engine) {
    Configured(g, q, e) && Cleared(e.nodes) == e.nodes
  }

  lemma ReinitialisedEngine(g: Setup, q: Peer, e: Engine, stored: map<KeyType, int>)
    requires EngineBefore(g, q, Some(e), stored)
    ensures EngineBefore(g, q, Some(Reinitialised(e, g.attempt)), stored) && Ready(g, q, Reinitialised(e, g.attempt))
  {
    hide AllTypes;
    hide OldShare;
    hide Idx;
  }

  lemma InitialisedEngine(g: Setup, q: Peer, stored: map<KeyType, int>, drawn: KeyType -> int)
    requires q in g.attempt.quorum && q !in g.attempt.tstar
    ensures var e := Initialised(Idx(g, q), q, g.attempt, drawn);
            e.Some? ==> EngineBefore(g, q, e, stored) && Ready(g, q, e.value)
  {
    hide AllTypes;
    hide OldShare;
    hide Idx;
  }

  /** `handle_resharing_init` either fails, which the sizes decide, or leaves an
      engine configured for this attempt with nothing received. */
  lemma InitEngine(g: Setup, q: Peer, engine: Option<Engine>, stored: map<KeyType, int>, drawn: KeyType -> int)
    requires EngineBefore(g, q, engine, stored) && q in Participants(g) && AllTypes() <= g.attempt.groupKeys.Keys
    ensures var effect := HandleInit(engine, Idx(g, q), q, g.attempt, stored, drawn);
            && EngineBefore(g, q, effect.state, stored)
            && effect.casts == []
            && (Sized(g) ==> !effect.failed && effect.gossip != [])
            && (effect.gossip == []
                || (effect.gossip == [InitCompleted(q)] && ValidSize(g.attempt.threshold, |g.attempt.tstar|, true)
                    && effect.state.Some? && Ready(g, q, effect.state.value)))
  {
    hide AllTypes;
    hide OldShare;
    hide Idx;
    hide Initialised;
    hide Reinitialised;
    hide Ready;
    assert engine.None? && q in g.attempt.tstar ==> AllTypes() <= stored.Keys;
    assert engine.Some? ==> engine.value.peer == q;
    assert q in g.attempt.tstar || q in g.attempt.quorum;
    hide EngineBefore;
    hide Restored;
    hide Participants;
    var effect := HandleInit(engine, Idx(g, q), q, g.attempt, stored, drawn);
    var e1 := if q in g.attempt.tstar && engine.None? then Restored(Idx(g, q), q, g.attempt, stored) else engine;
    if !ValidSize(g.attempt.threshold, |g.attempt.tstar|, true) {
      assert effect == Refused(engine);
    } else {
      if q in g.attempt.tstar && engine.None? {
        RestoredEngine(g, q, stored);
      }
      if e1.Some? {
        ReinitialisedEngine(g, q, e1.value, stored);
        assert effect == Effect(Some(Reinitialised(e1.value, g.attempt)), [InitCompleted(q)], [], false);
      } else if q !in g.attempt.tstar {
        InitialisedEngine(g, q, stored, drawn);
      }
    }
  }

  lemma StateOfInit(g: Setup, log: set<Gossip>, polys: Polys, q: Peer, p: Prover)
    requires LogInv(g, log, polys) && ProverInv(g, log, polys, q, p) && InitCompleted(q) !in log && q in Participants(g)
    ensures StartResharingRound1 !in log && Round1Completed(q) !in log && Round2Completed(q) !in log && polys == map[]
    ensures p.pending[StartResharingRound1] == 0
  {
    hide PolysOk;
    hide EngineBefore;
    if StartResharingRound1 in log {
      AllInitialised(g, log, polys, q);
    }
    assert Round1Completed(q) in log ==> MessageInv(g, log, polys, Round1Completed(q));
    assert Round2Completed(q) in log ==> MessageInv(g, log, polys, Round2Completed(q));
  }

  lemma ReadyIsLate(g: Setup, log: set<Gossip>, polys: Polys, q: Peer, p: Prover)
    requires LogInv(g, log, polys) && ProverInv(g, log, polys, q, p) && InitCompleted(q) !in log && q in Participants(g)
    requires StartResharingInit in log && p.pending[StartResharingInit] == 0 && p.mailbox == []
    requires ValidSize(g.attempt.threshold, |g.attempt.tstar|, true)
    requires p.engine.Some? && Ready(g, q, p.engine.value)
    ensures Late(g, log, polys, q, p)
  {
    hide LogInv;
    hide NodesInv;
    hide Configured;
    hide AllTypes;
    hide Cleared;
    hide Participants;
    StateOfInit(g, log, polys, q, p);
    assert ReElectionReport(q) in log by {
      Reported(g, log, polys, q);
    }
    ClearedNodes(g, log, polys, q, p.engine.value.nodes);
  }

  lemma Reported(g: Setup, log: set<Gossip>, polys: Polys, q: Peer)
    requires LogInv(g, log, polys) && StartResharingInit in log && q in Participants(g)
    ensures ReElectionReport(q) in log
  {
    hide PolysOk;
    hide MessageInv;
    assert NextStage(ReElection) == StartResharingInit && ReportOf(ReElection, q) == ReElectionReport(q);
  }

  lemma InitProver(g: Setup, log: set<Gossip>, polys: Polys, q: Peer, p: Prover, drawn: KeyType -> int)
    requires LogInv(g, log, polys) && ProverInv(g, log, polys, q, p) && q in Participants(g) && AllTypes() <= g.attempt.groupKeys.Keys
    requires InitCompleted(q) !in log && p.mailbox != [] && p.mailbox[0].ResharingInit?
    ensures p.mailbox[0] == InitCommand(g, q)
    ensures var effect := HandleInit(p.engine, Idx(g, q), q, g.attempt, p.stored, drawn);
            var p' := p.(engine := effect.state, mailbox := p.mailbox[1..] + effect.casts);
            && ProverInv(g, log, polys, q, p')
            && (Sized(g) ==> !effect.failed && effect.gossip != [])
            && (effect.gossip == []
                || (effect.gossip == [InitCompleted(q)] && StartResharingInit in log && Late(g, log, polys, q, p')))
  {
    hide LogInv;
    hide EngineBefore;
    hide Late;
    hide HandleInit;
    hide AllTypes;
    hide Idx;
    hide Participants;
    hide Ready;
    assert p.mailbox == [InitCommand(g, q)] && p.mailbox[0] in p.mailbox && p.mailbox[1..] == [];
    InitEngine(g, q, p.engine, p.stored, drawn);
    var effect := HandleInit(p.engine, Idx(g, q), q, g.attempt, p.stored, drawn);
    var p' := p.(engine := effect.state, mailbox := []);
    assert p.mailbox[1..] + effect.casts == [];
    if effect.gossip != [] {
      ReadyIsLate(g, log, polys, q, p');
    }
  }

  // ---------- a prover's engine, after the initialisation ----------

  lemma PopCounts(mailbox: seq<Command>, casts: seq<Command>, x: Command)
    requires mailbox != []
    ensures multiset(mailbox[1..] + casts)[x] + (if mailbox[0] == x then 1 else 0) == multiset(mailbox)[x] + multiset(casts)[x]
  {
    assert mailbox == [mailbox[0]] + mailbox[1..];
  }

  /** The engine handled a message: what has to be shown again. */
  lemma LateHandled(g: Setup, log: set<Gossip>, polys: Polys, polys': Polys, q: Peer, p: Prover, e: Engine, casts: seq<Command>, p': Prover)
    requires Late(g, log, polys, q, p) && p.mailbox != []
    requires p' == p.(engine := Some(e), mailbox := p.mailbox[1..] + casts)
    requires Configured(g, q, e) && NodesInv(g, log, polys', q, e.nodes)
    requires forall m :: m in casts ==> CommandInv(g, log, q, m)
    requires q in g.attempt.tstar ==> Rounds1(g, polys', q, p') <= Rounds1(g, polys, q, p)
    requires Round1Completed(q) in log ==> InputsComplete(g, e.nodes)
    requires Round2Completed(q) in log ==> PubsharesComplete(g, e.nodes)
    ensures Late(g, log, polys', q, p')
  {
    hide NodesInv;
    hide Configured;
    hide CommandInv;
    hide InputsComplete;
    hide PubsharesComplete;
    hide Rounds1;
    forall m | m in p'.mailbox
      ensures CommandInv(g, log, q, m)
    {
      assert m in p.mailbox || m in casts;
    }
  }

  /** No new chance to deal arises from any message but the start of round 1. */
  lemma RoundsKept(g: Setup, polys: Polys, q: Peer, p: Prover, casts: seq<Command>, p': Prover)
    requires p.mailbox != [] && p'.pending == p.pending && p'.mailbox == p.mailbox[1..] + casts
    requires StartRound1 !in casts
    requires var run := RunRound1(g.attempt.threshold, q in g.attempt.quorum);
             run !in casts || (casts == [run] && p.mailbox[0] == StartRound1)
    ensures Rounds1(g, polys, q, p') <= Rounds1(g, polys, q, p)
  {
    var run := RunRound1(g.attempt.threshold, q in g.attempt.quorum);
    PopCounts(p.mailbox, casts, StartRound1);
    PopCounts(p.mailbox, casts, run);
    assert StartRound1 !in multiset(casts) && (run in casts <==> run in multiset(casts));
  }

  lemma StartProverHandled(g: Setup, log: set<Gossip>, polys: Polys, q: Peer, p: Prover, effect: Effect)
    requires Late(g, log, polys, q, p) && p.mailbox != []
    requires (p.mailbox[0] == StartRound1 && effect == HandleStartRound1(p.engine))
             || (p.mailbox[0] == StartRound2 && effect == HandleStartRound2(p.engine))
             || (p.mailbox[0] == StartRound3 && effect == HandleStartRound3(p.engine))
    ensures effect.gossip == [] && !effect.failed
    ensures Late(g, log, polys, q, p.(engine := effect.state, mailbox := p.mailbox[1..] + effect.casts))
  {
    hide NodesInv;
    hide InputsComplete;
    hide PubsharesComplete;
    hide Rounds1;
    assert CommandInv(g, log, q, p.mailbox[0]);
    var p' := p.(engine := effect.state, mailbox := p.mailbox[1..] + effect.casts);
    RoundsKept(g, polys, q, p, effect.casts, p');
    LateHandled(g, log, polys, polys, q, p, p.engine.value, effect.casts, p');
  }

  // Round 1.

  /** What a dealer's output holds for prover q. */
  lemma DealFor(g: Setup, polys: Polys, d: nat, k: KeyType, i: nat)
    requires d in polys && k in polys[d] && i in NewMembers(g)
    ensures var deal, c := DealsOf(g.curve, polys[d], NewMembers(g))[k], At(polys, d, k);
            && i in deal.y && deal.y[i] == Cipher(i, Eval(g.curve(k), c, i))
            && deal.v == Commit(g.curve(k), c, |c|)
  {
    hide NewMembers;
    hide Eval;
    hide Commit;
  }

  /** Only the inputs change, and they gain the dealer. */
  predicate Gains(nd: NodeData, nd': NodeData, d: nat) {
    && nd'.node == nd.node && nd'.otherPubshares == nd.otherPubshares
    && nd'.inputY.Keys == nd.inputY.Keys + {d} && nd'.inputV.Keys == nd.inputV.Keys + {d}
  }

  predicate GainsDealer(nodes: map<KeyType, NodeData>, nodes': map<KeyType, NodeData>, d: nat) {
    nodes'.Keys == nodes.Keys && forall k :: k in nodes ==> Gains(nodes[k], nodes'[k], d)
  }

  lemma RegisteredNode(g: Setup, log: set<Gossip>, polys: Polys, q: Peer, k: KeyType, nd: NodeData, d: nat, y: Cipher, v: seq<int>)
    requires InputsInv(g, polys, q, k, nd) && SharesInv(g, log, polys, q, k, nd) && d in polys && q in g.attempt.quorum
    requires var c := At(polys, d, k); y == Cipher(Idx(g, q), Eval(g.curve(k), c, Idx(g, q))) && v == Commit(g.curve(k), c, |c|)
    ensures var nd' := Register(nd, d, y, v);
            InputsInv(g, polys, q, k, nd') && SharesInv(g, log, polys, q, k, nd') && Gains(nd, nd', d)
  {
    hide NewMembers;
    hide Idx;
    hide OldShare;
    hide NewShare;
    hide Eval;
    hide Commit;
  }

  lemma RegisteredNodes(g: Setup, log: set<Gossip>, polys: Polys, q: Peer, nodes: map<KeyType, NodeData>, d: nat)
    requires NodesInv(g, log, polys, q, nodes) && PolysOk(g, polys)
    requires d in polys && q in g.attempt.quorum && Idx(g, q) in NewMembers(g)
    ensures var nodes' := Registered(nodes, Idx(g, q), d, DealsOf(g.curve, polys[d], NewMembers(g)));
            NodesInv(g, log, polys, q, nodes') && GainsDealer(nodes, nodes', d)
  {
    hide AllTypes;
    hide NewMembers;
    hide Idx;
    hide InputsInv;
    hide SharesInv;
    hide Gains;
    hide DealsOf;
    hide DealOk;
    hide Dealers;
    hide Eval;
    hide Commit;
    var deals := DealsOf(g.curve, polys[d], NewMembers(g));
    var nodes' := Registered(nodes, Idx(g, q), d, deals);
    forall k | k in nodes
      ensures InputsInv(g, polys, q, k, nodes'[k]) && SharesInv(g, log, polys, q, k, nodes'[k]) && Gains(nodes[k], nodes'[k], d)
    {
      DealFor(g, polys, d, k, Idx(g, q));
      RegisteredNode(g, log, polys, q, k, nodes[k], d, deals[k].y[Idx(g, q)], deals[k].v);
    }
  }

  lemma GainKeepsComplete(g: Setup, nodes: map<KeyType, NodeData>, nodes': map<KeyType, NodeData>, d: nat)
    requires GainsDealer(nodes, nodes', d) && d in Dealers(g)
    ensures InputsComplete(g, nodes) ==> InputsComplete(g, nodes')
    ensures PubsharesComplete(g, nodes) ==> PubsharesComplete(g, nodes')
  {
    hide Dealers;
    hide NewMembers;
    hide Gains;
    forall k | k in nodes
      ensures nodes[k].inputY.Keys == nodes[k].inputV.Keys == Dealers(g) ==> nodes'[k].inputY.Keys == nodes'[k].inputV.Keys == Dealers(g)
      ensures nodes'[k].otherPubshares == nodes[k].otherPubshares
    {
      GainWithin(nodes[k], nodes'[k], d, Dealers(g));
    }
  }

  lemma GainWithin(nd: NodeData, nd': NodeData, d: nat, dealers: set<nat>)
    requires Gains(nd, nd', d) && d in dealers
    ensures nd.inputY.Keys == nd.inputV.Keys == dealers ==> nd'.inputY.Keys == nd'.inputV.Keys == dealers
    ensures nd'.otherPubshares == nd.otherPubshares
  {
    assert dealers + {d} == dealers;
  }

  /** Counting is enough: as many inputs as T* has provers are inputs from exactly T*. */
  lemma ReadyIsComplete(g: Setup, log: set<Gossip>, polys: Polys, q: Peer, e: Engine)
    requires Round1Ready(e) && e.tstarProvers == g.attempt.tstar && NodesInv(g, log, polys, q, e.nodes) && PolysOk(g, polys) && OwnIndices(g)
    ensures InputsComplete(g, e.nodes)
  {
    hide AllTypes;
    hide OwnIndices;
    hide Dealers;
    hide DealOk;
    hide SharesInv;
    Sizes(g);
    forall k | k in e.nodes
      ensures e.nodes[k].inputY.Keys == e.nodes[k].inputV.Keys == Dealers(g)
    {
      var nd := e.nodes[k];
      assert InputsInv(g, polys, q, k, nd);
      assert nd.inputY.Keys <= Dealers(g);
      Resharing.SameSizeSubset(nd.inputY.Keys, Dealers(g));
    }
  }

  /** A report that round 1 is complete is justified. */
  ghost predicate MayReport1(g: Setup, log: set<Gossip>, q: Peer, p: Prover) {
    q in g.attempt.quorum && StartResharingRound1 in log && p.engine.Some? && InputsComplete(g, p.engine.value.nodes)
  }

  lemma Round1OutHandled(g: Setup, log: set<Gossip>, polys: Polys, q: Peer, p: Prover, d: nat, deals: Deals, effect: Effect, p': Prover)
    requires LogInv(g, log, polys) && OwnIndices(g) && Late(g, log, polys, q, p)
    requires p.mailbox != [] && p.mailbox[0] == StoreRound1Out(d, deals) && effect == HandleRound1Out(p.engine, d, deals)
    requires p' == p.(engine := effect.state, mailbox := p.mailbox[1..] + effect.casts)
    ensures !effect.failed && Late(g, log, polys, q, p')
    ensures effect.gossip == [] || (effect.gossip == [Round1Completed(q)] && MayReport1(g, log, q, p'))
  {
    hide OwnIndices;
    hide NodesInv;
    hide InputsComplete;
    hide PubsharesComplete;
    hide Rounds1;
    hide Round1Ready;
    hide Registered;
    hide PolysOk;
    hide NewMembers;
    hide Idx;
    hide DealsOf;
    assert CommandInv(g, log, q, p.mailbox[0]);
    assert MessageInv(g, log, polys, Round1Out(d, deals));
    RoundsKept(g, polys, q, p, effect.casts, p');
    var e := p.engine.value;
    if q in g.attempt.quorum && d in e.tstarProvers.Values {
      OwnIndex(g, q);
      RegisteredNodes(g, log, polys, q, e.nodes, d);
      GainKeepsComplete(g, e.nodes, effect.state.value.nodes, d);
      if Round1Ready(effect.state.value) {
        ReadyIsComplete(g, log, polys, q, effect.state.value);
      }
    }
    LateHandled(g, log, polys, polys, q, p, effect.state.value, effect.casts, p');
  }

  // Dealing.

  /** Every dealer deals once, and before round 2 starts. */
  lemma DealsOnce(g: Setup, log: set<Gossip>, polys: Polys, q: Peer, p: Prover)
    requires LogInv(g, log, polys) && OwnIndices(g) && Late(g, log, polys, q, p) && p.mailbox != [] && p.mailbox[0].RunRound1?
    ensures p.mailbox[0] == RunRound1(g.attempt.threshold, q in g.attempt.quorum) && q in g.attempt.tstar
    ensures Idx(g, q) !in polys && StartResharingRound1 in log && StartResharingRound2 !in log
  {
    hide OwnIndices;
    hide NodesInv;
    hide PolysOk;
    hide MessageInv;
    hide Configured;
    hide Dealers;
    hide Idx;
    assert CommandInv(g, log, q, p.mailbox[0]);
    assert p.mailbox[0] in multiset(p.mailbox);
    OwnIndex(g, q);
  }

  /** One more dealer has dealt. */
  ghost predicate OneMoreDealer(polys: Polys, polys': Polys, d: nat) {
    d !in polys && polys'.Keys == polys.Keys + {d} && forall x :: x in polys ==> polys'[x] == polys[x]
  }

  lemma NodesAfterDeal(g: Setup, log: set<Gossip>, polys: Polys, polys': Polys, d: nat, q: Peer, nodes: map<KeyType, NodeData>)
    requires NodesInv(g, log, polys, q, nodes) && OneMoreDealer(polys, polys', d) && StartResharingRound2 !in log
    ensures NodesInv(g, log, polys', q, nodes)
  {
    hide AllTypes;
    hide NewMembers;
    hide OldShare;
    hide NewShare;
    hide Eval;
    hide Commit;
    hide Idx;
    forall k | k in nodes
      ensures InputsInv(g, polys', q, k, nodes[k]) && SharesInv(g, log, polys', q, k, nodes[k])
    {
      assert InputsInv(g, polys, q, k, nodes[k]) && SharesInv(g, log, polys, q, k, nodes[k]);
      assert forall x :: x in polys ==> At(polys', x, k) == At(polys, x, k);
    }
  }

  lemma OthersAfterDeal(g: Setup, log: set<Gossip>, polys: Polys, polys': Polys, d: nat, q: Peer, p: Prover)
    requires ProverInv(g, log, polys, q, p) && OneMoreDealer(polys, polys', d) && StartResharingRound2 !in log && Idx(g, q) != d
    ensures ProverInv(g, log, polys', q, p)
  {
    hide Configured;
    hide NodesInv;
    hide CommandInv;
    hide Idx;
    hide Early;
    hide InputsComplete;
    hide PubsharesComplete;
    if InitCompleted(q) in log {
      NodesAfterDeal(g, log, polys, polys', d, q, p.engine.value.nodes);
    }
  }

  lemma LogAfterDeal(g: Setup, log: set<Gossip>, polys: Polys, polys': Polys, d: nat)
    requires LogInv(g, log, polys) && PolysOk(g, polys') && OneMoreDealer(polys, polys', d)
    requires StartResharingRound1 in log && StartResharingRound2 !in log
    ensures LogInv(g, log, polys')
  {
    hide PolysOk;
    hide DealsOf;
    hide NewShares;
    hide NewMembers;
    hide RequiredOf;
    hide Participants;
    forall m | m in log
      ensures MessageInv(g, log, polys', m)
    {
      assert MessageInv(g, log, polys, m);
    }
  }

  lemma HonestDeal(g: Setup, e: Engine, k: KeyType, random: map<KeyType, seq<int>>)
    requires IsIndex(e.idx) && IndexSet(Dealers(g)) && e.tstarProvers == g.attempt.tstar && k in e.nodes
    requires e.nodes.Keys == random.Keys && g.attempt.threshold >= 1 && forall x :: x in random ==> |random[x]| == g.attempt.threshold
    requires e.nodes[k].node.privateShare == OldShare(g, k, e.idx)
    ensures DealOk(g, e.idx, k, DealerPolys(g.curve, e, random)[k])
  {
    hide Lagrange;
    hide IndexSet;
    hide OldShare;
  }

  lemma ConfiguredOk(g: Setup, log: set<Gossip>, polys: Polys, q: Peer, e: Engine)
    requires Configured(g, q, e) && NodesInv(g, log, polys, q, e.nodes) && q in Participants(g)
    requires OwnIndices(g) && IndexSet(Dealers(g)) && IndexSet(NewMembers(g))
    ensures EngineOk(e)
  {
    hide OwnIndices;
    hide AllTypes;
    OwnIndex(g, q);
    assert forall k :: k in e.nodes ==> SharesInv(g, log, polys, q, k, e.nodes[k]);
  }

  ghost function AfterDeal(g: Setup, polys: Polys, e: Engine, random: map<KeyType, seq<int>>): Polys
    requires EngineOk(e) && e.nodes.Keys == random.Keys && forall k :: k in random ==> random[k] != []
  {
    polys[e.idx := DealerPolys(g.curve, e, random)]
  }

  lemma PolysAdd(g: Setup, polys: Polys, d: nat, row: map<KeyType, seq<int>>)
    requires PolysOk(g, polys) && d !in polys && d in Dealers(g) && row.Keys == AllTypes()
    requires forall k :: k in row ==> DealOk(g, d, k, row[k])
    ensures PolysOk(g, polys[d := row]) && OneMoreDealer(polys, polys[d := row], d)
  {
    hide AllTypes;
    hide DealOk;
    hide Dealers;
    var polys' := polys[d := row];
    forall x, k | x in polys' && k in AllTypes()
      ensures DealOk(g, x, k, At(polys', x, k))
    {
      assert x != d ==> DealOk(g, x, k, At(polys, x, k));
    }
  }

  lemma DealIsOk(g: Setup, log: set<Gossip>, polys: Polys, q: Peer, e: Engine, random: map<KeyType, seq<int>>)
    requires Configured(g, q, e) && NodesInv(g, log, polys, q, e.nodes) && EngineOk(e) && PolysOk(g, polys)
    requires q in g.attempt.tstar && Idx(g, q) in Dealers(g) && Idx(g, q) !in polys && StartResharingRound2 !in log
    requires e.nodes.Keys == random.Keys && g.attempt.threshold >= 1 && forall k :: k in random ==> |random[k]| == g.attempt.threshold
    ensures var polys' := AfterDeal(g, polys, e, random);
            PolysOk(g, polys') && OneMoreDealer(polys, polys', e.idx)
  {
    hide AllTypes;
    hide DealOk;
    hide InputsInv;
    hide IndexSet;
    hide PolysOk;
    hide DealerPolys;
    hide Idx;
    var row := DealerPolys(g.curve, e, random);
    forall k | k in row
      ensures DealOk(g, e.idx, k, row[k])
    {
      assert SharesInv(g, log, polys, q, k, e.nodes[k]);
      HonestDeal(g, e, k, random);
    }
    PolysAdd(g, polys, e.idx, row);
  }

  /** The dealer's own engine after dealing. */
  ghost function Dealer(g: Setup, polys': Polys, q: Peer, e: Engine): Engine
    requires e.idx in polys'
  {
    if q in g.attempt.quorum
    then e.(nodes := Registered(e.nodes, e.idx, e.idx, DealsOf(g.curve, polys'[e.idx], NewMembers(g)))) else e
  }

  lemma DealerNodes(g: Setup, log: set<Gossip>, polys: Polys, polys': Polys, q: Peer, e: Engine)
    requires NodesInv(g, log, polys, q, e.nodes) && PolysOk(g, polys') && OneMoreDealer(polys, polys', e.idx) && StartResharingRound2 !in log
    requires OwnIndices(g) && e.idx == Idx(g, q) && e.idx in Dealers(g)
    ensures var e' := Dealer(g, polys', q, e);
            && NodesInv(g, log, polys', q, e'.nodes)
            && (InputsComplete(g, e.nodes) ==> InputsComplete(g, e'.nodes))
            && (PubsharesComplete(g, e.nodes) ==> PubsharesComplete(g, e'.nodes))
  {
    hide OwnIndices;
    hide NodesInv;
    hide PolysOk;
    hide InputsComplete;
    hide PubsharesComplete;
    hide Registered;
    hide NewMembers;
    hide Dealers;
    hide Idx;
    NodesAfterDeal(g, log, polys, polys', e.idx, q, e.nodes);
    if q in g.attempt.quorum {
      OwnIndex(g, q);
      RegisteredNodes(g, log, polys', q, e.nodes, e.idx);
      GainKeepsComplete(g, e.nodes, Dealer(g, polys', q, e).nodes, e.idx);
    }
  }

  lemma RoundsAfterDeal(g: Setup, polys: Polys, polys': Polys, q: Peer, p: Prover, p': Prover)
    requires OneMoreDealer(polys, polys', Idx(g, q)) && p.mailbox != []
    requires p.mailbox[0] == RunRound1(g.attempt.threshold, q in g.attempt.quorum)
    requires p'.pending == p.pending && p'.mailbox == p.mailbox[1..] + []
    ensures Rounds1(g, polys', q, p') <= Rounds1(g, polys, q, p)
  {
    hide Idx;
    PopCounts(p.mailbox, [], StartRound1);
    PopCounts(p.mailbox, [], p.mailbox[0]);
  }

  /** The effect of dealing, for a dealer whose sizes pass. */
  lemma DealEffect(g: Setup, polys: Polys, q: Peer, e: Engine, random: map<KeyType, seq<int>>)
    requires Configured(g, q, e) && EngineOk(e) && OwnIndices(g) && q in g.attempt.tstar
    requires e.nodes.Keys == random.Keys && g.attempt.threshold >= 1 && forall k :: k in random ==> |random[k]| == g.attempt.threshold
    requires Sized(g)
    ensures var effect, polys' := HandleRound1(g.curve, Some(e), g.attempt.threshold, q in g.attempt.quorum, random), AfterDeal(g, polys, e, random);
            var e' := Dealer(g, polys', q, e);
            effect == Effect(Some(e'), [Round1Out(e.idx, DealsOf(g.curve, polys'[e.idx], NewMembers(g)))]
                             + (if Round1Ready(e') && q in g.attempt.quorum then [Round1Completed(q)] else []), [], false)
  {
    hide OwnIndices;
    hide DealerPolys;
    hide DealsOf;
    hide Registered;
    hide Round1Ready;
    OwnIndex(g, q);
  }

  lemma DealHandled(g: Setup, log: set<Gossip>, polys: Polys, q: Peer, p: Prover, random: map<KeyType, seq<int>>, p': Prover)
    requires LogInv(g, log, polys) && OwnIndices(g) && Late(g, log, polys, q, p) && Sized(g)
    requires p.mailbox != [] && p.mailbox[0].RunRound1? && EngineOk(p.engine.value)
    requires random.Keys == p.engine.value.nodes.Keys && forall k :: k in random ==> |random[k]| == g.attempt.threshold
    requires var polys' := AfterDeal(g, polys, p.engine.value, random);
             p' == p.(engine := Some(Dealer(g, polys', q, p.engine.value)), mailbox := p.mailbox[1..] + [])
    ensures var polys' := AfterDeal(g, polys, p.engine.value, random);
            && PolysOk(g, polys') && OneMoreDealer(polys, polys', Idx(g, q)) && Late(g, log, polys', q, p')
            && (Round1Ready(p'.engine.value) && q in g.attempt.quorum ==> MayReport1(g, log, q, p'))
  {
    hide OwnIndices;
    hide NodesInv;
    hide PolysOk;
    hide InputsComplete;
    hide PubsharesComplete;
    hide Rounds1;
    hide Round1Ready;
    hide Registered;
    hide Dealers;
    hide Idx;
    hide AfterDeal;
    hide MessageInv;
    var e, polys' := p.engine.value, AfterDeal(g, polys, p.engine.value, random);
    DealsOnce(g, log, polys, q, p);
    OwnIndex(g, q);
    DealIsOk(g, log, polys, q, e, random);
    DealerNodes(g, log, polys, polys', q, e);
    RoundsAfterDeal(g, polys, polys', q, p, p');
    LateHandled(g, log, polys, polys', q, p, p'.engine.value, [], p');
    if Round1Ready(p'.engine.value) {
      ReadyIsComplete(g, log, polys', q, p'.engine.value);
    }
  }

  // Round 2.

  /** Once round 2 starts, everyone in the new quorum holds the output of exactly T*. */
  lemma CompleteAtRound2(g: Setup, log: set<Gossip>, polys: Polys, q: Peer, p: Prover)
    requires LogInv(g, log, polys) && Late(g, log, polys, q, p) && StartResharingRound2 in log && q in g.attempt.quorum
    ensures polys.Keys == Dealers(g) && InputsComplete(g, p.engine.value.nodes)
  {
    hide PolysOk;
    hide NodesInv;
    hide Configured;
    hide MessageInv;
    hide InputsComplete;
    hide Dealers;
    assert NextStage(FirstRound) == StartResharingRound2 && ReportOf(FirstRound, q) == Round1Completed(q);
  }

  lemma NodePasses(g: Setup, log: set<Gossip>, polys: Polys, q: Peer, e: Engine, k: KeyType)
    requires SetupOk(g) && PolysOk(g, polys) && g.attempt.threshold >= 1 && polys.Keys == Dealers(g)
    requires Configured(g, q, e) && NodesInv(g, log, polys, q, e.nodes) && InputsComplete(g, e.nodes)
    requires q in g.attempt.quorum && k in e.nodes
    ensures var share := NewShare(g, polys, k, Idx(g, q));
            NodeRound2(g.curve, e, k) == Ok(Keys(share, share, GroupKey(g, k)))
  {
    hide AllTypes;
    hide PolysOk;
    hide InputsInv;
    hide OwnIndices;
    hide PowersFit;
    hide Dealers;
    hide NewShare;
    hide Resharing.Round2;
    hide IndexSet;
    hide Idx;
    var nd := e.nodes[k];
    assert KeyMatches(g, k) && InputsInv(g, polys, q, k, nd) && SharesInv(g, log, polys, q, k, nd);
    Round2Computes(g, polys, q, k, nd);
  }

  /** What round 2 leaves for one key type. */
  ghost predicate TakesShare(g: Setup, polys: Polys, q: Peer, k: KeyType, nd: NodeData, nd': NodeData) {
    var share := NewShare(g, polys, k, Idx(g, q));
    nd' == nd.(node := nd.node.(privateShare := share, networkPubkey := GroupKey(g, k)),
               otherPubshares := nd.otherPubshares[Idx(g, q) := share])
  }

  lemma ShareTaken(g: Setup, log: set<Gossip>, polys: Polys, q: Peer, k: KeyType, nd: NodeData, nd': NodeData)
    requires InputsInv(g, polys, q, k, nd) && SharesInv(g, log, polys, q, k, nd) && TakesShare(g, polys, q, k, nd, nd')
    requires StartResharingRound2 in log && Idx(g, q) in NewMembers(g)
    ensures InputsInv(g, polys, q, k, nd') && SharesInv(g, log, polys, q, k, nd')
  {
    hide NewMembers;
    hide Idx;
    hide NewShare;
    hide OldShare;
    hide Eval;
    hide Commit;
  }

  ghost predicate NodeTakes(g: Setup, polys: Polys, q: Peer, e: Engine, k: KeyType)
    requires k in e.nodes && e.threshold >= 1
  {
    var share := NewShare(g, polys, k, Idx(g, q));
    NodeRound2(g.curve, e, k) == Ok(Keys(share, share, GroupKey(g, k))) && e.nodes[k].node.id == Idx(g, q)
  }

  lemma Round2Nodes(g: Setup, log: set<Gossip>, polys: Polys, q: Peer, e: Engine)
    requires SetupOk(g) && PolysOk(g, polys) && g.attempt.threshold >= 1 && polys.Keys == Dealers(g)
    requires Configured(g, q, e) && NodesInv(g, log, polys, q, e.nodes) && InputsComplete(g, e.nodes)
    requires q in g.attempt.quorum
    ensures forall k :: k in e.nodes ==> NodeTakes(g, polys, q, e, k)
  {
    hide SetupOk;
    hide PolysOk;
    hide Dealers;
    hide NewShare;
    hide NodeRound2;
    hide AllTypes;
    hide InputsInv;
    hide InputsComplete;
    forall k | k in e.nodes
      ensures NodeTakes(g, polys, q, e, k)
    {
      NodePasses(g, log, polys, q, e, k);
      assert SharesInv(g, log, polys, q, k, e.nodes[k]);
    }
  }

  lemma Round2Results(g: Setup, polys: Polys, q: Peer, e: Engine)
    requires e.threshold >= 1 && e.nodes.Keys == AllTypes() && forall k :: k in e.nodes ==> NodeTakes(g, polys, q, e, k)
    ensures Round2Passes(g.curve, e)
    ensures forall k :: k in e.nodes ==> TakesShare(g, polys, q, k, e.nodes[k], AfterRound2(g.curve, e)[k])
    ensures Round2Pubshares(g.curve, e) == NewShares(g, polys, Idx(g, q))
  {
    hide NewShare;
    hide NodeRound2;
    hide AllTypes;
    hide Idx;
  }

  /** A report that round 2 is complete is justified. */
  ghost predicate MayReport2(g: Setup, log: set<Gossip>, q: Peer, p: Prover) {
    q in g.attempt.quorum && StartResharingRound2 in log && p.engine.Some? && PubsharesComplete(g, p.engine.value.nodes)
  }

  lemma SharesTaken(g: Setup, log: set<Gossip>, polys: Polys, q: Peer, nodes: map<KeyType, NodeData>, nodes': map<KeyType, NodeData>)
    requires NodesInv(g, log, polys, q, nodes) && StartResharingRound2 in log && Idx(g, q) in NewMembers(g)
    requires nodes'.Keys == nodes.Keys && forall k :: k in nodes ==> TakesShare(g, polys, q, k, nodes[k], nodes'[k])
    ensures NodesInv(g, log, polys, q, nodes')
    ensures InputsComplete(g, nodes) ==> InputsComplete(g, nodes')
    ensures PubsharesComplete(g, nodes) ==> PubsharesComplete(g, nodes')
  {
    hide AllTypes;
    hide InputsInv;
    hide SharesInv;
    hide NewMembers;
    hide NewShare;
    hide Idx;
    hide Dealers;
    forall k | k in nodes
      ensures InputsInv(g, polys, q, k, nodes'[k]) && SharesInv(g, log, polys, q, k, nodes'[k])
    {
      ShareTaken(g, log, polys, q, k, nodes[k], nodes'[k]);
    }
  }

  /** As many public shares as the new quorum has provers are those of exactly the new quorum. */
  lemma PubsharesReady(g: Setup, log: set<Gossip>, polys: Polys, q: Peer, e: Engine)
    requires Round2Ready(e) && e.newProvers == g.attempt.quorum && NodesInv(g, log, polys, q, e.nodes) && OwnIndices(g)
    ensures PubsharesComplete(g, e.nodes)
  {
    hide AllTypes;
    hide OwnIndices;
    hide NewMembers;
    hide NewShare;
    hide OldShare;
    hide InputsInv;
    hide Idx;
    Sizes(g);
    forall k | k in e.nodes
      ensures e.nodes[k].otherPubshares.Keys == NewMembers(g)
    {
      var nd := e.nodes[k];
      assert SharesInv(g, log, polys, q, k, nd);
      assert nd.otherPubshares.Keys <= NewMembers(g);
      Resharing.SameSizeSubset(nd.otherPubshares.Keys, NewMembers(g));
    }
  }

  /** Round 2 of a new member in an attempt of accepted size: it passes, every node takes
      its new share, and the public shares are published. */
  lemma Round2Makes(g: Setup, log: set<Gossip>, polys: Polys, q: Peer, e: Engine, effect: Effect)
    requires SetupOk(g) && PolysOk(g, polys) && polys.Keys == Dealers(g) && Sized(g)
    requires Configured(g, q, e) && NodesInv(g, log, polys, q, e.nodes) && InputsComplete(g, e.nodes) && e.nodes.Keys == AllTypes()
    requires StartResharingRound2 in log && q in g.attempt.quorum && Idx(g, q) in NewMembers(g) && effect == HandleRound2(g.curve, Some(e))
    ensures effect.state.Some? && !effect.failed && effect.casts == []
    ensures var e' := effect.state.value;
            && Configured(g, q, e') && NodesInv(g, log, polys, q, e'.nodes) && InputsComplete(g, e'.nodes)
            && (PubsharesComplete(g, e.nodes) ==> PubsharesComplete(g, e'.nodes))
            && effect.gossip == [Round2Out(Idx(g, q), NewShares(g, polys, Idx(g, q)))] + (if Round2Ready(e') then [Round2Completed(q)] else [])
  {
    hide AllTypes;
    hide SetupOk;
    hide NodesInv;
    hide PolysOk;
    hide InputsComplete;
    hide PubsharesComplete;
    hide Dealers;
    hide NewMembers;
    hide Idx;
    hide AfterRound2;
    hide Round2Passes;
    hide Round2Pubshares;
    hide Round2Ready;
    hide NodeTakes;
    hide TakesShare;
    hide NewShares;
    Round2Nodes(g, log, polys, q, e);
    Round2Results(g, polys, q, e);
    SharesTaken(g, log, polys, q, e.nodes, effect.state.value.nodes);
  }

  lemma LogPolys(g: Setup, log: set<Gossip>, polys: Polys)
    requires LogInv(g, log, polys)
    ensures PolysOk(g, polys)
  {
    hide PolysOk;
    hide MessageInv;
  }

  lemma NodesTypes(g: Setup, log: set<Gossip>, polys: Polys, q: Peer, nodes: map<KeyType, NodeData>)
    requires NodesInv(g, log, polys, q, nodes)
    ensures nodes.Keys == AllTypes()
  {
    hide AllTypes;
    hide InputsInv;
    hide SharesInv;
  }

  lemma Round2Handled(g: Setup, log: set<Gossip>, polys: Polys, q: Peer, p: Prover, effect: Effect, p': Prover)
    requires SetupOk(g) && LogInv(g, log, polys) && Late(g, log, polys, q, p)
    requires p.mailbox != [] && p.mailbox[0] == RunRound2 && effect == HandleRound2(g.curve, p.engine)
    requires p' == p.(engine := effect.state, mailbox := p.mailbox[1..] + effect.casts)
    ensures Late(g, log, polys, q, p') && (Sized(g) ==> !effect.failed)
    ensures effect.gossip == []
            || (&& StartResharingRound2 in log && q in g.attempt.quorum
                && effect.gossip[0] == Round2Out(Idx(g, q), NewShares(g, polys, Idx(g, q)))
                && (effect.gossip[1..] == [] || (effect.gossip[1..] == [Round2Completed(q)] && MayReport2(g, log, q, p'))))
  {
    hide AllTypes;
    hide Dealers;
    hide PolysOk;
    hide LogInv;
    hide HandleRound2;
    hide NodesInv;
    hide InputsComplete;
    hide PubsharesComplete;
    hide Rounds1;
    hide NewMembers;
    hide Idx;
    hide Round2Ready;
    hide NewShares;
    assert CommandInv(g, log, q, p.mailbox[0]);
    assert OwnIndices(g);
    hide OwnIndices;
    var e := p.engine.value;
    if Sized(g) {
      OwnIndex(g, q);
      LogPolys(g, log, polys);
      NodesTypes(g, log, polys, q, e.nodes);
      CompleteAtRound2(g, log, polys, q, p);
      Round2Makes(g, log, polys, q, e, effect);
      if Round2Ready(effect.state.value) {
        PubsharesReady(g, log, polys, q, effect.state.value);
      }
    } else {
      Round2NotSized(g, q, e);
    }
    hide SetupOk;
    hide Sized;
    RoundsKept(g, polys, q, p, effect.casts, p');
    LateHandled(g, log, polys, polys, q, p, effect.state.value, effect.casts, p');
  }

  lemma Round2NotSized(g: Setup, q: Peer, e: Engine)
    requires Configured(g, q, e) && !Sized(g)
    ensures var effect := HandleRound2(g.curve, Some(e)); effect.state == Some(e) && effect.gossip == [] && effect.casts == []
  {
    hide Round2Passes;
    hide AfterRound2;
    hide Round2Pubshares;
    hide Idx;
  }

  lemma StoredPubshare(g: Setup, log: set<Gossip>, polys: Polys, q: Peer, k: KeyType, nd: NodeData, i: nat)
    requires InputsInv(g, polys, q, k, nd) && SharesInv(g, log, polys, q, k, nd)
    requires StartResharingRound2 in log && i in NewMembers(g) && i != Idx(g, q)
    ensures var nd' := nd.(otherPubshares := nd.otherPubshares[i := NewShare(g, polys, k, i)]);
            InputsInv(g, polys, q, k, nd') && SharesInv(g, log, polys, q, k, nd')
  {
    hide NewMembers;
    hide Idx;
    hide NewShare;
    hide OldShare;
    hide Eval;
    hide Commit;
  }

  lemma StoredPubshares(g: Setup, log: set<Gossip>, polys: Polys, q: Peer, nodes: map<KeyType, NodeData>, i: nat)
    requires NodesInv(g, log, polys, q, nodes) && StartResharingRound2 in log && i in NewMembers(g) && i != Idx(g, q)
    ensures var nodes' := WithPubshares(nodes, i, NewShares(g, polys, i));
            && NodesInv(g, log, polys, q, nodes')
            && (InputsComplete(g, nodes) ==> InputsComplete(g, nodes'))
            && (PubsharesComplete(g, nodes) ==> PubsharesComplete(g, nodes'))
  {
    hide AllTypes;
    hide InputsInv;
    hide SharesInv;
    hide NewMembers;
    hide NewShare;
    hide Idx;
    hide Dealers;
    var nodes' := WithPubshares(nodes, i, NewShares(g, polys, i));
    forall k | k in nodes
      ensures InputsInv(g, polys, q, k, nodes'[k]) && SharesInv(g, log, polys, q, k, nodes'[k])
    {
      StoredPubshare(g, log, polys, q, k, nodes[k], i);
    }
  }

  lemma PubsharesHandled(g: Setup, log: set<Gossip>, polys: Polys, q: Peer, p: Prover, i: nat, pubshares: map<KeyType,
      int>, effect: Effect, p': Prover)
    requires OwnIndices(g) && LogInv(g, log, polys) && Late(g, log, polys, q, p)
    requires p.mailbox != [] && p.mailbox[0] == StorePubshares(i, pubshares) && effect == HandlePubshares(p.engine, i, pubshares)
    requires p' == p.(engine := effect.state, mailbox := p.mailbox[1..] + effect.casts)
    ensures !effect.failed && Late(g, log, polys, q, p')
    ensures effect.gossip == [] || (effect.gossip == [Round2Completed(q)] && MayReport2(g, log, q, p'))
  {
    hide OwnIndices;
    hide NodesInv;
    hide PolysOk;
    hide InputsComplete;
    hide PubsharesComplete;
    hide Rounds1;
    hide Idx;
    hide WithPubshares;
    hide NewShares;
    hide NewMembers;
    hide Round2Ready;
    assert CommandInv(g, log, q, p.mailbox[0]);
    assert MessageInv(g, log, polys, Round2Out(i, pubshares));
    RoundsKept(g, polys, q, p, effect.casts, p');
    var e := p.engine.value;
    if e.idx != i && q in g.attempt.quorum {
      StoredPubshares(g, log, polys, q, e.nodes, i);
      if Round2Ready(effect.state.value) && effect.gossip != [] {
        PubsharesReady(g, log, polys, q, effect.state.value);
      }
    }
    LateHandled(g, log, polys, polys, q, p, effect.state.value, effect.casts, p');
  }

  // Round 3.

  /** Once round 3 starts, everyone in the new quorum holds exactly its public shares. */
  lemma CompleteAtRound3(g: Setup, log: set<Gossip>, polys: Polys, q: Peer, p: Prover)
    requires LogInv(g, log, polys) && Late(g, log, polys, q, p) && StartResharingRound3 in log && q in g.attempt.quorum
    ensures PubsharesComplete(g, p.engine.value.nodes) && StartResharingRound2 in log && polys.Keys == Dealers(g)
  {
    hide PolysOk;
    hide NodesInv;
    hide Configured;
    hide MessageInv;
    hide PubsharesComplete;
    hide Dealers;
    assert NextStage(SecondRound) == StartResharingRound3 && ReportOf(SecondRound, q) == Round2Completed(q);
  }

  lemma NodePassesRound3(g: Setup, log: set<Gossip>, polys: Polys, q: Peer, k: KeyType, nd: NodeData)
    requires IndexSet(NewMembers(g)) && OwnIndices(g) && KeyMatches(g, k)
    requires Sized(g) && PolysOk(g, polys) && polys.Keys == Dealers(g) && k in AllTypes()
    requires SharesInv(g, log, polys, q, k, nd) && nd.otherPubshares.Keys == NewMembers(g) && Idx(g, q) in NewMembers(g)
    ensures nd.node.privateShare == NewShare(g, polys, k, Idx(g, q))
    ensures Round3(g.curve(k), nd.node, Network(g.attempt.threshold, |g.attempt.quorum|, NewMembers(g)), nd.otherPubshares).Ok?
  {
    hide AllTypes;
    hide PolysOk;
    hide Dealers;
    hide NewMembers;
    hide Idx;
    hide OwnIndices;
    hide IndexSet;
    hide Round3;
    hide NewPoly;
    hide Eval;
    hide OldShare;
    hide KeyMatches;
    NewConstant(g, polys, k);
    Sizes(g);
    HonestRound3(g.curve(k), NewPoly(g, polys, k), NewMembers(g), nd.node, nd.otherPubshares);
  }

  /** Round 3 of one key type of an engine. */
  ghost predicate NodeDone(g: Setup, polys: Polys, q: Peer, k: KeyType, nd: NodeData)
    requires IndexSet(NewMembers(g))
  {
    && nd.node.privateShare == NewShare(g, polys, k, Idx(g, q))
    && Round3(g.curve(k), nd.node, Network(g.attempt.threshold, |g.attempt.quorum|, NewMembers(g)), nd.otherPubshares).Ok?
  }

  lemma NodeIsDone(g: Setup, log: set<Gossip>, polys: Polys, q: Peer, nodes: map<KeyType, NodeData>, k: KeyType)
    requires IndexSet(NewMembers(g)) && OwnIndices(g) && KeyMatches(g, k) && k in AllTypes()
    requires Sized(g) && PolysOk(g, polys) && polys.Keys == Dealers(g) && Idx(g, q) in NewMembers(g)
    requires NodesInv(g, log, polys, q, nodes) && PubsharesComplete(g, nodes)
    ensures k in nodes && NodeDone(g, polys, q, k, nodes[k])
  {
    hide AllTypes;
    hide PolysOk;
    hide Dealers;
    hide NewMembers;
    hide Idx;
    hide OwnIndices;
    hide IndexSet;
    hide Round3;
    hide NewShare;
    hide KeyMatches;
    hide InputsInv;
    hide SharesInv;
    NodePassesRound3(g, log, polys, q, k, nodes[k]);
  }

  lemma Round3Nodes(g: Setup, log: set<Gossip>, polys: Polys, q: Peer, e: Engine)
    requires IndexSet(NewMembers(g)) && OwnIndices(g) && forall k :: k in AllTypes() ==> KeyMatches(g, k)
    requires Sized(g) && PolysOk(g, polys) && polys.Keys == Dealers(g)
    requires Configured(g, q, e) && NodesInv(g, log, polys, q, e.nodes) && PubsharesComplete(g, e.nodes) && q in g.attempt.quorum
    ensures IndexSet(e.newProvers.Values) && Round3Passes(g.curve, e)
    ensures PublicShares(e.nodes) == NewShares(g, polys, Idx(g, q))
  {
    hide AllTypes;
    hide PolysOk;
    hide Dealers;
    hide Idx;
    hide OwnIndices;
    hide IndexSet;
    hide KeyMatches;
    hide Sized;
    hide NodeDone;
    assert e.nodes.Keys == AllTypes();
    hide NodesInv;
    hide PubsharesComplete;
    OwnIndex(g, q);
    forall k | k in e.nodes
      ensures NodeDone(g, polys, q, k, e.nodes[k])
    {
      NodeIsDone(g, log, polys, q, e.nodes, k);
    }
    AllDone(g, polys, q, e);
  }

  lemma AllDone(g: Setup, polys: Polys, q: Peer, e: Engine)
    requires IndexSet(NewMembers(g)) && Configured(g, q, e) && e.nodes.Keys == AllTypes()
    requires forall k :: k in e.nodes ==> NodeDone(g, polys, q, k, e.nodes[k])
    ensures IndexSet(e.newProvers.Values) && Round3Passes(g.curve, e)
    ensures PublicShares(e.nodes) == NewShares(g, polys, Idx(g, q))
  {
    hide AllTypes;
    hide Idx;
    hide IndexSet;
    hide Round3;
    hide NewShare;
  }

  lemma Round3Handled(g: Setup, log: set<Gossip>, polys: Polys, q: Peer, p: Prover, effect: Effect, p': Prover)
    requires SetupOk(g) && LogInv(g, log, polys) && Late(g, log, polys, q, p) && EngineOk(p.engine.value)
    requires p.mailbox != [] && p.mailbox[0] == RunRound3 && effect == HandleRound3(g.curve, p.engine)
    requires p' == p.(engine := effect.state, mailbox := p.mailbox[1..] + effect.casts)
    ensures Late(g, log, polys, q, p') && (Sized(g) ==> !effect.failed)
    ensures effect.gossip == []
            || (&& StartResharingRound3 in log && q in g.attempt.quorum
                && effect.gossip == [Prepared(g.attempt.quorum[q], q, NewShares(g, polys, g.attempt.quorum[q]))])
  {
    hide AllTypes;
    hide NodesInv;
    hide PolysOk;
    hide MessageInv;
    hide InputsComplete;
    hide PubsharesComplete;
    hide Rounds1;
    hide Dealers;
    hide NewMembers;
    hide Idx;
    hide Round3Passes;
    hide PublicShares;
    hide NewShares;
    hide PowersFit;
    hide KeyMatches;
    hide OwnIndices;
    assert CommandInv(g, log, q, p.mailbox[0]);
    RoundsKept(g, polys, q, p, effect.casts, p');
    var e := p.engine.value;
    if Sized(g) {
      OwnIndex(g, q);
      CompleteAtRound3(g, log, polys, q, p);
      Round3Nodes(g, log, polys, q, e);
    }
    LateHandled(g, log, polys, polys, q, p, e, effect.casts, p');
  }

  // ---------- the engine's steps ----------

  lemma AppliedKeeps(g: Setup, s: State, q: Peer, effect: Effect)
    requires Invariant(g, s) && q in s.provers && s.provers[q].mailbox != [] && (Sized(g) ==> !effect.failed)
    requires ProverInv(g, s.log, s.polys, q, Applied(s, q, effect, s.polys).provers[q])
    ensures Invariant(g, Applied(s, q, effect, s.polys))
  {
    hide ProverInv;
    hide LogInv;
    hide Sized;
    hide Recorded;
    hide RequiredOf;
    hide Members;
    hide ReportOf;
    hide Participants;
  }

  lemma AppliedDealKeeps(g: Setup, s: State, q: Peer, effect: Effect, polys': Polys)
    requires Invariant(g, s) && OwnIndices(g) && q in s.provers && s.provers[q].mailbox != [] && !effect.failed
    requires PolysOk(g, polys') && OneMoreDealer(s.polys, polys', Idx(g, q))
    requires StartResharingRound1 in s.log && StartResharingRound2 !in s.log
    requires ProverInv(g, s.log, polys', q, Applied(s, q, effect, polys').provers[q])
    ensures Invariant(g, Applied(s, q, effect, polys'))
  {
    hide ProverInv;
    hide LogInv;
    hide Sized;
    hide Recorded;
    hide RequiredOf;
    hide Members;
    hide ReportOf;
    hide PolysOk;
    hide Idx;
    hide OneMoreDealer;
    var s' := Applied(s, q, effect, polys');
    LogAfterDeal(g, s.log, s.polys, polys', Idx(g, q));
    forall r | r in Participants(g)
      ensures ProverInv(g, s'.log, s'.polys, r, s'.provers[r])
    {
      if r != q {
        OthersAfterDeal(g, s.log, s.polys, polys', Idx(g, q), r, s.provers[r]);
      }
    }
  }

  lemma PlainJustified(g: Setup, s: State, m: Gossip)
    requires MessageInv(g, s.log, s.polys, m) && (m.Round1Out? || m.Round2Out? || m.Prepared?)
    ensures Justified(g, s, m)
  {
    hide MessageInv;
    hide RequiredOf;
    hide Recorded;
  }

  lemma CompletionJustified(g: Setup, s: State, q: Peer, m: Gossip)
    requires q in s.provers
    requires (m == Round1Completed(q) && MayReport1(g, s.log, q, s.provers[q]))
             || (m == Round2Completed(q) && MayReport2(g, s.log, q, s.provers[q]))
             || (m == InitCompleted(q) && q in Participants(g) && StartResharingInit in s.log && Late(g, s.log, s.polys, q, s.provers[q]))
    ensures Justified(g, s, m)
  {
    hide InputsComplete;
    hide PubsharesComplete;
    hide Late;
    hide RequiredOf;
    hide Recorded;
  }

  /** At most one report follows what the engine sends out. */
  lemma FinishOne(g: Setup, s: State, q: Peer, m: Gossip)
    requires Invariant(g, s) && Justified(g, s, m)
    ensures Invariant(g, PublishAll(s, Some(q), [m]))
  {
    hide Invariant;
    hide Justified;
    PublishKeeps(g, s, Some(q), m);
    PublishOne(s, Some(q), m);
  }

  lemma FinishTwo(g: Setup, s: State, q: Peer, out: Gossip, m: Gossip)
    requires Invariant(g, s) && Justified(g, s, out) && q in s.provers
    requires (m == Round1Completed(q) && MayReport1(g, s.log, q, s.provers[q]))
             || (m == Round2Completed(q) && MayReport2(g, s.log, q, s.provers[q]))
    ensures Invariant(g, PublishAll(s, Some(q), [out, m]))
  {
    hide Invariant;
    hide Justified;
    hide InputsComplete;
    hide PubsharesComplete;
    var s' := Publish(s, Some(q), out);
    PublishKeeps(g, s, Some(q), out);
    CompletionJustified(g, s', q, m);
    FinishOne(g, s', q, m);
    assert [out, m][1..] == [m];
  }

  /** A message that publishes nothing and deals nothing. */
  lemma QuietStep(g: Setup, s: State, q: Peer, effect: Effect)
    requires Invariant(g, s) && q in s.provers && s.provers[q].mailbox != [] && (Sized(g) ==> !effect.failed) && effect.gossip == []
    requires ProverInv(g, s.log, s.polys, q, Applied(s, q, effect, s.polys).provers[q])
    ensures Invariant(g, PublishAll(Applied(s, q, effect, s.polys), Some(q), effect.gossip))
  {
    hide Invariant;
    AppliedKeeps(g, s, q, effect);
    PublishNone(Applied(s, q, effect, s.polys), Some(q));
  }

  /** The two messages before the initialisation is complete. */
  lemma EarlyCommand(g: Setup, log: set<Gossip>, polys: Polys, q: Peer, p: Prover)
    requires ProverInv(g, log, polys, q, p) && InitCompleted(q) !in log && p.mailbox != []
    ensures p.mailbox[0].ClearShares? || p.mailbox[0] == InitCommand(g, q)
  {
    hide Late;
    hide EngineBefore;
  }

  ghost function HandleOf(g: Setup, p: Prover, drawn: KeyType -> int, random: map<KeyType, seq<int>>): Effect
    requires CanHandle(p, random)
  {
    Handle(g.curve, p.engine, p.mailbox[0], p.stored, drawn, random)
  }

  lemma EarlyHandles(g: Setup, p: Prover, q: Peer, drawn: KeyType -> int, random: map<KeyType, seq<int>>)
    requires CanHandle(p, random)
    ensures p.mailbox[0].ClearShares? ==> HandleOf(g, p, drawn, random) == HandleClearShares(p.engine)
    ensures p.mailbox[0] == InitCommand(g, q) ==>
              HandleOf(g, p, drawn, random) == HandleInit(p.engine, Idx(g, q), q, g.attempt, p.stored, drawn)
  {
    hide HandleClearShares;
    hide HandleInit;
    hide EngineOk;
    hide Idx;
  }

  /** What handling them amounts to. */
  lemma EarlyEffect(g: Setup, log: set<Gossip>, polys: Polys, q: Peer, p: Prover, drawn: KeyType -> int,
      random: map<KeyType, seq<int>>, effect: Effect, p': Prover)
    requires LogInv(g, log, polys) && ProverInv(g, log, polys, q, p) && q in Participants(g) && InitCompleted(q) !in log
    requires AllTypes() <= g.attempt.groupKeys.Keys && CanHandle(p, random) && effect == HandleOf(g, p, drawn, random)
    requires p' == p.(engine := effect.state, mailbox := p.mailbox[1..] + effect.casts)
    ensures !p.mailbox[0].RunRound1? && (Sized(g) ==> !effect.failed) && ProverInv(g, log, polys, q, p')
    ensures effect.gossip == []
            || (effect.gossip == [InitCompleted(q)] && StartResharingInit in log && Late(g, log, polys, q, p'))
  {
    hide LogInv;
    hide ProverInv;
    hide Late;
    hide AllTypes;
    hide Participants;
    hide HandleOf;
    hide HandleClearShares;
    hide HandleInit;
    hide EngineOk;
    hide Idx;
    hide Sized;
    EarlyCommand(g, log, polys, q, p);
    EarlyHandles(g, p, q, drawn, random);
    if p.mailbox[0].ClearShares? {
      ClearProver(g, log, polys, q, p);
      ClearIsQuiet(p.engine);
    } else {
      InitProver(g, log, polys, q, p, drawn);
    }
  }

  lemma InvariantFacts(g: Setup, s: State, q: Peer)
    requires Invariant(g, s) && q in s.provers
    ensures q in Participants(g) && LogInv(g, s.log, s.polys) && ProverInv(g, s.log, s.polys, q, s.provers[q])
  {
    hide LogInv;
    hide RelayInv;
    hide ProverInv;
  }

  lemma Handles(p: Prover, random: map<KeyType, seq<int>>)
    requires CanHandle(p, random)
    ensures p.mailbox != []
  {
  }

  lemma EarlyStep(g: Setup, s: State, q: Peer, drawn: KeyType -> int, random: map<KeyType, seq<int>>)
    requires Invariant(g, s) && AllTypes() <= g.attempt.groupKeys.Keys && q in s.provers && CanHandle(s.provers[q], random)
    requires InitCompleted(q) !in s.log
    ensures Invariant(g, EngineStep(g, s, q, drawn, random))
  {
    hide Invariant;
    hide LogInv;
    hide ProverInv;
    hide Late;
    hide AllTypes;
    hide Participants;
    hide Handle;
    hide CanHandle;
    hide EngineStep;
    hide PublishAll;
    hide Sized;
    hide Justified;
    var p := s.provers[q];
    Handles(p, random);
    InvariantFacts(g, s, q);
    var effect := HandleOf(g, p, drawn, random);
    var s' := Applied(s, q, effect, s.polys);
    EarlyEffect(g, s.log, s.polys, q, p, drawn, random, effect, s'.provers[q]);
    NotDealing(g, s, q, drawn, random);
    if effect.gossip == [] {
      QuietStep(g, s, q, effect);
    } else {
      AppliedKeeps(g, s, q, effect);
      CompletionJustified(g, s', q, InitCompleted(q));
      FinishOne(g, s', q, InitCompleted(q));
    }
  }

  lemma ClearIsQuiet(e: Option<Engine>)
    ensures HandleClearShares(e).gossip == [] && !HandleClearShares(e).failed
  {
  }

  /** An initialised prover stays one. */
  lemma StillLate(g: Setup, log: set<Gossip>, polys: Polys, polys': Polys, q: Peer, p: Prover, p': Prover)
    requires ProverInv(g, log, polys, q, p) && InitCompleted(q) in log && p'.pending == p.pending && Late(g, log, polys', q, p')
    ensures ProverInv(g, log, polys', q, p')
  {
    hide Late;
  }

  lemma LateFacts(g: Setup, s: State, q: Peer)
    requires Invariant(g, s) && q in s.provers && InitCompleted(q) in s.log
    ensures q in Participants(g) && LogInv(g, s.log, s.polys) && ProverInv(g, s.log, s.polys, q, s.provers[q])
    ensures Late(g, s.log, s.polys, q, s.provers[q]) && s.provers[q].engine.Some?
  {
    hide LogInv;
    hide RelayInv;
    LateEngine(g, s.log, s.polys, q, s.provers[q]);
  }

  /** What an initialised engine does with a message, whatever the message is. */
  ghost predicate LateEffect(g: Setup, s: State, q: Peer, effect: Effect)
    requires q in s.provers && s.provers[q].mailbox != []
  {
    var s' := Applied(s, q, effect, s.polys);
    && (Sized(g) ==> !effect.failed)
    && Late(g, s.log, s.polys, q, s'.provers[q])
    && (|| effect.gossip == []
        || (|effect.gossip| == 1 && Justified(g, s', effect.gossip[0]))
        || (|effect.gossip| == 2 && Justified(g, s', effect.gossip[0])
            && effect.gossip[1] == Round2Completed(q) && MayReport2(g, s.log, q, s'.provers[q])))
  }

  lemma LateStep(g: Setup, s: State, q: Peer, effect: Effect)
    requires Invariant(g, s) && q in s.provers && s.provers[q].mailbox != [] && InitCompleted(q) in s.log && LateEffect(g, s, q, effect)
    ensures Invariant(g, PublishAll(Applied(s, q, effect, s.polys), Some(q), effect.gossip))
  {
    hide Invariant;
    hide Late;
    hide LogInv;
    hide Justified;
    hide MayReport2;
    hide ProverInv;
    hide PublishAll;
    var s' := Applied(s, q, effect, s.polys);
    LateFacts(g, s, q);
    StillLate(g, s.log, s.polys, s.polys, q, s.provers[q], s'.provers[q]);
    AppliedKeeps(g, s, q, effect);
    if effect.gossip == [] {
      PublishNone(s', Some(q));
    } else if |effect.gossip| == 1 {
      assert effect.gossip == [effect.gossip[0]];
      FinishOne(g, s', q, effect.gossip[0]);
    } else {
      assert effect.gossip == [effect.gossip[0], Round2Completed(q)];
      FinishTwo(g, s', q, effect.gossip[0], Round2Completed(q));
    }
  }

  lemma StartEffect(g: Setup, s: State, q: Peer, effect: Effect)
    requires Invariant(g, s) && q in s.provers && s.provers[q].mailbox != [] && InitCompleted(q) in s.log
    requires var p := s.provers[q];
             || (p.mailbox[0] == StartRound1 && effect == HandleStartRound1(p.engine))
             || (p.mailbox[0] == StartRound2 && effect == HandleStartRound2(p.engine))
             || (p.mailbox[0] == StartRound3 && effect == HandleStartRound3(p.engine))
    ensures LateEffect(g, s, q, effect)
  {
    hide Invariant;
    hide Late;
    hide LogInv;
    hide ProverInv;
    hide Justified;
    LateFacts(g, s, q);
    StartProverHandled(g, s.log, s.polys, q, s.provers[q], effect);
  }

  lemma Round1OutEffect(g: Setup, s: State, q: Peer, d: nat, deals: Deals, effect: Effect)
    requires Invariant(g, s) && OwnIndices(g) && q in s.provers && s.provers[q].mailbox != [] && InitCompleted(q) in s.log
    requires s.provers[q].mailbox[0] == StoreRound1Out(d, deals) && effect == HandleRound1Out(s.provers[q].engine, d, deals)
    ensures LateEffect(g, s, q, effect)
  {
    hide Invariant;
    hide Late;
    hide LogInv;
    hide ProverInv;
    hide Justified;
    hide OwnIndices;
    hide HandleRound1Out;
    hide MayReport1;
    LateFacts(g, s, q);
    var s' := Applied(s, q, effect, s.polys);
    Round1OutHandled(g, s.log, s.polys, q, s.provers[q], d, deals, effect, s'.provers[q]);
    if effect.gossip != [] {
      CompletionJustified(g, s', q, Round1Completed(q));
    }
  }

  lemma PubsharesEffect(g: Setup, s: State, q: Peer, i: nat, pubshares: map<KeyType, int>, effect: Effect)
    requires Invariant(g, s) && OwnIndices(g) && q in s.provers && s.provers[q].mailbox != [] && InitCompleted(q) in s.log
    requires s.provers[q].mailbox[0] == StorePubshares(i, pubshares) && effect == HandlePubshares(s.provers[q].engine, i, pubshares)
    ensures LateEffect(g, s, q, effect)
  {
    hide Invariant;
    hide Late;
    hide LogInv;
    hide ProverInv;
    hide Justified;
    hide OwnIndices;
    hide HandlePubshares;
    hide MayReport2;
    LateFacts(g, s, q);
    var s' := Applied(s, q, effect, s.polys);
    PubsharesHandled(g, s.log, s.polys, q, s.provers[q], i, pubshares, effect, s'.provers[q]);
    if effect.gossip != [] {
      CompletionJustified(g, s', q, Round2Completed(q));
    }
  }

  lemma Round2Effect(g: Setup, s: State, q: Peer, effect: Effect)
    requires Invariant(g, s) && OwnIndices(g) && SetupOk(g) && q in s.provers && s.provers[q].mailbox != [] && InitCompleted(q) in s.log
    requires s.provers[q].mailbox[0] == RunRound2 && effect == HandleRound2(g.curve, s.provers[q].engine)
    ensures LateEffect(g, s, q, effect)
  {
    hide SetupOk;
    hide OwnIndices;
    hide Invariant;
    hide Late;
    hide LogInv;
    hide ProverInv;
    hide Justified;
    hide HandleRound2;
    hide MayReport2;
    hide NewShares;
    hide NewMembers;
    hide Idx;
    hide Participants;
    LateFacts(g, s, q);
    var s' := Applied(s, q, effect, s.polys);
    Round2Handled(g, s.log, s.polys, q, s.provers[q], effect, s'.provers[q]);
    if effect.gossip != [] {
      Round2OutJustified(g, s', q);
      assert effect.gossip == [effect.gossip[0]] + effect.gossip[1..];
    }
  }

  lemma Round2OutJustified(g: Setup, s: State, q: Peer)
    requires OwnIndices(g) && StartResharingRound2 in s.log && q in g.attempt.quorum
    ensures Justified(g, s, Round2Out(Idx(g, q), NewShares(g, s.polys, Idx(g, q))))
  {
    hide OwnIndices;
    hide NewShares;
    hide Justified;
    hide Idx;
    OwnIndex(g, q);
    PlainJustified(g, s, Round2Out(Idx(g, q), NewShares(g, s.polys, Idx(g, q))));
  }

  lemma Round3Effect(g: Setup, s: State, q: Peer, effect: Effect)
    requires Invariant(g, s) && SetupOk(g) && q in s.provers && s.provers[q].mailbox != [] && InitCompleted(q) in s.log
    requires s.provers[q].engine.Some? ==> EngineOk(s.provers[q].engine.value)
    requires s.provers[q].mailbox[0] == RunRound3 && effect == HandleRound3(g.curve, s.provers[q].engine)
    ensures LateEffect(g, s, q, effect)
  {
    hide Invariant;
    hide Late;
    hide LogInv;
    hide ProverInv;
    hide Justified;
    hide SetupOk;
    hide EngineOk;
    hide HandleRound3;
    hide NewShares;
    LateFacts(g, s, q);
    var s' := Applied(s, q, effect, s.polys);
    Round3Handled(g, s.log, s.polys, q, s.provers[q], effect, s'.provers[q]);
    if effect.gossip != [] {
      PlainJustified(g, s', effect.gossip[0]);
    }
  }

  /** Sizes that `Network::new` refuses: the dealer does nothing. */
  lemma NoDealEffect(g: Setup, s: State, q: Peer, random: map<KeyType, seq<int>>, effect: Effect)
    requires Invariant(g, s) && OwnIndices(g) && q in s.provers && CanHandle(s.provers[q], random) && InitCompleted(q) in s.log
    requires !Sized(g) && s.provers[q].mailbox[0].RunRound1?
    requires effect == Handle(g.curve, s.provers[q].engine, s.provers[q].mailbox[0], s.provers[q].stored, _ => 0, random)
    ensures LateEffect(g, s, q, effect) && effect.gossip == []
  {
    hide Invariant;
    hide LogInv;
    hide ProverInv;
    hide Justified;
    hide OwnIndices;
    hide NodesInv;
    hide Rounds1;
    hide EngineOk;
    hide InputsComplete;
    hide PubsharesComplete;
    hide DealerPolys;
    LateFacts(g, s, q);
    var p, p' := s.provers[q], Applied(s, q, effect, s.polys).provers[q];
    DealsOnce(g, s.log, s.polys, q, p);
    assert effect == Nothing(p.engine);
    RoundsKept(g, s.polys, q, p, [], p');
    LateHandled(g, s.log, s.polys, s.polys, q, p, p.engine.value, [], p');
  }

  lemma DealStep(g: Setup, s: State, q: Peer, drawn: KeyType -> int, random: map<KeyType, seq<int>>)
    requires Invariant(g, s) && OwnIndices(g) && q in s.provers && CanHandle(s.provers[q], random) && InitCompleted(q) in s.log
    requires Sized(g) && s.provers[q].mailbox[0].RunRound1?
    ensures Invariant(g, EngineStep(g, s, q, drawn, random))
  {
    hide Invariant;
    hide Late;
    hide LogInv;
    hide ProverInv;
    hide Justified;
    hide OwnIndices;
    hide EngineOk;
    hide DealerPolys;
    hide DealsOf;
    hide HandleRound1;
    hide PublishAll;
    hide Dealer;
    hide PolysOk;
    hide OneMoreDealer;
    hide Round1Ready;
    hide MayReport1;
    hide NewMembers;
    hide Idx;
    hide NodesInv;
    LateFacts(g, s, q);
    var p, e := s.provers[q], s.provers[q].engine.value;
    DealsOnce(g, s.log, s.polys, q, p);
    LateConfigured(g, s.log, s.polys, q, p);
    DealEffect(g, s.polys, q, e, random);
    var effect := HandleRound1(g.curve, Some(e), g.attempt.threshold, q in g.attempt.quorum, random);
    var polys' := AfterDeal(g, s.polys, e, random);
    var s' := Applied(s, q, effect, polys');
    assert EngineStep(g, s, q, drawn, random) == PublishAll(s', Some(q), effect.gossip);
    DealHandled(g, s.log, s.polys, q, p, random, s'.provers[q]);
    StillLate(g, s.log, s.polys, polys', q, p, s'.provers[q]);
    AppliedDealKeeps(g, s, q, effect, polys');
    var out := Round1Out(e.idx, DealsOf(g.curve, polys'[e.idx], NewMembers(g)));
    PlainJustified(g, s', out);
    if Round1Ready(s'.provers[q].engine.value) && q in g.attempt.quorum {
      assert effect.gossip == [out, Round1Completed(q)];
      FinishTwo(g, s', q, out, Round1Completed(q));
    } else {
      assert effect.gossip == [out];
      FinishOne(g, s', q, out);
    }
  }

  lemma LateConfigured(g: Setup, log: set<Gossip>, polys: Polys, q: Peer, p: Prover)
    requires Late(g, log, polys, q, p)
    ensures p.engine.Some? && Configured(g, q, p.engine.value) && NodesInv(g, log, polys, q, p.engine.value.nodes)
    ensures ValidSize(g.attempt.threshold, |g.attempt.tstar|, true)
  {
    hide NodesInv;
    hide Configured;
  }

  lemma NotDealing(g: Setup, s: State, q: Peer, drawn: KeyType -> int, random: map<KeyType, seq<int>>)
    requires q in s.provers && CanHandle(s.provers[q], random)
    requires var effect := Handle(g.curve, s.provers[q].engine, s.provers[q].mailbox[0], s.provers[q].stored, drawn, random);
             !s.provers[q].mailbox[0].RunRound1? || effect.gossip == []
    ensures var effect := Handle(g.curve, s.provers[q].engine, s.provers[q].mailbox[0], s.provers[q].stored, drawn, random);
            EngineStep(g, s, q, drawn, random) == PublishAll(Applied(s, q, effect, s.polys), Some(q), effect.gossip)
  {
    hide Handle;
    hide PublishAll;
  }

  lemma EngineKeeps(g: Setup, s: State, q: Peer, drawn: KeyType -> int, random: map<KeyType, seq<int>>)
    requires Invariant(g, s) && SetupOk(g) && q in s.provers && CanHandle(s.provers[q], random)
    ensures Invariant(g, EngineStep(g, s, q, drawn, random))
  {
    hide Invariant;
    hide EngineStep;
    assert OwnIndices(g) && AllTypes() <= g.attempt.groupKeys.Keys;
    hide SetupOk;
    hide OwnIndices;
    hide AllTypes;
    if InitCompleted(q) !in s.log {
      EarlyStep(g, s, q, drawn, random);
    } else if s.provers[q].mailbox[0].RunRound1? && Sized(g) {
      DealStep(g, s, q, drawn, random);
    } else {
      LateKeeps(g, s, q, drawn, random);
    }
  }

  lemma LateKeeps(g: Setup, s: State, q: Peer, drawn: KeyType -> int, random: map<KeyType, seq<int>>)
    requires Invariant(g, s) && OwnIndices(g) && SetupOk(g) && q in s.provers && CanHandle(s.provers[q], random) && InitCompleted(q) in s.log
    requires s.provers[q].mailbox[0].RunRound1? ==> !Sized(g)
    ensures Invariant(g, EngineStep(g, s, q, drawn, random))
  {
    hide SetupOk;
    hide OwnIndices;
    hide Invariant;
    hide EngineStep;
    hide PublishAll;
    hide LateEffect;
    hide EngineOk;
    hide HandleRound1;
    hide HandleRound1Out;
    hide HandleRound2;
    hide HandleRound3;
    hide HandlePubshares;
    hide HandleStartRound1;
    hide HandleStartRound2;
    hide HandleStartRound3;
    var p, m := s.provers[q], s.provers[q].mailbox[0];
    var effect := Handle(g.curve, p.engine, m, p.stored, drawn, random);
    LateCommand(g, s, q);
    match m {
      case ClearShares =>
      case ResharingInit(_, _, _) =>
      case StartRound1 => StartEffect(g, s, q, effect);
      case StartRound2 => StartEffect(g, s, q, effect);
      case StartRound3 => StartEffect(g, s, q, effect);
      case RunRound1(_, _) => NoDealEffect(g, s, q, random, effect);
      case StoreRound1Out(d, deals) => Round1OutEffect(g, s, q, d, deals, effect);
      case RunRound2 => Round2Effect(g, s, q, effect);
      case StorePubshares(i, pubshares) => PubsharesEffect(g, s, q, i, pubshares, effect);
      case RunRound3 => Round3Effect(g, s, q, effect);
    }
    NotDealing(g, s, q, drawn, random);
    LateStep(g, s, q, effect);
  }

  /** Nothing that would wipe the inputs is left for an initialised engine. */
  lemma LateCommand(g: Setup, s: State, q: Peer)
    requires Invariant(g, s) && q in s.provers && InitCompleted(q) in s.log && s.provers[q].mailbox != []
    ensures !s.provers[q].mailbox[0].ClearShares? && !s.provers[q].mailbox[0].ResharingInit?
  {
    hide Invariant;
    hide LogInv;
    hide ProverInv;
    hide NodesInv;
    LateFacts(g, s, q);
    assert CommandInv(g, s.log, q, s.provers[q].mailbox[0]);
  }
}
