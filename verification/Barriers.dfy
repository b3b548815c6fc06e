/** The barriers of a resharing attempt, over every run. */
module Barriers {
  import opened Field
  import opened Polynomial
  import opened Sums
  import opened Dkg
  import opened Election
  import opened DkgEngine
  import opened Protocol
  import opened ProtocolSafety
  import Epochs

  lemma NextKeeps(g: Setup, s: State, step: Step)
    requires Invariant(g, s) && SetupOk(g) && Enabled(g, s, step)
    ensures Invariant(g, Next(g, s, step))
  {
    hide SetupOk;
    hide Invariant;
    hide RelayStep;
    hide AnnouncedStep;
    hide StartInitStep;
    hide DeliverStep;
    hide EngineStep;
    hide LoseStep;
    hide CanHandle;
    hide ForRelay;
    hide ForEngine;
    match step
    case RelayHandles(m) => RelayKeeps(g, s, m);
    case Announced(q) => AnnouncedKeeps(g, s, q);
    case InitStarted(q) => StartInitKeeps(g, s, q);
    case Delivered(q, m) => DeliverKeeps(g, s, q, m);
    case EngineHandles(q, drawn, random) => EngineKeeps(g, s, q, drawn, random);
    case Lost(q, m) => LoseKeeps(g, s, q, m);
    case ReportLost(m) => ReportLostKeeps(g, s, m);
  }

  lemma ReportLostKeeps(g: Setup, s: State, m: Gossip)
    requires Invariant(g, s)
    ensures Invariant(g, s.(toRelay := s.toRelay - multiset{m}))
  {
    hide ProverInv;
    hide LogInv;
    hide Recorded;
    hide RequiredOf;
    hide Members;
    hide ReportOf;
  }

  lemma {:induction false} RunInv(g: Setup, states: seq<State>, steps: seq<Step>, i: nat)
    requires SetupOk(g) && IsRun(g, states, steps) && i < |states|
    ensures Invariant(g, states[i])
  {
    hide SetupOk;
    hide Invariant;
    hide Start;
    hide Next;
    hide Enabled;
    if i == 0 {
      StartInv(g, states[0]);
    } else {
      RunInv(g, states, steps, i - 1);
      assert Steps(g, states, steps, i - 1);
      NextKeeps(g, states[i - 1], steps[i - 1]);
    }
  }

  // ---------- the init barrier ----------

  /** Nothing that clears inputs is on its way to prover q or in its mailbox. */
  predicate NothingClears(s: State, q: Peer)
    requires q in s.provers
  {
    && ReElectedProvers !in s.provers[q].pending && StartResharingInit !in s.provers[q].pending
    && forall m :: m in s.provers[q].mailbox ==> !m.ClearShares? && !m.ResharingInit?
  }

  /** Once a dealer's output of round 1 is out, every participant has completed its
      initialisation, and nothing that clears inputs is left anywhere. */
  lemma InitBarrier(g: Setup, states: seq<State>, steps: seq<Step>, i: nat, d: nat, deals: Deals, q: Peer)
    requires SetupOk(g) && IsRun(g, states, steps) && i < |states|
    requires Round1Out(d, deals) in states[i].log && q in Participants(g)
    ensures InitCompleted(q) in states[i].log && q in states[i].provers && NothingClears(states[i], q)
  {
    hide SetupOk;
    hide IsRun;
    hide PolysOk;
    RunInv(g, states, steps, i);
    ClearsNothing(g, states[i], d, deals, q);
  }

  lemma LogHolds(g: Setup, s: State)
    requires Invariant(g, s)
    ensures LogInv(g, s.log, s.polys) && s.provers.Keys == Participants(g)
  {
    hide LogInv;
    hide ProverInv;
  }

  lemma DealtAfterInit(g: Setup, log: set<Gossip>, polys: Polys, d: nat, deals: Deals, q: Peer)
    requires LogInv(g, log, polys) && Round1Out(d, deals) in log && q in Participants(g)
    ensures InitCompleted(q) in log
  {
    hide PolysOk;
    assert MessageInv(g, log, polys, Round1Out(d, deals));
    AllInitialised(g, log, polys, q);
  }

  lemma ClearsNothing(g: Setup, s: State, d: nat, deals: Deals, q: Peer)
    requires Invariant(g, s) && Round1Out(d, deals) in s.log && q in Participants(g)
    ensures InitCompleted(q) in s.log && q in s.provers && NothingClears(s, q)
  {
    hide Invariant;
    hide LogInv;
    hide ProverInv;
    hide Late;
    LogHolds(g, s);
    DealtAfterInit(g, s.log, s.polys, d, deals, q);
    LateFacts(g, s, q);
    LateClearsNothing(g, s.log, s.polys, q, s.provers[q]);
  }

  lemma LateClearsNothing(g: Setup, log: set<Gossip>, polys: Polys, q: Peer, p: Prover)
    requires Late(g, log, polys, q, p)
    ensures p.pending[ReElectedProvers] == 0 && p.pending[StartResharingInit] == 0
    ensures forall m :: m in p.mailbox ==> !m.ClearShares? && !m.ResharingInit?
  {
    hide NodesInv;
    hide Configured;
    forall m | m in p.mailbox
      ensures !m.ClearShares? && !m.ResharingInit?
    {
      assert CommandInv(g, log, q, m);
    }
  }

  /** Inputs may be added, none is lost. */
  predicate KeepsNodes(nodes: map<KeyType, NodeData>, nodes': map<KeyType, NodeData>) {
    && nodes'.Keys == nodes.Keys
    && forall k :: k in nodes ==>
         nodes[k].inputY.Keys <= nodes'[k].inputY.Keys && nodes[k].inputV.Keys <= nodes'[k].inputV.Keys
  }

  predicate KeepsInputs(e: Option<Engine>, e': Option<Engine>) {
    e.Some? ==> e'.Some? && KeepsNodes(e.value.nodes, e'.value.nodes)
  }

  lemma RegisteredKeeps(nodes: map<KeyType, NodeData>, me: nat, d: nat, deals: Deals)
    ensures KeepsNodes(nodes, Registered(nodes, me, d, deals))
  {
  }

  lemma Round1KeepsInputs(curve: Curves, e: Engine, threshold: nat, isReelected: bool, random: map<KeyType, seq<int>>)
    requires EngineOk(e) && random.Keys == e.nodes.Keys
    requires threshold >= 1 ==> forall k :: k in random ==> |random[k]| == threshold
    ensures KeepsInputs(Some(e), HandleRound1(curve, Some(e), threshold, isReelected, random).state)
  {
    hide IndexSet;
    hide DealsOf;
    hide DealerPolys;
    hide Round1Ready;
    hide Registered;
    if ValidSize(threshold, |e.tstarProvers|, true) {
      var deals := DealsOf(curve, DealerPolys(curve, e, random), e.newProvers.Values);
      RegisteredKeeps(e.nodes, e.idx, e.idx, deals);
    }
  }

  /** The two messages that clear are the only ones that lose inputs. */
  lemma HandleKeepsInputs(curve: Curves, e: Option<Engine>, m: Command, stored: map<KeyType, int>,
      drawn: KeyType -> int, random: map<KeyType, seq<int>>)
    requires (m.RunRound1? || m.RunRound3?) && e.Some? ==> EngineOk(e.value)
    requires m.RunRound1? && e.Some? ==> random.Keys == e.value.nodes.Keys
    requires m.RunRound1? && m.threshold >= 1 ==> forall k :: k in random ==> |random[k]| == m.threshold
    requires !m.ClearShares? && !m.ResharingInit?
    ensures KeepsInputs(e, Handle(curve, e, m, stored, drawn, random).state)
  {
    hide EngineOk;
    hide Round2Passes;
    hide Round3Passes;
    hide NodeRound2;
    hide HandleRound1;
    hide Registered;
    hide Round1Ready;
    hide Round2Ready;
    if e.Some? {
      if m.RunRound1? {
        Round1KeepsInputs(curve, e.value, m.threshold, m.isReelected, random);
      } else if m.StoreRound1Out? {
        RegisteredKeeps(e.value.nodes, e.value.idx, m.idx, m.deals);
      }
    }
  }

  lemma {:induction false} PublishKeepsEngines(s: State, from: Option<Peer>, ms: seq<Gossip>, q: Peer)
    requires q in s.provers
    ensures var s' := PublishAll(s, from, ms);
            && s'.provers.Keys == s.provers.Keys && s'.provers[q].engine == s.provers[q].engine && s'.log >= s.log && s'.polys == s.polys
    decreases |ms|
  {
    if ms != [] {
      PublishKeepsEngines(Publish(s, from, ms[0]), from, ms[1..], q);
    }
  }

  lemma KeepsSame(e: Option<Engine>)
    ensures KeepsInputs(e, e)
  {
  }

  lemma StepWipesNothing(g: Setup, s: State, step: Step, q: Peer)
    requires Invariant(g, s) && Enabled(g, s, step) && q in s.provers && InitCompleted(q) in s.log
    ensures var s' := Next(g, s, step);
            q in s'.provers && InitCompleted(q) in s'.log && KeepsInputs(s.provers[q].engine, s'.provers[q].engine)
  {
    hide Invariant;
    hide PublishAll;
    hide EngineStep;
    hide Record;
    hide KeepsNodes;
    hide CanHandle;
    KeepsSame(s.provers[q].engine);
    match step
    case RelayHandles(m) =>
      var (relay', opens) := Record(s.relay, StageOf(m), m.peer);
      PublishKeepsEngines(s.(relay := relay', toRelay := s.toRelay - multiset{m}), None, if opens then [NextStage(StageOf(m))] else [], q);
    case Announced(r) =>
      var p := s.provers[r];
      var p' := p.(pending := p.pending - multiset{ReElectedProvers}, context := Some(g.attempt), mailbox := p.mailbox + [ClearShares]);
      PublishKeepsEngines(s.(provers := s.provers[r := p']), Some(r), if r in Participants(g) then [ReElectionReport(r)] else [], q);
    case InitStarted(r) =>
    case Delivered(r, m) =>
    case EngineHandles(r, drawn, random) =>
      EngineKeepsInputs(g, s, r, drawn, random, q);
    case Lost(r, m) =>
    case ReportLost(m) =>
  }

  lemma EngineKeepsInputs(g: Setup, s: State, r: Peer, drawn: KeyType -> int, random: map<KeyType, seq<int>>, q: Peer)
    requires Invariant(g, s) && r in s.provers && CanHandle(s.provers[r], random) && q in s.provers && InitCompleted(q) in s.log
    ensures var s' := EngineStep(g, s, r, drawn, random);
            q in s'.provers && InitCompleted(q) in s'.log && KeepsInputs(s.provers[q].engine, s'.provers[q].engine)
  {
    hide Invariant;
    hide PublishAll;
    hide Handle;
    hide WithDeal;
    hide EngineOk;
    var p := s.provers[r];
    var effect := Handle(g.curve, p.engine, p.mailbox[0], p.stored, drawn, random);
    KeepsSame(s.provers[q].engine);
    if r == q {
      LateCommand(g, s, q);
      HandleKeepsInputs(g.curve, p.engine, p.mailbox[0], p.stored, drawn, random);
    }
    PublishKeepsEngines(Applied(s, r, effect, WithDeal(g, p, effect, random, s.polys)), Some(r), effect.gossip, q);
  }

  /** No input that an initialised prover has registered is ever wiped. */
  lemma {:induction false} NothingWiped(g: Setup, states: seq<State>, steps: seq<Step>, i: nat, j: nat, q: Peer)
    requires SetupOk(g) && IsRun(g, states, steps) && i <= j < |states|
    requires q in states[i].provers && InitCompleted(q) in states[i].log
    ensures q in states[j].provers && InitCompleted(q) in states[j].log && KeepsInputs(states[i].provers[q].engine, states[j].provers[q].engine)
    decreases j - i
  {
    hide SetupOk;
    hide Invariant;
    hide Start;
    hide Next;
    hide Enabled;
    if i < j {
      NothingWiped(g, states, steps, i, j - 1, q);
      RunInv(g, states, steps, j - 1);
      assert Steps(g, states, steps, j - 1);
      StepWipesNothing(g, states[j - 1], steps[j - 1], q);
    }
  }

  // ---------- the round 1 barrier ----------

  /** When the relay starts round 2, every member of the new quorum holds, for every
      key type, shares and commitments from exactly T*, so the size check at the
      start of round 2 passes. */
  lemma Round1Barrier(g: Setup, states: seq<State>, steps: seq<Step>, i: nat, q: Peer, k: KeyType)
    requires SetupOk(g) && IsRun(g, states, steps) && i < |states|
    requires StartResharingRound2 in states[i].log && q in g.attempt.quorum && k in AllTypes()
    ensures q in states[i].provers
    ensures var e := states[i].provers[q].engine;
            && e.Some? && k in e.value.nodes
            && e.value.nodes[k].inputY.Keys == e.value.nodes[k].inputV.Keys == Dealers(g)
            && WellSized(g.attempt.threshold, |g.attempt.tstar|, e.value.nodes[k].inputY, e.value.nodes[k].inputV)
  {
    assert OwnIndices(g);
    hide SetupOk;
    hide IsRun;
    hide OwnIndices;
    RunInv(g, states, steps, i);
    Round1Holds(g, states[i], q, k);
  }

  lemma Round1Holds(g: Setup, s: State, q: Peer, k: KeyType)
    requires Invariant(g, s) && OwnIndices(g) && StartResharingRound2 in s.log && q in g.attempt.quorum && k in AllTypes()
    ensures q in s.provers && s.provers[q].engine.Some? && k in s.provers[q].engine.value.nodes
    ensures var nd := s.provers[q].engine.value.nodes[k];
            && nd.inputY.Keys == nd.inputV.Keys == Dealers(g)
            && WellSized(g.attempt.threshold, |g.attempt.tstar|, nd.inputY, nd.inputV)
  {
    hide Invariant;
    hide LogInv;
    hide ProverInv;
    hide Late;
    hide OwnIndices;
    hide AllTypes;
    hide InputsInv;
    hide SharesInv;
    hide PolysOk;
    LogHolds(g, s);
    Started2(g, s.log, s.polys, q);
    LateFacts(g, s, q);
    LateConfigured(g, s.log, s.polys, q, s.provers[q]);
    CompleteAtRound2(g, s.log, s.polys, q, s.provers[q]);
    var nd := s.provers[q].engine.value.nodes[k];
    Sizes(g);
    InputSizes(g, s.polys, q, k, nd);
    assert |nd.inputY| == |nd.inputY.Keys| && |nd.inputV| == |nd.inputV.Keys|;
  }

  lemma Started2(g: Setup, log: set<Gossip>, polys: Polys, q: Peer)
    requires LogInv(g, log, polys) && StartResharingRound2 in log && q in g.attempt.quorum
    ensures PolysOk(g, polys) && q in Participants(g) && InitCompleted(q) in log
  {
    hide PolysOk;
    hide MessageInv;
    AllInitialised(g, log, polys, q);
  }

  lemma InputSizes(g: Setup, polys: Polys, q: Peer, k: KeyType, nd: NodeData)
    requires InputsInv(g, polys, q, k, nd) && PolysOk(g, polys) && k in AllTypes()
    ensures forall d :: d in nd.inputV ==> |nd.inputV[d]| == g.attempt.threshold
  {
    hide AllTypes;
    hide Eval;
    hide Dealers;
    forall d | d in nd.inputV
      ensures |nd.inputV[d]| == g.attempt.threshold
    {
      assert DealOk(g, d, k, At(polys, d, k));
    }
  }

  // ---------- no round fails ----------

  /** With sizes that `Network::new` accepts, no handler of any engine ever fails:
      neither an assertion of round 2 or 3 nor an error. */
  lemma NeverFails(g: Setup, states: seq<State>, steps: seq<Step>, i: nat)
    requires SetupOk(g) && IsRun(g, states, steps) && i < |states| && Sized(g)
    ensures !states[i].failed
  {
    hide SetupOk;
    hide IsRun;
    hide LogInv;
    hide RelayInv;
    hide ProverInv;
    RunInv(g, states, steps, i);
  }

  /** The model never keeps an engine from handling a message: whatever is at the
      head of a mailbox can be handled, with any random coefficients of the right number. */
  lemma NeverBlocked(g: Setup, states: seq<State>, steps: seq<Step>, i: nat, q: Peer, random: map<KeyType, seq<int>>)
    requires SetupOk(g) && IsRun(g, states, steps) && i < |states|
    requires q in states[i].provers && states[i].provers[q].mailbox != []
    requires random.Keys == AllTypes() && forall k :: k in random ==> |random[k]| == g.attempt.threshold
    ensures CanHandle(states[i].provers[q], random)
  {
    assert OwnIndices(g) && IndexSet(Dealers(g)) && IndexSet(NewMembers(g));
    hide SetupOk;
    hide IsRun;
    hide OwnIndices;
    hide IndexSet;
    hide AllTypes;
    RunInv(g, states, steps, i);
    Handleable(g, states[i], q, random);
  }

  lemma Handleable(g: Setup, s: State, q: Peer, random: map<KeyType, seq<int>>)
    requires Invariant(g, s) && OwnIndices(g) && IndexSet(Dealers(g)) && IndexSet(NewMembers(g))
    requires q in s.provers && s.provers[q].mailbox != []
    requires random.Keys == AllTypes() && forall k :: k in random ==> |random[k]| == g.attempt.threshold
    ensures CanHandle(s.provers[q], random)
  {
    hide Invariant;
    hide LogInv;
    hide ProverInv;
    hide Late;
    hide OwnIndices;
    hide IndexSet;
    hide AllTypes;
    hide EngineOk;
    hide InputsInv;
    hide SharesInv;
    if InitCompleted(q) in s.log {
      LateFacts(g, s, q);
      LateConfigured(g, s.log, s.polys, q, s.provers[q]);
      ConfiguredOk(g, s.log, s.polys, q, s.provers[q].engine.value);
      RunThreshold(g, s.log, s.polys, q, s.provers[q]);
    } else {
      EarlyMailbox(g, s, q);
    }
  }

  lemma RunThreshold(g: Setup, log: set<Gossip>, polys: Polys, q: Peer, p: Prover)
    requires Late(g, log, polys, q, p) && p.mailbox != []
    ensures p.mailbox[0].RunRound1? ==> p.mailbox[0].threshold == g.attempt.threshold
  {
    hide NodesInv;
    hide Configured;
    assert CommandInv(g, log, q, p.mailbox[0]);
  }

  lemma EarlyMailbox(g: Setup, s: State, q: Peer)
    requires Invariant(g, s) && q in s.provers && InitCompleted(q) !in s.log && s.provers[q].mailbox != []
    ensures s.provers[q].mailbox[0].ClearShares? || s.provers[q].mailbox[0].ResharingInit?
  {
    hide LogInv;
    hide RelayInv;
    hide EngineBefore;
    hide Late;
    assert ProverInv(g, s.log, s.polys, q, s.provers[q]);
  }

  // ---------- what the attempt achieves ----------

  /** Every member of the new quorum has an engine with a node for the key type. */
  predicate Holds(g: Setup, s: State, k: KeyType) {
    forall q :: q in g.attempt.quorum ==> q in s.provers && s.provers[q].engine.Some? && k in s.provers[q].engine.value.nodes
  }

  /** The shares that the new quorum holds, by index. */
  ghost function Held(g: Setup, s: State, k: KeyType): (m: map<nat, int>)
    requires OwnIndices(g) && Holds(g, s, k)
  {
    map q | q in g.attempt.quorum :: Idx(g, q) := s.provers[q].engine.value.nodes[k].node.privateShare
  }

  lemma HeldAt(g: Setup, s: State, k: KeyType)
    requires OwnIndices(g) && Holds(g, s, k)
    ensures Held(g, s, k).Keys == set q | q in g.attempt.quorum :: Idx(g, q)
    ensures forall q :: q in g.attempt.quorum ==> Held(g, s, k)[Idx(g, q)] == s.provers[q].engine.value.nodes[k].node.privateShare
  {
    hide Idx;
  }

  lemma HeldShare(g: Setup, s: State, k: KeyType, q: Peer)
    requires Invariant(g, s) && OwnIndices(g) && StartResharingRound3 in s.log && q in g.attempt.quorum && k in AllTypes()
    ensures q in s.provers && s.provers[q].engine.Some? && k in s.provers[q].engine.value.nodes
    ensures s.provers[q].engine.value.nodes[k].node.privateShare == NewShare(g, s.polys, k, Idx(g, q))
  {
    hide Invariant;
    hide LogInv;
    hide ProverInv;
    hide Late;
    hide OwnIndices;
    hide AllTypes;
    hide InputsInv;
    hide NewShare;
    hide OldShare;
    hide Idx;
    hide PolysOk;
    hide NewMembers;
    LogHolds(g, s);
    Started3(g, s.log, s.polys);
    Started2(g, s.log, s.polys, q);
    LateFacts(g, s, q);
    LateConfigured(g, s.log, s.polys, q, s.provers[q]);
    CompleteAtRound3(g, s.log, s.polys, q, s.provers[q]);
    OwnIndex(g, q);
    assert SharesInv(g, s.log, s.polys, q, k, s.provers[q].engine.value.nodes[k]);
  }

  lemma Started3(g: Setup, log: set<Gossip>, polys: Polys)
    requires LogInv(g, log, polys) && StartResharingRound3 in log
    ensures StartResharingRound2 in log && polys.Keys == Dealers(g) && PolysOk(g, polys)
  {
    hide PolysOk;
    hide MessageInv;
  }

  /** The end of a resharing: once the relay has started round 3, the shares of the
      new quorum are a sharing, with the new threshold, of the secret behind the
      group key, for every key type. */
  lemma Reshared(g: Setup, states: seq<State>, steps: seq<Step>, i: nat, k: KeyType)
    requires OwnIndices(g) && SetupOk(g) && IsRun(g, states, steps) && i < |states|
    requires StartResharingRound3 in states[i].log && g.attempt.threshold >= 1 && k in AllTypes()
    ensures Holds(g, states[i], k)
    ensures Epochs.Shares(g.curve(k), Epochs.Epoch(g.attempt.threshold, Held(g, states[i], k), GroupKey(g, k)), GroupKey(g, k))
  {
    assert KeyMatches(g, k) && IndexSet(NewMembers(g));
    hide SetupOk;
    hide IsRun;
    hide OwnIndices;
    hide KeyMatches;
    hide IndexSet;
    hide AllTypes;
    hide Epochs.Shares;
    RunInv(g, states, steps, i);
    ReshareHolds(g, states[i], k);
  }

  lemma HeldAll(g: Setup, s: State, k: KeyType)
    requires Invariant(g, s) && OwnIndices(g) && StartResharingRound3 in s.log && k in AllTypes()
    ensures Holds(g, s, k) && Held(g, s, k).Keys == NewMembers(g)
    ensures forall j :: j in Held(g, s, k) ==> Held(g, s, k)[j] == NewShare(g, s.polys, k, j)
  {
    hide Invariant;
    hide NewShare;
    hide AllTypes;
    hide Idx;
    hide OwnIndices;
    forall q | q in g.attempt.quorum
      ensures q in s.provers && s.provers[q].engine.Some? && k in s.provers[q].engine.value.nodes
      ensures s.provers[q].engine.value.nodes[k].node.privateShare == NewShare(g, s.polys, k, Idx(g, q))
      ensures Idx(g, q) == g.attempt.quorum[q]
    {
      HeldShare(g, s, k, q);
      OwnIndex(g, q);
    }
  }

  lemma ReshareHolds(g: Setup, s: State, k: KeyType)
    requires Invariant(g, s) && OwnIndices(g) && KeyMatches(g, k) && IndexSet(NewMembers(g))
    requires StartResharingRound3 in s.log && g.attempt.threshold >= 1 && k in AllTypes()
    ensures Holds(g, s, k)
    ensures Epochs.Shares(g.curve(k), Epochs.Epoch(g.attempt.threshold, Held(g, s, k), GroupKey(g, k)), GroupKey(g, k))
  {
    hide Invariant;
    hide LogInv;
    hide KeyMatches;
    hide AllTypes;
    hide PolysOk;
    hide IndexSet;
    hide Eval;
    hide NewPoly;
    hide Holds;
    hide Held;
    hide NewMembers;
    hide OwnIndices;
    hide OnPolynomial;
    LogHolds(g, s);
    Started3(g, s.log, s.polys);
    NewConstant(g, s.polys, k);
    HeldAll(g, s, k);
    var held, c := Held(g, s, k), NewPoly(g, s.polys, k);
    Epochs.OnEval(g.curve(k), held, c);
    assert Epochs.SharesOf(g.curve(k), Epochs.Epoch(g.attempt.threshold, held, GroupKey(g, k)), c, GroupKey(g, k));
  }

  /** ... which is what the next attempt needs of its T*, when that has at least as
      many provers as the threshold. */
  lemma NextAttempt(g: Setup, k: KeyType, e: Epochs.Epoch, secret: int)
    requires Epochs.Shares(g.curve(k), e, secret) && Dealers(g) <= e.shares.Keys && |Dealers(g)| >= e.threshold
    requires k in g.shares && g.shares[k] == Epochs.Part(e, Dealers(g)) && k in g.attempt.groupKeys && g.attempt.groupKeys[k] == e.groupKey
    ensures KeyMatches(g, k)
  {
    Epochs.PartReconstructs(g.curve(k), e, Dealers(g), secret);
  }
}
