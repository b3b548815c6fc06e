/** A resharing attempt in which no message is lost does not get stuck: when nothing
    is left to deliver or to handle, every member of the new quorum is prepared.
 */
module ProtocolProgress {
  import opened Field
  import opened Polynomial
  import opened Sums
  import opened Dkg
  import opened Election
  import opened DkgEngine
  import opened Protocol
  import opened ProtocolSafety
  import opened Barriers
  import Resharing

  // ---------- what is under way ----------

  /** The prover has registered this dealer's output. */
  predicate HasInput(p: Prover, d: nat) {
    p.engine.Some? && forall k :: k in p.engine.value.nodes ==> d in p.engine.value.nodes[k].inputY
  }

  /** The prover has this member's public shares. */
  predicate HasPubshare(p: Prover, i: nat) {
    p.engine.Some? && forall k :: k in p.engine.value.nodes ==> i in p.engine.value.nodes[k].otherPubshares
  }

  ghost function RunMessage(g: Setup, q: Peer): Command {
    RunRound1(g.attempt.threshold, q in g.attempt.quorum)
  }

  /** The announcement, the initialisation and the dealing are done or under way. */
  ghost predicate StartLive(g: Setup, log: set<Gossip>, polys: Polys, q: Peer, p: Prover) {
    && (ReElectedProvers in p.pending || ReElectionReport(q) in log)
    && (StartResharingInit in log ==>
          StartResharingInit in p.pending || InitCommand(g, q) in p.mailbox || InitCompleted(q) in log)
    && (StartResharingRound1 in log && q in g.attempt.tstar ==>
          StartResharingRound1 in p.pending || StartRound1 in p.mailbox || RunMessage(g, q) in p.mailbox || Idx(g, q) in polys)
  }

  /** Every dealer's output is registered or under way, and a full set is reported. */
  ghost predicate InputsLive(g: Setup, log: set<Gossip>, q: Peer, p: Prover) {
    && (forall d, deals :: Round1Out(d, deals) in log ==>
          Round1Out(d, deals) in p.pending || StoreRound1Out(d, deals) in p.mailbox || HasInput(p, d))
    && (InitCompleted(q) in log && p.engine.Some? && InputsComplete(g, p.engine.value.nodes) ==> Round1Completed(q) in log)
  }

  /** Round 2 is done or under way, and so is the collection of the public shares. */
  ghost predicate PubsharesLive(g: Setup, log: set<Gossip>, q: Peer, p: Prover) {
    && (StartResharingRound2 in log ==>
          StartResharingRound2 in p.pending || StartRound2 in p.mailbox || RunRound2 in p.mailbox || HasPubshare(p, Idx(g, q)))
    && (InitCompleted(q) in log && HasPubshare(p, Idx(g, q)) ==> exists shares :: Round2Out(Idx(g, q), shares) in log)
    && (forall i, shares :: Round2Out(i, shares) in log ==>
          i == Idx(g, q) || Round2Out(i, shares) in p.pending || StorePubshares(i, shares) in p.mailbox || HasPubshare(p, i))
    && (InitCompleted(q) in log && p.engine.Some? && PubsharesComplete(g, p.engine.value.nodes) ==> Round2Completed(q) in log)
  }

  ghost predicate IsPrepared(g: Setup, log: set<Gossip>, q: Peer) {
    exists shares :: Prepared(Idx(g, q), q, shares) in log
  }

  ghost predicate Round3Live(g: Setup, log: set<Gossip>, q: Peer, p: Prover) {
    StartResharingRound3 in log ==>
      StartResharingRound3 in p.pending || StartRound3 in p.mailbox || RunRound3 in p.mailbox || IsPrepared(g, log, q)
  }

  ghost predicate ProverLive(g: Setup, log: set<Gossip>, polys: Polys, q: Peer, p: Prover) {
    && StartLive(g, log, polys, q, p)
    && (q in g.attempt.quorum ==> InputsLive(g, log, q, p) && PubsharesLive(g, log, q, p) && Round3Live(g, log, q, p))
  }

  ghost predicate RelayLive(g: Setup, s: State) {
    && (forall stage, q :: ReportOf(stage, q) in s.log ==> ReportOf(stage, q) in s.toRelay || q in Recorded(s.relay, stage))
    && (forall stage :: Recorded(s.relay, stage) == RequiredOf(g, stage) ==> NextStage(stage) in s.log)
  }

  ghost predicate DealsLive(log: set<Gossip>, polys: Polys) {
    forall d :: d in polys ==> exists deals :: Round1Out(d, deals) in log
  }

  ghost predicate Live(g: Setup, s: State) {
    && RelayLive(g, s)
    && DealsLive(s.log, s.polys)
    && s.provers.Keys == Participants(g)
    && forall q :: q in Participants(g) ==> ProverLive(g, s.log, s.polys, q, s.provers[q])
  }

  // ---------- the end ----------

  /** Nothing is left to deliver or to handle. */
  predicate Quiescent(s: State) {
    s.toRelay == multiset{} && forall q :: q in s.provers ==> s.provers[q].pending == multiset{} && s.provers[q].mailbox == []
  }

  /** A stage that everyone has reported is followed by the next. */
  lemma StageOpens(g: Setup, s: State, stage: Stage)
    requires Invariant(g, s) && RelayLive(g, s) && s.toRelay == multiset{}
    requires forall q :: q in RequiredOf(g, stage) ==> ReportOf(stage, q) in s.log
    ensures NextStage(stage) in s.log
  {
    hide ProverInv;
    hide LogInv;
    hide ReportOf;
    hide RequiredOf;
    hide Recorded;
    hide NextStage;
    RecordedAreRequired(g, s, stage);
    forall q | q in RequiredOf(g, stage)
      ensures q in Recorded(s.relay, stage)
    {
    }
    assert Recorded(s.relay, stage) == RequiredOf(g, stage);
  }

  /** A prover with nothing left to do: what it must have done. */
  lemma StartDone(g: Setup, log: set<Gossip>, polys: Polys, q: Peer, p: Prover)
    requires ProverLive(g, log, polys, q, p) && p.pending == multiset{} && p.mailbox == []
    ensures ReElectionReport(q) in log
    ensures StartResharingInit in log ==> InitCompleted(q) in log
    ensures StartResharingRound1 in log && q in g.attempt.tstar ==> Idx(g, q) in polys
  {
    hide InputsLive;
    hide PubsharesLive;
    hide Round3Live;
  }

  lemma RoundsDone(g: Setup, log: set<Gossip>, polys: Polys, q: Peer, p: Prover)
    requires ProverLive(g, log, polys, q, p) && q in g.attempt.quorum && p.pending == multiset{} && p.mailbox == []
    ensures InitCompleted(q) in log && p.engine.Some? && InputsComplete(g, p.engine.value.nodes) ==> Round1Completed(q) in log
    ensures forall d, deals :: Round1Out(d, deals) in log ==> HasInput(p, d)
    ensures StartResharingRound2 in log ==> HasPubshare(p, Idx(g, q))
    ensures InitCompleted(q) in log && HasPubshare(p, Idx(g, q)) ==> exists shares :: Round2Out(Idx(g, q), shares) in log
    ensures forall i, shares :: Round2Out(i, shares) in log ==> i == Idx(g, q) || HasPubshare(p, i)
    ensures InitCompleted(q) in log && p.engine.Some? && PubsharesComplete(g, p.engine.value.nodes) ==> Round2Completed(q) in log
    ensures StartResharingRound3 in log ==> IsPrepared(g, log, q)
  {
    hide StartLive;
    hide HasInput;
    hide HasPubshare;
    hide InputsComplete;
    hide PubsharesComplete;
    hide IsPrepared;
  }

  lemma AllStarted(g: Setup, s: State)
    requires Invariant(g, s) && Live(g, s) && Quiescent(s)
    ensures StartResharingRound1 in s.log && forall q :: q in Participants(g) ==> InitCompleted(q) in s.log
  {
    hide Invariant;
    hide ProverLive;
    hide RelayLive;
    hide DealsLive;
    hide Participants;
    forall q | q in Participants(g)
      ensures ReElectionReport(q) in s.log && (StartResharingInit in s.log ==> InitCompleted(q) in s.log)
    {
      StartDone(g, s.log, s.polys, q, s.provers[q]);
    }
    StageOpens(g, s, ReElection);
    StageOpens(g, s, Initialisation);
  }

  lemma EveryoneDealt(g: Setup, s: State)
    requires Invariant(g, s) && Live(g, s) && Quiescent(s) && OwnIndices(g)
    ensures StartResharingRound1 in s.log && s.polys.Keys == Dealers(g)
  {
    hide Invariant;
    hide ProverLive;
    hide RelayLive;
    hide DealsLive;
    hide OwnIndices;
    AllStarted(g, s);
    forall q | q in g.attempt.tstar
      ensures g.attempt.tstar[q] in s.polys
    {
      assert q in Participants(g);
      StartDone(g, s.log, s.polys, q, s.provers[q]);
      assert Idx(g, q) == g.attempt.tstar[q];
    }
    LogHolds(g, s);
    PolysAreDealers(g, s.log, s.polys);
  }

  lemma PolysAreDealers(g: Setup, log: set<Gossip>, polys: Polys)
    requires LogInv(g, log, polys)
    ensures PolysOk(g, polys) && polys.Keys <= Dealers(g)
  {
    hide MessageInv;
    hide DealOk;
    hide Dealers;
  }

  lemma InputsDone(g: Setup, s: State, q: Peer)
    requires Invariant(g, s) && Live(g, s) && Quiescent(s) && OwnIndices(g) && q in g.attempt.quorum
    ensures Round1Completed(q) in s.log
  {
    hide Invariant;
    hide ProverLive;
    hide RelayLive;
    hide OwnIndices;
    hide Late;
    hide LogInv;
    hide ProverInv;
    hide NodesInv;
    hide Configured;
    hide Dealers;
    hide InputsComplete;
    assert q in Participants(g);
    EveryoneDealt(g, s);
    AllStarted(g, s);
    LateFacts(g, s, q);
    var p := s.provers[q];
    LateConfigured(g, s.log, s.polys, q, p);
    RoundsDone(g, s.log, s.polys, q, p);
    forall d | d in Dealers(g)
      ensures HasInput(p, d)
    {
      var deals :| Round1Out(d, deals) in s.log;
    }
    AllInputs(g, s.log, s.polys, q, p);
  }

  lemma InputsWithin(g: Setup, polys: Polys, q: Peer, k: KeyType, nd: NodeData)
    requires InputsInv(g, polys, q, k, nd)
    ensures nd.inputY.Keys == nd.inputV.Keys <= polys.Keys
  {
  }

  lemma AllInputs(g: Setup, log: set<Gossip>, polys: Polys, q: Peer, p: Prover)
    requires p.engine.Some? && NodesInv(g, log, polys, q, p.engine.value.nodes) && polys.Keys == Dealers(g)
    requires forall d :: d in Dealers(g) ==> HasInput(p, d)
    ensures InputsComplete(g, p.engine.value.nodes)
  {
    hide AllTypes;
    hide Dealers;
    hide SharesInv;
    hide InputsInv;
    var nodes := p.engine.value.nodes;
    forall k | k in nodes
      ensures nodes[k].inputY.Keys == nodes[k].inputV.Keys == Dealers(g)
    {
      InputsWithin(g, polys, q, k, nodes[k]);
      forall d | d in Dealers(g)
        ensures d in nodes[k].inputY
      {
        assert HasInput(p, d);
      }
    }
  }

  lemma Round2Started(g: Setup, s: State)
    requires Invariant(g, s) && Live(g, s) && Quiescent(s) && OwnIndices(g)
    ensures StartResharingRound2 in s.log
  {
    hide Invariant;
    hide ProverLive;
    hide RelayLive;
    hide DealsLive;
    hide OwnIndices;
    forall q | q in g.attempt.quorum
      ensures Round1Completed(q) in s.log
    {
      InputsDone(g, s, q);
    }
    StageOpens(g, s, FirstRound);
  }

  /** Everyone has gone through round 2 and has told everyone. */
  lemma PubsharesOut(g: Setup, s: State, q: Peer)
    requires Invariant(g, s) && Live(g, s) && Quiescent(s) && OwnIndices(g) && q in g.attempt.quorum
    ensures q in s.provers && HasPubshare(s.provers[q], Idx(g, q)) && exists shares :: Round2Out(Idx(g, q), shares) in s.log
  {
    hide Invariant;
    hide ProverLive;
    hide RelayLive;
    hide DealsLive;
    hide OwnIndices;
    hide HasPubshare;
    hide HasInput;
    hide Idx;
    assert q in Participants(g);
    Round2Started(g, s);
    AllStarted(g, s);
    RoundsDone(g, s.log, s.polys, q, s.provers[q]);
  }

  lemma PubsharesDone(g: Setup, s: State, q: Peer)
    requires Invariant(g, s) && Live(g, s) && Quiescent(s) && OwnIndices(g) && q in g.attempt.quorum
    ensures Round2Completed(q) in s.log
  {
    hide Invariant;
    hide ProverLive;
    hide RelayLive;
    hide DealsLive;
    hide OwnIndices;
    hide Late;
    hide LogInv;
    hide ProverInv;
    hide NodesInv;
    hide Configured;
    hide HasPubshare;
    hide HasInput;
    hide PubsharesComplete;
    hide InputsComplete;
    assert q in Participants(g);
    AllStarted(g, s);
    LateFacts(g, s, q);
    var p := s.provers[q];
    LateConfigured(g, s.log, s.polys, q, p);
    RoundsDone(g, s.log, s.polys, q, p);
    forall r | r in g.attempt.quorum
      ensures HasPubshare(p, g.attempt.quorum[r])
    {
      OwnIndex(g, r);
      PubsharesOut(g, s, r);
      var shares :| Round2Out(Idx(g, r), shares) in s.log;
      PubsharesOut(g, s, q);
    }
    AllPubshares(g, s.log, s.polys, q, p);
  }

  lemma AllPubshares(g: Setup, log: set<Gossip>, polys: Polys, q: Peer, p: Prover)
    requires p.engine.Some? && NodesInv(g, log, polys, q, p.engine.value.nodes)
    requires forall r :: r in g.attempt.quorum ==> HasPubshare(p, g.attempt.quorum[r])
    ensures PubsharesComplete(g, p.engine.value.nodes)
  {
    hide AllTypes;
    hide InputsInv;
    hide NewShare;
    hide OldShare;
    hide Idx;
    var nodes := p.engine.value.nodes;
    forall k | k in nodes
      ensures nodes[k].otherPubshares.Keys == NewMembers(g)
    {
      assert SharesInv(g, log, polys, q, k, nodes[k]);
      forall r | r in g.attempt.quorum
        ensures g.attempt.quorum[r] in nodes[k].otherPubshares
      {
        assert HasPubshare(p, g.attempt.quorum[r]);
      }
    }
  }

  lemma QuiescentIsDone(g: Setup, s: State, q: Peer)
    requires Invariant(g, s) && Live(g, s) && Quiescent(s) && OwnIndices(g) && q in g.attempt.quorum
    ensures StartResharingRound3 in s.log && IsPrepared(g, s.log, q)
  {
    hide Invariant;
    hide ProverLive;
    hide RelayLive;
    hide DealsLive;
    hide OwnIndices;
    hide HasPubshare;
    hide HasInput;
    hide PubsharesComplete;
    hide InputsComplete;
    hide IsPrepared;
    forall r | r in g.attempt.quorum
      ensures Round2Completed(r) in s.log
    {
      PubsharesDone(g, s, r);
    }
    StageOpens(g, s, SecondRound);
    assert q in Participants(g);
    RoundsDone(g, s.log, s.polys, q, s.provers[q]);
  }

  // ---------- publishing ----------

  /** The message is on its way to the prover, or the prover, its sender, needs no copy. */
  ghost predicate Reaches(g: Setup, q: Peer, p: Prover, m: Gossip, p': Prover) {
    || p' == Post(p, m)
    || (p' == p && (|| !ForProvers(m)
                    || (m.Round1Out? && (q in g.attempt.quorum ==> HasInput(p, m.idx)))
                    || (m.Round2Out? && m.idx == Idx(g, q))))
  }

  /** Nothing has been received. */
  ghost predicate Empty(g: Setup, q: Peer, p: Prover) {
    p.engine.Some? ==> !InputsComplete(g, p.engine.value.nodes) && !PubsharesComplete(g, p.engine.value.nodes) && !HasPubshare(p, Idx(g, q))
  }

  lemma PostKeepsRest(p: Prover, m: Gossip, p': Prover)
    requires p' == p || p' == Post(p, m)
    ensures p'.mailbox == p.mailbox && p'.engine == p.engine && forall x :: x in p.pending ==> x in p'.pending
    ensures p' == Post(p, m) ==> m in p'.pending
  {
  }

  lemma StartLiveGrows(g: Setup, log: set<Gossip>, polys: Polys, q: Peer, p: Prover, m: Gossip, p': Prover)
    requires StartLive(g, log, polys, q, p) && Reaches(g, q, p, m, p')
    ensures StartLive(g, log + {m}, polys, q, p')
  {
    hide Post;
    hide HasInput;
    hide Idx;
    PostKeepsRest(p, m, p');
  }

  lemma InputsLiveGrows(g: Setup, log: set<Gossip>, q: Peer, p: Prover, m: Gossip, p': Prover)
    requires InputsLive(g, log, q, p) && Reaches(g, q, p, m, p') && q in g.attempt.quorum && (m == InitCompleted(q) ==> Empty(g, q, p))
    ensures InputsLive(g, log + {m}, q, p')
  {
    hide Post;
    hide InputsComplete;
    hide PubsharesComplete;
    hide HasPubshare;
    hide Idx;
    PostKeepsRest(p, m, p');
    forall d, deals | Round1Out(d, deals) in log + {m}
      ensures Round1Out(d, deals) in p'.pending || StoreRound1Out(d, deals) in p'.mailbox || HasInput(p', d)
    {
    }
  }

  lemma PubsharesLiveGrows(g: Setup, log: set<Gossip>, q: Peer, p: Prover, m: Gossip, p': Prover)
    requires PubsharesLive(g, log, q, p) && Reaches(g, q, p, m, p') && (m == InitCompleted(q) ==> Empty(g, q, p))
    ensures PubsharesLive(g, log + {m}, q, p')
  {
    hide Post;
    hide InputsComplete;
    hide PubsharesComplete;
    hide HasInput;
    hide Idx;
    PostKeepsRest(p, m, p');
    SamePubshares(p, p');
    hide HasPubshare;
    forall i, shares | Round2Out(i, shares) in log + {m}
      ensures i == Idx(g, q) || Round2Out(i, shares) in p'.pending || StorePubshares(i, shares) in p'.mailbox || HasPubshare(p', i)
    {
    }
    if InitCompleted(q) in log && HasPubshare(p', Idx(g, q)) {
      var shares :| Round2Out(Idx(g, q), shares) in log;
      assert Round2Out(Idx(g, q), shares) in log + {m};
    }
  }

  lemma SamePubshares(p: Prover, p': Prover)
    requires p'.engine == p.engine
    ensures forall i :: HasPubshare(p', i) <==> HasPubshare(p, i)
  {
  }

  lemma Round3LiveGrows(g: Setup, log: set<Gossip>, q: Peer, p: Prover, m: Gossip, p': Prover)
    requires Round3Live(g, log, q, p) && Reaches(g, q, p, m, p')
    ensures Round3Live(g, log + {m}, q, p')
  {
    hide Post;
    hide HasInput;
    hide Idx;
    PostKeepsRest(p, m, p');
    if IsPrepared(g, log, q) {
      var shares :| Prepared(Idx(g, q), q, shares) in log;
      assert Prepared(Idx(g, q), q, shares) in log + {m};
    }
  }

  lemma LiveGrows(g: Setup, log: set<Gossip>, polys: Polys, q: Peer, p: Prover, m: Gossip, p': Prover)
    requires ProverLive(g, log, polys, q, p) && Reaches(g, q, p, m, p') && (m == InitCompleted(q) ==> Empty(g, q, p))
    ensures ProverLive(g, log + {m}, polys, q, p')
  {
    hide StartLive;
    hide InputsLive;
    hide PubsharesLive;
    hide Round3Live;
    hide Reaches;
    hide Empty;
    StartLiveGrows(g, log, polys, q, p, m, p');
    if q in g.attempt.quorum {
      InputsLiveGrows(g, log, q, p, m, p');
      PubsharesLiveGrows(g, log, q, p, m, p');
      Round3LiveGrows(g, log, q, p, m, p');
    }
  }

  /** Everyone but the sender, who is looked at apart. */
  ghost predicate OthersLive(g: Setup, s: State, from: Option<Peer>) {
    && s.provers.Keys == Participants(g)
    && forall q :: q in Participants(g) && from != Some(q) ==> ProverLive(g, s.log, s.polys, q, s.provers[q])
  }

  lemma PublishKeepsOthers(g: Setup, s: State, from: Option<Peer>, m: Gossip)
    requires OthersLive(g, s, from) && (m.InitCompleted? ==> from == Some(m.peer))
    ensures OthersLive(g, Publish(s, from, m), from)
  {
    hide ProverLive;
    hide Participants;
    var s' := Publish(s, from, m);
    forall q | q in Participants(g) && from != Some(q)
      ensures ProverLive(g, s'.log, s'.polys, q, s'.provers[q])
    {
      LiveGrows(g, s.log, s.polys, q, s.provers[q], m, s'.provers[q]);
    }
  }

  lemma DealsGrow(log: set<Gossip>, log': set<Gossip>, polys: Polys, polys': Polys)
    requires DealsLive(log, polys) && log <= log'
    requires forall d :: d in polys' && d !in polys ==> exists deals :: Round1Out(d, deals) in log'
    ensures DealsLive(log', polys')
  {
    forall d | d in polys'
      ensures exists deals :: Round1Out(d, deals) in log'
    {
      if d in polys {
        var deals :| Round1Out(d, deals) in log;
        assert Round1Out(d, deals) in log';
      }
    }
  }

  /** A published report is on its way to the relay. */
  lemma PublishKeepsRelay(g: Setup, s: State, from: Option<Peer>, m: Gossip)
    requires RelayLive(g, s)
    ensures RelayLive(g, Publish(s, from, m))
  {
    hide Recorded;
    hide RequiredOf;
    var s' := Publish(s, from, m);
    forall stage, q | ReportOf(stage, q) in s'.log
      ensures ReportOf(stage, q) in s'.toRelay || q in Recorded(s'.relay, stage)
    {
    }
  }

  /** Several messages of one sender. */
  lemma {:induction false} PublishAllKeeps(g: Setup, s: State, from: Option<Peer>, ms: seq<Gossip>)
    requires OthersLive(g, s, from) && RelayLive(g, s)
    requires forall m :: m in ms && m.InitCompleted? ==> from == Some(m.peer)
    ensures var s' := PublishAll(s, from, ms);
            && OthersLive(g, s', from) && RelayLive(g, s')
            && s'.log == s.log + (set m | m in ms) && s'.polys == s.polys
            && (from.Some? && from.value in s.provers ==> s'.provers[from.value] == s.provers[from.value])
    decreases |ms|
  {
    hide RelayLive;
    hide ProverLive;
    hide Participants;
    if ms != [] {
      PublishKeepsOthers(g, s, from, ms[0]);
      PublishKeepsRelay(g, s, from, ms[0]);
      PublishAllKeeps(g, Publish(s, from, ms[0]), from, ms[1..]);
      assert ms == [ms[0]] + ms[1..];
    }
  }

  // ---------- the relay's steps ----------

  lemma RelayRecords(g: Setup, s: State, m: Gossip)
    requires Invariant(g, s) && RelayLive(g, s) && m in s.toRelay && ForRelay(m)
    ensures RelayLive(g, RelayStep(s, m))
  {
    hide LogInv;
    hide ProverInv;
    hide RelayLive;
    hide PublishAll;
    hide Publish;
    hide RelayInv;
    var stage := StageOf(m);
    assert m == ReportOf(stage, m.peer);
    var s' := s.(relay := Record(s.relay, stage, m.peer).0, toRelay := s.toRelay - multiset{m});
    RecordLive(g, s, s', stage, m.peer, m);
    if Record(s.relay, stage, m.peer).1 {
      PublishOne(s', None, NextStage(stage));
      OpeningLive(g, s', stage);
    } else {
      PublishNone(s', None);
    }
  }

  /** All but the message the relay may have to send. */
  ghost predicate RelayAlmostLive(g: Setup, s: State, open: Stage) {
    && (forall stage, q :: ReportOf(stage, q) in s.log ==> ReportOf(stage, q) in s.toRelay || q in Recorded(s.relay, stage))
    && (forall stage :: stage != open && Recorded(s.relay, stage) == RequiredOf(g, stage) ==> NextStage(stage) in s.log)
  }

  lemma RecordFacts(r: Relay, stage: Stage, q: Peer)
    requires q in Required(r, stage)
    ensures var (r', opens) := Record(r, stage, q);
            && Recorded(r', stage) == Recorded(r, stage) + {q}
            && (forall st :: st != stage ==> Recorded(r', st) == Recorded(r, st))
            && (opens <==> q !in Recorded(r, stage) && |Recorded(r', stage)| == Quota(r, stage))
  {
    hide Required;
    hide Quota;
  }

  lemma RecordLive(g: Setup, s: State, s': State, stage: Stage, q: Peer, m: Gossip)
    requires Invariant(g, s) && RelayLive(g, s) && m == ReportOf(stage, q) && m in s.toRelay
    requires s' == s.(relay := Record(s.relay, stage, q).0, toRelay := s.toRelay - multiset{m})
    ensures RelayAlmostLive(g, s', stage)
    ensures !Record(s.relay, stage, q).1 ==> RelayLive(g, s')
  {
    hide LogInv;
    hide ProverInv;
    hide Members;
    hide RequiredOf;
    hide Required;
    hide Quota;
    hide Record;
    hide Recorded;
    hide ReportOf;
    hide NextStage;
    RequiredAre(g, s, stage);
    ReportsAreRequired(g, s, stage, q);
    OneReport(stage, q);
    RecordFacts(s.relay, stage, q);
    forall st, r | ReportOf(st, r) in s'.log
      ensures ReportOf(st, r) in s'.toRelay || r in Recorded(s'.relay, st)
    {
      assert ReportOf(st, r) in s.toRelay || r in Recorded(s.relay, st);
    }
    if Recorded(s'.relay, stage) == RequiredOf(g, stage) && q in Recorded(s.relay, stage) {
      assert Recorded(s.relay, stage) == RequiredOf(g, stage);
    }
  }

  lemma OneReport(stage: Stage, q: Peer)
    ensures forall st, r :: ReportOf(st, r) == ReportOf(stage, q) ==> st == stage && r == q
  {
  }

  lemma OpeningLive(g: Setup, s: State, stage: Stage)
    requires RelayAlmostLive(g, s, stage)
    ensures RelayLive(g, Publish(s, None, NextStage(stage)))
  {
    hide Recorded;
    hide RequiredOf;
    var s' := Publish(s, None, NextStage(stage));
    forall st, q | ReportOf(st, q) in s'.log
      ensures ReportOf(st, q) in s'.toRelay || q in Recorded(s'.relay, st)
    {
    }
  }

  lemma RelayStepLive(g: Setup, s: State, m: Gossip)
    requires Invariant(g, s) && Live(g, s) && m in s.toRelay && ForRelay(m)
    ensures Live(g, RelayStep(s, m))
  {
    hide Invariant;
    hide RelayLive;
    hide ProverLive;
    hide Participants;
    hide Record;
    hide PublishAll;
    hide Publish;
    RelayRecords(g, s, m);
    var opens := Record(s.relay, StageOf(m), m.peer).1;
    var s' := s.(relay := Record(s.relay, StageOf(m), m.peer).0, toRelay := s.toRelay - multiset{m});
    if opens {
      PublishOne(s', None, NextStage(StageOf(m)));
      NotInit(StageOf(m));
      PublishKeepsOthers(g, s', None, NextStage(StageOf(m)));
      PublishedLog(s', None, NextStage(StageOf(m)));
      DealsGrow(s.log, RelayStep(s, m).log, s.polys, s.polys);
    } else {
      PublishNone(s', None);
    }
  }

  lemma PublishedLog(s: State, from: Option<Peer>, m: Gossip)
    ensures Publish(s, from, m).log == s.log + {m} && Publish(s, from, m).polys == s.polys
  {
  }

  lemma NotInit(stage: Stage)
    ensures !NextStage(stage).InitCompleted?
  {
  }

  // ---------- a prover's election and gossip actors ----------

  /** One message leaves the network, and what it stands for is kept. */
  ghost predicate Taken(g: Setup, log: set<Gossip>, q: Peer, p: Prover, x: Gossip, p': Prover) {
    && p'.engine == p.engine
    && (forall y :: y in p.pending && y != x ==> y in p'.pending)
    && (forall c :: c in p.mailbox ==> c in p'.mailbox)
    && (x == ReElectedProvers ==> ReElectionReport(q) in log)
    && (x == StartResharingInit ==> InitCommand(g, q) in p'.mailbox)
    && (ForEngine(x) ==> ToCommand(x) in p'.mailbox)
  }

  lemma TakenLive(g: Setup, log: set<Gossip>, polys: Polys, q: Peer, p: Prover, x: Gossip, p': Prover)
    requires ProverLive(g, log, polys, q, p) && Taken(g, log, q, p, x, p')
    ensures ProverLive(g, log, polys, q, p')
  {
    hide InputsLive;
    hide PubsharesLive;
    hide Round3Live;
    if q in g.attempt.quorum {
      TakenInputs(g, log, q, p, x, p');
      TakenPubshares(g, log, q, p, x, p');
      TakenRound3(g, log, q, p, x, p');
    }
  }

  lemma TakenInputs(g: Setup, log: set<Gossip>, q: Peer, p: Prover, x: Gossip, p': Prover)
    requires InputsLive(g, log, q, p) && Taken(g, log, q, p, x, p')
    ensures InputsLive(g, log, q, p')
  {
    hide InputsComplete;
    hide InitCommand;
    forall d, deals | Round1Out(d, deals) in log
      ensures Round1Out(d, deals) in p'.pending || StoreRound1Out(d, deals) in p'.mailbox || HasInput(p', d)
    {
    }
  }

  lemma TakenPubshares(g: Setup, log: set<Gossip>, q: Peer, p: Prover, x: Gossip, p': Prover)
    requires PubsharesLive(g, log, q, p) && Taken(g, log, q, p, x, p')
    ensures PubsharesLive(g, log, q, p')
  {
    hide PubsharesComplete;
    hide InitCommand;
    SamePubshares(p, p');
    hide HasPubshare;
    forall i, shares | Round2Out(i, shares) in log
      ensures i == Idx(g, q) || Round2Out(i, shares) in p'.pending || StorePubshares(i, shares) in p'.mailbox || HasPubshare(p', i)
    {
    }
  }

  lemma TakenRound3(g: Setup, log: set<Gossip>, q: Peer, p: Prover, x: Gossip, p': Prover)
    requires Round3Live(g, log, q, p) && Taken(g, log, q, p, x, p')
    ensures Round3Live(g, log, q, p')
  {
    hide IsPrepared;
    hide InitCommand;
  }

  /** A step that only concerns prover q. */
  lemma UpdateLive(g: Setup, s: State, q: Peer, p: Prover)
    requires Live(g, s) && q in Participants(g) && ProverLive(g, s.log, s.polys, q, p)
    ensures Live(g, s.(provers := s.provers[q := p]))
  {
    hide ProverLive;
    hide DealsLive;
    hide Recorded;
    hide RequiredOf;
    hide ReportOf;
  }

  lemma AnnouncedLive(g: Setup, s: State, q: Peer)
    requires Live(g, s) && q in s.provers && ReElectedProvers in s.provers[q].pending
    ensures Live(g, AnnouncedStep(g, s, q))
  {
    hide ProverLive;
    hide RelayLive;
    hide PublishAll;
    hide DealsLive;
    var p, m := s.provers[q], ReElectionReport(q);
    var p' := p.(pending := p.pending - multiset{ReElectedProvers}, context := Some(g.attempt), mailbox := p.mailbox + [ClearShares]);
    var s' := s.(provers := s.provers[q := p']);
    PublishOne(s', Some(q), m);
    LiveGrows(g, s.log, s.polys, q, p, m, p);
    TakenLive(g, s.log + {m}, s.polys, q, p, ReElectedProvers, p');
    SameRelay(g, s, s');
    PublishKeepsOthers(g, s', Some(q), m);
    PublishKeepsRelay(g, s', Some(q), m);
    DealsGrow(s.log, s.log + {m}, s.polys, s.polys);
  }

  lemma SameRelay(g: Setup, s: State, s': State)
    requires RelayLive(g, s) && s'.log == s.log && s'.toRelay == s.toRelay && s'.relay == s.relay
    ensures RelayLive(g, s')
  {
  }

  lemma StartInitLive(g: Setup, s: State, q: Peer)
    requires Invariant(g, s) && Live(g, s) && q in s.provers && StartResharingInit in s.provers[q].pending
    ensures Live(g, StartInitStep(s, q))
  {
    hide ProverLive;
    hide RelayLive;
    hide DealsLive;
    hide LogInv;
    hide RelayInv;
    hide ProverInv;
    var p := s.provers[q];
    var p' := p.(pending := p.pending - multiset{StartResharingInit}, mailbox := p.mailbox + [InitCommand(g, q)]);
    StartInitProver(g, s.log, s.polys, q, p, p');
    assert StartInitStep(s, q) == s.(provers := s.provers[q := p']);
    TakenLive(g, s.log, s.polys, q, p, StartResharingInit, p');
    UpdateLive(g, s, q, p');
  }

  lemma DeliverLive(g: Setup, s: State, q: Peer, m: Gossip)
    requires Live(g, s) && q in s.provers && m in s.provers[q].pending && ForEngine(m)
    ensures Live(g, DeliverStep(s, q, m))
  {
    hide ProverLive;
    hide RelayLive;
    hide DealsLive;
    var p := s.provers[q];
    var p' := p.(pending := p.pending - multiset{m}, mailbox := p.mailbox + [ToCommand(m)]);
    TakenLive(g, s.log, s.polys, q, p, m, p');
    UpdateLive(g, s, q, p');
  }

  // ---------- a prover's engine: what handling a message has to achieve ----------

  /** The engine took the first message, sent itself casts, and published what log' adds. */
  ghost predicate Pops(log: set<Gossip>, log': set<Gossip>, p: Prover, casts: seq<Command>, p': Prover) {
    && p.mailbox != [] && p'.pending == p.pending && p'.mailbox == p.mailbox[1..] + casts
    && log <= log'
    && forall stage :: NextStage(stage) in log' ==> NextStage(stage) in log
  }

  lemma KeptInMailbox(log: set<Gossip>, log': set<Gossip>, p: Prover, casts: seq<Command>, p': Prover)
    requires Pops(log, log', p, casts, p')
    ensures forall c :: c in p.mailbox && c != p.mailbox[0] ==> c in p'.mailbox
    ensures forall c :: c in casts ==> c in p'.mailbox
    ensures StartResharingRound1 in log' ==> StartResharingRound1 in log
    ensures StartResharingRound2 in log' ==> StartResharingRound2 in log
    ensures StartResharingRound3 in log' ==> StartResharingRound3 in log
  {
    assert p.mailbox == [p.mailbox[0]] + p.mailbox[1..];
    assert NextStage(Initialisation) == StartResharingRound1 && NextStage(FirstRound) == StartResharingRound2;
    assert NextStage(SecondRound) == StartResharingRound3;
  }

  ghost predicate StartOk(g: Setup, log: set<Gossip>, polys: Polys, polys': Polys, q: Peer, p: Prover, casts: seq<Command>)
    requires p.mailbox != []
  {
    && ReElectionReport(q) in log && InitCompleted(q) in log && polys.Keys <= polys'.Keys
    && (q in g.attempt.tstar && p.mailbox[0] == StartRound1 ==> RunMessage(g, q) in casts)
    && (q in g.attempt.tstar && p.mailbox[0] == RunMessage(g, q) ==> Idx(g, q) in polys')
  }

  lemma HandledStart(g: Setup, log: set<Gossip>, log': set<Gossip>, polys: Polys, polys': Polys, q: Peer, p: Prover,
      casts: seq<Command>, p': Prover)
    requires StartLive(g, log, polys, q, p) && Pops(log, log', p, casts, p') && StartOk(g, log, polys, polys', q, p, casts)
    ensures StartLive(g, log', polys', q, p')
  {
    hide Idx;
    KeptInMailbox(log, log', p, casts, p');
    hide Pops;
  }

  ghost predicate InputsOk(g: Setup, log: set<Gossip>, log': set<Gossip>, q: Peer, p: Prover, p': Prover)
    requires p.mailbox != []
  {
    && (forall d :: HasInput(p, d) ==> HasInput(p', d))
    && (p.mailbox[0].StoreRound1Out? ==> HasInput(p', p.mailbox[0].idx))
    && (forall d, deals :: Round1Out(d, deals) in log' && Round1Out(d, deals) !in log ==> HasInput(p', d))
    && (p'.engine.Some? && InputsComplete(g, p'.engine.value.nodes) ==> Round1Completed(q) in log')
  }

  lemma HandledInputs(g: Setup, log: set<Gossip>, log': set<Gossip>, q: Peer, p: Prover, casts: seq<Command>, p': Prover)
    requires InputsLive(g, log, q, p) && Pops(log, log', p, casts, p') && InputsOk(g, log, log', q, p, p')
    ensures InputsLive(g, log', q, p')
  {
    hide HasInput;
    hide InputsComplete;
    KeptInMailbox(log, log', p, casts, p');
    forall d, deals | Round1Out(d, deals) in log'
      ensures Round1Out(d, deals) in p'.pending || StoreRound1Out(d, deals) in p'.mailbox || HasInput(p', d)
    {
    }
  }

  ghost predicate PubsharesOk(g: Setup, log: set<Gossip>, log': set<Gossip>, q: Peer, p: Prover, casts: seq<Command>, p': Prover)
    requires p.mailbox != []
  {
    && (forall i :: HasPubshare(p, i) ==> HasPubshare(p', i))
    && (p.mailbox[0] == StartRound2 ==> RunRound2 in casts)
    && (p.mailbox[0] == RunRound2 ==> HasPubshare(p', Idx(g, q)))
    && (p.mailbox[0].StorePubshares? ==> p.mailbox[0].idx == Idx(g, q) || HasPubshare(p', p.mailbox[0].idx))
    && (HasPubshare(p', Idx(g, q)) ==> exists shares :: Round2Out(Idx(g, q), shares) in log')
    && (forall i, shares :: Round2Out(i, shares) in log' && Round2Out(i, shares) !in log ==> i == Idx(g, q))
    && (p'.engine.Some? && PubsharesComplete(g, p'.engine.value.nodes) ==> Round2Completed(q) in log')
  }

  lemma HandledPubshares(g: Setup, log: set<Gossip>, log': set<Gossip>, q: Peer, p: Prover, casts: seq<Command>, p': Prover)
    requires PubsharesLive(g, log, q, p) && Pops(log, log', p, casts, p') && PubsharesOk(g, log, log', q, p, casts, p')
    ensures PubsharesLive(g, log', q, p')
  {
    hide HasPubshare;
    hide PubsharesComplete;
    hide Idx;
    KeptInMailbox(log, log', p, casts, p');
    forall i, shares | Round2Out(i, shares) in log'
      ensures i == Idx(g, q) || Round2Out(i, shares) in p'.pending || StorePubshares(i, shares) in p'.mailbox || HasPubshare(p', i)
    {
    }
  }

  ghost predicate Round3Ok(g: Setup, log': set<Gossip>, q: Peer, p: Prover, casts: seq<Command>)
    requires p.mailbox != []
  {
    (p.mailbox[0] == StartRound3 ==> RunRound3 in casts) && (p.mailbox[0] == RunRound3 ==> IsPrepared(g, log', q))
  }

  lemma HandledRound3(g: Setup, log: set<Gossip>, log': set<Gossip>, q: Peer, p: Prover, casts: seq<Command>, p': Prover)
    requires Round3Live(g, log, q, p) && Pops(log, log', p, casts, p') && Round3Ok(g, log', q, p, casts)
    ensures Round3Live(g, log', q, p')
  {
    hide Idx;
    KeptInMailbox(log, log', p, casts, p');
    if IsPrepared(g, log, q) {
      var shares :| Prepared(Idx(g, q), q, shares) in log;
      assert Prepared(Idx(g, q), q, shares) in log';
    }
  }

  /** All of it. */
  ghost predicate HandlesWell(g: Setup, log: set<Gossip>, log': set<Gossip>, polys: Polys, polys': Polys, q: Peer,
      p: Prover, casts: seq<Command>, p': Prover) {
    && Pops(log, log', p, casts, p')
    && StartOk(g, log, polys, polys', q, p, casts)
    && (q in g.attempt.quorum ==>
          InputsOk(g, log, log', q, p, p') && PubsharesOk(g, log, log', q, p, casts, p') && Round3Ok(g, log', q, p, casts))
  }

  lemma HandledLive(g: Setup, log: set<Gossip>, log': set<Gossip>, polys: Polys, polys': Polys, q: Peer, p: Prover,
      casts: seq<Command>, p': Prover)
    requires ProverLive(g, log, polys, q, p) && HandlesWell(g, log, log', polys, polys', q, p, casts, p')
    ensures ProverLive(g, log', polys', q, p')
  {
    hide StartLive;
    hide InputsLive;
    hide PubsharesLive;
    hide Round3Live;
    hide StartOk;
    hide InputsOk;
    hide PubsharesOk;
    hide Round3Ok;
    HandledStart(g, log, log', polys, polys', q, p, casts, p');
    if q in g.attempt.quorum {
      HandledInputs(g, log, log', q, p, casts, p');
      HandledPubshares(g, log, log', q, p, casts, p');
      HandledRound3(g, log, log', q, p, casts, p');
    }
  }

  /** What was published together with what a handler gossips. */
  function With(log: set<Gossip>, ms: seq<Gossip>): set<Gossip> {
    log + (set m | m in ms)
  }

  /** An engine does not give the relay's signals. */
  predicate NoSignals(ms: seq<Gossip>) {
    forall m, stage :: m in ms ==> m != NextStage(stage)
  }

  lemma PopsWith(log: set<Gossip>, p: Prover, effect: Effect, p': Prover)
    requires p.mailbox != [] && NoSignals(effect.gossip)
    requires p' == p.(engine := effect.state, mailbox := p.mailbox[1..] + effect.casts)
    ensures Pops(log, With(log, effect.gossip), p, effect.casts, p')
  {
  }

  ghost predicate SameInputs(p: Prover, p': Prover) {
    && p.engine.Some? && p'.engine.Some? && p'.engine.value.nodes.Keys == p.engine.value.nodes.Keys
    && forall k :: k in p.engine.value.nodes ==>
         && p'.engine.value.nodes[k].inputY == p.engine.value.nodes[k].inputY
         && p'.engine.value.nodes[k].inputV == p.engine.value.nodes[k].inputV
  }

  lemma UntouchedInputs(g: Setup, log: set<Gossip>, ms: seq<Gossip>, q: Peer, p: Prover, p': Prover)
    requires InputsLive(g, log, q, p) && InitCompleted(q) in log && SameInputs(p, p')
    requires p.mailbox != [] && !p.mailbox[0].StoreRound1Out? && forall m :: m in ms ==> !m.Round1Out?
    ensures InputsOk(g, log, With(log, ms), q, p, p')
  {
    hide Dealers;
  }

  ghost predicate SamePubs(p: Prover, p': Prover) {
    && p.engine.Some? && p'.engine.Some? && p'.engine.value.nodes.Keys == p.engine.value.nodes.Keys
    && forall k :: k in p.engine.value.nodes ==> p'.engine.value.nodes[k].otherPubshares == p.engine.value.nodes[k].otherPubshares
  }

  lemma UntouchedPubshares(g: Setup, log: set<Gossip>, ms: seq<Gossip>, q: Peer, p: Prover, casts: seq<Command>, p': Prover)
    requires PubsharesLive(g, log, q, p) && InitCompleted(q) in log && SamePubs(p, p')
    requires p.mailbox != [] && !p.mailbox[0].RunRound2? && !p.mailbox[0].StorePubshares? && forall m :: m in ms ==> !m.Round2Out?
    requires p.mailbox[0] == StartRound2 ==> RunRound2 in casts
    ensures PubsharesOk(g, log, With(log, ms), q, p, casts, p')
  {
    hide NewMembers;
    hide Idx;
    if HasPubshare(p', Idx(g, q)) {
      assert HasPubshare(p, Idx(g, q));
      var shares :| Round2Out(Idx(g, q), shares) in log;
      assert Round2Out(Idx(g, q), shares) in With(log, ms);
    }
  }

  lemma LateReported(g: Setup, log: set<Gossip>, polys: Polys, q: Peer, p: Prover)
    requires Late(g, log, polys, q, p)
    ensures ReElectionReport(q) in log
  {
    hide NodesInv;
    hide Configured;
    hide CommandInv;
  }

  lemma StartHandlesWell(g: Setup, log: set<Gossip>, polys: Polys, q: Peer, p: Prover, effect: Effect, p': Prover)
    requires ProverLive(g, log, polys, q, p) && Late(g, log, polys, q, p) && InitCompleted(q) in log && p.mailbox != []
    requires (p.mailbox[0] == StartRound1 && effect == HandleStartRound1(p.engine))
             || (p.mailbox[0] == StartRound2 && effect == HandleStartRound2(p.engine))
             || (p.mailbox[0] == StartRound3 && effect == HandleStartRound3(p.engine))
    requires p' == p.(engine := effect.state, mailbox := p.mailbox[1..] + effect.casts)
    ensures HandlesWell(g, log, With(log, effect.gossip), polys, polys, q, p, effect.casts, p')
  {
    hide StartLive;
    hide InputsLive;
    hide PubsharesLive;
    hide Round3Live;
    hide Late;
    hide NodesInv;
    hide InputsOk;
    hide PubsharesOk;
    hide IsPrepared;
    hide Pops;
    hide With;
    LateReported(g, log, polys, q, p);
    LateConfigured(g, log, polys, q, p);
    assert effect.gossip == [] && effect.state == p.engine;
    PopsWith(log, p, effect, p');
    if q in g.attempt.quorum {
      UntouchedInputs(g, log, effect.gossip, q, p, p');
      UntouchedPubshares(g, log, effect.gossip, q, p, effect.casts, p');
    }
  }

  // Round 1.

  lemma InputsReportedWhenComplete(g: Setup, e: Engine)
    requires InputsComplete(g, e.nodes) && e.tstarProvers == g.attempt.tstar && e.peer in e.newProvers && OwnIndices(g)
    ensures Round1Ready(e)
  {
    hide OwnIndices;
    Sizes(g);
    forall k | k in e.nodes
      ensures |e.nodes[k].inputV| == |e.tstarProvers| && |e.nodes[k].inputY| == |e.tstarProvers|
    {
      assert |e.nodes[k].inputV| == |e.nodes[k].inputV.Keys| && |e.nodes[k].inputY| == |e.nodes[k].inputY.Keys|;
    }
  }

  /** A dealer's output has been registered, and a full set is reported. */
  lemma GainedInputs(g: Setup, log: set<Gossip>, ms: seq<Gossip>, q: Peer, p: Prover, p': Prover, d: nat)
    requires p.engine.Some? && p'.engine.Some? && GainsDealer(p.engine.value.nodes, p'.engine.value.nodes, d) && p.mailbox != []
    requires p.mailbox[0].StoreRound1Out? ==> p.mailbox[0].idx == d
    requires forall m :: m in ms && m.Round1Out? ==> m.idx == d
    requires InputsComplete(g, p'.engine.value.nodes) ==> Round1Completed(q) in ms
    ensures InputsOk(g, log, With(log, ms), q, p, p') && SamePubs(p, p')
  {
    hide InputsComplete;
    GainsInput(p, p', d);
    hide HasInput;
    hide GainsDealer;
  }

  lemma GainsInput(p: Prover, p': Prover, d: nat)
    requires p.engine.Some? && p'.engine.Some? && GainsDealer(p.engine.value.nodes, p'.engine.value.nodes, d)
    ensures HasInput(p', d) && (forall x :: HasInput(p, x) ==> HasInput(p', x)) && SamePubs(p, p')
  {
    forall x | HasInput(p, x)
      ensures HasInput(p', x)
    {
      var nodes, nodes' := p.engine.value.nodes, p'.engine.value.nodes;
      forall k | k in nodes'
        ensures x in nodes'[k].inputY
      {
        assert x in nodes[k].inputY && Gains(nodes[k], nodes'[k], d);
      }
    }
  }

  lemma StoreHandlesWell(g: Setup, log: set<Gossip>, polys: Polys, q: Peer, p: Prover, d: nat, deals: Deals, effect: Effect, p': Prover)
    requires OwnIndices(g) && LogInv(g, log, polys) && ProverLive(g, log, polys, q, p) && Late(g, log, polys, q, p) && InitCompleted(q) in log
    requires p.mailbox != [] && p.mailbox[0] == StoreRound1Out(d, deals) && effect == HandleRound1Out(p.engine, d, deals)
    requires p' == p.(engine := effect.state, mailbox := p.mailbox[1..] + effect.casts)
    ensures HandlesWell(g, log, With(log, effect.gossip), polys, polys, q, p, effect.casts, p')
  {
    hide OwnIndices;
    hide StartLive;
    hide InputsLive;
    hide PubsharesLive;
    hide Round3Live;
    hide NodesInv;
    hide InputsOk;
    hide PubsharesOk;
    hide IsPrepared;
    hide Pops;
    hide With;
    hide Registered;
    hide Round1Ready;
    hide InputsComplete;
    hide Idx;
    hide DealsOf;
    hide DealOk;
    hide AllTypes;
    assert CommandInv(g, log, q, p.mailbox[0]);
    assert MessageInv(g, log, polys, Round1Out(d, deals));
    LateReported(g, log, polys, q, p);
    LateConfigured(g, log, polys, q, p);
    PopsWith(log, p, effect, p');
    if q in g.attempt.quorum {
      OwnIndex(g, q);
      assert d in Dealers(g);
      RegisteredNodes(g, log, polys, q, p.engine.value.nodes, d);
      if InputsComplete(g, p'.engine.value.nodes) {
        InputsReportedWhenComplete(g, p'.engine.value);
      }
      GainedInputs(g, log, effect.gossip, q, p, p', d);
      UntouchedPubshares(g, log, effect.gossip, q, p, effect.casts, p');
    }
  }

  lemma DealHandlesWell(g: Setup, log: set<Gossip>, polys: Polys, q: Peer, p: Prover, random: map<KeyType, seq<int>>,
      effect: Effect, p': Prover)
    requires OwnIndices(g) && LogInv(g, log, polys) && ProverLive(g, log, polys, q, p) && Late(g, log, polys, q, p) && InitCompleted(q) in log
    requires Sized(g) && p.mailbox != [] && p.mailbox[0].RunRound1? && EngineOk(p.engine.value)
    requires random.Keys == p.engine.value.nodes.Keys && forall k :: k in random ==> |random[k]| == g.attempt.threshold
    requires effect == HandleRound1(g.curve, p.engine, g.attempt.threshold, q in g.attempt.quorum, random)
    requires p' == p.(engine := effect.state, mailbox := p.mailbox[1..] + effect.casts)
    ensures var polys' := AfterDeal(g, polys, p.engine.value, random);
            && HandlesWell(g, log, With(log, effect.gossip), polys, polys', q, p, effect.casts, p')
            && (forall d :: d in polys' && d !in polys ==> exists deals :: Round1Out(d, deals) in effect.gossip)
            && forall m :: m in effect.gossip ==> !m.InitCompleted?
  {
    hide OwnIndices;
    hide StartLive;
    hide InputsLive;
    hide PubsharesLive;
    hide Round3Live;
    hide NodesInv;
    hide InputsOk;
    hide PubsharesOk;
    hide IsPrepared;
    hide Pops;
    hide With;
    hide Registered;
    hide Round1Ready;
    hide InputsComplete;
    hide DealsOf;
    hide DealerPolys;
    hide EngineOk;
    hide HandleRound1;
    hide LogInv;
    hide Late;
    hide SamePubs;
    LateConfigured(g, log, polys, q, p);
    var e, polys' := p.engine.value, AfterDeal(g, polys, p.engine.value, random);
    DealsOnce(g, log, polys, q, p);
    LateReported(g, log, polys, q, p);
    DealEffect(g, polys, q, e, random);
    var out := Round1Out(e.idx, DealsOf(g.curve, polys'[e.idx], NewMembers(g)));
    assert out in effect.gossip;
    PopsWith(log, p, effect, p');
    if q in g.attempt.quorum {
      OwnDealGains(g, log, polys, q, p, random, p');
      if InputsComplete(g, p'.engine.value.nodes) {
        InputsReportedWhenComplete(g, p'.engine.value);
      }
      GainedInputs(g, log, effect.gossip, q, p, p', e.idx);
      UntouchedPubshares(g, log, effect.gossip, q, p, effect.casts, p');
    }
  }

  /** The dealer that is a new member registers its own output. */
  lemma OwnDealGains(g: Setup, log: set<Gossip>, polys: Polys, q: Peer, p: Prover, random: map<KeyType, seq<int>>, p': Prover)
    requires OwnIndices(g) && LogInv(g, log, polys) && Late(g, log, polys, q, p) && p.mailbox != [] && p.mailbox[0].RunRound1?
    requires EngineOk(p.engine.value) && q in g.attempt.quorum
    requires random.Keys == p.engine.value.nodes.Keys && forall k :: k in random ==> |random[k]| == g.attempt.threshold
    requires g.attempt.threshold >= 1 && p'.engine == Some(Dealer(g, AfterDeal(g, polys, p.engine.value, random), q, p.engine.value))
    ensures GainsDealer(p.engine.value.nodes, p'.engine.value.nodes, p.engine.value.idx)
  {
    hide OwnIndices;
    hide NodesInv;
    hide Registered;
    hide DealsOf;
    hide DealerPolys;
    hide EngineOk;
    hide MessageInv;
    hide GainsDealer;
    hide AfterDeal;
    hide PolysOk;
    hide OneMoreDealer;
    var e, polys' := p.engine.value, AfterDeal(g, polys, p.engine.value, random);
    DealsOnce(g, log, polys, q, p);
    OwnIndex(g, q);
    LateConfigured(g, log, polys, q, p);
    DealIsOk(g, log, polys, q, e, random);
    NodesAfterDeal(g, log, polys, polys', e.idx, q, e.nodes);
    DealtBy(polys, polys', e.idx);
    RegisteredNodes(g, log, polys', q, e.nodes, e.idx);
  }

  lemma DealtBy(polys: Polys, polys': Polys, d: nat)
    requires OneMoreDealer(polys, polys', d)
    ensures d in polys'
  {
  }

  // Round 2.

  lemma PubsharesReportedWhenComplete(g: Setup, e: Engine)
    requires PubsharesComplete(g, e.nodes) && e.newProvers == g.attempt.quorum && OwnIndices(g)
    ensures Round2Ready(e)
  {
    hide OwnIndices;
    Sizes(g);
    forall k | k in e.nodes
      ensures |e.nodes[k].otherPubshares| == |e.newProvers|
    {
      assert |e.nodes[k].otherPubshares| == |e.nodes[k].otherPubshares.Keys|;
    }
  }

  /** The public shares gain those of member i. */
  ghost predicate GainsPubshares(p: Prover, p': Prover, i: nat) {
    && p.engine.Some? && p'.engine.Some? && p'.engine.value.nodes.Keys == p.engine.value.nodes.Keys
    && forall k :: k in p.engine.value.nodes ==>
         p'.engine.value.nodes[k].otherPubshares.Keys == p.engine.value.nodes[k].otherPubshares.Keys + {i}
  }

  lemma GainsPubshare(p: Prover, p': Prover, i: nat)
    requires GainsPubshares(p, p', i)
    ensures HasPubshare(p', i) && (forall x :: HasPubshare(p, x) ==> HasPubshare(p', x))
    ensures forall x :: HasPubshare(p', x) && x != i ==> HasPubshare(p, x)
  {
    var nodes, nodes' := p.engine.value.nodes, p'.engine.value.nodes;
    forall x | HasPubshare(p, x)
      ensures HasPubshare(p', x)
    {
      forall k | k in nodes'
        ensures x in nodes'[k].otherPubshares
      {
        assert x in nodes[k].otherPubshares;
      }
    }
    forall x | HasPubshare(p', x) && x != i
      ensures HasPubshare(p, x)
    {
      forall k | k in nodes
        ensures x in nodes[k].otherPubshares
      {
        assert x in nodes'[k].otherPubshares;
      }
    }
  }

  lemma GainedPubshares(g: Setup, log: set<Gossip>, ms: seq<Gossip>, q: Peer, p: Prover, casts: seq<Command>, p': Prover, i: nat)
    requires PubsharesLive(g, log, q, p) && InitCompleted(q) in log && GainsPubshares(p, p', i) && p.mailbox != []
    requires (p.mailbox[0] == RunRound2 && i == Idx(g, q) && exists shares :: Round2Out(i, shares) in ms)
             || (p.mailbox[0].StorePubshares? && p.mailbox[0].idx == i && i != Idx(g, q))
    requires forall m :: m in ms && m.Round2Out? ==> m.idx == Idx(g, q)
    requires PubsharesComplete(g, p'.engine.value.nodes) ==> Round2Completed(q) in ms
    ensures PubsharesOk(g, log, With(log, ms), q, p, casts, p')
  {
    hide PubsharesComplete;
    hide Idx;
    GainsPubshare(p, p', i);
    hide HasPubshare;
    hide GainsPubshares;
    if i == Idx(g, q) {
      var shares :| Round2Out(i, shares) in ms;
      assert Round2Out(Idx(g, q), shares) in With(log, ms);
    } else if HasPubshare(p', Idx(g, q)) {
      var shares :| Round2Out(Idx(g, q), shares) in log;
      assert Round2Out(Idx(g, q), shares) in With(log, ms);
    }
  }

  /** What round 2 changes. */
  lemma Round2Changes(g: Setup, log: set<Gossip>, polys: Polys, q: Peer, p: Prover, effect: Effect, p': Prover)
    requires OwnIndices(g) && LogInv(g, log, polys) && Late(g, log, polys, q, p) && Sized(g) && SetupOk(g)
    requires p.mailbox != [] && p.mailbox[0] == RunRound2 && effect == HandleRound2(g.curve, p.engine)
    requires p' == p.(engine := effect.state, mailbox := p.mailbox[1..] + effect.casts)
    ensures q in g.attempt.quorum && p'.engine.Some? && GainsPubshares(p, p', Idx(g, q)) && SameInputs(p, p') && effect.casts == []
    ensures Configured(g, q, p'.engine.value)
    ensures effect.gossip == [Round2Out(Idx(g, q), NewShares(g, polys, Idx(g, q)))]
                             + (if Round2Ready(p'.engine.value) then [Round2Completed(q)] else [])
  {
    hide SetupOk;
    hide OwnIndices;
    hide NodeTakes;
    hide NewShares;
    hide NewShare;
    hide Idx;
    hide Round2Passes;
    hide AfterRound2;
    hide Round2Pubshares;
    hide Round2Ready;
    hide InputsComplete;
    hide PolysOk;
    hide MessageInv;
    hide Rounds1;
    hide AllTypes;
    hide InputsInv;
    hide SharesInv;
    assert CommandInv(g, log, q, p.mailbox[0]);
    CompleteAtRound2(g, log, polys, q, p);
    var e := p.engine.value;
    Round2Nodes(g, log, polys, q, e);
    Round2Results(g, polys, q, e);
  }

  lemma Round2HandlesWell(g: Setup, log: set<Gossip>, polys: Polys, q: Peer, p: Prover, effect: Effect, p': Prover)
    requires OwnIndices(g) && LogInv(g, log, polys) && ProverLive(g, log, polys, q, p) && Late(g, log, polys, q, p) && InitCompleted(q) in log
    requires Sized(g) && p.mailbox != [] && p.mailbox[0] == RunRound2 && effect == HandleRound2(g.curve, p.engine)
    requires p' == p.(engine := effect.state, mailbox := p.mailbox[1..] + effect.casts) && SetupOk(g)
    ensures HandlesWell(g, log, With(log, effect.gossip), polys, polys, q, p, effect.casts, p')
    ensures forall m :: m in effect.gossip ==> !m.InitCompleted?
  {
    hide SetupOk;
    hide OwnIndices;
    hide StartLive;
    hide InputsLive;
    hide PubsharesLive;
    hide Round3Live;
    hide InputsOk;
    hide PubsharesOk;
    hide IsPrepared;
    hide Pops;
    hide With;
    hide LogInv;
    hide Late;
    hide HandleRound2;
    hide NewShares;
    hide Round2Ready;
    hide SameInputs;
    hide GainsPubshares;
    hide PubsharesComplete;
    LateReported(g, log, polys, q, p);
    Round2Changes(g, log, polys, q, p, effect, p');
    PopsWith(log, p, effect, p');
    if PubsharesComplete(g, p'.engine.value.nodes) {
      PubsharesReportedWhenComplete(g, p'.engine.value);
    }
    assert Round2Out(Idx(g, q), NewShares(g, polys, Idx(g, q))) in effect.gossip;
    UntouchedInputs(g, log, effect.gossip, q, p, p');
    GainedPubshares(g, log, effect.gossip, q, p, effect.casts, p', Idx(g, q));
  }

  lemma PubsharesHandlesWell(g: Setup, log: set<Gossip>, polys: Polys, q: Peer, p: Prover, i: nat,
      pubshares: map<KeyType, int>, effect: Effect, p': Prover)
    requires OwnIndices(g) && LogInv(g, log, polys) && ProverLive(g, log, polys, q, p) && Late(g, log, polys, q, p) && InitCompleted(q) in log
    requires p.mailbox != [] && p.mailbox[0] == StorePubshares(i, pubshares) && effect == HandlePubshares(p.engine, i, pubshares)
    requires p' == p.(engine := effect.state, mailbox := p.mailbox[1..] + effect.casts)
    ensures HandlesWell(g, log, With(log, effect.gossip), polys, polys, q, p, effect.casts, p')
  {
    hide OwnIndices;
    hide StartLive;
    hide InputsLive;
    hide PubsharesLive;
    hide Round3Live;
    hide NodesInv;
    hide InputsOk;
    hide PubsharesOk;
    hide IsPrepared;
    hide Pops;
    hide With;
    hide WithPubshares;
    hide Round2Ready;
    hide PubsharesComplete;
    hide Idx;
    hide PolysOk;
    hide SameInputs;
    hide GainsPubshares;
    hide NewShares;
    hide Late;
    hide LogInv;
    PubsharesMessage(g, log, polys, q, p, i, pubshares);
    LateReported(g, log, polys, q, p);
    LateConfigured(g, log, polys, q, p);
    PopsWith(log, p, effect, p');
    if q in g.attempt.quorum {
      if i == Idx(g, q) {
        OwnPubshares(g, log, q, p, effect.casts, p');
        UntouchedStore(g, log, q, p, p');
      } else {
        StoreOthers(g, log, polys, q, p, i, effect, p');
      }
    }
  }

  lemma PubsharesMessage(g: Setup, log: set<Gossip>, polys: Polys, q: Peer, p: Prover, i: nat, pubshares: map<KeyType, int>)
    requires LogInv(g, log, polys) && Late(g, log, polys, q, p)
    requires p.mailbox != [] && p.mailbox[0] == StorePubshares(i, pubshares)
    ensures i in NewMembers(g) && pubshares == NewShares(g, polys, i)
  {
    hide NodesInv;
    hide Configured;
    hide NewShares;
    hide NewMembers;
    hide PubsharesComplete;
    hide InputsComplete;
    assert CommandInv(g, log, q, p.mailbox[0]);
    assert MessageInv(g, log, polys, Round2Out(i, pubshares));
  }

  lemma StoreOthers(g: Setup, log: set<Gossip>, polys: Polys, q: Peer, p: Prover, i: nat, effect: Effect, p': Prover)
    requires OwnIndices(g) && InputsLive(g, log, q, p) && PubsharesLive(g, log, q, p) && Late(g, log, polys, q, p) && InitCompleted(q) in log
    requires p.mailbox != [] && p.mailbox[0] == StorePubshares(i, NewShares(g, polys, i)) && i != Idx(g, q) && i in NewMembers(g)
    requires q in g.attempt.quorum && effect == HandlePubshares(p.engine, i, NewShares(g, polys, i))
    requires p' == p.(engine := effect.state, mailbox := p.mailbox[1..] + effect.casts)
    ensures InputsOk(g, log, With(log, effect.gossip), q, p, p')
    ensures PubsharesOk(g, log, With(log, effect.gossip), q, p, effect.casts, p')
  {
    hide OwnIndices;
    hide InputsLive;
    hide PubsharesLive;
    hide InputsOk;
    hide PubsharesOk;
    hide With;
    hide WithPubshares;
    hide Round2Ready;
    hide PubsharesComplete;
    hide Idx;
    hide SameInputs;
    hide GainsPubshares;
    hide NewShares;
    hide NodesInv;
    LateConfigured(g, log, polys, q, p);
    LateNodes(g, log, polys, q, p);
    hide Late;
    StoredGains(g, polys, q, p, i, p');
    if PubsharesComplete(g, p'.engine.value.nodes) {
      PubsharesReportedWhenComplete(g, p'.engine.value);
    }
    UntouchedInputs(g, log, effect.gossip, q, p, p');
    GainedPubshares(g, log, effect.gossip, q, p, effect.casts, p', i);
  }

  lemma UntouchedStore(g: Setup, log: set<Gossip>, q: Peer, p: Prover, p': Prover)
    requires InputsLive(g, log, q, p) && InitCompleted(q) in log && p'.engine == p.engine && p.engine.Some?
    requires p.mailbox != [] && p.mailbox[0].StorePubshares?
    ensures InputsOk(g, log, With(log, []), q, p, p')
  {
    UntouchedInputs(g, log, [], q, p, p');
  }

  lemma OwnPubshares(g: Setup, log: set<Gossip>, q: Peer, p: Prover, casts: seq<Command>, p': Prover)
    requires PubsharesLive(g, log, q, p) && InitCompleted(q) in log && p'.engine == p.engine
    requires p.mailbox != [] && p.mailbox[0].StorePubshares? && p.mailbox[0].idx == Idx(g, q)
    ensures PubsharesOk(g, log, With(log, []), q, p, casts, p')
  {
    hide PubsharesComplete;
    hide Idx;
    SamePubshares(p, p');
    hide HasPubshare;
    if HasPubshare(p', Idx(g, q)) {
      var shares :| Round2Out(Idx(g, q), shares) in log;
      assert Round2Out(Idx(g, q), shares) in With(log, []);
    }
  }

  lemma StoredGains(g: Setup, polys: Polys, q: Peer, p: Prover, i: nat, p': Prover)
    requires p.engine.Some? && p.engine.value.nodes.Keys == AllTypes()
    requires p'.engine.Some? && p'.engine.value.nodes == WithPubshares(p.engine.value.nodes, i, NewShares(g, polys, i))
    ensures GainsPubshares(p, p', i) && SameInputs(p, p')
  {
    hide AllTypes;
    hide NewShare;
  }

  // Round 3.

  lemma LateNodes(g: Setup, log: set<Gossip>, polys: Polys, q: Peer, p: Prover)
    requires Late(g, log, polys, q, p)
    ensures p.engine.Some? && p.engine.value.nodes.Keys == AllTypes()
  {
    hide AllTypes;
    hide Configured;
    hide CommandInv;
  }

  lemma Round3Changes(g: Setup, log: set<Gossip>, polys: Polys, q: Peer, p: Prover)
    requires IndexSet(NewMembers(g)) && OwnIndices(g) && forall k :: k in AllTypes() ==> KeyMatches(g, k)
    requires LogInv(g, log, polys) && Late(g, log, polys, q, p) && Sized(g)
    requires p.mailbox != [] && p.mailbox[0] == RunRound3 && EngineOk(p.engine.value)
    ensures HandleRound3(g.curve, p.engine) == Effect(p.engine, [Prepared(Idx(g, q), q, PublicShares(p.engine.value.nodes))], [], false)
  {
    hide KeyMatches;
    hide OwnIndices;
    hide NodesInv;
    hide PolysOk;
    hide PubsharesComplete;
    hide InputsComplete;
    hide AllTypes;
    hide Idx;
    hide Round3Passes;
    hide PublicShares;
    hide IndexSet;
    hide MessageInv;
    hide Rounds1;
    hide Dealers;
    assert CommandInv(g, log, q, p.mailbox[0]);
    CompleteAtRound3(g, log, polys, q, p);
    PolysAreDealers(g, log, polys);
    Round3Nodes(g, log, polys, q, p.engine.value);
  }

  lemma Round3HandlesWell(g: Setup, log: set<Gossip>, polys: Polys, q: Peer, p: Prover, effect: Effect, p': Prover)
    requires OwnIndices(g) && LogInv(g, log, polys) && ProverLive(g, log, polys, q, p) && Late(g, log, polys, q, p) && InitCompleted(q) in log
    requires Sized(g) && p.mailbox != [] && p.mailbox[0] == RunRound3 && EngineOk(p.engine.value) && effect == HandleRound3(g.curve, p.engine)
    requires p' == p.(engine := effect.state, mailbox := p.mailbox[1..] + effect.casts)
    requires IndexSet(NewMembers(g)) && forall k :: k in AllTypes() ==> KeyMatches(g, k)
    ensures HandlesWell(g, log, With(log, effect.gossip), polys, polys, q, p, effect.casts, p')
    ensures forall m :: m in effect.gossip ==> !m.InitCompleted?
  {
    hide KeyMatches;
    hide OwnIndices;
    hide StartLive;
    hide InputsLive;
    hide PubsharesLive;
    hide Round3Live;
    hide InputsOk;
    hide PubsharesOk;
    hide IsPrepared;
    hide Pops;
    hide With;
    hide LogInv;
    hide Late;
    hide AllTypes;
    hide EngineOk;
    hide HandleRound3;
    hide PublicShares;
    hide IndexSet;
    LateReported(g, log, polys, q, p);
    LateNodes(g, log, polys, q, p);
    Round3Changes(g, log, polys, q, p);
    PopsWith(log, p, effect, p');
    if q in g.attempt.quorum {
      UntouchedInputs(g, log, effect.gossip, q, p, p');
      UntouchedPubshares(g, log, effect.gossip, q, p, effect.casts, p');
      PreparedNow(g, log, q, effect.gossip, PublicShares(p.engine.value.nodes));
    }
  }

  lemma PreparedNow(g: Setup, log: set<Gossip>, q: Peer, ms: seq<Gossip>, shares: map<KeyType, int>)
    requires Prepared(Idx(g, q), q, shares) in ms
    ensures IsPrepared(g, With(log, ms), q)
  {
    assert Prepared(Idx(g, q), q, shares) in With(log, ms);
  }

  // ---------- the engine's steps ----------

  lemma DealtEarlier(g: Setup, log: set<Gossip>, polys: Polys, polys': Polys, q: Peer, p: Prover)
    requires ProverLive(g, log, polys, q, p) && polys.Keys <= polys'.Keys
    ensures ProverLive(g, log, polys', q, p)
  {
    hide InputsLive;
    hide PubsharesLive;
    hide Round3Live;
  }

  lemma AppliedOthers(g: Setup, s: State, q: Peer, effect: Effect, polys': Polys)
    requires Live(g, s) && q in s.provers && s.provers[q].mailbox != [] && s.polys.Keys <= polys'.Keys
    ensures OthersLive(g, Applied(s, q, effect, polys'), Some(q)) && RelayLive(g, Applied(s, q, effect, polys'))
  {
    hide ProverLive;
    hide DealsLive;
    hide RelayLive;
    hide Participants;
    var s' := Applied(s, q, effect, polys');
    SameRelay(g, s, s');
    forall r | r in Participants(g) && r != q
      ensures ProverLive(g, s'.log, s'.polys, r, s'.provers[r])
    {
      DealtEarlier(g, s.log, s.polys, polys', r, s.provers[r]);
    }
  }

  lemma EngineFinish(g: Setup, s: State, q: Peer, effect: Effect, polys': Polys)
    requires Live(g, s) && q in s.provers && s.provers[q].mailbox != [] && s.polys.Keys <= polys'.Keys
    requires forall m :: m in effect.gossip && m.InitCompleted? ==> m.peer == q
    requires forall d :: d in polys' && d !in s.polys ==> exists deals :: Round1Out(d, deals) in effect.gossip
    requires ProverLive(g, With(s.log, effect.gossip), polys', q, Applied(s, q, effect, polys').provers[q])
    ensures Live(g, PublishAll(Applied(s, q, effect, polys'), Some(q), effect.gossip))
  {
    hide ProverLive;
    hide RelayLive;
    hide Participants;
    hide PublishAll;
    AppliedOthers(g, s, q, effect, polys');
    var s' := Applied(s, q, effect, polys');
    PublishAllKeeps(g, s', Some(q), effect.gossip);
    var log' := With(s.log, effect.gossip);
    forall d | d in polys' && d !in s.polys
      ensures exists deals :: Round1Out(d, deals) in log'
    {
      var deals :| Round1Out(d, deals) in effect.gossip;
      assert Round1Out(d, deals) in log';
    }
    DealsGrow(s.log, log', s.polys, polys');
  }

  lemma EarlyIsLive(g: Setup, log: set<Gossip>, polys: Polys, q: Peer, p: Prover)
    requires LogInv(g, log, polys) && InitCompleted(q) !in log && q in Participants(g)
    requires ReElectedProvers in p.pending || ReElectionReport(q) in log
    requires StartResharingInit in log ==> StartResharingInit in p.pending || InitCommand(g, q) in p.mailbox
    ensures ProverLive(g, log, polys, q, p)
  {
    hide PolysOk;
    hide HasInput;
    hide HasPubshare;
    hide InputsComplete;
    hide PubsharesComplete;
    hide IsPrepared;
    hide NewShares;
    hide DealsOf;
    if StartResharingRound1 in log {
      AllInitialised(g, log, polys, q);
    }
    NothingDealt(g, log, polys);
    hide LogInv;
  }

  /** Before round 1 starts, no output and no signal of a later round is out. */
  lemma NothingDealt(g: Setup, log: set<Gossip>, polys: Polys)
    requires LogInv(g, log, polys) && StartResharingRound1 !in log
    ensures polys == map[] && StartResharingRound2 !in log && StartResharingRound3 !in log
    ensures forall d, deals :: Round1Out(d, deals) !in log
    ensures forall i, shares :: Round2Out(i, shares) !in log
  {
    hide PolysOk;
    hide NewShares;
    hide DealsOf;
    forall d, deals
      ensures Round1Out(d, deals) !in log
    {
      assert Round1Out(d, deals) in log ==> MessageInv(g, log, polys, Round1Out(d, deals));
    }
    forall i, shares
      ensures Round2Out(i, shares) !in log
    {
      assert Round2Out(i, shares) in log ==> MessageInv(g, log, polys, Round2Out(i, shares));
    }
  }

  lemma NothingReceived(g: Setup, log: set<Gossip>, polys: Polys, q: Peer, p: Prover)
    requires Late(g, log, polys, q, p) && polys == map[] && StartResharingRound2 !in log && OwnIndices(g) && Sized(g)
    ensures Empty(g, q, p)
  {
    hide OwnIndices;
    hide CommandInv;
    hide Configured;
    hide Rounds1;
    hide NewShare;
    hide OldShare;
    hide Dealers;
    hide NewMembers;
    hide Idx;
    Sizes(g);
    var nd := p.engine.value.nodes[OPRFSecp256k1];
    assert InputsInv(g, polys, q, OPRFSecp256k1, nd) && SharesInv(g, log, polys, q, OPRFSecp256k1, nd);
    assert nd.inputY.Keys == {} && nd.otherPubshares.Keys == {};
  }

  lemma FreshIsLive(g: Setup, log: set<Gossip>, polys: Polys, q: Peer, p: Prover)
    requires LogInv(g, log, polys) && Late(g, log, polys, q, p) && InitCompleted(q) in log && StartResharingRound1 !in log
    requires OwnIndices(g) && Sized(g)
    ensures ProverLive(g, log, polys, q, p)
  {
    hide OwnIndices;
    hide HasInput;
    hide InputsComplete;
    hide PubsharesComplete;
    hide HasPubshare;
    hide IsPrepared;
    hide Sized;
    LateReported(g, log, polys, q, p);
    LateNodes(g, log, polys, q, p);
    NothingDealt(g, log, polys);
    NothingReceived(g, log, polys, q, p);
    hide LogInv;
    hide Late;
  }

  lemma ClearLive(g: Setup, log: set<Gossip>, polys: Polys, q: Peer, p: Prover)
    requires LogInv(g, log, polys) && ProverInv(g, log, polys, q, p) && ProverLive(g, log, polys, q, p) && q in Participants(g)
    requires InitCompleted(q) !in log && p.mailbox != [] && p.mailbox[0] == ClearShares
    ensures var effect := HandleClearShares(p.engine);
            ProverLive(g, log, polys, q, p.(engine := effect.state, mailbox := p.mailbox[1..] + effect.casts))
  {
    hide LogInv;
    hide Late;
    hide EngineBefore;
    hide InputsLive;
    hide PubsharesLive;
    hide Round3Live;
    var effect := HandleClearShares(p.engine);
    var p' := p.(engine := effect.state, mailbox := p.mailbox[1..] + effect.casts);
    assert p.mailbox == [p.mailbox[0]] + p.mailbox[1..];
    EarlyIsLive(g, log, polys, q, p');
  }

  lemma InitLive(g: Setup, log: set<Gossip>, polys: Polys, q: Peer, p: Prover, drawn: KeyType -> int, effect: Effect, p': Prover)
    requires LogInv(g, log, polys) && ProverInv(g, log, polys, q, p) && q in Participants(g)
    requires OwnIndices(g) && Sized(g) && AllTypes() <= g.attempt.groupKeys.Keys
    requires InitCompleted(q) !in log && p.mailbox != [] && p.mailbox[0].ResharingInit?
    requires effect == HandleInit(p.engine, Idx(g, q), q, g.attempt, p.stored, drawn)
    requires p' == p.(engine := effect.state, mailbox := p.mailbox[1..] + effect.casts)
    ensures effect.gossip == [InitCompleted(q)] && ProverLive(g, With(log, effect.gossip), polys, q, p')
  {
    hide OwnIndices;
    hide LogInv;
    hide Late;
    hide HandleInit;
    hide AllTypes;
    hide ProverLive;
    InitProver(g, log, polys, q, p, drawn);
    StateOfInit(g, log, polys, q, p);
    var m := InitCompleted(q);
    assert With(log, effect.gossip) == log + {m};
    InitLog(g, log, polys, q);
    LateAfterInit(g, log, polys, q, p');
    FreshIsLive(g, log + {m}, polys, q, p');
  }

  lemma InitLog(g: Setup, log: set<Gossip>, polys: Polys, q: Peer)
    requires LogInv(g, log, polys) && StartResharingInit in log && q in Participants(g)
    ensures LogInv(g, log + {InitCompleted(q)}, polys)
  {
    hide LogInv;
    LogPublish(g, log, polys, InitCompleted(q));
  }

  lemma LateAfterInit(g: Setup, log: set<Gossip>, polys: Polys, q: Peer, p: Prover)
    requires Late(g, log, polys, q, p)
    ensures Late(g, log + {InitCompleted(q)}, polys, q, p)
  {
    hide Late;
    LateEngine(g, log, polys, q, p);
    LateGrows(g, log, polys, q, p, InitCompleted(q));
  }

  /** A message other than the one that deals. */
  lemma QuietLive(g: Setup, s: State, q: Peer, drawn: KeyType -> int, random: map<KeyType, seq<int>>, effect: Effect)
    requires Live(g, s) && q in s.provers && CanHandle(s.provers[q], random) && !s.provers[q].mailbox[0].RunRound1?
    requires effect == Handle(g.curve, s.provers[q].engine, s.provers[q].mailbox[0], s.provers[q].stored, drawn, random)
    requires forall m :: m in effect.gossip && m.InitCompleted? ==> m.peer == q
    requires ProverLive(g, With(s.log, effect.gossip), s.polys, q, Applied(s, q, effect, s.polys).provers[q])
    ensures Live(g, EngineStep(g, s, q, drawn, random))
  {
    hide Live;
    hide ProverLive;
    hide Handle;
    hide EngineStep;
    hide CanHandle;
    hide Applied;
    Handles(s.provers[q], random);
    NotDealing(g, s, q, drawn, random);
    EngineFinish(g, s, q, effect, s.polys);
  }

  /** The two messages before the initialisation. */
  lemma EarlyProverLive(g: Setup, log: set<Gossip>, polys: Polys, q: Peer, p: Prover, drawn: KeyType -> int,
      random: map<KeyType, seq<int>>, effect: Effect, p': Prover)
    requires LogInv(g, log, polys) && ProverInv(g, log, polys, q, p) && ProverLive(g, log, polys, q, p) && q in Participants(g)
    requires OwnIndices(g) && Sized(g) && AllTypes() <= g.attempt.groupKeys.Keys && InitCompleted(q) !in log
    requires CanHandle(p, random) && (p.mailbox[0].ClearShares? || p.mailbox[0].ResharingInit?) && effect == HandleOf(g, p, drawn, random)
    requires p' == p.(engine := effect.state, mailbox := p.mailbox[1..] + effect.casts)
    ensures ProverLive(g, With(log, effect.gossip), polys, q, p')
    ensures forall m :: m in effect.gossip && m.InitCompleted? ==> m.peer == q
  {
    hide OwnIndices;
    hide LogInv;
    hide ProverInv;
    hide ProverLive;
    hide AllTypes;
    hide HandleInit;
    hide HandleClearShares;
    hide Idx;
    hide Participants;
    hide EngineOk;
    if p.mailbox[0].ClearShares? {
      assert effect == HandleClearShares(p.engine);
      ClearLive(g, log, polys, q, p);
      ClearIsQuiet(p.engine);
      assert With(log, effect.gossip) == log;
    } else {
      InitProver(g, log, polys, q, p, drawn);
      InitLive(g, log, polys, q, p, drawn, effect, p');
    }
  }

  lemma EarlyStepLive(g: Setup, s: State, q: Peer, drawn: KeyType -> int, random: map<KeyType, seq<int>>)
    requires Invariant(g, s) && Live(g, s) && OwnIndices(g) && Sized(g) && AllTypes() <= g.attempt.groupKeys.Keys
    requires q in s.provers && CanHandle(s.provers[q], random) && InitCompleted(q) !in s.log
    ensures Live(g, EngineStep(g, s, q, drawn, random))
  {
    hide OwnIndices;
    hide Invariant;
    hide Live;
    hide AllTypes;
    hide EngineStep;
    hide LogInv;
    hide ProverInv;
    hide ProverLive;
    hide Handle;
    hide With;
    hide CanHandle;
    Handles(s.provers[q], random);
    LiveFacts(g, s, q);
    InvariantFacts(g, s, q);
    EarlyMailbox(g, s, q);
    var effect := HandleOf(g, s.provers[q], drawn, random);
    EarlyProverLive(g, s.log, s.polys, q, s.provers[q], drawn, random, effect, Applied(s, q, effect, s.polys).provers[q]);
    QuietLive(g, s, q, drawn, random, effect);
  }

  lemma DealStepIs(g: Setup, s: State, q: Peer, drawn: KeyType -> int, random: map<KeyType, seq<int>>)
    requires Invariant(g, s) && OwnIndices(g) && Sized(g) && q in s.provers && CanHandle(s.provers[q], random) && InitCompleted(q) in s.log
    requires s.provers[q].mailbox[0].RunRound1?
    ensures var p := s.provers[q];
            && p.engine.Some? && EngineOk(p.engine.value) && g.attempt.threshold >= 1
            && random.Keys == p.engine.value.nodes.Keys && (forall k :: k in random ==> |random[k]| == g.attempt.threshold)
            && var effect := HandleRound1(g.curve, p.engine, g.attempt.threshold, q in g.attempt.quorum, random);
               EngineStep(g, s, q, drawn, random)
               == PublishAll(Applied(s, q, effect, AfterDeal(g, s.polys, p.engine.value, random)), Some(q), effect.gossip)
  {
    hide Invariant;
    hide Late;
    hide LogInv;
    hide ProverInv;
    hide OwnIndices;
    hide EngineOk;
    hide DealerPolys;
    hide DealsOf;
    hide HandleRound1;
    hide PublishAll;
    hide Dealer;
    hide NewMembers;
    hide Idx;
    hide NodesInv;
    LateFacts(g, s, q);
    var p, e := s.provers[q], s.provers[q].engine.value;
    DealsOnce(g, s.log, s.polys, q, p);
    LateConfigured(g, s.log, s.polys, q, p);
    DealEffect(g, s.polys, q, e, random);
  }

  lemma DealStepLive(g: Setup, s: State, q: Peer, drawn: KeyType -> int, random: map<KeyType, seq<int>>)
    requires Invariant(g, s) && Live(g, s) && OwnIndices(g) && Sized(g) && q in s.provers && CanHandle(s.provers[q], random) && InitCompleted(q) in s.log
    requires s.provers[q].mailbox[0].RunRound1?
    ensures Live(g, EngineStep(g, s, q, drawn, random))
  {
    LiveFacts(g, s, q);
    hide Invariant;
    hide Live;
    hide Late;
    hide LogInv;
    hide ProverInv;
    hide ProverLive;
    hide OwnIndices;
    hide EngineOk;
    hide HandleRound1;
    hide EngineStep;
    hide AfterDeal;
    hide CanHandle;
    LateFacts(g, s, q);
    DealStepIs(g, s, q, drawn, random);
    var p := s.provers[q];
    var effect := HandleRound1(g.curve, p.engine, g.attempt.threshold, q in g.attempt.quorum, random);
    var polys' := AfterDeal(g, s.polys, p.engine.value, random);
    var p' := Applied(s, q, effect, polys').provers[q];
    DealHandlesWell(g, s.log, s.polys, q, p, random, effect, p');
    assert s.polys.Keys <= polys'.Keys;
    HandledLive(g, s.log, With(s.log, effect.gossip), s.polys, polys', q, p, effect.casts, p');
    EngineFinish(g, s, q, effect, polys');
  }

  lemma LiveFacts(g: Setup, s: State, q: Peer)
    requires Live(g, s) && q in s.provers
    ensures ProverLive(g, s.log, s.polys, q, s.provers[q])
  {
    hide ProverLive;
    hide RelayLive;
    hide DealsLive;
  }

  /** What the remaining messages achieve. */
  lemma LateHandlesWell(g: Setup, log: set<Gossip>, polys: Polys, q: Peer, p: Prover, drawn: KeyType -> int,
      random: map<KeyType, seq<int>>, effect: Effect, p': Prover)
    requires OwnIndices(g) && LogInv(g, log, polys) && ProverLive(g, log, polys, q, p) && Late(g, log, polys, q, p) && InitCompleted(q) in log
    requires CanHandle(p, random) && Sized(g) && effect == HandleOf(g, p, drawn, random)
    requires p' == p.(engine := effect.state, mailbox := p.mailbox[1..] + effect.casts)
    requires !p.mailbox[0].RunRound1? && !p.mailbox[0].ClearShares? && !p.mailbox[0].ResharingInit?
    requires IndexSet(NewMembers(g)) && (forall k :: k in AllTypes() ==> KeyMatches(g, k)) && SetupOk(g)
    ensures HandlesWell(g, log, With(log, effect.gossip), polys, polys, q, p, effect.casts, p')
    ensures forall m :: m in effect.gossip ==> !m.InitCompleted?
  {
    hide SetupOk;
    hide KeyMatches;
    hide IndexSet;
    hide AllTypes;
    hide LogInv;
    hide ProverLive;
    hide OwnIndices;
    hide EngineOk;
    hide HandlesWell;
    hide With;
    hide HandleRound2;
    hide HandleRound3;
    LateEngine(g, log, polys, q, p);
    hide Late;
    match p.mailbox[0] {
      case StartRound1 => StartHandlesWell(g, log, polys, q, p, effect, p');
      case StartRound2 => StartHandlesWell(g, log, polys, q, p, effect, p');
      case StartRound3 => StartHandlesWell(g, log, polys, q, p, effect, p');
      case StoreRound1Out(d, deals) => StoreHandlesWell(g, log, polys, q, p, d, deals, effect, p');
      case RunRound2 => Round2HandlesWell(g, log, polys, q, p, effect, p');
      case StorePubshares(i, pubshares) => PubsharesHandlesWell(g, log, polys, q, p, i, pubshares, effect, p');
      case RunRound3 => Round3HandlesWell(g, log, polys, q, p, effect, p');
    }
  }

  lemma LateStepLive(g: Setup, s: State, q: Peer, drawn: KeyType -> int, random: map<KeyType, seq<int>>)
    requires Invariant(g, s) && Live(g, s) && OwnIndices(g) && Sized(g) && q in s.provers && CanHandle(s.provers[q], random) && InitCompleted(q) in s.log
    requires !s.provers[q].mailbox[0].RunRound1?
    requires IndexSet(NewMembers(g)) && (forall k :: k in AllTypes() ==> KeyMatches(g, k)) && SetupOk(g)
    ensures Live(g, EngineStep(g, s, q, drawn, random))
  {
    hide SetupOk;
    hide KeyMatches;
    hide IndexSet;
    hide AllTypes;
    hide OwnIndices;
    hide Invariant;
    hide Live;
    hide LogInv;
    hide Late;
    hide ProverInv;
    hide ProverLive;
    hide HandlesWell;
    hide Handle;
    hide With;
    hide EngineStep;
    hide CanHandle;
    var p := s.provers[q];
    Handles(p, random);
    LiveFacts(g, s, q);
    LateFacts(g, s, q);
    LateCommand(g, s, q);
    var effect := HandleOf(g, p, drawn, random);
    var p' := Applied(s, q, effect, s.polys).provers[q];
    LateHandlesWell(g, s.log, s.polys, q, p, drawn, random, effect, p');
    HandledLive(g, s.log, With(s.log, effect.gossip), s.polys, s.polys, q, p, effect.casts, p');
    QuietLive(g, s, q, drawn, random, effect);
  }

  // ---------- whole runs ----------

  lemma StartIsLive(g: Setup, s: State)
    requires Start(g, s) && OwnIndices(g) && Sized(g)
    ensures Live(g, s)
  {
    hide EngineBefore;
    hide OwnIndices;
    hide Sized;
    hide ProverLive;
    StartLog(g, s);
    hide LogInv;
    SomeoneRequired(g);
    StartRelayLive(g, s);
    hide RelayLive;
    forall q | q in Participants(g)
      ensures ProverLive(g, s.log, s.polys, q, s.provers[q])
    {
      assert ReElectedProvers in s.provers[q].pending;
      EarlyIsLive(g, s.log, s.polys, q, s.provers[q]);
    }
  }

  lemma SomeoneRequired(g: Setup)
    requires Sized(g)
    ensures forall stage :: RequiredOf(g, stage) != {}
  {
    assert |g.attempt.quorum| == |g.attempt.quorum.Keys|;
    var q :| q in g.attempt.quorum.Keys;
    assert q in Participants(g);
  }

  lemma StartRelayLive(g: Setup, s: State)
    requires Start(g, s) && forall stage :: RequiredOf(g, stage) != {}
    ensures RelayLive(g, s)
  {
    hide EngineBefore;
    hide RequiredOf;
    hide Members;
    hide NoDuplicates;
    hide Participants;
  }

  predicate Lossless(step: Step) {
    !step.Lost? && !step.ReportLost?
  }

  ghost predicate AllLossless(steps: seq<Step>) {
    forall j :: 0 <= j < |steps| ==> Lossless(steps[j])
  }

  lemma EngineStepLive(g: Setup, s: State, q: Peer, drawn: KeyType -> int, random: map<KeyType, seq<int>>)
    requires Invariant(g, s) && Live(g, s) && Sized(g) && q in s.provers && CanHandle(s.provers[q], random) && SetupOk(g)
    ensures Live(g, EngineStep(g, s, q, drawn, random))
  {
    hide Invariant;
    hide Live;
    hide EngineStep;
    hide CanHandle;
    assert OwnIndices(g) && AllTypes() <= g.attempt.groupKeys.Keys && IndexSet(NewMembers(g)) && forall k :: k in AllTypes() ==> KeyMatches(g, k);
    hide SetupOk;
    hide OwnIndices;
    hide KeyMatches;
    hide IndexSet;
    hide AllTypes;
    Handles(s.provers[q], random);
    if InitCompleted(q) !in s.log {
      EarlyStepLive(g, s, q, drawn, random);
    } else if s.provers[q].mailbox[0].RunRound1? {
      DealStepLive(g, s, q, drawn, random);
    } else {
      LateStepLive(g, s, q, drawn, random);
    }
  }

  lemma NextLive(g: Setup, s: State, step: Step)
    requires Invariant(g, s) && Live(g, s) && Sized(g) && Enabled(g, s, step) && Lossless(step) && SetupOk(g)
    ensures Live(g, Next(g, s, step))
  {
    hide SetupOk;
    hide Invariant;
    hide Live;
    hide RelayStep;
    hide AnnouncedStep;
    hide StartInitStep;
    hide DeliverStep;
    hide EngineStep;
    hide CanHandle;
    hide ForRelay;
    hide ForEngine;
    match step
    case RelayHandles(m) => RelayStepLive(g, s, m);
    case Announced(q) => AnnouncedLive(g, s, q);
    case InitStarted(q) => StartInitLive(g, s, q);
    case Delivered(q, m) => DeliverLive(g, s, q, m);
    case EngineHandles(q, drawn, random) => EngineStepLive(g, s, q, drawn, random);
  }

  lemma SetupIndices(g: Setup)
    requires SetupOk(g)
    ensures OwnIndices(g)
  {
  }

  /** One step of a run. */
  lemma RunStep(g: Setup, states: seq<State>, steps: seq<Step>, i: nat)
    requires IsRun(g, states, steps) && AllLossless(steps) && i < |steps|
    ensures Enabled(g, states[i], steps[i]) && states[i + 1] == Next(g, states[i], steps[i]) && Lossless(steps[i])
  {
    hide Next;
    hide Enabled;
    hide Lossless;
    hide Start;
    assert Steps(g, states, steps, i);
  }

  lemma {:induction false} RunLive(g: Setup, states: seq<State>, steps: seq<Step>, i: nat)
    requires Sized(g) && IsRun(g, states, steps) && AllLossless(steps) && i < |states| && SetupOk(g)
    ensures Live(g, states[i])
  {
    hide SetupOk;
    hide OwnIndices;
    hide Invariant;
    hide Live;
    hide Start;
    hide Next;
    hide Enabled;
    hide Lossless;
    hide AllLossless;
    hide Sized;
    if i == 0 {
      SetupIndices(g);
      StartIsLive(g, states[0]);
    } else {
      RunLive(g, states, steps, i - 1);
      RunInv(g, states, steps, i - 1);
      RunStep(g, states, steps, i - 1);
      NextLive(g, states[i - 1], steps[i - 1]);
    }
  }

  /** A run that loses no message does not get stuck before the end: when nothing is
      left to deliver or to handle, every member of the new quorum has gone through
      round 3 and has announced its new shares. */
  lemma Completes(g: Setup, states: seq<State>, steps: seq<Step>, i: nat, q: Peer)
    requires Sized(g) && IsRun(g, states, steps) && AllLossless(steps) && i < |states| && SetupOk(g)
    requires Quiescent(states[i]) && q in g.attempt.quorum
    ensures StartResharingRound3 in states[i].log
    ensures Prepared(g.attempt.quorum[q], q, NewShares(g, states[i].polys, g.attempt.quorum[q])) in states[i].log
  {
    hide SetupOk;
    hide OwnIndices;
    SetupIndices(g);
    hide IsRun;
    hide Lossless;
    hide Sized;
    hide Quiescent;
    hide Live;
    hide Invariant;
    RunInv(g, states, steps, i);
    RunLive(g, states, steps, i);
    QuiescentIsDone(g, states[i], q);
    var shares :| Prepared(Idx(g, q), q, shares) in states[i].log;
    LogHolds(g, states[i]);
    PreparedShares(g, states[i].log, states[i].polys, q, shares);
  }

  lemma PreparedShares(g: Setup, log: set<Gossip>, polys: Polys, q: Peer, shares: map<KeyType, int>)
    requires LogInv(g, log, polys) && Prepared(Idx(g, q), q, shares) in log
    ensures q in g.attempt.quorum && Idx(g, q) == g.attempt.quorum[q] && shares == NewShares(g, polys, g.attempt.quorum[q])
  {
    hide PolysOk;
    hide NewShares;
    assert MessageInv(g, log, polys, Prepared(Idx(g, q), q, shares));
  }
}
