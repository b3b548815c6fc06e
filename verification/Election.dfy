/** The relay's side of a resharing (network/crates/actors/src/election_actor.rs):
    it records which peers finished a stage and gossips the start of the next one.

    Each status map of the source holds one status value only, so it is modelled
    by the set of its keys.
 */
module Election {
  import opened Field

  type Peer = nat

  function Members(provers: seq<Peer>): set<Peer> {
    set q | q in provers
  }

  datatype Relay = Relay(
    tstarProvers: seq<Peer>,
    electedProvers: seq<Peer>,
    reElected: set<Peer>,
    initDone: set<Peer>,
    round1Done: set<Peer>,
    round2Done: set<Peer>)
  {
    /** T* and the new quorum together. */
    function Participants(): set<Peer> {
      Members(electedProvers) + Members(tstarProvers)
    }
  }

  /** The stage a peer reports. */
  datatype Stage = ReElection | Initialisation | FirstRound | SecondRound

  /** Who has to report a stage, and how many reports start the next one. */
  function Required(r: Relay, stage: Stage): set<Peer> {
    match stage
    case ReElection | Initialisation => r.Participants()
    case FirstRound | SecondRound => Members(r.electedProvers)
  }

  function Quota(r: Relay, stage: Stage): nat {
    match stage
    case ReElection | Initialisation => |r.Participants()|
    case FirstRound | SecondRound => |r.electedProvers|
  }

  function Recorded(r: Relay, stage: Stage): set<Peer> {
    match stage
    case ReElection => r.reElected
    case Initialisation => r.initDone
    case FirstRound => r.round1Done
    case SecondRound => r.round2Done
  }

  function WithRecorded(r: Relay, stage: Stage, s: set<Peer>): Relay {
    match stage
    case ReElection => r.(reElected := s)
    case Initialisation => r.(initDone := s)
    case FirstRound => r.(round1Done := s)
    case SecondRound => r.(round2Done := s)
  }

  /** One report: the new state, and whether the next stage is gossiped. */
  function Record(r: Relay, stage: Stage, peer: Peer): (Relay, bool) {
    var recorded := Recorded(r, stage);
    if peer in recorded then (r, false)
    else
      var recorded' := if peer in Required(r, stage) then recorded + {peer} else recorded;
      (WithRecorded(r, stage, recorded'), |recorded'| == Quota(r, stage))
  }

  /** One report of a stage of the first key generation. */
  function RecordDkg(elected: seq<Peer>, recorded: set<Peer>, peer: Peer): (set<Peer>, bool) {
    var recorded' := if peer in elected then recorded + {peer} else recorded;
    (recorded', |recorded'| == |elected|)
  }

  /** The first n provers of a sample, or all when it has fewer. */
  function FirstOf(s: seq<Peer>, n: nat): (r: seq<Peer>)
    ensures r <= s && |r| == if n < |s| then n else |s|
  {
    if n < |s| then s[..n] else s
  }

  /** T*: the reachable provers of the previous quorum. */
  function TstarQuorum(prevElected: seq<Peer>, reachable: seq<Peer>): (s: seq<Peer>) {
    if reachable == [] then []
    else
      var n := |reachable| - 1;
      TstarQuorum(prevElected, reachable[..n]) + (if reachable[n] in prevElected then [reachable[n]] else [])
  }

  /** T* is exactly the reachable part of the previous quorum, each prover once. */
  lemma {:induction false} TstarMembers(prevElected: seq<Peer>, reachable: seq<Peer>)
    ensures Members(TstarQuorum(prevElected, reachable)) == Members(prevElected) * Members(reachable)
    ensures NoDuplicates(reachable) ==> NoDuplicates(TstarQuorum(prevElected, reachable))
  {
    if reachable != [] {
      var n := |reachable| - 1;
      var first, last := reachable[..n], reachable[n];
      var t := TstarQuorum(prevElected, first);
      TstarMembers(prevElected, first);
      assert reachable == first + [last];
      assert last in prevElected <==> last in Members(prevElected);
      assert last in first <==> last in Members(first);
      assert last in t <==> last in Members(t);
      hide Members;
      hide NoDuplicates;
      MembersAppend(first, last);
      MembersAppend(t, last);
      assert t + [] == t;
    }
  }

  /** A sample without repetition gives an elected list without repetition, all of whose
      members are sampled, and the whole sample when it has the size asked for. */
  lemma {:induction false} ElectedFromSample(sample: seq<Peer>, n: nat)
    requires NoDuplicates(sample)
    ensures NoDuplicates(FirstOf(sample, n)) && Members(FirstOf(sample, n)) <= Members(sample)
    ensures |sample| <= n ==> FirstOf(sample, n) == sample
  {
    if n < |sample| {
      var m := |sample| - 1;
      assert sample == sample[..m] + [sample[m]];
      MembersAppend(sample[..m], sample[m]);
      ElectedFromSample(sample[..m], n);
      assert FirstOf(sample, n) == FirstOf(sample[..m], n);
    }
  }

  lemma MembersAppend(s: seq<Peer>, x: Peer)
    ensures Members(s + [x]) == Members(s) + {x}
    ensures |Members(s)| <= |s|
    ensures NoDuplicates(s + [x]) <==> NoDuplicates(s) && x !in s
  {
    MembersBounded(s);
  }

  lemma {:induction false} MembersBounded(s: seq<Peer>)
    ensures |Members(s)| <= |s|
  {
    if s != [] {
      var n := |s| - 1;
      MembersBounded(s[..n]);
      assert s == s[..n] + [s[n]];
      assert Members(s) == Members(s[..n]) + {s[n]};
    }
  }

  /** The actor: its handlers update the status sets in place. */
  class ElectionEngine {
    var tstarProvers: seq<Peer>
    var electedProvers: seq<Peer>
    var reElectionStatus: set<Peer>
    var resharingInitStatus: set<Peer>
    var resharingRound1Status: set<Peer>
    var resharingRound2Status: set<Peer>
    var dkgInitStatus: set<Peer>
    var dkgRound1Status: set<Peer>
    var dkgRound2Status: set<Peer>
    var currentThreshold: nat

    function View(): Relay
      reads this
    {
      Relay(tstarProvers, electedProvers, reElectionStatus, resharingInitStatus, resharingRound1Status, resharingRound2Status)
    }

    constructor ()
      ensures View() == Relay([], [], {}, {}, {}, {}) && currentThreshold == 0
      ensures dkgInitStatus == dkgRound1Status == dkgRound2Status == {}
    {
      tstarProvers, electedProvers := [], [];
      dkgInitStatus, dkgRound1Status, dkgRound2Status := {}, {}, {};
      reElectionStatus, resharingInitStatus := {}, {};
      resharingRound1Status, resharingRound2Status := {}, {};
      currentThreshold := 0;
    }

    /** `TriggerReElection`, once the reachable peers are known, and what the sampling
        makes of them: the status maps are cleared in any case. The attempt starts when
        enough peers are reachable, a new quorum could be sampled, and enough of the
        previous quorum is reachable; otherwise the lists stay as they are. */
    method TriggerReElection(prevElected: seq<Peer>, reachable: seq<Peer>, sampled: Option<seq<Peer>>, minNodes: nat)
      returns (proceeds: bool)
      modifies this
      ensures currentThreshold == old(currentThreshold)
      ensures dkgInitStatus == dkgRound1Status == dkgRound2Status == {}
      ensures proceeds <==> |reachable| >= minNodes && sampled.Some? && |TstarQuorum(prevElected, reachable)| >= currentThreshold
      ensures View() == if proceeds
                        then Relay(TstarQuorum(prevElected, reachable), FirstOf(sampled.value, minNodes), {}, {}, {}, {})
                        else Relay(old(tstarProvers), old(electedProvers), {}, {}, {}, {})
      ensures proceeds ==> electedProvers <= sampled.value
                           && |electedProvers| == if minNodes < |sampled.value| then minNodes else |sampled.value|
      ensures proceeds && |sampled.value| == minNodes ==> electedProvers == sampled.value
    {
      reElectionStatus, resharingInitStatus := {}, {};
      resharingRound1Status, resharingRound2Status := {}, {};
      dkgInitStatus, dkgRound1Status, dkgRound2Status := {}, {}, {};
      if |reachable| < minNodes || sampled.None? {
        return false;
      }
      var tstar: seq<Peer> := [];
      for i := 0 to |reachable|
        invariant tstar == TstarQuorum(prevElected, reachable[..i])
        invariant unchanged(this`tstarProvers) && unchanged(this`electedProvers) && unchanged(this`currentThreshold)
        invariant reElectionStatus == resharingInitStatus == resharingRound1Status == resharingRound2Status == {}
        invariant dkgInitStatus == dkgRound1Status == dkgRound2Status == {}
      {
        assert reachable[..i + 1][..i] == reachable[..i];
        if reachable[i] in prevElected {
          tstar := tstar + [reachable[i]];
        }
      }
      assert reachable[..|reachable|] == reachable;
      proceeds := |tstar| >= currentThreshold;
      if proceeds {
        tstarProvers := tstar;
        electedProvers := FirstOf(sampled.value, minNodes);
      }
    }

    /** The status of the first key generation: recorded without asking whether it
        was recorded before. */
    method RecordDKGInitNodeStatus(peer: Peer) returns (startRound1: bool)
      modifies this`dkgInitStatus
      ensures (dkgInitStatus, startRound1) == RecordDkg(electedProvers, old(dkgInitStatus), peer)
    {
      if peer in electedProvers {
        dkgInitStatus := dkgInitStatus + {peer};
      }
      startRound1 := |dkgInitStatus| == |electedProvers|;
    }

    method RecordDKGRound1NodeStatus(peer: Peer) returns (startRound2: bool)
      modifies this`dkgRound1Status
      ensures (dkgRound1Status, startRound2) == RecordDkg(electedProvers, old(dkgRound1Status), peer)
    {
      if peer in electedProvers {
        dkgRound1Status := dkgRound1Status + {peer};
      }
      startRound2 := |dkgRound1Status| == |electedProvers|;
    }

    method RecordDKGRound2NodeStatus(peer: Peer) returns (startRound3: bool)
      modifies this`dkgRound2Status
      ensures (dkgRound2Status, startRound3) == RecordDkg(electedProvers, old(dkgRound2Status), peer)
    {
      if peer in electedProvers {
        dkgRound2Status := dkgRound2Status + {peer};
      }
      startRound3 := |dkgRound2Status| == |electedProvers|;
    }

    method RecordRelectionNodeStatus(peer: Peer) returns (startInit: bool)
      modifies this`reElectionStatus
      ensures (View(), startInit) == Record(old(View()), ReElection, peer)
    {
      if peer in reElectionStatus {
        return false;
      }
      var peers := Members(electedProvers) + Members(tstarProvers);
      if peer in peers {
        reElectionStatus := reElectionStatus + {peer};
      }
      startInit := |reElectionStatus| == |peers|;
    }

    method RecordResharingInitNodeStatus(peer: Peer) returns (startRound1: bool)
      modifies this`resharingInitStatus
      ensures (View(), startRound1) == Record(old(View()), Initialisation, peer)
    {
      if peer in resharingInitStatus {
        return false;
      }
      // The distinct peers of both lists, in order of first appearance.
      var all := tstarProvers + electedProvers;
      var unique: seq<Peer> := [];
      for i := 0 to |all|
        invariant Members(unique) == Members(all[..i])
        invariant |unique| == |Members(unique)|
        invariant unchanged(this)
      {
        assert all[..i + 1] == all[..i] + [all[i]];
        if all[i] !in unique {
          assert Members(unique + [all[i]]) == Members(unique) + {all[i]};
          unique := unique + [all[i]];
        }
        assert Members(all[..i + 1]) == Members(all[..i]) + {all[i]};
      }
      assert all[..|all|] == all;
      assert Members(all) == View().Participants();
      if peer in unique {
        resharingInitStatus := resharingInitStatus + {peer};
      }
      startRound1 := |resharingInitStatus| == |unique|;
    }

    method RecordResharingRound1NodeStatus(peer: Peer) returns (startRound2: bool)
      modifies this`resharingRound1Status
      ensures (View(), startRound2) == Record(old(View()), FirstRound, peer)
    {
      if peer in resharingRound1Status {
        return false;
      }
      if peer in electedProvers {
        resharingRound1Status := resharingRound1Status + {peer};
      }
      startRound2 := |resharingRound1Status| == |electedProvers|;
    }

    method RecordResharingRound2NodeStatus(peer: Peer) returns (startRound3: bool)
      modifies this`resharingRound2Status
      ensures (View(), startRound3) == Record(old(View()), SecondRound, peer)
    {
      if peer in resharingRound2Status {
        return false;
      }
      if peer in electedProvers {
        resharingRound2Status := resharingRound2Status + {peer};
      }
      startRound3 := |resharingRound2Status| == |electedProvers|;
    }
  }

  // ---------- one stage over a whole run ----------

  predicate NoDuplicates(provers: seq<Peer>) {
    |Members(provers)| == |provers|
  }

  /** The relay after a run of reports of one stage. */
  function AfterReports(r: Relay, stage: Stage, reports: seq<Peer>): Relay {
    if reports == [] then r
    else Record(AfterReports(r, stage, reports[..|reports| - 1]), stage, reports[|reports| - 1]).0
  }

  lemma SubsetOfSameSize(a: set<Peer>, b: set<Peer>)
    requires a <= b
    ensures |a| <= |b|
    ensures |a| == |b| ==> a == b
  {
    if a != b {
      var x :| x in b && x !in a;
      SubsetOfSameSize(a, b - {x});
    }
  }

  /** Exactly the required peers that have reported are on record. */
  lemma {:induction false} RecordedAfter(r: Relay, stage: Stage, reports: seq<Peer>)
    requires Recorded(r, stage) == {}
    ensures var r' := AfterReports(r, stage, reports);
            && Recorded(r', stage) == Members(reports) * Required(r, stage)
            && r'.tstarProvers == r.tstarProvers && r'.electedProvers == r.electedProvers
  {
    if reports != [] {
      var n := |reports| - 1;
      RecordedAfter(r, stage, reports[..n]);
      assert reports == reports[..n] + [reports[n]];
      assert Members(reports) == Members(reports[..n]) + {reports[n]};
    }
  }

  /** When exactly the barrier opens: a report makes the relay gossip the next stage
      if and only if every required peer has reported by then, and the report is
      either a required peer's first or comes from a peer that was not required.
      So reports of required peers open it once, and a late outsider opens it again. */
  lemma BarrierOpens(r: Relay, stage: Stage, reports: seq<Peer>, peer: Peer)
    requires NoDuplicates(r.electedProvers) && Recorded(r, stage) == {}
    ensures Record(AfterReports(r, stage, reports), stage, peer).1 <==>
            && Required(r, stage) <= Members(reports) + {peer}
            && (peer in Required(r, stage) ==> peer !in reports)
  {
    RecordedAfter(r, stage, reports);
    var required := Required(r, stage);
    var before := Members(reports) * required;
    assert peer in before <==> peer in reports && peer in required;
    var after := if peer in required then before + {peer} else before;
    SubsetOfSameSize(after, required);
    assert after == required <==> required <= Members(reports) + {peer};
  }

  function AfterDkgReports(elected: seq<Peer>, reports: seq<Peer>): set<Peer> {
    if reports == [] then {}
    else RecordDkg(elected, AfterDkgReports(elected, reports[..|reports| - 1]), reports[|reports| - 1]).0
  }

  lemma {:induction false} DkgRecordedAfter(elected: seq<Peer>, reports: seq<Peer>)
    ensures AfterDkgReports(elected, reports) == Members(reports) * Members(elected)
  {
    if reports != [] {
      var n := |reports| - 1;
      DkgRecordedAfter(elected, reports[..n]);
      assert reports == reports[..n] + [reports[n]];
      assert Members(reports) == Members(reports[..n]) + {reports[n]};
    }
  }

  /** The barriers of the first key generation open at every report, whoever sends it
      and however often, once all elected provers have reported. */
  lemma DkgBarrierOpens(elected: seq<Peer>, reports: seq<Peer>, peer: Peer)
    requires NoDuplicates(elected)
    ensures RecordDkg(elected, AfterDkgReports(elected, reports), peer).1 <==> Members(elected) <= Members(reports) + {peer}
  {
    DkgRecordedAfter(elected, reports);
    assert peer in elected <==> peer in Members(elected);
    var before, required := Members(reports), Members(elected);
    var recorded := RecordDkg(elected, AfterDkgReports(elected, reports), peer).0;
    hide Members;
    hide AfterDkgReports;
    SameIntersection(before, required, peer, recorded);
    SubsetOfSameSize(recorded, required);
  }

  lemma SameIntersection(before: set<Peer>, required: set<Peer>, peer: Peer, recorded: set<Peer>)
    requires recorded == if peer in required then before * required + {peer} else before * required
    ensures recorded <= required && (recorded == required <==> required <= before + {peer})
  {
  }
}
