/** The network over its whole life: the key generation, then any number of resharing
    attempts by the actors themselves, with provers that save their shares and restart
    in between. Every attempt starts from the state that the last one left behind.
 */
module Generations {
  import opened Field
  import opened Polynomial
  import opened Sums
  import opened Vss
  import opened Dkg
  import opened Election
  import opened DkgEngine
  import opened Protocol
  import opened ProtocolSafety
  import opened Barriers
  import opened ProtocolProgress
  import opened Termination
  import Epochs

  /** What never changes: the curves, and the index of every prover. */
  datatype Roster = Roster(curve: Curves, index: map<Peer, nat>)

  /** Where a prover keeps its shares: in its engine, unless it was restarted, and on disk. */
  datatype Machine = Machine(engine: Option<Engine>, stored: map<KeyType, int>)

  /** The network between two attempts; `groupKeys` is the map that the relay settled
      after the key generation and announces with every attempt. */
  datatype World = World(machines: map<Peer, Machine>, quorum: set<Peer>, threshold: nat, groupKeys: map<KeyType, int>)

  /** What the relay elects. */
  datatype Choice = Choice(tstar: set<Peer>, quorum: set<Peer>, threshold: nat)

  /** Every prover has its own index. */
  ghost predicate RosterOk(r: Roster) {
    IndexSet(r.index.Values) && forall q, u :: q in r.index && u in r.index && r.index[q] == r.index[u] ==> q == u
  }

  /** The share that a prover deals from: the one in memory, or else the one on disk. */
  function Share(m: Machine, k: KeyType): int {
    if m.engine.Some? then (if k in m.engine.value.nodes then m.engine.value.nodes[k].node.privateShare else 0)
    else if k in m.stored then m.stored[k] else 0
  }

  ghost function SharesOf(r: Roster, w: World, members: set<Peer>, k: KeyType): (m: map<nat, int>)
    requires RosterOk(r) && members <= r.index.Keys == w.machines.Keys
    ensures m.Keys == set q | q in members :: r.index[q]
    ensures forall q :: q in members ==> m[r.index[q]] == Share(w.machines[q], k)
  {
    map q | q in members :: r.index[q] := Share(w.machines[q], k)
  }

  /** Two maps that agree on the indices of the members. */
  lemma SameByIndex(r: Roster, members: set<Peer>, a: map<nat, int>, b: map<nat, int>)
    requires members <= r.index.Keys && a.Keys == b.Keys == set q | q in members :: r.index[q]
    requires forall q :: q in members ==> a[r.index[q]] == b[r.index[q]]
    ensures a == b
  {
    forall i | i in a
      ensures a[i] == b[i]
    {
      var q :| q in members && r.index[q] == i;
    }
  }

  // ---------- the invariant ----------

  /** An engine that a prover has is its own. */
  ghost predicate Identified(r: Roster, q: Peer, engine: Option<Engine>)
    requires q in r.index
  {
    engine.Some? ==>
      && engine.value.peer == q && engine.value.idx == r.index[q] && engine.value.nodes.Keys == AllTypes()
      && forall k :: k in AllTypes() ==> engine.value.nodes[k].node.id == r.index[q]
  }

  /** A prover whose shares are not lost. */
  ghost predicate Provided(m: Machine) {
    m.engine.Some? || AllTypes() <= m.stored.Keys
  }

  /** The quorum shares this secret, and the relay announces its key. */
  ghost predicate SharesKey(r: Roster, w: World, k: KeyType, secret: int)
    requires RosterOk(r) && w.quorum <= r.index.Keys == w.machines.Keys
  {
    && k in w.groupKeys && w.groupKeys[k] == secret
    && Epochs.Shares(r.curve(k), Epochs.Epoch(w.threshold, SharesOf(r, w, w.quorum, k), secret), secret)
  }

  ghost predicate WorldInv(r: Roster, w: World, secrets: map<KeyType, int>) {
    && RosterOk(r)
    && w.quorum <= r.index.Keys == w.machines.Keys
    && w.threshold >= 1
    && secrets.Keys == AllTypes()
    && (forall q :: q in w.machines ==> Identified(r, q, w.machines[q].engine))
    && (forall q :: q in w.quorum ==> Provided(w.machines[q]))
    && (forall k :: k in AllTypes() ==> SharesKey(r, w, k, secrets[k]))
  }

  // ---------- an attempt ----------

  /** What the relay may choose: a T* from the quorum, of at least its threshold, and a
      new quorum that the share check can serve. */
  ghost predicate Admits(r: Roster, w: World, c: Choice) {
    && w.quorum <= r.index.Keys == w.machines.Keys
    && c.tstar <= w.quorum && |c.tstar| >= w.threshold
    && c.quorum <= r.index.Keys
    && (c.threshold >= 1 ==> forall q :: q in c.quorum ==> Power(r.index[q], c.threshold - 1) < TWO_128)
  }

  function Indexed(r: Roster, members: set<Peer>): (m: map<Peer, nat>)
    requires members <= r.index.Keys
    ensures m.Keys == members
  {
    map q | q in members :: r.index[q]
  }

  /** The attempt that this choice makes, with the shares that T* has. */
  ghost function SetupOf(r: Roster, w: World, c: Choice): Setup
    requires RosterOk(r) && Admits(r, w, c)
  {
    Setup(Attempt(Indexed(r, c.tstar), Indexed(r, c.quorum), c.threshold, w.groupKeys), r.curve,
          map k | k in AllTypes() :: SharesOf(r, w, c.tstar, k))
  }

  /** The provers start as the world left them, and the relay has announced the attempt. */
  ghost predicate Begins(w: World, c: Choice, s: State) {
    && Elected(s.relay, c.tstar, c.quorum)
    && s.toRelay == multiset{}
    && s.provers.Keys == c.tstar + c.quorum
    && (forall q :: q in s.provers ==>
          && s.provers[q].pending == multiset{ReElectedProvers}
          && s.provers[q].mailbox == []
          && q in w.machines && s.provers[q].engine == w.machines[q].engine && s.provers[q].stored == w.machines[q].stored)
    && s.log == {ReElectedProvers}
    && s.polys == map[]
    && !s.failed
  }

  lemma ChoiceIndices(r: Roster, w: World, c: Choice, q: Peer)
    requires RosterOk(r) && Admits(r, w, c)
    ensures var g := SetupOf(r, w, c);
            && Participants(g) == c.tstar + c.quorum
            && (q in c.tstar + c.quorum ==> q in r.index && Idx(g, q) == r.index[q] && IsIndex(r.index[q]))
  {
    if q in c.tstar + c.quorum {
      assert r.index[q] in r.index.Values;
    }
  }

  lemma IndexedValues(r: Roster, members: set<Peer>)
    requires members <= r.index.Keys
    ensures Indexed(r, members).Values == set q | q in members :: r.index[q]
  {
    var m := Indexed(r, members);
    forall q | q in members
      ensures r.index[q] in m.Values
    {
      assert m[q] == r.index[q];
    }
  }

  lemma IndicesOk(r: Roster, members: set<Peer>)
    requires members <= r.index.Keys && IndexSet(r.index.Values)
    ensures IndexSet(Indexed(r, members).Values)
  {
    hide IsIndex;
    IndexedValues(r, members);
    forall i | i in Indexed(r, members).Values
      ensures i in r.index.Values
    {
      var q :| q in members && r.index[q] == i;
    }
  }

  lemma ChoiceIndexed(r: Roster, w: World, c: Choice)
    requires RosterOk(r) && Admits(r, w, c)
    ensures var g := SetupOf(r, w, c);
            OwnIndices(g) && IndexSet(Dealers(g)) && IndexSet(NewMembers(g)) && PowersFit(g)
  {
    hide IndexSet;
    hide AllTypes;
    hide SharesOf;
    hide Power;
    IndicesOk(r, c.tstar);
    IndicesOk(r, c.quorum);
    IndexedValues(r, c.quorum);
    ChoiceOwn(r, w, c);
    hide OwnIndices;
  }

  lemma ChoiceOwn(r: Roster, w: World, c: Choice)
    requires RosterOk(r) && Admits(r, w, c)
    ensures OwnIndices(SetupOf(r, w, c))
  {
    hide IsIndex;
    hide AllTypes;
    hide SharesOf;
    hide Idx;
    hide Power;
    hide Participants;
    var g := SetupOf(r, w, c);
    forall q
      ensures q in Participants(g) ==> q in r.index && Idx(g, q) == r.index[q]
    {
      ChoiceIndices(r, w, c, q);
    }
  }

  lemma IndexedSize(r: Roster, members: set<Peer>)
    requires RosterOk(r) && members <= r.index.Keys
    ensures |Indexed(r, members).Values| == |members|
  {
    hide IndexSet;
    DistinctValues(Indexed(r, members));
    assert |Indexed(r, members)| == |Indexed(r, members).Keys|;
  }

  /** The shares of T* are part of those of the quorum. */
  lemma TstarShares(r: Roster, w: World, c: Choice, k: KeyType, secret: int)
    requires RosterOk(r) && Admits(r, w, c)
    ensures var e := Epochs.Epoch(w.threshold, SharesOf(r, w, w.quorum, k), secret); var dealers := Indexed(r, c.tstar).Values;
            && dealers <= e.shares.Keys && |dealers| >= w.threshold
            && SharesOf(r, w, c.tstar, k) == Epochs.Part(e, dealers)
  {
    hide Share;
    hide SharesOf;
    hide Power;
    IndexedSize(r, c.tstar);
    hide RosterOk;
    IndexedValues(r, c.tstar);
    hide Indexed;
    var e := Epochs.Epoch(w.threshold, SharesOf(r, w, w.quorum, k), secret);
    SameByIndex(r, c.tstar, SharesOf(r, w, c.tstar, k), Epochs.Part(e, Indexed(r, c.tstar).Values));
  }

  lemma ChoiceKey(r: Roster, w: World, c: Choice, k: KeyType, secret: int)
    requires RosterOk(r) && Admits(r, w, c) && k in AllTypes() && SharesKey(r, w, k, secret)
    ensures KeyMatches(SetupOf(r, w, c), k)
  {
    hide RosterOk;
    hide SharesOf;
    hide Epochs.Shares;
    hide KeyMatches;
    hide AllTypes;
    TstarShares(r, w, c, k, secret);
    NextAttempt(SetupOf(r, w, c), k, Epochs.Epoch(w.threshold, SharesOf(r, w, w.quorum, k), secret), secret);
  }

  lemma TstarShare(r: Roster, w: World, c: Choice, k: KeyType, q: Peer)
    requires RosterOk(r) && Admits(r, w, c) && k in AllTypes() && q in c.tstar
    ensures OldShare(SetupOf(r, w, c), k, r.index[q]) == Share(w.machines[q], k)
  {
    hide AllTypes;
    hide Share;
    hide IndexSet;
    hide Power;
  }

  lemma ProverBegins(r: Roster, w: World, c: Choice, q: Peer)
    requires RosterOk(r) && Admits(r, w, c) && q in c.tstar + c.quorum
    requires Identified(r, q, w.machines[q].engine) && (q in c.tstar ==> Provided(w.machines[q]))
    ensures EngineBefore(SetupOf(r, w, c), q, w.machines[q].engine, w.machines[q].stored)
  {
    hide AllTypes;
    hide RosterOk;
    hide Idx;
    hide OldShare;
    hide SharesOf;
    hide Power;
    ChoiceIndices(r, w, c, q);
    if q in c.tstar {
      forall k | k in AllTypes()
        ensures OldShare(SetupOf(r, w, c), k, r.index[q]) == Share(w.machines[q], k)
      {
        TstarShare(r, w, c, k, q);
      }
    }
  }

  lemma ChoiceOk(r: Roster, w: World, c: Choice, secrets: map<KeyType, int>)
    requires RosterOk(r) && Admits(r, w, c) && WorldInv(r, w, secrets)
    ensures SetupOk(SetupOf(r, w, c))
  {
    hide SharesKey;
    hide Identified;
    hide KeyMatches;
    hide PowersFit;
    hide OwnIndices;
    hide IndexSet;
    hide AllTypes;
    hide SharesOf;
    ChoiceIndexed(r, w, c);
    forall k | k in AllTypes()
      ensures KeyMatches(SetupOf(r, w, c), k)
    {
      ChoiceKey(r, w, c, k, secrets[k]);
    }
  }

  lemma BeginsStarts(r: Roster, w: World, c: Choice, s: State)
    requires RosterOk(r) && Admits(r, w, c) && Begins(w, c, s)
    requires forall q :: q in s.provers ==> EngineBefore(SetupOf(r, w, c), q, s.provers[q].engine, s.provers[q].stored)
    ensures Start(SetupOf(r, w, c), s)
  {
    hide EngineBefore;
    hide RosterOk;
    hide Admits;
    hide SetupOf;
    hide Participants;
    hide Elected;
    ChosenMembers(r, w, c);
  }

  lemma ChosenMembers(r: Roster, w: World, c: Choice)
    requires RosterOk(r) && Admits(r, w, c)
    ensures var g := SetupOf(r, w, c);
            g.attempt.tstar.Keys == c.tstar && g.attempt.quorum.Keys == c.quorum && Participants(g) == c.tstar + c.quorum
  {
    hide AllTypes;
    hide SharesOf;
    hide RosterOk;
    hide Power;
  }

  /** Whatever the relay chooses among the quorum, the attempt starts from what the
      protocol assumes: the announced keys are those of the shares that T* has, and
      every engine is as it should be. */
  lemma AttemptBegins(r: Roster, w: World, c: Choice, s: State, secrets: map<KeyType, int>)
    requires RosterOk(r) && Admits(r, w, c) && WorldInv(r, w, secrets) && Begins(w, c, s)
    ensures SetupOk(SetupOf(r, w, c)) && Start(SetupOf(r, w, c), s)
  {
    hide SharesKey;
    hide Identified;
    hide Provided;
    hide SetupOk;
    hide SetupOf;
    hide Start;
    hide RosterOk;
    hide EngineBefore;
    hide AllTypes;
    ChoiceOk(r, w, c, secrets);
    forall q | q in s.provers
      ensures EngineBefore(SetupOf(r, w, c), q, s.provers[q].engine, s.provers[q].stored)
    {
      ProverBegins(r, w, c, q);
    }
    BeginsStarts(r, w, c, s);
  }

  // ---------- what an attempt leaves behind ----------

  /** Every member of the new quorum has gone through round 3. */
  ghost predicate Finished(g: Setup, s: State) {
    StartResharingRound3 in s.log && forall q :: q in g.attempt.quorum ==> IsPrepared(g, s.log, q)
  }

  function Machines(w: World, s: State): (m: map<Peer, Machine>)
    ensures m.Keys == w.machines.Keys
  {
    map q | q in w.machines :: if q in s.provers then Machine(s.provers[q].engine, s.provers[q].stored) else w.machines[q]
  }

  function Left(w: World, c: Choice, s: State): World {
    World(Machines(w, s), c.quorum, c.threshold, w.groupKeys)
  }

  /** At round 3 every participant has an engine of its own. */
  lemma EngineLeft(r: Roster, w: World, c: Choice, s: State, q: Peer)
    requires RosterOk(r) && Admits(r, w, c) && q in c.tstar + c.quorum
    requires Invariant(SetupOf(r, w, c), s) && StartResharingRound3 in s.log
    ensures q in s.provers && s.provers[q].engine.Some? && q in r.index && Identified(r, q, s.provers[q].engine) && c.threshold >= 1
  {
    hide Invariant;
    hide LogInv;
    hide ProverInv;
    hide Late;
    hide RosterOk;
    hide AllTypes;
    hide Idx;
    hide InputsInv;
    hide SharesOf;
    var g := SetupOf(r, w, c);
    ChoiceIndices(r, w, c, q);
    LogHolds(g, s);
    Started3(g, s.log, s.polys);
    Started1(g, s.log, s.polys);
    AllInitialised(g, s.log, s.polys, q);
    ProversAre(g, s);
    LateFacts(g, s, q);
    LateConfigured(g, s.log, s.polys, q, s.provers[q]);
    var nodes := s.provers[q].engine.value.nodes;
    forall k | k in AllTypes()
      ensures nodes[k].node.id == r.index[q]
    {
      assert SharesInv(g, s.log, s.polys, q, k, nodes[k]);
    }
  }

  lemma Started1(g: Setup, log: set<Gossip>, polys: Polys)
    requires LogInv(g, log, polys) && StartResharingRound2 in log
    ensures StartResharingRound1 in log
  {
    hide PolysOk;
    hide MessageInv;
  }

  lemma ProversAre(g: Setup, s: State)
    requires Invariant(g, s)
    ensures s.provers.Keys == Participants(g)
  {
    hide LogInv;
    hide RelayInv;
    hide ProverInv;
  }

  lemma MemberLeft(r: Roster, w: World, c: Choice, s: State, k: KeyType, q: Peer)
    requires RosterOk(r) && Admits(r, w, c) && Holds(SetupOf(r, w, c), s, k) && q in c.quorum
    ensures q in r.index && q in w.machines && Idx(SetupOf(r, w, c), q) == r.index[q]
    ensures Share(Machines(w, s)[q], k) == s.provers[q].engine.value.nodes[k].node.privateShare
  {
    hide AllTypes;
    hide Idx;
    hide SharesOf;
    hide RosterOk;
    hide Power;
    ChoiceIndices(r, w, c, q);
  }

  /** The shares that the new quorum holds at the end are those it holds afterwards. */
  lemma SharesLeft(r: Roster, w: World, c: Choice, s: State, k: KeyType)
    requires RosterOk(r) && Admits(r, w, c) && OwnIndices(SetupOf(r, w, c)) && Holds(SetupOf(r, w, c), s, k)
    ensures SharesOf(r, Left(w, c, s), c.quorum, k) == Held(SetupOf(r, w, c), s, k)
  {
    hide OwnIndices;
    hide AllTypes;
    hide Idx;
    hide Held;
    hide SharesOf;
    hide RosterOk;
    hide Power;
    hide Share;
    hide Machines;
    var g := SetupOf(r, w, c);
    HeldAt(g, s, k);
    hide Holds;
    forall q | q in c.quorum
      ensures q in r.index && Idx(g, q) == r.index[q] && SharesOf(r, Left(w, c, s), c.quorum, k)[r.index[q]] == Held(g, s, k)[r.index[q]]
    {
      MemberLeft(r, w, c, s, k, q);
    }
    SameByIndex(r, c.quorum, SharesOf(r, Left(w, c, s), c.quorum, k), Held(g, s, k));
  }

  lemma KeyLeft(r: Roster, w: World, c: Choice, states: seq<State>, steps: seq<Step>, k: KeyType, secrets: map<KeyType, int>)
    requires RosterOk(r) && Admits(r, w, c) && k in AllTypes() && c.threshold >= 1
    requires SetupOk(SetupOf(r, w, c)) && IsRun(SetupOf(r, w, c), states, steps) && |states| == |steps| + 1
    requires StartResharingRound3 in states[|steps|].log && WorldInv(r, w, secrets)
    ensures SharesKey(r, Left(w, c, states[|steps|]), k, secrets[k])
  {
    hide SetupOk;
    hide IsRun;
    hide RosterOk;
    hide AllTypes;
    hide Epochs.Shares;
    hide Held;
    hide Holds;
    hide SharesOf;
    hide Identified;
    hide OwnIndices;
    var g, s := SetupOf(r, w, c), states[|steps|];
    assert SharesKey(r, w, k, secrets[k]);
    ChoiceIndexed(r, w, c);
    Reshared(g, states, steps, |steps|, k);
    SharesLeft(r, w, c, s, k);
  }

  /** A run of the attempt that this choice makes in this world. */
  ghost predicate RunsIn(r: Roster, w: World, c: Choice, states: seq<State>, steps: seq<Step>)
    requires RosterOk(r) && Admits(r, w, c)
  {
    && |states| == |steps| + 1
    && Begins(w, c, states[0])
    && forall i :: Steps(SetupOf(r, w, c), states, steps, i)
  }

  /** An attempt that starts in such a world leads to one: once round 3 has started,
      the new quorum shares the same secrets. */
  lemma AttemptKeeps(r: Roster, w: World, c: Choice, states: seq<State>, steps: seq<Step>, secrets: map<KeyType, int>)
    requires RosterOk(r) && Admits(r, w, c) && RunsIn(r, w, c, states, steps) && WorldInv(r, w, secrets)
    requires StartResharingRound3 in states[|steps|].log
    ensures WorldInv(r, Left(w, c, states[|steps|]), secrets)
  {
    hide SetupOk;
    hide Invariant;
    hide RosterOk;
    hide AllTypes;
    hide SharesKey;
    hide Identified;
    hide SetupOf;
    hide Begins;
    hide Start;
    var g, s := SetupOf(r, w, c), states[|steps|];
    AttemptBegins(r, w, c, states[0], secrets);
    assert IsRun(g, states, steps);
    hide Steps;
    RunInv(g, states, steps, |steps|);
    forall q | q in c.tstar + c.quorum
      ensures q in s.provers && s.provers[q].engine.Some? && q in r.index && Identified(r, q, s.provers[q].engine) && c.threshold >= 1
    {
      EngineLeft(r, w, c, s, q);
    }
    SomeDealer(w, c);
    ProversOf(r, w, c, s);
    forall k | k in AllTypes()
      ensures SharesKey(r, Left(w, c, s), k, secrets[k])
    {
      KeyLeft(r, w, c, states, steps, k, secrets);
    }
  }

  lemma SomeDealer(w: World, c: Choice)
    requires |c.tstar| >= w.threshold >= 1
    ensures exists q :: q in c.tstar
  {
    assert c.tstar != {};
  }

  lemma ProversOf(r: Roster, w: World, c: Choice, s: State)
    requires RosterOk(r) && Admits(r, w, c) && Invariant(SetupOf(r, w, c), s)
    ensures s.provers.Keys == c.tstar + c.quorum
  {
    hide Invariant;
    hide RosterOk;
    ProversAre(SetupOf(r, w, c), s);
  }

  // ---------- a history ----------

  /** What happens between the key generation and now. */
  datatype Event =
    | Resharing(choice: Choice, states: seq<State>, steps: seq<Step>)
    | Saved(q: Peer)
    | Restarted(q: Peer)

  /** What a prover writes to disk. */
  function OnDisk(m: Machine): map<KeyType, int> {
    if m.engine.Some? then map k | k in m.engine.value.nodes :: m.engine.value.nodes[k].node.privateShare else m.stored
  }

  /** An attempt counts once it is finished, and a member of the quorum does not
      restart before it has saved its shares. */
  ghost predicate Possible(r: Roster, w: World, e: Event) {
    match e
    case Resharing(c, states, steps) =>
      RosterOk(r) && Admits(r, w, c) && RunsIn(r, w, c, states, steps) && Finished(SetupOf(r, w, c), states[|steps|])
    case Saved(q) => q in w.machines
    case Restarted(q) => q in w.machines && (q in w.quorum ==> w.machines[q].stored == OnDisk(w.machines[q]))
  }

  ghost function Then(r: Roster, w: World, e: Event): World
    requires Possible(r, w, e)
  {
    match e
    case Resharing(c, states, steps) => Left(w, c, states[|steps|])
    case Saved(q) => w.(machines := w.machines[q := w.machines[q].(stored := OnDisk(w.machines[q]))])
    case Restarted(q) => w.(machines := w.machines[q := w.machines[q].(engine := None)])
  }

  /** A change on one machine that loses no share of the quorum. */
  lemma MachineChanges(r: Roster, w: World, q: Peer, m: Machine, secrets: map<KeyType, int>)
    requires WorldInv(r, w, secrets) && q in w.machines && Identified(r, q, m.engine)
    requires q in w.quorum ==> Provided(m) && forall k :: k in AllTypes() ==> Share(m, k) == Share(w.machines[q], k)
    ensures WorldInv(r, w.(machines := w.machines[q := m]), secrets)
  {
    hide AllTypes;
    hide Share;
    hide Identified;
    hide Provided;
    hide Epochs.Shares;
    hide RosterOk;
    var w' := w.(machines := w.machines[q := m]);
    forall k | k in AllTypes()
      ensures SharesKey(r, w', k, secrets[k])
    {
      assert SharesKey(r, w, k, secrets[k]);
      SameShares(r, w, w', k);
    }
  }

  lemma SameShares(r: Roster, w: World, w': World, k: KeyType)
    requires RosterOk(r) && w.quorum <= r.index.Keys == w.machines.Keys && w'.quorum == w.quorum && w'.machines.Keys == w.machines.Keys
    requires forall q :: q in w.quorum ==> Share(w'.machines[q], k) == Share(w.machines[q], k)
    ensures SharesOf(r, w', w.quorum, k) == SharesOf(r, w, w.quorum, k)
  {
    hide Share;
    hide SharesOf;
    hide RosterOk;
    SameByIndex(r, w.quorum, SharesOf(r, w', w.quorum, k), SharesOf(r, w, w.quorum, k));
  }

  lemma EventKeeps(r: Roster, w: World, e: Event, secrets: map<KeyType, int>)
    requires WorldInv(r, w, secrets) && Possible(r, w, e)
    ensures WorldInv(r, Then(r, w, e), secrets)
  {
    hide WorldInv;
    hide RunsIn;
    hide Admits;
    match e
    case Resharing(c, states, steps) =>
      Ran(r, w, c, states, steps);
      AttemptKeeps(r, w, c, states, steps, secrets);
    case Saved(q) =>
      MachineFacts(r, w, q, secrets);
      MachineChanges(r, w, q, w.machines[q].(stored := OnDisk(w.machines[q])), secrets);
    case Restarted(q) =>
      MachineFacts(r, w, q, secrets);
      MachineChanges(r, w, q, w.machines[q].(engine := None), secrets);
  }

  lemma Ran(r: Roster, w: World, c: Choice, states: seq<State>, steps: seq<Step>)
    requires RosterOk(r) && Admits(r, w, c) && RunsIn(r, w, c, states, steps)
    ensures |states| == |steps| + 1
  {
  }

  lemma MachineFacts(r: Roster, w: World, q: Peer, secrets: map<KeyType, int>)
    requires WorldInv(r, w, secrets) && q in w.machines
    ensures q in r.index && Identified(r, q, w.machines[q].engine) && (q in w.quorum ==> Provided(w.machines[q]))
  {
    hide SharesKey;
    hide Provided;
    hide Identified;
  }

  /** The event at i leads from the world at i to the next. */
  ghost predicate Happens(r: Roster, worlds: seq<World>, events: seq<Event>, i: nat)
    requires |worlds| == |events| + 1
  {
    i < |events| ==> Possible(r, worlds[i], events[i]) && worlds[i + 1] == Then(r, worlds[i], events[i])
  }

  // ---------- the key generation ----------

  /** The polynomials that the first quorum dealt, by key type and dealer. */
  type Generated = map<KeyType, map<nat, seq<int>>>

  /** The node that a member's last round of the key generation left: round 2 on what
      honest dealers sent put the share and the group key into it. */
  ghost predicate FromRound2(p: Modulus, polys: map<nat, seq<int>>, t: nat, before: Node, node: Node)
    requires Dealt(polys, t)
  {
    && AfterRound1(p, polys, t, before)
    && var r := Dkg.Round2(p, before, Network(t, |polys|, polys.Keys), ReceivedY(p, polys, before.id), ReceivedV(p, polys, before.id));
       r.Ok? && node == before.(privateShare := r.value.share, networkPubkey := r.value.groupKey)
  }

  ghost predicate MemberOf(p: Modulus, polys: map<nat, seq<int>>, t: nat, node: Node)
    requires Dealt(polys, t)
  {
    exists before :: FromRound2(p, polys, t, before, node)
  }

  ghost predicate Completed(r: Roster, m: Machine, polys: Generated, t: nat, k: KeyType) {
    && m.engine.Some? && k in m.engine.value.nodes
    && k in polys && Dealt(polys[k], t) && MemberOf(r.curve(k), polys[k], t, m.engine.value.nodes[k].node)
  }

  predicate Reports(m: Machine, k: KeyType, key: int) {
    m.engine.Some? && k in m.engine.value.nodes && m.engine.value.nodes[k].node.networkPubkey == key
  }

  /** The key generation of one key type: the quorum dealt, every member completed, and
      the relay settled on a key that some member reported. */
  ghost predicate Generates(r: Roster, w: World, polys: Generated, k: KeyType)
    requires w.quorum <= r.index.Keys == w.machines.Keys
  {
    && k in polys && Dealt(polys[k], w.threshold) && polys[k].Keys == Indexed(r, w.quorum).Values
    && (forall q :: q in w.quorum ==> Completed(r, w.machines[q], polys, w.threshold, k))
    && k in w.groupKeys && exists q :: q in w.quorum && Reports(w.machines[q], k, w.groupKeys[k])
  }

  ghost predicate AfterKeyGeneration(r: Roster, w: World, polys: Generated) {
    && RosterOk(r) && w.quorum <= r.index.Keys == w.machines.Keys && w.threshold >= 1
    && (forall q :: q in w.machines ==> Identified(r, q, w.machines[q].engine))
    && forall k :: k in AllTypes() ==> Generates(r, w, polys, k)
  }

  /** The secret that the key generation made. */
  ghost function Secret(r: Roster, polys: Generated, t: nat, k: KeyType): int {
    if k in polys && Dealt(polys[k], t) then Eval(r.curve(k), SumPoly(polys[k], t), 0) else 0
  }

  ghost function Secrets(r: Roster, polys: Generated, t: nat): (m: map<KeyType, int>)
    ensures m.Keys == AllTypes()
  {
    map k | k in AllTypes() :: Secret(r, polys, t, k)
  }

  lemma MemberShare(p: Modulus, polys: map<nat, seq<int>>, t: nat, node: Node)
    requires Dealt(polys, t) && MemberOf(p, polys, t, node)
    ensures node.id in polys && node.privateShare == Eval(p, SumPoly(polys, t), node.id)
    ensures node.networkPubkey == Eval(p, SumPoly(polys, t), 0)
  {
    hide Dealt;
    hide Dkg.Round2;
    hide Eval;
    var before :| FromRound2(p, polys, t, before, node);
    HonestRound2(p, polys, t, before);
  }

  lemma GeneratedShare(r: Roster, w: World, polys: Generated, k: KeyType, q: Peer)
    requires w.quorum <= r.index.Keys == w.machines.Keys && k in AllTypes() && Generates(r, w, polys, k)
    requires q in w.quorum && Identified(r, q, w.machines[q].engine)
    ensures Share(w.machines[q], k) == Eval(r.curve(k), SumPoly(polys[k], w.threshold), r.index[q])
    ensures Reports(w.machines[q], k, Secret(r, polys, w.threshold, k))
  {
    hide AllTypes;
    hide Eval;
    hide Dealt;
    hide MemberOf;
    hide Indexed;
    assert Completed(r, w.machines[q], polys, w.threshold, k);
    MemberShare(r.curve(k), polys[k], w.threshold, w.machines[q].engine.value.nodes[k].node);
  }

  lemma GeneratedKey(r: Roster, w: World, polys: Generated, k: KeyType)
    requires w.quorum <= r.index.Keys == w.machines.Keys && k in AllTypes() && Generates(r, w, polys, k)
    requires forall q :: q in w.machines ==> Identified(r, q, w.machines[q].engine)
    ensures k in polys && k in w.groupKeys && w.groupKeys[k] == Secret(r, polys, w.threshold, k)
    ensures Dealt(polys[k], w.threshold) && polys[k].Keys == Indexed(r, w.quorum).Values
  {
    hide AllTypes;
    hide Dealt;
    hide MemberOf;
    hide Secret;
    hide Identified;
    hide Indexed;
    var q :| q in w.quorum && Reports(w.machines[q], k, w.groupKeys[k]);
    GeneratedShare(r, w, polys, k, q);
  }

  lemma GeneratedShares(r: Roster, w: World, polys: Generated, k: KeyType)
    requires RosterOk(r) && w.quorum <= r.index.Keys == w.machines.Keys && k in AllTypes()
    requires forall q :: q in w.machines ==> Identified(r, q, w.machines[q].engine)
    requires Generates(r, w, polys, k)
    ensures SharesOf(r, w, w.quorum, k) == Epochs.AfterDkg(r.curve(k), polys[k], w.threshold).shares
  {
    hide Generates;
    hide AllTypes;
    hide Eval;
    hide RosterOk;
    hide Secret;
    hide Share;
    hide SharesOf;
    hide SumPoly;
    hide Identified;
    hide Power;
    hide IndexSet;
    hide Indexed;
    GeneratedKey(r, w, polys, k);
    IndexedValues(r, w.quorum);
    var shares := Epochs.AfterDkg(r.curve(k), polys[k], w.threshold).shares;
    forall q | q in w.quorum
      ensures SharesOf(r, w, w.quorum, k)[r.index[q]] == shares[r.index[q]]
    {
      GeneratedShare(r, w, polys, k, q);
    }
    SameByIndex(r, w.quorum, SharesOf(r, w, w.quorum, k), shares);
  }

  lemma GeneratedWorld(r: Roster, w: World, polys: Generated)
    requires AfterKeyGeneration(r, w, polys)
    ensures WorldInv(r, w, Secrets(r, polys, w.threshold))
  {
    hide AllTypes;
    hide Epochs.Shares;
    hide RosterOk;
    hide SharesOf;
    forall k | k in AllTypes()
      ensures SharesKey(r, w, k, Secret(r, polys, w.threshold, k))
    {
      assert Generates(r, w, polys, k);
      GeneratedKey(r, w, polys, k);
      GeneratedShares(r, w, polys, k);
      Epochs.DkgShares(r.curve(k), polys[k], w.threshold);
    }
    forall q | q in w.quorum
      ensures Provided(w.machines[q])
    {
      SomeType();
      var k :| k in AllTypes();
      assert Generates(r, w, polys, k);
    }
  }

  lemma SomeType()
    ensures OPRFSecp256k1 in AllTypes()
  {
  }

  // ---------- the promise ----------

  /** A key generation, then one event after the other. */
  ghost predicate History(r: Roster, polys: Generated, worlds: seq<World>, events: seq<Event>) {
    && |worlds| == |events| + 1
    && AfterKeyGeneration(r, worlds[0], polys)
    && forall i :: Happens(r, worlds, events, i)
  }

  lemma {:induction false} EveryWorld(r: Roster, polys: Generated, worlds: seq<World>, events: seq<Event>, i: nat)
    requires History(r, polys, worlds, events) && i < |worlds|
    ensures WorldInv(r, worlds[i], Secrets(r, polys, worlds[0].threshold))
  {
    hide WorldInv;
    hide AfterKeyGeneration;
    hide Possible;
    hide Then;
    hide Secrets;
    if i == 0 {
      GeneratedWorld(r, worlds[0], polys);
    } else {
      EveryWorld(r, polys, worlds, events, i - 1);
      assert Happens(r, worlds, events, i - 1);
      EventKeeps(r, worlds[i - 1], events[i - 1], Secrets(r, polys, worlds[0].threshold));
    }
  }

  /** The network's promise, kept by the actors: whenever the relay re-elects, whatever
      the order in which messages are delivered, and whoever restarts, any members of
      the current quorum that are as many as its threshold hold the secret that the
      key generation made, and the key that the relay announces is its key. */
  lemma SecretEndures(r: Roster, polys: Generated, worlds: seq<World>, events: seq<Event>, i: nat, k: KeyType, members: set<Peer>)
    requires History(r, polys, worlds, events) && i < |worlds| && k in AllTypes()
    requires members <= worlds[i].quorum && |members| >= worlds[i].threshold
    ensures RosterOk(r) && worlds[i].quorum <= r.index.Keys == worlds[i].machines.Keys
    ensures var secret := Secret(r, polys, worlds[0].threshold, k); var shares := SharesOf(r, worlds[i], members, k);
            && SharesKey(r, worlds[i], k, secret)
            && IndexSet(shares.Keys) && Sum(Additive(r.curve(k), shares)) % r.curve(k) == secret
  {
    hide History;
    hide AllTypes;
    hide Epochs.Shares;
    hide SharesOf;
    hide RosterOk;
    hide Additive;
    var secret := Secret(r, polys, worlds[0].threshold, k);
    EveryWorld(r, polys, worlds, events, i);
    assert SharesKey(r, worlds[i], k, secret);
    var w := worlds[i];
    var c, e := Choice(members, {}, 0), Epochs.Epoch(w.threshold, SharesOf(r, w, w.quorum, k), secret);
    TstarShares(r, w, c, k, secret);
    Epochs.PartReconstructs(r.curve(k), e, Indexed(r, members).Values, secret);
  }

  // ---------- nothing above is vacuous ----------

  /** A member's node after an honest key generation. */
  ghost function FirstNode(p: Modulus, polys: map<nat, seq<int>>, t: nat, i: nat): Node
    requires Dealt(polys, t) && i in polys
  {
    Node(i, polys[i][0] % p, Eval(p, SumPoly(polys, t), i), Eval(p, SumPoly(polys, t), 0), Eval(p, polys[i], i))
  }

  ghost predicate Deals(r: Roster, quorum: set<Peer>, polys: Generated, t: nat) {
    && RosterOk(r) && quorum <= r.index.Keys
    && forall k :: k in AllTypes() ==> k in polys && Dealt(polys[k], t) && polys[k].Keys == Indexed(r, quorum).Values
  }

  ghost function FirstEngine(r: Roster, quorum: set<Peer>, polys: Generated, t: nat, q: Peer): Engine
    requires Deals(r, quorum, polys, t) && q in quorum
  {
    IndexedValues(r, quorum);
    Engine(r.index[q], q, map k | k in AllTypes() :: NodeData(FirstNode(r.curve(k), polys[k], t, r.index[q]), map[], map[], map[]),
           map[], Indexed(r, quorum), t, map[], None)
  }

  /** The network after an honest key generation with these polynomials. */
  ghost function FirstWorld(r: Roster, quorum: set<Peer>, polys: Generated, t: nat): (w: World)
    requires Deals(r, quorum, polys, t)
  {
    World(map q | q in r.index :: Machine(if q in quorum then Some(FirstEngine(r, quorum, polys, t, q)) else None, map[]),
          quorum, t, Secrets(r, polys, t))
  }

  lemma FirstMember(p: Modulus, polys: map<nat, seq<int>>, t: nat, i: nat)
    requires Dealt(polys, t) && i in polys
    ensures MemberOf(p, polys, t, FirstNode(p, polys, t, i))
  {
    hide Dkg.Round2;
    hide Eval;
    hide SumPoly;
    hide IndexSet;
    hide Power;
    var before := FirstNode(p, polys, t, i);
    HonestRound2(p, polys, t, before);
    assert FromRound2(p, polys, t, before, before);
  }

  lemma FirstMachine(r: Roster, quorum: set<Peer>, polys: Generated, t: nat, q: Peer, k: KeyType)
    requires Deals(r, quorum, polys, t) && q in quorum && k in AllTypes()
    ensures q in r.index && Completed(r, FirstWorld(r, quorum, polys, t).machines[q], polys, t, k)
    ensures Reports(FirstWorld(r, quorum, polys, t).machines[q], k, Secret(r, polys, t, k))
  {
    hide RosterOk;
    hide Dealt;
    hide Eval;
    hide MemberOf;
    hide AllTypes;
    hide Indexed;
    IndexedValues(r, quorum);
    FirstMember(r.curve(k), polys[k], t, r.index[q]);
  }

  lemma FirstShape(r: Roster, quorum: set<Peer>, polys: Generated, t: nat, k: KeyType)
    requires Deals(r, quorum, polys, t) && k in AllTypes()
    ensures var w := FirstWorld(r, quorum, polys, t);
            && w.machines.Keys == r.index.Keys && w.quorum == quorum && w.threshold == t
            && k in w.groupKeys && w.groupKeys[k] == Secret(r, polys, t, k)
  {
    hide RosterOk;
    hide Dealt;
    hide Secret;
    hide AllTypes;
    hide Indexed;
    hide FirstEngine;
  }

  lemma FirstGenerates(r: Roster, quorum: set<Peer>, polys: Generated, t: nat, k: KeyType, w: World)
    requires Deals(r, quorum, polys, t) && quorum != {} && k in AllTypes()
    requires w == FirstWorld(r, quorum, polys, t)
    ensures w.machines.Keys == r.index.Keys && Generates(r, w, polys, k)
  {
    hide RosterOk;
    hide Dealt;
    hide Secret;
    hide Completed;
    hide Reports;
    hide AllTypes;
    hide Indexed;
    hide FirstWorld;
    FirstShape(r, quorum, polys, t, k);
    forall q | q in quorum
      ensures Completed(r, w.machines[q], polys, t, k) && Reports(w.machines[q], k, Secret(r, polys, t, k))
    {
      FirstMachine(r, quorum, polys, t, q, k);
    }
    var q :| q in quorum;
  }

  lemma FirstIdentified(r: Roster, quorum: set<Peer>, polys: Generated, t: nat, q: Peer)
    requires Deals(r, quorum, polys, t) && q in r.index
    ensures Identified(r, q, FirstWorld(r, quorum, polys, t).machines[q].engine)
  {
    hide RosterOk;
    hide Dealt;
    hide Eval;
    hide AllTypes;
    hide Indexed;
    hide SumPoly;
  }

  /** Whatever polynomials a quorum deals, the key generation makes such a network. */
  lemma KeyGenerationCompletes(r: Roster, quorum: set<Peer>, polys: Generated, t: nat)
    requires Deals(r, quorum, polys, t) && quorum != {}
    ensures AfterKeyGeneration(r, FirstWorld(r, quorum, polys, t), polys)
  {
    hide Generates;
    hide AllTypes;
    hide Indexed;
    hide Identified;
    hide Dealt;
    hide RosterOk;
    hide FirstEngine;
    hide Secrets;
    var w := FirstWorld(r, quorum, polys, t);
    SomeType();
    AtLeastOne(r, quorum, polys, t);
    assert w.quorum == quorum && w.threshold == t && w.machines.Keys == r.index.Keys && RosterOk(r);
    forall q | q in w.machines
      ensures Identified(r, q, w.machines[q].engine)
    {
      FirstIdentified(r, quorum, polys, t, q);
    }
    forall k | k in AllTypes()
      ensures Generates(r, w, polys, k)
    {
      FirstGenerates(r, quorum, polys, t, k, w);
    }
  }

  lemma AtLeastOne(r: Roster, quorum: set<Peer>, polys: Generated, t: nat)
    requires Deals(r, quorum, polys, t)
    ensures t >= 1
  {
    hide RosterOk;
    SomeType();
  }

  ghost function Announcement(w: World, c: Choice): State
    requires c.tstar + c.quorum <= w.machines.Keys
  {
    State(Relay(Enumerate(c.tstar), Enumerate(c.quorum), {}, {}, {}, {}), multiset{},
          map q | q in c.tstar + c.quorum ::
            Prover(multiset{ReElectedProvers}, None, [], w.machines[q].engine, w.machines[q].stored),
          {ReElectedProvers}, map[], false)
  }

  lemma Enumerated(peers: set<Peer>)
    ensures Members(Enumerate(peers)) == peers && NoDuplicates(Enumerate(peers))
  {
    EnumerationMembers(Enumerate(peers), peers);
    hide Enumerate;
    assert Members(Enumerate(peers)) == peers;
  }

  lemma AnnouncementBegins(w: World, c: Choice)
    requires c.tstar + c.quorum <= w.machines.Keys
    ensures Begins(w, c, Announcement(w, c))
  {
    hide Enumerate;
    hide Members;
    hide NoDuplicates;
    Enumerated(c.tstar);
    Enumerated(c.quorum);
    assert Announcement(w, c).relay == Relay(Enumerate(c.tstar), Enumerate(c.quorum), {}, {}, {}, {});
  }

  lemma ChoiceSized(r: Roster, w: World, c: Choice)
    requires RosterOk(r) && Admits(r, w, c) && ValidSize(c.threshold, |c.tstar|, true) && ValidSize(c.threshold, |c.quorum|, false)
    ensures Sized(SetupOf(r, w, c))
  {
    hide RosterOk;
    hide SharesOf;
    hide Power;
    var tstar, quorum := Indexed(r, c.tstar), Indexed(r, c.quorum);
    assert |tstar| == |tstar.Keys| && |quorum| == |quorum.Keys|;
  }

  /** Whatever the relay chooses, if the sizes are valid, the attempt can be carried to
      its end: unless messages are lost, the history goes on. */
  lemma AttemptFinishes(r: Roster, w: World, c: Choice, secrets: map<KeyType, int>) returns (e: Event)
    requires WorldInv(r, w, secrets) && Admits(r, w, c)
    requires ValidSize(c.threshold, |c.tstar|, true) && ValidSize(c.threshold, |c.quorum|, false)
    ensures e.Resharing? && e.choice == c && Possible(r, w, e)
  {
    hide WorldInv;
    hide RosterOk;
    hide SetupOk;
    hide SetupOf;
    hide Start;
    hide Sized;
    hide Begins;
    hide OwnIndices;
    hide Steps;
    hide Lossless;
    hide Finished;
    hide AnnouncesShares;
    WorldRoster(r, w, secrets);
    var g, s := SetupOf(r, w, c), Announcement(w, c);
    AnnouncementBegins(w, c);
    AttemptBegins(r, w, c, s, secrets);
    ChoiceSized(r, w, c);
    JustStarted(g, s);
    var states, steps := EndsPrepared(g, [s], []);
    SetupIndices(g);
    FinishedRun(g, states[|steps|]);
    assert states[0] == s;
    e := Resharing(c, states, steps);
  }

  lemma WorldRoster(r: Roster, w: World, secrets: map<KeyType, int>)
    requires WorldInv(r, w, secrets)
    ensures RosterOk(r)
  {
    hide RosterOk;
  }

  lemma JustStarted(g: Setup, s: State)
    requires Start(g, s)
    ensures IsRun(g, [s], []) && AllLossless([])
  {
    hide Start;
    hide Enabled;
    hide Next;
  }

  lemma FinishedRun(g: Setup, s: State)
    requires OwnIndices(g) && StartResharingRound3 in s.log && forall q :: q in g.attempt.quorum ==> AnnouncesShares(g, s, q)
    ensures Finished(g, s)
  {
    hide OwnIndices;
    hide NewShares;
    hide Idx;
    forall q | q in g.attempt.quorum
      ensures IsPrepared(g, s.log, q)
    {
      OwnIndex(g, q);
      assert AnnouncesShares(g, s, q);
    }
  }

  /** Three provers that keep the quorum, with threshold 2 and nothing in memory. */
  ghost function SmallSetup(p: Modulus): Setup {
    var members: map<nat, nat> := map[1 := 1, 2 := 2, 3 := 3];
    var shares: map<nat, int> := map[1 := 0, 2 := 0, 3 := 0];
    Setup(Attempt(members, members, 2, map k | k in AllTypes() :: 0), _ => p, map k | k in AllTypes() :: shares)
  }

  ghost function SmallStart(p: Modulus): State {
    State(Relay([1, 2, 3], [1, 2, 3], {}, {}, {}, {}), multiset{},
          map q | q in Participants(SmallSetup(p)) ::
            Prover(multiset{ReElectedProvers}, None, [], None, map k | k in AllTypes() :: 0),
          {ReElectedProvers}, map[], false)
  }

  lemma SmallKeys(p: Modulus, k: KeyType)
    requires k in AllTypes()
    ensures KeyMatches(SmallSetup(p), k)
  {
    hide Sum;
    hide Lagrange;
    var g := SmallSetup(p);
    SmallValues(p);
    var shares: map<nat, int> := g.shares[k];
    assert shares.Keys == {1, 2, 3};
    forall i | i in shares
      ensures Additive(p, shares)[i] == 0
    {
      assert shares[i] == 0;
    }
    Epochs.SumZero(Additive(p, shares));
    ModUnique(p, 0, 0, 0);
  }

  lemma SmallValues(p: Modulus)
    ensures Dealers(SmallSetup(p)) == NewMembers(SmallSetup(p)) == {1, 2, 3}
  {
    var members: map<nat, nat> := map[1 := 1, 2 := 2, 3 := 3];
    assert members[1] == 1 && members[2] == 2 && members[3] == 3;
    assert members.Values == {1, 2, 3};
  }

  /** The assumptions of an attempt can be met. */
  lemma AttemptsExist(p: Modulus)
    ensures SetupOk(SmallSetup(p)) && Sized(SmallSetup(p)) && Start(SmallSetup(p), SmallStart(p))
  {
    hide Start;
    hide OwnIndices;
    hide Sized;
    hide SmallStart;
    var g := SmallSetup(p);
    SmallValues(p);
    SmallSizes(p);
    SmallStarts(p);
    forall k | k in AllTypes()
      ensures KeyMatches(g, k)
    {
      SmallKeys(p, k);
    }
    hide KeyMatches;
    forall j | j in NewMembers(g)
      ensures Power(j, 1) < TWO_128
    {
      assert Power(j, 1) == j * Power(j, 0);
    }
  }

  lemma SmallSizes(p: Modulus)
    ensures Sized(SmallSetup(p)) && OwnIndices(SmallSetup(p))
  {
    var members: map<nat, nat> := map[1 := 1, 2 := 2, 3 := 3];
    assert members.Keys == {1, 2, 3};
    assert |members| == |members.Keys| == 3;
  }

  lemma SmallStarts(p: Modulus)
    ensures Start(SmallSetup(p), SmallStart(p))
  {
    var g, s := SmallSetup(p), SmallStart(p);
    assert Members([1, 2, 3]) == {1, 2, 3};
    assert s.relay == Relay([1, 2, 3], [1, 2, 3], {}, {}, {}, {});
    forall q | q in s.provers
      ensures EngineBefore(g, q, s.provers[q].engine, s.provers[q].stored)
    {
      assert forall k, i :: OldShare(g, k, i) == 0;
    }
    hide EngineBefore;
  }
}
