/** Every run of a resharing attempt ends, and one that loses no message can always be
    carried on until every member of the new quorum is prepared.
 */
module Termination {
  import opened Field
  import opened Polynomial
  import opened Sums
  import opened Dkg
  import opened Election
  import opened DkgEngine
  import opened Protocol
  import opened ProtocolSafety
  import opened Barriers
  import opened ProtocolProgress

  // ---------- how much is left to do ----------

  /** What a message leads to has a lower rank. */
  function Rank(m: Gossip): nat {
    match m
    case ReElectedProvers => 19
    case ReElectionReport(_) => 18
    case StartResharingInit => 17
    case InitCompleted(_) => 15
    case StartResharingRound1 => 14
    case Round1Out(_, _) => 11
    case Round1Completed(_) => 9
    case StartResharingRound2 => 8
    case Round2Out(_, _) => 5
    case Round2Completed(_) => 3
    case StartResharingRound3 => 2
    case Prepared(_, _, _) => 0
  }

  function CommandRank(c: Command): nat {
    match c
    case ClearShares => 0
    case ResharingInit(_, _, _) => 16
    case StartRound1 => 13
    case RunRound1(_, _) => 12
    case StoreRound1Out(_, _) => 10
    case StartRound2 => 7
    case RunRound2 => 6
    case StorePubshares(_, _) => 4
    case StartRound3 => 1
    case RunRound3 => 0
  }

  /** More than all that a message of this rank can lead to among n provers. */
  function Weight(n: nat, rank: nat): (w: nat)
    ensures w >= 1
  {
    if rank == 0 then 1 else 1 + (n + 2) * Weight(n, rank - 1)
  }

  lemma {:induction false} Below(n: nat, low: nat, high: nat)
    requires low < high
    ensures (n + 2) * Weight(n, low) < Weight(n, high)
    decreases high
  {
    if low < high - 1 {
      Below(n, low, high - 1);
      Grows(n, Weight(n, high - 1));
    }
  }

  lemma Grows(n: nat, w: nat)
    ensures w <= (n + 2) * w
  {
  }

  ghost function PendingLoad(n: nat, ms: multiset<Gossip>): nat
    decreases |ms|
  {
    if ms == multiset{} then 0
    else
      var m :| m in ms;
      Weight(n, Rank(m)) + PendingLoad(n, ms - multiset{m})
  }

  lemma PendingPick(n: nat, ms: multiset<Gossip>) returns (m: Gossip)
    requires ms != multiset{}
    ensures m in ms && PendingLoad(n, ms) == Weight(n, Rank(m)) + PendingLoad(n, ms - multiset{m})
  {
    hide Weight;
    hide Rank;
    m :| m in ms && PendingLoad(n, ms) == Weight(n, Rank(m)) + PendingLoad(n, ms - multiset{m});
  }

  lemma {:induction false} PendingRemove(n: nat, ms: multiset<Gossip>, m: Gossip)
    requires m in ms
    ensures PendingLoad(n, ms) == Weight(n, Rank(m)) + PendingLoad(n, ms - multiset{m})
    decreases |ms|
  {
    hide Weight;
    hide Rank;
    hide PendingLoad;
    var j := PendingPick(n, ms);
    if j != m {
      PendingRemove(n, ms - multiset{j}, m);
      PendingRemove(n, ms - multiset{m}, j);
      assert ms - multiset{j} - multiset{m} == ms - multiset{m} - multiset{j};
    }
  }

  lemma PendingAdd(n: nat, ms: multiset<Gossip>, m: Gossip)
    ensures PendingLoad(n, ms + multiset{m}) == Weight(n, Rank(m)) + PendingLoad(n, ms)
  {
    PendingRemove(n, ms + multiset{m}, m);
    assert ms + multiset{m} - multiset{m} == ms;
  }

  function MailLoad(n: nat, mailbox: seq<Command>): nat {
    if mailbox == [] then 0 else Weight(n, CommandRank(mailbox[0])) + MailLoad(n, mailbox[1..])
  }

  lemma {:induction false} MailAppend(n: nat, a: seq<Command>, b: seq<Command>)
    ensures MailLoad(n, a + b) == MailLoad(n, a) + MailLoad(n, b)
  {
    if a == [] {
      assert a + b == b;
    } else {
      assert (a + b)[1..] == a[1..] + b;
      MailAppend(n, a[1..], b);
    }
  }

  ghost function ProverLoad(n: nat, p: Prover): nat {
    PendingLoad(n, p.pending) + MailLoad(n, p.mailbox)
  }

  ghost function Loads(n: nat, provers: map<Peer, Prover>): (m: map<nat, int>)
    ensures m.Keys == provers.Keys
  {
    map q | q in provers :: ProverLoad(n, provers[q])
  }

  /** Everything that is under way in a state. */
  ghost function Load(n: nat, s: State): int {
    PendingLoad(n, s.toRelay) + Sum(Loads(n, s.provers))
  }

  lemma {:induction false} SumNonNegative(m: map<nat, int>)
    requires forall k :: k in m ==> m[k] >= 0
    ensures Sum(m) >= 0
    decreases |m|
  {
    if m != map[] {
      var k :| k in m && Sum(m) == m[k] + Sum(m - {k});
      SumNonNegative(m - {k});
    }
  }

  lemma LoadNonNegative(n: nat, s: State)
    ensures Load(n, s) >= 0
  {
    hide ProverLoad;
    SumNonNegative(Loads(n, s.provers));
  }

  /** A change on one prover. */
  lemma LoadUpdate(n: nat, provers: map<Peer, Prover>, q: Peer, p: Prover)
    requires q in provers
    ensures Sum(Loads(n, provers[q := p])) == Sum(Loads(n, provers)) - ProverLoad(n, provers[q]) + ProverLoad(n, p)
  {
    hide ProverLoad;
    var a, b := Loads(n, provers), Loads(n, provers[q := p]);
    SumRemove(a, q);
    SumRemove(b, q);
    assert a - {q} == b - {q};
  }

  lemma {:induction false} SumBound(a: map<nat, int>, b: map<nat, int>, d: nat)
    requires a.Keys == b.Keys && forall k :: k in a ==> b[k] <= a[k] + d
    ensures Sum(b) <= Sum(a) + |a| * d
    decreases |a|
  {
    if a == map[] {
      assert b == map[];
    } else {
      assert a.Keys != {};
      var k :| k in a.Keys;
      SumRemove(a, k);
      SumRemove(b, k);
      SumBound(a - {k}, b - {k}, d);
      assert |a - {k}| == |(a - {k}).Keys| == |a.Keys| - 1 == |a| - 1;
      assert (|a| - 1) * d + d == |a| * d;
    }
  }

  // ---------- publishing ----------

  /** What publishing a message can add. */
  ghost function Cost(n: nat, m: Gossip): nat {
    if ForRelay(m) then Weight(n, Rank(m)) else if ForProvers(m) then n * Weight(n, Rank(m)) else 0
  }

  ghost function Costs(n: nat, ms: seq<Gossip>): nat {
    if ms == [] then 0 else Cost(n, ms[0]) + Costs(n, ms[1..])
  }

  lemma PostLoad(n: nat, p: Prover, m: Gossip)
    ensures ProverLoad(n, Post(p, m)) == ProverLoad(n, p) + Weight(n, Rank(m))
  {
    hide Weight;
    hide Rank;
    PendingAdd(n, p.pending, m);
  }

  lemma PublishLoads(n: nat, provers: map<Peer, Prover>, provers': map<Peer, Prover>, m: Gossip)
    requires provers'.Keys == provers.Keys && n == |provers|
    requires forall q :: q in provers ==> provers'[q] == provers[q] || provers'[q] == Post(provers[q], m)
    ensures Sum(Loads(n, provers')) <= Sum(Loads(n, provers)) + n * Weight(n, Rank(m))
  {
    hide Weight;
    hide Rank;
    hide ProverLoad;
    hide Post;
    hide Sum;
    var loads := Loads(n, provers);
    forall q | q in provers
      ensures ProverLoad(n, provers'[q]) <= ProverLoad(n, provers[q]) + Weight(n, Rank(m))
    {
      PostLoad(n, provers[q], m);
    }
    SumBound(loads, Loads(n, provers'), Weight(n, Rank(m)));
    assert |loads| == |loads.Keys| == |provers.Keys| == n;
  }

  lemma PublishLoad(n: nat, s: State, from: Option<Peer>, m: Gossip)
    requires n == |s.provers|
    ensures Load(n, Publish(s, from, m)) <= Load(n, s) + Cost(n, m) && Publish(s, from, m).provers.Keys == s.provers.Keys
  {
    hide Weight;
    hide Rank;
    hide PendingLoad;
    hide Loads;
    hide Sum;
    hide Post;
    if ForRelay(m) {
      PendingAdd(n, s.toRelay, m);
    } else if ForProvers(m) {
      PublishLoads(n, s.provers, Publish(s, from, m).provers, m);
    }
  }

  lemma {:induction false} PublishAllLoad(n: nat, s: State, from: Option<Peer>, ms: seq<Gossip>)
    requires n == |s.provers|
    ensures Load(n, PublishAll(s, from, ms)) <= Load(n, s) + Costs(n, ms) && PublishAll(s, from, ms).provers.Keys == s.provers.Keys
    decreases |ms|
  {
    hide Publish;
    hide Load;
    hide Cost;
    if ms != [] {
      PublishLoad(n, s, from, ms[0]);
      assert |Publish(s, from, ms[0]).provers| == |Publish(s, from, ms[0]).provers.Keys| == |s.provers.Keys|;
      PublishAllLoad(n, Publish(s, from, ms[0]), from, ms[1..]);
    }
  }

  lemma OneCost(n: nat, m: Gossip, rank: nat)
    requires Rank(m) < rank && (ForRelay(m) || n >= 1)
    ensures Costs(n, [m]) < Weight(n, rank)
  {
    hide Weight;
    hide Rank;
    Below(n, Rank(m), rank);
    Shares3(n, Weight(n, Rank(m)));
    assert Costs(n, [m]) == Cost(n, m) + Costs(n, []);
  }

  lemma Shares3(n: nat, w: nat)
    ensures w + n * w + w == (n + 2) * w
    ensures 0 <= n * w
  {
  }

  lemma TwoCosts(n: nat, m: Gossip, report: Gossip, rank: nat)
    requires Rank(report) <= Rank(m) < rank && ForRelay(report) && ForProvers(m)
    ensures Costs(n, [m] + [report]) < Weight(n, rank)
  {
    hide Rank;
    Below(n, Rank(m), rank);
    if Rank(report) < Rank(m) {
      Below(n, Rank(report), Rank(m));
      Grows(n, Weight(n, Rank(report)));
    }
    hide Weight;
    Shares3(n, Weight(n, Rank(m)));
    assert ([m] + [report])[1..] == [report];
    assert Costs(n, [report]) == Cost(n, report) + Costs(n, []);
  }

  lemma OneMail(n: nat, c: Command, rank: nat)
    requires CommandRank(c) < rank
    ensures MailLoad(n, [c]) < Weight(n, rank)
  {
    hide Weight;
    hide CommandRank;
    Below(n, CommandRank(c), rank);
    Grows(n, Weight(n, CommandRank(c)));
    assert MailLoad(n, [c]) == Weight(n, CommandRank(c)) + MailLoad(n, []);
  }

  // ---------- every step takes something away ----------

  /** What an effect consists of: one message to the engine itself, or gossip of which
      at most one goes to every prover. */
  predicate LeadsLower(effect: Effect, rank: nat) {
    || (effect.casts == [] && effect.gossip == [])
    || (|effect.casts| == 1 && effect.gossip == [] && CommandRank(effect.casts[0]) < rank)
    || (effect.casts == [] && |effect.gossip| == 1 && (effect.gossip[0].Prepared? || Rank(effect.gossip[0]) < rank))
    || (effect.casts == [] && |effect.gossip| == 2 && ForProvers(effect.gossip[0]) && ForRelay(effect.gossip[1])
          && Rank(effect.gossip[1]) <= Rank(effect.gossip[0]) < rank)
  }

  lemma HandleLeadsLower(curve: Curves, e: Option<Engine>, c: Command, stored: map<KeyType, int>, drawn: KeyType -> int,
      random: map<KeyType, seq<int>>)
    requires (c.RunRound1? || c.RunRound3?) && e.Some? ==> EngineOk(e.value)
    requires c.RunRound1? && e.Some? ==> random.Keys == e.value.nodes.Keys
    requires c.RunRound1? && c.threshold >= 1 ==> forall k :: k in random ==> |random[k]| == c.threshold
    ensures LeadsLower(Handle(curve, e, c, stored, drawn, random), CommandRank(c))
  {
    hide EngineOk;
    hide DealsOf;
    hide Registered;
    hide DkgEngine.DealerPolys;
    hide Round1Ready;
    hide Round2Ready;
    hide Round2Passes;
    hide Round3Passes;
    hide AfterRound2;
    hide Round2Pubshares;
    hide Restored;
    hide Initialised;
    hide Reinitialised;
    hide Cleared;
    hide WithPubshares;
    hide PublicShares;
    hide ValidSize;
    if c.RunRound1? {
      Round1LeadsLower(curve, e, c.threshold, c.isReelected, random);
    } else if c.RunRound2? {
      Round2LeadsLower(curve, e);
    }
    hide HandleRound1;
    hide HandleRound2;
    hide Rank;
    assert forall peer: Peer :: Rank(InitCompleted(peer)) < 16 && Rank(Round1Completed(peer)) < 10 && Rank(Round2Completed(peer)) < 4;
  }

  lemma Round1LeadsLower(curve: Curves, e: Option<Engine>, threshold: nat, isReelected: bool, random: map<KeyType, seq<int>>)
    requires e.Some? ==> EngineOk(e.value) && random.Keys == e.value.nodes.Keys
    requires threshold >= 1 ==> forall k :: k in random ==> |random[k]| == threshold
    ensures LeadsLower(HandleRound1(curve, e, threshold, isReelected, random), 12)
  {
    hide EngineOk;
    hide DealsOf;
    hide Registered;
    hide DkgEngine.DealerPolys;
    hide Round1Ready;
    hide ValidSize;
  }

  lemma Round2LeadsLower(curve: Curves, e: Option<Engine>)
    ensures LeadsLower(HandleRound2(curve, e), 6)
  {
    hide Round2Ready;
    hide Round2Passes;
    hide AfterRound2;
    hide Round2Pubshares;
    hide ValidSize;
  }

  /** Handling a message leads to less than the message. */
  lemma EffectLoad(n: nat, effect: Effect, rank: nat)
    requires n >= 1 && LeadsLower(effect, rank)
    ensures MailLoad(n, effect.casts) + Costs(n, effect.gossip) < Weight(n, rank)
  {
    hide Weight;
    hide Costs;
    hide MailLoad;
    hide Rank;
    hide CommandRank;
    Empty(n);
    if |effect.casts| == 1 {
      assert effect.casts == [effect.casts[0]];
      OneMail(n, effect.casts[0], rank);
    } else if |effect.gossip| == 1 {
      assert effect.gossip == [effect.gossip[0]];
      if effect.gossip[0].Prepared? {
        PreparedCost(n, effect.gossip[0]);
      } else {
        OneCost(n, effect.gossip[0], rank);
      }
    } else if |effect.gossip| == 2 {
      assert effect.gossip == [effect.gossip[0]] + [effect.gossip[1]];
      TwoCosts(n, effect.gossip[0], effect.gossip[1], rank);
    }
  }

  lemma Empty(n: nat)
    ensures MailLoad(n, []) == 0 && Costs(n, []) == 0
  {
  }

  lemma PreparedCost(n: nat, m: Gossip)
    requires m.Prepared?
    ensures Costs(n, [m]) == 0
  {
    assert Costs(n, [m]) == Cost(n, m) + Costs(n, []);
  }

  lemma RelayLoad(n: nat, s: State, m: Gossip)
    requires n == |s.provers| && m in s.toRelay && ForRelay(m)
    ensures Load(n, RelayStep(s, m)) < Load(n, s) && RelayStep(s, m).provers.Keys == s.provers.Keys
  {
    hide Weight;
    hide Sum;
    hide Record;
    hide PublishAll;
    hide Costs;
    hide PendingLoad;
    var (relay', opens) := Record(s.relay, StageOf(m), m.peer);
    var ms := if opens then [NextStage(StageOf(m))] else [];
    var s' := s.(relay := relay', toRelay := s.toRelay - multiset{m});
    PublishAllLoad(n, s', None, ms);
    PendingRemove(n, s.toRelay, m);
    Empty(n);
    if opens {
      NextCost(n, m);
    }
  }

  lemma NextCost(n: nat, m: Gossip)
    requires ForRelay(m)
    ensures Costs(n, [NextStage(StageOf(m))]) < Weight(n, Rank(m))
  {
    hide Weight;
    var next := NextStage(StageOf(m));
    Below(n, Rank(next), Rank(m));
    Shares3(n, Weight(n, Rank(next)));
    assert Costs(n, [next]) == Cost(n, next) + Costs(n, []);
  }

  lemma AnnouncedLoad(n: nat, g: Setup, s: State, q: Peer)
    requires n == |s.provers| && q in s.provers && ReElectedProvers in s.provers[q].pending
    ensures Load(n, AnnouncedStep(g, s, q)) < Load(n, s) && AnnouncedStep(g, s, q).provers.Keys == s.provers.Keys
  {
    hide Sum;
    hide PublishAll;
    hide PendingLoad;
    hide Costs;
    hide MailLoad;
    var p := s.provers[q];
    var p' := p.(pending := p.pending - multiset{ReElectedProvers}, context := Some(g.attempt), mailbox := p.mailbox + [ClearShares]);
    var s' := s.(provers := s.provers[q := p']);
    assert s'.provers.Keys == s.provers.Keys && |s'.provers| == |s'.provers.Keys|;
    LoadUpdate(n, s.provers, q, p');
    PendingRemove(n, p.pending, ReElectedProvers);
    MailAppend(n, p.mailbox, [ClearShares]);
    AnnouncedCost(n, q);
    Empty(n);
    hide Weight;
    PublishAllLoad(n, s', Some(q), if q in Participants(g) then [ReElectionReport(q)] else []);
  }

  lemma AnnouncedCost(n: nat, q: Peer)
    ensures MailLoad(n, [ClearShares]) + Costs(n, [ReElectionReport(q)]) < Weight(n, Rank(ReElectedProvers))
  {
    assert Costs(n, [ReElectionReport(q)]) == Cost(n, ReElectionReport(q)) + Costs(n, []);
    assert MailLoad(n, [ClearShares]) == Weight(n, 0) + MailLoad(n, []);
    Below(n, 18, 19);
    Below(n, 0, 18);
    hide Weight;
    Grows(n, Weight(n, 0));
    Shares3(n, Weight(n, 18));
    assert Weight(n, 18) > Weight(n, 0);
  }

  /** A message that goes to the mailbox of the prover it was sent to, or is lost. */
  lemma TakenLoad(n: nat, s: State, q: Peer, m: Gossip, casts: seq<Command>)
    requires n == |s.provers| && q in s.provers && m in s.provers[q].pending && MailLoad(n, casts) < Weight(n, Rank(m))
    ensures var p := s.provers[q]; var s' := s.(provers := s.provers[q := p.(pending := p.pending - multiset{m}, mailbox := p.mailbox + casts)]);
            Load(n, s') < Load(n, s) && s'.provers.Keys == s.provers.Keys
  {
    hide Weight;
    hide Rank;
    hide Sum;
    hide PendingLoad;
    hide MailLoad;
    var p := s.provers[q];
    LoadUpdate(n, s.provers, q, p.(pending := p.pending - multiset{m}, mailbox := p.mailbox + casts));
    PendingRemove(n, p.pending, m);
    MailAppend(n, p.mailbox, casts);
  }

  lemma StartInitLoad(n: nat, s: State, q: Peer)
    requires n == |s.provers| && q in s.provers && StartResharingInit in s.provers[q].pending
    ensures Load(n, StartInitStep(s, q)) < Load(n, s) && StartInitStep(s, q).provers.Keys == s.provers.Keys
  {
    hide Weight;
    hide Load;
    hide MailLoad;
    var p := s.provers[q];
    var casts := if p.context.None? then []
                 else if q in p.context.value.tstar then [ResharingInit(p.context.value.tstar[q], q, p.context.value)]
                 else if q in p.context.value.quorum then [ResharingInit(p.context.value.quorum[q], q, p.context.value)]
                 else [];
    Empty(n);
    if casts != [] {
      OneMail(n, casts[0], 17);
    }
    TakenLoad(n, s, q, StartResharingInit, casts);
  }

  lemma DeliverLoad(n: nat, s: State, q: Peer, m: Gossip)
    requires n == |s.provers| && q in s.provers && m in s.provers[q].pending && ForEngine(m)
    ensures Load(n, DeliverStep(s, q, m)) < Load(n, s) && DeliverStep(s, q, m).provers.Keys == s.provers.Keys
  {
    hide Weight;
    hide Load;
    OneMail(n, ToCommand(m), Rank(m));
    TakenLoad(n, s, q, m, [ToCommand(m)]);
  }

  lemma LoseLoad(n: nat, s: State, q: Peer, m: Gossip)
    requires n == |s.provers| && q in s.provers && m in s.provers[q].pending
    ensures Load(n, LoseStep(s, q, m)) < Load(n, s) && LoseStep(s, q, m).provers.Keys == s.provers.Keys
  {
    hide Weight;
    hide Load;
    Empty(n);
    TakenLoad(n, s, q, m, []);
    assert s.provers[q].mailbox + [] == s.provers[q].mailbox;
  }

  lemma AppliedLoad(n: nat, s: State, q: Peer, effect: Effect, polys: Polys)
    requires n == |s.provers| && q in s.provers && s.provers[q].mailbox != []
    ensures Load(n, Applied(s, q, effect, polys)) == Load(n, s) + MailLoad(n, effect.casts) - Weight(n, CommandRank(s.provers[q].mailbox[0]))
    ensures Applied(s, q, effect, polys).provers.Keys == s.provers.Keys
  {
    hide Weight;
    hide CommandRank;
    hide Sum;
    hide PendingLoad;
    var p := s.provers[q];
    LoadUpdate(n, s.provers, q, p.(engine := effect.state, mailbox := p.mailbox[1..] + effect.casts));
    assert MailLoad(n, p.mailbox) == Weight(n, CommandRank(p.mailbox[0])) + MailLoad(n, p.mailbox[1..]);
    MailAppend(n, p.mailbox[1..], effect.casts);
  }

  lemma EngineLoad(n: nat, g: Setup, s: State, q: Peer, drawn: KeyType -> int, random: map<KeyType, seq<int>>)
    requires n == |s.provers| && q in s.provers && CanHandle(s.provers[q], random)
    ensures Load(n, EngineStep(g, s, q, drawn, random)) < Load(n, s) && EngineStep(g, s, q, drawn, random).provers.Keys == s.provers.Keys
  {
    hide Weight;
    hide Load;
    hide PublishAll;
    hide Handle;
    hide EngineOk;
    hide Applied;
    hide WithDeal;
    hide Costs;
    hide MailLoad;
    hide LeadsLower;
    hide CommandRank;
    var p := s.provers[q];
    var effect := Handle(g.curve, p.engine, p.mailbox[0], p.stored, drawn, random);
    var polys := WithDeal(g, p, effect, random, s.polys);
    assert n >= 1 by {
      assert s.provers.Keys != {} && |s.provers| == |s.provers.Keys|;
    }
    HandleLeadsLower(g.curve, p.engine, p.mailbox[0], p.stored, drawn, random);
    EffectLoad(n, effect, CommandRank(p.mailbox[0]));
    AppliedLoad(n, s, q, effect, polys);
    var s' := Applied(s, q, effect, polys);
    assert |s'.provers| == |s'.provers.Keys| == |s.provers.Keys|;
    PublishAllLoad(n, s', Some(q), effect.gossip);
  }

  lemma ReportLostLoad(n: nat, s: State, m: Gossip)
    requires m in s.toRelay
    ensures Load(n, s.(toRelay := s.toRelay - multiset{m})) < Load(n, s)
  {
    hide Weight;
    hide Sum;
    PendingRemove(n, s.toRelay, m);
  }

  /** Every step, of whatever kind and from whatever state, leaves less to do. */
  lemma StepLoad(n: nat, g: Setup, s: State, step: Step)
    requires n == |s.provers| && Enabled(g, s, step)
    ensures Load(n, Next(g, s, step)) < Load(n, s) && Next(g, s, step).provers.Keys == s.provers.Keys
  {
    hide Load;
    hide RelayStep;
    hide AnnouncedStep;
    hide StartInitStep;
    hide DeliverStep;
    hide EngineStep;
    hide LoseStep;
    hide CanHandle;
    match step
    case RelayHandles(m) => RelayLoad(n, s, m);
    case Announced(q) => AnnouncedLoad(n, g, s, q);
    case InitStarted(q) => StartInitLoad(n, s, q);
    case Delivered(q, m) => DeliverLoad(n, s, q, m);
    case EngineHandles(q, drawn, random) => EngineLoad(n, g, s, q, drawn, random);
    case Lost(q, m) => LoseLoad(n, s, q, m);
    case ReportLost(m) => ReportLostLoad(n, s, m);
  }

  // ---------- every run ends ----------

  /** The most that an attempt with n participants can take. */
  function MostSteps(n: nat): nat {
    n * Weight(n, Rank(ReElectedProvers))
  }

  lemma StartLoad(g: Setup, s: State)
    requires Start(g, s)
    ensures |s.provers| == |Participants(g)| && Load(|Participants(g)|, s) <= MostSteps(|Participants(g)|)
  {
    hide Weight;
    hide Rank;
    hide EngineBefore;
    hide Members;
    hide NoDuplicates;
    hide Participants;
    var n := |Participants(g)|;
    assert |s.provers| == |s.provers.Keys|;
    forall q | q in s.provers
      ensures ProverLoad(n, s.provers[q]) == Weight(n, Rank(ReElectedProvers))
    {
      PendingAdd(n, multiset{}, ReElectedProvers);
      assert multiset{} + multiset{ReElectedProvers} == multiset{ReElectedProvers} == s.provers[q].pending;
    }
    hide Start;
    hide ProverLoad;
    var loads := Loads(n, s.provers);
    var zeros := map q | q in s.provers :: 0;
    Zeros(zeros);
    SumBound(zeros, loads, Weight(n, Rank(ReElectedProvers)));
    assert |zeros| == |zeros.Keys| == n;
  }

  lemma {:induction false} Zeros(m: map<nat, int>)
    requires forall k :: k in m ==> m[k] == 0
    ensures Sum(m) == 0
    decreases |m|
  {
    if m != map[] {
      var k :| k in m && Sum(m) == m[k] + Sum(m - {k});
      Zeros(m - {k});
    }
  }

  lemma {:induction false} RunLoad(g: Setup, states: seq<State>, steps: seq<Step>, i: nat)
    requires IsRun(g, states, steps) && i < |states|
    ensures |states[i].provers| == |Participants(g)|
    ensures Load(|Participants(g)|, states[i]) + i <= MostSteps(|Participants(g)|)
  {
    hide Load;
    hide Start;
    hide Next;
    hide Enabled;
    hide MostSteps;
    hide Participants;
    if i == 0 {
      StartLoad(g, states[0]);
    } else {
      RunLoad(g, states, steps, i - 1);
      assert Steps(g, states, steps, i - 1);
      StepLoad(|Participants(g)|, g, states[i - 1], steps[i - 1]);
      assert |states[i].provers| == |states[i].provers.Keys| == |states[i - 1].provers.Keys|;
    }
  }

  /** Every run ends, whatever is lost and in whatever order messages arrive: the
      number of its steps is bounded by the number of participants alone. */
  lemma RunsEnd(g: Setup, states: seq<State>, steps: seq<Step>)
    requires IsRun(g, states, steps)
    ensures |steps| <= MostSteps(|Participants(g)|)
  {
    hide Load;
    hide Start;
    hide Steps;
    hide MostSteps;
    RunLoad(g, states, steps, |steps|);
    LoadNonNegative(|Participants(g)|, states[|steps|]);
  }

  // ---------- no run gets stuck before the end ----------

  /** Only what a prover can take is on its way to it, and the same for the relay. */
  ghost predicate Addressed(s: State) {
    && (forall m :: m in s.toRelay ==> ForRelay(m))
    && forall q :: q in s.provers ==> ProverAddressed(s.provers[q])
  }

  ghost predicate ProverAddressed(p: Prover) {
    forall m :: m in p.pending ==> m == ReElectedProvers || ForProvers(m)
  }

  lemma PublishAddressed(s: State, from: Option<Peer>, m: Gossip)
    requires Addressed(s)
    ensures Addressed(Publish(s, from, m))
  {
    var s' := Publish(s, from, m);
    forall q | q in s'.provers
      ensures ProverAddressed(s'.provers[q])
    {
      assert ProverAddressed(s.provers[q]);
    }
  }

  lemma {:induction false} PublishAllAddressed(s: State, from: Option<Peer>, ms: seq<Gossip>)
    requires Addressed(s)
    ensures Addressed(PublishAll(s, from, ms))
    decreases |ms|
  {
    hide Addressed;
    hide Publish;
    if ms != [] {
      PublishAddressed(s, from, ms[0]);
      PublishAllAddressed(Publish(s, from, ms[0]), from, ms[1..]);
    }
  }

  /** A prover that has no more on its way than before. */
  lemma UpdateAddressed(s: State, q: Peer, s': State)
    requires Addressed(s) && s'.toRelay == s.toRelay && q in s.provers && s'.provers.Keys == s.provers.Keys
    requires s'.provers[q].pending <= s.provers[q].pending
    requires forall r :: r in s.provers && r != q ==> s'.provers[r] == s.provers[r]
    ensures Addressed(s')
  {
    assert ProverAddressed(s.provers[q]);
    assert forall m :: m in s'.provers[q].pending ==> m in s.provers[q].pending;
  }

  lemma RelayStepAddressed(s: State, m: Gossip)
    requires ForRelay(m) && Addressed(s)
    ensures Addressed(RelayStep(s, m))
  {
    hide Addressed;
    hide PublishAll;
    hide Record;
    var (relay', opens) := Record(s.relay, StageOf(m), m.peer);
    var s' := s.(relay := relay', toRelay := s.toRelay - multiset{m});
    RelayAddressed(s, s');
    PublishAllAddressed(s', None, if opens then [NextStage(StageOf(m))] else []);
  }

  lemma AnnouncedAddressed(g: Setup, s: State, q: Peer)
    requires q in s.provers && Addressed(s)
    ensures Addressed(AnnouncedStep(g, s, q))
  {
    hide Addressed;
    hide PublishAll;
    var p := s.provers[q];
    var p' := p.(pending := p.pending - multiset{ReElectedProvers}, context := Some(g.attempt), mailbox := p.mailbox + [ClearShares]);
    UpdateAddressed(s, q, s.(provers := s.provers[q := p']));
    PublishAllAddressed(s.(provers := s.provers[q := p']), Some(q), if q in Participants(g) then [ReElectionReport(q)] else []);
  }

  lemma StartInitAddressed(s: State, q: Peer)
    requires q in s.provers && Addressed(s)
    ensures Addressed(StartInitStep(s, q))
  {
    hide Addressed;
    UpdateAddressed(s, q, StartInitStep(s, q));
  }

  lemma DeliverAddressed(s: State, q: Peer, m: Gossip)
    requires q in s.provers && ForEngine(m) && Addressed(s)
    ensures Addressed(DeliverStep(s, q, m))
  {
    hide Addressed;
    hide ToCommand;
    UpdateAddressed(s, q, DeliverStep(s, q, m));
  }

  lemma LoseAddressed(s: State, q: Peer, m: Gossip)
    requires q in s.provers && Addressed(s)
    ensures Addressed(LoseStep(s, q, m))
  {
    hide Addressed;
    UpdateAddressed(s, q, LoseStep(s, q, m));
  }

  lemma NextAddressed(g: Setup, s: State, step: Step)
    requires Enabled(g, s, step) && Addressed(s)
    ensures Addressed(Next(g, s, step))
  {
    hide Addressed;
    hide CanHandle;
    hide RelayStep;
    hide AnnouncedStep;
    hide StartInitStep;
    hide DeliverStep;
    hide EngineStep;
    hide LoseStep;
    match step
    case RelayHandles(m) => RelayStepAddressed(s, m);
    case Announced(q) => AnnouncedAddressed(g, s, q);
    case InitStarted(q) => StartInitAddressed(s, q);
    case Delivered(q, m) => DeliverAddressed(s, q, m);
    case EngineHandles(q, drawn, random) => EngineAddressed(g, s, q, drawn, random);
    case Lost(q, m) => LoseAddressed(s, q, m);
    case ReportLost(m) => RelayAddressed(s, s.(toRelay := s.toRelay - multiset{m}));
  }

  lemma RelayAddressed(s: State, s': State)
    requires Addressed(s) && s'.provers == s.provers && s'.toRelay <= s.toRelay
    ensures Addressed(s')
  {
    hide ProverAddressed;
    assert forall m :: m in s'.toRelay ==> m in s.toRelay;
  }

  lemma EngineAddressed(g: Setup, s: State, q: Peer, drawn: KeyType -> int, random: map<KeyType, seq<int>>)
    requires q in s.provers && CanHandle(s.provers[q], random) && Addressed(s)
    ensures Addressed(EngineStep(g, s, q, drawn, random))
  {
    hide Addressed;
    hide PublishAll;
    hide Handle;
    hide EngineOk;
    hide WithDeal;
    var p := s.provers[q];
    var effect := Handle(g.curve, p.engine, p.mailbox[0], p.stored, drawn, random);
    var s' := Applied(s, q, effect, WithDeal(g, p, effect, random, s.polys));
    UpdateAddressed(s, q, s');
    PublishAllAddressed(s', Some(q), effect.gossip);
  }

  lemma StartAddressed(g: Setup, s: State)
    requires Start(g, s)
    ensures Addressed(s)
  {
    hide EngineBefore;
    hide Members;
    hide NoDuplicates;
  }

  lemma {:induction false} RunAddressed(g: Setup, states: seq<State>, steps: seq<Step>, i: nat)
    requires IsRun(g, states, steps) && i < |states|
    ensures Addressed(states[i])
  {
    hide Addressed;
    hide Start;
    hide Next;
    hide Enabled;
    if i == 0 {
      StartAddressed(g, states[0]);
    } else {
      RunAddressed(g, states, steps, i - 1);
      assert Steps(g, states, steps, i - 1);
      NextAddressed(g, states[i - 1], steps[i - 1]);
    }
  }

  lemma TakesPending(g: Setup, s: State, q: Peer) returns (step: Step)
    requires q in s.provers && ProverAddressed(s.provers[q]) && s.provers[q].pending != multiset{}
    ensures Enabled(g, s, step) && Lossless(step)
  {
    hide CanHandle;
    var m :| m in s.provers[q].pending;
    return if m.ReElectedProvers? then Announced(q) else if m.StartResharingInit? then InitStarted(q) else Delivered(q, m);
  }

  lemma TakesMail(g: Setup, states: seq<State>, steps: seq<Step>, i: nat, q: Peer) returns (step: Step)
    requires IsRun(g, states, steps) && i < |states| && SetupOk(g)
    requires q in states[i].provers && states[i].provers[q].mailbox != []
    ensures Enabled(g, states[i], step) && Lossless(step)
  {
    hide SetupOk;
    hide IsRun;
    hide CanHandle;
    hide AllTypes;
    var random := map k | k in AllTypes() :: seq(g.attempt.threshold, _ => 0);
    NeverBlocked(g, states, steps, i, q, random);
    return EngineHandles(q, _ => 0, random);
  }

  lemma UnderWay(s: State) returns (q: Peer)
    requires !Quiescent(s) && s.toRelay == multiset{}
    ensures q in s.provers && (s.provers[q].pending != multiset{} || s.provers[q].mailbox != [])
  {
    q :| q in s.provers && !(s.provers[q].pending == multiset{} && s.provers[q].mailbox == []);
  }

  /** As long as something is under way, some step that loses nothing can be taken. */
  lemma StepExists(g: Setup, states: seq<State>, steps: seq<Step>, i: nat) returns (step: Step)
    requires IsRun(g, states, steps) && i < |states| && SetupOk(g) && !Quiescent(states[i])
    ensures Enabled(g, states[i], step) && Lossless(step)
  {
    hide SetupOk;
    hide IsRun;
    hide Quiescent;
    hide CanHandle;
    hide ProverAddressed;
    var s := states[i];
    RunAddressed(g, states, steps, i);
    if s.toRelay != multiset{} {
      var m :| m in s.toRelay;
      return RelayHandles(m);
    }
    var q := UnderWay(s);
    if s.provers[q].mailbox != [] {
      step := TakesMail(g, states, steps, i, q);
    } else {
      step := TakesPending(g, s, q);
    }
  }

  lemma RunExtends(g: Setup, states: seq<State>, steps: seq<Step>, step: Step)
    requires IsRun(g, states, steps) && AllLossless(steps) && Lossless(step) && Enabled(g, states[|steps|], step)
    ensures IsRun(g, states + [Next(g, states[|steps|], step)], steps + [step]) && AllLossless(steps + [step])
  {
    hide Start;
    hide Next;
    hide Enabled;
    hide Lossless;
    var states', steps' := states + [Next(g, states[|steps|], step)], steps + [step];
    forall i: nat
      ensures Steps(g, states', steps', i)
    {
      assert Steps(g, states, steps, i);
      if i < |steps| {
        assert states'[i] == states[i] && states'[i + 1] == states[i + 1] && steps'[i] == steps[i];
      } else if i == |steps| {
        assert states'[i] == states[i] && steps'[i] == step;
      }
    }
  }

  /** Every run that has lost no message can be carried on to one in which nothing is
      left to deliver or to handle. */
  lemma {:induction false} RunsOn(g: Setup, states: seq<State>, steps: seq<Step>) returns (states': seq<State>, steps': seq<Step>)
    requires IsRun(g, states, steps) && AllLossless(steps) && SetupOk(g)
    ensures IsRun(g, states', steps') && AllLossless(steps') && states <= states' && steps <= steps' && Quiescent(states'[|steps'|])
    decreases MostSteps(|Participants(g)|) - |steps|
  {
    hide SetupOk;
    hide Quiescent;
    hide Start;
    hide Steps;
    hide Next;
    hide Enabled;
    hide AllLossless;
    hide MostSteps;
    RunsEnd(g, states, steps);
    if Quiescent(states[|steps|]) {
      return states, steps;
    }
    var step := StepExists(g, states, steps, |steps|);
    RunExtends(g, states, steps, step);
    RunsEnd(g, states + [Next(g, states[|steps|], step)], steps + [step]);
    states', steps' := RunsOn(g, states + [Next(g, states[|steps|], step)], steps + [step]);
  }

  /** ... at the end of which every member of the new quorum has gone through round 3
      and has announced its new shares. A run that loses nothing and cannot be carried
      on is such an end. */
  lemma EndsPrepared(g: Setup, states: seq<State>, steps: seq<Step>) returns (states': seq<State>, steps': seq<Step>)
    requires Sized(g) && IsRun(g, states, steps) && AllLossless(steps) && SetupOk(g)
    ensures IsRun(g, states', steps') && AllLossless(steps') && states <= states' && steps <= steps'
    ensures forall q :: q in g.attempt.quorum ==> AnnouncesShares(g, states'[|steps'|], q)
    ensures StartResharingRound3 in states'[|steps'|].log
    ensures (forall step :: !(Lossless(step) && Enabled(g, states[|steps|], step))) ==> states' == states
  {
    hide SetupOk;
    hide Quiescent;
    hide Sized;
    hide IsRun;
    hide Enabled;
    hide AllLossless;
    hide NewShares;
    states', steps' := RunsOn(g, states, steps);
    Lengths(g, states, steps);
    Lengths(g, states', steps');
    if !Quiescent(states[|steps|]) {
      var step := StepExists(g, states, steps, |steps|);
    } else {
      states', steps' := states, steps;
    }
    forall q | q in g.attempt.quorum
      ensures AnnouncesShares(g, states'[|steps'|], q)
      ensures StartResharingRound3 in states'[|steps'|].log
    {
      Completes(g, states', steps', |steps'|, q);
    }
    SomeMember(g);
  }

  lemma SomeMember(g: Setup)
    requires Sized(g)
    ensures exists q :: q in g.attempt.quorum
  {
    assert |g.attempt.quorum| == |g.attempt.quorum.Keys|;
    assert g.attempt.quorum.Keys != {};
  }

  ghost predicate AnnouncesShares(g: Setup, s: State, q: Peer)
    requires q in g.attempt.quorum
  {
    Prepared(g.attempt.quorum[q], q, NewShares(g, s.polys, g.attempt.quorum[q])) in s.log
  }

  lemma Lengths(g: Setup, states: seq<State>, steps: seq<Step>)
    requires IsRun(g, states, steps)
    ensures |states| == |steps| + 1
  {
    hide Start;
    hide Steps;
  }
}
