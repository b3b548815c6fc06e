/** A prover's DKG engine among peers that may send it anything, at any time and in any
    order. The state machine of module Protocol is about provers that follow the
    protocol; what is proved here needs no such assumption about the others.
 */
module EngineSafety {
  import opened Field
  import opened Polynomial
  import opened Sums
  import opened Vss
  import opened Dkg
  import opened Election
  import opened DkgEngine
  import opened DkgSoundness
  import DkgActor
  import Resharing

  /** A message, with what is random or read from disk when it is handled. */
  datatype Message = Message(command: Command, stored: map<KeyType, int>, drawn: KeyType -> int, random: map<KeyType, seq<int>>)

  /** The engine can handle the message; that it was re-elected is what it tells itself. */
  ghost predicate CanHear(e: Option<Engine>, m: Message) {
    && ((m.command.RunRound1? || m.command.RunRound3?) && e.Some? ==> EngineOk(e.value))
    && (m.command.RunRound1? && e.Some? ==>
          m.random.Keys == e.value.nodes.Keys && m.command.isReelected == (e.value.peer in e.value.newProvers))
    && (m.command.RunRound1? && m.command.threshold >= 1 ==> forall k :: k in m.random ==> |m.random[k]| == m.command.threshold)
  }

  ghost function Response(curve: Curves, e: Option<Engine>, m: Message): Effect
    requires CanHear(e, m)
  {
    Handle(curve, e, m.command, m.stored, m.drawn, m.random)
  }

  /** A round 2 that fails has updated some of the nodes. */
  ghost predicate PartOfRound2(curve: Curves, e: Engine, e': Engine) {
    && e' == e.(nodes := e'.nodes) && e'.nodes.Keys == e.nodes.Keys
    && forall k :: k in e.nodes ==>
         || e'.nodes[k] == e.nodes[k]
         || (e.threshold >= 1 && NodeRound2(curve, e, k).Ok? && e'.nodes[k] == Updated(e.nodes[k], NodeRound2(curve, e, k).value))
  }

  /** The engine handles one message. */
  ghost predicate Hears(curve: Curves, e: Option<Engine>, m: Message, e': Option<Engine>) {
    && CanHear(e, m)
    && if e.Some? && m.command.RunRound2? && Response(curve, e, m).failed
       then e'.Some? && PartOfRound2(curve, e.value, e'.value)
       else e' == Response(curve, e, m).state
  }

  /** What the actor leaves when its round 2 stops at a node that fails. */
  lemma StoppedIsPart(curve: Curves, e: Engine, done: set<KeyType>, nodes: map<KeyType, NodeData>)
    requires e.threshold >= 1 && DkgActor.Stopped(curve, e, done, nodes)
    ensures PartOfRound2(curve, e, e.(nodes := nodes))
  {
    hide NodeRound2;
    hide Updated;
  }

  // ---------- the invariant ----------

  /** The dealers an engine listens to: T*, and itself when it is one of them. */
  ghost function Sources(e: Engine): set<nat> {
    e.tstarProvers.Values + if e.peer in e.tstarProvers then {e.idx} else {}
  }

  /** What a node has received. */
  ghost predicate NodeGuarded(e: Engine, nd: NodeData) {
    && nd.node.id == e.idx
    && nd.inputY.Keys == nd.inputV.Keys <= Sources(e)
    && nd.otherPubshares.Keys <= e.newProvers.Values + {e.idx}
    && (e.peer !in e.newProvers ==> nd.inputY == map[] && nd.otherPubshares == map[])
    && (e.idx in nd.otherPubshares ==> nd.otherPubshares[e.idx] == nd.node.privateShare)
  }

  ghost predicate Guarded(e: Engine) {
    forall k :: k in e.nodes ==> NodeGuarded(e, e.nodes[k])
  }

  lemma ClearedGuarded(e: Engine, e': Engine)
    requires e'.idx == e.idx && e'.nodes == Cleared(e.nodes) && forall k :: k in e.nodes ==> e.nodes[k].node.id == e.idx
    ensures Guarded(e')
  {
  }

  lemma FreshGuarded(e: Engine)
    requires forall k :: k in e.nodes ==> exists share, key :: e.nodes[k] == FreshNode(e.idx, share, key)
    ensures Guarded(e)
  {
  }

  lemma GuardedIds(e: Engine)
    requires Guarded(e)
    ensures forall k :: k in e.nodes ==> e.nodes[k].node.id == e.idx
  {
    hide Sources;
  }

  lemma InitGuarded(e: Option<Engine>, i: nat, peer: Peer, a: Attempt, stored: map<KeyType, int>, drawn: KeyType -> int)
    requires e.Some? ==> Guarded(e.value)
    ensures var e' := HandleInit(e, i, peer, a, stored, drawn).state; e'.Some? ==> Guarded(e'.value)
  {
    hide Guarded;
    hide Cleared;
    hide ValidSize;
    hide AllTypes;
    hide FreshNode;
    if e.Some? {
      GuardedIds(e.value);
      ClearedGuarded(e.value, Reinitialised(e.value, a));
    } else {
      var r, n := Restored(i, peer, a, stored), Initialised(i, peer, a, drawn);
      if r.Some? {
        RestoredIds(i, peer, a, stored);
        ClearedGuarded(r.value, Reinitialised(r.value, a));
      }
      if n.Some? {
        FreshGuarded(n.value);
      }
    }
  }

  lemma RestoredIds(i: nat, peer: Peer, a: Attempt, stored: map<KeyType, int>)
    requires Restored(i, peer, a, stored).Some?
    ensures var r := Restored(i, peer, a, stored).value; r.idx == i && forall k :: k in r.nodes ==> r.nodes[k].node.id == i
  {
    hide AllTypes;
  }

  lemma RegisteredGuarded(e: Engine, dealer: nat, deals: Deals)
    requires Guarded(e) && dealer in Sources(e) && e.peer in e.newProvers
    ensures Guarded(e.(nodes := Registered(e.nodes, e.idx, dealer, deals)))
  {
    hide Sources;
    var e' := e.(nodes := Registered(e.nodes, e.idx, dealer, deals));
    SameSources(e, e');
    forall k | k in e'.nodes
      ensures NodeGuarded(e', e'.nodes[k])
    {
      assert NodeGuarded(e, e.nodes[k]);
    }
  }

  lemma SameSources(e: Engine, e': Engine)
    requires e' == e.(nodes := e'.nodes)
    ensures Sources(e') == Sources(e)
  {
  }

  lemma PubsharesGuarded(e: Engine, i: nat, pubshares: map<KeyType, int>)
    requires Guarded(e) && i in e.newProvers.Values && i != e.idx && e.peer in e.newProvers
    ensures Guarded(e.(nodes := WithPubshares(e.nodes, i, pubshares)))
  {
    hide Sources;
    var e' := e.(nodes := WithPubshares(e.nodes, i, pubshares));
    SameSources(e, e');
    forall k | k in e'.nodes
      ensures NodeGuarded(e', e'.nodes[k])
    {
      assert NodeGuarded(e, e.nodes[k]);
    }
  }

  lemma OneShare(curve: Curves, e: Engine, k: KeyType)
    requires k in e.nodes && e.threshold >= 1 && NodeRound2(curve, e, k).Ok?
    ensures NodeRound2(curve, e, k).value.share == NodeRound2(curve, e, k).value.pubShare
  {
    hide Sum;
    hide Opened;
  }

  lemma Round2Guarded(curve: Curves, e: Engine, e': Engine)
    requires Guarded(e) && e.peer in e.newProvers && PartOfRound2(curve, e, e')
    ensures Guarded(e')
  {
    hide Sources;
    hide NodeRound2;
    SameSources(e, e');
    forall k | k in e'.nodes
      ensures NodeGuarded(e', e'.nodes[k])
    {
      assert NodeGuarded(e, e.nodes[k]);
      if e'.nodes[k] != e.nodes[k] {
        OneShare(curve, e, k);
      }
    }
  }

  lemma AfterIsPart(curve: Curves, e: Engine)
    requires e.threshold >= 1 && Round2Passes(curve, e)
    ensures PartOfRound2(curve, e, e.(nodes := AfterRound2(curve, e)))
  {
    hide NodeRound2;
    hide Updated;
  }

  lemma Round2Response(curve: Curves, e: Engine)
    requires Guarded(e)
    ensures HandleRound2(curve, Some(e)).state.Some? && Guarded(HandleRound2(curve, Some(e)).state.value)
    ensures HandleRound2(curve, Some(e)).failed ==> e.peer in e.newProvers
  {
    hide Guarded;
    hide PartOfRound2;
    hide Round2Passes;
    hide AfterRound2;
    hide Round2Pubshares;
    hide Round2Ready;
    if e.threshold >= 1 && Round2Passes(curve, e) && e.peer in e.newProvers {
      AfterIsPart(curve, e);
      Round2Guarded(curve, e, e.(nodes := AfterRound2(curve, e)));
    }
  }

  lemma Round1Guarded(curve: Curves, e: Engine, m: Message)
    requires Guarded(e) && m.command.RunRound1? && CanHear(Some(e), m)
    ensures Response(curve, Some(e), m).state.Some? && Guarded(Response(curve, Some(e), m).state.value)
  {
    hide Guarded;
    hide IsIndex;
    hide IndexSet;
    hide Round1Ready;
    hide Registered;
    hide DealsOf;
    hide DealerPolys;
    hide Sources;
    if e.peer in e.tstarProvers && m.command.isReelected && ValidSize(m.command.threshold, |e.tstarProvers|, true) {
      OwnSource(e);
      var deals := DealsOf(curve, DealerPolys(curve, e, m.random), e.newProvers.Values);
      RegisteredGuarded(e, e.idx, deals);
    }
  }

  lemma OwnSource(e: Engine)
    ensures e.peer in e.tstarProvers ==> e.idx in Sources(e)
    ensures forall d :: d in e.tstarProvers.Values ==> d in Sources(e)
  {
  }

  lemma StoreGuarded(e: Engine, m: Command)
    requires Guarded(e) && (m.StoreRound1Out? || m.StorePubshares?)
    ensures m.StoreRound1Out? ==> var e' := HandleRound1Out(Some(e), m.idx, m.deals).state; e'.Some? && Guarded(e'.value)
    ensures m.StorePubshares? ==> var e' := HandlePubshares(Some(e), m.idx, m.pubshares).state; e'.Some? && Guarded(e'.value)
  {
    hide Guarded;
    hide Sources;
    hide Registered;
    hide WithPubshares;
    hide Round1Ready;
    hide Round2Ready;
    OwnSource(e);
    if e.peer in e.newProvers {
      if m.StoreRound1Out? && m.idx in e.tstarProvers.Values {
        RegisteredGuarded(e, m.idx, m.deals);
      } else if m.StorePubshares? && m.idx in e.newProvers.Values && m.idx != e.idx {
        PubsharesGuarded(e, m.idx, m.pubshares);
      }
    }
  }

  lemma ClearGuarded(e: Engine)
    requires Guarded(e)
    ensures Guarded(e.(nodes := Cleared(e.nodes)))
  {
    hide Guarded;
    hide Cleared;
    GuardedIds(e);
    ClearedGuarded(e, e.(nodes := Cleared(e.nodes)));
  }

  /** Every message, from anyone, keeps the invariant. */
  lemma HearsKeeps(curve: Curves, e: Option<Engine>, m: Message, e': Option<Engine>)
    requires Hears(curve, e, m, e') && (e.Some? ==> Guarded(e.value))
    ensures e'.Some? ==> Guarded(e'.value)
  {
    hide Guarded;
    hide EngineOk;
    hide HandleInit;
    hide HandleRound1;
    hide HandleRound1Out;
    hide HandleRound2;
    hide HandleRound3;
    hide HandlePubshares;
    hide Cleared;
    hide PartOfRound2;
    if m.command.ResharingInit? {
      InitGuarded(e, m.command.idx, m.command.peer, m.command.attempt, m.stored, m.drawn);
    } else if e.Some? {
      match m.command
      case RunRound1(threshold, isReelected) =>
        Round1Guarded(curve, e.value, m);
      case StoreRound1Out(i, deals) =>
        StoreGuarded(e.value, m.command);
      case StorePubshares(i, pubshares) =>
        StoreGuarded(e.value, m.command);
      case RunRound2 =>
        Round2Response(curve, e.value);
        if HandleRound2(curve, e).failed {
          Round2Guarded(curve, e.value, e'.value);
        }
      case RunRound3 =>
        Round3State(curve, e);
      case ClearShares =>
        ClearGuarded(e.value);
      case _ =>
    } else {
      NoEngine(curve, m);
    }
  }

  lemma Round3State(curve: Curves, e: Option<Engine>)
    requires e.Some? ==> EngineOk(e.value)
    ensures HandleRound3(curve, e).state == e
  {
    hide Round3Passes;
    hide PublicShares;
    hide EngineOk;
  }

  /** Without a state only an initialisation makes one. */
  lemma NoEngine(curve: Curves, m: Message)
    requires CanHear(None, m) && !m.command.ResharingInit?
    ensures Response(curve, None, m).state.None?
  {
  }

  // ---------- its whole life ----------

  ghost predicate HearsAt(curve: Curves, engines: seq<Option<Engine>>, messages: seq<Message>, i: nat)
    requires |engines| == |messages| + 1
  {
    i < |messages| ==> Hears(curve, engines[i], messages[i], engines[i + 1])
  }

  /** An engine from its start without a state, through any messages. */
  ghost predicate Life(curve: Curves, engines: seq<Option<Engine>>, messages: seq<Message>) {
    |engines| == |messages| + 1 && engines[0].None? && forall i :: HearsAt(curve, engines, messages, i)
  }

  /** Whatever anyone sends to it, an engine holds inputs only of T*, public shares only of
      the new quorum, and its own public share is that of its own private share. */
  lemma {:induction false} AlwaysGuarded(curve: Curves, engines: seq<Option<Engine>>, messages: seq<Message>, i: nat)
    requires Life(curve, engines, messages) && i < |engines|
    ensures engines[i].Some? ==> Guarded(engines[i].value)
  {
    hide Guarded;
    hide Hears;
    if i > 0 {
      AlwaysGuarded(curve, engines, messages, i - 1);
      assert HearsAt(curve, engines, messages, i - 1);
      HearsKeeps(curve, engines[i - 1], messages[i - 1], engines[i]);
    }
  }

  // ---------- what its reports are worth ----------

  /** The announced indices: every prover has its own, and this one's are the engine's. */
  ghost predicate WellIndexed(e: Engine) {
    && |e.tstarProvers.Values| == |e.tstarProvers| && |e.newProvers.Values| == |e.newProvers|
    && (e.peer in e.tstarProvers ==> e.idx in e.tstarProvers.Values)
    && (e.peer in e.newProvers ==> e.idx in e.newProvers.Values)
  }

  /** Inputs of exactly T* for every key type. */
  ghost predicate HasInputs(e: Engine) {
    forall k :: k in e.nodes ==> e.nodes[k].inputY.Keys == e.nodes[k].inputV.Keys == e.tstarProvers.Values
  }

  /** Public shares of exactly the new quorum for every key type. */
  ghost predicate HasPubshares(e: Engine) {
    forall k :: k in e.nodes ==> e.nodes[k].otherPubshares.Keys == e.newProvers.Values
  }

  /** Counting is enough, whoever sent what: as many inputs as T* has provers are the
      inputs of exactly T*, and none else suffice. */
  lemma ReadyExactly(e: Engine)
    requires Guarded(e) && WellIndexed(e) && e.peer in e.newProvers
    ensures Round1Ready(e) <==> HasInputs(e)
    ensures Round2Ready(e) <==> HasPubshares(e)
  {
    forall k | k in e.nodes
      ensures (|e.nodes[k].inputV| == |e.tstarProvers| && |e.nodes[k].inputY| == |e.tstarProvers|)
              <==> e.nodes[k].inputY.Keys == e.nodes[k].inputV.Keys == e.tstarProvers.Values
      ensures |e.nodes[k].otherPubshares| == |e.newProvers| <==> e.nodes[k].otherPubshares.Keys == e.newProvers.Values
    {
      NodeReady(e, e.nodes[k]);
    }
    hide Guarded;
  }

  lemma NodeReady(e: Engine, nd: NodeData)
    requires NodeGuarded(e, nd) && WellIndexed(e) && e.peer in e.newProvers
    ensures (|nd.inputV| == |e.tstarProvers| && |nd.inputY| == |e.tstarProvers|)
            <==> nd.inputY.Keys == nd.inputV.Keys == e.tstarProvers.Values
    ensures |nd.otherPubshares| == |e.newProvers| <==> nd.otherPubshares.Keys == e.newProvers.Values
  {
    CountsSame(nd.inputY, nd.inputV, nd.otherPubshares);
    OnlyQuorums(e);
    hide Sources;
    SameCount(nd.inputY.Keys, e.tstarProvers.Values);
    SameCount(nd.otherPubshares.Keys, e.newProvers.Values);
  }

  lemma OnlyQuorums(e: Engine)
    requires WellIndexed(e) && e.peer in e.newProvers
    ensures Sources(e) == e.tstarProvers.Values && e.newProvers.Values + {e.idx} == e.newProvers.Values
  {
  }

  lemma CountsSame(y: map<nat, Cipher>, v: map<nat, seq<int>>, o: map<nat, int>)
    ensures |y| == |y.Keys| && |v| == |v.Keys| && |o| == |o.Keys|
  {
  }

  lemma SameCount(a: set<nat>, b: set<nat>)
    requires a <= b
    ensures |a| == |b| <==> a == b
  {
    if |a| == |b| {
      Resharing.SameSizeSubset(a, b);
    }
  }

  /** The state after a message, when the handler did not fail. */
  ghost predicate Succeeds(curve: Curves, e: Option<Engine>, m: Message, e': Engine) {
    CanHear(e, m) && !Response(curve, e, m).failed && Response(curve, e, m).state == Some(e')
  }

  /** What an engine says is about itself and true: the stage it reports is complete, it
      deals only as a prover of T*, publishes the shares that it holds, and takes part
      in the new quorum. */
  ghost predicate TrueOf(curve: Curves, e: Engine, g: Gossip) {
    match g
    case InitCompleted(q) => q == e.peer && (q in e.tstarProvers || q in e.newProvers)
    case Round1Out(i, deals) => i == e.idx && e.peer in e.tstarProvers
    case Round1Completed(q) => q == e.peer && q in e.newProvers && Round1Ready(e)
    case Round2Out(i, pubshares) => i == e.idx && e.peer in e.newProvers && pubshares == PublicShares(e.nodes)
    case Round2Completed(q) => q == e.peer && q in e.newProvers && Round2Ready(e)
    case Prepared(i, q, pubshares) =>
      && i == e.idx && q == e.peer && q in e.newProvers && pubshares == PublicShares(e.nodes)
      && IndexSet(e.newProvers.Values) && forall k :: k in e.nodes ==> Amounts(curve(k), e, e.nodes[k])
    case _ => false
  }

  /** The public shares of the new quorum amount to the group key. */
  ghost predicate Amounts(p: Modulus, e: Engine, nd: NodeData)
    requires IndexSet(e.newProvers.Values)
  {
    var network := Network(e.threshold, |e.newProvers|, e.newProvers.Values);
    && |nd.otherPubshares| == |e.newProvers| && e.newProvers.Values <= nd.otherPubshares.Keys
    && nd.node.networkPubkey == Sum(Additive(p, MemberShares(network, nd.otherPubshares))) % p
  }

  lemma InitSpeaks(e: Option<Engine>, i: nat, peer: Peer, a: Attempt, stored: map<KeyType, int>, drawn: KeyType -> int)
    ensures var r := HandleInit(e, i, peer, a, stored, drawn);
            !r.failed && r.state.Some? ==> forall g :: g in r.gossip ==>
              g.InitCompleted? && g.peer == r.state.value.peer && (g.peer in r.state.value.tstarProvers || g.peer in r.state.value.newProvers)
  {
    hide AllTypes;
    hide ValidSize;
    hide FreshNode;
    hide Cleared;
  }

  lemma Round1Speaks(curve: Curves, e: Engine, m: Message, g: Gossip)
    requires m.command.RunRound1? && CanHear(Some(e), m) && !Response(curve, Some(e), m).failed && g in Response(curve, Some(e), m).gossip
    ensures Response(curve, Some(e), m).state.Some? && TrueOf(curve, Response(curve, Some(e), m).state.value, g)
  {
    hide IsIndex;
    hide IndexSet;
    hide Round1Ready;
    hide Registered;
    hide DealsOf;
    hide DealerPolys;
  }

  lemma StoreSpeaks(curve: Curves, e: Engine, m: Command, g: Gossip)
    requires (m.StoreRound1Out? && g in HandleRound1Out(Some(e), m.idx, m.deals).gossip)
             || (m.StorePubshares? && g in HandlePubshares(Some(e), m.idx, m.pubshares).gossip)
    ensures m.StoreRound1Out? ==> var e' := HandleRound1Out(Some(e), m.idx, m.deals).state; e'.Some? && TrueOf(curve, e'.value, g)
    ensures m.StorePubshares? ==> var e' := HandlePubshares(Some(e), m.idx, m.pubshares).state; e'.Some? && TrueOf(curve, e'.value, g)
  {
    hide Round1Ready;
    hide Round2Ready;
    hide Registered;
    hide WithPubshares;
  }

  lemma PublishesShares(curve: Curves, e: Engine)
    requires e.threshold >= 1 && Round2Passes(curve, e)
    ensures Round2Pubshares(curve, e) == PublicShares(AfterRound2(curve, e))
  {
    hide NodeRound2;
    forall k | k in e.nodes
      ensures Round2Pubshares(curve, e)[k] == PublicShares(AfterRound2(curve, e))[k]
    {
      OneShare(curve, e, k);
    }
  }

  lemma Round2Speaks(curve: Curves, e: Engine, g: Gossip)
    requires !HandleRound2(curve, Some(e)).failed && g in HandleRound2(curve, Some(e)).gossip
    ensures HandleRound2(curve, Some(e)).state.Some? && TrueOf(curve, HandleRound2(curve, Some(e)).state.value, g)
  {
    hide Round2Ready;
    hide Round2Passes;
    hide AfterRound2;
    hide Round2Pubshares;
    hide PublicShares;
    if e.threshold >= 1 && Round2Passes(curve, e) {
      PublishesShares(curve, e);
    }
  }

  lemma Round3Speaks(curve: Curves, e: Engine, g: Gossip)
    requires EngineOk(e) && g in HandleRound3(curve, Some(e)).gossip
    ensures TrueOf(curve, e, g)
  {
    hide IsIndex;
    hide PublicShares;
    hide Round3;
    hide Sum;
    hide Additive;
    hide MemberShares;
    var network := Network(e.threshold, |e.newProvers|, e.newProvers.Values);
    forall k | k in e.nodes
      ensures Amounts(curve(k), e, e.nodes[k])
    {
      Round3Outcome(curve(k), e.nodes[k].node, network, e.nodes[k].otherPubshares);
    }
  }

  /** Whatever the message, an engine that handles it without failing says nothing untrue. */
  lemma SpeaksTruly(curve: Curves, e: Option<Engine>, m: Message, e': Engine, g: Gossip)
    requires Succeeds(curve, e, m, e') && g in Response(curve, e, m).gossip
    ensures TrueOf(curve, e', g)
  {
    hide EngineOk;
    hide HandleInit;
    hide HandleRound1;
    hide HandleRound1Out;
    hide HandleRound2;
    hide HandleRound3;
    hide HandlePubshares;
    hide Round1Ready;
    hide Round2Ready;
    hide PublicShares;
    hide Amounts;
    hide Cleared;
    if m.command.ResharingInit? {
      InitSpeaks(e, m.command.idx, m.command.peer, m.command.attempt, m.stored, m.drawn);
    } else if e.None? {
      NoEngine(curve, m);
    } else {
      match m.command
      case RunRound1(threshold, isReelected) => Round1Speaks(curve, e.value, m, g);
      case StoreRound1Out(i, deals) => StoreSpeaks(curve, e.value, m.command, g);
      case StorePubshares(i, pubshares) => StoreSpeaks(curve, e.value, m.command, g);
      case RunRound2 => Round2Speaks(curve, e.value, g);
      case RunRound3 =>
        Round3State(curve, e);
        Round3Speaks(curve, e.value, g);
      case _ =>
    }
  }

  /** A report is worth what it says, in every life of an engine: when it says that round 1
      is complete it holds the inputs of exactly T*, and when it says that round 2 is
      complete the public shares of exactly the new quorum, for every key type. */
  lemma ReportsAreComplete(curve: Curves, engines: seq<Option<Engine>>, messages: seq<Message>, i: nat, e': Engine, g: Gossip)
    requires Life(curve, engines, messages) && i < |messages| && Succeeds(curve, engines[i], messages[i], e')
    requires g in Response(curve, engines[i], messages[i]).gossip && WellIndexed(e')
    ensures g.Round1Completed? ==> g.peer == e'.peer && HasInputs(e')
    ensures g.Round2Completed? ==> g.peer == e'.peer && HasPubshares(e')
  {
    hide Guarded;
    hide CanHear;
    hide Response;
    hide WellIndexed;
    hide HasInputs;
    hide HasPubshares;
    hide Round1Ready;
    hide Round2Ready;
    hide PartOfRound2;
    SpeaksTruly(curve, engines[i], messages[i], e', g);
    assert HearsAt(curve, engines, messages, i);
    AlwaysGuarded(curve, engines, messages, i + 1);
    if g.Round1Completed? || g.Round2Completed? {
      ReadyExactly(e');
    }
  }

  // ---------- storing and failing ----------

  /** What storing a dealer's output does: under the dealer, and nowhere else, it puts the
      share meant for this prover and the commitments, in place of what was there. */
  lemma StoresDeal(e: Engine, dealer: nat, deals: Deals, k: KeyType)
    requires e.peer in e.newProvers && dealer in e.tstarProvers.Values && k in e.nodes
    ensures var e' := HandleRound1Out(Some(e), dealer, deals).state.value;
            && e'.nodes.Keys == e.nodes.Keys && e'.nodes[k].node == e.nodes[k].node
            && e'.nodes[k].otherPubshares == e.nodes[k].otherPubshares
            && (if k in deals && e.idx in deals[k].y
                then e'.nodes[k].inputY == e.nodes[k].inputY[dealer := deals[k].y[e.idx]]
                     && e'.nodes[k].inputV == e.nodes[k].inputV[dealer := deals[k].v]
                else e'.nodes[k] == e.nodes[k])
  {
    hide Round1Ready;
  }

  /** The same for another member's public shares; a prover's own are never replaced. */
  lemma StoresPubshares(e: Engine, i: nat, pubshares: map<KeyType, int>, k: KeyType)
    requires e.peer in e.newProvers && k in e.nodes
    ensures var e' := HandlePubshares(Some(e), i, pubshares).state;
            && e'.Some? && e'.value.nodes.Keys == e.nodes.Keys
            && e'.value.nodes[k] == if i in e.newProvers.Values && i != e.idx && k in pubshares
                                    then e.nodes[k].(otherPubshares := e.nodes[k].otherPubshares[i := pubshares[k]]) else e.nodes[k]
  {
    hide Round2Ready;
  }

  /** A new member that stores an output of T* reports round 1 exactly when it then has the
      inputs of exactly T*; with public shares it reports round 2 in the same way. */
  lemma ReportsExactly(e: Engine, i: nat, deals: Deals, pubshares: map<KeyType, int>)
    requires Guarded(e) && WellIndexed(e) && e.peer in e.newProvers
    ensures var r := HandleRound1Out(Some(e), i, deals);
            i in e.tstarProvers.Values ==> r.state.Some? && r.gossip == if HasInputs(r.state.value) then [Round1Completed(e.peer)] else []
    ensures var r := HandlePubshares(Some(e), i, pubshares);
            i in e.newProvers.Values && i != e.idx ==>
              r.state.Some? && r.gossip == if HasPubshares(r.state.value) then [Round2Completed(e.peer)] else []
  {
    hide Guarded;
    hide HasInputs;
    hide HasPubshares;
    hide Round1Ready;
    hide Round2Ready;
    hide Registered;
    hide WithPubshares;
    StoreGuarded(e, StoreRound1Out(i, deals));
    StoreGuarded(e, StorePubshares(i, pubshares));
    ReadyExactly(HandleRound1Out(Some(e), i, deals).state.value);
    ReadyExactly(HandlePubshares(Some(e), i, pubshares).state.value);
  }

  /** A start signal makes an engine tell itself its round, exactly when it has one: to
      deal, with the threshold of the attempt, a prover of T* that took part in the
      initialisation; rounds 2 and 3, a new member. */
  lemma StartsOwnRound(e: Engine, t: nat, isReelected: bool)
    ensures RunRound1(t, isReelected) in HandleStartRound1(Some(e)).casts <==>
            e.peer in e.tstarProvers && e.round1Threshold == Some(t) && (isReelected <==> e.peer in e.newProvers)
    ensures RunRound2 in HandleStartRound2(Some(e)).casts <==> e.peer in e.newProvers
    ensures RunRound3 in HandleStartRound3(Some(e)).casts <==> e.peer in e.newProvers
  {
  }

  /** What round 2 needs for one key type: a known group key, inputs of the right counts
      that fit their commitments, and commitments that amount to that key. */
  ghost predicate Deserves(p: Modulus, e: Engine, k: KeyType)
    requires k in e.nodes && e.threshold >= 1
  {
    var nd := e.nodes[k];
    && k in e.groupKeys
    && Counts(e.threshold, |e.tstarProvers| + 1, nd.inputY, nd.inputV)
    && AllFit(p, nd.node.id, nd.inputY, nd.inputV)
    && e.groupKeys[k] == Eval(p, SumPoly(nd.inputV, e.threshold), 0)
  }

  lemma NodeRound2Exactly(curve: Curves, e: Engine, k: KeyType)
    requires k in e.nodes && e.threshold >= 1 && Power(e.nodes[k].node.id, e.threshold - 1) < TWO_128
    ensures NodeRound2(curve, e, k).Ok? <==> Deserves(curve(k), e, k)
  {
    hide Resharing.Round2;
    hide AllFit;
    hide Eval;
    hide SumPoly;
    hide Power;
    var nd := e.nodes[k];
    if k in e.groupKeys {
      ReshareExact(curve(k), nd.node.id, |e.tstarProvers|, e.threshold, nd.inputY, nd.inputV, e.groupKeys[k]);
    }
  }

  /** When round 2 of a new member goes through, whatever it was sent. */
  lemma Round2Exactly(curve: Curves, e: Engine)
    requires e.peer in e.newProvers && forall k :: k in e.nodes && e.threshold >= 1 ==> Power(e.nodes[k].node.id, e.threshold - 1) < TWO_128
    ensures !HandleRound2(curve, Some(e)).failed <==>
            && ValidSize(e.threshold, |e.newProvers|, false) && ValidSize(e.threshold, |e.tstarProvers|, true)
            && forall k :: k in e.nodes ==> Deserves(curve(k), e, k)
  {
    hide Deserves;
    hide NodeRound2;
    hide Power;
    hide AfterRound2;
    hide Round2Pubshares;
    hide Round2Ready;
    if e.threshold >= 1 {
      forall k | k in e.nodes
        ensures NodeRound2(curve, e, k).Ok? <==> Deserves(curve(k), e, k)
      {
        NodeRound2Exactly(curve, e, k);
      }
    }
  }

  /** When round 3 goes through: exactly when the public shares amount to the group key for
      every key type. */
  lemma Round3Exactly(curve: Curves, e: Engine)
    requires EngineOk(e)
    ensures !HandleRound3(curve, Some(e)).failed <==>
            ValidSize(e.threshold, |e.newProvers|, false) && forall k :: k in e.nodes ==> Amounts(curve(k), e, e.nodes[k])
  {
    hide IsIndex;
    hide IndexSet;
    hide PublicShares;
    hide Round3;
    hide Sum;
    hide Additive;
    hide MemberShares;
    var network := Network(e.threshold, |e.newProvers|, e.newProvers.Values);
    forall k | k in e.nodes
      ensures Round3(curve(k), e.nodes[k].node, network, e.nodes[k].otherPubshares).Ok? <==> Amounts(curve(k), e, e.nodes[k])
    {
      Round3Outcome(curve(k), e.nodes[k].node, network, e.nodes[k].otherPubshares);
    }
    hide Amounts;
  }

  /** When a prover deals, and when that fails: it deals as a prover of T* with accepted
      sizes; the outputs are out, but its own cannot be registered, when it is re-elected
      under an index that the new quorum does not have. */
  lemma DealsAndFails(curve: Curves, e: Engine, m: Message)
    requires m.command.RunRound1? && CanHear(Some(e), m)
    ensures var r, t := Response(curve, Some(e), m), m.command.threshold;
            var deals := e.peer in e.tstarProvers && ValidSize(t, |e.tstarProvers|, true) && ValidSize(t, |e.newProvers|, false);
            && (r.gossip != [] <==> deals)
            && (r.failed <==> deals && e.peer in e.newProvers && e.nodes != map[] && e.idx !in e.newProvers.Values)
            && (r.failed || !deals ==> r.state == Some(e))
  {
    hide IsIndex;
    hide IndexSet;
    hide Round1Ready;
    hide Registered;
    hide DealsOf;
    hide DealerPolys;
  }

  /** Why an initialisation fails: the size of T*, or for a prover without a state the
      size of the new quorum or, in T*, a share or a key that is missing. */
  lemma InitFails(e: Option<Engine>, i: nat, peer: Peer, a: Attempt, stored: map<KeyType, int>, drawn: KeyType -> int)
    ensures var r := HandleInit(e, i, peer, a, stored, drawn);
            && (r.failed <==>
                  || !ValidSize(a.threshold, |a.tstar|, true)
                  || (e.None? && (peer in a.tstar || peer in a.quorum) && !ValidSize(a.threshold, |a.quorum|, false))
                  || (e.None? && peer in a.tstar && !(AllTypes() <= stored.Keys && AllTypes() <= a.groupKeys.Keys)))
            && (r.failed ==> r.state == e && r.gossip == [])
  {
    hide AllTypes;
    hide ValidSize;
    hide Reinitialised;
  }

  /** A prover without a state starts with the shares on its disk and the announced keys
      when it is in T*, and with freshly drawn shares otherwise. */
  lemma FirstEngine(i: nat, peer: Peer, a: Attempt, stored: map<KeyType, int>, drawn: KeyType -> int, k: KeyType)
    requires !HandleInit(None, i, peer, a, stored, drawn).failed && (peer in a.tstar || peer in a.quorum) && k in AllTypes()
    ensures var r := HandleInit(None, i, peer, a, stored, drawn);
            && r.state.Some? && r.state.value.idx == i && r.state.value.peer == peer && r.state.value.nodes.Keys == AllTypes()
            && r.state.value.threshold == a.threshold && r.state.value.groupKeys == a.groupKeys
            && r.state.value.tstarProvers == a.tstar && r.state.value.newProvers == a.quorum
            && var node := r.state.value.nodes[k].node;
               if peer in a.tstar then k in stored && k in a.groupKeys && node.privateShare == stored[k] && node.networkPubkey == a.groupKeys[k]
               else node.privateShare == drawn(k)
  {
    hide AllTypes;
    hide ValidSize;
  }
}
