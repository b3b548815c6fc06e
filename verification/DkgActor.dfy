/** The DKG engine as the actor it is: its handlers change its state in place, node
    by node, in whatever order the hash map of nodes is iterated. Each is proved
    against the function of module DkgEngine that the state machine is built from.
 */
module DkgActor {
  import opened Field
  import opened Polynomial
  import opened Sums
  import opened Vss
  import opened Dkg
  import opened Election
  import opened DkgEngine
  import Resharing

  /** One node's output of round 1. */
  lemma DealOfNode(curve: Curves, e: Engine, t: nat, random: map<KeyType, seq<int>>, k: KeyType)
    requires EngineOk(e) && random.Keys == e.nodes.Keys && t >= 1 && (forall x :: x in random ==> |random[x]| == t) && k in e.nodes
    ensures var c := Resharing.DealerPoly(curve(k), e.nodes[k].node.id, e.nodes[k].node.privateShare, e.tstarProvers.Values, random[k]);
            DealsOf(curve, DealerPolys(curve, e, random), e.newProvers.Values)[k]
            == Deal(EncryptedShares(curve(k), c, e.newProvers.Values), Commit(curve(k), c, t))
  {
    hide EncryptedShares;
    hide Commit;
    hide IndexSet;
    hide Resharing.DealerPoly;
  }

  /** Round 2 of a node depends on that node alone. */
  lemma SameNode(curve: Curves, e: Engine, e': Engine, k: KeyType)
    requires k in e.nodes && e.threshold >= 1 && e' == e.(nodes := e'.nodes) && k in e'.nodes && e'.nodes[k] == e.nodes[k]
    ensures NodeRound2(curve, e', k) == NodeRound2(curve, e, k)
  {
    hide Resharing.Round2;
  }

  // ---------- loops over the nodes, in any order ----------

  /** m agrees with all, outside the keys that are still to come. */
  ghost predicate Part<T>(rest: set<KeyType>, m: map<KeyType, T>, all: map<KeyType, T>) {
    rest <= all.Keys && m.Keys == all.Keys - rest && forall k :: k in m ==> m[k] == all[k]
  }

  lemma PartStart<T>(all: map<KeyType, T>)
    ensures Part(all.Keys, map[], all)
  {
  }

  lemma PartNext<T>(rest: set<KeyType>, m: map<KeyType, T>, all: map<KeyType, T>, key: KeyType)
    requires Part(rest, m, all) && key in rest
    ensures Part(rest - {key}, m[key := all[key]], all)
  {
  }

  lemma PartDone<T>(m: map<KeyType, T>, all: map<KeyType, T>)
    requires Part({}, m, all)
    ensures m == all
  {
  }

  /** The nodes on the way from before to after: those still to come are as before. */
  ghost predicate Between(rest: set<KeyType>, nodes: map<KeyType, NodeData>, before: map<KeyType, NodeData>,
      after: map<KeyType, NodeData>) {
    nodes.Keys == before.Keys == after.Keys && forall k :: k in nodes ==> nodes[k] == if k in rest then before[k] else after[k]
  }

  lemma BetweenNext(rest: set<KeyType>, nodes: map<KeyType, NodeData>, before: map<KeyType, NodeData>,
      after: map<KeyType, NodeData>, key: KeyType, nodes': map<KeyType, NodeData>)
    requires Between(rest, nodes, before, after)
    requires nodes' == if key in nodes then nodes[key := after[key]] else nodes
    ensures Between(rest - {key}, nodes', before, after)
  {
  }

  lemma BetweenDone(nodes: map<KeyType, NodeData>, before: map<KeyType, NodeData>, after: map<KeyType, NodeData>)
    requires Between({}, nodes, before, after)
    ensures nodes == after
  {
  }

  /** Round 2 has passed on all nodes but those still to come. */
  ghost predicate Round2Part(curve: Curves, e: Engine, rest: set<KeyType>, nodes: map<KeyType, NodeData>, pubshares: map<KeyType, int>)
    requires e.threshold >= 1
  {
    && nodes.Keys == e.nodes.Keys && rest <= nodes.Keys && pubshares.Keys == nodes.Keys - rest
    && (forall k :: k in rest ==> nodes[k] == e.nodes[k])
    && forall k :: k in pubshares ==>
         && NodeRound2(curve, e, k).Ok?
         && nodes[k] == Updated(e.nodes[k], NodeRound2(curve, e, k).value)
         && pubshares[k] == NodeRound2(curve, e, k).value.pubShare
  }

  lemma Round2PartStart(curve: Curves, e: Engine)
    requires e.threshold >= 1
    ensures Round2Part(curve, e, e.nodes.Keys, e.nodes, map[])
  {
  }

  lemma Round2ToCome(curve: Curves, e: Engine, rest: set<KeyType>, nodes: map<KeyType, NodeData>,
      pubshares: map<KeyType, int>, key: KeyType)
    requires e.threshold >= 1 && Round2Part(curve, e, rest, nodes, pubshares) && key in rest
    ensures nodes.Keys == e.nodes.Keys && key in nodes && nodes[key] == e.nodes[key]
  {
  }

  lemma Round2PartNext(curve: Curves, e: Engine, rest: set<KeyType>, nodes: map<KeyType, NodeData>,
      pubshares: map<KeyType, int>, key: KeyType)
    requires e.threshold >= 1 && Round2Part(curve, e, rest, nodes, pubshares) && key in rest && NodeRound2(curve, e, key).Ok?
    ensures var r := NodeRound2(curve, e, key).value;
            Round2Part(curve, e, rest - {key}, nodes[key := Updated(nodes[key], r)], pubshares[key := r.pubShare])
  {
    hide NodeRound2;
    hide Updated;
  }

  lemma Round2Fails(curve: Curves, e: Engine, key: KeyType)
    requires e.threshold >= 1 && key in e.nodes && !NodeRound2(curve, e, key).Ok?
    ensures !Round2Passes(curve, e)
  {
  }

  lemma Round2PartDone(curve: Curves, e: Engine, nodes: map<KeyType, NodeData>, pubshares: map<KeyType, int>)
    requires e.threshold >= 1 && Round2Part(curve, e, {}, nodes, pubshares)
    ensures Round2Passes(curve, e) && nodes == AfterRound2(curve, e) && pubshares == Round2Pubshares(curve, e)
  {
    hide NodeRound2;
    hide Updated;
  }

  /** Round 2 stopped at a node that failed: the nodes done before it are updated, and
      the others are as they were. */
  ghost predicate Stopped(curve: Curves, e: Engine, done: set<KeyType>, nodes: map<KeyType, NodeData>)
    requires e.threshold >= 1
  {
    && nodes.Keys == e.nodes.Keys && done <= nodes.Keys
    && (forall k :: k in done ==> NodeRound2(curve, e, k).Ok? && nodes[k] == Updated(e.nodes[k], NodeRound2(curve, e, k).value))
    && (forall k :: k in nodes && k !in done ==> nodes[k] == e.nodes[k])
    && exists k :: k in nodes && !NodeRound2(curve, e, k).Ok?
  }

  lemma Round2Stops(curve: Curves, e: Engine, rest: set<KeyType>, nodes: map<KeyType, NodeData>,
      pubshares: map<KeyType, int>, key: KeyType)
    requires e.threshold >= 1 && Round2Part(curve, e, rest, nodes, pubshares) && key in rest && !NodeRound2(curve, e, key).Ok?
    ensures Stopped(curve, e, pubshares.Keys, nodes)
  {
    hide NodeRound2;
    hide Updated;
  }

  class DkgEngineActor {
    var present: bool
    var idx: nat
    var peer: Peer
    var nodes: map<KeyType, NodeData>
    var tstarProvers: map<Peer, nat>
    var newProvers: map<Peer, nat>
    var threshold: nat
    var groupKeys: map<KeyType, int>
    var round1Threshold: Option<nat>

    function State(): Engine
      reads this
    {
      Engine(idx, peer, nodes, tstarProvers, newProvers, threshold, groupKeys, round1Threshold)
    }

    function View(): Option<Engine>
      reads this
    {
      if present then Some(State()) else None
    }

    constructor ()
      ensures View() == None
    {
      present := false;
      idx, peer, threshold := 0, 0, 0;
      nodes, tstarProvers, newProvers, groupKeys := map[], map[], map[], map[];
      round1Threshold := None;
    }

    /** `clear_inputs` on every node. */
    method ClearNodes()
      modifies this`nodes
      ensures nodes == Cleared(old(nodes))
    {
      ghost var before, after := nodes, Cleared(nodes);
      var rest := nodes.Keys;
      while rest != {}
        invariant rest <= nodes.Keys && Between(rest, nodes, before, after)
        decreases |rest|
      {
        var key :| key in rest;
        ghost var was := nodes;
        nodes := nodes[key := nodes[key].(inputY := map[], inputV := map[], otherPubshares := map[])];
        BetweenNext(rest, was, before, after, key, nodes);
        rest := rest - {key};
      }
      BetweenDone(nodes, before, after);
    }

    method ClearShares()
      modifies this`nodes
      ensures Effect(View(), [], [], false) == HandleClearShares(old(View()))
    {
      if present {
        ClearNodes();
      }
    }

    method Become(e: Engine)
      modifies this
      ensures View() == Some(e)
    {
      present := true;
      idx, peer, nodes := e.idx, e.peer, e.nodes;
      tstarProvers, newProvers, threshold := e.tstarProvers, e.newProvers, e.threshold;
      groupKeys, round1Threshold := e.groupKeys, e.round1Threshold;
    }

    /** The part of `handle_resharing_init` for an engine that has a state. */
    method TakePart(a: Attempt) returns (gossip: seq<Gossip>)
      requires present
      modifies this
      ensures View() == Some(Reinitialised(old(State()), a))
      ensures gossip == if old(peer) in a.tstar || old(peer) in a.quorum then [InitCompleted(old(peer))] else []
    {
      hide Cleared;
      gossip := [];
      round1Threshold := None;
      ClearNodes();
      if peer in a.tstar {
        round1Threshold := Some(a.threshold);
        gossip := [InitCompleted(peer)];
      } else if peer in a.quorum {
        gossip := [InitCompleted(peer)];
      }
      tstarProvers, newProvers, threshold, groupKeys := a.tstar, a.quorum, a.threshold, a.groupKeys;
    }

    /** `handle_resharing_init`. */
    method ResharingInit(i: nat, nodePeer: Peer, a: Attempt, stored: map<KeyType, int>, drawn: KeyType -> int)
      returns (gossip: seq<Gossip>, failed: bool)
      modifies this
      ensures Effect(View(), gossip, [], failed) == HandleInit(old(View()), i, nodePeer, a, stored, drawn)
    {
      hide Reinitialised;
      hide Restored;
      hide AllTypes;
      gossip, failed := [], false;
      if !ValidSize(a.threshold, |a.tstar|, true) {
        return [], true;
      }
      if nodePeer in a.tstar && !present {
        var restored := Restored(i, nodePeer, a, stored);
        if restored.None? {
          return [], true;
        }
        Become(restored.value);
      }
      if present {
        gossip := TakePart(a);
      } else if nodePeer in a.quorum {
        var initialised := Initialised(i, nodePeer, a, drawn);
        if initialised.None? {
          return [], true;
        }
        Become(initialised.value);
        gossip := [InitCompleted(peer)];
      }
    }

    /** `handle_start_resharing_round_1`. */
    method StartResharingRound1() returns (casts: seq<Command>)
      ensures Effect(View(), [], casts, false) == HandleStartRound1(View())
    {
      casts := [];
      if present && peer in tstarProvers && round1Threshold.Some? {
        casts := [Command.RunRound1(round1Threshold.value, peer in newProvers)];
      }
    }

    /** `handle_start_resharing_round_2`. */
    method StartResharingRound2() returns (casts: seq<Command>)
      ensures Effect(View(), [], casts, false) == HandleStartRound2(View())
    {
      casts := if present && peer in newProvers then [Command.RunRound2] else [];
    }

    /** `handle_start_resharing_round_3`. */
    method StartResharingRound3() returns (casts: seq<Command>)
      ensures Effect(View(), [], casts, false) == HandleStartRound3(View())
    {
      casts := if present && peer in newProvers then [Command.RunRound3] else [];
    }

    /** Registering a dealer's output in every node it has a share for. */
    method RegisterDeals(me: nat, dealer: nat, deals: Deals)
      modifies this`nodes
      ensures nodes == Registered(old(nodes), me, dealer, deals)
    {
      ghost var before, after := nodes, Registered(nodes, me, dealer, deals);
      var rest := deals.Keys;
      while rest != {}
        invariant rest <= deals.Keys && Between(rest, nodes, before, after)
        decreases |rest|
      {
        var key :| key in rest;
        ghost var was := nodes;
        if key in nodes && me in deals[key].y {
          nodes := nodes[key := Register(nodes[key], dealer, deals[key].y[me], deals[key].v)];
        }
        assert key in was ==> nodes == was[key := after[key]];
        BetweenNext(rest, was, before, after, key, nodes);
        rest := rest - {key};
      }
      BetweenDone(nodes, before, after);
    }

    /** There are random coefficients for every node. */
    predicate RandomOk(t: nat, random: map<KeyType, seq<int>>)
      reads this
    {
      random.Keys == nodes.Keys && t >= 1 && forall k :: k in random ==> |random[k]| == t
    }

    ghost function AllDeals(curve: Curves, t: nat, random: map<KeyType, seq<int>>): (deals: Deals)
      requires EngineOk(State()) && RandomOk(t, random)
      reads this
      ensures deals.Keys == nodes.Keys
    {
      DealsOf(curve, DealerPolys(curve, State(), random), newProvers.Values)
    }

    /** `resharing_round_1` on one node. */
    method DealNode(curve: Curves, t: nat, random: map<KeyType, seq<int>>, key: KeyType) returns (deal: Deal)
      requires EngineOk(State()) && RandomOk(t, random) && key in nodes
      ensures deal == AllDeals(curve, t, random)[key]
    {
      hide IndexSet;
      hide DealsOf;
      hide DealerPolys;
      DealOfNode(curve, State(), t, random, key);
      var y, v := Resharing.ResharingRound1(curve(key), nodes[key].node, Network(t, |tstarProvers|, tstarProvers.Values),
                                            Network(t, |newProvers|, newProvers.Values), random[key]);
      deal := Deal(y, v);
    }

    /** `resharing_round1`: the output of every node. */
    method DealAll(curve: Curves, t: nat, random: map<KeyType, seq<int>>) returns (deals: Deals)
      requires EngineOk(State()) && RandomOk(t, random)
      ensures deals == AllDeals(curve, t, random)
    {
      hide EngineOk;
      hide RandomOk;
      hide AllDeals;
      hide Part;
      deals := map[];
      ghost var all := AllDeals(curve, t, random);
      PartStart(all);
      var rest := nodes.Keys;
      while rest != {}
        invariant rest <= nodes.Keys && Part(rest, deals, all)
        decreases |rest|
      {
        var key :| key in rest;
        var deal := DealNode(curve, t, random, key);
        PartNext(rest, deals, all, key);
        deals := deals[key := deal];
        rest := rest - {key};
      }
      PartDone(deals, all);
    }

    /** `handle_resharing_round1`. */
    method RunRound1(curve: Curves, t: nat, isReelected: bool, random: map<KeyType, seq<int>>) returns (gossip: seq<Gossip>, failed: bool)
      requires present ==> EngineOk(State()) && random.Keys == nodes.Keys
      requires t >= 1 ==> forall k :: k in random ==> |random[k]| == t
      modifies this`nodes
      ensures Effect(View(), gossip, [], failed) == HandleRound1(curve, old(View()), t, isReelected, random)
    {
      hide EngineOk;
      hide DealsOf;
      hide DealerPolys;
      hide Registered;
      hide Round1Ready;
      gossip, failed := [], false;
      if present && peer in tstarProvers && ValidSize(t, |tstarProvers|, true) && ValidSize(t, |newProvers|, false) {
        var deals := DealAll(curve, t, random);
        gossip := [Round1Out(idx, deals)];
        if isReelected {
          if nodes != map[] && idx !in newProvers.Values {
            return gossip, true;
          }
          RegisterDeals(idx, idx, deals);
        }
        if Round1Ready(State()) && peer in newProvers {
          gossip := gossip + [Round1Completed(peer)];
        }
      }
    }

    /** `handle_resharing_round1_output`. */
    method StoreRound1Out(dealer: nat, deals: Deals) returns (gossip: seq<Gossip>)
      modifies this`nodes
      ensures Effect(View(), gossip, [], false) == HandleRound1Out(old(View()), dealer, deals)
    {
      gossip := [];
      if present && peer in newProvers && dealer in tstarProvers.Values {
        RegisterDeals(idx, dealer, deals);
        if Round1Ready(State()) {
          gossip := [Round1Completed(peer)];
        }
      }
    }

    /** `resharing_round_2` on one node, which is updated when it succeeds. */
    method Round2Node(curve: Curves, key: KeyType) returns (r: Outcome<Keys>)
      requires key in nodes && threshold >= 1
      modifies this`nodes
      ensures r == NodeRound2(curve, old(State()), key)
      ensures nodes == if r.Ok? then old(nodes)[key := Updated(old(nodes)[key], r.value)] else old(nodes)
    {
      hide Resharing.Round2;
      if key !in groupKeys {
        return Err(Other);
      }
      r := Resharing.ResharingRound2(curve(key), nodes[key].node, Network(threshold, |tstarProvers|, tstarProvers.Values),
                                     Network(threshold, |newProvers|, newProvers.Values),
                                     nodes[key].inputY, nodes[key].inputV, groupKeys[key]);
      if r.Ok? {
        nodes := nodes[key := Updated(nodes[key], r.value)];
      }
    }

    /** The nodes one after the other, up to the first that fails. */
    method Round2All(curve: Curves) returns (pubshares: map<KeyType, int>, failed: bool)
      requires threshold >= 1
      modifies this`nodes
      ensures failed <==> !Round2Passes(curve, old(State()))
      ensures !failed ==> nodes == AfterRound2(curve, old(State())) && pubshares == Round2Pubshares(curve, old(State()))
      ensures failed ==> exists done :: Stopped(curve, old(State()), done, nodes)
    {
      hide NodeRound2;
      hide Updated;
      hide Round2Part;
      hide Stopped;
      hide Round2Passes;
      hide AfterRound2;
      hide Round2Pubshares;
      pubshares, failed := map[], false;
      ghost var e := State();
      Round2PartStart(curve, e);
      var rest := nodes.Keys;
      while rest != {}
        invariant Round2Part(curve, e, rest, nodes, pubshares)
        decreases |rest|
      {
        var key :| key in rest;
        Round2ToCome(curve, e, rest, nodes, pubshares, key);
        SameNode(curve, e, State(), key);
        ghost var was := nodes;
        var r := Round2Node(curve, key);
        if !r.Ok? {
          Round2Fails(curve, e, key);
          Round2Stops(curve, e, rest, nodes, pubshares, key);
          return map[], true;
        }
        Round2PartNext(curve, e, rest, was, pubshares, key);
        pubshares := pubshares[key := r.value.pubShare];
        rest := rest - {key};
      }
      Round2PartDone(curve, e, nodes, pubshares);
    }

    /** Both networks of round 2 can be set up. */
    predicate Round2Sized()
      reads this
    {
      ValidSize(threshold, |newProvers|, false) && ValidSize(threshold, |tstarProvers|, true)
    }

    /** `handle_resharing_round2`. When a node fails, those before it in the order of
        iteration have been updated; nothing has when the networks cannot be set up. */
    method RunRound2(curve: Curves) returns (gossip: seq<Gossip>, failed: bool)
      modifies this`nodes
      ensures failed == HandleRound2(curve, old(View())).failed
      ensures !failed ==> Effect(View(), gossip, [], failed) == HandleRound2(curve, old(View()))
      ensures failed ==> gossip == []
      ensures failed && Round2Sized() ==> exists done :: Stopped(curve, old(State()), done, nodes)
      ensures failed && !Round2Sized() ==> nodes == old(nodes)
    {
      hide Stopped;
      hide Round2Passes;
      hide AfterRound2;
      hide Round2Pubshares;
      hide Round2Ready;
      gossip, failed := [], false;
      if !present || peer !in newProvers {
        return;
      }
      if !ValidSize(threshold, |newProvers|, false) || !ValidSize(threshold, |tstarProvers|, true) {
        return [], true;
      }
      var pubshares;
      pubshares, failed := Round2All(curve);
      if !failed {
        gossip := [Round2Out(idx, pubshares)];
        if Round2Ready(State()) {
          gossip := gossip + [Round2Completed(peer)];
        }
      }
    }

    /** `handle_store_reshared_received_pubshare`. */
    method StorePubshares(i: nat, pubshares: map<KeyType, int>) returns (gossip: seq<Gossip>)
      modifies this`nodes
      ensures Effect(View(), gossip, [], false) == HandlePubshares(old(View()), i, pubshares)
    {
      gossip := [];
      if !present || idx == i || peer !in newProvers || i !in newProvers.Values {
        return;
      }
      ghost var before, after := nodes, WithPubshares(nodes, i, pubshares);
      var rest := pubshares.Keys;
      while rest != {}
        invariant rest <= pubshares.Keys && Between(rest, nodes, before, after)
        decreases |rest|
      {
        var key :| key in rest;
        ghost var was := nodes;
        if key in nodes {
          nodes := nodes[key := nodes[key].(otherPubshares := nodes[key].otherPubshares[i := pubshares[key]])];
        }
        BetweenNext(rest, was, before, after, key, nodes);
        rest := rest - {key};
      }
      BetweenDone(nodes, before, after);
      if Round2Ready(State()) {
        gossip := [Round2Completed(peer)];
      }
    }

    /** Round 3 of every node. */
    method Round3All(curve: Curves) returns (failed: bool)
      requires EngineOk(State())
      ensures failed <==> !Round3Passes(curve, State())
    {
      hide Round3;
      hide IndexSet;
      var network := Network(threshold, |newProvers|, newProvers.Values);
      var rest := nodes.Keys;
      while rest != {}
        invariant rest <= nodes.Keys
        invariant forall k :: k in nodes && k !in rest ==> Round3(curve(k), nodes[k].node, network, nodes[k].otherPubshares).Ok?
        decreases |rest|
      {
        var key :| key in rest;
        var r := DkgRound3(curve(key), nodes[key].node, network, nodes[key].otherPubshares);
        if !r.Ok? {
          return true;
        }
        rest := rest - {key};
      }
      return false;
    }

    /** The shares of every node. */
    method CollectShares() returns (shares: map<KeyType, int>)
      ensures shares == PublicShares(nodes)
    {
      shares := map[];
      var rest := nodes.Keys;
      while rest != {}
        invariant rest <= nodes.Keys && Part(rest, shares, PublicShares(nodes))
        decreases |rest|
      {
        var key :| key in rest;
        PartNext(rest, shares, PublicShares(nodes), key);
        shares := shares[key := nodes[key].node.privateShare];
        rest := rest - {key};
      }
      PartDone(shares, PublicShares(nodes));
    }

    /** `handle_round3` of a resharing. */
    method RunRound3(curve: Curves) returns (gossip: seq<Gossip>, failed: bool)
      requires present ==> EngineOk(State())
      ensures Effect(View(), gossip, [], failed) == HandleRound3(curve, View())
    {
      hide Round3Passes;
      hide PublicShares;
      hide IndexSet;
      gossip, failed := [], false;
      if !present {
        return;
      }
      if !ValidSize(threshold, |newProvers|, false) {
        return [], true;
      }
      failed := Round3All(curve);
      if !failed && peer in newProvers {
        var shares := CollectShares();
        gossip := [Prepared(idx, peer, shares)];
      }
    }
  }
}
