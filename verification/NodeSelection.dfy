/** Choosing nodes (network/crates/cryptography/src/node_selection.rs). The seeded
    random generator is a parameter: its i-th number, or what it draws from a range.
    Weights are exact.
 */
module NodeSelection {
  import opened Field
  import opened Polynomial

  // ---------- the nodes a request is sent to ----------

  function RemoveAt<T>(s: seq<T>, i: nat): (r: seq<T>)
    requires i < |s|
    ensures |r| == |s| - 1
  {
    s[..i] + s[i + 1..]
  }

  /** Where everything is once position i is gone: what was before stays, what came
      after moves up by one. */
  lemma RemovedPositions<T>(s: seq<T>, i: nat, k: nat)
    requires i < |s| && k < |s| - 1
    ensures RemoveAt(s, i)[k] == if k < i then s[k] else s[k + 1]
  {
  }

  lemma RemoveMultiset<T>(s: seq<T>, i: nat)
    requires i < |s|
    ensures multiset(RemoveAt(s, i)) + multiset{s[i]} == multiset(s)
  {
    assert s == s[..i] + [s[i]] + s[i + 1..];
  }

  /** k of the nodes, chosen one after the other with the numbers from the i-th on. */
  function Chosen(stream: nat -> nat, i: nat, nodes: seq<nat>, k: nat): (r: seq<nat>)
    requires k <= |nodes|
    ensures |r| == k && multiset(r) <= multiset(nodes)
    decreases k
  {
    if k == 0 then []
    else
      var at := stream(i) % |nodes|;
      RemoveMultiset(nodes, at);
      [nodes[at]] + Chosen(stream, i + 1, RemoveAt(nodes, at), k - 1)
  }

  /** The conversion to 32 bits. */
  function Truncated(s: seq<nat>): (r: seq<nat>)
    ensures |r| == |s| && forall k :: 0 <= k < |r| ==> r[k] == s[k] % TWO_32
  {
    seq(|s|, k requires 0 <= k < |s| => s[k] % TWO_32)
  }

  lemma TruncatedAppend(s: seq<nat>, x: nat)
    ensures Truncated(s + [x]) == Truncated(s) + [x % TWO_32]
  {
  }

  lemma ChosenNext(stream: nat -> nat, i: nat, nodes: seq<nat>, k: nat, done: seq<nat>, all: seq<nat>)
    requires 0 < k <= |nodes| && all == done + Chosen(stream, i, nodes, k)
    ensures var at := stream(i) % |nodes|;
            all == done + [nodes[at]] + Chosen(stream, i + 1, RemoveAt(nodes, at), k - 1)
  {
  }

  /** What is left after the first j draws. */
  function Remaining(stream: nat -> nat, i: nat, nodes: seq<nat>, j: nat): (r: seq<nat>)
    requires j <= |nodes|
    ensures |r| == |nodes| - j
    decreases j
  {
    if j == 0 then nodes
    else
      var before := Remaining(stream, i, nodes, j - 1);
      RemoveAt(before, stream(i + j - 1) % |before|)
  }

  lemma {:induction false} RemainingShift(stream: nat -> nat, i: nat, nodes: seq<nat>, j: nat)
    requires 0 < j <= |nodes|
    ensures Remaining(stream, i, nodes, j) == Remaining(stream, i + 1, RemoveAt(nodes, stream(i) % |nodes|), j - 1)
    decreases j
  {
    hide RemoveAt;
    if j == 1 {
      assert Remaining(stream, i, nodes, 0) == nodes;
    } else {
      RemainingShift(stream, i, nodes, j - 1);
    }
  }

  lemma ChosenFirst(stream: nat -> nat, i: nat, nodes: seq<nat>, k: nat)
    requires 0 < k <= |nodes|
    ensures var at := stream(i) % |nodes|;
            && Chosen(stream, i, nodes, k)[0] == nodes[at]
            && Chosen(stream, i, nodes, k)[1..] == Chosen(stream, i + 1, RemoveAt(nodes, at), k - 1)
  {
  }

  /** The node that the number at i points to. */
  function PointedTo(stream: nat -> nat, i: nat, left: seq<nat>): nat
    requires left != []
  {
    left[stream(i) % |left|]
  }

  /** Which nodes are chosen: the j-th is the one that the j-th number points to, modulo
      how many are left, among those left. */
  lemma {:induction false} ChosenIs(stream: nat -> nat, i: nat, nodes: seq<nat>, k: nat, j: nat)
    requires j < k <= |nodes|
    ensures Chosen(stream, i, nodes, k)[j] == PointedTo(stream, i + j, Remaining(stream, i, nodes, j))
    decreases j
  {
    hide RemoveAt;
    hide Chosen;
    ChosenFirst(stream, i, nodes, k);
    if j > 0 {
      RemainingShift(stream, i, nodes, j);
      hide PointedTo;
      ChosenIs(stream, i + 1, RemoveAt(nodes, stream(i) % |nodes|), k - 1, j - 1);
      assert Chosen(stream, i, nodes, k)[j] == Chosen(stream, i, nodes, k)[1..][j - 1];
      assert i + 1 + (j - 1) == i + j;
    }
  }

  /** `calc_nodes_to_send_to`; None when it reduces modulo zero. */
  method CalcNodesToSendTo(stream: nat -> nat, tPlusEpsilon: nat, nodeIndices: seq<nat>) returns (r: Option<seq<nat>>)
    ensures r == if tPlusEpsilon <= |nodeIndices| then Some(Truncated(Chosen(stream, 0, nodeIndices, tPlusEpsilon))) else None
  {
    hide Chosen;
    hide RemoveAt;
    hide Truncated;
    var indices, chosen := nodeIndices, [];
    ghost var done: seq<nat> := [];
    NotTruncated(done);
    for i := 0 to tPlusEpsilon
      invariant |indices| == |nodeIndices| - i
      invariant chosen == Truncated(done)
      invariant tPlusEpsilon <= |nodeIndices| ==>
                  Chosen(stream, 0, nodeIndices, tPlusEpsilon) == done + Chosen(stream, i, indices, tPlusEpsilon - i)
    {
      if |indices| == 0 {
        return None;
      }
      var at := stream(i) % |indices|;
      if tPlusEpsilon <= |nodeIndices| {
        ChosenNext(stream, i, indices, tPlusEpsilon - i, done, Chosen(stream, 0, nodeIndices, tPlusEpsilon));
      }
      TruncatedAppend(done, indices[at]);
      done := done + [indices[at]];
      chosen := chosen + [indices[at] % TWO_32];
      indices := RemoveAt(indices, at);
    }
    assert done + Chosen(stream, tPlusEpsilon, indices, 0) == done;
    return Some(chosen);
  }

  predicate Sorted(s: seq<nat>) {
    forall j, k :: 0 <= j < k < |s| ==> s[j] <= s[k]
  }

  predicate AllAtLeast(s: seq<nat>, x: nat) {
    forall k :: 0 <= k < |s| ==> x <= s[k]
  }

  lemma SortedCons(x: nat, s: seq<nat>)
    requires Sorted(s) && AllAtLeast(s, x)
    ensures Sorted([x] + s)
  {
  }

  function Insert(x: nat, s: seq<nat>): (r: seq<nat>)
    ensures multiset(r) == multiset(s) + multiset{x}
  {
    if s == [] || x <= s[0] then [x] + s
    else
      assert s == [s[0]] + s[1..];
      [s[0]] + Insert(x, s[1..])
  }

  lemma {:induction false} InsertSorted(x: nat, s: seq<nat>)
    requires Sorted(s)
    ensures Sorted(Insert(x, s))
    ensures forall y: nat :: y <= x && AllAtLeast(s, y) ==> AllAtLeast(Insert(x, s), y)
  {
    if s == [] || x <= s[0] {
      SortedCons(x, s);
    } else {
      InsertSorted(x, s[1..]);
      assert AllAtLeast(s[1..], s[0]);
      SortedCons(s[0], Insert(x, s[1..]));
      forall y: nat | y <= x && AllAtLeast(s, y)
        ensures AllAtLeast(Insert(x, s), y)
      {
        assert AllAtLeast(s[1..], y);
      }
    }
  }

  /** The library's sort: the one ordered arrangement of the list. */
  function Sort(s: seq<nat>): (r: seq<nat>)
    ensures Sorted(r) && multiset(r) == multiset(s) && |r| == |s|
  {
    if s == [] then []
    else
      assert s == [s[0]] + s[1..];
      var r := Insert(s[0], Sort(s[1..]));
      InsertSorted(s[0], Sort(s[1..]));
      assert |multiset(r)| == |r| && |multiset(s)| == |s|;
      r
  }

  lemma SameLength(a: seq<nat>, b: seq<nat>)
    requires multiset(a) == multiset(b)
    ensures |a| == |b| && forall x :: x in a <==> x in b
  {
    assert |multiset(a)| == |a| && |multiset(b)| == |b|;
    assert forall x :: x in a <==> x in multiset(a);
  }

  lemma SameTail(a: seq<nat>, b: seq<nat>)
    requires a != [] && b != [] && a[0] == b[0] && multiset(a) == multiset(b)
    ensures multiset(a[1..]) == multiset(b[1..])
  {
    assert a == [a[0]] + a[1..] && b == [b[0]] + b[1..];
    assert multiset(a[1..]) == multiset(a) - multiset{a[0]};
    assert multiset(b[1..]) == multiset(b) - multiset{b[0]};
  }

  lemma {:induction false} SortedUnique(a: seq<nat>, b: seq<nat>)
    requires Sorted(a) && Sorted(b) && multiset(a) == multiset(b)
    ensures a == b
  {
    SameLength(a, b);
    if a != [] {
      assert a[0] in b && b[0] in a;
      SameTail(a, b);
      SortedUnique(a[1..], b[1..]);
      assert a == [a[0]] + a[1..] && b == [b[0]] + b[1..];
    }
  }

  function Min(a: nat, b: nat): nat {
    if a <= b then a else b
  }

  /** Before the i-th draw: what was drawn so far and what is still to be drawn make up
      the whole choice, and the node was not among the former. */
  ghost predicate Searching(stream: nat -> nat, node: nat, i: nat, indexes: seq<nat>, k: nat, done: seq<nat>, all: seq<nat>) {
    i <= k <= i + |indexes| && node !in done && all == done + Chosen(stream, i, indexes, k - i)
  }

  lemma SearchStep(stream: nat -> nat, node: nat, i: nat, indexes: seq<nat>, k: nat, done: seq<nat>, all: seq<nat>)
    requires Searching(stream, node, i, indexes, k, done, all) && i < k
    ensures var at := stream(i) % |indexes|;
            if indexes[at] == node then node in all
            else Searching(stream, node, i + 1, RemoveAt(indexes, at), k, done + [indexes[at]], all)
  {
    hide Chosen;
    hide RemoveAt;
    ChosenNext(stream, i, indexes, k - i, done, all);
  }

  lemma SearchEnd(stream: nat -> nat, node: nat, i: nat, indexes: seq<nat>, k: nat, done: seq<nat>, all: seq<nat>)
    requires Searching(stream, node, i, indexes, k, done, all) && i == k
    ensures node !in all
  {
    assert done + Chosen(stream, i, indexes, 0) == done;
  }

  lemma SearchStart(stream: nat -> nat, node: nat, indexes: seq<nat>, k: nat)
    requires k <= |indexes|
    ensures Searching(stream, node, 0, indexes, k, [], Chosen(stream, 0, indexes, k))
  {
    hide Chosen;
    assert [] + Chosen(stream, 0, indexes, k) == Chosen(stream, 0, indexes, k);
  }

  /** `should_be_sent_to_node`; None when it reduces modulo zero. */
  method ShouldBeSentToNode(stream: nat -> nat, tPlusEpsilon: nat, node: nat, nodeIndexes: seq<nat>) returns (r: Option<bool>)
    ensures r == if node in Chosen(stream, 0, Sort(nodeIndexes), Min(tPlusEpsilon, |nodeIndexes|)) then Some(true)
                 else if tPlusEpsilon <= |nodeIndexes| then Some(false) else None
  {
    hide Chosen;
    hide RemoveAt;
    hide Sort;
    hide Sorted;
    hide Searching;
    var indexes := Sort(nodeIndexes);
    ghost var k := Min(tPlusEpsilon, |nodeIndexes|);
    ghost var all := Chosen(stream, 0, indexes, k);
    ghost var done: seq<nat> := [];
    SearchStart(stream, node, indexes, k);
    for i := 0 to tPlusEpsilon
      invariant |indexes| == |nodeIndexes| - i
      invariant Searching(stream, node, i, indexes, k, done, all)
    {
      if |indexes| == 0 {
        SearchEnd(stream, node, i, indexes, k, done, all);
        return None;
      }
      var at := stream(i) % |indexes|;
      SearchStep(stream, node, i, indexes, k, done, all);
      var chosen := indexes[at];
      indexes := RemoveAt(indexes, at);
      if chosen == node {
        return Some(true);
      }
      done := done + [chosen];
    }
    SearchEnd(stream, node, tPlusEpsilon, indexes, k, done, all);
    return Some(false);
  }

  lemma DistinctMultiset(s: seq<nat>)
    ensures Distinct(s) <==> forall x :: multiset(s)[x] <= 1
  {
    if Distinct(s) {
      forall x
        ensures multiset(s)[x] <= 1
      {
        DistinctOnce(s, x);
      }
    } else {
      var j, k :| 0 <= j < k < |s| && s[j] == s[k];
      assert s == s[..j] + [s[j]] + s[j + 1..k] + [s[k]] + s[k + 1..];
      assert multiset(s)[s[j]] >= 2;
    }
  }

  lemma {:induction false} DistinctOnce(s: seq<nat>, x: nat)
    requires Distinct(s)
    ensures multiset(s)[x] <= 1
  {
    if s != [] {
      assert s == [s[0]] + s[1..];
      DistinctOnce(s[1..], x);
      assert s[0] !in s[1..];
    }
  }

  /** The fast check refines the full choice: for any list of indices below 2^32, in
      any order, it is true exactly for the members of what the full choice makes of
      the sorted list; and distinct indices give exactly that many distinct nodes. */
  lemma FastCheckRefines(stream: nat -> nat, tPlusEpsilon: nat, node: nat, indices: seq<nat>, shuffled: seq<nat>)
    requires multiset(shuffled) == multiset(indices) && tPlusEpsilon <= |indices|
    requires forall k :: 0 <= k < |indices| ==> indices[k] < TWO_32
    ensures |shuffled| == |Sort(indices)| == |indices|
    ensures var full := Truncated(Chosen(stream, 0, Sort(indices), tPlusEpsilon));
            && (node in Chosen(stream, 0, Sort(shuffled), tPlusEpsilon) <==> node in full)
            && |full| == tPlusEpsilon
            && (forall x :: x in full ==> x in indices)
            && (Distinct(indices) ==> Distinct(full))
  {
    hide Chosen;
    hide Sort;
    hide Sorted;
    SameLength(shuffled, indices);
    SortedUnique(Sort(shuffled), Sort(indices));
    var chosen := Chosen(stream, 0, Sort(indices), tPlusEpsilon);
    ChosenMembers(chosen, indices);
    NotTruncated(chosen);
  }

  lemma NotTruncated(s: seq<nat>)
    requires forall x :: x in s ==> x < TWO_32
    ensures Truncated(s) == s
  {
    forall k | 0 <= k < |s|
      ensures Truncated(s)[k] == s[k]
    {
      assert s[k] in s;
    }
  }

  lemma ChosenMembers(chosen: seq<nat>, indices: seq<nat>)
    requires multiset(chosen) <= multiset(indices)
    ensures forall x :: x in chosen ==> x in indices
    ensures Distinct(indices) ==> Distinct(chosen)
  {
    forall x | x in chosen
      ensures x in indices
    {
      assert x in multiset(chosen);
    }
    DistinctMultiset(indices);
    DistinctMultiset(chosen);
  }

  // ---------- weighted choice ----------

  function Total(weights: seq<nat>): nat {
    if weights == [] then 0 else Total(weights[..|weights| - 1]) + weights[|weights| - 1]
  }

  /** The running sums. */
  function Cumulative(weights: seq<nat>, i: nat): nat
    requires i < |weights|
  {
    Total(weights[..i + 1])
  }

  /** The first node whose running sum reaches the draw. */
  predicate Picks(weights: seq<nat>, r: nat, i: nat)
    requires i < |weights|
  {
    Cumulative(weights, i) >= r && forall j :: 0 <= j < i ==> Cumulative(weights, j) < r
  }

  /** `weighted_sample`. */
  method WeightedSample(weights: seq<nat>, draw: nat -> nat) returns (idx: Option<nat>)
    requires forall total :: total > 0 ==> draw(total) < total
    ensures idx.Some? <==> Total(weights) > 0
    ensures idx.Some? ==> idx.value < |weights| && Picks(weights, draw(Total(weights)), idx.value)
  {
    hide Total;
    var sums: seq<nat> := [];
    var acc := 0;
    TotalSteps(weights, 0);
    for i := 0 to |weights|
      invariant acc == Total(weights[..i])
      invariant |sums| == i && forall j :: 0 <= j < i ==> sums[j] == Cumulative(weights, j)
    {
      TotalSteps(weights, i);
      acc := acc + weights[i];
      sums := sums + [acc];
    }
    assert weights[..|weights|] == weights;
    if |sums| == 0 || sums[|sums| - 1] == 0 {
      return None;
    }
    var r := draw(sums[|sums| - 1]);
    idx := None;
    for i := 0 to |weights|
      invariant idx.None? && forall j :: 0 <= j < i ==> sums[j] < r
    {
      if sums[i] >= r {
        idx := Some(i);
        break;
      }
    }
  }

  lemma TotalSteps(weights: seq<nat>, i: nat)
    requires i <= |weights|
    ensures Total(weights[..0]) == 0
    ensures i < |weights| ==> Total(weights[..i + 1]) == Total(weights[..i]) + weights[i]
  {
    if i < |weights| {
      assert weights[..i + 1][..i] == weights[..i];
    }
  }

  lemma {:induction false} TotalMonotone(weights: seq<nat>, i: nat, j: nat)
    requires i <= j <= |weights|
    ensures Total(weights[..i]) <= Total(weights[..j])
    decreases j
  {
    if i < j {
      TotalSteps(weights, j - 1);
      TotalMonotone(weights, i, j - 1);
    }
  }

  /** The draws that choose node i. */
  ghost function Draws(weights: seq<nat>, i: nat): set<nat>
    requires i < |weights|
  {
    set r: nat | 0 <= r < Total(weights) && Picks(weights, r, i)
  }

  ghost function Interval(a: nat, b: nat): (s: set<nat>)
    ensures forall r :: r in s <==> a <= r < b
    ensures |s| == if a <= b then b - a else 0
    decreases b
  {
    if a < b then Interval(a, b - 1) + {b - 1} else {}
  }

  /** A draw chooses node i when it lies above the sum before i and not above the sum at i. */
  lemma PicksBetween(weights: seq<nat>, r: nat, i: nat)
    requires i < |weights|
    ensures Picks(weights, r, i) <==> r <= Total(weights[..i + 1]) && (i > 0 ==> Total(weights[..i]) < r)
  {
    hide Total;
    if i > 0 && Total(weights[..i]) < r {
      forall j | 0 <= j < i
        ensures Cumulative(weights, j) < r
      {
        TotalMonotone(weights, j + 1, i);
      }
    }
    assert i > 0 ==> Cumulative(weights, i - 1) == Total(weights[..i]);
  }

  /** How often node i is chosen among all draws: its weight, except that the first
      node gains a draw unless it holds all the weight, and the last node with a
      positive weight, when it is not the first, loses one. */
  lemma DrawCounts(weights: seq<nat>, i: nat)
    requires i < |weights|
    ensures var before, upTo, total := Total(weights[..i]), Total(weights[..i + 1]), Total(weights);
            |Draws(weights, i)| + (if i > 0 && before < upTo == total then 1 else 0)
            == weights[i] + (if i == 0 && upTo < total then 1 else 0)
  {
    hide Total;
    var before, upTo, total := Total(weights[..i]), Total(weights[..i + 1]), Total(weights);
    TotalSteps(weights, i);
    TotalMonotone(weights, i + 1, |weights|);
    assert weights[..|weights|] == weights;
    var low, high := if i == 0 then 0 else before + 1, if upTo + 1 <= total then upTo + 1 else total;
    forall r: nat
      ensures r in Draws(weights, i) <==> r in Interval(low, high)
    {
      PicksBetween(weights, r, i);
    }
    assert Draws(weights, i) == Interval(low, high);
  }

  // ---------- sampling without replacement ----------

  /** A node with its adjusted weight. */
  datatype Candidate = Candidate(id: nat, weight: real)

  predicate NonNegative(nodes: seq<Candidate>) {
    forall k :: 0 <= k < |nodes| ==> nodes[k].weight >= 0.0
  }

  function RealTotal(weights: seq<real>): real {
    if weights == [] then 0.0 else RealTotal(weights[..|weights| - 1]) + weights[|weights| - 1]
  }

  function Weights(nodes: seq<Candidate>): (w: seq<real>)
    ensures |w| == |nodes| && forall k :: 0 <= k < |w| ==> w[k] == nodes[k].weight
  {
    seq(|nodes|, k requires 0 <= k < |nodes| => nodes[k].weight)
  }

  lemma {:induction false} ZeroTotal(weights: seq<real>)
    requires forall k :: 0 <= k < |weights| ==> weights[k] >= 0.0
    ensures RealTotal(weights) >= 0.0
    ensures RealTotal(weights) == 0.0 <==> forall k :: 0 <= k < |weights| ==> weights[k] == 0.0
  {
    if weights != [] {
      var n := |weights| - 1;
      ZeroTotal(weights[..n]);
      assert forall k :: 0 <= k < n ==> weights[..n][k] == weights[k];
      assert weights[n] == weights[|weights| - 1];
    }
  }

  /** The first node whose running sum reaches the draw. */
  ghost predicate Reaches(weights: seq<real>, r: real, i: nat)
    requires i < |weights|
  {
    RealTotal(weights[..i + 1]) >= r && (i == 0 || RealTotal(weights[..i]) < r)
  }

  lemma RealSteps(weights: seq<real>, i: nat)
    requires i < |weights|
    ensures RealTotal(weights[..i + 1]) == RealTotal(weights[..i]) + weights[i]
  {
    assert weights[..i + 1][..i] == weights[..i];
  }

  /** `weighted_sample_with_sqrt`, the weights being the adjusted ones. The draw
      always lands on a node, so the value the loop starts from is never kept. */
  method SampleOne(nodes: seq<Candidate>, draw: real -> real) returns (idx: Option<nat>)
    requires NonNegative(nodes)
    requires forall total :: total > 0.0 ==> 0.0 <= draw(total) < total
    ensures idx.None? <==> forall x :: x in nodes ==> x.weight == 0.0
    ensures idx.Some? ==> idx.value < |nodes| && Reaches(Weights(nodes), draw(RealTotal(Weights(nodes))), idx.value)
  {
    hide RealTotal;
    var weights := Weights(nodes);
    ZeroTotal(weights);
    AllZero(nodes);
    var total := 0.0;
    EmptyTotal(weights);
    for i := 0 to |weights|
      invariant total == RealTotal(weights[..i])
    {
      RealSteps(weights, i);
      total := total + weights[i];
    }
    assert weights[..|weights|] == weights;
    if total == 0.0 {
      return None;
    }
    var r := draw(total);
    var acc := 0.0;
    assert weights != [];
    idx := Some(|weights| - 1);
    for i := 0 to |weights|
      invariant idx == Some(|weights| - 1)
      invariant acc == RealTotal(weights[..i])
      invariant i == 0 || acc < r
    {
      RealSteps(weights, i);
      acc := acc + weights[i];
      if acc >= r {
        idx := Some(i);
        break;
      }
    }
  }

  lemma EmptyTotal(weights: seq<real>)
    ensures RealTotal(weights[..0]) == 0.0 && (RealTotal(weights) != 0.0 ==> weights != [])
  {
  }

  lemma AllZero(nodes: seq<Candidate>)
    ensures (forall k :: 0 <= k < |nodes| ==> Weights(nodes)[k] == 0.0) <==> (forall x :: x in nodes ==> x.weight == 0.0)
  {
    if forall k :: 0 <= k < |nodes| ==> Weights(nodes)[k] == 0.0 {
      forall x | x in nodes
        ensures x.weight == 0.0
      {
        var k :| 0 <= k < |nodes| && nodes[k] == x;
        assert Weights(nodes)[k] == 0.0;
      }
    }
  }

  /** How many of the nodes have a positive weight. */
  ghost function Positive(nodes: seq<Candidate>): nat {
    if nodes == [] then 0 else (if nodes[0].weight > 0.0 then 1 else 0) + Positive(nodes[1..])
  }

  lemma {:induction false} PositiveRemove(nodes: seq<Candidate>, i: nat)
    requires i < |nodes|
    ensures Positive(nodes) == Positive(RemoveAt(nodes, i)) + (if nodes[i].weight > 0.0 then 1 else 0)
  {
    var rest := RemoveAt(nodes, i);
    if i == 0 {
      assert rest == nodes[1..];
    } else {
      PositiveRemove(nodes[1..], i - 1);
      assert rest[0] == nodes[0] && rest[1..] == RemoveAt(nodes[1..], i - 1);
    }
  }

  lemma {:induction false} NonePositive(nodes: seq<Candidate>)
    requires forall x :: x in nodes ==> x.weight == 0.0
    ensures Positive(nodes) == 0
  {
    if nodes != [] {
      NonePositive(nodes[1..]);
    }
  }

  lemma {:induction false} RealMonotone(weights: seq<real>, i: nat, j: nat)
    requires i <= j <= |weights| && forall k :: 0 <= k < |weights| ==> weights[k] >= 0.0
    ensures RealTotal(weights[..i]) <= RealTotal(weights[..j])
    decreases j
  {
    if i < j {
      RealSteps(weights, j - 1);
      RealMonotone(weights, i, j - 1);
    }
  }

  /** A draw lands on one node only. */
  lemma ReachesOnce(weights: seq<real>, r: real, i: nat, j: nat)
    requires i < |weights| && j < |weights| && forall k :: 0 <= k < |weights| ==> weights[k] >= 0.0
    requires Reaches(weights, r, i) && Reaches(weights, r, j)
    ensures i == j
  {
    hide RealTotal;
    if i < j {
      RealMonotone(weights, i + 1, j);
    } else if j < i {
      RealMonotone(weights, j + 1, i);
    }
  }

  /** A node without weight is chosen by no draw, but for the first node, which a draw of
      exactly zero always chooses. */
  lemma WeightlessChosen(weights: seq<real>, r: real, i: nat)
    requires i < |weights| && r >= 0.0 && (forall k :: 0 <= k < |weights| ==> weights[k] >= 0.0) && weights[i] == 0.0
    ensures Reaches(weights, r, i) <==> i == 0 && r == 0.0
  {
    hide RealTotal;
    RealSteps(weights, i);
    EmptyTotal(weights);
  }

  /** One draw: it lands on the node, and that node is taken out. */
  ghost predicate TakesAt(left: seq<Candidate>, draw: real -> real, i: nat, node: Candidate, after: seq<Candidate>) {
    i < |left| && Reaches(Weights(left), draw(RealTotal(Weights(left))), i) && node == left[i] && after == RemoveAt(left, i)
  }

  ghost predicate Takes(left: seq<Candidate>, draw: real -> real, node: Candidate, after: seq<Candidate>) {
    exists i: nat :: TakesAt(left, draw, i, node, after)
  }

  /** The lists on the way: the k-th draw takes the k-th chosen node out of the k-th list. */
  ghost predicate Sampling(nodes: seq<Candidate>, draws: nat -> (real -> real), chosen: seq<Candidate>, lists: seq<seq<Candidate>>) {
    && |lists| == |chosen| + 1 && lists[0] == nodes
    && forall k: nat :: k < |chosen| ==> Takes(lists[k], draws(k), chosen[k], lists[k + 1])
  }

  lemma SamplingNext(nodes: seq<Candidate>, draws: nat -> (real -> real), chosen: seq<Candidate>, lists: seq<seq<Candidate>>, i: nat)
    requires Sampling(nodes, draws, chosen, lists)
    requires var left := lists[|chosen|]; i < |left| && Reaches(Weights(left), draws(|chosen|)(RealTotal(Weights(left))), i)
    ensures var left := lists[|chosen|];
            Sampling(nodes, draws, chosen + [left[i]], lists + [RemoveAt(left, i)])
  {
    hide RemoveAt;
    hide Reaches;
    hide Takes;
    var left := lists[|chosen|];
    var chosen', lists' := chosen + [left[i]], lists + [RemoveAt(left, i)];
    TakesFrom(left, draws(|chosen|), i);
    forall k: nat | k < |chosen'|
      ensures Takes(lists'[k], draws(k), chosen'[k], lists'[k + 1])
    {
      if k < |chosen| {
        assert lists'[k] == lists[k] && lists'[k + 1] == lists[k + 1] && chosen'[k] == chosen[k];
      }
    }
  }

  /** The draws determine the sample: there is one way only. */
  lemma {:induction false} SampledOnce(nodes: seq<Candidate>, draws: nat -> (real -> real), chosen: seq<Candidate>,
      lists: seq<seq<Candidate>>, chosen': seq<Candidate>, lists': seq<seq<Candidate>>, k: nat)
    requires NonNegative(nodes) && Sampling(nodes, draws, chosen, lists) && Sampling(nodes, draws, chosen', lists')
    requires k <= |chosen| && k <= |chosen'|
    ensures chosen[..k] == chosen'[..k] && lists[k] == lists'[k] && NonNegative(lists[k])
  {
    hide Takes;
    if k > 0 {
      SampledOnce(nodes, draws, chosen, lists, chosen', lists', k - 1);
      TakenOnce(lists[k - 1], draws(k - 1), chosen[k - 1], lists[k], chosen'[k - 1], lists'[k]);
      assert chosen[..k] == chosen[..k - 1] + [chosen[k - 1]] && chosen'[..k] == chosen'[..k - 1] + [chosen'[k - 1]];
    }
  }

  lemma TakenOnce(left: seq<Candidate>, draw: real -> real, a: Candidate, after: seq<Candidate>, a': Candidate, after': seq<Candidate>)
    requires NonNegative(left) && Takes(left, draw, a, after) && Takes(left, draw, a', after')
    ensures a == a' && after == after' && NonNegative(after)
  {
    hide RemoveAt;
    hide Reaches;
    var i: nat :| TakesAt(left, draw, i, a, after);
    var j: nat :| TakesAt(left, draw, j, a', after');
    ReachesOnce(Weights(left), draw(RealTotal(Weights(left))), i, j);
    RemoveNonNegative(left, i);
  }

  lemma TakesFrom(left: seq<Candidate>, draw: real -> real, i: nat)
    requires i < |left| && Reaches(Weights(left), draw(RealTotal(Weights(left))), i)
    ensures Takes(left, draw, left[i], RemoveAt(left, i))
  {
    hide RemoveAt;
    hide Reaches;
    assert TakesAt(left, draw, i, left[i], RemoveAt(left, i));
  }

  /** `weighted_sample_n_no_replace`. The draws decide, one after the other, who is
      chosen. Chosen and remaining nodes are the given ones; a result has n nodes, or at
      least `minNodes` with only weightless nodes left; a valid request has no result
      only if fewer than `minNodes` nodes have a positive weight; and there is a result
      with n nodes whenever n nodes have a positive weight. */
  method SampleNoReplace(nodes: seq<Candidate>, n: nat, minNodes: nat, draws: nat -> (real -> real))
    returns (result: Option<seq<Candidate>>, ghost lists: seq<seq<Candidate>>)
    requires NonNegative(nodes)
    requires forall i, total :: total > 0.0 ==> 0.0 <= draws(i)(total) < total
    ensures n == 0 || n > |nodes| ==> result.None?
    ensures result.None? ==> n == 0 || n > |nodes| || Positive(nodes) < minNodes
    ensures result.Some? ==> Sampling(nodes, draws, result.value, lists)
    ensures result.Some? ==> multiset(result.value) + multiset(lists[|result.value|]) == multiset(nodes)
    ensures result.Some? ==> |result.value| == n
                             || (minNodes <= |result.value| < n && forall x :: x in lists[|result.value|] ==> x.weight == 0.0)
    ensures 0 < n <= Positive(nodes) ==> result.Some? && |result.value| == n
  {
    hide Reaches;
    hide RemoveAt;
    hide Sampling;
    lists := [nodes];
    PositiveBounded(nodes);
    if |nodes| == 0 || n == 0 || n > |nodes| {
      return None, lists;
    }
    var left, chosen := nodes, [];
    SamplingStart(nodes, draws);
    for i := 0 to n
      invariant |lists| == |chosen| + 1 && lists[|chosen|] == left && Sampling(nodes, draws, chosen, lists)
      invariant NonNegative(left) && multiset(chosen) + multiset(left) == multiset(nodes)
      invariant |chosen| == i || (minNodes <= |chosen| < i && forall x :: x in left ==> x.weight == 0.0)
      invariant Positive(left) + |chosen| >= Positive(nodes)
    {
      var idx := SampleOne(left, draws(i));
      if idx.Some? {
        PositiveRemove(left, idx.value);
        RemoveMultiset(left, idx.value);
        RemoveNonNegative(left, idx.value);
        SamplingNext(nodes, draws, chosen, lists, idx.value);
        chosen := chosen + [left[idx.value]];
        left := RemoveAt(left, idx.value);
        lists := lists + [left];
      } else {
        NonePositive(left);
        if |chosen| < minNodes {
          return None, lists;
        }
      }
    }
    if |chosen| < n {
      NonePositive(left);
    }
    return Some(chosen), lists;
  }

  lemma SamplingStart(nodes: seq<Candidate>, draws: nat -> (real -> real))
    ensures Sampling(nodes, draws, [], [nodes])
  {
  }

  lemma RemoveNonNegative(nodes: seq<Candidate>, i: nat)
    requires NonNegative(nodes) && i < |nodes|
    ensures NonNegative(RemoveAt(nodes, i))
  {
  }

  lemma {:induction false} PositiveBounded(nodes: seq<Candidate>)
    ensures Positive(nodes) <= |nodes|
  {
    if nodes != [] {
      PositiveBounded(nodes[1..]);
    }
  }
}
