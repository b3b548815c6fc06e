/** How the relay settles the group keys that the members report
    (network/crates/actors/src/app_state_actor.rs): for each key type, a value that
    was reported most often.
 */
module GroupKeyVote {
  type KeyMap = map<string, nat>

  /** How many reports give this value for this name. */
  function Count(reports: seq<KeyMap>, name: string, value: nat): nat {
    if reports == [] then 0
    else
      var last := reports[|reports| - 1];
      Count(reports[..|reports| - 1], name, value) + (if name in last && last[name] == value then 1 else 0)
  }

  /** How many reports have this name. */
  function Mentions(reports: seq<KeyMap>, name: string): nat {
    if reports == [] then 0
    else Mentions(reports[..|reports| - 1], name) + (if name in reports[|reports| - 1] then 1 else 0)
  }

  /** The positions of the reports that give this value for this name. */
  function Givers(reports: seq<KeyMap>, name: string, value: nat): set<nat> {
    set k: nat | k < |reports| && name in reports[k] && reports[k][name] == value
  }

  function Mentioners(reports: seq<KeyMap>, name: string): set<nat> {
    set k: nat | k < |reports| && name in reports[k]
  }

  lemma {:induction false} CountIsNumber(reports: seq<KeyMap>, name: string, value: nat)
    ensures Count(reports, name, value) == |Givers(reports, name, value)|
  {
    if reports != [] {
      var n := |reports| - 1;
      var first := reports[..n];
      CountIsNumber(first, name, value);
      assert Givers(reports, name, value)
             == Givers(first, name, value) + (if name in reports[n] && reports[n][name] == value then {n} else {});
    }
  }

  lemma {:induction false} MentionsIsNumber(reports: seq<KeyMap>, name: string)
    ensures Mentions(reports, name) == |Mentioners(reports, name)|
  {
    if reports != [] {
      var n := |reports| - 1;
      var first := reports[..n];
      MentionsIsNumber(first, name);
      assert Mentioners(reports, name) == Mentioners(first, name) + (if name in reports[n] then {n} else {});
    }
  }

  type Counts = map<string, map<nat, nat>>

  /** The nested count map holds exactly the positive counts. */
  ghost predicate Counted(counts: Counts, reports: seq<KeyMap>) {
    && (forall name :: name in counts <==> Mentions(reports, name) > 0)
    && forall name, value :: name in counts ==>
         (if value in counts[name] then counts[name][value] else 0) == Count(reports, name, value)
         && (value in counts[name] ==> counts[name][value] > 0)
  }

  /** One entry of one report. */
  function Bump(counts: Counts, name: string, value: nat): Counts {
    var entry: map<nat, nat> := if name in counts then counts[name] else map[];
    counts[name := entry[value := (if value in entry then entry[value] else 0) + 1]]
  }

  /** The report counted so far is the part of the last one outside rest. */
  function Without(report: KeyMap, rest: set<string>): (r: KeyMap)
    ensures r.Keys == report.Keys - rest
  {
    map name | name in report && name !in rest :: report[name]
  }

  lemma BumpCounts(counts: Counts, reports: seq<KeyMap>, report: KeyMap, rest: set<string>, name: string)
    requires name in rest && name in report && Counted(counts, reports + [Without(report, rest)])
    ensures Counted(Bump(counts, name, report[name]), reports + [Without(report, rest - {name})])
  {
    var before, after := reports + [Without(report, rest)], reports + [Without(report, rest - {name})];
    assert before[..|reports|] == reports == after[..|reports|];
    var counts' := Bump(counts, name, report[name]);
    forall n
      ensures n in counts' <==> Mentions(after, n) > 0
    {
      assert n in counts <==> Mentions(before, n) > 0;
      assert n in Without(report, rest - {name}) <==> n == name || n in Without(report, rest);
    }
    forall n, v | n in counts'
      ensures (if v in counts'[n] then counts'[n][v] else 0) == Count(after, n, v)
      ensures v in counts'[n] ==> counts'[n][v] > 0
    {
      assert n !in counts ==> Mentions(before, n) == 0;
      NoMentions(before, n, v);
    }
  }

  lemma {:induction false} NoMentions(reports: seq<KeyMap>, name: string, value: nat)
    ensures Count(reports, name, value) <= Mentions(reports, name)
  {
    if reports != [] {
      NoMentions(reports[..|reports| - 1], name, value);
    }
  }

  /** Counting the entries of one report. */
  method CountReport(before: Counts, report: KeyMap, ghost reports: seq<KeyMap>) returns (counts: Counts)
    requires Counted(before, reports)
    ensures Counted(counts, reports + [report])
  {
    hide Counted;
    hide Bump;
    hide Without;
    counts := before;
    var rest := report.Keys;
    StartReport(counts, reports, report);
    while rest != {}
      invariant rest <= report.Keys && Counted(counts, reports + [Without(report, rest)])
      decreases |rest|
    {
      var name :| name in rest;
      BumpCounts(counts, reports, report, rest, name);
      counts := Bump(counts, name, report[name]);
      rest := rest - {name};
    }
    WholeReport(report);
  }

  lemma WholeReport(report: KeyMap)
    ensures Without(report, {}) == report
  {
  }

  /** The first loop: count every entry of every report. */
  method CountValues(reports: seq<KeyMap>) returns (counts: Counts)
    ensures Counted(counts, reports)
  {
    hide Counted;
    counts := map[];
    NothingCounted();
    assert reports[..0] == [];
    for i := 0 to |reports|
      invariant Counted(counts, reports[..i])
    {
      counts := CountReport(counts, reports[i], reports[..i]);
      assert reports[..i] + [reports[i]] == reports[..i + 1];
    }
    assert reports[..|reports|] == reports;
  }

  lemma NothingCounted()
    ensures Counted(map[], [])
  {
  }

  lemma StartReport(counts: Counts, reports: seq<KeyMap>, report: KeyMap)
    requires Counted(counts, reports)
    ensures Counted(counts, reports + [Without(report, report.Keys)])
  {
    assert (reports + [Without(report, report.Keys)])[..|reports|] == reports;
  }

  /** The last maximal entry, in whatever order the map is iterated. */
  method MaxByCount(counts: map<nat, nat>) returns (value: nat)
    requires counts != map[]
    ensures value in counts && forall v :: v in counts ==> counts[v] <= counts[value]
  {
    assert counts.Keys != {};
    var rest: set<nat> := counts.Keys;
    var first :| first in counts.Keys;
    value, rest := first, rest - {first};
    while rest != {}
      invariant rest <= counts.Keys && value in counts
      invariant forall v :: v in counts && v !in rest ==> counts[v] <= counts[value]
      decreases |rest|
    {
      var v :| v in rest;
      if counts[v] >= counts[value] {
        value := v;
      }
      rest := rest - {v};
    }
  }

  /** A value was reported for the name, and none more often. */
  ghost predicate MostReported(reports: seq<KeyMap>, name: string, value: nat) {
    Count(reports, name, value) > 0 && forall v :: Count(reports, name, v) <= Count(reports, name, value)
  }

  /** `resolve_conflicts_between_group_keys`. */
  method ResolveConflicts(reports: seq<KeyMap>) returns (finalized: KeyMap)
    ensures forall name :: name in finalized <==> Mentions(reports, name) > 0
    ensures forall name :: name in finalized ==> MostReported(reports, name, finalized[name])
  {
    hide Count;
    hide Mentions;
    var counts := CountValues(reports);
    finalized := map[];
    var rest := counts.Keys;
    while rest != {}
      invariant rest <= counts.Keys && finalized.Keys == counts.Keys - rest
      invariant forall name :: name in finalized ==> MostReported(reports, name, finalized[name])
      decreases |rest|
    {
      var name :| name in rest;
      EntryExists(counts, reports, name);
      var value := MaxByCount(counts[name]);
      assert MostReported(reports, name, value);
      finalized := finalized[name := value];
      rest := rest - {name};
    }
  }

  /** What settling means, in terms of the reports themselves: a name that some report
      has is settled, on a value that some report gives and that no other value is
      given more often than. */
  lemma SettledValue(reports: seq<KeyMap>, finalized: KeyMap, name: string)
    requires name in finalized <==> Mentions(reports, name) > 0
    requires name in finalized ==> MostReported(reports, name, finalized[name])
    ensures name in finalized <==> exists k :: 0 <= k < |reports| && name in reports[k]
    ensures name in finalized ==> exists k :: 0 <= k < |reports| && name in reports[k] && reports[k][name] == finalized[name]
    ensures name in finalized ==> forall v :: |Givers(reports, name, v)| <= |Givers(reports, name, finalized[name])|
  {
    MentionsIsNumber(reports, name);
    if exists k :: 0 <= k < |reports| && name in reports[k] {
      var k: nat :| k < |reports| && name in reports[k];
      assert k in Mentioners(reports, name);
    }
    if name in finalized {
      CountIsNumber(reports, name, finalized[name]);
      var givers := Givers(reports, name, finalized[name]);
      assert givers != {};
      var k :| k in givers;
      forall v
        ensures |Givers(reports, name, v)| <= |givers|
      {
        CountIsNumber(reports, name, v);
      }
    }
  }

  lemma EntryExists(counts: Counts, reports: seq<KeyMap>, name: string)
    requires Counted(counts, reports) && name in counts
    ensures counts[name] != map[]
  {
    var value := SomeValue(reports, name);
    assert Count(reports, name, value) > 0;
  }

  lemma {:induction false} SomeValue(reports: seq<KeyMap>, name: string) returns (value: nat)
    requires Mentions(reports, name) > 0
    ensures Count(reports, name, value) > 0
  {
    var n := |reports| - 1;
    if name in reports[n] {
      value := reports[n][name];
    } else {
      value := SomeValue(reports[..n], name);
    }
  }

  lemma {:induction false} TwoValues(reports: seq<KeyMap>, name: string, v: nat, w: nat)
    requires v != w
    ensures Count(reports, name, v) + Count(reports, name, w) <= Mentions(reports, name)
  {
    if reports != [] {
      TwoValues(reports[..|reports| - 1], name, v, w);
    }
  }

  /** A value that more than half of the reports of a name agree on is the one chosen. */
  lemma MajorityWins(reports: seq<KeyMap>, name: string, value: nat, chosen: nat)
    requires 2 * Count(reports, name, value) > Mentions(reports, name) && MostReported(reports, name, chosen)
    ensures chosen == value
  {
    if chosen != value {
      TwoValues(reports, name, value, chosen);
    }
  }
}
