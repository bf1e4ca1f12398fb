/** The in-memory store: scenarios, validations, runs and what is recorded against them. */
module Storage {
  import opened Ordering
  import opened Snapshots
  import opened BaselineSolve
  import opened Planning
  import opened ChangeSets
  import opened Alternatives
  import opened Explanations
  import opened Sequences

  datatype ScenarioState = ValidationRequired | ReadyToSolve | Solved

  /** A stored scenario. Its snapshot never changes. */
  datatype Scenario = Scenario(
    id: Id,
    createdAt: int,
    snapshot: Snapshot,
    parent: Option<Id>,
    changes: seq<Change>,
    state: ScenarioState)

  datatype DecisionState = Accepted | Held | Rejected

  datatype Decision = Decision(id: Id, run: Id, state: DecisionState)

  datatype Event =
    | ScenarioCreated
    | ValidationCompleted
    | RunCompleted(run: Id)
    | AlternativeCreated(run: Id, order: Id, found: Option<Id>)
    | DecisionRecorded(run: Id, decision: Id)

  /** Everything the store holds, as one value. */
  datatype State = State(
    scenarios: map<Id, Scenario>,
    validations: map<Id, Validation>,
    runs: map<Id, Run>,
    explanations: map<Id, Explanation>,
    decisions: map<Id, seq<Decision>>,
    trace: map<Id, seq<Event>>,
    scenarioSeq: nat,
    runSeq: nat,
    alternativeSeq: nat)

  const Empty := State(map[], map[], map[], map[], map[], map[], 0, 0, 0)

  function DecisionsOf(s: State, run: Id): seq<Decision> {
    if run in s.decisions then s.decisions[run] else []
  }

  function TraceOf(s: State, scenario: Id): seq<Event> {
    if scenario in s.trace then s.trace[scenario] else []
  }

  function RunsOf(s: State, scenario: Id): set<Id> {
    set r | r in s.runs && s.runs[r].scenario == scenario
  }

  function Traced(s: State, scenario: Id, event: Event): State {
    s.(trace := s.trace[scenario := TraceOf(s, scenario) + [event]])
  }

  /** The scenario, its runs and everything recorded against them are gone. */
  function Without(s: State, scenario: Id): State {
    var gone := RunsOf(s, scenario);
    s.(scenarios := s.scenarios - {scenario},
       validations := s.validations - {scenario},
       trace := s.trace - {scenario},
       runs := s.runs - gone,
       explanations := s.explanations - gone,
       decisions := s.decisions - gone)
  }

  // ---------------------------------------------------------------- newest first

  /** Later creation first, then the greater identifier. */
  predicate NewerLeq(a: Scenario, b: Scenario) {
    a.createdAt > b.createdAt || (a.createdAt == b.createdAt && Leq(b.id, a.id))
  }

  lemma NewerOrder()
    ensures TotalOrder(NewerLeq)
  {
    forall a: Scenario, b: Scenario ensures NewerLeq(a, b) || NewerLeq(b, a) {
      LeqTotal(a.id, b.id);
    }
    forall a: Scenario, b: Scenario, c: Scenario | NewerLeq(a, b) && NewerLeq(b, c) ensures NewerLeq(a, c) {
      if a.createdAt == b.createdAt == c.createdAt {
        LeqTransitive(c.id, b.id, a.id);
      }
    }
  }

  function ScenarioId(x: Scenario): Id { x.id }

  ghost predicate Keyed(all: map<Id, Scenario>) {
    forall k :: k in all ==> all[k].id == k
  }

  /** The `limit` newest scenarios, newest first. */
  ghost predicate Newest(all: map<Id, Scenario>, limit: nat, listed: seq<Scenario>) {
    && Sorted(listed, NewerLeq) && |listed| <= limit
    && (forall x :: x in listed ==> exists k :: k in all && all[k] == x)
    && (Keyed(all) ==> DistinctKeys(listed, ScenarioId))
    && (|all| <= limit ==> forall k :: k in all ==> all[k] in listed)
    && (|all| > limit ==> |listed| == limit)
    && (forall x, k :: x in listed && k in all && all[k] !in listed ==> NewerLeq(x, all[k]))
  }

  /** A dictionary's values, each once. */
  method Values(all: map<Id, Scenario>) returns (records: seq<Scenario>)
    ensures |records| == |all|
    ensures Keyed(all) ==> DistinctKeys(records, ScenarioId)
    ensures forall x :: x in records <==> exists k :: k in all && all[k] == x
  {
    records := [];
    var rest := all;
    while |rest| > 0
      invariant rest.Keys <= all.Keys && forall k :: k in rest ==> rest[k] == all[k]
      invariant |records| + |rest| == |all|
      invariant Keyed(all) ==> DistinctKeys(records, ScenarioId)
      invariant forall x :: x in records <==> exists k :: k in all && k !in rest && all[k] == x
      decreases |rest|
    {
      var k := SomeKey(rest);
      if Keyed(all) {
        AppendDistinct(records, rest[k]);
      }
      records := records + [rest[k]];
      rest := Dropped(rest, k);
    }
  }

  lemma AppendDistinct(records: seq<Scenario>, x: Scenario)
    requires forall r :: r in records ==> r.id != x.id
    ensures DistinctKeys(records, ScenarioId) ==> DistinctKeys(records + [x], ScenarioId)
  {
    if DistinctKeys(records, ScenarioId) {
      var all := records + [x];
      forall i, j | 0 <= i < j < |all| ensures ScenarioId(all[i]) != ScenarioId(all[j]) {
        assert all[i] == records[i] && all[i] in records;
        assert j < |records| ==> ScenarioId(records[i]) != ScenarioId(records[j]);
      }
    }
  }

  lemma KeysLikeMap(m: map<Id, Scenario>)
    ensures |m.Keys| == |m|
  {
  }

  method SomeKey(m: map<Id, Scenario>) returns (k: Id)
    requires |m| > 0
    ensures k in m
  {
    KeysLikeMap(m);
    assert m.Keys != {};
    k :| k in m.Keys;
  }

  function Dropped(m: map<Id, Scenario>, k: Id): (r: map<Id, Scenario>)
    requires k in m
    ensures |r| == |m| - 1 && r.Keys == m.Keys - {k} && forall j :: j in r ==> r[j] == m[j]
  {
    var r := m - {k};
    assert r.Keys == m.Keys - {k};
    assert |r.Keys| == |r| && |m.Keys| == |m|;
    r
  }

  lemma FirstOnesAreNewest(all: map<Id, Scenario>, records: seq<Scenario>, sorted: seq<Scenario>, limit: nat)
    requires |records| == |all| && forall x :: x in records <==> exists k :: k in all && all[k] == x
    requires Keyed(all) ==> DistinctKeys(records, ScenarioId)
    requires multiset(sorted) == multiset(records) && Sorted(sorted, NewerLeq)
    ensures Newest(all, limit, if |sorted| <= limit then sorted else sorted[..limit])
  {
    SameMultisetSameMembers(sorted, records);
    if Keyed(all) {
      KeysStayDistinct(records, sorted, ScenarioId);
    }
    var listed := if |sorted| <= limit then sorted else sorted[..limit];
    forall x | x in listed ensures x in records {
      var i :| 0 <= i < |listed| && listed[i] == x;
      assert sorted[i] in sorted;
    }
    forall k | k in all ensures all[k] in sorted {
      assert all[k] in records;
    }
    forall x, k | x in listed && k in all && all[k] !in listed ensures NewerLeq(x, all[k]) {
      var i :| 0 <= i < |listed| && listed[i] == x;
      var j :| 0 <= j < |sorted| && sorted[j] == all[k];
      assert j >= |listed|;
    }
  }

  /** Newest first, as a list screen and the deletion check read it. */
  method ListNewest(all: map<Id, Scenario>, limit: nat) returns (listed: seq<Scenario>)
    ensures Newest(all, limit, listed)
  {
    var records := Values(all);
    var sorted := Sort(records, NewerLeq);
    NewerOrder();
    SortSorts(records, NewerLeq);
    FirstOnesAreNewest(all, records, sorted, limit);
    listed := if |sorted| <= limit then sorted else sorted[..limit];
  }

  /** The other scenarios that come before this one in the listing. */
  ghost function NewerThan(all: map<Id, Scenario>, k: Id): set<Id>
    requires k in all
  {
    set j | j in all && j != k && NewerLeq(all[j], all[k])
  }

  ghost function IdsIn(listed: seq<Scenario>): set<Id> {
    set x | x in MapSeq(listed, ScenarioId)
  }

  lemma IdsInSize(listed: seq<Scenario>)
    requires DistinctKeys(listed, ScenarioId)
    ensures |IdsIn(listed)| == |listed|
  {
    DistinctMapped(listed, ScenarioId);
    DistinctSize(MapSeq(listed, ScenarioId));
  }

  lemma IdsInMembers(all: map<Id, Scenario>, limit: nat, listed: seq<Scenario>, j: Id)
    requires Keyed(all) && Newest(all, limit, listed)
    ensures j in IdsIn(listed) <==> j in all && all[j] in listed
  {
    if j in IdsIn(listed) {
      var i :| 0 <= i < |listed| && MapSeq(listed, ScenarioId)[i] == j;
      assert listed[i] in listed;
    }
    if j in all && all[j] in listed {
      var i :| 0 <= i < |listed| && listed[i] == all[j];
      assert MapSeq(listed, ScenarioId)[i] == j;
    }
  }

  lemma NewerIsStrict(all: map<Id, Scenario>, j: Id, k: Id)
    requires Keyed(all) && j in all && k in all && NewerLeq(all[j], all[k]) && NewerLeq(all[k], all[j])
    ensures j == k
  {
    LeqAntisymmetric(j, k);
  }

  lemma NewerAreListed(all: map<Id, Scenario>, limit: nat, listed: seq<Scenario>, k: Id)
    requires Keyed(all) && Newest(all, limit, listed) && k in all && all[k] in listed
    ensures NewerThan(all, k) + {k} <= IdsIn(listed)
  {
    forall j | j in NewerThan(all, k) + {k} ensures j in IdsIn(listed) {
      IdsInMembers(all, limit, listed, j);
      if all[j] !in listed {
        NewerIsStrict(all, j, k);
      }
    }
  }

  /** A scenario is listed exactly when fewer than `limit` others come before it. */
  lemma ListedIffFewNewer(all: map<Id, Scenario>, limit: nat, listed: seq<Scenario>, k: Id)
    requires Keyed(all) && Newest(all, limit, listed) && k in all
    ensures all[k] in listed <==> |NewerThan(all, k)| < limit
  {
    IdsInSize(listed);
    if all[k] in listed {
      NewerAreListed(all, limit, listed, k);
      SubsetSize(NewerThan(all, k) + {k}, IdsIn(listed));
    } else {
      forall j | j in IdsIn(listed) ensures j in NewerThan(all, k) {
        IdsInMembers(all, limit, listed, j);
      }
      SubsetSize(IdsIn(listed), NewerThan(all, k));
    }
  }

  // ---------------------------------------------------------------- the store

  class MemoryStore {
    var scenarios: map<Id, Scenario>
    var validations: map<Id, Validation>
    var runs: map<Id, Run>
    var explanations: map<Id, Explanation>
    var decisions: map<Id, seq<Decision>>
    var trace: map<Id, seq<Event>>
    var scenarioSeq: nat
    var runSeq: nat
    var alternativeSeq: nat

    function Contents(): State
      reads this
    {
      State(scenarios, validations, runs, explanations, decisions, trace, scenarioSeq, runSeq, alternativeSeq)
    }

    constructor ()
      ensures Contents() == Empty
    {
      scenarios, validations, runs, explanations, decisions, trace := map[], map[], map[], map[], map[], map[];
      scenarioSeq, runSeq, alternativeSeq := 0, 0, 0;
    }

    method NextScenarioId() returns (id: Id)
      modifies this`scenarioSeq
      ensures scenarioSeq == old(scenarioSeq) + 1 && id == Format(SCENARIO_PREFIX, scenarioSeq)
    {
      scenarioSeq := scenarioSeq + 1;
      id := Format(SCENARIO_PREFIX, scenarioSeq);
    }

    method NextRunId() returns (id: Id)
      modifies this`runSeq
      ensures runSeq == old(runSeq) + 1 && id == Format(RUN_PREFIX, runSeq)
    {
      runSeq := runSeq + 1;
      id := Format(RUN_PREFIX, runSeq);
    }

    method NextAlternativeSequence() returns (n: nat)
      modifies this`alternativeSeq
      ensures alternativeSeq == old(alternativeSeq) + 1 && n == alternativeSeq
    {
      alternativeSeq := alternativeSeq + 1;
      n := alternativeSeq;
    }

    method SaveScenario(record: Scenario)
      modifies this`scenarios
      ensures scenarios == old(scenarios)[record.id := record]
    {
      scenarios := scenarios[record.id := record];
    }

    method GetScenario(id: Id) returns (r: Option<Scenario>)
      ensures r == if id in scenarios then Some(scenarios[id]) else None
    {
      r := if id in scenarios then Some(scenarios[id]) else None;
    }

    method ListScenarios(limit: nat) returns (listed: seq<Scenario>)
      ensures Newest(scenarios, limit, listed)
    {
      listed := ListNewest(scenarios, limit);
    }

    method UpdateScenarioState(id: Id, state: ScenarioState)
      modifies this`scenarios
      ensures scenarios ==
                if id in old(scenarios) then old(scenarios)[id := old(scenarios)[id].(state := state)]
                else old(scenarios)
    {
      if id in scenarios {
        scenarios := scenarios[id := scenarios[id].(state := state)];
      }
    }

    /** Removes the scenario and, run by run, what hangs on it. */
    method DeleteScenario(id: Id)
      modifies this
      ensures Contents() == Without(old(Contents()), id)
    {
      scenarios := scenarios - {id};
      validations := validations - {id};
      trace := trace - {id};
      var gone := set r | r in runs && runs[r].scenario == id;
      DropRuns(gone);
    }

    method DropRuns(gone: set<Id>)
      modifies this`runs, this`explanations, this`decisions
      ensures runs == old(runs) - gone
      ensures explanations == old(explanations) - gone
      ensures decisions == old(decisions) - gone
    {
      var rest := gone;
      while rest != {}
        invariant rest <= gone
        invariant runs == old(runs) - (gone - rest)
        invariant explanations == old(explanations) - (gone - rest)
        invariant decisions == old(decisions) - (gone - rest)
        decreases rest
      {
        var r :| r in rest;
        assert gone - (rest - {r}) == (gone - rest) + {r};
        runs := runs - {r};
        explanations := explanations - {r};
        decisions := decisions - {r};
        rest := rest - {r};
      }
      assert gone - {} == gone;
    }

    method SaveValidation(id: Id, result: Validation)
      modifies this`validations
      ensures validations == old(validations)[id := result]
    {
      validations := validations[id := result];
    }

    method GetValidation(id: Id) returns (r: Option<Validation>)
      ensures r == if id in validations then Some(validations[id]) else None
    {
      r := if id in validations then Some(validations[id]) else None;
    }

    method SaveRun(record: Run)
      modifies this`runs
      ensures runs == old(runs)[record.id := record]
    {
      runs := runs[record.id := record];
    }

    method GetRun(id: Id) returns (r: Option<Run>)
      ensures r == if id in runs then Some(runs[id]) else None
    {
      r := if id in runs then Some(runs[id]) else None;
    }

    method SaveExplanation(run: Id, e: Explanation)
      modifies this`explanations
      ensures explanations == old(explanations)[run := e]
    {
      explanations := explanations[run := e];
    }

    method GetExplanation(run: Id) returns (r: Option<Explanation>)
      ensures r == if run in explanations then Some(explanations[run]) else None
    {
      r := if run in explanations then Some(explanations[run]) else None;
    }

    method ClearExplanation(run: Id)
      modifies this`explanations
      ensures explanations == old(explanations) - {run}
    {
      explanations := explanations - {run};
    }

    /** Replaces one order's outcome inside a run; nothing else in the run moves. */
    method UpdateOrderOutcome(run: Id, order: Id, outcome: OrderOutcome)
      modifies this`runs
      ensures runs == if run in old(runs) then old(runs)[run := Replaced(old(runs)[run], order, outcome)] else old(runs)
    {
      if run !in runs {
        return;
      }
      var outcomes := runs[run].outcomes;
      for n := 0 to |outcomes|
        invariant forall j :: 0 <= j < n ==> outcomes[j].order != order
        invariant runs == old(runs)
      {
        if outcomes[n].order == order {
          FirstIs(outcomes, order, n);
          runs := runs[run := runs[run].(outcomes := outcomes[n := outcome])];
          return;
        }
      }
      assert old(runs)[run := Replaced(old(runs)[run], order, outcome)] == old(runs);
    }

    method SaveDecision(record: Decision)
      modifies this`decisions
      ensures decisions == old(decisions)[record.run := DecisionsOf(old(Contents()), record.run) + [record]]
    {
      decisions := decisions[record.run := (if record.run in decisions then decisions[record.run] else []) + [record]];
    }

    method ListDecisions(run: Id) returns (r: seq<Decision>)
      ensures r == DecisionsOf(Contents(), run)
    {
      r := if run in decisions then decisions[run] else [];
    }

    method AppendTrace(scenario: Id, event: Event)
      modifies this`trace
      ensures Contents() == Traced(old(Contents()), scenario, event)
    {
      trace := trace[scenario := (if scenario in trace then trace[scenario] else []) + [event]];
    }

    method ListTrace(scenario: Id) returns (r: seq<Event>)
      ensures r == TraceOf(Contents(), scenario)
    {
      r := if scenario in trace then trace[scenario] else [];
    }
  }

  function Replaced(run: Run, order: Id, outcome: OrderOutcome): Run {
    match FirstOutcome(run.outcomes, order, 0)
    case Some(i) => run.(outcomes := run.outcomes[i := outcome])
    case None => run
  }

  // ---------------------------------------------------------------- how a listing reads

  /** Later creation comes first, and of two made at the same time the greater identifier. */
  lemma ListedReads(all: map<Id, Scenario>, limit: nat, listed: seq<Scenario>, i: nat, j: nat)
    requires Newest(all, limit, listed) && i < j < |listed|
    ensures listed[i].createdAt > listed[j].createdAt
            || (listed[i].createdAt == listed[j].createdAt && Leq(listed[j].id, listed[i].id))
  {
    assert NewerLeq(listed[i], listed[j]);
  }

  /** Who comes before a scenario. */
  lemma NewerReads(all: map<Id, Scenario>, k: Id, j: Id)
    requires k in all
    ensures j in NewerThan(all, k) <==>
              && j in all && j != k
              && (all[j].createdAt > all[k].createdAt
                  || (all[j].createdAt == all[k].createdAt && Leq(all[k].id, all[j].id)))
  {
  }
}
