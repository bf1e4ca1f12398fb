/** The store as a state machine: what each request may do to it, and what every history keeps. */
module Lifecycle {
  import opened Ordering
  import opened Snapshots
  import opened Eligibility
  import opened GateProperties
  import opened Plans
  import opened Separability
  import opened AssignmentModel
  import opened BaselineSolve
  import opened Listing
  import opened PlanValidator
  import opened Agreement
  import opened Hashing
  import opened Planning
  import opened ChangeSets
  import opened DerivedScenario
  import opened Alternatives
  import opened Explanations
  import opened Sequences
  import opened Storage

  // ---------------------------------------------------------------- actions

  /** What a request did. Reads and refused requests that use no number are `Nothing`. */
  datatype Action =
    | Nothing
    | CreateScenario(record: Scenario)
    | Validate(scenario: Id, validation: Validation, anyCandidate: bool)
    | AttemptRun
    | CompleteRun(run: Run)
    | AttemptAlternative
    | MissAlternative(baseline: Id, order: Id)
    | FindAlternative(baseline: Id, order: Id, record: Scenario, run: Run, validation: Validation)
    | Decide(decision: Decision)
    | Explain(of: Id, explanation: Explanation)
    | Delete(scenario: Id)

  const CHILD_SCAN_LIMIT := 100

  predicate Acceptable(run: Run) {
    run.status == SolverOptimal && run.validatorPass
  }

  /** Every scenario derived from this one has at least as many newer ones as the check reads. */
  ghost predicate NoListedChild(all: map<Id, Scenario>, id: Id) {
    forall k :: k in all && all[k].parent == Some(id) ==> |NewerThan(all, k)| >= CHILD_SCAN_LIMIT
  }

  /** New records carry the numbers the counters hand out next. */
  predicate IssuedIds(s: State, a: Action) {
    match a
    case CreateScenario(x) => x.id == Format(SCENARIO_PREFIX, s.scenarioSeq + 1)
    case CompleteRun(run) => run.id == Format(RUN_PREFIX, s.runSeq + 1)
    case FindAlternative(_, _, x, run, _) =>
      && x.id == Format(ALTERNATIVE_SCENARIO_PREFIX, s.alternativeSeq + 1)
      && run.id == Format(ALTERNATIVE_RUN_PREFIX, s.alternativeSeq + 1)
    case _ => true
  }

  /** What an action refers to is there. */
  predicate Linked(s: State, a: Action) {
    match a
    case CreateScenario(x) => x.state == ValidationRequired
    case Validate(id, v, _) => id in s.scenarios && v.scenario == id
    case CompleteRun(run) => run.scenario in s.scenarios && run.scenario in s.validations && run.parent.None?
    case MissAlternative(r, _) => r in s.runs
    case FindAlternative(r, _, x, run, v) =>
      && r in s.runs && s.runs[r].scenario in s.scenarios
      && x.state == Solved && x.parent == Some(s.runs[r].scenario)
      && run.scenario == x.id && v.scenario == x.id && run.parent == Some(r)
    case Decide(d) => d.run in s.runs && (d.state == Accepted ==> Acceptable(s.runs[d.run]))
    case Explain(r, _) => r in s.runs && r !in s.explanations
    case Delete(id) => id in s.scenarios
    case _ => true
  }

  /** A result worth storing: the solver produced a plan, it speaks for every order, and its
      hashed form is its own. */
  ghost predicate Publishable(snapshot: Snapshot, run: Run) {
    && run.status != SolverError && (run.isOptimal <==> run.status == SolverOptimal)
    && run.resultForm == NormaliseResult(run.assignments, run.outcomes)
    && Covers(snapshot, run.outcomes)
  }

  /** What an action brings in is sound. */
  ghost predicate Sourced(s: State, a: Action)
    requires Linked(s, a)
  {
    match a
    case CreateScenario(x) => x.changes == [] && WellFormed(x.snapshot)
    case CompleteRun(run) => FreshResult(s.scenarios[run.scenario].snapshot, run)
    case FindAlternative(r, order, x, run, v) => DerivedFrom(s.scenarios[s.runs[r].scenario].snapshot, order, x, run)
    case Explain(r, e) => Written(e, s.runs[r].outcomes)
    case Delete(id) => NoListedChild(s.scenarios, id)
    case _ => true
  }

  ghost predicate FreshResult(snapshot: Snapshot, run: Run) {
    Publishable(snapshot, run) && forall x :: x in run.outcomes ==> Unsearched(x)
  }

  ghost predicate DerivedFrom(snapshot: Snapshot, order: Id, x: Scenario, run: Run) {
    && x.snapshot == Derived(snapshot, x.id, order, x.changes)
    && WellFormed(x.snapshot) && Publishable(x.snapshot, run)
  }

  /** When a request gets as far as this action. */
  ghost predicate Allowed(s: State, a: Action) {
    IssuedIds(s, a) && Linked(s, a) && Sourced(s, a)
  }

  function WithVerdict(run: Run, order: Id, state: AlternativeState, scenario: Option<Id>): Run {
    run.(outcomes := Applied(run.outcomes, order, state, scenario))
  }

  function InState(s: State, scenario: Id, state: ScenarioState): map<Id, Scenario> {
    if scenario in s.scenarios then s.scenarios[scenario := s.scenarios[scenario].(state := state)] else s.scenarios
  }

  /** The derived scenario with its run and validation, and the verdict on the baseline run,
      whose explanation is dropped. */
  function WithDerived(s: State, r: Id, order: Id, x: Scenario, run: Run, v: Validation): State
    requires r in s.runs
  {
    s.(alternativeSeq := s.alternativeSeq + 1,
       scenarios := s.scenarios[x.id := x],
       runs := s.runs[run.id := run][r := WithVerdict(s.runs[r], order, Available, Some(x.id))],
       validations := s.validations[x.id := v],
       explanations := s.explanations - {r})
  }

  /** The store after the action. */
  function Effect(s: State, a: Action): State {
    match a
    case Nothing => s
    case CreateScenario(x) =>
      Traced(s.(scenarioSeq := s.scenarioSeq + 1, scenarios := s.scenarios[x.id := x]), x.id, ScenarioCreated)
    case Validate(id, v, anyCandidate) =>
      var advances := anyCandidate && id in s.scenarios && s.scenarios[id].state == ValidationRequired;
      Traced(s.(validations := s.validations[id := v],
                scenarios := if advances then InState(s, id, ReadyToSolve) else s.scenarios),
             id, ValidationCompleted)
    case AttemptRun => s.(runSeq := s.runSeq + 1)
    case CompleteRun(run) =>
      Traced(s.(runSeq := s.runSeq + 1, runs := s.runs[run.id := run], scenarios := InState(s, run.scenario, Solved)),
             run.scenario, RunCompleted(run.id))
    case AttemptAlternative => s.(alternativeSeq := s.alternativeSeq + 1)
    case MissAlternative(r, order) =>
      if r !in s.runs then s
      else Traced(s.(alternativeSeq := s.alternativeSeq + 1,
                     runs := s.runs[r := WithVerdict(s.runs[r], order, NoAlternative, None)]),
                  s.runs[r].scenario, AlternativeCreated(r, order, None))
    case FindAlternative(r, order, x, run, v) =>
      if r !in s.runs then s
      else
        var event := AlternativeCreated(r, order, Some(run.id));
        Traced(Traced(WithDerived(s, r, order, x, run, v), s.runs[r].scenario, event), x.id, event)
    case Decide(d) =>
      if d.run !in s.runs then s
      else Traced(s.(decisions := s.decisions[d.run := DecisionsOf(s, d.run) + [d]]),
                  s.runs[d.run].scenario, DecisionRecorded(d.run, d.id))
    case Explain(r, e) =>
      if r !in s.runs then s else s.(explanations := s.explanations[r := e])
    case Delete(id) => Storage.Without(s, id)
  }

  ghost predicate Step(s: State, t: State) {
    exists a :: Allowed(s, a) && t == Effect(s, a)
  }

  // ---------------------------------------------------------------- identifiers

  /** An identifier the counters have yet to hand out. */
  ghost predicate FutureScenario(s: State, id: Id) {
    || (exists n: nat :: n > s.scenarioSeq && id == Format(SCENARIO_PREFIX, n))
    || (exists n: nat :: n > s.alternativeSeq && id == Format(ALTERNATIVE_SCENARIO_PREFIX, n))
  }

  ghost predicate FutureRun(s: State, id: Id) {
    || (exists n: nat :: n > s.runSeq && id == Format(RUN_PREFIX, n))
    || (exists n: nat :: n > s.alternativeSeq && id == Format(ALTERNATIVE_RUN_PREFIX, n))
  }

  lemma IssuedScenario(t: State, n: nat)
    requires n == t.scenarioSeq
    ensures !FutureScenario(t, Format(SCENARIO_PREFIX, n))
  {
    forall m: nat ensures m > n ==> Format(SCENARIO_PREFIX, m) != Format(SCENARIO_PREFIX, n) {
      FormatInjective(SCENARIO_PREFIX, m, n);
    }
    forall m: nat ensures Format(ALTERNATIVE_SCENARIO_PREFIX, m) != Format(SCENARIO_PREFIX, n) {
      FamiliesDoNotMix(m, n);
    }
  }

  lemma IssuedAlternative(t: State, n: nat)
    requires n == t.alternativeSeq
    ensures !FutureScenario(t, Format(ALTERNATIVE_SCENARIO_PREFIX, n))
    ensures !FutureRun(t, Format(ALTERNATIVE_RUN_PREFIX, n))
  {
    forall m: nat
      ensures m > n ==> Format(ALTERNATIVE_SCENARIO_PREFIX, m) != Format(ALTERNATIVE_SCENARIO_PREFIX, n)
      ensures m > n ==> Format(ALTERNATIVE_RUN_PREFIX, m) != Format(ALTERNATIVE_RUN_PREFIX, n)
      ensures Format(SCENARIO_PREFIX, m) != Format(ALTERNATIVE_SCENARIO_PREFIX, n)
      ensures Format(RUN_PREFIX, m) != Format(ALTERNATIVE_RUN_PREFIX, n)
    {
      FormatInjective(ALTERNATIVE_SCENARIO_PREFIX, m, n);
      FormatInjective(ALTERNATIVE_RUN_PREFIX, m, n);
      FamiliesDoNotMix(n, m);
    }
  }

  lemma IssuedRun(t: State, n: nat)
    requires n == t.runSeq
    ensures !FutureRun(t, Format(RUN_PREFIX, n))
  {
    forall m: nat ensures m > n ==> Format(RUN_PREFIX, m) != Format(RUN_PREFIX, n) {
      FormatInjective(RUN_PREFIX, m, n);
    }
    forall m: nat ensures Format(ALTERNATIVE_RUN_PREFIX, m) != Format(RUN_PREFIX, n) {
      FamiliesDoNotMix(m, n);
    }
  }

  predicate CountersGrow(s: State, t: State) {
    s.scenarioSeq <= t.scenarioSeq && s.runSeq <= t.runSeq && s.alternativeSeq <= t.alternativeSeq
  }

  lemma FutureShrinks(s: State, t: State)
    requires CountersGrow(s, t)
    ensures forall id :: FutureScenario(t, id) ==> FutureScenario(s, id)
    ensures forall id :: FutureRun(t, id) ==> FutureRun(s, id)
  {
  }

  // ---------------------------------------------------------------- invariants

  /** Numbers are only ever ahead of what is stored. */
  ghost predicate Numbered(s: State) {
    && (forall id :: id in s.scenarios ==> !FutureScenario(s, id) && s.scenarios[id].id == id)
    && (forall r :: r in s.runs ==> !FutureRun(s, r) && s.runs[r].id == r)
  }

  /** Nothing dangles: every record belongs to something stored. */
  ghost predicate Attached(s: State) {
    && (forall r :: r in s.runs ==> s.runs[r].scenario in s.scenarios && s.runs[r].scenario in s.validations)
    && (forall r :: r in s.decisions ==> r in s.runs)
    && (forall r :: r in s.explanations ==> r in s.runs)
    && s.validations.Keys <= s.scenarios.Keys
    && s.trace.Keys == s.scenarios.Keys
  }

  ghost predicate HasRun(s: State, id: Id) {
    exists r :: r in s.runs && s.runs[r].scenario == id
  }

  /** A scenario is solved exactly when it has a run, and past validation only once validated. */
  ghost predicate StatesRight(s: State) {
    && (forall id :: id in s.scenarios ==> (s.scenarios[id].state == Solved <==> HasRun(s, id)))
    && (forall id :: id in s.scenarios && s.scenarios[id].state != ValidationRequired ==> id in s.validations)
  }

  ghost predicate RunRight(s: State, run: Run) {
    && run.status != SolverError && (run.isOptimal <==> run.status == SolverOptimal)
    && (run.scenario in s.scenarios ==> Covers(s.scenarios[run.scenario].snapshot, run.outcomes))
  }

  /** Every stored run is a published result that speaks for every order of its scenario. */
  ghost predicate RunsRight(s: State) {
    forall r :: r in s.runs ==> RunRight(s, s.runs[r])
  }

  function UnsoughtAll(outcomes: seq<OrderOutcome>): (r: seq<OrderOutcome>)
    ensures |r| == |outcomes| && forall i :: 0 <= i < |r| ==> r[i] == Unsought(outcomes[i])
  {
    seq(|outcomes|, i requires 0 <= i < |outcomes| => Unsought(outcomes[i]))
  }

  /** A baseline run's hashed form is that of its outcomes with the search verdicts taken back. */
  ghost predicate FormsHold(s: State) {
    forall r :: r in s.runs && s.runs[r].parent.None? ==>
      s.runs[r].resultForm == NormaliseResult(s.runs[r].assignments, UnsoughtAll(s.runs[r].outcomes))
  }

  /** Accepted decisions stand on optimal runs that passed validation. */
  ghost predicate DecisionsRight(s: State) {
    forall r :: r in s.decisions ==> forall d :: d in s.decisions[r] ==>
      d.run == r && (d.state == Accepted && r in s.runs ==> Acceptable(s.runs[r]))
  }

  ghost predicate SnapshotsRight(s: State) {
    forall id :: id in s.scenarios ==> WellFormed(s.scenarios[id].snapshot)
  }

  ghost predicate Inv(s: State) {
    && Numbered(s) && Attached(s) && StatesRight(s) && RunsRight(s)
    && FormsHold(s) && DecisionsRight(s) && SnapshotsRight(s)
  }

  // ---------------------------------------------------------------- each action keeps them

  lemma CountersOnlyGrow(s: State, a: Action)
    ensures CountersGrow(s, Effect(s, a))
  {
  }

  /** Only the identifiers just issued are new, and records stay under their own. */
  lemma NewScenarios(s: State, a: Action)
    requires IssuedIds(s, a) && Numbered(s)
    ensures var t := Effect(s, a);
            forall id :: id in t.scenarios ==>
              && t.scenarios[id].id == id
              && (id in s.scenarios || id == Format(SCENARIO_PREFIX, t.scenarioSeq)
                  || id == Format(ALTERNATIVE_SCENARIO_PREFIX, t.alternativeSeq))
  {
    var t := Effect(s, a);
    match a
    case CreateScenario(x) => assert t.scenarios == s.scenarios[x.id := x];
    case FindAlternative(_, _, x, _, _) => assert t.scenarios == s.scenarios || t.scenarios == s.scenarios[x.id := x];
    case _ =>
  }

  lemma NewRuns(s: State, a: Action)
    requires IssuedIds(s, a) && Numbered(s)
    ensures var t := Effect(s, a);
            forall r :: r in t.runs ==>
              && t.runs[r].id == r
              && (r in s.runs || r == Format(RUN_PREFIX, t.runSeq)
                  || r == Format(ALTERNATIVE_RUN_PREFIX, t.alternativeSeq))
  {
  }

  lemma NumberedKept(s: State, a: Action)
    requires Numbered(s) && IssuedIds(s, a)
    ensures Numbered(Effect(s, a))
  {
    var t := Effect(s, a);
    CountersOnlyGrow(s, a);
    NewScenarios(s, a);
    NewRuns(s, a);
    StillNumbered(s, t);
  }

  lemma StillNumbered(s: State, t: State)
    requires Numbered(s) && CountersGrow(s, t)
    requires forall id :: id in t.scenarios ==>
               && t.scenarios[id].id == id
               && (id in s.scenarios || id == Format(SCENARIO_PREFIX, t.scenarioSeq)
                   || id == Format(ALTERNATIVE_SCENARIO_PREFIX, t.alternativeSeq))
    requires forall r :: r in t.runs ==>
               && t.runs[r].id == r
               && (r in s.runs || r == Format(RUN_PREFIX, t.runSeq)
                   || r == Format(ALTERNATIVE_RUN_PREFIX, t.alternativeSeq))
    ensures Numbered(t)
  {
    FutureShrinks(s, t);
    IssuedScenario(t, t.scenarioSeq);
    IssuedAlternative(t, t.alternativeSeq);
    IssuedRun(t, t.runSeq);
  }

  lemma FreshIds(s: State)
    requires Numbered(s)
    ensures Format(SCENARIO_PREFIX, s.scenarioSeq + 1) !in s.scenarios
    ensures Format(ALTERNATIVE_SCENARIO_PREFIX, s.alternativeSeq + 1) !in s.scenarios
    ensures Format(RUN_PREFIX, s.runSeq + 1) !in s.runs
    ensures Format(ALTERNATIVE_RUN_PREFIX, s.alternativeSeq + 1) !in s.runs
  {
    assert FutureScenario(s, Format(SCENARIO_PREFIX, s.scenarioSeq + 1));
    assert FutureScenario(s, Format(ALTERNATIVE_SCENARIO_PREFIX, s.alternativeSeq + 1));
    assert FutureRun(s, Format(RUN_PREFIX, s.runSeq + 1));
    assert FutureRun(s, Format(ALTERNATIVE_RUN_PREFIX, s.alternativeSeq + 1));
  }

  lemma AttachedScenario(s: State, x: Scenario)
    requires Attached(s)
    ensures Attached(Effect(s, CreateScenario(x)))
  {
    assert Effect(s, CreateScenario(x)).trace.Keys == s.trace.Keys + {x.id};
  }

  lemma AttachedValidation(s: State, id: Id, v: Validation, anyCandidate: bool)
    requires Attached(s) && id in s.scenarios
    ensures Attached(Effect(s, Validate(id, v, anyCandidate)))
  {
    assert Effect(s, Validate(id, v, anyCandidate)).trace.Keys == s.trace.Keys;
  }

  lemma AttachedRun(s: State, run: Run)
    requires Attached(s) && run.scenario in s.scenarios && run.scenario in s.validations
    ensures Attached(Effect(s, CompleteRun(run)))
  {
    assert Effect(s, CompleteRun(run)).trace.Keys == s.trace.Keys;
  }

  lemma AttachedMiss(s: State, r: Id, order: Id)
    requires Attached(s) && r in s.runs
    ensures Attached(Effect(s, MissAlternative(r, order)))
  {
    assert Effect(s, MissAlternative(r, order)).trace.Keys == s.trace.Keys;
  }

  lemma AttachedFind(s: State, r: Id, order: Id, x: Scenario, run: Run, v: Validation)
    requires Attached(s) && r in s.runs && run.scenario == x.id
    ensures Attached(Effect(s, FindAlternative(r, order, x, run, v)))
  {
    assert Effect(s, FindAlternative(r, order, x, run, v)).trace.Keys == s.trace.Keys + {x.id};
  }

  lemma AttachedDecision(s: State, d: Decision)
    requires Attached(s)
    ensures Attached(Effect(s, Decide(d)))
  {
    assert Effect(s, Decide(d)).trace.Keys == s.trace.Keys;
  }

  lemma AttachedDeletion(s: State, id: Id)
    requires Attached(s)
    ensures Attached(Storage.Without(s, id))
  {
  }

  lemma AttachedKept(s: State, a: Action)
    requires Attached(s) && Linked(s, a)
    ensures Attached(Effect(s, a))
  {
    match a
    case CreateScenario(x) => AttachedScenario(s, x);
    case Validate(id, v, anyCandidate) => AttachedValidation(s, id, v, anyCandidate);
    case CompleteRun(run) => AttachedRun(s, run);
    case MissAlternative(r, order) => AttachedMiss(s, r, order);
    case FindAlternative(r, order, x, run, v) => AttachedFind(s, r, order, x, run, v);
    case Decide(d) => AttachedDecision(s, d);
    case Delete(id) => AttachedDeletion(s, id);
    case _ =>
  }

  // ---------------------------------------------------------------- nothing goes backwards

  function Rank(state: ScenarioState): nat {
    match state
    case ValidationRequired => 0
    case ReadyToSolve => 1
    case Solved => 2
  }

  /** Only the state of a scenario moves, and only forward. */
  predicate ScenarioLater(a: Scenario, b: Scenario) {
    b == a.(state := b.state) && Rank(a.state) <= Rank(b.state)
  }

  /** Only the alternative fields of a run's outcomes move. */
  predicate RunLater(a: Run, b: Run) {
    && b == a.(outcomes := b.outcomes) && |a.outcomes| == |b.outcomes|
    && forall i :: 0 <= i < |a.outcomes| ==> Unsought(b.outcomes[i]) == Unsought(a.outcomes[i])
  }

  ghost predicate ScenariosLater(s: State, t: State) {
    forall id :: id in t.scenarios && !FutureScenario(s, id) ==>
      id in s.scenarios && ScenarioLater(s.scenarios[id], t.scenarios[id]) && TraceOf(s, id) <= TraceOf(t, id)
  }

  ghost predicate RunsLater(s: State, t: State) {
    forall r :: r in t.runs && !FutureRun(s, r) ==>
      r in s.runs && RunLater(s.runs[r], t.runs[r]) && DecisionsOf(s, r) <= DecisionsOf(t, r)
  }

  /** What was stored or already gone before: whatever of it is still there has only moved
      forward, and what is gone stays gone. */
  ghost predicate Later(s: State, t: State) {
    CountersGrow(s, t) && ScenariosLater(s, t) && RunsLater(s, t)
  }

  lemma LaterTransitive(s: State, t: State, u: State)
    requires Later(s, t) && Later(t, u)
    ensures Later(s, u)
  {
    FutureShrinks(s, t);
    forall id | id in u.scenarios && !FutureScenario(s, id)
      ensures id in s.scenarios && ScenarioLater(s.scenarios[id], u.scenarios[id]) && TraceOf(s, id) <= TraceOf(u, id)
    {
      assert !FutureScenario(t, id);
    }
    forall r | r in u.runs && !FutureRun(s, r)
      ensures r in s.runs && RunLater(s.runs[r], u.runs[r]) && DecisionsOf(s, r) <= DecisionsOf(u, r)
    {
      assert !FutureRun(t, r);
    }
  }

  lemma LaterReflexive(s: State)
    requires Numbered(s)
    ensures Later(s, s)
  {
  }

  lemma IssuedAreFuture(s: State, a: Action)
    requires IssuedIds(s, a)
    ensures a.CreateScenario? ==> FutureScenario(s, a.record.id)
    ensures a.FindAlternative? ==> FutureScenario(s, a.record.id) && FutureRun(s, a.run.id)
    ensures a.CompleteRun? ==> FutureRun(s, a.run.id)
  {
  }

  lemma VerdictIsLater(run: Run, order: Id, state: AlternativeState, scenario: Option<Id>)
    ensures RunLater(run, WithVerdict(run, order, state, scenario))
  {
    OnlyAlternativeFieldsMove(run.outcomes, order, state, scenario);
  }

  lemma ForwardTraced(s: State, t: State, id: Id, event: Event)
    requires ScenariosLater(s, t)
    ensures ScenariosLater(s, Traced(t, id, event))
  {
    var u := Traced(t, id, event);
    forall k ensures TraceOf(t, k) <= TraceOf(u, k) {
    }
    assert u.scenarios == t.scenarios;
  }

  lemma ForwardSame(s: State, t: State)
    requires t.scenarios == s.scenarios && t.trace == s.trace
    ensures ScenariosLater(s, t)
  {
  }

  lemma ForwardAdded(s: State, t: State, x: Scenario)
    requires FutureScenario(s, x.id) && t.scenarios == s.scenarios[x.id := x] && t.trace == s.trace
    ensures ScenariosLater(s, t)
  {
  }

  lemma ForwardState(s: State, t: State, id: Id, state: ScenarioState)
    requires t.scenarios == InState(s, id, state) && t.trace == s.trace
    requires id in s.scenarios ==> Rank(s.scenarios[id].state) <= Rank(state)
    ensures ScenariosLater(s, t)
  {
  }

  lemma ForwardValidate(s: State, id: Id, v: Validation, anyCandidate: bool)
    ensures ScenariosLater(s, Effect(s, Validate(id, v, anyCandidate)))
  {
    var advances := anyCandidate && id in s.scenarios && s.scenarios[id].state == ValidationRequired;
    var t := s.(validations := s.validations[id := v],
                scenarios := if advances then InState(s, id, ReadyToSolve) else s.scenarios);
    if advances {
      ForwardState(s, t, id, ReadyToSolve);
    } else {
      ForwardSame(s, t);
    }
    ForwardTraced(s, t, id, ValidationCompleted);
  }

  lemma ForwardRun(s: State, run: Run)
    ensures ScenariosLater(s, Effect(s, CompleteRun(run)))
  {
    var t := s.(runSeq := s.runSeq + 1, runs := s.runs[run.id := run], scenarios := InState(s, run.scenario, Solved));
    ForwardState(s, t, run.scenario, Solved);
    ForwardTraced(s, t, run.scenario, RunCompleted(run.id));
  }

  lemma ForwardMiss(s: State, r: Id, order: Id)
    requires r in s.runs
    ensures ScenariosLater(s, Effect(s, MissAlternative(r, order)))
  {
    var t := s.(alternativeSeq := s.alternativeSeq + 1,
                runs := s.runs[r := WithVerdict(s.runs[r], order, NoAlternative, None)]);
    ForwardSame(s, t);
    ForwardTraced(s, t, s.runs[r].scenario, AlternativeCreated(r, order, None));
  }

  lemma ForwardFind(s: State, r: Id, order: Id, x: Scenario, run: Run, v: Validation)
    requires FutureScenario(s, x.id) && r in s.runs
    ensures ScenariosLater(s, Effect(s, FindAlternative(r, order, x, run, v)))
  {
    var event := AlternativeCreated(r, order, Some(run.id));
    var t := WithDerived(s, r, order, x, run, v);
    ForwardAdded(s, t, x);
    ForwardTraced(s, t, s.runs[r].scenario, event);
    ForwardTraced(s, Traced(t, s.runs[r].scenario, event), x.id, event);
  }

  lemma ForwardCreate(s: State, x: Scenario)
    requires FutureScenario(s, x.id)
    ensures ScenariosLater(s, Effect(s, CreateScenario(x)))
  {
    var t := s.(scenarioSeq := s.scenarioSeq + 1, scenarios := s.scenarios[x.id := x]);
    ForwardAdded(s, t, x);
    ForwardTraced(s, t, x.id, ScenarioCreated);
  }

  lemma ForwardDecide(s: State, d: Decision)
    requires d.run in s.runs
    ensures ScenariosLater(s, Effect(s, Decide(d)))
  {
    var t := s.(decisions := s.decisions[d.run := DecisionsOf(s, d.run) + [d]]);
    ForwardSame(s, t);
    ForwardTraced(s, t, s.runs[d.run].scenario, DecisionRecorded(d.run, d.id));
  }

  lemma ForwardDelete(s: State, id: Id)
    ensures ScenariosLater(s, Storage.Without(s, id)) && RunsLater(s, Storage.Without(s, id))
  {
  }

  lemma ScenariosMoveForward(s: State, a: Action)
    requires IssuedIds(s, a) && Linked(s, a)
    ensures ScenariosLater(s, Effect(s, a))
  {
    IssuedAreFuture(s, a);
    match a
    case CreateScenario(x) => ForwardCreate(s, x);
    case Validate(id, v, anyCandidate) => ForwardValidate(s, id, v, anyCandidate);
    case CompleteRun(run) => ForwardRun(s, run);
    case MissAlternative(r, order) => ForwardMiss(s, r, order);
    case FindAlternative(r, order, x, run, v) => ForwardFind(s, r, order, x, run, v);
    case Decide(d) => ForwardDecide(s, d);
    case Delete(id) => ForwardDelete(s, id);
    case _ => ForwardSame(s, Effect(s, a));
  }

  lemma RunsForwardMiss(s: State, r: Id, order: Id)
    requires r in s.runs
    ensures RunsLater(s, Effect(s, MissAlternative(r, order)))
  {
    VerdictIsLater(s.runs[r], order, NoAlternative, None);
  }

  lemma RunsForwardFind(s: State, r: Id, order: Id, x: Scenario, run: Run, v: Validation)
    requires r in s.runs && FutureRun(s, run.id)
    ensures RunsLater(s, Effect(s, FindAlternative(r, order, x, run, v)))
  {
    VerdictIsLater(s.runs[r], order, Available, Some(x.id));
  }

  lemma RunsForwardRun(s: State, run: Run)
    requires FutureRun(s, run.id)
    ensures RunsLater(s, Effect(s, CompleteRun(run)))
  {
  }

  lemma RunsForwardDecide(s: State, d: Decision)
    ensures RunsLater(s, Effect(s, Decide(d)))
  {
  }

  lemma RunsForwardSame(s: State, t: State)
    requires t.runs == s.runs && t.decisions == s.decisions
    ensures RunsLater(s, t)
  {
  }

  lemma RunsMoveForward(s: State, a: Action)
    requires IssuedIds(s, a) && Linked(s, a)
    ensures RunsLater(s, Effect(s, a))
  {
    IssuedAreFuture(s, a);
    match a
    case CompleteRun(run) => RunsForwardRun(s, run);
    case MissAlternative(r, order) => RunsForwardMiss(s, r, order);
    case FindAlternative(r, order, x, run, v) => RunsForwardFind(s, r, order, x, run, v);
    case Decide(d) => RunsForwardDecide(s, d);
    case Delete(id) => ForwardDelete(s, id);
    case _ => RunsForwardSame(s, Effect(s, a));
  }

  lemma StepMovesForward(s: State, a: Action)
    requires IssuedIds(s, a) && Linked(s, a)
    ensures Later(s, Effect(s, a))
  {
    CountersOnlyGrow(s, a);
    ScenariosMoveForward(s, a);
    RunsMoveForward(s, a);
  }

  lemma NewScenarioIs(s: State, a: Action, id: Id)
    requires IssuedIds(s, a) && id in Effect(s, a).scenarios && id !in s.scenarios
    ensures (a.CreateScenario? || a.FindAlternative?) && id == a.record.id && Effect(s, a).scenarios[id] == a.record
  {
  }

  lemma SnapshotsKept(s: State, a: Action)
    requires Numbered(s) && SnapshotsRight(s) && Allowed(s, a)
    ensures SnapshotsRight(Effect(s, a))
  {
    var t := Effect(s, a);
    ScenariosMoveForward(s, a);
    forall id | id in t.scenarios ensures WellFormed(t.scenarios[id].snapshot) {
      if id in s.scenarios {
        assert ScenarioLater(s.scenarios[id], t.scenarios[id]);
      } else {
        NewScenarioIs(s, a, id);
      }
    }
  }

  // ---------------------------------------------------------------- runs and decisions

  /** A run that was not there before is the one the action stored. */
  lemma NewRunIs(s: State, a: Action, r: Id)
    requires Numbered(s) && IssuedIds(s, a) && r in Effect(s, a).runs && r !in s.runs
    ensures (a.CompleteRun? || a.FindAlternative?) && r == a.run.id && Effect(s, a).runs[r] == a.run
  {
    IssuedAreFuture(s, a);
  }

  lemma KeptRunIsLater(s: State, a: Action, r: Id)
    requires Numbered(s) && IssuedIds(s, a) && Linked(s, a) && r in Effect(s, a).runs && r in s.runs
    ensures RunLater(s.runs[r], Effect(s, a).runs[r])
  {
    RunsMoveForward(s, a);
  }

  lemma UnsoughtAgrees(a: Run, b: Run)
    requires RunLater(a, b)
    ensures UnsoughtAll(a.outcomes) == UnsoughtAll(b.outcomes)
  {
  }

  lemma UnsearchedIsUnsought(outcomes: seq<OrderOutcome>)
    requires forall x :: x in outcomes ==> Unsearched(x)
    ensures UnsoughtAll(outcomes) == outcomes
  {
    forall i | 0 <= i < |outcomes| ensures Unsought(outcomes[i]) == outcomes[i] {
      assert outcomes[i] in outcomes;
    }
  }

  lemma FormsKept(s: State, a: Action)
    requires Numbered(s) && FormsHold(s) && Allowed(s, a)
    ensures FormsHold(Effect(s, a))
  {
    var t := Effect(s, a);
    forall r | r in t.runs && t.runs[r].parent.None?
      ensures t.runs[r].resultForm == NormaliseResult(t.runs[r].assignments, UnsoughtAll(t.runs[r].outcomes))
    {
      if r in s.runs {
        KeptRunIsLater(s, a, r);
        UnsoughtAgrees(s.runs[r], t.runs[r]);
      } else {
        NewRunIs(s, a, r);
        UnsearchedIsUnsought(a.run.outcomes);
      }
    }
  }

  lemma DecisionsOnlyAdded(s: State, a: Action, r: Id)
    requires r in Effect(s, a).decisions
    ensures (r in s.decisions && Effect(s, a).decisions[r] == s.decisions[r])
            || (a.Decide? && r == a.decision.run && Effect(s, a).decisions[r] == DecisionsOf(s, r) + [a.decision])
  {
  }

  lemma DecisionsKept(s: State, a: Action)
    requires Numbered(s) && Attached(s) && DecisionsRight(s) && IssuedIds(s, a) && Linked(s, a)
    ensures DecisionsRight(Effect(s, a))
  {
    var t := Effect(s, a);
    forall r, d | r in t.decisions && d in t.decisions[r]
      ensures d.run == r && (d.state == Accepted && r in t.runs ==> Acceptable(t.runs[r]))
    {
      DecisionsOnlyAdded(s, a, r);
      if r in s.runs && r in t.runs {
        KeptRunIsLater(s, a, r);
      }
    }
  }

  lemma SameOrdersCover(s: Snapshot, x: seq<OrderOutcome>, y: seq<OrderOutcome>)
    requires |x| == |y| && forall i :: 0 <= i < |x| ==> x[i].order == y[i].order
    requires Covers(s, x)
    ensures Covers(s, y)
  {
    SameOrdersDistinct(x, y);
    forall order | order in OrderTable(s) ensures exists o :: o in y && o.order == order {
      var o :| o in x && o.order == order;
      var i :| 0 <= i < |x| && x[i] == o;
      assert y[i] in y;
    }
  }

  lemma LaterRunIsRight(s: State, t: State, a: Run, b: Run)
    requires RunRight(s, a) && RunLater(a, b) && a.scenario in s.scenarios
    requires a.scenario in t.scenarios ==> t.scenarios[a.scenario].snapshot == s.scenarios[a.scenario].snapshot
    ensures RunRight(t, b)
  {
    if a.scenario in t.scenarios {
      forall i | 0 <= i < |a.outcomes| ensures a.outcomes[i].order == b.outcomes[i].order {
        assert Unsought(b.outcomes[i]) == Unsought(a.outcomes[i]);
      }
      SameOrdersCover(s.scenarios[a.scenario].snapshot, a.outcomes, b.outcomes);
    }
  }

  lemma NewRunIsRight(s: State, a: Action)
    requires Allowed(s, a) && Numbered(s) && (a.CompleteRun? || a.FindAlternative?)
    ensures RunRight(Effect(s, a), a.run)
  {
    IssuedAreFuture(s, a);
  }

  lemma RunsKept(s: State, a: Action)
    requires Numbered(s) && Attached(s) && RunsRight(s) && Allowed(s, a)
    ensures RunsRight(Effect(s, a))
  {
    var t := Effect(s, a);
    ScenariosMoveForward(s, a);
    forall r | r in t.runs ensures RunRight(t, t.runs[r]) {
      if r in s.runs {
        KeptRunIsLater(s, a, r);
        LaterRunIsRight(s, t, s.runs[r], t.runs[r]);
      } else {
        NewRunIs(s, a, r);
        NewRunIsRight(s, a);
      }
    }
  }

  // ---------------------------------------------------------------- scenario states

  lemma StatesAfterCreate(s: State, x: Scenario)
    requires Attached(s) && StatesRight(s) && x.id !in s.scenarios && x.state == ValidationRequired
    ensures StatesRight(Effect(s, CreateScenario(x)))
  {
    var t := Effect(s, CreateScenario(x));
    assert !HasRun(t, x.id);
    assert forall id :: id in s.scenarios ==> (HasRun(t, id) <==> HasRun(s, id));
  }

  lemma StatesAfterValidate(s: State, id: Id, v: Validation, anyCandidate: bool)
    requires StatesRight(s) && id in s.scenarios
    ensures StatesRight(Effect(s, Validate(id, v, anyCandidate)))
  {
    var t := Effect(s, Validate(id, v, anyCandidate));
    assert forall k :: HasRun(t, k) <==> HasRun(s, k);
  }

  lemma StatesAfterRun(s: State, run: Run)
    requires StatesRight(s) && run.id !in s.runs && run.scenario in s.scenarios && run.scenario in s.validations
    ensures StatesRight(Effect(s, CompleteRun(run)))
  {
    var t := Effect(s, CompleteRun(run));
    assert run.id in t.runs && t.runs[run.id].scenario == run.scenario;
    forall k | k != run.scenario ensures HasRun(t, k) <==> HasRun(s, k) {
      assert forall r :: r in s.runs ==> r in t.runs && t.runs[r] == s.runs[r];
    }
  }

  lemma StatesAfterMiss(s: State, r: Id, order: Id)
    requires StatesRight(s) && r in s.runs
    ensures StatesRight(Effect(s, MissAlternative(r, order)))
  {
    var t := Effect(s, MissAlternative(r, order));
    forall k ensures HasRun(t, k) <==> HasRun(s, k) {
      assert forall q :: q in s.runs ==> q in t.runs && t.runs[q].scenario == s.runs[q].scenario;
    }
  }

  lemma OwnersAfterFind(s: State, r: Id, order: Id, x: Scenario, run: Run, v: Validation)
    requires r in s.runs && run.id !in s.runs && run.scenario == x.id
    ensures var t := Effect(s, FindAlternative(r, order, x, run, v));
            HasRun(t, x.id) && forall k :: k != x.id ==> (HasRun(t, k) <==> HasRun(s, k))
  {
    var t := Effect(s, FindAlternative(r, order, x, run, v));
    assert run.id in t.runs && t.runs[run.id].scenario == x.id;
    forall k | k != x.id ensures HasRun(t, k) <==> HasRun(s, k) {
      assert forall q :: q in s.runs ==> q in t.runs && t.runs[q].scenario == s.runs[q].scenario;
    }
  }

  lemma StatesAfterFind(s: State, r: Id, order: Id, x: Scenario, run: Run, v: Validation)
    requires StatesRight(s) && r in s.runs && run.id !in s.runs && x.id !in s.scenarios
    requires run.scenario == x.id && x.state == Solved
    ensures StatesRight(Effect(s, FindAlternative(r, order, x, run, v)))
  {
    OwnersAfterFind(s, r, order, x, run, v);
  }

  lemma StatesAfterDelete(s: State, id: Id)
    requires StatesRight(s)
    ensures StatesRight(Storage.Without(s, id))
  {
    var t := Storage.Without(s, id);
    forall k | k != id ensures HasRun(t, k) <==> HasRun(s, k) {
      assert forall r :: r in s.runs && s.runs[r].scenario == k ==> r in t.runs;
    }
  }

  lemma StatesUnmoved(s: State, t: State)
    requires StatesRight(s) && t.runs == s.runs && t.scenarios == s.scenarios && t.validations == s.validations
    ensures StatesRight(t)
  {
    assert forall id :: HasRun(t, id) <==> HasRun(s, id);
  }

  lemma StatesKept(s: State, a: Action)
    requires Numbered(s) && Attached(s) && StatesRight(s) && IssuedIds(s, a) && Linked(s, a)
    ensures StatesRight(Effect(s, a))
  {
    IssuedAreFuture(s, a);
    match a
    case CreateScenario(x) => StatesAfterCreate(s, x);
    case Validate(id, v, anyCandidate) => StatesAfterValidate(s, id, v, anyCandidate);
    case CompleteRun(run) => StatesAfterRun(s, run);
    case MissAlternative(r, order) => StatesAfterMiss(s, r, order);
    case FindAlternative(r, order, x, run, v) => StatesAfterFind(s, r, order, x, run, v);
    case Delete(id) => StatesAfterDelete(s, id);
    case _ => StatesUnmoved(s, Effect(s, a));
  }

  // ---------------------------------------------------------------- every step, every history

  /** Every request keeps the invariant. */
  lemma InvKept(s: State, a: Action)
    requires Inv(s) && Allowed(s, a)
    ensures Inv(Effect(s, a)) && Later(s, Effect(s, a))
  {
    NumberedKept(s, a);
    AttachedKept(s, a);
    StatesKept(s, a);
    RunsKept(s, a);
    FormsKept(s, a);
    DecisionsKept(s, a);
    SnapshotsKept(s, a);
    StepMovesForward(s, a);
  }

  lemma EmptyIsRight()
    ensures Inv(Empty)
  {
  }

  /** A history starts empty, and each state follows from the one before by some request. */
  ghost predicate History(states: seq<State>) {
    && states != [] && states[0] == Empty
    && forall i :: 0 <= i < |states| - 1 ==> Step(states[i], states[i + 1])
  }

  lemma StepKeeps(s: State, t: State)
    requires Inv(s) && Step(s, t)
    ensures Inv(t) && Later(s, t)
  {
    var a :| Allowed(s, a) && t == Effect(s, a);
    InvKept(s, a);
  }

  lemma StepAt(states: seq<State>, i: nat)
    requires History(states) && i < |states| - 1
    ensures Step(states[i], states[i + 1])
  {
  }

  /** The invariant holds in every reachable state. */
  lemma {:induction false} AlwaysInv(states: seq<State>, i: nat)
    requires History(states) && i < |states|
    ensures Inv(states[i])
    decreases i
  {
    if i == 0 {
      EmptyIsRight();
    } else {
      AlwaysInv(states, i - 1);
      StepAt(states, i - 1);
      StepKeeps(states[i - 1], states[i]);
    }
  }

  lemma OneForward(states: seq<State>, i: nat)
    requires History(states) && i < |states| - 1
    ensures Later(states[i], states[i + 1])
  {
    AlwaysInv(states, i);
    StepAt(states, i);
    StepKeeps(states[i], states[i + 1]);
  }

  lemma {:induction false} ChainHolds<T(!new)>(states: seq<T>, rel: (T, T) -> bool, i: nat, j: nat)
    requires i <= j < |states| && rel(states[i], states[i])
    requires forall x, y, z :: rel(x, y) && rel(y, z) ==> rel(x, z)
    requires forall k: nat :: k < |states| - 1 ==> rel(states[k], states[k + 1])
    ensures rel(states[i], states[j])
    decreases j - i
  {
    if i < j {
      ChainHolds(states, rel, i, j - 1);
      assert rel(states[j - 1], states[j - 1 + 1]);
    }
  }

  /** Between any two moments of a history nothing has gone backwards or come back. */
  lemma AlwaysForward(states: seq<State>, i: nat, j: nat)
    requires History(states) && i <= j < |states|
    ensures Later(states[i], states[j])
  {
    ghost var rel := (s: State, t: State) => Later(s, t);
    AlwaysInv(states, i);
    LaterReflexive(states[i]);
    forall x, y, z | rel(x, y) && rel(y, z) ensures rel(x, z) {
      LaterTransitive(x, y, z);
    }
    forall k: nat | k < |states| - 1 ensures rel(states[k], states[k + 1]) {
      OneForward(states, k);
    }
    ChainHolds(states, rel, i, j);
  }

  // ---------------------------------------------------------------- reachable stores

  ghost predicate Reachable(s: State) {
    exists states :: History(states) && states[|states| - 1] == s
  }

  lemma ReachableIsRight(s: State)
    requires Reachable(s)
    ensures Inv(s)
  {
    var states :| History(states) && states[|states| - 1] == s;
    AlwaysInv(states, |states| - 1);
  }

  lemma EmptyIsReachable()
    ensures Reachable(Empty)
  {
    assert History([Empty]);
  }

  lemma LongerHistory(states: seq<State>, t: State)
    requires History(states) && Step(states[|states| - 1], t)
    ensures History(states + [t])
  {
    var longer := states + [t];
    forall i | 0 <= i < |longer| - 1 ensures Step(longer[i], longer[i + 1]) {
      if i < |states| - 1 {
        StepAt(states, i);
      }
    }
  }

  lemma ReachableNext(s: State, a: Action)
    requires Reachable(s) && Allowed(s, a)
    ensures Reachable(Effect(s, a))
  {
    var states :| History(states) && states[|states| - 1] == s;
    assert Step(s, Effect(s, a));
    LongerHistory(states, Effect(s, a));
    var longer := states + [Effect(s, a)];
    assert longer[|longer| - 1] == Effect(s, a);
  }

  lemma ReachableSnapshot(s: State, id: Id)
    requires Reachable(s) && id in s.scenarios
    ensures WellFormed(s.scenarios[id].snapshot) && s.scenarios[id].id == id
  {
    ReachableIsRight(s);
  }

  lemma ReachableRun(s: State, r: Id)
    requires Reachable(s) && r in s.runs
    ensures s.runs[r].id == r && s.runs[r].scenario in s.scenarios && s.runs[r].scenario in s.validations
    ensures s.scenarios[s.runs[r].scenario].id == s.runs[r].scenario
    ensures s.scenarios[s.runs[r].scenario].state == Solved
  {
    ReachableIsRight(s);
    assert HasRun(s, s.runs[r].scenario);
  }

  lemma ReachableOutcome(s: State, r: Id, order: Id)
    requires Reachable(s) && r in s.runs && s.runs[r].scenario in s.scenarios
    requires order in OrderTable(s.scenarios[s.runs[r].scenario].snapshot)
    ensures exists o :: o in s.runs[r].outcomes && o.order == order
  {
    ReachableIsRight(s);
    assert RunRight(s, s.runs[r]);
  }

  /** A stored run speaks for each order once. */
  lemma ReachableOutcomes(s: State, r: Id)
    requires Reachable(s) && r in s.runs
    ensures DistinctKeys(s.runs[r].outcomes, OutcomeOrder)
  {
    ReachableIsRight(s);
    assert RunRight(s, s.runs[r]);
  }

  lemma ReachableFresh(s: State, r: Id)
    requires Reachable(s) && r in s.runs
    ensures r != Format(ALTERNATIVE_RUN_PREFIX, s.alternativeSeq + 1)
  {
    ReachableIsRight(s);
    FreshIds(s);
  }

  /** What a search on a stored run can rely on. */
  lemma ReachableSearch(s: State, r: Id, order: Id)
    requires Reachable(s) && r in s.runs
    ensures s.runs[r].id == r && s.runs[r].scenario in s.scenarios
    ensures r != Format(ALTERNATIVE_RUN_PREFIX, s.alternativeSeq + 1)
    ensures order in MapSeq(s.scenarios[s.runs[r].scenario].snapshot.orders, OrderId) ==>
              exists o :: o in s.runs[r].outcomes && o.order == order
  {
    ReachableRun(s, r);
    ReachableFresh(s, r);
    var snapshot := s.scenarios[s.runs[r].scenario].snapshot;
    KnownInTable(order, snapshot.orders, OrderId);
    if order in OrderTable(snapshot) {
      ReachableOutcome(s, r, order);
    }
  }

  lemma ReachableIds(s: State)
    requires Reachable(s)
    ensures Keyed(s.scenarios)
  {
    ReachableIsRight(s);
  }

  // ---------------------------------------------------------------- with an honest solver

  /** The run's plan stands on its scenario, judged before any search verdict was noted. */
  ghost predicate BackedIn(snapshot: Snapshot, run: Run) {
    WagonsKnown(snapshot) && Backed(snapshot, BaselineScope(snapshot), run.(outcomes := UnsoughtAll(run.outcomes)))
  }

  /** What an honest engine adds to a stored result. */
  ghost predicate Trusted(s: State, a: Action)
    requires Linked(s, a)
  {
    match a
    case CompleteRun(run) => run.validatorPass && BackedIn(s.scenarios[run.scenario].snapshot, run)
    case FindAlternative(r, order, x, run, _) =>
      run.validatorPass && DerivedBacked(s.scenarios[s.runs[r].scenario].snapshot, x.id, order, x.changes, run)
    case _ => true
  }

  /** The run's plan is what an honest solve of the derived scenario reported. */
  ghost predicate DerivedBacked(parent: Snapshot, scenarioId: Id, order: Id, changes: seq<Change>, run: Run) {
    Derivable(parent, scenarioId, order, changes)
    && exists solved :: DerivedSound(parent, scenarioId, order, changes, solved) && SameSolve(solved, run)
  }

  predicate SameSolve(solved: SolveResult, run: Run) {
    solved.assignments == run.assignments && solved.status == run.status && solved.isOptimal == run.isOptimal
  }

  /** The trail of a derived scenario opens with the search that found it: on which run, and for
      which order. */
  ghost predicate FoundBy(s: State, x: Scenario, run: Run, order: Id) {
    && x.parent.Some? && !FutureScenario(s, x.parent.value) && run.parent.Some?
    && TraceOf(s, x.id) != []
    && TraceOf(s, x.id)[0] == AlternativeCreated(run.parent.value, order, Some(run.id))
  }

  /** The scenario's parent, while it is stored, has this snapshot. */
  ghost predicate ParentIs(s: State, x: Scenario, parent: Snapshot) {
    x.parent.Some? && (x.parent.value in s.scenarios ==> s.scenarios[x.parent.value].snapshot == parent)
  }

  ghost predicate BackedBy(parent: Snapshot, order: Id, x: Scenario, run: Run) {
    x.snapshot == Derived(parent, x.id, order, x.changes) && DerivedBacked(parent, x.id, order, x.changes, run)
  }

  /** The snapshot of the parent backs the run, for the order the search was for. */
  ghost predicate AlternativeBacked(s: State, x: Scenario, run: Run) {
    exists parent: Snapshot, order: Id ::
      FoundBy(s, x, run, order) && ParentIs(s, x, parent) && BackedBy(parent, order, x, run)
  }

  ghost predicate HonouredRun(s: State, run: Run) {
    && run.validatorPass
    && (run.parent.None? && run.scenario in s.scenarios ==> BackedIn(s.scenarios[run.scenario].snapshot, run))
    && (run.parent.Some? && run.scenario in s.scenarios ==> AlternativeBacked(s, s.scenarios[run.scenario], run))
  }

  /** Every stored run passed validation and is backed by its scenario. */
  ghost predicate Honoured(s: State) {
    forall r :: r in s.runs ==> HonouredRun(s, s.runs[r])
  }

  lemma LaterIsBacked(snapshot: Snapshot, a: Run, b: Run)
    requires RunLater(a, b) && BackedIn(snapshot, a)
    ensures BackedIn(snapshot, b)
  {
    UnsoughtAgrees(a, b);
  }

  lemma LaterIsBackedBy(parent: Snapshot, order: Id, x: Scenario, y: Scenario, a: Run, b: Run)
    requires ScenarioLater(x, y) && RunLater(a, b) && BackedBy(parent, order, x, a)
    ensures BackedBy(parent, order, y, b)
  {
    var solved :| DerivedSound(parent, x.id, order, x.changes, solved) && SameSolve(solved, a);
    assert SameSolve(solved, b);
  }

  lemma StillFoundBy(s: State, t: State, id: Id, a: Run, b: Run, order: Id)
    requires Numbered(s) && Later(s, t) && id in s.scenarios && id in t.scenarios
    requires RunLater(a, b) && FoundBy(s, s.scenarios[id], a, order)
    ensures FoundBy(t, t.scenarios[id], b, order)
  {
    FutureShrinks(s, t);
    assert TraceOf(s, id) <= TraceOf(t, id);
  }

  lemma StillParent(s: State, t: State, x: Scenario, y: Scenario, parent: Snapshot)
    requires Later(s, t) && ScenarioLater(x, y) && ParentIs(s, x, parent)
    requires !FutureScenario(s, x.parent.value)
    ensures ParentIs(t, y, parent)
  {
  }

  lemma LaterAlternativeIsBacked(s: State, t: State, id: Id, a: Run, b: Run)
    requires Numbered(s) && Later(s, t) && id in s.scenarios && id in t.scenarios
    requires RunLater(a, b) && AlternativeBacked(s, s.scenarios[id], a)
    ensures AlternativeBacked(t, t.scenarios[id], b)
  {
    var x, y := s.scenarios[id], t.scenarios[id];
    var parent: Snapshot, order: Id :|
      FoundBy(s, x, a, order) && ParentIs(s, x, parent) && BackedBy(parent, order, x, a);
    StillFoundBy(s, t, id, a, b, order);
    StillParent(s, t, x, y, parent);
    LaterIsBackedBy(parent, order, x, y, a, b);
  }

  lemma KeptRunIsHonoured(s: State, t: State, a: Run, b: Run)
    requires Numbered(s) && Later(s, t) && HonouredRun(s, a) && RunLater(a, b) && a.scenario in s.scenarios
    ensures HonouredRun(t, b)
  {
    if b.scenario in t.scenarios {
      if b.parent.None? {
        LaterIsBacked(s.scenarios[a.scenario].snapshot, a, b);
      } else {
        LaterAlternativeIsBacked(s, t, a.scenario, a, b);
      }
    }
  }

  lemma FoundOpensTrail(s: State, r: Id, order: Id, x: Scenario, run: Run, v: Validation)
    requires Attached(s) && r in s.runs && x.id !in s.scenarios && s.runs[r].scenario in s.scenarios
    ensures TraceOf(Effect(s, FindAlternative(r, order, x, run, v)), x.id)
              == [AlternativeCreated(r, order, Some(run.id))]
  {
  }

  lemma FoundIsBackedBy(s: State, a: Action)
    requires Allowed(s, a) && Trusted(s, a) && a.FindAlternative?
    ensures BackedBy(s.scenarios[s.runs[a.baseline].scenario].snapshot, a.order, a.record, a.run)
  {
  }

  lemma PastStaysPast(s: State, a: Action, id: Id)
    requires Numbered(s) && id in s.scenarios
    ensures !FutureScenario(Effect(s, a), id)
  {
    CountersOnlyGrow(s, a);
    FutureShrinks(s, Effect(s, a));
  }

  lemma FoundKeepsParent(s: State, a: Action)
    requires Numbered(s) && IssuedIds(s, a) && Linked(s, a) && a.FindAlternative?
    ensures var parent := s.runs[a.baseline].scenario;
            a.record.parent == Some(parent) && parent in Effect(s, a).scenarios
            && Effect(s, a).scenarios[parent].snapshot == s.scenarios[parent].snapshot
  {
    FreshIds(s);
    assert Effect(s, a).scenarios == s.scenarios[a.record.id := a.record];
  }

  lemma FoundIsOnTrail(s: State, a: Action)
    requires Numbered(s) && Attached(s) && IssuedIds(s, a) && Linked(s, a) && a.FindAlternative?
    ensures FoundBy(Effect(s, a), a.record, a.run, a.order)
  {
    FreshIds(s);
    PastStaysPast(s, a, s.runs[a.baseline].scenario);
    FoundOpensTrail(s, a.baseline, a.order, a.record, a.run, a.validation);
  }

  lemma NewRunIsHonoured(s: State, a: Action)
    requires Numbered(s) && Attached(s) && Allowed(s, a) && Trusted(s, a) && (a.CompleteRun? || a.FindAlternative?)
    ensures HonouredRun(Effect(s, a), a.run)
  {
    if a.FindAlternative? {
      FoundKeepsParent(s, a);
      FoundIsOnTrail(s, a);
      FoundIsBackedBy(s, a);
      assert Effect(s, a).scenarios[a.run.scenario] == a.record;
      assert ParentIs(Effect(s, a), a.record, s.scenarios[s.runs[a.baseline].scenario].snapshot);
    }
  }

  lemma OldRunHonoured(s: State, a: Action, r: Id)
    requires Numbered(s) && Attached(s) && IssuedIds(s, a) && Linked(s, a)
    requires r in s.runs && HonouredRun(s, s.runs[r]) && r in Effect(s, a).runs
    ensures HonouredRun(Effect(s, a), Effect(s, a).runs[r])
  {
    KeptRunIsLater(s, a, r);
    StepMovesForward(s, a);
    KeptRunIsHonoured(s, Effect(s, a), s.runs[r], Effect(s, a).runs[r]);
  }

  lemma HonouredKept(s: State, a: Action)
    requires Numbered(s) && Attached(s) && Honoured(s) && Allowed(s, a) && Trusted(s, a)
    ensures Honoured(Effect(s, a))
  {
    var t := Effect(s, a);
    forall r | r in t.runs ensures HonouredRun(t, t.runs[r]) {
      if r in s.runs {
        OldRunHonoured(s, a, r);
      } else {
        NewRunIs(s, a, r);
        NewRunIsHonoured(s, a);
      }
    }
  }

  ghost predicate HonestHistory(states: seq<State>) {
    && states != [] && states[0] == Empty
    && forall i :: 0 <= i < |states| - 1 ==> HonestStep(states[i], states[i + 1])
  }

  ghost predicate HonestlyAllowed(s: State, a: Action) {
    Allowed(s, a) && Trusted(s, a)
  }

  ghost predicate HonestStep(s: State, t: State) {
    exists a :: HonestlyAllowed(s, a) && t == Effect(s, a)
  }

  lemma HonestStepKeeps(s: State, t: State)
    requires Inv(s) && Honoured(s) && HonestStep(s, t)
    ensures Inv(t) && Honoured(t)
  {
    var a :| HonestlyAllowed(s, a) && t == Effect(s, a);
    InvKept(s, a);
    HonouredKept(s, a);
  }

  lemma HonestStepAt(states: seq<State>, i: nat)
    requires HonestHistory(states) && i < |states| - 1
    ensures HonestStep(states[i], states[i + 1])
  {
  }

  lemma {:induction false} AlwaysHonoured(states: seq<State>, i: nat)
    requires HonestHistory(states) && i < |states|
    ensures Inv(states[i]) && Honoured(states[i])
    decreases i
  {
    if i == 0 {
      EmptyIsRight();
    } else {
      AlwaysHonoured(states, i - 1);
      HonestStepAt(states, i - 1);
      HonestStepKeeps(states[i - 1], states[i]);
    }
  }

  /** An accepted baseline plan is the one best plan of its scenario, and it passes validation,
      whatever has been recorded on the run since it was solved. */
  lemma AcceptedPlanIsBest(states: seq<State>, i: nat, r: Id, d: Decision)
    requires HonestHistory(states) && i < |states|
    requires r in states[i].decisions && d in states[i].decisions[r] && d.state == Accepted
    requires r in states[i].runs && states[i].runs[r].parent.None?
    ensures Inv(states[i]) && states[i].runs[r].scenario in states[i].scenarios
    ensures var run := states[i].runs[r];
            var snapshot := states[i].scenarios[run.scenario].snapshot;
            && WagonsKnown(snapshot) && run.validatorPass
            && Best(BookOf(snapshot), Choosable(CandidatesOf(snapshot, BaselineScope(snapshot))),
                    PlanOf(run.assignments))
  {
    AlwaysHonoured(states, i);
  }

  // ---------------------------------------------------------------- what an alternative was derived from

  /** At some moment up to this one the parent was stored, with the snapshot that backs the run. */
  ghost predicate OnRecord(states: seq<State>, i: nat, x: Scenario, run: Run, order: Id)
    requires i < |states|
  {
    x.parent.Some? && exists j: nat ::
      j <= i && x.parent.value in states[j].scenarios
      && BackedBy(states[j].scenarios[x.parent.value].snapshot, order, x, run)
  }

  ghost predicate DerivedOnRecord(states: seq<State>, i: nat, x: Scenario, run: Run)
    requires i < |states|
  {
    exists order: Id :: FoundBy(states[i], x, run, order) && OnRecord(states, i, x, run, order)
  }

  lemma RecordStays(states: seq<State>, i: nat, r: Id)
    requires i + 1 < |states| && Numbered(states[i]) && Later(states[i], states[i + 1])
    requires r in states[i].runs && r in states[i + 1].runs && RunLater(states[i].runs[r], states[i + 1].runs[r])
    requires var id := states[i].runs[r].scenario;
             id in states[i].scenarios && id in states[i + 1].scenarios
             && DerivedOnRecord(states, i, states[i].scenarios[id], states[i].runs[r])
    ensures DerivedOnRecord(states, i + 1, states[i + 1].scenarios[states[i].runs[r].scenario], states[i + 1].runs[r])
  {
    var id, a, b := states[i].runs[r].scenario, states[i].runs[r], states[i + 1].runs[r];
    var x, y := states[i].scenarios[id], states[i + 1].scenarios[id];
    var order: Id :| FoundBy(states[i], x, a, order) && OnRecord(states, i, x, a, order);
    var j: nat :| j <= i && x.parent.value in states[j].scenarios
                  && BackedBy(states[j].scenarios[x.parent.value].snapshot, order, x, a);
    StillFoundBy(states[i], states[i + 1], id, a, b, order);
    LaterIsBackedBy(states[j].scenarios[x.parent.value].snapshot, order, x, y, a, b);
    assert OnRecord(states, i + 1, y, b, order);
  }

  lemma RecordStarts(states: seq<State>, i: nat, a: Action)
    requires i < |states| && Numbered(states[i]) && Attached(states[i]) && HonestlyAllowed(states[i], a)
    requires a.FindAlternative? && i + 1 < |states| && states[i + 1] == Effect(states[i], a)
    ensures DerivedOnRecord(states, i + 1, a.record, a.run)
  {
    FoundKeepsParent(states[i], a);
    FoundIsOnTrail(states[i], a);
    FoundIsBackedBy(states[i], a);
    assert OnRecord(states, i + 1, a.record, a.run, a.order);
  }

  /** The run, if it is a stored alternative, was derived from a snapshot its parent really had,
      for the order its trail names. */
  ghost predicate RunOnRecord(states: seq<State>, i: nat, r: Id)
    requires i < |states|
  {
    r in states[i].runs && states[i].runs[r].parent.Some? ==>
      var run := states[i].runs[r];
      run.scenario in states[i].scenarios && DerivedOnRecord(states, i, states[i].scenarios[run.scenario], run)
  }

  lemma KeptOnRecord(states: seq<State>, i: nat, a: Action, r: Id)
    requires i + 1 < |states| && Inv(states[i]) && Attached(states[i + 1])
    requires Allowed(states[i], a) && states[i + 1] == Effect(states[i], a)
    requires r in states[i].runs && r in states[i + 1].runs && RunOnRecord(states, i, r)
    ensures RunOnRecord(states, i + 1, r)
  {
    StepMovesForward(states[i], a);
    KeptRunIsLater(states[i], a, r);
    if states[i].runs[r].parent.Some? {
      RecordStays(states, i, r);
    }
  }

  lemma NewOnRecord(states: seq<State>, i: nat, a: Action, r: Id)
    requires i + 1 < |states| && Inv(states[i])
    requires HonestlyAllowed(states[i], a) && states[i + 1] == Effect(states[i], a)
    requires r !in states[i].runs && r in states[i + 1].runs
    ensures RunOnRecord(states, i + 1, r)
  {
    NewRunIs(states[i], a, r);
    if a.FindAlternative? {
      RecordStarts(states, i, a);
      assert states[i + 1].scenarios[a.record.id] == a.record;
    }
  }

  lemma StepOnRecord(states: seq<State>, i: nat, r: Id)
    requires i + 1 < |states| && Inv(states[i]) && Inv(states[i + 1]) && HonestStep(states[i], states[i + 1])
    requires RunOnRecord(states, i, r)
    ensures RunOnRecord(states, i + 1, r)
  {
    var a :| HonestlyAllowed(states[i], a) && states[i + 1] == Effect(states[i], a);
    if r in states[i + 1].runs {
      if r in states[i].runs {
        KeptOnRecord(states, i, a, r);
      } else {
        NewOnRecord(states, i, a, r);
      }
    }
  }

  lemma HonestStepOnRecord(states: seq<State>, i: nat, r: Id)
    requires HonestHistory(states) && i + 1 < |states| && RunOnRecord(states, i, r)
    ensures RunOnRecord(states, i + 1, r)
  {
    AlwaysHonoured(states, i);
    AlwaysHonoured(states, i + 1);
    HonestStepAt(states, i);
    StepOnRecord(states, i, r);
  }

  lemma NothingOnRecord(states: seq<State>, r: Id)
    requires HonestHistory(states)
    ensures RunOnRecord(states, 0, r)
  {
    assert states[0] == Empty;
  }

  /** Every stored alternative run is on record. */
  lemma {:induction false} AlwaysOnRecord(states: seq<State>, i: nat, r: Id)
    requires HonestHistory(states) && i < |states|
    ensures RunOnRecord(states, i, r)
    decreases i
  {
    if i == 0 {
      NothingOnRecord(states, r);
    } else {
      AlwaysOnRecord(states, i - 1, r);
      HonestStepOnRecord(states, i - 1, r);
    }
  }

  /** An accepted alternative plan is the one best plan of the scenario it was derived for: the
      changes applied to the snapshot its parent had, with the added services open to the one
      order its trail names. */
  lemma AcceptedAlternativeIsBest(states: seq<State>, i: nat, r: Id, d: Decision)
    requires HonestHistory(states) && i < |states|
    requires r in states[i].decisions && d in states[i].decisions[r] && d.state == Accepted
    requires r in states[i].runs && states[i].runs[r].parent.Some?
    ensures states[i].runs[r].validatorPass && states[i].runs[r].scenario in states[i].scenarios
    ensures BestAlternative(states, i, states[i].scenarios[states[i].runs[r].scenario], states[i].runs[r])
  {
    AlwaysHonoured(states, i);
    var run := states[i].runs[r];
    assert RunRight(states[i], run) && HonouredRun(states[i], run);
    AlwaysOnRecord(states, i, r);
    RecordedIsBest(states, i, states[i].scenarios[run.scenario], run);
  }

  /** The trail of the scenario opens with a search on the run's parent for this order, and the
      plan is best over what the search opened on the snapshot its parent scenario had. */
  ghost predicate BestAlternative(states: seq<State>, i: nat, x: Scenario, run: Run)
    requires i < |states|
  {
    x.parent.Some? && exists order: Id, j: nat ::
      && FoundBy(states[i], x, run, order)
      && j <= i && x.parent.value in states[j].scenarios
      && BestOverDerived(states[j].scenarios[x.parent.value].snapshot, order, x, run)
  }

  ghost predicate BestOverDerived(parent: Snapshot, order: Id, x: Scenario, run: Run) {
    && x.snapshot == Derived(parent, x.id, order, x.changes) && Derivable(parent, x.id, order, x.changes)
    && Best(BookOf(parent), DerivedChoices(parent, x.id, order, x.changes), PlanOf(run.assignments))
  }

  lemma BackedIsBest(parent: Snapshot, order: Id, x: Scenario, run: Run)
    requires BackedBy(parent, order, x, run) && run.isOptimal
    ensures BestOverDerived(parent, order, x, run)
  {
    var solved :| DerivedSound(parent, x.id, order, x.changes, solved) && SameSolve(solved, run);
  }

  lemma RecordedIsBest(states: seq<State>, i: nat, x: Scenario, run: Run)
    requires i < |states| && DerivedOnRecord(states, i, x, run) && run.isOptimal
    ensures BestAlternative(states, i, x, run)
  {
    var order: Id :| FoundBy(states[i], x, run, order) && OnRecord(states, i, x, run, order);
    var j: nat :| j <= i && x.parent.value in states[j].scenarios
                  && BackedBy(states[j].scenarios[x.parent.value].snapshot, order, x, run);
    BackedIsBest(states[j].scenarios[x.parent.value].snapshot, order, x, run);
  }

  lemma HonestIsHistory(states: seq<State>)
    requires HonestHistory(states)
    ensures History(states)
  {
    forall i | 0 <= i < |states| - 1 ensures Step(states[i], states[i + 1]) {
      HonestStepAt(states, i);
      var a :| HonestlyAllowed(states[i], a) && states[i + 1] == Effect(states[i], a);
    }
  }

  /** A scenario has one snapshot, whenever it is stored, so the trail and the record of an
      accepted alternative name one plan only. */
  lemma AcceptedAlternativeIsTheOne(states: seq<State>, i: nat, x: Scenario, run: Run, other: Run)
    requires HonestHistory(states) && i < |states|
    requires BestAlternative(states, i, x, run) && BestAlternative(states, i, x, other)
    ensures PlanOf(run.assignments) == PlanOf(other.assignments)
  {
    var order: Id, j: nat :|
      && FoundBy(states[i], x, run, order) && j <= i && x.parent.value in states[j].scenarios
      && BestOverDerived(states[j].scenarios[x.parent.value].snapshot, order, x, run);
    var order': Id, k: nat :|
      && FoundBy(states[i], x, other, order') && k <= i && x.parent.value in states[k].scenarios
      && BestOverDerived(states[k].scenarios[x.parent.value].snapshot, order', x, other);
    SameSnapshot(states, j, k, x.parent.value);
    OneBestOverDerived(states[j].scenarios[x.parent.value].snapshot, order, x, run, other);
  }

  lemma OneBestOverDerived(parent: Snapshot, order: Id, x: Scenario, run: Run, other: Run)
    requires BestOverDerived(parent, order, x, run) && BestOverDerived(parent, order, x, other)
    ensures PlanOf(run.assignments) == PlanOf(other.assignments)
  {
    BestUnique(BookOf(parent), DerivedChoices(parent, x.id, order, x.changes), PlanOf(run.assignments),
               PlanOf(other.assignments));
  }

  lemma SameSnapshot(states: seq<State>, j: nat, k: nat, id: Id)
    requires HonestHistory(states) && j < |states| && k < |states|
    requires id in states[j].scenarios && id in states[k].scenarios
    ensures states[j].scenarios[id].snapshot == states[k].scenarios[id].snapshot
  {
    HonestIsHistory(states);
    if j <= k {
      SnapshotStays(states, j, k, id);
    } else {
      SnapshotStays(states, k, j, id);
    }
  }

  lemma SnapshotStays(states: seq<State>, j: nat, k: nat, id: Id)
    requires History(states) && j <= k < |states| && id in states[j].scenarios && id in states[k].scenarios
    ensures states[j].scenarios[id].snapshot == states[k].scenarios[id].snapshot
  {
    AlwaysInv(states, j);
    AlwaysForward(states, j, k);
  }

  /** The run as it was before any search on it. */
  function AsSolved(run: Run): Run {
    run.(outcomes := UnsoughtAll(run.outcomes))
  }

  lemma StoredRunIsBacked(s: State, r: Id)
    requires Inv(s) && Honoured(s) && r in s.runs && s.runs[r].parent.None? && s.runs[r].status == SolverOptimal
    requires s.runs[r].scenario in s.scenarios
    ensures var snapshot := s.scenarios[s.runs[r].scenario].snapshot;
            && WagonsKnown(snapshot) && Backed(snapshot, BaselineScope(snapshot), AsSolved(s.runs[r]))
            && AsSolved(s.runs[r]).isOptimal
  {
    assert HonouredRun(s, s.runs[r]) && RunRight(s, s.runs[r]);
  }

  /** The search's changes, solved to the end, with what they gain outside the baseline. */
  ghost predicate SolvedOutside(snapshot: Snapshot, scenarioId: Id, order: Id, changes: seq<Change>,
                                solved: SolveResult) {
    && Derivable(snapshot, scenarioId, order, changes) && DerivedSound(snapshot, scenarioId, order, changes, solved)
    && solved.isOptimal && solved.status == SolverOptimal && GainsOutsideOnly(snapshot, scenarioId, order, changes)
  }

  lemma RequesterMovesAlone(snapshot: Snapshot, run: Run, order: Id, scenarioId: Id, changes: seq<Change>,
                            solved: SolveResult, out: SearchResult)
    requires SolvedOutside(snapshot, scenarioId, order, changes, solved)
    requires Backed(snapshot, BaselineScope(snapshot), AsSolved(run)) && run.isOptimal && run.status == SolverOptimal
    requires order !in OrdersOf(run.assignments) && Concludes(run, order, changes, solved, out)
    ensures Separability.Without(PlanOf(solved.assignments), order) == PlanOf(run.assignments)
    ensures forall a :: a in solved.assignments && a.order == order ==>
              FirstGained(snapshot, scenarioId, order, changes, a)
    ensures out.Found? ==> JustAdded(out, order)
  {
    OnlyTheRequesterMoves(snapshot, AsSolved(run), scenarioId, order, changes, solved, out);
  }

  /** Impact isolation for what is stored: earlier searches on the same baseline run change
      nothing about it. */
  lemma StoredRequesterMovesAlone(s: State, r: Id, order: Id, scenarioId: Id, changes: seq<Change>,
                                  solved: SolveResult, out: SearchResult)
    requires Inv(s) && Honoured(s) && r in s.runs && s.runs[r].parent.None? && s.runs[r].status == SolverOptimal
    requires s.runs[r].scenario in s.scenarios
    requires SolvedOutside(s.scenarios[s.runs[r].scenario].snapshot, scenarioId, order, changes, solved)
    requires order !in OrdersOf(s.runs[r].assignments)
    requires Concludes(s.runs[r], order, changes, solved, out)
    ensures Separability.Without(PlanOf(solved.assignments), order) == PlanOf(s.runs[r].assignments)
    ensures var snapshot := s.scenarios[s.runs[r].scenario].snapshot;
            forall a :: a in solved.assignments && a.order == order ==>
              FirstGained(snapshot, scenarioId, order, changes, a)
    ensures out.Found? ==> JustAdded(out, order)
  {
    StoredRunIsBacked(s, r);
    RequesterMovesAlone(s.scenarios[s.runs[r].scenario].snapshot, s.runs[r], order, scenarioId, changes, solved, out);
  }

  // ---------------------------------------------------------------- explanations and lineage

  /** Every card of every stored explanation is the one its run calls for now. */
  ghost predicate Current(s: State) {
    forall r :: r in s.explanations && r in s.runs ==> Written(s.explanations[r], s.runs[r].outcomes)
  }

  /** A search that finds nothing, on an explained run, for an order whose card shows it. */
  predicate LeavesStale(s: State, a: Action) {
    a.MissAlternative? && a.baseline in s.explanations && a.baseline in s.runs
    && var outcomes := s.runs[a.baseline].outcomes;
       var first := FirstOutcome(outcomes, a.order, 0);
       first.Some? && ShowsVainSearch(outcomes[first.value])
  }

  lemma WrittenAfterMiss(e: Explanation, outcomes: seq<OrderOutcome>, order: Id)
    requires Written(e, outcomes)
    ensures var first := FirstOutcome(outcomes, order, 0);
            Written(e, Applied(outcomes, order, NoAlternative, None)) <==>
              !(first.Some? && ShowsVainSearch(outcomes[first.value]))
  {
    var first := FirstOutcome(outcomes, order, 0);
    var after := Applied(outcomes, order, NoAlternative, None);
    if first.Some? {
      VainSearchShowsIff(e.cards[first.value], outcomes[first.value]);
      assert forall i :: 0 <= i < |outcomes| && i != first.value ==> after[i] == outcomes[i];
      assert after[first.value] == Noted(outcomes[first.value], NoAlternative, None);
    }
  }

  lemma MissMoves(s: State, r: Id, order: Id)
    requires r in s.runs
    ensures var t := Effect(s, MissAlternative(r, order));
            && t.explanations == s.explanations && t.runs.Keys == s.runs.Keys
            && (forall q :: q in s.runs && q != r ==> t.runs[q] == s.runs[q])
            && t.runs[r].outcomes == Applied(s.runs[r].outcomes, order, NoAlternative, None)
  {
  }

  lemma CurrentAfterMiss(s: State, r: Id, order: Id)
    requires Current(s) && r in s.runs
    ensures Current(Effect(s, MissAlternative(r, order))) <==> !LeavesStale(s, MissAlternative(r, order))
  {
    MissMoves(s, r, order);
    if r in s.explanations {
      WrittenAfterMiss(s.explanations[r], s.runs[r].outcomes, order);
    }
  }

  lemma CurrentAfterFind(s: State, r: Id, order: Id, x: Scenario, run: Run, v: Validation)
    requires Current(s) && r in s.runs && run.id !in s.explanations
    ensures Current(Effect(s, FindAlternative(r, order, x, run, v)))
  {
  }

  lemma CurrentAfterRun(s: State, run: Run)
    requires Current(s) && run.id !in s.explanations
    ensures Current(Effect(s, CompleteRun(run)))
  {
  }

  lemma CurrentAfterExplain(s: State, r: Id, e: Explanation)
    requires Current(s) && r in s.runs && Written(e, s.runs[r].outcomes)
    ensures Current(Effect(s, Explain(r, e)))
  {
  }

  lemma CurrentAfterDelete(s: State, id: Id)
    requires Current(s)
    ensures Current(Storage.Without(s, id))
  {
  }

  lemma CurrentUnmoved(s: State, t: State)
    requires Current(s) && t.runs == s.runs && t.explanations == s.explanations
    ensures Current(t)
  {
  }

  lemma RunsUnmoved(s: State, a: Action)
    requires !a.CompleteRun? && !a.MissAlternative? && !a.FindAlternative? && !a.Explain? && !a.Delete?
    ensures Effect(s, a).runs == s.runs && Effect(s, a).explanations == s.explanations
  {
  }

  lemma CurrentElsewhere(s: State, a: Action)
    requires Current(s)
    requires !a.CompleteRun? && !a.MissAlternative? && !a.FindAlternative? && !a.Explain? && !a.Delete?
    ensures Current(Effect(s, a))
  {
    RunsUnmoved(s, a);
    CurrentUnmoved(s, Effect(s, a));
  }

  lemma CurrentUnlessMissed(s: State, a: Action)
    requires Numbered(s) && Attached(s) && Current(s) && Allowed(s, a) && !a.MissAlternative?
    ensures Current(Effect(s, a))
  {
    IssuedAreFuture(s, a);
    match a
    case CompleteRun(run) => CurrentAfterRun(s, run);
    case FindAlternative(r, order, x, run, v) => CurrentAfterFind(s, r, order, x, run, v);
    case Explain(r, e) => CurrentAfterExplain(s, r, e);
    case Delete(id) => CurrentAfterDelete(s, id);
    case _ => CurrentElsewhere(s, a);
  }

  /** Explanations stay true of their runs, except after exactly these searches: a search that
      finds an alternative drops the explanation, one that finds nothing does not. */
  lemma ExplanationsStayCurrentIff(s: State, a: Action)
    requires Numbered(s) && Attached(s) && Current(s) && Allowed(s, a)
    ensures Current(Effect(s, a)) <==> !LeavesStale(s, a)
  {
    if a.MissAlternative? {
      CurrentAfterMiss(s, a.baseline, a.order);
    } else {
      CurrentUnlessMissed(s, a);
    }
  }

  /** While the store holds no more scenarios than the check reads, it sees every child. */
  lemma SmallStoresKeepParents(s: State, id: Id)
    requires |s.scenarios| <= 100 && NoListedChild(s.scenarios, id)
    ensures forall k :: k in s.scenarios ==> s.scenarios[k].parent != Some(id)
  {
    forall k | k in s.scenarios ensures s.scenarios[k].parent != Some(id) {
      SubsetSize(NewerThan(s.scenarios, k) + {k}, s.scenarios.Keys);
      assert |s.scenarios.Keys| == |s.scenarios|;
    }
  }

  // ---------------------------------------------------------------- what a request touches

  /** Outside these scenarios and runs, nothing stored has changed. */
  ghost predicate TouchesOnly(s: State, t: State, scenarios: set<Id>, runs: set<Id>) {
    && (forall id :: id !in scenarios ==>
          && (id in t.scenarios <==> id in s.scenarios)
          && (id in s.scenarios ==> t.scenarios[id] == s.scenarios[id])
          && (id in t.validations <==> id in s.validations)
          && (id in s.validations ==> t.validations[id] == s.validations[id])
          && (id in t.trace <==> id in s.trace)
          && (id in s.trace ==> t.trace[id] == s.trace[id]))
    && (forall r :: r !in runs ==>
          && (r in t.runs <==> r in s.runs)
          && (r in s.runs ==> t.runs[r] == s.runs[r])
          && (r in t.explanations <==> r in s.explanations)
          && (r in s.explanations ==> t.explanations[r] == s.explanations[r])
          && (r in t.decisions <==> r in s.decisions)
          && (r in s.decisions ==> t.decisions[r] == s.decisions[r]))
  }

  /** A new scenario is stored as it is, with one event. */
  lemma CreateReads(s: State, x: Scenario)
    ensures var t := Effect(s, CreateScenario(x));
            && TouchesOnly(s, t, {x.id}, {})
            && x.id in t.scenarios && t.scenarios[x.id] == x && t.validations == s.validations
            && TraceOf(t, x.id) == TraceOf(s, x.id) + [ScenarioCreated]
  {
  }

  /** Validating stores the verdicts and opens a scenario that had none for solving, if any order
      has a candidate. */
  lemma ValidateReads(s: State, id: Id, v: Validation, anyCandidate: bool)
    requires id in s.scenarios
    ensures var t := Effect(s, Validate(id, v, anyCandidate));
            var before := s.scenarios[id];
            && TouchesOnly(s, t, {id}, {})
            && id in t.validations && t.validations[id] == v
            && id in t.scenarios
            && t.scenarios[id] == (if anyCandidate && before.state == ValidationRequired
                                   then before.(state := ReadyToSolve) else before)
            && TraceOf(t, id) == TraceOf(s, id) + [ValidationCompleted]
  {
  }

  /** A run is stored as it is, and its scenario is solved. */
  lemma RunReads(s: State, run: Run)
    requires run.scenario in s.scenarios && run.id !in s.explanations && run.id !in s.decisions
    ensures var t := Effect(s, CompleteRun(run));
            && TouchesOnly(s, t, {run.scenario}, {run.id})
            && run.id in t.runs && t.runs[run.id] == run && t.validations == s.validations
            && run.scenario in t.scenarios
            && t.scenarios[run.scenario] == s.scenarios[run.scenario].(state := Solved)
            && TraceOf(t, run.scenario) == TraceOf(s, run.scenario) + [RunCompleted(run.id)]
            && t.explanations == s.explanations && t.decisions == s.decisions
  {
  }

  /** A search in vain notes its verdict on the run and nothing else. */
  lemma MissReads(s: State, r: Id, order: Id)
    requires r in s.runs
    ensures var t := Effect(s, MissAlternative(r, order));
            var x := s.runs[r].scenario;
            && TouchesOnly(s, t, {x}, {r})
            && t.scenarios == s.scenarios && t.validations == s.validations
            && r in t.runs
            && t.runs[r] == s.runs[r].(outcomes := Applied(s.runs[r].outcomes, order, NoAlternative, None))
            && TraceOf(t, x) == TraceOf(s, x) + [AlternativeCreated(r, order, None)]
            && t.explanations == s.explanations && t.decisions == s.decisions
  {
  }

  /** A find stores the derived scenario with its run and validation, links the order's outcome to
      it, drops the run's explanation and leaves an event on both trails. */
  lemma FindReads(s: State, r: Id, order: Id, x: Scenario, run: Run, v: Validation)
    requires r in s.runs && run.id != r && x.id != s.runs[r].scenario
    requires run.id !in s.explanations && run.id !in s.decisions
    ensures var t := Effect(s, FindAlternative(r, order, x, run, v));
            var parent, event := s.runs[r].scenario, AlternativeCreated(r, order, Some(run.id));
            && TouchesOnly(s, t, {x.id, parent}, {r, run.id})
            && x.id in t.scenarios && t.scenarios[x.id] == x && run.id in t.runs && t.runs[run.id] == run
            && (parent in s.scenarios ==> parent in t.scenarios && t.scenarios[parent] == s.scenarios[parent])
            && x.id in t.validations && t.validations[x.id] == v
            && (parent in s.validations ==> parent in t.validations && t.validations[parent] == s.validations[parent])
            && r in t.runs
            && t.runs[r] == s.runs[r].(outcomes := Applied(s.runs[r].outcomes, order, Available, Some(x.id)))
            && r !in t.explanations && t.decisions == s.decisions
            && TraceOf(t, parent) == TraceOf(s, parent) + [event] && TraceOf(t, x.id) == TraceOf(s, x.id) + [event]
  {
  }

  /** A decision joins its run's list. */
  lemma DecideReads(s: State, d: Decision)
    requires d.run in s.runs
    ensures var t := Effect(s, Decide(d));
            var x := s.runs[d.run].scenario;
            && TouchesOnly(s, t, {x}, {d.run})
            && t.scenarios == s.scenarios && t.validations == s.validations && t.runs == s.runs
            && t.explanations == s.explanations
            && DecisionsOf(t, d.run) == DecisionsOf(s, d.run) + [d]
            && TraceOf(t, x) == TraceOf(s, x) + [DecisionRecorded(d.run, d.id)]
  {
  }

  /** Deleting a scenario takes it, its validation and trail, and its runs with what hangs on them. */
  lemma DeleteReads(s: State, id: Id)
    ensures var t := Effect(s, Delete(id));
            && TouchesOnly(s, t, {id}, RunsOf(s, id))
            && id !in t.scenarios && id !in t.validations && id !in t.trace
            && (forall r :: r in RunsOf(s, id) ==> r !in t.runs && r !in t.explanations && r !in t.decisions)
            && (forall r :: r in t.runs ==> t.runs[r].scenario != id)
  {
  }

  /** An accepted decision on a stored run stands on a plan that was proved optimal and passed. */
  lemma AcceptedReads(s: State, r: Id, d: Decision)
    requires Reachable(s) && r in s.decisions && d in s.decisions[r] && d.state == Accepted
    ensures r in s.runs && s.runs[r].status == SolverOptimal && s.runs[r].validatorPass
  {
    ReachableIsRight(s);
  }

  /** The check reads the hundred newest scenarios. */
  lemma ChildScanReads(all: map<Id, Scenario>, id: Id)
    ensures NoListedChild(all, id) <==>
              forall k :: k in all && all[k].parent == Some(id) ==> |NewerThan(all, k)| >= 100
  {
  }
}
