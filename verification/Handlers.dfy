/** The request handlers, each one step of the store's life. */
module Handlers {
  import opened Ordering
  import opened Snapshots
  import opened Eligibility
  import opened GateProperties
  import opened CpSat
  import opened AssignmentModel
  import opened BaselineSolve
  import opened Listing
  import opened PlanValidator
  import opened Agreement
  import opened Hashing
  import opened Planning
  import opened ChangeSets
  import opened Alternatives
  import opened Suggestions
  import opened Explanations
  import opened Storage
  import opened Lifecycle

  datatype ApiError =
    | ScenarioNotFound | RunNotFound | InvalidInput | ValidationNeeded
    | SolverUnavailable | PolicyViolation | RunNotAcceptable

  datatype Reply<+T> = Ok(value: T) | Failed(error: ApiError)

  datatype ScenarioRequest = ScenarioRequest(
    policyVersion: string,
    baselineServices: seq<Id>,
    assumptions: seq<Id>,
    snapshot: Snapshot,
    parent: Option<Id>)

  datatype Mismatch = PolicyVersionDiffers | UnknownService(service: Id) | UnknownAssumption(assumption: Id)

  datatype Bundle = Bundle(
    scenario: Scenario,
    run: Run,
    validation: Validation,
    decisions: seq<Decision>,
    trace: seq<Event>,
    explanation: Option<Explanation>)

  /** The store moved by exactly this action, which it was entitled to. */
  twostate predicate Did(store: MemoryStore, a: Action)
    reads store
  {
    Allowed(old(store.Contents()), a) && store.Contents() == Effect(old(store.Contents()), a)
  }

  // ---------------------------------------------------------------- scenarios

  /** The envelope of the request agrees with the snapshot it carries. */
  ghost predicate Consistent(request: ScenarioRequest) {
    && request.policyVersion == request.snapshot.policy.version
    && (forall v :: v in request.baselineServices ==> Known(v, request.snapshot.services, ServiceId))
    && (forall a :: a in request.assumptions ==> a in request.snapshot.assumptions)
  }

  lemma ConsistentReads(request: ScenarioRequest)
    ensures Consistent(request) <==>
              && request.policyVersion == request.snapshot.policy.version
              && (forall id :: id in request.baselineServices ==>
                    exists v :: v in request.snapshot.services && v.id == id)
              && (forall id :: id in request.assumptions ==> id in request.snapshot.assumptions)
  {
    forall id ensures Known(id, request.snapshot.services, ServiceId) <==>
                        exists v :: v in request.snapshot.services && v.id == id
    {
      KnownIsThere(id, request.snapshot.services, ServiceId);
      assert forall v :: v in request.snapshot.services ==> ServiceId(v) == v.id;
    }
  }

  lemma AllListed(ids: seq<Id>, known: seq<Id>)
    ensures (forall k :: 0 <= k < |ids| ==> ids[k] in known) <==> forall id :: id in ids ==> id in known
  {
    assert forall k :: 0 <= k < |ids| ==> ids[k] in ids;
  }

  method RejectInconsistentRequest(request: ScenarioRequest) returns (details: seq<Mismatch>)
    ensures details == [] <==> Consistent(request)
  {
    details := [];
    if request.policyVersion != request.snapshot.policy.version {
      details := details + [PolicyVersionDiffers];
    }
    ghost var version := details;
    var services := MapSeq(request.snapshot.services, ServiceId);
    for n := 0 to |request.baselineServices|
      invariant details == [] <==> version == [] && forall k :: 0 <= k < n ==> request.baselineServices[k] in services
    {
      if request.baselineServices[n] !in services {
        details := details + [UnknownService(request.baselineServices[n])];
      }
    }
    AllListed(request.baselineServices, services);
    ghost var scope := details;
    for n := 0 to |request.assumptions|
      invariant details == [] <==>
                  scope == [] && forall k :: 0 <= k < n ==> request.assumptions[k] in request.snapshot.assumptions
    {
      if request.assumptions[n] !in request.snapshot.assumptions {
        details := details + [UnknownAssumption(request.assumptions[n])];
      }
    }
    AllListed(request.assumptions, request.snapshot.assumptions);
  }

  method RecordScenario(store: MemoryStore, request: ScenarioRequest, now: int) returns (record: Scenario)
    modifies store
    ensures record == Scenario(record.id, now, request.snapshot, request.parent, [], ValidationRequired)
    ensures IssuedIds(old(store.Contents()), CreateScenario(record))
    ensures store.Contents() == Effect(old(store.Contents()), CreateScenario(record))
  {
    var id := store.NextScenarioId();
    record := Scenario(id, now, request.snapshot, request.parent, [], ValidationRequired);
    store.SaveScenario(record);
    store.AppendTrace(id, ScenarioCreated);
  }

  /** Stores a scenario under a new identifier, or refuses a malformed or inconsistent request.
      Both the snapshot and the request must list baseline services. */
  method PostScenario(store: MemoryStore, request: ScenarioRequest, now: int)
    returns (reply: Reply<Id>, ghost did: Action)
    requires Reachable(store.Contents())
    modifies store
    ensures Did(store, did) && Reachable(store.Contents())
    ensures reply.Ok? <==>
              request.baselineServices != [] && WellFormed(request.snapshot) && Consistent(request)
    ensures reply.Ok? ==>
              did == CreateScenario(Scenario(reply.value, now, request.snapshot, request.parent, [],
                                             ValidationRequired))
    ensures reply.Failed? ==> reply.error == InvalidInput && did == Nothing
  {
    ghost var before := store.Contents();
    did := Nothing;
    var errors := ReferencesResolve(request.snapshot);
    if errors != [] || request.baselineServices == [] {
      return Failed(InvalidInput), Nothing;
    }
    var details := RejectInconsistentRequest(request);
    if details != [] {
      return Failed(InvalidInput), Nothing;
    }
    var record := RecordScenario(store, request, now);
    did := CreateScenario(record);
    ReachableNext(before, did);
    reply := Ok(record.id);
  }

  predicate AnyCandidate(evaluations: seq<OrderEvaluation>) {
    exists i :: 0 <= i < |evaluations| && evaluations[i].candidates != []
  }

  /** The gate's verdicts on the snapshot, over its baseline services. */
  ghost predicate GateVerdicts(snapshot: Snapshot, id: Id, result: Validation) {
    WagonsKnown(snapshot) && result == BuildValidationResult(id, EvaluationsOf(snapshot, BaselineScope(snapshot)))
  }

  method Evaluated(id: Id, snapshot: Snapshot) returns (result: Validation, anyCandidate: bool)
    requires WellFormed(snapshot)
    ensures result.scenario == id && GateVerdicts(snapshot, id, result)
    ensures anyCandidate <==> exists e :: e in result.orders && e.candidates != []
  {
    WellFormedWagons(snapshot);
    var evaluations := EvaluateScenario(snapshot, [], map[]);
    result := BuildValidationResult(id, evaluations);
    anyCandidate := AnyCandidate(evaluations);
    SameMultisetSameMembers(result.orders, evaluations);
    SomeCandidate(evaluations);
    SomeCandidate(result.orders);
  }

  lemma SomeCandidate(evaluations: seq<OrderEvaluation>)
    ensures AnyCandidate(evaluations) <==> exists e :: e in evaluations && e.candidates != []
  {
  }

  method RecordValidation(store: MemoryStore, id: Id, result: Validation, anyCandidate: bool)
    returns (ghost did: Action)
    requires id in store.scenarios && result.scenario == id
    modifies store
    ensures did == Validate(id, result, anyCandidate) && Did(store, did)
  {
    var state := store.scenarios[id].state;
    store.SaveValidation(id, result);
    if anyCandidate && state == ValidationRequired {
      store.UpdateScenarioState(id, ReadyToSolve);
    }
    store.AppendTrace(id, ValidationCompleted);
    did := Validate(id, result, anyCandidate);
  }

  /** Validation may be repeated; it only ever moves a scenario forward. */
  method ValidateScenario(store: MemoryStore, id: Id) returns (reply: Reply<Validation>, ghost did: Action)
    requires Reachable(store.Contents())
    modifies store
    ensures Did(store, did) && Reachable(store.Contents())
    ensures reply.Ok? <==> id in old(store.scenarios)
    ensures reply.Ok? ==> GateVerdicts(old(store.scenarios)[id].snapshot, id, reply.value)
    ensures reply.Ok? ==>
              did.Validate? && did.scenario == id && did.validation == reply.value
              && (did.anyCandidate <==> exists e :: e in reply.value.orders && e.candidates != [])
    ensures reply.Failed? ==> reply.error == ScenarioNotFound && did == Nothing
  {
    var found := store.GetScenario(id);
    if found.None? {
      return Failed(ScenarioNotFound), Nothing;
    }
    ghost var before := store.Contents();
    ReachableSnapshot(before, id);
    var result;
    result, did := EvaluateStored(store, id, found.value.snapshot);
    ReachableNext(before, did);
    reply := Ok(result);
  }

  method EvaluateStored(store: MemoryStore, id: Id, snapshot: Snapshot) returns (result: Validation, ghost did: Action)
    requires WellFormed(snapshot) && id in store.scenarios && snapshot == store.scenarios[id].snapshot
    modifies store
    ensures result.scenario == id && GateVerdicts(old(store.scenarios)[id].snapshot, id, result)
    ensures did.Validate? && did.scenario == id && did.validation == result && Did(store, did)
    ensures did.anyCandidate <==> exists e :: e in result.orders && e.candidates != []
  {
    var anyCandidate;
    result, anyCandidate := Evaluated(id, snapshot);
    did := RecordValidation(store, id, result, anyCandidate);
  }

  lemma ChildListedIff(all: map<Id, Scenario>, listed: seq<Scenario>, id: Id)
    requires Keyed(all) && Newest(all, CHILD_SCAN_LIMIT, listed)
    ensures NoListedChild(all, id) <==> forall x :: x in listed ==> x.parent != Some(id)
  {
    forall k | k in all ensures all[k] in listed <==> |NewerThan(all, k)| < CHILD_SCAN_LIMIT {
      ListedIffFewNewer(all, CHILD_SCAN_LIMIT, listed, k);
    }
  }

  /** Refused exactly while some scenario derived from this one has fewer newer ones than the
      check reads. */
  method DeleteScenario(store: MemoryStore, id: Id) returns (reply: Reply<Id>, ghost did: Action)
    requires Reachable(store.Contents())
    modifies store
    ensures Did(store, did) && Reachable(store.Contents())
    ensures reply == Failed(ScenarioNotFound) <==> id !in old(store.scenarios)
    ensures reply == Failed(PolicyViolation) <==> id in old(store.scenarios) && !NoListedChild(old(store.scenarios), id)
    ensures reply.Ok? <==> did == Delete(id)
    ensures reply.Failed? <==> did == Nothing
  {
    ghost var before := store.Contents();
    var found := store.GetScenario(id);
    if found.None? {
      return Failed(ScenarioNotFound), Nothing;
    }
    var listed := store.ListScenarios(CHILD_SCAN_LIMIT);
    ReachableIds(before);
    ChildListedIff(before.scenarios, listed, id);
    if exists i :: 0 <= i < |listed| && listed[i].parent == Some(id) {
      return Failed(PolicyViolation), Nothing;
    }
    store.DeleteScenario(id);
    did := Delete(id);
    ReachableNext(before, did);
    reply := Ok(id);
  }

  // ---------------------------------------------------------------- runs

  /** A solve that proved nothing is unavailable; any other run is stored. */
  predicate RunReply(id: Id, run: Run, reply: Reply<Run>, did: Action) {
    run.scenario == id
    && (if run.status == SolverError then reply == Failed(SolverUnavailable) && did == AttemptRun
        else reply == Ok(run) && did == CompleteRun(run))
  }

  /** The run is the solver's result over the baseline services, re-checked independently. */
  ghost predicate SolvedFrom(snapshot: Snapshot, world: World, run: Run) {
    && WagonsKnown(snapshot)
    && run.maxSeconds == world.maxSeconds
    && Traceable(ResultOf(run), EvaluationsOf(snapshot, BaselineScope(snapshot)))
    && (run.validatorPass <==> Legal(TablesOf(snapshot, []), run.assignments, run.outcomes))
    && Follows(BookOf(snapshot), CandidatesOf(snapshot, BaselineScope(snapshot)), world, ResultOf(run))
    && (Honest(world.engine) ==> Backed(snapshot, BaselineScope(snapshot), run))
  }

  /** Solves and records a baseline run. A solve that proved nothing is reported, not stored.
      `run` is the solve's result, when there was one. */
  method PostRun(store: MemoryStore, id: Id, workers: int, world: World)
    returns (reply: Reply<Run>, ghost did: Action, ghost run: Run)
    requires Reachable(store.Contents())
    modifies store
    ensures Did(store, did) && Reachable(store.Contents())
    ensures Honest(world.engine) ==> HonestlyAllowed(old(store.Contents()), did)
    ensures id !in old(store.scenarios) ==> reply == Failed(ScenarioNotFound) && did == Nothing
    ensures id in old(store.scenarios) && workers != 1 ==> reply == Failed(InvalidInput) && did == Nothing
    ensures id in old(store.scenarios) && workers == 1 && id !in old(store.validations) ==>
              reply == Failed(ValidationNeeded) && did == Nothing
    ensures id in old(store.scenarios) && workers == 1 && id in old(store.validations) ==>
              && RunReply(id, run, reply, did) && SolvedFrom(old(store.scenarios)[id].snapshot, world, run)
              && run.scenario == id
              && (run.status == SolverError ==> reply == Failed(SolverUnavailable) && did == AttemptRun)
              && (run.status != SolverError ==> reply == Ok(run) && did == CompleteRun(run))
  {
    run := NoRun();
    var found := store.GetScenario(id);
    if found.None? {
      return Failed(ScenarioNotFound), Nothing, run;
    }
    if workers != 1 {
      return Failed(InvalidInput), Nothing, run;
    }
    var validated := store.GetValidation(id);
    if validated.None? {
      return Failed(ValidationNeeded), Nothing, run;
    }
    ghost var before := store.Contents();
    ReachableSnapshot(before, id);
    reply, did, run := SolveStored(store, id, found.value.snapshot, world);
    ReachableNext(before, did);
  }

  ghost function NoRun(): Run {
    Run("", "", None, SolverError, false, true, [], [], map[], 0, NormaliseResult([], []))
  }

  method SolveStored(store: MemoryStore, id: Id, snapshot: Snapshot, world: World)
    returns (reply: Reply<Run>, ghost did: Action, ghost solved: Run)
    requires WellFormed(snapshot)
    requires id in store.scenarios && id in store.validations && snapshot == store.scenarios[id].snapshot
    modifies store
    ensures Did(store, did)
    ensures Honest(world.engine) ==> HonestlyAllowed(old(store.Contents()), did)
    ensures RunReply(id, solved, reply, did)
    ensures SolvedFrom(old(store.scenarios)[id].snapshot, world, solved)
  {
    ghost var before := store.Contents();
    var runId := store.NextRunId();
    assert store.Contents() == before.(runSeq := before.runSeq + 1);
    var run := SolvedRun(runId, id, snapshot, world);
    solved := run;
    reply, did := StoreRun(store, before, id, run);
  }

  method StoreRun(store: MemoryStore, ghost before: State, id: Id, run: Run)
    returns (reply: Reply<Run>, ghost did: Action)
    requires id in before.scenarios && id in before.validations
    requires run.id == Sequences.Format(Sequences.RUN_PREFIX, before.runSeq + 1)
    requires run.scenario == id && run.parent.None?
    requires run.status != SolverError ==> FreshResult(before.scenarios[id].snapshot, run)
    requires store.Contents() == before.(runSeq := before.runSeq + 1)
    modifies store
    ensures Allowed(before, did) && store.Contents() == Effect(before, did)
    ensures RunReply(id, run, reply, did)
    ensures run.validatorPass && BackedIn(before.scenarios[id].snapshot, run) ==> HonestlyAllowed(before, did)
  {
    if run.status == SolverError {
      return Failed(SolverUnavailable), AttemptRun;
    }
    RunIsAllowed(before, id, run);
    RecordRun(store, before, run);
    reply, did := Ok(run), CompleteRun(run);
  }

  lemma RunIsAllowed(s: State, id: Id, run: Run)
    requires id in s.scenarios && id in s.validations
    requires run.id == Sequences.Format(Sequences.RUN_PREFIX, s.runSeq + 1) && run.scenario == id && run.parent.None?
    requires FreshResult(s.scenarios[id].snapshot, run)
    ensures Allowed(s, CompleteRun(run))
    ensures run.validatorPass && BackedIn(s.scenarios[id].snapshot, run) ==> Trusted(s, CompleteRun(run))
  {
  }

  method RecordRun(store: MemoryStore, ghost before: State, run: Run)
    requires store.Contents() == before.(runSeq := before.runSeq + 1)
    modifies store
    ensures store.Contents() == Effect(before, CompleteRun(run))
  {
    store.SaveRun(run);
    store.UpdateScenarioState(run.scenario, Solved);
    store.AppendTrace(run.scenario, RunCompleted(run.id));
  }

  /** A baseline run as the store needs it. */
  method SolvedRun(runId: Id, id: Id, snapshot: Snapshot, world: World) returns (run: Run)
    requires WellFormed(snapshot)
    ensures run.id == runId && run.scenario == id && run.parent.None?
    ensures run.status != SolverError ==> FreshResult(snapshot, run)
    ensures SolvedFrom(snapshot, world, run)
    ensures Honest(world.engine) ==> run.validatorPass && BackedIn(snapshot, run)
  {
    WellFormedWagons(snapshot);
    run := RunBaseline(runId, id, snapshot, world);
    UnsearchedIsUnsought(run.outcomes);
    assert run.(outcomes := UnsoughtAll(run.outcomes)) == run;
  }

  /** The search on this run answered this, under the identifiers drawn for it and the budget
      of the baseline run. */
  ghost predicate SearchedFor(s: State, runId: Id, order: Id, types: seq<Adjustment>, world: World, out: SearchResult)
    requires runId in s.runs && s.runs[runId].scenario in s.scenarios
  {
    SearchedWith(s.scenarios[s.runs[runId].scenario].snapshot, s.runs[runId], order, types,
                 Sequences.Format(Sequences.ALTERNATIVE_SCENARIO_PREFIX, s.alternativeSeq + 1),
                 Sequences.Format(Sequences.ALTERNATIVE_RUN_PREFIX, s.alternativeSeq + 1),
                 world.(maxSeconds := s.runs[runId].maxSeconds), out)
  }

  ghost predicate SearchedWith(snapshot: Snapshot, run: Run, order: Id, types: seq<Adjustment>, scenarioId: Id,
                               runId: Id, world: World, out: SearchResult) {
    exists solved :: Answers(snapshot, run, order, types, scenarioId, runId, world, out, solved)
  }

  /** What is replied and done about each answer. */
  predicate SearchReply(runId: Id, order: Id, out: SearchResult, reply: Reply<SearchResult>, did: Action) {
    match out
    case Refused(_) => reply == Failed(PolicyViolation) && did == AttemptAlternative
    case Unclear(_) => reply == Failed(InvalidInput) && did == AttemptAlternative
    case NotFound(_, _) => reply == Ok(out) && did == MissAlternative(runId, order)
    case Found(_, _, _, _, _, _, _) =>
      && reply == Ok(out) && did.FindAlternative? && did.baseline == runId && did.order == order
      && did.run == out.run && did.validation == out.validation
      && did.record.snapshot == out.snapshot && did.record.changes == out.changes
  }

  /** Searches an alternative. The baseline run keeps its plan; only the order's alternative
      fields move, and a found alternative is stored as a scenario of its own. `out` is the
      answer of the search, when there was one. */
  method PostAlternative(store: MemoryStore, runId: Id, order: Id, types: seq<Adjustment>, world: World, now: int)
    returns (reply: Reply<SearchResult>, ghost did: Action, ghost out: SearchResult)
    requires Reachable(store.Contents())
    modifies store
    ensures Did(store, did) && Reachable(store.Contents())
    ensures Honest(world.engine) ==> HonestlyAllowed(old(store.Contents()), did)
    ensures runId !in old(store.runs) ==> reply == Failed(RunNotFound) && did == Nothing
    ensures runId in old(store.runs) ==> old(store.runs)[runId].scenario in old(store.scenarios)
    ensures runId in old(store.runs) ==>
              if order in MapSeq(old(store.scenarios)[old(store.runs)[runId].scenario].snapshot.orders, OrderId)
              then SearchReply(runId, order, out, reply, did)
                   && SearchedFor(old(store.Contents()), runId, order, types, world, out)
              else reply == Failed(InvalidInput) && did == Nothing
    ensures did == AttemptAlternative ==>
              (out.Refused? && reply == Failed(PolicyViolation)) || (out.Unclear? && reply == Failed(InvalidInput))
    ensures did.MissAlternative? ==> out.NotFound? && reply == Ok(out) && did.baseline == runId && did.order == order
    ensures did.FindAlternative? ==>
              && out.Found? && reply == Ok(out) && did.baseline == runId && did.order == order
              && did.run == out.run && did.validation == out.validation
              && did.record.snapshot == out.snapshot && did.record.changes == out.changes
    ensures did in {Nothing, AttemptAlternative} || did.MissAlternative? || did.FindAlternative?
  {
    ghost var before := store.Contents();
    out := Unclear([]);
    var resolved := ResolveSearch(store, runId, order);
    assert store.Contents() == before;
    if resolved.Failed? {
      return Failed(resolved.error), Nothing, out;
    }
    reply, did, out := SearchStored(store, runId, order, types, world, now);
    ReachableNext(before, did);
  }

  /** Draws the number, searches and stores what came of it. */
  method SearchStored(store: MemoryStore, runId: Id, order: Id, types: seq<Adjustment>, world: World, now: int)
    returns (reply: Reply<SearchResult>, ghost did: Action, ghost answer: SearchResult)
    requires Reachable(store.Contents()) && Searchable(store.Contents(), runId, order)
    modifies store
    ensures Did(store, did)
    ensures Honest(world.engine) ==> HonestlyAllowed(old(store.Contents()), did)
    ensures SearchReply(runId, order, answer, reply, did)
    ensures SearchedFor(old(store.Contents()), runId, order, types, world, answer)
  {
    ghost var before := store.Contents();
    var n := store.NextAlternativeSequence();
    assert store.Contents() == before.(alternativeSeq := before.alternativeSeq + 1);
    var baseline := store.runs[runId];
    var out := Searched(before, runId, baseline, store.scenarios[baseline.scenario].snapshot, order, types, n, world);
    answer := out;
    SearchIsStorable(before, runId, order, types, world, out);
    reply, did := StoreOutcome(store, before, runId, order, out, now);
  }

  /** The snapshot a search runs on: the run, its scenario and the order must all be there. */
  method ResolveSearch(store: MemoryStore, runId: Id, order: Id) returns (r: Reply<Snapshot>)
    requires Reachable(store.Contents())
    ensures r == Failed(RunNotFound) <==> runId !in store.runs
    ensures runId in store.runs ==>
              && store.runs[runId].scenario in store.scenarios
              && var snapshot := store.scenarios[store.runs[runId].scenario].snapshot;
                 r == if order in MapSeq(snapshot.orders, OrderId) then Ok(snapshot) else Failed(InvalidInput)
  {
    var baseline := store.GetRun(runId);
    if baseline.None? {
      return Failed(RunNotFound);
    }
    ReachableRun(store.Contents(), runId);
    var scenario := store.GetScenario(baseline.value.scenario);
    if scenario.None? {
      return Failed(ScenarioNotFound);
    }
    if order !in MapSeq(scenario.value.snapshot.orders, OrderId) {
      return Failed(InvalidInput);
    }
    r := Ok(scenario.value.snapshot);
  }

  /** The run, its scenario and the order are there. */
  ghost predicate Searchable(s: State, runId: Id, order: Id) {
    && runId in s.runs && s.runs[runId].scenario in s.scenarios
    && order in MapSeq(s.scenarios[s.runs[runId].scenario].snapshot.orders, OrderId)
  }

  /** A search on a stored run ended in a way that can be recorded. */
  ghost predicate Storable(s: State, runId: Id, order: Id, out: SearchResult) {
    && runId in s.runs && s.runs[runId].id == runId && s.runs[runId].scenario in s.scenarios
    && runId != Sequences.Format(Sequences.ALTERNATIVE_RUN_PREFIX, s.alternativeSeq + 1)
    && (exists o :: o in s.runs[runId].outcomes && o.order == order)
    && (out.Found? ==>
          FitToStore(s.scenarios[s.runs[runId].scenario].snapshot, s.runs[runId], order,
                     Sequences.Format(Sequences.ALTERNATIVE_SCENARIO_PREFIX, s.alternativeSeq + 1),
                     Sequences.Format(Sequences.ALTERNATIVE_RUN_PREFIX, s.alternativeSeq + 1), out))
  }

  /** The search under the baseline run's own budget and the identifiers drawn for it. */
  method Searched(ghost s: State, ghost runId: Id, baseline: Run, snapshot: Snapshot, order: Id, types: seq<Adjustment>,
                  n: nat, world: World)
    returns (out: SearchResult)
    requires Reachable(s) && runId in s.runs && s.runs[runId] == baseline && baseline.scenario in s.scenarios
    requires snapshot == s.scenarios[baseline.scenario].snapshot && n == s.alternativeSeq + 1
    ensures SearchedFor(s, runId, order, types, world, out)
  {
    ReachableSnapshot(s, baseline.scenario);
    WellFormedWagons(snapshot);
    ghost var solved;
    out, solved := SearchAlternative(snapshot, baseline, order, types,
                                     Sequences.Format(Sequences.ALTERNATIVE_SCENARIO_PREFIX, n),
                                     Sequences.Format(Sequences.ALTERNATIVE_RUN_PREFIX, n),
                                     world.(maxSeconds := baseline.maxSeconds));
  }

  lemma FoundFits(snapshot: Snapshot, baseline: Run, order: Id, types: seq<Adjustment>, scenarioId: Id, runId: Id,
                  world: World, out: SearchResult)
    requires SearchedWith(snapshot, baseline, order, types, scenarioId, runId, world, out) && out.Found?
    ensures FitToStore(snapshot, baseline, order, scenarioId, runId, out)
    ensures Honest(world.engine) ==>
              out.run.validatorPass && DerivedBacked(snapshot, scenarioId, order, out.changes, out.run)
  {
    var solved :| Answers(snapshot, baseline, order, types, scenarioId, runId, world, out, solved);
    assert out.changes != [];
    assert SameSolve(solved, out.run);
  }

  /** A find runs under the identifiers drawn for it and the budget of the run it started from. */
  lemma FoundIdsRead(s: State, runId: Id, order: Id, types: seq<Adjustment>, world: World, out: SearchResult)
    requires runId in s.runs && s.runs[runId].scenario in s.scenarios && out.Found?
    requires SearchedFor(s, runId, order, types, world, out)
    ensures out.run.maxSeconds == s.runs[runId].maxSeconds
    ensures out.run.id == Sequences.Format("RUN-ALT-", s.alternativeSeq + 1)
    ensures out.run.scenario == Sequences.Format("SCN-ALT-", s.alternativeSeq + 1)
    ensures out.snapshot.scenarioId == out.run.scenario && out.run.parent == Some(s.runs[runId].id)
  {
    var snapshot, run := s.scenarios[s.runs[runId].scenario].snapshot, s.runs[runId];
    var scenarioId := Sequences.Format(Sequences.ALTERNATIVE_SCENARIO_PREFIX, s.alternativeSeq + 1);
    var found := Sequences.Format(Sequences.ALTERNATIVE_RUN_PREFIX, s.alternativeSeq + 1);
    var solved :|
      Answers(snapshot, run, order, types, scenarioId, found, world.(maxSeconds := run.maxSeconds), out, solved);
    FoundReads(snapshot, run, order, out.changes, scenarioId, found, world.(maxSeconds := run.maxSeconds), out, solved);
  }

  /** What an honest engine adds to a find. */
  ghost predicate Trustworthy(s: State, runId: Id, order: Id, out: SearchResult)
    requires runId in s.runs && s.runs[runId].scenario in s.scenarios
  {
    out.Found? ==>
      && out.run.validatorPass
      && DerivedBacked(s.scenarios[s.runs[runId].scenario].snapshot,
                       Sequences.Format(Sequences.ALTERNATIVE_SCENARIO_PREFIX, s.alternativeSeq + 1),
                       order, out.changes, out.run)
  }

  lemma SearchIsStorable(s: State, runId: Id, order: Id, types: seq<Adjustment>, world: World, out: SearchResult)
    requires Reachable(s) && Searchable(s, runId, order) && SearchedFor(s, runId, order, types, world, out)
    ensures Storable(s, runId, order, out)
    ensures Honest(world.engine) ==> Trustworthy(s, runId, order, out)
  {
    ReachableSearch(s, runId, order);
    if out.Found? {
      FoundFits(s.scenarios[s.runs[runId].scenario].snapshot, s.runs[runId], order, types,
                Sequences.Format(Sequences.ALTERNATIVE_SCENARIO_PREFIX, s.alternativeSeq + 1),
                Sequences.Format(Sequences.ALTERNATIVE_RUN_PREFIX, s.alternativeSeq + 1),
                world.(maxSeconds := s.runs[runId].maxSeconds), out);
    }
  }

  /** What each way a search can end does to the store, once its number is drawn. */
  method StoreOutcome(store: MemoryStore, ghost before: State, runId: Id, order: Id, out: SearchResult, now: int)
    returns (reply: Reply<SearchResult>, ghost did: Action)
    requires Storable(before, runId, order, out)
    requires store.Contents() == before.(alternativeSeq := before.alternativeSeq + 1)
    modifies store
    ensures Allowed(before, did) && (Trustworthy(before, runId, order, out) ==> HonestlyAllowed(before, did))
    ensures store.Contents() == Effect(before, did)
    ensures SearchReply(runId, order, out, reply, did)
  {
    match out
    case Refused(_) =>
      reply, did := Failed(PolicyViolation), AttemptAlternative;
    case Unclear(_) =>
      reply, did := Failed(InvalidInput), AttemptAlternative;
    case NotFound(_, _) =>
      RecordMiss(store, before, runId, order);
      reply, did := Ok(out), MissAlternative(runId, order);
    case Found(_, _, _, _, _, _, _) =>
      did := StoreFind(store, before, runId, order, out, now);
      reply := Ok(out);
  }

  method StoreFind(store: MemoryStore, ghost before: State, runId: Id, order: Id, out: SearchResult, now: int)
    returns (ghost did: Action)
    requires Storable(before, runId, order, out) && out.Found?
    requires store.Contents() == before.(alternativeSeq := before.alternativeSeq + 1)
    modifies store
    ensures Allowed(before, did) && (Trustworthy(before, runId, order, out) ==> HonestlyAllowed(before, did))
    ensures store.Contents() == Effect(before, did)
    ensures SearchReply(runId, order, out, Ok(out), did)
  {
    var parent := store.runs[runId].scenario;
    var record := Scenario(out.run.scenario, now, out.snapshot, Some(parent), out.changes, Solved);
    FindIsAllowed(before, runId, order, record, out);
    RecordFind(store, before, runId, order, record, out.run, out.validation);
    did := FindAlternative(runId, order, record, out.run, out.validation);
  }

  /** The search under the baseline run's own budget, with what the store needs to know about a find. */
  ghost predicate FitToStore(snapshot: Snapshot, baseline: Run, order: Id, scenarioId: Id, runId: Id, out: SearchResult)
    requires out.Found?
  {
    && out.snapshot == Derived(snapshot, scenarioId, order, out.changes)
    && WellFormed(out.snapshot) && Publishable(out.snapshot, out.run)
    && out.run.id == runId && out.run.scenario == scenarioId && out.run.parent == Some(baseline.id)
    && out.validation.scenario == scenarioId
  }

  /** Nothing found: the verdict goes on the baseline run, and its explanation stays. */
  method RecordMiss(store: MemoryStore, ghost before: State, runId: Id, order: Id)
    requires runId in before.runs && before.runs[runId].id == runId
    requires store.Contents() == before.(alternativeSeq := before.alternativeSeq + 1)
    modifies store
    ensures store.Contents() == Effect(before, MissAlternative(runId, order))
  {
    var updated, changed := ApplyToBaseline(store.runs[runId], order, NoAlternative, None);
    store.SaveRun(updated);
    store.AppendTrace(updated.scenario, AlternativeCreated(runId, order, None));
  }

  lemma ReplacedIsApplied(run: Run, order: Id, updated: Run, outcome: OrderOutcome, state: AlternativeState,
                          scenario: Option<Id>)
    requires updated == run.(outcomes := Applied(run.outcomes, order, state, scenario))
    requires FirstOutcome(updated.outcomes, order, 0).Some?
    requires outcome == updated.outcomes[FirstOutcome(updated.outcomes, order, 0).value]
    ensures Replaced(run, order, outcome) == WithVerdict(run, order, state, scenario)
  {
    var first := FirstOutcome(run.outcomes, order, 0);
    if first.Some? {
      FirstIs(updated.outcomes, order, first.value);
    }
  }

  /** The derived scenario, its run and its validation, then the verdict on the baseline. */
  method RecordDerived(store: MemoryStore, ghost before: State, runId: Id, order: Id, record: Scenario, run: Run,
                       validation: Validation)
    requires runId in before.runs && run.id != runId
    requires store.Contents() == before.(alternativeSeq := before.alternativeSeq + 1)
    requires exists o :: o in before.runs[runId].outcomes && o.order == order
    modifies store
    ensures store.Contents() == WithDerived(before, runId, order, record, run, validation)
  {
    var updated, changed := ApplyToBaseline(store.runs[runId], order, Available, Some(record.id));
    ReplacedIsApplied(store.runs[runId], order, updated, changed.value, Available, Some(record.id));
    store.SaveScenario(record);
    store.SaveRun(run);
    store.SaveValidation(record.id, validation);
    store.UpdateOrderOutcome(runId, order, changed.value);
    store.ClearExplanation(runId);
  }

  /** A find, with its event on both scenarios' trails. */
  method RecordFind(store: MemoryStore, ghost before: State, runId: Id, order: Id, record: Scenario, run: Run,
                    validation: Validation)
    requires runId in before.runs && run.id != runId
    requires store.Contents() == before.(alternativeSeq := before.alternativeSeq + 1)
    requires exists o :: o in before.runs[runId].outcomes && o.order == order
    modifies store
    ensures store.Contents() == Effect(before, FindAlternative(runId, order, record, run, validation))
  {
    var baseline := store.runs[runId];
    RecordDerived(store, before, runId, order, record, run, validation);
    var event := AlternativeCreated(runId, order, Some(run.id));
    store.AppendTrace(baseline.scenario, event);
    store.AppendTrace(record.id, event);
  }

  lemma FindIsAllowed(s: State, runId: Id, order: Id, record: Scenario, out: SearchResult)
    requires Storable(s, runId, order, out) && out.Found?
    requires record.id == out.run.scenario && record.state == Solved && record.parent == Some(s.runs[runId].scenario)
    requires record.snapshot == out.snapshot && record.changes == out.changes
    ensures var did := FindAlternative(runId, order, record, out.run, out.validation);
            Allowed(s, did) && (Trustworthy(s, runId, order, out) ==> HonestlyAllowed(s, did))
  {
  }

  /** Only an optimal run that passed validation can be accepted. */
  method PostDecision(store: MemoryStore, runId: Id, state: DecisionState, decisionId: Id)
    returns (reply: Reply<Decision>, ghost did: Action)
    requires Reachable(store.Contents())
    modifies store
    ensures Did(store, did) && Reachable(store.Contents())
    ensures runId !in old(store.runs) ==> reply == Failed(RunNotFound) && did == Nothing
    ensures runId in old(store.runs) ==>
              var run := old(store.runs)[runId];
              reply.Ok? <==> state == Accepted ==> run.status == SolverOptimal && run.validatorPass
    ensures runId in old(store.runs) && reply.Failed? ==> reply.error == RunNotAcceptable && did == Nothing
    ensures reply.Ok? ==> reply.value == Decision(decisionId, runId, state) && did == Decide(reply.value)
  {
    ghost var before := store.Contents();
    var run := store.GetRun(runId);
    if run.None? {
      return Failed(RunNotFound), Nothing;
    }
    if state == Accepted && !Acceptable(run.value) {
      return Failed(RunNotAcceptable), Nothing;
    }
    var record := Decision(decisionId, runId, state);
    store.SaveDecision(record);
    store.AppendTrace(run.value.scenario, DecisionRecorded(runId, decisionId));
    did := Decide(record);
    ReachableNext(before, did);
    reply := Ok(record);
  }

  /** Generated once, then read. `drafts` and `ideas` are what the text generator replied. */
  method GetExplanation(store: MemoryStore, runId: Id, drafts: Option<seq<Draft>>, ideas: seq<Idea>)
    returns (reply: Reply<Explanation>, ghost did: Action)
    requires Reachable(store.Contents())
    modifies store
    ensures Did(store, did) && Reachable(store.Contents())
    ensures reply.Ok? <==> runId in old(store.runs)
    ensures reply.Ok? ==> runId in store.explanations && store.explanations[runId] == reply.value
    ensures runId in old(store.explanations) ==> did == Nothing
    ensures runId in old(store.runs) ==> old(store.runs)[runId].scenario in old(store.scenarios)
    ensures runId in old(store.runs) && runId !in old(store.explanations) ==>
              did == Explain(runId, reply.value)
              && reply == Ok(Explanation(AdvisedCards(old(store.scenarios)[old(store.runs)[runId].scenario].snapshot,
                                                      old(store.runs)[runId].outcomes, drafts, ideas)))
    ensures reply.Failed? ==> reply.error == RunNotFound && did == Nothing
  {
    ghost var before := store.Contents();
    var run := store.GetRun(runId);
    if run.None? {
      return Failed(RunNotFound), Nothing;
    }
    ReachableRun(before, runId);
    var stored := store.GetExplanation(runId);
    if stored.Some? {
      return Ok(stored.value), Nothing;
    }
    var explanation := Explained(store, runId, run.value, drafts, ideas);
    store.SaveExplanation(runId, explanation);
    did := Explain(runId, explanation);
    ReachableNext(before, did);
    reply := Ok(explanation);
  }

  /** The cards of a stored run; its scenario is always there to suggest from. */
  method Explained(store: MemoryStore, ghost runId: Id, run: Run, drafts: Option<seq<Draft>>, ideas: seq<Idea>)
    returns (explanation: Explanation)
    requires Reachable(store.Contents()) && runId in store.runs && store.runs[runId] == run
    requires run.scenario in store.scenarios
    ensures explanation
         == Explanation(AdvisedCards(store.scenarios[run.scenario].snapshot, run.outcomes, drafts, ideas))
    ensures Written(explanation, run.outcomes)
  {
    ReachableOutcomes(store.Contents(), runId);
    var snapshot := store.scenarios[run.scenario].snapshot;
    var cards := BuildCards(run.outcomes, drafts);
    var advised := Advise(snapshot, run.outcomes, drafts, ideas, cards);
    CardsAreWritten(snapshot, run.outcomes, drafts, ideas);
    explanation := Explanation(advised);
  }

  /** The export of a stored run never fails, and carries exactly what is recorded for it. */
  method ExportRun(store: MemoryStore, runId: Id) returns (reply: Reply<Bundle>)
    requires Reachable(store.Contents())
    ensures reply.Failed? ==> reply.error == RunNotFound
    ensures reply.Ok? <==> runId in store.runs
    ensures reply.Ok? ==>
              && reply.value.run == store.runs[runId]
              && reply.value.scenario.id == reply.value.run.scenario
              && reply.value.scenario.state == Solved
              && reply.value.run.scenario in store.validations
              && reply.value.validation == store.validations[reply.value.run.scenario]
              && reply.value.decisions == DecisionsOf(store.Contents(), runId)
              && reply.value.trace == TraceOf(store.Contents(), reply.value.run.scenario)
              && reply.value.explanation
                 == (if runId in store.explanations then Some(store.explanations[runId]) else None)
  {
    var run := store.GetRun(runId);
    if run.None? {
      return Failed(RunNotFound);
    }
    ReachableRun(store.Contents(), runId);
    var scenario := store.GetScenario(run.value.scenario);
    if scenario.None? {
      return Failed(ScenarioNotFound);
    }
    var validation := store.GetValidation(run.value.scenario);
    if validation.None? {
      return Failed(ValidationNeeded);
    }
    var decisions := store.ListDecisions(runId);
    var trace := store.ListTrace(run.value.scenario);
    var explanation := store.GetExplanation(runId);
    reply := Ok(Bundle(scenario.value, run.value, validation.value, decisions, trace, explanation));
  }
}
