/** Conditional alternatives: solve the derived scenario, compare it with the baseline run and
    record the verdict on the baseline without disturbing it. */
module Alternatives {
  import opened Ordering
  import opened ReasonCodes
  import opened Snapshots
  import opened Eligibility
  import opened Plans
  import opened Separability
  import opened CpSat
  import opened AssignmentModel
  import opened BaselineSolve
  import opened Listing
  import opened PlanValidator
  import opened Agreement
  import opened Hashing
  import opened Planning
  import opened ChangeSets
  import opened Deltas
  import opened DerivedScenario

  datatype SearchResult =
    | Refused(types: set<Adjustment>)
    | Unclear(terminals: seq<Id>)
    | NotFound(changes: seq<Change>, reason: Shown)
    | Found(changes: seq<Change>, snapshot: Snapshot, run: Run, impacted: seq<Id>, deltas: seq<Delta>,
            target: OrderOutcome, validation: Validation)

  // ---------------------------------------------------------------- the target's outcome

  /** Position of the first outcome of an order, from a given position on. */
  function FirstOutcome(outcomes: seq<OrderOutcome>, order: Id, from: nat): (r: Option<nat>)
    requires from <= |outcomes|
    ensures r.Some? ==> from <= r.value < |outcomes| && outcomes[r.value].order == order
                        && forall j :: from <= j < r.value ==> outcomes[j].order != order
    ensures r.None? ==> forall j :: from <= j < |outcomes| ==> outcomes[j].order != order
    decreases |outcomes| - from
  {
    if from == |outcomes| then None
    else if outcomes[from].order == order then Some(from)
    else FirstOutcome(outcomes, order, from + 1)
  }

  /** Why the target stayed out: its own verdict, or nothing feasible when there is none. */
  function ReasonFor(outcomes: seq<OrderOutcome>, order: Id): Shown {
    match FirstOutcome(outcomes, order, 0)
    case Some(i) => outcomes[i].primary
    case None => Because(NoFeasibleAlternative)
  }

  /** The first outcome of the order, now reading as a conditional alternative. */
  function MarkedAvailable(outcomes: seq<OrderOutcome>, order: Id): seq<OrderOutcome> {
    match FirstOutcome(outcomes, order, 0)
    case Some(i) =>
      outcomes[i := outcomes[i].(alternativeState := Available, primary := Because(AlternativeAvailable))]
    case None => outcomes
  }

  // ---------------------------------------------------------------- the comparison

  /** The verdict on a derived plan: not placed, nothing moved, or found with what moved. */
  ghost predicate Concludes(run: Run, orderId: Id, changes: seq<Change>, r: SolveResult, out: SearchResult) {
    var before, after := ByOrder(run.assignments), ByOrder(r.assignments);
    if orderId !in OrdersOf(r.assignments) then out == NotFound(changes, ReasonFor(r.outcomes, orderId))
    else if before == after then out == NotFound(changes, Because(AlternativeNotRequired))
    else out.Found? && out.changes == changes && IsDiff(before, after, out.deltas)
         && out.impacted == MapSeq(out.deltas, DeltaOrder)
  }

  function AlternativeRun(run: Run, orderId: Id, scenarioId: Id, runId: Id, maxSeconds: nat, r: SolveResult,
                          pass: bool): Run
  {
    var outcomes := MarkedAvailable(r.outcomes, orderId);
    Run(runId, scenarioId, Some(run.id), r.status, r.isOptimal, pass, r.assignments, outcomes, r.values, maxSeconds,
        NormaliseResult(r.assignments, outcomes))
  }

  lemma ImpactedOrders(deltas: seq<Delta>)
    requires StrictlyIncreasing(deltas, DeltaOrder)
    ensures SortIds(Dedup(MapSeq(deltas, DeltaOrder))) == MapSeq(deltas, DeltaOrder)
  {
    var orders := MapSeq(deltas, DeltaOrder);
    SortIdsSpec(Dedup(orders));
    forall i, j | 0 <= i < j < |orders| ensures Less(Self(orders[i]), Self(orders[j])) {
      assert Less(DeltaOrder(deltas[i]), DeltaOrder(deltas[j]));
    }
    IncreasingUnique(SortIds(Dedup(orders)), orders, Self);
  }

  lemma PlacedInTable(assignments: seq<Assignment>, orderId: Id)
    ensures orderId in ByOrder(assignments) <==> orderId in OrdersOf(assignments)
  {
    if orderId in OrdersOf(assignments) {
      var a :| a in assignments && a.order == orderId;
      assert CandidateOrder(a) in ByOrder(assignments);
    }
  }

  /** A found alternative: the solved run, with the target's outcome marked, under its own ids. */
  ghost predicate Packaged(run: Run, orderId: Id, scenarioId: Id, runId: Id, maxSeconds: nat, r: SolveResult,
                           out: SearchResult)
    requires out.Found?
  {
    && out.run == AlternativeRun(run, orderId, scenarioId, runId, maxSeconds, r, out.run.validatorPass)
    && out.run.status != SolverError && (out.run.isOptimal <==> out.run.status == SolverOptimal)
    && Covers(out.snapshot, out.run.outcomes)
    && out.target in out.run.outcomes && out.target.order == orderId
    && out.validation.scenario == scenarioId
  }

  lemma SameOrdersDistinct(x: seq<OrderOutcome>, y: seq<OrderOutcome>)
    requires |x| == |y| && forall i :: 0 <= i < |x| ==> x[i].order == y[i].order
    requires DistinctKeys(x, OutcomeOrder)
    ensures DistinctKeys(y, OutcomeOrder)
  {
    forall i, j | 0 <= i < j < |y| ensures OutcomeOrder(y[i]) != OutcomeOrder(y[j]) {
      assert OutcomeOrder(x[i]) != OutcomeOrder(x[j]);
    }
  }

  lemma MarkedCovers(s: Snapshot, outcomes: seq<OrderOutcome>, order: Id)
    requires Covers(s, outcomes)
    ensures Covers(s, MarkedAvailable(outcomes, order))
  {
    var marked := MarkedAvailable(outcomes, order);
    SameOrdersDistinct(outcomes, marked);
    forall o | o in OrderTable(s) ensures exists x :: x in marked && x.order == o {
      var x :| x in outcomes && x.order == o;
      var i :| 0 <= i < |outcomes| && outcomes[i] == x;
      assert marked[i] in marked && marked[i].order == o;
    }
  }

  method Conclude(run: Run, orderId: Id, changes: seq<Change>, derived: Snapshot, runId: Id, maxSeconds: nat,
                  r: SolveResult, pass: bool, evaluations: seq<OrderEvaluation>)
    returns (out: SearchResult)
    requires forall a :: a in r.assignments ==> a.order in OrderTable(derived)
    requires r.isOptimal <==> r.status == SolverOptimal
    requires r.status == SolverError ==> ReportsNothing(r)
    requires r.status != SolverError ==> Covers(derived, r.outcomes)
    ensures Concludes(run, orderId, changes, r, out)
    ensures out.NotFound? || out.Found?
    ensures out.Found? ==>
              && out.snapshot == derived
              && out.run.validatorPass == pass
              && out.validation == BuildValidationResult(derived.scenarioId, evaluations)
              && Packaged(run, orderId, derived.scenarioId, runId, maxSeconds, r, out)
  {
    PlacedInTable(r.assignments, orderId);
    if orderId !in ByOrder(r.assignments) {
      return NotFound(changes, ReasonFor(r.outcomes, orderId));
    }
    var deltas := AssignmentDeltas(run.assignments, r.assignments);
    EmptyDiffMeansEqual(ByOrder(run.assignments), ByOrder(r.assignments), deltas);
    var impacted := SortIds(Dedup(MapSeq(deltas, DeltaOrder)));
    ImpactedOrders(deltas);
    if deltas == [] {
      return NotFound(changes, Because(AlternativeNotRequired));
    }
    var alternative := AlternativeRun(run, orderId, derived.scenarioId, runId, maxSeconds, r, pass);
    MarkedCovers(derived, r.outcomes, orderId);
    var at := FirstOutcome(r.outcomes, orderId, 0);
    var target := alternative.outcomes[at.value];
    out := Found(changes, derived, alternative, impacted, deltas, target,
                 BuildValidationResult(derived.scenarioId, evaluations));
  }

  // ---------------------------------------------------------------- the search

  /** Everyone's services are inside the derived validation scope. */
  lemma DerivedPermits(s: Snapshot, scenarioId: Id, orderId: Id, changes: seq<Change>)
    ensures var d := Derived(s, scenarioId, orderId, changes);
            Permits(d, DerivedScope(s, orderId, changes), d.baselineServices)
  {
    var d := Derived(s, scenarioId, orderId, changes);
    forall o, v | o in d.orders && v in ScopeFor(DerivedScope(s, orderId, changes), o)
      ensures v in TablesOf(d, d.baselineServices).permitted
    {
      ServicesMembers(s.baselineServices, changes, v);
    }
  }

  /** What an honest engine makes of the derived scenario. */
  ghost predicate DerivedSound(s: Snapshot, scenarioId: Id, orderId: Id, changes: seq<Change>, r: SolveResult)
    requires Derivable(s, scenarioId, orderId, changes)
  {
    Sound(BookOf(s), EvaluationsOf(Derived(s, scenarioId, orderId, changes), DerivedScope(s, orderId, changes)), r)
  }

  /** The gate lists the candidate in the derived scenario. */
  ghost predicate DerivedLists(s: Snapshot, scenarioId: Id, orderId: Id, changes: seq<Change>, c: Candidate)
    requires Derivable(s, scenarioId, orderId, changes)
  {
    c in CandidatesOf(Derived(s, scenarioId, orderId, changes), DerivedScope(s, orderId, changes))
  }

  /** Unless the derived solve failed, its outcomes are those of the derived evaluations. */
  ghost predicate DerivedTraceable(s: Snapshot, scenarioId: Id, orderId: Id, changes: seq<Change>, r: SolveResult)
    requires Derivable(s, scenarioId, orderId, changes)
  {
    Traceable(r, EvaluationsOf(Derived(s, scenarioId, orderId, changes), DerivedScope(s, orderId, changes)))
  }

  /** What the engine settles about the derived solve. */
  ghost predicate DerivedFollows(s: Snapshot, scenarioId: Id, orderId: Id, changes: seq<Change>, world: World,
                                 r: SolveResult)
    requires Derivable(s, scenarioId, orderId, changes)
  {
    Follows(BookOf(s), CandidatesOf(Derived(s, scenarioId, orderId, changes), DerivedScope(s, orderId, changes)),
            world, r)
  }

  /** The gate's verdicts on the derived scenario, each order over its own services. */
  function DerivedVerdicts(s: Snapshot, scenarioId: Id, orderId: Id, changes: seq<Change>): Validation
    requires WagonsKnown(Derived(s, scenarioId, orderId, changes))
  {
    BuildValidationResult(scenarioId,
                          EvaluationsOf(Derived(s, scenarioId, orderId, changes), DerivedScope(s, orderId, changes)))
  }

  /** The changes were solved for, with this result, and the answer follows from it. A solve
      that failed ends as not found. */
  ghost predicate Tried(s: Snapshot, run: Run, orderId: Id, changes: seq<Change>, scenarioId: Id, runId: Id,
                        world: World, out: SearchResult, solved: SolveResult) {
    && Derivable(s, scenarioId, orderId, changes)
    && Concludes(run, orderId, changes, solved, out)
    && (solved.status == SolverError ==> out == NotFound(changes, Because(NoFeasibleAlternative)))
    && (solved.isOptimal <==> solved.status == SolverOptimal)
    && (forall a :: a in solved.assignments ==> DerivedLists(s, scenarioId, orderId, changes, a))
    && (Honest(world.engine) ==> DerivedSound(s, scenarioId, orderId, changes, solved))
    && DerivedFollows(s, scenarioId, orderId, changes, world, solved)
    && DerivedTraceable(s, scenarioId, orderId, changes, solved)
    && (out.Found? ==>
          && out.snapshot == Derived(s, scenarioId, orderId, changes)
          && Packaged(run, orderId, scenarioId, runId, world.maxSeconds, solved, out)
          && out.validation == DerivedVerdicts(s, scenarioId, orderId, changes)
          && (Honest(world.engine) ==> out.run.validatorPass))
  }

  /** Derives the scenario, evaluates it with the widened list for the target alone, and solves it. */
  method SolveDerived(s: Snapshot, orderId: Id, changes: seq<Change>, scenarioId: Id, world: World)
    returns (derived: Snapshot, evaluations: seq<OrderEvaluation>, r: SolveResult, pass: bool)
    requires Derivable(s, scenarioId, orderId, changes)
    ensures derived == Derived(s, scenarioId, orderId, changes)
    ensures evaluations == EvaluationsOf(derived, DerivedScope(s, orderId, changes))
    ensures r.isOptimal <==> r.status == SolverOptimal
    ensures r.status == SolverError ==> ReportsNothing(r)
    ensures r.status != SolverError ==> Covers(derived, r.outcomes)
    ensures forall a :: a in r.assignments ==> a.order in OrderTable(derived)
    ensures forall a :: a in r.assignments ==> DerivedLists(s, scenarioId, orderId, changes, a)
    ensures DerivedFollows(s, scenarioId, orderId, changes, world, r)
    ensures DerivedTraceable(s, scenarioId, orderId, changes, r)
    ensures Honest(world.engine) ==> DerivedSound(s, scenarioId, orderId, changes, r) && pass
  {
    var orderServices;
    derived, orderServices := DeriveSnapshot(s, scenarioId, orderId, changes);
    DerivedBook(s, scenarioId, orderId, changes);
    DerivedPermits(s, scenarioId, orderId, changes);
    evaluations := EvaluateScenario(derived, s.baselineServices, map[orderId := orderServices]);
    r, pass := SolveAndCheck(derived, DerivedScope(s, orderId, changes), evaluations, derived.baselineServices, world);
  }

  /** Solves and concludes on a change set that was approved. */
  method TryChanges(s: Snapshot, run: Run, orderId: Id, changes: seq<Change>, scenarioId: Id, runId: Id, world: World)
    returns (out: SearchResult, ghost solved: SolveResult)
    requires Derivable(s, scenarioId, orderId, changes)
    ensures out.NotFound? || out.Found?
    ensures out.changes == changes
    ensures Tried(s, run, orderId, changes, scenarioId, runId, world, out, solved)
  {
    var derived, evaluations, r, pass := SolveDerived(s, orderId, changes, scenarioId, world);
    solved := r;
    out := Conclude(run, orderId, changes, derived, runId, world.maxSeconds, r, pass, evaluations);
  }

  /** Every way a search can end, and when. */
  ghost predicate Answers(s: Snapshot, run: Run, orderId: Id, types: seq<Adjustment>, scenarioId: Id, runId: Id,
                          world: World, out: SearchResult, solved: SolveResult) {
    match out
    case Refused(forbidden) => AsksForbidden(s, types) && forbidden == set t | t in types && t in s.policy.forbidden
    case Unclear(terminals) =>
      && !AsksForbidden(s, types) && TerminalUnclear(s, orderId, types)
      && terminals == OrderTable(s)[orderId].window.value.destinationTerminals
    case _ =>
      && !AsksForbidden(s, types) && !TerminalUnclear(s, orderId, types)
      && Approved(s, orderId, types, out.changes) && Sorted(out.changes, ChangeLeq)
      && (if out.changes == [] then out == NotFound([], Because(AlternativeRequiresForbiddenChange))
          else Tried(s, run, orderId, out.changes, scenarioId, runId, world, out, solved))
  }

  /** Searches the approved alternatives for one order. */
  method SearchAlternative(s: Snapshot, run: Run, orderId: Id, types: seq<Adjustment>, scenarioId: Id, runId: Id,
                           world: World)
    returns (out: SearchResult, ghost solved: SolveResult)
    requires WellFormed(s) && WagonsKnown(s) && scenarioId != ""
    ensures out.Refused? <==> AsksForbidden(s, types)
    ensures out.Unclear? <==> !AsksForbidden(s, types) && TerminalUnclear(s, orderId, types)
    ensures out.NotFound? || out.Found? ==> Approved(s, orderId, types, out.changes)
    ensures Answers(s, run, orderId, types, scenarioId, runId, world, out, solved)
  {
    var built := BuildChangeSet(s, orderId, types);
    solved := SolveResult(SolverError, false, [], [], map[]);
    match built
    case Forbidden(forbidden) => out := Refused(forbidden);
    case Ambiguous(terminals) => out := Unclear(terminals);
    case Changes(changes) =>
      if changes == [] {
        out := NotFound([], Because(AlternativeRequiresForbiddenChange));
      } else {
        ApprovedResolve(s, orderId, types, changes);
        ResolvableIsDerivable(s, scenarioId, orderId, changes);
        out, solved := TryChanges(s, run, orderId, changes, scenarioId, runId, world);
      }
  }

  // ---------------------------------------------------------------- how an answer reads

  /** The run of a find is the derived solve under its own identifiers, with one outcome marked. */
  ghost predicate ReadsAsSolved(run: Run, orderId: Id, scenarioId: Id, runId: Id, maxSeconds: nat, r: SolveResult,
                                found: Run) {
    && found.id == runId && found.scenario == scenarioId && found.parent == Some(run.id)
    && found.status == r.status && found.isOptimal == r.isOptimal
    && found.assignments == r.assignments && found.values == r.values && found.maxSeconds == maxSeconds
    && found.resultForm == NormaliseResult(found.assignments, found.outcomes)
    && |found.outcomes| == |r.outcomes|
    && forall i :: 0 <= i < |r.outcomes| ==>
         && found.outcomes[i].order == r.outcomes[i].order
         && (r.outcomes[i].order != orderId ==> found.outcomes[i] == r.outcomes[i])
  }

  lemma MarkedReads(outcomes: seq<OrderOutcome>, order: Id, i: nat)
    requires DistinctKeys(outcomes, OutcomeOrder) && i < |outcomes|
    ensures |MarkedAvailable(outcomes, order)| == |outcomes|
    ensures var x, y := outcomes[i], MarkedAvailable(outcomes, order)[i];
            && (x.order != order ==> y == x)
            && (x.order == order ==>
                  && y.order == order && y.inputState == x.inputState && y.eligibilityState == x.eligibilityState
                  && y.assignmentState == x.assignmentState && y.badged == x.badged
                  && y.alternativeScenario == x.alternativeScenario
                  && y.alternativeState == Available && y.primary == Because(AlternativeAvailable))
  {
    var first := FirstOutcome(outcomes, order, 0);
    if first.Some? && first.value != i {
      assert OutcomeOrder(outcomes[first.value]) == order;
    }
  }

  lemma EvaluationBehind(evaluations: seq<OrderEvaluation>, placed: set<Id>, x: OrderOutcome) returns (k: nat)
    requires x in Outcomes(evaluations, placed)
    ensures k < |evaluations| && x == OutcomeOf(evaluations[k], placed)
  {
    OutcomeMembers(evaluations, placed);
    var e :| e in evaluations && x == OutcomeOf(e, placed);
    k :| 0 <= k < |evaluations| && evaluations[k] == e;
  }

  lemma OfferedEvaluation(s: Snapshot, scope: Scope, k: nat, a: Assignment)
    requires WellFormed(s) && WagonsKnown(s) && a in CandidatesOf(s, scope)
    requires k < |EvaluationsOf(s, scope)| && EvaluationsOf(s, scope)[k].order == a.order
    ensures EvaluationsOf(s, scope)[k].inputState == Valid && EvaluationsOf(s, scope)[k].eligibilityState == Eligible
  {
    EvaluationsLength(IndexOf(s), s.orders, scope);
    EvaluationOrderAt(s, scope, k);
    OfferedIsEligibleAt(s, scope, k, a);
  }

  lemma PlacedIsAssigned(e: OrderEvaluation, placed: set<Id>)
    requires e.inputState == Valid && e.eligibilityState == Eligible && e.order in placed
    ensures OutcomeOf(e, placed).assignmentState == Assigned
  {
  }

  /** The outcome of a placed order says so. */
  lemma PlacedOutcome(s: Snapshot, scope: Scope, r: SolveResult, x: OrderOutcome, a: Assignment)
    requires WellFormed(s) && WagonsKnown(s) && Traceable(r, EvaluationsOf(s, scope)) && r.status != SolverError
    requires x in r.outcomes && a in r.assignments && a.order == x.order
    ensures x.assignmentState == Assigned
  {
    var placed := OrdersIn(PlanOf(r.assignments));
    var k := EvaluationBehind(EvaluationsOf(s, scope), placed, x);
    OfferedEvaluation(s, scope, k, a);
    assert a in PlanOf(r.assignments) && a.order in placed;
    PlacedIsAssigned(EvaluationsOf(s, scope)[k], placed);
  }

  /** A find marks the order's own outcome as a conditional alternative, and leaves every other
      outcome as the solve reported it. */
  lemma PackagedReads(run: Run, orderId: Id, scenarioId: Id, runId: Id, maxSeconds: nat, r: SolveResult,
                      out: SearchResult)
    requires out.Found? && Packaged(run, orderId, scenarioId, runId, maxSeconds, r, out)
    requires DistinctKeys(r.outcomes, OutcomeOrder)
    ensures ReadsAsSolved(run, orderId, scenarioId, runId, maxSeconds, r, out.run)
    ensures out.target in out.run.outcomes && out.target.order == orderId
    ensures out.target.alternativeState == Available && out.target.primary == Because(AlternativeAvailable)
    ensures exists x :: x in r.outcomes && x.order == orderId && x.assignmentState == out.target.assignmentState
  {
    forall i | 0 <= i < |r.outcomes| {
      MarkedReads(r.outcomes, orderId, i);
    }
    var k :| 0 <= k < |out.run.outcomes| && out.run.outcomes[k] == out.target;
    MarkedReads(r.outcomes, orderId, k);
    assert r.outcomes[k] in r.outcomes;
  }

  lemma DerivedOutcomesCover(s: Snapshot, scenarioId: Id, orderId: Id, changes: seq<Change>, r: SolveResult)
    requires Derivable(s, scenarioId, orderId, changes) && DerivedTraceable(s, scenarioId, orderId, changes, r)
    requires r.status != SolverError
    ensures Covers(Derived(s, scenarioId, orderId, changes), r.outcomes)
  {
    OutcomesCover(Derived(s, scenarioId, orderId, changes), DerivedScope(s, orderId, changes),
                  OrdersIn(PlanOf(r.assignments)));
  }

  lemma DerivedPlacedOutcome(s: Snapshot, scenarioId: Id, orderId: Id, changes: seq<Change>, r: SolveResult,
                             x: OrderOutcome)
    requires Derivable(s, scenarioId, orderId, changes) && DerivedTraceable(s, scenarioId, orderId, changes, r)
    requires r.status != SolverError && x in r.outcomes && x.order in OrdersOf(r.assignments)
    ensures x.assignmentState == Assigned
  {
    var a :| a in r.assignments && a.order == x.order;
    PlacedOutcome(Derived(s, scenarioId, orderId, changes), DerivedScope(s, orderId, changes), r, x, a);
  }

  lemma FoundWasSolved(run: Run, orderId: Id, changes: seq<Change>, solved: SolveResult, out: SearchResult)
    requires Concludes(run, orderId, changes, solved, out) && out.Found?
    ensures orderId in OrdersOf(solved.assignments)
  {
  }

  /** So the target of a find reads as placed and as an alternative, and nothing else in the run
      differs from the solve. */
  lemma FoundReads(s: Snapshot, run: Run, orderId: Id, changes: seq<Change>, scenarioId: Id, runId: Id, world: World,
                   out: SearchResult, solved: SolveResult)
    requires Tried(s, run, orderId, changes, scenarioId, runId, world, out, solved) && out.Found?
    ensures ReadsAsSolved(run, orderId, scenarioId, runId, world.maxSeconds, solved, out.run)
    ensures out.target in out.run.outcomes && out.target.order == orderId
    ensures out.target.assignmentState == Assigned
    ensures out.target.alternativeState == Available && out.target.primary == Because(AlternativeAvailable)
  {
    DerivedOutcomesCover(s, scenarioId, orderId, changes, solved);
    FoundWasSolved(run, orderId, changes, solved, out);
    PackagedReads(run, orderId, scenarioId, runId, world.maxSeconds, solved, out);
    var x :| x in solved.outcomes && x.order == orderId && x.assignmentState == out.target.assignmentState;
    DerivedPlacedOutcome(s, scenarioId, orderId, changes, solved, x);
  }

  lemma ReasonIsOwn(outcomes: seq<OrderOutcome>, order: Id)
    requires exists x :: x in outcomes && x.order == order
    ensures exists x :: x in outcomes && x.order == order && ReasonFor(outcomes, order) == x.primary
  {
    var first := FirstOutcome(outcomes, order, 0);
    assert first.Some? && outcomes[first.value] in outcomes;
  }

  lemma DerivedHasOutcome(s: Snapshot, scenarioId: Id, orderId: Id, changes: seq<Change>, r: SolveResult)
    requires Derivable(s, scenarioId, orderId, changes) && DerivedTraceable(s, scenarioId, orderId, changes, r)
    requires r.status != SolverError && orderId in OrderTable(s)
    ensures exists x :: x in r.outcomes && x.order == orderId
  {
    DerivedOutcomesCover(s, scenarioId, orderId, changes, r);
    DerivedOrders(s, scenarioId, orderId, changes);
  }

  /** A search whose solve left the order out gives the order's own solved reason; one whose solve
      failed says that nothing is feasible. */
  lemma MissedReads(s: Snapshot, run: Run, orderId: Id, changes: seq<Change>, scenarioId: Id, runId: Id, world: World,
                    out: SearchResult, solved: SolveResult)
    requires Tried(s, run, orderId, changes, scenarioId, runId, world, out, solved)
    requires orderId in OrderTable(s) && orderId !in OrdersOf(solved.assignments)
    ensures solved.status == SolverError ==> out == NotFound(changes, Because(NoFeasibleAlternative))
    ensures solved.status != SolverError ==>
              exists x :: x in solved.outcomes && x.order == orderId && out == NotFound(changes, x.primary)
  {
    if solved.status != SolverError {
      DerivedHasOutcome(s, scenarioId, orderId, changes, solved);
      ReasonIsOwn(solved.outcomes, orderId);
    }
  }

  /** Which answer a request gets before anything is solved, and which changes are tried. */
  lemma AnswersRead(s: Snapshot, run: Run, orderId: Id, types: seq<Adjustment>, scenarioId: Id, runId: Id,
                    world: World, out: SearchResult, solved: SolveResult)
    requires Answers(s, run, orderId, types, scenarioId, runId, world, out, solved) && orderId in OrderTable(s)
    ensures out.Refused? <==> exists t :: t in types && t in s.policy.forbidden
    ensures out.Refused? ==> forall t :: t in out.types <==> t in types && t in s.policy.forbidden
    ensures var window := OrderTable(s)[orderId].window;
            && (out.Unclear? <==>
                  && (forall t :: t in types ==> t !in s.policy.forbidden) && window.Some?
                  && ChangeToApprovedTerminal in types && ChangeToApprovedTerminal in s.policy.allowed
                  && |window.value.destinationTerminals| > 1)
            && (out.Unclear? ==> out.terminals == window.value.destinationTerminals)
    ensures out.NotFound? || out.Found? ==>
              var window := OrderTable(s)[orderId].window;
              && (forall v :: AddService(v) in out.changes <==>
                    && window.Some? && v in window.value.services
                    && AddOrderApprovedService in types && AddOrderApprovedService in s.policy.allowed)
              && (forall t :: ChangeTerminal(t) in out.changes <==>
                    && window.Some? && t in window.value.destinationTerminals
                    && ChangeToApprovedTerminal in types && ChangeToApprovedTerminal in s.policy.allowed)
              && (out.changes == [] ==> out == NotFound([], Because(AlternativeRequiresForbiddenChange)))
  {
    if out.NotFound? || out.Found? {
      ApprovedReads(s, orderId, types, out.changes);
    }
  }

  lemma ApprovedReads(s: Snapshot, orderId: Id, types: seq<Adjustment>, changes: seq<Change>)
    requires Approved(s, orderId, types, changes) && orderId in OrderTable(s)
    ensures var window := OrderTable(s)[orderId].window;
            && (forall v :: AddService(v) in changes <==>
                  && window.Some? && v in window.value.services
                  && AddOrderApprovedService in types && AddOrderApprovedService in s.policy.allowed)
            && (forall t :: ChangeTerminal(t) in changes <==>
                  && window.Some? && t in window.value.destinationTerminals
                  && ChangeToApprovedTerminal in types && ChangeToApprovedTerminal in s.policy.allowed)
  {
    var window := OrderTable(s)[orderId].window;
    if window.Some? {
      forall v ensures AddService(v) in changes <==> Authorised(s, window.value, types, AddService(v)) {
      }
      forall t ensures ChangeTerminal(t) in changes <==> Authorised(s, window.value, types, ChangeTerminal(t)) {
      }
    }
  }

  // ---------------------------------------------------------------- what a search can find

  lemma SameTableSamePlan(a: seq<Assignment>, b: seq<Assignment>)
    requires DistinctKeys(a, CandidateOrder) && DistinctKeys(b, CandidateOrder)
    ensures ByOrder(a) == ByOrder(b) <==> PlanOf(a) == PlanOf(b)
  {
    if PlanOf(a) == PlanOf(b) {
      forall t ensures t in a <==> t in b {
        assert t in PlanOf(a) <==> t in PlanOf(b);
      }
      TablesAgree(a, b, CandidateOrder);
    }
    if ByOrder(a) == ByOrder(b) {
      forall t ensures t in a <==> t in b {
        assert t in a ==> ByOrder(a)[CandidateOrder(t)] == t;
        assert t in b ==> ByOrder(b)[CandidateOrder(t)] == t;
      }
    }
  }

  /** A baseline run and a derived solve on the same snapshot, both proved optimal. */
  ghost predicate BothOptimal(s: Snapshot, run: Run, scenarioId: Id, orderId: Id, changes: seq<Change>, r: SolveResult)
    requires Derivable(s, scenarioId, orderId, changes)
  {
    && Backed(s, BaselineScope(s), run) && run.isOptimal && run.status == SolverOptimal
    && DerivedSound(s, scenarioId, orderId, changes, r) && r.isOptimal && r.status == SolverOptimal
  }

  /** When the engine finishes, a search on an optimal baseline run compares two optimal plans. */
  lemma FinishedSearchIsOptimal(s: Snapshot, run: Run, orderId: Id, changes: seq<Change>, scenarioId: Id, runId: Id,
                                world: World, out: SearchResult, r: SolveResult)
    requires Tried(s, run, orderId, changes, scenarioId, runId, world, out, r) && Finishes(world)
    requires Backed(s, BaselineScope(s), run) && run.isOptimal && run.status == SolverOptimal
    ensures BothOptimal(s, run, scenarioId, orderId, changes, r)
    ensures NewDestination(changes).None? ==> (out.Found? <==> LandsOutside(s, orderId, r))
    ensures orderId !in OrdersOf(run.assignments) && GainsOutsideOnly(s, scenarioId, orderId, changes) ==>
              && (out.Found? <==> GainsSomething(s, scenarioId, orderId, changes))
              && (out.Found? ==> JustAdded(out, orderId))
  {
    if NewDestination(changes).None? {
      FoundIffOutside(s, run, scenarioId, orderId, changes, r, out);
    }
    if orderId !in OrdersOf(run.assignments) && GainsOutsideOnly(s, scenarioId, orderId, changes) {
      OnlyTheRequesterMoves(s, run, scenarioId, orderId, changes, r, out);
    }
  }

  lemma OptimalPlans(s: Snapshot, run: Run, scenarioId: Id, orderId: Id, changes: seq<Change>, r: SolveResult)
    requires Derivable(s, scenarioId, orderId, changes) && BothOptimal(s, run, scenarioId, orderId, changes, r)
    ensures Best(BookOf(s), BaseChoices(s), PlanOf(run.assignments))
    ensures Best(BookOf(s), DerivedChoices(s, scenarioId, orderId, changes), PlanOf(r.assignments))
    ensures DistinctKeys(run.assignments, CandidateOrder) && DistinctKeys(r.assignments, CandidateOrder)
    ensures ByOrder(run.assignments) == ByOrder(r.assignments) <==> PlanOf(run.assignments) == PlanOf(r.assignments)
  {
    ReportedOrders(run.assignments);
    ReportedOrders(r.assignments);
    SameTableSamePlan(run.assignments, r.assignments);
  }

  lemma HoldsIsPlaced(assignments: seq<Assignment>, order: Id)
    ensures Plans.Holds(PlanOf(assignments), order) <==> order in OrdersOf(assignments)
  {
    if order in OrdersOf(assignments) {
      var a :| a in assignments && a.order == order;
      assert a in PlanOf(assignments);
    }
  }

  /** The derived plan uses the target on a service outside the baseline. */
  ghost predicate LandsOutside(s: Snapshot, orderId: Id, r: SolveResult) {
    exists a :: a in r.assignments && a.order == orderId && a.service !in s.baselineServices
  }

  lemma InsideUsesBaseOnly(s: Snapshot, scenarioId: Id, orderId: Id, changes: seq<Change>, q: Plan)
    requires Derivable(s, scenarioId, orderId, changes) && NewDestination(changes).None?
    requires q <= DerivedChoices(s, scenarioId, orderId, changes)
    ensures q <= BaseChoices(s) <==> forall c :: c in q && c.order == orderId ==> c.service in s.baselineServices
  {
    ServicesOnlyWiden(s, scenarioId, orderId, changes);
  }

  /** Adding services only, both runs optimal: an alternative is found exactly when the target
      lands outside the baseline. If it lands inside, nothing moved at all. */
  lemma FoundIffOutside(s: Snapshot, run: Run, scenarioId: Id, orderId: Id, changes: seq<Change>, r: SolveResult,
                        out: SearchResult)
    requires Derivable(s, scenarioId, orderId, changes) && BothOptimal(s, run, scenarioId, orderId, changes, r)
    requires NewDestination(changes).None?
    requires Concludes(run, orderId, changes, r, out)
    ensures out.Found? <==> LandsOutside(s, orderId, r)
    ensures orderId in OrdersOf(r.assignments) && !LandsOutside(s, orderId, r) ==>
              && PlanOf(r.assignments) == PlanOf(run.assignments)
              && out == NotFound(changes, Because(AlternativeNotRequired))
  {
    var p, q := PlanOf(run.assignments), PlanOf(r.assignments);
    OptimalPlans(s, run, scenarioId, orderId, changes, r);
    InsideUsesBaseOnly(s, scenarioId, orderId, changes, q);
    ServicesOnlyWiden(s, scenarioId, orderId, changes);
    if LandsOutside(s, orderId, r) {
      var a :| a in r.assignments && a.order == orderId && a.service !in s.baselineServices;
      assert a in q && a !in BaseChoices(s);
      assert orderId in OrdersOf(r.assignments);
    } else {
      assert forall c :: c in q && c.order == orderId ==> c in r.assignments;
      UnusedWideningKeepsPlan(BookOf(s), BaseChoices(s), DerivedChoices(s, scenarioId, orderId, changes), p, q);
    }
  }

  /** One thing is reported, and it is that this order was added. */
  ghost predicate JustAdded(out: SearchResult, orderId: Id)
    requires out.Found?
  {
    && out.impacted == [orderId]
    && |out.deltas| == 1 && out.deltas[0].order == orderId && out.deltas[0].changeType == Added
  }

  /** A candidate the target gains, in the first slot of those. */
  ghost predicate FirstGained(s: Snapshot, scenarioId: Id, orderId: Id, changes: seq<Change>, a: Assignment)
    requires Derivable(s, scenarioId, orderId, changes)
  {
    FirstFor(orderId, DerivedChoices(s, scenarioId, orderId, changes) - BaseChoices(s), a)
  }

  ghost predicate GainsSomething(s: Snapshot, scenarioId: Id, orderId: Id, changes: seq<Change>)
    requires Derivable(s, scenarioId, orderId, changes)
  {
    exists c :: c in DerivedChoices(s, scenarioId, orderId, changes) && c !in BaseChoices(s)
  }

  /** Impact isolation: when the baseline plan left the target out, for whatever reason, and what
      it gains is outside the baseline, the derived plan is the baseline plan, with the target in
      the first slot it gained if it gained any. Nobody else moves. */
  lemma OnlyTheRequesterMoves(s: Snapshot, run: Run, scenarioId: Id, orderId: Id, changes: seq<Change>, r: SolveResult,
                              out: SearchResult)
    requires Derivable(s, scenarioId, orderId, changes) && BothOptimal(s, run, scenarioId, orderId, changes, r)
    requires orderId !in OrdersOf(run.assignments) && GainsOutsideOnly(s, scenarioId, orderId, changes)
    requires Concludes(run, orderId, changes, r, out)
    ensures Without(PlanOf(r.assignments), orderId) == PlanOf(run.assignments)
    ensures forall a :: a in r.assignments && a.order == orderId ==> FirstGained(s, scenarioId, orderId, changes, a)
    ensures out.Found? <==> GainsSomething(s, scenarioId, orderId, changes)
    ensures out.Found? ==> JustAdded(out, orderId)
  {
    var derived := DerivedChoices(s, scenarioId, orderId, changes);
    var p, q := PlanOf(run.assignments), PlanOf(r.assignments);
    OptimalPlans(s, run, scenarioId, orderId, changes, r);
    OutsideGainsArePrivate(s, scenarioId, orderId, changes);
    HoldsIsPlaced(run.assignments, orderId);
    HoldsIsPlaced(r.assignments, orderId);
    ImpactIsolation(BookOf(s), BaseChoices(s), derived, orderId, p, q);
    forall a | a in r.assignments && a.order == orderId ensures FirstGained(s, scenarioId, orderId, changes, a) {
      assert a in q;
    }
    NotHeldBefore(p, q, orderId);
    if out.Found? {
      OthersUnchanged(run.assignments, r.assignments, orderId);
      SingleDelta(run.assignments, r.assignments, orderId, out.deltas);
    }
  }

  /** Added services only: every order the baseline plan left out is helped in isolation. */
  lemma AddedServicesMoveNobodyElse(s: Snapshot, run: Run, scenarioId: Id, orderId: Id, changes: seq<Change>,
                                    r: SolveResult, out: SearchResult)
    requires Derivable(s, scenarioId, orderId, changes) && BothOptimal(s, run, scenarioId, orderId, changes, r)
    requires orderId !in OrdersOf(run.assignments) && NewDestination(changes).None?
    requires Concludes(run, orderId, changes, r, out)
    ensures Without(PlanOf(r.assignments), orderId) == PlanOf(run.assignments)
    ensures out.Found? <==> GainsSomething(s, scenarioId, orderId, changes)
    ensures out.Found? ==> JustAdded(out, orderId)
    ensures forall a :: a in r.assignments && a.order == orderId ==> a.service !in s.baselineServices
  {
    ServicesGainOutside(s, scenarioId, orderId, changes);
    OnlyTheRequesterMoves(s, run, scenarioId, orderId, changes, r, out);
    forall a | a in r.assignments && a.order == orderId ensures a.service !in s.baselineServices {
      assert FirstGained(s, scenarioId, orderId, changes, a);
    }
  }

  lemma NotHeldBefore(p: Plan, q: Plan, orderId: Id)
    requires Without(q, orderId) == p && OneSlotPerOrder(q)
    ensures p != q <==> Plans.Holds(q, orderId)
  {
    assert forall c :: c in p ==> c.order != orderId;
    if Plans.Holds(q, orderId) {
      var c :| c in q && c.order == orderId;
      assert c !in p;
    } else {
      WithoutDropsAtMostOne(q, orderId);
    }
  }

  lemma OthersUnchanged(before: seq<Assignment>, after: seq<Assignment>, orderId: Id)
    requires DistinctKeys(before, CandidateOrder) && DistinctKeys(after, CandidateOrder)
    requires Without(PlanOf(after), orderId) == PlanOf(before)
    ensures orderId !in ByOrder(before)
    ensures forall o :: o != orderId ==> Get(ByOrder(before), o) == Get(ByOrder(after), o)
  {
    forall a | a in before ensures a.order != orderId {
      assert a in PlanOf(before);
      assert a in Without(PlanOf(after), orderId);
    }
    forall o | o != orderId ensures Get(ByOrder(before), o) == Get(ByOrder(after), o) {
      if o in ByOrder(after) {
        var a := ByOrder(after)[o];
        assert a in PlanOf(after) && CandidateOrder(a) == o;
        assert a in PlanOf(before);
        assert ByOrder(before)[CandidateOrder(a)] == a;
      }
      if o in ByOrder(before) {
        var a := ByOrder(before)[o];
        assert a in PlanOf(before) && CandidateOrder(a) == o;
        assert a in PlanOf(after);
        assert ByOrder(after)[CandidateOrder(a)] == a;
      }
    }
  }

  lemma SingleDelta(before: seq<Assignment>, after: seq<Assignment>, orderId: Id, deltas: seq<Delta>)
    requires IsDiff(ByOrder(before), ByOrder(after), deltas)
    requires orderId !in ByOrder(before) && orderId in OrdersOf(after)
    requires forall o :: o != orderId ==> Get(ByOrder(before), o) == Get(ByOrder(after), o)
    ensures |deltas| == 1 && deltas[0].order == orderId && deltas[0].changeType == Added
  {
    PlacedInTable(after, orderId);
    var d := DeltaFor(ByOrder(before), ByOrder(after), orderId).value;
    assert d in deltas;
    forall i | 0 <= i < |deltas| ensures deltas[i] == d {
      assert deltas[i] in deltas;
      assert deltas[i].order == orderId;
    }
    assert |deltas| > 1 ==> Less(DeltaOrder(deltas[0]), DeltaOrder(deltas[1]));
  }

  /** A slot on a service opened to the target alone guarantees it a place. */
  lemma DedicatedServiceIsUsed(s: Snapshot, scenarioId: Id, orderId: Id, changes: seq<Change>, r: SolveResult,
                               c: Candidate)
    requires Derivable(s, scenarioId, orderId, changes)
    requires MostOrders(BookOf(s), DerivedChoices(s, scenarioId, orderId, changes), PlanOf(r.assignments))
    requires c.order == orderId && Offers(Derived(s, scenarioId, orderId, changes), c)
    requires AddService(c.service) in changes && c.service !in s.baselineServices
    ensures orderId in OrdersOf(r.assignments)
  {
    var choices := DerivedChoices(s, scenarioId, orderId, changes);
    ChoicesAre(s, scenarioId, orderId, changes, c);
    OutsideIsPrivate(s, scenarioId, orderId, changes, c);
    PrivateCandidateIsPlaced(BookOf(s), choices, PlanOf(r.assignments), c);
    HoldsIsPlaced(r.assignments, orderId);
  }

  /** Any approved change moves the number of placed orders by at most one. */
  lemma PlacedCountsStayClose(s: Snapshot, run: Run, scenarioId: Id, orderId: Id, changes: seq<Change>, r: SolveResult)
    requires Derivable(s, scenarioId, orderId, changes)
    requires MostOrders(BookOf(s), BaseChoices(s), PlanOf(run.assignments))
    requires MostOrders(BookOf(s), DerivedChoices(s, scenarioId, orderId, changes), PlanOf(r.assignments))
    ensures |PlanOf(run.assignments)| - 1 <= |PlanOf(r.assignments)| <= |PlanOf(run.assignments)| + 1
  {
    OnlyTargetDiffers(s, scenarioId, orderId, changes);
    CountsDifferByAtMostOne(BookOf(s), BaseChoices(s), DerivedChoices(s, scenarioId, orderId, changes), orderId,
                            PlanOf(run.assignments), PlanOf(r.assignments));
  }

  // ---------------------------------------------------------------- recording on the baseline

  /** Only the alternative fields of an outcome move, and the link moves with the state. */
  function Noted(o: OrderOutcome, state: AlternativeState, scenario: Option<Id>): OrderOutcome {
    o.(alternativeState := state, badged := state == Available,
       alternativeScenario := if state == Available then scenario else None)
  }

  /** The first outcome of the order, noted. */
  function Applied(outcomes: seq<OrderOutcome>, orderId: Id, state: AlternativeState, scenario: Option<Id>)
    : seq<OrderOutcome>
  {
    match FirstOutcome(outcomes, orderId, 0)
    case Some(i) => outcomes[i := Noted(outcomes[i], state, scenario)]
    case None => outcomes
  }

  lemma FirstIs(outcomes: seq<OrderOutcome>, order: Id, n: nat)
    requires n < |outcomes| && outcomes[n].order == order && forall j :: 0 <= j < n ==> outcomes[j].order != order
    ensures FirstOutcome(outcomes, order, 0) == Some(n)
  {
    var found := FirstOutcome(outcomes, order, 0);
    assert found.Some? ==> outcomes[found.value].order == order;
  }

  method ApplyToBaseline(run: Run, orderId: Id, state: AlternativeState, scenario: Option<Id>)
    returns (updated: Run, outcome: Option<OrderOutcome>)
    ensures updated == run.(outcomes := Applied(run.outcomes, orderId, state, scenario))
    ensures outcome.Some? ==> outcome.value.order == orderId && outcome.value in updated.outcomes
    ensures outcome.None? <==> forall o :: o in run.outcomes ==> o.order != orderId
    ensures outcome.Some? ==> FirstOutcome(updated.outcomes, orderId, 0).Some?
                              && outcome.value == updated.outcomes[FirstOutcome(updated.outcomes, orderId, 0).value]
  {
    for n := 0 to |run.outcomes|
      invariant forall j :: 0 <= j < n ==> run.outcomes[j].order != orderId
    {
      if run.outcomes[n].order == orderId {
        var changed := Noted(run.outcomes[n], state, scenario);
        FirstIs(run.outcomes, orderId, n);
        FirstIs(run.outcomes[n := changed], orderId, n);
        return run.(outcomes := run.outcomes[n := changed]), Some(changed);
      }
    }
    return run, None;
  }

  /** An outcome as it was before any search. */
  function Unsought(o: OrderOutcome): OrderOutcome {
    Noted(o, NotSearched, None)
  }

  /** Recording a verdict moves nothing but the alternative fields of that order. */
  lemma OnlyAlternativeFieldsMove(outcomes: seq<OrderOutcome>, orderId: Id, state: AlternativeState,
                                  scenario: Option<Id>)
    ensures var after := Applied(outcomes, orderId, state, scenario);
            && |after| == |outcomes|
            && (forall i :: 0 <= i < |outcomes| ==> Unsought(after[i]) == Unsought(outcomes[i]))
            && (forall i :: 0 <= i < |outcomes| && outcomes[i].order != orderId ==> after[i] == outcomes[i])
  {
  }

  /** The first outcome of the order gets the state, the badge exactly when that is AVAILABLE, and
      the link exactly then; everything else in it and every other outcome stays. */
  lemma VerdictReads(outcomes: seq<OrderOutcome>, orderId: Id, state: AlternativeState, scenario: Option<Id>, i: nat)
    requires i < |outcomes|
    ensures |Applied(outcomes, orderId, state, scenario)| == |outcomes|
    ensures var x, y := outcomes[i], Applied(outcomes, orderId, state, scenario)[i];
            if x.order == orderId && forall j :: 0 <= j < i ==> outcomes[j].order != orderId then
              y == OrderOutcome(x.order, x.inputState, x.eligibilityState, x.assignmentState, state, x.primary,
                                state == Available, if state == Available then scenario else None)
            else y == x
  {
    if outcomes[i].order == orderId && forall j :: 0 <= j < i ==> outcomes[j].order != orderId {
      FirstIs(outcomes, orderId, i);
    }
  }
}
