/** One baseline run: gate, solve, independent check and record. */
module Planning {
  import opened Ordering
  import opened Snapshots
  import opened Eligibility
  import opened Plans
  import opened CpSat
  import opened AssignmentModel
  import opened BaselineSolve
  import opened Listing
  import opened PlanValidator
  import opened Agreement
  import opened Hashing

  /** A packaged run. `resultForm` is what the result digest is taken over. */
  datatype Run = Run(
    id: Id,
    scenario: Id,
    parent: Option<Id>,
    status: SolverStatus,
    isOptimal: bool,
    validatorPass: bool,
    assignments: seq<Assignment>,
    outcomes: seq<OrderOutcome>,
    values: map<Figure, int>,
    maxSeconds: nat,
    resultForm: NormalForm)

  lemma WiderIsFeasible(b: Book, narrow: set<Candidate>, wide: set<Candidate>, p: Plan)
    requires narrow <= wide && Feasible(b, narrow, p)
    ensures Feasible(b, wide, p)
  {
  }

  lemma ReportedOrders(assignments: seq<Assignment>)
    ensures OrdersOf(assignments) == OrdersIn(PlanOf(assignments))
    ensures StrictlyIncreasing(assignments, CandidateOrder) ==> DistinctKeys(assignments, CandidateOrder)
  {
  }

  lemma EmptyReportIsLegal(t: Tables)
    ensures Legal(t, [], [])
  {
    LegalParts(t, [], []);
  }

  /** Whatever an honest engine leads the solver to report passes validation. */
  lemma SoundResultIsLegal(s: Snapshot, scope: Scope, allowed: seq<Id>, r: SolveResult)
    requires WellFormed(s) && WagonsKnown(s) && Permits(s, scope, allowed)
    requires Sound(BookOf(s), EvaluationsOf(s, scope), r)
    requires r.status == SolverError ==> ReportsNothing(r)
    ensures Legal(TablesOf(s, allowed), r.assignments, r.outcomes)
  {
    if r.status == SolverError {
      EmptyReportIsLegal(TablesOf(s, allowed));
    } else {
      ReportedOrders(r.assignments);
      WiderIsFeasible(BookOf(s), Choosable(CandidatesOf(s, scope)), Listed(CandidatesOf(s, scope)),
                      PlanOf(r.assignments));
      FeasiblePlanIsLegal(s, scope, allowed, r.assignments);
    }
  }

  lemma BaselinePermitted(s: Snapshot)
    ensures Permits(s, BaselineScope(s), [])
  {
  }

  function ResultOf(run: Run): SolveResult {
    SolveResult(run.status, run.isOptimal, run.assignments, run.outcomes, run.values)
  }

  /** What a run over a scope claims: its status, plan and outcomes, as `Sound` states them. */
  ghost predicate Backed(s: Snapshot, scope: Scope, run: Run)
    requires WagonsKnown(s)
  {
    Sound(BookOf(s), EvaluationsOf(s, scope), ResultOf(run))
  }

  /** Every order of the snapshot has its one outcome. */
  ghost predicate Covers(s: Snapshot, outcomes: seq<OrderOutcome>) {
    && (forall order :: order in OrderTable(s) ==> exists x :: x in outcomes && x.order == order)
    && DistinctKeys(outcomes, OutcomeOrder)
  }

  lemma OutcomesDistinct(evaluations: seq<OrderEvaluation>, placed: set<Id>)
    requires DistinctKeys(evaluations, EvaluationOrder)
    ensures DistinctKeys(Outcomes(evaluations, placed), OutcomeOrder)
  {
    var sorted, outcomes := Sort(evaluations, EvaluationLeq), Outcomes(evaluations, placed);
    KeysStayDistinct(evaluations, sorted, EvaluationOrder);
    forall i, j | 0 <= i < j < |outcomes| ensures OutcomeOrder(outcomes[i]) != OutcomeOrder(outcomes[j]) {
      assert EvaluationOrder(sorted[i]) != EvaluationOrder(sorted[j]);
    }
  }

  lemma OutcomesCover(s: Snapshot, scope: Scope, placed: set<Id>)
    requires WellFormed(s) && WagonsKnown(s)
    ensures Covers(s, Outcomes(EvaluationsOf(s, scope), placed))
  {
    EvaluationKeys(IndexOf(s), s.orders, scope);
    OutcomesDistinct(EvaluationsOf(s, scope), placed);
    forall order | order in OrderTable(s)
      ensures exists x :: x in Outcomes(EvaluationsOf(s, scope), placed) && x.order == order
    {
      var i := OrderEvaluated(s, scope, order);
      OutcomeInList(EvaluationsOf(s, scope), placed, i);
    }
  }

  lemma SolvedCovers(s: Snapshot, scope: Scope, r: SolveResult)
    requires WellFormed(s) && WagonsKnown(s) && Traceable(r, EvaluationsOf(s, scope)) && r.status != SolverError
    ensures Covers(s, r.outcomes)
  {
    OutcomesCover(s, scope, OrdersIn(PlanOf(r.assignments)));
  }

  lemma ListedOrdersKnown(s: Snapshot, scope: Scope)
    requires WellFormed(s) && WagonsKnown(s)
    ensures forall c :: c in CandidatesOf(s, scope) ==> c.order in OrderTable(s)
  {
    forall c | c in CandidatesOf(s, scope) ensures c.order in OrderTable(s) {
      CandidatesMembers(s, scope, c);
    }
  }

  /** What validating a scenario records, in text order of the orders. */
  datatype Validation = Validation(scenario: Id, orders: seq<OrderEvaluation>)

  function BuildValidationResult(scenario: Id, evaluations: seq<OrderEvaluation>): Validation {
    Validation(scenario, Sort(evaluations, EvaluationLeq))
  }

  /** Solves an evaluated scope and re-checks the plan independently. */
  method SolveAndCheck(s: Snapshot, ghost scope: Scope, evaluations: seq<OrderEvaluation>, allowed: seq<Id>,
                       world: World)
    returns (r: SolveResult, pass: bool)
    requires WellFormed(s) && WagonsKnown(s) && evaluations == EvaluationsOf(s, scope) && Permits(s, scope, allowed)
    ensures r.isOptimal <==> r.status == SolverOptimal
    ensures r.status == SolverError ==> ReportsNothing(r)
    ensures forall x :: x in r.outcomes ==> Unsearched(x)
    ensures forall a :: a in r.assignments ==> a in CandidatesOf(s, scope)
    ensures Traceable(r, EvaluationsOf(s, scope))
    ensures forall a :: a in r.assignments ==> a.order in OrderTable(s)
    ensures r.status != SolverError ==> Covers(s, r.outcomes)
    ensures pass <==> Legal(TablesOf(s, allowed), r.assignments, r.outcomes)
    ensures Honest(world.engine) ==> Sound(BookOf(s), EvaluationsOf(s, scope), r) && pass
    ensures Follows(BookOf(s), CandidatesOf(s, scope), world, r)
  {
    CandidatesResolve(s, scope);
    ghost var log;
    r, log := SolveBaseline(s, evaluations, world);
    ListedOrdersKnown(s, scope);
    if r.status != SolverError {
      SolvedCovers(s, scope, r);
    }
    var validation := ValidatePlan(s, r.assignments, r.outcomes, allowed);
    pass := validation.pass;
    if Honest(world.engine) {
      SoundResultIsLegal(s, scope, allowed, r);
    }
  }

  /** Runs the baseline. */
  method RunBaseline(runId: Id, scenarioId: Id, s: Snapshot, world: World) returns (run: Run)
    requires WellFormed(s) && WagonsKnown(s)
    ensures run.id == runId && run.scenario == scenarioId && run.parent.None? && run.maxSeconds == world.maxSeconds
    ensures run.isOptimal <==> run.status == SolverOptimal
    ensures run.resultForm == NormaliseResult(run.assignments, run.outcomes)
    ensures run.validatorPass <==> Legal(TablesOf(s, []), run.assignments, run.outcomes)
    ensures run.status == SolverError ==> run.assignments == [] && run.outcomes == []
    ensures run.status != SolverError ==> Covers(s, run.outcomes)
    ensures Traceable(ResultOf(run), EvaluationsOf(s, BaselineScope(s)))
    ensures forall x :: x in run.outcomes ==> Unsearched(x)
    ensures Honest(world.engine) ==> Backed(s, BaselineScope(s), run) && run.validatorPass
    ensures Follows(BookOf(s), CandidatesOf(s, BaselineScope(s)), world, ResultOf(run))
  {
    BaselinePermitted(s);
    var evaluations := EvaluateScenario(s, [], map[]);
    var r, pass;
    r, pass := SolveAndCheck(s, BaselineScope(s), evaluations, [], world);
    run := Run(runId, scenarioId, None, r.status, r.isOptimal, pass, r.assignments, r.outcomes, r.values,
               world.maxSeconds, NormaliseResult(r.assignments, r.outcomes));
  }
}
