/** The baseline solve: builds the model from the gate's candidates, runs the stages and
    decodes the plan into assignments and per-order outcomes. */
module BaselineSolve {
  import opened Ordering
  import opened ReasonCodes
  import opened Snapshots
  import opened Eligibility
  import opened Plans
  import opened CpSat
  import opened Stages
  import opened AssignmentModel
  import opened Separability
  import opened Objectives

  /** An assignment record carries the same four identifiers as the candidate it realises. */
  type Assignment = Candidate

  datatype AssignmentState = Assigned | Unassigned | NotApplicable
  datatype AlternativeState = Available | NoAlternative | NotSearched

  /** The shown code: ASSIGNED marks a clean placement and is no violation. */
  datatype Shown = Placed | Because(code: Code)

  datatype OrderOutcome = OrderOutcome(
    order: Id,
    inputState: InputState,
    eligibilityState: EligibilityState,
    assignmentState: AssignmentState,
    alternativeState: AlternativeState,
    primary: Shown,
    badged: bool,
    alternativeScenario: Option<Id>)

  datatype SolverStatus = SolverOptimal | SolverFeasible | SolverInfeasible | SolverError

  datatype SolveResult = SolveResult(
    status: SolverStatus,
    isOptimal: bool,
    assignments: seq<Assignment>,
    outcomes: seq<OrderOutcome>,
    values: map<Figure, int>)

  /** Everything outside the program: the solver's answers, the clock and the budget asked for. */
  datatype World = World(engine: Engine, clock: nat -> real, maxSeconds: nat)

  // ---------------------------------------------------------------- outcomes

  function OutcomeOrder(o: OrderOutcome): Id { o.order }

  function ShownFor(e: OrderEvaluation, fallback: Code): Shown {
    Because(match SelectPrimary(e.reasonCodes) case Some(c) => c case None => fallback)
  }

  /** No alternative has been looked for yet. */
  predicate Unsearched(o: OrderOutcome) {
    o.alternativeState == NotSearched && !o.badged && o.alternativeScenario.None?
  }

  function OutcomeOf(e: OrderEvaluation, placed: set<Id>): (x: OrderOutcome)
    ensures x.order == e.order && Unsearched(x)
  {
    var outcome := (state: AssignmentState, shown: Shown) =>
      OrderOutcome(e.order, e.inputState, e.eligibilityState, state, NotSearched, shown, false, None);
    if e.inputState == ReviewRequired then outcome(NotApplicable, ShownFor(e, MissingRequiredField))
    else if e.eligibilityState == Ineligible then outcome(NotApplicable, ShownFor(e, NoEligibleSlot))
    else if e.order in placed then outcome(Assigned, Placed)
    else outcome(Unassigned, Because(CapacityConflict))
  }

  predicate EvaluationLeq(a: OrderEvaluation, b: OrderEvaluation) { Leq(a.order, b.order) }

  function OutcomesOf(evaluations: seq<OrderEvaluation>, placed: set<Id>): (r: seq<OrderOutcome>)
    ensures |r| == |evaluations|
    ensures forall i :: 0 <= i < |r| ==> r[i] == OutcomeOf(evaluations[i], placed)
  {
    seq(|evaluations|, i requires 0 <= i < |evaluations| => OutcomeOf(evaluations[i], placed))
  }

  /** One outcome per evaluation, in text order of the order identifiers. */
  function Outcomes(evaluations: seq<OrderEvaluation>, placed: set<Id>): seq<OrderOutcome> {
    OutcomesOf(Sort(evaluations, EvaluationLeq), placed)
  }

  method BuildOutcome(e: OrderEvaluation, placed: map<Id, Candidate>) returns (outcome: OrderOutcome)
    ensures outcome == OutcomeOf(e, placed.Keys)
  {
    if e.inputState == ReviewRequired {
      return OrderOutcome(e.order, e.inputState, e.eligibilityState, NotApplicable, NotSearched,
                          ShownFor(e, MissingRequiredField), false, None);
    }
    if e.eligibilityState == Ineligible {
      return OrderOutcome(e.order, e.inputState, e.eligibilityState, NotApplicable, NotSearched,
                          ShownFor(e, NoEligibleSlot), false, None);
    }
    if e.order in placed {
      return OrderOutcome(e.order, e.inputState, e.eligibilityState, Assigned, NotSearched, Placed, false, None);
    }
    outcome := OrderOutcome(e.order, e.inputState, e.eligibilityState, Unassigned, NotSearched,
                            Because(CapacityConflict), false, None);
  }

  method BuildOutcomes(evaluations: seq<OrderEvaluation>, placed: map<Id, Candidate>)
    returns (outcomes: seq<OrderOutcome>)
    ensures outcomes == Outcomes(evaluations, placed.Keys)
    ensures forall x :: x in outcomes ==> Unsearched(x)
  {
    var sorted := Sort(evaluations, EvaluationLeq);
    outcomes := [];
    for n := 0 to |sorted|
      invariant |outcomes| == n
      invariant forall i :: 0 <= i < n ==> outcomes[i] == OutcomeOf(sorted[i], placed.Keys)
    {
      var outcome := BuildOutcome(sorted[n], placed);
      outcomes := outcomes + [outcome];
    }
  }

  // ---------------------------------------------------------------- decoding

  function AllCandidates(evaluations: seq<OrderEvaluation>): seq<Candidate> {
    if evaluations == [] then []
    else AllCandidates(evaluations[..|evaluations| - 1]) + evaluations[|evaluations| - 1].candidates
  }

  predicate CandidateLeq(a: Candidate, b: Candidate) { Leq(a.order, b.order) }

  ghost function OrdersIn(p: Plan): set<Id> {
    set c | c in p :: c.order
  }

  ghost function PlanOf(assignments: seq<Assignment>): Plan {
    set a | a in assignments
  }

  /** The chosen candidate of each order; a later one in the list would replace an earlier. */
  method Decode(cs: seq<Candidate>, point: Point) returns (byOrder: map<Id, Candidate>)
    ensures forall o :: o in byOrder ==> byOrder[o] in point && byOrder[o] in cs && byOrder[o].order == o
    ensures forall c :: c in cs && c in point ==> c.order in byOrder
  {
    byOrder := map[];
    for n := 0 to |cs|
      invariant forall o :: o in byOrder ==> byOrder[o] in point && byOrder[o] in cs && byOrder[o].order == o
      invariant forall i :: 0 <= i < n && cs[i] in point ==> cs[i].order in byOrder
    {
      if cs[n] in point {
        byOrder := byOrder[cs[n].order := cs[n]];
      }
    }
  }

  function ValuesAt(keys: seq<Id>, m: map<Id, Candidate>): (r: seq<Candidate>)
    requires forall k :: k in keys ==> k in m
    ensures |r| == |keys|
    ensures forall i :: 0 <= i < |r| ==> r[i] == m[keys[i]]
  {
    seq(|keys|, i requires 0 <= i < |keys| && keys[i] in m => m[keys[i]])
  }

  /** A dictionary's keys, each once. */
  method EnumerateKeys(m: map<Id, Candidate>) returns (keys: seq<Id>)
    ensures forall k :: k in keys <==> k in m
    ensures DistinctKeys(keys, Self)
  {
    keys := [];
    var rest := m.Keys;
    while rest != {}
      invariant rest <= m.Keys
      invariant forall k :: k in keys <==> k in m && k !in rest
      invariant DistinctKeys(keys, Self)
      decreases rest
    {
      var k :| k in rest;
      keys := keys + [k];
      rest := rest - {k};
    }
  }

  lemma ValuesOfKeys(keys: seq<Id>, m: map<Id, Candidate>)
    requires forall k :: k in keys <==> k in m
    requires DistinctKeys(keys, Self)
    requires forall o :: o in m ==> m[o].order == o
    ensures DistinctKeys(ValuesAt(keys, m), CandidateOrder)
    ensures forall a :: a in ValuesAt(keys, m) <==> a.order in m && m[a.order] == a
  {
    var values := ValuesAt(keys, m);
    forall i, j | 0 <= i < j < |values| ensures CandidateOrder(values[i]) != CandidateOrder(values[j]) {
      assert Self(keys[i]) != Self(keys[j]);
      assert keys[i] in keys && keys[j] in keys;
    }
    forall a: Candidate | a.order in m && m[a.order] == a ensures a in values {
      assert a.order in keys;
      var i :| 0 <= i < |keys| && keys[i] == a.order;
      assert values[i] == a;
    }
    forall a | a in values ensures a.order in m && m[a.order] == a {
      var i :| 0 <= i < |values| && values[i] == a;
      assert keys[i] in keys;
    }
  }

  /** The dictionary's values, sorted by order. */
  method SortedAssignments(byOrder: map<Id, Candidate>) returns (assignments: seq<Assignment>)
    requires forall o :: o in byOrder ==> byOrder[o].order == o
    ensures StrictlyIncreasing(assignments, CandidateOrder)
    ensures forall a :: a in assignments <==> a.order in byOrder && byOrder[a.order] == a
  {
    var keys := EnumerateKeys(byOrder);
    ValuesOfKeys(keys, byOrder);
    assignments := Sort(ValuesAt(keys, byOrder), CandidateLeq);
    SortByDistinctKey(ValuesAt(keys, byOrder), CandidateOrder, CandidateLeq);
  }

  lemma AssignedOrders(byOrder: map<Id, Candidate>, assignments: seq<Assignment>)
    requires forall o :: o in byOrder ==> byOrder[o].order == o
    requires forall a :: a in assignments <==> a.order in byOrder && byOrder[a.order] == a
    ensures OrdersIn(PlanOf(assignments)) == byOrder.Keys
  {
    forall o | o in byOrder ensures o in OrdersIn(PlanOf(assignments)) {
      assert byOrder[o] in PlanOf(assignments);
    }
  }

  lemma NobodyIn()
    ensures OrdersIn(PlanOf([])) == {}
  {
  }

  lemma DecodedPlan(cs: seq<Candidate>, point: Point, byOrder: map<Id, Candidate>, assignments: seq<Assignment>)
    requires point <= Listed(cs) && OneSlotPerOrder(point)
    requires forall o :: o in byOrder ==> byOrder[o] in point && byOrder[o] in cs && byOrder[o].order == o
    requires forall c :: c in cs && c in point ==> c.order in byOrder
    requires forall a :: a in assignments <==> a.order in byOrder && byOrder[a.order] == a
    ensures PlanOf(assignments) == point
    ensures OrdersIn(point) == byOrder.Keys
  {
    forall c | c in point ensures c in assignments && c.order in byOrder {
      assert c in cs;
    }
  }

  // ---------------------------------------------------------------- the model

  lemma AtMostOnesGrow(b: Book, key: Candidate -> Id, cs: seq<Candidate>, keys: seq<Id>, n: nat)
    requires n < |keys|
    ensures AtMostOnes(b, key, cs, keys[..n + 1])
         == AtMostOnes(b, key, cs, keys[..n]) + [AtMostOne(b, key, cs, keys[n])]
  {
    assert keys[..n + 1][..n] == keys[..n];
  }

  lemma WagonLimitsGrow(b: Book, cs: seq<Candidate>, keys: seq<Id>, n: nat)
    requires n < |keys|
    ensures WagonLimits(b, cs, keys[..n + 1]) == WagonLimits(b, cs, keys[..n]) + [WagonLimit(b, cs, keys[n])]
  {
    assert keys[..n + 1][..n] == keys[..n];
  }

  method AddGroup(model: CpModel, b: Book, key: Candidate -> Id, ghost cs: seq<Candidate>, k: Id, group: seq<Candidate>)
    requires group == Filter(cs, key, k)
    modifies model`constraints
    ensures model.constraints == old(model.constraints) + [AtMostOne(b, key, cs, k)]
  {
    model.Add(AtMost(Total(b, Count, group), 1));
  }

  method AddWagon(model: CpModel, b: Book, ghost cs: seq<Candidate>, wagon: Id, group: seq<Candidate>)
    requires group == Filter(cs, CandidateWagon, wagon)
    modifies model`constraints
    ensures model.constraints == old(model.constraints) + [WagonLimit(b, cs, wagon)]
  {
    model.Add(AtMost(Total(b, Load(wagon), group), Capacity(b, wagon)));
  }

  method AddGroupsFor(model: CpModel, b: Book, key: Candidate -> Id, ghost cs: seq<Candidate>, keys: seq<Id>,
                      groups: map<Id, seq<Candidate>>)
    requires forall k :: k in keys ==> k in groups && groups[k] == Filter(cs, key, k)
    modifies model`constraints
    ensures model.constraints == old(model.constraints) + AtMostOnes(b, key, cs, keys)
  {
    ghost var added: seq<Constraint> := [];
    for n := 0 to |keys|
      invariant added == AtMostOnes(b, key, cs, keys[..n])
      invariant model.constraints == old(model.constraints) + added
    {
      AtMostOnesGrow(b, key, cs, keys, n);
      AddGroup(model, b, key, cs, keys[n], groups[keys[n]]);
      added := added + [AtMostOne(b, key, cs, keys[n])];
    }
    assert keys[..|keys|] == keys;
  }

  method AddGroups(model: CpModel, b: Book, cs: seq<Candidate>, key: Candidate -> Id)
    modifies model`constraints
    ensures model.constraints == old(model.constraints) + AtMostOnes(b, key, cs, KeysOf(cs, key))
  {
    var keys, groups := GroupBy(cs, key);
    AddGroupsFor(model, b, key, cs, keys, groups);
  }

  method AddWagonsFor(model: CpModel, b: Book, ghost cs: seq<Candidate>, keys: seq<Id>, groups: map<Id, seq<Candidate>>)
    requires forall k :: k in keys ==> k in groups && groups[k] == Filter(cs, CandidateWagon, k)
    modifies model`constraints
    ensures model.constraints == old(model.constraints) + WagonLimits(b, cs, keys)
  {
    ghost var added: seq<Constraint> := [];
    for n := 0 to |keys|
      invariant added == WagonLimits(b, cs, keys[..n])
      invariant model.constraints == old(model.constraints) + added
    {
      WagonLimitsGrow(b, cs, keys, n);
      AddWagon(model, b, cs, keys[n], groups[keys[n]]);
      added := added + [WagonLimit(b, cs, keys[n])];
    }
    assert keys[..|keys|] == keys;
  }

  method AddWagons(model: CpModel, b: Book, cs: seq<Candidate>)
    modifies model`constraints
    ensures model.constraints == old(model.constraints) + WagonLimits(b, cs, KeysOf(cs, CandidateWagon))
  {
    var keys, groups := GroupBy(cs, CandidateWagon);
    AddWagonsFor(model, b, cs, keys, groups);
  }

  method BuildModel(b: Book, cs: seq<Candidate>) returns (model: CpModel)
    ensures fresh(model)
    ensures model.variables == Listed(cs) && model.constraints == BaseConstraints(b, cs)
  {
    model := new CpModel(Listed(cs));
    AddGroups(model, b, cs, CandidateOrder);
    AddGroups(model, b, cs, CandidateSlot);
    AddWagons(model, b, cs);
    assert [] + AtMostOnes(b, CandidateOrder, cs, KeysOf(cs, CandidateOrder))
        == AtMostOnes(b, CandidateOrder, cs, KeysOf(cs, CandidateOrder));
  }

  // ---------------------------------------------------------------- the result

  const NO_CANDIDATE_VALUES: map<Figure, int> := map[AssignedCount := 0, PriorityScore := 0]

  /** The result carries exactly this plan: sorted assignments and matching outcomes. */
  ghost predicate Reports(r: SolveResult, evaluations: seq<OrderEvaluation>, p: Plan) {
    && StrictlyIncreasing(r.assignments, CandidateOrder)
    && PlanOf(r.assignments) == p
    && r.outcomes == Outcomes(evaluations, OrdersIn(p))
  }

  /** Every recorded figure is the plan's own, and the count is always recorded. */
  ghost predicate FiguresHold(values: map<Figure, int>, b: Book, p: Plan) {
    && (AssignedCount in values && values[AssignedCount] == |p|)
    && (PriorityScore in values ==> values[PriorityScore] == Sum(b, Score, p))
    && (DueCost in values ==> values[DueCost] == Sum(b, Due, p))
  }

  /** Count, priority and due time are all recorded, and nothing else. */
  ghost predicate AllRecorded(values: map<Figure, int>) {
    values.Keys == {AssignedCount, PriorityScore, DueCost}
  }

  /** Every candidate's order and wagon is in the snapshot, and order and slot name it. */
  ghost predicate Resolved(s: Snapshot, cs: seq<Candidate>) {
    && (forall c :: c in cs ==> c.order in ById(s.orders, OrderId) && c.wagon in ById(s.wagons, WagonId))
    && KeysDetermine(Listed(cs))
  }

  /** What an honest engine guarantees, whatever statuses it answered and whenever the budget
      ran out: a feasible plan reported with its own figures, or an ERROR that reports nothing;
      never a claim of infeasibility; and OPTIMAL only for the one best plan. */
  ghost predicate Sound(b: Book, evaluations: seq<OrderEvaluation>, r: SolveResult) {
    var cs, p := AllCandidates(evaluations), PlanOf(r.assignments);
    && r.status != SolverInfeasible
    && (r.status != SolverError ==>
          Feasible(b, Choosable(cs), p) && Reports(r, evaluations, p) && FiguresHold(r.values, b, p))
    && (r.isOptimal ==> Best(b, Choosable(cs), p))
    && (r.isOptimal ==> AllRecorded(r.values) || (cs == [] && r.values == NO_CANDIDATE_VALUES))
  }

  ghost predicate ReportsNothing(r: SolveResult) {
    !r.isOptimal && r.assignments == [] && r.outcomes == [] && r.values == map[]
  }

  lemma FiguresOfStages(b: Book, cs: seq<Candidate>, stages: seq<Stage>, k: nat, values: map<Figure, int>, p: Plan)
    requires stages == AllStages(b, cs) && 1 <= k <= |stages|
    requires p <= Listed(cs)
    requires values.Keys == Figures(stages[..k]) && ValuesMatch(values, stages[..k], p)
    ensures FiguresHold(values, b, p)
  {
    TotalMeans(b, Count, cs, p);
    TotalMeans(b, Score, cs, p);
    TotalMeans(b, Due, cs, p);
    CountIsSize(b, p);
    assert stages[..k][0] == stages[0];
    assert PriorityScore in values ==> k >= 2 && stages[..k][1] == stages[1];
    assert DueCost in values ==> k >= 3 && stages[..k][2] == stages[2];
  }

  lemma PlanOfProgress(b: Book, cs: seq<Candidate>, stages: seq<Stage>, best: Point,
                       constraints: seq<Constraint>, values: map<Figure, int>, log: seq<Status>)
    requires KeysDetermine(Listed(cs))
    requires stages == AllStages(b, cs) && 1 <= |log| <= |stages|
    requires Progress(Listed(cs), BaseConstraints(b, cs), stages, |log|, best, constraints, values, log)
    requires values.Keys == Figures(stages[..|log|])
    ensures Feasible(b, Choosable(cs), best)
    ensures FiguresHold(values, b, best)
    ensures log[0] == OPTIMAL ==> MostOrders(b, Choosable(cs), best)
    ensures |log| == |stages| && AllOptimal(log) ==> Best(b, Choosable(cs), best)
  {
    ModelMeaning(b, cs, best);
    FiguresOfStages(b, cs, stages, |log|, values, best);
    if log[0] == OPTIMAL {
      FirstStagePlacesMost(b, cs, stages, best);
    }
    if |log| == |stages| && AllOptimal(log) {
      assert stages[..|log|] == stages;
      LexOptimalIsBest(b, cs, best);
    }
  }

  /** Whatever the engine does: only candidates are assigned, and unless the solve failed every
      evaluated order has the outcome that its evaluation and the assignments call for. */
  ghost predicate Traceable(r: SolveResult, evaluations: seq<OrderEvaluation>) {
    && (forall a :: a in r.assignments ==> a in AllCandidates(evaluations))
    && (r.status != SolverError ==> r.outcomes == Outcomes(evaluations, OrdersIn(PlanOf(r.assignments))))
  }

  function EmptyResult(evaluations: seq<OrderEvaluation>): SolveResult {
    SolveResult(SolverOptimal, true, [], Outcomes(evaluations, {}), NO_CANDIDATE_VALUES)
  }

  /** No candidate at all is a valid run with nothing assigned. */
  lemma EmptyResultIsSound(b: Book, evaluations: seq<OrderEvaluation>)
    requires AllCandidates(evaluations) == []
    ensures Sound(b, evaluations, EmptyResult(evaluations))
    ensures MostOrders(b, Choosable(AllCandidates(evaluations)), PlanOf(EmptyResult(evaluations).assignments))
  {
    var r := EmptyResult(evaluations);
    assert PlanOf(r.assignments) == {} && OrdersIn({}) == {};
    assert Choosable([]) == {};
    EmptyPlanFeasible(b, {});
    assert forall q :: Feasible(b, {}, q) ==> q == {};
  }

  lemma NothingChosenIsAdmitted(b: Book, cs: seq<Candidate>)
    ensures Admits(Listed(cs), BaseConstraints(b, cs), {})
  {
    EmptyPlanFeasible(b, Choosable(cs));
    ModelMeaning(b, cs, {});
  }

  /** How the engine answers the first stage, within what is left of the budget by then. */
  function FirstOf(world: World, variables: set<Candidate>, constraints: seq<Constraint>, stage: Stage): Status {
    StageStatus(world.engine, 0, world.clock(0) + world.maxSeconds as real - world.clock(1),
                variables, constraints, stage)
  }

  /** How it answers for the number of placed orders. */
  function FirstAnswer(b: Book, cs: seq<Candidate>, world: World): Status {
    FirstOf(world, Listed(cs), BaseConstraints(b, cs), AllStages(b, cs)[0])
  }

  /** An honest engine that always finishes, and a budget that lasts. */
  ghost predicate Finishes(world: World) {
    && Honest(world.engine) && Decisive(world.engine)
    && forall t: nat :: world.clock(0) + world.maxSeconds as real - world.clock(t) > MIN_STAGE_SECONDS
  }

  /** What the engine settles about the result: it fails exactly when the first stage came with
      no solution, places most orders when the first stage was optimal, and is optimal when
      everything finishes. */
  ghost predicate Follows(b: Book, cs: seq<Candidate>, world: World, r: SolveResult) {
    && (Honest(world.engine) ==> (r.status == SolverError <==> cs != [] && !Usable(FirstAnswer(b, cs, world))))
    && (Honest(world.engine) && (cs == [] || FirstAnswer(b, cs, world) == OPTIMAL) ==>
          MostOrders(b, Choosable(cs), PlanOf(r.assignments)))
    && (Finishes(world) ==> r.isOptimal)
  }

  /** Runs the stages on a model with a fresh solver and a fresh budget. */
  method SolveModel(model: CpModel, stages: seq<Stage>, world: World)
    returns (verdict: Verdict, best: Point, allOptimal: bool, values: map<Figure, int>, ghost log: seq<Status>)
    requires |stages| >= 1 && stages[0].figure.Some? && DistinctFigures(stages)
    requires Admits(model.variables, model.constraints, {})
    modifies model
    ensures log != [] && log[0] == FirstOf(world, old(model.variables), old(model.constraints), stages[0])
    ensures verdict == NothingProved ==> |log| == 1 && !Usable(log[0])
    ensures verdict == ProvedInfeasible ==> !Honest(world.engine)
    ensures verdict == Planned ==> 1 <= |log| <= |stages| && Usable(log[0]) && values.Keys == Figures(stages[..|log|])
    ensures verdict == Planned ==> (allOptimal <==> |log| == |stages| && AllOptimal(log))
    ensures Finishes(world) ==> verdict == Planned && allOptimal
    ensures Honest(world.engine) && verdict == Planned ==>
              Progress(old(model.variables), old(model.constraints), stages, |log|, best, model.constraints,
                       values, log)
  {
    var solver := new CpSolver(world.engine);
    var budget := new Budget(world.clock, world.maxSeconds);
    verdict, best, allOptimal, values, log := RunStages(solver, model, stages, budget);
  }

  lemma StagesAreNamed(b: Book, cs: seq<Candidate>)
    ensures |AllStages(b, cs)| >= 1 && AllStages(b, cs)[0].figure.Some? && DistinctFigures(AllStages(b, cs))
  {
  }

  /** Builds the model over a candidate list and runs every stage on it. */
  method SolveStages(b: Book, cs: seq<Candidate>, world: World)
    returns (verdict: Verdict, best: Point, allOptimal: bool, values: map<Figure, int>, ghost log: seq<Status>,
             ghost constraints: seq<Constraint>)
    ensures log != [] && log[0] == FirstAnswer(b, cs, world)
    ensures verdict == NothingProved ==> |log| == 1 && !Usable(log[0])
    ensures verdict == ProvedInfeasible ==> !Honest(world.engine)
    ensures verdict == Planned ==>
              1 <= |log| <= |AllStages(b, cs)| && Usable(log[0]) && values.Keys == Figures(AllStages(b, cs)[..|log|])
    ensures verdict == Planned ==> (allOptimal <==> |log| == |AllStages(b, cs)| && AllOptimal(log))
    ensures Finishes(world) ==> verdict == Planned && allOptimal
    ensures Honest(world.engine) && verdict == Planned ==>
              Progress(Listed(cs), BaseConstraints(b, cs), AllStages(b, cs), |log|, best, constraints, values, log)
  {
    var model := BuildModel(b, cs);
    NothingChosenIsAdmitted(b, cs);
    StagesAreNamed(b, cs);
    verdict, best, allOptimal, values, log := SolveModel(model, AllStages(b, cs), world);
    constraints := model.constraints;
  }

  /** When every stage ran, all three figures are recorded. */
  lemma AllFigures(b: Book, cs: seq<Candidate>)
    ensures Figures(AllStages(b, cs)) == {AssignedCount, PriorityScore, DueCost}
  {
    forall i | 3 <= i < |AllStages(b, cs)| ensures AllStages(b, cs)[i].figure.None? {
      assert AllStages(b, cs)[i] == StageAt(b, cs, i);
    }
    ThreeFigures(AllStages(b, cs));
  }

  lemma ThreeFigures(stages: seq<Stage>)
    requires |stages| >= 3 && stages[0].figure == Some(AssignedCount)
    requires stages[1].figure == Some(PriorityScore) && stages[2].figure == Some(DueCost)
    requires forall i :: 3 <= i < |stages| ==> stages[i].figure.None?
    ensures Figures(stages) == {AssignedCount, PriorityScore, DueCost}
  {
  }

  /** What the stages come to for plans. */
  method SolveCandidates(b: Book, cs: seq<Candidate>, world: World)
    returns (verdict: Verdict, best: Point, allOptimal: bool, values: map<Figure, int>, ghost log: seq<Status>)
    requires KeysDetermine(Listed(cs))
    ensures log != [] && log[0] == FirstAnswer(b, cs, world)
    ensures verdict == NothingProved ==> |log| == 1 && !Usable(log[0])
    ensures verdict == Planned ==>
              Usable(log[0]) && (allOptimal <==> |log| == 3 + |SortedOrders(cs)| && AllOptimal(log))
    ensures verdict == Planned && allOptimal ==> AllRecorded(values)
    ensures Honest(world.engine) ==> verdict != ProvedInfeasible
    ensures Finishes(world) ==> verdict == Planned && allOptimal
    ensures Honest(world.engine) && verdict == Planned ==>
              && Feasible(b, Choosable(cs), best)
              && FiguresHold(values, b, best)
              && (log[0] == OPTIMAL ==> MostOrders(b, Choosable(cs), best))
              && (allOptimal ==> Best(b, Choosable(cs), best))
  {
    ghost var constraints;
    verdict, best, allOptimal, values, log, constraints := SolveStages(b, cs, world);
    AllFigures(b, cs);
    assert AllStages(b, cs)[..|AllStages(b, cs)|] == AllStages(b, cs);
    if Honest(world.engine) && verdict == Planned {
      PlanOfProgress(b, cs, AllStages(b, cs), best, constraints, values, log);
    }
  }

  /** Decodes a point into the reported plan. */
  method Package(evaluations: seq<OrderEvaluation>, cs: seq<Candidate>, best: Point, allOptimal: bool,
                 values: map<Figure, int>)
    returns (r: SolveResult)
    ensures forall x :: x in r.outcomes ==> Unsearched(x)
    ensures r.status == (if allOptimal then SolverOptimal else SolverFeasible)
    ensures r.isOptimal == allOptimal && r.values == values
    ensures cs == AllCandidates(evaluations) ==> Traceable(r, evaluations)
    ensures best <= Listed(cs) && OneSlotPerOrder(best) ==> Reports(r, evaluations, best)
  {
    var byOrder := Decode(cs, best);
    var assignments := SortedAssignments(byOrder);
    var outcomes := BuildOutcomes(evaluations, byOrder);
    r := SolveResult(if allOptimal then SolverOptimal else SolverFeasible, allOptimal, assignments, outcomes, values);
    AssignedOrders(byOrder, assignments);
    if best <= Listed(cs) && OneSlotPerOrder(best) {
      DecodedPlan(cs, best, byOrder, assignments);
    }
  }

  method ReportEmpty(evaluations: seq<OrderEvaluation>) returns (r: SolveResult)
    ensures r == EmptyResult(evaluations)
    ensures Traceable(r, evaluations)
    ensures forall x :: x in r.outcomes ==> Unsearched(x)
  {
    var outcomes := BuildOutcomes(evaluations, map[]);
    NobodyIn();
    r := SolveResult(SolverOptimal, true, [], outcomes, NO_CANDIDATE_VALUES);
  }

  lemma NothingIsSound(b: Book, evaluations: seq<OrderEvaluation>, r: SolveResult)
    requires r.status == SolverError && ReportsNothing(r)
    ensures Sound(b, evaluations, r)
  {
  }

  lemma PlannedIsSound(b: Book, evaluations: seq<OrderEvaluation>, r: SolveResult, best: Plan)
    requires r.status == SolverOptimal || r.status == SolverFeasible
    requires Reports(r, evaluations, best) && FiguresHold(r.values, b, best)
    requires Feasible(b, Choosable(AllCandidates(evaluations)), best)
    requires r.isOptimal ==> Best(b, Choosable(AllCandidates(evaluations)), best) && AllRecorded(r.values)
    ensures Sound(b, evaluations, r)
  {
  }

  /** The result of a plan that was found. `sound` says that its engine was honest. */
  method ReportPlan(b: Book, evaluations: seq<OrderEvaluation>, cs: seq<Candidate>, best: Point, allOptimal: bool,
                    values: map<Figure, int>, ghost sound: bool)
    returns (r: SolveResult)
    requires cs == AllCandidates(evaluations)
    requires allOptimal ==> AllRecorded(values)
    requires sound ==> Feasible(b, Choosable(cs), best) && FiguresHold(values, b, best)
    requires sound && allOptimal ==> Best(b, Choosable(cs), best)
    ensures r.status == (if allOptimal then SolverOptimal else SolverFeasible)
    ensures r.isOptimal == allOptimal && r.values == values
    ensures forall x :: x in r.outcomes ==> Unsearched(x)
    ensures Traceable(r, evaluations)
    ensures sound ==> Sound(b, evaluations, r) && PlanOf(r.assignments) == best
  {
    r := Package(evaluations, cs, best, allOptimal, values);
    if sound {
      PlannedIsSound(b, evaluations, r, best);
    }
  }

  method ReportInfeasible(evaluations: seq<OrderEvaluation>) returns (r: SolveResult)
    ensures r.status == SolverInfeasible && !r.isOptimal
    ensures forall x :: x in r.outcomes ==> Unsearched(x)
    ensures Traceable(r, evaluations)
  {
    var outcomes := BuildOutcomes(evaluations, map[]);
    NobodyIn();
    r := SolveResult(SolverInfeasible, false, [], outcomes, map[]);
  }

  /** Solves for a candidate list and turns the verdict into a result. */
  method SolveListed(b: Book, evaluations: seq<OrderEvaluation>, cs: seq<Candidate>, world: World)
    returns (r: SolveResult, ghost log: seq<Status>)
    requires cs == AllCandidates(evaluations) && KeysDetermine(Listed(cs))
    ensures r.isOptimal <==> r.status == SolverOptimal
    ensures forall x :: x in r.outcomes ==> Unsearched(x)
    ensures r.status == SolverError ==> ReportsNothing(r) && |log| == 1 && !Usable(log[0])
    ensures Traceable(r, evaluations)
    ensures r.isOptimal ==> |log| == 3 + |SortedOrders(cs)| && AllOptimal(log)
    ensures r.isOptimal ==> AllRecorded(r.values)
    ensures Honest(world.engine) ==> Sound(b, evaluations, r)
    ensures cs != [] ==> Follows(b, cs, world, r)
  {
    var verdict, best, allOptimal, values;
    verdict, best, allOptimal, values, log := SolveCandidates(b, cs, world);
    match verdict
    case ProvedInfeasible =>
      r := ReportInfeasible(evaluations);
    case NothingProved =>
      r := SolveResult(SolverError, false, [], [], map[]);
      NothingIsSound(b, evaluations, r);
    case Planned =>
      r := ReportPlan(b, evaluations, cs, best, allOptimal, values, Honest(world.engine));
  }

  /** Solves one scenario. `log` lists the statuses that came with a solution, or the first
      status when none did; it is empty when there was nothing to solve. */
  method SolveBaseline(s: Snapshot, evaluations: seq<OrderEvaluation>, world: World)
    returns (r: SolveResult, ghost log: seq<Status>)
    requires Resolved(s, AllCandidates(evaluations))
    ensures r.isOptimal <==> r.status == SolverOptimal
    ensures forall x :: x in r.outcomes ==> Unsearched(x)
    ensures r.status == SolverError ==> ReportsNothing(r) && |log| == 1 && !Usable(log[0])
    ensures Traceable(r, evaluations)
    ensures AllCandidates(evaluations) == [] ==>
              r == EmptyResult(evaluations)
    ensures AllCandidates(evaluations) != [] ==>
              (r.isOptimal ==>
                 && |log| == 3 + |SortedOrders(AllCandidates(evaluations))| && AllOptimal(log)
                 && AllRecorded(r.values))
    ensures Honest(world.engine) ==> Sound(BookOf(s), evaluations, r)
    ensures Follows(BookOf(s), AllCandidates(evaluations), world, r)
  {
    if AllCandidates(evaluations) == [] {
      r := ReportEmpty(evaluations);
      EmptyResultIsSound(BookOf(s), evaluations);
      log := [];
      return;
    }
    r, log := SolveListed(BookOf(s), evaluations, AllCandidates(evaluations), world);
  }
}
