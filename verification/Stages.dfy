/** Pin and refine: optimise one expression after another, each pinned before the next,
    under one time budget, falling back to the last plan that was proved. */
module Stages {
  import opened Ordering
  import opened Eligibility
  import opened CpSat

  const MIN_STAGE_SECONDS := 0.05

  /** One wall-clock budget shared by every stage. The clock is an arbitrary reading per query. */
  class Budget {
    const clock: nat -> real
    const deadline: real
    var ticks: nat

    constructor (clock: nat -> real, totalSeconds: nat)
      ensures this.clock == clock && deadline == clock(0) + totalSeconds as real && ticks == 1
    {
      this.clock := clock;
      deadline := clock(0) + totalSeconds as real;
      ticks := 1;
    }

    method Remaining() returns (seconds: real)
      modifies this
      ensures seconds == deadline - clock(old(ticks)) && ticks == old(ticks) + 1
    {
      seconds := deadline - clock(ticks);
      ticks := ticks + 1;
    }

    /** Below the minimum there is no point starting another solve. */
    method Exhausted() returns (b: bool)
      modifies this
      ensures b <==> deadline - clock(old(ticks)) <= 0.05
      ensures ticks == old(ticks) + 1
    {
      var seconds := Remaining();
      b := seconds <= MIN_STAGE_SECONDS;
    }
  }

  /** What a stage is allowed when this much of the budget is left. */
  function StageLimit(remaining: real): (limit: real)
    ensures limit >= 0.05 && (remaining >= 0.05 ==> limit == remaining) && (remaining <= 0.05 ==> limit == 0.05)
  {
    if remaining > MIN_STAGE_SECONDS then remaining else MIN_STAGE_SECONDS
  }

  /** The budget never runs out. */
  ghost predicate Unhurried(budget: Budget) {
    forall t: nat :: budget.deadline - budget.clock(t) > MIN_STAGE_SECONDS
  }

  method Optimise(solver: CpSolver, model: CpModel, expr: Linear, budget: Budget, maximise: bool)
    returns (status: Status, optimal: bool)
    modifies solver, model`objective, model`maximise, budget
    ensures solver.answer == solver.engine(old(solver.calls),
                                           StageLimit(budget.deadline - budget.clock(old(budget.ticks))),
                                           Problem(model.variables, model.constraints, expr, maximise))
    ensures status == solver.answer.status && (optimal <==> status == OPTIMAL)
  {
    model.SetObjective(expr, maximise);
    var remaining := budget.Remaining();
    solver.SetTimeLimit(StageLimit(remaining));
    status := solver.Solve(model);
    optimal := status == OPTIMAL;
  }

  datatype Verdict = Planned | ProvedInfeasible | NothingProved

  ghost predicate AllOptimal(log: seq<Status>) {
    forall i :: 0 <= i < |log| ==> log[i] == OPTIMAL
  }

  function Figures(stages: seq<Stage>): set<Figure> {
    set i | 0 <= i < |stages| && stages[i].figure.Some? :: stages[i].figure.value
  }

  ghost predicate DistinctFigures(stages: seq<Stage>) {
    forall i, j :: 0 <= i < j < |stages| && stages[i].figure.Some? ==> stages[i].figure != stages[j].figure
  }

  /** Every recorded figure is the figure of this point. */
  ghost predicate ValuesMatch(values: map<Figure, int>, stages: seq<Stage>, pt: Point) {
    forall i :: 0 <= i < |stages| && stages[i].figure.Some? ==>
                  stages[i].figure.value in values && values[stages[i].figure.value] == Eval(stages[i].expr, pt)
  }

  /** What is known after `k` stages were answered with a usable status. */
  ghost predicate Progress(variables: set<Candidate>, base: seq<Constraint>, stages: seq<Stage>, k: nat,
                           best: Point, constraints: seq<Constraint>, values: map<Figure, int>, log: seq<Status>)
    requires 1 <= k <= |stages| && |log| == k
  {
    && Admits(variables, base, best)
    && constraints == base + Pins(stages[..k], best)
    && ValuesMatch(values, stages[..k], best)
    && (log[0] == OPTIMAL ==> LexOptimal(variables, base, stages[..1], best))
    && (AllOptimal(log) ==> LexOptimal(variables, base, stages[..k], best))
  }

  lemma PinOneMore(stages: seq<Stage>, k: nat, pt: Point)
    requires k < |stages|
    ensures Pins(stages[..k + 1], pt) == Pins(stages[..k], pt) + [Exactly(stages[k].expr, Eval(stages[k].expr, pt))]
  {
  }

  lemma FiguresGrow(stages: seq<Stage>, k: nat)
    requires k < |stages|
    ensures Figures(stages[..k + 1])
         == Figures(stages[..k]) + (if stages[k].figure.Some? then {stages[k].figure.value} else {})
  {
    var next := stages[..k + 1];
    forall n ensures n in Figures(next) <==> n in Figures(stages[..k]) || stages[k].figure == Some(n) {
      if n in Figures(stages[..k]) {
        var i :| 0 <= i < k && stages[..k][i].figure == Some(n);
        assert next[i].figure == Some(n);
      }
      if stages[k].figure == Some(n) {
        assert next[k].figure == Some(n);
      }
    }
  }

  lemma AllOptimalGrows(log: seq<Status>, status: Status)
    ensures AllOptimal(log + [status]) <==> AllOptimal(log) && status == OPTIMAL
  {
    if AllOptimal(log + [status]) {
      forall i | 0 <= i < |log| ensures log[i] == OPTIMAL {
        assert (log + [status])[i] == OPTIMAL;
      }
      assert (log + [status])[|log|] == OPTIMAL;
    }
  }

  lemma SameCostsSameValues(stages: seq<Stage>, values: map<Figure, int>, pt: Point, q: Point)
    requires ValuesMatch(values, stages, pt) && Costs(stages, pt) == Costs(stages, q)
    ensures ValuesMatch(values, stages, q)
  {
    forall i | 0 <= i < |stages| ensures Eval(stages[i].expr, pt) == Eval(stages[i].expr, q) {
      assert Costs(stages, pt)[i] == Costs(stages, q)[i];
    }
  }

  lemma SameCostsPrefix(stages: seq<Stage>, k: nat, pt: Point, q: Point)
    requires 1 <= k <= |stages| && Costs(stages[..k], pt) == Costs(stages[..k], q)
    ensures Costs(stages[..1], pt) == Costs(stages[..1], q)
  {
    assert Costs(stages[..k], pt)[0] == Costs(stages[..k], q)[0];
  }

  /** The first stage, seen from the empty point. */
  lemma FirstStage(variables: set<Candidate>, base: seq<Constraint>, stages: seq<Stage>, a: Answer)
    requires |stages| >= 1 && Admits(variables, base, {})
    requires HonestAnswer(Problem(variables, base, stages[0].expr, stages[0].maximise), a)
    ensures a.status != INFEASIBLE
    ensures Usable(a.status) ==>
              && Admits(variables, base, a.point)
              && a.objective == Eval(stages[0].expr, a.point)
              && (a.status == OPTIMAL ==> LexOptimal(variables, base, stages[..1], a.point))
  {
    assert base + Pins(stages[..0], {}) == base;
    forall q ensures LexLeq(Costs(stages[..0], {}), Costs(stages[..0], q)) {
      assert Costs(stages[..0], {}) == Costs(stages[..0], q);
    }
    StageStep(variables, base, stages, 0, {}, a);
  }

  /** A later stage keeps everything known and adds its own pin and figure. */
  lemma NextStage(variables: set<Candidate>, base: seq<Constraint>, stages: seq<Stage>, k: nat, best: Point,
                  constraints: seq<Constraint>, values: map<Figure, int>, log: seq<Status>, a: Answer)
    requires 1 <= k < |stages| && |log| == k && DistinctFigures(stages)
    requires Progress(variables, base, stages, k, best, constraints, values, log)
    requires HonestAnswer(Problem(variables, constraints, stages[k].expr, stages[k].maximise), a)
    ensures a.status != INFEASIBLE
    ensures Usable(a.status) ==>
              var values' := if stages[k].figure.Some? then values[stages[k].figure.value := a.objective] else values;
              Progress(variables, base, stages, k + 1, a.point,
                       constraints + [Exactly(stages[k].expr, a.objective)], values', log + [a.status])
  {
    StageStep(variables, base, stages, k, best, a);
    if Usable(a.status) {
      PinOneMore(stages, k, a.point);
      SameCostsSameValues(stages[..k], values, best, a.point);
      SameCostsPrefix(stages, k, best, a.point);
      AllOptimalGrows(log, a.status);
    }
  }

  /** How an engine answers one stage, given what is left of the budget. */
  function StageStatus(engine: Engine, call: nat, remaining: real, variables: set<Candidate>,
                       constraints: seq<Constraint>, stage: Stage): Status {
    engine(call, StageLimit(remaining), Problem(variables, constraints, stage.expr, stage.maximise)).status
  }

  /** How the engine answers the first stage. */
  function FirstStatus(solver: CpSolver, model: CpModel, budget: Budget, stages: seq<Stage>): Status
    requires stages != []
    reads solver, model, budget
  {
    StageStatus(solver.engine, solver.calls, budget.deadline - budget.clock(budget.ticks),
                model.variables, model.constraints, stages[0])
  }

  /** What the statuses of the stages answered so far come to. */
  ghost predicate Answered(solver: CpSolver, model: CpModel, variables: set<Candidate>, base: seq<Constraint>,
                           stages: seq<Stage>, best: Point, values: map<Figure, int>, log: seq<Status>)
    reads model
  {
    && 1 <= |log| <= |stages| && Usable(log[0])
    && model.variables == variables
    && values.Keys == Figures(stages[..|log|])
    && (Honest(solver.engine) ==> Progress(variables, base, stages, |log|, best, model.constraints, values, log))
  }

  /** The first stage: its pin and its figure, if the answer came with a solution. */
  method SolveFirst(solver: CpSolver, model: CpModel, stages: seq<Stage>, budget: Budget)
    returns (status: Status, best: Point, values: map<Figure, int>)
    requires |stages| >= 1 && stages[0].figure.Some?
    requires Admits(model.variables, model.constraints, {})
    modifies solver, model, budget
    ensures status == old(FirstStatus(solver, model, budget, stages))
    ensures Honest(solver.engine) ==> status != INFEASIBLE
    ensures Usable(status) ==>
              Answered(solver, model, old(model.variables), old(model.constraints), stages, best, values,
                       OnlyStatus(status))
  {
    best, values := {}, map[];
    ghost var variables, base := model.variables, model.constraints;
    var optimal;
    status, optimal := Optimise(solver, model, stages[0].expr, budget, stages[0].maximise);
    if Honest(solver.engine) {
      FirstStage(variables, base, stages, solver.answer);
    }
    if Usable(status) {
      best := solver.Solution();
      values := map[stages[0].figure.value := solver.ObjectiveValue()];
      model.Add(Exactly(stages[0].expr, solver.ObjectiveValue()));
    }
  }

  function OnlyStatus(status: Status): (log: seq<Status>)
    ensures |log| == 1 && log[0] == status && (AllOptimal(log) <==> status == OPTIMAL)
  {
    [status]
  }

  /** One refinement: the next expression is optimised under every pin so far. */
  method SolveNext(solver: CpSolver, model: CpModel, ghost variables: set<Candidate>, ghost base: seq<Constraint>,
                   stages: seq<Stage>, k: nat, budget: Budget, best: Point, values: map<Figure, int>,
                   ghost log: seq<Status>)
    returns (status: Status, next: Point, values': map<Figure, int>, ghost log': seq<Status>)
    requires DistinctFigures(stages) && 1 <= k < |stages| && |log| == k
    requires Answered(solver, model, variables, base, stages, best, values, log)
    modifies solver, model, budget
    ensures Honest(solver.engine) ==> status != INFEASIBLE
    ensures Decisive(solver.engine) ==> status in {OPTIMAL, INFEASIBLE}
    ensures Usable(status) ==>
              log' == log + [status] && Answered(solver, model, variables, base, stages, next, values', log')
    ensures !Usable(status) ==> next == best && values' == values && log' == log
    ensures !Usable(status) ==> Answered(solver, model, variables, base, stages, best, values, log)
  {
    next, values', log' := best, values, log;
    var optimal;
    status, optimal := Optimise(solver, model, stages[k].expr, budget, stages[k].maximise);
    if Honest(solver.engine) {
      NextStage(variables, base, stages, k, best, model.constraints, values, log, solver.answer);
    }
    if Usable(status) {
      FiguresGrow(stages, k);
      next := solver.Solution();
      if stages[k].figure.Some? {
        values' := values[stages[k].figure.value := solver.ObjectiveValue()];
      }
      model.Add(Exactly(stages[k].expr, solver.ObjectiveValue()));
      log' := log + [status];
    }
  }

  /** The staged solve. `log` lists the statuses that came with a solution, or the first
      status when none did. With an honest engine it never ends in a proof of infeasibility; the
      point it returns satisfies the base constraints; every recorded figure is that point's
      own; and it is the lexicographic optimum if every stage was proved, as it is when the
      engine always finishes and the budget lasts. */
  method RunStages(solver: CpSolver, model: CpModel, stages: seq<Stage>, budget: Budget)
    returns (verdict: Verdict, best: Point, allOptimal: bool, values: map<Figure, int>, ghost log: seq<Status>)
    requires |stages| >= 1 && stages[0].figure.Some? && DistinctFigures(stages)
    requires Admits(model.variables, model.constraints, {})
    modifies solver, model, budget
    ensures log != [] && log[0] == old(FirstStatus(solver, model, budget, stages))
    ensures verdict == NothingProved ==> |log| == 1 && !Usable(log[0])
    ensures verdict == ProvedInfeasible ==> !Honest(solver.engine)
    ensures verdict == Planned ==> 1 <= |log| <= |stages| && Usable(log[0]) && values.Keys == Figures(stages[..|log|])
    ensures verdict == Planned ==> (allOptimal <==> |log| == |stages| && AllOptimal(log))
    ensures verdict == Planned && Honest(solver.engine) ==>
              Progress(old(model.variables), old(model.constraints), stages, |log|, best, model.constraints,
                       values, log)
    ensures Honest(solver.engine) && Decisive(solver.engine) && Unhurried(budget) ==> verdict == Planned && allOptimal
  {
    ghost var variables, base := model.variables, model.constraints;
    ghost var finishes := Honest(solver.engine) && Decisive(solver.engine) && Unhurried(budget);
    var status;
    status, best, values := SolveFirst(solver, model, stages, budget);
    log := OnlyStatus(status);
    allOptimal := status == OPTIMAL;
    if status == INFEASIBLE {
      return ProvedInfeasible, best, false, values, log;
    }
    if !Usable(status) {
      return NothingProved, best, false, values, log;
    }
    verdict := Planned;
    var k := 1;
    while k < |stages|
      invariant 1 <= k <= |stages| && |log| == k
      invariant log[0] == old(FirstStatus(solver, model, budget, stages))
      invariant Answered(solver, model, variables, base, stages, best, values, log)
      invariant allOptimal <==> AllOptimal(log)
      invariant finishes ==> allOptimal
    {
      var exhausted := budget.Exhausted();
      if exhausted {
        allOptimal := false;
        break;
      }
      ghost var before := log;
      status, best, values, log := SolveNext(solver, model, variables, base, stages, k, budget, best, values, log);
      if status == INFEASIBLE {
        return ProvedInfeasible, best, false, values, log;
      }
      if !Usable(status) {
        allOptimal := false;
        break;
      }
      AllOptimalGrows(before, status);
      allOptimal := allOptimal && status == OPTIMAL;
      k := k + 1;
    }
  }
}
