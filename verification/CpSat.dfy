/** The 0/1 constraint solver as its callers see it: a model of linear constraints, an
    engine that may answer anything, and what it means for the engine to be honest. */
module CpSat {
  import opened Ordering
  import opened Eligibility

  /** The variables set to 1. */
  type Point = set<Candidate>

  datatype Term = Term(variable: Candidate, coefficient: int)
  datatype Linear = Linear(terms: seq<Term>, constant: int)

  function SumTerms(terms: seq<Term>, pt: Point): int {
    if terms == [] then 0
    else
      var last := terms[|terms| - 1];
      SumTerms(terms[..|terms| - 1], pt) + (if last.variable in pt then last.coefficient else 0)
  }

  function Eval(e: Linear, pt: Point): int {
    SumTerms(e.terms, pt) + e.constant
  }

  datatype Constraint = AtMost(expr: Linear, bound: int) | Exactly(expr: Linear, value: int)

  predicate Satisfies(pt: Point, c: Constraint) {
    match c
    case AtMost(expr, bound) => Eval(expr, pt) <= bound
    case Exactly(expr, value) => Eval(expr, pt) == value
  }

  ghost predicate Admits(variables: set<Candidate>, constraints: seq<Constraint>, pt: Point) {
    pt <= variables && forall c :: c in constraints ==> Satisfies(pt, c)
  }

  datatype Problem = Problem(
    variables: set<Candidate>,
    constraints: seq<Constraint>,
    objective: Linear,
    maximise: bool)

  /** The quantity a solve makes as small as it can. */
  function Cost(e: Linear, maximise: bool, pt: Point): int {
    if maximise then -Eval(e, pt) else Eval(e, pt)
  }

  datatype Status = OPTIMAL | FEASIBLE | INFEASIBLE | UNKNOWN | MODEL_INVALID

  datatype Answer = Answer(status: Status, point: Point, objective: int)

  /** Whether a status came with a solution worth reading. */
  predicate Usable(status: Status) {
    status in {OPTIMAL, FEASIBLE}
  }

  /** What each status claims. UNKNOWN and MODEL_INVALID claim nothing: the point and the
      objective value that come with them are arbitrary. */
  ghost predicate HonestAnswer(p: Problem, a: Answer) {
    && (Usable(a.status) ==>
          Admits(p.variables, p.constraints, a.point) && a.objective == Eval(p.objective, a.point))
    && (a.status == OPTIMAL ==>
          forall q :: Admits(p.variables, p.constraints, q) ==>
                        Cost(p.objective, p.maximise, a.point) <= Cost(p.objective, p.maximise, q))
    && (a.status == INFEASIBLE ==> forall q :: !Admits(p.variables, p.constraints, q))
  }

  /** The answer may depend on how many solves came before and on the seconds allowed, so the
      same problem can be answered differently when time runs short. */
  type Engine = (nat, real, Problem) -> Answer

  ghost predicate Honest(engine: Engine) {
    forall n, limit, p :: HonestAnswer(p, engine(n, limit, p))
  }

  /** An engine that always finishes: it proves an optimum or proves there is none. */
  ghost predicate Decisive(engine: Engine) {
    forall n, limit, p :: engine(n, limit, p).status in {OPTIMAL, INFEASIBLE}
  }

  // ---------------------------------------------------------------- honest engines exist

  lemma {:induction false} CheapestExists(p: Problem, points: set<Point>)
    requires points != {}
    ensures exists best :: best in points
                           && forall q :: q in points ==>
                                 Cost(p.objective, p.maximise, best) <= Cost(p.objective, p.maximise, q)
    decreases |points|
  {
    var pt :| pt in points;
    var rest := points - {pt};
    if rest != {} {
      CheapestExists(p, rest);
      var best :| best in rest
                  && forall q :: q in rest ==> Cost(p.objective, p.maximise, best) <= Cost(p.objective, p.maximise, q);
      var winner := if Cost(p.objective, p.maximise, pt) <= Cost(p.objective, p.maximise, best) then pt else best;
      assert winner in points;
      forall q | q in points ensures Cost(p.objective, p.maximise, winner) <= Cost(p.objective, p.maximise, q) {
        assert q == pt || q in rest;
      }
    } else {
      assert points == {pt};
    }
  }

  /** Exhaustive search answers OPTIMAL or INFEASIBLE, truthfully. */
  lemma ExhaustiveAnswer(p: Problem) returns (a: Answer)
    ensures HonestAnswer(p, a) && a.status in {OPTIMAL, INFEASIBLE}
  {
    var points := set q: Point | q <= p.variables && Admits(p.variables, p.constraints, q);
    if points == {} {
      a := Answer(INFEASIBLE, {}, 0);
      forall q ensures !Admits(p.variables, p.constraints, q) {
        assert q !in points;
      }
    } else {
      CheapestExists(p, points);
      var best :| best in points
                  && forall q :: q in points ==>
                        Cost(p.objective, p.maximise, best) <= Cost(p.objective, p.maximise, q);
      a := Answer(OPTIMAL, best, Eval(p.objective, best));
      forall q | Admits(p.variables, p.constraints, q)
        ensures Cost(p.objective, p.maximise, best) <= Cost(p.objective, p.maximise, q)
      {
        assert q in points;
      }
    }
  }

  ghost predicate Exhaustive(p: Problem, a: Answer) {
    HonestAnswer(p, a) && a.status in {OPTIMAL, INFEASIBLE}
  }

  ghost function Search(p: Problem): (a: Answer)
    ensures Exhaustive(p, a)
  {
    assert exists a :: Exhaustive(p, a) by {
      var a := ExhaustiveAnswer(p);
      assert Exhaustive(p, a);
    }
    var a :| Exhaustive(p, a);
    a
  }

  /** Honesty can be met, and by an engine that proves every solve. */
  lemma HonestEngineExists()
    ensures exists engine: Engine :: Honest(engine) && Decisive(engine)
  {
    var engine: Engine := (n: nat, limit: real, p: Problem) => Search(p);
    assert forall n, limit, p :: Exhaustive(p, engine(n, limit, p));
    assert Honest(engine);
  }

  // ---------------------------------------------------------------- pin and refine

  /** The figures a run records; the canonical tie-break stages record none. */
  datatype Figure = AssignedCount | PriorityScore | DueCost

  datatype Stage = Stage(figure: Option<Figure>, expr: Linear, maximise: bool)

  function Costs(stages: seq<Stage>, pt: Point): (r: seq<int>)
    ensures |r| == |stages|
    ensures forall i :: 0 <= i < |r| ==> r[i] == Cost(stages[i].expr, stages[i].maximise, pt)
  {
    seq(|stages|, i requires 0 <= i < |stages| => Cost(stages[i].expr, stages[i].maximise, pt))
  }

  /** One equality per finished stage, at the value the incumbent reached. */
  function Pins(stages: seq<Stage>, pt: Point): (r: seq<Constraint>)
    ensures |r| == |stages|
    ensures forall i :: 0 <= i < |r| ==> r[i] == Exactly(stages[i].expr, Eval(stages[i].expr, pt))
  {
    seq(|stages|, i requires 0 <= i < |stages| => Exactly(stages[i].expr, Eval(stages[i].expr, pt)))
  }

  /** The first place two cost vectors differ is cheaper on the left. */
  ghost predicate CheaperAt(a: seq<int>, b: seq<int>, i: nat) {
    i < |a| && i < |b| && a[..i] == b[..i] && a[i] < b[i]
  }

  ghost predicate LexLeq(a: seq<int>, b: seq<int>) {
    a == b || exists i: nat :: CheaperAt(a, b, i)
  }

  /** Admissible, and no admissible point is cheaper stage by stage. */
  ghost predicate LexOptimal(variables: set<Candidate>, base: seq<Constraint>, stages: seq<Stage>, pt: Point) {
    && Admits(variables, base, pt)
    && forall q :: Admits(variables, base, q) ==> LexLeq(Costs(stages, pt), Costs(stages, q))
  }

  function StageProblem(variables: set<Candidate>, base: seq<Constraint>, stages: seq<Stage>, k: nat,
                        pt: Point): Problem
    requires k < |stages|
  {
    Problem(variables, base + Pins(stages[..k], pt), stages[k].expr, stages[k].maximise)
  }

  /** A point meets the pins exactly when it costs the same as the incumbent so far. */
  lemma PinsMeanSameCosts(stages: seq<Stage>, pt: Point, q: Point)
    ensures (forall c :: c in Pins(stages, pt) ==> Satisfies(q, c)) <==> Costs(stages, q) == Costs(stages, pt)
    ensures Costs(stages, q) == Costs(stages, pt) ==> Pins(stages, q) == Pins(stages, pt)
  {
    if forall c :: c in Pins(stages, pt) ==> Satisfies(q, c) {
      forall i | 0 <= i < |stages| ensures Eval(stages[i].expr, q) == Eval(stages[i].expr, pt) {
        assert Pins(stages, pt)[i] in Pins(stages, pt);
      }
      assert Costs(stages, q) == Costs(stages, pt);
    }
    if Costs(stages, q) == Costs(stages, pt) {
      forall i | 0 <= i < |stages| ensures Eval(stages[i].expr, q) == Eval(stages[i].expr, pt) {
        assert Costs(stages, q)[i] == Costs(stages, pt)[i];
      }
      assert Pins(stages, q) == Pins(stages, pt);
    }
  }

  lemma AdmitsWithPins(variables: set<Candidate>, base: seq<Constraint>, stages: seq<Stage>, pt: Point, q: Point)
    ensures Admits(variables, base + Pins(stages, pt), q)
       <==> Admits(variables, base, q) && Costs(stages, q) == Costs(stages, pt)
  {
    PinsMeanSameCosts(stages, pt, q);
    var pins := Pins(stages, pt);
    assert forall c :: c in base + pins <==> c in base || c in pins;
  }

  /** One honest stage: it can never be told INFEASIBLE, what it returns agrees with every
      value pinned before, and if it was proved best it extends the lexicographic optimum. */
  lemma StageStep(variables: set<Candidate>, base: seq<Constraint>, stages: seq<Stage>, k: nat, pt: Point, a: Answer)
    requires k < |stages| && Admits(variables, base, pt)
    requires HonestAnswer(StageProblem(variables, base, stages, k, pt), a)
    ensures a.status != INFEASIBLE
    ensures Usable(a.status) ==>
              && Admits(variables, base, a.point)
              && Costs(stages[..k], a.point) == Costs(stages[..k], pt)
              && Pins(stages[..k], a.point) == Pins(stages[..k], pt)
              && a.objective == Eval(stages[k].expr, a.point)
    ensures a.status == OPTIMAL && LexOptimal(variables, base, stages[..k], pt) ==>
              LexOptimal(variables, base, stages[..k + 1], a.point)
  {
    AdmitsWithPins(variables, base, stages[..k], pt, pt);
    if Usable(a.status) {
      AdmitsWithPins(variables, base, stages[..k], pt, a.point);
      PinsMeanSameCosts(stages[..k], pt, a.point);
    }
    if a.status == OPTIMAL && LexOptimal(variables, base, stages[..k], pt) {
      forall q | Admits(variables, base, q)
        ensures LexLeq(Costs(stages[..k + 1], a.point), Costs(stages[..k + 1], q))
      {
        AdmitsWithPins(variables, base, stages[..k], pt, q);
        ExtendLexLeq(stages, k, a.point, q);
      }
    }
  }

  lemma ExtendLexLeq(stages: seq<Stage>, k: nat, pt: Point, q: Point)
    requires k < |stages|
    requires LexLeq(Costs(stages[..k], pt), Costs(stages[..k], q))
    requires Costs(stages[..k], pt) == Costs(stages[..k], q) ==>
               Cost(stages[k].expr, stages[k].maximise, pt) <= Cost(stages[k].expr, stages[k].maximise, q)
    ensures LexLeq(Costs(stages[..k + 1], pt), Costs(stages[..k + 1], q))
  {
    var a, b := Costs(stages[..k + 1], pt), Costs(stages[..k + 1], q);
    assert a[..k] == Costs(stages[..k], pt) && b[..k] == Costs(stages[..k], q);
    if a[..k] == b[..k] {
      if a[k] == b[k] {
        assert a == a[..k] + [a[k]] && b == b[..k] + [b[k]];
      } else {
        assert CheaperAt(a, b, k);
      }
    } else {
      var i: nat :| CheaperAt(a[..k], b[..k], i);
      assert a[..i] == a[..k][..i] == b[..k][..i] == b[..i];
      assert CheaperAt(a, b, i);
    }
  }

  // ---------------------------------------------------------------- model and solver objects

  class CpModel {
    var variables: set<Candidate>
    var constraints: seq<Constraint>
    var objective: Linear
    var maximise: bool

    constructor (variables: set<Candidate>)
      ensures this.variables == variables && constraints == []
    {
      this.variables := variables;
      constraints := [];
      objective := Linear([], 0);
      maximise := false;
    }

    method Add(c: Constraint)
      modifies this`constraints
      ensures constraints == old(constraints) + [c]
    {
      constraints := constraints + [c];
    }

    method SetObjective(e: Linear, maximise: bool)
      modifies this`objective, this`maximise
      ensures objective == e && this.maximise == maximise
    {
      objective := e;
      this.maximise := maximise;
    }

    function Current(): Problem
      reads this
    {
      Problem(variables, constraints, objective, maximise)
    }
  }

  class CpSolver {
    const engine: Engine
    var calls: nat
    var timeLimit: real
    var answer: Answer

    constructor (engine: Engine)
      ensures this.engine == engine && calls == 0
    {
      this.engine := engine;
      calls := 0;
      timeLimit := 0.0;
      answer := Answer(UNKNOWN, {}, 0);
    }

    method SetTimeLimit(seconds: real)
      modifies this`timeLimit
      ensures timeLimit == seconds
    {
      timeLimit := seconds;
    }

    method Solve(model: CpModel) returns (status: Status)
      modifies this`answer, this`calls
      ensures answer == engine(old(calls), timeLimit, model.Current()) && status == answer.status
      ensures calls == old(calls) + 1
    {
      answer := engine(calls, timeLimit, model.Current());
      calls := calls + 1;
      status := answer.status;
    }

    /** The value of every variable, as of the last solve. */
    function Solution(): Point
      reads this
    {
      answer.point
    }

    function ObjectiveValue(): int
      reads this
    {
      answer.objective
    }
  }
}
