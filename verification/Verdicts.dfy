/** What the outcome of an order says, read off the order and its evaluation. */
module Verdicts {
  import opened Ordering
  import opened ReasonCodes
  import opened Snapshots
  import opened Eligibility
  import opened GateProperties
  import opened Plans
  import opened AssignmentModel
  import opened BaselineSolve
  import opened Listing
  import opened PlanValidator
  import opened Agreement
  import opened GateCodes
  import opened Planning
  import opened Alternatives

  /** An order held at input, and one the gate turned away, take no part in the plan. Any other is
      assigned or not, and no search has been made for it. */
  lemma OutcomeReads(e: OrderEvaluation, placed: set<Id>)
    ensures var x := OutcomeOf(e, placed);
            && x.order == e.order && x.inputState == e.inputState && x.eligibilityState == e.eligibilityState
            && x.alternativeState == NotSearched && !x.badged && x.alternativeScenario == None
            && (x.assignmentState == NotApplicable <==>
                  e.inputState == ReviewRequired || e.eligibilityState == Ineligible)
            && (x.assignmentState == Assigned ==> e.order in placed && x.primary == Placed)
            && (x.assignmentState == Unassigned ==> e.order !in placed && x.primary == Because(CapacityConflict))
    ensures var x := OutcomeOf(e, placed);
            x.assignmentState == NotApplicable && e.reasonCodes != [] ==>
              x.primary.Because? && Leads(e.reasonCodes, x.primary.code)
  {
    if e.reasonCodes != [] {
      PrimaryLeads(e.reasonCodes);
    }
  }

  lemma InvertedTimesFirst()
    ensures !Leq(Text(MissingRequiredField), Text(InvalidTimeRange))
  {
    AlphabeticalOrder(InvalidTimeRange, MissingRequiredField);
    if Leq(Text(MissingRequiredField), Text(InvalidTimeRange)) {
      LeqAntisymmetric(Text(MissingRequiredField), Text(InvalidTimeRange));
    }
  }

  /** A held order shows the inverted times if it has them, and otherwise the missing weight. */
  lemma HeldShows(ix: Index, o: Order, services: seq<Id>, p: Code)
    requires o.grossWeight.None? || o.readyAt >= o.dueAt
    requires Leads(EvaluationOf(ix, o, services).reasonCodes, p)
    ensures p == if o.readyAt >= o.dueAt then InvalidTimeRange else MissingRequiredField
  {
    HeldOrders(ix, o, services);
    InvertedTimesFirst();
    assert (if o.readyAt >= o.dueAt then InvalidTimeRange else MissingRequiredField) in INPUT;
  }

  lemma HeldHasReason(ix: Index, o: Order, services: seq<Id>)
    requires o.grossWeight.None? || o.readyAt >= o.dueAt
    ensures EvaluationOf(ix, o, services).reasonCodes != []
  {
    HeldOrders(ix, o, services);
    assert (if o.readyAt >= o.dueAt then InvalidTimeRange else MissingRequiredField)
           in EvaluationOf(ix, o, services).reasonCodes;
  }

  lemma TurnedHasReason(s: Snapshot, o: Order, services: seq<Id>, e: OrderEvaluation)
    requires WagonsKnown(s) && Turned(s, o, services, e)
    ensures e.reasonCodes != []
  {
  }

  /** Some listed service has a slot that takes the order. */
  ghost predicate HasCandidate(s: Snapshot, o: Order, services: seq<Id>) {
    exists v, w, l :: Reaches(s, o, services, v, w, l) && PassesSlot(o, Berth(w, l))
  }

  lemma EligibleIff(s: Snapshot, o: Order, services: seq<Id>)
    requires WellFormed(s) && WagonsKnown(s) && InputValid(o)
    ensures EvaluationOf(IndexOf(s), o, services).eligibilityState
         == if HasCandidate(s, o, services) then Eligible else Ineligible
  {
    var e := EvaluationOf(IndexOf(s), o, services);
    if v, w, l :| Reaches(s, o, services, v, w, l) && PassesSlot(o, Berth(w, l)) {
      CandidatesRead(s, o, services, Candidate(o.id, v.id, w.id, l.id));
    }
    if e.candidates != [] {
      CandidatesRead(s, o, services, e.candidates[0]);
    }
  }

  /** The outcome belongs to the order's own evaluation. */
  lemma OutcomeBehind(s: Snapshot, scope: Scope, r: SolveResult, o: Order, x: OrderOutcome)
    requires WellFormed(s) && WagonsKnown(s) && Traceable(r, EvaluationsOf(s, scope)) && r.status != SolverError
    requires o in s.orders && x in r.outcomes && x.order == o.id
    ensures x == OutcomeOf(EvaluationOf(IndexOf(s), o, ScopeFor(scope, o)), OrdersIn(PlanOf(r.assignments)))
  {
    var k := EvaluationBehind(EvaluationsOf(s, scope), OrdersIn(PlanOf(r.assignments)), x);
    EvaluationsLength(IndexOf(s), s.orders, scope);
    EvaluationAt(IndexOf(s), s.orders, scope, k);
    EvaluationOrderAt(s, scope, k);
    SameKeySameRecord(s.orders, OrderId, s.orders[k], o);
  }

  /** The shown code of an order the gate turned away leads the codes of its evaluation. */
  ghost predicate ShowsReason(s: Snapshot, o: Order, services: seq<Id>, shown: Shown)
    requires WagonsKnown(s)
  {
    exists e :: Turned(s, o, services, e) && shown.Because? && Leads(e.reasonCodes, shown.code)
  }

  lemma TurnedShows(s: Snapshot, o: Order, services: seq<Id>, placed: set<Id>)
    requires WellFormed(s) && WagonsKnown(s) && InputValid(o) && !HasCandidate(s, o, services)
    ensures ShowsReason(s, o, services, OutcomeOf(EvaluationOf(IndexOf(s), o, services), placed).primary)
  {
    var e := EvaluationOf(IndexOf(s), o, services);
    EligibleIff(s, o, services);
    assert Turned(s, o, services, e);
    TurnedHasReason(s, o, services, e);
    OutcomeReads(e, placed);
  }

  /** What a run reports on an order, whatever the engine did. */
  lemma RunReads(s: Snapshot, scope: Scope, r: SolveResult, o: Order, x: OrderOutcome)
    requires WellFormed(s) && WagonsKnown(s) && Traceable(r, EvaluationsOf(s, scope)) && r.status != SolverError
    requires o in s.orders && x in r.outcomes && x.order == o.id
    ensures x.alternativeState == NotSearched && !x.badged && x.alternativeScenario == None
    ensures var services := ScopeFor(scope, o);
            if o.grossWeight.None? || o.readyAt >= o.dueAt then
              && x.inputState == ReviewRequired && x.eligibilityState == NotEvaluated
              && x.assignmentState == NotApplicable
              && x.primary == Because(if o.readyAt >= o.dueAt then InvalidTimeRange else MissingRequiredField)
            else if !HasCandidate(s, o, services) then
              && x.inputState == Valid && x.eligibilityState == Ineligible && x.assignmentState == NotApplicable
              && ShowsReason(s, o, services, x.primary)
            else
              && x.inputState == Valid && x.eligibilityState == Eligible
              && if o.id in OrdersOf(r.assignments) then x.assignmentState == Assigned && x.primary == Placed
                 else x.assignmentState == Unassigned && x.primary == Because(CapacityConflict)
  {
    var services, placed := ScopeFor(scope, o), OrdersIn(PlanOf(r.assignments));
    var e := EvaluationOf(IndexOf(s), o, services);
    OutcomeBehind(s, scope, r, o, x);
    OutcomeReads(e, placed);
    ReportedOrders(r.assignments);
    HeldOrders(IndexOf(s), o, services);
    if o.grossWeight.None? || o.readyAt >= o.dueAt {
      HeldHasReason(IndexOf(s), o, services);
      HeldShows(IndexOf(s), o, services, x.primary.code);
    } else {
      EligibleIff(s, o, services);
      if !HasCandidate(s, o, services) {
        TurnedShows(s, o, services, placed);
      }
    }
  }

  /** What validating a scenario records: one verdict per order, over its baseline services, in
      text order of the orders. */
  lemma ValidationReads(s: Snapshot, id: Id)
    requires WellFormed(s) && WagonsKnown(s)
    ensures var result := BuildValidationResult(id, EvaluationsOf(s, BaselineScope(s)));
            && result.scenario == id
            && StrictlyIncreasing(result.orders, EvaluationOrder)
            && (forall e :: e in result.orders <==>
                  exists o :: o in s.orders && e == EvaluationOf(IndexOf(s), o, s.baselineServices))
  {
    EvaluationKeys(IndexOf(s), s.orders, BaselineScope(s));
    SortedVerdicts(id, EvaluationsOf(s, BaselineScope(s)));
    EvaluationsRead(s);
  }

  lemma SortedVerdicts(id: Id, evaluations: seq<OrderEvaluation>)
    requires DistinctKeys(evaluations, EvaluationOrder)
    ensures var result := BuildValidationResult(id, evaluations);
            && result.scenario == id && StrictlyIncreasing(result.orders, EvaluationOrder)
            && forall e :: e in result.orders <==> e in evaluations
  {
    SortByDistinctKey(evaluations, EvaluationOrder, EvaluationLeq);
    SameMultisetSameMembers(Sort(evaluations, EvaluationLeq), evaluations);
  }

  lemma EvaluationsRead(s: Snapshot)
    requires WagonsKnown(s)
    ensures forall e :: e in EvaluationsOf(s, BaselineScope(s)) <==>
                          exists o :: o in s.orders && e == EvaluationOf(IndexOf(s), o, s.baselineServices)
  {
    var scope, evaluations := BaselineScope(s), EvaluationsOf(s, BaselineScope(s));
    EvaluationsLength(IndexOf(s), s.orders, scope);
    forall i | 0 <= i < |s.orders|
      ensures evaluations[i] == EvaluationOf(IndexOf(s), s.orders[i], s.baselineServices)
    {
      EvaluationAt(IndexOf(s), s.orders, scope, i);
    }
    forall e | e in evaluations
      ensures exists o :: o in s.orders && e == EvaluationOf(IndexOf(s), o, s.baselineServices)
    {
      var i :| 0 <= i < |evaluations| && evaluations[i] == e;
      assert s.orders[i] in s.orders;
    }
    forall o | o in s.orders ensures EvaluationOf(IndexOf(s), o, s.baselineServices) in evaluations {
      var i :| 0 <= i < |s.orders| && s.orders[i] == o;
    }
  }
}
