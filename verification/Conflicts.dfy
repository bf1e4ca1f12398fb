/** Whether a CAPACITY_CONFLICT that is shown to the operator is one. */
module Conflicts {
  import opened Ordering
  import opened ReasonCodes
  import opened Snapshots
  import opened Eligibility
  import opened GateProperties
  import opened Plans
  import opened AssignmentModel
  import opened BaselineSolve
  import opened Listing
  import opened Agreement
  import opened ChangeSets
  import opened DerivedScenario

  /** The result leaves the order out although it was eligible: the shown reason is
      CAPACITY_CONFLICT. */
  ghost predicate ReportsConflict(r: SolveResult, order: Id) {
    exists x :: x in r.outcomes && ShowsConflict(x, order)
  }

  predicate ShowsConflict(x: OrderOutcome, order: Id) {
    x.order == order && x.assignmentState == Unassigned && x.primary == Because(CapacityConflict)
  }

  /** The candidate's slot is taken, or its wagon has no room for the order. */
  ghost predicate Blocked(b: Book, p: Plan, c: Candidate) {
    Taken(p, c.slot) || Sum(b, Load(c.wagon), p) + Weight(b, c.order) > Capacity(b, c.wagon)
  }

  /** A plan the solver reported, with its first stage proved. */
  ghost predicate MostPlaced(s: Snapshot, scope: Scope, r: SolveResult)
    requires WagonsKnown(s)
  {
    && Sound(BookOf(s), EvaluationsOf(s, scope), r) && r.status != SolverError
    && MostOrders(BookOf(s), Choosable(CandidatesOf(s, scope)), PlanOf(r.assignments))
  }

  lemma ConflictIsUnplaced(evaluations: seq<OrderEvaluation>, p: Plan, r: SolveResult, order: Id)
    requires Reports(r, evaluations, p) && ReportsConflict(r, order)
    ensures !Plans.Holds(p, order)
  {
    var x :| x in r.outcomes && ShowsConflict(x, order);
    var i := OutcomeSource(evaluations, OrdersIn(p), x);
    assert order !in OrdersIn(p);
  }

  /** How often the candidate's service is listed for its order. */
  ghost function Times(s: Snapshot, scope: Scope, c: Candidate): nat {
    if c.order in OrderTable(s) then TimesScoped(s, scope, c) else 0
  }

  /** A service that is listed once for one order offering it is listed once for every other. */
  ghost predicate ListedAlike(s: Snapshot, scope: Scope)
    requires WagonsKnown(s)
  {
    forall c, d :: c in CandidatesOf(s, scope) && d in CandidatesOf(s, scope) && c.service == d.service ==>
      (Times(s, scope, c) == 1 <==> Times(s, scope, d) == 1)
  }

  lemma ListedOnceIsBlocked(s: Snapshot, scope: Scope, r: SolveResult, c: Candidate)
    requires WellFormed(s) && WagonsKnown(s) && MostPlaced(s, scope, r)
    requires c in CandidatesOf(s, scope) && ReportsConflict(r, c.order) && Times(s, scope, c) == 1
    ensures Blocked(BookOf(s), PlanOf(r.assignments), c)
  {
    var p := PlanOf(r.assignments);
    ConflictIsUnplaced(EvaluationsOf(s, scope), p, r, c.order);
    CandidatesMembers(s, scope, c);
    LeftOutMeansBlocked(BookOf(s), Choosable(CandidatesOf(s, scope)), p, c);
  }

  /** Nobody is placed on a service that is listed more than once for everyone. */
  lemma NobodyOnRepeated(s: Snapshot, scope: Scope, p: Plan, c: Candidate)
    requires WellFormed(s) && WagonsKnown(s) && ListedAlike(s, scope)
    requires p <= Choosable(CandidatesOf(s, scope))
    requires c in CandidatesOf(s, scope) && Times(s, scope, c) != 1
    ensures !Taken(p, c.slot)
    ensures forall d :: d in p ==> d.wagon != c.wagon
  {
    CandidatesMembers(s, scope, c);
    forall d | d in p ensures d.slot != c.slot && d.wagon != c.wagon {
      CandidatesMembers(s, scope, d);
      assert d in CandidatesOf(s, scope) && Times(s, scope, d) == 1;
      ServicesSeparate(s, c, d);
    }
  }

  lemma RepeatedIsFree(s: Snapshot, scope: Scope, p: Plan, c: Candidate)
    requires WellFormed(s) && WagonsKnown(s) && ListedAlike(s, scope)
    requires p <= Choosable(CandidatesOf(s, scope))
    requires c in CandidatesOf(s, scope) && Times(s, scope, c) != 1
    ensures !Blocked(BookOf(s), p, c)
  {
    NobodyOnRepeated(s, scope, p, c);
    LoadOfForeignWagon(BookOf(s), c.wagon, p);
    CandidatesMembers(s, scope, c);
    OfferedFacts(s, c);
  }

  /** A candidate of an order shown as a conflict is blocked if and only if its service is listed
      once. On a repeated service the slot is free and the wagon empty. */
  lemma ConflictIff(s: Snapshot, scope: Scope, r: SolveResult, c: Candidate)
    requires WellFormed(s) && WagonsKnown(s) && ListedAlike(s, scope) && MostPlaced(s, scope, r)
    requires c in CandidatesOf(s, scope) && ReportsConflict(r, c.order)
    ensures Blocked(BookOf(s), PlanOf(r.assignments), c) <==> Times(s, scope, c) == 1
  {
    if Times(s, scope, c) == 1 {
      ListedOnceIsBlocked(s, scope, r, c);
    } else {
      RepeatedIsFree(s, scope, PlanOf(r.assignments), c);
    }
  }

  // ---------------------------------------------------------------- the baseline

  lemma BaselineTimes(s: Snapshot, c: Candidate)
    requires WellFormed(s) && WagonsKnown(s) && c in CandidatesOf(s, BaselineScope(s))
    ensures Times(s, BaselineScope(s), c) == multiset(s.baselineServices)[c.service]
  {
    CandidatesMembers(s, BaselineScope(s), c);
  }

  lemma BaselineListsAlike(s: Snapshot)
    requires WellFormed(s) && WagonsKnown(s)
    ensures ListedAlike(s, BaselineScope(s))
  {
    forall c | c in CandidatesOf(s, BaselineScope(s))
      ensures Times(s, BaselineScope(s), c) == multiset(s.baselineServices)[c.service]
    {
      BaselineTimes(s, c);
    }
  }

  /** The exact condition for a baseline run: the service stands once in the baseline list. */
  lemma BaselineConflictIff(s: Snapshot, r: SolveResult, c: Candidate)
    requires WellFormed(s) && WagonsKnown(s) && MostPlaced(s, BaselineScope(s), r)
    requires c in CandidatesOf(s, BaselineScope(s)) && ReportsConflict(r, c.order)
    ensures Blocked(BookOf(s), PlanOf(r.assignments), c) <==> multiset(s.baselineServices)[c.service] == 1
  {
    BaselineListsAlike(s);
    BaselineTimes(s, c);
    ConflictIff(s, BaselineScope(s), r, c);
  }

  /** Every conflict shown is real. */
  ghost predicate ConflictsReal(s: Snapshot, r: SolveResult)
    requires WagonsKnown(s)
  {
    forall c :: c in CandidatesOf(s, BaselineScope(s)) && ReportsConflict(r, c.order) ==>
      Blocked(BookOf(s), PlanOf(r.assignments), c)
  }

  /** A baseline run reports honestly if and only if no order shown as a conflict was offered a
      slot by a repeated service. */
  lemma ConflictsRealIff(s: Snapshot, r: SolveResult)
    requires WellFormed(s) && WagonsKnown(s) && MostPlaced(s, BaselineScope(s), r)
    ensures ConflictsReal(s, r) <==>
              forall c :: c in CandidatesOf(s, BaselineScope(s)) && ReportsConflict(r, c.order) ==>
                multiset(s.baselineServices)[c.service] == 1
  {
    forall c | c in CandidatesOf(s, BaselineScope(s)) && ReportsConflict(r, c.order)
      ensures Blocked(BookOf(s), PlanOf(r.assignments), c) <==> multiset(s.baselineServices)[c.service] == 1
    {
      BaselineConflictIff(s, r, c);
    }
  }

  lemma UnplacedIsReported(evaluations: seq<OrderEvaluation>, p: Plan, r: SolveResult, e: OrderEvaluation)
    requires Reports(r, evaluations, p) && e in evaluations && e.inputState == Valid && e.eligibilityState == Eligible
    requires forall a :: a in p ==> a.order != e.order
    ensures ReportsConflict(r, e.order)
  {
    assert e.order !in OrdersIn(p);
    OutcomeMembers(evaluations, OrdersIn(p));
    assert OutcomeOf(e, OrdersIn(p)) in r.outcomes;
    assert ShowsConflict(OutcomeOf(e, OrdersIn(p)), e.order);
  }

  /** An eligible order that only repeated services offer a slot is always shown as a conflict,
      and never is one: each of its slots is free and each wagon has room. */
  lemma RepeatedServicesFakeConflict(s: Snapshot, r: SolveResult, e: OrderEvaluation)
    requires WellFormed(s) && WagonsKnown(s) && MostPlaced(s, BaselineScope(s), r)
    requires e in EvaluationsOf(s, BaselineScope(s)) && e.inputState == Valid && e.eligibilityState == Eligible
    requires forall c :: c in CandidatesOf(s, BaselineScope(s)) && c.order == e.order ==>
               multiset(s.baselineServices)[c.service] != 1
    ensures ReportsConflict(r, e.order)
    ensures forall c :: c in CandidatesOf(s, BaselineScope(s)) && c.order == e.order ==>
              !Blocked(BookOf(s), PlanOf(r.assignments), c)
  {
    var p := PlanOf(r.assignments);
    forall a | a in p ensures a.order != e.order {
      CandidatesMembers(s, BaselineScope(s), a);
    }
    UnplacedIsReported(EvaluationsOf(s, BaselineScope(s)), p, r, e);
    forall c | c in CandidatesOf(s, BaselineScope(s)) && c.order == e.order ensures !Blocked(BookOf(s), p, c) {
      BaselineConflictIff(s, r, c);
    }
  }

  // ---------------------------------------------------------------- a derived scenario

  lemma DerivedTimes(s: Snapshot, scenarioId: Id, orderId: Id, changes: seq<Change>, c: Candidate)
    requires Derivable(s, scenarioId, orderId, changes)
    requires c in CandidatesOf(Derived(s, scenarioId, orderId, changes), DerivedScope(s, orderId, changes))
    ensures Times(Derived(s, scenarioId, orderId, changes), DerivedScope(s, orderId, changes), c)
         == if c.service in s.baselineServices then multiset(s.baselineServices)[c.service] else 1
  {
    CandidatesMembers(Derived(s, scenarioId, orderId, changes), DerivedScope(s, orderId, changes), c);
    DerivedOrders(s, scenarioId, orderId, changes);
    ScopedTimes(s, scenarioId, orderId, changes, c);
    MemberIffCounted(c.service, s.baselineServices);
  }

  lemma DerivedListsAlike(s: Snapshot, scenarioId: Id, orderId: Id, changes: seq<Change>)
    requires Derivable(s, scenarioId, orderId, changes)
    ensures ListedAlike(Derived(s, scenarioId, orderId, changes), DerivedScope(s, orderId, changes))
  {
    var d, scope := Derived(s, scenarioId, orderId, changes), DerivedScope(s, orderId, changes);
    forall c | c in CandidatesOf(d, scope)
      ensures Times(d, scope, c)
           == if c.service in s.baselineServices then multiset(s.baselineServices)[c.service] else 1
    {
      DerivedTimes(s, scenarioId, orderId, changes, c);
    }
  }

  /** The same in a derived scenario: an opened service is listed once, so only a service the
      baseline repeats can fake a conflict. */
  lemma DerivedConflictIff(s: Snapshot, scenarioId: Id, orderId: Id, changes: seq<Change>, r: SolveResult, c: Candidate)
    requires Derivable(s, scenarioId, orderId, changes)
    requires MostPlaced(Derived(s, scenarioId, orderId, changes), DerivedScope(s, orderId, changes), r)
    requires c in CandidatesOf(Derived(s, scenarioId, orderId, changes), DerivedScope(s, orderId, changes))
    requires ReportsConflict(r, c.order)
    ensures Blocked(BookOf(s), PlanOf(r.assignments), c) <==> multiset(s.baselineServices)[c.service] <= 1
  {
    DerivedListsAlike(s, scenarioId, orderId, changes);
    DerivedTimes(s, scenarioId, orderId, changes, c);
    ConflictIff(Derived(s, scenarioId, orderId, changes), DerivedScope(s, orderId, changes), r, c);
    DerivedBook(s, scenarioId, orderId, changes);
    MemberIffCounted(c.service, s.baselineServices);
  }
}
