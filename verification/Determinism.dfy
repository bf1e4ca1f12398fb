/** Reproducibility: a fully optimal run is fixed by the snapshot's contents. Neither the
    engine behind the solver nor the order of the snapshot's lists can show in its result. */
module Determinism {
  import opened Ordering
  import opened ReasonCodes
  import opened Snapshots
  import opened Eligibility
  import opened GateProperties
  import opened Plans
  import opened AssignmentModel
  import opened BaselineSolve
  import opened Listing
  import opened Agreement
  import opened Hashing
  import opened Planning

  // ---------------------------------------------------------------- one snapshot, two solvers

  lemma SamePlanSameAssignments(a: seq<Assignment>, b: seq<Assignment>)
    requires StrictlyIncreasing(a, CandidateOrder) && StrictlyIncreasing(b, CandidateOrder)
    requires PlanOf(a) == PlanOf(b)
    ensures a == b
  {
    forall t ensures t in a <==> t in b {
      assert t in PlanOf(a) <==> t in PlanOf(b);
    }
    IncreasingUnique(a, b, CandidateOrder);
  }

  /** Any two solvers that keep the oracle contract report the same optimal result. */
  lemma OptimalResultsAgree(book: Book, evaluations: seq<OrderEvaluation>, a: SolveResult, b: SolveResult)
    requires Sound(book, evaluations, a) && Sound(book, evaluations, b)
    requires a.isOptimal && b.isOptimal && a.status == b.status == SolverOptimal
    ensures a.assignments == b.assignments && a.outcomes == b.outcomes
    ensures NormaliseResult(a.assignments, a.outcomes) == NormaliseResult(b.assignments, b.outcomes)
  {
    BestUnique(book, Choosable(AllCandidates(evaluations)), PlanOf(a.assignments), PlanOf(b.assignments));
    SamePlanSameAssignments(a.assignments, b.assignments);
  }

  // ---------------------------------------------------------------- reordered snapshots

  ghost predicate Reordered(s: Snapshot, t: Snapshot) {
    && multiset(s.baselineServices) == multiset(t.baselineServices)
    && multiset(s.terminals) == multiset(t.terminals)
    && multiset(s.routes) == multiset(t.routes)
    && multiset(s.services) == multiset(t.services)
    && multiset(s.wagons) == multiset(t.wagons)
    && multiset(s.slots) == multiset(t.slots)
    && multiset(s.orders) == multiset(t.orders)
    && s.asOf == t.asOf && s.policy == t.policy
  }

  /** What a snapshot's lists come to once they are lookup tables. */
  ghost predicate SameTables(s: Snapshot, t: Snapshot)
    requires WagonsKnown(s) && WagonsKnown(t)
  {
    && OrderTable(s) == OrderTable(t)
    && ById(s.wagons, WagonId) == ById(t.wagons, WagonId)
    && IndexOf(s).terminals == IndexOf(t).terminals
    && IndexOf(s).routes == IndexOf(t).routes
    && IndexOf(s).services == IndexOf(t).services
    && BerthTable(s) == BerthTable(t)
    && (forall b :: b in Berths(s) <==> b in Berths(t))
  }

  lemma SameRecordsSameTable<T(!new)>(a: seq<T>, b: seq<T>, key: T -> Id)
    requires multiset(a) == multiset(b) && DistinctKeys(a, key)
    ensures DistinctKeys(b, key) && ById(a, key) == ById(b, key)
  {
    SameMultisetSameMembers(a, b);
    KeysStayDistinct(a, b, key);
    TablesAgree(a, b, key);
  }

  lemma SameBerthMembers(s: Snapshot, t: Snapshot)
    requires WagonsKnown(s) && WagonsKnown(t)
    requires forall l :: l in s.slots ==> l in t.slots
    requires ById(s.wagons, WagonId) == ById(t.wagons, WagonId)
    ensures forall b :: b in Berths(s) ==> b in Berths(t)
  {
    forall b | b in Berths(s) ensures b in Berths(t) {
      var i :| 0 <= i < |s.slots| && Berths(s)[i] == b;
      assert s.slots[i] in t.slots;
      var j :| 0 <= j < |t.slots| && t.slots[j] == s.slots[i];
      assert Berths(t)[j] == b;
    }
  }

  lemma ReorderedBerths(s: Snapshot, t: Snapshot)
    requires WagonsKnown(s) && WagonsKnown(t)
    requires multiset(s.slots) == multiset(t.slots) && DistinctKeys(s.slots, SlotId) && DistinctKeys(t.slots, SlotId)
    requires ById(s.wagons, WagonId) == ById(t.wagons, WagonId)
    ensures BerthTable(s) == BerthTable(t)
    ensures forall b :: b in Berths(s) <==> b in Berths(t)
  {
    SameMultisetSameMembers(s.slots, t.slots);
    SameBerthMembers(s, t);
    SameBerthMembers(t, s);
    BerthsDistinct(s);
    BerthsDistinct(t);
    TablesAgree(Berths(s), Berths(t), BerthSlot);
  }

  lemma ReorderedTables(s: Snapshot, t: Snapshot)
    requires WagonsKnown(s) && WagonsKnown(t) && IdsDistinct(s) && IdsDistinct(t) && Reordered(s, t)
    ensures SameTables(s, t)
  {
    SameRecordsSameTable(s.orders, t.orders, OrderId);
    SameRecordsSameTable(s.wagons, t.wagons, WagonId);
    SameRecordsSameTable(s.terminals, t.terminals, TerminalId);
    SameRecordsSameTable(s.routes, t.routes, RouteId);
    SameRecordsSameTable(s.services, t.services, ServiceId);
    ReorderedBerths(s, t);
  }

  // ---------------------------------------------------------------- the gate on reordered lists

  ghost predicate SameIndex(ix: Index, jx: Index) {
    && ix.terminals == jx.terminals && ix.routes == jx.routes && ix.services == jx.services
    && forall v, b :: b in BerthsOn(ix, v) <==> b in BerthsOn(jx, v)
  }

  lemma SameTablesSameIndex(s: Snapshot, t: Snapshot)
    requires WagonsKnown(s) && WagonsKnown(t) && DistinctKeys(s.slots, SlotId) && DistinctKeys(t.slots, SlotId)
    requires SameTables(s, t)
    ensures SameIndex(IndexOf(s), IndexOf(t))
  {
    forall v, b ensures b in BerthsOn(IndexOf(s), v) <==> b in BerthsOn(IndexOf(t), v) {
      BerthsOnService(s, v);
      BerthsOnService(t, v);
    }
  }

  lemma ServiceCodesAlike(ix: Index, jx: Index, o: Order, v: Service)
    requires ix.terminals == jx.terminals && ix.routes == jx.routes
    ensures ServiceCodes(ix, o, v) == ServiceCodes(jx, o, v)
  {
    forall c ensures ServiceViolates(ix, o, v, c) <==> ServiceViolates(jx, o, v, c) {
    }
  }

  lemma OpenAlike(ix: Index, jx: Index, o: Order, service: Id)
    requires SameIndex(ix, jx)
    ensures ServiceOpen(ix, o, service) <==> ServiceOpen(jx, o, service)
  {
    if service in ix.services {
      ServiceCodesAlike(ix, jx, o, ix.services[service]);
    }
  }

  lemma RefusedAlike(ix: Index, jx: Index, o: Order, service: Id, c: Code)
    requires SameIndex(ix, jx)
    ensures ServiceRefuses(ix, o, service, c) <==> ServiceRefuses(jx, o, service, c)
  {
    OpenAlike(ix, jx, o, service);
    if service in ix.services {
      ServiceCodesAlike(ix, jx, o, ix.services[service]);
      assert c in ServiceCodes(ix, o, ix.services[service]) <==> ServiceViolates(ix, o, ix.services[service], c);
    }
  }

  lemma RefusalsAlike(ix: Index, jx: Index, o: Order, a: seq<Id>, b: seq<Id>)
    requires SameIndex(ix, jx) && forall v :: v in a <==> v in b
    ensures Refusals(ix, o, a) == Refusals(jx, o, b)
  {
    forall c ensures c in Refusals(ix, o, a) <==> c in Refusals(jx, o, b) {
      RefusesByMember(ix, o, a, c);
      RefusesByMember(jx, o, b, c);
      forall v ensures ServiceRefuses(ix, o, v, c) <==> ServiceRefuses(jx, o, v, c) {
        RefusedAlike(ix, jx, o, v, c);
      }
    }
  }

  lemma FitsInBoth(s: Snapshot, t: Snapshot, o: Order, c: Candidate)
    requires WagonsKnown(s) && WagonsKnown(t) && SameTables(s, t) && SameIndex(IndexOf(s), IndexOf(t))
    ensures Fits(s, o, c) <==> Fits(t, o, c)
  {
    OpenAlike(IndexOf(s), IndexOf(t), o, c.service);
  }

  lemma EmptyAlike(s: Snapshot, t: Snapshot, o: Order, a: seq<Id>, b: seq<Id>)
    requires WagonsKnown(s) && WagonsKnown(t) && SameTables(s, t) && SameIndex(IndexOf(s), IndexOf(t))
    requires DistinctKeys(s.slots, SlotId) && DistinctKeys(t.slots, SlotId)
    requires forall v :: v in a <==> v in b
    ensures CandidatesOver(IndexOf(s), o, a) == [] <==> CandidatesOver(IndexOf(t), o, b) == []
  {
    forall c ensures c in CandidatesOver(IndexOf(s), o, a) <==> c in CandidatesOver(IndexOf(t), o, b) {
      CandidateMembers(s, o, a, c);
      CandidateMembers(t, o, b, c);
      FitsInBoth(s, t, o, c);
    }
    SameEmptiness(CandidatesOver(IndexOf(s), o, a), CandidatesOver(IndexOf(t), o, b));
  }

  lemma VerdictFrom(ix: Index, jx: Index, o: Order, a: seq<Id>, b: seq<Id>)
    requires CandidatesOver(ix, o, a) == [] <==> CandidatesOver(jx, o, b) == []
    requires Refusals(ix, o, a) == Refusals(jx, o, b)
    ensures EvaluationOf(ix, o, a).(candidates := []) == EvaluationOf(jx, o, b).(candidates := [])
  {
  }

  /** The verdict on an order does not depend on how anything is listed. */
  lemma VerdictAlike(s: Snapshot, t: Snapshot, o: Order, a: seq<Id>, b: seq<Id>)
    requires WagonsKnown(s) && WagonsKnown(t) && IdsDistinct(s) && IdsDistinct(t) && SameTables(s, t)
    requires forall v :: v in a <==> v in b
    ensures EvaluationOf(IndexOf(s), o, a).(candidates := []) == EvaluationOf(IndexOf(t), o, b).(candidates := [])
  {
    SameTablesSameIndex(s, t);
    EmptyAlike(s, t, o, a, b);
    RefusalsAlike(IndexOf(s), IndexOf(t), o, a, b);
    VerdictFrom(IndexOf(s), IndexOf(t), o, a, b);
  }

  // ---------------------------------------------------------------- what the solver sees

  /** Both snapshots are well-formed and list the same things. */
  ghost predicate Rearranged(s: Snapshot, t: Snapshot) {
    && WellFormed(s) && WellFormed(t) && WagonsKnown(s) && WagonsKnown(t)
    && Reordered(s, t)
  }

  lemma SameChoice(s: Snapshot, t: Snapshot, c: Candidate)
    requires Rearranged(s, t) && SameTables(s, t) && SameIndex(IndexOf(s), IndexOf(t))
    ensures c in Choosable(CandidatesOf(s, BaselineScope(s))) <==> c in Choosable(CandidatesOf(t, BaselineScope(t)))
  {
    CandidatesMembers(s, BaselineScope(s), c);
    CandidatesMembers(t, BaselineScope(t), c);
    if c.order in OrderTable(s) {
      FitsInBoth(s, t, OrderTable(s)[c.order], c);
    }
  }

  lemma SameChoices(s: Snapshot, t: Snapshot)
    requires Rearranged(s, t)
    ensures Choosable(CandidatesOf(s, BaselineScope(s))) == Choosable(CandidatesOf(t, BaselineScope(t)))
  {
    ReorderedTables(s, t);
    SameTablesSameIndex(s, t);
    forall c
      ensures c in Choosable(CandidatesOf(s, BaselineScope(s))) <==> c in Choosable(CandidatesOf(t, BaselineScope(t)))
    {
      SameChoice(s, t, c);
    }
  }

  lemma SameBook(s: Snapshot, t: Snapshot)
    requires WagonsKnown(s) && WagonsKnown(t) && SameTables(s, t) && s.asOf == t.asOf && s.policy == t.policy
    ensures BookOf(s) == BookOf(t)
  {
    assert ById(s.orders, OrderId) == OrderTable(s) == OrderTable(t) == ById(t.orders, OrderId);
  }

  // ---------------------------------------------------------------- outcomes

  /** Outcomes come in text order, one per order. */
  lemma OutcomesIncrease(evaluations: seq<OrderEvaluation>, placed: set<Id>)
    requires DistinctKeys(evaluations, EvaluationOrder)
    ensures StrictlyIncreasing(Outcomes(evaluations, placed), OutcomeOrder)
  {
    SortByDistinctKey(evaluations, EvaluationOrder, EvaluationLeq);
    var sorted, outcomes := Sort(evaluations, EvaluationLeq), Outcomes(evaluations, placed);
    forall i, j | 0 <= i < j < |outcomes| ensures Less(OutcomeOrder(outcomes[i]), OutcomeOrder(outcomes[j])) {
      assert Less(EvaluationOrder(sorted[i]), EvaluationOrder(sorted[j]));
    }
  }

  lemma OutcomeIgnoresCandidates(e: OrderEvaluation, f: OrderEvaluation, placed: set<Id>)
    requires e.(candidates := []) == f.(candidates := [])
    ensures OutcomeOf(e, placed) == OutcomeOf(f, placed)
  {
  }

  lemma VerdictCarriesOver(s: Snapshot, t: Snapshot, o: Order)
    requires Rearranged(s, t)
    ensures EvaluationOf(IndexOf(s), o, s.baselineServices).(candidates := [])
         == EvaluationOf(IndexOf(t), o, t.baselineServices).(candidates := [])
  {
    ReorderedTables(s, t);
    SameMultisetSameMembers(s.baselineServices, t.baselineServices);
    VerdictAlike(s, t, o, s.baselineServices, t.baselineServices);
  }

  lemma BaselineEvaluationAt(s: Snapshot, i: nat)
    requires WagonsKnown(s) && i < |s.orders|
    ensures |EvaluationsOf(s, BaselineScope(s))| == |s.orders|
    ensures EvaluationsOf(s, BaselineScope(s))[i] == EvaluationOf(IndexOf(s), s.orders[i], s.baselineServices)
  {
    EvaluationAt(IndexOf(s), s.orders, BaselineScope(s), i);
  }

  lemma OrderMoved(s: Snapshot, t: Snapshot, i: nat) returns (j: nat)
    requires Rearranged(s, t) && i < |s.orders|
    ensures j < |t.orders| && t.orders[j] == s.orders[i]
  {
    SameMultisetSameMembers(s.orders, t.orders);
    assert s.orders[i] in t.orders;
    j :| 0 <= j < |t.orders| && t.orders[j] == s.orders[i];
  }

  lemma OutcomeCarriesOver(s: Snapshot, t: Snapshot, placed: set<Id>, i: nat)
    requires Rearranged(s, t) && i < |EvaluationsOf(s, BaselineScope(s))|
    ensures OutcomeOf(EvaluationsOf(s, BaselineScope(s))[i], placed)
            in Outcomes(EvaluationsOf(t, BaselineScope(t)), placed)
  {
    EvaluationsLength(IndexOf(s), s.orders, BaselineScope(s));
    var j := OrderMoved(s, t, i);
    BaselineEvaluationAt(s, i);
    BaselineEvaluationAt(t, j);
    VerdictCarriesOver(s, t, s.orders[i]);
    OutcomeIgnoresCandidates(EvaluationsOf(s, BaselineScope(s))[i], EvaluationsOf(t, BaselineScope(t))[j], placed);
    OutcomeMembers(EvaluationsOf(t, BaselineScope(t)), placed);
  }

  lemma OutcomesCarryOver(s: Snapshot, t: Snapshot, placed: set<Id>)
    requires Rearranged(s, t)
    ensures forall x :: x in Outcomes(EvaluationsOf(s, BaselineScope(s)), placed) ==>
              x in Outcomes(EvaluationsOf(t, BaselineScope(t)), placed)
  {
    forall x | x in Outcomes(EvaluationsOf(s, BaselineScope(s)), placed)
      ensures x in Outcomes(EvaluationsOf(t, BaselineScope(t)), placed)
    {
      var i := OutcomeSource(EvaluationsOf(s, BaselineScope(s)), placed, x);
      OutcomeCarriesOver(s, t, placed, i);
    }
  }

  lemma ReorderedBack(s: Snapshot, t: Snapshot)
    requires Rearranged(s, t)
    ensures Rearranged(t, s)
  {
  }

  lemma SameOutcomes(s: Snapshot, t: Snapshot, placed: set<Id>)
    requires Rearranged(s, t)
    ensures Outcomes(EvaluationsOf(s, BaselineScope(s)), placed) == Outcomes(EvaluationsOf(t, BaselineScope(t)), placed)
  {
    ReorderedBack(s, t);
    OutcomesCarryOver(s, t, placed);
    OutcomesCarryOver(t, s, placed);
    EvaluationKeys(IndexOf(s), s.orders, BaselineScope(s));
    EvaluationKeys(IndexOf(t), t.orders, BaselineScope(t));
    OutcomesIncrease(EvaluationsOf(s, BaselineScope(s)), placed);
    OutcomesIncrease(EvaluationsOf(t, BaselineScope(t)), placed);
    IncreasingUnique(Outcomes(EvaluationsOf(s, BaselineScope(s)), placed),
                     Outcomes(EvaluationsOf(t, BaselineScope(t)), placed), OutcomeOrder);
  }

  /** Reordering any list of the snapshot leaves an optimal run's assignments, states and
      hashed form exactly as they were. */
  lemma OrderOfListsIsIrrelevant(s: Snapshot, t: Snapshot, a: Run, b: Run)
    requires Rearranged(s, t)
    requires Backed(s, BaselineScope(s), a) && Backed(t, BaselineScope(t), b)
    requires a.isOptimal && b.isOptimal && a.status == b.status == SolverOptimal
    ensures a.assignments == b.assignments && a.outcomes == b.outcomes
    ensures NormaliseResult(a.assignments, a.outcomes) == NormaliseResult(b.assignments, b.outcomes)
  {
    var p, q := PlanOf(a.assignments), PlanOf(b.assignments);
    ReorderedTables(s, t);
    SameChoices(s, t);
    SameBook(s, t);
    BestUnique(BookOf(s), Choosable(CandidatesOf(s, BaselineScope(s))), p, q);
    SamePlanSameAssignments(a.assignments, b.assignments);
    SameOutcomes(s, t, OrdersIn(p));
  }
}
