/** The gate and the independent validator agree: for a well-formed snapshot the plans that
    pass validation are exactly the feasible plans over the gate's candidates. */
module Agreement {
  import opened Ordering
  import opened ReasonCodes
  import opened Snapshots
  import opened Eligibility
  import opened GateProperties
  import opened Plans
  import opened CpSat
  import opened AssignmentModel
  import opened BaselineSolve
  import opened Listing
  import opened PlanValidator

  // ---------------------------------------------------------------- rule by rule

  /** An order passes a service: every service-level condition, spelled out. */
  predicate PassesService(ix: Index, o: Order, v: Service) {
    && v.available
    && v.originTerminal in o.originTerminals && v.destinationTerminal in o.destinationTerminals
    && Handles(ix, v.originTerminal, o) && Handles(ix, v.destinationTerminal, o)
    && o.readyAt <= v.planningCutoffAt
    && v.arrivalAt + HandlingTime(ix, v) <= o.dueAt
    && (v.routeConstraint in ix.routes ==>
          && o.dimensions.height <= ix.routes[v.routeConstraint].maxHeight
          && o.dimensions.width <= ix.routes[v.routeConstraint].maxWidth
          && (o.grossWeight.Some? ==> o.grossWeight.value <= ix.routes[v.routeConstraint].maxWeight))
  }

  predicate PassesSlot(o: Order, b: Berth) {
    && b.wagon.available && b.slot.available
    && o.compatibilityTags <= b.slot.supportedTags
    && o.dimensions.height <= b.slot.maxDimensions.height
    && o.dimensions.width <= b.slot.maxDimensions.width
    && o.dimensions.length <= b.slot.maxDimensions.length
    && (o.grossWeight.Some? ==>
          o.grossWeight.value <= b.slot.maxWeight && o.grossWeight.value <= b.wagon.maxTotalWeight)
  }

  lemma ServiceCodesEmpty(ix: Index, o: Order, v: Service)
    ensures ServiceCodes(ix, o, v) == {} <==> PassesService(ix, o, v)
  {
    assert forall c :: c in ServiceCodes(ix, o, v) <==> ServiceViolates(ix, o, v, c);
    if PassesService(ix, o, v) {
      assert forall c :: !ServiceViolates(ix, o, v, c);
    } else {
      assert ServiceViolates(ix, o, v, ServiceUnavailable) || ServiceViolates(ix, o, v, TerminalNotOnServiceRoute)
             || ServiceViolates(ix, o, v, TerminalNotCompatible) || ServiceViolates(ix, o, v, ReadyAfterCutoff)
             || ServiceViolates(ix, o, v, DueTimeExceeded) || ServiceViolates(ix, o, v, TunnelHeightExceeded)
             || ServiceViolates(ix, o, v, RouteWidthExceeded) || ServiceViolates(ix, o, v, RouteWeightExceeded);
    }
  }

  lemma SlotCodesEmpty(o: Order, b: Berth)
    ensures SlotCodes(o, b) == {} <==> PassesSlot(o, b)
  {
    assert forall c :: c in SlotCodes(o, b) <==> SlotViolates(o, b, c);
    if PassesSlot(o, b) {
      assert forall c :: !SlotViolates(o, b, c);
    } else {
      assert SlotViolates(o, b, WagonUnavailable) || SlotViolates(o, b, SlotUnavailable)
             || SlotViolates(o, b, SlotTagNotSupported) || SlotViolates(o, b, SlotHeightExceeded)
             || SlotViolates(o, b, SlotWidthExceeded) || SlotViolates(o, b, SlotLengthExceeded)
             || SlotViolates(o, b, SlotWeightExceeded) || SlotViolates(o, b, WagonWeightExceeded);
    }
  }

  /** The validator breaks no rule on an assignment. */
  ghost predicate Clean(t: Tables, a: Assignment) {
    forall k :: !Breaks(t, a, k)
  }

  predicate ServiceChecks(t: Tables, o: Order, v: Service) {
    && v.available
    && v.originTerminal in o.originTerminals && v.destinationTerminal in o.destinationTerminals
    && CanHandle(t, v.originTerminal, o.compatibilityTags) && CanHandle(t, v.destinationTerminal, o.compatibilityTags)
    && o.readyAt <= v.planningCutoffAt && v.arrivalAt + Handling(t, v) <= o.dueAt
    && !RouteBroken(t, o, v)
  }

  predicate SlotChecks(o: Order, l: Slot) {
    && l.available
    && o.dimensions.height <= l.maxDimensions.height
    && o.dimensions.width <= l.maxDimensions.width
    && o.dimensions.length <= l.maxDimensions.length
    && WeightOrZero(o) <= l.maxWeight
    && o.compatibilityTags <= l.supportedTags
  }

  /** No broken rule, as one condition. */
  predicate PassesChecks(t: Tables, a: Assignment) {
    && Resolves(t, a)
    && var o, v, w, l := t.orders[a.order], t.services[a.service], t.wagons[a.wagon], t.slots[a.slot];
       && a.service in t.permitted
       && l.wagon == w.id && w.service == v.id
       && w.available
       && o.grossWeight.Some?
       && ServiceChecks(t, o, v)
       && SlotChecks(o, l)
  }

  lemma CleanIsPassing(t: Tables, a: Assignment)
    ensures Clean(t, a) <==> PassesChecks(t, a)
  {
    if Clean(t, a) {
      assert !Breaks(t, a, Reference) && !Breaks(t, a, ServiceScope) && !Breaks(t, a, Topology)
             && !Breaks(t, a, Availability) && !Breaks(t, a, Input) && !Breaks(t, a, TerminalCheck)
             && !Breaks(t, a, TimeCheck) && !Breaks(t, a, DimensionCheck) && !Breaks(t, a, WeightCheck)
             && !Breaks(t, a, TagCheck) && !Breaks(t, a, RouteCheck);
    }
  }

  /** On a known weight and a known route the two sides ask the same of a service. */
  lemma ServiceAgrees(t: Tables, ix: Index, o: Order, v: Service)
    requires t.terminals == ix.terminals && t.routes == ix.routes && v.routeConstraint in t.routes
    requires o.grossWeight.Some?
    ensures ServiceChecks(t, o, v) <==> ServiceCodes(ix, o, v) == {}
  {
    ServiceCodesEmpty(ix, o, v);
  }

  /** The gate's extra single-wagon check follows from the wagon's total. */
  lemma SlotAgrees(o: Order, b: Berth)
    requires o.grossWeight.Some?
    ensures SlotOpen(o, b) <==> SlotChecks(o, b.slot) && b.wagon.available && OrderWeight(o) <= b.wagon.maxTotalWeight
  {
    SlotCodesEmpty(o, b);
  }

  // ---------------------------------------------------------------- one assignment

  lemma ServiceInTable(s: Snapshot, service: Id)
    requires WellFormed(s) && service in ById(s.services, ServiceId)
    ensures var v := ById(s.services, ServiceId)[service];
            && v.id == service && v.departureAt < v.arrivalAt && v.planningCutoffAt <= v.departureAt
            && v.routeConstraint in ById(s.routes, RouteId)
  {
    var v := ById(s.services, ServiceId)[service];
    assert v in s.services;
    KnownInTable(v.routeConstraint, s.routes, RouteId);
  }

  lemma SlotInTable(s: Snapshot, slot: Id)
    requires IdsDistinct(s) && WagonsKnown(s)
    ensures slot in ById(s.slots, SlotId) <==> slot in BerthTable(s)
    ensures slot in BerthTable(s) ==> ById(s.slots, SlotId)[slot] == BerthTable(s)[slot].slot
    ensures slot in BerthTable(s) ==>
              var b := BerthTable(s)[slot];
              && b.slot.wagon == b.wagon.id && b.wagon.id in ById(s.wagons, WagonId)
              && ById(s.wagons, WagonId)[b.wagon.id] == b.wagon
  {
    if slot in BerthTable(s) {
      BerthFacts(s, slot);
    }
    if slot in ById(s.slots, SlotId) {
      var l := ById(s.slots, SlotId)[slot];
      var i :| 0 <= i < |s.slots| && s.slots[i] == l;
      assert Berths(s)[i] in Berths(s);
    }
  }

  /** Gate to validator: an offered candidate on a permitted service breaks no rule. */
  lemma OfferedPasses(s: Snapshot, allowed: seq<Id>, a: Assignment)
    requires WellFormed(s) && WagonsKnown(s) && Offers(s, a)
    requires a.service in TablesOf(s, allowed).permitted
    ensures PassesChecks(TablesOf(s, allowed), a)
  {
    var t, ix, o := TablesOf(s, allowed), IndexOf(s), OrderTable(s)[a.order];
    SlotInTable(s, a.slot);
    ServiceInTable(s, a.service);
    ServiceAgrees(t, ix, o, ix.services[a.service]);
    SlotAgrees(o, BerthTable(s)[a.slot]);
  }

  lemma ReadyBeforeDue(t: Tables, o: Order, v: Service)
    requires ServiceChecks(t, o, v) && v.planningCutoffAt <= v.departureAt < v.arrivalAt
    ensures o.readyAt < o.dueAt
  {
  }

  /** The validator's topology check names the gate's slot, wagon and service. */
  lemma WiredTables(s: Snapshot, allowed: seq<Id>, a: Assignment)
    requires IdsDistinct(s) && WagonsKnown(s) && PassesChecks(TablesOf(s, allowed), a)
    ensures a.slot in BerthTable(s)
    ensures var b := BerthTable(s)[a.slot];
            && b == Berth(TablesOf(s, allowed).wagons[a.wagon], TablesOf(s, allowed).slots[a.slot])
            && b.wagon.id == a.wagon && b.slot.id == a.slot && b.wagon.service == a.service
  {
    SlotInTable(s, a.slot);
    BerthFacts(s, a.slot);
    assert TablesOf(s, allowed).wagons == ById(s.wagons, WagonId);
    assert TablesOf(s, allowed).services == ById(s.services, ServiceId);
  }

  lemma PassingService(s: Snapshot, allowed: seq<Id>, a: Assignment)
    requires WellFormed(s) && WagonsKnown(s) && PassesChecks(TablesOf(s, allowed), a)
    ensures var o := OrderTable(s)[a.order];
            o.id == a.order && InputValid(o) && ServiceOpen(IndexOf(s), o, a.service)
  {
    var t, o := TablesOf(s, allowed), OrderTable(s)[a.order];
    ServiceInTable(s, a.service);
    ServiceAgrees(t, IndexOf(s), o, t.services[a.service]);
    ReadyBeforeDue(t, o, t.services[a.service]);
  }

  lemma PassingSlot(s: Snapshot, allowed: seq<Id>, a: Assignment)
    requires IdsDistinct(s) && WagonsKnown(s) && PassesChecks(TablesOf(s, allowed), a)
    requires Weight(BookOf(s), a.order) <= Capacity(BookOf(s), a.wagon)
    ensures a.slot in BerthTable(s) && SlotOpen(OrderTable(s)[a.order], BerthTable(s)[a.slot])
  {
    WiredTables(s, allowed, a);
    BookFigures(s, a.order, a.wagon);
    SlotAgrees(OrderTable(s)[a.order], BerthTable(s)[a.slot]);
  }

  /** Validator to gate. The intake and arrival checks give back ready-before-due, because a
      well-formed service closes intake before it leaves and leaves before it arrives. */
  lemma PassingIsOffered(s: Snapshot, allowed: seq<Id>, a: Assignment)
    requires WellFormed(s) && WagonsKnown(s) && PassesChecks(TablesOf(s, allowed), a)
    requires Weight(BookOf(s), a.order) <= Capacity(BookOf(s), a.wagon)
    ensures Offers(s, a)
  {
    PassingService(s, allowed, a);
    PassingSlot(s, allowed, a);
    WiredTables(s, allowed, a);
  }

  // ---------------------------------------------------------------- loads

  ghost predicate SameWeights(t: Tables, b: Book) {
    forall o :: o in t.orders ==> Weight(b, o) == WeightOrZero(t.orders[o])
  }

  lemma PlanJoins(front: seq<Assignment>, last: Assignment)
    ensures PlanOf(front + [last]) == PlanOf(front) + {last}
  {
    forall a ensures a in PlanOf(front + [last]) <==> a in PlanOf(front) + {last} {
      assert a in front + [last] <==> a in front || a == last;
    }
  }

  lemma PlanGrows(assignments: seq<Assignment>)
    requires assignments != [] && DistinctKeys(assignments, CandidateOrder)
    ensures var front, last := assignments[..|assignments| - 1], assignments[|assignments| - 1];
            && DistinctKeys(front, CandidateOrder) && last !in PlanOf(front)
            && PlanOf(assignments) == PlanOf(front) + {last}
            && (forall a :: a in front ==> a in assignments)
  {
    var front, last := assignments[..|assignments| - 1], assignments[|assignments| - 1];
    LastKeyIsNew(assignments, CandidateOrder);
    assert last in front ==> CandidateOrder(last) in ById(front, CandidateOrder);
    PlanJoins(front, last);
    assert assignments == front + [last];
  }

  lemma {:induction false} LoadedIsSum(t: Tables, b: Book, assignments: seq<Assignment>, wagon: Id)
    requires DistinctKeys(assignments, CandidateOrder) && SameWeights(t, b)
    requires forall a :: a in assignments ==> a.order in t.orders
    ensures Loaded(t, assignments, wagon) == Sum(b, Load(wagon), PlanOf(assignments))
    decreases |assignments|
  {
    if assignments == [] {
      assert PlanOf(assignments) == {};
    } else {
      var front, last := assignments[..|assignments| - 1], assignments[|assignments| - 1];
      PlanGrows(assignments);
      LoadedIsSum(t, b, front, wagon);
      SumAdd(b, Load(wagon), PlanOf(front), last);
    }
  }

  lemma WeightsAgree(s: Snapshot, allowed: seq<Id>)
    ensures SameWeights(TablesOf(s, allowed), BookOf(s))
  {
    forall o | o in OrderTable(s) ensures Weight(BookOf(s), o) == WeightOrZero(OrderTable(s)[o]) {
      BookFigures(s, o, "");
    }
  }

  // ---------------------------------------------------------------- outcomes

  lemma {:induction false} EvaluationAt(ix: Index, orders: seq<Order>, scope: Scope, i: nat)
    requires i < |orders|
    ensures |Evaluations(ix, orders, scope.default, scope.perOrder)| == |orders|
    ensures Evaluations(ix, orders, scope.default, scope.perOrder)[i]
              == EvaluationOf(ix, orders[i], ScopeFor(scope, orders[i]))
    decreases |orders|
  {
    EvaluationsLength(ix, orders[..|orders| - 1], scope);
    if i < |orders| - 1 {
      EvaluationAt(ix, orders[..|orders| - 1], scope, i);
    }
  }

  lemma EvaluationKeyAt(ix: Index, orders: seq<Order>, scope: Scope, i: nat)
    requires i < |orders|
    ensures |Evaluations(ix, orders, scope.default, scope.perOrder)| == |orders|
    ensures Evaluations(ix, orders, scope.default, scope.perOrder)[i].order == orders[i].id
  {
    EvaluationAt(ix, orders, scope, i);
  }

  lemma EvaluationKeys(ix: Index, orders: seq<Order>, scope: Scope)
    requires DistinctKeys(orders, OrderId)
    ensures DistinctKeys(Evaluations(ix, orders, scope.default, scope.perOrder), EvaluationOrder)
  {
    var evaluations := Evaluations(ix, orders, scope.default, scope.perOrder);
    EvaluationsLength(ix, orders, scope);
    forall i, j | 0 <= i < j < |evaluations|
      ensures EvaluationOrder(evaluations[i]) != EvaluationOrder(evaluations[j])
    {
      EvaluationKeyAt(ix, orders, scope, i);
      EvaluationKeyAt(ix, orders, scope, j);
      assert OrderId(orders[i]) != OrderId(orders[j]);
    }
  }

  lemma EvaluationOrderAt(s: Snapshot, scope: Scope, i: nat)
    requires WagonsKnown(s) && i < |s.orders|
    ensures |EvaluationsOf(s, scope)| == |s.orders| && EvaluationsOf(s, scope)[i].order == s.orders[i].id
  {
    EvaluationAt(IndexOf(s), s.orders, scope, i);
  }

  lemma OutcomeMembers(evaluations: seq<OrderEvaluation>, placed: set<Id>)
    ensures forall x :: x in Outcomes(evaluations, placed) <==>
                          exists e :: e in evaluations && x == OutcomeOf(e, placed)
  {
    var sorted := Sort(evaluations, EvaluationLeq);
    SameMultisetSameMembers(sorted, evaluations);
    forall x | exists e :: e in evaluations && x == OutcomeOf(e, placed) ensures x in Outcomes(evaluations, placed) {
      var e :| e in evaluations && x == OutcomeOf(e, placed);
      assert e in sorted;
      var i :| 0 <= i < |sorted| && sorted[i] == e;
      assert Outcomes(evaluations, placed)[i] == x;
    }
    forall x | x in Outcomes(evaluations, placed) ensures exists e :: e in evaluations && x == OutcomeOf(e, placed) {
      var i :| 0 <= i < |sorted| && Outcomes(evaluations, placed)[i] == x;
      assert sorted[i] in evaluations;
    }
  }

  lemma CandidateFits(s: Snapshot, scope: Scope, o: Order, a: Assignment)
    requires WellFormed(s) && WagonsKnown(s) && o in s.orders && o.id == a.order
    requires a in CandidatesOf(s, scope)
    ensures InputValid(o) && Fits(s, o, a) && a.service in ScopeFor(scope, o)
  {
    CandidatesMembers(s, scope, a);
    MemberIffCounted(a.service, ScopeFor(scope, o));
  }

  lemma OfferedIsEligible(s: Snapshot, scope: Scope, o: Order, a: Assignment)
    requires WellFormed(s) && WagonsKnown(s) && o in s.orders && o.id == a.order
    requires a in CandidatesOf(s, scope)
    ensures var e := EvaluationOf(IndexOf(s), o, ScopeFor(scope, o));
            e.inputState == Valid && e.eligibilityState == Eligible
  {
    CandidateFits(s, scope, o, a);
    CandidatesOfOrder(s, o, ScopeFor(scope, o), a);
  }

  lemma {:induction false} EvaluationsLength(ix: Index, orders: seq<Order>, scope: Scope)
    ensures |Evaluations(ix, orders, scope.default, scope.perOrder)| == |orders|
    decreases |orders|
  {
    if orders != [] {
      EvaluationsLength(ix, orders[..|orders| - 1], scope);
    }
  }

  lemma OutcomeConsistent(e: OrderEvaluation, placed: set<Id>)
    requires e.order in placed ==> e.inputState == Valid && e.eligibilityState == Eligible
    ensures !OutcomeBroken(placed, OutcomeOf(e, placed))
  {
  }

  lemma OfferedIsEligibleAt(s: Snapshot, scope: Scope, i: nat, a: Assignment)
    requires WellFormed(s) && WagonsKnown(s) && i < |s.orders| && s.orders[i].id == a.order
    requires a in CandidatesOf(s, scope)
    ensures i < |EvaluationsOf(s, scope)|
    ensures EvaluationsOf(s, scope)[i].inputState == Valid && EvaluationsOf(s, scope)[i].eligibilityState == Eligible
  {
    EvaluationAt(IndexOf(s), s.orders, scope, i);
    OfferedIsEligible(s, scope, s.orders[i], a);
  }

  lemma EvaluationConsistent(s: Snapshot, scope: Scope, assignments: seq<Assignment>, i: nat)
    requires WellFormed(s) && WagonsKnown(s) && i < |s.orders|
    requires forall a :: a in assignments ==> a in CandidatesOf(s, scope)
    ensures i < |EvaluationsOf(s, scope)|
    ensures !OutcomeBroken(OrdersOf(assignments), OutcomeOf(EvaluationsOf(s, scope)[i], OrdersOf(assignments)))
  {
    EvaluationOrderAt(s, scope, i);
    if s.orders[i].id in OrdersOf(assignments) {
      var a :| a in assignments && a.order == s.orders[i].id;
      OfferedIsEligibleAt(s, scope, i, a);
    }
    OutcomeConsistent(EvaluationsOf(s, scope)[i], OrdersOf(assignments));
  }

  lemma OrderEvaluated(s: Snapshot, scope: Scope, order: Id) returns (i: nat)
    requires WagonsKnown(s) && order in OrderTable(s)
    ensures i < |EvaluationsOf(s, scope)| && EvaluationsOf(s, scope)[i].order == order
  {
    var o := OrderTable(s)[order];
    i :| 0 <= i < |s.orders| && s.orders[i] == o;
    EvaluationOrderAt(s, scope, i);
  }

  lemma OutcomeInList(evaluations: seq<OrderEvaluation>, placed: set<Id>, i: nat)
    requires i < |evaluations|
    ensures exists x :: x in Outcomes(evaluations, placed) && x.order == evaluations[i].order
  {
    OutcomeMembers(evaluations, placed);
    assert OutcomeOf(evaluations[i], placed) in Outcomes(evaluations, placed);
  }

  lemma OutcomeSource(evaluations: seq<OrderEvaluation>, placed: set<Id>, x: OrderOutcome) returns (i: nat)
    requires x in Outcomes(evaluations, placed)
    ensures i < |evaluations| && x == OutcomeOf(evaluations[i], placed)
  {
    OutcomeMembers(evaluations, placed);
    var e :| e in evaluations && x == OutcomeOf(e, placed);
    i :| 0 <= i < |evaluations| && evaluations[i] == e;
  }

  lemma NoOutcomeBroken(s: Snapshot, scope: Scope, assignments: seq<Assignment>, x: OrderOutcome)
    requires WellFormed(s) && WagonsKnown(s)
    requires forall a :: a in assignments ==> a in CandidatesOf(s, scope)
    requires x in Outcomes(EvaluationsOf(s, scope), OrdersOf(assignments))
    ensures !OutcomeBroken(OrdersOf(assignments), x)
  {
    var i := OutcomeSource(EvaluationsOf(s, scope), OrdersOf(assignments), x);
    EvaluationsLength(IndexOf(s), s.orders, scope);
    EvaluationConsistent(s, scope, assignments, i);
  }

  /** A plan made of gate candidates is reported consistently. */
  lemma OutcomesConsistent(s: Snapshot, scope: Scope, assignments: seq<Assignment>)
    requires WellFormed(s) && WagonsKnown(s)
    requires forall a :: a in assignments ==> a in CandidatesOf(s, scope)
    ensures !OutcomesBroken(assignments, Outcomes(EvaluationsOf(s, scope), OrdersOf(assignments)))
  {
    forall x | x in Outcomes(EvaluationsOf(s, scope), OrdersOf(assignments))
      ensures !OutcomeBroken(OrdersOf(assignments), x)
    {
      NoOutcomeBroken(s, scope, assignments, x);
    }
    forall a | a in assignments
      ensures exists x :: x in Outcomes(EvaluationsOf(s, scope), OrdersOf(assignments)) && x.order == a.order
    {
      CandidatesMembers(s, scope, a);
      var i := OrderEvaluated(s, scope, a.order);
      OutcomeInList(EvaluationsOf(s, scope), OrdersOf(assignments), i);
    }
  }

  // ---------------------------------------------------------------- whole plans

  lemma NoRepeatedSlot(assignments: seq<Assignment>)
    requires DistinctKeys(assignments, CandidateOrder)
    ensures DistinctKeys(assignments, CandidateSlot) <==> OneOrderPerSlot(PlanOf(assignments))
  {
    if DistinctKeys(assignments, CandidateSlot) {
      forall c, d | c in PlanOf(assignments) && d in PlanOf(assignments) && c.slot == d.slot ensures c == d {
        SameKeySameRecord(assignments, CandidateSlot, c, d);
      }
    }
    if OneOrderPerSlot(PlanOf(assignments)) {
      forall i, j | 0 <= i < j < |assignments| ensures CandidateSlot(assignments[i]) != CandidateSlot(assignments[j]) {
        assert CandidateOrder(assignments[i]) != CandidateOrder(assignments[j]);
        assert assignments[i] in PlanOf(assignments) && assignments[j] in PlanOf(assignments);
      }
    }
  }

  lemma NoRepeatedOrder(assignments: seq<Assignment>)
    requires DistinctKeys(assignments, CandidateOrder)
    ensures OneSlotPerOrder(PlanOf(assignments))
  {
    forall c, d | c in PlanOf(assignments) && d in PlanOf(assignments) && c.order == d.order ensures c == d {
      SameKeySameRecord(assignments, CandidateOrder, c, d);
    }
  }

  lemma NoOverload(t: Tables, b: Book, assignments: seq<Assignment>)
    requires DistinctKeys(assignments, CandidateOrder) && SameWeights(t, b)
    requires forall a :: a in assignments ==> a.order in t.orders && a.wagon in t.wagons
    requires forall w :: w in t.wagons ==> Capacity(b, w) == t.wagons[w].maxTotalWeight
    ensures (forall w :: w in WagonsOf(assignments) ==> !Overloaded(t, assignments, w))
              <==> WithinCapacity(b, PlanOf(assignments))
  {
    forall w ensures Loaded(t, assignments, w) == Sum(b, Load(w), PlanOf(assignments)) {
      LoadedIsSum(t, b, assignments, w);
    }
    if WithinCapacity(b, PlanOf(assignments)) {
      forall w | w in WagonsOf(assignments) ensures !Overloaded(t, assignments, w) {
        var a :| a in assignments && a.wagon == w;
        assert a in PlanOf(assignments);
      }
    }
    if forall w :: w in WagonsOf(assignments) ==> !Overloaded(t, assignments, w) {
      forall c | c in PlanOf(assignments) ensures Sum(b, Load(c.wagon), PlanOf(assignments)) <= Capacity(b, c.wagon) {
        assert c.wagon in WagonsOf(assignments);
      }
    }
  }

  lemma FailsIsCollected(t: Tables, assignments: seq<Assignment>, outcomes: seq<OrderOutcome>, k: Check)
    ensures Fails(t, assignments, outcomes, k) <==>
              || (k == DuplicateOrder && RepeatsOrder(assignments))
              || (k == DuplicateSlot && RepeatsSlot(assignments))
              || (exists a :: a in assignments && Breaks(t, a, k))
              || (k == WagonCapacity && exists w :: w in WagonsOf(assignments) && Overloaded(t, assignments, w))
              || (k == OutcomeCheck && OutcomesBroken(assignments, outcomes))
  {
  }

  /** Legality, regrouped: the assignment-level rules, no repeats, no overload, consistent outcomes. */
  lemma LegalParts(t: Tables, assignments: seq<Assignment>, outcomes: seq<OrderOutcome>)
    ensures Legal(t, assignments, outcomes) <==>
              && (forall a :: a in assignments ==> PassesChecks(t, a))
              && DistinctKeys(assignments, CandidateOrder) && DistinctKeys(assignments, CandidateSlot)
              && (forall w :: w in WagonsOf(assignments) ==> !Overloaded(t, assignments, w))
              && !OutcomesBroken(assignments, outcomes)
  {
    forall a ensures Clean(t, a) <==> PassesChecks(t, a) {
      CleanIsPassing(t, a);
    }
    forall k ensures Fails(t, assignments, outcomes, k) <==>
              || (k == DuplicateOrder && RepeatsOrder(assignments))
              || (k == DuplicateSlot && RepeatsSlot(assignments))
              || (exists a :: a in assignments && Breaks(t, a, k))
              || (k == WagonCapacity && exists w :: w in WagonsOf(assignments) && Overloaded(t, assignments, w))
              || (k == OutcomeCheck && OutcomesBroken(assignments, outcomes))
    {
      FailsIsCollected(t, assignments, outcomes, k);
    }
    if Legal(t, assignments, outcomes) {
      assert !Fails(t, assignments, outcomes, DuplicateOrder) && !Fails(t, assignments, outcomes, DuplicateSlot);
      assert !Fails(t, assignments, outcomes, WagonCapacity) && !Fails(t, assignments, outcomes, OutcomeCheck);
      forall a | a in assignments ensures Clean(t, a) {
        forall k ensures !Breaks(t, a, k) {
          assert !Fails(t, assignments, outcomes, k);
        }
      }
    }
  }

  lemma BookMatchesTables(s: Snapshot, allowed: seq<Id>)
    ensures SameWeights(TablesOf(s, allowed), BookOf(s))
    ensures forall w :: w in TablesOf(s, allowed).wagons ==>
              Capacity(BookOf(s), w) == TablesOf(s, allowed).wagons[w].maxTotalWeight
  {
    WeightsAgree(s, allowed);
    forall w | w in ById(s.wagons, WagonId)
      ensures Capacity(BookOf(s), w) == ById(s.wagons, WagonId)[w].maxTotalWeight
    {
      BookFigures(s, "", w);
    }
  }

  ghost predicate Permits(s: Snapshot, scope: Scope, allowed: seq<Id>) {
    forall o, v :: o in s.orders && v in ScopeFor(scope, o) ==> v in TablesOf(s, allowed).permitted
  }

  lemma ListedPasses(s: Snapshot, scope: Scope, allowed: seq<Id>, a: Assignment)
    requires WellFormed(s) && WagonsKnown(s) && Permits(s, scope, allowed)
    requires a in CandidatesOf(s, scope)
    ensures PassesChecks(TablesOf(s, allowed), a)
  {
    CandidatesMembers(s, scope, a);
    MemberIffCounted(a.service, ScopeFor(scope, OrderTable(s)[a.order]));
    OfferedPasses(s, allowed, a);
  }

  /** Soundness of the gate and the model: a feasible plan, reported as the solver reports it,
      passes validation under any scope that covers the services the orders were given. */
  lemma FeasiblePlanIsLegal(s: Snapshot, scope: Scope, allowed: seq<Id>, assignments: seq<Assignment>)
    requires WellFormed(s) && WagonsKnown(s) && Permits(s, scope, allowed)
    requires DistinctKeys(assignments, CandidateOrder)
    requires Feasible(BookOf(s), Listed(CandidatesOf(s, scope)), PlanOf(assignments))
    ensures Legal(TablesOf(s, allowed), assignments, Outcomes(EvaluationsOf(s, scope), OrdersOf(assignments)))
  {
    var t, outcomes := TablesOf(s, allowed), Outcomes(EvaluationsOf(s, scope), OrdersOf(assignments));
    forall a | a in assignments ensures a in CandidatesOf(s, scope) && PassesChecks(t, a) {
      assert a in PlanOf(assignments);
      ListedPasses(s, scope, allowed, a);
    }
    BookMatchesTables(s, allowed);
    NoRepeatedSlot(assignments);
    NoOverload(t, BookOf(s), assignments);
    OutcomesConsistent(s, scope, assignments);
    LegalParts(t, assignments, outcomes);
  }

  function BaselineScope(s: Snapshot): Scope {
    Scope(s.baselineServices, map[])
  }

  lemma PassingIsListed(s: Snapshot, a: Assignment)
    requires WellFormed(s) && WagonsKnown(s) && PassesChecks(TablesOf(s, []), a)
    requires Weight(BookOf(s), a.order) <= Capacity(BookOf(s), a.wagon)
    ensures a in CandidatesOf(s, BaselineScope(s))
  {
    PassingIsOffered(s, [], a);
    CandidatesMembers(s, BaselineScope(s), a);
    MemberIffCounted(a.service, s.baselineServices);
  }

  lemma SingleWeightWithinLoad(b: Book, p: Plan, a: Candidate)
    requires a in p && WithinCapacity(b, p)
    ensures Weight(b, a.order) <= Capacity(b, a.wagon)
  {
    LoadBounds(b, a.wagon, p - {a}, p - {a});
    SumRemove(b, Load(a.wagon), p, a);
  }

  /** Completeness: what passes validation is feasible over the gate's candidates. */
  lemma LegalPlanIsFeasible(s: Snapshot, assignments: seq<Assignment>, outcomes: seq<OrderOutcome>)
    requires WellFormed(s) && WagonsKnown(s)
    requires Legal(TablesOf(s, []), assignments, outcomes)
    ensures DistinctKeys(assignments, CandidateOrder)
    ensures Feasible(BookOf(s), Listed(CandidatesOf(s, BaselineScope(s))), PlanOf(assignments))
  {
    var t, b, p := TablesOf(s, []), BookOf(s), PlanOf(assignments);
    LegalParts(t, assignments, outcomes);
    BookMatchesTables(s, []);
    NoOverload(t, b, assignments);
    NoRepeatedSlot(assignments);
    NoRepeatedOrder(assignments);
    forall a | a in p ensures a in CandidatesOf(s, BaselineScope(s)) {
      SingleWeightWithinLoad(b, p, a);
      PassingIsListed(s, a);
    }
  }

  /** The agreement: a list of assignments with its built outcomes passes the validator if and
      only if no order repeats and the plan is feasible over the gate's candidates. */
  lemma ValidatorAgreesWithGate(s: Snapshot, assignments: seq<Assignment>)
    requires WellFormed(s) && WagonsKnown(s)
    ensures Legal(TablesOf(s, []), assignments, Outcomes(EvaluationsOf(s, BaselineScope(s)), OrdersOf(assignments)))
       <==> DistinctKeys(assignments, CandidateOrder)
            && Feasible(BookOf(s), Listed(CandidatesOf(s, BaselineScope(s))), PlanOf(assignments))
  {
    var outcomes := Outcomes(EvaluationsOf(s, BaselineScope(s)), OrdersOf(assignments));
    if Legal(TablesOf(s, []), assignments, outcomes) {
      LegalPlanIsFeasible(s, assignments, outcomes);
    }
    if DistinctKeys(assignments, CandidateOrder)
       && Feasible(BookOf(s), Listed(CandidatesOf(s, BaselineScope(s))), PlanOf(assignments)) {
      FeasiblePlanIsLegal(s, BaselineScope(s), [], assignments);
    }
  }

  /** Validation and the solver's model give the same answer on a list of assignments. */
  ghost predicate AgreeOn(s: Snapshot, assignments: seq<Assignment>)
    requires WagonsKnown(s)
  {
    var cs := CandidatesOf(s, BaselineScope(s));
    var outcomes := Outcomes(EvaluationsOf(s, BaselineScope(s)), OrdersOf(assignments));
    (Legal(TablesOf(s, []), assignments, outcomes)
     <==> DistinctKeys(assignments, CandidateOrder)
          && Admits(Listed(cs), BaseConstraints(BookOf(s), cs), PlanOf(assignments)))
  }

  /** Every service that offers anybody a slot is listed once in the baseline. */
  ghost predicate OfferingServicesListedOnce(s: Snapshot)
    requires WagonsKnown(s)
  {
    forall c :: c in CandidatesOf(s, BaselineScope(s)) ==> multiset(s.baselineServices)[c.service] == 1
  }

  lemma ChoosableIfListed(s: Snapshot, c: Candidate)
    requires WellFormed(s) && WagonsKnown(s) && OfferingServicesListedOnce(s)
    ensures c in Choosable(CandidatesOf(s, BaselineScope(s))) <==> c in CandidatesOf(s, BaselineScope(s))
  {
    CandidatesMembers(s, BaselineScope(s), c);
  }

  lemma ChoosableWhenListedOnce(s: Snapshot)
    requires WellFormed(s) && WagonsKnown(s) && OfferingServicesListedOnce(s)
    ensures Choosable(CandidatesOf(s, BaselineScope(s))) == Listed(CandidatesOf(s, BaselineScope(s)))
  {
    forall c ensures c in Choosable(CandidatesOf(s, BaselineScope(s))) <==> c in CandidatesOf(s, BaselineScope(s)) {
      ChoosableIfListed(s, c);
    }
  }

  lemma AgreeWhenListedOnce(s: Snapshot, assignments: seq<Assignment>)
    requires WellFormed(s) && WagonsKnown(s) && OfferingServicesListedOnce(s)
    ensures AgreeOn(s, assignments)
  {
    ValidatorAgreesWithGate(s, assignments);
    ChoosableWhenListedOnce(s);
    ModelMeaning(BookOf(s), CandidatesOf(s, BaselineScope(s)), PlanOf(assignments));
  }

  lemma SingletonFeasible(b: Book, candidates: set<Candidate>, c: Candidate)
    requires c in candidates && Weight(b, c.order) <= Capacity(b, c.wagon)
    ensures Feasible(b, candidates, {c})
  {
    EmptyPlanFeasible(b, candidates);
    JoinFeasible(b, candidates, {}, c);
    assert {} + {c} == {c};
  }

  lemma ListedAlone(s: Snapshot, c: Candidate)
    requires WellFormed(s) && WagonsKnown(s) && c in CandidatesOf(s, BaselineScope(s))
    ensures Feasible(BookOf(s), Listed(CandidatesOf(s, BaselineScope(s))), {c})
    ensures c in Choosable(CandidatesOf(s, BaselineScope(s))) <==> multiset(s.baselineServices)[c.service] == 1
  {
    CandidatesMembers(s, BaselineScope(s), c);
    OfferedFacts(s, c);
    SingletonFeasible(BookOf(s), Listed(CandidatesOf(s, BaselineScope(s))), c);
  }

  /** A candidate on a repeated service passes validation on its own, and the model refuses it. */
  lemma RepeatedServiceIsShutOut(s: Snapshot, c: Candidate, assignments: seq<Assignment>)
    requires WellFormed(s) && WagonsKnown(s)
    requires c in CandidatesOf(s, BaselineScope(s)) && multiset(s.baselineServices)[c.service] != 1
    requires DistinctKeys(assignments, CandidateOrder) && PlanOf(assignments) == {c}
    ensures !AgreeOn(s, assignments)
  {
    ListedAlone(s, c);
    ValidatorAgreesWithGate(s, assignments);
    ModelMeaning(BookOf(s), CandidatesOf(s, BaselineScope(s)), PlanOf(assignments));
  }

  lemma OneAssignment(c: Candidate) returns (assignments: seq<Assignment>)
    ensures DistinctKeys(assignments, CandidateOrder) && PlanOf(assignments) == {c}
  {
    assignments := [c];
  }

  /** The solver's model admits exactly the validated plans if and only if no service that
      offers a slot is repeated in the baseline list. */
  lemma ValidatorAgreesWithModel(s: Snapshot)
    requires WellFormed(s) && WagonsKnown(s)
    ensures (forall assignments :: AgreeOn(s, assignments)) <==> OfferingServicesListedOnce(s)
  {
    if OfferingServicesListedOnce(s) {
      forall assignments ensures AgreeOn(s, assignments) {
        AgreeWhenListedOnce(s, assignments);
      }
    } else {
      var c :| c in CandidatesOf(s, BaselineScope(s)) && multiset(s.baselineServices)[c.service] != 1;
      var assignments := OneAssignment(c);
      RepeatedServiceIsShutOut(s, c, assignments);
    }
  }
}
