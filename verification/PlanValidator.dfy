/** The independent re-check of a solved plan, derived from the snapshot without the gate. */
module PlanValidator {
  import opened Ordering
  import opened Snapshots
  import opened Eligibility
  import opened BaselineSolve

  datatype Check =
    | DuplicateOrder | DuplicateSlot | Reference | ServiceScope | Topology | Availability
    | Input | TerminalCheck | TimeCheck | DimensionCheck | WeightCheck | TagCheck | RouteCheck
    | WagonCapacity | OutcomeCheck

  datatype Finding = Finding(check: Check, order: Option<Id>)

  datatype PlanValidation = PlanValidation(pass: bool, findings: seq<Finding>)

  datatype Tables = Tables(
    orders: map<Id, Order>,
    terminals: map<Id, Terminal>,
    routes: map<Id, RouteConstraint>,
    services: map<Id, Service>,
    wagons: map<Id, Wagon>,
    slots: map<Id, Slot>,
    permitted: set<Id>)

  /** An empty scope falls back to the baseline services, as an absent one does. */
  function TablesOf(s: Snapshot, allowed: seq<Id>): Tables {
    var scope := if allowed == [] then s.baselineServices else allowed;
    Tables(
      ById(s.orders, OrderId),
      ById(s.terminals, TerminalId),
      ById(s.routes, RouteId),
      ById(s.services, ServiceId),
      ById(s.wagons, WagonId),
      ById(s.slots, SlotId),
      set v | v in scope)
  }

  // ---------------------------------------------------------------- the rules

  predicate Resolves(t: Tables, a: Assignment) {
    a.order in t.orders && a.service in t.services && a.wagon in t.wagons && a.slot in t.slots
  }

  predicate CanHandle(t: Tables, terminal: Id, tags: set<Tag>) {
    terminal in t.terminals && tags <= t.terminals[terminal].supportedTags
  }

  function Handling(t: Tables, v: Service): int {
    (if v.destinationTerminal in t.terminals
     then t.terminals[v.destinationTerminal].minimumHandlingMinutes else 0) * MICROSECONDS_PER_MINUTE
  }

  function WeightOrZero(o: Order): nat {
    if o.grossWeight.Some? then o.grossWeight.value else 0
  }

  predicate RouteBroken(t: Tables, o: Order, v: Service) {
    || v.routeConstraint !in t.routes
    || o.dimensions.height > t.routes[v.routeConstraint].maxHeight
    || o.dimensions.width > t.routes[v.routeConstraint].maxWidth
    || WeightOrZero(o) > t.routes[v.routeConstraint].maxWeight
  }

  /** The rules one assignment can break. */
  predicate Breaks(t: Tables, a: Assignment, k: Check) {
    if !Resolves(t, a) then k == Reference
    else
      var o, v, w, l := t.orders[a.order], t.services[a.service], t.wagons[a.wagon], t.slots[a.slot];
      match k
      case ServiceScope => a.service !in t.permitted
      case Topology => l.wagon != w.id || w.service != v.id
      case Availability => !v.available || !w.available || !l.available
      case Input => o.grossWeight.None?
      case TerminalCheck =>
        || v.originTerminal !in o.originTerminals || v.destinationTerminal !in o.destinationTerminals
        || !CanHandle(t, v.originTerminal, o.compatibilityTags)
        || !CanHandle(t, v.destinationTerminal, o.compatibilityTags)
      case TimeCheck => o.readyAt > v.planningCutoffAt || v.arrivalAt + Handling(t, v) > o.dueAt
      case DimensionCheck =>
        || o.dimensions.height > l.maxDimensions.height
        || o.dimensions.width > l.maxDimensions.width
        || o.dimensions.length > l.maxDimensions.length
      case WeightCheck => WeightOrZero(o) > l.maxWeight
      case TagCheck => !(o.compatibilityTags <= l.supportedTags)
      case RouteCheck => RouteBroken(t, o, v)
      case _ => false
  }

  ghost predicate RepeatsOrder(assignments: seq<Assignment>) {
    !DistinctKeys(assignments, CandidateOrder)
  }

  ghost predicate RepeatsSlot(assignments: seq<Assignment>) {
    !DistinctKeys(assignments, CandidateSlot)
  }

  /** What the assignments load onto one wagon. */
  function Loaded(t: Tables, assignments: seq<Assignment>, wagon: Id): nat {
    if assignments == [] then 0
    else
      var last := assignments[|assignments| - 1];
      Loaded(t, assignments[..|assignments| - 1], wagon)
      + (if last.order in t.orders && last.wagon == wagon then WeightOrZero(t.orders[last.order]) else 0)
  }

  predicate Overloaded(t: Tables, assignments: seq<Assignment>, wagon: Id) {
    wagon in t.wagons && Loaded(t, assignments, wagon) > t.wagons[wagon].maxTotalWeight
  }

  predicate OutcomeBroken(assignedIds: set<Id>, o: OrderOutcome) {
    var held := o.order in assignedIds;
    || (held && o.assignmentState != Assigned)
    || (!held && o.assignmentState == Assigned)
    || (held && o.eligibilityState != Eligible)
    || (held && o.inputState == ReviewRequired)
  }

  function OrdersOf(assignments: seq<Assignment>): set<Id> {
    set a | a in assignments :: a.order
  }

  ghost predicate OutcomesBroken(assignments: seq<Assignment>, outcomes: seq<OrderOutcome>) {
    || (exists o :: o in outcomes && OutcomeBroken(OrdersOf(assignments), o))
    || (exists a :: a in assignments && forall o :: o in outcomes ==> o.order != a.order)
  }

  /** Which checks a plan fails. */
  ghost predicate Fails(t: Tables, assignments: seq<Assignment>, outcomes: seq<OrderOutcome>, k: Check) {
    match k
    case DuplicateOrder => RepeatsOrder(assignments)
    case DuplicateSlot => RepeatsSlot(assignments)
    case WagonCapacity => exists w :: w in WagonsOf(assignments) && Overloaded(t, assignments, w)
    case OutcomeCheck => OutcomesBroken(assignments, outcomes)
    case _ => exists a :: a in assignments && Breaks(t, a, k)
  }

  ghost predicate Legal(t: Tables, assignments: seq<Assignment>, outcomes: seq<OrderOutcome>) {
    forall k :: !Fails(t, assignments, outcomes, k)
  }

  /** An earlier assignment has the same key as the one at `j`. */
  ghost predicate RepeatAt(assignments: seq<Assignment>, key: Candidate -> Id, j: nat) {
    j < |assignments| && exists i :: 0 <= i < j && key(assignments[i]) == key(assignments[j])
  }

  /** A repeat among the first `n` assignments, named by the order that comes second. */
  ghost predicate Repeated(assignments: seq<Assignment>, n: nat, f: Finding) {
    || (f.check == DuplicateOrder
        && exists j: nat :: j < n && RepeatAt(assignments, CandidateOrder, j) && f.order == Some(assignments[j].order))
    || (f.check == DuplicateSlot
        && exists j: nat :: j < n && RepeatAt(assignments, CandidateSlot, j) && f.order == Some(assignments[j].order))
  }

  ghost predicate RuleFinding(t: Tables, a: Assignment, f: Finding) {
    f.order == Some(a.order) && Breaks(t, a, f.check)
  }

  ghost predicate SomeOverloaded(t: Tables, assignments: seq<Assignment>) {
    exists w :: w in WagonsOf(assignments) && Overloaded(t, assignments, w)
  }

  ghost predicate Reported(outcomes: seq<OrderOutcome>, id: Id) {
    exists o :: o in outcomes && o.order == id
  }

  /** The order's outcome contradicts the assignments, or it is assigned and has none. */
  ghost predicate OutcomeFault(assignments: seq<Assignment>, outcomes: seq<OrderOutcome>, id: Id) {
    || (exists o :: o in outcomes && o.order == id && OutcomeBroken(OrdersOf(assignments), o))
    || (id in OrdersOf(assignments) && !Reported(outcomes, id))
  }

  ghost predicate OutcomeFinding(assignments: seq<Assignment>, outcomes: seq<OrderOutcome>, f: Finding) {
    f.check == OutcomeCheck && f.order.Some? && OutcomeFault(assignments, outcomes, f.order.value)
  }

  /** The findings a plan deserves: a check it fails, with the order that fails it. */
  ghost predicate Deserves(t: Tables, assignments: seq<Assignment>, outcomes: seq<OrderOutcome>, f: Finding) {
    || Repeated(assignments, |assignments|, f)
    || (exists a :: a in assignments && RuleFinding(t, a, f))
    || (f == Finding(WagonCapacity, None) && SomeOverloaded(t, assignments))
    || OutcomeFinding(assignments, outcomes, f)
  }

  // ---------------------------------------------------------------- the findings as a list

  /** One finding when a rule is broken. */
  function When(broken: bool, check: Check, order: Id): seq<Finding> {
    if broken then [Finding(check, Some(order))] else []
  }

  /** The repeats, in the order of the assignments that come second. */
  function RepeatList(assignments: seq<Assignment>): seq<Finding> {
    if assignments == [] then []
    else
      var front, last := assignments[..|assignments| - 1], assignments[|assignments| - 1];
      RepeatList(front)
      + (When(last.order in OrdersOf(front), DuplicateOrder, last.order)
         + When(last.slot in SlotsOf(front), DuplicateSlot, last.order))
  }

  function ResourceList(t: Tables, a: Assignment): seq<Finding>
    requires Resolves(t, a)
  {
    var o, v, w, l := t.orders[a.order], t.services[a.service], t.wagons[a.wagon], t.slots[a.slot];
    When(a.service !in t.permitted, ServiceScope, a.order)
    + When(l.wagon != w.id || w.service != v.id, Topology, a.order)
    + When(!(v.available && w.available && l.available), Availability, a.order)
    + When(o.grossWeight.None?, Input, a.order)
  }

  /** Each end of the leg is off the order's list, and each end cannot handle its tags. */
  function TerminalList(t: Tables, a: Assignment): seq<Finding>
    requires Resolves(t, a)
  {
    var o, v := t.orders[a.order], t.services[a.service];
    When(v.originTerminal !in o.originTerminals, TerminalCheck, a.order)
    + When(v.destinationTerminal !in o.destinationTerminals, TerminalCheck, a.order)
    + When(!CanHandle(t, v.originTerminal, o.compatibilityTags), TerminalCheck, a.order)
    + When(!CanHandle(t, v.destinationTerminal, o.compatibilityTags), TerminalCheck, a.order)
  }

  function TimeList(t: Tables, a: Assignment): seq<Finding>
    requires Resolves(t, a)
  {
    var o, v := t.orders[a.order], t.services[a.service];
    When(o.readyAt > v.planningCutoffAt, TimeCheck, a.order)
    + When(v.arrivalAt + Handling(t, v) > o.dueAt, TimeCheck, a.order)
  }

  function SizeList(t: Tables, a: Assignment): seq<Finding>
    requires Resolves(t, a)
  {
    var o, l := t.orders[a.order], t.slots[a.slot];
    When(o.dimensions.height > l.maxDimensions.height, DimensionCheck, a.order)
    + When(o.dimensions.width > l.maxDimensions.width, DimensionCheck, a.order)
    + When(o.dimensions.length > l.maxDimensions.length, DimensionCheck, a.order)
  }

  /** A service without a route says so once and is measured no further. */
  function RouteList(t: Tables, a: Assignment): seq<Finding>
    requires Resolves(t, a)
  {
    var o, v := t.orders[a.order], t.services[a.service];
    if v.routeConstraint !in t.routes then [Finding(RouteCheck, Some(a.order))]
    else
      var route := t.routes[v.routeConstraint];
      When(o.dimensions.height > route.maxHeight, RouteCheck, a.order)
      + When(o.dimensions.width > route.maxWidth, RouteCheck, a.order)
      + When(WeightOrZero(o) > route.maxWeight, RouteCheck, a.order)
  }

  function DimensionList(t: Tables, a: Assignment): seq<Finding>
    requires Resolves(t, a)
  {
    var o, l := t.orders[a.order], t.slots[a.slot];
    SizeList(t, a)
    + When(WeightOrZero(o) > l.maxWeight, WeightCheck, a.order)
    + When(!(o.compatibilityTags <= l.supportedTags), TagCheck, a.order)
    + RouteList(t, a)
  }

  function AssignmentList(t: Tables, a: Assignment): seq<Finding> {
    if !Resolves(t, a) then [Finding(Reference, Some(a.order))]
    else ResourceList(t, a) + TerminalList(t, a) + TimeList(t, a) + DimensionList(t, a)
  }

  function RuleList(t: Tables, assignments: seq<Assignment>): seq<Finding> {
    if assignments == [] then []
    else
      RuleList(t, assignments[..|assignments| - 1]) + AssignmentList(t, assignments[|assignments| - 1])
  }

  ghost function OverloadedWagons(t: Tables, assignments: seq<Assignment>): set<Id> {
    Heavy(t, assignments, WagonsOf(assignments))
  }

  /** One finding per overloaded wagon; which wagon stands only in the message. */
  ghost function CapacityList(t: Tables, assignments: seq<Assignment>): seq<Finding> {
    Overloads(|OverloadedWagons(t, assignments)|)
  }

  function ContradictionList(assignedIds: set<Id>, o: OrderOutcome): seq<Finding> {
    var held := o.order in assignedIds;
    When(held && o.assignmentState != Assigned, OutcomeCheck, o.order)
    + When(!held && o.assignmentState == Assigned, OutcomeCheck, o.order)
    + When(held && o.eligibilityState != Eligible, OutcomeCheck, o.order)
    + When(o.inputState == ReviewRequired && held, OutcomeCheck, o.order)
  }

  function ContradictionsList(assignedIds: set<Id>, outcomes: seq<OrderOutcome>): seq<Finding> {
    if outcomes == [] then []
    else
      ContradictionsList(assignedIds, outcomes[..|outcomes| - 1])
      + ContradictionList(assignedIds, outcomes[|outcomes| - 1])
  }

  /** The assigned orders without an outcome, each once, in text order. */
  ghost predicate ListsUnreported(assignments: seq<Assignment>, outcomes: seq<OrderOutcome>, ids: seq<Id>) {
    && StrictlyIncreasing(ids, Self)
    && forall id :: id in ids <==> id in OrdersOf(assignments) && !Reported(outcomes, id)
  }

  function Unreported(ids: seq<Id>): (r: seq<Finding>)
    ensures |r| == |ids| && forall i :: 0 <= i < |r| ==> r[i] == Finding(OutcomeCheck, Some(ids[i]))
  {
    seq(|ids|, i requires 0 <= i < |ids| => Finding(OutcomeCheck, Some(ids[i])))
  }

  ghost predicate OutcomeList(assignments: seq<Assignment>, outcomes: seq<OrderOutcome>, findings: seq<Finding>) {
    exists ids :: ListsUnreported(assignments, outcomes, ids)
                  && findings == ContradictionsList(OrdersOf(assignments), outcomes) + Unreported(ids)
  }

  /** Every finding as often as its rule is broken, in the order of the checks. */
  ghost predicate PlanList(t: Tables, assignments: seq<Assignment>, outcomes: seq<OrderOutcome>,
                           findings: seq<Finding>) {
    exists last :: OutcomeList(assignments, outcomes, last)
                   && findings == RepeatList(assignments) + RuleList(t, assignments)
                                  + CapacityList(t, assignments) + last
  }

  lemma RepeatsAreRepeats(assignments: seq<Assignment>, key: Candidate -> Id)
    ensures !DistinctKeys(assignments, key) <==> exists j: nat :: RepeatAt(assignments, key, j)
  {
    if !DistinctKeys(assignments, key) {
      var i, j :| 0 <= i < j < |assignments| && key(assignments[i]) == key(assignments[j]);
      assert RepeatAt(assignments, key, j);
    }
  }

  lemma OutcomesBrokenIff(assignments: seq<Assignment>, outcomes: seq<OrderOutcome>)
    ensures OutcomesBroken(assignments, outcomes) <==> exists id :: OutcomeFault(assignments, outcomes, id)
  {
    if exists o :: o in outcomes && OutcomeBroken(OrdersOf(assignments), o) {
      var o :| o in outcomes && OutcomeBroken(OrdersOf(assignments), o);
      assert OutcomeFault(assignments, outcomes, o.order);
    }
    if exists a :: a in assignments && forall o :: o in outcomes ==> o.order != a.order {
      var a :| a in assignments && forall o :: o in outcomes ==> o.order != a.order;
      assert OutcomeFault(assignments, outcomes, a.order);
    }
    if exists id :: OutcomeFault(assignments, outcomes, id) {
      var id :| OutcomeFault(assignments, outcomes, id);
      if id in OrdersOf(assignments) && !Reported(outcomes, id) {
        var a :| a in assignments && a.order == id;
        assert forall o :: o in outcomes ==> o.order != a.order;
      }
    }
  }

  lemma FailedDuplicates(t: Tables, assignments: seq<Assignment>, outcomes: seq<OrderOutcome>, k: Check)
    requires k == DuplicateOrder || k == DuplicateSlot
    ensures Fails(t, assignments, outcomes, k) <==>
              exists f: Finding :: f.check == k && Repeated(assignments, |assignments|, f)
  {
    var key := if k == DuplicateOrder then CandidateOrder else CandidateSlot;
    RepeatsAreRepeats(assignments, key);
    if exists j: nat :: RepeatAt(assignments, key, j) {
      var j: nat :| RepeatAt(assignments, key, j);
      assert Repeated(assignments, |assignments|, Finding(k, Some(assignments[j].order)));
    }
  }

  lemma FailedRules(t: Tables, assignments: seq<Assignment>, k: Check)
    ensures (exists a :: a in assignments && Breaks(t, a, k)) <==>
              exists f: Finding, a :: f.check == k && a in assignments && RuleFinding(t, a, f)
  {
    if exists a :: a in assignments && Breaks(t, a, k) {
      var a :| a in assignments && Breaks(t, a, k);
      assert RuleFinding(t, a, Finding(k, Some(a.order)));
    }
  }

  /** A check fails exactly when some finding of it is deserved. */
  lemma FailsIsDeserved(t: Tables, assignments: seq<Assignment>, outcomes: seq<OrderOutcome>, k: Check)
    ensures Fails(t, assignments, outcomes, k) <==>
              exists f: Finding :: f.check == k && Deserves(t, assignments, outcomes, f)
  {
    match k
    case DuplicateOrder => FailedRepeats(t, assignments, outcomes, k);
    case DuplicateSlot => FailedRepeats(t, assignments, outcomes, k);
    case WagonCapacity => FailedCapacity(t, assignments, outcomes);
    case OutcomeCheck => FailedOutcomes(t, assignments, outcomes);
    case _ => FailedRule(t, assignments, outcomes, k);
  }

  lemma FailedRepeats(t: Tables, assignments: seq<Assignment>, outcomes: seq<OrderOutcome>, k: Check)
    requires k == DuplicateOrder || k == DuplicateSlot
    ensures Fails(t, assignments, outcomes, k) <==>
              exists f: Finding :: f.check == k && Deserves(t, assignments, outcomes, f)
  {
    FailedDuplicates(t, assignments, outcomes, k);
  }

  lemma FailedCapacity(t: Tables, assignments: seq<Assignment>, outcomes: seq<OrderOutcome>)
    ensures SomeOverloaded(t, assignments) <==>
              exists f: Finding :: f.check == WagonCapacity && Deserves(t, assignments, outcomes, f)
  {
    assert SomeOverloaded(t, assignments) ==> Deserves(t, assignments, outcomes, Finding(WagonCapacity, None));
  }

  lemma FailedRule(t: Tables, assignments: seq<Assignment>, outcomes: seq<OrderOutcome>, k: Check)
    requires k !in {DuplicateOrder, DuplicateSlot, WagonCapacity, OutcomeCheck}
    ensures (exists a :: a in assignments && Breaks(t, a, k)) <==>
              exists f: Finding :: f.check == k && Deserves(t, assignments, outcomes, f)
  {
    FailedRules(t, assignments, k);
  }

  lemma FailedOutcomes(t: Tables, assignments: seq<Assignment>, outcomes: seq<OrderOutcome>)
    ensures OutcomesBroken(assignments, outcomes) <==>
              exists f: Finding :: f.check == OutcomeCheck && Deserves(t, assignments, outcomes, f)
  {
    OutcomesBrokenIff(assignments, outcomes);
    forall id | OutcomeFault(assignments, outcomes, id)
      ensures Deserves(t, assignments, outcomes, Finding(OutcomeCheck, Some(id)))
    {
      assert OutcomeFinding(assignments, outcomes, Finding(OutcomeCheck, Some(id)));
    }
  }

  lemma LegalMeansNothingDeserved(t: Tables, assignments: seq<Assignment>, outcomes: seq<OrderOutcome>)
    ensures Legal(t, assignments, outcomes) <==> forall f: Finding :: !Deserves(t, assignments, outcomes, f)
  {
    forall f | Deserves(t, assignments, outcomes, f) ensures Fails(t, assignments, outcomes, f.check) {
      FailsIsDeserved(t, assignments, outcomes, f.check);
    }
    forall k | Fails(t, assignments, outcomes, k) ensures exists f: Finding :: Deserves(t, assignments, outcomes, f) {
      FailsIsDeserved(t, assignments, outcomes, k);
    }
  }

  // ---------------------------------------------------------------- what the list says

  function SlotsOf(assignments: seq<Assignment>): set<Id> {
    set a | a in assignments :: a.slot
  }

  function WagonsOf(assignments: seq<Assignment>): set<Id> {
    set a | a in assignments :: a.wagon
  }

  lemma LastRepeats(assignments: seq<Assignment>)
    requires assignments != []
    ensures var n := |assignments| - 1;
            && (RepeatAt(assignments, CandidateOrder, n) <==> assignments[n].order in OrdersOf(assignments[..n]))
            && (RepeatAt(assignments, CandidateSlot, n) <==> assignments[n].slot in SlotsOf(assignments[..n]))
  {
    var n := |assignments| - 1;
    forall i | 0 <= i < n
      ensures assignments[i].order in OrdersOf(assignments[..n]) && assignments[i].slot in SlotsOf(assignments[..n])
    {
      assert assignments[..n][i] == assignments[i];
    }
  }

  lemma RepeatAtInFront(assignments: seq<Assignment>, key: Candidate -> Id, n: nat, j: nat)
    requires j < n <= |assignments|
    ensures RepeatAt(assignments[..n], key, j) <==> RepeatAt(assignments, key, j)
  {
    assert forall i :: 0 <= i < n ==> assignments[..n][i] == assignments[i];
  }

  lemma RepeatedInFront(assignments: seq<Assignment>, n: nat, f: Finding)
    requires n <= |assignments|
    ensures Repeated(assignments[..n], n, f) <==> Repeated(assignments, n, f)
  {
    forall j: nat | j < n
      ensures RepeatAt(assignments[..n], CandidateOrder, j) <==> RepeatAt(assignments, CandidateOrder, j)
      ensures RepeatAt(assignments[..n], CandidateSlot, j) <==> RepeatAt(assignments, CandidateSlot, j)
      ensures assignments[..n][j] == assignments[j]
    {
      RepeatAtInFront(assignments, CandidateOrder, n, j);
      RepeatAtInFront(assignments, CandidateSlot, n, j);
    }
  }

  lemma {:induction false} RepeatListMeans(assignments: seq<Assignment>, f: Finding)
    ensures f in RepeatList(assignments) <==> Repeated(assignments, |assignments|, f)
  {
    if assignments != [] {
      var n := |assignments| - 1;
      RepeatListMeans(assignments[..n], f);
      RepeatedInFront(assignments, n, f);
      LastRepeats(assignments);
      RepeatsGrow(assignments, n, f);
    }
  }

  lemma RepeatsGrow(assignments: seq<Assignment>, n: nat, f: Finding)
    requires n < |assignments|
    ensures Repeated(assignments, n + 1, f) <==>
              || Repeated(assignments, n, f)
              || (RepeatAt(assignments, CandidateOrder, n) && f == Finding(DuplicateOrder, Some(assignments[n].order)))
              || (RepeatAt(assignments, CandidateSlot, n) && f == Finding(DuplicateSlot, Some(assignments[n].order)))
  {
  }

  lemma ResourceListMeans(t: Tables, a: Assignment, f: Finding)
    requires Resolves(t, a)
    ensures f in ResourceList(t, a) <==>
              f.check in {ServiceScope, Topology, Availability, Input} && RuleFinding(t, a, f)
  {
  }

  lemma TerminalListMeans(t: Tables, a: Assignment, f: Finding)
    requires Resolves(t, a)
    ensures f in TerminalList(t, a) <==> f.check == TerminalCheck && RuleFinding(t, a, f)
  {
  }

  lemma TimeListMeans(t: Tables, a: Assignment, f: Finding)
    requires Resolves(t, a)
    ensures f in TimeList(t, a) <==> f.check == TimeCheck && RuleFinding(t, a, f)
  {
  }

  lemma SizeListMeans(t: Tables, a: Assignment, f: Finding)
    requires Resolves(t, a)
    ensures f in SizeList(t, a) <==> f.check == DimensionCheck && RuleFinding(t, a, f)
  {
  }

  lemma RouteListMeans(t: Tables, a: Assignment, f: Finding)
    requires Resolves(t, a)
    ensures f in RouteList(t, a) <==> f.check == RouteCheck && RuleFinding(t, a, f)
  {
  }

  lemma DimensionListMeans(t: Tables, a: Assignment, f: Finding)
    requires Resolves(t, a)
    ensures f in DimensionList(t, a) <==>
              f.check in {DimensionCheck, WeightCheck, TagCheck, RouteCheck} && RuleFinding(t, a, f)
  {
    SizeListMeans(t, a, f);
    RouteListMeans(t, a, f);
  }

  /** Which rules an assignment breaks, however often each is noted. */
  lemma AssignmentListMeans(t: Tables, a: Assignment, f: Finding)
    ensures f in AssignmentList(t, a) <==> RuleFinding(t, a, f)
  {
    if Resolves(t, a) {
      ResourceListMeans(t, a, f);
      TerminalListMeans(t, a, f);
      TimeListMeans(t, a, f);
      DimensionListMeans(t, a, f);
    }
  }

  lemma ListIsRules(t: Tables, a: Assignment)
    ensures forall f :: f in AssignmentList(t, a) <==> RuleFinding(t, a, f)
  {
    forall f {
      AssignmentListMeans(t, a, f);
    }
  }

  /** The findings on one assignment, check by check, on the records themselves. */
  lemma ResourceFindingsRead(t: Tables, a: Assignment)
    requires Resolves(t, a)
    ensures var o, v, w, l := t.orders[a.order], t.services[a.service], t.wagons[a.wagon], t.slots[a.slot];
            var found := AssignmentList(t, a);
            && (Finding(ServiceScope, Some(a.order)) in found <==> a.service !in t.permitted)
            && (Finding(Topology, Some(a.order)) in found <==> l.wagon != w.id || w.service != v.id)
            && (Finding(Availability, Some(a.order)) in found <==> !v.available || !w.available || !l.available)
            && (Finding(Input, Some(a.order)) in found <==> o.grossWeight.None?)
  {
    ListIsRules(t, a);
    ResourceFindingsAre(t, a, AssignmentList(t, a));
  }

  lemma ResourceFindingsAre(t: Tables, a: Assignment, found: seq<Finding>)
    requires Resolves(t, a) && forall f :: f in found <==> RuleFinding(t, a, f)
    ensures var o, v, w, l := t.orders[a.order], t.services[a.service], t.wagons[a.wagon], t.slots[a.slot];
            && (Finding(ServiceScope, Some(a.order)) in found <==> a.service !in t.permitted)
            && (Finding(Topology, Some(a.order)) in found <==> l.wagon != w.id || w.service != v.id)
            && (Finding(Availability, Some(a.order)) in found <==> !v.available || !w.available || !l.available)
            && (Finding(Input, Some(a.order)) in found <==> o.grossWeight.None?)
  {
  }

  /** The same for its size, weight and tags against the slot. */
  lemma SizeFindingsRead(t: Tables, a: Assignment)
    requires Resolves(t, a)
    ensures var o, l := t.orders[a.order], t.slots[a.slot];
            var found := AssignmentList(t, a);
            && (Finding(DimensionCheck, Some(a.order)) in found <==>
                  || o.dimensions.height > l.maxDimensions.height || o.dimensions.width > l.maxDimensions.width
                  || o.dimensions.length > l.maxDimensions.length)
            && (Finding(WeightCheck, Some(a.order)) in found <==>
                  o.grossWeight.Some? && o.grossWeight.value > l.maxWeight)
            && (Finding(TagCheck, Some(a.order)) in found <==> !(o.compatibilityTags <= l.supportedTags))
  {
    ListIsRules(t, a);
    SizeFindingsAre(t, a, AssignmentList(t, a));
  }

  lemma SizeFindingsAre(t: Tables, a: Assignment, found: seq<Finding>)
    requires Resolves(t, a) && forall f :: f in found <==> RuleFinding(t, a, f)
    ensures var o, l := t.orders[a.order], t.slots[a.slot];
            && (Finding(DimensionCheck, Some(a.order)) in found <==>
                  || o.dimensions.height > l.maxDimensions.height || o.dimensions.width > l.maxDimensions.width
                  || o.dimensions.length > l.maxDimensions.length)
            && (Finding(WeightCheck, Some(a.order)) in found <==>
                  o.grossWeight.Some? && o.grossWeight.value > l.maxWeight)
            && (Finding(TagCheck, Some(a.order)) in found <==> !(o.compatibilityTags <= l.supportedTags))
  {
  }

  /** The same for the two ends, the times and the route. Handling minutes are sixty seconds. */
  lemma LegFindingsRead(t: Tables, a: Assignment)
    requires Resolves(t, a)
    ensures var o, v := t.orders[a.order], t.services[a.service];
            var found := AssignmentList(t, a);
            && (Finding(TerminalCheck, Some(a.order)) in found <==>
                  || v.originTerminal !in o.originTerminals || v.destinationTerminal !in o.destinationTerminals
                  || v.originTerminal !in t.terminals
                  || !(o.compatibilityTags <= t.terminals[v.originTerminal].supportedTags)
                  || v.destinationTerminal !in t.terminals
                  || !(o.compatibilityTags <= t.terminals[v.destinationTerminal].supportedTags))
            && (Finding(TimeCheck, Some(a.order)) in found <==>
                  || o.readyAt > v.planningCutoffAt
                  || (v.destinationTerminal in t.terminals
                      && v.arrivalAt + t.terminals[v.destinationTerminal].minimumHandlingMinutes * 60 * 1_000_000
                           > o.dueAt)
                  || (v.destinationTerminal !in t.terminals && v.arrivalAt > o.dueAt))
            && (Finding(RouteCheck, Some(a.order)) in found <==>
                  || v.routeConstraint !in t.routes
                  || o.dimensions.height > t.routes[v.routeConstraint].maxHeight
                  || o.dimensions.width > t.routes[v.routeConstraint].maxWidth
                  || (o.grossWeight.Some? && o.grossWeight.value > t.routes[v.routeConstraint].maxWeight))
  {
    ListIsRules(t, a);
    LegFindingsAre(t, a, AssignmentList(t, a));
  }

  lemma LegFindingsAre(t: Tables, a: Assignment, found: seq<Finding>)
    requires Resolves(t, a) && forall f :: f in found <==> RuleFinding(t, a, f)
    ensures var o, v := t.orders[a.order], t.services[a.service];
            && (Finding(TerminalCheck, Some(a.order)) in found <==>
                  || v.originTerminal !in o.originTerminals || v.destinationTerminal !in o.destinationTerminals
                  || v.originTerminal !in t.terminals
                  || !(o.compatibilityTags <= t.terminals[v.originTerminal].supportedTags)
                  || v.destinationTerminal !in t.terminals
                  || !(o.compatibilityTags <= t.terminals[v.destinationTerminal].supportedTags))
            && (Finding(TimeCheck, Some(a.order)) in found <==>
                  || o.readyAt > v.planningCutoffAt
                  || (v.destinationTerminal in t.terminals
                      && v.arrivalAt + t.terminals[v.destinationTerminal].minimumHandlingMinutes * 60 * 1_000_000
                           > o.dueAt)
                  || (v.destinationTerminal !in t.terminals && v.arrivalAt > o.dueAt))
            && (Finding(RouteCheck, Some(a.order)) in found <==>
                  || v.routeConstraint !in t.routes
                  || o.dimensions.height > t.routes[v.routeConstraint].maxHeight
                  || o.dimensions.width > t.routes[v.routeConstraint].maxWidth
                  || (o.grossWeight.Some? && o.grossWeight.value > t.routes[v.routeConstraint].maxWeight))
  {
  }

  /** How many findings each rule with several parts gives. */
  lemma FindingCountsRead(t: Tables, a: Assignment)
    requires Resolves(t, a)
    ensures var o, v, l := t.orders[a.order], t.services[a.service], t.slots[a.slot];
            && |TerminalList(t, a)|
               == (if v.originTerminal in o.originTerminals then 0 else 1)
                  + (if v.destinationTerminal in o.destinationTerminals then 0 else 1)
                  + (if CanHandle(t, v.originTerminal, o.compatibilityTags) then 0 else 1)
                  + (if CanHandle(t, v.destinationTerminal, o.compatibilityTags) then 0 else 1)
            && |TimeList(t, a)|
               == (if o.readyAt > v.planningCutoffAt then 1 else 0)
                  + (if v.arrivalAt + Handling(t, v) > o.dueAt then 1 else 0)
            && |SizeList(t, a)|
               == (if o.dimensions.height > l.maxDimensions.height then 1 else 0)
                  + (if o.dimensions.width > l.maxDimensions.width then 1 else 0)
                  + (if o.dimensions.length > l.maxDimensions.length then 1 else 0)
  {
  }

  /** One finding without an order for each used wagon that carries more than its limit. */
  lemma CapacityRead(t: Tables, assignments: seq<Assignment>, heavy: set<Id>)
    requires forall w :: w in heavy <==>
               && (exists a :: a in assignments && a.wagon == w)
               && w in t.wagons && Loaded(t, assignments, w) > t.wagons[w].maxTotalWeight
    ensures |CapacityList(t, assignments)| == |heavy|
    ensures forall f :: f in CapacityList(t, assignments) ==> f == Finding(WagonCapacity, None)
  {
    assert heavy == OverloadedWagons(t, assignments);
  }

  /** An assignment that names something unknown says so and nothing else. */
  lemma UnknownFindingsRead(t: Tables, a: Assignment)
    requires a.order !in t.orders || a.service !in t.services || a.wagon !in t.wagons || a.slot !in t.slots
    ensures AssignmentList(t, a) == [Finding(Reference, Some(a.order))]
  {
  }

  /** An outcome is contradicted when it is placed but not reported so, not eligible or held, or
      reported as placed without an assignment; each reason once. */
  lemma ContradictionsRead(assignedIds: set<Id>, o: OrderOutcome)
    ensures var found := ContradictionList(assignedIds, o);
            && (forall f :: f in found ==> f == Finding(OutcomeCheck, Some(o.order)))
            && (o.order in assignedIds ==>
                  |found| == (if o.assignmentState != Assigned then 1 else 0)
                             + (if o.eligibilityState != Eligible then 1 else 0)
                             + (if o.inputState == ReviewRequired then 1 else 0))
            && (o.order !in assignedIds ==> |found| == if o.assignmentState == Assigned then 1 else 0)
  {
  }

  lemma {:induction false} RuleListMeans(t: Tables, assignments: seq<Assignment>, f: Finding)
    ensures f in RuleList(t, assignments) <==> exists a :: a in assignments && RuleFinding(t, a, f)
  {
    if assignments != [] {
      var front, last := assignments[..|assignments| - 1], assignments[|assignments| - 1];
      assert assignments == front + [last];
      RuleListMeans(t, front, f);
      AssignmentListMeans(t, last, f);
    }
  }

  lemma CapacityListMeans(t: Tables, assignments: seq<Assignment>, f: Finding)
    ensures f in CapacityList(t, assignments) <==> f == Finding(WagonCapacity, None) && SomeOverloaded(t, assignments)
  {
    if SomeOverloaded(t, assignments) {
      var w :| w in WagonsOf(assignments) && Overloaded(t, assignments, w);
      assert w in OverloadedWagons(t, assignments);
      assert CapacityList(t, assignments)[0] == Finding(WagonCapacity, None);
    } else {
      assert OverloadedWagons(t, assignments) == {};
    }
  }

  ghost predicate Contradicted(assignedIds: set<Id>, outcomes: seq<OrderOutcome>, id: Id) {
    exists o :: o in outcomes && o.order == id && OutcomeBroken(assignedIds, o)
  }

  lemma {:induction false} ContradictionsListMeans(assignedIds: set<Id>, outcomes: seq<OrderOutcome>, f: Finding)
    ensures f in ContradictionsList(assignedIds, outcomes) <==>
              f.check == OutcomeCheck && f.order.Some? && Contradicted(assignedIds, outcomes, f.order.value)
  {
    if outcomes != [] {
      var front, last := outcomes[..|outcomes| - 1], outcomes[|outcomes| - 1];
      assert outcomes == front + [last];
      ContradictionsListMeans(assignedIds, front, f);
    }
  }

  lemma OutcomeListMeans(assignments: seq<Assignment>, outcomes: seq<OrderOutcome>, findings: seq<Finding>, f: Finding)
    requires OutcomeList(assignments, outcomes, findings)
    ensures f in findings <==> OutcomeFinding(assignments, outcomes, f)
  {
    var ids :| ListsUnreported(assignments, outcomes, ids)
               && findings == ContradictionsList(OrdersOf(assignments), outcomes) + Unreported(ids);
    ContradictionsListMeans(OrdersOf(assignments), outcomes, f);
    UnreportedMeans(ids, f);
  }

  lemma UnreportedMeans(ids: seq<Id>, f: Finding)
    ensures f in Unreported(ids) <==> f.check == OutcomeCheck && f.order.Some? && f.order.value in ids
  {
    if f.check == OutcomeCheck && f.order.Some? && f.order.value in ids {
      var i :| 0 <= i < |ids| && ids[i] == f.order.value;
      assert Unreported(ids)[i] == f;
    }
  }

  /** The list holds exactly the findings the plan deserves. */
  lemma PlanListMeans(t: Tables, assignments: seq<Assignment>, outcomes: seq<OrderOutcome>, findings: seq<Finding>)
    requires PlanList(t, assignments, outcomes, findings)
    ensures forall f :: f in findings <==> Deserves(t, assignments, outcomes, f)
  {
    var last :| OutcomeList(assignments, outcomes, last)
                && findings == RepeatList(assignments) + RuleList(t, assignments)
                               + CapacityList(t, assignments) + last;
    forall f ensures f in findings <==> Deserves(t, assignments, outcomes, f) {
      RepeatListMeans(assignments, f);
      RuleListMeans(t, assignments, f);
      CapacityListMeans(t, assignments, f);
      OutcomeListMeans(assignments, outcomes, last, f);
    }
  }

  // ---------------------------------------------------------------- the shared findings list

  lemma Joined<T>(a: seq<T>, b: seq<T>, c: seq<T>)
    ensures (a + b) + c == a + (b + c)
  {
  }

  lemma JoinedFour<T>(a: seq<T>, b: seq<T>, c: seq<T>, d: seq<T>, e: seq<T>)
    ensures a + b + c + d + e == a + (b + c + d + e)
  {
  }

  lemma RepeatListGrows(assignments: seq<Assignment>, n: nat)
    requires n < |assignments|
    ensures RepeatList(assignments[..n + 1])
         == RepeatList(assignments[..n])
            + (When(assignments[n].order in OrdersOf(assignments[..n]), DuplicateOrder, assignments[n].order)
               + When(assignments[n].slot in SlotsOf(assignments[..n]), DuplicateSlot, assignments[n].order))
    ensures OrdersOf(assignments[..n + 1]) == OrdersOf(assignments[..n]) + {assignments[n].order}
    ensures SlotsOf(assignments[..n + 1]) == SlotsOf(assignments[..n]) + {assignments[n].slot}
  {
    assert assignments[..n + 1][..n] == assignments[..n];
    assert assignments[..n + 1] == assignments[..n] + [assignments[n]];
  }

  lemma RuleListGrows(t: Tables, assignments: seq<Assignment>, n: nat)
    requires n < |assignments|
    ensures RuleList(t, assignments[..n + 1]) == RuleList(t, assignments[..n]) + AssignmentList(t, assignments[n])
  {
    assert assignments[..n + 1][..n] == assignments[..n];
  }

  lemma ContradictionsGrow(assignedIds: set<Id>, outcomes: seq<OrderOutcome>, n: nat)
    requires n < |outcomes|
    ensures ContradictionsList(assignedIds, outcomes[..n + 1])
         == ContradictionsList(assignedIds, outcomes[..n]) + ContradictionList(assignedIds, outcomes[n])
  {
    assert outcomes[..n + 1][..n] == outcomes[..n];
  }

  class Report {
    var findings: seq<Finding>

    constructor ()
      ensures findings == []
    {
      findings := [];
    }

    method Append(check: Check, order: Option<Id>)
      modifies this
      ensures findings == old(findings) + [Finding(check, order)]
    {
      findings := findings + [Finding(check, order)];
    }

    /** Appends when a rule is broken. */
    method Note(broken: bool, check: Check, order: Id)
      modifies this
      ensures findings == old(findings) + When(broken, check, order)
    {
      if broken {
        Append(check, Some(order));
      }
    }
  }

  method NoteRepeats(report: Report, a: Assignment, orderSeen: bool, slotSeen: bool)
    modifies report
    ensures report.findings
         == old(report.findings) + (When(orderSeen, DuplicateOrder, a.order) + When(slotSeen, DuplicateSlot, a.order))
  {
    report.Note(orderSeen, DuplicateOrder, a.order);
    report.Note(slotSeen, DuplicateSlot, a.order);
  }

  method CheckUniqueness(report: Report, assignments: seq<Assignment>)
    modifies report
    ensures report.findings == old(report.findings) + RepeatList(assignments)
    ensures forall f :: f in RepeatList(assignments) <==> Repeated(assignments, |assignments|, f)
  {
    var seenOrders: set<Id>, seenSlots: set<Id> := {}, {};
    ghost var before := report.findings;
    for n := 0 to |assignments|
      invariant seenOrders == OrdersOf(assignments[..n]) && seenSlots == SlotsOf(assignments[..n])
      invariant report.findings == before + RepeatList(assignments[..n])
    {
      RepeatListGrows(assignments, n);
      var a := assignments[n];
      NoteRepeats(report, a, a.order in seenOrders, a.slot in seenSlots);
      Joined(before, RepeatList(assignments[..n]),
             When(a.order in seenOrders, DuplicateOrder, a.order) + When(a.slot in seenSlots, DuplicateSlot, a.order));
      seenOrders := seenOrders + {a.order};
      seenSlots := seenSlots + {a.slot};
    }
    assert assignments[..|assignments|] == assignments;
    forall f {
      RepeatListMeans(assignments, f);
    }
  }

  method CheckTerminals(report: Report, t: Tables, a: Assignment, o: Order, v: Service)
    requires Resolves(t, a) && o == t.orders[a.order] && v == t.services[a.service]
    modifies report
    ensures report.findings == old(report.findings) + TerminalList(t, a)
    ensures forall f :: f in TerminalList(t, a) <==> f.check == TerminalCheck && RuleFinding(t, a, f)
  {
    ghost var before := report.findings;
    var offOrigin, offDestination := v.originTerminal !in o.originTerminals,
                                     v.destinationTerminal !in o.destinationTerminals;
    var noOrigin, noDestination := !CanHandle(t, v.originTerminal, o.compatibilityTags),
                                   !CanHandle(t, v.destinationTerminal, o.compatibilityTags);
    report.Note(offOrigin, TerminalCheck, a.order);
    report.Note(offDestination, TerminalCheck, a.order);
    report.Note(noOrigin, TerminalCheck, a.order);
    report.Note(noDestination, TerminalCheck, a.order);
    JoinedFour(before, When(offOrigin, TerminalCheck, a.order), When(offDestination, TerminalCheck, a.order),
               When(noOrigin, TerminalCheck, a.order), When(noDestination, TerminalCheck, a.order));
    forall f {
      TerminalListMeans(t, a, f);
    }
  }

  method CheckTimes(report: Report, t: Tables, a: Assignment, o: Order, v: Service)
    requires Resolves(t, a) && o == t.orders[a.order] && v == t.services[a.service]
    modifies report
    ensures report.findings == old(report.findings) + TimeList(t, a)
    ensures forall f :: f in TimeList(t, a) <==> f.check == TimeCheck && RuleFinding(t, a, f)
  {
    report.Note(o.readyAt > v.planningCutoffAt, TimeCheck, a.order);
    report.Note(v.arrivalAt + Handling(t, v) > o.dueAt, TimeCheck, a.order);
    forall f {
      TimeListMeans(t, a, f);
    }
  }

  method CheckRoute(report: Report, t: Tables, a: Assignment, o: Order, v: Service)
    requires Resolves(t, a) && o == t.orders[a.order] && v == t.services[a.service]
    modifies report
    ensures report.findings == old(report.findings) + RouteList(t, a)
  {
    if v.routeConstraint !in t.routes {
      report.Append(RouteCheck, Some(a.order));
      return;
    }
    var route := t.routes[v.routeConstraint];
    report.Note(o.dimensions.height > route.maxHeight, RouteCheck, a.order);
    report.Note(o.dimensions.width > route.maxWidth, RouteCheck, a.order);
    report.Note(WeightOrZero(o) > route.maxWeight, RouteCheck, a.order);
  }

  method CheckSize(report: Report, t: Tables, a: Assignment, o: Order, l: Slot)
    requires Resolves(t, a) && o == t.orders[a.order] && l == t.slots[a.slot]
    modifies report
    ensures report.findings == old(report.findings) + SizeList(t, a)
  {
    report.Note(o.dimensions.height > l.maxDimensions.height, DimensionCheck, a.order);
    report.Note(o.dimensions.width > l.maxDimensions.width, DimensionCheck, a.order);
    report.Note(o.dimensions.length > l.maxDimensions.length, DimensionCheck, a.order);
  }

  method CheckDimensions(report: Report, t: Tables, a: Assignment, o: Order, v: Service, l: Slot)
    requires Resolves(t, a) && o == t.orders[a.order] && v == t.services[a.service] && l == t.slots[a.slot]
    modifies report
    ensures report.findings == old(report.findings) + DimensionList(t, a)
    ensures forall f :: f in DimensionList(t, a) <==>
              f.check in {DimensionCheck, WeightCheck, TagCheck, RouteCheck} && RuleFinding(t, a, f)
  {
    ghost var before := report.findings;
    var heavy, foreign := WeightOrZero(o) > l.maxWeight, !(o.compatibilityTags <= l.supportedTags);
    CheckSize(report, t, a, o, l);
    report.Note(heavy, WeightCheck, a.order);
    report.Note(foreign, TagCheck, a.order);
    CheckRoute(report, t, a, o, v);
    JoinedFour(before, SizeList(t, a), When(heavy, WeightCheck, a.order), When(foreign, TagCheck, a.order),
               RouteList(t, a));
    forall f {
      DimensionListMeans(t, a, f);
    }
  }

  /** Scope, wiring, availability and a known weight. */
  method CheckResources(report: Report, t: Tables, a: Assignment, o: Order, v: Service, w: Wagon, l: Slot)
    requires Resolves(t, a) && o == t.orders[a.order] && v == t.services[a.service]
    requires w == t.wagons[a.wagon] && l == t.slots[a.slot]
    modifies report
    ensures report.findings == old(report.findings) + ResourceList(t, a)
  {
    report.Note(a.service !in t.permitted, ServiceScope, a.order);
    report.Note(l.wagon != w.id || w.service != v.id, Topology, a.order);
    report.Note(!(v.available && w.available && l.available), Availability, a.order);
    report.Note(o.grossWeight.None?, Input, a.order);
  }

  method CheckAssignment(report: Report, t: Tables, a: Assignment)
    modifies report
    ensures report.findings == old(report.findings) + AssignmentList(t, a)
  {
    if !Resolves(t, a) {
      report.Append(Reference, Some(a.order));
      return;
    }
    ghost var before := report.findings;
    var o, v, w, l := t.orders[a.order], t.services[a.service], t.wagons[a.wagon], t.slots[a.slot];
    CheckResources(report, t, a, o, v, w, l);
    CheckTerminals(report, t, a, o, v);
    CheckTimes(report, t, a, o, v);
    CheckDimensions(report, t, a, o, v, l);
    JoinedFour(before, ResourceList(t, a), TerminalList(t, a), TimeList(t, a), DimensionList(t, a));
  }

  method CheckAssignments(report: Report, t: Tables, assignments: seq<Assignment>)
    modifies report
    ensures report.findings == old(report.findings) + RuleList(t, assignments)
  {
    ghost var before := report.findings;
    for n := 0 to |assignments|
      invariant report.findings == before + RuleList(t, assignments[..n])
    {
      RuleListGrows(t, assignments, n);
      Joined(before, RuleList(t, assignments[..n]), AssignmentList(t, assignments[n]));
      CheckAssignment(report, t, assignments[n]);
    }
    assert assignments[..|assignments|] == assignments;
  }

  /** The weight loaded on each wagon. */
  method SumLoads(t: Tables, assignments: seq<Assignment>) returns (loaded: map<Id, nat>)
    ensures forall w :: w in loaded ==> loaded[w] == Loaded(t, assignments, w)
    ensures forall w :: w !in loaded ==> Loaded(t, assignments, w) == 0
    ensures loaded.Keys <= WagonsOf(assignments)
  {
    loaded := map[];
    for n := 0 to |assignments|
      invariant forall w :: w in loaded ==> loaded[w] == Loaded(t, assignments[..n], w)
      invariant forall w :: w !in loaded ==> Loaded(t, assignments[..n], w) == 0
      invariant loaded.Keys <= WagonsOf(assignments)
    {
      assert assignments[..n + 1][..n] == assignments[..n];
      var a := assignments[n];
      if a.order in t.orders {
        var sofar := if a.wagon in loaded then loaded[a.wagon] else 0;
        loaded := loaded[a.wagon := sofar + WeightOrZero(t.orders[a.order])];
      }
    }
    assert assignments[..|assignments|] == assignments;
  }

  /** The overloaded wagons among those loaded. */
  ghost function Heavy(t: Tables, assignments: seq<Assignment>, wagons: set<Id>): set<Id> {
    set w | w in wagons && Overloaded(t, assignments, w)
  }

  function Overloads(n: nat): (r: seq<Finding>)
    ensures |r| == n && forall i :: 0 <= i < n ==> r[i] == Finding(WagonCapacity, None)
  {
    seq(n, _ => Finding(WagonCapacity, None))
  }

  method CheckWagonCapacity(report: Report, t: Tables, assignments: seq<Assignment>)
    modifies report
    ensures report.findings == old(report.findings) + CapacityList(t, assignments)
    ensures forall f :: f in CapacityList(t, assignments) <==>
              f == Finding(WagonCapacity, None) && SomeOverloaded(t, assignments)
  {
    var loaded := SumLoads(t, assignments);
    var rest := loaded.Keys;
    ghost var before := report.findings;
    while rest != {}
      invariant rest <= loaded.Keys
      invariant report.findings == before + Overloads(|Heavy(t, assignments, loaded.Keys - rest)|)
      decreases rest
    {
      var w :| w in rest;
      var heavy := w in t.wagons && loaded[w] > t.wagons[w].maxTotalWeight;
      HeavyGrows(t, assignments, loaded.Keys - rest, w);
      assert loaded.Keys - (rest - {w}) == loaded.Keys - rest + {w};
      if heavy {
        report.Append(WagonCapacity, None);
      }
      rest := rest - {w};
    }
    assert loaded.Keys - {} == loaded.Keys;
    assert Heavy(t, assignments, loaded.Keys) == OverloadedWagons(t, assignments);
    forall f {
      CapacityListMeans(t, assignments, f);
    }
  }

  lemma HeavyGrows(t: Tables, assignments: seq<Assignment>, wagons: set<Id>, w: Id)
    requires w !in wagons
    ensures var before, after := Heavy(t, assignments, wagons), Heavy(t, assignments, wagons + {w});
            && (Overloaded(t, assignments, w) ==>
                  Overloads(|after|) == Overloads(|before|) + [Finding(WagonCapacity, None)])
            && (!Overloaded(t, assignments, w) ==> after == before)
  {
    var before, after := Heavy(t, assignments, wagons), Heavy(t, assignments, wagons + {w});
    if Overloaded(t, assignments, w) {
      assert after == before + {w};
    } else {
      assert after == before;
    }
  }

  /** The four contradictions one outcome can show. */
  method CheckOutcome(report: Report, assignedIds: set<Id>, o: OrderOutcome)
    modifies report
    ensures report.findings == old(report.findings) + ContradictionList(assignedIds, o)
  {
    var held := o.order in assignedIds;
    report.Note(held && o.assignmentState != Assigned, OutcomeCheck, o.order);
    report.Note(!held && o.assignmentState == Assigned, OutcomeCheck, o.order);
    report.Note(held && o.eligibilityState != Eligible, OutcomeCheck, o.order);
    report.Note(o.inputState == ReviewRequired && held, OutcomeCheck, o.order);
  }

  lemma ReportedAt(outcomes: seq<OrderOutcome>)
    ensures forall id :: Reported(outcomes, id) <==> exists i :: 0 <= i < |outcomes| && outcomes[i].order == id
  {
    forall id | Reported(outcomes, id) ensures exists i :: 0 <= i < |outcomes| && outcomes[i].order == id {
      var o :| o in outcomes && o.order == id;
      var i :| 0 <= i < |outcomes| && outcomes[i] == o;
    }
  }

  method CheckReportedOutcomes(report: Report, assignedIds: set<Id>, outcomes: seq<OrderOutcome>)
    returns (reported: set<Id>)
    modifies report
    ensures forall id :: id in reported <==> Reported(outcomes, id)
    ensures report.findings == old(report.findings) + ContradictionsList(assignedIds, outcomes)
  {
    reported := {};
    ghost var before := report.findings;
    for n := 0 to |outcomes|
      invariant forall id :: id in reported <==> exists i :: 0 <= i < n && outcomes[i].order == id
      invariant report.findings == before + ContradictionsList(assignedIds, outcomes[..n])
    {
      ContradictionsGrow(assignedIds, outcomes, n);
      Joined(before, ContradictionsList(assignedIds, outcomes[..n]), ContradictionList(assignedIds, outcomes[n]));
      CheckOutcome(report, assignedIds, outcomes[n]);
      reported := reported + {outcomes[n].order};
    }
    assert outcomes[..|outcomes|] == outcomes;
    ReportedAt(outcomes);
  }

  /** The assigned orders nobody reports, sorted. */
  method UnreportedOrders(assignments: seq<Assignment>, outcomes: seq<OrderOutcome>, reported: set<Id>)
    returns (ids: seq<Id>)
    requires forall id :: id in reported <==> Reported(outcomes, id)
    ensures ListsUnreported(assignments, outcomes, ids)
  {
    var found := [];
    var orders := Dedup(MapSeq(assignments, CandidateOrder));
    for n := 0 to |orders|
      invariant forall id :: id in found <==> id in orders[..n] && id !in reported
      invariant DistinctKeys(found, Self)
    {
      assert orders[..n + 1] == orders[..n] + [orders[n]];
      assert orders[n] !in orders[..n];
      if orders[n] !in reported {
        found := found + [orders[n]];
      }
    }
    assert orders[..|orders|] == orders;
    MappedOrders(assignments);
    ids := SortIds(found);
    SortIdsSpec(found);
  }

  lemma MappedOrders(assignments: seq<Assignment>)
    ensures forall id :: id in MapSeq(assignments, CandidateOrder) <==> id in OrdersOf(assignments)
  {
    var orders := MapSeq(assignments, CandidateOrder);
    forall id | id in OrdersOf(assignments) ensures id in orders {
      var a :| a in assignments && a.order == id;
      var i :| 0 <= i < |assignments| && assignments[i] == a;
      assert orders[i] == id;
    }
    forall id | id in orders ensures id in OrdersOf(assignments) {
      var i :| 0 <= i < |orders| && orders[i] == id;
      assert assignments[i] in assignments;
    }
  }

  /** A finding for each assigned order without an outcome, in the order given. */
  method CheckUnreported(report: Report, ids: seq<Id>)
    modifies report
    ensures report.findings == old(report.findings) + Unreported(ids)
  {
    ghost var before := report.findings;
    for n := 0 to |ids|
      invariant report.findings == before + Unreported(ids)[..n]
    {
      report.Append(OutcomeCheck, Some(ids[n]));
    }
  }

  method CheckOutcomeConsistency(report: Report, assignments: seq<Assignment>, outcomes: seq<OrderOutcome>)
    returns (ghost found: seq<Finding>)
    modifies report
    ensures report.findings == old(report.findings) + found && OutcomeList(assignments, outcomes, found)
    ensures forall f :: f in found <==> OutcomeFinding(assignments, outcomes, f)
  {
    var assignedIds := OrdersOf(assignments);
    var reported := CheckReportedOutcomes(report, assignedIds, outcomes);
    var unreported := UnreportedOrders(assignments, outcomes, reported);
    CheckUnreported(report, unreported);
    found := ContradictionsList(assignedIds, outcomes) + Unreported(unreported);
    forall f {
      OutcomeListMeans(assignments, outcomes, found, f);
    }
  }

  method ValidateWith(t: Tables, assignments: seq<Assignment>, outcomes: seq<OrderOutcome>)
    returns (findings: seq<Finding>)
    ensures PlanList(t, assignments, outcomes, findings)
  {
    var report := new Report();
    CheckUniqueness(report, assignments);
    CheckAssignments(report, t, assignments);
    CheckWagonCapacity(report, t, assignments);
    ghost var found := CheckOutcomeConsistency(report, assignments, outcomes);
    JoinedFour([], RepeatList(assignments), RuleList(t, assignments), CapacityList(t, assignments), found);
    findings := report.findings;
  }

  /** Reports exactly the findings the plan deserves, and passes it exactly when there are none. */
  method ValidatePlan(s: Snapshot, assignments: seq<Assignment>, outcomes: seq<OrderOutcome>, allowed: seq<Id>)
    returns (r: PlanValidation)
    ensures PlanList(TablesOf(s, allowed), assignments, outcomes, r.findings)
    ensures forall f :: f in r.findings <==> Deserves(TablesOf(s, allowed), assignments, outcomes, f)
    ensures r.pass <==> r.findings == []
    ensures r.pass <==> Legal(TablesOf(s, allowed), assignments, outcomes)
  {
    var findings := ValidateWith(TablesOf(s, allowed), assignments, outcomes);
    PlanListMeans(TablesOf(s, allowed), assignments, outcomes, findings);
    NoFindings(TablesOf(s, allowed), assignments, outcomes, findings);
    r := PlanValidation(findings == [], findings);
  }

  lemma NoFindings(t: Tables, assignments: seq<Assignment>, outcomes: seq<OrderOutcome>, findings: seq<Finding>)
    requires forall f :: f in findings <==> Deserves(t, assignments, outcomes, f)
    ensures findings == [] <==> Legal(t, assignments, outcomes)
  {
    LegalMeansNothingDeserved(t, assignments, outcomes);
    assert findings != [] ==> findings[0] in findings;
  }
}
