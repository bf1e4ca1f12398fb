/** The eligibility gate: input validation, candidate slots and the reasons behind a refusal.
    It never chooses between candidates. */
module Eligibility {
  import opened Ordering
  import opened ReasonCodes
  import opened Snapshots

  const MICROSECONDS_PER_MINUTE := 60_000_000

  /** A slot the order could legally occupy. */
  datatype Candidate = Candidate(order: Id, service: Id, wagon: Id, slot: Id)

  function CandidateOrder(c: Candidate): Id { c.order }
  function CandidateSlot(c: Candidate): Id { c.slot }
  function CandidateWagon(c: Candidate): Id { c.wagon }

  datatype InputState = Valid | ReviewRequired
  datatype EligibilityState = Eligible | Ineligible | NotEvaluated

  datatype OrderEvaluation = OrderEvaluation(
    order: Id,
    inputState: InputState,
    eligibilityState: EligibilityState,
    reasonCodes: seq<Code>,
    missingFields: seq<string>,
    candidates: seq<Candidate>)

  function EvaluationOrder(e: OrderEvaluation): Id { e.order }

  // ---------------------------------------------------------------- lookup tables

  /** A slot together with the wagon that carries it. */
  datatype Berth = Berth(wagon: Wagon, slot: Slot)

  function BerthService(b: Berth): Id { b.wagon.service }
  function BerthSlot(b: Berth): Id { b.slot.id }

  datatype Index = Index(
    terminals: map<Id, Terminal>,
    routes: map<Id, RouteConstraint>,
    services: map<Id, Service>,
    berths: map<Id, seq<Berth>>)

  ghost predicate WagonsKnown(s: Snapshot) {
    forall i :: 0 <= i < |s.slots| ==> s.slots[i].wagon in ById(s.wagons, WagonId)
  }

  function Berths(s: Snapshot): (r: seq<Berth>)
    requires WagonsKnown(s)
    ensures |r| == |s.slots|
    ensures forall i :: 0 <= i < |r| ==> r[i] == Berth(ById(s.wagons, WagonId)[s.slots[i].wagon], s.slots[i])
  {
    var wagons := ById(s.wagons, WagonId);
    seq(|s.slots|, i requires 0 <= i < |s.slots| && s.slots[i].wagon in wagons =>
                     Berth(wagons[s.slots[i].wagon], s.slots[i]))
  }

  function IndexOf(s: Snapshot): Index
    requires WagonsKnown(s)
  {
    Index(
      ById(s.terminals, TerminalId),
      ById(s.routes, RouteId),
      ById(s.services, ServiceId),
      Groups(Berths(s), BerthService))
  }

  /** Groups the slots by the service their wagon runs on. */
  method BuildIndex(s: Snapshot) returns (ix: Index)
    requires WagonsKnown(s)
    ensures ix == IndexOf(s)
  {
    var all := Berths(s);
    var keys, groups := GroupBy(all, BerthService);
    GroupByGivesGroups(all, BerthService, keys, groups);
    ix := Index(ById(s.terminals, TerminalId), ById(s.routes, RouteId), ById(s.services, ServiceId), groups);
  }

  function BerthsOn(ix: Index, service: Id): seq<Berth> {
    if service in ix.berths then ix.berths[service] else []
  }

  // ---------------------------------------------------------------- one order, one service

  predicate Handles(ix: Index, terminal: Id, o: Order) {
    terminal in ix.terminals && o.compatibilityTags <= ix.terminals[terminal].supportedTags
  }

  function HandlingTime(ix: Index, v: Service): int {
    (if v.destinationTerminal in ix.terminals
     then ix.terminals[v.destinationTerminal].minimumHandlingMinutes else 0) * MICROSECONDS_PER_MINUTE
  }

  /** When a service-level code applies. */
  predicate ServiceViolates(ix: Index, o: Order, v: Service, c: Code) {
    match c
    case ServiceUnavailable => !v.available
    case TerminalNotOnServiceRoute =>
      v.originTerminal !in o.originTerminals || v.destinationTerminal !in o.destinationTerminals
    case TerminalNotCompatible => !Handles(ix, v.originTerminal, o) || !Handles(ix, v.destinationTerminal, o)
    case ReadyAfterCutoff => o.readyAt > v.planningCutoffAt
    case DueTimeExceeded => v.arrivalAt + HandlingTime(ix, v) > o.dueAt
    case TunnelHeightExceeded =>
      v.routeConstraint in ix.routes && o.dimensions.height > ix.routes[v.routeConstraint].maxHeight
    case RouteWidthExceeded =>
      v.routeConstraint in ix.routes && o.dimensions.width > ix.routes[v.routeConstraint].maxWidth
    case RouteWeightExceeded =>
      v.routeConstraint in ix.routes && o.grossWeight.Some?
      && o.grossWeight.value > ix.routes[v.routeConstraint].maxWeight
    case _ => false
  }

  /** When a slot-level code applies. */
  predicate SlotViolates(o: Order, b: Berth, c: Code) {
    match c
    case WagonUnavailable => !b.wagon.available
    case SlotUnavailable => !b.slot.available
    case SlotTagNotSupported => !(o.compatibilityTags <= b.slot.supportedTags)
    case SlotHeightExceeded => o.dimensions.height > b.slot.maxDimensions.height
    case SlotWidthExceeded => o.dimensions.width > b.slot.maxDimensions.width
    case SlotLengthExceeded => o.dimensions.length > b.slot.maxDimensions.length
    case SlotWeightExceeded => o.grossWeight.Some? && o.grossWeight.value > b.slot.maxWeight
    case WagonWeightExceeded => o.grossWeight.Some? && o.grossWeight.value > b.wagon.maxTotalWeight
    case _ => false
  }

  function ServiceCodes(ix: Index, o: Order, v: Service): set<Code> {
    set c: Code | ServiceViolates(ix, o, v, c)
  }

  function SlotCodes(o: Order, b: Berth): set<Code> {
    set c: Code | SlotViolates(o, b, c)
  }

  /** Availability, leg and trailer handling at both ends. */
  method CheckServiceLeg(ix: Index, o: Order, v: Service) returns (codes: set<Code>)
    ensures forall c :: c in codes <==>
              c in {ServiceUnavailable, TerminalNotOnServiceRoute, TerminalNotCompatible}
              && ServiceViolates(ix, o, v, c)
  {
    codes := {};
    if !v.available {
      codes := codes + {ServiceUnavailable};
    }
    if v.originTerminal !in o.originTerminals {
      codes := codes + {TerminalNotOnServiceRoute};
    }
    if v.destinationTerminal !in o.destinationTerminals {
      codes := codes + {TerminalNotOnServiceRoute};
    }
    ghost var before := codes;
    var ends := [v.originTerminal, v.destinationTerminal];
    for n := 0 to 2
      invariant codes == before + (if exists k :: 0 <= k < n && !Handles(ix, ends[k], o)
                                   then {TerminalNotCompatible} else {})
    {
      if ends[n] !in ix.terminals {
        codes := codes + {TerminalNotCompatible};
      } else if !(o.compatibilityTags <= ix.terminals[ends[n]].supportedTags) {
        codes := codes + {TerminalNotCompatible};
      }
    }
    assert !Handles(ix, ends[0], o) || !Handles(ix, ends[1], o) <==> TerminalNotCompatible in codes;
  }

  /** Intake and delivery times, then the clearances of the route. */
  method CheckServiceLimits(ix: Index, o: Order, v: Service) returns (codes: set<Code>)
    ensures forall c :: c in codes <==>
              c in {ReadyAfterCutoff, DueTimeExceeded, TunnelHeightExceeded, RouteWidthExceeded, RouteWeightExceeded}
              && ServiceViolates(ix, o, v, c)
  {
    codes := {};
    if o.readyAt > v.planningCutoffAt {
      codes := codes + {ReadyAfterCutoff};
    }
    if v.arrivalAt + HandlingTime(ix, v) > o.dueAt {
      codes := codes + {DueTimeExceeded};
    }
    if v.routeConstraint in ix.routes {
      var route := ix.routes[v.routeConstraint];
      if o.dimensions.height > route.maxHeight {
        codes := codes + {TunnelHeightExceeded};
      }
      if o.dimensions.width > route.maxWidth {
        codes := codes + {RouteWidthExceeded};
      }
      if o.grossWeight.Some? && o.grossWeight.value > route.maxWeight {
        codes := codes + {RouteWeightExceeded};
      }
    }
  }

  /** Hard constraints that depend on the service, not on a particular slot. */
  method CheckService(ix: Index, o: Order, v: Service) returns (codes: set<Code>)
    ensures codes == ServiceCodes(ix, o, v)
  {
    var leg := CheckServiceLeg(ix, o, v);
    var limits := CheckServiceLimits(ix, o, v);
    codes := leg + limits;
  }

  /** Availability and trailer support of one wagon and slot. */
  method CheckSlotResources(o: Order, b: Berth) returns (codes: set<Code>)
    ensures forall c :: c in codes <==>
              c in {WagonUnavailable, SlotUnavailable, SlotTagNotSupported} && SlotViolates(o, b, c)
  {
    codes := {};
    if !b.wagon.available {
      codes := codes + {WagonUnavailable};
    }
    if !b.slot.available {
      codes := codes + {SlotUnavailable};
    }
    if !(o.compatibilityTags <= b.slot.supportedTags) {
      codes := codes + {SlotTagNotSupported};
    }
  }

  /** Size against the slot, weight against the slot and against the whole wagon. */
  method CheckSlotLimits(o: Order, b: Berth) returns (codes: set<Code>)
    ensures forall c :: c in codes <==>
              c in {SlotHeightExceeded, SlotWidthExceeded, SlotLengthExceeded, SlotWeightExceeded, WagonWeightExceeded}
              && SlotViolates(o, b, c)
  {
    codes := {};
    if o.dimensions.height > b.slot.maxDimensions.height {
      codes := codes + {SlotHeightExceeded};
    }
    if o.dimensions.width > b.slot.maxDimensions.width {
      codes := codes + {SlotWidthExceeded};
    }
    if o.dimensions.length > b.slot.maxDimensions.length {
      codes := codes + {SlotLengthExceeded};
    }
    if o.grossWeight.Some? {
      if o.grossWeight.value > b.slot.maxWeight {
        codes := codes + {SlotWeightExceeded};
      }
      if o.grossWeight.value > b.wagon.maxTotalWeight {
        codes := codes + {WagonWeightExceeded};
      }
    }
  }

  /** Hard constraints of one wagon and slot. */
  method CheckSlot(o: Order, b: Berth) returns (codes: set<Code>)
    ensures codes == SlotCodes(o, b)
  {
    var resources := CheckSlotResources(o, b);
    var limits := CheckSlotLimits(o, b);
    codes := resources + limits;
  }

  // ---------------------------------------------------------------- one order, many services

  predicate MissingWeight(o: Order) { o.grossWeight.None? }

  predicate InputValid(o: Order) {
    o.grossWeight.Some? && o.readyAt < o.dueAt
  }

  function InputCodes(o: Order): set<Code> {
    (if MissingWeight(o) then {MissingRequiredField} else {})
    + (if o.readyAt >= o.dueAt then {InvalidTimeRange} else {})
  }

  function MissingFields(o: Order): seq<string> {
    if MissingWeight(o) then ["gross_weight_kg"] else []
  }

  predicate BerthLeq(a: Berth, b: Berth) {
    a.wagon.displayOrder < b.wagon.displayOrder
    || (a.wagon.displayOrder == b.wagon.displayOrder
        && (a.slot.position < b.slot.position
            || (a.slot.position == b.slot.position && Leq(a.slot.id, b.slot.id))))
  }

  function SortedBerthsOn(ix: Index, service: Id): seq<Berth> {
    Sort(BerthsOn(ix, service), BerthLeq)
  }

  predicate SlotOpen(o: Order, b: Berth) {
    SlotCodes(o, b) == {}
  }

  predicate ServiceOpen(ix: Index, o: Order, service: Id) {
    service in ix.services && ServiceCodes(ix, o, ix.services[service]) == {}
  }

  function CandidateFor(o: Order, service: Id, b: Berth): Candidate {
    Candidate(o.id, service, b.wagon.id, b.slot.id)
  }

  function OpenBerths(o: Order, service: Id, berths: seq<Berth>): seq<Candidate> {
    if berths == [] then []
    else
      var last := berths[|berths| - 1];
      OpenBerths(o, service, berths[..|berths| - 1])
      + (if SlotOpen(o, last) then [CandidateFor(o, service, last)] else [])
  }

  function CandidatesOn(ix: Index, o: Order, service: Id): seq<Candidate> {
    if ServiceOpen(ix, o, service) then OpenBerths(o, service, SortedBerthsOn(ix, service)) else []
  }

  function CandidatesOver(ix: Index, o: Order, services: seq<Id>): seq<Candidate> {
    if services == [] then []
    else CandidatesOver(ix, o, services[..|services| - 1]) + CandidatesOn(ix, o, services[|services| - 1])
  }

  /** Why one service refuses the order: its own codes, or its slots' codes once it passed. */
  predicate ServiceRefuses(ix: Index, o: Order, service: Id, c: Code) {
    if service !in ix.services then c == ServiceUnavailable
    else if ServiceOpen(ix, o, service) then exists b :: b in BerthsOn(ix, service) && SlotViolates(o, b, c)
    else ServiceViolates(ix, o, ix.services[service], c)
  }

  predicate Refuses(ix: Index, o: Order, services: seq<Id>, c: Code) {
    exists i :: 0 <= i < |services| && ServiceRefuses(ix, o, services[i], c)
  }

  function Refusals(ix: Index, o: Order, services: seq<Id>): set<Code> {
    set c: Code | Refuses(ix, o, services, c)
  }

  /** The verdict on one order over the services it may use. */
  function EvaluationOf(ix: Index, o: Order, services: seq<Id>): OrderEvaluation {
    if !InputValid(o) then
      OrderEvaluation(o.id, ReviewRequired, NotEvaluated, SortedCodes(InputCodes(o)), MissingFields(o), [])
    else
      var candidates := CandidatesOver(ix, o, services);
      if candidates != [] then
        OrderEvaluation(o.id, Valid, Eligible, [], [], candidates)
      else
        var refusals := Refusals(ix, o, services);
        OrderEvaluation(o.id, Valid, Ineligible,
                        SortedCodes(if refusals == {} then {NoEligibleSlot} else refusals), [], [])
  }

  method ValidateInput(o: Order) returns (missing: seq<string>, codes: seq<Code>)
    ensures missing == MissingFields(o)
    ensures (set c | c in codes) == InputCodes(o)
    ensures codes == [] <==> InputValid(o)
  {
    missing, codes := [], [];
    if o.grossWeight.None? {
      missing := missing + ["gross_weight_kg"];
    }
    if missing != [] {
      codes := codes + [MissingRequiredField];
    }
    if o.readyAt >= o.dueAt {
      codes := codes + [InvalidTimeRange];
    }
  }

  /** Slots of one open service: appends candidates and collects the codes of the rest. */
  method ScanBerths(o: Order, service: Id, berths: seq<Berth>, before: seq<Candidate>)
    returns (candidates: seq<Candidate>, codes: set<Code>)
    ensures candidates == before + OpenBerths(o, service, berths)
    ensures forall c :: c in codes <==> exists b :: b in berths && SlotViolates(o, b, c)
  {
    candidates, codes := before, {};
    for n := 0 to |berths|
      invariant candidates == before + OpenBerths(o, service, berths[..n])
      invariant forall c :: c in codes <==> exists k :: 0 <= k < n && SlotViolates(o, berths[k], c)
    {
      assert berths[..n + 1][..n] == berths[..n];
      var found := CheckSlot(o, berths[n]);
      assert forall c :: c in found <==> SlotViolates(o, berths[n], c);
      if found != {} {
        codes := codes + found;
      } else {
        candidates := candidates + [CandidateFor(o, service, berths[n])];
      }
    }
    assert berths[..|berths|] == berths;
  }

  /** One pass of the service loop. A service that fails is not descended into. */
  method TryService(ix: Index, o: Order, service: Id, before: seq<Candidate>, refused: set<Code>)
    returns (candidates: seq<Candidate>, violations: set<Code>)
    ensures candidates == before + CandidatesOn(ix, o, service)
    ensures candidates == [] ==>
              forall c :: c in violations <==> c in refused || ServiceRefuses(ix, o, service, c)
  {
    candidates, violations := before, refused;
    if service !in ix.services {
      violations := violations + {ServiceUnavailable};
      return;
    }
    var codes := CheckService(ix, o, ix.services[service]);
    assert forall c :: c in codes <==> ServiceViolates(ix, o, ix.services[service], c);
    if codes != {} {
      violations := violations + codes;
      return;
    }
    var berths := SortedBerthsOn(ix, service);
    SameMultisetSameMembers(berths, BerthsOn(ix, service));
    var slotCodes;
    candidates, slotCodes := ScanBerths(o, service, berths, candidates);
    if candidates == [] && slotCodes != {} {
      violations := violations + slotCodes;
    }
  }

  method EvaluateOrder(ix: Index, o: Order, services: seq<Id>) returns (e: OrderEvaluation)
    ensures e == EvaluationOf(ix, o, services)
  {
    var missing, inputCodes := ValidateInput(o);
    if inputCodes != [] {
      return OrderEvaluation(o.id, ReviewRequired, NotEvaluated, SortedCodes(set c | c in inputCodes), missing, []);
    }
    var candidates: seq<Candidate> := [];
    var violations: set<Code> := {};
    for n := 0 to |services|
      invariant candidates == CandidatesOver(ix, o, services[..n])
      invariant candidates == [] ==>
          forall c :: c in violations <==> exists k :: 0 <= k < n && ServiceRefuses(ix, o, services[k], c)
    {
      assert services[..n + 1][..n] == services[..n];
      candidates, violations := TryService(ix, o, services[n], candidates, violations);
    }
    assert services[..|services|] == services;
    if candidates != [] {
      return OrderEvaluation(o.id, Valid, Eligible, [], [], candidates);
    }
    assert violations == Refusals(ix, o, services);
    if violations == {} {
      violations := {NoEligibleSlot};
    }
    e := OrderEvaluation(o.id, Valid, Ineligible, SortedCodes(violations), [], []);
  }

  // ---------------------------------------------------------------- the whole scenario

  function ServicesFor(o: Order, default: seq<Id>, perOrder: map<Id, seq<Id>>): seq<Id> {
    if o.id in perOrder then perOrder[o.id] else default
  }

  function Evaluations(ix: Index, orders: seq<Order>, default: seq<Id>, perOrder: map<Id, seq<Id>>)
    : seq<OrderEvaluation>
  {
    if orders == [] then []
    else
      var last := orders[|orders| - 1];
      Evaluations(ix, orders[..|orders| - 1], default, perOrder)
      + [EvaluationOf(ix, last, ServicesFor(last, default, perOrder))]
  }

  /** An empty override falls back to the baseline list, as an absent one does. */
  function DefaultServices(s: Snapshot, override: seq<Id>): seq<Id> {
    if override == [] then s.baselineServices else override
  }

  method EvaluateAll(ix: Index, orders: seq<Order>, default: seq<Id>, perOrder: map<Id, seq<Id>>)
    returns (evaluations: seq<OrderEvaluation>)
    ensures evaluations == Evaluations(ix, orders, default, perOrder)
  {
    evaluations := [];
    for n := 0 to |orders|
      invariant evaluations == Evaluations(ix, orders[..n], default, perOrder)
    {
      assert orders[..n + 1][..n] == orders[..n];
      var e := EvaluateOrder(ix, orders[n], ServicesFor(orders[n], default, perOrder));
      evaluations := evaluations + [e];
    }
    assert orders[..|orders|] == orders;
  }

  method EvaluateScenario(s: Snapshot, override: seq<Id>, perOrder: map<Id, seq<Id>>)
    returns (evaluations: seq<OrderEvaluation>)
    requires WagonsKnown(s)
    ensures evaluations == Evaluations(IndexOf(s), s.orders, DefaultServices(s, override), perOrder)
  {
    var ix := BuildIndex(s);
    evaluations := EvaluateAll(ix, s.orders, DefaultServices(s, override), perOrder);
  }
}
