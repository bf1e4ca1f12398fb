/** The gate's verdicts read off the records of the snapshot: one condition per code. */
module GateCodes {
  import opened Ordering
  import opened ReasonCodes
  import opened Snapshots
  import opened Eligibility
  import opened GateProperties
  import opened Listing
  import opened Agreement

  // ---------------------------------------------------------------- conditions on the records

  /** The terminal is there and supports every tag of the order. */
  ghost predicate TakesTags(s: Snapshot, terminal: Id, o: Order) {
    exists t :: t in s.terminals && t.id == terminal && o.compatibilityTags <= t.supportedTags
  }

  /** Arrival plus the handling minutes of the destination, sixty seconds each, is past the due time. */
  ghost predicate ArrivesLate(s: Snapshot, o: Order, v: Service) {
    exists t :: t in s.terminals && t.id == v.destinationTerminal
                && v.arrivalAt + t.minimumHandlingMinutes * 60 * 1_000_000 > o.dueAt
  }

  ghost predicate TooHigh(s: Snapshot, o: Order, v: Service) {
    exists r :: r in s.routes && r.id == v.routeConstraint && o.dimensions.height > r.maxHeight
  }

  ghost predicate TooWide(s: Snapshot, o: Order, v: Service) {
    exists r :: r in s.routes && r.id == v.routeConstraint && o.dimensions.width > r.maxWidth
  }

  ghost predicate TooHeavy(s: Snapshot, o: Order, v: Service) {
    exists r :: r in s.routes && r.id == v.routeConstraint
                && o.grossWeight.Some? && o.grossWeight.value > r.maxWeight
  }

  /** The service itself stands in nobody's way. */
  ghost predicate Carries(s: Snapshot, o: Order, v: Service) {
    && v.available
    && v.originTerminal in o.originTerminals && v.destinationTerminal in o.destinationTerminals
    && TakesTags(s, v.originTerminal, o) && TakesTags(s, v.destinationTerminal, o)
    && o.readyAt <= v.planningCutoffAt && !ArrivesLate(s, o, v)
    && !TooHigh(s, o, v) && !TooWide(s, o, v) && !TooHeavy(s, o, v)
  }

  predicate Listed(services: seq<Id>, s: Snapshot, v: Service) {
    v in s.services && v.id in services
  }

  /** A slot of a listed service that carries the order. */
  ghost predicate Reaches(s: Snapshot, o: Order, services: seq<Id>, v: Service, w: Wagon, l: Slot) {
    && Listed(services, s, v) && Carries(s, o, v)
    && w in s.wagons && w.service == v.id && l in s.slots && l.wagon == w.id
  }

  // ---------------------------------------------------------------- tables and records

  lemma InTable<T>(records: seq<T>, key: T -> Id, t: T)
    requires DistinctKeys(records, key) && t in records
    ensures key(t) in ById(records, key) && ById(records, key)[key(t)] == t
  {
    SameKeySameRecord(records, key, t, ById(records, key)[key(t)]);
  }

  lemma HandlesIsTakesTags(s: Snapshot, terminal: Id, o: Order)
    requires WellFormed(s) && WagonsKnown(s)
    ensures Handles(IndexOf(s), terminal, o) <==> TakesTags(s, terminal, o)
  {
    if t :| t in s.terminals && t.id == terminal && o.compatibilityTags <= t.supportedTags {
      InTable(s.terminals, TerminalId, t);
    }
    if terminal in ById(s.terminals, TerminalId) {
      assert ById(s.terminals, TerminalId)[terminal] in s.terminals;
    }
  }

  lemma LateIsArrivesLate(s: Snapshot, o: Order, v: Service)
    requires WellFormed(s) && WagonsKnown(s) && v in s.services
    ensures v.arrivalAt + HandlingTime(IndexOf(s), v) > o.dueAt <==> ArrivesLate(s, o, v)
  {
    assert ServiceResolves(s, v);
    KnownInTable(v.destinationTerminal, s.terminals, TerminalId);
    var t := ById(s.terminals, TerminalId)[v.destinationTerminal];
    assert t in s.terminals && t.id == v.destinationTerminal;
    forall u | u in s.terminals && u.id == v.destinationTerminal ensures u == t {
      InTable(s.terminals, TerminalId, u);
    }
  }

  lemma RouteOf(s: Snapshot, v: Service) returns (r: RouteConstraint)
    requires WellFormed(s) && WagonsKnown(s) && v in s.services
    ensures r in s.routes && r.id == v.routeConstraint
    ensures v.routeConstraint in IndexOf(s).routes && IndexOf(s).routes[v.routeConstraint] == r
    ensures forall q :: q in s.routes && q.id == v.routeConstraint ==> q == r
  {
    assert ServiceResolves(s, v);
    KnownInTable(v.routeConstraint, s.routes, RouteId);
    r := ById(s.routes, RouteId)[v.routeConstraint];
    forall q | q in s.routes && q.id == v.routeConstraint ensures q == r {
      InTable(s.routes, RouteId, q);
    }
  }

  lemma RouteRead(s: Snapshot, o: Order, v: Service)
    requires WellFormed(s) && WagonsKnown(s) && v in s.services
    ensures v.routeConstraint in IndexOf(s).routes
    ensures var r := IndexOf(s).routes[v.routeConstraint];
            && (TooHigh(s, o, v) <==> o.dimensions.height > r.maxHeight)
            && (TooWide(s, o, v) <==> o.dimensions.width > r.maxWidth)
            && (TooHeavy(s, o, v) <==> o.grossWeight.Some? && o.grossWeight.value > r.maxWeight)
  {
    var r := RouteOf(s, v);
  }

  lemma LegCodes(ix: Index, o: Order, v: Service)
    ensures ServiceViolates(ix, o, v, ServiceUnavailable) <==> !v.available
    ensures ServiceViolates(ix, o, v, TerminalNotOnServiceRoute) <==>
              v.originTerminal !in o.originTerminals || v.destinationTerminal !in o.destinationTerminals
    ensures ServiceViolates(ix, o, v, TerminalNotCompatible) <==>
              !Handles(ix, v.originTerminal, o) || !Handles(ix, v.destinationTerminal, o)
    ensures ServiceViolates(ix, o, v, ReadyAfterCutoff) <==> o.readyAt > v.planningCutoffAt
    ensures ServiceViolates(ix, o, v, DueTimeExceeded) <==> v.arrivalAt + HandlingTime(ix, v) > o.dueAt
  {
  }

  lemma RouteCodes(ix: Index, o: Order, v: Service)
    requires v.routeConstraint in ix.routes
    ensures var r := ix.routes[v.routeConstraint];
            && (ServiceViolates(ix, o, v, TunnelHeightExceeded) <==> o.dimensions.height > r.maxHeight)
            && (ServiceViolates(ix, o, v, RouteWidthExceeded) <==> o.dimensions.width > r.maxWidth)
            && (ServiceViolates(ix, o, v, RouteWeightExceeded) <==>
                  o.grossWeight.Some? && o.grossWeight.value > r.maxWeight)
  {
  }

  lemma ViolationsAreCodes(ix: Index, o: Order, v: Service)
    ensures forall c :: c in ServiceCodes(ix, o, v) <==> ServiceViolates(ix, o, v, c)
  {
  }

  /** The service-level codes, one by one. */
  lemma ServiceCodesRead(s: Snapshot, o: Order, v: Service)
    requires WellFormed(s) && WagonsKnown(s) && v in s.services
    ensures var codes := ServiceCodes(IndexOf(s), o, v);
            && (ServiceUnavailable in codes <==> !v.available)
            && (TerminalNotOnServiceRoute in codes <==>
                  v.originTerminal !in o.originTerminals || v.destinationTerminal !in o.destinationTerminals)
            && (TerminalNotCompatible in codes <==>
                  !TakesTags(s, v.originTerminal, o) || !TakesTags(s, v.destinationTerminal, o))
            && (ReadyAfterCutoff in codes <==> o.readyAt > v.planningCutoffAt)
            && (DueTimeExceeded in codes <==> ArrivesLate(s, o, v))
            && (TunnelHeightExceeded in codes <==> TooHigh(s, o, v))
            && (RouteWidthExceeded in codes <==> TooWide(s, o, v))
            && (RouteWeightExceeded in codes <==> TooHeavy(s, o, v))
            && codes <= SERVICE_CODES
  {
    HandlesIsTakesTags(s, v.originTerminal, o);
    HandlesIsTakesTags(s, v.destinationTerminal, o);
    LateIsArrivesLate(s, o, v);
    RouteRead(s, o, v);
    LegCodes(IndexOf(s), o, v);
    RouteCodes(IndexOf(s), o, v);
    OnlyServiceCodes(IndexOf(s), o, v);
    ViolationsAreCodes(IndexOf(s), o, v);
  }

  const SERVICE_CODES: set<Code> := {
    ServiceUnavailable, TerminalNotOnServiceRoute, TerminalNotCompatible, ReadyAfterCutoff, DueTimeExceeded,
    TunnelHeightExceeded, RouteWidthExceeded, RouteWeightExceeded}

  const SLOT_CODES: set<Code> := {
    WagonUnavailable, SlotUnavailable, SlotTagNotSupported, SlotHeightExceeded, SlotWidthExceeded,
    SlotLengthExceeded, SlotWeightExceeded, WagonWeightExceeded}

  lemma OnlyServiceCodes(ix: Index, o: Order, v: Service)
    ensures ServiceCodes(ix, o, v) <= SERVICE_CODES
  {
  }

  lemma OnlySlotCodes(o: Order, b: Berth)
    ensures SlotCodes(o, b) <= SLOT_CODES
  {
  }

  lemma EmptyIffNone(codes: set<Code>)
    requires codes <= SERVICE_CODES
    ensures codes == {} <==>
              && ServiceUnavailable !in codes && TerminalNotOnServiceRoute !in codes
              && TerminalNotCompatible !in codes && ReadyAfterCutoff !in codes && DueTimeExceeded !in codes
              && TunnelHeightExceeded !in codes && RouteWidthExceeded !in codes && RouteWeightExceeded !in codes
  {
    if codes != {} {
      var c :| c in codes;
      assert c in SERVICE_CODES;
    }
  }

  lemma OpenIsCarries(s: Snapshot, o: Order, v: Service)
    requires WellFormed(s) && WagonsKnown(s) && v in s.services
    ensures ServiceCodes(IndexOf(s), o, v) == {} <==> Carries(s, o, v)
  {
    ServiceCodesRead(s, o, v);
    EmptyIffNone(ServiceCodes(IndexOf(s), o, v));
  }

  /** The slot-level codes, one by one. */
  lemma SlotCodesRead(o: Order, b: Berth)
    ensures var w, l := b.wagon, b.slot;
            var codes := SlotCodes(o, b);
            && (WagonUnavailable in codes <==> !w.available)
            && (SlotUnavailable in codes <==> !l.available)
            && (SlotTagNotSupported in codes <==> !(o.compatibilityTags <= l.supportedTags))
            && (SlotHeightExceeded in codes <==> o.dimensions.height > l.maxDimensions.height)
            && (SlotWidthExceeded in codes <==> o.dimensions.width > l.maxDimensions.width)
            && (SlotLengthExceeded in codes <==> o.dimensions.length > l.maxDimensions.length)
            && (SlotWeightExceeded in codes <==> o.grossWeight.Some? && o.grossWeight.value > l.maxWeight)
            && (WagonWeightExceeded in codes <==> o.grossWeight.Some? && o.grossWeight.value > w.maxTotalWeight)
            && codes <= SLOT_CODES
  {
    OnlySlotCodes(o, b);
    assert forall c :: c in SlotCodes(o, b) <==> SlotViolates(o, b, c);
  }

  // ---------------------------------------------------------------- services and slots of an order

  /** The service the identifier names, and no other. */
  lemma ServiceNamed(s: Snapshot, id: Id)
    requires WellFormed(s)
    ensures id in ById(s.services, ServiceId) <==> exists v :: v in s.services && v.id == id
    ensures forall v :: v in s.services && v.id == id ==> ById(s.services, ServiceId)[id] == v
  {
    forall v | v in s.services && v.id == id
      ensures id in ById(s.services, ServiceId) && ById(s.services, ServiceId)[id] == v
    {
      InTable(s.services, ServiceId, v);
    }
    if id in ById(s.services, ServiceId) {
      assert ById(s.services, ServiceId)[id] in s.services && ById(s.services, ServiceId)[id].id == id;
    }
  }

  lemma BerthIsWired(s: Snapshot, b: Berth)
    requires WellFormed(s) && WagonsKnown(s)
    ensures b in Berths(s) <==> b.wagon in s.wagons && b.slot in s.slots && b.slot.wagon == b.wagon.id
  {
    if b in Berths(s) {
      var i :| 0 <= i < |Berths(s)| && Berths(s)[i] == b;
      assert s.slots[i] in s.slots;
    }
    if b.wagon in s.wagons && b.slot in s.slots && b.slot.wagon == b.wagon.id {
      InTable(s.wagons, WagonId, b.wagon);
      var i :| 0 <= i < |s.slots| && s.slots[i] == b.slot;
      assert Berths(s)[i] == b;
    }
  }

  lemma BerthOfService(s: Snapshot, v: Service, w: Wagon, l: Slot)
    requires WellFormed(s) && WagonsKnown(s)
    ensures Berth(w, l) in BerthsOn(IndexOf(s), v.id) <==>
              w in s.wagons && w.service == v.id && l in s.slots && l.wagon == w.id
  {
    BerthsOnService(s, v.id);
    BerthIsWired(s, Berth(w, l));
  }

  ghost predicate SlotRefuses(s: Snapshot, o: Order, v: Service, c: Code) {
    exists w, l :: w in s.wagons && w.service == v.id && l in s.slots && l.wagon == w.id
                   && c in SlotCodes(o, Berth(w, l))
  }

  lemma BerthRefuses(s: Snapshot, o: Order, v: Service, c: Code, b: Berth)
    requires WellFormed(s) && WagonsKnown(s) && b in BerthsOn(IndexOf(s), v.id) && SlotViolates(o, b, c)
    ensures SlotRefuses(s, o, v, c)
  {
    BerthOfService(s, v, b.wagon, b.slot);
    assert Berth(b.wagon, b.slot) == b && c in SlotCodes(o, Berth(b.wagon, b.slot));
  }

  lemma RefusesBerth(s: Snapshot, o: Order, v: Service, c: Code) returns (b: Berth)
    requires WellFormed(s) && WagonsKnown(s) && SlotRefuses(s, o, v, c)
    ensures b in BerthsOn(IndexOf(s), v.id) && SlotViolates(o, b, c)
  {
    var w, l :| w in s.wagons && w.service == v.id && l in s.slots && l.wagon == w.id
                && c in SlotCodes(o, Berth(w, l));
    BerthOfService(s, v, w, l);
    b := Berth(w, l);
  }

  lemma SlotRefusal(s: Snapshot, o: Order, v: Service, c: Code)
    requires WellFormed(s) && WagonsKnown(s)
    ensures (exists b :: b in BerthsOn(IndexOf(s), v.id) && SlotViolates(o, b, c)) <==> SlotRefuses(s, o, v, c)
  {
    if b :| b in BerthsOn(IndexOf(s), v.id) && SlotViolates(o, b, c) {
      BerthRefuses(s, o, v, c, b);
    }
    if SlotRefuses(s, o, v, c) {
      var b := RefusesBerth(s, o, v, c);
    }
  }

  /** A service refuses with its own codes, or once it carries the order with those of its slots. */
  lemma ServiceRefusal(s: Snapshot, o: Order, v: Service, c: Code)
    requires WellFormed(s) && WagonsKnown(s) && v in s.services
    ensures ServiceRefuses(IndexOf(s), o, v.id, c) <==>
              if Carries(s, o, v) then SlotRefuses(s, o, v, c) else c in ServiceCodes(IndexOf(s), o, v)
  {
    ServiceNamed(s, v.id);
    OpenIsCarries(s, o, v);
    SlotRefusal(s, o, v, c);
    ViolationsAreCodes(IndexOf(s), o, v);
  }

  // ---------------------------------------------------------------- the codes of an order

  /** The verdict on a valid order that no listed service can take. */
  ghost predicate Turned(s: Snapshot, o: Order, services: seq<Id>, e: OrderEvaluation)
    requires WagonsKnown(s)
  {
    InputValid(o) && e == EvaluationOf(IndexOf(s), o, services) && e.eligibilityState == Ineligible
  }

  ghost predicate NamesUnknown(s: Snapshot, services: seq<Id>) {
    exists id :: id in services && !Known(id, s.services, ServiceId)
  }

  ghost predicate SomeService(s: Snapshot, o: Order, services: seq<Id>, c: Code)
    requires WagonsKnown(s)
  {
    exists v :: Listed(services, s, v) && c in ServiceCodes(IndexOf(s), o, v)
  }

  ghost predicate SomeRefuses(s: Snapshot, o: Order, services: seq<Id>, c: Code)
    requires WagonsKnown(s)
  {
    exists v :: Listed(services, s, v) && ServiceRefuses(IndexOf(s), o, v.id, c)
  }

  lemma RefusesRead(s: Snapshot, o: Order, services: seq<Id>, c: Code)
    requires WellFormed(s) && WagonsKnown(s)
    ensures Refuses(IndexOf(s), o, services, c) <==>
              (c == ServiceUnavailable && NamesUnknown(s, services)) || SomeRefuses(s, o, services, c)
  {
    RefusesByMember(IndexOf(s), o, services, c);
    if id :| id in services && ServiceRefuses(IndexOf(s), o, id, c) {
      KnownInTable(id, s.services, ServiceId);
      if Known(id, s.services, ServiceId) {
        var v := ById(s.services, ServiceId)[id];
        assert Listed(services, s, v);
      }
    }
    if id :| id in services && !Known(id, s.services, ServiceId) {
      KnownInTable(id, s.services, ServiceId);
    }
  }

  lemma CodesDisjoint(c: Code)
    ensures c in SERVICE_CODES ==> c !in SLOT_CODES
  {
  }

  lemma ServiceRefusesItsOwn(s: Snapshot, o: Order, v: Service, c: Code)
    requires WellFormed(s) && WagonsKnown(s) && v in s.services
    ensures c in ServiceCodes(IndexOf(s), o, v) ==> !Carries(s, o, v) && c in SERVICE_CODES
  {
    OpenIsCarries(s, o, v);
    OnlyServiceCodes(IndexOf(s), o, v);
  }

  lemma OneServiceRefusal(s: Snapshot, o: Order, v: Service, c: Code)
    requires WellFormed(s) && WagonsKnown(s) && v in s.services && c in SERVICE_CODES
    ensures ServiceRefuses(IndexOf(s), o, v.id, c) <==> c in ServiceCodes(IndexOf(s), o, v)
  {
    CodesDisjoint(c);
    SlotRefusesItsOwn(s, o, v, c);
    ServiceRefusesItsOwn(s, o, v, c);
    ServiceRefusal(s, o, v, c);
  }

  lemma OneSlotRefusal(s: Snapshot, o: Order, v: Service, c: Code)
    requires WellFormed(s) && WagonsKnown(s) && v in s.services && c in SLOT_CODES
    ensures ServiceRefuses(IndexOf(s), o, v.id, c) <==> Carries(s, o, v) && SlotRefuses(s, o, v, c)
  {
    CodesDisjoint(c);
    ServiceRefusesItsOwn(s, o, v, c);
    ServiceRefusal(s, o, v, c);
  }

  lemma SlotRefusesItsOwn(s: Snapshot, o: Order, v: Service, c: Code)
    ensures SlotRefuses(s, o, v, c) ==> c in SLOT_CODES
  {
    if w, l :| w in s.wagons && w.service == v.id && l in s.slots && l.wagon == w.id
               && c in SlotCodes(o, Berth(w, l)) {
      OnlySlotCodes(o, Berth(w, l));
    }
  }

  lemma SomeRefusesService(s: Snapshot, o: Order, services: seq<Id>, c: Code)
    requires WellFormed(s) && WagonsKnown(s) && c in SERVICE_CODES
    ensures SomeRefuses(s, o, services, c) <==> SomeService(s, o, services, c)
  {
    forall v | Listed(services, s, v)
      ensures ServiceRefuses(IndexOf(s), o, v.id, c) <==> c in ServiceCodes(IndexOf(s), o, v)
    {
      OneServiceRefusal(s, o, v, c);
    }
  }

  lemma SomeRefusesSlot(s: Snapshot, o: Order, services: seq<Id>, c: Code)
    requires WellFormed(s) && WagonsKnown(s) && c in SLOT_CODES
    ensures SomeRefuses(s, o, services, c) ==> SomeSlot(s, o, services, c)
  {
    if v :| Listed(services, s, v) && ServiceRefuses(IndexOf(s), o, v.id, c) {
      OneSlotRefusal(s, o, v, c);
      RefusedIsSomeSlot(s, o, services, v, c);
    }
  }

  lemma SlotRefusesSome(s: Snapshot, o: Order, services: seq<Id>, c: Code)
    requires WellFormed(s) && WagonsKnown(s) && c in SLOT_CODES
    ensures SomeSlot(s, o, services, c) ==> SomeRefuses(s, o, services, c)
  {
    if v, w, l :| Reaches(s, o, services, v, w, l) && c in SlotCodes(o, Berth(w, l)) {
      assert SlotRefuses(s, o, v, c);
      OneSlotRefusal(s, o, v, c);
    }
  }

  lemma NotBoth(c: Code)
    ensures c in SLOT_CODES ==> c != ServiceUnavailable && c != NoEligibleSlot
    ensures c in SERVICE_CODES ==> c != NoEligibleSlot
  {
  }

  ghost predicate SomeSlot(s: Snapshot, o: Order, services: seq<Id>, c: Code) {
    exists v, w, l :: Reaches(s, o, services, v, w, l) && c in SlotCodes(o, Berth(w, l))
  }

  lemma RefusedIsSomeSlot(s: Snapshot, o: Order, services: seq<Id>, v: Service, c: Code)
    requires Listed(services, s, v) && Carries(s, o, v) && SlotRefuses(s, o, v, c)
    ensures SomeSlot(s, o, services, c)
  {
    var w, l :| w in s.wagons && w.service == v.id && l in s.slots && l.wagon == w.id
                && c in SlotCodes(o, Berth(w, l));
    assert Reaches(s, o, services, v, w, l);
  }

  lemma TurnedCode(s: Snapshot, o: Order, services: seq<Id>, e: OrderEvaluation, c: Code)
    requires WagonsKnown(s) && Turned(s, o, services, e) && c != NoEligibleSlot
    ensures c in e.reasonCodes <==> Refuses(IndexOf(s), o, services, c)
  {
    CodesOfOrder(IndexOf(s), o, services, c);
  }

  lemma TurnedService(s: Snapshot, o: Order, services: seq<Id>, e: OrderEvaluation, c: Code)
    requires WellFormed(s) && WagonsKnown(s) && Turned(s, o, services, e) && c in SERVICE_CODES
    ensures c in e.reasonCodes <==>
              (c == ServiceUnavailable && NamesUnknown(s, services)) || SomeService(s, o, services, c)
  {
    NotBoth(c);
    TurnedCode(s, o, services, e, c);
    RefusesRead(s, o, services, c);
    SomeRefusesService(s, o, services, c);
  }

  /** A valid order that was turned away carries a service's code exactly when some listed service
      breaks that field. First the leg and its times. */
  lemma LegReasonsRead(s: Snapshot, o: Order, services: seq<Id>, e: OrderEvaluation)
    requires WellFormed(s) && WagonsKnown(s) && Turned(s, o, services, e)
    ensures ServiceUnavailable in e.reasonCodes <==>
              NamesUnknown(s, services) || exists v :: Listed(services, s, v) && !v.available
    ensures TerminalNotOnServiceRoute in e.reasonCodes <==>
              exists v :: Listed(services, s, v)
                          && (v.originTerminal !in o.originTerminals
                              || v.destinationTerminal !in o.destinationTerminals)
    ensures TerminalNotCompatible in e.reasonCodes <==>
              exists v :: Listed(services, s, v)
                          && (!TakesTags(s, v.originTerminal, o) || !TakesTags(s, v.destinationTerminal, o))
    ensures ReadyAfterCutoff in e.reasonCodes <==> exists v :: Listed(services, s, v) && o.readyAt > v.planningCutoffAt
    ensures DueTimeExceeded in e.reasonCodes <==> exists v :: Listed(services, s, v) && ArrivesLate(s, o, v)
  {
    TurnedService(s, o, services, e, ServiceUnavailable);
    TurnedService(s, o, services, e, TerminalNotOnServiceRoute);
    TurnedService(s, o, services, e, TerminalNotCompatible);
    TurnedService(s, o, services, e, ReadyAfterCutoff);
    TurnedService(s, o, services, e, DueTimeExceeded);
    forall v | Listed(services, s, v) {
      ServiceCodesRead(s, o, v);
    }
  }

  /** Then the clearances of its route. */
  lemma RouteReasonsRead(s: Snapshot, o: Order, services: seq<Id>, e: OrderEvaluation)
    requires WellFormed(s) && WagonsKnown(s) && Turned(s, o, services, e)
    ensures TunnelHeightExceeded in e.reasonCodes <==> exists v :: Listed(services, s, v) && TooHigh(s, o, v)
    ensures RouteWidthExceeded in e.reasonCodes <==> exists v :: Listed(services, s, v) && TooWide(s, o, v)
    ensures RouteWeightExceeded in e.reasonCodes <==> exists v :: Listed(services, s, v) && TooHeavy(s, o, v)
  {
    TurnedService(s, o, services, e, TunnelHeightExceeded);
    TurnedService(s, o, services, e, RouteWidthExceeded);
    TurnedService(s, o, services, e, RouteWeightExceeded);
    forall v | Listed(services, s, v) {
      ServiceCodesRead(s, o, v);
    }
  }

  lemma TurnedSlot(s: Snapshot, o: Order, services: seq<Id>, e: OrderEvaluation, c: Code)
    requires WellFormed(s) && WagonsKnown(s) && Turned(s, o, services, e) && c in SLOT_CODES
    ensures c in e.reasonCodes <==> SomeSlot(s, o, services, c)
  {
    NotBoth(c);
    TurnedCode(s, o, services, e, c);
    RefusesRead(s, o, services, c);
    SomeRefusesSlot(s, o, services, c);
    SlotRefusesSome(s, o, services, c);
  }

  /** It carries a slot's code exactly when some slot of a listed service that carries it breaks
      that field. */
  lemma SlotResourcesRead(s: Snapshot, o: Order, services: seq<Id>, e: OrderEvaluation)
    requires WellFormed(s) && WagonsKnown(s) && Turned(s, o, services, e)
    ensures WagonUnavailable in e.reasonCodes <==>
              exists v, w, l :: Reaches(s, o, services, v, w, l) && !w.available
    ensures SlotUnavailable in e.reasonCodes <==>
              exists v, w, l :: Reaches(s, o, services, v, w, l) && !l.available
    ensures SlotTagNotSupported in e.reasonCodes <==>
              exists v, w, l :: Reaches(s, o, services, v, w, l) && !(o.compatibilityTags <= l.supportedTags)
  {
    TurnedSlot(s, o, services, e, WagonUnavailable);
    TurnedSlot(s, o, services, e, SlotUnavailable);
    TurnedSlot(s, o, services, e, SlotTagNotSupported);
    forall w, l {
      SlotCodesRead(o, Berth(w, l));
    }
  }

  lemma SlotLimitsRead(s: Snapshot, o: Order, services: seq<Id>, e: OrderEvaluation)
    requires WellFormed(s) && WagonsKnown(s) && Turned(s, o, services, e)
    ensures SlotHeightExceeded in e.reasonCodes <==>
              exists v, w, l :: Reaches(s, o, services, v, w, l) && o.dimensions.height > l.maxDimensions.height
    ensures SlotWidthExceeded in e.reasonCodes <==>
              exists v, w, l :: Reaches(s, o, services, v, w, l) && o.dimensions.width > l.maxDimensions.width
    ensures SlotLengthExceeded in e.reasonCodes <==>
              exists v, w, l :: Reaches(s, o, services, v, w, l) && o.dimensions.length > l.maxDimensions.length
    ensures SlotWeightExceeded in e.reasonCodes <==>
              exists v, w, l :: Reaches(s, o, services, v, w, l) && o.grossWeight.value > l.maxWeight
    ensures WagonWeightExceeded in e.reasonCodes <==>
              exists v, w, l :: Reaches(s, o, services, v, w, l) && o.grossWeight.value > w.maxTotalWeight
  {
    TurnedSlot(s, o, services, e, SlotHeightExceeded);
    TurnedSlot(s, o, services, e, SlotWidthExceeded);
    TurnedSlot(s, o, services, e, SlotLengthExceeded);
    TurnedSlot(s, o, services, e, SlotWeightExceeded);
    TurnedSlot(s, o, services, e, WagonWeightExceeded);
    forall w, l {
      SlotCodesRead(o, Berth(w, l));
    }
  }

  // ---------------------------------------------------------------- nothing to say, and candidates

  lemma NeverRefusesNothing(s: Snapshot, o: Order, services: seq<Id>, c: Code)
    requires WellFormed(s) && WagonsKnown(s)
    ensures Refuses(IndexOf(s), o, services, c) ==> c in SERVICE_CODES || c in SLOT_CODES
  {
    RefusesRead(s, o, services, c);
    if v :| Listed(services, s, v) && ServiceRefuses(IndexOf(s), o, v.id, c) {
      ServiceRefusal(s, o, v, c);
      SlotRefusesItsOwn(s, o, v, c);
      OnlyServiceCodes(IndexOf(s), o, v);
    }
  }

  /** The one open slot is a candidate, so a slot that is reached by an order turned away refuses. */
  lemma OpenSlotIsCandidate(s: Snapshot, o: Order, services: seq<Id>, v: Service, w: Wagon, l: Slot)
    requires WellFormed(s) && WagonsKnown(s)
    requires Listed(services, s, v)
    requires w in s.wagons && w.service == v.id && l in s.slots && l.wagon == w.id
    ensures l.id in BerthTable(s) && BerthTable(s)[l.id] == Berth(w, l)
    ensures Fits(s, o, Candidate(o.id, v.id, w.id, l.id)) <==> Carries(s, o, v) && PassesSlot(o, Berth(w, l))
  {
    BerthIsWired(s, Berth(w, l));
    BerthsDistinct(s);
    ServiceNamed(s, v.id);
    OpenIsCarries(s, o, v);
    SlotCodesEmpty(o, Berth(w, l));
  }

  lemma FitIsWired(s: Snapshot, o: Order, c: Candidate) returns (v: Service, w: Wagon, l: Slot)
    requires WellFormed(s) && WagonsKnown(s) && Fits(s, o, c)
    ensures v in s.services && w in s.wagons && w.service == v.id && l in s.slots && l.wagon == w.id
    ensures c == Candidate(o.id, v.id, w.id, l.id)
  {
    BerthFacts(s, c.slot);
    w, l := BerthTable(s)[c.slot].wagon, BerthTable(s)[c.slot].slot;
    v := ById(s.services, ServiceId)[c.service];
    assert v in s.services && v.id == c.service;
  }

  /** The candidates of a valid order are the slots of listed services that carry it, on an open
      wagon, that take its size, tags and weight. */
  lemma CandidatesRead(s: Snapshot, o: Order, services: seq<Id>, c: Candidate)
    requires WellFormed(s) && WagonsKnown(s) && InputValid(o)
    ensures c in EvaluationOf(IndexOf(s), o, services).candidates <==>
              exists v, w, l :: Reaches(s, o, services, v, w, l) && PassesSlot(o, Berth(w, l))
                                && c == Candidate(o.id, v.id, w.id, l.id)
  {
    CandidatesOfOrder(s, o, services, c);
    if Fits(s, o, c) && c.service in services {
      var v, w, l := FitIsWired(s, o, c);
      OpenSlotIsCandidate(s, o, services, v, w, l);
      assert Reaches(s, o, services, v, w, l);
    }
    if v, w, l :| Reaches(s, o, services, v, w, l) && PassesSlot(o, Berth(w, l))
                  && c == Candidate(o.id, v.id, w.id, l.id) {
      OpenSlotIsCandidate(s, o, services, v, w, l);
    }
  }

  lemma TurnedSlotsRefuse(s: Snapshot, o: Order, services: seq<Id>, e: OrderEvaluation, v: Service, w: Wagon, l: Slot)
    requires WellFormed(s) && WagonsKnown(s) && Turned(s, o, services, e) && Reaches(s, o, services, v, w, l)
    ensures exists c :: c in SLOT_CODES && Refuses(IndexOf(s), o, services, c)
  {
    CandidatesRead(s, o, services, Candidate(o.id, v.id, w.id, l.id));
    SlotCodesEmpty(o, Berth(w, l));
    var c :| c in SlotCodes(o, Berth(w, l));
    OnlySlotCodes(o, Berth(w, l));
    SlotRefusesSome(s, o, services, c);
    RefusesRead(s, o, services, c);
  }

  /** Every listed service is known and carries the order, and none of them has a slot at all. */
  ghost predicate NothingToTry(s: Snapshot, o: Order, services: seq<Id>) {
    && !NamesUnknown(s, services)
    && (forall v :: Listed(services, s, v) ==> Carries(s, o, v))
    && (forall v, w, l :: !Reaches(s, o, services, v, w, l))
  }

  lemma RefusedHasTried(s: Snapshot, o: Order, services: seq<Id>, c: Code)
    requires WellFormed(s) && WagonsKnown(s) && Refuses(IndexOf(s), o, services, c)
    ensures !NothingToTry(s, o, services)
  {
    RefusesRead(s, o, services, c);
    if v :| Listed(services, s, v) && ServiceRefuses(IndexOf(s), o, v.id, c) {
      RefusingIsTried(s, o, services, v, c);
    }
  }

  lemma RefusingIsTried(s: Snapshot, o: Order, services: seq<Id>, v: Service, c: Code)
    requires WellFormed(s) && WagonsKnown(s)
    requires Listed(services, s, v) && ServiceRefuses(IndexOf(s), o, v.id, c)
    ensures !Carries(s, o, v) || exists w, l :: Reaches(s, o, services, v, w, l)
  {
    ServiceRefusal(s, o, v, c);
    if Carries(s, o, v) {
      var w, l :| w in s.wagons && w.service == v.id && l in s.slots && l.wagon == w.id
                  && c in SlotCodes(o, Berth(w, l));
      assert Reaches(s, o, services, v, w, l);
    }
  }

  lemma UncarriedRefuses(s: Snapshot, o: Order, services: seq<Id>, v: Service)
    requires WellFormed(s) && WagonsKnown(s) && Listed(services, s, v) && !Carries(s, o, v)
    ensures exists c :: Refuses(IndexOf(s), o, services, c)
  {
    OpenIsCarries(s, o, v);
    var c :| c in ServiceCodes(IndexOf(s), o, v);
    ServiceRefusal(s, o, v, c);
    RefusesRead(s, o, services, c);
  }

  lemma TriedIsRefused(s: Snapshot, o: Order, services: seq<Id>, e: OrderEvaluation)
    requires WellFormed(s) && WagonsKnown(s) && Turned(s, o, services, e) && !NothingToTry(s, o, services)
    ensures exists c :: Refuses(IndexOf(s), o, services, c)
  {
    if NamesUnknown(s, services) {
      RefusesRead(s, o, services, ServiceUnavailable);
    } else if v :| Listed(services, s, v) && !Carries(s, o, v) {
      UncarriedRefuses(s, o, services, v);
    } else {
      var v, w, l :| Reaches(s, o, services, v, w, l);
      TurnedSlotsRefuse(s, o, services, e, v, w, l);
    }
  }

  lemma NoSlotCode(s: Snapshot, o: Order, services: seq<Id>, e: OrderEvaluation)
    requires WellFormed(s) && WagonsKnown(s) && Turned(s, o, services, e)
    ensures NoEligibleSlot in e.reasonCodes <==> forall c :: !Refuses(IndexOf(s), o, services, c)
  {
    CodesOfOrder(IndexOf(s), o, services, NoEligibleSlot);
    NeverRefusesNothing(s, o, services, NoEligibleSlot);
    NotBoth(NoEligibleSlot);
  }

  /** NO_ELIGIBLE_SLOT says exactly that there was nothing to try, and then it stands alone. */
  lemma NoSlotRead(s: Snapshot, o: Order, services: seq<Id>, e: OrderEvaluation)
    requires WellFormed(s) && WagonsKnown(s) && Turned(s, o, services, e)
    ensures NoEligibleSlot in e.reasonCodes <==> NothingToTry(s, o, services)
    ensures NoEligibleSlot in e.reasonCodes ==> forall c :: c in e.reasonCodes ==> c == NoEligibleSlot
  {
    NoSlotCode(s, o, services, e);
    if c :| Refuses(IndexOf(s), o, services, c) {
      RefusedHasTried(s, o, services, c);
    }
    if !NothingToTry(s, o, services) {
      TriedIsRefused(s, o, services, e);
    }
    forall c | NoEligibleSlot in e.reasonCodes && c in e.reasonCodes ensures c == NoEligibleSlot {
      CodesOfOrder(IndexOf(s), o, services, c);
    }
  }

  /** The codes of any verdict come in text order, each once. */
  lemma ReasonsAscend(ix: Index, o: Order, services: seq<Id>)
    ensures StrictlyIncreasing(EvaluationOf(ix, o, services).reasonCodes, Text)
  {
    var e := EvaluationOf(ix, o, services);
    if !InputValid(o) {
      SortedCodesAscend(InputCodes(o));
    } else if e.candidates == [] {
      var refusals := Refusals(ix, o, services);
      SortedCodesAscend(if refusals == {} then {NoEligibleSlot} else refusals);
    }
  }

  // ---------------------------------------------------------------- the order of the candidates

  /** By the wagon's place in the display, then the slot's position, then its identifier. */
  predicate ShownBefore(a: Berth, b: Berth) {
    || a.wagon.displayOrder < b.wagon.displayOrder
    || (a.wagon.displayOrder == b.wagon.displayOrder && a.slot.position < b.slot.position)
    || (a.wagon.displayOrder == b.wagon.displayOrder && a.slot.position == b.slot.position
        && Leq(a.slot.id, b.slot.id))
  }

  function OpenOnes(o: Order, berths: seq<Berth>): (r: seq<Berth>)
    ensures forall b :: b in r ==> b in berths
  {
    if berths == [] then []
    else
      var last := berths[|berths| - 1];
      OpenOnes(o, berths[..|berths| - 1]) + (if SlotOpen(o, last) then [last] else [])
  }

  lemma {:induction false} OpenOnesSorted(o: Order, berths: seq<Berth>)
    requires Sorted(berths, BerthLeq)
    ensures Sorted(OpenOnes(o, berths), BerthLeq)
    decreases |berths|
  {
    if berths != [] {
      var front, last := berths[..|berths| - 1], berths[|berths| - 1];
      OpenOnesSorted(o, front);
      var r := OpenOnes(o, front);
      forall i | 0 <= i < |r| ensures BerthLeq(r[i], last) {
        assert r[i] in front;
        var k :| 0 <= k < |front| && front[k] == r[i];
        assert BerthLeq(berths[k], berths[|berths| - 1]);
      }
    }
  }

  lemma {:induction false} OpenOnesAre(o: Order, service: Id, berths: seq<Berth>)
    ensures |OpenBerths(o, service, berths)| == |OpenOnes(o, berths)|
    ensures forall i :: 0 <= i < |OpenOnes(o, berths)| ==>
              OpenBerths(o, service, berths)[i] == CandidateFor(o, service, OpenOnes(o, berths)[i])
    decreases |berths|
  {
    if berths != [] {
      OpenOnesAre(o, service, berths[..|berths| - 1]);
    }
  }

  lemma BerthOrder()
    ensures TotalOrder(BerthLeq)
  {
    forall a: Berth, b: Berth ensures BerthLeq(a, b) || BerthLeq(b, a) {
      LeqTotal(a.slot.id, b.slot.id);
    }
    forall a: Berth, b: Berth, c: Berth | BerthLeq(a, b) && BerthLeq(b, c) ensures BerthLeq(a, c) {
      if Leq(a.slot.id, b.slot.id) && Leq(b.slot.id, c.slot.id) {
        LeqTransitive(a.slot.id, b.slot.id, c.slot.id);
      }
    }
  }

  /** The candidates on one service stand for slots in display order. */
  lemma CandidatesInOrder(ix: Index, o: Order, service: Id) returns (berths: seq<Berth>)
    requires ServiceOpen(ix, o, service)
    ensures |berths| == |CandidatesOn(ix, o, service)|
    ensures forall i :: 0 <= i < |berths| ==>
              && berths[i] in BerthsOn(ix, service)
              && CandidatesOn(ix, o, service)[i] == Candidate(o.id, service, berths[i].wagon.id, berths[i].slot.id)
    ensures forall i, j :: 0 <= i < j < |berths| ==> ShownBefore(berths[i], berths[j])
  {
    var sorted := SortedBerthsOn(ix, service);
    BerthOrder();
    SortSorts(BerthsOn(ix, service), BerthLeq);
    SameMultisetSameMembers(sorted, BerthsOn(ix, service));
    berths := OpenOnes(o, sorted);
    OpenOnesSorted(o, sorted);
    OpenOnesAre(o, service, sorted);
    forall i | 0 <= i < |berths| ensures berths[i] in BerthsOn(ix, service) {
      assert berths[i] in sorted;
    }
    forall i, j | 0 <= i < j < |berths| ensures ShownBefore(berths[i], berths[j]) {
      assert BerthLeq(berths[i], berths[j]);
    }
  }
}
