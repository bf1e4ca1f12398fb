/** The immutable planning input and the referential integrity it is accepted under.
    Instants are microseconds on one time line. */
module Snapshots {
  import opened Ordering

  type Positive = n: nat | n >= 1 witness 1

  datatype Tag = TrailerStandard | TrailerTall
  type Tags = t: set<Tag> | t != {} witness {TrailerStandard}
  type TerminalIds = t: set<Id> | t != {} witness {""}

  datatype PriorityClass = P1 | P2 | P3
  datatype Dimensions = Dimensions(length: Positive, width: Positive, height: Positive)

  datatype Terminal = Terminal(id: Id, minimumHandlingMinutes: nat, supportedTags: Tags)

  datatype RouteConstraint = RouteConstraint(id: Id, maxHeight: Positive, maxWidth: Positive, maxWeight: Positive)

  datatype Service = Service(
    id: Id,
    originTerminal: Id,
    destinationTerminal: Id,
    departureAt: int,
    arrivalAt: int,
    planningCutoffAt: int,
    routeConstraint: Id,
    available: bool)

  datatype Wagon = Wagon(id: Id, service: Id, maxTotalWeight: Positive, available: bool, displayOrder: Positive)

  datatype Slot = Slot(
    id: Id,
    wagon: Id,
    position: Positive,
    maxWeight: Positive,
    maxDimensions: Dimensions,
    supportedTags: Tags,
    available: bool)

  datatype AdjustmentWindow = AdjustmentWindow(services: seq<Id>, destinationTerminals: seq<Id>)

  datatype Order = Order(
    id: Id,
    shipper: Id,
    originTerminals: TerminalIds,
    destinationTerminals: TerminalIds,
    readyAt: int,
    dueAt: int,
    grossWeight: Option<Positive>,
    dimensions: Dimensions,
    compatibilityTags: Tags,
    priority: PriorityClass,
    window: Option<AdjustmentWindow>)

  datatype Adjustment =
    | AddOrderApprovedService
    | ChangeToApprovedTerminal
    | ChangeWeightLimit
    | ChangeDimensionLimit
    | ChangeRouteClearance
    | ChangeDueAt

  /** What a policy may allow, and what it may only forbid. */
  type AllowedAdjustment = t: Adjustment |
    t == AddOrderApprovedService || t == ChangeToApprovedTerminal witness AddOrderApprovedService
  type ForbiddenAdjustment = t: Adjustment |
    t != AddOrderApprovedService && t != ChangeToApprovedTerminal witness ChangeDueAt

  datatype PriorityScores = PriorityScores(p1: int, p2: int, p3: int)

  datatype Policy = Policy(
    version: string,
    scores: PriorityScores,
    allowed: seq<AllowedAdjustment>,
    forbidden: seq<ForbiddenAdjustment>)

  datatype ScenarioType = Baseline | Alternative

  datatype Snapshot = Snapshot(
    scenarioId: Id,
    scenarioType: ScenarioType,
    asOf: int,
    baselineServices: seq<Id>,
    assumptions: seq<Id>,
    shippers: seq<Id>,
    terminals: seq<Terminal>,
    routes: seq<RouteConstraint>,
    services: seq<Service>,
    wagons: seq<Wagon>,
    slots: seq<Slot>,
    orders: seq<Order>,
    policy: Policy)

  // Record keys, named so that lookup tables built in different places agree.
  function TerminalId(t: Terminal): Id { t.id }
  function RouteId(r: RouteConstraint): Id { r.id }
  function ServiceId(s: Service): Id { s.id }
  function WagonId(w: Wagon): Id { w.id }
  function SlotId(s: Slot): Id { s.id }
  function OrderId(o: Order): Id { o.id }

  // ---------------------------------------------------------------- well-formedness

  predicate Known<T>(id: Id, records: seq<T>, key: T -> Id) {
    id in MapSeq(records, key)
  }

  ghost predicate ServiceResolves(s: Snapshot, v: Service) {
    && Known(v.originTerminal, s.terminals, TerminalId)
    && Known(v.destinationTerminal, s.terminals, TerminalId)
    && Known(v.routeConstraint, s.routes, RouteId)
    && v.departureAt < v.arrivalAt
    && v.planningCutoffAt <= v.departureAt
  }

  ghost predicate OrderResolves(s: Snapshot, o: Order) {
    && o.shipper in s.shippers
    && (forall t :: t in o.originTerminals ==> Known(t, s.terminals, TerminalId))
    && (forall t :: t in o.destinationTerminals ==> Known(t, s.terminals, TerminalId))
    && (o.window.Some? ==>
          && (forall v :: v in o.window.value.services ==> Known(v, s.services, ServiceId))
          && (forall t :: t in o.window.value.destinationTerminals ==> Known(t, s.terminals, TerminalId)))
  }

  ghost predicate IdsDistinct(s: Snapshot) {
    && DistinctKeys(s.terminals, TerminalId)
    && DistinctKeys(s.services, ServiceId)
    && DistinctKeys(s.wagons, WagonId)
    && DistinctKeys(s.slots, SlotId)
    && DistinctKeys(s.orders, OrderId)
    && DistinctKeys(s.shippers, Self)
    && DistinctKeys(s.routes, RouteId)
  }

  /** The snapshot is named and none of its lists is empty. */
  predicate Populated(s: Snapshot) {
    && s.scenarioId != "" && s.baselineServices != [] && s.assumptions != [] && s.shippers != []
    && s.terminals != [] && s.routes != [] && s.services != [] && s.wagons != [] && s.slots != [] && s.orders != []
  }

  /** What the snapshot model accepts: lists that are not empty, and resolving references. The
      ranges of the other fields are in their types. */
  ghost predicate WellFormed(s: Snapshot) {
    && Populated(s)
    && IdsDistinct(s)
    && (forall v :: v in s.baselineServices ==> Known(v, s.services, ServiceId))
    && (forall v :: v in s.services ==> ServiceResolves(s, v))
    && (forall w :: w in s.wagons ==> Known(w.service, s.services, ServiceId))
    && (forall t :: t in s.slots ==> Known(t.wagon, s.wagons, WagonId))
    && (forall o :: o in s.orders ==> OrderResolves(s, o))
  }

  datatype SnapshotError =
    | EmptyField(name: string)
    | DuplicateId(id: Id)
    | UnknownReference(owner: Id, id: Id)
    | ArrivalNotAfterDeparture(service: Id)
    | CutoffAfterDeparture(service: Id)

  lemma KeysOfPrefix(ids: seq<Id>, n: nat)
    requires n < |ids|
    ensures DistinctKeys(ids[..n + 1], Self) <==> DistinctKeys(ids[..n], Self) && ids[n] !in ids[..n]
  {
    if DistinctKeys(ids[..n + 1], Self) {
      forall i, j | 0 <= i < j < n ensures Self(ids[..n][i]) != Self(ids[..n][j]) {
        assert Self(ids[..n + 1][i]) != Self(ids[..n + 1][j]);
      }
      forall i | 0 <= i < n ensures ids[..n][i] != ids[n] {
        assert Self(ids[..n + 1][i]) != Self(ids[..n + 1][n]);
      }
    }
  }

  /** Reports every identifier already seen earlier in the list. */
  method RejectDuplicates(before: seq<SnapshotError>, ids: seq<Id>) returns (errors: seq<SnapshotError>)
    ensures errors == [] <==> before == [] && DistinctKeys(ids, Self)
  {
    errors := before;
    var seen := {};
    for n := 0 to |ids|
      invariant seen == set i | i in ids[..n]
      invariant errors == [] <==> before == [] && DistinctKeys(ids[..n], Self)
    {
      KeysOfPrefix(ids, n);
      if ids[n] in seen {
        errors := errors + [DuplicateId(ids[n])];
      }
      seen := seen + {ids[n]};
    }
    assert ids[..|ids|] == ids;
  }

  lemma DistinctMapped<T>(records: seq<T>, key: T -> Id)
    ensures DistinctKeys(MapSeq(records, key), Self) <==> DistinctKeys(records, key)
  {
    var ids := MapSeq(records, key);
    if DistinctKeys(ids, Self) {
      forall i, j | 0 <= i < j < |records| ensures key(records[i]) != key(records[j]) {
        assert Self(ids[i]) != Self(ids[j]);
      }
    }
    if DistinctKeys(records, key) {
      forall i, j | 0 <= i < j < |ids| ensures Self(ids[i]) != Self(ids[j]) {
        assert key(records[i]) != key(records[j]);
      }
    }
  }

  /** Reports every listed identifier that names no record. */
  method RejectUnknown(before: seq<SnapshotError>, owner: Id, ids: seq<Id>, known: seq<Id>)
    returns (errors: seq<SnapshotError>)
    ensures errors == [] <==> before == [] && forall i :: i in ids ==> i in known
  {
    errors := before;
    for n := 0 to |ids|
      invariant errors == [] <==> before == [] && forall k :: 0 <= k < n ==> ids[k] in known
    {
      if ids[n] !in known {
        errors := errors + [UnknownReference(owner, ids[n])];
      }
    }
  }

  method CheckService(before: seq<SnapshotError>, s: Snapshot, v: Service) returns (errors: seq<SnapshotError>)
    ensures errors == [] <==> before == [] && ServiceResolves(s, v)
  {
    var terminals := MapSeq(s.terminals, TerminalId);
    errors := RejectUnknown(before, v.id, [v.originTerminal, v.destinationTerminal], terminals);
    errors := RejectUnknown(errors, v.id, [v.routeConstraint], MapSeq(s.routes, RouteId));
    assert v.originTerminal in [v.originTerminal, v.destinationTerminal];
    assert v.destinationTerminal in [v.originTerminal, v.destinationTerminal];
    assert v.routeConstraint in [v.routeConstraint];
    if v.arrivalAt <= v.departureAt {
      errors := errors + [ArrivalNotAfterDeparture(v.id)];
    }
    if v.planningCutoffAt > v.departureAt {
      errors := errors + [CutoffAfterDeparture(v.id)];
    }
  }

  method RejectUnknownSet(before: seq<SnapshotError>, owner: Id, ids: set<Id>, known: seq<Id>)
    returns (errors: seq<SnapshotError>)
    ensures errors == [] <==> before == [] && forall i :: i in ids ==> i in known
  {
    errors := before;
    var rest := ids;
    while rest != {}
      invariant rest <= ids
      invariant errors == [] <==> before == [] && forall i :: i in ids - rest ==> i in known
      decreases rest
    {
      var i :| i in rest;
      if i !in known {
        errors := errors + [UnknownReference(owner, i)];
      }
      rest := rest - {i};
      assert i in ids - rest;
    }
    assert ids - rest == ids;
  }

  method CheckOrder(before: seq<SnapshotError>, s: Snapshot, o: Order) returns (errors: seq<SnapshotError>)
    ensures errors == [] <==> before == [] && OrderResolves(s, o)
  {
    var terminals := MapSeq(s.terminals, TerminalId);
    errors := RejectUnknown(before, o.id, [o.shipper], s.shippers);
    assert o.shipper in [o.shipper];
    errors := RejectUnknownSet(errors, o.id, o.originTerminals, terminals);
    errors := RejectUnknownSet(errors, o.id, o.destinationTerminals, terminals);
    if o.window.Some? {
      errors := RejectUnknown(errors, o.id, o.window.value.services, MapSeq(s.services, ServiceId));
      errors := RejectUnknown(errors, o.id, o.window.value.destinationTerminals, terminals);
    }
  }

  method RejectAllDuplicates(s: Snapshot) returns (errors: seq<SnapshotError>)
    ensures errors == [] <==> IdsDistinct(s)
  {
    DistinctMapped(s.terminals, TerminalId);
    DistinctMapped(s.services, ServiceId);
    DistinctMapped(s.wagons, WagonId);
    DistinctMapped(s.slots, SlotId);
    DistinctMapped(s.orders, OrderId);
    DistinctMapped(s.routes, RouteId);
    errors := RejectDuplicates([], MapSeq(s.terminals, TerminalId));
    errors := RejectDuplicates(errors, MapSeq(s.services, ServiceId));
    errors := RejectDuplicates(errors, MapSeq(s.wagons, WagonId));
    errors := RejectDuplicates(errors, MapSeq(s.slots, SlotId));
    errors := RejectDuplicates(errors, MapSeq(s.orders, OrderId));
    errors := RejectDuplicates(errors, s.shippers);
    errors := RejectDuplicates(errors, MapSeq(s.routes, RouteId));
  }

  method CheckServices(before: seq<SnapshotError>, s: Snapshot) returns (errors: seq<SnapshotError>)
    ensures errors == [] <==> before == [] && forall v :: v in s.services ==> ServiceResolves(s, v)
  {
    errors := before;
    for n := 0 to |s.services|
      invariant errors == [] <==> before == [] && forall k :: 0 <= k < n ==> ServiceResolves(s, s.services[k])
    {
      errors := CheckService(errors, s, s.services[n]);
    }
  }

  method CheckWagons(before: seq<SnapshotError>, s: Snapshot) returns (errors: seq<SnapshotError>)
    ensures errors == [] <==> before == [] && forall w :: w in s.wagons ==> Known(w.service, s.services, ServiceId)
  {
    errors := before;
    var services := MapSeq(s.services, ServiceId);
    for n := 0 to |s.wagons|
      invariant errors == [] <==> before == [] && forall k :: 0 <= k < n ==> s.wagons[k].service in services
    {
      if s.wagons[n].service !in services {
        errors := errors + [UnknownReference(s.wagons[n].id, s.wagons[n].service)];
      }
    }
  }

  method CheckSlots(before: seq<SnapshotError>, s: Snapshot) returns (errors: seq<SnapshotError>)
    ensures errors == [] <==> before == [] && forall t :: t in s.slots ==> Known(t.wagon, s.wagons, WagonId)
  {
    errors := before;
    var wagons := MapSeq(s.wagons, WagonId);
    for n := 0 to |s.slots|
      invariant errors == [] <==> before == [] && forall k :: 0 <= k < n ==> s.slots[k].wagon in wagons
    {
      if s.slots[n].wagon !in wagons {
        errors := errors + [UnknownReference(s.slots[n].id, s.slots[n].wagon)];
      }
    }
  }

  method CheckOrders(before: seq<SnapshotError>, s: Snapshot) returns (errors: seq<SnapshotError>)
    ensures errors == [] <==> before == [] && forall o :: o in s.orders ==> OrderResolves(s, o)
  {
    errors := before;
    for n := 0 to |s.orders|
      invariant errors == [] <==> before == [] && forall k :: 0 <= k < n ==> OrderResolves(s, s.orders[k])
    {
      errors := CheckOrder(errors, s, s.orders[n]);
    }
  }

  method RejectEmpty(before: seq<SnapshotError>, size: nat, name: string) returns (errors: seq<SnapshotError>)
    ensures errors == [] <==> before == [] && size != 0
  {
    errors := if size == 0 then before + [EmptyField(name)] else before;
  }

  method RejectEmptyFields(s: Snapshot) returns (errors: seq<SnapshotError>)
    ensures errors == [] <==> Populated(s)
  {
    errors := RejectEmpty([], |s.scenarioId|, "scenario_id");
    errors := RejectEmpty(errors, |s.baselineServices|, "baseline_service_ids");
    errors := RejectEmpty(errors, |s.assumptions|, "assumptions");
    errors := RejectEmpty(errors, |s.shippers|, "shippers");
    errors := RejectEmpty(errors, |s.terminals|, "terminals");
    errors := RejectEmpty(errors, |s.routes|, "route_constraints");
    errors := RejectEmpty(errors, |s.services|, "services");
    errors := RejectEmpty(errors, |s.wagons|, "wagons");
    errors := RejectEmpty(errors, |s.slots|, "slots");
    errors := RejectEmpty(errors, |s.orders|, "orders");
  }

  /** The snapshot's validators: accept exactly the well-formed snapshots. Empty fields are found
      first, and the references of such a snapshot are not looked at. */
  method ReferencesResolve(s: Snapshot) returns (errors: seq<SnapshotError>)
    ensures errors == [] <==> WellFormed(s)
  {
    errors := RejectEmptyFields(s);
    if errors != [] {
      return;
    }
    errors := RejectAllDuplicates(s);
    errors := RejectUnknown(errors, "baseline_service_ids", s.baselineServices, MapSeq(s.services, ServiceId));
    errors := CheckServices(errors, s);
    errors := CheckWagons(errors, s);
    errors := CheckSlots(errors, s);
    errors := CheckOrders(errors, s);
  }

  // ---------------------------------------------------------------- references, record by record

  lemma KnownIsThere<T>(id: Id, records: seq<T>, key: T -> Id)
    ensures Known(id, records, key) <==> exists t :: t in records && key(t) == id
  {
    var ids := MapSeq(records, key);
    if id in ids {
      var i :| 0 <= i < |ids| && ids[i] == id;
      assert records[i] in records;
    }
    if t :| t in records && key(t) == id {
      var i :| 0 <= i < |records| && records[i] == t;
      assert ids[i] == id;
    }
  }

  /** A service leaves from and arrives at terminals of the snapshot over a route of it, arrives
      after it leaves and is closed for planning no later than it leaves. */
  lemma ServiceReads(s: Snapshot, v: Service)
    ensures ServiceResolves(s, v) <==>
              && (exists t :: t in s.terminals && t.id == v.originTerminal)
              && (exists t :: t in s.terminals && t.id == v.destinationTerminal)
              && (exists r :: r in s.routes && r.id == v.routeConstraint)
              && v.arrivalAt > v.departureAt && v.planningCutoffAt <= v.departureAt
  {
    KnownIsThere(v.originTerminal, s.terminals, TerminalId);
    KnownIsThere(v.destinationTerminal, s.terminals, TerminalId);
    KnownIsThere(v.routeConstraint, s.routes, RouteId);
    assert forall t :: t in s.terminals ==> TerminalId(t) == t.id;
    assert forall r :: r in s.routes ==> RouteId(r) == r.id;
  }

  /** An order names its shipper, its terminals and what its window lists. */
  lemma OrderReads(s: Snapshot, o: Order)
    ensures OrderResolves(s, o) <==>
              && o.shipper in s.shippers
              && (forall id :: id in o.originTerminals ==> exists t :: t in s.terminals && t.id == id)
              && (forall id :: id in o.destinationTerminals ==> exists t :: t in s.terminals && t.id == id)
              && (o.window.Some? ==>
                    && (forall id :: id in o.window.value.services ==> exists v :: v in s.services && v.id == id)
                    && (forall id :: id in o.window.value.destinationTerminals ==>
                          exists t :: t in s.terminals && t.id == id))
  {
    forall id
      ensures Known(id, s.terminals, TerminalId) <==> exists t :: t in s.terminals && t.id == id
      ensures Known(id, s.services, ServiceId) <==> exists v :: v in s.services && v.id == id
    {
      KnownIsThere(id, s.terminals, TerminalId);
      KnownIsThere(id, s.services, ServiceId);
      assert forall t :: t in s.terminals ==> TerminalId(t) == t.id;
      assert forall v :: v in s.services ==> ServiceId(v) == v.id;
    }
  }

  /** Well-formed, list by list. */
  lemma WellFormedReads(s: Snapshot)
    ensures WellFormed(s) <==>
              && s.scenarioId != "" && |s.baselineServices| > 0 && |s.assumptions| > 0 && |s.shippers| > 0
              && |s.terminals| > 0 && |s.routes| > 0 && |s.services| > 0 && |s.wagons| > 0 && |s.slots| > 0
              && |s.orders| > 0
              && (forall i, j :: 0 <= i < j < |s.terminals| ==> s.terminals[i].id != s.terminals[j].id)
              && (forall i, j :: 0 <= i < j < |s.services| ==> s.services[i].id != s.services[j].id)
              && (forall i, j :: 0 <= i < j < |s.wagons| ==> s.wagons[i].id != s.wagons[j].id)
              && (forall i, j :: 0 <= i < j < |s.slots| ==> s.slots[i].id != s.slots[j].id)
              && (forall i, j :: 0 <= i < j < |s.orders| ==> s.orders[i].id != s.orders[j].id)
              && (forall i, j :: 0 <= i < j < |s.shippers| ==> s.shippers[i] != s.shippers[j])
              && (forall i, j :: 0 <= i < j < |s.routes| ==> s.routes[i].id != s.routes[j].id)
              && (forall id :: id in s.baselineServices ==> exists v :: v in s.services && v.id == id)
              && (forall w :: w in s.wagons ==> exists v :: v in s.services && v.id == w.service)
              && (forall l :: l in s.slots ==> exists w :: w in s.wagons && w.id == l.wagon)
              && (forall v :: v in s.services ==> ServiceResolves(s, v))
              && (forall o :: o in s.orders ==> OrderResolves(s, o))
  {
    DistinctReads(s);
    forall id ensures Known(id, s.services, ServiceId) <==> exists v :: v in s.services && v.id == id {
      KnownIsThere(id, s.services, ServiceId);
      assert forall v :: v in s.services ==> ServiceId(v) == v.id;
    }
    forall id ensures Known(id, s.wagons, WagonId) <==> exists w :: w in s.wagons && w.id == id {
      KnownIsThere(id, s.wagons, WagonId);
      assert forall w :: w in s.wagons ==> WagonId(w) == w.id;
    }
  }

  lemma DistinctReads(s: Snapshot)
    ensures IdsDistinct(s) <==>
              && (forall i, j :: 0 <= i < j < |s.terminals| ==> s.terminals[i].id != s.terminals[j].id)
              && (forall i, j :: 0 <= i < j < |s.services| ==> s.services[i].id != s.services[j].id)
              && (forall i, j :: 0 <= i < j < |s.wagons| ==> s.wagons[i].id != s.wagons[j].id)
              && (forall i, j :: 0 <= i < j < |s.slots| ==> s.slots[i].id != s.slots[j].id)
              && (forall i, j :: 0 <= i < j < |s.orders| ==> s.orders[i].id != s.orders[j].id)
              && (forall i, j :: 0 <= i < j < |s.shippers| ==> s.shippers[i] != s.shippers[j])
              && (forall i, j :: 0 <= i < j < |s.routes| ==> s.routes[i].id != s.routes[j].id)
  {
  }
}
