/** From requested adjustments to approved changes, and from changes to a derived scenario that
    opens them to one order only. */
module ChangeSets {
  import opened Ordering
  import opened Snapshots
  import opened Listing

  datatype Change = ChangeTerminal(terminal: Id) | AddService(service: Id)

  datatype ChangeSetResult =
    | Changes(changes: seq<Change>)
    | Forbidden(types: set<Adjustment>)
    | Ambiguous(terminals: seq<Id>)

  // ---------------------------------------------------------------- change sets

  /** Terminal changes come before service changes, each kind in text order. */
  predicate ChangeLeq(a: Change, b: Change) {
    match (a, b)
    case (ChangeTerminal(x), ChangeTerminal(y)) => Leq(x, y)
    case (ChangeTerminal(_), AddService(_)) => true
    case (AddService(_), ChangeTerminal(_)) => false
    case (AddService(x), AddService(y)) => Leq(x, y)
  }

  lemma ChangeOrder()
    ensures TotalOrder(ChangeLeq)
  {
    forall a: Change, b: Change ensures ChangeLeq(a, b) || ChangeLeq(b, a) {
      match (a, b)
      case (ChangeTerminal(x), ChangeTerminal(y)) => LeqTotal(x, y);
      case (AddService(x), AddService(y)) => LeqTotal(x, y);
      case _ =>
    }
    forall a: Change, b: Change, c: Change | ChangeLeq(a, b) && ChangeLeq(b, c) ensures ChangeLeq(a, c) {
      match (a, b, c)
      case (ChangeTerminal(x), ChangeTerminal(y), ChangeTerminal(z)) => LeqTransitive(x, y, z);
      case (AddService(x), AddService(y), AddService(z)) => LeqTransitive(x, y, z);
      case _ =>
    }
  }

  /** The window authorises the change, and its type was both requested and allowed. */
  predicate Authorised(s: Snapshot, window: AdjustmentWindow, types: seq<Adjustment>, c: Change) {
    match c
    case ChangeTerminal(t) =>
      && t in window.destinationTerminals
      && ChangeToApprovedTerminal in types && ChangeToApprovedTerminal in s.policy.allowed
    case AddService(v) =>
      v in window.services && AddOrderApprovedService in types && AddOrderApprovedService in s.policy.allowed
  }

  /** A sorted list of changes has its terminal first, and each kind in text order. */
  lemma ChangesRead(changes: seq<Change>, i: nat, j: nat)
    requires Sorted(changes, ChangeLeq) && i < j < |changes|
    ensures changes[i].AddService? ==> changes[j].AddService? && Leq(changes[i].service, changes[j].service)
    ensures changes[j].ChangeTerminal? ==> changes[i].ChangeTerminal? && Leq(changes[i].terminal, changes[j].terminal)
  {
    assert ChangeLeq(changes[i], changes[j]);
  }

  /** Changes that belong to this order's window, at most one of them a terminal. */
  ghost predicate Approved(s: Snapshot, orderId: Id, types: seq<Adjustment>, changes: seq<Change>) {
    && (changes != [] ==> orderId in OrderTable(s) && OrderTable(s)[orderId].window.Some?)
    && (orderId in OrderTable(s) && OrderTable(s)[orderId].window.Some? ==>
          forall c :: c in changes <==> Authorised(s, OrderTable(s)[orderId].window.value, types, c))
    && (forall x, y :: ChangeTerminal(x) in changes && ChangeTerminal(y) in changes ==> x == y)
  }

  predicate AsksForbidden(s: Snapshot, types: seq<Adjustment>) {
    exists t :: t in types && t in s.policy.forbidden
  }

  predicate TerminalUnclear(s: Snapshot, orderId: Id, types: seq<Adjustment>) {
    && orderId in OrderTable(s) && OrderTable(s)[orderId].window.Some?
    && ChangeToApprovedTerminal in types && ChangeToApprovedTerminal in s.policy.allowed
    && |OrderTable(s)[orderId].window.value.destinationTerminals| > 1
  }

  function ToTerminal(t: Id): Change { ChangeTerminal(t) }

  function ToService(v: Id): Change { AddService(v) }

  /** The window's entries of the requested and allowed types, as often as they are listed. */
  function Requested(s: Snapshot, window: AdjustmentWindow, types: seq<Adjustment>): seq<Change> {
    (if ChangeToApprovedTerminal in types && ChangeToApprovedTerminal in s.policy.allowed
     then MapSeq(window.destinationTerminals, ToTerminal) else [])
    + (if AddOrderApprovedService in types && AddOrderApprovedService in s.policy.allowed
       then MapSeq(window.services, ToService) else [])
  }

  lemma MappedMembers(ids: seq<Id>, f: Id -> Change, c: Change)
    ensures c in MapSeq(ids, f) <==> exists id :: id in ids && c == f(id)
  {
    if exists id :: id in ids && c == f(id) {
      var id :| id in ids && c == f(id);
      var i :| 0 <= i < |ids| && ids[i] == id;
      assert MapSeq(ids, f)[i] == c;
    }
  }

  lemma RequestedMembers(s: Snapshot, window: AdjustmentWindow, types: seq<Adjustment>, c: Change)
    ensures c in Requested(s, window, types) <==> Authorised(s, window, types, c)
  {
    MappedMembers(window.destinationTerminals, ToTerminal, c);
    MappedMembers(window.services, ToService, c);
  }

  method CollectTerminals(terminals: seq<Id>) returns (changes: seq<Change>)
    ensures changes == MapSeq(terminals, ToTerminal)
  {
    changes := [];
    for n := 0 to |terminals|
      invariant changes == MapSeq(terminals, ToTerminal)[..n]
    {
      changes := changes + [ChangeTerminal(terminals[n])];
    }
  }

  method CollectServices(services: seq<Id>) returns (changes: seq<Change>)
    ensures changes == MapSeq(services, ToService)
  {
    changes := [];
    for n := 0 to |services|
      invariant changes == MapSeq(services, ToService)[..n]
    {
      changes := changes + [AddService(services[n])];
    }
  }

  method CollectChanges(s: Snapshot, window: AdjustmentWindow, types: seq<Adjustment>) returns (changes: seq<Change>)
    ensures forall c :: c in changes <==> Authorised(s, window, types, c)
    ensures multiset(changes) == multiset(Requested(s, window, types))
    ensures Sorted(changes, ChangeLeq)
  {
    var terminals, services := [], [];
    if ChangeToApprovedTerminal in types && ChangeToApprovedTerminal in s.policy.allowed {
      terminals := CollectTerminals(window.destinationTerminals);
    }
    if AddOrderApprovedService in types && AddOrderApprovedService in s.policy.allowed {
      services := CollectServices(window.services);
    }
    assert terminals + services == Requested(s, window, types);
    changes := Sort(terminals + services, ChangeLeq);
    ChangeOrder();
    SortSorts(terminals + services, ChangeLeq);
    SameMultisetSameMembers(changes, terminals + services);
    forall c ensures c in terminals + services <==> Authorised(s, window, types, c) {
      RequestedMembers(s, window, types, c);
    }
  }

  lemma ForbiddenAsked(s: Snapshot, types: seq<Adjustment>)
    ensures AsksForbidden(s, types) <==> (set t | t in types && t in s.policy.forbidden) != {}
  {
    var forbidden := set t | t in types && t in s.policy.forbidden;
    if AsksForbidden(s, types) {
      var t :| t in types && t in s.policy.forbidden;
      assert t in forbidden;
    }
    if forbidden != {} {
      var t :| t in forbidden;
    }
  }

  lemma SingleTerminal(terminals: seq<Id>, x: Id, y: Id)
    requires |terminals| <= 1 && x in terminals && y in terminals
    ensures x == y
  {
  }

  lemma CollectedAreApproved(s: Snapshot, orderId: Id, types: seq<Adjustment>, changes: seq<Change>)
    requires orderId in OrderTable(s) && OrderTable(s)[orderId].window.Some?
    requires forall c :: c in changes <==> Authorised(s, OrderTable(s)[orderId].window.value, types, c)
    requires !TerminalUnclear(s, orderId, types)
    ensures Approved(s, orderId, types, changes)
  {
    forall x, y | ChangeTerminal(x) in changes && ChangeTerminal(y) in changes ensures x == y {
      SingleTerminal(OrderTable(s)[orderId].window.value.destinationTerminals, x, y);
    }
  }

  /** Refuses a forbidden adjustment, refuses an unclear destination, and otherwise returns
      exactly what the order's own window authorises, in canonical order. */
  method BuildChangeSet(s: Snapshot, orderId: Id, types: seq<Adjustment>) returns (r: ChangeSetResult)
    ensures r.Forbidden? <==> AsksForbidden(s, types)
    ensures r.Forbidden? ==> r.types == set t | t in types && t in s.policy.forbidden
    ensures r.Ambiguous? <==> !AsksForbidden(s, types) && TerminalUnclear(s, orderId, types)
    ensures r.Ambiguous? ==> r.terminals == OrderTable(s)[orderId].window.value.destinationTerminals
    ensures r.Changes? ==> Approved(s, orderId, types, r.changes) && Sorted(r.changes, ChangeLeq)
    ensures r.Changes? && orderId in OrderTable(s) && OrderTable(s)[orderId].window.Some? ==>
              multiset(r.changes) == multiset(Requested(s, OrderTable(s)[orderId].window.value, types))
  {
    var forbidden := set t | t in types && t in s.policy.forbidden;
    ForbiddenAsked(s, types);
    if forbidden != {} {
      return Forbidden(forbidden);
    }
    if orderId !in OrderTable(s) || OrderTable(s)[orderId].window.None? {
      return Changes([]);
    }
    var window := OrderTable(s)[orderId].window.value;
    if ChangeToApprovedTerminal in types && ChangeToApprovedTerminal in s.policy.allowed
       && |window.destinationTerminals| > 1 {
      return Ambiguous(window.destinationTerminals);
    }
    var changes := CollectChanges(s, window, types);
    CollectedAreApproved(s, orderId, types, changes);
    r := Changes(changes);
  }

  // ---------------------------------------------------------------- the derived scenario

  /** The destination the changes leave the order with. */
  function NewDestination(changes: seq<Change>): Option<Id> {
    if changes == [] then None
    else match changes[|changes| - 1]
      case ChangeTerminal(t) => Some(t)
      case AddService(_) => NewDestination(changes[..|changes| - 1])
  }

  function AppendNew(services: seq<Id>, v: Id): seq<Id> {
    if v in services then services else services + [v]
  }

  function WithServices(services: seq<Id>, changes: seq<Change>): seq<Id> {
    if changes == [] then services
    else
      var before := WithServices(services, changes[..|changes| - 1]);
      match changes[|changes| - 1]
      case AddService(v) => AppendNew(before, v)
      case ChangeTerminal(_) => before
  }

  function Retarget(o: Order, orderId: Id, destination: Option<Id>): Order {
    if o.id == orderId && destination.Some? then o.(destinationTerminals := {destination.value}) else o
  }

  function RetargetAll(orders: seq<Order>, orderId: Id, destination: Option<Id>): (r: seq<Order>)
    ensures |r| == |orders|
    ensures forall i :: 0 <= i < |r| ==> r[i] == Retarget(orders[i], orderId, destination)
  {
    seq(|orders|, i requires 0 <= i < |orders| => Retarget(orders[i], orderId, destination))
  }

  /** Only the target's destination and the service scope differ from the original. */
  function Derived(s: Snapshot, scenarioId: Id, orderId: Id, changes: seq<Change>): Snapshot {
    s.(scenarioId := scenarioId,
       scenarioType := Alternative,
       baselineServices := WithServices(s.baselineServices, changes),
       orders := RetargetAll(s.orders, orderId, NewDestination(changes)))
  }

  method RetargetOrders(orders: seq<Order>, orderId: Id, terminal: Id) returns (r: seq<Order>)
    ensures r == RetargetAll(orders, orderId, Some(terminal))
  {
    r := [];
    for n := 0 to |orders|
      invariant r == RetargetAll(orders, orderId, Some(terminal))[..n]
    {
      r := r + [if orders[n].id == orderId then orders[n].(destinationTerminals := {terminal}) else orders[n]];
    }
  }

  lemma RetargetTwice(orders: seq<Order>, orderId: Id, before: Option<Id>, t: Id)
    ensures RetargetAll(RetargetAll(orders, orderId, before), orderId, Some(t)) == RetargetAll(orders, orderId, Some(t))
  {
  }

  lemma RetargetNone(orders: seq<Order>, orderId: Id)
    ensures RetargetAll(orders, orderId, None) == orders
  {
  }

  /** Applies the changes one by one. The requesting order's own services and the derived
      validation scope are built side by side and come out the same. */
  method DeriveSnapshot(s: Snapshot, scenarioId: Id, orderId: Id, changes: seq<Change>)
    returns (derived: Snapshot, orderServices: seq<Id>)
    ensures derived == Derived(s, scenarioId, orderId, changes)
    ensures orderServices == WithServices(s.baselineServices, changes)
  {
    var orders := s.orders;
    orderServices := s.baselineServices;
    var permitted := s.baselineServices;
    RetargetNone(s.orders, orderId);
    for n := 0 to |changes|
      invariant orders == RetargetAll(s.orders, orderId, NewDestination(changes[..n]))
      invariant orderServices == permitted == WithServices(s.baselineServices, changes[..n])
    {
      assert changes[..n + 1][..n] == changes[..n];
      match changes[n]
      case ChangeTerminal(terminal) =>
        RetargetTwice(s.orders, orderId, NewDestination(changes[..n]), terminal);
        orders := RetargetOrders(orders, orderId, terminal);
      case AddService(v) =>
        if v !in orderServices {
          orderServices := orderServices + [v];
        }
        if v !in permitted {
          permitted := permitted + [v];
        }
    }
    assert changes[..|changes|] == changes;
    derived := s.(scenarioId := scenarioId, scenarioType := Alternative,
                  baselineServices := permitted, orders := orders);
  }

  /** Every other order keeps the original baseline; the target may use what was opened to it. */
  function DerivedScope(s: Snapshot, orderId: Id, changes: seq<Change>): Scope {
    Scope(s.baselineServices, map[orderId := WithServices(s.baselineServices, changes)])
  }
}
