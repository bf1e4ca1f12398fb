/** What a derived scenario keeps of the original one, and what it opens. */
module DerivedScenario {
  import opened Ordering
  import opened Snapshots
  import opened Eligibility
  import opened GateProperties
  import opened Plans
  import opened Separability
  import opened AssignmentModel
  import opened Listing
  import opened Agreement
  import opened ChangeSets

  // ---------------------------------------------------------------- the changes themselves

  /** Every change names a record of the snapshot. */
  ghost predicate Resolvable(s: Snapshot, changes: seq<Change>) {
    forall c :: c in changes ==>
      match c
      case ChangeTerminal(t) => Known(t, s.terminals, TerminalId)
      case AddService(v) => Known(v, s.services, ServiceId)
  }

  lemma ApprovedResolve(s: Snapshot, orderId: Id, types: seq<Adjustment>, changes: seq<Change>)
    requires WellFormed(s) && Approved(s, orderId, types, changes)
    ensures Resolvable(s, changes)
  {
    if changes != [] {
      var o := OrderTable(s)[orderId];
      assert o in s.orders && OrderResolves(s, o);
      forall c | c in changes
        ensures match c
                case ChangeTerminal(t) => Known(t, s.terminals, TerminalId)
                case AddService(v) => Known(v, s.services, ServiceId)
      {
        assert Authorised(s, o.window.value, types, c);
      }
    }
  }

  lemma {:induction false} DestinationOf(changes: seq<Change>)
    ensures NewDestination(changes).Some? ==> ChangeTerminal(NewDestination(changes).value) in changes
    ensures NewDestination(changes).None? ==> forall t :: ChangeTerminal(t) !in changes
    decreases |changes|
  {
    if changes != [] {
      assert changes == changes[..|changes| - 1] + [changes[|changes| - 1]];
      DestinationOf(changes[..|changes| - 1]);
    }
  }

  /** Each added service is opened exactly once, and nothing else joins the list. */
  lemma {:induction false} ServicesCount(services: seq<Id>, changes: seq<Change>, v: Id)
    ensures multiset(WithServices(services, changes))[v]
         == if v in services then multiset(services)[v] else if AddService(v) in changes then 1 else 0
    decreases |changes|
  {
    MemberIffCounted(v, services);
    if changes != [] {
      var front := changes[..|changes| - 1];
      assert changes == front + [changes[|changes| - 1]];
      ServicesCount(services, front, v);
      MemberIffCounted(v, WithServices(services, front));
    }
  }

  lemma ServicesMembers(services: seq<Id>, changes: seq<Change>, v: Id)
    ensures v in WithServices(services, changes) <==> v in services || AddService(v) in changes
  {
    ServicesCount(services, changes, v);
    MemberIffCounted(v, services);
    MemberIffCounted(v, WithServices(services, changes));
  }

  // ---------------------------------------------------------------- tables

  ghost predicate RetargetedTo(before: map<Id, Order>, after: map<Id, Order>, orderId: Id, destination: Option<Id>) {
    && after.Keys == before.Keys
    && forall k :: k in before ==> after[k] == Retarget(before[k], orderId, destination)
  }

  lemma RetargetedEntry(before: map<Id, Order>, after: map<Id, Order>, o: Order, orderId: Id, destination: Option<Id>)
    requires RetargetedTo(before, after, orderId, destination)
    ensures RetargetedTo(before[o.id := o], after[o.id := Retarget(o, orderId, destination)], orderId, destination)
  {
  }

  lemma RetargetedFront(orders: seq<Order>, orderId: Id, destination: Option<Id>)
    requires orders != []
    ensures var all := RetargetAll(orders, orderId, destination);
            && all != []
            && all[..|all| - 1] == RetargetAll(orders[..|orders| - 1], orderId, destination)
            && all[|all| - 1] == Retarget(orders[|orders| - 1], orderId, destination)
  {
  }

  lemma {:induction false} RetargetedTable(orders: seq<Order>, orderId: Id, destination: Option<Id>)
    ensures RetargetedTo(ById(orders, OrderId), ById(RetargetAll(orders, orderId, destination), OrderId),
                         orderId, destination)
    decreases |orders|
  {
    if orders != [] {
      var front, last := orders[..|orders| - 1], orders[|orders| - 1];
      RetargetedFront(orders, orderId, destination);
      RetargetedTable(front, orderId, destination);
      RetargetedEntry(ById(front, OrderId), ById(RetargetAll(front, orderId, destination), OrderId),
                      last, orderId, destination);
    }
  }

  lemma SameBerths(s: Snapshot, d: Snapshot)
    requires WagonsKnown(s) && d.wagons == s.wagons && d.slots == s.slots
    ensures WagonsKnown(d) && Berths(d) == Berths(s)
  {
  }

  /** The gate's lookup tables do not change. */
  lemma DerivedIndex(s: Snapshot, scenarioId: Id, orderId: Id, changes: seq<Change>)
    requires WagonsKnown(s)
    ensures var d := Derived(s, scenarioId, orderId, changes);
            WagonsKnown(d) && IndexOf(d) == IndexOf(s) && BerthTable(d) == BerthTable(s)
  {
    SameBerths(s, Derived(s, scenarioId, orderId, changes));
  }

  lemma DerivedOrders(s: Snapshot, scenarioId: Id, orderId: Id, changes: seq<Change>)
    ensures RetargetedTo(OrderTable(s), OrderTable(Derived(s, scenarioId, orderId, changes)),
                         orderId, NewDestination(changes))
  {
    RetargetedTable(s.orders, orderId, NewDestination(changes));
  }

  predicate SameFigures(o: Order, p: Order) {
    o.grossWeight == p.grossWeight && o.priority == p.priority && o.dueAt == p.dueAt
  }

  lemma FiguresAgree(m: map<Id, Order>, n: map<Id, Order>, scores: PriorityScores)
    requires m.Keys == n.Keys && forall k :: k in m ==> SameFigures(m[k], n[k])
    ensures Weights(m) == Weights(n)
    ensures Scores(scores, m) == Scores(scores, n)
  {
  }

  lemma DueTimesAgree(m: map<Id, Order>, n: map<Id, Order>, asOf: int)
    requires m.Keys == n.Keys && forall k :: k in m ==> SameFigures(m[k], n[k])
    ensures DueSeconds(asOf, m) == DueSeconds(asOf, n)
  {
  }

  /** No limit, weight, score or due time changes. */
  lemma DerivedBook(s: Snapshot, scenarioId: Id, orderId: Id, changes: seq<Change>)
    ensures BookOf(Derived(s, scenarioId, orderId, changes)) == BookOf(s)
  {
    DerivedOrders(s, scenarioId, orderId, changes);
    var after := OrderTable(Derived(s, scenarioId, orderId, changes));
    FiguresAgree(OrderTable(s), after, s.policy.scores);
    DueTimesAgree(OrderTable(s), after, s.asOf);
  }

  // ---------------------------------------------------------------- well-formedness

  lemma DerivedIds(s: Snapshot, scenarioId: Id, orderId: Id, changes: seq<Change>)
    requires IdsDistinct(s)
    ensures IdsDistinct(Derived(s, scenarioId, orderId, changes))
  {
    var orders := RetargetAll(s.orders, orderId, NewDestination(changes));
    forall i, j | 0 <= i < j < |orders| ensures OrderId(orders[i]) != OrderId(orders[j]) {
      assert OrderId(s.orders[i]) != OrderId(s.orders[j]);
    }
  }

  lemma RetargetedResolves(s: Snapshot, d: Snapshot, o: Order, orderId: Id, destination: Option<Id>)
    requires OrderResolves(s, o) && d.shippers == s.shippers && d.terminals == s.terminals && d.services == s.services
    requires destination.Some? ==> Known(destination.value, s.terminals, TerminalId)
    ensures OrderResolves(d, Retarget(o, orderId, destination))
  {
  }

  /** An approved change set never breaks a reference or an identifier. */
  lemma DerivedIsWellFormed(s: Snapshot, scenarioId: Id, orderId: Id, changes: seq<Change>)
    requires WellFormed(s) && Resolvable(s, changes) && scenarioId != ""
    ensures WellFormed(Derived(s, scenarioId, orderId, changes))
  {
    var d := Derived(s, scenarioId, orderId, changes);
    DerivedIds(s, scenarioId, orderId, changes);
    DestinationOf(changes);
    ServicesMembers(s.baselineServices, changes, s.baselineServices[0]);
    forall v | v in d.baselineServices ensures Known(v, d.services, ServiceId) {
      ServicesMembers(s.baselineServices, changes, v);
    }
    forall v | v in d.services ensures ServiceResolves(d, v) {
      assert ServiceResolves(s, v);
    }
    forall o | o in d.orders ensures OrderResolves(d, o) {
      var i :| 0 <= i < |d.orders| && d.orders[i] == o;
      assert s.orders[i] in s.orders;
      RetargetedResolves(s, d, s.orders[i], orderId, NewDestination(changes));
    }
  }

  /** Exactly the reported changes are applied: the destination, if one was reported, and the
      services that were reported; every other order is untouched. */
  lemma ChangesAreApplied(s: Snapshot, scenarioId: Id, orderId: Id, types: seq<Adjustment>, changes: seq<Change>)
    requires Approved(s, orderId, types, changes)
    ensures var d := Derived(s, scenarioId, orderId, changes);
            && d == s.(scenarioId := scenarioId, scenarioType := Alternative,
                       baselineServices := d.baselineServices, orders := d.orders)
            && (forall v :: v in d.baselineServices <==> v in s.baselineServices || AddService(v) in changes)
            && |d.orders| == |s.orders|
            && (forall i :: 0 <= i < |s.orders| ==>
                  if s.orders[i].id != orderId then d.orders[i] == s.orders[i]
                  else d.orders[i] == s.orders[i].(destinationTerminals := d.orders[i].destinationTerminals))
            && (forall i, t :: 0 <= i < |s.orders| && s.orders[i].id == orderId && ChangeTerminal(t) in changes ==>
                  d.orders[i].destinationTerminals == {t})
            && ((forall t :: ChangeTerminal(t) !in changes) ==> d.orders == s.orders)
  {
    var d := Derived(s, scenarioId, orderId, changes);
    DestinationOf(changes);
    forall v ensures v in d.baselineServices <==> v in s.baselineServices || AddService(v) in changes {
      ServicesMembers(s.baselineServices, changes, v);
    }
    RetargetNone(s.orders, orderId);
  }

  // ---------------------------------------------------------------- other orders

  /** Every other order is judged as it was in the baseline. */
  lemma OthersJudgedAlike(s: Snapshot, scenarioId: Id, orderId: Id, changes: seq<Change>, i: nat)
    requires WagonsKnown(s) && i < |s.orders| && s.orders[i].id != orderId
    ensures var d := Derived(s, scenarioId, orderId, changes);
            && WagonsKnown(d)
            && |EvaluationsOf(d, DerivedScope(s, orderId, changes))| == |s.orders|
            && |EvaluationsOf(s, BaselineScope(s))| == |s.orders|
            && EvaluationsOf(d, DerivedScope(s, orderId, changes))[i] == EvaluationsOf(s, BaselineScope(s))[i]
  {
    var d, scope := Derived(s, scenarioId, orderId, changes), DerivedScope(s, orderId, changes);
    DerivedIndex(s, scenarioId, orderId, changes);
    EvaluationAt(IndexOf(s), s.orders, BaselineScope(s), i);
    EvaluationAt(IndexOf(s), d.orders, scope, i);
  }

  // ---------------------------------------------------------------- candidates

  lemma FitsAlike(s: Snapshot, d: Snapshot, o: Order, c: Candidate)
    requires WagonsKnown(s) && WagonsKnown(d) && BerthTable(d) == BerthTable(s) && IndexOf(d) == IndexOf(s)
    ensures Fits(d, o, c) <==> Fits(s, o, c)
  {
  }

  lemma UntouchedOrder(s: Snapshot, scenarioId: Id, orderId: Id, changes: seq<Change>, order: Id)
    requires order != orderId || NewDestination(changes).None?
    ensures var d := Derived(s, scenarioId, orderId, changes);
            && (order in OrderTable(d) <==> order in OrderTable(s))
            && (order in OrderTable(s) ==> OrderTable(d)[order] == OrderTable(s)[order])
  {
    DerivedOrders(s, scenarioId, orderId, changes);
    assert order in OrderTable(s) ==> OrderTable(s)[order].id == order;
  }

  lemma OffersAlike(s: Snapshot, scenarioId: Id, orderId: Id, changes: seq<Change>, c: Candidate)
    requires WagonsKnown(s)
    requires c.order != orderId || NewDestination(changes).None?
    ensures WagonsKnown(Derived(s, scenarioId, orderId, changes))
    ensures Offers(Derived(s, scenarioId, orderId, changes), c) <==> Offers(s, c)
  {
    DerivedIndex(s, scenarioId, orderId, changes);
    UntouchedOrder(s, scenarioId, orderId, changes, c.order);
    if c.order in OrderTable(s) {
      FitsAlike(s, Derived(s, scenarioId, orderId, changes), OrderTable(s)[c.order], c);
    }
  }

  lemma ScopedTimes(s: Snapshot, scenarioId: Id, orderId: Id, changes: seq<Change>, c: Candidate)
    requires c.order in OrderTable(s)
    ensures var d := Derived(s, scenarioId, orderId, changes);
            && c.order in OrderTable(d)
            && TimesScoped(s, BaselineScope(s), c) == multiset(s.baselineServices)[c.service]
            && TimesScoped(d, DerivedScope(s, orderId, changes), c)
               == if c.order != orderId || c.service in s.baselineServices then multiset(s.baselineServices)[c.service]
                  else if AddService(c.service) in changes then 1 else 0
  {
    DerivedOrders(s, scenarioId, orderId, changes);
    ServicesCount(s.baselineServices, changes, c.service);
  }

  /** The candidates the solver may choose from, before and after. */
  ghost function BaseChoices(s: Snapshot): set<Candidate>
    requires WagonsKnown(s)
  {
    Choosable(CandidatesOf(s, BaselineScope(s)))
  }

  ghost function DerivedChoices(s: Snapshot, scenarioId: Id, orderId: Id, changes: seq<Change>): set<Candidate>
    requires WagonsKnown(Derived(s, scenarioId, orderId, changes))
  {
    Choosable(CandidatesOf(Derived(s, scenarioId, orderId, changes), DerivedScope(s, orderId, changes)))
  }

  /** What a derived scenario is built from: a well-formed one and changes that resolve. */
  ghost predicate Derivable(s: Snapshot, scenarioId: Id, orderId: Id, changes: seq<Change>) {
    && WellFormed(s) && WagonsKnown(s)
    && WellFormed(Derived(s, scenarioId, orderId, changes))
    && WagonsKnown(Derived(s, scenarioId, orderId, changes))
  }

  lemma ResolvableIsDerivable(s: Snapshot, scenarioId: Id, orderId: Id, changes: seq<Change>)
    requires WellFormed(s) && Resolvable(s, changes) && scenarioId != ""
    ensures Derivable(s, scenarioId, orderId, changes)
  {
    DerivedIsWellFormed(s, scenarioId, orderId, changes);
    WellFormedWagons(s);
    WellFormedWagons(Derived(s, scenarioId, orderId, changes));
  }

  /** Choices in the baseline, and in the derived scenario, as conditions on one candidate. */
  lemma ChoicesAre(s: Snapshot, scenarioId: Id, orderId: Id, changes: seq<Change>, c: Candidate)
    requires Derivable(s, scenarioId, orderId, changes)
    ensures c in BaseChoices(s) <==> Offers(s, c) && multiset(s.baselineServices)[c.service] == 1
    ensures c in DerivedChoices(s, scenarioId, orderId, changes) <==>
              && Offers(Derived(s, scenarioId, orderId, changes), c)
              && (multiset(s.baselineServices)[c.service] == 1
                  || (c.order == orderId && c.service !in s.baselineServices && AddService(c.service) in changes))
  {
    CandidatesMembers(s, BaselineScope(s), c);
    CandidatesMembers(Derived(s, scenarioId, orderId, changes), DerivedScope(s, orderId, changes), c);
    DerivedOrders(s, scenarioId, orderId, changes);
    MemberIffCounted(c.service, s.baselineServices);
    if c.order in OrderTable(s) {
      ScopedTimes(s, scenarioId, orderId, changes, c);
    }
  }

  /** Nobody but the target gains or loses a candidate. */
  lemma OnlyTargetDiffers(s: Snapshot, scenarioId: Id, orderId: Id, changes: seq<Change>)
    requires Derivable(s, scenarioId, orderId, changes)
    ensures DifferOnlyFor(orderId, BaseChoices(s), DerivedChoices(s, scenarioId, orderId, changes))
  {
    forall c: Candidate | c.order != orderId
      ensures c in BaseChoices(s) <==> c in DerivedChoices(s, scenarioId, orderId, changes)
    {
      ChoicesAre(s, scenarioId, orderId, changes, c);
      OffersAlike(s, scenarioId, orderId, changes, c);
    }
  }

  /** Adding services only: the target keeps its candidates and gains some on added services. */
  lemma ServicesOnlyWiden(s: Snapshot, scenarioId: Id, orderId: Id, changes: seq<Change>)
    requires Derivable(s, scenarioId, orderId, changes) && NewDestination(changes).None?
    ensures BaseChoices(s) <= DerivedChoices(s, scenarioId, orderId, changes)
    ensures forall c :: c in DerivedChoices(s, scenarioId, orderId, changes) && c !in BaseChoices(s) ==>
              c.order == orderId && c.service !in s.baselineServices
    ensures forall c :: c in BaseChoices(s) ==> c.service in s.baselineServices
  {
    forall c
      ensures c in BaseChoices(s) ==>
                c in DerivedChoices(s, scenarioId, orderId, changes) && c.service in s.baselineServices
      ensures c in DerivedChoices(s, scenarioId, orderId, changes) && c !in BaseChoices(s) ==>
                c.order == orderId && c.service !in s.baselineServices
    {
      ChoicesAre(s, scenarioId, orderId, changes, c);
      OffersAlike(s, scenarioId, orderId, changes, c);
      MemberIffCounted(c.service, s.baselineServices);
    }
  }

  /** A target candidate outside the baseline is out of everyone else's reach. */
  lemma OutsideIsPrivate(s: Snapshot, scenarioId: Id, orderId: Id, changes: seq<Change>, c: Candidate)
    requires Derivable(s, scenarioId, orderId, changes)
    requires c in DerivedChoices(s, scenarioId, orderId, changes) && c.service !in s.baselineServices
    ensures c.order == orderId
    ensures forall d :: d in DerivedChoices(s, scenarioId, orderId, changes) && d.order != orderId ==>
              d.slot != c.slot && d.wagon != c.wagon
    ensures Weight(BookOf(s), c.order) <= Capacity(BookOf(s), c.wagon)
  {
    var after := Derived(s, scenarioId, orderId, changes);
    ChoicesAre(s, scenarioId, orderId, changes, c);
    MemberIffCounted(c.service, s.baselineServices);
    forall d | d in DerivedChoices(s, scenarioId, orderId, changes) && d.order != orderId
      ensures d.slot != c.slot && d.wagon != c.wagon
    {
      ChoicesAre(s, scenarioId, orderId, changes, d);
      MemberIffCounted(d.service, s.baselineServices);
      ServicesSeparate(after, c, d);
    }
    OfferedFacts(after, c);
    DerivedBook(s, scenarioId, orderId, changes);
  }

  /** Whatever the target gains is outside the baseline. */
  ghost predicate GainsOutsideOnly(s: Snapshot, scenarioId: Id, orderId: Id, changes: seq<Change>)
    requires Derivable(s, scenarioId, orderId, changes)
  {
    forall c :: c in DerivedChoices(s, scenarioId, orderId, changes) && c !in BaseChoices(s) ==>
      c.service !in s.baselineServices
  }

  /** Adding services only always opens capacity outside the baseline. */
  lemma ServicesGainOutside(s: Snapshot, scenarioId: Id, orderId: Id, changes: seq<Change>)
    requires Derivable(s, scenarioId, orderId, changes) && NewDestination(changes).None?
    ensures GainsOutsideOnly(s, scenarioId, orderId, changes)
  {
    ServicesOnlyWiden(s, scenarioId, orderId, changes);
  }

  lemma DerivedNamed(s: Snapshot, scenarioId: Id, orderId: Id, changes: seq<Change>)
    requires Derivable(s, scenarioId, orderId, changes)
    ensures KeysDetermine(DerivedChoices(s, scenarioId, orderId, changes))
  {
    CandidatesNamed(Derived(s, scenarioId, orderId, changes), DerivedScope(s, orderId, changes));
  }

  lemma OutsideGainsArePrivate(s: Snapshot, scenarioId: Id, orderId: Id, changes: seq<Change>)
    requires Derivable(s, scenarioId, orderId, changes) && GainsOutsideOnly(s, scenarioId, orderId, changes)
    ensures OpensPrivately(BookOf(s), BaseChoices(s), DerivedChoices(s, scenarioId, orderId, changes), orderId)
  {
    var base, derived := BaseChoices(s), DerivedChoices(s, scenarioId, orderId, changes);
    OnlyTargetDiffers(s, scenarioId, orderId, changes);
    DerivedNamed(s, scenarioId, orderId, changes);
    forall c | c in derived && c !in base
      ensures Private(c, Without(base, orderId)) && Weight(BookOf(s), orderId) <= Capacity(BookOf(s), c.wagon)
    {
      OutsideIsPrivate(s, scenarioId, orderId, changes, c);
      assert forall d :: d in Without(base, orderId) ==> d in derived && d.order != orderId;
    }
  }

  // ---------------------------------------------------------------- solving a derived scenario again

  lemma ChoicesSolvedAgain(s: Snapshot, scenarioId: Id, orderId: Id, changes: seq<Change>, c: Candidate)
    requires Derivable(s, scenarioId, orderId, changes)
    ensures c in BaseChoices(Derived(s, scenarioId, orderId, changes)) <==>
              && Offers(Derived(s, scenarioId, orderId, changes), c)
              && (multiset(s.baselineServices)[c.service] == 1
                  || (c.service !in s.baselineServices && AddService(c.service) in changes))
  {
    var d := Derived(s, scenarioId, orderId, changes);
    CandidatesMembers(d, BaselineScope(d), c);
    ServicesCount(s.baselineServices, changes, c.service);
    MemberIffCounted(c.service, s.baselineServices);
  }

  /** A slot on an added service, offered to somebody else. */
  ghost predicate OffersOthers(s: Snapshot, scenarioId: Id, orderId: Id, changes: seq<Change>, c: Candidate)
    requires Derivable(s, scenarioId, orderId, changes)
  {
    && Offers(Derived(s, scenarioId, orderId, changes), c) && c.order != orderId
    && c.service !in s.baselineServices && AddService(c.service) in changes
  }

  lemma SolvedAgainAdds(s: Snapshot, scenarioId: Id, orderId: Id, changes: seq<Change>, c: Candidate)
    requires Derivable(s, scenarioId, orderId, changes)
    ensures c in BaseChoices(Derived(s, scenarioId, orderId, changes)) <==>
              c in DerivedChoices(s, scenarioId, orderId, changes)
              || OffersOthers(s, scenarioId, orderId, changes, c)
    ensures OffersOthers(s, scenarioId, orderId, changes, c) ==> c !in DerivedChoices(s, scenarioId, orderId, changes)
  {
    ChoicesSolvedAgain(s, scenarioId, orderId, changes, c);
    ChoicesAre(s, scenarioId, orderId, changes, c);
    MemberIffCounted(c.service, s.baselineServices);
  }

  lemma SameSetIff<T(!new)>(wide: set<T>, narrow: set<T>, extra: T -> bool)
    requires forall c :: c in wide <==> c in narrow || extra(c)
    requires forall c :: extra(c) ==> c !in narrow
    ensures wide == narrow <==> forall c :: !extra(c)
  {
    if wide == narrow {
      forall c ensures !extra(c) {
        assert extra(c) ==> c in wide;
      }
    } else {
      var c :| (c in wide && c !in narrow) || (c in narrow && c !in wide);
      assert extra(c);
    }
  }

  /** A derived scenario is stored with the widened service list, so validating or solving it again
      as it stands offers the added services to every order. That is the narrowed choice if and
      only if nobody else fits a slot on them. */
  lemma SolvedAgainIff(s: Snapshot, scenarioId: Id, orderId: Id, changes: seq<Change>)
    requires Derivable(s, scenarioId, orderId, changes)
    ensures BaseChoices(Derived(s, scenarioId, orderId, changes)) == DerivedChoices(s, scenarioId, orderId, changes)
       <==> forall c :: !OffersOthers(s, scenarioId, orderId, changes, c)
  {
    var again, narrow := BaseChoices(Derived(s, scenarioId, orderId, changes)),
                         DerivedChoices(s, scenarioId, orderId, changes);
    ghost var extra := (c: Candidate) =>
      Derivable(s, scenarioId, orderId, changes) && OffersOthers(s, scenarioId, orderId, changes, c);
    forall c
      ensures c in again <==> c in narrow || extra(c)
      ensures extra(c) ==> c !in narrow
    {
      SolvedAgainAdds(s, scenarioId, orderId, changes, c);
    }
    SameSetIff(again, narrow, extra);
    assert forall c :: extra(c) <==> OffersOthers(s, scenarioId, orderId, changes, c);
  }
}
