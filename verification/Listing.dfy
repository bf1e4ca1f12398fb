/** The candidate list a whole scenario hands to the solver, described on the snapshot. */
module Listing {
  import opened Ordering
  import ReasonCodes
  import opened Snapshots
  import opened Eligibility
  import opened GateProperties
  import opened Plans
  import opened Separability
  import opened AssignmentModel
  import opened BaselineSolve

  /** Which services each order may use: the default list, unless an order has its own. */
  datatype Scope = Scope(default: seq<Id>, perOrder: map<Id, seq<Id>>)

  function EvaluationsOf(s: Snapshot, scope: Scope): seq<OrderEvaluation>
    requires WagonsKnown(s)
  {
    Evaluations(IndexOf(s), s.orders, scope.default, scope.perOrder)
  }

  function CandidatesOf(s: Snapshot, scope: Scope): seq<Candidate>
    requires WagonsKnown(s)
  {
    AllCandidates(EvaluationsOf(s, scope))
  }

  function OrderTable(s: Snapshot): map<Id, Order> {
    ById(s.orders, OrderId)
  }

  function ScopeFor(scope: Scope, o: Order): seq<Id> {
    ServicesFor(o, scope.default, scope.perOrder)
  }

  /** How often one order's evaluation lists a candidate. */
  ghost function Listings(s: Snapshot, o: Order, services: seq<Id>, c: Candidate): nat
    requires WagonsKnown(s)
  {
    if InputValid(o) && Fits(s, o, c) then multiset(services)[c.service] else 0
  }

  lemma EvaluationListings(s: Snapshot, o: Order, services: seq<Id>, c: Candidate)
    requires WagonsKnown(s) && DistinctKeys(s.slots, SlotId)
    ensures multiset(EvaluationOf(IndexOf(s), o, services).candidates)[c] == Listings(s, o, services, c)
  {
    CandidateCount(s, o, services, c);
  }

  lemma {:induction false} ListingsOver(s: Snapshot, orders: seq<Order>, scope: Scope, c: Candidate)
    requires WagonsKnown(s) && DistinctKeys(s.slots, SlotId) && DistinctKeys(orders, OrderId)
    ensures var table := ById(orders, OrderId);
            multiset(AllCandidates(Evaluations(IndexOf(s), orders, scope.default, scope.perOrder)))[c]
            == if c.order in table then Listings(s, table[c.order], ScopeFor(scope, table[c.order]), c) else 0
    decreases |orders|
  {
    if orders != [] {
      var front, last := orders[..|orders| - 1], orders[|orders| - 1];
      var evaluations := Evaluations(IndexOf(s), orders, scope.default, scope.perOrder);
      assert evaluations[..|evaluations| - 1] == Evaluations(IndexOf(s), front, scope.default, scope.perOrder);
      LastKeyIsNew(orders, OrderId);
      ListingsOver(s, front, scope, c);
      EvaluationListings(s, last, ScopeFor(scope, last), c);
    }
  }

  /** The order is known and valid, and it fits the candidate. */
  ghost predicate Offers(s: Snapshot, c: Candidate)
    requires WagonsKnown(s)
  {
    c.order in OrderTable(s) && InputValid(OrderTable(s)[c.order]) && Fits(s, OrderTable(s)[c.order], c)
  }

  /** How often the candidate's service is listed for its order. */
  ghost function TimesScoped(s: Snapshot, scope: Scope, c: Candidate): nat
    requires c.order in OrderTable(s)
  {
    multiset(ScopeFor(scope, OrderTable(s)[c.order]))[c.service]
  }

  /** An offered candidate is listed once per listing of its service; nothing else is listed. */
  lemma CandidatesCount(s: Snapshot, scope: Scope, c: Candidate)
    requires WellFormed(s) && WagonsKnown(s)
    ensures multiset(CandidatesOf(s, scope))[c] == if Offers(s, c) then TimesScoped(s, scope, c) else 0
  {
    ListingsOver(s, s.orders, scope, c);
  }

  lemma CandidatesMembers(s: Snapshot, scope: Scope, c: Candidate)
    requires WellFormed(s) && WagonsKnown(s)
    ensures c in CandidatesOf(s, scope) <==> Offers(s, c) && TimesScoped(s, scope, c) >= 1
    ensures c in Choosable(CandidatesOf(s, scope)) <==> Offers(s, c) && TimesScoped(s, scope, c) == 1
  {
    CandidatesCount(s, scope, c);
    MemberIffCounted(c, CandidatesOf(s, scope));
  }

  lemma BerthFacts(s: Snapshot, slot: Id)
    requires IdsDistinct(s) && WagonsKnown(s) && slot in BerthTable(s)
    ensures var b := BerthTable(s)[slot];
            && b.slot.id == slot
            && b.slot in s.slots && b.slot.wagon == b.wagon.id
            && b.wagon in s.wagons && b.wagon.id in ById(s.wagons, WagonId)
            && ById(s.wagons, WagonId)[b.wagon.id] == b.wagon
  {
    var b := BerthTable(s)[slot];
    var i :| 0 <= i < |Berths(s)| && Berths(s)[i] == b;
  }

  lemma SlotOpenWeight(o: Order, b: Berth)
    requires SlotOpen(o, b)
    ensures OrderWeight(o) <= b.wagon.maxTotalWeight
  {
    assert ReasonCodes.WagonWeightExceeded !in SlotCodes(o, b);
  }

  lemma BookFigures(s: Snapshot, order: Id, wagon: Id)
    ensures order in OrderTable(s) ==> Weight(BookOf(s), order) == OrderWeight(OrderTable(s)[order])
    ensures wagon in ById(s.wagons, WagonId) ==>
              Capacity(BookOf(s), wagon) == ById(s.wagons, WagonId)[wagon].maxTotalWeight
  {
  }

  /** An offered candidate is wired to its wagon and service, and alone it is light enough. */
  lemma OfferedFacts(s: Snapshot, c: Candidate)
    requires IdsDistinct(s) && WagonsKnown(s) && Offers(s, c)
    ensures c.wagon in ById(s.wagons, WagonId) && ById(s.wagons, WagonId)[c.wagon].service == c.service
    ensures BerthTable(s)[c.slot].wagon.service == c.service
    ensures Weight(BookOf(s), c.order) <= Capacity(BookOf(s), c.wagon)
  {
    BerthFacts(s, c.slot);
    BookFigures(s, c.order, c.wagon);
    SlotOpenWeight(OrderTable(s)[c.order], BerthTable(s)[c.slot]);
  }

  lemma OfferedByKey(s: Snapshot, c: Candidate, d: Candidate)
    requires WagonsKnown(s) && Offers(s, c) && Offers(s, d) && c.order == d.order && c.slot == d.slot
    ensures c == d
  {
  }

  lemma CandidatesKnown(s: Snapshot, scope: Scope)
    requires WellFormed(s) && WagonsKnown(s)
    ensures forall c :: c in CandidatesOf(s, scope) ==> c.order in OrderTable(s) && c.wagon in ById(s.wagons, WagonId)
  {
    forall c | c in CandidatesOf(s, scope) ensures c.order in OrderTable(s) && c.wagon in ById(s.wagons, WagonId) {
      CandidatesMembers(s, scope, c);
      OfferedFacts(s, c);
    }
  }

  lemma CandidatesNamed(s: Snapshot, scope: Scope)
    requires WellFormed(s) && WagonsKnown(s)
    ensures KeysDetermine(Listed(CandidatesOf(s, scope)))
  {
    var listed := Listed(CandidatesOf(s, scope));
    forall c, d | c in listed && d in listed && c.order == d.order && c.slot == d.slot ensures c == d {
      CandidatesMembers(s, scope, c);
      CandidatesMembers(s, scope, d);
      OfferedByKey(s, c, d);
    }
  }

  /** The list resolves, and order and slot name each candidate in it. */
  lemma CandidatesResolve(s: Snapshot, scope: Scope)
    requires WellFormed(s) && WagonsKnown(s)
    ensures Resolved(s, CandidatesOf(s, scope))
  {
    CandidatesKnown(s, scope);
    CandidatesNamed(s, scope);
  }

  /** Candidates on different services share neither slot nor wagon. */
  lemma ServicesSeparate(s: Snapshot, c: Candidate, d: Candidate)
    requires IdsDistinct(s) && WagonsKnown(s)
    requires Offers(s, c) && Offers(s, d) && c.service != d.service
    ensures c.slot != d.slot && c.wagon != d.wagon
  {
    OfferedFacts(s, c);
    OfferedFacts(s, d);
  }
}
