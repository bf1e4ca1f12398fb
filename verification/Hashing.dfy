/** The canonical form a result is hashed in. The digest over it is not modelled: equal forms
    give equal digests, and the properties here are about the form. */
module Hashing {
  import opened Ordering
  import opened Eligibility
  import opened BaselineSolve

  /** The five state axes of an order. */
  datatype Axes = Axes(
    inputState: InputState,
    eligibilityState: EligibilityState,
    assignmentState: AssignmentState,
    alternativeState: AlternativeState,
    primary: Shown)

  datatype NormalForm = NormalForm(assignments: seq<Assignment>, axes: map<Id, Axes>)

  function AxesOf(o: OrderOutcome): Axes {
    Axes(o.inputState, o.eligibilityState, o.assignmentState, o.alternativeState, o.primary)
  }

  /** Order, then service, then wagon, then slot. */
  predicate AssignmentLeq(a: Assignment, b: Assignment) {
    if a.order != b.order then Leq(a.order, b.order)
    else if a.service != b.service then Leq(a.service, b.service)
    else if a.wagon != b.wagon then Leq(a.wagon, b.wagon)
    else Leq(a.slot, b.slot)
  }

  function AxesTable(outcomes: seq<OrderOutcome>): map<Id, Axes> {
    var table := ById(outcomes, OutcomeOrder);
    map o | o in table :: AxesOf(table[o])
  }

  function NormaliseResult(assignments: seq<Assignment>, outcomes: seq<OrderOutcome>): NormalForm {
    NormalForm(Sort(assignments, AssignmentLeq), AxesTable(outcomes))
  }

  lemma AssignmentLeqTotal(a: Assignment, b: Assignment)
    ensures AssignmentLeq(a, b) || AssignmentLeq(b, a)
    ensures AssignmentLeq(a, b) && AssignmentLeq(b, a) ==> a == b
  {
    Trichotomy(a.order, b.order);
    Trichotomy(a.service, b.service);
    Trichotomy(a.wagon, b.wagon);
    Trichotomy(a.slot, b.slot);
    LeqReflexive(a.slot);
  }

  lemma AssignmentLeqTransitive(a: Assignment, b: Assignment, c: Assignment)
    requires AssignmentLeq(a, b) && AssignmentLeq(b, c)
    ensures AssignmentLeq(a, c)
  {
    LeqReflexive(b.order);
    LeqReflexive(b.service);
    LeqReflexive(b.wagon);
    if a.order != b.order || b.order != c.order {
      LeqTransitive(a.order, b.order, c.order);
      Trichotomy(a.order, b.order);
    } else if a.service != b.service || b.service != c.service {
      LeqTransitive(a.service, b.service, c.service);
      Trichotomy(a.service, b.service);
    } else if a.wagon != b.wagon || b.wagon != c.wagon {
      LeqTransitive(a.wagon, b.wagon, c.wagon);
      Trichotomy(a.wagon, b.wagon);
    } else {
      LeqTransitive(a.slot, b.slot, c.slot);
    }
  }

  lemma AssignmentOrder()
    ensures TotalOrder(AssignmentLeq)
    ensures Antisymmetric(AssignmentLeq)
  {
    forall a, b ensures AssignmentLeq(a, b) || AssignmentLeq(b, a) {
      AssignmentLeqTotal(a, b);
    }
    forall a, b | AssignmentLeq(a, b) && AssignmentLeq(b, a) ensures a == b {
      AssignmentLeqTotal(a, b);
    }
    forall a, b, c | AssignmentLeq(a, b) && AssignmentLeq(b, c) ensures AssignmentLeq(a, c) {
      AssignmentLeqTransitive(a, b, c);
    }
  }

  /** Canonical: equal forms exactly for the same assignments, as often, and the same five
      axes per order, whatever order either list was in. */
  lemma NormalFormIsCanonical(a: seq<Assignment>, x: seq<OrderOutcome>, b: seq<Assignment>, y: seq<OrderOutcome>)
    ensures NormaliseResult(a, x) == NormaliseResult(b, y) <==>
              multiset(a) == multiset(b) && AxesTable(x) == AxesTable(y)
  {
    AssignmentOrder();
    SortSorts(a, AssignmentLeq);
    SortSorts(b, AssignmentLeq);
    if multiset(a) == multiset(b) {
      SortedUnique(Sort(a, AssignmentLeq), Sort(b, AssignmentLeq), AssignmentLeq);
    }
  }

  /** Badges and links are presentation: only the five axes reach the form. */
  lemma AxesTableByAxes(x: seq<OrderOutcome>, y: seq<OrderOutcome>)
    requires |x| == |y|
    requires forall i :: 0 <= i < |x| ==> x[i].order == y[i].order && AxesOf(x[i]) == AxesOf(y[i])
    ensures AxesTable(x) == AxesTable(y)
  {
    if x != [] {
      AxesTableByAxes(x[..|x| - 1], y[..|y| - 1]);
      AxesTableGrows(x);
      AxesTableGrows(y);
    }
  }

  lemma AxesTableGrows(x: seq<OrderOutcome>)
    requires x != []
    ensures AxesTable(x) == AxesTable(x[..|x| - 1])[x[|x| - 1].order := AxesOf(x[|x| - 1])]
  {
  }

  /** Two results have the same form exactly when they place the same assignments, as often, and
      report the same orders with the same five states each. */
  lemma FormReads(a: seq<Assignment>, x: seq<OrderOutcome>, b: seq<Assignment>, y: seq<OrderOutcome>)
    requires DistinctKeys(x, OutcomeOrder) && DistinctKeys(y, OutcomeOrder)
    ensures NormaliseResult(a, x) == NormaliseResult(b, y) <==>
              multiset(a) == multiset(b) && SameStates(x, y) && SameStates(y, x)
  {
    NormalFormIsCanonical(a, x, b, y);
    SameStatesIff(x, y);
    SameStatesIff(y, x);
    TablesEqualIff(x, y);
  }

  lemma TablesEqualIff(x: seq<OrderOutcome>, y: seq<OrderOutcome>)
    ensures AxesTable(x) == AxesTable(y) <==> TableWithin(x, y) && TableWithin(y, x)
  {
    if TableWithin(x, y) && TableWithin(y, x) {
      SameTable(AxesTable(x), AxesTable(y));
    }
  }

  lemma SameTable(m: map<Id, Axes>, n: map<Id, Axes>)
    requires forall k :: k in m ==> k in n && m[k] == n[k]
    requires forall k :: k in n ==> k in m
    ensures m == n
  {
    assert m.Keys == n.Keys;
  }

  /** Every outcome of `x` is matched in `y` by one of the same order with the same five states. */
  ghost predicate SameStates(x: seq<OrderOutcome>, y: seq<OrderOutcome>) {
    forall o :: o in x ==>
      exists p :: p in y && p.order == o.order && p.inputState == o.inputState
                  && p.eligibilityState == o.eligibilityState && p.assignmentState == o.assignmentState
                  && p.alternativeState == o.alternativeState && p.primary == o.primary
  }

  ghost predicate TableWithin(x: seq<OrderOutcome>, y: seq<OrderOutcome>) {
    forall k :: k in AxesTable(x) ==> k in AxesTable(y) && AxesTable(x)[k] == AxesTable(y)[k]
  }

  lemma AxesEntry(x: seq<OrderOutcome>, o: OrderOutcome)
    requires DistinctKeys(x, OutcomeOrder) && o in x
    ensures o.order in AxesTable(x) && AxesTable(x)[o.order] == AxesOf(o)
  {
    SameKeySameRecord(x, OutcomeOrder, o, ById(x, OutcomeOrder)[OutcomeOrder(o)]);
  }

  lemma SameStatesIff(x: seq<OrderOutcome>, y: seq<OrderOutcome>)
    requires DistinctKeys(x, OutcomeOrder) && DistinctKeys(y, OutcomeOrder)
    ensures SameStates(x, y) <==> TableWithin(x, y)
  {
    if SameStates(x, y) {
      forall k | k in AxesTable(x) ensures k in AxesTable(y) && AxesTable(x)[k] == AxesTable(y)[k] {
        var o := ById(x, OutcomeOrder)[k];
        assert o in x && o.order == k;
        var p :| p in y && p.order == o.order && p.inputState == o.inputState
                 && p.eligibilityState == o.eligibilityState && p.assignmentState == o.assignmentState
                 && p.alternativeState == o.alternativeState && p.primary == o.primary;
        AxesEntry(x, o);
        AxesEntry(y, p);
      }
    }
    if TableWithin(x, y) {
      forall o | o in x
        ensures exists p :: p in y && p.order == o.order && p.inputState == o.inputState
                            && p.eligibilityState == o.eligibilityState && p.assignmentState == o.assignmentState
                            && p.alternativeState == o.alternativeState && p.primary == o.primary
      {
        AxesEntry(x, o);
        var p := ById(y, OutcomeOrder)[o.order];
        assert p in y && p.order == o.order;
        AxesEntry(y, p);
      }
    }
  }

  /** The form lists the assignments by order, then service, then wagon, then slot. */
  lemma FormOrderReads(a: seq<Assignment>, x: seq<OrderOutcome>, i: nat, j: nat)
    requires i < j < |NormaliseResult(a, x).assignments|
    ensures var p, q := NormaliseResult(a, x).assignments[i], NormaliseResult(a, x).assignments[j];
            || Less(p.order, q.order)
            || (p.order == q.order && Less(p.service, q.service))
            || (p.order == q.order && p.service == q.service && Less(p.wagon, q.wagon))
            || (p.order == q.order && p.service == q.service && p.wagon == q.wagon && Leq(p.slot, q.slot))
  {
    AssignmentOrder();
    SortSorts(a, AssignmentLeq);
    var sorted := NormaliseResult(a, x).assignments;
    assert AssignmentLeq(sorted[i], sorted[j]);
  }
}
