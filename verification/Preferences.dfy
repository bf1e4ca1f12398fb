/** What an optimal plan and its recorded figures say about the orders themselves. */
module Preferences {
  import opened Ordering
  import opened Snapshots
  import opened Eligibility
  import opened Plans
  import opened CpSat
  import opened AssignmentModel
  import opened BaselineSolve
  import opened Listing
  import opened PlanValidator
  import opened Agreement
  import opened Planning

  // ---------------------------------------------------------------- an order's own figures

  /** The score the policy gives the order's class. */
  function ClassScore(s: Snapshot, o: Order): int {
    if o.priority == P1 then s.policy.scores.p1
    else if o.priority == P2 then s.policy.scores.p2
    else s.policy.scores.p3
  }

  /** Whole seconds from the planning instant to the due time, towards zero. */
  function SecondsToDue(s: Snapshot, o: Order): (seconds: int)
    ensures o.dueAt >= s.asOf ==> 0 <= o.dueAt - s.asOf - seconds * 1_000_000 < 1_000_000
    ensures o.dueAt <= s.asOf ==> 0 <= s.asOf - o.dueAt + seconds * 1_000_000 < 1_000_000
  {
    if o.dueAt >= s.asOf then (o.dueAt - s.asOf) / 1_000_000 else -((s.asOf - o.dueAt) / 1_000_000)
  }

  function Kilograms(o: Order): nat {
    match o.grossWeight
    case Some(weight) => weight
    case None => 0
  }

  /** A figure summed over the assigned orders. */
  function SumOver(s: Snapshot, assignments: seq<Assignment>, figure: Order -> int): int {
    if assignments == [] then 0
    else
      var last := assignments[|assignments| - 1];
      SumOver(s, assignments[..|assignments| - 1], figure)
      + (if last.order in OrderTable(s) then figure(OrderTable(s)[last.order]) else 0)
  }

  /** What the assignments put on a wagon. */
  function OnWagon(s: Snapshot, assignments: seq<Assignment>, wagon: Id): nat {
    if assignments == [] then 0
    else
      var last := assignments[|assignments| - 1];
      OnWagon(s, assignments[..|assignments| - 1], wagon)
      + (if last.wagon == wagon && last.order in OrderTable(s) then Kilograms(OrderTable(s)[last.order]) else 0)
  }

  lemma ScoreRead(s: Snapshot, c: Candidate)
    requires c.order in OrderTable(s)
    ensures Value(BookOf(s), Score, c) == ClassScore(s, OrderTable(s)[c.order])
  {
    assert BookOf(s).score[c.order] == AssignmentModel.PriorityScore(s.policy.scores, OrderTable(s)[c.order].priority);
  }

  lemma SecondsRead(asOf: int, dueAt: int)
    ensures TruncatedSeconds(dueAt - asOf)
         == if dueAt >= asOf then (dueAt - asOf) / 1_000_000 else -((asOf - dueAt) / 1_000_000)
  {
    assert -(dueAt - asOf) == asOf - dueAt;
  }

  lemma LoadRead(s: Snapshot, wagon: Id, c: Candidate)
    requires c.order in OrderTable(s)
    ensures Value(BookOf(s), Load(wagon), c)
         == if c.wagon == wagon then Kilograms(OrderTable(s)[c.order]) else 0
  {
    WeightRead(s, c.order);
    ValueReads(BookOf(s), wagon, c);
  }

  lemma BookTables(s: Snapshot)
    ensures BookOf(s).due == DueSeconds(s.asOf, OrderTable(s))
  {
  }

  lemma ValueReads(b: Book, wagon: Id, c: Candidate)
    ensures Value(b, Due, c) == At(b.due, c.order)
    ensures Value(b, Load(wagon), c) == if c.wagon == wagon then Weight(b, c.order) else 0
  {
  }

  lemma DueEntry(asOf: int, orders: map<Id, Order>, order: Id)
    requires order in orders
    ensures At(DueSeconds(asOf, orders), order) == TruncatedSeconds(orders[order].dueAt - asOf)
  {
  }

  lemma DueRead(s: Snapshot, c: Candidate)
    requires c.order in OrderTable(s)
    ensures Value(BookOf(s), Due, c) == SecondsToDue(s, OrderTable(s)[c.order])
  {
    SecondsRead(s.asOf, OrderTable(s)[c.order].dueAt);
    DueEntry(s.asOf, OrderTable(s), c.order);
    BookTables(s);
    ValueReads(BookOf(s), "", c);
  }

  lemma WeightRead(s: Snapshot, order: Id)
    requires order in OrderTable(s)
    ensures Weight(BookOf(s), order) == Kilograms(OrderTable(s)[order])
  {
    BookFigures(s, order, "");
  }

  lemma {:induction false} SumIsOver(s: Snapshot, assignments: seq<Assignment>, m: Measure, figure: Order -> int)
    requires DistinctKeys(assignments, CandidateOrder)
    requires forall a :: a in assignments ==>
               a.order in OrderTable(s) && Value(BookOf(s), m, a) == figure(OrderTable(s)[a.order])
    ensures Sum(BookOf(s), m, PlanOf(assignments)) == SumOver(s, assignments, figure)
    decreases |assignments|
  {
    if assignments == [] {
      assert PlanOf(assignments) == {};
    } else {
      var front, last := assignments[..|assignments| - 1], assignments[|assignments| - 1];
      PlanGrows(assignments);
      SumIsOver(s, front, m, figure);
      SumAdd(BookOf(s), m, PlanOf(front), last);
    }
  }

  lemma {:induction false} LoadIsOnWagon(s: Snapshot, assignments: seq<Assignment>, wagon: Id)
    requires DistinctKeys(assignments, CandidateOrder)
    requires forall a :: a in assignments ==> a.order in OrderTable(s)
    ensures Sum(BookOf(s), Load(wagon), PlanOf(assignments)) == OnWagon(s, assignments, wagon)
    decreases |assignments|
  {
    if assignments == [] {
      assert PlanOf(assignments) == {};
    } else {
      var front, last := assignments[..|assignments| - 1], assignments[|assignments| - 1];
      PlanGrows(assignments);
      LoadIsOnWagon(s, front, wagon);
      LoadRead(s, wagon, last);
      SumAdd(BookOf(s), Load(wagon), PlanOf(front), last);
    }
  }

  lemma {:induction false} PlanSize(assignments: seq<Assignment>)
    requires DistinctKeys(assignments, CandidateOrder)
    ensures |PlanOf(assignments)| == |assignments|
    decreases |assignments|
  {
    if assignments == [] {
      assert PlanOf(assignments) == {};
    } else {
      PlanGrows(assignments);
      PlanSize(assignments[..|assignments| - 1]);
    }
  }

  // ---------------------------------------------------------------- the recorded figures

  /** A plan an honest engine led to, over some scope of the snapshot. */
  ghost predicate Solved(s: Snapshot, scope: Scope, r: SolveResult) {
    && WellFormed(s) && WagonsKnown(s) && Sound(BookOf(s), EvaluationsOf(s, scope), r)
    && r.status != SolverError
  }

  lemma SolvedOrders(s: Snapshot, scope: Scope, r: SolveResult)
    requires Solved(s, scope, r)
    ensures DistinctKeys(r.assignments, CandidateOrder)
    ensures forall a :: a in r.assignments ==> a.order in OrderTable(s)
    ensures Feasible(BookOf(s), Choosable(CandidatesOf(s, scope)), PlanOf(r.assignments))
  {
    ReportedOrders(r.assignments);
    forall a | a in r.assignments ensures a.order in OrderTable(s) {
      assert a in PlanOf(r.assignments);
      ListedOrdersKnown(s, scope);
    }
  }

  /** What is recorded is the number of assignments, the sum of their class scores and the sum of
      the whole seconds to their due times. */
  lemma FiguresRead(s: Snapshot, scope: Scope, r: SolveResult)
    requires Solved(s, scope, r)
    ensures AssignedCount in r.values && r.values[AssignedCount] == |r.assignments|
    ensures PriorityScore in r.values ==>
              r.values[PriorityScore] == SumOver(s, r.assignments, o => ClassScore(s, o))
    ensures DueCost in r.values ==> r.values[DueCost] == SumOver(s, r.assignments, o => SecondsToDue(s, o))
    ensures r.isOptimal ==>
              PriorityScore in r.values && (CandidatesOf(s, scope) != [] ==> DueCost in r.values)
  {
    SolvedOrders(s, scope, r);
    forall a | a in r.assignments
      ensures Value(BookOf(s), Score, a) == ClassScore(s, OrderTable(s)[a.order])
      ensures Value(BookOf(s), Due, a) == SecondsToDue(s, OrderTable(s)[a.order])
    {
      ScoreRead(s, a);
      DueRead(s, a);
    }
    SumIsOver(s, r.assignments, Score, o => ClassScore(s, o));
    SumIsOver(s, r.assignments, Due, o => SecondsToDue(s, o));
    PlanSize(r.assignments);
  }

  // ---------------------------------------------------------------- exchanging one placement

  /** With `c` taken out, `d` finds its slot free and room on its wagon. */
  ghost predicate RoomInstead(s: Snapshot, assignments: seq<Assignment>, c: Candidate, d: Candidate)
    requires c.order in OrderTable(s) && d.order in OrderTable(s)
  {
    && (forall a :: a in assignments && a != c ==> a.slot != d.slot)
    && forall w :: w in s.wagons && w.id == d.wagon ==>
         OnWagon(s, assignments, d.wagon) - (if c.wagon == d.wagon then Kilograms(OrderTable(s)[c.order]) else 0)
         + Kilograms(OrderTable(s)[d.order]) <= w.maxTotalWeight
  }

  ghost function Exchanged(p: Plan, c: Candidate, d: Candidate): Plan {
    p - {c} + {d}
  }

  lemma ExchangeTotals(b: Book, m: Measure, p: Plan, c: Candidate, d: Candidate)
    requires c in p && d !in p
    ensures Sum(b, m, Exchanged(p, c, d)) == Sum(b, m, p) - Value(b, m, c) + Value(b, m, d)
    ensures |Exchanged(p, c, d)| == |p|
  {
    SumRemove(b, m, p, c);
    SumAdd(b, m, p - {c}, d);
  }

  /** Order, slot and wagon are free once `c` is gone, so the exchanged plan is feasible too. */
  lemma ExchangeFeasible(b: Book, choices: set<Candidate>, p: Plan, c: Candidate, d: Candidate)
    requires Feasible(b, choices, p) && c in p && d in choices && d !in p
    requires d.order == c.order || !Plans.Holds(p, d.order)
    requires forall a :: a in p && a != c ==> a.slot != d.slot
    requires Sum(b, Load(d.wagon), p) - Value(b, Load(d.wagon), c) + Weight(b, d.order) <= Capacity(b, d.wagon)
    ensures Feasible(b, choices, Exchanged(p, c, d))
  {
    SubplanFeasible(b, choices, p - {c}, p);
    SumRemove(b, Load(d.wagon), p, c);
    assert !Plans.Holds(p - {c}, d.order);
    JoinFeasible(b, choices, p - {c}, d);
  }

  lemma ExchangedSlots(p: Plan, c: Candidate, d: Candidate, order: Id)
    requires OneSlotPerOrder(p) && OneSlotPerOrder(Exchanged(p, c, d)) && c in p && d !in p
    requires d.order == c.order || !Plans.Holds(p, d.order)
    ensures order != c.order && order != d.order ==> SlotOf(Exchanged(p, c, d), order) == SlotOf(p, order)
    ensures SlotOf(p, c.order) == Some(c.slot) && SlotOf(Exchanged(p, c, d), d.order) == Some(d.slot)
    ensures d.order != c.order ==> SlotOf(p, d.order) == None && SlotOf(Exchanged(p, c, d), c.order) == None
  {
    var q := Exchanged(p, c, d);
    SlotOfMember(p, c);
    SlotOfMember(q, d);
    if order != c.order && order != d.order {
      if Plans.Holds(p, order) {
        var a :| a in p && a.order == order;
        assert a in q;
        SlotOfMember(p, a);
        SlotOfMember(q, a);
      } else {
        assert !Plans.Holds(q, order);
      }
    }
  }

  lemma EarlierExchange(p: Plan, c: Candidate, d: Candidate)
    requires OneSlotPerOrder(p) && OneSlotPerOrder(Exchanged(p, c, d)) && c in p && d !in p
    requires d.order == c.order || !Plans.Holds(p, d.order)
    requires Earlier(p, Exchanged(p, c, d))
    ensures d.order == c.order ==> Less(c.slot, d.slot)
    ensures d.order != c.order ==> Less(c.order, d.order)
  {
    var q := Exchanged(p, c, d);
    var o :| EarlierAt(p, q, o);
    ExchangedSlots(p, c, d, o);
    ExchangedSlots(p, c, d, d.order);
    Trichotomy(c.order, d.order);
  }

  lemma RoomOnWagon(s: Snapshot, assignments: seq<Assignment>, c: Candidate, d: Candidate)
    requires IdsDistinct(s) && WagonsKnown(s) && Offers(s, d)
    requires c.order in OrderTable(s) && d.order in OrderTable(s) && RoomInstead(s, assignments, c, d)
    requires Sum(BookOf(s), Load(d.wagon), PlanOf(assignments)) == OnWagon(s, assignments, d.wagon)
    ensures var b := BookOf(s);
            Sum(b, Load(d.wagon), PlanOf(assignments)) - Value(b, Load(d.wagon), c) + Weight(b, d.order)
              <= Capacity(b, d.wagon)
  {
    LoadRead(s, d.wagon, c);
    WeightRead(s, d.order);
    OfferedFacts(s, d);
    var w := ById(s.wagons, WagonId)[d.wagon];
    assert w in s.wagons && w.id == d.wagon;
    BookFigures(s, d.order, d.wagon);
  }

  /** The room the snapshot shows is the room the model asks for. */
  lemma RoomIsFeasible(s: Snapshot, scope: Scope, r: SolveResult, c: Candidate, d: Candidate)
    requires Solved(s, scope, r) && c in r.assignments && d in Choosable(CandidatesOf(s, scope))
    requires d !in r.assignments && (d.order == c.order || d.order !in OrdersOf(r.assignments))
    requires c.order in OrderTable(s) && d.order in OrderTable(s) && RoomInstead(s, r.assignments, c, d)
    ensures Feasible(BookOf(s), Choosable(CandidatesOf(s, scope)), Exchanged(PlanOf(r.assignments), c, d))
  {
    SolvedOrders(s, scope, r);
    LoadIsOnWagon(s, r.assignments, d.wagon);
    CandidatesMembers(s, scope, d);
    RoomOnWagon(s, r.assignments, c, d);
    HeldIsPlaced(r.assignments, d.order);
    ExchangeFeasible(BookOf(s), Choosable(CandidatesOf(s, scope)), PlanOf(r.assignments), c, d);
  }

  lemma HeldIsPlaced(assignments: seq<Assignment>, order: Id)
    ensures Plans.Holds(PlanOf(assignments), order) ==> order in OrdersOf(assignments)
  {
  }

  /** In an optimal plan no exchange helps. */
  lemma ExchangeBeaten(s: Snapshot, scope: Scope, r: SolveResult, c: Candidate, d: Candidate)
    requires Solved(s, scope, r) && r.isOptimal && c in r.assignments && d in Choosable(CandidatesOf(s, scope))
    requires d !in r.assignments && (d.order == c.order || d.order !in OrdersOf(r.assignments))
    requires c.order in OrderTable(s) && d.order in OrderTable(s) && RoomInstead(s, r.assignments, c, d)
    ensures Beats(BookOf(s), PlanOf(r.assignments), Exchanged(PlanOf(r.assignments), c, d))
    ensures OneSlotPerOrder(PlanOf(r.assignments)) && OneSlotPerOrder(Exchanged(PlanOf(r.assignments), c, d))
  {
    RoomIsFeasible(s, scope, r, c, d);
    SolvedOrders(s, scope, r);
    assert d in Exchanged(PlanOf(r.assignments), c, d);
  }

  lemma BeatenExchange(b: Book, p: Plan, c: Candidate, d: Candidate)
    requires Beats(b, p, Exchanged(p, c, d)) && c in p && d !in p
    requires OneSlotPerOrder(p) && OneSlotPerOrder(Exchanged(p, c, d))
    requires d.order == c.order || !Plans.Holds(p, d.order)
    ensures Value(b, Score, d) <= Value(b, Score, c)
    ensures Value(b, Score, d) == Value(b, Score, c) ==> Value(b, Due, c) <= Value(b, Due, d)
    ensures Value(b, Score, d) == Value(b, Score, c) && Value(b, Due, c) == Value(b, Due, d) ==>
              if d.order == c.order then Less(c.slot, d.slot) else Less(c.order, d.order)
  {
    ExchangeTotals(b, Score, p, c, d);
    ExchangeTotals(b, Due, p, c, d);
    if Earlier(p, Exchanged(p, c, d)) {
      EarlierExchange(p, c, d);
    }
  }

  /** An order left out for one that is placed has no higher class score; with the same score it is
      due no sooner in whole seconds; and with the same seconds it comes later in text order. */
  lemma LeftOutRanksLower(s: Snapshot, scope: Scope, r: SolveResult, c: Candidate, d: Candidate)
    requires Solved(s, scope, r) && r.isOptimal && c in r.assignments && d in Choosable(CandidatesOf(s, scope))
    requires d.order !in OrdersOf(r.assignments)
    requires c.order in OrderTable(s) && d.order in OrderTable(s) && RoomInstead(s, r.assignments, c, d)
    ensures var placed, out := OrderTable(s)[c.order], OrderTable(s)[d.order];
            && ClassScore(s, out) <= ClassScore(s, placed)
            && (ClassScore(s, out) == ClassScore(s, placed) ==>
                  && SecondsToDue(s, placed) <= SecondsToDue(s, out)
                  && (SecondsToDue(s, placed) == SecondsToDue(s, out) ==> Less(c.order, d.order)))
  {
    ExchangeBeaten(s, scope, r, c, d);
    HeldIsPlaced(r.assignments, d.order);
    BeatenExchange(BookOf(s), PlanOf(r.assignments), c, d);
    ScoreRead(s, c);
    ScoreRead(s, d);
    DueRead(s, c);
    DueRead(s, d);
  }

  /** So at the same score it is not due two seconds or more before the placed one, and not one
      second or more unless the planning instant lies between the two due times. */
  lemma LeftOutIsNotDueBefore(s: Snapshot, scope: Scope, r: SolveResult, c: Candidate, d: Candidate)
    requires Solved(s, scope, r) && r.isOptimal && c in r.assignments && d in Choosable(CandidatesOf(s, scope))
    requires d.order !in OrdersOf(r.assignments)
    requires c.order in OrderTable(s) && d.order in OrderTable(s) && RoomInstead(s, r.assignments, c, d)
    requires ClassScore(s, OrderTable(s)[c.order]) == ClassScore(s, OrderTable(s)[d.order])
    ensures var placed, out := OrderTable(s)[c.order], OrderTable(s)[d.order];
            && out.dueAt > placed.dueAt - 2_000_000
            && (s.asOf <= out.dueAt || placed.dueAt <= s.asOf ==> out.dueAt > placed.dueAt - 1_000_000)
  {
    LeftOutRanksLower(s, scope, r, c, d);
  }

  lemma OneOfEach(assignments: seq<Assignment>, c: Candidate, d: Candidate)
    requires DistinctKeys(assignments, CandidateOrder) && c in assignments && d.order == c.order && d != c
    ensures d !in assignments
  {
    if d in assignments {
      SameKeySameRecord(assignments, CandidateOrder, c, d);
    }
  }

  lemma SameOrderSameValue(b: Book, c: Candidate, d: Candidate)
    requires c.order == d.order
    ensures Value(b, Score, c) == Value(b, Score, d) && Value(b, Due, c) == Value(b, Due, d)
  {
  }

  /** A placed order holds the first in text order of the slots it could exchange its own for. */
  lemma FirstFreeSlotIsHeld(s: Snapshot, scope: Scope, r: SolveResult, c: Candidate, d: Candidate)
    requires Solved(s, scope, r) && r.isOptimal && c in r.assignments && d in Choosable(CandidatesOf(s, scope))
    requires d.order == c.order && d != c && c.order in OrderTable(s) && RoomInstead(s, r.assignments, c, d)
    ensures Less(c.slot, d.slot)
  {
    SolvedOrders(s, scope, r);
    OneOfEach(r.assignments, c, d);
    ExchangeBeaten(s, scope, r, c, d);
    SameOrderSameValue(BookOf(s), c, d);
    BeatenExchange(BookOf(s), PlanOf(r.assignments), c, d);
  }

  /** A choice of an order left out finds its slot taken or its wagon too full. */
  lemma LeftOutFindsNoRoom(s: Snapshot, scope: Scope, r: SolveResult, d: Candidate)
    requires Solved(s, scope, r) && d in Choosable(CandidatesOf(s, scope)) && d.order in OrderTable(s)
    requires MostOrders(BookOf(s), Choosable(CandidatesOf(s, scope)), PlanOf(r.assignments))
    requires d.order !in OrdersOf(r.assignments)
    ensures (exists a :: a in r.assignments && a.slot == d.slot)
            || exists w :: w in s.wagons && w.id == d.wagon
                           && OnWagon(s, r.assignments, d.wagon) + Kilograms(OrderTable(s)[d.order]) > w.maxTotalWeight
  {
    SolvedOrders(s, scope, r);
    HeldIsPlaced(r.assignments, d.order);
    LeftOutMeansBlocked(BookOf(s), Choosable(CandidatesOf(s, scope)), PlanOf(r.assignments), d);
    LoadIsOnWagon(s, r.assignments, d.wagon);
    WeightRead(s, d.order);
    CandidatesMembers(s, scope, d);
    OfferedFacts(s, d);
    BookFigures(s, d.order, d.wagon);
    var w := ById(s.wagons, WagonId)[d.wagon];
    assert w in s.wagons && w.id == d.wagon;
  }
}
