/** The stages of the lexicographic objective, and why a lexicographic optimum over them is
    the one best plan: slot ranks are injective and leaving an order out costs more than any rank. */
module Objectives {
  import opened Ordering
  import opened Eligibility
  import opened Plans
  import opened CpSat
  import opened AssignmentModel
  import opened Separability

  // ---------------------------------------------------------------- ranks

  /** `enumerate(..., start=1)` as a table. */
  function RankTable(slots: seq<Id>): (ranks: map<Id, nat>)
    ensures forall s :: s in ranks <==> s in slots
  {
    if slots == [] then map[]
    else
      assert slots == slots[..|slots| - 1] + [slots[|slots| - 1]];
      RankTable(slots[..|slots| - 1])[slots[|slots| - 1] := |slots|]
  }

  function Rank(ranks: map<Id, nat>, slot: Id): nat {
    if slot in ranks then ranks[slot] else 0
  }

  lemma {:induction false} RankIsPlace(slots: seq<Id>, i: nat)
    requires i < |slots| && StrictlyIncreasing(slots, Self)
    ensures Rank(RankTable(slots), slots[i]) == i + 1
    decreases |slots|
  {
    var front, last := slots[..|slots| - 1], slots[|slots| - 1];
    if i < |slots| - 1 {
      RankIsPlace(front, i);
      assert Less(Self(slots[i]), Self(last));
      assert front[i] in front;
    }
  }

  /** Ranks keep text order, tell slots apart, and stay below the penalty. */
  lemma RanksKeepOrder(slots: seq<Id>, s: Id, t: Id)
    requires StrictlyIncreasing(slots, Self) && s in slots && t in slots
    ensures 1 <= Rank(RankTable(slots), s) <= |slots|
    ensures Rank(RankTable(slots), s) < Rank(RankTable(slots), t) <==> Less(s, t)
  {
    var i :| 0 <= i < |slots| && slots[i] == s;
    var j :| 0 <= j < |slots| && slots[j] == t;
    RankIsPlace(slots, i);
    RankIsPlace(slots, j);
    if i < j {
      assert Less(Self(slots[i]), Self(slots[j]));
    } else if j < i {
      assert Less(Self(slots[j]), Self(slots[i]));
      Trichotomy(s, t);
    }
  }

  function SortedSlots(cs: seq<Candidate>): seq<Id> {
    SortIds(KeysOf(cs, CandidateSlot))
  }

  function SortedOrders(cs: seq<Candidate>): seq<Id> {
    SortIds(KeysOf(cs, CandidateOrder))
  }

  lemma SortedKeys(cs: seq<Candidate>, key: Candidate -> Id)
    ensures StrictlyIncreasing(SortIds(KeysOf(cs, key)), Self)
    ensures forall c :: c in cs ==> key(c) in SortIds(KeysOf(cs, key))
  {
    SortIdsSpec(KeysOf(cs, key));
    KeysCover(cs, key);
  }

  // ---------------------------------------------------------------- stages

  function TermsBy(cs: seq<Candidate>, coefficient: Candidate -> int): seq<Term> {
    if cs == [] then []
    else
      var last := cs[|cs| - 1];
      TermsBy(cs[..|cs| - 1], coefficient) + [Term(last, coefficient(last))]
  }

  function RankOf(ranks: map<Id, nat>): Candidate -> int {
    (c: Candidate) => Rank(ranks, c.slot)
  }

  function Constantly(n: int): Candidate -> int {
    (c: Candidate) => n
  }

  /** ranked + penalty * (1 - assigned), for one order. */
  function CanonicalCost(cs: seq<Candidate>, ranks: map<Id, nat>, penalty: int, order: Id): Linear {
    var group := Filter(cs, CandidateOrder, order);
    Linear(TermsBy(group, RankOf(ranks)) + TermsBy(group, Constantly(-penalty)), penalty)
  }

  function Penalty(cs: seq<Candidate>): int {
    |SortedSlots(cs)| + 1
  }

  function CountStage(b: Book, cs: seq<Candidate>): Stage {
    Stage(Some(AssignedCount), Total(b, Count, Dedup(cs)), true)
  }

  function PriorityStage(b: Book, cs: seq<Candidate>): Stage {
    Stage(Some(PriorityScore), Total(b, Score, Dedup(cs)), true)
  }

  function DueStage(b: Book, cs: seq<Candidate>): Stage {
    Stage(Some(DueCost), Total(b, Due, Dedup(cs)), false)
  }

  function CanonicalStage(cs: seq<Candidate>, order: Id): Stage {
    Stage(None, CanonicalCost(cs, RankTable(SortedSlots(cs)), Penalty(cs), order), false)
  }

  function StageAt(b: Book, cs: seq<Candidate>, i: nat): Stage
    requires i < 3 + |SortedOrders(cs)|
  {
    if i == 0 then CountStage(b, cs)
    else if i == 1 then PriorityStage(b, cs)
    else if i == 2 then DueStage(b, cs)
    else CanonicalStage(cs, SortedOrders(cs)[i - 3])
  }

  /** Count, priority, due time, then one canonical cost per order in text order. */
  function AllStages(b: Book, cs: seq<Candidate>): (r: seq<Stage>)
    ensures |r| == 3 + |SortedOrders(cs)|
    ensures forall i :: 0 <= i < |r| ==> r[i] == StageAt(b, cs, i)
  {
    seq(3 + |SortedOrders(cs)|, i requires 0 <= i < 3 + |SortedOrders(cs)| => StageAt(b, cs, i))
  }

  // ---------------------------------------------------------------- what the stages measure

  lemma {:induction false} DedupOnce<T(!new)>(s: seq<T>, t: T)
    ensures multiset(Dedup(s))[t] <= 1
    decreases |s|
  {
    if s != [] {
      DedupOnce(s[..|s| - 1], t);
    }
  }

  lemma TotalMeans(b: Book, m: Measure, cs: seq<Candidate>, p: Plan)
    requires p <= Listed(cs)
    ensures Eval(Total(b, m, Dedup(cs)), p) == Sum(b, m, p)
  {
    forall c | c in p ensures multiset(Dedup(cs))[c] <= 1 {
      DedupOnce(cs, c);
    }
    TermsTotal(b, m, Dedup(cs), p);
    assert Part(p, Dedup(cs)) == p;
  }

  lemma {:induction false} TermsByNone(cs: seq<Candidate>, f: Candidate -> int, p: Plan)
    requires forall c :: c in cs ==> c !in p
    ensures SumTerms(TermsBy(cs, f), p) == 0
    decreases |cs|
  {
    if cs != [] {
      assert cs == cs[..|cs| - 1] + [cs[|cs| - 1]];
      assert TermsBy(cs, f)[..|TermsBy(cs, f)| - 1] == TermsBy(cs[..|cs| - 1], f);
      TermsByNone(cs[..|cs| - 1], f, p);
    }
  }

  lemma {:induction false} TermsByOne(cs: seq<Candidate>, f: Candidate -> int, p: Plan, c: Candidate)
    requires c in p && multiset(cs)[c] == 1
    requires forall d :: d in cs && d in p ==> d == c
    ensures SumTerms(TermsBy(cs, f), p) == f(c)
    decreases |cs|
  {
    assert c in multiset(cs);
    var front, last := cs[..|cs| - 1], cs[|cs| - 1];
    assert cs == front + [last];
    assert TermsBy(cs, f)[..|TermsBy(cs, f)| - 1] == TermsBy(front, f);
    if last == c {
      assert multiset(front)[c] == 0;
      assert c !in multiset(front) && c !in front;
      TermsByNone(front, f, p);
    } else {
      TermsByOne(front, f, p, c);
    }
  }

  lemma {:induction false} SumTermsConcat(x: seq<Term>, y: seq<Term>, p: Point)
    ensures SumTerms(x + y, p) == SumTerms(x, p) + SumTerms(y, p)
    decreases |y|
  {
    if y == [] {
      assert x + y == x;
    } else {
      assert (x + y)[..|x + y| - 1] == x + y[..|y| - 1];
      SumTermsConcat(x, y[..|y| - 1], p);
    }
  }

  ghost function PlacementCost(ranks: map<Id, nat>, penalty: int, p: Plan, order: Id): int {
    match SlotOf(p, order)
    case Some(slot) => Rank(ranks, slot)
    case None => penalty
  }

  lemma CanonicalOfPlaced(b: Book, cs: seq<Candidate>, ranks: map<Id, nat>, penalty: int, p: Plan, c: Candidate)
    requires Feasible(b, Choosable(cs), p) && c in p
    ensures Eval(CanonicalCost(cs, ranks, penalty, c.order), p) == Rank(ranks, c.slot)
  {
    var group := Filter(cs, CandidateOrder, c.order);
    FilterMembers(cs, CandidateOrder, c.order);
    FilterCount(cs, CandidateOrder, c);
    TermsByOne(group, RankOf(ranks), p, c);
    TermsByOne(group, Constantly(-penalty), p, c);
    SumTermsConcat(TermsBy(group, RankOf(ranks)), TermsBy(group, Constantly(-penalty)), p);
  }

  lemma CanonicalOfUnplaced(cs: seq<Candidate>, ranks: map<Id, nat>, penalty: int, order: Id, p: Plan)
    requires !Plans.Holds(p, order)
    ensures Eval(CanonicalCost(cs, ranks, penalty, order), p) == penalty
  {
    var group := Filter(cs, CandidateOrder, order);
    FilterMembers(cs, CandidateOrder, order);
    TermsByNone(group, RankOf(ranks), p);
    TermsByNone(group, Constantly(-penalty), p);
    SumTermsConcat(TermsBy(group, RankOf(ranks)), TermsBy(group, Constantly(-penalty)), p);
  }

  /** For a feasible plan the canonical cost is the rank of the order's slot, or the penalty. */
  lemma CanonicalMeans(b: Book, cs: seq<Candidate>, ranks: map<Id, nat>, penalty: int, order: Id, p: Plan)
    requires Feasible(b, Choosable(cs), p)
    ensures Eval(CanonicalCost(cs, ranks, penalty, order), p) == PlacementCost(ranks, penalty, p, order)
  {
    if Plans.Holds(p, order) {
      var c :| c in p && c.order == order;
      CanonicalOfPlaced(b, cs, ranks, penalty, p, c);
      SlotOfMember(p, c);
    } else {
      CanonicalOfUnplaced(cs, ranks, penalty, order, p);
    }
  }

  lemma FigureCosts(b: Book, cs: seq<Candidate>, p: Plan)
    requires p <= Listed(cs)
    ensures var a := Costs(AllStages(b, cs), p);
            a[0] == -|p| && a[1] == -Sum(b, Score, p) && a[2] == Sum(b, Due, p)
  {
    TotalMeans(b, Count, cs, p);
    TotalMeans(b, Score, cs, p);
    TotalMeans(b, Due, cs, p);
    CountIsSize(b, p);
  }

  lemma CanonicalCosts(b: Book, cs: seq<Candidate>, p: Plan, i: nat)
    requires Feasible(b, Choosable(cs), p) && i < |SortedOrders(cs)|
    ensures Costs(AllStages(b, cs), p)[3 + i]
         == PlacementCost(RankTable(SortedSlots(cs)), Penalty(cs), p, SortedOrders(cs)[i])
  {
    CanonicalMeans(b, cs, RankTable(SortedSlots(cs)), Penalty(cs), SortedOrders(cs)[i], p);
  }

  // ---------------------------------------------------------------- comparing placements

  lemma PlacedSlotIsRanked(cs: seq<Candidate>, p: Plan, order: Id)
    requires p <= Listed(cs) && OneSlotPerOrder(p)
    ensures SlotOf(p, order).Some? ==> SlotOf(p, order).value in SortedSlots(cs)
    ensures order !in SortedOrders(cs) ==> SlotOf(p, order).None?
  {
    SortedKeys(cs, CandidateSlot);
    SortedKeys(cs, CandidateOrder);
    if Plans.Holds(p, order) {
      var c :| c in p && c.order == order;
      SlotOfMember(p, c);
      assert c in cs;
    }
  }

  /** Equal costs mean the same slot, and a smaller cost means a sooner one. */
  lemma CostsComparePlacements(cs: seq<Candidate>, p: Plan, q: Plan, order: Id)
    requires p <= Listed(cs) && OneSlotPerOrder(p) && q <= Listed(cs) && OneSlotPerOrder(q)
    ensures var ranks, penalty := RankTable(SortedSlots(cs)), Penalty(cs);
            var x, y := PlacementCost(ranks, penalty, p, order), PlacementCost(ranks, penalty, q, order);
            && (x == y ==> SlotOf(p, order) == SlotOf(q, order))
            && (x < y ==> Sooner(SlotOf(p, order), SlotOf(q, order)))
  {
    SortedKeys(cs, CandidateSlot);
    PlacedSlotIsRanked(cs, p, order);
    PlacedSlotIsRanked(cs, q, order);
    match (SlotOf(p, order), SlotOf(q, order))
    case (Some(s), Some(t)) =>
      RanksKeepOrder(SortedSlots(cs), s, t);
      RanksKeepOrder(SortedSlots(cs), t, s);
      Trichotomy(s, t);
    case (Some(s), None) => RanksKeepOrder(SortedSlots(cs), s, s);
    case (None, Some(t)) => RanksKeepOrder(SortedSlots(cs), t, t);
    case (None, None) =>
  }

  lemma SamePlacementsSamePlan(candidates: set<Candidate>, p: Plan, q: Plan)
    requires KeysDetermine(candidates) && p <= candidates && q <= candidates
    requires OneSlotPerOrder(p) && OneSlotPerOrder(q)
    requires forall o :: SlotOf(p, o) == SlotOf(q, o)
    ensures p == q
  {
    forall c | c in p ensures c in q {
      SlotOfMember(p, c);
      assert SlotOf(q, c.order) == Some(c.slot);
    }
    forall c | c in q ensures c in p {
      SlotOfMember(q, c);
      assert SlotOf(p, c.order) == Some(c.slot);
    }
  }

  lemma LaterIsNotLess(orders: seq<Id>, n: nat, i: nat)
    requires StrictlyIncreasing(orders, Self) && n < |orders| && i < |orders|
    ensures n <= i ==> !Less(orders[i], orders[n])
  {
    Trichotomy(orders[i], orders[n]);
    if n < i {
      assert Less(Self(orders[n]), Self(orders[i]));
    }
  }

  lemma PlaceBefore(orders: seq<Id>, order: Id, n: nat) returns (i: nat)
    requires StrictlyIncreasing(orders, Self) && order in orders && n <= |orders|
    requires n < |orders| ==> Less(order, orders[n])
    ensures i < n && orders[i] == order
  {
    i :| 0 <= i < |orders| && orders[i] == order;
    if n < |orders| {
      LaterIsNotLess(orders, n, i);
    }
  }

  /** Up to the first `n` canonical stages alike: every order before the next one is placed alike. */
  lemma AgreeBefore(b: Book, cs: seq<Candidate>, p: Plan, q: Plan, n: nat, order: Id)
    requires Feasible(b, Choosable(cs), p) && Feasible(b, Choosable(cs), q)
    requires n <= |SortedOrders(cs)|
    requires forall j :: 3 <= j < 3 + n ==> Costs(AllStages(b, cs), p)[j] == Costs(AllStages(b, cs), q)[j]
    requires n < |SortedOrders(cs)| ==> Less(order, SortedOrders(cs)[n])
    ensures SlotOf(p, order) == SlotOf(q, order)
  {
    PlacedSlotIsRanked(cs, p, order);
    PlacedSlotIsRanked(cs, q, order);
    SortedKeys(cs, CandidateOrder);
    if order in SortedOrders(cs) {
      var i := PlaceBefore(SortedOrders(cs), order, n);
      CanonicalCosts(b, cs, p, i);
      CanonicalCosts(b, cs, q, i);
      CostsComparePlacements(cs, p, q, order);
    }
  }

  lemma CheaperIsEarlier(b: Book, cs: seq<Candidate>, p: Plan, q: Plan, n: nat)
    requires Feasible(b, Choosable(cs), p) && Feasible(b, Choosable(cs), q)
    requires n < |SortedOrders(cs)|
    requires CheaperAt(Costs(AllStages(b, cs), p), Costs(AllStages(b, cs), q), 3 + n)
    ensures Earlier(p, q)
  {
    var a, d := Costs(AllStages(b, cs), p), Costs(AllStages(b, cs), q);
    var order := SortedOrders(cs)[n];
    CanonicalCosts(b, cs, p, n);
    CanonicalCosts(b, cs, q, n);
    CostsComparePlacements(cs, p, q, order);
    forall j | 3 <= j < 3 + n ensures a[j] == d[j] {
      assert a[..3 + n][j] == d[..3 + n][j];
    }
    forall o | Less(o, order) ensures SlotOf(p, o) == SlotOf(q, o) {
      AgreeBefore(b, cs, p, q, n, o);
    }
    assert EarlierAt(p, q, order);
  }

  lemma SameCostsSamePlan(b: Book, cs: seq<Candidate>, p: Plan, q: Plan)
    requires KeysDetermine(Listed(cs))
    requires Feasible(b, Choosable(cs), p) && Feasible(b, Choosable(cs), q)
    requires Costs(AllStages(b, cs), p) == Costs(AllStages(b, cs), q)
    ensures p == q
  {
    forall o ensures SlotOf(p, o) == SlotOf(q, o) {
      AgreeBefore(b, cs, p, q, |SortedOrders(cs)|, o);
    }
    SamePlacementsSamePlan(Listed(cs), p, q);
  }

  /** A cheaper cost vector is a better plan. */
  lemma CheaperBeats(b: Book, cs: seq<Candidate>, p: Plan, q: Plan, i: nat)
    requires Feasible(b, Choosable(cs), p) && Feasible(b, Choosable(cs), q)
    requires CheaperAt(Costs(AllStages(b, cs), p), Costs(AllStages(b, cs), q), i)
    ensures Beats(b, p, q)
  {
    var a, d := Costs(AllStages(b, cs), p), Costs(AllStages(b, cs), q);
    FigureCosts(b, cs, p);
    FigureCosts(b, cs, q);
    forall j | 0 <= j < i ensures a[j] == d[j] {
      assert a[..i][j] == d[..i][j];
    }
    if i >= 3 {
      CheaperIsEarlier(b, cs, p, q, i - 3);
    }
  }

  /** The lexicographic optimum over the stages is the best plan. */
  lemma LexOptimalIsBest(b: Book, cs: seq<Candidate>, p: Plan)
    requires KeysDetermine(Listed(cs))
    requires LexOptimal(Listed(cs), BaseConstraints(b, cs), AllStages(b, cs), p)
    ensures Best(b, Choosable(cs), p)
  {
    ModelMeaning(b, cs, p);
    forall q | Feasible(b, Choosable(cs), q) && q != p ensures Beats(b, p, q) {
      ModelMeaning(b, cs, q);
      var a, d := Costs(AllStages(b, cs), p), Costs(AllStages(b, cs), q);
      assert LexLeq(a, d);
      if a == d {
        SameCostsSamePlan(b, cs, p, q);
      } else {
        var i: nat :| CheaperAt(a, d, i);
        CheaperBeats(b, cs, p, q, i);
      }
    }
  }

  lemma FirstCost(b: Book, cs: seq<Candidate>, stages: seq<Stage>, p: Plan)
    requires p <= Listed(cs) && stages != [] && stages[0] == CountStage(b, cs)
    ensures Costs(stages[..1], p) == [-|p|]
  {
    TotalMeans(b, Count, cs, p);
    CountIsSize(b, p);
  }

  lemma LexLeqOfOne(x: int, y: int)
    requires LexLeq([x], [y])
    ensures x <= y
  {
    if [x] != [y] {
      var i: nat :| CheaperAt([x], [y], i);
    }
  }

  lemma FirstStageBound(b: Book, cs: seq<Candidate>, stages: seq<Stage>, p: Plan, q: Plan)
    requires stages != [] && stages[0] == CountStage(b, cs)
    requires p <= Listed(cs) && q <= Listed(cs)
    requires LexLeq(Costs(stages[..1], p), Costs(stages[..1], q))
    ensures |q| <= |p|
  {
    FirstCost(b, cs, stages, p);
    FirstCost(b, cs, stages, q);
    LexLeqOfOne(-|p|, -|q|);
  }

  /** The first stage alone already settles how many orders are placed. */
  lemma FirstStagePlacesMost(b: Book, cs: seq<Candidate>, stages: seq<Stage>, p: Plan)
    requires stages != [] && stages[0] == CountStage(b, cs)
    requires LexOptimal(Listed(cs), BaseConstraints(b, cs), stages[..1], p)
    ensures MostOrders(b, Choosable(cs), p)
  {
    ModelMeaning(b, cs, p);
    forall q | Feasible(b, Choosable(cs), q) ensures |q| <= |p| {
      ModelMeaning(b, cs, q);
      FirstStageBound(b, cs, stages, p, q);
    }
  }
}
