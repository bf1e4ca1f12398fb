/** Plans as sets of chosen candidates: which are feasible, and when one is better than another.
    The preference between plans is stated on slots and orders directly, without any ranks,
    so that plans drawn from different candidate lists can be compared. */
module Plans {
  import opened Ordering
  import opened Eligibility

  type Plan = set<Candidate>

  /** The figures a plan is weighed with, per order and per wagon. */
  datatype Book = Book(
    weight: map<Id, nat>,
    capacity: map<Id, nat>,
    score: map<Id, int>,
    due: map<Id, int>)

  function At(m: map<Id, int>, k: Id): int {
    if k in m then m[k] else 0
  }

  function Weight(b: Book, order: Id): nat {
    if order in b.weight then b.weight[order] else 0
  }

  function Capacity(b: Book, wagon: Id): nat {
    if wagon in b.capacity then b.capacity[wagon] else 0
  }

  // ---------------------------------------------------------------- totals

  /** What one chosen candidate contributes to a total. */
  datatype Measure = Count | Score | Due | Load(wagon: Id)

  function Value(b: Book, m: Measure, c: Candidate): int {
    match m
    case Count => 1
    case Score => At(b.score, c.order)
    case Due => At(b.due, c.order)
    case Load(wagon) => if c.wagon == wagon then Weight(b, c.order) else 0
  }

  ghost function Sum(b: Book, m: Measure, p: Plan): int {
    if p == {} then 0
    else
      var c :| c in p;
      Value(b, m, c) + Sum(b, m, p - {c})
  }

  lemma {:induction false} SumRemove(b: Book, m: Measure, p: Plan, c: Candidate)
    requires c in p
    ensures Sum(b, m, p) == Value(b, m, c) + Sum(b, m, p - {c})
    decreases |p|
  {
    var d :| d in p && Sum(b, m, p) == Value(b, m, d) + Sum(b, m, p - {d});
    if d != c {
      SumRemove(b, m, p - {d}, c);
      SumRemove(b, m, p - {c}, d);
      assert p - {d} - {c} == p - {c} - {d};
    }
  }

  lemma SumAdd(b: Book, m: Measure, p: Plan, c: Candidate)
    requires c !in p
    ensures Sum(b, m, p + {c}) == Sum(b, m, p) + Value(b, m, c)
  {
    SumRemove(b, m, p + {c}, c);
    assert p + {c} - {c} == p;
  }

  lemma {:induction false} CountIsSize(b: Book, p: Plan)
    ensures Sum(b, Count, p) == |p|
    decreases |p|
  {
    if p != {} {
      var c :| c in p;
      SumRemove(b, Count, p, c);
      CountIsSize(b, p - {c});
    }
  }

  lemma {:induction false} LoadBounds(b: Book, wagon: Id, p: Plan, q: Plan)
    requires p <= q
    ensures 0 <= Sum(b, Load(wagon), p) <= Sum(b, Load(wagon), q)
    decreases |q|
  {
    if q != {} {
      var c :| c in q;
      SumRemove(b, Load(wagon), q, c);
      if c in p {
        SumRemove(b, Load(wagon), p, c);
        LoadBounds(b, wagon, p - {c}, q - {c});
      } else {
        LoadBounds(b, wagon, p, q - {c});
      }
    }
  }

  lemma {:induction false} LoadOfForeignWagon(b: Book, wagon: Id, p: Plan)
    requires forall c :: c in p ==> c.wagon != wagon
    ensures Sum(b, Load(wagon), p) == 0
    decreases |p|
  {
    if p != {} {
      var c :| c in p;
      SumRemove(b, Load(wagon), p, c);
      LoadOfForeignWagon(b, wagon, p - {c});
    }
  }

  // ---------------------------------------------------------------- feasibility

  ghost predicate OneSlotPerOrder(p: Plan) {
    forall c, d :: c in p && d in p && c.order == d.order ==> c == d
  }

  ghost predicate OneOrderPerSlot(p: Plan) {
    forall c, d :: c in p && d in p && c.slot == d.slot ==> c == d
  }

  ghost predicate WithinCapacity(b: Book, p: Plan) {
    forall c :: c in p ==> Sum(b, Load(c.wagon), p) <= Capacity(b, c.wagon)
  }

  ghost predicate Feasible(b: Book, candidates: set<Candidate>, p: Plan) {
    p <= candidates && OneSlotPerOrder(p) && OneOrderPerSlot(p) && WithinCapacity(b, p)
  }

  lemma EmptyPlanFeasible(b: Book, candidates: set<Candidate>)
    ensures Feasible(b, candidates, {})
  {
  }

  lemma SubplanFeasible(b: Book, candidates: set<Candidate>, p: Plan, q: Plan)
    requires Feasible(b, candidates, q) && p <= q
    ensures Feasible(b, candidates, p)
  {
    forall c | c in p ensures Sum(b, Load(c.wagon), p) <= Capacity(b, c.wagon) {
      LoadBounds(b, c.wagon, p, q);
    }
  }

  ghost predicate Holds(p: Plan, order: Id) {
    exists c :: c in p && c.order == order
  }

  ghost predicate Taken(p: Plan, slot: Id) {
    exists c :: c in p && c.slot == slot
  }

  /** The candidate can join the plan: order and slot are free and the wagon has room. */
  ghost predicate CanJoin(b: Book, p: Plan, c: Candidate) {
    && !Holds(p, c.order)
    && !Taken(p, c.slot)
    && Sum(b, Load(c.wagon), p) + Weight(b, c.order) <= Capacity(b, c.wagon)
  }

  lemma JoinFeasible(b: Book, candidates: set<Candidate>, p: Plan, c: Candidate)
    requires Feasible(b, candidates, p) && c in candidates && CanJoin(b, p, c)
    ensures Feasible(b, candidates, p + {c}) && |p + {c}| == |p| + 1
  {
    forall d | d in p + {c} ensures Sum(b, Load(d.wagon), p + {c}) <= Capacity(b, d.wagon) {
      SumAdd(b, Load(d.wagon), p, c);
    }
  }

  // ---------------------------------------------------------------- preference

  /** The slot a plan gives an order. */
  ghost function SlotOf(p: Plan, order: Id): Option<Id> {
    if Holds(p, order) then
      var c :| c in p && c.order == order;
      Some(c.slot)
    else None
  }

  lemma SlotOfMember(p: Plan, c: Candidate)
    requires OneSlotPerOrder(p) && c in p
    ensures SlotOf(p, c.order) == Some(c.slot)
  {
  }

  /** A slot first in text order is preferred, and any slot to none. */
  ghost predicate Sooner(a: Option<Id>, b: Option<Id>) {
    a.Some? && (b.Some? ==> Less(a.value, b.value))
  }

  ghost predicate EarlierAt(p: Plan, q: Plan, order: Id) {
    && Sooner(SlotOf(p, order), SlotOf(q, order))
    && forall o :: Less(o, order) ==> SlotOf(p, o) == SlotOf(q, o)
  }

  /** At the first order they place differently, `p` has the sooner slot. */
  ghost predicate Earlier(p: Plan, q: Plan) {
    exists order :: EarlierAt(p, q, order)
  }

  /** More orders; then more priority; then less due time; then the canonical tie-break. */
  ghost predicate Beats(b: Book, p: Plan, q: Plan) {
    var score, score' := Sum(b, Score, p), Sum(b, Score, q);
    var due, due' := Sum(b, Due, p), Sum(b, Due, q);
    || |p| > |q|
    || (|p| == |q| && score > score')
    || (|p| == |q| && score == score' && due < due')
    || (|p| == |q| && score == score' && due == due' && Earlier(p, q))
  }

  /** Feasible, and preferred to every other feasible plan. */
  ghost predicate Best(b: Book, candidates: set<Candidate>, p: Plan) {
    && Feasible(b, candidates, p)
    && forall q :: Feasible(b, candidates, q) && q != p ==> Beats(b, p, q)
  }

  /** No feasible plan places more orders. */
  ghost predicate MostOrders(b: Book, candidates: set<Candidate>, p: Plan) {
    && Feasible(b, candidates, p)
    && forall q :: Feasible(b, candidates, q) ==> |q| <= |p|
  }

  lemma BestPlacesMost(b: Book, candidates: set<Candidate>, p: Plan)
    requires Best(b, candidates, p)
    ensures MostOrders(b, candidates, p)
  {
  }

  lemma EarlierAsymmetric(p: Plan, q: Plan)
    requires Earlier(p, q)
    ensures !Earlier(q, p)
  {
    var o :| EarlierAt(p, q, o);
    forall o' ensures !EarlierAt(q, p, o') {
      Trichotomy(o, o');
      if o == o' && SlotOf(p, o).Some? && SlotOf(q, o).Some? {
        Trichotomy(SlotOf(p, o).value, SlotOf(q, o).value);
      }
    }
  }

  /** The preference picks one plan: two best plans over the same candidates are equal. */
  lemma BestUnique(b: Book, candidates: set<Candidate>, p: Plan, q: Plan)
    requires Best(b, candidates, p) && Best(b, candidates, q)
    ensures p == q
  {
    if p != q && Earlier(p, q) {
      EarlierAsymmetric(p, q);
    }
  }

  /** In a plan that places most orders, every order left out is blocked at each of its
      candidates: the slot is taken or the wagon has no room for it. */
  lemma LeftOutMeansBlocked(b: Book, candidates: set<Candidate>, p: Plan, c: Candidate)
    requires MostOrders(b, candidates, p)
    requires c in candidates && !Holds(p, c.order)
    ensures Taken(p, c.slot) || Sum(b, Load(c.wagon), p) + Weight(b, c.order) > Capacity(b, c.wagon)
  {
    if CanJoin(b, p, c) {
      JoinFeasible(b, candidates, p, c);
    }
  }
}
