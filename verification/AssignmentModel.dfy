/** The linear model built from a candidate list, and what its constraints and objectives mean
    for plans. A candidate listed twice enters every sum twice, which makes `2x <= 1` of its
    order's constraint: only candidates listed exactly once can be chosen. */
module AssignmentModel {
  import opened Ordering
  import opened Snapshots
  import opened Eligibility
  import opened Plans
  import opened CpSat

  // ---------------------------------------------------------------- figures of a snapshot

  const MICROSECONDS_PER_SECOND := 1_000_000

  /** `int(x)` of a quotient: towards zero. */
  function TruncatedSeconds(microseconds: int): int {
    if microseconds >= 0 then microseconds / MICROSECONDS_PER_SECOND
    else -((-microseconds) / MICROSECONDS_PER_SECOND)
  }

  function OrderWeight(o: Order): nat {
    if o.grossWeight.Some? then o.grossWeight.value else 0
  }

  function PriorityScore(scores: PriorityScores, p: PriorityClass): int {
    match p
    case P1 => scores.p1
    case P2 => scores.p2
    case P3 => scores.p3
  }

  function Weights(orders: map<Id, Order>): map<Id, nat> {
    map o | o in orders :: OrderWeight(orders[o])
  }

  function Limits(wagons: map<Id, Wagon>): map<Id, nat> {
    map w | w in wagons :: wagons[w].maxTotalWeight
  }

  function Scores(scores: PriorityScores, orders: map<Id, Order>): map<Id, int> {
    map o | o in orders :: PriorityScore(scores, orders[o].priority)
  }

  /** Whole seconds from the planning instant to each due time. */
  function DueSeconds(asOf: int, orders: map<Id, Order>): map<Id, int> {
    map o | o in orders :: TruncatedSeconds(orders[o].dueAt - asOf)
  }

  function BookOf(s: Snapshot): Book {
    var orders, wagons := ById(s.orders, OrderId), ById(s.wagons, WagonId);
    Book(Weights(orders), Limits(wagons), Scores(s.policy.scores, orders), DueSeconds(s.asOf, orders))
  }

  // ---------------------------------------------------------------- constraints

  function Terms(b: Book, m: Measure, cs: seq<Candidate>): (r: seq<Term>)
    ensures |r| == |cs|
  {
    if cs == [] then []
    else
      var last := cs[|cs| - 1];
      Terms(b, m, cs[..|cs| - 1]) + [Term(last, Value(b, m, last))]
  }

  function Total(b: Book, m: Measure, cs: seq<Candidate>): Linear {
    Linear(Terms(b, m, cs), 0)
  }

  function AtMostOne(b: Book, key: Candidate -> Id, cs: seq<Candidate>, k: Id): Constraint {
    AtMost(Total(b, Count, Filter(cs, key, k)), 1)
  }

  function WagonLimit(b: Book, cs: seq<Candidate>, wagon: Id): Constraint {
    AtMost(Total(b, Load(wagon), Filter(cs, CandidateWagon, wagon)), Capacity(b, wagon))
  }

  function AtMostOnes(b: Book, key: Candidate -> Id, cs: seq<Candidate>, keys: seq<Id>): seq<Constraint> {
    if keys == [] then []
    else AtMostOnes(b, key, cs, keys[..|keys| - 1]) + [AtMostOne(b, key, cs, keys[|keys| - 1])]
  }

  function WagonLimits(b: Book, cs: seq<Candidate>, keys: seq<Id>): seq<Constraint> {
    if keys == [] then []
    else WagonLimits(b, cs, keys[..|keys| - 1]) + [WagonLimit(b, cs, keys[|keys| - 1])]
  }

  function KeysOf(cs: seq<Candidate>, key: Candidate -> Id): seq<Id> {
    Dedup(MapSeq(cs, key))
  }

  function BaseConstraints(b: Book, cs: seq<Candidate>): seq<Constraint> {
    AtMostOnes(b, CandidateOrder, cs, KeysOf(cs, CandidateOrder))
    + AtMostOnes(b, CandidateSlot, cs, KeysOf(cs, CandidateSlot))
    + WagonLimits(b, cs, KeysOf(cs, CandidateWagon))
  }

  function Listed(cs: seq<Candidate>): set<Candidate> {
    set c | c in cs
  }

  /** The candidates that are listed exactly once. */
  ghost function Choosable(cs: seq<Candidate>): set<Candidate> {
    set c | c in cs && multiset(cs)[c] == 1
  }

  ghost predicate ListedOnce(cs: seq<Candidate>, p: Plan) {
    forall c :: c in p ==> multiset(cs)[c] == 1
  }

  // ---------------------------------------------------------------- sums

  ghost function Part(p: Plan, cs: seq<Candidate>): Plan {
    set c | c in p && c in cs
  }

  /** Over candidates listed at most once, the linear sum is the plan's total. */
  lemma {:induction false} TermsTotal(b: Book, m: Measure, cs: seq<Candidate>, p: Plan)
    requires forall c :: c in p ==> multiset(cs)[c] <= 1
    ensures SumTerms(Terms(b, m, cs), p) == Sum(b, m, Part(p, cs))
    decreases |cs|
  {
    if cs == [] {
      assert Part(p, cs) == {};
    } else {
      var front, last := cs[..|cs| - 1], cs[|cs| - 1];
      assert cs == front + [last];
      assert Terms(b, m, cs)[..|cs| - 1] == Terms(b, m, front);
      forall c | c in p ensures multiset(front)[c] <= 1 {
        assert multiset(cs)[c] >= multiset(front)[c];
      }
      TermsTotal(b, m, front, p);
      if last in p {
        assert multiset(front)[last] == 0;
        assert last !in multiset(front) && last !in front;
        assert Part(p, cs) == Part(p, front) + {last};
        SumAdd(b, m, Part(p, front), last);
      } else {
        assert Part(p, cs) == Part(p, front);
      }
    }
  }

  /** The 0/1 sum counts every listing of the chosen candidates. */
  lemma {:induction false} CountAtLeast(b: Book, cs: seq<Candidate>, p: Plan, c: Candidate, d: Candidate)
    requires c in p && d in p
    ensures SumTerms(Terms(b, Count, cs), p) >= multiset(cs)[c] + (if c == d then 0 else multiset(cs)[d])
    decreases |cs|
  {
    if cs != [] {
      var front, last := cs[..|cs| - 1], cs[|cs| - 1];
      assert cs == front + [last];
      assert Terms(b, Count, cs)[..|cs| - 1] == Terms(b, Count, front);
      CountAtLeast(b, front, p, c, d);
    }
  }

  lemma {:induction false} FilterCount(cs: seq<Candidate>, key: Candidate -> Id, c: Candidate)
    ensures multiset(Filter(cs, key, key(c)))[c] == multiset(cs)[c]
    decreases |cs|
  {
    if cs != [] {
      assert cs == cs[..|cs| - 1] + [cs[|cs| - 1]];
      FilterCount(cs[..|cs| - 1], key, c);
    }
  }

  lemma {:induction false} FilterCountAtMost(cs: seq<Candidate>, key: Candidate -> Id, k: Id, c: Candidate)
    ensures multiset(Filter(cs, key, k))[c] <= multiset(cs)[c]
    decreases |cs|
  {
    if cs != [] {
      assert cs == cs[..|cs| - 1] + [cs[|cs| - 1]];
      FilterCountAtMost(cs[..|cs| - 1], key, k, c);
    }
  }

  // ---------------------------------------------------------------- what the constraints mean

  ghost predicate Meets(p: Point, constraints: seq<Constraint>) {
    forall c :: c in constraints ==> Satisfies(p, c)
  }

  lemma MeetsAll(p: Point, x: seq<Constraint>, y: seq<Constraint>, z: seq<Constraint>)
    ensures Meets(p, x + y + z) <==> Meets(p, x) && Meets(p, y) && Meets(p, z)
  {
    assert forall c :: c in x + y + z <==> c in x || c in y || c in z;
  }

  ghost predicate Separates(key: Candidate -> Id, p: Plan) {
    forall c, d :: c in p && d in p && key(c) == key(d) ==> c == d
  }

  lemma SingletonSize(p: Plan)
    requires forall c, d :: c in p && d in p ==> c == d
    ensures |p| <= 1
  {
    if p != {} {
      var c :| c in p;
      assert p == {c};
    }
  }

  /** All the at-most-one constraints over a key hold exactly when no chosen candidate is
      listed twice and no two chosen candidates share the key. */
  lemma AtMostOneMeans(b: Book, key: Candidate -> Id, cs: seq<Candidate>, p: Plan)
    requires forall c :: c in p ==> c in cs
    ensures (forall k :: k in MapSeq(cs, key) ==> Satisfies(p, AtMostOne(b, key, cs, k)))
       <==> ListedOnce(cs, p) && Separates(key, p)
  {
    if forall k :: k in MapSeq(cs, key) ==> Satisfies(p, AtMostOne(b, key, cs, k)) {
      forall c, d | c in p && d in p && key(c) == key(d) ensures multiset(cs)[c] == 1 && c == d {
        var i :| 0 <= i < |cs| && cs[i] == c;
        assert MapSeq(cs, key)[i] == key(c);
        assert Satisfies(p, AtMostOne(b, key, cs, key(c)));
        FilterCount(cs, key, c);
        FilterCount(cs, key, d);
        CountAtLeast(b, Filter(cs, key, key(c)), p, c, d);
        assert c in multiset(cs) && d in multiset(cs);
      }
    }
    if ListedOnce(cs, p) && Separates(key, p) {
      forall k ensures Satisfies(p, AtMostOne(b, key, cs, k)) {
        var group := Filter(cs, key, k);
        forall c | c in p ensures multiset(group)[c] <= 1 {
          FilterCountAtMost(cs, key, k, c);
        }
        TermsTotal(b, Count, group, p);
        CountIsSize(b, Part(p, group));
        FilterMembers(cs, key, k);
        SingletonSize(Part(p, group));
      }
    }
  }

  lemma {:induction false} LoadOnWagonOnly(b: Book, wagon: Id, p: Plan)
    ensures Sum(b, Load(wagon), p) == Sum(b, Load(wagon), set c | c in p && c.wagon == wagon)
    decreases |p|
  {
    var on := set c | c in p && c.wagon == wagon;
    if on != p {
      var c :| c in p && c !in on;
      SumRemove(b, Load(wagon), p, c);
      LoadOnWagonOnly(b, wagon, p - {c});
      assert (set d | d in p - {c} && d.wagon == wagon) == on;
    }
  }

  /** Given distinct listings, a wagon's constraint bounds its load. */
  lemma WagonLimitMeans(b: Book, cs: seq<Candidate>, p: Plan, wagon: Id)
    requires (forall c :: c in p ==> c in cs) && ListedOnce(cs, p)
    ensures Satisfies(p, WagonLimit(b, cs, wagon)) <==> Sum(b, Load(wagon), p) <= Capacity(b, wagon)
  {
    var group := Filter(cs, CandidateWagon, wagon);
    forall c | c in p ensures multiset(group)[c] <= 1 {
      FilterCountAtMost(cs, CandidateWagon, wagon, c);
    }
    TermsTotal(b, Load(wagon), group, p);
    FilterMembers(cs, CandidateWagon, wagon);
    assert Part(p, group) == set c | c in p && c.wagon == wagon;
    LoadOnWagonOnly(b, wagon, p);
  }

  lemma {:induction false} AtMostOnesMembers(b: Book, key: Candidate -> Id, cs: seq<Candidate>, keys: seq<Id>, p: Point)
    ensures Meets(p, AtMostOnes(b, key, cs, keys))
       <==> (forall k :: k in keys ==> Satisfies(p, AtMostOne(b, key, cs, k)))
    decreases |keys|
  {
    if keys != [] {
      assert keys == keys[..|keys| - 1] + [keys[|keys| - 1]];
      AtMostOnesMembers(b, key, cs, keys[..|keys| - 1], p);
      assert AtMostOne(b, key, cs, keys[|keys| - 1]) in AtMostOnes(b, key, cs, keys);
      assert forall x :: x in AtMostOnes(b, key, cs, keys[..|keys| - 1]) ==> x in AtMostOnes(b, key, cs, keys);
    }
  }

  lemma {:induction false} WagonLimitsMembers(b: Book, cs: seq<Candidate>, keys: seq<Id>, p: Point)
    ensures Meets(p, WagonLimits(b, cs, keys))
       <==> (forall k :: k in keys ==> Satisfies(p, WagonLimit(b, cs, k)))
    decreases |keys|
  {
    if keys != [] {
      assert keys == keys[..|keys| - 1] + [keys[|keys| - 1]];
      WagonLimitsMembers(b, cs, keys[..|keys| - 1], p);
      assert WagonLimit(b, cs, keys[|keys| - 1]) in WagonLimits(b, cs, keys);
      assert forall x :: x in WagonLimits(b, cs, keys[..|keys| - 1]) ==> x in WagonLimits(b, cs, keys);
    }
  }

  lemma KeysCover(cs: seq<Candidate>, key: Candidate -> Id)
    ensures forall k :: k in KeysOf(cs, key) <==> k in MapSeq(cs, key)
    ensures forall c :: c in cs ==> key(c) in KeysOf(cs, key)
  {
    forall c | c in cs ensures key(c) in MapSeq(cs, key) {
      var i :| 0 <= i < |cs| && cs[i] == c;
      assert MapSeq(cs, key)[i] == key(c);
    }
  }

  lemma CapacityMeans(b: Book, cs: seq<Candidate>, p: Plan)
    requires (forall c :: c in p ==> c in cs) && ListedOnce(cs, p)
    ensures (forall w :: w in KeysOf(cs, CandidateWagon) ==> Satisfies(p, WagonLimit(b, cs, w)))
       <==> WithinCapacity(b, p)
  {
    KeysCover(cs, CandidateWagon);
    forall w ensures Satisfies(p, WagonLimit(b, cs, w)) <==> Sum(b, Load(w), p) <= Capacity(b, w) {
      WagonLimitMeans(b, cs, p, w);
    }
    forall w | forall c :: c in p ==> c.wagon != w ensures Sum(b, Load(w), p) == 0 {
      LoadOfForeignWagon(b, w, p);
    }
    if forall w :: w in KeysOf(cs, CandidateWagon) ==> Satisfies(p, WagonLimit(b, cs, w)) {
      forall c | c in p ensures Sum(b, Load(c.wagon), p) <= Capacity(b, c.wagon) {
        assert CandidateWagon(c) in KeysOf(cs, CandidateWagon);
      }
    }
  }

  lemma GroupsMean(b: Book, key: Candidate -> Id, cs: seq<Candidate>, p: Plan)
    requires forall c :: c in p ==> c in cs
    ensures Meets(p, AtMostOnes(b, key, cs, KeysOf(cs, key))) <==> ListedOnce(cs, p) && Separates(key, p)
  {
    AtMostOnesMembers(b, key, cs, KeysOf(cs, key), p);
    KeysCover(cs, key);
    AtMostOneMeans(b, key, cs, p);
  }

  lemma WagonsMean(b: Book, cs: seq<Candidate>, p: Plan)
    requires (forall c :: c in p ==> c in cs) && ListedOnce(cs, p)
    ensures Meets(p, WagonLimits(b, cs, KeysOf(cs, CandidateWagon))) <==> WithinCapacity(b, p)
  {
    WagonLimitsMembers(b, cs, KeysOf(cs, CandidateWagon), p);
    CapacityMeans(b, cs, p);
  }

  /** The points the model admits are exactly the feasible plans over the choosable candidates. */
  lemma ModelMeaning(b: Book, cs: seq<Candidate>, p: Plan)
    ensures Admits(Listed(cs), BaseConstraints(b, cs), p) <==> Feasible(b, Choosable(cs), p)
  {
    var x := AtMostOnes(b, CandidateOrder, cs, KeysOf(cs, CandidateOrder));
    var y := AtMostOnes(b, CandidateSlot, cs, KeysOf(cs, CandidateSlot));
    var z := WagonLimits(b, cs, KeysOf(cs, CandidateWagon));
    MeetsAll(p, x, y, z);
    assert Admits(Listed(cs), BaseConstraints(b, cs), p) <==>
             p <= Listed(cs) && Meets(p, x) && Meets(p, y) && Meets(p, z);
    if p <= Listed(cs) {
      GroupsMean(b, CandidateOrder, cs, p);
      GroupsMean(b, CandidateSlot, cs, p);
      assert Separates(CandidateOrder, p) <==> OneSlotPerOrder(p);
      assert Separates(CandidateSlot, p) <==> OneOrderPerSlot(p);
      if ListedOnce(cs, p) {
        WagonsMean(b, cs, p);
      }
    }
  }
}
