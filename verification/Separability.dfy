/** How best plans change when one order, and only one, is given different candidates. */
module Separability {
  import opened Ordering
  import opened Eligibility
  import opened Plans

  /** Two candidate lists that differ at most in the candidates of `order`. */
  ghost predicate DifferOnlyFor(order: Id, a: set<Candidate>, b: set<Candidate>) {
    forall c: Candidate :: c.order != order ==> (c in a <==> c in b)
  }

  ghost function Without(p: Plan, order: Id): Plan {
    set c | c in p && c.order != order
  }

  /** Order and slot together name the candidate. */
  ghost predicate KeysDetermine(candidates: set<Candidate>) {
    forall c, d :: c in candidates && d in candidates && c.order == d.order && c.slot == d.slot ==> c == d
  }

  /** No candidate of another list shares this one's slot or wagon. */
  ghost predicate Private(c: Candidate, others: set<Candidate>) {
    forall d :: d in others ==> d.slot != c.slot && d.wagon != c.wagon
  }

  lemma WithoutDropsAtMostOne(p: Plan, order: Id)
    requires OneSlotPerOrder(p)
    ensures Without(p, order) <= p
    ensures !Holds(p, order) ==> Without(p, order) == p
    ensures forall c :: c in p && c.order == order ==> p == Without(p, order) + {c}
    ensures |p| - 1 <= |Without(p, order)| <= |p|
  {
    if Holds(p, order) {
      var c :| c in p && c.order == order;
      assert p == Without(p, order) + {c};
    } else {
      assert Without(p, order) == p;
    }
  }

  /** Dropping the order makes a plan of one list feasible for the other. */
  lemma WithoutIsFeasible(b: Book, from: set<Candidate>, to: set<Candidate>, order: Id, p: Plan)
    requires DifferOnlyFor(order, from, to) && Feasible(b, from, p)
    ensures Feasible(b, to, Without(p, order))
  {
    WithoutDropsAtMostOne(p, order);
    SubplanFeasible(b, from, Without(p, order), p);
  }

  /** Changing one order's candidates moves the number of placed orders by at most one. */
  lemma CountsDifferByAtMostOne(b: Book, base: set<Candidate>, derived: set<Candidate>, order: Id, p: Plan, q: Plan)
    requires DifferOnlyFor(order, base, derived)
    requires MostOrders(b, base, p) && MostOrders(b, derived, q)
    ensures |p| - 1 <= |q| <= |p| + 1
  {
    WithoutDropsAtMostOne(p, order);
    WithoutDropsAtMostOne(q, order);
    WithoutIsFeasible(b, base, derived, order, p);
    WithoutIsFeasible(b, derived, base, order, q);
  }

  /** An order with a candidate nobody else can obstruct is placed by every plan that
      places most orders. */
  lemma PrivateCandidateIsPlaced(b: Book, candidates: set<Candidate>, q: Plan, c: Candidate)
    requires MostOrders(b, candidates, q) && c in candidates
    requires Private(c, Without(candidates, c.order))
    requires Weight(b, c.order) <= Capacity(b, c.wagon)
    ensures Holds(q, c.order)
  {
    if !Holds(q, c.order) {
      assert forall d :: d in q ==> d in Without(candidates, c.order);
      LoadOfForeignWagon(b, c.wagon, q);
      JoinFeasible(b, candidates, q, c);
    }
  }

  /** Widening the list changes nothing if the new best plan uses only old candidates. */
  lemma UnusedWideningKeepsPlan(b: Book, base: set<Candidate>, derived: set<Candidate>, p: Plan, q: Plan)
    requires base <= derived && q <= base
    requires Best(b, base, p) && Best(b, derived, q)
    ensures p == q
  {
    assert Feasible(b, base, q) && Feasible(b, derived, p);
    if p != q && Earlier(p, q) {
      EarlierAsymmetric(p, q);
    }
  }

  // ---------------------------------------------------------------- isolation

  lemma SlotOfOthers(p: Plan, c: Candidate, order: Id)
    requires order != c.order && OneSlotPerOrder(p) && !Holds(p, c.order)
    ensures SlotOf(p + {c}, order) == SlotOf(p, order)
  {
    if Holds(p, order) {
      var d :| d in p && d.order == order;
      assert d in p + {c};
      SlotOfMember(p, d);
    }
  }

  lemma SlotOfJoined(p: Plan, c: Candidate)
    requires OneSlotPerOrder(p) && !Holds(p, c.order)
    ensures SlotOf(p + {c}, c.order) == Some(c.slot)
  {
    SlotOfMember(p + {c}, c);
  }

  /** Adding the same order to two plans, on a slot at least as soon in the first, keeps an
      advantage in the canonical tie-break. */
  lemma JoinKeepsEarlier(p: Plan, q: Plan, c: Candidate, d: Candidate)
    requires OneSlotPerOrder(p) && OneSlotPerOrder(q)
    requires c.order == d.order && !Holds(p, c.order) && !Holds(q, c.order)
    requires Leq(c.slot, d.slot)
    requires Earlier(p, q) || (p == q && c.slot != d.slot)
    ensures Earlier(p + {c}, q + {d})
  {
    SlotOfJoined(p, c);
    SlotOfJoined(q, d);
    forall o | o != c.order
      ensures SlotOf(p + {c}, o) == SlotOf(p, o) && SlotOf(q + {d}, o) == SlotOf(q, o)
    {
      SlotOfOthers(p, c, o);
      SlotOfOthers(q, d, o);
    }
    if p == q {
      assert EarlierAt(p + {c}, q + {d}, c.order);
    } else {
      var o :| EarlierAt(p, q, o);
      Trichotomy(o, c.order);
      if Less(c.order, o) && c.slot != d.slot {
        forall o' | Less(o', c.order) ensures SlotOf(p, o') == SlotOf(q, o') {
          LessTransitive(o', c.order, o);
        }
        assert EarlierAt(p + {c}, q + {d}, c.order);
      } else {
        assert EarlierAt(p + {c}, q + {d}, o);
      }
    }
  }

  lemma JoinKeepsLead(b: Book, p: Plan, q: Plan, c: Candidate, d: Candidate)
    requires OneSlotPerOrder(p) && OneSlotPerOrder(q)
    requires c.order == d.order && !Holds(p, c.order) && !Holds(q, c.order)
    requires Leq(c.slot, d.slot)
    requires (p != q && Beats(b, p, q)) || (p == q && c.slot != d.slot)
    ensures Beats(b, p + {c}, q + {d})
  {
    SumAdd(b, Score, p, c);
    SumAdd(b, Score, q, d);
    SumAdd(b, Due, p, c);
    SumAdd(b, Due, q, d);
    if p == q || Earlier(p, q) {
      JoinKeepsEarlier(p, q, c, d);
    }
  }

  /** The situation of an alternative that opens private capacity to one order: only its
      candidates differ, and the ones it gains are out of everyone else's way. */
  ghost predicate OpensPrivately(b: Book, base: set<Candidate>, derived: set<Candidate>, order: Id) {
    && DifferOnlyFor(order, base, derived) && KeysDetermine(derived)
    && (forall c :: c in derived && c !in base ==>
          Private(c, Without(base, order)) && Weight(b, order) <= Capacity(b, c.wagon))
  }

  /** The order's candidate in the first slot. */
  ghost predicate FirstFor(order: Id, candidates: set<Candidate>, c: Candidate) {
    && c in candidates && c.order == order
    && forall d :: d in candidates && d.order == order ==> Leq(c.slot, d.slot)
  }

  lemma NoneIsOthers(base: set<Candidate>, p: Plan, order: Id)
    requires p <= base && !Holds(p, order)
    ensures p <= Without(base, order)
  {
  }

  lemma JoinedPlanFeasible(b: Book, base: set<Candidate>, derived: set<Candidate>, p: Plan, c: Candidate)
    requires OpensPrivately(b, base, derived, c.order) && c in derived - base
    requires Feasible(b, base, p) && !Holds(p, c.order)
    ensures Feasible(b, derived, p + {c}) && |p + {c}| == |p| + 1
  {
    NoneIsOthers(base, p, c.order);
    LoadOfForeignWagon(b, c.wagon, p);
    JoinFeasible(b, derived, p, c);
  }

  /** A plan that uses only old candidates is a plan of the old list. */
  lemma OldPlanFeasible(b: Book, base: set<Candidate>, derived: set<Candidate>, q: Plan)
    requires Feasible(b, derived, q) && q <= base
    ensures Feasible(b, base, q)
  {
  }

  /** When the best base plan leaves the order out, the best derived plan is that plan with the
      order added in the first slot it gained. */
  lemma IsolatedPlanIsBest(b: Book, base: set<Candidate>, derived: set<Candidate>, p: Plan, first: Candidate)
    requires OpensPrivately(b, base, derived, first.order)
    requires Best(b, base, p) && !Holds(p, first.order) && FirstFor(first.order, derived - base, first)
    ensures Best(b, derived, p + {first})
  {
    JoinedPlanFeasible(b, base, derived, p, first);
    forall q | Feasible(b, derived, q) && q != p + {first} ensures Beats(b, p + {first}, q) {
      IsolatedPlanBeats(b, base, derived, p, first, q);
    }
  }

  lemma LeadWithOrder(b: Book, base: set<Candidate>, p: Plan, q: Plan, first: Candidate, d: Candidate)
    requires Best(b, base, p) && !Holds(p, first.order)
    requires OneSlotPerOrder(q) && d in q && d.order == first.order && Leq(first.slot, d.slot)
    requires Feasible(b, base, Without(q, first.order)) && q != p + {first}
    requires first.slot == d.slot ==> first == d
    ensures Beats(b, p + {first}, q)
  {
    var rest := Without(q, first.order);
    WithoutDropsAtMostOne(q, first.order);
    assert !Holds(rest, first.order);
    JoinKeepsLead(b, p, rest, first, d);
  }

  lemma LeadWithoutGain(b: Book, base: set<Candidate>, derived: set<Candidate>, p: Plan, first: Candidate, q: Plan)
    requires DifferOnlyFor(first.order, base, derived) && Best(b, base, p) && !Holds(p, first.order)
    requires Feasible(b, derived, q) && forall d :: d in q && d.order == first.order ==> d in base
    ensures Beats(b, p + {first}, q)
  {
    OldPlanFeasible(b, base, derived, q);
    BestPlacesMost(b, base, p);
    assert first !in p;
  }

  lemma IsolatedPlanBeats(b: Book, base: set<Candidate>, derived: set<Candidate>, p: Plan, first: Candidate, q: Plan)
    requires OpensPrivately(b, base, derived, first.order)
    requires Best(b, base, p) && !Holds(p, first.order) && FirstFor(first.order, derived - base, first)
    requires Feasible(b, derived, q) && q != p + {first}
    ensures Beats(b, p + {first}, q)
  {
    if exists d :: d in q && d.order == first.order && d !in base {
      var d :| d in q && d.order == first.order && d !in base;
      WithoutIsFeasible(b, derived, base, first.order, q);
      assert d in derived - base;
      LeadWithOrder(b, base, p, q, first, d);
    } else {
      LeadWithoutGain(b, base, derived, p, first, q);
    }
  }

  lemma OldPlanBest(b: Book, base: set<Candidate>, derived: set<Candidate>, order: Id, p: Plan, q: Plan)
    requires OpensPrivately(b, base, derived, order) && derived <= base
    requires Best(b, base, p) && Best(b, derived, q) && !Holds(p, order)
    ensures p == q
  {
    assert Feasible(b, derived, p) && Feasible(b, base, q);
    if p != q && Earlier(p, q) {
      EarlierAsymmetric(p, q);
    }
  }

  /** Impact isolation: an order the base plan left out joins in the first slot it gained, if it
      gained any, and nobody else moves. */
  lemma ImpactIsolation(b: Book, base: set<Candidate>, derived: set<Candidate>, order: Id, p: Plan, q: Plan)
    requires OpensPrivately(b, base, derived, order)
    requires Best(b, base, p) && Best(b, derived, q) && !Holds(p, order)
    ensures Without(q, order) == p
    ensures forall c :: c in q && c.order == order ==> FirstFor(order, derived - base, c)
    ensures Holds(q, order) <==> exists c :: c in derived && c !in base
  {
    WithoutDropsAtMostOne(p, order);
    if exists c :: c in derived && c !in base {
      var c :| c in derived && c !in base;
      assert c in derived - base && c.order == order;
      var first := FirstExists(derived - base, order);
      IsolatedPlanIsBest(b, base, derived, p, first);
      BestUnique(b, derived, q, p + {first});
      assert first in q;
      assert Without(p + {first}, order) == p;
    } else {
      OldPlanBest(b, base, derived, order, p, q);
    }
  }

  lemma {:induction false} FirstExists(candidates: set<Candidate>, order: Id) returns (first: Candidate)
    requires exists c :: c in candidates && c.order == order
    ensures FirstFor(order, candidates, first)
    decreases |candidates|
  {
    var c :| c in candidates && c.order == order;
    LeqReflexive(c.slot);
    if exists d :: d in candidates - {c} && d.order == order {
      var d := FirstExists(candidates - {c}, order);
      LeqTotal(c.slot, d.slot);
      if Leq(c.slot, d.slot) {
        first := c;
        forall e | e in candidates && e.order == order ensures Leq(c.slot, e.slot) {
          if e != c {
            LeqTransitive(c.slot, d.slot, e.slot);
          }
        }
      } else {
        first := d;
      }
    } else {
      first := c;
    }
  }
}
