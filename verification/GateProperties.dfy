/** What the gate's loops amount to, stated on the snapshot alone. */
module GateProperties {
  import opened Ordering
  import opened ReasonCodes
  import opened Snapshots
  import opened Eligibility

  // ---------------------------------------------------------------- resolved references

  lemma KnownInTable<T>(id: Id, records: seq<T>, key: T -> Id)
    ensures Known(id, records, key) <==> id in ById(records, key)
  {
    var ids := MapSeq(records, key);
    if id in ids {
      var i :| 0 <= i < |ids| && ids[i] == id;
      assert records[i] in records;
    }
    if id in ById(records, key) {
      var t := ById(records, key)[id];
      var i :| 0 <= i < |records| && records[i] == t;
      assert ids[i] == id;
    }
  }

  lemma WellFormedWagons(s: Snapshot)
    requires WellFormed(s)
    ensures WagonsKnown(s)
  {
    forall i | 0 <= i < |s.slots| ensures s.slots[i].wagon in ById(s.wagons, WagonId) {
      assert s.slots[i] in s.slots;
      KnownInTable(s.slots[i].wagon, s.wagons, WagonId);
    }
  }

  /** Slot identifier to slot and wagon. */
  function BerthTable(s: Snapshot): map<Id, Berth>
    requires WagonsKnown(s)
  {
    ById(Berths(s), BerthSlot)
  }

  lemma BerthsDistinct(s: Snapshot)
    requires WagonsKnown(s) && DistinctKeys(s.slots, SlotId)
    ensures DistinctKeys(Berths(s), BerthSlot)
    ensures forall b :: b in Berths(s) ==> b.slot.id in BerthTable(s) && BerthTable(s)[b.slot.id] == b
  {
    forall i, j | 0 <= i < j < |s.slots| ensures BerthSlot(Berths(s)[i]) != BerthSlot(Berths(s)[j]) {
      assert SlotId(s.slots[i]) != SlotId(s.slots[j]);
    }
  }

  lemma {:induction false} FilterDistinct<T(!new)>(s: seq<T>, key: T -> Id, k: Id, id: T -> Id)
    requires DistinctKeys(s, id)
    ensures DistinctKeys(Filter(s, key, k), id)
    decreases |s|
  {
    if s != [] {
      var front, last := s[..|s| - 1], s[|s| - 1];
      FilterDistinct(front, key, k, id);
      FilterMembers(front, key, k);
      var r := Filter(front, key, k);
      forall i | 0 <= i < |r| ensures id(r[i]) != id(last) {
        assert r[i] in r;
        var j :| 0 <= j < |front| && front[j] == r[i];
        assert id(s[j]) != id(s[|s| - 1]);
      }
    }
  }

  lemma BerthsOnService(s: Snapshot, service: Id)
    requires WagonsKnown(s) && DistinctKeys(s.slots, SlotId)
    ensures BerthsOn(IndexOf(s), service) == Filter(Berths(s), BerthService, service)
    ensures DistinctKeys(BerthsOn(IndexOf(s), service), BerthSlot)
    ensures forall b :: b in BerthsOn(IndexOf(s), service) <==> b in Berths(s) && b.wagon.service == service
  {
    BerthsDistinct(s);
    FilterMembers(Berths(s), BerthService, service);
    FilterDistinct(Berths(s), BerthService, service, BerthSlot);
    if service !in MapSeq(Berths(s), BerthService) {
      FilterEmpty(Berths(s), BerthService, service);
    }
  }

  // ---------------------------------------------------------------- candidates

  /** A candidate the order could hold: its slot exists, it is wired to that wagon and
      service, and neither the service nor the slot violates anything. */
  predicate Fits(s: Snapshot, o: Order, c: Candidate)
    requires WagonsKnown(s)
  {
    && c.slot in BerthTable(s)
    && c == CandidateFor(o, BerthTable(s)[c.slot].wagon.service, BerthTable(s)[c.slot])
    && ServiceOpen(IndexOf(s), o, c.service)
    && SlotOpen(o, BerthTable(s)[c.slot])
  }

  lemma {:induction false} OpenBerthsMembers(o: Order, service: Id, berths: seq<Berth>)
    ensures forall c :: c in OpenBerths(o, service, berths) <==>
                          exists b :: b in berths && SlotOpen(o, b) && c == CandidateFor(o, service, b)
    decreases |berths|
  {
    if berths != [] {
      var front, last := berths[..|berths| - 1], berths[|berths| - 1];
      OpenBerthsMembers(o, service, front);
      assert berths == front + [last];
      forall c ensures c in OpenBerths(o, service, berths) <==>
                       exists b :: b in berths && SlotOpen(o, b) && c == CandidateFor(o, service, b)
      {
        if c in OpenBerths(o, service, front) {
          var b :| b in front && SlotOpen(o, b) && c == CandidateFor(o, service, b);
          assert b in berths;
        }
      }
    }
  }

  lemma {:induction false} OpenBerthsDistinct(o: Order, service: Id, berths: seq<Berth>)
    requires DistinctKeys(berths, BerthSlot)
    ensures DistinctKeys(OpenBerths(o, service, berths), CandidateSlot)
    decreases |berths|
  {
    if berths != [] {
      var front, last := berths[..|berths| - 1], berths[|berths| - 1];
      OpenBerthsDistinct(o, service, front);
      OpenBerthsMembers(o, service, front);
      var r := OpenBerths(o, service, front);
      forall i | 0 <= i < |r| ensures CandidateSlot(r[i]) != last.slot.id {
        assert r[i] in r;
        var b :| b in front && r[i] == CandidateFor(o, service, b);
        var j :| 0 <= j < |front| && front[j] == b;
        assert BerthSlot(berths[j]) != BerthSlot(berths[|berths| - 1]);
      }
    }
  }

  lemma CandidatesOnCount(s: Snapshot, o: Order, service: Id, c: Candidate)
    requires WagonsKnown(s) && DistinctKeys(s.slots, SlotId)
    ensures multiset(CandidatesOn(IndexOf(s), o, service))[c]
         == if service == c.service && Fits(s, o, c) then 1 else 0
  {
    var ix := IndexOf(s);
    var berths := SortedBerthsOn(ix, service);
    var found := OpenBerths(o, service, berths);
    BerthsDistinct(s);
    BerthsOnService(s, service);
    SameMultisetSameMembers(berths, BerthsOn(ix, service));
    KeysStayDistinct(BerthsOn(ix, service), berths, BerthSlot);
    OpenBerthsMembers(o, service, berths);
    OpenBerthsDistinct(o, service, berths);
    OnceOnly(found, CandidateSlot, c);
    assert c in found <==> c in multiset(found);
    if service == c.service && Fits(s, o, c) {
      var b := BerthTable(s)[c.slot];
      assert b in berths;
    }
    if c in found {
      var b :| b in berths && SlotOpen(o, b) && c == CandidateFor(o, service, b);
      assert BerthTable(s)[c.slot] == b;
    }
  }

  /** A fitting candidate is listed once for each time its service is listed; nothing else is. */
  lemma {:induction false} CandidateCount(s: Snapshot, o: Order, services: seq<Id>, c: Candidate)
    requires WagonsKnown(s) && DistinctKeys(s.slots, SlotId)
    ensures multiset(CandidatesOver(IndexOf(s), o, services))[c]
         == if Fits(s, o, c) then multiset(services)[c.service] else 0
    decreases |services|
  {
    if services != [] {
      var front, last := services[..|services| - 1], services[|services| - 1];
      assert services == front + [last];
      CandidateCount(s, o, front, c);
      CandidatesOnCount(s, o, last, c);
    }
  }

  lemma MemberIffCounted<T>(t: T, s: seq<T>)
    ensures t in s <==> multiset(s)[t] > 0
  {
    assert t in s <==> t in multiset(s);
  }

  lemma CandidateMembers(s: Snapshot, o: Order, services: seq<Id>, c: Candidate)
    requires WagonsKnown(s) && DistinctKeys(s.slots, SlotId)
    ensures c in CandidatesOver(IndexOf(s), o, services) <==> c.service in services && Fits(s, o, c)
  {
    CandidateCount(s, o, services, c);
    MemberIffCounted(c, CandidatesOver(IndexOf(s), o, services));
    MemberIffCounted(c.service, services);
  }

  /** An order held at input carries exactly its input faults and no candidate. */
  lemma HeldOrders(ix: Index, o: Order, services: seq<Id>)
    ensures var e := EvaluationOf(ix, o, services);
            && (e.inputState == Valid <==> o.grossWeight.Some? && o.readyAt < o.dueAt)
            && (e.eligibilityState == NotEvaluated <==> e.inputState == ReviewRequired)
            && (e.inputState == ReviewRequired ==>
                  e.candidates == [] && forall c :: c in e.reasonCodes <==>
                    (c == MissingRequiredField && o.grossWeight.None?)
                    || (c == InvalidTimeRange && o.readyAt >= o.dueAt))
            && e.order == o.id
            && e.missingFields == (if o.grossWeight.None? then ["gross_weight_kg"] else [])
  {
  }

  /** The candidates of a valid order are exactly the fitting slots of listed services. */
  lemma CandidatesOfOrder(s: Snapshot, o: Order, services: seq<Id>, c: Candidate)
    requires WellFormed(s) && InputValid(o)
    ensures WagonsKnown(s)
    ensures var e := EvaluationOf(IndexOf(s), o, services);
            && (c in e.candidates <==> c.service in services && Fits(s, o, c))
            && (c in e.candidates ==> multiset(e.candidates)[c] == multiset(services)[c.service])
            && (e.eligibilityState == Eligible <==> e.candidates != [])
  {
    WellFormedWagons(s);
    CandidateMembers(s, o, services, c);
    CandidateCount(s, o, services, c);
  }

  /** The codes of an ineligible order: what its services report, and for a service that
      passed, what that service's slots report; NO_ELIGIBLE_SLOT stands alone when there is nothing. */
  lemma CodesOfOrder(ix: Index, o: Order, services: seq<Id>, c: Code)
    requires InputValid(o)
    ensures var e := EvaluationOf(ix, o, services);
            && (e.eligibilityState == Eligible ==> e.reasonCodes == [])
            && (e.eligibilityState == Ineligible ==>
                  (c in e.reasonCodes <==> Refuses(ix, o, services, c)
                                           || (c == NoEligibleSlot && forall d :: !Refuses(ix, o, services, d))))
  {
    var refusals := Refusals(ix, o, services);
    assert forall d :: d in refusals <==> Refuses(ix, o, services, d);
  }

  /** Verdicts and codes depend on which services are listed, not on order or repeats. */
  lemma ServiceOrderIrrelevant(s: Snapshot, o: Order, a: seq<Id>, b: seq<Id>)
    requires WellFormed(s)
    requires forall v :: v in a <==> v in b
    ensures WagonsKnown(s)
    ensures var e, f := EvaluationOf(IndexOf(s), o, a), EvaluationOf(IndexOf(s), o, b);
            e.(candidates := []) == f.(candidates := [])
  {
    WellFormedWagons(s);
    if InputValid(o) {
      SameCandidates(s, o, a, b);
      SameRefusals(IndexOf(s), o, a, b);
    }
  }

  lemma SameCandidates(s: Snapshot, o: Order, a: seq<Id>, b: seq<Id>)
    requires WagonsKnown(s) && DistinctKeys(s.slots, SlotId)
    requires forall v :: v in a <==> v in b
    ensures CandidatesOver(IndexOf(s), o, a) == [] <==> CandidatesOver(IndexOf(s), o, b) == []
  {
    forall c ensures c in CandidatesOver(IndexOf(s), o, a) <==> c in CandidatesOver(IndexOf(s), o, b) {
      CandidateMembers(s, o, a, c);
      CandidateMembers(s, o, b, c);
    }
    SameEmptiness(CandidatesOver(IndexOf(s), o, a), CandidatesOver(IndexOf(s), o, b));
  }

  lemma SameRefusals(ix: Index, o: Order, a: seq<Id>, b: seq<Id>)
    requires forall v :: v in a <==> v in b
    ensures Refusals(ix, o, a) == Refusals(ix, o, b)
  {
    forall c ensures c in Refusals(ix, o, a) <==> c in Refusals(ix, o, b) {
      RefusesByMember(ix, o, a, c);
      RefusesByMember(ix, o, b, c);
    }
  }

  lemma SameEmptiness<T(!new)>(a: seq<T>, b: seq<T>)
    requires forall t :: t in a <==> t in b
    ensures a == [] <==> b == []
  {
    assert a != [] ==> a[0] in b;
    assert b != [] ==> b[0] in a;
  }

  lemma RefusesByMember(ix: Index, o: Order, services: seq<Id>, c: Code)
    ensures Refuses(ix, o, services, c) <==> exists v :: v in services && ServiceRefuses(ix, o, v, c)
  {
    if exists v :: v in services && ServiceRefuses(ix, o, v, c) {
      var v :| v in services && ServiceRefuses(ix, o, v, c);
      var i :| 0 <= i < |services| && services[i] == v;
      assert ServiceRefuses(ix, o, services[i], c);
    }
  }
}
