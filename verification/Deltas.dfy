/** What moved between two lists of assignments. */
module Deltas {
  import opened Ordering
  import opened Eligibility
  import opened GateProperties
  import opened BaselineSolve

  datatype ChangeType = Added | Moved | Removed

  datatype Delta = Delta(order: Id, changeType: ChangeType, before: Option<Assignment>, after: Option<Assignment>)

  function DeltaOrder(d: Delta): Id { d.order }

  function Get(m: map<Id, Assignment>, k: Id): Option<Assignment> {
    if k in m then Some(m[k]) else None
  }

  function ByOrder(assignments: seq<Assignment>): map<Id, Assignment> {
    ById(assignments, CandidateOrder)
  }

  /** How one order's placement changed, if it did. */
  function DeltaFor(before: map<Id, Assignment>, after: map<Id, Assignment>, order: Id): Option<Delta> {
    var was, now := Get(before, order), Get(after, order);
    if was == now then None
    else Some(Delta(order, if was.None? then Added else if now.None? then Removed else Moved, was, now))
  }

  /** Exactly the changed orders, each once, in text order. */
  ghost predicate IsDiff(before: map<Id, Assignment>, after: map<Id, Assignment>, deltas: seq<Delta>) {
    && StrictlyIncreasing(deltas, DeltaOrder)
    && forall d :: d in deltas <==> DeltaFor(before, after, d.order) == Some(d)
  }

  method CollectDeltas(was: map<Id, Assignment>, now: map<Id, Assignment>, orders: seq<Id>) returns (deltas: seq<Delta>)
    requires StrictlyIncreasing(orders, Self)
    requires forall o :: o in orders <==> o in was || o in now
    ensures IsDiff(was, now, deltas)
  {
    deltas := [];
    for n := 0 to |orders|
      invariant StrictlyIncreasing(deltas, DeltaOrder)
      invariant forall d :: d in deltas <==> d.order in orders[..n] && DeltaFor(was, now, d.order) == Some(d)
    {
      assert orders[..n + 1] == orders[..n] + [orders[n]];
      forall d | d in deltas ensures Less(d.order, orders[n]) {
        var i :| 0 <= i < n && orders[i] == d.order;
        assert Less(Self(orders[i]), Self(orders[n]));
      }
      if DeltaFor(was, now, orders[n]).Some? {
        deltas := deltas + [DeltaFor(was, now, orders[n]).value];
      }
    }
    assert orders[..|orders|] == orders;
  }

  /** Every order whose placement changed, with both sides. */
  method AssignmentDeltas(before: seq<Assignment>, after: seq<Assignment>) returns (deltas: seq<Delta>)
    ensures IsDiff(ByOrder(before), ByOrder(after), deltas)
  {
    var orders := SortIds(Dedup(MapSeq(before, CandidateOrder) + MapSeq(after, CandidateOrder)));
    UnionOrders(before, after);
    deltas := CollectDeltas(ByOrder(before), ByOrder(after), orders);
  }

  lemma UnionOrders(before: seq<Assignment>, after: seq<Assignment>)
    ensures var orders := SortIds(Dedup(MapSeq(before, CandidateOrder) + MapSeq(after, CandidateOrder)));
            && StrictlyIncreasing(orders, Self)
            && (forall o :: o in orders <==> o in ByOrder(before) || o in ByOrder(after))
  {
    var all := MapSeq(before, CandidateOrder) + MapSeq(after, CandidateOrder);
    SortIdsSpec(Dedup(all));
    forall o ensures o in all <==> o in ByOrder(before) || o in ByOrder(after) {
      KnownInTable(o, before, CandidateOrder);
      KnownInTable(o, after, CandidateOrder);
    }
  }

  // ---------------------------------------------------------------- what a diff says

  /** Replays one delta on a table of placements. */
  function PatchOne(m: map<Id, Assignment>, d: Delta): map<Id, Assignment> {
    match d.after
    case Some(a) => m[d.order := a]
    case None => m - {d.order}
  }

  function Patch(m: map<Id, Assignment>, deltas: seq<Delta>): map<Id, Assignment> {
    if deltas == [] then m
    else PatchOne(Patch(m, deltas[..|deltas| - 1]), deltas[|deltas| - 1])
  }

  ghost predicate Reported(before: map<Id, Assignment>, after: map<Id, Assignment>, deltas: seq<Delta>) {
    forall d :: d in deltas ==> DeltaFor(before, after, d.order) == Some(d)
  }

  lemma {:induction false} PatchAt(before: map<Id, Assignment>, after: map<Id, Assignment>, deltas: seq<Delta>,
                                   order: Id)
    requires Reported(before, after, deltas)
    ensures Get(Patch(before, deltas), order)
         == if exists d :: d in deltas && d.order == order then Get(after, order) else Get(before, order)
    decreases |deltas|
  {
    if deltas != [] {
      var front, last := deltas[..|deltas| - 1], deltas[|deltas| - 1];
      assert deltas == front + [last];
      PatchAt(before, after, front, order);
    }
  }

  /** The diff is complete and right: replaying it on the first table gives the second. */
  lemma PatchGivesAfter(before: map<Id, Assignment>, after: map<Id, Assignment>, deltas: seq<Delta>)
    requires IsDiff(before, after, deltas)
    ensures Patch(before, deltas) == after
  {
    forall order ensures Get(Patch(before, deltas), order) == Get(after, order) {
      PatchAt(before, after, deltas, order);
      if Get(before, order) != Get(after, order) {
        assert DeltaFor(before, after, order).value in deltas;
      }
    }
    SameEntries(Patch(before, deltas), after);
  }

  lemma SameEntries(m: map<Id, Assignment>, n: map<Id, Assignment>)
    requires forall order :: Get(m, order) == Get(n, order)
    ensures m == n
  {
    forall order ensures (order in m <==> order in n) && (order in m ==> m[order] == n[order]) {
      assert Get(m, order) == Get(n, order);
    }
    assert m.Keys == n.Keys;
  }

  /** Nothing is reported exactly when nothing moved. */
  lemma EmptyDiffMeansEqual(before: map<Id, Assignment>, after: map<Id, Assignment>, deltas: seq<Delta>)
    requires IsDiff(before, after, deltas)
    ensures deltas == [] <==> before == after
  {
    PatchGivesAfter(before, after, deltas);
    if deltas != [] {
      assert deltas[0] in deltas;
    }
  }

  function Tally(deltas: seq<Delta>, t: ChangeType): nat {
    if deltas == [] then 0
    else Tally(deltas[..|deltas| - 1], t) + (if deltas[|deltas| - 1].changeType == t then 1 else 0)
  }

  lemma PatchOneSize(m: map<Id, Assignment>, before: map<Id, Assignment>, after: map<Id, Assignment>, d: Delta)
    requires DeltaFor(before, after, d.order) == Some(d) && Get(m, d.order) == Get(before, d.order)
    ensures |PatchOne(m, d)| - |m| == if d.changeType == Added then 1 else if d.changeType == Removed then -1 else 0
  {
    match d.after
    case Some(a) => assert PatchOne(m, d).Keys == m.Keys + {d.order};
    case None => assert PatchOne(m, d).Keys == m.Keys - {d.order};
  }

  lemma {:induction false} PatchSize(before: map<Id, Assignment>, after: map<Id, Assignment>, deltas: seq<Delta>)
    requires Reported(before, after, deltas) && StrictlyIncreasing(deltas, DeltaOrder)
    ensures |Patch(before, deltas)| - |before| == Tally(deltas, Added) - Tally(deltas, Removed)
    decreases |deltas|
  {
    if deltas != [] {
      var front, last := deltas[..|deltas| - 1], deltas[|deltas| - 1];
      PatchSize(before, after, front);
      PatchAt(before, after, front, last.order);
      forall d | d in front ensures d.order != last.order {
        var i :| 0 <= i < |front| && front[i] == d;
        assert Less(DeltaOrder(deltas[i]), DeltaOrder(deltas[|deltas| - 1]));
      }
      PatchOneSize(Patch(before, front), before, after, last);
    }
  }

  /** The number of placed orders moves by what was added less what was unassigned. */
  lemma DiffBalances(before: map<Id, Assignment>, after: map<Id, Assignment>, deltas: seq<Delta>)
    requires IsDiff(before, after, deltas)
    ensures |after| - |before| == Tally(deltas, Added) - Tally(deltas, Removed)
  {
    PatchGivesAfter(before, after, deltas);
    PatchSize(before, after, deltas);
  }

  // ---------------------------------------------------------------- both sides

  /** Each delta carries the placement before and the placement after, and its kind says which of
      the two is missing. An order is listed exactly when the two differ. */
  lemma DiffReads(before: map<Id, Assignment>, after: map<Id, Assignment>, deltas: seq<Delta>)
    requires IsDiff(before, after, deltas)
    ensures forall d :: d in deltas ==>
              && d.before == (if d.order in before then Some(before[d.order]) else None)
              && d.after == (if d.order in after then Some(after[d.order]) else None)
              && d.before != d.after
              && (d.changeType == Added <==> d.order !in before)
              && (d.changeType == Removed <==> d.order !in after)
              && (d.changeType == Moved <==> d.order in before && d.order in after)
    ensures forall order: Id :: (exists d :: d in deltas && d.order == order) <==>
              || (order in before && order !in after) || (order !in before && order in after)
              || (order in before && order in after && before[order] != after[order])
  {
    forall order: Id
      ensures (exists d :: d in deltas && d.order == order) <==>
                || (order in before && order !in after) || (order !in before && order in after)
                || (order in before && order in after && before[order] != after[order])
    {
      if DeltaFor(before, after, order).Some? {
        assert DeltaFor(before, after, order).value in deltas;
      }
    }
  }

  /** Takes one delta back. */
  function UndoOne(m: map<Id, Assignment>, d: Delta): map<Id, Assignment> {
    match d.before
    case Some(a) => m[d.order := a]
    case None => m - {d.order}
  }

  function Undo(m: map<Id, Assignment>, deltas: seq<Delta>): map<Id, Assignment> {
    if deltas == [] then m
    else UndoOne(Undo(m, deltas[..|deltas| - 1]), deltas[|deltas| - 1])
  }

  lemma {:induction false} UndoAt(before: map<Id, Assignment>, after: map<Id, Assignment>, deltas: seq<Delta>,
                                  order: Id)
    requires Reported(before, after, deltas)
    ensures Get(Undo(after, deltas), order)
         == if exists d :: d in deltas && d.order == order then Get(before, order) else Get(after, order)
    decreases |deltas|
  {
    if deltas != [] {
      var front, last := deltas[..|deltas| - 1], deltas[|deltas| - 1];
      assert deltas == front + [last];
      UndoAt(before, after, front, order);
    }
  }

  /** Nothing is lost: taking the deltas back from the second table gives the first. */
  lemma UndoGivesBefore(before: map<Id, Assignment>, after: map<Id, Assignment>, deltas: seq<Delta>)
    requires IsDiff(before, after, deltas)
    ensures Undo(after, deltas) == before
  {
    forall order ensures Get(Undo(after, deltas), order) == Get(before, order) {
      UndoAt(before, after, deltas, order);
      if Get(before, order) != Get(after, order) {
        assert DeltaFor(before, after, order).value in deltas;
      }
    }
    SameEntries(Undo(after, deltas), before);
  }
}
