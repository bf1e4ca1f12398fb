/** Text order on identifiers, sorting, and lookup tables over lists of records. */
module Ordering {

  type Id = string

  datatype Option<+T> = None | Some(value: T)

  // ---------------------------------------------------------------- text order

  /** Code point by code point; a prefix comes before its extensions. */
  predicate Leq(a: Id, b: Id)
    decreases |a|
  {
    a == [] || (b != [] && (a[0] < b[0] || (a[0] == b[0] && Leq(a[1..], b[1..]))))
  }

  predicate Less(a: Id, b: Id) {
    a != b && Leq(a, b)
  }

  lemma LeqReflexive(a: Id)
    ensures Leq(a, a)
    decreases |a|
  {
    if a != [] {
      LeqReflexive(a[1..]);
    }
  }

  lemma LeqTotal(a: Id, b: Id)
    ensures Leq(a, b) || Leq(b, a)
    decreases |a|
  {
    if a != [] && b != [] {
      LeqTotal(a[1..], b[1..]);
    }
  }

  lemma LeqAntisymmetric(a: Id, b: Id)
    requires Leq(a, b) && Leq(b, a)
    ensures a == b
    decreases |a|
  {
    if a != [] && b != [] {
      LeqAntisymmetric(a[1..], b[1..]);
      assert a == [a[0]] + a[1..] && b == [b[0]] + b[1..];
    }
  }

  lemma LeqTransitive(a: Id, b: Id, c: Id)
    requires Leq(a, b) && Leq(b, c)
    ensures Leq(a, c)
    decreases |a|
  {
    if a != [] && a[0] == b[0] == c[0] {
      LeqTransitive(a[1..], b[1..], c[1..]);
    }
  }

  lemma LessTransitive(a: Id, b: Id, c: Id)
    requires Less(a, b) && Less(b, c)
    ensures Less(a, c)
  {
    LeqTransitive(a, b, c);
    if a == c {
      LeqAntisymmetric(a, b);
    }
  }

  lemma Trichotomy(a: Id, b: Id)
    ensures a == b || Less(a, b) || Less(b, a)
    ensures !(Less(a, b) && Less(b, a))
  {
    LeqTotal(a, b);
    if Less(a, b) && Less(b, a) {
      LeqAntisymmetric(a, b);
    }
  }

  // ---------------------------------------------------------------- lists

  function MapSeq<T, U>(s: seq<T>, f: T -> U): (r: seq<U>)
    ensures |r| == |s|
    ensures forall i :: 0 <= i < |s| ==> r[i] == f(s[i])
  {
    if s == [] then [] else MapSeq(s[..|s| - 1], f) + [f(s[|s| - 1])]
  }

  /** The elements whose key is `k`, in list order. */
  function Filter<T>(s: seq<T>, key: T -> Id, k: Id): seq<T> {
    if s == [] then []
    else
      var last := s[|s| - 1];
      Filter(s[..|s| - 1], key, k) + (if key(last) == k then [last] else [])
  }

  lemma FilterMembers<T(!new)>(s: seq<T>, key: T -> Id, k: Id)
    ensures forall t :: t in Filter(s, key, k) <==> t in s && key(t) == k
  {
    if s != [] {
      FilterMembers(s[..|s| - 1], key, k);
      assert s == s[..|s| - 1] + [s[|s| - 1]];
    }
  }

  /** First occurrences only. */
  function Dedup<T(==,!new)>(s: seq<T>): (r: seq<T>)
    ensures forall t :: t in r <==> t in s
    ensures forall i, j :: 0 <= i < j < |r| ==> r[i] != r[j]
  {
    if s == [] then []
    else
      var last := s[|s| - 1];
      var front := Dedup(s[..|s| - 1]);
      assert s == s[..|s| - 1] + [last];
      if last in front then front else front + [last]
  }

  ghost predicate DistinctKeys<T>(s: seq<T>, key: T -> Id) {
    forall i, j :: 0 <= i < j < |s| ==> key(s[i]) != key(s[j])
  }

  /** Without repeated keys, records with the same key are the same. */
  lemma SameKeySameRecord<T>(s: seq<T>, key: T -> Id, t: T, u: T)
    requires DistinctKeys(s, key) && t in s && u in s && key(t) == key(u)
    ensures t == u
  {
    assert forall i, j :: 0 <= i < |s| && 0 <= j < |s| && i != j ==> key(s[i]) != key(s[j]);
    var i :| 0 <= i < |s| && s[i] == t;
    var j :| 0 <= j < |s| && s[j] == u;
  }

  /** A lookup table; a repeated key keeps the last record. */
  function ById<T>(s: seq<T>, key: T -> Id): (m: map<Id, T>)
    ensures forall t :: t in s ==> key(t) in m
    ensures forall k :: k in m ==> m[k] in s && key(m[k]) == k
    ensures DistinctKeys(s, key) ==> forall t :: t in s ==> m[key(t)] == t
  {
    if s == [] then map[]
    else
      var last := s[|s| - 1];
      assert s == s[..|s| - 1] + [last];
      ById(s[..|s| - 1], key)[key(last) := last]
  }

  lemma LastKeyIsNew<T(!new)>(s: seq<T>, key: T -> Id)
    requires s != [] && DistinctKeys(s, key)
    ensures DistinctKeys(s[..|s| - 1], key)
    ensures key(s[|s| - 1]) !in ById(s[..|s| - 1], key)
  {
    var front := s[..|s| - 1];
    forall t | t in front ensures key(t) != key(s[|s| - 1]) {
      var i :| 0 <= i < |front| && front[i] == t;
      assert key(s[i]) != key(s[|s| - 1]);
    }
  }

  /** Lists with the same records and no repeated key give the same table. */
  lemma TablesAgree<T(!new)>(a: seq<T>, b: seq<T>, key: T -> Id)
    requires DistinctKeys(a, key) && DistinctKeys(b, key)
    requires forall t :: t in a <==> t in b
    ensures ById(a, key) == ById(b, key)
  {
    forall k | k in ById(a, key) ensures k in ById(b, key) && ById(b, key)[k] == ById(a, key)[k] {
      assert ById(a, key)[k] in b;
    }
    forall k | k in ById(b, key) ensures k in ById(a, key) {
      assert ById(b, key)[k] in a;
    }
  }

  lemma FilterEmpty<T>(s: seq<T>, key: T -> Id, k: Id)
    requires k !in MapSeq(s, key)
    ensures Filter(s, key, k) == []
  {
    if s != [] {
      assert MapSeq(s, key)[|s| - 1] == key(s[|s| - 1]);
      FilterEmpty(s[..|s| - 1], key, k);
    }
  }

  /** The keys in first-use order, and under each key its elements. */
  ghost predicate Grouped<T(!new)>(s: seq<T>, key: T -> Id, keys: seq<Id>, groups: map<Id, seq<T>>) {
    && keys == Dedup(MapSeq(s, key))
    && (forall k :: k in keys <==> k in groups)
    && (forall k :: k in groups ==> groups[k] == Filter(s, key, k))
  }

  lemma FilterOneMore<T(!new)>(s: seq<T>, x: T, key: T -> Id, k: Id)
    ensures Filter(s + [x], key, k) == Filter(s, key, k) + (if key(x) == k then [x] else [])
  {
    assert (s + [x])[..|s|] == s;
  }

  lemma KeysOneMore<T(!new)>(s: seq<T>, x: T, key: T -> Id)
    ensures var front := Dedup(MapSeq(s, key));
            Dedup(MapSeq(s + [x], key)) == if key(x) in front then front else front + [key(x)]
  {
    assert (s + [x])[..|s|] == s;
    assert MapSeq(s + [x], key) == MapSeq(s, key) + [key(x)];
    assert (MapSeq(s, key) + [key(x)])[..|s|] == MapSeq(s, key);
  }

  lemma OtherGroups<T(!new)>(s: seq<T>, x: T, key: T -> Id, keys: seq<Id>, groups: map<Id, seq<T>>)
    requires Grouped(s, key, keys, groups)
    ensures forall k :: k in groups && k != key(x) ==> groups[k] == Filter(s + [x], key, k)
  {
    forall k | k in groups && k != key(x) ensures groups[k] == Filter(s + [x], key, k) {
      FilterOneMore(s, x, key, k);
    }
  }

  lemma NewGroup<T(!new)>(s: seq<T>, x: T, key: T -> Id, keys: seq<Id>, groups: map<Id, seq<T>>)
    requires Grouped(s, key, keys, groups) && key(x) !in groups
    ensures Grouped(s + [x], key, keys + [key(x)], groups[key(x) := [x]])
  {
    KeysOneMore(s, x, key);
    OtherGroups(s, x, key, keys, groups);
    FilterOneMore(s, x, key, key(x));
    FilterEmpty(s, key, key(x));
  }

  lemma OldGroup<T(!new)>(s: seq<T>, x: T, key: T -> Id, keys: seq<Id>, groups: map<Id, seq<T>>)
    requires Grouped(s, key, keys, groups) && key(x) in groups
    ensures Grouped(s + [x], key, keys, groups[key(x) := groups[key(x)] + [x]])
  {
    KeysOneMore(s, x, key);
    OtherGroups(s, x, key, keys, groups);
    FilterOneMore(s, x, key, key(x));
  }

  /** Groups a list by a key; the groups appear in first-use order. */
  method GroupBy<T(!new)>(s: seq<T>, key: T -> Id) returns (keys: seq<Id>, groups: map<Id, seq<T>>)
    ensures keys == Dedup(MapSeq(s, key))
    ensures forall k :: k in keys <==> k in groups
    ensures forall k :: k in groups ==> groups[k] == Filter(s, key, k)
  {
    keys, groups := [], map[];
    for n := 0 to |s|
      invariant Grouped(s[..n], key, keys, groups)
    {
      var k := key(s[n]);
      assert s[..n + 1] == s[..n] + [s[n]];
      if k in groups {
        OldGroup(s[..n], s[n], key, keys, groups);
        groups := groups[k := groups[k] + [s[n]]];
      } else {
        NewGroup(s[..n], s[n], key, keys, groups);
        keys := keys + [k];
        groups := groups[k := [s[n]]];
      }
    }
    assert s[..|s|] == s;
  }

  /** Every group of a list, as one table. */
  function Groups<T>(s: seq<T>, key: T -> Id): map<Id, seq<T>> {
    map k | k in MapSeq(s, key) :: Filter(s, key, k)
  }

  lemma GroupByGivesGroups<T(!new)>(s: seq<T>, key: T -> Id, keys: seq<Id>, groups: map<Id, seq<T>>)
    requires keys == Dedup(MapSeq(s, key))
    requires forall k :: k in keys <==> k in groups
    requires forall k :: k in groups ==> groups[k] == Filter(s, key, k)
    ensures groups == Groups(s, key)
  {
    var all := Groups(s, key);
    forall k ensures k in groups <==> k in all {
      assert k in keys <==> k in MapSeq(s, key);
    }
    assert groups.Keys == all.Keys;
  }

  /** A finite non-empty set has a member of least rank. */
  ghost predicate Least<T(!new)>(s: set<T>, rank: T -> nat, t: T) {
    t in s && forall u :: u in s ==> rank(t) <= rank(u)
  }

  lemma LesserOfTwo<T(!new)>(s: set<T>, rank: T -> nat, t: T, least: T)
    requires t in s && Least(s - {t}, rank, least)
    ensures Least(s, rank, if rank(t) <= rank(least) then t else least)
  {
    assert forall u :: u in s && u != t ==> u in s - {t};
  }

  lemma {:induction false} LeastRank<T(!new)>(s: set<T>, rank: T -> nat)
    requires s != {}
    ensures exists t :: Least(s, rank, t)
    decreases |s|
  {
    var t :| t in s;
    if s == {t} {
      assert Least(s, rank, t);
    } else {
      LeastRank(s - {t}, rank);
      var least :| Least(s - {t}, rank, least);
      LesserOfTwo(s, rank, t, least);
    }
  }

  // ---------------------------------------------------------------- sorting

  ghost predicate TotalOrder<T(!new)>(leq: (T, T) -> bool) {
    && (forall a, b :: leq(a, b) || leq(b, a))
    && (forall a, b, c :: leq(a, b) && leq(b, c) ==> leq(a, c))
  }

  ghost predicate Sorted<T>(s: seq<T>, leq: (T, T) -> bool) {
    forall i, j :: 0 <= i < j < |s| ==> leq(s[i], s[j])
  }

  function Insert<T>(s: seq<T>, x: T, leq: (T, T) -> bool): (r: seq<T>)
    ensures multiset(r) == multiset(s) + multiset{x}
  {
    if s == [] || leq(s[|s| - 1], x) then s + [x]
    else
      assert s == s[..|s| - 1] + [s[|s| - 1]];
      Insert(s[..|s| - 1], x, leq) + [s[|s| - 1]]
  }

  /** Stable insertion sort. */
  function Sort<T>(s: seq<T>, leq: (T, T) -> bool): (r: seq<T>)
    ensures multiset(r) == multiset(s)
  {
    if s == [] then []
    else
      assert s == s[..|s| - 1] + [s[|s| - 1]];
      Insert(Sort(s[..|s| - 1], leq), s[|s| - 1], leq)
  }

  lemma SameMultisetSameMembers<T(!new)>(a: seq<T>, b: seq<T>)
    requires multiset(a) == multiset(b)
    ensures |a| == |b|
    ensures forall t :: t in a <==> t in b
  {
    assert |a| == |multiset(a)| == |multiset(b)| == |b|;
    forall t ensures t in a <==> t in b {
      assert t in a <==> t in multiset(a);
      assert t in b <==> t in multiset(b);
    }
  }

  lemma {:induction false} InsertSorted<T(!new)>(s: seq<T>, x: T, leq: (T, T) -> bool)
    requires TotalOrder(leq) && Sorted(s, leq)
    ensures Sorted(Insert(s, x, leq), leq)
  {
    if s != [] && !leq(s[|s| - 1], x) {
      var front, last := s[..|s| - 1], s[|s| - 1];
      InsertSorted(front, x, leq);
      var r := Insert(front, x, leq);
      forall i | 0 <= i < |r| ensures leq(r[i], last) {
        assert r[i] in multiset(r);
        assert r[i] in multiset(front) || r[i] == x;
      }
    } else if s != [] {
      forall i | 0 <= i < |s| ensures leq(s[i], x) {
        assert i == |s| - 1 || leq(s[i], s[|s| - 1]);
      }
    }
  }

  lemma {:induction false} SortSorts<T(!new)>(s: seq<T>, leq: (T, T) -> bool)
    requires TotalOrder(leq)
    ensures Sorted(Sort(s, leq), leq)
    decreases |s|
  {
    if s != [] {
      SortSorts(s[..|s| - 1], leq);
      InsertSorted(Sort(s[..|s| - 1], leq), s[|s| - 1], leq);
    }
  }

  ghost predicate Antisymmetric<T(!new)>(leq: (T, T) -> bool) {
    forall x, y :: leq(x, y) && leq(y, x) ==> x == y
  }

  lemma LastsAgree<T(!new)>(a: seq<T>, b: seq<T>, leq: (T, T) -> bool)
    requires TotalOrder(leq) && Antisymmetric(leq)
    requires Sorted(a, leq) && Sorted(b, leq) && multiset(a) == multiset(b) && a != []
    ensures |a| == |b| && a[|a| - 1] == b[|b| - 1]
  {
    SameMultisetSameMembers(a, b);
    assert b[|b| - 1] in b && a[|a| - 1] in a;
    LastIsGreatest(a, leq, b[|b| - 1]);
    LastIsGreatest(b, leq, a[|a| - 1]);
  }

  lemma FrontsAgree<T>(a: seq<T>, b: seq<T>)
    requires |a| == |b| > 0 && multiset(a) == multiset(b) && a[|a| - 1] == b[|b| - 1]
    ensures multiset(a[..|a| - 1]) == multiset(b[..|b| - 1])
  {
    var x := a[|a| - 1];
    assert a == a[..|a| - 1] + [x] && b == b[..|b| - 1] + [x];
    assert multiset(a[..|a| - 1]) == multiset(a) - multiset{x};
    assert multiset(b[..|b| - 1]) == multiset(b) - multiset{x};
  }

  /** Under an antisymmetric order a sorted list is fixed by its multiset. */
  lemma {:induction false} SortedUnique<T(!new)>(a: seq<T>, b: seq<T>, leq: (T, T) -> bool)
    requires TotalOrder(leq) && Antisymmetric(leq)
    requires Sorted(a, leq) && Sorted(b, leq) && multiset(a) == multiset(b)
    ensures a == b
    decreases |a|
  {
    SameMultisetSameMembers(a, b);
    if a != [] {
      LastsAgree(a, b, leq);
      FrontsAgree(a, b);
      SortedUnique(a[..|a| - 1], b[..|b| - 1], leq);
      assert a == a[..|a| - 1] + [a[|a| - 1]] && b == b[..|b| - 1] + [b[|b| - 1]];
    }
  }

  lemma LastIsGreatest<T(!new)>(s: seq<T>, leq: (T, T) -> bool, t: T)
    requires TotalOrder(leq) && Sorted(s, leq) && t in s
    ensures leq(t, s[|s| - 1])
  {
    var i :| 0 <= i < |s| && s[i] == t;
  }

  /** Keys strictly increase in text order. */
  ghost predicate StrictlyIncreasing<T>(s: seq<T>, key: T -> Id) {
    forall i, j :: 0 <= i < j < |s| ==> Less(key(s[i]), key(s[j]))
  }

  /** A strictly increasing list is fixed by its members. */
  lemma {:induction false} IncreasingUnique<T(!new)>(a: seq<T>, b: seq<T>, key: T -> Id)
    requires StrictlyIncreasing(a, key) && StrictlyIncreasing(b, key)
    requires forall t :: t in a <==> t in b
    ensures a == b
    decreases |a|
  {
    assert b != [] ==> b[0] in b;
    if a != [] {
      assert a[0] in b;
      var j :| 0 <= j < |b| && b[j] == a[0];
      assert b[0] in a;
      var i :| 0 <= i < |a| && a[i] == b[0];
      Trichotomy(key(a[0]), key(b[0]));
      assert i == 0 && j == 0;
      assert b == [a[0]] + b[1..] && a == [a[0]] + a[1..];
      forall t ensures t in a[1..] <==> t in b[1..] {
        NotInTail(a, key);
        NotInTail(b, key);
        if t in a[1..] {
          assert t in a;
        }
        if t in b[1..] {
          assert t in b;
        }
      }
      IncreasingUnique(a[1..], b[1..], key);
    }
  }

  lemma NotInTail<T>(s: seq<T>, key: T -> Id)
    requires s != [] && StrictlyIncreasing(s, key)
    ensures s[0] !in s[1..]
  {
    forall j | 0 <= j < |s[1..]| ensures s[1..][j] != s[0] {
      assert Less(key(s[0]), key(s[j + 1]));
    }
  }

  /** Sorting by a key without repeats gives a strictly increasing list. */
  lemma SortByDistinctKey<T(!new)>(s: seq<T>, key: T -> Id, leq: (T, T) -> bool)
    requires DistinctKeys(s, key)
    requires forall a, b :: leq(a, b) <==> Leq(key(a), key(b))
    ensures StrictlyIncreasing(Sort(s, leq), key)
    ensures forall t :: t in Sort(s, leq) <==> t in s
    ensures |Sort(s, leq)| == |s|
  {
    var r := Sort(s, leq);
    forall a, b ensures leq(a, b) || leq(b, a) {
      LeqTotal(key(a), key(b));
    }
    forall a, b, c | leq(a, b) && leq(b, c) ensures leq(a, c) {
      LeqTransitive(key(a), key(b), key(c));
    }
    SortSorts(s, leq);
    SameMultisetSameMembers(r, s);
    KeysStayDistinct(s, r, key);
    forall i, j | 0 <= i < j < |r| ensures Less(key(r[i]), key(r[j])) {
      assert leq(r[i], r[j]);
    }
  }

  lemma {:induction false} KeysStayDistinct<T(!new)>(s: seq<T>, r: seq<T>, key: T -> Id)
    requires DistinctKeys(s, key) && multiset(s) == multiset(r)
    ensures DistinctKeys(r, key)
  {
    SameMultisetSameMembers(s, r);
    forall i, j | 0 <= i < j < |r| ensures key(r[i]) != key(r[j]) {
      assert r[i] in s && r[j] in s;
      if key(r[i]) == key(r[j]) {
        assert r[i] == r[j];
        assert r == r[..i] + [r[i]] + r[i + 1..j] + [r[j]] + r[j + 1..];
        assert multiset(r)[r[i]] >= 2;
        OnceOnly(s, key, r[i]);
        assert false;
      }
    }
  }

  lemma {:induction false} OnceOnly<T>(s: seq<T>, key: T -> Id, t: T)
    requires DistinctKeys(s, key)
    ensures multiset(s)[t] <= 1
    decreases |s|
  {
    if s != [] {
      var front, last := s[..|s| - 1], s[|s| - 1];
      assert s == front + [last];
      OnceOnly(front, key, t);
      forall i | 0 <= i < |front| ensures front[i] != last {
        assert key(s[i]) != key(s[|s| - 1]);
      }
    }
  }

  // Sorting identifiers themselves.

  function Self(x: Id): Id { x }

  function SortIds(s: seq<Id>): (r: seq<Id>)
    ensures multiset(r) == multiset(s)
  {
    Sort(s, (a: Id, b: Id) => Leq(a, b))
  }

  lemma SortIdsSpec(s: seq<Id>)
    ensures forall i, j :: 0 <= i < j < |SortIds(s)| ==> Leq(SortIds(s)[i], SortIds(s)[j])
    ensures forall t :: t in SortIds(s) <==> t in s
    ensures |SortIds(s)| == |s|
    ensures DistinctKeys(s, Self) ==> StrictlyIncreasing(SortIds(s), Self)
  {
    var leq := (a: Id, b: Id) => Leq(a, b);
    forall a, b ensures leq(a, b) || leq(b, a) {
      LeqTotal(a, b);
    }
    forall a, b, c | leq(a, b) && leq(b, c) ensures leq(a, c) {
      LeqTransitive(a, b, c);
    }
    SortSorts(s, leq);
    SameMultisetSameMembers(SortIds(s), s);
    if DistinctKeys(s, Self) {
      SortByDistinctKey(s, Self, leq);
    }
  }
}
