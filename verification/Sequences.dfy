/** Record identifiers: a family prefix and a zero-padded number, and how numbering resumes
    from the stored identifiers after a restart. */
module Sequences {
  import opened Ordering

  // ---------------------------------------------------------------- printing and parsing

  predicate IsDigit(c: char) { '0' <= c <= '9' }

  function Digit(d: nat): (c: char)
    requires d < 10
    ensures IsDigit(c)
  {
    (d + 48) as char
  }

  function DigitValue(c: char): nat
    requires IsDigit(c)
  {
    c as int - 48
  }

  predicate AllDigits(s: string) {
    forall i :: 0 <= i < |s| ==> IsDigit(s[i])
  }

  function Digits(n: nat): (r: string)
    ensures AllDigits(r) && |r| >= 1
  {
    if n < 10 then [Digit(n)] else Digits(n / 10) + [Digit(n % 10)]
  }

  /** At least three digits. */
  function Padded(n: nat): (r: string)
    ensures AllDigits(r) && |r| >= 1
  {
    if n < 10 then "00" + Digits(n) else if n < 100 then "0" + Digits(n) else Digits(n)
  }

  function Format(prefix: string, n: nat): Id {
    prefix + Padded(n)
  }

  function Value(s: string): nat
    requires AllDigits(s)
  {
    if s == "" then 0 else 10 * Value(s[..|s| - 1]) + DigitValue(s[|s| - 1])
  }

  lemma {:induction false} DigitsRoundTrip(n: nat)
    ensures Value(Digits(n)) == n
    decreases n
  {
    if n >= 10 {
      DigitsRoundTrip(n / 10);
      assert Digits(n)[..|Digits(n)| - 1] == Digits(n / 10);
    } else {
      assert Digits(n)[..0] == "";
    }
  }

  lemma {:induction false} ZerosDoNotCount(s: string)
    requires AllDigits(s) && s != ""
    ensures AllDigits("0" + s) && Value("0" + s) == Value(s)
    decreases |s|
  {
    var t := "0" + s;
    assert t[..|t| - 1] == "0" + s[..|s| - 1];
    if |s| > 1 {
      ZerosDoNotCount(s[..|s| - 1]);
    } else {
      assert s[..0] == "" && "0" + "" == "0" && "0"[..0] == "";
    }
  }

  /** Parsing a printed number gives it back. */
  lemma PaddedRoundTrip(n: nat)
    ensures Value(Padded(n)) == n
  {
    DigitsRoundTrip(n);
    ZerosDoNotCount(Digits(n));
    ZerosDoNotCount("0" + Digits(n));
    assert "0" + ("0" + Digits(n)) == "00" + Digits(n);
  }

  predicate StartsWith(s: string, prefix: string) {
    |prefix| <= |s| && s[..|prefix|] == prefix
  }

  lemma PrefixAt(s: string, prefix: string, k: nat)
    requires k < |prefix|
    ensures StartsWith(s, prefix) ==> |s| > k && s[k] == prefix[k]
  {
    assert StartsWith(s, prefix) ==> s[k] == s[..|prefix|][k];
  }

  /** The number of an identifier that is exactly prefix and digits. */
  function Number(id: Id, prefix: string): Option<nat> {
    if StartsWith(id, prefix) && id[|prefix|..] != "" && AllDigits(id[|prefix|..])
    then Some(Value(id[|prefix|..]))
    else None
  }

  lemma NumberOfFormat(prefix: string, n: nat)
    ensures Number(Format(prefix, n), prefix) == Some(n)
  {
    PaddedRoundTrip(n);
    assert Format(prefix, n)[..|prefix|] == prefix && Format(prefix, n)[|prefix|..] == Padded(n);
  }

  /** Different numbers print differently. */
  lemma FormatInjective(prefix: string, m: nat, n: nat)
    ensures Format(prefix, m) == Format(prefix, n) <==> m == n
  {
    NumberOfFormat(prefix, m);
    NumberOfFormat(prefix, n);
  }

  // ---------------------------------------------------------------- text order

  lemma {:induction false} PrefixKeepsOrder(prefix: string, s: string, t: string)
    ensures Leq(prefix + s, prefix + t) <==> Leq(s, t)
    decreases |prefix|
  {
    if prefix == "" {
      assert prefix + s == s && prefix + t == t;
    } else {
      PrefixKeepsOrder(prefix[1..], s, t);
      assert (prefix + s)[1..] == prefix[1..] + s && (prefix + t)[1..] == prefix[1..] + t;
    }
  }

  lemma ThreeDigits(n: nat)
    requires n <= 999
    ensures Padded(n) == [Digit(n / 100), Digit(n / 10 % 10), Digit(n % 10)]
  {
    if n >= 100 {
      assert Digits(n) == Digits(n / 10) + [Digit(n % 10)];
      assert Digits(n / 10) == Digits(n / 100) + [Digit(n / 10 % 10)];
      assert n / 10 / 10 == n / 100;
    } else if n >= 10 {
      assert Digits(n) == Digits(n / 10) + [Digit(n % 10)];
    }
  }

  lemma LeqOfThree(a: string, b: string)
    requires |a| == |b| == 3
    ensures Leq(a, b) <==> a[0] < b[0] || (a[0] == b[0] && (a[1] < b[1] || (a[1] == b[1] && a[2] <= b[2])))
  {
    var a1, b1 := a[1..], b[1..];
    var a2, b2 := a1[1..], b1[1..];
    assert Leq(a, b) <==> a[0] < b[0] || (a[0] == b[0] && Leq(a1, b1));
    assert Leq(a1, b1) <==> a1[0] < b1[0] || (a1[0] == b1[0] && Leq(a2, b2));
    assert a2[1..] == "" && b2[1..] == "";
    assert Leq(a2, b2) <==> a2[0] < b2[0] || (a2[0] == b2[0] && Leq("", ""));
  }

  lemma ThreeDigitValue(n: nat)
    requires n <= 999
    ensures n / 100 < 10 && n == 100 * (n / 100) + 10 * (n / 10 % 10) + n % 10
  {
    assert n / 10 / 10 == n / 100;
  }

  lemma LexicographicIsNumeric(a: nat, b: nat, c: nat, x: nat, y: nat, z: nat)
    requires a < 10 && b < 10 && c < 10 && x < 10 && y < 10 && z < 10
    ensures 100 * a + 10 * b + c <= 100 * x + 10 * y + z <==>
              || Digit(a) < Digit(x)
              || (Digit(a) == Digit(x) && (Digit(b) < Digit(y) || (Digit(b) == Digit(y) && Digit(c) <= Digit(z))))
  {
  }

  /** Up to 999 the padding makes text order the numeric order. */
  lemma TextOrderIsNumeric(prefix: string, m: nat, n: nat)
    requires m <= 999 && n <= 999
    ensures Leq(Format(prefix, m), Format(prefix, n)) <==> m <= n
  {
    PrefixKeepsOrder(prefix, Padded(m), Padded(n));
    ThreeDigits(m);
    ThreeDigits(n);
    LeqOfThree(Padded(m), Padded(n));
    ThreeDigitValue(m);
    ThreeDigitValue(n);
    LexicographicIsNumeric(m / 100, m / 10 % 10, m % 10, n / 100, n / 10 % 10, n % 10);
  }

  // ---------------------------------------------------------------- resuming

  const SCAN_LIMIT := 200

  const SCENARIO_PREFIX := "SCN-"
  const RUN_PREFIX := "RUN-"
  const ALTERNATIVE_SCENARIO_PREFIX := "SCN-ALT-"
  const ALTERNATIVE_RUN_PREFIX := "RUN-ALT-"

  /** Longer families that share a prefix. */
  function Siblings(prefix: string): seq<string> {
    if prefix == RUN_PREFIX then [ALTERNATIVE_RUN_PREFIX]
    else if prefix == SCENARIO_PREFIX then [ALTERNATIVE_SCENARIO_PREFIX]
    else []
  }

  predicate InFamily(id: Id, prefix: string) {
    StartsWith(id, prefix) && forall i :: 0 <= i < |Siblings(prefix)| ==> !StartsWith(id, Siblings(prefix)[i])
  }

  function Matching(ids: seq<Id>, prefix: string): (r: seq<Id>)
    ensures forall id :: id in r <==> id in ids && InFamily(id, prefix)
  {
    if ids == [] then []
    else
      var last := ids[|ids| - 1];
      assert ids == ids[..|ids| - 1] + [last];
      Matching(ids[..|ids| - 1], prefix) + (if InFamily(last, prefix) then [last] else [])
  }

  predicate Descending(a: Id, b: Id) { Leq(b, a) }

  /** The page the query returns: the family's identifiers, last in text order first. */
  function Page(ids: seq<Id>, prefix: string): (r: seq<Id>)
    ensures |r| <= SCAN_LIMIT
  {
    var rows := Sort(Matching(ids, prefix), Descending);
    if |rows| <= SCAN_LIMIT then rows else rows[..SCAN_LIMIT]
  }

  ghost predicate HighestOn(page: seq<Id>, prefix: string, highest: nat) {
    && (forall id :: id in page && Number(id, prefix).Some? ==> Number(id, prefix).value <= highest)
    && (highest == 0 || exists id :: id in page && Number(id, prefix) == Some(highest))
  }

  method HighestNumber(page: seq<Id>, prefix: string) returns (highest: nat)
    ensures HighestOn(page, prefix, highest)
  {
    highest := 0;
    for i := 0 to |page|
      invariant HighestOn(page[..i], prefix, highest)
    {
      assert page[..i + 1] == page[..i] + [page[i]];
      var number := Number(page[i], prefix);
      if number.Some? && number.value > highest {
        highest := number.value;
        assert page[i] in page[..i + 1];
      }
    }
    assert page[..|page|] == page;
  }

  /** The greatest number on the page. An unreadable table starts over at zero. */
  method HighestSequence(stored: Option<seq<Id>>, prefix: string) returns (highest: nat)
    ensures stored.Some? ==> HighestOn(Page(stored.value, prefix), prefix, highest)
    ensures stored.None? ==> highest == 0
  {
    if stored.None? {
      return 0;
    }
    highest := HighestNumber(Page(stored.value, prefix), prefix);
  }

  // ---------------------------------------------------------------- freshness

  predicate KnownPrefix(prefix: string) {
    prefix == SCENARIO_PREFIX || prefix == RUN_PREFIX || prefix == ALTERNATIVE_RUN_PREFIX
  }

  /** A printed identifier belongs to its own family and not to the longer sibling. */
  lemma FormatInFamily(prefix: string, n: nat)
    requires KnownPrefix(prefix)
    ensures InFamily(Format(prefix, n), prefix)
  {
    var id := Format(prefix, n);
    assert id[..|prefix|] == prefix;
    assert IsDigit(id[|prefix|]);
    forall i | 0 <= i < |Siblings(prefix)| ensures !StartsWith(id, Siblings(prefix)[i]) {
      assert Siblings(prefix)[i][|prefix|] == 'A';
      PrefixAt(id, Siblings(prefix)[i], |prefix|);
    }
  }

  /** The longer family has a letter where the shorter one has a digit. */
  lemma LetterAfterPrefix(prefix: string, sibling: string, m: nat, n: nat)
    requires |sibling| > |prefix| && sibling[|prefix|] == 'A'
    ensures Format(sibling, m) != Format(prefix, n)
    ensures !StartsWith(Format(prefix, n), sibling)
  {
    assert Format(prefix, n)[|prefix|] == Padded(n)[0];
    assert Format(sibling, m)[|prefix|] == sibling[|prefix|];
    PrefixAt(Format(prefix, n), sibling, |prefix|);
  }

  lemma FormatStarts(prefix: string, n: nat)
    ensures StartsWith(Format(prefix, n), prefix)
  {
  }

  /** Baseline and alternative identifiers never mix: neither family sees the other's. */
  lemma FamiliesDoNotMix(m: nat, n: nat)
    ensures !InFamily(Format(ALTERNATIVE_RUN_PREFIX, m), RUN_PREFIX)
    ensures !InFamily(Format(RUN_PREFIX, n), ALTERNATIVE_RUN_PREFIX)
    ensures !InFamily(Format(ALTERNATIVE_SCENARIO_PREFIX, m), SCENARIO_PREFIX)
    ensures Format(ALTERNATIVE_RUN_PREFIX, m) != Format(RUN_PREFIX, n)
    ensures Format(ALTERNATIVE_SCENARIO_PREFIX, m) != Format(SCENARIO_PREFIX, n)
  {
    LetterAfterPrefix(RUN_PREFIX, ALTERNATIVE_RUN_PREFIX, m, n);
    LetterAfterPrefix(SCENARIO_PREFIX, ALTERNATIVE_SCENARIO_PREFIX, m, n);
    FormatStarts(ALTERNATIVE_RUN_PREFIX, m);
    FormatStarts(ALTERNATIVE_SCENARIO_PREFIX, m);
    assert Siblings(RUN_PREFIX)[0] == ALTERNATIVE_RUN_PREFIX;
    assert Siblings(SCENARIO_PREFIX)[0] == ALTERNATIVE_SCENARIO_PREFIX;
  }

  ghost predicate ThreeDigitId(id: Id, prefix: string) {
    exists n: nat :: n <= 999 && id == Format(prefix, n)
  }

  /** Every stored number of the family fits three digits, and nothing else is stored there. */
  ghost predicate ThreeDigitFamily(ids: seq<Id>, prefix: string) {
    forall id :: id in Matching(ids, prefix) ==> ThreeDigitId(id, prefix)
  }

  lemma DescendingOrder()
    ensures TotalOrder(Descending)
  {
    forall a: Id, b: Id ensures Descending(a, b) || Descending(b, a) {
      LeqTotal(a, b);
    }
    forall a: Id, b: Id, c: Id | Descending(a, b) && Descending(b, c) ensures Descending(a, c) {
      LeqTransitive(c, b, a);
    }
  }

  lemma FirstRowIsGreatest(rows: seq<Id>, id: Id)
    requires Sorted(rows, Descending) && id in rows
    ensures Leq(id, rows[0])
  {
    var i :| 0 <= i < |rows| && rows[i] == id;
    LeqReflexive(id);
    assert i > 0 ==> Descending(rows[0], rows[i]);
  }

  lemma RowsOf(ids: seq<Id>, prefix: string) returns (rows: seq<Id>)
    ensures rows == Sort(Matching(ids, prefix), Descending) && Sorted(rows, Descending)
    ensures forall id :: id in rows <==> id in Matching(ids, prefix)
  {
    rows := Sort(Matching(ids, prefix), Descending);
    DescendingOrder();
    SortSorts(Matching(ids, prefix), Descending);
    SameMultisetSameMembers(rows, Matching(ids, prefix));
  }

  lemma NumbersInOrder(prefix: string, a: Id, b: Id)
    requires ThreeDigitId(a, prefix) && ThreeDigitId(b, prefix) && Leq(a, b)
    ensures Number(a, prefix).Some? && Number(b, prefix).Some?
    ensures Number(a, prefix).value <= Number(b, prefix).value
  {
    var m: nat :| m <= 999 && a == Format(prefix, m);
    var n: nat :| n <= 999 && b == Format(prefix, n);
    TextOrderIsNumeric(prefix, m, n);
    NumberOfFormat(prefix, m);
    NumberOfFormat(prefix, n);
  }

  lemma FirstOfPage(ids: seq<Id>, prefix: string, id: Id)
    requires id in Matching(ids, prefix)
    ensures Page(ids, prefix) != []
    ensures Page(ids, prefix)[0] in Matching(ids, prefix) && Leq(id, Page(ids, prefix)[0])
  {
    var rows := RowsOf(ids, prefix);
    FirstRowIsGreatest(rows, id);
    assert rows[0] in Matching(ids, prefix);
  }

  /** With three-digit numbers the first row of the page carries the greatest one. */
  lemma FirstRowCounts(ids: seq<Id>, prefix: string, id: Id)
    requires ThreeDigitFamily(ids, prefix) && id in Matching(ids, prefix)
    ensures Page(ids, prefix) != []
    ensures Number(id, prefix).Some? && Number(Page(ids, prefix)[0], prefix).Some?
    ensures Number(id, prefix).value <= Number(Page(ids, prefix)[0], prefix).value
  {
    FirstOfPage(ids, prefix, id);
    NumbersInOrder(prefix, id, Page(ids, prefix)[0]);
  }

  lemma TopOfPage(ids: seq<Id>, prefix: string, id: Id)
    requires |Matching(ids, prefix)| <= SCAN_LIMIT || ThreeDigitFamily(ids, prefix)
    requires id in Matching(ids, prefix) && Number(id, prefix).Some?
    ensures exists x :: x in Page(ids, prefix) && Number(x, prefix).Some?
                        && Number(x, prefix).value >= Number(id, prefix).value
  {
    SameMultisetSameMembers(Sort(Matching(ids, prefix), Descending), Matching(ids, prefix));
    if |Matching(ids, prefix)| <= SCAN_LIMIT {
      assert id in Page(ids, prefix);
    } else {
      FirstRowCounts(ids, prefix, id);
      assert Page(ids, prefix)[0] in Page(ids, prefix);
    }
  }

  /** No identifier above this number is stored. */
  ghost predicate FreeAbove(ids: seq<Id>, prefix: string, highest: nat) {
    forall n: nat :: n > highest ==> Format(prefix, n) !in ids
  }

  /** After a restart every identifier from the next one on is new, if at most a page of rows
      matches or every stored number fits three digits. */
  lemma ShortTablesResumeFresh(ids: seq<Id>, prefix: string, highest: nat)
    requires KnownPrefix(prefix) && HighestOn(Page(ids, prefix), prefix, highest)
    requires |Matching(ids, prefix)| <= SCAN_LIMIT || ThreeDigitFamily(ids, prefix)
    ensures FreeAbove(ids, prefix, highest)
  {
    forall n: nat | Format(prefix, n) in ids ensures n <= highest {
      FormatInFamily(prefix, n);
      NumberOfFormat(prefix, n);
      TopOfPage(ids, prefix, Format(prefix, n));
    }
  }

  // ---------------------------------------------------------------- the exact condition

  lemma SubsetSize(a: set<Id>, b: set<Id>)
    requires a <= b
    ensures |a| <= |b|
  {
    assert b == a + (b - a);
  }

  lemma {:induction false} SetSize(ys: seq<Id>)
    ensures |set y | y in ys| <= |ys|
    decreases |ys|
  {
    if ys != [] {
      var front, last := ys[..|ys| - 1], ys[|ys| - 1];
      SetSize(front);
      assert (set y | y in ys) == (set y | y in front) + {last};
    }
  }

  lemma FrontDistinct(xs: seq<Id>, front: seq<Id>, last: Id)
    requires xs == front + [last] && DistinctKeys(xs, Self)
    ensures DistinctKeys(front, Self) && last !in front
  {
    forall i, j | 0 <= i < j < |front| ensures Self(front[i]) != Self(front[j]) {
      assert Self(xs[i]) != Self(xs[j]);
    }
    forall i | 0 <= i < |front| ensures front[i] != last {
      assert Self(xs[i]) != Self(xs[|front|]);
    }
  }

  lemma {:induction false} DistinctSize(xs: seq<Id>)
    requires DistinctKeys(xs, Self)
    ensures |set x | x in xs| == |xs|
    decreases |xs|
  {
    if xs != [] {
      var front, last := xs[..|xs| - 1], xs[|xs| - 1];
      FrontDistinct(xs, front, last);
      DistinctSize(front);
      assert (set x | x in xs) == (set x | x in front) + {last};
    }
  }

  lemma RowsAbove(rows: seq<Id>, k: nat, x: Id)
    requires Sorted(rows, Descending) && k < |rows| && x in rows && Less(rows[k], x)
    ensures x in rows[..k]
  {
    var j :| 0 <= j < |rows| && rows[j] == x;
    Trichotomy(rows[k], x);
    if k < j {
      assert Descending(rows[k], rows[j]);
      LeqAntisymmetric(rows[k], x);
    }
    assert rows[..k][j] == x;
  }

  /** The family's identifiers that come after this one in text order, and so before it on the page. */
  ghost function Above(ids: seq<Id>, prefix: string, id: Id): set<Id> {
    set x | x in Matching(ids, prefix) && Less(id, x)
  }

  lemma {:induction false} MatchingDistinct(ids: seq<Id>, prefix: string)
    requires DistinctKeys(ids, Self)
    ensures DistinctKeys(Matching(ids, prefix), Self)
    decreases |ids|
  {
    if ids != [] {
      var front, last := ids[..|ids| - 1], ids[|ids| - 1];
      FrontDistinct(ids, front, last);
      MatchingDistinct(front, prefix);
      var r := Matching(front, prefix);
      forall i | 0 <= i < |r| ensures r[i] != last {
        assert r[i] in r;
      }
    }
  }

  lemma EarlierRowsAreAbove(rows: seq<Id>, k: nat)
    requires Sorted(rows, Descending) && DistinctKeys(rows, Self) && k < |rows|
    ensures (set x | x in rows && Less(rows[k], x)) == (set x | x in rows[..k])
  {
    forall x | x in rows[..k] ensures x in rows && Less(rows[k], x) {
      var j :| 0 <= j < k && rows[..k][j] == x;
      assert Descending(rows[j], rows[k]) && Self(rows[j]) != Self(rows[k]);
    }
    forall x | x in rows && Less(rows[k], x) ensures x in rows[..k] {
      RowsAbove(rows, k, x);
    }
  }

  lemma PrefixDistinct(rows: seq<Id>, k: nat)
    requires DistinctKeys(rows, Self) && k <= |rows|
    ensures DistinctKeys(rows[..k], Self)
  {
    forall i, j | 0 <= i < j < k ensures Self(rows[..k][i]) != Self(rows[..k][j]) {
      assert Self(rows[i]) != Self(rows[j]);
    }
  }

  /** A row's place is the number of rows above it. */
  lemma PlaceIsRank(rows: seq<Id>, k: nat)
    requires Sorted(rows, Descending) && DistinctKeys(rows, Self) && k < |rows|
    ensures |set x | x in rows && Less(rows[k], x)| == k
  {
    EarlierRowsAreAbove(rows, k);
    PrefixDistinct(rows, k);
    DistinctSize(rows[..k]);
  }

  lemma OnceInPrefix(rows: seq<Id>, k: nat, limit: nat)
    requires DistinctKeys(rows, Self) && k < |rows| && limit <= |rows|
    ensures rows[k] in rows[..limit] <==> k < limit
  {
    if k < limit {
      assert rows[..limit][k] == rows[k];
    } else {
      forall j | 0 <= j < limit ensures rows[..limit][j] != rows[k] {
        assert Self(rows[j]) != Self(rows[k]);
      }
    }
  }

  /** An identifier is on the page exactly when fewer than a page of them come before it there. */
  lemma OnPageIff(ids: seq<Id>, prefix: string, id: Id)
    requires DistinctKeys(ids, Self) && id in Matching(ids, prefix)
    ensures id in Page(ids, prefix) <==> |Above(ids, prefix, id)| < 200
  {
    var rows := RowsOf(ids, prefix);
    MatchingDistinct(ids, prefix);
    KeysStayDistinct(Matching(ids, prefix), rows, Self);
    var k :| 0 <= k < |rows| && rows[k] == id;
    PlaceIsRank(rows, k);
    assert Above(ids, prefix, id) == set x | x in rows && Less(rows[k], x);
    if |rows| > SCAN_LIMIT {
      OnceInPrefix(rows, k, SCAN_LIMIT);
    }
  }

  lemma PageMembers(ids: seq<Id>, prefix: string, id: Id)
    requires id in Page(ids, prefix)
    ensures id in Matching(ids, prefix)
  {
    var rows := RowsOf(ids, prefix);
    assert id in rows;
  }

  /** The greatest number stored in printed form. */
  ghost predicate GreatestStored(ids: seq<Id>, prefix: string, m: nat) {
    Format(prefix, m) in ids && forall n: nat :: Format(prefix, n) in ids ==> n <= m
  }

  /** Some stored identifier carries the greatest number, or a greater one, and has fewer than a
      page of the family after it in text order. */
  ghost predicate ToppedWithinPage(ids: seq<Id>, prefix: string, m: nat) {
    exists id :: id in Matching(ids, prefix) && Carries(id, prefix, m) && |Above(ids, prefix, id)| < SCAN_LIMIT
  }

  predicate Carries(id: Id, prefix: string, m: nat) {
    Number(id, prefix).Some? && Number(id, prefix).value >= m
  }

  lemma FreeAboveIsHighest(ids: seq<Id>, prefix: string, highest: nat, m: nat)
    requires GreatestStored(ids, prefix, m)
    ensures FreeAbove(ids, prefix, highest) <==> m <= highest
  {
    if m <= highest {
      forall n: nat | n > highest ensures Format(prefix, n) !in ids {
        assert Format(prefix, n) in ids ==> n <= m;
      }
    }
  }

  lemma HighestReaches(page: seq<Id>, prefix: string, highest: nat, m: nat)
    requires HighestOn(page, prefix, highest)
    ensures m <= highest <==> m == 0 || exists id :: id in page && Carries(id, prefix, m)
  {
    if 0 < m <= highest {
      var id :| id in page && Number(id, prefix) == Some(highest);
      assert Carries(id, prefix, m);
    }
  }

  /** Resuming hands out only new identifiers if and only if the greatest stored number, or a
      greater one, is carried by an identifier with fewer than a page of others after it. */
  lemma ResumesFreshIff(ids: seq<Id>, prefix: string, highest: nat, m: nat)
    requires DistinctKeys(ids, Self) && GreatestStored(ids, prefix, m)
    requires HighestOn(Page(ids, prefix), prefix, highest)
    ensures FreeAbove(ids, prefix, highest) <==> m == 0 || ToppedWithinPage(ids, prefix, m)
  {
    FreeAboveIsHighest(ids, prefix, highest, m);
    HighestReaches(Page(ids, prefix), prefix, highest, m);
    forall id ensures id in Page(ids, prefix) <==>
                        id in Matching(ids, prefix) && |Above(ids, prefix, id)| < SCAN_LIMIT
    {
      if id in Page(ids, prefix) {
        PageMembers(ids, prefix, id);
      }
      if id in Matching(ids, prefix) {
        OnPageIff(ids, prefix, id);
      }
    }
  }

  /** The condition for whichever number is the greatest stored. */
  ghost predicate FreshExactly(ids: seq<Id>, prefix: string, highest: nat) {
    forall m: nat :: GreatestStored(ids, prefix, m) ==>
      (FreeAbove(ids, prefix, highest) <==> m == 0 || ToppedWithinPage(ids, prefix, m))
  }

  lemma ResumesFreshExactly(ids: seq<Id>, prefix: string, highest: nat)
    requires DistinctKeys(ids, Self) && HighestOn(Page(ids, prefix), prefix, highest)
    ensures FreshExactly(ids, prefix, highest)
  {
    forall m: nat | GreatestStored(ids, prefix, m)
      ensures FreeAbove(ids, prefix, highest) <==> m == 0 || ToppedWithinPage(ids, prefix, m)
    {
      ResumesFreshIff(ids, prefix, highest, m);
    }
  }

  ghost predicate PrintedId(id: Id, prefix: string) {
    exists n: nat :: id == Format(prefix, n)
  }

  /** Only identifiers the counters print are stored in the family. */
  ghost predicate Printed(ids: seq<Id>, prefix: string) {
    forall id :: id in Matching(ids, prefix) ==> PrintedId(id, prefix)
  }

  lemma PrintedNumber(id: Id, prefix: string) returns (n: nat)
    requires PrintedId(id, prefix)
    ensures id == Format(prefix, n) && Number(id, prefix) == Some(n)
  {
    n :| id == Format(prefix, n);
    NumberOfFormat(prefix, n);
  }

  lemma GreatestBounds(ids: seq<Id>, prefix: string, m: nat, n: nat)
    requires GreatestStored(ids, prefix, m) && Format(prefix, n) in ids
    ensures n <= m
  {
  }

  lemma CarriesItsOwn(id: Id, prefix: string, m: nat, n: nat)
    requires id == Format(prefix, n) && Number(id, prefix) == Some(n) && Carries(id, prefix, m) && n <= m
    ensures id == Format(prefix, m)
  {
    assert n == m;
  }

  lemma OnlyTheGreatestCarries(ids: seq<Id>, prefix: string, m: nat, id: Id)
    requires PrintedId(id, prefix) && GreatestStored(ids, prefix, m)
    requires id in ids && Carries(id, prefix, m)
    ensures id == Format(prefix, m)
  {
    var n := PrintedNumber(id, prefix);
    GreatestBounds(ids, prefix, m, n);
    CarriesItsOwn(id, prefix, m, n);
  }

  /** When only printed identifiers are stored, that is the identifier of the greatest number. */
  lemma PrintedResumesFreshIff(ids: seq<Id>, prefix: string, highest: nat, m: nat)
    requires KnownPrefix(prefix) && DistinctKeys(ids, Self)
    requires Printed(ids, prefix) && GreatestStored(ids, prefix, m)
    requires HighestOn(Page(ids, prefix), prefix, highest)
    ensures FreeAbove(ids, prefix, highest) <==>
              m == 0 || |Above(ids, prefix, Format(prefix, m))| < SCAN_LIMIT
  {
    ResumesFreshIff(ids, prefix, highest, m);
    FormatInFamily(prefix, m);
    NumberOfFormat(prefix, m);
    forall id | id in Matching(ids, prefix) && Carries(id, prefix, m) ensures id == Format(prefix, m) {
      OnlyTheGreatestCarries(ids, prefix, m, id);
    }
  }

  // ---------------------------------------------------------------- where padding runs out

  function FirstIds(count: nat): (r: seq<Id>)
    ensures |r| == count && forall i :: 0 <= i < count ==> r[i] == Format(RUN_PREFIX, i + 1)
  {
    seq(count, i requires 0 <= i < count => Format(RUN_PREFIX, i + 1))
  }

  lemma FourDigits()
    ensures Padded(1000) == "1000"
  {
    ThreeDigits(100);
    assert Digits(1000) == Digits(100) + [Digit(0)];
  }

  /** In text order RUN-1000 comes before RUN-101 and everything up to RUN-999. */
  lemma ThousandSortsLow(n: nat)
    requires 101 <= n <= 999
    ensures Less(Format(RUN_PREFIX, 1000), Format(RUN_PREFIX, n))
  {
    FourDigits();
    ThreeDigits(n);
    ThreeDigitValue(n);
    var a, b := Padded(1000), Padded(n);
    LowerStart(a, b);
    PrefixKeepsOrder(RUN_PREFIX, a, b);
    FormatInjective(RUN_PREFIX, 1000, n);
  }

  lemma LowerStart(a: string, b: string)
    requires |a| == 4 && |b| == 3 && AllDigits(a) && AllDigits(b) && a == "1000"
    requires b[0] > '1' || (b[0] == '1' && (b[1] > '0' || (b[1] == '0' && b[2] > '0')))
    ensures Leq(a, b)
  {
    var a1, b1 := a[1..], b[1..];
    var a2, b2 := a1[1..], b1[1..];
    assert a[0] == '1' && a1[0] == '0' && a2[0] == '0';
    assert Leq(a, b) <==> a[0] < b[0] || (a[0] == b[0] && Leq(a1, b1));
    assert Leq(a1, b1) <==> a1[0] < b1[0] || (a1[0] == b1[0] && Leq(a2, b2));
  }

  /** The 899 identifiers RUN-101 to RUN-999. */
  function HighIds(): (r: seq<Id>)
    ensures |r| == 899 && forall i :: 0 <= i < 899 ==> r[i] == Format(RUN_PREFIX, i + 101)
  {
    seq(899, (i: nat) => Format(RUN_PREFIX, i + 101))
  }

  lemma HighIdsDistinct()
    ensures DistinctKeys(HighIds(), Self)
  {
    var ids := HighIds();
    forall i, j | 0 <= i < j < |ids| ensures Self(ids[i]) != Self(ids[j]) {
      FormatInjective(RUN_PREFIX, i + 101, j + 101);
    }
  }

  lemma HighIdsSortAbove(x: Id)
    requires x in HighIds()
    ensures Less(Format(RUN_PREFIX, 1000), x)
  {
    var i :| 0 <= i < |HighIds()| && HighIds()[i] == x;
    ThousandSortsLow(i + 101);
  }

  lemma FirstIdsHave(count: nat, n: nat)
    requires 1 <= n <= count
    ensures Format(RUN_PREFIX, n) in FirstIds(count)
  {
    assert FirstIds(count)[n - 1] == Format(RUN_PREFIX, n);
  }

  lemma FirstIdsMatch(count: nat)
    ensures forall id :: id in Matching(FirstIds(count), RUN_PREFIX) <==> id in FirstIds(count)
  {
    forall id | id in FirstIds(count) ensures InFamily(id, RUN_PREFIX) {
      var i :| 0 <= i < count && FirstIds(count)[i] == id;
      FormatInFamily(RUN_PREFIX, i + 1);
    }
  }

  lemma FirstIdNumber(count: nat, id: Id) returns (n: nat)
    requires id in FirstIds(count)
    ensures 1 <= n <= count && id == Format(RUN_PREFIX, n) && Number(id, RUN_PREFIX) == Some(n)
  {
    var i :| 0 <= i < count && FirstIds(count)[i] == id;
    n := i + 1;
    NumberOfFormat(RUN_PREFIX, n);
  }

  lemma FirstIdsMatching(count: nat, id: Id)
    requires id in FirstIds(count)
    ensures id in Matching(FirstIds(count), RUN_PREFIX)
  {
    FirstIdsMatch(count);
  }

  lemma FirstIdsDistinct(count: nat)
    ensures DistinctKeys(FirstIds(count), Self)
  {
    var ids := FirstIds(count);
    forall i, j | 0 <= i < j < |ids| ensures Self(ids[i]) != Self(ids[j]) {
      FormatInjective(RUN_PREFIX, i + 1, j + 1);
    }
  }

  lemma FirstIdsPrinted(count: nat)
    ensures Printed(FirstIds(count), RUN_PREFIX)
  {
    forall id | id in Matching(FirstIds(count), RUN_PREFIX) ensures PrintedId(id, RUN_PREFIX) {
      var n := FirstIdNumber(count, id);
      assert id == Format(RUN_PREFIX, n);
    }
  }

  lemma FirstIdsGreatest(count: nat)
    requires count > 0
    ensures GreatestStored(FirstIds(count), RUN_PREFIX, count)
  {
    FirstIdsHave(count, count);
    forall n: nat | Format(RUN_PREFIX, n) in FirstIds(count) ensures n <= count {
      FirstIdsBound(count, n);
    }
  }

  lemma FirstIdsBound(count: nat, n: nat)
    requires Format(RUN_PREFIX, n) in FirstIds(count)
    ensures n <= count
  {
    var m := FirstIdNumber(count, Format(RUN_PREFIX, n));
    NumberOfFormat(RUN_PREFIX, n);
  }

  lemma HighIdIsAbove(count: nat, x: Id)
    requires count == 1000 && x in HighIds()
    ensures x in Above(FirstIds(count), RUN_PREFIX, Format(RUN_PREFIX, 1000))
  {
    HighIdsSortAbove(x);
    var i :| 0 <= i < 899 && HighIds()[i] == x;
    FirstIdsHave(count, i + 101);
    FirstIdsMatching(count, x);
  }

  /** RUN-101 to RUN-999 all come after RUN-1000 in text order. */
  lemma ManyAboveThousand(count: nat)
    requires count == 1000
    ensures |Above(FirstIds(count), RUN_PREFIX, Format(RUN_PREFIX, 1000))| >= 899
  {
    HighIdsDistinct();
    DistinctSize(HighIds());
    var high := set x | x in HighIds();
    forall x | x in high ensures x in Above(FirstIds(count), RUN_PREFIX, Format(RUN_PREFIX, 1000)) {
      HighIdIsAbove(count, x);
    }
    SubsetSize(high, Above(FirstIds(count), RUN_PREFIX, Format(RUN_PREFIX, 1000)));
  }

  lemma ThousandCollides(count: nat, highest: nat)
    requires count == 1000 && HighestOn(Page(FirstIds(count), RUN_PREFIX), RUN_PREFIX, highest)
    ensures highest < count
  {
    FirstIdsDistinct(count);
    FirstIdsPrinted(count);
    FirstIdsGreatest(count);
    ManyAboveThousand(count);
    PrintedResumesFreshIff(FirstIds(count), RUN_PREFIX, highest, count);
    FreeAboveIsHighest(FirstIds(count), RUN_PREFIX, highest, count);
  }

  /** Beyond both limits it fails: with RUN-001 to RUN-1000 stored more than a page comes after
      RUN-1000 in text order, and the next identifier is one of the stored. */
  lemma PaddingRunsOut(highest: nat)
    requires HighestOn(Page(FirstIds(1000), RUN_PREFIX), RUN_PREFIX, highest)
    ensures |Above(FirstIds(1000), RUN_PREFIX, Format(RUN_PREFIX, 1000))| > SCAN_LIMIT
    ensures Format(RUN_PREFIX, highest + 1) in FirstIds(1000)
  {
    ManyAboveThousand(1000);
    ThousandCollides(1000, highest);
    FirstIdsHave(1000, highest + 1);
  }

  // ---------------------------------------------------------------- the counter

  /** One family's counter. It is empty after a restart and resumes on first use. */
  class Counter {
    const prefix: string
    var current: Option<nat>

    constructor (prefix: string)
      ensures this.prefix == prefix && current == None
    {
      this.prefix := prefix;
      current := None;
    }

    /** No identifier above the counter is stored. */
    ghost predicate Ahead(ids: seq<Id>)
      reads this
    {
      current.Some? && FreeAbove(ids, prefix, current.value)
    }

    /** The next identifier is new, and stays so for the ones after it. On first use that is so
        exactly when the greatest stored number has fewer than a page of others after it. */
    method Next(stored: Option<seq<Id>>) returns (id: Id)
      modifies this
      ensures current.Some? && id == Format(prefix, current.value)
      ensures old(current).Some? ==> current.value == old(current).value + 1
      ensures stored.None? && old(current).None? ==> current.value == 1
      ensures forall ids :: old(Ahead(ids)) ==> id !in ids && Ahead(ids + [id])
      ensures old(current).None? && stored.Some? ==> Resumed(stored.value, id)
    {
      if current.None? {
        var highest := HighestSequence(stored, prefix);
        current := Some(highest);
        id := Advance();
        if stored.Some? {
          ResumeFacts(stored.value, highest, id);
        }
      } else {
        id := Advance();
      }
    }

    /** What the first identifier after a restart is worth. */
    ghost predicate Resumed(ids: seq<Id>, id: Id)
      reads this
    {
      && current.Some? && current.value > 0
      && HighestOn(Page(ids, prefix), prefix, current.value - 1)
      && (FreeAbove(ids, prefix, current.value - 1) ==> id !in ids && Ahead(ids + [id]))
      && (DistinctKeys(ids, Self) ==> FreshExactly(ids, prefix, current.value - 1))
    }

    lemma AboveIsFree(ids: seq<Id>, highest: nat, id: Id)
      requires current == Some(highest + 1) && id == Format(prefix, highest + 1)
      ensures FreeAbove(ids, prefix, highest) ==> id !in ids && Ahead(ids + [id])
    {
      forall n: nat | n > highest + 1 ensures Format(prefix, n) != id {
        FormatInjective(prefix, n, highest + 1);
      }
    }

    lemma ResumeFacts(ids: seq<Id>, highest: nat, id: Id)
      requires current == Some(highest + 1) && id == Format(prefix, highest + 1)
      requires HighestOn(Page(ids, prefix), prefix, highest)
      ensures Resumed(ids, id)
    {
      AboveIsFree(ids, highest, id);
      if DistinctKeys(ids, Self) {
        ResumesFreshExactly(ids, prefix, highest);
      }
    }

    method Advance() returns (id: Id)
      requires current.Some?
      modifies this
      ensures current == Some(old(current).value + 1) && id == Format(prefix, current.value)
      ensures forall ids :: old(Ahead(ids)) ==> id !in ids && Ahead(ids + [id])
    {
      current := Some(current.value + 1);
      id := Format(prefix, current.value);
      forall n: nat | n > current.value ensures Format(prefix, n) != id {
        FormatInjective(prefix, n, current.value);
      }
    }
  }

  // ---------------------------------------------------------------- printed identifiers

  /** Numbers are printed with at least three digits. */
  lemma IdentifiersRead()
    ensures Format(SCENARIO_PREFIX, 1) == "SCN-001" && Format(RUN_PREFIX, 42) == "RUN-042"
    ensures Format(ALTERNATIVE_SCENARIO_PREFIX, 999) == "SCN-ALT-999"
    ensures Format(ALTERNATIVE_RUN_PREFIX, 7) == "RUN-ALT-007" && Format(RUN_PREFIX, 1000) == "RUN-1000"
  {
    ThreeDigits(1);
    ThreeDigits(42);
    ThreeDigits(999);
    ThreeDigits(7);
    FourDigits();
  }
}
