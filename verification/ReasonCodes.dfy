/** Reason codes, their families and the choice of the one code an operator is shown. */
module ReasonCodes {
  import opened Ordering

  datatype Code =
    | MissingRequiredField
    | InvalidTimeRange
    | ReadyAfterCutoff
    | DueTimeExceeded
    | TerminalNotCompatible
    | TerminalNotOnServiceRoute
    | TunnelHeightExceeded
    | RouteWidthExceeded
    | RouteWeightExceeded
    | SlotHeightExceeded
    | SlotWidthExceeded
    | SlotLengthExceeded
    | SlotWeightExceeded
    | WagonWeightExceeded
    | ServiceUnavailable
    | WagonUnavailable
    | SlotUnavailable
    | SlotTagNotSupported
    | NoEligibleSlot
    | CapacityConflict
    | AlternativeAvailable
    | AlternativeRequiresForbiddenChange
    | AlternativeNotRequired
    | NoFeasibleAlternative

  /** The published spelling of a code. */
  function Text(c: Code): string {
    match c
    case MissingRequiredField => "MISSING_REQUIRED_FIELD"
    case InvalidTimeRange => "INVALID_TIME_RANGE"
    case ReadyAfterCutoff => "READY_AFTER_CUTOFF"
    case DueTimeExceeded => "DUE_TIME_EXCEEDED"
    case TerminalNotCompatible => "TERMINAL_NOT_" + "COMPATIBLE"
    case TerminalNotOnServiceRoute => "TERMINAL_NOT_" + "ON_SERVICE_ROUTE"
    case TunnelHeightExceeded => "TUNNEL_HEIGHT_EXCEEDED"
    case RouteWidthExceeded => "ROUTE_" + "WIDTH_EXCEEDED"
    case RouteWeightExceeded => "ROUTE_" + "WEIGHT_EXCEEDED"
    case SlotHeightExceeded => "SLOT_" + "HEIGHT_EXCEEDED"
    case SlotWidthExceeded => "SLOT_" + "WIDTH_EXCEEDED"
    case SlotLengthExceeded => "SLOT_" + "LENGTH_EXCEEDED"
    case SlotWeightExceeded => "SLOT_" + "WEIGHT_EXCEEDED"
    case WagonWeightExceeded => "WAGON_" + "WEIGHT_EXCEEDED"
    case ServiceUnavailable => "SERVICE_UNAVAILABLE"
    case WagonUnavailable => "WAGON_" + "UNAVAILABLE"
    case SlotUnavailable => "SLOT_" + "UNAVAILABLE"
    case SlotTagNotSupported => "SLOT_" + "TAG_NOT_SUPPORTED"
    case NoEligibleSlot => "NO_ELIGIBLE_SLOT"
    case CapacityConflict => "CAPACITY_CONFLICT"
    case AlternativeAvailable => "ALTERNATIVE_" + "AVAILABLE"
    case AlternativeRequiresForbiddenChange => "ALTERNATIVE_" + "REQUIRES_FORBIDDEN_CHANGE"
    case AlternativeNotRequired => "ALTERNATIVE_" + "NOT_REQUIRED"
    case NoFeasibleAlternative => "NO_FEASIBLE_ALTERNATIVE"
  }

  /** Every code, in text order of its spelling. */
  const ALPHABETICAL: seq<Code> := [
    AlternativeAvailable, AlternativeNotRequired, AlternativeRequiresForbiddenChange,
    CapacityConflict, DueTimeExceeded, InvalidTimeRange,
    MissingRequiredField, NoEligibleSlot, NoFeasibleAlternative,
    ReadyAfterCutoff, RouteWeightExceeded, RouteWidthExceeded,
    ServiceUnavailable, SlotHeightExceeded, SlotLengthExceeded,
    SlotTagNotSupported, SlotUnavailable, SlotWeightExceeded,
    SlotWidthExceeded, TerminalNotCompatible, TerminalNotOnServiceRoute,
    TunnelHeightExceeded, WagonUnavailable, WagonWeightExceeded
  ]

  /** Family precedence; a lower number wins. */
  function Family(c: Code): nat {
    match c
    case MissingRequiredField | InvalidTimeRange => 0
    case ReadyAfterCutoff | DueTimeExceeded => 1
    case TerminalNotCompatible | TerminalNotOnServiceRoute => 2
    case TunnelHeightExceeded | RouteWidthExceeded | RouteWeightExceeded => 3
    case SlotHeightExceeded | SlotWidthExceeded | SlotLengthExceeded | SlotWeightExceeded | WagonWeightExceeded => 3
    case ServiceUnavailable | WagonUnavailable | SlotUnavailable | SlotTagNotSupported | NoEligibleSlot => 4
    case CapacityConflict => 5
    case AlternativeAvailable | AlternativeRequiresForbiddenChange | AlternativeNotRequired | NoFeasibleAlternative => 6
  }

  /** Precedence between codes: family first, spelling inside a family. */
  predicate Precedes(a: Code, b: Code) {
    Family(a) < Family(b) || (Family(a) == Family(b) && Leq(Text(a), Text(b)))
  }

  /** The code shown to the operator: `min` by (family, spelling). */
  function SelectPrimary(codes: seq<Code>): (primary: Option<Code>)
    ensures primary.Some? ==> primary.value in codes
  {
    if codes == [] then None
    else
      match SelectPrimary(codes[..|codes| - 1])
      case None => Some(codes[|codes| - 1])
      case Some(best) =>
        var last := codes[|codes| - 1];
        if Precedes(best, last) then Some(best) else Some(last)
  }

  // ---------------------------------------------------------------- spelling order

  lemma FirstDifference(a: string, b: string, k: nat)
    requires k < |a| && k < |b| && a[..k] == b[..k] && a[k] < b[k]
    ensures Less(a, b)
    decreases k
  {
    if k > 0 {
      assert a[0] == a[..k][0] == b[..k][0] == b[0];
      assert a[1..][..k - 1] == a[..k][1..] == b[..k][1..] == b[1..][..k - 1];
      FirstDifference(a[1..], b[1..], k - 1);
    }
  }

  /** Where a code stands in the alphabetical list. */
  function Position(c: Code): (i: nat)
    ensures i < 24 && ALPHABETICAL[i] == c
  {
    match c
    case AlternativeAvailable => 0
    case AlternativeNotRequired => 1
    case AlternativeRequiresForbiddenChange => 2
    case CapacityConflict => 3
    case DueTimeExceeded => 4
    case InvalidTimeRange => 5
    case MissingRequiredField => 6
    case NoEligibleSlot => 7
    case NoFeasibleAlternative => 8
    case ReadyAfterCutoff => 9
    case RouteWeightExceeded => 10
    case RouteWidthExceeded => 11
    case ServiceUnavailable => 12
    case SlotHeightExceeded => 13
    case SlotLengthExceeded => 14
    case SlotTagNotSupported => 15
    case SlotUnavailable => 16
    case SlotWeightExceeded => 17
    case SlotWidthExceeded => 18
    case TerminalNotCompatible => 19
    case TerminalNotOnServiceRoute => 20
    case TunnelHeightExceeded => 21
    case WagonUnavailable => 22
    case WagonWeightExceeded => 23
  }

  /** The next code in spelling order. */
  function Next(c: Code): Code
    requires c != WagonWeightExceeded
  {
    match c
    case AlternativeAvailable => AlternativeNotRequired
    case AlternativeNotRequired => AlternativeRequiresForbiddenChange
    case AlternativeRequiresForbiddenChange => CapacityConflict
    case CapacityConflict => DueTimeExceeded
    case DueTimeExceeded => InvalidTimeRange
    case InvalidTimeRange => MissingRequiredField
    case MissingRequiredField => NoEligibleSlot
    case NoEligibleSlot => NoFeasibleAlternative
    case NoFeasibleAlternative => ReadyAfterCutoff
    case ReadyAfterCutoff => RouteWeightExceeded
    case RouteWeightExceeded => RouteWidthExceeded
    case RouteWidthExceeded => ServiceUnavailable
    case ServiceUnavailable => SlotHeightExceeded
    case SlotHeightExceeded => SlotLengthExceeded
    case SlotLengthExceeded => SlotTagNotSupported
    case SlotTagNotSupported => SlotUnavailable
    case SlotUnavailable => SlotWeightExceeded
    case SlotWeightExceeded => SlotWidthExceeded
    case SlotWidthExceeded => TerminalNotCompatible
    case TerminalNotCompatible => TerminalNotOnServiceRoute
    case TerminalNotOnServiceRoute => TunnelHeightExceeded
    case TunnelHeightExceeded => WagonUnavailable
    case WagonUnavailable => WagonWeightExceeded
  }

  /** Where a spelling and the next one first differ. */
  function Difference(c: Code): nat {
    match c
    case AlternativeAvailable => 12
    case AlternativeNotRequired => 12
    case NoEligibleSlot => 3
    case ReadyAfterCutoff => 1
    case RouteWeightExceeded => 7
    case ServiceUnavailable => 1
    case SlotHeightExceeded => 5
    case SlotLengthExceeded => 5
    case SlotTagNotSupported => 5
    case SlotUnavailable => 5
    case SlotWeightExceeded => 6
    case TerminalNotCompatible => 13
    case TerminalNotOnServiceRoute => 1
    case WagonUnavailable => 6
    case _ => 0
  }

  predicate SpellingsDiffer(c: Code)
    requires c != WagonWeightExceeded
  {
    var a, b, k := Text(c), Text(Next(c)), Difference(c);
    k < |a| && k < |b| && a[..k] == b[..k] && a[k] < b[k]
  }

  lemma SpellingsDiffer0(c: Code)
    requires 0 <= Position(c) < 3
    ensures SpellingsDiffer(c)
  {
    if c == AlternativeAvailable {
      assert Text(c)[..12] == "ALTERNATIVE_" == Text(Next(c))[..12];
      assert Text(c)[12] == 'A' && Text(Next(c))[12] == 'N';
    } else if c == AlternativeNotRequired {
      assert Text(c)[..12] == "ALTERNATIVE_" == Text(Next(c))[..12];
      assert Text(c)[12] == 'N' && Text(Next(c))[12] == 'R';
    }
  }

  lemma SpellingsDiffer1(c: Code)
    requires 3 <= Position(c) < 6
    ensures SpellingsDiffer(c)
  {
  }

  lemma SpellingsDiffer2(c: Code)
    requires 6 <= Position(c) < 9
    ensures SpellingsDiffer(c)
  {
    if c == NoEligibleSlot {
      assert Text(c)[..3] == "NO_" == Text(Next(c))[..3];
      assert Text(c)[3] == 'E' && Text(Next(c))[3] == 'F';
    }
  }

  lemma SpellingsDiffer3(c: Code)
    requires 9 <= Position(c) < 12
    ensures SpellingsDiffer(c)
  {
    if c == ReadyAfterCutoff {
      assert Text(c)[..1] == "R" == Text(Next(c))[..1];
      assert Text(c)[1] == 'E' && Text(Next(c))[1] == 'O';
    } else if c == RouteWeightExceeded {
      assert Text(c)[..7] == "ROUTE_W" == Text(Next(c))[..7];
      assert Text(c)[7] == 'E' && Text(Next(c))[7] == 'I';
    }
  }

  lemma SpellingsDiffer4(c: Code)
    requires 12 <= Position(c) < 15
    ensures SpellingsDiffer(c)
  {
    if c == ServiceUnavailable {
      assert Text(c)[..1] == "S" == Text(Next(c))[..1];
      assert Text(c)[1] == 'E' && Text(Next(c))[1] == 'L';
    } else if c == SlotHeightExceeded {
      assert Text(c)[..5] == "SLOT_" == Text(Next(c))[..5];
      assert Text(c)[5] == 'H' && Text(Next(c))[5] == 'L';
    } else if c == SlotLengthExceeded {
      assert Text(c)[..5] == "SLOT_" == Text(Next(c))[..5];
      assert Text(c)[5] == 'L' && Text(Next(c))[5] == 'T';
    }
  }

  lemma SpellingsDiffer5(c: Code)
    requires 15 <= Position(c) < 18
    ensures SpellingsDiffer(c)
  {
    if c == SlotTagNotSupported {
      assert Text(c)[..5] == "SLOT_" == Text(Next(c))[..5];
      assert Text(c)[5] == 'T' && Text(Next(c))[5] == 'U';
    } else if c == SlotUnavailable {
      assert Text(c)[..5] == "SLOT_" == Text(Next(c))[..5];
      assert Text(c)[5] == 'U' && Text(Next(c))[5] == 'W';
    } else if c == SlotWeightExceeded {
      assert Text(c)[..6] == "SLOT_W" == Text(Next(c))[..6];
      assert Text(c)[6] == 'E' && Text(Next(c))[6] == 'I';
    }
  }

  lemma SpellingsDiffer6(c: Code)
    requires 18 <= Position(c) < 21
    ensures SpellingsDiffer(c)
  {
    if c == TerminalNotCompatible {
      assert Text(c)[..13] == "TERMINAL_NOT_" == Text(Next(c))[..13];
      assert Text(c)[13] == 'C' && Text(Next(c))[13] == 'O';
    } else if c == TerminalNotOnServiceRoute {
      assert Text(c)[..1] == "T" == Text(Next(c))[..1];
      assert Text(c)[1] == 'E' && Text(Next(c))[1] == 'U';
    }
  }

  lemma SpellingsDiffer7(c: Code)
    requires 21 <= Position(c) < 23
    ensures SpellingsDiffer(c)
  {
    if c == WagonUnavailable {
      assert Text(c)[..6] == "WAGON_" == Text(Next(c))[..6];
      assert Text(c)[6] == 'U' && Text(Next(c))[6] == 'W';
    }
  }

  lemma Neighbours(c: Code)
    requires c != WagonWeightExceeded
    ensures Less(Text(c), Text(Next(c)))
  {
    if Position(c) < 3 {
      SpellingsDiffer0(c);
    } else if Position(c) < 6 {
      SpellingsDiffer1(c);
    } else if Position(c) < 9 {
      SpellingsDiffer2(c);
    } else if Position(c) < 12 {
      SpellingsDiffer3(c);
    } else if Position(c) < 15 {
      SpellingsDiffer4(c);
    } else if Position(c) < 18 {
      SpellingsDiffer5(c);
    } else if Position(c) < 21 {
      SpellingsDiffer6(c);
    } else {
      SpellingsDiffer7(c);
    }
    FirstDifference(Text(c), Text(Next(c)), Difference(c));
  }

  lemma {:induction false} AlphabeticalOrder(a: Code, b: Code)
    requires Position(a) < Position(b)
    ensures Less(Text(a), Text(b))
    decreases Position(b) - Position(a)
  {
    Neighbours(a);
    if Next(a) != b {
      AlphabeticalOrder(Next(a), b);
      LessTransitive(Text(a), Text(Next(a)), Text(b));
    }
  }

  lemma TextInjective(a: Code, b: Code)
    requires Text(a) == Text(b)
    ensures a == b
  {
    if Position(a) < Position(b) {
      AlphabeticalOrder(a, b);
    } else if Position(b) < Position(a) {
      AlphabeticalOrder(b, a);
    }
  }

  // ---------------------------------------------------------------- the primary code

  lemma {:induction false} PrimaryIsLeast(codes: seq<Code>)
    ensures SelectPrimary(codes).None? <==> codes == []
    ensures codes != [] ==>
              var p := SelectPrimary(codes).value;
              p in codes && forall c :: c in codes ==> Precedes(p, c)
    decreases |codes|
  {
    if codes != [] {
      var front, last := codes[..|codes| - 1], codes[|codes| - 1];
      assert codes == front + [last];
      PrimaryIsLeast(front);
      LeqReflexive(Text(last));
      if front != [] {
        var best := SelectPrimary(front).value;
        LeqTotal(Text(best), Text(last));
        forall c | c in front ensures Precedes(SelectPrimary(codes).value, c) {
          if !Precedes(best, last) && Family(last) == Family(best) == Family(c) {
            LeqTransitive(Text(last), Text(best), Text(c));
          }
        }
      }
    }
  }

  /** The choice depends only on which codes are present, not on their order or repeats. */
  lemma PrimaryIgnoresOrder(a: seq<Code>, b: seq<Code>)
    requires forall c :: c in a <==> c in b
    ensures SelectPrimary(a) == SelectPrimary(b)
  {
    PrimaryIsLeast(a);
    PrimaryIsLeast(b);
    assert a != [] ==> a[0] in b;
    assert b != [] ==> b[0] in a;
    if a != [] {
      var p, q := SelectPrimary(a).value, SelectPrimary(b).value;
      LeqAntisymmetric(Text(p), Text(q));
      TextInjective(p, q);
    }
  }

  // ---------------------------------------------------------------- the primary code, group by group

  const INPUT: set<Code> := {MissingRequiredField, InvalidTimeRange}
  const TIME: set<Code> := {ReadyAfterCutoff, DueTimeExceeded}
  const TERMINAL: set<Code> := {TerminalNotCompatible, TerminalNotOnServiceRoute}
  const SIZE: set<Code> := {
    TunnelHeightExceeded, RouteWidthExceeded, RouteWeightExceeded, SlotHeightExceeded, SlotWidthExceeded,
    SlotLengthExceeded, SlotWeightExceeded, WagonWeightExceeded}
  const RESOURCE: set<Code> := {
    ServiceUnavailable, WagonUnavailable, SlotUnavailable, SlotTagNotSupported, NoEligibleSlot}
  const CAPACITY: set<Code> := {CapacityConflict}
  const ALTERNATIVE: set<Code> := {
    AlternativeAvailable, AlternativeRequiresForbiddenChange, AlternativeNotRequired, NoFeasibleAlternative}

  ghost predicate Names(codes: seq<Code>, group: set<Code>) {
    exists c :: c in codes && c in group
  }

  /** The code of the group that is listed and comes first in text order. */
  ghost predicate FirstOf(codes: seq<Code>, group: set<Code>, p: Code) {
    p in codes && p in group && forall c :: c in codes && c in group ==> Leq(Text(p), Text(c))
  }

  /** Input before time before terminal before size and weight before resources before capacity
      before alternatives, and the first in text order inside the group. */
  ghost predicate Leads(codes: seq<Code>, p: Code) {
    if Names(codes, INPUT) then FirstOf(codes, INPUT, p)
    else if Names(codes, TIME) then FirstOf(codes, TIME, p)
    else if Names(codes, TERMINAL) then FirstOf(codes, TERMINAL, p)
    else if Names(codes, SIZE) then FirstOf(codes, SIZE, p)
    else if Names(codes, RESOURCE) then FirstOf(codes, RESOURCE, p)
    else if Names(codes, CAPACITY) then FirstOf(codes, CAPACITY, p)
    else FirstOf(codes, ALTERNATIVE, p)
  }

  lemma FamilyIsGroup(c: Code)
    ensures Family(c) == 0 <==> c in INPUT
    ensures Family(c) == 1 <==> c in TIME
    ensures Family(c) == 2 <==> c in TERMINAL
    ensures Family(c) == 3 <==> c in SIZE
    ensures Family(c) == 4 <==> c in RESOURCE
    ensures Family(c) == 5 <==> c in CAPACITY
    ensures Family(c) == 6 <==> c in ALTERNATIVE
    ensures Family(c) <= 6
  {
  }

  lemma LeastOfGroup(codes: seq<Code>, p: Code, group: set<Code>, n: nat)
    requires p in codes && forall c :: c in codes ==> Precedes(p, c)
    requires forall c :: c in group <==> Family(c) == n
    ensures Family(p) == n ==> FirstOf(codes, group, p)
    ensures Family(p) > n ==> !Names(codes, group)
    ensures Family(p) == n ==> Names(codes, group)
  {
  }

  /** The code shown is the leading one. */
  lemma PrimaryLeads(codes: seq<Code>)
    requires codes != []
    ensures SelectPrimary(codes).Some? && Leads(codes, SelectPrimary(codes).value)
  {
    PrimaryIsLeast(codes);
    var p := SelectPrimary(codes).value;
    forall c {
      FamilyIsGroup(c);
    }
    LeastOfGroup(codes, p, INPUT, 0);
    LeastOfGroup(codes, p, TIME, 1);
    LeastOfGroup(codes, p, TERMINAL, 2);
    LeastOfGroup(codes, p, SIZE, 3);
    LeastOfGroup(codes, p, RESOURCE, 4);
    LeastOfGroup(codes, p, CAPACITY, 5);
    LeastOfGroup(codes, p, ALTERNATIVE, 6);
  }

  lemma PositionInjective(a: Code, b: Code)
    requires Position(a) == Position(b)
    ensures a == b
  {
    assert ALPHABETICAL[Position(a)] == ALPHABETICAL[Position(b)];
  }

  /** The code spelled first. */
  function FirstSpelled(codes: set<Code>): (c: Code)
    requires codes != {}
    ensures c in codes && forall d :: d in codes ==> Position(c) <= Position(d)
  {
    LeastRank(codes, Position);
    assert forall c, d :: Position(c) == Position(d) ==> c == d by {
      forall c, d | Position(c) == Position(d) ensures c == d {
        PositionInjective(c, d);
      }
    }
    var c :| c in codes && forall d :: d in codes ==> Position(c) <= Position(d);
    c
  }

  /** `sorted(codes)` for a set of codes. */
  function SortedCodes(codes: set<Code>): (r: seq<Code>)
    ensures forall c :: c in r <==> c in codes
    ensures r == [] <==> codes == {}
    decreases |codes|
  {
    if codes == {} then []
    else
      var c := FirstSpelled(codes);
      [c] + SortedCodes(codes - {c})
  }

  /** The list is in text order of the spellings, without repeats. */
  lemma {:induction false} SortedCodesAscend(codes: set<Code>)
    ensures StrictlyIncreasing(SortedCodes(codes), Text)
    decreases |codes|
  {
    if codes != {} {
      var c := FirstSpelled(codes);
      SortedCodesAscend(codes - {c});
      forall d | d in codes - {c} ensures Less(Text(c), Text(d)) {
        if Position(c) == Position(d) {
          PositionInjective(c, d);
        }
        AlphabeticalOrder(c, d);
      }
    }
  }
}
