/** The static checks behind suggested adjustments, and what they predict about the search. */
module Suggestions {
  import opened Ordering
  import opened ReasonCodes
  import opened Snapshots
  import opened Eligibility
  import opened GateProperties
  import opened Plans
  import opened AssignmentModel
  import opened BaselineSolve
  import opened Listing
  import opened PlanValidator
  import opened Agreement
  import opened Planning
  import opened ChangeSets
  import opened DerivedScenario
  import opened Alternatives

  /** Why a suggestion is made: both changes at once, the one aimed at the shown code, any of
      them, or in generated words. */
  datatype Advice = Together | AimedAt(adjustment: Adjustment) | OneByOne | Composed(text: string)

  datatype Suggestion = Suggestion(types: seq<Adjustment>, advice: Advice)

  /** A generated suggestion, and whether the guard against invented claims let its words by. */
  datatype Idea = Idea(order: Id, types: seq<Adjustment>, text: string, grounded: bool)

  function PermittedTypes(o: Order): (types: seq<Adjustment>)
    ensures forall t :: t in types <==> Permitted(o, t)
  {
    (if o.window.Some? && o.window.value.services != [] then [AddOrderApprovedService] else [])
    + (if o.window.Some? && o.window.value.destinationTerminals != [] then [ChangeToApprovedTerminal] else [])
  }

  /** The change types the order's own window has something for. */
  method PermittedAdjustments(o: Order) returns (types: seq<Adjustment>)
    ensures types == PermittedTypes(o)
    ensures forall t :: t in types <==> Permitted(o, t)
  {
    types := [];
    if o.window.Some? && o.window.value.services != [] {
      types := types + [AddOrderApprovedService];
    }
    if o.window.Some? && o.window.value.destinationTerminals != [] {
      types := types + [ChangeToApprovedTerminal];
    }
  }

  predicate Permitted(o: Order, t: Adjustment) {
    && o.window.Some?
    && ((t == AddOrderApprovedService && o.window.value.services != [])
        || (t == ChangeToApprovedTerminal && o.window.value.destinationTerminals != []))
  }

  /** No baseline service runs to any approved destination. */
  predicate NeedsPairing(o: Order, s: Snapshot) {
    && o.window.Some? && o.window.value.destinationTerminals != []
    && forall v :: v in s.services && v.id in s.baselineServices ==>
         v.destinationTerminal !in o.window.value.destinationTerminals
  }

  // ---------------------------------------------------------------- what is suggested

  /** Which change speaks to which failure. */
  function PreferredFor(shown: Shown): Option<Adjustment> {
    match shown
    case Because(ReadyAfterCutoff) => Some(AddOrderApprovedService)
    case Because(DueTimeExceeded) => Some(AddOrderApprovedService)
    case Because(CapacityConflict) => Some(AddOrderApprovedService)
    case Because(ServiceUnavailable) => Some(AddOrderApprovedService)
    case Because(SlotUnavailable) => Some(AddOrderApprovedService)
    case Because(WagonUnavailable) => Some(AddOrderApprovedService)
    case Because(TerminalNotCompatible) => Some(ChangeToApprovedTerminal)
    case Because(TerminalNotOnServiceRoute) => Some(ChangeToApprovedTerminal)
    case Because(TunnelHeightExceeded) => Some(ChangeToApprovedTerminal)
    case Because(RouteWidthExceeded) => Some(ChangeToApprovedTerminal)
    case Because(RouteWeightExceeded) => Some(ChangeToApprovedTerminal)
    case _ => None
  }

  /** The suggestion computed without any generated words. */
  function TemplateFor(s: Snapshot, o: Order, shown: Shown): Suggestion {
    var permitted := PermittedTypes(o);
    if NeedsPairing(o, s) && AddOrderApprovedService in permitted && ChangeToApprovedTerminal in permitted then
      Suggestion([ChangeToApprovedTerminal, AddOrderApprovedService], Together)
    else
      match PreferredFor(shown)
      case Some(t) => if t in permitted then Suggestion([t], AimedAt(t)) else Suggestion(permitted, OneByOne)
      case None => Suggestion(permitted, OneByOne)
  }

  /** A valid order the plan left out, with something approved to try. */
  predicate Negotiable(s: Snapshot, x: OrderOutcome) {
    && x.inputState == Valid && x.assignmentState != Assigned
    && x.order in OrderTable(s) && PermittedTypes(OrderTable(s)[x.order]) != []
  }

  /** The listed types that are permitted. */
  function Within(o: Order, types: seq<Adjustment>): (r: seq<Adjustment>)
    ensures forall t :: t in r <==> t in types && Permitted(o, t)
  {
    if types == [] then []
    else
      var last := types[|types| - 1];
      assert types == types[..|types| - 1] + [last];
      Within(o, types[..|types| - 1]) + (if Permitted(o, last) then [last] else [])
  }

  /** The idea is for this order, asks for something permitted and is in order. */
  predicate Takes(o: Order, order: Id, idea: Idea) {
    idea.order == order && Within(o, idea.types) != [] && idea.grounded
  }

  /** The last idea the order takes. */
  function LastIdea(o: Order, order: Id, ideas: seq<Idea>): (r: Option<Idea>)
    ensures r.Some? ==> Takes(o, order, r.value)
  {
    if ideas == [] then None
    else if Takes(o, order, ideas[|ideas| - 1]) then Some(ideas[|ideas| - 1])
    else LastIdea(o, order, ideas[..|ideas| - 1])
  }

  /** An order that needs pairing keeps the computed suggestion; any other has the last idea
      it takes. */
  function SuggestionFor(s: Snapshot, x: OrderOutcome, ideas: seq<Idea>): Suggestion
    requires Negotiable(s, x)
  {
    var o := OrderTable(s)[x.order];
    if NeedsPairing(o, s) then TemplateFor(s, o, x.primary)
    else
      match LastIdea(o, x.order, ideas)
      case Some(idea) => Suggestion(Within(o, idea.types), Composed(idea.text))
      case None => TemplateFor(s, o, x.primary)
  }

  function SuggestedTo(s: Snapshot, x: OrderOutcome, ideas: seq<Idea>): Option<Suggestion> {
    if Negotiable(s, x) then Some(SuggestionFor(s, x, ideas)) else None
  }

  /** The outcomes of orders that are negotiable; a repeated order keeps its last. */
  method Candidates(s: Snapshot, outcomes: seq<OrderOutcome>) returns (found: map<Id, OrderOutcome>)
    ensures forall id :: id in found ==> found[id] in outcomes && found[id].order == id && Negotiable(s, found[id])
    ensures forall x :: x in outcomes && Negotiable(s, x) ==> x.order in found
  {
    found := map[];
    var orders := OrderTable(s);
    for n := 0 to |outcomes|
      invariant forall id :: id in found ==> found[id] in outcomes && found[id].order == id && Negotiable(s, found[id])
      invariant forall i :: 0 <= i < n && Negotiable(s, outcomes[i]) ==> outcomes[i].order in found
    {
      var x := outcomes[n];
      if x.inputState == Valid && x.assignmentState != Assigned && x.order in orders {
        var permitted := PermittedAdjustments(orders[x.order]);
        if permitted != [] {
          found := found[x.order := x];
        }
      }
    }
  }

  /** What has become of the suggestions once these ideas are read. */
  ghost predicate SuggestedFrom(s: Snapshot, found: map<Id, OrderOutcome>, ideas: seq<Idea>,
                                suggestions: map<Id, Suggestion>) {
    && suggestions.Keys == found.Keys
    && forall id :: id in found ==>
         found[id].order == id && Negotiable(s, found[id]) && suggestions[id] == SuggestionFor(s, found[id], ideas)
  }

  /** The idea replaces the order's suggestion. */
  predicate Replaces(s: Snapshot, order: Id, idea: Idea)
    requires order in OrderTable(s)
  {
    Takes(OrderTable(s)[order], order, idea) && !NeedsPairing(OrderTable(s)[order], s)
  }

  function ByIdea(s: Snapshot, idea: Idea): Suggestion
    requires idea.order in OrderTable(s)
  {
    Suggestion(Within(OrderTable(s)[idea.order], idea.types), Composed(idea.text))
  }

  lemma OneMoreIdea(s: Snapshot, x: OrderOutcome, ideas: seq<Idea>, n: nat)
    requires n < |ideas| && Negotiable(s, x)
    ensures SuggestionFor(s, x, ideas[..n + 1])
         == if Replaces(s, x.order, ideas[n]) then ByIdea(s, ideas[n]) else SuggestionFor(s, x, ideas[..n])
  {
    assert ideas[..n + 1][..n] == ideas[..n];
  }

  /** Reads one idea. An order that needs pairing is given its template again. */
  method ReadIdea(s: Snapshot, found: map<Id, OrderOutcome>, ghost ideas: seq<Idea>, ghost n: nat, idea: Idea,
                  before: map<Id, Suggestion>)
    returns (after: map<Id, Suggestion>)
    requires n < |ideas| && idea == ideas[n] && SuggestedFrom(s, found, ideas[..n], before)
    ensures SuggestedFrom(s, found, ideas[..n + 1], after)
  {
    after := before;
    if idea.order in found {
      var o := OrderTable(s)[idea.order];
      var chosen := Within(o, idea.types);
      if chosen != [] && idea.grounded {
        if NeedsPairing(o, s) {
          after := before[idea.order := TemplateFor(s, o, found[idea.order].primary)];
        } else {
          after := before[idea.order := Suggestion(chosen, Composed(idea.text))];
        }
      }
    }
    forall id | id in found ensures after[id] == SuggestionFor(s, found[id], ideas[..n + 1]) {
      OneMoreIdea(s, found[id], ideas, n);
    }
  }

  /** Templates for every negotiable order, then the ideas that may replace them. */
  method BuildSuggestions(s: Snapshot, outcomes: seq<OrderOutcome>, ideas: seq<Idea>)
    returns (suggestions: map<Id, Suggestion>, ghost found: map<Id, OrderOutcome>)
    ensures SuggestedFrom(s, found, ideas, suggestions)
    ensures forall id :: id in found ==> found[id] in outcomes
    ensures forall x :: x in outcomes && Negotiable(s, x) ==> x.order in found
  {
    var candidates := Candidates(s, outcomes);
    found := candidates;
    suggestions := map id | id in candidates :: TemplateFor(s, OrderTable(s)[id], candidates[id].primary);
    for n := 0 to |ideas|
      invariant SuggestedFrom(s, candidates, ideas[..n], suggestions)
    {
      suggestions := ReadIdea(s, candidates, ideas, n, ideas[n], suggestions);
    }
    assert ideas[..|ideas|] == ideas;
  }

  // ---------------------------------------------------------------- how a suggestion reads

  /** Codes that time, capacity or availability put in the way. */
  const SERVICE_SIDE: set<Shown> := {
    Because(ReadyAfterCutoff), Because(DueTimeExceeded), Because(CapacityConflict), Because(ServiceUnavailable),
    Because(SlotUnavailable), Because(WagonUnavailable)}

  /** Codes that the leg or the route put in the way. */
  const TERMINAL_SIDE: set<Shown> := {
    Because(TerminalNotCompatible), Because(TerminalNotOnServiceRoute), Because(TunnelHeightExceeded),
    Because(RouteWidthExceeded), Because(RouteWeightExceeded)}

  /** The computed suggestion: with one kind of change approved, that one; with both, both together
      where pairing is needed, and otherwise the one that speaks to the shown code, or either. */
  lemma TemplateReads(s: Snapshot, o: Order, shown: Shown)
    requires o.window.Some?
    ensures var w, types := o.window.value, TemplateFor(s, o, shown).types;
            && (w.services != [] && w.destinationTerminals == [] ==> types == [AddOrderApprovedService])
            && (w.services == [] && w.destinationTerminals != [] ==> types == [ChangeToApprovedTerminal])
            && (w.services != [] && w.destinationTerminals != [] ==>
                  if NeedsPairing(o, s) then types == [ChangeToApprovedTerminal, AddOrderApprovedService]
                  else if shown in SERVICE_SIDE then types == [AddOrderApprovedService]
                  else if shown in TERMINAL_SIDE then types == [ChangeToApprovedTerminal]
                  else types == [AddOrderApprovedService, ChangeToApprovedTerminal])
    ensures var w, said := o.window.value, TemplateFor(s, o, shown);
            && (said.advice == Together <==> NeedsPairing(o, s) && w.services != [] && w.destinationTerminals != [])
            && (said.advice == AimedAt(AddOrderApprovedService) <==>
                  said.advice != Together && shown in SERVICE_SIDE && w.services != [])
            && (said.advice == AimedAt(ChangeToApprovedTerminal) <==>
                  said.advice != Together && shown in TERMINAL_SIDE && w.destinationTerminals != [])
            && (said.advice == OneByOne <==> said.advice != Together && !said.advice.AimedAt?)
  {
    var w := o.window.value;
    assert w.services != [] && w.destinationTerminals == [] ==> PermittedTypes(o) == [AddOrderApprovedService];
    assert w.services == [] && w.destinationTerminals != [] ==> PermittedTypes(o) == [ChangeToApprovedTerminal];
    assert w.services != [] && w.destinationTerminals != [] ==>
             PermittedTypes(o) == [AddOrderApprovedService, ChangeToApprovedTerminal];
    PreferredReads(shown);
  }

  lemma PreferredReads(shown: Shown)
    ensures PreferredFor(shown) == if shown in SERVICE_SIDE then Some(AddOrderApprovedService)
                                   else if shown in TERMINAL_SIDE then Some(ChangeToApprovedTerminal) else None
  {
  }

  /** Who is suggested anything: a valid order without a place whose window lists something. */
  lemma NegotiableReads(s: Snapshot, x: OrderOutcome)
    ensures SuggestedTo(s, x, []).Some? <==>
              && x.inputState == Valid && (x.assignmentState == Unassigned || x.assignmentState == NotApplicable)
              && x.order in OrderTable(s) && OrderTable(s)[x.order].window.Some?
              && (OrderTable(s)[x.order].window.value.services != []
                  || OrderTable(s)[x.order].window.value.destinationTerminals != [])
  {
  }

  /** The idea asks for something the window has, in words that passed the guard. */
  predicate Sensible(o: Order, order: Id, idea: Idea) {
    && idea.order == order && idea.grounded && o.window.Some?
    && exists t :: t in idea.types
                   && ((t == AddOrderApprovedService && o.window.value.services != [])
                       || (t == ChangeToApprovedTerminal && o.window.value.destinationTerminals != []))
  }

  lemma SensibleIsTaken(o: Order, order: Id, idea: Idea)
    ensures Sensible(o, order, idea) <==> Takes(o, order, idea)
  {
    if Takes(o, order, idea) {
      assert Within(o, idea.types)[0] in Within(o, idea.types);
    }
  }

  lemma {:induction false} LastIdeaReads(o: Order, order: Id, ideas: seq<Idea>, k: nat)
    requires k < |ideas| && Sensible(o, order, ideas[k])
    requires forall j :: k < j < |ideas| ==> !Sensible(o, order, ideas[j])
    ensures LastIdea(o, order, ideas) == Some(ideas[k])
    decreases |ideas|
  {
    SensibleIsTaken(o, order, ideas[|ideas| - 1]);
    if k < |ideas| - 1 {
      LastIdeaReads(o, order, ideas[..|ideas| - 1], k);
    }
  }

  lemma {:induction false} NoIdeaReads(o: Order, order: Id, ideas: seq<Idea>)
    requires forall j :: 0 <= j < |ideas| ==> !Sensible(o, order, ideas[j])
    ensures LastIdea(o, order, ideas) == None
    decreases |ideas|
  {
    if ideas != [] {
      SensibleIsTaken(o, order, ideas[|ideas| - 1]);
      NoIdeaReads(o, order, ideas[..|ideas| - 1]);
    }
  }

  /** What an order is told: its last sensible idea, cut down to what the window has, unless it
      needs pairing; without one, the computed suggestion. */
  lemma SuggestionReads(s: Snapshot, x: OrderOutcome, ideas: seq<Idea>)
    requires Negotiable(s, x)
    ensures var o := OrderTable(s)[x.order];
            var said := SuggestionFor(s, x, ideas);
            && (NeedsPairing(o, s) || (forall j :: 0 <= j < |ideas| ==> !Sensible(o, x.order, ideas[j])) ==>
                  said == TemplateFor(s, o, x.primary))
            && (forall k: nat :: !NeedsPairing(o, s) && k < |ideas| && Sensible(o, x.order, ideas[k])
                                 && (forall j :: k < j < |ideas| ==> !Sensible(o, x.order, ideas[j]))
                  ==> said.advice == Composed(ideas[k].text)
                      && forall t :: t in said.types <==> t in ideas[k].types && Permitted(o, t))
  {
    var o := OrderTable(s)[x.order];
    if forall j :: 0 <= j < |ideas| ==> !Sensible(o, x.order, ideas[j]) {
      NoIdeaReads(o, x.order, ideas);
    }
    forall k: nat | k < |ideas| && Sensible(o, x.order, ideas[k])
                    && (forall j :: k < j < |ideas| ==> !Sensible(o, x.order, ideas[j]))
      ensures LastIdea(o, x.order, ideas) == Some(ideas[k])
    {
      LastIdeaReads(o, x.order, ideas, k);
    }
  }

  // ---------------------------------------------------------------- what a suggestion leads to

  /** A suggestion asks for something, and only for what the order's window has. */
  lemma SuggestionIsPermitted(s: Snapshot, x: OrderOutcome, ideas: seq<Idea>)
    requires Negotiable(s, x)
    ensures var types := SuggestionFor(s, x, ideas).types;
            types != [] && forall t :: t in types ==> Permitted(OrderTable(s)[x.order], t)
  {
    var o := OrderTable(s)[x.order];
    assert PermittedTypes(o)[0] in PermittedTypes(o);
  }

  /** Where pairing is needed, the suggestion pairs exactly when the window has a service. */
  lemma PairsIff(s: Snapshot, x: OrderOutcome, ideas: seq<Idea>)
    requires Negotiable(s, x) && NeedsPairing(OrderTable(s)[x.order], s)
    ensures AddOrderApprovedService in SuggestionFor(s, x, ideas).types
       <==> OrderTable(s)[x.order].window.value.services != []
    ensures ChangeToApprovedTerminal in SuggestionFor(s, x, ideas).types
  {
    var o := OrderTable(s)[x.order];
    assert ChangeToApprovedTerminal in PermittedTypes(o);
    assert AddOrderApprovedService in PermittedTypes(o) <==> o.window.value.services != [];
  }

  /** Asking only for what the window has nothing for leads nowhere. */
  lemma UnpermittedFindsNothing(s: Snapshot, orderId: Id, types: seq<Adjustment>, changes: seq<Change>)
    requires Approved(s, orderId, types, changes)
    requires orderId in OrderTable(s) && forall t :: t in types ==> !Permitted(OrderTable(s)[orderId], t)
    ensures changes == []
  {
    forall c ensures c !in changes {
      assert c in changes ==> Authorised(s, OrderTable(s)[orderId].window.value, types, c);
    }
    SomeMember(changes);
  }

  lemma SomeMember<T(!new)>(s: seq<T>)
    ensures s != [] ==> exists t :: t in s
  {
    if s != [] {
      assert s[0] in s;
    }
  }

  lemma OpenServiceReaches(ix: Index, o: Order, service: Id)
    requires ServiceOpen(ix, o, service)
    ensures ix.services[service].destinationTerminal in o.destinationTerminals
  {
    var v := ix.services[service];
    assert ServiceViolates(ix, o, v, TerminalNotOnServiceRoute) ==> TerminalNotOnServiceRoute in ServiceCodes(ix, o, v);
  }

  lemma OfferedServiceReaches(s: Snapshot, d: Snapshot, c: Candidate)
    requires WagonsKnown(s) && WagonsKnown(d) && IndexOf(d) == IndexOf(s) && Offers(d, c)
    ensures exists v :: v in s.services && v.id == c.service
                        && v.destinationTerminal in OrderTable(d)[c.order].destinationTerminals
  {
    OpenServiceReaches(IndexOf(d), OrderTable(d)[c.order], c.service);
    var v := ById(s.services, ServiceId)[c.service];
    assert v in s.services && v.id == c.service;
  }

  lemma RedirectedDestinations(s: Snapshot, scenarioId: Id, orderId: Id, changes: seq<Change>)
    requires orderId in OrderTable(s) && NewDestination(changes).Some?
    ensures orderId in OrderTable(Derived(s, scenarioId, orderId, changes))
    ensures OrderTable(Derived(s, scenarioId, orderId, changes))[orderId].destinationTerminals
         == {NewDestination(changes).value}
  {
    DerivedOrders(s, scenarioId, orderId, changes);
  }

  /** A candidate of the redirected order runs to its new destination, on a service of the
      baseline or on one that was added. */
  lemma CandidateServesDestination(s: Snapshot, scenarioId: Id, orderId: Id, changes: seq<Change>, c: Candidate)
    requires Derivable(s, scenarioId, orderId, changes) && DerivedLists(s, scenarioId, orderId, changes, c)
    requires c.order == orderId && NewDestination(changes).Some? && orderId in OrderTable(s)
    ensures Offers(Derived(s, scenarioId, orderId, changes), c)
    ensures c.service in s.baselineServices || AddService(c.service) in changes
    ensures exists v :: v in s.services && v.id == c.service && v.destinationTerminal == NewDestination(changes).value
  {
    var d, scope := Derived(s, scenarioId, orderId, changes), DerivedScope(s, orderId, changes);
    CandidatesMembers(d, scope, c);
    DerivedIndex(s, scenarioId, orderId, changes);
    RedirectedDestinations(s, scenarioId, orderId, changes);
    OfferedServiceReaches(s, d, c);
    MemberIffCounted(c.service, ScopeFor(scope, OrderTable(d)[orderId]));
    ServicesMembers(s.baselineServices, changes, c.service);
  }

  lemma RedirectIsApproved(s: Snapshot, orderId: Id, types: seq<Adjustment>, changes: seq<Change>)
    requires Approved(s, orderId, types, changes) && orderId in OrderTable(s) && NewDestination(changes).Some?
    ensures OrderTable(s)[orderId].window.Some?
    ensures NewDestination(changes).value in OrderTable(s)[orderId].window.value.destinationTerminals
    ensures forall v :: AddService(v) in changes ==> v in OrderTable(s)[orderId].window.value.services
  {
    DestinationOf(changes);
    SomeMember(changes);
    var window := OrderTable(s)[orderId].window.value;
    assert Authorised(s, window, types, ChangeTerminal(NewDestination(changes).value));
    forall v | AddService(v) in changes ensures v in window.services {
      assert Authorised(s, window, types, AddService(v));
    }
  }

  /** No service the window lists runs to an approved destination. */
  predicate NothingReaches(o: Order, s: Snapshot) {
    o.window.Some? ==>
      forall v :: v in s.services && v.id in o.window.value.services ==>
        v.destinationTerminal !in o.window.value.destinationTerminals
  }

  /** Where pairing is needed, a redirected order has candidates only on added services outside
      the baseline, and only if one of them runs to an approved destination. */
  lemma RedirectedNeedsAdded(s: Snapshot, scenarioId: Id, orderId: Id, types: seq<Adjustment>, changes: seq<Change>,
                             c: Candidate)
    requires Derivable(s, scenarioId, orderId, changes) && Approved(s, orderId, types, changes)
    requires orderId in OrderTable(s) && NeedsPairing(OrderTable(s)[orderId], s) && NewDestination(changes).Some?
    requires c.order == orderId && DerivedLists(s, scenarioId, orderId, changes, c)
    ensures Offers(Derived(s, scenarioId, orderId, changes), c)
    ensures AddService(c.service) in changes && c.service !in s.baselineServices
    ensures !NothingReaches(OrderTable(s)[orderId], s)
  {
    CandidateServesDestination(s, scenarioId, orderId, changes, c);
    RedirectIsApproved(s, orderId, types, changes);
  }

  /** Redirected where nothing added reaches, the order has no candidate left, so nothing is found
      whatever the solver answers. */
  lemma UnreachedRedirectFindsNothing(s: Snapshot, run: Run, orderId: Id, types: seq<Adjustment>, scenarioId: Id,
                                      changes: seq<Change>, r: SolveResult, out: SearchResult)
    requires Derivable(s, scenarioId, orderId, changes) && Approved(s, orderId, types, changes)
    requires orderId in OrderTable(s) && NeedsPairing(OrderTable(s)[orderId], s) && NewDestination(changes).Some?
    requires NothingReaches(OrderTable(s)[orderId], s) || forall v :: AddService(v) !in changes
    requires forall a :: a in r.assignments ==> DerivedLists(s, scenarioId, orderId, changes, a)
    requires Concludes(run, orderId, changes, r, out)
    ensures !out.Found?
  {
    forall a | a in r.assignments ensures a.order != orderId {
      if a.order == orderId {
        RedirectedNeedsAdded(s, scenarioId, orderId, types, changes, a);
      }
    }
  }

  /** When pairing is needed, redirecting alone never finds an alternative. */
  lemma UnpairedRedirectFindsNothing(s: Snapshot, run: Run, orderId: Id, types: seq<Adjustment>, scenarioId: Id,
                                     changes: seq<Change>, r: SolveResult, out: SearchResult)
    requires Derivable(s, scenarioId, orderId, changes) && Approved(s, orderId, types, changes)
    requires orderId in OrderTable(s) && NeedsPairing(OrderTable(s)[orderId], s)
    requires AddOrderApprovedService !in types && changes != []
    requires forall a :: a in r.assignments ==> DerivedLists(s, scenarioId, orderId, changes, a)
    requires Concludes(run, orderId, changes, r, out)
    ensures !out.Found?
  {
    var window := OrderTable(s)[orderId].window.value;
    forall v ensures AddService(v) !in changes {
      assert AddService(v) in changes ==> Authorised(s, window, types, AddService(v));
    }
    DestinationOf(changes);
    assert changes[0] in changes;
    assert changes[0].ChangeTerminal?;
    UnreachedRedirectFindsNothing(s, run, orderId, types, scenarioId, changes, r, out);
  }

  /** So a search that pairs nothing never finds one, from request to answer. */
  lemma UnpairedSearchNeverFinds(s: Snapshot, run: Run, orderId: Id, types: seq<Adjustment>, scenarioId: Id, runId: Id,
                                 world: World, out: SearchResult, solved: SolveResult)
    requires WellFormed(s) && orderId in OrderTable(s) && NeedsPairing(OrderTable(s)[orderId], s)
    requires AddOrderApprovedService !in types
    requires Answers(s, run, orderId, types, scenarioId, runId, world, out, solved)
    ensures !out.Found?
  {
    if (out.NotFound? || out.Found?) && out.changes != [] {
      UnpairedRedirectFindsNothing(s, run, orderId, types, scenarioId, out.changes, solved, out);
    }
  }

  /** Asking only for what the window has nothing for is not refused: the request comes back as a
      search that found nothing, unless the policy forbids one of its types. */
  lemma UnpermittedIsNotRefused(s: Snapshot, run: Run, orderId: Id, types: seq<Adjustment>, scenarioId: Id, runId: Id,
                                world: World, out: SearchResult, solved: SolveResult)
    requires orderId in OrderTable(s) && forall t :: t in types ==> !Permitted(OrderTable(s)[orderId], t)
    requires Answers(s, run, orderId, types, scenarioId, runId, world, out, solved)
    ensures out.Refused? <==> AsksForbidden(s, types)
    ensures !out.Refused? ==> out == NotFound([], Because(AlternativeRequiresForbiddenChange))
  {
    assert !TerminalUnclear(s, orderId, types) by {
      assert ChangeToApprovedTerminal in types ==> !Permitted(OrderTable(s)[orderId], ChangeToApprovedTerminal);
    }
    if out.NotFound? || out.Found? {
      UnpermittedFindsNothing(s, orderId, types, out.changes);
    }
  }

  lemma AllowedTypeMakesChange(s: Snapshot, orderId: Id, types: seq<Adjustment>, changes: seq<Change>, t: Adjustment)
    requires Approved(s, orderId, types, changes) && orderId in OrderTable(s)
    requires t in types && t in s.policy.allowed && Permitted(OrderTable(s)[orderId], t)
    ensures changes != []
  {
    var window := OrderTable(s)[orderId].window.value;
    if t == AddOrderApprovedService {
      assert window.services[0] in window.services;
      assert Authorised(s, window, types, AddService(window.services[0]));
    } else {
      assert window.destinationTerminals[0] in window.destinationTerminals;
      assert Authorised(s, window, types, ChangeTerminal(window.destinationTerminals[0]));
    }
  }

  lemma ChangeNeedsAllowedType(s: Snapshot, orderId: Id, types: seq<Adjustment>, changes: seq<Change>)
    requires Approved(s, orderId, types, changes) && changes != []
    ensures exists t :: t in types && t in s.policy.allowed
  {
    var window := OrderTable(s)[orderId].window.value;
    assert changes[0] in changes;
    assert Authorised(s, window, types, changes[0]);
  }

  /** A suggestion does not look at the policy. It is never refused, as no policy can forbid what a
      window approves; and there is something to solve for if and only if the policy allows one of
      its types. */
  lemma SuggestionIsTriedIff(s: Snapshot, run: Run, x: OrderOutcome, ideas: seq<Idea>, scenarioId: Id, runId: Id,
                             world: World, out: SearchResult, solved: SolveResult)
    requires Negotiable(s, x)
    requires Answers(s, run, x.order, SuggestionFor(s, x, ideas).types, scenarioId, runId, world, out, solved)
    ensures !out.Refused?
    ensures out.NotFound? || out.Found? ==>
              (out.changes != [] <==> exists t :: t in SuggestionFor(s, x, ideas).types && t in s.policy.allowed)
  {
    var types := SuggestionFor(s, x, ideas).types;
    SuggestionIsPermitted(s, x, ideas);
    if out.NotFound? || out.Found? {
      if t :| t in types && t in s.policy.allowed {
        AllowedTypeMakesChange(s, x.order, types, out.changes, t);
      }
      if out.changes != [] {
        ChangeNeedsAllowedType(s, x.order, types, out.changes);
      }
    }
  }

  // ---------------------------------------------------------------- when a suggestion succeeds

  /** Where pairing is needed and nothing the window lists reaches an approved destination, what is
      suggested never finds an alternative, whatever the solver answers; unless services are listed
      and the policy keeps the order's destination. */
  lemma HopelessSuggestion(s: Snapshot, run: Run, x: OrderOutcome, ideas: seq<Idea>, scenarioId: Id, runId: Id,
                           world: World, out: SearchResult, solved: SolveResult)
    requires WellFormed(s) && Negotiable(s, x) && NeedsPairing(OrderTable(s)[x.order], s)
    requires NothingReaches(OrderTable(s)[x.order], s)
    requires ChangeToApprovedTerminal in s.policy.allowed || OrderTable(s)[x.order].window.value.services == []
    requires Answers(s, run, x.order, SuggestionFor(s, x, ideas).types, scenarioId, runId, world, out, solved)
    ensures !out.Found?
  {
    var types := SuggestionFor(s, x, ideas).types;
    PairsIff(s, x, ideas);
    if ChangeToApprovedTerminal !in s.policy.allowed {
      UnpairedSearchNeverFinds(s, run, x.order, types, scenarioId, runId, world, out, solved);
    } else if out.NotFound? || out.Found? {
      RedirectIsMade(s, x.order, types, out.changes);
      UnreachedRedirectFindsNothing(s, run, x.order, types, scenarioId, out.changes, solved, out);
    }
  }

  /** Asked for and allowed, a redirect to the one approved destination is made. */
  lemma RedirectIsMade(s: Snapshot, orderId: Id, types: seq<Adjustment>, changes: seq<Change>)
    requires Approved(s, orderId, types, changes) && orderId in OrderTable(s)
    requires !TerminalUnclear(s, orderId, types)
    requires ChangeToApprovedTerminal in types && ChangeToApprovedTerminal in s.policy.allowed
    requires Permitted(OrderTable(s)[orderId], ChangeToApprovedTerminal)
    ensures changes != []
    ensures NewDestination(changes) == Some(OrderTable(s)[orderId].window.value.destinationTerminals[0])
  {
    var window := OrderTable(s)[orderId].window.value;
    assert window.destinationTerminals[0] in window.destinationTerminals;
    assert Authorised(s, window, types, ChangeTerminal(window.destinationTerminals[0]));
    DestinationOf(changes);
  }

  /** The order, sent to the destination if there is one, fits a slot on a service outside the
      baseline that its window lists and the policy lets it join. */
  ghost predicate GainsPlace(s: Snapshot, o: Order, destination: Option<Id>)
    requires WagonsKnown(s)
  {
    && InputValid(o) && o.window.Some? && AddOrderApprovedService in s.policy.allowed
    && exists c: Candidate ::
         && c.service in o.window.value.services && c.service !in s.baselineServices
         && Fits(s, Retarget(o, o.id, destination), c)
  }

  /** In the derived scenario the order is offered a slot on an added service outside the baseline. */
  ghost predicate OffersAdded(s: Snapshot, scenarioId: Id, orderId: Id, changes: seq<Change>)
    requires Derivable(s, scenarioId, orderId, changes)
  {
    exists c: Candidate ::
      && c.order == orderId && Offers(Derived(s, scenarioId, orderId, changes), c)
      && AddService(c.service) in changes && c.service !in s.baselineServices
  }

  lemma OfferedWhereFits(s: Snapshot, scenarioId: Id, orderId: Id, changes: seq<Change>, c: Candidate)
    requires Derivable(s, scenarioId, orderId, changes) && orderId in OrderTable(s)
    ensures c.order == orderId && Offers(Derived(s, scenarioId, orderId, changes), c) <==>
              && InputValid(OrderTable(s)[orderId])
              && Fits(s, Retarget(OrderTable(s)[orderId], orderId, NewDestination(changes)), c)
  {
    var o := Retarget(OrderTable(s)[orderId], orderId, NewDestination(changes));
    assert OrderTable(s)[orderId].id == orderId;
    DerivedIndex(s, scenarioId, orderId, changes);
    DerivedOrders(s, scenarioId, orderId, changes);
    FitsAlike(s, Derived(s, scenarioId, orderId, changes), o, c);
  }

  lemma AddedServicesAre(s: Snapshot, orderId: Id, types: seq<Adjustment>, changes: seq<Change>, v: Id)
    requires Approved(s, orderId, types, changes) && orderId in OrderTable(s)
    requires OrderTable(s)[orderId].window.Some?
    requires OrderTable(s)[orderId].window.value.services != [] ==> AddOrderApprovedService in types
    ensures AddService(v) in changes <==>
              v in OrderTable(s)[orderId].window.value.services && AddOrderApprovedService in s.policy.allowed
  {
    assert AddService(v) in changes <==> Authorised(s, OrderTable(s)[orderId].window.value, types, AddService(v));
  }

  /** What the derived scenario offers can be read off the snapshot. */
  lemma OffersAddedIff(s: Snapshot, scenarioId: Id, orderId: Id, types: seq<Adjustment>, changes: seq<Change>)
    requires Derivable(s, scenarioId, orderId, changes) && Approved(s, orderId, types, changes)
    requires orderId in OrderTable(s) && OrderTable(s)[orderId].window.Some?
    requires OrderTable(s)[orderId].window.value.services != [] ==> AddOrderApprovedService in types
    ensures OffersAdded(s, scenarioId, orderId, changes)
       <==> GainsPlace(s, OrderTable(s)[orderId], NewDestination(changes))
  {
    var o, destination := OrderTable(s)[orderId], NewDestination(changes);
    assert o.id == orderId;
    if c: Candidate :| c.order == orderId && Offers(Derived(s, scenarioId, orderId, changes), c)
                       && AddService(c.service) in changes && c.service !in s.baselineServices {
      OfferedWhereFits(s, scenarioId, orderId, changes, c);
      AddedServicesAre(s, orderId, types, changes, c.service);
    }
    if GainsPlace(s, o, destination) {
      var c: Candidate :| c.service in o.window.value.services && c.service !in s.baselineServices
                          && Fits(s, Retarget(o, o.id, destination), c);
      OfferedWhereFits(s, scenarioId, orderId, changes, c);
      AddedServicesAre(s, orderId, types, changes, c.service);
    }
  }

  lemma AddedSlotIsFound(s: Snapshot, run: Run, orderId: Id, changes: seq<Change>, scenarioId: Id, runId: Id,
                         world: World, out: SearchResult, r: SolveResult)
    requires Tried(s, run, orderId, changes, scenarioId, runId, world, out, r) && Finishes(world)
    requires orderId !in OrdersOf(run.assignments) && OffersAdded(s, scenarioId, orderId, changes)
    ensures out.Found?
  {
    var c: Candidate :| c.order == orderId && Offers(Derived(s, scenarioId, orderId, changes), c)
                        && AddService(c.service) in changes && c.service !in s.baselineServices;
    BestPlacesMost(BookOf(s), DerivedChoices(s, scenarioId, orderId, changes), PlanOf(r.assignments));
    DedicatedServiceIsUsed(s, scenarioId, orderId, changes, r, c);
    PlacedInTable(run.assignments, orderId);
    PlacedInTable(r.assignments, orderId);
  }

  /** A redirected order that needs pairing, with an engine that finishes: found exactly when the
      derived scenario offers it a slot on an added service. */
  lemma RedirectFindsIff(s: Snapshot, run: Run, orderId: Id, types: seq<Adjustment>, changes: seq<Change>,
                         scenarioId: Id, runId: Id, world: World, out: SearchResult, r: SolveResult)
    requires Tried(s, run, orderId, changes, scenarioId, runId, world, out, r) && Finishes(world)
    requires Approved(s, orderId, types, changes)
    requires orderId in OrderTable(s) && NeedsPairing(OrderTable(s)[orderId], s) && NewDestination(changes).Some?
    requires orderId !in OrdersOf(run.assignments)
    ensures out.Found? <==> OffersAdded(s, scenarioId, orderId, changes)
  {
    if OffersAdded(s, scenarioId, orderId, changes) {
      AddedSlotIsFound(s, run, orderId, changes, scenarioId, runId, world, out, r);
    }
    if out.Found? {
      var a :| a in r.assignments && a.order == orderId;
      RedirectedNeedsAdded(s, scenarioId, orderId, types, changes, a);
    }
  }

  /** Any order left out of an optimal baseline plan whose destination stays, with an engine that
      finishes: found exactly when the derived scenario offers it a slot on an added service. */
  lemma ServicesFindIff(s: Snapshot, run: Run, orderId: Id, changes: seq<Change>, scenarioId: Id, runId: Id,
                        world: World, out: SearchResult, r: SolveResult)
    requires Tried(s, run, orderId, changes, scenarioId, runId, world, out, r) && Finishes(world)
    requires NewDestination(changes).None? && orderId !in OrdersOf(run.assignments)
    requires Backed(s, BaselineScope(s), run) && run.isOptimal && run.status == SolverOptimal
    ensures out.Found? <==> OffersAdded(s, scenarioId, orderId, changes)
  {
    FinishedSearchIsOptimal(s, run, orderId, changes, scenarioId, runId, world, out, r);
    ServicesGainOutside(s, scenarioId, orderId, changes);
    GainsAreOffers(s, scenarioId, orderId, changes);
  }

  lemma GainIs(s: Snapshot, scenarioId: Id, orderId: Id, changes: seq<Change>, c: Candidate)
    requires Derivable(s, scenarioId, orderId, changes) && NewDestination(changes).None?
    ensures c in DerivedChoices(s, scenarioId, orderId, changes) && c !in BaseChoices(s) <==>
              && c.order == orderId && Offers(Derived(s, scenarioId, orderId, changes), c)
              && AddService(c.service) in changes && c.service !in s.baselineServices
  {
    ChoicesAre(s, scenarioId, orderId, changes, c);
    OffersAlike(s, scenarioId, orderId, changes, c);
    MemberIffCounted(c.service, s.baselineServices);
  }

  lemma GainsAreOffers(s: Snapshot, scenarioId: Id, orderId: Id, changes: seq<Change>)
    requires Derivable(s, scenarioId, orderId, changes) && NewDestination(changes).None?
    ensures GainsSomething(s, scenarioId, orderId, changes) <==> OffersAdded(s, scenarioId, orderId, changes)
  {
    if GainsSomething(s, scenarioId, orderId, changes) {
      var c :| c in DerivedChoices(s, scenarioId, orderId, changes) && c !in BaseChoices(s);
      GainIs(s, scenarioId, orderId, changes, c);
    }
    if c: Candidate :| c.order == orderId && Offers(Derived(s, scenarioId, orderId, changes), c)
                       && AddService(c.service) in changes && c.service !in s.baselineServices {
      GainIs(s, scenarioId, orderId, changes, c);
    }
  }

  /** Where pairing is needed and the policy allows the redirect, with an engine that finishes and
      the destination clear: what is suggested finds an alternative if and only if the order, sent
      there, fits a slot on a service its window lists and the policy lets it join. */
  lemma PairedSuggestionSucceedsIff(s: Snapshot, run: Run, x: OrderOutcome, ideas: seq<Idea>, scenarioId: Id,
                                    runId: Id, world: World, out: SearchResult, solved: SolveResult)
    requires WellFormed(s) && WagonsKnown(s) && Negotiable(s, x) && NeedsPairing(OrderTable(s)[x.order], s)
    requires ChangeToApprovedTerminal in s.policy.allowed
    requires x.order !in OrdersOf(run.assignments) && Finishes(world)
    requires Answers(s, run, x.order, SuggestionFor(s, x, ideas).types, scenarioId, runId, world, out, solved)
    requires out.NotFound? || out.Found?
    ensures out.changes != [] && Derivable(s, scenarioId, x.order, out.changes)
    ensures out.Found? <==> OffersAdded(s, scenarioId, x.order, out.changes)
    ensures out.Found? <==>
              var o := OrderTable(s)[x.order];
              GainsPlace(s, o, Some(o.window.value.destinationTerminals[0]))
  {
    var types := SuggestionFor(s, x, ideas).types;
    PairsIff(s, x, ideas);
    RedirectIsMade(s, x.order, types, out.changes);
    RedirectFindsIff(s, run, x.order, types, out.changes, scenarioId, runId, world, out, solved);
    OffersAddedIff(s, scenarioId, x.order, types, out.changes);
  }

  lemma NoRedirectIsMade(s: Snapshot, orderId: Id, types: seq<Adjustment>, changes: seq<Change>)
    requires Approved(s, orderId, types, changes) && orderId in OrderTable(s)
    requires ChangeToApprovedTerminal !in types || ChangeToApprovedTerminal !in s.policy.allowed
    ensures NewDestination(changes).None?
    ensures AddOrderApprovedService !in types ==> changes == []
  {
    DestinationOf(changes);
    SomeMember(changes);
    forall c | c in changes ensures c.AddService? && AddOrderApprovedService in types {
      assert Authorised(s, OrderTable(s)[orderId].window.value, types, c);
    }
  }

  /** What is suggested keeps the destination: for any order an optimal baseline plan left out, and
      an engine that finishes, it finds an alternative if and only if a service is suggested and the
      order, as it is, fits a slot on one its window lists and the policy lets it join. */
  lemma ServiceSuggestionSucceedsIff(s: Snapshot, run: Run, x: OrderOutcome, ideas: seq<Idea>, scenarioId: Id,
                                     runId: Id, world: World, out: SearchResult, solved: SolveResult)
    requires WellFormed(s) && WagonsKnown(s) && Negotiable(s, x)
    requires ChangeToApprovedTerminal !in SuggestionFor(s, x, ideas).types
             || ChangeToApprovedTerminal !in s.policy.allowed
    requires Backed(s, BaselineScope(s), run) && run.isOptimal && run.status == SolverOptimal
    requires x.order !in OrdersOf(run.assignments) && Finishes(world)
    requires Answers(s, run, x.order, SuggestionFor(s, x, ideas).types, scenarioId, runId, world, out, solved)
    ensures out.NotFound? || out.Found?
    ensures out.Found? <==>
              AddOrderApprovedService in SuggestionFor(s, x, ideas).types && GainsPlace(s, OrderTable(s)[x.order], None)
  {
    var types := SuggestionFor(s, x, ideas).types;
    SuggestionIsTriedIff(s, run, x, ideas, scenarioId, runId, world, out, solved);
    NoRedirectIsMade(s, x.order, types, out.changes);
    if out.changes != [] {
      ServicesFindIff(s, run, x.order, out.changes, scenarioId, runId, world, out, solved);
      OffersAddedIff(s, scenarioId, x.order, types, out.changes);
    }
  }
}
