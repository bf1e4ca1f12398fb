/** One terminal, route, service, wagon, slot and order: the inputs at which some promises fail. */
module SmallYard {
  import opened Ordering
  import opened ReasonCodes
  import opened Snapshots
  import opened Eligibility
  import opened GateProperties
  import opened Plans
  import opened CpSat
  import opened AssignmentModel
  import opened BaselineSolve
  import opened Listing
  import opened Agreement
  import opened Planning
  import opened ChangeSets
  import opened DerivedScenario
  import opened Alternatives
  import opened Suggestions
  import opened Conflicts

  const BOX := Dimensions(1, 1, 1)
  const HERE := Terminal("T", 0, {TrailerStandard})
  const TRACK := RouteConstraint("R", 1, 1, 1)
  const TRAIN := Service("V", "T", "T", 0, 1, 0, "R", true)
  const CAR := Wagon("W", "V", 1, true, 1)
  const PLACE := Slot("L", "W", 1, 1, BOX, {TrailerStandard}, true)
  const LOAD := Order("O", "S", {"T"}, {"T"}, 0, 1, Some(1), BOX, {TrailerStandard}, P1, None)
  const RULES := Policy("v1", PriorityScores(1, 1, 1), [], [])

  /** The yard, with a choice of baseline list. */
  function Yard(baseline: seq<Id>): Snapshot {
    Snapshot("SCN", Baseline, 0, baseline, ["A"], ["S"], [HERE], [TRACK], [TRAIN], [CAR], [PLACE], [LOAD], RULES)
  }

  const CHOICE := Candidate("O", "V", "W", "L")

  lemma Single<T>(x: T, key: T -> Id)
    ensures ById([x], key) == map[key(x) := x]
    ensures MapSeq([x], key) == [key(x)]
    ensures DistinctKeys([x], key)
  {
    assert [x][..0] == [];
  }

  lemma YardTables(baseline: seq<Id>)
    ensures var s := Yard(baseline);
            && ById(s.terminals, TerminalId) == map["T" := HERE]
            && ById(s.routes, RouteId) == map["R" := TRACK]
            && ById(s.services, ServiceId) == map["V" := TRAIN]
            && ById(s.wagons, WagonId) == map["W" := CAR]
            && ById(s.orders, OrderId) == map["O" := LOAD]
    ensures IdsDistinct(Yard(baseline))
  {
    Single(HERE, TerminalId);
    Single(TRACK, RouteId);
    Single(TRAIN, ServiceId);
    Single(CAR, WagonId);
    Single(PLACE, SlotId);
    Single(LOAD, OrderId);
    Single("S", Self);
  }

  lemma YardKnows(baseline: seq<Id>)
    ensures var s := Yard(baseline);
            Known("T", s.terminals, TerminalId) && Known("R", s.routes, RouteId)
            && Known("V", s.services, ServiceId) && Known("W", s.wagons, WagonId)
  {
    YardTables(baseline);
    KnownInTable("T", Yard(baseline).terminals, TerminalId);
    KnownInTable("R", Yard(baseline).routes, RouteId);
    KnownInTable("V", Yard(baseline).services, ServiceId);
    KnownInTable("W", Yard(baseline).wagons, WagonId);
  }

  lemma YardIsWellFormed(baseline: seq<Id>)
    requires baseline != [] && forall v :: v in baseline ==> v == "V"
    ensures WellFormed(Yard(baseline)) && WagonsKnown(Yard(baseline))
  {
    YardTables(baseline);
    YardKnows(baseline);
    WellFormedWagons(Yard(baseline));
  }

  lemma YardBerth(baseline: seq<Id>)
    requires WagonsKnown(Yard(baseline))
    ensures BerthTable(Yard(baseline)) == map["L" := Berth(CAR, PLACE)]
  {
    YardTables(baseline);
    assert Berths(Yard(baseline)) == [Berth(CAR, PLACE)];
    Single(Berth(CAR, PLACE), BerthSlot);
  }

  /** The order fits its slot. */
  lemma YardOffers(baseline: seq<Id>)
    requires WagonsKnown(Yard(baseline))
    ensures Offers(Yard(baseline), CHOICE)
  {
    YardTables(baseline);
    YardBerth(baseline);
    ServiceCodesEmpty(IndexOf(Yard(baseline)), LOAD, TRAIN);
    SlotCodesEmpty(LOAD, Berth(CAR, PLACE));
  }

  lemma YardEvaluation(baseline: seq<Id>)
    requires baseline != [] && forall v :: v in baseline ==> v == "V"
    ensures WellFormed(Yard(baseline)) && WagonsKnown(Yard(baseline))
    ensures CHOICE in CandidatesOf(Yard(baseline), BaselineScope(Yard(baseline)))
    ensures exists e :: e in EvaluationsOf(Yard(baseline), BaselineScope(Yard(baseline)))
                        && e.order == "O" && e.inputState == Valid && e.eligibilityState == Eligible
  {
    var s := Yard(baseline);
    YardIsWellFormed(baseline);
    YardOffers(baseline);
    YardTables(baseline);
    MemberIffCounted("V", baseline);
    assert baseline[0] in baseline;
    CandidatesMembers(s, BaselineScope(s), CHOICE);
    OfferedIsEligibleAt(s, BaselineScope(s), 0, CHOICE);
    EvaluationOrderAt(s, BaselineScope(s), 0);
  }

  // ---------------------------------------------------------------- a service listed twice

  const TWICE: seq<Id> := ["V", "V"]

  /** A plan nobody is in, reported as the solver reports it. */
  function NobodyPlaced(evaluations: seq<OrderEvaluation>): SolveResult {
    SolveResult(SolverFeasible, false, [], Outcomes(evaluations, {}), map[AssignedCount := 0])
  }

  function YardEvaluations(): seq<OrderEvaluation>
    requires WagonsKnown(Yard(TWICE))
  {
    EvaluationsOf(Yard(TWICE), BaselineScope(Yard(TWICE)))
  }

  lemma TwiceLeavesNoChoice(c: Candidate)
    requires WellFormed(Yard(TWICE)) && WagonsKnown(Yard(TWICE))
    ensures c !in Choosable(CandidatesOf(Yard(TWICE), BaselineScope(Yard(TWICE))))
  {
    CandidatesMembers(Yard(TWICE), BaselineScope(Yard(TWICE)), c);
    assert multiset(TWICE) == multiset{"V", "V"};
  }

  lemma NobodyIsReported(evaluations: seq<OrderEvaluation>)
    ensures Reports(NobodyPlaced(evaluations), evaluations, {})
    ensures PlanOf(NobodyPlaced(evaluations).assignments) == {}
  {
    assert OrdersIn({}) == {};
  }

  lemma NobodyIsBest(b: Book, choices: set<Candidate>)
    requires choices == {}
    ensures MostOrders(b, choices, {})
  {
    EmptyPlanFeasible(b, choices);
    assert forall q :: Feasible(b, choices, q) ==> q == {};
  }

  lemma NobodyPlacedIsSound(b: Book, evaluations: seq<OrderEvaluation>)
    requires Choosable(AllCandidates(evaluations)) == {}
    ensures Sound(b, evaluations, NobodyPlaced(evaluations))
    ensures MostOrders(b, Choosable(AllCandidates(evaluations)), PlanOf(NobodyPlaced(evaluations).assignments))
  {
    NobodyIsReported(evaluations);
    NobodyIsBest(b, Choosable(AllCandidates(evaluations)));
  }

  lemma NobodyPlacedInYard()
    requires WellFormed(Yard(TWICE)) && WagonsKnown(Yard(TWICE))
    ensures MostPlaced(Yard(TWICE), BaselineScope(Yard(TWICE)), NobodyPlaced(YardEvaluations()))
  {
    forall c ensures c !in Choosable(AllCandidates(YardEvaluations())) {
      TwiceLeavesNoChoice(c);
    }
    NobodyPlacedIsSound(BookOf(Yard(TWICE)), YardEvaluations());
  }

  lemma TwiceIsNeverOnce()
    requires WellFormed(Yard(TWICE)) && WagonsKnown(Yard(TWICE))
    ensures forall c :: c in CandidatesOf(Yard(TWICE), BaselineScope(Yard(TWICE))) ==> multiset(TWICE)[c.service] != 1
  {
    var s := Yard(TWICE);
    forall c | c in CandidatesOf(s, BaselineScope(s)) ensures multiset(TWICE)[c.service] != 1 {
      TwiceLeavesNoChoice(c);
      CandidatesMembers(s, BaselineScope(s), c);
    }
  }

  lemma NeverOnceFakesConflict(s: Snapshot, r: SolveResult, e: OrderEvaluation, c: Candidate)
    requires WellFormed(s) && WagonsKnown(s) && MostPlaced(s, BaselineScope(s), r)
    requires e in EvaluationsOf(s, BaselineScope(s)) && e.inputState == Valid && e.eligibilityState == Eligible
    requires c in CandidatesOf(s, BaselineScope(s)) && c.order == e.order
    requires forall d :: d in CandidatesOf(s, BaselineScope(s)) ==> multiset(s.baselineServices)[d.service] != 1
    ensures !OfferingServicesListedOnce(s) && !ConflictsReal(s, r)
  {
    RepeatedServicesFakeConflict(s, r, e);
  }

  /** With the service listed twice the order is left out and shown as a capacity conflict,
      although its slot is free and its wagon empty. */
  lemma ListedTwiceFakesConflict()
    ensures var s := Yard(TWICE);
            && WellFormed(s) && WagonsKnown(s) && !OfferingServicesListedOnce(s)
            && MostPlaced(s, BaselineScope(s), NobodyPlaced(YardEvaluations()))
            && !ConflictsReal(s, NobodyPlaced(YardEvaluations()))
  {
    var s := Yard(TWICE);
    YardEvaluation(TWICE);
    NobodyPlacedInYard();
    TwiceIsNeverOnce();
    var e :| e in EvaluationsOf(s, BaselineScope(s))
             && e.order == "O" && e.inputState == Valid && e.eligibilityState == Eligible;
    NeverOnceFakesConflict(s, NobodyPlaced(YardEvaluations()), e, CHOICE);
  }

  // ---------------------------------------------------------------- a service approved for one order

  const SPARE := TRAIN.(id := "U")
  const ASKS := LOAD.(window := Some(AdjustmentWindow(["V"], [])))
  const REST := LOAD.(id := "P")

  /** Everything is on the service `V`, which only one of two orders may be moved to. */
  function SharedYard(): Snapshot {
    Yard(["U"]).(services := [TRAIN, SPARE], orders := [ASKS, REST],
                 policy := RULES.(allowed := [AddOrderApprovedService]))
  }

  const APPROVED: seq<Change> := [AddService("V")]
  const OTHERS := Candidate("P", "V", "W", "L")

  lemma Pair<T>(x: T, y: T, key: T -> Id)
    requires key(x) != key(y)
    ensures ById([x, y], key) == map[key(x) := x, key(y) := y]
    ensures MapSeq([x, y], key) == [key(x), key(y)]
    ensures DistinctKeys([x, y], key)
  {
    Single(x, key);
    assert [x, y][..1] == [x];
  }

  lemma SharedTables()
    ensures OrderTable(SharedYard()) == map["O" := ASKS, "P" := REST]
    ensures ById(SharedYard().services, ServiceId) == map["V" := TRAIN, "U" := SPARE]
    ensures IdsDistinct(SharedYard())
  {
    YardTables(["U"]);
    Pair(ASKS, REST, OrderId);
    Pair(TRAIN, SPARE, ServiceId);
  }

  lemma SharedKnows()
    ensures var s := SharedYard();
            && Known("T", s.terminals, TerminalId) && Known("R", s.routes, RouteId)
            && Known("V", s.services, ServiceId) && Known("U", s.services, ServiceId)
            && Known("W", s.wagons, WagonId)
  {
    SharedTables();
    YardKnows(["U"]);
    KnownInTable("V", SharedYard().services, ServiceId);
    KnownInTable("U", SharedYard().services, ServiceId);
  }

  lemma SharedServicesResolve()
    ensures forall v :: v in SharedYard().services ==> ServiceResolves(SharedYard(), v)
  {
    SharedKnows();
  }

  lemma SharedOrdersResolve()
    ensures forall o :: o in SharedYard().orders ==> OrderResolves(SharedYard(), o)
  {
    SharedKnows();
    assert ASKS.window.value.services == ["V"];
  }

  lemma SharedReferences()
    ensures var s := SharedYard();
            && Populated(s)
            && (forall v :: v in s.baselineServices ==> Known(v, s.services, ServiceId))
            && (forall w :: w in s.wagons ==> Known(w.service, s.services, ServiceId))
            && (forall l :: l in s.slots ==> Known(l.wagon, s.wagons, WagonId))
  {
    SharedKnows();
  }

  lemma SharedIsWellFormed()
    ensures WellFormed(SharedYard()) && WagonsKnown(SharedYard())
  {
    SharedTables();
    SharedReferences();
    SharedServicesResolve();
    SharedOrdersResolve();
    AllPartsWellFormed(SharedYard());
  }

  lemma AllPartsWellFormed(s: Snapshot)
    requires Populated(s) && IdsDistinct(s)
    requires forall v :: v in s.baselineServices ==> Known(v, s.services, ServiceId)
    requires forall v :: v in s.services ==> ServiceResolves(s, v)
    requires forall w :: w in s.wagons ==> Known(w.service, s.services, ServiceId)
    requires forall l :: l in s.slots ==> Known(l.wagon, s.wagons, WagonId)
    requires forall o :: o in s.orders ==> OrderResolves(s, o)
    ensures WellFormed(s) && WagonsKnown(s)
  {
    WellFormedWagons(s);
  }

  lemma SharedIsApproved()
    ensures Approved(SharedYard(), "O", [AddOrderApprovedService], APPROVED)
  {
    SharedTables();
  }

  lemma SharedDerives(scenarioId: Id)
    requires scenarioId != ""
    ensures Derivable(SharedYard(), scenarioId, "O", APPROVED)
  {
    SharedIsWellFormed();
    SharedIsApproved();
    ApprovedResolve(SharedYard(), "O", [AddOrderApprovedService], APPROVED);
    ResolvableIsDerivable(SharedYard(), scenarioId, "O", APPROVED);
  }

  lemma RestPassesService()
    requires WagonsKnown(SharedYard())
    ensures ServiceCodes(IndexOf(SharedYard()), REST, TRAIN) == {}
  {
    YardTables(["U"]);
    ServiceCodesEmpty(IndexOf(SharedYard()), REST, TRAIN);
  }

  lemma SharedBerth()
    requires WagonsKnown(SharedYard())
    ensures BerthTable(SharedYard()) == map["L" := Berth(CAR, PLACE)]
  {
    YardTables(["U"]);
    assert Berths(SharedYard()) == [Berth(CAR, PLACE)];
    Single(Berth(CAR, PLACE), BerthSlot);
  }

  lemma SharedOffersOthers()
    requires WagonsKnown(SharedYard())
    ensures Offers(SharedYard(), OTHERS)
  {
    SharedTables();
    SharedBerth();
    RestPassesService();
    SlotCodesEmpty(REST, Berth(CAR, PLACE));
  }

  lemma OthersAreOffered(scenarioId: Id)
    requires Derivable(SharedYard(), scenarioId, "O", APPROVED)
    ensures OffersOthers(SharedYard(), scenarioId, "O", APPROVED, OTHERS)
  {
    SharedOffersOthers();
    OffersAlike(SharedYard(), scenarioId, "O", APPROVED, OTHERS);
  }

  /** A service approved for one order alone, in a derived scenario that is solved again as it
      stands: the other order may use it too. */
  lemma SolvedAgainOpensToOthers(scenarioId: Id)
    requires scenarioId != ""
    ensures var s := SharedYard();
            && Approved(s, "O", [AddOrderApprovedService], APPROVED) && Derivable(s, scenarioId, "O", APPROVED)
            && OTHERS in BaseChoices(Derived(s, scenarioId, "O", APPROVED))
            && OTHERS !in DerivedChoices(s, scenarioId, "O", APPROVED)
  {
    var s := SharedYard();
    SharedIsApproved();
    SharedDerives(scenarioId);
    OthersAreOffered(scenarioId);
    SolvedAgainAdds(s, scenarioId, "O", APPROVED, OTHERS);
  }

  // ---------------------------------------------------------------- a service the policy does not open

  /** The window lists the service, but the policy allows no change at all. */
  function UngrantedYard(): Snapshot {
    SharedYard().(policy := RULES)
  }

  lemma UngrantedIsWellFormed()
    ensures WellFormed(UngrantedYard()) && OrderTable(UngrantedYard()) == map["O" := ASKS, "P" := REST]
  {
    SharedTables();
    SharedIsWellFormed();
    AnyPolicyIsWellFormed(SharedYard(), RULES);
  }

  lemma AnyPolicyIsWellFormed(s: Snapshot, policy: Policy)
    requires WellFormed(s)
    ensures WellFormed(s.(policy := policy))
  {
    var t := s.(policy := policy);
    forall v | v in t.services ensures ServiceResolves(t, v) {
      assert ServiceResolves(s, v);
    }
    forall o | o in t.orders ensures OrderResolves(t, o) {
      assert OrderResolves(s, o);
    }
  }

  lemma UngrantedIsNegotiable(x: OrderOutcome)
    requires x.order == "O" && x.inputState == Valid && x.assignmentState != Assigned
    ensures Negotiable(UngrantedYard(), x)
  {
    UngrantedIsWellFormed();
    assert AddOrderApprovedService in PermittedTypes(ASKS);
  }

  /** Left out by any run, the order is suggested a change, and asking for it finds that nothing
      would be allowed. */
  lemma UngrantedSuggestionIsVain(run: Run, x: OrderOutcome, ideas: seq<Idea>, scenarioId: Id, runId: Id,
                                  world: World, out: SearchResult, solved: SolveResult)
    requires x.order == "O" && x.inputState == Valid && x.assignmentState != Assigned
    requires Negotiable(UngrantedYard(), x)
    requires Answers(UngrantedYard(), run, "O", SuggestionFor(UngrantedYard(), x, ideas).types, scenarioId, runId,
                     world, out, solved)
    ensures WellFormed(UngrantedYard()) && out == NotFound([], Because(AlternativeRequiresForbiddenChange))
  {
    UngrantedIsWellFormed();
    SuggestionIsTriedIff(UngrantedYard(), run, x, ideas, scenarioId, runId, world, out, solved);
  }

  // ---------------------------------------------------------------- a destination no train runs to

  const FAR := HERE.(id := "Q")

  function Redirect(services: seq<Id>): Order { LOAD.(window := Some(AdjustmentWindow(services, ["Q"]))) }

  /** The order may be redirected to a terminal that nothing runs to, with or without a service to
      pair with; the policy allows both changes. */
  function RemoteYard(services: seq<Id>): Snapshot {
    Yard(["V"]).(terminals := [HERE, FAR], orders := [Redirect(services)],
                 policy := RULES.(allowed := [AddOrderApprovedService, ChangeToApprovedTerminal]))
  }

  lemma RemoteTables(services: seq<Id>)
    ensures OrderTable(RemoteYard(services)) == map["O" := Redirect(services)]
    ensures ById(RemoteYard(services).terminals, TerminalId) == map["T" := HERE, "Q" := FAR]
    ensures IdsDistinct(RemoteYard(services))
  {
    YardTables(["V"]);
    Single(Redirect(services), OrderId);
    Pair(HERE, FAR, TerminalId);
  }

  lemma RemoteKnows(services: seq<Id>)
    ensures var s := RemoteYard(services);
            && Known("T", s.terminals, TerminalId) && Known("Q", s.terminals, TerminalId)
            && Known("R", s.routes, RouteId) && Known("V", s.services, ServiceId) && Known("W", s.wagons, WagonId)
  {
    RemoteTables(services);
    YardKnows(["V"]);
    KnownInTable("T", RemoteYard(services).terminals, TerminalId);
    KnownInTable("Q", RemoteYard(services).terminals, TerminalId);
  }

  lemma RemoteResolves(services: seq<Id>)
    requires services == [] || services == ["V"]
    ensures forall v :: v in RemoteYard(services).services ==> ServiceResolves(RemoteYard(services), v)
    ensures forall o :: o in RemoteYard(services).orders ==> OrderResolves(RemoteYard(services), o)
  {
    RemoteKnows(services);
    assert Redirect(services).window.value.destinationTerminals == ["Q"];
  }

  lemma RemoteIsWellFormed(services: seq<Id>)
    requires services == [] || services == ["V"]
    ensures WellFormed(RemoteYard(services))
  {
    RemoteTables(services);
    RemoteKnows(services);
    RemoteResolves(services);
  }

  /** Left out by any run, its order is told to change terminal, and to pair that with a service
      when one is listed. */
  lemma RemoteIsToldToMove(services: seq<Id>, x: OrderOutcome, ideas: seq<Idea>)
    requires x.order == "O" && x.inputState == Valid && x.assignmentState != Assigned
    ensures Negotiable(RemoteYard(services), x) && NeedsPairing(Redirect(services), RemoteYard(services))
    ensures NothingReaches(Redirect(services), RemoteYard(services))
    ensures var types := SuggestionFor(RemoteYard(services), x, ideas).types;
            && ChangeToApprovedTerminal in types
            && (AddOrderApprovedService in types <==> services != [])
  {
    RemoteTables(services);
    assert ChangeToApprovedTerminal in PermittedTypes(Redirect(services));
    PairsIff(RemoteYard(services), x, ideas);
  }

  /** Asking for what is suggested then never finds anything, paired or not. */
  lemma RemoteSuggestionIsHopeless(services: seq<Id>, run: Run, x: OrderOutcome, ideas: seq<Idea>, scenarioId: Id,
                                   runId: Id, world: World, out: SearchResult, solved: SolveResult)
    requires services == [] || services == ["V"]
    requires x.order == "O" && x.inputState == Valid && x.assignmentState != Assigned
    requires Negotiable(RemoteYard(services), x)
    requires Answers(RemoteYard(services), run, "O", SuggestionFor(RemoteYard(services), x, ideas).types, scenarioId,
                     runId, world, out, solved)
    ensures WellFormed(RemoteYard(services)) && !out.Found?
  {
    RemoteTables(services);
    RemoteIsWellFormed(services);
    RemoteIsToldToMove(services, x, ideas);
    HopelessSuggestion(RemoteYard(services), run, x, ideas, scenarioId, runId, world, out, solved);
  }
}
