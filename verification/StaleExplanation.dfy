/** Requests after which a stored explanation no longer describes its run. */
module StaleExplanation {
  import opened Ordering
  import opened ReasonCodes
  import opened Snapshots
  import opened Eligibility
  import opened GateProperties
  import opened CpSat
  import opened BaselineSolve
  import opened Listing
  import opened Agreement
  import opened Planning
  import opened Alternatives
  import opened Suggestions
  import opened Explanations
  import opened Storage
  import opened Lifecycle
  import opened Handlers
  import opened SmallYard

  // ---------------------------------------------------------------- an order that misses its train

  const ONCE: seq<Id> := ["V"]

  /** Ready after the cutoff of the one service, and with no window for changes. */
  const LATE := LOAD.(readyAt := 1, dueAt := 2)

  function LateYard(): Snapshot { Yard(ONCE).(orders := [LATE]) }

  const LATE_REQUEST := ScenarioRequest("v1", ONCE, [], LateYard(), None)

  lemma LateTables()
    ensures OrderTable(LateYard()) == map["O" := LATE]
    ensures MapSeq(LateYard().orders, OrderId) == ["O"]
    ensures ById(LateYard().services, ServiceId) == map["V" := TRAIN]
    ensures IdsDistinct(LateYard())
  {
    YardTables(ONCE);
    Single(LATE, OrderId);
  }

  lemma OtherOrdersWellFormed(s: Snapshot, orders: seq<Order>)
    requires WellFormed(s) && orders != [] && DistinctKeys(orders, OrderId)
    requires forall o :: o in orders ==> OrderResolves(s, o)
    ensures WellFormed(s.(orders := orders)) && WagonsKnown(s.(orders := orders))
  {
    var t := s.(orders := orders);
    forall v | v in t.services ensures ServiceResolves(t, v) {
      assert ServiceResolves(s, v);
    }
    forall o | o in t.orders ensures OrderResolves(t, o) {
      assert OrderResolves(s, o);
    }
    WellFormedWagons(t);
  }

  lemma LateIsWellFormed()
    ensures WellFormed(LateYard()) && WagonsKnown(LateYard())
  {
    LateTables();
    YardIsWellFormed(ONCE);
    assert OrderResolves(Yard(ONCE), LOAD);
    OtherOrdersWellFormed(Yard(ONCE), [LATE]);
  }

  lemma LateIsConsistent()
    ensures Consistent(LATE_REQUEST)
  {
    YardKnows(ONCE);
  }

  lemma NothingOffered(c: Candidate)
    requires WagonsKnown(LateYard())
    ensures !Offers(LateYard(), c)
  {
    var ix := IndexOf(LateYard());
    LateTables();
    assert ServiceViolates(ix, LATE, TRAIN, ReadyAfterCutoff);
    assert ReadyAfterCutoff in ServiceCodes(ix, LATE, TRAIN);
  }

  lemma NoCandidates()
    requires WellFormed(LateYard()) && WagonsKnown(LateYard())
    ensures CandidatesOf(LateYard(), BaselineScope(LateYard())) == []
  {
    var cs := CandidatesOf(LateYard(), BaselineScope(LateYard()));
    forall c ensures c !in cs {
      CandidatesMembers(LateYard(), BaselineScope(LateYard()), c);
      NothingOffered(c);
    }
    SomeMember(cs);
  }

  lemma LateHasNoSlot(services: seq<Id>)
    requires WellFormed(LateYard()) && WagonsKnown(LateYard())
    ensures var e := EvaluationOf(IndexOf(LateYard()), LATE, services);
            e.inputState == Valid && e.eligibilityState == Ineligible
  {
    var s, ix := LateYard(), IndexOf(LateYard());
    LateTables();
    HeldOrders(ix, LATE, services);
    forall c ensures c !in EvaluationOf(ix, LATE, services).candidates {
      CandidatesOfOrder(s, LATE, services, c);
      NothingOffered(c);
    }
    SomeMember(EvaluationOf(ix, LATE, services).candidates);
    CandidatesOfOrder(s, LATE, services, CHOICE);
  }

  /** The gate finds nothing for the order, which is valid. */
  lemma LateIsIneligible()
    requires WellFormed(LateYard()) && WagonsKnown(LateYard())
    ensures var evaluations := EvaluationsOf(LateYard(), BaselineScope(LateYard()));
            && |evaluations| == 1
            && evaluations[0].inputState == Valid && evaluations[0].eligibilityState == Ineligible
  {
    var s := LateYard();
    EvaluationAt(IndexOf(s), s.orders, BaselineScope(s), 0);
    LateHasNoSlot(ScopeFor(BaselineScope(s), LATE));
  }

  lemma LateOutcomes(placed: set<Id>)
    requires WellFormed(LateYard()) && WagonsKnown(LateYard())
    ensures forall x :: x in Outcomes(EvaluationsOf(LateYard(), BaselineScope(LateYard())), placed) ==>
                          ShowsVainSearch(x)
  {
    LateIsIneligible();
    OutcomeMembers(EvaluationsOf(LateYard(), BaselineScope(LateYard())), placed);
  }

  /** Any run of it reports the order, and its card reads as not yet reviewed. */
  lemma LateRun(world: World, run: Run)
    requires Honest(world.engine) && SolvedFrom(LateYard(), world, run)
    ensures run.status != SolverError && forall x :: x in run.outcomes ==> ShowsVainSearch(x)
  {
    LateIsWellFormed();
    NoCandidates();
    LateOutcomes(OrdersIn(PlanOf(run.assignments)));
  }

  // ---------------------------------------------------------------- solve, explain, search in vain

  /** A stored run of the order's yard, on which nothing has been searched. */
  ghost predicate RunOfLate(s: State, r: Id) {
    && r in s.runs && s.runs[r].scenario in s.scenarios
    && s.scenarios[s.runs[r].scenario].snapshot == LateYard()
    && forall x :: x in s.runs[r].outcomes ==> ShowsVainSearch(x)
  }

  ghost predicate SolvedLate(s: State, r: Id) {
    RunOfLate(s, r) && r !in s.explanations
  }

  lemma NewRunUnexplained(s: State, run: Run)
    requires Reachable(s) && IssuedIds(s, CompleteRun(run))
    ensures run.id !in s.explanations
  {
    ReachableIsRight(s);
    FreshIds(s);
  }

  lemma RunIsSolvedLate(s: State, run: Run)
    requires Reachable(s) && Allowed(s, CompleteRun(run))
    requires run.scenario in s.scenarios && s.scenarios[run.scenario].snapshot == LateYard()
    requires forall x :: x in run.outcomes ==> ShowsVainSearch(x)
    ensures SolvedLate(Effect(s, CompleteRun(run)), run.id)
  {
    NewRunUnexplained(s, run);
  }

  ghost predicate StoredLate(s: State, id: Id) {
    id in s.scenarios && s.scenarios[id].snapshot == LateYard()
  }

  method StoreLate(store: MemoryStore, now: int) returns (id: Id)
    requires Reachable(store.Contents())
    modifies store
    ensures Reachable(store.Contents()) && StoredLate(store.Contents(), id)
  {
    LateIsWellFormed();
    LateIsConsistent();
    ghost var did;
    var reply;
    reply, did := PostScenario(store, LATE_REQUEST, now);
    id := reply.value;
  }

  lemma ValidatedLate(s: State, id: Id, v: Validation, anyCandidate: bool)
    requires StoredLate(s, id)
    ensures StoredLate(Effect(s, Validate(id, v, anyCandidate)), id)
    ensures id in Effect(s, Validate(id, v, anyCandidate)).validations
  {
  }

  method ValidateLate(store: MemoryStore, id: Id)
    requires Reachable(store.Contents()) && StoredLate(store.Contents(), id)
    modifies store
    ensures Reachable(store.Contents()) && StoredLate(store.Contents(), id) && id in store.validations
  {
    ghost var before := store.Contents();
    ghost var did;
    var reply;
    reply, did := ValidateScenario(store, id);
    ValidatedLate(before, id, did.validation, did.anyCandidate);
  }

  method SolveLate(store: MemoryStore, world: World, now: int) returns (runId: Id)
    requires Reachable(store.Contents()) && Honest(world.engine)
    modifies store
    ensures Reachable(store.Contents()) && SolvedLate(store.Contents(), runId)
  {
    var id := StoreLate(store, now);
    ValidateLate(store, id);
    runId := RunLate(store, id, world);
  }

  method RunLate(store: MemoryStore, id: Id, world: World) returns (runId: Id)
    requires Reachable(store.Contents()) && Honest(world.engine)
    requires StoredLate(store.Contents(), id) && id in store.validations
    modifies store
    ensures Reachable(store.Contents()) && SolvedLate(store.Contents(), runId)
  {
    ghost var before := store.Contents();
    ghost var did, run;
    var reply;
    reply, did, run := PostRun(store, id, 1, world);
    LateRun(world, run);
    RunIsSolvedLate(before, run);
    runId := reply.value.id;
  }

  lemma VainAnswer(s: State, r: Id, world: World, out: SearchResult)
    requires RunOfLate(s, r)
    requires SearchedFor(s, r, "O", [AddOrderApprovedService], world, out)
    ensures out == NotFound([], Because(AlternativeRequiresForbiddenChange))
  {
    LateTables();
    var scenarioId := Sequences.Format(Sequences.ALTERNATIVE_SCENARIO_PREFIX, s.alternativeSeq + 1);
    var runId := Sequences.Format(Sequences.ALTERNATIVE_RUN_PREFIX, s.alternativeSeq + 1);
    var budget := world.(maxSeconds := s.runs[r].maxSeconds);
    var solved :|
      Answers(LateYard(), s.runs[r], "O", [AddOrderApprovedService], scenarioId, runId, budget, out, solved);
    UnpermittedIsNotRefused(LateYard(), s.runs[r], "O", [AddOrderApprovedService], scenarioId, runId, budget, out,
                            solved);
  }

  /** The run is explained, and every card is as its run calls for. */
  ghost predicate ExplainedLate(s: State, r: Id) {
    && RunOfLate(s, r)
    && r in s.explanations && Written(s.explanations[r], s.runs[r].outcomes)
  }

  method ExplainLate(store: MemoryStore, runId: Id, drafts: Option<seq<Draft>>, ideas: seq<Idea>)
    requires Reachable(store.Contents()) && SolvedLate(store.Contents(), runId)
    modifies store
    ensures Reachable(store.Contents()) && ExplainedLate(store.Contents(), runId)
  {
    ghost var outcomes := store.runs[runId].outcomes;
    ghost var did;
    var reply;
    reply, did := GetExplanation(store, runId, drafts, ideas);
    CardsAreWritten(LateYard(), outcomes, drafts, ideas);
  }

  lemma MissOutdates(e: Explanation, outcomes: seq<OrderOutcome>, order: Id)
    requires Written(e, outcomes) && exists o :: o in outcomes && o.order == order
    requires forall o :: o in outcomes ==> ShowsVainSearch(o)
    ensures !Written(e, Applied(outcomes, order, NoAlternative, None))
  {
    WrittenAfterMiss(e, outcomes, order);
  }

  lemma LateIsReported(s: State, r: Id)
    requires Reachable(s) && ExplainedLate(s, r)
    ensures exists o :: o in s.runs[r].outcomes && o.order == "O"
  {
    LateTables();
    ReachableOutcome(s, r, "O");
  }

  lemma VainSearchLeavesStale(s: State, r: Id)
    requires Reachable(s) && ExplainedLate(s, r)
    ensures var t := Effect(s, MissAlternative(r, "O"));
            r in t.runs && r in t.explanations && !Written(t.explanations[r], t.runs[r].outcomes)
  {
    LateIsReported(s, r);
    MissMoves(s, r, "O");
    MissOutdates(s.explanations[r], s.runs[r].outcomes, "O");
  }

  method SearchLate(store: MemoryStore, runId: Id, world: World, now: int) returns (reply: Reply<SearchResult>)
    requires Reachable(store.Contents()) && ExplainedLate(store.Contents(), runId)
    modifies store
    ensures Reachable(store.Contents()) && reply == Ok(NotFound([], Because(AlternativeRequiresForbiddenChange)))
    ensures runId in store.explanations && runId in store.runs
    ensures !Written(store.explanations[runId], store.runs[runId].outcomes)
  {
    LateTables();
    ghost var before := store.Contents();
    ghost var did, out;
    reply, did, out := PostAlternative(store, runId, "O", [AddOrderApprovedService], world, now);
    VainAnswer(before, runId, world, out);
    VainSearchLeavesStale(before, runId);
  }

  /** From any reachable store, with any honest engine and whatever the text generator replies:
      store the yard, validate, solve, explain, then ask for an adjustment the order has no window
      for. The request is answered as a search that found nothing, and the explanation stays with
      a card that is out of date. */
  method ExplainThenSearch(store: MemoryStore, world: World, drafts: Option<seq<Draft>>, ideas: seq<Idea>, now: int)
    returns (runId: Id, reply: Reply<SearchResult>)
    requires Reachable(store.Contents()) && Honest(world.engine)
    modifies store
    ensures Reachable(store.Contents()) && !Current(store.Contents())
    ensures runId in store.explanations && runId in store.runs
    ensures !Written(store.explanations[runId], store.runs[runId].outcomes)
    ensures reply == Ok(NotFound([], Because(AlternativeRequiresForbiddenChange)))
  {
    runId := SolveLate(store, world, now);
    ExplainLate(store, runId, drafts, ideas);
    reply := SearchLate(store, runId, world, now);
  }

  /** So it happens from an empty store on. */
  method StaleFromTheStart(world: World, drafts: Option<seq<Draft>>, ideas: seq<Idea>, now: int)
    returns (store: MemoryStore, runId: Id)
    requires Honest(world.engine)
    ensures fresh(store) && Reachable(store.Contents()) && !Current(store.Contents())
  {
    store := new MemoryStore();
    EmptyIsReachable();
    var reply;
    runId, reply := ExplainThenSearch(store, world, drafts, ideas, now);
  }
}
