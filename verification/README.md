# Rail slot planning, verified

A Dafny model of the planning pipeline and the record store of the rail slot planning service,
with proofs of what they promise.

Orders ask for a slot on a wagon of a scheduled service. The **gate** decides which slots each
order could hold and why it could not. The **staged solve** builds a 0/1 model over those
candidates and optimises the number of placed orders, their priority, their due times and one
canonical cost per order, pinning each value before the next stage. The **validator** re-checks
the plan from the snapshot without the gate. An **alternative** opens approved changes to one
order in a derived scenario, solves it and compares. The **store** keeps scenarios, validations,
runs, decisions, trails and explanations; each request is one step.

| file | what it holds |
|---|---|
| `Ordering.dfy` | text order, sorting, lookup tables, grouping |
| `Snapshot.dfy`, `ReasonCodes.dfy` | the planning input, its referential integrity, the reason codes |
| `Eligibility.dfy`, `GateProperties.dfy`, `Listing.dfy`, `GateCodes.dfy` | the gate, what it computes, the candidate list of a scenario, each code on the records |
| `Plans.dfy`, `Separability.dfy` | plans as sets of candidates, the preference between them, how it separates |
| `CpSat.dfy`, `Stages.dfy` | the solver contract, the pin-and-refine loop |
| `AssignmentModel.dfy`, `Objectives.dfy` | what the linear constraints and the objectives mean for plans |
| `Baseline.dfy`, `Planning.dfy`, `Conflicts.dfy` | the solve, decoding, outcomes, the packaged run, whether a shown conflict is one |
| `Preferences.dfy`, `Verdicts.dfy` | what an optimal plan and a reported outcome say about the orders themselves |
| `PlanValidator.dfy`, `Agreement.dfy` | the validator, and its two-sided agreement with the gate and the model |
| `Hashing.dfy`, `Determinism.dfy` | the canonical result form, reproducibility |
| `ChangeSets.dfy`, `DerivedScenario.dfy`, `Deltas.dfy`, `Alternatives.dfy` | alternatives |
| `Suggestions.dfy`, `Explanations.dfy` | what is suggested to an order and what its card says |
| `Sequences.dfy`, `Storage.dfy`, `Lifecycle.dfy`, `Handlers.dfy` | identifiers, the store, its life as a state machine, the request handlers |
| `SmallYard.dfy`, `StaleExplanation.dfy` | the concrete inputs at which promises fail |

## How the outside world is modelled

- The CP-SAT solver is a function from call number, time allowed and problem to an answer, so it
  may answer the same problem differently each time. An engine is *honest* when OPTIMAL comes with a best
  admitted point, FEASIBLE with an admitted point, INFEASIBLE only when there is none, and
  UNKNOWN promises nothing. Statements that need honesty say so; the rest hold for any engine.
- The clock behind the time budget is an arbitrary function of the tick; creation times and
  decision ids are parameters.
- The preference between plans is stated on slots and orders, not on the ranks the program
  assigns, so that plans of the baseline and of a derived scenario can be compared although the
  program renumbers the slots in between.
- A repeated service in `baselineServices` is accepted by the snapshot and turns an order's
  constraint into `2x <= 1`. Nothing here excludes it: a plan ranges over the candidates listed
  exactly once, and the statements that fail for repeated services carry that condition.

## Where the code and its own words differ

- `app/ai/suggest.py:122-128` says that asking for an adjustment outside an order's window is a
  409. Only a type on the policy's forbidden list is. A request of nothing but such types ends as a
  search that finds nothing (`Suggestions.UnpermittedIsNotRefused`, and a concrete request in
  `StaleExplanation.VainAnswer`); next to a type that is inside the window they are ignored.
- `app/ai/suggest.py:311-325` promises that the pairing rule keeps a suggestion from coming back
  empty every time. It does exactly where the order, sent to the approved destination, fits a slot
  on a service its window lists and the policy lets it join
  (`Suggestions.PairedSuggestionSucceedsIff`). Where no listed service runs there, or none is
  listed at all, the suggestion never finds anything (`Suggestions.HopelessSuggestion`; both kinds
  of snapshot in `SmallYard.RemoteSuggestionIsHopeless`).
- `app/ai/suggest.py:14-16` says the suggested types are what policy already approved. They are
  what the order's window has; the policy's lists are not read
  (`Suggestions.SuggestionIsTriedIff`; a snapshot in `SmallYard.UngrantedSuggestionIsVain`).
- `app/routers/ai.py:66-75` says the alternative search clears the stored explanation. Only a
  search that finds something does. One that finds nothing leaves a card behind that is wrong
  exactly when the order read as AVAILABLE, or as INELIGIBLE and not searched
  (`Lifecycle.ExplanationsStayCurrentIff`), and the handlers get there
  (`StaleExplanation.ExplainThenSearch`).
- `app/services/alternatives.py:117-127` keeps the added services to the requesting order. The
  derived scenario is stored with the widened list, so validating or solving it again opens them
  to every order that fits (`DerivedScenario.SolvedAgainIff`,
  `SmallYard.SolvedAgainOpensToOthers`).
- `app/services/alternatives.py:291-314` says only `alternative_state` moves. The badge and the
  link to the derived scenario move with it.
- `app/solver/baseline.py:405-417` shows CAPACITY_CONFLICT for every eligible order left out, as
  capacity by definition. A candidate of such an order is blocked exactly when its service is not
  repeated in the baseline list (`Conflicts.BaselineConflictIff`), and `SmallYard` is a snapshot
  where the shown reason is wrong (`SmallYard.ListedTwiceFakesConflict`).

## Model

| member | source | states |
|---|---|---|
| Snapshots.ReferencesResolve | app/models/snapshot.py:183-294 | no error is reported if and only if the snapshot is well-formed: a name, no empty list, distinct ids per list, every reference known, cutoff no later than departure, departure before arrival |
| Snapshots.RejectDuplicates | app/models/snapshot.py:297-302 | adds an error if and only if some id repeats |
| Snapshots.WellFormedReads | app/models/snapshot.py:183-294 | well-formed, list by list: which lists are not empty, which ids are distinct and which records each reference finds |
| Snapshots.ServiceReads | app/models/snapshot.py:225-247 | a service resolves exactly when both its terminals and its route are there, it arrives after it leaves and closes no later than it leaves |
| Snapshots.OrderReads | app/models/snapshot.py:261-290 | an order resolves exactly when its shipper, its terminals and everything its window lists are there |
| ReasonCodes.PrimaryIsLeast | app/rules/reason_codes.py:98-106 | the primary code is a listed code that no other listed code precedes by family and then by published text |
| ReasonCodes.PrimaryIgnoresOrder | app/rules/reason_codes.py:98-106 | the primary code depends only on which codes are listed, not on their order or repeats |
| ReasonCodes.PrimaryLeads | app/rules/reason_codes.py:15-106 | with the seven groups written out: the code shown is from the first group that is listed, input before time before terminal before size and weight before resources before capacity before alternatives, and first in text order inside it |
| ReasonCodes.AlphabeticalOrder | app/rules/reason_codes.py:29-68 | the numeric tie-break position used for the codes is exactly the text order of their published spellings |
| ReasonCodes.TextInjective | app/rules/reason_codes.py:29-68 | no two codes share a spelling |
| Eligibility.BuildIndex | app/rules/eligibility.py:67-82 | the lookup tables hold every record by id and every slot, with its wagon, under the service its wagon runs on |
| Eligibility.CheckService | app/rules/eligibility.py:219-265 | returns exactly the service-level codes whose condition holds |
| Eligibility.CheckSlot | app/rules/eligibility.py:268-295 | returns exactly the slot-level codes whose condition holds |
| Eligibility.ValidateInput | app/rules/eligibility.py:202-216 | reports the missing weight and the inverted time range, and nothing exactly when the order is valid |
| Eligibility.ScanBerths | app/rules/eligibility.py:176-186 | appends the open slots in order and collects exactly the codes of the others |
| Eligibility.TryService | app/rules/eligibility.py:154-186 | a service that is unknown or fails is not descended into; otherwise its slots are |
| Eligibility.EvaluateOrder | app/rules/eligibility.py:116-199 | the loops compute the order's evaluation over its services |
| Eligibility.EvaluateScenario | app/rules/eligibility.py:85-113 | every order is evaluated once, in snapshot order, on its own service list or the default one |
| GateProperties.HeldOrders | app/rules/eligibility.py:127-135 | an order is held exactly when its weight is missing or its times are inverted, with exactly those codes and no candidate |
| GateProperties.CandidatesOfOrder | app/rules/eligibility.py:138-188 | for a valid order the candidates are exactly the slots wired to a listed service that violate nothing, as often as that service is listed; eligible exactly when there is one |
| GateProperties.CandidateCount | app/rules/eligibility.py:147-188 | a fitting slot is listed once per listing of its service, anything else never |
| GateProperties.CodesOfOrder | app/rules/eligibility.py:154-199 | an ineligible order carries exactly the service codes plus the slot codes of services that passed; NO_ELIGIBLE_SLOT alone when there is none |
| GateProperties.ServiceOrderIrrelevant | app/rules/eligibility.py:138-199 | verdict and codes depend only on which services are listed |
| GateCodes.LegReasonsRead | app/rules/eligibility.py:154-265 | for a valid order turned away, on the records themselves: which listed service makes each leg and time code appear, handling minutes included |
| GateCodes.RouteReasonsRead | app/rules/eligibility.py:255-265 | the tunnel height, the route width and the route weight code appear exactly when a listed service's route is too low, too narrow or too light for the order |
| GateCodes.SlotResourcesRead | app/rules/eligibility.py:268-280 | each availability and tag code of a slot appears exactly when a slot or wagon of a listed service that carries the order breaks it |
| GateCodes.SlotLimitsRead | app/rules/eligibility.py:281-295 | each size and weight code of a slot appears exactly when such a slot, or its wagon, is exceeded in that measure |
| GateCodes.NoSlotRead | app/rules/eligibility.py:189-199 | NO_ELIGIBLE_SLOT appears exactly when every listed service is known and carries the order and none has a slot, and then it stands alone |
| GateCodes.ReasonsAscend | app/rules/eligibility.py:189-199 | the codes of any verdict come in text order, each once |
| GateCodes.CandidatesRead | app/rules/eligibility.py:138-188 | the candidates are exactly the slots of listed services that carry the order and that take its size, tags and weight |
| GateCodes.CandidatesInOrder | app/rules/eligibility.py:154-166 | the candidates on one service come by wagon display order, then position, then slot id |
| Listing.CandidatesCount | app/rules/eligibility.py:85-113 | over the whole scenario an offered candidate is listed once per listing of its service for its order, nothing else is listed |
| Listing.CandidatesResolve | app/solver/baseline.py:106-131 | every candidate's order and wagon is in the snapshot, and order and slot name the candidate, so one variable per pair is enough |
| Listing.ServicesSeparate | app/rules/eligibility.py:72-82 | candidates on different services share neither slot nor wagon |
| CpSat.HonestEngineExists | app/solver/baseline.py:257-261 | the solver contract is inhabited: an exhaustive engine keeps it and always finishes |
| CpSat.CpModel.Add | app/solver/baseline.py:133-148 | a constraint is appended and nothing else in the model moves |
| CpSat.CpSolver.Solve | app/solver/baseline.py:283-297 | the answer is the engine's for the model as it stands |
| CpSat.StageStep | app/solver/baseline.py:207-226 | one pinned stage: never infeasible; a usable answer keeps every earlier figure; an optimal one extends lexicographic optimality by a stage |
| Stages.Budget.Exhausted | app/solver/baseline.py:264-280 | one deadline for the whole request; exhausted at or below the minimum stage time |
| Stages.Optimise | app/solver/baseline.py:283-297 | solves for the given objective over the model's constraints within what is left of the budget, at least the minimum stage time, and reports whether it was proved optimal |
| Stages.NextStage | app/solver/baseline.py:207-226 | from an incumbent that satisfies every pin, the next stage keeps the incumbent, the recorded values and the pins in step |
| Stages.SolveFirst | app/solver/baseline.py:161-174 | the first stage: never infeasible with an honest engine; a usable answer gives the first incumbent, its figure and its pin |
| Stages.SolveNext | app/solver/baseline.py:206-226 | a refinement under every pin so far: a usable answer replaces the incumbent and adds its pin and figure, any other leaves all of it as it was |
| Stages.RunStages | app/solver/baseline.py:150-226 | for every status sequence and every exhaustion point: nothing proved exactly when the first answer was unusable, infeasible never with an honest engine, and otherwise a feasible incumbent whose recorded values are its own; optimal exactly when every stage ran and was optimal, which is so when the engine always finishes and the budget lasts |
| AssignmentModel.ModelMeaning | app/solver/baseline.py:133-148 | a point satisfies the linear constraints if and only if it is a feasible plan over the candidates listed exactly once: one slot per order, one order per slot, each wagon within its weight |
| AssignmentModel.WagonLimitMeans | app/solver/baseline.py:140-148 | the weighted sum of a wagon's variables is within the limit exactly when the plan's load is |
| Objectives.CanonicalMeans | app/solver/baseline.py:190-199 | the canonical cost of an order is the rank of its slot, or the penalty when it has none |
| Objectives.RanksKeepOrder | app/solver/baseline.py:190-193 | slot ranks are injective, follow text order and stay below the unassigned penalty |
| Objectives.CostsComparePlacements | app/solver/baseline.py:190-199 | equal canonical costs mean the same slot and a smaller one a sooner slot |
| Objectives.LexOptimalIsBest | app/solver/baseline.py:161-226 | the lexicographic optimum over all stages is the plan preferred to every other feasible plan: more orders, then priority, then due time, then sooner slots by order |
| Objectives.FirstStagePlacesMost | app/solver/baseline.py:161-174 | an optimal first stage already fixes the greatest number of placed orders |
| Plans.BestUnique | app/solver/baseline.py:187-226 | there is only one best plan |
| Plans.LeftOutMeansBlocked | app/solver/baseline.py:405-417 | in a plan that places most orders, each candidate of an order left out has its slot taken or its wagon too full |
| Preferences.FiguresRead | app/solver/baseline.py:161-226 | the recorded figures are the number of assignments, the sum of their class scores and the sum of the whole seconds from the planning instant to their due times |
| Preferences.LeftOutRanksLower | app/solver/baseline.py:176-226 | in an optimal plan an order left out whose choice could take a placed order's room has no higher class score; with the same score it is due no sooner in whole seconds, and with the same seconds it comes later in text order |
| Preferences.LeftOutIsNotDueBefore | app/solver/baseline.py:182-187 | so at the same score it is not due two seconds before the placed one, and not one second before unless the planning instant lies between the two |
| Preferences.FirstFreeSlotIsHeld | app/solver/baseline.py:187-199 | a placed order holds a slot before any other it could exchange its own for |
| Preferences.LeftOutFindsNoRoom | app/solver/baseline.py:405-417 | each choice of an order left out finds its slot taken or its wagon over the limit, by the weights on record |
| BaselineSolve.BuildModel | app/solver/baseline.py:120-148 | the model holds one variable per candidate and exactly the three families of constraints |
| BaselineSolve.Decode | app/solver/baseline.py:228-231 | maps each order to a chosen candidate of its own, and misses none |
| BaselineSolve.SortedAssignments | app/solver/baseline.py:233-244 | the same placements, in strictly increasing order of the order id |
| BaselineSolve.BuildOutcomes | app/solver/baseline.py:344-419 | one outcome per evaluation in text order, with the state and code each evaluation and placement call for, and no alternative searched |
| BaselineSolve.SolveListed | app/solver/baseline.py:120-254 | verdict to result over a candidate list: an ERROR reports nothing, an honest engine gives a sound result, OPTIMAL only when every stage was |
| BaselineSolve.SolveBaseline | app/solver/baseline.py:101-254 | any status sequence: with an honest engine a feasible plan reported with its own figures, never INFEASIBLE, OPTIMAL only for the one best plan, and OPTIMAL when the engine finishes in time; no candidates gives an empty optimal result; ERROR with no outcomes exactly when the first stage came with no solution |
| PlanValidator.CheckUniqueness | app/validation/plan_validator.py:108-121 | appends, in the order of the assignments that come second, one finding per repeated order and one per repeated slot; so there is a finding for exactly those |
| PlanValidator.CheckTerminals | app/validation/plan_validator.py:124-144 | appends one terminal finding for each end off the order's list and each end that cannot handle its tags; so there is one exactly when the leg breaks the terminal rule |
| PlanValidator.CheckTimes | app/validation/plan_validator.py:147-158 | appends one time finding for a missed intake and one for a missed delivery; so there is one exactly when the time rule is broken |
| PlanValidator.CheckDimensions | app/validation/plan_validator.py:161-189 | appends one finding per broken size, weight, tag and route limit, and a single one when the service has no route; so exactly the broken rules are named |
| PlanValidator.CheckWagonCapacity | app/validation/plan_validator.py:192-209 | appends one finding without an order per overloaded wagon; so there is one exactly when some used wagon's accumulated load exceeds its limit |
| PlanValidator.CheckOutcomeConsistency | app/validation/plan_validator.py:212-248 | appends one finding per contradiction of each outcome, then one per assigned order without an outcome in text order; so exactly the orders whose outcome is wrong or missing are named |
| PlanValidator.ValidatePlan | app/validation/plan_validator.py:37-105 | the findings, in the order of the checks and each as often as its rule is broken; as checks and orders they are exactly those the plan deserves, and it passes exactly when there is none |
| PlanValidator.PlanListMeans | app/validation/plan_validator.py:37-105 | the list of findings names exactly the checks and orders the plan deserves, by a definition that does not mention the checks' order |
| PlanValidator.FailsIsDeserved | app/validation/plan_validator.py:37-105 | a check fails exactly when some finding of it is deserved |
| PlanValidator.ResourceFindingsRead | app/validation/plan_validator.py:60-103 | on the records themselves: when an assignment gets the scope, wiring, availability and input findings |
| PlanValidator.SizeFindingsRead | app/validation/plan_validator.py:161-174 | when it gets the size, weight and tag findings |
| PlanValidator.LegFindingsRead | app/validation/plan_validator.py:124-189 | when it gets the terminal, time and route findings |
| PlanValidator.UnknownFindingsRead | app/validation/plan_validator.py:60-66 | an assignment that names something unknown gets the reference finding and no other |
| PlanValidator.FindingCountsRead | app/validation/plan_validator.py:124-174 | how many terminal, time and size findings an assignment gets |
| PlanValidator.CapacityRead | app/validation/plan_validator.py:192-209 | one finding for each used wagon whose assigned weights exceed its limit |
| PlanValidator.ContradictionsRead | app/validation/plan_validator.py:212-248 | how many findings an outcome gets against the assignments |
| Agreement.ServiceAgrees | app/validation/plan_validator.py:124-189 | on known weight and route the validator's service rules and the gate's are the same condition |
| Agreement.PassingIsOffered | app/validation/plan_validator.py:147-158 | what passes the assignment rules and fits its wagon alone is a gate candidate; ready-before-due comes back from cutoff, departure and arrival |
| Agreement.FeasiblePlanIsLegal | app/validation/plan_validator.py:37-105 | a feasible plan over the gate's candidates, reported as the solver reports it, passes validation under any scope covering the services used |
| Agreement.LegalPlanIsFeasible | app/validation/plan_validator.py:37-209 | a plan that passes validation repeats no order and is feasible over the gate's candidates |
| Agreement.ValidatorAgreesWithGate | app/validation/plan_validator.py:37-209 | both directions: assignments with their built outcomes pass validation if and only if no order repeats and the plan is feasible over the gate's candidates |
| Agreement.ValidatorAgreesWithModel | app/solver/baseline.py:133-148 | validator and solver model accept the same assignment lists if and only if no service that offers a slot is repeated in the baseline list |
| Agreement.RepeatedServiceIsShutOut | app/solver/baseline.py:133-134 | a candidate on a repeated service passes validation alone and is refused by the model |
| Hashing.NormalFormIsCanonical | app/hashing.py:60-71 | two results have the same form if and only if they have the same assignments as often and the same five axes per order |
| Hashing.AxesTableByAxes | app/hashing.py:60-71 | badges, links and anything outside the five axes do not reach the form |
| Hashing.FormReads | app/hashing.py:56-75 | two results have one form exactly when they place the same assignments, as often, and report the same orders with the same five states |
| Hashing.FormOrderReads | app/hashing.py:56-75 | the form lists assignments by order, service, wagon and slot |
| Planning.SoundResultIsLegal | app/services/planning.py:57-59 | whatever an honest engine leads the solver to report passes the independent validation |
| Conflicts.BaselineConflictIff | app/solver/baseline.py:405-417 | in a baseline run with its first stage proved, a candidate of an order shown as CAPACITY_CONFLICT is blocked by a taken slot or a full wagon if and only if its service stands once in the baseline list |
| Conflicts.ConflictsRealIff | app/solver/baseline.py:405-417 | a baseline run's conflicts are all real if and only if no order shown as one was offered a slot by a repeated service |
| Conflicts.DerivedConflictIff | app/services/alternatives.py:174-190 | the same in a derived scenario: blocked if and only if the baseline does not repeat the service, opened services included |
| Conflicts.RepeatedServicesFakeConflict | app/solver/baseline.py:133-134 | an eligible order that only repeated services offer a slot is always shown as CAPACITY_CONFLICT although each of its slots is free and each wagon has room |
| SmallYard.ListedTwiceFakesConflict | app/solver/baseline.py:133-134 | at a concrete snapshot the schema accepts, with one service listed twice, a sound result shows a conflict that is none |
| SmallYard.SolvedAgainOpensToOthers | app/services/alternatives.py:117-150 | a concrete snapshot where a service approved for one order becomes another order's choice when the derived scenario is solved again |
| Planning.SolveAndCheck | app/services/planning.py:57-59 | solve and re-check of one scope: sound and passing with an honest engine, every order covered by an outcome unless the solve failed |
| Planning.RunBaseline | app/services/planning.py:43-81 | a baseline run carries its own result form, validates exactly when legal, and with an honest engine is backed by its snapshot and passes |
| Verdicts.RunReads | app/solver/baseline.py:344-419 | what a run reports on an order, whatever the engine did: held with the inverted times or the missing weight, turned away with the leading code of its verdict, assigned, or left out as a capacity conflict; never searched yet |
| Verdicts.ValidationReads | app/routers/scenarios.py:207-236 | validating records one verdict per order over the baseline services, in text order of the orders |
| Determinism.OptimalResultsAgree | app/solver/baseline.py:161-254 | two engines that keep the solver contract report the same optimal assignments, outcomes and result form |
| Determinism.VerdictAlike | app/rules/eligibility.py:138-199 | an order's verdict does not depend on the order of any list |
| Determinism.SameChoices | app/solver/baseline.py:106-131 | reordered snapshots offer the solver the same choosable candidates |
| Determinism.OrderOfListsIsIrrelevant | app/hashing.py:60-75 | reordering any list of the snapshot leaves a fully optimal run's assignments, outcomes and result form unchanged |
| ChangeSets.CollectChanges | app/services/alternatives.py:84-105 | exactly the changes the window authorises among the requested and allowed types, each as often as the window lists it, in canonical order |
| ChangeSets.BuildChangeSet | app/services/alternatives.py:64-105 | refused exactly when a forbidden type is asked for, ambiguous exactly when more than one destination is approved, otherwise exactly the authorised changes, each as often as the window lists it |
| ChangeSets.ChangesRead | app/services/alternatives.py:99-105 | the terminal comes before the services, and each kind in text order |
| ChangeSets.DeriveSnapshot | app/services/alternatives.py:108-151 | the in-place edits give the derived snapshot, and the order's own services equal the validation scope |
| DerivedScenario.ApprovedResolve | app/services/alternatives.py:64-105 | every authorised change names a record of the snapshot |
| DerivedScenario.DerivedIsWellFormed | app/services/alternatives.py:129-151 | deriving keeps the snapshot well-formed |
| DerivedScenario.ChangesAreApplied | app/services/alternatives.py:129-151 | exactly the reported changes are applied: the target's destination and the service scope, nothing else |
| DerivedScenario.ServicesCount | app/services/alternatives.py:143-148 | an added service joins the list exactly once and the rest keep their multiplicity |
| DerivedScenario.DerivedBook | app/services/alternatives.py:129-151 | no weight, limit, score or due time changes |
| DerivedScenario.OthersJudgedAlike | app/services/alternatives.py:176-183 | every other order's evaluation is the baseline's |
| DerivedScenario.OnlyTargetDiffers | app/services/alternatives.py:176-183 | no other order gains or loses a candidate |
| DerivedScenario.OutsideIsPrivate | app/services/alternatives.py:176-184 | a target candidate outside the baseline shares slot and wagon with nobody and is light enough alone |
| DerivedScenario.SolvedAgainIff | app/services/alternatives.py:117-150 | solved again as it is stored, with the widened list for everybody, the derived scenario offers the choices it was solved with if and only if nobody but the requester fits a slot on an added service |
| Separability.CountsDifferByAtMostOne | app/solver/baseline.py:133-174 | lists that differ for one order place numbers of orders that differ by at most one |
| Separability.PrivateCandidateIsPlaced | app/solver/baseline.py:161-174 | an order with a candidate nobody can obstruct is placed by every plan that places most orders |
| Separability.UnusedWideningKeepsPlan | app/solver/baseline.py:187-226 | if the best plan over a wider list uses only old candidates it is the old best plan, although slot ranks were renumbered |
| Separability.JoinKeepsEarlier | app/solver/baseline.py:190-199 | adding one order to two plans keeps an advantage in the canonical tie-break |
| Separability.IsolatedPlanIsBest | app/solver/baseline.py:187-226 | when the best base plan leaves the order out, the best derived plan is that plan with the order added in the first slot it gained |
| Separability.ImpactIsolation | app/solver/baseline.py:187-226 | with private capacity opened to an order the base plan left out, only that order changes between the two best plans, and it is placed exactly when it gained a candidate |
| Deltas.AssignmentDeltas | app/services/alternatives.py:259-288 | exactly the changed orders, each once and in text order, with both sides and the right kind of change |
| Deltas.DiffReads | app/services/alternatives.py:259-288 | an order is listed exactly when its two placements differ; its delta carries the placement before and the one after, and its kind says which is missing |
| Deltas.UndoGivesBefore | app/services/alternatives.py:259-288 | taking the deltas back from the second placements gives the first |
| Deltas.PatchGivesAfter | app/services/alternatives.py:259-288 | replaying the deltas on the first placements gives the second |
| Deltas.EmptyDiffMeansEqual | app/services/alternatives.py:204-216 | no delta if and only if the placements are equal |
| Deltas.DiffBalances | app/services/alternatives.py:273-278 | the number of placed orders moves by ADDED less UNASSIGNED |
| Alternatives.Conclude | app/services/alternatives.py:192-256 | not placed gives the target's own reason, no movement gives ALTERNATIVE_NOT_REQUIRED, otherwise found with the diff, its orders and the marked run |
| Alternatives.SolveDerived | app/services/alternatives.py:174-190 | everyone else is evaluated on the original baseline, the target on its own list, and the derived scenario is solved and re-checked over the widened scope |
| Alternatives.TryChanges | app/services/alternatives.py:174-256 | a derived solve that ends in ERROR is reported as not found with NO_FEASIBLE_ALTERNATIVE; with an honest engine the derived result is sound and validation passes |
| Alternatives.SearchAlternative | app/services/alternatives.py:154-256 | every way a search can end, for every request: refused, ambiguous, nothing authorised, not found, found; what is found rests on the derived snapshot alone |
| Alternatives.AnswersRead | app/services/alternatives.py:64-171 | when a request is refused or ambiguous, with what, and which changes it tries otherwise |
| Alternatives.FoundReads | app/services/alternatives.py:218-256 | the target of a find reads as assigned, AVAILABLE and ALTERNATIVE_AVAILABLE, and everything else in the run is the derived solve's under its own identifiers |
| Alternatives.MissedReads | app/services/alternatives.py:192-202 | a search that leaves the order out gives the code of the order's own solved outcome, and NO_FEASIBLE_ALTERNATIVE when the solve failed |
| Alternatives.FoundIffOutside | app/services/alternatives.py:196-216 | with added services only and both runs optimal, found exactly when the target lands outside the baseline; landing inside means equal plans and ALTERNATIVE_NOT_REQUIRED |
| Alternatives.OnlyTheRequesterMoves | README.md:121-123 | only the requester is impacted, whatever kept it out of the baseline plan: the derived plan is the baseline plan plus the target in the first slot it gained, found exactly when it gained one, and reported as that one order added |
| Alternatives.AddedServicesMoveNobodyElse | app/services/alternatives.py:174-216 | so every order the baseline plan left out can be helped by added services without moving anybody else |
| Alternatives.FinishedSearchIsOptimal | app/services/alternatives.py:174-216 | when the engine finishes, a search on an optimal baseline run compares two optimal plans, so found-iff-outside and impact isolation describe its answer |
| Alternatives.DedicatedServiceIsUsed | app/services/alternatives.py:176-184 | a slot on a service opened to the target alone guarantees it a place once the first stage is optimal |
| Alternatives.PlacedCountsStayClose | app/services/alternatives.py:108-184 | any approved change moves the number of placed orders by at most one |
| Alternatives.ApplyToBaseline | app/services/alternatives.py:291-314 | the first outcome of the order gets the verdict, badge and link; nothing else in the run moves |
| Alternatives.OnlyAlternativeFieldsMove | app/services/alternatives.py:303-313 | with the alternative fields reset, the outcomes are what they were, and other orders' outcomes are untouched |
| Alternatives.VerdictReads | app/services/alternatives.py:291-314 | the first outcome of the order gets the state, the badge and the link exactly when that is AVAILABLE; every other field and outcome stays |
| Suggestions.PermittedAdjustments | app/ai/suggest.py:122-135 | a type is permitted exactly when the order's window has something for it |
| Suggestions.UnpermittedFindsNothing | app/ai/suggest.py:122-135 | requesting only unpermitted types yields no change |
| Suggestions.UnpermittedIsNotRefused | app/ai/suggest.py:122-135 | from request to answer: asking only for what the window has nothing for is refused exactly when the policy forbids one of the types, and otherwise comes back as a search that found nothing |
| Suggestions.BuildSuggestions | app/ai/suggest.py:181-338 | every valid order the plan left out that has something permitted gets a suggestion: its template when it needs pairing, otherwise its last acceptable generated one or its template |
| Suggestions.NegotiableReads | app/ai/suggest.py:181-207 | which outcomes get a suggestion at all |
| Suggestions.TemplateReads | app/ai/suggest.py:163-178 | the computed types for each kind of window and each kind of shown code |
| Suggestions.SuggestionReads | app/ai/suggest.py:291-332 | the last sensible generated suggestion is the one made, cut down to what the window has; none is taken where pairing is needed |
| Suggestions.SuggestionIsPermitted | app/ai/suggest.py:272-332 | whatever is generated, a suggestion asks for something, and only for what the order's own window has |
| Suggestions.PairsIff | app/ai/suggest.py:163-178 | where pairing is needed, the suggestion pairs the terminal change with a service if and only if the window lists a service |
| Suggestions.PairedSuggestionSucceedsIff | app/ai/suggest.py:311-325 | where pairing is needed and the redirect is allowed and clear, with an engine that finishes: what is suggested finds an alternative if and only if the order, sent to the approved destination, fits a slot on a service its window lists and the policy lets it join |
| Suggestions.ServiceSuggestionSucceedsIff | app/ai/suggest.py:163-178 | where the destination stays, for any order an optimal baseline plan left out: it finds one if and only if a service is suggested and the order as it is fits a slot on one outside the baseline that its window lists and the policy lets it join |
| Suggestions.HopelessSuggestion | app/ai/suggest.py:311-325 | where nothing the window lists runs to an approved destination, what is suggested never finds an alternative, whatever the solver answers |
| SmallYard.RemoteIsToldToMove | app/ai/suggest.py:163-178 | at two concrete snapshots, one window with a service and one without, any run that leaves the order out gets the terminal change suggested, paired in the first |
| SmallYard.RemoteSuggestionIsHopeless | app/ai/suggest.py:311-325 | at both of them the suggestion comes back empty every time |
| Suggestions.SuggestionIsTriedIff | app/ai/suggest.py:118-132 | a suggested request is never refused, and, unless its destination is ambiguous, has something to solve for if and only if the policy allows one of its types |
| SmallYard.UngrantedSuggestionIsVain | app/ai/suggest.py:118-132 | a concrete snapshot whose policy allows no change, where the suggestion comes back as a search with nothing to try |
| Suggestions.UnpairedRedirectFindsNothing | app/ai/suggest.py:138-160 | when pairing is needed, a derived solve of the terminal change without a service leaves the order unplaced, whatever the solver answers |
| Suggestions.UnpairedSearchNeverFinds | app/ai/suggest.py:138-160 | from request to answer, a search that pairs nothing where pairing is needed never finds an alternative |
| Explanations.BuildCards | app/ai/explain.py:120-186 | one card per outcome in their order: label and badge always those computed from the outcome, the sentence the first generated one for the order that passed the guard, or the tabled one |
| Explanations.LabelReads | app/ai/explain.py:370-404 | the label of a card case by case, and the badge exactly with AVAILABLE |
| Explanations.CardReads | app/ai/explain.py:120-186 | the sentence of a card is the first grounded draft of its order, or the tabled one |
| Explanations.Advise | app/routers/ai.py:82-95 | each order's suggestion, and no other, is put on its card |
| Explanations.VainSearchShowsIff | app/ai/explain.py:351-404 | a search that finds nothing makes a card wrong if and only if it carried the badge of an earlier find, or the label of an ineligible order nobody had searched for |
| Explanations.SuggestionsUnmoved | app/ai/suggest.py:181-207 | what is suggested to an order does not depend on any search |
| Sequences.PaddedRoundTrip | app/storage.py:531-540 | parsing a printed number gives it back |
| Sequences.FormatInjective | app/storage.py:152-155 | different numbers print as different identifiers |
| Sequences.IdentifiersRead | app/storage.py:33-38 | identifiers print with at least three digits under their four prefixes |
| Sequences.TextOrderIsNumeric | app/storage.py:519-526 | up to 999, text order on identifiers is numeric order |
| Sequences.FamiliesDoNotMix | app/storage.py:33-38 | neither the baseline nor the alternative family sees the other's identifiers |
| Sequences.HighestSequence | app/storage.py:510-541 | the greatest number on the page, zero for an empty page or an unreadable table |
| Sequences.OnPageIff | app/storage.py:519-526 | an identifier is on the page if and only if fewer than a page of its family come after it in text order |
| Sequences.ResumesFreshIff | app/storage.py:510-541 | for any distinct stored ids of any family, every number above the resumed one is free if and only if some stored id with fewer than a page of others after it carries the greatest stored number or a greater one |
| Sequences.PrintedResumesFreshIff | app/storage.py:510-541 | when only printed identifiers are stored, that is so if and only if fewer than a page of them come after the one with the greatest number |
| Sequences.ShortTablesResumeFresh | app/storage.py:510-541 | resuming is fresh if at most a page of rows matches or every stored number fits three digits |
| Sequences.PaddingRunsOut | app/storage.py:523-526 | with RUN-001 to RUN-1000 stored, more than a page comes after RUN-1000 in text order, and the next identifier is one of the stored |
| Sequences.Counter.Next | app/storage.py:365-370 | each identifier handed out is unused and stays ahead of everything stored; on first use exactly when the greatest stored number, or a greater one, stands on an id with fewer than a page of others after it |
| Storage.ListNewest | app/storage.py:165-172 | the newest scenarios, newest first, ties by the greater id |
| Storage.ListedReads | app/storage.py:165-172 | later creation comes first, and the greater id among equals |
| Storage.ListedIffFewNewer | app/storage.py:165-172 | a scenario is on the list exactly when fewer than the limit come before it |
| Storage.NewerReads | app/storage.py:165-172 | who comes before a scenario: those made later, and among equals those with the greater id |
| Storage.MemoryStore.NextScenarioId | app/storage.py:152-155 | the counter advances and prints the identifier |
| Storage.MemoryStore.NextRunId | app/storage.py:200-203 | the counter advances and prints the identifier |
| Storage.MemoryStore.NextAlternativeSequence | app/storage.py:250-253 | the counter advances |
| Storage.MemoryStore.SaveScenario | app/storage.py:157-159 | the record is stored under its id, nothing else moves |
| Storage.MemoryStore.ListScenarios | app/storage.py:165-172 | the newest scenarios up to the limit |
| Storage.MemoryStore.UpdateScenarioState | app/storage.py:186-190 | only the state of that scenario moves |
| Storage.MemoryStore.DeleteScenario | app/storage.py:174-184 | the scenario, its validation, its trace, its runs and their explanations and decisions go, nothing else |
| Storage.MemoryStore.SaveValidation | app/storage.py:192-194 | the result is stored for the scenario |
| Storage.MemoryStore.SaveRun | app/storage.py:205-207 | the run is stored under its id |
| Storage.MemoryStore.UpdateOrderOutcome | app/storage.py:238-248 | only the first outcome of that order in that run is replaced |
| Storage.MemoryStore.SaveDecision | app/storage.py:255-257 | the decision is appended to its run's list |
| Storage.MemoryStore.AppendTrace | app/storage.py:263-265 | the event is appended to the scenario's trail |
| Storage.MemoryStore.ClearExplanation | app/storage.py:234-236 | the explanation of that run goes |
| Handlers.RejectInconsistentRequest | app/routers/scenarios.py:340-388 | no detail exactly when the policy version matches and every requested service and assumption is in the snapshot |
| Handlers.ConsistentReads | app/routers/scenarios.py:340-388 | request and snapshot agree exactly when the policy versions are equal and each requested service and assumption is found there |
| Handlers.PostScenario | app/routers/scenarios.py:34-67 | stored under a new id exactly when the snapshot is well-formed, the request lists baseline services and the two agree |
| Handlers.ValidateScenario | app/routers/scenarios.py:207-236 | stores the gate's verdicts on the snapshot; the state moves only from unvalidated, and only with a candidate |
| Handlers.DeleteScenario | app/routers/scenarios.py:172-198 | refused exactly while some child has fewer newer scenarios than the check reads |
| Lifecycle.ChildScanReads | app/routers/scenarios.py:185-195 | the check lets a scenario go exactly when each of its children has at least a hundred newer scenarios |
| Handlers.PostRun | app/routers/scenarios.py:251-316 | each refusal in the handler's order, leaving the store as it was; the run is the solve of the stored snapshot; an ERROR solve uses a number and stores nothing; otherwise the run is stored and the scenario solved |
| Handlers.PostAlternative | app/routers/runs.py:61-192 | each refusal, the miss and the find, as one step of the store that follows the answer of the search on the stored run |
| Handlers.FoundIdsRead | app/routers/runs.py:79-94 | a find runs under the identifiers drawn for it and the budget of the run it started from |
| Handlers.PostDecision | app/routers/runs.py:205-243 | recorded unless it accepts a run that is not OPTIMAL with a passing validation |
| Handlers.GetExplanation | app/routers/ai.py:62-98 | the first read writes the cards of the run's outcomes, with the suggestions from its scenario, and stores them; later reads change nothing and give what is stored |
| Handlers.ExportRun | app/routers/runs.py:257-294 | the export of a stored run never fails and carries exactly its records |
| Lifecycle.InvKept | app/storage.py:134-269 | every request keeps the store invariant and moves nothing backwards |
| Lifecycle.CreateReads | app/routers/scenarios.py:34-67 | creating touches the new scenario only and leaves one event |
| Lifecycle.ValidateReads | app/routers/scenarios.py:207-236 | validating touches that scenario only: its validation, one event, and the state when it was unvalidated and has a candidate |
| Lifecycle.RunReads | app/routers/scenarios.py:289-316 | a run touches itself and its scenario, which is solved |
| Lifecycle.MissReads | app/routers/runs.py:112-131 | a vain search touches the verdict of the order and the trail |
| Lifecycle.FindReads | app/routers/runs.py:133-192 | a find stores scenario, run and validation, links the outcome, drops the explanation and leaves an event on both trails; nothing else moves |
| Lifecycle.DecideReads | app/routers/runs.py:225-243 | a decision joins its run's list and leaves one event |
| Lifecycle.DeleteReads | app/storage.py:174-184 | deleting takes the scenario and its runs with what hangs on them, and nothing else |
| Lifecycle.NumberedKept | app/storage.py:152-155 | no stored id is ever one the counters have still to hand out |
| Lifecycle.AttachedKept | app/routers/runs.py:257-294 | runs keep their scenario and its validation; decisions and explanations belong to stored runs; trails to stored scenarios |
| Lifecycle.StatesKept | app/routers/scenarios.py:217-227 | a scenario is SOLVED exactly when it has a run, and past validation only with a stored validation |
| Lifecycle.RunsKept | app/routers/scenarios.py:289-299 | no stored run has status ERROR, and each has exactly one outcome for every order of its scenario |
| Lifecycle.FormsKept | app/hashing.py:56-75 | a baseline run's result form stays that of its outcomes with the search verdicts reset |
| Lifecycle.DecisionsKept | app/routers/runs.py:212-224 | every ACCEPTED decision stays on a run that is OPTIMAL and passed validation |
| Lifecycle.AcceptedReads | app/routers/runs.py:212-224 | in every reachable store an ACCEPTED decision stands on a stored run that is OPTIMAL and passed validation |
| Lifecycle.SnapshotsKept | app/models/snapshot.py:198-294 | every stored snapshot is well-formed |
| Lifecycle.AlwaysInv | app/storage.py:134-269 | the invariant holds in every state of every history |
| Lifecycle.AlwaysForward | app/routers/scenarios.py:217-227 | between any two moments scenario states only advance, snapshots and plans do not change, decisions and trails only grow, and what was deleted never comes back |
| Lifecycle.AlwaysHonoured | app/routers/runs.py:228-230 | with an honest engine every stored run passed validation, every baseline run is backed by its snapshot, and every alternative run by an honest solve of the changes applied to its parent's snapshot for the order its trail opens with |
| Lifecycle.AcceptedPlanIsBest | app/routers/runs.py:212-224 | an accepted baseline plan is the one best plan of its scenario |
| Lifecycle.AlwaysOnRecord | app/routers/runs.py:112-192 | every stored alternative run was derived from the snapshot its parent scenario was stored with, for the one order that the first event of its trail names, even after the parent is gone |
| Lifecycle.AcceptedAlternativeIsBest | app/routers/runs.py:212-224 | an accepted alternative plan is best over the choices of that derivation, with the added services open to that one order |
| Lifecycle.AcceptedAlternativeIsTheOne | app/routers/runs.py:212-224 | trail and record name one plan only: two plans that are best in this sense for the same scenario are equal |
| Lifecycle.StoredRequesterMovesAlone | README.md:121-123 | impact isolation for a stored baseline run that left the order out, whatever searches were recorded on it before, with the target in the first slot it gained |
| Lifecycle.ExplanationsStayCurrentIff | app/routers/runs.py:112-176 | a step leaves a stored card out of date if and only if it is a search that finds nothing, on an explained run, for an order that read as AVAILABLE or as valid, INELIGIBLE and NOT_SEARCHED |
| StaleExplanation.VainAnswer | app/ai/suggest.py:122-135 | the request for an adjustment the order has no window for is answered as a search that found nothing |
| StaleExplanation.ExplainThenSearch | app/routers/runs.py:112-131 | from any reachable store and with any honest engine, the handlers themselves, called to store, validate, solve, explain and search, leave a stored explanation with a card that is out of date |
| StaleExplanation.StaleFromTheStart | app/routers/runs.py:112-131 | so a store that starts empty reaches a state with a stale explanation |
| Lifecycle.SmallStoresKeepParents | app/routers/scenarios.py:185-195 | with no more scenarios than the check reads, an allowed deletion orphans no child |

## Left out

- CP-SAT itself, its random seed and worker count: only the solver contract above is used.
- Floating point: `total_seconds()` and `ObjectiveValue()` are exact here; the truncation of due times to whole seconds and the rounding of an exact objective are kept.
- SHA-256, `json.dumps` and `strip_volatile`: digests are represented by the canonical form they are taken over; the input and policy digests are not modelled.
- Evidence, `next_actions`, display data, shippers' details, operating windows and trace payloads: none of them reaches the plan. Validation findings keep their check and order, not their wording.
- FastAPI, Pydantic parsing, the error envelope and response models: a handler's reply is a value or an error. A request body that fails its schema never reaches a handler. Of the snapshot's schema the model keeps the ranges of the fields it has; literal and descriptive fields are not among them.
- The language model and the guard on its words: what it replied, and which of its sentences the guard let by, are parameters. The guard reads nothing a search changes. Intake and questions are not modelled.
- Which generated sentences were replaced, why, and the source shown with them: kept by the program for display only. A generated sentence is opaque here, so no statement says that it is true.
- Supabase queries and migrations, except how numbering resumes from a page of stored ids; `str.isdigit` is modelled on the ten ASCII digits.
- Locks and interleaved requests: each handler is one atomic step.
- Aliasing of stored records: `get_run` hands out the stored dictionary and the handlers edit it in place before saving. Records are values here, so the model shows the state after the request, not the moments in between.
- Parents: a caller may declare any parent, so no statement says that a parent id resolves; `Lifecycle.SmallStoresKeepParents` is what deletion guarantees.
- `latest_run_id`, `list_run_ids`, `ping` and the read-only scenario endpoints: simple look-ups.
- Solver variables are keyed by candidate rather than by order and slot; `Listing.CandidatesResolve` shows the two agree on well-formed snapshots.
- Lists the program only tests membership in (terminals of an order, compatibility tags) are sets.
- The order of the tests inside the gate's service and slot checks: each is split into two helpers here, and the codes they return are sets.
