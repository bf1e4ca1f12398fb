/** Explanation cards: a computed label and badge around a sentence that may be generated, with a
    suggestion for the orders the plan left out. */
module Explanations {
  import opened Ordering
  import opened Snapshots
  import opened Eligibility
  import opened BaselineSolve
  import opened Alternatives
  import opened Suggestions

  datatype Label =
    | NeedsCheck
    | Placeable
    | PlaceableUnplaced
    | BaselineFailsUnreviewed
    | BaselineFails
    | Impossible

  /** What a card says: a sentence from the tables, with its remark on an alternative, or a
      generated one. */
  datatype Sentence = Tabled(reason: Shown, alternative: bool) | Generated(text: string)

  datatype Card = Card(order: Id, display: Label, badged: bool, sentence: Sentence, suggestion: Option<Suggestion>)

  /** A generated sentence for an order, and whether the guard against invented claims let it by. */
  datatype Draft = Draft(order: Id, text: string, grounded: bool)

  datatype Explanation = Explanation(cards: seq<Card>)

  function LabelOf(o: OrderOutcome): Label {
    if o.inputState == ReviewRequired then NeedsCheck
    else match o.eligibilityState
      case Eligible => if o.assignmentState == Assigned then Placeable else PlaceableUnplaced
      case Ineligible =>
        (match o.alternativeState
         case NotSearched => BaselineFailsUnreviewed
         case Available => BaselineFails
         case NoAlternative => Impossible)
      case NotEvaluated => NeedsCheck
  }

  function TemplateCard(o: OrderOutcome): Card {
    Card(o.order, LabelOf(o), o.alternativeState == Available, Tabled(o.primary, o.alternativeState == Available), None)
  }

  function CardOrder(c: Card): Id { c.order }

  /** The card of an outcome: only its sentence is ever generated. */
  function CardOf(o: OrderOutcome, text: Option<string>): Card {
    match text
    case Some(t) => TemplateCard(o).(sentence := Generated(t))
    case None => TemplateCard(o)
  }

  /** The sentence an order is served: the first of its drafts that passed the guard. */
  function Served(drafts: seq<Draft>, order: Id): Option<string> {
    if drafts == [] then None
    else
      var last := drafts[|drafts| - 1];
      match Served(drafts[..|drafts| - 1], order)
      case Some(text) => Some(text)
      case None => if last.order == order && last.grounded then Some(last.text) else None
  }

  function ServedFrom(drafts: Option<seq<Draft>>, order: Id): Option<string> {
    match drafts
    case None => None
    case Some(ds) => Served(ds, order)
  }

  /** One card per outcome, in the order of the outcomes. */
  function CardsOf(outcomes: seq<OrderOutcome>, drafts: Option<seq<Draft>>): (r: seq<Card>)
    ensures |r| == |outcomes|
    ensures forall i :: 0 <= i < |r| ==> r[i] == CardOf(outcomes[i], ServedFrom(drafts, outcomes[i].order))
  {
    seq(|outcomes|, i requires 0 <= i < |outcomes| => CardOf(outcomes[i], ServedFrom(drafts, outcomes[i].order)))
  }

  // ---------------------------------------------------------------- writing the cards

  function Templates(outcomes: seq<OrderOutcome>): map<Id, Card> {
    ById(MapSeq(outcomes, TemplateCard), CardOrder)
  }

  lemma TemplateOf(outcomes: seq<OrderOutcome>, order: Id)
    requires order in MapSeq(outcomes, OutcomeOrder)
    ensures order in Templates(outcomes)
  {
    var i :| 0 <= i < |outcomes| && MapSeq(outcomes, OutcomeOrder)[i] == order;
    var cards := MapSeq(outcomes, TemplateCard);
    assert cards[i] in cards && CardOrder(cards[i]) == order;
  }

  /** With one outcome per order, each order's template is that of its outcome. */
  lemma TemplateAt(outcomes: seq<OrderOutcome>, i: nat)
    requires DistinctKeys(outcomes, OutcomeOrder) && i < |outcomes|
    ensures outcomes[i].order in Templates(outcomes)
    ensures Templates(outcomes)[outcomes[i].order] == TemplateCard(outcomes[i])
  {
    var cards := MapSeq(outcomes, TemplateCard);
    assert cards[i] in cards && CardOrder(cards[i]) == outcomes[i].order;
    forall j, k | 0 <= j < k < |cards| ensures CardOrder(cards[j]) != CardOrder(cards[k]) {
      assert OutcomeOrder(outcomes[j]) != OutcomeOrder(outcomes[k]);
    }
    SameKeySameRecord(cards, CardOrder, cards[i], Templates(outcomes)[outcomes[i].order]);
  }

  lemma {:induction false} DedupOfDistinct(ids: seq<Id>)
    requires DistinctKeys(ids, Self)
    ensures Dedup(ids) == ids
  {
    if ids != [] {
      var front, last := ids[..|ids| - 1], ids[|ids| - 1];
      DedupOfDistinct(front);
      forall i | 0 <= i < |front| ensures front[i] != last {
        assert Self(ids[i]) != Self(ids[|ids| - 1]);
      }
    }
  }

  /** The first grounded draft of each order becomes its card; the rest are dropped. */
  method AcceptDrafts(templates: map<Id, Card>, drafts: seq<Draft>) returns (cards: map<Id, Card>)
    ensures forall id :: id in cards <==> id in templates && Served(drafts, id).Some?
    ensures forall id :: id in cards ==> cards[id] == templates[id].(sentence := Generated(Served(drafts, id).value))
  {
    cards := map[];
    for n := 0 to |drafts|
      invariant forall id :: id in cards <==> id in templates && Served(drafts[..n], id).Some?
      invariant forall id :: id in cards ==>
                  cards[id] == templates[id].(sentence := Generated(Served(drafts[..n], id).value))
    {
      var draft := drafts[n];
      assert drafts[..n + 1][..n] == drafts[..n];
      if draft.order in templates && draft.order !in cards && draft.grounded {
        cards := cards[draft.order := templates[draft.order].(sentence := Generated(draft.text))];
      }
    }
    assert drafts[..|drafts|] == drafts;
  }

  /** One card per listed order: its generated one, or else its template. */
  method LayOut(orders: seq<Id>, templates: map<Id, Card>, accepted: map<Id, Card>) returns (cards: seq<Card>)
    requires forall o :: o in orders ==> o in templates
    ensures |cards| == |orders|
    ensures forall i :: 0 <= i < |orders| ==>
              cards[i] == if orders[i] in accepted then accepted[orders[i]] else templates[orders[i]]
  {
    cards := [];
    for n := 0 to |orders|
      invariant |cards| == n
      invariant forall i :: 0 <= i < n ==>
                  cards[i] == if orders[i] in accepted then accepted[orders[i]] else templates[orders[i]]
    {
      cards := cards + [if orders[n] in accepted then accepted[orders[n]] else templates[orders[n]]];
    }
  }

  /** What `AcceptDrafts` leaves for one order. */
  ghost predicate TakesDraft(templates: map<Id, Card>, drafts: Option<seq<Draft>>, accepted: map<Id, Card>, order: Id) {
    var text := ServedFrom(drafts, order);
    && (order in accepted <==> order in templates && text.Some?)
    && (order in accepted ==> accepted[order] == templates[order].(sentence := Generated(text.value)))
  }

  lemma LaidOutCard(outcomes: seq<OrderOutcome>, drafts: Option<seq<Draft>>, accepted: map<Id, Card>, i: nat)
    requires DistinctKeys(outcomes, OutcomeOrder) && i < |outcomes|
    requires TakesDraft(Templates(outcomes), drafts, accepted, outcomes[i].order)
    ensures var order := outcomes[i].order;
            order in Templates(outcomes)
            && (if order in accepted then accepted[order] else Templates(outcomes)[order])
               == CardOf(outcomes[i], ServedFrom(drafts, order))
  {
    TemplateAt(outcomes, i);
  }

  lemma LaidOutCards(outcomes: seq<OrderOutcome>, drafts: Option<seq<Draft>>, accepted: map<Id, Card>, orders: seq<Id>,
                     cards: seq<Card>)
    requires DistinctKeys(outcomes, OutcomeOrder) && orders == MapSeq(outcomes, OutcomeOrder)
    requires forall o :: TakesDraft(Templates(outcomes), drafts, accepted, o)
    requires |cards| == |orders|
    requires forall i :: 0 <= i < |orders| ==> orders[i] in Templates(outcomes)
    requires forall i :: 0 <= i < |orders| ==>
               cards[i] == if orders[i] in accepted then accepted[orders[i]] else Templates(outcomes)[orders[i]]
    ensures cards == CardsOf(outcomes, drafts)
  {
    forall i | 0 <= i < |outcomes| ensures cards[i] == CardOf(outcomes[i], ServedFrom(drafts, outcomes[i].order)) {
      LaidOutCard(outcomes, drafts, accepted, i);
    }
  }

  lemma OrdersAreDistinct(outcomes: seq<OrderOutcome>)
    requires DistinctKeys(outcomes, OutcomeOrder)
    ensures Dedup(MapSeq(outcomes, OutcomeOrder)) == MapSeq(outcomes, OutcomeOrder)
  {
    DistinctMapped(outcomes, OutcomeOrder);
    DedupOfDistinct(MapSeq(outcomes, OutcomeOrder));
  }

  lemma AllHaveTemplates(outcomes: seq<OrderOutcome>)
    ensures forall o :: o in MapSeq(outcomes, OutcomeOrder) ==> o in Templates(outcomes)
  {
    forall o | o in MapSeq(outcomes, OutcomeOrder) ensures o in Templates(outcomes) {
      TemplateOf(outcomes, o);
    }
  }

  lemma NoDraftsTaken(templates: map<Id, Card>)
    ensures forall o :: TakesDraft(templates, None, map[], o)
  {
  }

  /** The drafts to serve, if the generator replied. */
  method Accepted(templates: map<Id, Card>, drafts: Option<seq<Draft>>) returns (accepted: map<Id, Card>)
    ensures forall o :: TakesDraft(templates, drafts, accepted, o)
  {
    if drafts.None? {
      NoDraftsTaken(templates);
      return map[];
    }
    accepted := AcceptDrafts(templates, drafts.value);
  }

  /** Writes the cards of a run. Without a usable reply every card is its template. */
  method BuildCards(outcomes: seq<OrderOutcome>, drafts: Option<seq<Draft>>) returns (cards: seq<Card>)
    ensures DistinctKeys(outcomes, OutcomeOrder) ==> cards == CardsOf(outcomes, drafts)
  {
    var orders := MapSeq(outcomes, OutcomeOrder);
    var listed := if drafts.None? then Dedup(orders) else orders;
    AllHaveTemplates(outcomes);
    var accepted := Accepted(Templates(outcomes), drafts);
    cards := LayOut(listed, Templates(outcomes), accepted);
    if DistinctKeys(outcomes, OutcomeOrder) {
      OrdersAreDistinct(outcomes);
      LaidOutCards(outcomes, drafts, accepted, orders, cards);
    }
  }

  // ---------------------------------------------------------------- the suggestions folded in

  /** The cards with what is suggested to each order. */
  function AdvisedCards(s: Snapshot, outcomes: seq<OrderOutcome>, drafts: Option<seq<Draft>>, ideas: seq<Idea>)
    : (r: seq<Card>)
    ensures |r| == |outcomes|
    ensures forall i :: 0 <= i < |r| ==>
              r[i] == CardOf(outcomes[i], ServedFrom(drafts, outcomes[i].order)).(
                        suggestion := SuggestedTo(s, outcomes[i], ideas))
  {
    seq(|outcomes|, i requires 0 <= i < |outcomes| =>
      CardOf(outcomes[i], ServedFrom(drafts, outcomes[i].order)).(suggestion := SuggestedTo(s, outcomes[i], ideas)))
  }

  lemma OutcomeIsTheOne(outcomes: seq<OrderOutcome>, x: OrderOutcome, y: OrderOutcome)
    requires DistinctKeys(outcomes, OutcomeOrder) && x in outcomes && y in outcomes && x.order == y.order
    ensures x == y
  {
    SameKeySameRecord(outcomes, OutcomeOrder, x, y);
  }

  lemma SuggestionTo(s: Snapshot, outcomes: seq<OrderOutcome>, ideas: seq<Idea>, found: map<Id, OrderOutcome>,
                     suggestions: map<Id, Suggestion>, x: OrderOutcome)
    requires DistinctKeys(outcomes, OutcomeOrder) && x in outcomes
    requires SuggestedFrom(s, found, ideas, suggestions)
    requires forall id :: id in found ==> found[id] in outcomes
    requires Negotiable(s, x) ==> x.order in found
    ensures SuggestedTo(s, x, ideas) == if x.order in suggestions then Some(suggestions[x.order]) else None
  {
    if x.order in found {
      OutcomeIsTheOne(outcomes, x, found[x.order]);
    }
  }

  function Advised(card: Card, suggestions: map<Id, Suggestion>): Card {
    if card.order in suggestions then card.(suggestion := Some(suggestions[card.order])) else card
  }

  /** Puts each order's suggestion on its card. */
  method Fold(cards: seq<Card>, suggestions: map<Id, Suggestion>) returns (advised: seq<Card>)
    ensures |advised| == |cards| && forall i :: 0 <= i < |cards| ==> advised[i] == Advised(cards[i], suggestions)
  {
    advised := [];
    for n := 0 to |cards|
      invariant |advised| == n && forall i :: 0 <= i < n ==> advised[i] == Advised(cards[i], suggestions)
    {
      var card := cards[n];
      advised := advised + [if card.order in suggestions then card.(suggestion := Some(suggestions[card.order]))
                            else card];
    }
  }

  lemma AdvisedCard(s: Snapshot, o: OrderOutcome, text: Option<string>, ideas: seq<Idea>,
                    suggestions: map<Id, Suggestion>)
    requires SuggestedTo(s, o, ideas) == if o.order in suggestions then Some(suggestions[o.order]) else None
    ensures Advised(CardOf(o, text), suggestions) == CardOf(o, text).(suggestion := SuggestedTo(s, o, ideas))
  {
  }

  method Advise(s: Snapshot, outcomes: seq<OrderOutcome>, drafts: Option<seq<Draft>>, ideas: seq<Idea>,
                cards: seq<Card>)
    returns (advised: seq<Card>)
    requires DistinctKeys(outcomes, OutcomeOrder) && cards == CardsOf(outcomes, drafts)
    ensures advised == AdvisedCards(s, outcomes, drafts, ideas)
  {
    ghost var found;
    var suggestions;
    suggestions, found := BuildSuggestions(s, outcomes, ideas);
    advised := Fold(cards, suggestions);
    forall i | 0 <= i < |outcomes| ensures advised[i] == AdvisedCards(s, outcomes, drafts, ideas)[i] {
      SuggestionTo(s, outcomes, ideas, found, suggestions, outcomes[i]);
      AdvisedCard(s, outcomes[i], ServedFrom(drafts, outcomes[i].order), ideas, suggestions);
    }
  }

  // ---------------------------------------------------------------- cards that still hold

  /** The card is the one its outcome calls for now, whatever its generated words. */
  predicate Describes(card: Card, o: OrderOutcome) {
    card == CardOf(o, if card.sentence.Generated? then Some(card.sentence.text) else None).(
              suggestion := card.suggestion)
  }

  /** What is suggested does not depend on any search. */
  lemma SuggestionsUnmoved(s: Snapshot, o: OrderOutcome, ideas: seq<Idea>, state: AlternativeState,
                           scenario: Option<Id>)
    ensures SuggestedTo(s, Noted(o, state, scenario), ideas) == SuggestedTo(s, o, ideas)
  {
  }

  ghost predicate Written(e: Explanation, outcomes: seq<OrderOutcome>) {
    |e.cards| == |outcomes| && forall i :: 0 <= i < |outcomes| ==> Describes(e.cards[i], outcomes[i])
  }

  lemma CardsAreWritten(s: Snapshot, outcomes: seq<OrderOutcome>, drafts: Option<seq<Draft>>, ideas: seq<Idea>)
    ensures Written(Explanation(AdvisedCards(s, outcomes, drafts, ideas)), outcomes)
  {
  }

  /** A card shows a search that found nothing when it carries the badge of an earlier find, or
      the label of an order the baseline cannot carry that nobody has searched for. */
  predicate ShowsVainSearch(o: OrderOutcome) {
    || o.alternativeState == Available
    || (o.alternativeState == NotSearched && o.inputState == Valid && o.eligibilityState == Ineligible)
  }

  lemma VainSearchShowsIff(card: Card, o: OrderOutcome)
    requires Describes(card, o)
    ensures Describes(card, Noted(o, NoAlternative, None)) <==> !ShowsVainSearch(o)
  {
  }

  // ---------------------------------------------------------------- how a card reads

  /** The first draft of an order that passed the guard is the one served. */
  lemma {:induction false} ServedIsFirst(drafts: seq<Draft>, order: Id, k: nat)
    requires k < |drafts| && drafts[k].order == order && drafts[k].grounded
    requires forall j :: 0 <= j < k ==> !(drafts[j].order == order && drafts[j].grounded)
    ensures Served(drafts, order) == Some(drafts[k].text)
    decreases |drafts|
  {
    if k < |drafts| - 1 {
      ServedIsFirst(drafts[..|drafts| - 1], order, k);
    } else {
      NoneServed(drafts[..|drafts| - 1], order);
    }
  }

  lemma {:induction false} NoneServed(drafts: seq<Draft>, order: Id)
    requires forall j :: 0 <= j < |drafts| ==> !(drafts[j].order == order && drafts[j].grounded)
    ensures Served(drafts, order) == None
    decreases |drafts|
  {
    if drafts != [] {
      NoneServed(drafts[..|drafts| - 1], order);
    }
  }

  /** The label of a card, case by case, and its badge. */
  lemma LabelReads(o: OrderOutcome, text: Option<string>)
    ensures var card := CardOf(o, text);
            && card.order == o.order
            && (card.badged <==> o.alternativeState == Available)
            && (card.display == NeedsCheck <==> o.inputState == ReviewRequired || o.eligibilityState == NotEvaluated)
            && (card.display == Placeable <==>
                  o.inputState == Valid && o.eligibilityState == Eligible && o.assignmentState == Assigned)
            && (card.display == PlaceableUnplaced <==>
                  o.inputState == Valid && o.eligibilityState == Eligible && o.assignmentState != Assigned)
            && (card.display == BaselineFailsUnreviewed <==>
                  o.inputState == Valid && o.eligibilityState == Ineligible && o.alternativeState == NotSearched)
            && (card.display == BaselineFails <==>
                  o.inputState == Valid && o.eligibilityState == Ineligible && o.alternativeState == Available)
            && (card.display == Impossible <==>
                  o.inputState == Valid && o.eligibilityState == Ineligible && o.alternativeState == NoAlternative)
            && (card.display == Impossible ==> !card.badged)
    ensures CardOf(o, text).sentence
         == if text.Some? then Generated(text.value) else Tabled(o.primary, o.alternativeState == Available)
  {
  }

  /** A card's sentence is the first grounded draft of its order, or the tabled one. */
  lemma CardReads(outcomes: seq<OrderOutcome>, drafts: seq<Draft>, i: nat)
    requires i < |outcomes|
    ensures var o, card := outcomes[i], CardsOf(outcomes, Some(drafts))[i];
            && card.order == o.order
            && (forall k: nat :: k < |drafts| && drafts[k].order == o.order && drafts[k].grounded
                                 && (forall j :: 0 <= j < k ==> !(drafts[j].order == o.order && drafts[j].grounded))
                  ==> card.sentence == Generated(drafts[k].text))
            && ((forall k :: 0 <= k < |drafts| ==> !(drafts[k].order == o.order && drafts[k].grounded)) ==>
                  card.sentence == Tabled(o.primary, o.alternativeState == Available))
  {
    var o := outcomes[i];
    forall k: nat | k < |drafts| && drafts[k].order == o.order && drafts[k].grounded
                    && (forall j :: 0 <= j < k ==> !(drafts[j].order == o.order && drafts[j].grounded))
      ensures Served(drafts, o.order) == Some(drafts[k].text)
    {
      ServedIsFirst(drafts, o.order, k);
    }
    if forall k :: 0 <= k < |drafts| ==> !(drafts[k].order == o.order && drafts[k].grounded) {
      NoneServed(drafts, o.order);
    }
  }
}
