/**
 * The deck controller: `cats`, `currentIndex` and `liked`, the card
 * elements still in the deck container, and the advances `swipe` defers to
 * a timer. `resetApp`, `topCardEl`, `swipe`, its deferred callback and
 * `updateStatus` are given first as functions on a DeckState value and
 * then as the methods of the class SwipeDeck, proved against them.
 */
module Deck {
  import opened Options
  import opened Cards
  import opened Decision
  import opened StatusText

  /** The final outcome `showSummary` renders: the liked images and the deck size. */
  datatype Summary = Summary(liked: seq<Url>, total: nat)

  /**
   * The deck state.
   * - `present`: the `data-index` of every card element still in the deck
   *   container (elements of the current rebuild only);
   * - `generation`: the number of rebuilds of the deck container so far;
   * - `pending`: the card each scheduled deferred advance captured, in the
   *   order the timers fire (they all wait the same time);
   * - `statusText`: the text last written to the status element.
   */
  datatype DeckState = DeckState(
    cats: seq<Cat>,
    currentIndex: nat,
    liked: seq<Url>,
    present: set<nat>,
    generation: nat,
    pending: seq<CardRef>,
    statusText: string)
  {
    ghost predicate Valid()
    {
      IsFreshDeck(cats) &&
      (forall i :: i in present ==> i < |cats|) &&
      (forall i: nat :: currentIndex <= i < |cats| ==> i in present) &&
      PendingUpTo(pending, generation) &&
      (forall k :: 0 <= k < |pending| && pending[k].generation == generation ==>
         pending[k].index <= currentIndex) &&
      (forall k :: 0 <= k < |liked| ==> HasUrl(cats, liked[k]))
    }
  }

  /** Every deferred advance was scheduled before the current rebuild or by it. */
  ghost predicate PendingUpTo(pending: seq<CardRef>, generation: nat)
  {
    forall k :: 0 <= k < |pending| ==> pending[k].generation <= generation
  }

  /** The state before the first `resetApp`: no cats, nothing rendered. */
  const EMPTY_DECK := DeckState([], 0, [], {}, 0, [], "")

  /** `updateStatus` for a deck state. */
  function StatusOf(s: DeckState): (line: string)
    ensures line == "" <==> Exhausted(s)
  {
    StatusLine(|s.cats| - s.currentIndex, |s.liked|)
  }

  /** While cards remain, the status line reads back as the remaining and liked counts. */
  lemma StatusShowsCounts(s: DeckState)
    requires !Exhausted(s)
    ensures ParseStatus(StatusOf(s)) == Some((|s.cats| - s.currentIndex, |s.liked|))
  {
    StatusLineRoundTrip(|s.cats| - s.currentIndex, |s.liked|);
  }

  /** The deck has been swiped through: `currentIndex >= cats.length`. */
  predicate Exhausted(s: DeckState)
  {
    s.currentIndex >= |s.cats|
  }

  /**
   * `resetApp(baseSeed)`: a fresh deck, cursor 0, no likes, every card
   * rendered anew. Deferred advances already scheduled are not cancelled.
   */
  function Reset(s: DeckState, baseSeed: int): (t: DeckState)
    ensures PendingUpTo(s.pending, s.generation) ==> t.Valid()
  {
    var cats := FreshCats(baseSeed);
    var t := DeckState(cats, 0, [], Indices(|cats|), s.generation + 1, s.pending, "");
    t.(statusText := StatusOf(t))
  }

  /** `topCardEl()`: the element whose `data-index` is `currentIndex`, if still present. */
  function TopCard(s: DeckState): (r: Option<CardRef>)
    ensures r.Some? ==> r.value == CardRef(s.generation, s.currentIndex)
    ensures s.Valid() ==> (r.Some? <==> s.currentIndex < |s.cats|)
  {
    if s.currentIndex in s.present then Some(CardRef(s.generation, s.currentIndex)) else None
  }

  /**
   * `swipe(action)` up to the timer: with a top card, a like records its
   * image and an advance is scheduled for that card; the cursor stays.
   */
  function Swiped(s: DeckState, a: Action): (t: DeckState)
    requires s.Valid()
    ensures t.Valid()
    ensures TopCard(s).None? ==> t == s
    ensures t.cats == s.cats && t.currentIndex == s.currentIndex && t.present == s.present
    ensures t.generation == s.generation && t.statusText == s.statusText
  {
    match TopCard(s)
    case None => s
    case Some(card) =>
      var cat := s.cats[s.currentIndex];
      s.(liked := if a == Like then s.liked + [cat.url] else s.liked,
         pending := s.pending + [card])
  }

  /**
   * The deferred callback of `swipe`, for the earliest pending advance: it
   * removes the captured card (a no-op on an element of an earlier rebuild),
   * advances the cursor and rewrites the status.
   */
  function Completed(s: DeckState): (t: DeckState)
    ensures s.Valid() ==> t.Valid()
    ensures s.pending == [] ==> t == s
    ensures s.pending != [] ==>
              t.currentIndex == s.currentIndex + 1 && t.pending == s.pending[1..] &&
              t.cats == s.cats && t.liked == s.liked && t.generation == s.generation &&
              t.statusText == StatusOf(t)
  {
    if s.pending == [] then s
    else
      var card := s.pending[0];
      var t := s.(pending := s.pending[1..],
                  present := if card.generation == s.generation then s.present - {card.index}
                             else s.present,
                  currentIndex := s.currentIndex + 1);
      t.(statusText := StatusOf(t))
  }

  /** What the deferred callback hands to `showSummary`, if it calls it. */
  function CompletionSummary(t: DeckState): (r: Option<Summary>)
    ensures r.Some? <==> Exhausted(t)
    ensures r.Some? ==> r.value.liked == t.liked && r.value.total == |t.cats|
  {
    if t.currentIndex >= |t.cats| then Some(Summary(t.liked, |t.cats|)) else None
  }

  // ---------------------------------------------------------------------
  // Properties of the deck operations

  /**
   * After `resetApp` there are TOTAL_CATS cats with ids 1.., images from
   * consecutive seeds, the cursor is 0, nothing is liked, and the status
   * reads "Remaining: 12 | Liked: 0".
   */
  lemma ResetShape(s: DeckState, baseSeed: int)
    ensures var t := Reset(s, baseSeed);
      |t.cats| == TOTAL_CATS && t.currentIndex == 0 && t.liked == [] &&
      (forall i :: 0 <= i < |t.cats| ==> t.cats[i].id == i + 1 && t.cats[i].url == CatUrl(baseSeed + i)) &&
      TopCard(t) == Some(CardRef(s.generation + 1, 0)) &&
      t.statusText == "Remaining: 12 | Liked: 0"
  {
    var t := Reset(s, baseSeed);
    assert NatToString(12) == "12";
    assert NatToString(0) == "0";
  }

  /**
   * `swipe` records a like by appending exactly the top cat's image, a
   * dislike records nothing, and either way the same card stays the top
   * card until the deferred advance runs.
   */
  lemma SwipeRecordsOutcome(s: DeckState, a: Action)
    requires s.Valid() && TopCard(s).Some?
    ensures Swiped(s, a).liked == s.liked + (if a == Like then [s.cats[s.currentIndex].url] else [])
    ensures Swiped(s, a).pending == s.pending + [CardRef(s.generation, s.currentIndex)]
    ensures TopCard(Swiped(s, a)) == TopCard(s)
  {
  }

  /**
   * One swipe followed by its deferred advance removes the top card and
   * makes the next card the top card; the summary is due exactly when the
   * swiped card was the last one.
   */
  lemma SwipeThenAdvance(s: DeckState, a: Action)
    requires s.Valid() && s.pending == [] && TopCard(s).Some?
    ensures var t := Completed(Swiped(s, a));
      t.currentIndex == s.currentIndex + 1 && t.pending == [] &&
      t.present == s.present - {s.currentIndex} &&
      TopCard(t) == (if s.currentIndex + 1 < |s.cats| then Some(CardRef(s.generation, s.currentIndex + 1)) else None) &&
      (Exhausted(t) <==> s.currentIndex + 1 == |s.cats|)
  {
  }

  /**
   * Two swipes before the first timer fires (a double click on a button)
   * schedule two advances for the same card: a like is recorded twice and
   * the cursor moves by two, so the next card, still in the container, is
   * never the top card.
   */
  lemma DoubleSwipeSkipsCard(s: DeckState)
    requires s.Valid() && s.pending == [] && s.currentIndex + 1 < |s.cats|
    ensures var t := Completed(Completed(Swiped(Swiped(s, Like), Like)));
      var url := s.cats[s.currentIndex].url;
      t.liked == s.liked + [url, url] &&
      t.currentIndex == s.currentIndex + 2 &&
      s.currentIndex + 1 in t.present &&
      TopCard(t) != Some(CardRef(s.generation, s.currentIndex + 1))
  {
    var s1 := Swiped(s, Like);
    var s2 := Swiped(s1, Like);
    assert s2.pending == [CardRef(s.generation, s.currentIndex), CardRef(s.generation, s.currentIndex)];
  }

  /**
   * A deferred advance scheduled before `resetApp` still fires afterwards:
   * it moves the cursor of the NEW deck to 1, so the new deck's first card
   * stays in the container but is never the top card.
   */
  lemma StaleAdvanceAfterReset(s: DeckState, a: Action, baseSeed: int)
    requires s.Valid() && s.pending == [] && TopCard(s).Some?
    ensures var t := Completed(Reset(Swiped(s, a), baseSeed));
      t.currentIndex == 1 && t.liked == [] && t.pending == [] &&
      0 in t.present && TopCard(t) == Some(CardRef(s.generation + 1, 1))
  {
    var r := Reset(Swiped(s, a), baseSeed);
    assert r.pending == [CardRef(s.generation, s.currentIndex)];
  }

  // ---------------------------------------------------------------------
  // Swiping through the deck one card at a time

  /** Each action swiped and its advance completed before the next. */
  function Play(s: DeckState, actions: seq<Action>): (t: DeckState)
    requires s.Valid()
    ensures t.Valid()
    decreases |actions|
  {
    if actions == [] then s else Play(Completed(Swiped(s, actions[0])), actions[1..])
  }

  /** The images of the cats the actions like, in order. */
  function LikedUrls(cats: seq<Cat>, actions: seq<Action>): seq<Url>
    requires |actions| <= |cats|
  {
    if actions == [] then []
    else (if actions[0] == Like then [cats[0].url] else []) + LikedUrls(cats[1..], actions[1..])
  }

  /** One round of Play on a state with nothing pending. */
  lemma PlayRound(s: DeckState, a: Action)
    requires s.Valid() && s.pending == [] && s.currentIndex < |s.cats|
    ensures var t := Completed(Swiped(s, a));
      t.cats == s.cats && t.generation == s.generation && t.pending == [] &&
      t.currentIndex == s.currentIndex + 1 &&
      t.liked == s.liked + (if a == Like then [s.cats[s.currentIndex].url] else [])
  {
    SwipeRecordsOutcome(s, a);
  }

  /**
   * Resolving cards one at a time advances the cursor by one per action and
   * appends the liked images in decision order.
   */
  lemma {:induction false} PlayInOrder(s: DeckState, actions: seq<Action>)
    requires s.Valid() && s.pending == [] && s.currentIndex + |actions| <= |s.cats|
    ensures var t := Play(s, actions);
      t.cats == s.cats && t.generation == s.generation && t.pending == [] &&
      t.currentIndex == s.currentIndex + |actions| &&
      t.liked == s.liked + LikedUrls(s.cats[s.currentIndex..], actions)
    decreases |actions|
  {
    if actions != [] {
      var s1 := Completed(Swiped(s, actions[0]));
      PlayRound(s, actions[0]);
      PlayInOrder(s1, actions[1..]);
      var cats := s.cats[s.currentIndex..];
      assert cats[1..] == s.cats[s1.currentIndex..];
      var first := if actions[0] == Like then [cats[0].url] else [];
      var rest := LikedUrls(cats[1..], actions[1..]);
      assert Play(s, actions).liked == s.liked + first + rest;
      AppendAssociative(s.liked, first, rest);
    }
  }

  lemma AppendAssociative<T>(a: seq<T>, b: seq<T>, c: seq<T>)
    ensures a + b + c == a + (b + c)
  {
  }

  /**
   * Swiping a fresh deck through card by card signals the summary exactly
   * once: after the last card, and after no earlier one.
   */
  lemma SummaryOnlyAfterLastCard(s: DeckState, actions: seq<Action>)
    requires s.Valid() && s.pending == [] && s.currentIndex == 0 && |actions| == |s.cats|
    ensures forall k :: 0 <= k <= |actions| ==> (Exhausted(Play(s, actions[..k])) <==> k == |actions|)
  {
    forall k | 0 <= k <= |actions|
      ensures Exhausted(Play(s, actions[..k])) <==> k == |actions|
    {
      PlayInOrder(s, actions[..k]);
    }
  }

  // ---------------------------------------------------------------------
  // The deck controller's mutable state

  class SwipeDeck {
    var cats: seq<Cat>
    var currentIndex: nat
    var liked: seq<Url>
    var present: set<nat>
    var generation: nat
    var pending: seq<CardRef>
    var statusText: string

    function State(): DeckState
      reads this
    {
      DeckState(cats, currentIndex, liked, present, generation, pending, statusText)
    }

    ghost predicate Valid()
      reads this
    {
      State().Valid()
    }

    /** The state `init()` leaves: the globals' initial values, then `resetApp`. */
    constructor (baseSeed: int)
      ensures State() == Reset(EMPTY_DECK, baseSeed) && Valid()
    {
      cats, currentIndex, liked := [], 0, [];
      present, generation, pending, statusText := {}, 0, [], "";
      new;
      var _ := ResetApp(baseSeed);
    }

    /** `resetApp`: returns the card elements `renderDeck` appends. */
    method ResetApp(baseSeed: int) returns (children: seq<CardView>)
      modifies this
      ensures State() == Reset(old(State()), baseSeed)
      ensures children == RenderedCards(cats)
    {
      cats := FreshCats(baseSeed);
      currentIndex := 0;
      liked := [];
      generation := generation + 1;
      children := RenderDeck(cats);
      RenderedCardsIndices(cats);
      present := IndicesOf(children);
      statusText := StatusLine(|cats| - currentIndex, |liked|);
      assert present == Indices(|cats|);
    }

    /** `swipe(action)`: returns the card that flies out, if there was a top card. */
    method Swipe(a: Action) returns (flown: Option<CardRef>)
      requires Valid()
      modifies this
      ensures State() == Swiped(old(State()), a) && Valid()
      ensures flown == TopCard(old(State()))
    {
      if currentIndex !in present {
        flown := None;
        return;
      }
      var cat := cats[currentIndex];
      if a == Like {
        liked := liked + [cat.url];
      }
      flown := Some(CardRef(generation, currentIndex));
      pending := pending + [flown.value];
    }

    /**
     * The timer callback of the earliest pending `swipe`. Returns whether a
     * callback was due and the summary it shows, if the deck is exhausted.
     */
    method CompleteSwipe() returns (fired: bool, summary: Option<Summary>)
      requires Valid()
      modifies this
      ensures State() == Completed(old(State())) && Valid()
      ensures fired == (old(pending) != [])
      ensures summary == if fired then CompletionSummary(State()) else None
    {
      if pending == [] {
        fired, summary := false, None;
        return;
      }
      var card := pending[0];
      pending := pending[1..];
      if card.generation == generation {
        present := present - {card.index};
      }
      currentIndex := currentIndex + 1;
      statusText := StatusLine(|cats| - currentIndex, |liked|);
      fired := true;
      summary := if currentIndex >= |cats| then Some(Summary(liked, |cats|)) else None;
    }
  }
}
