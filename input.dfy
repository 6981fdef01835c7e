/**
 * The input handlers of the swipe deck as one state machine. Pointer,
 * touch and mouse events, the two swipe buttons, the restart button and
 * the deferred advance timer are the events; the `drag` record, the
 * `mouseDown` flag and the deck are the state. Which listener family is
 * registered is fixed when the application starts (`bindDeckDrag`):
 * pointer listeners where pointer events exist, otherwise touch and mouse
 * listeners; events of the family not registered are never delivered.
 *
 * Each handler is given as a function on an AppState value returning the
 * new state and the presentation effect, and as a method of the class
 * SwipeApp proved against that function.
 */
module Input {
  import opened Options
  import opened Geometry
  import opened Decision
  import opened Cards
  import opened Deck
  import opened Drag

  /** The listener family registered by `bindDeckDrag`. */
  datatype Family = PointerEvents | TouchAndMouse

  /** `e.pointerType` of a pointer event. */
  datatype PointerType = MousePointer | PenPointer | TouchPointer

  /**
   * The events the application reacts to. `hit` is the card element found
   * by `e.target.closest(".card")` (None when the press is not on a card);
   * coordinates are `clientX`/`clientY`, of `touches[0]` for touch events.
   */
  datatype Event =
    | PointerDown(hit: Option<CardRef>, pointerType: PointerType, button: int, x: real, y: real, pointerId: int)
    | PointerMove(x: real, y: real, pointerId: int)
    | PointerUp(pointerId: int)
    | PointerCancel(pointerId: int)
    | TouchStart(hit: Option<CardRef>, x: real, y: real)
    | TouchMove(x: real, y: real)
    | TouchEnd
    | MouseDown(hit: Option<CardRef>, button: int, x: real, y: real)
    | MouseMove(x: real, y: real)
    | MouseUp
    | LikeClick
    | DislikeClick
    | RestartClick(baseSeed: int)
    | TimerFired

  /** What a handler does to the page, beyond the state it keeps. */
  datatype Effect =
    | NoEffect
    | Follow(card: CardRef, feedback: Feedback)
    | FlyOut(card: CardRef, action: Action, rotation: real)
    | SnapBack(card: CardRef, pose: Pose, stamps: Stamps)
    | Rebuilt(children: seq<CardView>)
    | Advanced(summary: Option<Summary>)

  datatype AppState = AppState(family: Family, session: Session, mouseDown: bool, deck: DeckState)
  {
    ghost predicate Valid()
    {
      session.Valid() && deck.Valid()
    }
  }

  datatype Outcome = Outcome(state: AppState, effect: Effect)

  /** The state after `init()`. */
  function Init(family: Family, baseSeed: int): (s: AppState)
    ensures s.Valid()
  {
    AppState(family, INITIAL_SESSION, false, Reset(EMPTY_DECK, baseSeed))
  }

  /** The pressed element is the current top card (and there is one). */
  predicate OnTopCard(s: AppState, hit: Option<CardRef>)
  {
    TopCard(s.deck).Some? && hit == TopCard(s.deck)
  }

  /** `onPointerDown`: no check that a session is already active. */
  function PointerDownStep(s: AppState, hit: Option<CardRef>, pointerType: PointerType, button: int,
                           x: real, y: real, pointerId: int): (o: Outcome)
    requires s.Valid()
    ensures o.state.Valid() && o.effect == NoEffect
  {
    if OnTopCard(s, hit) && !(pointerType == MousePointer && button != 0) then
      Outcome(s.(session := Begin(x, y, hit.value, Some(pointerId))), NoEffect)
    else Outcome(s, NoEffect)
  }

  /** `updateDrag` and the feedback it writes. */
  function MoveStep(s: AppState, x: real, y: real): (o: Outcome)
    requires s.Valid()
    ensures o.state.Valid()
    ensures o.state.deck == s.deck && o.state.mouseDown == s.mouseDown
  {
    var t := Moved(s.session, x, y);
    Outcome(s.(session := t),
            if s.session.card.Some? then Follow(s.session.card.value, FeedbackOf(t)) else NoEffect)
  }

  /** The pointer guard of `onPointerMove` and `onPointerUp`. */
  predicate PointerMatches(s: AppState, pointerId: int)
  {
    s.session.active && (s.session.pointerId.None? || s.session.pointerId == Some(pointerId))
  }

  function PointerMoveStep(s: AppState, x: real, y: real, pointerId: int): (o: Outcome)
    requires s.Valid()
    ensures o.state.Valid()
  {
    if PointerMatches(s, pointerId) then MoveStep(s, x, y) else Outcome(s, NoEffect)
  }

  /** `swipe(action)`, up to the scheduling of its deferred advance. */
  function SwipeStep(s: AppState, a: Action): (o: Outcome)
    requires s.Valid()
    ensures o.state.Valid()
    ensures o.state.session == s.session && o.state.mouseDown == s.mouseDown
  {
    var top := TopCard(s.deck);
    Outcome(s.(deck := Swiped(s.deck, a)),
            if top.Some? then FlyOut(top.value, a, FlyOutRotation(a)) else NoEffect)
  }

  /**
   * `finishDrag`: the session is cleared before the verdict is acted on; a
   * commit swipes the top card, a cancel snaps the dragged card back to the
   * resting pose `makeCard` gave it, with both stamps hidden.
   */
  function FinishStep(s: AppState): (o: Outcome)
    requires s.Valid()
    ensures o.state.Valid() && o.state.session.Idle()
    ensures o.state.mouseDown == s.mouseDown
  {
    var s1 := s.(session := Cleared(s.session));
    match ReleaseOf(s.session)
    case Unbound => Outcome(s1, NoEffect)
    case Released(card, Cancel) =>
      Outcome(s1, SnapBack(card, RestingPose(|s.deck.cats|, card.index), HIDDEN_STAMPS))
    case Released(_, Commit(a)) => SwipeStep(s1, a)
  }

  function PointerUpStep(s: AppState, pointerId: int): (o: Outcome)
    requires s.Valid()
    ensures o.state.Valid()
  {
    if PointerMatches(s, pointerId) then FinishStep(s) else Outcome(s, NoEffect)
  }

  /** `onTouchStart`: no button check and no pointer id. */
  function TouchStartStep(s: AppState, hit: Option<CardRef>, x: real, y: real): (o: Outcome)
    requires s.Valid()
    ensures o.state.Valid() && o.effect == NoEffect
  {
    if OnTopCard(s, hit) then Outcome(s.(session := Begin(x, y, hit.value, None)), NoEffect)
    else Outcome(s, NoEffect)
  }

  function TouchMoveStep(s: AppState, x: real, y: real): (o: Outcome)
    requires s.Valid()
    ensures o.state.Valid()
    ensures o.state.deck == s.deck && o.state.mouseDown == s.mouseDown
  {
    if s.session.active then MoveStep(s, x, y) else Outcome(s, NoEffect)
  }

  function TouchEndStep(s: AppState): (o: Outcome)
    requires s.Valid()
    ensures o.state.Valid() && o.state.session.Idle()
    ensures o.state.mouseDown == s.mouseDown
  {
    if s.session.active then FinishStep(s) else Outcome(s, NoEffect)
  }

  /** `onMouseDown`: left button only; sets `mouseDown` only when a drag starts. */
  function MouseDownStep(s: AppState, hit: Option<CardRef>, button: int, x: real, y: real): (o: Outcome)
    requires s.Valid()
    ensures o.state.Valid() && o.effect == NoEffect
  {
    if OnTopCard(s, hit) && button == 0 then
      Outcome(s.(mouseDown := true, session := Begin(x, y, hit.value, None)), NoEffect)
    else Outcome(s, NoEffect)
  }

  function MouseMoveStep(s: AppState, x: real, y: real): (o: Outcome)
    requires s.Valid()
    ensures o.state.Valid()
    ensures o.state.deck == s.deck && o.state.mouseDown == s.mouseDown
  {
    if s.mouseDown && s.session.active then MoveStep(s, x, y) else Outcome(s, NoEffect)
  }

  function MouseUpStep(s: AppState): (o: Outcome)
    requires s.Valid()
    ensures o.state.Valid() && !o.state.mouseDown
  {
    if !s.mouseDown then Outcome(s, NoEffect)
    else
      var s1 := s.(mouseDown := false);
      if !s1.session.active then Outcome(s1, NoEffect) else FinishStep(s1)
  }

  /** `resetApp` from the restart button: the drag session is left as it is. */
  function RestartStep(s: AppState, baseSeed: int): (o: Outcome)
    requires s.Valid()
    ensures o.state.Valid()
    ensures o.state.session == s.session && o.state.mouseDown == s.mouseDown
    ensures o.state.deck.generation > s.deck.generation
  {
    var d := Reset(s.deck, baseSeed);
    Outcome(s.(deck := d), Rebuilt(RenderedCards(d.cats)))
  }

  /** The earliest deferred advance fires (nothing happens if none is scheduled). */
  function TimerStep(s: AppState): (o: Outcome)
    requires s.Valid()
    ensures o.state.Valid()
  {
    var d := Completed(s.deck);
    Outcome(s.(deck := d), if s.deck.pending == [] then NoEffect else Advanced(CompletionSummary(d)))
  }

  /** One event, delivered only if its listener family is registered. */
  function Step(s: AppState, e: Event): (o: Outcome)
    requires s.Valid()
    ensures o.state.Valid() && o.state.family == s.family
  {
    var pointer := s.family == PointerEvents;
    match e
    case PointerDown(hit, pointerType, button, x, y, pointerId) =>
      if pointer then PointerDownStep(s, hit, pointerType, button, x, y, pointerId) else Outcome(s, NoEffect)
    case PointerMove(x, y, pointerId) =>
      if pointer then PointerMoveStep(s, x, y, pointerId) else Outcome(s, NoEffect)
    case PointerUp(pointerId) =>
      if pointer then PointerUpStep(s, pointerId) else Outcome(s, NoEffect)
    case PointerCancel(pointerId) =>
      if pointer then PointerUpStep(s, pointerId) else Outcome(s, NoEffect)
    case TouchStart(hit, x, y) =>
      if !pointer then TouchStartStep(s, hit, x, y) else Outcome(s, NoEffect)
    case TouchMove(x, y) =>
      if !pointer then TouchMoveStep(s, x, y) else Outcome(s, NoEffect)
    case TouchEnd =>
      if !pointer then TouchEndStep(s) else Outcome(s, NoEffect)
    case MouseDown(hit, button, x, y) =>
      if !pointer then MouseDownStep(s, hit, button, x, y) else Outcome(s, NoEffect)
    case MouseMove(x, y) =>
      if !pointer then MouseMoveStep(s, x, y) else Outcome(s, NoEffect)
    case MouseUp =>
      if !pointer then MouseUpStep(s) else Outcome(s, NoEffect)
    case LikeClick => SwipeStep(s, Like)
    case DislikeClick => SwipeStep(s, Dislike)
    case RestartClick(baseSeed) => RestartStep(s, baseSeed)
    case TimerFired => TimerStep(s)
  }

  /** The state after a sequence of events. */
  function Run(s: AppState, events: seq<Event>): (t: AppState)
    requires s.Valid()
    ensures t.Valid() && t.family == s.family
    decreases |events|
  {
    if events == [] then s else Run(Step(s, events[0]).state, events[1..])
  }

  // ---------------------------------------------------------------------
  // The application object

  class SwipeApp {
    const family: Family
    const drag: DragSession
    const deck: SwipeDeck
    var mouseDown: bool

    function State(): AppState
      reads this, drag, deck
    {
      AppState(family, drag.State(), mouseDown, deck.State())
    }

    ghost predicate Valid()
      reads this, drag, deck
    {
      State().Valid()
    }

    /** `init()`: the globals, `resetApp`, and the listeners of `family`. */
    constructor (family: Family, baseSeed: int)
      ensures State() == Init(family, baseSeed) && Valid()
    {
      this.family := family;
      drag := new DragSession();
      deck := new SwipeDeck(baseSeed);
      mouseDown := false;
    }

    /** `topCardEl()`. */
    function TopCardEl(): (r: Option<CardRef>)
      reads deck
      ensures r.Some? ==> r.value == CardRef(deck.generation, deck.currentIndex)
      ensures deck.Valid() ==> (r.Some? <==> deck.currentIndex < |deck.cats|)
    {
      TopCard(deck.State())
    }

    method OnPointerDown(hit: Option<CardRef>, pointerType: PointerType, button: int,
                         x: real, y: real, pointerId: int) returns (effect: Effect)
      requires Valid()
      modifies this, drag, deck
      ensures Valid()
      ensures Outcome(State(), effect) == PointerDownStep(old(State()), hit, pointerType, button, x, y, pointerId)
    {
      effect := NoEffect;
      var card := TopCardEl();
      if card.None? { return; }
      if hit.None? || hit != card { return; }
      if pointerType == MousePointer && button != 0 { return; }
      drag.StartDrag(x, y, card.value, Some(pointerId));
    }

    /** `updateDrag` from a move handler whose guard passed. */
    method Move(x: real, y: real) returns (effect: Effect)
      requires Valid()
      modifies this, drag, deck
      ensures Valid()
      ensures Outcome(State(), effect) == MoveStep(old(State()), x, y)
    {
      var card := drag.card;
      var fb := drag.UpdateDrag(x, y);
      effect := if fb.Some? then Follow(card.value, fb.value) else NoEffect;
    }

    method OnPointerMove(x: real, y: real, pointerId: int) returns (effect: Effect)
      requires Valid()
      modifies this, drag, deck
      ensures Valid()
      ensures Outcome(State(), effect) == PointerMoveStep(old(State()), x, y, pointerId)
    {
      effect := NoEffect;
      if !drag.active { return; }
      if drag.pointerId.Some? && drag.pointerId != Some(pointerId) { return; }
      effect := Move(x, y);
    }

    /** `swipe(action)`. */
    method SwipeAction(a: Action) returns (effect: Effect)
      requires Valid()
      modifies this, drag, deck
      ensures Valid()
      ensures Outcome(State(), effect) == SwipeStep(old(State()), a)
    {
      var flown := deck.Swipe(a);
      effect := if flown.Some? then FlyOut(flown.value, a, FlyOutRotation(a)) else NoEffect;
    }

    /** `finishDrag`, with `snapBack` for a cancelled release. */
    method Finish() returns (effect: Effect)
      requires Valid()
      modifies this, drag, deck
      ensures Valid()
      ensures Outcome(State(), effect) == FinishStep(old(State()))
    {
      var r := drag.FinishDrag();
      match r
      case Unbound =>
        effect := NoEffect;
      case Released(card, Cancel) =>
        effect := SnapBack(card, RestingPose(|deck.cats|, card.index), HIDDEN_STAMPS);
      case Released(_, Commit(a)) =>
        effect := SwipeAction(a);
    }

    /** `onPointerUp`, also registered for `pointercancel`. */
    method OnPointerUp(pointerId: int) returns (effect: Effect)
      requires Valid()
      modifies this, drag, deck
      ensures Valid()
      ensures Outcome(State(), effect) == PointerUpStep(old(State()), pointerId)
    {
      effect := NoEffect;
      if !drag.active { return; }
      if drag.pointerId.Some? && drag.pointerId != Some(pointerId) { return; }
      effect := Finish();
    }

    method OnTouchStart(hit: Option<CardRef>, x: real, y: real) returns (effect: Effect)
      requires Valid()
      modifies this, drag, deck
      ensures Valid()
      ensures Outcome(State(), effect) == TouchStartStep(old(State()), hit, x, y)
    {
      effect := NoEffect;
      var card := TopCardEl();
      if card.None? { return; }
      if hit.None? || hit != card { return; }
      drag.StartDrag(x, y, card.value, None);
    }

    method OnTouchMove(x: real, y: real) returns (effect: Effect)
      requires Valid()
      modifies this, drag, deck
      ensures Valid()
      ensures Outcome(State(), effect) == TouchMoveStep(old(State()), x, y)
    {
      effect := NoEffect;
      if !drag.active { return; }
      effect := Move(x, y);
    }

    method OnTouchEnd() returns (effect: Effect)
      requires Valid()
      modifies this, drag, deck
      ensures Valid()
      ensures Outcome(State(), effect) == TouchEndStep(old(State()))
    {
      effect := NoEffect;
      if !drag.active { return; }
      effect := Finish();
    }

    method OnMouseDown(hit: Option<CardRef>, button: int, x: real, y: real) returns (effect: Effect)
      requires Valid()
      modifies this, drag, deck
      ensures Valid()
      ensures Outcome(State(), effect) == MouseDownStep(old(State()), hit, button, x, y)
    {
      effect := NoEffect;
      var card := TopCardEl();
      if card.None? { return; }
      if hit.None? || hit != card { return; }
      if button != 0 { return; }
      mouseDown := true;
      drag.StartDrag(x, y, card.value, None);
    }

    method OnMouseMove(x: real, y: real) returns (effect: Effect)
      requires Valid()
      modifies this, drag, deck
      ensures Valid()
      ensures Outcome(State(), effect) == MouseMoveStep(old(State()), x, y)
    {
      effect := NoEffect;
      if !mouseDown || !drag.active { return; }
      effect := Move(x, y);
    }

    method OnMouseUp() returns (effect: Effect)
      requires Valid()
      modifies this, drag, deck
      ensures Valid()
      ensures Outcome(State(), effect) == MouseUpStep(old(State()))
    {
      effect := NoEffect;
      if !mouseDown { return; }
      mouseDown := false;
      if !drag.active { return; }
      effect := Finish();
    }

    /** The restart button: `resetApp`. */
    method OnRestart(baseSeed: int) returns (effect: Effect)
      requires Valid()
      modifies this, drag, deck
      ensures Valid()
      ensures Outcome(State(), effect) == RestartStep(old(State()), baseSeed)
    {
      var children := deck.ResetApp(baseSeed);
      effect := Rebuilt(children);
    }

    /** The timer callback scheduled by the earliest pending `swipe`. */
    method OnTimer() returns (effect: Effect)
      requires Valid()
      modifies this, drag, deck
      ensures Valid()
      ensures Outcome(State(), effect) == TimerStep(old(State()))
    {
      var fired, summary := deck.CompleteSwipe();
      effect := if fired then Advanced(summary) else NoEffect;
    }

    /** Delivers one event to the handler registered for it, if any. */
    method Dispatch(e: Event) returns (effect: Effect)
      requires Valid()
      modifies this, drag, deck
      ensures Valid()
      ensures Outcome(State(), effect) == Step(old(State()), e)
    {
      var pointer := family == PointerEvents;
      effect := NoEffect;
      match e
      case PointerDown(hit, pointerType, button, x, y, pointerId) =>
        if pointer { effect := OnPointerDown(hit, pointerType, button, x, y, pointerId); }
      case PointerMove(x, y, pointerId) =>
        if pointer { effect := OnPointerMove(x, y, pointerId); }
      case PointerUp(pointerId) =>
        if pointer { effect := OnPointerUp(pointerId); }
      case PointerCancel(pointerId) =>
        if pointer { effect := OnPointerUp(pointerId); }
      case TouchStart(hit, x, y) =>
        if !pointer { effect := OnTouchStart(hit, x, y); }
      case TouchMove(x, y) =>
        if !pointer { effect := OnTouchMove(x, y); }
      case TouchEnd =>
        if !pointer { effect := OnTouchEnd(); }
      case MouseDown(hit, button, x, y) =>
        if !pointer { effect := OnMouseDown(hit, button, x, y); }
      case MouseMove(x, y) =>
        if !pointer { effect := OnMouseMove(x, y); }
      case MouseUp =>
        if !pointer { effect := OnMouseUp(); }
      case LikeClick =>
        effect := SwipeAction(Like);
      case DislikeClick =>
        effect := SwipeAction(Dislike);
      case RestartClick(baseSeed) =>
        effect := OnRestart(baseSeed);
      case TimerFired =>
        effect := OnTimer();
    }
  }
}
