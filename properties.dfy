/**
 * Properties of the input state machine: the guards of every handler, the
 * release decision, whole gestures as event sequences, and worked
 * scenarios on a fresh deck.
 */
module InputProperties {
  import opened Options
  import opened Geometry
  import opened Decision
  import opened Cards
  import opened Deck
  import opened Drag
  import opened Input

  predicate IsPointerEvent(e: Event)
  {
    e.PointerDown? || e.PointerMove? || e.PointerUp? || e.PointerCancel?
  }

  predicate IsTouchOrMouseEvent(e: Event)
  {
    e.TouchStart? || e.TouchMove? || e.TouchEnd? || e.MouseDown? || e.MouseMove? || e.MouseUp?
  }

  /** Only the registered listener family ever sees its events. */
  lemma UnregisteredFamilyIgnored(s: AppState, e: Event)
    requires s.Valid()
    requires (s.family == PointerEvents && IsTouchOrMouseEvent(e)) ||
             (s.family == TouchAndMouse && IsPointerEvent(e))
    ensures Step(s, e) == Outcome(s, NoEffect)
  {
  }

  /**
   * Pointer moves, ups and cancels do nothing while no session is active,
   * or when the session is bound to another pointer.
   */
  lemma PointerGuard(s: AppState, e: Event)
    requires s.Valid() && s.family == PointerEvents
    requires e.PointerMove? || e.PointerUp? || e.PointerCancel?
    requires !s.session.active || (s.session.pointerId.Some? && s.session.pointerId != Some(e.pointerId))
    ensures Step(s, e) == Outcome(s, NoEffect)
  {
  }

  /** A pointer up or cancel from the bound pointer always leaves the session idle. */
  lemma PointerReleaseClears(s: AppState, e: Event)
    requires s.Valid() && s.family == PointerEvents
    requires e.PointerUp? || e.PointerCancel?
    requires s.session.active && s.session.pointerId == Some(e.pointerId)
    ensures Step(s, e).state.session.Idle()
  {
  }

  /** A mouse move needs both the `mouseDown` flag and an active session. */
  lemma MouseMoveGuard(s: AppState, x: real, y: real)
    requires s.Valid() && s.family == TouchAndMouse
    requires !(s.mouseDown && s.session.active)
    ensures Step(s, MouseMove(x, y)) == Outcome(s, NoEffect)
  {
  }

  /**
   * A mouse up always clears `mouseDown`, and ends an active session only
   * when the mouse was down.
   */
  lemma MouseUpClearsFlag(s: AppState)
    requires s.Valid() && s.family == TouchAndMouse
    ensures !Step(s, MouseUp).state.mouseDown
    ensures s.mouseDown && s.session.active ==> Step(s, MouseUp).state.session.Idle()
    ensures !s.mouseDown ==> Step(s, MouseUp) == Outcome(s, NoEffect)
  {
  }

  /** Touch moves and ends do nothing without an active session. */
  lemma TouchGuard(s: AppState, e: Event)
    requires s.Valid() && s.family == TouchAndMouse
    requires e.TouchMove? || e.TouchEnd?
    requires !s.session.active
    ensures Step(s, e) == Outcome(s, NoEffect)
  {
  }

  /**
   * The passing side of the touch and mouse guards: a touch move on an
   * active session, or a mouse move with the button held during one,
   * applies `updateDrag` and changes nothing else.
   */
  lemma TouchMoveFollows(s: AppState, x: real, y: real)
    requires s.Valid() && s.family == TouchAndMouse && s.session.active
    ensures Step(s, TouchMove(x, y)).state == s.(session := Moved(s.session, x, y))
  {
  }

  lemma MouseMoveFollows(s: AppState, x: real, y: real)
    requires s.Valid() && s.family == TouchAndMouse && s.mouseDown && s.session.active
    ensures Step(s, MouseMove(x, y)).state == s.(session := Moved(s.session, x, y))
  {
  }

  /** A touch end on an active session is `finishDrag`, and always ends idle. */
  lemma TouchEndFinishes(s: AppState)
    requires s.Valid() && s.family == TouchAndMouse && s.session.active
    ensures Step(s, TouchEnd) == FinishStep(s)
    ensures Step(s, TouchEnd).state.session.Idle()
  {
  }

  /** A begin event of the registered family. */
  predicate IsBegin(s: AppState, e: Event)
  {
    (s.family == PointerEvents && e.PointerDown?) ||
    (s.family == TouchAndMouse && (e.TouchStart? || e.MouseDown?))
  }

  /** The press qualifies as a begin: primary button for mouse-like input. */
  predicate PrimaryPress(e: Event)
    requires e.PointerDown? || e.TouchStart? || e.MouseDown?
  {
    match e
    case PointerDown(_, pointerType, button, _, _, _) => pointerType != MousePointer || button == 0
    case MouseDown(_, button, _, _) => button == 0
    case TouchStart(_, _, _) => true
  }

  /** The pointer id a begin event binds to the session. */
  function BoundId(e: Event): Option<int>
    requires e.PointerDown? || e.TouchStart? || e.MouseDown?
  {
    if e.PointerDown? then Some(e.pointerId) else None
  }

  /**
   * A begin event starts a session exactly when it hits the top card with
   * the primary button; it then overwrites the session whatever it was, so
   * a second press on the top card restarts the drag from the new point.
   * The deck is never touched.
   */
  lemma BeginGuard(s: AppState, e: Event)
    requires s.Valid() && IsBegin(s, e)
    ensures Step(s, e).state.deck == s.deck && Step(s, e).effect == NoEffect
    ensures OnTopCard(s, e.hit) && PrimaryPress(e) ==>
              Step(s, e).state.session == Begin(e.x, e.y, e.hit.value, BoundId(e))
    ensures !(OnTopCard(s, e.hit) && PrimaryPress(e)) ==> Step(s, e).state == s
  {
  }

  /**
   * The decision of a release: above the threshold the top card is liked,
   * below its negation disliked, otherwise the dragged card snaps back to
   * its resting pose and neither the cursor nor the likes change. The
   * session is idle on every branch.
   */
  lemma ReleaseDecision(s: AppState)
    requires s.Valid() && s.session.active
    ensures var o := FinishStep(s);
      var card := s.session.card.value;
      o.state.session.Idle() &&
      match Classify(s.session.dx)
      case Cancel =>
        o.state.deck == s.deck &&
        o.effect == SnapBack(card, RestingPose(|s.deck.cats|, card.index), HIDDEN_STAMPS)
      case Commit(a) =>
        o.state.deck == Swiped(s.deck, a) &&
        o.effect == (if TopCard(s.deck).Some? then FlyOut(TopCard(s.deck).value, a, FlyOutRotation(a)) else NoEffect)
  {
  }

  /**
   * A cancelled release of a card of the current deck puts it back exactly
   * where `makeCard` placed it, with both stamps hidden.
   */
  lemma SnapBackRestoresMakeCardPose(s: AppState)
    requires s.Valid() && s.session.active && Classify(s.session.dx) == Cancel
    requires s.session.card.value.generation == s.deck.generation
    requires s.session.card.value.index < |s.deck.cats|
    ensures var card := s.session.card.value;
      FinishStep(s).effect == SnapBack(card, MakeCard(s.deck.cats, card.index).pose, HIDDEN_STAMPS)
  {
  }

  /** Whatever the event, a card that flies out is the current top card. */
  lemma FlyOutIsTopCard(s: AppState, e: Event)
    requires s.Valid()
    ensures var o := Step(s, e);
      o.effect.FlyOut? ==>
        TopCard(s.deck) == Some(o.effect.card) && o.effect.card.generation == s.deck.generation
  {
  }

  /**
   * The restart button rebuilds the deck and nothing else: a drag in
   * progress stays bound to its card, and `mouseDown` keeps its value.
   */
  lemma RestartKeepsSession(s: AppState, baseSeed: int)
    requires s.Valid()
    ensures var o := Step(s, RestartClick(baseSeed));
      o.state == s.(deck := Reset(s.deck, baseSeed)) &&
      o.effect == Rebuilt(RenderedCards(o.state.deck.cats))
  {
  }

  /**
   * After a restart during a touch drag, the next touch move still moves
   * the card of the old deck, an element no longer in the container.
   */
  lemma FeedbackAfterRestart(s: AppState, baseSeed: int, x: real, y: real)
    requires s.Valid() && s.family == TouchAndMouse && s.session.active
    requires s.session.card.value.generation <= s.deck.generation
    ensures var t := Step(s, RestartClick(baseSeed)).state;
      var o := Step(t, TouchMove(x, y));
      o.effect == Follow(s.session.card.value, FeedbackOf(Moved(s.session, x, y))) &&
      o.effect.card.generation < t.deck.generation
  {
  }

  // ---------------------------------------------------------------------
  // Gestures as event sequences

  lemma {:induction false} RunAppend(s: AppState, a: seq<Event>, b: seq<Event>)
    requires s.Valid()
    ensures Run(s, a + b) == Run(Run(s, a), b)
    decreases |a|
  {
    if a == [] {
      assert a + b == b;
    } else {
      var s1 := Step(s, a[0]).state;
      assert (a + b)[0] == a[0];
      assert (a + b)[1..] == a[1..] + b;
      assert Run(s, a + b) == Run(s1, a[1..] + b);
      assert Run(s, a) == Run(s1, a[1..]);
      RunAppend(s1, a[1..], b);
    }
  }

  /** Pointer moves of one pointer through `points`. */
  function PointerMoves(points: seq<Point>, pointerId: int): (events: seq<Event>)
    ensures |events| == |points|
  {
    seq(|points|, i requires 0 <= i < |points| => PointerMove(points[i].x, points[i].y, pointerId))
  }

  /** Moves of the bound pointer only update the session. */
  lemma {:induction false} RunPointerMoves(s: AppState, points: seq<Point>, pointerId: int)
    requires s.Valid() && s.family == PointerEvents
    requires s.session.active && s.session.pointerId == Some(pointerId)
    ensures Run(s, PointerMoves(points, pointerId)) == s.(session := MovedThrough(s.session, points))
    decreases |points|
  {
    if points != [] {
      var events := PointerMoves(points, pointerId);
      var s1 := Step(s, events[0]).state;
      assert s1 == s.(session := Moved(s.session, points[0].x, points[0].y));
      assert events[1..] == PointerMoves(points[1..], pointerId);
      RunPointerMoves(s1, points[1..], pointerId);
    }
  }

  /**
   * A whole pointer gesture on the top card (press, moves, release of the
   * same pointer) leaves the session idle and changes the deck exactly as
   * the classification of the last horizontal offset says: a swipe of the
   * top card on a commit, nothing on a cancel.
   */
  lemma PointerGesture(s: AppState, pointerType: PointerType, origin: Point, points: seq<Point>, pointerId: int)
    requires s.Valid() && s.family == PointerEvents && TopCard(s.deck).Some?
    ensures var card := TopCard(s.deck).value;
      var events := [PointerDown(Some(card), pointerType, 0, origin.x, origin.y, pointerId)] +
                    PointerMoves(points, pointerId) + [PointerUp(pointerId)];
      var t := Run(s, events);
      var dx := if points == [] then 0.0 else points[|points| - 1].x - origin.x;
      t.session.Idle() && t.mouseDown == s.mouseDown &&
      t.deck == match Classify(dx)
                case Commit(a) => Swiped(s.deck, a)
                case Cancel => s.deck
  {
    var card := TopCard(s.deck).value;
    var down := [PointerDown(Some(card), pointerType, 0, origin.x, origin.y, pointerId)];
    var moves := PointerMoves(points, pointerId);
    var up := [PointerUp(pointerId)];
    RunAppend(s, down + moves, up);
    RunAppend(s, down, moves);
    var s1 := Run(s, down);
    assert s1 == s.(session := Begin(origin.x, origin.y, card, Some(pointerId)));
    RunPointerMoves(s1, points, pointerId);
    var s2 := Run(s1, moves);
    MovedThroughLast(s1.session, points);
    GestureDecision(origin, card, Some(pointerId), points);
    assert Run(s2, up) == FinishStep(s2).state;
  }

  /** Touch moves through `points`. */
  function TouchMoves(points: seq<Point>): (events: seq<Event>)
    ensures |events| == |points|
  {
    seq(|points|, i requires 0 <= i < |points| => TouchMove(points[i].x, points[i].y))
  }

  /** Touch moves during an active session only update the session. */
  lemma {:induction false} RunTouchMoves(s: AppState, points: seq<Point>)
    requires s.Valid() && s.family == TouchAndMouse && s.session.active
    ensures Run(s, TouchMoves(points)) == s.(session := MovedThrough(s.session, points))
    decreases |points|
  {
    if points != [] {
      var events := TouchMoves(points);
      var s1 := Step(s, events[0]).state;
      assert s1 == s.(session := Moved(s.session, points[0].x, points[0].y));
      assert events[1..] == TouchMoves(points[1..]);
      RunTouchMoves(s1, points[1..]);
    }
  }

  /**
   * A whole touch gesture on the top card (start, moves, end) leaves the
   * session idle, does not touch `mouseDown`, and changes the deck exactly
   * as the classification of the last horizontal offset says.
   */
  lemma TouchGesture(s: AppState, origin: Point, points: seq<Point>)
    requires s.Valid() && s.family == TouchAndMouse && TopCard(s.deck).Some?
    ensures var card := TopCard(s.deck).value;
      var events := [TouchStart(Some(card), origin.x, origin.y)] + TouchMoves(points) + [TouchEnd];
      var t := Run(s, events);
      var dx := if points == [] then 0.0 else points[|points| - 1].x - origin.x;
      t.session.Idle() && t.mouseDown == s.mouseDown &&
      t.deck == match Classify(dx)
                case Commit(a) => Swiped(s.deck, a)
                case Cancel => s.deck
  {
    var card := TopCard(s.deck).value;
    var start := [TouchStart(Some(card), origin.x, origin.y)];
    var moves := TouchMoves(points);
    var end := [TouchEnd];
    RunAppend(s, start + moves, end);
    RunAppend(s, start, moves);
    var s1 := Run(s, start);
    assert s1 == s.(session := Begin(origin.x, origin.y, card, None));
    RunTouchMoves(s1, points);
    var s2 := Run(s1, moves);
    MovedThroughLast(s1.session, points);
    GestureDecision(origin, card, None, points);
    assert Run(s2, end) == FinishStep(s2).state;
  }

  /** Mouse moves through `points`. */
  function MouseMoves(points: seq<Point>): (events: seq<Event>)
    ensures |events| == |points|
  {
    seq(|points|, i requires 0 <= i < |points| => MouseMove(points[i].x, points[i].y))
  }

  /** Mouse moves with the button held during a session only update the session. */
  lemma {:induction false} RunMouseMoves(s: AppState, points: seq<Point>)
    requires s.Valid() && s.family == TouchAndMouse && s.mouseDown && s.session.active
    ensures Run(s, MouseMoves(points)) == s.(session := MovedThrough(s.session, points))
    decreases |points|
  {
    if points != [] {
      var events := MouseMoves(points);
      var s1 := Step(s, events[0]).state;
      assert s1 == s.(session := Moved(s.session, points[0].x, points[0].y));
      assert events[1..] == MouseMoves(points[1..]);
      RunMouseMoves(s1, points[1..]);
    }
  }

  /**
   * A whole left-button mouse gesture on the top card (down, moves, up)
   * leaves the session idle and `mouseDown` false, and changes the deck
   * exactly as the classification of the last horizontal offset says.
   */
  lemma MouseGesture(s: AppState, origin: Point, points: seq<Point>)
    requires s.Valid() && s.family == TouchAndMouse && TopCard(s.deck).Some?
    ensures var card := TopCard(s.deck).value;
      var events := [MouseDown(Some(card), 0, origin.x, origin.y)] + MouseMoves(points) + [MouseUp];
      var t := Run(s, events);
      var dx := if points == [] then 0.0 else points[|points| - 1].x - origin.x;
      t.session.Idle() && !t.mouseDown &&
      t.deck == match Classify(dx)
                case Commit(a) => Swiped(s.deck, a)
                case Cancel => s.deck
  {
    var card := TopCard(s.deck).value;
    var down := [MouseDown(Some(card), 0, origin.x, origin.y)];
    var moves := MouseMoves(points);
    var up := [MouseUp];
    RunAppend(s, down + moves, up);
    RunAppend(s, down, moves);
    var s1 := Run(s, down);
    assert s1 == s.(mouseDown := true, session := Begin(origin.x, origin.y, card, None));
    RunMouseMoves(s1, points);
    var s2 := Run(s1, moves);
    MovedThroughLast(s1.session, points);
    GestureDecision(origin, card, None, points);
    assert Run(s2, up) == FinishStep(s2.(mouseDown := false)).state;
  }

  // ---------------------------------------------------------------------
  // Scenarios on a fresh deck (pointer listeners, finger input)

  /**
   * A finger (pointer 7) pressing the top card at the origin, moving to
   * (x, 0) and lifting: the outcome of the release for any valid state.
   */
  lemma FingerDragRelease(s0: AppState, x: real)
    requires s0.Valid() && s0.family == PointerEvents && TopCard(s0.deck).Some?
    ensures var top := TopCard(s0.deck).value;
      var s1 := Step(s0, PointerDown(Some(top), TouchPointer, 0, 0.0, 0.0, 7)).state;
      var s2 := Step(s1, PointerMove(x, 0.0, 7)).state;
      var o3 := Step(s2, PointerUp(7));
      o3.state.session.Idle() &&
      match Classify(x)
      case Cancel =>
        o3.state.deck == s0.deck &&
        o3.effect == SnapBack(top, RestingPose(|s0.deck.cats|, top.index), HIDDEN_STAMPS)
      case Commit(a) =>
        o3.state.deck == Swiped(s0.deck, a) && o3.effect == FlyOut(top, a, FlyOutRotation(a))
  {
    var top := TopCard(s0.deck).value;
    var s1 := Step(s0, PointerDown(Some(top), TouchPointer, 0, 0.0, 0.0, 7)).state;
    assert s1.session == Begin(0.0, 0.0, top, Some(7)) && s1.deck == s0.deck;
    var s2 := Step(s1, PointerMove(x, 0.0, 7)).state;
    assert s2.session.active && s2.session.card == Some(top) && s2.session.pointerId == Some(7);
    assert s2.session.dx == x && s2.deck == s0.deck;
    assert Step(s2, PointerUp(7)) == FinishStep(s2);
    ReleaseDecision(s2);
  }

  /** Drag the first card 150 to the right and release, then let the timer fire. */
  lemma LikeScenario(baseSeed: int)
    ensures var s0 := Init(PointerEvents, baseSeed);
      var top := CardRef(1, 0);
      var s1 := Step(s0, PointerDown(Some(top), TouchPointer, 0, 0.0, 0.0, 7)).state;
      var s2 := Step(s1, PointerMove(150.0, 0.0, 7)).state;
      var o3 := Step(s2, PointerUp(7));
      var o4 := Step(o3.state, TimerFired);
      o3.effect == FlyOut(top, Like, 18.0) &&
      o3.state.session.Idle() &&
      o3.state.deck.liked == [CatUrl(baseSeed)] && o3.state.deck.currentIndex == 0 &&
      o4.state.deck.currentIndex == 1 && o4.state.deck.liked == [CatUrl(baseSeed)] &&
      TopCard(o4.state.deck) == Some(CardRef(1, 1)) &&
      o4.effect == Advanced(None)
  {
    ResetShape(EMPTY_DECK, baseSeed);
    var s0 := Init(PointerEvents, baseSeed);
    assert Classify(150.0) == Commit(Like);
    FingerDragRelease(s0, 150.0);
    SwipeRecordsOutcome(s0.deck, Like);
    SwipeThenAdvance(s0.deck, Like);
  }

  /** Drag the first card 200 to the left and release, then let the timer fire. */
  lemma DislikeScenario(baseSeed: int)
    ensures var s0 := Init(PointerEvents, baseSeed);
      var top := CardRef(1, 0);
      var s1 := Step(s0, PointerDown(Some(top), TouchPointer, 0, 0.0, 0.0, 7)).state;
      var s2 := Step(s1, PointerMove(-200.0, 0.0, 7)).state;
      var o3 := Step(s2, PointerUp(7));
      var s4 := Step(o3.state, TimerFired).state;
      o3.effect == FlyOut(top, Dislike, -18.0) &&
      s4.deck.liked == [] && s4.deck.currentIndex == 1
  {
    ResetShape(EMPTY_DECK, baseSeed);
    var s0 := Init(PointerEvents, baseSeed);
    assert Classify(-200.0) == Commit(Dislike);
    FingerDragRelease(s0, -200.0);
    SwipeRecordsOutcome(s0.deck, Dislike);
    SwipeThenAdvance(s0.deck, Dislike);
  }

  /**
   * Drag the first card 50 to the right and release: it snaps back. Its
   * resting pose is that of depth 11 (offset 10, scale 0.94), since depth
   * counts from the last card of the deck.
   */
  lemma CancelScenario(baseSeed: int)
    ensures var s0 := Init(PointerEvents, baseSeed);
      var top := CardRef(1, 0);
      var s1 := Step(s0, PointerDown(Some(top), TouchPointer, 0, 0.0, 0.0, 7)).state;
      var s2 := Step(s1, PointerMove(50.0, 0.0, 7)).state;
      var o3 := Step(s2, PointerUp(7));
      o3.effect == SnapBack(top, Pose(10, 0.94), HIDDEN_STAMPS) &&
      o3.state.deck == s0.deck && o3.state.session.Idle()
  {
    ResetShape(EMPTY_DECK, baseSeed);
    var s0 := Init(PointerEvents, baseSeed);
    assert Classify(50.0) == Cancel;
    FingerDragRelease(s0, 50.0);
    assert RestingPose(12, 0) == Pose(10, 0.94);
  }

  /**
   * A second finger pressing the top card during a drag restarts the
   * session from the new press and binds the new pointer; the first
   * finger's release is then ignored.
   */
  lemma SecondPressRestarts(baseSeed: int)
    ensures var s0 := Init(PointerEvents, baseSeed);
      var top := CardRef(1, 0);
      var s1 := Step(s0, PointerDown(Some(top), TouchPointer, 0, 0.0, 0.0, 1)).state;
      var s2 := Step(s1, PointerMove(100.0, 0.0, 1)).state;
      var s3 := Step(s2, PointerDown(Some(top), TouchPointer, 0, 40.0, 5.0, 2)).state;
      var s4 := Step(s3, PointerUp(1)).state;
      s3.session == Begin(40.0, 5.0, top, Some(2)) && s4 == s3
  {
    ResetShape(EMPTY_DECK, baseSeed);
  }
}
