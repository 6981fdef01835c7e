# Paws & Preferences swipe deck — a Dafny model

Paws & Preferences shows a stack of twelve cat pictures. The user drags
the top card right to like it or left to dislike it, or presses the like
and dislike buttons. A running status shows the remaining and liked
counts. A summary of the liked cats appears once the deck is exhausted.
All of the behaviour lives in `app.js`.

This project models the logic of `app.js`, with the browser replaced by
a few abstract values:

- **the drag session**: the `drag` record and `startDrag`, `updateDrag`,
  `clearDrag` and `finishDrag`;
- **the release decision**: the strict three-way classification of the
  final horizontal offset against `SWIPE_THRESHOLD = 120`;
- **the input handlers**: the pointer, touch and mouse handlers, seen as
  the guards of one state machine. The listener family is a fixed
  parameter, as `bindDeckDrag` picks it once;
- **the deck controller**: `cats`, `currentIndex` and `liked`, plus
  `resetApp`, `renderDeck`/`makeCard`, `topCardEl` and `swipe`. The
  deferred advance of `swipe` (its timer callback) is an explicit event;
- **the pure helpers**: `clamp`, the drag rotation and stamp opacities,
  the stacking formula and the status line.

## Structure

| file | module | contents |
|---|---|---|
| `options.dfy` | `Options` | `Option`, used for JavaScript's `null` |
| `geometry.dfy` | `Geometry` | `clamp`, rotation, stamp opacities, resting pose |
| `decision.dfy` | `Decision` | `Classify`, the swipe actions |
| `status.dfy` | `StatusText` | the status line and a parser that reads it back |
| `cards.dfy` | `Cards` | cat records, `makeCard`, `renderDeck` (a loop) |
| `deck.dfy` | `Deck` | deck transitions on a `DeckState` value; class `SwipeDeck` |
| `session.dfy` | `Drag` | session transitions on a `Session` value; class `DragSession` |
| `input.dfy` | `Input` | handlers as functions returning `Outcome`; class `SwipeApp` |
| `properties.dfy` | `InputProperties` | guards, release decision, whole gestures, scenarios |

Each stateful part is written twice. First, a function on a value
(`Begin`, `Moved`, `Swiped`, `Completed`, `Step`, …) states the
transition. Second, a class method updates the fields in place, as
`app.js` does, and its `ensures` ties the new `State()` to that function
applied to `old(State())`. The lemmas are stated about the functions.

Modelling choices:

- JavaScript numbers are mathematical reals, so there is no rounding.
  Indices are naturals.
- `catUrl(seed)` is the constructor `CatUrl(seed)`. Two references are
  equal exactly when their seeds are. The URL text is not modelled.
- A card element is `CardRef(generation, index)`, where `index` is its
  `data-index`. `generation` counts the rebuilds of the deck container,
  so an element of an earlier deck never equals one of the current deck.
  `present` holds the indices of elements still in the container.
  `pending` holds, in firing order, the card captured by each timer
  callback that is scheduled but has not yet run.
- Handlers return an `Effect`: the values they write to the page, such as
  the drag feedback, a fly-out, a snap-back pose, the rebuilt cards, or
  the advance and its summary.

Where `app.js` does something a user might not expect, the model follows
`app.js`:

- Begin handlers do not check `drag.active`. A press on the top card
  during a drag restarts the session (`BeginGuard`, `SecondPressRestarts`).
- The touch path tracks no contact identity. Its moves use `touches[0]`,
  and any touch end finishes the session.
- `swipe` is not idempotent while its advance is pending. Two swipes
  before the timer fires record a like twice and advance the cursor by
  two, skipping a card (`DoubleSwipeSkipsCard`). The cursor can therefore
  pass the deck length, and the summary can be shown more than once.
- `resetApp` neither cancels pending advances nor clears the drag
  session. An advance scheduled before a restart moves the new deck's
  cursor (`StaleAdvanceAfterReset`). A drag in progress stays bound to
  the old deck's card (`RestartKeepsSession`, `FeedbackAfterRestart`).
- The stacking depth is `cats.length - 1 - index`, counted from the LAST
  card. The top card at index 0 therefore rests at depth 11, with offset
  10 and scale 0.94 (`CancelScenario`). It is not at depth 0.
- The status line reads `Remaining: r | Liked: l`, and is empty when no
  cards remain.

## Model

| member | source | states |
|---|---|---|
| `Geometry.Clamp` | app.js:378-380 | result lies in [lo, hi] when lo ≤ hi; equals n inside the range, lo below it, hi above it; lo when hi < lo |
| `Geometry.Rotation` | app.js:255 | drag rotation lies in [-14, 14], has the sign of dx, and is ±14 once abs(dx) ≥ 300 |
| `Geometry.RotationMirror` | app.js:255 | dragging left mirrors dragging right: Rotation(-dx) = -Rotation(dx) |
| `Geometry.RotationMonotone` | app.js:255 | rotation never decreases as dx grows |
| `Geometry.Fade` | app.js:260 | fade lies in [0, 1]; it is 1 exactly when abs(dx) ≥ 120 and 0 exactly when dx = 0 |
| `Geometry.StampOpacities` | app.js:258-268 | dx > 0 shows the like stamp at the fade and hides the nope stamp; dx ≤ 0 does the reverse; at most one stamp is visible |
| `Geometry.RestingOffsetY` | app.js:94-95 | resting offset is at most 10, non-negative for depth ≥ 0, 3·depth up to depth 3 and 10 from depth 4 |
| `Geometry.RestingScale` | app.js:96 | resting scale is at least 0.94, at most 1 for depth ≥ 0, and 0.94 from depth 6 |
| `Geometry.RestingPose` | app.js:94-97 | a card of the deck rests with offset in [0, 10] and scale in [0.94, 1] |
| `Geometry.RestingPoseMonotone` | app.js:94-97 | a card with a larger index rests no lower and no smaller |
| `Decision.Classify` | app.js:282-288 | Like iff dx > 120, Dislike iff dx < -120, Cancel iff -120 ≤ dx ≤ 120, boundaries included |
| `Decision.ClassifyMirror` | app.js:282-288 | mirroring the offset swaps like and dislike and keeps cancel |
| `Decision.CommitShowsFullStamp` | app.js:255-288 | a committed release had the matching stamp fully opaque and the other hidden |
| `Decision.FlyOutRotation` | app.js:309 | the fly-out rotates +18 for a like and -18 for a dislike |
| `StatusText.NatToString` | app.js:374 | decimal rendering: non-empty, digits only, no leading zero |
| `StatusText.ParseNatToString` | app.js:374 | reading the decimal rendering back gives the number |
| `StatusText.StatusLine` | app.js:371-376 | the line is empty exactly when no card remains |
| `StatusText.StatusLineRoundTrip` | app.js:371-376 | a non-empty status line determines both counts it displays |
| `Cards.FreshCats` | app.js:62-65 | the deck of a seed is a fresh deck whose first image has that seed |
| `Cards.FreshDeckShape` | app.js:62-65 | a fresh deck has 12 cats with ids 1..12 and pairwise distinct images |
| `Cards.MakeCard` | app.js:88-97 | the element carries data-index = index and the cat's id and image, and rests with offset in [0, 10] and scale in [0.94, 1]; the last card rests at offset 0 and scale 1 |
| `Cards.RenderedCards` | app.js:81-85 | rendering yields one element per cat |
| `Cards.RenderDeck` | app.js:81-85 | the descending loop appends makeCard(cats[i], i) for i from the last index down to 0 |
| `Cards.RenderedCardsIndices` | app.js:81-94 | the element indices are exactly 0..cats.length-1, and the last element appended is card 0 |
| `Deck.Reset` | app.js:59-79 | resetApp gives a valid deck whenever every pending advance belongs to the current deck or an earlier one |
| `Deck.ResetShape` | app.js:59-79 | after resetApp: 12 cats, cats[i].id = i+1, cats[i].url = catUrl(seed+i), cursor 0, no likes, top card 0, status "Remaining: 12 \| Liked: 0" |
| `Deck.StatusOf` | app.js:371-376 | updateStatus for a deck: empty exactly when currentIndex ≥ cats.length |
| `Deck.StatusShowsCounts` | app.js:371-376 | while cards remain, the status reads back as cats.length - currentIndex and liked.length |
| `Deck.TopCard` | app.js:124-126 | on a valid deck, there is a top card exactly when currentIndex < cats.length, and it is the current element at currentIndex |
| `Deck.Swiped` | app.js:300-313 | swipe keeps the deck valid; it is a no-op without a top card; it never moves the cursor, so the card stays on top |
| `Deck.SwipeRecordsOutcome` | app.js:304-305 | a like appends exactly cats[currentIndex].url; a dislike appends nothing; the card's advance is queued |
| `Deck.Completed` | app.js:314-322 | the deferred advance keeps the deck valid, raises currentIndex by exactly one, and rewrites the status; nothing happens without one pending |
| `Deck.CompletionSummary` | app.js:319-321 | the summary is shown exactly when currentIndex ≥ cats.length, and carries the likes and the deck size |
| `Deck.SwipeThenAdvance` | app.js:300-323 | a swipe and its advance remove the top card and make the next card the top card; the summary is due iff it was the last card |
| `Deck.DoubleSwipeSkipsCard` | app.js:300-323 | two swipes before the timer record the like twice and advance by two, skipping a card still in the deck |
| `Deck.StaleAdvanceAfterReset` | app.js:59-79 | an advance pending across resetApp moves the new deck's cursor to 1 |
| `Deck.PlayInOrder` | app.js:300-323 | swiping card by card advances by one per action and appends the liked images in decision order |
| `Deck.SummaryOnlyAfterLastCard` | app.js:316-321 | swiping a fresh deck card by card signals the summary after the last card and after no earlier one |
| `Deck.SwipeDeck.constructor` | app.js:34-36 | initial globals followed by resetApp |
| `Deck.SwipeDeck.ResetApp` | app.js:59-79 | the new state is Reset of the old one; the returned elements are those renderDeck appends |
| `Deck.SwipeDeck.Swipe` | app.js:300-313 | the new state is Swiped of the old one; the card that flies out is the old top card |
| `Deck.SwipeDeck.CompleteSwipe` | app.js:314-322 | the new state is Completed of the old one; it reports whether a callback ran and the summary it shows |
| `Drag.Begin` | app.js:236-246 | startDrag yields a valid, active session |
| `Drag.Moved` | app.js:248-253 | updateDrag keeps the session valid, changes nothing without a card, and never changes the origin, card or pointer |
| `Drag.FeedbackOf` | app.js:255-268 | the card is translated by the offset, rotated within [-14, 14], and shows only the stamp of the drag direction |
| `Drag.Cleared` | app.js:291-297 | clearDrag leaves active = false, card = null, pointerId = null and dx = dy = 0, and keeps the origin |
| `Drag.ReleaseOf` | app.js:271-289 | without a card the release does nothing; otherwise it classifies the dx read before clearing |
| `Drag.BeginThenMove` | app.js:236-253 | after startDrag(x, y), updateDrag(x', y') gives dx = x' - x and dy = y' - y |
| `Drag.MovedThroughLast` | app.js:248-253 | the offset after several moves depends only on the last position |
| `Drag.GestureDecision` | app.js:236-297 | a gesture decides on the distance from its origin to its last position, and ends idle |
| `Drag.DragSession.constructor` | app.js:39-47 | the initial drag record |
| `Drag.DragSession.StartDrag` | app.js:236-246 | the new record is Begin of the arguments |
| `Drag.DragSession.UpdateDrag` | app.js:248-269 | the new record is Moved of the old one; the returned feedback is that of the new offset, if a card is bound |
| `Drag.DragSession.ClearDrag` | app.js:291-297 | the new record is Cleared of the old one |
| `Drag.DragSession.FinishDrag` | app.js:271-289 | the record is cleared before the verdict on the old dx is returned |
| `Input.Init` | app.js:49-56 | the state after init() is valid |
| `Input.PointerDownStep` | app.js:148-164 | onPointerDown keeps the state valid and returns NoEffect; the transition string and pointer capture are not modelled; BeginGuard states when it starts a session |
| `Input.MoveStep` | app.js:248-269 | a move keeps the state valid and leaves the deck and mouseDown unchanged |
| `Input.PointerMoveStep` | app.js:166-172 | onPointerMove keeps the state valid |
| `Input.SwipeStep` | app.js:300-323 | swipe keeps the state valid and leaves the session and mouseDown unchanged |
| `Input.FinishStep` | app.js:271-289 | finishDrag always leaves the session idle, keeps the state valid, and leaves mouseDown unchanged |
| `Input.PointerUpStep` | app.js:174-179 | onPointerUp keeps the state valid |
| `Input.TouchStartStep` | app.js:182-192 | onTouchStart keeps the state valid and returns NoEffect; the transition string is not modelled; BeginGuard states when it starts a session |
| `Input.TouchMoveStep` | app.js:194-200 | onTouchMove keeps the state valid and leaves the deck and mouseDown unchanged; TouchGuard (inactive: no-op) and TouchMoveFollows (active: updateDrag) state both sides of its guard |
| `Input.TouchEndStep` | app.js:202-205 | onTouchEnd keeps the state valid, always leaves the session idle, and leaves mouseDown unchanged; TouchEndFinishes states that an active session is finished by finishDrag |
| `Input.MouseDownStep` | app.js:210-221 | onMouseDown keeps the state valid and returns NoEffect; the transition string is not modelled; BeginGuard states when it starts a session |
| `Input.MouseMoveStep` | app.js:223-226 | onMouseMove keeps the state valid and leaves the deck and mouseDown unchanged; MouseMoveGuard (no-op) and MouseMoveFollows (updateDrag) state both sides of its guard |
| `Input.MouseUpStep` | app.js:228-233 | onMouseUp keeps the state valid and always clears mouseDown |
| `Input.RestartStep` | app.js:364-368 | the restart button keeps the state valid, builds a later deck, and leaves the session and mouseDown as they were |
| `Input.TimerStep` | app.js:314-322 | the timer callback keeps the state valid |
| `Input.Step` | app.js:129-145 | every event keeps the state valid and the listener family fixed |
| `Input.Run` | app.js:129-145 | any sequence of events keeps the state valid |
| `Input.SwipeApp.TopCardEl` | app.js:124-126 | a top card, if any, is the current deck's element at currentIndex; on a valid deck there is one exactly when currentIndex < cats.length |
| `Input.SwipeApp.constructor` | app.js:49-56 | the application after init() |
| `Input.SwipeApp.OnPointerDown` | app.js:148-164 | the new state and effect are PointerDownStep of the old state |
| `Input.SwipeApp.Move` | app.js:248-269 | the new state and effect are MoveStep of the old state |
| `Input.SwipeApp.OnPointerMove` | app.js:166-172 | the new state and effect are PointerMoveStep of the old state |
| `Input.SwipeApp.SwipeAction` | app.js:300-313 | the new state and effect are SwipeStep of the old state |
| `Input.SwipeApp.Finish` | app.js:271-289 | the new state and effect are FinishStep of the old state |
| `Input.SwipeApp.OnPointerUp` | app.js:174-179 | the new state and effect are PointerUpStep of the old state |
| `Input.SwipeApp.OnTouchStart` | app.js:182-192 | the new state and effect are TouchStartStep of the old state |
| `Input.SwipeApp.OnTouchMove` | app.js:194-200 | the new state and effect are TouchMoveStep of the old state |
| `Input.SwipeApp.OnTouchEnd` | app.js:202-205 | the new state and effect are TouchEndStep of the old state |
| `Input.SwipeApp.OnMouseDown` | app.js:210-221 | the new state and effect are MouseDownStep of the old state |
| `Input.SwipeApp.OnMouseMove` | app.js:223-226 | the new state and effect are MouseMoveStep of the old state |
| `Input.SwipeApp.OnMouseUp` | app.js:228-233 | the new state and effect are MouseUpStep of the old state |
| `Input.SwipeApp.OnRestart` | app.js:364-368 | the new state and effect are RestartStep of the old state |
| `Input.SwipeApp.OnTimer` | app.js:314-322 | the new state and effect are TimerStep of the old state |
| `Input.SwipeApp.Dispatch` | app.js:129-145 | the new state and effect are Step of the old state and the event |
| `InputProperties.UnregisteredFamilyIgnored` | app.js:129-145 | events of the listener family not registered change nothing |
| `InputProperties.PointerGuard` | app.js:166-179 | pointer move, up and cancel do nothing when no session is active or another pointer is bound |
| `InputProperties.PointerReleaseClears` | app.js:174-179 | an up or cancel of the bound pointer leaves the session idle |
| `InputProperties.MouseMoveGuard` | app.js:223-226 | a mouse move does nothing unless mouseDown and the session are both active |
| `InputProperties.MouseUpClearsFlag` | app.js:228-233 | a mouse up always clears mouseDown, finishes an active session when the mouse was down, and is a no-op otherwise |
| `InputProperties.TouchGuard` | app.js:194-205 | a touch move or end does nothing without an active session |
| `InputProperties.TouchMoveFollows` | app.js:194-200 | a touch move during an active session applies updateDrag to the session and changes nothing else |
| `InputProperties.MouseMoveFollows` | app.js:223-226 | a mouse move with mouseDown set during an active session applies updateDrag to the session and changes nothing else |
| `InputProperties.TouchEndFinishes` | app.js:202-205 | a touch end during an active session is exactly finishDrag and leaves the session idle |
| `InputProperties.BeginGuard` | app.js:148-164 | a press starts a session iff it hits the top card with the primary button; it then overwrites any session, and never touches the deck |
| `InputProperties.ReleaseDecision` | app.js:271-289 | a release swipes the top card on a commit; on a cancel it snaps the card back to its makeCard pose with hidden stamps and leaves the deck alone; the session ends idle |
| `InputProperties.SnapBackRestoresMakeCardPose` | app.js:325-338 | a cancelled release of a current-deck card returns it to exactly the pose makeCard gave it, with both stamps hidden |
| `InputProperties.FlyOutIsTopCard` | app.js:300-313 | whatever the event, a card that flies out is the current top card of the current deck |
| `InputProperties.RestartKeepsSession` | app.js:59-79 | the restart button replaces only the deck and reports the rendered cards; the drag session and mouseDown are kept |
| `InputProperties.FeedbackAfterRestart` | app.js:248-269 | after a restart during a touch drag, the next touch move gives feedback on the old deck's card, which is no longer in the container |
| `InputProperties.RunPointerMoves` | app.js:166-172 | moves of the bound pointer change only the session |
| `InputProperties.PointerGesture` | app.js:148-289 | press, moves and release of one pointer end idle and swipe the top card exactly when the last offset commits |
| `InputProperties.RunTouchMoves` | app.js:194-200 | touch moves during an active session change only the session |
| `InputProperties.TouchGesture` | app.js:182-205 | start, moves and end of a touch on the top card end idle, keep mouseDown, and swipe the top card exactly when the last offset commits |
| `InputProperties.RunMouseMoves` | app.js:223-226 | mouse moves with the button held during a session change only the session |
| `InputProperties.MouseGesture` | app.js:210-233 | left-button down, moves and up on the top card end idle with mouseDown cleared, and swipe the top card exactly when the last offset commits |
| `InputProperties.FingerDragRelease` | app.js:148-289 | from any valid state, a finger press on the top card, one move to (x, 0) and a lift swipes the top card with its fly-out on a commit, and snaps it back to its resting pose on a cancel |
| `InputProperties.LikeScenario` | app.js:148-323 | drag to +150: the like is recorded, the card flies out, and after the timer card 1 is on top |
| `InputProperties.DislikeScenario` | app.js:148-323 | drag to -200: nothing is liked, and the cursor moves to 1 |
| `InputProperties.CancelScenario` | app.js:271-338 | drag to +50: snap back to offset 10 and scale 0.94; the deck is unchanged |
| `InputProperties.SecondPressRestarts` | app.js:148-179 | a second finger on the top card restarts the session, and the first finger's release is ignored |

## Left out

- DOM construction and CSS text are not modelled. This covers `createElement`,
  `innerHTML`, transform and transition strings, class toggling, and the
  rendering in `showSummary`. Only the values written are modelled.
- Disabling the like and dislike buttons in `showSummary` is not modelled.
  Buttons are disabled only while there is no top card, and then `swipe`
  is a no-op, so the omission changes no state.
- Listener registration and capability detection are not modelled. The
  listener family is a parameter of the application.
- `setPointerCapture`, `preventDefault` and `cancelable` are not
  modelled. They are browser plumbing with no effect on the state.
- Timer durations (`ANIM_MS`) are not modelled. Callbacks of equal delay
  fire in scheduling order, and the model keeps only that order.
- The fly-out distance `window.innerWidth * 1.2` is not modelled; only
  the direction and the ±18 rotation are kept.
- `Date.now()` seeding is not modelled: the seed is a parameter. The
  cataas.com URL format is not modelled: a URL is its seed.
- Exact floating-point values are not modelled. Numbers are reals, so the
  contracts state bounds and sign conditions, not rounded values.
- Hit testing (`e.target.closest(".card")`) is not modelled: the hit card
  is a field of each begin event.
- Drag feedback and a snap-back of an element that a restart has already
  detached are still reported as effects, although they are invisible
  (`FeedbackAfterRestart`). A fly-out always concerns the current top
  card (`FlyOutIsTopCard`).
