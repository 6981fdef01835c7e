/**
 * The drag session: the `drag` record and `startDrag`, `updateDrag`,
 * `clearDrag` and `finishDrag`. The transitions are first given as
 * functions on a Session value, then as the methods of the class
 * DragSession, which updates the record field by field.
 */
module Drag {
  import opened Options
  import opened Geometry
  import opened Decision
  import opened Cards

  /**
   * The `drag` record. `pointerId` is None for touch and mouse sessions;
   * `card` is the card element being dragged.
   */
  datatype Session = Session(
    active: bool,
    startX: real,
    startY: real,
    dx: real,
    dy: real,
    pointerId: Option<int>,
    card: Option<CardRef>)
  {
    /** A session is active exactly when it holds a card; an inactive one has no offset. */
    predicate Valid()
    {
      (active <==> card.Some?) &&
      (!active ==> dx == 0.0 && dy == 0.0 && pointerId.None?)
    }

    /** The fields `clearDrag` resets all have their reset values. */
    predicate Idle()
    {
      !active && card.None? && pointerId.None? && dx == 0.0 && dy == 0.0
    }
  }

  /** The record's initial value. */
  const INITIAL_SESSION := Session(false, 0.0, 0.0, 0.0, 0.0, None, None)

  /** The transform and stamp opacities `updateDrag` writes to the dragged card. */
  datatype Feedback = Feedback(tx: real, ty: real, rotation: real, stamps: Stamps)

  /** What `finishDrag` found: no card bound, or the card and its verdict. */
  datatype Release = Unbound | Released(card: CardRef, verdict: Verdict)

  /** `startDrag(x, y, card, pointerId)`: every field is overwritten. */
  function Begin(x: real, y: real, card: CardRef, pointerId: Option<int>): (t: Session)
    ensures t.Valid() && t.active
  {
    Session(true, x, y, 0.0, 0.0, pointerId, Some(card))
  }

  /** `updateDrag(x, y)`: no effect without a bound card. */
  function Moved(s: Session, x: real, y: real): (t: Session)
    ensures s.Valid() ==> t.Valid()
    ensures s.card.None? ==> t == s
    ensures t.active == s.active && t.card == s.card && t.pointerId == s.pointerId
    ensures t.startX == s.startX && t.startY == s.startY
  {
    if s.card.None? then s else s.(dx := x - s.startX, dy := y - s.startY)
  }

  /** The visual feedback of a session's current offset. */
  function FeedbackOf(s: Session): (fb: Feedback)
    ensures fb.tx == s.dx && fb.ty == s.dy
    ensures -ROTATE_MAX <= fb.rotation <= ROTATE_MAX
    ensures 0.0 <= fb.stamps.like <= 1.0 && 0.0 <= fb.stamps.nope <= 1.0
    ensures s.dx <= 0.0 ==> fb.stamps.like == 0.0
    ensures s.dx > 0.0 ==> fb.stamps.nope == 0.0
  {
    Feedback(s.dx, s.dy, Rotation(s.dx), StampOpacities(s.dx))
  }

  /** `clearDrag()`: the origin is left as it was. */
  function Cleared(s: Session): (t: Session)
    ensures t.Idle() && t.Valid()
    ensures t.startX == s.startX && t.startY == s.startY
  {
    s.(active := false, pointerId := None, card := None, dx := 0.0, dy := 0.0)
  }

  /** The decision `finishDrag` takes, from the offset read before clearing. */
  function ReleaseOf(s: Session): (r: Release)
    ensures r.Unbound? <==> s.card.None?
    ensures r.Released? ==> r.card == s.card.value && r.verdict == Classify(s.dx)
  {
    if s.card.None? then Unbound else Released(s.card.value, Classify(s.dx))
  }

  // ---------------------------------------------------------------------
  // Properties of a gesture

  /**
   * After `startDrag` at (x, y), `updateDrag(x', y')` gives the offset
   * (x' - x, y' - y) and keeps the card and pointer bound.
   */
  lemma BeginThenMove(x: real, y: real, card: CardRef, pointerId: Option<int>, x': real, y': real)
    ensures var t := Moved(Begin(x, y, card, pointerId), x', y');
      t.active && t.card == Some(card) && t.pointerId == pointerId &&
      t.dx == x' - x && t.dy == y' - y
  {
  }

  /** A pointer position. */
  datatype Point = Point(x: real, y: real)

  /** A session moved through `points` in order. */
  function MovedThrough(s: Session, points: seq<Point>): Session
    decreases |points|
  {
    if points == [] then s
    else MovedThrough(Moved(s, points[0].x, points[0].y), points[1..])
  }

  /**
   * Moving a bound session only ever depends on the last position: the
   * offset is measured from the origin, not accumulated.
   */
  lemma {:induction false} MovedThroughLast(s: Session, points: seq<Point>)
    requires s.card.Some?
    ensures var t := MovedThrough(s, points);
      t.card == s.card && t.active == s.active && t.pointerId == s.pointerId &&
      t.startX == s.startX && t.startY == s.startY &&
      (points == [] ==> t == s) &&
      (points != [] ==> t.dx == points[|points| - 1].x - s.startX &&
                        t.dy == points[|points| - 1].y - s.startY)
    decreases |points|
  {
    if points != [] {
      var s1 := Moved(s, points[0].x, points[0].y);
      MovedThroughLast(s1, points[1..]);
      if |points| > 1 {
        assert points[1..][|points| - 2] == points[|points| - 1];
      }
    }
  }

  /**
   * A whole gesture (begin at `origin`, moves, release) decides on the
   * horizontal distance from the origin to the last position (0 without
   * moves), and the session is idle afterwards whatever the decision.
   */
  lemma GestureDecision(origin: Point, card: CardRef, pointerId: Option<int>, points: seq<Point>)
    ensures var s := MovedThrough(Begin(origin.x, origin.y, card, pointerId), points);
      var dx := if points == [] then 0.0 else points[|points| - 1].x - origin.x;
      ReleaseOf(s) == Released(card, Classify(dx)) && Cleared(s).Idle()
  {
    MovedThroughLast(Begin(origin.x, origin.y, card, pointerId), points);
  }

  // ---------------------------------------------------------------------
  // The mutable `drag` record

  class DragSession {
    var active: bool
    var startX: real
    var startY: real
    var dx: real
    var dy: real
    var pointerId: Option<int>
    var card: Option<CardRef>

    function State(): Session
      reads this
    {
      Session(active, startX, startY, dx, dy, pointerId, card)
    }

    constructor ()
      ensures State() == INITIAL_SESSION
    {
      active, startX, startY, dx, dy := false, 0.0, 0.0, 0.0, 0.0;
      pointerId, card := None, None;
    }

    /** `startDrag`. */
    method StartDrag(x: real, y: real, c: CardRef, pid: Option<int>)
      modifies this
      ensures State() == Begin(x, y, c, pid)
    {
      active := true;
      startX := x;
      startY := y;
      dx := 0.0;
      dy := 0.0;
      pointerId := pid;
      card := Some(c);
    }

    /** `updateDrag`: returns the feedback written to the card, if one is bound. */
    method UpdateDrag(x: real, y: real) returns (fb: Option<Feedback>)
      modifies this
      ensures State() == Moved(old(State()), x, y)
      ensures fb == if old(card).None? then None else Some(FeedbackOf(State()))
    {
      if card.None? {
        fb := None;
        return;
      }
      dx := x - startX;
      dy := y - startY;
      var rotation := Clamp(dx / ROTATE_SPAN * ROTATE_MAX, -ROTATE_MAX, ROTATE_MAX);
      var fade := Clamp(Abs(dx) / SWIPE_THRESHOLD, 0.0, 1.0);
      var stamps := if dx > 0.0 then Stamps(fade, 0.0) else Stamps(0.0, fade);
      fb := Some(Feedback(dx, dy, rotation, stamps));
    }

    /** `clearDrag`. */
    method ClearDrag()
      modifies this
      ensures State() == Cleared(old(State()))
    {
      active := false;
      pointerId := None;
      card := None;
      dx := 0.0;
      dy := 0.0;
    }

    /**
     * `finishDrag` up to its decision: the offset is read, the session is
     * cleared, and only then is the verdict returned for acting on.
     */
    method FinishDrag() returns (r: Release)
      modifies this
      ensures State() == Cleared(old(State()))
      ensures r == ReleaseOf(old(State()))
    {
      var c := card;
      if c.None? {
        ClearDrag();
        return Unbound;
      }
      var finalDx := dx;
      ClearDrag();
      r := Released(c.value, Classify(finalDx));
    }
  }
}
