/**
 * Pure numeric helpers of the swipe deck: `clamp`, the drag feedback
 * (rotation angle and the two stamp opacities) and the resting stack pose
 * that `makeCard` and `snapBack` give a card.
 *
 * JavaScript numbers are modelled as mathematical reals: the model states
 * bounds and sign conditions, not rounded floating-point values.
 */
module Geometry {

  /** Horizontal displacement beyond which a release commits (app.js:13). */
  const SWIPE_THRESHOLD: real := 120.0
  /** Largest rotation, in degrees, applied while dragging (app.js:14). */
  const ROTATE_MAX: real := 14.0
  /** Displacement at which the drag rotation reaches ROTATE_MAX (app.js:255). */
  const ROTATE_SPAN: real := 300.0

  function Min(a: real, b: real): real { if a <= b then a else b }

  function Max(a: real, b: real): real { if a >= b then a else b }

  function Abs(a: real): (r: real)
    ensures r >= 0.0 && (r == a || r == -a)
  {
    if a < 0.0 then -a else a
  }

  /** `clamp(n, min, max)`, that is `Math.max(min, Math.min(max, n))`. */
  function Clamp(n: real, lo: real, hi: real): (r: real)
    ensures lo <= hi ==> lo <= r <= hi
    ensures lo <= n <= hi ==> r == n
    ensures n < lo ==> r == lo
    ensures lo <= hi < n ==> r == hi
    ensures hi < lo ==> r == lo
  {
    Max(lo, Min(hi, n))
  }

  /** Rotation of the dragged card for a horizontal offset `dx`. */
  function Rotation(dx: real): (r: real)
    ensures -ROTATE_MAX <= r <= ROTATE_MAX
    ensures r > 0.0 <==> dx > 0.0
    ensures r < 0.0 <==> dx < 0.0
    ensures Abs(dx) >= ROTATE_SPAN ==> Abs(r) == ROTATE_MAX
  {
    Clamp(dx / ROTATE_SPAN * ROTATE_MAX, -ROTATE_MAX, ROTATE_MAX)
  }

  /** The rotation is odd in the offset: dragging left mirrors dragging right. */
  lemma RotationMirror(dx: real)
    ensures Rotation(-dx) == -Rotation(dx)
  {
  }

  /** The rotation never decreases as the card moves further right. */
  lemma RotationMonotone(dx1: real, dx2: real)
    requires dx1 <= dx2
    ensures Rotation(dx1) <= Rotation(dx2)
  {
  }

  /** Opacity ratio of the active stamp: `clamp(|dx| / SWIPE_THRESHOLD, 0, 1)`. */
  function Fade(dx: real): (r: real)
    ensures 0.0 <= r <= 1.0
    ensures r == 1.0 <==> Abs(dx) >= SWIPE_THRESHOLD
    ensures r == 0.0 <==> dx == 0.0
  {
    Clamp(Abs(dx) / SWIPE_THRESHOLD, 0.0, 1.0)
  }

  /** Opacities of the "LIKE" and "NOPE" stamps of one card. */
  datatype Stamps = Stamps(like: real, nope: real)

  const HIDDEN_STAMPS := Stamps(0.0, 0.0)

  /** The stamp opacities written while dragging with horizontal offset `dx`. */
  function StampOpacities(dx: real): (s: Stamps)
    ensures dx > 0.0 ==> s.like == Fade(dx) && s.nope == 0.0
    ensures dx <= 0.0 ==> s.like == 0.0 && s.nope == Fade(dx)
    ensures 0.0 <= s.like <= 1.0 && 0.0 <= s.nope <= 1.0
    ensures s.like == 0.0 || s.nope == 0.0
  {
    if dx > 0.0 then Stamps(Fade(dx), 0.0) else Stamps(0.0, Fade(dx))
  }

  /**
   * Depth of the card with `data-index` `index` in a deck of `deckSize`
   * cards. It counts from the LAST card of the deck, so the card at index 0,
   * the first one to be swiped, is the deepest.
   */
  function Depth(deckSize: int, index: int): int
  {
    deckSize - 1 - index
  }

  /** Resting vertical offset `Math.min(10, depth * 3)`. */
  function RestingOffsetY(depth: int): (r: int)
    ensures r <= 10
    ensures depth >= 0 ==> 0 <= r
    ensures depth >= 4 ==> r == 10
    ensures depth <= 3 ==> r == 3 * depth
  {
    if 10 <= depth * 3 then 10 else depth * 3
  }

  /** Resting scale `1 - Math.min(0.06, depth * 0.01)`. */
  function RestingScale(depth: int): (r: real)
    ensures r >= 0.94
    ensures depth >= 0 ==> r <= 1.0
    ensures depth >= 6 ==> r == 0.94
  {
    1.0 - Min(0.06, depth as real * 0.01)
  }

  /** The resting transform of a card: `translateY(offsetY) scale(scale)`. */
  datatype Pose = Pose(offsetY: int, scale: real)

  function RestingPose(deckSize: int, index: int): (p: Pose)
    ensures 0 <= index < deckSize ==> 0 <= p.offsetY <= 10 && 0.94 <= p.scale <= 1.0
  {
    var depth := Depth(deckSize, index);
    Pose(RestingOffsetY(depth), RestingScale(depth))
  }

  /**
   * Cards later in the deck rest higher and larger: a card with a larger
   * index never has a larger offset nor a smaller scale.
   */
  lemma RestingPoseMonotone(deckSize: int, i: int, j: int)
    requires 0 <= i <= j < deckSize
    ensures RestingPose(deckSize, j).offsetY <= RestingPose(deckSize, i).offsetY
    ensures RestingPose(deckSize, j).scale >= RestingPose(deckSize, i).scale
  {
  }
}
