/**
 * The release decision of `finishDrag`: the final horizontal offset is
 * classified against SWIPE_THRESHOLD with strict inequalities.
 */
module Decision {
  import opened Geometry

  /** The two swipe actions, `"like"` and `"dislike"`. */
  datatype Action = Like | Dislike

  /** Outcome of a release: a committed swipe or a snap back. */
  datatype Verdict = Commit(action: Action) | Cancel

  function Opposite(a: Action): Action
  {
    match a
    case Like => Dislike
    case Dislike => Like
  }

  function Classify(dx: real): (v: Verdict)
    ensures v == Commit(Like) <==> dx > SWIPE_THRESHOLD
    ensures v == Commit(Dislike) <==> dx < -SWIPE_THRESHOLD
    ensures v == Cancel <==> -SWIPE_THRESHOLD <= dx <= SWIPE_THRESHOLD
  {
    if dx > SWIPE_THRESHOLD then Commit(Like)
    else if dx < -SWIPE_THRESHOLD then Commit(Dislike)
    else Cancel
  }

  /** Mirroring a release mirrors its classification. */
  lemma ClassifyMirror(dx: real)
    ensures Classify(-dx) == match Classify(dx)
                             case Commit(a) => Commit(Opposite(a))
                             case Cancel => Cancel
  {
  }

  /**
   * A committed release was preceded by a drag that showed the matching
   * stamp fully opaque and the other one hidden.
   */
  lemma CommitShowsFullStamp(dx: real)
    requires Classify(dx).Commit?
    ensures Classify(dx).action == Like ==> StampOpacities(dx) == Stamps(1.0, 0.0)
    ensures Classify(dx).action == Dislike ==> StampOpacities(dx) == Stamps(0.0, 1.0)
  {
  }

  /** Rotation used by the fly-out animation of `swipe` (app.js:309). */
  function FlyOutRotation(a: Action): (r: real)
    ensures (r > 0.0) == (a == Like) && Abs(r) == 18.0
  {
    if a == Like then 18.0 else -18.0
  }
}
