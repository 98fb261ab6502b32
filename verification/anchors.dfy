/**
 * `ConstraintLayout.LayoutParams.clearAllAnchors()` (common/ViewExtensions.kt):
 * before a fragment re-anchors a stream container for a new orientation it
 * detaches all eight constraint anchors and resets the match-constraint
 * settings, leaving size and margins to the caller.
 */
module Anchors {

  /** `ConstraintLayout.LayoutParams.UNSET`: no anchor. */
  const Unset: int := -1

  /** `ConstraintLayout.LayoutParams.MATCH_CONSTRAINT_SPREAD`. */
  const MatchConstraintSpread: int := 0

  /** The eight anchors a container can be constrained by; each holds a view id or `Unset`. */
  datatype AnchorSet = AnchorSet(
    startToStart: int, startToEnd: int, topToTop: int, topToBottom: int,
    endToEnd: int, endToStart: int, bottomToBottom: int, bottomToTop: int)
  {
    /** No anchor is attached to any view. */
    predicate Detached()
    {
      && startToStart == Unset && startToEnd == Unset && topToTop == Unset && topToBottom == Unset
      && endToEnd == Unset && endToStart == Unset && bottomToBottom == Unset && bottomToTop == Unset
    }
  }

  /** The fields of `ConstraintLayout.LayoutParams` the layouts touch. */
  datatype LayoutParams = LayoutParams(
    width: int, height: int,
    anchors: AnchorSet,
    matchConstraintPercentWidth: real, matchConstraintPercentHeight: real,
    matchConstraintDefaultWidth: int, matchConstraintDefaultHeight: int,
    marginStart: int, marginTop: int, marginEnd: int, marginBottom: int)

  /** `clearAllAnchors()`. */
  function ClearAllAnchors(p: LayoutParams): (r: LayoutParams)
    ensures r.anchors.Detached()
    ensures r.matchConstraintPercentWidth == 1.0 && r.matchConstraintPercentHeight == 1.0
    ensures r.matchConstraintDefaultWidth == MatchConstraintSpread
    ensures r.matchConstraintDefaultHeight == MatchConstraintSpread
    ensures r.width == p.width && r.height == p.height
    ensures r.marginStart == p.marginStart && r.marginTop == p.marginTop
    ensures r.marginEnd == p.marginEnd && r.marginBottom == p.marginBottom
  {
    p.(anchors := AnchorSet(Unset, Unset, Unset, Unset, Unset, Unset, Unset, Unset),
       matchConstraintPercentHeight := 1.0,
       matchConstraintPercentWidth := 1.0,
       matchConstraintDefaultHeight := MatchConstraintSpread,
       matchConstraintDefaultWidth := MatchConstraintSpread)
  }

  /** Size and margins: everything `clearAllAnchors` leaves to the caller. */
  predicate SameSizeAndMargins(p: LayoutParams, q: LayoutParams)
  {
    && p.width == q.width && p.height == q.height
    && p.marginStart == q.marginStart && p.marginTop == q.marginTop
    && p.marginEnd == q.marginEnd && p.marginBottom == q.marginBottom
  }

  /** The result forgets every previous anchor: params that agree on size and margins clear to the same params. */
  lemma ClearForgetsAnchors(p: LayoutParams, q: LayoutParams)
    ensures ClearAllAnchors(p) == ClearAllAnchors(q) <==> SameSizeAndMargins(p, q)
  {
  }

  /** Clearing twice is clearing once. */
  lemma ClearIdempotent(p: LayoutParams)
    ensures ClearAllAnchors(ClearAllAnchors(p)) == ClearAllAnchors(p)
  {
  }
}
