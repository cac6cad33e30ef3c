/**
 * `PieProgressView`: the state behind a pie-shaped progress indicator. Progress is kept
 * within [0, 1]; every change of a setting re-runs `invalidate`, which copies the
 * settings into the layers and decides whether the view is hidden. Colours, corner
 * radius and drawing are not part of the model.
 */
module PieProgress {

  function Min(a: real, b: real): real { if a <= b then a else b }
  function Max(a: real, b: real): real { if a >= b then a else b }

  /** The progress setter's `min(1, max(0, newValue))`. */
  function Clamp(v: real): (r: real)
    ensures 0.0 <= r <= 1.0
    ensures 0.0 <= v <= 1.0 ==> r == v
    ensures v < 0.0 ==> r == 0.0
    ensures v > 1.0 ==> r == 1.0
  {
    Min(1.0, Max(0.0, v))
  }

  /** When the view is hidden: empty and hiding when empty, or full and hiding when full. */
  predicate ShouldHide(hidesWhenMin: bool, hidesWhenMax: bool, progress: real)
  {
    (hidesWhenMin && progress == 0.0) || (hidesWhenMax && progress == 1.0)
  }

  class PieProgressView {
    var hidesWhenMax: bool
    var hidesWhenMin: bool
    var progress: real
    var strokeThickness: real
    var margin: real
    var isHidden: bool
    /** The view layer's border width and the progress layer's fields. */
    var borderWidth: real
    var layerProgress: real
    var layerMargin: real

    /** What `invalidate` establishes: the layers mirror the settings, visibility follows the rule. */
    ghost predicate Invalidated()
      reads this
    {
      && isHidden == ShouldHide(hidesWhenMin, hidesWhenMax, progress)
      && layerProgress == progress
      && layerMargin == margin
      && borderWidth == strokeThickness
    }

    ghost predicate Valid()
      reads this
    {
      0.0 <= progress <= 1.0 && Invalidated()
    }

    /**
     * `init(frame:)` and `init?(coder:)`: the stored properties take their initial values
     * (no `didSet` runs), then `commonInit` invalidates once. A fresh view is hidden.
     */
    constructor ()
      ensures Valid()
      ensures progress == 0.0 && hidesWhenMin && hidesWhenMax
      ensures strokeThickness == 2.0 && margin == 2.0
      ensures isHidden
    {
      hidesWhenMax := true;
      hidesWhenMin := true;
      progress := 0.0;
      strokeThickness := 2.0;
      margin := 2.0;
      new;
      Invalidate();
    }

    /** `invalidate()`, with its branches as written. */
    method Invalidate()
      modifies this
      ensures Invalidated()
      ensures hidesWhenMax == old(hidesWhenMax) && hidesWhenMin == old(hidesWhenMin)
      ensures progress == old(progress) && strokeThickness == old(strokeThickness) && margin == old(margin)
    {
      borderWidth := strokeThickness;
      layerProgress := progress;
      layerMargin := margin;
      if hidesWhenMin && progress == 0.0 {
        isHidden := progress == 0.0;
      } else if hidesWhenMax && progress == 1.0 {
        isHidden := progress == 1.0;
      } else {
        isHidden := false;
      }
    }

    method SetHidesWhenMax(b: bool)
      requires Valid()
      modifies this
      ensures Valid() && hidesWhenMax == b
      ensures hidesWhenMin == old(hidesWhenMin) && progress == old(progress)
      ensures strokeThickness == old(strokeThickness) && margin == old(margin)
    {
      hidesWhenMax := b;
      Invalidate();
    }

    method SetHidesWhenMin(b: bool)
      requires Valid()
      modifies this
      ensures Valid() && hidesWhenMin == b
      ensures hidesWhenMax == old(hidesWhenMax) && progress == old(progress)
      ensures strokeThickness == old(strokeThickness) && margin == old(margin)
    {
      hidesWhenMin := b;
      Invalidate();
    }

    /** The `progress` setter: stores the clamped value in `_progress`, whose `didSet` invalidates. */
    method SetProgress(v: real)
      requires Valid()
      modifies this
      ensures Valid() && progress == Clamp(v)
      ensures hidesWhenMax == old(hidesWhenMax) && hidesWhenMin == old(hidesWhenMin)
      ensures strokeThickness == old(strokeThickness) && margin == old(margin)
    {
      progress := Clamp(v);
      Invalidate();
    }

    method SetStrokeThickness(t: real)
      requires Valid()
      modifies this
      ensures Valid() && strokeThickness == t
      ensures hidesWhenMax == old(hidesWhenMax) && hidesWhenMin == old(hidesWhenMin)
      ensures progress == old(progress) && margin == old(margin)
    {
      strokeThickness := t;
      Invalidate();
    }

    method SetMargin(m: real)
      requires Valid()
      modifies this
      ensures Valid() && margin == m
      ensures hidesWhenMax == old(hidesWhenMax) && hidesWhenMin == old(hidesWhenMin)
      ensures progress == old(progress) && strokeThickness == old(strokeThickness)
    {
      margin := m;
      Invalidate();
    }
  }

  /**
   * After the progress is set to `v`, the view is hidden exactly when `v` is at or below
   * 0 with hiding at the minimum on, or at or above 1 with hiding at the maximum on.
   */
  lemma HiddenAfterSettingProgress(hidesWhenMin: bool, hidesWhenMax: bool, v: real)
    ensures ShouldHide(hidesWhenMin, hidesWhenMax, Clamp(v))
            <==> (hidesWhenMin && v <= 0.0) || (hidesWhenMax && v >= 1.0)
  {
  }

  /** A fresh view shows once progress moves strictly between 0 and 1, and hides again at 1. */
  method ProgressScenario(v: real) returns (hiddenAtStart: bool, hiddenBetween: bool, hiddenAtEnd: bool)
    requires 0.0 < v < 1.0
    ensures hiddenAtStart && !hiddenBetween && hiddenAtEnd
  {
    var view := new PieProgressView();
    hiddenAtStart := view.isHidden;
    view.SetProgress(v);
    hiddenBetween := view.isHidden;
    view.SetProgress(3.0);
    hiddenAtEnd := view.isHidden;
  }
}
