/**
 * The preview's controls: each turns a click or a slider move into a partial canvas state that
 * the page merges in. Reset, pan, zoom and the scale slider need a screenshot and a frame; the
 * background swatches are always live.
 */
module PreviewCanvas {
  import opened Wrappers
  import opened Canvas2D
  import opened CanvasUtils
  import opened UseCanvas
  import opened Home

  /** A pan slider value: whole pixels from -100 to 100. */
  type SliderOffset = x: int | -100 <= x <= 100

  /** A scale slider value, in tenths: 1 (0.1) to 30 (3.0), in steps of 0.1. */
  type ScaleTick = k: int | 1 <= k <= 30 witness 10

  /** The background swatches, in their order. */
  datatype Background = Gray | Blue | Purple

  /** The id a swatch writes into the state. */
  function BackgroundId(b: Background): (id: string)
    ensures id in {"gray", "blue", "purple"}
  {
    match b
    case Gray => "gray"
    case Blue => "blue"
    case Purple => "purple"
  }

  /** The three swatches name three distinct backgrounds, each drawn with its own colours. */
  lemma BackgroundIdsDistinct(b1: Background, b2: Background)
    ensures BackgroundId(b1) == BackgroundId(b2) <==> b1 == b2
    ensures GradientStops(BackgroundId(b1)) == GradientStops(BackgroundId(b2)) <==> b1 == b2
  {
  }

  /** The controls with a handler. (Zoom fit, the move button and the add-background button have none.) */
  datatype Control =
    | Reset
    | SlideX(x: SliderOffset)
    | SlideY(y: SliderOffset)
    | ZoomOut
    | SlideScale(tick: ScaleTick)
    | ZoomIn
    | PickBackground(background: Background)

  function Max(a: real, b: real): real
  {
    if a >= b then a else b
  }

  /** The zoom-out button: a tenth less, but never below 0.1. */
  function ZoomOutScale(scale: real): (r: real)
    ensures r >= 0.1
    ensures scale >= 0.2 ==> r == scale - 0.1
    ensures scale < 0.2 ==> r == 0.1
  {
    Max(0.1, scale - 0.1)
  }

  /** The zoom-in button: a tenth more, but never above 3. */
  function ZoomInScale(scale: real): (r: real)
    ensures r <= 3.0
    ensures scale <= 2.9 ==> r == scale + 0.1
    ensures scale > 2.9 ==> r == 3.0
  {
    Min(3.0, scale + 0.1)
  }

  /** A control can be used: every control but the swatches needs a screenshot and a frame. */
  predicate Enabled(s: CanvasState, c: Control)
  {
    c.PickBackground? || HasContent(s)
  }

  /**
   * What using a control on state `s` hands to the page: None when the control is disabled,
   * otherwise the fields it changes.
   */
  function ControlChanges(s: CanvasState, c: Control): (p: Option<Patch>)
    ensures p.Some? <==> Enabled(s, c)
    ensures p.Some? ==> p.value.image.None? && p.value.deviceFrame.None?
    ensures p.Some? && c.Reset? ==> p.value == NoChanges.(position := Some(Origin), scale := Some(1.0))
    ensures p.Some? && c.SlideX? ==> p.value == NoChanges.(position := Some(Position(c.x as real, s.position.y)))
    ensures p.Some? && c.SlideY? ==> p.value == NoChanges.(position := Some(Position(s.position.x, c.y as real)))
    ensures p.Some? && c.ZoomOut? ==> p.value == NoChanges.(scale := Some(ZoomOutScale(s.scale)))
    ensures p.Some? && c.ZoomIn? ==> p.value == NoChanges.(scale := Some(ZoomInScale(s.scale)))
    ensures p.Some? && c.SlideScale? ==> p.value == NoChanges.(scale := Some(c.tick as real / 10.0))
    ensures p.Some? && c.PickBackground? ==> p.value == NoChanges.(backgroundGradient := Some(BackgroundId(c.background)))
  {
    if !Enabled(s, c) then None
    else
      Some(match c
        case Reset => NoChanges.(position := Some(Origin), scale := Some(1.0))
        case SlideX(x) => NoChanges.(position := Some(Position(x as real, s.position.y)))
        case SlideY(y) => NoChanges.(position := Some(Position(s.position.x, y as real)))
        case ZoomOut => NoChanges.(scale := Some(ZoomOutScale(s.scale)))
        case SlideScale(tick) => NoChanges.(scale := Some(tick as real / 10.0))
        case ZoomIn => NoChanges.(scale := Some(ZoomInScale(s.scale)))
        case PickBackground(b) => NoChanges.(backgroundGradient := Some(BackgroundId(b))))
  }

  /** The state after using a control, as the page merges it in (unchanged when disabled). */
  function AfterControl(s: CanvasState, c: Control): (r: CanvasState)
    ensures !Enabled(s, c) ==> r == s
    ensures Enabled(s, c) ==> r == ApplyChanges(s, ControlChanges(s, c).value)
    ensures r.image == s.image && r.deviceFrame == s.deviceFrame
  {
    var p := ControlChanges(s, c);
    if p.Some? then ApplyChanges(s, p.value) else s
  }

  /** No control touches the screenshot or the frame, so the content stays as it was. */
  lemma ControlsKeepContent(s: CanvasState, c: Control)
    ensures AfterControl(s, c).image == s.image && AfterControl(s, c).deviceFrame == s.deviceFrame
    ensures HasContent(AfterControl(s, c)) == HasContent(s)
  {
  }

  /** Without a screenshot, only the background can change. */
  lemma NoContentOnlyBackground(s: CanvasState, c: Control)
    requires !HasContent(s)
    ensures AfterControl(s, c) == s.(backgroundGradient := AfterControl(s, c).backgroundGradient)
    ensures !c.PickBackground? ==> AfterControl(s, c) == s
  {
  }

  /** The X slider keeps y and the Y slider keeps x; neither touches the scale or the background. */
  lemma SlidersMoveOneAxis(s: CanvasState, c: Control)
    requires HasContent(s) && (c.SlideX? || c.SlideY?)
    ensures c.SlideX? ==> AfterControl(s, c).position == Position(c.x as real, s.position.y)
    ensures c.SlideY? ==> AfterControl(s, c).position == Position(s.position.x, c.y as real)
    ensures AfterControl(s, c).scale == s.scale && AfterControl(s, c).backgroundGradient == s.backgroundGradient
  {
  }

  /** Reset recentres the screenshot at scale 1 and keeps the background. */
  lemma ResetRecentres(s: CanvasState)
    requires HasContent(s)
    ensures AfterControl(s, Reset) == s.(position := Origin, scale := 1.0)
  {
  }

  /** Inside the slider ranges: both offsets within [-100, 100] and the scale within [0.1, 3]. */
  predicate InSliderRange(s: CanvasState)
  {
    -100.0 <= s.position.x <= 100.0 && -100.0 <= s.position.y <= 100.0 && 0.1 <= s.scale <= 3.0
  }

  /** Every control keeps a state that is inside the slider ranges inside them. */
  lemma ControlsKeepSliderRange(s: CanvasState, c: Control)
    requires InSliderRange(s)
    ensures InSliderRange(AfterControl(s, c))
  {
    if HasContent(s) {
      match c
      case ZoomOut => assert AfterControl(s, c).scale == ZoomOutScale(s.scale);
      case ZoomIn => assert AfterControl(s, c).scale == ZoomInScale(s.scale);
      case SlideScale(tick) => assert AfterControl(s, c).scale == tick as real / 10.0;
      case _ =>
    }
  }

  /** Zooming in and then out from within [0.1, 2.9] comes back to the same scale. */
  lemma ZoomInThenOut(s: CanvasState)
    requires HasContent(s) && 0.1 <= s.scale <= 2.9
    ensures AfterControl(AfterControl(s, ZoomIn), ZoomOut) == s
  {
    var s1 := AfterControl(s, ZoomIn);
    assert s1 == s.(scale := s.scale + 0.1);
    assert HasContent(s1);
    assert AfterControl(s1, ZoomOut) == s1.(scale := s.scale);
  }

  /**
   * The fit after an upload is not held to the slider range: a 10 by 10 screenshot on the
   * default frame gets scale 28.4, and zoom-in then drops it to 3. A 10000 by 10000 one gets
   * 0.0284, and zoom-out then enlarges it to 0.1.
   */
  lemma AutoFitLeavesSliderRange()
    ensures var s := WithUploadedImage(InitialState(), Image(10, 10), InitialState().deviceFrame);
      s.scale == 28.4 && !InSliderRange(s) && AfterControl(s, ZoomIn).scale == 3.0
    ensures var s := WithUploadedImage(InitialState(), Image(10000, 10000), InitialState().deviceFrame);
      s.scale == 0.0284 && AfterControl(s, ZoomOut).scale == 0.1 > s.scale
  {
    var s := WithUploadedImage(InitialState(), Image(10, 10), InitialState().deviceFrame);
    assert s.scale == FitImageToArea(10.0, 10.0, 284.0, 584.0).scale;
    assert HasContent(s);
    var t := WithUploadedImage(InitialState(), Image(10000, 10000), InitialState().deviceFrame);
    assert t.scale == FitImageToArea(10000.0, 10000.0, 284.0, 584.0).scale;
    assert HasContent(t);
  }
}
