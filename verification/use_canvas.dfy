/**
 * The editor's canvas state and the compositor that draws a device mockup from it:
 * background gradient, frame, clipped white screen, the screenshot, the home indicator.
 */
module UseCanvas {
  import opened Wrappers
  import opened Canvas2D
  import opened CanvasUtils
  import opened DeviceFrames

  /** The pan offset of the screenshot from the centre of the screen. */
  datatype Position = Position(x: real, y: real)

  const Origin := Position(0.0, 0.0)

  /** Everything the preview is drawn from. */
  datatype CanvasState = CanvasState(
    image: Option<Image>,
    deviceFrame: Option<DeviceFrame>,
    position: Position,
    scale: real,
    backgroundGradient: string)

  /** A partial canvas state: the fields that are Some are the ones supplied. */
  datatype Patch = Patch(
    image: Option<Option<Image>>,
    deviceFrame: Option<Option<DeviceFrame>>,
    position: Option<Position>,
    scale: Option<real>,
    backgroundGradient: Option<string>)

  /** The patch that supplies nothing. */
  const NoChanges := Patch(None, None, None, None, None)

  /** There is something to show: an image and a frame. */
  predicate HasContent(s: CanvasState)
  {
    s.image.Some? && s.deviceFrame.Some?
  }

  /** The border left around the frame on every side. */
  const Padding: int := 40

  const ScreenColor := "#ffffff"
  const IndicatorColor := "rgba(255, 255, 255, 0.8)"

  /** The two colour stops of a background; an unknown id gets the gray ones. */
  function GradientStops(backgroundGradient: string): (stops: (string, string))
    ensures backgroundGradient == "blue" ==> stops == ("#60a5fa", "#2563eb")
    ensures backgroundGradient == "purple" ==> stops == ("#a78bfa", "#ec4899")
    ensures backgroundGradient !in {"blue", "purple"} ==> stops == ("#f3f4f6", "#d1d5db")
  {
    if backgroundGradient == "gray" then ("#f3f4f6", "#d1d5db")
    else if backgroundGradient == "blue" then ("#60a5fa", "#2563eb")
    else if backgroundGradient == "purple" then ("#a78bfa", "#ec4899")
    else ("#f3f4f6", "#d1d5db")
  }

  /** An unrecognised background id is drawn as the gray one. */
  lemma UnknownBackgroundIsGray(backgroundGradient: string)
    requires backgroundGradient !in {"gray", "blue", "purple"}
    ensures GradientStops(backgroundGradient) == GradientStops("gray")
  {
  }

  function CanvasWidth(f: DeviceFrame): int
  {
    f.dimensions.width + Padding * 2
  }

  function CanvasHeight(f: DeviceFrame): int
  {
    f.dimensions.height + Padding * 2
  }

  /** The outer shape of the frame, in frame coordinates. */
  function FrameShape(f: DeviceFrame): RoundRect
  {
    RoundRect(0.0, 0.0, f.dimensions.width as real, f.dimensions.height as real, f.cornerRadius as real)
  }

  /** The screen clip, whose corners are 4 pixels tighter than the frame's. */
  function ScreenShape(f: DeviceFrame): RoundRect
  {
    var s := f.screenArea;
    RoundRect(s.x as real, s.y as real, s.width as real, s.height as real, (f.cornerRadius - 4) as real)
  }

  /** The home indicator pill: a rounded rectangle whose radius is half its height. */
  function IndicatorShape(r: Rect): RoundRect
  {
    RoundRect(r.x as real, r.y as real, r.width as real, r.height as real, r.height as real / 2.0)
  }

  /** Where and how large the screenshot is drawn, in frame coordinates. */
  datatype Placement = Placement(x: real, y: real, width: real, height: real)

  /**
   * The screenshot is drawn at its natural size times `scale`, centred on the centre of the
   * screen moved by the pan offset.
   */
  function ImagePlacement(f: DeviceFrame, image: Image, position: Position, scale: real): (p: Placement)
    ensures p.width == image.width as real * scale && p.height == image.height as real * scale
    ensures p.x + p.width / 2.0 == f.screenArea.x as real + f.screenArea.width as real / 2.0 + position.x
    ensures p.y + p.height / 2.0 == f.screenArea.y as real + f.screenArea.height as real / 2.0 + position.y
  {
    var screenCenterX := f.screenArea.x as real + f.screenArea.width as real / 2.0;
    var screenCenterY := f.screenArea.y as real + f.screenArea.height as real / 2.0;
    var scaledWidth := image.width as real * scale;
    var scaledHeight := image.height as real * scale;
    Placement(screenCenterX + position.x - scaledWidth / 2.0, screenCenterY + position.y - scaledHeight / 2.0,
      scaledWidth, scaledHeight)
  }

  // ---------------------------------------------------------------------------
  // The calls drawMockup makes, section by section.

  /** Size the canvas, clear it and fill it with the background gradient. */
  function BackgroundCmds(f: DeviceFrame, backgroundGradient: string): seq<Cmd>
  {
    var w, h := CanvasWidth(f) as real, CanvasHeight(f) as real;
    var stops := GradientStops(backgroundGradient);
    [SetSize(CanvasWidth(f), CanvasHeight(f)), ClearRect(0.0, 0.0, w, h),
     SetFillGradient(0.0, 0.0, w, h, stops.0, stops.1), FillRect(0.0, 0.0, w, h)]
  }

  /** Save, move into frame coordinates and fill the frame's rounded outline. */
  function FrameCmds(f: DeviceFrame): seq<Cmd>
  {
    [Save, Translate(Padding as real, Padding as real), SetFillColor(f.frameColor)]
      + RoundedRectPath(FrameShape(f)) + [Fill]
  }

  /** Save, clip to the screen's rounded outline and fill it white. */
  function ScreenCmds(f: DeviceFrame): seq<Cmd>
  {
    [Save] + RoundedRectPath(ScreenShape(f)) + [Clip, SetFillColor(ScreenColor), Fill]
  }

  /** Draw the screenshot, if there is one. */
  function ImageCmds(f: DeviceFrame, image: Option<Image>, position: Position, scale: real): seq<Cmd>
  {
    if image.Some? then
      var p := ImagePlacement(f, image.value, position, scale);
      [DrawImage(image.value, p.x, p.y, p.width, p.height)]
    else []
  }

  /** Fill the home indicator pill, if the frame has one. */
  function IndicatorCmds(f: DeviceFrame): seq<Cmd>
  {
    if f.homeIndicator.Some? then
      [SetFillColor(IndicatorColor)] + RoundedRectPath(IndicatorShape(f.homeIndicator.value)) + [Fill]
    else []
  }

  /** Every call drawMockup makes for a frame, in order. */
  function MockupCommands(f: DeviceFrame, image: Option<Image>, position: Position, scale: real,
                          backgroundGradient: string): (cmds: seq<Cmd>)
    ensures |cmds| > 0 && cmds[0] == SetSize(CanvasWidth(f), CanvasHeight(f)) && cmds[|cmds| - 1] == Restore
  {
    (BackgroundCmds(f, backgroundGradient) + FrameCmds(f) + ScreenCmds(f))
      + (ImageCmds(f, image, position, scale) + [Restore] + IndicatorCmds(f) + [Restore])
  }

  /**
   * drawMockup: does nothing without a canvas, a frame or a 2D context; otherwise sizes the
   * canvas to the frame plus the padding on every side and makes the mockup's calls.
   */
  method DrawMockup(canvas: Canvas?, state: CanvasState)
    modifies canvas
    ensures canvas != null && (state.deviceFrame.None? || !canvas.hasContext2D) ==> unchanged(canvas)
    ensures canvas != null && state.deviceFrame.Some? && canvas.hasContext2D ==>
      var f := state.deviceFrame.value;
      && canvas.width == f.dimensions.width + 2 * Padding
      && canvas.height == f.dimensions.height + 2 * Padding
      && canvas.log == old(canvas.log)
           + MockupCommands(f, state.image, state.position, state.scale, state.backgroundGradient)
  {
    if canvas == null || state.deviceFrame.None? {
      return;
    }
    if !canvas.hasContext2D {
      return;
    }
    var deviceFrame := state.deviceFrame.value;
    ghost var start := canvas.log;
    ghost var bg := BackgroundCmds(deviceFrame, state.backgroundGradient);
    ghost var fr := FrameCmds(deviceFrame);
    ghost var sc := ScreenCmds(deviceFrame);
    ghost var im := ImageCmds(deviceFrame, state.image, state.position, state.scale);
    ghost var ind := IndicatorCmds(deviceFrame);
    DrawBackground(canvas, deviceFrame, state.backgroundGradient);
    DrawFrame(canvas, deviceFrame);
    DrawScreen(canvas, deviceFrame, state.image, state.position, state.scale);
    canvas.Issue(Restore);
    DrawHomeIndicator(canvas, deviceFrame);
    canvas.Issue(Restore);
    assert canvas.log == start + bg + fr + sc + im + [Restore] + ind + [Restore];
    AppendSections(start, bg, fr, sc, im, ind);
  }

  /** Appending the sections one by one is appending the whole mockup at once. */
  lemma AppendSections(start: seq<Cmd>, bg: seq<Cmd>, fr: seq<Cmd>, sc: seq<Cmd>, im: seq<Cmd>, ind: seq<Cmd>)
    ensures start + bg + fr + sc + im + [Restore] + ind + [Restore]
      == start + ((bg + fr + sc) + (im + [Restore] + ind + [Restore]))
  {
  }

  /** Sizes the canvas to the frame plus padding, clears it and fills the background gradient. */
  method DrawBackground(canvas: Canvas, deviceFrame: DeviceFrame, backgroundGradient: string)
    modifies canvas
    ensures canvas.width == CanvasWidth(deviceFrame) && canvas.height == CanvasHeight(deviceFrame)
    ensures canvas.log == old(canvas.log) + BackgroundCmds(deviceFrame, backgroundGradient)
  {
    var padding := Padding;
    canvas.Resize(deviceFrame.dimensions.width + padding * 2, deviceFrame.dimensions.height + padding * 2);
    canvas.Issue(ClearRect(0.0, 0.0, canvas.width as real, canvas.height as real));
    var stop0, stop1;
    if backgroundGradient == "gray" {
      stop0, stop1 := "#f3f4f6", "#d1d5db";
    } else if backgroundGradient == "blue" {
      stop0, stop1 := "#60a5fa", "#2563eb";
    } else if backgroundGradient == "purple" {
      stop0, stop1 := "#a78bfa", "#ec4899";
    } else {
      stop0, stop1 := "#f3f4f6", "#d1d5db";
    }
    canvas.Issue(SetFillGradient(0.0, 0.0, canvas.width as real, canvas.height as real, stop0, stop1));
    canvas.Issue(FillRect(0.0, 0.0, canvas.width as real, canvas.height as real));
  }

  /** Saves the context, moves to the frame's corner and fills the frame's rounded outline. */
  method DrawFrame(canvas: Canvas, deviceFrame: DeviceFrame)
    modifies canvas`log
    ensures canvas.log == old(canvas.log) + FrameCmds(deviceFrame)
  {
    var frameX, frameY := Padding, Padding;
    canvas.Issue(Save);
    canvas.Issue(Translate(frameX as real, frameY as real));
    canvas.Issue(SetFillColor(deviceFrame.frameColor));
    DrawRoundedRect(canvas, 0.0, 0.0, deviceFrame.dimensions.width as real, deviceFrame.dimensions.height as real,
      deviceFrame.cornerRadius as real);
    canvas.Issue(Fill);
  }

  /** Saves the context, clips to the screen, fills it white and draws the screenshot into it. */
  method DrawScreen(canvas: Canvas, deviceFrame: DeviceFrame, image: Option<Image>, position: Position, scale: real)
    modifies canvas`log
    ensures canvas.log == old(canvas.log) + ScreenCmds(deviceFrame) + ImageCmds(deviceFrame, image, position, scale)
  {
    var screen := deviceFrame.screenArea;
    canvas.Issue(Save);
    DrawRoundedRect(canvas, screen.x as real, screen.y as real, screen.width as real, screen.height as real,
      (deviceFrame.cornerRadius - 4) as real);
    canvas.Issue(Clip);
    canvas.Issue(SetFillColor(ScreenColor));
    canvas.Issue(Fill);
    assert canvas.log == old(canvas.log) + ScreenCmds(deviceFrame);
    if image.Some? {
      var img := image.value;
      var screenCenterX := screen.x as real + screen.width as real / 2.0;
      var screenCenterY := screen.y as real + screen.height as real / 2.0;
      var scaledWidth := img.width as real * scale;
      var scaledHeight := img.height as real * scale;
      var placed := DrawImage(img, screenCenterX + position.x - scaledWidth / 2.0,
        screenCenterY + position.y - scaledHeight / 2.0, scaledWidth, scaledHeight);
      var p := ImagePlacement(deviceFrame, img, position, scale);
      assert p.width == scaledWidth && p.height == scaledHeight;
      assert p == Placement(screenCenterX + position.x - scaledWidth / 2.0,
        screenCenterY + position.y - scaledHeight / 2.0, scaledWidth, scaledHeight);
      assert ImageCmds(deviceFrame, image, position, scale) == [placed];
      canvas.Issue(placed);
    } else {
      assert ImageCmds(deviceFrame, image, position, scale) == [];
    }
  }

  /** Fills the home indicator pill, if the frame has one. */
  method DrawHomeIndicator(canvas: Canvas, deviceFrame: DeviceFrame)
    modifies canvas`log
    ensures canvas.log == old(canvas.log) + IndicatorCmds(deviceFrame)
  {
    if deviceFrame.homeIndicator.Some? {
      var indicator := deviceFrame.homeIndicator.value;
      canvas.Issue(SetFillColor(IndicatorColor));
      DrawRoundedRect(canvas, indicator.x as real, indicator.y as real, indicator.width as real,
        indicator.height as real, indicator.height as real / 2.0);
      canvas.Issue(Fill);
    }
  }

  // ---------------------------------------------------------------------------
  // What the calls paint (in canvas coordinates) and what they leave behind.

  /** A frame-local shape moved into canvas coordinates. */
  function OnCanvas(rr: RoundRect): RoundRect
  {
    Shifted(rr, Padding as real, Padding as real)
  }

  /** The background gradient of a frame's canvas. */
  function Backdrop(f: DeviceFrame, backgroundGradient: string): Style
  {
    var stops := GradientStops(backgroundGradient);
    LinearGradient(0.0, 0.0, CanvasWidth(f) as real, CanvasHeight(f) as real, stops.0, stops.1)
  }

  /**
   * The mockup as painted: the cleared canvas, the gradient over all of it, the frame, the
   * white screen clipped to itself, the screenshot clipped to the screen and centred on it
   * plus the pan offset, and the home indicator with no clip. The notch and the dynamic island
   * are never painted.
   */
  function Scene(f: DeviceFrame, image: Option<Image>, position: Position, scale: real,
                 backgroundGradient: string): seq<Paint>
  {
    SceneBackdropFrameScreen(f, backgroundGradient) + SceneImage(f, image, position, scale) + SceneIndicator(f)
  }

  /** The cleared canvas, the gradient over all of it, the frame and the white screen clipped to itself. */
  function SceneBackdropFrameScreen(f: DeviceFrame, backgroundGradient: string): seq<Paint>
  {
    var w, h := CanvasWidth(f) as real, CanvasHeight(f) as real;
    var screen := Outline(OnCanvas(ScreenShape(f)));
    [ Cleared(0.0, 0.0, w, h),
      Cleared(0.0, 0.0, w, h),
      FilledRect(Backdrop(f, backgroundGradient), 0.0, 0.0, w, h, []),
      FilledPath(Color(f.frameColor), Outline(OnCanvas(FrameShape(f))), []),
      FilledPath(Color(ScreenColor), screen, [screen]) ]
  }

  /** The screenshot at its placement moved by the padding, clipped to the screen. */
  function SceneImage(f: DeviceFrame, image: Option<Image>, position: Position, scale: real): seq<Paint>
  {
    if image.Some? then
      var p := ImagePlacement(f, image.value, position, scale);
      [DrewImage(image.value, p.x + Padding as real, p.y + Padding as real, p.width, p.height,
                 [Outline(OnCanvas(ScreenShape(f)))])]
    else []
  }

  /** The home indicator, unclipped. */
  function SceneIndicator(f: DeviceFrame): seq<Paint>
  {
    if f.homeIndicator.Some? then
      [FilledPath(Color(IndicatorColor), Outline(OnCanvas(IndicatorShape(f.homeIndicator.value))), [])]
    else []
  }

  lemma ExecBackgroundCmds(g: GState, f: DeviceFrame, backgroundGradient: string)
    ensures var w, h := CanvasWidth(f) as real, CanvasHeight(f) as real;
      Exec(g, BackgroundCmds(f, backgroundGradient))
        == (Fresh.(fill := Backdrop(f, backgroundGradient)),
            [Cleared(0.0, 0.0, w, h), Cleared(0.0, 0.0, w, h),
             FilledRect(Backdrop(f, backgroundGradient), 0.0, 0.0, w, h, [])])
  {
    var cmds := BackgroundCmds(f, backgroundGradient);
    var s1 := Step(g, cmds[0]).0;
    var s2 := Step(s1, cmds[1]).0;
    var s3 := Step(s2, cmds[2]).0;
    ExecSingle(g, cmds[0]);
    ExecSingle(s1, cmds[1]);
    ExecSingle(s2, cmds[2]);
    ExecSingle(s3, cmds[3]);
    ExecThen(g, [cmds[0]], [cmds[1]], s1, Step(g, cmds[0]).1, s2, Step(s1, cmds[1]).1);
    ExecThen(g, [cmds[0]] + [cmds[1]], [cmds[2]], s2, Step(g, cmds[0]).1 + Step(s1, cmds[1]).1, s3, []);
    ExecThen(g, [cmds[0]] + [cmds[1]] + [cmds[2]], [cmds[3]], s3,
      Step(g, cmds[0]).1 + Step(s1, cmds[1]).1 + [], s3, Step(s3, cmds[3]).1);
    assert cmds == [cmds[0]] + [cmds[1]] + [cmds[2]] + [cmds[3]];
    var w, h := CanvasWidth(f) as real, CanvasHeight(f) as real;
    assert s3 == Fresh.(fill := Backdrop(f, backgroundGradient));
    assert Step(g, cmds[0]).1 + Step(s1, cmds[1]).1 + [] + Step(s3, cmds[3]).1
      == [Cleared(0.0, 0.0, w, h), Cleared(0.0, 0.0, w, h), FilledRect(Backdrop(f, backgroundGradient), 0.0, 0.0, w, h, [])];
  }

  lemma ExecFrameCmds(g: GState, f: DeviceFrame)
    ensures var moved := g.(saved := g.saved + [Saved(g.tx, g.ty, g.fill, g.clip)],
                            tx := g.tx + Padding as real, ty := g.ty + Padding as real,
                            fill := Color(f.frameColor));
      var outline := Outline(Shifted(FrameShape(f), moved.tx, moved.ty));
      Exec(g, FrameCmds(f)) == (moved.(path := outline), [FilledPath(Color(f.frameColor), outline, g.clip)])
  {
    var c0, c1, c2 := Save, Translate(Padding as real, Padding as real), SetFillColor(f.frameColor);
    var s1 := Step(g, c0).0;
    var s2 := Step(s1, c1).0;
    var s3 := Step(s2, c2).0;
    var outline := Outline(Shifted(FrameShape(f), s3.tx, s3.ty));
    var s4 := s3.(path := outline);
    ExecSingle(g, c0);
    ExecSingle(s1, c1);
    ExecSingle(s2, c2);
    ExecThen(g, [c0], [c1], s1, [], s2, []);
    ExecThen(g, [c0] + [c1], [c2], s2, [] + [], s3, []);
    ExecRoundedRectPath(s3, FrameShape(f));
    ExecThen(g, [c0] + [c1] + [c2], RoundedRectPath(FrameShape(f)), s3, [] + [] + [], s4, []);
    ExecSingle(s4, Fill);
    ExecThen(g, [c0] + [c1] + [c2] + RoundedRectPath(FrameShape(f)), [Fill], s4, [] + [] + [] + [], s4,
      [FilledPath(Color(f.frameColor), outline, g.clip)]);
    assert FrameCmds(f) == [c0] + [c1] + [c2] + RoundedRectPath(FrameShape(f)) + [Fill];
    assert [] + [] + [] + [] + [FilledPath(Color(f.frameColor), outline, g.clip)]
      == [FilledPath(Color(f.frameColor), outline, g.clip)];
  }

  lemma ExecScreenCmds(g: GState, f: DeviceFrame)
    ensures var outline := Outline(Shifted(ScreenShape(f), g.tx, g.ty));
      Exec(g, ScreenCmds(f))
        == (g.(saved := g.saved + [Saved(g.tx, g.ty, g.fill, g.clip)], path := outline,
               clip := g.clip + [outline], fill := Color(ScreenColor)),
            [FilledPath(Color(ScreenColor), outline, g.clip + [outline])])
  {
    var outline := Outline(Shifted(ScreenShape(f), g.tx, g.ty));
    var s1 := Step(g, Save).0;
    var s2 := s1.(path := outline);
    var s3 := Step(s2, Clip).0;
    var s4 := Step(s3, SetFillColor(ScreenColor)).0;
    ExecSingle(g, Save);
    ExecRoundedRectPath(s1, ScreenShape(f));
    ExecThen(g, [Save], RoundedRectPath(ScreenShape(f)), s1, [], s2, []);
    ExecSingle(s2, Clip);
    ExecThen(g, [Save] + RoundedRectPath(ScreenShape(f)), [Clip], s2, [] + [], s3, []);
    ExecSingle(s3, SetFillColor(ScreenColor));
    ExecThen(g, [Save] + RoundedRectPath(ScreenShape(f)) + [Clip], [SetFillColor(ScreenColor)], s3,
      [] + [] + [], s4, []);
    ExecSingle(s4, Fill);
    ExecThen(g, [Save] + RoundedRectPath(ScreenShape(f)) + [Clip] + [SetFillColor(ScreenColor)], [Fill], s4,
      [] + [] + [] + [], s4, [FilledPath(Color(ScreenColor), outline, g.clip + [outline])]);
    assert ScreenCmds(f) == [Save] + RoundedRectPath(ScreenShape(f)) + [Clip] + [SetFillColor(ScreenColor)] + [Fill];
    assert [] + [] + [] + [] + [FilledPath(Color(ScreenColor), outline, g.clip + [outline])]
      == [FilledPath(Color(ScreenColor), outline, g.clip + [outline])];
  }

  lemma ExecIndicatorCmds(g: GState, f: DeviceFrame)
    ensures f.homeIndicator.None? ==> Exec(g, IndicatorCmds(f)) == (g, [])
    ensures f.homeIndicator.Some? ==>
      var outline := Outline(Shifted(IndicatorShape(f.homeIndicator.value), g.tx, g.ty));
      Exec(g, IndicatorCmds(f))
        == (g.(fill := Color(IndicatorColor), path := outline),
            [FilledPath(Color(IndicatorColor), outline, g.clip)])
  {
    if f.homeIndicator.Some? {
      var shape := IndicatorShape(f.homeIndicator.value);
      var outline := Outline(Shifted(shape, g.tx, g.ty));
      var s1 := g.(fill := Color(IndicatorColor));
      var s2 := s1.(path := outline);
      ExecSingle(g, SetFillColor(IndicatorColor));
      ExecRoundedRectPath(s1, shape);
      ExecThen(g, [SetFillColor(IndicatorColor)], RoundedRectPath(shape), s1, [], s2, []);
      ExecSingle(s2, Fill);
      ExecThen(g, [SetFillColor(IndicatorColor)] + RoundedRectPath(shape), [Fill], s2, [] + [], s2,
        [FilledPath(Color(IndicatorColor), outline, g.clip)]);
      assert IndicatorCmds(f) == [SetFillColor(IndicatorColor)] + RoundedRectPath(shape) + [Fill];
      assert s2 == g.(fill := Color(IndicatorColor), path := outline);
      assert [] + [] + [FilledPath(Color(IndicatorColor), outline, g.clip)] == [FilledPath(Color(IndicatorColor), outline, g.clip)];
    }
  }

  lemma ExecImageCmds(g: GState, f: DeviceFrame, image: Option<Image>, position: Position, scale: real)
    ensures image.None? ==> Exec(g, ImageCmds(f, image, position, scale)) == (g, [])
    ensures image.Some? ==>
      var p := ImagePlacement(f, image.value, position, scale);
      Exec(g, ImageCmds(f, image, position, scale))
        == (g, [DrewImage(image.value, p.x + g.tx, p.y + g.ty, p.width, p.height, g.clip)])
  {
    if image.Some? {
      var p := ImagePlacement(f, image.value, position, scale);
      ExecSingle(g, DrawImage(image.value, p.x, p.y, p.width, p.height));
    }
  }

  /** Background, frame and screen: two saves, translated by the padding, clipped to the screen. */
  lemma ExecMockupHead(g: GState, f: DeviceFrame, backgroundGradient: string)
    ensures var pad := Padding as real;
      var w, h := CanvasWidth(f) as real, CanvasHeight(f) as real;
      var backdrop := Backdrop(f, backgroundGradient);
      var screen := Outline(Shifted(ScreenShape(f), pad, pad));
      Exec(g, BackgroundCmds(f, backgroundGradient) + FrameCmds(f) + ScreenCmds(f))
        == (GState(pad, pad, Color(ScreenColor), [screen],
                   [Saved(0.0, 0.0, backdrop, []), Saved(pad, pad, Color(f.frameColor), [])], screen),
            [Cleared(0.0, 0.0, w, h), Cleared(0.0, 0.0, w, h), FilledRect(backdrop, 0.0, 0.0, w, h, []),
             FilledPath(Color(f.frameColor), Outline(Shifted(FrameShape(f), pad, pad)), []),
             FilledPath(Color(ScreenColor), screen, [screen])])
  {
    var pad := Padding as real;
    var bg := BackgroundCmds(f, backgroundGradient);
    var fr := FrameCmds(f);
    var sc := ScreenCmds(f);
    var w, h := CanvasWidth(f) as real, CanvasHeight(f) as real;
    var backdrop := Backdrop(f, backgroundGradient);
    var frameOutline := Outline(Shifted(FrameShape(f), pad, pad));
    var screen := Outline(Shifted(ScreenShape(f), pad, pad));
    var g1 := Fresh.(fill := backdrop);
    var g2 := GState(pad, pad, Color(f.frameColor), [], [Saved(0.0, 0.0, backdrop, [])], frameOutline);
    var g3 := GState(pad, pad, Color(ScreenColor), [screen],
                     [Saved(0.0, 0.0, backdrop, []), Saved(pad, pad, Color(f.frameColor), [])], screen);
    var p1 := [Cleared(0.0, 0.0, w, h), Cleared(0.0, 0.0, w, h), FilledRect(backdrop, 0.0, 0.0, w, h, [])];
    var p2 := [FilledPath(Color(f.frameColor), frameOutline, [])];
    var p3 := [FilledPath(Color(ScreenColor), screen, [screen])];
    assert Exec(g, bg) == (g1, p1) by {
      ExecBackgroundCmds(g, f, backgroundGradient);
    }
    assert Exec(g1, fr) == (g2, p2) by {
      ExecFrameCmds(g1, f);
      assert g1.saved + [Saved(g1.tx, g1.ty, g1.fill, g1.clip)] == [Saved(0.0, 0.0, backdrop, [])];
    }
    assert Exec(g2, sc) == (g3, p3) by {
      ExecScreenCmds(g2, f);
      assert g2.clip + [screen] == [screen];
      assert g2.saved + [Saved(g2.tx, g2.ty, g2.fill, g2.clip)]
        == [Saved(0.0, 0.0, backdrop, []), Saved(pad, pad, Color(f.frameColor), [])];
    }
    ExecThen(g, bg, fr, g1, p1, g2, p2);
    ExecThen(g, bg + fr, sc, g2, p1 + p2, g3, p3);
    assert p1 + p2 + p3 == [Cleared(0.0, 0.0, w, h), Cleared(0.0, 0.0, w, h), FilledRect(backdrop, 0.0, 0.0, w, h, []),
                            FilledPath(Color(f.frameColor), frameOutline, []), FilledPath(Color(ScreenColor), screen, [screen])];
  }

  /**
   * The screenshot, inside whatever clip is in effect; then the first restore, the home indicator
   * under the restored state, and the second restore, which brings back the bottom saved state.
   */
  lemma ExecMockupTail(g: GState, f: DeviceFrame, image: Option<Image>, position: Position, scale: real)
    requires |g.saved| == 2
    ensures var bottom, top := g.saved[0], g.saved[1];
      var r := Exec(g, ImageCmds(f, image, position, scale) + [Restore] + IndicatorCmds(f) + [Restore]);
      && r.0.tx == bottom.tx && r.0.ty == bottom.ty && r.0.fill == bottom.fill && r.0.clip == bottom.clip
      && r.0.saved == []
      && r.1 == Exec(g, ImageCmds(f, image, position, scale)).1
                + (if f.homeIndicator.Some? then
                     [FilledPath(Color(IndicatorColor), Outline(Shifted(IndicatorShape(f.homeIndicator.value), top.tx, top.ty)), top.clip)]
                   else [])
  {
    var im := ImageCmds(f, image, position, scale);
    var ind := IndicatorCmds(f);
    var bottom, top := g.saved[0], g.saved[1];
    var p4 := Exec(g, im).1;
    var g5 := g.(tx := top.tx, ty := top.ty, fill := top.fill, clip := top.clip, saved := [bottom]);
    var g6 := Exec(g5, ind).0;
    var p6 := Exec(g5, ind).1;
    var g7 := Step(g6, Restore).0;
    assert Exec(g, im) == (g, p4) by {
      ExecImageCmds(g, f, image, position, scale);
    }
    assert Exec(g, [Restore]) == (g5, []) by {
      ExecSingle(g, Restore);
      assert g.saved[..1] == [bottom];
    }
    assert Exec(g6, [Restore]) == (g7, []) by {
      ExecSingle(g6, Restore);
    }
    assert g6.saved == [bottom] by {
      ExecIndicatorCmds(g5, f);
    }
    ExecThen(g, im, [Restore], g, p4, g5, []);
    ExecThen(g, im + [Restore], ind, g5, p4 + [], g6, p6);
    ExecThen(g, im + [Restore] + ind, [Restore], g6, p4 + [] + p6, g7, []);
    assert p4 + [] + p6 + [] == p4 + p6;
    ExecIndicatorCmds(g5, f);
  }

  /**
   * Whatever state the context was in, drawMockup's calls paint exactly the Scene and leave
   * the context with no translation, no clip and nothing saved: every save is undone by a
   * restore. Only the fill style stays at the background gradient, set before the first save.
   */
  lemma MockupPaintsScene(g: GState, f: DeviceFrame, image: Option<Image>, position: Position,
                          scale: real, backgroundGradient: string)
    ensures Exec(g, MockupCommands(f, image, position, scale, backgroundGradient)).1
      == Scene(f, image, position, scale, backgroundGradient)
    ensures var after := Exec(g, MockupCommands(f, image, position, scale, backgroundGradient)).0;
      after.tx == 0.0 && after.ty == 0.0 && after.clip == [] && after.saved == []
      && after.fill == Backdrop(f, backgroundGradient)
  {
    var head := BackgroundCmds(f, backgroundGradient) + FrameCmds(f) + ScreenCmds(f);
    var im := ImageCmds(f, image, position, scale);
    var tail := im + [Restore] + IndicatorCmds(f) + [Restore];
    var g3 := Exec(g, head).0;
    assert Exec(g, head).1 == SceneBackdropFrameScreen(f, backgroundGradient)
        && g3.tx == Padding as real && g3.ty == Padding as real && g3.clip == [Outline(OnCanvas(ScreenShape(f)))]
        && g3.saved == [Saved(0.0, 0.0, Backdrop(f, backgroundGradient), []), Saved(Padding as real, Padding as real, Color(f.frameColor), [])] by {
      ExecMockupHead(g, f, backgroundGradient);
    }
    assert Exec(g3, im).1 == SceneImage(f, image, position, scale) by {
      ExecImageCmds(g3, f, image, position, scale);
    }
    assert Exec(g3, tail).1 == SceneImage(f, image, position, scale) + SceneIndicator(f)
        && Exec(g3, tail).0.tx == 0.0 && Exec(g3, tail).0.ty == 0.0 && Exec(g3, tail).0.clip == []
        && Exec(g3, tail).0.saved == [] && Exec(g3, tail).0.fill == Backdrop(f, backgroundGradient) by {
      ExecMockupTail(g3, f, image, position, scale);
    }
    ExecAppend(g, head, tail);
  }

  /**
   * The notch and the dynamic island are never drawn: dropping them, and their flags, from the
   * frame changes neither the calls nor what they paint.
   */
  lemma NotchAndIslandNeverDrawn(f: DeviceFrame, image: Option<Image>, position: Position, scale: real,
                                 backgroundGradient: string)
    ensures var bare := f.(notch := None, dynamicIsland := None, hasNotch := false, hasDynamicIsland := false);
      && MockupCommands(f, image, position, scale, backgroundGradient)
        == MockupCommands(bare, image, position, scale, backgroundGradient)
      && Scene(f, image, position, scale, backgroundGradient)
        == Scene(bare, image, position, scale, backgroundGradient)
  {
  }

  /**
   * With a frame chosen, there is content exactly when the mockup shows a screenshot: some
   * painted item is a drawn image.
   */
  lemma ContentIsAScreenshotOnScreen(s: CanvasState)
    requires s.deviceFrame.Some?
    ensures var scene := Scene(s.deviceFrame.value, s.image, s.position, s.scale, s.backgroundGradient);
      HasContent(s) <==> exists i :: 0 <= i < |scene| && scene[i].DrewImage?
  {
    var f := s.deviceFrame.value;
    var scene := Scene(f, s.image, s.position, s.scale, s.backgroundGradient);
    var front := SceneBackdropFrameScreen(f, s.backgroundGradient);
    var back := SceneIndicator(f);
    assert |front| == 5;
    if s.image.Some? {
      assert scene[5] == SceneImage(f, s.image, s.position, s.scale)[0];
      assert scene[5].DrewImage?;
    } else {
      assert scene == front + back;
      forall i | 0 <= i < |scene|
        ensures !scene[i].DrewImage?
      {
        if i < 5 {
          assert scene[i] == front[i];
        } else {
          assert scene[i] == back[i - 5];
        }
      }
    }
  }

  /**
   * Pan and zoom reach only the drawImage call: two states that differ in position and scale
   * give logs of the same length that agree on every call except the drawImage of the same image.
   */
  lemma OnlyImageDependsOnPanAndZoom(f: DeviceFrame, image: Option<Image>, position1: Position, scale1: real,
                                     position2: Position, scale2: real, backgroundGradient: string)
    ensures var a := MockupCommands(f, image, position1, scale1, backgroundGradient);
      var b := MockupCommands(f, image, position2, scale2, backgroundGradient);
      && |a| == |b|
      && forall i :: 0 <= i < |a| && a[i] != b[i] ==>
           a[i].DrawImage? && b[i].DrawImage? && a[i].image == b[i].image
  {
    var a := MockupCommands(f, image, position1, scale1, backgroundGradient);
    var b := MockupCommands(f, image, position2, scale2, backgroundGradient);
    var pre := BackgroundCmds(f, backgroundGradient) + FrameCmds(f) + ScreenCmds(f);
    var post := [Restore] + IndicatorCmds(f) + [Restore];
    var ia := ImageCmds(f, image, position1, scale1);
    var ib := ImageCmds(f, image, position2, scale2);
    assert a == pre + ia + post;
    assert b == pre + ib + post;
    assert |ia| == |ib|;
    forall i | 0 <= i < |a|
      ensures a[i] == b[i] || (a[i].DrawImage? && b[i].DrawImage? && a[i].image == b[i].image)
    {
      if i < |pre| {
        assert a[i] == pre[i];
        assert b[i] == pre[i];
      } else if i >= |pre| + |ia| {
        assert a[i] == post[i - |pre| - |ia|];
        assert b[i] == post[i - |pre| - |ia|];
      } else {
        assert a[i] == ia[i - |pre|] && b[i] == ib[i - |pre|];
      }
    }
  }

  /** drawMockup saves the context twice and restores it twice. */
  lemma MockupSavesTwiceRestoresTwice(f: DeviceFrame, image: Option<Image>, position: Position,
                                      scale: real, backgroundGradient: string)
    ensures Count(MockupCommands(f, image, position, scale, backgroundGradient), Save) == 2
    ensures Count(MockupCommands(f, image, position, scale, backgroundGradient), Restore) == 2
  {
    var bg, fr, sc := BackgroundCmds(f, backgroundGradient), FrameCmds(f), ScreenCmds(f);
    var im, ind := ImageCmds(f, image, position, scale), IndicatorCmds(f);
    var all := MockupCommands(f, image, position, scale, backgroundGradient);
    BackgroundCounts(f, backgroundGradient);
    FrameCounts(f);
    ScreenCounts(f);
    ImageCounts(f, image, position, scale);
    IndicatorCounts(f);
    assert Count(all, Save) == 2 by {
      CountSections(bg, fr, sc, im, ind, Save);
    }
    assert Count(all, Restore) == 2 by {
      CountSections(bg, fr, sc, im, ind, Restore);
    }
  }

  /** The count over the mockup's sections is the sum of the counts over each, plus the two restores. */
  lemma CountSections(bg: seq<Cmd>, fr: seq<Cmd>, sc: seq<Cmd>, im: seq<Cmd>, ind: seq<Cmd>, c: Cmd)
    ensures Count((bg + fr + sc) + (im + [Restore] + ind + [Restore]), c)
      == Count(bg, c) + Count(fr, c) + Count(sc, c) + Count(im, c) + Count(ind, c)
         + (if c == Restore then 2 else 0)
  {
    assert multiset((bg + fr + sc) + (im + [Restore] + ind + [Restore]))
      == multiset(bg) + multiset(fr) + multiset(sc) + multiset(im) + multiset([Restore]) + multiset(ind)
         + multiset([Restore]);
  }

  /** The background and the screenshot neither save nor restore. */
  lemma BackgroundCounts(f: DeviceFrame, backgroundGradient: string)
    ensures Count(BackgroundCmds(f, backgroundGradient), Save) == 0
    ensures Count(BackgroundCmds(f, backgroundGradient), Restore) == 0
  {
    var bg := BackgroundCmds(f, backgroundGradient);
    assert forall i :: 0 <= i < |bg| ==> bg[i] != Save && bg[i] != Restore;
  }

  lemma ImageCounts(f: DeviceFrame, image: Option<Image>, position: Position, scale: real)
    ensures Count(ImageCmds(f, image, position, scale), Save) == 0
    ensures Count(ImageCmds(f, image, position, scale), Restore) == 0
  {
  }

  /** The frame section saves once and the screen section saves once; neither restores. */
  lemma FrameCounts(f: DeviceFrame)
    ensures Count(FrameCmds(f), Save) == 1 && Count(FrameCmds(f), Restore) == 0
  {
    var path := RoundedRectPath(FrameShape(f));
    PathHasNoSaveOrRestore(FrameShape(f));
    assert FrameCmds(f) == [Save, Translate(Padding as real, Padding as real), SetFillColor(f.frameColor)] + path + [Fill];
  }

  lemma ScreenCounts(f: DeviceFrame)
    ensures Count(ScreenCmds(f), Save) == 1 && Count(ScreenCmds(f), Restore) == 0
  {
    var path := RoundedRectPath(ScreenShape(f));
    PathHasNoSaveOrRestore(ScreenShape(f));
    assert ScreenCmds(f) == [Save] + path + [Clip, SetFillColor(ScreenColor), Fill];
  }

  lemma IndicatorCounts(f: DeviceFrame)
    ensures Count(IndicatorCmds(f), Save) == 0 && Count(IndicatorCmds(f), Restore) == 0
  {
    if f.homeIndicator.Some? {
      var path := RoundedRectPath(IndicatorShape(f.homeIndicator.value));
      PathHasNoSaveOrRestore(IndicatorShape(f.homeIndicator.value));
      assert IndicatorCmds(f) == [SetFillColor(IndicatorColor)] + path + [Fill];
    }
  }

  /** A rounded-rectangle path neither saves nor restores. */
  lemma PathHasNoSaveOrRestore(rr: RoundRect)
    ensures Count(RoundedRectPath(rr), Save) == 0 && Count(RoundedRectPath(rr), Restore) == 0
  {
    var p := RoundedRectPath(rr);
    assert forall i :: 0 <= i < |p| ==> p[i] != Save && p[i] != Restore;
    assert Save !in multiset(p) && Restore !in multiset(p);
  }
}
