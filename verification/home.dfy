/**
 * The editor page: it owns the canvas state and the workflow step, loads uploaded
 * screenshots, fits them to the selected frame and merges the preview's edits.
 */
module Home {
  import opened Wrappers
  import opened Canvas2D
  import opened CanvasUtils
  import opened DeviceFrames
  import opened UseCanvas
  import FileUploadZone

  /** The state the editor opens with: no screenshot, the iPhone 15 frame, no pan, scale 1, gray. */
  function InitialState(): (s: CanvasState)
    ensures !HasContent(s)
    ensures s.deviceFrame == Some(DefaultFrame)
    ensures s.deviceFrame.Some? && s.deviceFrame.value.id == "iphone-15" && WellFormed(s.deviceFrame.value)
    ensures s.image.None? && s.position == Origin && s.scale == 1.0 && s.backgroundGradient == "gray"
  {
    CatalogueIsWellFormed();
    CanvasState(None, Some(Catalogue[1]), Origin, 1.0, "gray")
  }

  /**
   * handleStateChange's updater, `{ ...prev, ...changes }`: every supplied field takes its new
   * value and every other field keeps the old one.
   */
  function ApplyChanges(prev: CanvasState, changes: Patch): (s: CanvasState)
    ensures changes.image.Some? ==> s.image == changes.image.value
    ensures changes.image.None? ==> s.image == prev.image
    ensures changes.deviceFrame.Some? ==> s.deviceFrame == changes.deviceFrame.value
    ensures changes.deviceFrame.None? ==> s.deviceFrame == prev.deviceFrame
    ensures changes.position.Some? ==> s.position == changes.position.value
    ensures changes.position.None? ==> s.position == prev.position
    ensures changes.scale.Some? ==> s.scale == changes.scale.value
    ensures changes.scale.None? ==> s.scale == prev.scale
    ensures changes.backgroundGradient.Some? ==> s.backgroundGradient == changes.backgroundGradient.value
    ensures changes.backgroundGradient.None? ==> s.backgroundGradient == prev.backgroundGradient
  {
    CanvasState(
      if changes.image.Some? then changes.image.value else prev.image,
      if changes.deviceFrame.Some? then changes.deviceFrame.value else prev.deviceFrame,
      if changes.position.Some? then changes.position.value else prev.position,
      if changes.scale.Some? then changes.scale.value else prev.scale,
      if changes.backgroundGradient.Some? then changes.backgroundGradient.value else prev.backgroundGradient)
  }

  /** Two patches merged as one spread after the other: a field of `later` wins. */
  function Combine(earlier: Patch, later: Patch): Patch
  {
    Patch(
      if later.image.Some? then later.image else earlier.image,
      if later.deviceFrame.Some? then later.deviceFrame else earlier.deviceFrame,
      if later.position.Some? then later.position else earlier.position,
      if later.scale.Some? then later.scale else earlier.scale,
      if later.backgroundGradient.Some? then later.backgroundGradient else earlier.backgroundGradient)
  }

  /** Applying two changes in turn is applying their combination once. */
  lemma ApplyChangesCombine(s: CanvasState, earlier: Patch, later: Patch)
    ensures ApplyChanges(ApplyChanges(s, earlier), later) == ApplyChanges(s, Combine(earlier, later))
  {
  }

  /** An empty change leaves the state as it is, and applying a change twice is applying it once. */
  lemma ApplyChangesIdentityAndIdempotence(s: CanvasState, changes: Patch)
    ensures ApplyChanges(s, NoChanges) == s
    ensures ApplyChanges(ApplyChanges(s, changes), changes) == ApplyChanges(s, changes)
  {
  }

  /**
   * handleDeviceSelect's updater. The new frame is taken; with a screenshot loaded, the scale is
   * refitted to the new screen and the pan reset, otherwise scale and pan are kept.
   */
  function SelectDevice(prev: CanvasState, device: DeviceFrame): (s: CanvasState)
    ensures s.deviceFrame == Some(device)
    ensures s.image == prev.image && s.backgroundGradient == prev.backgroundGradient
    ensures prev.image.Some? ==> s.position == Origin
    ensures prev.image.Some? ==>
      s.scale == FitImageToArea(prev.image.value.width as real, prev.image.value.height as real,
                                device.screenArea.width as real, device.screenArea.height as real).scale
    ensures prev.image.None? ==> s.position == prev.position && s.scale == prev.scale
  {
    var newState := prev.(deviceFrame := Some(device));
    if prev.image.Some? then
      var fitted := FitImageToArea(prev.image.value.width as real, prev.image.value.height as real,
                                   device.screenArea.width as real, device.screenArea.height as real);
      newState.(scale := fitted.scale, position := Origin)
    else newState
  }

  /**
   * The updater a completed upload applies. `frameAtStart` is the frame the page showed when the
   * upload began: the fit is computed against that frame's screen.
   */
  function WithUploadedImage(prev: CanvasState, image: Image, frameAtStart: Option<DeviceFrame>): (s: CanvasState)
    ensures s.image == Some(image)
    ensures s.deviceFrame == prev.deviceFrame && s.backgroundGradient == prev.backgroundGradient
    ensures frameAtStart.Some? ==> s.position == Origin
    ensures frameAtStart.Some? ==>
      s.scale == FitImageToArea(image.width as real, image.height as real,
                                frameAtStart.value.screenArea.width as real,
                                frameAtStart.value.screenArea.height as real).scale
    ensures frameAtStart.None? ==> s.position == prev.position && s.scale == prev.scale
  {
    if frameAtStart.Some? then
      var fitted := FitImageToArea(image.width as real, image.height as real,
                                   frameAtStart.value.screenArea.width as real,
                                   frameAtStart.value.screenArea.height as real);
      prev.(image := Some(image), scale := fitted.scale, position := Origin)
    else prev.(image := Some(image))
  }

  /**
   * The screenshot lies inside the screen rectangle, centred on it, and spans the screen's
   * full width or its full height.
   */
  predicate FitsScreen(f: DeviceFrame, image: Image, position: Position, scale: real)
  {
    var p := ImagePlacement(f, image, position, scale);
    var sx, sy := f.screenArea.x as real, f.screenArea.y as real;
    var sw, sh := f.screenArea.width as real, f.screenArea.height as real;
    && sx <= p.x && p.x + p.width <= sx + sw
    && sy <= p.y && p.y + p.height <= sy + sh
    && (p.width == sw || p.height == sh)
    && p.x - sx == sx + sw - (p.x + p.width)
    && p.y - sy == sy + sh - (p.y + p.height)
  }

  /** After choosing a frame with a screenshot loaded, the screenshot fits the new screen. */
  lemma SelectDeviceFitsScreen(prev: CanvasState, device: DeviceFrame)
    requires prev.image.Some?
    ensures var s := SelectDevice(prev, device);
      FitsScreen(device, s.image.value, s.position, s.scale)
  {
    var s := SelectDevice(prev, device);
    var fitted := FitImageToArea(prev.image.value.width as real, prev.image.value.height as real,
                                 device.screenArea.width as real, device.screenArea.height as real);
    var p := ImagePlacement(device, s.image.value, s.position, s.scale);
    assert p.width == fitted.width && p.height == fitted.height;
  }

  /**
   * A completed upload fits the screenshot to the frame the page showed when the upload
   * began; if the page still shows that frame, the screenshot fits its screen.
   */
  lemma UploadFitsScreen(prev: CanvasState, image: Image)
    requires prev.deviceFrame.Some?
    ensures var s := WithUploadedImage(prev, image, prev.deviceFrame);
      HasContent(s) && FitsScreen(s.deviceFrame.value, image, s.position, s.scale)
  {
    var f := prev.deviceFrame.value;
    var s := WithUploadedImage(prev, image, prev.deviceFrame);
    var fitted := FitImageToArea(image.width as real, image.height as real,
                                 f.screenArea.width as real, f.screenArea.height as real);
    var p := ImagePlacement(f, image, s.position, s.scale);
    assert p.width == fitted.width && p.height == fitted.height;
  }

  /**
   * If the frame is changed while the image loads, the screenshot is still fitted to the frame
   * of the start: a 10 by 10 screenshot uploaded on the iPhone 15, with the iPhone SE chosen
   * meanwhile, comes out 284 pixels wide on the SE's 264-pixel screen.
   */
  lemma FrameChangedDuringUpload()
    ensures var before := InitialState();
      var during := SelectDevice(before, Catalogue[2]);
      var after := WithUploadedImage(during, Image(10, 10), before.deviceFrame);
      && after.deviceFrame == Some(Catalogue[2])
      && ImagePlacement(Catalogue[2], Image(10, 10), after.position, after.scale).width == 284.0
      && !FitsScreen(Catalogue[2], Image(10, 10), after.position, after.scale)
  {
    var before := InitialState();
    var during := SelectDevice(before, Catalogue[2]);
    var after := WithUploadedImage(during, Image(10, 10), before.deviceFrame);
    assert after.scale == FitImageToArea(10.0, 10.0, 284.0, 584.0).scale;
  }

  /**
   * The page: the workflow step shown (1 upload, 2 processing, 3 edit), whether an upload is
   * being processed, and the canvas state.
   */
  class HomePage {
    var currentStep: int
    var isProcessing: bool
    var canvasState: CanvasState

    /** The step is one of the three, and step 2 is shown while an upload is processed. */
    ghost predicate Valid()
      reads this
    {
      1 <= currentStep <= 3 && (isProcessing ==> currentStep == 2)
    }

    constructor ()
      ensures Valid()
      ensures currentStep == 1 && !isProcessing && canvasState == InitialState()
      ensures !PageHasContent()
    {
      currentStep := 1;
      isProcessing := false;
      canvasState := InitialState();
    }

    /** hasContent: a screenshot and a frame are both present. */
    function PageHasContent(): bool
      reads this
    {
      HasContent(canvasState)
    }

    /**
     * The synchronous start of handleFileSelect: processing begins and step 2 is shown. The
     * frame is captured here, as the callback closes over the state it was created with.
     */
    method BeginUpload() returns (frameAtStart: Option<DeviceFrame>)
      modifies this
      ensures Valid()
      ensures isProcessing && currentStep == 2
      ensures canvasState == old(canvasState) && frameAtStart == old(canvasState.deviceFrame)
    {
      isProcessing := true;
      currentStep := 2;
      frameAtStart := canvasState.deviceFrame;
    }

    /**
     * The end of handleFileSelect, once loading the image settled: `loaded` is None when
     * loading failed. On success the screenshot is put in place and step 3 shown; on failure
     * the canvas state is untouched and step 1 shown. Either way processing ends.
     */
    method FinishUpload(frameAtStart: Option<DeviceFrame>, loaded: Option<Image>)
      modifies this
      ensures Valid()
      ensures !isProcessing
      ensures loaded.Some? ==> currentStep == 3
      ensures loaded.Some? ==> canvasState == WithUploadedImage(old(canvasState), loaded.value, frameAtStart)
      ensures loaded.None? ==> currentStep == 1 && canvasState == old(canvasState)
    {
      if loaded.Some? {
        canvasState := WithUploadedImage(canvasState, loaded.value, frameAtStart);
        currentStep := 3;
      } else {
        currentStep := 1;
      }
      isProcessing := false;
    }

    /**
     * handleFileSelect with nothing happening while the image loads: a good file ends on step 3
     * with the screenshot fitted to the screen, a bad one on step 1 with the state untouched.
     */
    method HandleFileSelect(loaded: Option<Image>)
      modifies this
      ensures Valid() && !isProcessing
      ensures loaded.Some? ==> currentStep == 3
      ensures loaded.Some? ==>
        canvasState == WithUploadedImage(old(canvasState), loaded.value, old(canvasState.deviceFrame))
      ensures loaded.Some? && old(canvasState.deviceFrame).Some? ==>
        PageHasContent() && FitsScreen(canvasState.deviceFrame.value, loaded.value, canvasState.position, canvasState.scale)
      ensures loaded.None? ==> currentStep == 1 && canvasState == old(canvasState)
    {
      var frameAtStart := BeginUpload();
      FinishUpload(frameAtStart, loaded);
      if loaded.Some? && frameAtStart.Some? {
        UploadFitsScreen(old(canvasState), loaded.value);
      }
    }

    /** handleDeviceSelect: the new frame, with the screenshot refitted; the step is unchanged. */
    method HandleDeviceSelect(device: DeviceFrame)
      requires Valid()
      modifies this
      ensures Valid()
      ensures canvasState == SelectDevice(old(canvasState), device)
      ensures currentStep == old(currentStep) && isProcessing == old(isProcessing)
      ensures canvasState.image.Some? ==>
        FitsScreen(device, canvasState.image.value, canvasState.position, canvasState.scale)
    {
      var prev := canvasState;
      canvasState := SelectDevice(prev, device);
      if prev.image.Some? {
        SelectDeviceFitsScreen(prev, device);
      }
    }

    /** handleStateChange: the preview's partial update is merged in. */
    method HandleStateChange(changes: Patch)
      requires Valid()
      modifies this
      ensures Valid()
      ensures canvasState == ApplyChanges(old(canvasState), changes)
      ensures currentStep == old(currentStep) && isProcessing == old(isProcessing)
    {
      canvasState := ApplyChanges(canvasState, changes);
    }
  }

  /**
   * The upload zone wired to the page: a drop reaches handleFileSelect only through the zone's
   * first-file rule and checks; an empty or rejected drop leaves the page as it was.
   * `loaded` is what loading the handed-on file yields.
   */
  method DropOnPage(zone: FileUploadZone.UploadZone, page: HomePage, files: seq<FileUploadZone.File>,
                    loaded: Option<Image>)
    requires page.Valid()
    modifies zone, page
    ensures page.Valid()
    ensures !zone.isDragOver
    ensures !FileUploadZone.FirstFile(files).Selected? ==>
      page.currentStep == old(page.currentStep) && page.isProcessing == old(page.isProcessing)
      && page.canvasState == old(page.canvasState)
    ensures FileUploadZone.FirstFile(files).Selected? ==> !page.isProcessing
    ensures FileUploadZone.FirstFile(files).Selected? && loaded.Some? ==>
      page.currentStep == 3
      && page.canvasState == WithUploadedImage(old(page.canvasState), loaded.value, old(page.canvasState.deviceFrame))
    ensures FileUploadZone.FirstFile(files).Selected? && loaded.None? ==>
      page.currentStep == 1 && page.canvasState == old(page.canvasState)
  {
    var outcome := zone.Drop(files);
    if outcome.Selected? {
      page.HandleFileSelect(loaded);
    }
  }
}
