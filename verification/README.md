# iPhone screenshot mockup editor, modelled in Dafny

The editor takes an iPhone screenshot and places it inside a device frame drawn on an HTML
canvas. The frame sits on a gradient background. The user can pan and zoom the screenshot,
change the frame and pick a background. This project models the logic beneath the user
interface:

- **Geometry helpers** (`CanvasUtils`): the uniform "contain" fit of an image into a screen,
  the aspect-ratio device recommendation, and the rounded-rectangle path.
- **Frame catalogue** (`DeviceFrames`): four frames of constant geometry, and the invariants
  they satisfy.
- **Compositor** (`UseCanvas.DrawMockup`): a method that issues canvas calls into a command log
  (`Canvas2D.Canvas.log`). `Canvas2D.Exec` is a reference semantics for such a log. It tracks
  translation, fill style, clip region, save stack and current path, and lists what is
  painted, in canvas coordinates, with the clip in effect. The lemmas say what the mockup
  paints and where.
- **Page** (`Home`): the initial state, the upload step machine (`HomePage`), refitting on a
  frame change, and merging partial updates.
- **Upload zone** (`FileUploadZone`): the type and size checks, the first-file rule, and the
  drag highlight.
- **Preview controls** (`PreviewCanvas`): reset, pan sliders, zoom buttons, scale slider and
  background swatches, as partial updates, with the content gating.

Lengths and scales are `real`, so the arithmetic is exact. The catalogue's integers are `int`.

Two tables are constants rather than members: `DeviceFrames.Catalogue` holds the four frames of
client/src/lib/device-frames.ts:39-90 field for field, and `CanvasUtils.Devices` the four
aspect-ratio profiles of client/src/lib/canvas-utils.ts:93-98. What they satisfy is stated by
`DeviceFrames.CatalogueIsWellFormed` and `CanvasUtils.FirstClosestIsProOrSE`.

Three predicates are plain definitions. `UseCanvas.HasContent` is the page's `hasContent`
(client/src/pages/home.tsx:104, the same condition at client/src/components/PreviewCanvas.tsx:19):
a screenshot and a frame are both present. `Home.HomePage.PageHasContent` reads it off the page.
`PreviewCanvas.Enabled` is the controls' `disabled={!hasContent}` (client/src/components/PreviewCanvas.tsx:37-138):
a swatch is always usable, every other control only with content. Their meaning is stated by
`UseCanvas.ContentIsAScreenshotOnScreen`, `PreviewCanvas.ControlChanges` and
`PreviewCanvas.NoContentOnlyBackground`.

## Model

| member | source | states |
|---|---|---|
| CanvasUtils.FitImageToArea | client/src/lib/canvas-utils.ts:65-80 | The fitted size is the image times one scale. It stays within the area, fills it along at least one axis, and keeps the image's aspect ratio. The scale is positive for a positive area. |
| CanvasUtils.FitIsLargestContainingScale | client/src/lib/canvas-utils.ts:71-73 | No uniform scale larger than the fitted one keeps the image inside the area: the fitted scale is the largest that does. |
| CanvasUtils.FirstClosestIsUnique | client/src/lib/canvas-utils.ts:103-109 | At most one table entry is "as close as every entry and strictly closer than every earlier one". |
| CanvasUtils.FirstClosestIsProOrSE | client/src/lib/canvas-utils.ts:93-109 | The first closest entry is always 'iPhone 14 Pro' or 'iPhone SE', since 'iPhone 15' and 'iPhone 12' tie with the earlier 'iPhone 14 Pro'. The SE is chosen exactly when the aspect ratio exceeds 0.524. |
| CanvasUtils.RecommendDevice | client/src/lib/canvas-utils.ts:89-112 | The scan returns the name of the first entry of minimal aspect-ratio difference. On ties the earliest entry wins, because the update needs a strict `<`. The result is 'iPhone 14 Pro' or 'iPhone SE'. |
| CanvasUtils.OutlineOf | client/src/lib/canvas-utils.ts:32-37 | Reading a rounded rectangle back from a path gives one whose outline is that path. |
| CanvasUtils.OutlineRoundTrip | client/src/lib/canvas-utils.ts:32-37 | Reading back the outline of any rounded rectangle gives that rectangle, so distinct rectangles trace distinct paths. |
| CanvasUtils.OutlineRunsClockwise | client/src/lib/canvas-utils.ts:32-37 | The arcs turn at the four corners, top right then bottom right, bottom left and top left. The shoelace sum over them, twice the signed area, is 2·width·height. So the signed area is width·height, and for positive width and height the path runs clockwise on screen. |
| CanvasUtils.OutlineCorners | client/src/lib/canvas-utils.ts:33-36 | The four arcs turn at the rectangle's corners: top right, bottom right, bottom left, top left. |
| CanvasUtils.DrawRoundedRect | client/src/lib/canvas-utils.ts:23-38 | Appends beginPath, moveTo(x+r, y), one arcTo per corner with radius r, and closePath to the log, in that order. |
| CanvasUtils.ExecRoundedRectPath | client/src/lib/canvas-utils.ts:31-37 | Under any state, the calls make the moved rounded rectangle the current path and paint nothing. |
| CanvasUtils.OutlineTranslates | client/src/lib/canvas-utils.ts:32-37 | Moving the outline's points by the translation traces the moved rectangle. |
| DeviceFrames.CatalogueIsWellFormed | client/src/lib/device-frames.ts:39-90 | There are exactly four frames, with pairwise distinct ids, and entry 1 is 'iphone-15'. Every frame is well formed: a positive screen inside the frame, and decorations inside the screen and horizontally centred. Also, hasNotch/hasDynamicIsland hold exactly when the rectangle is present, the home indicator ends on the screen's bottom edge, and cornerRadius > 4. |
| DeviceFrames.HomeIndicatorsEndAtScreenBottom | client/src/lib/device-frames.ts:50 | Every home indicator in the catalogue ends at y = 592. |
| UseCanvas.GradientStops | client/src/hooks/use-canvas.ts:35-47 | The colour stops per background id: blue #60a5fa to #2563eb, purple #a78bfa to #ec4899, and gray #f3f4f6 to #d1d5db for 'gray' and for every other id. |
| UseCanvas.MockupCommands | client/src/hooks/use-canvas.ts:26-121 | The calls of one drawMockup in order: background, frame, screen, screenshot, restore, home indicator, restore. The list starts by sizing the canvas to the frame plus 80 and ends with a restore. MockupPaintsScene gives its meaning. |
| UseCanvas.UnknownBackgroundIsGray | client/src/hooks/use-canvas.ts:35-47 | A background id other than gray, blue or purple gets the gray colour stops. |
| UseCanvas.ImagePlacement | client/src/hooks/use-canvas.ts:89-102 | The screenshot is drawn at its natural size times the scale, centred on the screen's centre moved by the pan offset. |
| UseCanvas.DrawMockup | client/src/hooks/use-canvas.ts:16-122 | The log is unchanged when there is no canvas, no frame or no 2D context. Otherwise the canvas becomes (frame width + 80) × (frame height + 80) and the log grows by exactly the mockup's calls, in order. |
| UseCanvas.DrawBackground | client/src/hooks/use-canvas.ts:26-50 | Sizes the canvas, clears it, and fills it with the gradient whose stops the background id selects. |
| UseCanvas.DrawFrame | client/src/hooks/use-canvas.ts:53-70 | Saves, translates by (40, 40), and fills the frame's rounded outline (0, 0, w, h, cornerRadius) in the frame colour. |
| UseCanvas.DrawScreen | client/src/hooks/use-canvas.ts:72-103 | Saves, clips to the screen outline with radius cornerRadius − 4, and fills it white. Then draws the screenshot exactly when there is one. |
| UseCanvas.DrawHomeIndicator | client/src/hooks/use-canvas.ts:107-119 | Fills the home indicator pill, of radius height/2, exactly when the frame has one. |
| UseCanvas.ExecBackgroundCmds | client/src/hooks/use-canvas.ts:27-50 | From any state, the background calls reset the context and paint two clears and the gradient over the whole canvas, with no clip. |
| UseCanvas.ExecFrameCmds | client/src/hooks/use-canvas.ts:57-70 | The frame calls push the state and move by the padding. They paint the frame outline, moved into canvas coordinates, under the clip in effect. |
| UseCanvas.ExecScreenCmds | client/src/hooks/use-canvas.ts:73-86 | The screen calls push the state, add the screen outline to the clip, and paint the white screen inside that clip. |
| UseCanvas.ExecImageCmds | client/src/hooks/use-canvas.ts:89-103 | The screenshot is painted at its placement moved by the translation, under the current clip, and only when there is one. |
| UseCanvas.ExecIndicatorCmds | client/src/hooks/use-canvas.ts:108-119 | The indicator is painted, moved by the translation and under the current clip, only when the frame has one. |
| UseCanvas.ExecMockupHead | client/src/hooks/use-canvas.ts:27-86 | After background, frame and screen, the state holds two saves, a translation by the padding, and a clip to the screen. It has painted the background, the frame and the white screen. |
| UseCanvas.ExecMockupTail | client/src/hooks/use-canvas.ts:89-121 | From any state with two saved states: the screenshot is painted under the clip in effect (the screen clip in the mockup). The first restore brings back the clip of the top saved state, under which the indicator is painted. The second restore brings back the bottom saved state. |
| UseCanvas.MockupPaintsScene | client/src/hooks/use-canvas.ts:16-122 | From any state, the mockup's calls paint exactly `Scene`, in order: the cleared canvas and the gradient, then the frame and the white screen clipped to itself. Next comes the screenshot clipped to the screen at its placement plus (40, 40), then the unclipped home indicator. The notch and the dynamic island are never painted. Translation, clip and save stack end empty. |
| UseCanvas.NotchAndIslandNeverDrawn | client/src/hooks/use-canvas.ts:53-121 | Dropping the notch, the dynamic island and their flags from the frame changes neither the calls nor the painted scene: the compositor never draws them. |
| UseCanvas.ContentIsAScreenshotOnScreen | client/src/pages/home.tsx:104 | With a frame chosen, the page has content exactly when the painted mockup contains a drawn screenshot. |
| UseCanvas.OnlyImageDependsOnPanAndZoom | client/src/hooks/use-canvas.ts:57-121 | Two states that differ only in pan and zoom give logs of equal length. The logs agree on every call except the drawImage, which draws the same image. |
| UseCanvas.MockupSavesTwiceRestoresTwice | client/src/hooks/use-canvas.ts:57-121 | The mockup saves the context exactly twice and restores it exactly twice. |
| UseCanvas.FrameCounts | client/src/hooks/use-canvas.ts:57-70 | The frame section saves once and never restores. |
| UseCanvas.ScreenCounts | client/src/hooks/use-canvas.ts:73-86 | The screen section saves once and never restores. |
| UseCanvas.IndicatorCounts | client/src/hooks/use-canvas.ts:108-119 | The indicator section neither saves nor restores. |
| UseCanvas.BackgroundCounts | client/src/hooks/use-canvas.ts:27-50 | The background section neither saves nor restores. |
| UseCanvas.ImageCounts | client/src/hooks/use-canvas.ts:89-103 | The screenshot section neither saves nor restores. |
| UseCanvas.PathHasNoSaveOrRestore | client/src/lib/canvas-utils.ts:31-37 | A rounded-rectangle path neither saves nor restores. |
| FileUploadZone.ValidateFile | client/src/components/FileUploadZone.tsx:15-38 | Accepts exactly the png, jpeg, jpg and heic types up to 10·1024·1024 bytes. The type is checked first, so a file failing both checks is an invalid type. |
| FileUploadZone.SizeLimitIsInclusive | client/src/components/FileUploadZone.tsx:17-28 | For an accepted type, 10 485 760 bytes is accepted and 10 485 761 is too large. |
| FileUploadZone.HandleFileSelect | client/src/components/FileUploadZone.tsx:40-44 | The file is handed on, unchanged, exactly when it passes the checks. Otherwise the rejection reason is reported. |
| FileUploadZone.FirstFile | client/src/components/FileUploadZone.tsx:50-53 | An empty list does nothing. Otherwise the outcome is handleFileSelect of the first file. A file is handed on only if it is the first and passed the checks, and a valid first file always is. A rejection carries validateFile's verdict on the first file, so a file of the wrong type is reported as such even when it is also too large. |
| FileUploadZone.OnlyFirstFileMatters | client/src/components/FileUploadZone.tsx:50-53 | Two lists with the same first file end alike. |
| FileUploadZone.RejectedFilesNeverSelected | client/src/components/FileUploadZone.tsx:40-44 | A file that fails the checks is never handed on, wherever it sits in the list. |
| FileUploadZone.InputFiles | client/src/components/FileUploadZone.tsx:66-71 | A null file list does nothing; otherwise the first-file rule applies. |
| FileUploadZone.UploadZone.constructor | client/src/components/FileUploadZone.tsx:12 | The drag highlight starts off. |
| FileUploadZone.UploadZone.DragOver | client/src/components/FileUploadZone.tsx:56-59 | A drag over the zone turns the highlight on. |
| FileUploadZone.UploadZone.DragLeave | client/src/components/FileUploadZone.tsx:61-64 | A drag leaving the zone turns the highlight off. |
| FileUploadZone.UploadZone.Drop | client/src/components/FileUploadZone.tsx:46-54 | A drop turns the highlight off and applies the first-file rule to the dropped files. |
| FileUploadZone.UploadZone.InputChange | client/src/components/FileUploadZone.tsx:66-71 | A file-input change applies the first-file rule. A file is handed on only if it is the first of a non-null list and valid. |
| Home.InitialState | client/src/pages/home.tsx:18-24 | The editor opens with no screenshot (so no content), the catalogue's entry 1 (deviceFrames[1], the well-formed 'iphone-15' frame), no pan, scale 1 and the gray background. |
| Home.ApplyChanges | client/src/pages/home.tsx:92-94 | Every supplied field takes its new value and every other field keeps its old one. |
| Home.ApplyChangesCombine | client/src/pages/home.tsx:92-94 | Two partial updates in turn equal their merge, in which the later one wins, applied once. |
| Home.ApplyChangesIdentityAndIdempotence | client/src/pages/home.tsx:92-94 | An empty update changes nothing, and applying an update twice equals applying it once. |
| Home.SelectDevice | client/src/pages/home.tsx:72-90 | The new frame is taken, and image and background are kept. With an image loaded, the scale is refitted to the new screen and the pan reset. Without one, scale and pan are kept. |
| Home.WithUploadedImage | client/src/pages/home.tsx:37-53 | The new screenshot is set, and frame and background are kept. With a frame at the start of the upload, the scale is fitted to that frame's screen and the pan reset. Without one, scale and pan are kept. |
| Home.SelectDeviceFitsScreen | client/src/pages/home.tsx:76-86 | After a frame change with an image loaded, the screenshot lies inside the new screen, centred, spanning its full width or height. |
| Home.UploadFitsScreen | client/src/pages/home.tsx:37-50 | After an upload on an unchanged frame, there is content and the screenshot fits the screen, centred and spanning it along one axis. |
| Home.FrameChangedDuringUpload | client/src/pages/home.tsx:37-50 | The fit uses the frame of the start. In the example, a 10×10 upload begun on the iPhone 15 and finished after switching to the SE comes out 284 wide on the SE's 264-wide screen. |
| Home.HomePage.constructor | client/src/pages/home.tsx:16-24 | Step 1, not processing, the initial canvas state, and no content. |
| Home.HomePage.BeginUpload | client/src/pages/home.tsx:29-31 | Processing starts and step 2 is shown. The canvas state is untouched, and the frame shown now is captured for the fit. |
| Home.HomePage.FinishUpload | client/src/pages/home.tsx:34-69 | On success the screenshot is put in place and step 3 is shown. On failure the canvas state is untouched and step 1 is shown. Processing ends either way. |
| Home.HomePage.HandleFileSelect | client/src/pages/home.tsx:29-70 | The whole upload, from step 1 through 2 to 3, or back to 1. On success with a frame there is content, and the screenshot fits the screen. |
| Home.HomePage.HandleDeviceSelect | client/src/pages/home.tsx:72-90 | The state becomes SelectDevice's. A loaded screenshot then fits the new screen, and the step is unchanged. |
| Home.HomePage.HandleStateChange | client/src/pages/home.tsx:92-94 | The partial update is merged into the canvas state; the step is unchanged. |
| Home.DropOnPage | client/src/pages/home.tsx:136-139 | A drop reaches handleFileSelect only through the zone's rule and checks. An empty or rejected drop leaves step, processing flag and canvas state as they were. |
| PreviewCanvas.BackgroundId | client/src/components/PreviewCanvas.tsx:21-25 | A swatch writes 'gray', 'blue' or 'purple'. |
| PreviewCanvas.BackgroundIdsDistinct | client/src/components/PreviewCanvas.tsx:21-25 | The three swatches write three distinct ids, each drawn with its own colour stops. |
| PreviewCanvas.ZoomOutScale | client/src/components/PreviewCanvas.tsx:120 | The result is never below 0.1. It is a tenth less from 0.2 upwards, and 0.1 below that, which raises a scale under 0.1. |
| PreviewCanvas.ZoomInScale | client/src/components/PreviewCanvas.tsx:137 | The result is never above 3. It is a tenth more up to 2.9, and 3 above that, which lowers a scale over 3. |
| PreviewCanvas.ControlChanges | client/src/components/PreviewCanvas.tsx:36-151 | A control yields an update exactly when it is enabled: a swatch always, anything else only with content. No update touches image or frame. Reset gives exactly {position (0,0), scale 1}, and the X slider only x (keeping y), the Y slider only y. Zoom-out gives exactly the scale max(0.1, s − 0.1) and zoom-in exactly min(3, s + 0.1), for every current scale s, including scales outside [0.1, 3]. The scale slider gives exactly tick/10, and a swatch only the background id. |
| PreviewCanvas.AfterControl | client/src/pages/home.tsx:92-94 | A disabled control leaves the state as it is. An enabled one merges its update as handleStateChange does. The screenshot and the frame are never changed. |
| PreviewCanvas.ControlsKeepContent | client/src/components/PreviewCanvas.tsx:19 | No control changes the screenshot or the frame, so the content condition is unchanged. |
| PreviewCanvas.NoContentOnlyBackground | client/src/components/PreviewCanvas.tsx:37-151 | Without content, every control except the swatches leaves the state unchanged, and the swatches change only the background. |
| PreviewCanvas.SlidersMoveOneAxis | client/src/components/PreviewCanvas.tsx:94-103 | The X slider sets x and keeps y, and the Y slider sets y and keeps x. Neither touches scale or background. |
| PreviewCanvas.ResetRecentres | client/src/components/PreviewCanvas.tsx:36 | Reset returns the screenshot to pan (0, 0) and scale 1 and keeps everything else. |
| PreviewCanvas.ControlsKeepSliderRange | client/src/components/PreviewCanvas.tsx:94-137 | Every control keeps a state whose offsets are within [-100, 100] and whose scale is within [0.1, 3] inside those ranges. |
| PreviewCanvas.ZoomInThenOut | client/src/components/PreviewCanvas.tsx:120-137 | With content and a scale in [0.1, 2.9], zoom-in followed by zoom-out restores the state. |
| PreviewCanvas.AutoFitLeavesSliderRange | client/src/components/PreviewCanvas.tsx:120-137 | The fit is not held to the slider range. A 10×10 upload on the default frame gets scale 28.4, and zoom-in drops it to 3. A 10000×10000 upload gets 0.0284, and zoom-out enlarges it to 0.1. |

## Left out

- `loadImageFromFile` (client/src/lib/canvas-utils.ts:1-14) reads the file and decodes it with browser callbacks. It is modelled only by its outcome: `Option<Image>`, a decoded image of positive size or a failure.
- `exportCanvasAsPNG` and `exportCanvas` are left out: blob, object URL and anchor-click I/O. So is `handleExport`, whose `useCanvas()` instance in home.tsx is never attached to a canvas.
- `createCanvas` and `getImageDimensions` are thin DOM wrappers and are left out.
- Gradients, colours and rasterisation are not computed. A canvas is a log of calls, and `Exec` says which shapes are painted under which clip, not which pixels. `clearRect` is treated as unclipped, the only case the compositor meets, since it clears before any clip is set. Translation is the only transform, the only one the compositor uses. Gradient coordinates are kept in the user space of the fill call.
- Numbers are `real`. IEEE rounding is not modelled: the scale after repeated zoom steps is exact here, but not in the browser. So are NaN and Infinity.
- CanvasUtils.RecommendDevice requires a non-zero image height. With height 0 the source divides to NaN or Infinity and returns the first entry; that case is not modelled.
- Toasts, JSX, the workflow step display and the other presentation components are left out: they hold no logic.
- The loading overlay (client/src/components/LoadingOverlay.tsx:15) is not modelled. While `isProcessing` holds it covers the whole page (`fixed inset-0 z-50`) and so blocks pointer input during an upload. An interleaving such as `Home.FrameChangedDuringUpload`, a frame change while the image loads, can then only come from the keyboard or another input path that reaches the device selector.
- The upload zone's inert styling and its disabled input while processing (`isProcessing`) are not modelled. `Home.HomePage.BeginUpload` can start a second upload while one runs.
- Home.HomePage.HandleFileSelect models an upload with no other event during the load. Interleavings are expressed by calling `BeginUpload`, other handlers, then `FinishUpload`.
- The preview re-draws the mockup whenever the state changes (client/src/components/PreviewCanvas.tsx:15-17). It does so on a canvas that is mounted only with content. This wiring is not modelled; `UseCanvas.DrawMockup` is.
- The "Zoom fit", move and add-background buttons have no handler in the source and are not modelled.
- A `Partial<CanvasState>` whose key is present but `undefined` would overwrite the field with `undefined`. Patches here only supply values, which is all the preview sends.
- The slider thumbs are clamped by the slider widget; the model takes slider values in their ranges as given.
- server/storage.ts and shared/schema.ts hold nothing the editor computes.
- Background swatches are not disabled without content, since the source gives them no `disabled` property. The model follows the code; every other control needs content.
