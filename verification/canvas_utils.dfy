/**
 * Geometry helpers of the editor: the uniform "contain" fit of an image into an area,
 * the aspect-ratio device recommendation, and the rounded-rectangle path.
 */
module CanvasUtils {
  import opened Wrappers
  import opened Canvas2D

  // ---------------------------------------------------------------------------
  // fitImageToArea

  /** The size an image takes when scaled uniformly by `scale`. */
  datatype Fitted = Fitted(width: real, height: real, scale: real)

  /** Math.min on numbers that are never NaN. */
  function Min(a: real, b: real): real
  {
    if a <= b then a else b
  }

  /**
   * Scales an image uniformly so that it fits inside the area ("contain"): the result never
   * overflows the area, fills it along at least one axis and keeps the image's proportions.
   */
  function FitImageToArea(imageWidth: real, imageHeight: real, areaWidth: real, areaHeight: real): (r: Fitted)
    requires imageWidth > 0.0 && imageHeight > 0.0
    ensures r.width == imageWidth * r.scale && r.height == imageHeight * r.scale
    ensures r.width <= areaWidth && r.height <= areaHeight
    ensures r.width == areaWidth || r.height == areaHeight
    ensures r.width * imageHeight == r.height * imageWidth
    ensures areaWidth > 0.0 && areaHeight > 0.0 ==> r.scale > 0.0
  {
    var scaleX := areaWidth / imageWidth;
    var scaleY := areaHeight / imageHeight;
    var scale := Min(scaleX, scaleY);
    Fitted(imageWidth * scale, imageHeight * scale, scale)
  }

  /** No uniform scale larger than the fitted one keeps the image inside the area. */
  lemma FitIsLargestContainingScale(imageWidth: real, imageHeight: real, areaWidth: real, areaHeight: real, s: real)
    requires imageWidth > 0.0 && imageHeight > 0.0
    requires imageWidth * s <= areaWidth && imageHeight * s <= areaHeight
    ensures s <= FitImageToArea(imageWidth, imageHeight, areaWidth, areaHeight).scale
  {
    var r := FitImageToArea(imageWidth, imageHeight, areaWidth, areaHeight);
    if r.width == areaWidth {
      assert imageWidth * s <= imageWidth * r.scale;
    } else {
      assert imageHeight * s <= imageHeight * r.scale;
    }
  }

  // ---------------------------------------------------------------------------
  // recommendDevice

  /** An entry of the recommendation table. */
  datatype DeviceProfile = DeviceProfile(name: string, aspectRatio: real, screenWidth: int, screenHeight: int)

  /** The table recommendDevice scans, in its order. */
  const Devices: seq<DeviceProfile> := [
    DeviceProfile("iPhone 14 Pro", 0.486, 393, 852),
    DeviceProfile("iPhone 15", 0.486, 393, 852),
    DeviceProfile("iPhone 12", 0.486, 390, 844),
    DeviceProfile("iPhone SE", 0.562, 375, 667)
  ]

  function Abs(x: real): real
  {
    if x < 0.0 then -x else x
  }

  /** How far an aspect ratio is from an entry's. */
  function Difference(aspect: real, d: DeviceProfile): real
  {
    Abs(aspect - d.aspectRatio)
  }

  /** Entry k is as close to `aspect` as any entry and strictly closer than every earlier one. */
  ghost predicate IsFirstClosest(aspect: real, k: int)
  {
    && 0 <= k < |Devices|
    && (forall j :: 0 <= j < |Devices| ==> Difference(aspect, Devices[k]) <= Difference(aspect, Devices[j]))
    && (forall j :: 0 <= j < k ==> Difference(aspect, Devices[k]) < Difference(aspect, Devices[j]))
  }

  /** At most one entry is the first closest one. */
  lemma FirstClosestIsUnique(aspect: real, k1: int, k2: int)
    requires IsFirstClosest(aspect, k1) && IsFirstClosest(aspect, k2)
    ensures k1 == k2
  {
  }

  /**
   * Only 'iPhone 14 Pro' and 'iPhone SE' can be chosen: 'iPhone 15' and 'iPhone 12' tie with
   * the earlier 'iPhone 14 Pro'. The SE wins exactly above the midpoint 0.524 of the two ratios.
   */
  lemma FirstClosestIsProOrSE(aspect: real, k: int)
    requires IsFirstClosest(aspect, k)
    ensures k == 0 || k == 3
    ensures k == 3 <==> aspect > 0.524
  {
    var d0 := Difference(aspect, Devices[0]);
    var d3 := Difference(aspect, Devices[3]);
    assert Difference(aspect, Devices[1]) == d0 && Difference(aspect, Devices[2]) == d0;
    if k == 1 || k == 2 {
      assert false;
    }
    if k == 0 {
      assert d0 <= d3;
    } else {
      assert d3 < d0;
    }
  }

  /** The name of the entry whose aspect ratio is closest to the image's; the first wins a tie. */
  method RecommendDevice(imageWidth: real, imageHeight: real) returns (name: string)
    requires imageHeight != 0.0
    ensures exists k :: IsFirstClosest(imageWidth / imageHeight, k) && name == Devices[k].name
    ensures name == "iPhone 14 Pro" || name == "iPhone SE"
    ensures name == "iPhone SE" <==> imageWidth / imageHeight > 0.524
  {
    var aspectRatio := imageWidth / imageHeight;
    var bestMatch := Devices[0];
    ghost var best := 0;
    var smallestDifference := Difference(aspectRatio, bestMatch);
    for i := 0 to |Devices|
      invariant 0 <= best < |Devices| && (best == 0 || best < i)
      invariant bestMatch == Devices[best]
      invariant smallestDifference == Difference(aspectRatio, bestMatch)
      invariant forall j :: 0 <= j < i ==> smallestDifference <= Difference(aspectRatio, Devices[j])
      invariant forall j :: 0 <= j < best ==> smallestDifference < Difference(aspectRatio, Devices[j])
    {
      var device := Devices[i];
      var difference := Difference(aspectRatio, device);
      if difference < smallestDifference {
        smallestDifference := difference;
        bestMatch := device;
        best := i;
      }
    }
    name := bestMatch.name;
    FirstClosestIsProOrSE(aspectRatio, best);
  }

  // ---------------------------------------------------------------------------
  // drawRoundedRect

  /** A rectangle with rounded corners, as passed to drawRoundedRect. */
  datatype RoundRect = RoundRect(x: real, y: real, width: real, height: real, radius: real)

  /** The same rectangle moved by (dx, dy). */
  function Shifted(rr: RoundRect, dx: real, dy: real): RoundRect
  {
    rr.(x := rr.x + dx, y := rr.y + dy)
  }

  /**
   * The outline drawRoundedRect traces after beginPath: start on the top edge, one arc per
   * corner going clockwise (top right, bottom right, bottom left, top left), then close.
   */
  function Outline(rr: RoundRect): seq<Cmd>
  {
    var left, top, right, bottom := rr.x, rr.y, rr.x + rr.width, rr.y + rr.height;
    [ MoveTo(left + rr.radius, top),
      ArcTo(right, top, right, bottom, rr.radius),
      ArcTo(right, bottom, left, bottom, rr.radius),
      ArcTo(left, bottom, left, top, rr.radius),
      ArcTo(left, top, right, top, rr.radius),
      ClosePath ]
  }

  /** The calls drawRoundedRect makes. */
  function RoundedRectPath(rr: RoundRect): seq<Cmd>
  {
    [BeginPath] + Outline(rr)
  }

  /** Recovers the rounded rectangle an outline traces, if it is one. */
  function OutlineOf(path: seq<Cmd>): (r: Option<RoundRect>)
    ensures r.Some? ==> Outline(r.value) == path
  {
    if |path| == 6 && path[2].ArcTo? && path[4].ArcTo? then
      var x, y := path[4].x1, path[4].y1;
      var rr := RoundRect(x, y, path[4].x2 - x, path[2].y1 - y, path[4].radius);
      if Outline(rr) == path then Some(rr) else None
    else
      None
  }

  /** Every rounded rectangle can be read back from its outline, so distinct ones trace distinct outlines. */
  lemma OutlineRoundTrip(rr: RoundRect)
    ensures OutlineOf(Outline(rr)) == Some(rr)
  {
  }

  /** The corners an outline's arcs turn at, in order. */
  function ArcCorners(path: seq<Cmd>): seq<(real, real)>
    decreases |path|
  {
    if path == [] then []
    else (if path[0].ArcTo? then [(path[0].x1, path[0].y1)] else []) + ArcCorners(path[1..])
  }

  /** Twice the signed area of a closed polygon (shoelace formula). */
  function ShoelaceSum(ps: seq<(real, real)>, first: (real, real)): real
    decreases |ps|
  {
    if |ps| == 0 then 0.0
    else
      var next := if |ps| == 1 then first else ps[1];
      ps[0].0 * next.1 - next.0 * ps[0].1 + ShoelaceSum(ps[1..], first)
  }

  /**
   * The outline turns at the four corners of the rectangle. Its shoelace sum, twice its signed
   * area, is 2 * width * height, so for a rectangle of positive width and height it runs
   * clockwise on the screen (y grows downwards).
   */
  lemma OutlineRunsClockwise(rr: RoundRect)
    ensures |ArcCorners(Outline(rr))| == 4
    ensures var c := ArcCorners(Outline(rr));
      ShoelaceSum(c, c[0]) == 2.0 * rr.width * rr.height
    ensures var c := ArcCorners(Outline(rr));
      rr.width > 0.0 && rr.height > 0.0 ==> ShoelaceSum(c, c[0]) > 0.0
  {
    var left, top, right, bottom := rr.x, rr.y, rr.x + rr.width, rr.y + rr.height;
    OutlineCorners(rr);
    ShoelaceOfQuad((right, top), (right, bottom), (left, bottom), (left, top));
    var sum := right * bottom - right * top + right * bottom - left * bottom
             + left * top - left * bottom + left * top - right * top;
    assert sum == 2.0 * (right - left) * (bottom - top);
  }

  /** The corners an outline turns at: top right, bottom right, bottom left, top left. */
  lemma OutlineCorners(rr: RoundRect)
    ensures ArcCorners(Outline(rr))
      == [(rr.x + rr.width, rr.y), (rr.x + rr.width, rr.y + rr.height), (rr.x, rr.y + rr.height), (rr.x, rr.y)]
  {
    var o := Outline(rr);
    var left, top, right, bottom := rr.x, rr.y, rr.x + rr.width, rr.y + rr.height;
    assert ArcCorners(o[5..]) == [] by { assert o[5..][1..] == []; }
    assert ArcCorners(o[4..]) == [(left, top)] by { assert o[4..][1..] == o[5..]; }
    assert ArcCorners(o[3..]) == [(left, bottom), (left, top)] by { assert o[3..][1..] == o[4..]; }
    assert ArcCorners(o[2..]) == [(right, bottom), (left, bottom), (left, top)] by { assert o[2..][1..] == o[3..]; }
    assert ArcCorners(o[1..]) == [(right, top), (right, bottom), (left, bottom), (left, top)] by { assert o[1..][1..] == o[2..]; }
  }

  /** The shoelace sum of a quadrilateral, written out. */
  lemma ShoelaceOfQuad(p0: (real, real), p1: (real, real), p2: (real, real), p3: (real, real))
    ensures ShoelaceSum([p0, p1, p2, p3], p0)
      == p0.0 * p1.1 - p1.0 * p0.1 + p1.0 * p2.1 - p2.0 * p1.1
       + p2.0 * p3.1 - p3.0 * p2.1 + p3.0 * p0.1 - p0.0 * p3.1
  {
    var c := [p0, p1, p2, p3];
    assert ShoelaceSum(c[4..], p0) == 0.0;
    assert ShoelaceSum(c[3..], p0) == p3.0 * p0.1 - p0.0 * p3.1 by { assert c[3..][1..] == c[4..]; }
    assert ShoelaceSum(c[2..], p0) == p2.0 * p3.1 - p3.0 * p2.1 + ShoelaceSum(c[3..], p0) by { assert c[2..][1..] == c[3..]; }
    assert ShoelaceSum(c[1..], p0) == p1.0 * p2.1 - p2.0 * p1.1 + ShoelaceSum(c[2..], p0) by { assert c[1..][1..] == c[2..]; }
  }

  /** drawRoundedRect: issues beginPath and the outline of the rounded rectangle. */
  method DrawRoundedRect(ctx: Canvas, x: real, y: real, width: real, height: real, radius: real)
    modifies ctx`log
    ensures ctx.log == old(ctx.log) + RoundedRectPath(RoundRect(x, y, width, height, radius))
  {
    ctx.Issue(BeginPath);
    ctx.Issue(MoveTo(x + radius, y));
    ctx.Issue(ArcTo(x + width, y, x + width, y + height, radius));
    ctx.Issue(ArcTo(x + width, y + height, x, y + height, radius));
    ctx.Issue(ArcTo(x, y + height, x, y, radius));
    ctx.Issue(ArcTo(x, y, x + width, y, radius));
    ctx.Issue(ClosePath);
  }

  /**
   * Drawing a rounded rectangle makes it the current path, moved by the context's
   * translation, and paints nothing.
   */
  lemma ExecRoundedRectPath(g: GState, rr: RoundRect)
    ensures Exec(g, RoundedRectPath(rr)) == (g.(path := Outline(Shifted(rr, g.tx, g.ty))), [])
  {
    var p := RoundedRectPath(rr);
    var g0 := g.(path := []);
    assert p[1..] == Outline(rr);
    assert Step(g, BeginPath) == (g0, []);
    ExecSegments(g0, Outline(rr));
    OutlineTranslates(rr, g.tx, g.ty);
    assert g0.path + TranslatedPath(Outline(rr), g.tx, g.ty) == Outline(Shifted(rr, g.tx, g.ty));
    assert Exec(g0, p[1..]).1 == [];
    assert Exec(g, p) == (Exec(g0, p[1..]).0, [] + Exec(g0, p[1..]).1);
  }

  /** Moving an outline point by point is tracing the moved rectangle. */
  lemma OutlineTranslates(rr: RoundRect, dx: real, dy: real)
    ensures TranslatedPath(Outline(rr), dx, dy) == Outline(Shifted(rr, dx, dy))
  {
    var o := Outline(rr);
    var t := Outline(Shifted(rr, dx, dy));
    assert TranslatedPath(o[5..], dx, dy) == t[5..] by { assert o[5..][1..] == []; }
    assert TranslatedPath(o[4..], dx, dy) == t[4..] by { assert o[4..][1..] == o[5..]; }
    assert TranslatedPath(o[3..], dx, dy) == t[3..] by { assert o[3..][1..] == o[4..]; }
    assert TranslatedPath(o[2..], dx, dy) == t[2..] by { assert o[2..][1..] == o[3..]; }
    assert TranslatedPath(o[1..], dx, dy) == t[1..] by { assert o[1..][1..] == o[2..]; }
  }
}
