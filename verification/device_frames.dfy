/** The catalogue of device frames: constant geometry, in pixels, of four phone bezels. */
module DeviceFrames {
  import opened Wrappers

  datatype Size = Size(width: int, height: int)

  datatype Rect = Rect(x: int, y: int, width: int, height: int)

  /** A device frame template; the optional rectangles are decorations drawn over the screen. */
  datatype DeviceFrame = DeviceFrame(
    id: string,
    name: string,
    displayName: string,
    dimensions: Size,
    screenArea: Rect,
    frameColor: string,
    cornerRadius: int,
    hasNotch: bool,
    hasDynamicIsland: bool,
    homeIndicator: Option<Rect>,
    notch: Option<Rect>,
    dynamicIsland: Option<Rect>)

  /** The catalogue, in display order. */
  const Catalogue: seq<DeviceFrame> := [
    DeviceFrame("iphone-14-pro", "iPhone 14 Pro", "iPhone 14 Pro", Size(300, 600), Rect(8, 8, 284, 584),
      "#1f2937", 24, false, true, Some(Rect(134, 588, 32, 4)), None, Some(Rect(120, 16, 60, 20))),
    DeviceFrame("iphone-15", "iPhone 15", "iPhone 15", Size(300, 600), Rect(8, 8, 284, 584),
      "#1f2937", 24, false, true, Some(Rect(134, 588, 32, 4)), None, Some(Rect(120, 16, 60, 20))),
    DeviceFrame("iphone-se", "iPhone SE", "iPhone SE", Size(280, 560), Rect(8, 60, 264, 440),
      "#1f2937", 16, false, false, None, None, None),
    DeviceFrame("iphone-12", "iPhone 12", "iPhone 12", Size(300, 600), Rect(8, 8, 284, 584),
      "#1f2937", 24, true, false, Some(Rect(134, 588, 32, 4)), Some(Rect(130, 8, 40, 16)), None)
  ]

  /** The frame the editor starts with. */
  const DefaultFrame := Catalogue[1]

  /** `inner` lies within the box `outer` (the box given by its position and size). */
  predicate Within(inner: Rect, outer: Rect)
  {
    outer.x <= inner.x && inner.x + inner.width <= outer.x + outer.width &&
    outer.y <= inner.y && inner.y + inner.height <= outer.y + outer.height
  }

  /** A rectangle whose vertical centre line is the frame's. */
  predicate CentredIn(r: Rect, frameWidth: int)
  {
    2 * r.x + r.width == frameWidth
  }

  /** An optional decoration lies inside the screen and is centred on the frame. */
  predicate DecorationFits(d: Option<Rect>, f: DeviceFrame)
  {
    d.Some? ==> Within(d.value, f.screenArea) && CentredIn(d.value, f.dimensions.width)
  }

  /**
   * What every frame of the catalogue satisfies: its screen lies inside its outer bounds, its
   * decorations inside the screen and centred, its flags agree with the decorations present,
   * its home indicator sits on the bottom edge of the screen, and its corner radius leaves a
   * positive radius for the screen clip (cornerRadius - 4).
   */
  predicate WellFormed(f: DeviceFrame)
  {
    && f.screenArea.width > 0 && f.screenArea.height > 0
    && Within(f.screenArea, Rect(0, 0, f.dimensions.width, f.dimensions.height))
    && DecorationFits(f.homeIndicator, f)
    && DecorationFits(f.notch, f)
    && DecorationFits(f.dynamicIsland, f)
    && (f.hasNotch <==> f.notch.Some?)
    && (f.hasDynamicIsland <==> f.dynamicIsland.Some?)
    && (f.homeIndicator.Some? ==>
          f.homeIndicator.value.y + f.homeIndicator.value.height == f.screenArea.y + f.screenArea.height)
    && f.cornerRadius > 4
  }

  /** The catalogue has four well-formed frames with distinct ids; the default is the iPhone 15. */
  lemma CatalogueIsWellFormed()
    ensures |Catalogue| == 4
    ensures forall i :: 0 <= i < |Catalogue| ==> WellFormed(Catalogue[i])
    ensures forall i, j :: 0 <= i < j < |Catalogue| ==> Catalogue[i].id != Catalogue[j].id
    ensures DefaultFrame.id == "iphone-15"
  {
    forall i | 0 <= i < |Catalogue|
      ensures WellFormed(Catalogue[i])
    {
      if i == 0 {
        assert WellFormed(Catalogue[0]);
      } else if i == 1 {
        assert WellFormed(Catalogue[1]);
      } else if i == 2 {
        assert WellFormed(Catalogue[2]);
      } else {
        assert WellFormed(Catalogue[3]);
      }
    }
  }

  /** Every home indicator in the catalogue ends at the screen's bottom edge, y = 592. */
  lemma HomeIndicatorsEndAtScreenBottom(i: int)
    requires 0 <= i < |Catalogue| && Catalogue[i].homeIndicator.Some?
    ensures Catalogue[i].homeIndicator.value.y + Catalogue[i].homeIndicator.value.height == 592
  {
  }
}
