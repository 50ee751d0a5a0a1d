/** The photo regions of a frame image: templates as read from the region
    JSON files (passed in, since the files are not part of this model), the
    linear scaling of a region into the box the frame was rendered in, and
    the two ways the screens bind photos to regions. Arithmetic is on exact
    reals. */
module FrameRegions {
  import opened Types

  /** One photo window of a template, in template pixels; `position` is the
      slot it shows. */
  datatype Region = Region(id: string, name: string, x: real, y: real, width: real, height: real, position: int)

  /** A frame template: its total size and its regions in file order. */
  datatype Template = Template(totalWidth: real, totalHeight: real, regions: seq<Region>)

  /** The measured render box (`onLayout`); zero until measured. */
  datatype Layout = Layout(width: real, height: real, x: real, y: real)

  const Unmeasured := Layout(0.0, 0.0, 0.0, 0.0)

  datatype Rect = Rect(x: real, y: real, width: real, height: real)

  /** A rendered region: where it goes and what it shows (`None` is the empty
      placeholder). */
  datatype Placement<T> = Placement(rect: Rect, photo: Option<T>)

  /** `getScaledRegion`: x and width scale by `boxWidth / totalWidth`, y and
      height by `boxHeight / totalHeight`, independently. */
  function ScaleRegion(boxWidth: real, boxHeight: real, totalWidth: real, totalHeight: real, region: Region): (r: Rect)
    requires totalWidth > 0.0 && totalHeight > 0.0
    ensures r.x * totalWidth == region.x * boxWidth && r.width * totalWidth == region.width * boxWidth
    ensures r.y * totalHeight == region.y * boxHeight && r.height * totalHeight == region.height * boxHeight
  {
    var scaleX := boxWidth / totalWidth;
    var scaleY := boxHeight / totalHeight;
    Rect(region.x * scaleX, region.y * scaleY, region.width * scaleX, region.height * scaleY)
  }

  /** A box of the template's own size leaves the region as it is. */
  lemma ScaleToOwnSizeIsIdentity(t: Template, region: Region)
    requires t.totalWidth > 0.0 && t.totalHeight > 0.0
    ensures ScaleRegion(t.totalWidth, t.totalHeight, t.totalWidth, t.totalHeight, region)
         == Rect(region.x, region.y, region.width, region.height)
  {
  }

  /** Scaling into a measured box and back again gives the template
      rectangle. */
  lemma ScaleRoundTrip(boxWidth: real, boxHeight: real, totalWidth: real, totalHeight: real, region: Region)
    requires totalWidth > 0.0 && totalHeight > 0.0 && boxWidth > 0.0 && boxHeight > 0.0
    ensures var r := ScaleRegion(boxWidth, boxHeight, totalWidth, totalHeight, region);
      var back := ScaleRegion(totalWidth, totalHeight, boxWidth, boxHeight,
                              Region(region.id, region.name, r.x, r.y, r.width, r.height, region.position));
      back == Rect(region.x, region.y, region.width, region.height)
  {
    var r := ScaleRegion(boxWidth, boxHeight, totalWidth, totalHeight, region);
    var back := ScaleRegion(totalWidth, totalHeight, boxWidth, boxHeight,
                            Region(region.id, region.name, r.x, r.y, r.width, r.height, region.position));
    assert back.x * boxWidth * totalWidth == region.x * boxWidth * totalWidth;
    assert back.width * boxWidth * totalWidth == region.width * boxWidth * totalWidth;
    assert back.y * boxHeight * totalHeight == region.y * boxHeight * totalHeight;
    assert back.height * boxHeight * totalHeight == region.height * boxHeight * totalHeight;
  }

  /** A region inside its template lands inside the box. */
  lemma ScaledRegionStaysInBox(boxWidth: real, boxHeight: real, totalWidth: real, totalHeight: real, region: Region)
    requires totalWidth > 0.0 && totalHeight > 0.0 && boxWidth >= 0.0 && boxHeight >= 0.0
    requires 0.0 <= region.x && 0.0 <= region.width && region.x + region.width <= totalWidth
    requires 0.0 <= region.y && 0.0 <= region.height && region.y + region.height <= totalHeight
    ensures var r := ScaleRegion(boxWidth, boxHeight, totalWidth, totalHeight, region);
      && 0.0 <= r.x && 0.0 <= r.width && r.x + r.width <= boxWidth
      && 0.0 <= r.y && 0.0 <= r.height && r.y + r.height <= boxHeight
  {
    var sx := boxWidth / totalWidth;
    var sy := boxHeight / totalHeight;
    assert sx >= 0.0 && sy >= 0.0;
    assert (region.x + region.width) * sx <= totalWidth * sx;
    assert (region.y + region.height) * sy <= totalHeight * sy;
  }

  /** `slots[position]` read as JavaScript does: an index outside the array
      yields nothing. */
  function SlotAt<T>(slots: seq<Option<T>>, i: int): (r: Option<T>)
    ensures r.Some? ==> 0 <= i < |slots| && slots[i] == r
    ensures 0 <= i < |slots| ==> r == slots[i]
  {
    if 0 <= i < |slots| then slots[i] else None
  }

  /** A list of URIs as slots: an empty URI is falsy and shows the
      placeholder. */
  function UriSlots(photos: seq<string>): (r: seq<Option<string>>)
    ensures |r| == |photos|
    ensures forall i :: 0 <= i < |photos| ==> r[i] == if photos[i] == "" then None else Some(photos[i])
  {
    seq(|photos|, i requires 0 <= i < |photos| => if photos[i] == "" then None else Some(photos[i]))
  }

  /** The edit and theme screens: nothing until the box is measured, then
      every region scaled into the box, showing the slot its `position`
      names. */
  function PlaceByPosition<T>(layout: Layout, t: Template, slots: seq<Option<T>>): (r: seq<Placement<T>>)
    requires t.totalWidth > 0.0 && t.totalHeight > 0.0
    ensures !(layout.width > 0.0 && layout.height > 0.0) ==> r == []
    ensures layout.width > 0.0 && layout.height > 0.0 ==> |r| == |t.regions|
    ensures forall i :: 0 <= i < |r| ==>
      && r[i].rect == ScaleRegion(layout.width, layout.height, t.totalWidth, t.totalHeight, t.regions[i])
      && r[i].photo == SlotAt(slots, t.regions[i].position)
  {
    if layout.width > 0.0 && layout.height > 0.0 then
      seq(|t.regions|, i requires 0 <= i < |t.regions| =>
        Placement(ScaleRegion(layout.width, layout.height, t.totalWidth, t.totalHeight, t.regions[i]),
                  SlotAt(slots, t.regions[i].position)))
    else []
  }

  /** The preview box of the preview screen. */
  const PreviewWidth: real := 501.0
  const PreviewHeight: real := 752.0

  /** The preview screen: always every region, placed in the fixed 501 x 752
      box, the i-th region showing the i-th URI. */
  function PlaceByIndex(t: Template, photos: seq<string>): (r: seq<Placement<string>>)
    requires t.totalWidth > 0.0 && t.totalHeight > 0.0
    ensures |r| == |t.regions|
    ensures forall i :: 0 <= i < |r| ==>
      && r[i].rect.x == t.regions[i].x / t.totalWidth * PreviewWidth
      && r[i].rect.y == t.regions[i].y / t.totalHeight * PreviewHeight
      && r[i].rect.width == t.regions[i].width / t.totalWidth * PreviewWidth
      && r[i].rect.height == t.regions[i].height / t.totalHeight * PreviewHeight
      && r[i].photo == SlotAt(UriSlots(photos), i)
  {
    seq(|t.regions|, i requires 0 <= i < |t.regions| =>
      Placement(ScaleRegion(PreviewWidth, PreviewHeight, t.totalWidth, t.totalHeight, t.regions[i]),
                SlotAt(UriSlots(photos), i)))
  }

  /** When every region's position is its own index, the two bindings show
      the same photos in the same place. */
  lemma BindingsAgreeOnIdentityPositions(t: Template, photos: seq<string>)
    requires t.totalWidth > 0.0 && t.totalHeight > 0.0
    requires forall i :: 0 <= i < |t.regions| ==> t.regions[i].position == i
    ensures PlaceByPosition(Layout(PreviewWidth, PreviewHeight, 0.0, 0.0), t, UriSlots(photos)) == PlaceByIndex(t, photos)
  {
  }

  /** A template that lists its regions in a different order from their
      positions: the preview shows a different photo in the first region
      than the edit screen does. */
  lemma BindingsDifferOnReorderedRegions()
    ensures var t := Template(2.0, 1.0, [Region("r0", "left", 0.0, 0.0, 1.0, 1.0, 1),
                                         Region("r1", "right", 1.0, 0.0, 1.0, 1.0, 0)]);
      && PlaceByPosition(Layout(PreviewWidth, PreviewHeight, 0.0, 0.0), t, UriSlots(["a", "b"]))[0].photo == Some("b")
      && PlaceByIndex(t, ["a", "b"])[0].photo == Some("a")
  {
    var t := Template(2.0, 1.0, [Region("r0", "left", 0.0, 0.0, 1.0, 1.0, 1),
                                 Region("r1", "right", 1.0, 0.0, 1.0, 1.0, 0)]);
    var slots := UriSlots(["a", "b"]);
    assert slots[1] == Some("b") && slots[0] == Some("a");
  }
}
