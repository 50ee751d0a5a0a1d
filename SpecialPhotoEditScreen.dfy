/** The photo-edit screen of the special ("hyungyo") frame. Its slot row
    starts like the 4x6 edit screen's, but tapping a roll photo toggles it:
    a photo already placed is taken out of every slot, otherwise it goes
    into the first empty slot. Each filled region also carries one of four
    overlay images. */
module SpecialPhotoEditScreen {
  import opened Types
  import opened Seqs
  import opened PhotoUtils
  import opened FrameRegions
  import opened PhotoEditScreen

  const SpecialFrameId := "special_frame"
  const HyungyoTheme := "hyungyo"

  /** Some slot holds a photo with this URI (`some(p => p && p.uri === uri)`). */
  predicate HasUri(slots: Row, uri: string) {
    exists k :: 0 <= k < |slots| && slots[k].Some? && slots[k].value.uri == uri
  }

  /** `map(p => p && p.uri === uri ? null : p)`: afterwards no slot shows
      the URI, and every other slot is unchanged. */
  function ClearUri(slots: Row, uri: string): (r: Row)
    ensures |r| == |slots|
    ensures forall k :: 0 <= k < |r| && r[k].Some? ==> r[k].value.uri != uri
    ensures forall k :: 0 <= k < |slots| ==>
      r[k] == if slots[k].Some? && slots[k].value.uri == uri then None else slots[k]
  {
    seq(|slots|, k requires 0 <= k < |slots| =>
      if slots[k].Some? && slots[k].value.uri == uri then None else slots[k])
  }

  /** `handlePhotoSelect` of the special screen. */
  function TogglePhoto(slots: Row, p: PickedPhoto): (r: Row)
    ensures |r| == |slots|
  {
    if HasUri(slots, p.uri) then ClearUri(slots, p.uri) else PlaceInFirstEmpty(slots, p)
  }

  /** A placed photo is taken out of every slot and nothing else moves; an
      absent one fills the first empty slot, or nothing happens on a full
      row. */
  lemma TogglePhotoSpec(slots: Row, p: PickedPhoto)
    ensures HasUri(slots, p.uri) ==>
      && !HasUri(TogglePhoto(slots, p), p.uri)
      && forall k :: 0 <= k < |slots| && !(slots[k].Some? && slots[k].value.uri == p.uri) ==> TogglePhoto(slots, p)[k] == slots[k]
    ensures !HasUri(slots, p.uri) && !IsPhotoArrayFull(slots) ==>
      HasUri(TogglePhoto(slots, p), p.uri) && TogglePhoto(slots, p)[FindEmptySlot(slots)] == Some(SlotPhoto(p.id, p.uri, FindEmptySlot(slots)))
    ensures !HasUri(slots, p.uri) && IsPhotoArrayFull(slots) ==> TogglePhoto(slots, p) == slots
  {
    if !HasUri(slots, p.uri) && !IsPhotoArrayFull(slots) {
      var k := FindEmptySlot(slots);
      assert TogglePhoto(slots, p)[k].Some? && TogglePhoto(slots, p)[k].value.uri == p.uri;
    }
  }

  /** Toggling an absent photo into a row with room and toggling it again
      gives back the row. */
  lemma ToggleTwiceRestores(slots: Row, p: PickedPhoto)
    requires !HasUri(slots, p.uri) && !IsPhotoArrayFull(slots)
    ensures TogglePhoto(TogglePhoto(slots, p), p) == slots
  {
    var once := TogglePhoto(slots, p);
    TogglePhotoSpec(slots, p);
    var twice := TogglePhoto(once, p);
    var k := FindEmptySlot(slots);
    forall j | 0 <= j < |slots| ensures twice[j] == slots[j] {
      if j != k {
        assert !(slots[j].Some? && slots[j].value.uri == p.uri);
      }
    }
  }

  /** No two filled slots hold the same URI. */
  predicate DistinctUris(slots: Row) {
    forall i, j :: 0 <= i < |slots| && 0 <= j < |slots| && i != j && slots[i].Some? && slots[j].Some?
      ==> slots[i].value.uri != slots[j].value.uri
  }

  /** The toggle never puts one photo in two slots. */
  lemma TogglePhotoKeepsUrisDistinct(slots: Row, p: PickedPhoto)
    requires DistinctUris(slots)
    ensures DistinctUris(TogglePhoto(slots, p))
  {
    var r := TogglePhoto(slots, p);
    if !HasUri(slots, p.uri) {
      var k := FindEmptySlot(slots);
      forall i, j | 0 <= i < |r| && 0 <= j < |r| && i != j && r[i].Some? && r[j].Some?
        ensures r[i].value.uri != r[j].value.uri
      {
        if i == k {
          assert r[j] == slots[j];
        } else if j == k {
          assert r[i] == slots[i];
        }
      }
    }
  }

  /** `getHyungyoOverlay(index)`: overlay images are numbered 1 to 4; an index
      outside 0..3 falls back to the first. */
  function HyungyoOverlay(index: int): (n: int)
    ensures 1 <= n <= 4
    ensures 0 <= index < 4 ==> n == index + 1
    ensures !(0 <= index < 4) ==> n == 1
  {
    var overlays := [1, 2, 3, 4];
    if 0 <= index < |overlays| then overlays[index] else overlays[0]
  }

  /** The screen's state: the slot row and the measured frame box. */
  class Screen {
    const photos: seq<string>
    const template: Template
    var selectedPhotos: Row
    var frameLayout: Layout

    predicate Valid()
      reads this
    {
      |selectedPhotos| == SlotCount && template.totalWidth > 0.0 && template.totalHeight > 0.0
    }

    /** `template` holds the special frame's total size and the hyungyo
        regions. */
    constructor (roll: seq<string>, hyungyo: Template)
      requires hyungyo.totalWidth > 0.0 && hyungyo.totalHeight > 0.0
      ensures Valid() && photos == roll && template == hyungyo
      ensures selectedPhotos == EmptySlots() && frameLayout == Unmeasured
    {
      photos := roll;
      template := hyungyo;
      selectedPhotos := EmptySlots();
      frameLayout := Unmeasured;
    }

    method InitialisePhotos()
      requires Valid()
      modifies this
      ensures Valid() && selectedPhotos == InitialiseSlots(old(selectedPhotos), photos)
      ensures frameLayout == old(frameLayout)
    {
      if |photos| > 0 {
        var initial := selectedPhotos;
        var k := 0;
        while k < SlotCount && k < |photos|
          invariant 0 <= k <= SlotCount && k <= |photos| && |initial| == SlotCount
          invariant forall j :: 0 <= j < SlotCount ==>
            initial[j] == if j < k then Some(SlotPhoto(RollId(j), photos[j], j)) else old(selectedPhotos)[j]
        {
          initial := initial[k := Some(SlotPhoto(RollId(k), photos[k], k))];
          k := k + 1;
        }
        selectedPhotos := initial;
      }
    }

    method HandlePhotoPress(index: int)
      requires Valid() && 0 <= index < SlotCount
      modifies this
      ensures Valid() && selectedPhotos == ClearSlot(old(selectedPhotos), index) && frameLayout == old(frameLayout)
    {
      selectedPhotos := selectedPhotos[index := None];
    }

    /** The picker's tap on roll photo `index`. */
    method HandlePhotoSelect(index: int)
      requires Valid() && 0 <= index < |photos|
      modifies this
      ensures Valid() && selectedPhotos == TogglePhoto(old(selectedPhotos), Pick(photos, index))
      ensures frameLayout == old(frameLayout)
    {
      var p := Pick(photos, index);
      if HasUri(selectedPhotos, p.uri) {
        selectedPhotos := ClearUri(selectedPhotos, p.uri);
      } else {
        var k := FindEmptySlot(selectedPhotos);
        if k != -1 {
          selectedPhotos := selectedPhotos[k := Some(SlotPhoto(p.id, p.uri, k))];
        }
      }
    }

    method OnFrameLayout(layout: Layout)
      requires Valid()
      modifies this
      ensures Valid() && frameLayout == layout && selectedPhotos == old(selectedPhotos)
    {
      frameLayout := layout;
    }

    /** `handleNext`: the special frame and the hyungyo theme. */
    method HandleNext() returns (route: Option<NextRoute>)
      requires Valid()
      ensures route.Some? <==> IsPhotoArrayFull(selectedPhotos)
      ensures route.Some? ==>
        && route.value.selectedFrame == SpecialFrameId && route.value.selectedTheme == Some(HyungyoTheme)
        && |route.value.photos| == SlotCount
        && forall k :: 0 <= k < SlotCount ==> route.value.photos[k] == selectedPhotos[k].value.uri
    {
      NextNeedsFullRow(selectedPhotos, SpecialFrameId, Some(HyungyoTheme));
      route := Next(selectedPhotos, SpecialFrameId, Some(HyungyoTheme));
    }

    /** The overlay drawn over each rendered region: the overlay for the
        region's position when it shows a photo. */
    function RegionOverlays(): (r: seq<Option<int>>)
      reads this
      requires Valid()
      ensures var placed := PlaceByPosition(frameLayout, template, selectedPhotos);
        |r| == |placed| && forall i :: 0 <= i < |r| ==>
          (r[i].Some? <==> placed[i].photo.Some?) && (r[i].Some? ==> r[i].value == HyungyoOverlay(template.regions[i].position))
    {
      var placed := PlaceByPosition(frameLayout, template, selectedPhotos);
      seq(|placed|, i requires 0 <= i < |placed| =>
        if placed[i].photo.Some? then Some(HyungyoOverlay(template.regions[i].position)) else None)
    }
  }
}
