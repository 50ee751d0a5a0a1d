/** The photo-edit screen: the user places captured photos into the four
    slots of a 4x6 frame. Slot handlers replace the slot row; the frame's
    regions show the slot their `position` names once the frame has been
    measured. Navigation is the value `handleNext` would navigate with. */
module PhotoEditScreen {
  import opened Types
  import opened Seqs
  import opened Strings
  import opened PhotoUtils
  import opened FrameRegions

  const SlotCount := 4

  /** A photo placed in a slot; `position` is the slot it was put in. */
  datatype SlotPhoto = SlotPhoto(id: string, uri: string, position: int)

  /** A photo of the capture roll as the picker hands it over. */
  datatype PickedPhoto = PickedPhoto(id: string, uri: string)

  /** The parameters `handleNext` navigates to the preview with. */
  datatype NextRoute = NextRoute(photos: seq<string>, selectedFrame: string, selectedTheme: Option<string>)

  type Row = seq<Option<SlotPhoto>>

  /** `Array(4).fill(null)`. */
  function EmptySlots(): (r: Row)
    ensures |r| == SlotCount && forall k :: 0 <= k < SlotCount ==> r[k].None?
  {
    [None, None, None, None]
  }

  /** The id the picker gives the photo at `index` of the roll. */
  function RollId(index: int): (id: string)
    ensures StartsWith(id, "photo_") && id[6..] == IntToDecimal(index)
  {
    "photo_" + IntToDecimal(index)
  }

  /** The picker's `{ id: photo_<index>, uri }`. */
  function Pick(photos: seq<string>, index: int): (p: PickedPhoto)
    requires 0 <= index < |photos|
    ensures p.uri == photos[index] && p.id == RollId(index)
  {
    PickedPhoto(RollId(index), photos[index])
  }

  /** The mount effect: with a non-empty roll, slot k < 4 takes roll photo k
      at position k; slots past the roll's end keep what they had. */
  function InitialiseSlots(slots: Row, photos: seq<string>): (r: Row)
    requires |slots| == SlotCount
    ensures |r| == SlotCount
    ensures forall k :: 0 <= k < SlotCount ==>
      r[k] == if k < |photos| then Some(SlotPhoto(RollId(k), photos[k], k)) else slots[k]
  {
    if |photos| > 0 then
      seq(SlotCount, k requires 0 <= k < SlotCount =>
        if k < |photos| then Some(SlotPhoto(RollId(k), photos[k], k)) else slots[k])
    else slots
  }

  /** Every placed photo's `position` is its slot. */
  predicate PositionsMatchSlots(slots: Row) {
    forall k :: 0 <= k < |slots| && slots[k].Some? ==> slots[k].value.position == k
  }

  /** `handlePhotoSelect` of the edit screen: the photo goes into the first
      empty slot with that slot as its position; a full row stays as it is
      (the screen shows an alert). */
  function PlaceInFirstEmpty(slots: Row, p: PickedPhoto): (r: Row)
    ensures |r| == |slots|
    ensures FindEmptySlot(slots) == -1 ==> r == slots
    ensures var k := FindEmptySlot(slots);
      k >= 0 ==> r[k] == Some(SlotPhoto(p.id, p.uri, k)) && forall j :: 0 <= j < |slots| && j != k ==> r[j] == slots[j]
  {
    var k := FindEmptySlot(slots);
    if k == -1 then slots else slots[k := Some(SlotPhoto(p.id, p.uri, k))]
  }

  /** Placing fills exactly one more slot unless the row is full, and keeps
      positions matching slots. */
  lemma PlaceInFirstEmptyCounts(slots: Row, p: PickedPhoto)
    ensures IsPhotoArrayFull(slots) ==> CountFilled(PlaceInFirstEmpty(slots, p)) == CountFilled(slots)
    ensures !IsPhotoArrayFull(slots) ==> CountFilled(PlaceInFirstEmpty(slots, p)) == CountFilled(slots) + 1
    ensures PositionsMatchSlots(slots) ==> PositionsMatchSlots(PlaceInFirstEmpty(slots, p))
  {
    var r := PlaceInFirstEmpty(slots, p);
    var k := FindEmptySlot(slots);
    CountFilledByMultiset(slots);
    CountFilledByMultiset(r);
    if k >= 0 {
      assert r == slots[k := Some(SlotPhoto(p.id, p.uri, k))];
      assert multiset(r) == multiset(slots) - multiset{None} + multiset{r[k]} by {
        UpdateMultiset(slots, k, r[k]);
      }
    }
  }

  lemma UpdateMultiset<T>(s: seq<T>, k: int, x: T)
    requires 0 <= k < |s|
    ensures multiset(s[k := x]) == multiset(s) - multiset{s[k]} + multiset{x}
  {
    assert s == s[..k] + [s[k]] + s[k + 1..];
    assert s[k := x] == s[..k] + [x] + s[k + 1..];
  }

  /** The edit screen does not look for the photo before placing it: picking
      the same photo twice fills two slots with it. */
  lemma SamePhotoTwiceFillsTwoSlots(p: PickedPhoto)
    ensures var r := PlaceInFirstEmpty(PlaceInFirstEmpty(EmptySlots(), p), p);
      r[0] == Some(SlotPhoto(p.id, p.uri, 0)) && r[1] == Some(SlotPhoto(p.id, p.uri, 1))
  {
    var once := PlaceInFirstEmpty(EmptySlots(), p);
    assert FindEmptySlot(EmptySlots()) == 0;
    assert once[0].Some? && once[1].None?;
    assert FindEmptySlot(once) == 1;
  }

  /** `handlePhotoPress` / `handlePhotoRemove`: the slot is emptied. */
  function ClearSlot(slots: Row, index: int): (r: Row)
    requires 0 <= index < |slots|
    ensures |r| == |slots| && r[index].None?
    ensures forall j :: 0 <= j < |slots| && j != index ==> r[j] == slots[j]
  {
    slots[index := None]
  }

  /** Clearing a filled slot removes one photo; clearing an empty one
      changes nothing. */
  lemma ClearSlotCounts(slots: Row, index: int)
    requires 0 <= index < |slots|
    ensures slots[index].Some? ==> CountFilled(ClearSlot(slots, index)) + 1 == CountFilled(slots)
    ensures slots[index].None? ==> ClearSlot(slots, index) == slots
  {
    CountFilledByMultiset(slots);
    CountFilledByMultiset(ClearSlot(slots, index));
    UpdateMultiset(slots, index, None);
  }

  /** Clearing the slot a photo was just placed into undoes the placing. */
  lemma ClearUndoesPlace(slots: Row, p: PickedPhoto)
    requires !IsPhotoArrayFull(slots)
    ensures 0 <= FindEmptySlot(slots) < |slots|
    ensures ClearSlot(PlaceInFirstEmpty(slots, p), FindEmptySlot(slots)) == slots
  {
  }

  /** `selectedFrame || 'default'`. */
  function FrameOrDefault(selectedFrame: Option<string>): (f: string)
    ensures f != ""
    ensures selectedFrame.Some? && selectedFrame.value != "" ==> f == selectedFrame.value
    ensures !(selectedFrame.Some? && selectedFrame.value != "") ==> f == "default"
  {
    if selectedFrame.Some? && selectedFrame.value != "" then selectedFrame.value else "default"
  }

  function Uris(photos: seq<SlotPhoto>): (r: seq<string>)
    ensures |r| == |photos| && forall i :: 0 <= i < |photos| ==> r[i] == photos[i].uri
  {
    seq(|photos|, i requires 0 <= i < |photos| => photos[i].uri)
  }

  /** `handleNext`: with fewer than four placed photos nothing happens (an
      alert); otherwise the URIs of the placed photos, in slot order. */
  function Next(slots: Row, selectedFrame: string, selectedTheme: Option<string>): (r: Option<NextRoute>)
    ensures r.Some? ==> r.value.selectedFrame == selectedFrame && r.value.selectedTheme == selectedTheme
  {
    var filled := GetSelectedPhotos(slots);
    if |filled| < SlotCount then None
    else Some(NextRoute(Uris(filled), selectedFrame, selectedTheme))
  }

  /** On a row of four, "next" goes through exactly when every slot is
      filled, and then passes the four URIs in slot order. */
  lemma NextNeedsFullRow(slots: Row, selectedFrame: string, selectedTheme: Option<string>)
    requires |slots| == SlotCount
    ensures Next(slots, selectedFrame, selectedTheme).Some? <==> IsPhotoArrayFull(slots)
    ensures IsPhotoArrayFull(slots) ==>
      var photos := Next(slots, selectedFrame, selectedTheme).value.photos;
      |photos| == SlotCount && forall k :: 0 <= k < SlotCount ==> photos[k] == slots[k].value.uri
  {
    CountFilledIsLengthIffFull(slots);
    if IsPhotoArrayFull(slots) {
      FullSlotsSelected(slots);
    }
  }

  /** `isAllPhotosPlaced` (every slot filled) and `selectedCount === 4`
      agree. */
  lemma AllPlacedIffFourSelected(slots: Row)
    requires |slots| == SlotCount
    ensures IsPhotoArrayFull(slots) <==> CountFilled(slots) == SlotCount
  {
    CountFilledIsLengthIffFull(slots);
  }

  /** The badge on a roll photo: one more than the first slot holding its
      URI, shown only when some slot holds it. */
  function BadgeNumber(slots: Row, uri: string): (r: Option<int>)
    ensures r.Some? <==> exists k :: 0 <= k < |slots| && slots[k].Some? && slots[k].value.uri == uri
    ensures r.Some? ==>
      && 1 <= r.value <= |slots| && slots[r.value - 1].Some? && slots[r.value - 1].value.uri == uri
      && forall k :: 0 <= k < r.value - 1 ==> !(slots[k].Some? && slots[k].value.uri == uri)
  {
    var i := FindIndex(slots, (p: Option<SlotPhoto>) => p.Some? && p.value.uri == uri);
    if i == -1 then None else Some(i + 1)
  }

  /** The screen's state: the slot row and the measured frame box. */
  class Screen {
    const photos: seq<string>
    const selectedFrame: Option<string>
    const template: Template
    var selectedPhotos: Row
    var frameLayout: Layout

    predicate Valid()
      reads this
    {
      |selectedPhotos| == SlotCount && template.totalWidth > 0.0 && template.totalHeight > 0.0
    }

    constructor (roll: seq<string>, frame: Option<string>, frame4x6: Template)
      requires frame4x6.totalWidth > 0.0 && frame4x6.totalHeight > 0.0
      ensures Valid() && photos == roll && selectedFrame == frame && template == frame4x6
      ensures selectedPhotos == EmptySlots() && frameLayout == Unmeasured
    {
      photos := roll;
      selectedFrame := frame;
      template := frame4x6;
      selectedPhotos := EmptySlots();
      frameLayout := Unmeasured;
    }

    /** The effect that runs when the roll arrives. */
    method InitialisePhotos()
      requires Valid()
      modifies this
      ensures Valid() && selectedPhotos == InitialiseSlots(old(selectedPhotos), photos)
      ensures frameLayout == old(frameLayout)
    {
      if |photos| > 0 {
        var initial := selectedPhotos;
        var k := 0;
        while k < SlotCount && k < |photos|
          invariant 0 <= k <= SlotCount && k <= |photos| && |initial| == SlotCount
          invariant forall j :: 0 <= j < SlotCount ==>
            initial[j] == if j < k then Some(SlotPhoto(RollId(j), photos[j], j)) else old(selectedPhotos)[j]
        {
          initial := initial[k := Some(SlotPhoto(RollId(k), photos[k], k))];
          k := k + 1;
        }
        selectedPhotos := initial;
      }
    }

    method HandlePhotoPress(index: int)
      requires Valid() && 0 <= index < SlotCount
      modifies this
      ensures Valid() && selectedPhotos == ClearSlot(old(selectedPhotos), index) && frameLayout == old(frameLayout)
    {
      selectedPhotos := selectedPhotos[index := None];
    }

    /** The picker's tap on roll photo `index`. */
    method HandlePhotoSelect(index: int)
      requires Valid() && 0 <= index < |photos|
      modifies this
      ensures Valid() && selectedPhotos == PlaceInFirstEmpty(old(selectedPhotos), Pick(photos, index))
      ensures frameLayout == old(frameLayout)
    {
      var p := Pick(photos, index);
      var k := FindEmptySlot(selectedPhotos);
      if k != -1 {
        selectedPhotos := selectedPhotos[k := Some(SlotPhoto(p.id, p.uri, k))];
      }
    }

    method HandlePhotoRemove(index: int)
      requires Valid() && 0 <= index < SlotCount
      modifies this
      ensures Valid() && selectedPhotos == ClearSlot(old(selectedPhotos), index) && frameLayout == old(frameLayout)
    {
      selectedPhotos := selectedPhotos[index := None];
    }

    method OnFrameLayout(layout: Layout)
      requires Valid()
      modifies this
      ensures Valid() && frameLayout == layout && selectedPhotos == old(selectedPhotos)
    {
      frameLayout := layout;
    }

    /** `handleNext`; `None` when the screen only shows its alert. */
    method HandleNext() returns (route: Option<NextRoute>)
      requires Valid()
      ensures route.Some? <==> IsPhotoArrayFull(selectedPhotos)
      ensures route.Some? ==> route.value == NextRoute(Uris(GetSelectedPhotos(selectedPhotos)), FrameOrDefault(selectedFrame), None)
    {
      NextNeedsFullRow(selectedPhotos, FrameOrDefault(selectedFrame), None);
      var filled := GetSelectedPhotos(selectedPhotos);
      if |filled| < SlotCount {
        return None;
      }
      return Some(NextRoute(Uris(filled), FrameOrDefault(selectedFrame), None));
    }

    /** `selectedCount`: the number of filled slots, so 4 exactly when every
        slot holds a photo. */
    function SelectedCount(): (n: nat)
      reads this
      requires Valid()
      ensures n == SlotCount - multiset(selectedPhotos)[None]
      ensures n == |GetSelectedPhotos(selectedPhotos)|
      ensures n == SlotCount <==> IsPhotoArrayFull(selectedPhotos)
    {
      CountFilledByMultiset(selectedPhotos);
      CountFilledIsLengthIffFull(selectedPhotos);
      CountFilled(selectedPhotos)
    }

    /** The frame's regions as drawn: nothing before the frame is measured,
        then every region of the template scaled into the box, showing the
        photo of the slot its `position` names, or the placeholder. */
    function RenderedRegions(): (r: seq<Placement<SlotPhoto>>)
      reads this
      requires Valid()
      ensures !(frameLayout.width > 0.0 && frameLayout.height > 0.0) ==> r == []
      ensures frameLayout.width > 0.0 && frameLayout.height > 0.0 ==> |r| == |template.regions|
      ensures forall i :: 0 <= i < |r| ==>
        r[i].rect == ScaleRegion(frameLayout.width, frameLayout.height, template.totalWidth, template.totalHeight, template.regions[i])
      ensures forall i :: 0 <= i < |r| ==>
        (r[i].photo.Some? <==> 0 <= template.regions[i].position < SlotCount && selectedPhotos[template.regions[i].position].Some?)
      ensures forall i :: 0 <= i < |r| && r[i].photo.Some? ==>
        r[i].photo == selectedPhotos[template.regions[i].position] && r[i].photo.value in GetSelectedPhotos(selectedPhotos)
    {
      PlaceByPosition(frameLayout, template, selectedPhotos)
    }
  }
}
