/** The photo slice of the Redux store: the photos, the one being worked on,
    the ids selected in the gallery, and the filter and sort the gallery
    applies. Reducers and thunk handlers are methods of `Slice`; the filtered,
    sorted view is the pure selector `SelectFilteredPhotos`. */
module PhotoSlice {
  import opened Types
  import opened Seqs
  import opened Ordering

  datatype DateRange = DateRange(start: Timestamp, end: Timestamp)

  datatype PhotoFilter = PhotoFilter(
    status: Option<PhotoStatus>,
    frameId: Option<string>,
    dateRange: Option<DateRange>)

  /** A `Partial<filter>` payload: `None` is a key the payload lacks. */
  datatype PhotoFilterPatch = PhotoFilterPatch(
    status: Option<Option<PhotoStatus>>,
    frameId: Option<Option<string>>,
    dateRange: Option<Option<DateRange>>)

  datatype PhotoSortField = ByCreatedAt | ByUpdatedAt | ByStatus

  datatype PhotoState = PhotoState(
    photos: seq<Photo>,
    currentPhoto: Option<Photo>,
    isLoading: bool,
    error: Option<string>,
    selectedPhotos: seq<string>,
    filter: PhotoFilter,
    sortBy: PhotoSortField,
    sortOrder: SortDirection)

  const NoFilter := PhotoFilter(None, None, None)

  const InitialState := PhotoState([], None, false, None, [], NoFilter, ByCreatedAt, Desc)

  // ------------------------------------------------------ selection

  ghost predicate NoDuplicates(s: seq<string>) {
    forall i, j :: 0 <= i < j < |s| ==> s[i] != s[j]
  }

  function IsId(id: string): string -> bool {
    (x: string) => x == id
  }

  /** `indexOf` then `splice(index, 1)` when found, `push` otherwise. */
  function ToggleSelection(selected: seq<string>, id: string): (r: seq<string>)
    ensures id !in selected ==> r == selected + [id]
    ensures id in selected ==> |r| == |selected| - 1 && multiset(r) == multiset(selected) - multiset{id}
  {
    var i := FindIndex(selected, IsId(id));
    if i > -1 then
      assert selected == selected[..i] + [selected[i]] + selected[i + 1..];
      selected[..i] + selected[i + 1..]
    else selected + [id]
  }

  /** Splicing one element out of a duplicate-free list keeps it
      duplicate-free and removes that element only. */
  lemma SpliceOut(selected: seq<string>, i: int)
    requires NoDuplicates(selected) && 0 <= i < |selected|
    ensures var r := selected[..i] + selected[i + 1..];
      && NoDuplicates(r)
      && selected[i] !in r
      && forall x :: x != selected[i] ==> (x in r <==> x in selected)
  {
    var r := selected[..i] + selected[i + 1..];
    assert |r| == |selected| - 1;
    forall a, b | 0 <= a < b < |r| ensures r[a] != r[b] {
      var a' := if a < i then a else a + 1;
      var b' := if b < i then b else b + 1;
      assert r[a] == selected[a'] && r[b] == selected[b'];
    }
    forall x ensures x in r <==> x in selected && x != selected[i] {
      if x in r {
        var k :| 0 <= k < |r| && r[k] == x;
        var k' := if k < i then k else k + 1;
        assert selected[k'] == x && k' != i;
      }
      if x in selected && x != selected[i] {
        var k :| 0 <= k < |selected| && selected[k] == x;
        assert k != i;
        if k < i {
          assert r[k] == x;
        } else {
          assert r[k - 1] == x;
        }
      }
    }
  }

  /** On a duplicate-free selection, toggling flips the membership of the id
      and of no other id, and keeps the selection duplicate-free. */
  lemma ToggleSelectionFlips(selected: seq<string>, id: string)
    requires NoDuplicates(selected)
    ensures var r := ToggleSelection(selected, id);
      && NoDuplicates(r)
      && (id in r <==> id !in selected)
      && forall x :: x != id ==> (x in r <==> x in selected)
  {
    if id in selected {
      var i := FindIndex(selected, IsId(id));
      SpliceOut(selected, i);
    }
  }

  /** Toggling an unselected id twice gives the selection back. */
  lemma ToggleSelectionTwice(selected: seq<string>, id: string)
    requires id !in selected
    ensures ToggleSelection(ToggleSelection(selected, id), id) == selected
  {
    var once := selected + [id];
    var i := FindIndex(once, IsId(id));
    assert once[|selected|] == id;
    assert i == |selected|;
    assert once[..i] == selected;
  }

  function PhotoIds(photos: seq<Photo>): (r: seq<string>)
    ensures |r| == |photos| && forall k :: 0 <= k < |photos| ==> r[k] == photos[k].id
  {
    seq(|photos|, k requires 0 <= k < |photos| => photos[k].id)
  }

  // ------------------------------------------------------ list updates

  /** The photo list after an update-style fulfilled handler: the first photo
      with the payload's id is replaced by the payload. */
  function ReplacePhoto(photos: seq<Photo>, updated: Photo): (r: seq<Photo>)
    ensures |r| == |photos|
    ensures var i := FindIndex(photos, (p: Photo) => p.id == updated.id);
      && (i != -1 ==> r[i] == updated)
      && (forall k :: 0 <= k < |photos| && k != i ==> r[k] == photos[k])
      && (i == -1 ==> r == photos)
  {
    UpdateFirst(photos, (p: Photo) => p.id == updated.id, (p: Photo) => updated)
  }

  /** `currentPhoto` after the same handler: replaced only on a matching id. */
  function ReplaceCurrent(current: Option<Photo>, updated: Photo): (r: Option<Photo>)
    ensures current.Some? && current.value.id == updated.id ==> r == Some(updated)
    ensures current.None? || current.value.id != updated.id ==> r == current
  {
    if current.Some? && current.value.id == updated.id then Some(updated) else current
  }

  function RemovePhotos(photos: seq<Photo>, id: string): (r: seq<Photo>)
    ensures forall k :: 0 <= k < |r| ==> r[k].id != id
    ensures forall k :: 0 <= k < |photos| && photos[k].id != id ==> photos[k] in r
  {
    Filter(photos, (p: Photo) => p.id != id)
  }

  function RemoveSelected(selected: seq<string>, id: string): (r: seq<string>)
    ensures id !in r
    ensures forall x :: x in selected && x != id ==> x in r
  {
    Filter(selected, (x: string) => x != id)
  }

  /** Deleting keeps the other photos and ids in their order. */
  lemma DeleteKeepsOrder(photos: seq<Photo>, selected: seq<string>, id: string)
    ensures IsSubsequence(RemovePhotos(photos, id), photos)
    ensures IsSubsequence(RemoveSelected(selected, id), selected)
  {
    FilterIsSubsequence(photos, (p: Photo) => p.id != id);
    FilterIsSubsequence(selected, (x: string) => x != id);
  }

  function ClearCurrentIf(current: Option<Photo>, id: string): (r: Option<Photo>)
    ensures r.None? <==> current.None? || current.value.id == id
    ensures r.Some? ==> r == current
  {
    if current.Some? && current.value.id == id then None else current
  }

  function PatchFilter(f: PhotoFilter, p: PhotoFilterPatch): (r: PhotoFilter)
    ensures p == PhotoFilterPatch(None, None, None) ==> r == f
    ensures p.status.Some? ==> r.status == p.status.value
    ensures p.status.None? ==> r.status == f.status
    ensures p.frameId.Some? ==> r.frameId == p.frameId.value
    ensures p.frameId.None? ==> r.frameId == f.frameId
    ensures p.dateRange.Some? ==> r.dateRange == p.dateRange.value
    ensures p.dateRange.None? ==> r.dateRange == f.dateRange
  {
    PhotoFilter(
      if p.status.Some? then p.status.value else f.status,
      if p.frameId.Some? then p.frameId.value else f.frameId,
      if p.dateRange.Some? then p.dateRange.value else f.dateRange)
  }

  // ------------------------------------------------------ the filtered view

  /** The three tests of `selectFilteredPhotos`; a frame id filter of `""`
      is falsy and so filters nothing. */
  predicate StatusPasses(f: PhotoFilter, p: Photo) {
    f.status.None? || p.status == f.status.value
  }

  predicate FramePasses(f: PhotoFilter, p: Photo) {
    f.frameId.None? || f.frameId.value == "" || p.frameId == f.frameId.value
  }

  predicate DatePasses(f: PhotoFilter, p: Photo) {
    f.dateRange.None? || (f.dateRange.value.start <= p.createdAt && p.createdAt <= f.dateRange.value.end)
  }

  predicate PassesFilter(f: PhotoFilter, p: Photo) {
    StatusPasses(f, p) && FramePasses(f, p) && DatePasses(f, p)
  }

  /** The whole filter as one test. */
  function Passes(f: PhotoFilter): Photo -> bool {
    (p: Photo) => PassesFilter(f, p)
  }

  /** The three filters applied one after the other, as the selector does;
      together they keep, in order, exactly the photos passing all three. */
  function FilterPhotos(photos: seq<Photo>, f: PhotoFilter): (r: seq<Photo>)
    ensures r == Filter(photos, Passes(f))
  {
    FilterTwice(photos, (p: Photo) => StatusPasses(f, p), (p: Photo) => FramePasses(f, p),
                (p: Photo) => StatusPasses(f, p) && FramePasses(f, p));
    FilterTwice(photos, (p: Photo) => StatusPasses(f, p) && FramePasses(f, p), (p: Photo) => DatePasses(f, p),
                Passes(f));
    var byStatus := Filter(photos, (p: Photo) => StatusPasses(f, p));
    var byFrame := Filter(byStatus, (p: Photo) => FramePasses(f, p));
    Filter(byFrame, (p: Photo) => DatePasses(f, p))
  }

  function PhotoKey(field: PhotoSortField): Photo -> SortKey {
    match field
    case ByCreatedAt => (p: Photo) => IntKey(p.createdAt)
    case ByUpdatedAt => (p: Photo) => IntKey(p.updatedAt)
    case ByStatus => (p: Photo) => TextKey(PhotoStatusName(p.status))
  }

  /** `selectFilteredPhotos`: the photos passing the filter, as a sorted copy. */
  function SelectFilteredPhotos(s: PhotoState): (r: seq<Photo>)
    ensures multiset(r) == multiset(Filter(s.photos, Passes(s.filter)))
  {
    SortByKey(FilterPhotos(s.photos, s.filter), PhotoKey(s.sortBy), s.sortOrder)
  }

  /** The view holds exactly the photos that pass every active filter, in the
      requested order. */
  lemma SelectFilteredPhotosSpec(s: PhotoState)
    ensures var r := SelectFilteredPhotos(s);
      && (forall k :: 0 <= k < |r| ==> r[k] in s.photos && PassesFilter(s.filter, r[k]))
      && (forall k :: 0 <= k < |s.photos| && PassesFilter(s.filter, s.photos[k]) ==> s.photos[k] in r)
      && (forall i, j :: 0 <= i < j < |r| ==>
            var a, b := PhotoKey(s.sortBy)(r[i]), PhotoKey(s.sortBy)(r[j]);
            if s.sortOrder == Asc then !KeyLess(b, a) else !KeyLess(a, b))
  {
    PermutedFilterMembers(SelectFilteredPhotos(s), s.photos, Passes(s.filter));
    SortByKeyOrders(FilterPhotos(s.photos, s.filter), PhotoKey(s.sortBy), s.sortOrder);
  }

  // ------------------------------------------------------ the slice

  class Slice {
    var photos: seq<Photo>
    var currentPhoto: Option<Photo>
    var isLoading: bool
    var error: Option<string>
    var selectedPhotos: seq<string>
    var filter: PhotoFilter
    var sortBy: PhotoSortField
    var sortOrder: SortDirection

    function State(): PhotoState
      reads this
    {
      PhotoState(photos, currentPhoto, isLoading, error, selectedPhotos, filter, sortBy, sortOrder)
    }

    constructor ()
      ensures State() == InitialState
    {
      photos := [];
      currentPhoto := None;
      isLoading := false;
      error := None;
      selectedPhotos := [];
      filter := NoFilter;
      sortBy := ByCreatedAt;
      sortOrder := Desc;
    }

    method SetCurrentPhoto(photo: Option<Photo>)
      modifies this
      ensures State() == old(State()).(currentPhoto := photo)
    {
      currentPhoto := photo;
    }

    method TogglePhotoSelection(id: string)
      modifies this
      ensures State() == old(State()).(selectedPhotos := ToggleSelection(old(selectedPhotos), id))
    {
      selectedPhotos := ToggleSelection(selectedPhotos, id);
    }

    /** `true` selects every photo id in list order, `false` clears. */
    method ToggleAllPhotosSelection(selectAll: bool)
      modifies this
      ensures State() == old(State()).(selectedPhotos := if selectAll then PhotoIds(old(photos)) else [])
    {
      if selectAll {
        selectedPhotos := PhotoIds(photos);
      } else {
        selectedPhotos := [];
      }
    }

    method SetFilter(patch: PhotoFilterPatch)
      modifies this
      ensures State() == old(State()).(filter := PatchFilter(old(filter), patch))
    {
      filter := PatchFilter(filter, patch);
    }

    method SetSorting(field: PhotoSortField, direction: SortDirection)
      modifies this
      ensures State() == old(State()).(sortBy := field, sortOrder := direction)
    {
      sortBy := field;
      sortOrder := direction;
    }

    method SetLoading(loading: bool)
      modifies this
      ensures State() == old(State()).(isLoading := loading)
    {
      isLoading := loading;
    }

    method SetError(message: Option<string>)
      modifies this
      ensures State() == old(State()).(error := message)
    {
      error := message;
    }

    /** Resets the current photo, the selection, the filter and the sort;
        the photos, the loading flag and the error stay. */
    method ClearPhotoState()
      modifies this
      ensures State() == InitialState.(photos := old(photos), isLoading := old(isLoading), error := old(error))
    {
      currentPhoto := None;
      selectedPhotos := [];
      filter := NoFilter;
      sortBy := ByCreatedAt;
      sortOrder := Desc;
    }

    /** The pending handler shared by all seven photo thunks. */
    method RequestPending()
      modifies this
      ensures State() == old(State()).(isLoading := true, error := None)
    {
      isLoading := true;
      error := None;
    }

    /** The rejected handler shared by all seven photo thunks. */
    method RequestRejected(message: string)
      modifies this
      ensures State() == old(State()).(isLoading := false, error := Some(message))
    {
      isLoading := false;
      error := Some(message);
    }

    method CreatePhotoFulfilled(photo: Photo)
      modifies this
      ensures State() == old(State()).(isLoading := false, photos := [photo] + old(photos),
                                       currentPhoto := Some(photo), error := None)
    {
      isLoading := false;
      photos := [photo] + photos;
      currentPhoto := Some(photo);
      error := None;
    }

    /** The fulfilled handler shared by updatePhoto, uploadPhotoImage,
        updatePhotoStatus and updatePrintSettings. */
    method PhotoUpdateFulfilled(updated: Photo)
      modifies this
      ensures State() == old(State()).(isLoading := false, photos := ReplacePhoto(old(photos), updated),
                                       currentPhoto := ReplaceCurrent(old(currentPhoto), updated), error := None)
    {
      isLoading := false;
      photos := ReplacePhoto(photos, updated);
      currentPhoto := ReplaceCurrent(currentPhoto, updated);
      error := None;
    }

    method DeletePhotoFulfilled(id: string)
      modifies this
      ensures State() == old(State()).(isLoading := false, photos := RemovePhotos(old(photos), id),
                                       currentPhoto := ClearCurrentIf(old(currentPhoto), id),
                                       selectedPhotos := RemoveSelected(old(selectedPhotos), id), error := None)
    {
      isLoading := false;
      photos := RemovePhotos(photos, id);
      currentPhoto := ClearCurrentIf(currentPhoto, id);
      selectedPhotos := RemoveSelected(selectedPhotos, id);
      error := None;
    }

    method FetchPhotosFulfilled(payload: seq<Photo>)
      modifies this
      ensures State() == old(State()).(isLoading := false, photos := payload, error := None)
    {
      isLoading := false;
      photos := payload;
      error := None;
    }
  }
}
