/** The helpers of utils/photoUtils.ts: arrays of photo slots, where a slot
    is `null` (`None`) or holds a captured photo, plus the aspect-ratio,
    quality and file-name helpers. */
module PhotoUtils {
  import opened Types
  import opened Seqs
  import opened Strings

  /** A photo as the capture screens keep it: `id` is the camera file path. */
  datatype CapturedPhoto = CapturedPhoto(id: string, uri: string, order: Option<int>, timestamp: Timestamp)

  type Slots = seq<Option<CapturedPhoto>>

  const FilePrefix := "file://"

  // ------------------------------------------------------ camera files

  function PhotoFileToUri(path: string): (uri: string)
    ensures StartsWith(uri, FilePrefix) && uri[|FilePrefix|..] == path
  {
    FilePrefix + path
  }

  /** `photoFileToObject`; `Date.now()` is the `now` argument. */
  function PhotoFileToObject(path: string, order: Option<int>, now: Timestamp): (p: CapturedPhoto)
    ensures p.id == path && p.uri == PhotoFileToUri(path) && p.order == order && p.timestamp == now
  {
    CapturedPhoto(path, PhotoFileToUri(path), order, now)
  }

  // ------------------------------------------------------ slot arrays

  function IsEmptySlot<T>(): Option<T> -> bool {
    (x: Option<T>) => x.None?
  }

  function IsFilledSlot<T>(): Option<T> -> bool {
    (x: Option<T>) => x.Some?
  }

  /** The index of the first empty slot, or -1. */
  function FindEmptySlot<T>(slots: seq<Option<T>>): (r: int)
    ensures -1 <= r < |slots|
    ensures r >= 0 ==> slots[r].None? && forall k :: 0 <= k < r ==> slots[k].Some?
    ensures r == -1 <==> forall k :: 0 <= k < |slots| ==> slots[k].Some?
  {
    FindIndex(slots, IsEmptySlot())
  }

  /** `every(photo => photo !== null)`. */
  predicate IsPhotoArrayFull<T>(slots: seq<Option<T>>)
    ensures IsPhotoArrayFull(slots) <==> None !in slots
  {
    forall k :: 0 <= k < |slots| ==> slots[k].Some?
  }

  /** A slot array is full exactly when it has no empty slot. */
  lemma FullIffNoEmptySlot<T>(slots: seq<Option<T>>)
    ensures IsPhotoArrayFull(slots) <==> FindEmptySlot(slots) == -1
  {
  }

  /** The filled slots in order, unwrapped. */
  function GetSelectedPhotos<T>(slots: seq<Option<T>>): (r: seq<T>)
    ensures |r| == CountFilled(slots)
    ensures forall i :: 0 <= i < |r| ==> Some(r[i]) in slots
    ensures forall k :: 0 <= k < |slots| && slots[k].Some? ==> slots[k].value in r
  {
    if slots == [] then []
    else
      var rest := GetSelectedPhotos(slots[1..]);
      assert forall k :: 1 <= k < |slots| ==> slots[k] == slots[1..][k - 1];
      if slots[0].Some? then [slots[0].value] + rest else rest
  }

  /** Appending one slot appends its photo, if any, to the selection. */
  lemma {:induction false} GetSelectedPhotosSnoc<T>(slots: seq<Option<T>>, x: Option<T>)
    ensures GetSelectedPhotos(slots + [x]) == GetSelectedPhotos(slots) + (if x.Some? then [x.value] else [])
  {
    if slots != [] {
      assert (slots + [x])[1..] == slots[1..] + [x];
      GetSelectedPhotosSnoc(slots[1..], x);
    }
  }

  /** `filter(photo => photo !== null).length`. */
  function CountFilled<T>(slots: seq<Option<T>>): (n: nat)
    ensures n <= |slots|
    ensures n == 0 <==> forall k :: 0 <= k < |slots| ==> slots[k].None?
  {
    var kept := Filter(slots, IsFilledSlot());
    assert kept != [] ==> IsFilledSlot()(kept[0]);
    |kept|
  }

  /** The filled count is the length less the number of empty slots, so it
      depends only on the multiset of slots. */
  lemma {:induction false} CountFilledByMultiset<T>(slots: seq<Option<T>>)
    ensures CountFilled(slots) == |slots| - multiset(slots)[None]
  {
    if slots != [] {
      CountFilledByMultiset(slots[1..]);
      assert slots == [slots[0]] + slots[1..];
    }
  }

  /** A row holds as many photos as it has slots exactly when it is full. */
  lemma CountFilledIsLengthIffFull<T>(slots: seq<Option<T>>)
    ensures CountFilled(slots) == |slots| <==> IsPhotoArrayFull(slots)
  {
    CountFilledByMultiset(slots);
    if !IsPhotoArrayFull(slots) {
      var k :| 0 <= k < |slots| && slots[k].None?;
      assert slots[k] in multiset(slots);
    }
  }

  /** From a full row every slot is selected, in slot order. */
  lemma {:induction false} FullSlotsSelected<T>(slots: seq<Option<T>>)
    requires IsPhotoArrayFull(slots)
    ensures var r := GetSelectedPhotos(slots);
      |r| == |slots| && forall i :: 0 <= i < |slots| ==> r[i] == slots[i].value
  {
    if slots != [] {
      FullSlotsSelected(slots[1..]);
      CountFilledIsLengthIffFull(slots);
    }
  }

  /** `map(photo => photo?.id === photoId ? null : photo)`. */
  function RemovePhotoFromArray(slots: Slots, id: string): (r: Slots)
    ensures |r| == |slots|
    ensures forall k :: 0 <= k < |slots| ==>
      r[k] == if slots[k].Some? && slots[k].value.id == id then None else slots[k]
  {
    seq(|slots|, k requires 0 <= k < |slots| =>
      if slots[k].Some? && slots[k].value.id == id then None else slots[k])
  }

  /** After removal no slot holds the id, and every other photo is where it
      was. */
  lemma RemovedIdIsGone(slots: Slots, id: string)
    ensures forall k :: 0 <= k < |slots| ==>
      var r := RemovePhotoFromArray(slots, id);
      (r[k].Some? ==> r[k].value.id != id) && (slots[k].Some? && slots[k].value.id != id ==> r[k] == slots[k])
  {
  }

  /** A copy of the array with `photo` at the in-range `index`. */
  function AddPhotoToArray<T>(slots: seq<Option<T>>, photo: T, index: int): (r: seq<Option<T>>)
    requires 0 <= index < |slots|
    ensures |r| == |slots| && r[index] == Some(photo)
    ensures forall k :: 0 <= k < |slots| && k != index ==> r[k] == slots[k]
  {
    slots[index := Some(photo)]
  }

  // ------------------------------------------------------ reordering

  /** `splice(from, 1)`. */
  function RemoveAt<T>(s: seq<T>, i: int): (r: seq<T>)
    requires 0 <= i < |s|
    ensures |r| == |s| - 1
    ensures forall k :: 0 <= k < |r| ==> r[k] == if k < i then s[k] else s[k + 1]
  {
    s[..i] + s[i + 1..]
  }

  /** `splice(to, 0, x)`; a position past the end inserts at the end. */
  function InsertAt<T>(s: seq<T>, i: int, x: T): (r: seq<T>)
    requires 0 <= i
    ensures |r| == |s| + 1
    ensures var j := if i > |s| then |s| else i;
      && r[j] == x
      && forall k :: 0 <= k < |r| && k != j ==> r[k] == if k < j then s[k] else s[k - 1]
  {
    var j := if i > |s| then |s| else i;
    s[..j] + [x] + s[j..]
  }

  /** The slot of the original array that ends up at position `k` when the
      element at `from` moves to `to` (clamped to the last position). */
  function MovedFrom(n: int, from: int, to: int, k: int): int {
    var t := if to > n - 1 then n - 1 else to;
    if k == t then from
    else if from < t && from <= k < t then k + 1
    else if t < from && t < k <= from then k - 1
    else k
  }

  /** `splice(from, 1)` followed by `splice(to, 0, moved)`. */
  function MoveElement<T>(s: seq<T>, from: int, to: int): (r: seq<T>)
    requires 0 <= from < |s| && 0 <= to
    ensures |r| == |s|
  {
    InsertAt(RemoveAt(s, from), to, s[from])
  }

  /** The element moves from `from` to `to`; the elements in between shift
      by one; nothing is lost or duplicated. */
  lemma MoveElementSpec<T>(s: seq<T>, from: int, to: int)
    requires 0 <= from < |s| && 0 <= to
    ensures var r := MoveElement(s, from, to);
      && multiset(r) == multiset(s)
      && forall k :: 0 <= k < |s| ==> 0 <= MovedFrom(|s|, from, to, k) < |s| && r[k] == s[MovedFrom(|s|, from, to, k)]
  {
    var rest := RemoveAt(s, from);
    var r := InsertAt(rest, to, s[from]);
    RemoveAtMultiset(s, from);
    InsertAtMultiset(rest, to, s[from]);
    MoveElementIndexes(s, rest, r, from, to);
  }

  lemma RemoveAtMultiset<T>(s: seq<T>, i: int)
    requires 0 <= i < |s|
    ensures multiset(RemoveAt(s, i)) + multiset{s[i]} == multiset(s)
  {
    assert s == s[..i] + [s[i]] + s[i + 1..];
  }

  lemma InsertAtMultiset<T>(s: seq<T>, i: int, x: T)
    requires 0 <= i
    ensures multiset(InsertAt(s, i, x)) == multiset(s) + multiset{x}
  {
    var j := if i > |s| then |s| else i;
    assert s == s[..j] + s[j..];
  }

  lemma MoveElementIndexes<T>(s: seq<T>, rest: seq<T>, r: seq<T>, from: int, to: int)
    requires 0 <= from < |s| && 0 <= to
    requires rest == RemoveAt(s, from) && r == InsertAt(rest, to, s[from])
    ensures forall k :: 0 <= k < |s| ==> 0 <= MovedFrom(|s|, from, to, k) < |s| && r[k] == s[MovedFrom(|s|, from, to, k)]
  {
    forall k | 0 <= k < |s|
      ensures 0 <= MovedFrom(|s|, from, to, k) < |s| && r[k] == s[MovedFrom(|s|, from, to, k)]
    {
      var t := if to > |s| - 1 then |s| - 1 else to;
      assert t == if to > |rest| then |rest| else to;
      if k != t {
        var m := if k < t then k else k - 1;
        assert r[k] == rest[m];
      }
    }
  }

  /** `map((photo, index) => photo ? {...photo, order: index + 1} : null)`. */
  function Renumber(slots: Slots): (r: Slots)
    ensures |r| == |slots|
    ensures forall k :: 0 <= k < |slots| ==>
      (r[k].Some? <==> slots[k].Some?) && (r[k].Some? ==> r[k].value == slots[k].value.(order := Some(k + 1)))
  {
    seq(|slots|, k requires 0 <= k < |slots| =>
      if slots[k].Some? then Some(slots[k].value.(order := Some(k + 1))) else None)
  }

  /** `reorderPhotos` for a `fromIndex` inside the array. */
  function ReorderPhotos(slots: Slots, from: int, to: int): (r: Slots)
    requires 0 <= from < |slots| && 0 <= to
    ensures |r| == |slots|
  {
    Renumber(MoveElement(slots, from, to))
  }

  /** Reordering moves the photo at `from` to `to`, shifts the slots in
      between, numbers every photo by its new position, and keeps the number
      of filled slots. */
  lemma ReorderPhotosSpec(slots: Slots, from: int, to: int)
    requires 0 <= from < |slots| && 0 <= to
    ensures var r := ReorderPhotos(slots, from, to);
      && (forall k :: 0 <= k < |slots| ==>
            var src := MovedFrom(|slots|, from, to, k);
            0 <= src < |slots| && (r[k].Some? <==> slots[src].Some?)
            && (r[k].Some? ==> r[k].value == slots[src].value.(order := Some(k + 1))))
      && CountFilled(r) == CountFilled(slots)
  {
    var moved := MoveElement(slots, from, to);
    var r := ReorderPhotos(slots, from, to);
    MoveElementSpec(slots, from, to);
    CountFilledByMultiset(slots);
    CountFilledByMultiset(moved);
    CountFilledByMultiset(r);
    assert multiset(r)[None] == multiset(moved)[None] by {
      SameEmptySlots(moved, r);
    }
  }

  /** Two arrays empty at the same positions have the same number of empty
      slots. */
  lemma {:induction false} SameEmptySlots(a: Slots, b: Slots)
    requires |a| == |b|
    requires forall k :: 0 <= k < |a| ==> (a[k].None? <==> b[k].None?)
    ensures multiset(a)[None] == multiset(b)[None]
  {
    if a != [] {
      SameEmptySlots(a[1..], b[1..]);
      assert a == [a[0]] + a[1..] && b == [b[0]] + b[1..];
    }
  }

  /** The source's own description: the element at `from` lands at `to`. */
  lemma ReorderMovesToTarget(slots: Slots, from: int, to: int)
    requires 0 <= from < |slots| && 0 <= to < |slots|
    ensures var r := ReorderPhotos(slots, from, to);
      (r[to].Some? <==> slots[from].Some?) && (slots[from].Some? ==> r[to].value.id == slots[from].value.id)
  {
    ReorderPhotosSpec(slots, from, to);
  }

  // ------------------------------------------------------ geometry

  datatype FrameType = BasicFrame | SpecialFrame
  datatype BasicFrameType = Vertical | Grid

  /** Width over height of a captured photo for the frame. */
  function CalculateAspectRatio(frameType: FrameType, basicFrameType: Option<BasicFrameType>): (r: real)
    ensures r > 0.0
    ensures frameType == SpecialFrame ==> r == 1.0
    ensures frameType == BasicFrame && basicFrameType == Some(Vertical) ==> r == 2.0
    ensures frameType == BasicFrame && basicFrameType == Some(Grid) ==> r == 2.0 / 3.0
    ensures frameType == BasicFrame && basicFrameType.None? ==> r == 1.0
  {
    if frameType == SpecialFrame then 1.0
    else match basicFrameType
      case Some(Vertical) => 2.0
      case Some(Grid) => 2.0 / 3.0
      case None => 1.0
  }

  datatype Dimensions = Dimensions(width: real, height: real)

  /** The width is the container's and width / height is the ratio. */
  function CalculatePhotoDimensions(containerWidth: real, aspectRatio: real): (d: Dimensions)
    requires aspectRatio != 0.0
    ensures d.width == containerWidth
    ensures d.height * aspectRatio == containerWidth
  {
    Dimensions(containerWidth, containerWidth / aspectRatio)
  }

  /** What the two helpers give for each frame layout. */
  lemma PhotoHeightsByLayout(w: real)
    ensures CalculatePhotoDimensions(w, CalculateAspectRatio(SpecialFrame, None)).height == w
    ensures CalculatePhotoDimensions(w, CalculateAspectRatio(BasicFrame, Some(Vertical))).height == w / 2.0
    ensures CalculatePhotoDimensions(w, CalculateAspectRatio(BasicFrame, Some(Grid))).height == 3.0 * w / 2.0
  {
  }

  datatype PhotoQuality = LowQuality | MediumQuality | HighQuality

  /** The camera's JPEG quality; `None` is the default `'medium'`. */
  function GetPhotoQuality(quality: Option<PhotoQuality>): (q: real)
    ensures 0.0 < q < 1.0
    ensures quality == Some(LowQuality) ==> q == 0.5
    ensures quality == Some(HighQuality) ==> q == 0.9
    ensures quality.None? || quality == Some(MediumQuality) ==> q == 0.8
  {
    match quality
    case Some(LowQuality) => 0.5
    case Some(HighQuality) => 0.9
    case _ => 0.8
  }

  // ------------------------------------------------------ file names

  /** `filename.slice(filename.lastIndexOf('.') - 1 + 2)`: the text after the
      last dot, or the whole name when there is no dot. */
  function GetFileExtension(filename: string): (ext: string)
    ensures '.' !in ext
    ensures '.' !in filename ==> ext == filename
    ensures '.' in filename ==>
      |ext| < |filename| && filename == filename[..|filename| - |ext| - 1] + "." + ext
  {
    var i := LastIndexOf(filename, '.');
    var ext := filename[i - 1 + 2..];
    assert forall k :: 0 <= k < |ext| ==> ext[k] == filename[i + 1 + k];
    assert '.' in filename ==> i >= 0 && filename == filename[..i] + "." + ext;
    ext
  }

  /** If the character at `i` is the last dot, the extension is what
      follows it. */
  lemma ExtensionAfterLastDot(filename: string, i: int)
    requires 0 <= i < |filename| && filename[i] == '.'
    requires forall k :: i < k < |filename| ==> filename[k] != '.'
    ensures GetFileExtension(filename) == filename[i + 1..]
  {
    var j := LastIndexOf(filename, '.');
    assert j == i;
  }

  const ImageExtensions: seq<string> := [".jpg", ".jpeg", ".png", ".gif", ".webp"]

  /** `isImageFile` as written: the lower-cased extension is looked up in a
      list whose entries all start with a dot. */
  predicate IsImageFileAsWritten(filename: string)
    ensures IsImageFileAsWritten(filename) ==> '.' in LowerAscii(GetFileExtension(filename))
  {
    LowerAscii(GetFileExtension(filename)) in ImageExtensions
  }

  /** The extension never contains a dot, so the lookup never succeeds. */
  lemma IsImageFileAsWrittenNeverHolds(filename: string)
    ensures !IsImageFileAsWritten(filename)
  {
    var ext := GetFileExtension(filename);
    var lower := LowerAscii(ext);
    forall k | 0 <= k < |lower| ensures lower[k] != '.' {
      assert ext[k] != '.';
    }
    forall i | 0 <= i < |ImageExtensions| ensures ImageExtensions[i] != lower {
      assert ImageExtensions[i][0] == '.';
    }
  }

  /** A name such as "photo.JPG" is an image file, yet the check as written
      rejects it. */
  lemma IsImageFileAsWrittenRejectsJpg(base: string)
    ensures !IsImageFileAsWritten(base + ".JPG")
    ensures IsImageFile(base + ".JPG")
  {
    var f := base + ".JPG";
    IsImageFileAsWrittenNeverHolds(f);
    JpgExtension(base);
    JpgIsImageExtension();
    assert f[|base|] == '.';
  }

  /** The extension of a name ending in ".JPG". */
  lemma JpgExtension(base: string)
    ensures GetFileExtension(base + ".JPG") == "JPG"
  {
    var f := base + ".JPG";
    assert f[|base|] == '.' && f[|base| + 1..] == "JPG";
    assert forall k :: |base| < k < |f| ==> f[k] != '.';
    ExtensionAfterLastDot(f, |base|);
  }

  /** "JPG" lower-cases to the first image extension. */
  lemma JpgIsImageExtension()
    ensures LowerAscii("JPG") == ImageExtensionNames[0]
  {
    var lower := LowerAscii("JPG");
    assert lower[0] == 'j' && lower[1] == 'p' && lower[2] == 'g';
  }

  const ImageExtensionNames: seq<string> := ["jpg", "jpeg", "png", "gif", "webp"]

  /** `isImageFile` as evidently intended: the name has an extension and its
      lower-cased text is one of the image extensions. */
  predicate IsImageFile(filename: string)
    ensures IsImageFile(filename) ==> 3 <= |GetFileExtension(filename)| <= 4
  {
    '.' in filename && LowerAscii(GetFileExtension(filename)) in ImageExtensionNames
  }

  /** The corrected check accepts every name ending in a dot and an image
      extension, in any ASCII case, and rejects every name without a dot. */
  lemma IsImageFileAcceptsImageNames(base: string, ext: string)
    requires LowerAscii(ext) in ImageExtensionNames
    ensures IsImageFile(base + "." + ext)
    ensures !IsImageFile(ext)
  {
    var f := base + "." + ext;
    var lower := LowerAscii(ext);
    forall k | 0 <= k < |ext| ensures ext[k] != '.' {
      assert lower[k] == LowerChar(ext[k]);
      assert lower[k] != '.';
    }
    assert f[|base|] == '.';
    ExtensionAfterLastDot(f, |base|);
    assert f[|base| + 1..] == ext;
    assert '.' !in ext;
  }
}
