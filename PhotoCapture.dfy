/** The `usePhotoCapture` hook: a row of `maxPhotos` slots filled one capture
    at a time, the index of the next slot, and the auto-capture flags. The
    timers are modelled by whether they are pending, not by their ticks;
    `Date.now()` is the `now` argument. */
module PhotoCapture {
  import opened Types
  import opened PhotoUtils

  /** The hook's arguments after their defaults are applied. */
  datatype CaptureConfig = CaptureConfig(
    frameType: FrameType,
    basicFrameType: BasicFrameType,
    maxPhotos: nat,
    autoCaptureInterval: int)

  /** `frameType = 'basic'`, `basicFrameType = 'vertical'`, `maxPhotos = 4`,
      `autoCaptureInterval = 6000`. */
  const DefaultConfig := CaptureConfig(BasicFrame, Vertical, 4, 6000)

  /** The hook's state; the two flags say whether `autoCaptureTimerRef` and
      `countdownRef` hold a live timer. */
  datatype CaptureState = CaptureState(
    photos: Slots,
    isCapturing: bool,
    currentPhotoIndex: int,
    autoCaptureScheduled: bool,
    countdownActive: bool)

  function InitialState(cfg: CaptureConfig): (st: CaptureState)
    ensures |st.photos| == cfg.maxPhotos && FindEmptySlot(st.photos) == (if cfg.maxPhotos == 0 then -1 else 0)
    ensures CountFilled(st.photos) == 0 && st.currentPhotoIndex == 0 && !st.isCapturing
  {
    var photos := EmptyRow(cfg.maxPhotos);
    CountFilledByMultiset(photos);
    assert multiset(photos)[None] == |photos| by { EmptySlotsCount(cfg.maxPhotos); }
    CaptureState(photos, false, 0, false, false)
  }

  /** `new Array(n).fill(null)`. */
  function EmptyRow(n: nat): (r: Slots)
    ensures |r| == n && forall k :: 0 <= k < n ==> r[k].None?
  {
    seq(n, _ => None)
  }

  lemma {:induction false} EmptySlotsCount(n: nat)
    ensures multiset(EmptyRow(n))[None] == n
  {
    if n > 0 {
      EmptySlotsCount(n - 1);
      assert EmptyRow(n) == EmptyRow(n - 1) + [None];
    }
  }

  /** The next slot index never passes the end of the row. */
  predicate Valid(st: CaptureState) {
    0 <= st.currentPhotoIndex <= |st.photos|
  }

  function AspectRatio(cfg: CaptureConfig): (r: real)
    ensures r > 0.0
  {
    CalculateAspectRatio(cfg.frameType, Some(cfg.basicFrameType))
  }

  /** `startAutoCapture`: nothing once the row is used up, otherwise the
      hook starts capturing and the countdown runs. */
  function Start(cfg: CaptureConfig, st: CaptureState): (r: CaptureState)
    ensures st.currentPhotoIndex >= cfg.maxPhotos ==> r == st
    ensures st.currentPhotoIndex < cfg.maxPhotos ==> r.isCapturing && r.countdownActive
    ensures r.photos == st.photos && r.currentPhotoIndex == st.currentPhotoIndex
    ensures r.autoCaptureScheduled == st.autoCaptureScheduled
  {
    if st.currentPhotoIndex >= cfg.maxPhotos then st
    else st.(isCapturing := true, countdownActive := true)
  }

  /** `stopAutoCapture`: both timers are cleared. */
  function Stop(st: CaptureState): (r: CaptureState)
    ensures !r.isCapturing && !r.autoCaptureScheduled && !r.countdownActive
    ensures r.photos == st.photos && r.currentPhotoIndex == st.currentPhotoIndex
  {
    st.(isCapturing := false, autoCaptureScheduled := false, countdownActive := false)
  }

  /** `capturePhoto`: the photo goes into the current slot (growing the row
      by one when the index is at its end) numbered by its position; the
      index advances; the next auto capture is scheduled, or capturing stops
      after the last slot. */
  function Capture(cfg: CaptureConfig, st: CaptureState, path: string, now: Timestamp): (r: CaptureState)
    requires Valid(st)
    ensures Valid(r) && r.currentPhotoIndex == st.currentPhotoIndex + 1
    ensures var i := st.currentPhotoIndex;
      && r.photos[i] == Some(PhotoFileToObject(path, Some(i + 1), now))
      && |r.photos| == (if i < |st.photos| then |st.photos| else |st.photos| + 1)
      && forall k :: 0 <= k < |st.photos| && k != i ==> r.photos[k] == st.photos[k]
    ensures st.currentPhotoIndex + 1 < cfg.maxPhotos ==> r.autoCaptureScheduled && r.isCapturing == st.isCapturing
    ensures st.currentPhotoIndex + 1 >= cfg.maxPhotos ==> !r.isCapturing && r.autoCaptureScheduled == st.autoCaptureScheduled
    ensures r.countdownActive == st.countdownActive
  {
    var i := st.currentPhotoIndex;
    var photo := PhotoFileToObject(path, Some(i + 1), now);
    var photos := if i < |st.photos| then AddPhotoToArray(st.photos, photo, i) else st.photos + [Some(photo)];
    if i + 1 < cfg.maxPhotos then
      st.(photos := photos, currentPhotoIndex := i + 1, autoCaptureScheduled := true)
    else
      st.(photos := photos, currentPhotoIndex := i + 1, isCapturing := false)
  }

  /** The scheduled timer calls the `startAutoCapture` it closed over, whose
      index was below `maxPhotos`, so it always resumes capturing. */
  function TimerFires(st: CaptureState): (r: CaptureState)
    ensures st.autoCaptureScheduled ==> r.isCapturing && r.countdownActive && !r.autoCaptureScheduled
    ensures !st.autoCaptureScheduled ==> r == st
    ensures r.photos == st.photos && r.currentPhotoIndex == st.currentPhotoIndex
  {
    if st.autoCaptureScheduled then st.(autoCaptureScheduled := false, isCapturing := true, countdownActive := true)
    else st
  }

  /** `removePhoto`: the slot is emptied, and a later index moves back by
      one. */
  function Remove(st: CaptureState, index: int): (r: CaptureState)
    requires Valid(st) && 0 <= index < |st.photos|
    ensures Valid(r) && |r.photos| == |st.photos| && r.photos[index].None?
    ensures forall k :: 0 <= k < |st.photos| && k != index ==> r.photos[k] == st.photos[k]
    ensures r.currentPhotoIndex == if st.currentPhotoIndex > index then st.currentPhotoIndex - 1 else st.currentPhotoIndex
    ensures r.isCapturing == st.isCapturing && r.autoCaptureScheduled == st.autoCaptureScheduled
    ensures r.countdownActive == st.countdownActive
  {
    st.(photos := st.photos[index := None],
        currentPhotoIndex := if st.currentPhotoIndex > index then st.currentPhotoIndex - 1 else st.currentPhotoIndex)
  }

  /** `reorderPhoto`, through `ReorderPhotos`. */
  function Reorder(st: CaptureState, from: int, to: int): (r: CaptureState)
    requires Valid(st) && 0 <= from < |st.photos| && 0 <= to
    ensures Valid(r) && CountFilled(r.photos) == CountFilled(st.photos)
    ensures r == st.(photos := ReorderPhotos(st.photos, from, to))
  {
    ReorderPhotosSpec(st.photos, from, to);
    st.(photos := ReorderPhotos(st.photos, from, to))
  }

  /** `resetPhotos`: `maxPhotos` empty slots, the index back at 0, not
      capturing, and both timers cleared. */
  function Reset(cfg: CaptureConfig): (r: CaptureState)
    ensures |r.photos| == cfg.maxPhotos && forall k :: 0 <= k < |r.photos| ==> r.photos[k].None?
    ensures r.currentPhotoIndex == 0 && Valid(r) && CountFilled(r.photos) == 0
    ensures !r.isCapturing && !r.autoCaptureScheduled && !r.countdownActive
  {
    InitialState(cfg)
  }

  // ------------------------------------------------------ properties

  /** Capturing one photo per path from a fresh row fills the first slots in
      order, numbers them 1, 2, …, leaves the rest empty, and stops capturing
      once the row is full. */
  lemma {:induction false} CaptureSequence(cfg: CaptureConfig, paths: seq<string>, now: Timestamp)
    requires |paths| <= cfg.maxPhotos
    ensures var st := Captures(cfg, InitialState(cfg), paths, now);
      && Valid(st) && |st.photos| == cfg.maxPhotos && st.currentPhotoIndex == |paths|
      && (forall k :: 0 <= k < |paths| ==> st.photos[k] == Some(PhotoFileToObject(paths[k], Some(k + 1), now)))
      && (forall k :: |paths| <= k < cfg.maxPhotos ==> st.photos[k].None?)
      && (|paths| == cfg.maxPhotos && |paths| > 0 ==> !st.isCapturing)
  {
    if paths != [] {
      var init := paths[..|paths| - 1];
      CaptureSequence(cfg, init, now);
      CapturesLast(cfg, InitialState(cfg), paths, now);
      assert paths == init + [paths[|paths| - 1]];
      CaptureExtends(cfg, Captures(cfg, InitialState(cfg), init, now), init, paths[|paths| - 1], now);
    }
  }

  /** One more capture on a row whose first slots hold `init` in order. */
  lemma CaptureExtends(cfg: CaptureConfig, st: CaptureState, init: seq<string>, path: string, now: Timestamp)
    requires |init| < cfg.maxPhotos
    requires Valid(st) && |st.photos| == cfg.maxPhotos && st.currentPhotoIndex == |init|
    requires forall k :: 0 <= k < |init| ==> st.photos[k] == Some(PhotoFileToObject(init[k], Some(k + 1), now))
    requires forall k :: |init| <= k < cfg.maxPhotos ==> st.photos[k].None?
    ensures var r := Capture(cfg, st, path, now);
      var paths := init + [path];
      && Valid(r) && |r.photos| == cfg.maxPhotos && r.currentPhotoIndex == |paths|
      && (forall k :: 0 <= k < |paths| ==> r.photos[k] == Some(PhotoFileToObject(paths[k], Some(k + 1), now)))
      && (forall k :: |paths| <= k < cfg.maxPhotos ==> r.photos[k].None?)
      && (|paths| == cfg.maxPhotos ==> !r.isCapturing)
  {
  }

  /** The state after capturing the given photos in turn. */
  function Captures(cfg: CaptureConfig, st: CaptureState, paths: seq<string>, now: Timestamp): (r: CaptureState)
    requires Valid(st)
    ensures Valid(r) && r.currentPhotoIndex == st.currentPhotoIndex + |paths|
    decreases |paths|
  {
    if paths == [] then st
    else Captures(cfg, Capture(cfg, st, paths[0], now), paths[1..], now)
  }

  lemma {:induction false} CapturesLast(cfg: CaptureConfig, st: CaptureState, paths: seq<string>, now: Timestamp)
    requires Valid(st) && paths != []
    ensures Captures(cfg, st, paths, now)
         == Capture(cfg, Captures(cfg, st, paths[..|paths| - 1], now), paths[|paths| - 1], now)
    decreases |paths|
  {
    if |paths| > 1 {
      CapturesLast(cfg, Capture(cfg, st, paths[0], now), paths[1..], now);
      assert paths[1..][..|paths[1..]| - 1] == paths[..|paths| - 1][1..];
    }
  }

  /** Removing the photo just captured into an empty slot undoes the
      capture: the same slots and the same next index. */
  lemma RemoveUndoesCapture(cfg: CaptureConfig, st: CaptureState, path: string, now: Timestamp)
    requires Valid(st) && st.currentPhotoIndex < |st.photos| && st.photos[st.currentPhotoIndex].None?
    ensures var r := Remove(Capture(cfg, st, path, now), st.currentPhotoIndex);
      r.photos == st.photos && r.currentPhotoIndex == st.currentPhotoIndex
  {
    var r := Remove(Capture(cfg, st, path, now), st.currentPhotoIndex);
    assert forall k :: 0 <= k < |st.photos| ==> r.photos[k] == st.photos[k];
  }

  /** The hook's state as one object whose handlers update it in place. */
  class CaptureHook {
    const cfg: CaptureConfig
    var photos: Slots
    var isCapturing: bool
    var currentPhotoIndex: int
    var autoCaptureScheduled: bool
    var countdownActive: bool

    function State(): CaptureState
      reads this
    {
      CaptureState(photos, isCapturing, currentPhotoIndex, autoCaptureScheduled, countdownActive)
    }

    constructor (config: CaptureConfig)
      ensures cfg == config && State() == InitialState(config) && Valid(State())
    {
      cfg := config;
      photos := EmptyRow(config.maxPhotos);
      isCapturing := false;
      currentPhotoIndex := 0;
      autoCaptureScheduled := false;
      countdownActive := false;
    }

    method StartAutoCapture()
      requires Valid(State())
      modifies this
      ensures Valid(State()) && State() == Start(cfg, old(State()))
    {
      if currentPhotoIndex >= cfg.maxPhotos {
        return;
      }
      isCapturing := true;
      countdownActive := true;
    }

    method StopAutoCapture()
      requires Valid(State())
      modifies this
      ensures Valid(State()) && State() == Stop(old(State()))
    {
      isCapturing := false;
      countdownActive := false;
      autoCaptureScheduled := false;
    }

    method CapturePhoto(path: string, now: Timestamp)
      requires Valid(State())
      modifies this
      ensures Valid(State()) && State() == Capture(cfg, old(State()), path, now)
    {
      var photo := PhotoFileToObject(path, Some(currentPhotoIndex + 1), now);
      if currentPhotoIndex < |photos| {
        photos := photos[currentPhotoIndex := Some(photo)];
      } else {
        photos := photos + [Some(photo)];
      }
      var captured := currentPhotoIndex;
      currentPhotoIndex := currentPhotoIndex + 1;
      if captured + 1 < cfg.maxPhotos {
        autoCaptureScheduled := true;
      } else {
        isCapturing := false;
      }
    }

    method AutoCaptureTimerFires()
      requires Valid(State())
      modifies this
      ensures Valid(State()) && State() == TimerFires(old(State()))
    {
      if autoCaptureScheduled {
        autoCaptureScheduled := false;
        isCapturing := true;
        countdownActive := true;
      }
    }

    method RemovePhoto(index: int)
      requires Valid(State()) && 0 <= index < |photos|
      modifies this
      ensures Valid(State()) && State() == Remove(old(State()), index)
    {
      photos := photos[index := None];
      if currentPhotoIndex > index {
        currentPhotoIndex := currentPhotoIndex - 1;
      }
    }

    method ReorderPhoto(from: int, to: int)
      requires Valid(State()) && 0 <= from < |photos| && 0 <= to
      modifies this
      ensures Valid(State()) && State() == Reorder(old(State()), from, to)
    {
      photos := ReorderPhotos(photos, from, to);
    }

    method ResetPhotos()
      modifies this
      ensures Valid(State()) && State() == Reset(cfg)
    {
      photos := EmptyRow(cfg.maxPhotos);
      currentPhotoIndex := 0;
      isCapturing := false;
      autoCaptureScheduled := false;
      countdownActive := false;
    }
  }
}
