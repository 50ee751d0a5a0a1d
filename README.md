# HubPhotoBooth core, modelled in Dafny

HubPhotoBooth is a React Native photo-booth app. A guest takes four photos,
places them in the slots of a frame, picks a frame theme, uploads the result
to Cloudinary and gets a QR code that links to it. This project models the
sequential logic under that interface and proves what it promises. All
modules verify together.

- **Redux slices** (`PrinterSlice`, `PhotoSlice`, `FrameSlice`, `UiSlice`,
  `UserSlice`).
  - Each slice is a `class` whose fields are the slice's state.
  - Each reducer, and each `pending`/`fulfilled`/`rejected` handler of an
    async thunk, is a method. Its `ensures` gives the whole new state as the
    old state with the changed fields replaced, so "nothing else changes" is
    part of every contract.
  - List updates (prepend, replace the first match, remove by id, toggle) and
    selectors are pure functions. Their lemmas prove order preservation,
    partition, idempotence and involution.
  - The bounded navigation history and notification list are class
    invariants.
- **Photo-slot rows** (`PhotoUtils`, `PhotoCapture`, `PhotoEditScreen`,
  `SpecialPhotoEditScreen`).
  - `photoUtils.ts` is a set of pure functions over `seq<Option<Photo>>`.
  - The `usePhotoCapture` hook is a `CaptureHook` class over a state record,
    whose transitions are functions.
  - The two edit screens are classes. Their initialisation loops are
    `while` loops with invariants.
- **Frame regions and themes** (`FrameRegions`, `FrameThemeSelection`).
  - Template rectangles are scaled into the measured render box in `real`
    arithmetic.
  - Photos are bound to regions by `region.position` on the edit and theme
    screens, and by list index on the preview screen. The model proves where
    the two bindings agree and where they differ.
  - Themes are filtered by their stored enable flags. An unknown theme falls
    back to the classic regions.
- **String and lookup functions** (`Cloudinary`, `UriComponent`,
  `FrameCatalog`, `Validation`).
  - MIME sniffing and the upload routing.
  - The delivery and QR URL builders. `encodeURIComponent` follows section
    18.2.6.5 of ECMA-262 (6th edition): UTF-8 (section 3 of RFC 3629) with
    percent-encoding (section 2.1 of RFC 3986). Decoding the QR parameter is
    proved to give the image URL back.
  - The static frame catalogue and its lookups.
  - The validation regular expressions, as predicates over strings, each
    proved equal to a scanning checker.
  - The consistency of the frame and print configuration lists.
- **Shared helpers** (`Types`, `Seqs`, `Strings`, `Ordering`).
  - `Types` holds the entity records and enums of `types/index.ts`.
  - `Seqs` provides `FindIndex`, `Filter`, subsequences and an insertion
    sort.
  - `Strings` compares code points lexicographically and prints decimals.
  - `Ordering` holds the sort keys used by the sorting selectors.

`Date` values are integers. Where the source reads the clock (`new Date()`),
the model takes a `now` parameter. Payloads of network calls, file reads and
stored settings are parameters too.

## Model

| member | source | states |
|---|---|---|
| PhotoUtils.PhotoFileToUri | HubPhotoBooth/src/utils/photoUtils.ts:4-6 | the URI starts with `file://` and the rest of it is the camera path |
| PhotoUtils.PhotoFileToObject | HubPhotoBooth/src/utils/photoUtils.ts:9-16 | the id is the path, the URI is `PhotoFileToUri` of it, the order is the one given and the timestamp is the clock reading |
| PhotoUtils.FindEmptySlot | HubPhotoBooth/src/utils/photoUtils.ts:19-21 | the result is the first empty slot (every slot before it is filled), and it is -1 exactly when every slot is filled |
| PhotoUtils.IsPhotoArrayFull | HubPhotoBooth/src/utils/photoUtils.ts:43-45 | a row is full exactly when no slot is `null` |
| PhotoUtils.FullIffNoEmptySlot | HubPhotoBooth/src/utils/photoUtils.ts:43-45 | `isPhotoArrayFull` holds exactly when `findEmptySlot` gives -1 |
| PhotoUtils.GetSelectedPhotos | HubPhotoBooth/src/utils/photoUtils.ts:48-50 | the result has one entry per filled slot, every entry comes from a filled slot, and every filled slot's photo is in it |
| PhotoUtils.CountFilled | HubPhotoBooth/src/utils/photoUtils.ts:48-50 | the number of filled slots is at most the length, and 0 exactly when every slot is `null` |
| PhotoUtils.GetSelectedPhotosSnoc | HubPhotoBooth/src/utils/photoUtils.ts:48-50 | the selection keeps slot order: one more slot at the end adds its photo, if any, at the end |
| PhotoUtils.CountFilledByMultiset | HubPhotoBooth/src/utils/photoUtils.ts:48-50 | the number of selected photos is the length less the number of empty slots |
| PhotoUtils.CountFilledIsLengthIffFull | HubPhotoBooth/src/utils/photoUtils.ts:43-50 | the selection is as long as the row exactly when the row is full |
| PhotoUtils.FullSlotsSelected | HubPhotoBooth/src/utils/photoUtils.ts:48-50 | from a full row the selection is every slot's photo, in slot order |
| PhotoUtils.RemovePhotoFromArray | HubPhotoBooth/src/utils/photoUtils.ts:24-29 | the length is kept; a slot holding the id becomes empty and every other slot is unchanged |
| PhotoUtils.RemovedIdIsGone | HubPhotoBooth/src/utils/photoUtils.ts:24-29 | after removal no slot holds the id and every photo with another id stays where it was |
| PhotoUtils.AddPhotoToArray | HubPhotoBooth/src/utils/photoUtils.ts:32-40 | the copy has the same length, holds the photo at the index and equals the input everywhere else |
| PhotoUtils.RemoveAt | HubPhotoBooth/src/utils/photoUtils.ts:59 | `splice(from, 1)`: one element shorter, the elements after `from` shifted down by one |
| PhotoUtils.InsertAt | HubPhotoBooth/src/utils/photoUtils.ts:60 | `splice(to, 0, x)`: one element longer, `x` at the clamped position, the elements from there on shifted up by one |
| PhotoUtils.RemoveAtMultiset | HubPhotoBooth/src/utils/photoUtils.ts:59 | removing by splice loses exactly the removed element |
| PhotoUtils.InsertAtMultiset | HubPhotoBooth/src/utils/photoUtils.ts:60 | inserting by splice adds exactly the inserted element |
| PhotoUtils.MoveElement | HubPhotoBooth/src/utils/photoUtils.ts:58-60 | the two splices keep the length |
| PhotoUtils.MoveElementSpec | HubPhotoBooth/src/utils/photoUtils.ts:58-60 | the moved array is a permutation of the input, and position `k` holds the input element `MovedFrom(k)`: the moved element at the target, the ones between shifted by one |
| PhotoUtils.Renumber | HubPhotoBooth/src/utils/photoUtils.ts:63-68 | empty slots stay empty and every photo gets `order` = its index + 1, nothing else of it changing |
| PhotoUtils.ReorderPhotos | HubPhotoBooth/src/utils/photoUtils.ts:53-69 | the reordered row has the input's length |
| PhotoUtils.ReorderPhotosSpec | HubPhotoBooth/src/utils/photoUtils.ts:53-69 | every slot holds the photo moved there, renumbered by its new position; filled and empty slots move together, so the number of filled slots is kept |
| PhotoUtils.ReorderMovesToTarget | HubPhotoBooth/src/utils/photoUtils.ts:53-69 | the photo at `fromIndex` ends up at `toIndex` |
| PhotoUtils.CalculateAspectRatio | HubPhotoBooth/src/utils/photoUtils.ts:72-88 | 1 for special frames, 2 for vertical, 2/3 for grid, 1 when no basic type is given; always positive |
| PhotoUtils.CalculatePhotoDimensions | HubPhotoBooth/src/utils/photoUtils.ts:91-99 | the width is the container's and width over height is the ratio |
| PhotoUtils.PhotoHeightsByLayout | HubPhotoBooth/src/utils/photoUtils.ts:72-99 | photo height is the width for special frames, half of it for vertical and one and a half times it for grid |
| PhotoUtils.GetPhotoQuality | HubPhotoBooth/src/utils/photoUtils.ts:102-111 | 0.5 for low, 0.9 for high, 0.8 for medium and for the default |
| PhotoUtils.GetFileExtension | HubPhotoBooth/src/utils/photoUtils.ts:125-127 | the result has no dot; it is the whole name when the name has no dot, otherwise the name is its head, a dot and the result |
| PhotoUtils.IsImageFileAsWritten | HubPhotoBooth/src/utils/photoUtils.ts:130-134 | `isImageFile` as written: it can hold only if the lower-cased extension contains a dot |
| PhotoUtils.IsImageFile | HubPhotoBooth/src/utils/photoUtils.ts:130-134 | the corrected check: an accepted name has a dot and an extension of three or four characters |
| PhotoUtils.ExtensionAfterLastDot | HubPhotoBooth/src/utils/photoUtils.ts:125-127 | the extension is the text after the last dot |
| PhotoUtils.IsImageFileAsWrittenNeverHolds | HubPhotoBooth/src/utils/photoUtils.ts:130-134 | `isImageFile` as written is false for every file name |
| PhotoUtils.IsImageFileAsWrittenRejectsJpg | HubPhotoBooth/src/utils/photoUtils.ts:130-134 | any name ending in `.JPG`, such as `photo.JPG`, is rejected as written and accepted by the corrected check |
| PhotoUtils.IsImageFileAcceptsImageNames | HubPhotoBooth/src/utils/photoUtils.ts:130-134 | the corrected check accepts every name ending in a dot and an image extension in any ASCII case, and rejects names without a dot |
| PhotoCapture.InitialState | HubPhotoBooth/src/hooks/usePhotoCapture.ts:31-35 | `maxPhotos` empty slots, index 0, not capturing |
| PhotoCapture.EmptyRow | HubPhotoBooth/src/hooks/usePhotoCapture.ts:32 | `new Array(n).fill(null)` has `n` slots, all empty |
| PhotoCapture.AspectRatio | HubPhotoBooth/src/hooks/usePhotoCapture.ts:41 | the hook's ratio is positive (it is `calculateAspectRatio` of its arguments) |
| PhotoCapture.Start | HubPhotoBooth/src/hooks/usePhotoCapture.ts:44-60 | nothing changes once the index reaches `maxPhotos`; otherwise capturing starts with the countdown running, while the slots, the index and the auto-capture flag are untouched |
| PhotoCapture.Stop | HubPhotoBooth/src/hooks/usePhotoCapture.ts:63-75 | capturing stops and both timers are cleared; slots and index untouched |
| PhotoCapture.Capture | HubPhotoBooth/src/hooks/usePhotoCapture.ts:78-98 | the photo goes into the current slot numbered index + 1, no other slot changes, the index advances; the next capture is scheduled (capturing flag kept), or capturing stops once `currentPhotoIndex + 1 >= maxPhotos` (schedule flag kept); the countdown flag is untouched in both cases |
| PhotoCapture.TimerFires | HubPhotoBooth/src/hooks/usePhotoCapture.ts:91-93 | a pending auto-capture timer restarts capturing and the countdown; without one nothing changes |
| PhotoCapture.Remove | HubPhotoBooth/src/hooks/usePhotoCapture.ts:101-112 | only the given slot is emptied; the index moves back by one only when it was past that slot; the capturing, auto-capture and countdown flags are untouched |
| PhotoCapture.Reorder | HubPhotoBooth/src/hooks/usePhotoCapture.ts:115-129 | the slots are reordered by the `reorderPhotos` rule, the number of filled slots is kept, nothing else changes |
| PhotoCapture.Reset | HubPhotoBooth/src/hooks/usePhotoCapture.ts:132-146 | `maxPhotos` empty slots, the index back at 0, not capturing, and both the auto-capture and the countdown timer cleared |
| PhotoCapture.CaptureSequence | HubPhotoBooth/src/hooks/usePhotoCapture.ts:78-98 | capturing `n <= maxPhotos` photos from a fresh row fills slots 0..n-1 in order numbered 1..n, leaves the rest empty, and stops capturing when the row is full |
| PhotoCapture.CaptureExtends | HubPhotoBooth/src/hooks/usePhotoCapture.ts:78-98 | one more capture on a row filled in order up to the index extends that order by one slot |
| PhotoCapture.Captures | HubPhotoBooth/src/hooks/usePhotoCapture.ts:87 | each capture advances the index by one |
| PhotoCapture.CapturesLast | HubPhotoBooth/src/hooks/usePhotoCapture.ts:78-98 | a run of captures is the run of all but the last followed by the last |
| PhotoCapture.RemoveUndoesCapture | HubPhotoBooth/src/hooks/usePhotoCapture.ts:78-112 | removing the photo just captured into an empty slot restores the slots and the index |
| PhotoCapture.CaptureHook.StartAutoCapture | HubPhotoBooth/src/hooks/usePhotoCapture.ts:44-60 | the hook's new state is `Start` of the old one |
| PhotoCapture.CaptureHook.StopAutoCapture | HubPhotoBooth/src/hooks/usePhotoCapture.ts:63-75 | the hook's new state is `Stop` of the old one |
| PhotoCapture.CaptureHook.CapturePhoto | HubPhotoBooth/src/hooks/usePhotoCapture.ts:78-98 | the hook's new state is `Capture` of the old one |
| PhotoCapture.CaptureHook.AutoCaptureTimerFires | HubPhotoBooth/src/hooks/usePhotoCapture.ts:91-93 | the hook's new state is `TimerFires` of the old one |
| PhotoCapture.CaptureHook.RemovePhoto | HubPhotoBooth/src/hooks/usePhotoCapture.ts:101-112 | the hook's new state is `Remove` of the old one |
| PhotoCapture.CaptureHook.ReorderPhoto | HubPhotoBooth/src/hooks/usePhotoCapture.ts:115-129 | the hook's new state is `Reorder` of the old one |
| PhotoCapture.CaptureHook.ResetPhotos | HubPhotoBooth/src/hooks/usePhotoCapture.ts:132-146 | the hook's new state is `Reset`: the initial state |
| PhotoCapture.CaptureHook.constructor | HubPhotoBooth/src/hooks/usePhotoCapture.ts:25-35 | the hook starts in the initial state for its configuration |
| FrameRegions.ScaleRegion | HubPhotoBooth/src/screens/PhotoEditScreen.tsx:100-113 | x and width are scaled by box width over template width, y and height by box height over template height, independently |
| FrameRegions.ScaleToOwnSizeIsIdentity | HubPhotoBooth/src/screens/PhotoEditScreen.tsx:100-113 | scaling into a box of the template's own size leaves the region unchanged |
| FrameRegions.ScaleRoundTrip | HubPhotoBooth/src/screens/PhotoEditScreen.tsx:100-113 | scaling into a measured box and back gives the template rectangle |
| FrameRegions.ScaledRegionStaysInBox | HubPhotoBooth/src/screens/PhotoEditScreen.tsx:100-113 | a region inside its template is placed inside the render box |
| FrameRegions.SlotAt | HubPhotoBooth/src/screens/PhotoEditScreen.tsx:143 | `selectedPhotos[region.position]`: the slot when the position is inside the row, nothing otherwise |
| FrameRegions.UriSlots | HubPhotoBooth/src/screens/FramePreviewScreen.tsx:73-81 | an empty (falsy) URI shows the placeholder, any other URI shows itself |
| FrameRegions.PlaceByPosition | HubPhotoBooth/src/screens/PhotoEditScreen.tsx:142-184 | no region before the box is measured non-zero; afterwards every region, scaled into the box, showing the slot its `position` names or a placeholder |
| FrameRegions.PlaceByIndex | HubPhotoBooth/src/screens/FramePreviewScreen.tsx:58-84 | every region, whatever the number of photos, at x/totalWidth·501, y/totalHeight·752 and the same for the sizes, the i-th region showing the i-th URI or a placeholder |
| FrameRegions.BindingsAgreeOnIdentityPositions | HubPhotoBooth/src/screens/FramePreviewScreen.tsx:58-59 | when each region's position is its list index, the preview and the edit-screen bindings show the same thing |
| FrameRegions.BindingsDifferOnReorderedRegions | HubPhotoBooth/src/screens/FramePreviewScreen.tsx:58-59 | binding by list index and binding by `region.position` differ on a template whose regions are listed out of position order |
| PhotoEditScreen.EmptySlots | HubPhotoBooth/src/screens/PhotoEditScreen.tsx:18-20 | four slots, all empty |
| PhotoEditScreen.RollId | HubPhotoBooth/src/screens/PhotoEditScreen.tsx:211 | the picker's id is `photo_` followed by the roll index in decimal |
| PhotoEditScreen.Pick | HubPhotoBooth/src/screens/PhotoEditScreen.tsx:211 | the picked photo carries the roll URI at that index and its `photo_<index>` id |
| PhotoEditScreen.InitialiseSlots | HubPhotoBooth/src/screens/PhotoEditScreen.tsx:25-42 | slot k < 4 takes roll photo k with position k when the roll has one; the other slots keep what they had |
| PhotoEditScreen.PlaceInFirstEmpty | HubPhotoBooth/src/screens/PhotoEditScreen.tsx:55-68 | the photo, with that slot as its position, goes into the first empty slot and no other slot changes; a full row is unchanged |
| PhotoEditScreen.PlaceInFirstEmptyCounts | HubPhotoBooth/src/screens/PhotoEditScreen.tsx:55-68 | placing fills exactly one more slot unless the row is full, and keeps every position equal to its slot |
| PhotoEditScreen.UpdateMultiset | HubPhotoBooth/src/screens/PhotoEditScreen.tsx:59-60 | assigning one slot of a copy swaps exactly that slot's value in the multiset of slots |
| PhotoEditScreen.SamePhotoTwiceFillsTwoSlots | HubPhotoBooth/src/screens/PhotoEditScreen.tsx:55-64 | no duplicate check: picking the same photo twice fills two slots with it |
| PhotoEditScreen.ClearSlot | HubPhotoBooth/src/screens/PhotoEditScreen.tsx:48-53 | exactly the given slot becomes empty |
| PhotoEditScreen.ClearSlotCounts | HubPhotoBooth/src/screens/PhotoEditScreen.tsx:70-74 | clearing a filled slot removes one photo from the count; clearing an empty slot changes nothing |
| PhotoEditScreen.ClearUndoesPlace | HubPhotoBooth/src/screens/PhotoEditScreen.tsx:48-68 | clearing the slot a photo was just placed into restores the row |
| PhotoEditScreen.FrameOrDefault | HubPhotoBooth/src/screens/PhotoEditScreen.tsx:86 | `selectedFrame \|\| 'default'`: never empty; the given frame when it is a non-empty string, `"default"` when it is absent or empty |
| PhotoEditScreen.Uris | HubPhotoBooth/src/screens/PhotoEditScreen.tsx:85 | one URI per photo, in order |
| PhotoEditScreen.Next | HubPhotoBooth/src/screens/PhotoEditScreen.tsx:76-88 | a navigation, when there is one, carries the frame and theme it was given |
| PhotoEditScreen.NextNeedsFullRow | HubPhotoBooth/src/screens/PhotoEditScreen.tsx:76-88 | on four slots "next" goes through exactly when every slot is filled, and then passes the four URIs in slot order |
| PhotoEditScreen.AllPlacedIffFourSelected | HubPhotoBooth/src/screens/PhotoEditScreen.tsx:90-91 | `isAllPhotosPlaced` holds exactly when `selectedCount` is 4 |
| PhotoEditScreen.BadgeNumber | HubPhotoBooth/src/screens/PhotoEditScreen.tsx:200-224 | a badge is shown exactly when some slot holds the URI, and its number is one more than the first such slot |
| PhotoEditScreen.Screen.constructor | HubPhotoBooth/src/screens/PhotoEditScreen.tsx:16-23 | the screen starts with four empty slots and an unmeasured frame |
| PhotoEditScreen.Screen.InitialisePhotos | HubPhotoBooth/src/screens/PhotoEditScreen.tsx:25-42 | the loop leaves the slots as `InitialiseSlots` of the old row and the roll |
| PhotoEditScreen.Screen.HandlePhotoPress | HubPhotoBooth/src/screens/PhotoEditScreen.tsx:48-53 | the new row is `ClearSlot` of the old one at the pressed slot |
| PhotoEditScreen.Screen.HandlePhotoSelect | HubPhotoBooth/src/screens/PhotoEditScreen.tsx:55-68 | the new row is `PlaceInFirstEmpty` of the old one with the picked photo |
| PhotoEditScreen.Screen.HandlePhotoRemove | HubPhotoBooth/src/screens/PhotoEditScreen.tsx:70-74 | the new row is `ClearSlot` of the old one at the given slot |
| PhotoEditScreen.Screen.OnFrameLayout | HubPhotoBooth/src/screens/PhotoEditScreen.tsx:93-97 | the measured box is stored and the slots are untouched |
| PhotoEditScreen.Screen.HandleNext | HubPhotoBooth/src/screens/PhotoEditScreen.tsx:76-88 | navigates exactly when every slot is filled, with the slot URIs in order and `selectedFrame \|\| 'default'` |
| PhotoEditScreen.Screen.SelectedCount | HubPhotoBooth/src/screens/PhotoEditScreen.tsx:91 | the counter is the number of filled slots (4 less the empty ones, and the length of the selection), and it is 4 exactly when every slot holds a photo |
| PhotoEditScreen.Screen.RenderedRegions | HubPhotoBooth/src/screens/PhotoEditScreen.tsx:142-184 | nothing is drawn before the frame is measured; afterwards one region per template region, scaled into the measured box, showing a photo exactly when the slot its `position` names is filled, and then that slot's photo, which is one of the selected photos |
| SpecialPhotoEditScreen.ClearUri | HubPhotoBooth/src/screens/SpecialPhotoEditScreen.tsx:93-95 | every slot holding a photo with that URI becomes empty, the others are unchanged, and afterwards no slot shows the URI |
| SpecialPhotoEditScreen.TogglePhoto | HubPhotoBooth/src/screens/SpecialPhotoEditScreen.tsx:87-111 | the row keeps its length |
| SpecialPhotoEditScreen.TogglePhotoSpec | HubPhotoBooth/src/screens/SpecialPhotoEditScreen.tsx:87-111 | a placed photo is taken out of every slot and no other slot changes; an absent photo fills the first empty slot at that position; on a full row an absent photo changes nothing |
| SpecialPhotoEditScreen.ToggleTwiceRestores | HubPhotoBooth/src/screens/SpecialPhotoEditScreen.tsx:87-111 | toggling an absent photo into a row with room, then toggling it again, restores the row |
| SpecialPhotoEditScreen.TogglePhotoKeepsUrisDistinct | HubPhotoBooth/src/screens/SpecialPhotoEditScreen.tsx:89-106 | if no two slots hold the same URI before the toggle, none do after it |
| SpecialPhotoEditScreen.HyungyoOverlay | HubPhotoBooth/src/screens/SpecialPhotoEditScreen.tsx:42-50 | overlay index + 1 for an index in 0..3 and the first overlay for any other index |
| SpecialPhotoEditScreen.Screen.constructor | HubPhotoBooth/src/screens/SpecialPhotoEditScreen.tsx:27-34 | the screen starts with four empty slots and an unmeasured frame |
| SpecialPhotoEditScreen.Screen.InitialisePhotos | HubPhotoBooth/src/screens/SpecialPhotoEditScreen.tsx:57-74 | the loop leaves the slots as `InitialiseSlots` of the old row and the roll: slot k < 4 holds roll photo k at position k |
| SpecialPhotoEditScreen.Screen.HandlePhotoPress | HubPhotoBooth/src/screens/SpecialPhotoEditScreen.tsx:80-85 | only the pressed slot becomes empty |
| SpecialPhotoEditScreen.Screen.HandlePhotoSelect | HubPhotoBooth/src/screens/SpecialPhotoEditScreen.tsx:87-111 | the new row is `TogglePhoto` of the old one with the picked photo |
| SpecialPhotoEditScreen.Screen.OnFrameLayout | HubPhotoBooth/src/screens/SpecialPhotoEditScreen.tsx:131-135 | the measured box is stored and the slots are untouched |
| SpecialPhotoEditScreen.Screen.HandleNext | HubPhotoBooth/src/screens/SpecialPhotoEditScreen.tsx:113-126 | navigates exactly when the four slots are filled, with their URIs in slot order, frame `special_frame` and theme `hyungyo` |
| SpecialPhotoEditScreen.Screen.RegionOverlays | HubPhotoBooth/src/screens/SpecialPhotoEditScreen.tsx:194-238 | a drawn region carries an overlay exactly when it shows a photo, and it is the overlay of the region's position |
| FrameThemeSelection.AllEnabled | HubPhotoBooth/src/screens/FrameThemeSelectionScreen.tsx:48-56 | with nothing stored the settings have exactly the file's theme keys, in file order, each mapped to `true` |
| FrameThemeSelection.DefaultSettings | HubPhotoBooth/src/screens/FrameThemeSelectionScreen.tsx:52-55 | the `forEach` loop builds exactly `AllEnabled` of the file |
| FrameThemeSelection.DefaultSettingsListEveryTheme | HubPhotoBooth/src/screens/FrameThemeSelectionScreen.tsx:48-75 | with nothing stored every theme of the file is listed, in file order |
| FrameThemeSelection.ThemeDisplayName | HubPhotoBooth/src/screens/FrameThemeSelectionScreen.tsx:64-72 | classic is 레드, vintage 화이트, leadership 리더십, and any other id is its own name |
| FrameThemeSelection.GetFrameImage | HubPhotoBooth/src/screens/FrameThemeSelectionScreen.tsx:129-141 | the white and leadership assets are chosen exactly for their image names; anything else, a missing theme included, gets the black frame |
| FrameThemeSelection.GetThemeRegions | HubPhotoBooth/src/screens/FrameThemeSelectionScreen.tsx:144-147 | the theme's regions when it has some, the classic regions otherwise |
| FrameThemeSelection.UnknownThemeFallsBackToClassic | HubPhotoBooth/src/screens/FrameThemeSelectionScreen.tsx:144-147 | an unknown theme id draws the classic regions |
| FrameThemeSelection.ThemeOf | HubPhotoBooth/src/screens/FrameThemeSelectionScreen.tsx:63-75 | a listed theme carries its id, its display name and its frame image |
| FrameThemeSelection.EnabledKeys | HubPhotoBooth/src/screens/FrameThemeSelectionScreen.tsx:61-62 | every listed key is mapped to a truthy value, and every key mapped to a truthy value is listed |
| FrameThemeSelection.EnabledKeysInKeyOrder | HubPhotoBooth/src/screens/FrameThemeSelectionScreen.tsx:61-62 | the enabled keys keep their key order |
| FrameThemeSelection.ThemesOf | HubPhotoBooth/src/screens/FrameThemeSelectionScreen.tsx:63-75 | one theme entry per id, in order |
| FrameThemeSelection.LoadedSelectionIsEnabled | HubPhotoBooth/src/screens/FrameThemeSelectionScreen.tsx:79-82 | the theme selected after loading is one the settings enable |
| FrameThemeSelection.Screen.constructor | HubPhotoBooth/src/screens/FrameThemeSelectionScreen.tsx:30-35 | `classic` is selected, no settings, no themes, frame unmeasured |
| FrameThemeSelection.Screen.ApplySettings | HubPhotoBooth/src/screens/FrameThemeSelectionScreen.tsx:58-82 | the settings are stored, the enabled themes listed in key order, and the first of them selected when there is one |
| FrameThemeSelection.Screen.LoadFrameSettings | HubPhotoBooth/src/screens/FrameThemeSelectionScreen.tsx:43-86 | a failed read or parse changes nothing (`classic` stays, no themes); otherwise the stored settings, or all themes enabled when nothing is stored, are applied |
| FrameThemeSelection.Screen.HandleThemeSelect | HubPhotoBooth/src/screens/FrameThemeSelectionScreen.tsx:92-94 | only the selected theme changes |
| FrameThemeSelection.Screen.OnFrameLayout | HubPhotoBooth/src/screens/FrameThemeSelectionScreen.tsx:105-109 | only the measured box changes |
| FrameThemeSelection.Screen.PressNext | HubPhotoBooth/src/screens/FrameThemeSelectionScreen.tsx:286-292 | no navigation while no theme is available; otherwise the photos, `selectedFrame \|\| 'default'` and the selected theme |
| FrameThemeSelection.Screen.RenderedRegions | HubPhotoBooth/src/screens/FrameThemeSelectionScreen.tsx:194-227 | nothing is drawn before the frame is measured; afterwards one region per region of the selected theme (classic as fallback), scaled into the measured box, showing `photos[region.position]` exactly when that entry exists and is a non-empty URI |
| Cloudinary.LocalFilePath | HubPhotoBooth/src/services/cloudinary.ts:63-66 | a local image is read from a `file://` path: the URI itself when it has the scheme, `file://` before it otherwise |
| Cloudinary.IsLocalUri | HubPhotoBooth/src/services/cloudinary.ts:96 | a URI taken for a local file is non-empty and begins with `/` or the `f` of `file://` |
| Cloudinary.LocalFilePathIdempotent | HubPhotoBooth/src/services/cloudinary.ts:63-66 | the prefix is added only when missing, so normalising twice changes nothing more |
| Cloudinary.CameraUrisAreLocal | HubPhotoBooth/src/services/cloudinary.ts:96-102 | a camera photo's URI and a bare absolute path are both routed to local upload and read from the same `file://` URI |
| Cloudinary.MimeName | HubPhotoBooth/src/services/cloudinary.ts:112-120 | every guessed type is an `image/` type |
| Cloudinary.DetectImageMimeType | HubPhotoBooth/src/services/cloudinary.ts:112-120 | the first of `.png`, then `.jpg`/`.jpeg`, then `.gif`, then `.webp` found in the lower-cased URI decides the type, and PNG when none occurs; each non-PNG type is chosen only when its extension occurs |
| Cloudinary.DottedPattern | HubPhotoBooth/src/services/cloudinary.ts:113-117 | in a string with one dot, a dotted pattern is a substring exactly when the text after the dot begins with the rest of the pattern |
| Cloudinary.MimeOfSingleDotName | HubPhotoBooth/src/services/cloudinary.ts:112-120 | for a name with one dot, the checks in order give png, then jpg or jpeg, then gif, then webp by how the lower-cased extension begins, and PNG otherwise |
| Cloudinary.UpperCaseJpgIsJpeg | HubPhotoBooth/src/services/cloudinary.ts:112-120 | the URI is lower-cased first: `photo.JPG` is sent as JPEG |
| Cloudinary.EarlierPatternWins | HubPhotoBooth/src/services/cloudinary.ts:112-120 | the first check that matches decides, not the last extension: `a.png.jpg` is sent as PNG |
| Cloudinary.UploadEndpoint | HubPhotoBooth/src/services/cloudinary.ts:130 | the upload URL is under `https://api.cloudinary.com/v1_1/` |
| Cloudinary.PublicId | HubPhotoBooth/src/services/cloudinary.ts:143 | the public id starts with `photo_` |
| Cloudinary.BuildUploadForm | HubPhotoBooth/src/services/cloudinary.ts:125-197 | a local URI is posted as a data URL with the guessed MIME type and the file's base64 content, a remote one as the URL itself; the preset is sent exactly when it is configured; folder and public id as given |
| Cloudinary.LocalUploadsAreDataUrls | HubPhotoBooth/src/services/cloudinary.ts:134-137 | a local image is always posted as a `data:image/` URL |
| Cloudinary.BatchFolder | HubPhotoBooth/src/services/cloudinary.ts:236 | the batch folder is the preset when it is set and `hub_photo_booth` when it is empty, so never empty |
| Cloudinary.UploadMultipleImages | HubPhotoBooth/src/services/cloudinary.ts:236-251 | the loop returns the successful results in input order, skipping failures, and never more results than images |
| Cloudinary.AllUploadsSucceed | HubPhotoBooth/src/services/cloudinary.ts:236-251 | when every upload succeeds every image has its result, in order |
| Cloudinary.OrDefault | HubPhotoBooth/src/services/cloudinary.ts:265-266 | `options?.x \|\| d`: the option when it is present and non-zero, the default otherwise |
| Cloudinary.GenerateImageUrl | HubPhotoBooth/src/services/cloudinary.ts:258-274 | the URL starts with the delivery base, the cloud name and `/image/upload/w_` |
| Cloudinary.ImageUrlDefaults | HubPhotoBooth/src/services/cloudinary.ts:265-266 | an absent or zero width and quality give the same URL as 1500 and 80 |
| Cloudinary.DecimalHasNoComma | HubPhotoBooth/src/services/cloudinary.ts:270 | a printed integer holds no comma, so the transformation's fields stay separable |
| Cloudinary.NumberBeforeField | HubPhotoBooth/src/services/cloudinary.ts:270 | an integer printed before a comma-led field can be read back together with what follows |
| Cloudinary.ImageUrlDeterminesOptions | HubPhotoBooth/src/services/cloudinary.ts:258-274 | two calls give the same URL only when they agree on the effective width, the effective quality and the public id |
| Cloudinary.GenerateQRImageUrl | HubPhotoBooth/src/services/cloudinary.ts:279-285 | the QR URL is the fixed hub4cut prefix followed by a value made only of unreserved characters and `%` |
| Cloudinary.QrUrlRoundTrip | HubPhotoBooth/src/services/cloudinary.ts:279-285 | decoding the `url` parameter gives back the image URL |
| Cloudinary.QrUrlHasOneParameter | HubPhotoBooth/src/services/cloudinary.ts:279-285 | the encoded value holds no `&` or `#`, so it cannot end the parameter early |
| UriComponent.Utf8 | HubPhotoBooth/src/services/cloudinary.ts:284 | the UTF-8 form has 1 to 4 bytes, one exactly for ASCII, with the lead byte and value range of its length and continuation bytes after it |
| UriComponent.HexDigit | HubPhotoBooth/src/services/cloudinary.ts:284 | a hexadecimal digit is an unreserved character |
| UriComponent.HexValue | HubPhotoBooth/src/services/cloudinary.ts:284 | the value of a hexadecimal digit is below 16 |
| UriComponent.HexValueOfDigit | HubPhotoBooth/src/services/cloudinary.ts:284 | reading a written digit gives its value back |
| UriComponent.PercentByte | HubPhotoBooth/src/services/cloudinary.ts:284 | an escape is `%` and two unreserved digits |
| UriComponent.PercentBytes | HubPhotoBooth/src/services/cloudinary.ts:284 | three characters per byte |
| UriComponent.EncodeChar | HubPhotoBooth/src/services/cloudinary.ts:284 | an unreserved character is kept as is; any other becomes escapes starting with `%` |
| UriComponent.UriSafeHasNoDelimiters | HubPhotoBooth/src/services/cloudinary.ts:284 | an encoded string holds neither `&` nor `#` |
| UriComponent.UriSafeConcat | HubPhotoBooth/src/services/cloudinary.ts:284 | joining two encoded strings gives an encoded string |
| UriComponent.PercentBytesAreSafe | HubPhotoBooth/src/services/cloudinary.ts:284 | escaped bytes are made of unreserved characters and `%` only |
| UriComponent.EncodeURIComponent | HubPhotoBooth/src/services/cloudinary.ts:284 | the encoding is at least as long as the input and made of unreserved characters and `%` only |
| UriComponent.ReadByte | HubPhotoBooth/src/services/cloudinary.ts:284 | a byte is read only from a three-character escape |
| UriComponent.ReadPercentByte | HubPhotoBooth/src/services/cloudinary.ts:284 | reading an escaped byte gives the byte back, whatever follows |
| UriComponent.ReadContinuations | HubPhotoBooth/src/services/cloudinary.ts:284 | `n` continuation bytes are read from at least `3n` characters |
| UriComponent.ContinuationCount | HubPhotoBooth/src/services/cloudinary.ts:284 | the lead byte announces one, two or three continuation bytes by its range, and none otherwise |
| UriComponent.DecodeOne | HubPhotoBooth/src/services/cloudinary.ts:284 | a decoded character takes at least one and at most all of the input characters |
| UriComponent.DecodeURIComponent | HubPhotoBooth/src/services/cloudinary.ts:284 | `decodeURIComponent`: a successful decoding is never longer than its input |
| UriComponent.PercentBytesCons | HubPhotoBooth/src/services/cloudinary.ts:284 | escaped bytes are the first byte's escape followed by the rest's |
| UriComponent.ReadEncodedContinuations | HubPhotoBooth/src/services/cloudinary.ts:284 | escaped continuation bytes read back to the value they fold to |
| UriComponent.Utf8Folds | HubPhotoBooth/src/services/cloudinary.ts:284 | the bytes of a multi-byte UTF-8 form fold back to the scalar value |
| UriComponent.FoldSteps | HubPhotoBooth/src/services/cloudinary.ts:284 | folding one, two or three bytes, written out |
| UriComponent.DecodeOneEncodeChar | HubPhotoBooth/src/services/cloudinary.ts:284 | decoding reads an encoded character back whatever follows it |
| UriComponent.DecodeOneOfLead | HubPhotoBooth/src/services/cloudinary.ts:284 | a well-formed escaped sequence in range decodes to its scalar value and takes three characters per byte |
| UriComponent.DecodeEscapedForm | HubPhotoBooth/src/services/cloudinary.ts:284 | an escaped multi-byte form with the right lead byte, continuation bytes and an in-range, non-surrogate value decodes to that value |
| UriComponent.DecodeMultiByte | HubPhotoBooth/src/services/cloudinary.ts:284 | the escapes of a multi-byte character decode to that character |
| UriComponent.DecodeEncode | HubPhotoBooth/src/services/cloudinary.ts:284 | `decodeURIComponent(encodeURIComponent(s))` gives `s` back for every string |
| FrameCatalog.CategoryGroup | HubPhotoBooth/src/constants/frames.ts:89-120 | group k has the k-th id and name; the basic group holds the basic list, every other group the order-preserving filter of the special frames on its id |
| FrameCatalog.FrameCategoriesAreGroups | HubPhotoBooth/src/constants/frames.ts:89-120 | `frameCategories` is the six groups in order |
| FrameCatalog.GetFramesByType | HubPhotoBooth/src/constants/frames.ts:123-129 | `'basic'` gives the basic list and any other argument the special list |
| FrameCatalog.FramesByTypeMatchCategory | HubPhotoBooth/src/constants/frames.ts:123-129 | the type lookup gives basic-category frames exactly when the basic type is asked for |
| FrameCatalog.GroupIdsDistinct | HubPhotoBooth/src/constants/frames.ts:89-120 | no two groups share an id |
| FrameCatalog.GetFramesByCategory | HubPhotoBooth/src/constants/frames.ts:132-134 | the frames of the group with that id, and none for an unknown id |
| FrameCatalog.BasicFramesAreBasic | HubPhotoBooth/src/constants/frames.ts:4-40 | every basic frame is of the basic category |
| FrameCatalog.SpecialCategoriesHaveGroups | HubPhotoBooth/src/constants/frames.ts:43-86 | every special frame's category is the id of a special group |
| FrameCatalog.FramesByCategoryAreOfThatCategory | HubPhotoBooth/src/constants/frames.ts:132-134 | the lookup by category gives frames of that category only |
| FrameCatalog.SpecialGroupsAreFilters | HubPhotoBooth/src/constants/frames.ts:95-119 | each special group is the filter of the special list on its id, and so an order-preserving sublist of it |
| FrameCatalog.SpecialFrameInGroup | HubPhotoBooth/src/constants/frames.ts:89-120 | a special frame is in a group exactly when the group's id is its category |
| FrameCatalog.EverySpecialFrameInOneGroup | HubPhotoBooth/src/constants/frames.ts:43-119 | every special frame is in exactly one group, the one of its category |
| FrameCatalog.FrameIdsUnique | HubPhotoBooth/src/constants/frames.ts:4-86 | no id is used twice across the basic and special lists |
| Validation.IndexOfChar | HubPhotoBooth/src/constants/index.ts:353 | the index of the first occurrence of the character, or -1 exactly when it does not occur |
| Validation.IndexOfCharAt | HubPhotoBooth/src/constants/index.ts:354 | the first occurrence is found where nothing before it is that character |
| Validation.EmailPattern | HubPhotoBooth/src/constants/index.ts:353 | `EMAIL` as the shape it describes; a match is at least five characters long |
| Validation.IsValidEmail | HubPhotoBooth/src/constants/index.ts:353 | the direct email check; an accepted string is at least five characters long and holds `@` |
| Validation.EmailCheckSound | HubPhotoBooth/src/constants/index.ts:353 | every string the direct email check accepts matches `EMAIL` |
| Validation.EmailRunsCover | HubPhotoBooth/src/constants/index.ts:353 | outside the `@`, the three runs of `EMAIL` leave only non-space, non-`@` characters |
| Validation.EmailCheckComplete | HubPhotoBooth/src/constants/index.ts:353 | every string matching `EMAIL` passes the direct check |
| Validation.EmailCheckMatchesPattern | HubPhotoBooth/src/constants/index.ts:353 | `EMAIL` accepts exactly the strings with no whitespace, one `@` that is not first, and a dot after it that is neither right after the `@` nor last |
| Validation.PhonePattern | HubPhotoBooth/src/constants/index.ts:354 | `PHONE` as the shape it describes; a match is 11 to 13 characters long |
| Validation.IsValidPhone | HubPhotoBooth/src/constants/index.ts:354 | the direct phone check; an accepted string is 11 to 13 characters long |
| Validation.PhoneCheckSound | HubPhotoBooth/src/constants/index.ts:354 | every string the direct phone check accepts matches `PHONE` |
| Validation.PhoneCheckComplete | HubPhotoBooth/src/constants/index.ts:354 | every string matching `PHONE` passes the direct check |
| Validation.PhoneCheckMatchesPattern | HubPhotoBooth/src/constants/index.ts:354 | `PHONE` accepts exactly 2–3 digits, `-`, 3–4 digits, `-`, 4 digits and nothing else |
| Validation.PasswordPattern | HubPhotoBooth/src/constants/index.ts:355 | `PASSWORD` as the shape it describes; a match holds no whitespace |
| Validation.IsValidPassword | HubPhotoBooth/src/constants/index.ts:355 | the one-pass password check; an accepted string holds a digit |
| Validation.ScanPasswordSpec | HubPhotoBooth/src/constants/index.ts:355 | one pass finds whether every character is allowed, whether there is a letter and whether there is a digit |
| Validation.PasswordCheckMatchesPattern | HubPhotoBooth/src/constants/index.ts:355 | `PASSWORD` accepts exactly the strings of at least 8 letters, digits and `@$!%*#?&` holding a letter and a digit |
| Validation.DecimalValueOfThree | HubPhotoBooth/src/constants/index.ts:357 | the value of three digits, written out |
| Validation.DecimalValueOfFewDigits | HubPhotoBooth/src/constants/index.ts:357 | one or two digits are at most 99 |
| Validation.OctetPatternIsOctet | HubPhotoBooth/src/constants/index.ts:357 | the octet alternatives accept exactly 1–3 digits of value at most 255, leading zeros allowed |
| Validation.Split | HubPhotoBooth/src/constants/index.ts:356-357 | at least one part, and no part holds the separator |
| Validation.SplitJoin | HubPhotoBooth/src/constants/index.ts:356-357 | splitting the join of separator-free parts gives the parts back |
| Validation.JoinSplit | HubPhotoBooth/src/constants/index.ts:356-357 | joining the parts of a split gives the string back |
| Validation.IpAddressPattern | HubPhotoBooth/src/constants/index.ts:356-357 | `IP_ADDRESS` as the shape it describes; a match is 7 to 15 characters long |
| Validation.IsValidIpAddress | HubPhotoBooth/src/constants/index.ts:356-357 | the split-based check; an accepted string is 7 to 15 characters long |
| Validation.IpCheckMatchesPattern | HubPhotoBooth/src/constants/index.ts:356-357 | `IP_ADDRESS` accepts exactly four dot-separated octets |
| Validation.OctetExamples | HubPhotoBooth/src/constants/index.ts:357 | `001` and `255` are octets and `256` is not |
| Validation.FrameConfigListsMatchEnums | HubPhotoBooth/src/constants/index.ts:45-58 | the category, season and event lists name every value of their enum in `types/index.ts`, once each, in declaration order |
| Validation.PrintConfigConsistent | HubPhotoBooth/src/constants/index.ts:61-68 | the paper-size and quality defaults are in their lists, `DEFAULT_COPIES` is within `MAX_COPIES`, and the lists are the enums' values |
| Seqs.FindIndex | HubPhotoBooth/src/utils/photoUtils.ts:20 | `findIndex`: the first index whose element passes, or -1 exactly when none does |
| Seqs.FindIndexAgrees | HubPhotoBooth/src/store/slices/frameSlice.ts:193 | two lists on whose positions the test agrees have the same first match |
| Seqs.UpdateFirst | HubPhotoBooth/src/store/slices/frameSlice.ts:191-197 | `find` then an update in place: only the first passing element is changed, and nothing when none passes |
| Seqs.Filter | HubPhotoBooth/src/utils/photoUtils.ts:49 | `filter`: no longer than the input, every kept element is from the input and passes, every passing element is kept |
| Seqs.FilterMembership | HubPhotoBooth/src/utils/photoUtils.ts:49 | an element is kept exactly when it is in the input and passes |
| Seqs.PermutedFilterMembers | HubPhotoBooth/src/store/slices/photoSlice.ts:488-530 | a reordering of the filtered list holds exactly the input elements that pass |
| Seqs.FilterIsSubsequence | HubPhotoBooth/src/utils/photoUtils.ts:49 | filtering keeps the kept elements in their relative order |
| Seqs.FilterConcat | HubPhotoBooth/src/utils/photoUtils.ts:49 | filtering distributes over concatenation |
| Seqs.FilterAllPass | HubPhotoBooth/src/utils/photoUtils.ts:49 | when everything passes, filtering keeps everything |
| Seqs.FilterTwice | HubPhotoBooth/src/store/slices/photoSlice.ts:494-516 | filtering by one test and then another is filtering by both |
| Seqs.Count | HubPhotoBooth/src/utils/photoUtils.ts:49 | a count never exceeds the length |
| Seqs.InsertSorted | HubPhotoBooth/src/store/slices/photoSlice.ts:519-528 | inserting adds exactly one element |
| Seqs.SortBy | HubPhotoBooth/src/store/slices/photoSlice.ts:519-528 | sorting a copy is a permutation of it |
| Seqs.InsertSortedKeepsOrder | HubPhotoBooth/src/store/slices/photoSlice.ts:519-528 | inserting into a sorted list keeps it sorted under a total preorder |
| Seqs.SortByIsSorted | HubPhotoBooth/src/store/slices/photoSlice.ts:519-528 | the sorted copy is ordered by the total preorder |
| Strings.LexLessIrreflexive | HubPhotoBooth/src/store/slices/photoSlice.ts:519-528 | no string is below itself under `<` |
| Strings.LexLessTransitive | HubPhotoBooth/src/store/slices/photoSlice.ts:519-528 | string `<` is transitive |
| Strings.LexLessTotal | HubPhotoBooth/src/store/slices/photoSlice.ts:519-528 | two different strings are ordered one way or the other |
| Strings.ContainsAt | HubPhotoBooth/src/services/cloudinary.ts:114 | `includes` finds a string at any offset where it occurs |
| Strings.ContainsWitness | HubPhotoBooth/src/services/cloudinary.ts:114 | where `includes` holds the string occurs at some offset |
| Strings.LastIndexOf | HubPhotoBooth/src/utils/photoUtils.ts:126 | `lastIndexOf`: the last position of the character, or -1 exactly when it does not occur |
| Strings.LowerChar | HubPhotoBooth/src/utils/photoUtils.ts:132 | an ASCII capital becomes a small letter; any other character is kept |
| Strings.LowerAscii | HubPhotoBooth/src/utils/photoUtils.ts:132 | `toLowerCase` character by character, keeping the length |
| Strings.DigitChar | HubPhotoBooth/src/services/cloudinary.ts:270 | a digit's character has that value |
| Strings.NatToDecimal | HubPhotoBooth/src/services/cloudinary.ts:270 | a non-empty string of digits without a leading zero |
| Strings.DecimalRoundTrip | HubPhotoBooth/src/services/cloudinary.ts:270 | reading the printed digits back gives the number |
| Strings.IntToDecimal | HubPhotoBooth/src/services/cloudinary.ts:270 | an integer in a template literal: its digits, with `-` before a negative one |
| Strings.IntToDecimalInjective | HubPhotoBooth/src/services/cloudinary.ts:270 | different integers print differently |
| Strings.SplitAtSeparator | HubPhotoBooth/src/services/cloudinary.ts:270 | a separator absent from both heads splits two equal strings at the same place |
| Ordering.KeyLessIsStrictTotalOrder | HubPhotoBooth/src/store/slices/photoSlice.ts:519-528 | `<` on the sort keys is irreflexive, transitive and total |
| Ordering.InOrderIsTotalPreorder | HubPhotoBooth/src/store/slices/photoSlice.ts:519-528 | "the comparator does not return 1" is total and transitive in both directions |
| Ordering.SortByKey | HubPhotoBooth/src/store/slices/photoSlice.ts:519-528 | the sorted copy is a permutation of the input |
| Ordering.SortByKeyOrders | HubPhotoBooth/src/store/slices/photoSlice.ts:519-528 | the sorted copy has non-decreasing keys for `asc` and non-increasing keys for `desc` |
| PrinterSlice.MergeHealth | HubPhotoBooth/src/store/slices/printerSlice.ts:268 | for each of the five fields, a key the patch carries overrides the health record's and a key it lacks keeps the old value; an empty patch changes nothing |
| PrinterSlice.MergeHealthIdempotent | HubPhotoBooth/src/store/slices/printerSlice.ts:268 | spreading the same partial health record twice is the same as spreading it once |
| PrinterSlice.SetJobStatus | HubPhotoBooth/src/store/slices/printerSlice.ts:252-256 | the job list keeps its length and every job's id |
| PrinterSlice.SetJobStatusChangesFirstMatchOnly | HubPhotoBooth/src/store/slices/printerSlice.ts:253-256 | only the first job with the id (what `find` returns) gets the new status; every other job is unchanged, and an unknown id leaves the list as it was |
| PrinterSlice.SetCurrentJobStatus | HubPhotoBooth/src/store/slices/printerSlice.ts:258-260 | the current job gets the new status exactly when its id matches; otherwise it is unchanged, and an absent current job stays absent |
| PrinterSlice.RemoveJobs | HubPhotoBooth/src/store/slices/printerSlice.ts:305 | no job with the removed id survives |
| PrinterSlice.RemoveJobsKeepsOthers | HubPhotoBooth/src/store/slices/printerSlice.ts:305 | the remaining jobs are an order-preserving sublist that keeps every job with another id, and an absent id changes nothing |
| PrinterSlice.ClearCurrentIf | HubPhotoBooth/src/store/slices/printerSlice.ts:307-309 | the current job is cleared exactly when it carries the removed id, and is otherwise kept |
| PrinterSlice.FirstPrinting | HubPhotoBooth/src/store/slices/printerSlice.ts:404-405 | the current job after fetching the queue is a job of the queue in the printing state, and there is none exactly when no job is printing |
| PrinterSlice.SetPrinterStatus | HubPhotoBooth/src/store/slices/printerSlice.ts:240-244 | the first printer with the id gets the status; every other printer and every id is unchanged |
| PrinterSlice.ReplacePrinter | HubPhotoBooth/src/store/slices/printerSlice.ts:452-455 | the first printer with the payload's id is replaced by the payload; all other printers are unchanged |
| PrinterSlice.ActivePrintJobs | HubPhotoBooth/src/store/slices/printerSlice.ts:526-529 | every job returned is queued, processing or printing |
| PrinterSlice.CompletedPrintJobs | HubPhotoBooth/src/store/slices/printerSlice.ts:532-534 | every job returned is completed |
| PrinterSlice.FailedPrintJobs | HubPhotoBooth/src/store/slices/printerSlice.ts:537-538 | every job returned has failed |
| PrinterSlice.JobSelectorsPartition | HubPhotoBooth/src/store/slices/printerSlice.ts:526-538 | the three job selectors are order-preserving sublists of the job list and, with the cancelled jobs, count every job exactly once |
| PrinterSlice.JobSelectorsDisjoint | HubPhotoBooth/src/store/slices/printerSlice.ts:526-538 | no job is returned by two selectors and no cancelled job by any |
| PrinterSlice.OnlinePrinters | HubPhotoBooth/src/store/slices/printerSlice.ts:510-511 | exactly the online printers are returned |
| PrinterSlice.AvailablePrinters | HubPhotoBooth/src/store/slices/printerSlice.ts:514-523 | every available printer is online |
| PrinterSlice.AvailableIsAllOrNothing | HubPhotoBooth/src/store/slices/printerSlice.ts:514-523 | because the health record is shared, the available printers are all online printers when it reports online with paper and ink, and none otherwise |
| PrinterSlice.Slice.constructor | HubPhotoBooth/src/store/slices/printerSlice.ts:194-214 | the initial state: no printers, nothing selected, disconnected, not loading, no jobs, health offline with paper and ink |
| PrinterSlice.Slice.SetSelectedPrinter | HubPhotoBooth/src/store/slices/printerSlice.ts:222-224 | only the selected printer changes |
| PrinterSlice.Slice.SetConnectionStatus | HubPhotoBooth/src/store/slices/printerSlice.ts:227-233 | the status is stored and `isConnected` holds exactly when it is connected; nothing else changes |
| PrinterSlice.Slice.UpdatePrinterStatus | HubPhotoBooth/src/store/slices/printerSlice.ts:236-245 | the printer list becomes `SetPrinterStatus` of the old one; nothing else changes |
| PrinterSlice.Slice.UpdatePrintJobStatus | HubPhotoBooth/src/store/slices/printerSlice.ts:248-261 | the job list and the current job both take the new status for the id; nothing else changes |
| PrinterSlice.Slice.UpdatePrinterHealth | HubPhotoBooth/src/store/slices/printerSlice.ts:264-269 | the health record is merged with the patch; nothing else changes |
| PrinterSlice.Slice.SetPrinterLoading | HubPhotoBooth/src/store/slices/printerSlice.ts:272-274 | only the loading flag changes |
| PrinterSlice.Slice.SetPrinterError | HubPhotoBooth/src/store/slices/printerSlice.ts:277-279 | only the error changes |
| PrinterSlice.Slice.ClearPrinterState | HubPhotoBooth/src/store/slices/printerSlice.ts:282-295 | connection, jobs, current job and health return to their initial values; printers, loading flag and error are kept |
| PrinterSlice.Slice.AddPrintJob | HubPhotoBooth/src/store/slices/printerSlice.ts:298-300 | the job is put at the front of the list; nothing else changes |
| PrinterSlice.Slice.RemovePrintJob | HubPhotoBooth/src/store/slices/printerSlice.ts:303-310 | jobs with the id are removed and the current job is cleared if it has that id |
| PrinterSlice.Slice.SetCurrentJob | HubPhotoBooth/src/store/slices/printerSlice.ts:313-315 | only the current job changes |
| PrinterSlice.Slice.RequestPending | HubPhotoBooth/src/store/slices/printerSlice.ts:322-325 | loading starts and the error is cleared; nothing else changes (shared by six thunks) |
| PrinterSlice.Slice.RequestRejected | HubPhotoBooth/src/store/slices/printerSlice.ts:331-334 | loading stops and the rejection message becomes the error (shared by six thunks) |
| PrinterSlice.Slice.FetchPrintersFulfilled | HubPhotoBooth/src/store/slices/printerSlice.ts:326-330 | the payload becomes the printer list; loading stops and the error is cleared |
| PrinterSlice.Slice.ConnectToPrinterPending | HubPhotoBooth/src/store/slices/printerSlice.ts:338-342 | loading, connecting, error cleared |
| PrinterSlice.Slice.ConnectToPrinterFulfilled | HubPhotoBooth/src/store/slices/printerSlice.ts:343-349 | connected to the payload printer, which becomes the selected one |
| PrinterSlice.Slice.ConnectToPrinterRejected | HubPhotoBooth/src/store/slices/printerSlice.ts:350-355 | status `error`, not connected, the message is the error |
| PrinterSlice.Slice.DisconnectFromPrinterFulfilled | HubPhotoBooth/src/store/slices/printerSlice.ts:363-369 | disconnected and nothing selected |
| PrinterSlice.Slice.SendPrintJobFulfilled | HubPhotoBooth/src/store/slices/printerSlice.ts:381-386 | the sent job goes to the front of the list and becomes the current job |
| PrinterSlice.Slice.FetchPrintQueueFulfilled | HubPhotoBooth/src/store/slices/printerSlice.ts:398-408 | the fetched jobs replace the list and the current job is its first printing job, if any |
| PrinterSlice.Slice.CancelPrintJobFulfilled | HubPhotoBooth/src/store/slices/printerSlice.ts:420-435 | the job with the id and the current job with that id become cancelled |
| PrinterSlice.Slice.UpdatePrinterSettingsFulfilled | HubPhotoBooth/src/store/slices/printerSlice.ts:447-463 | the printer with the payload's id is replaced, and so is the selected printer when it has that id |
| PhotoSlice.ToggleSelection | HubPhotoBooth/src/store/slices/photoSlice.ts:216-225 | an unselected id is appended; a selected id loses exactly one occurrence |
| PhotoSlice.ToggleSelectionFlips | HubPhotoBooth/src/store/slices/photoSlice.ts:216-225 | on a duplicate-free selection the toggle flips the membership of that id and of no other, and the selection stays duplicate-free |
| PhotoSlice.ToggleSelectionTwice | HubPhotoBooth/src/store/slices/photoSlice.ts:216-225 | toggling an unselected id twice gives the selection back |
| PhotoSlice.PhotoIds | HubPhotoBooth/src/store/slices/photoSlice.ts:230 | the ids of the photos, one per photo, in list order |
| PhotoSlice.ReplacePhoto | HubPhotoBooth/src/store/slices/photoSlice.ts:305-311 | the first photo with the payload's id is replaced by the payload; all others are unchanged |
| PhotoSlice.ReplaceCurrent | HubPhotoBooth/src/store/slices/photoSlice.ts:313-315 | the current photo is replaced exactly when its id matches the payload's |
| PhotoSlice.RemovePhotos | HubPhotoBooth/src/store/slices/photoSlice.ts:334-336 | no photo with the deleted id survives and every other photo does |
| PhotoSlice.RemoveSelected | HubPhotoBooth/src/store/slices/photoSlice.ts:342-344 | the deleted id leaves the selection and every other selected id stays |
| PhotoSlice.DeleteKeepsOrder | HubPhotoBooth/src/store/slices/photoSlice.ts:334-344 | the surviving photos and selected ids keep their order |
| PhotoSlice.ClearCurrentIf | HubPhotoBooth/src/store/slices/photoSlice.ts:338-340 | the current photo is cleared exactly when it is the deleted one |
| PhotoSlice.PatchFilter | HubPhotoBooth/src/store/slices/photoSlice.ts:237-239 | for each of `status`, `frameId` and `dateRange`, a key the patch carries overrides the filter's (an explicit `undefined` included) and a key it lacks keeps the old value; an empty patch changes nothing |
| PhotoSlice.FilterPhotos | HubPhotoBooth/src/store/slices/photoSlice.ts:494-516 | the three successive filters (status, frame id, date range) keep exactly the photos passing all three, in order: the same list as one `filter` by their conjunction |
| PhotoSlice.SelectFilteredPhotos | HubPhotoBooth/src/store/slices/photoSlice.ts:488-531 | the view is a permutation of the photos that pass the filter |
| PhotoSlice.SelectFilteredPhotosSpec | HubPhotoBooth/src/store/slices/photoSlice.ts:488-531 | every photo in the view passes the filter, every photo passing it is in the view, and the view is ordered by the sort field in the sort direction |
| PhotoSlice.Slice.constructor | HubPhotoBooth/src/store/slices/photoSlice.ts:190-203 | the initial state: no photos, nothing current or selected, empty filter, newest first by creation time |
| PhotoSlice.Slice.SetCurrentPhoto | HubPhotoBooth/src/store/slices/photoSlice.ts:211-213 | only the current photo changes |
| PhotoSlice.Slice.TogglePhotoSelection | HubPhotoBooth/src/store/slices/photoSlice.ts:216-225 | the selection becomes `ToggleSelection` of the old one; nothing else changes |
| PhotoSlice.Slice.ToggleAllPhotosSelection | HubPhotoBooth/src/store/slices/photoSlice.ts:228-234 | selecting all selects every photo id in list order; otherwise the selection is emptied |
| PhotoSlice.Slice.SetFilter | HubPhotoBooth/src/store/slices/photoSlice.ts:237-239 | the filter is merged with the patch; nothing else changes |
| PhotoSlice.Slice.SetSorting | HubPhotoBooth/src/store/slices/photoSlice.ts:242-251 | only the sort field and direction change |
| PhotoSlice.Slice.SetLoading | HubPhotoBooth/src/store/slices/photoSlice.ts:254-256 | only the loading flag changes |
| PhotoSlice.Slice.SetError | HubPhotoBooth/src/store/slices/photoSlice.ts:259-261 | only the error changes |
| PhotoSlice.Slice.ClearPhotoState | HubPhotoBooth/src/store/slices/photoSlice.ts:264-274 | current photo, selection, filter and sort return to their initial values; photos, loading flag and error are kept |
| PhotoSlice.Slice.RequestPending | HubPhotoBooth/src/store/slices/photoSlice.ts:298-301 | loading starts and the error is cleared (shared by the seven photo thunks) |
| PhotoSlice.Slice.RequestRejected | HubPhotoBooth/src/store/slices/photoSlice.ts:319-322 | loading stops and the rejection message becomes the error (shared by the seven photo thunks) |
| PhotoSlice.Slice.CreatePhotoFulfilled | HubPhotoBooth/src/store/slices/photoSlice.ts:285-290 | the new photo goes to the front of the list and becomes current |
| PhotoSlice.Slice.PhotoUpdateFulfilled | HubPhotoBooth/src/store/slices/photoSlice.ts:302-318 | the photo with the payload's id, and the current photo when it has that id, are replaced (shared by four update thunks) |
| PhotoSlice.Slice.DeletePhotoFulfilled | HubPhotoBooth/src/store/slices/photoSlice.ts:330-346 | the photo leaves the list and the selection, and stops being current |
| PhotoSlice.Slice.FetchPhotosFulfilled | HubPhotoBooth/src/store/slices/photoSlice.ts:358-362 | the payload becomes the photo list |
| FrameSlice.OfCategory | HubPhotoBooth/src/store/slices/frameSlice.ts:225-232 | the category bucket is the order-preserving `filter` of the list by that category: every frame in it is from the list and has that category, every such frame of the list is in it, and it is a subsequence of the list |
| FrameSlice.OfSeason | HubPhotoBooth/src/store/slices/frameSlice.ts:235-240 | the season bucket is the order-preserving `filter` of the list by that season: every frame in it is from the list and has that season, every such frame of the list is in it, and it is a subsequence of the list |
| FrameSlice.OfEvent | HubPhotoBooth/src/store/slices/frameSlice.ts:243-259 | the event bucket is the order-preserving `filter` of the list by that event: every frame in it is from the list and has that event, every such frame of the list is in it, and it is a subsequence of the list |
| FrameSlice.CategoryTable.Put | HubPhotoBooth/src/store/slices/frameSlice.ts:277 | `categories[c] = v`: that key holds `v` and every other key keeps its frames |
| FrameSlice.SeasonTable.Put | HubPhotoBooth/src/store/slices/frameSlice.ts:294 | `seasons[x] = v`: that key holds `v` and every other key keeps its frames |
| FrameSlice.EventTable.Put | HubPhotoBooth/src/store/slices/frameSlice.ts:311 | `events[e] = v`: that key holds `v` and every other key keeps its frames |
| FrameSlice.BucketsPartitionFrames | HubPhotoBooth/src/store/slices/frameSlice.ts:225-240 | the category buckets are order-preserving sublists, a frame is in a bucket exactly when it has that category, and the bucket sizes add up to the list's; the season buckets together hold as many frames as have a season |
| FrameSlice.ToggleActive | HubPhotoBooth/src/store/slices/frameSlice.ts:191-197 | the first frame with the id has its active flag flipped; every other frame and every id is unchanged |
| FrameSlice.ToggleActiveTwice | HubPhotoBooth/src/store/slices/frameSlice.ts:191-197 | toggling the same frame twice gives the list back |
| FrameSlice.SetSortOrder | HubPhotoBooth/src/store/slices/frameSlice.ts:200-209 | the first frame with the id gets the new sort order; every other frame is unchanged |
| FrameSlice.PatchFilter | HubPhotoBooth/src/store/slices/frameSlice.ts:148-153 | for each of `category`, `season`, `event` and `isActive`, a key the patch carries overrides the filter's (an explicit `undefined` included) and a key it lacks keeps the old value; an empty patch changes nothing |
| FrameSlice.ActiveFrames | HubPhotoBooth/src/store/slices/frameSlice.ts:359-360 | every active frame and nothing else, in list order (an ordered sublist of the list) |
| FrameSlice.SelectActiveFrames | HubPhotoBooth/src/store/slices/frameSlice.ts:359-360 | every active frame of the list and nothing else, in list order |
| FrameSlice.SelectActiveFramesByCategory | HubPhotoBooth/src/store/slices/frameSlice.ts:363-366 | every active frame of that category's bucket and nothing else, in bucket order, whichever handler filled the bucket |
| FrameSlice.SelectActiveFramesBySeason | HubPhotoBooth/src/store/slices/frameSlice.ts:369-372 | every active frame of that season's bucket and nothing else, in bucket order |
| FrameSlice.SelectActiveFramesByEvent | HubPhotoBooth/src/store/slices/frameSlice.ts:375-378 | every active frame of that event's bucket and nothing else, in bucket order |
| FrameSlice.ActiveByCategoryAfterFetch | HubPhotoBooth/src/store/slices/frameSlice.ts:363-366 | once the buckets come from `fetchFrames`, the active frames of a category are the active frames of that category, in list order |
| FrameSlice.FilterFrames | HubPhotoBooth/src/store/slices/frameSlice.ts:384-412 | the four successive filters (active flag, category, season, event) keep exactly the frames passing all four, in order: the same list as one `filter` by their conjunction |
| FrameSlice.SelectFilteredFrames | HubPhotoBooth/src/store/slices/frameSlice.ts:381-427 | the view is a permutation of the frames passing the filter |
| FrameSlice.SelectFilteredFramesMembers | HubPhotoBooth/src/store/slices/frameSlice.ts:384-412 | every frame in the view passes the filter and every frame passing it is in the view |
| FrameSlice.SelectFilteredFramesSpec | HubPhotoBooth/src/store/slices/frameSlice.ts:381-427 | every frame in the view matches the active flag and every set key, every such frame is in the view, and the view is ordered by the sort field in the sort direction |
| FrameSlice.Slice.constructor | HubPhotoBooth/src/store/slices/frameSlice.ts:101-135 | the initial state: no frames, empty buckets, filter on active frames only, ascending by sort order |
| FrameSlice.Slice.SetSelectedFrame | HubPhotoBooth/src/store/slices/frameSlice.ts:143-145 | only the selected frame changes |
| FrameSlice.Slice.SetFrameFilter | HubPhotoBooth/src/store/slices/frameSlice.ts:148-153 | the filter is merged with the patch; nothing else changes |
| FrameSlice.Slice.SetFrameSorting | HubPhotoBooth/src/store/slices/frameSlice.ts:156-165 | only the sort field and direction change |
| FrameSlice.Slice.SetFrameLoading | HubPhotoBooth/src/store/slices/frameSlice.ts:168-170 | only the loading flag changes |
| FrameSlice.Slice.SetFrameError | HubPhotoBooth/src/store/slices/frameSlice.ts:173-175 | only the error changes |
| FrameSlice.Slice.ClearFrameState | HubPhotoBooth/src/store/slices/frameSlice.ts:178-188 | selection, filter and sort return to their initial values; frames, buckets, loading flag and error are kept |
| FrameSlice.Slice.ToggleFrameActive | HubPhotoBooth/src/store/slices/frameSlice.ts:191-197 | the frame list becomes `ToggleActive` of the old one; nothing else changes |
| FrameSlice.Slice.UpdateFrameSortOrder | HubPhotoBooth/src/store/slices/frameSlice.ts:200-209 | the frame list becomes `SetSortOrder` of the old one; nothing else changes |
| FrameSlice.Slice.RequestPending | HubPhotoBooth/src/store/slices/frameSlice.ts:216-219 | loading starts and the error is cleared (shared by the four frame thunks) |
| FrameSlice.Slice.RequestRejected | HubPhotoBooth/src/store/slices/frameSlice.ts:263-266 | loading stops and the rejection message becomes the error (shared by the four frame thunks) |
| FrameSlice.Slice.FetchFramesFulfilled | HubPhotoBooth/src/store/slices/frameSlice.ts:220-262 | the fetched frames replace the list and every category, season and event bucket is rebuilt from them |
| FrameSlice.Slice.RebuildBuckets | HubPhotoBooth/src/store/slices/frameSlice.ts:225-259 | every bucket object is rebuilt from the current frame list; nothing else changes |
| FrameSlice.Slice.FetchFramesByCategoryFulfilled | HubPhotoBooth/src/store/slices/frameSlice.ts:274-279 | only the fetched category's bucket is replaced |
| FrameSlice.Slice.FetchFramesBySeasonFulfilled | HubPhotoBooth/src/store/slices/frameSlice.ts:291-296 | only the fetched season's bucket is replaced |
| FrameSlice.Slice.FetchFramesByEventFulfilled | HubPhotoBooth/src/store/slices/frameSlice.ts:308-313 | only the fetched event's bucket is replaced |
| UiSlice.AppendRoute | HubPhotoBooth/src/store/slices/uiSlice.ts:118-124 | the new route is last, preceded by the newest routes of the old history, at most 50 in all |
| UiSlice.AppendRouteKeepsBound | HubPhotoBooth/src/store/slices/uiSlice.ts:118-124 | a history within the bound stays within it: below 50 the route is appended, at 50 the oldest route is dropped |
| UiSlice.PreviousRoute | HubPhotoBooth/src/store/slices/uiSlice.ts:111-115 | the supplied previous route when it is non-empty, otherwise the old current route |
| UiSlice.Navigate | HubPhotoBooth/src/store/slices/uiSlice.ts:105-125 | the new current route is the given one, the previous route follows `PreviousRoute` and the history follows `AppendRoute` |
| UiSlice.PrependNotification | HubPhotoBooth/src/store/slices/uiSlice.ts:170-176 | the new notification is first, followed by the old ones in order, at most 100 in all |
| UiSlice.AddNotification | HubPhotoBooth/src/store/slices/uiSlice.ts:169-180 | the list follows `PrependNotification` and the unread counter grows by one |
| UiSlice.MarkAsRead | HubPhotoBooth/src/store/slices/uiSlice.ts:182-195 | the first notification with the id, if unread, becomes read and the counter drops by one but not below 0; otherwise nothing changes |
| UiSlice.MarkAsReadIdempotent | HubPhotoBooth/src/store/slices/uiSlice.ts:182-195 | marking the same notification read twice is the same as marking it once |
| UiSlice.UnreadCountStaysNonNegative | HubPhotoBooth/src/store/slices/uiSlice.ts:179-193 | starting from a non-negative counter, adding keeps it positive and marking keeps it non-negative |
| UiSlice.ShowToast | HubPhotoBooth/src/store/slices/uiSlice.ts:86-98 | the toast is visible with the message, type `info` when none is given and duration 3000 when none (or 0) is given; its duration is never 0 |
| UiSlice.ShowModal | HubPhotoBooth/src/store/slices/uiSlice.ts:73-77 | the modal is visible with the type, and its data is the payload's when truthy and `null` otherwise |
| UiSlice.Slice.constructor | HubPhotoBooth/src/store/slices/uiSlice.ts:4-50 | the initial state, within the history and notification bounds |
| UiSlice.Slice.SetTheme | HubPhotoBooth/src/store/slices/uiSlice.ts:58-60 | only the theme changes |
| UiSlice.Slice.SetLanguage | HubPhotoBooth/src/store/slices/uiSlice.ts:63-65 | only the language changes |
| UiSlice.Slice.SetLoading | HubPhotoBooth/src/store/slices/uiSlice.ts:68-70 | only the loading flag changes |
| UiSlice.Slice.ShowModalAction | HubPhotoBooth/src/store/slices/uiSlice.ts:73-77 | only the modal changes, to `ShowModal` of the payload |
| UiSlice.Slice.HideModal | HubPhotoBooth/src/store/slices/uiSlice.ts:79-83 | the modal is hidden with no type and no data |
| UiSlice.Slice.ShowToastAction | HubPhotoBooth/src/store/slices/uiSlice.ts:86-98 | only the toast changes, to `ShowToast` of the payload |
| UiSlice.Slice.HideToast | HubPhotoBooth/src/store/slices/uiSlice.ts:100-102 | only the toast's visibility flag changes |
| UiSlice.Slice.UpdateNavigation | HubPhotoBooth/src/store/slices/uiSlice.ts:105-125 | only the navigation changes, to `Navigate` of the old one; the bounds are kept |
| UiSlice.Slice.ToggleSidebar | HubPhotoBooth/src/store/slices/uiSlice.ts:128-130 | only the sidebar's open flag flips |
| UiSlice.Slice.SetSidebarOpen | HubPhotoBooth/src/store/slices/uiSlice.ts:132-134 | only the sidebar's open flag changes |
| UiSlice.Slice.SetActiveTab | HubPhotoBooth/src/store/slices/uiSlice.ts:136-138 | only the sidebar's active tab changes |
| UiSlice.Slice.SetSearchQuery | HubPhotoBooth/src/store/slices/uiSlice.ts:141-143 | only the search query changes |
| UiSlice.Slice.SetSearching | HubPhotoBooth/src/store/slices/uiSlice.ts:145-147 | only the searching flag changes |
| UiSlice.Slice.SetSearchResults | HubPhotoBooth/src/store/slices/uiSlice.ts:149-151 | only the search results change |
| UiSlice.Slice.SetSearchFilters | HubPhotoBooth/src/store/slices/uiSlice.ts:153-155 | only the search filters change |
| UiSlice.Slice.ClearSearch | HubPhotoBooth/src/store/slices/uiSlice.ts:157-162 | the search returns to its initial value; nothing else changes |
| UiSlice.Slice.SetUnreadCount | HubPhotoBooth/src/store/slices/uiSlice.ts:165-167 | only the unread counter changes |
| UiSlice.Slice.AddNotificationAction | HubPhotoBooth/src/store/slices/uiSlice.ts:169-180 | only the notifications change, to `AddNotification` of the old ones; the bounds are kept |
| UiSlice.Slice.MarkNotificationAsRead | HubPhotoBooth/src/store/slices/uiSlice.ts:182-195 | only the notifications change, to `MarkAsRead` of the old ones |
| UiSlice.Slice.ClearNotifications | HubPhotoBooth/src/store/slices/uiSlice.ts:197-200 | the list is emptied and the counter reset; the enabled flag stays |
| UiSlice.Slice.ToggleNotifications | HubPhotoBooth/src/store/slices/uiSlice.ts:202-204 | only the notifications' enabled flag flips |
| UiSlice.Slice.SetFontSize | HubPhotoBooth/src/store/slices/uiSlice.ts:207-212 | only the font size changes |
| UiSlice.Slice.ToggleHighContrast | HubPhotoBooth/src/store/slices/uiSlice.ts:214-216 | only the high-contrast flag flips |
| UiSlice.Slice.ToggleReduceMotion | HubPhotoBooth/src/store/slices/uiSlice.ts:218-220 | only the reduce-motion flag flips |
| UiSlice.Slice.ToggleScreenReader | HubPhotoBooth/src/store/slices/uiSlice.ts:222-224 | only the screen-reader flag flips |
| UiSlice.Slice.ToggleLowPowerMode | HubPhotoBooth/src/store/slices/uiSlice.ts:227-229 | only the low-power flag flips |
| UiSlice.Slice.ToggleAnimation | HubPhotoBooth/src/store/slices/uiSlice.ts:231-233 | only the animation flag flips |
| UiSlice.Slice.SetImageQuality | HubPhotoBooth/src/store/slices/uiSlice.ts:235-240 | only the image quality changes |
| UiSlice.Slice.ResetUIState | HubPhotoBooth/src/store/slices/uiSlice.ts:243-265 | modal, toast, sidebar and search return to their initial values; everything else stays |
| UiSlice.Slice.ClearUIState | HubPhotoBooth/src/store/slices/uiSlice.ts:268-270 | the whole state returns to the initial one except theme and language |
| UiSlice.ToggleTwiceRestores | HubPhotoBooth/src/store/slices/uiSlice.ts:128-233 | every toggle reducer applied twice leaves the whole state as it was |
| UserSlice.MergeUser | HubPhotoBooth/src/store/slices/userSlice.ts:173 | for each of the eight fields, a key the patch carries overrides the user's and a key it lacks keeps the old value; an empty patch changes nothing |
| UserSlice.MergeUserIdempotent | HubPhotoBooth/src/store/slices/userSlice.ts:173 | spreading the same partial user twice is the same as spreading it once |
| UserSlice.Slice.constructor | HubPhotoBooth/src/store/slices/userSlice.ts:147-153 | the initial state: no user, not authenticated, not loading, no error, no activity |
| UserSlice.Slice.SetLoading | HubPhotoBooth/src/store/slices/userSlice.ts:161-163 | only the loading flag changes |
| UserSlice.Slice.SetError | HubPhotoBooth/src/store/slices/userSlice.ts:166-168 | only the error changes |
| UserSlice.Slice.UpdateUserField | HubPhotoBooth/src/store/slices/userSlice.ts:171-175 | with a user, the user is merged with the patch; without one nothing changes; an authenticated state keeps its user and activity time |
| UserSlice.Slice.ChangeUserRole | HubPhotoBooth/src/store/slices/userSlice.ts:178-182 | with a user, only its role changes; without one nothing changes |
| UserSlice.Slice.UpdateLastActivity | HubPhotoBooth/src/store/slices/userSlice.ts:185-187 | only the activity time changes, to the clock reading |
| UserSlice.Slice.ClearUserState | HubPhotoBooth/src/store/slices/userSlice.ts:190-195 | signed out: no user, not authenticated, no error, no activity; the loading flag stays |
| UserSlice.Slice.RequestPending | HubPhotoBooth/src/store/slices/userSlice.ts:202-205 | loading starts and the error is cleared (shared by five thunks) |
| UserSlice.Slice.SignInFulfilled | HubPhotoBooth/src/store/slices/userSlice.ts:206-212 | the payload user is signed in with the clock reading as last activity |
| UserSlice.Slice.SignInRejected | HubPhotoBooth/src/store/slices/userSlice.ts:213-217 | not authenticated any more and the message is the error; the user record stays |
| UserSlice.Slice.LogoutPending | HubPhotoBooth/src/store/slices/userSlice.ts:221-223 | only the loading flag changes |
| UserSlice.Slice.LogoutFulfilled | HubPhotoBooth/src/store/slices/userSlice.ts:224-230 | no user, not authenticated, no activity, no error |
| UserSlice.Slice.LogoutRejected | HubPhotoBooth/src/store/slices/userSlice.ts:231-234 | the message is the error and the user stays signed in |
| UserSlice.Slice.ProfileUpdateFulfilled | HubPhotoBooth/src/store/slices/userSlice.ts:261-265 | the payload replaces the user; the authentication flag stays |
| UserSlice.Slice.ProfileUpdateRejected | HubPhotoBooth/src/store/slices/userSlice.ts:266-269 | loading stops and the message is the error |
| UserSlice.Slice.LoadUserFromStorageFulfilled | HubPhotoBooth/src/store/slices/userSlice.ts:293-301 | a stored user is signed in with the clock reading as last activity; an empty store changes only the loading flag and the error |

## Left out

- The bodies of the async thunks (axios calls, `rejectWithValue`, AsyncStorage writes) are not modelled. Each handler takes the action payload as its argument.
- A `rejected` handler stores `action.payload as string`. The model takes the message as a string, so a rejection without a value (`undefined`) is not modelled.
- Shared objects in the store: `printJobs` and `currentJob`, and `printers` and `selectedPrinter`, may hold the same object. Immer drafts each path on its own, so a reducer that writes through one path leaves the other as it was. The model keeps them as separate values and updates each as the reducer's code says, so object identity itself is not modelled.
- `services/api`, `services/storage`, `services/localServer.ts` and `services/supabase.ts` are not part of this model. They are I/O wrappers and a concurrent token-refresh queue.
- The camera capture screens and `CameraView` are not modelled. They run on timers and native camera callbacks.
- In `usePhotoCapture`, `setInterval`/`setTimeout` become the flags `countdownActive` and `autoCaptureScheduled`. A firing timer is an explicit transition. Elapsed time and stale React closures are not modelled.
- PhotoCapture.Remove: the slot index must lie inside the row. Writing `null` past the end of a JavaScript array would lengthen it, and the hook's callers only pass slot indices.
- PhotoCapture.Reorder: `fromIndex` must lie inside the row and `toIndex` must not be negative. `splice` with other indices is not modelled. The same holds for PhotoCapture.CaptureHook.RemovePhoto and PhotoCapture.CaptureHook.ReorderPhoto.
- PhotoUtils.AddPhotoToArray: the index must lie inside the row. Writing past the end would lengthen the array.
- PhotoUtils.ReorderPhotos: `fromIndex` must lie inside the row and `toIndex` must not be negative. Negative `splice` indices count from the end, and that is not modelled.
- PhotoUtils.CalculatePhotoDimensions: the ratio must be non-zero. JavaScript would give `Infinity`, but `calculateAspectRatio` never returns 0.
- `formatFileSize` (photoUtils.ts) is not modelled. It uses floating-point logarithms and `toFixed`.
- Geometry uses exact `real` arithmetic, not IEEE doubles. Rounding in the render box is not modelled.
- The region JSON files are not part of this model. Templates are parameters with positive total width and height. A zero total would divide by zero in the source.
- `toLowerCase` is modelled on ASCII letters only. Other letters in file names and URIs are left as they are.
- The sorting selectors use a comparator that never returns 0. The order of equal keys is therefore engine-defined, and the model only proves that the result is sorted and a permutation.
- Text sort keys compare by code point. JavaScript `>` compares UTF-16 code units, which can differ above U+FFFF.
- The model's strings hold Unicode scalar values, so the `URIError` that `encodeURIComponent` raises on a lone surrogate cannot arise.
- Cloudinary's `CLOUD_NAME` and `UPLOAD_PRESET` come from the environment. They are parameters, and the module-level check of the environment is not modelled.
- `public_id` uses `Date.now()` and `Math.random()`. Both readings are parameters.
- `uploadImage` performs HTTP requests. It is an oracle: a sequence of per-image outcomes given to `UploadMultipleImages`. The folder is not passed to that oracle.
- Cloudinary.GenerateImageUrl: widths and qualities are integers. Non-integer numbers, which JavaScript would print with a decimal point, are not modelled.
- The `\s` of the email pattern is the WhiteSpace and LineTerminator set of sections 11.2 and 11.3 of ECMA-262 6th edition, with the space separators of Unicode 8. Spaces added by later Unicode versions are not modelled.
- Object keys in `frame4x6` and stored settings follow insertion order. JavaScript lists integer-like keys first, and that ordering is not modelled. Keys inherited from `Object.prototype` (such as `toString`) are not modelled in `nameMap` lookups.
- UI notifications are typed `any` in the source. The model gives each one an `id`, an `isRead` flag and an opaque content value, which are the only parts `markNotificationAsRead` reads. A notification without an `id` or with an `isRead` of another type is not modelled.
- The bucket objects of the frame slice are records with the fixed keys of the enums. Keys outside the enums are not modelled.
- `DEFAULT_FRAME` and the styling, animation and asset `require` calls of the screens are not modelled.

## Findings

| source | as written | input that shows it | evidently intended | confidence | as-written member | corrected member |
|---|---|---|---|---|---|---|
| HubPhotoBooth/src/utils/photoUtils.ts:125-134 | `getFileExtension` returns the text after the last dot without the dot, but `isImageFile` compares it with `.jpg`, `.jpeg`, `.png`, `.gif`, `.webp`, so it is false for every name | `"photo.JPG"` gives `false` | compare the lower-cased extension with the undotted names `jpg`, `jpeg`, `png`, `gif`, `webp` | not executed | PhotoUtils.IsImageFileAsWrittenRejectsJpg | PhotoUtils.IsImageFileAcceptsImageNames |
