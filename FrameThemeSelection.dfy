/** The frame-theme selection screen. On mount it reads the stored frame
    settings (an object from theme id to an enabled flag), lists the enabled
    themes in key order, and selects the first; it draws the captured photos
    into the selected theme's regions. The storage read and the JSON file
    of theme regions are inputs. */
module FrameThemeSelection {
  import opened Types
  import opened Seqs
  import opened FrameRegions
  import opened PhotoEditScreen

  const DefaultTheme := "classic"

  /** A parsed JavaScript object: its keys in `Object.keys` order and a value
      for each. */
  datatype JsObject = JsObject(keys: seq<string>, values: map<string, JsValue>)

  ghost predicate WellFormed(o: JsObject) {
    && (forall i, j :: 0 <= i < j < |o.keys| ==> o.keys[i] != o.keys[j])
    && (forall k :: k in o.values <==> k in o.keys)
  }

  /** What the settings read produced: nothing stored (`null` or the empty
      string), a parsed object, or a failure of the read or of the parse. */
  datatype StoredSettings = NothingStored | Stored(settings: JsObject) | LoadFailed

  /** One entry of the theme list. */
  datatype ThemeOption = ThemeOption(id: string, name: string, image: FrameImage)

  /** The three frame images of the 4x6 frame. */
  datatype FrameImage = BlackFrame | WhiteFrame | LeadershipFrame

  /** A theme of `frameRegions.frame4x6.themes`; either key may be missing. */
  datatype ThemeConfig = ThemeConfig(imageName: Option<string>, regions: Option<seq<Region>>)

  /** The 4x6 frame of the region file: its size, its themes in key order
      and their configurations. */
  datatype Frame4x6 = Frame4x6(totalWidth: real, totalHeight: real, themeKeys: seq<string>, themes: map<string, ThemeConfig>)

  /** The file as the screen needs it: positive size, and a classic theme
      with regions to fall back on. */
  ghost predicate ValidFrame(f: Frame4x6) {
    && f.totalWidth > 0.0 && f.totalHeight > 0.0
    && (forall k :: k in f.themes <==> k in f.themeKeys)
    && (forall i, j :: 0 <= i < j < |f.themeKeys| ==> f.themeKeys[i] != f.themeKeys[j])
    && DefaultTheme in f.themes && f.themes[DefaultTheme].regions.Some?
  }

  /** The default settings: every theme of the file, enabled. */
  function AllEnabled(f: Frame4x6): (o: JsObject)
    requires ValidFrame(f)
    ensures WellFormed(o) && o.keys == f.themeKeys
    ensures forall k :: k in o.values ==> o.values[k] == Bool(true)
  {
    JsObject(f.themeKeys, map k | k in f.themeKeys :: Bool(true))
  }

  /** The display name: classic is 레드, vintage 화이트, leadership 리더십,
      any other id itself. */
  function ThemeDisplayName(id: string): (name: string)
    ensures id == "classic" ==> name == "레드"
    ensures id == "vintage" ==> name == "화이트"
    ensures id == "leadership" ==> name == "리더십"
    ensures id !in {"classic", "vintage", "leadership"} ==> name == id
  {
    if id == "classic" then "레드"
    else if id == "vintage" then "화이트"
    else if id == "leadership" then "리더십"
    else id
  }

  /** `getFrameImage`: the theme's image name picks the asset; a missing
      theme, a missing name or an unknown one gives the black frame. */
  function GetFrameImage(f: Frame4x6, id: string): (img: FrameImage)
    ensures img == WhiteFrame <==> id in f.themes && f.themes[id].imageName == Some("frame(4*6)/white.png")
    ensures img == LeadershipFrame <==> id in f.themes && f.themes[id].imageName == Some("frame(4*6)/leadership.png")
  {
    if id !in f.themes then BlackFrame
    else match f.themes[id].imageName
      case Some(name) =>
        if name == "frame(4*6)/black.png" then BlackFrame
        else if name == "frame(4*6)/white.png" then WhiteFrame
        else if name == "frame(4*6)/leadership.png" then LeadershipFrame
        else BlackFrame
      case None => BlackFrame
  }

  /** `getThemeRegions`: the theme's regions, or the classic ones when the
      theme or its regions are missing. */
  function GetThemeRegions(f: Frame4x6, id: string): (regions: seq<Region>)
    requires ValidFrame(f)
    ensures id in f.themes && f.themes[id].regions.Some? ==> regions == f.themes[id].regions.value
    ensures !(id in f.themes && f.themes[id].regions.Some?) ==> regions == f.themes[DefaultTheme].regions.value
  {
    if id in f.themes && f.themes[id].regions.Some? then f.themes[id].regions.value
    else f.themes[DefaultTheme].regions.value
  }

  /** An unknown theme id draws the classic theme. */
  lemma UnknownThemeFallsBackToClassic(f: Frame4x6, id: string)
    requires ValidFrame(f) && id !in f.themes
    ensures GetThemeRegions(f, id) == GetThemeRegions(f, DefaultTheme)
  {
  }

  function ThemeOf(f: Frame4x6, id: string): (t: ThemeOption)
    ensures t.id == id && t.name == ThemeDisplayName(id) && t.image == GetFrameImage(f, id)
  {
    ThemeOption(id, ThemeDisplayName(id), GetFrameImage(f, id))
  }

  /** The keys whose value is truthy, in key order. */
  function EnabledKeys(o: JsObject): (r: seq<string>)
    requires WellFormed(o)
    ensures |r| <= |o.keys|
    ensures forall i :: 0 <= i < |r| ==> r[i] in o.values && Truthy(o.values[r[i]])
    ensures forall i :: 0 <= i < |o.keys| && Truthy(o.values[o.keys[i]]) ==> o.keys[i] in r
  {
    Filter(o.keys, (k: string) => k in o.values && Truthy(o.values[k]))
  }

  /** The enabled keys keep their relative order. */
  lemma EnabledKeysInKeyOrder(o: JsObject)
    requires WellFormed(o)
    ensures IsSubsequence(EnabledKeys(o), o.keys)
  {
    FilterIsSubsequence(o.keys, (k: string) => k in o.values && Truthy(o.values[k]));
  }

  /** With nothing stored every theme of the file is listed, in file order. */
  lemma DefaultSettingsListEveryTheme(f: Frame4x6)
    requires ValidFrame(f)
    ensures EnabledKeys(AllEnabled(f)) == f.themeKeys
  {
    var o := AllEnabled(f);
    FilterAllPass(o.keys, (k: string) => k in o.values && Truthy(o.values[k]));
  }

  /** The `forEach` over the file's theme keys that sets each one to
      `true`. */
  method DefaultSettings(f: Frame4x6) returns (o: JsObject)
    requires ValidFrame(f)
    ensures o == AllEnabled(f)
  {
    var keys := f.themeKeys;
    var values := map[];
    var i := 0;
    while i < |keys|
      invariant 0 <= i <= |keys|
      invariant values == map k | k in keys[..i] :: Bool(true)
    {
      values := values[keys[i] := Bool(true)];
      i := i + 1;
      assert keys[..i] == keys[..i - 1] + [keys[i - 1]];
    }
    assert keys[..i] == keys;
    o := JsObject(keys, values);
  }

  function ThemesOf(f: Frame4x6, ids: seq<string>): (r: seq<ThemeOption>)
    ensures |r| == |ids| && forall i :: 0 <= i < |ids| ==> r[i] == ThemeOf(f, ids[i])
  {
    seq(|ids|, i requires 0 <= i < |ids| => ThemeOf(f, ids[i]))
  }

  /** The parameters of the preview the "next" button opens. */
  datatype PreviewRoute = PreviewRoute(photos: seq<string>, selectedFrame: string, selectedTheme: string)

  class Screen {
    const frame: Frame4x6
    const photos: seq<string>
    const selectedFrame: Option<string>
    var selectedTheme: string
    var frameSettings: JsObject
    var availableThemes: seq<ThemeOption>
    var frameLayout: Layout

    ghost predicate Valid()
      reads this
    {
      ValidFrame(frame) && WellFormed(frameSettings)
    }

    constructor (f: Frame4x6, roll: seq<string>, frameId: Option<string>)
      requires ValidFrame(f)
      ensures Valid() && frame == f && photos == roll && selectedFrame == frameId
      ensures selectedTheme == DefaultTheme && availableThemes == [] && frameSettings == JsObject([], map[])
      ensures frameLayout == Unmeasured
    {
      frame := f;
      photos := roll;
      selectedFrame := frameId;
      selectedTheme := DefaultTheme;
      frameSettings := JsObject([], map[]);
      availableThemes := [];
      frameLayout := Unmeasured;
    }

    /** The part of `loadFrameSettings` after the settings are known: keep
        them, list the enabled themes in key order, and select the first of
        them if there is one. */
    method ApplySettings(settings: JsObject)
      requires Valid() && WellFormed(settings)
      modifies this
      ensures Valid() && frameLayout == old(frameLayout) && frameSettings == settings
      ensures availableThemes == ThemesOf(frame, EnabledKeys(settings))
      ensures selectedTheme == if availableThemes != [] then availableThemes[0].id else old(selectedTheme)
    {
      var themes := ThemesOf(frame, EnabledKeys(settings));
      frameSettings := settings;
      availableThemes := themes;
      if |themes| > 0 {
        selectedTheme := themes[0].id;
      }
    }

    /** `loadFrameSettings`: a failed read or parse changes nothing; otherwise
        the stored settings, or every theme enabled when nothing is stored,
        are applied. */
    method LoadFrameSettings(stored: StoredSettings)
      requires Valid() && (stored.Stored? ==> WellFormed(stored.settings))
      modifies this
      ensures Valid() && frameLayout == old(frameLayout)
      ensures stored.LoadFailed? ==>
        selectedTheme == old(selectedTheme) && availableThemes == old(availableThemes) && frameSettings == old(frameSettings)
      ensures !stored.LoadFailed? ==>
        var settings := if stored.Stored? then stored.settings else AllEnabled(frame);
        && frameSettings == settings
        && availableThemes == ThemesOf(frame, EnabledKeys(settings))
        && selectedTheme == if availableThemes != [] then availableThemes[0].id else old(selectedTheme)
    {
      if stored.Stored? {
        ApplySettings(stored.settings);
      } else if stored.NothingStored? {
        var settings := DefaultSettings(frame);
        ApplySettings(settings);
      }
    }

    method HandleThemeSelect(theme: string)
      requires Valid()
      modifies this
      ensures Valid() && selectedTheme == theme
      ensures availableThemes == old(availableThemes) && frameSettings == old(frameSettings) && frameLayout == old(frameLayout)
    {
      selectedTheme := theme;
    }

    method OnFrameLayout(layout: Layout)
      requires Valid()
      modifies this
      ensures Valid() && frameLayout == layout
      ensures selectedTheme == old(selectedTheme) && availableThemes == old(availableThemes) && frameSettings == old(frameSettings)
    {
      frameLayout := layout;
    }

    /** The "next" button: it has no handler while the list is empty. */
    method PressNext() returns (route: Option<PreviewRoute>)
      requires Valid()
      ensures route.None? <==> availableThemes == []
      ensures route.Some? ==> route.value == PreviewRoute(photos, FrameOrDefault(selectedFrame), selectedTheme)
    {
      if |availableThemes| > 0 {
        route := Some(PreviewRoute(photos, FrameOrDefault(selectedFrame), selectedTheme));
      } else {
        route := None;
      }
    }

    /** The selected theme's regions as drawn over the frame, each showing
        `photos[region.position]`. */
    function RenderedRegions(): (r: seq<Placement<string>>)
      reads this
      requires Valid()
      ensures !(frameLayout.width > 0.0 && frameLayout.height > 0.0) ==> r == []
      ensures frameLayout.width > 0.0 && frameLayout.height > 0.0 ==> |r| == |GetThemeRegions(frame, selectedTheme)|
      ensures forall i :: 0 <= i < |r| ==>
        var region := GetThemeRegions(frame, selectedTheme)[i];
        && r[i].rect == ScaleRegion(frameLayout.width, frameLayout.height, frame.totalWidth, frame.totalHeight, region)
        && (r[i].photo.Some? <==> 0 <= region.position < |photos| && photos[region.position] != "")
        && (r[i].photo.Some? ==> r[i].photo.value == photos[region.position])
    {
      PlaceByPosition(frameLayout, Template(frame.totalWidth, frame.totalHeight, GetThemeRegions(frame, selectedTheme)), UriSlots(photos))
    }
  }

  /** After a successful load the selected theme is an enabled one, unless
      none is enabled and `classic` stays selected. */
  lemma LoadedSelectionIsEnabled(f: Frame4x6, settings: JsObject)
    requires ValidFrame(f) && WellFormed(settings)
    ensures var themes := ThemesOf(f, EnabledKeys(settings));
      themes != [] ==> themes[0].id in settings.values && Truthy(settings.values[themes[0].id])
  {
  }
}
