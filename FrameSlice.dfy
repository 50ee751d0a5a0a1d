/** The frame slice of the Redux store: the frame list, the buckets of frames
    by category, season and event, and the filter and sort the frame picker
    applies. Reducers and thunk handlers are methods of `Slice`; the
    selectors are pure functions of `FrameState`. */
module FrameSlice {
  import opened Types
  import opened Seqs
  import opened Ordering

  datatype FrameFilter = FrameFilter(
    category: Option<FrameCategory>,
    season: Option<Season>,
    event: Option<HubEvent>,
    isActive: bool)

  /** A `Partial<filter>` payload: `None` is a key the payload lacks. */
  datatype FrameFilterPatch = FrameFilterPatch(
    category: Option<Option<FrameCategory>>,
    season: Option<Option<Season>>,
    event: Option<Option<HubEvent>>,
    isActive: Option<bool>)

  datatype FrameSortField = BySortOrder | ByName | ByCreatedAt

  const DefaultFilter := FrameFilter(None, None, None, true)

  // ------------------------------------------------------ buckets

  /** `frames.filter(frame => frame.category === c)`, and likewise for a
      season and an event: each bucket keeps, in order, exactly the frames
      with its key. */
  function OfCategory(frames: seq<Frame>, c: FrameCategory): (r: seq<Frame>)
    ensures |r| <= |frames|
    ensures forall i :: 0 <= i < |r| ==> r[i] in frames && r[i].category == c
    ensures forall k :: 0 <= k < |frames| && frames[k].category == c ==> frames[k] in r
    ensures IsSubsequence(r, frames)
  {
    FilterIsSubsequence(frames, (f: Frame) => f.category == c);
    Filter(frames, (f: Frame) => f.category == c)
  }

  function OfSeason(frames: seq<Frame>, x: Season): (r: seq<Frame>)
    ensures |r| <= |frames|
    ensures forall i :: 0 <= i < |r| ==> r[i] in frames && r[i].season == Some(x)
    ensures forall k :: 0 <= k < |frames| && frames[k].season == Some(x) ==> frames[k] in r
    ensures IsSubsequence(r, frames)
  {
    FilterIsSubsequence(frames, (f: Frame) => f.season == Some(x));
    Filter(frames, (f: Frame) => f.season == Some(x))
  }

  function OfEvent(frames: seq<Frame>, e: HubEvent): (r: seq<Frame>)
    ensures |r| <= |frames|
    ensures forall i :: 0 <= i < |r| ==> r[i] in frames && r[i].event == Some(e)
    ensures forall k :: 0 <= k < |frames| && frames[k].event == Some(e) ==> frames[k] in r
    ensures IsSubsequence(r, frames)
  {
    FilterIsSubsequence(frames, (f: Frame) => f.event == Some(e));
    Filter(frames, (f: Frame) => f.event == Some(e))
  }

  /** The `categories` object: one key per category, each always present. */
  datatype CategoryTable = CategoryTable(seasonal: seq<Frame>, event: seq<Frame>, special: seq<Frame>, basic: seq<Frame>)
  {
    /** `categories[c]`. */
    function Get(c: FrameCategory): seq<Frame> {
      match c
      case Seasonal => seasonal
      case EventCategory => event
      case Special => special
      case Basic => basic
    }

    /** `categories[c] = v`: that key holds `v`, every other key keeps its
        list. */
    function Put(c: FrameCategory, v: seq<Frame>): (t: CategoryTable)
      ensures t.Get(c) == v
      ensures forall d :: d != c ==> t.Get(d) == Get(d)
    {
      match c
      case Seasonal => this.(seasonal := v)
      case EventCategory => this.(event := v)
      case Special => this.(special := v)
      case Basic => this.(basic := v)
    }
  }

  /** The `seasons` object. */
  datatype SeasonTable = SeasonTable(spring: seq<Frame>, summer: seq<Frame>, autumn: seq<Frame>, winter: seq<Frame>)
  {
    function Get(x: Season): seq<Frame> {
      match x
      case Spring => spring
      case Summer => summer
      case Autumn => autumn
      case Winter => winter
    }

    function Put(x: Season, v: seq<Frame>): (t: SeasonTable)
      ensures t.Get(x) == v
      ensures forall y :: y != x ==> t.Get(y) == Get(y)
    {
      match x
      case Spring => this.(spring := v)
      case Summer => this.(summer := v)
      case Autumn => this.(autumn := v)
      case Winter => this.(winter := v)
    }
  }

  /** The `events` object. */
  datatype EventTable = EventTable(christmas: seq<Frame>, easter: seq<Frame>, thanksgiving: seq<Frame>,
                                   baptism: seq<Frame>, wedding: seq<Frame>, bibleStudy: seq<Frame>,
                                   youthGroup: seq<Frame>)
  {
    function Get(e: HubEvent): seq<Frame> {
      match e
      case Christmas => christmas
      case Easter => easter
      case Thanksgiving => thanksgiving
      case Baptism => baptism
      case Wedding => wedding
      case BibleStudy => bibleStudy
      case YouthGroup => youthGroup
    }

    function Put(e: HubEvent, v: seq<Frame>): (t: EventTable)
      ensures t.Get(e) == v
      ensures forall d :: d != e ==> t.Get(d) == Get(d)
    {
      match e
      case Christmas => this.(christmas := v)
      case Easter => this.(easter := v)
      case Thanksgiving => this.(thanksgiving := v)
      case Baptism => this.(baptism := v)
      case Wedding => this.(wedding := v)
      case BibleStudy => this.(bibleStudy := v)
      case YouthGroup => this.(youthGroup := v)
    }
  }

  const EmptyCategories := CategoryTable([], [], [], [])
  const EmptySeasons := SeasonTable([], [], [], [])
  const EmptyEvents := EventTable([], [], [], [], [], [], [])

  datatype FrameState = FrameState(
    frames: seq<Frame>,
    selectedFrame: Option<Frame>,
    isLoading: bool,
    error: Option<string>,
    categories: CategoryTable,
    seasons: SeasonTable,
    events: EventTable,
    filter: FrameFilter,
    sortBy: FrameSortField,
    sortOrder: SortDirection)

  const InitialState := FrameState([], None, false, None, EmptyCategories, EmptySeasons, EmptyEvents,
                                   DefaultFilter, BySortOrder, Asc)

  /** The buckets `fetchFrames` builds from the fetched list. */
  function CategoryBuckets(frames: seq<Frame>): CategoryTable {
    CategoryTable(OfCategory(frames, Seasonal), OfCategory(frames, EventCategory),
                  OfCategory(frames, Special), OfCategory(frames, Basic))
  }

  function SeasonBuckets(frames: seq<Frame>): SeasonTable {
    SeasonTable(OfSeason(frames, Spring), OfSeason(frames, Summer), OfSeason(frames, Autumn), OfSeason(frames, Winter))
  }

  function EventBuckets(frames: seq<Frame>): EventTable {
    EventTable(OfEvent(frames, Christmas), OfEvent(frames, Easter), OfEvent(frames, Thanksgiving),
               OfEvent(frames, Baptism), OfEvent(frames, Wedding), OfEvent(frames, BibleStudy),
               OfEvent(frames, YouthGroup))
  }

  lemma {:induction false} CategoryCountsAddUp(frames: seq<Frame>)
    ensures |OfCategory(frames, Seasonal)| + |OfCategory(frames, EventCategory)|
          + |OfCategory(frames, Special)| + |OfCategory(frames, Basic)| == |frames|
  {
    if frames != [] {
      CategoryCountsAddUp(frames[1..]);
    }
  }

  lemma {:induction false} SeasonCountsAddUp(frames: seq<Frame>)
    ensures |OfSeason(frames, Spring)| + |OfSeason(frames, Summer)|
          + |OfSeason(frames, Autumn)| + |OfSeason(frames, Winter)|
          == |Filter(frames, (f: Frame) => f.season.Some?)|
  {
    if frames != [] {
      SeasonCountsAddUp(frames[1..]);
      match frames[0].season {
        case None =>
        case Some(v) =>
          match v {
            case Spring =>
            case Summer =>
            case Autumn =>
            case Winter =>
          }
      }
    }
  }

  /** The category buckets split the frame list: each is an order-preserving
      sublist holding exactly the frames of its category, and their sizes add
      up to the list's. The season buckets split the frames that have a
      season in the same way. */
  lemma BucketsPartitionFrames(frames: seq<Frame>)
    ensures var m := CategoryBuckets(frames);
      && (forall c :: IsSubsequence(m.Get(c), frames))
      && (forall c, k :: 0 <= k < |frames| ==> (frames[k] in m.Get(c) <==> frames[k].category == c))
      && |m.seasonal| + |m.event| + |m.special| + |m.basic| == |frames|
    ensures var m := SeasonBuckets(frames);
      |m.spring| + |m.summer| + |m.autumn| + |m.winter| == |Filter(frames, (f: Frame) => f.season.Some?)|
  {
    forall c ensures IsSubsequence(CategoryBuckets(frames).Get(c), frames)
      && forall k :: 0 <= k < |frames| ==> (frames[k] in CategoryBuckets(frames).Get(c) <==> frames[k].category == c)
    {
      assert CategoryBuckets(frames).Get(c) == OfCategory(frames, c);
    }
    CategoryCountsAddUp(frames);
    SeasonCountsAddUp(frames);
  }

  // ------------------------------------------------------ list updates

  function ToggleActive(frames: seq<Frame>, id: string): (r: seq<Frame>)
    ensures |r| == |frames|
    ensures forall k :: 0 <= k < |frames| ==> r[k].id == frames[k].id
    ensures var i := FindIndex(frames, (f: Frame) => f.id == id);
      && (i != -1 ==> r[i] == frames[i].(isActive := !frames[i].isActive))
      && (forall k :: 0 <= k < |frames| && k != i ==> r[k] == frames[k])
  {
    UpdateFirst(frames, (f: Frame) => f.id == id, (f: Frame) => f.(isActive := !f.isActive))
  }

  /** Toggling the same frame twice gives the list back. */
  lemma ToggleActiveTwice(frames: seq<Frame>, id: string)
    ensures ToggleActive(ToggleActive(frames, id), id) == frames
  {
    var once := ToggleActive(frames, id);
    FindIndexAgrees(once, frames, (f: Frame) => f.id == id);
  }

  function SetSortOrder(frames: seq<Frame>, id: string, newOrder: int): (r: seq<Frame>)
    ensures |r| == |frames|
    ensures var i := FindIndex(frames, (f: Frame) => f.id == id);
      && (i != -1 ==> r[i] == frames[i].(sortOrder := newOrder))
      && (forall k :: 0 <= k < |frames| && k != i ==> r[k] == frames[k])
  {
    UpdateFirst(frames, (f: Frame) => f.id == id, (f: Frame) => f.(sortOrder := newOrder))
  }

  function PatchFilter(f: FrameFilter, p: FrameFilterPatch): (r: FrameFilter)
    ensures p == FrameFilterPatch(None, None, None, None) ==> r == f
    ensures p.category.Some? ==> r.category == p.category.value
    ensures p.category.None? ==> r.category == f.category
    ensures p.season.Some? ==> r.season == p.season.value
    ensures p.season.None? ==> r.season == f.season
    ensures p.event.Some? ==> r.event == p.event.value
    ensures p.event.None? ==> r.event == f.event
    ensures p.isActive.Some? ==> r.isActive == p.isActive.value
    ensures p.isActive.None? ==> r.isActive == f.isActive
  {
    FrameFilter(
      if p.category.Some? then p.category.value else f.category,
      if p.season.Some? then p.season.value else f.season,
      if p.event.Some? then p.event.value else f.event,
      if p.isActive.Some? then p.isActive.value else f.isActive)
  }

  // ------------------------------------------------------ selectors

  /** `frames.filter(f => f.isActive)`: every active frame and nothing else,
      in list order. */
  function ActiveFrames(frames: seq<Frame>): (r: seq<Frame>)
    ensures forall k :: 0 <= k < |r| ==> r[k].isActive && r[k] in frames
    ensures forall k :: 0 <= k < |frames| && frames[k].isActive ==> frames[k] in r
    ensures IsSubsequence(r, frames)
  {
    FilterIsSubsequence(frames, (f: Frame) => f.isActive);
    Filter(frames, (f: Frame) => f.isActive)
  }

  function SelectActiveFrames(s: FrameState): (r: seq<Frame>)
    ensures forall k :: 0 <= k < |r| ==> r[k].isActive && r[k] in s.frames
    ensures forall k :: 0 <= k < |s.frames| && s.frames[k].isActive ==> s.frames[k] in r
    ensures IsSubsequence(r, s.frames)
  {
    ActiveFrames(s.frames)
  }

  /** The category's bucket, whatever filled it, restricted to its active
      frames in bucket order. */
  function SelectActiveFramesByCategory(s: FrameState, c: FrameCategory): (r: seq<Frame>)
    ensures forall k :: 0 <= k < |r| ==> r[k].isActive && r[k] in s.categories.Get(c)
    ensures forall k :: 0 <= k < |s.categories.Get(c)| && s.categories.Get(c)[k].isActive ==> s.categories.Get(c)[k] in r
    ensures IsSubsequence(r, s.categories.Get(c))
  {
    ActiveFrames(s.categories.Get(c))
  }

  function SelectActiveFramesBySeason(s: FrameState, x: Season): (r: seq<Frame>)
    ensures forall k :: 0 <= k < |r| ==> r[k].isActive && r[k] in s.seasons.Get(x)
    ensures forall k :: 0 <= k < |s.seasons.Get(x)| && s.seasons.Get(x)[k].isActive ==> s.seasons.Get(x)[k] in r
    ensures IsSubsequence(r, s.seasons.Get(x))
  {
    ActiveFrames(s.seasons.Get(x))
  }

  function SelectActiveFramesByEvent(s: FrameState, e: HubEvent): (r: seq<Frame>)
    ensures forall k :: 0 <= k < |r| ==> r[k].isActive && r[k] in s.events.Get(e)
    ensures forall k :: 0 <= k < |s.events.Get(e)| && s.events.Get(e)[k].isActive ==> s.events.Get(e)[k] in r
    ensures IsSubsequence(r, s.events.Get(e))
  {
    ActiveFrames(s.events.Get(e))
  }

  /** Once the buckets come from `fetchFrames`, the active frames of a
      category are the active frames restricted to that category, in order. */
  lemma ActiveByCategoryAfterFetch(frames: seq<Frame>, c: FrameCategory)
    ensures ActiveFrames(CategoryBuckets(frames).Get(c)) == Filter(ActiveFrames(frames), (f: Frame) => f.category == c)
  {
    FilterTwice(frames, (f: Frame) => f.category == c, (f: Frame) => f.isActive,
                (f: Frame) => f.category == c && f.isActive);
    FilterTwice(frames, (f: Frame) => f.isActive, (f: Frame) => f.category == c,
                (f: Frame) => f.category == c && f.isActive);
  }

  predicate ActivePasses(f: FrameFilter, x: Frame) {
    x.isActive == f.isActive
  }

  predicate CategoryPasses(f: FrameFilter, x: Frame) {
    f.category.None? || x.category == f.category.value
  }

  predicate SeasonPasses(f: FrameFilter, x: Frame) {
    f.season.None? || x.season == f.season
  }

  predicate EventPasses(f: FrameFilter, x: Frame) {
    f.event.None? || x.event == f.event
  }

  predicate PassesFilter(f: FrameFilter, x: Frame) {
    ActivePasses(f, x) && CategoryPasses(f, x) && SeasonPasses(f, x) && EventPasses(f, x)
  }

  /** The whole filter as one test. */
  function Passes(f: FrameFilter): Frame -> bool {
    (x: Frame) => PassesFilter(f, x)
  }

  /** The four filters applied one after the other, as the selector does;
      together they keep, in order, exactly the frames passing all four. */
  function FilterFrames(frames: seq<Frame>, f: FrameFilter): (r: seq<Frame>)
    ensures r == Filter(frames, Passes(f))
  {
    FilterTwice(frames, (x: Frame) => ActivePasses(f, x), (x: Frame) => CategoryPasses(f, x),
                (x: Frame) => ActivePasses(f, x) && CategoryPasses(f, x));
    FilterTwice(frames, (x: Frame) => ActivePasses(f, x) && CategoryPasses(f, x), (x: Frame) => SeasonPasses(f, x),
                (x: Frame) => ActivePasses(f, x) && CategoryPasses(f, x) && SeasonPasses(f, x));
    FilterTwice(frames, (x: Frame) => ActivePasses(f, x) && CategoryPasses(f, x) && SeasonPasses(f, x),
                (x: Frame) => EventPasses(f, x), Passes(f));
    var byActive := Filter(frames, (x: Frame) => ActivePasses(f, x));
    var byCategory := Filter(byActive, (x: Frame) => CategoryPasses(f, x));
    var bySeason := Filter(byCategory, (x: Frame) => SeasonPasses(f, x));
    Filter(bySeason, (x: Frame) => EventPasses(f, x))
  }

  function FrameKey(field: FrameSortField): Frame -> SortKey {
    match field
    case BySortOrder => (x: Frame) => IntKey(x.sortOrder)
    case ByName => (x: Frame) => TextKey(x.name)
    case ByCreatedAt => (x: Frame) => IntKey(x.createdAt)
  }

  /** `selectFilteredFrames`: the frames passing the filter, as a sorted copy. */
  function SelectFilteredFrames(s: FrameState): (r: seq<Frame>)
    ensures multiset(r) == multiset(Filter(s.frames, Passes(s.filter)))
  {
    SortByKey(FilterFrames(s.frames, s.filter), FrameKey(s.sortBy), s.sortOrder)
  }

  /** The view holds exactly the frames passing the filter. */
  lemma SelectFilteredFramesMembers(s: FrameState)
    ensures var r := SelectFilteredFrames(s);
      && (forall k :: 0 <= k < |r| ==> r[k] in s.frames && PassesFilter(s.filter, r[k]))
      && (forall k :: 0 <= k < |s.frames| && PassesFilter(s.filter, s.frames[k]) ==> s.frames[k] in r)
  {
    PermutedFilterMembers(SelectFilteredFrames(s), s.frames, Passes(s.filter));
  }

  /** Every frame of the view matches `isActive` and every set filter, every
      such frame is in the view, and the view is in the requested order. */
  lemma SelectFilteredFramesSpec(s: FrameState)
    ensures var r := SelectFilteredFrames(s);
      && (forall k :: 0 <= k < |r| ==>
            && r[k] in s.frames && r[k].isActive == s.filter.isActive
            && (s.filter.category.Some? ==> r[k].category == s.filter.category.value)
            && (s.filter.season.Some? ==> r[k].season == s.filter.season)
            && (s.filter.event.Some? ==> r[k].event == s.filter.event))
      && (forall k :: 0 <= k < |s.frames| && PassesFilter(s.filter, s.frames[k]) ==> s.frames[k] in r)
      && (forall i, j :: 0 <= i < j < |r| ==>
            var a, b := FrameKey(s.sortBy)(r[i]), FrameKey(s.sortBy)(r[j]);
            if s.sortOrder == Asc then !KeyLess(b, a) else !KeyLess(a, b))
  {
    SelectFilteredFramesMembers(s);
    SortByKeyOrders(FilterFrames(s.frames, s.filter), FrameKey(s.sortBy), s.sortOrder);
  }

  // ------------------------------------------------------ the slice

  class Slice {
    var frames: seq<Frame>
    var selectedFrame: Option<Frame>
    var isLoading: bool
    var error: Option<string>
    var categories: CategoryTable
    var seasons: SeasonTable
    var events: EventTable
    var filter: FrameFilter
    var sortBy: FrameSortField
    var sortOrder: SortDirection

    function State(): FrameState
      reads this
    {
      FrameState(frames, selectedFrame, isLoading, error, categories, seasons, events, filter, sortBy, sortOrder)
    }

    constructor ()
      ensures State() == InitialState
    {
      frames := [];
      selectedFrame := None;
      isLoading := false;
      error := None;
      categories := EmptyCategories;
      seasons := EmptySeasons;
      events := EmptyEvents;
      filter := DefaultFilter;
      sortBy := BySortOrder;
      sortOrder := Asc;
    }

    method SetSelectedFrame(frame: Option<Frame>)
      modifies this
      ensures State() == old(State()).(selectedFrame := frame)
    {
      selectedFrame := frame;
    }

    method SetFrameFilter(patch: FrameFilterPatch)
      modifies this
      ensures State() == old(State()).(filter := PatchFilter(old(filter), patch))
    {
      filter := PatchFilter(filter, patch);
    }

    method SetFrameSorting(field: FrameSortField, direction: SortDirection)
      modifies this
      ensures State() == old(State()).(sortBy := field, sortOrder := direction)
    {
      sortBy := field;
      sortOrder := direction;
    }

    method SetFrameLoading(loading: bool)
      modifies this
      ensures State() == old(State()).(isLoading := loading)
    {
      isLoading := loading;
    }

    method SetFrameError(message: Option<string>)
      modifies this
      ensures State() == old(State()).(error := message)
    {
      error := message;
    }

    /** Resets the selection, the filter and the sort; the frames, the
        buckets, the loading flag and the error stay. */
    method ClearFrameState()
      modifies this
      ensures State() == old(State()).(selectedFrame := None, filter := DefaultFilter,
                                       sortBy := BySortOrder, sortOrder := Asc)
    {
      selectedFrame := None;
      filter := DefaultFilter;
      sortBy := BySortOrder;
      sortOrder := Asc;
    }

    method ToggleFrameActive(id: string)
      modifies this
      ensures State() == old(State()).(frames := ToggleActive(old(frames), id))
    {
      frames := ToggleActive(frames, id);
    }

    method UpdateFrameSortOrder(id: string, newOrder: int)
      modifies this
      ensures State() == old(State()).(frames := SetSortOrder(old(frames), id, newOrder))
    {
      frames := SetSortOrder(frames, id, newOrder);
    }

    /** The pending handler shared by the four frame thunks. */
    method RequestPending()
      modifies this
      ensures State() == old(State()).(isLoading := true, error := None)
    {
      isLoading := true;
      error := None;
    }

    /** The rejected handler shared by the four frame thunks. */
    method RequestRejected(message: string)
      modifies this
      ensures State() == old(State()).(isLoading := false, error := Some(message))
    {
      isLoading := false;
      error := Some(message);
    }

    /** The fetched frames replace the list and every bucket is rebuilt from
        them. */
    method FetchFramesFulfilled(payload: seq<Frame>)
      modifies this
      ensures State() == old(State()).(isLoading := false, frames := payload,
                                       categories := CategoryBuckets(payload), seasons := SeasonBuckets(payload),
                                       events := EventBuckets(payload), error := None)
    {
      isLoading := false;
      frames := payload;
      error := None;
      RebuildBuckets();
    }

    /** Every bucket object rebuilt from the frame list. */
    method RebuildBuckets()
      modifies this
      ensures State() == old(State()).(categories := CategoryBuckets(old(frames)), seasons := SeasonBuckets(old(frames)),
                                       events := EventBuckets(old(frames)))
    {
      categories := CategoryBuckets(frames);
      seasons := SeasonBuckets(frames);
      events := EventBuckets(frames);
    }

    method FetchFramesByCategoryFulfilled(c: FrameCategory, payload: seq<Frame>)
      modifies this
      ensures State() == old(State()).(isLoading := false, categories := old(categories).Put(c, payload), error := None)
    {
      isLoading := false;
      categories := categories.Put(c, payload);
      error := None;
    }

    method FetchFramesBySeasonFulfilled(x: Season, payload: seq<Frame>)
      modifies this
      ensures State() == old(State()).(isLoading := false, seasons := old(seasons).Put(x, payload), error := None)
    {
      isLoading := false;
      seasons := seasons.Put(x, payload);
      error := None;
    }

    method FetchFramesByEventFulfilled(e: HubEvent, payload: seq<Frame>)
      modifies this
      ensures State() == old(State()).(isLoading := false, events := old(events).Put(e, payload), error := None)
    {
      isLoading := false;
      events := events.Put(e, payload);
      error := None;
    }
  }
}
