/** The UI slice of the Redux store: theme and language, the modal and the
    toast, the navigation history, the sidebar, the search box, the
    notification list and the accessibility and performance switches. */
module UiSlice {
  import opened Types
  import opened Seqs

  /** At most this many routes are kept in the navigation history. */
  const MaxHistory: nat := 50

  /** At most this many notifications are kept. */
  const MaxNotifications: nat := 100

  const DefaultToastDuration: int := 3000

  datatype ToastType = Success | ToastError | Warning | Info
  datatype FontSize = Small | NormalSize | Large
  datatype ImageQuality = Low | Medium | HighQuality

  datatype Modal = Modal(isVisible: bool, modalType: Option<string>, data: JsValue)
  datatype Toast = Toast(isVisible: bool, message: string, toastType: ToastType, duration: int)
  datatype Navigation = Navigation(currentRoute: string, previousRoute: string, history: seq<string>)
  datatype Sidebar = Sidebar(isOpen: bool, activeTab: string)
  datatype Search = Search(query: string, isSearching: bool, results: seq<JsValue>, filters: map<string, JsValue>)
  datatype Notification = Notification(id: string, isRead: bool, content: JsValue)
  datatype Notifications = Notifications(unreadCount: int, list: seq<Notification>, isEnabled: bool)
  datatype Accessibility = Accessibility(fontSize: FontSize, highContrast: bool, reduceMotion: bool, screenReader: bool)
  datatype Performance = Performance(isLowPowerMode: bool, animationEnabled: bool, imageQuality: ImageQuality)

  datatype UiState = UiState(
    theme: ThemeMode,
    language: Language,
    isLoading: bool,
    modal: Modal,
    toast: Toast,
    navigation: Navigation,
    sidebar: Sidebar,
    search: Search,
    notifications: Notifications,
    accessibility: Accessibility,
    performance: Performance)

  const InitialModal := Modal(false, None, Null)
  const InitialToast := Toast(false, "", Info, DefaultToastDuration)
  const InitialSidebar := Sidebar(false, "main")
  const InitialSearch := Search("", false, [], map[])

  const InitialState := UiState(
    Light, Ko, false, InitialModal, InitialToast, Navigation("", "", []), InitialSidebar, InitialSearch,
    Notifications(0, [], true), Accessibility(NormalSize, false, false, false), Performance(false, true, HighQuality))

  // ------------------------------------------------------ navigation

  /** `history.push(route)` followed by `slice(-50)` when longer than 50. */
  function AppendRoute(history: seq<string>, route: string): (r: seq<string>)
    ensures |r| == if |history| + 1 > MaxHistory then MaxHistory else |history| + 1
    ensures r[|r| - 1] == route
    ensures forall k :: 0 <= k < |r| - 1 ==> r[k] == history[|history| - (|r| - 1) + k]
  {
    var pushed := history + [route];
    if |pushed| > MaxHistory then pushed[|pushed| - MaxHistory..] else pushed
  }

  /** The history never grows beyond its bound. */
  lemma AppendRouteKeepsBound(history: seq<string>, route: string)
    requires |history| <= MaxHistory
    ensures |AppendRoute(history, route)| <= MaxHistory
    ensures |history| < MaxHistory ==> AppendRoute(history, route) == history + [route]
    ensures |history| == MaxHistory ==> AppendRoute(history, route) == history[1..] + [route]
  {
  }

  /** The new previous route: the supplied one when truthy, else the old
      current route. */
  function PreviousRoute(nav: Navigation, supplied: Option<string>): (r: string)
    ensures supplied.Some? && supplied.value != "" ==> r == supplied.value
    ensures supplied.None? || supplied.value == "" ==> r == nav.currentRoute
  {
    if supplied.Some? && supplied.value != "" then supplied.value else nav.currentRoute
  }

  function Navigate(nav: Navigation, route: string, supplied: Option<string>): (r: Navigation)
    ensures r.currentRoute == route
    ensures r.history == AppendRoute(nav.history, route)
    ensures r.previousRoute == PreviousRoute(nav, supplied)
  {
    Navigation(route, PreviousRoute(nav, supplied), AppendRoute(nav.history, route))
  }

  // ------------------------------------------------------ notifications

  /** `unshift(n)` followed by `slice(0, 100)` when longer than 100. */
  function PrependNotification(list: seq<Notification>, n: Notification): (r: seq<Notification>)
    ensures |r| == if |list| + 1 > MaxNotifications then MaxNotifications else |list| + 1
    ensures r[0] == n
    ensures forall k :: 1 <= k < |r| ==> r[k] == list[k - 1]
  {
    var shifted := [n] + list;
    if |shifted| > MaxNotifications then shifted[..MaxNotifications] else shifted
  }

  function AddNotification(ns: Notifications, n: Notification): (r: Notifications)
    ensures r.list == PrependNotification(ns.list, n)
    ensures r.unreadCount == ns.unreadCount + 1
    ensures r.isEnabled == ns.isEnabled
  {
    ns.(list := PrependNotification(ns.list, n), unreadCount := ns.unreadCount + 1)
  }

  function HasNotificationId(id: string): Notification -> bool {
    (n: Notification) => n.id == id
  }

  /** The first notification with the id, if unread, becomes read and the
      unread counter drops by one without going below 0; otherwise nothing
      changes. */
  function MarkAsRead(ns: Notifications, id: string): (r: Notifications)
    ensures var i := FindIndex(ns.list, HasNotificationId(id));
      if i == -1 || ns.list[i].isRead then r == ns
      else
        && r.list == ns.list[i := ns.list[i].(isRead := true)]
        && r.unreadCount == (if ns.unreadCount - 1 < 0 then 0 else ns.unreadCount - 1)
        && r.isEnabled == ns.isEnabled
  {
    var i := FindIndex(ns.list, HasNotificationId(id));
    if i != -1 && !ns.list[i].isRead then
      ns.(list := ns.list[i := ns.list[i].(isRead := true)],
          unreadCount := if ns.unreadCount - 1 < 0 then 0 else ns.unreadCount - 1)
    else ns
  }

  /** Marking the same notification read a second time changes nothing. */
  lemma MarkAsReadIdempotent(ns: Notifications, id: string)
    ensures MarkAsRead(MarkAsRead(ns, id), id) == MarkAsRead(ns, id)
  {
    var once := MarkAsRead(ns, id);
    FindIndexAgrees(once.list, ns.list, HasNotificationId(id));
  }

  /** The counter stays non-negative through adding and marking. */
  lemma UnreadCountStaysNonNegative(ns: Notifications, n: Notification, id: string)
    requires ns.unreadCount >= 0
    ensures AddNotification(ns, n).unreadCount >= 1
    ensures MarkAsRead(ns, id).unreadCount >= 0
  {
  }

  // ------------------------------------------------------ toast and modal

  /** `payload.type || 'info'` and `payload.duration || 3000`. */
  function ShowToast(message: string, toastType: Option<ToastType>, duration: Option<int>): (t: Toast)
    ensures t.isVisible && t.message == message
    ensures t.toastType == if toastType.Some? then toastType.value else Info
    ensures t.duration == if duration.Some? && duration.value != 0 then duration.value else DefaultToastDuration
    ensures t.duration != 0
  {
    Toast(true, message,
          if toastType.Some? then toastType.value else Info,
          if duration.Some? && duration.value != 0 then duration.value else DefaultToastDuration)
  }

  /** `data || null`. */
  function ShowModal(modalType: string, data: JsValue): (m: Modal)
    ensures m.isVisible && m.modalType == Some(modalType)
    ensures Truthy(data) ==> m.data == data
    ensures !Truthy(data) ==> m.data == Null
  {
    Modal(true, Some(modalType), if Truthy(data) then data else Null)
  }

  // ------------------------------------------------------ the slice

  class Slice {
    var theme: ThemeMode
    var language: Language
    var isLoading: bool
    var modal: Modal
    var toast: Toast
    var navigation: Navigation
    var sidebar: Sidebar
    var search: Search
    var notifications: Notifications
    var accessibility: Accessibility
    var performance: Performance

    function State(): UiState
      reads this
    {
      UiState(theme, language, isLoading, modal, toast, navigation, sidebar, search,
              notifications, accessibility, performance)
    }

    /** The history bound, kept by every reducer. */
    predicate Valid()
      reads this
    {
      |navigation.history| <= MaxHistory && |notifications.list| <= MaxNotifications
    }

    constructor ()
      ensures State() == InitialState && Valid()
    {
      theme := Light;
      language := Ko;
      isLoading := false;
      modal := InitialModal;
      toast := InitialToast;
      navigation := Navigation("", "", []);
      sidebar := InitialSidebar;
      search := InitialSearch;
      notifications := Notifications(0, [], true);
      accessibility := Accessibility(NormalSize, false, false, false);
      performance := Performance(false, true, HighQuality);
    }

    method SetTheme(mode: ThemeMode)
      modifies this
      ensures State() == old(State()).(theme := mode)
    {
      theme := mode;
    }

    method SetLanguage(lang: Language)
      modifies this
      ensures State() == old(State()).(language := lang)
    {
      language := lang;
    }

    method SetLoading(loading: bool)
      modifies this
      ensures State() == old(State()).(isLoading := loading)
    {
      isLoading := loading;
    }

    method ShowModalAction(modalType: string, data: JsValue)
      modifies this
      ensures State() == old(State()).(modal := ShowModal(modalType, data))
    {
      modal := ShowModal(modalType, data);
    }

    method HideModal()
      modifies this
      ensures State() == old(State()).(modal := InitialModal)
    {
      modal := InitialModal;
    }

    method ShowToastAction(message: string, toastType: Option<ToastType>, duration: Option<int>)
      modifies this
      ensures State() == old(State()).(toast := ShowToast(message, toastType, duration))
    {
      toast := ShowToast(message, toastType, duration);
    }

    /** Only the visibility flag changes; message, type and duration stay. */
    method HideToast()
      modifies this
      ensures State() == old(State()).(toast := old(toast).(isVisible := false))
    {
      toast := toast.(isVisible := false);
    }

    method UpdateNavigation(route: string, previous: Option<string>)
      requires Valid()
      modifies this
      ensures Valid()
      ensures State() == old(State()).(navigation := Navigate(old(navigation), route, previous))
    {
      AppendRouteKeepsBound(navigation.history, route);
      navigation := Navigate(navigation, route, previous);
    }

    method ToggleSidebar()
      modifies this
      ensures State() == old(State()).(sidebar := old(sidebar).(isOpen := !old(sidebar.isOpen)))
    {
      sidebar := sidebar.(isOpen := !sidebar.isOpen);
    }

    method SetSidebarOpen(open: bool)
      modifies this
      ensures State() == old(State()).(sidebar := old(sidebar).(isOpen := open))
    {
      sidebar := sidebar.(isOpen := open);
    }

    method SetActiveTab(tab: string)
      modifies this
      ensures State() == old(State()).(sidebar := old(sidebar).(activeTab := tab))
    {
      sidebar := sidebar.(activeTab := tab);
    }

    method SetSearchQuery(query: string)
      modifies this
      ensures State() == old(State()).(search := old(search).(query := query))
    {
      search := search.(query := query);
    }

    method SetSearching(searching: bool)
      modifies this
      ensures State() == old(State()).(search := old(search).(isSearching := searching))
    {
      search := search.(isSearching := searching);
    }

    method SetSearchResults(results: seq<JsValue>)
      modifies this
      ensures State() == old(State()).(search := old(search).(results := results))
    {
      search := search.(results := results);
    }

    method SetSearchFilters(filters: map<string, JsValue>)
      modifies this
      ensures State() == old(State()).(search := old(search).(filters := filters))
    {
      search := search.(filters := filters);
    }

    method ClearSearch()
      modifies this
      ensures State() == old(State()).(search := InitialSearch)
    {
      search := InitialSearch;
    }

    method SetUnreadCount(count: int)
      modifies this
      ensures State() == old(State()).(notifications := old(notifications).(unreadCount := count))
    {
      notifications := notifications.(unreadCount := count);
    }

    method AddNotificationAction(n: Notification)
      requires Valid()
      modifies this
      ensures Valid()
      ensures State() == old(State()).(notifications := AddNotification(old(notifications), n))
    {
      notifications := AddNotification(notifications, n);
    }

    method MarkNotificationAsRead(id: string)
      requires Valid()
      modifies this
      ensures Valid()
      ensures State() == old(State()).(notifications := MarkAsRead(old(notifications), id))
    {
      notifications := MarkAsRead(notifications, id);
    }

    method ClearNotifications()
      modifies this
      ensures State() == old(State()).(notifications := old(notifications).(list := [], unreadCount := 0))
    {
      notifications := notifications.(list := [], unreadCount := 0);
    }

    method ToggleNotifications()
      modifies this
      ensures State() == old(State()).(notifications := old(notifications).(isEnabled := !old(notifications.isEnabled)))
    {
      notifications := notifications.(isEnabled := !notifications.isEnabled);
    }

    method SetFontSize(size: FontSize)
      modifies this
      ensures State() == old(State()).(accessibility := old(accessibility).(fontSize := size))
    {
      accessibility := accessibility.(fontSize := size);
    }

    method ToggleHighContrast()
      modifies this
      ensures State() == old(State()).(accessibility := old(accessibility).(highContrast := !old(accessibility.highContrast)))
    {
      accessibility := accessibility.(highContrast := !accessibility.highContrast);
    }

    method ToggleReduceMotion()
      modifies this
      ensures State() == old(State()).(accessibility := old(accessibility).(reduceMotion := !old(accessibility.reduceMotion)))
    {
      accessibility := accessibility.(reduceMotion := !accessibility.reduceMotion);
    }

    method ToggleScreenReader()
      modifies this
      ensures State() == old(State()).(accessibility := old(accessibility).(screenReader := !old(accessibility.screenReader)))
    {
      accessibility := accessibility.(screenReader := !accessibility.screenReader);
    }

    method ToggleLowPowerMode()
      modifies this
      ensures State() == old(State()).(performance := old(performance).(isLowPowerMode := !old(performance.isLowPowerMode)))
    {
      performance := performance.(isLowPowerMode := !performance.isLowPowerMode);
    }

    method ToggleAnimation()
      modifies this
      ensures State() == old(State()).(performance := old(performance).(animationEnabled := !old(performance.animationEnabled)))
    {
      performance := performance.(animationEnabled := !performance.animationEnabled);
    }

    method SetImageQuality(quality: ImageQuality)
      modifies this
      ensures State() == old(State()).(performance := old(performance).(imageQuality := quality))
    {
      performance := performance.(imageQuality := quality);
    }

    /** Resets the modal, the toast, the sidebar and the search only. */
    method ResetUIState()
      modifies this
      ensures State() == old(State()).(modal := InitialModal, toast := InitialToast, sidebar := InitialSidebar,
                                       search := InitialSearch)
    {
      modal := InitialModal;
      toast := InitialToast;
      sidebar := InitialSidebar;
      search := InitialSearch;
    }

    /** Back to the initial state, except theme and language. */
    method ClearUIState()
      modifies this
      ensures State() == InitialState.(theme := old(theme), language := old(language))
      ensures Valid()
    {
      isLoading := false;
      modal := InitialModal;
      toast := InitialToast;
      navigation := Navigation("", "", []);
      sidebar := InitialSidebar;
      search := InitialSearch;
      notifications := Notifications(0, [], true);
      accessibility := Accessibility(NormalSize, false, false, false);
      performance := Performance(false, true, HighQuality);
    }
  }

  /** Every toggle reducer is an involution: toggling twice restores the
      whole state. */
  method ToggleTwiceRestores(ui: Slice)
    modifies ui
    ensures ui.State() == old(ui.State())
  {
    ui.ToggleSidebar();
    ui.ToggleSidebar();
    ui.ToggleNotifications();
    ui.ToggleNotifications();
    ui.ToggleHighContrast();
    ui.ToggleHighContrast();
    ui.ToggleReduceMotion();
    ui.ToggleReduceMotion();
    ui.ToggleScreenReader();
    ui.ToggleScreenReader();
    ui.ToggleLowPowerMode();
    ui.ToggleLowPowerMode();
    ui.ToggleAnimation();
    ui.ToggleAnimation();
  }
}
