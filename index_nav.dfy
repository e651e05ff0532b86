/**
 * The discovery app's screen switcher (`src/pages/Index.tsx`): which tab is
 * active, which view is on screen and which entry the detail view shows,
 * changed by five handlers.
 */
module IndexNav {
  import opened Wrappers
  import opened LensTypes

  /** The three tabs of the bottom bar. */
  datatype Tab = HomeTab | SearchTab | PopularTab

  /** The five views. */
  datatype View = HomeView | SearchView | PopularView | UpdatesView | DetailView

  /** The view a tab shows: `setCurrentView(tab)`. */
  function TabView(t: Tab): (v: View)
    ensures v != UpdatesView && v != DetailView
  {
    match t
    case HomeTab => HomeView
    case SearchTab => SearchView
    case PopularTab => PopularView
  }

  /** The views that belong to a tab. */
  predicate IsTabView(v: View) {
    v == HomeView || v == SearchView || v == PopularView
  }

  /** `activeTab`, `currentView` and `selectedAnime`. */
  datatype NavState = NavState(activeTab: Tab, currentView: View, selectedAnime: Option<Anime>)

  /** Home tab, home view, nothing selected. */
  const Initial: NavState := NavState(HomeTab, HomeView, None)

  /**
   * What holds after any sequence of handler calls: a tab view is the view of
   * the active tab, and the detail view always has an entry to show.
   */
  predicate Invariant(s: NavState) {
    (IsTabView(s.currentView) ==> s.currentView == TabView(s.activeTab)) &&
    (s.currentView == DetailView ==> s.selectedAnime.Some?)
  }

  /** `handleAnimeSelect`. */
  function AnimeSelect(s: NavState, anime: Anime): (t: NavState)
    ensures t == NavState(s.activeTab, DetailView, Some(anime))
  {
    s.(selectedAnime := Some(anime), currentView := DetailView)
  }

  /** `handleShowPopular`. */
  function ShowPopular(s: NavState): (t: NavState)
    ensures t == NavState(PopularTab, PopularView, s.selectedAnime)
  {
    s.(activeTab := PopularTab, currentView := PopularView)
  }

  /** `handleShowUpdates`: the active tab is left alone. */
  function ShowUpdates(s: NavState): (t: NavState)
    ensures t == NavState(s.activeTab, UpdatesView, s.selectedAnime)
  {
    s.(currentView := UpdatesView)
  }

  /** `handleBack`: detail returns to the active tab's view, updates returns home, anything else stays. */
  function Back(s: NavState): (t: NavState)
    ensures s.currentView == DetailView ==> t == s.(currentView := TabView(s.activeTab))
    ensures s.currentView == UpdatesView ==> t == NavState(HomeTab, HomeView, s.selectedAnime)
    ensures s.currentView != DetailView && s.currentView != UpdatesView ==> t == s
  {
    if s.currentView == DetailView then s.(currentView := TabView(s.activeTab))
    else if s.currentView == UpdatesView then s.(currentView := HomeView, activeTab := HomeTab)
    else s
  }

  /** `handleTabChange`. */
  function TabChange(s: NavState, tab: Tab): (t: NavState)
    ensures t == NavState(tab, TabView(tab), s.selectedAnime)
  {
    s.(activeTab := tab, currentView := TabView(tab))
  }

  /** `currentView !== 'detail' && currentView !== 'updates'`. */
  predicate TabBarVisible(s: NavState) {
    s.currentView != DetailView && s.currentView != UpdatesView
  }

  /** A user action: one call of one of the five handlers. */
  datatype Event = Select(anime: Anime) | ShowPopularEvent | ShowUpdatesEvent | BackEvent | TabEvent(tab: Tab)

  /** The state after one handler call. */
  function Step(s: NavState, e: Event): NavState {
    match e
    case Select(a) => AnimeSelect(s, a)
    case ShowPopularEvent => ShowPopular(s)
    case ShowUpdatesEvent => ShowUpdates(s)
    case BackEvent => Back(s)
    case TabEvent(t) => TabChange(s, t)
  }

  /** The state after a sequence of handler calls. */
  function Run(s: NavState, events: seq<Event>): NavState
    decreases |events|
  {
    if events == [] then s else Run(Step(s, events[0]), events[1..])
  }

  /**
   * Which handlers the current view offers: cards select in every view but
   * the detail view, only Home links to Popular and Updates, the back
   * buttons are on Updates and Detail, and the tab bar shows elsewhere.
   */
  predicate Offered(s: NavState, e: Event) {
    match e
    case Select(_) => s.currentView != DetailView
    case ShowPopularEvent => s.currentView == HomeView
    case ShowUpdatesEvent => s.currentView == HomeView
    case BackEvent => s.currentView == UpdatesView || s.currentView == DetailView
    case TabEvent(_) => TabBarVisible(s)
  }

  /** What holds in every state reachable through the UI: on Updates, the active tab is Home. */
  predicate ReachableInvariant(s: NavState) {
    Invariant(s) && (s.currentView == UpdatesView ==> s.activeTab == HomeTab)
  }

  // ---------------------------------------------------------------------------
  // properties
  // ---------------------------------------------------------------------------

  /** The initial state satisfies both invariants. */
  lemma InitialValid()
    ensures Invariant(Initial) && ReachableInvariant(Initial)
  {
  }

  /** Every handler keeps the invariant, whatever state it is called in. */
  lemma StepKeepsInvariant(s: NavState, e: Event)
    requires Invariant(s)
    ensures Invariant(Step(s, e))
  {
  }

  /** Any sequence of handler calls from the initial state ends in a state satisfying the invariant. */
  lemma {:induction false} RunKeepsInvariant(s: NavState, events: seq<Event>)
    requires Invariant(s)
    ensures Invariant(Run(s, events))
    decreases |events|
  {
    if events != [] {
      StepKeepsInvariant(s, events[0]);
      RunKeepsInvariant(Step(s, events[0]), events[1..]);
    }
  }

  /** The handlers the screens offer keep the stronger invariant. */
  lemma OfferedStepKeepsReachable(s: NavState, e: Event)
    requires ReachableInvariant(s) && Offered(s, e)
    ensures ReachableInvariant(Step(s, e))
  {
  }

  /** The stronger invariant after any sequence of offered handler calls. */
  lemma {:induction false} OfferedRunKeepsReachable(s: NavState, events: seq<Event>)
    requires ReachableInvariant(s)
    requires forall k :: 0 <= k < |events| ==> Offered(Run(s, events[..k]), events[k])
    ensures ReachableInvariant(Run(s, events))
    decreases |events|
  {
    if events != [] {
      assert events[..0] == [];
      OfferedStepKeepsReachable(s, events[0]);
      var t := Step(s, events[0]);
      forall k | 0 <= k < |events[1..]|
        ensures Offered(Run(t, events[1..][..k]), events[1..][k])
      {
        assert events[..k + 1] == [events[0]] + events[1..][..k];
        assert Run(s, events[..k + 1]) == Run(t, events[1..][..k]);
      }
      OfferedRunKeepsReachable(t, events[1..]);
    }
  }

  /** Under the invariant the tab bar shows exactly when the screen is the active tab's view. */
  lemma TabBarExactlyOnTabView(s: NavState)
    requires Invariant(s)
    ensures TabBarVisible(s) <==> s.currentView == TabView(s.activeTab)
  {
  }

  /**
   * Opening an entry from a tab view and going back returns to that same
   * view, with the tab unchanged.
   */
  lemma SelectThenBack(s: NavState, anime: Anime)
    requires Invariant(s) && IsTabView(s.currentView)
    ensures Back(AnimeSelect(s, anime)) == s.(selectedAnime := Some(anime))
  {
  }

  /**
   * Back from Updates always lands on Home. An entry opened from the Updates
   * view also returns to the active tab's view, not to Updates; on the
   * screens the UI offers, that is Home.
   */
  lemma BackFromUpdatesGoesHome(s: NavState, anime: Anime)
    requires ReachableInvariant(s) && s.currentView == UpdatesView
    ensures Back(s).currentView == HomeView && Back(s).activeTab == HomeTab
    ensures Back(AnimeSelect(s, anime)).currentView == HomeView
  {
  }

  /** The screen switcher, holding its three state fields. */
  class Navigator {
    var activeTab: Tab
    var currentView: View
    var selectedAnime: Option<Anime>

    function State(): NavState
      reads this
    {
      NavState(activeTab, currentView, selectedAnime)
    }

    ghost predicate Valid()
      reads this
    {
      Invariant(State())
    }

    constructor ()
      ensures Valid()
      ensures State() == Initial
    {
      activeTab := HomeTab;
      currentView := HomeView;
      selectedAnime := None;
    }

    method HandleAnimeSelect(anime: Anime)
      requires Valid()
      modifies this
      ensures Valid()
      ensures State() == AnimeSelect(old(State()), anime)
    {
      selectedAnime := Some(anime);
      currentView := DetailView;
    }

    method HandleShowPopular()
      requires Valid()
      modifies this
      ensures Valid()
      ensures State() == ShowPopular(old(State()))
    {
      activeTab := PopularTab;
      currentView := PopularView;
    }

    method HandleShowUpdates()
      requires Valid()
      modifies this
      ensures Valid()
      ensures State() == ShowUpdates(old(State()))
    {
      currentView := UpdatesView;
    }

    method HandleBack()
      requires Valid()
      modifies this
      ensures Valid()
      ensures State() == Back(old(State()))
    {
      if currentView == DetailView {
        currentView := TabView(activeTab);
      } else if currentView == UpdatesView {
        currentView := HomeView;
        activeTab := HomeTab;
      }
    }

    method HandleTabChange(tab: Tab)
      requires Valid()
      modifies this
      ensures Valid()
      ensures State() == TabChange(old(State()), tab)
    {
      activeTab := tab;
      currentView := TabView(tab);
    }

    /** Whether the bottom tab bar is rendered. */
    method ShowsTabBar() returns (visible: bool)
      requires Valid()
      ensures visible <==> currentView == TabView(activeTab)
    {
      TabBarExactlyOnTabView(State());
      visible := currentView != DetailView && currentView != UpdatesView;
    }
  }
}
