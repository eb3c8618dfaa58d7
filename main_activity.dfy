/** MainActivity as an object: the navigation fields, the user session
    fields and the saved-instance-state record. Each method changes the
    fields in place and is proved to perform the matching transition of the
    Navigation module, so the navigation invariant is a class invariant. */
module Activity {
  import opened Common
  import opened Users
  import N = Navigation
  import NP = NavigationProperties

  // ---------------------------------------------------------------------------
  // User session
  // ---------------------------------------------------------------------------

  /** A callback handed to onUserDataReady, identified by a number. */
  type Callback = nat

  datatype Session = Session(
    userFullName: string,
    isUserDataLoaded: bool,
    cachedFollowersCount: Long,
    cachedFollowingCount: Long,
    pendingCallback: Option<Callback>,
    invoked: seq<Callback>)

  function InitialSession(): (s: Session)
    ensures !s.isUserDataLoaded && s.pendingCallback == None && s.invoked == []
    ensures s.userFullName == "User" && s.cachedFollowersCount == 0 && s.cachedFollowingCount == 0
  {
    Session("User", false, 0, 0, None, [])
  }

  /** onUserDataReady: runs the callback at once when the data is loaded,
      otherwise keeps it as the one pending callback. */
  function WhenUserDataReady(s: Session, cb: Callback): (r: Session)
    ensures s.isUserDataLoaded ==> r.invoked == s.invoked + [cb] && r.pendingCallback == s.pendingCallback
    ensures !s.isUserDataLoaded ==> r.invoked == s.invoked && r.pendingCallback == Some(cb)
    ensures r.isUserDataLoaded == s.isUserDataLoaded && r.userFullName == s.userFullName
    ensures r.cachedFollowersCount == s.cachedFollowersCount && r.cachedFollowingCount == s.cachedFollowingCount
  {
    if s.isUserDataLoaded then s.(invoked := s.invoked + [cb]) else s.(pendingCallback := Some(cb))
  }

  /** The name shown before the profile is read: the stored full name when
      the record has one, else the part of the e-mail before '@'. */
  function FetchedName(fullName: Option<string>, email: string): (name: string)
    ensures fullName.Some? ==> name == fullName.value
    ensures fullName.None? ==> name <= email && '@' !in name
    ensures fullName.None? && '@' !in email ==> name == email
  {
    match fullName
    case Some(n) => n
    case None => SubstringBefore(email, '@')
  }

  /** The user record arrived (onDataChange) or could not be read
      (onCancelled, which passes no name and no counts): cache the name and
      counts, mark the data loaded and run the pending callback, which stays
      registered. */
  function UserDataArrived(s: Session, fullName: Option<string>, followers: Option<Long>,
                           following: Option<Long>, email: string): (r: Session)
    ensures r.isUserDataLoaded
    ensures r.userFullName == FetchedName(fullName, email)
    ensures r.cachedFollowersCount == followers.GetOr(0) && r.cachedFollowingCount == following.GetOr(0)
    ensures r.pendingCallback == s.pendingCallback
    ensures r.invoked == s.invoked + (if s.pendingCallback.Some? then [s.pendingCallback.value] else [])
  {
    Session(FetchedName(fullName, email), true, followers.GetOr(0), following.GetOr(0), s.pendingCallback,
            match s.pendingCallback
            case Some(cb) => s.invoked + [cb]
            case None => s.invoked)
  }

  /** Only the last callback registered before the data arrives runs. */
  lemma OnlyLastPendingCallbackRuns(s: Session, first: Callback, second: Callback,
                                    fullName: Option<string>, email: string)
    requires !s.isUserDataLoaded
    ensures UserDataArrived(WhenUserDataReady(WhenUserDataReady(s, first), second), fullName, None, None, email).invoked
      == s.invoked + [second]
  {
  }

  /** A callback registered after the data arrived runs at once and exactly
      once. */
  lemma LateCallbackRunsOnce(s: Session, cb: Callback, fullName: Option<string>, email: string)
    requires !s.isUserDataLoaded && s.pendingCallback == None
    ensures WhenUserDataReady(UserDataArrived(s, fullName, None, None, email), cb).invoked == s.invoked + [cb]
  {
  }

  // ---------------------------------------------------------------------------
  // Saved instance state
  // ---------------------------------------------------------------------------

  datatype BundleValue = BString(s: string) | BBool(b: bool) | BInt(i: int) | BLong(l: Long)

  type Bundle = map<string, BundleValue>

  /** The fields onSaveInstanceState writes. */
  datatype SavedState = SavedState(
    searchFilter: string,
    searchQuery: string,
    homeInSearchMode: bool,
    profileInMenuMode: bool,
    tabId: N.TabId,
    followers: Long,
    following: Long)

  const FilterKey := "saved_search_filter"
  const QueryKey := "saved_search_query"
  const SearchModeKey := "is_home_in_search_mode"
  const MenuModeKey := "is_profile_in_menu_mode"
  const TabKey := "current_tab_id"
  const FollowersKey := "cached_followers"
  const FollowingKey := "cached_following"
  const SavedKeys: set<string> := {FilterKey, QueryKey, SearchModeKey, MenuModeKey, TabKey, FollowersKey, FollowingKey}

  /** What onRestoreInstanceState falls back to for a missing key. */
  const Defaults := SavedState("accounts", "", false, false, N.NavHome, 0, 0)

  /** Bundle.getString(key, default) and friends: the stored value when the
      key holds one of the right type, else the default. */
  function GetString(b: Bundle, key: string, default: string): string {
    if key in b && b[key].BString? then b[key].s else default
  }

  function GetBool(b: Bundle, key: string, default: bool): bool {
    if key in b && b[key].BBool? then b[key].b else default
  }

  function GetInt(b: Bundle, key: string, default: int): int {
    if key in b && b[key].BInt? then b[key].i else default
  }

  function GetLong(b: Bundle, key: string, default: Long): Long {
    if key in b && b[key].BLong? then b[key].l else default
  }

  /** onSaveInstanceState: the seven entries are added to whatever the
      framework already put in the bundle. */
  function SaveInto(out: Bundle, s: SavedState): (b: Bundle)
    ensures b.Keys == out.Keys + SavedKeys
    ensures forall k | k in out && k !in SavedKeys :: b[k] == out[k]
  {
    out[FilterKey := BString(s.searchFilter)]
       [QueryKey := BString(s.searchQuery)]
       [SearchModeKey := BBool(s.homeInSearchMode)]
       [MenuModeKey := BBool(s.profileInMenuMode)]
       [TabKey := BInt(s.tabId)]
       [FollowersKey := BLong(s.followers)]
       [FollowingKey := BLong(s.following)]
  }

  /** onRestoreInstanceState: each field from its key, or its default. */
  function RestoreFrom(b: Bundle): (s: SavedState)
    ensures (forall k | k in SavedKeys :: k !in b) ==> s == Defaults
  {
    SavedState(GetString(b, FilterKey, "accounts"), GetString(b, QueryKey, ""),
               GetBool(b, SearchModeKey, false), GetBool(b, MenuModeKey, false),
               GetInt(b, TabKey, N.NavHome),
               GetLong(b, FollowersKey, 0), GetLong(b, FollowingKey, 0))
  }

  /** Saving then restoring gives back every saved field, whatever else the
      bundle held. */
  lemma SaveRestoreRoundTrip(out: Bundle, s: SavedState)
    ensures RestoreFrom(SaveInto(out, s)) == s
  {
    var b := SaveInto(out, s);
    assert b[FilterKey] == BString(s.searchFilter) && b[QueryKey] == BString(s.searchQuery);
    assert b[SearchModeKey] == BBool(s.homeInSearchMode) && b[MenuModeKey] == BBool(s.profileInMenuMode);
    assert b[TabKey] == BInt(s.tabId);
    assert b[FollowersKey] == BLong(s.followers) && b[FollowingKey] == BLong(s.following);
  }

  // ---------------------------------------------------------------------------
  // The activity
  // ---------------------------------------------------------------------------

  /** The eviction loop of handleHomeButtonNavigation: the transient keys
      are collected first and then removed one at a time. */
  method EvictHomeTransients(fragmentMap: map<N.Tag, N.View>) returns (cache: map<N.Tag, N.View>)
    ensures cache == N.EvictHomeTransients(fragmentMap)
  {
    cache := fragmentMap;
    var doomed := set k | k in cache && N.IsHomeTransient(k);
    while doomed != {}
      invariant forall k | k in doomed :: N.IsHomeTransient(k)
      invariant forall k :: k in cache <==> k in fragmentMap && (!N.IsHomeTransient(k) || k in doomed)
      invariant forall k | k in cache :: cache[k] == fragmentMap[k]
      decreases |doomed|
    {
      var key :| key in doomed;
      cache := cache - {key};
      doomed := doomed - {key};
    }
  }

  class MainActivity {
    var tabStacks: map<N.TabId, seq<N.Tag>>
    var fragmentMap: map<N.Tag, N.View>
    var activeFragment: Option<N.Tag>
    var currentTabId: N.TabId
    var isHomeInSearchMode: bool
    var isProfileInMenuMode: bool
    var savedSearchFilter: string
    var savedSearchQuery: string

    var userFullName: string
    var isUserDataLoaded: bool
    var cachedFollowersCount: Long
    var cachedFollowingCount: Long
    var onUserDataLoadedCallback: Option<Callback>
    var invoked: seq<Callback>

    function State(): N.NavState
      reads this
    {
      N.NavState(tabStacks, fragmentMap, activeFragment, currentTabId, isHomeInSearchMode,
                 isProfileInMenuMode, savedSearchFilter, savedSearchQuery)
    }

    function CurrentSession(): Session
      reads this
    {
      Session(userFullName, isUserDataLoaded, cachedFollowersCount, cachedFollowingCount,
              onUserDataLoadedCallback, invoked)
    }

    ghost predicate Valid()
      reads this
    {
      N.Valid(State())
    }

    constructor ()
      ensures Valid()
      ensures State() == N.Initial() && CurrentSession() == InitialSession()
    {
      tabStacks, fragmentMap, activeFragment := map[], map[], None;
      currentTabId := N.NavHome;
      isHomeInSearchMode, isProfileInMenuMode := false, false;
      savedSearchFilter, savedSearchQuery := "accounts", "";
      userFullName, isUserDataLoaded := "User", false;
      cachedFollowersCount, cachedFollowingCount := 0, 0;
      onUserDataLoadedCallback, invoked := None, [];
    }

    method InitializeTabStacks()
      requires Valid()
      modifies this
      ensures Valid()
      ensures State() == N.InitializeTabStacks(old(State())) && CurrentSession() == old(CurrentSession())
    {
      tabStacks := tabStacks[N.NavHome := []];
      tabStacks := tabStacks[N.NavReels := []];
      tabStacks := tabStacks[N.NavProducts := []];
      tabStacks := tabStacks[N.NavCart := []];
      tabStacks := tabStacks[N.NavProfile := []];
      NP.InitializeTabStacksKeepsValid(old(State()));
    }

    method ShowFragment(tag: N.Tag)
      modifies this
      ensures State() == N.Show(old(State()), tag) && CurrentSession() == old(CurrentSession())
    {
      if tag !in fragmentMap {
        var fragment := N.CreateFragment(tag, savedSearchFilter, savedSearchQuery);
        fragmentMap := fragmentMap[tag := fragment];
      }
      activeFragment := Some(tag);
    }

    method SwitchToTab(tabId: N.TabId)
      requires Valid()
      modifies this
      ensures Valid()
      ensures State() == N.SwitchToTab(old(State()), tabId) && CurrentSession() == old(CurrentSession())
    {
      ghost var n0 := State();
      NP.SwitchToTabKeepsValid(n0, tabId);
      currentTabId := tabId;
      var stack := if tabId in tabStacks then tabStacks[tabId] else [];
      var fragmentTag;
      if stack != [] {
        fragmentTag := Last(stack);
        assert State() == n0.(currentTabId := tabId);
      } else {
        var initialTag := N.InitialFragmentTag(tabId, isHomeInSearchMode, isProfileInMenuMode);
        stack := stack + [initialTag];
        assert stack == [initialTag];
        tabStacks := tabStacks[tabId := stack];
        fragmentTag := initialTag;
        assert State() == n0.(currentTabId := tabId, tabStacks := n0.tabStacks[tabId := [initialTag]]);
      }
      ShowFragment(fragmentTag);
    }

    /** Returns whether the exit confirmation is requested. The switch to
        home ends with the home item's listener call (N.PressBack). */
    method HandleBackNavigation() returns (exitRequested: bool)
      requires Valid()
      modifies this
      ensures Valid()
      ensures (State(), exitRequested) == N.PressBack(old(State()))
      ensures CurrentSession() == old(CurrentSession())
    {
      NP.BackKeepsValid(State());
      var currentStack := if currentTabId in tabStacks then tabStacks[currentTabId] else [];
      if |currentStack| > 1 {
        currentStack := currentStack[..|currentStack| - 1];
        tabStacks := tabStacks[currentTabId := currentStack];
        ShowFragment(Last(currentStack));
        exitRequested := false;
      } else if currentTabId == N.NavHome {
        exitRequested := true;
      } else {
        SwitchToTab(N.NavHome);
        HandleHomeButtonNavigation();
        exitRequested := false;
      }
    }

    method HandleHomeButtonNavigation()
      requires Valid()
      modifies this
      ensures Valid()
      ensures State() == N.HandleHomeButton(old(State())) && CurrentSession() == old(CurrentSession())
    {
      if currentTabId == N.NavHome {
        ResetHomeTab();
      } else {
        NP.HomeButtonKeepsValid(State());
        var homeStack := if N.NavHome in tabStacks then tabStacks[N.NavHome] else [];
        var topFragment := if homeStack == [] then "home" else Last(homeStack);
        currentTabId := N.NavHome;
        ShowFragment(topFragment);
      }
    }

    /** Home reselected while on home: the stack goes back to ["home"], the
        transient screens leave the cache and search mode ends. */
    method ResetHomeTab()
      requires Valid() && currentTabId == N.NavHome
      modifies this
      ensures Valid()
      ensures State() == N.HandleHomeButton(old(State())) && CurrentSession() == old(CurrentSession())
    {
      ghost var n0 := State();
      NP.HomeButtonKeepsValid(n0);
      var stacks := N.StoreStack(tabStacks, N.NavHome, ["home"]);
      var cache := EvictHomeTransients(fragmentMap);
      tabStacks, fragmentMap, isHomeInSearchMode := stacks, cache, false;
      ghost var mid := n0.(tabStacks := stacks, fragmentMap := cache, homeInSearchMode := false);
      assert State() == mid;
      assert N.HandleHomeButton(n0) == N.Show(mid, "home");
      ShowFragment("home");
    }

    /** `menuAdded` is what the framework reports as the cached menu's
        isAdded. */
    method HandleProfileButtonNavigation(menuAdded: bool)
      requires Valid()
      modifies this
      ensures Valid()
      ensures State() == N.HandleProfileButton(old(State()), menuAdded) && CurrentSession() == old(CurrentSession())
    {
      if currentTabId == N.NavProfile {
        ResetProfileTab(menuAdded);
      } else {
        NP.ProfileButtonKeepsValid(State(), menuAdded);
        var profileStack := if N.NavProfile in tabStacks then tabStacks[N.NavProfile] else [];
        var topFragment := if profileStack == [] then "profile" else Last(profileStack);
        currentTabId := N.NavProfile;
        ShowFragment(topFragment);
      }
    }

    /** Profile reselected while on profile: the stack goes back to
        ["profile"], an attached menu leaves the cache and menu mode ends. */
    method ResetProfileTab(menuAdded: bool)
      requires Valid() && currentTabId == N.NavProfile
      modifies this
      ensures Valid()
      ensures State() == N.HandleProfileButton(old(State()), menuAdded) && CurrentSession() == old(CurrentSession())
    {
      ghost var n0 := State();
      NP.ProfileButtonKeepsValid(n0, menuAdded);
      var stacks := N.StoreStack(tabStacks, N.NavProfile, ["profile"]);
      var cache := if "menu" in fragmentMap && menuAdded then fragmentMap - {"menu"} else fragmentMap;
      tabStacks, fragmentMap, isProfileInMenuMode := stacks, cache, false;
      ghost var mid := n0.(tabStacks := stacks, fragmentMap := cache, profileInMenuMode := false);
      assert State() == mid;
      assert N.HandleProfileButton(n0, menuAdded) == N.Show(mid, "profile");
      ShowFragment("profile");
    }

    /** `now` stands for System.currentTimeMillis(). */
    method NavigateToUserProfile(user: User, now: Long)
      requires Valid()
      modifies this
      ensures Valid()
      ensures State() == N.NavigateToUserProfile(old(State()), user, now) && CurrentSession() == old(CurrentSession())
    {
      NP.NavigateKeepsValid(State(), user, now);
      var homeStack := if N.NavHome in tabStacks then tabStacks[N.NavHome] else [];
      homeStack := N.RemoveProfileTags(homeStack);
      var profileTag := N.ProfileTag(user.userId, now);
      homeStack := homeStack + [profileTag];
      if N.NavHome in tabStacks {
        tabStacks := tabStacks[N.NavHome := homeStack];
      }
      fragmentMap := fragmentMap[profileTag := N.OtherProfileView(user)];
      activeFragment := Some(profileTag);
    }

    method OpenSearchFragment()
      requires Valid()
      modifies this
      ensures Valid()
      ensures State() == N.OpenSearchFragment(old(State())) && CurrentSession() == old(CurrentSession())
    {
      NP.OpenSearchKeepsValid(State());
      EnterSearch();
      ShowFragment("search");
    }

    /** The part of openSearchFragment before the search screen is shown. */
    method EnterSearch()
      modifies this
      ensures State() == N.EnterSearch(old(State())) && CurrentSession() == old(CurrentSession())
    {
      ghost var n0 := State();
      var homeStack := if N.NavHome in tabStacks then tabStacks[N.NavHome] else [];
      var cache := fragmentMap;
      if "search" in homeStack {
        homeStack := RemoveFirst(homeStack, "search");
        if "search" in cache {
          cache := cache - {"search"};
        }
      }
      homeStack := N.RemoveProfileTags(homeStack) + ["search"];
      var stacks := N.StoreStack(tabStacks, N.NavHome, homeStack);
      isHomeInSearchMode, tabStacks, fragmentMap := true, stacks, cache;
      savedSearchFilter, savedSearchQuery := "accounts", "";
      assert State() == n0.(homeInSearchMode := true, tabStacks := stacks, fragmentMap := cache,
                            savedSearchFilter := "accounts", savedSearchQuery := "");
    }

    /** goBackToHome, then the home item's listener call (N.LeaveSearch). */
    method GoBackToHome()
      requires Valid()
      modifies this
      ensures Valid()
      ensures State() == N.LeaveSearch(old(State())) && CurrentSession() == old(CurrentSession())
    {
      PopHomeStack();
      HandleHomeButtonNavigation();
    }

    /** The body of goBackToHome before its last line. */
    method PopHomeStack()
      requires Valid()
      modifies this
      ensures Valid()
      ensures State() == N.GoBackToHome(old(State())) && CurrentSession() == old(CurrentSession())
    {
      NP.GoBackToHomeKeepsValid(State());
      var present := N.NavHome in tabStacks;
      var currentStack := if present then tabStacks[N.NavHome] else [];
      var previousTag;
      if |currentStack| > 1 {
        currentStack := currentStack[..|currentStack| - 1];
        previousTag := Last(currentStack);
        if previousTag == "home" {
          isHomeInSearchMode := false;
        }
      } else {
        isHomeInSearchMode := false;
        currentStack := ["home"];
        previousTag := "home";
      }
      if present {
        tabStacks := tabStacks[N.NavHome := currentStack];
      }
      ShowFragment(previousTag);
    }

    method OpenMenuFragment()
      requires Valid()
      modifies this
      ensures Valid()
      ensures State() == N.OpenMenuFragment(old(State())) && CurrentSession() == old(CurrentSession())
    {
      NP.OpenMenuKeepsValid(State());
      isProfileInMenuMode := true;
      var present := N.NavProfile in tabStacks;
      var currentStack := if present then tabStacks[N.NavProfile] else [];
      if "menu" !in currentStack {
        currentStack := currentStack + ["menu"];
      }
      if present {
        tabStacks := tabStacks[N.NavProfile := currentStack];
      }
      ShowFragment("menu");
    }

    method CloseMenuFragment()
      requires Valid()
      modifies this
      ensures Valid()
      ensures State() == N.CloseMenuFragment(old(State())) && CurrentSession() == old(CurrentSession())
    {
      NP.CloseMenuKeepsValid(State());
      var present := N.NavProfile in tabStacks;
      var currentStack := if present then tabStacks[N.NavProfile] else [];
      var previousTag;
      if |currentStack| > 1 {
        currentStack := currentStack[..|currentStack| - 1];
        previousTag := Last(currentStack);
        if previousTag == "profile" {
          isProfileInMenuMode := false;
        }
      } else {
        isProfileInMenuMode := false;
        currentStack := ["profile"];
        previousTag := "profile";
      }
      if present {
        tabStacks := tabStacks[N.NavProfile := currentStack];
      }
      ShowFragment(previousTag);
    }

    method SaveSearchState(filter: string, query: string)
      requires Valid()
      modifies this
      ensures Valid()
      ensures State() == N.SaveSearchState(old(State()), filter, query) && CurrentSession() == old(CurrentSession())
    {
      savedSearchFilter := filter;
      savedSearchQuery := query;
      NP.ValidIgnoresModes(old(State()), State());
    }

    /** The clearing part of signOutUser. */
    method SignOutUser()
      requires Valid()
      modifies this
      ensures Valid()
      ensures State() == N.SignOutUser(old(State())) && CurrentSession() == old(CurrentSession())
    {
      fragmentMap := map[];
      tabStacks := map[];
    }

    method UpdateCachedCounts(followers: Long, following: Long)
      modifies this
      ensures cachedFollowersCount == followers && cachedFollowingCount == following
      ensures State() == old(State())
      ensures CurrentSession() == old(CurrentSession()).(cachedFollowersCount := followers, cachedFollowingCount := following)
    {
      cachedFollowersCount := followers;
      cachedFollowingCount := following;
    }

    method OnUserDataReady(callback: Callback)
      modifies this
      ensures State() == old(State())
      ensures CurrentSession() == WhenUserDataReady(old(CurrentSession()), callback)
    {
      if isUserDataLoaded {
        invoked := invoked + [callback];
      } else {
        onUserDataLoadedCallback := Some(callback);
      }
    }

    method InvokePendingCallback()
      modifies this
      ensures State() == old(State())
      ensures invoked == old(invoked) + (if onUserDataLoadedCallback.Some? then [onUserDataLoadedCallback.value] else [])
      ensures CurrentSession() == old(CurrentSession()).(invoked := invoked)
    {
      if onUserDataLoadedCallback.Some? {
        invoked := invoked + [onUserDataLoadedCallback.value];
      }
    }

    /** The user record was read (onDataChange); absent fields are None.
        The first screen is shown when nothing is cached yet. */
    method OnUserDataChange(fullName: Option<string>, followers: Option<Long>, following: Option<Long>, email: string)
      requires Valid()
      modifies this
      ensures Valid()
      ensures State() == if old(fragmentMap) == map[] then N.ShowFirstScreen(old(State())) else old(State())
      ensures CurrentSession() == UserDataArrived(old(CurrentSession()), fullName, followers, following, email)
    {
      ghost var s0 := CurrentSession();
      userFullName := FetchedName(fullName, email);
      cachedFollowersCount, cachedFollowingCount := followers.GetOr(0), following.GetOr(0);
      isUserDataLoaded := true;
      ghost var s1 := CurrentSession();
      assert s1 == s0.(userFullName := FetchedName(fullName, email), isUserDataLoaded := true,
                       cachedFollowersCount := followers.GetOr(0), cachedFollowingCount := following.GetOr(0));
      ShowFirstScreenIfEmpty();
      InvokePendingCallback();
      assert CurrentSession() == s1.(invoked := invoked);
    }

    /** The user record could not be read (onCancelled). */
    method OnUserDataCancelled(email: string)
      requires Valid()
      modifies this
      ensures Valid()
      ensures State() == if old(fragmentMap) == map[] then N.ShowFirstScreen(old(State())) else old(State())
      ensures CurrentSession() == UserDataArrived(old(CurrentSession()), None, None, None, email)
    {
      ghost var s0 := CurrentSession();
      userFullName := SubstringBefore(email, '@');
      cachedFollowersCount, cachedFollowingCount := 0, 0;
      isUserDataLoaded := true;
      ghost var s1 := CurrentSession();
      assert s1 == s0.(userFullName := FetchedName(None, email), isUserDataLoaded := true,
                       cachedFollowersCount := 0, cachedFollowingCount := 0);
      ShowFirstScreenIfEmpty();
      InvokePendingCallback();
      assert CurrentSession() == s1.(invoked := invoked);
    }

    /** `if (fragmentMap.isEmpty())`: switchToTab(R.id.nav_home), then the
        home item's listener call (N.ShowFirstScreen). */
    method ShowFirstScreenIfEmpty()
      requires Valid()
      modifies this
      ensures Valid()
      ensures State() == if old(fragmentMap) == map[] then N.ShowFirstScreen(old(State())) else old(State())
      ensures CurrentSession() == old(CurrentSession())
    {
      if fragmentMap == map[] {
        SwitchToTab(N.NavHome);
        HandleHomeButtonNavigation();
      }
    }

    method OnSaveInstanceState(outState: Bundle) returns (saved: Bundle)
      ensures saved == SaveInto(outState, SavedState(savedSearchFilter, savedSearchQuery, isHomeInSearchMode,
                                                     isProfileInMenuMode, currentTabId,
                                                     cachedFollowersCount, cachedFollowingCount))
    {
      saved := outState;
      saved := saved[FilterKey := BString(savedSearchFilter)];
      saved := saved[QueryKey := BString(savedSearchQuery)];
      saved := saved[SearchModeKey := BBool(isHomeInSearchMode)];
      saved := saved[MenuModeKey := BBool(isProfileInMenuMode)];
      saved := saved[TabKey := BInt(currentTabId)];
      saved := saved[FollowersKey := BLong(cachedFollowersCount)];
      saved := saved[FollowingKey := BLong(cachedFollowingCount)];
    }

    method OnRestoreInstanceState(savedInstanceState: Bundle)
      requires Valid()
      modifies this
      ensures Valid()
      ensures var s := RestoreFrom(savedInstanceState);
        && State() == N.RestoreModes(old(State()), s.searchFilter, s.searchQuery, s.homeInSearchMode,
                                     s.profileInMenuMode, s.tabId)
        && CurrentSession() == old(CurrentSession()).(cachedFollowersCount := s.followers,
                                                      cachedFollowingCount := s.following)
    {
      var restored := RestoreFrom(savedInstanceState);
      RestoreModes(restored);
      UpdateCachedCounts(restored.followers, restored.following);
    }

    /** The navigation half of onRestoreInstanceState. */
    method RestoreModes(restored: SavedState)
      requires Valid()
      modifies this
      ensures Valid()
      ensures State() == N.RestoreModes(old(State()), restored.searchFilter, restored.searchQuery,
                                        restored.homeInSearchMode, restored.profileInMenuMode, restored.tabId)
      ensures CurrentSession() == old(CurrentSession())
    {
      ghost var n0 := State();
      savedSearchFilter, savedSearchQuery := restored.searchFilter, restored.searchQuery;
      isHomeInSearchMode, isProfileInMenuMode := restored.homeInSearchMode, restored.profileInMenuMode;
      currentTabId := restored.tabId;
      NP.ValidIgnoresModes(n0, State());
    }
  }
}
