/** The tab-scoped navigation of MainActivity as a state machine on values.
    A screen (Fragment) is represented by its tag; the fragment cache maps
    tags to the kind of screen that was created for them. Every operation of
    the activity is a transition function here; the activity object in
    main_activity.dfy performs the same steps in place. */
module Navigation {
  import opened Common
  import opened Users

  /** Bottom-navigation item ids. The values stand for the generated
      R.id constants; only their distinctness matters. */
  type TabId = int
  const NavHome: TabId := 1
  const NavReels: TabId := 2
  const NavProducts: TabId := 3
  const NavCart: TabId := 4
  const NavProfile: TabId := 5
  const TabIds: set<TabId> := {NavHome, NavReels, NavProducts, NavCart, NavProfile}

  type Tag = string

  const ProfilePrefix: string := "user_profile_"

  predicate IsProfileTag(tag: Tag) {
    ProfilePrefix <= tag
  }

  /** Screens stacked over home that a home reselect throws away. */
  predicate IsHomeTransient(tag: Tag) {
    tag == "search" || IsProfileTag(tag)
  }

  /** The kind of screen a cache entry holds. */
  datatype View =
    | HomeView
    | SearchView(filter: string, query: string)
    | ReelsView
    | ProductsView
    | CartView
    | ProfileView
    | MenuView
    | OtherProfileView(user: User)

  datatype NavState = NavState(
    tabStacks: map<TabId, seq<Tag>>,
    fragmentMap: map<Tag, View>,
    active: Option<Tag>,
    currentTabId: TabId,
    homeInSearchMode: bool,
    profileInMenuMode: bool,
    savedSearchFilter: string,
    savedSearchQuery: string)

  /** The activity's field initialisers. */
  function Initial(): (n: NavState)
    ensures Valid(n)
    ensures n.currentTabId == NavHome && n.active == None && n.fragmentMap == map[]
  {
    NavState(map[], map[], None, NavHome, false, false, "accounts", "")
  }

  /** `tabStacks[t] ?: mutableListOf()`: a missing stack reads as empty. */
  function StackOf(n: NavState, t: TabId): seq<Tag> {
    if t in n.tabStacks then n.tabStacks[t] else []
  }

  /** Changes made to the list obtained by StackOf reach the map only when
      the list came from it; a fresh empty list is thrown away. */
  function StoreStack(stacks: map<TabId, seq<Tag>>, t: TabId, s: seq<Tag>): map<TabId, seq<Tag>> {
    if t in stacks then stacks[t := s] else stacks
  }

  /** a keeps every entry of b. */
  predicate Extends(a: map<Tag, View>, b: map<Tag, View>) {
    forall k | k in b :: k in a && a[k] == b[k]
  }

  /** The two mode flags and the saved search state are the same in n and r. */
  predicate SameModes(n: NavState, r: NavState) {
    && r.homeInSearchMode == n.homeInSearchMode
    && r.profileInMenuMode == n.profileInMenuMode
    && r.savedSearchFilter == n.savedSearchFilter
    && r.savedSearchQuery == n.savedSearchQuery
  }

  /** Every stack other than tab t's is the same in n and r. */
  predicate OtherStacksSame(n: NavState, r: NavState, t: TabId) {
    && r.tabStacks.Keys - {t} == n.tabStacks.Keys - {t}
    && forall u | u in n.tabStacks && u != t :: u in r.tabStacks && r.tabStacks[u] == n.tabStacks[u]
  }

  // ---------------------------------------------------------------------------
  // getInitialFragmentTag, createFragment, showFragment
  // ---------------------------------------------------------------------------

  function InitialFragmentTag(t: TabId, homeInSearchMode: bool, profileInMenuMode: bool): (tag: Tag)
    ensures t == NavHome ==> (tag == "search" <==> homeInSearchMode) && (!homeInSearchMode ==> tag == "home")
    ensures t == NavProfile ==> (tag == "menu" <==> profileInMenuMode) && (!profileInMenuMode ==> tag == "profile")
    ensures t == NavReels ==> tag == "reels"
    ensures t == NavProducts ==> tag == "products"
    ensures t == NavCart ==> tag == "cart"
    ensures t !in TabIds ==> tag == "home"
    ensures !IsProfileTag(tag)
  {
    assert !IsProfileTag("search") && !IsProfileTag("home") && !IsProfileTag("menu") && !IsProfileTag("profile");
    assert !IsProfileTag("reels") && !IsProfileTag("products") && !IsProfileTag("cart");
    if t == NavHome then (if homeInSearchMode then "search" else "home")
    else if t == NavReels then "reels"
    else if t == NavProducts then "products"
    else if t == NavCart then "cart"
    else if t == NavProfile then (if profileInMenuMode then "menu" else "profile")
    else "home"
  }

  const KnownTags: set<Tag> := {"home", "search", "reels", "products", "cart", "profile", "menu"}

  /** The screen built for a tag that is not cached yet. A search screen
      starts from the saved filter and query; every unknown tag, profile
      tags included, gets a home screen. */
  function CreateFragment(tag: Tag, savedFilter: string, savedQuery: string): (v: View)
    ensures tag == "search" <==> v.SearchView?
    ensures v.SearchView? ==> v == SearchView(savedFilter, savedQuery)
    ensures v == HomeView <==> (tag == "home" || tag !in KnownTags)
    ensures IsProfileTag(tag) ==> v == HomeView
    ensures !v.OtherProfileView?
  {
    assert IsProfileTag(tag) ==> tag !in KnownTags by {
      if IsProfileTag(tag) {
        assert tag[..|ProfilePrefix|] == ProfilePrefix;
      }
    }
    match tag
    case "home" => HomeView
    case "search" => SearchView(savedFilter, savedQuery)
    case "reels" => ReelsView
    case "products" => ProductsView
    case "cart" => CartView
    case "profile" => ProfileView
    case "menu" => MenuView
    case _ => HomeView
  }

  /** showFragment(tag): the tag becomes the active screen; a cached screen
      is reused as it is, a missing one is created and cached, and no other
      cache entry changes. */
  function Show(n: NavState, tag: Tag): (r: NavState)
    ensures r.active == Some(tag) && tag in r.fragmentMap
    ensures tag in n.fragmentMap ==> r.fragmentMap[tag] == n.fragmentMap[tag]
    ensures tag !in n.fragmentMap ==> r.fragmentMap[tag] == CreateFragment(tag, n.savedSearchFilter, n.savedSearchQuery)
    ensures r.fragmentMap.Keys == n.fragmentMap.Keys + {tag}
    ensures Extends(r.fragmentMap, n.fragmentMap)
    ensures r.tabStacks == n.tabStacks && r.currentTabId == n.currentTabId && SameModes(n, r)
  {
    if tag in n.fragmentMap then n.(active := Some(tag))
    else n.(fragmentMap := n.fragmentMap[tag := CreateFragment(tag, n.savedSearchFilter, n.savedSearchQuery)],
            active := Some(tag))
  }

  // ---------------------------------------------------------------------------
  // Stack helpers
  // ---------------------------------------------------------------------------

  /** `removeAll { it.startsWith("user_profile_") }`, keeping the order of
      the rest. */
  function RemoveProfileTags(s: seq<Tag>): (r: seq<Tag>)
    ensures forall x :: x in r <==> x in s && !IsProfileTag(x)
    ensures |r| <= |s|
    decreases |s|
  {
    if s == [] then []
    else
      var init := RemoveProfileTags(s[..|s| - 1]);
      assert s == s[..|s| - 1] + [Last(s)];
      if IsProfileTag(Last(s)) then init else init + [Last(s)]
  }

  /** Drops the cache entries a home reselect evicts. */
  function EvictHomeTransients(cache: map<Tag, View>): (r: map<Tag, View>)
    ensures forall k :: k in r <==> k in cache && !IsHomeTransient(k)
    ensures Extends(cache, r)
  {
    map k | k in cache && !IsHomeTransient(k) :: cache[k]
  }

  /** The stack and next screen after the back button of an overlay
      (goBackToHome, closeMenuFragment): pop one tag when there is more than
      one, otherwise start over from the anchor screen. */
  function PopOrReset(s: seq<Tag>, anchor: Tag): (r: (seq<Tag>, Tag))
    ensures |s| > 1 ==> r.0 == s[..|s| - 1] && r.1 == s[|s| - 2]
    ensures |s| <= 1 ==> r.0 == [anchor] && r.1 == anchor
    ensures r.0 != [] && r.1 == Last(r.0)
  {
    if |s| > 1 then (s[..|s| - 1], s[|s| - 2]) else ([anchor], anchor)
  }

  // ---------------------------------------------------------------------------
  // Transitions
  // ---------------------------------------------------------------------------

  /** initializeTabStacks: an empty stack for each of the five tabs. */
  function InitializeTabStacks(n: NavState): (r: NavState)
    ensures forall t | t in TabIds :: t in r.tabStacks && r.tabStacks[t] == []
    ensures forall t | t in n.tabStacks && t !in TabIds :: t in r.tabStacks && r.tabStacks[t] == n.tabStacks[t]
    ensures r.tabStacks.Keys == n.tabStacks.Keys + TabIds
    ensures r == n.(tabStacks := r.tabStacks)
  {
    n.(tabStacks := n.tabStacks[NavHome := []][NavReels := []][NavProducts := []][NavCart := []][NavProfile := []])
  }

  /** switchToTab(t): t becomes current and its top screen is shown; an
      empty stack first receives the tab's initial screen. */
  function SwitchToTab(n: NavState, t: TabId): (r: NavState)
    ensures r.currentTabId == t
    ensures StackOf(r, t) != [] && r.active == Some(Last(StackOf(r, t)))
    ensures StackOf(n, t) == [] ==> r.tabStacks == n.tabStacks[t := [InitialFragmentTag(t, n.homeInSearchMode, n.profileInMenuMode)]]
    ensures StackOf(n, t) != [] ==> r.tabStacks == n.tabStacks
    ensures OtherStacksSame(n, r, t)
    ensures Extends(r.fragmentMap, n.fragmentMap) && r.fragmentMap.Keys == n.fragmentMap.Keys + {Last(StackOf(r, t))}
    ensures SameModes(n, r)
  {
    var s := StackOf(n, t);
    if s != [] then
      Show(n.(currentTabId := t), Last(s))
    else
      var tag := InitialFragmentTag(t, n.homeInSearchMode, n.profileInMenuMode);
      Show(n.(currentTabId := t, tabStacks := n.tabStacks[t := [tag]]), tag)
  }

  /** handleBackNavigation: pop within the current tab when it holds more
      than one screen; otherwise ask to exit on home, or go to home from any
      other tab. `exit` is the request for the exit confirmation. */
  function HandleBackNavigation(n: NavState): (r: (NavState, bool))
    ensures var s := StackOf(n, n.currentTabId);
      |s| > 1 ==>
        && !r.1
        && r.0.tabStacks == n.tabStacks[n.currentTabId := s[..|s| - 1]]
        && r.0.active == Some(s[|s| - 2])
        && r.0.currentTabId == n.currentTabId && SameModes(n, r.0)
    ensures var s := StackOf(n, n.currentTabId);
      |s| <= 1 && n.currentTabId == NavHome ==> r.1 && r.0 == n
    ensures var s := StackOf(n, n.currentTabId);
      |s| <= 1 && n.currentTabId != NavHome ==> !r.1 && r.0 == SwitchToTab(n, NavHome)
  {
    var s := StackOf(n, n.currentTabId);
    if |s| > 1 then
      var popped := s[..|s| - 1];
      (Show(n.(tabStacks := n.tabStacks[n.currentTabId := popped]), Last(popped)), false)
    else if n.currentTabId == NavHome then
      (n, true)
    else
      (SwitchToTab(n, NavHome), false)
  }

  /** handleHomeButtonNavigation. Reselecting home resets its stack to
      ["home"], evicts the search screen and every user profile screen,
      leaves search mode and shows home. Selecting it from another tab shows
      the home stack's top (or "home" when the stack is empty). */
  function HandleHomeButton(n: NavState): (r: NavState)
    ensures r.currentTabId == NavHome
    ensures n.currentTabId == NavHome ==>
      && r.tabStacks == StoreStack(n.tabStacks, NavHome, ["home"])
      && (forall k | k in r.fragmentMap :: !IsHomeTransient(k))
      && (forall k | k in n.fragmentMap && !IsHomeTransient(k) :: k in r.fragmentMap && r.fragmentMap[k] == n.fragmentMap[k])
      && r.active == Some("home") && !r.homeInSearchMode
    ensures n.currentTabId != NavHome ==>
      && r.tabStacks == n.tabStacks
      && r.active == Some(if StackOf(n, NavHome) == [] then "home" else Last(StackOf(n, NavHome)))
      && Extends(r.fragmentMap, n.fragmentMap)
      && r.homeInSearchMode == n.homeInSearchMode
    ensures r.profileInMenuMode == n.profileInMenuMode
    ensures r.savedSearchFilter == n.savedSearchFilter && r.savedSearchQuery == n.savedSearchQuery
  {
    var home := StackOf(n, NavHome);
    if n.currentTabId == NavHome then
      Show(n.(tabStacks := StoreStack(n.tabStacks, NavHome, ["home"]),
              fragmentMap := EvictHomeTransients(n.fragmentMap),
              homeInSearchMode := false), "home")
    else
      Show(n.(currentTabId := NavHome), if home == [] then "home" else Last(home))
  }

  /** handleProfileButtonNavigation. Reselecting profile resets its stack
      to ["profile"], leaves menu mode and shows profile; the cached menu is
      evicted only when the framework reports it as added (`menuAdded`).
      Selecting it from another tab shows the profile stack's top. */
  function HandleProfileButton(n: NavState, menuAdded: bool): (r: NavState)
    ensures r.currentTabId == NavProfile
    ensures n.currentTabId == NavProfile ==>
      && r.tabStacks == StoreStack(n.tabStacks, NavProfile, ["profile"])
      && ("menu" in r.fragmentMap <==> "menu" in n.fragmentMap && !menuAdded)
      && (forall k | k in n.fragmentMap && k != "menu" :: k in r.fragmentMap && r.fragmentMap[k] == n.fragmentMap[k])
      && r.active == Some("profile") && !r.profileInMenuMode
    ensures n.currentTabId != NavProfile ==>
      && r.tabStacks == n.tabStacks
      && r.active == Some(if StackOf(n, NavProfile) == [] then "profile" else Last(StackOf(n, NavProfile)))
      && Extends(r.fragmentMap, n.fragmentMap)
      && r.profileInMenuMode == n.profileInMenuMode
    ensures r.homeInSearchMode == n.homeInSearchMode
    ensures r.savedSearchFilter == n.savedSearchFilter && r.savedSearchQuery == n.savedSearchQuery
  {
    var profile := StackOf(n, NavProfile);
    if n.currentTabId == NavProfile then
      var cache := if "menu" in n.fragmentMap && menuAdded then n.fragmentMap - {"menu"} else n.fragmentMap;
      Show(n.(tabStacks := StoreStack(n.tabStacks, NavProfile, ["profile"]),
              fragmentMap := cache,
              profileInMenuMode := false), "profile")
    else
      Show(n.(currentTabId := NavProfile), if profile == [] then "profile" else Last(profile))
  }

  /** The tag of a pushed user profile screen; `now` stands for
      System.currentTimeMillis(). */
  function ProfileTag(userId: string, now: Long): (tag: Tag)
    ensures IsProfileTag(tag)
  {
    var tag := ProfilePrefix + userId + "_" + IntToString(now);
    assert tag[..|ProfilePrefix|] == ProfilePrefix;
    tag
  }

  /** navigateToUserProfile: earlier profile screens leave the home stack
      (but stay cached), the new one is pushed, cached and shown. The current
      tab is not changed. */
  function NavigateToUserProfile(n: NavState, user: User, now: Long): (r: NavState)
    ensures var tag := ProfileTag(user.userId, now);
      && r.active == Some(tag)
      && r.fragmentMap == n.fragmentMap[tag := OtherProfileView(user)]
    ensures NavHome in n.tabStacks ==>
      StackOf(r, NavHome) == RemoveProfileTags(StackOf(n, NavHome)) + [ProfileTag(user.userId, now)]
    ensures NavHome in n.tabStacks ==>
      var h := StackOf(r, NavHome);
      h != [] && IsProfileTag(Last(h)) && forall i | 0 <= i < |h| - 1 :: !IsProfileTag(h[i])
    ensures NavHome !in n.tabStacks ==> r.tabStacks == n.tabStacks
    ensures OtherStacksSame(n, r, NavHome)
    ensures r.currentTabId == n.currentTabId && SameModes(n, r)
  {
    var tag := ProfileTag(user.userId, now);
    var home := RemoveProfileTags(StackOf(n, NavHome)) + [tag];
    assert forall i | 0 <= i < |home| - 1 :: home[i] in RemoveProfileTags(StackOf(n, NavHome));
    n.(tabStacks := StoreStack(n.tabStacks, NavHome, home),
       fragmentMap := n.fragmentMap[tag := OtherProfileView(user)],
       active := Some(tag))
  }

  /** openSearchFragment: enters search mode, takes a stacked search screen
      off the stack and out of the cache, drops profile screens from the
      home stack, resets the saved search state, pushes "search" and shows
      it. The current tab is not changed. */
  function OpenSearchFragment(n: NavState): (r: NavState)
    ensures r.homeInSearchMode && r.savedSearchFilter == "accounts" && r.savedSearchQuery == ""
    ensures r.active == Some("search") && r.currentTabId == n.currentTabId
    ensures r.profileInMenuMode == n.profileInMenuMode
    ensures NavHome in n.tabStacks ==>
      StackOf(r, NavHome) == RemoveProfileTags(RemoveFirst(StackOf(n, NavHome), "search")) + ["search"]
    ensures NavHome in n.tabStacks ==>
      var h := StackOf(r, NavHome);
      h != [] && Last(h) == "search" && forall x | x in h :: !IsProfileTag(x)
    ensures NavHome !in n.tabStacks ==> r.tabStacks == n.tabStacks
    ensures OtherStacksSame(n, r, NavHome)
    ensures "search" in StackOf(n, NavHome) ==> "search" in r.fragmentMap && r.fragmentMap["search"] == SearchView("accounts", "")
    ensures "search" !in StackOf(n, NavHome) ==> Extends(r.fragmentMap, n.fragmentMap)
    ensures forall k | k in n.fragmentMap && k != "search" :: k in r.fragmentMap && r.fragmentMap[k] == n.fragmentMap[k]
  {
    assert !IsProfileTag("search");
    Show(EnterSearch(n), "search")
  }

  /** Everything openSearchFragment does before showing the search screen. */
  function EnterSearch(n: NavState): NavState {
    var home := StackOf(n, NavHome);
    var wasStacked := "search" in home;
    var home1 := if wasStacked then RemoveFirst(home, "search") else home;
    var cache := if wasStacked && "search" in n.fragmentMap then n.fragmentMap - {"search"} else n.fragmentMap;
    n.(homeInSearchMode := true,
       tabStacks := StoreStack(n.tabStacks, NavHome, RemoveProfileTags(home1) + ["search"]),
       fragmentMap := cache,
       savedSearchFilter := "accounts",
       savedSearchQuery := "")
  }

  /** goBackToHome (the search screen's back button): pop one screen off the
      home stack, or reset it to ["home"]; search mode ends exactly when the
      screen shown next is home. */
  function GoBackToHome(n: NavState): (r: NavState)
    ensures var s := StackOf(n, NavHome);
      |s| > 1 ==>
        && r.tabStacks == n.tabStacks[NavHome := s[..|s| - 1]]
        && r.active == Some(s[|s| - 2])
        && (r.homeInSearchMode <==> n.homeInSearchMode && s[|s| - 2] != "home")
    ensures var s := StackOf(n, NavHome);
      |s| <= 1 ==>
        && r.tabStacks == StoreStack(n.tabStacks, NavHome, ["home"])
        && r.active == Some("home") && !r.homeInSearchMode
    ensures Extends(r.fragmentMap, n.fragmentMap)
    ensures r.currentTabId == n.currentTabId && r.profileInMenuMode == n.profileInMenuMode
    ensures r.savedSearchFilter == n.savedSearchFilter && r.savedSearchQuery == n.savedSearchQuery
  {
    var (stack, top) := PopOrReset(StackOf(n, NavHome), "home");
    Show(n.(tabStacks := StoreStack(n.tabStacks, NavHome, stack),
            homeInSearchMode := n.homeInSearchMode && top != "home"), top)
  }

  /** openMenuFragment: enters menu mode, pushes "menu" onto the profile
      stack unless it is already there, and shows it. */
  function OpenMenuFragment(n: NavState): (r: NavState)
    ensures r.profileInMenuMode && r.active == Some("menu")
    ensures var s := StackOf(n, NavProfile);
      r.tabStacks == StoreStack(n.tabStacks, NavProfile, if "menu" in s then s else s + ["menu"])
    ensures NavProfile in n.tabStacks ==> "menu" in StackOf(r, NavProfile)
    ensures Extends(r.fragmentMap, n.fragmentMap)
    ensures r.currentTabId == n.currentTabId && r.homeInSearchMode == n.homeInSearchMode
    ensures r.savedSearchFilter == n.savedSearchFilter && r.savedSearchQuery == n.savedSearchQuery
  {
    var s := StackOf(n, NavProfile);
    var s' := if "menu" in s then s else s + ["menu"];
    Show(n.(profileInMenuMode := true, tabStacks := StoreStack(n.tabStacks, NavProfile, s')), "menu")
  }

  /** closeMenuFragment (the menu's back button): pop one screen off the
      profile stack, or reset it to ["profile"]; menu mode ends exactly when
      the screen shown next is profile. */
  function CloseMenuFragment(n: NavState): (r: NavState)
    ensures var s := StackOf(n, NavProfile);
      |s| > 1 ==>
        && r.tabStacks == n.tabStacks[NavProfile := s[..|s| - 1]]
        && r.active == Some(s[|s| - 2])
        && (r.profileInMenuMode <==> n.profileInMenuMode && s[|s| - 2] != "profile")
    ensures var s := StackOf(n, NavProfile);
      |s| <= 1 ==>
        && r.tabStacks == StoreStack(n.tabStacks, NavProfile, ["profile"])
        && r.active == Some("profile") && !r.profileInMenuMode
    ensures Extends(r.fragmentMap, n.fragmentMap)
    ensures r.currentTabId == n.currentTabId && r.homeInSearchMode == n.homeInSearchMode
    ensures r.savedSearchFilter == n.savedSearchFilter && r.savedSearchQuery == n.savedSearchQuery
  {
    var (stack, top) := PopOrReset(StackOf(n, NavProfile), "profile");
    Show(n.(tabStacks := StoreStack(n.tabStacks, NavProfile, stack),
            profileInMenuMode := n.profileInMenuMode && top != "profile"), top)
  }

  /** saveSearchState(filter, query). */
  function SaveSearchState(n: NavState, filter: string, query: string): (r: NavState)
    ensures r.savedSearchFilter == filter && r.savedSearchQuery == query
    ensures r == n.(savedSearchFilter := filter, savedSearchQuery := query)
  {
    n.(savedSearchFilter := filter, savedSearchQuery := query)
  }

  /** The clearing part of signOutUser: no cached screen, no stack. */
  function SignOutUser(n: NavState): (r: NavState)
    ensures r.fragmentMap == map[] && forall t :: StackOf(r, t) == []
    ensures r.currentTabId == n.currentTabId && r.active == n.active && SameModes(n, r)
  {
    n.(tabStacks := map[], fragmentMap := map[])
  }

  /** onRestoreInstanceState, navigation part: the restored modes, search
      state and tab; stacks and cache are untouched. */
  function RestoreModes(n: NavState, filter: string, query: string, homeInSearchMode: bool,
                        profileInMenuMode: bool, tab: TabId): (r: NavState)
    ensures r.tabStacks == n.tabStacks && r.fragmentMap == n.fragmentMap && r.active == n.active
    ensures r.savedSearchFilter == filter && r.savedSearchQuery == query && r.currentTabId == tab
    ensures r.homeInSearchMode == homeInSearchMode && r.profileInMenuMode == profileInMenuMode
  {
    NavState(n.tabStacks, n.fragmentMap, n.active, tab, homeInSearchMode, profileInMenuMode, filter, query)
  }

  // ---------------------------------------------------------------------------
  // Selecting the home item from code
  // ---------------------------------------------------------------------------

  // `bottomNavigation.selectedItemId = R.id.nav_home` runs the activity's
  // item-selected listener at once, even when home already is the selected
  // item: no reselect listener is registered, so the listener's home branch,
  // handleHomeButtonNavigation, runs. Right after a switch to home that is
  // the reselect branch. The three functions below are the complete effect
  // of the operations that end with that assignment.

  /** A home stack reset by a home reselect: ["home"] where the stack
      exists, nothing transient cached, search mode off, home shown. */
  predicate HomeReset(n: NavState, r: NavState) {
    && r.currentTabId == NavHome
    && r.tabStacks == StoreStack(n.tabStacks, NavHome, ["home"])
    && r.active == Some("home") && !r.homeInSearchMode
    && (forall k | k in r.fragmentMap :: !IsHomeTransient(k))
    && r.profileInMenuMode == n.profileInMenuMode
    && r.savedSearchFilter == n.savedSearchFilter && r.savedSearchQuery == n.savedSearchQuery
  }

  /** A back press as a whole (handleBackNavigation and, after its switch to
      home, the reselect the assignment at line 131 triggers): pop within the
      tab, ask to exit on home, or land on a freshly reset home. */
  function PressBack(n: NavState): (r: (NavState, bool))
    ensures |StackOf(n, n.currentTabId)| > 1 ==> r == HandleBackNavigation(n)
    ensures |StackOf(n, n.currentTabId)| <= 1 && n.currentTabId == NavHome ==> r == (n, true)
    ensures |StackOf(n, n.currentTabId)| <= 1 && n.currentTabId != NavHome ==>
      && !r.1 && StackOf(r.0, NavHome) == ["home"]
      && HomeReset(SwitchToTab(n, NavHome), r.0)
      && OtherStacksSame(n, r.0, NavHome)
  {
    var (m, exit) := HandleBackNavigation(n);
    if |StackOf(n, n.currentTabId)| <= 1 && n.currentTabId != NavHome then
      var r := HandleHomeButton(m);
      assert NavHome in m.tabStacks;
      (r, false)
    else
      (m, exit)
  }

  /** The search screen's back button as a whole (goBackToHome and the
      reselect the assignment at line 406 triggers). On the home tab the
      pop is undone by the reset: home is always left with ["home"], no
      search or user profile screen cached, and search mode off. From
      another tab the popped home stack's top is shown. */
  function LeaveSearch(n: NavState): (r: NavState)
    ensures r.currentTabId == NavHome
    ensures n.currentTabId == NavHome ==> HomeReset(n, r)
    ensures n.currentTabId != NavHome ==>
      var m := GoBackToHome(n);
      && r.tabStacks == m.tabStacks && r.active == m.active
      && Extends(r.fragmentMap, m.fragmentMap)
  {
    var m := GoBackToHome(n);
    assert NavHome in m.tabStacks <==> NavHome in n.tabStacks;
    HandleHomeButton(m)
  }

  /** The first screen after the user record arrives with nothing cached
      (switchToTab(R.id.nav_home) and the assignment at lines 170 and 186):
      home, reset, even when the restored search mode made the switch show
      the search screen first. */
  function ShowFirstScreen(n: NavState): (r: NavState)
    ensures StackOf(r, NavHome) == ["home"]
    ensures HomeReset(SwitchToTab(n, NavHome), r)
    ensures OtherStacksSame(n, r, NavHome)
  {
    var m := SwitchToTab(n, NavHome);
    assert NavHome in m.tabStacks;
    HandleHomeButton(m)
  }

  // ---------------------------------------------------------------------------
  // Invariant
  // ---------------------------------------------------------------------------

  /** What every reachable navigation state satisfies: every stacked screen
      is cached, and the stacks are well placed. */
  ghost predicate Valid(n: NavState) {
    StacksCached(n) && WellPlaced(n)
  }

  predicate StacksCached(n: NavState) {
    forall t, tag | t in n.tabStacks && tag in n.tabStacks[t] :: tag in n.fragmentMap
  }

  /** Search and user profile screens are stacked only on home and the menu
      only on profile; on the home stack a user profile screen can only be
      the top one. */
  predicate WellPlaced(n: NavState) {
    && (forall t, tag | t in n.tabStacks && t != NavHome && tag in n.tabStacks[t] :: !IsHomeTransient(tag))
    && (forall t | t in n.tabStacks && t != NavProfile :: "menu" !in n.tabStacks[t])
    && ProfileOnlyOnTop(StackOf(n, NavHome))
  }

  predicate ProfileOnlyOnTop(s: seq<Tag>) {
    forall i | 0 <= i < |s| - 1 :: !IsProfileTag(s[i])
  }

  /** One user action or callback that changes navigation state. */
  datatype Event =
    | InitStacks
    | SelectTab(tab: TabId)
    | BackPressed
    | HomeSelected
    | ProfileSelected(menuAdded: bool)
    | OpenUserProfile(user: User, now: Long)
    | OpenSearch
    | SearchBack
    | OpenMenu
    | MenuBack
    | SaveSearch(filter: string, query: string)
    | SignOut
    | Restore(filter: string, query: string, homeInSearchMode: bool, profileInMenuMode: bool, tab: TabId)

  function Step(n: NavState, e: Event): NavState {
    match e
    case InitStacks => InitializeTabStacks(n)
    case SelectTab(t) => SwitchToTab(n, t)
    case BackPressed => PressBack(n).0
    case HomeSelected => HandleHomeButton(n)
    case ProfileSelected(menuAdded) => HandleProfileButton(n, menuAdded)
    case OpenUserProfile(user, now) => NavigateToUserProfile(n, user, now)
    case OpenSearch => OpenSearchFragment(n)
    case SearchBack => LeaveSearch(n)
    case OpenMenu => OpenMenuFragment(n)
    case MenuBack => CloseMenuFragment(n)
    case SaveSearch(f, q) => SaveSearchState(n, f, q)
    case SignOut => SignOutUser(n)
    case Restore(f, q, hs, pm, t) => RestoreModes(n, f, q, hs, pm, t)
  }

  function Run(n: NavState, events: seq<Event>): NavState
    decreases |events|
  {
    if events == [] then n else Run(Step(n, events[0]), events[1..])
  }
}
