/** Properties of the navigation state machine that relate several calls:
    the invariant every operation keeps, and what sequences of operations
    do. */
module NavigationProperties {
  import opened Common
  import opened Users
  import opened Navigation

  /** Showing a screen keeps the invariant when every stacked tag is cached
      except, at most, the one being shown. */
  lemma ShowKeepsValid(m: NavState, tag: Tag)
    requires WellPlaced(m)
    requires forall t, x | t in m.tabStacks && x in m.tabStacks[t] :: x in m.fragmentMap || x == tag
    ensures Valid(Show(m, tag))
  {
  }

  /** The invariant speaks only of the stacks and the cache. */
  lemma ValidIgnoresModes(n: NavState, m: NavState)
    requires Valid(n) && m.tabStacks == n.tabStacks && m.fragmentMap == n.fragmentMap
    ensures Valid(m)
  {
    assert StackOf(m, NavHome) == StackOf(n, NavHome);
  }

  lemma InitializeTabStacksKeepsValid(n: NavState)
    requires Valid(n)
    ensures Valid(InitializeTabStacks(n))
  {
  }

  lemma SwitchToTabKeepsValid(n: NavState, t: TabId)
    requires Valid(n)
    ensures Valid(SwitchToTab(n, t))
  {
  }

  lemma BackKeepsValid(n: NavState)
    requires Valid(n)
    ensures Valid(HandleBackNavigation(n).0)
  {
  }

  lemma HomeButtonKeepsValid(n: NavState)
    requires Valid(n)
    ensures Valid(HandleHomeButton(n))
  {
  }

  lemma ProfileButtonKeepsValid(n: NavState, menuAdded: bool)
    requires Valid(n)
    ensures Valid(HandleProfileButton(n, menuAdded))
  {
  }

  lemma NavigateKeepsValid(n: NavState, user: User, now: Long)
    requires Valid(n)
    ensures Valid(NavigateToUserProfile(n, user, now))
  {
  }

  /** A new home stack h and a new cache c keep the invariant, up to the
      screen shown next, when h is well placed and cached up to that screen
      and c still holds every screen the other stacks can refer to. */
  lemma HomeRewriteKeepsValid(n: NavState, h: seq<Tag>, c: map<Tag, View>, tag: Tag)
    requires Valid(n)
    requires forall k | k in n.fragmentMap && !IsHomeTransient(k) :: k in c
    requires forall x | x in h :: x in c || x == tag
    requires "menu" !in h && ProfileOnlyOnTop(h)
    ensures WellPlaced(n.(tabStacks := StoreStack(n.tabStacks, NavHome, h), fragmentMap := c))
    ensures forall t, x | t in StoreStack(n.tabStacks, NavHome, h) && x in StoreStack(n.tabStacks, NavHome, h)[t] ::
      x in c || x == tag
  {
    var m := n.(tabStacks := StoreStack(n.tabStacks, NavHome, h), fragmentMap := c);
    assert NavHome in n.tabStacks ==> StackOf(m, NavHome) == h;
    assert NavHome !in n.tabStacks ==> StackOf(m, NavHome) == [];
  }

  /** The search screen may leave the cache while a second copy of its tag
      is still stacked; it is put back by the Show that ends the call. */
  lemma OpenSearchKeepsValid(n: NavState)
    requires Valid(n)
    ensures Valid(OpenSearchFragment(n))
  {
    var home := StackOf(n, NavHome);
    var wasStacked := "search" in home;
    var home1 := if wasStacked then RemoveFirst(home, "search") else home;
    var cache := if wasStacked && "search" in n.fragmentMap then n.fragmentMap - {"search"} else n.fragmentMap;
    var home2 := RemoveProfileTags(home1) + ["search"];
    forall x | x in home1 ensures x in home {
      if wasStacked {
        assert multiset(home1)[x] > 0;
      }
    }
    assert ProfileOnlyOnTop(home2);
    HomeRewriteKeepsValid(n, home2, cache, "search");
    var m := n.(homeInSearchMode := true,
                tabStacks := StoreStack(n.tabStacks, NavHome, home2),
                fragmentMap := cache,
                savedSearchFilter := "accounts",
                savedSearchQuery := "");
    ShowKeepsValid(m, "search");
    assert OpenSearchFragment(n) == Show(m, "search");
  }

  /** The `tabStacks[t] ?: mutableListOf()` quirk: a stack that exists takes
      the new list, a missing one stays missing and reads as empty, and no
      other tab is touched. */
  lemma StoreStackWriteBack(n: NavState, t: TabId, s: seq<Tag>)
    ensures var m := n.(tabStacks := StoreStack(n.tabStacks, t, s));
      && StackOf(m, t) == (if t in n.tabStacks then s else [])
      && (t in m.tabStacks <==> t in n.tabStacks)
      && forall u: TabId | u != t :: StackOf(m, u) == StackOf(n, u) && (u in m.tabStacks <==> u in n.tabStacks)
  {
  }

  /** So the home reselect on a home stack that was never created shows
      home but leaves the stack missing. */
  lemma {:induction false} HomeResetLostWithoutStack(n: NavState)
    requires n.currentTabId == NavHome && NavHome !in n.tabStacks
    ensures var r := HandleHomeButton(n);
      r.tabStacks == n.tabStacks && StackOf(r, NavHome) == [] && r.active == Some("home")
  {
    StoreStackWriteBack(n, NavHome, ["home"]);
  }

  lemma GoBackToHomeKeepsValid(n: NavState)
    requires Valid(n)
    ensures Valid(GoBackToHome(n))
  {
  }

  lemma OpenMenuKeepsValid(n: NavState)
    requires Valid(n)
    ensures Valid(OpenMenuFragment(n))
  {
  }

  lemma CloseMenuKeepsValid(n: NavState)
    requires Valid(n)
    ensures Valid(CloseMenuFragment(n))
  {
  }

  /** Every event keeps the invariant. */
  lemma StepPreservesValid(n: NavState, e: Event)
    requires Valid(n)
    ensures Valid(Step(n, e))
  {
    match e
    case InitStacks => InitializeTabStacksKeepsValid(n);
    case SelectTab(t) => SwitchToTabKeepsValid(n, t);
    case BackPressed =>
      BackKeepsValid(n);
      HomeButtonKeepsValid(HandleBackNavigation(n).0);
    case HomeSelected => HomeButtonKeepsValid(n);
    case ProfileSelected(menuAdded) => ProfileButtonKeepsValid(n, menuAdded);
    case OpenUserProfile(user, now) => NavigateKeepsValid(n, user, now);
    case OpenSearch => OpenSearchKeepsValid(n);
    case SearchBack =>
      GoBackToHomeKeepsValid(n);
      HomeButtonKeepsValid(GoBackToHome(n));
    case OpenMenu => OpenMenuKeepsValid(n);
    case MenuBack => CloseMenuKeepsValid(n);
    case SaveSearch(f, q) => ValidIgnoresModes(n, Step(n, e));
    case SignOut =>
    case Restore(f, q, hs, pm, t) => ValidIgnoresModes(n, Step(n, e));
  }

  /** Every state reachable from the initial one is valid. */
  lemma {:induction false} RunPreservesValid(n: NavState, events: seq<Event>)
    requires Valid(n)
    ensures Valid(Run(n, events))
    decreases |events|
  {
    if events != [] {
      StepPreservesValid(n, events[0]);
      RunPreservesValid(Step(n, events[0]), events[1..]);
    }
  }

  /** In a reachable state the home stack holds at most one user profile
      screen. */
  lemma AtMostOneProfileOnHome(n: NavState, events: seq<Event>)
    requires Valid(n)
    ensures var h := StackOf(Run(n, events), NavHome);
      forall i, j | 0 <= i < j < |h| && IsProfileTag(h[i]) :: !IsProfileTag(h[j])
  {
    RunPreservesValid(n, events);
  }

  /** openMenuFragment twice is openMenuFragment once. */
  lemma OpenMenuIdempotent(n: NavState)
    ensures OpenMenuFragment(OpenMenuFragment(n)) == OpenMenuFragment(n)
  {
    var m := OpenMenuFragment(n);
    assert NavProfile in m.tabStacks ==> "menu" in StackOf(m, NavProfile);
  }

  /** Backing out of a pushed user profile on the home tab returns to the
      home stack as it was, minus earlier profile screens. */
  lemma BackFromPushedProfile(n: NavState, user: User, now: Long)
    requires n.currentTabId == NavHome && NavHome in n.tabStacks
    requires RemoveProfileTags(StackOf(n, NavHome)) != []
    ensures var (r, exit) := HandleBackNavigation(NavigateToUserProfile(n, user, now));
      && !exit
      && StackOf(r, NavHome) == RemoveProfileTags(StackOf(n, NavHome))
      && r.active == Some(Last(RemoveProfileTags(StackOf(n, NavHome))))
  {
    var m := NavigateToUserProfile(n, user, now);
    var h := RemoveProfileTags(StackOf(n, NavHome));
    assert StackOf(m, NavHome) == h + [ProfileTag(user.userId, now)];
    assert (h + [ProfileTag(user.userId, now)])[..|h|] == h;
  }

  /** A search screen that is cached but no longer stacked (after its back
      button popped it) is shown again as it was when search reopens; its
      filter and query are not reset. */
  lemma ReopenedSearchReusesCachedScreen(n: NavState)
    requires NavHome in n.tabStacks && "search" !in StackOf(n, NavHome)
    requires "search" in n.fragmentMap
    ensures OpenSearchFragment(n).fragmentMap["search"] == n.fragmentMap["search"]
  {
  }

  /** Going back from a freshly opened search on a home stack that had only
      "home" shows home again and ends search mode. */
  lemma SearchThenBack(n: NavState)
    requires NavHome in n.tabStacks && StackOf(n, NavHome) == ["home"]
    ensures var r := GoBackToHome(OpenSearchFragment(n));
      StackOf(r, NavHome) == ["home"] && r.active == Some("home") && !r.homeInSearchMode
  {
    assert !IsProfileTag("home");
    var m := OpenSearchFragment(n);
    assert StackOf(m, NavHome) == ["home", "search"];
  }

  /** After sign-out the next tab selection starts that tab from its
      initial screen. */
  lemma SwitchAfterSignOut(n: NavState, t: TabId)
    ensures var r := SwitchToTab(SignOutUser(n), t);
      var tag := InitialFragmentTag(t, n.homeInSearchMode, n.profileInMenuMode);
      && StackOf(r, t) == [tag]
      && r.active == Some(tag)
      && r.fragmentMap == map[tag := CreateFragment(tag, n.savedSearchFilter, n.savedSearchQuery)]
  {
  }
}
