# BuzzCart core in Dafny

BuzzCart is an Android shopping and social app written in Kotlin over Firebase. This project models the parts of it that hold real logic, and proves properties of that model:

- **Tab-scoped navigation** (`MainActivity`). Each bottom tab has its own stack of screen tags. A cache maps each tag to the kind of screen created for it. The activity also tracks:
  - the active screen and the current tab;
  - two overlay modes: search over home, and the menu over profile;
  - the saved search filter and query;
  - the user-session fields and the saved-instance-state record.
- **Account search** (`SearchFragment`). It filters the `users/` children on their lower-cased name, sorts the matches by relevance and builds the result texts.
- **Follow and unfollow** (`OtherUserProfileFragment`):
  - the counter transactions;
  - the barrier that waits for the four remote operations;
  - the follow-state scan;
  - removal of the first matching list entry;
  - the guarded follow button.
- **Small pure pieces**:
  - signup validation and the records it writes (`SignupActivity`);
  - the `User` record and its follower/following helpers (`models/user.kt`);
  - the home screen's welcome line (`HomeFragment`);
  - the count labels of a search result row (`SearchAdapter`).

## Files

| File | Module | Contents |
|---|---|---|
| `common.dfy` | `Common` | Shared vocabulary (see below). |
| `users.dfy` | `Users` | The `User` value, value counting on maps, and the mutable `UserObject`. |
| `navigation.dfy` | `Navigation` | `NavState`, one transition function per activity operation, the invariant `Valid`, and `Step`/`Run` over events. |
| `navigation_properties.dfy` | `NavigationProperties` | Every transition keeps `Valid`; properties that relate several transitions. |
| `main_activity.dfy` | `Activity` | The session and bundle functions, and the `MainActivity` class. |
| `search.dfy` | `Search` | Filtering, the relevance comparator and sort, the result texts, and the `SearchFragment` class. |
| `follow.dfy` | `Follow` | Counter transactions, the completion barrier, the scans, and the `FollowController` class. |
| `signup.dfy` | `Signup` | `registerUser`'s checks, the new user record and the interactions node. |
| `home.dfy` | `Home` | The display-name fallback chain and the welcome text. |
| `adapter.dfy` | `Adapter` | `formatCount` and the statistics line. |

`Common` holds:
- `Option`;
- Kotlin's 64-bit `Long`, with the wrap-around of `+ 1`;
- ASCII lowercasing;
- `contains` and `startsWith`;
- decimal rendering and parsing;
- `trim`;
- `substringBefore`;
- `String.compareTo`;
- `MutableList.remove`.

The imperative parts of the source are modelled as classes. A class method changes its fields in place, and its contract states the new state. For `MainActivity`, each method is proved to perform the matching `Navigation` transition, so `Valid` is a class invariant of the object. The events that callbacks deliver arrive as method calls in any order:
- database snapshots;
- the four completions of a follow or unfollow;
- lifecycle calls.

Three further modelling choices:
- A screen is represented by its tag. `View` records which kind of screen a cache entry holds.
- The `R.id` tab constants are distinct integers.
- `System.currentTimeMillis()` is a `now` parameter, and the server's timestamp is a `serverTime` parameter.

## Model

| member | source | states |
|---|---|---|
| Navigation.Initial | app/src/main/java/com/example/buzzcart/MainActivity.kt:41-52 | The field initialisers: empty cache, no active screen, home tab, no modes, "accounts"/"" saved search; this state is valid. |
| Navigation.StackOf | app/src/main/java/com/example/buzzcart/MainActivity.kt:211 | `tabStacks[t] ?: mutableListOf()`: a missing stack reads as empty (its contract is NavigationProperties.StoreStackWriteBack). |
| Navigation.StoreStack | app/src/main/java/com/example/buzzcart/MainActivity.kt:239 | Writing to the list read by StackOf reaches the map only when the stack exists (its contract is NavigationProperties.StoreStackWriteBack). |
| Navigation.InitialFragmentTag | app/src/main/java/com/example/buzzcart/MainActivity.kt:284-293 | Home gives "search" iff search mode, else "home"; profile gives "menu" iff menu mode, else "profile"; reels/products/cart their own tag; unknown ids give "home"; never a profile tag. |
| Navigation.CreateFragment | app/src/main/java/com/example/buzzcart/MainActivity.kt:319-342 | "search" builds a search screen with the saved filter and query; "home", every unknown tag and every `user_profile_` tag build the home screen; never a user-profile screen. |
| Navigation.Show | app/src/main/java/com/example/buzzcart/MainActivity.kt:295-317 | Afterwards the tag is cached and active; an existing entry is reused; a missing one is created; no other cache entry changes; stacks, tab and modes unchanged. |
| Navigation.RemoveProfileTags | app/src/main/java/com/example/buzzcart/MainActivity.kt:348 | Keeps exactly the tags that are not `user_profile_` tags. |
| Navigation.EvictHomeTransients | app/src/main/java/com/example/buzzcart/MainActivity.kt:248-259 | Keeps exactly the cache keys that are neither "search" nor a `user_profile_` tag, with their screens. |
| Navigation.PopOrReset | app/src/main/java/com/example/buzzcart/MainActivity.kt:384-405 | A stack deeper than one loses exactly its top and the new top is shown; otherwise it becomes [anchor]. |
| Navigation.InitializeTabStacks | app/src/main/java/com/example/buzzcart/MainActivity.kt:93-99 | All five tab stacks become empty; other entries and all other fields are unchanged. |
| Navigation.SwitchToTab | app/src/main/java/com/example/buzzcart/MainActivity.kt:269-282 | The current tab is t; t's stack is non-empty and its top is active; an empty stack receives exactly the initial tag; other stacks, modes and existing cache entries are unchanged. |
| Navigation.HandleBackNavigation | app/src/main/java/com/example/buzzcart/MainActivity.kt:110-134 | Depth > 1: exactly the top is popped and the new top shown, other stacks untouched. Depth ≤ 1 on home: state unchanged, exit requested. Depth ≤ 1 elsewhere: switch to home. |
| Navigation.HandleHomeButton | app/src/main/java/com/example/buzzcart/MainActivity.kt:238-267 | Reselect: the home stack becomes ["home"] (stored only if the key exists); "search" and `user_profile_` keys are evicted and the rest kept; search mode is cleared; home is shown. From another tab: the home top (or "home") is shown. |
| Navigation.HandleProfileButton | app/src/main/java/com/example/buzzcart/MainActivity.kt:210-236 | Reselect: the profile stack becomes ["profile"]; "menu" is evicted iff `isAdded`; menu mode is cleared; profile is shown. From another tab: the profile top (or "profile") is shown. |
| Navigation.ProfileTag | app/src/main/java/com/example/buzzcart/MainActivity.kt:350 | The tag built from the user id and time is a `user_profile_` tag. |
| Navigation.NavigateToUserProfile | app/src/main/java/com/example/buzzcart/MainActivity.kt:345-360 | The home stack loses earlier profile tags and gets the new one on top; the cache keeps the old entries; the tab is not changed. |
| Navigation.OpenSearchFragment | app/src/main/java/com/example/buzzcart/MainActivity.kt:363-381 | "search" ends on top of the home stack with no profile tags; search mode is on; the saved filter/query become "accounts"/""; the tab is not changed; a stacked search screen is rebuilt fresh. |
| Navigation.EnterSearch | app/src/main/java/com/example/buzzcart/MainActivity.kt:364-378 | The state change of openSearchFragment before showSearch: search mode, the stale search screen dropped, profile tags removed, "search" pushed, saved state reset (stated through Navigation.OpenSearchFragment). |
| Navigation.GoBackToHome | app/src/main/java/com/example/buzzcart/MainActivity.kt:383-407 | Depth > 1 pops one tag, and search mode is cleared iff the new top is "home"; otherwise the stack resets to ["home"] and the mode is cleared. |
| Navigation.OpenMenuFragment | app/src/main/java/com/example/buzzcart/MainActivity.kt:409-417 | "menu" is pushed only if absent, menu mode is set and the menu shown. |
| Navigation.CloseMenuFragment | app/src/main/java/com/example/buzzcart/MainActivity.kt:419-442 | Depth > 1 pops one tag, and menu mode is cleared iff the new top is "profile"; otherwise the stack resets to ["profile"] and the mode is cleared. |
| Navigation.SaveSearchState | app/src/main/java/com/example/buzzcart/MainActivity.kt:467-471 | Only the saved filter and query change. |
| Navigation.SignOutUser | app/src/main/java/com/example/buzzcart/MainActivity.kt:498-507 | The cache and every tab stack are empty. |
| Navigation.RestoreModes | app/src/main/java/com/example/buzzcart/MainActivity.kt:520-529 | Filter, query, both modes and tab are taken from the record; stacks, cache and active screen are untouched. |
| Navigation.PressBack | app/src/main/java/com/example/buzzcart/MainActivity.kt:110-134 | A whole back press, including the home item's listener call that `selectedItemId = R.id.nav_home` (line 131) runs: depth > 1 pops as HandleBackNavigation; depth ≤ 1 on home asks to exit and changes nothing; elsewhere home is shown with its stack reset to ["home"], no search or user-profile screen cached and search mode off, other stacks untouched. |
| Navigation.LeaveSearch | app/src/main/java/com/example/buzzcart/MainActivity.kt:383-407 | goBackToHome with the listener call its last line (406) runs: on the home tab the home stack always ends as ["home"] (where it exists), the search and user-profile screens are evicted and search mode is off; from another tab the popped home stack's top is shown. |
| Navigation.ShowFirstScreen | app/src/main/java/com/example/buzzcart/MainActivity.kt:168-171 | switchToTab(home) with the listener call at line 170 (and 186): home is shown with its stack ["home"], nothing transient cached and search mode off, even when a restored search mode made the switch show search first. |
| Navigation.Valid | app/src/main/java/com/example/buzzcart/MainActivity.kt:41-46 | The invariant kept by every transition: every stacked tag is cached; search and user-profile tags are stacked only on home, "menu" only on profile; on home a user-profile tag can only be the top. Defined here; proved by the *KeepsValid lemmas. |
| Navigation.Step | app/src/main/java/com/example/buzzcart/MainActivity.kt:110-529 | One user action or callback applied to the state: a tab selection, the back button, the home/profile items, opening a profile, search or the menu, their back buttons, saving the search, sign-out, restore. Defined here; StepPreservesValid is its contract. |
| Navigation.Run | app/src/main/java/com/example/buzzcart/MainActivity.kt:110-529 | A sequence of events applied in order. Defined here; RunPreservesValid and AtMostOneProfileOnHome are its contracts. |
| NavigationProperties.ShowKeepsValid | app/src/main/java/com/example/buzzcart/MainActivity.kt:295-317 | Showing a tag restores "every stacked tag is cached" when only that tag was missing. |
| NavigationProperties.ValidIgnoresModes | app/src/main/java/com/example/buzzcart/MainActivity.kt:520-529 | The invariant depends only on the stacks and the cache. |
| NavigationProperties.InitializeTabStacksKeepsValid | app/src/main/java/com/example/buzzcart/MainActivity.kt:93-99 | initializeTabStacks keeps the invariant. |
| NavigationProperties.SwitchToTabKeepsValid | app/src/main/java/com/example/buzzcart/MainActivity.kt:269-282 | switchToTab keeps the invariant. |
| NavigationProperties.BackKeepsValid | app/src/main/java/com/example/buzzcart/MainActivity.kt:110-134 | handleBackNavigation keeps the invariant. |
| NavigationProperties.HomeButtonKeepsValid | app/src/main/java/com/example/buzzcart/MainActivity.kt:238-267 | handleHomeButtonNavigation keeps the invariant. |
| NavigationProperties.ProfileButtonKeepsValid | app/src/main/java/com/example/buzzcart/MainActivity.kt:210-236 | handleProfileButtonNavigation keeps the invariant. |
| NavigationProperties.NavigateKeepsValid | app/src/main/java/com/example/buzzcart/MainActivity.kt:345-360 | navigateToUserProfile keeps the invariant. |
| NavigationProperties.OpenSearchKeepsValid | app/src/main/java/com/example/buzzcart/MainActivity.kt:363-381 | openSearchFragment keeps the invariant, although the search screen briefly leaves the cache. |
| NavigationProperties.GoBackToHomeKeepsValid | app/src/main/java/com/example/buzzcart/MainActivity.kt:383-407 | goBackToHome keeps the invariant. |
| NavigationProperties.OpenMenuKeepsValid | app/src/main/java/com/example/buzzcart/MainActivity.kt:409-417 | openMenuFragment keeps the invariant. |
| NavigationProperties.CloseMenuKeepsValid | app/src/main/java/com/example/buzzcart/MainActivity.kt:419-442 | closeMenuFragment keeps the invariant. |
| NavigationProperties.StepPreservesValid | app/src/main/java/com/example/buzzcart/MainActivity.kt:93-529 | Every navigation event keeps the invariant. |
| NavigationProperties.RunPreservesValid | app/src/main/java/com/example/buzzcart/MainActivity.kt:93-529 | Every state reachable by any sequence of events is valid. |
| NavigationProperties.AtMostOneProfileOnHome | app/src/main/java/com/example/buzzcart/MainActivity.kt:345-360 | In every reachable state, the home stack holds at most one user profile tag, and only on top. |
| NavigationProperties.OpenMenuIdempotent | app/src/main/java/com/example/buzzcart/MainActivity.kt:409-417 | openMenuFragment twice equals once. |
| NavigationProperties.BackFromPushedProfile | app/src/main/java/com/example/buzzcart/MainActivity.kt:345-360 | Back after opening a profile on home returns to the previous home stack without profile tags and does not ask to exit. |
| NavigationProperties.ReopenedSearchReusesCachedScreen | app/src/main/java/com/example/buzzcart/MainActivity.kt:363-381 | A cached but unstacked search screen is shown again as it was; its filter and query are not reset. |
| NavigationProperties.SearchThenBack | app/src/main/java/com/example/buzzcart/MainActivity.kt:383-407 | Opening search over ["home"] then going back shows home with search mode off. |
| NavigationProperties.SwitchAfterSignOut | app/src/main/java/com/example/buzzcart/MainActivity.kt:498-507 | After sign-out, selecting a tab makes its stack exactly its initial tag, shows that tag, and leaves the cache holding only that tag with a freshly created screen. |
| NavigationProperties.StoreStackWriteBack | app/src/main/java/com/example/buzzcart/MainActivity.kt:211 | An existing stack takes the new list (also at line 239); a missing one stays missing and reads as empty; every other tab keeps its stack. |
| NavigationProperties.HomeResetLostWithoutStack | app/src/main/java/com/example/buzzcart/MainActivity.kt:239-247 | On the home tab with no home stack, the home reselect shows home but leaves the stack missing. |
| Activity.InitialSession | app/src/main/java/com/example/buzzcart/MainActivity.kt:33-38 | Name "User", not loaded, counts 0, no pending callback. |
| Activity.WhenUserDataReady | app/src/main/java/com/example/buzzcart/MainActivity.kt:458-464 | Loaded: the callback runs at once. Otherwise it becomes the pending one, replacing any earlier one. |
| Activity.FetchedName | app/src/main/java/com/example/buzzcart/MainActivity.kt:155-157 | The stored full name if present, else the e-mail part before '@' (a prefix without '@'). |
| Activity.UserDataArrived | app/src/main/java/com/example/buzzcart/MainActivity.kt:151-189 | Name and counts are cached (absent counts as 0), data marked loaded, and the pending callback runs once and stays registered. |
| Activity.OnlyLastPendingCallbackRuns | app/src/main/java/com/example/buzzcart/MainActivity.kt:458-464 | Of two callbacks registered before the data, only the second runs. |
| Activity.LateCallbackRunsOnce | app/src/main/java/com/example/buzzcart/MainActivity.kt:458-464 | A callback registered after the data runs exactly once. |
| Activity.SaveInto | app/src/main/java/com/example/buzzcart/MainActivity.kt:509-518 | The seven keys are added and every other bundle entry is kept. |
| Activity.RestoreFrom | app/src/main/java/com/example/buzzcart/MainActivity.kt:520-529 | A bundle without the keys restores the defaults. |
| Activity.SaveRestoreRoundTrip | app/src/main/java/com/example/buzzcart/MainActivity.kt:509-529 | Restoring what was saved gives back filter, query, both modes, tab and both counts. |
| Activity.EvictHomeTransients | app/src/main/java/com/example/buzzcart/MainActivity.kt:248-259 | The eviction loop removes exactly the "search" and `user_profile_` keys. |
| Activity.MainActivity.constructor | app/src/main/java/com/example/buzzcart/MainActivity.kt:33-52 | The object starts in the initial navigation state and session. |
| Activity.MainActivity.InitializeTabStacks | app/src/main/java/com/example/buzzcart/MainActivity.kt:93-99 | Performs Navigation.InitializeTabStacks in place; the session is untouched. |
| Activity.MainActivity.ShowFragment | app/src/main/java/com/example/buzzcart/MainActivity.kt:295-317 | Performs Navigation.Show in place. |
| Activity.MainActivity.SwitchToTab | app/src/main/java/com/example/buzzcart/MainActivity.kt:269-282 | Performs Navigation.SwitchToTab in place. |
| Activity.MainActivity.HandleBackNavigation | app/src/main/java/com/example/buzzcart/MainActivity.kt:110-134 | Performs Navigation.PressBack in place, the switch to home followed by the home item's listener call, and returns its exit request. |
| Activity.MainActivity.HandleHomeButtonNavigation | app/src/main/java/com/example/buzzcart/MainActivity.kt:238-267 | Performs Navigation.HandleHomeButton in place. |
| Activity.MainActivity.ResetHomeTab | app/src/main/java/com/example/buzzcart/MainActivity.kt:242-261 | The reselect branch, with the eviction loop. |
| Activity.MainActivity.HandleProfileButtonNavigation | app/src/main/java/com/example/buzzcart/MainActivity.kt:210-236 | Performs Navigation.HandleProfileButton in place. |
| Activity.MainActivity.ResetProfileTab | app/src/main/java/com/example/buzzcart/MainActivity.kt:214-230 | The reselect branch. |
| Activity.MainActivity.NavigateToUserProfile | app/src/main/java/com/example/buzzcart/MainActivity.kt:345-360 | Performs Navigation.NavigateToUserProfile in place. |
| Activity.MainActivity.OpenSearchFragment | app/src/main/java/com/example/buzzcart/MainActivity.kt:363-381 | Performs Navigation.OpenSearchFragment in place. |
| Activity.MainActivity.EnterSearch | app/src/main/java/com/example/buzzcart/MainActivity.kt:364-378 | The stack and cache edits that precede showing search. |
| Activity.MainActivity.GoBackToHome | app/src/main/java/com/example/buzzcart/MainActivity.kt:383-407 | Performs Navigation.LeaveSearch in place: PopHomeStack, then the home item's listener call. |
| Activity.MainActivity.PopHomeStack | app/src/main/java/com/example/buzzcart/MainActivity.kt:384-405 | Performs Navigation.GoBackToHome, the body before the selectedItemId line, in place. |
| Activity.MainActivity.OpenMenuFragment | app/src/main/java/com/example/buzzcart/MainActivity.kt:409-417 | Performs Navigation.OpenMenuFragment in place. |
| Activity.MainActivity.CloseMenuFragment | app/src/main/java/com/example/buzzcart/MainActivity.kt:419-442 | Performs Navigation.CloseMenuFragment in place. |
| Activity.MainActivity.SaveSearchState | app/src/main/java/com/example/buzzcart/MainActivity.kt:467-471 | Performs Navigation.SaveSearchState in place. |
| Activity.MainActivity.SignOutUser | app/src/main/java/com/example/buzzcart/MainActivity.kt:498-507 | Performs Navigation.SignOutUser in place. |
| Activity.MainActivity.UpdateCachedCounts | app/src/main/java/com/example/buzzcart/MainActivity.kt:453-456 | Only the two cached counts change. |
| Activity.MainActivity.OnUserDataReady | app/src/main/java/com/example/buzzcart/MainActivity.kt:458-464 | Performs WhenUserDataReady on the session; navigation untouched. |
| Activity.MainActivity.InvokePendingCallback | app/src/main/java/com/example/buzzcart/MainActivity.kt:174 | Runs the pending callback, if any. |
| Activity.MainActivity.OnUserDataChange | app/src/main/java/com/example/buzzcart/MainActivity.kt:151-175 | The session becomes UserDataArrived; an empty cache first gives Navigation.ShowFirstScreen; otherwise navigation is unchanged. |
| Activity.MainActivity.OnUserDataCancelled | app/src/main/java/com/example/buzzcart/MainActivity.kt:177-189 | The same with no name and zero counts. |
| Activity.MainActivity.ShowFirstScreenIfEmpty | app/src/main/java/com/example/buzzcart/MainActivity.kt:168-171 | An empty cache gives Navigation.ShowFirstScreen (switch, then the listener call); otherwise nothing changes. |
| Activity.MainActivity.OnSaveInstanceState | app/src/main/java/com/example/buzzcart/MainActivity.kt:509-518 | Returns SaveInto of the current fields; nothing changes. |
| Activity.MainActivity.OnRestoreInstanceState | app/src/main/java/com/example/buzzcart/MainActivity.kt:520-529 | Copies RestoreFrom into the modes, tab, saved search and counts. |
| Activity.MainActivity.RestoreModes | app/src/main/java/com/example/buzzcart/MainActivity.kt:522-526 | Sets the five navigation fields and keeps the invariant. |
| Users.KeysWithValue | app/src/main/java/com/example/buzzcart/models/user.kt:44-46 | Exactly the keys holding the value. |
| Users.ValueCountZeroIff | app/src/main/java/com/example/buzzcart/models/user.kt:31-33 | A value is counted zero times iff it is not among the map's values. |
| Users.ValueCountRemoveKey | app/src/main/java/com/example/buzzcart/models/user.kt:44-46 | Removing one key lowers only its own value's count, by one. |
| Users.WithoutValue | app/src/main/java/com/example/buzzcart/models/user.kt:44-46 | `removeAll { value == v }` keeps exactly the entries with other values, unchanged. |
| Users.WithoutValueCounts | app/src/main/java/com/example/buzzcart/models/user.kt:44-46 | After removal v has count 0, and every other value keeps its count. |
| Users.ValuesList | app/src/main/java/com/example/buzzcart/models/user.kt:31-33 | The list has one element per entry, and each value appears as often as it occurs in the map. |
| Users.DistinctTimestampKeys | app/src/main/java/com/example/buzzcart/models/user.kt:40 | Different times give different keys, so only adds in the same millisecond collide. |
| Users.UserObject.constructor | app/src/main/java/com/example/buzzcart/models/user.kt:10-28 | Empty strings, zero counters and empty maps. |
| Users.UserObject.GetFollowersList | app/src/main/java/com/example/buzzcart/models/user.kt:31-33 | As ValuesList, on followers. |
| Users.UserObject.GetFollowingList | app/src/main/java/com/example/buzzcart/models/user.kt:35-37 | As ValuesList, on following. |
| Users.UserObject.AddFollower | app/src/main/java/com/example/buzzcart/models/user.kt:39-42 | followers[key of now] becomes the id; every other key and every other field are unchanged. |
| Users.UserObject.RemoveFollower | app/src/main/java/com/example/buzzcart/models/user.kt:44-46 | followers becomes WithoutValue(id); nothing else changes. |
| Users.UserObject.AddFollowing | app/src/main/java/com/example/buzzcart/models/user.kt:48-51 | The same law, on following. |
| Users.UserObject.RemoveFollowing | app/src/main/java/com/example/buzzcart/models/user.kt:53-55 | The same law, on following. |
| Users.RemovedValueNotListed | app/src/main/java/com/example/buzzcart/models/user.kt:31-46 | After removeFollower(id), the list never contains id, and lists every other value as often as before. |
| Search.Matches | app/src/main/java/com/example/buzzcart/fragments/SearchFragment.kt:228-248 | The results are exactly the users of children that have fullName and email, decode, and whose non-empty lower-cased name contains the query. |
| Search.IsMatch | app/src/main/java/com/example/buzzcart/fragments/SearchFragment.kt:235-236 | The filter condition: the lower-cased name is not empty and contains the lower-cased query (stated through Search.Matches). |
| Search.CollectMatches | app/src/main/java/com/example/buzzcart/fragments/SearchFragment.kt:225-248 | The loop computes Matches. |
| Search.Rank | app/src/main/java/com/example/buzzcart/fragments/SearchFragment.kt:256-257 | 0 exactly for names starting with the query. |
| Search.CompareByRelevance | app/src/main/java/com/example/buzzcart/fragments/SearchFragment.kt:251-260 | The sortWith comparator: names starting with the query first, then compareTo on the lower-cased names. Its contract is stated by CompareByRelevanceIsRankThenName, Antisymmetric and Transitive. |
| Search.CompareByRelevanceIsRankThenName | app/src/main/java/com/example/buzzcart/fragments/SearchFragment.kt:251-260 | The comparator is ≤ 0 iff a ranks before b, or they rank equal and a's name is lexicographically ≤ b's. |
| Search.CompareByRelevanceAntisymmetric | app/src/main/java/com/example/buzzcart/fragments/SearchFragment.kt:251-260 | compare(a, b) = −compare(b, a). |
| Search.CompareByRelevanceTransitive | app/src/main/java/com/example/buzzcart/fragments/SearchFragment.kt:251-260 | The "≤ 0" relation is transitive, so the comparator is a total preorder. |
| Search.InsertByRelevance | app/src/main/java/com/example/buzzcart/fragments/SearchFragment.kt:251-260 | Insertion adds exactly one element. |
| Search.InsertKeepsSorted | app/src/main/java/com/example/buzzcart/fragments/SearchFragment.kt:251-260 | Insertion keeps a list sorted under the comparator. |
| Search.SortByRelevance | app/src/main/java/com/example/buzzcart/fragments/SearchFragment.kt:251-264 | The output is a permutation of the input, sorted under the comparator. |
| Search.PrefixMatchesFirst | app/src/main/java/com/example/buzzcart/fragments/SearchFragment.kt:251-260 | Every name starting with the query precedes every name that does not. |
| Search.ClassesInLexicographicOrder | app/src/main/java/com/example/buzzcart/fragments/SearchFragment.kt:251-260 | Within each class the names are in non-decreasing lexicographic order. |
| Search.SearchResultsAreMatches | app/src/main/java/com/example/buzzcart/fragments/SearchFragment.kt:251-264 | Sorting neither adds nor drops a user. |
| Search.PluralizeResultsInjective | app/src/main/java/com/example/buzzcart/fragments/SearchFragment.kt:394-396 | "1 result" for one, "n results" otherwise; different counts give different labels. |
| Search.PluralizeResults | app/src/main/java/com/example/buzzcart/fragments/SearchFragment.kt:394-396 | "1 result" for one, "n results" otherwise; stated by PluralizeResultsInjective. |
| Search.AccountContent | app/src/main/java/com/example/buzzcart/fragments/SearchFragment.kt:301-307 | Priority: error, then empty query, then a one-character query, then zero results, then "Found …". |
| Search.FoundShownIff | app/src/main/java/com/example/buzzcart/fragments/SearchFragment.kt:301-307 | Without an error, "Found …" appears iff the query has ≥ 2 characters and the count is non-zero. |
| Search.AccountUi | app/src/main/java/com/example/buzzcart/fragments/SearchFragment.kt:291-319 | Title "Accounts - " + label; the list is visible iff the count > 0. |
| Search.PlaceholderUi | app/src/main/java/com/example/buzzcart/fragments/SearchFragment.kt:321-391 | Sellers, reels and products: the list is always hidden, and the title is the category and its count label. |
| Search.PlaceholderReportsNothing | app/src/main/java/com/example/buzzcart/fragments/SearchFragment.kt:321-391 | The placeholder searches report "0 results", hide the list and never say "Found". |
| Search.ResultsShownIffSomethingMatched | app/src/main/java/com/example/buzzcart/fragments/SearchFragment.kt:263-268 | After results arrive, the list and the "Found" text appear iff something matched. |
| Search.SearchFragment.constructor | app/src/main/java/com/example/buzzcart/fragments/SearchFragment.kt:23-44 | Active, filter "accounts", query "", no results and no listener. |
| Search.SearchFragment.SetSearchState | app/src/main/java/com/example/buzzcart/fragments/SearchFragment.kt:412-415 | Sets filter and query, and nothing else. |
| Search.SearchFragment.OnPause | app/src/main/java/com/example/buzzcart/fragments/SearchFragment.kt:445-449 | Marks the fragment inactive. |
| Search.SearchFragment.OnResume | app/src/main/java/com/example/buzzcart/fragments/SearchFragment.kt:439-443 | Marks it active; a destroyed view stays destroyed. |
| Search.SearchFragment.OnDestroyView | app/src/main/java/com/example/buzzcart/fragments/SearchFragment.kt:451-462 | Inactive, no view, and no listener attached. |
| Search.SearchFragment.UpdateUIForAccountSearch | app/src/main/java/com/example/buzzcart/fragments/SearchFragment.kt:291-319 | Shows AccountUi only while active. |
| Search.SearchFragment.UpdateUIForPlaceholder | app/src/main/java/com/example/buzzcart/fragments/SearchFragment.kt:326-391 | Shows PlaceholderUi only while active. |
| Search.SearchFragment.PerformAccountSearch | app/src/main/java/com/example/buzzcart/fragments/SearchFragment.kt:202-288 | The old listener is detached. A query under 2 characters clears the results and attaches nothing. A longer one attaches a listener for it. |
| Search.SearchFragment.PerformSearch | app/src/main/java/com/example/buzzcart/fragments/SearchFragment.kt:188-200 | Inactive, or an unknown filter: nothing changes. For "accounts" it has the outcome of performAccountSearch: a query under two characters empties the results, detaches the listener and shows the account message for 0 results; a longer one records and attaches a listener for the query and keeps the results and texts. The placeholder filters show their category for 0 results and keep the results and listeners. |
| Search.SearchFragment.OnAccountData | app/src/main/java/com/example/buzzcart/fragments/SearchFragment.kt:219-276 | While active, the results become the sorted matches and the texts report their number; otherwise nothing changes. |
| Search.SearchFragment.OnAccountSearchCancelled | app/src/main/java/com/example/buzzcart/fragments/SearchFragment.kt:278-283 | Shows "Search failed: " + message with 0 results; the results are kept. |
| Follow.IncrementCount | app/src/main/java/com/example/buzzcart/fragments/OtherUserProfileFragment.kt:235-236 | Absent counts as 0; v ↦ v + 1, wrapping to the minimum at the top of the Long range. |
| Follow.DecrementCount | app/src/main/java/com/example/buzzcart/fragments/OtherUserProfileFragment.kt:378-379 | The result is ≥ 0: v − 1 when v > 0, else 0. |
| Follow.UnfollowUndoesFollow | app/src/main/java/com/example/buzzcart/fragments/OtherUserProfileFragment.kt:256-257 | Decrement after increment restores a non-negative count; increment after decrement restores a positive one. |
| Follow.DecrementTimesFloor | app/src/main/java/com/example/buzzcart/fragments/OtherUserProfileFragment.kt:404-405 | n unfollows leave max(v − n, 0). |
| Follow.ReportToasts | app/src/main/java/com/example/buzzcart/fragments/OtherUserProfileFragment.kt:421 | A callback shows the "Failed to update follower count" toast exactly when it is the unfollow's failed follower-counter transaction, and no other toast. |
| Follow.Start | app/src/main/java/com/example/buzzcart/fragments/OtherUserProfileFragment.kt:183-191 | The barrier that followUser and unfollowUser (also 279-287) set up: nothing completed, no error, processing (its meaning is stated by Follow.BarrierAfter). |
| Follow.Complete | app/src/main/java/com/example/buzzcart/fragments/OtherUserProfileFragment.kt:192-201 | checkCompletion after one callback: one more counted, a failure remembered, the button released by the fourth, toasts only appended, "Some operations failed" exactly when the fourth closes a barrier with a failure. |
| Follow.BarrierAfter | app/src/main/java/com/example/buzzcart/fragments/OtherUserProfileFragment.kt:189-202 | After k ≤ 4 callbacks, k are counted and the error flag is "some failed". The button stays locked iff k < 4. "Some operations failed" is shown iff k = 4 and something failed. Each failed unfollow follower-counter adds its own toast. |
| Follow.ArrivalOrderIrrelevant | app/src/main/java/com/example/buzzcart/fragments/OtherUserProfileFragment.kt:289-304 | Any order of the same four callbacks ends in the same state. |
| Follow.SameFailures | app/src/main/java/com/example/buzzcart/fragments/OtherUserProfileFragment.kt:289-304 | Whether something failed depends only on the multiset of callbacks. |
| Follow.ScanForValue | app/src/main/java/com/example/buzzcart/fragments/OtherUserProfileFragment.kt:136-145 | Found iff some child equals the target; the index is that of the first such child. |
| Follow.AfterRemoval | app/src/main/java/com/example/buzzcart/fragments/OtherUserProfileFragment.kt:310-337 | Only the first matching child is removed, and only on success; a cancelled read leaves nothing read. |
| Follow.RemovalPath | app/src/main/java/com/example/buzzcart/fragments/OtherUserProfileFragment.kt:310-337 | The read callback reports success iff the read delivered children and the id was absent or its removal succeeded; the list left is AfterRemoval. |
| Follow.FollowController.constructor | app/src/main/java/com/example/buzzcart/fragments/OtherUserProfileFragment.kt:24-35 | Not following, not processing, the button visible, no listener. |
| Follow.FollowController.OnDestroyView | app/src/main/java/com/example/buzzcart/fragments/OtherUserProfileFragment.kt:519-540 | Both listeners are removed and the binding is dropped; operations in flight are not cancelled. |
| Follow.FollowController.CheckFollowState | app/src/main/java/com/example/buzzcart/fragments/OtherUserProfileFragment.kt:119-155 | A missing id does nothing; on one's own profile the button is hidden and no listener attached; otherwise the listener is attached. |
| Follow.FollowController.UpdateFollowButton | app/src/main/java/com/example/buzzcart/fragments/OtherUserProfileFragment.kt:157-165 | "Unfollow" iff following, else "Follow". |
| Follow.FollowController.OnFollowState | app/src/main/java/com/example/buzzcart/fragments/OtherUserProfileFragment.kt:134-148 | Following iff some following-list child is the target id. |
| Follow.FollowController.Click | app/src/main/java/com/example/buzzcart/fragments/OtherUserProfileFragment.kt:167-177 | Ignored while processing; otherwise it starts an unfollow iff following, else a follow, with the button locked. |
| Follow.FollowController.OnReport | app/src/main/java/com/example/buzzcart/fragments/OtherUserProfileFragment.kt:192-201 | One callback followed by checkCompletion, as Complete. If the fourth arrives after the view is gone, `binding.followButton` throws: the app crashes after the counter and the processing flag are updated and before the closing toast. |
| Follow.FollowController.OnUnfollowListRead | app/src/main/java/com/example/buzzcart/fragments/OtherUserProfileFragment.kt:310-371 | Each path reports exactly once: removed (ok), removal failed (error), not found (ok), read cancelled (error). Only the first match is removed. The report completes the barrier as OnReport does, crashing on a closing report without a view. |
| Signup.RegisterUser | app/src/main/java/com/example/buzzcart/SignupActivity.kt:47-81 | A blank trimmed field gives "Please fill all fields" first, then mismatch, then length < 6; the account is created iff all pass (length 6 passes), from the trimmed values. |
| Signup.BlankFieldRejected | app/src/main/java/com/example/buzzcart/SignupActivity.kt:48-57 | Any of the four fields holding only whitespace gives "Please fill all fields". |
| Signup.PaddedPasswordAccepted | app/src/main/java/com/example/buzzcart/SignupActivity.kt:50-67 | A password of at least six characters that neither starts nor ends with whitespace is accepted as typed, whatever whitespace pads either copy. |
| Signup.NewUserRecord | app/src/main/java/com/example/buzzcart/SignupActivity.kt:88-100 | Exactly the ten keys; fullNameLower is the lowercased name; the counters are 0; the score is 0.0; lastActive is the server timestamp. |
| Signup.ReadUser | app/src/main/java/com/example/buzzcart/models/user.kt:10-24 | How a stored record reads back as a User: known keys copied, missing keys at the no-argument defaults. Stated by NewUserReadsBack. |
| Signup.NewUserReadsBack | app/src/main/java/com/example/buzzcart/SignupActivity.kt:88-100 | The record reads back as a User with the name, its lowercase, zero counters and the server time. |
| Signup.NewUserIsSearchable | app/src/main/java/com/example/buzzcart/SignupActivity.kt:90 | A new user matches every query contained in their lowercased name. |
| Signup.InteractionsNode | app/src/main/java/com/example/buzzcart/SignupActivity.kt:122-127 | Exactly four keys, each an empty map. |
| Home.FallbackName | app/src/main/java/com/example/buzzcart/fragments/HomeFragment.kt:102-111 | displayName, else the e-mail before '@', else "User". |
| Home.DisplayName | app/src/main/java/com/example/buzzcart/fragments/HomeFragment.kt:65-69 | The record's fullName whenever a record was read (even ""); otherwise the fallback. |
| Home.WelcomeText | app/src/main/java/com/example/buzzcart/fragments/HomeFragment.kt:72 | "Welcome, " + name + "!"; stated by WelcomeTextNamesTheUser and WelcomeTextInjective. |
| Home.Welcome | app/src/main/java/com/example/buzzcart/fragments/HomeFragment.kt:51-98 | No view: nothing is written. No user: "Welcome, Guest!". Otherwise "Welcome, " + name + "!". |
| Home.WelcomeTextNamesTheUser | app/src/main/java/com/example/buzzcart/fragments/HomeFragment.kt:72 | The name sits exactly between the prefix and the "!". |
| Home.WelcomeTextInjective | app/src/main/java/com/example/buzzcart/fragments/HomeFragment.kt:72 | Different names give different lines. |
| Home.FailedReadSkipsFullName | app/src/main/java/com/example/buzzcart/fragments/HomeFragment.kt:81-91 | A failed read greets with the fallback name, which never contains '@' when taken from the e-mail. |
| Home.GuestOnlyWithoutAccount | app/src/main/java/com/example/buzzcart/fragments/HomeFragment.kt:94-98 | The guest line means no user, or a user whose name is "Guest". |
| Adapter.CountNumber | app/src/main/java/com/example/buzzcart/adapters/SearchAdapter.kt:48-52 | ≥ 1,000,000: scaled with 'M'; [1000, 1,000,000): scaled with 'K'; below: plain digits. |
| Adapter.FormatCount | app/src/main/java/com/example/buzzcart/adapters/SearchAdapter.kt:47-55 | The count text, a space and the singular word for a count of one, the plural otherwise; stated by SingularIffOne and SmallCountsArePlainDigits. |
| Adapter.SmallCountsArePlainDigits | app/src/main/java/com/example/buzzcart/adapters/SearchAdapter.kt:51 | Below 1000 the text parses back to the count, and a non-negative count gives at most three digits. |
| Adapter.SuffixByRange | app/src/main/java/com/example/buzzcart/adapters/SearchAdapter.kt:48-50 | Scaled iff ≥ 1000, and 'M' iff ≥ 1,000,000. |
| Adapter.SingularIffOne | app/src/main/java/com/example/buzzcart/adapters/SearchAdapter.kt:54 | With distinct words, the singular is used iff the count is 1. |
| Adapter.StatsLine | app/src/main/java/com/example/buzzcart/adapters/SearchAdapter.kt:37-39 | The followers label, " • ", then the following label; stated by StatsLineForSmallCounts. |
| Adapter.StatsLineForSmallCounts | app/src/main/java/com/example/buzzcart/adapters/SearchAdapter.kt:37-39 | "n follower(s) • m following": the following word never varies. |
| Common.RemoveFirst | app/src/main/java/com/example/buzzcart/MainActivity.kt:368 | `remove(x)` drops exactly the first occurrence, if any. |
| Common.LongIncrement | app/src/main/java/com/example/buzzcart/fragments/OtherUserProfileFragment.kt:236 | Long `+ 1` with two's-complement wrap-around. |
| Common.Lower | app/src/main/java/com/example/buzzcart/fragments/SearchFragment.kt:216 | Same length; each character lowercased. |
| Common.Contains | app/src/main/java/com/example/buzzcart/fragments/SearchFragment.kt:236 | `CharSequence.contains`: some suffix of the string starts with the query (used by Search.Matches). |
| Common.LowerIdempotent | app/src/main/java/com/example/buzzcart/fragments/SearchFragment.kt:235 | Lowercasing the stored lowercase name again changes nothing. |
| Common.NatToStringRoundTrip | app/src/main/java/com/example/buzzcart/adapters/SearchAdapter.kt:51 | The decimal digits of a natural number read back as that number. |
| Common.IndexOf | app/src/main/java/com/example/buzzcart/fragments/OtherUserProfileFragment.kt:136-145 | The position of the first occurrence: it holds the value and no earlier position does. |
| Common.IntToStringRoundTrip | app/src/main/java/com/example/buzzcart/adapters/SearchAdapter.kt:51 | Long.toString parses back to the number. |
| Common.IntToStringInjective | app/src/main/java/com/example/buzzcart/models/user.kt:40 | Different numbers render differently. |
| Common.Trim | app/src/main/java/com/example/buzzcart/SignupActivity.kt:48-51 | Strips exactly the leading and trailing whitespace; the result starts and ends with non-whitespace, or is empty. |
| Common.IsWhitespace | app/src/main/java/com/example/buzzcart/SignupActivity.kt:48-51 | The characters `Char.isWhitespace` accepts, which Trim strips (stated through Common.Trim and Common.TrimEmptyIff). |
| Common.TrimEmptyIff | app/src/main/java/com/example/buzzcart/SignupActivity.kt:53 | Trimming gives "" iff the text is all whitespace. |
| Common.TrimPadded | app/src/main/java/com/example/buzzcart/SignupActivity.kt:48-51 | trim removes any whitespace padding on either side of a text that neither starts nor ends with whitespace, and nothing else. |
| Common.SubstringBefore | app/src/main/java/com/example/buzzcart/fragments/HomeFragment.kt:68 | A prefix without the character, ending just before its first occurrence; the whole text when it is absent. |
| Common.CompareToIsLexicographic | app/src/main/java/com/example/buzzcart/fragments/SearchFragment.kt:258 | `compareTo` ≤ 0 iff lexicographically ≤. |
| Common.CompareTo | app/src/main/java/com/example/buzzcart/fragments/SearchFragment.kt:258 | Kotlin `String.compareTo` on characters (its meaning is stated by Common.CompareToIsLexicographic, CompareToAntisymmetric and CompareToTransitive). |
| Common.CompareToAntisymmetric | app/src/main/java/com/example/buzzcart/fragments/SearchFragment.kt:258 | compareTo(a, b) = −compareTo(b, a). |
| Common.CompareToTransitive | app/src/main/java/com/example/buzzcart/fragments/SearchFragment.kt:258 | compareTo ≤ 0 is transitive. |

## Left out

- All Firebase I/O and everything behind it appears only as inputs: reads, listeners, writes, removals, transactions and authentication. What reaches the model is snapshots, completion reports and ids. `trackUserInteraction` is not modelled.
- FragmentManager transactions, view binding, colours, the exit dialog and most toasts are left out. Two pieces remain: the exit request is a returned flag, and the follow toasts are a list of texts.
- Navigation.HandleBackNavigation, Navigation.GoBackToHome: these model the two method bodies. Each ends with `selectedItemId = R.id.nav_home` (MainActivity.kt:131, 406), and the same assignment follows the switch at lines 170 and 186. With only `setOnItemSelectedListener` registered (193-206), the view runs that listener even for the item already selected, so handleHomeButtonNavigation runs at once. Navigation.PressBack, LeaveSearch and ShowFirstScreen add that call and are what `Step` and the activity's methods perform. Its net effect after a switch to home is a home reselect: stack ["home"], "search" and `user_profile_` screens evicted, search mode off. The listener's own re-entry guard, if the view library has one, is not modelled.
- The `%.1f` rendering of K/M counts is a parameter `oneDecimal`. Floating-point formatting is outside the model.
- The `formatCount` copies in OtherUserProfileFragment, HomeFragment and ProfileFragment are not modelled separately. ProfileFragment, MenuFragment, CartFragment, ProductsFragment, ReelsFragment, LoginActivity and UserInteraction are not part of this model.
- Common.Lower: lowercases ASCII letters only. `lowercase(Locale.getDefault())` depends on the device locale.
- Kotlin's `String.length` counts UTF-16 units. The model counts characters, which affects the 2- and 6-character limits only for characters outside the Basic Multilingual Plane.
- Common.CompareTo: compares characters (code points), while Kotlin's `String.compareTo` compares UTF-16 units. The two orders disagree when a character outside the Basic Multilingual Plane meets one in U+E000–U+FFFF: "😀" sorts before "ｚ" in Kotlin and after it here. Search.SortByRelevance inherits this for names holding such characters.
- Search.SortByRelevance: states sortedness and permutation, not which of several equal-ranked orders `sortWith` picks. Insertion places each element after its equals, but stability is not stated as a property.
- Search.SearchFragment.OnAccountData: the outer `catch` ("Error searching accounts", SearchFragment.kt:272-275) has no counterpart. No modelled step can throw, and the comparator is proved to be a total preorder. Per-node failures are the `None` of `UserNode.decoded`.
- Search.SearchFragment.PerformAccountSearch: a listener is identified by the query it was created for. The leftover `searchListener` field after a short query is kept, as in the source.
- Search.SearchFragment.constructor: the layout's initial texts are not modelled. `setActiveFilter`, `updateUIForCurrentFilter`, `restoreSearchState`, `saveSearchState`, the text watcher and `pluralize` are left out. They are view wiring or are never called by the search.
- Follow.FollowController.OnReport: the barrier's counters are fields reset by each click. The source keeps them as locals of each handler. The two agree because the click guard blocks a new operation until all four callbacks have arrived.
- Follow.FollowController.OnUnfollowListRead: the later outcome of `removeValue` is a parameter of the read, so each path is one step. Child values are strings. A non-string value is simply unequal to every id.
- Follow.FollowController.OnFollowState: the listener's `onCancelled` only logs, so it is not modelled. The button text is set only when the listener fires, as in the source. After the barrier closes, it keeps "Following..." until then.
- Follow.FollowController.OnReport: the immediate toasts use `context`, which may be null once the fragment is detached; whether `Toast.makeText` then throws is framework behaviour and is not modelled. Only the `binding` crash at the closing callback is.
- Signup.ReadUser: Firebase's deserialiser as far as these records need it. ServerValue.TIMESTAMP reads back as a `serverTime` parameter. The auth callback and its toasts, and opening MainActivity after signup, are left out.
- Users.ValuesList: the order of `values.toList()` is the hash map's iteration order, which is not modelled. Multiplicities are stated instead.
- Navigation.CreateFragment: navigateToUserProfile caches `OtherProfileView(user)` for the profile it opens (MainActivity.kt:351-353). Only a `user_profile_` tag that is shown while uncached is given the home screen's kind by CreateFragment, reproducing the fallback of `createFragment` (MainActivity.kt:332-340).
