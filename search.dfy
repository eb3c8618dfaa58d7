/** The search screen (SearchFragment): the account search, which filters
    the users/ children on the lower-cased name and sorts the matches by
    relevance, the result texts of the four filters, and the screen object
    whose fields the search and its database listener update. */
module Search {
  import opened Common
  import opened Users

  // ---------------------------------------------------------------------------
  // Filtering
  // ---------------------------------------------------------------------------

  /** A query needs this many characters before the database is asked. */
  const MinQueryLength := 2

  /** One child of users/ as the listener sees it: whether it has a fullName
      and an email child, and what getValue(User::class.java) gives (None
      when it returns null or throws, which skips the child). */
  datatype UserNode = UserNode(hasFullName: bool, hasEmail: bool, decoded: Option<User>)

  /** The name an account is matched and sorted on. */
  function NameKey(u: User): string {
    Lower(u.fullNameLower)
  }

  /** A decoded user matches when its lower-cased name is not empty and
      contains the lower-cased query. */
  predicate IsMatch(u: User, queryLower: string) {
    NameKey(u) != [] && Contains(NameKey(u), queryLower)
  }

  predicate Accepts(node: UserNode, queryLower: string) {
    node.hasFullName && node.hasEmail && node.decoded.Some? && IsMatch(node.decoded.value, queryLower)
  }

  /** The users the listener collects, in snapshot order: exactly those of
      the accepted children. */
  function Matches(nodes: seq<UserNode>, queryLower: string): (r: seq<User>)
    ensures |r| <= |nodes|
    ensures forall u | u in r ::
      IsMatch(u, queryLower) && exists i | 0 <= i < |nodes| :: nodes[i] == UserNode(true, true, Some(u))
    ensures forall i | 0 <= i < |nodes| && Accepts(nodes[i], queryLower) :: nodes[i].decoded.value in r
    decreases |nodes|
  {
    if nodes == [] then []
    else
      var init := nodes[..|nodes| - 1];
      var r := Matches(init, queryLower);
      assert forall i | 0 <= i < |init| :: init[i] == nodes[i];
      var node := Last(nodes);
      if Accepts(node, queryLower) then r + [node.decoded.value] else r
  }

  /** The for-loop of onDataChange that builds `results`. */
  method CollectMatches(nodes: seq<UserNode>, queryLower: string) returns (results: seq<User>)
    ensures results == Matches(nodes, queryLower)
  {
    results := [];
    for i := 0 to |nodes|
      invariant results == Matches(nodes[..i], queryLower)
    {
      assert nodes[..i + 1][..i] == nodes[..i];
      var node := nodes[i];
      if node.hasFullName && node.hasEmail {
        match node.decoded {
          case Some(u) =>
            var fullNameLower := Lower(u.fullNameLower);
            if fullNameLower != [] && Contains(fullNameLower, queryLower) {
              results := results + [u];
            }
          case None =>
        }
      }
    }
    assert nodes[..|nodes|] == nodes;
  }

  // ---------------------------------------------------------------------------
  // Sorting by relevance
  // ---------------------------------------------------------------------------

  predicate StartsWithQuery(u: User, queryLower: string) {
    queryLower <= NameKey(u)
  }

  /** The comparator handed to sortWith: names starting with the query
      first, otherwise String.compareTo of the names. */
  function CompareByRelevance(queryLower: string, a: User, b: User): int {
    var n1 := NameKey(a);
    var n2 := NameKey(b);
    if queryLower <= n1 && !(queryLower <= n2) then -1
    else if !(queryLower <= n1) && queryLower <= n2 then 1
    else CompareTo(n1, n2)
  }

  /** 0 for a name that starts with the query, 1 for one that does not. */
  function Rank(u: User, queryLower: string): (k: nat)
    ensures k == 0 <==> StartsWithQuery(u, queryLower)
    ensures k <= 1
  {
    if StartsWithQuery(u, queryLower) then 0 else 1
  }

  /** The comparator orders by rank and then lexicographically by name. */
  lemma CompareByRelevanceIsRankThenName(queryLower: string, a: User, b: User)
    ensures CompareByRelevance(queryLower, a, b) <= 0 <==>
      Rank(a, queryLower) < Rank(b, queryLower)
      || (Rank(a, queryLower) == Rank(b, queryLower) && LexLe(NameKey(a), NameKey(b)))
  {
    CompareToIsLexicographic(NameKey(a), NameKey(b));
  }

  lemma CompareByRelevanceAntisymmetric(queryLower: string, a: User, b: User)
    ensures CompareByRelevance(queryLower, a, b) == -CompareByRelevance(queryLower, b, a)
  {
    CompareToAntisymmetric(NameKey(a), NameKey(b));
  }

  lemma CompareByRelevanceTransitive(queryLower: string, a: User, b: User, c: User)
    requires CompareByRelevance(queryLower, a, b) <= 0 && CompareByRelevance(queryLower, b, c) <= 0
    ensures CompareByRelevance(queryLower, a, c) <= 0
  {
    if Rank(a, queryLower) == Rank(b, queryLower) == Rank(c, queryLower) {
      CompareToTransitive(NameKey(a), NameKey(b), NameKey(c));
    }
  }

  ghost predicate SortedByRelevance(queryLower: string, s: seq<User>) {
    forall i, j | 0 <= i < j < |s| :: CompareByRelevance(queryLower, s[i], s[j]) <= 0
  }

  /** Puts x after every element that is not greater than it. */
  function InsertByRelevance(queryLower: string, x: User, s: seq<User>): (r: seq<User>)
    ensures multiset(r) == multiset(s) + multiset{x}
    decreases |s|
  {
    if s == [] then [x]
    else if CompareByRelevance(queryLower, x, s[0]) < 0 then [x] + s
    else
      assert s == [s[0]] + s[1..];
      [s[0]] + InsertByRelevance(queryLower, x, s[1..])
  }

  /** The elements of an insertion are x and those of s. */
  lemma InsertMembers(queryLower: string, x: User, s: seq<User>, y: User)
    requires y in InsertByRelevance(queryLower, x, s)
    ensures y == x || y in s
  {
    assert y in multiset(InsertByRelevance(queryLower, x, s));
    assert y == x || y in multiset(s);
  }

  lemma ConsSorted(queryLower: string, z: User, s: seq<User>)
    requires SortedByRelevance(queryLower, s)
    requires forall y | y in s :: CompareByRelevance(queryLower, z, y) <= 0
    ensures SortedByRelevance(queryLower, [z] + s)
  {
    var r := [z] + s;
    forall i, j | 0 <= i < j < |r| ensures CompareByRelevance(queryLower, r[i], r[j]) <= 0 {
      assert r[j] == s[j - 1];
      if i > 0 {
        assert r[i] == s[i - 1];
      }
    }
  }

  lemma {:induction false} InsertKeepsSorted(queryLower: string, x: User, s: seq<User>)
    requires SortedByRelevance(queryLower, s)
    ensures SortedByRelevance(queryLower, InsertByRelevance(queryLower, x, s))
    decreases |s|
  {
    if s == [] {
    } else if CompareByRelevance(queryLower, x, s[0]) < 0 {
      forall y | y in s ensures CompareByRelevance(queryLower, x, y) <= 0 {
        var k :| 0 <= k < |s| && s[k] == y;
        if k > 0 {
          CompareByRelevanceTransitive(queryLower, x, s[0], y);
        }
      }
      ConsSorted(queryLower, x, s);
    } else {
      var tail := InsertByRelevance(queryLower, x, s[1..]);
      InsertKeepsSorted(queryLower, x, s[1..]);
      CompareByRelevanceAntisymmetric(queryLower, x, s[0]);
      forall y | y in tail ensures CompareByRelevance(queryLower, s[0], y) <= 0 {
        InsertMembers(queryLower, x, s[1..], y);
        if y != x {
          var k :| 0 <= k < |s[1..]| && s[1..][k] == y;
          assert s[k + 1] == y;
        }
      }
      ConsSorted(queryLower, s[0], tail);
    }
  }

  /** What `results.sortWith(comparator)` leaves: the same users, sorted by
      relevance. Equal users keep their order (each is inserted after the
      ones that compare equal to it). */
  function SortByRelevance(queryLower: string, s: seq<User>): (r: seq<User>)
    ensures multiset(r) == multiset(s)
    ensures SortedByRelevance(queryLower, r)
    decreases |s|
  {
    if s == [] then []
    else
      var init := s[..|s| - 1];
      assert s == init + [Last(s)];
      var sorted := SortByRelevance(queryLower, init);
      InsertKeepsSorted(queryLower, Last(s), sorted);
      InsertByRelevance(queryLower, Last(s), sorted)
  }

  /** In a relevance-sorted list every name that starts with the query comes
      before every name that does not. */
  lemma PrefixMatchesFirst(queryLower: string, s: seq<User>)
    requires SortedByRelevance(queryLower, s)
    ensures forall i, j | 0 <= i < j < |s| && StartsWithQuery(s[j], queryLower) :: StartsWithQuery(s[i], queryLower)
  {
    forall i, j | 0 <= i < j < |s| && StartsWithQuery(s[j], queryLower)
      ensures StartsWithQuery(s[i], queryLower)
    {
      CompareByRelevanceIsRankThenName(queryLower, s[i], s[j]);
    }
  }

  /** Within each of the two classes the names are in lexicographic order. */
  lemma ClassesInLexicographicOrder(queryLower: string, s: seq<User>)
    requires SortedByRelevance(queryLower, s)
    ensures forall i, j | 0 <= i < j < |s| && Rank(s[i], queryLower) == Rank(s[j], queryLower) ::
      LexLe(NameKey(s[i]), NameKey(s[j]))
  {
    forall i, j | 0 <= i < j < |s| && Rank(s[i], queryLower) == Rank(s[j], queryLower)
      ensures LexLe(NameKey(s[i]), NameKey(s[j]))
    {
      CompareByRelevanceIsRankThenName(queryLower, s[i], s[j]);
    }
  }

  /** The list the search ends with holds exactly the matching users. */
  lemma SearchResultsAreMatches(nodes: seq<UserNode>, queryLower: string, u: User)
    ensures u in SortByRelevance(queryLower, Matches(nodes, queryLower)) <==> u in Matches(nodes, queryLower)
  {
    var m := Matches(nodes, queryLower);
    assert u in m <==> u in multiset(m);
    assert u in SortByRelevance(queryLower, m) <==> u in multiset(SortByRelevance(queryLower, m));
  }

  // ---------------------------------------------------------------------------
  // Result texts
  // ---------------------------------------------------------------------------

  /** What the title, the content text and the result list show. The content
      text is visible exactly when the list is not. */
  datatype SearchUi = SearchUi(title: string, content: string, listVisible: bool)

  function PluralizeResults(count: int): string {
    if count == 1 then "1 result" else IntToString(count) + " results"
  }

  /** Different counts never share a label. */
  lemma PluralizeResultsInjective(a: int, b: int)
    requires PluralizeResults(a) == PluralizeResults(b)
    ensures a == b
  {
    var sa, sb := IntToString(a), IntToString(b);
    if a != 1 && b != 1 {
      assert |sa| == |sb|;
      assert sa == PluralizeResults(a)[..|sa|];
      assert sb == PluralizeResults(b)[..|sb|];
      IntToStringInjective(a, b);
    }
  }

  const EmptyQueryHint := "Start typing to search for accounts " + "by full name...\n\nResults will show " + "people using this app."
  const ShortQueryHint := "Type at least 2 characters to search..."

  function NoAccountsMessage(query: string): string {
    "No accounts found for \"" + query + "\""
  }

  function FoundMessage(count: int, query: string): string {
    "Found " + PluralizeResults(count) + " matching \"" + query + "\""
  }

  /** The content text of updateUIForAccountSearch: the error, otherwise a
      hint for an empty or one-character query, otherwise "none found" or
      "found" depending on the count. */
  function AccountContent(query: string, count: int, error: Option<string>): (content: string)
    ensures error.Some? ==> content == error.value
    ensures error.None? && query == [] ==> content == EmptyQueryHint
    ensures error.None? && |query| == 1 ==> content == ShortQueryHint
    ensures error.None? && |query| >= MinQueryLength && count == 0 ==> content == NoAccountsMessage(query)
    ensures error.None? && |query| >= MinQueryLength && count != 0 ==> content == FoundMessage(count, query)
  {
    match error
    case Some(e) => e
    case None =>
      if query == [] then EmptyQueryHint
      else if |query| < MinQueryLength then ShortQueryHint
      else if count == 0 then NoAccountsMessage(query)
      else FoundMessage(count, query)
  }

  /** Without an error, the "Found ..." text appears exactly when a query of
      at least two characters has results. */
  lemma FoundShownIff(query: string, count: int)
    ensures "Found " <= AccountContent(query, count, None) <==> |query| >= MinQueryLength && count != 0
  {
    var c := AccountContent(query, count, None);
    if query == [] {
      assert c[0] == 'S';
    } else if |query| < MinQueryLength {
      assert c[0] == 'T';
    } else if count == 0 {
      assert c[0] == 'N';
    }
  }

  function AccountUi(query: string, count: int, error: Option<string>): (ui: SearchUi)
    ensures ui.title == "Accounts - " + PluralizeResults(count)
    ensures ui.content == AccountContent(query, count, error)
    ensures ui.listVisible <==> count > 0
  {
    SearchUi("Accounts - " + PluralizeResults(count), AccountContent(query, count, error), count > 0)
  }

  /** The three filters that have no search behind them yet. */
  datatype Category = Sellers | Reels | Products

  function CategoryTitle(c: Category): string {
    match c
    case Sellers => "Sellers"
    case Reels => "Reels"
    case Products => "Products"
  }

  function CategoryNoun(c: Category): string {
    match c
    case Sellers => "sellers"
    case Reels => "reels"
    case Products => "products"
  }

  function CategoryHint(c: Category): string {
    match c
    case Sellers => "Search for sellers and stores..."
    case Reels => "Search for reels and videos..."
    case Products => "Search for products and deals..."
  }

  /** updateUIForSellerSearch and its two siblings: the list stays hidden
      whatever the count. */
  function PlaceholderUi(c: Category, query: string, count: int): (ui: SearchUi)
    ensures !ui.listVisible
    ensures ui.title == CategoryTitle(c) + " - " + PluralizeResults(count)
  {
    var content :=
      if query == [] then CategoryHint(c)
      else if |query| < MinQueryLength then "Type at least 2 characters..."
      else if count == 0 then "No " + CategoryNoun(c) + " found for \"" + query + "\""
      else FoundMessage(count, query);
    SearchUi(CategoryTitle(c) + " - " + PluralizeResults(count), content, false)
  }

  /** The placeholder searches always report zero results: the title says
      "0 results", the list is hidden and no "Found" text appears. */
  lemma PlaceholderReportsNothing(c: Category, query: string)
    ensures var ui := PlaceholderUi(c, query, 0);
      && ui.title == CategoryTitle(c) + " - 0 results"
      && !ui.listVisible
      && !("Found " <= ui.content)
  {
    var ui := PlaceholderUi(c, query, 0);
    assert IntToString(0) == "0";
    if query == [] {
      assert ui.content[0] == 'S';
    } else if |query| < MinQueryLength {
      assert ui.content[0] == 'T';
    } else {
      assert ui.content[0] == 'N';
    }
  }

  // ---------------------------------------------------------------------------
  // The screen
  // ---------------------------------------------------------------------------

  /** The fragment's state. `hasBinding` says whether the view exists;
      `searchListener` is the query the last created
      listener searches for, and `attachedListener` is the listener the
      users/ reference currently delivers to. */
  class SearchFragment {
    var isFragmentActive: bool
    var hasBinding: bool
    var currentFilter: string
    var currentQuery: string
    var searchResults: seq<User>
    var searchListener: Option<string>
    var attachedListener: Option<string>
    var ui: SearchUi

    /** `isFragmentActive && _binding != null`, the guard of every UI update
        and of both listener callbacks. */
    predicate IsActive()
      reads this
    {
      isFragmentActive && hasBinding
    }

    /** At most the last created listener is attached, and only for a query
        long enough to search. */
    ghost predicate Valid()
      reads this
    {
      attachedListener.Some? ==> attachedListener == searchListener && |attachedListener.value| >= MinQueryLength
    }

    /** The fragment once its view exists; the layout's initial texts are
        not modelled. */
    constructor ()
      ensures Valid()
      ensures isFragmentActive && hasBinding && currentFilter == "accounts" && currentQuery == ""
      ensures searchResults == [] && searchListener == None && attachedListener == None
    {
      isFragmentActive, hasBinding := true, true;
      currentFilter, currentQuery := "accounts", "";
      searchResults := [];
      searchListener, attachedListener := None, None;
      ui := SearchUi("", "", false);
    }

    /** setSearchState: the filter and the query, and nothing else. */
    method SetSearchState(filter: string, query: string)
      modifies this`currentFilter, this`currentQuery
      ensures currentFilter == filter && currentQuery == query
    {
      currentFilter := filter;
      currentQuery := query;
    }

    method OnPause()
      modifies this`isFragmentActive
      ensures !isFragmentActive
    {
      isFragmentActive := false;
    }

    /** onResume marks the fragment active, but a destroyed view stays
        destroyed. */
    method OnResume()
      modifies this`isFragmentActive
      ensures isFragmentActive
    {
      isFragmentActive := true;
    }

    /** onDestroyView: the view goes away and the last listener is removed. */
    method OnDestroyView()
      requires Valid()
      modifies this`isFragmentActive, this`attachedListener, this`hasBinding
      ensures Valid()
      ensures !isFragmentActive && !hasBinding && attachedListener == None
    {
      isFragmentActive := false;
      if searchListener.Some? {
        attachedListener := None;
      }
      hasBinding := false;
    }

    /** updateUIForAccountSearch: nothing happens once the view is gone. */
    method UpdateUIForAccountSearch(query: string, resultCount: int, error: Option<string>)
      modifies this`ui
      ensures ui == if IsActive() then AccountUi(query, resultCount, error) else old(ui)
    {
      if IsActive() {
        ui := AccountUi(query, resultCount, error);
      }
    }

    method UpdateUIForPlaceholder(c: Category, query: string, resultCount: int)
      modifies this`ui
      ensures ui == if IsActive() then PlaceholderUi(c, query, resultCount) else old(ui)
    {
      if IsActive() {
        ui := PlaceholderUi(c, query, resultCount);
      }
    }

    /** performAccountSearch: the previous listener is removed; a query
        shorter than two characters clears the results and attaches
        nothing, a longer one attaches a new listener for it. */
    method PerformAccountSearch(query: string)
      requires Valid()
      modifies this`searchResults, this`searchListener, this`attachedListener, this`ui
      ensures Valid()
      ensures |query| < MinQueryLength ==>
        && attachedListener == None && searchListener == old(searchListener)
        && searchResults == []
        && ui == if IsActive() then AccountUi(query, 0, None) else old(ui)
      ensures |query| >= MinQueryLength ==>
        && attachedListener == Some(query) && searchListener == Some(query)
        && searchResults == old(searchResults) && ui == old(ui)
    {
      if searchListener.Some? {
        attachedListener := None;
      }
      if |query| < MinQueryLength {
        searchResults := [];
        UpdateUIForAccountSearch(query, 0, None);
        return;
      }
      searchListener := Some(query);
      attachedListener := Some(query);
    }

    /** performSearch: dispatch on the current filter; an unknown filter
        does nothing. */
    method PerformSearch(query: string)
      requires Valid()
      modifies this`searchResults, this`searchListener, this`attachedListener, this`ui
      ensures Valid()
      ensures !IsActive() || currentFilter !in {"accounts", "sellers", "reels", "products"} ==>
        searchResults == old(searchResults) && searchListener == old(searchListener)
        && attachedListener == old(attachedListener) && ui == old(ui)
      ensures IsActive() && currentFilter == "accounts" && |query| < MinQueryLength ==>
        && attachedListener == None && searchListener == old(searchListener)
        && searchResults == [] && ui == AccountUi(query, 0, None)
      ensures IsActive() && currentFilter == "accounts" && |query| >= MinQueryLength ==>
        && attachedListener == Some(query) && searchListener == Some(query)
        && searchResults == old(searchResults) && ui == old(ui)
      ensures IsActive() && currentFilter == "sellers" ==> ui == PlaceholderUi(Sellers, query, 0)
      ensures IsActive() && currentFilter == "reels" ==> ui == PlaceholderUi(Reels, query, 0)
      ensures IsActive() && currentFilter == "products" ==> ui == PlaceholderUi(Products, query, 0)
      ensures IsActive() && currentFilter != "accounts" ==>
        searchResults == old(searchResults) && searchListener == old(searchListener)
        && attachedListener == old(attachedListener)
    {
      if !IsActive() {
        return;
      }
      if currentFilter == "accounts" {
        PerformAccountSearch(query);
      } else if currentFilter == "sellers" {
        UpdateUIForPlaceholder(Sellers, query, 0);
      } else if currentFilter == "reels" {
        UpdateUIForPlaceholder(Reels, query, 0);
      } else if currentFilter == "products" {
        UpdateUIForPlaceholder(Products, query, 0);
      }
    }

    /** onDataChange of the attached listener: the matching users, sorted by
        relevance, replace the results, and the texts report their number. */
    method OnAccountData(nodes: seq<UserNode>)
      requires Valid() && attachedListener.Some?
      modifies this`searchResults, this`ui
      ensures var query := attachedListener.value;
        if IsActive() then
          && searchResults == SortByRelevance(Lower(query), Matches(nodes, Lower(query)))
          && ui == AccountUi(query, |searchResults|, None)
        else searchResults == old(searchResults) && ui == old(ui)
    {
      if !IsActive() {
        return;
      }
      var query := attachedListener.value;
      var queryLower := Lower(query);
      var results := CollectMatches(nodes, queryLower);
      results := SortByRelevance(queryLower, results);
      searchResults := results;
      UpdateUIForAccountSearch(query, |results|, None);
    }

    /** onCancelled of the attached listener: the error text is shown and
        the results stay as they were. */
    method OnAccountSearchCancelled(message: string)
      requires Valid() && attachedListener.Some?
      modifies this`ui
      ensures ui == if IsActive() then AccountUi(attachedListener.value, 0, Some("Search failed: " + message)) else old(ui)
    {
      UpdateUIForAccountSearch(attachedListener.value, 0, Some("Search failed: " + message));
    }
  }

  /** After results arrive for a long enough query the list is visible
      exactly when something matched, and the text is "Found ..." exactly
      then. */
  lemma ResultsShownIffSomethingMatched(query: string, nodes: seq<UserNode>)
    requires |query| >= MinQueryLength
    ensures var results := SortByRelevance(Lower(query), Matches(nodes, Lower(query)));
      var ui := AccountUi(query, |results|, None);
      && (ui.listVisible <==> Matches(nodes, Lower(query)) != [])
      && ("Found " <= ui.content <==> Matches(nodes, Lower(query)) != [])
  {
    var m := Matches(nodes, Lower(query));
    var results := SortByRelevance(Lower(query), m);
    assert |results| == |m| by {
      assert |multiset(results)| == |multiset(m)|;
    }
    FoundShownIff(query, |results|);
  }
}
