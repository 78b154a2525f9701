/** Building the list view from the three collections (`ai_apps`,
    `ai_apps_creative`, `ai_apps_tools`): `filterApps` degrades a failed
    collection to an empty one and then filters, `loadApps` gives up on the
    merge when any collection fails and retries the main collection alone. */
module Aggregation {
  import opened Common
  import opened Text
  import opened Seqs
  import opened Catalog

  /** The outcome of one `fetch` of a collection: the promise rejected, the
      status was not ok, or an ok response whose JSON body may lack `data`. */
  datatype Response = NetworkError | NotOk | Ok(data: Option<seq<Entry>>)

  /** `result.data || []` of an ok response. */
  function Body(r: Response): (entries: seq<Entry>)
    requires r.Ok?
    ensures r.data.Some? ==> entries == r.data.value
    ensures r.data.None? ==> entries == []
  {
    match r.data
    case None => []
    case Some(d) => d
  }

  /** What `filterApps` reads from one response: a non-ok response counts as `{ data: [] }`. */
  function DataOrEmpty(r: Response): (d: seq<Entry>)
    requires !r.NetworkError?
    ensures r.NotOk? ==> d == []
    ensures r.Ok? ==> d == Body(r)
  {
    if r.Ok? then Body(r) else []
  }

  /** The category test: `(app.categories || []).includes(categoryFilter)`. */
  function InCategory(e: Entry, categoryFilter: string): (listed: bool)
    ensures listed <==> exists k :: 0 <= k < |e.categories| && e.categories[k] == categoryFilter
  {
    categoryFilter in e.categories
  }

  /** `[name, description, ...tags].join(' ').toLowerCase()`. */
  function SearchableText(e: Entry): (text: string)
    ensures Lower(e.name) <= text
    ensures forall k :: 0 <= k < |text| ==> !('A' <= text[k] <= 'Z')
  {
    var joined := Join([e.name, e.description] + e.tags, " ");
    JoinStartsWithFirst([e.name, e.description] + e.tags, " ");
    Lower(joined)
  }

  predicate MatchesSearch(e: Entry, searchTerm: string)
  {
    Contains(SearchableText(e), searchTerm)
  }

  /** The term `filterApps` searches for: the input lower-cased, then trimmed. */
  function SearchTerm(searchInput: string): (term: string)
    ensures |term| <= |searchInput| && Trimmed(term)
    ensures forall k :: 0 <= k < |term| ==> !('A' <= term[k] <= 'Z')
  {
    LowerLeavesNoCapital(searchInput);
    Trim(Lower(searchInput))
  }

  /** Whether an entry survives both filters, each skipped when its input is empty. */
  predicate Kept(e: Entry, searchTerm: string, categoryFilter: string)
  {
    && (categoryFilter == "" || InCategory(e, categoryFilter))
    && (searchTerm == "" || MatchesSearch(e, searchTerm))
  }

  /** `Kept` as a test that `Filter` can take. */
  function Keeper(searchTerm: string, categoryFilter: string): Entry -> bool
  {
    e => Kept(e, searchTerm, categoryFilter)
  }

  /** The category filter then the search filter, as `filterApps` applies them. */
  function ApplyFilters(all: seq<Entry>, searchTerm: string, categoryFilter: string): (kept: seq<Entry>)
    ensures |kept| <= |all|
    ensures forall k :: 0 <= k < |kept| ==> kept[k] in all && Kept(kept[k], searchTerm, categoryFilter)
  {
    var byCategory := if categoryFilter != "" then Filter(all, e => InCategory(e, categoryFilter)) else all;
    if searchTerm != "" then Filter(byCategory, e => MatchesSearch(e, searchTerm)) else byCategory
  }

  /** Applying the two filters one after the other keeps exactly the entries
      `Kept` accepts, in order. */
  lemma {:induction false} ApplyFiltersIsFilter(all: seq<Entry>, searchTerm: string, categoryFilter: string)
    ensures ApplyFilters(all, searchTerm, categoryFilter) == Filter(all, Keeper(searchTerm, categoryFilter))
  {
    var kept := Keeper(searchTerm, categoryFilter);
    var cat := (e: Entry) => InCategory(e, categoryFilter);
    var search := (e: Entry) => MatchesSearch(e, searchTerm);
    if categoryFilter != "" && searchTerm != "" {
      FilterTwice(all, cat, search, kept);
    } else if categoryFilter != "" {
      FilterTwice(all, cat, (e: Entry) => true, kept);
      FilterAll(Filter(all, cat), (e: Entry) => true);
    } else if searchTerm != "" {
      FilterTwice(all, (e: Entry) => true, search, kept);
      FilterAll(all, (e: Entry) => true);
    } else {
      FilterAll(all, kept);
    }
  }

  /** What `filterApps` hands to `displayApps` and `updateFilterResults`, or
      the error message when a fetch rejects. */
  datatype FilterOutcome = Filtered(handedOver: seq<Entry>, total: nat) | SearchFailed

  /** The three collections in the order main, creative, tools. */
  function Merge(main: seq<Entry>, creative: seq<Entry>, tools: seq<Entry>): (all: seq<Entry>)
    ensures |all| == |main| + |creative| + |tools|
    ensures multiset(all) == multiset(main) + multiset(creative) + multiset(tools)
  {
    main + creative + tools
  }

  /** `filterApps` on the three responses and the two inputs. */
  function FilterApps(main: Response, creative: Response, tools: Response,
                      searchInput: string, categoryFilter: string): (r: FilterOutcome)
    ensures r.SearchFailed? <==> main.NetworkError? || creative.NetworkError? || tools.NetworkError?
    ensures r.Filtered? ==> r.total == |DataOrEmpty(main)| + |DataOrEmpty(creative)| + |DataOrEmpty(tools)|
    ensures r.Filtered? ==> |r.handedOver| <= r.total
    ensures r.Filtered? ==> forall k :: 0 <= k < |r.handedOver| ==> Kept(r.handedOver[k], SearchTerm(searchInput), categoryFilter)
  {
    if main.NetworkError? || creative.NetworkError? || tools.NetworkError? then SearchFailed
    else
      var all := Merge(DataOrEmpty(main), DataOrEmpty(creative), DataOrEmpty(tools));
      Filtered(ApplyFilters(all, SearchTerm(searchInput), categoryFilter), |all|)
  }

  /** The two filters keep an order-preserving subsequence holding every
      entry that passes as often as the input does, and none that fails. */
  lemma ApplyFiltersResult(all: seq<Entry>, searchTerm: string, categoryFilter: string)
    ensures IsSubsequence(ApplyFilters(all, searchTerm, categoryFilter), all)
    ensures forall e :: multiset(ApplyFilters(all, searchTerm, categoryFilter))[e]
                     == (if Kept(e, searchTerm, categoryFilter) then multiset(all)[e] else 0)
  {
    var keep := Keeper(searchTerm, categoryFilter);
    ApplyFiltersIsFilter(all, searchTerm, categoryFilter);
    FilterIsSubsequence(all, keep);
    forall e ensures keep(e) == Kept(e, searchTerm, categoryFilter) {
    }
  }

  /** `filterApps` hands `displayApps` an order-preserving subsequence of the merged list,
      holding every entry that passes both filters as often as the merged
      list does and none that fails; the total it reports is the merged length. */
  lemma FilterAppsResult(main: Response, creative: Response, tools: Response,
                         searchInput: string, categoryFilter: string)
    requires !main.NetworkError? && !creative.NetworkError? && !tools.NetworkError?
    ensures FilterApps(main, creative, tools, searchInput, categoryFilter).Filtered?
    ensures FilterApps(main, creative, tools, searchInput, categoryFilter).total
         == |DataOrEmpty(main)| + |DataOrEmpty(creative)| + |DataOrEmpty(tools)|
    ensures IsSubsequence(FilterApps(main, creative, tools, searchInput, categoryFilter).handedOver,
                          Merge(DataOrEmpty(main), DataOrEmpty(creative), DataOrEmpty(tools)))
    ensures forall e :: multiset(FilterApps(main, creative, tools, searchInput, categoryFilter).handedOver)[e]
                     == (if Kept(e, SearchTerm(searchInput), categoryFilter)
                         then multiset(Merge(DataOrEmpty(main), DataOrEmpty(creative), DataOrEmpty(tools)))[e]
                         else 0)
  {
    var all := Merge(DataOrEmpty(main), DataOrEmpty(creative), DataOrEmpty(tools));
    ApplyFiltersResult(all, SearchTerm(searchInput), categoryFilter);
  }

  /** Any rejected fetch makes `filterApps` show its error and hand over no list. */
  lemma FilterAppsRejected(main: Response, creative: Response, tools: Response,
                           searchInput: string, categoryFilter: string)
    requires main.NetworkError? || creative.NetworkError? || tools.NetworkError?
    ensures FilterApps(main, creative, tools, searchInput, categoryFilter) == SearchFailed
  {
  }

  /** With no search text and no category the list is the whole merge. */
  lemma {:induction false} FilterAppsNoFilters(main: Response, creative: Response, tools: Response,
                                               searchInput: string)
    requires !main.NetworkError? && !creative.NetworkError? && !tools.NetworkError?
    requires SearchTerm(searchInput) == ""
    ensures FilterApps(main, creative, tools, searchInput, "")
         == Filtered(Merge(DataOrEmpty(main), DataOrEmpty(creative), DataOrEmpty(tools)),
                     |Merge(DataOrEmpty(main), DataOrEmpty(creative), DataOrEmpty(tools))|)
  {
  }

  /** A collection whose response is not ok contributes nothing, and the
      others are filtered exactly as if it had been empty. */
  lemma {:induction false} FilterAppsSkipsFailedCollection(main: Response, creative: Response, tools: Response,
                                                           searchInput: string, categoryFilter: string)
    requires !main.NetworkError? && !creative.NetworkError? && !tools.NetworkError?
    requires main.NotOk? || creative.NotOk? || tools.NotOk?
    ensures FilterApps(main, creative, tools, searchInput, categoryFilter)
         == FilterApps(if main.NotOk? then Ok(Some([])) else main,
                       if creative.NotOk? then Ok(Some([])) else creative,
                       if tools.NotOk? then Ok(Some([])) else tools,
                       searchInput, categoryFilter)
  {
  }

  /** The filtered result splits into the filtered parts, collection by collection. */
  lemma {:induction false} FilterAppsByCollection(main: Response, creative: Response, tools: Response,
                                                  searchInput: string, categoryFilter: string)
    requires !main.NetworkError? && !creative.NetworkError? && !tools.NetworkError?
    ensures FilterApps(main, creative, tools, searchInput, categoryFilter).handedOver
         == Filter(DataOrEmpty(main), Keeper(SearchTerm(searchInput), categoryFilter))
          + Filter(DataOrEmpty(creative), Keeper(SearchTerm(searchInput), categoryFilter))
          + Filter(DataOrEmpty(tools), Keeper(SearchTerm(searchInput), categoryFilter))
  {
    var keep := Keeper(SearchTerm(searchInput), categoryFilter);
    var m, c, t := DataOrEmpty(main), DataOrEmpty(creative), DataOrEmpty(tools);
    ApplyFiltersIsFilter(m + c + t, SearchTerm(searchInput), categoryFilter);
    FilterAppend(m + c, t, keep);
    FilterAppend(m, c, keep);
  }

  /** What `loadApps` leaves on screen: the list handed to `displayApps`
      (if any) and whether the load error message was shown. */
  datatype LoadOutcome = LoadOutcome(handedOver: Option<seq<Entry>>, errorShown: bool)

  /** `loadApps`: the three responses of the joint fetch and `retry`, the
      response of the fallback fetch of the main collection, which is only
      issued when the joint fetch did not succeed everywhere. */
  function LoadApps(main: Response, creative: Response, tools: Response, retry: Response): (r: LoadOutcome)
    ensures main.Ok? && creative.Ok? && tools.Ok? ==> r.handedOver.Some? && !r.errorShown
    ensures r.handedOver.None? <==> !(main.Ok? && creative.Ok? && tools.Ok?) && !retry.Ok?
    ensures r.errorShown <==> !(main.Ok? && creative.Ok? && tools.Ok?) && (retry.NetworkError? || retry == Ok(None))
  {
    if main.Ok? && creative.Ok? && tools.Ok? then
      LoadOutcome(Some(Merge(Body(main), Body(creative), Body(tools))), false)
    else
      match retry
      case NetworkError => LoadOutcome(None, true)
      case NotOk => LoadOutcome(None, false)
      // displayApps(undefined) shows the empty state, then reading
      // `result.data.length` throws into the fallback's catch
      case Ok(None) => LoadOutcome(Some([]), true)
      case Ok(Some(d)) => LoadOutcome(Some(d), false)
  }

  /** When every collection answers ok, the whole merge is handed to `displayApps` in the
      order main, creative, tools, and the retry plays no part. */
  lemma LoadAppsMergesAll(main: Response, creative: Response, tools: Response, retry: Response)
    requires main.Ok? && creative.Ok? && tools.Ok?
    ensures var out := LoadApps(main, creative, tools, retry);
            && !out.errorShown
            && out.handedOver == Some(Body(main) + Body(creative) + Body(tools))
            && |out.handedOver.value| == |Body(main)| + |Body(creative)| + |Body(tools)|
  {
  }

  /** One failed collection discards the merge: what is handed over is exactly what
      the retried main collection returned, or nothing when the retry failed.
      The creative and tools data never appear. */
  lemma LoadAppsFallsBack(main: Response, creative: Response, tools: Response, retry: Response)
    requires !(main.Ok? && creative.Ok? && tools.Ok?)
    ensures var out := LoadApps(main, creative, tools, retry);
            && (retry.Ok? <==> out.handedOver.Some?)
            && (retry.Ok? ==> out.handedOver == Some(Body(retry)))
            && (out.errorShown <==> retry.NetworkError? || retry == Ok(None))
            && LoadApps(main, creative, tools, retry) == LoadApps(NotOk, NotOk, NotOk, retry)
  {
  }

  /** The two policies disagree: with the creative collection failing,
      `filterApps` still hands over the tools entries, `loadApps` does not. */
  lemma PoliciesDiffer(e: Entry)
    ensures FilterApps(Ok(Some([])), NotOk, Ok(Some([e])), "", "") == Filtered([e], 1)
    ensures LoadApps(Ok(Some([])), NotOk, Ok(Some([e])), Ok(Some([]))).handedOver == Some([])
  {
    assert Merge([], [], [e]) == [e];
  }
}
