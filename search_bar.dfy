/**
 * The search bar: a query box with a debounced, rate-limited search, a
 * dropdown of results and a most-recent-first history of chosen terms.
 */
module Search {
  import opened Wrappers
  import opened Lists
  import opened Text
  import RateLimit
  import Sanitize

  /** One row of the `id, title, location, price, hero_image, status` selection. */
  datatype SearchResult = SearchResult(id: int, title: string, location: string, price: int, heroImage: string, status: string)

  /** What the property query comes back with: an error, or `data` (possibly null). */
  datatype SearchResponse = Failed | Rows(data: Option<seq<SearchResult>>)

  const MaxHistory: nat := 5
  const MaxResults: nat := 5
  const SearchKey := "search:global"

  /**
   * `addToHistory`: the term moves (or enters) at the front and occurs once,
   * the other terms keep their relative order, and at most five are kept.
   */
  function AddToHistory(history: seq<string>, term: string): (r: seq<string>)
    ensures |r| <= MaxHistory
    ensures r != [] && r[0] == term && multiset(r)[term] == 1 && term !in r[1..]
    ensures Subsequence(r[1..], history)
    ensures forall t :: t in r ==> t == term || t in history
    ensures |Without(history, term)| < MaxHistory ==> forall t :: t in history ==> t in r
    ensures term !in history && |history| >= MaxHistory ==> r == [term] + history[..MaxHistory - 1]
    ensures NoDuplicates(history) ==> NoDuplicates(r)
  {
    PromoteFacts(history, term, MaxHistory);
    PromoteNoDuplicates(history, term, MaxHistory);
    if term !in history && |history| >= MaxHistory then PromoteOverflow(history, term, MaxHistory); Promote(history, term, MaxHistory)
    else Promote(history, term, MaxHistory)
  }

  /** The PostgREST filter `title.ilike.%q%,location.ilike.%q%`. */
  function SearchFilter(q: string): (f: string)
    ensures |f| == 2 * |q| + 32
  {
    "title.ilike.%" + q + "%,location.ilike.%" + q + "%"
  }

  /** The dropdown rule: shown while open, when the query has two characters or there is history to offer. */
  function DropdownShown(isOpen: bool, query: string, history: seq<string>): (shown: bool)
    ensures !isOpen ==> !shown
    ensures isOpen && history != [] ==> shown
    ensures isOpen && history == [] ==> (shown <==> |query| >= 2)
  {
    isOpen && (|query| >= 2 || |history| > 0)
  }

  class SearchBar {
    var query: string
    var results: seq<SearchResult>
    var history: seq<string>
    var isOpen: bool
    var isLoading: bool

    /** The component as mounted: `saved` is the history restored from storage, if any could be read. */
    constructor (saved: Option<seq<string>>)
      ensures query == "" && results == [] && !isOpen && !isLoading
      ensures history == saved.GetOr([])
    {
      query := "";
      results := [];
      history := if saved.Some? then saved.value else [];
      isOpen := false;
      isLoading := false;
    }

    predicate ShowDropdown()
      reads this
    {
      DropdownShown(isOpen, query, history)
    }

    /** Typing into the box. */
    method OnChange(value: string)
      modifies this
      ensures query == value
      ensures results == old(results) && history == old(history) && isOpen == old(isOpen) && isLoading == old(isLoading)
    {
      query := value;
    }

    /** Focusing the box opens the dropdown; a click outside closes it. */
    method SetOpen(open: bool)
      modifies this
      ensures isOpen == open
      ensures query == old(query) && results == old(results) && history == old(history) && isLoading == old(isLoading)
    {
      isOpen := open;
    }

    /**
     * The effect on a new debounced query: a trimmed query shorter than two
     * characters clears the results and searches nothing; any other query
     * goes to `PerformSearch`.
     */
    method OnDebouncedQuery(debounced: string, limiter: RateLimit.RateLimiter, now: int,
                            sanitizeText: Sanitize.Purifier, response: SearchResponse)
      returns (filter: Option<string>)
      requires limiter.Valid()
      modifies this`results, this`isOpen, this`isLoading, limiter
      ensures limiter.Valid()
      ensures |Trim(debounced)| < 2 ==>
        && filter.None? && results == [] && isOpen == old(isOpen) && isLoading == old(isLoading)
        && limiter.attempts == old(limiter.attempts)
      ensures |Trim(debounced)| >= 2 ==>
        var v := RateLimit.CheckStep(old(limiter.Lookup(SearchKey)), RateLimit.SearchConfig, now);
        && limiter.attempts == old(limiter.attempts)[SearchKey := v.entry]
        && (filter.Some? <==> v.allowed)
        && (!v.allowed ==> results == old(results) && isOpen == old(isOpen) && isLoading == old(isLoading))
        && (v.allowed ==> filter == Some(SearchFilter(Sanitize.SanitizeSearchQuery(debounced, sanitizeText))) && !isLoading)
    {
      if |Trim(debounced)| < 2 {
        results := [];
        return None;
      }
      filter := PerformSearch(debounced, limiter, now, sanitizeText, response);
    }

    /**
     * `performSearch`: the shared `search:global` key is checked against the
     * search configuration; a refusal changes nothing else, and an accepted
     * search sends the filter built from the sanitised query. `response` is
     * what the backend answers; it is not consulted when no search is made.
     */
    method PerformSearch(searchQuery: string, limiter: RateLimit.RateLimiter, now: int,
                         sanitizeText: Sanitize.Purifier, response: SearchResponse)
      returns (filter: Option<string>)
      requires limiter.Valid()
      modifies this`results, this`isOpen, this`isLoading, limiter
      ensures limiter.Valid()
      ensures var v := RateLimit.CheckStep(old(limiter.Lookup(SearchKey)), RateLimit.SearchConfig, now);
        && limiter.attempts == old(limiter.attempts)[SearchKey := v.entry]
        && (filter.Some? <==> v.allowed)
        && (!v.allowed ==> results == old(results) && isOpen == old(isOpen) && isLoading == old(isLoading))
        && (v.allowed ==>
             && filter == Some(SearchFilter(Sanitize.SanitizeSearchQuery(searchQuery, sanitizeText)))
             && !isLoading
             && (response.Failed? ==> results == old(results) && isOpen == old(isOpen))
             && (response.Rows? ==> results == Take(response.data.GetOr([]), MaxResults) && isOpen))
    {
      var allowed := limiter.Check(SearchKey, RateLimit.SearchConfig, now);
      if !allowed {
        return None;
      }
      isLoading := true;
      var sanitized := Sanitize.SanitizeSearchQuery(searchQuery, sanitizeText);
      filter := Some(SearchFilter(sanitized));
      if response.Rows? {
        results := Take(if response.data.Some? then response.data.value else [], MaxResults);
        isOpen := true;
      }
      isLoading := false;
    }

    /** `clearHistory`. */
    method ClearHistory()
      modifies this
      ensures history == []
      ensures query == old(query) && results == old(results) && isOpen == old(isOpen) && isLoading == old(isLoading)
    {
      history := [];
    }

    /** `handleClear`: empties the box and the results and closes the dropdown. */
    method HandleClear()
      modifies this
      ensures query == "" && results == [] && !isOpen
      ensures !ShowDropdown()
      ensures history == old(history) && isLoading == old(isLoading)
    {
      query := "";
      results := [];
      isOpen := false;
    }

    /** `handleResultClick`: records the current query in the history, empties and closes the box, and navigates to the listing's page. */
    method HandleResultClick(result: SearchResult) returns (path: string)
      modifies this
      ensures history == AddToHistory(old(history), old(query))
      ensures history[0] == old(query)
      ensures query == "" && !isOpen && !ShowDropdown()
      ensures results == old(results) && isLoading == old(isLoading)
      ensures path == "/property/" + IntString(result.id)
    {
      history := AddToHistory(history, query);
      query := "";
      isOpen := false;
      path := "/property/" + IntString(result.id);
    }

    /** `handleHistoryClick`: the term becomes the query and the dropdown opens. */
    method HandleHistoryClick(term: string)
      modifies this
      ensures query == term && isOpen
      ensures term in history ==> ShowDropdown()
      ensures history == old(history) && results == old(results) && isLoading == old(isLoading)
    {
      query := term;
      isOpen := true;
    }
  }
}
