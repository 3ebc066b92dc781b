/**
 * The list controller of src/screens/HomeScreen.js: seven state cells that
 * drive three browsing modes (paging through the catalogue, a search for one
 * name or number, and a filter by type).
 *
 * Each handler runs as one sequential step against a `Client` whose answers
 * are given. The `After…` functions say what state each handler leaves;
 * `HomeScreen` holds the cells and updates them in the order the handlers do,
 * and each of its methods is proved to leave the state its function names.
 */
module Home {
  import opened Wrappers
  import opened Helpers
  import opened PokeApi

  /** The values of the seven `useState` cells (`types` is not modelled). */
  datatype HomeState = HomeState(
    pokemonList: seq<Summary>,
    loading: bool,
    offset: nat,
    hasMore: bool,
    searchQuery: string,
    selectedType: Option<string>,
    isSearching: bool)

  /** The cells as the first render sets them up. */
  const Initial: HomeState := HomeState([], false, 0, true, "", None, false)

  /** Truthiness of `selectedType`: `null` and `''` are both falsy. */
  predicate Filtering(selectedType: Option<string>): (b: bool)
    ensures selectedType == None || selectedType == Some("") ==> !b
    ensures b ==> selectedType.Some? && |selectedType.value| > 0
  {
    selectedType.Some? && selectedType.value != ""
  }

  /** `!searchQuery.trim()` */
  predicate IsBlank(query: string): (b: bool)
    ensures b <==> forall i :: 0 <= i < |query| ==> IsWhiteSpace(query[i])
  {
    BlankIffWhiteSpace(query);
    Trim(query) == ""
  }

  /** The guard that makes `loadPokemon` return at once. */
  predicate LoadBlocked(s: HomeState): (b: bool)
    ensures s.isSearching || Filtering(s.selectedType) ==> b
    ensures !b ==> !s.loading && s.hasMore
  {
    s.loading || !s.hasMore || s.isSearching || Filtering(s.selectedType)
  }

  /**
   * What holds between two handlers: never searching and filtering at once,
   * never a falsy-but-set type, no request in flight, the cursor on a page
   * boundary, and no paging while a type filter is on.
   */
  predicate Consistent(s: HomeState) {
    && !(s.isSearching && Filtering(s.selectedType))
    && s.selectedType != Some("")
    && !s.loading
    && s.offset % PageSize == 0
    && (Filtering(s.selectedType) ==> !s.hasMore)
  }

  /** The list entry built from a detail: its name and its pokemon URL. */
  function SummaryOf(d: Detail): (e: Summary)
    ensures e.name == d.name
    ensures GetPokemonIdFromUrl(e.url) == Some(IntToString(d.id))
  {
    UrlRoundTrip(IntToString(d.id));
    Summary(d.name, PokemonUrl(IntToString(d.id)))
  }

  /** `loadPokemon()`: fetch the next page of 20 and append it. */
  function AfterLoadPokemon(s: HomeState, api: Client): (r: HomeState)
    ensures LoadBlocked(s) ==> r == s
    ensures r.searchQuery == s.searchQuery && r.selectedType == s.selectedType
    ensures r.isSearching == s.isSearching
    ensures !LoadBlocked(s) ==> !r.loading
    ensures |r.pokemonList| >= |s.pokemonList| && r.pokemonList[..|s.pokemonList|] == s.pokemonList
    ensures r.hasMore ==> s.hasMore
    ensures !LoadBlocked(s) ==>
      match api.list(PageSize, s.offset)
      case Ok(page) =>
        && r.pokemonList[|s.pokemonList|..] == page.results
        && r.offset == s.offset + PageSize
        && (r.hasMore <==> page.hasNext)
      case Failed =>
        r.pokemonList == s.pokemonList && r.offset == s.offset && r.hasMore == s.hasMore
  {
    if LoadBlocked(s) then s
    else
      match api.list(PageSize, s.offset)
      case Ok(page) =>
        s.(pokemonList := s.pokemonList + page.results,
           offset := s.offset + PageSize,
           hasMore := if page.hasNext then s.hasMore else false)
      case Failed => s
  }

  /** `resetList()`: back to paging, with a fresh first page. The query is kept. */
  function AfterReset(s: HomeState, api: Client): (r: HomeState)
    ensures !r.loading && !r.isSearching && r.selectedType == None
    ensures r.searchQuery == s.searchQuery
    ensures match api.list(PageSize, 0)
      case Ok(page) => r.pokemonList == page.results && r.offset == PageSize && r.hasMore == page.hasNext
      case Failed => r.pokemonList == [] && r.offset == 0 && r.hasMore
  {
    var cleared := s.(pokemonList := [], offset := 0, hasMore := true, isSearching := false,
                      selectedType := None, loading := true);
    match api.list(PageSize, 0)
    case Ok(page) =>
      cleared.(pokemonList := page.results, offset := PageSize, hasMore := page.hasNext, loading := false)
    case Failed => cleared.(loading := false)
  }

  /** The lookup `handleSearch()` makes for a query that is not blank. */
  function AfterLookup(s: HomeState, api: Client): (r: HomeState)
    ensures !r.loading && r.searchQuery == s.searchQuery
    ensures r.isSearching && r.selectedType == None && r.offset == s.offset
    ensures match api.details(ToLower(s.searchQuery))
      case Ok(d) => r.pokemonList == [SummaryOf(d)] && !r.hasMore
      case Failed => r.pokemonList == [] && r.hasMore == s.hasMore
  {
    var searching := s.(loading := true, isSearching := true, selectedType := None);
    match api.details(ToLower(s.searchQuery))
    case Ok(d) => searching.(pokemonList := [SummaryOf(d)], hasMore := false, loading := false)
    case Failed => searching.(pokemonList := [], loading := false)
  }

  /**
   * `handleSearch()`: a blank query resets the list; any other query looks
   * one Pokémon up by its lower-cased text and shows it alone.
   */
  function AfterSearch(s: HomeState, api: Client): (r: HomeState)
    ensures !r.loading && r.searchQuery == s.searchQuery
    ensures r.isSearching <==> !IsBlank(s.searchQuery)
    ensures r.selectedType == None
  {
    if IsBlank(s.searchQuery) then AfterReset(s, api) else AfterLookup(s, api)
  }

  /**
   * `handleTypeSelect(type)`: clear the query and the cursor, stop paging,
   * then show every Pokémon of that type; a falsy type resets the list.
   */
  function AfterTypeSelect(s: HomeState, t: Option<string>, api: Client): (r: HomeState)
    ensures !r.loading && !r.isSearching && r.searchQuery == ""
    ensures !Filtering(t) ==> r == AfterReset(s.(searchQuery := ""), api)
    ensures Filtering(t) ==>
      && r.selectedType == t && r.offset == 0 && !r.hasMore
      && r.pokemonList == match api.byType(t.value)
                          case Ok(list) => list
                          case Failed => s.pokemonList
  {
    var switched := s.(selectedType := t, searchQuery := "", offset := 0, hasMore := false,
                       isSearching := false);
    if !Filtering(t) then AfterReset(switched, api)
    else
      match api.byType(t.value)
      case Ok(list) => switched.(pokemonList := list, loading := false)
      case Failed => switched.(loading := false)
  }

  /** Every handler, whatever the answers, keeps the modes apart and ends with nothing loading. */
  lemma HandlersKeepConsistent(s: HomeState, t: Option<string>, q: string, api: Client)
    requires Consistent(s)
    ensures Consistent(Initial)
    ensures Consistent(AfterLoadPokemon(s, api))
    ensures Consistent(AfterReset(s, api))
    ensures Consistent(AfterSearch(s, api))
    ensures Consistent(AfterTypeSelect(s, t, api))
    ensures Consistent(s.(searchQuery := q))
  {
  }

  /** Two full pages from the start: 40 entries in arrival order, cursor at 40. */
  lemma TwoPagesAppendInOrder(api: Client, p1: Page, p2: Page)
    requires api.list(PageSize, 0) == Ok(p1) && p1.hasNext
    requires api.list(PageSize, PageSize) == Ok(p2)
    requires |p1.results| == PageSize && |p2.results| == PageSize
    ensures var r := AfterLoadPokemon(AfterLoadPokemon(Initial, api), api);
      && r.pokemonList == p1.results + p2.results
      && |r.pokemonList| == 40
      && r.offset == 40
      && r.hasMore == p2.hasNext
  {
    var r1 := AfterLoadPokemon(Initial, api);
    assert r1.pokemonList == p1.results;
  }

  /** A successful search shows one entry whose URL reads back as the found id, and stops paging. */
  lemma SearchShowsOneEntry(s: HomeState, api: Client, d: Detail)
    requires !IsBlank(s.searchQuery)
    requires api.details(ToLower(s.searchQuery)) == Ok(d)
    ensures var r := AfterSearch(s, api);
      && |r.pokemonList| == 1
      && r.pokemonList[0].name == d.name
      && GetPokemonIdFromUrl(r.pokemonList[0].url) == Some(IntToString(d.id))
      && !r.hasMore
      && LoadBlocked(r)
  {
  }

  /** After a type is chosen, scrolling to the end loads nothing more. */
  lemma TypeFilterStopsPaging(s: HomeState, t: Option<string>, api: Client)
    requires Filtering(t)
    ensures var r := AfterTypeSelect(s, t, api);
      LoadBlocked(r) && AfterLoadPokemon(r, api) == r
  {
  }

  /** Submitting an empty query after a search goes back to the first page, dropping the result. */
  lemma ClearingSearchRefetchesFirstPage(s: HomeState, api: Client, page: Page)
    requires s.isSearching
    requires api.list(PageSize, 0) == Ok(page)
    ensures var r := AfterSearch(s.(searchQuery := ""), api);
      && r.pokemonList == page.results
      && r.offset == PageSize
      && !r.isSearching && r.selectedType == None
  {
    BlankIffWhiteSpace("");
  }

  /** A failed page keeps what was shown; a failed search shows nothing. */
  lemma FailuresByMode(s: HomeState, api: Client)
    requires !LoadBlocked(s) && api.list(PageSize, s.offset) == Failed
    requires !IsBlank(s.searchQuery) && api.details(ToLower(s.searchQuery)) == Failed
    ensures AfterLoadPokemon(s, api).pokemonList == s.pokemonList
    ensures AfterSearch(s, api).pokemonList == []
  {
  }

  /** The screen: the seven cells as fields. */
  class HomeScreen {
    var pokemonList: seq<Summary>
    var loading: bool
    var offset: nat
    var hasMore: bool
    var searchQuery: string
    var selectedType: Option<string>
    var isSearching: bool

    /** The current values of the cells. */
    function State(): HomeState
      reads this
    {
      HomeState(pokemonList, loading, offset, hasMore, searchQuery, selectedType, isSearching)
    }

    /** The first render: every cell at its initial value. */
    constructor ()
      ensures State() == Initial
    {
      pokemonList, loading, offset, hasMore := [], false, 0, true;
      searchQuery, selectedType, isSearching := "", None, false;
    }

    /** `setSearchQuery`, wired to the search bar's text changes. */
    method ChangeQuery(q: string)
      modifies this
      ensures State() == old(State()).(searchQuery := q)
    {
      searchQuery := q;
    }

    /** `loadPokemon()`; `alerted` reports the error alert of a failed page. */
    method LoadPokemon(api: Client) returns (alerted: bool)
      modifies this
      ensures State() == AfterLoadPokemon(old(State()), api)
      ensures alerted <==> !LoadBlocked(old(State())) && api.list(PageSize, old(offset)).Failed?
    {
      alerted := false;
      if loading || !hasMore || isSearching || Filtering(selectedType) {
        return;
      }
      loading := true;
      match api.list(PageSize, offset) {
        case Ok(page) =>
          pokemonList := pokemonList + page.results;
          offset := offset + PageSize;
          if !page.hasNext {
            hasMore := false;
          }
        case Failed =>
          alerted := true;
      }
      loading := false;
    }

    /** `resetList()`; `alerted` reports the error alert of a failed first page. */
    method ResetList(api: Client) returns (alerted: bool)
      modifies this
      ensures State() == AfterReset(old(State()), api)
      ensures alerted <==> api.list(PageSize, 0).Failed?
    {
      alerted := false;
      pokemonList := [];
      offset := 0;
      hasMore := true;
      isSearching := false;
      selectedType := None;
      loading := true;
      match api.list(PageSize, 0)
      case Ok(page) =>
        pokemonList := page.results;
        offset := PageSize;
        hasMore := page.hasNext;
        loading := false;
      case Failed =>
        loading := false;
        alerted := true;
    }

    /**
     * `handleSearch()`; `alerted` reports the alert of a failed reset or of a
     * lookup that found nothing.
     */
    method HandleSearch(api: Client) returns (alerted: bool)
      modifies this
      ensures State() == AfterSearch(old(State()), api)
      ensures alerted <==> if IsBlank(old(searchQuery)) then api.list(PageSize, 0).Failed?
                           else api.details(ToLower(old(searchQuery))).Failed?
    {
      if IsBlank(searchQuery) {
        alerted := ResetList(api);
        return;
      }
      alerted := Lookup(api);
    }

    /** The part of `handleSearch()` after the blank-query test. */
    method Lookup(api: Client) returns (alerted: bool)
      modifies this
      ensures State() == AfterLookup(old(State()), api)
      ensures alerted <==> api.details(ToLower(old(searchQuery))).Failed?
    {
      alerted := false;
      loading := true;
      isSearching := true;
      selectedType := None;
      var query := ToLower(searchQuery);
      match api.details(query) {
        case Ok(d) =>
          pokemonList := [SummaryOf(d)];
          hasMore := false;
        case Failed =>
          pokemonList := [];
          alerted := true;
      }
      loading := false;
    }

    /** `handleTypeSelect(type)`; `alerted` reports the alert of a failed fetch. */
    method HandleTypeSelect(t: Option<string>, api: Client) returns (alerted: bool)
      modifies this
      ensures State() == AfterTypeSelect(old(State()), t, api)
      ensures alerted <==> if Filtering(t) then api.byType(t.value).Failed?
                           else api.list(PageSize, 0).Failed?
    {
      selectedType := t;
      searchQuery := "";
      offset := 0;
      hasMore := false;
      isSearching := false;
      if !Filtering(t) {
        alerted := ResetList(api);
        return;
      }
      alerted := false;
      loading := true;
      match api.byType(t.value) {
        case Ok(list) =>
          pokemonList := list;
        case Failed =>
          alerted := true;
      }
      loading := false;
    }
  }
}
