# APPokedex core, modelled in Dafny

APPokedex is a React Native catalogue browser for the public Pokémon API. This
project models the logic of four of its files. Rendering, networking and
storage are left out.

- **Favorites store** (`src/context/FavoritesContext.js`, module `Favorites`).
  It keeps an ordered list of `{id, name, url}` records in memory.
  `isFavorite` is a strict-equality membership test. `toggleFavorite` removes
  every record with the toggled id, or appends the record if the id is absent.
  It then writes the new list to storage, and a failed write is not rolled
  back. The list operations are functions. `Favorites.Store` holds the
  `favorites` cell and a ghost `stored` field, which mirrors the storage
  entry.
- **Home list controller** (`src/screens/HomeScreen.js`, module `Home`).
  Seven state cells drive three browsing modes: paging, search and type
  filter. The handlers are `loadPokemon`, `handleSearch`, `handleTypeSelect`
  and `resetList`.
  - Each handler is one sequential step against a `PokeApi.Client`, a record
    of three total functions that give the answer to each request.
  - `Home.After…` says which state a handler leaves.
  - The methods of `Home.HomeScreen` update the cells in the source's order.
    Each method is proved to leave exactly that state.
  - Lemmas prove the mode invariant and the catalogue scenarios: two pages,
    a search, a type filter, clearing a search, and failures.
- **String helpers** (`src/utils/helpers.js`, module `Helpers`).
  - `getPokemonIdFromUrl` is split, filter and last. It is proved equal to a
    right-to-left reference reading, and to round-trip with the URL template
    the screens build.
  - `formatPokemonId` is modelled together with `String(id)` and
    `padStart`.
  - `capitalize` is modelled, with ASCII case mapping.
  - The search box's `trim` test and its lower-casing are modelled here too.
- **Details screen** (`src/screens/DetailsScreen.js`, module `Details`). It
  covers the stat relabelling, the favorite record built from a detail, the
  theming type and the spinner/blank/detail view. `Details.DetailsScreen`
  holds the `details` and `loading` cells, with `loadDetails` and
  `handleToggleFavorite`.

Ids exist in two forms. Ids read out of URLs are strings. Ids taken from a
detail are numbers. `Helpers.Id` keeps the two kinds apart (`Num` and `Str`),
because the source compares them with `===`. The resulting defect is under
Findings.

Worth knowing about the code, and modelled as it is:
- A page always advances `offset` by 20, whatever the number of entries
  returned.
- A failed type-filter fetch keeps the previous list on screen.
- A failed search leaves `hasMore` unchanged; only a successful one clears it.

## Model

| member | source | states |
|---|---|---|
| Helpers.Split | src/utils/helpers.js:2 | `url.split('/')` gives at least one piece, and no piece holds a slash |
| Helpers.JoinSplit | src/utils/helpers.js:2 | joining the pieces with `/` gives back the original string |
| Helpers.SplitSnocSlash | src/utils/helpers.js:2 | a trailing slash adds exactly one empty piece at the end |
| Helpers.SplitSnocChar | src/utils/helpers.js:2 | any other trailing character extends the last piece |
| Helpers.Compact | src/utils/helpers.js:2 | `filter(Boolean)` keeps exactly the non-empty pieces and never adds any |
| Helpers.CompactAppend | src/utils/helpers.js:2 | the filter distributes over concatenation, so order is kept |
| Helpers.GetPokemonIdFromUrl | src/utils/helpers.js:1-4 | the result is undefined (`None`) exactly when the URL holds only slashes; otherwise it is a non-empty, slash-free segment |
| Helpers.DropTrailingSlashes | src/utils/helpers.js:1-4 | the reference reading removes exactly the slashes at the end of the URL |
| Helpers.TrailingRun | src/utils/helpers.js:1-4 | the reference reading takes the longest slash-free run at the end of the URL |
| Helpers.LastPieceIsTrailingRun | src/utils/helpers.js:2-3 | the last piece of the split is the slash-free run the string ends with |
| Helpers.GetIdIsLastSegment | src/utils/helpers.js:1-4 | split-filter-last agrees on every URL with the right-to-left reference reading |
| Helpers.EndSlashSameSegment | src/utils/helpers.js:1-4 | a slash at the end of a URL changes neither the kept pieces nor the reference reading |
| Helpers.EndCharSegment | src/utils/helpers.js:1-4 | when a URL ends in a character other than a slash, the last kept piece is the reference reading's segment |
| Helpers.TrailingSlashIgnored | src/utils/helpers.js:1-4 | appending a slash does not change the id read from a URL |
| Helpers.LastPieceAfterSlash | src/utils/helpers.js:1-4 | the text after the last slash is the id, whatever comes before it |
| Helpers.PokemonUrl | src/screens/HomeScreen.js:67 | the pokemon URL template is the base, a slash, the id and a slash |
| Helpers.UrlRoundTrip | src/screens/HomeScreen.js:67 | reading the id back out of `https://pokeapi.co/api/v2/pokemon/${id}/` gives `id`, for any non-empty slash-free id |
| Helpers.NatToString | src/utils/helpers.js:7 | `String(n)` is a non-empty digit string with no leading zero except for 0 itself |
| Helpers.NatToStringRoundTrip | src/utils/helpers.js:7 | reading the decimal digits back gives the number |
| Helpers.NatToStringInjective | src/utils/helpers.js:7 | different numbers have different decimal forms |
| Helpers.IntToString | src/utils/helpers.js:7 | `String(n)` holds no slash, and starts with a minus sign exactly for negatives |
| Helpers.IdString | src/utils/helpers.js:7 | `String(id)` (and `${id}` in a URL, src/screens/DetailsScreen.js:31) is the string itself for a string id; for a numeric id it is a non-empty, slash-free decimal form that starts with a minus sign exactly for negatives |
| Helpers.IntToStringInjective | src/utils/helpers.js:7 | `String(a) == String(b)` only when `a == b` |
| Helpers.PadStart | src/utils/helpers.js:7 | `padStart` reaches `max(width, length)`, ends with the input, fills only with the pad character, and never truncates |
| Helpers.FormatPokemonId | src/utils/helpers.js:6-8 | the result is `#`, then zeros, then `String(id)`, with length `1 + max(3, len(String(id)))` |
| Helpers.ToUpperChar | src/utils/helpers.js:12 | upper-casing maps a lower-case ASCII letter to the capital of the same letter (same offset from `A` as from `a`), which lower-cases back to it, and leaves every other character alone |
| Helpers.ToLowerChar | src/screens/HomeScreen.js:62 | lower-casing maps a capital ASCII letter to the small letter at the same offset from `a` and leaves every other character alone |
| Helpers.Capitalize | src/utils/helpers.js:10-13 | empty input gives `''`; otherwise the length is kept, a lower-case first letter becomes the capital of the same letter, any other first character is kept, and the rest is unchanged |
| Helpers.CapitalizeIdempotent | src/utils/helpers.js:10-13 | capitalising twice is capitalising once |
| Helpers.ToLower | src/screens/HomeScreen.js:62 | `toLowerCase` keeps the length and lower-cases character by character: each capital becomes its own small letter, every other character is kept, and no capital is left |
| Helpers.ToLowerIdempotent | src/screens/HomeScreen.js:62 | lower-casing twice is lower-casing once |
| Helpers.TrimStart | src/screens/HomeScreen.js:52 | removes exactly the leading white space and leaves a suffix |
| Helpers.TrimEnd | src/screens/HomeScreen.js:52 | removes exactly the trailing white space and leaves a prefix |
| Helpers.Trim | src/screens/HomeScreen.js:52 | `query.trim()` is no longer than the query, and a non-empty result starts and ends with a character that is not white space |
| Helpers.BlankIffWhiteSpace | src/screens/HomeScreen.js:52 | `!query.trim()` holds exactly when every character is white space |
| Favorites.IsFavoriteIn | src/context/FavoritesContext.js:45-47 | true exactly when some record's id is strictly equal to the given id |
| Favorites.RemoveId | src/context/FavoritesContext.js:37 | the filtered list holds exactly the records whose id differs, and is no longer than before |
| Favorites.RemoveIdAppend | src/context/FavoritesContext.js:37 | filtering distributes over concatenation, so survivors keep their relative order |
| Favorites.RemoveAbsentId | src/context/FavoritesContext.js:36-37 | filtering out an id that no record has leaves the list unchanged |
| Favorites.RemoveIdKeepsUnique | src/context/FavoritesContext.js:37 | filtering a list with unique ids leaves unique ids |
| Favorites.Toggled | src/context/FavoritesContext.js:34-40 | membership of the toggled id flips; a present id removes every record with it; an absent id appends the record after the unchanged list |
| Favorites.ToggleLeavesOtherIds | src/context/FavoritesContext.js:36-40 | toggling one record leaves the membership of every other id unchanged |
| Favorites.ToggleTwiceRestores | src/context/FavoritesContext.js:36-40 | from a list without `p.id`, toggling `p` twice gives back the original list |
| Favorites.ToggleKeepsUnique | src/context/FavoritesContext.js:36-40 | unique ids before a toggle stay unique after it |
| Favorites.TogglesFollowParity | src/context/FavoritesContext.js:34-43 | after n toggles of one record, the list is the original for even n and the original plus the record for odd n |
| Favorites.ToggleAlternates | src/context/FavoritesContext.js:36-40 | starting from a list without the id, one toggle moves between that list and the list with the record appended |
| Favorites.PresenceFollowsParity | src/context/FavoritesContext.js:34-47 | after n toggles the id is a favorite exactly when n is odd |
| Favorites.Store.constructor | src/context/FavoritesContext.js:7-8 | the provider starts with an empty list, and storage is as earlier sessions left it |
| Favorites.Store.IsFavorite | src/context/FavoritesContext.js:45-47 | `isFavorite(id)` holds exactly when a record in the current list has that id |
| Favorites.Store.LoadFavorites | src/context/FavoritesContext.js:14-23 | a present stored list replaces the in-memory list; a missing entry or a read/parse failure leaves the list as it was |
| Favorites.Store.SaveFavorites | src/context/FavoritesContext.js:25-32 | a successful write makes storage hold the new list; a failed write leaves storage as it was and raises the alert |
| Favorites.Store.ToggleFavorite | src/context/FavoritesContext.js:34-43 | the new list is the toggled list and the id's membership flips; storage then holds the new list when the write succeeds, and a failed write does not roll the list back |
| Home.Filtering | src/screens/HomeScreen.js:36 | truthiness of `selectedType`: `null` and `''` are falsy, and a truthy type is a non-empty string |
| Home.IsBlank | src/screens/HomeScreen.js:52 | `!searchQuery.trim()` holds exactly when the query is made of white space only |
| Home.LoadBlocked | src/screens/HomeScreen.js:36 | the early return of `loadPokemon` fires while searching or filtering by type, and a load goes ahead only when nothing is loading and `hasMore` is set |
| Home.SummaryOf | src/screens/HomeScreen.js:65-68 | the search entry keeps the detail's name, and its URL reads back as the detail's id |
| Home.AfterLoadPokemon | src/screens/HomeScreen.js:35-49 | a blocked load changes nothing. Otherwise a page is appended after the existing list, `offset` grows by 20, and `hasMore` turns false when there is no `next`. A failure keeps list, offset and hasMore, and `loading` ends false |
| Home.AfterReset | src/screens/HomeScreen.js:102-121 | clears search and type but keeps the query; success gives page 1, offset 20 and `hasMore = !!next`; failure gives an empty list, offset 0 and hasMore true |
| Home.AfterLookup | src/screens/HomeScreen.js:57-76 | searching is on and the type cleared; success shows exactly the found entry with paging off; failure shows an empty list |
| Home.AfterSearch | src/screens/HomeScreen.js:51-77 | nothing is left loading and the query is kept; searching is on exactly when the query is not blank; the type is always cleared |
| Home.AfterTypeSelect | src/screens/HomeScreen.js:79-100 | the query is cleared and search is off. A falsy type is a reset. A real type sets the type, offset 0 and hasMore false, and shows the fetched list, or keeps the old list on failure |
| Home.HandlersKeepConsistent | src/screens/HomeScreen.js:35-121 | from a consistent state every handler keeps searching and filtering exclusive, ends with nothing loading, keeps offset on a page boundary and keeps paging off under a filter |
| Home.TwoPagesAppendInOrder | src/screens/HomeScreen.js:40-43 | two full pages from the start give 40 entries in arrival order and offset 40 |
| Home.SearchShowsOneEntry | src/screens/HomeScreen.js:63-70 | a found search shows one entry whose URL reads back as the found id, and further paging is blocked |
| Home.TypeFilterStopsPaging | src/screens/HomeScreen.js:80-84 | after a type is chosen, `loadPokemon` is blocked and changes nothing |
| Home.ClearingSearchRefetchesFirstPage | src/screens/HomeScreen.js:52-55 | submitting an empty query after a search shows page 1 at offset 20 and leaves search mode |
| Home.FailuresByMode | src/screens/HomeScreen.js:44-73 | a failed page keeps the list shown; a failed search empties it |
| Home.HomeScreen.constructor | src/screens/HomeScreen.js:12-19 | the cells start empty, not loading, at offset 0, with paging on, no query, no type and no search |
| Home.HomeScreen.ChangeQuery | src/screens/HomeScreen.js:141 | typing changes only `searchQuery` |
| Home.HomeScreen.LoadPokemon | src/screens/HomeScreen.js:35-49 | the cells end as `AfterLoadPokemon` of the old cells; `alerted` is set exactly when an unblocked load fails (the alert at :45) |
| Home.HomeScreen.ResetList | src/screens/HomeScreen.js:102-121 | the cells end as `AfterReset` of the old cells; `alerted` is set exactly when the first page fails (the alert at :119) |
| Home.HomeScreen.HandleSearch | src/screens/HomeScreen.js:51-77 | the cells end as `AfterSearch` of the old cells; `alerted` is set exactly when the reset (blank query) or the lookup (any other query) fails |
| Home.HomeScreen.Lookup | src/screens/HomeScreen.js:57-76 | the cells end as `AfterLookup` of the old cells; `alerted` is set exactly when the lower-cased lookup fails (the alert at :73) |
| Home.HomeScreen.HandleTypeSelect | src/screens/HomeScreen.js:79-100 | the cells end as `AfterTypeSelect` of the old cells; `alerted` is set exactly when the type fetch (the alert at :96) or, for a falsy type, the reset fails |
| Details.StatLabel | src/screens/DetailsScreen.js:144 | `special-attack` becomes `Sp. Atk` and `special-defense` becomes `Sp. Def`; the label differs from the name for those two names only |
| Details.StatRows | src/screens/DetailsScreen.js:141-148 | one row per stat, in order, with the relabelled name and the base value |
| Details.FavoriteRecordFor | src/screens/DetailsScreen.js:60-64 | the record has the numeric id and the name of the detail, and its URL reads back as the id's decimal string |
| Details.MainType | src/screens/DetailsScreen.js:78 | the theming type is the first entry of a non-empty types list |
| Details.ViewOf | src/screens/DetailsScreen.js:68-76 | spinner exactly while loading; blank exactly when loaded without a detail; otherwise the detail |
| Details.Heart | src/screens/DetailsScreen.js:18 | the heart is on exactly when a stored record's id is strictly equal to the route's id |
| Details.HeartMissesFavoriteOpenedFromList | src/screens/DetailsScreen.js:18 | after favoriting a Pokémon, opening it from the home list (string id) still shows an empty heart |
| Details.HeartByKey | src/screens/DetailsScreen.js:18 | corrected heart: on exactly when a stored id has the same decimal text as the route id |
| Details.HeartByKeyMatchesStore | src/screens/DetailsScreen.js:18 | with numeric stored ids, the corrected heart agrees with the store's membership for both kinds of route id |
| Details.DetailsScreen.constructor | src/screens/DetailsScreen.js:12-14 | the screen starts with no detail and the spinner on |
| Details.DetailsScreen.CurrentView | src/screens/DetailsScreen.js:68-76 | the detail is shown exactly when loading is over and a detail is present |
| Details.DetailsScreen.LoadDetails | src/screens/DetailsScreen.js:29-39 | loading ends in both cases; success stores the detail; failure keeps `details` as it was, raises the alert (`alerted`) and goes back |
| Details.DetailsScreen.HandleToggleFavorite | src/screens/DetailsScreen.js:57-66 | nothing happens without a detail; otherwise the store toggles the record built from it, and that id's membership flips; `alerted` is set exactly when a detail is present and the storage write fails |

## Left out

- src/api/pokeapi.js: the HTTP wrappers. Each endpoint is a total function in `PokeApi.Client` that returns `Ok` or `Failed`. Transport errors and "not found" are one failure, as in the source.
- AsyncStorage, `JSON.stringify` and `JSON.parse`: the read is the `LoadOutcome` parameter of `LoadFavorites`. The write is the ghost `stored` field, with a `saved` flag for its success.
- `Alert.alert` and `navigation.goBack`: each handler that can alert returns `alerted`, and `wentBack` records going back. The wording of the alerts and the informational alert of `playSound` (src/screens/DetailsScreen.js:50) are not modelled.
- `console.error` logging (src/context/FavoritesContext.js:21 and :29, src/screens/HomeScreen.js:31, src/screens/DetailsScreen.js:53): no effect on state.
- `loadTypes` and the `types` cell (src/screens/HomeScreen.js:26-33): it only stores a fetched list.
- The `useEffect` mount calls (`loadPokemon` on the home screen, `loadDetails` on the details screen): a client calls the handler after the constructor.
- Home.HomeScreen.LoadPokemon: each handler is one step, so no request is ever in flight on entry. The `loading` guard is kept but is always false there. Concurrent requests, stale closures and late responses are not modelled.
- `playSound`, the `sound` cell and its unloading (expo-av): a foreign audio resource.
- Weight and height divided by 10, and the StatBar percentage: floating-point display maths.
- The type colours (`colors.types[mainType] || colors.primary`): src/theme/colors.js is not part of this model.
- Helpers.Capitalize: case mapping covers the ASCII letters only; Unicode case rules are not modelled. Non-string falsy arguments (`null`, `undefined`) are represented by the empty string.
- Helpers.ToLower: ASCII case mapping only, for the same reason.
- Helpers.IntToString: `String(id)` is modelled for integers only, always in plain decimal. JavaScript switches to exponent notation from 1e21 on, and fractional and non-finite numbers print differently; none of these occurs as a Pokémon id.
- Presentation-only files: PokemonCard, TypeFilter, SearchBar, StatBar, FavoritesScreen, the navigator and App.js. Their id handling is covered by the `Id` type and by `Details.Heart`.

## Findings

| source | as written | input that shows it | evidently intended | confidence | as-written member | corrected member |
|---|---|---|---|---|---|---|
| src/screens/DetailsScreen.js:18 | the heart calls `isFavorite(pokemonId)` with the route id. From the home list that id is the string cut out of the URL (src/screens/HomeScreen.js:133), while stored favorites carry the numeric `details.id`; `===` never matches them. The list cards (src/screens/HomeScreen.js:164) have the same mismatch | favorite Pokémon 25 on its details screen, then open it from the home list: route id `"25"`, stored id `25`, heart empty | the heart shows whether this Pokémon is a favorite, whichever kind of id the screen was opened with | high, not executed | Details.HeartMissesFavoriteOpenedFromList | Details.HeartByKey |
