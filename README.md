# Movie-Hub core, modelled in Dafny

Movie-Hub is a movie-catalog front end. This project models the parts of it
that are logic, not rendering or HTTP:

- the favorites hook, a list of movies kept in local storage under
  `moviehub:favorites` and toggled by id (`Favorites`);
- the watch-list store (`Watchlist`);
- the search page: how mixed movie, TV and person results are normalised and
  filtered, the `results`/`error`/`isLoading` transitions of a search, and
  query submission (`Search`);
- trailer selection and the watch-page URL (`Trailer`);
- the country key table (`Countries`);
- the navigation bar: which links and menus are active, and the
  menu/mobile-panel state machine (`Navbar`);
- the Redux movie slice, with its reducers and the endpoint each catalog thunk
  asks for (`MovieSlice`).

Three modules support them. `Wrappers` holds `Option` and `Result`, and
`Coalesce` models JavaScript's `??`. `Text` holds `trim`, using the
ECMA-262 white-space set, plus `startsWith` and the decimal rendering of
integers in template literals. `Keyed` holds the filter-by-id on lists, which
the favorites and the watch list share.

Parts that change state in place are classes whose methods are specified
against pure functions:

- `Favorites.Storage`, `Favorites.Window` (the storage, the codec and the
  listening hooks, with the update event's dispatch) and
  `Favorites.FavoritesHook`;
- `Watchlist.WatchlistStore`;
- `Search.SearchPage`;
- `Navbar.NavbarState`;
- `MovieSlice.MoviesState`.

The lemmas prove properties of those pure functions:

- `Favorites.Toggled`;
- `Keyed.WithoutKey`;
- `Search.Normalize` and `Search.SearchResults`;
- `Trailer.PlayTrailer`;
- `MovieSlice.Reduce`.

Outside effects are inputs and outputs of the model:

- Each HTTP exchange is an input value: a network failure, or a response with
  an `ok` flag and a body.
- `JSON.parse` and `JSON.stringify` are function parameters. A statement
  about what is read back after a write assumes that the list written
  round-trips (`Favorites.RoundTrips`); nothing is assumed of other lists.
- `encodeURIComponent` is a function parameter.
- The API key from the environment is a string parameter.
- `window.open`, `alert` and `router.push` become returned values.

## Model

| member | source | states |
|---|---|---|
| Favorites.ReadFavorites | src/hooks/useFavorites.ts:12-19 | a non-empty result comes only from a present, non-empty value that parses to that array; a present, non-empty value that parses to an array yields exactly that array; every other case yields the empty list |
| Favorites.ReadAfterWrite | src/hooks/useFavorites.ts:22-24 | reading back what `writeFavorites` stored gives the list that was written, when that list round-trips through the codec |
| Favorites.Toggled | src/hooks/useFavorites.ts:50-51 | the toggled list is at most one entry longer and holds only the movie and entries of the stored list |
| Favorites.ToggleAbsent | src/hooks/useFavorites.ts:49-51 | toggling a movie whose id is absent puts it in front of the unchanged stored list |
| Favorites.TogglePresent | src/hooks/useFavorites.ts:50-51 | toggling a present id leaves no entry with that id, keeps every other entry as often as it occurred, and keeps their order (the filter distributes over any split) |
| Favorites.ToggleFlips | src/hooks/useFavorites.ts:50-51 | a toggle flips whether the movie's id is in the list and leaves every other id's presence as it was |
| Favorites.ToggleTwice | src/hooks/useFavorites.ts:51 | toggling the same movie twice from a list without its id gives back that list |
| Favorites.ToggleKeepsDistinct | src/hooks/useFavorites.ts:51 | a list without duplicate ids keeps that property through a toggle |
| Favorites.SampleCodec | src/hooks/useFavorites.ts:24 | a codec that round-trips the empty list and a one-movie list exists, so the scenario's assumption can be met |
| Favorites.Storage.GetItem | src/hooks/useFavorites.ts:13 | `getItem` returns something exactly for a key that has been set, and then the text stored under it |
| Favorites.Storage.SetItem | src/hooks/useFavorites.ts:24 | after `setItem` a read of the key gives the new value, every other key reads as before, and only that key's entry changes |
| Favorites.Window.constructor | src/hooks/useFavorites.ts:35-36 | a window starts with no favorites listeners |
| Favorites.Window.AddListener | src/hooks/useFavorites.ts:36 | `addEventListener` adds the hook's `sync` to the listeners, once |
| Favorites.Window.RemoveListener | src/hooks/useFavorites.ts:40 | `removeEventListener` takes the hook's `sync` out of the listeners |
| Favorites.Window.DispatchUpdated | src/hooks/useFavorites.ts:25-36 | dispatching the update event runs `sync` in every listening hook, so each copy equals what storage reads back |
| Favorites.Window.WriteFavorites | src/hooks/useFavorites.ts:22-26 | the favorites key now holds the serialised list and every listening hook holds what storage reads back; when the list round-trips, that is the list itself |
| Favorites.FavoritesHook.constructor | src/hooks/useFavorites.ts:29 | the in-memory favorites start empty, for any window |
| Favorites.FavoritesHook.FavoriteIds | src/hooks/useFavorites.ts:44 | the id set holds exactly the ids of the in-memory favorites |
| Favorites.FavoritesHook.IsFavorite | src/hooks/useFavorites.ts:46 | `isFavorite(id)` holds exactly when some in-memory favorite has that id |
| Favorites.FavoritesHook.Sync | src/hooks/useFavorites.ts:32-33 | `sync` makes the in-memory copy what `readFavorites` returns from storage |
| Favorites.FavoritesHook.Mount | src/hooks/useFavorites.ts:31-36 | the mount effect syncs the copy from storage and adds the hook to the listeners |
| Favorites.FavoritesHook.Unmount | src/hooks/useFavorites.ts:38-41 | the cleanup takes the hook out of the listeners |
| Favorites.FavoritesHook.ToggleFavorite | src/hooks/useFavorites.ts:48-54 | the toggle is decided on the list just read from storage, not on the in-memory copy; storage holds the serialised toggled list; the hook's copy is the toggled list, so `isFavorite(movie.id)` is the negation of the id's prior presence in storage; every other listening hook holds what storage reads back, and when the toggled list round-trips storage reads back as the hook's copy |
| Favorites.MountTwoAndAdd | src/hooks/useFavorites.ts:25-53 | two hooks mount on empty storage and the first adds a movie; through the update event both copies and storage then hold that one movie |
| Favorites.SharedStorageScenario | src/hooks/useFavorites.ts:25-53 | with two mounted hooks, the second shows the movie the first added; when the second toggles it, storage and both copies end empty |
| Keyed.KeySet | src/hooks/useFavorites.ts:44 | the set of ids holds exactly the ids that occur in the list |
| Keyed.WithoutKey | src/store/watchlistStore.ts:19 | the filter is no longer than its input, and every entry it keeps comes from the input and has a different id |
| Keyed.WithoutKeyAppend | src/store/watchlistStore.ts:19 | the filter by id distributes over concatenation, so what it keeps stays in input order |
| Keyed.WithoutKeyCount | src/store/watchlistStore.ts:19 | an entry with the removed id occurs zero times afterwards; any other entry occurs as often as before |
| Keyed.WithoutKeyMembers | src/store/watchlistStore.ts:19 | an entry survives exactly when it was there and has a different id |
| Keyed.WithoutAbsentKey | src/store/watchlistStore.ts:19 | removing an id that is not there leaves the list unchanged |
| Keyed.WithoutKeyIdempotent | src/store/watchlistStore.ts:19 | removing an id twice is removing it once |
| Keyed.WithoutKeyDistinct | src/hooks/useFavorites.ts:51 | removing entries cannot create a duplicate id |
| Watchlist.WatchlistStore.constructor | src/store/watchlistStore.ts:17 | the store starts with no items |
| Watchlist.WatchlistStore.AddItem | src/store/watchlistStore.ts:18 | `addItem` appends the movie at the end, and the length grows by exactly one |
| Watchlist.WatchlistStore.RemoveItem | src/store/watchlistStore.ts:19 | `removeItem` leaves the filtered list with no item having the id; an absent id changes nothing |
| Watchlist.AddKeepsDuplicates | src/store/watchlistStore.ts:18 | adding one movie twice keeps both copies (no de-duplication) |
| Watchlist.RemoveIdempotentAndOrdered | src/store/watchlistStore.ts:19 | removal is idempotent and distributes over any split of the list (order is kept) |
| Watchlist.RemoveAfterAdd | src/store/watchlistStore.ts:18-19 | removing the id of a just-added item equals removing it from the list before the add |
| Search.Normalize | src/app/search/page.tsx:69-76 | id, name, profile path and first air date are copied unchanged, and the normalised vote average is always present |
| Search.NormalizeFallbacks | src/app/search/page.tsx:71-75 | poster = poster ?? profile, backdrop = backdrop ?? poster ?? profile (raw poster), title = title ?? name, release date = release date ?? first air date, vote = vote ?? 0; a present value wins even when it is empty |
| Search.NormalizeTvOrPerson | src/app/search/page.tsx:71-75 | a record with only a name, first air date and profile picture gets them as title, release date, poster and backdrop, and a zero vote |
| Search.NormalizeIdempotent | src/app/search/page.tsx:69-76 | normalising twice is normalising once |
| Search.NormalizeAll | src/app/search/page.tsx:69 | the map keeps length and normalises each entry in place |
| Search.KeepWithPoster | src/app/search/page.tsx:77 | the poster filter keeps only entries with a truthy poster, all taken from the input |
| Search.KeepWithPosterCount | src/app/search/page.tsx:77 | an entry with a truthy poster is kept as often as it occurs; the others are dropped |
| Search.KeepWithPosterAppend | src/app/search/page.tsx:77 | the poster filter distributes over concatenation, so input order is kept |
| Search.SearchResults | src/app/search/page.tsx:69-77 | every shown result has a truthy poster, and a missing `results` field shows nothing |
| Search.SearchResultsExact | src/app/search/page.tsx:69-77 | an item is shown exactly when its normalised form has a truthy poster, once per occurrence; an item with an empty poster path is dropped even if it has a profile picture |
| Search.UrlQuery | src/app/search/page.tsx:28 | the URL query is `q` (or `''` when missing) with its leading and trailing white space cut off: a slice of it between an all-white-space prefix and suffix, empty exactly when `q` is missing or all white space, and with no white space at either end |
| Search.HasPoster | src/app/search/page.tsx:77 | JavaScript truthiness of `poster_path`: present and not the empty string (a predicate; its consequences are stated by `Search.KeepWithPoster` and `Search.SearchResultsExact`) |
| Search.SearchRequestUrl | src/app/search/page.tsx:59-61 | the multi-search URL carries the encoded query as its whole first parameter |
| Search.SearchRoute | src/app/search/page.tsx:100-102 | a route, when there is one, is a search-page URL; `Search.SearchRouteSpec` states when there is one and what follows `q=` |
| Search.SearchOutcome | src/app/search/page.tsx:59-83 | a search succeeds exactly on an ok response with a readable body, and then yields that body's shown results |
| Search.SearchRouteSpec | src/app/search/page.tsx:98-103 | submission does nothing exactly when the input is all white space; the route depends only on the trimmed input and is `/search?q=` plus the encoded trimmed input |
| Search.TrailerAlert | src/app/search/page.tsx:38-44 | an alert is shown exactly when playing the trailer fails, and it reads "Trailer not available" |
| Search.SearchPage.constructor | src/app/search/page.tsx:29-32 | the page starts with the URL query in the input box, no results, no loading and no error |
| Search.SearchPage.SyncInput | src/app/search/page.tsx:34-36 | a new URL query is copied into the input box and nothing else changes |
| Search.SearchPage.SetInput | src/app/search/page.tsx:123 | typing replaces the input box and nothing else |
| Search.SearchPage.StartSearch | src/app/search/page.tsx:50-61 | an empty query clears results and error and issues no request; otherwise loading starts, the error is cleared and the multi-search request is issued; the page invariant is kept |
| Search.SearchPage.FinishSearch | src/app/search/page.tsx:63-88 | on success the results are the shown items and there is no error; on a failed request, a bad status or an unreadable body there are no results and the fixed message is shown; loading ends either way |
| Search.SearchPage.RunSearch | src/app/search/page.tsx:49-89 | the whole `runSearch` on one query and its response: a request is issued exactly for a non-empty query, with the outcomes above and the page invariant kept |
| Search.SearchPage.Submit | src/app/search/page.tsx:98-103 | no route exactly for an all-white-space input; otherwise `/search?q=` plus the encoded trimmed input |
| Trailer.VideosUrl | src/lib/trailer.ts:1-3 | the request URL is the API base followed by `/{mediaType}/{movieId}/videos` |
| Trailer.DefaultAsksForMovie | src/lib/trailer.ts:1-3 | with the default media type the request path is `/movie/{movieId}/videos` |
| Trailer.VideosPathInjective | src/lib/trailer.ts:3 | the media type and the id can be read back from the request path |
| Trailer.IsYouTubeTrailer | src/lib/trailer.ts:13 | the selection test: type "Trailer" and site "YouTube" (a predicate; `Trailer.FindTrailer` states what it selects) |
| Trailer.FindTrailer | src/lib/trailer.ts:11-14 | the selected video is a YouTube trailer and no earlier video is; none is selected exactly when no video is one |
| Trailer.WatchUrl | src/lib/trailer.ts:20 | the watch URL is the YouTube watch prefix followed by the key, which can be read back |
| Trailer.PlayTrailer | src/lib/trailer.ts:1-20 | a success always opens a YouTube watch page with a non-empty key |
| Trailer.ErrorMessage | src/lib/trailer.ts:7-17 | the two errors the function throws carry a message of their own; a passed-on rejection does not |
| Trailer.NotOkFailsFirst | src/lib/trailer.ts:6-8 | a bad status fails with the error whose message is "Trailer fetch failed", whatever the body holds |
| Trailer.NoTrailerFails | src/lib/trailer.ts:11-18 | no matching video, or no `results` at all, fails with the error whose message is "Trailer not available" |
| Trailer.FirstTrailerDecides | src/lib/trailer.ts:11-18 | when the first trailer has no key or an empty one, the call fails even if a later trailer has a key |
| Trailer.PlayTrailerSucceeds | src/lib/trailer.ts:6-20 | success holds exactly for an ok, readable response whose first YouTube trailer has a non-empty key; the opened tab is then that key's watch page in a new window with `noopener,noreferrer` |
| Text.Trim | src/app/search/page.tsx:100 | the trimmed string is the slice of the input left between an all-white-space prefix and an all-white-space suffix, and has no white space at either end |
| Text.TrimEmptyIff | src/app/search/page.tsx:100-101 | a trimmed string is empty exactly when the input is all white space |
| Text.TrimIdempotent | src/app/search/page.tsx:28 | trimming twice is trimming once |
| Text.ParseShowInt | src/lib/trailer.ts:3 | the decimal rendering of an integer id reads back as that id |
| Text.ShowIntInjective | src/lib/trailer.ts:3 | different ids render differently |
| Wrappers.Coalesce | src/app/search/page.tsx:71-75 | `a ?? b` is `a` when `a` is present and `b` otherwise |
| Countries.IsCountryKey | src/lib/countries.ts:31-32 | `isCountryKey(v)` holds exactly when `v` equals the key of a table entry |
| Countries.SomeKey | src/lib/countries.ts:32 | `some` over the table holds exactly when some entry's key equals the value |
| Countries.KeysDistinct | src/lib/countries.ts:1-13 | the table has eleven entries with pairwise distinct keys |
| Countries.LabelMapMatchesTable | src/lib/countries.ts:1-29 | the label map gives each table entry's label for its key |
| Countries.LabelMapDomain | src/lib/countries.ts:17-32 | the label map's keys are exactly the values `isCountryKey` accepts |
| Countries.ExactMatchOnly | src/lib/countries.ts:32 | the match is exact and case-sensitive: `"BN"` and `" bn"` are rejected |
| Navbar.CurrentPath | src/components/Navbar.tsx:70 | a missing pathname is the empty path; a present one is itself |
| Navbar.IsLinkActive | src/components/Navbar.tsx:72 | the path is the link or lies below it (a predicate; `Navbar.LinkActiveIff` and `Navbar.ActiveLinkAtBoundary` state what it means) |
| Navbar.LinkActiveIff | src/components/Navbar.tsx:72 | a link is active exactly when the path is the link, or the link followed by `/` and anything |
| Navbar.ActiveLinkAtBoundary | src/components/Navbar.tsx:72 | an active link is a prefix of the path that ends at a segment boundary |
| Navbar.PrefixIsNotEnough | src/components/Navbar.tsx:72 | `/movies/popularity` does not activate `/movies/popular`, while `/movies/popular/2` does |
| Navbar.NoPathNothingActive | src/components/Navbar.tsx:70-72 | with no pathname, the path is empty and no non-empty link is active |
| Navbar.AnyLinkActive | src/components/Navbar.tsx:170 | `some` over a menu's links holds exactly when one of them is active |
| Navbar.IsMenuActive | src/components/Navbar.tsx:170 | a menu is active exactly when one of its links is active |
| Navbar.TvMenuActiveBelowItsLink | src/components/Navbar.tsx:25-33 | on a page below `/tv/popular` the TV menu is active |
| Navbar.NavbarState.constructor | src/components/Navbar.tsx:64-66 | no menu is open, the query is empty and the mobile panel is closed |
| Navbar.NavbarState.ClickMenu | src/components/Navbar.tsx:180 | a menu button closes its menu if it is open and otherwise opens it in place of any other, so at most one menu is open |
| Navbar.NavbarState.CloseAll | src/components/Navbar.tsx:75-76 | the open menu and the mobile panel are closed; the query and path are kept |
| Navbar.NavbarState.PathnameChanged | src/components/Navbar.tsx:74-77 | a navigation to a different path closes the menu and the mobile panel; a navigation to the same path does not run the effect and changes nothing |
| Navbar.NavbarState.KeyDown | src/components/Navbar.tsx:87-92 | Escape closes the menu and the panel; any other key changes nothing |
| Navbar.NavbarState.MouseDown | src/components/Navbar.tsx:80-85 | a press outside the mounted bar closes the menu and the panel; a press inside, or before mounting, changes nothing |
| Navbar.NavbarState.ToggleMobilePanel | src/components/Navbar.tsx:141 | the hamburger button flips the mobile panel and nothing else |
| Navbar.NavbarState.ClickMenuLink | src/components/Navbar.tsx:200 | a drop-down link closes the menu and nothing else |
| Navbar.NavbarState.SetQuery | src/components/Navbar.tsx:226 | typing replaces the query and nothing else |
| Navbar.NavbarState.SubmitSearch | src/components/Navbar.tsx:103-110 | an all-white-space query changes nothing and pushes no route; otherwise the route for the trimmed query is pushed and the menu and panel close |
| MovieSlice.TrendingEndpoint | src/store/movieSlice.ts:38 | the trending endpoint lies under `/trending/movie/` |
| MovieSlice.TrendingEndpointInjective | src/store/movieSlice.ts:38 | the day and week windows ask for different endpoints |
| MovieSlice.TrailersEndpoint | src/store/movieSlice.ts:56-59 | the trailers thunk asks for one of the two list endpoints |
| MovieSlice.CatalogEndpointsDistinct | src/store/movieSlice.ts:43-51 | the popular, top-rated and now-playing thunks ask for three different lists |
| MovieSlice.TrailersEndpointChoice | src/store/movieSlice.ts:56-59 | the trailers thunk asks for the popular endpoint exactly for 'popular' and for now-playing exactly for in-theaters |
| MovieSlice.FirstOrNull | src/store/movieSlice.ts:81 | the first-or-null choice is null exactly for an empty payload, and otherwise the first movie |
| MovieSlice.Reduce | src/store/movieSlice.ts:69-91 | an unhandled action changes nothing, and each field changes only under its own action |
| MovieSlice.ReducePreservesHero | src/store/movieSlice.ts:24-32 | the initial state, and every reducer, keep the hero equal to the first trending movie or null |
| MovieSlice.OnlyTrendingMovesHero | src/store/movieSlice.ts:70-91 | no reducer other than trending-fulfilled touches the hero or the trending list |
| MovieSlice.MoviesState.constructor | src/store/movieSlice.ts:24-32 | all four lists are empty, the hero is null, the trending window is 'week' and the trailers choice is 'popular' |
| MovieSlice.MoviesState.SetTrendingTime | src/store/movieSlice.ts:70-72 | only the trending window changes |
| MovieSlice.MoviesState.SetTrailersTime | src/store/movieSlice.ts:73-75 | only the trailers choice changes |
| MovieSlice.MoviesState.TrendingFulfilled | src/store/movieSlice.ts:79-82 | the trending list becomes the payload and the hero its first movie or null; nothing else changes |
| MovieSlice.MoviesState.PopularFulfilled | src/store/movieSlice.ts:83-85 | only the popular list changes |
| MovieSlice.MoviesState.TopRatedFulfilled | src/store/movieSlice.ts:86-88 | only the top-rated list changes |
| MovieSlice.MoviesState.TrailersFulfilled | src/store/movieSlice.ts:89-91 | only the trailers list changes |
| MovieSlice.MoviesState.Dispatch | src/store/movieSlice.ts:70-91 | dispatching an action updates the state as the reducer function does, and an unhandled action changes nothing |

## Left out

- HTTP is not modelled. No `fetch` is performed, and `src/lib/tmdb.ts` is
  not part of this model. Each response is an input value, and the thunks'
  `data.results` payloads are the reducers' inputs.
- Server rendering is not modelled. `readFavorites` and `writeFavorites`
  return early when there is no `window`; the model assumes the browser.
- The `storage` event listener and cross-tab synchronisation are left out,
  because another tab is outside the page. The same-page
  `moviehub:favorites-updated` event is modelled: dispatching it runs
  `sync` in every mounted hook before `writeFavorites` returns.
- Asynchrony, effect scheduling and the `isMounted` cancellation flag of the
  search page are left out. `Search.SearchPage.RunSearch` models one
  uninterrupted run while the page stays mounted. The `isLoading` state shows
  up only between `StartSearch` and `FinishSearch`.
- `getItem` throwing is left out. Only a parse failure reaches the `catch`
  of `readFavorites` in the model.
- Favorites.Window.WriteFavorites: `setItem` throwing (storage full or
  disabled) is not modelled. In the source `toggleFavorite` then throws
  before `setFavorites`, so neither storage nor the copy changes; the model's
  write always succeeds.
- JSON is abstract. `JSON.parse`'s outcomes are a parse error, an array of
  movies or a non-array value; an array whose elements are not movie records
  is not distinguished.
- `JSON.stringify` is an abstract function. A statement about reading back a
  written list assumes that this one list round-trips through `JSON.parse`
  (`Favorites.RoundTrips`); nothing is assumed of other lists.
- `encodeURIComponent` is an uninterpreted function parameter.
- The environment's API key is a string parameter.
- `window.open`, `alert` and `router.push` are returned values, with no
  browser effect.
- Ids are rendered as integers. JavaScript's rendering of non-integer or
  very large numbers (exponent notation) is not modelled.
- `vote_average` is a real number, and floating-point behaviour is not
  modelled.
- The Redux Toolkit and Zustand machinery (`createSlice`,
  `createAsyncThunk`, `create`) is left out. The pending and rejected thunk
  actions are the `Unhandled` action, which changes nothing.
- MovieSlice.Reduce: a fulfilled payload is always a list. A response
  without `results` makes the payload `undefined`. The trending case then
  throws at `payload[0]`, and the other cases store `undefined` in their
  list. Neither is modelled.
- UI-only pages and components are left out, because they hold no logic of
  the core. These are `MovieRow`, the home page (its copy of trailer
  selection is the one `Trailer` models) and the remaining pages and
  layouts.
- Rendering and styling: class names, aria attributes and the dropdown
  markup are not modelled.
- Trailer.PlayTrailer: a non-null `results` field that is not an array, or
  a top-level body that is `null`, both lead to a rejection. Both are folded
  into `Unreadable`. A `results` that is missing or `null` is
  `VideosJson(None)` and fails with "Trailer not available". The passed-on rejection's message is the platform's own and
  is not modelled.
- Search.SearchOutcome: the model does not tell bodies apart beyond what
  the handler makes of them. A `null` body, or a truthy `results` that is not
  an array, makes the handler throw and is folded into `Malformed`, like a
  body that does not parse. A primitive or array body, or a falsy
  `results`, is `SearchJson(None)`, an empty success. An array whose entries
  are not records is not modelled.
