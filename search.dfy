/** The search page: the query taken from the URL, the request it issues, the
    normalisation of the mixed movie/TV/person results, and the submit handler
    shared in spirit with the navigation bar. */
module Search {
  import opened Wrappers
  import opened Text
  import Trailer

  /** One entry of a multi-search response. `None` stands for both `null` and
      a missing field; the normalised record has the same fields, since it is
      the item spread and five fields overwritten. */
  datatype SearchItem = SearchItem(
    id: int,
    title: Option<string>,
    name: Option<string>,
    posterPath: Option<string>,
    backdropPath: Option<string>,
    profilePath: Option<string>,
    voteAverage: Option<real>,
    releaseDate: Option<string>,
    firstAirDate: Option<string>)

  /** The normalisation map: movie, TV and person records coerced into one
      shape by nullish fallbacks. */
  function Normalize(item: SearchItem): (r: SearchItem)
    ensures r.id == item.id && r.name == item.name && r.profilePath == item.profilePath
    ensures r.firstAirDate == item.firstAirDate
    ensures r.voteAverage.Some?
  {
    item.(
      posterPath := Coalesce(item.posterPath, item.profilePath),
      backdropPath := Coalesce(item.backdropPath, Coalesce(item.posterPath, item.profilePath)),
      title := Coalesce(item.title, item.name),
      voteAverage := Some(item.voteAverage.GetOr(0.0)),
      releaseDate := Coalesce(item.releaseDate, item.firstAirDate))
  }

  /** The fallbacks, field by field: a field that is present wins, even when
      it is the empty string; otherwise the next candidate is taken. */
  lemma NormalizeFallbacks(item: SearchItem)
    ensures item.posterPath.Some? ==> Normalize(item).posterPath == item.posterPath
    ensures item.posterPath.None? ==> Normalize(item).posterPath == item.profilePath
    ensures item.backdropPath.Some? ==> Normalize(item).backdropPath == item.backdropPath
    ensures item.backdropPath.None? ==> Normalize(item).backdropPath == Normalize(item).posterPath
    ensures Normalize(item).backdropPath.None? <==>
      item.backdropPath.None? && item.posterPath.None? && item.profilePath.None?
    ensures Normalize(item).title == (if item.title.Some? then item.title else item.name)
    ensures Normalize(item).releaseDate == (if item.releaseDate.Some? then item.releaseDate else item.firstAirDate)
    ensures Normalize(item).voteAverage == Some(if item.voteAverage.Some? then item.voteAverage.value else 0.0)
  {
  }

  /** A TV or person record that has only a name, a first air date and a
      profile picture takes those as title, release date and poster. */
  lemma NormalizeTvOrPerson(id: int, name: string, airDate: string, profile: string)
    ensures var r := Normalize(SearchItem(id, None, Some(name), None, None, Some(profile), None, None, Some(airDate)));
      r.title == Some(name) && r.releaseDate == Some(airDate) && r.posterPath == Some(profile)
      && r.backdropPath == Some(profile) && r.voteAverage == Some(0.0)
  {
  }

  /** Normalising an already normalised record changes nothing. */
  lemma NormalizeIdempotent(item: SearchItem)
    ensures Normalize(Normalize(item)) == Normalize(item)
  {
  }

  /** JavaScript truthiness of `poster_path`: present and not empty. */
  predicate HasPoster(item: SearchItem) {
    item.posterPath.Some? && item.posterPath.value != ""
  }

  function NormalizeAll(items: seq<SearchItem>): (r: seq<SearchItem>)
    ensures |r| == |items| && forall i :: 0 <= i < |items| ==> r[i] == Normalize(items[i])
  {
    seq(|items|, i requires 0 <= i < |items| => Normalize(items[i]))
  }

  /** `filter((item) => item.poster_path)`. */
  function KeepWithPoster(items: seq<SearchItem>): (r: seq<SearchItem>)
    ensures |r| <= |items|
    ensures forall i :: 0 <= i < |r| ==> HasPoster(r[i]) && r[i] in items
  {
    if items == [] then []
    else if HasPoster(items[0]) then [items[0]] + KeepWithPoster(items[1..])
    else KeepWithPoster(items[1..])
  }

  /** The filter keeps every item with a poster as often as it occurs and
      drops the others. */
  lemma {:induction false} KeepWithPosterCount(items: seq<SearchItem>, x: SearchItem)
    ensures multiset(KeepWithPoster(items))[x] == if HasPoster(x) then multiset(items)[x] else 0
  {
    if items != [] {
      assert items == [items[0]] + items[1..];
      KeepWithPosterCount(items[1..], x);
    }
  }

  /** The filter keeps input order: it distributes over concatenation. */
  lemma {:induction false} KeepWithPosterAppend(a: seq<SearchItem>, b: seq<SearchItem>)
    ensures KeepWithPoster(a + b) == KeepWithPoster(a) + KeepWithPoster(b)
  {
    if a == [] {
      assert a + b == b;
    } else {
      assert (a + b)[0] == a[0] && (a + b)[1..] == a[1..] + b;
      KeepWithPosterAppend(a[1..], b);
    }
  }

  /** The results the page shows for a response body's `results` field; a
      missing field counts as no results. */
  function SearchResults(results: Option<seq<SearchItem>>): (r: seq<SearchItem>)
    ensures forall i :: 0 <= i < |r| ==> HasPoster(r[i])
    ensures results.None? ==> r == []
  {
    KeepWithPoster(NormalizeAll(results.GetOr([])))
  }

  /** An item is shown exactly when its normalised form has a poster, once for
      each time it occurs; an empty `poster_path` is not replaced by the
      profile picture, so such an item is dropped. */
  lemma SearchResultsExact(items: seq<SearchItem>, x: SearchItem)
    ensures multiset(SearchResults(Some(items)))[x] ==
      if HasPoster(x) then multiset(NormalizeAll(items))[x] else 0
    ensures forall i :: 0 <= i < |items| && items[i].posterPath == Some("") ==>
      Normalize(items[i]) !in SearchResults(Some(items))
  {
    KeepWithPosterCount(NormalizeAll(items), x);
  }

  /** `(searchParams?.get('q') || '').trim()`. */
  function UrlQuery(q: Option<string>): (r: string)
    ensures r == "" <==> q.None? || AllSpace(q.value)
    ensures r == [] || (!IsSpace(r[0]) && !IsSpace(r[|r| - 1]))
    ensures q.Some? ==> |r| <= |q.value|
    ensures TrimmedFrom(r, q.GetOr(""))
  {
    var text := q.GetOr("");
    TrimEmptyIff(text);
    Trim(text)
  }

  const SearchFailedMessage := "Search is temporarily unavailable. Please try again."

  const SearchEndpoint := "https://api.themoviedb.org/3/search/multi?query="

  /** The multi-search request for a non-empty query: the encoded query is the
      whole first parameter. */
  function SearchRequestUrl(query: string, encode: string -> string, apiKey: string): (url: string)
    ensures StartsWith(url, SearchEndpoint + encode(query) + "&")
  {
    var head := SearchEndpoint + encode(query) + "&";
    assert (head + "include_adult=false&language=en-US&page=1&api_key=" + apiKey)[..|head|] == head;
    head + "include_adult=false&language=en-US&page=1&api_key=" + apiKey
  }

  /** The body of an ok response, by what `(data.results || [])` and the map
      after it make of it. `Malformed` is every body that makes the handler
      throw: `json()` rejects, the body is `null`, or `results` is truthy but
      not an array. `SearchJson(None)` is a body whose `results` is missing or
      falsy, which includes a primitive or array body; it shows nothing. */
  datatype SearchBody = Malformed | SearchJson(results: Option<seq<SearchItem>>)

  datatype SearchResponse = NetworkFailure | Response(ok: bool, body: SearchBody)

  /** What the request yields for the page: the items to show, or failure. */
  function SearchOutcome(response: SearchResponse): (r: Option<seq<SearchItem>>)
    ensures r.Some? <==> response.Response? && response.ok && response.body.SearchJson?
    ensures r.Some? ==> r.value == SearchResults(response.body.results)
  {
    match response
    case NetworkFailure => None
    case Response(ok, body) =>
      if !ok then None
      else match body
        case Malformed => None
        case SearchJson(results) => Some(SearchResults(results))
  }

  /** `handleSubmit` (and the navigation bar's search form): nothing for an
      all-white-space input, else the route to the search page for the
      trimmed input. */
  function SearchRoute(input: string, encode: string -> string): (route: Option<string>)
    ensures route.Some? ==> StartsWith(route.value, "/search?q=")
  {
    var q := Trim(input);
    assert ("/search?q=" + encode(q))[..|"/search?q="|] == "/search?q=";
    if q == "" then None else Some("/search?q=" + encode(q))
  }

  /** The route is taken exactly when the input has a non-white-space
      character, and depends only on the trimmed input. */
  lemma SearchRouteSpec(input: string, encode: string -> string)
    ensures SearchRoute(input, encode).None? <==> AllSpace(input)
    ensures SearchRoute(input, encode) == SearchRoute(Trim(input), encode)
    ensures SearchRoute(input, encode).Some? ==> SearchRoute(input, encode).value == "/search?q=" + encode(Trim(input))
  {
    TrimEmptyIff(input);
    TrimIdempotent(input);
  }

  /** `handlePlayTrailer`: the alert shown when `playTrailer` fails. */
  function TrailerAlert(outcome: Result<Trailer.OpenedTab, Trailer.TrailerError>): (alert: Option<string>)
    ensures alert.Some? <==> outcome.Failure?
    ensures alert.Some? ==> alert.value == "Trailer not available"
  {
    if outcome.Failure? then Some("Trailer not available") else None
  }

  /** The page's state: the input box, the results, the loading flag and the
      error text. */
  class SearchPage {
    var inputValue: string
    var results: seq<SearchItem>
    var isLoading: bool
    var error: string

    /** The error is empty or the fixed message, and it comes with no
      results; every result has a poster; nothing is shown as an error while
      a request is under way. */
    ghost predicate Valid()
      reads this
    {
      && (error == "" || error == SearchFailedMessage)
      && (error != "" ==> results == [])
      && (forall i :: 0 <= i < |results| ==> HasPoster(results[i]))
      && (isLoading ==> error == "")
    }

    constructor (urlQuery: string)
      ensures Valid()
      ensures inputValue == urlQuery && results == [] && !isLoading && error == ""
    {
      inputValue := urlQuery;
      results := [];
      isLoading := false;
      error := "";
    }

    /** The effect that copies a new URL query into the input box. */
    method SyncInput(urlQuery: string)
      modifies this
      ensures inputValue == urlQuery
      ensures results == old(results) && isLoading == old(isLoading) && error == old(error)
    {
      inputValue := urlQuery;
    }

    /** Typing into the input box. */
    method SetInput(text: string)
      modifies this
      ensures inputValue == text
      ensures results == old(results) && isLoading == old(isLoading) && error == old(error)
    {
      inputValue := text;
    }

    /** `runSearch` up to the request: an empty query clears results and
      error and issues nothing; otherwise loading starts, the error is
      cleared, and the request URL is returned. */
    method StartSearch(urlQuery: string, encode: string -> string, apiKey: string)
      returns (request: Option<string>)
      requires Valid()
      modifies this
      ensures Valid() && inputValue == old(inputValue)
      ensures urlQuery == "" ==>
        request.None? && results == [] && error == "" && isLoading == old(isLoading)
      ensures urlQuery != "" ==>
        request == Some(SearchRequestUrl(urlQuery, encode, apiKey))
        && isLoading && error == "" && results == old(results)
    {
      if urlQuery == "" {
        results := [];
        error := "";
        request := None;
        return;
      }
      isLoading := true;
      error := "";
      request := Some(SearchRequestUrl(urlQuery, encode, apiKey));
    }

    /** `runSearch` after the request: the items with a poster on success;
      otherwise no results and the fixed message; loading ends either way. */
    method FinishSearch(response: SearchResponse)
      requires Valid() && isLoading
      modifies this
      ensures Valid() && inputValue == old(inputValue) && !isLoading
      ensures SearchOutcome(response).Some? ==> results == SearchOutcome(response).value && error == ""
      ensures SearchOutcome(response).None? ==> results == [] && error == SearchFailedMessage
    {
      match response {
        case NetworkFailure =>
          error := SearchFailedMessage;
          results := [];
        case Response(ok, body) =>
          if !ok {
            error := SearchFailedMessage;
            results := [];
          } else {
            match body {
              case Malformed =>
                error := SearchFailedMessage;
                results := [];
              case SearchJson(rs) =>
                results := SearchResults(rs);
            }
          }
      }
      isLoading := false;
    }

    /** The whole `runSearch` for one query and the response it receives. */
    method RunSearch(urlQuery: string, response: SearchResponse, encode: string -> string, apiKey: string)
      returns (request: Option<string>)
      requires Valid()
      modifies this
      ensures Valid() && inputValue == old(inputValue)
      ensures request.Some? <==> urlQuery != ""
      ensures urlQuery == "" ==> results == [] && error == "" && isLoading == old(isLoading)
      ensures urlQuery != "" ==> !isLoading
      ensures urlQuery != "" && SearchOutcome(response).Some? ==>
        results == SearchOutcome(response).value && error == ""
      ensures urlQuery != "" && SearchOutcome(response).None? ==>
        results == [] && error == SearchFailedMessage
    {
      request := StartSearch(urlQuery, encode, apiKey);
      if request.Some? {
        FinishSearch(response);
      }
    }

    /** `handleSubmit`: the route to push, if any; the page state is untouched. */
    method Submit(encode: string -> string) returns (route: Option<string>)
      ensures route.None? <==> AllSpace(inputValue)
      ensures route.Some? ==> route.value == "/search?q=" + encode(Trim(inputValue))
    {
      route := SearchRoute(inputValue, encode);
      SearchRouteSpec(inputValue, encode);
    }
  }
}
