/** `playTrailer`: fetch a title's videos, pick the first YouTube trailer and
    open it in a new tab. The HTTP exchange is an input and the opened tab an
    output value. */
module Trailer {
  import opened Wrappers
  import opened Text

  datatype MediaType = MovieMedia | TvMedia

  function MediaSegment(m: MediaType): string {
    match m
    case MovieMedia => "movie"
    case TvMedia => "tv"
  }

  /** The media type when the caller does not name one. */
  const DefaultMediaType := MovieMedia

  /** The path of the videos request: `/{mediaType}/{movieId}/videos`. */
  function VideosPath(movieId: int, mediaType: MediaType): string {
    "/" + MediaSegment(mediaType) + "/" + ShowInt(movieId) + "/videos"
  }

  const ApiBase := "https://api.themoviedb.org/3"

  /** The full request URL; `apiKey` is the public key from the environment. */
  function VideosUrl(movieId: int, mediaType: MediaType, apiKey: string): (url: string)
    ensures StartsWith(url, ApiBase + VideosPath(movieId, mediaType))
  {
    assert (ApiBase + VideosPath(movieId, mediaType) + "?language=en-US&api_key=" + apiKey)
      [..|ApiBase + VideosPath(movieId, mediaType)|] == ApiBase + VideosPath(movieId, mediaType);
    ApiBase + VideosPath(movieId, mediaType) + "?language=en-US&api_key=" + apiKey
  }

  /** Without a media type the request asks for a movie's videos. */
  lemma DefaultAsksForMovie(movieId: int)
    ensures VideosPath(movieId, DefaultMediaType) == "/movie/" + ShowInt(movieId) + "/videos"
  {
  }

  /** Different titles ask for different paths: the media type and the id can
      be read back from the path. */
  lemma VideosPathInjective(a: int, ma: MediaType, b: int, mb: MediaType)
    requires VideosPath(a, ma) == VideosPath(b, mb)
    ensures a == b && ma == mb
  {
    var p := VideosPath(a, ma);
    assert p[1] == MediaSegment(ma)[0] && p[1] == MediaSegment(mb)[0];
    var n := 2 + |MediaSegment(ma)|;
    var sa, sb := ShowInt(a), ShowInt(b);
    assert p == ("/" + MediaSegment(ma) + "/") + sa + "/videos";
    assert p == ("/" + MediaSegment(ma) + "/") + sb + "/videos";
    assert |sa| == |sb|;
    assert sa == p[n..n + |sa|];
    assert sb == p[n..n + |sb|];
    ShowIntInjective(a, b);
  }

  /** One entry of the `results` array of the videos response. */
  datatype Video = Video(key: Option<string>, kind: string, site: string)

  predicate IsYouTubeTrailer(v: Video) {
    v.kind == "Trailer" && v.site == "YouTube"
  }

  /** `results.find(...)`: the index of the first YouTube trailer, if any. */
  function FindTrailer(videos: seq<Video>): (r: Option<nat>)
    ensures r.Some? ==> r.value < |videos| && IsYouTubeTrailer(videos[r.value])
    ensures r.Some? ==> forall j :: 0 <= j < r.value ==> !IsYouTubeTrailer(videos[j])
    ensures r.None? ==> forall j :: 0 <= j < |videos| ==> !IsYouTubeTrailer(videos[j])
  {
    if videos == [] then None
    else if IsYouTubeTrailer(videos[0]) then Some(0)
    else match FindTrailer(videos[1..])
      case None => None
      case Some(i) => Some(i + 1)
  }

  /** The body of a successful response: `Unreadable` when `response.json()`
      rejects, otherwise the `results` field, where `None` stands for a
      `results` that is missing or `null` (both short-circuit `?.`). */
  datatype VideosBody = Unreadable | VideosJson(results: Option<seq<Video>>)

  /** What `fetch` produced: a rejected promise or a response. */
  datatype VideosResponse = NetworkFailure | Response(ok: bool, body: VideosBody)

  /** `FetchFailed` and `NotAvailable` are the two errors the function throws
      itself; `Rejected` is a rejection of `fetch` or `json()` passed on. */
  datatype TrailerError = FetchFailed | NotAvailable | Rejected

  /** The message of an error the function throws itself; a passed-on
      rejection carries the platform's own. */
  function ErrorMessage(e: TrailerError): (m: Option<string>)
    ensures m.Some? <==> !e.Rejected?
  {
    match e
    case FetchFailed => Some("Trailer fetch failed")
    case NotAvailable => Some("Trailer not available")
    case Rejected => None
  }

  /** The arguments of `window.open`. */
  datatype OpenedTab = OpenedTab(url: string, target: string, features: string)

  const WatchPrefix := "https://www.youtube.com/watch?v="

  function WatchUrl(key: string): (url: string)
    ensures StartsWith(url, WatchPrefix) && url[|WatchPrefix|..] == key
  {
    assert (WatchPrefix + key)[..|WatchPrefix|] == WatchPrefix;
    WatchPrefix + key
  }

  /** `playTrailer` after the request: reject on a bad status, then on a
      missing or keyless first trailer, otherwise open its watch page. */
  function PlayTrailer(response: VideosResponse): (r: Result<OpenedTab, TrailerError>)
    ensures r.Success? ==> StartsWith(r.value.url, WatchPrefix) && |r.value.url| > |WatchPrefix|
  {
    match response
    case NetworkFailure => Failure(Rejected)
    case Response(ok, body) =>
      if !ok then Failure(FetchFailed)
      else match body
        case Unreadable => Failure(Rejected)
        case VideosJson(results) =>
          var found := if results.Some? then FindTrailer(results.value) else None;
          if found.None? then Failure(NotAvailable)
          else
            var key := results.value[found.value].key;
            if key.None? || key.value == "" then Failure(NotAvailable)
            else Success(OpenedTab(WatchUrl(key.value), "_blank", "noopener,noreferrer"))
  }

  /** A bad status fails before the body is looked at. */
  lemma NotOkFailsFirst(body: VideosBody)
    ensures PlayTrailer(Response(false, body)) == Failure(FetchFailed)
    ensures ErrorMessage(PlayTrailer(Response(false, body)).error) == Some("Trailer fetch failed")
  {
  }

  /** No trailer, or no `results` at all, fails with "Trailer not available". */
  lemma NoTrailerFails(results: Option<seq<Video>>)
    requires results.Some? ==> forall j :: 0 <= j < |results.value| ==> !IsYouTubeTrailer(results.value[j])
    ensures PlayTrailer(Response(true, VideosJson(results))) == Failure(NotAvailable)
    ensures ErrorMessage(PlayTrailer(Response(true, VideosJson(results))).error) == Some("Trailer not available")
  {
    if results.Some? {
      assert FindTrailer(results.value).None?;
    }
  }

  /** Only the first trailer counts: when it has no key the call fails, even if
      a later trailer has one. */
  lemma FirstTrailerDecides(videos: seq<Video>, i: nat)
    requires i < |videos| && IsYouTubeTrailer(videos[i])
    requires forall j :: 0 <= j < i ==> !IsYouTubeTrailer(videos[j])
    requires videos[i].key.None? || videos[i].key.value == ""
    ensures PlayTrailer(Response(true, VideosJson(Some(videos)))) == Failure(NotAvailable)
  {
    assert FindTrailer(videos) == Some(i);
  }

  /** Success is exactly: an ok response whose first YouTube trailer has a
      non-empty key; the tab then shows that key's watch page. */
  lemma PlayTrailerSucceeds(response: VideosResponse)
    ensures PlayTrailer(response).Success? <==>
      && response.Response? && response.ok
      && response.body.VideosJson? && response.body.results.Some?
      && var videos := response.body.results.value;
         exists i :: 0 <= i < |videos| && IsYouTubeTrailer(videos[i])
           && (forall j :: 0 <= j < i ==> !IsYouTubeTrailer(videos[j]))
           && videos[i].key.Some? && videos[i].key.value != ""
    ensures PlayTrailer(response).Success? ==>
      var videos := response.body.results.value;
      var i := FindTrailer(videos).value;
      PlayTrailer(response).value == OpenedTab(WatchPrefix + videos[i].key.value, "_blank", "noopener,noreferrer")
  {
    if response.Response? && response.ok && response.body.VideosJson? && response.body.results.Some? {
      var videos := response.body.results.value;
      var found := FindTrailer(videos);
      if found.Some? {
        var i: int := found.value;
        forall k | 0 <= k < |videos| && IsYouTubeTrailer(videos[k])
            && (forall j :: 0 <= j < k ==> !IsYouTubeTrailer(videos[j]))
          ensures k == i
        {
        }
      }
    }
  }
}
