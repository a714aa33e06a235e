/** The Redux slice `movies`: the catalog lists of the home page, the hero
    movie and the two time selectors, updated in place by named reducers. */
module MovieSlice {
  import opened Wrappers

  /** A catalog record as the upstream API returns it. */
  datatype Movie = Movie(
    id: int,
    title: Option<string>,
    name: Option<string>,
    posterPath: Option<string>,
    backdropPath: Option<string>,
    voteAverage: real,
    releaseDate: Option<string>)

  datatype TrendingTime = Day | Week
  datatype TrailersTime = PopularTrailers | InTheaters

  function TrendingTimeText(t: TrendingTime): string {
    match t
    case Day => "day"
    case Week => "week"
  }

  /** The endpoint `fetchTrending` asks for. */
  function TrendingEndpoint(time: TrendingTime): (r: string)
    ensures |r| > 16 && r[..16] == "/trending/movie/"
  {
    "/trending/movie/" + TrendingTimeText(time) + "?language=en-US"
  }

  const PopularEndpoint := "/movie/popular?language=en-US&page=1"
  const TopRatedEndpoint := "/movie/top_rated?language=en-US&page=1"
  const NowPlayingEndpoint := "/movie/now_playing?language=en-US&page=1"

  /** The endpoint `fetchTrailers` asks for. */
  function TrailersEndpoint(t: TrailersTime): (r: string)
    ensures r == PopularEndpoint || r == NowPlayingEndpoint
  {
    if t == PopularTrailers then PopularEndpoint else NowPlayingEndpoint
  }

  /** The popular, top-rated and now-playing rows each ask for a different
      list: the three endpoints differ right after `/movie/`. */
  lemma CatalogEndpointsDistinct()
    ensures PopularEndpoint != TopRatedEndpoint
    ensures TopRatedEndpoint != NowPlayingEndpoint
    ensures PopularEndpoint != NowPlayingEndpoint
  {
    assert PopularEndpoint[7] == 'p' && TopRatedEndpoint[7] == 't' && NowPlayingEndpoint[7] == 'n';
  }

  /** The two trending windows ask for different endpoints, and the window
      can be read back from the endpoint. */
  lemma TrendingEndpointInjective(a: TrendingTime, b: TrendingTime)
    ensures TrendingEndpoint(a) == TrendingEndpoint(b) <==> a == b
  {
    if a != b {
      assert TrendingEndpoint(a)[16] != TrendingEndpoint(b)[16];
    }
  }

  /** The trailers row reuses the popular endpoint for 'popular' and asks for
      now-playing movies otherwise. */
  lemma TrailersEndpointChoice(t: TrailersTime)
    ensures TrailersEndpoint(t) == PopularEndpoint <==> t == PopularTrailers
    ensures TrailersEndpoint(t) == NowPlayingEndpoint <==> t == InTheaters
  {
    assert PopularEndpoint[7] != NowPlayingEndpoint[7];
  }

  /** A snapshot of the slice state, for stating what a reducer does. */
  datatype State = State(
    trending: seq<Movie>,
    popular: seq<Movie>,
    topRated: seq<Movie>,
    trailers: seq<Movie>,
    hero: Option<Movie>,
    trendingTime: TrendingTime,
    trailersTime: TrailersTime)

  const InitialState := State([], [], [], [], None, Week, PopularTrailers)

  /** The actions the slice reacts to. `Unhandled` stands for every other
      action the store dispatches (the thunks' pending and rejected actions
      among them). */
  datatype Action =
    | SetTrendingTime(time: TrendingTime)
    | SetTrailersTime(trailersTime: TrailersTime)
    | TrendingFulfilled(payload: seq<Movie>)
    | PopularFulfilled(payload: seq<Movie>)
    | TopRatedFulfilled(payload: seq<Movie>)
    | TrailersFulfilled(payload: seq<Movie>)
    | Unhandled

  /** `payload[0] || null`: a movie record is always truthy. */
  function FirstOrNull(payload: seq<Movie>): (r: Option<Movie>)
    ensures r.None? <==> payload == []
    ensures r.Some? ==> r.value == payload[0]
  {
    if payload == [] then None else Some(payload[0])
  }

  /** The slice reducer on snapshots. */
  function Reduce(s: State, a: Action): (r: State)
    ensures a.Unhandled? ==> r == s
    ensures r.trendingTime != s.trendingTime ==> a.SetTrendingTime?
    ensures r.trailersTime != s.trailersTime ==> a.SetTrailersTime?
    ensures r.trending != s.trending || r.hero != s.hero ==> a.TrendingFulfilled?
    ensures r.popular != s.popular ==> a.PopularFulfilled?
    ensures r.topRated != s.topRated ==> a.TopRatedFulfilled?
    ensures r.trailers != s.trailers ==> a.TrailersFulfilled?
  {
    match a
    case SetTrendingTime(t) => s.(trendingTime := t)
    case SetTrailersTime(t) => s.(trailersTime := t)
    case TrendingFulfilled(p) => s.(trending := p, hero := FirstOrNull(p))
    case PopularFulfilled(p) => s.(popular := p)
    case TopRatedFulfilled(p) => s.(topRated := p)
    case TrailersFulfilled(p) => s.(trailers := p)
    case Unhandled => s
  }

  /** The hero is the first trending movie, or none when there is none. */
  ghost predicate HeroIsFirstTrending(s: State) {
    s.hero == FirstOrNull(s.trending)
  }

  /** Every reducer keeps the hero in step with the trending list, and the
      initial state starts that way. */
  lemma ReducePreservesHero(s: State, a: Action)
    requires HeroIsFirstTrending(s)
    ensures HeroIsFirstTrending(Reduce(s, a))
    ensures HeroIsFirstTrending(InitialState)
  {
  }

  /** Only the trending reducer touches the hero. */
  lemma OnlyTrendingMovesHero(s: State, a: Action)
    requires !a.TrendingFulfilled?
    ensures Reduce(s, a).hero == s.hero && Reduce(s, a).trending == s.trending
  {
  }

  /** The store's `movies` state, mutated in place by the reducers. */
  class MoviesState {
    var trending: seq<Movie>
    var popular: seq<Movie>
    var topRated: seq<Movie>
    var trailers: seq<Movie>
    var hero: Option<Movie>
    var trendingTime: TrendingTime
    var trailersTime: TrailersTime

    function Snapshot(): State
      reads this
    {
      State(trending, popular, topRated, trailers, hero, trendingTime, trailersTime)
    }

    /** `initialState`. */
    constructor ()
      ensures Snapshot() == InitialState
    {
      trending, popular, topRated, trailers := [], [], [], [];
      hero := None;
      trendingTime, trailersTime := Week, PopularTrailers;
    }

    method SetTrendingTime(time: TrendingTime)
      modifies this
      ensures Snapshot() == old(Snapshot()).(trendingTime := time)
    {
      trendingTime := time;
    }

    method SetTrailersTime(t: TrailersTime)
      modifies this
      ensures Snapshot() == old(Snapshot()).(trailersTime := t)
    {
      trailersTime := t;
    }

    method TrendingFulfilled(payload: seq<Movie>)
      modifies this
      ensures Snapshot() == old(Snapshot()).(trending := payload, hero := FirstOrNull(payload))
    {
      trending := payload;
      hero := FirstOrNull(payload);
    }

    method PopularFulfilled(payload: seq<Movie>)
      modifies this
      ensures Snapshot() == old(Snapshot()).(popular := payload)
    {
      popular := payload;
    }

    method TopRatedFulfilled(payload: seq<Movie>)
      modifies this
      ensures Snapshot() == old(Snapshot()).(topRated := payload)
    {
      topRated := payload;
    }

    method TrailersFulfilled(payload: seq<Movie>)
      modifies this
      ensures Snapshot() == old(Snapshot()).(trailers := payload)
    {
      trailers := payload;
    }

    /** The slice's reducer: routes an action to its case. */
    method Dispatch(a: Action)
      modifies this
      ensures Snapshot() == Reduce(old(Snapshot()), a)
    {
      match a
      case SetTrendingTime(t) => SetTrendingTime(t);
      case SetTrailersTime(t) => SetTrailersTime(t);
      case TrendingFulfilled(p) => TrendingFulfilled(p);
      case PopularFulfilled(p) => PopularFulfilled(p);
      case TopRatedFulfilled(p) => TopRatedFulfilled(p);
      case TrailersFulfilled(p) => TrailersFulfilled(p);
      case Unhandled =>
    }
  }
}
