/**
 * TmdbService: the requests the backend sends to TMDB. Building the query parameters
 * is modelled; the HTTP transport is the oracle `send`, which yields a status and a
 * decoded body, or nothing when the request itself throws.
 */
module TmdbService {
  import opened Wrappers
  import opened Http
  import opened Text
  import Models

  const BaseUrl: string := "https://api.themoviedb.org/3"
  const ImageBaseUrl: string := "https://image.tmdb.org/t/p"
  const Language: string := "pt-BR"

  datatype ParamValue = PText(s: string) | PInt(i: int) | PBool(b: bool)

  /** The query parameter names TMDB is sent; `Wire` is the spelling on the query string. */
  datatype Param =
    | ApiKey | Lang | Query | Page | IncludeAdult | SortBy | Year | WithGenres
    | VoteGte | VoteLte | ReleaseGte | ReleaseLte
  {
    function Wire(): string {
      match this
      case ApiKey => "api_key"
      case Lang => "language"
      case Query => "query"
      case Page => "page"
      case IncludeAdult => "include_adult"
      case SortBy => "sort_by"
      case Year => "year"
      case WithGenres => "with_genres"
      case VoteGte => "vote_average.gte"
      case VoteLte => "vote_average.lte"
      case ReleaseGte => "release_date.gte"
      case ReleaseLte => "release_date.lte"
    }
  }

  /** The filter names the controllers forward; `Wire` is the request's own key. */
  datatype Filter = FYear | FGenre | FSortBy | FVoteGte | FVoteLte | FReleaseGte | FReleaseLte
  {
    function Wire(): string {
      match this
      case FYear => "year"
      case FGenre => "genre"
      case FSortBy => "sort_by"
      case FVoteGte => "vote_average_gte"
      case FVoteLte => "vote_average_lte"
      case FReleaseGte => "release_date_gte"
      case FReleaseLte => "release_date_lte"
    }
  }

  type Params = map<Param, ParamValue>

  /** No two parameters share a spelling, so a Params map is exactly one query string. */
  lemma ParamWireInjective(p: Param, q: Param)
    requires p.Wire() == q.Wire()
    ensures p == q
  {
  }

  /** One GET to TMDB: a path below BaseUrl and its query parameters. */
  datatype Request = Request(path: string, query: Params)

  datatype HttpResponse = HttpResponse(status: int, body: Json)

  /** The network: None when the request throws before a response is read. */
  type Transport = Request -> Option<HttpResponse>

  /** Filters as the controller hands them over; None is a key present with a null value. */
  type Filters = map<Filter, Option<string>>

  /** PHP's isset($filters[key]): present and not null. */
  predicate IsSet(filters: Filters, key: Filter) {
    key in filters && filters[key].Some?
  }

  // ---------------------------------------------------------------- the status check

  /** Every fetch returns the decoded body only on status 200 and throws otherwise. */
  function Decode(reply: Option<HttpResponse>): (r: Option<Json>)
    ensures r.Some? <==> reply.Some? && reply.value.status == 200
    ensures r.Some? ==> r.value == reply.value.body
  {
    match reply
    case Some(resp) => if resp.status == 200 then Some(resp.body) else None
    case None => None
  }

  // ---------------------------------------------------------------- fixed requests

  /** getPopularMovies($page). */
  function PopularMovies(page: int): (req: Request)
    ensures req.path == "/movie/popular"
    ensures req.query.Keys == {Page, Lang}
    ensures req.query[Page] == PInt(page) && req.query[Lang] == PText(Language)
  {
    Request("/movie/popular", map[Page := PInt(page), Lang := PText(Language)])
  }

  /** getMovieDetails($movieId). */
  function MovieDetails(movieId: int): (req: Request)
    ensures req.path == "/movie/" + IntToString(movieId)
    ensures req.query == map[Lang := PText(Language)]
  {
    Request("/movie/" + IntToString(movieId), map[Lang := PText(Language)])
  }

  /** getGenres(). */
  function Genres(): (req: Request)
    ensures req.path == "/genre/movie/list" && req.query == map[Lang := PText(Language)]
  {
    Request("/genre/movie/list", map[Lang := PText(Language)])
  }

  /** getTrendingMovies($timeWindow, $page): the window is a path segment. */
  function TrendingMovies(timeWindow: string, page: int): (req: Request)
    ensures req.path == "/trending/movie/" + timeWindow
    ensures req.query.Keys == {Lang, Page}
    ensures req.query[Lang] == PText(Language) && req.query[Page] == PInt(page)
  {
    Request("/trending/movie/" + timeWindow, map[Lang := PText(Language), Page := PInt(page)])
  }

  /** getTopRatedMovies($page). */
  function TopRatedMovies(page: int): (req: Request)
    ensures req.path == "/movie/top_rated"
    ensures req.query.Keys == {Lang, Page}
    ensures req.query[Lang] == PText(Language) && req.query[Page] == PInt(page)
  {
    Request("/movie/top_rated", map[Lang := PText(Language), Page := PInt(page)])
  }

  // ---------------------------------------------------------------- search and discover

  /** Filter `fk` is copied to parameter `pk` exactly when it is set. */
  predicate Mapped(params: Params, pk: Param, filters: Filters, fk: Filter) {
    if IsSet(filters, fk) then pk in params && params[pk] == PText(filters[fk].value)
    else pk !in params
  }

  const SearchKeys: set<Param> := {
    ApiKey, Lang, Query, Page, IncludeAdult, Year, WithGenres, SortBy, VoteGte, VoteLte}

  /** The parameters searchMovies must send. */
  predicate IsSearchQuery(params: Params, apiKey: string, query: string, page: int, filters: Filters) {
    && params.Keys <= SearchKeys
    && ApiKey in params && params[ApiKey] == PText(apiKey)
    && Lang in params && params[Lang] == PText(Language)
    && Query in params && params[Query] == PText(query)
    && Page in params && params[Page] == PInt(page)
    && IncludeAdult in params && params[IncludeAdult] == PBool(false)
    && Mapped(params, Year, filters, FYear)
    && Mapped(params, WithGenres, filters, FGenre)
    && Mapped(params, SortBy, filters, FSortBy)
    && Mapped(params, VoteGte, filters, FVoteGte)
    && Mapped(params, VoteLte, filters, FVoteLte)
  }

  const DiscoverKeys: set<Param> := {
    ApiKey, Lang, Page, IncludeAdult, SortBy,
    WithGenres, Year, VoteGte, VoteLte,
    ReleaseGte, ReleaseLte}

  /**
   * The discover parameters once the first `n` filters are applied, in the order
   * discoverMovies applies them: the later parameters are still absent.
   */
  predicate DiscoverUpTo(params: Params, apiKey: string, page: int, filters: Filters, n: nat) {
    && params.Keys <= DiscoverKeys
    && ApiKey in params && params[ApiKey] == PText(apiKey)
    && Lang in params && params[Lang] == PText(Language)
    && Page in params && params[Page] == PInt(page)
    && IncludeAdult in params && params[IncludeAdult] == PBool(false)
    && SortBy in params
    && params[SortBy] == PText(if IsSet(filters, FSortBy) then filters[FSortBy].value else "popularity.desc")
    && (if n >= 1 then Mapped(params, WithGenres, filters, FGenre) else WithGenres !in params)
    && (if n >= 2 then Mapped(params, Year, filters, FYear) else Year !in params)
    && (if n >= 3 then Mapped(params, VoteGte, filters, FVoteGte) else VoteGte !in params)
    && (if n >= 4 then Mapped(params, VoteLte, filters, FVoteLte) else VoteLte !in params)
    && (if n >= 5 then Mapped(params, ReleaseGte, filters, FReleaseGte) else ReleaseGte !in params)
    && (if n >= 6 then Mapped(params, ReleaseLte, filters, FReleaseLte) else ReleaseLte !in params)
  }

  /** The parameters discoverMovies must send: every filter applied. */
  predicate IsDiscoverQuery(params: Params, apiKey: string, page: int, filters: Filters) {
    DiscoverUpTo(params, apiKey, page, filters, 6)
  }

  /** searchMovies: the fixed parameters, then one conditional insertion per filter. */
  method SearchMovies(apiKey: string, query: string, page: int, filters: Filters) returns (req: Request)
    ensures req.path == "/search/movie"
    ensures IsSearchQuery(req.query, apiKey, query, page, filters)
  {
    var params: Params := map[
      ApiKey := PText(apiKey),
      Lang := PText(Language),
      Query := PText(query),
      Page := PInt(page),
      IncludeAdult := PBool(false)];
    params := if IsSet(filters, FYear) then params[Year := PText(filters[FYear].value)] else params;
    params := if IsSet(filters, FGenre) then params[WithGenres := PText(filters[FGenre].value)] else params;
    params := if IsSet(filters, FSortBy) then params[SortBy := PText(filters[FSortBy].value)] else params;
    params := if IsSet(filters, FVoteGte) then params[VoteGte := PText(filters[FVoteGte].value)] else params;
    params := if IsSet(filters, FVoteLte) then params[VoteLte := PText(filters[FVoteLte].value)] else params;
    req := Request("/search/movie", params);
  }

  /** discoverMovies: sort_by falls back to popularity.desc; the other filters only when set. */
  method DiscoverMovies(apiKey: string, filters: Filters, page: int) returns (req: Request)
    ensures req.path == "/discover/movie"
    ensures IsDiscoverQuery(req.query, apiKey, page, filters)
  {
    var params: Params := map[
      ApiKey := PText(apiKey),
      Lang := PText(Language),
      Page := PInt(page),
      IncludeAdult := PBool(false),
      SortBy := PText(if IsSet(filters, FSortBy) then filters[FSortBy].value else "popularity.desc")];
    assert DiscoverUpTo(params, apiKey, page, filters, 0);
    params := if IsSet(filters, FGenre) then params[WithGenres := PText(filters[FGenre].value)] else params;
    assert DiscoverUpTo(params, apiKey, page, filters, 1);
    params := if IsSet(filters, FYear) then params[Year := PText(filters[FYear].value)] else params;
    assert DiscoverUpTo(params, apiKey, page, filters, 2);
    params := if IsSet(filters, FVoteGte) then params[VoteGte := PText(filters[FVoteGte].value)] else params;
    assert DiscoverUpTo(params, apiKey, page, filters, 3);
    params := if IsSet(filters, FVoteLte) then params[VoteLte := PText(filters[FVoteLte].value)] else params;
    assert DiscoverUpTo(params, apiKey, page, filters, 4);
    params := if IsSet(filters, FReleaseGte) then params[ReleaseGte := PText(filters[FReleaseGte].value)] else params;
    assert DiscoverUpTo(params, apiKey, page, filters, 5);
    params := if IsSet(filters, FReleaseLte) then params[ReleaseLte := PText(filters[FReleaseLte].value)] else params;
    assert DiscoverUpTo(params, apiKey, page, filters, 6);
    req := Request("/discover/movie", params);
  }

  /** The search parameters are fully determined by the inputs: one query per request. */
  lemma SearchQueryUnique(p1: Params, p2: Params, apiKey: string, query: string, page: int, filters: Filters)
    requires IsSearchQuery(p1, apiKey, query, page, filters)
    requires IsSearchQuery(p2, apiKey, query, page, filters)
    ensures p1 == p2
  {
    forall k | k in SearchKeys ensures (k in p1 <==> k in p2) && (k in p1 ==> p1[k] == p2[k]) { }
    assert p1.Keys == p2.Keys;
  }

  /** The discover parameters are fully determined by the inputs. */
  lemma DiscoverQueryUnique(p1: Params, p2: Params, apiKey: string, page: int, filters: Filters)
    requires IsDiscoverQuery(p1, apiKey, page, filters)
    requires IsDiscoverQuery(p2, apiKey, page, filters)
    ensures p1 == p2
  {
    forall k | k in DiscoverKeys ensures (k in p1 <==> k in p2) && (k in p1 ==> p1[k] == p2[k]) { }
    assert p1.Keys == p2.Keys;
  }

  // ---------------------------------------------------------------- images

  /** getImageUrl($path, $size = "w500"): base, a slash, the size, then the path as given. */
  function ImageUrl(path: string, size: string := "w500"): (url: string)
    ensures |url| == |ImageBaseUrl| + 1 + |size| + |path|
    ensures url[..|ImageBaseUrl| + 1] == ImageBaseUrl + "/"
    ensures url[|ImageBaseUrl| + 1..|ImageBaseUrl| + 1 + |size|] == size
    ensures url[|ImageBaseUrl| + 1 + |size|..] == path
  {
    ImageBaseUrl + "/" + size + path
  }

  /** Different paths of the same size give different URLs. */
  lemma ImageUrlInjective(p1: string, p2: string, size: string)
    requires ImageUrl(p1, size) == ImageUrl(p2, size)
    ensures p1 == p2
  {
    var n := |ImageBaseUrl| + 1 + |size|;
    assert p1 == ImageUrl(p1, size)[n..];
  }

  /** The poster URL a saved item carries is the gateway's default-size image URL of its path. */
  lemma PosterUrlIsImageUrl(posterPath: Option<string>)
    requires Truthy(posterPath)
    ensures Models.PosterUrl(posterPath) == Some(ImageUrl(posterPath.value))
  {
    assert Models.PosterBase == ImageBaseUrl + "/" + "w500";
  }
}
