/**
 * MovieController: the catalogue endpoints. Each action reads the query string, makes
 * at most one TMDB request through the gateway and relays its body; a failed request,
 * a non-200 reply or a page that does not coerce to an integer ends in status 500.
 * The error bodies' texts are not modelled: a reply carries a body only on success.
 */
module MovieController {
  import opened Wrappers
  import opened Http
  import opened Text
  import opened TmdbService

  /** The query string once values are trimmed and empty ones have become null (None). */
  type Query = map<string, Option<string>>

  /** What the action answered, and the TMDB request it made, if any. */
  datatype Exchange = Exchange(status: int, body: Option<Json>, sent: Option<Request>)

  /** `$request->query(key)`: null when absent. */
  function Lookup(q: Query, key: string): Option<string> {
    if key in q then q[key] else None
  }

  /** `$request->query(key, default)`: the default only when the key is absent, not when it is null. */
  function QueryOr(q: Query, key: string, default: string): (r: Option<string>)
    ensures key !in q ==> r == Some(default)
    ensures key in q ==> r == q[key]
  {
    if key in q then q[key] else Some(default)
  }

  /**
   * The page handed to the gateway's `int $page`. A null, a value that is not a plain
   * integer, or one outside PHP's integer range does not reach the gateway: PHP throws
   * and the reply is 500.
   */
  function PageOf(q: Query): (page: Option<int>)
    ensures page.Some? ==> FitsPhpInt(page.value)
    ensures "page" !in q ==> page == Some(1)
    ensures "page" in q && q["page"].Some? ==>
      var p := ParseInt(q["page"].value);
      && (page.Some? <==> p.Some? && FitsPhpInt(p.value))
      && (page.Some? ==> page == p)
    ensures "page" in q && q["page"].None? ==> page.None?
  {
    match QueryOr(q, "page", "1")
    case None => None
    case Some(s) =>
      match ParseInt(s)
      case Some(p) => if FitsPhpInt(p) then Some(p) else None
      case None => None
  }

  /** Sending `req`: the body on 200, otherwise 500. */
  function Relay(send: Transport, req: Request): (x: Exchange)
    ensures x.sent == Some(req)
    ensures x.status == 200 <==> Decode(send(req)).Some?
    ensures x.status != 200 ==> x.status == 500 && x.body.None?
    ensures x.status == 200 ==> x.body == Some(send(req).value.body)
  {
    var body := Decode(send(req));
    Exchange(if body.Some? then 200 else 500, body, Some(req))
  }

  /** The filters an action forwards: every name present in the query, null or not. */
  function Forwarded(q: Query, names: set<Filter>): Filters {
    map f | f in names && f.Wire() in q :: q[f.Wire()]
  }

  /** `filters` holds exactly the names present in the query, with the query's values. */
  predicate Forwards(filters: Filters, q: Query, names: set<Filter>) {
    && filters.Keys <= names
    && forall f :: f in names ==> (f in filters <==> f.Wire() in q) && (f in filters ==> filters[f] == q[f.Wire()])
  }

  /** Forwards pins the filters down completely. */
  lemma ForwardsIsForwarded(filters: Filters, q: Query, names: set<Filter>)
    requires Forwards(filters, q, names)
    ensures filters == Forwarded(q, names)
  {
  }

  const SearchNames: set<Filter> := {FYear, FGenre, FSortBy, FVoteGte, FVoteLte}
  const DiscoverNames: set<Filter> := {FGenre, FYear, FSortBy, FVoteGte, FVoteLte, FReleaseGte, FReleaseLte}

  /** popular: page defaults to 1. */
  function Popular(q: Query, send: Transport): (x: Exchange)
    ensures PageOf(q).None? ==> x == Exchange(500, None, None)
    ensures PageOf(q).Some? ==> x == Relay(send, PopularMovies(PageOf(q).value))
  {
    match PageOf(q)
    case None => Exchange(500, None, None)
    case Some(page) => Relay(send, PopularMovies(page))
  }

  /** show: the route's id selects the movie. */
  function Show(id: int, send: Transport): (x: Exchange)
    ensures x == Relay(send, MovieDetails(id))
    ensures x.sent.Some? && x.sent.value.path == "/movie/" + IntToString(id)
    ensures x.sent.value.query == map[Lang := PText(Language)]
    ensures x.status == 200 <==> Decode(send(MovieDetails(id))).Some?
    ensures x.status != 200 ==> x.status == 500 && x.body.None?
  {
    Relay(send, MovieDetails(id))
  }

  /** The filter-collecting step of search: each filter copied when its key is present. */
  method SearchFilters(q: Query) returns (filters: Filters)
    ensures Forwards(filters, q, SearchNames)
  {
    filters := map[];
    filters := if "year" in q then filters[FYear := q["year"]] else filters;
    assert Forwards(filters, q, {FYear});
    filters := if "genre" in q then filters[FGenre := q["genre"]] else filters;
    assert Forwards(filters, q, {FYear, FGenre});
    filters := if "sort_by" in q then filters[FSortBy := q["sort_by"]] else filters;
    assert Forwards(filters, q, {FYear, FGenre, FSortBy});
    filters := if "vote_average_gte" in q then filters[FVoteGte := q["vote_average_gte"]] else filters;
    assert Forwards(filters, q, {FYear, FGenre, FSortBy, FVoteGte});
    filters := if "vote_average_lte" in q then filters[FVoteLte := q["vote_average_lte"]] else filters;
    assert Forwards(filters, q, {FYear, FGenre, FSortBy, FVoteGte, FVoteLte});
  }

  /** search: a falsy `q` is refused with 400 before anything is sent. */
  method Search(q: Query, apiKey: string, send: Transport) returns (x: Exchange)
    ensures !Truthy(Lookup(q, "q")) ==> x == Exchange(400, None, None)
    ensures Truthy(Lookup(q, "q")) && PageOf(q).None? ==> x == Exchange(500, None, None)
    ensures Truthy(Lookup(q, "q")) && PageOf(q).Some? ==>
      && x.sent.Some?
      && x.sent.value.path == "/search/movie"
      && IsSearchQuery(x.sent.value.query, apiKey, q["q"].value, PageOf(q).value, Forwarded(q, SearchNames))
      && x == Relay(send, x.sent.value)
  {
    var query := Lookup(q, "q");
    var page := PageOf(q);
    if !Truthy(query) {
      return Exchange(400, None, None);
    }
    var filters := SearchFilters(q);
    ForwardsIsForwarded(filters, q, SearchNames);
    if page.None? {
      return Exchange(500, None, None);
    }
    var req := SearchMovies(apiKey, query.value, page.value, filters);
    x := Relay(send, req);
  }

  /** The filter-collecting step of discover. */
  method DiscoverFilters(q: Query) returns (filters: Filters)
    ensures Forwards(filters, q, DiscoverNames)
  {
    filters := map[];
    filters := if "genre" in q then filters[FGenre := q["genre"]] else filters;
    assert Forwards(filters, q, {FGenre});
    filters := if "year" in q then filters[FYear := q["year"]] else filters;
    assert Forwards(filters, q, {FGenre, FYear});
    filters := if "sort_by" in q then filters[FSortBy := q["sort_by"]] else filters;
    assert Forwards(filters, q, {FGenre, FYear, FSortBy});
    filters := if "vote_average_gte" in q then filters[FVoteGte := q["vote_average_gte"]] else filters;
    assert Forwards(filters, q, {FGenre, FYear, FSortBy, FVoteGte});
    filters := if "vote_average_lte" in q then filters[FVoteLte := q["vote_average_lte"]] else filters;
    assert Forwards(filters, q, {FGenre, FYear, FSortBy, FVoteGte, FVoteLte});
    filters := if "release_date_gte" in q then filters[FReleaseGte := q["release_date_gte"]] else filters;
    assert Forwards(filters, q, {FGenre, FYear, FSortBy, FVoteGte, FVoteLte, FReleaseGte});
    filters := if "release_date_lte" in q then filters[FReleaseLte := q["release_date_lte"]] else filters;
    assert Forwards(filters, q, {FGenre, FYear, FSortBy, FVoteGte, FVoteLte, FReleaseGte, FReleaseLte});
  }

  /** discover: no required parameter; sort_by falls back to popularity. */
  method Discover(q: Query, apiKey: string, send: Transport) returns (x: Exchange)
    ensures PageOf(q).None? ==> x == Exchange(500, None, None)
    ensures PageOf(q).Some? ==>
      && x.sent.Some?
      && x.sent.value.path == "/discover/movie"
      && IsDiscoverQuery(x.sent.value.query, apiKey, PageOf(q).value, Forwarded(q, DiscoverNames))
      && x == Relay(send, x.sent.value)
  {
    var page := PageOf(q);
    var filters := DiscoverFilters(q);
    ForwardsIsForwarded(filters, q, DiscoverNames);
    if page.None? {
      return Exchange(500, None, None);
    }
    var req := DiscoverMovies(apiKey, filters, page.value);
    x := Relay(send, req);
  }

  /** trending: the window defaults to "week" and becomes part of the path. */
  function Trending(q: Query, send: Transport): (x: Exchange)
    ensures QueryOr(q, "time_window", "week").None? || PageOf(q).None? ==> x == Exchange(500, None, None)
    ensures QueryOr(q, "time_window", "week").Some? && PageOf(q).Some? ==>
      x.sent == Some(TrendingMovies(QueryOr(q, "time_window", "week").value, PageOf(q).value))
    ensures "time_window" !in q && PageOf(q).Some? ==> x.sent == Some(TrendingMovies("week", PageOf(q).value))
    ensures x.sent.Some? ==> x == Relay(send, x.sent.value)
  {
    match (QueryOr(q, "time_window", "week"), PageOf(q))
    case (Some(window), Some(page)) => Relay(send, TrendingMovies(window, page))
    case _ => Exchange(500, None, None)
  }

  /** topRated: page defaults to 1. */
  function TopRated(q: Query, send: Transport): (x: Exchange)
    ensures PageOf(q).None? ==> x == Exchange(500, None, None)
    ensures PageOf(q).Some? ==> x == Relay(send, TopRatedMovies(PageOf(q).value))
  {
    match PageOf(q)
    case None => Exchange(500, None, None)
    case Some(page) => Relay(send, TopRatedMovies(page))
  }

  /** genres: no input at all. */
  function ListGenres(send: Transport): (x: Exchange)
    ensures x == Relay(send, Genres())
  {
    Relay(send, Genres())
  }

  /** A page written as an integer in PHP's range reaches the gateway unchanged. */
  lemma PageRoundTrip(q: Query, page: int)
    requires "page" in q && q["page"] == Some(IntToString(page)) && FitsPhpInt(page)
    ensures PageOf(q) == Some(page)
  {
    ParseIntToString(page);
  }
}
