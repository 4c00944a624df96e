/** Decision logic inside three views of api/views.py: the genre filter of
    `recommended_movies`, the outcome classification of `search_movie`, and
    the not-found check of `movie_detail`. Pagination, serialization to the
    output shape and the HTTP layer are not modelled; the pieces of them the
    decisions depend on are parameters. */
module Views {
  import opened Wrappers
  import opened Movies

  /** `movie.get("genre_ids", [])`. */
  function GenresOf(m: Movie): seq<int> {
    m.genreIds.GetOr([])
  }

  /** `set(genre_ids) & favourites` is non-empty. */
  predicate SharesGenre(m: Movie, favourites: set<int>) {
    exists i :: 0 <= i < |GenresOf(m)| && GenresOf(m)[i] in favourites
  }

  /** Reference definition of the filter: the movies that share a genre with
      `favourites`, in their original order. */
  function KeepSharing(movies: seq<Movie>, favourites: set<int>): seq<Movie>
    decreases |movies|
  {
    if |movies| == 0 then []
    else
      var last := movies[|movies| - 1];
      KeepSharing(movies[..|movies| - 1], favourites) + (if SharesGenre(last, favourites) then [last] else [])
  }

  /** `a` is `b` with some elements removed, the rest kept in order. */
  predicate IsSubsequence<T(==)>(a: seq<T>, b: seq<T>)
    decreases |b|
  {
    || |a| == 0
    || (&& |b| > 0
        && (|| (a[|a| - 1] == b[|b| - 1] && IsSubsequence(a[..|a| - 1], b[..|b| - 1]))
            || IsSubsequence(a, b[..|b| - 1])))
  }

  /** A movie is kept exactly when it is in the input and shares a genre. */
  lemma {:induction false} KeepSharingMembers(movies: seq<Movie>, favourites: set<int>, m: Movie)
    ensures m in KeepSharing(movies, favourites) <==> m in movies && SharesGenre(m, favourites)
    decreases |movies|
  {
    if |movies| > 0 {
      var init := movies[..|movies| - 1];
      KeepSharingMembers(init, favourites, m);
      assert movies == init + [movies[|movies| - 1]];
    }
  }

  /** The kept movies appear in the input order. */
  lemma {:induction false} KeepSharingIsSubsequence(movies: seq<Movie>, favourites: set<int>)
    ensures IsSubsequence(KeepSharing(movies, favourites), movies)
    decreases |movies|
  {
    if |movies| > 0 {
      var init := movies[..|movies| - 1];
      var last := movies[|movies| - 1];
      var kept := KeepSharing(init, favourites);
      KeepSharingIsSubsequence(init, favourites);
      if SharesGenre(last, favourites) {
        var a := kept + [last];
        assert KeepSharing(movies, favourites) == a;
        assert a[..|a| - 1] == kept && a[|a| - 1] == last;
      } else {
        assert KeepSharing(movies, favourites) == kept;
      }
    }
  }

  /** The body of `recommended_movies` up to pagination: the trending list
      (`.get('results') or []`), filtered by shared genre when the user has
      favourite genres, else returned whole. */
  method RecommendedMovies(favourites: set<int>, trending: ResultsField) returns (recommended: seq<Movie>)
    ensures favourites == {} ==> recommended == ResultsOrEmpty(trending)
    ensures favourites != {} ==> recommended == KeepSharing(ResultsOrEmpty(trending), favourites)
    ensures IsSubsequence(recommended, ResultsOrEmpty(trending))
    ensures favourites != {} ==>
              forall m :: m in recommended <==> m in ResultsOrEmpty(trending) && SharesGenre(m, favourites)
  {
    var movies := ResultsOrEmpty(trending);
    recommended := [];
    if favourites != {} {
      var i := 0;
      while i < |movies|
        invariant 0 <= i <= |movies|
        invariant recommended == KeepSharing(movies[..i], favourites)
      {
        assert movies[..i + 1][..i] == movies[..i];
        if SharesGenre(movies[i], favourites) {
          recommended := recommended + [movies[i]];
        }
        i := i + 1;
      }
      assert movies[..i] == movies;
      KeepSharingIsSubsequence(movies, favourites);
      forall m | true
        ensures m in recommended <==> m in movies && SharesGenre(m, favourites)
      {
        KeepSharingMembers(movies, favourites, m);
      }
    } else {
      recommended := movies;
      SubsequenceReflexive(movies);
    }
  }

  lemma {:induction false} SubsequenceReflexive<T>(s: seq<T>)
    ensures IsSubsequence(s, s)
    decreases |s|
  {
    if |s| > 0 {
      SubsequenceReflexive(s[..|s| - 1]);
    }
  }

  /** A movie without `genre_ids` is never recommended to a user with
      favourite genres. */
  lemma MovieWithoutGenresNeverRecommended(movies: seq<Movie>, favourites: set<int>, m: Movie)
    requires m.genreIds.None?
    ensures m !in KeepSharing(movies, favourites)
  {
  }

  /** An example: favourites {28, 12} keep the action movie and
      drop the documentary. */
  lemma RecommendationExample(a: Movie, b: Movie)
    requires a.genreIds == Some([28]) && b.genreIds == Some([99])
    ensures KeepSharing([a, b], {28, 12}) == [a]
  {
    assert SharesGenre(a, {28, 12}) by { assert GenresOf(a)[0] == 28; }
    assert !SharesGenre(b, {28, 12}) by { assert GenresOf(b) == [99]; }
    assert [a, b][..1] == [a];
    assert [a][..0] == [];
    assert KeepSharing([a], {28, 12}) == KeepSharing([], {28, 12}) + [a];
    assert KeepSharing([a, b], {28, 12}) == KeepSharing([a], {28, 12}) + [];
  }

  /** The payload `search_movies_from_tmdb` returns: a `results` key and an
      optional `error` key. */
  datatype SearchData = SearchData(results: ResultsField, error: Option<string>)

  /** The responses `search_movie` can produce. `InvalidPage` is the 404 the
      paginator raises for a page number out of range (below 1, or past the
      last page); `ServerError` is the 500 from counting a null `results`,
      which the paginator does only for a page number of at least 1. */
  datatype SearchResponse =
    | BadRequest
    | BadGateway(error: string)
    | InvalidPage
    | ServerError
    | NotFound(query: string)
    | Paginated(page: seq<Movie>)

  /** A response together with the number of upstream searches it issued. */
  datatype SearchOutcome = SearchOutcome(response: SearchResponse, upstreamCalls: nat)

  /** `q` is present and non-empty (`if not search_query` does not fire). */
  predicate HasQuery(q: Option<string>) {
    q.Some? && q.value != ""
  }

  /** The input conditions that decide each class of `search_movie`'s answer,
      stated on the inputs alone, in the order the view tests them. */
  predicate LeadsToBadRequest(q: Option<string>) {
    !HasQuery(q)
  }

  predicate LeadsToBadGateway(q: Option<string>, pageNum: int, search: (string, int) -> SearchData) {
    HasQuery(q) && search(q.value, pageNum).error.Some?
  }

  predicate LeadsToServerError(q: Option<string>, pageNum: int, search: (string, int) -> SearchData) {
    && HasQuery(q) && search(q.value, pageNum).error.None? && pageNum >= 1
    && search(q.value, pageNum).results.Null?
  }

  /** The paginator's selection, for a page number of at least 1, from a
      payload whose `results` is not null. */
  function PageOf(q: Option<string>, pageNum: int, search: (string, int) -> SearchData,
                  paginate: seq<Movie> -> Option<seq<Movie>>): Option<seq<Movie>>
    requires HasQuery(q)
  {
    paginate(ResultsOrEmpty(search(q.value, pageNum).results))
  }

  predicate LeadsToInvalidPage(q: Option<string>, pageNum: int, search: (string, int) -> SearchData,
                               paginate: seq<Movie> -> Option<seq<Movie>>) {
    && HasQuery(q) && search(q.value, pageNum).error.None?
    && (pageNum < 1 || (!search(q.value, pageNum).results.Null? && PageOf(q, pageNum, search, paginate).None?))
  }

  predicate LeadsToNotFound(q: Option<string>, pageNum: int, search: (string, int) -> SearchData,
                            paginate: seq<Movie> -> Option<seq<Movie>>) {
    && HasQuery(q) && search(q.value, pageNum).error.None? && pageNum >= 1
    && !search(q.value, pageNum).results.Null?
    && PageOf(q, pageNum, search, paginate) == Some([])
  }

  predicate LeadsToPaginated(q: Option<string>, pageNum: int, search: (string, int) -> SearchData,
                             paginate: seq<Movie> -> Option<seq<Movie>>) {
    && HasQuery(q) && search(q.value, pageNum).error.None? && pageNum >= 1
    && !search(q.value, pageNum).results.Null?
    && PageOf(q, pageNum, search, paginate).Some? && PageOf(q, pageNum, search, paginate).value != []
  }

  /** `search_movie(q, page)`. `search` stands for `search_movies_from_tmdb`
      (not defined in api/movie_data_redis.py, so not part
      of this model) and `paginate` for the paginator's selection of page
      `pageNum` (`None` when it is past the last page). The paginator reads
      the same `page` parameter as the view and rejects a number below 1
      before it looks at the results. */
  function SearchMovie(q: Option<string>, pageNum: int,
                       search: (string, int) -> SearchData,
                       paginate: seq<Movie> -> Option<seq<Movie>>): (o: SearchOutcome)
    ensures o.response == BadRequest <==> LeadsToBadRequest(q)
    ensures o.upstreamCalls == if o.response == BadRequest then 0 else 1
    ensures o.response.BadGateway? <==> LeadsToBadGateway(q, pageNum, search)
    ensures o.response.BadGateway? ==> o.response.error == search(q.value, pageNum).error.value
    ensures o.response == ServerError <==> LeadsToServerError(q, pageNum, search)
    ensures o.response == InvalidPage <==> LeadsToInvalidPage(q, pageNum, search, paginate)
    ensures o.response.NotFound? <==> LeadsToNotFound(q, pageNum, search, paginate)
    ensures o.response.NotFound? ==> o.response.query == q.value
    ensures o.response.Paginated? <==> LeadsToPaginated(q, pageNum, search, paginate)
    ensures o.response.Paginated? ==> PageOf(q, pageNum, search, paginate) == Some(o.response.page)
  {
    match q
    case None => SearchOutcome(BadRequest, 0)
    case Some(query) =>
      if query == "" then SearchOutcome(BadRequest, 0)
      else
        var data := search(query, pageNum);
        var response :=
          if data.error.Some? then BadGateway(data.error.value)
          else if pageNum < 1 then InvalidPage
          else if data.results.Null? then ServerError
          else match paginate(ResultsOrEmpty(data.results))
            case None => InvalidPage
            case Some(page) => if page == [] then NotFound(query) else Paginated(page);
        SearchOutcome(response, 1)
  }

  /** 1 for a condition that holds, 0 otherwise. */
  function Indicator(holds: bool): nat {
    if holds then 1 else 0
  }

  /** The six input conditions partition all inputs: exactly one holds for
      any query, payload and paginator. */
  lemma SearchConditionsPartition(q: Option<string>, pageNum: int,
                                  search: (string, int) -> SearchData,
                                  paginate: seq<Movie> -> Option<seq<Movie>>)
    ensures Indicator(LeadsToBadRequest(q))
            + Indicator(LeadsToBadGateway(q, pageNum, search))
            + Indicator(LeadsToServerError(q, pageNum, search))
            + Indicator(LeadsToInvalidPage(q, pageNum, search, paginate))
            + Indicator(LeadsToNotFound(q, pageNum, search, paginate))
            + Indicator(LeadsToPaginated(q, pageNum, search, paginate)) == 1
  {
  }

  /** The HTTP status code of each answer. */
  function SearchStatus(r: SearchResponse): int {
    match r
    case BadRequest => 400
    case BadGateway(_) => 502
    case InvalidPage => 404
    case ServerError => 500
    case NotFound(_) => 404
    case Paginated(_) => 200
  }

  /** `search_movie` answers 200 exactly when the query is present, the
      payload carries no error and a list of results, and the selected page
      is non-empty; a 4xx answer never follows an upstream error. */
  lemma SearchSucceedsIff(q: Option<string>, pageNum: int,
                          search: (string, int) -> SearchData,
                          paginate: seq<Movie> -> Option<seq<Movie>>)
    ensures SearchStatus(SearchMovie(q, pageNum, search, paginate).response) == 200
            <==> LeadsToPaginated(q, pageNum, search, paginate)
    ensures SearchStatus(SearchMovie(q, pageNum, search, paginate).response) == 502
            <==> LeadsToBadGateway(q, pageNum, search)
  {
  }

  /** A page number below 1 is rejected by the paginator whatever the
      payload's `results` hold, null included. */
  lemma PageBelowOneIsInvalid(q: Option<string>, pageNum: int,
                              search: (string, int) -> SearchData,
                              paginate: seq<Movie> -> Option<seq<Movie>>)
    requires HasQuery(q) && pageNum < 1
    ensures SearchMovie(q, pageNum, search, paginate).response ==
            if search(q.value, pageNum).error.Some? then BadGateway(search(q.value, pageNum).error.value)
            else InvalidPage
  {
  }

  /** The responses of `movie_detail`. */
  datatype DetailResponse = DetailNotFound | Detail(movie: Movie)

  /** `movie_detail(movie_id)`: 404 exactly when the lookup finds nothing.
      `lookup` stands for the lookup the view imports, which is not part of
      this model. */
  function MovieDetail(movieId: int, lookup: int -> Option<Movie>): (r: DetailResponse)
    ensures r.DetailNotFound? <==> lookup(movieId).None?
    ensures r.Detail? ==> Some(r.movie) == lookup(movieId)
  {
    match lookup(movieId)
    case None => DetailNotFound
    case Some(m) => Detail(m)
  }

  /** With the id lookup of api/utils.py over a result list, the detail view
      answers 404 exactly when no record carries the id. */
  lemma DetailNotFoundIffNoRecord(movieId: int, results: seq<Movie>)
    ensures MovieDetail(movieId, (id: int) => GetMovieById(id, results)).DetailNotFound?
            <==> !HasId(results, movieId)
  {
  }
}
