/** `get_trending_movies` of api/movie_data_redis.py: the cache-through
    accessor wrapped around `fetch_movies_from_tmdb`, under one fixed key. */
module Trending {
  import opened Wrappers
  import opened Movies
  import Cache
  import Upstream

  /** The values that travel through the trending cache entry: a JSON text
      (what `json.dumps` writes) or the aggregate dict `{"results": [...]}`. */
  datatype Value = Text(text: string) | Aggregate(results: seq<Movie>)

  /** An abstract JSON codec for these values: `encode` is `None` when
      `json.dumps` raises, `decode` is `None` when `json.loads` raises. */
  datatype Json = Json(encode: Value -> Option<string>, decode: string -> Option<Value>)

  /** The JSON round-trip assumption: an encoding is a non-empty text that
      decodes back to the encoded value. */
  ghost predicate JsonRoundTrips(json: Json) {
    forall v :: json.encode(v).Some? ==> json.encode(v).value != "" && json.decode(json.encode(v).value) == Some(v)
  }

  /** Python truthiness: an empty string is falsy; a dict with a `results`
      key is a non-empty dict and so truthy. */
  predicate Truthy(v: Value) {
    match v
    case Text(s) => s != ""
    case Aggregate(_) => true
  }

  /** The runtime the accessor sees: `json.loads` of a dict raises `TypeError`. */
  function RuntimeOf(json: Json): (rt: Cache.Runtime<Value>)
    ensures forall xs :: rt.loads(Aggregate(xs)) == None
    ensures forall v :: rt.dumps(v).Some? <==> json.encode(v).Some?
  {
    Cache.Runtime(
      (v: Value) => match json.encode(v) case Some(s) => Some(Text(s)) case None => None,
      (v: Value) => match v case Text(s) => json.decode(s) case Aggregate(_) => None,
      Truthy)
  }

  /** The codec's round trip carries over to the runtime the accessor sees. */
  lemma RuntimeRoundTrips(json: Json)
    requires JsonRoundTrips(json)
    ensures Cache.RoundTrips(RuntimeOf(json))
  {
  }

  /** The cache key `get_trending_movies` uses by default. It does not depend
      on `max_pages`. */
  const TrendingKey: string := "trending_movies"

  /** `fetch_movies_from_tmdb` with `max_pages` bound, as the producer. */
  function Producer(up: int -> Upstream.Response, maxPages: int): () -> Result<Value, int> {
    () => match Upstream.StrictAggregate(up, maxPages)
          case Ok(xs) => Ok(Aggregate(xs))
          case Err(p) => Err(p)
  }

  /** `get_trending_movies(max_pages)`. */
  function GetTrendingMovies(json: Json, store: Cache.Store<Value>, up: int -> Upstream.Response, maxPages: int)
    : (c: Cache.Call<Value, int>)
    ensures forall k :: k in store && k != TrendingKey ==> k in c.store && c.store[k] == store[k]
    ensures c.store.Keys <= store.Keys + {TrendingKey}
    ensures !Cache.IsHit(RuntimeOf(json), store, TrendingKey) ==>
              c.producerCalls == 1 &&
              (Upstream.StrictAggregate(up, maxPages).Ok? <==> c.outcome.Ok?) &&
              (c.outcome.Ok? ==> c.outcome.value == Aggregate(Upstream.StrictAggregate(up, maxPages).value)) &&
              (c.outcome.Err? ==> Upstream.StrictAggregate(up, maxPages) == Err(c.outcome.error))
    ensures Cache.IsHit(RuntimeOf(json), store, TrendingKey) ==>
              c.producerCalls == 0 && c.store == store &&
              c.outcome == Ok(Cache.HitValue(RuntimeOf(json), store[TrendingKey]))
  {
    Cache.GetOrSet(RuntimeOf(json), store, TrendingKey, Producer(up, maxPages))
  }

  /** Calls with different page counts share one entry: after a miss that
      fetched `maxPages` pages, a call asking for `otherPages` pages (against
      any upstream) fetches nothing and returns the first call's aggregate. */
  lemma PageCountsShareOneEntry(json: Json, store: Cache.Store<Value>,
                                up: int -> Upstream.Response, maxPages: int,
                                otherUp: int -> Upstream.Response, otherPages: int)
    requires JsonRoundTrips(json)
    requires TrendingKey !in store
    requires Upstream.StrictAggregate(up, maxPages).Ok?
    ensures var first := GetTrendingMovies(json, store, up, maxPages);
            var second := GetTrendingMovies(json, first.store, otherUp, otherPages);
            && second.producerCalls == 0
            && second.outcome == Ok(Aggregate(Upstream.StrictAggregate(up, maxPages).value))
  {
  }

  /** A failed fetch caches nothing: the next call fetches again. */
  lemma FailedFetchIsNotCached(json: Json, store: Cache.Store<Value>,
                               up: int -> Upstream.Response, maxPages: int,
                               otherUp: int -> Upstream.Response, otherPages: int)
    requires TrendingKey !in store
    requires Upstream.StrictAggregate(up, maxPages).Err?
    ensures var first := GetTrendingMovies(json, store, up, maxPages);
            && first.outcome.Err?
            && GetTrendingMovies(json, first.store, otherUp, otherPages).producerCalls == 1
  {
  }
}
