# Project Nexus movie API: a Dafny model of its sequential core

Project Nexus is a Django REST API that proxies an upstream movie catalogue
(TMDB), caches its answers, and adds accounts, favourites and genre-based
recommendations. Most of it is framework glue. This project models the pieces
that are plain sequential logic, as pure functions and small methods, and
proves what they promise:

- **Cache-through accessor** (`get_or_set_cache`): a function from a store
  (`map<string, V>`) to the returned value, the new store and the number of
  producer calls. JSON `dumps`/`loads` and Python truthiness are a parameter
  (`Cache.Runtime`). The JSON round trip is a hypothesis of the lemmas that
  need it (`Cache.RoundTrips`, `Trending.JsonRoundTrips`), not an axiom.
- **Upstream paging**: the loop of `fetch_movies_from_tmdb`, where an exception
  on a page escapes, and the loop of `movie_data.py`, where it is caught and the
  page skipped. The upstream service is a function from page number to
  `Response` (`Reply(status, body)` or `Raised`). Both loops are methods proved
  against one reference definition of the aggregate (`Upstream.Collected`).
- **Trending facade** (`get_trending_movies`): the accessor around the strict
  loop, under the fixed key `"trending_movies"`.
- **Lookup by id** (`get_movie_by_id`): a first-match scan.
- **Permissions**: `IsAdminOrAnonymous`, `IsUser` and the action table of
  `UserViewSet.get_permissions`.
- **Views**: the genre filter of `recommended_movies`, the outcome classes of
  `search_movie`, and the not-found check of `movie_detail`.
- **Serializers**: the two poster-URL constructions, `validate_movie_id`,
  `_extract_movie_data`, `validate_genres` and the two password-match checks.

Modules follow the source: `Wrappers` (Option/Result), `Movies` (the record
and the lookup), `Cache`, `Upstream`, `Trending`, `Permissions`, `Views`,
`Serializers`.

Two behaviours of the code that the model states precisely:

- `get_trending_movies` uses the single default key `"trending_movies"` for
  every page count and language, so different page counts share one entry.
  `Trending.PageCountsShareOneEntry` proves the consequence: after a 3-page
  fetch, a 5-page request is a cache hit that returns the 3-page aggregate.
- In `fetch_movies_from_tmdb` only a non-200 reply is skipped. A transport
  exception, a 200 body that is not JSON, or a null `results` value raises, and
  the exception escapes the loop and the cache accessor. Only `movie_data.py`
  catches them.

An observation the model makes precise: the custom actions `edit_profile`,
`view_catalogue` and `recommended_movies` declare `IsUser` on their decorator.
But `get_permissions` builds the permission list from the action name alone,
so those actions get `IsAuthenticated` (`Permissions.DecoratedActionsGetIsAuthenticated`).

## Model

| member | source | states |
|---|---|---|
| `Cache.GetOrSet` | project_nexus/api/utils.py:7-25 | A hit (present and truthy entry) calls no producer and leaves the store as is. It returns the decoded entry, or the raw entry when decoding fails. A miss, including a falsy entry such as "", calls the producer exactly once and returns its outcome. Only `key` may change: it gets the JSON text when encoding succeeds, else the raw value, and nothing is written when the producer raises. |
| `Cache.MissThenHit` | project_nexus/api/utils.py:10-25 | Under the JSON round trip, a miss whose value encodes, followed by a second call with the same key, is a hit. The second call never runs its producer and returns what the first call returned. |
| `Cache.MissThenHitRaw` | project_nexus/api/utils.py:11-23 | A value that fails to encode is stored raw. The next call is a hit iff that value is truthy, and it then returns the value unchanged when `json.loads` rejects it. |
| `Cache.Expire` | project_nexus/api/utils.py:21-23 | TTL expiry removes exactly the expired key; every other entry is kept with its value. |
| `Cache.ExpiredKeyMisses` | project_nexus/api/utils.py:10-18 | After its key expires, the next call is a miss and calls the producer once. |
| `Cache.KeysAreIsolated` | project_nexus/api/utils.py:10-23 | A call for one key never changes what a call for a different key returns. |
| `Movies.GetMovieById` | project_nexus/api/utils.py:41-45 | Returns `None` iff no record has the target id (also for an empty list). Otherwise it returns a record with that id that sits at an index before which no record has the id. |
| `Movies.LookupIsFirstMatch` | project_nexus/api/utils.py:42-45 | The lookup agrees with an index-based definition: it returns the record at the first matching index, or `None` when the index runs past the end. |
| `Movies.LookupIgnoresLaterRecords` | project_nexus/api/utils.py:42-44 | Once some record matches, appending more records never changes the answer. |
| `Movies.LookupExample` | project_nexus/api/utils.py:41-45 | In `[{id:550}, {id:551}]`, looking up 550 finds the first record and 999 finds nothing. |
| `Movies.ResultsOrEmpty` | project_nexus/api/views.py:252 | A missing or null `results` reads as the empty list; a list is taken as is. |
| `Upstream.Pages` | project_nexus/api/movie_data_redis.py:34 | `range(1, n + 1)` is the pages 1..n in increasing order, and empty for n <= 0. |
| `Upstream.Effect` | project_nexus/api/movie_data_redis.py:35-42 | A page is skipped iff the reply is not 200. Handling raises iff the request raised, or a 200 body is not JSON or has a null `results`. Otherwise the page contributes its `results`, or nothing when the key is absent. |
| `Upstream.FetchMoviesFromTmdb` | project_nexus/api/movie_data_redis.py:28-44 | The method computes the reference outcome. When no page raises, it requested exactly pages 1..max_pages in order and returns the in-order concatenation of every page's contribution. Otherwise it stops at the first raising page `p`, having requested exactly 1..p, and the exception reports `p`. |
| `Upstream.FetchAllPages` | project_nexus/movie_data.py:31-47 | Requests exactly pages 1..3 in order whatever happens. Returns the concatenation of the contributions of the 200 pages; a non-200 page and a page whose handling raised contribute nothing. |
| `Upstream.CollectedLength` | project_nexus/api/movie_data_redis.py:36-38 | The aggregate's length is the sum, over the pages, of each successful page's list length. |
| `Upstream.CollectedPrefix` | project_nexus/api/movie_data_redis.py:34-38 | Later pages only append: the aggregate of pages 1..m is a prefix of the aggregate of pages 1..n when m <= n. |
| `Upstream.PageBlock` | project_nexus/api/movie_data_redis.py:34-38 | Page p's records appear unchanged, contiguous and in their own order, right after the records of pages 1..p-1. |
| `Upstream.FailuresAreInterchangeable` | project_nexus/movie_data.py:35-47 | In the exception-tolerant loop the aggregate depends only on what each page contributes: how a failing page fails (which status, an exception) does not matter, and a failure does not stop later pages. |
| `Upstream.FirstThrowAgrees` | project_nexus/api/movie_data_redis.py:34-42 | Two services that raise on the same pages have the same first raising page. |
| `Upstream.StrictFailuresAreInterchangeable` | project_nexus/api/movie_data_redis.py:34-42 | In the strict loop, two services that raise on the same pages and agree on every page's contribution give the same outcome, so which non-200 status a skipped page answers does not matter. |
| `Upstream.StrictMatchesTolerantWithoutExceptions` | project_nexus/movie_data.py:35-47 | When no page raises, the strict loop and the exception-tolerant loop produce the same aggregate. |
| `Upstream.NoPagesNoResults` | project_nexus/api/movie_data_redis.py:32-34 | A page count of 0 or less requests nothing and yields `{"results": []}`. |
| `Upstream.PartialFailureExample` | project_nexus/api/movie_data_redis.py:34-42 | With three pages where page 2 answers 500, both loops return page 1's records followed by page 3's, and nothing is raised. |
| `Trending.RuntimeRoundTrips` | project_nexus/api/utils.py:13-21 | If the JSON codec round-trips, so does the cache runtime: `loads(dumps(v)) == v`, and the stored text is truthy. |
| `Trending.GetTrendingMovies` | project_nexus/api/movie_data_redis.py:47-52 | Only the entry `"trending_movies"` can change. A hit fetches nothing, keeps the store and returns the decoded cached entry (or the raw entry when it does not decode). A miss fetches once; it succeeds iff no requested page raises, returns the aggregate of the requested pages, and otherwise propagates the exception of the first raising page. |
| `Trending.PageCountsShareOneEntry` | project_nexus/api/movie_data_redis.py:47-52 | After a successful fetch of m pages, a call asking for any other page count, against any upstream, fetches nothing. It returns the m-page aggregate, because the key does not depend on the page count. |
| `Trending.FailedFetchIsNotCached` | project_nexus/api/utils.py:18-21 | A fetch that raises writes nothing to the store, so the next call fetches again. |
| `Permissions.AdminOrAnonymousHasPermission` | project_nexus/api/utils.py:50-55 | GET, HEAD and OPTIONS are always allowed. POST is allowed iff the user is anonymous or a superuser. Every other verb is denied. |
| `Permissions.MembersOnlyRead` | project_nexus/api/utils.py:50-55 | A non-superuser account gets a verb from `IsAdminOrAnonymous` iff the verb is safe. |
| `Permissions.AdminOrAnonymousHasObjectPermission` | project_nexus/api/utils.py:57-60 | Object access is allowed iff the user is anonymous or a superuser. |
| `Permissions.IsUserHasPermission` | project_nexus/api/utils.py:69-73 | View access is allowed iff the user is not anonymous. |
| `Permissions.IsUserHasObjectPermission` | project_nexus/api/utils.py:75-79 | Object access is allowed iff the object is the requesting account's own user row. |
| `Permissions.OwnershipImpliesAuthenticated` | project_nexus/api/utils.py:69-79 | Passing `IsUser`'s object check implies passing its view check. |
| `Permissions.PermissionFor` | project_nexus/api/views.py:166-178 | create, password_change and password_reset map to AllowAny. update, partial_update and destroy map to IsUser. Every other action, and no action, maps to IsAuthenticated. |
| `Permissions.AnonymousReachesOnlyPublicActions` | project_nexus/api/views.py:170-178 | An anonymous request passes the view-level check iff the action is create, password_change or password_reset. |
| `Permissions.AccountsPassViewCheck` | project_nexus/api/views.py:170-178 | An authenticated account passes the view-level check for every action. |
| `Permissions.DecoratedActionsGetIsAuthenticated` | project_nexus/api/views.py:185-190 | edit_profile, view_catalogue and recommended_movies get IsAuthenticated from the table, whatever their decorator declares. |
| `Views.RecommendedMovies` | project_nexus/api/views.py:249-262 | With no favourite genres, the recommendation is the trending list unchanged. Otherwise a movie is recommended iff it is trending and its `genre_ids` meets the favourites. In both cases the recommendation is an order-preserving subsequence of the trending list, and a missing or null `results` gives the empty list. |
| `Views.KeepSharingMembers` | project_nexus/api/views.py:256-260 | A movie is kept by the genre filter iff it is in the input and shares a genre with the favourites. |
| `Views.KeepSharingIsSubsequence` | project_nexus/api/views.py:257-260 | The filter's output is a subsequence of its input: nothing is reordered or duplicated. |
| `Views.MovieWithoutGenresNeverRecommended` | project_nexus/api/views.py:258-259 | A movie without `genre_ids` is never kept by the filter. |
| `Views.RecommendationExample` | project_nexus/api/views.py:256-260 | Favourites {28, 12} keep `[{genre_ids:[28]}]` out of `[{genre_ids:[28]}, {genre_ids:[99]}]`. |
| `Views.SearchMovie` | project_nexus/api/views.py:517-543 | A missing or empty `q` gives 400, with no upstream call; otherwise exactly one upstream search runs. Each answer holds iff its condition does: 502 carrying the error iff the payload has `error`; the invalid-page answer iff the page number is below 1 or the paginator selects no page; 500 iff the page number is at least 1 and `results` is null; 404 naming the query iff the selected page is empty; a paginated answer iff the selected page is non-empty, and it carries that page. |
| `Views.SearchConditionsPartition` | project_nexus/api/views.py:517-543 | Exactly one of the six conditions that decide the search answer holds for every request and payload. |
| `Views.SearchSucceedsIff` | project_nexus/api/views.py:529-543 | The search answers 200 iff a query is given, the payload has no error, the page number is at least 1, the results are not null and the paginator selects a non-empty page; it answers 502 iff a query is given and the payload has an error. |
| `Views.PageBelowOneIsInvalid` | project_nexus/api/views.py:518-535 | With a query and a page number below 1, the answer is 502 when the payload has an error and the invalid-page 404 otherwise, even for null results. |
| `Views.MovieDetail` | project_nexus/api/views.py:413-419 | The answer is 404 iff the lookup finds nothing; otherwise it carries the record found. |
| `Views.DetailNotFoundIffNoRecord` | project_nexus/api/views.py:413-419 | With the id lookup of api/utils.py substituted for the `get_movie_by_id` that `movie_detail` imports from `movie_data_redis`, the detail view answers 404 iff no record has the id. |
| `Serializers.RStripSlash` | project_nexus/api/serializers.py:355 | The result is the input with its trailing slashes, and only those, removed. |
| `Serializers.LStripSlash` | project_nexus/api/serializers.py:355 | The result is the input with its leading slashes, and only those, removed. |
| `Serializers.PosterUrl` | project_nexus/api/serializers.py:346-355 | No URL iff the poster path is missing or empty. Otherwise the URL is the base without trailing slashes, exactly one slash, then the path without leading slashes. The base is the context's `image_base_url`, or the CDN root when there is none. |
| `Serializers.PosterUrlIgnoresExtraSlashes` | project_nexus/api/serializers.py:355 | An extra leading slash on the path, or an extra trailing slash on the base, never changes the URL. |
| `Serializers.PosterUrlDefaultBase` | project_nexus/api/serializers.py:351-355 | Without a context base, the URL is `https://image.tmdb.org/t/p/w500` followed by one slash and the stripped path. |
| `Serializers.VerbatimPosterUrl` | project_nexus/api/serializers.py:310-318 | No URL for a missing or empty path. Otherwise the URL is the CDN root followed by the path character for character. |
| `Serializers.VerbatimMatchesDisplayedIff` | project_nexus/api/serializers.py:318 | The stored favourite URL equals the displayed URL iff the path starts with exactly one slash. |
| `Serializers.ExtractMovieData` | project_nexus/api/serializers.py:301-320 | Fails with "Movie not found in cache." iff no trending record has the id. Otherwise every field comes from the first trending record with that id: its id, title, overview as description, release date, the verbatim poster URL, and its `genre_ids` or `[]`. |
| `Serializers.ValidateMovieId` | project_nexus/api/serializers.py:273-281 | An id is accepted, unchanged, iff some trending record has it; otherwise the answer is "Movie not found in cache.". |
| `Serializers.ValidatedIdExtracts` | project_nexus/api/serializers.py:273-308 | An id that passes `validate_movie_id` always extracts when the trending results are the same. |
| `Serializers.ValidateGenres` | project_nexus/api/serializers.py:198-213 | Rejects iff some supplied name is not available, and the error holds exactly the unavailable names. On success it returns a duplicate-free list whose elements are exactly the supplied names. |
| `Serializers.ValidateRegistration` | project_nexus/api/serializers.py:64-70 | Fails with "Passwords do not match." iff password and password2 differ; otherwise returns the attributes unchanged. |
| `Serializers.ValidatePasswordChange` | project_nexus/api/serializers.py:113-119 | Fails with "Passwords do not match." iff new_password and confirm_password differ; otherwise returns the attributes unchanged. |

## Left out

- HTTP requests, bearer headers, `.env` loading, `print` and the error-log file writes are I/O. The upstream service is a function from page number to response, and log lines are not modelled.
- Redis and Django cache internals. The TTL is not observed by a single call; expiry is modelled only as removal of a key (`Cache.Expire`).
- Real JSON encoding. The codec is a parameter with a round-trip hypothesis.
- Record fields the core never inspects, such as the float `popularity`. Records pass through unchanged.
- The ORM and models, genre-name lookups in the serializers' `get_genres`, the `sync_tmdb_genres` upsert, signals, the Celery e-mail task, e-mail validation, Django password validators and JWT: these are framework and library calls.
- DRF field-level validation (whitespace trimming, `min_length=8`) runs before the `validate` methods. Only the `validate` methods are modelled.
- DRF pagination, `cache_page`, URL routing, settings and the schema are configuration. `search_movie` takes the paginator's page selection as a parameter. The page slicing of `recommended_movies` is not modelled.
- `serialize_trending_movies` and `movie_list`. `movie_list` passes `serialize=False` through `**kwargs` into a zero-argument lambda, which would raise on a cache miss; that crash is not modelled.
- `search_movies_from_tmdb` and the `get_movie_by_id` that `movie_detail` imports from `movie_data_redis` are not part of this model, because they are not defined in api/movie_data_redis.py. `Views.SearchMovie` and `Views.MovieDetail` take them as parameters, so whether search results or errors are cached is not modelled.
- The import-time default argument `read_results_json()` of `get_movie_by_id`. Results are passed explicitly, and the `data.json` that `movie_data.py` writes is not modelled.
- Concurrency: duplicate producer calls on concurrent misses. Each call is modelled as atomic.
- Cache.GetOrSet: only a `TypeError` from `json.dumps` falls back to the raw value. Other failures, such as the `ValueError` for a circular structure, escape after the producer ran; they are not modelled.
- Serializers.ValidateMovieId: the trending list is a parameter. A null `results` in the trending payload is handed to the lookup as `None`, and iterating it raises; that case is not modelled.
- Movies.GetMovieById: the target is already an integer. `int(target_value)` raising `ValueError` on non-numeric text is not modelled, and neither are Python's cross-type equalities (`True == 1`, `550.0 == 550`).
- Views.SearchMovie: `int(request.GET.get("page", 1))` raising `ValueError` on a non-numeric page parameter is not modelled, because the page number is an integer parameter.
- Serializers.ExtractMovieData: a record whose `genre_ids` is JSON null gives `genre_ids: None` in the source, but `[]` in the model, which cannot tell null from a missing key. `create` treats both as no genres (`if created and genre_ids`).
- Trending.GetTrendingMovies: the optional `cache_key` argument is fixed to its default `"trending_movies"`, the value every call site in the views and serializers uses.
- Views.RecommendedMovies: a record whose `genre_ids` is JSON null makes the source raise `TypeError` in `set(None)`. The model cannot tell null from a missing key, and treats both as no genres.
- Views.SearchMovie: records missing a required output field (`id`, `title`, `overview`, `popularity`) make `MovieOutputSerializer` raise `KeyError`, a 500. The model answers with the paginated page for them, because serializer output is not modelled.
- Views.MovieDetail: a found record missing a required output field (`id`, `title`, `overview`, `popularity`) makes `MovieOutputSerializer` raise `KeyError`, a 500. The model answers with the record, because serializer output is not modelled.
- Views.MovieDetail: the source also answers 404 for a found record that is an empty dict. Records here always come from an id match, so they are never empty.
- Upstream.Effect: a `results` value that is neither a list nor null, which `list.extend` would iterate, is not modelled.
- Serializers.ValidateGenres: `list(set(value))` has no specified order. The model returns the first occurrences in input order, and its contract promises only distinctness and the element set. The error message text is represented by the set of invalid names.
