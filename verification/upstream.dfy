/** The multi-page aggregation loops that fetch the catalogue's discovery
    endpoint page by page: `fetch_movies_from_tmdb` of api/movie_data_redis.py
    (an exception on a page escapes the loop) and the top-level loop of
    movie_data.py (an exception on a page is caught and the page skipped).

    The upstream service is a parameter: `up(p)` is what requesting page `p`
    yields. The HTTP request itself, its headers and the log lines are not
    modelled. */
module Upstream {
  import opened Wrappers
  import opened Movies

  /** The body of an HTTP reply: not usable (not JSON, so `resp.json()`
      raises, or JSON that is not an object, so `.get` raises), or a JSON
      object whose `results` key is absent, null or a list. */
  datatype Body = Unparseable | Parsed(results: ResultsField)

  /** What requesting one page yields: a reply with a status code, or a
      transport exception raised by `requests.get`. */
  datatype Response = Reply(status: int, body: Body) | Raised

  /** The number of pages movie_data.py requests. */
  const MaxPages: int := 3

  /** The page numbers 1, 2, ..., n, in increasing order (`range(1, n + 1)`). */
  function Pages(n: int): (ps: seq<int>)
    ensures |ps| == if n <= 0 then 0 else n
    ensures forall i :: 0 <= i < |ps| ==> ps[i] == i + 1
    decreases n
  {
    if n <= 0 then [] else Pages(n - 1) + [n]
  }

  /** What one page does to an aggregating loop, independently of the loop:
      it adds records, it is skipped (a reply other than 200), or handling it
      raises (transport error, a body that is not JSON, or a null `results`
      handed to `list.extend`). */
  datatype PageEffect = Contributes(items: seq<Movie>) | Skipped | Throws

  function Effect(r: Response): (e: PageEffect)
    ensures e.Skipped? <==> r.Reply? && r.status != 200
    ensures e.Throws? <==> r.Raised? || (r.status == 200 && !(r.body.Parsed? && !r.body.results.Null?))
    ensures e.Contributes? ==> e.items == ResultsOrEmpty(r.body.results)
  {
    match r
    case Raised => Throws
    case Reply(status, body) =>
      if status != 200 then Skipped
      else match body
        case Unparseable => Throws
        case Parsed(Null) => Throws
        case Parsed(Absent) => Contributes([])
        case Parsed(Listed(items)) => Contributes(items)
  }

  /** The records a page adds to the aggregate when its effect is not an exception. */
  function Contribution(r: Response): seq<Movie> {
    if Effect(r).Contributes? then Effect(r).items else []
  }

  /** Reference definition of the aggregate over pages 1..n: every page's
      contribution, in page order. */
  function Collected(up: int -> Response, n: int): seq<Movie>
    decreases n
  {
    if n <= 0 then [] else Collected(up, n - 1) + Contribution(up(n))
  }

  /** The first page in 1..n whose handling raises, if any. */
  function FirstThrow(up: int -> Response, n: int): (r: Option<int>)
    ensures r.Some? ==> 1 <= r.value <= n && Effect(up(r.value)).Throws?
    ensures r.Some? ==> forall p :: 1 <= p < r.value ==> !Effect(up(p)).Throws?
    ensures r.None? ==> forall p :: 1 <= p <= n ==> !Effect(up(p)).Throws?
    decreases n
  {
    if n <= 0 then None
    else match FirstThrow(up, n - 1)
      case Some(p) => Some(p)
      case None => if Effect(up(n)).Throws? then Some(n) else None
  }

  /** Reference outcome of the loop that lets exceptions escape: the
      exception of the first raising page (reported by its number), or the
      aggregate of all pages. */
  function StrictAggregate(up: int -> Response, n: int): Result<seq<Movie>, int> {
    match FirstThrow(up, n)
    case Some(p) => Err(p)
    case None => Ok(Collected(up, n))
  }

  /** `fetch_movies_from_tmdb(max_pages)`: request pages 1..max_pages in order;
      a 200 reply appends its `results` (an absent key appends nothing); any
      other status is logged and skipped. An exception (transport, JSON
      decoding, null `results`) aborts the loop and propagates.
      `requested` lists the pages requested, in request order. */
  method FetchMoviesFromTmdb(up: int -> Response, maxPages: int)
    returns (outcome: Result<seq<Movie>, int>, requested: seq<int>)
    ensures outcome == StrictAggregate(up, maxPages)
    ensures outcome.Ok? ==> requested == Pages(maxPages)
    ensures outcome.Err? ==> requested == Pages(outcome.error)
  {
    var all: seq<Movie> := [];
    requested := [];
    var page := 1;
    while page <= maxPages
      invariant 1 <= page <= if maxPages >= 1 then maxPages + 1 else 1
      invariant requested == Pages(page - 1)
      invariant FirstThrow(up, page - 1) == None
      invariant all == Collected(up, page - 1)
    {
      requested := requested + [page];
      var resp := up(page);
      if resp.Raised? {
        return Err(page), requested;
      }
      if resp.status == 200 {
        match resp.body {
          case Unparseable =>
            return Err(page), requested;
          case Parsed(Null) =>
            return Err(page), requested;
          case Parsed(Absent) =>
          case Parsed(Listed(items)) =>
            all := all + items;
        }
      }
      page := page + 1;
    }
    outcome := Ok(all);
  }

  /** The top-level loop of movie_data.py: request pages 1..MAX_PAGES in
      order; a 200 reply appends its `results`; a non-200 reply and any
      exception raised while handling a page are logged and the page skipped.
      Every page is requested, and the result is the aggregate of all pages. */
  method FetchAllPages(up: int -> Response) returns (results: seq<Movie>, requested: seq<int>)
    ensures requested == Pages(MaxPages)
    ensures results == Collected(up, MaxPages)
  {
    results := [];
    requested := [];
    var page := 1;
    while page <= MaxPages
      invariant 1 <= page <= MaxPages + 1
      invariant requested == Pages(page - 1)
      invariant results == Collected(up, page - 1)
      decreases MaxPages + 1 - page
    {
      requested := requested + [page];
      var resp := up(page);
      match resp {
        case Raised =>
        case Reply(status, body) =>
          if status == 200 {
            match body {
              case Unparseable =>
              case Parsed(Null) =>
              case Parsed(Absent) =>
              case Parsed(Listed(items)) =>
                results := results + items;
            }
          }
      }
      page := page + 1;
    }
  }

  /** Sum over pages 1..n of the number of records each page contributes. */
  function ContributedCount(up: int -> Response, n: int): nat
    decreases n
  {
    if n <= 0 then 0 else ContributedCount(up, n - 1) + |Contribution(up(n))|
  }

  /** The aggregate's length is the sum of the successful pages' list lengths. */
  lemma {:induction false} CollectedLength(up: int -> Response, n: int)
    ensures |Collected(up, n)| == ContributedCount(up, n)
    decreases n
  {
    if n > 0 {
      CollectedLength(up, n - 1);
    }
  }

  /** Later pages only append: the aggregate of the first m pages is a prefix
      of the aggregate of the first n pages. */
  lemma {:induction false} CollectedPrefix(up: int -> Response, m: int, n: int)
    requires m <= n
    ensures |Collected(up, m)| <= |Collected(up, n)|
    ensures Collected(up, n)[..|Collected(up, m)|] == Collected(up, m)
    decreases n - m
  {
    if m < n {
      CollectedPrefix(up, m, n - 1);
      if n > 0 {
        var a := Collected(up, n - 1);
        assert Collected(up, n) == a + Contribution(up(n));
        assert Collected(up, n)[..|a|] == a;
      }
    }
  }

  /** Page order and intra-page order are both kept: page p's records sit,
      unchanged and contiguous, right after those of pages 1..p-1. */
  lemma PageBlock(up: int -> Response, p: int, n: int)
    requires 1 <= p <= n
    ensures var start := |Collected(up, p - 1)|;
            var block := Contribution(up(p));
            start + |block| <= |Collected(up, n)| &&
            Collected(up, n)[start..start + |block|] == block
  {
    CollectedPrefix(up, p, n);
    var start := |Collected(up, p - 1)|;
    var block := Contribution(up(p));
    assert Collected(up, p) == Collected(up, p - 1) + block;
    assert Collected(up, n)[start..start + |block|] == Collected(up, p)[start..];
  }

  /** The aggregate depends only on what each page contributes: two services
      that agree on every page's contribution, however differently their
      failing pages fail, yield the same aggregate. */
  lemma {:induction false} FailuresAreInterchangeable(up: int -> Response, other: int -> Response, n: int)
    requires forall p :: 1 <= p <= n ==> Contribution(up(p)) == Contribution(other(p))
    ensures Collected(up, n) == Collected(other, n)
    decreases n
  {
    if n > 0 {
      FailuresAreInterchangeable(up, other, n - 1);
    }
  }

  /** Both services raise on exactly the same pages of 1..n. */
  lemma {:induction false} FirstThrowAgrees(up: int -> Response, other: int -> Response, n: int)
    requires forall p :: 1 <= p <= n ==> Effect(up(p)).Throws? == Effect(other(p)).Throws?
    ensures FirstThrow(up, n) == FirstThrow(other, n)
    decreases n
  {
    if n > 0 {
      FirstThrowAgrees(up, other, n - 1);
    }
  }

  /** For the loop that lets exceptions escape: two services that raise on
      the same pages and agree on every page's contribution give the same
      outcome, so which non-200 status a skipped page answers does not
      matter. */
  lemma StrictFailuresAreInterchangeable(up: int -> Response, other: int -> Response, n: int)
    requires forall p :: 1 <= p <= n ==> Effect(up(p)).Throws? == Effect(other(p)).Throws?
    requires forall p :: 1 <= p <= n ==> Contribution(up(p)) == Contribution(other(p))
    ensures StrictAggregate(up, n) == StrictAggregate(other, n)
  {
    FirstThrowAgrees(up, other, n);
    FailuresAreInterchangeable(up, other, n);
  }

  /** When no page raises, both loops compute the same aggregate. */
  lemma StrictMatchesTolerantWithoutExceptions(up: int -> Response, n: int)
    requires forall p :: 1 <= p <= n ==> !Effect(up(p)).Throws?
    ensures StrictAggregate(up, n) == Ok(Collected(up, n))
  {
  }

  /** A non-positive page count requests nothing and yields an empty aggregate. */
  lemma NoPagesNoResults(up: int -> Response, n: int)
    requires n <= 0
    ensures Pages(n) == [] && StrictAggregate(up, n) == Ok([])
  {
  }

  /** The partial-failure example: with three pages of which the second
      answers 500, the aggregate is page 1's records followed by page 3's,
      and nothing is raised. */
  lemma PartialFailureExample(up: int -> Response, first: seq<Movie>, third: seq<Movie>)
    requires up(1) == Reply(200, Parsed(Listed(first)))
    requires up(2).Reply? && up(2).status == 500
    requires up(3) == Reply(200, Parsed(Listed(third)))
    ensures StrictAggregate(up, 3) == Ok(first + third)
    ensures Collected(up, MaxPages) == first + third
  {
    assert Collected(up, 1) == first;
    assert Collected(up, 2) == first;
  }
}
