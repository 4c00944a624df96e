/** The catalogue records the service proxies from the upstream movie API,
    and the first-match lookup `get_movie_by_id` of api/utils.py. */
module Movies {
  import opened Wrappers

  /** One catalogue record, a JSON object from the upstream `results` array.
      Every key is optional in the upstream payload, so every field is an
      `Option`: `None` means the key is absent (or its value is null). */
  datatype Movie = Movie(
    id: Option<int>,
    title: Option<string>,
    overview: Option<string>,
    releaseDate: Option<string>,
    posterPath: Option<string>,
    genreIds: Option<seq<int>>
  )

  /** The `results` key of a JSON object: absent, explicitly null, or a list. */
  datatype ResultsField = Absent | Null | Listed(items: seq<Movie>)

  /** `payload.get("results") or []`: the list when there is one, else empty. */
  function ResultsOrEmpty(f: ResultsField): (r: seq<Movie>)
    ensures f.Listed? ==> r == f.items
    ensures !f.Listed? ==> r == []
  {
    if f.Listed? then f.items else []
  }

  /** True when some record of `results` has the identifier `target`. */
  predicate HasId(results: seq<Movie>, target: int) {
    exists i :: 0 <= i < |results| && results[i].id == Some(target)
  }

  /** `get_movie_by_id(target, results)`: scan `results` in order and return the
      first record whose `id` equals `target`, or `None` when there is none.
      A record without an `id` key never matches. The caller-side `int(...)`
      conversion has already happened: `target` is an integer. */
  function GetMovieById(target: int, results: seq<Movie>): (r: Option<Movie>)
    ensures r.None? <==> !HasId(results, target)
    ensures r.Some? ==> exists i :: 0 <= i < |results| && results[i] == r.value
                          && r.value.id == Some(target)
                          && forall j :: 0 <= j < i ==> results[j].id != Some(target)
  {
    if |results| == 0 then None
    else if results[0].id == Some(target) then Some(results[0])
    else
      var rest := GetMovieById(target, results[1..]);
      assert forall i :: 1 <= i < |results| ==> results[i] == results[1..][i - 1];
      rest
  }

  /** Index of the first record whose identifier is `target`, or `|results|`
      when there is none: an index-based reference for the scan. */
  function FirstIndexOf(target: int, results: seq<Movie>): (k: nat)
    ensures k <= |results|
    ensures forall j :: 0 <= j < k ==> results[j].id != Some(target)
    ensures k < |results| ==> results[k].id == Some(target)
  {
    if |results| == 0 || results[0].id == Some(target) then 0
    else 1 + FirstIndexOf(target, results[1..])
  }

  /** The lookup returns exactly the record at the first matching index. */
  lemma LookupIsFirstMatch(target: int, results: seq<Movie>)
    ensures var k := FirstIndexOf(target, results);
            GetMovieById(target, results) == if k < |results| then Some(results[k]) else None
  {
  }

  /** Once some record matches, appending more records never changes the answer. */
  lemma {:induction false} LookupIgnoresLaterRecords(target: int, results: seq<Movie>, more: seq<Movie>)
    requires HasId(results, target)
    ensures GetMovieById(target, results + more) == GetMovieById(target, results)
  {
    if results[0].id != Some(target) {
      assert (results + more)[1..] == results[1..] + more;
      var i :| 0 <= i < |results| && results[i].id == Some(target);
      assert results[1..][i - 1].id == Some(target);
      LookupIgnoresLaterRecords(target, results[1..], more);
    }
  }

  /** An example: looking up 550 in a two-record list finds the
      first record, and 999 finds nothing. */
  lemma LookupExample(a: Movie, b: Movie)
    requires a.id == Some(550) && b.id == Some(551)
    ensures GetMovieById(550, [a, b]) == Some(a)
    ensures GetMovieById(999, [a, b]) == None
  {
  }
}
