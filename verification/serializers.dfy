/** The validation and field-building logic of api/serializers.py: the two
    poster URL constructions, the movie-id check against the cached trending
    list, the genre-name check, and the password-match checks. Everything the
    serializers delegate to Django, DRF or the e-mail validator is not
    modelled. */
module Serializers {
  import opened Wrappers
  import opened Movies

  /** The poster CDN root both serializers fall back to. */
  const DefaultImageBase: string := "https://image.tmdb.org/t/p/w500"

  /** Every character of `s` is a slash. */
  predicate AllSlashes(s: string) {
    forall i :: 0 <= i < |s| ==> s[i] == '/'
  }

  /** `b` is `base` with its trailing slashes, and only those, removed. */
  predicate RightTrimmed(b: string, base: string) {
    && |b| <= |base| && base[..|b|] == b && AllSlashes(base[|b|..])
    && (b == [] || b[|b| - 1] != '/')
  }

  /** `p` is `path` with its leading slashes, and only those, removed. */
  predicate LeftTrimmed(p: string, path: string) {
    && |p| <= |path| && path[|path| - |p|..] == p && AllSlashes(path[..|path| - |p|])
    && (p == [] || p[0] != '/')
  }

  /** `s.rstrip('/')`. */
  function RStripSlash(s: string): (r: string)
    ensures RightTrimmed(r, s)
    decreases |s|
  {
    if |s| > 0 && s[|s| - 1] == '/' then RStripSlash(s[..|s| - 1]) else s
  }

  /** `s.lstrip('/')`. */
  function LStripSlash(s: string): (r: string)
    ensures LeftTrimmed(r, s)
    decreases |s|
  {
    if |s| > 0 && s[0] == '/' then
      var r := LStripSlash(s[1..]);
      assert s[|s| - |r|..] == s[1..][|s| - 1 - |r|..];
      assert s[..|s| - |r|] == [s[0]] + s[1..][..|s| - 1 - |r|];
      r
    else s
  }

  /** `MovieOutputSerializer.get_poster_url`: no URL for a missing or empty
      `poster_path`; otherwise the base (the context's `image_base_url`, by
      default the CDN root) without trailing slashes, one slash, and the path
      without leading slashes. */
  function PosterUrl(posterPath: Option<string>, imageBaseUrl: Option<string>): (r: Option<string>)
    ensures r.None? <==> posterPath.None? || posterPath.value == ""
    ensures r.Some? ==> exists b, p :: r.value == b + "/" + p
                          && RightTrimmed(b, imageBaseUrl.GetOr(DefaultImageBase))
                          && LeftTrimmed(p, posterPath.value)
  {
    match posterPath
    case None => None
    case Some(path) =>
      if path == "" then None
      else
        var b := RStripSlash(imageBaseUrl.GetOr(DefaultImageBase));
        var p := LStripSlash(path);
        Some(b + "/" + p)
  }

  /** Extra leading slashes on the path, and trailing slashes on the base,
      never change the poster URL. */
  lemma PosterUrlIgnoresExtraSlashes(path: string, base: string)
    requires path != ""
    ensures PosterUrl(Some("/" + path), Some(base)) == PosterUrl(Some(path), Some(base))
    ensures PosterUrl(Some(path), Some(base + "/")) == PosterUrl(Some(path), Some(base))
  {
  }

  /** With the default base, the URL is the CDN root followed by exactly one
      slash: the joined URL never contains "w500//". */
  lemma PosterUrlDefaultBase(path: string)
    requires path != ""
    ensures PosterUrl(Some(path), None) == Some(DefaultImageBase + "/" + LStripSlash(path))
  {
    assert DefaultImageBase[|DefaultImageBase| - 1] == '0';
    assert RStripSlash(DefaultImageBase) == DefaultImageBase;
  }

  /** The model fields `_extract_movie_data` builds from a cached record. */
  datatype FavoriteFields = FavoriteFields(
    movieId: Option<int>,
    title: Option<string>,
    description: Option<string>,
    releaseDate: Option<string>,
    posterUrl: Option<string>,
    genreIds: seq<int>
  )

  /** The poster URL `_extract_movie_data` stores: the CDN root and the path
      concatenated verbatim, with no slash normalisation. */
  function VerbatimPosterUrl(posterPath: Option<string>): (r: Option<string>)
    ensures r.None? <==> posterPath.None? || posterPath.value == ""
    ensures r.Some? ==> (|r.value| == |DefaultImageBase| + |posterPath.value|
                         && r.value[..|DefaultImageBase|] == DefaultImageBase
                         && r.value[|DefaultImageBase|..] == posterPath.value)
  {
    match posterPath
    case None => None
    case Some(path) => if path == "" then None else Some(DefaultImageBase + path)
  }

  /** `movie_data.get("genre_ids", [])`. */
  function GenresOrEmpty(m: Movie): seq<int> {
    m.genreIds.GetOr([])
  }

  /** The error both movie-id checks raise. */
  const MovieNotInCache: string := "Movie not found in cache."

  /** `FavoriteMovieWriteSerializer._extract_movie_data`: look the id up in
      the trending results and copy its fields; an id that is not there is a
      validation error. */
  function ExtractMovieData(movieId: int, trending: seq<Movie>): (r: Result<FavoriteFields, string>)
    ensures r.Err? <==> !HasId(trending, movieId)
    ensures r.Err? ==> r.error == MovieNotInCache
    ensures r.Ok? ==>
              var k := FirstIndexOf(movieId, trending);
              && k < |trending|
              && r.value.movieId == Some(movieId)
              && r.value.title == trending[k].title
              && r.value.description == trending[k].overview
              && r.value.releaseDate == trending[k].releaseDate
              && r.value.posterUrl == VerbatimPosterUrl(trending[k].posterPath)
              && r.value.genreIds == GenresOrEmpty(trending[k])
  {
    LookupIsFirstMatch(movieId, trending);
    match GetMovieById(movieId, trending)
    case None => Err(MovieNotInCache)
    case Some(m) =>
      Ok(FavoriteFields(m.id, m.title, m.overview, m.releaseDate,
                        VerbatimPosterUrl(m.posterPath), GenresOrEmpty(m)))
  }

  /** Stripping leading slashes removes exactly one character exactly when
      the text starts with a single slash. */
  lemma StripsOneSlashIff(path: string)
    requires path != ""
    ensures LStripSlash(path) == path[1..] <==> path[0] == '/' && (|path| == 1 || path[1] != '/')
  {
  }

  /** Gluing `path` onto `base` equals joining them with one slash exactly
      when `path` is a slash followed by its slash-stripped rest. */
  lemma GlueMatchesJoinIff(base: string, path: string)
    requires path != ""
    ensures base + path == base + "/" + LStripSlash(path) <==> path[0] == '/' && path[1..] == LStripSlash(path)
  {
  }

  /** The stored favourite URL and the displayed URL agree exactly when the
      path starts with one slash and no more. A path without a leading slash
      is glued onto "w500" and a path with several keeps them all. */
  lemma VerbatimMatchesDisplayedIff(path: string)
    requires path != ""
    ensures VerbatimPosterUrl(Some(path)) == PosterUrl(Some(path), None)
            <==> path[0] == '/' && (|path| == 1 || path[1] != '/')
  {
    PosterUrlDefaultBase(path);
    StripsOneSlashIff(path);
    GlueMatchesJoinIff(DefaultImageBase, path);
  }

  /** `FavoriteMovieWriteSerializer.validate_movie_id`: accept an id only
      when the trending results hold a record with it. */
  function ValidateMovieId(value: int, trending: seq<Movie>): (r: Result<int, string>)
    ensures r.Ok? <==> HasId(trending, value)
    ensures r.Ok? ==> r.value == value
    ensures r.Err? ==> r.error == MovieNotInCache
  {
    if GetMovieById(value, trending).None? then Err(MovieNotInCache) else Ok(value)
  }

  /** An id that passes validation can always be extracted afterwards (with
      the same trending results). */
  lemma ValidatedIdExtracts(value: int, trending: seq<Movie>)
    requires ValidateMovieId(value, trending).Ok?
    ensures ExtractMovieData(value, trending).Ok?
  {
  }

  /** The elements of a list, as `set(value)`. */
  function Elements(s: seq<string>): set<string> {
    set x | x in s
  }

  lemma ElementsSnoc(s: seq<string>, x: string)
    ensures Elements(s + [x]) == Elements(s) + {x}
  {
  }

  /** No element occurs twice. */
  predicate Distinct(s: seq<string>) {
    forall i, j :: 0 <= i < j < |s| ==> s[i] != s[j]
  }

  /** `UserProfileSerializer.validate_genres`: reject when some supplied name
      is not an available genre name (the error carries the invalid names);
      otherwise return the supplied names without duplicates. The order of
      `list(set(...))` is unspecified; this model keeps first occurrences. */
  method ValidateGenres(value: seq<string>, available: set<string>) returns (r: Result<seq<string>, set<string>>)
    ensures r.Err? <==> !(Elements(value) <= available)
    ensures r.Err? ==> r.error == Elements(value) - available
    ensures r.Ok? ==> Distinct(r.value) && Elements(r.value) == Elements(value)
  {
    var invalid := Elements(value) - available;
    if invalid != {} {
      return Err(invalid);
    }
    assert Elements(value) <= available by {
      forall x | x in Elements(value)
        ensures x in available
      {
        assert x !in invalid;
      }
    }
    var names: seq<string> := [];
    var i := 0;
    while i < |value|
      invariant 0 <= i <= |value|
      invariant Distinct(names)
      invariant Elements(names) == Elements(value[..i])
    {
      ElementsSnoc(value[..i], value[i]);
      assert value[..i + 1] == value[..i] + [value[i]];
      ElementsSnoc(names, value[i]);
      if value[i] !in names {
        names := names + [value[i]];
      }
      i := i + 1;
    }
    assert value[..i] == value;
    return Ok(names);
  }

  /** The validated fields of `RegisterUserSerializer`. */
  datatype Registration = Registration(email: string, password: string, password2: string)

  /** The validated fields of `PasswordChangeSerializer`. */
  datatype PasswordChange = PasswordChange(uid: string, token: string, newPassword: string, confirmPassword: string)

  const PasswordsDoNotMatch: string := "Passwords do not match."

  /** `RegisterUserSerializer.validate`: the attributes pass through
      unchanged when the two passwords are equal. */
  function ValidateRegistration(attrs: Registration): (r: Result<Registration, string>)
    ensures r.Err? <==> attrs.password != attrs.password2
    ensures r.Ok? ==> r.value == attrs
    ensures r.Err? ==> r.error == PasswordsDoNotMatch
  {
    if attrs.password != attrs.password2 then Err(PasswordsDoNotMatch) else Ok(attrs)
  }

  /** `PasswordChangeSerializer.validate`: the attributes pass through
      unchanged when the new password and its confirmation are equal. */
  function ValidatePasswordChange(attrs: PasswordChange): (r: Result<PasswordChange, string>)
    ensures r.Err? <==> attrs.newPassword != attrs.confirmPassword
    ensures r.Ok? ==> r.value == attrs
    ensures r.Err? ==> r.error == PasswordsDoNotMatch
  {
    if attrs.newPassword != attrs.confirmPassword then Err(PasswordsDoNotMatch) else Ok(attrs)
  }
}
