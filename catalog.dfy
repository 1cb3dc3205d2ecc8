/** The movie service: a client of the remote catalog whose answers are kept
    in a module-level cache, key -> (data, timestamp), valid for five minutes.
    The HTTP replies are parameters (`Success(body)` for a 200 reply,
    `Failure` for anything else), and so are the clock readings: `now` when
    the cache is consulted, `respondedAt` when the reply has arrived. */
module Catalog {
  import opened Wrappers
  import opened Text
  import opened Models

  const CacheDuration := 5 * 60 * 1000

  /** The body of a reply, as far as the pages use it. `Null` is a body the
      pages treat as absent (`null`); every other value is truthy, even an
      empty list. */
  datatype Payload =
    | Null
    | MovieList(movies: seq<Movie>)
    | OneMovie(movie: Movie)
    | GenreList(genres: seq<MovieGenre>)
    | DirectorList(directors: seq<Director>)
    | ActorList(actors: seq<MovieActor>)
    | RuntimeList(runtimes: seq<int>)

  predicate Truthy(p: Payload) { !p.Null? }

  datatype CacheEntry = CacheEntry(data: Payload, timestamp: int)

  type Cache = map<string, CacheEntry>

  // ------------------------------------------------------------- the cache

  /** `getFromCache`: the data of an entry younger than the cache duration. */
  function Lookup(cache: Cache, key: string, now: int): (r: Option<Payload>)
    ensures r.Some? <==> key in cache && now - cache[key].timestamp < CacheDuration
    ensures r.Some? ==> r.value == cache[key].data
  {
    if key in cache && now - cache[key].timestamp < CacheDuration then Some(cache[key].data) else None
  }

  /** `setCache`: the entry for `key` is replaced; no entry is ever removed. */
  function Stored(cache: Cache, key: string, data: Payload, now: int): (r: Cache)
    ensures key in r && r[key] == CacheEntry(data, now)
    ensures forall k :: k in cache ==> k in r
    ensures forall k :: k in r && k != key ==> k in cache && r[k] == cache[k]
  {
    cache[key := CacheEntry(data, now)]
  }

  /** Data stored at `t` is served exactly while less than the cache duration
      has passed, and storing under one key leaves every other key's answer alone. */
  lemma LookupAfterStore(cache: Cache, key: string, data: Payload, t: int, other: string, now: int)
    ensures Lookup(Stored(cache, key, data, t), key, now) == if now - t < CacheDuration then Some(data) else None
    ensures other != key ==> Lookup(Stored(cache, key, data, t), other, now) == Lookup(cache, other, now)
  {
  }

  /** Once an entry has expired it stays expired. */
  lemma ExpiredStaysExpired(cache: Cache, key: string, now: int, later: int)
    requires now <= later && Lookup(cache, key, now).None?
    ensures Lookup(cache, key, later).None?
  {
  }

  // ---------------------------------------------------------------- getters

  /** What a getter leaves behind: the new cache, its answer (`Failure` when
      it throws) and whether it sent a request. */
  datatype Outcome = Outcome(cache: Cache, result: Result<Payload>, requested: bool)

  /** The shape every getter shares: a truthy cached answer is returned
      without a request; otherwise the reply is stored and returned. A failed
      request throws, unless the getter has a fallback answer (`onFailure`),
      which is returned and not stored. */
  function Fetch(cache: Cache, key: string, now: int, respondedAt: int, reply: Result<Payload>,
                 onFailure: Option<Payload>): (o: Outcome)
    ensures o.requested <==> !(Lookup(cache, key, now).Some? && Truthy(Lookup(cache, key, now).value))
    ensures !o.requested ==> o.cache == cache && o.result == Success(cache[key].data)
    ensures o.requested && reply.Success? ==>
      o.cache == Stored(cache, key, reply.value, respondedAt) && o.result == reply
    ensures o.requested && reply.Failure? ==>
      o.cache == cache && o.result == (if onFailure.Some? then Success(onFailure.value) else Failure)
  {
    var cached := Lookup(cache, key, now);
    if cached.Some? && Truthy(cached.value) then Outcome(cache, Success(cached.value), false)
    else if reply.Success? then Outcome(Stored(cache, key, reply.value, respondedAt), reply, true)
    else if onFailure.Some? then Outcome(cache, Success(onFailure.value), true)
    else Outcome(cache, Failure, true)
  }

  /** A second call for the same key within the cache duration of a
      successful, truthy reply sends no request and answers with that reply. */
  lemma SecondCallHitsCache(cache: Cache, key: string, now1: int, t1: int, reply1: Result<Payload>,
                            now2: int, t2: int, reply2: Result<Payload>, onFailure: Option<Payload>)
    requires reply1.Success? && Truthy(reply1.value)
    requires now2 - t1 < CacheDuration
    ensures var first := Fetch(cache, key, now1, t1, reply1, onFailure);
      first.requested ==>
        first.result == reply1 && Fetch(first.cache, key, now2, t2, reply2, onFailure) == Outcome(first.cache, reply1, false)
  {
  }

  // ------------------------------------------------------------ cache keys

  function MoviesKey(page: int, size: int): string {
    "movies_" + IntToString(page) + "_" + IntToString(size)
  }

  function MovieKey(movieId: int): string {
    "movie_" + IntToString(movieId)
  }

  const GenresKey := "genres"
  const DirectorsKey := "directors"
  const ActorsKey := "actors"
  const RuntimesKey := "runtimes"

  /** The filters of a search. An absent or zero number and an absent or
      empty text are falsy and not sent. */
  datatype SearchFilters = SearchFilters(
    genre: Option<int>, director: Option<int>, actor: Option<int>, runtime: Option<int>, search: Option<string>)

  /** `JSON.stringify(filters)` for filters given in this field order; fields
      that are absent are left out, as for `undefined`. */
  function FiltersJson(f: SearchFilters): string {
    var fields :=
      (if f.genre.Some? then ["\"genre\":" + IntToString(f.genre.value)] else [])
      + (if f.director.Some? then ["\"director\":" + IntToString(f.director.value)] else [])
      + (if f.actor.Some? then ["\"actor\":" + IntToString(f.actor.value)] else [])
      + (if f.runtime.Some? then ["\"runtime\":" + IntToString(f.runtime.value)] else [])
      + (if f.search.Some? then ["\"search\":\"" + f.search.value + "\""] else []);
    "{" + Join(fields, ",") + "}"
  }

  function SearchKey(f: SearchFilters): string {
    "search_" + FiltersJson(f)
  }

  lemma IntToStringHasNoUnderscore(n: int)
    ensures forall i :: 0 <= i < |IntToString(n)| ==> IntToString(n)[i] != '_'
  {
    var s := IntToString(n);
    forall i | 0 <= i < |s| ensures s[i] != '_' {
      if n < 0 && i > 0 {
        assert s[1..][i - 1] == s[i];
      }
    }
  }

  lemma StripPrefix(prefix: string, x: string, y: string)
    requires prefix + x == prefix + y
    ensures x == y
  {
    assert x == (prefix + x)[|prefix|..];
    assert y == (prefix + y)[|prefix|..];
  }

  /** Two strings split at their first separator agree part by part. */
  lemma SplitAtSeparator(a: string, b: string, c: string, d: string, sep: char)
    requires forall i :: 0 <= i < |a| ==> a[i] != sep
    requires forall i :: 0 <= i < |c| ==> c[i] != sep
    requires a + [sep] + b == c + [sep] + d
    ensures a == c && b == d
  {
    var x := a + [sep] + b;
    assert x[|a|] == sep;
    assert (c + [sep] + d)[|c|] == sep;
    assert |a| == |c|;
    assert a == x[..|a|] == c;
    assert b == x[|a| + 1..] == d;
  }

  /** The two numbers of a page key are read back unambiguously. */
  lemma PageKeyParts(a: string, b: string, c: string, d: string)
    requires forall i :: 0 <= i < |a| ==> a[i] != '_'
    requires forall i :: 0 <= i < |c| ==> c[i] != '_'
    requires "movies_" + a + "_" + b == "movies_" + c + "_" + d
    ensures a == c && b == d
  {
    var x, y := a + ['_'] + b, c + ['_'] + d;
    assert "movies_" + x == "movies_" + y by {
      assert "movies_" + a + "_" + b == "movies_" + x;
      assert "movies_" + c + "_" + d == "movies_" + y;
    }
    StripPrefix("movies_", x, y);
    SplitAtSeparator(a, b, c, d, '_');
  }

  /** Different page requests use different keys. */
  lemma MoviesKeyInjective(p1: int, s1: int, p2: int, s2: int)
    requires MoviesKey(p1, s1) == MoviesKey(p2, s2)
    ensures p1 == p2 && s1 == s2
  {
    IntToStringHasNoUnderscore(p1);
    IntToStringHasNoUnderscore(p2);
    PageKeyParts(IntToString(p1), IntToString(s1), IntToString(p2), IntToString(s2));
    IntToStringInjective(p1, p2);
    IntToStringInjective(s1, s2);
  }

  lemma MovieKeyInjective(id1: int, id2: int)
    requires MovieKey(id1) == MovieKey(id2)
    ensures id1 == id2
  {
    StripPrefix("movie_", IntToString(id1), IntToString(id2));
    IntToStringInjective(id1, id2);
  }

  lemma MoviesKeyShape(page: int, size: int)
    ensures |MoviesKey(page, size)| > 5 && MoviesKey(page, size)[0] == 'm' && MoviesKey(page, size)[5] == 's'
  {
    assert MoviesKey(page, size) == "movies_" + (IntToString(page) + "_" + IntToString(size));
  }

  lemma MovieKeyShape(movieId: int)
    ensures |MovieKey(movieId)| > 5 && MovieKey(movieId)[0] == 'm' && MovieKey(movieId)[5] == '_'
  {
    assert MovieKey(movieId) == "movie_" + IntToString(movieId);
  }

  lemma SearchKeyShape(f: SearchFilters)
    ensures |SearchKey(f)| > 0 && SearchKey(f)[0] == 's'
  {
    assert SearchKey(f) == "search_" + FiltersJson(f);
  }

  /** No two getters share a key, so one getter never serves another's data. */
  lemma KeyFamiliesDistinct(page: int, size: int, movieId: int, f: SearchFilters)
    ensures MoviesKey(page, size) != MovieKey(movieId)
    ensures MoviesKey(page, size) != SearchKey(f) && MovieKey(movieId) != SearchKey(f)
    ensures forall k :: k in FixedKeys() ==> k != MoviesKey(page, size) && k != MovieKey(movieId) && k != SearchKey(f)
  {
    MoviesKeyShape(page, size);
    MovieKeyShape(movieId);
    SearchKeyShape(f);
  }

  /** The keys of the getters without arguments. */
  function FixedKeys(): (ks: seq<string>)
    ensures forall i :: 0 <= i < |ks| ==> |ks[i]| > 0 && ks[i][0] != 'm' && ks[i][0] != 's'
    ensures forall i, j :: 0 <= i < j < |ks| ==> ks[i] != ks[j]
  {
    [GenresKey, DirectorsKey, ActorsKey, RuntimesKey]
  }

  // ----------------------------------------------------------- search params

  datatype ParamValue = Num(n: int) | Text(s: string)

  predicate TruthyNumber(n: Option<int>) { n.Some? && n.value != 0 }
  predicate TruthyText(s: Option<string>) { s.Some? && s.value != "" }

  /** The query of `searchMovies`: one parameter per truthy filter, in the
      order genreId, directorId, actorId, runTime, search. */
  function SearchParams(f: SearchFilters): (ps: seq<(string, ParamValue)>)
    ensures (("genreId", Num(f.genre.GetOr(0))) in ps) <==> TruthyNumber(f.genre)
    ensures (("directorId", Num(f.director.GetOr(0))) in ps) <==> TruthyNumber(f.director)
    ensures (("actorId", Num(f.actor.GetOr(0))) in ps) <==> TruthyNumber(f.actor)
    ensures (("runTime", Num(f.runtime.GetOr(0))) in ps) <==> TruthyNumber(f.runtime)
    ensures (("search", Text(f.search.GetOr(""))) in ps) <==> TruthyText(f.search)
    ensures |ps| == (if TruthyNumber(f.genre) then 1 else 0) + (if TruthyNumber(f.director) then 1 else 0)
      + (if TruthyNumber(f.actor) then 1 else 0) + (if TruthyNumber(f.runtime) then 1 else 0)
      + (if TruthyText(f.search) then 1 else 0)
  {
    ParamIf(TruthyNumber(f.genre), ("genreId", Num(f.genre.GetOr(0))))
    + ParamIf(TruthyNumber(f.director), ("directorId", Num(f.director.GetOr(0))))
    + ParamIf(TruthyNumber(f.actor), ("actorId", Num(f.actor.GetOr(0))))
    + ParamIf(TruthyNumber(f.runtime), ("runTime", Num(f.runtime.GetOr(0))))
    + ParamIf(TruthyText(f.search), ("search", Text(f.search.GetOr(""))))
  }

  /** One `if (filters.x) params = params.set(...)`. */
  function ParamIf(present: bool, p: (string, ParamValue)): (ps: seq<(string, ParamValue)>)
    ensures |ps| == if present then 1 else 0
    ensures forall q :: q in ps <==> present && q == p
  {
    if present then [p] else []
  }

  // ------------------------------------------------------- runtimes fallback

  ghost predicate StrictlyIncreasing(s: seq<int>) {
    forall i, j :: 0 <= i < j < |s| ==> s[i] < s[j]
  }

  function InsertDistinct(x: int, s: seq<int>): (r: seq<int>)
    requires StrictlyIncreasing(s)
    ensures StrictlyIncreasing(r)
    ensures forall y :: y in r <==> y in s || y == x
    decreases |s|
  {
    if s == [] then [x]
    else if x < s[0] then [x] + s
    else if x == s[0] then s
    else
      var rest := InsertDistinct(x, s[1..]);
      assert s == [s[0]] + s[1..];
      forall k | 0 <= k < |rest| ensures s[0] < rest[k] {
        assert rest[k] in rest;
        if rest[k] != x {
          var j :| 0 <= j < |s[1..]| && s[1..][j] == rest[k];
          assert s[j + 1] == rest[k];
        }
      }
      [s[0]] + rest
  }

  /** `[...new Set(xs)].sort((a, b) => a - b)` */
  function DistinctSorted(xs: seq<int>): (r: seq<int>)
    ensures StrictlyIncreasing(r)
    ensures forall y :: y in r <==> y in xs
    decreases |xs|
  {
    if xs == [] then []
    else
      var init := xs[..|xs| - 1];
      assert xs == init + [xs[|xs| - 1]];
      InsertDistinct(xs[|xs| - 1], DistinctSorted(init))
  }

  lemma HeadIsLeast(s: seq<int>, y: int)
    requires StrictlyIncreasing(s) && y in s
    ensures s[0] <= y
    ensures y in s[1..] <==> y != s[0]
  {
    var j :| 0 <= j < |s| && s[j] == y;
    if j > 0 {
      assert s[1..][j - 1] == y;
    }
    if y in s[1..] {
      var k :| 0 <= k < |s[1..]| && s[1..][k] == y;
      assert s[k + 1] == y && s[0] < s[k + 1];
    }
  }

  lemma SameMembersBothEmpty(a: seq<int>, b: seq<int>)
    requires forall y :: y in a <==> y in b
    ensures a == [] <==> b == []
  {
    if a != [] {
      var w := a[0];
      assert w in a ==> w in b;
    }
    if b != [] {
      var w := b[0];
      assert w in b ==> w in a;
    }
  }

  /** Strictly increasing lists with the same elements are equal: the
      runtimes list is determined by the set of runtimes alone. */
  lemma {:induction false} StrictlyIncreasingUnique(a: seq<int>, b: seq<int>)
    requires StrictlyIncreasing(a) && StrictlyIncreasing(b)
    requires forall y :: y in a <==> y in b
    ensures a == b
    decreases |a|
  {
    SameMembersBothEmpty(a, b);
    if a != [] {
      HeadIsLeast(a, b[0]);
      HeadIsLeast(b, a[0]);
      forall y ensures y in a[1..] <==> y in b[1..] {
        if y in a {
          HeadIsLeast(a, y);
          HeadIsLeast(b, y);
        } else {
          assert y !in a[1..] && y !in b;
          assert y !in b[1..];
        }
      }
      StrictlyIncreasingUnique(a[1..], b[1..]);
      assert a == [a[0]] + a[1..] && b == [b[0]] + b[1..];
    }
  }

  /** The fallback depends only on which runtimes occur, not on their order
      or repetition. */
  lemma DistinctSortedBySet(xs: seq<int>, ys: seq<int>)
    requires forall y :: y in xs <==> y in ys
    ensures DistinctSorted(xs) == DistinctSorted(ys)
  {
    StrictlyIncreasingUnique(DistinctSorted(xs), DistinctSorted(ys));
  }

  function Runtimes(movies: seq<Movie>): seq<int> {
    seq(|movies|, i requires 0 <= i < |movies| => movies[i].runTime)
  }

  /** The fallback lists each runtime of the fetched movies once, ascending. */
  lemma UniqueRuntimesSpec(movies: seq<Movie>)
    ensures var r := DistinctSorted(Runtimes(movies));
      && StrictlyIncreasing(r)
      && (forall i :: 0 <= i < |movies| ==> movies[i].runTime in r)
      && (forall y :: y in r ==> exists i :: 0 <= i < |movies| && movies[i].runTime == y)
  {
    var r := DistinctSorted(Runtimes(movies));
    forall i | 0 <= i < |movies| ensures movies[i].runTime in r {
      assert Runtimes(movies)[i] == movies[i].runTime;
    }
    forall y | y in r ensures exists i :: 0 <= i < |movies| && movies[i].runTime == y {
      var i :| 0 <= i < |Runtimes(movies)| && Runtimes(movies)[i] == y;
      assert movies[i].runTime == y;
    }
  }

  /** The movie service and its cache. */
  class MovieService {
    var cache: Cache

    constructor ()
      ensures cache == map[]
    {
      cache := map[];
    }

    method SetCache(key: string, data: Payload, now: int)
      modifies this
      ensures cache == Stored(old(cache), key, data, now)
    {
      cache := cache[key := CacheEntry(data, now)];
    }

    /** The common body of the getters. */
    method Get(key: string, now: int, respondedAt: int, reply: Result<Payload>, onFailure: Option<Payload>)
      returns (result: Result<Payload>, requested: bool)
      modifies this
      ensures Outcome(cache, result, requested) == Fetch(old(cache), key, now, respondedAt, reply, onFailure)
    {
      var cachedData := Lookup(cache, key, now);
      if cachedData.Some? && Truthy(cachedData.value) {
        return Success(cachedData.value), false;
      }
      requested := true;
      if reply.Failure? {
        result := if onFailure.Some? then Success(onFailure.value) else Failure;
        return;
      }
      SetCache(key, reply.value, respondedAt);
      result := reply;
    }

    method GetMovies(page: int, size: int, now: int, respondedAt: int, reply: Result<Payload>)
      returns (result: Result<Payload>, requested: bool)
      modifies this
      ensures Outcome(cache, result, requested) == Fetch(old(cache), MoviesKey(page, size), now, respondedAt, reply, None)
    {
      result, requested := Get(MoviesKey(page, size), now, respondedAt, reply, None);
    }

    method GetMovieById(movieId: int, now: int, respondedAt: int, reply: Result<Payload>)
      returns (result: Result<Payload>, requested: bool)
      modifies this
      ensures Outcome(cache, result, requested) == Fetch(old(cache), MovieKey(movieId), now, respondedAt, reply, None)
    {
      result, requested := Get(MovieKey(movieId), now, respondedAt, reply, None);
    }

    /** A failed request answers an empty list and stores nothing. */
    method GetGenres(now: int, respondedAt: int, reply: Result<Payload>)
      returns (result: Result<Payload>, requested: bool)
      modifies this
      ensures Outcome(cache, result, requested) == Fetch(old(cache), GenresKey, now, respondedAt, reply, Some(GenreList([])))
    {
      result, requested := Get(GenresKey, now, respondedAt, reply, Some(GenreList([])));
    }

    method GetDirectors(now: int, respondedAt: int, reply: Result<Payload>)
      returns (result: Result<Payload>, requested: bool)
      modifies this
      ensures Outcome(cache, result, requested) == Fetch(old(cache), DirectorsKey, now, respondedAt, reply, Some(DirectorList([])))
    {
      result, requested := Get(DirectorsKey, now, respondedAt, reply, Some(DirectorList([])));
    }

    method GetActors(now: int, respondedAt: int, reply: Result<Payload>)
      returns (result: Result<Payload>, requested: bool)
      modifies this
      ensures Outcome(cache, result, requested) == Fetch(old(cache), ActorsKey, now, respondedAt, reply, Some(ActorList([])))
    {
      result, requested := Get(ActorsKey, now, respondedAt, reply, Some(ActorList([])));
    }

    /** `getRuntimes`: when the runtimes endpoint fails, the first 1000 movies
        are fetched (through `getMovies`, at `retriedAt`, answered at
        `moviesAt`) and their distinct runtimes, ascending, are stored under
        "runtimes". A failure of that request, or a body that is not a movie
        list, throws. */
    method GetRuntimes(now: int, respondedAt: int, reply: Result<Payload>,
                       retriedAt: int, moviesAt: int, moviesReply: Result<Payload>)
      returns (result: Result<Payload>)
      modifies this
      ensures var hit := Lookup(old(cache), RuntimesKey, now);
        hit.Some? && Truthy(hit.value) ==> result == Success(hit.value) && cache == old(cache)
      ensures var hit := Lookup(old(cache), RuntimesKey, now);
        !(hit.Some? && Truthy(hit.value)) && reply.Success? ==>
          result == reply && cache == Stored(old(cache), RuntimesKey, reply.value, respondedAt)
      ensures var hit := Lookup(old(cache), RuntimesKey, now);
        !(hit.Some? && Truthy(hit.value)) && reply.Failure? ==>
          var movies := Fetch(old(cache), MoviesKey(0, 1000), retriedAt, moviesAt, moviesReply, None);
          if movies.result.Success? && movies.result.value.MovieList? then
            var rts := RuntimeList(DistinctSorted(Runtimes(movies.result.value.movies)));
            result == Success(rts) && cache == Stored(movies.cache, RuntimesKey, rts, moviesAt)
          else
            result == Failure && cache == movies.cache
    {
      var cachedData := Lookup(cache, RuntimesKey, now);
      if cachedData.Some? && Truthy(cachedData.value) {
        return Success(cachedData.value);
      }
      if reply.Success? {
        SetCache(RuntimesKey, reply.value, respondedAt);
        return reply;
      }
      var moviesResponse, _ := GetMovies(0, 1000, retriedAt, moviesAt, moviesReply);
      if moviesResponse.Failure? || !moviesResponse.value.MovieList? {
        return Failure;
      }
      var uniqueRuntimes := DistinctSorted(Runtimes(moviesResponse.value.movies));
      SetCache(RuntimesKey, RuntimeList(uniqueRuntimes), moviesAt);
      result := Success(RuntimeList(uniqueRuntimes));
    }

    /** `searchMovies`; `params` is the query sent, `None` on a cache hit. */
    method SearchMovies(filters: SearchFilters, now: int, respondedAt: int, reply: Result<Payload>)
      returns (result: Result<Payload>, params: Option<seq<(string, ParamValue)>>)
      modifies this
      ensures var o := Fetch(old(cache), SearchKey(filters), now, respondedAt, reply, None);
        cache == o.cache && result == o.result && params == (if o.requested then Some(SearchParams(filters)) else None)
    {
      var requested;
      result, requested := Get(SearchKey(filters), now, respondedAt, reply, None);
      params := if requested then Some(SearchParams(filters)) else None;
    }
  }
}
