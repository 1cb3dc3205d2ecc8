/** The movie list page: the catalog's movies with drawn ratings, the lists
    that fill the filter drop-downs, and a search that narrows the list by
    the selected criteria. The catalog's replies are parameters (the result
    of `getMovies(0, 100)`, and of the four filter getters together), and so
    are the random draws behind the ratings. */
module MoviesPage {
  import opened Wrappers
  import opened Seqs
  import opened Text
  import opened Models
  import opened Catalog

  /** The six criteria of the page; `None` stands for `null`. The minimum
      rating is in tenths of a star, like the movies' ratings. */
  datatype Criteria = Criteria(
    genre: Option<int>, director: Option<int>, actor: Option<int>, runtime: Option<int>,
    searchQuery: string, minRating: Option<int>)

  // -------------------------------------------------------------- criteria

  predicate HasGenre(m: Movie, genreId: int) {
    exists i :: 0 <= i < |m.movieGenres| && m.movieGenres[i].genreId == genreId
  }

  predicate HasActor(m: Movie, actorId: int) {
    exists i :: 0 <= i < |m.movieActors| && m.movieActors[i].actorId == actorId
  }

  predicate HasDirector(m: Movie, directorId: int) {
    m.director.Some? && m.director.value.directorId == directorId
  }

  /** The search text takes part only when it is not blank. */
  predicate SearchActive(searchQuery: string) {
    searchQuery != "" && Trim(searchQuery) != ""
  }

  /** The query the titles are matched against: lower-cased, then trimmed. */
  function Query(searchQuery: string): string {
    Trim(Lower(searchQuery))
  }

  /** `query` occurs in the lower-cased title, original title or short
      description; an empty original title or description is skipped. */
  predicate MentionsQuery(m: Movie, query: string) {
    Contains(Lower(m.title), query)
    || (m.originalTitle != "" && Contains(Lower(m.originalTitle), query))
    || (m.shortDescription != "" && Contains(Lower(m.shortDescription), query))
  }

  /** A rating of 0 is falsy, so unrated movies never pass a minimum. */
  predicate RatedAtLeast(m: Movie, minRating: int) {
    m.rating != 0 && m.rating >= minRating
  }

  predicate GenreOk(c: Criteria, m: Movie) { c.genre.None? || HasGenre(m, c.genre.value) }
  predicate DirectorOk(c: Criteria, m: Movie) { c.director.None? || HasDirector(m, c.director.value) }
  predicate ActorOk(c: Criteria, m: Movie) { c.actor.None? || HasActor(m, c.actor.value) }
  predicate RuntimeOk(c: Criteria, m: Movie) { c.runtime.None? || m.runTime == c.runtime.value }
  predicate QueryOk(c: Criteria, m: Movie) { !SearchActive(c.searchQuery) || MentionsQuery(m, Query(c.searchQuery)) }
  predicate RatingOk(c: Criteria, m: Movie) { c.minRating.None? || RatedAtLeast(m, c.minRating.value) }

  /** `m` passes every criterion that is set. */
  predicate Matches(c: Criteria, m: Movie) {
    GenreOk(c, m) && DirectorOk(c, m) && ActorOk(c, m) && RuntimeOk(c, m) && QueryOk(c, m) && RatingOk(c, m)
  }

  function Matcher(c: Criteria): Movie -> bool {
    m => Matches(c, m)
  }

  // ----------------------------------------------------------------- search

  function GenreIs(genreId: int): Movie -> bool { m => HasGenre(m, genreId) }
  function DirectorIs(directorId: int): Movie -> bool { m => HasDirector(m, directorId) }
  function ActorIs(actorId: int): Movie -> bool { m => HasActor(m, actorId) }
  function RuntimeIs(runtime: int): Movie -> bool { (m: Movie) => m.runTime == runtime }
  function Mentions(query: string): Movie -> bool { m => MentionsQuery(m, query) }
  function RatingFrom(minRating: int): Movie -> bool { m => RatedAtLeast(m, minRating) }

  /** One filter of the chain, applied only when its criterion is set. */
  function Narrowed(s: seq<Movie>, applies: bool, q: Movie -> bool): seq<Movie> {
    if applies then Filter(s, q) else s
  }

  /** `searchMovies`: starting from all movies, each criterion that is set
      filters the list further, in the page's order. */
  function Search(all: seq<Movie>, c: Criteria): seq<Movie> {
    var byGenre := Narrowed(all, c.genre.Some?, GenreIs(c.genre.GetOr(0)));
    var byDirector := Narrowed(byGenre, c.director.Some?, DirectorIs(c.director.GetOr(0)));
    var byActor := Narrowed(byDirector, c.actor.Some?, ActorIs(c.actor.GetOr(0)));
    var byRuntime := Narrowed(byActor, c.runtime.Some?, RuntimeIs(c.runtime.GetOr(0)));
    var byQuery := Narrowed(byRuntime, SearchActive(c.searchQuery), Mentions(Query(c.searchQuery)));
    Narrowed(byQuery, c.minRating.Some?, RatingFrom(c.minRating.GetOr(0)))
  }

  /** One step of the chain: when `sofar` is `all` filtered by `p`, filtering
      it further by `q` (only if the criterion `applies`) is filtering `all`
      by `pq`. */
  lemma Narrow(all: seq<Movie>, sofar: seq<Movie>, p: Movie -> bool, applies: bool, q: Movie -> bool,
               pq: Movie -> bool)
    requires sofar == Filter(all, p)
    requires forall m :: pq(m) == (p(m) && (!applies || q(m)))
    ensures Narrowed(sofar, applies, q) == Filter(all, pq)
  {
    if applies {
      FilterThen(all, p, q, pq);
    } else {
      FilterExt(all, p, pq);
    }
  }

  /** The chain of filters is a single filter by the conjunction of the
      criteria that are set. */
  lemma SearchIsOneFilter(all: seq<Movie>, c: Criteria)
    ensures Search(all, c) == Filter(all, Matcher(c))
  {
    var u0: Movie -> bool := m => true;
    var u1: Movie -> bool := m => GenreOk(c, m);
    var u2: Movie -> bool := m => GenreOk(c, m) && DirectorOk(c, m);
    var u3: Movie -> bool := m => GenreOk(c, m) && DirectorOk(c, m) && ActorOk(c, m);
    var u4: Movie -> bool := m => GenreOk(c, m) && DirectorOk(c, m) && ActorOk(c, m) && RuntimeOk(c, m);
    var u5: Movie -> bool := m => GenreOk(c, m) && DirectorOk(c, m) && ActorOk(c, m) && RuntimeOk(c, m) && QueryOk(c, m);
    assert all == Filter(all, u0) by { FilterKeepsAll(all, u0); }
    var s1 := Narrowed(all, c.genre.Some?, GenreIs(c.genre.GetOr(0)));
    assert s1 == Filter(all, u1) by { Narrow(all, all, u0, c.genre.Some?, GenreIs(c.genre.GetOr(0)), u1); }
    var s2 := Narrowed(s1, c.director.Some?, DirectorIs(c.director.GetOr(0)));
    assert s2 == Filter(all, u2) by { Narrow(all, s1, u1, c.director.Some?, DirectorIs(c.director.GetOr(0)), u2); }
    var s3 := Narrowed(s2, c.actor.Some?, ActorIs(c.actor.GetOr(0)));
    assert s3 == Filter(all, u3) by { Narrow(all, s2, u2, c.actor.Some?, ActorIs(c.actor.GetOr(0)), u3); }
    var s4 := Narrowed(s3, c.runtime.Some?, RuntimeIs(c.runtime.GetOr(0)));
    assert s4 == Filter(all, u4) by { Narrow(all, s3, u3, c.runtime.Some?, RuntimeIs(c.runtime.GetOr(0)), u4); }
    var s5 := Narrowed(s4, SearchActive(c.searchQuery), Mentions(Query(c.searchQuery)));
    assert s5 == Filter(all, u5) by { Narrow(all, s4, u4, SearchActive(c.searchQuery), Mentions(Query(c.searchQuery)), u5); }
    Narrow(all, s5, u5, c.minRating.Some?, RatingFrom(c.minRating.GetOr(0)), Matcher(c));
  }

  /** A movie is in the result exactly when it is one of all movies and
      passes every criterion that is set. */
  lemma SearchMembership(all: seq<Movie>, c: Criteria, m: Movie)
    ensures m in Search(all, c) <==> m in all && Matches(c, m)
  {
    SearchIsOneFilter(all, c);
    FilterMembership(all, Matcher(c), m);
  }

  /** The search only removes movies and keeps the order of the others. */
  lemma SearchIsSubsequence(all: seq<Movie>, c: Criteria)
    ensures IsSubsequence(Search(all, c), all)
    ensures |Search(all, c)| <= |all|
  {
    SearchIsOneFilter(all, c);
    FilterIsSubsequence(all, Matcher(c));
  }

  /** The result is all movies exactly when every movie passes; in
      particular, with no criterion set nothing is removed. */
  lemma SearchKeepsAllIff(all: seq<Movie>, c: Criteria)
    ensures Search(all, c) == all <==> forall i :: 0 <= i < |all| ==> Matches(c, all[i])
    ensures (c.genre.None? && c.director.None? && c.actor.None? && c.runtime.None?
             && !SearchActive(c.searchQuery) && c.minRating.None?) ==> Search(all, c) == all
  {
    SearchIsOneFilter(all, c);
    FilterIdentityIff(all, Matcher(c));
  }

  /** Upper case in the search text changes nothing. */
  lemma QueryIgnoresCase(m: Movie, a: string, b: string)
    requires Lower(a) == Lower(b)
    ensures SearchActive(a) <==> SearchActive(b)
    ensures MentionsQuery(m, Query(a)) <==> MentionsQuery(m, Query(b))
  {
    assert |a| == |b|;
    forall i | 0 <= i < |a| ensures IsSpace(a[i]) <==> IsSpace(b[i]) {
      assert LowerChar(a[i]) == Lower(a)[i] == Lower(b)[i] == LowerChar(b[i]);
    }
    TrimEmptyIffBlank(a);
    TrimEmptyIffBlank(b);
  }

  // ---------------------------------------------------------------- ratings

  /** `Math.round((r * 4 + 1) * 10) / 10` for a draw `r` of `Math.random`,
      in tenths; `Math.round` rounds halves up. */
  function DrawnRating(r: real): int {
    (40.0 * r + 10.5).Floor
  }

  /** Every drawn rating lies between 1.0 and 5.0 stars, so none is falsy. */
  lemma DrawnRatingRange(r: real)
    requires 0.0 <= r < 1.0
    ensures 10 <= DrawnRating(r) <= 50
  {
    var x := 40.0 * r + 10.5;
    assert 10.5 <= x < 50.5;
    assert (x.Floor as real) <= x < (x.Floor as real) + 1.0;
  }

  /** The movies with the `i`-th draw turned into the `i`-th rating. */
  function WithRatings(movies: seq<Movie>, draws: nat -> real): (r: seq<Movie>)
    ensures |r| == |movies|
    ensures forall i :: 0 <= i < |r| ==> r[i] == movies[i].(rating := DrawnRating(draws(i)))
  {
    seq(|movies|, i requires 0 <= i < |movies| => movies[i].(rating := DrawnRating(draws(i))))
  }

  /** The movie list response with the payload the page can use. */
  predicate LoadedMovies(response: Result<Payload>) {
    response.Success? && response.value.MovieList?
  }

  /** The four filter lists as answered; `Failure` when one getter threw. */
  datatype FilterLists = FilterLists(genres: Payload, directors: Payload, actors: Payload, runtimes: Payload)

  function GenresOf(p: Payload): seq<MovieGenre> { if p.GenreList? then p.genres else [] }
  function DirectorsOf(p: Payload): seq<Director> { if p.DirectorList? then p.directors else [] }
  function ActorsOf(p: Payload): seq<MovieActor> { if p.ActorList? then p.actors else [] }
  function RuntimesOf(p: Payload): seq<int> { if p.RuntimeList? then p.runtimes else [] }

  class MoviesComponent {
    var movies: Option<seq<Movie>>
    var allMovies: seq<Movie>
    var genres: seq<MovieGenre>
    var directors: seq<Director>
    var actors: seq<MovieActor>
    var runtimes: seq<int>
    var isLoading: bool
    var ratingsGenerated: bool
    var selectedGenre: Option<int>
    var selectedDirector: Option<int>
    var selectedActor: Option<int>
    var selectedRuntime: Option<int>
    var searchQuery: string
    var minRating: Option<int>

    constructor ()
      ensures movies == None && allMovies == [] && genres == [] && directors == [] && actors == []
      ensures runtimes == [] && !isLoading && !ratingsGenerated
      ensures CurrentCriteria() == Criteria(None, None, None, None, "", None)
    {
      movies := None;
      allMovies := [];
      genres := [];
      directors := [];
      actors := [];
      runtimes := [];
      isLoading := false;
      ratingsGenerated := false;
      selectedGenre := None;
      selectedDirector := None;
      selectedActor := None;
      selectedRuntime := None;
      searchQuery := "";
      minRating := None;
    }

    function CurrentCriteria(): Criteria
      reads this`selectedGenre, this`selectedDirector, this`selectedActor, this`selectedRuntime
      reads this`searchQuery, this`minRating
    {
      Criteria(selectedGenre, selectedDirector, selectedActor, selectedRuntime, searchQuery, minRating)
    }

    /** `loadFilters`, given what the four getters answered together. Once
        genres are loaded nothing is fetched again; when a getter throws the
        lists stay as they were; a `null` answer becomes an empty list. */
    method LoadFilters(fetched: Result<FilterLists>)
      modifies this`genres, this`directors, this`actors, this`runtimes
      ensures old(|genres|) > 0 || fetched.Failure? ==>
        genres == old(genres) && directors == old(directors) && actors == old(actors) && runtimes == old(runtimes)
      ensures old(|genres|) == 0 && fetched.Success? ==>
        && genres == GenresOf(fetched.value.genres) && directors == DirectorsOf(fetched.value.directors)
        && actors == ActorsOf(fetched.value.actors) && runtimes == RuntimesOf(fetched.value.runtimes)
    {
      if |genres| > 0 {
        return;
      }
      if fetched.Success? {
        genres := GenresOf(fetched.value.genres);
        directors := DirectorsOf(fetched.value.directors);
        actors := ActorsOf(fetched.value.actors);
        runtimes := RuntimesOf(fetched.value.runtimes);
      }
    }

    /** `loadMovies`, given the answer of `getMovies(0, 100)` and the random
        draws. A call while loading only clears the flag (the early return
        still runs the `finally`); otherwise a usable answer replaces all
        movies, rated from the draws the first time only, and shows them. */
    method LoadMovies(response: Result<Payload>, draws: nat -> real)
      modifies this`isLoading, this`allMovies, this`ratingsGenerated, this`movies
      ensures !isLoading
      ensures old(isLoading) || !LoadedMovies(response) ==>
        allMovies == old(allMovies) && ratingsGenerated == old(ratingsGenerated) && movies == old(movies)
      ensures !old(isLoading) && LoadedMovies(response) ==>
        && allMovies == (if old(ratingsGenerated) then response.value.movies
                         else WithRatings(response.value.movies, draws))
        && ratingsGenerated
        && movies == Some(allMovies)
    {
      if isLoading {
        isLoading := false;
        return;
      }
      isLoading := true;
      if LoadedMovies(response) {
        allMovies := response.value.movies;
        if !ratingsGenerated {
          var i := 0;
          while i < |allMovies|
            invariant 0 <= i <= |allMovies| == |response.value.movies|
            invariant forall j :: 0 <= j < i ==>
              allMovies[j] == response.value.movies[j].(rating := DrawnRating(draws(j)))
            invariant forall j :: i <= j < |allMovies| ==> allMovies[j] == response.value.movies[j]
          {
            allMovies := allMovies[i := allMovies[i].(rating := DrawnRating(draws(i)))];
            i := i + 1;
          }
          ratingsGenerated := true;
        }
        movies := Some(allMovies);
      }
      isLoading := false;
    }

    /** `searchMovies`: the shown list becomes the search over all movies. */
    method SearchMovies()
      modifies this`movies
      ensures movies == Some(Search(allMovies, CurrentCriteria()))
    {
      var criteria := CurrentCriteria();
      var found := Search(allMovies, criteria);
      movies := Some(found);
      assert CurrentCriteria() == criteria;
    }

    /** The first half of `resetSearch`: every criterion is cleared. */
    method ClearCriteria()
      modifies this`selectedGenre, this`selectedDirector, this`selectedActor, this`selectedRuntime
      modifies this`searchQuery, this`minRating
      ensures CurrentCriteria() == Criteria(None, None, None, None, "", None)
    {
      selectedActor := None;
      selectedGenre := None;
      selectedDirector := None;
      selectedRuntime := None;
      searchQuery := "";
      minRating := None;
    }

    /** `resetSearch`: every criterion is cleared; the shown list becomes all
        movies when there are some, and is loaded again otherwise. */
    method ResetSearch(response: Result<Payload>, draws: nat -> real)
      modifies this`selectedGenre, this`selectedDirector, this`selectedActor, this`selectedRuntime
      modifies this`searchQuery, this`minRating
      modifies this`isLoading, this`allMovies, this`ratingsGenerated, this`movies
      ensures CurrentCriteria() == Criteria(None, None, None, None, "", None)
      ensures genres == old(genres) && directors == old(directors) && actors == old(actors) && runtimes == old(runtimes)
      ensures old(|allMovies|) > 0 ==>
        && movies == Some(allMovies) && allMovies == old(allMovies)
        && isLoading == old(isLoading) && ratingsGenerated == old(ratingsGenerated)
      ensures old(|allMovies|) == 0 ==> !isLoading
      ensures old(|allMovies|) == 0 && (old(isLoading) || !LoadedMovies(response)) ==>
        allMovies == old(allMovies) && ratingsGenerated == old(ratingsGenerated) && movies == old(movies)
      ensures old(|allMovies|) == 0 && !old(isLoading) && LoadedMovies(response) ==>
        && allMovies == (if old(ratingsGenerated) then response.value.movies
                         else WithRatings(response.value.movies, draws))
        && ratingsGenerated && movies == Some(allMovies)
    {
      ClearCriteria();
      if |allMovies| > 0 {
        movies := Some(allMovies);
      } else {
        LoadMovies(response, draws);
      }
    }
  }

  /** After a reset the search shows every movie. */
  lemma SearchAfterReset(all: seq<Movie>)
    ensures Search(all, Criteria(None, None, None, None, "", None)) == all
  {
    SearchKeepsAllIff(all, Criteria(None, None, None, None, "", None));
  }

  /** Freshly drawn ratings let every movie through a minimum of one star. */
  lemma DrawnRatingsPassOneStar(movies: seq<Movie>, draws: nat -> real, m: Movie)
    requires forall i: nat :: 0.0 <= draws(i) < 1.0
    requires m in WithRatings(movies, draws)
    ensures RatedAtLeast(m, 10)
  {
    var i :| 0 <= i < |WithRatings(movies, draws)| && WithRatings(movies, draws)[i] == m;
    DrawnRatingRange(draws(i));
  }
}
