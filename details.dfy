/** The movie details page: the movie fetched by its id, and the reviews of
    it that users left on their orders, newest first. */
module Details {
  import opened Wrappers
  import opened Seqs
  import opened Models
  import opened UserStore
  import opened Catalog

  /** One review as the page lists it; `date` is the order's start date. */
  datatype MovieReview = MovieReview(userName: string, rating: int, review: Option<string>, date: int)

  /** The orders that count as reviews of the movie: a rating that is set
      and not 0 (a falsy rating is no review). */
  function ReviewsMovie(movieId: int): Order -> bool {
    (o: Order) => o.movieId == movieId && o.rating.Some? && o.rating.value != 0
  }

  function ReviewOf(u: User, o: Order): MovieReview {
    MovieReview(u.firstName + " " + u.lastName, o.rating.GetOr(0), o.review, o.startDate)
  }

  function ToReviews(u: User, orders: seq<Order>): (r: seq<MovieReview>)
    ensures |r| == |orders| && forall k :: 0 <= k < |orders| ==> r[k] == ReviewOf(u, orders[k])
  {
    seq(|orders|, k requires 0 <= k < |orders| => ReviewOf(u, orders[k]))
  }

  /** The reviews one user left on the movie, one per reviewing order, in
      the order of the orders; none without an order list. */
  function UserReviews(u: User, movieId: int): seq<MovieReview> {
    if u.orders.Some? then ToReviews(u, Filter(u.orders.value, ReviewsMovie(movieId))) else []
  }

  /** The reviews of all users, user after user, before sorting. */
  function AllReviews(users: seq<User>, movieId: int): seq<MovieReview>
    decreases |users|
  {
    if users == [] then []
    else AllReviews(users[..|users| - 1], movieId) + UserReviews(users[|users| - 1], movieId)
  }

  /** `rv` describes one of `u`'s orders that reviews the movie. */
  ghost predicate ReviewedBy(u: User, movieId: int, rv: MovieReview) {
    u.orders.Some? && exists k :: 0 <= k < |u.orders.value| && Reviewing(u, movieId, rv, k)
  }

  ghost predicate Reviewing(u: User, movieId: int, rv: MovieReview, k: int)
    requires u.orders.Some? && 0 <= k < |u.orders.value|
  {
    ReviewsMovie(movieId)(u.orders.value[k]) && rv == ReviewOf(u, u.orders.value[k])
  }

  lemma UserReviewsMembership(u: User, movieId: int, rv: MovieReview)
    ensures rv in UserReviews(u, movieId) <==> ReviewedBy(u, movieId, rv)
  {
    if u.orders.Some? {
      var kept := Filter(u.orders.value, ReviewsMovie(movieId));
      if rv in UserReviews(u, movieId) {
        var j :| 0 <= j < |kept| && ToReviews(u, kept)[j] == rv;
        FilterMembership(u.orders.value, ReviewsMovie(movieId), kept[j]);
        var k :| 0 <= k < |u.orders.value| && u.orders.value[k] == kept[j];
        assert Reviewing(u, movieId, rv, k);
      }
      if ReviewedBy(u, movieId, rv) {
        var k :| 0 <= k < |u.orders.value| && Reviewing(u, movieId, rv, k);
        FilterMembership(u.orders.value, ReviewsMovie(movieId), u.orders.value[k]);
        var j :| 0 <= j < |kept| && kept[j] == u.orders.value[k];
        assert ToReviews(u, kept)[j] == rv;
      }
    }
  }

  /** Some user in `users` has an order that `rv` describes. */
  ghost predicate ReviewedByAny(users: seq<User>, movieId: int, rv: MovieReview) {
    exists i :: 0 <= i < |users| && ReviewedBy(users[i], movieId, rv)
  }

  lemma ReviewedByAnySnoc(users: seq<User>, movieId: int, rv: MovieReview)
    requires users != []
    ensures ReviewedByAny(users, movieId, rv) <==>
      ReviewedByAny(users[..|users| - 1], movieId, rv) || ReviewedBy(users[|users| - 1], movieId, rv)
  {
    var n := |users| - 1;
    var init := users[..n];
    if ReviewedByAny(users, movieId, rv) {
      var i :| 0 <= i < |users| && ReviewedBy(users[i], movieId, rv);
      if i < n {
        assert init[i] == users[i];
      }
    }
    if ReviewedByAny(init, movieId, rv) {
      var i :| 0 <= i < |init| && ReviewedBy(init[i], movieId, rv);
      assert init[i] == users[i];
    }
  }

  /** A review is listed exactly when some user has an order of the movie
      with a non-zero rating that it describes. */
  lemma {:induction false} AllReviewsMembership(users: seq<User>, movieId: int, rv: MovieReview)
    ensures rv in AllReviews(users, movieId) <==> ReviewedByAny(users, movieId, rv)
    decreases |users|
  {
    if users != [] {
      var n := |users| - 1;
      AllReviewsMembership(users[..n], movieId, rv);
      UserReviewsMembership(users[n], movieId, rv);
      ReviewedByAnySnoc(users, movieId, rv);
    }
  }

  // ------------------------------------------------------------------ sort

  /** `b.date - a.date`: newer dates come first. */
  ghost predicate NewestFirst(s: seq<MovieReview>) {
    forall i, j :: 0 <= i < j < |s| ==> s[i].date >= s[j].date
  }

  function DatedAt(date: int): MovieReview -> bool {
    (rv: MovieReview) => rv.date == date
  }

  /** Places `x` before the first review that is not newer than it. */
  function InsertByDate(x: MovieReview, s: seq<MovieReview>): (r: seq<MovieReview>)
    requires NewestFirst(s)
    ensures NewestFirst(r) && |r| == |s| + 1
    ensures multiset(r) == multiset(s) + multiset{x}
    decreases |s|
  {
    if s == [] || x.date >= s[0].date then [x] + s
    else
      var rest := InsertByDate(x, s[1..]);
      InsertBelowHead(x, s, rest);
      [s[0]] + rest
  }

  lemma InsertBelowHead(x: MovieReview, s: seq<MovieReview>, rest: seq<MovieReview>)
    requires s != [] && NewestFirst(s) && x.date < s[0].date
    requires NewestFirst(rest) && multiset(rest) == multiset(s[1..]) + multiset{x}
    ensures NewestFirst([s[0]] + rest)
    ensures multiset([s[0]] + rest) == multiset(s) + multiset{x}
  {
    assert s == [s[0]] + s[1..];
    forall k | 0 <= k < |rest| ensures s[0].date >= rest[k].date {
      assert rest[k] in multiset(rest);
      if rest[k] != x {
        assert rest[k] in multiset(s[1..]);
        var j :| 0 <= j < |s[1..]| && s[1..][j] == rest[k];
        assert s[j + 1] == rest[k];
      }
    }
  }

  /** `reviews.sort((a, b) => b.date.getTime() - a.date.getTime())`; the
      sort is stable, so reviews of the same date keep their order. */
  function SortNewestFirst(s: seq<MovieReview>): (r: seq<MovieReview>)
    ensures NewestFirst(r) && |r| == |s|
    ensures multiset(r) == multiset(s)
    decreases |s|
  {
    if s == [] then []
    else
      assert s == [s[0]] + s[1..];
      InsertByDate(s[0], SortNewestFirst(s[1..]))
  }

  /** Inserting keeps the order among reviews of each date: `x` goes before
      the others of its own date. */
  lemma {:induction false} InsertByDateStable(x: MovieReview, s: seq<MovieReview>, date: int)
    requires NewestFirst(s)
    ensures Filter(InsertByDate(x, s), DatedAt(date))
      == (if x.date == date then [x] else []) + Filter(s, DatedAt(date))
    decreases |s|
  {
    if s != [] && x.date < s[0].date {
      var rest := InsertByDate(x, s[1..]);
      InsertByDateStable(x, s[1..], date);
      assert Filter(InsertByDate(x, s), DatedAt(date))
          == Filter([s[0]], DatedAt(date)) + Filter(rest, DatedAt(date)) by {
        assert InsertByDate(x, s) == [s[0]] + rest;
        FilterAppend([s[0]], rest, DatedAt(date));
      }
      assert Filter(s, DatedAt(date))
          == Filter([s[0]], DatedAt(date)) + Filter(s[1..], DatedAt(date)) by {
        assert s == [s[0]] + s[1..];
        FilterAppend([s[0]], s[1..], DatedAt(date));
      }
      if x.date == date {
        assert !DatedAt(date)(s[0]);
      }
    } else {
      FilterAppend([x], s, DatedAt(date));
    }
  }

  /** The sort is stable: the reviews of any one date appear in the order
      they were collected. */
  lemma {:induction false} SortNewestFirstStable(s: seq<MovieReview>, date: int)
    ensures Filter(SortNewestFirst(s), DatedAt(date)) == Filter(s, DatedAt(date))
    decreases |s|
  {
    if s != [] {
      SortNewestFirstStable(s[1..], date);
      InsertByDateStable(s[0], SortNewestFirst(s[1..]), date);
      assert s == [s[0]] + s[1..];
      FilterAppend([s[0]], s[1..], DatedAt(date));
    }
  }

  /** One more order of a user adds its review, if it is one. */
  lemma CollectStep(u: User, orders: seq<Order>, k: nat, movieId: int)
    requires k < |orders|
    ensures ToReviews(u, Filter(orders[..k + 1], ReviewsMovie(movieId)))
      == ToReviews(u, Filter(orders[..k], ReviewsMovie(movieId)))
         + (if ReviewsMovie(movieId)(orders[k]) then [ReviewOf(u, orders[k])] else [])
  {
    assert orders[..k + 1] == orders[..k] + [orders[k]];
    FilterAppend(orders[..k], [orders[k]], ReviewsMovie(movieId));
    var kept := Filter(orders[..k], ReviewsMovie(movieId));
    if ReviewsMovie(movieId)(orders[k]) {
      assert ToReviews(u, kept + [orders[k]]) == ToReviews(u, kept) + [ReviewOf(u, orders[k])];
    } else {
      assert kept + Filter([orders[k]], ReviewsMovie(movieId)) == kept;
    }
  }

  /** One more user adds that user's reviews. */
  lemma AllReviewsStep(users: seq<User>, i: nat, movieId: int)
    requires i < |users|
    ensures AllReviews(users[..i + 1], movieId) == AllReviews(users[..i], movieId) + UserReviews(users[i], movieId)
  {
    assert users[..i + 1][..i] == users[..i];
  }

  /** The inner `forEach` for one user: the user's orders in order,
      pushing one review per order of the movie with a non-zero rating. */
  method CollectUserReviews(user: User, movieId: int) returns (reviews: seq<MovieReview>)
    ensures reviews == UserReviews(user, movieId)
  {
    reviews := [];
    if user.orders.Some? {
      var orders := user.orders.value;
      var k := 0;
      while k < |orders|
        invariant 0 <= k <= |orders|
        invariant reviews == ToReviews(user, Filter(orders[..k], ReviewsMovie(movieId)))
      {
        var order := orders[k];
        CollectStep(user, orders, k, movieId);
        if order.movieId == movieId && order.rating.Some? && order.rating.value != 0 {
          reviews := reviews + [MovieReview(user.firstName + " " + user.lastName, order.rating.value,
                                            order.review, order.startDate)];
        }
        k := k + 1;
      }
      assert orders[..k] == orders;
    }
  }

  /** The two nested `forEach` loops: users in order, and each user's
      reviews of the movie after the previous users'. */
  method CollectReviews(users: seq<User>, movieId: int) returns (reviews: seq<MovieReview>)
    ensures reviews == AllReviews(users, movieId)
  {
    reviews := [];
    var i := 0;
    while i < |users|
      invariant 0 <= i <= |users|
      invariant reviews == AllReviews(users[..i], movieId)
    {
      var userReviews := CollectUserReviews(users[i], movieId);
      reviews := reviews + userReviews;
      AllReviewsStep(users, i, movieId);
      i := i + 1;
    }
    assert users[..i] == users;
  }

  /** The page: the movie shown and its reviews. */
  class DetailsComponent {
    var movie: Option<Movie>
    var movieReviews: seq<MovieReview>

    constructor ()
      ensures movie == None && movieReviews == []
    {
      movie := None;
      movieReviews := [];
    }

    /** `loadMovieReviews`: nothing without a movie; otherwise every user's
        reviews of it, collected user by user and order by order, sorted
        newest first. The user list is read through `retrieveUsers`. */
    method LoadMovieReviews(store: Store)
      modifies this`movieReviews, store
      ensures old(movie).None? ==> movieReviews == old(movieReviews) && store.stored == old(store.stored)
      ensures old(movie).Some? ==>
        && movieReviews == SortNewestFirst(AllReviews(old(store.Users()), old(movie).value.movieId))
        && store.stored == Some(old(store.Users()))
      ensures store.active == old(store.active)
    {
      if movie.None? {
        return;
      }
      var movieId := movie.value.movieId;
      var users := store.RetrieveUsers();
      var reviews := CollectReviews(users, movieId);
      movieReviews := SortNewestFirst(reviews);
    }

    /** The reply of `getMovieById` arrives: the movie is shown (a `null`
        body or another kind of body leaves none) and its reviews loaded. */
    method OnMovieLoaded(data: Payload, store: Store)
      modifies this, store
      ensures movie == (if data.OneMovie? then Some(data.movie) else None)
      ensures data.OneMovie? ==>
        && movieReviews == SortNewestFirst(AllReviews(old(store.Users()), data.movie.movieId))
        && store.stored == Some(old(store.Users()))
      ensures !data.OneMovie? ==> movieReviews == old(movieReviews) && store.stored == old(store.stored)
      ensures store.active == old(store.active)
    {
      movie := if data.OneMovie? then Some(data.movie) else None;
      LoadMovieReviews(store);
    }
  }
}
