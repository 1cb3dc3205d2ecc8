/** The records of the application: users with their orders, cinemas and the
    movies of the remote catalog. Optional TypeScript fields (`phone?`,
    `orders?`, `rating: number | null`, ...) are `Option`s; dates are
    millisecond timestamps. */
module Models {
  import opened Wrappers

  datatype Cinema = Cinema(id: int, name: string, countryOfOrigin: string, city: string)

  datatype OrderStatus = Ordered | Canceled

  datatype Order = Order(
    id: int,
    movieId: int,
    title: string,
    startDate: int,
    runTime: int,
    cinema: Cinema,
    count: int,
    pricePerItem: real,
    time: string,
    status: OrderStatus,
    rating: Option<int>,
    seats: Option<seq<string>>,
    posterUrl: Option<string>,
    review: Option<string>)

  datatype User = User(
    id: string,
    email: string,
    firstName: string,
    lastName: string,
    phone: Option<string>,
    address: Option<string>,
    orders: Option<seq<Order>>,
    password: string,
    favouriteGenre: Option<string>)

  datatype Director = Director(directorId: int, name: string)
  datatype MovieGenre = MovieGenre(genreId: int, name: string)
  datatype MovieActor = MovieActor(actorId: int, name: string)

  /** A catalog movie. `rating` is in tenths of a star (0 when absent); it is
      not sent by the catalog but drawn by the movie list page. */
  datatype Movie = Movie(
    movieId: int,
    title: string,
    director: Option<Director>,
    originalTitle: string,
    description: string,
    shortDescription: string,
    runTime: int,
    startDate: string,
    poster: string,
    rating: int,
    movieActors: seq<MovieActor>,
    movieGenres: seq<MovieGenre>)
}
