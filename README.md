# Cinema ticketing front end — a Dafny model

This project models the domain logic of an Angular front end for a Belgrade
cinema chain. On the site visitors browse the film catalogue, pick seats,
pay for tickets, and rate the films they have seen. The model covers:

- **UserStore** — the user/order store kept in the browser's local storage.
  It holds a list of users, each with an optional order list, and the email
  of the logged-in user (the 'active' key). Every operation reads the whole
  list, changes it and writes it back.
- **Booking** — the booking page:
  - the 10 × 18 seat grid and its seat categories;
  - picking and unpicking seats;
  - the summary text and the price;
  - the order built at checkout.
- **Payment** — the payment form:
  - the card-number, card-holder, expiry and CVV sanitisers and their error
    messages;
  - the form-validity rule;
  - the order-load redirects and the submit guard.
- **Catalog** — the movie service:
  - a key → (data, timestamp) cache with a strict five-minute validity window;
  - the cache keys of each getter;
  - the distinct-sorted runtimes fallback;
  - the query parameters of a search.
- **MoviesPage** — the client-side filter chain of the movies page (genre,
  director, actor, runtime, case-insensitive text, minimum rating), and its
  load and reset guards.
- **UserPage** — the user page's single review slot, the profile-edit state
  machine, and the counters.
- **Details** — collecting and sorting the reviews of one film across all
  users.
- **Signup** — the sign-up checks.
- **Home** — the home-page slideshow's index arithmetic.
- **TmdbImage** — the poster-URL pipe.
- **Cinemas** — the constant cinema table.

Shared pieces:

- **Models** — the records: user, order, movie, cinema.
- **Wrappers** — `Option` and `Result`.
- **Seqs** — first index, filter, count, and their laws.
- **Text** — digits, whitespace, trimming, lower-casing, substring search,
  decimal printing.

Conventions:

- A state that the source changes in place is a class whose methods state
  its whole new state. Each such method is tied to a pure function, and the
  lemmas about that function carry the promises.
- Local storage is a field of the store.
- The clock, UUIDs, `Math.random`, HTTP replies and the router are
  parameters or results.

## Model

| member | source | states |
|---|---|---|
| UserStore.Store.RetrieveUsers | src/services/user.service.ts:5-24 | with no stored list, seeds exactly the one default user with an empty order list; otherwise returns the stored list unchanged; the session key is untouched |
| UserStore.AddUser | src/services/user.service.ts:26-38 | sign-up succeeds iff no existing email equals the new one, and then appends the user at the end |
| UserStore.Store.CreateUser | src/services/user.service.ts:26-38 | returns true iff no user has the email; writes the list plus the new user at the end, or the list unchanged |
| UserStore.AddUserKeepsUnique | src/services/user.service.ts:26-38 | a successful sign-up keeps emails unique |
| UserStore.LoginAfterSignup | src/services/user.service.ts:26-53 | right after signing up, the same credentials log in, matching the new record |
| UserStore.Store.Login | src/services/user.service.ts:40-53 | true iff some user matches email and password exactly; then the session key becomes the email, otherwise it is untouched |
| UserStore.Store.Logout | src/app/app.component.ts:23-26 | removes the session key and nothing else |
| UserStore.ActiveUser | src/services/user.service.ts:55-69 | nobody is active iff the key is absent or empty or no user has that email; the user found is in the list and carries the key's email |
| UserStore.Store.GetActiveUser | src/services/user.service.ts:55-69 | with no session key (absent or empty) returns nobody and leaves storage as it was; otherwise returns the first user with the key's email, reading the list through `retrieveUsers` (which seeds it when absent) |
| UserStore.ActiveAfterLogin | src/services/user.service.ts:40-69 | with unique emails, after a login with a non-empty email, the active user is the record that matched |
| UserStore.EmptyEmailLoginHasNoActiveUser | src/services/user.service.ts:40-69 | a login with the empty email can succeed, yet nobody is then active |
| UserStore.WithField | src/services/user.service.ts:71-165 | sets exactly one profile field; every other field is unchanged |
| UserStore.ChangedField | src/services/user.service.ts:71-165 | fails iff no user's email equals the session key; otherwise changes only that field of the first such user and leaves every other user as is |
| UserStore.Store.ChangeField | src/services/user.service.ts:71-165 | returns true iff a user owns the session key; writes the changed list, or the list unchanged; the key is not moved |
| UserStore.ChangedFieldKeepsEmails | src/services/user.service.ts:71-85 | changing any field but the email keeps every user's email |
| UserStore.EmailChangeLosesSession | src/services/user.service.ts:87-101 | with unique emails, once the active user's email changes to another value, nobody is active any more |
| UserStore.WithOrder | src/services/user.service.ts:167-182 | the order list becomes the old list (empty if absent) followed by the order; nothing else changes |
| UserStore.AddedOrder | src/services/user.service.ts:167-182 | fails iff no user owns the session key; otherwise appends the order to the first owner's list only |
| UserStore.Store.CreateOrder | src/services/user.service.ts:167-182 | returns true iff a user owns the key; writes the list with the order appended, or the list unchanged |
| UserStore.ActiveUserSeesNewOrder | src/services/user.service.ts:167-182 | after creating an order, the active user's order list ends with it |
| UserStore.StatusOfAll | src/services/user.service.ts:184-204 | sets the status of every order carrying the id, and leaves the others untouched |
| UserStore.StatusOfAllMatching | src/services/user.service.ts:184-204 | succeeds iff a user is logged in and some user with the session email has an order list (a logged-in user without one gets false); then the first such user gets every order with the id set to the status, and no other user or field changes |
| UserStore.StatusOfAllMatchingAt | src/services/user.service.ts:184-204 | when user i is the first with the session email and an order list, the result is the list with exactly user i's orders status-changed |
| UserStore.Store.ChangeOrderStatus | src/services/user.service.ts:184-204 | returns true iff a user is logged in and a user with that email has an order list; with no session key storage is untouched, otherwise the list is written with every matching order of that user changed (or unchanged on false) |
| UserStore.StatusOfAllMatchingNoMatch | src/services/user.service.ts:184-204 | reports success while changing nothing when no order has the id |
| UserStore.Rated | src/services/user.service.ts:206-226 | sets the rating; overwrites the review only with a non-empty text; nothing else changes |
| UserStore.RatedOrder | src/services/user.service.ts:206-226 | fails iff no owned user holds an order with the id |
| UserStore.RatedOrderAt | src/services/user.service.ts:206-226 | when user i is the first owned user holding the id, the result rates that user's first order with the id (UpdateOrderAt: that one order changes, every other order and user stays) |
| UserStore.FindOrder | src/services/user.service.ts:206-249 | the first (user, order) position whose user passes the test and holds the id; none iff no such position exists |
| UserStore.FirstOrderWithId | src/services/user.service.ts:212-222 | the inner loop stops at the first order carrying the id, or finds none |
| UserStore.Store.UpdateOrderRating | src/services/user.service.ts:206-226 | returns true iff the order was found; writes the rated list, or the list unchanged |
| UserStore.EmptyReviewKeepsReview | src/services/user.service.ts:206-226 | rating with an empty text sets the rating and keeps the old review |
| UserStore.StatusOfFirst | src/services/user.service.ts:228-249 | needs a logged-in user; fails iff no owned order has the id; otherwise changes the first match only |
| UserStore.Store.UpdateOrderStatus | src/services/user.service.ts:228-249 | returns true iff a first match exists; with no session key storage is untouched, otherwise the list is written with only that order's status changed (or unchanged on false) |
| UserStore.StatusOfAllSingle | src/services/user.service.ts:184-204 | with a single order carrying the id, changing all matches is the same as changing that one |
| UserStore.StatusOperationsAgree | src/services/user.service.ts:184-249 | with unique emails and order ids, the two status operations give the same list whenever the first-match one succeeds |
| UserStore.ReplacedUser | src/services/user.service.ts:251-263 | fails iff no user owns the key; otherwise replaces the first owner's record as a whole |
| UserStore.Store.UpdateUser | src/services/user.service.ts:251-263 | returns true iff a user owns the key; writes the replaced list; the key is not moved |
| UserStore.UpdateUserLosesSession | src/services/user.service.ts:251-263 | replacing the active record by one with another email leaves nobody active |
| Booking.CellInGrid | src/app/booking/booking.component.ts:109-137 | each (row, seat) cell has its own key, distinct from every other cell's |
| Booking.Category | src/app/booking/booking.component.ts:117-133 | VIP iff row F-H; love iff row J with an even seat; disability iff row A at seat 0 or 17 (the first rule that applies wins) |
| Booking.BookingSession.InitializeSeats | src/app/booking/booking.component.ts:109-137 | the two maps become the row-by-row, seat-by-seat walk of the draws over the old maps; every available cell still has a category; the selection and the other fields are kept |
| Booking.DrawnAt | src/app/booking/booking.component.ts:109-114 | part-way through the walk, the availability map holds the old entries plus the cells passed; a passed cell holds its draw, every other entry is unchanged |
| Booking.TypedAt | src/app/booking/booking.component.ts:116-133 | part-way through the walk, the category map gains exactly the passed cells drawn available, each with its category; a cell drawn unavailable keeps its old (possibly stale) entry |
| Booking.DrawnGrid | src/app/booking/booking.component.ts:109-137 | after the walk each of the 10 × 18 cells holds its draw, and each cell drawn available holds its category |
| Booking.DrawnOutside | src/app/booking/booking.component.ts:109-137 | after the walk, keys outside the grid keep their entries, no entry is dropped, and only cells drawn available change category |
| Booking.DrawnKeepsCategories | src/app/booking/booking.component.ts:116-133 | the walk keeps "every available cell has a category" |
| Booking.ClassOf | src/app/booking/booking.component.ts:142-162 | 'selected' iff the cell is picked, whatever its availability; else 'unavailable' iff not available; else the cell's recorded category, 'standard' when none is recorded |
| Booking.BookingSession.GetSeatClass | src/app/booking/booking.component.ts:142-162 | over the page's state: 'selected' iff picked, a category iff not picked and available; on a consistent page that category is the recorded one, never the fallback |
| Booking.ToggleFlips | src/app/booking/booking.component.ts:179-195 | toggling flips whether the cell is picked, and the picked cells stay distinct |
| Booking.ToggleTwiceRestores | src/app/booking/booking.component.ts:179-195 | picking an unpicked cell and toggling it again restores the selection exactly |
| Booking.BookingSession.ToggleSeat | src/app/booking/booking.component.ts:167-196 | an unavailable cell leaves the selection unchanged; an available one is toggled with its category; only the selection may change (loading, grid, movie, cinema, time and date stay) |
| Booking.TotalPriceByCategory | src/app/booking/booking.component.ts:237-241 | the total is 1290 per VIP or love seat plus 890 per other seat (0 for none) |
| Booking.BookingSession.GetTotalPrice | src/app/booking/booking.component.ts:237-241 | the page's total is 1290 per VIP or love seat picked plus 890 per other picked seat |
| Booking.TotalPriceExample | src/app/booking/booking.component.ts:237-241 | two standard seats and a VIP seat cost 3070 |
| Booking.SortSeats | src/app/booking/booking.component.ts:207-213 | the copy is ordered by row, then seat, and is a permutation of the selection |
| Booking.GroupFlattens | src/app/booking/booking.component.ts:214-222 | grouping by row loses, adds and reorders no (row, 1-based number) pair |
| Booking.GroupOfSorted | src/app/booking/booking.component.ts:215-231 | on a sorted list, rows strictly increase, each group is non-empty and its numbers ascend |
| Booking.SelectedSeatsTextEmpty | src/app/booking/booking.component.ts:201-205 | the summary is empty exactly when nothing is picked |
| Booking.BookingSession.GetSelectedSeatsText | src/app/booking/booking.component.ts:201-232 | the page's summary is empty exactly while no seat is picked |
| Booking.SelectedSeatsTextExample | src/app/booking/booking.component.ts:201-232 | seats C-2, A-0 and A-17 read "A1, 18; C3" |
| Booking.BuildOrder | src/app/booking/booking.component.ts:253-269 | the order counts the picked seats, labels them row plus 1-based number in order, is 'ordered' and unrated, and its price per item times the count is the total |
| Booking.BookingSession.OnNextStep | src/app/booking/booking.component.ts:246-283 | no order when nothing is picked or no cinema is chosen; otherwise the built order is added to the store |
| Booking.BookingSession.OnCinemaOptionChange | src/app/booking/booking.component.ts:286-289 | the option becomes the id and the chosen cinema is that id's table entry; only those two fields may change |
| Booking.BookingSession.constructor | src/app/booking/booking.component.ts:42-73 | cinema 1 at 20:30, today, nothing picked, no grid yet, loading |
| Booking.BookingSession.OnMovieReply | src/app/booking/booking.component.ts:84-97 | a reply shows its movie (none for a `null` or other body) and draws the grid exactly as `initializeSeats` does; a failed request leaves the page for home with the movie and grid as they were; loading ends either way |
| Payment.EntryFor | src/app/payment/payment.component.ts:60-81 | to login iff no active user or no order list; to the user page iff the order is missing or canceled; otherwise pay for it |
| Payment.PaymentForm.LoadOrder | src/app/payment/payment.component.ts:60-81 | the entry decision above; only when paying does it set the order and clear loading; with no session key storage is untouched |
| Payment.GroupedShape | src/app/payment/payment.component.ts:99-105 | digits in groups of four split by single spaces: each fifth character is a space, the others are the digits in order |
| Payment.GroupedUngroups | src/app/payment/payment.component.ts:99-105 | removing the spaces gives back the digits |
| Payment.FormatCardDigits | src/app/payment/payment.component.ts:99-108 | the loop's text is the grouping of the first at most 16 digits |
| Payment.CardNumberTextShape | src/app/payment/payment.component.ts:84-110 | the shown number has at most 19 characters, only digits and group spaces, and spells the input's first 16 digits |
| Payment.CardNumberError | src/app/payment/payment.component.ts:85-96 | the non-digit message iff the unspaced input has a non-digit; the too-short message iff it has fewer than 16 digits; else none |
| Payment.HolderText | src/app/payment/payment.component.ts:113-125 | keeps exactly the letters and whitespace, in order; unchanged iff the input had nothing else |
| Payment.HolderError | src/app/payment/payment.component.ts:113-125 | the error is set iff the input had another character |
| Payment.HolderTextIdempotent | src/app/payment/payment.component.ts:113-125 | filtering twice is filtering once, and the filtered text raises no error |
| Payment.YearError | src/app/payment/payment.component.ts:150-157 | no year error iff the year lies in [current year, current year + 10] |
| Payment.ExpiryStep | src/app/payment/payment.component.ts:128-175 | deleting shows the raw digits; a month outside 1-12 sets the month error and keeps two digits; otherwise MM/YY of the first four digits |
| Payment.MonthYearDigits | src/app/payment/payment.component.ts:164-172 | the shown date spells the first at most four digits |
| Payment.ExpiryValidMeans | src/app/payment/payment.component.ts:128-175 | a five-character result with no error has month 1-12 and a year in range |
| Payment.ExpiryIdempotent | src/app/payment/payment.component.ts:128-175 | retyping the shown date gives the same date |
| Payment.ExpiryJudgesHiddenDigits | src/app/payment/payment.component.ts:139-157 | after a valid month the field shows at most two year digits, but the year message is judged on the value of every digit typed after the month |
| Payment.HiddenDigitsExample | src/app/payment/payment.component.ts:150-157 | with 2025 as the current year, the year typed as "3099" (shown as "30") is too far ahead, while "30" alone is accepted |
| Payment.CvvError | src/app/payment/payment.component.ts:178-194 | the error is set iff the input had a non-digit or has one or two digits |
| Payment.ValidFormMeans | src/app/payment/payment.component.ts:197-209 | a valid form has 16 grouped digits, exactly three CVV digits and five-character expiry; a CVV of four or more digits raises no error yet fails validity |
| Payment.PaymentForm.ValidateCardNumber | src/app/payment/payment.component.ts:84-110 | sets the number and its error as above, and nothing else |
| Payment.PaymentForm.ValidateCardHolder | src/app/payment/payment.component.ts:113-125 | sets the holder and its error as above, and nothing else |
| Payment.PaymentForm.FormatExpiryDate | src/app/payment/payment.component.ts:128-175 | sets the date and its error as above, and nothing else |
| Payment.PaymentForm.ValidateCvv | src/app/payment/payment.component.ts:178-194 | keeps only the digits and sets the error as above |
| Payment.PaymentForm.OnSubmit | src/app/payment/payment.component.ts:216-237 | an invalid form only sets 'required' for empty fields; a valid one is ignored while loading, otherwise sets loading and pays |
| Catalog.Lookup | src/services/movie.service.ts:19-25 | data only if an entry exists and now − timestamp < 300000 (strict) |
| Catalog.Stored | src/services/movie.service.ts:27-32 | overwrites the key with the data and the time; every other entry is kept |
| Catalog.LookupAfterStore | src/services/movie.service.ts:19-32 | a stored entry is found for five minutes; other keys are unaffected |
| Catalog.ExpiredStaysExpired | src/services/movie.service.ts:19-25 | an entry that has expired is never found again |
| Catalog.Fetch | src/services/movie.service.ts:34-67 | a truthy hit returns the cache without a request; a miss stores the reply under the key; a failure stores nothing and gives the fallback |
| Catalog.SecondCallHitsCache | src/services/movie.service.ts:34-54 | within five minutes of a stored reply, the same getter makes no request |
| Catalog.MoviesKeyInjective | src/services/movie.service.ts:35 | `movies_{page}_{size}` keys differ for different pages or sizes |
| Catalog.MovieKeyInjective | src/services/movie.service.ts:57 | `movie_{id}` keys differ for different ids |
| Catalog.KeyFamiliesDistinct | src/services/movie.service.ts:35-146 | the key families never collide with each other or with the fixed keys |
| Catalog.FixedKeys | src/services/movie.service.ts:70-124 | 'genres', 'directors', 'actors', 'runtimes' are distinct |
| Catalog.MovieService.Get | src/services/movie.service.ts:34-67 | the shared getter body: cache and result are those of Fetch (a truthy unexpired hit answers without a request; otherwise the reply is cached, or the fallback given on failure) |
| Catalog.MovieService.SetCache | src/services/movie.service.ts:27-32 | the cache becomes the stored map |
| Catalog.MovieService.GetMovies | src/services/movie.service.ts:34-54 | the fetch under `movies_{page}_{size}` |
| Catalog.MovieService.GetMovieById | src/services/movie.service.ts:56-67 | the fetch under `movie_{id}` |
| Catalog.MovieService.GetGenres | src/services/movie.service.ts:69-85 | the fetch under 'genres'; a failure gives an empty list and caches nothing |
| Catalog.MovieService.GetDirectors | src/services/movie.service.ts:87-103 | the fetch under 'directors'; a failure gives an empty list and caches nothing |
| Catalog.MovieService.GetActors | src/services/movie.service.ts:105-121 | the fetch under 'actors'; a failure gives an empty list and caches nothing |
| Catalog.DistinctSorted | src/services/movie.service.ts:139 | strictly ascending, with exactly the input's values |
| Catalog.StrictlyIncreasingUnique | src/services/movie.service.ts:139 | two strictly ascending lists with the same members are equal |
| Catalog.DistinctSortedBySet | src/services/movie.service.ts:139 | the runtime fallback depends only on which runtimes occur, not on their order or repetition |
| Catalog.UniqueRuntimesSpec | src/services/movie.service.ts:135-141 | the fallback lists each movie's runtime once, ascending, and nothing else |
| Catalog.MovieService.GetRuntimes | src/services/movie.service.ts:123-143 | a hit returns the cache; a miss stores the reply; a failure stores the distinct sorted runtimes of the movies fetched instead |
| Catalog.SearchParams | src/services/movie.service.ts:153-159 | one parameter per truthy filter (genreId, directorId, actorId, runTime, search) and no other |
| Catalog.MovieService.SearchMovies | src/services/movie.service.ts:145-169 | the fetch under `search_{filters}` with those parameters |
| MoviesPage.SearchIsOneFilter | src/app/movies/movies.component.ts:126-195 | the chain of filters equals one filter by the conjunction of the active criteria |
| MoviesPage.SearchMembership | src/app/movies/movies.component.ts:126-195 | a movie is shown iff it is loaded and meets every active criterion |
| MoviesPage.SearchIsSubsequence | src/app/movies/movies.component.ts:126-195 | the shown movies keep the loaded order and never outnumber them |
| MoviesPage.SearchKeepsAllIff | src/app/movies/movies.component.ts:126-195 | the search keeps every movie iff all meet the criteria; with no criteria it is the identity |
| MoviesPage.QueryIgnoresCase | src/app/movies/movies.component.ts:162-168 | two queries that differ only in case select the same movies |
| MoviesPage.DrawnRatingRange | src/app/movies/movies.component.ts:112 | a drawn rating lies between 1.0 and 5.0 |
| MoviesPage.WithRatings | src/app/movies/movies.component.ts:108-115 | each movie gets the rating drawn for its position, and nothing else changes |
| MoviesPage.DrawnRatingsPassOneStar | src/app/movies/movies.component.ts:108-115 | every movie with a drawn rating passes a one-star minimum |
| MoviesPage.MoviesComponent.constructor | src/app/movies/movies.component.ts:22-46 | nothing loaded, no criteria |
| MoviesPage.MoviesComponent.LoadFilters | src/app/movies/movies.component.ts:76-97 | nothing changes when genres are loaded or a request fails; otherwise the four lists are set |
| MoviesPage.MoviesComponent.LoadMovies | src/app/movies/movies.component.ts:99-124 | loading always ends; while busy or on a bad reply nothing else changes; otherwise both lists are the movies, rated only on the first load |
| MoviesPage.MoviesComponent.SearchMovies | src/app/movies/movies.component.ts:126-195 | shows the search of the loaded movies by the current criteria |
| MoviesPage.MoviesComponent.ClearCriteria | src/app/movies/movies.component.ts:198-203 | every criterion is cleared: no genre, director, actor, runtime or minimum rating, and an empty query |
| MoviesPage.MoviesComponent.ResetSearch | src/app/movies/movies.component.ts:197-210 | clears every criterion; shows all loaded movies, or loads them when none are loaded |
| MoviesPage.SearchAfterReset | src/app/movies/movies.component.ts:197-210 | with cleared criteria the search shows every loaded movie |
| UserPage.OrdersCount | src/app/user/user.component.ts:61-63 | the length of the order list, 0 without a user or list |
| UserPage.LikedCount | src/app/user/user.component.ts:65-67 | at most the order count, 0 without a user or list |
| UserPage.PositiveRatingsCount | src/app/user/user.component.ts:69-71 | at most the order count, 0 without a user or list |
| UserPage.LikedIsPositive | src/app/user/user.component.ts:65-71 | the two counters always agree, and are 0 iff no order is rated 4 or more |
| UserPage.RatingText | src/app/user/user.component.ts:116-125 | a label iff the rating is 1-5, empty otherwise |
| UserPage.RatingTextInjective | src/app/user/user.component.ts:116-125 | the five labels are distinct |
| UserPage.LocallyRated | src/app/user/user.component.ts:93-94 | the page's copy gets the rating and the review text; nothing else changes |
| UserPage.LocalCopyAgreesIff | src/app/user/user.component.ts:86-113 | the page's copy equals the stored order iff the text is non-empty or the old review was already empty |
| UserPage.ReplaceFirst | src/app/user/user.component.ts:98-101 | replaces the first order with the id, or nothing when none has it |
| UserPage.ReplaceFirstFinds | src/app/user/user.component.ts:98-101 | after the replacement the first order with the id is the new one, at the same position |
| UserPage.WithReplacedOrder | src/app/user/user.component.ts:97-102 | the page's user keeps everything but the replaced order |
| UserPage.UserComponent.ReplaceUserOrder | src/app/user/user.component.ts:97-102 | with a loaded user and order list, the first order with the id is replaced in the page's copy; otherwise the copy is unchanged |
| UserPage.UserComponent.constructor | src/app/user/user.component.ts:36-58 | the page's user is the active user; both dialogs closed, review form cleared (no order, rating 0, text '', hover 0), edit state cleared (no field, value '', not editing); with no session key storage is untouched, otherwise the list is read (and seeded if absent) |
| UserPage.UserComponent.CloseReviewModal | src/app/user/user.component.ts:74-80 | closes the modal and clears the review slot |
| UserPage.UserComponent.OpenReviewModal | src/app/user/user.component.ts:185-188 | opens the modal for the order |
| UserPage.UserComponent.SetRating | src/app/user/user.component.ts:82-84 | records the rating |
| UserPage.UserComponent.SubmitReview | src/app/user/user.component.ts:86-113 | without an order or rating nothing happens: no alert, storage, user and review form (rating, text, hover) unchanged; otherwise rates through the store with the trimmed text, updates the copy, thanks and resets the dialog on success, warns on failure leaving the user and the whole review form as they were |
| UserPage.UserComponent.StartEdit | src/app/user/user.component.ts:128-132 | starts editing the field with the value |
| UserPage.UserComponent.CancelEdit | src/app/user/user.component.ts:149-153 | ends editing and clears the edit slot |
| UserPage.UserComponent.SaveEdit | src/app/user/user.component.ts:134-147 | without a user or field nothing happens; otherwise the user's field gets the edited value, the store replaces the active record with it and the edit state is cleared; only the user and edit fields may change |
| UserPage.UserComponent.DoCancel | src/app/user/user.component.ts:180-183 | the store cancels every order with the id of the first user with the session email that has an order list, then the page re-reads the active user; with no session key storage is untouched |
| Details.ToReviews | src/app/details/details.component.ts:50-55 | one review per order, each carrying the user's name and the order's rating, review and date |
| Details.UserReviewsMembership | src/app/details/details.component.ts:47-57 | a user's reviews are exactly those of the orders for the movie with a non-zero rating |
| Details.AllReviewsMembership | src/app/details/details.component.ts:38-63 | a review is collected iff some user wrote it for the movie |
| Details.SortNewestFirst | src/app/details/details.component.ts:60-61 | the reviews are ordered newest first and are a permutation of the collected ones |
| Details.SortNewestFirstStable | src/app/details/details.component.ts:60-61 | reviews with the same date keep their collected order |
| Details.CollectUserReviews | src/app/details/details.component.ts:46-57 | the inner loop pushes exactly the user's reviews of the movie, in order-list order; nothing for a user without orders |
| Details.CollectReviews | src/app/details/details.component.ts:43-59 | the loops collect exactly the reviews of every user, in user order |
| Details.InsertByDateStable | src/app/details/details.component.ts:60-61 | inserting a review keeps the relative order of the reviews of each date, the new one going first among its date |
| Details.DetailsComponent.LoadMovieReviews | src/app/details/details.component.ts:38-63 | without a movie nothing happens; otherwise the page shows the collected reviews, sorted newest first |
| Details.DetailsComponent.OnMovieLoaded | src/app/details/details.component.ts:29-36 | sets the movie from the reply and then loads its reviews |
| Signup.NewUser | src/app/signup/signup.component.ts:50-60 | the account carries the form's fields and an empty order list |
| Signup.FormAlert | src/app/signup/signup.component.ts:40-48 | 'required' iff email or password is empty; 'mismatch' iff both are set and the passwords differ; none otherwise |
| Signup.SignupComponent.DoSignup | src/app/signup/signup.component.ts:39-63 | a failed check leaves the store untouched; otherwise the store adds the account and the page goes to login iff it did, else warns that the email is taken |
| Home.InitialSlides | src/app/home/home.component.ts:41-46 | four slides, all videos |
| Home.NextPrevInverse | src/app/home/home.component.ts:262-270 | both arrows keep a valid index valid and undo each other |
| Home.NextTimesCycles | src/app/home/home.component.ts:267-270 | k presses of next show slide current + k, wrapping past the end; a full round returns |
| Home.NextPastTheEnd | src/app/home/home.component.ts:267-276 | an index set past the deck is moved further out by next, never wrapped |
| Home.AllVideosIndex | src/app/home/home.component.ts:187-200 | with only video slides, the slide's video is the element with the same index |
| Home.HomeComponent.PrevSlide | src/app/home/home.component.ts:262-265 | one back, wrapping from the first slide to the last |
| Home.HomeComponent.NextSlide | src/app/home/home.component.ts:267-270 | one on, wrapping from the last slide to the first |
| Home.HomeComponent.GoToSlide | src/app/home/home.component.ts:272-276 | takes the index as given; the change is handled iff it differs |
| Home.HomeComponent.PlayCurrentVideo | src/app/home/home.component.ts:187-226 | the video element is the number of video slides before the shown one; failure past the deck |
| TmdbImage.Transform | src/pipes/tmdb-image.pipe.ts:8-18 | the placeholder for a missing or empty path; a URL starting with "http" unchanged; otherwise the TMDB base joined to the path |
| TmdbImage.TransformNonEmptyIsHttp | src/pipes/tmdb-image.pipe.ts:8-18 | every URL made from a non-empty path starts with "http" |
| TmdbImage.TransformIdempotent | src/pipes/tmdb-image.pipe.ts:8-18 | for a non-empty path, applying the pipe twice is applying it once |
| TmdbImage.TransformPlaceholderNotFixed | src/pipes/tmdb-image.pipe.ts:9-17 | the placeholder is itself a relative path, so applying the pipe to it again prefixes it |
| Cinemas.AllCinemas | src/services/cinemas.service.ts:5-22 | two cinemas, ids 1 and 2, both in Belgrade, Serbia |
| Cinemas.Find | src/services/cinemas.service.ts:24-26 | the first cinema with the id, none iff none has it |
| Cinemas.CinemaById | src/services/cinemas.service.ts:24-26 | a found cinema is a listed one with that id; none iff no listed cinema has it |
| Cinemas.CinemaByIdFound | src/services/cinemas.service.ts:24-26 | the lookup finds a cinema exactly for ids 1 and 2 |
| Cinemas.CinemaIdsDistinct | src/services/cinemas.service.ts:5-26 | the ids are distinct, so each listed cinema is the lookup of its own id |
| Seqs.FilterMembership | src/app/movies/movies.component.ts:131-176 | an element survives a filter iff it was there and passes |
| Seqs.FilterAppend | src/app/details/details.component.ts:46-59 | filtering distributes over concatenation |
| Text.TrimEmptyIffBlank | src/app/movies/movies.component.ts:162-163 | trimming gives the empty text iff the text is all whitespace |
| Text.ContainsIffOccurs | src/app/movies/movies.component.ts:164-168 | `includes` holds iff the query occurs at some position |
| Text.IntToStringInjective | src/services/movie.service.ts:35-57 | different numbers print differently |

## Left out

- HTTP, the router, the clock, `crypto.randomUUID`, `Math.random`, timers, and the YouTube and HTML media APIs are outside the model. Their results are parameters: `now`, `respondedAt`, the reply, `orderId`, `newId`, `draws`, `available`, `currentYear`.
- Local storage and JSON: the stored list is a field, and the JSON round trip is taken to be the identity.
- Floating point: prices and ratings are exact. A movie rating is an integer in tenths (0 = absent).
- Unicode: lower-casing covers ASCII only, and `\s` means the ASCII whitespace characters.
- Concurrency and `async`: the awaits are sequential steps. The `Promise.all` in `loadFilters` is one combined result passed to `MoviesPage.MoviesComponent.LoadFilters`.
- Aliasing: `loadMovies` rates the very objects held in the cache; the model copies them.
- Aliasing in `submitReview`: the page's copy and the stored order are separate records, so sharing between them is not modelled.
- `MoviesPage.MoviesComponent.LoadMovies` and `ResetSearch` take the `getMovies` reply as a parameter rather than calling the movie service.
- Order dates: `startDate` is an ISO date string in the source (`toISOString()`, read back with `new Date(...)`); here it is an integer timestamp, so the reviews' newest-first order compares numbers rather than parsed dates.
- The UUID drawn when the demo user is seeded is the store's fixed `seedId`; the list is seeded at most once per store, since no operation removes the 'users' key.
- A reply body of the wrong kind (the source does not check it) is handled per page, not as the source's untyped assignment would: `MoviesPage.MoviesComponent.LoadFilters` reads it as an empty list; `MoviesPage.MoviesComponent.LoadMovies` keeps `allMovies`, `movies` and `ratingsGenerated` as they were, where the source stores the body and then throws in `forEach` or shows it; `Details.DetailsComponent.OnMovieLoaded` and `Booking.BookingSession.OnMovieReply` show no movie, and Details then loads no reviews, where the source stores the body and `loadMovieReviews` reads (and seeds) the user list and shows no reviews.
- Booking.BookingSession.OnMovieReply: the alert on a failed request is not modelled; leaving for home is its `leave` result.
- Catalog.SearchKey: JSON string escaping of the search text is not modelled; keys are built from the fields in order.
- `MovieService.searchMovies` is modelled, but no page calls it: the movies page filters on the client.
- UserPage.UserComponent.StartEdit: the field is one of the six editable profile fields rather than any string.
- Signup.SignupComponent: the genre list loaded by the constructor is not modelled.
- Home: the movie fetch in the constructor, `handleSlideChange`, pausing and playing media, and the YouTube player are browser work and are not modelled.
- Home.HomeComponent.PlayCurrentVideo: the `videoElements` non-empty guard is not modelled.
- The login page's timer and redirects, the about page, `utils.service.ts`, and the app's configuration and routes are not part of this model.
