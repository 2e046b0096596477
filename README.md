# MovieQuiz in Dafny

A model of the logic inside the MovieQuiz iOS app. The app is a ten-question yes/no
quiz about movies from a "top 250 movies" web API, and it keeps best-score statistics.
Seven pieces of its code are modelled, one Dafny module each:

- `Movies` (`MostPopularMovies.swift`): the two payload records. It covers the JSON keys
  they are decoded from and the poster-URL rewrite `resizedImageURL`.
- `GameResults` (`GameResult.swift`): a finished game's score and `isBetterThan`.
- `Statistics` (`StatisticService.swift`): a class over the `UserDefaults` key/value
  store. `store` updates the games count, the cumulative correct count and the best game.
- `Network` (`NetworkClient.swift`): the ordered guard chain of the data task's
  completion handler. It also has the `currentTask` slot that `fetch` and `cancel` manage.
- `Loader` (`MoviesLoader.swift`): decoding, the server-error check and `enrichError`.
- `Questions` (`QuestionFactory.swift`): accepting a payload, the question-type table,
  `createQuestion` and `requestNextQuestion`.
- `Presenter` (`MovieQuizPresenter.swift`): the question index state machine, the
  counter text, answer checking and the end-of-round step.

Shared modules:

- `Wrappers`: `Option` and `Result`.
- `Foundation`: `Data`, `Date`, a JSON value type, and the `Platform` record. That record
  holds the Foundation calls the model takes as given.
- `Errors`: Swift's `Error`, closed over the error types the app creates or meets.
- `Text`: `"\(n)"` and `Int(String)` for 64-bit `Int`.

Callbacks are modelled as direct calls. Whatever the code passes to a delegate, a
handler or the view controller is returned by the method instead.

Notes on the code as written:

- The test at `MovieQuizTests/MoviesLoaderTests.swift:196-222` expects a payload with
  `errorMessage` "API limit reached" to load successfully. `decodeMovies` reports it as
  `serverError` instead. The model follows the code; `Loader.ErrorMessageFails` shows
  the outcome for that payload.
- `correctAnswers` is never incremented anywhere in `MovieQuizPresenter`. The model keeps
  this: every presenter method leaves it unchanged, and the constructor sets it to 0. So
  a round played by a new presenter always stores a score of 0
  (`Presenter.FreshRoundStoresZero`).
- `QuestionFactoryDelegate.swift` declares only `didReceiveNextQuestion(question:)`, yet
  `QuestionFactory.swift` also calls `didLoadDataFromServer()` and `didFailToLoadData(with:)`
  on its delegate. `Questions.FactoryEvent` models all three calls.
- Behind the real `NetworkClient`, every failure is already a `NetworkClient.NetworkError`.
  So `enrichError` never produces `connectionError` (`Loader.ClientFailuresPassThrough`).
- The cancellation guard compares only the bridged error code with `NSURLErrorCancelled`,
  not the domain. The model does the same. Errors declared by the app itself are taken to
  bridge to their own type's domain with a non-negative code. So they are never taken for
  a cancellation or a URL-loading error.

## Model

| member | source | states |
|---|---|---|
| `Text.IntText` | MovieQuiz/Presentation/MovieQuizPresenter.swift:37 | `"\(n)"` is the canonical decimal form: an optional leading minus (present exactly for negatives), then decimal digits only, with no leading zero; it is `"0"` exactly for 0 |
| `Text.ParseInt` | MovieQuiz/Services/QuestionFactory.swift:133 | `Int(s)` yields only values in the 64-bit range, and only for a digit or a sign followed by at least one digit; any later non-digit gives nil; the value is the digits' value, negated after `-`; every digit string whose value fits is accepted |
| `Text.ParseIntText` | MovieQuiz/Services/QuestionFactory.swift:133 | parsing the text of any 64-bit integer gives that integer back |
| `Movies.FirstComponent` | MovieQuiz/Models/MostPopularMovies.swift:23 | `components(separatedBy: "._")[0]` is a prefix of the string with no `"._"` starting inside it; it ends at the first `"._"`, or it is the whole string when there is none |
| `Movies.FirstComponentUnique` | MovieQuiz/Models/MostPopularMovies.swift:23 | any prefix that ends right before the first `"._"` (or is the whole separator-free string) is the first component |
| `Movies.ResizedImageURL` | MovieQuiz/Models/MostPopularMovies.swift:21-29 | the rewritten string when `URL(string:)` accepts it, the original `imageURL` unchanged otherwise |
| `Movies.ResizedURLShape` | MovieQuiz/Models/MostPopularMovies.swift:22-23 | the rewritten string is a prefix of the URL up to its first `"._"`, followed by `"._V0_UX600_.jpg"` |
| `Movies.ResizedURLWithoutSeparator` | MovieQuiz/Models/MostPopularMovies.swift:23 | without `"._"` the whole URL is kept and the suffix appended |
| `Movies.ResizedURLIdempotent` | MovieQuiz/Models/MostPopularMovies.swift:23 | rewriting an already rewritten string gives the same string |
| `Movies.ResizedImageURLIdempotent` | MovieQuiz/Models/MostPopularMovies.swift:21-29 | resizing a movie whose URL was already resized gives the same URL, whether or not the rewrite was accepted |
| `Movies.DecodeMovie` | MovieQuiz/Models/MostPopularMovies.swift:15-19 | a movie decodes exactly when `fullTitle`, `imDbRating`, `year` and `image` are all strings and the image is a valid URL; `title`←`fullTitle`, `rating`←`imDbRating`, `year`←`year`, `imageURL`←`image` |
| `Movies.DecodeItems` | MovieQuiz/Models/MostPopularMovies.swift:12 | the item list decodes element by element in order; one undecodable element rejects the whole list |
| `Movies.Decode` | MovieQuiz/Models/MostPopularMovies.swift:10-13 | a payload decodes exactly when it is an object with a string `errorMessage` and an array `items` whose every element decodes; the message and the decoded items are carried over |
| `Movies.DecodeIgnoresOtherKeys` | MovieQuiz/Models/MostPopularMovies.swift:10-13 | adding or changing any key other than `errorMessage` and `items` never changes the decoded payload |
| `Movies.DecodeItemsRoundTrip` | MovieQuiz/Models/MostPopularMovies.swift:31-36 | a list of movies with valid URLs decodes back from its JSON form under the coding keys |
| `Movies.DecodeRoundTrip` | MovieQuiz/Models/MostPopularMovies.swift:10-36 | a payload with valid URLs decodes back from its JSON form: the mapping loses and invents nothing |
| `Movies.DecodesPreyFixture` | MovieQuizTests/MoviesLoaderTests.swift:28-47 | the test fixture decodes to one movie titled "Prey (2022)" (from `fullTitle`, not `title`), rated "7.2", year "2022" |
| `Movies.RejectsIncompleteFixture` | MovieQuizTests/MoviesLoaderTests.swift:147-164 | an item lacking `fullTitle`/`imDbRating`/`image` is rejected, and so is a payload lacking `errorMessage` |
| `GameResults.IsBetterThan` | MovieQuiz/Models/GameResult.swift:15-17 | a game with the same number of correct answers is never better |
| `GameResults.IsBetterThanIsStrictOrder` | MovieQuiz/Models/GameResult.swift:15-17 | `isBetterThan` is irreflexive, asymmetric and transitive |
| `GameResults.IsBetterThanIgnoresTotalAndDate` | MovieQuiz/Models/GameResult.swift:15-17 | `total` and `date` never affect the comparison |
| `Statistics.AfterStore` | MovieQuiz/Services/StatisticService.swift:55-62 | after `store`: games count +1, correct count + `count`, best game replaced by the new game exactly when strictly better, otherwise unchanged; no key outside the service's five is touched |
| `Statistics.ReadBestGame` | MovieQuiz/Services/StatisticService.swift:37-42 | a missing correct count or total reads as 0 and a missing date as "now"; an empty store gives `(0, 0, now)` |
| `Statistics.WriteBestGame` | MovieQuiz/Services/StatisticService.swift:43-47 | after the three writes the getter returns the written game, date included, at any time; only the three best-game keys change |
| `Statistics.ReplayTotals` | MovieQuiz/Services/StatisticService.swift:55-62 | after any series of games the games count grew by their number and the correct count by the sum of their scores |
| `Statistics.ReplayBest` | MovieQuiz/Services/StatisticService.swift:56-59 | after any series of games the best score is the maximum of the old best and the new scores; if a new score beat the old best, the stored best is the first game that reached the maximum (ties keep the earlier game) |
| `Statistics.StatisticService.constructor` | MovieQuiz/Services/StatisticService.swift:12 | the service starts over the given contents of the store |
| `Statistics.StatisticService.Correct` | MovieQuiz/Services/StatisticService.swift:14-17 | the number stored under `"correctAnswers"`, 0 when none is stored |
| `Statistics.StatisticService.GamesCount` | MovieQuiz/Services/StatisticService.swift:27-30 | the number stored under `"gamesCount"`, 0 when none is stored |
| `Statistics.StatisticService.BestGame` | MovieQuiz/Services/StatisticService.swift:37-42 | an empty store gives `(0, 0, now)`; the date is the stored one, or "now" when none is stored |
| `Statistics.StatisticService.TotalAccuracy` | MovieQuiz/Services/StatisticService.swift:50-53 | 0 when no game was played, otherwise correct × 100 / (games × 10) |
| `Statistics.StatisticService.SetCorrect` | MovieQuiz/Services/StatisticService.swift:18-20 | the setter writes the count under `"correctAnswers"` |
| `Statistics.StatisticService.SetGamesCount` | MovieQuiz/Services/StatisticService.swift:31-33 | the setter writes under `"gamesCount"` |
| `Statistics.StatisticService.SetBestGame` | MovieQuiz/Services/StatisticService.swift:43-47 | after the setter the getter returns the written game at any time |
| `Statistics.StatisticService.Store` | MovieQuiz/Services/StatisticService.swift:55-62 | games count +1, correct + `count`, best correct becomes the larger of the two, a tie or lower score leaves the best game unchanged, a replacement takes `amount` as total |
| `Network.Classify` | MovieQuiz/Services/NetworkClient.swift:59-112 | cancellation first, then any other error as `requestFailed`, a non-HTTP response as `invalidResponse`, a non-2xx status as `codeError` with that status, no data as `invalidData`; success exactly when all pass, carrying the received data; every failure is a client error |
| `Network.ErrorDecidesAlone` | MovieQuiz/Services/NetworkClient.swift:63-78 | when an error is reported, the data and response do not affect the outcome |
| `Network.MissingDataIsInvalidData` | MovieQuiz/Services/NetworkClient.swift:100-106 | a 2xx response without data and without error is `invalidData` |
| `Network.SessionTask.constructor` | MovieQuiz/Services/NetworkClient.swift:59 | a new data task is suspended and holds its request |
| `Network.SessionTask.Resume` | MovieQuiz/Services/NetworkClient.swift:114 | resuming starts a suspended task |
| `Network.SessionTask.Cancel` | MovieQuiz/Services/NetworkClient.swift:118 | cancelling affects only an unfinished task |
| `Network.SessionTask.Finish` | MovieQuiz/Services/NetworkClient.swift:59-112 | the handler runs once per task; a cancelled task reports `cancelled`, a running one the classification of what the network produced |
| `Network.NetworkClient.constructor` | MovieQuiz/Services/NetworkClient.swift:44-49 | no current task at first |
| `Network.NetworkClient.Cancel` | MovieQuiz/Services/NetworkClient.swift:117-120 | the current task, if any, is cancelled, and `currentTask` becomes nil |
| `Network.NetworkClient.Fetch` | MovieQuiz/Services/NetworkClient.swift:52-115 | the previous task is cancelled before a fresh, running task for the URL with a 30-second timeout becomes `currentTask` |
| `Network.SupersededRequestIsCancelled` | MovieQuiz/Services/NetworkClient.swift:54 | a request superseded by another `fetch` before it finished reports `cancelled` |
| `Loader.MostPopularMoviesURL` | MovieQuiz/Services/MoviesLoader.swift:34-41 | the request URL is the top-250 path and the API key, or the fallback URL exactly when that does not parse |
| `Loader.IsNotEmpty` | MovieQuiz/Services/MoviesLoader.swift:101-105 | `isNotEmpty` holds exactly for a nonempty string |
| `Loader.DecodeMovies` | MovieQuiz/Services/MoviesLoader.swift:72-82 | a decoding failure is a failure; a nonempty `errorMessage` is `serverError` with that message; otherwise success with the same payload, even with no items |
| `Loader.EnrichError` | MovieQuiz/Services/MoviesLoader.swift:84-90 | an `NSURLErrorDomain` error is wrapped as `connectionError`; any other error passes unchanged |
| `Loader.HandleFetched` | MovieQuiz/Services/MoviesLoader.swift:52-59 | a transport failure is a failure (enriched), never a success; a success is always a fetched, decoded payload with an empty error message |
| `Loader.ClientFailuresPassThrough` | MovieQuiz/Services/MoviesLoader.swift:56-57 | behind the real client, every failure reaches the handler unchanged and is never a loader error |
| `Loader.StubErrorPassesThrough` | MovieQuizTests/MoviesLoaderTests.swift:92-112 | the stub's test error reaches the handler unchanged |
| `Loader.EmptyItemsSucceed` | MovieQuizTests/MoviesLoaderTests.swift:168-194 | an empty error message with no items loads successfully with no items |
| `Loader.ErrorMessageFails` | MovieQuiz/Services/MoviesLoader.swift:75-76 | the payload of the test at MoviesLoaderTests.swift:196-222 fails with `serverError("API limit reached")` |
| `Loader.MoviesLoader.constructor` | MovieQuiz/Services/MoviesLoader.swift:21-25 | the loader keeps the given network client |
| `Loader.MoviesLoader.LoadMovies` | MovieQuiz/Services/MoviesLoader.swift:48-65 | the client's previous task is cancelled, a new request to the top-250 URL is made, and its classified result is decoded as `HandleFetched` says |
| `Loader.MoviesLoader.Cancel` | MovieQuiz/Services/MoviesLoader.swift:67-69 | cancels and clears the client's current task |
| `Questions.CreateQuestion` | MovieQuiz/Services/QuestionFactory.swift:122-140 | `ratingHigherThan(t)` answers rating > t, `ratingLowerThan(t)` rating < t, `yearAfter(t)` year > t, `yearBefore(t)` year < t, with unparsable values read as 0; a NaN rating answers "no" to both rating questions, an infinite one compares by its sign |
| `Questions.OppositeQuestionsExclusive` | MovieQuiz/Services/QuestionFactory.swift:124-138 | for one threshold "higher" and "lower" (and "after" and "before") are never both true; both are false exactly at equality, or, for ratings, when the rating is NaN |
| `Questions.UnparsableCountsAsZero` | MovieQuiz/Services/QuestionFactory.swift:125-137 | an unparsable year or rating is compared as 0 |
| `Questions.YearOfCanonicalText` | MovieQuiz/Services/QuestionFactory.swift:133 | a year written in canonical decimal form is read as that year |
| `Questions.GenerateQuestion` | MovieQuiz/Services/QuestionFactory.swift:105-120 | a question exists exactly when the resized poster downloads; its image is that download and its text and answer are `createQuestion`'s |
| `Questions.QuestionFactory.constructor` | MovieQuiz/Services/QuestionFactory.swift:17-40 | a new factory has no movies |
| `Questions.QuestionFactory.HandleMoviesSuccess` | MovieQuiz/Services/QuestionFactory.swift:81-92 | items replace `movies` only with an empty error message and at least one item; otherwise `movies` is kept and the error carries the payload's message, or "Нет доступных фильмов." when it is empty |
| `Questions.QuestionFactory.HandleLoadMovies` | MovieQuiz/Services/QuestionFactory.swift:70-79 | a failed load is passed on unchanged; a successful one is taken when its message is empty and it has movies, and otherwise reported with its message, or "Нет доступных фильмов." when that is empty |
| `Questions.QuestionFactory.LoadData` | MovieQuiz/Services/QuestionFactory.swift:43-47 | `movies` is replaced exactly when the load succeeds with at least one movie; a failed load's error is reported unchanged, and a successful load without movies reports "Нет доступных фильмов."; the loader's previous request is cancelled and a fresh, completed task for the top-250 URL with a 30-second timeout becomes current |
| `Questions.QuestionFactory.RequestNextQuestion` | MovieQuiz/Services/QuestionFactory.swift:49-67 | with no movies an error and no question; otherwise exactly the question `generateQuestion` builds for the chosen movie and one of the five table entries (poster, text and answer), or an error when it cannot be generated |
| `Presenter.CounterText` | MovieQuiz/Presentation/MovieQuizPresenter.swift:37 | the counter text reads back as exactly (index + 1, 10) |
| `Presenter.NextIndex` | MovieQuiz/Presentation/MovieQuizPresenter.swift:74-90 | one call moves the index forward by one, except on the last question, where it stays; an index within 0..9 stays within 0..9 |
| `Presenter.FirstCounter` | MovieQuizTests/MovieQuizPresenterTests.swift:65 | at index 0 the counter is "1/10" |
| `Presenter.SessionProgress` | MovieQuiz/Presentation/MovieQuizPresenter.swift:20-30 | from 0 and driven only by `showNextQuestionOrResults`, the index climbs to 9 and stays, always within 0..9, and the last question is reached exactly from the ninth call on |
| `Presenter.MovieQuizPresenter.IsLastQuestion` | MovieQuiz/Presentation/MovieQuizPresenter.swift:20-22 | the last question is exactly the one whose counter reads back as 10/10 |
| `Presenter.MovieQuizPresenter.constructor` | MovieQuiz/Presentation/MovieQuizPresenter.swift:12-18 | a fresh presenter is at index 0, with no question and no correct answers |
| `Presenter.MovieQuizPresenter.ResetQuestionIndex` | MovieQuiz/Presentation/MovieQuizPresenter.swift:24-26 | the index becomes 0, nothing else changes |
| `Presenter.MovieQuizPresenter.SwitchToNextQuestion` | MovieQuiz/Presentation/MovieQuizPresenter.swift:28-30 | the index grows by 1, nothing else changes |
| `Presenter.MovieQuizPresenter.Convert` | MovieQuiz/Presentation/MovieQuizPresenter.swift:33-38 | the step shows the question's image and text and a counter reading back as (index + 1)/10 |
| `Presenter.MovieQuizPresenter.DidAnswer` | MovieQuiz/Presentation/MovieQuizPresenter.swift:49-57 | no verdict without a current question; otherwise correct exactly when the given answer equals the correct answer |
| `Presenter.MovieQuizPresenter.YesButtonClicked` | MovieQuiz/Presentation/MovieQuizPresenter.swift:41-43 | "yes" is right exactly when the correct answer is true |
| `Presenter.MovieQuizPresenter.NoButtonClicked` | MovieQuiz/Presentation/MovieQuizPresenter.swift:45-47 | "no" is right exactly when the correct answer is false |
| `Presenter.MovieQuizPresenter.DidReceiveNextQuestion` | MovieQuiz/Presentation/MovieQuizPresenter.swift:60-71 | nil changes nothing; a question becomes current and is shown converted |
| `Presenter.MovieQuizPresenter.ShowNextQuestionOrResults` | MovieQuiz/Presentation/MovieQuizPresenter.swift:74-90 | on the last question `(correctAnswers, 10)` is stored, the results are shown and the index stays; otherwise the index grows by 1 and the factory's `requestNextQuestion` answers: the "no movies" error when it has none, else exactly the question `generateQuestion` builds for the chosen movie and type, or the "could not generate" error; the index stays within 0..9 and the factory's movies are unchanged |
| `Presenter.PlayRound` | MovieQuiz/Presentation/MovieQuizPresenter.swift:74-90 | from index 0 the first nine calls each request a question (an event exactly when there is a factory, the "no movies" error when it has none) and the tenth shows the results, storing the score the presenter had before the round out of 10; the score, the current question, the factory and its movies are left unchanged and the index ends on the last question |
| `Presenter.FreshRoundStoresZero` | MovieQuiz/Presentation/MovieQuizPresenter.swift:16 | a round played by a new presenter stores `(0, 10)` and shows "0/10", because `correctAnswers` starts at 0 and is never increased |

## Left out

- UI: the view controller, alert presenter, `UIImage`, border and alpha styling. Calls
  the presenter makes on the view controller become returned values.
- Threading: `DispatchQueue` hops and `[weak self]` guards. Every callback runs at once
  and every delegate is assumed present.
- Debug logging in `NetworkClient` and the `assertionFailure` in `mostPopularMoviesUrl`.
- `MoviesLoader`'s `deinit` cancel, since object lifetime is not modelled.
- JSON lexing is a given function (`Platform.parseJson`). `convertFromSnakeCase` is not
  modelled: keys are matched as written, which is the same for keys without underscores.
- `URL(string:)`, `Float(String)` and `Data(contentsOf:)` are given functions. A URL is
  its `absoluteString`.
- Randomness: `randomElement()` becomes indices the caller chooses.
- Questions.CreateQuestion: a finite `Float` is kept as an exact real. The rounding of
  `Float(String)` to single precision is not modelled, so a rating text is compared with
  the threshold at full precision.
- Questions.CreateQuestion: the rating thresholds are whole numbers, as every entry of
  the table is. So the text of a non-whole `Float` threshold is not modelled.
- Statistics.StatisticService.TotalAccuracy: computed in exact real arithmetic, not
  `Double` rounding. `getStatisticsText` is not modelled, because it formats floating
  point and uses a date extension that is not part of this model.
- Statistics.StatisticService.Store: counters are unbounded integers. Swift's overflow
  trap on `+=` is not modelled, and neither is `UserDefaults` turning stored strings into
  numbers (the service only stores numbers and dates).
- Presenter.MovieQuizPresenter.SwitchToNextQuestion: the index is an unbounded integer.
  The overflow trap is not modelled.
- Presenter.MovieQuizPresenter.constructor: it takes the factory and the statistics
  service. The `MovieQuizPresenter(viewController:)` initialiser the view controller calls
  is not part of this model.
- Loader.MoviesLoader.LoadMovies: it runs over the real `NetworkClient` only. Any other
  `NetworkRouting` is covered by `HandleFetched`, which takes any fetch result.
- A task's asynchronous completion is modelled as a separate `Finish` call.
  `LoadMovies` calls it at once; `SupersededRequestIsCancelled` shows a delivery that
  comes after a second `fetch`.
