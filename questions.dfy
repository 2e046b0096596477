/** `QuestionFactory` (QuestionFactory.swift): keeps the loaded movies and turns a
    movie and a question type into a yes/no question. */
module Questions {
  import opened Wrappers
  import opened Foundation
  import opened Errors
  import opened Text
  import opened Movies
  import opened Network
  import opened Loader

  /** `QuizQuestion` (QuizQuestion.swift). */
  datatype QuizQuestion = QuizQuestion(image: Data, text: string, correctAnswer: bool)

  /** `QuestionType`.  The rating thresholds are `Float`s in the source; every entry
      of the table is a whole number, so the model keeps the whole number and
      compares the rating with it as a real. */
  datatype QuestionType =
    | RatingHigherThan(value: int)
    | RatingLowerThan(value: int)
    | YearAfter(value: int)
    | YearBefore(value: int)

  /** `questionTypes`. */
  const QuestionTypes: seq<QuestionType> :=
    [RatingHigherThan(7), RatingHigherThan(8), RatingLowerThan(6), YearAfter(2010), YearBefore(2000)]

  /** The calls the factory makes on its delegate. */
  datatype FactoryEvent =
    | DidLoadDataFromServer
    | DidFailToLoadData(error: Error)
    | DidReceiveNextQuestion(question: QuizQuestion)

  const NoMoviesMessage: string := "Нет доступных фильмов."
  const NoMovieForQuestionMessage: string := "Нет доступных фильмов для вопроса"
  const QuestionFailedMessage: string := "Не удалось сгенерировать вопрос"

  /** The `NSError` built by `notifyError(message:)`. */
  function FactoryError(message: string): Error {
    Foreign("com.moviequiz", 0, message)
  }

  /** `"\(value)"` for a whole-number `Float`, such as `7.0`. */
  function FloatText(value: int): string {
    IntText(value) + ".0"
  }

  /** `Float(movie.rating) ?? 0`. */
  function Rating(movie: MostPopularMovie, parseFloat: string -> Option<Float>): Float {
    parseFloat(movie.rating).GetOr(Finite(0.0))
  }

  /** `Int(movie.year) ?? 0`. */
  function Year(movie: MostPopularMovie): int {
    ParseInt(movie.year).GetOr(0)
  }

  /** `createQuestion(for:type:)`: the question text and its correct answer; every
      comparison is strict. */
  function CreateQuestion(movie: MostPopularMovie, questionType: QuestionType, parseFloat: string -> Option<Float>)
    : (q: (string, bool))
    ensures questionType.RatingHigherThan? ==> q.1 == FloatGreater(Rating(movie, parseFloat), questionType.value as real)
    ensures questionType.RatingLowerThan? ==> q.1 == FloatLess(Rating(movie, parseFloat), questionType.value as real)
    ensures questionType.YearAfter? ==> q.1 == (Year(movie) > questionType.value)
    ensures questionType.YearBefore? ==> q.1 == (Year(movie) < questionType.value)
  {
    match questionType
    case RatingHigherThan(value) =>
      ("Рейтинг этого фильма больше чем " + FloatText(value) + "?", FloatGreater(Rating(movie, parseFloat), value as real))
    case RatingLowerThan(value) =>
      ("Рейтинг этого фильма меньше чем " + FloatText(value) + "?", FloatLess(Rating(movie, parseFloat), value as real))
    case YearAfter(year) =>
      ("Этот фильм выпущен после " + IntText(year) + " года?", Year(movie) > year)
    case YearBefore(year) =>
      ("Этот фильм выпущен до " + IntText(year) + " года?", Year(movie) < year)
  }

  /** For one threshold, "higher" and "lower" are never both true, and both are
      false exactly when the rating equals the threshold or is NaN; likewise for
      years, which have no NaN. */
  lemma OppositeQuestionsExclusive(movie: MostPopularMovie, threshold: int, parseFloat: string -> Option<Float>)
    ensures var higher := CreateQuestion(movie, RatingHigherThan(threshold), parseFloat).1;
            var lower := CreateQuestion(movie, RatingLowerThan(threshold), parseFloat).1;
            !(higher && lower) &&
            (!higher && !lower <==> Rating(movie, parseFloat) in {Finite(threshold as real), NaN})
    ensures var after := CreateQuestion(movie, YearAfter(threshold), parseFloat).1;
            var before := CreateQuestion(movie, YearBefore(threshold), parseFloat).1;
            !(after && before) && (!after && !before <==> Year(movie) == threshold)
  {
  }

  /** A year that does not parse counts as year 0, a rating that does not parse as 0. */
  lemma UnparsableCountsAsZero(movie: MostPopularMovie, threshold: int, parseFloat: string -> Option<Float>)
    ensures ParseInt(movie.year).None? ==>
              CreateQuestion(movie, YearAfter(threshold), parseFloat).1 == (0 > threshold) &&
              CreateQuestion(movie, YearBefore(threshold), parseFloat).1 == (0 < threshold)
    ensures parseFloat(movie.rating).None? ==>
              CreateQuestion(movie, RatingHigherThan(threshold), parseFloat).1 == (0 > threshold) &&
              CreateQuestion(movie, RatingLowerThan(threshold), parseFloat).1 == (0 < threshold)
  {
  }

  /** A year given in the canonical decimal form of a 64-bit integer is read as that year. */
  lemma YearOfCanonicalText(movie: MostPopularMovie, year: int)
    requires IntMin <= year <= IntMax && movie.year == IntText(year)
    ensures Year(movie) == year
  {
    ParseIntText(year);
  }

  /** `generateQuestion(for:)` with the question type chosen: the poster is
      downloaded from the resized URL, and a failed download gives no question. */
  function GenerateQuestion(movie: MostPopularMovie, questionType: QuestionType, platform: Platform): (q: Option<QuizQuestion>)
    ensures q.Some? <==> platform.download(ResizedImageURL(movie, platform.isValidURL)).Some?
    ensures q.Some? ==>
              && q.value.image == platform.download(ResizedImageURL(movie, platform.isValidURL)).value
              && (q.value.text, q.value.correctAnswer) == CreateQuestion(movie, questionType, platform.parseFloat)
  {
    var (text, correctAnswer) := CreateQuestion(movie, questionType, platform.parseFloat);
    match platform.download(ResizedImageURL(movie, platform.isValidURL))
    case Some(image) => Some(QuizQuestion(image, text, correctAnswer))
    case None => None
  }

  /** Whether `handleMoviesSuccess` takes a payload: no error message, some movies. */
  predicate Accepted(response: MostPopularMovies) {
    response.errorMessage == "" && response.items != []
  }

  /** The message `handleMoviesSuccess` reports for a payload it does not take. */
  function RejectionMessage(response: MostPopularMovies): string {
    if response.errorMessage == "" then NoMoviesMessage else response.errorMessage
  }

  class QuestionFactory {
    const moviesLoader: MoviesLoader
    /** The movies questions are drawn from. */
    var movies: seq<MostPopularMovie>

    constructor(moviesLoader: MoviesLoader)
      ensures this.moviesLoader == moviesLoader && movies == []
    {
      this.moviesLoader := moviesLoader;
      movies := [];
    }

    /** `handleMoviesSuccess`: a payload is accepted only with an empty error
        message and at least one movie; otherwise the movies are kept and an error
        is reported, carrying the payload's message or "no movies available". */
    method HandleMoviesSuccess(response: MostPopularMovies) returns (event: FactoryEvent)
      modifies this
      ensures Accepted(response) ==> movies == response.items && event == DidLoadDataFromServer
      ensures response.errorMessage != "" ==>
                movies == old(movies) && event == DidFailToLoadData(FactoryError(response.errorMessage))
      ensures response.errorMessage == "" && response.items == [] ==>
                movies == old(movies) && event == DidFailToLoadData(FactoryError(NoMoviesMessage))
    {
      if !Accepted(response) {
        event := DidFailToLoadData(FactoryError(RejectionMessage(response)));
        return;
      }
      movies := response.items;
      event := DidLoadDataFromServer;
    }

    /** `handleLoadMovies`: a failed load is passed to the delegate as it is. */
    method HandleLoadMovies(result: Result<MostPopularMovies, Error>) returns (event: FactoryEvent)
      modifies this
      ensures result.Failure? ==> movies == old(movies) && event == DidFailToLoadData(result.error)
      ensures result.Success? && Accepted(result.value) ==>
                movies == result.value.items && event == DidLoadDataFromServer
      ensures result.Success? && !Accepted(result.value) ==>
                movies == old(movies) && event == DidFailToLoadData(FactoryError(RejectionMessage(result.value)))
    {
      match result
      case Success(response) =>
        event := HandleMoviesSuccess(response);
      case Failure(error) =>
        event := DidFailToLoadData(error);
    }

    /** `loadData()`: load through the movies loader and hand the result on.  Since
        the loader already fails on an error message, the movies are replaced
        exactly when the load succeeds with at least one movie. */
    method LoadData(network: Completion, platform: Platform) returns (event: FactoryEvent)
      modifies this, moviesLoader.networkClient, moviesLoader.networkClient.currentTask
      ensures var loaded := HandleFetched(Classify(network), platform);
              if loaded.Success? && loaded.value.items != [] then
                movies == loaded.value.items && event == DidLoadDataFromServer
              else
                movies == old(movies)
      ensures var loaded := HandleFetched(Classify(network), platform);
              loaded.Failure? ==> event == DidFailToLoadData(loaded.error)
      ensures var loaded := HandleFetched(Classify(network), platform);
              loaded.Success? && loaded.value.items == [] ==> event == DidFailToLoadData(FactoryError(NoMoviesMessage))
      ensures old(moviesLoader.networkClient.currentTask) != null ==>
                old(moviesLoader.networkClient.currentTask).state == AfterCancel(old(moviesLoader.networkClient.currentTask.state))
      ensures moviesLoader.networkClient.currentTask != null && fresh(moviesLoader.networkClient.currentTask)
      ensures moviesLoader.networkClient.currentTask.request == URLRequest(MostPopularMoviesURL(platform.isValidURL), RequestTimeout)
      ensures moviesLoader.networkClient.currentTask.state == Completed
    {
      var result := moviesLoader.LoadMovies(network, platform);
      event := HandleLoadMovies(result);
    }

    /** `requestNextQuestion()`, with the random choices of movie and question type
        made by the caller.  No movies: an error and no question.  Otherwise the
        question for the chosen movie and type, or an error if the poster download
        fails. */
    method RequestNextQuestion(movieIndex: nat, typeIndex: nat, platform: Platform) returns (event: FactoryEvent)
      requires movies == [] || movieIndex < |movies|
      requires typeIndex < |QuestionTypes|
      ensures movies == [] ==> event == DidFailToLoadData(FactoryError(NoMovieForQuestionMessage))
      ensures event.DidReceiveNextQuestion? <==>
                movies != [] && GenerateQuestion(movies[movieIndex], QuestionTypes[typeIndex], platform).Some?
      ensures event.DidReceiveNextQuestion? ==>
                Some(event.question) == GenerateQuestion(movies[movieIndex], QuestionTypes[typeIndex], platform)
      ensures movies != [] && !event.DidReceiveNextQuestion? ==>
                event == DidFailToLoadData(FactoryError(QuestionFailedMessage))
    {
      if movies == [] {
        event := DidFailToLoadData(FactoryError(NoMovieForQuestionMessage));
        return;
      }
      var movie := movies[movieIndex];
      var question := GenerateQuestion(movie, QuestionTypes[typeIndex], platform);
      if question.None? {
        event := DidFailToLoadData(FactoryError(QuestionFailedMessage));
        return;
      }
      event := DidReceiveNextQuestion(question.value);
    }
  }
}
