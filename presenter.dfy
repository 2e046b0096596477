/** `MovieQuizPresenter` (MovieQuizPresenter.swift): the position in a ten-question
    round, the question on screen, answer checking and the end-of-round step. */
module Presenter {
  import opened Wrappers
  import opened Foundation
  import opened Text
  import opened GameResults
  import opened Statistics
  import opened Questions

  /** `questionsAmount`. */
  const QuestionsAmount: int := 10

  /** `QuizStepViewModel`; the `UIImage` is kept as the bytes it is made from. */
  datatype QuizStepViewModel = QuizStepViewModel(image: Data, question: string, questionNumber: string)

  /** `QuizResultsViewModel`. */
  datatype QuizResultsViewModel = QuizResultsViewModel(title: string, text: string, buttonText: string)

  /** Where `showNextQuestionOrResults` leads: the results alert, or the next
      question requested from the factory (no event when there is no factory). */
  datatype NextStep =
    | ShowResults(results: QuizResultsViewModel)
    | RequestedQuestion(event: Option<FactoryEvent>)

  /** The counter `"\(index + 1)/\(questionsAmount)"`.  It names the question's
      position, counted from 1, and the number of questions: reading it back gives
      exactly these two numbers. */
  function CounterText(index: int): (text: string)
    ensures IntMin <= index + 1 <= IntMax ==> ParseCounter(text) == Some((index + 1, QuestionsAmount))
  {
    FractionReadsBack(index + 1, QuestionsAmount);
    IntText(index + 1) + "/" + IntText(QuestionsAmount)
  }

  /** Two 64-bit integers written as `"a/b"` read back as the same two integers. */
  lemma FractionReadsBack(a: int, b: int)
    ensures IntMin <= a <= IntMax && IntMin <= b <= IntMax ==>
              ParseCounter(IntText(a) + "/" + IntText(b)) == Some((a, b))
  {
    if IntMin <= a <= IntMax && IntMin <= b <= IntMax {
      var first := IntText(a);
      var second := IntText(b);
      var text := first + "/" + second;
      assert '/' !in first;
      IndexOfFirstOccurrence(first, '/', second);
      assert text[..|first|] == first;
      assert text[|first| + 1..] == second;
      ParseIntText(a);
      ParseIntText(b);
    }
  }

  /** The alert shown at the end of a round with `correct` right answers. */
  function ResultsViewModel(correct: int): QuizResultsViewModel {
    QuizResultsViewModel(
      "Этот раунд окончен!",
      "Вы ответили правильно на " + IntText(correct) + "/" + IntText(QuestionsAmount) + " вопросов",
      "Сыграть ещё раз")
  }

  /** The position of the first `c` in `s`. */
  function IndexOf(s: string, c: char): (r: Option<nat>)
    ensures r.Some? ==> r.value < |s| && s[r.value] == c && c !in s[..r.value]
    ensures r.None? ==> c !in s
  {
    if s == [] then None
    else if s[0] == c then Some(0)
    else
      match IndexOf(s[1..], c)
      case Some(i) => assert s[..i + 1] == [s[0]] + s[1..][..i]; Some(i + 1)
      case None => None
  }

  /** Reads a counter back: the two integers on either side of its first `/`. */
  function ParseCounter(text: string): Option<(int, int)> {
    match IndexOf(text, '/')
    case None => None
    case Some(i) =>
      match (ParseInt(text[..i]), ParseInt(text[i + 1..]))
      case (Some(position), Some(amount)) => Some((position, amount))
      case _ => None
  }

  /** A character that does not occur before a first occurrence is found there. */
  lemma {:induction false} IndexOfFirstOccurrence(before: string, c: char, after: string)
    requires c !in before
    ensures IndexOf(before + [c] + after, c) == Some(|before|)
  {
    if before != [] {
      assert (before + [c] + after)[1..] == before[1..] + [c] + after;
      IndexOfFirstOccurrence(before[1..], c, after);
    }
  }

  /** A fresh presenter shows the counter "1/10" (MovieQuizPresenterTests.swift:65). */
  lemma FirstCounter()
    ensures CounterText(0) == "1/10"
  {
    assert NatText(1) == "1";
    assert NatText(10) == NatText(1) + "0";
  }

  /** The index after one `showNextQuestionOrResults`: one step forward, except on
      the last question, where it stays; it never leaves `0..questionsAmount-1`. */
  function NextIndex(index: int): (next: int)
    ensures 0 <= index < QuestionsAmount ==> 0 <= next < QuestionsAmount
    ensures next == index <==> index == QuestionsAmount - 1
    ensures next != index ==> next == index + 1
  {
    if index == QuestionsAmount - 1 then index else index + 1
  }

  /** The index after `steps` calls of `showNextQuestionOrResults` from a fresh presenter. */
  function IndexAfter(steps: nat): int {
    if steps == 0 then 0 else NextIndex(IndexAfter(steps - 1))
  }

  /** Driven only by `showNextQuestionOrResults`, the index climbs one by one to the
      last question and stays there, never leaving `0..questionsAmount-1`; the round
      ends (the results are shown) on the tenth call and on every call after it. */
  lemma {:induction false} SessionProgress(steps: nat)
    ensures IndexAfter(steps) == if steps < QuestionsAmount - 1 then steps else QuestionsAmount - 1
    ensures 0 <= IndexAfter(steps) < QuestionsAmount
    ensures IndexAfter(steps) == QuestionsAmount - 1 <==> steps >= QuestionsAmount - 1
  {
    if steps > 0 {
      SessionProgress(steps - 1);
    }
  }

  class MovieQuizPresenter {
    var currentQuestionIndex: int
    var currentQuestion: Option<QuizQuestion>
    /** Never incremented by any method of the presenter. */
    var correctAnswers: int
    var questionFactory: QuestionFactory?
    var statisticService: StatisticService

    /** A fresh presenter: first question, nothing shown, no correct answers. */
    constructor(questionFactory: QuestionFactory?, statisticService: StatisticService)
      ensures currentQuestionIndex == 0 && currentQuestion == None && correctAnswers == 0
      ensures this.questionFactory == questionFactory && this.statisticService == statisticService
    {
      currentQuestionIndex := 0;
      currentQuestion := None;
      correctAnswers := 0;
      this.questionFactory := questionFactory;
      this.statisticService := statisticService;
    }

    /** `isLastQuestion()`: the question whose counter reads "10/10". */
    predicate IsLastQuestion()
      reads this
      ensures IntMin <= currentQuestionIndex + 1 <= IntMax ==>
                (IsLastQuestion() <==> ParseCounter(CounterText(currentQuestionIndex)) == Some((QuestionsAmount, QuestionsAmount)))
    {
      currentQuestionIndex == QuestionsAmount - 1
    }

    /** `resetQuestionIndex()`. */
    method ResetQuestionIndex()
      modifies this
      ensures currentQuestionIndex == 0
      ensures currentQuestion == old(currentQuestion) && correctAnswers == old(correctAnswers)
      ensures questionFactory == old(questionFactory) && statisticService == old(statisticService)
    {
      currentQuestionIndex := 0;
    }

    /** `switchToNextQuestion()`. */
    method SwitchToNextQuestion()
      modifies this
      ensures currentQuestionIndex == old(currentQuestionIndex) + 1
      ensures currentQuestion == old(currentQuestion) && correctAnswers == old(correctAnswers)
      ensures questionFactory == old(questionFactory) && statisticService == old(statisticService)
    {
      currentQuestionIndex := currentQuestionIndex + 1;
    }

    /** `convert(model:)`: the question's image and text, and a counter that reads
        back as the current position (from 1) out of ten. */
    function Convert(model: QuizQuestion): (step: QuizStepViewModel)
      reads this
      ensures step.image == model.image && step.question == model.text
      ensures IntMin <= currentQuestionIndex + 1 <= IntMax ==>
                ParseCounter(step.questionNumber) == Some((currentQuestionIndex + 1, QuestionsAmount))
    {
      QuizStepViewModel(model.image, model.text, CounterText(currentQuestionIndex))
    }

    /** `didAnswer(isYes:)`, with the `showAnswerResult(isCorrect:)` argument
        returned: nothing without a current question. */
    method DidAnswer(isYes: bool) returns (isCorrect: Option<bool>)
      ensures currentQuestion.None? ==> isCorrect.None?
      ensures currentQuestion.Some? ==> isCorrect == Some(isYes == currentQuestion.value.correctAnswer)
    {
      if currentQuestion.None? {
        return None;
      }
      var givenAnswer := isYes;
      isCorrect := Some(givenAnswer == currentQuestion.value.correctAnswer);
    }

    /** `yesButtonClicked()`: right exactly when the correct answer is "yes". */
    method YesButtonClicked() returns (isCorrect: Option<bool>)
      ensures currentQuestion.Some? ==> isCorrect == Some(currentQuestion.value.correctAnswer)
      ensures currentQuestion.None? ==> isCorrect.None?
    {
      isCorrect := DidAnswer(true);
    }

    /** `noButtonClicked()`: right exactly when the correct answer is "no". */
    method NoButtonClicked() returns (isCorrect: Option<bool>)
      ensures currentQuestion.Some? ==> isCorrect == Some(!currentQuestion.value.correctAnswer)
      ensures currentQuestion.None? ==> isCorrect.None?
    {
      isCorrect := DidAnswer(false);
    }

    /** `didReceiveNextQuestion(question:)`, with the view model passed to `show(quiz:)`
        returned: a missing question changes nothing. */
    method DidReceiveNextQuestion(question: Option<QuizQuestion>) returns (shown: Option<QuizStepViewModel>)
      modifies this
      ensures question.None? ==> currentQuestion == old(currentQuestion) && shown.None?
      ensures question.Some? ==> currentQuestion == question && shown == Some(Convert(question.value))
      ensures currentQuestionIndex == old(currentQuestionIndex) && correctAnswers == old(correctAnswers)
      ensures questionFactory == old(questionFactory) && statisticService == old(statisticService)
    {
      if question.None? {
        return None;
      }
      currentQuestion := question;
      var viewModel := Convert(question.value);
      shown := Some(viewModel);
    }

    /** `showNextQuestionOrResults()`.  On the last question: the score is stored as
        `(correctAnswers, questionsAmount)` at time `now`, the results are shown and
        the index stays.  Otherwise: the index advances by one and the factory, if
        any, is asked for a question with the given random choices. */
    method ShowNextQuestionOrResults(movieIndex: nat, typeIndex: nat, platform: Platform, now: Date)
      returns (step: NextStep)
      requires questionFactory != null ==> questionFactory.movies == [] || movieIndex < |questionFactory.movies|
      requires typeIndex < |QuestionTypes|
      modifies this, statisticService
      ensures currentQuestion == old(currentQuestion) && correctAnswers == old(correctAnswers)
      ensures questionFactory == old(questionFactory) && statisticService == old(statisticService)
      ensures questionFactory != null ==> questionFactory.movies == old(questionFactory.movies)
      ensures currentQuestionIndex == NextIndex(old(currentQuestionIndex))
      ensures 0 <= old(currentQuestionIndex) < QuestionsAmount ==> 0 <= currentQuestionIndex < QuestionsAmount
      ensures step.ShowResults? <==> old(IsLastQuestion())
      ensures old(IsLastQuestion()) ==>
                && statisticService.storage == AfterStore(old(statisticService.storage), GameResult(correctAnswers, QuestionsAmount, now))
                && step.results == ResultsViewModel(correctAnswers)
      ensures !old(IsLastQuestion()) ==>
                && statisticService.storage == old(statisticService.storage)
                && step.event.Some? == (questionFactory != null)
      ensures !old(IsLastQuestion()) && questionFactory != null && questionFactory.movies == [] ==>
                step.event == Some(DidFailToLoadData(FactoryError(NoMovieForQuestionMessage)))
      ensures !old(IsLastQuestion()) && questionFactory != null ==>
                (step.event.value.DidReceiveNextQuestion? <==>
                  questionFactory.movies != [] &&
                  GenerateQuestion(questionFactory.movies[movieIndex], QuestionTypes[typeIndex], platform).Some?)
      ensures !old(IsLastQuestion()) && questionFactory != null && step.event.value.DidReceiveNextQuestion? ==>
                Some(step.event.value.question) ==
                  GenerateQuestion(questionFactory.movies[movieIndex], QuestionTypes[typeIndex], platform)
      ensures !old(IsLastQuestion()) && questionFactory != null && questionFactory.movies != [] &&
              !step.event.value.DidReceiveNextQuestion? ==>
                step.event == Some(DidFailToLoadData(FactoryError(QuestionFailedMessage)))
    {
      if IsLastQuestion() {
        statisticService.Store(correctAnswers, QuestionsAmount, now);
        step := ShowResults(ResultsViewModel(correctAnswers));
      } else {
        SwitchToNextQuestion();
        if questionFactory != null {
          var event := questionFactory.RequestNextQuestion(movieIndex, typeIndex, platform);
          step := RequestedQuestion(Some(event));
        } else {
          step := RequestedQuestion(None);
        }
      }
    }
  }

  /** Whether `factory` exists and holds no movies. */
  predicate NoMovies(factory: QuestionFactory?)
    reads factory
  {
    factory != null && factory.movies == []
  }

  /** A step of `showNextQuestionOrResults` that requested a question: an event comes
      back exactly when there is a factory, and a factory without movies reports
      that no movie is available. */
  predicate IsRequestStep(step: NextStep, hasFactory: bool, noMovies: bool) {
    && step.RequestedQuestion?
    && step.event.Some? == hasFactory
    && (noMovies ==> step.event == Some(DidFailToLoadData(FactoryError(NoMovieForQuestionMessage))))
  }

  /** A round played from the first question: the first nine calls of
      `showNextQuestionOrResults` each request a question, the tenth shows the
      results, and the score stored is the presenter's `correctAnswers` out of ten,
      which the round leaves as it was. */
  method PlayRound(presenter: MovieQuizPresenter, platform: Platform, now: Date) returns (steps: seq<NextStep>)
    requires presenter.currentQuestionIndex == 0
    modifies presenter, presenter.statisticService
    ensures |steps| == QuestionsAmount
    ensures forall i :: 0 <= i < QuestionsAmount - 1 ==>
              IsRequestStep(steps[i], old(presenter.questionFactory) != null, old(NoMovies(presenter.questionFactory)))
    ensures steps[QuestionsAmount - 1] == ShowResults(ResultsViewModel(old(presenter.correctAnswers)))
    ensures presenter.statisticService == old(presenter.statisticService)
    ensures presenter.statisticService.storage ==
              AfterStore(old(presenter.statisticService.storage), GameResult(old(presenter.correctAnswers), QuestionsAmount, now))
    ensures presenter.correctAnswers == old(presenter.correctAnswers)
    ensures presenter.currentQuestionIndex == QuestionsAmount - 1
    ensures presenter.currentQuestion == old(presenter.currentQuestion)
    ensures presenter.questionFactory == old(presenter.questionFactory)
    ensures presenter.questionFactory != null ==> presenter.questionFactory.movies == old(presenter.questionFactory.movies)
  {
    steps := [];
    var service := presenter.statisticService;
    ghost var storage := service.storage;
    ghost var correct := presenter.correctAnswers;
    ghost var question := presenter.currentQuestion;
    var factory := presenter.questionFactory;
    ghost var movies := if factory != null then factory.movies else [];
    ghost var hasFactory := factory != null;
    ghost var noMovies := NoMovies(factory);
    while |steps| < QuestionsAmount - 1
      invariant |steps| <= QuestionsAmount - 1 && presenter.currentQuestionIndex == |steps|
      invariant forall i :: 0 <= i < |steps| ==> IsRequestStep(steps[i], hasFactory, noMovies)
      invariant presenter.currentQuestion == question && presenter.questionFactory == factory
      invariant factory != null ==> factory.movies == movies
      invariant presenter.statisticService == service && presenter.correctAnswers == correct
      invariant service.storage == storage
    {
      var step := presenter.ShowNextQuestionOrResults(0, 0, platform, now);
      assert IsRequestStep(step, hasFactory, noMovies);
      steps := steps + [step];
    }
    var last := presenter.ShowNextQuestionOrResults(0, 0, platform, now);
    steps := steps + [last];
  }

  /** A round played by a new presenter stores a score of 0 out of 10 and shows
      "0/10", since no presenter method ever increases `correctAnswers`. */
  method FreshRoundStoresZero(questionFactory: QuestionFactory?, service: StatisticService, platform: Platform, now: Date)
    returns (results: QuizResultsViewModel)
    modifies service
    ensures results == ResultsViewModel(0)
    ensures service.storage == AfterStore(old(service.storage), GameResult(0, QuestionsAmount, now))
  {
    var presenter := new MovieQuizPresenter(questionFactory, service);
    var steps := PlayRound(presenter, platform, now);
    results := steps[QuestionsAmount - 1].results;
  }
}
