/** `GameResult` (GameResult.swift): the score of one finished quiz. */
module GameResults {
  import opened Foundation

  datatype GameResult = GameResult(correct: int, total: int, date: Date)

  /** `isBetterThan`: only the number of correct answers is compared, and a tie is
      not better. */
  predicate IsBetterThan(a: GameResult, b: GameResult)
    ensures a.correct == b.correct ==> !IsBetterThan(a, b)
  {
    a.correct > b.correct
  }

  /** "Better than" is a strict order: irreflexive, asymmetric and transitive. */
  lemma IsBetterThanIsStrictOrder(a: GameResult, b: GameResult, c: GameResult)
    ensures !IsBetterThan(a, a)
    ensures IsBetterThan(a, b) ==> !IsBetterThan(b, a)
    ensures IsBetterThan(a, b) && IsBetterThan(b, c) ==> IsBetterThan(a, c)
  {
  }

  /** Neither `total` nor `date` takes part in the comparison. */
  lemma IsBetterThanIgnoresTotalAndDate(a: GameResult, b: GameResult, ta: int, da: Date, tb: int, db: Date)
    ensures IsBetterThan(a.(total := ta, date := da), b.(total := tb, date := db)) == IsBetterThan(a, b)
  {
  }
}
