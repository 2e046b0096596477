/** `StatisticService` (StatisticService.swift): running totals and the best game,
    kept in the app's `UserDefaults` key/value store. */
module Statistics {
  import opened Wrappers
  import opened Foundation
  import opened GameResults

  /** A value in `UserDefaults`: a number or a date. */
  datatype Stored = Integer(number: int) | Moment(date: Date)

  /** The contents of `UserDefaults.standard`. */
  type Storage = map<string, Stored>

  /** The keys the service writes.  The cumulative correct count is stored under
      `"correctAnswers"`, not under `Keys.correct`. */
  const CorrectAnswersKey: string := "correctAnswers"
  const GamesCountKey: string := "gamesCount"
  const BestGameKey: string := "bestGame"
  const BestGameTotalKey: string := "bestGameTotal"
  const BestGameDateKey: string := "bestGameDate"

  const StatisticKeys: set<string> :=
    {CorrectAnswersKey, GamesCountKey, BestGameKey, BestGameTotalKey, BestGameDateKey}

  /** `integer(forKey:)`: the stored number, 0 when the key is absent or holds no number. */
  function IntegerFor(s: Storage, key: string): int {
    if key in s && s[key].Integer? then s[key].number else 0
  }

  /** `object(forKey:) as? Date`. */
  function DateFor(s: Storage, key: string): Option<Date> {
    if key in s && s[key].Moment? then Some(s[key].date) else None
  }

  /** The getter of `bestGame`; `now` stands for the `Date()` used when no date is stored. */
  function ReadBestGame(s: Storage, now: Date): (g: GameResult)
    ensures BestGameKey !in s ==> g.correct == 0
    ensures BestGameTotalKey !in s ==> g.total == 0
    ensures BestGameDateKey !in s ==> g.date == now
    ensures s == map[] ==> g == GameResult(0, 0, now)
  {
    GameResult(IntegerFor(s, BestGameKey), IntegerFor(s, BestGameTotalKey), DateFor(s, BestGameDateKey).GetOr(now))
  }

  /** The setter of `bestGame`: three writes, which the getter reads back as the
      same game at any time; no other key changes. */
  function WriteBestGame(s: Storage, g: GameResult): (r: Storage)
    ensures forall now :: ReadBestGame(r, now) == g
    ensures r.Keys == s.Keys + {BestGameKey, BestGameTotalKey, BestGameDateKey}
    ensures forall k :: k in s && k != BestGameKey && k != BestGameTotalKey && k != BestGameDateKey ==> r[k] == s[k]
  {
    s[BestGameKey := Integer(g.correct)][BestGameTotalKey := Integer(g.total)][BestGameDateKey := Moment(g.date)]
  }

  /** What the store holds after `store` records `game` (whose date is the `Date()` of
      that call): the best game replaced only by a strictly better one, the correct
      count increased by the game's score, one more game counted, nothing else touched. */
  function AfterStore(s: Storage, game: GameResult): (r: Storage)
    ensures IntegerFor(r, GamesCountKey) == IntegerFor(s, GamesCountKey) + 1
    ensures IntegerFor(r, CorrectAnswersKey) == IntegerFor(s, CorrectAnswersKey) + game.correct
    ensures forall now ::
              ReadBestGame(r, now) == if game.correct > ReadBestGame(s, now).correct then game else ReadBestGame(s, now)
    ensures s.Keys + {CorrectAnswersKey, GamesCountKey} <= r.Keys <= s.Keys + StatisticKeys
    ensures forall k :: k in s && k !in StatisticKeys ==> r[k] == s[k]
  {
    var s1 := if IsBetterThan(game, ReadBestGame(s, game.date)) then WriteBestGame(s, game) else s;
    var s2 := s1[CorrectAnswersKey := Integer(IntegerFor(s1, CorrectAnswersKey) + game.correct)];
    s2[GamesCountKey := Integer(IntegerFor(s2, GamesCountKey) + 1)]
  }

  /** The store after recording `games` in order. */
  function Replay(s: Storage, games: seq<GameResult>): Storage {
    if games == [] then s else AfterStore(Replay(s, games[..|games| - 1]), games[|games| - 1])
  }

  function SumCorrect(games: seq<GameResult>): int {
    if games == [] then 0 else SumCorrect(games[..|games| - 1]) + games[|games| - 1].correct
  }

  /** The largest score among `floor` and the scores of `games`. */
  function MaxCorrect(floor: int, games: seq<GameResult>): (m: int)
    ensures m >= floor && forall i :: 0 <= i < |games| ==> games[i].correct <= m
    ensures m == floor || exists i :: 0 <= i < |games| && games[i].correct == m
  {
    if games == [] then floor
    else
      var m := MaxCorrect(floor, games[..|games| - 1]);
      var last := games[|games| - 1].correct;
      assert forall i :: 0 <= i < |games| - 1 ==> games[..|games| - 1][i] == games[i];
      if last > m then last else m
  }

  /** After a series of games, the games count grew by their number and the correct
      count by the sum of their scores. */
  lemma {:induction false} ReplayTotals(s: Storage, games: seq<GameResult>)
    ensures IntegerFor(Replay(s, games), GamesCountKey) == IntegerFor(s, GamesCountKey) + |games|
    ensures IntegerFor(Replay(s, games), CorrectAnswersKey) == IntegerFor(s, CorrectAnswersKey) + SumCorrect(games)
  {
    if games != [] {
      ReplayTotals(s, games[..|games| - 1]);
    }
  }

  /** After a series of games, the best score is the largest of the old best and the
      new scores; when a new score beat the old best, the best game stored is the
      first game that reached the largest score, with its own total and date. */
  lemma {:induction false} ReplayBest(s: Storage, games: seq<GameResult>, now: Date)
    ensures var best := ReadBestGame(Replay(s, games), now);
            var old_best := ReadBestGame(s, now);
            && best.correct == MaxCorrect(old_best.correct, games)
            && (MaxCorrect(old_best.correct, games) == old_best.correct ==> best == old_best)
            && (MaxCorrect(old_best.correct, games) > old_best.correct ==>
                  exists j :: 0 <= j < |games| && best == games[j] &&
                    forall i :: 0 <= i < j ==> games[i].correct < games[j].correct)
  {
    if games != [] {
      var init := ReadBestGame(s, now).correct;
      var prefix := games[..|games| - 1];
      var g := games[|games| - 1];
      ReplayBest(s, prefix, now);
      var before := ReadBestGame(Replay(s, prefix), now);
      assert forall i :: 0 <= i < |prefix| ==> prefix[i] == games[i];
      if g.correct > before.correct {
        assert forall i :: 0 <= i < |games| - 1 ==> games[i].correct <= MaxCorrect(init, prefix);
      } else if MaxCorrect(init, games) > init {
        var j :| 0 <= j < |prefix| && before == prefix[j] &&
                 forall i :: 0 <= i < j ==> prefix[i].correct < prefix[j].correct;
        assert before == games[j];
      }
    }
  }

  class StatisticService {
    /** The part of `UserDefaults.standard` the service sees. */
    var storage: Storage

    constructor(storage: Storage)
      ensures this.storage == storage
    {
      this.storage := storage;
    }

    /** The private `correct` property: the cumulative number of correct answers. */
    function Correct(): (n: int)
      reads this
      ensures CorrectAnswersKey !in storage ==> n == 0
      ensures CorrectAnswersKey in storage && storage[CorrectAnswersKey].Integer? ==> n == storage[CorrectAnswersKey].number
    {
      IntegerFor(storage, CorrectAnswersKey)
    }

    /** `gamesCount`. */
    function GamesCount(): (n: int)
      reads this
      ensures GamesCountKey !in storage ==> n == 0
      ensures GamesCountKey in storage && storage[GamesCountKey].Integer? ==> n == storage[GamesCountKey].number
    {
      IntegerFor(storage, GamesCountKey)
    }

    /** `bestGame`, read at time `now`. */
    function BestGame(now: Date): (g: GameResult)
      reads this
      ensures storage == map[] ==> g == GameResult(0, 0, now)
      ensures BestGameDateKey !in storage ==> g.date == now
      ensures BestGameDateKey in storage && storage[BestGameDateKey].Moment? ==> g.date == storage[BestGameDateKey].date
    {
      ReadBestGame(storage, now)
    }

    /** `totalAccuracy`, in exact arithmetic: zero before any game is played,
        otherwise the percentage of correct answers over ten questions per game. */
    function TotalAccuracy(): (r: real)
      reads this
      ensures GamesCount() == 0 ==> r == 0.0
      ensures GamesCount() != 0 ==> r * (GamesCount() as real * 10.0) == Correct() as real * 100.0
    {
      if GamesCount() == 0 then 0.0
      else Correct() as real / (GamesCount() as real * 10.0) * 100.0
    }

    /** The setter of `correct`. */
    method SetCorrect(n: int)
      modifies this
      ensures storage == old(storage)[CorrectAnswersKey := Integer(n)]
    {
      storage := storage[CorrectAnswersKey := Integer(n)];
    }

    /** The setter of `gamesCount`. */
    method SetGamesCount(n: int)
      modifies this
      ensures storage == old(storage)[GamesCountKey := Integer(n)]
    {
      storage := storage[GamesCountKey := Integer(n)];
    }

    /** The setter of `bestGame`. */
    method SetBestGame(g: GameResult)
      modifies this
      ensures storage == WriteBestGame(old(storage), g)
      ensures forall now :: BestGame(now) == g
    {
      storage := storage[BestGameKey := Integer(g.correct)];
      storage := storage[BestGameTotalKey := Integer(g.total)];
      storage := storage[BestGameDateKey := Moment(g.date)];
    }

    /** `store(correct:total:)`, with `now` the `Date()` of the call. */
    method Store(count: int, amount: int, now: Date)
      modifies this
      ensures storage == AfterStore(old(storage), GameResult(count, amount, now))
      ensures GamesCount() == old(GamesCount()) + 1
      ensures Correct() == old(Correct()) + count
      ensures BestGame(now).correct == if count > old(BestGame(now)).correct then count else old(BestGame(now)).correct
      ensures count > old(BestGame(now)).correct ==> BestGame(now) == GameResult(count, amount, now)
      ensures count <= old(BestGame(now)).correct ==> BestGame(now) == old(BestGame(now))
    {
      var newGame := GameResult(count, amount, now);
      if IsBetterThan(newGame, BestGame(now)) {
        SetBestGame(newGame);
      }
      SetCorrect(Correct() + count);
      SetGamesCount(GamesCount() + 1);
    }
  }
}
