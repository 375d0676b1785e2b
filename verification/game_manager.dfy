/**
 * The process-wide high-score and difficulty store. Its preferences file is
 * modelled as a ghost log of the values written to it, one entry per
 * put-and-flush.
 */
module Manager {
  import opened Config
  import opened Decimal

  /** One write to the preferences store. */
  datatype PrefWrite = HighScoreWritten(highscore: int) | DifficultyWritten(level: DifficultyLevel)

  datatype ManagerState = ManagerState(highscore: int, difficulty: DifficultyLevel, writes: seq<PrefWrite>)

  function Max(a: int, b: int): int
  {
    if a < b then b else a
  }

  /** The store after updateHighScore(score). */
  function UpdatedHighScore(m: ManagerState, score: int): (r: ManagerState)
    ensures r.highscore == Max(m.highscore, score)
    ensures r.difficulty == m.difficulty
    ensures score < m.highscore ==> r == m
    ensures score >= m.highscore ==> r.writes == m.writes + [HighScoreWritten(score)]
  {
    if score < m.highscore then m
    else m.(highscore := score, writes := m.writes + [HighScoreWritten(score)])
  }

  /** The store after updateDifficulty(level). */
  function UpdatedDifficulty(m: ManagerState, level: DifficultyLevel): (r: ManagerState)
    ensures r.difficulty == level && r.highscore == m.highscore
    ensures m.difficulty == level ==> r == m
    ensures m.difficulty != level ==> r.writes == m.writes + [DifficultyWritten(level)]
  {
    if m.difficulty == level then m
    else m.(difficulty := level, writes := m.writes + [DifficultyWritten(level)])
  }

  /** The high score never goes down, whatever score is offered. */
  lemma HighScoreNeverDecreases(m: ManagerState, score: int)
    ensures UpdatedHighScore(m, score).highscore >= m.highscore
    ensures UpdatedHighScore(m, score).highscore >= score
  {
  }

  /**
   * Offering the same score twice leaves the same high score and difficulty
   * as offering it once; the second offer writes the (unchanged) value to the
   * store once more.
   */
  lemma HighScoreIdempotent(m: ManagerState, score: int)
    ensures var once := UpdatedHighScore(m, score);
      var twice := UpdatedHighScore(once, score);
      twice.highscore == once.highscore && twice.difficulty == once.difficulty &&
      (score >= m.highscore ==> twice.writes == once.writes + [HighScoreWritten(score)]) &&
      (score < m.highscore ==> twice == once)
  {
  }

  class GameManager {
    var highscore: int
    var difficultyLevel: DifficultyLevel
    /** What has been written to the preferences store since construction. */
    ghost var writes: seq<PrefWrite>

    ghost function State(): ManagerState
      reads this
    {
      ManagerState(highscore, difficultyLevel, writes)
    }

    /** The store as loaded: the saved high score and difficulty (0 and Medium when none was saved). */
    constructor (savedHighScore: int, savedDifficulty: DifficultyLevel)
      ensures State() == ManagerState(savedHighScore, savedDifficulty, [])
    {
      highscore := savedHighScore;
      difficultyLevel := savedDifficulty;
      writes := [];
    }

    method UpdateHighScore(score: int)
      modifies this
      ensures State() == UpdatedHighScore(old(State()), score)
    {
      if score < highscore {
        return;
      }
      highscore := score;
      writes := writes + [HighScoreWritten(highscore)];
    }

    /** The high score in decimal: canonical decimal text that reads back as the high score. */
    function GetHighScoreString(): (text: string)
      reads this
      ensures IsDecimal(text) && IsCanonical(text) && ParseDecimal(text) == highscore
    {
      IntToDecimalRoundTrip(highscore);
      IntToDecimal(highscore)
    }

    /** The difficulty of the store's state. */
    function GetDifficultyLevel(): (level: DifficultyLevel)
      reads this
      ensures level == State().difficulty
    {
      difficultyLevel
    }

    method UpdateDifficulty(newDifficultyLevel: DifficultyLevel)
      modifies this
      ensures GetDifficultyLevel() == newDifficultyLevel
      ensures State() == UpdatedDifficulty(old(State()), newDifficultyLevel)
    {
      if difficultyLevel == newDifficultyLevel {
        return;
      }
      difficultyLevel := newDifficultyLevel;
      writes := writes + [DifficultyWritten(difficultyLevel)];
    }
  }
}
