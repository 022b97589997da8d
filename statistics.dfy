/** Lifetime statistics over finished games, kept in memory. */
module Statistics {
  import opened Config

  datatype Option<T> = None | Some(value: T)

  /** What a finished game reports. */
  datatype GameSummary = GameSummary(
    score: int, wave: int, powerupsCollected: int, playtime: int,
    bulletsFired: int, enemiesKilled: int, difficulty: string)

  /** The record of the most recent game; the timestamp is an opaque string. */
  datatype LastGame = LastGame(
    score: int, wave: int, powerupsCollected: int, playtime: int,
    difficulty: string, timestamp: string)

  /** The summed quantities. */
  datatype Counter = Score | Powerups | Playtime | BulletsFired | EnemiesKilled

  function Field(g: GameSummary, c: Counter): int {
    match c
    case Score => g.score
    case Powerups => g.powerupsCollected
    case Playtime => g.playtime
    case BulletsFired => g.bulletsFired
    case EnemiesKilled => g.enemiesKilled
  }

  /** The sum of one counter over a history of games. */
  function Total(h: seq<GameSummary>, c: Counter): int
    decreases |h|
  {
    if h == [] then 0 else Total(h[..|h| - 1], c) + Field(h[|h| - 1], c)
  }

  /** The best wave reached in a history, 0 for none. */
  function BestWave(h: seq<GameSummary>): int
    decreases |h|
  {
    if h == [] then 0
    else
      var w := BestWave(h[..|h| - 1]);
      if w < h[|h| - 1].wave then h[|h| - 1].wave else w
  }

  /** The best wave is never negative, no game of the history beats it, and unless it is
      0 some game reached it. */
  lemma {:induction false} BestWaveIsMaximum(h: seq<GameSummary>)
    ensures BestWave(h) >= 0
    ensures forall i :: 0 <= i < |h| ==> h[i].wave <= BestWave(h)
    ensures BestWave(h) == 0 || exists i :: 0 <= i < |h| && h[i].wave == BestWave(h)
    decreases |h|
  {
    if h != [] {
      var h' := h[..|h| - 1];
      BestWaveIsMaximum(h');
      assert forall i :: 0 <= i < |h'| ==> h'[i] == h[i];
    }
  }

  /** `Math.round(total / count)`, and 0 when there is nothing to divide by. */
  function RoundedMean(total: int, count: int): (r: int)
    ensures count == 0 ==> r == 0
    ensures count > 0 ==> r as real - 0.5 <= total as real / count as real < r as real + 0.5
  {
    if count == 0 then 0 else Round(total as real / count as real)
  }

  /** The seven aggregates the store keeps, as one value. */
  datatype Totals = Totals(
    games: int, best: int, score: int, powerups: int, playtime: int, bullets: int, kills: int)

  /** `recordGameEnd` on the aggregates: one more game, the best wave raised if beaten,
      and every total increased by the game's value. */
  function Record(t: Totals, g: GameSummary): Totals {
    Totals(t.games + 1, if t.best < g.wave then g.wave else t.best,
           t.score + g.score, t.powerups + g.powerupsCollected, t.playtime + g.playtime,
           t.bullets + g.bulletsFired, t.kills + g.enemiesKilled)
  }

  /** The aggregates of a history, recorded oldest first from empty statistics. */
  function Summarize(h: seq<GameSummary>): Totals
    decreases |h|
  {
    if h == [] then Totals(0, 0, 0, 0, 0, 0, 0) else Record(Summarize(h[..|h| - 1]), h[|h| - 1])
  }

  lemma SummarizeAppend(h: seq<GameSummary>, g: GameSummary)
    ensures Summarize(h + [g]) == Record(Summarize(h), g)
  {
    assert (h + [g])[..|h + [g]| - 1] == h;
  }

  /** The aggregates are the count of games, the best wave and the field totals. */
  lemma {:induction false} SummarizeIsTotals(h: seq<GameSummary>)
    ensures var t := Summarize(h);
            t.games == |h| && t.best == BestWave(h) &&
            t.score == Total(h, Score) && t.powerups == Total(h, Powerups) &&
            t.playtime == Total(h, Playtime) && t.bullets == Total(h, BulletsFired) &&
            t.kills == Total(h, EnemiesKilled)
    decreases |h|
  {
    if h != [] {
      SummarizeIsTotals(h[..|h| - 1]);
    }
  }

  lemma {:induction false} TotalWithin(h: seq<GameSummary>, c: Counter, lo: int, hi: int)
    requires forall i :: 0 <= i < |h| ==> lo <= Field(h[i], c) <= hi
    ensures lo * |h| <= Total(h, c) <= hi * |h|
    decreases |h|
  {
    if h != [] {
      var n := |h| - 1;
      TotalWithin(h[..n], c, lo, hi);
      assert lo * |h| == lo * n + lo && hi * |h| == hi * n + hi;
    }
  }

  /** The rounded average of games that all lie in [lo, hi] lies in [lo, hi] too. */
  lemma MeanWithin(h: seq<GameSummary>, c: Counter, lo: int, hi: int)
    requires |h| > 0
    requires forall i :: 0 <= i < |h| ==> lo <= Field(h[i], c) <= hi
    ensures lo <= RoundedMean(Total(h, c), |h|) <= hi
  {
    TotalWithin(h, c, lo, hi);
    BoundedMean(Total(h, c), |h|, lo, hi);
  }

  lemma BoundedMean(total: int, count: int, lo: int, hi: int)
    requires count > 0 && lo * count <= total <= hi * count
    ensures lo <= RoundedMean(total, count) <= hi
  {
    var n := count as real;
    var t := total as real;
    CastProduct(lo, count);
    CastProduct(hi, count);
    QuotientWithin(t, n, lo as real, hi as real);
    RoundWithin(t / n, lo, hi);
  }

  lemma CastProduct(a: int, b: int)
    ensures (a * b) as real == a as real * b as real
  {
  }

  lemma QuotientWithin(t: real, n: real, lo: real, hi: real)
    requires n > 0.0 && lo * n <= t <= hi * n
    ensures lo <= t / n <= hi
  {
  }

  lemma RoundWithin(q: real, lo: int, hi: int)
    requires lo as real <= q <= hi as real
    ensures lo <= Round(q) <= hi
  {
  }

  class StatisticsManager {
    var gamesPlayed: int
    var bestWave: int
    var totalScore: int
    var totalPowerupsCollected: int
    var totalPlaytime: int
    var totalBulletsFired: int
    var totalEnemiesKilled: int
    var lastGameStats: Option<LastGame>

    /** The games recorded since the statistics were last empty. */
    ghost var history: seq<GameSummary>

    /** The aggregate fields. */
    function Current(): Totals
      reads this
    {
      Totals(gamesPlayed, bestWave, totalScore, totalPowerupsCollected, totalPlaytime,
             totalBulletsFired, totalEnemiesKilled)
    }

    /** The aggregates are those of the recorded history: by SummarizeIsTotals, the number
        of games, the best wave and the field totals. */
    ghost predicate Valid()
      reads this
    {
      Current() == Summarize(history)
    }

    /** Statistics over an empty store. */
    constructor ()
      ensures Valid() && history == [] && lastGameStats == None
    {
      gamesPlayed, bestWave, totalScore := 0, 0, 0;
      totalPowerupsCollected, totalPlaytime := 0, 0;
      totalBulletsFired, totalEnemiesKilled := 0, 0;
      lastGameStats := None;
      history := [];
    }

    /** `recordGameEnd(stats)`: the aggregates take the game into account and it becomes
        the last game. */
    method RecordGameEnd(g: GameSummary, timestamp: string)
      modifies this
      ensures Current() == Record(old(Current()), g)
      ensures lastGameStats == Some(LastGame(g.score, g.wave, g.powerupsCollected, g.playtime, g.difficulty, timestamp))
      ensures history == old(history) + [g]
      ensures old(Valid()) ==> Valid()
    {
      Accumulate(g);
      lastGameStats := Some(LastGame(g.score, g.wave, g.powerupsCollected, g.playtime, g.difficulty, timestamp));
    }

    /** The aggregate updates of `recordGameEnd`. */
    method Accumulate(g: GameSummary)
      modifies this`gamesPlayed, this`bestWave, this`totalScore, this`totalPowerupsCollected
      modifies this`totalPlaytime, this`totalBulletsFired, this`totalEnemiesKilled, this`history
      ensures Current() == Record(old(Current()), g)
      ensures history == old(history) + [g]
      ensures old(Valid()) ==> Valid()
    {
      ghost var t0, h0, wasValid := Current(), history, Valid();
      gamesPlayed := gamesPlayed + 1;
      bestWave := if bestWave < g.wave then g.wave else bestWave;
      totalScore := totalScore + g.score;
      totalPowerupsCollected := totalPowerupsCollected + g.powerupsCollected;
      totalPlaytime := totalPlaytime + g.playtime;
      totalBulletsFired := totalBulletsFired + g.bulletsFired;
      totalEnemiesKilled := totalEnemiesKilled + g.enemiesKilled;
      history := history + [g];
      assert Current() == Record(t0, g);
      if wasValid {
        SummarizeAppend(h0, g);
      }
    }

    method ResetStats()
      modifies this
      ensures Valid() && history == [] && lastGameStats == None
    {
      gamesPlayed, bestWave, totalScore := 0, 0, 0;
      totalPowerupsCollected, totalPlaytime := 0, 0;
      totalBulletsFired, totalEnemiesKilled := 0, 0;
      lastGameStats := None;
      history := [];
    }

    /** `getAverageScore()`: the mean score rounded half up, 0 before any game. */
    function AverageScore(): (r: int)
      reads this
      ensures gamesPlayed == 0 ==> r == 0
      ensures gamesPlayed > 0 ==> r as real - 0.5 <= totalScore as real / gamesPlayed as real < r as real + 0.5
    {
      RoundedMean(totalScore, gamesPlayed)
    }

    /** `getAccuracy()`: kills per bullet fired as a rounded percentage, 0 before any shot. */
    function Accuracy(): (r: int)
      reads this
      ensures totalBulletsFired == 0 ==> r == 0
      ensures totalBulletsFired != 0 ==>
                r as real - 0.5 <= totalEnemiesKilled as real / totalBulletsFired as real * 100.0 < r as real + 0.5
    {
      if totalBulletsFired == 0 then 0
      else Round(totalEnemiesKilled as real / totalBulletsFired as real * 100.0)
    }

    /** `getAveragePlaytime()`: the mean play time rounded half up, 0 before any game. */
    function AveragePlaytime(): (r: int)
      reads this
      ensures gamesPlayed == 0 ==> r == 0
      ensures gamesPlayed > 0 ==> r as real - 0.5 <= totalPlaytime as real / gamesPlayed as real < r as real + 0.5
    {
      RoundedMean(totalPlaytime, gamesPlayed)
    }
  }
}
