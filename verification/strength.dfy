/** The team-strength score: a weighted sum of five factors (win rate,
    batting, bowling, run differential, strike rate), clamped to [0, 1],
    with a neutral 0.5 for a team that has played no games. */
module TeamStrength {
  import opened Stats
  import opened Records

  /** The score of a team that has played no games. */
  const NoGamesScore: real := 0.5
  /** The win rate of a team whose every game was a no-result. */
  const NoMeaningfulGamesWinRate: real := 0.5
  /** Each player factor of a team with an empty squad. */
  const EmptySquadFactor: real := 0.5

  const WinRateWeight: real := 0.35
  const BattingWeight: real := 0.25
  const BowlingWeight: real := 0.25
  const RunDiffWeight: real := 0.10
  const StrikeRateWeight: real := 0.05

  /** Averages assumed when a non-empty squad has no qualifying value. */
  const BattingFallback: real := 25.0
  const BowlingFallback: real := 35.0
  const StrikeRateFallback: real := 80.0

  function TotalGames(t: TeamRecord): (n: nat)
    ensures n == 0 <==> t.wins == 0 && t.losses == 0 && t.draws == 0 && t.noResults == 0
    ensures t.wins <= n && t.noResults <= n
  {
    t.wins + t.losses + t.draws + t.noResults
  }

  /** Games with a result; no-results carry no performance signal. */
  function MeaningfulGames(t: TeamRecord): (m: nat)
    ensures t.wins <= m
    ensures m + t.noResults == TotalGames(t)
  {
    TotalGames(t) - t.noResults
  }

  /** Share of meaningful games won, or the neutral 0.5 when there are none. */
  function WinRate(t: TeamRecord): (r: real)
    ensures 0.0 <= r <= 1.0
    ensures MeaningfulGames(t) == 0 ==> r == NoMeaningfulGamesWinRate
    ensures MeaningfulGames(t) > 0 ==> r * MeaningfulGames(t) as real == t.wins as real
  {
    var m := MeaningfulGames(t);
    if m == 0 then NoMeaningfulGamesWinRate
    else
      var r := t.wins as real / m as real;
      assert r * m as real == t.wins as real;
      RatioAtMostOne(t.wins as real, m as real);
      r
  }

  /** Per-game runs scored minus per-game runs conceded over meaningful games. */
  function RunDifference(t: TeamRecord): (d: real)
    ensures MeaningfulGames(t) == 0 ==> d == 0.0
    ensures MeaningfulGames(t) > 0 ==> d * MeaningfulGames(t) as real == t.runsScored as real - t.runsConceded as real
  {
    var m := MeaningfulGames(t);
    if m > 0 then
      t.runsScored as real / m as real - t.runsConceded as real / m as real
    else
      0.0
  }

  /** Maps a per-game run difference onto [0, 1]: linear on [-50, 50],
      centred on 0.5, saturating outside. */
  function NormalizeRunDifference(d: real): (r: real)
    ensures 0.0 <= r <= 1.0
    ensures d <= -50.0 ==> r == 0.0
    ensures d >= 50.0 ==> r == 1.0
    ensures -50.0 <= d <= 50.0 ==> r == 0.5 + d / 100.0
  {
    Clamp(d / 100.0, -0.5, 0.5) + 0.5
  }

  function RunDiffFactor(t: TeamRecord): (r: real)
    ensures 0.0 <= r <= 1.0
    ensures MeaningfulGames(t) == 0 ==> r == 0.5
  {
    NormalizeRunDifference(RunDifference(t))
  }

  /** Mean batting average of the qualifying players, or the fallback. */
  function MeanBattingAverage(ps: seq<PlayerRecord>): (a: real)
    ensures |Sample(ps, Batting)| == 0 ==> a == BattingFallback
    ensures |Sample(ps, Batting)| > 0 ==> a > 0.0
  {
    var xs := Sample(ps, Batting);
    AvgPositive(xs, BattingFallback);
    AvgOr(xs, BattingFallback)
  }

  function MeanBowlingAverage(ps: seq<PlayerRecord>): (a: real)
    ensures |Sample(ps, Bowling)| == 0 ==> a == BowlingFallback
    ensures |Sample(ps, Bowling)| > 0 ==> a > 0.0
  {
    var xs := Sample(ps, Bowling);
    AvgPositive(xs, BowlingFallback);
    AvgOr(xs, BowlingFallback)
  }

  function MeanStrikeRate(ps: seq<PlayerRecord>): (a: real)
    ensures |Sample(ps, StrikeRate)| == 0 ==> a == StrikeRateFallback
    ensures |Sample(ps, StrikeRate)| > 0 ==> a > 0.0
  {
    var xs := Sample(ps, StrikeRate);
    AvgPositive(xs, StrikeRateFallback);
    AvgOr(xs, StrikeRateFallback)
  }

  /** Batting average scaled by 50 and capped at 1; 0.5 for an empty squad. */
  function BattingStrength(ps: seq<PlayerRecord>): (r: real)
    ensures 0.0 <= r <= 1.0
    ensures |ps| == 0 ==> r == EmptySquadFactor
    ensures |Sample(ps, Batting)| == 0 ==> r == 0.5
    ensures |ps| > 0 && MeanBattingAverage(ps) >= 50.0 ==> r == 1.0
    ensures |ps| > 0 && MeanBattingAverage(ps) <= 50.0 ==> r == MeanBattingAverage(ps) / 50.0
  {
    if |ps| > 0 then Min(MeanBattingAverage(ps) / 50.0, 1.0) else EmptySquadFactor
  }

  /** Inverse scale: 1 at a bowling average of 20, 0 at 50 and beyond.
      There is no cap at 1, so averages below 20 score above 1. */
  function BowlingStrength(ps: seq<PlayerRecord>): (r: real)
    ensures 0.0 <= r < 5.0 / 3.0
    ensures |ps| == 0 ==> r == EmptySquadFactor
    ensures |Sample(ps, Bowling)| == 0 ==> r == 0.5
    ensures |ps| > 0 && MeanBowlingAverage(ps) >= 50.0 ==> r == 0.0
    ensures |ps| > 0 && MeanBowlingAverage(ps) <= 50.0 ==> r == 1.0 - (MeanBowlingAverage(ps) - 20.0) / 30.0
  {
    if |ps| > 0 then Max(0.0, 1.0 - (MeanBowlingAverage(ps) - 20.0) / 30.0) else EmptySquadFactor
  }

  /** Strike rate scaled by 100, capped at 1.2, then scaled by 0.8. */
  function StrikeRateFactor(ps: seq<PlayerRecord>): (r: real)
    ensures 0.0 <= r <= 0.96
    ensures |ps| == 0 ==> r == EmptySquadFactor
    ensures |ps| > 0 && |Sample(ps, StrikeRate)| == 0 ==> r == 0.64
    ensures |ps| > 0 && MeanStrikeRate(ps) >= 120.0 ==> r == 0.96
    ensures |ps| > 0 && MeanStrikeRate(ps) <= 120.0 ==> r == MeanStrikeRate(ps) / 100.0 * 0.8
  {
    if |ps| > 0 then Min(MeanStrikeRate(ps) / 100.0, 1.2) * 0.8 else EmptySquadFactor
  }

  /** The weighted sum of the five factors. The weights are non-negative
      and sum to 1, so factors in [0, 1] combine to a value in [0, 1]. */
  function Combine(winRate: real, batting: real, bowling: real, runDiff: real, strikeRate: real): (r: real)
    ensures 0.0 <= winRate && 0.0 <= batting && 0.0 <= bowling && 0.0 <= runDiff && 0.0 <= strikeRate
            ==> 0.0 <= r
    ensures winRate <= 1.0 && batting <= 1.0 && bowling <= 1.0 && runDiff <= 1.0 && strikeRate <= 1.0
            ==> r <= 1.0
  {
    winRate * WinRateWeight
    + batting * BattingWeight
    + bowling * BowlingWeight
    + runDiff * RunDiffWeight
    + strikeRate * StrikeRateWeight
  }

  /** The weighted sum before the final clamp. It is never negative, and
      only the uncapped bowling factor can lift it above 1, to at most
      0.35 + 0.25 + 0.25 * 5/3 + 0.10 + 0.05 * 0.96. */
  function RawStrength(t: TeamRecord): (r: real)
    ensures 0.0 <= r < 0.35 + 0.25 + 0.25 * (5.0 / 3.0) + 0.10 + 0.05 * 0.96
    ensures BowlingStrength(t.players) <= 1.0 ==> r <= 1.0
  {
    Combine(WinRate(t), BattingStrength(t.players), BowlingStrength(t.players),
            RunDiffFactor(t), StrikeRateFactor(t.players))
  }

  /** The team-strength score. */
  function Strength(t: TeamRecord): (r: real)
    ensures 0.0 <= r <= 1.0
    ensures TotalGames(t) == 0 ==> r == NoGamesScore
  {
    if TotalGames(t) == 0 then NoGamesScore else Clamp(RawStrength(t), 0.0, 1.0)
  }
}
