/** The scoring body as a sequence of steps in the order the tool performs
    them, with each player statistic accumulated in one pass over the
    squad, proved to compute the factored definition `Strength`. */
module Scorer {
  import opened Stats
  import opened Records
  import opened TeamStrength

  /** One pass over the squad: the sum and the number of qualifying values of `s`. */
  method SumQualifying(ps: seq<PlayerRecord>, s: Stat) returns (total: real, count: nat)
    ensures count == |Sample(ps, s)|
    ensures total == Sum(Sample(ps, s))
  {
    total, count := 0.0, 0;
    ghost var sample: seq<real> := [];
    var i := 0;
    while i < |ps|
      invariant 0 <= i <= |ps|
      invariant sample == Sample(ps[..i], s)
      invariant count == |sample| && total == Sum(sample)
    {
      SamplePrefixStep(ps, i, s);
      if Qualifies(ps[i], s) {
        SumSnoc(sample, Field(ps[i], s));
        sample := sample + [Field(ps[i], s)];
        total := total + Field(ps[i], s);
        count := count + 1;
      } else {
        assert sample + [] == sample;
      }
      i := i + 1;
    }
    assert ps[..|ps|] == ps;
  }

  /** The mean of the qualifying values of `s`, or `fallback` when there are none. */
  method MeanOrFallback(ps: seq<PlayerRecord>, s: Stat, fallback: real) returns (a: real)
    ensures a == AvgOr(Sample(ps, s), fallback)
    ensures (forall i :: 0 <= i < |ps| ==> !Qualifies(ps[i], s)) ==> a == fallback
  {
    var total, count := SumQualifying(ps, s);
    if count > 0 {
      a := total / count as real;
    } else {
      a := fallback;
    }
  }

  /** The team-strength score, computed step by step. */
  method CalculateTeamStrength(t: TeamRecord) returns (r: real)
    ensures r == Strength(t)
    ensures 0.0 <= r <= 1.0
  {
    var totalGames := t.wins + t.losses + t.draws + t.noResults;
    if totalGames == 0 {
      return NoGamesScore;
    }

    var meaningfulGames := totalGames - t.noResults;
    var winRate: real;
    if meaningfulGames == 0 {
      winRate := NoMeaningfulGamesWinRate;
    } else {
      winRate := t.wins as real / meaningfulGames as real;
    }

    var runDifference: real;
    if meaningfulGames > 0 {
      var avgRunsScored := t.runsScored as real / meaningfulGames as real;
      var avgRunsConceded := t.runsConceded as real / meaningfulGames as real;
      runDifference := avgRunsScored - avgRunsConceded;
    } else {
      runDifference := 0.0;
    }

    var battingStrength, bowlingStrength, strikeRateFactor: real;
    if |t.players| > 0 {
      var avgBatting := MeanOrFallback(t.players, Batting, BattingFallback);
      var avgBowling := MeanOrFallback(t.players, Bowling, BowlingFallback);
      var avgStrikeRate := MeanOrFallback(t.players, StrikeRate, StrikeRateFallback);
      battingStrength := Min(avgBatting / 50.0, 1.0);
      bowlingStrength := Max(0.0, 1.0 - (avgBowling - 20.0) / 30.0);
      strikeRateFactor := Min(avgStrikeRate / 100.0, 1.2) * 0.8;
    } else {
      battingStrength, bowlingStrength, strikeRateFactor := EmptySquadFactor, EmptySquadFactor, EmptySquadFactor;
    }

    var runDiffFactor := Min(Max(runDifference / 100.0, -0.5), 0.5) + 0.5;

    var strength :=
      winRate * WinRateWeight
      + battingStrength * BattingWeight
      + bowlingStrength * BowlingWeight
      + runDiffFactor * RunDiffWeight
      + strikeRateFactor * StrikeRateWeight;

    assert meaningfulGames == MeaningfulGames(t);
    assert winRate == WinRate(t);
    assert runDifference == RunDifference(t);
    assert runDiffFactor == RunDiffFactor(t);
    assert battingStrength == BattingStrength(t.players);
    assert bowlingStrength == BowlingStrength(t.players);
    assert strikeRateFactor == StrikeRateFactor(t.players);
    assert strength == RawStrength(t);
    r := Min(Max(strength, 0.0), 1.0);
  }
}
