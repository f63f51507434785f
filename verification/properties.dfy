/** Properties of the team-strength score that relate several calls or
    several factors: the weights, the final clamp, the degenerate-input
    paths, sentinel filtering and monotonicity in wins. */
module StrengthProperties {
  import opened Stats
  import opened Records
  import opened TeamStrength

  /** The weights sum to 1, so five equal factors combine to that value. */
  lemma CombineOfEqualFactors(c: real)
    ensures Combine(c, c, c, c, c) == c
    ensures WinRateWeight + BattingWeight + BowlingWeight + RunDiffWeight + StrikeRateWeight == 1.0
  {
  }

  /** Each weight is the exact effect on the sum of one unit of its factor:
      0.35 for the win rate, 0.25 each for batting and bowling, 0.10 for the
      run difference and 0.05 for the strike rate. */
  lemma CombineWeights(w: real, b: real, bo: real, rd: real, sr: real, d: real)
    ensures Combine(0.0, 0.0, 0.0, 0.0, 0.0) == 0.0
    ensures Combine(w + d, b, bo, rd, sr) == Combine(w, b, bo, rd, sr) + 0.35 * d
    ensures Combine(w, b + d, bo, rd, sr) == Combine(w, b, bo, rd, sr) + 0.25 * d
    ensures Combine(w, b, bo + d, rd, sr) == Combine(w, b, bo, rd, sr) + 0.25 * d
    ensures Combine(w, b, bo, rd + d, sr) == Combine(w, b, bo, rd, sr) + 0.10 * d
    ensures Combine(w, b, bo, rd, sr + d) == Combine(w, b, bo, rd, sr) + 0.05 * d
  {
  }

  /** Every weight is non-negative, so the combination is monotone in each factor. */
  lemma CombineMonotone(w: real, b: real, bo: real, rd: real, sr: real,
                        w': real, b': real, bo': real, rd': real, sr': real)
    requires w <= w' && b <= b' && bo <= bo' && rd <= rd' && sr <= sr'
    ensures Combine(w, b, bo, rd, sr) <= Combine(w', b', bo', rd', sr')
  {
  }

  /** All five factors are non-negative, so the lower half of the final
      clamp never binds: a team with games scores min(raw, 1). */
  lemma RawStrengthNonNegative(t: TeamRecord)
    ensures 0.0 <= RawStrength(t)
    ensures TotalGames(t) > 0 ==> Strength(t) == Min(RawStrength(t), 1.0)
  {
  }

  /** Bowling strength exceeds 1 exactly when the squad is non-empty and its
      mean qualifying bowling average is below 20. */
  lemma BowlingAboveOne(ps: seq<PlayerRecord>)
    ensures BowlingStrength(ps) > 1.0 <==> |ps| > 0 && |Sample(ps, Bowling)| > 0 && MeanBowlingAverage(ps) < 20.0
  {
  }

  /** The final clamp can bind: a team whose weighted sum exceeds 1. */
  lemma ClampCanBind()
    ensures var t := TeamRecord(1, 0, 0, 0, 100, 0, [PlayerRecord(50.0, 5.0, 1, 120.0)]);
            RawStrength(t) > 1.0 && Strength(t) == 1.0
  {
    var p := PlayerRecord(50.0, 5.0, 1, 120.0);
    var t := TeamRecord(1, 0, 0, 0, 100, 0, [p]);
    assert [p][1..] == [];
    assert Sample(t.players, Batting) == [50.0];
    assert Sample(t.players, Bowling) == [5.0];
    assert Sample(t.players, StrikeRate) == [120.0];
    assert [5.0][1..] == [] && [50.0][1..] == [] && [120.0][1..] == [];
    assert MeanBowlingAverage(t.players) == 5.0;
    assert BowlingStrength(t.players) == 1.5;
  }

  /** A team whose every game was a no-result has neutral win-rate and
      run-difference factors; with no players it scores exactly 0.5. */
  lemma AllNoResultsNeutral(t: TeamRecord)
    requires t.wins == 0 && t.losses == 0 && t.draws == 0
    ensures WinRate(t) == NoMeaningfulGamesWinRate && RunDiffFactor(t) == 0.5
    ensures |t.players| == 0 ==> Strength(t) == 0.5
  {
  }

  /** The two "no player data" paths: an empty squad gives 0.5 for all three
      player factors; a non-empty squad without any qualifying value falls
      back to averages 25, 35 and 80, giving 0.5, 0.5 and 0.64. */
  lemma NoPlayerDataPaths(ps: seq<PlayerRecord>)
    requires forall i :: 0 <= i < |ps| ==>
      !Qualifies(ps[i], Batting) && !Qualifies(ps[i], Bowling) && !Qualifies(ps[i], StrikeRate)
    ensures BattingStrength(ps) == 0.5 && BowlingStrength(ps) == 0.5
    ensures StrikeRateFactor(ps) == (if |ps| == 0 then EmptySquadFactor else 0.64)
  {
  }

  /** A player with no batting data, inserted anywhere, does not change the
      mean batting average, nor the batting strength of a non-empty squad. */
  lemma BattingIgnoresSentinel(ps: seq<PlayerRecord>, p: PlayerRecord, qs: seq<PlayerRecord>)
    requires p.battingAverage == 0.0
    ensures MeanBattingAverage(ps + [p] + qs) == MeanBattingAverage(ps + qs)
    ensures |ps + qs| > 0 ==> BattingStrength(ps + [p] + qs) == BattingStrength(ps + qs)
  {
    SampleSkipsSentinel(ps, p, qs, Batting);
  }

  /** A player without a positive bowling average or without wickets,
      inserted anywhere, does not change the bowling figures. */
  lemma BowlingIgnoresSentinel(ps: seq<PlayerRecord>, p: PlayerRecord, qs: seq<PlayerRecord>)
    requires p.bowlingAverage == 0.0 || p.wicketsTaken == 0
    ensures MeanBowlingAverage(ps + [p] + qs) == MeanBowlingAverage(ps + qs)
    ensures |ps + qs| > 0 ==> BowlingStrength(ps + [p] + qs) == BowlingStrength(ps + qs)
  {
    SampleSkipsSentinel(ps, p, qs, Bowling);
  }

  /** A player with no strike-rate data, inserted anywhere, does not change
      the strike-rate figures. */
  lemma StrikeRateIgnoresSentinel(ps: seq<PlayerRecord>, p: PlayerRecord, qs: seq<PlayerRecord>)
    requires p.strikeRate == 0.0
    ensures MeanStrikeRate(ps + [p] + qs) == MeanStrikeRate(ps + qs)
    ensures |ps + qs| > 0 ==> StrikeRateFactor(ps + [p] + qs) == StrikeRateFactor(ps + qs)
  {
    SampleSkipsSentinel(ps, p, qs, StrikeRate);
  }

  /** Adding a player with no data at all to a non-empty squad leaves the
      score unchanged. */
  lemma SentinelPlayerKeepsStrength(t: TeamRecord, p: PlayerRecord, k: nat)
    requires 0 < |t.players| && k <= |t.players|
    requires p.battingAverage == 0.0 && p.strikeRate == 0.0
    requires p.bowlingAverage == 0.0 || p.wicketsTaken == 0
    ensures Strength(t.(players := t.players[..k] + [p] + t.players[k..])) == Strength(t)
  {
    var ps, qs := t.players[..k], t.players[k..];
    assert ps + qs == t.players;
    BattingIgnoresSentinel(ps, p, qs);
    BowlingIgnoresSentinel(ps, p, qs);
    StrikeRateIgnoresSentinel(ps, p, qs);
  }

  /** Turning one loss into a win keeps the meaningful games and raises the
      win rate by exactly one game's share. */
  lemma WinRateRises(t: TeamRecord)
    requires t.losses > 0
    ensures var t' := t.(wins := t.wins + 1, losses := t.losses - 1);
            MeaningfulGames(t') == MeaningfulGames(t)
            && WinRate(t') == WinRate(t) + 1.0 / MeaningfulGames(t) as real
  {
    var t' := t.(wins := t.wins + 1, losses := t.losses - 1);
    var m := MeaningfulGames(t) as real;
    assert MeaningfulGames(t') == MeaningfulGames(t) > 0;
    assert (WinRate(t) + 1.0 / m) * m == WinRate(t) * m + 1.0;
    assert WinRate(t') * m == (WinRate(t) + 1.0 / m) * m;
  }

  /** Turning one loss into a win, everything else fixed, does not lower the score. */
  lemma MoveLossToWin(t: TeamRecord)
    requires t.losses > 0
    ensures Strength(t) <= Strength(t.(wins := t.wins + 1, losses := t.losses - 1))
  {
    var t' := t.(wins := t.wins + 1, losses := t.losses - 1);
    WinRateRises(t);
    assert RunDifference(t') == RunDifference(t);
    CombineMonotone(WinRate(t), BattingStrength(t.players), BowlingStrength(t.players),
                    RunDiffFactor(t), StrikeRateFactor(t.players),
                    WinRate(t'), BattingStrength(t'.players), BowlingStrength(t'.players),
                    RunDiffFactor(t'), StrikeRateFactor(t'.players));
    ClampMonotone(RawStrength(t), RawStrength(t'), 0.0, 1.0);
  }

  /** Higher batting averages are better: of two squads, the one with the
      higher mean has at least the batting strength. An empty squad fits the
      same scale, since its 0.5 is the strength of the fallback average 25. */
  lemma BattingStrengthMonotone(ps: seq<PlayerRecord>, qs: seq<PlayerRecord>)
    requires MeanBattingAverage(ps) <= MeanBattingAverage(qs)
    ensures BattingStrength(ps) <= BattingStrength(qs)
  {
  }

  /** Lower bowling averages are better: of two squads, the one with the
      lower mean has at least the bowling strength. An empty squad fits the
      same scale, since its 0.5 is the strength of the fallback average 35. */
  lemma BowlingStrengthAntitone(ps: seq<PlayerRecord>, qs: seq<PlayerRecord>)
    requires MeanBowlingAverage(ps) <= MeanBowlingAverage(qs)
    ensures BowlingStrength(qs) <= BowlingStrength(ps)
  {
  }

  /** Higher strike rates are better: of two non-empty squads, the one with
      the higher mean has at least the strike-rate factor. An empty squad's
      0.5 is below the 0.64 of the fallback rate 80, so both must be non-empty. */
  lemma StrikeRateFactorMonotone(ps: seq<PlayerRecord>, qs: seq<PlayerRecord>)
    requires |ps| > 0 && |qs| > 0
    requires MeanStrikeRate(ps) <= MeanStrikeRate(qs)
    ensures StrikeRateFactor(ps) <= StrikeRateFactor(qs)
  {
  }

  /** If every qualifying batting average is 50 or more, batting strength is 1. */
  lemma BattingSaturates(ps: seq<PlayerRecord>)
    requires exists i :: 0 <= i < |ps| && Qualifies(ps[i], Batting)
    requires forall i :: 0 <= i < |ps| && Qualifies(ps[i], Batting) ==> ps[i].battingAverage >= 50.0
    ensures BattingStrength(ps) == 1.0
  {
    var xs := Sample(ps, Batting);
    SampleMembers(ps, Batting);
    forall j | 0 <= j < |xs|
      ensures 50.0 <= xs[j]
    {
      assert xs[j] in xs;
    }
    AvgAtLeast(xs, BattingFallback, 50.0);
  }

  /** If every qualifying bowling average is 50 or more, bowling strength is 0. */
  lemma BowlingBottomsOut(ps: seq<PlayerRecord>)
    requires exists i :: 0 <= i < |ps| && Qualifies(ps[i], Bowling)
    requires forall i :: 0 <= i < |ps| && Qualifies(ps[i], Bowling) ==> ps[i].bowlingAverage >= 50.0
    ensures BowlingStrength(ps) == 0.0
  {
    var xs := Sample(ps, Bowling);
    SampleMembers(ps, Bowling);
    forall j | 0 <= j < |xs|
      ensures 50.0 <= xs[j]
    {
      assert xs[j] in xs;
    }
    AvgAtLeast(xs, BowlingFallback, 50.0);
  }

  /** If every qualifying bowling average is below 20, bowling strength exceeds 1. */
  lemma BowlingExceedsOne(ps: seq<PlayerRecord>, hi: real)
    requires hi < 20.0
    requires exists i :: 0 <= i < |ps| && Qualifies(ps[i], Bowling)
    requires forall i :: 0 <= i < |ps| && Qualifies(ps[i], Bowling) ==> ps[i].bowlingAverage <= hi
    ensures BowlingStrength(ps) > 1.0
  {
    var xs := Sample(ps, Bowling);
    SampleMembers(ps, Bowling);
    forall j | 0 <= j < |xs|
      ensures xs[j] <= hi
    {
      assert xs[j] in xs;
    }
    AvgAtMost(xs, BowlingFallback, hi);
  }

  /** If every qualifying strike rate is 120 or more, the factor reaches its ceiling 0.96. */
  lemma StrikeRateSaturates(ps: seq<PlayerRecord>)
    requires exists i :: 0 <= i < |ps| && Qualifies(ps[i], StrikeRate)
    requires forall i :: 0 <= i < |ps| && Qualifies(ps[i], StrikeRate) ==> ps[i].strikeRate >= 120.0
    ensures StrikeRateFactor(ps) == 0.96
  {
    var xs := Sample(ps, StrikeRate);
    SampleMembers(ps, StrikeRate);
    forall j | 0 <= j < |xs|
      ensures 120.0 <= xs[j]
    {
      assert xs[j] in xs;
    }
    AvgAtLeast(xs, StrikeRateFallback, 120.0);
  }

  /** A worked case: 10 wins and 5 losses, 2500 runs scored and 2200
      conceded, one player batting 40 with strike rate 90 and no bowling
      record. The factors are 2/3, 0.8, 0.5, 0.7 and 0.72, and the score is
      1993/3000 (about 0.6643). */
  lemma WorkedExample()
    ensures var t := TeamRecord(10, 5, 0, 0, 2500, 2200, [PlayerRecord(40.0, 0.0, 0, 90.0)]);
            Strength(t) == 1993.0 / 3000.0
  {
    var p := PlayerRecord(40.0, 0.0, 0, 90.0);
    var t := TeamRecord(10, 5, 0, 0, 2500, 2200, [p]);
    assert [p][1..] == [];
    assert Sample(t.players, Batting) == [40.0];
    assert Sample(t.players, Bowling) == [];
    assert Sample(t.players, StrikeRate) == [90.0];
    assert WinRate(t) == 2.0 / 3.0;
    assert RunDifference(t) == 20.0;
    assert [40.0][1..] == [] && [90.0][1..] == [];
    assert MeanBattingAverage(t.players) == 40.0;
    assert MeanStrikeRate(t.players) == 90.0;
    assert BattingStrength(t.players) == 0.8;
    assert BowlingStrength(t.players) == 0.5;
    assert StrikeRateFactor(t.players) == 0.72;
  }
}
