# Cricket team-strength score

This project models the team-strength score that the sports-prediction agent computes for each team. The score is the body of the `calculate_team_strength` tool in `src/agent_tools.py`. It reads one team record and returns one number in [0, 1]:

- a team with no games scores a neutral 0.5;
- otherwise five factors are combined with weights 0.35, 0.25, 0.25, 0.10 and 0.05, and the sum is clamped to [0, 1]. The factors are:
  - the win rate over meaningful games, which leave out no-results;
  - a batting strength;
  - a bowling strength;
  - a run-difference factor;
  - a strike-rate factor.
- Each player factor averages a statistic over the players whose value carries data. A zero is a "no data" sentinel. For bowling, the player must also have taken a wicket.
- A squad with players but no data falls back to fixed averages of 25, 35 and 80. An empty squad uses 0.5 for all three player factors directly.

All arithmetic is exact over `real`. The Python floats are treated as exact rationals.

Files:

- `stats.dfy` (module `Stats`): `Min`, `Max`, `Clamp`, `Sum`, and `AvgOr`, which averages a sample or returns a fallback when it is empty. Also the bound lemmas for sums and means.
- `records.dfy` (module `Records`): the `TeamRecord` and `PlayerRecord` datatypes, with only the fields the scorer reads. Also `Sample`, the per-statistic list of qualifying values (the three Python list comprehensions), and its lemmas.
- `strength.dfy` (module `TeamStrength`): the weights and fallback constants, one function per factor, the weighted sum, and `Strength`.
- `scorer.dfy` (module `Scorer`): the scoring body written step by step, in the tool's own order. Each statistic is accumulated in one pass over the squad. It is proved to return `Strength`.
- `properties.dfy` (module `StrengthProperties`): lemmas that relate several factors or several calls.

Two consequences of the code worth stating:

- Bowling strength is `max(0, 1 - (avg - 20) / 30)` with no upper cap (src/agent_tools.py:96). So a mean bowling average below 20 gives a value above 1, up to (but never reaching) 5/3, and the final clamp to [0, 1] can bind from above. `BowlingAboveOne` and `ClampCanBind` prove this. With counts typed as natural numbers, every factor is non-negative, so the clamp never binds from below (`RawStrengthNonNegative`).
- For a team with 10 wins, 5 losses, 2500 runs scored and 2200 conceded, and one player batting 40 with strike rate 90 and no bowling record, the factors are 2/3, 0.8, 0.5, 0.7 and 0.72. The exact score is 1993/3000 (`WorkedExample`).

## Model

| member | source | states |
|---|---|---|
| Stats.Clamp | src/agent_tools.py:117 | With lo <= hi, the result lies in [lo, hi]. It equals x inside the range and the nearer bound outside it. |
| Stats.AvgOr | src/agent_tools.py:68-72 | An empty sample gives the fallback. Otherwise the result times the sample size equals the sample's sum. |
| Stats.AvgPositive | src/agent_tools.py:65-72 | A non-empty sample of positive values has a positive mean. |
| Stats.AvgAtLeast | src/agent_tools.py:68-72 | The mean of a non-empty sample is at least any lower bound of its elements. |
| Stats.AvgAtMost | src/agent_tools.py:80-84 | The mean of a non-empty sample is at most any upper bound of its elements. |
| Records.Field | src/agent_tools.py:66-87 | The value the scorer reads for a statistic (batting average, bowling average or strike rate) is never negative. |
| Records.Qualifies | src/agent_tools.py:66-87 | A qualifying value is positive. Batting and strike rate qualify exactly when positive. Bowling qualifies exactly when `bowling_average > 0 and wickets_taken > 0` (line 78). |
| Records.Sample | src/agent_tools.py:65-87 | The sample is no longer than the squad and holds only positive values. It is empty exactly when no player qualifies for the statistic. |
| Records.SampleMembers | src/agent_tools.py:75-79 | A value is in the sample exactly when some player qualifies and has that value. For bowling, qualifying means a positive average and at least one wicket. |
| Records.SampleSkipsSentinel | src/agent_tools.py:65-67 | Inserting a non-qualifying player anywhere in the squad leaves the sample unchanged. |
| TeamStrength.TotalGames | src/agent_tools.py:37-42 | Total games are zero exactly when all four outcome counts are zero, and they are at least the wins and at least the no-results. |
| TeamStrength.MeaningfulGames | src/agent_tools.py:47 | Meaningful games plus no-results equal total games, and wins never exceed meaningful games. |
| TeamStrength.WinRate | src/agent_tools.py:47-51 | The win rate lies in [0, 1]. It is 0.5 when there are no meaningful games. Otherwise it times meaningful games equals wins. |
| TeamStrength.RunDifference | src/agent_tools.py:54-59 | The run difference is 0 without meaningful games. Otherwise it times meaningful games equals runs scored minus runs conceded. |
| TeamStrength.NormalizeRunDifference | src/agent_tools.py:106 | The factor lies in [0, 1]. It is 0 at a difference of -50 or below and 1 at +50 or above. In between it is linear around 0.5. |
| TeamStrength.RunDiffFactor | src/agent_tools.py:54-106 | The run-difference factor lies in [0, 1]. It is exactly 0.5 when every game was a no-result. |
| TeamStrength.MeanBattingAverage | src/agent_tools.py:65-72 | The fallback is 25 when no player has a batting average. Otherwise the mean is positive. |
| TeamStrength.MeanBowlingAverage | src/agent_tools.py:75-84 | The fallback is 35 when no player both has a bowling average and has taken a wicket. Otherwise the mean is positive. |
| TeamStrength.MeanStrikeRate | src/agent_tools.py:87-90 | The fallback is 80 when no player has a strike rate. Otherwise the mean is positive. |
| TeamStrength.BattingStrength | src/agent_tools.py:93-101 | Batting strength lies in [0, 1]. It is 0.5 for an empty squad or a squad without batting data. It is the mean over 50 up to a mean of 50, and 1 from there on. |
| TeamStrength.BowlingStrength | src/agent_tools.py:96-102 | Bowling strength lies in [0, 5/3). It is 0.5 for an empty squad or a squad without bowling data. It is 1 - (mean - 20) / 30 up to a mean of 50, and 0 from there on. |
| TeamStrength.StrikeRateFactor | src/agent_tools.py:99-103 | The factor lies in [0, 0.96]. It is 0.5 for an empty squad and 0.64 for a squad without strike-rate data. It is 0.8 times the mean over 100 up to a mean of 120, and 0.96 from there on. |
| TeamStrength.Combine | src/agent_tools.py:109-115 | Non-negative factors give a non-negative sum, and factors at most 1 give a sum at most 1. The individual weights are fixed by `CombineWeights`, their sum by `CombineOfEqualFactors` and monotonicity by `CombineMonotone`. |
| TeamStrength.RawStrength | src/agent_tools.py:109-115 | The weighted sum is at least 0 and below 0.35 + 0.25 + 0.25 * 5/3 + 0.10 + 0.05 * 0.96. It is at most 1 whenever bowling strength is at most 1. |
| TeamStrength.Strength | src/agent_tools.py:37-117 | The score always lies in [0, 1]. It is exactly 0.5 for a team with no games. |
| Scorer.SumQualifying | src/agent_tools.py:65-69 | One pass over the squad yields the sum and the count of the qualifying values of a statistic. |
| Scorer.MeanOrFallback | src/agent_tools.py:80-84 | The one-pass mean equals the average of the sample, and equals the fallback when no player qualifies. |
| Scorer.CalculateTeamStrength | src/agent_tools.py:37-117 | The step-by-step computation returns the factored `Strength` and a value in [0, 1]. |
| StrengthProperties.CombineWeights | src/agent_tools.py:109-115 | All-zero factors combine to 0, and one more unit of a factor adds exactly its weight: 0.35 for the win rate (the most important, line 110), 0.25 for batting, 0.25 for bowling, 0.10 for the run difference and 0.05 for the strike rate. |
| StrengthProperties.CombineOfEqualFactors | src/agent_tools.py:109-115 | The weights sum to 1, so five equal factors combine to that same value. |
| StrengthProperties.CombineMonotone | src/agent_tools.py:109-115 | Raising any factor never lowers the weighted sum. |
| StrengthProperties.RawStrengthNonNegative | src/agent_tools.py:117 | The weighted sum is never negative. So a team with games scores min(weighted sum, 1). |
| StrengthProperties.BowlingAboveOne | src/agent_tools.py:96 | Bowling strength exceeds 1 exactly when the squad has bowling data and its mean bowling average is below 20. |
| StrengthProperties.ClampCanBind | src/agent_tools.py:117 | For a concrete team, the weighted sum exceeds 1 and the score is clamped to exactly 1. |
| StrengthProperties.AllNoResultsNeutral | src/agent_tools.py:47-59 | When every game is a no-result, the win rate and the run-difference factor are 0.5. With an empty squad as well, the score is 0.5. |
| StrengthProperties.NoPlayerDataPaths | src/agent_tools.py:68-103 | With no usable player data, batting and bowling strength are both 0.5. The strike-rate factor is 0.5 for an empty squad but 0.64 for a non-empty one. |
| StrengthProperties.BattingIgnoresSentinel | src/agent_tools.py:65-67 | A player with batting average 0, inserted anywhere, changes neither the mean batting average nor a non-empty squad's batting strength. |
| StrengthProperties.BowlingIgnoresSentinel | src/agent_tools.py:75-79 | A player with bowling average 0 or no wickets, inserted anywhere, changes neither the bowling mean nor a non-empty squad's bowling strength. |
| StrengthProperties.StrikeRateIgnoresSentinel | src/agent_tools.py:87 | A player with strike rate 0, inserted anywhere, changes neither the strike-rate mean nor a non-empty squad's factor. |
| StrengthProperties.SentinelPlayerKeepsStrength | src/agent_tools.py:62-103 | Inserting a player with no data at all into a non-empty squad leaves the score unchanged. |
| StrengthProperties.WinRateRises | src/agent_tools.py:47-51 | Turning one loss into a win keeps the meaningful games fixed and raises the win rate by exactly one over the meaningful games. |
| StrengthProperties.MoveLossToWin | src/agent_tools.py:51 | Turning one loss into a win, with everything else fixed, never lowers the score. |
| StrengthProperties.BattingStrengthMonotone | src/agent_tools.py:64-93 | Of two squads, empty or not, the one with the higher mean batting average has at least the batting strength. |
| StrengthProperties.BowlingStrengthAntitone | src/agent_tools.py:74-96 | Of two squads, empty or not, the one with the lower mean bowling average has at least the bowling strength. |
| StrengthProperties.StrikeRateFactorMonotone | src/agent_tools.py:86-99 | Of two non-empty squads, the one with the higher mean strike rate has at least the strike-rate factor. |
| StrengthProperties.BattingSaturates | src/agent_tools.py:93 | If at least one player has batting data and every such player averages 50 or more, batting strength is 1. |
| StrengthProperties.BowlingBottomsOut | src/agent_tools.py:96 | If at least one player has bowling data and every such player averages 50 or more, bowling strength is 0. |
| StrengthProperties.BowlingExceedsOne | src/agent_tools.py:96 | If at least one player has bowling data and every such player averages below 20, bowling strength exceeds 1. |
| StrengthProperties.StrikeRateSaturates | src/agent_tools.py:99 | If at least one player has a strike rate and every such rate is 120 or more, the strike-rate factor is 0.96. |
| StrengthProperties.WorkedExample | src/agent_tools.py:37-119 | For the worked example team, the score is exactly 1993/3000. |

## Left out

- Fetching the team record: `DataService.get_team` (src/agent_tools.py:10-14) is an HTTP call. The model takes the record as a parameter.
- The tool wrappers: `register_tools`, `get_team_stats` and the tool registration (src/agent_tools.py:17-34) are framework glue and a pass-through fetch. The `print` calls (lines 25, 33 and 118) are console output.
- The agent (src/agent.py): model construction, prompt loading and the agent run are a language-model component.
- The CLI (main.py): argument parsing and console formatting.
- The mock API and its data (src/mocks/mock_api.py, src/mocks/mock_data.py): server routes and static data. The schemas in src/models/models.py describe football teams, not the cricket fields the scorer reads. The record types here follow the scorer.
- Floating point: IEEE-754 rounding is not modelled. All bounds are proved over exact reals.
- Input typing: counts, runs and wickets are natural numbers, and averages and strike rates are non-negative reals. The Python accepts any numbers. Negative averages would be filtered exactly like the zero sentinel, and negative runs would only move the clamped run-difference factor. Negative outcome counts are not modelled: they could make `meaningful_games` negative, so the division at line 51 could give a win rate outside [0, 1] and the lower clamp at line 117 could bind. The claim that the lower clamp never binds holds only under the natural-number typing.
