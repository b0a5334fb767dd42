# birdland-metrics data pipelines, modelled in Dafny

This project models the rating and season-outcome engine of the
birdland-metrics baseball pipelines. It covers the parts of the Python
`data-pipelines` tree that compute something. I/O is left out of the model:
feeds, files, buckets and tables become parameters, or they are left out and
listed below.

The modules follow the program's structure:

- **Shared layer** (`mlb_common`):
  - `Elo` holds the logistic expected score, the capped margin-of-victory multiplier and the zero-sum K-scaled rating shift.
  - `SharedFip` is the league FIP constant and per-pitcher FIP.
  - `Stats` holds the batting and pitching rates, each guarded by its denominator and rounded half-to-even.
  - `TeamCodes` holds the league and division partition and the maps between club-code families.
  - `Injury` covers injured players, their WAR with a prior-season fallback, and the penalty for positive WAR lost.
- **Lambdas**:
  - `EloCompute` and `GameResults` update ratings and record finished games.
  - `ScheduleSync` merges schedule rows.
  - `OriolesDashboard` covers standings, recent games and spring records.
  - `CoreBenchmarks` covers the benchmark table.
  - `PreseasonLambda` covers the FIP constant, pitching and batting WAR, and the preseason adjustment.
  - `SeasonProjections` drives the Monte Carlo season simulator (`MonteCarlo`) and playoff odds (`Playoffs`: each division's best club, then the three best of the rest as wild cards).
- **Model-2026 scripts**:
  - `EnhancedModel` and `EnhancedInputs` are the adjustment model and its calibration replay. They cover starter FIP with regression to the league, rolling FIP, park scaling, bullpen, travel and injuries, then probability shrinkage, log loss, Brier score, calibration buckets and the parameter sweeps.
  - `RecomputeElo`, `ParkFactors`, `BallparkDistances` with `Travel`, `PitcherFip`, `PrecomputeFeatures`, `InjuryImpact`, `PreseasonAdjustment`, `FangraphsNetFwar` with `Transactions`, and `FangraphsDiagnostic`.
- **Maintenance scripts**:
  - `Fade`, `FadeBacktest` and `FadeBacktestScores` cover the preseason fade curves and their backtest.
  - `WarModes` covers the WAR-mode backtest.
  - `PreseasonElo` generates the preseason Elo.
  - `OffseasonWar` is the offseason WAR analysis.
  - `BootstrapRetrosheet` aggregates the Retrosheet data.
  - `CoreBenchmarks` also covers the script's benchmark variant.
  - `Backfill` backfills the 2025 playoff odds.
- **Shared helpers**: `Wrappers` (Option and Result), `RealMath` (a record of lawful `10**x`, `ln`, `exp` and `cos`), `Rounding` (Python's half-even `round`), `Decimal` (the printed decimal form), `Text`, `Sorting`, `Sums`, `Folds`, `Weighted`, `PairTables`, `ModelSchedule` and `SeasonReplay`.

Where the source updates state step by step, the model is imperative. The
Monte Carlo trial loop, the season replays, the bucket and sweep loops, and
the preseason compression are methods with loop invariants. Each is proved
against a specification function, and the promised properties are proved
about that function as lemmas.

Several scripts carry their own copies of the Elo formulas:

- `enhanced_model.py:87-99`
- `recompute_elo.py:94-99`
- `backtest-fade-curves.py:73-84`
- `backtest-war-modes.py:83-87`

These copies reuse the `Elo` definitions, with the K factor, the home
advantage and the optional cap passed explicitly. In `precompute_features.py`,
`get_pitcher_ids_from_fip` is `PrecomputeFeatures.StarterIds`: every pitcher
with three or more starts.


## Model

| member | source | states |
|---|---|---|
| Elo.ExpectedScore | data-pipelines/layers/mlb-pipeline-common/python/mlb_common/elo.py:9-21 | the win probability of a club given both ratings and its home advantage lies strictly between 0 and 1 |
| Elo.ExpectedScoreComplement | data-pipelines/layers/mlb-pipeline-common/python/mlb_common/elo.py:21 | on neutral ground the two clubs' expected scores add up to 1 |
| Elo.ExpectedScoreEven | data-pipelines/layers/mlb-pipeline-common/python/mlb_common/elo.py:21 | equal ratings on neutral ground give exactly 0.5 |
| Elo.ExpectedScoreMonotone | data-pipelines/layers/mlb-pipeline-common/python/mlb_common/elo.py:21 | the expected score rises strictly with the club's own rating and with home advantage, and falls strictly with the opponent's rating |
| Elo.MovMult | data-pipelines/layers/mlb-pipeline-common/python/mlb_common/elo.py:24-39 | the margin multiplier never exceeds the cap when one is configured, is non-negative, and is 0 for a zero run margin (the cap is optional because `MOV_CAP` is imported from a config that lacks it) |
| Elo.RawMovMultFacts | data-pipelines/layers/mlb-pipeline-common/python/mlb_common/elo.py:38 | the uncapped multiplier is non-negative and is 0 exactly for a zero run margin's log(1) |
| Elo.MovMultGapSymmetric | data-pipelines/layers/mlb-pipeline-common/python/mlb_common/elo.py:38 | only the sizes of the run margin and of the rating gap matter, not their signs |
| Elo.RawMovMultGapNonIncreasing | data-pipelines/layers/mlb-pipeline-common/python/mlb_common/elo.py:38 | for a fixed run margin a wider rating gap never raises the uncapped multiplier (blowouts by favourites count less) |
| Elo.EloShift | data-pipelines/layers/mlb-pipeline-common/python/mlb_common/elo.py:42-56 | the returned value is a shift, not a rating: for a positive `k * mov` it is positive iff the actual result beats the expected one, negative iff it falls short, and 0 when they agree |
| Elo.ApplyShift | data-pipelines/layers/mlb-pipeline-common/python/mlb_common/elo.py:53-56 | adding the shift to one club and subtracting it from the other keeps the sum of the two ratings, and each rating moves by exactly the shift |
| Elo.MovMultAsWritten | data-pipelines/layers/mlb-pipeline-common/python/mlb_common/elo.py:6-39 | the multiplier with its cap imported from the configuration: it fails exactly when the configuration defines no `MOV_CAP`, and otherwise is the multiplier capped at that setting |
| Elo.ShippedConfigFails | data-pipelines/layers/mlb-pipeline-common/python/mlb_common/elo.py:6 | with the configuration the shared layer ships, which defines no `MOV_CAP`, every call fails |
| SharedFip.Qualified | data-pipelines/layers/mlb-pipeline-common/python/mlb_common/fip.py:40-60 | the parsed pitchers are those splits with at least one inning, in feed order, so there are never more of them than splits |
| SharedFip.QualifiedIds | data-pipelines/layers/mlb-pipeline-common/python/mlb_common/fip.py:46-49 | a split is kept exactly when its innings (a missing or empty field reading as 0) reach one |
| SharedFip.CollectPitchers | data-pipelines/layers/mlb-pipeline-common/python/mlb_common/fip.py:41-60 | the parsing loop produces exactly the qualified pitchers |
| SharedFip.LeagueFipAsWritten | data-pipelines/layers/mlb-pipeline-common/python/mlb_common/fip.py:62-84 | the league constant and league FIP as written: they exist exactly when the total innings are non-zero, and league FIP is then league ERA |
| SharedFip.NoPitchersFails | data-pipelines/layers/mlb-pipeline-common/python/mlb_common/fip.py:70-71 | with no qualified pitcher the league component divides by zero, although the ERA line has its 4.00 fallback |
| SharedFip.LeagueFip | data-pipelines/layers/mlb-pipeline-common/python/mlb_common/fip.py:70-84 | the guarded league FIP equals league ERA, and 4.00 for an empty league |
| SharedFip.LeagueFipAgrees | data-pipelines/layers/mlb-pipeline-common/python/mlb_common/fip.py:62-84 | for any non-empty list of qualified pitchers (where the written computation succeeds) it yields the guarded constant and league FIP |
| SharedFip.WeightedSum | data-pipelines/layers/mlb-pipeline-common/python/mlb_common/fip.py:63-77 | for any constant, innings times FIP summed over the league is (constant + league component) times the total innings |
| SharedFip.WeightedMeanIsLeagueFip | data-pipelines/layers/mlb-pipeline-common/python/mlb_common/fip.py:63-84 | the innings-weighted mean of the unrounded individual FIPs is league FIP |
| SharedFip.FipTable | data-pipelines/layers/mlb-pipeline-common/python/mlb_common/fip.py:75-82 | the published dict has an entry for every pitcher id and no other key |
| SharedFip.FipTableEntry | data-pipelines/layers/mlb-pipeline-common/python/mlb_common/fip.py:76-82 | each entry carries the last listed pitcher with that id: its innings, its name, and its FIP rounded to within half a thousandth of the unrounded value |
| SharedFip.BuildFipTable | data-pipelines/layers/mlb-pipeline-common/python/mlb_common/fip.py:75-82 | the loop builds exactly the published dict |
| SharedFip.FetchPitcherFip | data-pipelines/layers/mlb-pipeline-common/python/mlb_common/fip.py:15-87 | the whole computation over a fetched feed fails exactly when no pitcher qualifies, and otherwise returns the FIP dict and league ERA as league FIP |
| SharedFip.FipAdjustment | data-pipelines/layers/mlb-pipeline-common/python/mlb_common/fip.py:90-112 | a side whose starter id is missing, falsy or not in the dict gets 0; otherwise (league FIP − starter FIP) × weight |
| SharedFip.FipAdjustmentSign | data-pipelines/layers/mlb-pipeline-common/python/mlb_common/fip.py:94-109 | for a positive weight a starter better than the league earns a positive adjustment and a worse one a negative adjustment |
| SharedFip.Shrink | data-pipelines/layers/mlb-pipeline-common/python/mlb_common/fip.py:115-130 | for 0 ≤ s < 0.5 a probability in [0, 1] lands in [s, 1 − s] |
| SharedFip.ShrinkSymmetric | data-pipelines/layers/mlb-pipeline-common/python/mlb_common/fip.py:119-130 | shrinkage fixes 0.5 and treats the two sides alike: shrinking 1 − p gives 1 minus the shrunk p |
| SharedFip.ShrinkMonotone | data-pipelines/layers/mlb-pipeline-common/python/mlb_common/fip.py:130 | shrinkage with s < 0.5 keeps the order of probabilities strictly |
| SharedFip.ShrinkExamples | data-pipelines/layers/mlb-pipeline-common/python/mlb_common/fip.py:119-122 | with the configured 0.16, 0.70 becomes 0.636, 0.30 becomes 0.364 and 0.50 stays 0.50 |
| Stats.BattingAvg | data-pipelines/layers/mlb-pipeline-common/python/mlb_common/stats.py:4-6 | 0 when there are no at-bats; otherwise within half a thousandth of H / AB and a three-decimal number |
| Stats.Obp | data-pipelines/layers/mlb-pipeline-common/python/mlb_common/stats.py:9-12 | 0 when the denominator AB + BB + HBP + SF is not positive; otherwise within half a thousandth of (H + BB + HBP) over it, on the three-decimal grid |
| Stats.TotalBases | data-pipelines/layers/mlb-pipeline-common/python/mlb_common/stats.py:19-20 | total bases equal H + 2B + 2·3B + 3·HR: every hit once, plus one per extra base |
| Stats.Slg | data-pipelines/layers/mlb-pipeline-common/python/mlb_common/stats.py:15-21 | 0 when there are no at-bats (negative at-bats also give 0); otherwise within half a thousandth of total bases over at-bats, on the three-decimal grid |
| Stats.Ops | data-pipelines/layers/mlb-pipeline-common/python/mlb_common/stats.py:24-26 | within half a thousandth of OBP + SLG |
| Stats.OpsOfRounded | data-pipelines/layers/mlb-pipeline-common/python/mlb_common/stats.py:24-26 | for published three-decimal OBP and SLG the rounding changes nothing: OPS is exactly their sum |
| Stats.Woba | data-pipelines/layers/mlb-pipeline-common/python/mlb_common/stats.py:29-36 | 0 only when the denominator is exactly zero; otherwise within half a thousandth of the linear-weights numerator over the denominator |
| Stats.WobaWeightsOrdered | data-pipelines/layers/mlb-pipeline-common/python/mlb_common/stats.py:34-35 | the weights are ordered: walk < hit-by-pitch < single < double < triple < home run, all positive |
| Stats.IpFromOuts | data-pipelines/layers/mlb-pipeline-common/python/mlb_common/stats.py:39-43 | whole innings plus the extra outs as a tenths digit (10 outs show as 3.1) |
| Stats.IpFromOutsRoundTrip | data-pipelines/layers/mlb-pipeline-common/python/mlb_common/stats.py:39-43 | the notation loses nothing: the outs can be read back, and the tenths part is at most 0.2 |
| Stats.IpDecimal | data-pipelines/layers/mlb-pipeline-common/python/mlb_common/stats.py:46-48 | positive outs give outs / 3 innings, anything else 0, never negative |
| Stats.PerNineInnings | data-pipelines/layers/mlb-pipeline-common/python/mlb_common/stats.py:51-80 | nine times a count per decimal inning is 27 times the count per out |
| Stats.Era | data-pipelines/layers/mlb-pipeline-common/python/mlb_common/stats.py:51-54 | 0 without outs; otherwise within half a hundredth of 9·ER / IP |
| Stats.Whip | data-pipelines/layers/mlb-pipeline-common/python/mlb_common/stats.py:57-60 | 0 without outs; otherwise within half a hundredth of (H + BB) / IP |
| Stats.Fip | data-pipelines/layers/mlb-pipeline-common/python/mlb_common/stats.py:63-68 | 0 without outs; otherwise within half a hundredth of (13·HR + 3·(BB + HBP) − 2·SO) / IP plus the constant (3.10 by default) |
| Stats.KPer9 | data-pipelines/layers/mlb-pipeline-common/python/mlb_common/stats.py:71-74 | 0 without outs; otherwise within half a hundredth of 9·SO / IP |
| Stats.BbPer9 | data-pipelines/layers/mlb-pipeline-common/python/mlb_common/stats.py:77-80 | 0 without outs; otherwise within half a hundredth of 9·BB / IP |
| TeamCodes.ScheduleToEloInjective | data-pipelines/layers/mlb-pipeline-common/python/mlb_common/team_codes.py:9-20 | the rating-file table has 8 rows whose keys are distinct and whose values are distinct |
| TeamCodes.EloToScheduleInverse | data-pipelines/layers/mlb-pipeline-common/python/mlb_common/team_codes.py:11-23 | both tables have 8 entries and the reversed table is the exact inverse of the forward one in both directions |
| TeamCodes.NormalizeTeamCode | data-pipelines/layers/mlb-pipeline-common/python/mlb_common/team_codes.py:90-103 | the identity for every source other than "elo"; with "elo" the 8 rating-file codes are translated and every other code is kept |
| TeamCodes.RowsDisjoint | data-pipelines/layers/mlb-pipeline-common/python/mlb_common/team_codes.py:11-20 | no canonical value of the table is also one of its rating-file keys |
| TeamCodes.CanonicalNotRetrosheet | data-pipelines/layers/mlb-pipeline-common/python/mlb_common/team_codes.py:11-23 | no canonical code is itself a rating-file code |
| TeamCodes.NormalizeIdempotent | data-pipelines/layers/mlb-pipeline-common/python/mlb_common/team_codes.py:101-102 | normalising twice is normalising once, for every source |
| TeamCodes.LeagueKeysDistinct | data-pipelines/layers/mlb-pipeline-common/python/mlb_common/team_codes.py:26-33 | the league table lists 30 distinct clubs |
| TeamCodes.NameKeysDistinct | data-pipelines/layers/mlb-pipeline-common/python/mlb_common/team_codes.py:45-76 | the full-name table lists 30 distinct names |
| TeamCodes.LeagueDivisionSameKeys | data-pipelines/layers/mlb-pipeline-common/python/mlb_common/team_codes.py:26-42 | the league and division dicts have the same 30 keys |
| TeamCodes.DivisionNamesCarryLeague | data-pipelines/layers/mlb-pipeline-common/python/mlb_common/team_codes.py:26-42 | every club's division name begins with that club's league |
| TeamCodes.BlockTeams | data-pipelines/layers/mlb-pipeline-common/python/mlb_common/team_codes.py:35-42 | each division holds exactly the five clubs of its row of the table |
| TeamCodes.SixDivisionsOfFive | data-pipelines/layers/mlb-pipeline-common/python/mlb_common/team_codes.py:35-42 | there are six distinct division names, every club is in one of them, and each has exactly five clubs |
| TeamCodes.IdKeysAscending | data-pipelines/layers/mlb-pipeline-common/python/mlb_common/team_codes.py:80-87 | the numeric ids of the id table are listed in strictly increasing order, so they are distinct |
| TeamCodes.IdTableBijective | data-pipelines/layers/mlb-pipeline-common/python/mlb_common/team_codes.py:79-87 | the id table maps 30 ids one-to-one onto exactly the 30 clubs of the league table |
| TeamCodes.NameTableBijective | data-pipelines/layers/mlb-pipeline-common/python/mlb_common/team_codes.py:44-76 | the full-name table maps 30 names one-to-one onto exactly the 30 clubs of the league table |
| TeamCodes.MlbTablesSameKeys | data-pipelines/layers/mlb-pipeline-common/python/mlb_common/team_codes.py:26-42 | the league and division tables the pipeline passes around cover the same 30 clubs |
| TeamCodes.TableOrder | data-pipelines/layers/mlb-pipeline-common/python/mlb_common/team_codes.py:35-42 | the clubs in the division table's row order: 30 of them, exactly the table's keys |
| Injury.ContainsOccurs | data-pipelines/layers/mlb-pipeline-common/python/mlb_common/injury.py:52 | Python's substring test `'Injured' in s` holds exactly when the text occurs at some position of `s` |
| Injury.IlPlayersExact | data-pipelines/layers/mlb-pipeline-common/python/mlb_common/injury.py:50-59 | the injured list holds exactly the roster rows whose status contains "Injured", in roster order, each flagged a pitcher iff listed at position P; never longer than the roster |
| Injury.CollectIlPlayers | data-pipelines/layers/mlb-pipeline-common/python/mlb_common/injury.py:50-59 | the roster loop builds exactly that injured list |
| Injury.IlRostersFromFeed | data-pipelines/layers/mlb-pipeline-common/python/mlb_common/injury.py:40-62 | every listed club has a non-empty injured list, taken from a fetched roster of a club with that code |
| Injury.IlRostersComplete | data-pipelines/layers/mlb-pipeline-common/python/mlb_common/injury.py:40-62 | a club whose roster was fetched and has injured players, and whose code no other club shares, is listed with its injured list |
| Injury.CollectIlRosters | data-pipelines/layers/mlb-pipeline-common/python/mlb_common/injury.py:40-63 | the loop over clubs skips failed fetches and clubs without injured players, giving exactly the injured-list dict |
| Injury.FetchIlRosters | data-pipelines/layers/mlb-pipeline-common/python/mlb_common/injury.py:22-68 | `fetch_il_rosters` visits the clubs sorted by code and returns the injured-list dict of that order |
| Injury.MergeWar | data-pipelines/layers/mlb-pipeline-common/python/mlb_common/injury.py:113-121 | the merged WAR table has exactly the ids of the batting and the pitching tables |
| Injury.MergeWarIsMax | data-pipelines/layers/mlb-pipeline-common/python/mlb_common/injury.py:118-121 | each merged value is one of the two table values and no smaller than either: the larger when both exist, else the one that exists |
| Injury.MergeWarLoop | data-pipelines/layers/mlb-pipeline-common/python/mlb_common/injury.py:114-121 | the merge loop, visiting the ids of both tables, builds exactly the merged table |
| Injury.RowIdsAreKeys | data-pipelines/layers/mlb-pipeline-common/python/mlb_common/injury.py:87-94 | the ids of a WAR table's rows are exactly the keys of `dict(zip(...))` built from them |
| Injury.BuildWarLookup | data-pipelines/layers/mlb-pipeline-common/python/mlb_common/injury.py:71-134 | `build_war_lookup` merges current and prior season tables the same way; a table that fails to load is empty |
| Injury.CrossRefUsable | data-pipelines/layers/mlb-pipeline-common/python/mlb_common/injury.py:142-146 | every mapped MLB id comes from a cross-reference row whose FanGraphs id is neither falsy nor −1, and maps to that id |
| Injury.CrossrefIds | data-pipelines/layers/mlb-pipeline-common/python/mlb_common/injury.py:137-148 | an empty id set maps to the empty dict without a lookup |
| Injury.LookupWar | data-pipelines/layers/mlb-pipeline-common/python/mlb_common/injury.py:179-191 | current-season WAR when the FanGraphs id is in the current table, else prior-season WAR when it is in the prior table, else unknown with no WAR |
| Injury.WarImpact | data-pipelines/layers/mlb-pipeline-common/python/mlb_common/injury.py:193-194 | only positive WAR counts as lost: the impact is never negative, equals a non-negative WAR, and is 0 for a missing or negative WAR |
| Injury.WarLostNonNegative | data-pipelines/layers/mlb-pipeline-common/python/mlb_common/injury.py:175-195 | a club's total WAR lost is never negative |
| Injury.EloPenalty | data-pipelines/layers/mlb-pipeline-common/python/mlb_common/injury.py:205 | for non-negative WAR lost and rate the rating change is never positive, and for a positive rate it is 0 exactly when no WAR was lost |
| Injury.TeamAdjustmentOf | data-pipelines/layers/mlb-pipeline-common/python/mlb_common/injury.py:174-213 | a club's record carries its code, one detail per injured player, and `il_count` equal to the number of injured players |
| Injury.AdjustmentIsPenalty | data-pipelines/layers/mlb-pipeline-common/python/mlb_common/injury.py:194-211 | a club's rounded WAR lost is non-negative, its rounded rating change is non-positive for a non-negative rate, and it counts every injured player |
| Injury.TeamAdjustmentFor | data-pipelines/layers/mlb-pipeline-common/python/mlb_common/injury.py:175-213 | the per-club loop body computes exactly that club's record |
| Injury.ComputeInjuryAdjustments | data-pipelines/layers/mlb-pipeline-common/python/mlb_common/injury.py:151-215 | one record per listed club, in ascending code order without repeats, each computed from that club's injured list; a missing rate means the configured default |
| Injury.AdjustmentsFor | data-pipelines/layers/mlb-pipeline-common/python/mlb_common/injury.py:174-213 | the loop over the sorted clubs computes one record per club in that order |
| Injury.FetchInjuryEloAdjustments | data-pipelines/layers/mlb-pipeline-common/python/mlb_common/injury.py:218-262 | one adjustment per listed club, each a non-positive rating change with non-negative WAR lost |
| ParkFactors.Park2025Rows | data-pipelines/model-2026-updates/park_factors.py:21-36 | the 2025 rows are the 2024 rows with ATH changed from 96 to 103 and TB from 96 to 101 |
| ParkFactors.Park2024Canonical | data-pipelines/model-2026-updates/park_factors.py:21-28 | the 2024 table lists exactly the 30 clubs of the league table, once each, with factors between 94 and 113 |
| ParkFactors.Seasons2023And2024Agree | data-pipelines/model-2026-updates/park_factors.py:13-28 | the 2023 and 2024 tables are identical |
| ParkFactors.Season2025Changes | data-pipelines/model-2026-updates/park_factors.py:21-36 | the 2025 table differs from the 2024 one only at ATH (96 to 103) and TB (96 to 101) |
| ParkFactors.ParkTablesCanonical | data-pipelines/model-2026-updates/park_factors.py:12-37 | every season's table has exactly the 30 canonical codes, with factors between 94 and 113 |
| ParkFactors.LookupBounds | data-pipelines/model-2026-updates/park_factors.py:43-46 | over tables sharing one key set and range, a team outside the keys gets the neutral 100 and a listed team a factor between 94 and 113 |
| ParkFactors.ParkFactorBounds | data-pipelines/model-2026-updates/park_factors.py:43-46 | a club outside the league table gets 100 in every season; a league club gets a factor between 94 and 113 |
| ParkFactors.UnknownSeasonFallsBack | data-pipelines/model-2026-updates/park_factors.py:39-45 | a missing season or one other than 2023–2025 reads the 2024 table |
| ParkFactors.SeasonFactors | data-pipelines/model-2026-updates/park_factors.py:13-46 | a club's 2023 factor is its 2024 factor, and so is its 2025 factor except ATH (103) and TB (101) |
| EnhancedInputs.LoadFipData | data-pipelines/model-2026-updates/enhanced_model.py:125-147 | one pass over the pitcher rows yields exactly the lookup tables and league FIP that the specification function `FipDataOf` defines |
| EnhancedInputs.FipByIdLastRow | data-pipelines/model-2026-updates/enhanced_model.py:132-136 | an id is loaded iff some row carries it, and it maps to the FIP and innings of the last such row |
| EnhancedInputs.FipByNameLastRow | data-pipelines/model-2026-updates/enhanced_model.py:135-138 | a name key is loaded iff some row with a non-blank name normalises to it, and it maps to the last such row's FIP and innings |
| EnhancedInputs.LeagueRowsFacts | data-pipelines/model-2026-updates/enhanced_model.py:139-140 | the rows feeding the league average all have at least 10 innings, keep any FIP bounds of the qualifying rows, and are empty iff no row has 10 innings |
| EnhancedInputs.LeagueFipBetween | data-pipelines/model-2026-updates/enhanced_model.py:141-146 | the league FIP never fails; it is 4.00 when no row qualifies and otherwise lies between the smallest and largest qualifying FIP |
| EnhancedInputs.LoadRollingFip | data-pipelines/model-2026-updates/enhanced_model.py:172-185 | a missing file gives an empty table; otherwise the loop builds exactly `RollingOf(file)` |
| EnhancedInputs.RollingNeedsThreeStarts | data-pipelines/model-2026-updates/enhanced_model.py:182-184 | (pitcher, date) is loaded iff some row for it has at least three starts in the window, with the FIP of the last such row |
| EnhancedInputs.LoadBullpenFip | data-pipelines/model-2026-updates/enhanced_model.py:188-210 | a missing file gives an empty table and 4.00; otherwise the loop builds exactly `BullpenOf(file)` |
| EnhancedInputs.BullpenKeysCanonical | data-pipelines/model-2026-updates/enhanced_model.py:196-202 | only clubs whose full name is in the name-to-code table are loaded, each under its code; other rows are skipped |
| EnhancedInputs.DistancesSymmetric | data-pipelines/model-2026-updates/enhanced_model.py:160-168 | the distance table holds (a, b) iff it holds (b, a), with the same mileage, whatever the row order |
| EnhancedInputs.LoadParkFactors | data-pipelines/model-2026-updates/enhanced_model.py:213-219 | the season's park table, or the default table for an unknown season; every table has the 30 canonical codes with factors between 94 and 113 |
| ModelSchedule.HomeWon | data-pipelines/model-2026-updates/enhanced_model.py:530 | the home side wins iff it scored more runs; a tie counts as a home loss |
| Travel.AddTeam | data-pipelines/model-2026-updates/enhanced_model.py:256-259 | the club order gains `t` and nothing else |
| Travel.Append | data-pipelines/model-2026-updates/enhanced_model.py:258-259 | appending to a defaultdict of lists: the club's list gets one more visit at the end, every other list is unchanged |
| Travel.AppendSides | data-pipelines/model-2026-updates/enhanced_model.py:257-259 | appending one game to both clubs' lists adds the game's visit to the history of each club that plays in it and of no other |
| Travel.GroupedIsHistory | data-pipelines/model-2026-updates/enhanced_model.py:256-259 | the grouped lists hold exactly the clubs of the schedule, each with its games in schedule order |
| Travel.GroupByTeam | data-pipelines/model-2026-updates/enhanced_model.py:256-259 | the first loop yields, for every club of the schedule and no other, the visits of its games in schedule order |
| Travel.AddTeamPart | data-pipelines/model-2026-updates/enhanced_model.py:264-266 | the second loop for one club adds exactly the entries "visit i maps to the venue of visit i - 1" to the tracker |
| Travel.BuildTravelTracker | data-pipelines/model-2026-updates/enhanced_model.py:249-267 | the method returns exactly the tracker that the specification function `Tracker` defines |
| Travel.TrackerUpToSpec | data-pipelines/model-2026-updates/enhanced_model.py:265-266 | within one club's date-sorted list, a date is keyed iff a visit after the first has that date, and it maps to the venue before the last such visit |
| Travel.TeamPartOwned | data-pipelines/model-2026-updates/enhanced_model.py:263-266 | every entry a club adds is keyed by that club |
| Travel.TrackerOverLookup | data-pipelines/model-2026-updates/enhanced_model.py:262-266 | a key is in the whole tracker iff it is in its own club's part, with the same value |
| Travel.HistoryInOrder | data-pipelines/model-2026-updates/enhanced_model.py:256-263 | every club that plays a game is among the clubs the tracker goes through |
| Travel.TrackerSpec | data-pipelines/model-2026-updates/enhanced_model.py:249-267 | (club, date) is tracked iff the club has a game on that date other than its first in date order, and it maps to the venue of the game just before the last game on that date |
| Travel.TravelPenalty | data-pipelines/model-2026-updates/enhanced_model.py:270-292 | the penalty is either 0 or the configured penalty |
| Travel.TravelPenaltyIff | data-pipelines/model-2026-updates/enhanced_model.py:278-291 | the penalty applies iff the club comes from another park at least 1000 miles away (a missing distance is 0) and moves two or more time zones east (a missing zone is -6) |
| SeasonReplay.Replay | data-pipelines/model-2026-updates/enhanced_model.py:418-570 | a successful replay yields one score per game |
| SeasonReplay.ReplayUsesPriorState | data-pipelines/model-2026-updates/enhanced_model.py:418-570 | each game's score is computed from the state left by the games before it |
| SeasonReplay.ErrorPersists | data-pipelines/model-2026-updates/enhanced_model.py:418-570 | once a prefix of the season fails, the whole replay fails |
| SeasonReplay.ReplayStep | data-pipelines/model-2026-updates/enhanced_model.py:418-570 | replaying one more game extends the scores by that game's score and advances the state by that game |
| EnhancedModel.ResolveFeatures | data-pipelines/model-2026-updates/enhanced_model.py:322-384 | a feature is on only if requested; a missing FIP file turns off both FIP features, and empty bullpen, park or distance data turn off their feature |
| EnhancedModel.LoadedFeatures | data-pipelines/model-2026-updates/enhanced_model.py:324-384 | with the loaders' own tables the park feature is never switched off, travel stays on exactly when the distance file has a row, bullpen exactly when a row names a major-league club, injuries exactly when the file exists |
| EnhancedModel.ParksNeverEmpty | data-pipelines/model-2026-updates/enhanced_model.py:355-361 | the park-factor table the loader returns is never empty, so the fallback branch cannot switch the park feature off |
| EnhancedModel.ShrunkFip | data-pipelines/model-2026-updates/enhanced_model.py:445 | the innings-weighted blend of the pitcher's FIP and the league FIP is defined exactly when innings plus prior are non-zero |
| EnhancedModel.ShrunkFipBetween | data-pipelines/model-2026-updates/enhanced_model.py:443-445 | with non-negative innings and prior, not both zero, the blended FIP lies between the pitcher's own FIP and the league FIP |
| EnhancedModel.ZeroPriorFails | data-pipelines/model-2026-updates/enhanced_model.py:445 | with a zero prior, a starter listed with zero innings makes the blend divide by zero |
| EnhancedModel.ShrunkFipIntended | data-pipelines/model-2026-updates/enhanced_model.py:711 | with a zero prior ("no regression") the pitcher's own FIP is kept; otherwise the value agrees with the as-written blend wherever that is defined |
| EnhancedModel.ShrunkFipIntendedBetween | data-pipelines/model-2026-updates/enhanced_model.py:711 | the intended blend never fails and lies between the pitcher's FIP and the league FIP for non-negative innings and prior |
| EnhancedModel.SeasonEntry | data-pipelines/model-2026-updates/enhanced_model.py:439-441 | the season entry is looked up by id first, then by normalised name when the schedule gives a name; none iff neither lookup succeeds |
| EnhancedModel.StarterFipPrecedence | data-pipelines/model-2026-updates/enhanced_model.py:433-445 | a rolling FIP for (starter, date) wins when rolling FIP is on and the starter has an id; otherwise the season entry is blended toward the league FIP; a starter without data gets none |
| EnhancedModel.FipPoints | data-pipelines/model-2026-updates/enhanced_model.py:461-466 | no FIP gives 0 points; with a positive weight the points are positive iff the starter's FIP is below the league FIP and negative iff above |
| EnhancedModel.ParkMultiplierFacts | data-pipelines/model-2026-updates/enhanced_model.py:470-477 | a neutral or unlisted park, or scale 0, leaves the FIP points as they are; with a scale in (0, 1] a hitters' park shrinks them and a pitchers' park enlarges them |
| EnhancedModel.BullpenPoints | data-pipelines/model-2026-updates/enhanced_model.py:483-500 | a club without bullpen data, or with the feature off, gets no bullpen points |
| EnhancedModel.InjuryPoints | data-pipelines/model-2026-updates/enhanced_model.py:513-521 | with injuries off, or for a club without injury data, no points are lost |
| EnhancedModel.ClubAdjustments | data-pipelines/model-2026-updates/enhanced_model.py:423-500 | the starter, park and bullpen adjustments of one game; without FIP features both starters' points are 0 |
| EnhancedModel.TravelPoints | data-pipelines/model-2026-updates/enhanced_model.py:502-510 | the away club loses either 0 or the configured travel penalty, and 0 when travel is off |
| EnhancedModel.GameAdjustments | data-pipelines/model-2026-updates/enhanced_model.py:423-521 | all adjustments of one game: the travel part is 0 or the penalty (0 with travel off), and the FIP parts are 0 without FIP features |
| EnhancedModel.TravelOnlyAway | data-pipelines/model-2026-updates/enhanced_model.py:502-508 | changing the travel penalty changes only the away club's travel points; every other adjustment stays as it was |
| EnhancedModel.HomeWinProb | data-pipelines/model-2026-updates/enhanced_model.py:523-527 | with a shrinkage s in [0, 0.5) the home-win probability lies in [s, 1 - s] |
| EnhancedModel.Clamp | data-pipelines/model-2026-updates/enhanced_model.py:538 | the clamped probability lies in [0.001, 0.999] and equals the input when that is already inside |
| EnhancedModel.LogLossPositive | data-pipelines/model-2026-updates/enhanced_model.py:537-539 | the log loss of a game is positive for either outcome |
| EnhancedModel.BrierBounds | data-pipelines/model-2026-updates/enhanced_model.py:542-543 | the Brier score of a probability in [0, 1] lies in [0, 1] |
| EnhancedModel.UpdateElo | data-pipelines/model-2026-updates/enhanced_model.py:97-99 | with a positive K times multiplier the rating rises iff the actual result beats the expected one |
| EnhancedModel.GameMov | data-pipelines/model-2026-updates/enhanced_model.py:566-567 | the multiplier is non-negative, and exactly 1.0 on a tie |
| EnhancedModel.Updated | data-pipelines/model-2026-updates/enhanced_model.py:565-570 | after a game the ratings cover the old clubs plus both sides of the game |
| EnhancedModel.UpdateZeroSum | data-pipelines/model-2026-updates/enhanced_model.py:565-570 | the update is zero-sum between the two clubs, the winner gains, and no other club's rating changes |
| EnhancedModel.RawMovMultPositive | data-pipelines/model-2026-updates/enhanced_model.py:92-94 | a win by at least one run gives a positive multiplier |
| EnhancedModel.Evaluate | data-pipelines/model-2026-updates/enhanced_model.py:418-563 | the kept record of a game carries the pre-game ratings, the actual outcome, and the log loss and Brier score of its probability |
| EnhancedModel.Season | data-pipelines/model-2026-updates/enhanced_model.py:418-570 | a completed season yields one record per game |
| EnhancedModel.SeasonUsesPriorRatings | data-pipelines/model-2026-updates/enhanced_model.py:418-570 | each game is scored on the ratings the games before it left, starting from the baseline |
| EnhancedModel.Summarize | data-pipelines/model-2026-updates/enhanced_model.py:572-576 | the summary counts the games, gives 0 for every mean of an empty season, an accuracy in [0, 1], and means that times the game count give the summed log loss and Brier score |
| EnhancedModel.ScoreBounds | data-pipelines/model-2026-updates/enhanced_model.py:537-544 | every scored game has a positive log loss and a Brier score in [0, 1] |
| EnhancedModel.SummaryBounds | data-pipelines/model-2026-updates/enhanced_model.py:572-576 | a season with a game has a positive mean log loss and a mean Brier score in [0, 1] |
| EnhancedModel.RunModel | data-pipelines/model-2026-updates/enhanced_model.py:297-636 | the game loop and summary agree with `Season` and `Summarize`; the run fails exactly when the season fails |
| EnhancedModel.BucketIndex | data-pipelines/model-2026-updates/enhanced_model.py:601-602 | `int(p * 10)` capped at 9 is the tenth that a non-negative probability falls in, and 9 from 0.9 on |
| EnhancedModel.Bucket | data-pipelines/model-2026-updates/enhanced_model.py:601-602 | a probability in [0, 1] lies in [b, b + 0.1) of its bucket, except that the last bucket also takes 1.0 |
| EnhancedModel.InBucketMembers | data-pipelines/model-2026-updates/enhanced_model.py:600-605 | every row of a bucket comes from the results and falls in that bucket |
| EnhancedModel.CalibrationBuckets | data-pipelines/model-2026-updates/enhanced_model.py:599-605 | the bucket loop builds exactly the table `Calibration` defines |
| EnhancedModel.CalibrationKeys | data-pipelines/model-2026-updates/enhanced_model.py:599-607 | a bucket is printed iff some row falls in it |
| EnhancedModel.CalibrationSpec | data-pipelines/model-2026-updates/enhanced_model.py:603-610 | a kept bucket holds its row count, summed probability and summed home wins, and its count is positive, so the printed means are defined |
| EnhancedModel.CountsAdd | data-pipelines/model-2026-updates/enhanced_model.py:603 | one more row adds one game to exactly one bucket |
| EnhancedModel.CalibrationTotal | data-pipelines/model-2026-updates/enhanced_model.py:599-605 | with no negative probability the bucket counts add up to the number of games |
| EnhancedModel.SeasonCalibration | data-pipelines/model-2026-updates/enhanced_model.py:599-605 | in a season run with a shrinkage in [0, 0.5) the buckets hold every game |
| EnhancedModel.SeasonProb | data-pipelines/model-2026-updates/enhanced_model.py:527 | every probability of a season run with a shrinkage in [0, 0.5) lies in [s, 1 - s] |
| EnhancedModel.BestIndexSpec | data-pipelines/model-2026-updates/enhanced_model.py:685-689 | the best run is the first with the smallest log loss below 999; there is none iff no run is below 999 |
| EnhancedModel.SelectBest | data-pipelines/model-2026-updates/enhanced_model.py:685-689 | the selection loop returns exactly `BestIndex` of the runs' log losses |
| EnhancedModel.Pairs | data-pipelines/model-2026-updates/enhanced_model.py:663-666 | nested loops over two ranges make one run per pair |
| EnhancedModel.PairsAt | data-pipelines/model-2026-updates/enhanced_model.py:663-666 | point (i, j) of the nested loops is run number i times the length of ys plus j, and pairs xs[i] with ys[j] |
| EnhancedModel.PairsMembers | data-pipelines/model-2026-updates/enhanced_model.py:663-666 | every point pairs a value of the outer range with one of the inner range |
| EnhancedModel.V1GridOrder | data-pipelines/model-2026-updates/enhanced_model.py:710-719 | the first sweep makes 150 runs, run (a * 5 + b) * 5 + c using FIP weight a, prior b and shrinkage c |
| EnhancedModel.V2GridOrder | data-pipelines/model-2026-updates/enhanced_model.py:655-666 | the second sweep makes 540 runs, run ((a * 6 + b) * 3 + c) * 5 + d using FIP weight a, bullpen weight b, park scale c and shrinkage d |
| EnhancedModel.SweepShrinkagesValid | data-pipelines/model-2026-updates/enhanced_model.py:655-712 | every run of both sweeps has a shrinkage in [0, 0.5) |
| EnhancedModel.V1RunsZeroPrior | data-pipelines/model-2026-updates/enhanced_model.py:711 | the first run of the first sweep uses a zero prior |
| EnhancedModel.RunOutcome | data-pipelines/model-2026-updates/enhanced_model.py:674-679 | a missing schedule or baseline makes the run return nothing; otherwise the run's summary, or the season's error |
| EnhancedModel.CollectSpec | data-pipelines/model-2026-updates/enhanced_model.py:663-692 | collecting run outcomes completes iff every run does, and then entry i is the outcome of grid point i |
| EnhancedModel.CollectErr | data-pipelines/model-2026-updates/enhanced_model.py:663-692 | once a run raises, the sweep stops with that error |
| EnhancedModel.SweepSpec | data-pipelines/model-2026-updates/enhanced_model.py:663-739 | a sweep completes iff every run completes, and then entry i is the outcome of grid point i |
| EnhancedModel.Losses | data-pipelines/model-2026-updates/enhanced_model.py:679-685 | one log loss per run, none for a run that returned nothing |
| EnhancedModel.SweepBestSpec | data-pipelines/model-2026-updates/enhanced_model.py:649-706 | the best run of a completed sweep has the smallest log loss, is the first with it, is below 999; without input files the sweep fails on the missing key |
| EnhancedModel.SweepParameters | data-pipelines/model-2026-updates/enhanced_model.py:639-770 | the sweep loop followed by the selection returns exactly `SweepBest` |
| RecomputeElo.FranchiseRowsCurrent | data-pipelines/model-2026-updates/recompute_elo.py:38-86 | the franchise table has 35 rows and every target is one of the 30 current clubs |
| RecomputeElo.CurrentNotRetrosheet | data-pipelines/model-2026-updates/recompute_elo.py:38-86 | no Retrosheet code in the franchise table is itself a current club code |
| RecomputeElo.MapTeamFacts | data-pipelines/model-2026-updates/recompute_elo.py:89-91 | a listed code goes to a current club, an unlisted code is kept, a current club keeps its code, and mapping twice is mapping once |
| RecomputeElo.StripLeading | data-pipelines/model-2026-updates/recompute_elo.py:110-115 | stripping leading quotes leaves a suffix of the field that does not start with a quote, and only quotes were removed |
| RecomputeElo.StripTrailing | data-pipelines/model-2026-updates/recompute_elo.py:110-115 | stripping trailing quotes leaves a prefix of the field that does not end with a quote, and only quotes were removed |
| RecomputeElo.StripQuotesSlice | data-pipelines/model-2026-updates/recompute_elo.py:110-115 | `strip('"')` yields a slice of the field with only quotes cut from either end |
| RecomputeElo.StripQuotesEnds | data-pipelines/model-2026-updates/recompute_elo.py:110-115 | the stripped field has no outer quote, an unquoted field is unchanged, and stripping twice is stripping once |
| RecomputeElo.ParseRow | data-pipelines/model-2026-updates/recompute_elo.py:106-128 | a line with fewer than 11 fields is skipped, and a parsed game carries the mapped codes of its raw clubs |
| RecomputeElo.ParsedGamesFromRows | data-pipelines/model-2026-updates/recompute_elo.py:102-129 | every parsed game comes from a line of at least 11 fields, and every line the row parser accepts gives a game |
| RecomputeElo.ParsedGamesMapped | data-pipelines/model-2026-updates/recompute_elo.py:121-122 | every parsed game carries its clubs' current franchise codes |
| RecomputeElo.ParseRetrosheetFile | data-pipelines/model-2026-updates/recompute_elo.py:102-129 | the loop over one log's lines returns exactly `ParsedGames` |
| RecomputeElo.ByDateAndNumberPreorder | data-pipelines/model-2026-updates/recompute_elo.py:144 | ordering by (date, game number) is a total preorder |
| RecomputeElo.AllGamesOrdered | data-pipelines/model-2026-updates/recompute_elo.py:132-145 | the games of all files are replayed in (date, game number) order, each exactly once |
| RecomputeElo.HomeResult | data-pipelines/model-2026-updates/recompute_elo.py:171-176 | the home result is 1 for a win, 0 for a loss and 0.5 for a tie |
| RecomputeElo.RetroMov | data-pipelines/model-2026-updates/recompute_elo.py:178-179 | the multiplier is non-negative and exactly 1.0 on a tie |
| RecomputeElo.Step | data-pipelines/model-2026-updates/recompute_elo.py:181-183 | after a game the ratings cover the old clubs plus both sides of the game |
| RecomputeElo.StepZeroSum | data-pipelines/model-2026-updates/recompute_elo.py:166-183 | a game keeps the sum of its two clubs' ratings, leaves the other clubs alone and moves the winner up |
| RecomputeElo.RowOf | data-pipelines/model-2026-updates/recompute_elo.py:185-195 | a history row holds the game's clubs, scores and date, and the ratings before and after it, each rounded to 4 places, while the replay carries the exact ratings |
| RecomputeElo.HistoryRow | data-pipelines/model-2026-updates/recompute_elo.py:154-195 | there is one history row per game, and row i is the rounded row of game i over the exact ratings the earlier games left |
| RecomputeElo.HistoryRowZeroSum | data-pipelines/model-2026-updates/recompute_elo.py:181-195 | for a game between two different clubs the written after-sum is within 0.0002 of the written before-sum, and each written rating is within 0.00005 of the exact one |
| RecomputeElo.RoundedSumError | data-pipelines/model-2026-updates/recompute_elo.py:191-194 | when the exact sums of two ratings before and after a game agree, the sums of their 4-place roundings differ by at most 0.0002, and each rounding by at most 0.00005 |
| RecomputeElo.Current | data-pipelines/model-2026-updates/recompute_elo.py:158-160 | the snapshot keeps exactly the current clubs among the rated ones, with their ratings |
| RecomputeElo.SeasonEndSpec | data-pipelines/model-2026-updates/recompute_elo.py:154-201 | a year has a season-end snapshot iff a game was played in it, taken after the last game of its last run of games |
| RecomputeElo.SeasonEndAfterLastGame | data-pipelines/model-2026-updates/recompute_elo.py:154-201 | replayed in date order, each year's snapshot is taken after its last game |
| RecomputeElo.PlayGame | data-pipelines/model-2026-updates/recompute_elo.py:163-195 | one game of the loop yields the next exact ratings and its rounded history row as `Step` and `RowOf` define them |
| RecomputeElo.ComputeElo | data-pipelines/model-2026-updates/recompute_elo.py:148-203 | the replay returns exactly the rounded history rows and the exact season-end snapshots that `History` and `SeasonEnd` define |
| EloCompute.StandardizeTeamFacts | data-pipelines/functions/mlb-elo-compute/lambda_function.py:35-37 | only the codes of the rating-file table change, and standardising twice is standardising once |
| EloCompute.StartRatingsKeys | data-pipelines/functions/mlb-elo-compute/lambda_function.py:53-61 | a club is rated at the start iff it is in the baseline or in this season's history file |
| EloCompute.SameRows | data-pipelines/functions/mlb-elo-compute/lambda_function.py:59-60 | sorting the history by date keeps who played home and away |
| EloCompute.StartFromLastAway | data-pipelines/functions/mlb-elo-compute/lambda_function.py:59-61 | a club that played away this season starts from its last away value in date order, whatever it did at home |
| EloCompute.StartFromLastHome | data-pipelines/functions/mlb-elo-compute/lambda_function.py:59-61 | a club that played only at home starts from its last home value |
| EloCompute.StartFromBaseline | data-pipelines/functions/mlb-elo-compute/lambda_function.py:53-61 | a club absent from this season's history keeps its baseline rating |
| EloCompute.LatestInDateOrder | data-pipelines/functions/mlb-elo-compute/lambda_function.py:59 | the history is replayed sorted by date and as a permutation of its rows |
| EloCompute.DayGamesSpec | data-pipelines/functions/mlb-elo-compute/lambda_function.py:66 | a game is processed iff its row is dated yesterday and has both scores |
| EloCompute.ResultHome | data-pipelines/functions/mlb-elo-compute/lambda_function.py:83 | the home result is 1 for a win and 0 otherwise; a tie counts as a home loss |
| EloCompute.DayStep | data-pipelines/functions/mlb-elo-compute/lambda_function.py:70-113 | one game keeps the set of rated clubs, keeps the earlier rows, and writes a row iff both clubs are rated; every row it writes is on the 0.01 grid |
| EloCompute.DayStepZeroSum | data-pipelines/functions/mlb-elo-compute/lambda_function.py:79-113 | a game between two different rated clubs keeps their exact rating sum and leaves every other rating alone; its row holds the ratings and shift rounded to 2 places, the written post-sum within 0.02 of the written pre-sum and the written shift within 0.005 of the exact change |
| EloCompute.Written | data-pipelines/functions/mlb-elo-compute/lambda_function.py:101-113 | the row written for a game has its five values on the 0.01 grid |
| EloCompute.WrittenSumError | data-pipelines/functions/mlb-elo-compute/lambda_function.py:108-111 | when the exact sums of two ratings before and after a game agree, the sums of their 2-place roundings differ by at most 0.02 |
| EloCompute.DayRowsOnGrid | data-pipelines/functions/mlb-elo-compute/lambda_function.py:68-113 | every row written on a day is on the 0.01 grid |
| EloCompute.Persisted | data-pipelines/functions/mlb-elo-compute/lambda_function.py:57-61 | the history line a written row becomes carries its rounded post-game values, which the next run re-reads |
| EloCompute.PersistedOnGrid | data-pipelines/functions/mlb-elo-compute/lambda_function.py:115-117 | appending the day's written rows to an on-grid history file keeps it on the grid |
| EloCompute.StartOnGrid | data-pipelines/functions/mlb-elo-compute/lambda_function.py:57-61 | a club that played this season starts the next run from a value on the 0.01 grid, the last post-game value written for it |
| EloCompute.DayStepSkips | data-pipelines/functions/mlb-elo-compute/lambda_function.py:75-77 | a game with an unrated club changes nothing |
| EloCompute.DayStepTie | data-pipelines/functions/mlb-elo-compute/lambda_function.py:83-90 | a tie moves no rating, with no cap or a non-negative one |
| EloCompute.DayStepHomeWin | data-pipelines/functions/mlb-elo-compute/lambda_function.py:83-90 | a home win never lowers the home rating nor raises the away rating |
| EloCompute.DayRows | data-pipelines/functions/mlb-elo-compute/lambda_function.py:68-113 | the rated clubs never change, and there is exactly one row per game whose two clubs are rated |
| EloCompute.PlayGame | data-pipelines/functions/mlb-elo-compute/lambda_function.py:71-113 | one pass of the loop gives the state `DayStep` defines: exact ratings carried on, a rounded row written |
| EloCompute.ProcessGames | data-pipelines/functions/mlb-elo-compute/lambda_function.py:68-113 | the day's loop gives the state `Day` defines: exact ratings carried through the day, rounded rows written |
| EloCompute.RankedDescending | data-pipelines/functions/mlb-elo-compute/lambda_function.py:123-126 | sorting the ratings in reverse rating order leaves them descending |
| EloCompute.PublishRatings | data-pipelines/functions/mlb-elo-compute/lambda_function.py:122-126 | the published list holds every rated club exactly once with its rating rounded to 2 places, descending in the exact ratings and so in the rounded ones |
| EloCompute.SortedItems | data-pipelines/functions/mlb-elo-compute/lambda_function.py:123-125 | a permutation of the rating dict's items holds every club once with its rating |
| EloCompute.RoundRatings | data-pipelines/functions/mlb-elo-compute/lambda_function.py:124 | rounding a ranked list to 2 places keeps its clubs and order and keeps it descending |
| RecomputeElo.ReplayOne | data-pipelines/model-2026-updates/recompute_elo.py:155-195 | one pass of the loop closes the previous year's snapshot when the year changes, then plays the game and records its rounded row, keeping the replay invariant |
| SeasonProjections.KeepNewer | data-pipelines/functions/mlb-season-projections/lambda_function.py:48-53 | a record is kept when its club is new or its timestamp is strictly newer; the clubs so far plus the record's club are rated |
| SeasonProjections.LatestSpec | data-pipelines/functions/mlb-season-projections/lambda_function.py:44-54 | a club has a rating iff it has a record, and the rating is that of its newest record, the first of them on a tie |
| SeasonProjections.FetchLatestEloRatings | data-pipelines/functions/mlb-season-projections/lambda_function.py:44-54 | the scan returns exactly the ratings `LatestRatings` defines |
| SeasonProjections.EnhancedProbability | data-pipelines/functions/mlb-season-projections/lambda_function.py:78-89 | the enhanced probability always lies in [shrinkage, 1 - shrinkage] |
| SeasonProjections.EnhancedWithoutFip | data-pipelines/functions/mlb-season-projections/lambda_function.py:84-89 | without FIP data, or with neither starter known, the probability is the shrunk Elo probability |
| SeasonProjections.EnhancedMonotone | data-pipelines/functions/mlb-season-projections/lambda_function.py:78-89 | a higher home rating always gives a higher home probability |
| SeasonProjections.HomePrediction | data-pipelines/functions/mlb-season-projections/lambda_function.py:108-122 | the home row belongs to the home club |
| SeasonProjections.AwayPrediction | data-pipelines/functions/mlb-season-projections/lambda_function.py:124-137 | the away row belongs to the away club |
| SeasonProjections.SidesMirror | data-pipelines/functions/mlb-season-projections/lambda_function.py:108-137 | the two rows of one game mirror each other: the probabilities add up to 1 and teams, ratings and starters swap |
| SeasonProjections.PickStepKeeps | data-pipelines/functions/mlb-season-projections/lambda_function.py:100-137 | one game of the loop keeps its rows in step with the reference predictions |
| SeasonProjections.NextGamesSpec | data-pipelines/functions/mlb-season-projections/lambda_function.py:97-137 | the rows are the reference predictions: one per club that plays a rated opponent, from its first such game |
| SeasonProjections.ByDatePreorder | data-pipelines/functions/mlb-season-projections/lambda_function.py:95 | ordering by date is a total preorder |
| SeasonProjections.FutureSpec | data-pipelines/functions/mlb-season-projections/lambda_function.py:94-95 | the future games are exactly the games dated today or later, each as often as listed, in date order |
| SeasonProjections.GenerateNextGamePredictions | data-pipelines/functions/mlb-season-projections/lambda_function.py:92-144 | walking the future games in date order, each club gets one row, from the first game in which both clubs are rated |
| SeasonProjections.SchedulePartition | data-pipelines/functions/mlb-season-projections/lambda_function.py:149-150 | every game is either completed or remaining, never both, and together they are the whole schedule |
| SeasonProjections.AddWin | data-pipelines/functions/mlb-season-projections/lambda_function.py:159-162 | one completed game credits its winner and no new club besides |
| SeasonProjections.ActualWinsStep | data-pipelines/functions/mlb-season-projections/lambda_function.py:158-162 | each completed game banks one win, for its winner (the away club on a tie) |
| SeasonProjections.ActualWinsCount | data-pipelines/functions/mlb-season-projections/lambda_function.py:157-162 | a club's banked wins are the completed games it won |
| SeasonProjections.ActualWinsTotal | data-pipelines/functions/mlb-season-projections/lambda_function.py:157-164 | summed over the clubs, the banked wins are one per completed game |
| SeasonProjections.SimFixture | data-pipelines/functions/mlb-season-projections/lambda_function.py:167-178 | the simulator's view of a remaining game keeps its clubs and draws, and is rated iff both clubs are rated |
| SeasonProjections.Fixtures | data-pipelines/functions/mlb-season-projections/lambda_function.py:167-183 | one fixture per remaining game |
| SeasonProjections.SimulateSeason | data-pipelines/functions/mlb-season-projections/lambda_function.py:147-184 | the clubs are sorted and distinct, exactly those of the schedule, and every matrix cell is the banked wins plus the club's simulated wins |
| SeasonProjections.SeasonTotal | data-pipelines/functions/mlb-season-projections/lambda_function.py:156-183 | in every trial the clubs' wins add up to the completed games plus the remaining games between rated clubs |
| SeasonProjections.MedianBounds | data-pipelines/functions/mlb-season-projections/lambda_function.py:197 | the median lies between two of the values |
| SeasonProjections.Fields | data-pipelines/functions/mlb-season-projections/lambda_function.py:229-249 | one playoff field per trial |
| SeasonProjections.FieldsDisjoint | data-pipelines/functions/mlb-season-projections/lambda_function.py:233-243 | no trial's field takes a division winner as a wild card |
| SeasonProjections.Tally | data-pipelines/functions/mlb-season-projections/lambda_function.py:225-249 | a club's count is at most the number of trials |
| SeasonProjections.TallySplit | data-pipelines/functions/mlb-season-projections/lambda_function.py:238-249 | a club's playoff count is its division count plus its wild-card count |
| SeasonProjections.PctBounds | data-pipelines/functions/mlb-season-projections/lambda_function.py:256-258 | a count out of the trials is a percentage between 0 and 100 |
| SeasonProjections.OddsRows | data-pipelines/functions/mlb-season-projections/lambda_function.py:252-259 | one odds row per American League club, in order |
| SeasonProjections.Bump | data-pipelines/functions/mlb-season-projections/lambda_function.py:238-249 | counting one trial adds one to each club of the set and to no other |
| SeasonProjections.BumpTally | data-pipelines/functions/mlb-season-projections/lambda_function.py:229-249 | after trial k the counts are the tallies of the first k + 1 fields |
| SeasonProjections.CountFields | data-pipelines/functions/mlb-season-projections/lambda_function.py:224-249 | the counting loop returns exactly the three tallies of every club over the trials' fields |
| SeasonProjections.PlayoffOdds | data-pipelines/functions/mlb-season-projections/lambda_function.py:212-260 | the odds are the rows of percentages per American League club sorted by playoff percentage, best first |
| SeasonProjections.RowsFromCounts | data-pipelines/functions/mlb-season-projections/lambda_function.py:252-259 | the row loop returns exactly `OddsRows` |
| SeasonProjections.OddsRowsBounds | data-pipelines/functions/mlb-season-projections/lambda_function.py:256-258 | every row's three percentages lie between 0 and 100 |
| SeasonProjections.OddsSpec | data-pipelines/functions/mlb-season-projections/lambda_function.py:252-260 | the odds list one row per American League club, best playoff odds first, every percentage in [0, 100] |
| SeasonProjections.FirstRow | data-pipelines/functions/mlb-season-projections/lambda_function.py:316-318 | the position found is the first row of the club, or none when the club has no row |
| SeasonProjections.SixthGap | data-pipelines/functions/mlb-season-projections/lambda_function.py:313-319 | the sixth club's wins minus Baltimore's is positive only when all of the first six project more wins, and zero or less only when Baltimore projects at least as many as every club from the sixth on |
| SeasonProjections.GamesBackSpec | data-pipelines/functions/mlb-season-projections/lambda_function.py:303-321 | a games-back figure exists iff there are six clubs and Baltimore is among them, with the sign read as in `SixthGap` |
| SeasonProjections.Column | data-pipelines/functions/mlb-season-projections/lambda_function.py:193 | column j of the matrix is one club's wins over all trials |
| SeasonProjections.Rows | data-pipelines/functions/mlb-season-projections/lambda_function.py:186-187 | the rows of the matrix are the trials |
| SeasonProjections.Summarize | data-pipelines/functions/mlb-season-projections/lambda_function.py:191-203 | one summary row per club, in club order: its median wins and its mean wins rounded to two decimals |
| SeasonProjections.SummaryOf | data-pipelines/functions/mlb-season-projections/lambda_function.py:194-197 | the row names the club, its wins median, and a mean within 0.005 of the exact mean |
| SeasonProjections.MeanSpec | data-pipelines/functions/mlb-season-projections/lambda_function.py:196 | the mean of values in [lo, hi] lies in [lo, hi], and rounding it to two decimals moves it by at most 0.005 |
| SeasonProjections.Regressed | data-pipelines/functions/mlb-season-projections/lambda_function.py:368-376 | the faded ratings cover exactly the clubs rated now |
| SeasonProjections.CountGamesPlayed | data-pipelines/functions/mlb-season-projections/lambda_function.py:362-366 | the count loop gives each club its completed games, home or away |
| SeasonProjections.RegressEloToPreseason | data-pipelines/functions/mlb-season-projections/lambda_function.py:352-387 | the method returns exactly the faded ratings `Regressed` defines over the completed games |
| SeasonProjections.RegressedSpec | data-pipelines/functions/mlb-season-projections/lambda_function.py:368-376 | a club without a preseason rating keeps its rating; otherwise the faded rating lies within half a hundredth between current and preseason, the preseason one before the first game and the current one from game 100 on |
| SeasonProjections.GamesPlayedTotal | data-pipelines/functions/mlb-season-projections/lambda_function.py:363-378 | the games played add up to twice the completed games |
| SeasonProjections.AdjustedRatings | data-pipelines/functions/mlb-season-projections/lambda_function.py:416-419 | every rated club keeps its key, and a club without an injury adjustment keeps its rating |
| SeasonProjections.SimulationRatings | data-pipelines/functions/mlb-season-projections/lambda_function.py:414-424 | the ratings the predictions and the simulation use cover exactly the rated clubs |
| SeasonProjections.LambdaHandler | data-pipelines/functions/mlb-season-projections/lambda_function.py:403-437 | the handler's predictions, matrix and odds are those the specification functions define on the injury-adjusted, faded ratings |
| SeasonProjections.SimulatedRows | data-pipelines/functions/mlb-season-projections/lambda_function.py:154-183 | the matrix the simulation fills, read out by trial, is the one the specification defines |
| MonteCarlo.CreditIsOneWin | data-pipelines/functions/mlb-season-projections/lambda_function.py:180-183 | a rated fixture credits exactly its winner in each trial, and an unrated one credits none |
| MonteCarlo.CreditTotal | data-pipelines/functions/mlb-season-projections/lambda_function.py:180-183 | summed over distinct clubs, a fixture credits one win when it is rated and its winner is listed, and none otherwise |
| MonteCarlo.Wins | data-pipelines/functions/mlb-season-projections/lambda_function.py:163-183 | a club's wins in a trial lie between its banked wins and its banked wins plus the number of fixtures |
| MonteCarlo.WinsStep | data-pipelines/functions/mlb-season-projections/lambda_function.py:167-183 | one more fixture adds its credit to the club's wins |
| MonteCarlo.TrialTotal | data-pipelines/functions/mlb-season-projections/lambda_function.py:156-183 | in every trial the clubs' wins add up to the banked wins plus one per rated fixture |
| MonteCarlo.IndexOf | data-pipelines/functions/mlb-season-projections/lambda_function.py:153 | the index of a club is a column holding that club |
| MonteCarlo.Simulate | data-pipelines/functions/mlb-season-projections/lambda_function.py:154-183 | the new matrix has one row per trial and one column per club, and each cell is the club's wins in that trial |
| MonteCarlo.AddFixture | data-pipelines/functions/mlb-season-projections/lambda_function.py:180-183 | one fixture adds its credit to every cell of the matrix and changes nothing else |
| Playoffs.Best | data-pipelines/functions/mlb-season-projections/lambda_function.py:236 | `max` returns a listed club that no listed club ranks strictly above |
| Playoffs.BestIsFirst | data-pipelines/functions/mlb-season-projections/lambda_function.py:236 | ties go to the first listed club: the chosen club ranks strictly above every club listed before it |
| Playoffs.Group | data-pipelines/functions/mlb-season-projections/lambda_function.py:219-222 | a division's group holds exactly the American League clubs of that division |
| Playoffs.ByStandingPreorder | data-pipelines/functions/mlb-season-projections/lambda_function.py:242 | ordering by wins, descending, is a total preorder |
| Playoffs.NonWinners | data-pipelines/functions/mlb-season-projections/lambda_function.py:241 | the non-winners are exactly the American League clubs that did not win their division |
| Playoffs.SelectField | data-pipelines/functions/mlb-season-projections/lambda_function.py:233-243 | the division winners and the wild cards are American League clubs |
| Playoffs.OneWinnerPerDivision | data-pipelines/functions/mlb-season-projections/lambda_function.py:235-237 | every division has one winner, a club of that division that no club of the division ranks above |
| Playoffs.WildcardsFacts | data-pipelines/functions/mlb-season-projections/lambda_function.py:240-243 | the wild cards are not division winners and there are at most three |
| Playoffs.WildcardsRankFirst | data-pipelines/functions/mlb-season-projections/lambda_function.py:240-243 | no non-winner left out of the field ranks above a wild card |
| Playoffs.ThreeWildcards | data-pipelines/functions/mlb-season-projections/lambda_function.py:240-243 | with distinct clubs and at least three non-winners there are exactly three wild cards |
| Playoffs.SortDistinct | data-pipelines/functions/mlb-season-projections/lambda_function.py:242 | sorting keeps a list free of repeats |
| Fade.BlendEnds | data-pipelines/functions/mlb-season-projections/lambda_function.py:376 | a zero weight gives the preseason rating and a full weight the current one |
| Fade.BlendBetween | data-pipelines/functions/mlb-season-projections/lambda_function.py:359-376 | a weight in [0, 1] gives a rating between the two, and a larger weight one no farther from the current rating |
| Fade.ParseCurve | data-pipelines/scripts/backtest-fade-curves.py:99-109 | exactly the names linear, cosine, sigmoid and quadratic are known curves |
| Fade.LinearIsLinearWeight | data-pipelines/scripts/backtest-fade-curves.py:96-100 | the linear curve is the projections lambda's weight `min(gp / 100, 1)` |
| Fade.FadeErrors | data-pipelines/scripts/backtest-fade-curves.py:95-109 | an unknown curve name raises exactly when the club has fewer than 100 games |
| Fade.FadeAtStart | data-pipelines/scripts/backtest-fade-curves.py:95-107 | at the first game the linear, cosine and quadratic curves give weight 0, while the sigmoid gives 1 / (1 + e^5) |
| Fade.CurveBounds | data-pipelines/scripts/backtest-fade-curves.py:98-107 | every curve stays within [0, 1] on [0, 1] |
| Fade.CurveMonotone | data-pipelines/scripts/backtest-fade-curves.py:98-107 | every curve never falls across the season |
| Fade.FadeMonotone | data-pipelines/scripts/backtest-fade-curves.py:95-109 | with a known curve the weight is in [0, 1] for any games played and never falls as games are played, the jump to 1 at 100 games included |
| FadeBacktest.BacktestShift | data-pipelines/scripts/backtest-fade-curves.py:87-88 | with a positive multiplier the shift is positive iff the result beats the expectation and negative iff below it; zero when they are equal |
| FadeBacktest.ShiftIgnoresRating | data-pipelines/scripts/backtest-fade-curves.py:87-88 | the rating argument of `elo_shift` plays no part in the shift |
| FadeBacktest.CapOnlyLowers | data-pipelines/scripts/backtest-fade-curves.py:77-84 | a configured cap can only lower the multiplier, and leaves it alone when it is already at most the cap |
| FadeBacktest.Count | data-pipelines/scripts/backtest-fade-curves.py:157-158 | counting a game adds one to the club's games played and to no other club's |
| FadeBacktest.ReplayStep | data-pipelines/scripts/backtest-fade-curves.py:145-158 | a game with an unrated club changes nothing; otherwise the rated clubs stay the same and both sides count one more game |
| FadeBacktest.BeforeSpec | data-pipelines/scripts/backtest-fade-curves.py:143 | the replay reads exactly the games dated before the cutoff |
| FadeBacktest.LaterGameIgnored | data-pipelines/scripts/backtest-fade-curves.py:143 | a game on or after the cutoff changes nothing in the replay |
| FadeBacktest.ReplayFacts | data-pipelines/scripts/backtest-fade-curves.py:139-160 | no club gains or loses a rating, only rated clubs are counted, and a club's count is its games against rated opponents |
| FadeBacktest.ShiftTotal | data-pipelines/scripts/backtest-fade-curves.py:155-156 | moving a shift from one distinct club to another keeps the total rating of any list of distinct clubs holding both |
| FadeBacktest.StepTotal | data-pipelines/scripts/backtest-fade-curves.py:145-158 | a game between two different clubs keeps the total rating of the clubs |
| FadeBacktest.ReplayZeroSum | data-pipelines/scripts/backtest-fade-curves.py:139-160 | when no game pits a club against itself, the replayed ratings add up to the preseason total |
| FadeBacktest.PlayGame | data-pipelines/scripts/backtest-fade-curves.py:145-158 | one pass of the replay loop gives the state `ReplayStep` defines |
| FadeBacktest.ReplayEloToDate | data-pipelines/scripts/backtest-fade-curves.py:139-160 | the replay loop returns exactly the ratings and games played `ReplayToDate` defines |
| FadeBacktest.Regress | data-pipelines/scripts/backtest-fade-curves.py:163-170 | a successful blend rates exactly the clubs rated now |
| FadeBacktest.RegressSpec | data-pipelines/scripts/backtest-fade-curves.py:163-170 | an unknown curve fails iff some club is short of 100 games; otherwise each club gets the blend of its current and preseason ratings at its fade weight, its current rating without a preseason one |
| FadeBacktest.RegressOne | data-pipelines/scripts/backtest-fade-curves.py:166-169 | one club's blend lies between its current and preseason ratings and is the current rating from 100 games on |
| FadeBacktest.RegressElo | data-pipelines/scripts/backtest-fade-curves.py:163-170 | the club loop returns exactly `Regress`, stopping at the first club whose weight raises |
| FadeBacktest.SimFixture | data-pipelines/scripts/backtest-fade-curves.py:186-194 | the simulator's view of a remaining game keeps its clubs and draws, and is rated iff both clubs have a blended rating |
| FadeBacktest.Fixtures | data-pipelines/scripts/backtest-fade-curves.py:186-194 | one fixture per remaining game |
| FadeBacktest.SimulateRemaining | data-pipelines/scripts/backtest-fade-curves.py:177-196 | the clubs are the blended-rated ones, sorted and distinct, and each matrix cell is the banked wins plus the simulated wins |
| FadeBacktest.SimulatedTotal | data-pipelines/scripts/backtest-fade-curves.py:183-194 | in every trial the clubs' wins add up to the banked wins plus one per remaining game between rated clubs |
| FadeBacktest.Fields | data-pipelines/scripts/backtest-fade-curves.py:206-214 | one playoff field per trial |
| FadeBacktest.TrialFieldFacts | data-pipelines/scripts/backtest-fade-curves.py:207-214 | a division winner has no club of its division above it on (wins, draw); the wild cards are not winners, at most three, and no non-winner left out ranks above one |
| FadeBacktest.Shares | data-pipelines/scripts/backtest-fade-curves.py:218 | a division-by-zero error exactly when there is no trial and some club |
| FadeBacktest.SharesSpec | data-pipelines/scripts/backtest-fade-curves.py:218 | when there is no error: one share per American League club, each a fraction in [0, 1] |
| FadeBacktest.SharesFromCounts | data-pipelines/scripts/backtest-fade-curves.py:215-218 | when there is no error the shares are the counts divided by the number of trials |
| FadeBacktest.OddsSpec | data-pipelines/scripts/backtest-fade-curves.py:199-218 | an error exactly when there is no trial and some listed club is in the AL (the `ZeroDivisionError` of `--sims 0`); otherwise one entry per American League club, each a fraction in [0, 1] |
| FadeBacktest.AlTeamsSpec | data-pipelines/scripts/backtest-fade-curves.py:200 | the American League clubs are the listed clubs the league table puts in the AL |
| FadeBacktest.AlPlayoffOdds | data-pipelines/scripts/backtest-fade-curves.py:199-218 | the trial loop returns exactly the odds or the error `Odds` defines |
| FadeBacktestScores.SnapshotObs | data-pipelines/scripts/backtest-fade-curves.py:280-282 | one forecast per American League club of a snapshot, in order |
| FadeBacktestScores.Observations | data-pipelines/scripts/backtest-fade-curves.py:279-282 | one forecast per club per snapshot, snapshot by snapshot |
| FadeBacktestScores.SnapshotObsFacts | data-pipelines/scripts/backtest-fade-curves.py:280-298 | forecasts are made for American League clubs only, and valid odds give valid forecasts |
| FadeBacktestScores.ObservationsFacts | data-pipelines/scripts/backtest-fade-curves.py:279-301 | the same over every snapshot |
| FadeBacktestScores.Bin | data-pipelines/scripts/backtest-fade-curves.py:295 | `min(int(prob * 10), 9)` is the tenth of [0, 1] a probability falls in |
| FadeBacktestScores.OfTeam | data-pipelines/scripts/backtest-fade-curves.py:287-288 | a club's forecasts are forecasts of the run, all for that club |
| FadeBacktestScores.InBin | data-pipelines/scripts/backtest-fade-curves.py:295-298 | a bin's forecasts are forecasts of the run, all in that bin |
| FadeBacktestScores.OfTeamNonEmpty | data-pipelines/scripts/backtest-fade-curves.py:287-288 | a club has forecasts exactly when some forecast is for it |
| FadeBacktestScores.OverallTotals | data-pipelines/scripts/backtest-fade-curves.py:284-301 | the overall sums are the Brier and log-loss sums over all forecasts and their count |
| FadeBacktestScores.CountsPositive | data-pipelines/scripts/backtest-fade-curves.py:288-298 | every per-club and per-bin count is positive |
| FadeBacktestScores.OrderKeys | data-pipelines/scripts/backtest-fade-curves.py:277-300 | the trajectory order lists each club with a forecast exactly once |
| FadeBacktestScores.TeamTotals | data-pipelines/scripts/backtest-fade-curves.py:287-300 | a club's entries hold the Brier sum, the count and the probabilities of exactly its own forecasts |
| FadeBacktestScores.BinTotals | data-pipelines/scripts/backtest-fade-curves.py:295-298 | a bin's entries hold the probability sum, the playoff count and the count of exactly its forecasts |
| FadeBacktestScores.MaxChange | data-pipelines/scripts/backtest-fade-curves.py:304-310 | the largest move is 0 with fewer than two values, and otherwise the largest distance between consecutive values |
| FadeBacktestScores.ScoresOverall | data-pipelines/scripts/backtest-fade-curves.py:312-315 | with no forecast the division fails; otherwise the scores are the mean Brier score and mean log loss of all forecasts |
| FadeBacktestScores.ScoresClub | data-pipelines/scripts/backtest-fade-curves.py:316-325 | a club has a Brier score and a largest move iff it has a forecast |
| FadeBacktestScores.ScoresBin | data-pipelines/scripts/backtest-fade-curves.py:317-324 | a bin has a calibration row iff some forecast falls in it, with its mean probability, playoff share and count |
| FadeBacktestScores.MaxChangeWithin | data-pipelines/scripts/backtest-fade-curves.py:304-310 | the largest move of probabilities lies in [0, 1] |
| FadeBacktestScores.ScoresBounded | data-pipelines/scripts/backtest-fade-curves.py:312-314 | valid forecasts give a Brier score in [0, 1] and a positive log loss |
| FadeBacktestScores.ClubBounded | data-pipelines/scripts/backtest-fade-curves.py:316-325 | a club's Brier score and largest move lie in [0, 1] |
| FadeBacktestScores.BinBounded | data-pipelines/scripts/backtest-fade-curves.py:317-324 | a calibration row for bin b averages probabilities between b/10 and (b + 1)/10, with a playoff share in [0, 1] |
| FadeBacktestScores.AvgBounded | data-pipelines/scripts/backtest-fade-curves.py:326 | the mean largest move lies in [0, 1] |
| FadeBacktestScores.BrierScoresBounded | data-pipelines/scripts/backtest-fade-curves.py:264-327 | with probabilities in [0, 1] every score of the report lies in its range |
| FadeBacktestScores.BrierScoresErr | data-pipelines/scripts/backtest-fade-curves.py:313 | the scoring fails exactly when there are no snapshots or no American League clubs |
| FadeBacktestScores.ClubTrajectory | data-pipelines/scripts/backtest-fade-curves.py:279-300 | an American League club's trajectory is its probability in each snapshot, in order |
| FadeBacktestScores.BrierScoresClub | data-pipelines/scripts/backtest-fade-curves.py:264-327 | with distinct clubs and a snapshot, the report scores exactly the American League clubs, and a club's largest move is that of its trajectory |
| FadeBacktestScores.TallySnapshot | data-pipelines/scripts/backtest-fade-curves.py:280-301 | the inner loop adds exactly one snapshot's forecasts to the totals |
| FadeBacktestScores.TallyAll | data-pipelines/scripts/backtest-fade-curves.py:279-301 | the nested loop gives exactly the totals of all forecasts |
| FadeBacktestScores.MaxChangesOf | data-pipelines/scripts/backtest-fade-curves.py:304-310 | the loop over trajectories returns exactly `MaxChanges` |
| FadeBacktestScores.ComputeBrierScores | data-pipelines/scripts/backtest-fade-curves.py:264-327 | the scoring step returns exactly `BrierScores` |
| WarModes.TransactionWar | data-pipelines/scripts/backtest-war-modes.py:110-156 | no WAR column for the season or a missing file gives no transactions; otherwise the same additions and departures as the preseason generator's loader |
| WarModes.NoFilesNoTransactions | data-pipelines/scripts/backtest-war-modes.py:118-119 | without transaction files every club gains and loses nothing |
| WarModes.TransactionWarCapped | data-pipelines/scripts/backtest-war-modes.py:123-145 | every player row and every trade departure counts at most 5 WAR, and a WAR cell that does not parse counts 0 |
| WarModes.TeamWar | data-pipelines/scripts/backtest-war-modes.py:100-108 | the team WAR dict exists iff the season has a team WAR file and the file is present; it is empty iff the file has no rows |
| WarModes.CompressedMap | data-pipelines/scripts/backtest-war-modes.py:170-172 | the compressed ratings cover exactly the clubs |
| WarModes.PreseasonFor | data-pipelines/scripts/backtest-war-modes.py:159-230 | a mode succeeds iff it is one of none, transactions, team-totals and hybrid, and then rates exactly the 30 clubs |
| WarModes.Fallbacks | data-pipelines/scripts/backtest-war-modes.py:188-208 | without team WAR, team totals is the no-WAR mode and hybrid is the transactions mode |
| WarModes.NoTransactionsIsNone | data-pipelines/scripts/backtest-war-modes.py:175-186 | without transaction files the transactions mode equals the no-WAR mode |
| WarModes.CompressedKeepsMean | data-pipelines/scripts/backtest-war-modes.py:170-172 | compression keeps the clubs' total, hence their mean, rating |
| WarModes.CompressedGaps | data-pipelines/scripts/backtest-war-modes.py:170-172 | compression scales the gap between any two clubs by 0.75 |
| WarModes.CompressedSameSide | data-pipelines/scripts/backtest-war-modes.py:170-172 | compression moves no club across the mean |
| WarModes.CompressedRatings | data-pipelines/scripts/backtest-war-modes.py:177-186 | the record loop, the mean and the in-place compression loop give exactly `CompressedMap` |
| WarModes.RecordsOf | data-pipelines/scripts/backtest-war-modes.py:177-182 | the record loop gives every club its rating |
| WarModes.TotalOf | data-pipelines/scripts/backtest-war-modes.py:183 | the loop sums the clubs' ratings |
| WarModes.Compress | data-pipelines/scripts/backtest-war-modes.py:184-185 | the compression loop pulls every record toward the mean |
| WarModes.GeneratePreseasonElo | data-pipelines/scripts/backtest-war-modes.py:159-230 | the recursive generator returns exactly `PreseasonFor` |
| WarModes.FadePct | data-pipelines/scripts/backtest-war-modes.py:278-282 | the weight is in [0, 1], is 1 iff the average games played reach the fade length, and otherwise is that average over the fade length |
| WarModes.RegressedBetween | data-pipelines/scripts/backtest-war-modes.py:283-284 | the blend lies between the running and preseason ratings, and is the running one at weight 1 and the preseason one at weight 0 |
| WarModes.PredictHome | data-pipelines/scripts/backtest-war-modes.py:277-291 | the prediction is a probability strictly between 0 and 1 |
| WarModes.Step | data-pipelines/scripts/backtest-war-modes.py:268-315 | a game with an unrated club is skipped; otherwise its prediction from the state before it is appended and the running ratings advance as the plain replay does |
| WarModes.Record | data-pipelines/scripts/backtest-war-modes.py:293-303 | tallying a game leaves the running ratings alone |
| WarModes.RawIsReplay | data-pipelines/scripts/backtest-war-modes.py:305-315 | the running ratings and games played are the plain replay of the games: predictions never feed back |
| WarModes.BacktestZeroSum | data-pipelines/scripts/backtest-war-modes.py:305-312 | with no club playing itself, the clubs' total running rating stays the preseason total |
| WarModes.EarlierPredictionsKept | data-pipelines/scripts/backtest-war-modes.py:268-293 | a later game never changes an earlier prediction, and adds its own only when both clubs are rated |
| WarModes.PredictionIgnoresScore | data-pipelines/scripts/backtest-war-modes.py:277-291 | the prediction reads the two clubs and the state, never the score |
| WarModes.FadeEnds | data-pipelines/scripts/backtest-war-modes.py:278-291 | with fade 0, or once the fade is complete, the prediction uses the running ratings alone |
| WarModes.SeasonKeys | data-pipelines/scripts/backtest-war-modes.py:260-315 | no club gains or loses a running rating |
| WarModes.RecordBalanced | data-pipelines/scripts/backtest-war-modes.py:296-303 | recording a game between two listed clubs keeps the tallies balanced |
| WarModes.SeasonTotals | data-pipelines/scripts/backtest-war-modes.py:293-303 | each rated game hands out one predicted win, one actual win and one actual loss, so each total is the number of predictions |
| WarModes.ClipProb | data-pipelines/scripts/backtest-war-modes.py:328 | the clipped probability lies in [1e-6, 1 - 1e-6] and equals the input when already inside |
| WarModes.AccuracyOf | data-pipelines/scripts/backtest-war-modes.py:331-332 | the accuracy is a percentage in [0, 100] |
| WarModes.Scores | data-pipelines/scripts/backtest-war-modes.py:317-365 | there are no metrics iff no game was predicted; otherwise the game count and an accuracy in [0, 100] |
| WarModes.BrierBetween | data-pipelines/scripts/backtest-war-modes.py:326 | the Brier score of valid predictions lies in [0, 1] |
| WarModes.LogLossPositive | data-pipelines/scripts/backtest-war-modes.py:327-329 | every log-likelihood term is negative, so the log loss is positive |
| WarModes.CoinFlipsMissed | data-pipelines/scripts/backtest-war-modes.py:331 | predictions of exactly 0.5 count as neither hit |
| WarModes.ScoresBounds | data-pipelines/scripts/backtest-war-modes.py:317-365 | every Brier score is in [0, 1], the log loss is positive, the accuracies in [0, 100], and the squared win error non-negative |
| WarModes.PlayOne | data-pipelines/scripts/backtest-war-modes.py:269-315 | one pass of the game loop gives the state `Step` defines |
| WarModes.Tally | data-pipelines/scripts/backtest-war-modes.py:293-303 | the tallies of one game are those `Record` defines |
| WarModes.BacktestSeason | data-pipelines/scripts/backtest-war-modes.py:246-365 | the season loop and the metrics give exactly `Scores` of the replay |
| PreseasonElo.AllTeamsDistinct | data-pipelines/scripts/generate-preseason-elo.py:67-71 | the club list is 30 distinct codes |
| PreseasonElo.MeanRevertedToward | data-pipelines/scripts/generate-preseason-elo.py:174 | mean reversion keeps 60% of a rating's distance from 1500, on the same side |
| PreseasonElo.BlendMidpoint | data-pipelines/scripts/generate-preseason-elo.py:182 | the equal-weight blend lies between the WAR signal and the regressed rating; a club of average WAR keeps half its regressed distance from 1500 |
| PreseasonElo.DictOf | data-pipelines/scripts/generate-preseason-elo.py:165 | the team-WAR dict holds the rows' last value per club, and is empty exactly when there are no rows |
| PreseasonElo.Average | data-pipelines/scripts/generate-preseason-elo.py:166 | the league average exists exactly when the dict is non-empty, and times the club count is the total |
| PreseasonElo.AverageCentres | data-pipelines/scripts/generate-preseason-elo.py:166-178 | the clubs' distances from the league average sum to zero |
| PreseasonElo.TeamWarOf | data-pipelines/scripts/generate-preseason-elo.py:153-165 | the team-WAR load fails exactly when the season has no file mapping or the file is missing |
| PreseasonElo.TeamTotalsTable | data-pipelines/scripts/generate-preseason-elo.py:151-194 | team-totals mode fails exactly on a missing mapping, a missing file or an empty file; otherwise one row per club in club order |
| PreseasonElo.GenerateTeamTotals | data-pipelines/scripts/generate-preseason-elo.py:151-194 | the method returns the team-totals table |
| PreseasonElo.TotalsRecords | data-pipelines/scripts/generate-preseason-elo.py:169-192 | the record loop builds one row per club, as the table function says |
| PreseasonElo.TotalsRowFacts | data-pipelines/scripts/generate-preseason-elo.py:170-192 | a club missing from the WAR file gets a 1500 WAR signal, a club without a closing rating starts from 1500, and the rating is the rounded blend |
| PreseasonElo.Load | data-pipelines/scripts/generate-preseason-elo.py:215-217 | a loaded player carries the canonical club, zero WAR for an unparsable cell, and never more than 5 WAR |
| PreseasonElo.DeparturesCapped | data-pipelines/scripts/generate-preseason-elo.py:128-131 | every extracted trade departure carries at most 5 WAR |
| PreseasonElo.TransactionWar | data-pipelines/scripts/generate-preseason-elo.py:201-237 | the transaction loader fails exactly on a missing WAR column or a missing file; every player's WAR is capped |
| PreseasonElo.LoadTransactionWar | data-pipelines/scripts/generate-preseason-elo.py:201-237 | the loader method returns the transaction ledger |
| PreseasonElo.TradeChargedToSeller | data-pipelines/scripts/generate-preseason-elo.py:115-138 | a traded player's WAR is gained by the acquirer and lost by the known seller |
| PreseasonElo.WiderPattern | data-pipelines/scripts/generate-preseason-elo.py:112 | every note the net-fWAR pattern matches is matched by this script's wider pattern |
| PreseasonElo.AdjustAll | data-pipelines/scripts/generate-preseason-elo.py:271-278 | the adjusted-WAR loop gives each club its base WAR plus net transaction WAR |
| PreseasonElo.AdjustedMapSize | data-pipelines/scripts/generate-preseason-elo.py:271-278 | the adjusted dict has exactly the 30 clubs as keys |
| PreseasonElo.HybridTable | data-pipelines/scripts/generate-preseason-elo.py:244-312 | hybrid mode fails exactly when either the team-WAR file or the transaction loader fails; otherwise one row per club |
| PreseasonElo.GenerateHybrid | data-pipelines/scripts/generate-preseason-elo.py:244-312 | the method returns the hybrid table |
| PreseasonElo.HybridRecords | data-pipelines/scripts/generate-preseason-elo.py:283-310 | the hybrid record loop builds the rows the table function defines |
| PreseasonElo.HybridCentred | data-pipelines/scripts/generate-preseason-elo.py:280-296 | the adjusted WAR is re-centred: distances sum to zero and the WAR signal averages exactly 1500 |
| PreseasonElo.HybridRowFacts | data-pipelines/scripts/generate-preseason-elo.py:284-310 | the transaction column is the net transaction WAR to a tenth and the rating is within half a cent of the blend |
| PreseasonElo.TransactionsTable | data-pipelines/scripts/generate-preseason-elo.py:319-344 | legacy mode fails exactly when the transaction loader fails |
| PreseasonElo.GenerateTransactions | data-pipelines/scripts/generate-preseason-elo.py:319-344 | the method returns the legacy table |
| PreseasonElo.TxnRecords | data-pipelines/scripts/generate-preseason-elo.py:325-342 | the legacy record loop builds the rows the table function defines |
| PreseasonElo.TxnRowFacts | data-pipelines/scripts/generate-preseason-elo.py:325-342 | the adjustment is within 0.325 Elo of 5.5 times the net WAR, and a club with no net change keeps its regressed rating |
| PreseasonElo.HybridNetMatchesTransactions | data-pipelines/scripts/generate-preseason-elo.py:293 | the hybrid transaction column equals the legacy net WAR column |
| PreseasonElo.DefaultSource | data-pipelines/scripts/generate-preseason-elo.py:368 | a requested source wins; otherwise team totals from 2026 on and hybrid before |
| PreseasonElo.Generated | data-pipelines/scripts/generate-preseason-elo.py:380-387 | the chosen generator's table is in club order |
| PreseasonElo.GenerateFor | data-pipelines/scripts/generate-preseason-elo.py:380-387 | the dispatch returns the chosen generator's table |
| PreseasonElo.Compress | data-pipelines/scripts/generate-preseason-elo.py:388-392 | compression changes only the preseason column and keeps the row count |
| PreseasonElo.CompressKeepsMean | data-pipelines/scripts/generate-preseason-elo.py:388-392 | compression keeps the mean and scales every gap between clubs by 0.75 |
| PreseasonElo.CompressRounding | data-pipelines/scripts/generate-preseason-elo.py:390-392 | each compressed rating is within half a cent of the exact value |
| PreseasonElo.PreseasonTableOrdered | data-pipelines/scripts/generate-preseason-elo.py:394 | the output is a permutation of the compressed rows, highest rating first |
| PreseasonElo.Preseason | data-pipelines/scripts/generate-preseason-elo.py:351-394 | the command fails without a baseline file; on success there is one row per club |
| PreseasonElo.GeneratePreseason | data-pipelines/scripts/generate-preseason-elo.py:351-394 | the method returns the whole command's result |
| Transactions.Classify | data-pipelines/functions/mlb-preseason-adjustment/lambda_function.py:246-290 | a move has the entry's player and at least one known club; unknown clubs never appear |
| Transactions.ClassifyCases | data-pipelines/model-2026-updates/preseason_adjustment.py:157-194 | a trade needs both clubs known; a gain type needs a known receiving club and no minor-league signing; a loss type charges the club named as receiving |
| Transactions.MinorLeagueDealSkipped | data-pipelines/functions/mlb-preseason-adjustment/lambda_function.py:271-272 | a free-agent signing that mentions a minor-league deal, in any case, makes no move |
| Transactions.Moves | data-pipelines/functions/mlb-preseason-adjustment/lambda_function.py:245-293 | there are never more moves than feed entries |
| Transactions.MovesFromFeed | data-pipelines/functions/mlb-preseason-adjustment/lambda_function.py:245-293 | a move is listed exactly when some feed entry makes it |
| Transactions.CollectMoves | data-pipelines/model-2026-updates/preseason_adjustment.py:142-197 | the feed loop returns the moves in feed order |
| Transactions.Tally | data-pipelines/functions/mlb-preseason-adjustment/lambda_function.py:298-308 | the ledgers list exactly the clubs on each side, each with its total WAR gained or lost |
| Transactions.UnlistedZero | data-pipelines/model-2026-updates/preseason_adjustment.py:396-397 | a club with no entry on a side has a zero total there |
| Transactions.SideRead | data-pipelines/functions/mlb-preseason-adjustment/lambda_function.py:313 | reading a ledger like a defaultdict gives the club's total, zero when unlisted |
| Transactions.Entries | data-pipelines/model-2026-updates/preseason_adjustment.py:425-430 | the per-club loop makes one entry per club, from its gains and losses |
| Transactions.NetChangesBalance | data-pipelines/model-2026-updates/preseason_adjustment.py:424-430 | summed over every club, the net changes equal the moves' own net terms |
| Transactions.TradesCancel | data-pipelines/functions/mlb-preseason-adjustment/lambda_function.py:258-266 | trades move WAR between clubs and add nothing to the league-wide net change |
| PreseasonAdjustment.ProspectRankToWar | data-pipelines/model-2026-updates/preseason_adjustment.py:65-70 | the table scan returns the rank's tier WAR |
| PreseasonAdjustment.RankWarSteps | data-pipelines/model-2026-updates/preseason_adjustment.py:55-62 | the tiers are 2.0, 1.5, 1.0, 0.7, 0.4 and 0.2 past rank 100 |
| PreseasonAdjustment.RankWarNonIncreasing | data-pipelines/model-2026-updates/preseason_adjustment.py:55-70 | a better rank is never worth less, and every rank is worth 0.2 to 2.0 |
| PreseasonAdjustment.LoadWarOverrides | data-pipelines/model-2026-updates/preseason_adjustment.py:73-115 | the row loop returns the overrides the file spells |
| PreseasonAdjustment.OverridePriority | data-pipelines/model-2026-updates/preseason_adjustment.py:102-110 | a direct override beats a prospect rank, and a row with neither gives nothing |
| PreseasonAdjustment.OverridesFacts | data-pipelines/model-2026-updates/preseason_adjustment.py:89-115 | no file or no id column gives no overrides; otherwise a player has one exactly when a row gives it |
| PreseasonAdjustment.Fill | data-pipelines/model-2026-updates/preseason_adjustment.py:503-509 | the filled lookup has the lookup's and the overrides' players |
| PreseasonAdjustment.ApplyOverrides | data-pipelines/model-2026-updates/preseason_adjustment.py:503-509 | the override loop fills both lookups as the fill function says |
| PreseasonAdjustment.FillFacts | data-pipelines/model-2026-updates/preseason_adjustment.py:501-509 | a nonzero WAR is never overridden; a missing or zero one takes the override |
| PreseasonAdjustment.FillIdempotent | data-pipelines/model-2026-updates/preseason_adjustment.py:503-509 | applying the overrides twice is applying them once |
| PreseasonAdjustment.MarcelWeightsFacts | data-pipelines/model-2026-updates/preseason_adjustment.py:273-274 | one to three seasons get one weight each, rising to 5 for the newest |
| PreseasonAdjustment.WeightedSums | data-pipelines/model-2026-updates/preseason_adjustment.py:335-346 | the loop returns the weighted sums of the player's seasons |
| PreseasonAdjustment.MarcelProjection | data-pipelines/model-2026-updates/preseason_adjustment.py:334-376 | the projection step returns the Marcel projection |
| PreseasonAdjustment.ReliabilityBounds | data-pipelines/model-2026-updates/preseason_adjustment.py:357-360 | reliability lies in [0, 1) |
| PreseasonAdjustment.AgeAdjustmentFacts | data-pipelines/model-2026-updates/preseason_adjustment.py:365-374 | the age term lies in [-0.5, 0.5], is zero at 28, is capped five years either side and never grows with age |
| PreseasonAdjustment.MarcelShrinks | data-pipelines/model-2026-updates/preseason_adjustment.py:348-376 | a projection exists exactly when the player has weight; before the age term it shrinks the weighted WAR toward zero |
| PreseasonAdjustment.WeightedWarBetween | data-pipelines/model-2026-updates/preseason_adjustment.py:339-351 | the weighted WAR lies between the player's lowest and highest season WAR |
| PreseasonAdjustment.SentinelCountsAsZero | data-pipelines/model-2026-updates/preseason_adjustment.py:342 | a season left at the -999 sentinel projects exactly as a season of zero WAR |
| PreseasonAdjustment.AnnotateFacts | data-pipelines/model-2026-updates/preseason_adjustment.py:400-422 | each annotated move records the WAR the ledger posts, with a blend exactly when there is a projection |
| PreseasonAdjustment.NetWarChanges | data-pipelines/model-2026-updates/preseason_adjustment.py:424-430 | there is one delta per club some move names |
| PreseasonAdjustment.AnnotateAndPost | data-pipelines/model-2026-updates/preseason_adjustment.py:400-422 | the move loop annotates each move and posts its WAR to both ledgers |
| PreseasonAdjustment.ComputeNetWarChanges | data-pipelines/model-2026-updates/preseason_adjustment.py:382-432 | the method returns the deltas and annotated moves the functions define |
| PreseasonAdjustment.BlendFacts | data-pipelines/model-2026-updates/preseason_adjustment.py:405-410 | weight 0 gives the historical WAR, weight 1 the projection, and any weight in between lies between them |
| PreseasonAdjustment.MissingPlayerCountsZero | data-pipelines/model-2026-updates/preseason_adjustment.py:401-406 | a player in no lookup carries no WAR |
| PreseasonAdjustment.NetWarBalance | data-pipelines/model-2026-updates/preseason_adjustment.py:396-430 | the deltas sum to the moves' net terms, and to zero when every move is a trade |
| PreseasonAdjustment.ApplyEloAdjustment | data-pipelines/model-2026-updates/preseason_adjustment.py:435-463 | the method returns the sorted preseason table |
| PreseasonAdjustment.AdjustRows | data-pipelines/model-2026-updates/preseason_adjustment.py:449-460 | the row loop builds one row per baseline row |
| PreseasonAdjustment.PreseasonRowAbsent | data-pipelines/model-2026-updates/preseason_adjustment.py:452-459 | a club without a delta keeps its rating, rounded to the hundredth |
| PreseasonAdjustment.PreseasonRowNear | data-pipelines/model-2026-updates/preseason_adjustment.py:453-459 | the adjustment is within 0.05 of delta times Elo per WAR and the rating within 0.005 of rating plus adjustment |
| PreseasonAdjustment.PreseasonTableOrdered | data-pipelines/model-2026-updates/preseason_adjustment.py:462 | the table is a permutation of the rows, highest preseason rating first |
| PreseasonLambda.WarSeasons | data-pipelines/functions/mlb-preseason-adjustment/lambda_function.py:395 | the window is the `years` seasons ending at the prior season, in order |
| PreseasonLambda.BatterOf | data-pipelines/functions/mlb-preseason-adjustment/lambda_function.py:93-121 | a split is kept exactly when it has a plate appearance and a positive wOBA denominator |
| PreseasonLambda.BattingWar | data-pipelines/functions/mlb-preseason-adjustment/lambda_function.py:125-132 | the batting table has exactly the kept batters' ids |
| PreseasonLambda.LeagueWobaBetween | data-pipelines/functions/mlb-preseason-adjustment/lambda_function.py:123 | the league wOBA is .320 without batters, else between the lowest and highest batter wOBA |
| PreseasonLambda.BattingRawFacts | data-pipelines/functions/mlb-preseason-adjustment/lambda_function.py:128-131 | a league-average batter is worth 2 WAR per 600 PA, and a higher wOBA is worth more |
| PreseasonLambda.BattingWarNear | data-pipelines/functions/mlb-preseason-adjustment/lambda_function.py:132 | the stored WAR is within half a hundredth of the raw value |
| PreseasonLambda.BattingTotals | data-pipelines/functions/mlb-preseason-adjustment/lambda_function.py:87-121 | the first loop returns the kept batters and the league numerator and denominator |
| PreseasonLambda.StoreAll | data-pipelines/functions/mlb-preseason-adjustment/lambda_function.py:126-132 | the store loop builds the dict with later rows overwriting earlier ones |
| PreseasonLambda.FetchBattingWar | data-pipelines/functions/mlb-preseason-adjustment/lambda_function.py:86-135 | the method returns the batting WAR table |
| PreseasonLambda.PitcherOf | data-pipelines/functions/mlb-preseason-adjustment/lambda_function.py:153-156 | a split is kept exactly when it reaches one inning |
| PreseasonLambda.CfipAsWritten | data-pipelines/functions/mlb-preseason-adjustment/lambda_function.py:176-177 | the FIP constant fails exactly when the kept pitchers have no innings |
| PreseasonLambda.PitchingWar | data-pipelines/functions/mlb-preseason-adjustment/lambda_function.py:176-186 | the guarded pitching table has exactly the kept pitchers' ids |
| PreseasonLambda.PitchingWarGuarded | data-pipelines/functions/mlb-preseason-adjustment/lambda_function.py:176-186 | the source's table fails exactly when no pitcher qualifies, and otherwise equals the guarded table |
| PreseasonLambda.ShortOutingFails | data-pipelines/functions/mlb-preseason-adjustment/lambda_function.py:155-177 | a single outing under one inning makes the source's table fail |
| PreseasonLambda.CfipCentresFip | data-pipelines/functions/mlb-preseason-adjustment/lambda_function.py:176-182 | the innings-weighted mean FIP equals the league ERA |
| PreseasonLambda.CfipValue | data-pipelines/functions/mlb-preseason-adjustment/lambda_function.py:177 | the constant is the league ERA less the league's events per inning |
| PreseasonLambda.EraTimesInnings | data-pipelines/functions/mlb-preseason-adjustment/lambda_function.py:169-176 | league ERA times innings is nine times the earned runs |
| PreseasonLambda.FipSum | data-pipelines/functions/mlb-preseason-adjustment/lambda_function.py:182 | summing innings times FIP gives the events plus the constant times the innings |
| PreseasonLambda.PitchingRawFacts | data-pipelines/functions/mlb-preseason-adjustment/lambda_function.py:182-185 | a pitcher at FIP 5.5 is worth nothing, below it positive, above it negative, and a lower FIP is worth more |
| PreseasonLambda.PitchingTotals | data-pipelines/functions/mlb-preseason-adjustment/lambda_function.py:148-174 | the first loop returns the kept pitchers and the league totals |
| PreseasonLambda.KeepPitcher | data-pipelines/functions/mlb-preseason-adjustment/lambda_function.py:150-174 | a qualifying pitcher is kept and added to the totals; anyone else changes nothing |
| PreseasonLambda.FetchPitchingWar | data-pipelines/functions/mlb-preseason-adjustment/lambda_function.py:147-189 | the method returns the source's pitching table, failing as it does |
| PreseasonLambda.BestsNonEmpty | data-pipelines/functions/mlb-preseason-adjustment/lambda_function.py:205-210 | a player has a season best exactly when the player appears in some season |
| PreseasonLambda.WarLookup | data-pipelines/functions/mlb-preseason-adjustment/lambda_function.py:192-225 | the lookup has exactly the players of all seasons |
| PreseasonLambda.SeasonStep | data-pipelines/functions/mlb-preseason-adjustment/lambda_function.py:206-210 | one season appends its best to each of its players and changes no one else |
| PreseasonLambda.AddSeason | data-pipelines/functions/mlb-preseason-adjustment/lambda_function.py:205-210 | the inner loop builds the per-player lists the function defines |
| PreseasonLambda.BuildWarLookup | data-pipelines/functions/mlb-preseason-adjustment/lambda_function.py:197-225 | the method returns the averaged lookup |
| PreseasonLambda.SeasonBestFacts | data-pipelines/functions/mlb-preseason-adjustment/lambda_function.py:207-209 | the season best is the larger WAR of a two-way player, else the one WAR present |
| PreseasonLambda.PlayerWarWithin | data-pipelines/functions/mlb-preseason-adjustment/lambda_function.py:217-222 | a player's averaged WAR lies within the range of the player's season bests, up to rounding |
| PreseasonLambda.OneSeason | data-pipelines/functions/mlb-preseason-adjustment/lambda_function.py:217-222 | over one season the lookup is the rounded season best |
| PreseasonLambda.TeamAdjustments | data-pipelines/functions/mlb-preseason-adjustment/lambda_function.py:296-321 | there is one entry per club some move names |
| PreseasonLambda.ComputeTeamAdjustments | data-pipelines/functions/mlb-preseason-adjustment/lambda_function.py:296-321 | the method returns the adjustments the function defines |
| PreseasonLambda.AdjustmentsFromLedger | data-pipelines/functions/mlb-preseason-adjustment/lambda_function.py:310-319 | the sorted-club loop builds the same adjustments |
| PreseasonLambda.AdjustmentNear | data-pipelines/functions/mlb-preseason-adjustment/lambda_function.py:313-319 | every published figure is within its rounding of the exact value |
| PreseasonLambda.UnknownPlayerAddsNothing | data-pipelines/functions/mlb-preseason-adjustment/lambda_function.py:301-319 | a move whose player has no WAR changes no club's figures |
| PreseasonLambda.ApplyAdjustments | data-pipelines/functions/mlb-preseason-adjustment/lambda_function.py:326-391 | the method writes the adjusted store and returns the summary the functions define |
| PreseasonLambda.ApplyIdempotent | data-pipelines/functions/mlb-preseason-adjustment/lambda_function.py:330-343 | a second run with any adjustments gives what a single run from the original store gives |
| PreseasonLambda.AdjustRowFacts | data-pipelines/functions/mlb-preseason-adjustment/lambda_function.py:345-356 | each rating is the standardised club's rating plus its shift, within rounding |
| PreseasonLambda.SummaryOrdered | data-pipelines/functions/mlb-preseason-adjustment/lambda_function.py:372-381 | the summary is a permutation of the adjusted ratings, highest first |
| OffseasonWar.CheckColumns | data-pipelines/scripts/offseason-war-analysis.py:30-45 | a file missing a required column stops the run; otherwise the result says whether all three blended columns are present |
| OffseasonWar.RowWars | data-pipelines/scripts/offseason-war-analysis.py:82-92 | an empty WAR cell counts as 0, and the blended figures are read only when the file has them |
| OffseasonWar.MoveOf | data-pipelines/scripts/offseason-war-analysis.py:94-102 | a listed move carries the player's name, the other club and the WAR rounded to two places |
| OffseasonWar.Moves | data-pipelines/scripts/offseason-war-analysis.py:104-120 | a club's move list has at most one entry per row |
| OffseasonWar.Finish | data-pipelines/scripts/offseason-war-analysis.py:123-135 | the rounding step keeps the club, its division and league, and the same moves in each list |
| OffseasonWar.TeamSummary | data-pipelines/scripts/offseason-war-analysis.py:48-137 | the summary has one record per club of the division table |
| OffseasonWar.PartialStep | data-pipelines/scripts/offseason-war-analysis.py:81-120 | one more row is one more step on each of its ends |
| OffseasonWar.Record | data-pipelines/scripts/offseason-war-analysis.py:104-120 | adding a row to one end changes only the record of the club that end names |
| OffseasonWar.BuildTeamSummary | data-pipelines/scripts/offseason-war-analysis.py:48-137 | the method returns the team summary the function defines |
| OffseasonWar.EveryClubListed | data-pipelines/scripts/offseason-war-analysis.py:62-79 | all 30 clubs appear with their own division and league, whether or not they moved |
| OffseasonWar.FinishNear | data-pipelines/scripts/offseason-war-analysis.py:123-132 | the rounded totals are within half a unit of the raw totals and the net within 0.15 of their difference |
| OffseasonWar.TotalsNearRawSums | data-pipelines/scripts/offseason-war-analysis.py:104-132 | each club's totals are within rounding of the raw sums of its rows |
| OffseasonWar.MoveListsSorted | data-pipelines/scripts/offseason-war-analysis.py:134-135 | each club's lists hold exactly its moves on that end, largest WAR first |
| OffseasonWar.MovesFromRows | data-pipelines/scripts/offseason-war-analysis.py:104-120 | a move is in a club's list exactly when some row names the club on that end |
| OffseasonWar.TransferRecordedTwice | data-pipelines/scripts/offseason-war-analysis.py:104-120 | a move between two listed clubs is a gain for one and a loss for the other, each naming the other club |
| OffseasonWar.RowWithoutListedClubs | data-pipelines/scripts/offseason-war-analysis.py:104-120 | a row naming no listed club changes nothing |
| OffseasonWar.Members | data-pipelines/scripts/offseason-war-analysis.py:142-148 | a division's member list is drawn from the clubs |
| OffseasonWar.MembersSpec | data-pipelines/scripts/offseason-war-analysis.py:142-144 | a club is listed under a division exactly when it belongs to it |
| OffseasonWar.FirstSeenSpec | data-pipelines/scripts/offseason-war-analysis.py:142-147 | each division that has clubs is met exactly once |
| OffseasonWar.BestIndex | data-pipelines/scripts/offseason-war-analysis.py:151 | the best club is the first with the largest net WAR |
| OffseasonWar.WorstIndex | data-pipelines/scripts/offseason-war-analysis.py:152 | the worst club is the first with the smallest net WAR |
| OffseasonWar.Lines | data-pipelines/scripts/offseason-war-analysis.py:146-161 | one line per division, in alphabetical order |
| OffseasonWar.GroupByDivision | data-pipelines/scripts/offseason-war-analysis.py:142-144 | the grouping loop keeps each division's clubs in order |
| OffseasonWar.LinesOfGroups | data-pipelines/scripts/offseason-war-analysis.py:146-161 | the per-division loop builds the lines the function defines |
| OffseasonWar.BuildDivisionSummary | data-pipelines/scripts/offseason-war-analysis.py:140-163 | the method returns the division summary |
| OffseasonWar.LineFacts | data-pipelines/scripts/offseason-war-analysis.py:147-160 | each line's best and worst are members of its division with the largest and smallest net WAR, and the average lies between them |
| OffseasonWar.SummaryOrdered | data-pipelines/scripts/offseason-war-analysis.py:162 | the division lines are ordered by average net WAR, one per division that has clubs |
| OffseasonWar.LinesCoverDivisions | data-pipelines/scripts/offseason-war-analysis.py:146-161 | the alphabetical lines name exactly the divisions that have clubs |
| OffseasonWar.InOrder | data-pipelines/scripts/offseason-war-analysis.py:233 | the clubs are listed in the division table's row order |
| OffseasonWar.BuildReport | data-pipelines/scripts/offseason-war-analysis.py:226-240 | the report counts the rows, lists every club once and orders the clubs by net WAR, largest first |
| FangraphsNetFwar.TrimStart | data-pipelines/model-2026-updates/fangraphs_net_fwar.py:78 | left-stripping leaves no leading whitespace and keeps the rest |
| FangraphsNetFwar.Strip | data-pipelines/model-2026-updates/fangraphs_net_fwar.py:78 | the stripped line starts and ends with no whitespace and is the original with only whitespace cut from either end |
| FangraphsNetFwar.StripKeeps | data-pipelines/model-2026-updates/fangraphs_net_fwar.py:78 | a string without surrounding whitespace is unchanged |
| FangraphsNetFwar.Collapse | data-pipelines/model-2026-updates/fangraphs_net_fwar.py:86 | collapsing doubled quotes never lengthens the line |
| FangraphsNetFwar.CollapseEscape | data-pipelines/model-2026-updates/fangraphs_net_fwar.py:84-86 | collapsing undoes doubled-quote escaping |
| FangraphsNetFwar.CollapseKeepsText | data-pipelines/model-2026-updates/fangraphs_net_fwar.py:86 | collapsing removes quotes only, keeping every other character in order |
| FangraphsNetFwar.CollapseNoPairs | data-pipelines/model-2026-updates/fangraphs_net_fwar.py:86 | a line without a doubled quote is unchanged |
| FangraphsNetFwar.Unwrap | data-pipelines/model-2026-updates/fangraphs_net_fwar.py:82-83 | one outer quote pair is removed when present at both ends |
| FangraphsNetFwar.CleanLine | data-pipelines/model-2026-updates/fangraphs_net_fwar.py:78-87 | a blank line is dropped; otherwise the line is stripped, unwrapped and collapsed |
| FangraphsNetFwar.CleanLineQuoted | data-pipelines/model-2026-updates/fangraphs_net_fwar.py:74-87 | a record quoted the way the export writes it cleans back to itself |
| FangraphsNetFwar.CleanLinesCount | data-pipelines/model-2026-updates/fangraphs_net_fwar.py:77-87 | there is one cleaned line per non-blank raw line |
| FangraphsNetFwar.CleanLinesQuoted | data-pipelines/model-2026-updates/fangraphs_net_fwar.py:69-89 | a file of quoted records cleans back to the records |
| FangraphsNetFwar.LoadAdditions | data-pipelines/model-2026-updates/fangraphs_net_fwar.py:76-87 | the cleaning loop returns the cleaned lines |
| FangraphsNetFwar.CanonicalCodes | data-pipelines/model-2026-updates/fangraphs_net_fwar.py:33-41 | every club code is kept, every FanGraphs code becomes a club code, and mapping twice is mapping once |
| FangraphsNetFwar.Prepare | data-pipelines/model-2026-updates/fangraphs_net_fwar.py:98-103 | the row gets its canonical club and a WAR of 0 when the cell does not parse |
| FangraphsNetFwar.PrepareStable | data-pipelines/model-2026-updates/fangraphs_net_fwar.py:98-103 | preparing twice changes nothing more |
| FangraphsNetFwar.GroupEnd | data-pipelines/model-2026-updates/fangraphs_net_fwar.py:110 | the lazy group ends at the first place the pattern can close |
| FangraphsNetFwar.SearchFrom | data-pipelines/model-2026-updates/fangraphs_net_fwar.py:126 | the search returns the leftmost match, with the shortest group there |
| FangraphsNetFwar.AcquiredFromMatches | data-pipelines/model-2026-updates/fangraphs_net_fwar.py:126-129 | the extracted nickname is a match's group, and there is none without a match |
| FangraphsNetFwar.AcquiredFromExample | data-pipelines/model-2026-updates/fangraphs_net_fwar.py:118-119 | the documented example's note names the Orioles |
| FangraphsNetFwar.NicknamesNameEveryClub | data-pipelines/model-2026-updates/fangraphs_net_fwar.py:44-53 | the nickname table names each of the 30 clubs exactly once |
| FangraphsNetFwar.Departure | data-pipelines/model-2026-updates/fangraphs_net_fwar.py:122-139 | a departure charges a club of the nickname table, with the same player and WAR and a note naming the acquirer |
| FangraphsNetFwar.DepartureFacts | data-pipelines/model-2026-updates/fangraphs_net_fwar.py:126-133 | a departure is charged to one of the 30 clubs; an unmatched note or unknown nickname gives none |
| FangraphsNetFwar.DepartureExample | data-pipelines/model-2026-updates/fangraphs_net_fwar.py:118-119 | Baltimore loses Grayson Rodriguez's 2.1 WAR |
| FangraphsNetFwar.TradeDepartures | data-pipelines/model-2026-updates/fangraphs_net_fwar.py:113-145 | there is at most one departure per addition |
| FangraphsNetFwar.DeparturesFromAdditions | data-pipelines/model-2026-updates/fangraphs_net_fwar.py:121-139 | every departure comes from an addition, and every addition that has one contributes it |
| FangraphsNetFwar.ExtractTradeDepartures | data-pipelines/model-2026-updates/fangraphs_net_fwar.py:121-145 | the loop returns the departures in order |
| FangraphsNetFwar.ComputeNetFwar | data-pipelines/model-2026-updates/fangraphs_net_fwar.py:152-172 | the loop and sort return the net-fWAR summary the function defines |
| FangraphsNetFwar.RecordNear | data-pipelines/model-2026-updates/fangraphs_net_fwar.py:158-170 | a club's row has its division and row counts, and totals within rounding of the raw sums |
| FangraphsNetFwar.NetFwarOrdered | data-pipelines/model-2026-updates/fangraphs_net_fwar.py:172 | the summary is a permutation of the club records, ordered by net WAR |
| FangraphsNetFwar.EveryClubListed | data-pipelines/model-2026-updates/fangraphs_net_fwar.py:55-62 | the division table has 30 rows, one per club |
| FangraphsNetFwar.UnlistedAdditionIgnored | data-pipelines/model-2026-updates/fangraphs_net_fwar.py:262-268 | an addition with an unknown club code changes no row of the summary |
| FangraphsNetFwar.UnlistedSubtractionIgnored | data-pipelines/model-2026-updates/fangraphs_net_fwar.py:262-268 | a subtraction with an unknown club code changes no row of the summary |
| FangraphsNetFwar.DeparturesCarryTradedWar | data-pipelines/model-2026-updates/fangraphs_net_fwar.py:256-259 | the WAR the departures take from sellers is the WAR of the traded additions |
| OffseasonWar.InitialTeams | data-pipelines/scripts/offseason-war-analysis.py:60-79 | every club of the division table starts with its division and league, no WAR and no moves, as the empty summary defines |
| OffseasonWar.RecordRow | data-pipelines/scripts/offseason-war-analysis.py:81-121 | one transaction row, added to the gaining and then the losing club, extends the running records by exactly that row |
| OffseasonWar.FinishTeams | data-pipelines/scripts/offseason-war-analysis.py:123-135 | the closing pass turns the running records into the team summary: rounded totals, net WAR, moves sorted by WAR |
| FangraphsDiagnostic.Names | data-pipelines/model-2026-updates/fangraphs_diagnostic.py:101-104 | the column names are listed in file order, one per column |
| FangraphsDiagnostic.LoadSimMatrixSpec | data-pipelines/model-2026-updates/fangraphs_diagnostic.py:92-110 | the load succeeds exactly when the suffix is supported and every column but `sim_id` is a club code, and keeps the other columns in order |
| FangraphsDiagnostic.FlagsOf | data-pipelines/model-2026-updates/fangraphs_diagnostic.py:121-136 | a club has one flag per trial, set exactly when it makes that trial's field |
| FangraphsDiagnostic.FlaggedField | data-pipelines/model-2026-updates/fangraphs_diagnostic.py:123-136 | flagged clubs are AL columns; each division's best is flagged and outranked by no division rival; at most three others are flagged, and no unflagged club has more wins than a wild card |
| FangraphsDiagnostic.ComputePlayoffFlags | data-pipelines/model-2026-updates/fangraphs_diagnostic.py:113-138 | the flag loop returns the flags the function defines |
| FangraphsDiagnostic.FieldInAl | data-pipelines/model-2026-updates/fangraphs_diagnostic.py:114-135 | every club of a trial's field is an American League column |
| FangraphsDiagnostic.MarkTrial | data-pipelines/model-2026-updates/fangraphs_diagnostic.py:135-136 | marking a trial sets the flags of its field and nothing else |
| FangraphsDiagnostic.Pct | data-pipelines/model-2026-updates/fangraphs_diagnostic.py:141-144 | a non-positive denominator gives NaN |
| FangraphsDiagnostic.PctSpec | data-pipelines/model-2026-updates/fangraphs_diagnostic.py:141-144 | a positive denominator gives the rounded percentage, between 0 and 100 for a count out of it |
| FangraphsDiagnostic.Window | data-pipelines/model-2026-updates/fangraphs_diagnostic.py:157-161 | the first count is the number of trials with wins in range, and the second is at most the first |
| FangraphsDiagnostic.WindowMade | data-pipelines/model-2026-updates/fangraphs_diagnostic.py:157-161 | the second count is the number of trials with wins in range and the flag set |
| FangraphsDiagnostic.MadeInWindowSnoc | data-pipelines/model-2026-updates/fangraphs_diagnostic.py:157-161 | one more trial adds one flagged in-window trial exactly when it is in the window and flagged |
| FangraphsDiagnostic.ConditionalSpec | data-pipelines/model-2026-updates/fangraphs_diagnostic.py:151-162 | the count is the number of trials in the window; it is 0 exactly when the percentage is NaN, else the percentage is that of the flagged trials in the window among them, in [0, 100] |
| FangraphsDiagnostic.WindowMonotone | data-pipelines/model-2026-updates/fangraphs_diagnostic.py:157-162 | a wider window holds at least as many trials and at least as many flagged ones |
| FangraphsDiagnostic.RivalsMembers | data-pipelines/model-2026-updates/fangraphs_diagnostic.py:165-172 | every rival is an American League column other than the club |
| FangraphsDiagnostic.RivalsSpec | data-pipelines/model-2026-updates/fangraphs_diagnostic.py:165-172 | the rivals are the k closest AL clubs by median-win gap, ties by code, and no omitted club is closer |
| FangraphsDiagnostic.NormalizedPairs | data-pipelines/model-2026-updates/fangraphs_diagnostic.py:193 | each column is paired with its lower-cased, stripped name |
| FangraphsDiagnostic.FirstFoundSpec | data-pipelines/model-2026-updates/fangraphs_diagnostic.py:194-197 | the lookup is nothing when no candidate is a key, else the value of the first candidate that is |
| FangraphsDiagnostic.FindColSpec | data-pipelines/model-2026-updates/fangraphs_diagnostic.py:192-197 | no column is found exactly when no column normalises to a candidate; otherwise the match is for the first such candidate |
| FangraphsDiagnostic.ScalePlayoffSpec | data-pipelines/model-2026-updates/fangraphs_diagnostic.py:226-227 | fractions up to 1.0 are scaled by 100 and larger values kept, so a fraction in [0, 1] becomes a percentage in [0, 100] |
| FangraphsDiagnostic.EntryOfSpec | data-pipelines/model-2026-updates/fangraphs_diagnostic.py:221-228 | a stored entry has at least one figure, the wins as read and the playoff figure scaled |
| FangraphsDiagnostic.ReadRowsKeys | data-pipelines/model-2026-updates/fangraphs_diagnostic.py:217-231 | only known clubs with at least one figure are stored |
| FangraphsDiagnostic.ReadRowsLast | data-pipelines/model-2026-updates/fangraphs_diagnostic.py:217-231 | a club is stored exactly when some row about it has a figure, holding the last such row's entry |
| FangraphsDiagnostic.FangraphsMapSpec | data-pipelines/model-2026-updates/fangraphs_diagnostic.py:200-231 | the loaded map holds known clubs only, each with the entry of its last row with a figure |
| FangraphsDiagnostic.FangraphsMapErrors | data-pipelines/model-2026-updates/fangraphs_diagnostic.py:206-214 | the file is refused when no team column, or neither a wins nor a playoff column, is found |
| FangraphsDiagnostic.LoadFangraphsMap | data-pipelines/model-2026-updates/fangraphs_diagnostic.py:216-231 | the row loop returns the map the function defines |
| FangraphsDiagnostic.WinsSeries | data-pipelines/model-2026-updates/fangraphs_diagnostic.py:248 | a club's win series has one total per trial |
| FangraphsDiagnostic.Trues | data-pipelines/model-2026-updates/fangraphs_diagnostic.py:256 | the flag count never exceeds the number of trials |
| FangraphsDiagnostic.CountsSpec | data-pipelines/model-2026-updates/fangraphs_diagnostic.py:251-256 | the exact-target count is within the window's and the at-or-above count; the overall percentage is NaN only without trials |
| FangraphsDiagnostic.FiguresSpec | data-pipelines/model-2026-updates/fangraphs_diagnostic.py:247-257 | the report's counts are nested, its percentage is NaN only without trials, and there are at most six rivals, none the club |
| FangraphsDiagnostic.BuildReport | data-pipelines/model-2026-updates/fangraphs_diagnostic.py:234-257 | a club that is not a matrix column or not an AL club is refused; otherwise the report's figures |
| Backfill.MondaysWeeksApart | data-pipelines/scripts/backfill-playoff-odds-2025.py:70-72 | of two different Mondays the later is at least a week after the earlier |
| Backfill.FirstMonday | data-pipelines/scripts/backfill-playoff-odds-2025.py:65-68 | the first loop stops at the first Monday on or after the start |
| Backfill.MondayDatesSpec | data-pipelines/scripts/backfill-playoff-odds-2025.py:63-73 | the dates are every Monday from start to end inclusive, each once, ascending and seven days apart |
| Backfill.SeasonMondays | data-pipelines/scripts/backfill-playoff-odds-2025.py:58-60 | the 2025 window gives 28 snapshots, from the first Monday of the season to the last |
| Backfill.GetMondayDates | data-pipelines/scripts/backfill-playoff-odds-2025.py:63-73 | the two loops return the Monday dates the function defines |
| Backfill.HistoryPartition | data-pipelines/scripts/backfill-playoff-odds-2025.py:114-117 | every history row is completed or remaining, never both |
| Backfill.WinnerOf | data-pipelines/scripts/backfill-playoff-odds-2025.py:123-126 | a completed game credits the home club only when it scored strictly more, otherwise the away club |
| Backfill.ActualWinsCount | data-pipelines/scripts/backfill-playoff-odds-2025.py:119-126 | a club's banked wins are the completed games it won |
| Backfill.ActualWinsTotal | data-pipelines/scripts/backfill-playoff-odds-2025.py:119-126 | summed over the clubs, the banked wins are one per completed game |
| Backfill.BankWins | data-pipelines/scripts/backfill-playoff-odds-2025.py:120-126 | the loop returns the banked wins the function defines |
| Backfill.CurrentEloKeys | data-pipelines/scripts/backfill-playoff-odds-2025.py:128-133 | a club has a rating exactly when it has a baseline rating or has played |
| Backfill.CurrentEloLast | data-pipelines/scripts/backfill-playoff-odds-2025.py:130-133 | a club that has played holds the rating its last completed game left it with |
| Backfill.CurrentEloBaseline | data-pipelines/scripts/backfill-playoff-odds-2025.py:129 | a club that has not played keeps its baseline rating |
| Backfill.LatestRatings | data-pipelines/scripts/backfill-playoff-odds-2025.py:128-133 | the loop returns the ratings the function defines |
| Backfill.SimFixture | data-pipelines/scripts/backfill-playoff-odds-2025.py:154-163 | a remaining game is skipped unless both clubs are rated, otherwise won at home with a probability strictly between 0 and 1 |
| Backfill.Fixtures | data-pipelines/scripts/backfill-playoff-odds-2025.py:154-163 | there is one fixture per remaining game |
| Backfill.SnapshotTrialTotal | data-pipelines/scripts/backfill-playoff-odds-2025.py:147-163 | in every trial the wins add up to the completed games plus one per simulated game |
| Backfill.Dated | data-pipelines/scripts/backfill-playoff-odds-2025.py:191-200 | each odds row gets the snapshot date and keeps its club and percentages |
| Backfill.SnapshotCountsSplit | data-pipelines/scripts/backfill-playoff-odds-2025.py:170-188 | a club makes the field as a division winner or a wild card, never both, so its playoff count is the sum of the other two |
| Backfill.SnapshotRows | data-pipelines/scripts/backfill-playoff-odds-2025.py:190-202 | the snapshot fails exactly when there are AL clubs but no trials; otherwise one dated row per AL club, every percentage in [0, 100] |
| Backfill.ComputeSnapshot | data-pipelines/scripts/backfill-playoff-odds-2025.py:98-202 | the method returns the snapshot the function defines, with the clubs sorted and distinct |
| Backfill.TrialsRead | data-pipelines/scripts/backfill-playoff-odds-2025.py:146-163 | the filled simulation matrix, read by trial, is the one the specification defines |
| InjuryImpact.SeasonWarIsMax | data-pipelines/model-2026-updates/injury_impact.py:96-105 | one season's WAR is the larger of the values that exist, negatives kept when nothing larger exists |
| InjuryImpact.LookupWar | data-pipelines/model-2026-updates/injury_impact.py:86-118 | no id gives no WAR; the current season wins when either table has the id, else the prior season, else nothing |
| InjuryImpact.LookupAgreesWithShared | data-pipelines/model-2026-updates/injury_impact.py:86-118 | the script's lookup agrees with the shared injury layer's merge-then-look-up |
| InjuryImpact.TeamImpactOf | data-pipelines/model-2026-updates/injury_impact.py:209-218 | the club row names the club and counts all its injured players |
| InjuryImpact.TeamImpactSpec | data-pipelines/model-2026-updates/injury_impact.py:176-216 | counts split into pitchers and position players, at most all are mapped, and pitcher WAR lost is a non-negative part of the club's WAR lost |
| InjuryImpact.TeamImpactFor | data-pipelines/model-2026-updates/injury_impact.py:174-218 | the inner loop returns the club row and player rows the functions define |
| InjuryImpact.Impacts | data-pipelines/model-2026-updates/injury_impact.py:174-218 | there is one club row per club |
| InjuryImpact.AllPlayerRowsCount | data-pipelines/model-2026-updates/injury_impact.py:181-207 | every injured player of a club has one row in the players file |
| InjuryImpact.ClubRows | data-pipelines/model-2026-updates/injury_impact.py:174-218 | the club loop returns the rows in club order |
| InjuryImpact.AssessTeams | data-pipelines/model-2026-updates/injury_impact.py:171-220 | club rows in abbreviation order, then sorted by WAR lost with ties kept in club order; one player row per injured player |
| InjuryImpact.AssessmentOrdered | data-pipelines/model-2026-updates/injury_impact.py:220 | the published rows are ordered by WAR lost, largest first, and are exactly the clubs' rows |
| InjuryImpact.FilterTeams | data-pipelines/model-2026-updates/injury_impact.py:135-136 | without a filter every club is kept; with one, only clubs with that abbreviation |
| InjuryImpact.IlMap | data-pipelines/model-2026-updates/injury_impact.py:144-150 | the injured-list map has exactly the clubs' abbreviations as keys |
| InjuryImpact.IlMapLastWins | data-pipelines/model-2026-updates/injury_impact.py:146-148 | each club's list is the injured part of the last roster listed under that abbreviation |
| InjuryImpact.PullIlRosters | data-pipelines/model-2026-updates/injury_impact.py:144-150 | the loop returns the injured lists and the ids of every injured player |
| InjuryImpact.AssessInjuryImpact | data-pipelines/model-2026-updates/injury_impact.py:121-220 | nothing when the filter matches no club; else the sorted club rows and the players file |
| PrecomputeFeatures.SeasonConstant | data-pipelines/model-2026-updates/precompute_features.py:205-216 | the constant fails exactly when the file has no innings, and otherwise makes the league's FIP equal its ERA |
| PrecomputeFeatures.FallbackUnused | data-pipelines/model-2026-updates/precompute_features.py:215-216 | whenever a constant exists the league ERA is the real one, never the 4.0 fallback |
| PrecomputeFeatures.Kept | data-pipelines/model-2026-updates/precompute_features.py:83-97 | kept starts come in log order and all have innings |
| PrecomputeFeatures.FetchGameLog | data-pipelines/model-2026-updates/precompute_features.py:71-101 | the loop returns the sorted game log |
| PrecomputeFeatures.GameLogSpec | data-pipelines/model-2026-updates/precompute_features.py:82-101 | a fetched log is in date order, every start has innings, and it holds exactly the kept starts; a parse failure gives an empty log |
| PrecomputeFeatures.Prior | data-pipelines/model-2026-updates/precompute_features.py:113 | the window never holds more starts than precede start i |
| PrecomputeFeatures.RollingAt | data-pipelines/model-2026-updates/precompute_features.py:111-143 | the entry for a start carries that start's date |
| PrecomputeFeatures.ComputeRollingFip | data-pipelines/model-2026-updates/precompute_features.py:104-144 | the loop returns one entry per start, in order |
| PrecomputeFeatures.RollingNoLookahead | data-pipelines/model-2026-updates/precompute_features.py:107-113 | a start's entry depends only on its date and the starts before it |
| PrecomputeFeatures.RollingWindow | data-pipelines/model-2026-updates/precompute_features.py:113-128 | the window holds the last `window` starts or all earlier ones, and the first start never has a FIP |
| PrecomputeFeatures.RollingValue | data-pipelines/model-2026-updates/precompute_features.py:122-143 | a window whose starts all have innings yields a FIP within half a hundredth of the exact value |
| PrecomputeFeatures.Relievers | data-pipelines/model-2026-updates/precompute_features.py:155-170 | a team's relievers are its rows with fewer than five starts and at least five innings, in file order |
| PrecomputeFeatures.GroupRelievers | data-pipelines/model-2026-updates/precompute_features.py:153-170 | the grouping loop collects each team's relievers |
| PrecomputeFeatures.RelieverInnings | data-pipelines/model-2026-updates/precompute_features.py:158 | a team with relievers has at least five bullpen innings |
| PrecomputeFeatures.TeamRows | data-pipelines/model-2026-updates/precompute_features.py:172-190 | the second loop writes one row per listed team |
| PrecomputeFeatures.ComputeBullpenFip | data-pipelines/model-2026-updates/precompute_features.py:147-190 | one row per team with relievers, in ascending team order, each the team's bullpen row |
| PrecomputeFeatures.BullpenRowValue | data-pipelines/model-2026-updates/precompute_features.py:175-189 | the bullpen FIP is the relievers' innings-weighted FIP within rounding, and the innings their total |
| PrecomputeFeatures.WrittenOf | data-pipelines/model-2026-updates/precompute_features.py:268-270 | only entries with a FIP reach the file |
| PrecomputeFeatures.AppendWritten | data-pipelines/model-2026-updates/precompute_features.py:248-250 | the write step appends the entries that have a FIP |
| PrecomputeFeatures.AddPitcher | data-pipelines/model-2026-updates/precompute_features.py:245-253 | a pitcher with starts contributes its rolling entries that have a FIP |
| PrecomputeFeatures.RollingRows | data-pipelines/model-2026-updates/precompute_features.py:244-270 | the season loop returns the rolling file of every pitcher in id order |
| PrecomputeFeatures.ProcessSeason | data-pipelines/model-2026-updates/precompute_features.py:193-283 | the season fails exactly when the file has no innings; otherwise the constant, the rolling rows of every three-start pitcher in id order, and the bullpen table |
| PrecomputeFeatures.RollingFileRows | data-pipelines/model-2026-updates/precompute_features.py:241-270 | every row of the rolling file belongs to a listed pitcher and had one to seven earlier starts in its window |
| PitcherFip.ParseIp | data-pipelines/model-2026-updates/pitcher_fip.py:25-34 | the empty string is 0 innings, and a piece that is not a number is the error case |
| PitcherFip.ParseIpWhole | data-pipelines/model-2026-updates/pitcher_fip.py:25-34 | a whole number of innings reads back as itself |
| PitcherFip.ParseIpThirds | data-pipelines/model-2026-updates/pitcher_fip.py:25-34 | "W.T" reads as W + T/3: the digit after the point counts thirds, not tenths |
| PitcherFip.ParseIpOuts | data-pipelines/model-2026-updates/pitcher_fip.py:25-34 | the box-score notation of a number of outs reads back as those outs over three |
| PitcherFip.RowStarters | data-pipelines/model-2026-updates/pitcher_fip.py:37-52 | a row offers at most two starters, home first |
| PitcherFip.FirstWinsKeys | data-pipelines/model-2026-updates/pitcher_fip.py:48-51 | an id is kept exactly when some offered pair has it |
| PitcherFip.FirstWinsValue | data-pipelines/model-2026-updates/pitcher_fip.py:48-51 | a kept id carries the name of the first pair offered with that id |
| PitcherFip.AddRowStarters | data-pipelines/model-2026-updates/pitcher_fip.py:42-51 | one row adds its home and then its away starter, each only when the id is new |
| PitcherFip.GetStarterIds | data-pipelines/model-2026-updates/pitcher_fip.py:37-52 | the starters map is the first-name-wins map of the pairs offered by the final rows, in row order |
| PitcherFip.StartersFromFinalRows | data-pipelines/model-2026-updates/pitcher_fip.py:37-52 | a pitcher is a starter exactly when some final row names them as home or away starter; other rows add nobody |
| PitcherFip.CalculateFipConstant | data-pipelines/model-2026-updates/pitcher_fip.py:103-123 | 3.10 for a league without innings, else the constant that lifts raw league FIP to league ERA |
| PitcherFip.CalculateFip | data-pipelines/model-2026-updates/pitcher_fip.py:126-130 | no FIP exactly when the innings are not positive; otherwise innings times (FIP less the constant) is the FIP numerator |
| PitcherFip.ConstantTimesTotal | data-pipelines/model-2026-updates/pitcher_fip.py:103-123 | the constant times total innings is nine times the league's earned runs less the league numerator |
| PitcherFip.WeightedSum | data-pipelines/model-2026-updates/pitcher_fip.py:103-130 | for any constant, innings times FIP sums to the league numerator plus the constant times total innings |
| PitcherFip.WeightedFipIsLeagueEra | data-pipelines/model-2026-updates/pitcher_fip.py:103-130 | with the constant from the same pitchers, the innings-weighted league FIP equals the league ERA |
| PitcherFip.BuildFipTable | data-pipelines/model-2026-updates/pitcher_fip.py:180-198 | the table is the rows of the pitchers with a FIP, stably sorted by FIP, lowest first |
| PitcherFip.FipTableSpec | data-pipelines/model-2026-updates/pitcher_fip.py:180-198 | the table is ordered by FIP, is a permutation of the rows of the pitchers with innings, and has a row for every pitcher when all have innings |
| BallparkDistances.BallparkRowsFollowLeague | data-pipelines/model-2026-updates/ballpark_distances.py:23-55 | each of the 30 park rows names a club of the league club table, at a known place |
| BallparkDistances.BallparksCanonical | data-pipelines/model-2026-updates/ballpark_distances.py:23-55 | the park table lists exactly the 30 clubs, once each, with UTC offsets from -8 to -5 |
| BallparkDistances.TimezoneChangeAntisymmetric | data-pipelines/model-2026-updates/ballpark_distances.py:67-69 | the shift back is the opposite of the shift out, and staying put is no shift |
| BallparkDistances.BuildDistances | data-pipelines/model-2026-updates/ballpark_distances.py:77-86 | an entry for every ordered pair of clubs, 0 on the diagonal and the great-circle distance elsewhere |
| BallparkDistances.Direction | data-pipelines/model-2026-updates/ballpark_distances.py:121 | "east" exactly for a positive shift, "west" exactly for a negative one, "same" exactly for none |
| BallparkDistances.PairRows | data-pipelines/model-2026-updates/ballpark_distances.py:107-122 | the pair loop builds the row list of every club against each later club |
| BallparkDistances.RowsFor | data-pipelines/model-2026-updates/ballpark_distances.py:110-122 | the inner loop builds the rows of one club against every later club |
| BallparkDistances.RowsFromOrdered | data-pipelines/model-2026-updates/ballpark_distances.py:110-122 | every row names two clubs of the table in ascending order |
| BallparkDistances.RowsFromCount | data-pipelines/model-2026-updates/ballpark_distances.py:110-122 | club i has a row against each later club and no other |
| BallparkDistances.PairsUpToAll | data-pipelines/model-2026-updates/ballpark_distances.py:107-122 | n clubs make n(n - 1)/2 unordered pairs |
| BallparkDistances.AllRowsCount | data-pipelines/model-2026-updates/ballpark_distances.py:107-122 | the first m clubs have a row against each club after them |
| BallparkDistances.AllRowsOrdered | data-pipelines/model-2026-updates/ballpark_distances.py:107-122 | every row is a pair of clubs in ascending order, the first before the second, and is the row made from their parks: rounded distance, the shift of the trip from the first to the second, and its direction |
| BallparkDistances.RowsFromHas | data-pipelines/model-2026-updates/ballpark_distances.py:110-122 | a club's rows include its row against every later club of the list |
| BallparkDistances.AllRowsHas | data-pipelines/model-2026-updates/ballpark_distances.py:107-122 | every ascending pair of listed clubs has its row in the pair list |
| BallparkDistances.PairsCovered | data-pipelines/model-2026-updates/ballpark_distances.py:107-123 | after sorting, the pair list still has the row of every ascending pair of clubs |
| BallparkDistances.FatigueFilter | data-pipelines/model-2026-updates/ballpark_distances.py:159 | every kept row is a fatigue trip (two or more hours east over at least 1000 miles) taken from the pair list |
| BallparkDistances.DistanceTable | data-pipelines/model-2026-updates/ballpark_distances.py:72-160 | the distances cover every ordered pair; the pair list has one row per unordered pair, sorted longest first, each row being the ascending pair's distance, shift and direction, and every ascending pair has its row; the fatigue list is exactly the fatigue trips of the pair list, longest first |
| BallparkDistances.PairCount | data-pipelines/model-2026-updates/ballpark_distances.py:107-123 | distinct clubs in ascending order make one row per unordered pair |
| BallparkDistances.SortedPairs | data-pipelines/model-2026-updates/ballpark_distances.py:123 | the sorted pair list is longest first and every row in it is the row of an ascending pair of clubs |
| BallparkDistances.FatigueTrips | data-pipelines/model-2026-updates/ballpark_distances.py:159-160 | the fatigue list is longest first and holds exactly the fatigue trips of the pair list |
| BallparkDistances.FullTableRows | data-pipelines/model-2026-updates/ballpark_distances.py:107-123 | with the real park table the pair list has 435 rows |
| CoreBenchmarks.SafeFloat | data-pipelines/functions/mlb-core-benchmarks/lambda_function.py:211-218 | never NaN; a number exactly when the cell is a number, and then the same number |
| CoreBenchmarks.CleanWithoutNaN | data-pipelines/functions/mlb-core-benchmarks/lambda_function.py:211-218 | reading every cell through the NaN-to-missing conversion leaves a row without NaN cells as it is |
| CoreBenchmarks.TrimEnd | data-pipelines/functions/mlb-core-benchmarks/lambda_function.py:201 | the text without its trailing whitespace: a prefix ending in a non-space, followed only by whitespace |
| CoreBenchmarks.TrailingRun | data-pipelines/functions/mlb-core-benchmarks/lambda_function.py:201 | the trailing run of non-space characters, preceded by a space or the start of the text |
| CoreBenchmarks.LastWord | data-pipelines/functions/mlb-core-benchmarks/lambda_function.py:201 | the last word of a name with a word: non-empty, with no whitespace, and found at the end of the name |
| CoreBenchmarks.Lower | data-pipelines/functions/mlb-core-benchmarks/lambda_function.py:201-202 | lower-casing keeps the length and lower-cases each character |
| CoreBenchmarks.FirstNamed | data-pipelines/functions/mlb-core-benchmarks/lambda_function.py:198-200 | the first row with exactly the name, or the row count when there is none |
| CoreBenchmarks.FuzzyMatchesMembers | data-pipelines/functions/mlb-core-benchmarks/lambda_function.py:201-202 | the fallback keeps exactly the rows whose name contains the last name, ignoring case |
| CoreBenchmarks.FindPlayer | data-pipelines/functions/mlb-core-benchmarks/lambda_function.py:195-208 | a found player is one of the rows |
| CoreBenchmarks.FindPlayerSpec | data-pipelines/scripts/core-benchmarks.py:446-458 | an exact name wins, the first in row order; without one, a row is found exactly when a single row matches the last name |
| CoreBenchmarks.PerSeason | data-pipelines/functions/mlb-core-benchmarks/lambda_function.py:226-248 | a pace is the rate times 162, within half a unit of the kept decimal; NaN stays NaN |
| CoreBenchmarks.ScriptStatValue | data-pipelines/scripts/core-benchmarks.py:461-502 | no row gives missing; only a pace can be NaN; a pace is defined only with positive games and is within half a unit of its last decimal of the count per game times 162 (home runs per game played, the others per team game); a percentage key gives 100 times the cell; any other key gives the cell itself |
| CoreBenchmarks.LambdaStatValue | data-pipelines/functions/mlb-core-benchmarks/lambda_function.py:221-259 | never NaN; no row gives missing |
| CoreBenchmarks.LambdaStatIsScriptOnClean | data-pipelines/functions/mlb-core-benchmarks/lambda_function.py:221-259 | the scheduled function reads a row as the script reads the same row with its NaN cells emptied |
| CoreBenchmarks.StatValuesAgreeWithoutNaN | data-pipelines/scripts/core-benchmarks.py:461-502 | on a row without NaN cells the two deployments read the same value |
| CoreBenchmarks.ScriptRawValue | data-pipelines/scripts/core-benchmarks.py:513-521 | only a pace key on a row has a raw count, and it is the counting cell to within 0.05; NaN passes through |
| CoreBenchmarks.LambdaRawValue | data-pipelines/functions/mlb-core-benchmarks/lambda_function.py:270-278 | never NaN, and only a pace key on a row has a raw count |
| CoreBenchmarks.LambdaRawIsScriptOnClean | data-pipelines/functions/mlb-core-benchmarks/lambda_function.py:270-278 | the function's raw count is the script's over the row with NaN cells emptied |
| CoreBenchmarks.RoundStat | data-pipelines/functions/mlb-core-benchmarks/lambda_function.py:292-304 | missing and NaN pass through; a number moves by at most half a unit of its stat's last decimal and lands on that grid |
| CoreBenchmarks.Evaluate | data-pipelines/functions/mlb-core-benchmarks/lambda_function.py:281-289 | met only by a number: at least the target for "gte", at most the target for "lte", never for another direction |
| CoreBenchmarks.PlayerNamesHaveWords | data-pipelines/functions/mlb-core-benchmarks/lambda_function.py:69-174 | every tracked name has a last word, so the fallback lookup is always defined |
| CoreBenchmarks.GamesColumn | data-pipelines/functions/mlb-core-benchmarks/lambda_function.py:308-315 | the games cell of each tracked batter, in list order |
| CoreBenchmarks.MaxGamesIsMax | data-pipelines/functions/mlb-core-benchmarks/lambda_function.py:307-316 | the maximum bounds the games of every found batter and is one of them, or 0 |
| CoreBenchmarks.TeamGames | data-pipelines/functions/mlb-core-benchmarks/lambda_function.py:307-316 | the estimate is at least one game |
| CoreBenchmarks.TeamGamesBound | data-pipelines/functions/mlb-core-benchmarks/lambda_function.py:307-316 | the estimate is at least every found batter's games, and is one of them unless it is the 162 fallback |
| CoreBenchmarks.MaxGamesOf | data-pipelines/functions/mlb-core-benchmarks/lambda_function.py:309-315 | the loop computes the maximum games of the column |
| CoreBenchmarks.EstimateTeamGames | data-pipelines/functions/mlb-core-benchmarks/lambda_function.py:307-316 | the method computes the team-games estimate |
| CoreBenchmarks.Filter | data-pipelines/scripts/core-benchmarks.py:551 | a row is kept exactly when it is in the input and passes the test |
| CoreBenchmarks.BullpenOf | data-pipelines/functions/mlb-core-benchmarks/lambda_function.py:319-342 | none without relievers or without innings; ERA, K/9 and WHIP each within half a hundredth of the totals' exact rate |
| CoreBenchmarks.ScriptBullpenIsBalRelievers | data-pipelines/scripts/core-benchmarks.py:549-580 | the script's bullpen is the aggregate over exactly the BAL rows with more relief than starting innings |
| CoreBenchmarks.Map | data-pipelines/functions/mlb-core-benchmarks/lambda_function.py:368-386 | one output per input, the i-th from the i-th |
| CoreBenchmarks.EntryOfSpec | data-pipelines/functions/mlb-core-benchmarks/lambda_function.py:368-386 | an entry keeps its definition's key, target and direction; met only by a number on the right side; current within half a unit of the stat read; only a pace carries a raw count |
| CoreBenchmarks.LambdaEntryIsScriptOnClean | data-pipelines/functions/mlb-core-benchmarks/lambda_function.py:368-386 | the function judges a row as the script judges it with NaN cells emptied |
| CoreBenchmarks.PlayerEntries | data-pipelines/functions/mlb-core-benchmarks/lambda_function.py:368-386 | one entry per target, in order |
| CoreBenchmarks.JudgePlayer | data-pipelines/functions/mlb-core-benchmarks/lambda_function.py:363-395 | one player's output: the row from the pitching or batting table and the entries of each target |
| CoreBenchmarks.JudgePlayers | data-pipelines/functions/mlb-core-benchmarks/lambda_function.py:363-395 | one output per definition, in order |
| CoreBenchmarks.JudgeBullpen | data-pipelines/functions/mlb-core-benchmarks/lambda_function.py:398-419 | the bullpen line judges the aggregated rates against its targets |
| CoreBenchmarks.BuildBenchmarks | data-pipelines/functions/mlb-core-benchmarks/lambda_function.py:349-429 | the tracked players, then the bullpen, as the output specification defines |
| CoreBenchmarks.BenchmarksShape | data-pipelines/functions/mlb-core-benchmarks/lambda_function.py:362-419 | eleven lines: the ten tracked players, then the bullpen |
| CoreBenchmarks.PlayersKeepDefinitions | data-pipelines/functions/mlb-core-benchmarks/lambda_function.py:362-395 | each player comes out in definition order with one entry per target, and is a pitcher exactly when it is a pitcher definition |
| CoreBenchmarks.PitcherFlags | data-pipelines/functions/mlb-core-benchmarks/lambda_function.py:360 | the pitcher-name test picks out exactly the pitcher definitions |
| CoreBenchmarks.MetMeansOnTarget | data-pipelines/functions/mlb-core-benchmarks/lambda_function.py:371 | a met entry anywhere in the output holds a number on the right side of its target |
| CoreBenchmarks.LambdaNeverNaN | data-pipelines/functions/mlb-core-benchmarks/lambda_function.py:369-372 | the function's output never holds NaN, in a current value or a raw count |
| CoreBenchmarks.BenchmarksNeverNaN | data-pipelines/functions/mlb-core-benchmarks/lambda_function.py:363-420 | for any list of tracked players the function's players and bullpen entries hold no NaN |
| CoreBenchmarks.PlayersOutNeverNaN | data-pipelines/functions/mlb-core-benchmarks/lambda_function.py:363-372 | the function's player entries hold no NaN |
| BootstrapRetrosheet.SplitOnce | data-pipelines/scripts/bootstrap-retrosheet.py:82 | splitting once at the separator gives the text before its first occurrence and the rest, which rejoin to the input |
| BootstrapRetrosheet.Range | data-pipelines/scripts/bootstrap-retrosheet.py:83 | the years a through b inclusive, ascending, and none when b comes before a |
| BootstrapRetrosheet.ParseYearRangeSpan | data-pipelines/scripts/bootstrap-retrosheet.py:79-84 | "a-b" for a non-negative start year reads as a through b inclusive |
| BootstrapRetrosheet.ParseSingleYear | data-pipelines/scripts/bootstrap-retrosheet.py:79-84 | a single non-negative year reads back as itself; a negative year's minus sign is taken for a range separator, so it is an error |
| BootstrapRetrosheet.GameDate | data-pipelines/scripts/bootstrap-retrosheet.py:152-153 | as written: a date exists exactly when the id's last eight characters are digits naming a calendar day a timestamp can hold, and it is those eight written year-month-day |
| BootstrapRetrosheet.ParseYmd | data-pipelines/scripts/bootstrap-retrosheet.py:153 | a date string exists exactly for eight digits naming a day from 1677-09-22 to 2262-04-11, and it is those digits with dashes after the year and the month |
| BootstrapRetrosheet.FourDigits | data-pipelines/scripts/bootstrap-retrosheet.py:153 | four digits read as their decimal value |
| BootstrapRetrosheet.TwoDigits | data-pipelines/scripts/bootstrap-retrosheet.py:153 | two digits read as their decimal value |
| BootstrapRetrosheet.GameDateNeverSet | data-pipelines/scripts/bootstrap-retrosheet.py:152-153 | for every twelve-character game id of a year from 1800 to 2099 the written date is missing |
| BootstrapRetrosheet.OpenerDateAsWritten | data-pipelines/scripts/bootstrap-retrosheet.py:152-153 | Baltimore's 2024 opener BAL202404010 gets no date |
| BootstrapRetrosheet.IntendedGameDate | data-pipelines/scripts/bootstrap-retrosheet.py:152-153 | intended: a date exists exactly when the eight characters before a final digit name a valid day, and it is those eight written year-month-day |
| BootstrapRetrosheet.IntendedGameDateReads | data-pipelines/scripts/bootstrap-retrosheet.py:152-153 | a club code, a valid YYYYMMDD and a game number give that day |
| BootstrapRetrosheet.OpenerDateIntended | data-pipelines/scripts/bootstrap-retrosheet.py:152-153 | Baltimore's 2024 opener is dated 2024-04-01 |
| BootstrapRetrosheet.ExtractBattingExact | data-pipelines/scripts/bootstrap-retrosheet.py:141-178 | the batting lines are exactly the club's rows with a plate appearance, each under the club, the season and the player's display name |
| BootstrapRetrosheet.ExtractPitchingExact | data-pipelines/scripts/bootstrap-retrosheet.py:181-216 | the pitching lines are exactly the club's rows with an out recorded |
| BootstrapRetrosheet.GroupsPartition | data-pipelines/scripts/bootstrap-retrosheet.py:224-240 | summing a column group by group over every group gives its total: grouping neither loses nor repeats a line |
| BootstrapRetrosheet.BattingSeasonOf | data-pipelines/scripts/bootstrap-retrosheet.py:224-254 | a season row carries its group's key, the season, the group's sum of each of the fifteen columns, and avg, obp, slg, ops and wOBA computed from those sums with singles as hits less extra-base hits |
| BootstrapRetrosheet.SeasonSingles | data-pipelines/scripts/bootstrap-retrosheet.py:250 | the singles fed to wOBA equal the group's sum of per-game singles |
| BootstrapRetrosheet.GroupSumAdd | data-pipelines/scripts/bootstrap-retrosheet.py:224-240 | a group's sum of a column that is the sum of two columns is the sum of their group sums |
| BootstrapRetrosheet.PitchingSeasonOf | data-pipelines/scripts/bootstrap-retrosheet.py:264-287 | a season row carries its group's key, the season, its count of appearances, the group's sum of each of the thirteen summed columns, innings from the summed outs, and ERA, WHIP, K/9, BB/9 and FIP (with the default constant) from those sums |
| BootstrapRetrosheet.BattingSeasons | data-pipelines/scripts/bootstrap-retrosheet.py:224-254 | one row per key, in key order, each the season of its group |
| BootstrapRetrosheet.PitchingSeasons | data-pipelines/scripts/bootstrap-retrosheet.py:264-287 | one row per key, in key order, each the season of its group |
| BootstrapRetrosheet.GroupKeys | data-pipelines/scripts/bootstrap-retrosheet.py:224 | the group keys, strictly ascending, are exactly the keys of the lines |
| BootstrapRetrosheet.AggregateBattingSeason | data-pipelines/scripts/bootstrap-retrosheet.py:219-256 | one row per group in key order; every plate appearance is counted in exactly one row |
| BootstrapRetrosheet.AggregatePitchingSeason | data-pipelines/scripts/bootstrap-retrosheet.py:259-289 | one row per group in key order; every appearance and every out is counted once |
| BootstrapRetrosheet.MappedSum | data-pipelines/scripts/bootstrap-retrosheet.py:224-240 | summing a column of the rows built one per key is summing the per-key values |
| BootstrapRetrosheet.OneGroupPerPlayer | data-pipelines/scripts/bootstrap-retrosheet.py:155-157 | within one club's lines the name and the club follow from the player id, so each player makes one group |
| BootstrapRetrosheet.RosterNames | data-pipelines/scripts/bootstrap-retrosheet.py:119-132 | every named id comes from a roster row of at least three fields |
| BootstrapRetrosheet.RosterNamesLastWins | data-pipelines/scripts/bootstrap-retrosheet.py:126-131 | an id is named "first last" from the last row that lists it |
| BootstrapRetrosheet.BuildPlayerIdMap | data-pipelines/scripts/bootstrap-retrosheet.py:292-297 | every roster id once, ascending, with its name |
| BootstrapRetrosheet.MaxOf | data-pipelines/scripts/bootstrap-retrosheet.py:403 | the latest year is one of the years and no year is later |
| BootstrapRetrosheet.Bootstrap | data-pipelines/scripts/bootstrap-retrosheet.py:390-469 | an unreadable range or one with no year is an error; otherwise the outputs, names and latest season are those of the readable years, for the upper-cased team code |
| BootstrapRetrosheet.LatestOfRange | data-pipelines/scripts/bootstrap-retrosheet.py:403-460 | for a parsed range the latest year is the last one, with its lines when its files could be read and none otherwise |
| ScheduleSync.Prefer | data-pipelines/functions/mlb-schedule-sync/lambda_function.py:74-75 | a backfilled score replaces the feed's only when it is present |
| ScheduleSync.GameRow | data-pipelines/functions/mlb-schedule-sync/lambda_function.py:72-101 | the row of a game with its teams: one cell per column of the header, or none for a final game still missing a score |
| ScheduleSync.ExtractGameRow | data-pipelines/functions/mlb-schedule-sync/lambda_function.py:63-102 | a game without its teams raises `KeyError`; otherwise a row has exactly the twelve columns of the header |
| ScheduleSync.ExtractSkips | data-pipelines/functions/mlb-schedule-sync/lambda_function.py:63-79 | a game without its teams raises; otherwise a game is dropped exactly when it is final and a score is still missing after the live feed has been asked |
| ScheduleSync.ScoresKept | data-pipelines/functions/mlb-schedule-sync/lambda_function.py:72-75 | a score the feed has is never replaced by a missing backfill, and a game that is not final, or has both scores, is never backfilled |
| ScheduleSync.RowColumns | data-pipelines/functions/mlb-schedule-sync/lambda_function.py:88-101 | the cells under their column names: the date, the decimal game id, the scores (blank only for a game that is not final), the venue |
| ScheduleSync.BlockEntries | data-pipelines/functions/mlb-schedule-sync/lambda_function.py:117-119 | each game of a block paired with the block's date, in order |
| ScheduleSync.Expected | data-pipelines/functions/mlb-schedule-sync/lambda_function.py:117-130 | every row written has the twelve columns |
| ScheduleSync.RunSeen | data-pipelines/functions/mlb-schedule-sync/lambda_function.py:114-125 | the ids seen are those of the regular-season games so far |
| ScheduleSync.SeenIsFirst | data-pipelines/functions/mlb-schedule-sync/lambda_function.py:122-125 | an id is new exactly when no earlier regular-season game has the same game id: the string key loses nothing |
| ScheduleSync.RunRows | data-pipelines/functions/mlb-schedule-sync/lambda_function.py:117-130 | the loop raises exactly when a first regular-season listing lacks its teams, and otherwise writes exactly the rows of the first regular-season listings, in feed order |
| ScheduleSync.FailsSnoc | data-pipelines/functions/mlb-schedule-sync/lambda_function.py:117-128 | the loop fails on a longer feed exactly when it fails on the shorter one or the new game is a first listing without its teams |
| ScheduleSync.FirstListingPrefix | data-pipelines/functions/mlb-schedule-sync/lambda_function.py:122-125 | whether a game is the first listing of its id depends only on the games before it |
| ScheduleSync.RunErrSticky | data-pipelines/functions/mlb-schedule-sync/lambda_function.py:140-142 | once raised, an error ends the loop whatever games follow |
| ScheduleSync.RunGamesErrSticky | data-pipelines/functions/mlb-schedule-sync/lambda_function.py:140-142 | an error raised at a game of a date ends the whole date with the error |
| ScheduleSync.RunBlock | data-pipelines/functions/mlb-schedule-sync/lambda_function.py:117-119 | taking the games before a date and then that date's games one by one is the same run as taking the date's games from the earlier run's state |
| ScheduleSync.EntriesPrefix | data-pipelines/functions/mlb-schedule-sync/lambda_function.py:117-119 | the games of the first dates come first among the games of all dates |
| ScheduleSync.ExpectedFrom | data-pipelines/functions/mlb-schedule-sync/lambda_function.py:117-130 | each row written is the row of a first regular-season listing of the feed |
| ScheduleSync.ExpectedDistinct | data-pipelines/functions/mlb-schedule-sync/lambda_function.py:122-125 | no game id is written twice |
| ScheduleSync.LambdaHandler | data-pipelines/functions/mlb-schedule-sync/lambda_function.py:104-142 | a failed fetch, or a first regular-season listing without its teams, gives status 500; otherwise status 200, the header then the expected rows, the number of dates and a game count one less than the row count |
| ScheduleSync.Header | data-pipelines/functions/mlb-schedule-sync/lambda_function.py:28-33 | the header row is the twelve column names, in order |
| ScheduleSync.SyncBlock | data-pipelines/functions/mlb-schedule-sync/lambda_function.py:117-130 | the loop over one date's games, started from the seen ids and rows so far, leaves the seen ids and rows that replaying those games from there defines, with the game count equal to the rows written, or stops with the error that replaying raises |
| ScheduleSync.SyncGame | data-pipelines/functions/mlb-schedule-sync/lambda_function.py:119-130 | one game: a non-regular game or an id already seen changes nothing; a new game without its teams raises; otherwise the id is marked seen and its row, if it has one, is written and counted |
| OriolesDashboard.GbValue | data-pipelines/functions/mlb-orioles-dashboard/lambda_function.py:79-80 | "-" reads as zero games back, a number as itself |
| OriolesDashboard.GamesBackFound | data-pipelines/functions/mlb-orioles-dashboard/lambda_function.py:63-82 | there is no standing exactly when no record is the club's; otherwise it comes from the club's first record |
| OriolesDashboard.Filter | data-pipelines/functions/mlb-orioles-dashboard/lambda_function.py:89-93 | the kept items pass the test and are drawn from the input |
| OriolesDashboard.FilterKeeps | data-pipelines/functions/mlb-orioles-dashboard/lambda_function.py:89-93 | every item that passes the test is kept |
| OriolesDashboard.LatestSpec | data-pipelines/functions/mlb-orioles-dashboard/lambda_function.py:89-95 | ten of the picked items, or all when fewer; latest first; each a picked item; no picked item left out is later than one shown |
| OriolesDashboard.Summary | data-pipelines/functions/mlb-orioles-dashboard/lambda_function.py:98-111 | the summary keeps the id and date; missing scores default to 0 and missing result fields to "" |
| OriolesDashboard.Summaries | data-pipelines/functions/mlb-orioles-dashboard/lambda_function.py:98-111 | one summary per game, in order |
| OriolesDashboard.SpringRow | data-pipelines/functions/mlb-orioles-dashboard/lambda_function.py:164-188 | the home club is the winner when the feed marks it so, else the away club, and the other is the loser |
| OriolesDashboard.FinalRowsFrom | data-pipelines/functions/mlb-orioles-dashboard/lambda_function.py:159-188 | every spring row comes from a final game, with its winner chosen by the feed's winner flag |
| OriolesDashboard.SpringSpec | data-pipelines/functions/mlb-orioles-dashboard/lambda_function.py:143-193 | the spring list is of type "S", holds at most ten games, latest date first, and is empty when the fetch fails |
| OriolesDashboard.LatestEmpty | data-pipelines/functions/mlb-orioles-dashboard/lambda_function.py:95-97 | the recent list is empty exactly when no item is picked |
| OriolesDashboard.RecentGamesBounded | data-pipelines/functions/mlb-orioles-dashboard/lambda_function.py:85-140 | every list the dashboard shows holds at most ten games |
| OriolesDashboard.RecentGamesSeason | data-pipelines/functions/mlb-orioles-dashboard/lambda_function.py:89-111 | the current season's finals are shown first whenever there are any |
| OriolesDashboard.RecentGamesSpring | data-pipelines/functions/mlb-orioles-dashboard/lambda_function.py:113-117 | without them, the spring-training list is shown when it has a game |
| OriolesDashboard.RecentGamesAnySeason | data-pipelines/functions/mlb-orioles-dashboard/lambda_function.py:119-140 | without either, the finals of any season are shown, latest first, or an empty "S" list |
| GameResults.KeyCounts | data-pipelines/functions/mlb-game-results/lambda_function.py:30-49 | the base fields and the result fields are two disjoint groups of seven |
| GameResults.ItemFields | data-pipelines/functions/mlb-game-results/lambda_function.py:23-51 | a final game's item has the fourteen fields; any other item has exactly the seven base fields |
| GameResults.ItemDefaults | data-pipelines/functions/mlb-game-results/lambda_function.py:41-49 | each of a final game's seven result fields (winning and losing team, both scores, winning, losing and save pitcher) holds the feed's value, or "" or 0 when the feed has none |
| GameResults.ItemIds | data-pipelines/functions/mlb-game-results/lambda_function.py:31 | the item key is the decimal game id: it reads back as the id, and different ids give different keys |
| GameResults.Items | data-pipelines/functions/mlb-game-results/lambda_function.py:74-75 | one item per game, in order |
| GameResults.CountStored | data-pipelines/functions/mlb-game-results/lambda_function.py:76-81 | at most one success per item |
| GameResults.CountStoredBounds | data-pipelines/functions/mlb-game-results/lambda_function.py:74-81 | every write succeeding counts every game; no write succeeding counts none |
| GameResults.AttemptedDates | data-pipelines/functions/mlb-game-results/lambda_function.py:55-72 | yesterday's games are attempted first, then today's; a failed fetch adds nothing for its date |
| GameResults.StoreGames | data-pipelines/functions/mlb-game-results/lambda_function.py:74-81 | each item is attempted in turn, and the writes that succeed are counted |
| GameResults.LambdaHandler | data-pipelines/functions/mlb-game-results/lambda_function.py:54-86 | status 200, with the items of yesterday then today attempted and the successful writes counted |
| Weighted.LeagueAverage | data-pipelines/model-2026-updates/enhanced_model.py:142-147 | the default for no rows; otherwise defined exactly when the total innings are non-zero, and then the average times the total innings is the innings-weighted FIP sum |
| Weighted.MeanBetween | data-pipelines/model-2026-updates/enhanced_model.py:142-144 | with non-negative innings and a positive total, the league average lies between the smallest and the largest FIP |
| Weighted.PriorBlend | data-pipelines/model-2026-updates/enhanced_model.py:445 | the innings-weighted blend of a pitcher's FIP and the league FIP is defined exactly when the weights do not sum to zero |
| Weighted.PriorBlendBetween | data-pipelines/model-2026-updates/enhanced_model.py:445 | for non-negative weights not both zero, the blend lies between the two FIPs |
| Rounding.RoundHalfEven | data-pipelines/functions/mlb-core-benchmarks/lambda_function.py:292-304 | Python's `round` to an integer: within half of the value |
| Rounding.RoundError | data-pipelines/functions/mlb-core-benchmarks/lambda_function.py:292-304 | rounding to k decimals moves a value by at most half a unit in the last kept place |
| Rounding.RoundOnGrid | data-pipelines/functions/mlb-core-benchmarks/lambda_function.py:292-304 | a multiple of the unit is left alone |
| Rounding.RoundIdempotent | data-pipelines/functions/mlb-core-benchmarks/lambda_function.py:292-304 | rounding twice to the same precision is rounding once |
| Rounding.RoundSign | data-pipelines/functions/mlb-core-benchmarks/lambda_function.py:292-304 | rounding keeps the sign of its argument |
| Rounding.RoundMonotone | data-pipelines/functions/mlb-core-benchmarks/lambda_function.py:292-304 | rounding never reverses the order of two values |
| Decimal.Show | data-pipelines/functions/mlb-game-results/lambda_function.py:31 | the decimal form of an id is never empty |
| Decimal.ReadShow | data-pipelines/functions/mlb-game-results/lambda_function.py:31 | reading an id's decimal form gives the id back |
| Decimal.ShowInjective | data-pipelines/functions/mlb-game-results/lambda_function.py:31 | different ids have different decimal forms |
| Text.Split | data-pipelines/model-2026-updates/pitcher_fip.py:25-34 | splitting gives at least one piece, none containing the separator |
| Text.JoinSplit | data-pipelines/model-2026-updates/pitcher_fip.py:25-34 | joining the pieces with the separator gives the text back |
| Text.SplitAt | data-pipelines/model-2026-updates/pitcher_fip.py:25-34 | the first separator ends the first piece and the rest is split on its own |
| Sorting.SortSorted | data-pipelines/model-2026-updates/pitcher_fip.py:198 | the stable sort's result is ordered by the key and is a permutation of the input |
| Sorting.SortOfSorted | data-pipelines/model-2026-updates/pitcher_fip.py:198 | sorting an already ordered list leaves it as it is |
| Sorting.SortedKeys | data-pipelines/scripts/bootstrap-retrosheet.py:296 | the keys of a dict in ascending order, each key once |
| Text.Upper | data-pipelines/scripts/bootstrap-retrosheet.py:391 | the same length; each lower-case ASCII letter becomes its capital and every other character is kept, so no lower-case letter is left |
| Text.UpperChar | data-pipelines/scripts/bootstrap-retrosheet.py:391 | the result of a character is never a lower-case ASCII letter |
| ParkFactors.ParkFactorsShape | data-pipelines/model-2026-updates/park_factors.py:12-37 | the season dict holds the 2024 table for 2023 and 2024, and for 2025 the same table with the ATH and TB factors replaced |
| Elo.Logistic | data-pipelines/layers/mlb-pipeline-common/python/mlb_common/elo.py:21 | the logistic form of the expected score lies strictly between 0 and 1 |
| Elo.ExpectedScoreOrder | data-pipelines/layers/mlb-pipeline-common/python/mlb_common/elo.py:21 | a smaller exponent (b - (a + hfa)) / 400 gives a strictly larger expected score |
| PreseasonElo.CentredSignal | data-pipelines/scripts/generate-preseason-elo.py:166-179 | distances from the league-average WAR sum to 0, so the WAR signal averages exactly 1500 |
| Backfill.SnapFields | data-pipelines/scripts/backfill-playoff-odds-2025.py:170-186 | one playoff field per trial |
| EnhancedModel.InBucket | data-pipelines/model-2026-updates/enhanced_model.py:600-605 | a bucket's rows are drawn from the results and are no more than them |
| OffseasonWar.FirstSeen | data-pipelines/scripts/offseason-war-analysis.py:142-147 | no more divisions than entries |
| PreseasonLambda.Summary | data-pipelines/functions/mlb-preseason-adjustment/lambda_function.py:372-381 | one summary row per adjusted rating |
| FangraphsNetFwar.CleanLines | data-pipelines/model-2026-updates/fangraphs_net_fwar.py:77-87 | no more cleaned lines than raw lines |
| FangraphsNetFwar.AcquiredFrom | data-pipelines/model-2026-updates/fangraphs_net_fwar.py:126-129 | an extracted nickname is never empty |
| PrecomputeFeatures.RollingOf | data-pipelines/model-2026-updates/precompute_features.py:104-144 | one rolling entry per game of the log |

## Left out

Where the source raises (a division by zero, a missing key, a missing column), the model returns an error result. This includes the unguarded FIP-constant division at `precompute_features.py:216`, which is `PrecomputeFeatures.SeasonConstant`.

Outside the model: AWS (S3 buckets, DynamoDB tables), HTTP feeds, local files, `argparse`, logging and printed reports. The job entry points take the feed contents as parameters.

**Order of pandas sorts.** `DataFrame.sort_values` defaults to quicksort, which does not keep the order of rows with equal keys. The model fixes one order: the stable one. What is proved is that the result is sorted and is a permutation, or that it holds the same rows. The order among equal keys is not proved to match the source.
- SeasonProjections.Future: the remaining games are sorted by date at `sort_values('date')`. Same-date games keep their schedule order in the model, and `NextGamesSpec` picks each club's first game in that order. The source may pick either of two same-day games (a doubleheader).
- SeasonProjections.GamesBackSpec: clubs tied on median wins keep their input order in the model. In the source, such a tie can change whether Baltimore is among the first six.
- FangraphsNetFwar.ComputeNetFwar: the summary sorted by net projected WAR keeps equal values in division order.
- PreseasonLambda.ApplyAdjustments: the summary sorted by rating keeps equal ratings in club order.
- PreseasonAdjustment.ApplyEloAdjustment: the preseason table sorted by `preseason_elo` keeps equal values in club order.
- PreseasonElo.Preseason: the result sorted by `preseason_elo` keeps equal values in club order.

**Numbers and randomness.**
- Binary floating point is not modelled. Values are exact reals.
- `round` is Python's round-half-to-even on exact reals.
- `10**x`, `math.log`, `math.exp` and `math.cos` are fields of a `RealMath.Math` record that obey the laws the proofs use (positivity, monotonicity, `ln 1 = 0`, and the rest). The numeric functions themselves are not modelled.
- NaN is modelled as `None` where the source produces or tests it.
- Randomness enters as an explicit matrix of uniform draws, one per simulated game. In the fade backtest, an auxiliary draw breaks ties. The distribution of the draws is not modelled.
- `numpy.percentile` and `std` are left out, so the summary rows carry no `std_dev`, `p10`, `p25`, `p75` or `p90`. `np.median` and `values.mean()` are modelled (`SeasonProjections.Median`, `SeasonProjections.Mean`). In `fangraphs_diagnostic.py` the medians are a parameter.

**Operations that are only I/O or presentation.** These are not part of this model. What they compute is an input to the modelled operations.
- `mlb-core-benchmarks`: `fetch_fangraphs` and `lambda_handler`.
- `core-benchmarks.py`: `fetch_stats`, `upload_to_s3` and `main`.
- CoreBenchmarks.FuzzyMatchesMembers: the script's fallback (`core-benchmarks.py:452`) calls `str.contains`, which reads the last name as a regular expression (a `.` matches any character). The model tests for a plain substring, as the function does at `lambda_function.py:202`. The two agree on last names without regular-expression metacharacters.
- `mlb-orioles-dashboard`: `get_orioles_projections`, `get_games_back_prediction` and `lambda_handler`. These are item reads and JSON assembly.
- `mlb-schedule-sync`: `fetch_full_schedule`. The score backfill (`backfill_score`) is a function parameter.
- `mlb-season-projections`: `load_fip_data`, `load_preseason_elo` and `load_injury_adjustments`.
- `mlb-preseason-adjustment`: `standardize_team` is the same table as `EloCompute.StandardizeTeam`.
- `ballpark_distances.py`: `haversine` is a parameter. The info CSV, the team averages at lines 170-175 and the printed tables are left out.
- `enhanced_model.py`: `load_elo_baseline`, `load_schedule` and `main`. `normalize_name` is a parameter.
- `fangraphs_diagnostic.py`: `parse_args`, `q`, `load_json_file`, `load_odds_map` and `main`.
- `fangraphs_net_fwar.py`: `load_subtractions`. `make_chart` is a matplotlib chart.
- `injury_impact.py`: `get_all_teams`, `load_war_data` and `build_id_crossref`. The crossref is an input. `get_il_players` is the shared layer's `Injury.IlPlayers`.
- `pitcher_fip.py`: `get_all_pitchers_from_rosters` and `fetch_pitcher_stats`. The stats are a parameter.
- `precompute_features.py`: `fetch_game_log` is a parameter.
- `precompute_features.py`: `parse_ip` is the same code as `PitcherFip.ParseIp`.
- `precompute_features.py`: `get_starter_ids_from_schedule` (lines 40-55) is not modelled. Neither is the schedule branch at lines 220-223 that prefers it. The model always takes the FIP-file path, `get_pitcher_ids_from_fip`, which is `StarterIds`.
- `preseason_adjustment.py`: `build_war_lookup`, the pybaseball WAR lookup, is an input.
- `recompute_elo.py`: `write_season_end`, `compare` and `main`.
- `mlb-elo-compute`: the per-club DynamoDB item (`lambda_function.py:94-99`). Its value is the rounded post-game rating the history row carries (`EloCompute.Written`).
- `backfill-playoff-odds-2025.py`: `load_elo_history`, `load_baseline_elo` and `main`.
- `backtest-fade-curves.py`: `load_prior_season_elo`, `load_schedule`, `run_backtest` (a driver loop over the modelled backtest) and `main`.
- `backtest-war-modes.py`: `load_elo_baseline`, `load_schedule` and `main`.
- `bootstrap-retrosheet.py`: `download_event_files`, `run_cwdaily`, `cwdaily_to_dataframe`, `build_latest_json` and `upload_to_s3`. The cwdaily rows are an input.
- ScheduleSync.ExtractGameRow: a game without `gamePk` also raises `KeyError` (`lambda_function.py:90`); every game of the model carries an id.
- BootstrapRetrosheet.ParseYearRange: `int()` also accepts surrounding whitespace, a leading `+` and `_` between digits (`" 2024"`, `"+2024"`, `"2_024"`); the model reads only an optional minus sign followed by ASCII digits and returns an error for those spellings.
- `offseason-war-analysis.py`: `print_console_summary`.

**Weaker or narrowed contracts.**
- WarModes.Scores: the predicted-wins error (`win_rmse`, the error in each club's predicted season wins) is reported as its mean square. The source reports the square root of that mean. The ordering of modes is the same, and no square root is modelled.
- EloCompute.PublishRatings: the order of clubs with equal exact ratings is not stated. Python's stable sort keeps them in the dict's insertion order: baseline file order, then clubs first seen in this season's file.
- OffseasonWar.RowWars: without the historical, projected and blended WAR columns, the model carries 0.0 in those three figures. The source leaves those keys out of its output.
- Strings: `str.isspace`, `lower()` and `upper()` are modelled on ASCII only. There is no Unicode case folding or whitespace beyond ASCII.
- Elo.MovMult: the cap is an `Option`. The shared layer imports `MOV_CAP` from a configuration that does not define it (see Findings). The fade-curve backtest treats `None` as no cap.

## Findings

| source | as written | input that shows it | evidently intended | confidence | as-written member | corrected member |
|---|---|---|---|---|---|---|
| data-pipelines/layers/mlb-pipeline-common/python/mlb_common/fip.py:70-71 | league ERA falls back to 4.00 when the total innings are 0, but the FIP component on the next line divides by the same total without a guard | an empty list of qualified pitchers (`SharedFip.NoPitchersFails`) | the same fallback for the whole league line, so that league FIP equals league ERA, which is 4.00 for an empty league | medium, not executed | SharedFip.LeagueFipAsWritten | SharedFip.LeagueFip (with `SharedFip.LeagueFipAgrees`: wherever the written code succeeds it gives the guarded values) |
| data-pipelines/layers/mlb-pipeline-common/python/mlb_common/elo.py:6 | imports `MOV_CAP` from the shared configuration, which does not define it, so loading the shared Elo module fails | the shipped configuration settings (`Elo.ShippedConfigFails`) | an optional cap, off by default, as the fade-curve backtest applies it (`min(raw, MOV_CAP)` only when the cap is not `None`) | high, not executed | Elo.MovMultAsWritten | Elo.MovMult (non-negative, never above a configured cap, 0 for a zero margin) |
| data-pipelines/model-2026-updates/enhanced_model.py:445 | the starter's FIP is blended as `(ip * fip + prior * lg) / (ip + prior)`, and the first sweep includes `prior = 0`, commented "no regression" (line 711) | prior 0 and a listed starter with 0 innings (`EnhancedModel.ZeroPriorFails`); the first run of the first sweep has prior 0 (`EnhancedModel.V1RunsZeroPrior`), and a raised error ends the sweep (`EnhancedModel.CollectErr`) | with no regression the pitcher's own FIP is kept, and the blend never divides by zero | medium, not executed | EnhancedModel.ShrunkFip | EnhancedModel.ShrunkFipIntended (with `EnhancedModel.ShrunkFipIntendedBetween`) |
| data-pipelines/functions/mlb-preseason-adjustment/lambda_function.py:176-177 | league ERA is guarded against zero innings, but the FIP constant divides by the total innings without a guard | a feed whose only pitcher threw 0.2 innings, which is skipped by the one-inning filter (`PreseasonLambda.ShortOutingFails`) | the same guard as league ERA: no qualified pitcher gives an empty pitching table | medium, not executed | PreseasonLambda.CfipAsWritten | PreseasonLambda.PitchingWar (with `PreseasonLambda.PitchingWarGuarded`: it agrees with the written table wherever that succeeds) |
| data-pipelines/scripts/bootstrap-retrosheet.py:152-153 | the date is taken with `(\d{8})$`, the last eight characters of the game id, which for an id TTTYYYYMMDDn are the year's last three digits, the month, the day and the game number | BAL202404010 gives 02404010, year 240, which `to_datetime` turns into NaT (`BootstrapRetrosheet.OpenerDateAsWritten`; every id of 1800-2099, `BootstrapRetrosheet.GameDateNeverSet`) | the eight digits before the game number, `(\d{8})\d$`, giving 2024-04-01 | high, not executed | BootstrapRetrosheet.GameDate | BootstrapRetrosheet.IntendedGameDate (with `BootstrapRetrosheet.IntendedGameDateReads` and `BootstrapRetrosheet.OpenerDateIntended`) |

The season model keeps the written blend `EnhancedModel.ShrunkFip`, so the
sweep reproduces the abort that a zero-innings starter causes under a zero
prior. `EnhancedModel.ShrunkFipIntended` states the evidently intended
value, and it agrees with the written blend wherever that is defined. In the
same way, the preseason lambda's fetch (`PreseasonLambda.FetchPitchingWar`)
follows the written code. The guarded `PreseasonLambda.PitchingWar` equals
it on every input where the written code succeeds.

The daily batting and pitching lines keep the written date
(`BootstrapRetrosheet.GameDate`), so their date is missing, as the written
script leaves it; `BootstrapRetrosheet.IntendedGameDate` states the date the
script evidently means to record.
