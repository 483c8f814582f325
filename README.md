# HP2BR team formation and rating engine, in Dafny

HP2BR is a Discord bot with an HTTP API behind it. It takes the players waiting in a voice channel and
splits them into teams. After a match it records the placement of each team and updates every player's
rating. This project models the rules behind those steps and proves properties of them:

- **Team formation** (`team_sizes.dfy`, `sorting.dfy`, `team_balancer.dfy`, `format.dfy`, `rating_preview.dfy`):
  - how many teams a roster gets, and of which sizes;
  - the balancer's sort by effective rating `rating_mu - 0.5 * rating_sigma`, its snake draft, its fixed 2:3 split
    of five players, its one-team mode and its balance score;
  - the random-swap improver, which accepts only strict improvements;
  - `validate_teams`;
  - the `"4:4:2"` custom format strings and the stand-alone bot's split of a shuffled roster;
  - the three-team deal of the rating preview command.
- **Rating formulas**:
  - the placement delta with baseline rank 7 (`placement.dfy`);
  - the advanced multi-factor change: score table, opponent, individual and curve multipliers, clamp, tiers and
    expected-rank curve (`advanced_rating.dfy`);
  - the simplified Glicko-style updates (`glicko.dfy`);
  - the arithmetic around the OpenSkill library: clamps, ordinal and display rating, competition-type detection,
    external-team placeholders, rank assembly, result mapping and team strength (`openskill.dfy`);
  - tier names, ranks, colours, emoji, strength buckets and the text that explains a rating breakdown
    (`rating_ui.dfy`).
- **Result validation and recording**:
  - the Discord views' result and placement validators, their per-team dictionaries, the placement modal and the
    paginated view (`views.dfy`);
  - the stricter validator of the result-validation test (`views.dfy`);
  - the API's placement-result acceptance rules, result classification and per-player record updates, the score per
    result type of `update_match_result`, and the per-player update of `apply_advanced_rating_changes`
    (`records.dfy`, `placement.dfy`, `match_store.dfy`).
- **Version bumping** (`version.dfy`): the version record, its display string, the four bump types, and where a new
  entry goes in the change log.

`common.dfy` and `text.dfy` hold shared helpers. These are sums and means, flattening, association lists standing in
for Python dictionaries, and the Python string operations the code relies on (`split`, `join`, `strip`, `int`, `str`).
`constants.dfy` fixes the configuration values of `bot/utils/constants.py`.

The model follows the form of the code:
- Functions that only compute a value are Dafny functions, and lemmas state their properties.
- State that the code updates in place becomes a class whose methods have `modifies` clauses:
  - the views' dictionaries and page counter;
  - the match, player and user records of the API;
  - the version and change-log files.
- Loops that build lists step by step are methods with loop invariants, proved equal to a specification function:
  - the snake draft, the swap improver, the team-size loops and the changelog header search;
  - the OpenSkill rank assembly and the rating-preview deal.

Floats are modelled as exact `real` numbers. Python's unbounded `int` is Dafny's `int`. The model follows what the
code computes, including these facts that are easy to misremember:
- The advanced clamp limit is `min(150, 0.15 * rating)` (`api/services/advanced_rating_service.py:222-226`).
- A 1600-rated player winning in a team averaging 1500 against one opponent team averaging 1350 gains 21.0: base
  score 50, opponent multiplier 0.6, curve multiplier 0.7 (`AdvancedRating.WorkedExample`).
- The individual adjustment for a rating difference of exactly 100 is 1.0, because the test is `> 100`.
- After the placement adjustment, the opponent multiplier ranges over [0.14, 2.86].
- The code has no regional slot reservation, no partnership penalty and no multi-trial search, so none are modelled.

## Model

| member | source | states |
|---|---|---|
| TeamSizes.EvenSizes | test_team_distribution.py:7-20 | the even distribution `calculate_team_sizes` computes; its properties are `TeamSizes.EvenSizesSum`, `TeamSizes.EvenSizesBalanced` and `TeamSizes.DistributionCases` |
| TeamSizes.EvenSizesSum | test_team_distribution.py:9-20 | the even distribution of `total` over `k` teams accounts for every player: its sizes sum to `total` |
| TeamSizes.EvenSizesBalanced | test_team_distribution.py:12-18 | the first `total % k` teams get `total // k + 1` and the rest `total // k`, so the sizes never increase along the list and differ by at most one |
| TeamSizes.CalculateTeamSizes | test_team_distribution.py:7-20 | zero teams fail with the `ZeroDivisionError` message "integer division or modulo by zero"; otherwise the counted append loop builds exactly the even distribution for a positive team count, and no teams for a negative one |
| TeamSizes.DistributionCases | test_team_distribution.py:24-44 | all eighteen listed (players, teams) cases give the listed size lists |
| TeamSizes.TeamCount | verify_team_generation.py:14-37 | one team up to four players, two for five to eight, and for nine or more between three and six teams with at least three players each |
| TeamSizes.CalculateTeamCountAndSizes | verify_team_generation.py:7-50 | the returned count is the rule's count, the case tag is the branch taken, and the sizes are the even distribution over that count |
| TeamSizes.SizeCaseOf | verify_team_generation.py:14-37 | the case tag of the branch taken; its properties are in `TeamSizes.CalculateTeamCountAndSizes` |
| TeamSizes.SmallRosters | verify_team_generation.py:14-48 | up to four players form one team of everyone; five, six, seven and eight players give [3, 2], [3, 3], [4, 3] and [4, 4] |
| TeamSizes.EvenSizesThreeToFour | verify_team_generation.py:41-48 | whenever `3k <= n <= 4k` every team of the even distribution has three or four players |
| TeamSizes.LargeRostersThreeToFour | verify_team_generation.py:117-124 | for every roster of 9 to 24 players each generated team has three or four players, as the script asserts over its cases |
| TeamSizes.ActualNumTeams | bot/commands/team_commands.py:52-109 | a team count is produced exactly when the roster lies in [1, 24] and, from six players on, the requested count (default 3) lies in [2, 6]; otherwise a refusal, which `TeamSizes.ActualNumTeamsRefusals` names |
| TeamSizes.ActualNumTeamsRefusals | bot/commands/team_commands.py:52-103 | an empty roster is refused with "Not Enough Players", more than 24 players with "Too Many Players", and from six players on a requested count below 2 with "Invalid Team Count" and above 6 with "Too Many Teams" |
| TeamSizes.ActualNumTeamsSmall | bot/commands/team_commands.py:72-79 | one to four players always give one team and five always give two, whatever count was requested |
| TeamSizes.ActualNumTeamsRange | bot/commands/team_commands.py:80-109 | from six players on an accepted count is the request raised to `max(2, (n + 4) // 5)`, never below either, and always in [2, 6] |
| Sorting.SortDesc | bot/services/team_balancer.py:136-140 | `sorted(..., reverse=True)` returns the same players (as a multiset) ordered by non-increasing key |
| Sorting.InsertDescending | bot/services/team_balancer.py:136-140 | inserting one player into a list sorted by descending key keeps it sorted |
| Sorting.SortDescHeadIsMax | bot/services/team_balancer.py:136-140 | the first player of the sorted list has the largest key of the input |
| TeamBalancer.SortedPlayers | bot/services/team_balancer.py:136-140 | the balancer's order is a permutation of the players by non-increasing `rating_mu - 0.5 * rating_sigma` |
| TeamBalancer.EffectiveRating | bot/services/team_balancer.py:136-140 | the sort key `rating_mu - rating_sigma * 0.5`; its properties are `TeamBalancer.SortedPlayers`, `TeamBalancer.SnakeTopPlayerInTeamZero` and `TeamBalancer.SplitFiveProperties` |
| TeamBalancer.SnakeClosedForm | bot/services/team_balancer.py:146-161 | the cursor `(team_index, direction)` before pick `i` runs up 0, 1, ..., k-1 on even sweeps and back down k-1, ..., 0 on odd sweeps |
| TeamBalancer.PassPosValue | bot/services/team_balancer.py:146-161 | the sweep and the position within it are the quotient and remainder of the pick number by the team count |
| TeamBalancer.SnakeIndexRange | bot/services/team_balancer.py:150-161 | every pick goes to an existing team |
| TeamBalancer.DealStep | bot/services/team_balancer.py:149-150 | dealing one more pick appends it to exactly one team and changes no other |
| TeamBalancer.DealPermutation | bot/services/team_balancer.py:143-161 | the teams together are a permutation of the sorted players: each player is in exactly one team and none is lost |
| TeamBalancer.DealSizes | bot/services/team_balancer.py:146-161 | team `t` gets one player per finished sweep plus one if the unfinished sweep has reached it |
| TeamBalancer.DealBalanced | bot/services/team_balancer.py:146-161 | snake-draft team sizes differ by at most one |
| TeamBalancer.DealFirst | bot/services/team_balancer.py:146-150 | the first pick opens team 0 |
| TeamBalancer.SnakeTopPlayerInTeamZero | bot/services/team_balancer.py:136-150 | the player with the largest effective rating heads team 0 |
| TeamBalancer.SnakeDraftBalance | bot/services/team_balancer.py:129-170 | the append loop with its bouncing cursor produces exactly the snake deal of the sorted players over `num_teams` teams |
| TeamBalancer.SplitFivePlayers | bot/services/team_balancer.py:102-127 | the five-player split returns two teams, the top two sorted players and the rest |
| TeamBalancer.SplitFiveProperties | bot/services/team_balancer.py:108-116 | five players split 2:3, nobody is lost, and every player of the pair has a key at least that of every player of the trio |
| TeamBalancer.TeamRatingBounds | bot/services/team_balancer.py:172-179 | a non-empty team's rating, the mean `rating_mu`, lies between its lowest and highest `rating_mu` |
| TeamBalancer.TeamRatingConstant | bot/services/team_balancer.py:172-179 | a team whose players share one `rating_mu` is rated exactly that |
| TeamBalancer.TeamRating | bot/services/team_balancer.py:172-179 | `_calculate_team_rating`; its properties are `TeamBalancer.TeamRatingBounds` and `TeamBalancer.TeamRatingConstant` |
| TeamBalancer.BalanceVarianceZero | bot/services/team_balancer.py:181-195 | the (squared) balance score is never negative and is zero exactly when all team ratings agree, in particular with fewer than two teams |
| TeamBalancer.BalanceVariance | bot/services/team_balancer.py:181-195 | the square of `_calculate_balance_score`; its properties are in `TeamBalancer.BalanceVarianceZero` |
| TeamBalancer.Score | bot/services/team_balancer.py:181-195 | the (squared) balance score of a set of teams; `TeamBalancer.AdvancedBalance` states that the improver never raises it |
| TeamBalancer.SwapPreserves | bot/services/team_balancer.py:219-227 | exchanging one player between two different non-empty teams keeps every team's size and the multiset of all players |
| TeamBalancer.AdvancedBalance | bot/services/team_balancer.py:197-238 | the improver returns teams with the snake draft's sizes and players, and a score no higher than the snake draft's |
| TeamBalancer.ValidateTeamsOfPermutation | bot/services/team_balancer.py:240-259 | any arrangement of exactly the members' players passes `validate_teams` |
| TeamBalancer.SnakeTeamsValidate | bot/services/team_balancer.py:240-259 | the snake draft of the members always passes `validate_teams` |
| TeamBalancer.ValidateTeamsExact | bot/services/team_balancer.py:240-259 | with distinct member ids, `validate_teams` holds exactly when the teams' ids are a rearrangement of the member ids |
| TeamBalancer.ValidateTeamsIgnoresMultiplicity | bot/services/team_balancer.py:251-258 | without distinct ids `validate_teams` compares only counts and sets: teams with ids [1, 1, 2] pass against members [1, 2, 2] |
| TeamBalancer.ValidateTeams | bot/services/team_balancer.py:240-259 | `validate_teams`; its properties are `TeamBalancer.ValidateTeamsExact`, `TeamBalancer.ValidateTeamsOfPermutation`, `TeamBalancer.SnakeTeamsValidate` and `TeamBalancer.ValidateTeamsIgnoresMultiplicity` |
| TeamBalancer.CreateBalancedTeams | bot/services/team_balancer.py:16-52 | too few or too many players raise; up to four form one team of everyone, five use the 2:3 split, more use the snake draft; ratings and the balance score are computed from the chosen teams |
| Format.ParseAll | test_custom_format.py:9 | converting the pieces yields one number per piece, or nothing at all |
| Format.ParseAllMeaning | test_custom_format.py:8-12 | the list comprehension succeeds exactly when every piece is a number, and then element `i` is the value of piece `i`; one bad piece makes `parse_format` return `None` |
| Format.ParseRendered | test_custom_format.py:9 | every size written in decimal converts back to itself |
| Format.ParseFormat | test_custom_format.py:6-12 | `parse_format`; its properties are `Format.FormatRoundTrip`, `Format.ParseAllMeaning`, `Format.EmptyPieceRejected`, `Format.NonNumericRejected` and `Format.FirstExample` |
| Format.FormatRoundTrip | test_custom_format.py:6-12 | a non-empty size list joined with `':'` is parsed back by `parse_format` to the same list |
| Format.AnyBelow | test_custom_format.py:25 | `any(size < 1 ...)` holds exactly when some size is below the bound |
| Format.AnyAbove | test_custom_format.py:28 | `any(size > max_team_size ...)` holds exactly when some size is above the bound |
| Format.ValidateFormat | test_custom_format.py:14-31 | `validate_format`; its properties are `Format.FormatAccepted`, `Format.AcceptedExamples` and `Format.RejectedExamples` |
| Format.FormatAccepted | test_custom_format.py:14-31 | with the defaults 6 and 8, `validate_format` accepts exactly the lists of 2 to 6 teams whose sizes are all between 1 and 8 |
| Format.ParseFormatCons | test_custom_format.py:9 | splitting at the first `':'` parses the leading piece and the rest independently, failing if either fails |
| Format.EmptyPieceRejected | test_custom_format.py:50-51 | a format with two adjacent colons, and the empty string, do not parse |
| Format.NonNumericRejected | test_custom_format.py:49 | a format with any non-numeric piece does not parse |
| Format.RenderFirstExample | test_custom_format.py:37 | the sizes 3, 3, 4 are written `3:3:4` |
| Format.FirstExample | test_custom_format.py:37 | `"3:3:4"` parses to teams of 3, 3 and 4 |
| Format.AcceptedExamples | test_custom_format.py:36-42 | all six valid example size lists pass validation |
| Format.RejectedExamples | test_custom_format.py:44-51 | each invalid example list is refused for the reason its comment names: one team, seven teams, a zero size, a size of 9, unparsable input |
| Format.ParseTeamFormat | hp2br-team-bot.py:56-64 | `parse_team_format`; its properties are `Format.TeamFormatAgrees` and `Format.TeamFormatRoundTrip` |
| Format.TeamFormatAgrees | hp2br-team-bot.py:56-64 | `parse_team_format` accepts exactly what `parse_format` reads with all sizes positive, returns the same sizes, and otherwise fails with the single invalid-format message; whatever `validate_format` accepts the bot accepts |
| Format.TeamFormatRoundTrip | hp2br-team-bot.py:56-62 | any non-empty list of positive sizes, written with `':'`, is read back by the bot unchanged |
| Format.OffsetsOrdered | hp2br-team-bot.py:77-82 | the running start index never decreases over non-negative sizes |
| Format.OffsetsGrow | hp2br-team-bot.py:77-82 | each start index lies between 0 and the total, and each team ends where the next begins |
| Format.CreateTeams | hp2br-team-bot.py:66-84 | the split fails, with the "Not enough members" message naming both counts, exactly when there are fewer members than the sizes sum to; otherwise team `i` is the run of `sizes[i]` shuffled members starting after the earlier teams, and the teams together are the first `sum(sizes)` shuffled members in order |
| Format.SlicesDisjoint | hp2br-team-bot.py:76-84 | with distinct members, each team has exactly its size and no member is in two teams |
| RatingPreview.PreviewTeamIndexIsSnake | bot/commands/advanced_rating_commands.py:86-89 | the closed-form index always names one of the three teams, and it is the team the balancer's snake order gives |
| RatingPreview.Without | bot/commands/advanced_rating_commands.py:117-121 | the opponents are every team but the target's, in order, one fewer than the teams |
| RatingPreview.PreviewTeams | bot/commands/advanced_rating_commands.py:82-89 | the simulation always makes three teams |
| RatingPreview.PreviewTeamsPermutation | bot/commands/advanced_rating_commands.py:82-89 | every waiting member sits in exactly one simulated team |
| RatingPreview.FoundIffWaiting | bot/commands/advanced_rating_commands.py:91-104 | the target is found in a simulated team exactly when they are in the waiting room |
| RatingPreview.DealThreeTeams | bot/commands/advanced_rating_commands.py:82-89 | the loop deals the players, sorted by rating, exactly into the simulated teams |
| RatingPreview.FindUserTeam | bot/commands/advanced_rating_commands.py:91-96 | the loop returns the first team holding the target, or -1 exactly when no team does |
| RatingPreview.TeamAverages | bot/commands/advanced_rating_commands.py:106-113 | the loop returns every team's average rating in team order, 1500 for an empty team |
| RatingPreview.OpponentAverages | bot/commands/advanced_rating_commands.py:117-121 | the loop returns every other team's average, in order |
| RatingPreview.SimulatePreview | bot/commands/advanced_rating_commands.py:56-121 | fewer than three waiting players is an error; otherwise the preview succeeds exactly when the target is waiting, and then holds the three simulated teams, the first team holding the target, every team's average, the target team's average and the other two teams' averages |
| AdvancedRating.TableShape | api/services/advanced_rating_service.py:38-78 | the table has thirty entries, +50 at placement 1, 0 at 8 and -345 at 30, each placement scoring strictly less than the one before |
| AdvancedRating.TableStep | api/services/advanced_rating_service.py:38-78 | any better placement in 1..30 has a strictly higher table score than any worse one |
| AdvancedRating.TableScore | api/services/advanced_rating_service.py:38-78 | the `PLACEMENT_SCORES` entry of a placement in 1..30; its properties are `AdvancedRating.TableShape` and `AdvancedRating.TableStep` |
| AdvancedRating.InterpolatePlacementScore | api/services/advanced_rating_service.py:89-109 | `_interpolate_placement_score`; its properties are in `AdvancedRating.InterpolationAtEnds` and, through the base score, `AdvancedRating.BasePlacementScoreShape` |
| AdvancedRating.BasePlacementScore | api/services/advanced_rating_service.py:80-109 | `calculate_base_placement_score`; its properties are `AdvancedRating.BasePlacementScoreShape` and `AdvancedRating.InterpolationAtEnds` |
| AdvancedRating.BasePlacementScoreShape | api/services/advanced_rating_service.py:80-109 | placements below 1 score +50 and above 30 score -345; the base score is positive exactly for placements up to 7, zero exactly at 8 and negative from 9 on |
| AdvancedRating.InterpolationAtEnds | api/services/advanced_rating_service.py:89-109 | the interpolation reproduces the table at placements 1 and 30 |
| AdvancedRating.StrengthStepMonotone | api/services/advanced_rating_service.py:126-144 | the step multiplier takes one of the nine listed values and never falls as the opponents get stronger |
| AdvancedRating.StrengthStep | api/services/advanced_rating_service.py:126-144 | the step multiplier for the opponent strength difference; its properties are in `AdvancedRating.StrengthStepMonotone` |
| AdvancedRating.OpponentStrengthMultiplierShape | api/services/advanced_rating_service.py:111-152 | 1.0 without opponents and within (-50, 50] whatever the placement; the step value x0.7 for a top-three finish more than 200 below, x1.3 for placement 15 or worse more than 200 above, the plain step value otherwise; always within [0.14, 2.86] |
| AdvancedRating.OpponentStrengthMultiplier | api/services/advanced_rating_service.py:111-152 | `calculate_opponent_strength_multiplier`; its properties are in `AdvancedRating.OpponentStrengthMultiplierShape` |
| AdvancedRating.IndividualAdjustmentShape | api/services/advanced_rating_service.py:154-168 | the adjustment is one of 0.8, 0.9, 1.0, 1.1, 1.2, exactly 1.0 within (-100, 100] of the team average, and never grows as the player's rating rises |
| AdvancedRating.IndividualAdjustment | api/services/advanced_rating_service.py:154-168 | `calculate_individual_adjustment`; its properties are in `AdvancedRating.IndividualAdjustmentShape` |
| AdvancedRating.RatingCurveShape | api/services/advanced_rating_service.py:170-193 | gains are damped by a factor at most 1 that shrinks as the rating grows; a zero or negative change is scaled by a factor at least 1 that grows with the rating; the factor is always positive |
| AdvancedRating.RatingCurveMultiplier | api/services/advanced_rating_service.py:170-193 | `calculate_rating_curve_multiplier`; its properties are `AdvancedRating.RatingCurveShape` and `AdvancedRating.CurvedMonotone` |
| AdvancedRating.ClampWithin | api/services/advanced_rating_service.py:225-226 | with a non-negative limit the clamp stays within the limit and leaves values already inside it unchanged |
| AdvancedRating.CombineClamp | api/services/advanced_rating_service.py:213-226 | steps 4 to 7 report the limit `min(150, 0.15 * rating)` and a final change clamped to it |
| AdvancedRating.CurveAndClampWithin | api/services/advanced_rating_service.py:216-226 | steps 5 to 7 report the limit `min(150, 0.15 * rating)` and a final change clamped to it |
| AdvancedRating.CurveAndClamp | api/services/advanced_rating_service.py:215-226 | steps 5 to 7 of `calculate_advanced_rating_change`; its properties are `AdvancedRating.CurveAndClampWithin` and `AdvancedRating.CurveAndClampMonotone` |
| AdvancedRating.AdvancedRatingChange | api/services/advanced_rating_service.py:195-236 | `calculate_advanced_rating_change`; its properties are `AdvancedRating.ClampBounds`, `AdvancedRating.FinalChangeSign`, `AdvancedRating.WorkedExample` and `AdvancedRating.ThirdCanGainLessThanFourth` |
| AdvancedRating.ClampBounds | api/services/advanced_rating_service.py:195-236 | for a non-negative rating the final change is at most `min(150, 0.15 * rating)` in size and equals preliminary change times curve whenever that product lies within the limit |
| AdvancedRating.CombineSign | api/services/advanced_rating_service.py:213-226 | with positive multipliers and a positive rating the final change has the sign of the base score |
| AdvancedRating.FinalChangeSign | api/services/advanced_rating_service.py:195-236 | for a positive rating the final change is positive exactly for placements up to 7, zero exactly at 8, negative from 9 on |
| AdvancedRating.WorkedExample | api/services/advanced_rating_service.py:195-236 | a 1600 player on a 1500 team, first against one 1350 team, gets the breakdown 50, 0.6, 1.0, 0.7, 30, 21 with limit 150 |
| AdvancedRating.ThirdCanGainLessThanFourth | api/services/advanced_rating_service.py:146-150 | the placement adjustment can reverse neighbouring placements: third place gains 5.95 and fourth 6.12 against one 1200 team |
| AdvancedRating.ExpectedTeamRatingShape | api/services/advanced_rating_service.py:258-273 | the expected rating never rises with the rank, is 2200, 1500, 1000 and 800 at ranks 1, 5, 15 and 30 (so the pieces meet), and always lies in [800, 2200] |
| AdvancedRating.ExpectedTeamRatingForRank | api/services/advanced_rating_service.py:258-273 | `get_expected_team_rating_for_rank`; its properties are in `AdvancedRating.ExpectedTeamRatingShape` |
| AdvancedRating.RatingTierName | api/services/advanced_rating_service.py:238-256 | `get_rating_tier_name`; its properties are in `RatingUi.TierNameAgrees`, which shows it always names one of the eight tiers |
| AdvancedRating.PreviewRatingChanges | api/services/advanced_rating_service.py:275-287 | one entry per preview placement 1, 3, 5, 10, 15, 20, 25, 30, in that order, each the final change for that placement, and the changes never increase along the list |
| AdvancedRating.ClampMonotone | api/services/advanced_rating_service.py:225-226 | the clamp never reverses an order |
| AdvancedRating.CurvedMonotone | api/services/advanced_rating_service.py:216-222 | curving never reverses the order of two preliminary changes |
| AdvancedRating.CurveAndClampMonotone | api/services/advanced_rating_service.py:216-226 | a larger preliminary change never ends in a smaller final change |
| AdvancedRating.CombineMonotone | api/services/advanced_rating_service.py:213-226 | with one individual adjustment, a smaller base score times opponent multiplier never ends in a larger final change |
| AdvancedRating.PreviewScaledOrder | api/services/advanced_rating_service.py:281-285 | base score times opponent multiplier never increases from one preview placement to the next |
| AdvancedRating.PreviewMonotone | api/services/advanced_rating_service.py:281-285 | a preview placement is never worth less than the next one in the preview list |
| Placement.PlacementRatingChange | api/routes/matches.py:291-306 | the placement delta; its properties are in `Placement.PlacementRatingChangeShape` |
| Placement.PlacementRatingChangeShape | api/routes/matches.py:291-306 | first place gains 25, placement 7 gains nothing, 30 and beyond lose 40, the change is linear on each side of 7, never increases with the placement, stays within [-40, 25] from placement 1 on, and is positive exactly above the baseline |
| Placement.Collect | api/routes/matches.py:191-196 | the parsed dict has each team number at most once |
| Placement.ParsePlacements | api/routes/matches.py:191-198 | parsing succeeds exactly when every key and value converts to an integer (integers, integer text with surrounding whitespace, floats truncated toward zero, booleans as 1 and 0; not null, arrays or objects); otherwise the error names the first item that does not, with its key and value |
| Placement.CollectLookup | api/routes/matches.py:191-196 | after parsing, each team holds the placement of the last submitted item naming it |
| Placement.ParsePlacementsLookup | api/routes/matches.py:191-196 | an object whose items all convert parses, and maps each team to the placement of its last item |
| Placement.Truncate | api/routes/matches.py:194 | `int` on a float rounds toward zero: the result is at most the number for non-negative numbers and at least it for negative ones, within one of it |
| Placement.RawToIntCases | api/routes/matches.py:192-196 | 2.7 gives 2 and -2.7 gives -2, true gives 1 and false 0, and null, arrays and objects convert to nothing |
| Placement.RawToInt | api/routes/matches.py:192-196 | `int(value)` on a submitted JSON value; its properties are `Placement.RawToIntCases` and `Placement.ParsePlacements` |
| Placement.PlacementErrorExact | api/routes/matches.py:200-211 | the object is accepted exactly when its teams are the match's teams, its placements are distinct and they are 1 through the number of teams |
| Placement.AcceptedCovers | api/routes/matches.py:200-211 | an accepted object has one item per team, each placement is in 1..n and each of 1..n is held by some team |
| Placement.UniqueCheckImplied | api/routes/matches.py:204-211 | teams equal to the match's teams and placements equal to 1..n already force distinct placements, so the uniqueness check only chooses which message is shown |
| Placement.PlacementError | api/routes/matches.py:200-211 | the team, uniqueness and range checks with their messages; its properties are `Placement.PlacementErrorExact`, `Placement.AcceptedCovers` and `Placement.UniqueCheckImplied` |
| Placement.ValidatePlacementResult | api/routes/matches.py:178-211 | a result with no players is refused with "No players found for this match"; with players, a parse failure gives the parse message, then a failed team, uniqueness or range check gives that check's message, and a result that parses and passes every check is accepted as the parsed dict; an accepted result has players, parses, and passes every check |
| Placement.Classify | api/routes/matches.py:220-226 | the result a placement gives; its properties are in `Placement.ClassifyShape` |
| Placement.ClassifyShape | api/routes/matches.py:220-226 | exactly placement 1 wins; a draw needs a placement other than 1 within n // 2 and more than two teams, hence at least four teams; every other placement loses and none is left pending |
| Placement.WinningTeam | api/routes/matches.py:272-278 | the winning team is a team whose placement is 1, and there is none exactly when no team placed first |
| Placement.WinningTeamOfAccepted | api/routes/matches.py:272-278 | an accepted object always has a winning team, it holds placement 1 and it is the only team that does |
| Placement.OnlyOneFirst | api/routes/matches.py:204-207 | with distinct placements, two items both placed first are the same item |
| Placement.NewMuBounds | api/routes/matches.py:244 | the new mu lies in [100, 3000], equals the old mu plus the change when that sum is in range, and is clamped to the nearer end otherwise |
| Placement.NewMu | api/routes/matches.py:244 | `max(100, min(3000, old_mu + change))`; its properties are in `Placement.NewMuBounds` |
| Placement.PlacedConsistent | api/routes/matches.py:239-265 | after a placement the user's mu lies in [100, 3000], the sigma is at least 50, one game and exactly one win, loss or draw are added (a win exactly for placement 1), and the player row records the user's new rating and the placement |
| Placement.PlacedPlayer | api/routes/matches.py:239-251 | the player row after a placement; its properties are `Placement.PlacedConsistent` and `MatchStore.PlacingOutcome` |
| Placement.PlacedUser | api/routes/matches.py:239-265 | the user row after a placement; its properties are `Placement.PlacedConsistent` and `MatchStore.PlacingOutcome` |
| Records.MemberNamed | api/database/models.py:16-19 | `ResultType.<name>` finds a member exactly when one has that name, and returns the member declared under it |
| Records.PlacementMemberMissing | api/database/models.py:16-19 | `ResultType` as declared has no `PLACEMENT` member; with the member added the lookup finds it |
| Records.CountedOneMore | api/services/user_service.py:58-73 | a decided result adds one game played and exactly one win, loss or draw, matching the result, and leaves the rating alone |
| MatchStore.ResultScore | api/routes/matches.py:69-130 | the score and statistics entry per result type; its properties are `MatchStore.ResultScoreCases` and `MatchStore.ScoringOutcome` |
| MatchStore.ResultScoreCases | api/routes/matches.py:69-130 | a win/loss result with a non-zero winning team scores 1.0 and "win" for that team and 0.0 and "loss" for every other; one without a winning team, or any other result type, updates nobody; a draw scores 0.5 and "draw"; a forfeit 0.25 and "loss"; every score lies in [0, 1] with a decided result |
| MatchStore.TeamPlayersMembers | api/services/advanced_rating_service.py:320 | a team's player list holds exactly the match's players with that team number |
| MatchStore.TeamsData | api/services/advanced_rating_service.py:317-332 | there are never more team entries than submitted teams |
| MatchStore.TeamsDataEntries | api/services/advanced_rating_service.py:317-332 | every entry carries a submitted team and its placement, and the mean mu before the match of that team's players, which are not empty |
| MatchStore.TeamsDataComplete | api/services/advanced_rating_service.py:317-332 | every submitted team with at least one player gets its entry |
| MatchStore.TeamsDataNumbers | api/services/advanced_rating_service.py:319-325 | every entry's team number is a submitted key |
| MatchStore.TeamsDataDistinct | api/services/advanced_rating_service.py:317-332 | since the submitted dict has distinct keys, no team has two entries |
| MatchStore.Opponents | api/services/advanced_rating_service.py:339 | a team never has more opponents than there are team entries |
| MatchStore.OpponentsCount | api/services/advanced_rating_service.py:337-339 | a team faces every other entry: one mean rating per other team, and each rating is that of another entry |
| MatchStore.OpponentsOfAbsent | api/services/advanced_rating_service.py:339 | a team number no entry carries keeps every entry's mean rating among the opponents |
| MatchStore.TeamOf | api/services/advanced_rating_service.py:337-342 | the entry found for a team is an entry with that team number, and none is found exactly when no entry has it |
| MatchStore.TeamOfDistinct | api/services/advanced_rating_service.py:337-342 | with distinct team numbers each entry is the one found for its team |
| MatchStore.PlayerTeamFound | api/services/advanced_rating_service.py:317-350 | a player whose team was submitted finds that team's entry, holding the submitted placement and the team's mean mu, and faces all other entries |
| MatchStore.VisitAll | api/routes/matches.py:229-265 | the visit produces one new row per player |
| MatchStore.VisitAllDomain | api/routes/matches.py:229-265 | no user row is added or removed |
| MatchStore.VisitAllUntouched | api/routes/matches.py:229-265 | a user with no player in the match keeps its row |
| MatchStore.VisitAllEach | api/routes/matches.py:229-265 | with one player per user, each player's row and its user's row come out as if that player were visited alone, so the visiting order does not matter |
| MatchStore.Visit | api/routes/matches.py:229-265 | one player's update; its properties are `MatchStore.PlacingOutcome`, `MatchStore.AdvancingOutcome` and `MatchStore.VisitAllEach` |
| MatchStore.Record | api/routes/matches.py:239-251 | one player's new row under each visiting rule; its properties are `MatchStore.PlacingOutcome`, `MatchStore.ScoringOutcome` and `MatchStore.AdvancingRecord` |
| MatchStore.Account | api/routes/matches.py:253-265 | the user's new row under each visiting rule; its properties are `MatchStore.PlacingOutcome`, `MatchStore.ScoringOutcome`, `MatchStore.AdvancingAccount` and `MatchStore.VisitAllEach` |
| MatchStore.PlayerBreakdown | api/services/advanced_rating_service.py:344-350 | `calculate_advanced_rating_change` for one player of an entered team against the other entries; its properties are `MatchStore.AdvancingRecord`, `MatchStore.AdvancingOutcome` and `MatchStore.BreakdownsEach` |
| MatchStore.PlacingOutcome | api/routes/matches.py:214-265 | a player without a user row is skipped; otherwise the player row gets the placement, the new rating and the classification, and the user gets a mu in [100, 3000], a sigma of at least 50, one more game and exactly one more win, loss or draw |
| MatchStore.ScoringOutcome | api/routes/matches.py:69-130 | players of a result that scores nobody are untouched; otherwise each player row and its user get the Glicko update of the team's score and the user one more game; with positive sigma a win raises mu, a loss lowers it and a draw keeps it |
| MatchStore.AdvancingRecord | api/services/advanced_rating_service.py:352-359 | a player whose team has an entry gets mu before plus the final change, the reduced sigma, and a win exactly for placement 1 and a loss otherwise |
| MatchStore.AdvancingAccount | api/services/advanced_rating_service.py:364-380 | its user gets the same rating, one more game, and a win for placement 1 or a loss otherwise |
| MatchStore.AdvancingOutcome | api/services/advanced_rating_service.py:337-380 | after the whole visit each player of an entered team holds mu before plus its final change, stays within the change clamp of min(150, 0.15 mu) for non-negative mu, is never a draw, and its user holds the same rating with one more game, counted as a win exactly for placement 1 |
| MatchStore.VisitAllKeepsPlayers | api/routes/matches.py:247-251 | every new row keeps its player, team and mu before the match |
| MatchStore.VisitAllDistinct | api/routes/matches.py:229-251 | visiting keeps one player per user |
| MatchStore.BreakdownsKeys | api/services/advanced_rating_service.py:335-362 | the returned breakdowns are keyed by exactly the user ids of players whose team has an entry |
| MatchStore.BreakdownsEach | api/services/advanced_rating_service.py:344-362 | with one player per user, each such player's breakdown is the one stored under its user id |
| MatchStore.Breakdowns | api/services/advanced_rating_service.py:335-362 | the `rating_changes` dict; its properties are `MatchStore.BreakdownsKeys` and `MatchStore.BreakdownsEach` |
| MatchStore.PlacementChecks | api/routes/matches.py:170-211 | a missing match gives "Match not found", a match that is not pending gives "Match is not in pending status", then the player and placement checks' message; a pending match with players whose object parses and passes every check is accepted as the parsed dict, and an accepted dict belongs to a pending match with players and passes every check |
| MatchStore.MatchStore.VisitPlayers | api/routes/matches.py:229-265 | the loop produces exactly the rows and the users of visiting the players in order |
| MatchStore.MatchStore.CollectBreakdowns | api/services/advanced_rating_service.py:335-362 | the loop stores exactly the breakdowns of the players whose team has an entry |
| MatchStore.MatchStore.RecordPlacementResultWith | api/routes/matches.py:166-289 | a failed check returns its message and changes nothing; a missing `PLACEMENT` member fails with the catch-all message and rolls everything back; otherwise the match is completed as a placement result with the team placed first as winner and the players and users are rewritten by the placement rule |
| MatchStore.MatchStore.RecordPlacementResultAsWritten | api/routes/matches.py:166-289 | with `ResultType` as declared every call fails and changes nothing: a failed check returns its message, and an accepted submission ends in the catch-all error |
| MatchStore.MatchStore.RecordPlacementResult | api/routes/matches.py:166-289 | with the `PLACEMENT` member an accepted submission completes the match as a placement result naming the first-placed team as winner and rewrites its players and their users; a refused one changes nothing |
| MatchStore.MatchStore.UpdateMatchResult | api/routes/matches.py:46-141 | a missing match gives "Match not found" and changes nothing; otherwise every player of the match and its user get the score of the team's result and the route reports success |
| MatchStore.MatchStore.ApplyAdvancedRatingChanges | api/services/advanced_rating_service.py:303-387 | a missing match and a match without players are refused with their messages and change nothing; otherwise every player of an entered team gets its advanced change, the match is completed as a placement result and the breakdowns are returned |
| MatchStore.MatchStore.constructor | api/database/models.py:81-86 | the store starts with the given tables and one player per user in each match |
| Glicko.SigmaAfter | api/services/rating_service.py:44 | the new uncertainty; its properties are in `Glicko.SigmaAfterShape` |
| Glicko.SigmaAfterShape | api/services/rating_service.py:44 | the new sigma is never below 50 and never above an old sigma of at least 50; it is exactly 0.99 sigma when that reaches 50, and 50 otherwise |
| Glicko.Mus | api/services/rating_service.py:22 | one mu per player, in order |
| Glicko.SigmaSquares | api/services/rating_service.py:25 | one squared sigma per player, in order |
| Glicko.TeamRating | api/services/rating_service.py:16-28 | `calculate_team_rating`; its properties are `Glicko.TeamRatingMean` and `Glicko.TeamRatingEmpty` |
| Glicko.TeamRatingMean | api/services/rating_service.py:16-28 | the team mu of a non-empty team lies between its lowest and highest player mu |
| Glicko.TeamRatingEmpty | api/services/rating_service.py:18-19 | a team without players is rated (1500, 350) |
| Glicko.UpdateRatings | api/services/rating_service.py:30-48 | the result has one rating per pair of the shorter list, each the player's rating adjusted by its result |
| Glicko.Adjusted | api/services/rating_service.py:39-46 | one player's update in `update_ratings`; its properties are in `Glicko.AdjustedDirection` |
| Glicko.AdjustedDirection | api/services/rating_service.py:39-46 | with positive sigma a result above 0.5 raises mu, exactly 0.5 keeps it and below 0.5 lowers it, and a result in [0, 1] moves mu by at most 16 sigma / 350 |
| Glicko.UpdateTeamWithScore | api/routes/matches.py:83 | updating a team with its score repeated once per member adjusts every member by that score |
| Glicko.ExpectedScore | api/services/rating_service.py:61-63 | the expected score lies strictly between 0 and 1 |
| Glicko.RatingChange | api/services/rating_service.py:57-69 | the change `update_team_ratings` applies, `k * (score - expected)` with the K-factor `32 * sigma1 / 350`; its properties are `Glicko.UpdateTeamRatings` and `Glicko.UpdateTeamRatingsWinner` |
| Glicko.UpdateTeamRatings | api/services/rating_service.py:50-85 | team 1's players gain exactly the rating change and team 2's lose exactly as much, both teams keep their sizes and every sigma is reduced the usual way |
| Glicko.UpdateTeamRatingsWinner | api/services/rating_service.py:57-69 | when team 1's combined sigma is positive, a win gives a positive change and a loss a negative one, whatever the opponents |
| Glicko.PositionScore | api/services/rating_service.py:100 | the score of a finishing position; its properties are in `Glicko.PositionScoreShape` |
| Glicko.PositionScoreShape | api/services/rating_service.py:100 | with several teams first place scores 1 and last 0, each position in range scores within [0, 1], a lone team scores 0.5, and a better position never scores less |
| Glicko.UpdateMultiTeamRatings | api/services/rating_service.py:87-112 | fewer positions than teams fail with the `IndexError` message "list index out of range"; otherwise the teams and their sizes are kept, and each player is adjusted by its team's position score, with properties in `Glicko.MultiTeamEnds` and `Glicko.MultiTeamOrder` |
| Glicko.MultiTeamEnds | api/services/rating_service.py:96-110 | with several teams the winner's players gain 10 sigma / 350 and the last team's lose as much; a lone team keeps its mu; every sigma is reduced the usual way |
| Glicko.MultiTeamOrder | api/services/rating_service.py:96-110 | of two players with the same rating, the one whose team finished no worse never ends with a lower mu, and with several teams, a positive sigma and a strictly better position ends strictly higher; both sigmas are reduced alike |
| Glicko.MultiAdjusted | api/services/rating_service.py:103-107 | one player's multi-team update, `20 * (score - 0.5) * (sigma / 350)`; its properties are `Glicko.MultiTeamEnds` and `Glicko.MultiTeamOrder` |
| OpenSkill.MakeRating | api/services/openskill_service.py:21-24 | a constructed rating has mu at least 0 and sigma at least 0.1, never below the given values, and keeps each given value exactly when it is already in range |
| OpenSkill.MakeRatingFixes | api/services/openskill_service.py:21-24 | construction keeps a rating exactly when it is already clamped, and constructing again changes nothing |
| OpenSkill.CreateRating | api/services/openskill_service.py:49-56 | `create_rating` with the defaults 25 and 8.333; its properties are in `OpenSkill.RatingScale` |
| OpenSkill.Ordinal | api/services/openskill_service.py:26-29 | the `ordinal` property; its properties are in `OpenSkill.RatingScale` |
| OpenSkill.Display | api/services/openskill_service.py:31-35 | the `display_rating` property; its properties are `OpenSkill.RatingScale` and `OpenSkill.RatingChangeSign` |
| OpenSkill.RatingScale | api/services/openskill_service.py:26-56 | the default rating is (25, 8.333), displays as 1500 and has ordinal 0.001; every clamped rating displays as a non-negative number and has an ordinal at least 0.3 below its mu |
| OpenSkill.RatingChangeSign | api/services/openskill_service.py:285-289 | the change in display points is 60 times the change in mu, positive, zero or negative exactly as the mu change is |
| OpenSkill.RatingChange | api/services/openskill_service.py:285-289 | `get_rating_change`; its properties are in `OpenSkill.RatingChangeSign` |
| OpenSkill.DetectCompetitionType | api/services/openskill_service.py:66-92 | detection fails exactly for no placements; otherwise the guild count is the number of placements and the guild and external counts add up to the total |
| OpenSkill.CompetitionKinds | api/services/openskill_service.py:73-92 | the field is guild-only exactly when the placements are 1..n (the minimum test adds nothing), with n competitors and no externals; otherwise the total is the largest placement, the externals are the rest, and the field is external exactly when there are some |
| OpenSkill.SharedFirstPlace | api/services/openskill_service.py:86-90 | two guild teams both placed first make a mixed field of one competitor and -1 external teams |
| OpenSkill.ValidatedField | api/services/openskill_service.py:86-90 | with distinct placements of at least 1 the field is never mixed, the external count is not negative and equals the number of free placements up to the total |
| OpenSkill.ValidatedNotMixed | api/services/openskill_service.py:86-90 | distinct placements of at least 1 all lie in 1..total, and the field is never mixed |
| OpenSkill.HeldPlacements | api/services/openskill_service.py:74-90 | n distinct placements of at least 1 lie in 1..max, so the largest is at least n |
| OpenSkill.ExternalMultiplierSteps | api/services/openskill_service.py:116-125 | the multiplier is 0.95, 1.0 or 1.1 and never falls as the mean guild placement gets worse |
| OpenSkill.ExternalMultiplier | api/services/openskill_service.py:116-125 | the external strength factor for the mean guild placement; its properties are `OpenSkill.ExternalMultiplierSteps` and `OpenSkill.EstimateFollowsPlacement` |
| OpenSkill.EstimateExternalStrength | api/services/openskill_service.py:94-130 | the estimate fails exactly when there are guild teams but no placements; without guild teams it is the default rating |
| OpenSkill.StrengthsNonNegative | api/services/openskill_service.py:100-109 | with clamped ratings the summed strengths are not negative |
| OpenSkill.EstimateFollowsPlacement | api/services/openskill_service.py:106-130 | with clamped guild ratings the estimate is a quarter of the mean strength times the multiplier, with sigma 8.333, and a worse mean placement never gives weaker external players |
| OpenSkill.GuildOrder | api/services/openskill_service.py:158 | the team numbers come out in ascending order and are a permutation of the keys |
| OpenSkill.RanksOf | api/services/openskill_service.py:158-169 | the ranks exist exactly when every sorted team has a placement, one per team, each that team's placement |
| OpenSkill.Placeholders | api/services/openskill_service.py:177-186 | the free placements are exactly those in 1..total that no guild team holds, strictly ascending |
| OpenSkill.PlaceholdersCount | api/services/openskill_service.py:177-186 | the free placements and the held ones up to the total together number the total |
| OpenSkill.HeldStep | api/services/openskill_service.py:177-178 | a held total adds one held placement to those below it |
| OpenSkill.HeldUpTo | api/services/openskill_service.py:177-178 | the held placements up to the total are those below it plus the total when it is held |
| OpenSkill.GuildOrderKeys | api/services/openskill_service.py:158-159 | the sorted team numbers are exactly the keys, so looking up each team's players succeeds |
| OpenSkill.AssembleFails | api/services/openskill_service.py:145-186 | building the field raises exactly when there are no placements or some guild team has none |
| OpenSkill.AssembledField | api/services/openskill_service.py:151-186 | the built field lists each guild team in team-number order with its placement, then, when there are external teams, one four-player team of the estimated strength for each free placement up to the total and nothing else |
| OpenSkill.PlaceholderTeam | api/services/openskill_service.py:179-183 | an external team of four copies of the estimate; its properties are `OpenSkill.AssembledField` and `OpenSkill.AddPlaceholders` |
| OpenSkill.Assemble | api/services/openskill_service.py:145-186 | the field handed to `rate`; its properties are `OpenSkill.AssembleFails` and `OpenSkill.AssembledField` |
| OpenSkill.ReclampedMeaning | api/services/openskill_service.py:62-64 | every rating of a team clamped again has `mu >= 0` and `sigma >= 0.1`, and a team of ratings already within those bounds is unchanged |
| OpenSkill.GuildTeamRatings | api/services/openskill_service.py:132-205 | `calculate_guild_team_ratings`; its properties are `OpenSkill.GuildTeamRatingsKeys`, `OpenSkill.GuildTeamRatingsFallback` and `OpenSkill.CalculateGuildTeamRatings` |
| OpenSkill.GuildTeamRatingsKeys | api/services/openskill_service.py:132-205 | the result holds the same team numbers as the guild teams, each once when they are distinct, and every rating is clamped unless the input came back unchanged |
| OpenSkill.GuildTeamRatingsFallback | api/services/openskill_service.py:158-205 | a guild team without a placement makes the calculation fall back to the ratings it was given |
| OpenSkill.FromLibrary | api/services/openskill_service.py:194-197 | the loop converts the team exactly as the clamping reference does |
| OpenSkill.GuildEntries | api/services/openskill_service.py:156-171 | the loop yields the sorted teams and their ranks, or no ranks at the first team without a placement |
| OpenSkill.AddPlaceholders | api/services/openskill_service.py:173-186 | the loop appends one placeholder team and its placement for each free placement in 1..total, in ascending order |
| OpenSkill.ExtractGuild | api/services/openskill_service.py:191-198 | the loop yields exactly the guild entries of the library's answer |
| OpenSkill.CalculateGuildTeamRatings | api/services/openskill_service.py:132-205 | the method returns exactly the guild ratings the reference definition gives, falling back to the input wherever Python raises |
| OpenSkill.MatchRatings | api/services/openskill_service.py:207-283 | `calculate_match_ratings`; its properties are `OpenSkill.MatchRatingsEach`, `OpenSkill.MatchRatingsUnrated` and `OpenSkill.CalculateMatchRatings` |
| OpenSkill.MatchRatingsEach | api/services/openskill_service.py:207-283 | without placements nothing changes; otherwise every player keeps team and identity, carries the competition context, its change is display after minus display before, and a player without a new rating keeps its stored values with change 0 |
| OpenSkill.MatchRatingsUnrated | api/services/openskill_service.py:254-274 | when a team has no placement each of its players comes back with its stored mu and a change of 0 |
| OpenSkill.UpdatedPlayer | api/services/openskill_service.py:245-274 | one player's updated dict; its properties are `OpenSkill.MatchRatingsEach` and `OpenSkill.MatchRatingsUnrated` |
| OpenSkill.StoredTeamOf | api/services/openskill_service.py:224-230 | the loop yields exactly the stored ratings of the team |
| OpenSkill.UpdateTeam | api/services/openskill_service.py:245-276 | the loop yields exactly the updated dicts of the team |
| OpenSkill.StoredRatingsOf | api/services/openskill_service.py:221-231 | the loop yields exactly the stored guild teams |
| OpenSkill.UpdateAllTeams | api/services/openskill_service.py:239-278 | the loop yields exactly the updated teams |
| OpenSkill.CalculateMatchRatings | api/services/openskill_service.py:207-283 | the method returns exactly the match ratings the reference definition gives |
| OpenSkill.TeamStrength | api/services/openskill_service.py:368-391 | `get_team_strength`; its properties are in `OpenSkill.TeamStrengthSums` |
| OpenSkill.TeamStrengthSums | api/services/openskill_service.py:368-391 | an empty team is the default rating; a team of clamped ratings has mu the sum of its players' mu, at least each one's, and sigma squared the sum of their squared sigmas |
| Views.CountsAddUp | bot/utils/views.py:267-269 | the win, loss and draw counts add up to the number of results; a count is full exactly when every result is that selection and zero exactly when none is |
| Views.ValidateResults | bot/utils/views.py:262-297 | `MatchResultView.validate_results`; its properties are `Views.ValidResults` and `Views.StrictAgreement` |
| Views.ValidResults | bot/utils/views.py:262-297 | results are accepted exactly when every team has one and they are all draws, one win over losses, or, with fewer than three teams, all losses; accepted results carry no message and refused ones the message of the first rule they break |
| Views.ResultsProblemOf | bot/utils/views.py:262-297 | the rules of `validate_results` in order; its properties are `Views.ValidResults` and `Views.StrictAgreement` |
| Views.StrictAgreement | test_result_validation.py:6-27 | whatever the test copy of the rules accepts the dialogue accepts; the dialogue accepts more exactly on all-loss results of fewer than three teams, and with three teams or more both give the same answer |
| Views.StrictProblemOf | test_result_validation.py:6-27 | the rules of the test copy of `validate_results`; its properties are `Views.StrictAgreement`, `Views.StrictValidCases` and `Views.StrictInvalidCases` |
| Views.ValidateResultsStrict | test_result_validation.py:6-27 | the test copy's `(valid, message)` answer; its properties are in `Views.StrictAgreement` |
| Views.StrictValidCases | test_result_validation.py:34-39 | the test's four valid cases are accepted |
| Views.StrictInvalidCases | test_result_validation.py:41-47 | the test's six invalid cases are refused, each for the rule it breaks |
| Views.CountOfTwo | test_result_validation.py:11-13 | the count of a selection among two results is the sum of their indicators |
| Views.CountOfThree | test_result_validation.py:11-13 | the count of a selection among three results is the sum of their indicators |
| Views.ChooseResultType | bot/utils/views.py:318-335 | the result type `submit_results` sends; its properties are in `Views.ChosenResultType` |
| Views.ChosenResultType | bot/utils/views.py:318-335 | for accepted results the type is a draw exactly when all teams drew, a forfeit exactly when a match of fewer than three teams was all losses, and otherwise a win/loss naming the one team that won, every other team having lost |
| Views.TwoWins | bot/utils/views.py:319 | two different results marked as a win make the win count at least 2 |
| Views.CountWithout | bot/utils/views.py:267-269 | taking one result out lowers the count of its selection by one |
| Views.EntriesAtMost | bot/utils/views.py:250-260 | a dict keyed by the dialogue's team numbers has at most one entry per team |
| Views.PutWithin | bot/utils/views.py:250-260 | recording a team's entry keeps one entry per team and every key within the dialogue's teams; once every team has an entry the count stays at the team count |
| Views.MatchResultView.constructor | bot/utils/views.py:222-248 | a new dialogue has no results and submit disabled |
| Views.MatchResultView.UpdateTeamResult | bot/utils/views.py:250-260 | the team's result is overwritten and submit is enabled once every team has a result, and stays enabled |
| Views.ValidatePlacements | bot/utils/views.py:756-785 | `PlacementResultView.validate_placements`; its properties are in `Views.ValidPlacements` |
| Views.ValidPlacements | bot/utils/views.py:756-785 | validation raises exactly for a dialogue with no teams; placements are accepted exactly when every team has one, each in 1..30, with no two alike; the guild-only message is never given |
| Views.PlacementProblemOf | bot/utils/views.py:756-785 | the rules of `validate_placements` in order; its properties are in `Views.ValidPlacements` |
| Views.RangeByExtremes | bot/utils/views.py:764-768 | every placement lies in 1..30 exactly when the smallest and the largest do |
| Views.DistinctByCard | bot/utils/views.py:774 | the placements are distinct exactly when their set is as large as their list |
| Views.GuildOnlyComplete | bot/utils/views.py:772-779 | n distinct placements from 1 to at most n are exactly 1..n |
| Views.AcceptedPlacementsField | bot/utils/views.py:756-785 | placements the dialogue accepts never make a mixed field, nor a negative external count, for the OpenSkill service |
| Views.PreviewAgreesWithRoute | bot/utils/views.py:787-805 | the dialogue's preview of the rating change equals the change the placement route records for every placement |
| Views.PreviewRatingChange | bot/utils/views.py:787-805 | `calculate_rating_change`; its properties are in `Views.PreviewAgreesWithRoute` |
| Views.FindClash | bot/utils/views.py:1021-1029 | the scan returns the first other team already holding the placement, or -1 when there is none |
| Views.PlacementEntry | bot/utils/views.py:998-1032 | what the placement modal stores; its properties are `Views.EntryMeaning` and `Views.EntryKeepsUnique` |
| Views.EntryMeaning | bot/utils/views.py:998-1032 | an accepted entry is the typed number capped at 30, lies in 1..30 and, when within the number of teams, is held by no other team; an entry is refused exactly when the text is not a number, is below 1, or is taken |
| Views.EntryKeepsUnique | bot/utils/views.py:1019-1032 | storing an accepted entry keeps the placements within the number of teams unique |
| Views.PlacementResultView.constructor | bot/utils/views.py:704-742 | a new dialogue has no placements and submit disabled |
| Views.PlacementResultView.UpdateTeamPlacement | bot/utils/views.py:744-754 | the team's placement is overwritten and submit is enabled once every team has one, and stays enabled |
| Views.PlacementResultView.SubmitPlacement | bot/utils/views.py:998-1062 | a refused entry returns its message and changes nothing; an accepted one stores the placement, returns the preview rating change and keeps placements within the field unique |
| Views.PaginatedView.constructor | bot/utils/views.py:613-623 | the view starts on the first page with previous disabled, and next disabled exactly when there is at most one page |
| Views.PaginatedView.UpdateButtons | bot/utils/views.py:625-628 | previous is disabled exactly on the first page and next exactly on the last |
| Views.PaginatedView.PreviousPage | bot/utils/views.py:630-640 | the page moves back by one unless it is the first, and the buttons stay in step |
| Views.PaginatedView.NextPage | bot/utils/views.py:642-652 | the page moves on by one unless it is the last, and the buttons stay in step |
| RatingUi.TierTables | bot/utils/advanced_rating_ui.py:15-44 | the eight tiers rank 8 down to 1 in the order listed; a name is a tier exactly when its rank is in 1..8, and then it is the tier at that rank; any other name gets the default colour 0x2B5CE6 and the star, and no tier gets the default colour |
| RatingUi.TierColor | bot/utils/advanced_rating_ui.py:15-29 | `get_tier_color`; its properties are in `RatingUi.TierTables` |
| RatingUi.TierEmoji | bot/utils/advanced_rating_ui.py:31-44 | `get_tier_emoji`; its properties are in `RatingUi.TierTables` |
| RatingUi.TierRank | bot/utils/advanced_rating_ui.py:372-385 | `_get_tier_rank`; its properties are `RatingUi.TierTables` and `RatingUi.TierRankMonotone` |
| RatingUi.TierName | bot/utils/advanced_rating_ui.py:353-370 | `_get_tier_name`; its properties are `RatingUi.TierNameAgrees` and `RatingUi.TierRankMonotone` |
| RatingUi.TierNameAgrees | bot/utils/advanced_rating_ui.py:353-370 | the embed's tier name equals the rating service's tier name for every rating, and is always one of the eight tiers |
| RatingUi.TierRankMonotone | bot/utils/advanced_rating_ui.py:353-385 | a higher rating never has a lower tier rank |
| RatingUi.TierChangeFollowsRating | bot/utils/advanced_rating_ui.py:194-201 | between the tiers of two ratings, a tier change is celebrated exactly when the rating rose and marked as a drop otherwise |
| RatingUi.TierChangeMark | bot/utils/advanced_rating_ui.py:194-201 | the tier line's marker; its properties are in `RatingUi.TierChangeFollowsRating` |
| RatingUi.StrengthOf | bot/utils/advanced_rating_ui.py:53-75 | the opponent-strength bucket; its properties are in `RatingUi.StrengthBuckets` |
| RatingUi.StrengthBuckets | bot/utils/advanced_rating_ui.py:53-75 | the assessments are the intervals (200, ∞), (50, 200], (-50, 50], (-200, -50] and (-∞, -200]; a larger difference never rates the opponents weaker; without opponents they count as similar |
| RatingUi.StrengthDifference | bot/utils/advanced_rating_ui.py:53-60 | the mean opponent average less the team average, 0 without opponents; its properties are in `RatingUi.StrengthBuckets` |
| RatingUi.TipFor | bot/utils/advanced_rating_ui.py:139-144 | the assessment tip; its properties are in `RatingUi.TipAgreesWithStrength` |
| RatingUi.TipAgreesWithStrength | bot/utils/advanced_rating_ui.py:139-144 | a tip about stronger opponents comes only with a stronger assessment, one about weaker opponents only with a weaker one, and similar opponents always get the balanced tip |
| RatingUi.BreakdownExplanation | bot/utils/advanced_rating_ui.py:388-417 | `_get_breakdown_explanation`; its properties are `RatingUi.ExplanationShape` and `RatingUi.LinesHaveNoNewline` |
| RatingUi.ExplanationShape | bot/utils/advanced_rating_ui.py:388-417 | there is at most one line per factor, so at most three; no line exactly when every factor lies in its neutral band, and then the standard text; otherwise splitting the explanation at newlines gives back its lines |
| RatingUi.OpponentLineHasNoNewline | bot/utils/advanced_rating_ui.py:394-401 | the opponent line contains no newline |
| RatingUi.IndividualLineHasNoNewline | bot/utils/advanced_rating_ui.py:405-408 | the individual line contains no newline |
| RatingUi.CurveLineHasNoNewline | bot/utils/advanced_rating_ui.py:412-415 | the curve line contains no newline |
| RatingUi.LinesHaveNoNewline | bot/utils/advanced_rating_ui.py:388-417 | no explanation line contains a newline |
| Text.Split | version.py:118 | `str.split` always yields at least one part, no part contains the separator, and joining the parts with it gives the text back |
| Text.SplitAfterSeparator | test_custom_format.py:9 | a separator after a separator-free run closes that run as the first part and the rest splits on its own |
| Text.Join | version.py:130 | `str.join`; its properties are `Text.SplitJoin` and `Version.JoinAppend` |
| Text.SplitJoin | version.py:118-130 | splitting what `'\n'.join` built from separator-free parts returns those parts |
| Text.TrimLeft | test_custom_format.py:9 | the leading-whitespace trim removes exactly a prefix of whitespace (the characters `str.isspace` accepts) and leaves text that does not start with whitespace |
| Text.TrimRight | test_custom_format.py:9 | the trailing-whitespace trim removes exactly a suffix of whitespace (the characters `str.isspace` accepts) and leaves text that does not end with whitespace |
| Text.StripNoSpace | version.py:121 | `strip()` leaves a text without surrounding whitespace unchanged |
| Text.Strip | version.py:121 | `str.strip`; its properties are `Text.StripIdempotent` and `Text.StripNoSpace` |
| Text.StripIdempotent | version.py:121 | `strip()` applied twice is `strip()` applied once |
| Text.ParseIntOfStripped | test_custom_format.py:9 | `int(x.strip())` and `int(x)` agree, because `int` ignores surrounding whitespace |
| Text.DigitChar | version.py:37 | each digit 0-9 is written by a decimal digit character whose value it is |
| Text.NatToString | version.py:37 | `str(n)` of a natural number is a non-empty run of decimal digits |
| Text.DigitsOfNatToString | version.py:37 | the digits `str(n)` prints have the value `n` |
| Text.ParseDigits | hp2br-team-bot.py:59 | `int` reads a run of digits, with or without a leading minus, as its value or its negation |
| Text.ParseInt | hp2br-team-bot.py:59 | `int` on text; its properties are `Text.ParseIntToString` and `Text.ParseIntOfStripped` |
| Text.ParseIntToString | hp2br-team-bot.py:59 | `int(str(n)) == n` for every integer |
| Text.IntToString | version.py:37 | `str` on an integer; its properties are `Text.ParseIntToString` and `Text.IntToStringHasNo` |
| Text.IntToStringHasNo | version.py:37 | a printed integer contains no character other than digits and `'-'`, so no other separator |
| Version.NoSeparators | version.py:37 | a non-negative number prints with neither `'.'` nor `'-'` |
| Version.VersionStringIsJoin | version.py:34-37 | the version string is the four pieces `v{major}`, `{minor}`, `{patch}-build`, `{build}` joined by dots |
| Version.PatchPiece | version.py:37 | the third piece splits at its dash into the patch number and `build` |
| Version.VersionString | version.py:34-37 | `get_version_string`; its properties are `Version.VersionStringRoundTrip` and `Version.VersionStringInjective` |
| Version.VersionStringRoundTrip | version.py:34-37 | for non-negative numbers the four numbers can be read back from `v{major}.{minor}.{patch}-build.{build}` |
| Version.VersionStringInjective | version.py:34-37 | two records of non-negative numbers with the same version string have the same four numbers |
| Version.BumpOf | version.py:53-68 | a bump type is recognised exactly when it is one of "major", "minor", "patch" or "build" |
| Version.Bumped | version.py:53-72 | the new record of a recognised bump; its properties are `Version.BumpRules` and `Version.BumpChangesString` |
| Version.BumpRules | version.py:53-72 | every bump moves (major, minor, patch, build) strictly forward in dictionary order; major, minor and patch bumps reset the numbers below them and set build to 1, a build bump only adds one to build; the time and description are replaced |
| Version.Incremented | version.py:50-72 | the bump `increment_version` computes; its properties are `Version.IncrementedRefusesUnknown` and `Version.DefaultBumps` |
| Version.IncrementedRefusesUnknown | version.py:53-68 | `increment_version` fails, with "Invalid version type: " and the type, exactly when the type is not one of the four |
| Version.DefaultBumps | version.py:20-72 | without a version file each bump type starts from 1.0.0 build 1: "major" gives 2.0.0 build 1, "minor" 1.1.0 build 1, "patch" 1.0.1 build 1 and "build" 1.0.0 build 2 |
| Version.BumpChangesString | version.py:50-83 | a bump of a record of non-negative numbers always yields a different version string |
| Version.RuleMarksMeaning | version.py:121 | the mark of each line says whether `line.strip() == "---"` |
| Version.HeaderEnd | version.py:118-123 | `header_end` is 0 exactly when no line after the first is marked as a `---` line; otherwise it is one past the first such line, and no earlier line after the first is marked |
| Version.HeaderEndMeaning | version.py:118-123 | `header_end` is 0 exactly when no line after the first strips to `---`; otherwise it is one past the first such line, and no earlier line after the first is one |
| Version.HeaderEndStep | version.py:120-123 | one pass of the search: a line after the first that strips to `---` ends it with `i + 1`, any other line lets the search go on past it |
| Version.FindHeaderEnd | version.py:119-123 | the search loop with its early `break` computes exactly `HeaderEnd` |
| Version.JoinAppend | version.py:130 | joining two non-empty runs of lines puts exactly one separator between them |
| Version.InsertEntry | version.py:117-130 | where the entry goes in the change log; its properties are `Version.ChangelogAppend` and `Version.ChangelogSplice` |
| Version.ChangelogAppend | version.py:125-127 | with no `---` line after the first line, the entry is appended to the existing text |
| Version.CutLines | version.py:130 | cutting the lines after `headerEnd` of them gives the header with its newline followed by the rest, and the header's lines are the first `headerEnd` lines |
| Version.ChangelogSplice | version.py:117-130 | otherwise the new text is the header (the lines up to the `---` line that `Version.HeaderEndMeaning` locates), then the entry, then the rest of the old text, so the old text is kept around the entry; if that line is the last, a newline is added after it |
| Version.VersionManager.constructor | version.py:13-16 | the manager starts with the version file and change log it is given, each possibly missing |
| Version.VersionManager.VersionInfoAt | version.py:18-32 | `get_version_info`; `Version.VersionManager.IncrementVersion` and `Version.DefaultBumps` state what is bumped with and without a version file |
| Version.VersionManager.IncrementVersion | version.py:39-83 | the record bumped is the stored one, or version 1.0.0 build 1 "Initial release" when there is no version file (`Version.DefaultBumps` gives the four results); an unknown bump type writes nothing and fails with its message; otherwise the bumped record is saved, its entry is inserted into the existing change log or into the default header, and the new record's version string is returned |
| Version.VersionManager.UpdateChangelog | version.py:85-134 | the change log becomes the existing log, or the default header when there is none, with the entry for that version and date inserted; the version file is unchanged |

## Left out

- Discord interactions, embeds and voice channels are left out: message sending, button widgets and their labels and
  emoji, channel creation and moving players. They are side effects with no rule to state. The `result_sent` flag
  and the embed colour of the breakdown view (`bot/utils/advanced_rating_ui.py:165-172`) are left out with them.
- HTTP handling and the SQLAlchemy session are left out: commits, rollbacks, queries and the `end_time` stamp.
  Records are in-memory objects, and a raised exception becomes an `Err` result.
- MatchStore.MatchStore.UpdateMatchResult: the call to `MatchService.update_match_result` and the clean-up of the
  route are not modelled; the model covers the scores it passes and the player updates. The service that writes the
  match row is not part of this model.
- The forfeit branch of `update_match_result` is modelled as written. Through `MatchService` it cannot be reached,
  because `ResultType("forfeit")` raises first (`api/services/match_service.py:120`).
- `apply_advanced_rating_changes` assigns the strings "completed" and "placement" to `status` and `result_type`.
  The model stores them as the record's enumerated values.
- `player.team_placement` is written by `record_placement_result` but is not a column of `MatchPlayer` in
  `api/database/models.py`. The model gives the record that field.
- Placements are a map from team number to placement; in `calculate_guild_team_ratings` the code reads them from
  `team_info['placement']`. Breakdowns are keyed by the integer user id where the code uses `str(user_id)`.
- Players are visited in list order, whereas the code goes in dictionary order. Player ids are distinct (the primary
  key of `MatchPlayer`), so the order changes nothing; `MatchStore.VisitAllEach` states this.
- A dictionary key that is present but maps to `None` is not modelled.
- Library calls:
  - The OpenSkill library's `model.rate` is a function parameter. A library exception becomes `rate` returning
    nothing, and then the fallback result follows.
  - `predict_win`, `compare_players`, `predict_match_outcome` and `calculate_team_balance_score` are library calls
    and are left out.
  - The conversion loop `_to_openskill_rating` copies ratings one to one, so the model uses the ratings directly.
- Square roots and powers of ten are left out, for lack of exact real arithmetic:
  - The balancer's balance score is modelled as the variance of the team means. The square root is strictly
    monotone, so every comparison the improver makes comes out the same.
  - In `rating_service.py`, `sqrt` and `10 ** x` are function parameters.
  - OpenSkill team strength is stated on the sum of the squared sigmas.
- Randomness becomes parameters. `random.shuffle` is the `shuffled` argument of `Format.CreateTeams`, and the
  improver's `random.randint` calls are its `draws` sequence.
- TeamBalancer.AdvancedBalance stops when its draws run out. The code's retry loop never ends when fewer than two
  teams are non-empty; the model skips rejected draws instead of looping forever.
- Text.ParseInt accepts an optional sign and ASCII digits surrounded by whitespace (the `str.isspace` set). The
  digit-group underscores and non-ASCII digits that Python's `int` also accepts are not modelled.
- Placement.ParsePlacements: JSON `NaN` and `Infinity` are not modelled, because reals are finite; `int(inf)` raises
  `OverflowError`, which the route does not catch. A JSON float is a `RawFloat` carrying the text Python prints for
  it, which the model does not derive from the number.
- MatchStore.MatchStore.RecordPlacementResultAsWritten: the error text after "Failed to record placement result: " is
  `str(AttributeError)`. The model uses "PLACEMENT", which is what Python up to 3.11 prints; Python 3.12 and later
  print "type object 'ResultType' has no attribute 'PLACEMENT'".
- Format.CreateTeams requires non-negative sizes. The bot's callers pass only the sizes `parse_team_format` accepts,
  which are positive.
- Sorting.SortDesc is an insertion sort that places equal keys in input order, as Python's stable sort does.
  Stability itself is not stated as a lemma.
- From `detect_competition_type`, the "mixed" case can give a negative external-team count, for example when two
  guild teams share placement 1. The model computes the same numbers as the code.
- In `validate_placements` the guild-only error message ("1 through n") cannot be reached. Distinct placements from
  1 to n are already exactly 1..n, and `Views.ValidPlacements` proves it.
- `PlacementInputModal.on_submit`: for a placement above 30 the model keeps the stored value 30 and the preview. The
  extra information message, and the second response that follows it, are left out.
- `version.py`:
  - The two files are `Option` fields of `Version.VersionManager`.
  - The clock and the date are parameters.
  - The `print` calls and the command-line interface are left out.
  - No lemma states where the entry goes in the default change-log header: evaluating that long literal is too
    costly for the prover. `Version.ChangelogSplice` covers every text that has a `---` line.
- The configuration values are constants. Reading them from environment variables is left out.

## Findings

| source | as written | input that shows it | evidently intended | confidence | as-written member | corrected member |
|---|---|---|---|---|---|---|
| api/routes/matches.py:269 | `match.result_type = ResultType.PLACEMENT`, but `ResultType` in `api/database/models.py:16-19` declares only WIN_LOSS, DRAW and CANCELLED. The attribute lookup raises `AttributeError`; the handler at 287-289 rolls back and answers 500 "Failed to record placement result: " followed by the error text, which is "PLACEMENT" up to Python 3.11 | any valid placement result, e.g. match with teams 1 and 2 and placements {1: 1, 2: 2} | mark the match completed with result type "placement" and keep the rating updates | high (not executed) | MatchStore.MatchStore.RecordPlacementResultAsWritten | MatchStore.MatchStore.RecordPlacementResult |
