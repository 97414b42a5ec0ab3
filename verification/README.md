# Eurovision vote store and results, in Dafny

This project models the core of the Eurovision party-voting application:

- the vote service (`src/Service/VoteService.php`). It keeps every user's ballot in `votes.json`. A ballot is a team plus a score from 0 to 10 per country. The service loads the file lazily and answers from an in-memory copy. It validates a submitted ballot, merges it into the stored one and writes the file back under a lock. It computes the global and per-team rankings, the harshest and most generous voter, and the most divisive and most consensual country;
- the two aggregation loops of the results controller (`src/Controller/ResultsController.php`): `getResults` numbers the ranking and computes its summary statistics; `getTeamsStats` counts voters and scores per team.

Modules:

- `Wrappers`: `Option` and `Result`.
- `Config`: a configured performance (country code, name, artist, song, flag). The teams and performances are inputs of the model.
- `Document`: the `votes` object of the file. It is an insertion-ordered sequence of `pseudo => ballot` entries, because PHP arrays iterate in insertion order. Reading a ballot is `Lookup`; `$votes[$pseudo] = …` is `Store`.
- `VoteStore`: validation, the `array_merge` of old and new scores, and the `VoteService` class. The class has the file contents and the lazily filled cache as fields, and its methods update them in place.
- `Scores`: sums, the exact mean and the population variance of a list of integer scores.
- `Sorting`: PHP 8's `uasort` is stable, so it is modelled as a stable insertion sort on a key, ascending or descending. `reset` after such a sort returns the first element with the extreme key; `Sorting.SortByHead` proves this.
- `Ranking`: `calculateRanking` and `getTeamRanking`. These are one loop, differing only in a team filter. The loop builds a row per performance and updates the running mean in place. `Tally` proves that this equals the exact mean of the scores the country received.
- `Statistics`: the four "extreme" queries. Each builds per-voter averages or per-country score lists with loops, then sorts and takes the first row.
- `Results`: the two controller actions.

Some callers expect a richer service than the one modelled. `src/Controller/ConnectionController.php:42` calls a `getUserByUserId` that the vote service does not define. Lines 102-113 of that file call `saveUserVotes` with a fourth `userId` argument and read `success` and `userId` from its result, but the service takes three arguments and returns a boolean. The model follows the vote service as written: ballots are keyed by pseudo, and saving returns whether the file was written.

## Model

| member | source | states |
|---|---|---|
| VoteStore.ItemError | src/Service/VoteService.php:72-81 | a score item is rejected exactly when its country is not configured or its value is not an integer in [0, 10]; the country check comes first |
| VoteStore.FirstItemError | src/Service/VoteService.php:72-81 | no error iff every item is valid; otherwise the error is the one of the first invalid item in request order, and all items before it are valid |
| VoteStore.ValidationError | src/Service/VoteService.php:60-81 | no error iff pseudo and team are non-empty in PHP's sense ("" and "0" are empty), the team is configured, and every score item is valid; an empty pseudo or team gives the missing-field error, then an unconfigured team its error, and otherwise the error of the first failing score item |
| VoteStore.CheckScores | src/Service/VoteService.php:72-81 | the validation loop returns exactly the first failing item's error |
| VoteStore.ToScores | src/Service/VoteService.php:72-98 | the submitted items as a map: the same keys, each with its submitted integer |
| VoteStore.Merge | src/Service/VoteService.php:97-98 | `array_merge` on string keys: the keys are the union; a submitted country takes its new score; every other stored country keeps its old one |
| VoteStore.Ballot | src/Service/VoteService.php:84-104 | the written ballot has the new team and every submitted score; every previously stored score is kept unless resubmitted; no score comes from anywhere else |
| VoteStore.ResubmitIsIdempotent | src/Service/VoteService.php:84-107 | submitting the same ballot a second time leaves the vote document unchanged |
| VoteStore.BallotScoreOrigin | src/Service/VoteService.php:84-104 | every score of the written ballot is either a submitted score or the score already stored for that country under the pseudo |
| VoteStore.SavePreservesRange | src/Service/VoteService.php:72-107 | saving an accepted ballot keeps every stored score an integer in [0, 10], the hypothesis of `Ranking.ScoresForInRange` and `Ranking.AveragesInRange` |
| VoteStore.SavePreservesConfigured | src/Service/VoteService.php:72-107 | saving an accepted ballot keeps every stored score for a configured country, the hypothesis of `Results.TeamRankingAgreesWithTeamStats` |
| VoteStore.VoteService.constructor | src/Service/VoteService.php:16-22 | the service starts with nothing loaded, over the given file contents and configuration |
| VoteStore.VoteService.LoadVotes | src/Service/VoteService.php:507-531 | the cache becomes the file's votes; a missing file reads as no votes |
| VoteStore.VoteService.GetAllVotes | src/Service/VoteService.php:29-36 | returns the cached votes, loading them first if there is no cache; afterwards the cache holds what was returned |
| VoteStore.VoteService.GetUserVotes | src/Service/VoteService.php:43-47 | returns the stored ballot of the pseudo, or none when it has none |
| VoteStore.VoteService.SaveUserVotes | src/Service/VoteService.php:57-111 | an invalid submission yields its error and changes neither cache nor file; a valid one stores the merged ballot under the pseudo in the cache and returns whether the lock was obtained; the file is rewritten only then; scores in [0, 10] and scores for configured countries stay so |
| VoteStore.VoteService.SaveVotes | src/Service/VoteService.php:536-567 | returns false and leaves the file alone when the lock is refused; otherwise the file becomes the cached votes and the result is true |
| VoteStore.VoteService.CalculateRanking | src/Service/VoteService.php:126-169 | the global ranking of the current votes, through the cache |
| VoteStore.VoteService.GetTeamRanking | src/Service/VoteService.php:185-228 | the team's ranking of the current votes, through the cache |
| VoteStore.VoteService.GetHarshestVoter | src/Service/VoteService.php:236-280 | the first lowest-average voter of the current votes, through the cache |
| VoteStore.VoteService.GetGenerousVoter | src/Service/VoteService.php:288-332 | the first highest-average voter of the current votes, through the cache |
| VoteStore.VoteService.GetMostDivisiveCountry | src/Service/VoteService.php:340-417 | the first highest-spread country of the current votes, through the cache |
| VoteStore.VoteService.GetMostConsensualCountry | src/Service/VoteService.php:425-502 | the first lowest-spread country of the current votes, through the cache |
| Document.Lookup | src/Service/VoteService.php:43-47 | none iff the pseudo has no entry; otherwise the entry's ballot |
| Document.Store | src/Service/VoteService.php:107 | an existing pseudo's first entry is replaced by the new ballot in place: same order, same length, other entries untouched; a new pseudo is appended at the end |
| Document.StoreLookup | src/Service/VoteService.php:107 | after a store, the pseudo reads back the stored ballot and every other pseudo reads as before |
| Document.StoreKeepsDistinct | src/Service/VoteService.php:107 | a store never creates a second entry for a pseudo |
| Document.StoreTwice | src/Service/VoteService.php:107 | storing the same ballot twice equals storing it once |
| Document.ExistingScores | src/Service/VoteService.php:89-95 | the stored scores of the pseudo, or the empty map when it has no ballot |
| Scores.MeanStep | src/Service/VoteService.php:156-159 | the mean of s + [x] is (mean(s)·\|s\| + x) / (\|s\| + 1): the source's incremental update is exact |
| Scores.MeanBounds | src/Service/VoteService.php:156-159 | the mean of scores that all lie in [lo, hi] lies in [lo, hi] |
| Scores.VarianceNonNegative | src/Service/VoteService.php:388-396 | the population variance is never negative, so its square root exists |
| Scores.UnanimousHasZeroVariance | src/Service/VoteService.php:388-396 | when every score equals c, the mean is c and the variance is 0 |
| Scores.SumOverRemove | src/Service/VoteService.php:258-260 | the sum of a ballot's scores splits into one score plus the sum of the rest |
| Sorting.InsertPermutes | src/Service/VoteService.php:164-166 | inserting one element adds exactly that element |
| Sorting.InsertSorted | src/Service/VoteService.php:164-166 | inserting into a sorted list keeps it sorted |
| Sorting.InsertTies | src/Service/VoteService.php:164-166 | inserting puts the new element first among the elements with its key and keeps their order |
| Sorting.Insert | src/Service/VoteService.php:164-166 | one insertion step of the stable sort: the result has exactly one more element; what it holds and where it goes are the Insert lemmas |
| Sorting.SortBy | src/Service/VoteService.php:164-166 | PHP 8's stable `uasort` with a spaceship comparator on one field, as at lines 164-166, 223-225, 274-276, 326-328, 411-413 and 496-498: same length; permutation, order and stability are the SortBy lemmas |
| Sorting.SortByPermutes | src/Service/VoteService.php:164-166 | the sort is a permutation: same length, same multiset |
| Sorting.SortBySorted | src/Service/VoteService.php:164-166 | the sort's result is ordered by the key in the requested direction |
| Sorting.SortByStable | src/Service/VoteService.php:164-166 | the sort is stable: for every key value, the elements with that key keep their relative order |
| Sorting.SortByHead | src/Service/VoteService.php:274-279 | `reset` after the sort returns the first element whose key is extreme: no element is more extreme, and every earlier element is strictly less so |
| Ranking.ZeroRows | src/Service/VoteService.php:131-143 | one row per configured performance, with its details, mean 0 and no votes |
| Ranking.Bump | src/Service/VoteService.php:156-159 | the incremental mean update, also at lines 215-218: the count goes up by one, the running total (mean × count) goes up by exactly the score, and the other fields are unchanged |
| Ranking.BumpIsExact | src/Service/VoteService.php:156-159 | one step of the source's incremental mean turns the row of scores s into the row of scores s + [x] |
| Ranking.ScoresForSnoc | src/Service/VoteService.php:146-161 | the scores of a country after one more ballot are the earlier ones followed by that ballot's contribution |
| Ranking.BumpStep | src/Service/VoteService.php:155-159 | bumping the row of a scored configured country keeps every row equal to the count and exact mean of the scores folded in so far |
| Ranking.SkipStep | src/Service/VoteService.php:152-154 | skipping a score for a country with no row keeps every row exact |
| Ranking.FoldBallot | src/Service/VoteService.php:151-160 | the inner loop over one ballot's scores adds that ballot's score to each scored configured country and ignores unknown countries |
| Ranking.TallyBallot | src/Service/VoteService.php:146-161 | after one more ballot, every row holds the count and exact mean of the scores received so far; a ballot that does not match the team filter is skipped |
| Ranking.Tally | src/Service/VoteService.php:131-161 | the rows before sorting are, in configuration order, each performance with the count and exact mean of the scores it received |
| Ranking.Rank | src/Service/VoteService.php:126-169 | the ranking is those rows sorted by mean, highest first, stably: a permutation, descending, with equal means in configuration order |
| Ranking.CalculateRanking | src/Service/VoteService.php:126-169 | the global ranking: every ballot counts |
| Ranking.GetTeamRanking | src/Service/VoteService.php:185-228 | the team ranking: only ballots whose team is the given team count |
| Ranking.ScoresForInRange | src/Service/VoteService.php:76 | when stored scores lie in [0, 10], so does every score a country received |
| Ranking.AveragesInRange | src/Service/VoteService.php:156-159 | when stored scores lie in [0, 10], every average in the ranking lies in [0, 10] |
| Ranking.TeamCountAtMostGlobal | src/Service/VoteService.php:205-208 | a country's vote count in a team ranking is at most its global count, which is at most the number of voters |
| Ranking.UnscoredKeepsZero | src/Service/VoteService.php:140-141 | a country nobody scored keeps mean 0 and no votes |
| Statistics.Head | src/Service/VoteService.php:279 | `reset`: none on an empty list, otherwise the first element |
| Statistics.BallotTotal | src/Service/VoteService.php:255-260 | the summing loop returns the sum of all the ballot's scores |
| Statistics.CollectVoterStats | src/Service/VoteService.php:245-267 | the loop builds, in ballot order, one row per ballot that matches the filter and has scores: pseudo, team or "Inconnue", and mean score |
| Statistics.VoterStatsComplete | src/Service/VoteService.php:245-272 | no more rows than ballots; no rows iff no ballot is eligible; every row is the statistic of an eligible ballot, and every eligible ballot's statistic is a row |
| Statistics.VoterStatsEmpty | src/Service/VoteService.php:245-272 | there are no voter rows iff no ballot passes the team filter with at least one score |
| Statistics.ExtremeVoter | src/Service/VoteService.php:236-280 | none for an empty vote document, otherwise the head of the stably sorted rows; none iff no ballot is eligible; a result is the first row with the extreme mean |
| Statistics.GetHarshestVoter | src/Service/VoteService.php:236-280 | none iff no ballot is eligible; otherwise the first voter whose mean is the lowest row, and that mean is at most every eligible ballot's mean |
| Statistics.GetGenerousVoter | src/Service/VoteService.php:288-332 | none iff no ballot is eligible; otherwise the first voter whose mean is the highest row, and that mean is at least every eligible ballot's mean |
| Statistics.EmptyLists | src/Service/VoteService.php:350-360 | one empty score list per configured country |
| Statistics.CollectBallot | src/Service/VoteService.php:373-377 | the inner loop appends each of one ballot's scores to its country's list and ignores unknown countries |
| Statistics.CollectStep | src/Service/VoteService.php:363-378 | after one more ballot, each country's list holds the scores received so far, in ballot order; a ballot outside the team filter is skipped |
| Statistics.CollectCountryScores | src/Service/VoteService.php:350-378 | each configured country's list is exactly the scores it received, in ballot order |
| Statistics.VarianceOf | src/Service/VoteService.php:388-395 | the two loops compute the population variance of a non-empty score list, which is non-negative |
| Statistics.ComputeCountryStats | src/Service/VoteService.php:383-404 | the rows are, in configuration order, the countries with at least two scores and the variance of those scores |
| Statistics.CountryStatsComplete | src/Service/VoteService.php:383-404 | every row is a configured country with at least two scores and carries their variance; every such country has a row |
| Statistics.ExtremeCountry | src/Service/VoteService.php:340-417 | none when there are no votes or no performances, otherwise the head of the stably sorted rows; a result is the first row with the extreme variance |
| Statistics.GetMostDivisiveCountry | src/Service/VoteService.php:340-417 | none iff there are no votes or no country has two scores; otherwise the first country with the largest spread |
| Statistics.GetMostConsensualCountry | src/Service/VoteService.php:425-502 | none iff there are no votes or no country has two scores; otherwise the first country with the smallest spread |
| Results.EffectiveFilter | src/Controller/ResultsController.php:42-48 | the team ranking is used iff a team is given and is not empty in PHP's sense |
| Results.AssignRanks | src/Controller/ResultsController.php:51-54 | the rows keep their order, and row k gets rank k + 1 |
| Results.AggregateStats | src/Controller/ResultsController.php:57-75 | total votes is the sum of the rows' counts; highest is at least 0 and at least every average, and is 0 or one of them; lowest is at most 10 and at most every voted row's average, and is 10 or one of them |
| Results.GetResults | src/Controller/ResultsController.php:35-88 | the ranked rows are the sorted ranking of the chosen filter with ranks 1..n; totals count performances, voters and configured scores; highest is max(0, every average) and lowest is min(10, every voted row's average) |
| Results.TotalVotesInsert | src/Controller/ResultsController.php:67-68 | inserting a row adds its count to the total |
| Results.TotalVotesSorted | src/Controller/ResultsController.php:67-68 | sorting does not change the total number of votes |
| Results.TotalVotesOfEntries | src/Controller/ResultsController.php:67-68 | the total over the rows is the sum, over performances, of their score counts |
| Results.BallotCounts | src/Controller/ResultsController.php:67-68 | one ballot contributes as many votes as it has scores for configured countries, or none if it does not match the filter |
| Results.ScoreCountsSnoc | src/Controller/ResultsController.php:67-68 | the score count after one more ballot adds that ballot's contribution |
| Results.CountsOfPrefix | src/Controller/ResultsController.php:67-68 | counting per performance and counting per ballot agree on every prefix of the ballots |
| Results.RankedVotesCount | src/Controller/ResultsController.php:67-68 | the ranking's total votes is the number of scores, over matching ballots, given to configured countries |
| Results.Dedup | src/Controller/ResultsController.php:97-104 | the team rows are the configured teams with repeats dropped: same members, no duplicates |
| Results.GetTeamsStats | src/Controller/ResultsController.php:91-127 | one row per distinct configured team, in first-appearance order, holding the number of its voters and the number of their scores |
| Results.TeamRankingAgreesWithTeamStats | src/Controller/ResultsController.php:107-115 | when every stored score is for a configured country, the team ranking's total votes equals that team's count in the team statistics |
| Results.ConfiguredTeamScores | src/Controller/ResultsController.php:107-115 | when every stored score is for a configured country, counting configured scores of a team equals counting all its scores |

## Left out

- Reading and writing `votes.json` is modelled as a `file` field. JSON encoding and decoding, the read and parse errors (`RuntimeException`), directory creation and a failed `json_encode` are not modelled.
- The file lock is not modelled: whether `acquire()` succeeds is a parameter of `SaveUserVotes` and `SaveVotes`.
- A file without a `votes` key reads as no votes, as the source does. A ballot with no `scores` key, or a non-array one, reads as an empty score map; every consumer treats both alike.
- Stored scores are integers. A non-integer value already in the file is not modelled; only submitted values can be `NotInt`.
- The order of scores within one ballot is kept as a map. No result depends on it, because every score goes to its own country's row.
- Numeric-string keys, which PHP turns into integers and which `array_merge` renumbers, are not modelled. Country codes are alphabetic.
- Floating point is not modelled: means and variances are exact `real` numbers.
- Statistics.ComputeCountryStats: reports the variance where the source reports its square root, the standard deviation. `sqrt` is monotone and variance is non-negative, so both sort the same and pick the same country; the number shown differs.
- Scores.UnanimousHasZeroVariance: proves only that equal scores give variance 0, not the converse.
- `ConfigService` is not part of this model: the teams and performances are inputs.
- The HTTP layer is not modelled: request parsing, JSON responses, and the `try`/`catch` turning exceptions into error responses.
- The other controllers and `public/sw.js` are not part of this model.
- Concurrency between requests is not modelled, beyond the lock outcome as a parameter.
