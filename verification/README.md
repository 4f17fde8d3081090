# Bracket: the tournament engine

This project models the tournament engine of Bracket, a service for running tournaments, and proves
properties of it: how it draws Swiss rounds, moves winners through a knockout bracket, builds round
robins, sets times, reports conflicts, ranks inputs and players, activates stages, and how its web
client lays out a bracket. `dafny verify dfyconfig.toml` checks everything.

A tournament has stages, played one after the other; a stage has stage items, played in parallel; a
stage item has inputs (slots for teams) and rounds of matches. Code that works step by step in the
service is a method with loops or a class whose methods change its fields; each is proved against a
specification function or a property, and the promises are lemmas about those.

## Modules

- `Models`: the records. `Sorting`: stable sorting and when its result does not depend on the order
  of the input.
- `Matching`, `SwissPairings`, `SwissGraph`, `Swiss`: one Swiss draw. The matching library is a
  function parameter of which only this is required: it returns a largest matching of maximal weight
  among the largest ones. Such a function exists for every graph. The shuffle is an arbitrary
  permutation.
- `SwissRounds`, `SwissRuns`, `SwissDrafts`: a Swiss stage item as a state machine: creating rounds,
  editing drafts by hand, deleting.
- `SwissSitOuts`: what the test for never having sat out means over a run.
- `Elimination`, `EliminationItem`, `EliminationTable`: the bracket. What each match stores about its
  inputs is a cache of a recursive definition, the winner of the source match. The runs save scores
  and deactivate the stage in any order.
- `RoundRobin`: the circle method.
- `Planning`, `Conflicts`, `Retiming`, `Scheduling`: planned times, the conflict detector and the run
  that writes both.
- `Ranking`, `RankingLaws`, `Standings`, `BracketStandings`: the replay of matches, what it
  conserves, and the order of the inputs. The expected score `1 / (1 + 10 ^ (d / 400))` is a function
  parameter with values between 0 and 1 whose values at `d` and `-d` add up to 1.
- `Viewer`: the order in which the web client draws a bracket, and its round names.
- `Activation`, `ActivationRuns`: going to the next stage and back.
- `Players`: statistics of players.

## Where the code differs from what one would expect

- `update_inputs_in_complete_elimination_stage_item` changes nothing on any tree, consistent or not
  (`EliminationItem.CompletePassIsIdentity`): every round's pass writes that round back as it was
  read, and so undoes what the passes before it did. It never repairs a tree
  (`EliminationItem.CompletePassNeverRepairs`). There are trees to repair: deactivating a stage clears
  the scores but leaves the winners stored in later matches. The tree is then consistent exactly when
  no winner was stored, and the complete pass leaves it so (`EliminationItem.DeactivatedPassIff`); one
  saved score and a deactivation get there from every consistent tree with a playable match that
  another one waits for (`EliminationItem.DeactivationLeavesStaleWinner`). Saving every source match
  again does repair it (`EliminationItem.RunIsRecompute`).
- The conflict test is not an overlap of intervals (`Conflicts.OverlapIff`).
  `Conflicts.OverlapsMissed` says for all matches of positive length which overlaps it sees, and
  `Conflicts.StaggeredMatchesAreMissed` names one it does not see in either order.
- The comment on Swiss pairing speaks of teams that have not sat out before. The code
  (`SwissPairings.HasntSatOut`) compares how often a team has played with the most anyone has. A team
  that joins late was never left out and yet fails the test: `SwissSitOuts.LateJoinerFailsTest` gives
  the run. In one state, the test means having played every round exactly when some active team has
  (`MeansEveryRoundIff`). The rounds a team has missed are those drawn while it was not active and
  those that left it out (`SitOutsSplit`), and over any run the test means never having been left out
  exactly when the counts of both agree as `CountsAgree` says (`MeansNeverLeftOutIff`); then the
  preference is the one meant (`PreferenceAsMeant`).
- That a match moves a Swiss rating by at most 31 needs results worth between 0 and 1
  (`RankingLaws.RatingChangeBounded` is exact, `RankingLaws.LargePointsMoveMore` a counterexample
  with win and loss adding up to 1).
- The freedom from conflicts needs matches that take time. The request models ask for durations of at
  least one minute.

## Model

| member | source | states |
|---|---|---|
| Matching.LargestHeaviestExists | backend/bracket/logic/scheduling/swiss.py:80-80 | the specification of the matching library can be met for every graph |
| Swiss.CollectPlayed | backend/bracket/logic/scheduling/swiss.py:42-49 | the pairs that have met and how often each input has played, over all rounds |
| SwissPairings.MetIff | backend/bracket/logic/scheduling/swiss.py:45-49 | a pair has met exactly when some match with both inputs has one on each side |
| SwissPairings.GapIsSquare | backend/bracket/logic/scheduling/swiss.py:57-58 | whenever the points of two teams differ by at least d and less than d + 1, for a natural d, their gap is d * d |
| SwissPairings.TotalGapIsSquares | backend/bracket/logic/scheduling/swiss.py:57-69 | the gaps of a pairing add up to the squares of the whole points between the two of each pair |
| SwissGraph.GapBound | backend/bracket/logic/scheduling/swiss.py:57-60 | no two teams are further apart than the first and the last of the standings, which bounds every weight |
| SwissGraph.PairingWeight | backend/bracket/logic/scheduling/swiss.py:64-69 | the weight of a pairing is its credit less its total squared gap |
| SwissGraph.LexicographicWeights | backend/bracket/logic/scheduling/swiss.py:61-78 | the BYE edge outweighs all pairs together: a higher total weight means a coefficient at least as high, and with equal coefficients at least as much pair weight |
| SwissGraph.CoefficientOrder | backend/bracket/logic/scheduling/swiss.py:71-78 | the coefficients order the teams for sitting out: those that have played as often as anyone before the others, then the lower ranked first |
| SwissGraph.LargestMatchingLargestPairing | backend/bracket/logic/scheduling/swiss.py:64-80 | every largest matching uses the BYE exactly when the number of teams is odd, so no rematch-free pairing of the active teams has more pairs |
| SwissGraph.HeaviestIsBest | backend/bracket/logic/scheduling/swiss.py:57-80 | the integer weights implement, in this order: most pairs, a team sits out that none should sit out before by that order, the smallest sum of squared whole points between opponents |
| SwissSitOuts.PassesIff | backend/bracket/logic/scheduling/swiss.py:62-73 | an active team passes the test for never having sat out exactly when no active team has missed fewer rounds |
| SwissSitOuts.MeansEveryRoundIff | backend/bracket/logic/scheduling/swiss.py:62-73 | with nobody twice in a round, passing means having played every round, for all active teams, exactly when some active team has |
| SwissSitOuts.SitOutsSplit | backend/bracket/logic/scheduling/swiss.py:42-49 | over any run without deletions, the rounds a team has missed are those drawn while it was not active plus those that left it out |
| SwissSitOuts.MeansNeverLeftOutIff | backend/bracket/logic/scheduling/swiss.py:37-73 | over any such run, passing means never having been left out exactly when some active team was never left out, all such teams were absent equally often, and the others have missed more rounds than that |
| SwissSitOuts.PreferenceAsMeant | backend/bracket/logic/scheduling/swiss.py:71-78 | then a team that was never left out sits out before one that was, and otherwise the lower ranked |
| SwissSitOuts.NobodyAbsent | backend/bracket/logic/scheduling/swiss.py:37-73 | when nobody was ever absent, passing means never having been left out exactly when some active team never was |
| SwissSitOuts.LateJoinerFailsTest | backend/bracket/logic/scheduling/swiss.py:62-78 | a reachable state in which a team that joined after the first round was never left out, fails the test, and is left out after everyone else |
| Swiss.BuildGraph | backend/bracket/logic/scheduling/swiss.py:57-78 | the graph has an edge for each pair that has not met and, for an odd number, a BYE edge for each team, with the weights of the encoding |
| Swiss.PairingPartitions | backend/bracket/logic/scheduling/swiss.py:82-96 | pairs and unpaired teams partition the teams |
| Swiss.GetSwissPairing | backend/bracket/logic/scheduling/swiss.py:29-96 | for every history, shuffle and library: a pairing of the active teams that is best by that order, with the sum of squares defined from the points; everyone else unpaired, both in standings order |
| SwissRounds.NothingToPairIff | backend/bracket/routes/rounds.py:109-118 | a largest pairing is empty exactly when fewer than two teams are active or every two have met |
| SwissRounds.PlanRound | backend/bracket/routes/rounds.py:93-141 | which of the four refusals applies, or a nonempty best pairing as a draft of new matches with consecutive ids and the lengths of the tournament |
| SwissRounds.SwissItem.CreateRound | backend/bracket/routes/rounds.py:67-144 | a refusal changes nothing; otherwise exactly one draft with the new matches of a best pairing is appended |
| SwissRounds.CreateRefusedIff | backend/bracket/routes/matches.py:77-100 | each refusal, and acceptance, exactly when the round is missing, is no Swiss draft, the inputs are the same, or a match of the round has one of them, looked for in this order |
| SwissRounds.SwissItem.CreateMatch | backend/bracket/routes/matches.py:65-111 | which refusal applies and changes nothing, or exactly one match, with the inputs and sources of the request, is appended to the draft |
| SwissRounds.SwissItem.DeleteMatch | backend/bracket/routes/matches.py:39-61 | only matches of drafts of Swiss items are deleted, and nothing else changes |
| SwissRounds.SwissItem.DeleteRound | backend/bracket/routes/rounds.py:47-64 | the round and its matches go, and nothing else changes |
| SwissRuns.GenerationUsesPair | backend/bracket/routes/rounds.py:109-141 | each generated round strictly reduces the number of pairs that have not met |
| SwissRuns.RoundsBounded | backend/bracket/routes/rounds.py:101-141 | over any run without deletions, n inputs see at most n(n-1)/2 generated rounds |
| SwissRuns.SitOutsStayBalanced | backend/bracket/logic/scheduling/swiss.py:43-78 | over any run with a fixed odd set of teams, one left over each round and a fair choice possible, sit-outs of any two teams never differ by more than one |
| SwissDrafts.NobodyPlaysTwice | backend/bracket/routes/matches.py:83-100 | over any history of generated rounds, matches added and deleted by hand and deleted rounds, no input is twice in a round |
| SwissDrafts.CreationIsStep | backend/bracket/routes/matches.py:77-109 | an accepted request to create a match is a step of those histories |
| SwissDrafts.RoundIsStep | backend/bracket/routes/rounds.py:121-141 | what an accepted request to create a round appends is a generated round of those histories |
| SwissDrafts.PlaysOnceSuitsPlanner | backend/bracket/routes/matches.py:90-100 | a round in which no input occurs twice meets the condition of the freedom from conflicts |
| SwissDrafts.GenerationsBounded | backend/bracket/routes/rounds.py:47-144 | with deletions, generated rounds are at most n(n-1)/2 plus the number of matches deleted |
| Elimination.StoredIsEvaluated | backend/bracket/models/db/match.py:41-47 | in a consistent tree the stored inputs and winner of every match are those of the recursive evaluation |
| Elimination.ConsistentIsRecomputed | backend/bracket/logic/ranking/elimination.py:15-74 | there is exactly one consistent way to fill in a tree |
| Elimination.GetInputsToUpdate | backend/bracket/logic/ranking/elimination.py:15-74 | the loop computes the pass over the later rounds in order, stopping at unchanged matches |
| EliminationItem.SaveIsRecompute | backend/bracket/logic/ranking/elimination.py:77-89 | after a score is saved in a consistent tree, the incremental pass gives what evaluating the whole tree gives: the saved match has the new score, the others theirs, and whoever waits for a match has the side of it with the higher score |
| EliminationItem.LastScoresStored | backend/bracket/sql/matches.py:83-93 | over saves and deactivations every match has the score last saved for it, first input first, and is otherwise as it was built, apart from inputs that come from a source |
| EliminationItem.SaveTrusts | backend/bracket/logic/ranking/elimination.py:77-89 | in any tree, consistent or not, a save makes the later matches agree with the saved one and keeps every agreement there was |
| EliminationItem.TrustIsConsistency | backend/bracket/models/db/match.py:41-47 | a tree is consistent exactly when the later matches agree with all those they wait for |
| EliminationItem.RunIsRecompute | backend/bracket/routes/matches.py:135-151 | from any tree, over saves with any snapshot orders and deactivations: once every source match has been saved since the last deactivation, the tree is the evaluation of the leaves and the last scores, and whoever waits for a match has the side of it with the higher score |
| EliminationItem.SavesStayEvaluated | backend/bracket/routes/matches.py:135-151 | from a consistent tree, after any sequence of saves the tree is that evaluation |
| EliminationItem.CompletePassIsIdentity | backend/bracket/logic/ranking/elimination.py:92-97 | the complete pass leaves every tree as it is |
| EliminationItem.CompletePassNeverRepairs | backend/bracket/logic/ranking/elimination.py:92-97 | it makes a tree consistent exactly when it was |
| EliminationItem.ClearedConsistentIff | backend/bracket/sql/matches.py:159-175 | with all scores cleared a tree is consistent exactly when no match stores an input that comes from a source |
| EliminationItem.DeactivatedPassIff | backend/bracket/logic/ranking/elimination.py:92-97 | after a deactivation the complete pass changes nothing, so the tree is consistent exactly when nothing was stored |
| EliminationItem.DeactivationLeavesStaleWinner | backend/bracket/logic/scheduling/handle_stage_activation.py:129-142 | from every consistent tree, a decided score of a match another one waits for, and then a deactivation, lead to an inconsistent tree |
| EliminationTable.RoundsHalveInputs | backend/bracket/logic/scheduling/elimination.py:87-104 | a count is accepted exactly when it is 2^k for k from 1 to 5, and then the rounds are k |
| EliminationTable.DetermineMatchesFirstRound | backend/bracket/logic/scheduling/elimination.py:14-36 | match i is between inputs 2i and 2i+1 |
| EliminationTable.DetermineMatchesSubsequentRound | backend/bracket/logic/scheduling/elimination.py:39-63 | the sources of match i are matches 2i and 2i+1 of the previous round |
| EliminationTable.MatchTable.BuildSingleElimination | backend/bracket/logic/scheduling/elimination.py:66-84 | for every k, 2^k inputs give a complete bracket with ascending ids and one final, nobody scored, nothing planned, with the lengths of the tournament |
| EliminationTable.BracketWellFormed | backend/bracket/logic/scheduling/elimination.py:66-84 | a bracket is a tree: sources are in earlier rounds |
| EliminationTable.NewBracketConsistent | backend/bracket/logic/scheduling/elimination.py:66-84 | a new bracket is consistent |
| EliminationTable.SavedBracket | backend/bracket/routes/matches.py:135-151 | saving a score in a consistent bracket gives the recomputed bracket, again consistent |
| EliminationTable.MatchTable.SaveScore | backend/bracket/routes/matches.py:125-153 | after a save the match has the two scores as given, every other match its own, ids, rounds, sources and times stay, and whoever waits for a match has the side of it with the higher score, nobody after a draw; an unknown match changes nothing; bracket and consistency are kept |
| EliminationTable.MatchTable.UpdateCompleteStageItem | backend/bracket/logic/ranking/elimination.py:92-97 | the loop over the rounds ends with the table it started from |
| RoundRobin.GetRoundRobinCombinations | backend/bracket/logic/scheduling/round_robin.py:12-37 | rotating the list gives round r by a closed form, for every team count, without an index out of range |
| RoundRobin.EveryPairMeetsOnce | backend/bracket/logic/scheduling/round_robin.py:30-35 | any two positions meet exactly once over all rounds, since 2 is invertible modulo the odd number of rounds |
| RoundRobin.EveryonePlaysOnce | backend/bracket/logic/scheduling/round_robin.py:30-35 | every position plays exactly once in a round |
| RoundRobin.BuiltIsRoundRobin | backend/bracket/logic/scheduling/round_robin.py:40-65 | every two inputs meet once, nobody plays twice in a round, with an odd count everyone sits out once, and there are n(n-1)/2 matches |
| RoundRobin.BuildRoundRobin | backend/bracket/logic/scheduling/round_robin.py:40-74 | the matches created for the counted rounds are such a round robin, the input at a position of the circle at home against the one opposite, with the lengths of the tournament |
| Planning.PlanMatchTimings | backend/bracket/logic/planning/matches.py:14-71 | the nested loops with running maxima compute the plan, which the next rows determine |
| Planning.PlanIsEarliest | backend/bracket/logic/planning/matches.py:17-26 | in whatever order stages and rounds are delivered: no assignment that starts with the tournament and lets matches of a round or stage start only when those of every round of the item or stage with a smaller id are over starts any match earlier |
| Planning.FinishIsEarliest | backend/bracket/logic/planning/matches.py:17-26 | nor finishes before the sum over stages of the longest item, each the sum over rounds of the longest match with margin |
| Planning.PlanIsFeasible | backend/bracket/logic/planning/matches.py:27-71 | the plan is such an assignment: by id, every match of a stage or round is over, with its margin, when one of a later stage or round of the item starts; it ends when that sum says |
| Planning.PlannedRoundAt | backend/bracket/logic/planning/matches.py:36-66 | all matches of a round start together, after the longest matches of the rounds before |
| Conflicts.OverlapIff | backend/bracket/logic/planning/conflicts.py:11-23 | the test in full: the first neither starts nor ends after the second, and they start or end together |
| Conflicts.OverlapsMissed | backend/bracket/logic/planning/conflicts.py:11-23 | for matches that take time, the test implies a real overlap, and sees a real overlap exactly when the first starts with the second and ends no later, or starts no later and ends with it |
| Conflicts.StaggeredMatchesAreMissed | backend/bracket/logic/planning/conflicts.py:20-23 | two matches with half an hour in common that pass the test in neither order |
| Conflicts.ComparePair | backend/bracket/logic/planning/conflicts.py:42-70 | what one pair adds to the flags and to the matches with conflicts |
| Conflicts.PairFlagsExact | backend/bracket/logic/planning/conflicts.py:57-67 | adding one pair keeps the flags exact for the pairs looked at |
| Conflicts.GetConflictingMatches | backend/bracket/logic/planning/conflicts.py:26-79 | over all matches of the tournament: flag j of a match is set if and only if both inputs of it and of another match are known, the other has its j-th input, and the two, in the order of stages, items, rounds and matches, pass the test; set and cleared matches partition those with known inputs |
| Conflicts.DueAmongListed | backend/bracket/logic/planning/conflicts.py:32-39 | the listed matches keep the order of all matches, so what is due among them is what is due among all |
| Conflicts.FlagOfOneMatch | backend/bracket/logic/planning/conflicts.py:57-67 | with unique ids a flag is about its own match only |
| Retiming.PlanKept | backend/bracket/logic/planning/matches.py:90-101 | the plan does not depend on the times it writes |
| Retiming.PlanIds | backend/bracket/logic/planning/matches.py:81-101 | the plan has exactly the matches of the tournament, each once |
| Retiming.RetimeKeeps | backend/bracket/sql/matches.py:120-130 | writing timings changes nothing but the start and the length of matches |
| Scheduling.PlanKnown | backend/bracket/logic/planning/matches.py:83-102 | every planned timing finds its match in the dictionary |
| Scheduling.WrittenIsOnPlan | backend/bracket/logic/planning/matches.py:89-104 | writing only the changed timings puts every match on the plan |
| Scheduling.NothingToWriteIff | backend/bracket/logic/planning/matches.py:89-102 | nothing is written exactly when every match is on the plan, so a second run writes nothing |
| Scheduling.Schedule.ScheduleAllMatches | backend/bracket/logic/planning/matches.py:74-105 | after a run every match is on the plan, only times differ, and the flags are those due; without changes nothing is written |
| Scheduling.Schedule.HandleConflicts | backend/bracket/logic/planning/conflicts.py:82-122 | the flags of listed matches are those that are due, others stay |
| Scheduling.OnPlanLengths | backend/bracket/logic/planning/matches.py:32-61 | on the plan a match has its custom length, else that of the stage, else that of the tournament, and its custom margin or that of the tournament |
| Scheduling.OnPlanFollows | backend/bracket/logic/planning/matches.py:27-71 | on the plan a match of a stage or round is over, by its stored times, when one of a stage or round of the item with a larger id starts |
| Scheduling.OnPlanIsEarliest | backend/bracket/logic/planning/matches.py:17-26 | no feasible assignment starts a match before the time it has on the plan |
| Scheduling.SharedInputsApart | backend/bracket/logic/planning/matches.py:33-67 | on the plan, of two matches that share an input one is over before the other starts |
| Scheduling.NoConflictsOnPlan | backend/bracket/logic/planning/conflicts.py:26-79 | on the plan the detector sets nothing and clears every match |
| Ranking.SetStatistics | backend/bracket/logic/ranking/calculation.py:23-66 | what one side of a match adds to one entry |
| Ranking.DetermineRanking | backend/bracket/logic/ranking/calculation.py:69-112 | the results are the replay of the counted matches from the start table |
| Ranking.CountedExactly | backend/bracket/logic/ranking/calculation.py:88-95 | a match counts exactly when it has both inputs, a score and a round that is no draft |
| Ranking.CountedInOrder | backend/bracket/logic/ranking/calculation.py:88-95 | with unique ids the matches are replayed by round id, and by match id within a round |
| RankingLaws.ResultsBalance | backend/bracket/logic/ranking/calculation.py:23-112 | for every history wins equal losses, draws are twice the drawn matches, and scores for equal scores against |
| RankingLaws.ReplayedWinsAndLosses | backend/bracket/logic/ranking/calculation.py:44-52 | the wins and losses of an input are the matches it has won and lost |
| RankingLaws.ReplayedDrawsAndScores | backend/bracket/logic/ranking/calculation.py:32-52 | the draws of an input, and what it scored and conceded, are those of its matches |
| RankingLaws.PointsAreFormula | backend/bracket/logic/ranking/calculation.py:44-59 | outside Swiss the points of every input equal the closed form in its results |
| RankingLaws.SwissMatch | backend/bracket/logic/ranking/calculation.py:61-100 | in a Swiss item a match moves each side by the whole part of 32 times its result less what was expected against the rating the other side had before; a new input has 1200; nobody else changes |
| RankingLaws.FavouriteGainsLess | backend/bracket/logic/ranking/calculation.py:61-100 | with an expectation that falls with the opponent's lead, the higher rated side gains no more from a win than the other would from the same win |
| RankingLaws.ChangesCancel | backend/bracket/logic/ranking/calculation.py:61-64 | with a win and a loss worth 1 together, a draw worth 1/2 and no points for scores, both sides' truncated Elo changes add up to zero |
| RankingLaws.RatingsAreConserved | backend/bracket/logic/ranking/calculation.py:61-112 | with such points, for every history the Swiss ratings sum to 1200 for each entry |
| RankingLaws.RatingChangeBounded | backend/bracket/logic/ranking/calculation.py:61-64 | the change is at most 31 for every expectation exactly when the gain is between 0 and 1 |
| RankingLaws.StrongerOpponentPaysMore | backend/bracket/logic/ranking/calculation.py:61-64 | with an expectation that falls with the opponent's lead, the same result is worth at least as much the further the opponent is ahead |
| RankingLaws.TruncateIsWholePart | backend/bracket/logic/ranking/calculation.py:64-64 | the change is the whole part toward zero |
| RankingLaws.OneMatchMovesLittle | backend/bracket/logic/ranking/calculation.py:61-64 | with results worth between 0 and 1 no match moves a rating by more than 31 |
| RankingLaws.LargePointsMoveMore | backend/bracket/logic/ranking/calculation.py:61-64 | with three points for a win and minus two for a loss a match moves a rating by 80 |
| Standings.WhoIsListed | backend/bracket/logic/ranking/calculation.py:80-112 | exactly the inputs with a team and those of played matches have a result, each once |
| Standings.DetermineTeamRanking | backend/bracket/logic/ranking/calculation.py:115-136 | every entry finds its slot, and the standings are the entries in order |
| Standings.StandingsAreStrict | backend/bracket/logic/ranking/calculation.py:119-136 | the standings are a strictly ordered permutation of the entries, no input twice |
| Standings.StandingsByKeys | backend/bracket/logic/ranking/calculation.py:127-136 | the standings list each result with the slot of its input, by points, then score difference, then total score, then wins, then slot |
| Standings.StandingsIgnoreOrder | backend/bracket/logic/ranking/calculation.py:69-136 | the standings are the same list for every order in which inputs, rounds and matches are delivered |
| Standings.MostPointsFirst | backend/bracket/logic/ranking/calculation.py:119-136 | an input with more points than any other is first |
| BracketStandings.MatchOfEntrants | backend/bracket/logic/scheduling/elimination.py:39-84 | match i of a round is between entrants 2i and 2i+1, and its winner enters the next round at i |
| BracketStandings.OnceInARound | backend/bracket/logic/scheduling/elimination.py:39-84 | no input is in two matches of a round or on both sides of one |
| BracketStandings.RoundSize | backend/bracket/logic/scheduling/elimination.py:66-104 | the inputs entering round r of k are 2^(k-r) |
| BracketStandings.BracketResults | backend/bracket/logic/ranking/calculation.py:69-112 | for every k the winner of the final has k wins and no loss, and every other of the 2^k inputs exactly one loss and fewer wins |
| BracketStandings.ChampionStandsFirst | backend/bracket/logic/ranking/calculation.py:115-136 | outside Swiss, with a win worth more than a loss and not negative and no points for scores, the winner of the final is first in the standings |
| Viewer.OrderRounds | frontend/src/app/bracket-adapter.ts:60-74 | the loop over the rounds computes the view |
| Viewer.OrderedByOrigin | frontend/src/app/bracket-adapter.ts:60-85 | in any round the matches are ordered by the first position of their sources, those without a known source last, ties by id |
| Viewer.OrderedMembers | frontend/src/app/bracket-adapter.ts:64-69 | ordering a round keeps exactly its matches |
| Viewer.ViewIsTree | frontend/src/app/bracket-adapter.ts:60-85 | whatever order the matches of each round arrive in, the view has every match at its place in the tree |
| Viewer.SourcesAreAdjacent | frontend/src/app/bracket-adapter.ts:56-85 | the sources of the match at position i are at positions 2i and 2i+1 of the round before |
| Viewer.LabelNamesEntrants | frontend/src/app/bracket-adapter.ts:178-187 | the name of a bracket round says how many inputs enter it |
| Activation.Tables.ActivateNextStage | backend/bracket/routes/stages.py:136-162 | the outcome of an activation; a refusal changes nothing |
| Activation.Tables.DeactivateStage | backend/bracket/logic/scheduling/handle_stage_activation.py:129-142 | scores of the stage's items are cleared and teams that came from earlier stages leave |
| ActivationRuns.NextStageIff | backend/bracket/sql/stages.py:151-193 | for any active stages, or none: the next stage is the inactive one with the smallest id after an active one, or of all ids from 0 on |
| ActivationRuns.PreviousStageIff | backend/bracket/sql/stages.py:151-193 | the previous stage is the inactive one with the largest id before an active one, or of all ids below 10^10 |
| ActivationRuns.QualifiedIff | backend/bracket/logic/scheduling/handle_stage_activation.py:38-83 | an input can be filled exactly when its standings exist, its place is in them and whoever has that place has a team, which it gets; otherwise which failure it is |
| ActivationRuns.NextIsSuccessor | backend/bracket/sql/stages.py:151-193 | with one active stage the next one is that with the next id |
| ActivationRuns.PreviousIsPredecessor | backend/bracket/sql/stages.py:151-193 | with one active stage the previous one is that with the id before |
| ActivationRuns.ActivationFills | backend/bracket/logic/scheduling/handle_stage_activation.py:86-126 | exactly the tentative inputs of the stage get a team, that of whoever is at their position in the standings they wait for |
| ActivationRuns.ActivationSucceedsIff | backend/bracket/logic/scheduling/handle_stage_activation.py:38-83 | activation succeeds exactly when there is a next stage and every tentative input of it can be filled |
| ActivationRuns.WhyRefused | backend/bracket/logic/scheduling/handle_stage_activation.py:86-126 | a refusal says that there is no next stage, or why the first input that cannot be filled cannot |
| ActivationRuns.DeactivationClears | backend/bracket/logic/scheduling/handle_stage_activation.py:129-142 | after a deactivation the matches of the stage stand at 0:0, its inputs from earlier stages have no team, and everything else stays |
| ActivationRuns.ThereAndBack | backend/bracket/routes/stages.py:144-161 | going on and back restores the active stage and every input; only the scores of the stage left are cleared |
| ActivationRuns.AtMostOneActive | backend/bracket/sql/stages.py:196-208 | no run of activations and other edits ever has two active stages |
| ActivationRuns.PositionsNameDistinctInputs | backend/bracket/logic/scheduling/handle_stage_activation.py:38-55 | distinct positions of one stage item name distinct inputs that have a result |
| ActivationRuns.NoTeamAdvancesTwice | backend/bracket/logic/scheduling/handle_stage_activation.py:38-126 | when the open inputs wait for different positions, nothing is ranked twice and no team is ranked with two inputs, the inputs filled get different teams |
| ActivationRuns.StandingsRankOnce | backend/bracket/logic/scheduling/handle_stage_activation.py:21-35 | the standings of a stage item list every input once |
| ActivationRuns.ComputedRankingsRankOnce | backend/bracket/logic/scheduling/handle_stage_activation.py:21-35 | when the standings of all stage items are computed from their matches and no input has a result in two of them, nothing is ranked twice |
| Players.DeterminePlayerStatistics | backend/bracket/logic/ranking/players.py:18-92 | the loops compute the replay of the counted matches in schedule order, with the ratings rounded |
| Players.RoundedIsNearest | backend/bracket/logic/ranking/players.py:89-90 | the rounded rating is the nearest whole number, of two equally near ones the even one |
| Players.ScheduledExactly | backend/bracket/logic/ranking/players.py:34-43 | the matches replayed are those of published rounds with both inputs and a score |
| Players.ScheduledInOrder | backend/bracket/logic/ranking/players.py:44-49 | they are replayed by start, those without one last, then by round and id |
| Players.PlayerMatch | backend/bracket/logic/ranking/players.py:51-81 | a match moves a player of either team by 32 times the result less what was expected from the averages of the two teams before it, and nobody else; a new player, and a team without players, has 1200 |
| Players.ScheduleIgnoresOrder | backend/bracket/logic/ranking/players.py:34-49 | with unique ids the schedule order is strict and the same for every order of delivery |
| Players.PlayersGetTeamResults | backend/bracket/logic/ranking/players.py:71-90 | the wins, losses and draws of a player are those of the teams the player was in, once for each time listed |
| Players.SwissScoreFits | backend/bracket/logic/ranking/players.py:71-90 | for every history the swiss score is the wins plus half the draws |
| Players.SumKeptIff | backend/bracket/logic/ranking/players.py:58-81 | a match keeps the sum of the ratings exactly when the teams are equally large or the result is the expected one |
| Players.PlayerRatingsAreConserved | backend/bracket/logic/ranking/players.py:51-90 | with equally large teams the ratings sum to 1200 for each player, also for players in several teams or on both sides |

## Left out

- The internals of the matching library and of the shuffle: foreign code, replaced by a specification
  and an arbitrary permutation.
- Floating point and decimals: points, ratings and expected scores are reals, times are whole
  minutes, and the Elo formula is a parameter.
- SQL text, transactions and request parsing: rows are maps or nested records with unique ids that
  grow in creation order. Reads return rounds by id, as the queries order them.
- A match update that moves a match to another round, and a round update that turns a published round
  into a draft again: the runs of the elimination and Swiss modules are those without them.
- That a match uses inputs of its own stage item is a precondition where it is needed: the service
  only checks that they belong to the tournament.
- Limits of subscriptions, authentication, archived tournaments and missing tournaments.
- `determine_available_inputs`, names of rounds and stages, and the other fields of the bracket viewer
  (participants, statuses, results): they would only add easy members.
- `update_round_by_id` and publishing are part of the edits a Swiss run allows between its rounds, not
  operations of their own.
- Recalculating stored points after a save: the standings modules compute them from the matches.
- SwissRuns.SitOutsStayBalanced: the fairness premise is about the largest pairings that exist in each
  round, since rematches can rule the fair choice out.
- Activation.Tables.ActivateNextStage: the standings are a parameter; `ActivationRuns.StandingsRankOnce` and
  `ActivationRuns.ComputedRankingsRankOnce` connect them to the standings module.
- SwissRounds.SwissItem.CreateRound: the rescheduling of all matches at the end of the route is not part of
  it, so "exactly one draft is appended" holds up to the times of matches.
- SwissRounds.SwissItem.CreateMatch: likewise without the rescheduling at the end of the route.
- SwissRounds.SwissItem.DeleteMatch: likewise, and without the recalculation of stored points; "nothing else
  changes" holds up to times and stored points.
- SwissRounds.SwissItem.DeleteRound: likewise without recalculation and rescheduling.
- EliminationTable.MatchTable.SaveScore: custom durations and margins, the rescheduling they cause and the
  recalculation of stored points are not part of it.
- EliminationTable.MatchTable.BuildSingleElimination: requires 2^k inputs; other counts have been refused when the
  rounds were created.
