# Club World Cup bracket predictor — a Dafny model of its core

The predictor covers a tournament of eight groups (A–H) of four teams each. The top
two of every group go through to a fixed sixteen-slot knockout bracket:
- the Round of 16 (`r16_1`..`r16_8`);
- the quarterfinals (`qf_1`..`qf_4`);
- the semifinals (`sf_1`, `sf_2`);
- the third-place match and the final.

Players predict the group qualifiers and then every knockout match. An administrator
records the official results. The predictions are then scored and ranked on a
leaderboard.

This project models that core in Dafny, one module per source file:

| module | file | what it holds |
|---|---|---|
| `Types` | lib/types.ts | the records: group letters and slot ids as closed enumerations, with the iteration orders the components use |
| `TournamentData` | lib/tournament-data.ts | the constant tables |
| `Strings`, `Lists` | (shared) | the JavaScript string and array built-ins the components rely on: `trim`, `parseInt`, `toString`, the digit filter, `includes`/`filter`, truthiness of team names |
| `MatchPrediction` | match-prediction.tsx | the match card |
| `AdminPanelSecure` | admin-panel-secure.tsx | the results panel now in use |
| `AdminPanelSimple` | admin-panel-simple.tsx | the earlier results panel |
| `PredictionFormSimple` | prediction-form-simple.tsx | the prediction form now in use |
| `PredictionForm` | prediction-form.tsx | the earlier prediction form |
| `PredictionAnalysis` | prediction-analysis.tsx | the scoring engine |
| `LeaderboardSimple` | leaderboard-simple.tsx | the current leaderboard |
| `Leaderboard` | leaderboard.tsx | the earlier, qualifiers-only leaderboard |
| `StorageService` | lib/storage-service.ts | the local prediction store and the backend selection |

Each piece of TypeScript keeps its form in the model:
- **Components that hold state become classes.** Their methods carry `modifies` clauses and state the whole new state. These are the match card, both results panels, both forms and the local store.
- **Code that accumulates in loops becomes methods with loops.** Each is proved equal to a specification function. This covers the bracket generators, the scoring loops, the leaderboard's in-place sort, and the search in `savePrediction`.
- **Pure helpers become functions.** Their properties are proved as lemmas.

A missing key in the source's dictionaries is modelled as a missing key in a Dafny
`map`. Where the source falls back to a default (`|| []`, `|| false`, `|| ""`), the
model does the same, and the optional fields of `KnockoutResult` are `Option`s.

Some components keep duplicate copies of the same logic:
- **Match outcome.** Both the match card and the secure panel decide the winner of a match. They are kept as two functions, and `MatchPrediction.PenaltyClearingDisagrees` shows where they part.
- **Bracket generator.** The two prediction forms share one generator, since its code is identical in both.
- **Loser of a match.** The secure panel and the current form each compute it on their own record type. The model keeps both copies, `AdminPanelSecure.Loser` and `PredictionFormSimple.PredictedLoser`.

## Model

| member | source | states |
|---|---|---|
| Types.GroupKey | lib/tournament-data.ts:1-10 | a group key is a single letter from A to H |
| Types.AllGroupsEnumerates | lib/tournament-data.ts:1-10 | the group order lists each of the eight groups exactly once, and distinct groups have distinct keys |
| Types.SlotIdInjective | components/prediction-form-simple.tsx:199-219 | distinct knockout slots have distinct string ids |
| Types.AllSlotsEnumerates | components/prediction-form-simple.tsx:201-218 | the sixteen required match ids list every slot exactly once |
| TournamentData.GroupsShape | lib/tournament-data.ts:1-10 | there are eight groups of exactly four teams each, 32 in all |
| TournamentData.TeamsDistinct | lib/tournament-data.ts:2-9 | the 32 team names are pairwise distinct: the four names of a group differ, and a name belongs to one group only |
| TournamentData.R16Pairing | lib/tournament-data.ts:14-21 | every Round-of-16 match pairs a group winner with a runner-up |
| TournamentData.R16Seeds | lib/tournament-data.ts:14-21 | the 16 seeds, in match order, are exactly the pairs of the fixed pairing |
| TournamentData.R16SeedsDistinct | lib/tournament-data.ts:14-21 | no seed is used twice, and the two sides of a match have different places |
| TournamentData.R16SeedsCover | lib/tournament-data.ts:14-21 | the winner and the runner-up of every group both play in the Round of 16 |
| TournamentData.StructureSizes | lib/tournament-data.ts:12-35 | the structure has 8, 4, 2, 1 and 1 rows per phase, 16 in total |
| TournamentData.R16RowsMatchPairing | lib/tournament-data.ts:13-22 | each Round-of-16 row has the id `r16_i` and a description ("1A x 2B", …) that names the seeds of the fixed pairing |
| TournamentData.FeedersFormATree | lib/tournament-data.ts:23-34 | exactly the quarterfinals, semifinals and final have two feeder slots; the two feeders differ; no slot feeds two matches |
| TournamentData.QuarterRowsMatchFeeders | lib/tournament-data.ts:23-28 | `qf_k` is described as the winners of `r16_(2k-1)` and `r16_(2k)`, its feeder slots |
| TournamentData.SemiRowsMatchFeeders | lib/tournament-data.ts:29-32 | `sf_1` is described as the winners of the first two quarterfinals, and `sf_2` as the winners of the last two |
| TournamentData.FinalRowMatchesFeeders | lib/tournament-data.ts:34 | the final is described as the winners of the two semifinals, its feeders |
| TournamentData.ThirdPlaceRowId | lib/tournament-data.ts:33 | the third-place row describes the two semifinal losers, but its id "3rd" differs from the id "third" used by every component |
| Strings.DigitsOnly | components/match-prediction.tsx:31-35 | the filtered value holds only digits, is no longer than the input, and keeps every digit of the input (as a multiset) |
| Strings.DigitsOnlyAppend | components/match-prediction.tsx:31-35 | filtering distributes over concatenation |
| Strings.DigitsOnlyKeepsDigits | components/match-prediction.tsx:31-35 | a digit string is left as it is |
| Strings.TrimStart | components/prediction-form-simple.tsx:226 | the result is a suffix of the input, only whitespace was removed, and it does not start with whitespace |
| Strings.TrimEnd | components/prediction-form-simple.tsx:226 | the result is a prefix of the input, only whitespace was removed, and it does not end with whitespace |
| Strings.Trim | components/prediction-form-simple.tsx:226 | the trimmed text is no longer than the input and neither starts nor ends with whitespace |
| Strings.TrimBlank | components/prediction-form-simple.tsx:226 | a trimmed name is empty exactly when the name is all whitespace |
| Strings.TrimShape | components/prediction-form-simple.tsx:255 | trimming a trimmed name again changes nothing |
| Strings.NatToString | components/prediction-form-simple.tsx:254 | the decimal text of a number is a non-empty digit string |
| Strings.NatToStringValue | components/prediction-form-simple.tsx:254 | the decimal text of n reads back as n |
| Strings.IntToString | components/match-prediction.tsx:24-25 | a stored score prints as non-empty text |
| Strings.LeadingDigits | components/match-prediction.tsx:40-41 | the longest digit prefix of a string |
| Strings.ParseInt | components/match-prediction.tsx:40-41 | a non-empty digit string reads as its decimal value, and text made only of whitespace ("" included) reads as NaN |
| Strings.ParseIntOfToString | components/match-prediction.tsx:24-41 | parsing a printed integer, negative ones included, gives that integer back |
| Strings.ParseIntOfDigits | components/match-prediction.tsx:40-41 | a non-empty digit string parses to its decimal value |
| Strings.ParseIntOfNegative | components/match-prediction.tsx:40-41 | a minus sign followed by digits parses to the negated value |
| Lists.At | components/admin-panel-secure.tsx:81-84 | reading past the end of a list gives the empty name, as JavaScript's `undefined` does |
| Lists.Compact | components/admin-panel-secure.tsx:81-84 | `filter(Boolean)` keeps exactly the non-empty names, each as many times as before |
| AdminPanelSecure.CompactPair | components/admin-panel-secure.tsx:81-84 | filtering a pair keeps exactly its non-empty names, in their order |
| Lists.Without | components/admin-panel-secure.tsx:99 | filtering out a team removes every occurrence and keeps every other element with its multiplicity |
| Lists.WithoutAppend | components/admin-panel-secure.tsx:99 | filtering distributes over concatenation |
| Lists.WithoutAbsent | components/admin-panel-secure.tsx:99 | filtering out an absent team changes nothing |
| Lists.WithoutKeepsDistinct | components/prediction-form-simple.tsx:76-78 | filtering a duplicate-free list keeps it duplicate-free |
| MatchPrediction.HandleScoreInput | components/match-prediction.tsx:31-35 | the cleaned input is a digit string no longer than the input, a digit string is kept unchanged, and a non-empty result parses to its decimal value |
| MatchPrediction.ConfirmedScores | components/match-prediction.tsx:39-45 | there are scores exactly when both fields are confirmed and non-empty and both parse to non-negative integers, and they are the parsed values |
| MatchPrediction.ConfirmedDigitScores | components/match-prediction.tsx:39-45 | two confirmed, non-empty digit strings, the only text the inputs accept, always give their decimal values |
| MatchPrediction.Tied | components/match-prediction.tsx:91-97 | a tie needs a complete score and two equal parsed values; for digit-only fields it holds exactly when the score is complete and both fields have the same decimal value |
| MatchPrediction.ScoreComplete | components/match-prediction.tsx:99-101 | scores that can be emitted come from a complete score, and for digit-only fields a complete score always gives emitted scores |
| MatchPrediction.PredictedMatch | components/match-prediction.tsx:47-81 | the emitted teams and scores are the inputs. A tie forces extra time, and the penalty pick (possibly "") becomes the winner. Otherwise the higher score's team wins whatever the penalty pick, extra time is as ticked, and the pick is cleared exactly when extra time is ticked |
| MatchPrediction.TiedAgreesWithEmitted | components/match-prediction.tsx:91-101 | a tie shown by the card implies complete scores, and for confirmed scores the card shows a tie exactly when the emitted scores are equal |
| MatchPrediction.PenaltyClearingDisagrees | components/match-prediction.tsx:78-80 | for unequal scores with a penalty pick: the results panel keeps the pick exactly when the match went to extra time, while the card keeps it exactly when it did not |
| MatchPrediction.MatchCard.constructor | components/match-prediction.tsx:24-29 | the card starts from the stored prediction's printed scores and flags; a stored score of 0 starts unconfirmed |
| MatchPrediction.MatchCard.HandleScore1Change | components/match-prediction.tsx:103-107 | the first score becomes the cleaned input and is unconfirmed; nothing else changes |
| MatchPrediction.MatchCard.HandleScore2Change | components/match-prediction.tsx:109-113 | the same for the second score |
| MatchPrediction.MatchCard.HandleScore1KeyDown | components/match-prediction.tsx:115-120 | Enter confirms a non-empty first score; any other key or an empty score changes nothing |
| MatchPrediction.MatchCard.HandleScore2KeyDown | components/match-prediction.tsx:122-127 | the same for the second score |
| MatchPrediction.MatchCard.HandleScore1Blur | components/match-prediction.tsx:129-133 | leaving the field confirms a non-empty first score; nothing else changes |
| MatchPrediction.MatchCard.HandleScore2Blur | components/match-prediction.tsx:135-139 | the same for the second score |
| MatchPrediction.MatchCard.ToggleExtraTime | components/match-prediction.tsx:141-143 | only the extra-time flag flips |
| MatchPrediction.MatchCard.SelectPenaltyWinner | components/match-prediction.tsx:236-238 | only the penalty pick changes |
| MatchPrediction.MatchCard.UpdatePrediction | components/match-prediction.tsx:37-84 | emits nothing unless the confirmed scores parse, and otherwise the resolved prediction; a tie also ticks the card's extra-time box |
| AdminPanelSecure.SetPosition | components/admin-panel-secure.tsx:79-85 | the new list has at most two non-empty names. "first" puts the team at index 0 and keeps the old second entry; "second" puts it last and keeps the old first entry. The list has two entries exactly when both kept names are non-empty |
| AdminPanelSecure.SecondOnEmptyGroup | components/admin-panel-secure.tsx:83-84 | picking "second" in an empty group gives the one-team list [team] |
| AdminPanelSecure.RunnerUpPickedFirstDuplicates | components/admin-panel-secure.tsx:80-81 | picking the current runner-up as "first" gives [team, team], a list with a duplicate |
| AdminPanelSecure.WithGroupPick | components/admin-panel-secure.tsx:75-95 | only the named group's list changes, to the new positions; knockout results and phase are unchanged |
| AdminPanelSecure.WithTeamRemoved | components/admin-panel-secure.tsx:97-109 | the named group loses every occurrence of the team; other groups, knockout results and phase are unchanged |
| AdminPanelSecure.AllGroupsComplete | components/admin-panel-secure.tsx:120-123 | the check is true exactly when every group A–H has two qualifiers |
| AdminPanelSecure.Loser | components/admin-panel-secure.tsx:229-248 | the loser is one of the two teams: team2 when team1 won, team1 otherwise (also when the winner is still "") |
| AdminPanelSecure.SidesFollowFeeders | components/admin-panel-secure.tsx:186-261 | a later match's sides are the recorded winners of its two feeder slots, in order |
| AdminPanelSecure.SecureBracket | components/admin-panel-secure.tsx:111-264 | nothing while any group lacks two qualifiers; at most sixteen matches, each between two non-empty names |
| AdminPanelSecure.SlotStep | components/admin-panel-secure.tsx:177-226 | emitting the slot at a bracket position adds its fixture exactly when both of its sides are non-empty names, and nothing otherwise |
| AdminPanelSecure.GenerateKnockoutMatches | components/admin-panel-secure.tsx:111-264 | the pushed list equals the declarative bracket, and it is empty while any group is incomplete |
| AdminPanelSecure.PushRoundOf16 | components/admin-panel-secure.tsx:177-184 | the Round-of-16 loop leaves exactly the bracket's fixtures of `r16_1`..`r16_8` |
| AdminPanelSecure.PushQuarterFinals | components/admin-panel-secure.tsx:194-206 | the quarterfinal loop extends that list to exactly the bracket's fixtures up to `qf_4` |
| AdminPanelSecure.PushSemiFinals | components/admin-panel-secure.tsx:214-226 | the semifinal loop extends it to exactly the bracket's fixtures up to `sf_2` |
| AdminPanelSecure.PushFixture | components/admin-panel-secure.tsx:194-206 | one guarded push: the list grows from the bracket's first n slots to its first n + 1 |
| AdminPanelSecure.FindInBracket | components/admin-panel-secure.tsx:111-264 | a slot's match in the generated list is its declarative fixture when the groups are complete, and absent otherwise |
| AdminPanelSecure.RoundOf16Slot | components/admin-panel-secure.tsx:125-184 | with complete groups, `r16_i` is played by the two qualifiers of the fixed pairing, and is missing only if one of them is an empty name |
| AdminPanelSecure.CascadeSlot | components/admin-panel-secure.tsx:186-261 | a quarterfinal, semifinal or the final is present exactly when the groups are complete and both feeders have non-empty recorded winners; its teams are those winners, in feeder order |
| AdminPanelSecure.ThirdPlaceSlot | components/admin-panel-secure.tsx:228-248 | the third-place match is present exactly when both semifinal results exist and both losers are non-empty; its sides are those losers |
| AdminPanelSecure.ThirdPlaceBeforeSemisDecided | components/admin-panel-secure.tsx:228-248 | semifinal results saved with no winner already send their team1 to the third-place match, while the final is still absent |
| AdminPanelSecure.BracketOrdered | components/admin-panel-secure.tsx:125-261 | the generated list is in bracket order, r16 to final, with no slot twice |
| AdminPanelSecure.Find | components/admin-panel-secure.tsx:276-277 | a found match is in the list and has the slot, and "not found" means no match in the list has it |
| AdminPanelSecure.Merge | components/admin-panel-secure.tsx:289-292 | the updated fields replace the current ones; the rest, and the two teams, are kept |
| AdminPanelSecure.SecureOutcome | components/admin-panel-secure.tsx:294-314 | without both scores, the merge alone. With equal scores, extra time is set and a non-empty penalty winner wins, otherwise the earlier winner stays. With unequal scores, the bracket team with the higher score wins, and the penalty winner is cleared unless the match went to extra time |
| AdminPanelSecure.SecureAdminPanel.constructor | components/admin-panel-secure.tsx:28-40 | the panel starts from the stored results, or from empty results |
| AdminPanelSecure.SecureAdminPanel.SaveResults | components/admin-panel-secure.tsx:42-53 | the held and the stored results become the given value |
| AdminPanelSecure.SecureAdminPanel.ResetAllResults | components/admin-panel-secure.tsx:55-73 | the held and the stored results become empty results in the group phase |
| AdminPanelSecure.SecureAdminPanel.UpdateGroupResult | components/admin-panel-secure.tsx:75-95 | the results become the group pick applied to the old results, and are stored |
| AdminPanelSecure.SecureAdminPanel.RemoveFromGroup | components/admin-panel-secure.tsx:97-109 | the results become the old ones with the team removed from the group, and are stored |
| AdminPanelSecure.SecureAdminPanel.UpdateKnockoutResult | components/admin-panel-secure.tsx:266-324 | for a slot absent from the generated bracket, nothing changes. Otherwise only that slot's result changes, to the resolved outcome of its current or default result |
| AdminPanelSimple.ToggleQualifier | components/admin-panel-simple.tsx:102-112 | a qualified team is removed; a new team is appended while fewer than two qualify; otherwise nothing is saved |
| AdminPanelSimple.ToggleKeepsQualifiers | components/admin-panel-simple.tsx:102-112 | a saved toggle keeps a list of at most two distinct teams so, holds the team exactly when the old list did not, and leaves all other teams' membership unchanged |
| AdminPanelSimple.WithGroupResult | components/admin-panel-simple.tsx:40-49 | only the named group is replaced; knockout results and phase are unchanged |
| AdminPanelSimple.WithKnockoutResult | components/admin-panel-simple.tsx:51-60 | only the named slot is replaced; group results and phase are unchanged |
| AdminPanelSimple.ToggleKeepsWellFormed | components/admin-panel-simple.tsx:102-112 | the empty results are well formed (every group has at most two distinct qualifiers), and every saved toggle keeps them so |
| AdminPanelSimple.SimpleAdminPanel.constructor | components/admin-panel-simple.tsx:19-24 | the panel starts from the stored results, or from empty results |
| AdminPanelSimple.SimpleAdminPanel.SaveResults | components/admin-panel-simple.tsx:26-38 | the held and the stored results become exactly the given value |
| AdminPanelSimple.SimpleAdminPanel.UpdateGroupResult | components/admin-panel-simple.tsx:40-49 | the results become the old ones with the group replaced, and are stored |
| AdminPanelSimple.SimpleAdminPanel.UpdateKnockoutResult | components/admin-panel-simple.tsx:51-60 | the results become the old ones with the slot replaced, and are stored |
| AdminPanelSimple.SimpleAdminPanel.ClickTeam | components/admin-panel-simple.tsx:102-112 | a refused toggle changes nothing; a saved one replaces the group's list and stores the results; well-formed results stay well formed |
| PredictionFormSimple.ToggleGroupPick | components/prediction-form-simple.tsx:71-93 | a picked team is unpicked; otherwise it is appended while fewer than two are picked, or else replaces the second pick. The list stays at most two long and duplicate-free |
| PredictionFormSimple.UnpickKeepsOrder | components/prediction-form-simple.tsx:76-78 | unpicking removes the team and keeps the order of the rest |
| PredictionFormSimple.PickTeam | components/prediction-form-simple.tsx:71-93 | only the clicked group's picks change |
| PredictionFormSimple.PickTeamValid | components/prediction-form-simple.tsx:71-93 | a record with all eight groups, each holding at most two distinct picks, stays so after a click |
| PredictionFormSimple.InitialGroups | components/prediction-form-simple.tsx:40-46 | the initial record has all eight groups, each empty |
| PredictionFormSimple.InitialGroupsIncomplete | components/prediction-form-simple.tsx:102-104 | the initial record is valid and the group step is not complete |
| PredictionFormSimple.IsGroupPhaseComplete | components/prediction-form-simple.tsx:102-104 | a record with no keys counts as complete; a valid record is complete exactly when all eight groups have two picks |
| PredictionFormSimple.FormBracket | components/prediction-form-simple.tsx:106-197 | generation throws exactly when the group step counts as complete but a group key is missing; a generated match implies every group has two picks |
| PredictionFormSimple.PredictedLoser | components/prediction-form-simple.tsx:167-185 | the predicted loser is team2 when team1 is the predicted winner, and team1 otherwise |
| PredictionFormSimple.GenerateAllKnockoutMatches | components/prediction-form-simple.tsx:106-197 | the slot-by-slot record equals the declarative bracket (empty while groups are incomplete; a throw when a group key is missing) |
| PredictionFormSimple.BracketRecordMatches | components/prediction-form-simple.tsx:106-197 | a record filled for all sixteen slots is the declarative bracket |
| PredictionFormSimple.KnockoutCompleteCheck | components/prediction-form-simple.tsx:199-223 | the check throws exactly when generation throws; otherwise it is true iff all sixteen slot ids have a non-empty predicted winner |
| PredictionFormSimple.CompleteKnockoutFillsBracket | components/prediction-form-simple.tsx:111-223 | with every winner picked, the bracket holds every slot but third place, and holds third place exactly when both semifinal losers are non-empty |
| PredictionFormSimple.ValidGroupsNeverCrash | components/prediction-form-simple.tsx:107-119 | a record holding every group never throws: the bracket is empty while the groups are incomplete, and holds the whole Round of 16 once they are complete |
| PredictionFormSimple.SelectionType | components/prediction-form-simple.tsx:306-312 | "first" iff the team is the first pick; "second" iff it is the second pick and not the first; none iff it is in neither position |
| PredictionFormSimple.HasMadePredictions | components/prediction-form-simple.tsx:314-322 | true exactly when some group has a pick, some knockout prediction exists, or the name is not all whitespace |
| PredictionFormSimple.ResetClearsPredictions | components/prediction-form-simple.tsx:289-322 | after a reset nothing counts as a prediction |
| PredictionFormSimple.SubmissionGuards | components/prediction-form-simple.tsx:225-260 | a blank name is refused whatever the picks; a saved prediction has complete picks, the trimmed name and score 0 |
| PredictionFormSimple.Submission | components/prediction-form-simple.tsx:225-260 | a throw needs a non-blank name, a group step that counts as complete and a missing group key, so a valid record never throws |
| PredictionFormSimple.SimpleForm.constructor | components/prediction-form-simple.tsx:39-46 | the form starts valid, with no name, eight empty groups, no knockout picks, at the group step |
| PredictionFormSimple.SimpleForm.SetPlayerName | components/prediction-form-simple.tsx:370 | only the name changes; the form stays valid |
| PredictionFormSimple.SimpleForm.HandleGroupPrediction | components/prediction-form-simple.tsx:71-93 | only the group picks change, by the click rule; stale knockout picks are kept; the form stays valid |
| PredictionFormSimple.SimpleForm.HandleKnockoutPrediction | components/prediction-form-simple.tsx:95-100 | only the given slot's prediction is overwritten; the form stays valid |
| PredictionFormSimple.SimpleForm.ContinueToKnockout | components/prediction-form-simple.tsx:417-419 | with complete groups, only the step changes, to the knockout step; the form stays valid |
| PredictionFormSimple.SimpleForm.BackToGroups | components/prediction-form-simple.tsx:431 | only the step changes, back to the groups; the form stays valid |
| PredictionFormSimple.SimpleForm.ResetForm | components/prediction-form-simple.tsx:289-304 | the form goes back to its initial, valid state |
| PredictionFormSimple.SimpleForm.SubmitPrediction | components/prediction-form-simple.tsx:225-287 | the outcome is the submission decision (name, then groups, then knockout), and from a valid form it is never a throw. A refusal changes nothing. A saved prediction is upserted into the store, and the form is reset; the form stays valid |
| PredictionForm.ResetGroups | components/prediction-form.tsx:232-236 | the record installed after a save has no group keys |
| PredictionForm.ResetGroupsCrash | components/prediction-form.tsx:232-236 | that record counts as a complete group step, so the knockout step can be entered at once, and generating its bracket throws. `submitPrediction` would throw from that state too, rather than refuse it |
| PredictionForm.LegacyForm.constructor | components/prediction-form.tsx:22-29 | the form starts with no name, eight empty groups, no knockout picks, at the group step |
| PredictionForm.LegacyForm.SetPlayerName | components/prediction-form.tsx:259 | only the name changes |
| PredictionForm.LegacyForm.HandleGroupPrediction | components/prediction-form.tsx:31-53 | only the group picks change, by the same click rule |
| PredictionForm.LegacyForm.HandleKnockoutPrediction | components/prediction-form.tsx:55-60 | only the given slot's prediction is overwritten |
| PredictionForm.LegacyForm.ContinueToKnockout | components/prediction-form.tsx:306-308 | with complete groups, only the step changes |
| PredictionForm.LegacyForm.BackToGroups | components/prediction-form.tsx:320 | only the step changes, back to the groups |
| PredictionForm.LegacyForm.RenderKnockoutMatches | components/prediction-form.tsx:316-328 | the knockout step shows the generated bracket, or throws |
| PredictionForm.LegacyForm.SubmitPrediction | components/prediction-form.tsx:185-237 | the same three refusals as the current form. A saved prediction is appended to the stored list without an id check, and the group record is reset to one without keys |
| PredictionAnalysis.BasePoints | components/prediction-analysis.tsx:200-215 | base points are at most 10, and 0 exactly for an id of no known phase |
| PredictionAnalysis.MatchPhase | components/prediction-analysis.tsx:191-198 | every slot id gets its slot's phase; only "third" gets third place and only "final" the final |
| PredictionAnalysis.SlotIdBasePoints | components/prediction-analysis.tsx:191-215 | r16 slots score 4, qf 6, sf 8, third 5, final 10 |
| PredictionAnalysis.StructureThirdIdScoresNothing | components/prediction-analysis.tsx:191-198 | the structure's id "3rd" belongs to no phase and is worth 0 |
| PredictionAnalysis.TeamPoints | components/prediction-analysis.tsx:87-96 | a predicted team scores 0 if it did not qualify, 2 or 3 if it did, and 3 exactly when the official list has it at the same index |
| PredictionAnalysis.GroupScore | components/prediction-analysis.tsx:84-98 | a group is worth at most 3 per pick, and nothing when no pick qualified |
| PredictionAnalysis.PerfectGroupScore | components/prediction-analysis.tsx:87-96 | picks that equal the official list's prefix earn 3 each |
| PredictionAnalysis.SwappedQualifiers | components/prediction-analysis.tsx:87-96 | the right two qualifiers in the wrong order earn 4 |
| PredictionAnalysis.MatchScore | components/prediction-analysis.tsx:147-174 | a match scores at most base + base/2 + 3, plus 5 for the final. A right winner earns at least base; a wrong winner at most base/2 + 3 |
| PredictionAnalysis.ExactFinalScore | components/prediction-analysis.tsx:147-174 | a final predicted exactly, penalties included, earns the maximum 23 |
| PredictionAnalysis.NoBonusWithoutOfficialValue | components/prediction-analysis.tsx:161-169 | without an official extra time or penalty winner, no extra-time or penalty bonus is earned |
| PredictionAnalysis.SlotPointsCapped | components/prediction-analysis.tsx:114-181 | each slot's points stay under its phase's cap |
| PredictionAnalysis.BracketCap | components/prediction-analysis.tsx:114-181 | the caps of the sixteen slots add up to 183 |
| PredictionAnalysis.KnockoutTotalCapped | components/prediction-analysis.tsx:114-181 | the knockout total stays under the sum of the slot caps |
| PredictionAnalysis.GroupTotalCapped | components/prediction-analysis.tsx:80-112 | with at most two picks per group, each group adds at most 6 |
| PredictionAnalysis.TotalPointsCapped | components/prediction-analysis.tsx:79-181 | with at most two picks per group, a prediction scores at most 231 in total |
| PredictionAnalysis.TotalPoints | components/prediction-analysis.tsx:52-189 | the total is a natural number, and 0 for an empty prediction or for empty results |
| PredictionAnalysis.KnockoutPointsKeys | components/prediction-analysis.tsx:80-119 | every group gets an entry, and exactly the predicted slots that have an official result get one |
| PredictionAnalysis.ScoreGroup | components/prediction-analysis.tsx:84-98 | the accumulating loop computes the group's score |
| PredictionAnalysis.ScoreMatch | components/prediction-analysis.tsx:147-174 | the accumulating steps compute the match's score |
| PredictionAnalysis.ScoreGroups | components/prediction-analysis.tsx:80-112 | the loop over A–H fills the group points and their sum |
| PredictionAnalysis.ScoreKnockout | components/prediction-analysis.tsx:114-181 | the loop over the slots fills the knockout points of the scored slots and their sum |
| PredictionAnalysis.Analyze | components/prediction-analysis.tsx:52-189 | no analysis without results; otherwise the group points, knockout points and their total |
| LeaderboardSimple.MatchScoresAgree | components/leaderboard-simple.tsx:55-94 | the leaderboard's match scoring gives what the analysis gives |
| LeaderboardSimple.LeaderboardMatchScore | components/leaderboard-simple.tsx:55-94 | one match's points equal the analysis's match score and lie between 0 and 23 |
| LeaderboardSimple.LeaderboardScore | components/leaderboard-simple.tsx:32-95 | a prediction's calculatedScore equals the analysis's totalPoints |
| LeaderboardSimple.ResultGroupsAgree | components/leaderboard-simple.tsx:36-50 | scoring only the groups that have results gives the analysis's group total |
| LeaderboardSimple.KnockoutTotalsAgree | components/leaderboard-simple.tsx:52-94 | the leaderboard's knockout total equals the analysis's |
| LeaderboardSimple.LeaderboardAgreesWithAnalysis | components/leaderboard-simple.tsx:32-95 | calculatedScore equals the analysis's totalPoints |
| LeaderboardSimple.ScoreResultGroups | components/leaderboard-simple.tsx:36-50 | the loop computes the total over the groups that have results |
| LeaderboardSimple.ScoreKnockoutMatch | components/leaderboard-simple.tsx:55-94 | one match's points, between 0 and 23 |
| LeaderboardSimple.ScoreKnockoutMatches | components/leaderboard-simple.tsx:52-94 | the loop computes the knockout total |
| LeaderboardSimple.ScorePrediction | components/leaderboard-simple.tsx:32-101 | one prediction's calculatedScore, which equals the analysis's totalPoints |
| LeaderboardSimple.ScoreAll | components/leaderboard-simple.tsx:32-101 | entry i pairs prediction i with its live score; the stored score is ignored |
| LeaderboardSimple.InsertByScore | components/leaderboard-simple.tsx:104 | inserting one entry into a ranking adds one entry |
| LeaderboardSimple.SortedByScore | components/leaderboard-simple.tsx:104 | the sorted list has as many entries as the input |
| LeaderboardSimple.InsertPermutes | components/leaderboard-simple.tsx:104 | insertion adds exactly the inserted entry (as a multiset) |
| LeaderboardSimple.SortPermutes | components/leaderboard-simple.tsx:104 | the sorted list is a permutation of the input |
| LeaderboardSimple.InsertKeepsDescending | components/leaderboard-simple.tsx:104 | insertion keeps a ranking non-increasing by score |
| LeaderboardSimple.SortDescending | components/leaderboard-simple.tsx:104 | the sorted list is non-increasing by score |
| LeaderboardSimple.WithScoreMembers | components/leaderboard-simple.tsx:104 | the entries of one score are exactly the members with that score |
| LeaderboardSimple.InsertWithScore | components/leaderboard-simple.tsx:104 | insertion places the new entry after every existing entry of its score |
| LeaderboardSimple.SortStable | components/leaderboard-simple.tsx:104 | for every score, the entries with that score keep their input order |
| LeaderboardSimple.StableSortUnique | components/leaderboard-simple.tsx:104 | any non-increasing list that keeps each score's input order is this sort's result, so the model fixes the outcome of every stable sort |
| LeaderboardSimple.DescendingDeterminedByScores | components/leaderboard-simple.tsx:104 | two non-increasing lists with the same entries per score are equal |
| LeaderboardSimple.InsertStep | components/leaderboard-simple.tsx:104 | one in-place insertion step turns the sorted prefix plus the next entry into their insertion, leaving the rest of the array alone |
| LeaderboardSimple.ShiftLower | components/leaderboard-simple.tsx:104 | the shifting loop moves every entry before `i` that is scored lower than the inserted one a place to the right, stopping at an entry scored at least as high, and leaves the rest of the array alone |
| LeaderboardSimple.SortByScore | components/leaderboard-simple.tsx:104 | the in-place sort leaves the array as the stable descending sort of its old contents |
| LeaderboardSimple.RankPredictions | components/leaderboard-simple.tsx:30-107 | with at least one prediction and results, the ranking is the sorted scored list; otherwise nothing is recomputed |
| LeaderboardSimple.RankingProperties | components/leaderboard-simple.tsx:30-107 | the ranking is non-increasing, a permutation of the scored predictions, each scored with its analysis total, and stable |
| Leaderboard.QualifierPoints | components/leaderboard.tsx:35-42 | a group earns 2 per predicted qualifier: at most 2 per pick, exactly 2 per pick when all qualified, none when none did |
| Leaderboard.QualifierPointsBounds | components/leaderboard.tsx:35-42 | a group's points are even and no more than the position-aware rule's; that rule gives at most half again as much |
| Leaderboard.QualifierTotalBounds | components/leaderboard.tsx:33-43 | for any picks, the total is even and between 0 and the position-aware total |
| Leaderboard.QualifierTotalCapped | components/leaderboard.tsx:33-43 | with at most two picks per group, the total is at most 4 per group |
| Leaderboard.QualifierScore | components/leaderboard.tsx:30-50 | the score is even, non-negative, and at most the position-aware group total |
| Leaderboard.QualifierScoreBounds | components/leaderboard.tsx:33-46 | the score is never above the analysis's total or the current leaderboard's score |
| Leaderboard.QualifierScoreCapped | components/leaderboard.tsx:33-46 | with at most two picks per group, the score is at most 32 |
| Leaderboard.QualifierScoreIgnoresKnockout | components/leaderboard.tsx:45-46 | knockout predictions and results never change the score |
| Leaderboard.ScoreQualifiers | components/leaderboard.tsx:35-42 | the inner loop computes a group's points |
| Leaderboard.ScorePrediction | components/leaderboard.tsx:33-43 | the groups loop computes the score |
| Leaderboard.ScoreAllByQualifiers | components/leaderboard.tsx:29-51 | entry i pairs prediction i with its qualifier score |
| Leaderboard.RankPredictions | components/leaderboard.tsx:27-58 | with at least one prediction and results, the ranking is the sorted scored list; otherwise nothing is recomputed |
| Leaderboard.RankingProperties | components/leaderboard.tsx:27-58 | the ranking is non-increasing, a permutation, and stable; every entry holds an input prediction and an even, non-negative score |
| Leaderboard.RankingCapped | components/leaderboard.tsx:27-58 | with at most two picks per group in every prediction, every ranked score is between 0 and 32 |
| StorageService.IndexOfId | lib/storage-service.ts:37 | the first index holding the id, or -1 when no entry has it |
| StorageService.FindIndex | lib/storage-service.ts:37 | the search loop finds that first index, or -1 |
| StorageService.Upsert | lib/storage-service.ts:37-45 | an existing id's first entry is replaced in place, keeping length and all other entries; a new id is appended at the end |
| StorageService.WithoutId | lib/storage-service.ts:54-56 | no entry keeps the id; every other entry keeps its multiplicity |
| StorageService.WithoutIdAppend | lib/storage-service.ts:54-56 | the filter distributes over concatenation, so the order of the kept entries is kept |
| StorageService.UpsertIdempotent | lib/storage-service.ts:37-45 | saving the same prediction twice is saving it once |
| StorageService.UpsertFinds | lib/storage-service.ts:37-45 | after a save, the first entry with the id is the saved prediction |
| StorageService.DeleteUndoesSave | lib/storage-service.ts:31-57 | deleting an id after saving a prediction with it gives what deleting it before would |
| StorageService.LocalStorageService.constructor | lib/storage-service.ts:23-77 | the service starts from the given browser flag and stored items |
| StorageService.LocalStorageService.GetPredictions | lib/storage-service.ts:24-29 | the stored list in a browser; [] when nothing is stored or outside a browser |
| StorageService.LocalStorageService.SavePrediction | lib/storage-service.ts:31-49 | in a browser the stored list becomes the upsert of the old one; outside, nothing changes |
| StorageService.LocalStorageService.DeletePrediction | lib/storage-service.ts:51-57 | in a browser the stored list loses every entry with the id; outside, nothing changes |
| StorageService.LocalStorageService.DeleteAllPredictions | lib/storage-service.ts:59-63 | in a browser the stored list becomes empty; outside, nothing changes |
| StorageService.LocalStorageService.GetResults | lib/storage-service.ts:65-70 | the stored results in a browser (none before any save); none outside |
| StorageService.LocalStorageService.SaveResults | lib/storage-service.ts:72-76 | in a browser the stored results become the given value, so a later read returns it; the predictions are untouched |
| StorageService.ChooseBackend | lib/storage-service.ts:292-305 | the database backend iff the environment is production and a client is configured; local storage otherwise |

## Left out

- Rendering, toasts and status messages, the `setTimeout` that clears them, and the loading/submitting flags are not modelled: they only display.
- `SimpleForm` models the open form. When the "predictions closed" switch is off, the form is not rendered at all (prediction-form-simple.tsx:328), so a closed form offers no clicks and no submission. Only the closed-form notice is shown, and that is not modelled.
- The `detailedAnalysis` record of the analysis, `getRankIcon`, and the phase and description labels attached to generated bracket matches are display text and are not modelled. The bracket entries keep their slot and teams.
- `localStorage` and JSON serialisation are not modelled. Each component's stored item is a field (`stored`, `predictions`, `results`). The mount effects that read the item are constructors taking its current value.
- The leaderboards' load effect (leaderboard-simple.tsx:17-28, leaderboard.tsx:14-25) reads the browser store. `RankPredictions` takes the loaded predictions and results as parameters, and returns None where the effect leaves the shown ranking as it was.
- React's re-render and effect timing are not modelled. The match card's effect that re-runs `updatePrediction` on every change (match-prediction.tsx:87-89) is the `UpdatePrediction` method, which the caller invokes; its emitted prediction is returned rather than passed to a callback.
- `Date.now()` and `new Date().toISOString()` are not read. The submit methods take the clock reading `now` and the timestamp text as parameters.
- The database backend, its client and the HTTP routes are not modelled. Only the rule that selects the backend (`ChooseBackend`) is.
- Map iteration order is fixed by the enumerations. `Object.keys`/`Object.entries` is modelled by walking `AllGroups` or `AllSlots` and skipping absent keys. All sums are independent of order.
- Group letters and match ids are closed enumerations, so a stored prediction or result keyed by any other string is not modelled. Only the table row "3rd", which no component uses as a key, is kept, as text in `TournamentData` and in `PredictionAnalysis.StructureThirdIdScoresNothing`.
- Numbers are unbounded integers: no score in this code comes near JavaScript's safe-integer range.
- Strings.ParseInt: models `Number.parseInt` on leading whitespace, an optional sign and decimal digits. The "0x" hexadecimal prefix and NaN details are not modelled. The card only ever parses strings cleaned down to digits.
- TournamentData.R16RowsMatchPairing and the other row lemmas compare the descriptions as Dafny strings. The Portuguese "Vencedor"/"Perdedor" texts are kept verbatim.
- The results panels' `GroupResult` record `{ qualified }` is flattened to its list of teams.

## Findings

| source | as written | input that shows it | evidently intended | confidence | as-written member | corrected member |
|---|---|---|---|---|---|---|
| components/prediction-form.tsx:232-236 | after a save, the form resets its group picks to `{}`, which `isGroupPhaseComplete` (62-64) counts as complete, so the "continue" button shows (306-311). Rendering the knockout step then generates the bracket (327-328), which reads `groupPredictions["A"][0]` and throws. `submitPrediction`, whose button sits in that step (355-363), would throw from that state too | save one prediction, then press "Continuar para o Mata-Mata" before every group has two picks again | the reset installs the eight empty groups, as the initial state does, so the continue button stays hidden until the groups are complete | not executed | PredictionForm.ResetGroupsCrash | PredictionFormSimple.ValidGroupsNeverCrash |
