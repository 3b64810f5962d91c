# 5Dice in Dafny

5Dice is a terminal dice game played to the rules of Yahtzee. Each turn the player has up to three rolls of five dice and may hold dice between rolls. After a roll, every open slot on a thirteen-slot score card shows what the roll would earn there. The player then records one of those potential scores, which starts the next turn. When every slot holds a number the game is over, and its total goes into the high scores.

This project models the game's core:

- the two scorers, which compute the potential score of every category for a roll:
  - `calculatePotentialScore`, the newer one. It takes the recorded scores into account, including the joker rule for a second five of a kind.
  - `calculatePotentialScores`, the older one. It returns one decimal string or null per category.
- the selectors over the score card: game over, the upper and lower board sums, the upper bonus and the total.
- the two stateful game objects, each with the moves roll, hold, score and restart:
  - the `GameEngine` class;
  - the earlier MobX `Game` store.

The modules are:

| module | file | contents |
|---|---|---|
| `Categories` | `categories.dfy` | the thirteen categories, die faces, and `Card<T>` (a record with one entry per category, as the score objects are) |
| `Hand` | `hand.dfy` | face counts, sums, distinct values and runs of consecutive values |
| `PotentialScore` | `potential_score.dfy` | the newer scorer. The imperative function is proved equal to a case-by-case specification `PotentialScore`, and the joker, standard and cannot-score rules are proved about that specification |
| `Decimals` | `decimal.dfy` | `String(n)` and `Number(s)` on natural numbers, with their round trip |
| `PotentialScores` | `potential_scores.dfy` | the older scorer, proved equal to the standard scores written as decimal strings |
| `Selectors` | `selectors.dfy` | the score card selectors |
| `Turn` | `turn.dfy` | dice and score card values and their changes: rolling the unheld dice, toggling a hold, merging a roll's offers into the card, and committing a score |
| `Engine` | `game_engine.dfy` | class `GameEngine` |
| `Store` | `store.dfy` | class `Game` |

A slot of the score card is one of three things:
- `Open`: null or undefined;
- `Potential(text)`: an offer shown to the player, as a string;
- `Recorded(points)`: a number.

A die is a value plus a held flag. An unrolled die has value 0.

## Model

| member | source | states |
|---|---|---|
| PotentialScore.IsStraight | source/calculate-potential-score.ts:16-38 | the loop over the sorted distinct values answers true exactly when the dice contain `size` consecutive values |
| Hand.UniqSort | source/calculate-potential-score.ts:17 | the result holds exactly the values of the dice, each once, in ascending order |
| Hand.TooFewValues | source/calculate-potential-score.ts:19-21 | fewer distinct values than `size` can hold no straight of that size |
| Hand.LargeStraightIsSmall | source/calculate-potential-scores.ts:76-81 | a straight of five contains a straight of four |
| PotentialScore.DieNumberToId | source/calculate-potential-score.ts:40-49 | the category returned is the upper-board category that counts that face |
| PotentialScore.DieNumberToIdInverse | source/calculate-potential-score.ts:40-49 | each upper-board category is the one returned for its own face |
| PotentialScore.Faces | source/calculate-potential-score.ts:55-56 | a roll without a null die is read as five faces, position by position |
| PotentialScore.CalculatePotentialScore | source/calculate-potential-score.ts:51-210 | the potential scores are the case-by-case specification `PotentialScore`: nothing for a non-roll, the joker offers, the standard offers, or zero for every unrecorded slot on a dead roll |
| PotentialScore.NotARollOffersNothing | source/calculate-potential-score.ts:55-56 | dice with a null die offer nothing in any category |
| PotentialScore.ZeroFill | source/calculate-potential-score.ts:102-106 | every unrecorded category becomes 0 and every recorded one keeps its entry |
| PotentialScore.JokerPotential | source/calculate-potential-score.ts:78-136 | the joker branch builds exactly the joker offer for every category |
| PotentialScore.JokerLowerSection | source/calculate-potential-score.ts:109-133 | every lower-board category except five of a kind is offered its joker value when unrecorded, and nothing changes elsewhere |
| PotentialScore.JokerCase | source/calculate-potential-score.ts:78-136 | when five of a kind was already recorded at 50 or more and five of a kind is rolled again, the result is the joker offer |
| PotentialScore.JokerDice | source/calculate-potential-score.ts:78-85 | under the joker rule all dice match, so the sum is five times the first die |
| PotentialScore.JokerUpperOpen | source/calculate-potential-score.ts:83-90 | with the matching upper slot open, the offers are exactly five of a kind (recorded + 100) and that upper slot (five times the face) |
| PotentialScore.JokerForcedZero | source/calculate-potential-score.ts:92-107 | with the upper slot taken and the six other lower categories recorded, five of a kind gets recorded + 100, every unrecorded slot gets 0, and recorded slots get nothing |
| PotentialScore.JokerLowerBoard | source/calculate-potential-score.ts:109-133 | otherwise five of a kind gets recorded + 100 and each open lower category gets its joker value (sum, 25, 30, 40 or sum) |
| PotentialScore.JokerRecordedNotOfferedAgain | source/calculate-potential-score.ts:88-133 | under the joker rule no recorded category other than five of a kind is offered anything |
| PotentialScore.UpperSection | source/calculate-potential-score.ts:138-160 | the upper-board offers are the standard ones, and the lower board is still empty |
| PotentialScore.KindSection | source/calculate-potential-score.ts:162-182 | three of a kind, four of a kind and full house get their standard offers, and nothing else changes |
| PotentialScore.StraightSection | source/calculate-potential-score.ts:184-190 | the two straights get their standard offers, and nothing else changes |
| PotentialScore.LowerSection | source/calculate-potential-score.ts:162-198 | every lower-board category gets its standard offer |
| PotentialScore.StandardPotential | source/calculate-potential-score.ts:138-198 | the result is the standard offer card: the natural score of each unrecorded category, nothing for recorded ones |
| PotentialScore.StandardOffer | source/calculate-potential-score.ts:138-198 | a recorded category is offered nothing, and an unrecorded one what the dice earn under the standard rules |
| PotentialScore.RecordedNotOfferedAgain | source/calculate-potential-score.ts:138-207 | outside the joker rule a recorded category is never offered anything |
| PotentialScore.LiveRollOffers | source/calculate-potential-score.ts:138-198 | when some category can score, the offers are exactly the natural scores of the unrecorded categories |
| PotentialScore.DeadRollMeaning | source/calculate-potential-score.ts:200-201 | a roll is dead exactly when every category is recorded or cannot be earned by these dice |
| PotentialScore.DeadRollNeedsGamble | source/calculate-potential-score.ts:192-194 | a dead roll can only happen once the gamble category is recorded, since gamble always scores |
| PotentialScore.DeadRollOffers | source/calculate-potential-score.ts:200-207 | on a dead roll every unrecorded category is offered 0 and every recorded one nothing |
| PotentialScore.UpperBoardNatural | source/calculate-potential-score.ts:138-160 | an upper category earns count times face when its face shows, and nothing otherwise |
| PotentialScore.FullHouseNatural | source/calculate-potential-score.ts:176-182 | full house earns 25 exactly when some face shows three times and some face shows twice, and earns nothing else |
| PotentialScore.FiveDiceNatural | source/calculate-potential-score.ts:196-198 | five of a kind earns 50 exactly when all five dice match |
| Hand.FiveOfAKindIsAllSame | source/calculate-potential-score.ts:196-198 | "some face counted five times" is the same as "all five dice match" |
| PotentialScore.FourOfAKindIsThree | source/calculate-potential-score.ts:162-174 | whenever four of a kind earns something, three of a kind earns the same sum |
| PotentialScore.LargeStraightEarnsSmall | source/calculate-potential-score.ts:184-190 | whenever the large straight earns, the small straight earns 30 |
| PotentialScores.IsStraight | source/calculate-potential-scores.ts:4-33 | the loop, including its early exit, answers true exactly when the dice contain `size` consecutive values |
| Decimals.Decimal | source/calculate-potential-scores.ts:58-87 | `String(n)` is a string of digits without a leading zero, one character long exactly when n < 10 |
| Decimals.DecimalRoundTrip | source/store.ts:92 | `Number(String(n))` is n |
| Decimals.DecimalCanonical | source/store.ts:92 | a canonical decimal string is `String` of its own value |
| Decimals.DecimalInjective | source/calculate-potential-scores.ts:58-87 | different scores are written as different strings |
| PotentialScores.Written | source/calculate-potential-scores.ts:58-87 | a score is written as a decimal string that reads back as the score, and no score is written as null |
| PotentialScores.CalculatePotentialScores | source/calculate-potential-scores.ts:35-90 | the result is the standard natural score of every category written as a decimal string, and every offer is a decimal string |
| PotentialScores.ThreeOfAKindCases | source/calculate-potential-scores.ts:65-70 | "a face at least four times or exactly three times" is the same as "a face at least three times" |
| PotentialScores.UpperBoardWritten | source/calculate-potential-scores.ts:58-63 | an upper category is offered `String(count * face)` when its face shows, and null otherwise |
| PotentialScores.OfAKindWritten | source/calculate-potential-scores.ts:65-87 | covers three of a kind, four of a kind and five of a kind:<br>• four or more of a face: both of-a-kind categories get the sum;<br>• exactly three: only three of a kind gets the sum;<br>• fewer: neither does;<br>• five of a kind gets "50" exactly when all dice match |
| PotentialScores.StraightsWritten | source/calculate-potential-scores.ts:76-81 | a straight of five offers "30" and "40"; a straight of four only "30"; otherwise neither |
| PotentialScores.ChanceAndFullHouseWritten | source/calculate-potential-scores.ts:72-83 | chance always offers the sum; full house offers "25" exactly on a three-and-two, and nothing else |
| Selectors.IsGameOver | source/selectors.ts:5-7 | the check over the slots in key order says the game is over exactly when every category's slot holds a number |
| Selectors.NumbersSum | source/selectors.ts:18-19 | dropping the slots without a number and summing the rest gives the sum of every slot's points, with open and potential slots counting 0 |
| Selectors.UpperBoardSum | source/selectors.ts:9-20 | the upper sum is the points of ones through sixes, with slots that hold no number counting 0 |
| Selectors.LowerBoardSum | source/selectors.ts:26-38 | the lower sum is the points of three of a kind through five of a kind, with slots that hold no number counting 0 |
| Selectors.Total | source/selectors.ts:40-46 | the total counts every number on the board once, plus the upper-board bonus |
| Selectors.UpperBoardBonus | source/selectors.ts:22-24 | the bonus is 0 or 35, and 35 exactly when the upper sum is 63 or more |
| Selectors.TotalOfRecorded | source/selectors.ts:9-46 | the upper sum, the lower sum and the total depend only on the numbers recorded, not on offers or open slots |
| Selectors.RecordingRaisesTotal | source/selectors.ts:9-46 | recording p in a slot without a number raises the two board sums by exactly p, and the total by at least p |
| Turn.Rolled | source/game-engine.ts:70-74 | rolling keeps the number of dice (what each die becomes is stated by `Turn.RolledDice`) |
| Turn.Values | source/game-engine.ts:83 | the dice values, die by die |
| Turn.RolledDice | source/game-engine.ts:70-74 | after a roll each held die is unchanged, and each unheld die shows the value rolled for it and is not held |
| Turn.RolledShowsFaces | source/game-engine.ts:70-74 | when the held dice show faces, every die shows a face after the roll |
| Turn.Toggle | source/game-engine.ts:91 | only the chosen die changes, and only its held flag flips |
| Turn.ToggleTwice | source/game-engine.ts:89-93 | holding the same die twice restores the dice |
| Turn.CannotScore | source/store.ts:61-68 | the check over the offers in key order says the roll cannot score exactly when every category offered something already holds a number |
| Turn.Merge | source/store.ts:70-79 | each slot with a number keeps it; each other slot takes '0' on a dead roll, else the roll's offer, else null |
| Turn.MergeKeepsRecorded | source/store.ts:70-79 | merging keeps every number, adds none, leaves every potential a decimal string and leaves the total unchanged |
| Turn.CannotScoreAsWritten | source/store.ts:61-68 | as written, a roll counts as dead exactly when nothing is offered for five of a kind and every other offer lands on a slot holding a number |
| Turn.MergeAsWritten | source/store.ts:61-79 | the merge as written: the dead-roll test ignores the five-of-a-kind offer, any five-of-a-kind offer makes the roll live, and the five-of-a-kind slot is merged as if nothing were offered for it |
| Turn.MergeOffers | source/store.ts:70-79 | a slot without a number shows '0' on a dead roll, the offer on a live roll, and null when nothing is offered |
| Turn.FiveDiceNeverOfferedAsWritten | source/store.ts:61-79 | as written, the five-of-a-kind slot keeps its number or becomes null or '0', never the offer; an offer for five of a kind leaves an open slot null |
| Turn.MergeAsWrittenAgrees | source/store.ts:61-79 | when five of a kind is not offered, the written and the intended merge agree |
| Turn.Cleared | source/store.ts:94-101 | every potential goes back to null, and numbers and open slots stay |
| Turn.CommitEffect | source/store.ts:89-101 | committing records the potential as the number it reads as, clears every other potential, keeps every number, and raises the total by at least that number |
| Turn.Commit | source/store.ts:89-101 | the chosen slot holds the number its potential reads as, and every other slot is cleared of its potential |
| Turn.CommitOffered | source/store.ts:92 | committing an offer `String(n)` records n |
| Store.FiveOfAKindLostAsWritten | source/store.ts:61-79 | five sixes on a new board: as written the five-of-a-kind slot stays null, and the intended merge offers "50" there |
| Store.OfferedFiveDiceLost | source/store.ts:61-79 | any five-of-a-kind offer meets an open slot: as written the slot stays null, and the intended merge shows the offer |
| Store.LastSlotLostAsWritten | source/store.ts:61-79 | five sixes when only ones is open: as written ones stays null, no slot holds a potential and the game is not over, while the intended merge offers '0' for ones |
| Store.OfferedFiveDiceBlocksLast | source/store.ts:61-79 | any five-of-a-kind offer without a ones offer, when only ones is open: as written no potential appears, while the intended merge forces '0' into ones |
| Store.FiveSixesNoOnes | source/calculate-potential-scores.ts:58 | five sixes offer nothing for ones |
| Store.FiveSixesOffered | source/calculate-potential-scores.ts:85-87 | five sixes are offered "50" for five of a kind |
| Engine.GameEngine.constructor | source/game-engine.ts:9-58 | a new game is not rolling, is at turn 0, has unrolled dice, an open board and no high scores |
| Engine.GameEngine.StartRoll | source/game-engine.ts:63-67 | a roll starts exactly when no roll is under way, fewer than three rolls were made and the game is not over; starting advances the turn and sets rolling |
| Engine.GameEngine.FinishRoll | source/game-engine.ts:69-85 | the unheld dice take the rolled values, rolling stops, and the board is merged with the roll's offers |
| Engine.GameEngine.RollUnheld | source/game-engine.ts:69-75 | the dice become the rolled dice, every die shows a face, and no hold or other field changes |
| Engine.GameEngine.Rescore | source/game-engine.ts:83-85 | the board becomes the corrected merge of the old board with the older scorer's offers for the dice |
| Engine.GameEngine.Roll | source/game-engine.ts:63-87 | a roll is permitted exactly when none is under way, fewer than three rolls were made and the game is not over. A permitted roll advances the turn by one, rolls the unheld dice, merges the offers and ends not rolling. Otherwise nothing changes, including a rolling flag already set. The turn never exceeds 3 |
| Engine.GameEngine.Hold | source/game-engine.ts:89-93 | the chosen die toggles when no roll is under way and the turn has started; otherwise nothing changes |
| Engine.GameEngine.Score | source/game-engine.ts:95-116 | covers taking a score and the high-score entry:<br>• a potential taken while not rolling is committed, and the dice and turn are reset;<br>• otherwise the board, dice and turn are unchanged;<br>• a full board appends one timestamped total to the high scores, even when nothing was taken |
| Engine.GameEngine.TakeScore | source/game-engine.ts:98-111 | the chosen potential is committed, the dice become unrolled and the turn goes back to 0, and the invariant is kept |
| Engine.GameEngine.ClearPotentials | source/game-engine.ts:101-106 | the board becomes the cleared board, and nothing else changes |
| Engine.GameEngine.Restart | source/game-engine.ts:118-122 | the dice, board and turn are reset, and the high scores and the rolling flag are kept |
| Store.Game.constructor | source/store.ts:7-46 | a new game is at turn 0, has unrolled dice, an open board and no high scores |
| Store.Game.Roll | source/store.ts:48-81 | a permitted roll advances the turn by one, rolls the unheld dice and merges the roll's offers into the board with the corrected merge; otherwise nothing changes |
| Store.Game.RollUnheld | source/store.ts:52-56 | the dice become the rolled dice, every die shows a face, and no hold or other field changes |
| Store.Game.Rescore | source/store.ts:58-79 | the board becomes the corrected merge of the old board with the older scorer's offers for the dice |
| Store.Game.CannotScoreNow | source/store.ts:61-68 | the loop answers exactly whether every category offered something already holds a number |
| Store.Game.MergePotentials | source/store.ts:70-79 | the loop leaves the board equal to the merge of the old board with the offers |
| Store.Game.Hold | source/store.ts:83-87 | the chosen die toggles once the turn has started; otherwise nothing changes |
| Store.Game.Score | source/store.ts:89-111 | covers taking a score and the high scores:<br>• a potential is committed, and the dice and turn are reset;<br>• otherwise nothing changes;<br>• a full board makes the total the only high score |
| Store.Game.TakeScore | source/store.ts:91-106 | the chosen potential is committed, the dice become unrolled and the turn goes back to 0, and the invariant is kept |
| Store.Game.ClearPotentials | source/store.ts:94-101 | the board becomes the cleared board, and nothing else changes |
| Store.Game.Restart | source/store.ts:113-117 | the dice, board and turn are reset, and the high scores are kept |

## Left out

- Terminal UI and hooks are not part of this model: `ui.tsx`, `cli.tsx`, `use-game.tsx` and `observer.ts`.
- Random rolls: `d6()` and `Math.random()` become the parameter `values` of the roll methods.
- The engine's eight-step roll animation and its `sleep(50)` pauses are not modelled. Only the values of the last step matter, and those are the `values` parameter. Because the generator suspends between steps, the engine's roll is split into `StartRoll` and `FinishRoll`; the `rolling` flag guards roll, hold and score. Restart is not guarded: it may reset the dice, board and turn between `StartRoll` and `FinishRoll`, after which `FinishRoll` rescores at turn 0.
- `Date.now()` becomes the parameter `timestamp` of `Engine.GameEngine.Score`.
- The engine rescores with the corrected merge `Turn.Merge`. Its call at game-engine.ts:85 passes the board as a second argument, which the one-argument scorer in `calculate-potential-scores.ts` does not take. The two-argument scorer that call was written against is not part of this model.
- Store.Game.Roll: uses the corrected merge `Turn.Merge`, not store.ts:61-79 as written (see "## Findings"). With five of a kind rolled, the written code leaves the five-of-a-kind slot null and never judges the roll dead. The model instead offers "50" there and, on a dead roll, '0' in every open slot. The written behaviour is `Turn.MergeAsWritten`, and `Store.FiveOfAKindLostAsWritten` and `Store.LastSlotLostAsWritten` show where the two differ.
- Store.Game.Rescore: ensures `Turn.Merge`, the corrected merge, rather than the as-written `Turn.MergeAsWritten`, for the same reason.
- The engine's constructor from a saved state is not modelled, and neither are the getters over the state, such as `canRoll` and `isGameStart`.
- MobX observability and aliasing are not modelled. The source assigns `initialState.dice` and `initialState.scores` as shared objects; here a reset gives fresh values. Mutations that could reach the shared initial state through an alias are therefore not captured.
- Dice are identified by positions 0 to 4, not by the letters a, s, d, f, g.
- A slot that is null and one that is undefined are both `Open`.
- lodash's `countBy`, `sum`, `uniq`, `includes` and `some` are modelled by their mathematical meaning:
  - counts as a multiset;
  - sums by recursion;
  - distinct values as a set.
- `Sort` compares as strings. On single-digit faces this agrees with the numeric order `UniqSort` produces.
- JavaScript's number range is not modelled. Every score fits easily.

## Findings

| source | as written | input that shows it | evidently intended | confidence | as-written member | corrected member |
|---|---|---|---|---|---|---|
| source/store.ts:63-79 | the older scorer writes its five-of-a-kind offer under the key 'tahtzee', while the store looks the offer up under 'fiveDice' and checks the 'tahtzee' entry against a board slot that does not exist | dice 6,6,6,6,6 on a new board: the five-of-a-kind slot stays empty instead of offering "50". The same dice when only ones is open: ones stays empty and no slot can be taken, where '0' was intended | the five-of-a-kind offer goes into the 'fiveDice' slot, and a dead roll is judged on the real slots | not executed | Turn.MergeAsWritten, Store.FiveOfAKindLostAsWritten, Store.LastSlotLostAsWritten | Turn.Merge, Turn.MergeOffers |
