# meal_max battle resolver in Dafny

This project models `BattleModel`, the battle resolver of the meal_max game. The resolver
holds an ordered list of at most two prepared meals. It scores each meal as
`price × len(cuisine) − penalty(difficulty)`, with penalties HIGH 1, MED 2 and LOW 3.
It then compares the normalised score gap `|score₁ − score₂| / 100` with a random draw.
Combatant 1 wins only when the gap is strictly greater than the draw, so ties go to combatant 2.
The resolver records one `win` and then one `loss` with the catalog, removes the loser from the
list and returns the winner's name.

Layout:

- `wrappers.dfy` (`Wrappers`): `Result`.
- `kitchen.dfy` (`Kitchen`): the records the resolver consumes. These are `Meal` with `Difficulty`, and the `StatUpdate` event that stands for one call of `update_meal_stats`.
- `lists.dfy` (`Lists`): Python's `list.remove` (drop the first equal element) and what it does to the first two slots.
- `battle_model.dfy` (`Battle`): two parts.
  - Pure specification functions: `BattleScore`, `Delta`, `Decide` (the winner rule), `Resolve` and `AppliedUpdates` (one `battle()`: its result and the stat updates the catalog applied), `Prep` (one `prep_combatant`), and `Step`/`Run`/`RunStats` over whole sessions of calls.
  - The class `BattleModel`. It holds the combatant list as a `seq<Meal>` field and a ghost trace `stats` of stat updates. Its methods update them in place and are proved against the functions.

Modelling choices:

- The random draw is a parameter of `Battle`: `draw: Result<real, string>`. A `Failure` stands for the error the randomness source raised. That error propagates, wrapped as `RandomSourceFailed` and keeping its message. The source's RuntimeError (transport failure, timeout) and ValueError (unparseable response) become this one case.
- What the catalog's `update_meal_stats` does is also a parameter: `replies` gives the reply to the winner's call (line 87) and to the loser's call (line 88). A rejected call raises through `battle()` as `CatalogFailed`, keeping its message. The list is then unchanged, because the removal at line 91 comes later. The trace holds the updates the catalog applied before the failure: none if the winner's update was rejected, the winner's only if the loser's was.
- The length check (line 45) comes before the draw (line 70). With fewer than two combatants the error is therefore `NotEnoughCombatants` even when the draw would have failed.
- A failed draw leaves the list and the trace untouched.
- `get_battle_score` uses no state, so it is the module-level function `BattleScore`.
- Meals are compared by value, as `list.remove` does for a record type. `LoserRemovedWinnerStays` shows the list is the same whether or not the two combatants are equal meals. So the result does not depend on value versus identity comparison.
- The methods do not require the capacity bound. The Python methods work on a list of any length, and the tests fill the list directly. Instead, each method keeps the bound (`Valid`) whenever it held before.
- Where the test file and the code disagree, the model follows the code. `test_battle_model.py:50-51` expects scores of 58.5 and 21.6 for the two fixture meals. The formula in the code gives 18.6 and 174.5 (`ScoreExamples`). The test at lines 39-40 expects a message the code never produces.

## Model

| member | source | states |
|---|---|---|
| `Lists.RemoveFirst` | docstrings_testing/meal_max/meal_max/models/battle_model.py:91 | `list.remove` on a list containing the element: the result is one shorter, and it holds exactly the original elements minus one copy of the removed one (multiset) |
| `Lists.RemoveFirstAt` | docstrings_testing/meal_max/meal_max/models/battle_model.py:91 | when `i` is the first index holding `x`, removing `x` deletes exactly position `i` and keeps every other entry in order |
| `Lists.RemoveOneOfFirstTwo` | docstrings_testing/meal_max/meal_max/models/battle_model.py:76-91 | removing either of the first two entries leaves the other one in front of the unchanged rest, also when the two entries are equal |
| `Battle.ErrorMessage` | docstrings_testing/meal_max/meal_max/models/battle_model.py:70-88 | the randomness source's and the catalog's errors keep their own message when they pass through |
| `Battle.ErrorMessagesAsRaised` | docstrings_testing/meal_max/meal_max/models/battle_model.py:164-166 | the capacity error says "Combatant list is full, cannot add more combatants." (line 166), the too-few error says "Two combatants must be prepped for a battle." (line 47), and the two differ |
| `Battle.DifficultyModifier` | docstrings_testing/meal_max/meal_max/models/battle_model.py:122 | every difficulty's penalty lies between 1 and 3 |
| `Battle.BattleScore` | docstrings_testing/meal_max/meal_max/models/battle_model.py:122-134 | the score is `price × len(cuisine)` less a penalty between 1 and 3 |
| `Battle.ScoreByDifficulty` | docstrings_testing/meal_max/meal_max/models/battle_model.py:122-129 | all else equal, HIGH scores 1 more than MED and MED 1 more than LOW, which fixes the table at 1/2/3 together with the bound above |
| `Battle.ScoreMonotoneInPrice` | docstrings_testing/meal_max/meal_max/models/battle_model.py:129 | with the same non-empty cuisine and the same difficulty, a higher price gives a strictly higher score |
| `Battle.ScoreExamples` | docstrings_testing/meal_max/tests/test_battle_model.py:21-25 | the fixture meals score 18.6 (Ratatouille, `****`, 5.40, LOW) and 174.5 (Beef Wellington, `*****`, 35.10, HIGH) |
| `Battle.Delta` | docstrings_testing/meal_max/meal_max/models/battle_model.py:64 | the normalised gap is non-negative, and 100 times it is the difference of the scores in one order or the other |
| `Battle.Decide` | docstrings_testing/meal_max/meal_max/models/battle_model.py:49-91 | on a list of at least two: winner and loser are the meals in the first two slots, and exactly one entry leaves the list |
| `Battle.Resolve` | docstrings_testing/meal_max/meal_max/models/battle_model.py:45-93 | `battle()` succeeds iff at least two combatants are present, the draw succeeded and both stat updates were accepted. Otherwise it fails, in the code's order: `NotEnoughCombatants` (before the draw), then the randomness source's error, then the winner's rejected update, then the loser's. On success the result is the decision `Decide` makes |
| `Battle.WinnerRule` | docstrings_testing/meal_max/meal_max/models/battle_model.py:76-81 | gap strictly greater than the draw: slot 1 wins and slot 2 loses; gap at most the draw (ties included): slot 2 wins and slot 1 loses |
| `Battle.TieGoesToSecond` | docstrings_testing/meal_max/meal_max/models/battle_model.py:76-81 | equal scores with a non-negative draw always give the win to combatant 2 |
| `Battle.SlotDecides` | docstrings_testing/meal_max/meal_max/models/battle_model.py:49-81 | for two distinct meals and the same draw, the meal in slot 1 wins iff, after swapping them, the meal now in slot 1 wins: the slot decides, not which score is higher |
| `Battle.LargeGapFirstAlwaysWins` | docstrings_testing/meal_max/meal_max/models/battle_model.py:63-78 | the gap is not confined to [0, 1]: a gap of at least 1 beats every draw below 1, so combatant 1 wins |
| `Battle.LowerScoreCanWin` | docstrings_testing/meal_max/meal_max/models/battle_model.py:63-93 | with the fixture meals in slots 1 and 2, the lower-scoring Ratatouille wins on any draw below 1 and is the only combatant left |
| `Battle.LoserRemovedWinnerStays` | docstrings_testing/meal_max/meal_max/models/battle_model.py:90-93 | after a battle is decided, the list is the winner followed by the untouched entries after slot 2; on a two-entry list only the winner remains |
| `Battle.StatEvents` | docstrings_testing/meal_max/meal_max/models/battle_model.py:86-88 | the updates of a completed battle are exactly one win and exactly one loss |
| `Battle.AppliedUpdates` | docstrings_testing/meal_max/meal_max/models/battle_model.py:86-88 | the updates applied during one `battle()` never hold more losses than wins, nor more than one extra win. They hold one extra win exactly when the winner's update was accepted and the loser's rejected. After a successful battle they are the completed battle's win and loss |
| `Battle.RejectedLoserUpdateUnbalances` | docstrings_testing/meal_max/meal_max/models/battle_model.py:86-91 | with the fixture meals, a rejected loser update makes `battle()` fail with the catalog's error after one win and no loss were applied |
| `Battle.Prep` | docstrings_testing/meal_max/meal_max/models/battle_model.py:164-171 | `prep_combatant` fails with `CombatantListFull` iff two or more meals are present; otherwise the list grows by one, keeps every earlier entry and ends with the new meal |
| `Battle.Step` | docstrings_testing/meal_max/meal_max/models/battle_model.py:45-171 | no single call (prep, battle, clear) takes a list of at most two meals above two; a call that raises leaves the list unchanged |
| `Battle.StepStats` | docstrings_testing/meal_max/meal_max/models/battle_model.py:86-88 | one call's updates never hold more losses than wins, and hold as many wins as losses unless the catalog rejected the loser's update |
| `Battle.Run` | docstrings_testing/meal_max/meal_max/models/battle_model.py:95-103 | the combatant list after a session of calls; a session that ends with `clear_combatants` leaves no combatant |
| `Battle.RunStats` | docstrings_testing/meal_max/meal_max/models/battle_model.py:86-88 | the updates of a session, in call order; over any session, losses never outnumber wins |
| `Battle.CapacityInvariant` | docstrings_testing/meal_max/meal_max/models/battle_model.py:154-166 | any sequence of calls starting from at most two meals leaves at most two |
| `Battle.WinsEqualLosses` | docstrings_testing/meal_max/meal_max/models/battle_model.py:86-88 | over a session in which the catalog never rejects a loser's update, the catalog receives as many `win` updates as `loss` updates |
| `Battle.ClearIdempotent` | docstrings_testing/meal_max/meal_max/models/battle_model.py:95-103 | clearing leaves no combatant whatever the list held, and clearing twice is the same as clearing once |
| `Battle.BattleModel.constructor` | docstrings_testing/meal_max/meal_max/models/battle_model.py:19-26 | a new resolver has an empty combatant list (and an empty trace) and satisfies the invariant |
| `Battle.BattleModel.PrepCombatant` | docstrings_testing/meal_max/meal_max/models/battle_model.py:150-171 | on a full list: `CombatantListFull`, list unchanged; otherwise the new list is the old one with the meal appended; no stats recorded; the invariant is kept |
| `Battle.BattleModel.Battle` | docstrings_testing/meal_max/meal_max/models/battle_model.py:28-93 | returns `Resolve`'s error, or the winner's name. On success the list becomes the decided remaining list; on failure it is unchanged. In every case the trace grows by exactly the updates the catalog applied (`AppliedUpdates`). The invariant (capacity, no loss without a win) is kept |
| `Battle.BattleModel.ClearCombatants` | docstrings_testing/meal_max/meal_max/models/battle_model.py:95-103 | the list is empty afterwards, from any state, with no error; the trace is unchanged |
| `Battle.BattleModel.GetCombatants` | docstrings_testing/meal_max/meal_max/models/battle_model.py:136-148 | returns the current list in insertion order, and changes nothing |

## Left out

- Logging: every `logger` call is observation only.
- Floating point: prices, scores, the gap and the draw are exact reals. IEEE rounding of `price * len(cuisine)` and of the division by 100 is not modelled.
- The randomness source (an HTTP request to random.org with a 5-second timeout) is replaced by the `draw` parameter. The model does not require the draw to lie in [0, 1), because the code does not check it.
- The catalog is not part of this model. `kitchen_model.py` (`create_meal`, `delete_meal`, `get_leaderboard`, and the body of `update_meal_stats`) is not included. An applied `update_meal_stats` call appears only as an event in the ghost trace `stats`. Whether the catalog accepts a call is the `replies` parameter. Its reasons for rejecting one (an absent or soft-deleted meal) are not modelled.
- Battle.BattleModel.GetCombatants: returns a value. In Python it returns the list object itself, so a caller that mutates it changes the resolver's state. That aliasing is not modelled.
- Lists.RemoveFirst: requires the element to be present. Python's `list.remove` raises `ValueError` otherwise, but the resolver only removes a loser taken from the list.
- The `deleted` flag of catalog meals is not used by the resolver and is not modelled.
