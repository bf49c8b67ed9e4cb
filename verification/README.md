# Dice simulator: roll lifecycle and statistics

A Dafny model of the logic inside `DiceSimulator` (`script.js`), a browser
widget that shows one or more six-sided dice, rolls them on request and
keeps running statistics. Everything in the model is a pure function over an
immutable state record:

- `rolling`: the roll button is disabled, so a roll is in flight;
- `dice`: the face each die shows, in die order;
- `pending`: the values sampled by the roll in flight;
- `stats`: `rollCount` and `rollHistory`, the recent roll sums, capped at 10;
- `result`: the result line `updateResult` last chose.

`rollDice` suspends once, for its 1000 ms animation hold. The model splits
it at that point. `BeginRoll` is the part before the hold: the guard, raising
the flag, and one draw per die. `FinishRoll` is the part after it: commit
the draws to the dice, show them, record the statistics and lower the flag.
`Math.random() * 6` becomes a sequence of draws that each lie in 1..6.

Modules:

- `Faces`: the face-to-orientation table (`faceRotations`).
- `Display`: the length branch of `updateResult`.
- `Stats`: `updateStats`, the left-fold sum, the 10-entry window and the last-5 view.
- `Simulator`: the state, `createDice`, the two halves of `rollDice`, and the invariant `Valid`.
- `Scenarios`: runs of uninterrupted rolls, and the statistics they leave behind.

Behaviour the code has and the model keeps:

- `createDice` is not guarded by the roll flag. The die count can change
  during the hold. The commit then walks the new dice with the draws taken for
  the old ones:
  - a die past the old count receives `undefined`, which is not a valid
    transform, so it keeps face 1;
  - the statistics record the sum of the old draws.

  `ResizeDuringRoll` states this.
- The code does not validate the die count. `createDice(0)` leaves no dice.
  `updateResult([])` then shows the single-value wording with `undefined`,
  which is `ResultView.Missing` here. The model follows the code: the
  count is a `nat` and there is no error path.

## Model

| member | source | states |
|---|---|---|
| Faces.FaceRotations | script.js:14-21 | the table is defined for exactly the keys 1..6, and no two faces map to the same transform |
| Faces.OrientationIdentifiesFace | script.js:100-104 | two faces get the same rotation exactly when they are the same face |
| Faces.Orientation | script.js:102 | the `faceRotations[number]` lookup for a face; no other face maps to the same transform, so the face can be read back from it |
| Faces.FaceRotationsDefinedExactlyOnFaces | script.js:100-104 | the lookup in `updateDice` finds an entry exactly for the values 1..6 |
| Display.UpdateResult | script.js:106-112 | list wording exactly when there is more than one value; single wording for exactly one value; the values shown read back as the input in order; an empty input gives the `undefined` single wording |
| Stats.ReduceSum | script.js:123 | the left-to-right `reduce` accumulation equals the recursive sum of the roll's values |
| Stats.Sum | script.js:123 | the `reduce` sum of a roll's values, the value `updateStats` appends; for n values that each lie in 1..6 it lies in [n, 6n] |
| Stats.Latest | script.js:132 | for k > 0, `slice(-k)` returns min(k, length) entries, each equal to the matching entry at the end of the input |
| Stats.UpdateStats | script.js:121-130 | the count goes up by exactly 1; the last history entry is the roll's sum; the history grows by one below the cap and keeps its length at the cap; the other entries are the newest old ones, in order, so at length 10 exactly the oldest is dropped; a history within the cap stays within it |
| Stats.FullHistoryEvictsOldest | script.js:124-130 | when the history holds 10 sums, a roll drops exactly the oldest and keeps the other nine in order, followed by the new sum |
| Stats.UpdateStatsKeepsWindow | script.js:124-130 | if the history is the last 10 sums of the session's log, then after a roll it is the last 10 sums of the log extended by that roll's sum |
| Stats.LastSums | script.js:132 | the shown sums are the final min(5, length) history entries, oldest first |
| Stats.LastSumsAreLatestRolls | script.js:124-132 | when the history is the 10-entry window of the session's sums, the shown sums are the session's latest 5 sums |
| Simulator.OrientationsShowFaces | script.js:100-104 | two dice get the same rotation exactly when they show the same face |
| Simulator.CreateDice | script.js:139-187 | the result has exactly `count` dice, all at face 1, and the result line is `updateResult` of those ones; the statistics, the roll flag and the roll in flight are unchanged; validity is preserved |
| Simulator.Initial | script.js:9-33 | after loading: one die at face 1, no rolls, flag down, result showing 1 |
| Simulator.BeginRoll | script.js:57-79 | the state is unchanged if and only if a roll is already in flight; otherwise the flag is raised and the roll holds one draw per die, in die order; the dice, statistics and result line stay as they were until the roll finishes |
| Simulator.Commit | script.js:88-90 | die i gets the i-th draw; a die with no draw keeps its face |
| Simulator.FinishRoll | script.js:81-97 | the flag is lowered; the dice count is kept; die i holds the i-th draw; the count goes up by one; the newest history entry is the draws' sum; the result line is `updateResult` of the draws; validity is preserved |
| Simulator.Roll | script.js:57-97 | one `rollDice` call with nothing interleaved in its hold: no change at all while a roll is in flight; otherwise the dice take the draws in order, the statistics and the result line record exactly those draws, and the flag ends down |
| Simulator.RollCompletes | script.js:57-97 | a full roll from an idle state leaves die i at the i-th draw, all in 1..6, the flag down, the count up by one, and the newest history entry equal to the dice total, which lies in [n, 6n] for n dice |
| Simulator.ResizeDuringRoll | script.js:88-93 | after a die-count change during the hold, dice past the old count stay at 1, the others take the draws, and the statistics record the old draws |
| Scenarios.RollAll | script.js:122 | repeated rolls keep the state valid and idle, keep the dice count, and raise the count by the number of rolls |
| Scenarios.RollStep | script.js:121-130 | one roll keeps the history equal to the 10-entry window of the session's sums, extended by the roll's sum |
| Scenarios.RollAllHistory | script.js:124-130 | after any run of rolls the history is the last 10 sums of the whole session, in roll order |
| Scenarios.RollAllDice | script.js:88-90 | after a run of rolls the dice show the last roll's draws |
| Scenarios.TwoDiceOneRoll | script.js:57-98 | two dice and one roll give a count of 1 and a single history entry equal to the two faces' total, between 2 and 12 |
| Scenarios.FreshSession | script.js:121-132 | from a state with no rolls, the count is the number of rolls, the history is the latest 10 sums and the shown sums are the latest 5 |
| Scenarios.ElevenRolls | script.js:124-132 | after eleven rolls from a fresh page, the count is 11, the history holds the sums of rolls 2 to 11 in order, and the shown sums are those of rolls 7 to 11 |

## Left out

- DOM construction, markup, CSS classes, the `four-dice-grid` class, `aria-*` attributes and the button label. These are presentation only. The result line is kept as the values it shows.
- The theme selector (`initThemeSelector`). It is cosmetic and does not touch roll state.
- Web Audio sound synthesis (`playDiceSound`, `playStopSound`). It is a foreign API using floats and timers, and its errors are swallowed in the code.
- The `delay`/`setTimeout` hold. It is modelled as the split between `BeginRoll` and `FinishRoll`, not as time.
- `Math.random`. It is replaced by draws in 1..6. The random spin angles set during the hold are decoration and are not modelled.
- Event wiring: the select's change handler, clicks and keys on dice, and the document-wide Space handler. The Space handler repeats the disabled check, and `BeginRoll` already covers that guard.
- `parseInt` of the select value. The count is a `nat`, so NaN and negative counts are not modelled.
- `rollCount` and the sums are JavaScript numbers. Their loss of precision beyond 2^53 is not modelled: integers here are unbounded.
- Faces.FaceRotations: states that the table's domain is exactly 1..6 and that its transforms are distinct. It does not state that each rotation turns the matching face towards the viewer. That depends on the stylesheet's face layout, which is not part of this model.
