# Lights Out — a verified model of the game logic

This project models the game logic of the Lights Out component
(`LightsOutComponent`) in Dafny and proves its properties. The board is a 5 × 5 grid of
buttons. Each button has a position (`x` column, `y` row) and a light that is
on or off. A toggle at row `i`, column `j` flips that button and each of its
up/down/left/right neighbours that lie on the board; there is no wrap-around.
A new game turns every light off and then scrambles the board with
`5 + numGamesWon` random toggles ("walking backwards" from the solved board).
A click on an unsolved board toggles at the clicked button and then counts
either a win or a move.

Files:

- `board.dfy`, module `Board`: the board as a value (`seq<seq<Button>>`),
  the toggle rule as a specification function (`Toggled`), the win predicate
  (`AreLightsOut`, written like the component's nested `any`), sequences of
  toggles (`ApplyMoves`), the random pick of a cell (`PickMove`) and the
  lemmas: a toggle is an involution, toggles commute, the order of a
  sequence of toggles does not matter, and replaying the toggles that made a
  puzzle solves it.
- `component.dfy`, module `LightsOut`: the class `LightsOutComponent` with the
  fields `numButtons`, `buttons`, `numMoves` and `numGamesWon`. It has the
  constructor's nested loops, `StartGame` (reset and clear loops, then
  `CreatePuzzle`), `CreatePuzzle`'s loop, `ToggleLights`' copy-and-flip steps
  and `OnButtonClick`. Each method is proved against the functions of `Board`.

The component's own random numbers, timer and rendering are not part of the
model (see "Left out"). `Math.random()` becomes an input: a sequence of
`Draw(ry, rx)` pairs of reals in `[0, 1)`, one pair per toggle.
`createPuzzle` turns each pair into a cell with `Math.floor(5 * r)`; the
model takes the floor of the exact product (see "Left out"). The delayed restart after a win becomes the result
`restartScheduled` of `OnButtonClick`; the restart itself is a later,
separate call of `StartGame`.

A winning click increments only `numGamesWon`; `numMoves` keeps its value
until the next `StartGame`.

A new game can start solved. Toggles that come in pairs cancel, so once
`5 + numGamesWon` is even the draws can pick a sequence `s + s` that leaves
every light off. Every click on that board is ignored and no restart is
scheduled (`DoubledMovesStartSolved`, with the first case of `OnButtonClick`).

## Model

| member | source | states |
|---|---|---|
| `LightsOut.LightsOutComponent.constructor` | app/components/lights-out/component.js:48-67 | the board has `numButtons.y` rows of `numButtons.x` buttons; every light is off; the button at `[i][j]` has `x = j`, `y = i`; `numGamesWon` is 0 |
| `Board.AllOff` | app/components/lights-out/component.js:48-64 | the board built row by row has the component's dimensions, carries each button's own position, and is solved |
| `Board.AnyLightOn` | app/components/lights-out/component.js:200 | the inner `any` is true exactly when some button of the row is lit |
| `Board.AnyRowLit` | app/components/lights-out/component.js:199-201 | the outer `any` is true exactly when some button of some row is lit |
| `Board.AreLightsOut` | app/components/lights-out/component.js:197-202 | the board is solved if and only if no button has its light on |
| `Board.ToggleLight` | app/components/lights-out/component.js:193-195 | one button's light is negated and its position kept |
| `Board.Toggled` | app/components/lights-out/component.js:163-191 | a toggle keeps the board's dimensions and every position, and flips exactly the buttons at Manhattan distance at most one from the centre |
| `Board.NearIsCross` | app/components/lights-out/component.js:167-188 | distance at most one means the centre, top, bottom, left or right cell |
| `Board.ToggleStepsAt` | app/components/lights-out/component.js:165-188 | after the five guarded steps on the copy, one button is flipped exactly when it is near the centre, and its position is unchanged |
| `Board.ToggleStepsAreToggled` | app/components/lights-out/component.js:165-190 | the five guarded steps on the copy produce exactly the toggle |
| `Board.ToggleLightAt` | app/components/lights-out/component.js:167-188 | `toggleLight` on the copy's button at row `r`, column `c`: that button is flipped, every other button is unchanged, the dimensions are kept |
| `Board.ToggleSteps` | app/components/lights-out/component.js:165-188 | the five steps in order: centre, then top, bottom, left and right each only where it lies on the board, each a `toggleLight` on the previous copy; the dimensions and every position are kept |
| `LightsOut.LightsOutComponent.ToggleLights` | app/components/lights-out/component.js:163-191 | the new board is the toggle of the old one at row `i`, column `j`; no index leaves the board; dimensions, positions and counters are unchanged |
| `Board.ToggledTwice` | app/components/lights-out/component.js:168-194 | toggling twice at the same place restores the board |
| `Board.ToggledCommute` | app/components/lights-out/component.js:163-191 | toggles at any two places commute |
| `Board.ApplyMoves` | app/components/lights-out/component.js:155-160 | a sequence of toggles keeps the board's dimensions and every position |
| `Board.ApplyMovesConcat` | app/components/lights-out/component.js:155-160 | toggling by `s + u` is toggling by `s` and then by `u` |
| `Board.ToggledPastMoves` | app/components/lights-out/component.js:154-160 | a first toggle can be moved past any sequence of toggles to the end |
| `Board.ToggledToEnd` | app/components/lights-out/component.js:154-160 | a toggle in the middle of a sequence can be moved to its end |
| `Board.ApplyMovesTwice` | app/components/lights-out/component.js:154-160 | replaying a sequence of toggles undoes it |
| `Board.ApplyMovesPermutation` | app/components/lights-out/component.js:154-160 | two sequences with the same toggles, in any order, have the same effect |
| `Board.ReplaySolves` | app/components/lights-out/component.js:150-160 | a puzzle made by toggles from the all-off board is solved by replaying those toggles in any order |
| `Board.DoubledMovesStartSolved` | app/components/lights-out/component.js:150-160 | a scramble made of a sequence of toggles twice leaves the all-off board unchanged, so the new game starts solved |
| `Board.ClearedIsAllOff` | app/components/lights-out/component.js:140-144 | once every light is off, the board is the one the constructor builds |
| `Board.FloorScaled` | app/components/lights-out/component.js:156-157 | `Math.floor(size * r)` for `0 <= r < 1` is an index in `[0, size)` |
| `Board.PickMove` | app/components/lights-out/component.js:156-159 | each random pair picks a cell on the board |
| `Board.PickMoves` | app/components/lights-out/component.js:155-159 | one in-bounds toggle per random pair |
| `LightsOut.LightsOutComponent.CreatePuzzle` | app/components/lights-out/component.js:150-161 | exactly `5 + numGamesWon` toggles, at the picked cells, applied in order to the current board; counters unchanged |
| `LightsOut.LightsOutComponent.StartGame` | app/components/lights-out/component.js:138-147 | `numMoves` is 0, `numGamesWon` unchanged; the board is the all-off board after the picked toggles; replaying those toggles in any order solves it |
| `LightsOut.LightsOutComponent.OnButtonClick` | app/components/lights-out/component.js:310-331 | on a solved board nothing changes; otherwise the board is toggled at row `y`, column `x`; then `numGamesWon` grows by one (and the restart is scheduled) if the board is now solved, else `numMoves` grows by one |

## Left out

- Rendering and sizing (`setContainerSize`, `boardMargin`, `buttonStrokeWidth`, `boardSize`, `buttonSize`, `scaleX`, `scaleY`, `drawGame`, `createContainer`, `createGradients`, `createButtons`): they manipulate the page through the D3 libraries, which are not part of this model. The calls to `drawGame` in `startGame` and to `createButtons` in `onButtonClick` are left out for the same reason.
- `Math.random()`: the model takes its values as the input `draws`, a sequence of pairs of reals in `[0, 1)`. `StartGame` and `CreatePuzzle` require exactly `5 + numGamesWon` pairs, one per toggle.
- The 1500 ms timer (`later`): `OnButtonClick` reports with `restartScheduled` that the restart was scheduled. The restart itself is a separate `StartGame` call. Only the timing is left out. Clicks between the win and the restart are covered: the board is solved then, and `OnButtonClick` changes nothing.
- Ember reactivity (`@tracked`, `set`) and `ember-copy`: buttons are values, not shared objects. The deep copy in `toggleLights` becomes a copy of a value. The in-place `set` in `startGame` becomes an update of the `buttons` field. Aliasing between button objects is not modelled.
- LightsOut.LightsOutComponent.constructor: does not constrain `numMoves`. `numMoves` is undefined until the first `startGame`, and the model leaves it unspecified. No click can increment it before then: the constructor's board is solved, so `OnButtonClick` changes nothing on it.
- FloorScaled: takes the floor of the exact real product `size * r`, while JavaScript floors the product rounded to a double. At a few values the two differ: for `r = 5404319552844595 / 2^53` (the double closest to 0.6), JavaScript rounds `5 * r` to 3 and picks 3, and the model picks 2. Both results lie in `[0, size)`, so every proved property holds for both; the model does not say which cell JavaScript picks at such values.
- JavaScript numbers: `numMoves` and `numGamesWon` are unbounded `nat`s; the loss of precision above 2^53 is not modelled.
- `numButtons` is a constant 5 × 5, as the component never changes it. The lemmas of `Board` hold for any board size.
- OnButtonClick: requires the clicked coordinates to lie on the board, because clicks only come from the rendered buttons, which carry the board's own positions.
- tests/integration/components/lights-out/component-test.js: only renders the component and asserts nothing about the game logic, so there is nothing in it to model.
