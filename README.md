# Backgammon board rules

A model of the rules engine of a two-player backgammon game: the `Board` class
of `src/Board.ts`. The board is 26 checker containers indexed by slot id. Slot 0
is HOME, where borne-off checkers go. Slots 1..24 are the points. Slot 25 is the
BAR, where hit checkers go. Each container keeps one count per player. Black
moves from low point numbers to high ones and bears off above 24. Red moves
from high to low and bears off below 1.

The model has five files:

- `players.dfy` (module `Players`): the two players and the swap that gives the
  opponent.
- `rules.dfy` (module `Rules`): the rules as pure functions over a snapshot of
  the 26 slots (`Position`):
  - `Destination`: where a checker comes to rest.
  - `Legal`: the four ordered checks of a move.
  - `AfterMove`: the position a move leaves behind.
  - `Start`: the opening position.
  - `Total`: a player's checker count over all slots.
- `properties.dfy` (module `Properties`): what those rules promise. Each check
  refuses the moves it should. A move changes only its source, its destination
  and the bar. No checker is ever created or lost.
- `board.dfy` (module `Boards`): the `Board` class. Its `containers` array is
  updated in place by `Increment` and `Decrement`. `IsLegalMove` runs the
  source's two bounded scans as `while` loops and is proved equal to `Legal`.
  `Move` is proved to leave exactly `AfterMove` of the old position. The class
  invariant `Valid()` says every player has 15 checkers, and `Move` keeps it.
- `scenarios.dfy` (module `Scenarios`): the situations exercised by
  `tests/specs.js` (opening moves, a hit, re-entry from the bar) and bear-off
  positions for both players. Red's opening move is played once more on a
  `Board` object.

Bearing off requires Black's points 1..18 and Red's points 24..7 to be empty
(`src/Board.ts:157-163`), so Black's home board is 19..24 and Red's is 1..6.
`Scenarios.BlackBearOff` therefore puts Black's checkers on 19, 20 and 24.

The "more deserving checker" scan keeps the source's exact bounds. It starts
at 18 for Black and at 6 for Red, steps towards the source, and stops before
the source. For Black, point 18 is on the outer board, which has already been
checked. `Properties.ScanCoversFartherHomePoints` proves that, with the outer
board clear, the scan is clear if and only if no home point farther out than
the source holds a checker of the player.

The code does not refuse HOME (slot 0) as a source, and neither does the model:
- A borne-off Black checker can move back onto points 1..6
  (`Properties.BlackMayLeaveHome`).
- A Red "move" from HOME lands on HOME again and changes nothing
  (`Properties.RedHomeToHomeIsIdle`).

## Model

| member | source | states |
|---|---|---|
| `Players.Other` | src/Board.ts:182 | the opponent is never the player itself |
| `Rules.Destination` | src/Board.ts:107-136 | the destination is never the BAR. A checker counts its steps from its source, and the bar counts as point 0 for Black and point 25 for Red. It stops on the point it reaches, or goes HOME when that lies off the board |
| `Properties.EntryFromBar` | src/Board.ts:110-124 | from the bar, Black enters at `pips` and Red at `25 - pips`, always a point 1..24 |
| `Properties.BearingOffIsOvershoot` | src/Board.ts:114-131 | the destination is HOME exactly when the source is not the bar and the step leaves points 1..24 |
| `Properties.NoCheckerNoMove` | src/Board.ts:140-144 | a slot without a checker of the player yields no legal move |
| `Properties.BarFirst` | src/Board.ts:146-150 | while the player has a checker on the bar, every move from another slot is illegal |
| `Properties.BearOffNeedsClearOuterBoard` | src/Board.ts:155-163 | a move to HOME is illegal while the player has a checker on points 1..18 (Black) or 7..24 (Red) |
| `Properties.BearOffRule` | src/Board.ts:165-179 | with the outer board clear, an exact roll (landing on 0 or 25) always bears off. An overshoot is legal if and only if the scan finds no checker of the player |
| `Properties.ScanCoversFartherHomePoints` | src/Board.ts:172-178 | once the outer board is clear, the scan from 18 (Black) or 6 (Red) up to the source, source excluded, is clear if and only if no home point farther out than the source holds a checker of the player |
| `Properties.OvershootMovesFarthestChecker` | src/Board.ts:165-179 | a legal overshooting bear-off moves the player's checker that is farthest out: no point farther out holds one |
| `Properties.BlockedIff` | src/Board.ts:182-190 | if a move away from HOME passes the first two checks, it is legal if and only if the opponent has fewer than two checkers on the destination |
| `Properties.NoEntryToBlockedPoint` | src/Board.ts:184-188 | no source and no die lets a player enter a point held by two or more opposing checkers |
| `Properties.MoverSteps` | src/Board.ts:204-205 | the mover's count drops by one at the source and rises by one at the destination |
| `Properties.HitSendsToBar` | src/Board.ts:199-203 | landing on a lone opposing checker leaves no opponent on the point, puts the mover there, and adds one to the opponent's bar count |
| `Properties.NoHitLeavesOpponent` | src/Board.ts:199-203 | without a hit, every count of the opponent is unchanged |
| `Properties.MoveFrame` | src/Board.ts:193-206 | a move changes no slot other than the source, the destination and the bar |
| `Properties.TotalPut` | src/Board.ts:99-105 | changing one count of a player changes that player's total by the same amount and leaves the other player's total alone |
| `Properties.MoveKeepsTotals` | src/Board.ts:193-206 | a move neither creates nor removes a checker of either player |
| `Properties.MovePreservesConservation` | src/Board.ts:193-206 | from a position where each player has 15 checkers, a legal move leads to one where each still has 15 |
| `Properties.StartingCounts` | src/Board.ts:69-76 | the opening is Red 2@24, 5@13, 3@8, 5@6 and Black 2@1, 5@12, 3@17, 5@19. Every other slot, the bar and HOME included, is empty |
| `Properties.OpeningIsStart` | src/Board.ts:69-76 | the constructor's eight increments, applied to an empty board, give exactly the opening position |
| `Properties.StartIsConserved` | src/Board.ts:69-76 | in the opening each player has exactly 15 checkers |
| `Properties.BlackMayLeaveHome` | src/Board.ts:107-119 | the checks accept HOME as a source: a borne-off Black checker may re-enter at point `pips` |
| `Properties.RedHomeToHomeIsIdle` | src/Board.ts:127-131 | a Red move from HOME resolves to HOME and leaves the position unchanged |
| `Boards.Board.constructor` | src/Board.ts:69-76 | a new board holds the opening position, with 15 checkers per player |
| `Boards.Board.Increment` | src/Board.ts:103-105 | adds `count` checkers of the player to one slot (one when the count is omitted) and changes nothing else |
| `Boards.Board.Decrement` | src/Board.ts:99-101 | removes one checker of the player from one slot and changes nothing else |
| `Boards.Board.IsLegalMove` | src/Board.ts:138-191 | the two loops (outer-board scan, then the farther-checker scan) return exactly `Legal` of the current position |
| `Boards.Board.Move` | src/Board.ts:193-207 | returns whether the move was legal. An illegal move changes nothing. A legal one leaves exactly `AfterMove` of the old position, and 15 checkers per player remain |
| `Scenarios.RedOpeningMoves` | tests/specs.js:16-29 | in the opening, Red 24 by 6 is legal, 24 by 5 is blocked, and 23 by 1 has no checker |
| `Scenarios.BlackOpeningMoves` | tests/specs.js:31-43 | in the opening, Black 1 by 6 is legal, 1 by 5 is blocked, and 2 by 1 has no checker |
| `Scenarios.RedMovesFrom24` | tests/specs.js:45-54 | Red 24 by 6 leaves one Red checker on 24 and one on 18. The method `Scenarios.RedMovesOnTheBoard` plays the same move on a `Board` object and gets the same counts from the contracts of the constructor and `Move` |
| `Scenarios.BlackMovesFrom17` | tests/specs.js:57-66 | Black 17 by 2 leaves two Black checkers on 17 and six on 19 |
| `Scenarios.RedHitsBlack` | tests/specs.js:69-90 | after Black 17 by 5 and Red 24 by 2, point 22 holds one Red checker and no Black one, and Black has one on the bar. Then 17 by 5 and 17 by 6 are refused, entering by 6 is blocked, and entering by 5 or by 1 is legal. Entering by 1 leaves three Black checkers on point 1 and none on the bar |
| `Scenarios.BlackBearOff` | src/Board.ts:152-179 | Black cannot bear off in the opening. With all its checkers on 19, 20 and 24, exact rolls bear off, and an overshoot bears off only from the farthest point |
| `Scenarios.RedBearOff` | src/Board.ts:152-179 | the same for Red with checkers on 6 and 2. A bear-off adds one Red checker to HOME |

## Left out

- The user-interface wiring: `BoardUI`/`BarUI` callbacks, `createPoint`, and the `onPointInspected`, `onPointSelected`, `onSetCheckers` and `onSetValidDestination` hooks. They only notify the display and take no part in the rules.
- `checkIfValidDestination` and `removeAllHighlights`: they only set display highlight flags on `Point` and `Home`, whose code is not part of this model.
- The `console.info` messages of `isLegalMove`: they are output only.
- The `throw` for an unknown player in `getDestinationPointId`: with a two-valued `Player` it cannot happen.
- `Point`, `Bar`, `Home` and `CheckerContainer` are not part of this model. Each container is one `Checkers` value holding two counts. `Increment` and `Decrement` set one of those counts.
- `Game.getOtherPlayer` is not part of this model. `Players.Other` is the swap of the two players.
- Die values outside 1..6 and slot ids outside 0..25 are excluded by the types `Pips` and `Slot`. The code would index outside its 26 containers for some such values, and such dice are not backgammon rolls.
- Boards.Board.Decrement: requires a checker to remove, since counts are natural numbers. `Move` only decrements a slot that holds a checker.
- Turn order, dice rolling (`Math.random` in `play/js/backgammon.js`) and the dice display of `src/DiceUI.ts`: they are outside the board's rules. The die value is an input.
