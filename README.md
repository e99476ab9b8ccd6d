# Dots and boxes: the game-state engine

This project models the game-state engine of a two-player dots-and-boxes game
in Dafny and proves properties of it. The game is played on a 10 × 10 grid of
dots. Players `X` and `O` take turns drawing a line between two tapped dots.
A player who completes the fourth side of a box owns it, scores a point and
moves again. The engine is a set of globals: `lines`, `boxes`, `scores`,
`player`, `history` and `selected_dot`. Three pieces of code update them:

- `check_box`
- `undo`
- the placement block of the event loop

The model has five parts:

- `Geometry` (geometry.dfy): dots, lines, boxes and their sides. A dot is named
  by its column and row, not its pixel position. `PixelOrder` proves the two
  are ordered and compared alike, so `min`/`max` on pixel tuples is `Canon`
  on indices.
- `GameState` (game.dfy): the globals as one value, `Game`. The three
  transitions are pure functions of it: `CheckBox`, `Place` with its loop
  `CheckAll`, and `Undo`. `PlayAll` and `UndoTimes` sequence them.
- `Invariants` (invariants.dfy): what every reachable state satisfies, and
  proofs that each transition keeps it.
  - `lines` mirrors `history`.
  - No line is drawn twice.
  - The owned boxes are exactly the complete boxes in range.
  - Each owned box belongs to whoever drew its latest side.
  - Each score is the number of boxes its player owns.
- `Laws` (laws.dfy): what a player can rely on:
  - when a line is accepted;
  - who keeps the turn;
  - that tap order does not matter;
  - that undo takes back a placement exactly, and any run of placements.
- `Engine` (engine.dfy): the globals as the fields of a class, `Board`.
  `check_box`, `undo`, the placement block and the tap handling are methods
  that update the fields in place, with the source's loops.
  - The top-level operations are `Place`, `Undo`, `Tap` and the constructor.
    Each is proved to move the board from `State()` to the state the matching
    `GameState` function gives, and to keep the invariants (`Valid()`).
  - `CheckBox`, `CheckAround` and `DeleteBoxes` are inner steps and do not
    mention `Valid()`. `CheckBox` is proved against `GameState.CheckBox`, and
    `CheckAround` against `GameState.CheckAll` and its closed form. `DeleteBoxes`
    has no `GameState` counterpart; its contract states its whole new state.

Where the code and the written description of the game differ, the model
follows the code:

- Placement does not check that the two dots are neighbours. A diagonal line,
  a longer line or a dot joined to itself is accepted, stays in `lines` and
  passes the turn. It can never be a side of a box (`NonUnitLinePassesTurn`).
- The placement loop checks the four boxes around the second dot, not the two
  boxes beside the line. `ClaimedAreCompletedByLine` proves this claims
  exactly the boxes the line completes.
- `undo` takes the points from the owner of the popped line, not from each
  box's owner. `UnclaimedOwnedByLineOwner` proves the two are always the same
  player.

## Model

| member | source | states |
|---|---|---|
| Geometry.Canon | dots.py:133 | The line of two tapped dots has its smaller endpoint first and joins exactly those two dots. |
| Geometry.CanonSymmetric | dots.py:133 | Tapping two dots in either order gives the same line. |
| Geometry.PixelOrder | dots.py:27 | With a positive dot spacing, Python's order and equality on pixel positions coincide with lexicographic order and equality on (column, row). |
| Geometry.PixelOrderReversed | dots.py:11 | With a negative dot spacing, pixel positions stay distinct but Python's order on them is the reverse of (column, row) order. |
| Geometry.Neighbours | dots.py:139 | The four boxes the loop checks all have the tapped dot as a corner, and they are pairwise distinct. |
| Geometry.SidesAreCanonical | dots.py:73-76 | Every side check_box builds is already in min-first form, and it joins grid neighbours. |
| Geometry.SideIsNeighbour | dots.py:133-141 | A line from a to s that is a side of a box has that box among the four boxes around s. |
| GameState.Other | dots.py:107 | The turn switch always gives the other player. |
| GameState.CheckBox | dots.py:68-85 | check_box claims the box exactly when it is unowned and all four sides are drawn. It changes neither lines, history, turn nor the players' keys. |
| GameState.CheckNext | dots.py:139-142 | One pass of the loop reports a claim exactly when an earlier pass did, or this box is in range, unowned and complete. |
| GameState.CheckAll | dots.py:138-142 | The placement loop changes neither lines, history, turn nor the players' keys. What it claims is stated by Invariants.CheckAllClaims. |
| GameState.Place | dots.py:130-147 | Placement keeps the set of players with a score. Its effect is stated by Laws.PlaceAcceptance, Laws.PlaceTurn and Invariants.PlacePreservesInv. |
| GameState.Undo | dots.py:87-107 | Undo keeps the set of players with a score. Its effect is stated by Laws.PlaceThenUndo and Invariants.UndoPreservesInv. |
| GameState.PlayAll | dots.py:127-147 | Any sequence of placements keeps the set of players with a score. |
| GameState.UndoTimes | dots.py:124-125 | Any number of undo presses keeps the set of players with a score. |
| Invariants.InitialInv | dots.py:27-33 | The initial globals satisfy every invariant. |
| Invariants.OneOwnerPerLine | dots.py:134-136 | In a state satisfying the invariants, no line is in `lines` under both players. |
| Invariants.ScoresSumToBoxes | dots.py:82-83 | Scores are never negative, and together they count every owned box. |
| Invariants.UndrawnSide | dots.py:78-81 | A box with an undrawn side is not complete. |
| Invariants.AddLineCompletes | dots.py:135-142 | Adding a line keeps complete boxes complete. A box it newly completes has that line as a side. |
| Invariants.RemoveLineCompletes | dots.py:93-100 | Removing a line never completes a box. A box that does not have that line as a side stays complete or incomplete as before. |
| Invariants.ClaimedAreCompletedByLine | dots.py:139-142 | The loop claims exactly the boxes in range that have the new line as a side and are now complete. Checking only the four boxes around the second dot misses none. |
| Invariants.CheckAllClaims | dots.py:138-142 | check_box run over distinct boxes claims exactly the in-range, unowned, complete ones for the mover. It adds their number to the mover's score, and reports a claim iff there was one. |
| Invariants.PlaceKeepsHistory | dots.py:135-136 | After a placement, `lines` still holds exactly the moves of `history`, and no line occurs twice. |
| Invariants.PlaceKeepsBoxesComplete | dots.py:139-142 | After a placement, the owned boxes are still exactly the complete boxes in range. |
| Invariants.PlaceKeepsOwners | dots.py:82 | After a placement, each owned box still belongs to whoever drew its latest side. |
| Invariants.ClaimKeepsScores | dots.py:82-83 | Claiming unowned boxes for the mover and raising the mover's score by their number keeps each score equal to the player's box count. |
| Invariants.PlaceKeepsScores | dots.py:83 | After a placement, each score is still the number of boxes its player owns. |
| Invariants.PlacePreservesInv | dots.py:130-147 | Every placement, accepted or rejected, keeps all the invariants. |
| Invariants.UndoErasesLine | dots.py:91-93 | After undo, the popped line is drawn by nobody. |
| Invariants.UndoKeepsHistory | dots.py:91-93 | Undo keeps `lines` equal to the moves of `history`. |
| Invariants.UndoKeepsBoxesComplete | dots.py:95-104 | After undo, the owned boxes are still exactly the complete boxes in range. |
| Invariants.UnclaimedOwnedByLineOwner | dots.py:95-104 | Every box undo deletes is owned by the player who drew the popped line. Taking the points from the line's owner is therefore taking them from the box's owner. |
| Invariants.UndoKeepsOwners | dots.py:95-104 | After undo, each remaining box still belongs to whoever drew its latest side. |
| Invariants.UndoKeepsScores | dots.py:102-104 | After undo, each score is still the number of boxes its player owns. |
| Invariants.UndoPreservesInv | dots.py:87-107 | Every undo keeps all the invariants. |
| Laws.PlaceAcceptance | dots.py:133-136 | A placement is accepted exactly when its line is drawn by nobody. An accepted one appends the move to `lines` and `history`; a rejected one changes nothing. |
| Laws.CheckBoxIdempotent | dots.py:68-85 | Calling check_box again on the same box claims nothing and changes nothing. |
| Laws.PlaceTwiceRejected | dots.py:134 | Placing the same line again, from either end, is rejected. |
| Laws.PlaceOrderIrrelevant | dots.py:130-147 | Tapping the two dots in either order has the same outcome, including the boxes claimed. |
| Laws.PlaceTurn | dots.py:138-145 | After an accepted placement the mover keeps the turn iff the number of owned boxes grew. The mover's score grows by exactly that number. |
| Laws.NonUnitLinePassesTurn | dots.py:133-145 | A line between dots that are not grid neighbours claims nothing and passes the turn. |
| Laws.UndoUnclaimsPlaced | dots.py:95-100 | The boxes undo deletes after a placement are exactly the boxes that placement claimed. |
| Laws.UndoAfterClaim | dots.py:87-107 | If undo deletes exactly the boxes a move claimed, it restores the state before the move. That holds whether the move kept or passed the turn. |
| Laws.PlaceThenUndo | dots.py:87-107 | Undo right after an accepted placement restores lines, boxes, scores, turn and history. |
| Laws.PlaceStep | dots.py:130-147 | An accepted placement adds exactly one move to history, and undo takes it back. A rejected one leaves the state unchanged. |
| Laws.UndoUnwindsPlay | dots.py:87-147 | From any state satisfying the invariants, after any sequence of taps, one undo per accepted placement gives back the starting state. |
| Laws.UndoEmpty | dots.py:90 | Undo with an empty history changes nothing. |
| Engine.Board.constructor | dots.py:27-33 | The board starts as the program's globals do and satisfies the invariants. |
| Engine.Board.CheckBox | dots.py:68-85 | The in-place check_box gives the state of GameState.CheckBox. It claims iff the box was unowned and complete. |
| Engine.Board.CheckAround | dots.py:138-142 | The in-place loop gives the state of CheckAll. That is the old state with the claimable boxes around the dot added for the mover, the mover's score raised by their number, and `box_completed` set iff there was one. |
| Engine.Board.Place | dots.py:130-147 | The in-place placement gives the state and acceptance of GameState.Place, and keeps the invariants. |
| Engine.Board.DeleteBoxes | dots.py:102-104 | The deletion loop removes exactly the given boxes and lowers the owner's score by their number. Nothing else changes. |
| Engine.Board.Undo | dots.py:87-107 | The in-place undo gives the state of GameState.Undo and keeps the invariants. |
| Engine.Board.Tap | dots.py:129-147 | A first tap selects the dot and changes nothing else. A second tap performs the placement from the selected dot and clears the selection. |

## Left out

- The display and drawing code (pygame setup, drawing dots, lines, boxes and the score, colours and fonts, the undo button's look) is not modelled. It only reads the state.
- The event loop's polling, quit handling, and conversion of touch coordinates to pixels are not modelled. They are I/O. A tap reaches the model as the dot it hit, or as a call to `Undo`.
- Hit-testing of a tap against the dots is not modelled. When a tap lies within reach of several dots, the source runs the selection code once for each of them in row-major order. The model covers that as successive `Tap` calls.
- `Geometry.PixelOrder` assumes a positive dot spacing (`DOT_SPACING`, dots.py:11), which the model relies on throughout. A screen too narrow for that is not modelled. Two cases are excluded:
  - Zero spacing (a width of 20 to 28 pixels): all dots share one pixel position, so the source treats every line as the same line and the index model does not.
  - Negative spacing (a width below 20, where floor division goes below zero): the dots stay distinct, but pixel order is the reverse of index order (`Geometry.PixelOrderReversed`). `min`/`max` then puts the larger-index dot first while `check_box` builds its sides smaller-index first, so no placed line matches a side and no box is ever completed.
- GameState.Undo: removing the popped move from `lines` cannot fail here, whereas the source would raise KeyError if the move were missing. In every state satisfying the invariants the move is present (`LinesMirrorHistory`).
- The order in which undo deletes boxes (the dictionary's insertion order) is not modelled. `DeleteBoxes` deletes them in an unspecified order, and the result does not depend on it.
