# A verified model of the board game engine of `testenv/board.h`

The engine runs a two-player game on a 6 x 6 board. There are twelve anonymous
pieces, four each of sizes ONE, TWO and THREE. During setup each player places
two pieces of each size on their home line: line 0 for SOUTH_P, line 5 for
NORTH_P.

Then the players take turns. On each turn a player:

- picks a piece from their closest occupied line;
- moves it as many steps as its size, each step to a compass neighbour;
- may bounce off a piece reached with the last unit, or swap with it;
- wins by entering the opponent's goal with the last unit.

Every mutating call returns OK, EMPTY, FORBIDDEN or PARAM, and the interface
documentation fixes the order in which the errors are checked.

The project has six modules, one per file:

- `types.dfy`, module `Types`: the enumerations of the interface (`Size`,
  `Player`, `Direction`, `ReturnCode`), the constants `DIMENSION` and
  `NB_INITIAL_PIECES`, and `next_player`.
- `board.dfy`, module `Board`: the value of one game (`State`) and every
  read-only query of the interface, as functions of a `State`.
  - The grid is a flat sequence of 36 squares, with square (line, column) at
    index `line * 6 + column`.
  - Each player has a `Stock` of pieces still to place.
  - The piece in hand is a `Hand`. It records the mover, the size, the origin
    square, the current square and the units left. It also keeps the trail of
    earlier stops, which `cancel_step` and the no-reuse-of-a-segment rule need.
- `rules.dfy`, module `Rules`: each mutating operation as a transition function
  from a `State` to an `Outcome` (a return code and the next state). Its
  contract states the error order, that nothing changes on failure, and the
  effect on success. The effects on the board, the piece in hand and the
  stocks are stated through the interface's own queries. The turn, the
  scored piece and the stocks themselves, which no query reports in full, are
  stated as fields of the `State`.
- `invariants.dfy`, module `Invariants`: the invariant of every reachable game.
  - Four pieces of each size exist, on the board, in hand, in a goal or still
    to be placed.
  - Stocks are bounded.
  - The piece in hand is well formed.
  - A won game is terminal.

  The module also proves that every operation keeps the invariant, and proves
  the laws of winning, turns, undo and the segment rule.
- `game.dfy`, module `Engine`: class `Game`, the mutable handle of the
  interface. It holds an `array` of 36 squares and fields for the stocks, turn,
  winner, scored piece and hand. Each method updates them in place and is
  proved to perform exactly the transition of module `Rules` and to keep the
  invariant. `Copy` is `copy_game`: a fresh array and equal contents.
- `scenarios.dfy`, module `Scenarios`: the scenarios of `testenv/assertions.c`
  replayed on the model.
  - `helper_fill_setup` drives a `Game` object.
  - The game-phase scenarios are lemmas about the transition functions,
    applied to explicit positions.

## Decisions where the interface is silent or the tests disagree

The interface documentation is followed wherever it and the tests disagree.

- **Movement left after landing on a piece.** `movement_left` is 0 when the
  last unit lands on an occupied square (board.h:298-299). The bounce happens
  on the next `move_piece` (board.h:404-405), with the units of the piece
  underneath. The tests expect 2 after such a landing (assertions.c:326) and 1
  (assertions.c:400). `Invariants.MovementLeftZeroOnPiece`,
  `Scenarios.ObstructionAndBounce` and `Scenarios.ComplexChainBounce` state
  the documented behaviour.
- **Swap with nothing in hand.** `swap_piece` then returns EMPTY
  (board.h:431-432). assertions.c:202 expects FORBIDDEN. See
  `Scenarios.SwapLogic`.
- **Picking an empty square on a line that is not the closest.** EMPTY comes
  before the line rule's FORBIDDEN (board.h:369-371). assertions.c:440 expects
  FORBIDDEN for line 4. See `Scenarios.EmptyLineSelection`.
- **Who moves first.** The turn is `NO_PLAYER` until the first movement ends,
  and either player may make the first pick.
  - A pick does not change the turn.
  - A movement that puts its piece down, a swap or a goal hands the turn to
    `NextPlayer` of the mover.
  - Cancelling never changes the turn.
  - A pick by the player who is not due is FORBIDDEN, as is a pick while a
    piece is already in hand. These checks come after EMPTY, in the same place
    as the line rule.
- **"Already made a move along this line"** (board.h:390-391). This is read as:
  a segment between two adjacent squares may be used at most once per
  movement, in either direction. The immediate U-turn is one such reuse
  (`Invariants.NoUTurn`). `Invariants.SegmentNeverReused` states the rule
  over a whole movement.
- **"Piece that can move"** (board.h:226-227). This is read as any piece on the
  board. The piece in hand is not on the board, as `get_piece_size` documents.
- **Budget.** A step needs at least one unit. The last unit may land on an
  occupied square, where the piece stays in hand with 0 units left. GOAL must
  be entered with the last unit, from line 5 for SOUTH_P or line 0 for
  NORTH_P.
- **A won game.** The piece that entered the goal is kept in `State.scored`,
  so that piece conservation still counts it.
- **`next_player(NO_PLAYER)`** is `NO_PLAYER`. The header leaves this value
  open.

## Model

| member | source | states |
|---|---|---|
| Types.Units | testenv/board.h:56-62 | a piece of a real size moves 1 to 3 units; NONE gives none |
| Types.NextPlayer | testenv/board.h:142-151 | the next player of SOUTH_P or NORTH_P is the other of the two |
| Types.NextPlayerInvolutive | testenv/board.h:142-151 | applying next_player twice gives back the player |
| Board.IndexInjective | testenv/board.h:78-84 | distinct squares of the board are distinct cells of the grid |
| Board.Stock.Take | testenv/board.h:337-339 | placing a piece of one size lowers that size's count by one and leaves the others unchanged |
| Board.Initial | testenv/board.h:173-176 | new_game: every square empty, two pieces of each size to place for each player, no winner, nothing in hand |
| Board.GetPieceSize | testenv/board.h:197-210 | a position off the board reads as NONE |
| Board.NbPiecesAvailable | testenv/board.h:315-327 | -1 exactly for an invalid size or player, and 0 for every valid pair once setup is over |
| Board.SouthmostFrom | testenv/board.h:223-233 | the first occupied line at or north of a line, or -1 exactly when none of those lines is occupied |
| Board.NorthmostFrom | testenv/board.h:235-245 | the last occupied line at or south of a line, or -1 exactly when none of those lines is occupied |
| Board.SouthmostOccupiedLine | testenv/board.h:223-233 | the smallest occupied line, and -1 exactly when the board is empty |
| Board.NorthmostOccupiedLine | testenv/board.h:235-245 | the largest occupied line, and -1 exactly when the board is empty |
| Board.PickedPieceOwner | testenv/board.h:248-257 | NO_PLAYER when no piece is in hand |
| Board.PickedPieceSize | testenv/board.h:259-269 | NONE when no piece is in hand |
| Board.PickedPieceLine | testenv/board.h:271-280 | -1 when no piece is in hand |
| Board.PickedPieceColumn | testenv/board.h:282-291 | -1 when no piece is in hand |
| Board.MovementLeft | testenv/board.h:293-305 | -1 exactly when no piece is in hand |
| Rules.NeighbourOpposite | testenv/board.h:129-135 | a compass step always leaves its square, and a step in the opposite direction leads back to the square it came from |
| Rules.Place | testenv/board.h:329-347 | PARAM, then EMPTY, then FORBIDDEN, each exactly when its condition holds; no change unless OK. On OK the piece is on its square of the player's home line, no other square changes, and that player's count for that size drops by one while the other counts stay |
| Rules.Pick | testenv/board.h:357-380 | FORBIDDEN during setup or after a win; then PARAM; then EMPTY; then FORBIDDEN unless the line is the player's closest occupied line (and the player is due, with nothing in hand). On OK the piece leaves the board, nothing else on the board changes, and the queries report its owner, size, square and units equal to its size |
| Rules.IsMovePossible | testenv/board.h:382-397 | false with nothing in hand; GOAL exactly on the mover's goal line with the last unit; a compass step exactly when the target is on the board, is empty or is reached with the last unit, and its segment has not been used in this movement |
| Rules.Move | testenv/board.h:400-420 | EMPTY with nothing in hand, then PARAM off the board; OK exactly when the move is possible; no change unless OK. GOAL sets the winner and the scored piece, leaves the board and the stocks unchanged and passes the turn. A step onto a piece keeps it in hand there with 0 units. A step onto an empty square spends a unit, or puts the piece down with its last unit and passes the turn |
| Rules.Swap | testenv/board.h:422-440 | EMPTY unless the piece in hand stands on another with 0 units, then PARAM off the board, then FORBIDDEN on an occupied target; no change unless OK. On OK the moving piece takes the landing square, the displaced piece the target, no other square changes, nothing is in hand and the turn passes |
| Rules.CancelMovement | testenv/board.h:442-454 | EMPTY with nothing in hand, otherwise OK; the piece is back on its origin, no other square changes, nothing is in hand, and the turn and stocks are unchanged |
| Rules.CancelStep | testenv/board.h:456-469 | EMPTY with nothing in hand; right after the pick it is cancel_movement; otherwise the piece is back at its previous square with the units it then had, the board unchanged |
| Invariants.InitialValid | testenv/board.h:40-50 | a new game satisfies the invariant: four pieces of each size, stocks of at most two |
| Invariants.PlaceKeepsInv | testenv/board.h:44-50 | place_piece keeps the invariant: a placed piece moves from the stock to the board |
| Invariants.PickKeepsInv | testenv/board.h:52-55 | pick_piece keeps the invariant: the picked piece moves from the board to the hand |
| Invariants.MoveKeepsInv | testenv/board.h:56-66 | move_piece keeps the invariant: steps move the piece in hand, a landing puts it on the board, a goal keeps it as the scored piece |
| Invariants.SwapKeepsInv | testenv/board.h:68-74 | swap_piece keeps the invariant: both pieces are on the board afterwards |
| Invariants.CancelMovementKeepsInv | testenv/board.h:442-454 | cancel_movement keeps the invariant |
| Invariants.CancelStepKeepsInv | testenv/board.h:456-469 | cancel_step keeps the invariant |
| Invariants.ApplyKeepsInv | testenv/board.h:40-50 | every mutating call keeps the invariant |
| Invariants.ReplayKeepsInv | testenv/board.h:40-50 | any sequence of mutating calls keeps the invariant |
| Invariants.PiecesConserved | testenv/board.h:40-50 | after any sequence of calls since new_game, the invariant holds and there are four pieces of each size |
| Invariants.WinIsFinal | testenv/board.h:212-221 | once there is a winner every call fails and changes nothing, and pick_piece returns FORBIDDEN |
| Invariants.WinIsPermanent | testenv/board.h:212-221 | once there is a winner no sequence of calls changes the game |
| Invariants.TurnPasses | testenv/board.h:52-55 | after a move or swap that ends the movement, the turn is the other player's and the mover cannot pick |
| Invariants.MovementLeftZeroOnPiece | testenv/board.h:293-305 | movement_left is 0 exactly when the piece in hand stands on another piece |
| Invariants.CancelUndoesPick | testenv/board.h:442-454 | cancel_movement right after a successful pick restores the state before the pick |
| Invariants.CancelStepUndoesMove | testenv/board.h:456-469 | cancel_step right after a step that keeps the piece in hand restores the state before the step |
| Invariants.WalkKeepsBoard | testenv/board.h:400-420 | steps that keep the piece in hand change neither the board, the stocks, the turn nor the winner |
| Invariants.CancelMovementUndoesWalk | testenv/board.h:442-454 | after a pick and any steps that keep the piece in hand, cancel_movement restores the state before the pick |
| Invariants.CancelStepsUndoWalk | testenv/board.h:456-469 | one cancel_step per step taken, while the piece stays in hand, restores the state before the steps |
| Invariants.NoUTurn | testenv/board.h:390-391 | right after a step, stepping straight back is neither possible nor accepted |
| Invariants.StepAddsSegment | testenv/board.h:390-391 | a step that keeps the piece in hand adds to the segments the movement has used exactly the one it went along, and forgets none |
| Invariants.WalkSegments | testenv/board.h:390-391 | along any walk that keeps the piece in hand, the segments used are exactly those used before the walk and those between consecutive squares of the walk |
| Invariants.WalkedSegmentRefused | testenv/board.h:382-397 | after any such walk, a step along a segment the walk went along is not possible, and move_piece refuses it with FORBIDDEN |
| Invariants.SegmentNeverReused | testenv/board.h:382-397 | after a pick and any walk keeping the piece in hand, the segment rule refuses a step exactly when it retraces a segment of the walk |
| Invariants.GoalFromOpponentHome | testenv/board.h:385-387 | in every reachable game GOAL is possible exactly on the opponent's home line, the line farthest from the mover's own, with the last unit |
| Engine.Game.constructor | testenv/board.h:173-176 | new_game: a fresh grid holding the initial game, which satisfies the invariant |
| Engine.Game.Copy | testenv/board.h:178-183 | copy_game: a fresh grid, so the copy is independent, holding the same game |
| Engine.Game.PlacePiece | testenv/board.h:329-347 | updates the game in place exactly as Rules.Place, keeping the invariant |
| Engine.Game.PickPiece | testenv/board.h:357-380 | updates the game in place exactly as Rules.Pick, keeping the invariant |
| Engine.Game.MovePiece | testenv/board.h:400-420 | updates the game in place exactly as Rules.Move, keeping the invariant |
| Engine.Game.SwapPiece | testenv/board.h:422-440 | updates the game in place exactly as Rules.Swap, keeping the invariant |
| Engine.Game.CancelMovement | testenv/board.h:442-454 | updates the game in place exactly as Rules.CancelMovement, keeping the invariant |
| Engine.Game.CancelStep | testenv/board.h:456-469 | updates the game in place exactly as Rules.CancelStep, keeping the invariant |
| Scenarios.SetupStep | testenv/assertions.c:456-471 | each placement of helper_fill_setup succeeds and reaches the next position of the setup |
| Scenarios.PlaceStandard | testenv/assertions.c:456-471 | one placement of helper_fill_setup on a Game object |
| Scenarios.FillSetup | testenv/assertions.c:456-471 | helper_fill_setup turns a new game into the standard position, ready to play |
| Scenarios.StructureBasics | testenv/assertions.c:77-87 | next_player alternates SOUTH_P and NORTH_P; a new game has no winner |
| Scenarios.SetupLimits | testenv/assertions.c:91-110 | bad columns give PARAM, a third piece of a size FORBIDDEN, an occupied square EMPTY; none changes the game |
| Scenarios.Robustness | testenv/assertions.c:248-265 | moving before setup gives EMPTY, picking during setup FORBIDDEN and changes nothing, off-board coordinates PARAM |
| Scenarios.RobustnessNorth | testenv/assertions.c:255-259 | after SOUTH_P's first placement, helper_setup_game's six NORTH_P placements fill NORTH_P's home line |
| Scenarios.RobustnessSouth | testenv/assertions.c:67-72 | helper_setup_game's SOUTH_P placement on the occupied (0,0) gives EMPTY and changes nothing; the other five reach the standard setup |
| Scenarios.SetupGameNorth | testenv/assertions.c:60-65 | helper_setup_game's NORTH_P placements, made first, fill NORTH_P's home line (also test_complex_chain_bounce, assertions.c:291-296) |
| Scenarios.SetupGameSouth | testenv/assertions.c:67-72 | helper_setup_game's SOUTH_P placements then reach the standard setup, the one helper_fill_setup reaches |
| Scenarios.OneRoundEach | testenv/assertions.c:157-162 | each player moves a piece of size 1 one square forward, which ends their turn |
| Scenarios.ClosestLineFirst | testenv/assertions.c:114-143 | with pieces on lines 0 and 1, SOUTH_P may pick only from line 0 (also test_pick_priority_complex, assertions.c:627-649) |
| Scenarios.Backtracking | testenv/assertions.c:552-590 | no pick from line 1, nothing to move or cancel, SOUTH off the board is PARAM, and stepping back along the last segment is FORBIDDEN |
| Scenarios.SouthSecondMoveReached | testenv/assertions.c:164-167 | a piece of size 2 spends one unit per step and is put down with its last unit |
| Scenarios.SecondRoundReached | testenv/assertions.c:169-171 | NORTH_P's move hands the turn back to SOUTH_P |
| Scenarios.MovementBounce | testenv/assertions.c:178-184 | a piece of size 3 starts with 3 units and has 2 after one step |
| Scenarios.StepOntoNeighbour | testenv/assertions.c:536-541 | a piece of size 1 stepping onto its neighbour stays in hand on top of it |
| Scenarios.SwapLogic | testenv/assertions.c:191-218 | with nothing in hand, swap and move give EMPTY; a swap target off the board gives PARAM |
| Scenarios.SwapEjects | testenv/board.h:68-74 | a swap puts the moving piece on the landing square and the displaced piece on the target, and passes the turn |
| Scenarios.ObstructionAndBounce | testenv/assertions.c:521-548 | a landing on a piece leaves 0 units; the bounce continues with the units of the piece underneath |
| Scenarios.ChainSouthSetup | testenv/assertions.c:298-310 | SOUTH_P's setup ONE, TWO, ONE, TWO, THREE, THREE succeeds; a pick before its last two placements gives FORBIDDEN and changes nothing |
| Scenarios.ChainStepOnto | testenv/assertions.c:312-316 | the piece of size 1 on (0,0) is picked and steps EAST onto the piece of size 2 on (0,1), staying in hand on top of it |
| Scenarios.ChainBounceUp | testenv/assertions.c:329-331 | the bounce's first step NORTH, with the two units of the piece underneath, leaves one unit |
| Scenarios.ChainLanding | testenv/assertions.c:333-340 | the second step NORTH puts the piece down on (2,1) and passes the turn |
| Scenarios.ComplexChainBounce | testenv/assertions.c:312-340 | on (0,1) the piece is SOUTH_P's with 0 units left, then 1 after a step; after the landing nothing is in hand, (0,0) is empty, (0,1) still holds TWO and (2,1) holds ONE |
| Scenarios.GoalFromHomeLine | testenv/assertions.c:594-623 | a piece on its home line cannot enter a goal; cancelling restores the setup (also test_victory_edge_cases, assertions.c:222-244) |
| Scenarios.EmptyLineSelection | testenv/assertions.c:429-454 | picking an empty square of line 4 gives EMPTY; NORTH_P may pick from line 5 |
| Scenarios.BoundariesCorners | testenv/assertions.c:475-517 | from a corner the walls block the two outward directions, and moving through them gives PARAM |
| Scenarios.AllDirections | testenv/assertions.c:653-672 | a piece of size 2 on SOUTH_P's home line may step NORTH only: not onto its neighbours with units to spare, not off the board, not into a goal |
| Scenarios.AllDirectionsNorth | testenv/assertions.c:674-686 | after SOUTH_P's first move, NORTH_P's piece of size 2 on its home line may step SOUTH but not NORTH |
| Scenarios.CopyIsIndependent | testenv/board.h:178-183 | a placement on a copy starts from the original's game and leaves the original unchanged |

## Left out

- routes/index.js is an HTTP handler that stores an upload and runs the build. It is I/O and process control, outside this model.
- No implementation of the interface exists in the repository. The model follows the interface documentation in testenv/board.h.
- The expectations of testenv/assertions.c that contradict that documentation are not encoded. They are at assertions.c:202, 326, 400 and 440; the decisions above list them.
- test_swap_integrity (assertions.c:372-423) is not replayed, because its expectations contradict its own comments.
- The scenarios that begin with helper_setup_game start from the standard setup. Scenarios.SetupGameNorth and Scenarios.SetupGameSouth show that helper_setup_game reaches that setup, but on a `State`, not by driving a `Game` object as Scenarios.FillSetup does.
- The ASSERT/CATPASS macros, the counters, the colours, main and print_full_board_state of assertions.c are presentation only.
- destroy_game and the memory of a board: allocation and reclamation are Dafny's.
- The opaque pointer type is left out: a `Game` object stands for the handle.
- The values of the C enumerations outside their named constants cannot be passed to the model. Those out-of-range sizes, players and directions are left out; the PARAM checks cover the ones that can be expressed (NONE as a piece, NO_PLAYER as a player, off-board coordinates).
- The queries (get_piece_size, get_winner, southmost_occupied_line, northmost_occupied_line, picked_piece_*, movement_left, nb_pieces_available, is_move_possible) are functions of a `State`, applied to `Game.Model()`, rather than members of the class.
- Board.GetWinner has no contract of its own: it returns the recorded winner. Invariants.WinIsFinal and Invariants.WinIsPermanent state its properties.
