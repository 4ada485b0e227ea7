/**
 * The rules of the game as transition functions on Board.State.
 *
 * Each mutating operation of the engine is a function from the state before
 * the call to an Outcome: the return code and the state after. A call that
 * does not return OK leaves the state exactly as it was. The ensures clauses
 * fix the order in which errors are detected and the effect of a success in
 * terms of the accessors of module Board.
 */
module Rules {
  import opened Types
  import opened Board

  datatype Outcome = Outcome(code: ReturnCode, next: State)

  /** The line on which a player places pieces during setup. */
  function HomeLine(p: Player): int {
    if p == SOUTH_P then 0 else DIMENSION - 1
  }

  /** The line from which a player's piece may enter the opponent's goal. */
  function GoalLine(p: Player): int {
    match p
    case SOUTH_P => DIMENSION - 1
    case NORTH_P => 0
    case NO_PLAYER => -1
  }

  /** The line a player must pick from: the occupied line closest to its side. */
  function ClosestLine(s: State, p: Player): int {
    if p == SOUTH_P then SouthmostOccupiedLine(s) else NorthmostOccupiedLine(s)
  }

  /** The square one step away from q in compass direction d. */
  function Neighbour(q: Square, d: Direction): Square
    requires d != GOAL
  {
    match d
    case SOUTH => Square(q.line - 1, q.column)
    case NORTH => Square(q.line + 1, q.column)
    case EAST => Square(q.line, q.column + 1)
    case WEST => Square(q.line, q.column - 1)
  }

  /** A step in the opposite direction leads back to the square a step came from. */
  lemma NeighbourOpposite(q: Square, d: Direction)
    requires d != GOAL
    ensures Neighbour(Neighbour(q, d), Opposite(d)) == q
    ensures Neighbour(q, d) != q
  {
  }

  /** Every square on the board except those in qs reads the same in s and t. */
  ghost predicate BoardAgreesExcept(s: State, t: State, qs: set<Square>) {
    forall l, c :: Square(l, c) !in qs ==> GetPieceSize(t, l, c) == GetPieceSize(s, l, c)
  }

  /** Nothing but the grid differs between s and t. */
  predicate SameButGrid(s: State, t: State) {
    s.south == t.south && s.north == t.north && s.turn == t.turn
    && s.winner == t.winner && s.scored == t.scored
  }

  // ---------------------------------------------------------------------
  // Setup
  // ---------------------------------------------------------------------

  predicate ValidPlacement(piece: Size, player: Player, column: int) {
    piece != NONE && player != NO_PLAYER && 0 <= column < DIMENSION
  }

  /**
   * place_piece: put a piece of the given size on the player's home line.
   * PARAM for invalid arguments, then EMPTY if the square is occupied, then
   * FORBIDDEN if the player has no piece of that size left to place (in
   * particular once setup is over).
   */
  function Place(s: State, piece: Size, player: Player, column: int): (r: Outcome)
    ensures r.code == PARAM <==> !ValidPlacement(piece, player, column)
    ensures r.code == EMPTY <==>
      ValidPlacement(piece, player, column) && GetPieceSize(s, HomeLine(player), column) != NONE
    ensures r.code == FORBIDDEN <==>
      && ValidPlacement(piece, player, column)
      && GetPieceSize(s, HomeLine(player), column) == NONE
      && NbPiecesAvailable(s, piece, player) == 0
    ensures r.code != OK ==> r.next == s
    ensures r.code == OK ==>
      && GetPieceSize(r.next, HomeLine(player), column) == piece
      && BoardAgreesExcept(s, r.next, {Square(HomeLine(player), column)})
      && NbPiecesAvailable(r.next, piece, player) == NbPiecesAvailable(s, piece, player) - 1
      && (forall sz, p :: sz != piece || p != player ==>
            NbPiecesAvailable(r.next, sz, p) == NbPiecesAvailable(s, sz, p))
      && r.next.hand == s.hand && r.next.turn == s.turn
      && r.next.winner == s.winner && r.next.scored == s.scored
  {
    if !ValidPlacement(piece, player, column) then Outcome(PARAM, s)
    else
      var q := Square(HomeLine(player), column);
      if s.cells[Index(q)] != NONE then Outcome(EMPTY, s)
      else if StockOf(s, player).Get(piece) == 0 then Outcome(FORBIDDEN, s)
      else
        var cells := s.cells[Index(q) := piece];
        if player == SOUTH_P then Outcome(OK, s.(cells := cells, south := s.south.Take(piece)))
        else Outcome(OK, s.(cells := cells, north := s.north.Take(piece)))
  }

  // ---------------------------------------------------------------------
  // Picking
  // ---------------------------------------------------------------------

  /** Everything pick_piece checks after the square is known to hold a piece. */
  predicate MayPick(s: State, player: Player, line: int) {
    && s.hand.Idle?
    && (s.turn == NO_PLAYER || s.turn == player)
    && line == ClosestLine(s, player)
  }

  /**
   * pick_piece: take the piece on (line, column) in hand. FORBIDDEN during
   * setup or once there is a winner, then PARAM for a bad player or square,
   * then EMPTY for an empty square, then FORBIDDEN if a piece is already in
   * hand, if it is the other player's turn or if the line is not the
   * player's closest occupied line.
   */
  function Pick(s: State, player: Player, line: int, column: int): (r: Outcome)
    ensures !SetupOver(s) || s.winner != NO_PLAYER ==> r.code == FORBIDDEN
    ensures SetupOver(s) && s.winner == NO_PLAYER && (player == NO_PLAYER || !OnBoard(Square(line, column)))
      ==> r.code == PARAM
    ensures (SetupOver(s) && s.winner == NO_PLAYER && player != NO_PLAYER && OnBoard(Square(line, column))
             && GetPieceSize(s, line, column) == NONE) ==> r.code == EMPTY
    ensures (SetupOver(s) && s.winner == NO_PLAYER && player != NO_PLAYER
             && GetPieceSize(s, line, column) != NONE) ==> r.code == OK || r.code == FORBIDDEN
    ensures r.code == OK <==>
      && SetupOver(s) && s.winner == NO_PLAYER && player != NO_PLAYER
      && GetPieceSize(s, line, column) != NONE
      && MayPick(s, player, line)
    ensures r.code == OK && player == SOUTH_P ==> line == SouthmostOccupiedLine(s)
    ensures r.code == OK && player == NORTH_P ==> line == NorthmostOccupiedLine(s)
    ensures r.code != OK ==> r.next == s
    ensures r.code == OK ==>
      && GetPieceSize(r.next, line, column) == NONE
      && BoardAgreesExcept(s, r.next, {Square(line, column)})
      && PickedPieceOwner(r.next) == player
      && PickedPieceSize(r.next) == GetPieceSize(s, line, column)
      && PickedPieceLine(r.next) == line && PickedPieceColumn(r.next) == column
      && MovementLeft(r.next) == Units(GetPieceSize(s, line, column))
      && SameButGrid(s, r.next)
  {
    var q := Square(line, column);
    if !SetupOver(s) || s.winner != NO_PLAYER then Outcome(FORBIDDEN, s)
    else if player == NO_PLAYER || !OnBoard(q) then Outcome(PARAM, s)
    else if s.cells[Index(q)] == NONE then Outcome(EMPTY, s)
    else if !MayPick(s, player, line) then Outcome(FORBIDDEN, s)
    else
      var sz := s.cells[Index(q)];
      Outcome(OK, s.(cells := s.cells[Index(q) := NONE],
                     hand := Moving(player, sz, q, q, Units(sz), [])))
  }

  // ---------------------------------------------------------------------
  // Moving
  // ---------------------------------------------------------------------

  /**
   * The units available to the next step of the piece in hand: its units
   * left, or, when it stands on another piece (0 left), the size of that
   * piece, since stepping away from it is a bounce.
   */
  function Budget(s: State): nat
    requires s.hand.Moving?
  {
    if s.hand.left == 0 then Units(GetPieceSize(s, s.hand.pos.line, s.hand.pos.column))
    else s.hand.left
  }

  /** The segment between p and q joins a and b, in either orientation. */
  predicate Joins(p: Square, q: Square, a: Square, b: Square) {
    (p == a && q == b) || (p == b && q == a)
  }

  /** The position reached after the k-th stop of the trail. */
  function After(h: Hand, k: nat): Square
    requires h.Moving? && k < |h.trail|
  {
    if k + 1 < |h.trail| then h.trail[k + 1].at else h.pos
  }

  /** The current movement already went along the segment between a and b. */
  predicate SegmentUsed(h: Hand, a: Square, b: Square)
    requires h.Moving?
  {
    exists k :: 0 <= k < |h.trail| && Joins(h.trail[k].at, After(h, k), a, b)
  }

  /**
   * is_move_possible. GOAL is possible when the piece is on the line next to
   * the opponent's goal and the step is its last unit. A compass step is
   * possible when the target is on the board, is empty or the step is the
   * last unit, and the movement has not gone along that segment before.
   */
  function IsMovePossible(s: State, d: Direction): (r: bool)
    ensures r ==> s.hand.Moving? && Budget(s) >= 1
    ensures d == GOAL ==>
      (r <==> s.hand.Moving? && s.hand.pos.line == GoalLine(s.hand.owner) && Budget(s) == 1)
    ensures d != GOAL ==>
      (r <==> && s.hand.Moving?
              && OnBoard(Neighbour(s.hand.pos, d))
              && Budget(s) >= 1
              && (GetPieceSize(s, Neighbour(s.hand.pos, d).line, Neighbour(s.hand.pos, d).column) == NONE
                  || Budget(s) == 1)
              && !SegmentUsed(s.hand, s.hand.pos, Neighbour(s.hand.pos, d)))
  {
    match s.hand
    case Idle => false
    case Moving(owner, _, _, pos, _, _) =>
      var units := Budget(s);
      if d == GOAL then pos.line == GoalLine(owner) && units == 1
      else
        var t := Neighbour(pos, d);
        && OnBoard(t)
        && units >= 1
        && (GetPieceSize(s, t.line, t.column) == NONE || units == 1)
        && !SegmentUsed(s.hand, pos, t)
  }

  /**
   * move_piece. EMPTY with no piece in hand, then PARAM for a target off the
   * board, then FORBIDDEN when the move is not possible. GOAL wins the game.
   * A step onto an occupied square leaves the piece in hand on top of it
   * with 0 units left; a step onto an empty square with the last unit puts
   * the piece down and ends the turn.
   */
  function Move(s: State, d: Direction): (r: Outcome)
    ensures r.code == EMPTY <==> s.hand.Idle?
    ensures r.code == PARAM <==> s.hand.Moving? && d != GOAL && !OnBoard(Neighbour(s.hand.pos, d))
    ensures r.code == OK <==> IsMovePossible(s, d)
    ensures r.code != OK ==> r.next == s
    ensures r.code == OK && d == GOAL ==>
      && GetWinner(r.next) == s.hand.owner && r.next.scored == s.hand.size
      && r.next.hand.Idle? && r.next.cells == s.cells
      && r.next.south == s.south && r.next.north == s.north
      && r.next.turn == NextPlayer(s.hand.owner)
    ensures r.code == OK && d != GOAL ==>
      var t := Neighbour(s.hand.pos, d);
      && r.next.winner == s.winner && r.next.scored == s.scored
      && r.next.south == s.south && r.next.north == s.north
      && (GetPieceSize(s, t.line, t.column) != NONE ==>
            && r.next.cells == s.cells && r.next.turn == s.turn
            && PickedPieceOwner(r.next) == s.hand.owner && PickedPieceSize(r.next) == s.hand.size
            && PickedPieceLine(r.next) == t.line && PickedPieceColumn(r.next) == t.column
            && MovementLeft(r.next) == 0)
      && (GetPieceSize(s, t.line, t.column) == NONE && Budget(s) > 1 ==>
            && r.next.cells == s.cells && r.next.turn == s.turn
            && PickedPieceOwner(r.next) == s.hand.owner && PickedPieceSize(r.next) == s.hand.size
            && PickedPieceLine(r.next) == t.line && PickedPieceColumn(r.next) == t.column
            && MovementLeft(r.next) == Budget(s) - 1)
      && (GetPieceSize(s, t.line, t.column) == NONE && Budget(s) == 1 ==>
            && GetPieceSize(r.next, t.line, t.column) == s.hand.size
            && BoardAgreesExcept(s, r.next, {t})
            && r.next.hand.Idle? && r.next.turn == NextPlayer(s.hand.owner))
  {
    match s.hand
    case Idle => Outcome(EMPTY, s)
    case Moving(owner, size, _, pos, left, trail) =>
      if d != GOAL && !OnBoard(Neighbour(pos, d)) then Outcome(PARAM, s)
      else if !IsMovePossible(s, d) then Outcome(FORBIDDEN, s)
      else if d == GOAL then
        Outcome(OK, s.(hand := Idle, winner := owner, scored := size, turn := NextPlayer(owner)))
      else
        var t := Neighbour(pos, d);
        var units := Budget(s) - 1;
        if units == 0 && s.cells[Index(t)] == NONE then
          Outcome(OK, s.(cells := s.cells[Index(t) := size], hand := Idle, turn := NextPlayer(owner)))
        else
          Outcome(OK, s.(hand := s.hand.(pos := t, left := units, trail := trail + [Stop(pos, left)])))
  }

  // ---------------------------------------------------------------------
  // Swapping
  // ---------------------------------------------------------------------

  /** The piece in hand stands on another piece and the player must decide. */
  predicate Deciding(s: State) {
    s.hand.Moving? && s.hand.left == 0
  }

  /**
   * swap_piece: the piece in hand replaces the piece it stands on, which is
   * put on the empty square (line, column); the turn ends. EMPTY unless the
   * piece in hand stands on another piece, then PARAM for a square off the
   * board, then FORBIDDEN for an occupied square.
   */
  function Swap(s: State, line: int, column: int): (r: Outcome)
    ensures r.code == EMPTY <==> !Deciding(s)
    ensures r.code == PARAM <==> Deciding(s) && !OnBoard(Square(line, column))
    ensures r.code == FORBIDDEN <==>
      Deciding(s) && OnBoard(Square(line, column)) && GetPieceSize(s, line, column) != NONE
    ensures r.code != OK ==> r.next == s
    ensures r.code == OK ==>
      var landing := s.hand.pos;
      && GetPieceSize(r.next, landing.line, landing.column) == s.hand.size
      && (GetPieceSize(s, landing.line, landing.column) != NONE ==>
            GetPieceSize(r.next, line, column) == GetPieceSize(s, landing.line, landing.column))
      && BoardAgreesExcept(s, r.next, {landing, Square(line, column)})
      && r.next.hand.Idle? && r.next.turn == NextPlayer(s.hand.owner)
      && r.next.winner == s.winner && r.next.scored == s.scored
      && r.next.south == s.south && r.next.north == s.north
  {
    var q := Square(line, column);
    if !Deciding(s) then Outcome(EMPTY, s)
    else if !OnBoard(q) then Outcome(PARAM, s)
    else if s.cells[Index(q)] != NONE then Outcome(FORBIDDEN, s)
    else
      var landing := Index(s.hand.pos);
      var resident := s.cells[landing];
      Outcome(OK, s.(cells := s.cells[Index(q) := resident][landing := s.hand.size],
                     hand := Idle, turn := NextPlayer(s.hand.owner)))
  }

  // ---------------------------------------------------------------------
  // Undo
  // ---------------------------------------------------------------------

  /**
   * cancel_movement: put the piece in hand back on the square it was picked
   * from; the turn does not pass. EMPTY with no piece in hand.
   */
  function CancelMovement(s: State): (r: Outcome)
    ensures r.code == EMPTY <==> s.hand.Idle?
    ensures r.code == OK || r.code == EMPTY
    ensures r.code != OK ==> r.next == s
    ensures r.code == OK ==>
      var o := s.hand.origin;
      && GetPieceSize(r.next, o.line, o.column) == s.hand.size
      && BoardAgreesExcept(s, r.next, {o})
      && r.next.hand.Idle? && SameButGrid(s, r.next)
  {
    match s.hand
    case Idle => Outcome(EMPTY, s)
    case Moving(_, size, origin, _, _, _) =>
      Outcome(OK, s.(cells := s.cells[Index(origin) := size], hand := Idle))
  }

  /**
   * cancel_step: undo the last step of the current movement; right after the
   * pick it is cancel_movement. EMPTY with no piece in hand.
   */
  function CancelStep(s: State): (r: Outcome)
    ensures r.code == EMPTY <==> s.hand.Idle?
    ensures r.code == OK || r.code == EMPTY
    ensures r.code != OK ==> r.next == s
    ensures s.hand.Moving? && s.hand.trail == [] ==> r == CancelMovement(s)
    ensures s.hand.Moving? && s.hand.trail != [] ==>
      var last := s.hand.trail[|s.hand.trail| - 1];
      && r.next.cells == s.cells && SameButGrid(s, r.next)
      && PickedPieceOwner(r.next) == s.hand.owner && PickedPieceSize(r.next) == s.hand.size
      && PickedPieceLine(r.next) == last.at.line && PickedPieceColumn(r.next) == last.at.column
      && MovementLeft(r.next) == last.left
  {
    match s.hand
    case Idle => Outcome(EMPTY, s)
    case Moving(_, _, _, _, _, trail) =>
      if trail == [] then CancelMovement(s)
      else
        var last := trail[|trail| - 1];
        Outcome(OK, s.(hand := s.hand.(pos := last.at, left := last.left, trail := trail[..|trail| - 1])))
  }
}
