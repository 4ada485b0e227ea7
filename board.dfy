/**
 * The state of one game and its read-only accessors.
 *
 * The board is a flat grid of DIMENSION * DIMENSION squares, square
 * (line, column) at index line * DIMENSION + column, each holding a piece
 * size or NONE. Pieces on the board belong to nobody. A picked piece is not
 * on the grid: it lives in the Hand until its movement ends.
 */
module Board {
  import opened Types

  /** The squares of the board, row-major from the south-west corner. */
  type Grid = g: seq<Size> | |g| == DIMENSION * DIMENSION witness seq(DIMENSION * DIMENSION, _ => NONE)

  /** A position given by line and column; it may lie off the board. */
  datatype Square = Square(line: int, column: int)

  /** Pieces one player still has to place during setup, per size. */
  datatype Stock = Stock(one: nat, two: nat, three: nat) {

    function Get(sz: Size): nat {
      match sz
      case NONE => 0
      case ONE => one
      case TWO => two
      case THREE => three
    }

    /** The stock after placing one piece of size sz. */
    function Take(sz: Size): (r: Stock)
      requires Get(sz) > 0
      ensures r.Get(sz) == Get(sz) - 1
      ensures forall o :: o != sz ==> r.Get(o) == Get(o)
    {
      match sz
      case ONE => this.(one := one - 1)
      case TWO => this.(two := two - 1)
      case THREE => this.(three := three - 1)
    }
  }

  /** A square of the board. */
  type Pos = q: Square | OnBoard(q) witness Square(0, 0)

  /** An earlier position of the moving piece and the movement units it then had. */
  datatype Stop = Stop(at: Pos, left: nat)

  /**
   * The piece in hand. Moving records who moves it, its size, the square it
   * was picked from, where it is now, the units left (0 when it stands on
   * another piece and the player must bounce or swap), and the earlier stops
   * of this movement, oldest first, for undo and for the segment rule.
   */
  datatype Hand =
    | Idle
    | Moving(owner: Player, size: Size, origin: Pos, pos: Pos, left: nat, trail: seq<Stop>)

  /**
   * One game: the grid, each player's stock, whose turn it is (NO_PLAYER until
   * the first movement ends, when either player may begin), the winner, the
   * piece that entered a goal (NONE if none did) and the piece in hand.
   */
  datatype State = State(
    cells: Grid,
    south: Stock,
    north: Stock,
    turn: Player,
    winner: Player,
    scored: Size,
    hand: Hand)

  predicate OnBoard(q: Square) {
    0 <= q.line < DIMENSION && 0 <= q.column < DIMENSION
  }

  function Index(q: Square): (k: nat)
    requires OnBoard(q)
    ensures k < DIMENSION * DIMENSION
  {
    q.line * DIMENSION + q.column
  }

  /** Distinct squares of the board occupy distinct cells of the grid. */
  lemma IndexInjective(p: Square, q: Square)
    requires OnBoard(p) && OnBoard(q)
    ensures Index(p) == Index(q) <==> p == q
  {
  }

  /** The game as new_game creates it: an empty board and full stocks. */
  function Initial(): (s: State)
    ensures forall l, c :: GetPieceSize(s, l, c) == NONE
    ensures forall sz, p :: sz != NONE && p != NO_PLAYER ==> NbPiecesAvailable(s, sz, p) == NB_INITIAL_PIECES
    ensures GetWinner(s) == NO_PLAYER && PickedPieceOwner(s) == NO_PLAYER
  {
    var full := Stock(NB_INITIAL_PIECES, NB_INITIAL_PIECES, NB_INITIAL_PIECES);
    State(seq(DIMENSION * DIMENSION, _ => NONE), full, full, NO_PLAYER, NO_PLAYER, NONE, Idle)
  }

  /**
   * Size of the piece on square (line, column); the piece in hand is not
   * seen, and a position off the board reads as NONE.
   */
  function GetPieceSize(s: State, line: int, column: int): (r: Size)
    ensures !OnBoard(Square(line, column)) ==> r == NONE
  {
    var q := Square(line, column);
    if OnBoard(q) then s.cells[Index(q)] else NONE
  }

  function GetWinner(s: State): Player {
    s.winner
  }

  /** The stock of a player taking part in the game. */
  function StockOf(s: State, p: Player): Stock
    requires p != NO_PLAYER
  {
    if p == SOUTH_P then s.south else s.north
  }

  /** Setup is over once both players have placed all their pieces. */
  predicate SetupOver(s: State) {
    s.south == Stock(0, 0, 0) && s.north == Stock(0, 0, 0)
  }

  /**
   * Pieces of size piece that player still has to place: -1 for invalid
   * arguments, and 0 for every size once setup is over.
   */
  function NbPiecesAvailable(s: State, piece: Size, player: Player): (r: int)
    ensures r == -1 <==> piece == NONE || player == NO_PLAYER
    ensures SetupOver(s) && r != -1 ==> r == 0
  {
    if piece == NONE || player == NO_PLAYER then -1 else StockOf(s, player).Get(piece)
  }

  /** Whether some square of the given line holds a piece. */
  predicate LineOccupied(s: State, line: int) {
    exists c :: 0 <= c < DIMENSION && GetPieceSize(s, line, c) != NONE
  }

  /** The smallest occupied line at or north of `from`, -1 if there is none. */
  function SouthmostFrom(s: State, from: int): (r: int)
    requires 0 <= from <= DIMENSION
    decreases DIMENSION - from
    ensures r == -1 || from <= r < DIMENSION
    ensures r == -1 <==> forall l :: from <= l < DIMENSION ==> !LineOccupied(s, l)
    ensures r != -1 ==> LineOccupied(s, r) && forall l :: from <= l < r ==> !LineOccupied(s, l)
  {
    if from == DIMENSION then -1
    else if LineOccupied(s, from) then from
    else SouthmostFrom(s, from + 1)
  }

  /** The largest occupied line at or south of `from`, -1 if there is none. */
  function NorthmostFrom(s: State, from: int): (r: int)
    requires -1 <= from < DIMENSION
    decreases from + 1
    ensures -1 <= r <= from
    ensures r == -1 <==> forall l :: 0 <= l <= from ==> !LineOccupied(s, l)
    ensures r != -1 ==> LineOccupied(s, r) && forall l :: r < l <= from ==> !LineOccupied(s, l)
  {
    if from == -1 then -1
    else if LineOccupied(s, from) then from
    else NorthmostFrom(s, from - 1)
  }

  /**
   * The southernmost line holding a piece (the line SOUTH_P must pick
   * from), -1 when the board is empty.
   */
  function SouthmostOccupiedLine(s: State): (r: int)
    ensures -1 <= r < DIMENSION
    ensures r == -1 <==> forall l :: 0 <= l < DIMENSION ==> !LineOccupied(s, l)
    ensures r != -1 ==> LineOccupied(s, r) && forall l :: 0 <= l < r ==> !LineOccupied(s, l)
  {
    SouthmostFrom(s, 0)
  }

  /**
   * The northernmost line holding a piece (the line NORTH_P must pick
   * from), -1 when the board is empty.
   */
  function NorthmostOccupiedLine(s: State): (r: int)
    ensures -1 <= r < DIMENSION
    ensures r == -1 <==> forall l :: 0 <= l < DIMENSION ==> !LineOccupied(s, l)
    ensures r != -1 ==> LineOccupied(s, r) && forall l :: r < l < DIMENSION ==> !LineOccupied(s, l)
  {
    NorthmostFrom(s, DIMENSION - 1)
  }

  /** The player moving the piece in hand, NO_PLAYER if none is. */
  function PickedPieceOwner(s: State): (r: Player)
    ensures s.hand.Idle? ==> r == NO_PLAYER
  {
    if s.hand.Moving? then s.hand.owner else NO_PLAYER
  }

  /** The size of the piece in hand, NONE if there is none. */
  function PickedPieceSize(s: State): (r: Size)
    ensures s.hand.Idle? ==> r == NONE
  {
    if s.hand.Moving? then s.hand.size else NONE
  }

  /** The line of the piece in hand, -1 if there is none. */
  function PickedPieceLine(s: State): (r: int)
    ensures s.hand.Idle? ==> r == -1
  {
    if s.hand.Moving? then s.hand.pos.line else -1
  }

  /** The column of the piece in hand, -1 if there is none. */
  function PickedPieceColumn(s: State): (r: int)
    ensures s.hand.Idle? ==> r == -1
  {
    if s.hand.Moving? then s.hand.pos.column else -1
  }

  /**
   * Movement units left to the piece in hand, ignoring future bounces; 0 when
   * it stands on another piece, -1 when no piece is in hand.
   */
  function MovementLeft(s: State): (r: int)
    ensures r == -1 <==> s.hand.Idle?
    ensures r >= -1
  {
    if s.hand.Moving? then s.hand.left else -1
  }
}
