/**
 * Enumerations and constants of the game engine's interface: piece sizes,
 * players, directions and the return codes of every mutating operation.
 */
module Types {

  /** Number of lines and of columns of the board; line 0 is the south edge. */
  const DIMENSION: int := 6

  /** Number of pieces of each size that each player places during setup. */
  const NB_INITIAL_PIECES: nat := 2

  /** Piece sizes, ordered increasingly; NONE stands for the absence of a piece. */
  datatype Size = NONE | ONE | TWO | THREE

  /** The players; NO_PLAYER is used where nobody is meant. */
  datatype Player = NO_PLAYER | SOUTH_P | NORTH_P

  /** GOAL enters the opponent's goal; the others are the four compass steps. */
  datatype Direction = GOAL | SOUTH | NORTH | EAST | WEST

  /** Outcome of a mutating operation. */
  datatype ReturnCode = OK | EMPTY | FORBIDDEN | PARAM

  /** Number of movement units a piece of size sz provides. */
  function Units(sz: Size): (n: nat)
    ensures n <= 3
    ensures n == 0 <==> sz == NONE
  {
    match sz
    case NONE => 0
    case ONE => 1
    case TWO => 2
    case THREE => 3
  }

  /** The player who plays after p; NO_PLAYER is not part of the turn cycle. */
  function NextPlayer(p: Player): (r: Player)
    ensures p != NO_PLAYER ==> r != NO_PLAYER && r != p
    ensures p == NO_PLAYER ==> r == NO_PLAYER
  {
    match p
    case SOUTH_P => NORTH_P
    case NORTH_P => SOUTH_P
    case NO_PLAYER => NO_PLAYER
  }

  /** Applying NextPlayer twice gives back the original player. */
  lemma NextPlayerInvolutive(p: Player)
    ensures NextPlayer(NextPlayer(p)) == p
  {
  }

  /** The compass direction that undoes a step in direction d. */
  function Opposite(d: Direction): (r: Direction)
    requires d != GOAL
    ensures r != GOAL && r != d
  {
    match d
    case SOUTH => NORTH
    case NORTH => SOUTH
    case EAST => WEST
    case WEST => EAST
  }
}
