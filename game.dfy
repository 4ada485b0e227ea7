/**
 * The game engine as a mutable object: the handle that new_game returns and
 * that every mutating operation updates in place. Its fields hold the grid
 * (an array of DIMENSION * DIMENSION squares, row-major), the two stocks, the
 * turn, the winner, the piece in a goal and the piece in hand. Model() reads
 * them as a Board.State; every method is proved to perform exactly the
 * transition that module Rules defines, and to keep Invariants.Inv.
 */
module Engine {
  import opened Types
  import opened Board
  import opened Rules
  import Invariants

  class Game {
    const cells: array<Size>
    var south: Stock
    var north: Stock
    var turn: Player
    var winner: Player
    var scored: Size
    var hand: Hand

    /** The value of this game. */
    function Model(): State
      reads this, cells
      requires cells.Length == DIMENSION * DIMENSION
    {
      State(cells[..], south, north, turn, winner, scored, hand)
    }

    ghost predicate Valid()
      reads this, cells
    {
      cells.Length == DIMENSION * DIMENSION && Invariants.Inv(Model())
    }

    /** new_game: an empty board, every player with two pieces of each size to place. */
    constructor ()
      ensures Valid() && fresh(cells)
      ensures Model() == Initial()
    {
      cells := new Size[DIMENSION * DIMENSION](_ => NONE);
      var full := Stock(NB_INITIAL_PIECES, NB_INITIAL_PIECES, NB_INITIAL_PIECES);
      south, north := full, full;
      turn, winner, scored, hand := NO_PLAYER, NO_PLAYER, NONE, Idle;
      new;
      assert cells[..] == Initial().cells;
      Invariants.InitialValid();
    }

    /**
     * copy_game: a deep copy. Its grid is a fresh array, so no later
     * operation on one game can affect the other.
     */
    constructor Copy(original: Game)
      requires original.Valid()
      ensures Valid() && fresh(cells)
      ensures Model() == original.Model()
    {
      var a := new Size[DIMENSION * DIMENSION];
      var i := 0;
      while i < a.Length
        invariant 0 <= i <= a.Length
        invariant forall j :: 0 <= j < i ==> a[j] == original.cells[j]
      {
        a[i] := original.cells[i];
        i := i + 1;
      }
      cells := a;
      south, north := original.south, original.north;
      turn, winner, scored, hand := original.turn, original.winner, original.scored, original.hand;
      new;
      assert cells[..] == original.cells[..];
    }

    /** place_piece */
    method PlacePiece(piece: Size, player: Player, column: int) returns (rc: ReturnCode)
      requires Valid()
      modifies this, cells
      ensures Valid()
      ensures Outcome(rc, Model()) == Place(old(Model()), piece, player, column)
    {
      ghost var s := Model();
      Invariants.PlaceKeepsInv(s, piece, player, column);
      if !ValidPlacement(piece, player, column) {
        return PARAM;
      }
      var k := Index(Square(HomeLine(player), column));
      if cells[k] != NONE {
        return EMPTY;
      }
      if player == SOUTH_P {
        if south.Get(piece) == 0 {
          return FORBIDDEN;
        }
        cells[k] := piece;
        south := south.Take(piece);
      } else {
        if north.Get(piece) == 0 {
          return FORBIDDEN;
        }
        cells[k] := piece;
        north := north.Take(piece);
      }
      rc := OK;
    }

    /** pick_piece */
    method PickPiece(player: Player, line: int, column: int) returns (rc: ReturnCode)
      requires Valid()
      modifies this, cells
      ensures Valid()
      ensures Outcome(rc, Model()) == Pick(old(Model()), player, line, column)
    {
      ghost var s := Model();
      Invariants.PickKeepsInv(s, player, line, column);
      if south != Stock(0, 0, 0) || north != Stock(0, 0, 0) || winner != NO_PLAYER {
        return FORBIDDEN;
      }
      var q := Square(line, column);
      if player == NO_PLAYER || !OnBoard(q) {
        return PARAM;
      }
      var k := Index(q);
      var sz := cells[k];
      if sz == NONE {
        return EMPTY;
      }
      if !MayPick(Model(), player, line) {
        return FORBIDDEN;
      }
      cells[k] := NONE;
      hand := Moving(player, sz, q, q, Units(sz), []);
      rc := OK;
    }

    /** move_piece */
    method MovePiece(d: Direction) returns (rc: ReturnCode)
      requires Valid()
      modifies this, cells
      ensures Valid()
      ensures Outcome(rc, Model()) == Move(old(Model()), d)
    {
      ghost var s := Model();
      Invariants.MoveKeepsInv(s, d);
      if hand.Idle? {
        return EMPTY;
      }
      if d != GOAL && !OnBoard(Neighbour(hand.pos, d)) {
        return PARAM;
      }
      if !IsMovePossible(Model(), d) {
        return FORBIDDEN;
      }
      var owner := hand.owner;
      if d == GOAL {
        winner, scored := owner, hand.size;
        hand, turn := Idle, NextPlayer(owner);
        return OK;
      }
      var t := Neighbour(hand.pos, d);
      var units := Budget(Model()) - 1;
      var k := Index(t);
      if units == 0 && cells[k] == NONE {
        cells[k] := hand.size;
        hand, turn := Idle, NextPlayer(owner);
      } else {
        hand := hand.(pos := t, left := units, trail := hand.trail + [Stop(hand.pos, hand.left)]);
      }
      rc := OK;
    }

    /** swap_piece */
    method SwapPiece(line: int, column: int) returns (rc: ReturnCode)
      requires Valid()
      modifies this, cells
      ensures Valid()
      ensures Outcome(rc, Model()) == Swap(old(Model()), line, column)
    {
      ghost var s := Model();
      Invariants.SwapKeepsInv(s, line, column);
      if !(hand.Moving? && hand.left == 0) {
        return EMPTY;
      }
      var q := Square(line, column);
      if !OnBoard(q) {
        return PARAM;
      }
      var target := Index(q);
      if cells[target] != NONE {
        return FORBIDDEN;
      }
      var landing := Index(hand.pos);
      var resident := cells[landing];
      cells[target] := resident;
      cells[landing] := hand.size;
      hand, turn := Idle, NextPlayer(hand.owner);
      rc := OK;
    }

    /** cancel_movement */
    method CancelMovement() returns (rc: ReturnCode)
      requires Valid()
      modifies this, cells
      ensures Valid()
      ensures Outcome(rc, Model()) == Rules.CancelMovement(old(Model()))
    {
      ghost var s := Model();
      Invariants.CancelMovementKeepsInv(s);
      if hand.Idle? {
        return EMPTY;
      }
      cells[Index(hand.origin)] := hand.size;
      hand := Idle;
      rc := OK;
    }

    /** cancel_step */
    method CancelStep() returns (rc: ReturnCode)
      requires Valid()
      modifies this, cells
      ensures Valid()
      ensures Outcome(rc, Model()) == Rules.CancelStep(old(Model()))
    {
      ghost var s := Model();
      Invariants.CancelStepKeepsInv(s);
      if hand.Idle? {
        return EMPTY;
      }
      if hand.trail == [] {
        rc := CancelMovement();
        return;
      }
      var last := hand.trail[|hand.trail| - 1];
      hand := hand.(pos := last.at, left := last.left, trail := hand.trail[..|hand.trail| - 1]);
      rc := OK;
    }
  }
}
