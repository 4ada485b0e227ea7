/**
 * Scenarios of the engine's test suite (testenv/assertions.c), replayed on
 * the Game class. Where a test expects something the interface documentation
 * contradicts, the scenario asserts what the documentation says.
 *
 * Explicit positions write a square's cell by its grid index, line * 6 +
 * column (Board.Index): 0 to 5 is SOUTH_P's home line, 30 to 35 NORTH_P's,
 * and 6 is (1,0). Spelling these as Index(Square(line, column)) makes
 * the solver evaluate Index at every use, at several times the cost.
 */
module Scenarios {
  import opened Types
  import opened Board
  import opened Rules
  import opened Engine

  /** Sizes 1 1 2 2 3 3 from west to east: the home line of the standard setup. */
  function StandardPiece(column: int): Size {
    if column < 2 then ONE else if column < 4 then TWO else THREE
  }

  /** A stock after its owner placed the first m pieces of the standard home line. */
  function Remaining(m: int): Stock {
    Stock(Left(m, 0), Left(m, 2), Left(m, 4))
  }

  function Left(m: int, first: int): nat {
    if m <= first then 2 else if m >= first + 2 then 0 else 2 - (m - first)
  }

  /** The player making the n-th placement of the standard setup: SOUTH_P first, then NORTH_P. */
  function Placer(n: int): Player {
    if n < DIMENSION then SOUTH_P else NORTH_P
  }

  /** Index of the first square of NORTH_P's home line. */
  const NorthHome: int := (DIMENSION - 1) * DIMENSION

  /** The game after the first n of the twelve placements of the standard setup. */
  function AfterPlacements(n: int): State {
    State(seq(DIMENSION * DIMENSION, k =>
            if k < DIMENSION && k < n then StandardPiece(k)
            else if NorthHome <= k && k - NorthHome < n - DIMENSION then StandardPiece(k - NorthHome)
            else NONE),
          Remaining(n), Remaining(n - DIMENSION), NO_PLAYER, NO_PLAYER, NONE, Idle)
  }

  /** Each placement of the standard setup succeeds and makes the next position. */
  lemma SetupStep(n: int)
    requires 0 <= n < 2 * DIMENSION
    ensures Place(AfterPlacements(n), StandardPiece(n % DIMENSION), Placer(n), n % DIMENSION)
            == Outcome(OK, AfterPlacements(n + 1))
  {
    var s := AfterPlacements(n);
    var q := Square(HomeLine(Placer(n)), n % DIMENSION);
    assert s.cells[Index(q)] == NONE;
    assert s.cells[Index(q) := StandardPiece(n % DIMENSION)] == AfterPlacements(n + 1).cells;
  }

  /** The standard setup, complete: both home lines full and both stocks empty. */
  function Standard(): State {
    AfterPlacements(2 * DIMENSION)
  }

  /** helper_fill_setup: SOUTH_P places its six pieces, then NORTH_P. */
  method FillSetup(g: Game)
    requires g.Valid() && g.Model() == Initial()
    modifies g, g.cells
    ensures g.Valid() && g.Model() == Standard()
  {
    assert Initial() == AfterPlacements(0);
    PlaceStandard(g, 0);
    PlaceStandard(g, 1);
    PlaceStandard(g, 2);
    PlaceStandard(g, 3);
    PlaceStandard(g, 4);
    PlaceStandard(g, 5);
    PlaceStandard(g, 6);
    PlaceStandard(g, 7);
    PlaceStandard(g, 8);
    PlaceStandard(g, 9);
    PlaceStandard(g, 10);
    PlaceStandard(g, 11);
  }

  /** The n-th call of helper_fill_setup, counting from 0. */
  method PlaceStandard(g: Game, n: int)
    requires 0 <= n < 2 * DIMENSION
    requires g.Valid() && g.Model() == AfterPlacements(n)
    modifies g, g.cells
    ensures g.Valid() && g.Model() == AfterPlacements(n + 1)
  {
    SetupStep(n);
    var rc := g.PlacePiece(StandardPiece(n % DIMENSION), Placer(n), n % DIMENSION);
  }

  /** test_structure_basics (assertions.c:77-87): a new game has no winner. */
  method StructureBasics() returns (w: Player)
    ensures w == NO_PLAYER
    ensures NextPlayer(SOUTH_P) == NORTH_P && NextPlayer(NORTH_P) == SOUTH_P
  {
    var g := new Game();
    w := GetWinner(g.Model());
  }

  /**
   * test_setup_limits (assertions.c:91-110): a column off the board, a
   * third piece of size ONE and an occupied square are refused, each with
   * its own code, and leave the game unchanged.
   */
  lemma SetupLimits()
    ensures Place(Initial(), ONE, SOUTH_P, 7) == Outcome(PARAM, Initial())
    ensures Place(Initial(), ONE, NORTH_P, -1) == Outcome(PARAM, Initial())
    ensures var first := Place(Initial(), ONE, SOUTH_P, 0);
            var second := Place(first.next, ONE, SOUTH_P, 1);
            && first.code == OK && second.code == OK
            && NbPiecesAvailable(second.next, ONE, SOUTH_P) == 0
            && Place(second.next, ONE, SOUTH_P, 2) == Outcome(FORBIDDEN, second.next)
            && Place(second.next, TWO, SOUTH_P, 0) == Outcome(EMPTY, second.next)
  {
    var s0 := Initial();
    var s1 := s0.(cells := s0.cells[0 := ONE], south := Stock(1, 2, 2));
    assert Place(s0, ONE, SOUTH_P, 0) == Outcome(OK, s1);
    var s2 := s1.(cells := s1.cells[1 := ONE], south := Stock(0, 2, 2));
    assert Place(s1, ONE, SOUTH_P, 1) == Outcome(OK, s2);
    assert s2.cells[2] == NONE && s2.cells[0] == ONE;
  }

  /**
   * A placement on an empty square of the home line, with a piece of that
   * size left, succeeds. This is a proof hint: it unfolds Rules.Place once, so
   * that the placement chains below need not reason about Place's contract.
   */
  lemma PlacesOnEmpty(s: State, piece: Size, player: Player, column: int)
    requires ValidPlacement(piece, player, column)
    requires s.cells[Index(Square(HomeLine(player), column))] == NONE
    requires StockOf(s, player).Get(piece) > 0
    ensures var cells := s.cells[Index(Square(HomeLine(player), column)) := piece];
            Place(s, piece, player, column) ==
              if player == SOUTH_P then Outcome(OK, s.(cells := cells, south := s.south.Take(piece)))
              else Outcome(OK, s.(cells := cells, north := s.north.Take(piece)))
  {
  }

  /** The game after NORTH_P, placing first, has filled its home line in the standard order. */
  function NorthFirst(): State {
    var s := Initial();
    s.(cells := s.cells[30 := ONE][31 := ONE][32 := TWO][33 := TWO][34 := THREE][35 := THREE],
       north := Stock(0, 0, 0))
  }

  /**
   * test_robustness (assertions.c:248-265): a move before setup finds no
   * piece in hand, a pick during setup is refused even on an occupied square,
   * and after setup squares off the board are bad parameters. The setup that
   * test completes is replayed by RobustnessNorth and RobustnessSouth.
   */
  lemma Robustness()
    ensures Move(Initial(), NORTH) == Outcome(EMPTY, Initial())
    ensures var placed := Place(Initial(), ONE, SOUTH_P, 0);
            && placed == Outcome(OK, RobustnessFirst()) && GetPieceSize(placed.next, 0, 0) == ONE
            && Pick(placed.next, SOUTH_P, 0, 0) == Outcome(FORBIDDEN, placed.next)
    ensures Pick(Standard(), SOUTH_P, -5, 0) == Outcome(PARAM, Standard())
    ensures Pick(Standard(), SOUTH_P, 0, 99) == Outcome(PARAM, Standard())
  {
    var s0 := Initial();
    var s1 := RobustnessFirst();
    assert Place(s0, ONE, SOUTH_P, 0) == Outcome(OK, s1);
    assert !SetupOver(s1);
    assert SetupOver(Standard());
  }

  /** test_robustness's game once SOUTH_P has placed its first piece, of size 1, on (0,0). */
  function RobustnessFirst(): State {
    var s := Initial();
    s.(cells := s.cells[0 := ONE], south := Stock(1, 2, 2))
  }

  /**
   * The game once SOUTH_P's first piece, on (0,0), and NORTH_P's six pieces are placed, in
   * either order: test_robustness and helper_setup_game both reach it.
   */
  function RobustnessMidway(): State {
    var s := Initial();
    s.(cells := s.cells[0 := ONE][30 := ONE][31 := ONE][32 := TWO][33 := TWO][34 := THREE][35 := THREE],
       south := Stock(1, 2, 2), north := Stock(0, 0, 0))
  }

  /**
   * test_robustness (assertions.c:259, helper_setup_game at
   * assertions.c:60-65): after SOUTH_P's first placement, NORTH_P fills its
   * home line.
   */
  lemma RobustnessNorth()
    ensures var s1 := RobustnessFirst();
            var s2 := Place(s1, ONE, NORTH_P, 0).next;
            var s3 := Place(s2, ONE, NORTH_P, 1).next;
            var s4 := Place(s3, TWO, NORTH_P, 2).next;
            var s5 := Place(s4, TWO, NORTH_P, 3).next;
            var s6 := Place(s5, THREE, NORTH_P, 4).next;
            Place(s6, THREE, NORTH_P, 5).next == RobustnessMidway()
  {
    var s1 := RobustnessFirst();
    PlacesOnEmpty(s1, ONE, NORTH_P, 0);
    var s2 := Place(s1, ONE, NORTH_P, 0).next;
    PlacesOnEmpty(s2, ONE, NORTH_P, 1);
    var s3 := Place(s2, ONE, NORTH_P, 1).next;
    PlacesOnEmpty(s3, TWO, NORTH_P, 2);
    var s4 := Place(s3, TWO, NORTH_P, 2).next;
    PlacesOnEmpty(s4, TWO, NORTH_P, 3);
    var s5 := Place(s4, TWO, NORTH_P, 3).next;
    PlacesOnEmpty(s5, THREE, NORTH_P, 4);
    var s6 := Place(s5, THREE, NORTH_P, 4).next;
    PlacesOnEmpty(s6, THREE, NORTH_P, 5);
  }

  /**
   * test_robustness (helper_setup_game at assertions.c:67-72): SOUTH_P's
   * placement on its occupied square (0,0) is refused with EMPTY and changes
   * nothing; the other five make the standard setup, on which the pick with
   * bad coordinates in Robustness is made.
   */
  lemma RobustnessSouth()
    ensures Place(RobustnessMidway(), ONE, SOUTH_P, 0) == Outcome(EMPTY, RobustnessMidway())
    ensures var s1 := Place(RobustnessMidway(), ONE, SOUTH_P, 1).next;
            var s2 := Place(s1, TWO, SOUTH_P, 2).next;
            var s3 := Place(s2, TWO, SOUTH_P, 3).next;
            var s4 := Place(s3, THREE, SOUTH_P, 4).next;
            Place(s4, THREE, SOUTH_P, 5).next == Standard()
  {
    var s0 := RobustnessMidway();
    assert s0.cells[0] == ONE;
    PlacesOnEmpty(s0, ONE, SOUTH_P, 1);
    var s1 := Place(s0, ONE, SOUTH_P, 1).next;
    PlacesOnEmpty(s1, TWO, SOUTH_P, 2);
    var s2 := Place(s1, TWO, SOUTH_P, 2).next;
    PlacesOnEmpty(s2, TWO, SOUTH_P, 3);
    var s3 := Place(s2, TWO, SOUTH_P, 3).next;
    PlacesOnEmpty(s3, THREE, SOUTH_P, 4);
    var s4 := Place(s3, THREE, SOUTH_P, 4).next;
    PlacesOnEmpty(s4, THREE, SOUTH_P, 5);
    var s5 := Place(s4, THREE, SOUTH_P, 5).next;
    assert s5.cells == Standard().cells;
  }

  /** The standard setup after SOUTH_P moved (0,0) to (1,0). */
  function SouthFirstMove(): State {
    var s := Standard();
    s.(cells := s.cells[0 := NONE][6 := ONE], turn := NORTH_P)
  }

  /** SouthFirstMove, then NORTH_P moved (5,0) to (4,0). */
  function FirstRound(): State {
    var s := SouthFirstMove();
    s.(cells := s.cells[30 := NONE][24 := ONE], turn := SOUTH_P)
  }

  /**
   * The opening of test_movement_bounce and test_pick_closest_line_rule
   * (assertions.c:157-162): each player moves a piece of size 1 one square
   * forward, which puts it down and hands the turn to the other player.
   */
  lemma OneRoundEach()
    ensures var a := Pick(Standard(), SOUTH_P, 0, 0);
            var b := Move(a.next, NORTH);
            var c := Pick(b.next, NORTH_P, 5, 0);
            var d := Move(c.next, SOUTH);
            && a.code == OK && b.code == OK && c.code == OK && d.code == OK
            && b.next == SouthFirstMove() && d.next == FirstRound()
  {
    var s0 := Standard();
    var s1 := s0.(cells := s0.cells[0 := NONE], hand := Moving(SOUTH_P, ONE, Square(0, 0), Square(0, 0), 1, []));
    assert Pick(s0, SOUTH_P, 0, 0) == Outcome(OK, s1) by { assert GetPieceSize(s0, 0, 0) == ONE; }
    var s2 := s1.(cells := s1.cells[6 := ONE], hand := Idle, turn := NORTH_P);
    assert Move(s1, NORTH) == Outcome(OK, s2) by { assert s1.cells[6] == NONE; }
    var s3 := s2.(cells := s2.cells[30 := NONE], hand := Moving(NORTH_P, ONE, Square(5, 0), Square(5, 0), 1, []));
    assert Pick(s2, NORTH_P, 5, 0) == Outcome(OK, s3) by { assert GetPieceSize(s2, 5, 0) == ONE; }
    var s4 := s3.(cells := s3.cells[24 := ONE], hand := Idle, turn := SOUTH_P);
    assert Move(s3, SOUTH) == Outcome(OK, s4) by { assert s3.cells[24] == NONE; }
    assert s2 == SouthFirstMove();
    assert s4 == FirstRound();
  }

  /**
   * test_pick_closest_line_rule (assertions.c:114-143) and
   * test_pick_priority_complex (assertions.c:627-649): with pieces on lines 0
   * and 1, SOUTH_P must pick from line 0.
   */
  lemma ClosestLineFirst()
    ensures Pick(FirstRound(), SOUTH_P, 1, 0) == Outcome(FORBIDDEN, FirstRound())
    ensures var p := Pick(FirstRound(), SOUTH_P, 0, 1);
            p.code == OK && CancelMovement(p.next) == Outcome(OK, FirstRound())
    ensures Pick(FirstRound(), SOUTH_P, 0, 2).code == OK
  {
    var s := FirstRound();
    assert GetPieceSize(s, 0, 1) == ONE && GetPieceSize(s, 0, 2) == TWO && GetPieceSize(s, 1, 0) == ONE;
    assert SouthmostOccupiedLine(s) == 0;
    var p := s.(cells := s.cells[1 := NONE], hand := Moving(SOUTH_P, ONE, Square(0, 1), Square(0, 1), 1, []));
    assert Pick(s, SOUTH_P, 0, 1) == Outcome(OK, p);
    assert p.cells[1 := ONE] == s.cells;
  }

  /**
   * test_backtracking_prevention (assertions.c:552-590): the piece on (1,0)
   * is not on SOUTH_P's closest line, so nothing is in hand to move or
   * cancel; the piece of size 2 on (0,3) cannot step SOUTH off the board.
   * Carried on: after one step NORTH it cannot step back SOUTH along the
   * segment it just used.
   */
  lemma Backtracking()
    ensures Pick(FirstRound(), SOUTH_P, 1, 0) == Outcome(FORBIDDEN, FirstRound())
    ensures Move(FirstRound(), EAST) == Outcome(EMPTY, FirstRound())
    ensures Rules.CancelMovement(FirstRound()) == Outcome(EMPTY, FirstRound())
    ensures var p := Pick(FirstRound(), SOUTH_P, 0, 3);
            var up := Move(p.next, NORTH);
            && p.code == OK && Move(p.next, SOUTH) == Outcome(PARAM, p.next)
            && up.code == OK && MovementLeft(up.next) == 1
            && Move(up.next, SOUTH) == Outcome(FORBIDDEN, up.next)
  {
    var s := FirstRound();
    assert GetPieceSize(s, 0, 1) == ONE && GetPieceSize(s, 0, 3) == TWO;
    var p := s.(cells := s.cells[3 := NONE], hand := Moving(SOUTH_P, TWO, Square(0, 3), Square(0, 3), 2, []));
    assert Pick(s, SOUTH_P, 0, 3) == Outcome(OK, p);
    var up := p.(hand := Moving(SOUTH_P, TWO, Square(0, 3), Square(1, 3), 1, [Stop(Square(0, 3), 2)]));
    assert Move(p, NORTH) == Outcome(OK, up) by { assert p.cells[9] == NONE; }
    assert SegmentUsed(up.hand, Square(1, 3), Square(0, 3)) by {
      assert Joins(up.hand.trail[0].at, After(up.hand, 0), Square(1, 3), Square(0, 3));
    }
  }

  /** FirstRound, then SOUTH_P moved (0,2) to (2,2). */
  function SouthSecondMove(): State {
    var s := FirstRound();
    s.(cells := s.cells[2 := NONE][14 := TWO], turn := NORTH_P)
  }

  /** SouthSecondMove, then NORTH_P moved (5,1) to (4,1). */
  function SecondRound(): State {
    var s := SouthSecondMove();
    s.(cells := s.cells[31 := NONE][25 := ONE], turn := SOUTH_P)
  }

  /**
   * The middle of test_movement_bounce (assertions.c:164-167): SOUTH_P moves
   * its piece of size 2 from (0,2) two squares NORTH, spending one unit per
   * step; the second step puts it down and ends the turn.
   */
  lemma SouthSecondMoveReached()
    ensures var a := Pick(FirstRound(), SOUTH_P, 0, 2);
            var b := Move(a.next, NORTH);
            var c := Move(b.next, NORTH);
            && a.code == OK && b.code == OK && MovementLeft(b.next) == 1
            && c.code == OK && c.next == SouthSecondMove()
  {
    var s0 := FirstRound();
    var s1 := s0.(cells := s0.cells[2 := NONE], hand := Moving(SOUTH_P, TWO, Square(0, 2), Square(0, 2), 2, []));
    assert Pick(s0, SOUTH_P, 0, 2) == Outcome(OK, s1) by { assert GetPieceSize(s0, 0, 2) == TWO; }
    var s2 := s1.(hand := Moving(SOUTH_P, TWO, Square(0, 2), Square(1, 2), 1, [Stop(Square(0, 2), 2)]));
    assert Move(s1, NORTH) == Outcome(OK, s2) by { assert s1.cells[8] == NONE; }
    var s3 := s2.(cells := s2.cells[14 := TWO], hand := Idle, turn := NORTH_P);
    assert Move(s2, NORTH) == Outcome(OK, s3) by {
      assert s2.cells[14] == NONE;
      assert !SegmentUsed(s2.hand, Square(1, 2), Square(2, 2));
    }
    assert s3 == SouthSecondMove();
  }

  /** assertions.c:170-171: NORTH_P moves (5,1) to (4,1), and the turn is SOUTH_P's again. */
  lemma SecondRoundReached()
    ensures var d := Pick(SouthSecondMove(), NORTH_P, 5, 1);
            var e := Move(d.next, SOUTH);
            && d.code == OK && e.code == OK && e.next == SecondRound()
  {
    var s3 := SouthSecondMove();
    var s4 := s3.(cells := s3.cells[31 := NONE], hand := Moving(NORTH_P, ONE, Square(5, 1), Square(5, 1), 1, []));
    assert Pick(s3, NORTH_P, 5, 1) == Outcome(OK, s4) by { assert GetPieceSize(s3, 5, 1) == ONE; }
    var s5 := s4.(cells := s4.cells[25 := ONE], hand := Idle, turn := SOUTH_P);
    assert Move(s4, SOUTH) == Outcome(OK, s5) by { assert s4.cells[25] == NONE; }
    assert s5 == SecondRound();
  }

  /**
   * The end of test_movement_bounce (assertions.c:178-184): SOUTH_P's piece
   * of size 3 from (0,4) starts with 3 units and spends one per step.
   */
  lemma MovementBounce()
    ensures var f := Pick(SecondRound(), SOUTH_P, 0, 4);
            var g := Move(f.next, NORTH);
            && f.code == OK && MovementLeft(f.next) == 3
            && g.code == OK && MovementLeft(g.next) == 2
            && Move(g.next, NORTH).code == OK
  {
    var s5 := SecondRound();
    var s6 := s5.(cells := s5.cells[4 := NONE], hand := Moving(SOUTH_P, THREE, Square(0, 4), Square(0, 4), 3, []));
    assert Pick(s5, SOUTH_P, 0, 4) == Outcome(OK, s6) by { assert GetPieceSize(s5, 0, 4) == THREE; }
    var s7 := s6.(hand := Moving(SOUTH_P, THREE, Square(0, 4), Square(1, 4), 2, [Stop(Square(0, 4), 3)]));
    assert Move(s6, NORTH) == Outcome(OK, s7) by { assert s6.cells[10] == NONE; }
    assert Move(s7, NORTH).code == OK by {
      assert s7.cells[16] == NONE;
      assert !SegmentUsed(s7.hand, Square(1, 4), Square(2, 4));
    }
  }

  /** The standard setup with SOUTH_P's piece of size 1 from (0,r) standing on (0,r+1). */
  function StandingOn(from: int): State
    requires 0 <= from < 5
  {
    var s := Standard();
    s.(cells := s.cells[from := NONE],
       hand := Moving(SOUTH_P, ONE, Square(0, from), Square(0, from + 1), 0, [Stop(Square(0, from), 1)]))
  }

  /** SOUTH_P picks its piece of size 1 on (0,r) and steps EAST onto the piece on (0,r+1). */
  lemma StepOntoNeighbour(from: int)
    requires from == 0 || from == 1
    ensures var p := Pick(Standard(), SOUTH_P, 0, from);
            p.code == OK && Move(p.next, EAST) == Outcome(OK, StandingOn(from))
  {
    var s0 := Standard();
    var s1 := s0.(cells := s0.cells[from := NONE], hand := Moving(SOUTH_P, ONE, Square(0, from), Square(0, from), 1, []));
    assert Pick(s0, SOUTH_P, 0, from) == Outcome(OK, s1) by { assert GetPieceSize(s0, 0, from) == ONE; }
    assert s1.cells[from + 1] != NONE;
  }

  /**
   * test_swap_logic (assertions.c:191-218): with nothing in hand there is no
   * piece to swap or move, a pick on an empty square finds nothing, and a
   * swap target off the board is a bad parameter.
   */
  lemma SwapLogic()
    ensures Pick(Standard(), SOUTH_P, 4, 0) == Outcome(EMPTY, Standard())
    ensures Swap(Standard(), 3, 3) == Outcome(EMPTY, Standard())
    ensures Move(Standard(), EAST) == Outcome(EMPTY, Standard())
    ensures Swap(StandingOn(0), 50, 0) == Outcome(PARAM, StandingOn(0))
  {
    assert SetupOver(Standard()) && GetPieceSize(Standard(), 4, 0) == NONE;
  }

  /**
   * Swap as the interface documents it (board.h:422-440): the piece of size 1
   * that stands on the piece of size 2 on (0,2) takes its square, and the
   * piece of size 2 is put on the empty square (3,3); the turn passes.
   */
  lemma SwapEjects()
    ensures var r := Swap(StandingOn(1), 3, 3);
            && r.code == OK
            && GetPieceSize(r.next, 0, 2) == ONE && GetPieceSize(r.next, 3, 3) == TWO
            && GetPieceSize(r.next, 0, 1) == NONE
            && PickedPieceOwner(r.next) == NO_PLAYER && r.next.turn == NORTH_P
  {
    var s := StandingOn(1);
    assert s.cells[21] == NONE && s.cells[2] == TWO && s.cells[1] == NONE;
  }
  /**
   * test_obstruction_jumping (assertions.c:521-548), carried on to the end of
   * the bounce: the piece of size 1 on (0,0) steps EAST onto the piece on
   * (0,1) and stays in hand on top of it with 0 units left; the bounce then
   * gives it the units of that piece, 1, and the step NORTH puts it down on
   * (1,1), which ends SOUTH_P's turn.
   */
  lemma ObstructionAndBounce()
    ensures var p := Pick(Standard(), SOUTH_P, 0, 0);
            p.code == OK && Move(p.next, EAST) == Outcome(OK, StandingOn(0))
    ensures var onto := StandingOn(0);
            && PickedPieceOwner(onto) == SOUTH_P && MovementLeft(onto) == 0
            && PickedPieceLine(onto) == 0 && PickedPieceColumn(onto) == 1
            && var down := Move(onto, NORTH);
               && down.code == OK && PickedPieceOwner(down.next) == NO_PLAYER && down.next.turn == NORTH_P
               && GetPieceSize(down.next, 0, 0) == NONE && GetPieceSize(down.next, 0, 1) == ONE
               && GetPieceSize(down.next, 1, 1) == ONE
  {
    StepOntoNeighbour(0);
    var s := StandingOn(0);
    assert s.cells[1] == ONE && s.cells[7] == NONE && s.cells[0] == NONE;
  }

  /** test_complex_chain_bounce's setup once, after NORTH_P, SOUTH_P has placed ONE, TWO, ONE, TWO on columns 0 to 3. */
  function ChainSouthPartial(): State {
    var s := NorthFirst();
    s.(cells := s.cells[0 := ONE][1 := TWO][2 := ONE][3 := TWO], south := Stock(0, 0, 2))
  }

  /** ... and SOUTH_P has placed its two pieces of size THREE on columns 4 and 5. */
  function ChainStart(): State {
    var s := ChainSouthPartial();
    s.(cells := s.cells[4 := THREE][5 := THREE], south := Stock(0, 0, 0))
  }

  /**
   * helper_setup_game (assertions.c:60-65), and likewise the start of
   * test_complex_chain_bounce (assertions.c:291-296): NORTH_P, placing
   * first, fills its home line.
   */
  lemma SetupGameNorth()
    ensures var s1 := Place(Initial(), ONE, NORTH_P, 0).next;
            var s2 := Place(s1, ONE, NORTH_P, 1).next;
            var s3 := Place(s2, TWO, NORTH_P, 2).next;
            var s4 := Place(s3, TWO, NORTH_P, 3).next;
            var s5 := Place(s4, THREE, NORTH_P, 4).next;
            Place(s5, THREE, NORTH_P, 5).next == NorthFirst()
  {
    var s0 := Initial();
    PlacesOnEmpty(s0, ONE, NORTH_P, 0);
    var s1 := Place(s0, ONE, NORTH_P, 0).next;
    PlacesOnEmpty(s1, ONE, NORTH_P, 1);
    var s2 := Place(s1, ONE, NORTH_P, 1).next;
    PlacesOnEmpty(s2, TWO, NORTH_P, 2);
    var s3 := Place(s2, TWO, NORTH_P, 2).next;
    PlacesOnEmpty(s3, TWO, NORTH_P, 3);
    var s4 := Place(s3, TWO, NORTH_P, 3).next;
    PlacesOnEmpty(s4, THREE, NORTH_P, 4);
    var s5 := Place(s4, THREE, NORTH_P, 4).next;
    PlacesOnEmpty(s5, THREE, NORTH_P, 5);
  }

  /**
   * helper_setup_game (assertions.c:67-72): SOUTH_P then fills its home line
   * in the same order, which gives the standard setup. The scenarios that
   * begin with helper_setup_game therefore start from Standard().
   */
  lemma SetupGameSouth()
    ensures var s1 := Place(NorthFirst(), ONE, SOUTH_P, 0).next;
            var s2 := Place(s1, ONE, SOUTH_P, 1).next;
            var s3 := Place(s2, TWO, SOUTH_P, 2).next;
            var s4 := Place(s3, TWO, SOUTH_P, 3).next;
            var s5 := Place(s4, THREE, SOUTH_P, 4).next;
            Place(s5, THREE, SOUTH_P, 5).next == Standard()
  {
    var s0 := NorthFirst();
    PlacesOnEmpty(s0, ONE, SOUTH_P, 0);
    assert Place(s0, ONE, SOUTH_P, 0).next == RobustnessMidway();
    RobustnessSouth();
  }

  /**
   * test_complex_chain_bounce (assertions.c:298-310): SOUTH_P places ONE,
   * TWO, ONE, TWO on columns 0 to 3; a pick while two pieces are still to be
   * placed is refused and changes nothing; the last two placements end the
   * setup.
   */
  lemma ChainSouthSetup()
    ensures var s1 := Place(NorthFirst(), ONE, SOUTH_P, 0).next;
            var s2 := Place(s1, TWO, SOUTH_P, 1).next;
            var s3 := Place(s2, ONE, SOUTH_P, 2).next;
            Place(s3, TWO, SOUTH_P, 3).next == ChainSouthPartial()
    ensures Pick(ChainSouthPartial(), SOUTH_P, 0, 0) == Outcome(FORBIDDEN, ChainSouthPartial())
    ensures var s5 := Place(ChainSouthPartial(), THREE, SOUTH_P, 4).next;
            Place(s5, THREE, SOUTH_P, 5).next == ChainStart() && SetupOver(ChainStart())
  {
    var s0 := NorthFirst();
    PlacesOnEmpty(s0, ONE, SOUTH_P, 0);
    var s1 := Place(s0, ONE, SOUTH_P, 0).next;
    PlacesOnEmpty(s1, TWO, SOUTH_P, 1);
    var s2 := Place(s1, TWO, SOUTH_P, 1).next;
    PlacesOnEmpty(s2, ONE, SOUTH_P, 2);
    var s3 := Place(s2, ONE, SOUTH_P, 2).next;
    PlacesOnEmpty(s3, TWO, SOUTH_P, 3);
    var s4 := ChainSouthPartial();
    assert !SetupOver(s4);
    PlacesOnEmpty(s4, THREE, SOUTH_P, 4);
    var s5 := Place(s4, THREE, SOUTH_P, 4).next;
    PlacesOnEmpty(s5, THREE, SOUTH_P, 5);
  }

  /** In test_complex_chain_bounce, the piece of size 1 from (0,0) on top of the piece on (0,1). */
  function ChainOnto(): State {
    var s := ChainStart();
    s.(cells := s.cells[0 := NONE],
       hand := Moving(SOUTH_P, ONE, Square(0, 0), Square(0, 1), 0, [Stop(Square(0, 0), 1)]))
  }

  /** ... and one step NORTH of it, on (1,1). */
  function ChainUp(): State {
    var s := ChainOnto();
    s.(hand := Moving(SOUTH_P, ONE, Square(0, 0), Square(1, 1), 1,
                      [Stop(Square(0, 0), 1), Stop(Square(0, 1), 0)]))
  }

  /** test_complex_chain_bounce (assertions.c:312-316): the step EAST onto the piece of size 2. */
  lemma ChainStepOnto()
    ensures var p := Pick(ChainStart(), SOUTH_P, 0, 0);
            p.code == OK && Move(p.next, EAST) == Outcome(OK, ChainOnto())
  {
    var s0 := ChainStart();
    var s1 := s0.(cells := s0.cells[0 := NONE], hand := Moving(SOUTH_P, ONE, Square(0, 0), Square(0, 0), 1, []));
    assert Pick(s0, SOUTH_P, 0, 0) == Outcome(OK, s1) by { assert GetPieceSize(s0, 0, 0) == ONE; }
    assert s1.cells[1] == TWO;
  }

  /** test_complex_chain_bounce (assertions.c:329-331): the bounce's first step NORTH. */
  lemma ChainBounceUp()
    ensures Move(ChainOnto(), NORTH) == Outcome(OK, ChainUp())
  {
    var s := ChainOnto();
    assert s.cells[7] == NONE && Budget(s) == 2;
  }

  /** test_complex_chain_bounce (assertions.c:333-340): the second step NORTH puts the piece down. */
  lemma ChainLanding()
    ensures var s := ChainUp();
            Move(s, NORTH) == Outcome(OK, s.(cells := s.cells[13 := ONE], hand := Idle, turn := NORTH_P))
  {
    var s := ChainUp();
    assert s.cells[13] == NONE && Budget(s) == 1;
  }

  /**
   * test_complex_chain_bounce (assertions.c:312-340): the piece of size 1 on
   * (0,0) steps EAST onto the piece of size 2 on (0,1) and stays in hand on
   * top of it with 0 units left; the bounce gives it 2 units, so the first
   * step NORTH leaves 1 and the second puts it down on (2,1), which ends the
   * turn and leaves the piece on (0,1) where it was.
   */
  lemma ComplexChainBounce()
    ensures var p := Pick(ChainStart(), SOUTH_P, 0, 0);
            var onto := Move(p.next, EAST).next;
            && p.code == OK && Move(p.next, EAST).code == OK
            && PickedPieceOwner(onto) == SOUTH_P && MovementLeft(onto) == 0
            && PickedPieceLine(onto) == 0 && PickedPieceColumn(onto) == 1
            && var up := Move(onto, NORTH);
               && up.code == OK && MovementLeft(up.next) == 1
               && var down := Move(up.next, NORTH);
                  && down.code == OK && PickedPieceOwner(down.next) == NO_PLAYER
                  && GetPieceSize(down.next, 0, 0) == NONE && GetPieceSize(down.next, 0, 1) == TWO
                  && GetPieceSize(down.next, 2, 1) == ONE
  {
    ChainStepOnto();
    ChainBounceUp();
    ChainLanding();
    var s := ChainUp();
    assert s.cells[0] == NONE && s.cells[1] == TWO;
  }

  /**
   * test_goal_entry_conditions (assertions.c:594-623), and likewise
   * test_victory_edge_cases (assertions.c:222-244): a piece on its own home
   * line cannot enter a goal; cancelling the movement restores the setup.
   */
  lemma GoalFromHomeLine()
    ensures var p := Pick(Standard(), SOUTH_P, 0, 0);
            && p.code == OK && !IsMovePossible(p.next, GOAL)
            && Move(p.next, GOAL) == Outcome(FORBIDDEN, p.next)
            && Rules.CancelMovement(p.next) == Outcome(OK, Standard())
  {
    var s0 := Standard();
    var s1 := s0.(cells := s0.cells[0 := NONE], hand := Moving(SOUTH_P, ONE, Square(0, 0), Square(0, 0), 1, []));
    assert Pick(s0, SOUTH_P, 0, 0) == Outcome(OK, s1) by { assert GetPieceSize(s0, 0, 0) == ONE; }
    assert s1.cells[0 := ONE] == s0.cells;
  }

  /**
   * test_empty_line_selection (assertions.c:429-454): NORTH_P's closest line
   * is its home line 5; line 4 holds nothing to pick.
   */
  lemma EmptyLineSelection()
    ensures Pick(Standard(), NORTH_P, 4, 0) == Outcome(EMPTY, Standard())
    ensures var p := Pick(Standard(), NORTH_P, 5, 0);
            p.code == OK && Rules.CancelMovement(p.next) == Outcome(OK, Standard())
  {
    var s0 := Standard();
    assert SetupOver(s0) && GetPieceSize(s0, 4, 0) == NONE;
    var s1 := s0.(cells := s0.cells[30 := NONE], hand := Moving(NORTH_P, ONE, Square(5, 0), Square(5, 0), 1, []));
    assert Pick(s0, NORTH_P, 5, 0) == Outcome(OK, s1) by { assert GetPieceSize(s0, 5, 0) == ONE; }
    assert s1.cells[30 := ONE] == s0.cells;
  }

  /**
   * test_boundaries_corners (assertions.c:475-517): from the corner (0,0)
   * neither WEST nor SOUTH is possible and both moves are bad parameters;
   * from the corner (0,5) neither EAST nor SOUTH is possible.
   */
  lemma BoundariesCorners()
    ensures var p := Pick(Standard(), SOUTH_P, 0, 0);
            && p.code == OK
            && !IsMovePossible(p.next, WEST) && Move(p.next, WEST) == Outcome(PARAM, p.next)
            && !IsMovePossible(p.next, SOUTH) && Move(p.next, SOUTH) == Outcome(PARAM, p.next)
            && Rules.CancelMovement(p.next) == Outcome(OK, Standard())
    ensures var q := Pick(Standard(), SOUTH_P, 0, 5);
            && q.code == OK && !IsMovePossible(q.next, EAST) && !IsMovePossible(q.next, SOUTH)
            && Rules.CancelMovement(q.next) == Outcome(OK, Standard())
  {
    var s0 := Standard();
    var s1 := s0.(cells := s0.cells[0 := NONE], hand := Moving(SOUTH_P, ONE, Square(0, 0), Square(0, 0), 1, []));
    assert Pick(s0, SOUTH_P, 0, 0) == Outcome(OK, s1) by { assert GetPieceSize(s0, 0, 0) == ONE; }
    assert s1.cells[0 := ONE] == s0.cells;
    var s2 := s0.(cells := s0.cells[5 := NONE], hand := Moving(SOUTH_P, THREE, Square(0, 5), Square(0, 5), 3, []));
    assert Pick(s0, SOUTH_P, 0, 5) == Outcome(OK, s2) by { assert GetPieceSize(s0, 0, 5) == THREE; }
    assert s2.cells[5 := THREE] == s0.cells;
  }

  /**
   * test_all_directions_validity (assertions.c:653-672): the piece of size 2
   * on (0,2) may step NORTH onto an empty square but not EAST or WEST onto a
   * piece with units to spare, not SOUTH off the board and not into a goal.
   */
  lemma AllDirections()
    ensures var p := Pick(Standard(), SOUTH_P, 0, 2);
            && p.code == OK
            && IsMovePossible(p.next, NORTH)
            && !IsMovePossible(p.next, EAST) && !IsMovePossible(p.next, WEST)
            && !IsMovePossible(p.next, SOUTH) && !IsMovePossible(p.next, GOAL)
            && Rules.CancelMovement(p.next) == Outcome(OK, Standard())
  {
    var s0 := Standard();
    var s1 := s0.(cells := s0.cells[2 := NONE], hand := Moving(SOUTH_P, TWO, Square(0, 2), Square(0, 2), 2, []));
    assert Pick(s0, SOUTH_P, 0, 2) == Outcome(OK, s1) by { assert GetPieceSize(s0, 0, 2) == TWO; }
    assert s1.cells[8] == NONE && s1.cells[1] == ONE && s1.cells[3] == TWO;
    assert s1.cells[2 := TWO] == s0.cells;
  }

  /**
   * test_all_directions_validity (assertions.c:674-686): after SOUTH_P's
   * first move, NORTH_P's piece of size 2 on (5,2) may step SOUTH but not
   * NORTH, off the board.
   */
  lemma AllDirectionsNorth()
    ensures var q := Pick(SouthFirstMove(), NORTH_P, 5, 2);
            && q.code == OK && IsMovePossible(q.next, SOUTH) && !IsMovePossible(q.next, NORTH)
  {
    var t0 := SouthFirstMove();
    var t1 := t0.(cells := t0.cells[32 := NONE], hand := Moving(NORTH_P, TWO, Square(5, 2), Square(5, 2), 2, []));
    assert Pick(t0, NORTH_P, 5, 2) == Outcome(OK, t1) by { assert GetPieceSize(t0, 5, 2) == TWO; }
    assert t1.cells[26] == NONE;
  }

  /**
   * copy_game makes an independent game: a placement on the copy starts from
   * the original's position, and the original, which this method may not
   * modify, keeps it.
   */
  method CopyIsIndependent(g: Game) returns (c: Game, rc: ReturnCode)
    requires g.Valid()
    ensures c.Valid() && c.cells != g.cells
    ensures Outcome(rc, c.Model()) == Place(g.Model(), ONE, SOUTH_P, 0)
  {
    c := new Game.Copy(g);
    rc := c.PlacePiece(ONE, SOUTH_P, 0);
  }
}
