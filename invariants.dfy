/**
 * Invariants of every reachable game state and the lemmas that the rules
 * keep them: twelve pieces, four of each size, are conserved; the piece in
 * hand is well formed; a won game is terminal. Also the undo laws of
 * cancel_movement and cancel_step and the no-U-turn consequence of the
 * segment rule.
 */
module Invariants {
  import opened Types
  import opened Board
  import opened Rules

  // ---------------------------------------------------------------------
  // Counting pieces
  // ---------------------------------------------------------------------

  function Indicator(b: bool): nat {
    if b then 1 else 0
  }

  /** Number of squares of g holding a piece of size sz. */
  function Count(g: seq<Size>, sz: Size): nat {
    if |g| == 0 then 0 else Indicator(g[0] == sz) + Count(g[1..], sz)
  }

  /** Overwriting one square changes the count by what left and what arrived. */
  lemma {:induction false} CountUpdate(g: seq<Size>, k: nat, v: Size, sz: Size)
    requires k < |g|
    ensures Count(g[k := v], sz) + Indicator(g[k] == sz) == Count(g, sz) + Indicator(v == sz)
    decreases k
  {
    if k == 0 {
      assert g[k := v][1..] == g[1..];
    } else {
      assert g[k := v][1..] == g[1..][k - 1 := v];
      CountUpdate(g[1..], k - 1, v, sz);
    }
  }

  /** A grid of empty squares holds no piece. */
  lemma {:induction false} CountEmpty(g: seq<Size>, sz: Size)
    requires sz != NONE
    requires forall i :: 0 <= i < |g| ==> g[i] == NONE
    ensures Count(g, sz) == 0
    decreases |g|
  {
    if |g| > 0 {
      CountEmpty(g[1..], sz);
    }
  }

  /** The piece in hand, counted when it has size sz. */
  function InHand(h: Hand, sz: Size): nat {
    Indicator(h.Moving? && h.size == sz)
  }

  /**
   * All pieces of size sz: on the board, in hand, in a goal, or still to be
   * placed by either player.
   */
  function Total(s: State, sz: Size): nat {
    Count(s.cells, sz) + InHand(s.hand, sz) + Indicator(s.scored == sz)
    + s.south.Get(sz) + s.north.Get(sz)
  }

  /** Four pieces of every size exist, as the rules of the game state. */
  predicate Conserved(s: State) {
    && Total(s, ONE) == 2 * NB_INITIAL_PIECES
    && Total(s, TWO) == 2 * NB_INITIAL_PIECES
    && Total(s, THREE) == 2 * NB_INITIAL_PIECES
  }

  predicate StockBounded(k: Stock) {
    k.one <= NB_INITIAL_PIECES && k.two <= NB_INITIAL_PIECES && k.three <= NB_INITIAL_PIECES
  }

  // ---------------------------------------------------------------------
  // The invariant
  // ---------------------------------------------------------------------

  /**
   * A position of the moving piece is consistent with the board: it has no
   * unit left exactly when it stands on another piece.
   */
  predicate Rests(s: State, q: Pos, left: nat) {
    left == 0 <==> GetPieceSize(s, q.line, q.column) != NONE
  }

  /** The piece in hand, if any, is a real piece moved by a real player. */
  predicate HandValid(s: State) {
    match s.hand
    case Idle => true
    case Moving(owner, size, origin, pos, left, trail) =>
      && owner != NO_PLAYER
      && size != NONE
      && GetPieceSize(s, origin.line, origin.column) == NONE
      && Rests(s, pos, left)
      && forall k :: 0 <= k < |trail| ==> Rests(s, trail[k].at, trail[k].left)
  }

  /** What holds in every state the engine can reach from new_game. */
  predicate Inv(s: State) {
    && Conserved(s)
    && StockBounded(s.south) && StockBounded(s.north)
    && HandValid(s)
    && (s.winner == NO_PLAYER <==> s.scored == NONE)
    && (s.winner != NO_PLAYER ==> s.hand.Idle?)
    && (s.winner != NO_PLAYER || s.hand.Moving? ==> SetupOver(s))
  }

  lemma InitialValid()
    ensures Inv(Initial())
  {
    var s := Initial();
    CountEmpty(s.cells, ONE);
    CountEmpty(s.cells, TWO);
    CountEmpty(s.cells, THREE);
  }

  /** Writing v onto an empty square adds v to the board's counts. */
  lemma CountPut(g: Grid, q: Pos, v: Size)
    requires g[Index(q)] == NONE
    ensures forall sz :: sz != NONE ==> Count(g[Index(q) := v], sz) == Count(g, sz) + Indicator(v == sz)
  {
    forall sz | sz != NONE {
      CountUpdate(g, Index(q), v, sz);
    }
  }

  /** Emptying a square removes its piece from the board's counts. */
  lemma CountRemove(g: Grid, q: Pos)
    ensures forall sz :: sz != NONE ==> Count(g[Index(q) := NONE], sz) + Indicator(g[Index(q)] == sz) == Count(g, sz)
  {
    forall sz | sz != NONE {
      CountUpdate(g, Index(q), NONE, sz);
    }
  }

  // ---------------------------------------------------------------------
  // Every operation keeps the invariant
  // ---------------------------------------------------------------------

  lemma PlaceKeepsInv(s: State, piece: Size, player: Player, column: int)
    requires Inv(s)
    ensures Inv(Place(s, piece, player, column).next)
  {
    var r := Place(s, piece, player, column);
    if r.code == OK {
      var q := Square(HomeLine(player), column);
      CountPut(s.cells, q, piece);
      assert r.next.cells == s.cells[Index(q) := piece];
    }
  }

  lemma PickKeepsInv(s: State, player: Player, line: int, column: int)
    requires Inv(s)
    ensures Inv(Pick(s, player, line, column).next)
  {
    var r := Pick(s, player, line, column);
    if r.code == OK {
      var q := Square(line, column);
      CountRemove(s.cells, q);
      assert r.next.cells == s.cells[Index(q) := NONE];
    }
  }

  lemma MoveKeepsInv(s: State, d: Direction)
    requires Inv(s)
    ensures Inv(Move(s, d).next)
  {
    var r := Move(s, d);
    if r.code == OK && d != GOAL {
      var h := s.hand;
      var t := Neighbour(h.pos, d);
      if Budget(s) == 1 && s.cells[Index(t)] == NONE {
        CountPut(s.cells, t, h.size);
      } else {
        var h' := r.next.hand;
        assert h'.trail == h.trail + [Stop(h.pos, h.left)];
        forall k | 0 <= k < |h'.trail|
          ensures Rests(r.next, h'.trail[k].at, h'.trail[k].left)
        {
          if k < |h.trail| {
            assert h'.trail[k] == h.trail[k];
          }
        }
      }
    }
  }

  lemma SwapKeepsInv(s: State, line: int, column: int)
    requires Inv(s)
    ensures Inv(Swap(s, line, column).next)
  {
    var r := Swap(s, line, column);
    if r.code == OK {
      var q := Square(line, column);
      var landing := s.hand.pos;
      IndexInjective(q, landing);
      var resident := s.cells[Index(landing)];
      var mid := s.cells[Index(q) := resident];
      CountPut(s.cells, q, resident);
      forall sz | sz != NONE
        ensures Count(r.next.cells, sz) == Count(s.cells, sz) + Indicator(s.hand.size == sz)
      {
        CountUpdate(mid, Index(landing), s.hand.size, sz);
      }
    }
  }

  lemma CancelMovementKeepsInv(s: State)
    requires Inv(s)
    ensures Inv(CancelMovement(s).next)
  {
    if s.hand.Moving? {
      CountPut(s.cells, s.hand.origin, s.hand.size);
    }
  }

  lemma CancelStepKeepsInv(s: State)
    requires Inv(s)
    ensures Inv(CancelStep(s).next)
  {
    if s.hand.Moving? {
      var trail := s.hand.trail;
      if trail == [] {
        CancelMovementKeepsInv(s);
      } else {
        var h' := CancelStep(s).next.hand;
        assert h'.trail == trail[..|trail| - 1];
        assert Rests(s, trail[|trail| - 1].at, trail[|trail| - 1].left);
      }
    }
  }

  // ---------------------------------------------------------------------
  // Sequences of commands
  // ---------------------------------------------------------------------

  /** One call of a mutating operation of the engine. */
  datatype Command =
    | DoPlace(piece: Size, player: Player, column: int)
    | DoPick(player: Player, line: int, column: int)
    | DoMove(d: Direction)
    | DoSwap(line: int, column: int)
    | DoCancelMovement
    | DoCancelStep

  function Apply(s: State, c: Command): Outcome {
    match c
    case DoPlace(piece, player, column) => Place(s, piece, player, column)
    case DoPick(player, line, column) => Pick(s, player, line, column)
    case DoMove(d) => Move(s, d)
    case DoSwap(line, column) => Swap(s, line, column)
    case DoCancelMovement => CancelMovement(s)
    case DoCancelStep => CancelStep(s)
  }

  /** The state after issuing the commands cs, in order, from s. */
  function Replay(s: State, cs: seq<Command>): State
    decreases |cs|
  {
    if cs == [] then s else Replay(Apply(s, cs[0]).next, cs[1..])
  }

  lemma ApplyKeepsInv(s: State, c: Command)
    requires Inv(s)
    ensures Inv(Apply(s, c).next)
  {
    match c
    case DoPlace(piece, player, column) => PlaceKeepsInv(s, piece, player, column);
    case DoPick(player, line, column) => PickKeepsInv(s, player, line, column);
    case DoMove(d) => MoveKeepsInv(s, d);
    case DoSwap(line, column) => SwapKeepsInv(s, line, column);
    case DoCancelMovement => CancelMovementKeepsInv(s);
    case DoCancelStep => CancelStepKeepsInv(s);
  }

  lemma {:induction false} ReplayKeepsInv(s: State, cs: seq<Command>)
    requires Inv(s)
    ensures Inv(Replay(s, cs))
    decreases |cs|
  {
    if cs != [] {
      ApplyKeepsInv(s, cs[0]);
      ReplayKeepsInv(Apply(s, cs[0]).next, cs[1..]);
    }
  }

  /**
   * Piece conservation: whatever the commands issued since new_game, there
   * are four pieces of each size, on the board, in hand, in a goal or still
   * to be placed.
   */
  lemma PiecesConserved(cs: seq<Command>)
    ensures Inv(Replay(Initial(), cs))
    ensures forall sz :: sz != NONE ==> Total(Replay(Initial(), cs), sz) == 2 * NB_INITIAL_PIECES
  {
    InitialValid();
    ReplayKeepsInv(Initial(), cs);
  }

  /** Once a player has won, every operation fails and nothing changes any more. */
  lemma WinIsFinal(s: State, c: Command)
    requires Inv(s) && GetWinner(s) != NO_PLAYER
    ensures Apply(s, c).code != OK
    ensures Apply(s, c).next == s
    ensures c.DoPick? ==> Apply(s, c).code == FORBIDDEN
  {
  }

  lemma {:induction false} WinIsPermanent(s: State, cs: seq<Command>)
    requires Inv(s) && GetWinner(s) != NO_PLAYER
    ensures Replay(s, cs) == s
    decreases |cs|
  {
    if cs != [] {
      WinIsFinal(s, cs[0]);
      WinIsPermanent(s, cs[1..]);
    }
  }

  /** movement_left is 0 exactly when the piece in hand stands on another piece. */
  lemma MovementLeftZeroOnPiece(s: State)
    requires Inv(s)
    ensures MovementLeft(s) == 0 <==>
      s.hand.Moving? && GetPieceSize(s, PickedPieceLine(s), PickedPieceColumn(s)) != NONE
  {
  }

  /**
   * Turns alternate: once a move or a swap has put the piece down, its mover
   * may not pick again, and the turn belongs to the other player.
   */
  lemma TurnPasses(s: State, c: Command)
    requires Inv(s) && (c.DoMove? || c.DoSwap?)
    requires Apply(s, c).code == OK && Apply(s, c).next.hand.Idle?
    ensures Apply(s, c).next.turn == NextPlayer(s.hand.owner) != NO_PLAYER
    ensures forall line, column :: Pick(Apply(s, c).next, s.hand.owner, line, column).code != OK
  {
  }

  // ---------------------------------------------------------------------
  // Undo
  // ---------------------------------------------------------------------

  /** cancel_movement right after a pick gives back the state before it. */
  lemma CancelUndoesPick(s: State, player: Player, line: int, column: int)
    requires Pick(s, player, line, column).code == OK
    ensures CancelMovement(Pick(s, player, line, column).next) == Outcome(OK, s)
  {
    var q := Square(line, column);
    assert s.cells[Index(q) := NONE][Index(q) := s.cells[Index(q)]] == s.cells;
  }

  /** cancel_step undoes a step after which the piece is still in hand. */
  lemma CancelStepUndoesMove(s: State, d: Direction)
    requires Move(s, d).code == OK && Move(s, d).next.hand.Moving?
    ensures CancelStep(Move(s, d).next) == Outcome(OK, s)
  {
    var trail := s.hand.trail;
    assert (trail + [Stop(s.hand.pos, s.hand.left)])[..|trail|] == trail;
  }

  /** The directions ds can be followed one after the other, the piece staying in hand. */
  predicate StaysInHand(s: State, ds: seq<Direction>)
    decreases |ds|
  {
    ds == [] ||
      (Move(s, ds[0]).code == OK && Move(s, ds[0]).next.hand.Moving?
       && StaysInHand(Move(s, ds[0]).next, ds[1..]))
  }

  /** The state after moving the piece in hand along ds. */
  function Walk(s: State, ds: seq<Direction>): State
    decreases |ds|
  {
    if ds == [] then s else Walk(Move(s, ds[0]).next, ds[1..])
  }

  /** The state after calling cancel_step n times. */
  function CancelSteps(s: State, n: nat): State {
    if n == 0 then s else CancelStep(CancelSteps(s, n - 1)).next
  }

  /** Steps that keep the piece in hand change nothing but the piece's position. */
  lemma {:induction false} WalkKeepsBoard(s: State, ds: seq<Direction>)
    requires s.hand.Moving? && StaysInHand(s, ds)
    ensures Walk(s, ds).cells == s.cells && SameButGrid(s, Walk(s, ds))
    ensures Walk(s, ds).hand.Moving?
    ensures Walk(s, ds).hand.origin == s.hand.origin && Walk(s, ds).hand.size == s.hand.size
    decreases |ds|
  {
    if ds != [] {
      WalkKeepsBoard(Move(s, ds[0]).next, ds[1..]);
    }
  }

  /**
   * However far the piece has moved, cancel_movement gives back the state
   * before the pick.
   */
  lemma CancelMovementUndoesWalk(s: State, player: Player, line: int, column: int, ds: seq<Direction>)
    requires Pick(s, player, line, column).code == OK
    requires StaysInHand(Pick(s, player, line, column).next, ds)
    ensures CancelMovement(Walk(Pick(s, player, line, column).next, ds)) == Outcome(OK, s)
  {
    var p := Pick(s, player, line, column).next;
    WalkKeepsBoard(p, ds);
    CancelUndoesPick(s, player, line, column);
  }

  /** One cancel_step per step taken goes back, step by step, to the state after the pick. */
  lemma {:induction false} CancelStepsUndoWalk(s: State, ds: seq<Direction>)
    requires StaysInHand(s, ds)
    ensures CancelSteps(Walk(s, ds), |ds|) == s
    decreases |ds|
  {
    if ds != [] {
      var s1 := Move(s, ds[0]).next;
      CancelStepsUndoWalk(s1, ds[1..]);
      assert CancelSteps(Walk(s, ds), |ds|) == CancelStep(CancelSteps(Walk(s1, ds[1..]), |ds| - 1)).next;
      CancelStepUndoesMove(s, ds[0]);
    }
  }

  // ---------------------------------------------------------------------
  // Segment rule
  // ---------------------------------------------------------------------

  /** Right after a step, stepping straight back is never possible. */
  lemma NoUTurn(s: State, d: Direction)
    requires d != GOAL
    requires Move(s, d).code == OK && Move(s, d).next.hand.Moving?
    ensures !IsMovePossible(Move(s, d).next, Opposite(d))
    ensures Move(Move(s, d).next, Opposite(d)).code != OK
  {
    var n := Move(s, d).next;
    var h := n.hand;
    var k := |h.trail| - 1;
    assert h.trail[k].at == s.hand.pos && After(h, k) == h.pos;
    assert Neighbour(h.pos, Opposite(d)) == s.hand.pos;
    assert Joins(h.trail[k].at, After(h, k), h.pos, s.hand.pos);
  }

  /** The squares the piece in hand goes through along ds, starting with the one it stands on. */
  function Visited(s: State, ds: seq<Direction>): (ps: seq<Pos>)
    requires s.hand.Moving? && StaysInHand(s, ds)
    ensures |ps| == |ds| + 1 && ps[0] == s.hand.pos
    decreases |ds|
  {
    if ds == [] then [s.hand.pos] else [s.hand.pos] + Visited(Move(s, ds[0]).next, ds[1..])
  }

  /** The path ps goes, from one square to the next, along the segment between a and b. */
  predicate Passes(ps: seq<Square>, a: Square, b: Square) {
    exists i :: 0 <= i < |ps| - 1 && Joins(ps[i], ps[i + 1], a, b)
  }

  /** A path goes along a segment when its first step or the rest of it does. */
  lemma PassesCons(p: Square, ps: seq<Square>, a: Square, b: Square)
    requires |ps| >= 1
    ensures Passes([p] + ps, a, b) <==> Joins(p, ps[0], a, b) || Passes(ps, a, b)
  {
    var qs := [p] + ps;
    if Passes(qs, a, b) {
      var i :| 0 <= i < |qs| - 1 && Joins(qs[i], qs[i + 1], a, b);
      if i > 0 {
        assert qs[i] == ps[i - 1] && qs[i + 1] == ps[i];
      }
    }
    if Passes(ps, a, b) {
      var i :| 0 <= i < |ps| - 1 && Joins(ps[i], ps[i + 1], a, b);
      assert qs[i + 1] == ps[i] && qs[i + 2] == ps[i + 1];
    }
    if Joins(p, ps[0], a, b) {
      assert qs[0] == p && qs[1] == ps[0];
    }
  }

  /**
   * A step that keeps the piece in hand adds exactly one segment to the
   * movement: the one from where the piece stood to where it stands now.
   */
  lemma StepAddsSegment(s: State, d: Direction)
    requires Move(s, d).code == OK && Move(s, d).next.hand.Moving?
    ensures s.hand.Moving? && d != GOAL
    ensures forall a, b :: SegmentUsed(Move(s, d).next.hand, a, b) <==>
              SegmentUsed(s.hand, a, b) || Joins(s.hand.pos, Move(s, d).next.hand.pos, a, b)
  {
    var h := s.hand;
    var h1 := Move(s, d).next.hand;
    var k := |h.trail|;
    assert h1.trail == h.trail + [Stop(h.pos, h.left)];
    assert h1.trail[k].at == h.pos && After(h1, k) == h1.pos;
    forall a, b
      ensures SegmentUsed(h1, a, b) <==> SegmentUsed(h, a, b) || Joins(h.pos, h1.pos, a, b)
    {
      if SegmentUsed(h1, a, b) {
        var j :| 0 <= j < |h1.trail| && Joins(h1.trail[j].at, After(h1, j), a, b);
        if j < k {
          assert h1.trail[j] == h.trail[j] && After(h1, j) == After(h, j);
        }
      }
      if SegmentUsed(h, a, b) {
        var j :| 0 <= j < |h.trail| && Joins(h.trail[j].at, After(h, j), a, b);
        assert h1.trail[j] == h.trail[j] && After(h1, j) == After(h, j);
      }
      if Joins(h.pos, h1.pos, a, b) {
        assert Joins(h1.trail[k].at, After(h1, k), a, b);
      }
    }
  }

  /**
   * Along a walk that keeps the piece in hand, the segments the movement has
   * used are those it had used before the walk and those between consecutive
   * squares of the walk, and no others.
   */
  lemma {:induction false} WalkSegments(s: State, ds: seq<Direction>)
    requires s.hand.Moving? && StaysInHand(s, ds)
    ensures Walk(s, ds).hand.Moving? && Walk(s, ds).hand.pos == Visited(s, ds)[|ds|]
    ensures forall a, b :: SegmentUsed(Walk(s, ds).hand, a, b) <==>
              SegmentUsed(s.hand, a, b) || Passes(Visited(s, ds), a, b)
    decreases |ds|
  {
    if ds != [] {
      var s1 := Move(s, ds[0]).next;
      StepAddsSegment(s, ds[0]);
      WalkSegments(s1, ds[1..]);
      assert Visited(s, ds) == [s.hand.pos] + Visited(s1, ds[1..]);
      assert Walk(s, ds) == Walk(s1, ds[1..]);
      forall a, b {
        PassesCons(s.hand.pos, Visited(s1, ds[1..]), a, b);
      }
    }
  }

  /**
   * After any walk that keeps the piece in hand, a further step along a
   * segment between two squares the walk went through one after the other
   * is FORBIDDEN.
   */
  lemma WalkedSegmentRefused(s: State, ds: seq<Direction>, d: Direction)
    requires s.hand.Moving? && StaysInHand(s, ds) && d != GOAL
    ensures Walk(s, ds).hand.Moving?
    ensures var w := Walk(s, ds);
            Passes(Visited(s, ds), w.hand.pos, Neighbour(w.hand.pos, d)) ==>
              !IsMovePossible(w, d) && Move(w, d).code == FORBIDDEN
  {
    WalkSegments(s, ds);
    var w := Walk(s, ds);
    var ps := Visited(s, ds);
    var t := Neighbour(w.hand.pos, d);
    if Passes(ps, w.hand.pos, t) {
      var i :| 0 <= i < |ps| - 1 && Joins(ps[i], ps[i + 1], w.hand.pos, t);
      assert OnBoard(ps[i]) && OnBoard(ps[i + 1]);
    }
  }

  /**
   * The segment rule over a whole movement: once a piece has been picked and
   * walked along ds, keeping it in hand, a further step is refused by the
   * segment rule exactly when it goes along a segment between two squares
   * the walk went through one after the other.
   */
  lemma SegmentNeverReused(s: State, player: Player, line: int, column: int, ds: seq<Direction>, d: Direction)
    requires Pick(s, player, line, column).code == OK
    requires StaysInHand(Pick(s, player, line, column).next, ds) && d != GOAL
    ensures Walk(Pick(s, player, line, column).next, ds).hand.Moving?
    ensures var p := Pick(s, player, line, column).next;
            var w := Walk(p, ds);
            SegmentUsed(w.hand, w.hand.pos, Neighbour(w.hand.pos, d)) <==>
              Passes(Visited(p, ds), w.hand.pos, Neighbour(w.hand.pos, d))
  {
    var p := Pick(s, player, line, column).next;
    assert p.hand.trail == [];
    WalkSegments(p, ds);
  }

  /**
   * In every reachable state a piece can enter the goal only from its
   * opponent's home line, the line farthest from its own, and only with the
   * last unit of its movement.
   */
  lemma GoalFromOpponentHome(s: State)
    requires Inv(s)
    ensures IsMovePossible(s, GOAL) <==>
              && s.hand.Moving?
              && s.hand.pos.line == HomeLine(NextPlayer(s.hand.owner))
              && s.hand.pos.line == DIMENSION - 1 - HomeLine(s.hand.owner)
              && Budget(s) == 1
  {
  }
}
