/** The game-level rules as functions of the grid: how an unchecked move
    changes the squares, what the apply/undo/restore probe leaves behind,
    every pseudo-legal move of a colour in board order, and the filter that
    keeps the moves after which the mover is not in check. The check test
    itself is a parameter `inCheck`, since the game leaves it unimplemented. */
module Rules {
  import opened Types
  import Geometry

  /** The row on which a pawn of colour c promotes. */
  predicate LastRank(c: TeamColor, row: int) {
    (c == White && row == 8) || (c == Black && row == 1)
  }

  /** The move's start holds a pawn whose end lies on that pawn's last rank. */
  predicate Promotes(g: Grid, m: Move)
    requires OnBoard(m.start)
  {
    match At(g, m.start)
    case None => false
    case Some(piece) => piece.pieceType == Pawn && LastRank(piece.color, m.end.row)
  }

  /** Both squares are on the board, and a promoting pawn move names the
      kind it promotes to. */
  predicate MoveDefined(g: Grid, m: Move) {
    OnBoard(m.start) && OnBoard(m.end) && (Promotes(g, m) ==> m.promotion.Some?)
  }

  /** The grid after the unchecked move m. An empty start changes nothing.
      A pawn changes the board only when it reaches its last rank: the start
      is emptied, then the end receives the promoted piece. Any other piece
      is first copied onto the end and then its start is emptied, so a move
      from a square to itself empties that square. Only the start and the
      end can change. */
  function UnsafeMoved(g: Grid, m: Move): (r: Grid)
    requires MoveDefined(g, m)
    ensures forall q :: OnBoard(q) && q != m.start && q != m.end ==> At(r, q) == At(g, q)
  {
    match At(g, m.start)
    case None => g
    case Some(piece) =>
      if piece.pieceType == Pawn then
        if LastRank(piece.color, m.end.row) then
          Put(Put(g, m.start, None), m.end, Some(Piece(piece.color, m.promotion.value)))
        else
          g
      else
        Put(Put(g, m.end, Some(Piece(piece.color, piece.pieceType))), m.start, None)
  }

  /** An unchecked move from an empty square leaves every square as it was. */
  lemma UnsafeMovedEmptyStart(g: Grid, m: Move)
    requires MoveDefined(g, m) && At(g, m.start) == None
    ensures UnsafeMoved(g, m) == g
  {
  }

  /** A piece other than a pawn moving to another square lands on the end,
      replacing whatever stood there, and leaves its start empty; the other
      62 squares keep their contents. */
  lemma UnsafeMovedSlide(g: Grid, m: Move)
    requires MoveDefined(g, m) && m.start != m.end
    requires At(g, m.start).Some? && At(g, m.start).value.pieceType != Pawn
    ensures At(UnsafeMoved(g, m), m.end) == At(g, m.start)
    ensures At(UnsafeMoved(g, m), m.start) == None
    ensures forall q :: OnBoard(q) && q != m.start && q != m.end ==> At(UnsafeMoved(g, m), q) == At(g, q)
  {
  }

  /** A piece other than a pawn moved onto its own square disappears. */
  lemma UnsafeMovedInPlace(g: Grid, m: Move)
    requires MoveDefined(g, m) && m.start == m.end
    requires At(g, m.start).Some? && At(g, m.start).value.pieceType != Pawn
    ensures At(UnsafeMoved(g, m), m.start) == None
    ensures UnsafeMoved(g, m) == Put(g, m.start, None)
  {
    var r := UnsafeMoved(g, m);
    GridEquality(r, Put(g, m.start, None));
  }

  /** A pawn move changes the grid exactly when the end lies on the pawn's
      last rank; then the start is empty and the end holds a piece of the
      pawn's colour and the promotion kind. */
  lemma UnsafeMovedPawn(g: Grid, m: Move)
    requires MoveDefined(g, m)
    requires At(g, m.start).Some? && At(g, m.start).value.pieceType == Pawn
    ensures !LastRank(At(g, m.start).value.color, m.end.row) ==> UnsafeMoved(g, m) == g
    ensures LastRank(At(g, m.start).value.color, m.end.row) ==>
              At(UnsafeMoved(g, m), m.end) == Some(Piece(At(g, m.start).value.color, m.promotion.value))
              && (m.start != m.end ==> At(UnsafeMoved(g, m), m.start) == None)
  {
  }

  /** The move that the probe plays back: end to start, same promotion. */
  function Undo(m: Move): Move {
    Move(m.end, m.start, m.promotion)
  }

  /** The probe can run: the move and its undo on the moved grid are both
      defined. */
  predicate ProbeDefined(g: Grid, m: Move) {
    MoveDefined(g, m) && MoveDefined(UnsafeMoved(g, m), Undo(m))
  }

  /** The grid the probe leaves: the move, then its undo, then the end
      square's former occupant put back. */
  function Probed(g: Grid, m: Move): (r: Grid)
    requires ProbeDefined(g, m)
    ensures At(r, m.end) == At(g, m.end)
  {
    Put(UnsafeMoved(UnsafeMoved(g, m), Undo(m)), m.end, At(g, m.end))
  }

  /** The move is defined and its start holds a piece other than a pawn. */
  predicate Restorable(g: Grid, m: Move) {
    MoveDefined(g, m) && At(g, m.start).Some? && At(g, m.start).value.pieceType != Pawn
  }

  /** When the start holds a piece other than a pawn, the probe can run and
      leaves all 64 squares as they were, whatever stood on the end and even
      when start and end coincide. */
  lemma ProbeRestores(g: Grid, m: Move)
    requires Restorable(g, m)
    ensures ProbeDefined(g, m) && Probed(g, m) == g
  {
    var g1 := UnsafeMoved(g, m);
    if m.start == m.end {
      UnsafeMovedInPlace(g, m);
      assert At(g1, Undo(m).start) == None;
      GridEquality(Probed(g, m), g);
    } else {
      UnsafeMovedSlide(g, m);
      assert MoveDefined(g1, Undo(m));
      var g2 := UnsafeMoved(g1, Undo(m));
      UnsafeMovedSlide(g1, Undo(m));
      GridEquality(Probed(g, m), g);
    }
  }

  /** The probe does not restore a promoting pawn: a white pawn on row 7
      probing a promotion to a queen on row 8 leaves a white queen where
      the pawn stood. */
  lemma ProbeKeepsPromotion()
    ensures var g := Lone(Position(7, 1), Piece(White, Pawn));
            var m := Move(Position(7, 1), Position(8, 1), Some(Queen));
            ProbeDefined(g, m) && At(Probed(g, m), Position(7, 1)) == Some(Piece(White, Queen))
            && Probed(g, m) != g
  {
    var g := Lone(Position(7, 1), Piece(White, Pawn));
    var m := Move(Position(7, 1), Position(8, 1), Some(Queen));
    var g1 := UnsafeMoved(g, m);
    assert At(g1, Position(8, 1)) == Some(Piece(White, Queen));
    assert MoveDefined(g1, Undo(m));
    var g2 := UnsafeMoved(g1, Undo(m));
    assert At(g2, Position(7, 1)) == Some(Piece(White, Queen));
    assert At(Probed(g, m), Position(7, 1)) != At(g, Position(7, 1));
  }

  // ---------------------------------------------------------------------
  // All pseudo-legal moves of a colour

  /** The moves of the piece on p when it has colour c, else none. The kind
      is that of the piece on p. Each move starts on p and can be probed
      and restored. */
  function SquareMoves(g: Grid, c: TeamColor, p: Position): (r: seq<Move>)
    requires OnBoard(p)
    ensures forall m | m in r :: m.start == p && Restorable(g, m)
  {
    if Friendly(g, p, c) then
      var moves := Geometry.PieceMoves(At(g, p).value.pieceType, g, p);
      assert forall m | m in moves :: m.start == p && Restorable(g, m) by {
        forall m | m in moves
          ensures m.start == p && Restorable(g, m)
        {
          GeneratedRestorable(g, p, m);
        }
      }
      moves
    else
      []
  }

  /** The moves from columns 1..n of row i, column by column; each starts
      in that row and can be probed and restored. */
  function RowMoves(g: Grid, c: TeamColor, i: int, n: nat): (r: seq<Move>)
    requires 1 <= i <= 8 && n <= 8
    ensures forall m | m in r :: m.start.row == i && Restorable(g, m)
  {
    if n == 0 then [] else RowMoves(g, c, i, n - 1) + SquareMoves(g, c, Position(i, n))
  }

  /** The moves from rows 1..n, row by row; each can be probed and
      restored. */
  function RowsMoves(g: Grid, c: TeamColor, n: nat): (r: seq<Move>)
    requires n <= 8
    ensures forall m | m in r :: Restorable(g, m)
  {
    if n == 0 then [] else RowsMoves(g, c, n - 1) + RowMoves(g, c, n, 8)
  }

  /** Every pseudo-legal move of colour c, in row-major order of the start. */
  function AllMoves(g: Grid, c: TeamColor): (r: seq<Move>)
    ensures forall m | m in r :: Restorable(g, m)
  {
    RowsMoves(g, c, 8)
  }

  lemma {:induction false} RowMovesMembers(g: Grid, c: TeamColor, i: int, n: nat, m: Move)
    requires 1 <= i <= 8 && n <= 8
    ensures m in RowMoves(g, c, i, n) <==>
              m.start.row == i && 1 <= m.start.col <= n && Friendly(g, m.start, c)
              && m in Geometry.PieceMoves(At(g, m.start).value.pieceType, g, m.start)
  {
    if n > 0 {
      RowMovesMembers(g, c, i, n - 1, m);
      var p := Position(i, n);
      assert m in SquareMoves(g, c, p) <==>
               m.start == p && Friendly(g, p, c) && m in Geometry.PieceMoves(At(g, p).value.pieceType, g, p);
    }
  }

  lemma {:induction false} RowsMovesMembers(g: Grid, c: TeamColor, n: nat, m: Move)
    requires n <= 8
    ensures m in RowsMoves(g, c, n) <==>
              1 <= m.start.row <= n && OnBoard(m.start) && Friendly(g, m.start, c)
              && m in Geometry.PieceMoves(At(g, m.start).value.pieceType, g, m.start)
  {
    if n > 0 {
      RowsMovesMembers(g, c, n - 1, m);
      RowMovesMembers(g, c, n, 8, m);
    }
  }

  /** A move is among the colour's moves exactly when it is generated by the
      piece of that colour standing on its start. */
  lemma AllMovesMembers(g: Grid, c: TeamColor, m: Move)
    ensures m in AllMoves(g, c) <==>
              OnBoard(m.start) && Friendly(g, m.start, c)
              && m in Geometry.PieceMoves(At(g, m.start).value.pieceType, g, m.start)
  {
    RowsMovesMembers(g, c, 8, m);
  }

  /** A generated move starts on its generator's square, which holds a piece
      other than a pawn (pawns generate nothing), so the probe restores it. */
  lemma GeneratedRestorable(g: Grid, p: Position, m: Move)
    requires Occupied(g, p) && m in Geometry.PieceMoves(At(g, p).value.pieceType, g, p)
    ensures Restorable(g, m) && m.start == p
  {
    Geometry.PieceMovesEmitted(At(g, p).value.pieceType, g, p, m);
  }

  /** Every move of a colour is restorable, and it lands on a square not
      held by that colour. */
  lemma AllMovesRestorable(g: Grid, c: TeamColor, m: Move)
    requires m in AllMoves(g, c)
    ensures Restorable(g, m) && ColorAt(g, m.start) == c && !Friendly(g, m.end, c)
  {
    AllMovesMembers(g, c, m);
    GeneratedRestorable(g, m.start, m);
    Geometry.PieceMovesEmitted(At(g, m.start).value.pieceType, g, m.start, m);
  }

  // ---------------------------------------------------------------------
  // Filtering by the check test

  /** The moves of the list, in order, after which colour c is not in check. */
  function SafeMoves(g: Grid, c: TeamColor, inCheck: (Grid, TeamColor) -> bool, moves: seq<Move>): seq<Move>
    requires forall m | m in moves :: MoveDefined(g, m)
  {
    if moves == [] then []
    else
      var last := moves[|moves| - 1];
      SafeMoves(g, c, inCheck, moves[..|moves| - 1]) + (if inCheck(UnsafeMoved(g, last), c) then [] else [last])
  }

  /** a is b with some elements left out, the rest in the same order. */
  predicate Subsequence(a: seq<Move>, b: seq<Move>)
    decreases |b|
  {
    if b == [] then a == []
    else
      (a != [] && a[|a| - 1] == b[|b| - 1] && Subsequence(a[..|a| - 1], b[..|b| - 1]))
      || Subsequence(a, b[..|b| - 1])
  }

  /** A move is kept exactly when it is in the list and colour c is not in
      check after it. */
  lemma {:induction false} SafeMovesMembers(g: Grid, c: TeamColor, inCheck: (Grid, TeamColor) -> bool, moves: seq<Move>, m: Move)
    requires forall m | m in moves :: MoveDefined(g, m)
    ensures m in SafeMoves(g, c, inCheck, moves) <==> m in moves && !inCheck(UnsafeMoved(g, m), c)
  {
    if moves != [] {
      var init := moves[..|moves| - 1];
      assert moves == init + [moves[|moves| - 1]];
      SafeMovesMembers(g, c, inCheck, init, m);
    }
  }

  /** The kept moves keep their original order. */
  lemma {:induction false} SafeMovesInOrder(g: Grid, c: TeamColor, inCheck: (Grid, TeamColor) -> bool, moves: seq<Move>)
    requires forall m | m in moves :: MoveDefined(g, m)
    ensures Subsequence(SafeMoves(g, c, inCheck, moves), moves)
  {
    if moves != [] {
      var init := moves[..|moves| - 1];
      var last := moves[|moves| - 1];
      assert forall m | m in init :: m in moves;
      SafeMovesInOrder(g, c, inCheck, init);
      var s := SafeMoves(g, c, inCheck, init);
      if inCheck(UnsafeMoved(g, last), c) {
        assert SafeMoves(g, c, inCheck, moves) == s;
      } else {
        var r := SafeMoves(g, c, inCheck, moves);
        assert r == s + [last];
        assert r[..|r| - 1] == s;
      }
    }
  }

  /** No move of colour c survives the filter exactly when every one of
      them leaves c in check. */
  lemma NoSafeMove(g: Grid, c: TeamColor, inCheck: (Grid, TeamColor) -> bool)
    requires forall m | m in AllMoves(g, c) :: MoveDefined(g, m)
    ensures SafeMoves(g, c, inCheck, AllMoves(g, c)) == [] <==>
              forall m | m in AllMoves(g, c) :: inCheck(UnsafeMoved(g, m), c)
  {
    var s := SafeMoves(g, c, inCheck, AllMoves(g, c));
    forall m | m in AllMoves(g, c)
      ensures m in s <==> !inCheck(UnsafeMoved(g, m), c)
    {
      SafeMovesMembers(g, c, inCheck, AllMoves(g, c), m);
    }
    if s != [] {
      SafeMovesMembers(g, c, inCheck, AllMoves(g, c), s[0]);
    }
  }
}
