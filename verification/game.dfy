/** A game: the side to move and a board that the rules mutate in place.
    The check test is not implemented by the game itself; it is supplied as
    the function `inCheck` on board contents when the game is created. */
module Game {
  import opened Types
  import opened Board
  import Geometry
  import Pieces
  import opened Rules

  class ChessGame {
    var teamTurn: TeamColor
    var board: ChessBoard
    /** Whether the given colour is in check on the given grid. */
    const inCheck: (Grid, TeamColor) -> bool

    ghost predicate Valid()
      reads this, board
    {
      board.Valid()
    }

    /** A new game has White to move and a fresh board in the standard
        opening. */
    constructor (inCheck: (Grid, TeamColor) -> bool)
      ensures Valid() && fresh(board) && fresh(board.squares)
      ensures teamTurn == White && board.Grid() == StartGrid()
      ensures this.inCheck == inCheck
    {
      teamTurn := White;
      this.inCheck := inCheck;
      board := new ChessBoard();
      new;
      board.ResetBoard();
    }

    function GetTeamTurn(): TeamColor
      reads this
    {
      teamTurn
    }

    /** Sets the side to move; the next GetTeamTurn returns it. */
    method SetTeamTurn(team: TeamColor)
      modifies this
      ensures GetTeamTurn() == team
      ensures board == old(board)
    {
      teamTurn := team;
    }

    /** Hands the move to the side other than currentTurn. */
    method SwitchTeams(currentTurn: TeamColor)
      modifies this
      ensures teamTurn != currentTurn
      ensures board == old(board)
    {
      if currentTurn == White {
        teamTurn := Black;
      } else {
        teamTurn := White;
      }
    }

    /** Replaces the board the game plays on. */
    method SetBoard(b: ChessBoard)
      modifies this
      ensures board == b && teamTurn == old(teamTurn)
    {
      board := b;
    }

    function GetBoard(): ChessBoard
      reads this
    {
      board
    }

    /** Whether colour c is in check on the current board. */
    function IsInCheck(c: TeamColor): (r: bool)
      reads this, board, board.squares
      requires Valid()
      ensures r == inCheck(board.Grid(), c)
    {
      inCheck(board.Grid(), c)
    }

    /** Every pseudo-legal move of colour c, scanning rows 1 to 8 and in each
        row columns 1 to 8, without changing the board. */
    method PossibleMoves(color: TeamColor) returns (possibleMoves: seq<Move>)
      requires Valid()
      ensures possibleMoves == AllMoves(board.Grid(), color)
    {
      ghost var g := board.Grid();
      possibleMoves := [];
      for i := 1 to 9
        invariant possibleMoves == RowsMoves(g, color, i - 1)
      {
        var rowMoves := RowPossibleMoves(g, color, i);
        possibleMoves := possibleMoves + rowMoves;
      }
    }

    /** The inner loop of PossibleMoves: the moves of colour `color` from
        row i, column 1 to column 8. */
    method RowPossibleMoves(ghost g: Grid, color: TeamColor, i: int) returns (rowMoves: seq<Move>)
      requires Valid() && g == board.Grid() && 1 <= i <= 8
      ensures rowMoves == RowMoves(g, color, i, 8)
    {
      rowMoves := [];
      for j := 1 to 9
        invariant rowMoves == RowMoves(g, color, i, j - 1)
      {
        var boardPosition := Position(i, j);
        var occupant := board.GetPiece(boardPosition);
        if occupant.Some? {
          if occupant.value.color == color {
            var moves := Pieces.PieceMoves(occupant.value, board, boardPosition);
            rowMoves := rowMoves + moves;
          }
        }
      }
    }

    /** Plays m without any legality check; the board afterwards is
        UnsafeMoved of the board before. */
    method UnsafeMove(move: Move)
      requires Valid() && MoveDefined(board.Grid(), move)
      modifies board.squares
      ensures board.Grid() == UnsafeMoved(old(board.Grid()), move)
    {
      var start := move.start;
      var occupant := board.GetPiece(start);
      if occupant.Some? {
        var myPiece := occupant.value;
        var color := myPiece.color;
        if myPiece.pieceType == Pawn {
          if (color == White && move.end.row == 8) || (color == Black && move.end.row == 1) {
            board.AddPiece(start, None);
            board.AddPiece(move.end, Some(Piece(color, move.promotion.value)));
          }
        } else {
          board.AddPiece(move.end, Some(Piece(color, myPiece.pieceType)));
          board.AddPiece(start, None);
        }
      }
    }

    /** Plays m, asks whether teamColor is then in check, plays m backwards
        and puts the end square's former occupant back. The answer is the
        check test on the moved board; the board is left as Probed
        describes, which is the board before whenever m starts on a piece
        other than a pawn. */
    method MovePutsInCheck(teamColor: TeamColor, move: Move) returns (r: bool)
      requires Valid() && ProbeDefined(board.Grid(), move)
      modifies board.squares
      ensures r == inCheck(UnsafeMoved(old(board.Grid()), move), teamColor)
      ensures board.Grid() == Probed(old(board.Grid()), move)
      ensures Restorable(old(board.Grid()), move) ==> board.Grid() == old(board.Grid())
    {
      ghost var g := board.Grid();
      var destPiece := board.GetPiece(move.end);
      UnsafeMove(move);
      var undo := Move(move.end, move.start, move.promotion);
      assert undo == Undo(move);
      if IsInCheck(teamColor) {
        UnsafeMove(undo);
        board.AddPiece(move.end, destPiece);
        r := true;
      } else {
        UnsafeMove(undo);
        board.AddPiece(move.end, destPiece);
        r := false;
      }
      if Restorable(g, move) {
        ProbeRestores(g, move);
      }
    }

    /** Keeps, in order, the moves after which teamColor is not in check.
        Every move starts on a piece other than a pawn, so each probe leaves
        the board as it was. */
    method KeepSafe(teamColor: TeamColor, moves: seq<Move>) returns (kept: seq<Move>)
      requires Valid() && forall m | m in moves :: MoveDefined(board.Grid(), m) && Restorable(board.Grid(), m)
      modifies board.squares
      ensures kept == SafeMoves(old(board.Grid()), teamColor, inCheck, moves)
      ensures board.Grid() == old(board.Grid())
    {
      ghost var g := board.Grid();
      kept := [];
      for k := 0 to |moves|
        invariant board.Grid() == g
        invariant kept == SafeMoves(g, teamColor, inCheck, moves[..k])
      {
        var move := moves[k];
        ProbeRestores(g, move);
        var putsInCheck := MovePutsInCheck(teamColor, move);
        if !putsInCheck {
          kept := kept + [move];
        }
        assert moves[..k + 1][..k] == moves[..k];
      }
      assert moves[..|moves|] == moves;
    }

    /** The moves of the piece on startPosition after which its colour is
        not in check, in generation order; the board is left unchanged. */
    method ValidMoves(startPosition: Position) returns (validMoves: seq<Move>)
      requires Valid() && Occupied(board.Grid(), startPosition)
      modifies board.squares
      ensures var c := ColorAt(old(board.Grid()), startPosition);
              validMoves == SafeMoves(old(board.Grid()), c, inCheck, SquareMoves(old(board.Grid()), c, startPosition))
      ensures board.Grid() == old(board.Grid())
    {
      ghost var g := board.Grid();
      var piece := board.GetPiece(startPosition).value;
      var possibleMoves := Pieces.PieceMoves(piece, board, startPosition);
      assert possibleMoves == SquareMoves(g, piece.color, startPosition);
      validMoves := KeepSafe(piece.color, possibleMoves);
    }

    /** teamColor is checkmated when it is in check and every one of its
        pseudo-legal moves leaves it in check; the board is left unchanged. */
    method IsInCheckmate(teamColor: TeamColor) returns (r: bool)
      requires Valid()
      modifies board.squares
      ensures r <==> inCheck(old(board.Grid()), teamColor)
                     && forall m | m in AllMoves(old(board.Grid()), teamColor) ::
                          inCheck(UnsafeMoved(old(board.Grid()), m), teamColor)
      ensures board.Grid() == old(board.Grid())
    {
      ghost var g := board.Grid();
      var possibleMoves := PossibleMoves(teamColor);
      possibleMoves := KeepSafe(teamColor, possibleMoves);
      NoSafeMove(g, teamColor, inCheck);
      r := |possibleMoves| == 0 && IsInCheck(teamColor);
    }

    /** Two games are equal when they have the same side to move and equal
        boards square by square. */
    function Equals(that: ChessGame): (r: bool)
      reads this, board, board.squares, that, that.board, that.board.squares
      requires Valid() && that.Valid()
      ensures r <==> teamTurn == that.teamTurn
                     && forall q :: OnBoard(q) ==> At(board.Grid(), q) == At(that.board.Grid(), q)
    {
      teamTurn == that.teamTurn && board.Equals(that.board)
    }
  }
}
