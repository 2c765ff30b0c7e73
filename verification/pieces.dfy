/** The move generators of a piece. Each one reads the board through
    GetPiece, appends to a local list, never changes the board, and returns
    exactly the list that the Geometry function of the same name describes. */
module Pieces {
  import opened Types
  import opened Board
  import Geometry

  /** Dispatches on the receiver's kind; the generators read the mover's
      colour from the board at myPosition, which must therefore hold a piece. */
  method PieceMoves(piece: Piece, board: ChessBoard, myPosition: Position) returns (moves: seq<Move>)
    requires board.Valid() && Occupied(board.Grid(), myPosition)
    ensures moves == Geometry.PieceMoves(piece.pieceType, board.Grid(), myPosition)
  {
    match piece.pieceType
    case King => moves := KingMoves(board, myPosition);
    case Queen => moves := QueenMoves(board, myPosition);
    case Bishop => moves := BishopMoves(board, myPosition);
    case Knight => moves := KnightMoves(board, myPosition);
    case Rook => moves := RookMoves(board, myPosition);
    case Pawn => moves := PawnMoves(board, myPosition);
  }

  /** One rook probe at distance `count` along d. `open` says that the
      squares before it are on the board and empty; the returned flag says
      the same of the squares up to and including it. */
  method RookProbe(board: ChessBoard, ghost g: Grid, origin: Position, myColor: TeamColor, d: Geometry.Dir, count: int, open: bool)
    returns (emitted: seq<Move>, stillOpen: bool)
    requires board.Valid() && g == board.Grid() && OnBoard(origin) && count >= 1
    requires open == Geometry.Open(g, origin, d, count - 1)
    ensures emitted == Geometry.Hit(g, origin, myColor, d, count)
    ensures stillOpen == Geometry.Open(g, origin, d, count)
  {
    var target := Geometry.Step(origin, d, count);
    emitted, stillOpen := [], false;
    if OnBoard(target) {
      if open {
        var occupant := board.GetPiece(target);
        if occupant.None? {
          emitted, stillOpen := [Move(origin, target, None)], true;
        } else if occupant.value.color != myColor {
          emitted := [Move(origin, target, None)];
        }
      }
    }
    assert !open ==> !Geometry.Open(g, origin, d, count) by {
      if Geometry.Open(g, origin, d, count) {
        Geometry.OpenShrinks(g, origin, d, count, count - 1);
      }
    }
  }

  /** One round of the rook loop: the probes at distance `count` in the
      order forward, backward, right, left, and the updated open flags. */
  method RookRound(board: ChessBoard, ghost g: Grid, origin: Position, myColor: TeamColor, count: int,
                   forward: bool, backward: bool, right: bool, left: bool)
    returns (layer: seq<Move>, forward': bool, backward': bool, right': bool, left': bool)
    requires board.Valid() && g == board.Grid() && OnBoard(origin) && count >= 1
    requires forward == Geometry.Open(g, origin, Geometry.Forward, count - 1)
    requires backward == Geometry.Open(g, origin, Geometry.Backward, count - 1)
    requires right == Geometry.Open(g, origin, Geometry.Rightward, count - 1)
    requires left == Geometry.Open(g, origin, Geometry.Leftward, count - 1)
    ensures layer == Geometry.RookLayer(g, origin, myColor, count)
    ensures forward' == Geometry.Open(g, origin, Geometry.Forward, count)
    ensures backward' == Geometry.Open(g, origin, Geometry.Backward, count)
    ensures right' == Geometry.Open(g, origin, Geometry.Rightward, count)
    ensures left' == Geometry.Open(g, origin, Geometry.Leftward, count)
  {
    var f, b, r, l;
    f, forward' := RookProbe(board, g, origin, myColor, Geometry.Forward, count, forward);
    b, backward' := RookProbe(board, g, origin, myColor, Geometry.Backward, count, backward);
    r, right' := RookProbe(board, g, origin, myColor, Geometry.Rightward, count, right);
    l, left' := RookProbe(board, g, origin, myColor, Geometry.Leftward, count, left);
    layer := f + b + r + l;
  }

  /** Walks the four rook directions together, one distance per round, each
      direction until the board edge or its first piece. */
  method RookMoves(board: ChessBoard, myPosition: Position) returns (rookMoves: seq<Move>)
    requires board.Valid() && Occupied(board.Grid(), myPosition)
    ensures rookMoves == Geometry.RookMoves(board.Grid(), myPosition)
  {
    ghost var g := board.Grid();
    rookMoves := [];
    var myColor := board.GetPiece(myPosition).value.color;
    var count := 1;
    var forward, backward, left, right := true, true, true, true;
    while count <= 7
      invariant 1 <= count <= 8
      invariant rookMoves == Geometry.RookSweep(g, myPosition, myColor, count - 1)
      invariant forward == Geometry.Open(g, myPosition, Geometry.Forward, count - 1)
      invariant backward == Geometry.Open(g, myPosition, Geometry.Backward, count - 1)
      invariant right == Geometry.Open(g, myPosition, Geometry.Rightward, count - 1)
      invariant left == Geometry.Open(g, myPosition, Geometry.Leftward, count - 1)
    {
      var layer;
      layer, forward, backward, right, left := RookRound(board, g, myPosition, myColor, count, forward, backward, right, left);
      rookMoves := rookMoves + layer;
      count := count + 1;
    }
  }

  /** Walks one diagonal from origin until the board edge or the first
      piece, which is included when it is an opponent's. */
  method WalkDiagonal(board: ChessBoard, ghost g: Grid, origin: Position, myColor: TeamColor, d: Geometry.Dir)
    returns (moves: seq<Move>)
    requires board.Valid() && g == board.Grid() && OnBoard(origin) && Geometry.IsRay(d)
    ensures moves == Geometry.Ray(g, origin, myColor, d, 7)
  {
    moves := [];
    var count := 1;
    while OnBoard(Geometry.Step(origin, d, count))
      invariant 1 <= count <= 8
      invariant Geometry.Open(g, origin, d, count - 1)
      invariant moves == Geometry.Ray(g, origin, myColor, d, count - 1)
      decreases 8 - count
    {
      var newPosition := Geometry.Step(origin, d, count);
      var occupant := board.GetPiece(newPosition);
      if occupant.None? {
        moves := moves + [Move(origin, newPosition, None)];
      } else if occupant.value.color != myColor {
        moves := moves + [Move(origin, newPosition, None)];
        Geometry.RayStops(g, origin, myColor, d, count, 7);
        break;
      } else {
        Geometry.RayStops(g, origin, myColor, d, count, 7);
        break;
      }
      count := count + 1;
      if count == 8 {
        Geometry.StepLeavesBoard(origin, d, count);
      }
    }
    if count <= 7 && !OnBoard(Geometry.Step(origin, d, count)) {
      Geometry.RayStops(g, origin, myColor, d, count, 7);
    }
  }

  /** The four diagonals in the order (+,+), (+,-), (-,+), (-,-). */
  method BishopMoves(board: ChessBoard, myPosition: Position) returns (bishopMoves: seq<Move>)
    requires board.Valid() && Occupied(board.Grid(), myPosition)
    ensures bishopMoves == Geometry.BishopMoves(board.Grid(), myPosition)
  {
    ghost var g := board.Grid();
    var myColor := board.GetPiece(myPosition).value.color;
    var upRight := WalkDiagonal(board, g, myPosition, myColor, Geometry.UpRight);
    var upLeft := WalkDiagonal(board, g, myPosition, myColor, Geometry.UpLeft);
    var downRight := WalkDiagonal(board, g, myPosition, myColor, Geometry.DownRight);
    var downLeft := WalkDiagonal(board, g, myPosition, myColor, Geometry.DownLeft);
    bishopMoves := upRight + upLeft + downRight + downLeft;
  }

  /** The rook's moves followed by the bishop's moves. */
  method QueenMoves(board: ChessBoard, myPosition: Position) returns (queenMoves: seq<Move>)
    requires board.Valid() && Occupied(board.Grid(), myPosition)
    ensures queenMoves == Geometry.RookMoves(board.Grid(), myPosition) + Geometry.BishopMoves(board.Grid(), myPosition)
  {
    var rookMoves := RookMoves(board, myPosition);
    var bishopMoves := BishopMoves(board, myPosition);
    queenMoves := rookMoves + bishopMoves;
  }

  /** Appends the move to offset o when that square is on the board and
      empty or held by an opponent. o is entry i of an offset table whose
      first i hops have been appended already. */
  method TryHop(board: ChessBoard, ghost g: Grid, origin: Position, myColor: TeamColor, o: Geometry.Dir,
                ghost offsets: seq<Geometry.Dir>, ghost i: nat, moves: seq<Move>)
    returns (moves': seq<Move>)
    requires board.Valid() && g == board.Grid()
    requires i < |offsets| && o == offsets[i] && moves == Geometry.Hops(g, origin, myColor, offsets, i)
    ensures moves' == Geometry.Hops(g, origin, myColor, offsets, i + 1)
  {
    moves' := moves;
    var newPosition := Geometry.Shift(origin, o);
    if OnBoard(newPosition) {
      var occupant := board.GetPiece(newPosition);
      if occupant.None? || occupant.value.color != myColor {
        moves' := moves + [Move(origin, newPosition, None)];
      }
    }
  }

  /** The eight knight offsets in table order. */
  method KnightMoves(board: ChessBoard, myPosition: Position) returns (knightMoves: seq<Move>)
    requires board.Valid() && Occupied(board.Grid(), myPosition)
    ensures knightMoves == Geometry.KnightMoves(board.Grid(), myPosition)
  {
    ghost var g := board.Grid();
    ghost var table := Geometry.KnightOffsets;
    var myColor := board.GetPiece(myPosition).value.color;
    knightMoves := [];
    knightMoves := TryHop(board, g, myPosition, myColor, Geometry.Dir(2, 1), table, 0, knightMoves);
    knightMoves := TryHop(board, g, myPosition, myColor, Geometry.Dir(2, -1), table, 1, knightMoves);
    knightMoves := TryHop(board, g, myPosition, myColor, Geometry.Dir(1, 2), table, 2, knightMoves);
    knightMoves := TryHop(board, g, myPosition, myColor, Geometry.Dir(1, -2), table, 3, knightMoves);
    knightMoves := TryHop(board, g, myPosition, myColor, Geometry.Dir(-1, 2), table, 4, knightMoves);
    knightMoves := TryHop(board, g, myPosition, myColor, Geometry.Dir(-1, -2), table, 5, knightMoves);
    knightMoves := TryHop(board, g, myPosition, myColor, Geometry.Dir(-2, 1), table, 6, knightMoves);
    knightMoves := TryHop(board, g, myPosition, myColor, Geometry.Dir(-2, -1), table, 7, knightMoves);
  }

  /** The eight king offsets in table order. */
  method KingMoves(board: ChessBoard, myPosition: Position) returns (kingMoves: seq<Move>)
    requires board.Valid() && Occupied(board.Grid(), myPosition)
    ensures kingMoves == Geometry.KingMoves(board.Grid(), myPosition)
  {
    ghost var g := board.Grid();
    ghost var table := Geometry.KingOffsets;
    var myColor := board.GetPiece(myPosition).value.color;
    kingMoves := [];
    kingMoves := TryHop(board, g, myPosition, myColor, Geometry.Dir(1, 0), table, 0, kingMoves);
    kingMoves := TryHop(board, g, myPosition, myColor, Geometry.Dir(-1, 0), table, 1, kingMoves);
    kingMoves := TryHop(board, g, myPosition, myColor, Geometry.Dir(0, 1), table, 2, kingMoves);
    kingMoves := TryHop(board, g, myPosition, myColor, Geometry.Dir(0, -1), table, 3, kingMoves);
    kingMoves := TryHop(board, g, myPosition, myColor, Geometry.Dir(1, 1), table, 4, kingMoves);
    kingMoves := TryHop(board, g, myPosition, myColor, Geometry.Dir(1, -1), table, 5, kingMoves);
    kingMoves := TryHop(board, g, myPosition, myColor, Geometry.Dir(-1, 1), table, 6, kingMoves);
    kingMoves := TryHop(board, g, myPosition, myColor, Geometry.Dir(-1, -1), table, 7, kingMoves);
  }

  /** Pawn movement is not generated: the list is always empty, although
      the mover's colour is still read from the board. */
  method PawnMoves(board: ChessBoard, myPosition: Position) returns (pawnMoves: seq<Move>)
    requires board.Valid() && Occupied(board.Grid(), myPosition)
    ensures pawnMoves == []
  {
    pawnMoves := [];
    var myColor := board.GetPiece(myPosition).value.color;
  }
}
