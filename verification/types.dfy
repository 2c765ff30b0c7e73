/** Values shared by the whole chess core: colours, piece kinds, pieces,
    positions, moves, and the 8x8 grid of optional pieces that a board holds. */
module Types {

  datatype Option<+T> = None | Some(value: T)

  /** The two sides of a game. */
  datatype TeamColor = White | Black

  /** The six kinds of chess piece. */
  datatype PieceType = King | Queen | Bishop | Knight | Rook | Pawn

  /** An immutable piece. */
  datatype Piece = Piece(color: TeamColor, pieceType: PieceType)
  {
    /** Two pieces are equal exactly when their colours and kinds are. */
    function Equals(that: Piece): (r: bool)
      ensures r <==> color == that.color && pieceType == that.pieceType
    {
      this == that
    }
  }

  /** A square, with 1-based row and column. */
  datatype Position = Position(row: int, col: int)

  /** A move from start to end; promotion is absent for every move the
      generators produce. */
  datatype Move = Move(start: Position, end: Position, promotion: Option<PieceType>)

  /** A square's occupant: None is an empty square. */
  type Square = Option<Piece>

  predicate OnBoard(p: Position) {
    1 <= p.row <= 8 && 1 <= p.col <= 8
  }

  predicate IsGrid(g: seq<seq<Square>>) {
    |g| == 8 && forall i | 0 <= i < 8 :: |g[i]| == 8
  }

  /** The contents of a board: row r, column c is g[r - 1][c - 1]. */
  type Grid = g: seq<seq<Square>> | IsGrid(g)
    witness [EmptyRow, EmptyRow, EmptyRow, EmptyRow, EmptyRow, EmptyRow, EmptyRow, EmptyRow]

  const EmptyRow: seq<Square> := [None, None, None, None, None, None, None, None]

  /** The grid with no pieces at all. */
  const EmptyGrid: Grid := [EmptyRow, EmptyRow, EmptyRow, EmptyRow, EmptyRow, EmptyRow, EmptyRow, EmptyRow]

  function At(g: Grid, p: Position): Square
    requires OnBoard(p)
  {
    g[p.row - 1][p.col - 1]
  }

  /** The grid with square p set to x and every other square kept. */
  function Put(g: Grid, p: Position, x: Square): (r: Grid)
    requires OnBoard(p)
    ensures forall q :: OnBoard(q) ==> At(r, q) == if q == p then x else At(g, q)
  {
    g[p.row - 1 := g[p.row - 1][p.col - 1 := x]]
  }

  /** True when q holds a piece of colour c. */
  predicate Friendly(g: Grid, q: Position, c: TeamColor)
    requires OnBoard(q)
  {
    At(g, q).Some? && At(g, q).value.color == c
  }

  predicate Occupied(g: Grid, p: Position) {
    OnBoard(p) && At(g, p).Some?
  }

  /** The colour of the piece standing on p. */
  function ColorAt(g: Grid, p: Position): TeamColor
    requires Occupied(g, p)
  {
    At(g, p).value.color
  }

  /** A grid whose only piece is `piece` on p. */
  function Lone(p: Position, piece: Piece): (r: Grid)
    requires OnBoard(p)
    ensures forall q :: OnBoard(q) ==> At(r, q) == if q == p then Some(piece) else None
  {
    Put(EmptyGrid, p, Some(piece))
  }

  /** Two grids are equal exactly when they agree on all 64 squares. */
  lemma GridEquality(a: Grid, b: Grid)
    ensures a == b <==> forall q :: OnBoard(q) ==> At(a, q) == At(b, q)
  {
    if forall q :: OnBoard(q) ==> At(a, q) == At(b, q) {
      forall i | 0 <= i < 8
        ensures a[i] == b[i]
      {
        forall j | 0 <= j < 8
          ensures a[i][j] == b[i][j]
        {
          assert At(a, Position(i + 1, j + 1)) == At(b, Position(i + 1, j + 1));
        }
      }
    }
  }
}
