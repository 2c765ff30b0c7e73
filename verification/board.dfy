/** The board: an 8x8 array of optional pieces addressed with 1-based
    positions, point get and set, and the standard opening layout. */
module Board {
  import opened Types

  /** The back-rank kinds, column 1 to column 8. */
  const BackRank: seq<PieceType> := [Rook, Knight, Bishop, Queen, King, Bishop, Knight, Rook]

  /** The row of a colour's back rank: 1 for White, 8 for Black. */
  function HomeRow(c: TeamColor): int {
    if c == White then 1 else 8
  }

  /** The occupant of row r, column c in the standard opening. */
  function StartSquare(r: int, c: int): Square
    requires 1 <= c <= 8
  {
    if r == 1 then Some(Piece(White, BackRank[c - 1]))
    else if r == 2 then Some(Piece(White, Pawn))
    else if r == 7 then Some(Piece(Black, Pawn))
    else if r == 8 then Some(Piece(Black, BackRank[c - 1]))
    else None
  }

  /** The standard opening position. */
  function StartGrid(): (g: Grid)
    ensures forall q :: OnBoard(q) ==> At(g, q) == StartSquare(q.row, q.col)
    ensures forall q :: OnBoard(q) && 3 <= q.row <= 6 ==> At(g, q) == None
    ensures forall q :: OnBoard(q) && q.row == 2 ==> At(g, q) == Some(Piece(White, Pawn))
    ensures forall q :: OnBoard(q) && q.row == 7 ==> At(g, q) == Some(Piece(Black, Pawn))
    ensures forall c: TeamColor, q :: OnBoard(q) && q.row == HomeRow(c) ==>
              At(g, q) == Some(Piece(c, BackRank[q.col - 1]))
  {
    seq(8, i requires 0 <= i < 8 => StartRow(i + 1))
  }

  function StartRow(r: int): (row: seq<Square>)
    ensures |row| == 8 && forall j | 0 <= j < 8 :: row[j] == StartSquare(r, j + 1)
  {
    seq(8, j requires 0 <= j < 8 => StartSquare(r, j + 1))
  }

  /** What a square count counts. */
  datatype Criterion = AnyPiece | ThisPiece(piece: Piece)

  predicate Matches(cr: Criterion, s: Square) {
    match cr
    case AnyPiece => s.Some?
    case ThisPiece(p) => s == Some(p)
  }

  /** The number of squares among r[0..n] that match cr. */
  function CountInRow(r: seq<Square>, cr: Criterion, n: nat): nat
    requires n <= |r|
  {
    if n == 0 then 0 else CountInRow(r, cr, n - 1) + (if Matches(cr, r[n - 1]) then 1 else 0)
  }

  /** The number of squares in the first n rows of g that match cr. */
  function CountInRows(g: Grid, cr: Criterion, n: nat): nat
    requires n <= 8
  {
    if n == 0 then 0 else CountInRows(g, cr, n - 1) + CountInRow(g[n - 1], cr, 8)
  }

  function Count(g: Grid, cr: Criterion): nat {
    CountInRows(g, cr, 8)
  }

  lemma {:induction false} CountAllInRow(r: seq<Square>, cr: Criterion, n: nat)
    requires n <= |r|
    requires forall j | 0 <= j < n :: Matches(cr, r[j])
    ensures CountInRow(r, cr, n) == n
  {
    if n > 0 {
      CountAllInRow(r, cr, n - 1);
    }
  }

  lemma {:induction false} CountNoneInRow(r: seq<Square>, cr: Criterion, n: nat)
    requires n <= |r|
    requires forall j | 0 <= j < n :: !Matches(cr, r[j])
    ensures CountInRow(r, cr, n) == 0
  {
    if n > 0 {
      CountNoneInRow(r, cr, n - 1);
    }
  }

  lemma {:induction false} CountOneInRow(r: seq<Square>, cr: Criterion, n: nat, k: nat)
    requires k < n <= |r|
    requires Matches(cr, r[k])
    requires forall j | 0 <= j < n && j != k :: !Matches(cr, r[j])
    ensures CountInRow(r, cr, n) == 1
  {
    if n - 1 == k {
      CountNoneInRow(r, cr, n - 1);
    } else {
      CountOneInRow(r, cr, n - 1, k);
    }
  }

  /** The opening has 32 pieces. */
  lemma StartPopulation()
    ensures Count(StartGrid(), AnyPiece) == 32
  {
    var g := StartGrid();
    forall i | 0 <= i < 8
      ensures CountInRow(g[i], AnyPiece, 8) == if 2 <= i <= 5 then 0 else 8
    {
      if 2 <= i <= 5 {
        forall j | 0 <= j < 8 ensures !Matches(AnyPiece, g[i][j]) {
          assert At(g, Position(i + 1, j + 1)) == g[i][j];
        }
        CountNoneInRow(g[i], AnyPiece, 8);
      } else {
        forall j | 0 <= j < 8 ensures Matches(AnyPiece, g[i][j]) {
          assert At(g, Position(i + 1, j + 1)) == g[i][j];
        }
        CountAllInRow(g[i], AnyPiece, 8);
      }
    }
  }

  /** The opening has exactly one king of each colour, on column 5 of its
      home row. */
  lemma StartKings(c: TeamColor)
    ensures Count(StartGrid(), ThisPiece(Piece(c, King))) == 1
    ensures At(StartGrid(), Position(HomeRow(c), 5)) == Some(Piece(c, King))
  {
    var g := StartGrid();
    var cr := ThisPiece(Piece(c, King));
    forall i | 0 <= i < 8
      ensures CountInRow(g[i], cr, 8) == if i + 1 == HomeRow(c) then 1 else 0
    {
      forall j | 0 <= j < 8
        ensures Matches(cr, g[i][j]) <==> i + 1 == HomeRow(c) && j == 4
      {
        assert At(g, Position(i + 1, j + 1)) == g[i][j];
      }
      if i + 1 == HomeRow(c) {
        CountOneInRow(g[i], cr, 8, 4);
      } else {
        CountNoneInRow(g[i], cr, 8);
      }
    }
  }

  /** A mutable board. The grid is reallocated by ResetBoard and written in
      place by AddPiece. */
  class ChessBoard {
    var squares: array2<Square>

    ghost predicate Valid()
      reads this
    {
      squares.Length0 == 8 && squares.Length1 == 8
    }

    /** The board's contents as a value. */
    function Grid(): Grid
      reads this, squares
      requires Valid()
    {
      var a := squares;
      seq(8, i requires 0 <= i < 8 reads a => seq(8, j requires 0 <= j < 8 reads a => a[i, j]))
    }

    /** A new board holds the standard opening. */
    constructor ()
      ensures Valid() && fresh(squares)
      ensures Grid() == StartGrid()
    {
      squares := new Square[8, 8]((i, j) => None);
      new;
      ResetBoard();
    }

    /** Puts x (None empties the square) on p; no other square changes. */
    method AddPiece(p: Position, x: Square)
      requires Valid() && OnBoard(p)
      modifies squares
      ensures Grid() == Put(old(Grid()), p, x)
    {
      squares[p.row - 1, p.col - 1] := x;
      GridEquality(Grid(), Put(old(Grid()), p, x));
    }

    /** The occupant of p. */
    function GetPiece(p: Position): (s: Square)
      reads this, squares
      requires Valid() && OnBoard(p)
      ensures s == At(Grid(), p)
    {
      squares[p.row - 1, p.col - 1]
    }

    /** Replaces the grid by a fresh one holding the standard opening,
        whatever the board held before. */
    method ResetBoard()
      modifies this
      ensures Valid() && fresh(squares)
      ensures Grid() == StartGrid()
    {
      squares := new Square[8, 8]((i, j) => None);
      AddPawns();
      AddBackRank(White);
      AddBackRank(Black);
      GridEquality(Grid(), StartGrid());
    }

    /** Fills one colour's home row with rook, knight, bishop, queen, king,
        bishop, knight, rook. */
    method AddBackRank(color: TeamColor)
      requires Valid()
      modifies squares
      ensures forall q :: OnBoard(q) ==>
                At(Grid(), q) == if q.row == HomeRow(color) then Some(Piece(color, BackRank[q.col - 1]))
                                 else old(At(Grid(), q))
    {
      var row;
      if color == White { row := 1; } else { row := 8; }
      AddPiece(Position(row, 1), Some(Piece(color, Rook)));
      AddPiece(Position(row, 8), Some(Piece(color, Rook)));
      AddPiece(Position(row, 2), Some(Piece(color, Knight)));
      AddPiece(Position(row, 7), Some(Piece(color, Knight)));
      AddPiece(Position(row, 3), Some(Piece(color, Bishop)));
      AddPiece(Position(row, 6), Some(Piece(color, Bishop)));
      AddPiece(Position(row, 4), Some(Piece(color, Queen)));
      AddPiece(Position(row, 5), Some(Piece(color, King)));
    }

    /** Puts a white pawn on every square of row 2 and a black pawn on every
        square of row 7. */
    method AddPawns()
      requires Valid()
      modifies squares
      ensures forall q :: OnBoard(q) ==>
                At(Grid(), q) == if q.row == 2 then Some(Piece(White, Pawn))
                                 else if q.row == 7 then Some(Piece(Black, Pawn))
                                 else old(At(Grid(), q))
    {
      for col := 1 to 9
        invariant forall q :: OnBoard(q) ==>
                    At(Grid(), q) == if q.row == 2 && q.col < col then Some(Piece(White, Pawn))
                                     else if q.row == 7 && q.col < col then Some(Piece(Black, Pawn))
                                     else old(At(Grid(), q))
      {
        AddPiece(Position(2, col), Some(Piece(White, Pawn)));
        AddPiece(Position(7, col), Some(Piece(Black, Pawn)));
      }
    }

    /** Boards are equal when every one of the 64 squares holds equal
        occupants. */
    function Equals(that: ChessBoard): (r: bool)
      reads this, squares, that, that.squares
      requires Valid() && that.Valid()
      ensures r <==> forall q :: OnBoard(q) ==> At(Grid(), q) == At(that.Grid(), q)
    {
      GridEquality(Grid(), that.Grid());
      Grid() == that.Grid()
    }
  }
}
