# Chess rules core, modelled in Dafny

This project models the rules core of a small chess engine: pieces, the board and the game.

- **Pieces.** A piece has a colour (White or Black) and a kind (king, queen, bishop, knight, rook, pawn). Each kind has a move generator. It reads the board and lists the pseudo-legal moves from an occupied square. The mover's colour always comes from the board at that square.
  - Rook and bishop walk rays. Each ray stops at the edge of the board or at the first occupied square, and includes that square only when it holds an opponent.
  - Queen is rook moves followed by bishop moves.
  - Knight and king use fixed tables of eight offsets.
  - Pawn generates nothing.
- **Board.** An 8x8 grid of optional pieces, addressed with 1-based row and column. It has point get and set operations and a reset to the standard opening.
- **Game.** It holds the side to move and a board. It can:
  - collect every pseudo-legal move of a colour;
  - play a move without checks (`UnsafeMove`);
  - probe whether a move leaves the mover in check by playing it, asking, playing it backwards and putting the captured piece back (`MovePutsInCheck`);
  - filter a piece's moves with that probe (`ValidMoves`);
  - decide checkmate.

The game never implements the check test itself. In the model it is a function `inCheck` from board contents and colour to a boolean, given to the game when it is created. Everything about validity and checkmate is proved for every such function.

The modules are:

- `Types` (types.dfy): colours, kinds, pieces, positions, moves, and the `Grid` value (an 8x8 sequence) that a board holds.
- `Board` (board.dfy): the class `ChessBoard` over an `array2`, the opening layout, and counts of pieces.
- `Geometry` (geometry.dfy): what each generator produces, as functions of a grid and a square, and the properties of those move lists.
- `Pieces` (pieces.dfy): the generators as methods that read a `ChessBoard`. Each is proved equal to its `Geometry` function.
- `Rules` (rules.dfy): as functions of a grid, the effect of an unchecked move, the board the probe leaves behind, all moves of a colour, and the check filter.
- `Game` (game.dfy): the class `ChessGame`. Its methods mutate the board in place and are proved against the `Rules` functions.

The source's documentation says `validMoves` answers `null` when there is no piece on the square. The code instead dereferences the missing piece and fails. The model follows the code, so `ValidMoves` requires a piece.

## Model

| member | source | states |
|---|---|---|
| Types.Piece.Equals | shared/src/main/java/chess/ChessPiece.java:364-374 | two pieces are equal exactly when their colours and kinds are equal |
| Types.Put | shared/src/main/java/chess/ChessBoard.java:24-27 | writing square p gives p the new occupant and keeps every other square |
| Types.GridEquality | shared/src/main/java/chess/ChessBoard.java:86-96 | two grids are equal exactly when all 64 squares agree |
| Board.StartGrid | shared/src/main/java/chess/ChessBoard.java:46-84 | opening: rows 3-6 empty, eight white pawns on row 2, eight black pawns on row 7, and rook, knight, bishop, queen, king, bishop, knight, rook on each home row |
| Board.StartPopulation | shared/src/main/java/chess/ChessBoard.java:46-84 | the opening holds 32 pieces |
| Board.StartKings | shared/src/main/java/chess/ChessBoard.java:55-76 | the opening holds exactly one king of each colour, on column 5 of its home row |
| Board.ChessBoard.constructor | shared/src/main/java/chess/ChessBoard.java:14-16 | a new board holds the standard opening |
| Board.ChessBoard.AddPiece | shared/src/main/java/chess/ChessBoard.java:24-27 | afterwards square p holds x (None empties it) and the other 63 squares are unchanged |
| Board.ChessBoard.GetPiece | shared/src/main/java/chess/ChessBoard.java:36-40 | returns the occupant of p; after AddPiece(p, x) this is x |
| Board.ChessBoard.ResetBoard | shared/src/main/java/chess/ChessBoard.java:46-53 | on a fresh grid, the board holds the opening whatever it held before, so resetting twice equals resetting once |
| Board.ChessBoard.AddBackRank | shared/src/main/java/chess/ChessBoard.java:55-76 | the colour's home row gets the back-rank kinds in column order; every other square is unchanged |
| Board.ChessBoard.AddPawns | shared/src/main/java/chess/ChessBoard.java:79-84 | row 2 gets white pawns and row 7 black pawns; every other square is unchanged |
| Board.ChessBoard.Equals | shared/src/main/java/chess/ChessBoard.java:86-96 | boards are equal exactly when every one of the 64 squares holds equal occupants |
| Geometry.EmitsContiguous | shared/src/main/java/chess/ChessPiece.java:79-152 | every target on a ray before the last one is an empty square, and those earlier squares are targets as well |
| Geometry.EmitsStopsAtPiece | shared/src/main/java/chess/ChessPiece.java:85-92 | nothing beyond the first occupied square of a ray is a target |
| Geometry.RayMembers | shared/src/main/java/chess/ChessPiece.java:236-247 | a diagonal walk's moves are exactly those to the ray squares allowed by the sliding rule |
| Geometry.RayStops | shared/src/main/java/chess/ChessPiece.java:236-247 | once a ray is blocked or has run seven steps, walking further adds no move |
| Geometry.RookLayerMembers | shared/src/main/java/chess/ChessPiece.java:81-150 | one round of the rook loop emits exactly the distance-k squares of the four directions that the sliding rule allows |
| Geometry.RookSweepMembers | shared/src/main/java/chess/ChessPiece.java:79-152 | the rook's moves up to distance n are exactly those to allowed squares of its four directions |
| Geometry.RookSweepSound | shared/src/main/java/chess/ChessPiece.java:79-152 | every rook move starts on the origin, carries no promotion, and ends on an allowed ray square |
| Geometry.RookSweepComplete | shared/src/main/java/chess/ChessPiece.java:79-152 | every allowed ray square within distance n is a rook move |
| Geometry.RookSweepHas | shared/src/main/java/chess/ChessPiece.java:79-152 | a move found at distance k is still among the rook's moves in every sweep that reaches beyond k |
| Geometry.RookRays | shared/src/main/java/chess/ChessPiece.java:79-152 | a square along a rook direction is a target exactly when the squares before it are empty and it is on the board and not held by the mover's colour |
| Geometry.RookStraight | shared/src/main/java/chess/ChessPiece.java:79-152 | every rook target differs from the origin and shares its row or column |
| Geometry.BishopMembers | shared/src/main/java/chess/ChessPiece.java:228-288 | the bishop's moves are exactly the allowed squares of its four diagonals |
| Geometry.BishopRays | shared/src/main/java/chess/ChessPiece.java:228-288 | a diagonal square is a target exactly when the sliding rule allows it |
| Geometry.BishopDiagonal | shared/src/main/java/chess/ChessPiece.java:228-288 | every bishop target satisfies abs(row delta) == abs(column delta) >= 1 |
| Geometry.HopsMembers | shared/src/main/java/chess/ChessPiece.java:162-224 | an offset table yields at most one move per entry, and a move exactly for each on-board entry square that is empty or holds an opponent |
| Geometry.KnightTargets | shared/src/main/java/chess/ChessPiece.java:156-226 | at most 8 knight moves, each to an offset of (2,1) shape; the target is present exactly when it is on the board and empty or held by an opponent |
| Geometry.KingTargets | shared/src/main/java/chess/ChessPiece.java:297-354 | at most 8 king moves, each to an adjacent square; present exactly when on the board and empty or held by an opponent |
| Geometry.PieceMovesEmitted | shared/src/main/java/chess/ChessPiece.java:56-66 | every generated move starts on the origin, ends on the board, has no promotion, does not land on a piece of the mover's colour, and never ends on the origin |
| Geometry.RookCorner | shared/src/main/java/chess/ChessPiece.java:68-154 | a rook alone on (1,1) has 14 moves |
| Geometry.BishopCorner | shared/src/main/java/chess/ChessPiece.java:228-288 | a bishop alone on (1,1) has 7 moves |
| Geometry.KnightCorner | shared/src/main/java/chess/ChessPiece.java:156-226 | a knight alone on (1,1) has 2 moves |
| Geometry.KingCorner | shared/src/main/java/chess/ChessPiece.java:297-354 | a king alone on (1,1) has 3 moves |
| Pieces.PieceMoves | shared/src/main/java/chess/ChessPiece.java:56-66 | dispatches on the receiver's kind and returns exactly that kind's move list |
| Pieces.RookProbe | shared/src/main/java/chess/ChessPiece.java:82-95 | one direction's step emits exactly the allowed square at that distance and updates the direction's flag to "still open" |
| Pieces.RookRound | shared/src/main/java/chess/ChessPiece.java:81-150 | one round emits the distance-k layer in the order forward, backward, right, left, and updates all four flags |
| Pieces.RookMoves | shared/src/main/java/chess/ChessPiece.java:68-154 | the loop over distances 1..7 returns exactly the rook's move list |
| Pieces.WalkDiagonal | shared/src/main/java/chess/ChessPiece.java:236-247 | the walk with its break returns exactly the ray's allowed squares, nearest first |
| Pieces.BishopMoves | shared/src/main/java/chess/ChessPiece.java:228-288 | the four diagonals in the order (+,+), (+,-), (-,+), (-,-) |
| Pieces.QueenMoves | shared/src/main/java/chess/ChessPiece.java:290-295 | exactly the rook's moves followed by the bishop's moves from the same square |
| Pieces.TryHop | shared/src/main/java/chess/ChessPiece.java:162-167 | one offset test appends the hop for that table entry |
| Pieces.KnightMoves | shared/src/main/java/chess/ChessPiece.java:156-226 | the eight tests in table order return exactly the knight's move list |
| Pieces.KingMoves | shared/src/main/java/chess/ChessPiece.java:297-354 | the eight tests in table order return exactly the king's move list |
| Pieces.PawnMoves | shared/src/main/java/chess/ChessPiece.java:356-361 | a pawn yields no moves |
| Rules.UnsafeMoved | shared/src/main/java/chess/ChessGame.java:95-111 | an unchecked move changes at most its start and end squares |
| Rules.UnsafeMovedEmptyStart | shared/src/main/java/chess/ChessGame.java:97 | a move from an empty square changes nothing |
| Rules.UnsafeMovedSlide | shared/src/main/java/chess/ChessGame.java:107-110 | a non-pawn moving to another square lands on the end, empties its start, and leaves the other 62 squares alone |
| Rules.UnsafeMovedInPlace | shared/src/main/java/chess/ChessGame.java:107-110 | a non-pawn moved onto its own square disappears |
| Rules.UnsafeMovedPawn | shared/src/main/java/chess/ChessGame.java:100-106 | a pawn changes the board only when the end is on row 8 (white) or row 1 (black); then the end holds the promotion kind in the pawn's colour and, when start and end differ, the start is empty |
| Rules.Probed | shared/src/main/java/chess/ChessGame.java:176-189 | the probe always puts the end square's former occupant back |
| Rules.ProbeRestores | shared/src/main/java/chess/ChessGame.java:176-189 | when the start holds a non-pawn, the probe leaves all 64 squares as they were, also when start and end coincide |
| Rules.ProbeKeepsPromotion | shared/src/main/java/chess/ChessGame.java:176-189 | the probe does not restore a promoting pawn: white pawn (7,1) to (8,1) promoting to a queen leaves a white queen on (7,1) |
| Rules.SquareMoves | shared/src/main/java/chess/ChessGame.java:84-88 | a square contributes only moves that start on it and that the probe restores |
| Rules.RowMoves | shared/src/main/java/chess/ChessGame.java:81-90 | moves from one row start in that row and are restorable |
| Rules.RowsMoves | shared/src/main/java/chess/ChessGame.java:80-91 | moves from the first n rows are restorable |
| Rules.AllMoves | shared/src/main/java/chess/ChessGame.java:78-93 | every move of a colour is defined and restorable |
| Rules.RowMovesMembers | shared/src/main/java/chess/ChessGame.java:81-90 | a move is in a row's list exactly when its start is in that row and that column range, holds a piece of the colour, and generates it |
| Rules.RowsMovesMembers | shared/src/main/java/chess/ChessGame.java:80-91 | a move is in the first n rows' list exactly when its start lies there, holds a piece of the colour, and generates it |
| Rules.AllMovesMembers | shared/src/main/java/chess/ChessGame.java:78-93 | a move is among a colour's moves exactly when the piece of that colour on its start generates it |
| Rules.GeneratedRestorable | shared/src/main/java/chess/ChessGame.java:63-71 | a generated move starts on its generator's square, which holds a non-pawn, so the probe restores it |
| Rules.AllMovesRestorable | shared/src/main/java/chess/ChessGame.java:142-143 | every move of a colour starts on a piece of that colour, is restorable, and does not land on that colour |
| Rules.SafeMovesMembers | shared/src/main/java/chess/ChessGame.java:70-74 | a move is kept exactly when it is in the list and the colour is not in check after it |
| Rules.SafeMovesInOrder | shared/src/main/java/chess/ChessGame.java:70-74 | the kept moves are a subsequence of the list, in the original order |
| Rules.NoSafeMove | shared/src/main/java/chess/ChessGame.java:142-144 | no move survives the filter exactly when every move of the colour leaves it in check |
| Game.ChessGame.constructor | shared/src/main/java/chess/ChessGame.java:14-20 | a new game has White to move and a fresh board in the standard opening |
| Game.ChessGame.SetTeamTurn | shared/src/main/java/chess/ChessGame.java:25-36 | after setting team t, GetTeamTurn returns t |
| Game.ChessGame.SwitchTeams | shared/src/main/java/chess/ChessGame.java:38-44 | the side to move becomes the colour other than currentTurn |
| Game.ChessGame.SetBoard | shared/src/main/java/chess/ChessGame.java:163-165 | the game now plays on the given board; the side to move is kept |
| Game.ChessGame.IsInCheck | shared/src/main/java/chess/ChessGame.java:131-133 | the check test applied to the current board contents |
| Game.ChessGame.PossibleMoves | shared/src/main/java/chess/ChessGame.java:78-93 | returns every pseudo-legal move of the colour in row-major order of the start, and changes nothing |
| Game.ChessGame.RowPossibleMoves | shared/src/main/java/chess/ChessGame.java:81-90 | the inner loop returns the row's moves, column by column |
| Game.ChessGame.UnsafeMove | shared/src/main/java/chess/ChessGame.java:95-111 | the board afterwards is the unchecked move applied to the board before |
| Game.ChessGame.MovePutsInCheck | shared/src/main/java/chess/ChessGame.java:176-189 | answers the check test on the moved board; the board is left as the probe describes, which is unchanged when the start holds a non-pawn |
| Game.ChessGame.KeepSafe | shared/src/main/java/chess/ChessGame.java:70-74 | keeps, in order, the restorable moves after which the colour is not in check, and leaves the board unchanged |
| Game.ChessGame.ValidMoves | shared/src/main/java/chess/ChessGame.java:61-76 | returns, in generation order, the moves of the piece on the square after which its colour is not in check; the board is unchanged |
| Game.ChessGame.IsInCheckmate | shared/src/main/java/chess/ChessGame.java:141-145 | true exactly when the colour is in check and every one of its moves leaves it in check; the board is unchanged |
| Game.ChessGame.Equals | shared/src/main/java/chess/ChessGame.java:191-201 | games are equal exactly when the side to move is the same and the boards agree square by square |

## Left out

- `makeMove` and `isInStalemate` always throw "not implemented", so they are not modelled.
- `isInCheck` also throws "not implemented". It is modelled only as the `inCheck` function a game is created with. The exception path of `movePutsInCheck` goes with it: an exception between the move and its undo would leave the board moved. With a total `inCheck`, that path does not exist.
- Pawn movement is not generated by the source, and neither is any promotion. `PawnMoves` returns the empty list.
- `ChessPosition` and `ChessMove` are not part of this model. They are represented as the datatypes `Position` and `Move`, with equality by value.
- `hashCode` and `toString` are not modelled. In the `equals` methods, the checks for null and for a different class have no counterpart, because the model compares values of one type.
- `getTeamTurn` and `getBoard` are plain field reads, with no contract of their own.
- Board.ChessBoard.AddPiece: requires an on-board position. The source throws an index-out-of-bounds exception for a position outside the board; the model has no such error path.
- Board.ChessBoard.GetPiece: requires an on-board position. The source throws an index-out-of-bounds exception for a position outside the board; the model has no such error path.
- Game.ChessGame.SetBoard: stores the reference, as the source does. The model does not track sharing of one board between several games or callers.
- Game.ChessGame.MovePutsInCheck: restoration is claimed only when the start holds a non-pawn. For a promoting pawn the undo does not put the pawn back (see `Rules.ProbeKeepsPromotion`). Pawns generate no moves today, so no caller reaches that case.
- Rules.UnsafeMoved: requires a promotion kind whenever a pawn reaches its last rank. The source would then build a piece with no kind, which the model cannot represent.
- Game.ChessGame.UnsafeMove: requires both squares on the board and a promotion kind for a promoting pawn. The source method is private, and its only callers pass a generated move or that move's undo, so both squares are on the board. For a promoting pawn without a kind the source would build a piece with no kind.
- Game.ChessGame.ValidMoves: requires a piece on the start square, because the source dereferences it and fails otherwise.
- Game.ChessGame.PossibleMoves: the inner loop over columns is the separate method `RowPossibleMoves`. The scan order and the result are the same as the source's nested loops.
- Machine integers cannot overflow here: every coordinate the generators compute lies within -6..15, so unbounded integers are used.
