/** What each piece kind's move generator produces, as functions of the
    grid and the origin square, and the properties of those move lists.
    The colour of the mover is always read from the grid at the origin. */
module Geometry {
  import opened Types

  /** A step vector (row delta, column delta). */
  datatype Dir = Dir(dr: int, dc: int)

  const Forward := Dir(1, 0)
  const Backward := Dir(-1, 0)
  const Rightward := Dir(0, 1)
  const Leftward := Dir(0, -1)

  /** The bishop's diagonals in the order its generator walks them:
      (+,+), (+,-), (-,+), (-,-). */
  const UpRight := Dir(1, 1)
  const UpLeft := Dir(1, -1)
  const DownRight := Dir(-1, 1)
  const DownLeft := Dir(-1, -1)

  const RookDirs: set<Dir> := {Forward, Backward, Rightward, Leftward}
  const BishopDirs: set<Dir> := {UpRight, UpLeft, DownRight, DownLeft}

  /** The knight's offsets, in the order its generator tries them. */
  const KnightOffsets: seq<Dir> :=
    [Dir(2, 1), Dir(2, -1), Dir(1, 2), Dir(1, -2), Dir(-1, 2), Dir(-1, -2), Dir(-2, 1), Dir(-2, -1)]

  /** The king's offsets, in the order its generator tries them. */
  const KingOffsets: seq<Dir> :=
    [Dir(1, 0), Dir(-1, 0), Dir(0, 1), Dir(0, -1), Dir(1, 1), Dir(1, -1), Dir(-1, 1), Dir(-1, -1)]

  /** A unit direction along a rank, file or diagonal. */
  predicate IsRay(d: Dir) {
    -1 <= d.dr <= 1 && -1 <= d.dc <= 1 && d != Dir(0, 0)
  }

  /** k times the sign of s. */
  function Scale(k: int, s: int): int {
    if s > 0 then k else if s < 0 then -k else 0
  }

  /** The square k steps from p along d. */
  function Step(p: Position, d: Dir, k: int): Position {
    Position(p.row + Scale(k, d.dr), p.col + Scale(k, d.dc))
  }

  /** The square at offset o from p. */
  function Shift(p: Position, o: Dir): Position {
    Position(p.row + o.dr, p.col + o.dc)
  }

  /** The first n squares from p along d are on the board and empty. */
  predicate Open(g: Grid, p: Position, d: Dir, n: int) {
    forall j :: 1 <= j <= n ==> OnBoard(Step(p, d, j)) && At(g, Step(p, d, j)).None?
  }

  /** The sliding rule: the square k steps along d is a target for a piece of
      colour c on p when every square before it is empty and it is on the
      board and not held by a piece of colour c. */
  predicate Emits(g: Grid, p: Position, c: TeamColor, d: Dir, k: int) {
    k >= 1 && Open(g, p, d, k - 1) && OnBoard(Step(p, d, k)) && !Friendly(g, Step(p, d, k), c)
  }

  /** The move to the square k steps along d, if the sliding rule allows it. */
  function Hit(g: Grid, p: Position, c: TeamColor, d: Dir, k: int): seq<Move> {
    if Emits(g, p, c, d, k) then [Move(p, Step(p, d, k), None)] else []
  }

  /** The moves along d at distances 1..n, nearest first. */
  function Ray(g: Grid, p: Position, c: TeamColor, d: Dir, n: nat): seq<Move> {
    if n == 0 then [] else Ray(g, p, c, d, n - 1) + Hit(g, p, c, d, n)
  }

  /** The rook's moves at distance k, in the order forward, backward,
      right, left. */
  function RookLayer(g: Grid, p: Position, c: TeamColor, k: int): seq<Move> {
    Hit(g, p, c, Forward, k) + Hit(g, p, c, Backward, k) + Hit(g, p, c, Rightward, k) + Hit(g, p, c, Leftward, k)
  }

  /** The rook's moves at distances 1..n, distance by distance. */
  function RookSweep(g: Grid, p: Position, c: TeamColor, n: nat): seq<Move> {
    if n == 0 then [] else RookSweep(g, p, c, n - 1) + RookLayer(g, p, c, n)
  }

  /** The move to offset o from p, if it is on the board and not held by a
      piece of colour c. */
  function Hop(g: Grid, p: Position, c: TeamColor, o: Dir): seq<Move> {
    var t := Shift(p, o);
    if OnBoard(t) && !Friendly(g, t, c) then [Move(p, t, None)] else []
  }

  /** The hops to the first n offsets of a table, in table order. */
  function Hops(g: Grid, p: Position, c: TeamColor, offsets: seq<Dir>, n: nat): seq<Move>
    requires n <= |offsets|
  {
    if n == 0 then [] else Hops(g, p, c, offsets, n - 1) + Hop(g, p, c, offsets[n - 1])
  }

  function RookMoves(g: Grid, p: Position): seq<Move>
    requires Occupied(g, p)
  {
    RookSweep(g, p, ColorAt(g, p), 7)
  }

  function BishopMoves(g: Grid, p: Position): seq<Move>
    requires Occupied(g, p)
  {
    var c := ColorAt(g, p);
    Ray(g, p, c, UpRight, 7) + Ray(g, p, c, UpLeft, 7) + Ray(g, p, c, DownRight, 7) + Ray(g, p, c, DownLeft, 7)
  }

  function QueenMoves(g: Grid, p: Position): seq<Move>
    requires Occupied(g, p)
  {
    RookMoves(g, p) + BishopMoves(g, p)
  }

  function KnightMoves(g: Grid, p: Position): seq<Move>
    requires Occupied(g, p)
  {
    Hops(g, p, ColorAt(g, p), KnightOffsets, 8)
  }

  function KingMoves(g: Grid, p: Position): seq<Move>
    requires Occupied(g, p)
  {
    Hops(g, p, ColorAt(g, p), KingOffsets, 8)
  }

  /** The pseudo-legal moves from p for a piece of the given kind. The kind
      is the receiver's; the colour is the one found on the grid at p. */
  function PieceMoves(kind: PieceType, g: Grid, p: Position): seq<Move>
    requires Occupied(g, p)
  {
    match kind
    case King => KingMoves(g, p)
    case Queen => QueenMoves(g, p)
    case Bishop => BishopMoves(g, p)
    case Knight => KnightMoves(g, p)
    case Rook => RookMoves(g, p)
    case Pawn => []
  }

  /** The three conditions every generated move meets: it starts on p, ends
      on the board, carries no promotion, and does not land on a piece of
      the colour c. */
  predicate Emitted(g: Grid, p: Position, c: TeamColor, m: Move) {
    m.start == p && OnBoard(m.end) && m.promotion == None && !Friendly(g, m.end, c)
  }

  // ---------------------------------------------------------------------
  // Rays

  lemma {:induction false} OpenShrinks(g: Grid, p: Position, d: Dir, n: int, k: int)
    requires Open(g, p, d, n) && k <= n
    ensures Open(g, p, d, k)
  {
  }

  /** Off the board after at most seven steps along a ray. */
  lemma StepLeavesBoard(p: Position, d: Dir, k: int)
    requires OnBoard(p) && IsRay(d) && k >= 8
    ensures !OnBoard(Step(p, d, k))
  {
  }

  /** A step between two on-board steps of the same ray is on the board. */
  lemma StepBetween(p: Position, d: Dir, j: int, k: int)
    requires OnBoard(p) && OnBoard(Step(p, d, k)) && 0 <= j <= k
    ensures OnBoard(Step(p, d, j))
  {
  }

  /** Along a ray, no two distances name the same square, and no positive
      distance names p itself. */
  lemma StepInjective(p: Position, d: Dir, d': Dir, k: int, k': int)
    requires IsRay(d) && IsRay(d') && k >= 1 && k' >= 1
    ensures Step(p, d, k) == Step(p, d', k') <==> d == d' && k == k'
  {
  }

  /** Ray shape: every emitted square but the last is empty, so the targets
      along a ray are the consecutive empty squares, plus the first occupied
      square when it holds an opponent. */
  lemma EmitsContiguous(g: Grid, p: Position, c: TeamColor, d: Dir, k: int, j: int)
    requires Emits(g, p, c, d, k) && 1 <= j < k
    ensures Emits(g, p, c, d, j) && At(g, Step(p, d, j)) == None
  {
    assert OnBoard(Step(p, d, j)) && At(g, Step(p, d, j)).None?;
    OpenShrinks(g, p, d, k - 1, j - 1);
  }

  /** Targets along a ray stop at the first occupied square. */
  lemma EmitsStopsAtPiece(g: Grid, p: Position, c: TeamColor, d: Dir, k: int, j: int)
    requires 1 <= k < j && OnBoard(Step(p, d, k)) && At(g, Step(p, d, k)).Some?
    ensures !Emits(g, p, c, d, j)
  {
  }

  lemma EmitsBounded(g: Grid, p: Position, c: TeamColor, d: Dir, k: int)
    requires OnBoard(p) && IsRay(d) && Emits(g, p, c, d, k)
    ensures 1 <= k <= 7
  {
    if k >= 8 {
      StepLeavesBoard(p, d, k);
    }
  }

  /** The moves of Ray(n) are exactly the moves to Step(p, d, k) for the
      distances 1 <= k <= n that the sliding rule allows. */
  lemma {:induction false} RayMembers(g: Grid, p: Position, c: TeamColor, d: Dir, n: nat, m: Move)
    ensures m in Ray(g, p, c, d, n) <==>
              m.start == p && m.promotion == None &&
              exists k :: 1 <= k <= n && m.end == Step(p, d, k) && Emits(g, p, c, d, k)
  {
    if n > 0 {
      RayMembers(g, p, c, d, n - 1, m);
    }
  }

  /** Beyond a blocked distance n the ray adds nothing. */
  lemma {:induction false} RayStops(g: Grid, p: Position, c: TeamColor, d: Dir, n: nat, m: nat)
    requires OnBoard(p) && IsRay(d) && n <= m
    requires !Open(g, p, d, n) || n >= 7
    ensures Ray(g, p, c, d, m) == Ray(g, p, c, d, n)
  {
    if m > n {
      RayStops(g, p, c, d, n, m - 1);
      if Emits(g, p, c, d, m) {
        EmitsBounded(g, p, c, d, m);
        OpenShrinks(g, p, d, m - 1, n);
        assert false;
      }
    }
  }

  /** The rook's moves at distance k are the moves to the distance-k
      squares of the four rook directions that the sliding rule allows. */
  lemma RookLayerMembers(g: Grid, p: Position, c: TeamColor, k: int, m: Move)
    ensures m in RookLayer(g, p, c, k) <==>
              m.start == p && m.promotion == None &&
              exists d :: d in RookDirs && m.end == Step(p, d, k) && Emits(g, p, c, d, k)
  {
    if m.start == p && m.promotion == None &&
       exists d :: d in RookDirs && m.end == Step(p, d, k) && Emits(g, p, c, d, k) {
      var d :| d in RookDirs && m.end == Step(p, d, k) && Emits(g, p, c, d, k);
      assert m in Hit(g, p, c, d, k);
    }
  }

  /** The moves of RookSweep(n) are exactly the moves to Step(p, d, k) for
      the four rook directions d and distances 1 <= k <= n that the sliding
      rule allows. */
  lemma {:induction false} RookSweepMembers(g: Grid, p: Position, c: TeamColor, n: nat, m: Move)
    ensures m in RookSweep(g, p, c, n) <==>
              m.start == p && m.promotion == None &&
              exists d, k :: d in RookDirs && 1 <= k <= n && m.end == Step(p, d, k) && Emits(g, p, c, d, k)
  {
    if m in RookSweep(g, p, c, n) {
      RookSweepSound(g, p, c, n, m);
    }
    if m.start == p && m.promotion == None &&
       exists d, k :: d in RookDirs && 1 <= k <= n && m.end == Step(p, d, k) && Emits(g, p, c, d, k) {
      var d, k :| d in RookDirs && 1 <= k <= n && m.end == Step(p, d, k) && Emits(g, p, c, d, k);
      RookSweepComplete(g, p, c, n, d, k);
    }
  }

  lemma {:induction false} RookSweepSound(g: Grid, p: Position, c: TeamColor, n: nat, m: Move)
    requires m in RookSweep(g, p, c, n)
    ensures m.start == p && m.promotion == None &&
            exists d, k :: d in RookDirs && 1 <= k <= n && m.end == Step(p, d, k) && Emits(g, p, c, d, k)
  {
    if m in RookSweep(g, p, c, n - 1) {
      RookSweepSound(g, p, c, n - 1, m);
      var d, k :| d in RookDirs && 1 <= k <= n - 1 && m.end == Step(p, d, k) && Emits(g, p, c, d, k);
      assert 1 <= k <= n;
    } else {
      assert m in RookLayer(g, p, c, n);
      RookLayerMembers(g, p, c, n, m);
      var d :| d in RookDirs && m.end == Step(p, d, n) && Emits(g, p, c, d, n);
      assert 1 <= n <= n;
    }
  }

  lemma {:induction false} RookSweepComplete(g: Grid, p: Position, c: TeamColor, n: nat, d: Dir, k: int)
    requires d in RookDirs && 1 <= k <= n && Emits(g, p, c, d, k)
    ensures Move(p, Step(p, d, k), None) in RookSweep(g, p, c, n)
  {
    RookLayerHas(g, p, c, d, k);
    RookSweepHas(g, p, c, n, k, Move(p, Step(p, d, k), None));
  }

  /** A move of the layer at distance k is in every sweep reaching k. */
  lemma {:induction false} RookSweepHas(g: Grid, p: Position, c: TeamColor, n: nat, k: int, m: Move)
    requires 1 <= k <= n && m in RookLayer(g, p, c, k)
    ensures m in RookSweep(g, p, c, n)
  {
    if k < n {
      RookSweepHas(g, p, c, n - 1, k, m);
    }
  }

  lemma RookLayerHas(g: Grid, p: Position, c: TeamColor, d: Dir, k: int)
    requires d in RookDirs && Emits(g, p, c, d, k)
    ensures Move(p, Step(p, d, k), None) in RookLayer(g, p, c, k)
  {
    assert Hit(g, p, c, d, k) == [Move(p, Step(p, d, k), None)];
  }

  // ---------------------------------------------------------------------
  // Rook

  /** The rook's targets are exactly the ray squares the sliding rule
      allows, in each of the four directions. */
  lemma RookRays(g: Grid, p: Position, d: Dir, k: int)
    requires Occupied(g, p) && d in RookDirs && k >= 1
    ensures Move(p, Step(p, d, k), None) in RookMoves(g, p) <==> Emits(g, p, ColorAt(g, p), d, k)
  {
    var c := ColorAt(g, p);
    var m := Move(p, Step(p, d, k), None);
    RookSweepMembers(g, p, c, 7, m);
    if Emits(g, p, c, d, k) {
      EmitsBounded(g, p, c, d, k);
    }
    if m in RookMoves(g, p) {
      var d', k' :| d' in RookDirs && 1 <= k' <= 7 && m.end == Step(p, d', k') && Emits(g, p, c, d', k');
      StepInjective(p, d, d', k, k');
    }
  }

  /** Every rook target shares the origin's row or column. */
  lemma RookStraight(g: Grid, p: Position, m: Move)
    requires Occupied(g, p) && m in RookMoves(g, p)
    ensures m.end != p && (m.end.row == p.row || m.end.col == p.col)
  {
    RookSweepMembers(g, p, ColorAt(g, p), 7, m);
  }

  // ---------------------------------------------------------------------
  // Bishop

  /** The bishop's moves from p are the union of its four diagonal rays. */
  lemma BishopMembers(g: Grid, p: Position, m: Move)
    requires Occupied(g, p)
    ensures m in BishopMoves(g, p) <==>
              m.start == p && m.promotion == None &&
              exists d, k :: d in BishopDirs && 1 <= k <= 7 && m.end == Step(p, d, k) && Emits(g, p, ColorAt(g, p), d, k)
  {
    var c := ColorAt(g, p);
    RayMembers(g, p, c, UpRight, 7, m);
    RayMembers(g, p, c, UpLeft, 7, m);
    RayMembers(g, p, c, DownRight, 7, m);
    RayMembers(g, p, c, DownLeft, 7, m);
  }

  /** The bishop's targets are exactly the diagonal squares the sliding rule
      allows. */
  lemma BishopRays(g: Grid, p: Position, d: Dir, k: int)
    requires Occupied(g, p) && d in BishopDirs && k >= 1
    ensures Move(p, Step(p, d, k), None) in BishopMoves(g, p) <==> Emits(g, p, ColorAt(g, p), d, k)
  {
    var c := ColorAt(g, p);
    var m := Move(p, Step(p, d, k), None);
    BishopMembers(g, p, m);
    if Emits(g, p, c, d, k) {
      EmitsBounded(g, p, c, d, k);
    }
    if m in BishopMoves(g, p) {
      var d', k' :| d' in BishopDirs && 1 <= k' <= 7 && m.end == Step(p, d', k') && Emits(g, p, c, d', k');
      StepInjective(p, d, d', k, k');
    }
  }

  /** Every bishop target is on a diagonal through the origin. */
  lemma BishopDiagonal(g: Grid, p: Position, m: Move)
    requires Occupied(g, p) && m in BishopMoves(g, p)
    ensures var dr, dc := m.end.row - p.row, m.end.col - p.col;
            (dr == dc || dr == -dc) && dr != 0
  {
    BishopMembers(g, p, m);
  }

  // ---------------------------------------------------------------------
  // Knight and king

  /** The hops of a table are exactly the on-board, not-friendly squares at
      its offsets, one move per offset at most. */
  lemma {:induction false} HopsMembers(g: Grid, p: Position, c: TeamColor, offsets: seq<Dir>, n: nat, m: Move)
    requires n <= |offsets|
    ensures |Hops(g, p, c, offsets, n)| <= n
    ensures m in Hops(g, p, c, offsets, n) <==>
              exists i :: 0 <= i < n && m == Move(p, Shift(p, offsets[i]), None) &&
                          OnBoard(m.end) && !Friendly(g, m.end, c)
  {
    if n > 0 {
      HopsMembers(g, p, c, offsets, n - 1, m);
    }
  }

  /** At most eight knight moves, each to an on-board square at a knight
      offset that is empty or holds an opponent, and every such square. */
  lemma KnightTargets(g: Grid, p: Position, m: Move)
    requires Occupied(g, p)
    ensures |KnightMoves(g, p)| <= 8
    ensures m in KnightMoves(g, p) <==>
              exists i :: 0 <= i < 8 && m == Move(p, Shift(p, KnightOffsets[i]), None) &&
                          OnBoard(m.end) && !Friendly(g, m.end, ColorAt(g, p))
  {
    HopsMembers(g, p, ColorAt(g, p), KnightOffsets, 8, m);
  }

  /** At most eight king moves, each to an adjacent on-board square that is
      empty or holds an opponent, and every such square. */
  lemma KingTargets(g: Grid, p: Position, m: Move)
    requires Occupied(g, p)
    ensures |KingMoves(g, p)| <= 8
    ensures m in KingMoves(g, p) <==>
              exists i :: 0 <= i < 8 && m == Move(p, Shift(p, KingOffsets[i]), None) &&
                          OnBoard(m.end) && !Friendly(g, m.end, ColorAt(g, p))
  {
    HopsMembers(g, p, ColorAt(g, p), KingOffsets, 8, m);
  }

  // ---------------------------------------------------------------------
  // All kinds

  /** Every generated move starts on p, ends on the board on a square that
      does not hold a piece of the mover's colour (so never on p itself),
      and carries no promotion. */
  lemma PieceMovesEmitted(kind: PieceType, g: Grid, p: Position, m: Move)
    requires Occupied(g, p) && m in PieceMoves(kind, g, p)
    ensures Emitted(g, p, ColorAt(g, p), m)
    ensures m.end != p
  {
    var c := ColorAt(g, p);
    match kind
    case King =>
      KingTargets(g, p, m);
    case Knight =>
      KnightTargets(g, p, m);
    case Rook =>
      RookSweepMembers(g, p, c, 7, m);
    case Bishop =>
      BishopMembers(g, p, m);
    case Queen =>
      if m in RookMoves(g, p) {
        RookSweepMembers(g, p, c, 7, m);
      } else {
        BishopMembers(g, p, m);
      }
    case Pawn =>
  }

  // ---------------------------------------------------------------------
  // A single piece on an otherwise empty board

  /** On a board holding only the mover, the sliding rule allows exactly the
      on-board squares of each ray. */
  lemma LoneEmits(p: Position, piece: Piece, d: Dir, k: int)
    requires OnBoard(p) && IsRay(d) && k >= 1
    ensures Emits(Lone(p, piece), p, piece.color, d, k) <==> OnBoard(Step(p, d, k))
  {
    var g := Lone(p, piece);
    if OnBoard(Step(p, d, k)) {
      forall j | 1 <= j <= k
        ensures OnBoard(Step(p, d, j)) && At(g, Step(p, d, j)).None?
      {
        StepBetween(p, d, j, k);
        StepInjective(p, d, d, j, 0 + 1);
        assert Step(p, d, j) != p;
      }
    }
  }

  /** A rook alone on (1,1) has 14 moves. */
  lemma RookCorner(c: TeamColor)
    ensures |RookMoves(Lone(Position(1, 1), Piece(c, Rook)), Position(1, 1))| == 14
  {
    var p := Position(1, 1);
    var g := Lone(p, Piece(c, Rook));
    forall k | 1 <= k <= 7
      ensures |RookLayer(g, p, c, k)| == 2
    {
      LoneEmits(p, Piece(c, Rook), Forward, k);
      LoneEmits(p, Piece(c, Rook), Backward, k);
      LoneEmits(p, Piece(c, Rook), Rightward, k);
      LoneEmits(p, Piece(c, Rook), Leftward, k);
    }
    RookCornerSweep(c, 7);
  }

  lemma {:induction false} RookCornerSweep(c: TeamColor, n: nat)
    requires n <= 7
    requires forall k | 1 <= k <= 7 :: |RookLayer(Lone(Position(1, 1), Piece(c, Rook)), Position(1, 1), c, k)| == 2
    ensures |RookSweep(Lone(Position(1, 1), Piece(c, Rook)), Position(1, 1), c, n)| == 2 * n
  {
    if n > 0 {
      RookCornerSweep(c, n - 1);
    }
  }

  /** A bishop alone on (1,1) has 7 moves, all on the (+,+) diagonal. */
  lemma BishopCorner(c: TeamColor)
    ensures |BishopMoves(Lone(Position(1, 1), Piece(c, Bishop)), Position(1, 1))| == 7
  {
    var p := Position(1, 1);
    var piece := Piece(c, Bishop);
    LoneRay(p, piece, UpRight, 7, 7);
    LoneRay(p, piece, UpLeft, 7, 0);
    LoneRay(p, piece, DownRight, 7, 0);
    LoneRay(p, piece, DownLeft, 7, 0);
  }

  /** On a board holding only the mover, a ray whose first `len` steps are
      on the board, and no more, has length min(n, len). */
  lemma {:induction false} LoneRay(p: Position, piece: Piece, d: Dir, n: nat, len: nat)
    requires OnBoard(p) && IsRay(d)
    requires forall k | 1 <= k <= n :: OnBoard(Step(p, d, k)) <==> k <= len
    ensures |Ray(Lone(p, piece), p, piece.color, d, n)| == if n <= len then n else len
  {
    if n > 0 {
      LoneRay(p, piece, d, n - 1, len);
      LoneEmits(p, piece, d, n);
    }
  }

  /** A knight alone on (1,1) has 2 moves. */
  lemma KnightCorner(c: TeamColor)
    ensures |KnightMoves(Lone(Position(1, 1), Piece(c, Knight)), Position(1, 1))| == 2
  {
    var p := Position(1, 1);
    var g := Lone(p, Piece(c, Knight));
    assert |Hops(g, p, c, KnightOffsets, 1)| == 1;
    assert |Hops(g, p, c, KnightOffsets, 2)| == 1;
    assert |Hops(g, p, c, KnightOffsets, 3)| == 2;
    assert |Hops(g, p, c, KnightOffsets, 4)| == 2;
    assert |Hops(g, p, c, KnightOffsets, 5)| == 2;
    assert |Hops(g, p, c, KnightOffsets, 6)| == 2;
    assert |Hops(g, p, c, KnightOffsets, 7)| == 2;
  }

  /** A king alone on (1,1) has 3 moves. */
  lemma KingCorner(c: TeamColor)
    ensures |KingMoves(Lone(Position(1, 1), Piece(c, King)), Position(1, 1))| == 3
  {
    var p := Position(1, 1);
    var g := Lone(p, Piece(c, King));
    assert |Hops(g, p, c, KingOffsets, 1)| == 1;
    assert |Hops(g, p, c, KingOffsets, 2)| == 1;
    assert |Hops(g, p, c, KingOffsets, 3)| == 2;
    assert |Hops(g, p, c, KingOffsets, 4)| == 2;
    assert |Hops(g, p, c, KingOffsets, 5)| == 3;
    assert |Hops(g, p, c, KingOffsets, 6)| == 3;
    assert |Hops(g, p, c, KingOffsets, 7)| == 3;
  }
}
