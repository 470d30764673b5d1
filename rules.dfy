/**
 * The movement rule of each kind of piece (the isValidMove overrides of
 * ChessPiece.cpp). A rule looks only at the geometry of the move and at
 * the squares it passes; whose turn it is, what stands on the destination
 * and whether the own king is left attacked are decided by the board.
 */
module Rules {
  import opened Coord
  import opened Pieces
  import opened Paths

  // ---------------------------------------------------------------------
  // Facts about the squares between two others

  /** Squares between a and b exist only when a and b are two or more steps apart. */
  lemma BetweenFar(a: Pos, b: Pos, x: Pos)
    requires Between(a, b, x)
    ensures Dist(a, b) >= 2
  {
  }

  /** Adjacent squares have nothing between them. */
  lemma AdjacentClear(g: Grid, a: Pos, b: Pos)
    requires Dist(a, b) == 1
    ensures Clear(g, a, b)
  {
    forall x | OnBoard(x) && Between(a, b, x)
      ensures false
    {
      BetweenFar(a, b, x);
    }
  }

  /** Two squares apart in a column, the only square between is the middle one. */
  lemma TwoApartInColumn(g: Grid, a: Pos, b: Pos)
    requires OnBoard(a) && OnBoard(b) && a.col == b.col && Abs(b.row - a.row) == 2
    ensures var mid := Pos(a.row + Sign(b.row - a.row), a.col);
      OnBoard(mid) && (Clear(g, a, b) <==> At(g, mid).None?)
  {
    var mid := Pos(a.row + Sign(b.row - a.row), a.col);
    assert Between(a, b, mid);
  }

  // ---------------------------------------------------------------------
  // The six rules

  /** Rook::isValidMove: along a row or column with nothing in the way. */
  function RookMove(src: Pos, dest: Pos, g: Grid): (r: bool)
    requires OnBoard(src) && OnBoard(dest) && src != dest
    ensures At(g, src).Some? ==> (r <==> Straight(src, dest) && Clear(g, src, dest))
  {
    IsVertical(src, dest, g).None? || IsHorizontal(src, dest, g).None?
  }

  /** Knight::isValidMove: a jump; nothing on the board matters. */
  function KnightMove(src: Pos, dest: Pos, g: Grid): (r: bool)
    ensures r <==> Dist(src, dest) == 2 && Abs(src.row - dest.row) + Abs(src.col - dest.col) == 3
  {
    IsL(src, dest)
  }

  /** Bishop::isValidMove: along a diagonal with nothing in the way. */
  function BishopMove(src: Pos, dest: Pos, g: Grid): (r: bool)
    requires OnBoard(src) && OnBoard(dest) && src != dest
    ensures At(g, src).Some? ==> (r <==> Diagonal(src, dest) && Clear(g, src, dest))
  {
    IsDiagonal(src, dest, g).None?
  }

  /** Queen::isValidMove: along any line with nothing in the way. */
  function QueenMove(src: Pos, dest: Pos, g: Grid): (r: bool)
    requires OnBoard(src) && OnBoard(dest) && src != dest
    ensures At(g, src).Some? ==>
      (r <==> (Straight(src, dest) || Diagonal(src, dest)) && Clear(g, src, dest))
  {
    IsDiagonal(src, dest, g).None? || IsVertical(src, dest, g).None?
    || IsHorizontal(src, dest, g).None?
  }

  /** King::isValidMove: one step in any direction. */
  function KingMove(src: Pos, dest: Pos, g: Grid): bool
    requires OnBoard(src) && OnBoard(dest) && src != dest
  {
    if Abs(src.row - dest.row) > 1 || Abs(src.col - dest.col) > 1 then false
    else
      IsDiagonal(src, dest, g).None? || IsVertical(src, dest, g).None?
      || IsHorizontal(src, dest, g).None?
  }

  /** A king may step to any of the eight neighbouring squares. */
  lemma KingRule(g: Grid, src: Pos, dest: Pos)
    requires OnBoard(src) && OnBoard(dest) && src != dest && At(g, src).Some?
    ensures KingMove(src, dest, g) <==> Dist(src, dest) == 1
  {
    if Dist(src, dest) == 1 {
      AdjacentClear(g, src, dest);
    }
  }

  /** Pawn::isValidDistance: the length of the step, and no capture straight ahead. */
  function ValidDistance(rowStep: int, colStep: int, src: Pos, dest: Pos, g: Grid): bool
    requires OnBoard(dest)
  {
    (if src.row == 6 || src.row == 1 then
       !(Abs(dest.row - src.row) > 2)
       && !(Equal(Pos(src.row + rowStep * 2, src.col), dest) && At(g, dest).Some?)
     else
       !(Abs(dest.row - src.row) > 1))
    && !(Equal(Pos(src.row + rowStep, src.col), dest) && At(g, dest).Some?)
  }

  /** The pawn moves towards the opponent: White up the board, Black down. */
  predicate Forward(c: Colour, src: Pos, dest: Pos) {
    if c == White then dest.row < src.row else dest.row > src.row
  }

  /**
   * Where a pawn may go: forward one square onto an empty square, two from
   * row 1 or 6 across an empty square onto an empty square, or one square
   * diagonally forward onto an occupied square.
   */
  predicate PawnReach(g: Grid, c: Colour, src: Pos, dest: Pos)
    requires OnBoard(src) && OnBoard(dest)
  {
    var dr := dest.row - src.row;
    Forward(c, src, dest)
    && ((dest.col == src.col && At(g, dest).None?
         && (Abs(dr) == 1
             || (Abs(dr) == 2 && (src.row == 6 || src.row == 1)
                 && At(g, Pos(src.row + Sign(dr), src.col)).None?)))
        || (Abs(dest.col - src.col) == 1 && Abs(dr) == 1 && At(g, dest).Some?))
  }

  /**
   * Pawn::isValidMove: the direction, then the distance, then a diagonal
   * capture, then a clear straight path.
   */
  function PawnMove(c: Colour, src: Pos, dest: Pos, g: Grid): bool
    requires OnBoard(src) && OnBoard(dest) && src != dest
  {
    if c == White && dest.row >= src.row then false
    else if c == Black && dest.row <= src.row then false
    else
      var rowStep := if dest.row > src.row then 1 else -1;
      var colStep := if dest.col > src.col then 1 else -1;
      if !ValidDistance(rowStep, colStep, src, dest, g) then false
      else if Equal(Pos(src.row + rowStep, src.col + colStep), dest) && At(g, dest).Some? then true
      else IsVertical(src, dest, g).None?
  }

  lemma PawnRule(g: Grid, c: Colour, src: Pos, dest: Pos)
    requires OnBoard(src) && OnBoard(dest) && src != dest && At(g, src).Some?
    ensures PawnMove(c, src, dest, g) <==> PawnReach(g, c, src, dest)
  {
    if src.col == dest.col && Abs(dest.row - src.row) == 2 {
      TwoApartInColumn(g, src, dest);
    } else if Dist(src, dest) == 1 {
      AdjacentClear(g, src, dest);
    }
  }

  /** ChessPiece::isValidMove, dispatched on the kind of piece. */
  function ValidMove(g: Grid, p: Piece, src: Pos, dest: Pos): bool
    requires OnBoard(src) && OnBoard(dest) && src != dest
  {
    match p
    case Pawn(c, _) => PawnMove(c, src, dest, g)
    case Knight(_, _) => KnightMove(src, dest, g)
    case Bishop(_, _) => BishopMove(src, dest, g)
    case Rook(_, _) => RookMove(src, dest, g)
    case Queen(_, _) => QueenMove(src, dest, g)
    case King(_, _) => KingMove(src, dest, g)
  }

  /**
   * Every rule moves a piece along a line with nothing in the way, except a
   * knight's, which jumps.
   */
  lemma ValidMoveGeometry(g: Grid, p: Piece, src: Pos, dest: Pos)
    requires OnBoard(src) && OnBoard(dest) && src != dest && At(g, src).Some?
    requires ValidMove(g, p, src, dest)
    ensures p.Knight? ==> IsL(src, dest)
    ensures !p.Knight? ==> (Straight(src, dest) || Diagonal(src, dest)) && Clear(g, src, dest)
  {
    match p
    case Pawn(c, _) => PawnRule(g, c, src, dest);
    case King(_, _) => KingRule(g, src, dest); AdjacentClear(g, src, dest);
    case _ =>
  }
}
