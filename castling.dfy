/**
 * The castling test of King::isCastlingMove (ChessPiece.cpp) and its
 * helpers. The castling availability is the FEN castling field: 'K' and
 * 'Q' for White's king side and queen side, 'k' and 'q' for Black's.
 * In this program the king castles king side onto column 6 and queen side
 * onto column 1.
 */
module Castling {
  import opened Coord
  import opened Pieces
  import opened Paths
  import opened Attack

  /** The availability letter that lets a king of colour c castle onto column destCol. */
  function CastlingLetter(c: Colour, destCol: int): (r: Option<char>)
    ensures r.Some? <==> destCol == 6 || destCol == 1
    ensures r.Some? ==> (r.value in "KQ" <==> c == White) && r.value in "KQkq"
  {
    if destCol == 6 then Some(if c == White then 'K' else 'k')
    else if destCol == 1 then Some(if c == White then 'Q' else 'q')
    else None
  }

  /** The availability the castling field grants for that move. */
  predicate CastlingRight(c: Colour, destCol: int, rights: string) {
    CastlingLetter(c, destCol).Some? && CastlingLetter(c, destCol).value in rights
  }

  /** King::contains: whether c occurs in the (NUL-terminated) text s. */
  method Contains(c: char, s: string) returns (found: bool)
    ensures found <==> c in s
  {
    var i := 0;
    while i < |s|
      invariant 0 <= i <= |s|
      invariant c !in s[..i]
    {
      if c == s[i] {
        return true;
      }
      i := i + 1;
    }
    return false;
  }

  /** King::checkCastlingState: the field grants castling onto dest for the king at src. */
  method CheckCastlingState(src: Pos, dest: Pos, g: Grid, rights: string) returns (canCastle: bool)
    requires OnBoard(src) && At(g, src).Some?
    ensures canCastle <==> CastlingRight(At(g, src).value.colour, dest.col, rights)
  {
    canCastle := false;
    if At(g, src).value.colour == White {
      var kingSide := Contains('K', rights);
      var queenSide := Contains('Q', rights);
      if (dest.col == 6 && kingSide) || (dest.col == 1 && queenSide) {
        canCastle := true;
      }
    } else if At(g, src).value.colour == Black {
      var kingSide := Contains('k', rights);
      var queenSide := Contains('q', rights);
      if (dest.col == 6 && kingSide) || (dest.col == 1 && queenSide) {
        canCastle := true;
      }
    }
  }

  /**
   * The columns the loop of isPathBlocked visits: from the king's column
   * towards destCol, the king's column included and destCol excluded.
   */
  predicate InPath(srcCol: int, destCol: int, col: int) {
    (srcCol <= col < destCol) || (destCol < col <= srcCol)
  }

  /** The opponent (side) can take something standing on (row, col). */
  ghost predicate Threatened(g: Grid, row: int, col: int, side: Colour)
    requires OnBoard(Pos(row, col)) && WellFormed(g)
  {
    CanBeTaken(Pos(row, col), g, side, '-').Some?
  }

  /** Some square the king passes, its own included, can be taken by the opponent. */
  ghost predicate PathAttacked(g: Grid, src: Pos, dest: Pos)
    requires OnBoard(src) && OnBoard(dest) && At(g, src).Some? && WellFormed(g)
  {
    exists col :: InPath(src.col, dest.col, col)
      && Threatened(g, src.row, col, Opponent(At(g, src).value.colour))
  }

  /** No square the loop of isPathBlocked has passed before reaching column col is threatened. */
  ghost predicate SafeUpTo(g: Grid, src: Pos, col: int, side: Colour)
    requires OnBoard(src) && OnBoard(Pos(src.row, col)) && WellFormed(g)
  {
    forall c :: InPath(src.col, col, c) ==> !Threatened(g, src.row, c, side)
  }

  lemma SafeStep(g: Grid, src: Pos, col: int, step: int, side: Colour)
    requires OnBoard(src) && OnBoard(Pos(src.row, col)) && WellFormed(g)
    requires step == 1 || step == -1
    requires step == 1 ==> src.col <= col
    requires step == -1 ==> col <= src.col
    requires OnBoard(Pos(src.row, col + step))
    requires SafeUpTo(g, src, col, side) && !Threatened(g, src.row, col, side)
    ensures SafeUpTo(g, src, col + step, side)
  {
    forall c | InPath(src.col, col + step, c)
      ensures !Threatened(g, src.row, c, side)
    {
      if c != col {
        assert InPath(src.col, col, c);
      }
    }
  }

  lemma ThreatFound(g: Grid, src: Pos, dest: Pos, col: int)
    requires OnBoard(src) && OnBoard(dest) && At(g, src).Some? && WellFormed(g)
    requires InPath(src.col, dest.col, col) && OnBoard(Pos(src.row, col))
    requires Threatened(g, src.row, col, Opponent(At(g, src).value.colour))
    ensures PathAttacked(g, src, dest)
  {
  }

  /** King::isPathBlocked */
  method IsPathBlocked(src: Pos, dest: Pos, g: Grid) returns (blocked: bool)
    requires OnBoard(src) && OnBoard(dest) && At(g, src).Some? && WellFormed(g)
    ensures blocked <==> PathAttacked(g, src, dest)
  {
    var colStep := if dest.col > src.col then 1 else -1;
    var colour := At(g, src).value.colour;
    colour := Opponent(colour);
    var col := src.col;
    while col != dest.col
      invariant colStep == 1 ==> src.col <= col <= dest.col
      invariant colStep == -1 ==> dest.col <= col <= src.col
      invariant SafeUpTo(g, src, col, colour)
      decreases Abs(dest.col - col)
    {
      if CanBeTaken(Pos(src.row, col), g, colour, '-').Some? {
        ThreatFound(g, src, dest, col);
        return true;
      }
      SafeStep(g, src, col, colStep, colour);
      col := col + colStep;
    }
    return false;
  }

  /**
   * What isCastlingMove accepts: no square the king passes is attacked, the
   * castling field grants the move, the destination is empty and nothing
   * stands between the king and it along the row.
   */
  ghost predicate CastlingMove(g: Grid, rights: string, src: Pos, dest: Pos)
    requires OnBoard(src) && OnBoard(dest) && src != dest && At(g, src).Some? && WellFormed(g)
  {
    !PathAttacked(g, src, dest)
    && CastlingRight(At(g, src).value.colour, dest.col, rights)
    && At(g, dest).None? && IsHorizontal(src, dest, g).None?
  }

  /** The test of isCastlingMove, without the setting of the king's flag. */
  method CastlingTest(src: Pos, dest: Pos, g: Grid, rights: string) returns (castle: bool)
    requires OnBoard(src) && OnBoard(dest) && src != dest && At(g, src).Some? && WellFormed(g)
    ensures castle <==> CastlingMove(g, rights, src, dest)
  {
    var blocked := IsPathBlocked(src, dest, g);
    if blocked {
      return false;
    }
    var canCastle := CheckCastlingState(src, dest, g, rights);
    if canCastle && (At(g, dest).None? && IsHorizontal(src, dest, g).None?) {
      return true;
    }
    return false;
  }

  /**
   * A castling move goes along the king's row onto column 6 or 1, over
   * empty squares onto an empty square, with the matching letter in the
   * field.
   */
  lemma CastlingMoveShape(g: Grid, rights: string, src: Pos, dest: Pos)
    requires OnBoard(src) && OnBoard(dest) && src != dest && At(g, src).Some? && WellFormed(g)
    requires CastlingMove(g, rights, src, dest)
    ensures src.row == dest.row && (dest.col == 6 || dest.col == 1)
    ensures CastlingLetter(At(g, src).value.colour, dest.col).value in rights
    ensures At(g, dest).None? && Clear(g, src, dest)
  {
  }

  /**
   * A castling king passes no square the opponent can take, from its own
   * square up to, but not including, the destination.
   */
  lemma CastlingPathSafe(g: Grid, rights: string, src: Pos, dest: Pos, col: int)
    requires OnBoard(src) && OnBoard(dest) && src != dest && At(g, src).Some? && WellFormed(g)
    requires CastlingMove(g, rights, src, dest) && InPath(src.col, dest.col, col)
    ensures OnBoard(Pos(src.row, col))
    ensures CanBeTaken(Pos(src.row, col), g, Opponent(At(g, src).value.colour), '-').None?
  {
    assert !Threatened(g, src.row, col, Opponent(At(g, src).value.colour));
  }
}
