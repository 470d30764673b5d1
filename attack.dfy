/**
 * Whether the piece (or empty square) at a position can be taken or
 * reached: canCheck and the is*Check ray queries of Moves.cpp, and
 * ChessPiece::canBeTaken with its checkHorizontal, checkVertical and
 * checkDiagonal helpers.
 *
 * `side` is the side to move. A square occupied by a piece can be taken by
 * a piece of the other colour; an empty square can be reached by a piece
 * of the side to move. `except` names a kind of piece, by its upper-case
 * letter, that a ray query must not report as the nearest piece on the
 * ray; '-' names none.
 */
module Attack {
  import opened Coord
  import opened Pieces
  import opened Paths
  import opened Rules

  /** The symbol test of canCheck: the letter itself or the letter 32 places up (lower case). */
  predicate Excluded(p: Piece, except: char) {
    Symbol(p) as int == except as int || Symbol(p) as int == except as int + 32
  }

  /** The colour test of canCheck for a piece t that would move to src. */
  predicate ColourOK(g: Grid, src: Pos, side: Colour, t: Piece)
    requires OnBoard(src)
  {
    (At(g, src).Some? && t.colour != At(g, src).value.colour)
    || (At(g, src).None? && t.colour == side)
  }

  /** t stands on the board and may move to pos: it attacks the piece there or may reach the empty square. */
  ghost predicate Attacks(g: Grid, pos: Pos, side: Colour, t: Piece) {
    OnBoard(pos) && OnBoard(t.pos) && At(g, t.pos) == Some(t) && t.pos != pos
    && ColourOK(g, pos, side, t) && ValidMove(g, t, t.pos, pos)
  }

  /**
   * canCheck: the nearest piece found on a ray (taking), or failing that the
   * piece on the ray's edge square dest, when it may move onto src.
   */
  function CanCheck(taking: Option<Piece>, src: Pos, dest: Pos, g: Grid, side: Colour,
                    except: char): (r: Option<Piece>)
    requires OnBoard(src) && WellFormed(g)
    requires taking.Some? ==> OnBoard(taking.value.pos) && taking.value.pos != src
    requires taking.None? ==> OnBoard(dest) && dest != src
    ensures r.Some? ==> r == (if taking.Some? then taking else At(g, dest))
    ensures r.Some? ==> ColourOK(g, src, side, r.value) && ValidMove(g, r.value, r.value.pos, src)
    ensures taking.Some? && Excluded(taking.value, except) ==> r.None?
    ensures taking.None? && At(g, dest).None? ==> r.None?
    ensures (taking.Some? && !Excluded(taking.value, except) && ColourOK(g, src, side, taking.value)
             && ValidMove(g, taking.value, taking.value.pos, src)) ==> r == taking
    ensures (taking.None? && At(g, dest).Some? && ColourOK(g, src, side, At(g, dest).value)
             && ValidMove(g, At(g, dest).value, dest, src)) ==> r == At(g, dest)
  {
    if taking.Some? && Excluded(taking.value, except) then None
    else if taking.None? && At(g, dest).None? then None
    else
      var t := if taking.Some? then taking.value else At(g, dest).value;
      if (At(g, src).Some? && t.colour != At(g, src).value.colour)
         || (At(g, src).None? && t.colour == side)
      then
        if ValidMove(g, t, t.pos, src) then Some(t) else None
      else None
  }

  // ---------------------------------------------------------------------
  // The ray queries from src towards an edge square dest

  function IsDiagonalCheck(src: Pos, dest: Pos, g: Grid, side: Colour, except: char): (r: Option<Piece>)
    requires OnBoard(src) && OnBoard(dest) && Diagonal(src, dest) && WellFormed(g)
    ensures r.Some? ==> Attacks(g, src, side, r.value)
  {
    if Equal(src, dest) then None
    else CanCheck(IsDiagonal(src, dest, g), src, dest, g, side, except)
  }

  function IsVerticalCheck(src: Pos, dest: Pos, g: Grid, side: Colour, except: char): (r: Option<Piece>)
    requires OnBoard(src) && OnBoard(dest) && src.col == dest.col && WellFormed(g)
    ensures r.Some? ==> Attacks(g, src, side, r.value)
  {
    if Equal(src, dest) then None
    else CanCheck(IsVertical(src, dest, g), src, dest, g, side, except)
  }

  function IsHorizontalCheck(src: Pos, dest: Pos, g: Grid, side: Colour, except: char): (r: Option<Piece>)
    requires OnBoard(src) && OnBoard(dest) && src.row == dest.row && WellFormed(g)
    ensures r.Some? ==> Attacks(g, src, side, r.value)
  {
    if Equal(src, dest) then None
    else CanCheck(IsHorizontal(src, dest, g), src, dest, g, side, except)
  }

  /**
   * A ray query finds t when t stands on the ray (possibly on its edge
   * square) with nothing between, may move onto src, and is not excluded.
   */
  lemma RayFinds(g: Grid, src: Pos, dest: Pos, side: Colour, except: char, t: Piece)
    requires WellFormed(g) && OnBoard(src) && OnBoard(dest) && src != dest
    requires OnBoard(t.pos) && At(g, t.pos) == Some(t)
    requires t.pos == dest || Between(src, dest, t.pos)
    requires Clear(g, src, t.pos) && !Excluded(t, except)
    requires ColourOK(g, src, side, t) && ValidMove(g, t, t.pos, src)
    ensures src.row == dest.row ==> IsHorizontalCheck(src, dest, g, side, except) == Some(t)
    ensures src.col == dest.col ==> IsVerticalCheck(src, dest, g, side, except) == Some(t)
    ensures Diagonal(src, dest) ==> IsDiagonalCheck(src, dest, g, side, except) == Some(t)
  {
    if t.pos != dest {
      if src.row == dest.row { IsHorizontalFinds(g, src, dest, t.pos); }
      if src.col == dest.col { IsVerticalFinds(g, src, dest, t.pos); }
      if Diagonal(src, dest) { IsDiagonalFinds(g, src, dest, t.pos); }
    }
  }

  // ---------------------------------------------------------------------
  // The four families of rays of canBeTaken

  /** checkHorizontal: the ray to the left edge, then the ray to the right edge. */
  function CheckHorizontal(pos: Pos, g: Grid, side: Colour, except: char): (r: Option<Piece>)
    requires OnBoard(pos) && WellFormed(g)
    ensures r.Some? ==> Attacks(g, pos, side, r.value)
  {
    var left := IsHorizontalCheck(pos, Pos(pos.row, 0), g, side, except);
    if left.Some? then left
    else IsHorizontalCheck(pos, Pos(pos.row, 7), g, side, except)
  }

  /** checkVertical: the ray to the top edge, then the ray to the bottom edge. */
  function CheckVertical(pos: Pos, g: Grid, side: Colour, except: char): (r: Option<Piece>)
    requires OnBoard(pos) && WellFormed(g)
    ensures r.Some? ==> Attacks(g, pos, side, r.value)
  {
    var top := IsVerticalCheck(pos, Pos(0, pos.col), g, side, except);
    if top.Some? then top
    else IsVerticalCheck(pos, Pos(7, pos.col), g, side, except)
  }

  /**
   * The last square on the board along the diagonal from pos in direction
   * (dr, dc): checkDiagonal steps as far as the nearer of the row edge and
   * the column edge allows.
   */
  function DiagonalEdge(pos: Pos, dr: int, dc: int): (e: Pos)
    requires OnBoard(pos) && (dr == -1 || dr == 1) && (dc == -1 || dc == 1)
    ensures OnBoard(e) && Diagonal(pos, e) && Toward(pos, e, dr, dc)
    ensures !OnBoard(Step(e, dr, dc))
  {
    var rowRoom := if dr < 0 then pos.row - 0 else 7 - pos.row;
    var colRoom := if dc < 0 then pos.col - 0 else 7 - pos.col;
    var offset := if colRoom < rowRoom then colRoom else rowRoom;
    Pos(pos.row + Offset(dr, offset), pos.col + Offset(dc, offset))
  }

  /**
   * checkDiagonal: the four diagonal rays, top-left, top-right,
   * bottom-right, bottom-left, each up to the last square on the board.
   */
  function CheckDiagonal(pos: Pos, g: Grid, side: Colour, except: char): (r: Option<Piece>)
    requires OnBoard(pos) && WellFormed(g)
    ensures r.Some? ==> Attacks(g, pos, side, r.value)
  {
    var topLeft := IsDiagonalCheck(pos, DiagonalEdge(pos, -1, -1), g, side, except);
    if topLeft.Some? then topLeft
    else
      var topRight := IsDiagonalCheck(pos, DiagonalEdge(pos, -1, 1), g, side, except);
      if topRight.Some? then topRight
      else
        var bottomRight := IsDiagonalCheck(pos, DiagonalEdge(pos, 1, 1), g, side, except);
        if bottomRight.Some? then bottomRight
        else IsDiagonalCheck(pos, DiagonalEdge(pos, 1, -1), g, side, except)
  }

  // ---------------------------------------------------------------------
  // Knights

  /** The LMoves table of isLCheck. */
  const LMoves: seq<(int, int)> :=
    [(-2, -1), (-2, 1), (-1, -2), (-1, 2), (1, -2), (1, 2), (2, -1), (2, 1)]

  function KnightSquare(pos: Pos, i: nat): Pos
    requires i < 8
  {
    Pos(pos.row + LMoves[i].0, pos.col + LMoves[i].1)
  }

  /** The table lists exactly the knight's jumps. */
  lemma KnightSquares(pos: Pos, q: Pos)
    ensures IsL(q, pos) <==> exists i :: 0 <= i < 8 && q == KnightSquare(pos, i)
  {
    if IsL(q, pos) {
      var dr, dc := q.row - pos.row, q.col - pos.col;
      var i :=
        if dr == -2 && dc == -1 then 0 else if dr == -2 && dc == 1 then 1
        else if dr == -1 && dc == -2 then 2 else if dr == -1 && dc == 2 then 3
        else if dr == 1 && dc == -2 then 4 else if dr == 1 && dc == 2 then 5
        else if dr == 2 && dc == -1 then 6 else 7;
      assert q == KnightSquare(pos, i);
    }
  }

  /** The loop of isLCheck from entry i of LMoves on. */
  function KnightCheckFrom(pos: Pos, g: Grid, side: Colour, i: nat): (r: Option<Piece>)
    requires OnBoard(pos) && WellFormed(g) && i <= 8
    ensures r.Some? ==> r.value.Knight? && Attacks(g, pos, side, r.value)
    decreases 8 - i
  {
    if i == 8 then None
    else
      var row := pos.row + LMoves[i].0;
      var col := pos.col + LMoves[i].1;
      if (0 <= row && row < 8) && (0 <= col && col < 8) then
        var takingPiece := At(g, Pos(row, col));
        if takingPiece.Some? && (Symbol(takingPiece.value) == 'n' || Symbol(takingPiece.value) == 'N')
           && CanCheck(takingPiece, pos, Invalid, g, side, '-').Some?
        then takingPiece
        else KnightCheckFrom(pos, g, side, i + 1)
      else KnightCheckFrom(pos, g, side, i + 1)
  }

  /** isLCheck: a knight a jump away that may move onto pos. */
  function IsLCheck(pos: Pos, g: Grid, side: Colour): (r: Option<Piece>)
    requires OnBoard(pos) && WellFormed(g)
    ensures r.Some? ==> r.value.Knight? && Attacks(g, pos, side, r.value)
  {
    KnightCheckFrom(pos, g, side, 0)
  }

  lemma {:induction false} KnightCheckFinds(pos: Pos, g: Grid, side: Colour, i: nat, j: nat, t: Piece)
    requires OnBoard(pos) && WellFormed(g) && i <= j < 8
    requires t.Knight? && t.pos == KnightSquare(pos, j) && Attacks(g, pos, side, t)
    ensures KnightCheckFrom(pos, g, side, i).Some?
    decreases j - i
  {
    if i < j {
      var r := KnightCheckFrom(pos, g, side, i);
      if r.None? {
        KnightCheckFinds(pos, g, side, i + 1, j, t);
      }
    } else {
      KnightCheckHits(pos, g, side, j, t);
    }
  }

  /** The loop stops at the entry of LMoves that leads to an attacking knight. */
  lemma KnightCheckHits(pos: Pos, g: Grid, side: Colour, j: nat, t: Piece)
    requires OnBoard(pos) && WellFormed(g) && j < 8
    requires t.Knight? && t.pos == KnightSquare(pos, j) && Attacks(g, pos, side, t)
    ensures KnightCheckFrom(pos, g, side, j).Some?
  {
  }

  // ---------------------------------------------------------------------
  // canBeTaken

  /**
   * ChessPiece::canBeTaken: the first piece found by the horizontal rays,
   * the vertical rays, the diagonal rays and the knight squares, in that
   * order. Every piece it reports may move onto pos.
   */
  function CanBeTaken(pos: Pos, g: Grid, side: Colour, except: char): (r: Option<Piece>)
    requires OnBoard(pos) && WellFormed(g)
    ensures r.Some? ==> Attacks(g, pos, side, r.value)
  {
    var horizontal := CheckHorizontal(pos, g, side, except);
    if horizontal.Some? then horizontal
    else
      var vertical := CheckVertical(pos, g, side, except);
      if vertical.Some? then vertical
      else
        var diagonal := CheckDiagonal(pos, g, side, except);
        if diagonal.Some? then diagonal
        else IsLCheck(pos, g, side)
  }

  /** A reported piece other than a knight stands on a line through pos with nothing between. */
  lemma AttackerAligned(pos: Pos, g: Grid, side: Colour, except: char)
    requires OnBoard(pos) && WellFormed(g)
    requires CanBeTaken(pos, g, side, except).Some?
    ensures var t := CanBeTaken(pos, g, side, except).value;
      !t.Knight? ==> (Straight(t.pos, pos) || Diagonal(t.pos, pos)) && Clear(g, t.pos, pos)
  {
    var t := CanBeTaken(pos, g, side, except).value;
    ValidMoveGeometry(g, t, t.pos, pos);
  }

  lemma HorizontalComplete(pos: Pos, g: Grid, side: Colour, except: char, t: Piece)
    requires OnBoard(pos) && WellFormed(g) && Attacks(g, pos, side, t) && !Excluded(t, except)
    requires t.pos.row == pos.row && Clear(g, pos, t.pos)
    ensures CheckHorizontal(pos, g, side, except).Some?
  {
    AlignedToward(pos, t.pos);
    var dr, dc := Sign(t.pos.row - pos.row), Sign(t.pos.col - pos.col);
    var e := if dc < 0 then Pos(pos.row, 0) else Pos(pos.row, 7);
    OnRay(pos, e, t.pos, dr, dc);
    RayFinds(g, pos, e, side, except, t);
  }

  lemma VerticalComplete(pos: Pos, g: Grid, side: Colour, except: char, t: Piece)
    requires OnBoard(pos) && WellFormed(g) && Attacks(g, pos, side, t) && !Excluded(t, except)
    requires t.pos.col == pos.col && Clear(g, pos, t.pos)
    ensures CheckVertical(pos, g, side, except).Some?
  {
    AlignedToward(pos, t.pos);
    var dr, dc := Sign(t.pos.row - pos.row), Sign(t.pos.col - pos.col);
    var e := if dr < 0 then Pos(0, pos.col) else Pos(7, pos.col);
    OnRay(pos, e, t.pos, dr, dc);
    RayFinds(g, pos, e, side, except, t);
  }

  /** The diagonal ray from pos towards t, up to the board's edge, finds t. */
  lemma DiagonalRay(pos: Pos, g: Grid, side: Colour, except: char, t: Piece)
    requires OnBoard(pos) && WellFormed(g) && Attacks(g, pos, side, t) && !Excluded(t, except)
    requires Diagonal(pos, t.pos) && Clear(g, pos, t.pos)
    ensures var e := DiagonalEdge(pos, Sign(t.pos.row - pos.row), Sign(t.pos.col - pos.col));
      IsDiagonalCheck(pos, e, g, side, except) == Some(t)
  {
    AlignedToward(pos, t.pos);
    var dr, dc := Sign(t.pos.row - pos.row), Sign(t.pos.col - pos.col);
    var e := DiagonalEdge(pos, dr, dc);
    OnRay(pos, e, t.pos, dr, dc);
    RayFinds(g, pos, e, side, except, t);
  }

  lemma DiagonalComplete(pos: Pos, g: Grid, side: Colour, except: char, t: Piece)
    requires OnBoard(pos) && WellFormed(g) && Attacks(g, pos, side, t) && !Excluded(t, except)
    requires Diagonal(pos, t.pos) && Clear(g, pos, t.pos)
    ensures CheckDiagonal(pos, g, side, except).Some?
  {
    DiagonalRay(pos, g, side, except, t);
  }

  lemma KnightComplete(pos: Pos, g: Grid, side: Colour, t: Piece)
    requires OnBoard(pos) && WellFormed(g) && Attacks(g, pos, side, t)
    requires t.Knight? && IsL(t.pos, pos)
    ensures IsLCheck(pos, g, side).Some?
  {
    KnightSquares(pos, t.pos);
    IsLSymmetric(t.pos, pos);
    var j :| 0 <= j < 8 && t.pos == KnightSquare(pos, j);
    KnightCheckFinds(pos, g, side, 0, j, t);
  }

  /**
   * canBeTaken misses nothing: whenever some piece t, not of the excluded
   * kind, may move onto pos, some piece is reported.
   */
  lemma CanBeTakenComplete(pos: Pos, g: Grid, side: Colour, except: char, t: Piece)
    requires OnBoard(pos) && WellFormed(g)
    requires Attacks(g, pos, side, t) && !Excluded(t, except)
    ensures CanBeTaken(pos, g, side, except).Some?
  {
    ValidMoveGeometry(g, t, t.pos, pos);
    if t.Knight? {
      KnightComplete(pos, g, side, t);
    } else {
      ClearSymmetric(g, t.pos, pos);
      if t.pos.row == pos.row {
        HorizontalComplete(pos, g, side, except, t);
      } else if t.pos.col == pos.col {
        VerticalComplete(pos, g, side, except, t);
      } else {
        DiagonalComplete(pos, g, side, except, t);
      }
    }
  }
}
