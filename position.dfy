/**
 * Making and taking back a move on the placement of the pieces:
 * ChessBoard::movePiece and ChessBoard::undoMove, as functions from the
 * placement before to the placement after. A placement is the board, the
 * recorded square of each king (kingPos, indexed by colour) and the side
 * to move. The flags are the isCastling fields of the two kings.
 */
module Position {
  import opened Coord
  import opened Pieces

  datatype Placement = Placement(grid: Grid, kingPos: seq<Pos>, side: Colour)

  /** Where the rook comes from when a king castles onto dest (column 6 or 1). */
  function RookFrom(dest: Pos): Pos {
    Pos(dest.row, if dest.col == 6 then dest.col + 1 else dest.col - 1)
  }

  /** Where that rook lands. */
  function RookTo(dest: Pos): Pos {
    Pos(dest.row, if dest.col == 6 then dest.col - 1 else dest.col + 1)
  }

  /** Moving p onto dest also moves the rook: p is a king whose isCastling flag is set. */
  predicate CarriesRook(p: Piece, flags: seq<bool>, dest: Pos)
    requires |flags| == 2
  {
    p.King? && flags[ColourIndex(p.colour)] && (dest.col == 6 || dest.col == 1)
  }

  /** Both recorded king squares are on the board. */
  predicate KingsOnBoard(kp: seq<Pos>) {
    |kp| == 2 && OnBoard(kp[0]) && OnBoard(kp[1])
  }

  /** Every king on the board stands where kingPos records it. */
  ghost predicate KingsRecorded(pl: Placement)
    requires |pl.kingPos| == 2
  {
    forall q :: OnBoard(q) && At(pl.grid, q).Some? && At(pl.grid, q).value.King? ==>
      pl.kingPos[ColourIndex(At(pl.grid, q).value.colour)] == q
  }

  /**
   * What movePiece dereferences: a piece on src and, when the move carries
   * the rook, a piece on the rook's corner.
   */
  predicate MoveDefined(pl: Placement, flags: seq<bool>, src: Pos, dest: Pos) {
    |pl.kingPos| == 2 && |flags| == 2 && OnBoard(src) && OnBoard(dest)
    && At(pl.grid, src).Some?
    && (CarriesRook(At(pl.grid, src).value, flags, dest) ==> At(pl.grid, RookFrom(dest)).Some?)
  }

  /** The occupant of q once the piece on src has moved onto dest. */
  function MovedAt(pl: Placement, flags: seq<bool>, src: Pos, dest: Pos, q: Pos): Option<Piece>
    requires MoveDefined(pl, flags, src, dest) && OnBoard(q)
  {
    var p := At(pl.grid, src).value;
    if q == src then None
    else if q == dest then Some(SetPos(p, dest))
    else if CarriesRook(p, flags, dest) && q == RookFrom(dest) then None
    else if CarriesRook(p, flags, dest) && q == RookTo(dest) then
      Some(SetPos(At(pl.grid, RookFrom(dest)).value, RookTo(dest)))
    else At(pl.grid, q)
  }

  /** An occupied square that the move neither leaves nor takes the rook from stays occupied. */
  lemma MovedAtOccupied(pl: Placement, flags: seq<bool>, src: Pos, dest: Pos, q: Pos)
    requires MoveDefined(pl, flags, src, dest) && OnBoard(q) && q != src && At(pl.grid, q).Some?
    requires CarriesRook(At(pl.grid, src).value, flags, dest) ==> q != RookFrom(dest)
    ensures MovedAt(pl, flags, src, dest, q).Some?
  {
  }

  /** The recorded king squares once the piece on src has moved onto dest. */
  function MovedKings(pl: Placement, flags: seq<bool>, src: Pos, dest: Pos): seq<Pos>
    requires MoveDefined(pl, flags, src, dest)
  {
    var p := At(pl.grid, src).value;
    var kp := if p.King? then pl.kingPos[ColourIndex(p.colour) := dest] else pl.kingPos;
    if CarriesRook(p, flags, dest) && At(pl.grid, RookFrom(dest)).value.King? then
      kp[ColourIndex(At(pl.grid, RookFrom(dest)).value.colour) := RookTo(dest)]
    else kp
  }

  /**
   * ChessBoard::movePiece: the piece goes to dest, a castling king brings
   * its rook along, src is emptied and the turn passes. The result also
   * holds what stood on dest.
   */
  function MovePiece(pl: Placement, flags: seq<bool>, src: Pos, dest: Pos): (r: (Placement, Option<Piece>))
    requires MoveDefined(pl, flags, src, dest)
    ensures r.1 == At(pl.grid, dest)
    ensures r.0.side == Opponent(pl.side)
    ensures forall q :: OnBoard(q) ==> At(r.0.grid, q) == MovedAt(pl, flags, src, dest, q)
    ensures r.0.kingPos == MovedKings(pl, flags, src, dest)
    decreases if dest.col == 6 || dest.col == 1 then 1 else 0
  {
    var p := At(pl.grid, src).value;
    var captured := At(pl.grid, dest);
    var s1 := pl.(grid := Put(pl.grid, dest, Some(SetPos(p, dest))),
                  kingPos := if p.King? then pl.kingPos[ColourIndex(p.colour) := dest]
                             else pl.kingPos);
    var s2 :=
      if CarriesRook(p, flags, dest) then
        var inner := MovePiece(s1, flags, RookFrom(dest), RookTo(dest)).0;
        inner.(side := Opponent(inner.side))
      else s1;
    (s2.(grid := Put(s2.grid, src, None), side := Opponent(s2.side)), captured)
  }

  /**
   * What undoMove dereferences: a piece on dest_o and, when the king carried
   * a rook, a piece on the rook's landing square.
   */
  predicate UndoDefined(pl: Placement, flags: seq<bool>, destO: Pos, srcO: Pos) {
    |pl.kingPos| == 2 && |flags| == 2 && OnBoard(destO) && OnBoard(srcO)
    && At(pl.grid, destO).Some?
    && (CarriesRook(At(pl.grid, destO).value, flags, destO) ==>
          At(Put(pl.grid, srcO, Some(SetPos(At(pl.grid, destO).value, srcO))), RookTo(destO)).Some?)
  }

  /** The occupant of q once the move from src_o to dest_o has been taken back. */
  function UndoneAt(pl: Placement, flags: seq<bool>, destO: Pos, srcO: Pos, taken: Option<Piece>,
                    q: Pos): Option<Piece>
    requires UndoDefined(pl, flags, destO, srcO) && OnBoard(q)
  {
    var d := At(pl.grid, destO).value;
    var back := Put(pl.grid, srcO, Some(SetPos(d, srcO)));
    if q == destO then (if taken.Some? then Some(SetPos(taken.value, destO)) else None)
    else if CarriesRook(d, flags, destO) && q == RookTo(destO) then None
    else if CarriesRook(d, flags, destO) && q == RookFrom(destO) then
      Some(SetPos(At(back, RookTo(destO)).value, RookFrom(destO)))
    else At(back, q)
  }

  /** The recorded king squares once the move has been taken back. */
  function UndoneKings(pl: Placement, flags: seq<bool>, destO: Pos, srcO: Pos): seq<Pos>
    requires UndoDefined(pl, flags, destO, srcO)
  {
    var d := At(pl.grid, destO).value;
    var back := Put(pl.grid, srcO, Some(SetPos(d, srcO)));
    var kp := if d.King? then pl.kingPos[ColourIndex(d.colour) := srcO] else pl.kingPos;
    if CarriesRook(d, flags, destO) && At(back, RookTo(destO)).value.King? then
      kp[ColourIndex(At(back, RookTo(destO)).value.colour) := RookFrom(destO)]
    else kp
  }

  /**
   * ChessBoard::undoMove: the piece on dest_o goes back to src_o, a castling
   * king takes its rook back, the taken piece returns to dest_o and the
   * turn passes back.
   */
  function UndoMove(pl: Placement, flags: seq<bool>, destO: Pos, srcO: Pos, taken: Option<Piece>): (r: Placement)
    requires UndoDefined(pl, flags, destO, srcO)
    ensures r.side == Opponent(pl.side)
    ensures forall q :: OnBoard(q) ==> At(r.grid, q) == UndoneAt(pl, flags, destO, srcO, taken, q)
    ensures r.kingPos == UndoneKings(pl, flags, destO, srcO)
    decreases if destO.col == 6 || destO.col == 1 then 1 else 0
  {
    var d := At(pl.grid, destO).value;
    var s1 := pl.(grid := Put(pl.grid, srcO, Some(SetPos(d, srcO))),
                  kingPos := if d.King? then pl.kingPos[ColourIndex(d.colour) := srcO]
                             else pl.kingPos);
    var s2 :=
      if CarriesRook(d, flags, destO) then
        var inner := UndoMove(s1, flags, RookTo(destO), RookFrom(destO), None);
        inner.(side := Opponent(inner.side))
      else s1;
    var restored := if taken.Some? then Some(SetPos(taken.value, destO)) else None;
    s2.(grid := Put(s2.grid, destO, restored), side := Opponent(s2.side))
  }

  /** Two grids that agree on every square are equal. */
  lemma GridExt(a: Grid, b: Grid)
    requires forall q :: OnBoard(q) ==> At(a, q) == At(b, q)
    ensures a == b
  {
    forall i | 0 <= i < 64
      ensures a[i] == b[i]
    {
      var q := Pos(i / 8, i % 8);
      assert OnBoard(q) && Index(q) == i;
      assert At(a, q) == At(b, q);
    }
  }

  /** movePiece keeps every piece's record of its square right. */
  lemma MoveWellFormed(pl: Placement, flags: seq<bool>, src: Pos, dest: Pos)
    requires MoveDefined(pl, flags, src, dest) && WellFormed(pl.grid)
    ensures WellFormed(MovePiece(pl, flags, src, dest).0.grid)
  {
  }

  /** movePiece records each king on a square of the board. */
  lemma MoveKingsOnBoard(pl: Placement, flags: seq<bool>, src: Pos, dest: Pos)
    requires MoveDefined(pl, flags, src, dest) && KingsOnBoard(pl.kingPos)
    ensures KingsOnBoard(MovePiece(pl, flags, src, dest).0.kingPos)
  {
  }

  /**
   * The condition under which tryValidMove's undoMove restores the board
   * exactly: the pieces know their squares, the kings are where kingPos
   * says, and a move that carries the rook starts neither on the rook's
   * corner nor on its landing square, which is empty.
   */
  ghost predicate Reversible(pl: Placement, flags: seq<bool>, src: Pos, dest: Pos)
    requires MoveDefined(pl, flags, src, dest)
  {
    src != dest && WellFormed(pl.grid) && KingsRecorded(pl)
    && (CarriesRook(At(pl.grid, src).value, flags, dest) ==>
          src != RookFrom(dest) && src != RookTo(dest) && At(pl.grid, RookTo(dest)).None?)
  }

  /** undoMove after movePiece, with the piece movePiece returned, gives back the placement. */
  lemma MoveUndo(pl: Placement, flags: seq<bool>, src: Pos, dest: Pos)
    requires MoveDefined(pl, flags, src, dest) && Reversible(pl, flags, src, dest)
    ensures var (after, captured) := MovePiece(pl, flags, src, dest);
      UndoDefined(after, flags, dest, src) && UndoMove(after, flags, dest, src, captured) == pl
  {
    MoveUndoDefined(pl, flags, src, dest);
    UndoRestoresGrid(pl, flags, src, dest);
    UndoRestoresKings(pl, flags, src, dest);
  }

  /** undoMove finds what it dereferences on the placement movePiece leaves. */
  lemma MoveUndoDefined(pl: Placement, flags: seq<bool>, src: Pos, dest: Pos)
    requires MoveDefined(pl, flags, src, dest) && Reversible(pl, flags, src, dest)
    ensures UndoDefined(MovePiece(pl, flags, src, dest).0, flags, dest, src)
  {
    var after := MovePiece(pl, flags, src, dest).0;
    var p := At(pl.grid, src).value;
    assert At(after.grid, dest) == Some(SetPos(p, dest));
    assert CarriesRook(SetPos(p, dest), flags, dest) == CarriesRook(p, flags, dest);
    var back := Put(after.grid, src, Some(SetPos(SetPos(p, dest), src)));
    if CarriesRook(p, flags, dest) {
      assert At(back, RookTo(dest)) == At(after.grid, RookTo(dest));
    }
  }

  /** Taking the move back puts every square's occupant back. */
  lemma UndoRestoresGrid(pl: Placement, flags: seq<bool>, src: Pos, dest: Pos)
    requires MoveDefined(pl, flags, src, dest) && Reversible(pl, flags, src, dest)
    requires UndoDefined(MovePiece(pl, flags, src, dest).0, flags, dest, src)
    ensures var (after, captured) := MovePiece(pl, flags, src, dest);
      UndoMove(after, flags, dest, src, captured).grid == pl.grid
  {
    var (after, captured) := MovePiece(pl, flags, src, dest);
    var r := UndoMove(after, flags, dest, src, captured);
    forall q | OnBoard(q)
      ensures At(r.grid, q) == At(pl.grid, q)
    {
      assert At(r.grid, q) == UndoneAt(after, flags, dest, src, captured, q);
      UndoneSquare(pl, flags, src, dest, q);
    }
    GridExt(r.grid, pl.grid);
  }

  /** Square by square: taking the move back puts q's occupant back. */
  lemma UndoneSquare(pl: Placement, flags: seq<bool>, src: Pos, dest: Pos, q: Pos)
    requires MoveDefined(pl, flags, src, dest) && Reversible(pl, flags, src, dest) && OnBoard(q)
    requires UndoDefined(MovePiece(pl, flags, src, dest).0, flags, dest, src)
    ensures var (after, captured) := MovePiece(pl, flags, src, dest);
      UndoneAt(after, flags, dest, src, captured, q) == At(pl.grid, q)
  {
    var after := MovePiece(pl, flags, src, dest).0;
    var p := At(pl.grid, src).value;
    assert At(after.grid, dest) == Some(SetPos(p, dest));
    assert CarriesRook(SetPos(p, dest), flags, dest) == CarriesRook(p, flags, dest);
  }

  /** Taking the move back restores the recorded king squares. */
  lemma UndoRestoresKings(pl: Placement, flags: seq<bool>, src: Pos, dest: Pos)
    requires MoveDefined(pl, flags, src, dest) && Reversible(pl, flags, src, dest)
    requires UndoDefined(MovePiece(pl, flags, src, dest).0, flags, dest, src)
    ensures var (after, captured) := MovePiece(pl, flags, src, dest);
      UndoMove(after, flags, dest, src, captured).kingPos == pl.kingPos
  {
    var (after, captured) := MovePiece(pl, flags, src, dest);
    assert UndoMove(after, flags, dest, src, captured).kingPos == UndoneKings(after, flags, dest, src);
    UndoneKingsBack(pl, flags, src, dest);
  }

  /** undoMove's record of the kings undoes movePiece's. */
  lemma UndoneKingsBack(pl: Placement, flags: seq<bool>, src: Pos, dest: Pos)
    requires MoveDefined(pl, flags, src, dest) && Reversible(pl, flags, src, dest)
    requires UndoDefined(MovePiece(pl, flags, src, dest).0, flags, dest, src)
    ensures UndoneKings(MovePiece(pl, flags, src, dest).0, flags, dest, src) == pl.kingPos
  {
    var after := MovePiece(pl, flags, src, dest).0;
    var p := At(pl.grid, src).value;
    assert At(after.grid, dest) == Some(SetPos(p, dest));
    var back := Put(after.grid, src, Some(SetPos(SetPos(p, dest), src)));
    var kp := pl.kingPos;
    if CarriesRook(p, flags, dest) {
      var rook := At(pl.grid, RookFrom(dest)).value;
      assert At(back, RookTo(dest)) == Some(SetPos(rook, RookTo(dest)));
      if rook.King? {
        assert kp[ColourIndex(rook.colour)] == RookFrom(dest);
      }
    }
  }

  /** The flags matter to movePiece only through whether the move carries the rook. */
  lemma MoveFlagsIrrelevant(pl: Placement, f1: seq<bool>, f2: seq<bool>, src: Pos, dest: Pos)
    requires MoveDefined(pl, f1, src, dest) && MoveDefined(pl, f2, src, dest)
    requires CarriesRook(At(pl.grid, src).value, f1, dest) == CarriesRook(At(pl.grid, src).value, f2, dest)
    ensures MovePiece(pl, f1, src, dest) == MovePiece(pl, f2, src, dest)
  {
    var a := MovePiece(pl, f1, src, dest).0;
    var b := MovePiece(pl, f2, src, dest).0;
    forall q | OnBoard(q)
      ensures At(a.grid, q) == At(b.grid, q)
    {
      assert MovedAt(pl, f1, src, dest, q) == MovedAt(pl, f2, src, dest, q);
    }
    GridExt(a.grid, b.grid);
  }
}
