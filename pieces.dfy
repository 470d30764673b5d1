/**
 * Chess pieces as values and the 8x8 board as a sequence of 64 squares.
 * A piece carries its colour and the position it believes it stands on
 * (ChessPiece::pos); the board is row-major, square (row, col) at
 * index row * 8 + col.
 */
module Pieces {
  import opened Coord

  datatype Option<T> = None | Some(value: T)

  /** ChessBoard::COLOUR: BLACK is 0, WHITE is 1. */
  datatype Colour = Black | White

  /** The colour toggle of changeSides and isPathBlocked. */
  function Opponent(c: Colour): (r: Colour)
    ensures r != c
  {
    if c == White then Black else White
  }

  /** The enum value of a colour, used to index kingPos. */
  function ColourIndex(c: Colour): (i: nat)
    ensures i < 2
    ensures (i == 0) <==> c == Black
  {
    if c == Black then 0 else 1
  }

  datatype Piece =
    | Pawn(colour: Colour, pos: Pos)
    | Knight(colour: Colour, pos: Pos)
    | Bishop(colour: Colour, pos: Pos)
    | Rook(colour: Colour, pos: Pos)
    | Queen(colour: Colour, pos: Pos)
    | King(colour: Colour, pos: Pos)

  /** The FEN letter of a piece: upper case for White, lower case for Black. */
  function Symbol(p: Piece): (c: char)
    ensures p.colour == White <==> 'A' <= c <= 'Z'
    ensures p.colour == Black <==> 'a' <= c <= 'z'
  {
    var white := p.colour == White;
    match p
    case Pawn(_, _) => if white then 'P' else 'p'
    case Knight(_, _) => if white then 'N' else 'n'
    case Bishop(_, _) => if white then 'B' else 'b'
    case Rook(_, _) => if white then 'R' else 'r'
    case Queen(_, _) => if white then 'Q' else 'q'
    case King(_, _) => if white then 'K' else 'k'
  }

  /** ChessPiece::setPos: only the position changes. */
  function SetPos(p: Piece, q: Pos): (r: Piece)
    ensures r.pos == q && r.colour == p.colour && Symbol(r) == Symbol(p)
    ensures r.Pawn? == p.Pawn? && r.Knight? == p.Knight? && r.Bishop? == p.Bishop?
    ensures r.Rook? == p.Rook? && r.Queen? == p.Queen? && r.King? == p.King?
  {
    p.(pos := q)
  }

  function EmptyGrid(): seq<Option<Piece>> {
    seq(64, _ => None)
  }

  type Grid = g: seq<Option<Piece>> | |g| == 64 witness EmptyGrid()

  /** The cell of board[row][col] in the row-major array of 64 squares. */
  function Cell(row: int, col: int): (i: nat)
    requires 0 <= row < 8 && 0 <= col < 8
    ensures i < 64
  {
    row * 8 + col
  }

  /** The cell of a square; also the order in which the searches visit squares. */
  function Index(p: Pos): (i: nat)
    requires OnBoard(p)
    ensures i < 64
  {
    Cell(p.row, p.col)
  }

  lemma IndexInjective(p: Pos, q: Pos)
    requires OnBoard(p) && OnBoard(q) && Index(p) == Index(q)
    ensures p == q
  {
  }

  /**
   * The occupant of a square (board[row][col]). The cell is computed from
   * the row and column rather than from the square itself, so that the
   * verifier does not evaluate it on every constant square it meets.
   */
  function At(g: Grid, p: Pos): Option<Piece>
    requires OnBoard(p)
  {
    g[Cell(p.row, p.col)]
  }

  /** The grid with one square replaced; every other square is unchanged. */
  function Put(g: Grid, p: Pos, v: Option<Piece>): (r: Grid)
    requires OnBoard(p)
    ensures At(r, p) == v
    ensures forall q :: OnBoard(q) && q != p ==> At(r, q) == At(g, q)
  {
    forall q | OnBoard(q) && q != p
      ensures Index(q) != Index(p)
    {
      if Index(q) == Index(p) { IndexInjective(p, q); }
    }
    g[Cell(p.row, p.col) := v]
  }

  /** Every piece on the board records the square it stands on. */
  ghost predicate WellFormed(g: Grid) {
    forall p :: OnBoard(p) && At(g, p).Some? ==> At(g, p).value.pos == p
  }
}
