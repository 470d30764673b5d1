/**
 * Board coordinates: a square is a (row, col) pair where row 0 is rank 8
 * and col 0 is file A, so "A8" is (0, 0) and "H1" is (7, 7).
 * The invalid position produced for malformed input is (-1, -1).
 */
module Coord {

  datatype Pos = Pos(row: int, col: int)

  /** The position parsePosition returns for text that names no square. */
  const Invalid := Pos(-1, -1)

  predicate OnBoard(p: Pos) {
    0 <= p.row < 8 && 0 <= p.col < 8
  }

  /** The text is exactly an upper-case file letter followed by a rank digit. */
  predicate IsSquareName(s: string) {
    |s| == 2 && 'A' <= s[0] <= 'H' && '1' <= s[1] <= '8'
  }

  /**
   * Reads a square name. The text is the characters before the terminating
   * NUL, so a missing first or second character or a third character means
   * the name is malformed.
   */
  function ParsePosition(s: string): (p: Pos)
    ensures IsSquareName(s) ==> OnBoard(p)
    ensures !IsSquareName(s) <==> p == Invalid
    ensures p.row == -1 <==> !IsSquareName(s)
  {
    if |s| < 1 || |s| < 2 || |s| > 2
       || s[0] < 'A' || s[0] > 'H'
       || s[1] < '1' || s[1] > '8'
    then Invalid
    else Pos(7 - (s[1] as int - '1' as int), s[0] as int - 'A' as int)
  }

  /** The name of an on-board square: the inverse of ParsePosition. */
  function SquareName(p: Pos): (s: string)
    requires OnBoard(p)
    ensures IsSquareName(s)
  {
    [('A' as int + p.col) as char, ('1' as int + 7 - p.row) as char]
  }

  lemma ParseSquareName(p: Pos)
    requires OnBoard(p)
    ensures ParsePosition(SquareName(p)) == p
  {
  }

  lemma SquareNameParse(s: string)
    requires IsSquareName(s)
    ensures SquareName(ParsePosition(s)) == s
  {
    var t := SquareName(ParsePosition(s));
    assert t[0] == s[0] && t[1] == s[1];
  }

  /** Distinct square names denote distinct squares. */
  lemma ParseInjective(s: string, t: string)
    requires IsSquareName(s) && IsSquareName(t)
    requires ParsePosition(s) == ParsePosition(t)
    ensures s == t
  {
    SquareNameParse(s);
    SquareNameParse(t);
  }

  /** Pos::operator== */
  function Equal(a: Pos, b: Pos): (r: bool)
    ensures r <==> a == b
  {
    a.row == b.row && a.col == b.col
  }

  /** Pos::operator!= */
  function NotEqual(a: Pos, b: Pos): (r: bool)
    ensures r <==> a != b
    ensures r == !Equal(a, b)
  {
    !(a.row == b.row && a.col == b.col)
  }
}
