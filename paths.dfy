/**
 * The path scans of Moves.cpp: walking a straight or diagonal line one
 * square at a time and reporting the first occupied square, and the
 * knight's L test.
 *
 * A scan walks from `cur` towards `dest` in steps of (dr, dc), each -1, 0
 * or 1 and not both 0; `Toward(a, b, dr, dc)` says that b is reached from a
 * by whole steps of that direction, so the walk ends exactly on dest.
 */
module Paths {
  import opened Coord
  import opened Pieces

  function Abs(x: int): nat {
    if x < 0 then -x else x
  }

  function Sign(x: int): int {
    if x > 0 then 1 else if x < 0 then -1 else 0
  }

  /** The number of king steps between two squares (Chebyshev distance). */
  function Dist(a: Pos, b: Pos): nat {
    var dr := Abs(b.row - a.row);
    var dc := Abs(b.col - a.col);
    if dr < dc then dc else dr
  }

  /** k steps of a direction component d. */
  function Offset(d: int, k: int): int {
    if d > 0 then k else if d < 0 then -k else 0
  }

  predicate IsDir(dr: int, dc: int) {
    -1 <= dr <= 1 && -1 <= dc <= 1 && (dr != 0 || dc != 0)
  }

  function Step(p: Pos, dr: int, dc: int): Pos {
    Pos(p.row + dr, p.col + dc)
  }

  /** b lies on the ray from a in direction (dr, dc) (possibly b == a). */
  predicate Toward(a: Pos, b: Pos, dr: int, dc: int) {
    b.row - a.row == Offset(dr, Dist(a, b)) && b.col - a.col == Offset(dc, Dist(a, b))
  }

  /** x is one of the squares a walk visits: from cur (included) up to dest (excluded). */
  predicate OnPath(cur: Pos, dest: Pos, x: Pos, dr: int, dc: int) {
    Toward(cur, x, dr, dc) && Toward(x, dest, dr, dc) && x != dest
  }

  predicate Straight(a: Pos, b: Pos) {
    a.row == b.row || a.col == b.col
  }

  predicate Diagonal(a: Pos, b: Pos) {
    Abs(b.row - a.row) == Abs(b.col - a.col)
  }

  /** x lies strictly between a and b on the line joining them. */
  predicate Between(a: Pos, b: Pos, x: Pos) {
    var dr := Sign(b.row - a.row);
    var dc := Sign(b.col - a.col);
    x != a && x != b && Toward(a, x, dr, dc) && Toward(x, b, dr, dc)
  }

  /** No piece stands strictly between a and b. */
  ghost predicate Clear(g: Grid, a: Pos, b: Pos) {
    forall x :: OnBoard(x) && Between(a, b, x) ==> At(g, x).None?
  }

  // ---------------------------------------------------------------------
  // Geometry of rays

  lemma StepToward(cur: Pos, dest: Pos, dr: int, dc: int)
    requires IsDir(dr, dc) && Toward(cur, dest, dr, dc) && cur != dest
    ensures Toward(Step(cur, dr, dc), dest, dr, dc)
    ensures Dist(Step(cur, dr, dc), dest) == Dist(cur, dest) - 1
    ensures OnBoard(cur) && OnBoard(dest) ==> OnBoard(Step(cur, dr, dc))
  {
  }

  lemma TowardSign(a: Pos, b: Pos, dr: int, dc: int)
    requires IsDir(dr, dc) && Toward(a, b, dr, dc) && a != b
    ensures dr == Sign(b.row - a.row) && dc == Sign(b.col - a.col)
  {
  }

  lemma TowardBack(a: Pos, b: Pos, dr: int, dc: int)
    requires IsDir(dr, dc) && Toward(a, b, dr, dc) && Toward(b, a, dr, dc)
    ensures a == b
  {
  }

  /** Stepping the start of a walk forward drops exactly the start square. */
  lemma OnPathStep(cur: Pos, dest: Pos, x: Pos, dr: int, dc: int)
    requires IsDir(dr, dc) && Toward(cur, dest, dr, dc) && cur != dest
    ensures OnPath(cur, dest, x, dr, dc) <==> x == cur || OnPath(Step(cur, dr, dc), dest, x, dr, dc)
    ensures !OnPath(Step(cur, dr, dc), dest, cur, dr, dc)
  {
    var s := Step(cur, dr, dc);
    if OnPath(s, dest, x, dr, dc) {
      assert Toward(cur, x, dr, dc);
    }
  }

  // ---------------------------------------------------------------------
  // The walk

  /** The loops of isDiagonal, isVertical and isHorizontal: the first occupied square met. */
  function Scan(g: Grid, cur: Pos, dest: Pos, dr: int, dc: int): Option<Piece>
    requires IsDir(dr, dc) && OnBoard(cur) && OnBoard(dest) && Toward(cur, dest, dr, dc)
    // |g| never changes: naming g here keeps the verifier from unrolling
    // the walk on its own whenever it meets constant squares.
    decreases Dist(cur, dest), |g|
  {
    if cur == dest then None
    else if At(g, cur).Some? then At(g, cur)
    else
      StepToward(cur, dest, dr, dc);
      Scan(g, Step(cur, dr, dc), dest, dr, dc)
  }

  lemma {:induction false} ScanEmpty(g: Grid, cur: Pos, dest: Pos, dr: int, dc: int)
    requires IsDir(dr, dc) && OnBoard(cur) && OnBoard(dest) && Toward(cur, dest, dr, dc)
    ensures Scan(g, cur, dest, dr, dc).None?
        <==> forall x :: OnBoard(x) && OnPath(cur, dest, x, dr, dc) ==> At(g, x).None?
    decreases Dist(cur, dest)
  {
    if cur == dest {
    } else {
      StepToward(cur, dest, dr, dc);
      var s := Step(cur, dr, dc);
      forall x | OnBoard(x)
        ensures OnPath(cur, dest, x, dr, dc) <==> x == cur || OnPath(s, dest, x, dr, dc)
      {
        OnPathStep(cur, dest, x, dr, dc);
      }
      if At(g, cur).None? {
        ScanEmpty(g, s, dest, dr, dc);
      } else {
        OnPathStep(cur, dest, cur, dr, dc);
      }
    }
  }

  /** A hit is on the walk, holds the piece reported, and every earlier square is empty. */
  lemma {:induction false} ScanHit(g: Grid, cur: Pos, dest: Pos, dr: int, dc: int)
    requires IsDir(dr, dc) && OnBoard(cur) && OnBoard(dest) && Toward(cur, dest, dr, dc)
    requires WellFormed(g) && Scan(g, cur, dest, dr, dc).Some?
    ensures var p := Scan(g, cur, dest, dr, dc).value.pos;
      OnBoard(p) && OnPath(cur, dest, p, dr, dc) && At(g, p) == Scan(g, cur, dest, dr, dc)
      && forall y :: OnBoard(y) && OnPath(cur, p, y, dr, dc) ==> At(g, y).None?
    decreases Dist(cur, dest)
  {
    OnPathStep(cur, dest, cur, dr, dc);
    if At(g, cur).Some? {
      forall y | OnBoard(y) && OnPath(cur, cur, y, dr, dc)
        ensures false
      {
        TowardBack(cur, y, dr, dc);
      }
    } else {
      StepToward(cur, dest, dr, dc);
      var s := Step(cur, dr, dc);
      ScanHit(g, s, dest, dr, dc);
      var p := Scan(g, s, dest, dr, dc).value.pos;
      OnPathStep(cur, dest, p, dr, dc);
      assert Toward(cur, p, dr, dc) && cur != p;
      forall y | OnBoard(y) && OnPath(cur, p, y, dr, dc)
        ensures At(g, y).None?
      {
        OnPathStep(cur, p, y, dr, dc);
      }
    }
  }

  /** The walk reports the first occupied square it visits. */
  lemma {:induction false} ScanFinds(g: Grid, cur: Pos, dest: Pos, dr: int, dc: int, x: Pos)
    requires IsDir(dr, dc) && OnBoard(cur) && OnBoard(dest) && Toward(cur, dest, dr, dc)
    requires OnBoard(x) && OnPath(cur, dest, x, dr, dc) && At(g, x).Some?
    requires forall y :: OnBoard(y) && OnPath(cur, x, y, dr, dc) ==> At(g, y).None?
    ensures Scan(g, cur, dest, dr, dc) == At(g, x)
    decreases Dist(cur, dest)
  {
    if cur != x {
      assert OnPath(cur, x, cur, dr, dc);
      StepToward(cur, dest, dr, dc);
      var s := Step(cur, dr, dc);
      OnPathStep(cur, dest, x, dr, dc);
      forall y | OnBoard(y) && OnPath(s, x, y, dr, dc)
        ensures At(g, y).None?
      {
        OnPathStep(cur, x, y, dr, dc);
      }
      ScanFinds(g, s, dest, dr, dc, x);
    }
  }

  /** The walk that starts one step after src visits exactly the squares between src and dest. */
  lemma LineSquares(src: Pos, dest: Pos, dr: int, dc: int)
    requires IsDir(dr, dc) && Toward(src, dest, dr, dc) && src != dest
    ensures Toward(Step(src, dr, dc), dest, dr, dc)
    ensures forall x :: OnPath(Step(src, dr, dc), dest, x, dr, dc) <==> Between(src, dest, x)
  {
    TowardSign(src, dest, dr, dc);
    StepToward(src, dest, dr, dc);
    forall x
      ensures OnPath(Step(src, dr, dc), dest, x, dr, dc) <==> Between(src, dest, x)
    {
      OnPathStep(src, dest, x, dr, dc);
    }
  }

  /** Scanning a whole line: empty iff the line is clear, and a hit is the nearest piece. */
  lemma LineScan(g: Grid, src: Pos, dest: Pos, dr: int, dc: int)
    requires IsDir(dr, dc) && OnBoard(src) && OnBoard(dest) && Toward(src, dest, dr, dc) && src != dest
    ensures OnBoard(Step(src, dr, dc)) && Toward(Step(src, dr, dc), dest, dr, dc)
    ensures Scan(g, Step(src, dr, dc), dest, dr, dc).None? <==> Clear(g, src, dest)
    ensures WellFormed(g) && Scan(g, Step(src, dr, dc), dest, dr, dc).Some? ==>
      var p := Scan(g, Step(src, dr, dc), dest, dr, dc).value.pos;
      OnBoard(p) && Between(src, dest, p) && At(g, p) == Scan(g, Step(src, dr, dc), dest, dr, dc)
      && Clear(g, src, p)
  {
    StepToward(src, dest, dr, dc);
    LineSquares(src, dest, dr, dc);
    var s := Step(src, dr, dc);
    ScanEmpty(g, s, dest, dr, dc);
    if WellFormed(g) && Scan(g, s, dest, dr, dc).Some? {
      ScanHit(g, s, dest, dr, dc);
      var p := Scan(g, s, dest, dr, dc).value.pos;
      assert Toward(src, p, dr, dc) by {
        OnPathStep(src, dest, p, dr, dc);
      }
      LineSquares(src, p, dr, dc);
    }
  }

  /** Scanning a line meets the nearest piece between src and dest. */
  lemma LineScanFinds(g: Grid, src: Pos, dest: Pos, dr: int, dc: int, x: Pos)
    requires IsDir(dr, dc) && OnBoard(src) && OnBoard(dest) && Toward(src, dest, dr, dc) && src != dest
    requires OnBoard(x) && Between(src, dest, x) && At(g, x).Some? && Clear(g, src, x)
    ensures OnBoard(Step(src, dr, dc)) && Toward(Step(src, dr, dc), dest, dr, dc)
    ensures Scan(g, Step(src, dr, dc), dest, dr, dc) == At(g, x)
  {
    StepToward(src, dest, dr, dc);
    LineSquares(src, dest, dr, dc);
    var s := Step(src, dr, dc);
    assert Toward(src, x, dr, dc) by {
      OnPathStep(src, dest, x, dr, dc);
    }
    LineSquares(src, x, dr, dc);
    ScanFinds(g, s, dest, dr, dc, x);
  }

  // ---------------------------------------------------------------------
  // isDiagonal, isVertical, isHorizontal, isL

  /**
   * isDiagonal: the occupant of src when dest is not on a diagonal of src,
   * otherwise the nearest piece strictly between them, or None when the
   * diagonal is clear.
   */
  function IsDiagonal(src: Pos, dest: Pos, g: Grid): (r: Option<Piece>)
    requires OnBoard(src) && OnBoard(dest) && src != dest
    ensures !Diagonal(src, dest) ==> r == At(g, src)
    ensures Diagonal(src, dest) ==> (r.None? <==> Clear(g, src, dest))
    ensures Diagonal(src, dest) && WellFormed(g) && r.Some? ==>
      OnBoard(r.value.pos) && Between(src, dest, r.value.pos) && At(g, r.value.pos) == r
      && Clear(g, src, r.value.pos)
  {
    if Abs(dest.row - src.row) != Abs(dest.col - src.col) then At(g, src)
    else
      var rowStep := if dest.row > src.row then 1 else -1;
      var colStep := if dest.col > src.col then 1 else -1;
      LineScan(g, src, dest, rowStep, colStep);
      Scan(g, Step(src, rowStep, colStep), dest, rowStep, colStep)
  }

  /** isVertical: as IsDiagonal, for dest in the column of src. */
  function IsVertical(src: Pos, dest: Pos, g: Grid): (r: Option<Piece>)
    requires OnBoard(src) && OnBoard(dest) && src != dest
    ensures src.col != dest.col ==> r == At(g, src)
    ensures src.col == dest.col ==> (r.None? <==> Clear(g, src, dest))
    ensures src.col == dest.col && WellFormed(g) && r.Some? ==>
      OnBoard(r.value.pos) && Between(src, dest, r.value.pos) && At(g, r.value.pos) == r
      && Clear(g, src, r.value.pos)
  {
    if src.col != dest.col then At(g, src)
    else
      var rowStep := if dest.row > src.row then 1 else -1;
      LineScan(g, src, dest, rowStep, 0);
      Scan(g, Step(src, rowStep, 0), dest, rowStep, 0)
  }

  /** isHorizontal: as IsDiagonal, for dest in the row of src. */
  function IsHorizontal(src: Pos, dest: Pos, g: Grid): (r: Option<Piece>)
    requires OnBoard(src) && OnBoard(dest) && src != dest
    ensures src.row != dest.row ==> r == At(g, src)
    ensures src.row == dest.row ==> (r.None? <==> Clear(g, src, dest))
    ensures src.row == dest.row && WellFormed(g) && r.Some? ==>
      OnBoard(r.value.pos) && Between(src, dest, r.value.pos) && At(g, r.value.pos) == r
      && Clear(g, src, r.value.pos)
  {
    if src.row != dest.row then At(g, src)
    else
      var colStep := if dest.col > src.col then 1 else -1;
      LineScan(g, src, dest, 0, colStep);
      Scan(g, Step(src, 0, colStep), dest, 0, colStep)
  }

  /** isDiagonal meets the nearest piece between src and dest. */
  lemma IsDiagonalFinds(g: Grid, src: Pos, dest: Pos, x: Pos)
    requires OnBoard(src) && OnBoard(dest) && src != dest && Diagonal(src, dest)
    requires OnBoard(x) && Between(src, dest, x) && At(g, x).Some? && Clear(g, src, x)
    ensures IsDiagonal(src, dest, g) == At(g, x)
  {
    var rowStep := if dest.row > src.row then 1 else -1;
    var colStep := if dest.col > src.col then 1 else -1;
    LineScanFinds(g, src, dest, rowStep, colStep, x);
  }

  /** isVertical meets the nearest piece between src and dest. */
  lemma IsVerticalFinds(g: Grid, src: Pos, dest: Pos, x: Pos)
    requires OnBoard(src) && OnBoard(dest) && src != dest && src.col == dest.col
    requires OnBoard(x) && Between(src, dest, x) && At(g, x).Some? && Clear(g, src, x)
    ensures IsVertical(src, dest, g) == At(g, x)
  {
    var rowStep := if dest.row > src.row then 1 else -1;
    LineScanFinds(g, src, dest, rowStep, 0, x);
  }

  /** isHorizontal meets the nearest piece between src and dest. */
  lemma IsHorizontalFinds(g: Grid, src: Pos, dest: Pos, x: Pos)
    requires OnBoard(src) && OnBoard(dest) && src != dest && src.row == dest.row
    requires OnBoard(x) && Between(src, dest, x) && At(g, x).Some? && Clear(g, src, x)
    ensures IsHorizontal(src, dest, g) == At(g, x)
  {
    var colStep := if dest.col > src.col then 1 else -1;
    LineScanFinds(g, src, dest, 0, colStep, x);
  }

  /** Squares between a and b are also between b and a. */
  lemma BetweenSymmetric(a: Pos, b: Pos, x: Pos)
    requires Between(a, b, x)
    ensures Between(b, a, x)
  {
  }

  lemma ClearSymmetric(g: Grid, a: Pos, b: Pos)
    requires Clear(g, a, b)
    ensures Clear(g, b, a)
  {
    forall x | OnBoard(x) && Between(b, a, x)
      ensures At(g, x).None?
    {
      BetweenSymmetric(b, a, x);
    }
  }

  /** Two squares on a common line: the second lies on the ray from the first towards it. */
  lemma AlignedToward(a: Pos, b: Pos)
    requires Straight(a, b) || Diagonal(a, b)
    ensures Toward(a, b, Sign(b.row - a.row), Sign(b.col - a.col))
  {
  }

  /** The square n steps from a towards b. */
  function WalkAt(a: Pos, b: Pos, n: int): Pos {
    Pos(a.row + Offset(Sign(b.row - a.row), n), a.col + Offset(Sign(b.col - a.col), n))
  }

  /** The walk from a towards an aligned b starts one step (dr, dc) away from a. */
  lemma WalkStart(a: Pos, b: Pos, dr: int, dc: int)
    requires (Straight(a, b) || Diagonal(a, b)) && a != b
    requires dr == Sign(b.row - a.row) && dc == Sign(b.col - a.col)
    ensures 1 <= Dist(a, b) && WalkAt(a, b, 1) == Pos(a.row + dr, a.col + dc)
  {
  }

  /**
   * The walk from a towards an aligned b reaches b after Dist(a, b) steps;
   * before that its square (row, col) lies between them, n steps from a,
   * and the next step (dr, dc) is square n + 1 of the walk.
   */
  lemma WalkStep(a: Pos, b: Pos, n: int, row: int, col: int, dr: int, dc: int)
    requires (Straight(a, b) || Diagonal(a, b)) && a != b && OnBoard(a) && OnBoard(b)
    requires dr == Sign(b.row - a.row) && dc == Sign(b.col - a.col)
    requires 1 <= n <= Dist(a, b) && Pos(row, col) == WalkAt(a, b, n)
    ensures (row != b.row || col != b.col) <==> n < Dist(a, b)
    ensures (row != b.row || col != b.col) ==>
      OnBoard(Pos(row, col)) && Between(a, b, Pos(row, col)) && Dist(a, Pos(row, col)) == n
      && Pos(row + dr, col + dc) == WalkAt(a, b, n + 1)
  {
    AlignedToward(a, b);
    var x := Pos(row, col);
    OffsetDist(a, x, dr, dc, n);
    OffsetDist(x, b, dr, dc, Dist(a, b) - n);
  }

  /** n steps of a direction lead to a square n steps away, in that direction. */
  lemma OffsetDist(a: Pos, x: Pos, dr: int, dc: int, n: nat)
    requires IsDir(dr, dc) && x.row - a.row == Offset(dr, n) && x.col - a.col == Offset(dc, n)
    ensures Dist(a, x) == n && Toward(a, x, dr, dc)
  {
  }

  /** A square on a ray no farther than the ray's end is the end or lies between. */
  lemma OnRay(a: Pos, e: Pos, x: Pos, dr: int, dc: int)
    requires IsDir(dr, dc) && Toward(a, e, dr, dc) && Toward(a, x, dr, dc)
    requires x != a && Dist(a, x) <= Dist(a, e)
    ensures x == e || Between(a, e, x)
  {
    TowardSign(a, x, dr, dc);
    TowardSign(a, e, dr, dc);
  }

  /** isL: a knight's jump, two squares one way and one the other. */
  function IsL(src: Pos, dest: Pos): (r: bool)
    ensures r <==> Dist(src, dest) == 2 && Abs(src.row - dest.row) + Abs(src.col - dest.col) == 3
  {
    if !(Abs(src.row - dest.row) == 2 && Abs(src.col - dest.col) == 1)
       && !(Abs(src.row - dest.row) == 1 && Abs(src.col - dest.col) == 2)
    then false
    else true
  }

  lemma IsLSymmetric(a: Pos, b: Pos)
    ensures IsL(a, b) == IsL(b, a)
  {
  }

  /** A knight's jump is never along a line, so nothing lies between its ends. */
  lemma IsLNotAligned(a: Pos, b: Pos)
    requires IsL(a, b)
    ensures !Straight(a, b) && !Diagonal(a, b)
  {
  }
}
