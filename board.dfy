/**
 * ChessBoard as a class: the board array, the recorded king squares, the
 * side to move, the castling field and the isCastling flag of each king,
 * updated in place by the same steps as ChessBoard.cpp. Each method is
 * proved against the value-level model: movePiece and undoMove against
 * Position, tryValidMove against Legal.LegalMove, the searches of
 * checkGameState against their specifications, and submitMove against
 * Legal.SubmitOutcome.
 */
module Board {
  import opened Coord
  import opened Pieces
  import opened Paths
  import opened Rules
  import opened Attack
  import opened Castling
  import opened Rights
  import opened Position
  import opened Legal

  // ---------------------------------------------------------------------
  // What the searches have ruled out so far

  /** The order in which kingCanMove tries the neighbour d of k. */
  function StepIndex(k: Pos, d: Pos): int {
    3 * (d.row - k.row + 1) + (d.col - k.col + 1)
  }

  /** No step of the king on k to a neighbour tried before the n-th is legal. */
  ghost predicate NoStepBefore(st: State, k: Pos, n: int)
    requires Sound(st) && OnBoard(k) && At(st.pl.grid, k).Some?
  {
    forall d :: OnBoard(d) && Dist(k, d) == 1 && StepIndex(k, d) < n ==> !LegalMove(st, k, d)
  }

  /** The order of kingCanMove names each neighbour once. */
  lemma StepIndexUnique(k: Pos, d: Pos, rs: int, cs: int)
    requires -1 <= rs <= 1 && -1 <= cs <= 1
    ensures (rs != 0 || cs != 0) ==> Dist(k, Pos(k.row + rs, k.col + cs)) == 1
    ensures Dist(k, d) == 1 && StepIndex(k, d) == 3 * (rs + 1) + (cs + 1) ==> d == Pos(k.row + rs, k.col + cs)
  {
  }

  /** The outcome of the neighbour (rs, cs): a step found, or one more neighbour ruled out. */
  lemma StepNext(st: State, k: Pos, rs: int, cs: int, ok: bool)
    requires Sound(st) && OnBoard(k) && At(st.pl.grid, k).Some?
    requires -1 <= rs <= 1 && -1 <= cs <= 1
    requires NoStepBefore(st, k, 3 * (rs + 1) + (cs + 1))
    requires if (rs != 0 || cs != 0) && OnBoard(Pos(k.row + rs, k.col + cs))
      then ok == LegalMove(st, k, Pos(k.row + rs, k.col + cs)) else !ok
    ensures ok ==> exists d :: OnBoard(d) && Dist(k, d) == 1 && LegalMove(st, k, d)
    ensures !ok ==> NoStepBefore(st, k, 3 * (rs + 1) + (cs + 1) + 1)
  {
    var e := Pos(k.row + rs, k.col + cs);
    StepIndexUnique(k, e, rs, cs);
    forall d | OnBoard(d) && Dist(k, d) == 1 && StepIndex(k, d) < 3 * (rs + 1) + (cs + 1) + 1 && !ok
      ensures !LegalMove(st, k, d)
    {
      StepIndexUnique(k, d, rs, cs);
    }
  }

  lemma StepsDone(st: State)
    requires Sound(st)
    requires NoStepBefore(st, KingSquare(st), 9)
    ensures !KingCanMoveSpec(st)
  {
  }

  /** No move of the piece on q to a square before the n-th in row-major order is legal. */
  ghost predicate NoMoveBefore(st: State, q: Pos, n: int)
    requires Sound(st) && OnBoard(q) && At(st.pl.grid, q).Some?
  {
    forall d :: OnBoard(d) && Index(d) < n ==> !LegalMove(st, q, d)
  }

  /** The outcome of trying d: a move found, or one more square ruled out. */
  lemma MoveNext(st: State, q: Pos, d: Pos, ok: bool)
    requires Sound(st) && OnBoard(q) && At(st.pl.grid, q).Some? && OnBoard(d)
    requires NoMoveBefore(st, q, Index(d)) && ok == LegalMove(st, q, d)
    ensures ok ==> PieceHasValidMoveSpec(st, q)
    ensures !ok ==> NoMoveBefore(st, q, Index(d) + 1)
  {
    forall e | OnBoard(e) && Index(e) < Index(d) + 1 && !ok
      ensures !LegalMove(st, q, e)
    {
      if Index(e) == Index(d) {
        IndexInjective(e, d);
      }
    }
  }

  /** No piece of colour c on a square before the n-th in row-major order has a legal move. */
  ghost predicate NoPieceBefore(st: State, c: Colour, n: int)
    requires Sound(st)
  {
    forall q :: OnBoard(q) && Index(q) < n && At(st.pl.grid, q).Some? && At(st.pl.grid, q).value.colour == c
      ==> !PieceHasValidMoveSpec(st, q)
  }

  /** The outcome of the square q: a piece with a move found, or one more square ruled out. */
  lemma PieceNext(st: State, c: Colour, q: Pos, has: bool)
    requires Sound(st) && OnBoard(q) && NoPieceBefore(st, c, Index(q))
    requires if At(st.pl.grid, q).Some? && At(st.pl.grid, q).value.colour == c
      then has == PieceHasValidMoveSpec(st, q) else !has
    ensures has ==> BoardHasValidMoveSpec(st, c)
    ensures !has ==> NoPieceBefore(st, c, Index(q) + 1)
  {
    forall e | OnBoard(e) && Index(e) < Index(q) + 1 && At(st.pl.grid, e).Some? && At(st.pl.grid, e).value.colour == c && !has
      ensures !PieceHasValidMoveSpec(st, e)
    {
      if Index(e) == Index(q) {
        IndexInjective(e, q);
      }
    }
  }

  lemma PiecesDone(st: State, c: Colour)
    requires Sound(st) && NoPieceBefore(st, c, 64)
    ensures !BoardHasValidMoveSpec(st, c)
  {
  }

  lemma MovesDone(st: State, q: Pos)
    requires Sound(st) && OnBoard(q) && At(st.pl.grid, q).Some? && NoMoveBefore(st, q, 64)
    ensures !PieceHasValidMoveSpec(st, q)
  {
  }

  /** No square strictly between k and c closer to k than n steps can be reached. */
  ghost predicate NoBlockBefore(st: State, k: Pos, c: Pos, n: int)
    requires Sound(st)
  {
    forall x :: OnBoard(x) && Between(k, c, x) && Dist(k, x) < n ==> !ReachedBy(st, x)
  }

  /** The outcome of trying the n-th square x: a block found, or one more square ruled out. */
  lemma BlockNext(st: State, checker: Piece, k: Pos, c: Pos, n: int, x: Pos, reached: bool)
    requires Sound(st) && k == KingSquare(st) && c == checker.pos
    requires OnBoard(x) && Between(k, c, x) && n == Dist(k, x)
    requires NoBlockBefore(st, k, c, n) && reached == ReachedBy(st, x)
    ensures reached ==> CanBlockSpec(st, checker)
    ensures !reached ==> NoBlockBefore(st, k, c, n + 1)
  {
    forall y | OnBoard(y) && Between(k, c, y) && Dist(k, y) < n + 1 && !reached
      ensures !ReachedBy(st, y)
    {
      if Dist(k, y) == n {
        assert y == x;
      }
    }
  }

  lemma BlocksStart(st: State, k: Pos, c: Pos)
    requires Sound(st)
    ensures NoBlockBefore(st, k, c, 1)
  {
  }

  lemma BlocksDone(st: State, checker: Piece, k: Pos, c: Pos, n: int)
    requires Sound(st) && k == KingSquare(st) && c == checker.pos && n == Dist(k, c)
    requires NoBlockBefore(st, k, c, n)
    ensures !CanBlockSpec(st, checker)
  {
    forall x | OnBoard(x) && Between(k, c, x)
      ensures Dist(k, x) < n
    {
    }
  }

  /** The verdict of checkGameState when canBeTaken names a checker. */
  lemma VerdictInCheck(st: State, checker: Piece, mate: bool)
    requires Sound(st) && CanBeTaken(KingSquare(st), st.pl.grid, st.pl.side, '-') == Some(checker)
    requires OnBoard(checker.pos) && mate == CheckmateSpec(st, checker)
    ensures GameStateOf(st) == if mate then Checkmate else Check
  {
  }

  /** The verdict of checkGameState when nothing can take the king. */
  lemma VerdictNotInCheck(st: State, any: bool)
    requires Sound(st) && CanBeTaken(KingSquare(st), st.pl.grid, st.pl.side, '-').None?
    requires any == BoardHasValidMoveSpec(st, st.pl.side)
    ensures GameStateOf(st) == if any then Normal else Stalemate
  {
  }

  // ---------------------------------------------------------------------
  // The board

  class ChessBoard {
    /** board[row][col], stored row-major: square (row, col) is cell row * 8 + col. */
    const board: array<Option<Piece>>
    /** The square of each colour's king, indexed by the colour's enum value. */
    const kingPos: array<Pos>
    var sideToMove: Colour
    var castlingState: string
    /** King::isCastling of the king of each colour, indexed like kingPos. */
    var isCastling: seq<bool>

    predicate Shaped()
      reads this
    {
      board.Length == 64 && kingPos.Length == 2
    }

    /** The placement the fields hold. */
    function Placed(): Placement
      reads this, board, kingPos
      requires Shaped()
    {
      Placement(board[..], kingPos[..], sideToMove)
    }

    /** The whole state the fields hold. */
    function Current(): State
      reads this, board, kingPos
      requires Shaped()
    {
      State(Placed(), castlingState, isCastling)
    }

    /**
     * The state a query of checkGameState runs in: the placement and the
     * castling field of st, the flags as the probes so far left them.
     */
    ghost predicate Probing(st: State)
      reads this, board, kingPos
    {
      Shaped() && Settled(Current()) == st && Sound(Current())
    }

    /** The representation invariant between submitted moves. */
    ghost predicate Valid()
      reads this, board, kingPos
    {
      Shaped() && StateValid(Current())
    }

    /** ChessBoard::ChessBoard: an empty board with White to move. */
    constructor()
      ensures Shaped() && fresh(board) && fresh(kingPos)
      ensures forall q :: OnBoard(q) ==> At(board[..], q).None?
      ensures sideToMove == White && isCastling == [false, false]
    {
      board := new Option<Piece>[64](_ => None);
      kingPos := new Pos[2](_ => Invalid);
      sideToMove := White;
      castlingState := "-";
      isCastling := [false, false];
    }

    /** ChessBoard::changeSides */
    method ChangeSides()
      modifies this
      ensures sideToMove == Opponent(old(sideToMove))
      ensures castlingState == old(castlingState) && isCastling == old(isCastling)
    {
      sideToMove := if sideToMove == White then Black else White;
    }

    /** ChessBoard::movePiece, returning what stood on dest. */
    method MovePiece(src: Pos, dest: Pos) returns (destPiece: Option<Piece>)
      requires Shaped() && MoveDefined(Placed(), isCastling, src, dest)
      modifies this, board, kingPos
      ensures castlingState == old(castlingState) && isCastling == old(isCastling)
      ensures (Placed(), destPiece) == Position.MovePiece(old(Placed()), old(isCastling), src, dest)
      decreases if dest.col == 6 || dest.col == 1 then 1 else 0
    {
      ghost var pl := Placed();
      var srcPiece := board[Cell(src.row, src.col)].value;
      destPiece := board[Cell(dest.row, dest.col)];
      board[Cell(dest.row, dest.col)] := Some(SetPos(srcPiece, dest));
      if srcPiece.King? {
        kingPos[ColourIndex(srcPiece.colour)] := dest;
        if isCastling[ColourIndex(srcPiece.colour)] {
          if dest.col == 6 {
            var _ := MovePiece(Pos(dest.row, dest.col + 1), Pos(dest.row, dest.col - 1));
            ChangeSides();
          } else if dest.col == 1 {
            var _ := MovePiece(Pos(dest.row, dest.col - 1), Pos(dest.row, dest.col + 1));
            ChangeSides();
          }
        }
      }
      board[Cell(src.row, src.col)] := None;
      ChangeSides();
    }

    /** ChessBoard::undoMove: take back the move from srcO to destO that captured takenPiece. */
    method UndoMove(destO: Pos, srcO: Pos, takenPiece: Option<Piece>)
      requires Shaped() && UndoDefined(Placed(), isCastling, destO, srcO)
      modifies this, board, kingPos
      ensures castlingState == old(castlingState) && isCastling == old(isCastling)
      ensures Placed() == Position.UndoMove(old(Placed()), old(isCastling), destO, srcO, takenPiece)
      decreases if destO.col == 6 || destO.col == 1 then 1 else 0
    {
      var destPieceO := board[Cell(destO.row, destO.col)].value;
      board[Cell(srcO.row, srcO.col)] := Some(SetPos(destPieceO, srcO));
      if destPieceO.King? {
        kingPos[ColourIndex(destPieceO.colour)] := srcO;
        if isCastling[ColourIndex(destPieceO.colour)] {
          if destO.col == 6 {
            UndoMove(Pos(destO.row, destO.col - 1), Pos(destO.row, destO.col + 1), None);
            ChangeSides();
          } else if destO.col == 1 {
            UndoMove(Pos(destO.row, destO.col + 1), Pos(destO.row, destO.col - 1), None);
            ChangeSides();
          }
        }
      }
      board[Cell(destO.row, destO.col)] := if takenPiece.Some? then Some(SetPos(takenPiece.value, destO)) else None;
      ChangeSides();
    }

    /** ChessBoard::isCheck: the piece canBeTaken finds able to take a king on k. */
    method IsCheck(k: Pos) returns (checker: Option<Piece>)
      requires Shaped() && OnBoard(k) && WellFormed(board[..])
      ensures checker == CanBeTaken(k, board[..], sideToMove, '-')
      ensures checker.Some? <==> exists t :: Attacks(board[..], k, sideToMove, t)
    {
      checker := CanBeTaken(k, board[..], sideToMove, '-');
      forall t | Attacks(board[..], k, sideToMove, t)
        ensures checker.Some?
      {
        NoneExcluded(t);
        CanBeTakenComplete(k, board[..], sideToMove, '-', t);
      }
    }

    /** King::isCastlingMove for the king on src: the castle test, setting the king's flag when it passes. */
    method IsCastlingMove(src: Pos, dest: Pos) returns (castle: bool)
      requires Shaped() && |isCastling| == 2 && WellFormed(board[..])
      requires OnBoard(src) && OnBoard(dest) && src != dest && At(board[..], src).Some?
      modifies this
      ensures castle <==> CastlingMove(board[..], castlingState, src, dest)
      ensures isCastling ==
        if castle then old(isCastling)[ColourIndex(At(board[..], src).value.colour) := true]
        else old(isCastling)
      ensures sideToMove == old(sideToMove) && castlingState == old(castlingState)
    {
      castle := CastlingTest(src, dest, board[..], castlingState);
      if castle {
        isCastling := isCastling[ColourIndex(board[Cell(src.row, src.col)].value.colour) := true];
      }
    }

    /**
     * The second half of ChessBoard::tryValidMove, once the move has passed
     * its tests from state st: make it, test the mover's king, take it back.
     */
    method ProbeMove(ghost st: State, piece: Piece, src: Pos, dest: Pos) returns (ok: bool)
      requires Shaped() && Passes(st, src, dest) && At(st.pl.grid, src) == Some(piece)
      requires Placed() == st.pl && castlingState == st.rights && isCastling == TryFlags(st, src, dest)
      modifies this, board, kingPos
      ensures ok == !InCheck(Probe(st, src, dest), piece.colour)
      ensures Placed() == st.pl && castlingState == st.rights && isCastling == TryFlags(st, src, dest)
    {
      ProbeDefined(st, src, dest);
      MoveUndo(st.pl, isCastling, src, dest);
      var capturedPiece := MovePiece(src, dest);
      assert Placed() == Probe(st, src, dest);
      var checker := IsCheck(kingPos[ColourIndex(piece.colour)]);
      if checker.Some? {
        UndoMove(dest, src, capturedPiece);
        return false;
      } else {
        UndoMove(dest, src, capturedPiece);
      }
      return true;
    }

    /**
     * ChessBoard::tryValidMove: the colour tests, the piece's rule (or the
     * castle), then the move made, the mover's king tested and the move
     * taken back.
     */
    method TryValidMove(piece: Piece, src: Pos, dest: Pos) returns (ok: bool)
      requires Shaped() && Sound(Current())
      requires OnBoard(src) && OnBoard(dest) && At(board[..], src) == Some(piece)
      modifies this, board, kingPos
      ensures ok == LegalMove(old(Current()), src, dest)
      ensures Placed() == old(Placed()) && castlingState == old(castlingState)
      ensures isCastling == TryFlags(old(Current()), src, dest)
      ensures Sound(Current())
    {
      ghost var st := Current();
      TryFlagsSound(st, src, dest);
      if Equal(src, dest) {
        return false;
      }
      var destPiece := board[Cell(dest.row, dest.col)];
      if (destPiece.Some? && piece.colour == destPiece.value.colour)
         || (destPiece.None? && piece.colour != sideToMove) {
        return false;
      }
      if piece.King? {
        var castle := IsCastlingMove(src, dest);
        if !castle && !ValidMove(board[..], piece, src, dest) {
          return false;
        }
      } else if !ValidMove(board[..], piece, src, dest) {
        return false;
      }
      ok := ProbeMove(st, piece, src, dest);
    }

    /**
     * tryValidMove as the queries of checkGameState use it: st is the state
     * they ask about, which the probes leave as it was but for the flags.
     */
    method TryQuery(ghost st: State, piece: Piece, src: Pos, dest: Pos) returns (ok: bool)
      requires Sound(st) && Probing(st) && OnBoard(src) && OnBoard(dest) && At(st.pl.grid, src) == Some(piece)
      modifies this, board, kingPos
      ensures ok == LegalMove(st, src, dest) && Probing(st)
    {
      SettledLegal(Current(), src, dest);
      ok := TryValidMove(piece, src, dest);
    }

    /**
     * One pass of the inner loop of ChessBoard::kingCanMove: the king on k
     * tries the neighbour (rowStep, colStep) unless it is k itself or off
     * the board.
     */
    method TryStep(ghost st: State, k: Pos, rowStep: int, colStep: int) returns (ok: bool)
      requires Sound(st) && Probing(st) && OnBoard(k) && At(st.pl.grid, k).Some?
      modifies this, board, kingPos
      ensures if (rowStep != 0 || colStep != 0) && OnBoard(Pos(k.row + rowStep, k.col + colStep))
        then ok == LegalMove(st, k, Pos(k.row + rowStep, k.col + colStep)) else !ok
      ensures Probing(st)
    {
      ok := false;
      if rowStep != 0 || colStep != 0 {
        if 0 <= k.row + rowStep <= 7 && 0 <= k.col + colStep <= 7 {
          ok := TryQuery(st, board[Cell(k.row, k.col)].value, k, Pos(k.row + rowStep, k.col + colStep));
        }
      }
    }

    /**
     * ChessBoard::kingCanMove: try each neighbouring square of the king on
     * k; the centre and the squares off the board are skipped.
     */
    method KingCanMove(ghost st: State, k: Pos) returns (can: bool)
      requires Sound(st) && Probing(st) && k == KingSquare(st)
      modifies this, board, kingPos
      ensures can == KingCanMoveSpec(st) && Probing(st)
    {
      var rowStep := -1;
      while rowStep <= 1
        invariant -1 <= rowStep <= 2 && Probing(st)
        invariant NoStepBefore(st, k, 3 * (rowStep + 1))
      {
        var colStep := -1;
        while colStep <= 1
          invariant -1 <= colStep <= 2 && Probing(st)
          invariant NoStepBefore(st, k, 3 * (rowStep + 1) + (colStep + 1))
        {
          var ok := TryStep(st, k, rowStep, colStep);
          StepNext(st, k, rowStep, colStep, ok);
          if ok {
            return true;
          }
          colStep := colStep + 1;
        }
        rowStep := rowStep + 1;
      }
      StepsDone(st);
      return false;
    }

    /**
     * The test canTakeAttacker makes on the checker's square and
     * canBlockAttacker on each square it walks: the piece canBeTaken names,
     * kings excluded, is tried on x.
     */
    method TryReach(ghost st: State, x: Pos) returns (can: bool)
      requires Sound(st) && Probing(st) && OnBoard(x)
      modifies this, board, kingPos
      ensures can == ReachedBy(st, x) && Probing(st)
    {
      var takingPiece := CanBeTaken(x, board[..], sideToMove, 'K');
      if takingPiece.Some? {
        var src := takingPiece.value.pos;
        var ok := TryQuery(st, takingPiece.value, src, x);
        if ok {
          return true;
        }
      }
      return false;
    }

    /** ChessBoard::canTakeAttacker: whether the one piece canBeTaken names can legally take the checker. */
    method CanTakeAttacker(ghost st: State, checker: Piece) returns (can: bool)
      requires Sound(st) && Probing(st) && OnBoard(checker.pos)
      modifies this, board, kingPos
      ensures can == ReachedBy(st, checker.pos) && Probing(st)
    {
      can := TryReach(st, checker.pos);
    }

    /**
     * One pass of the loop of ChessBoard::canBlockAttacker: the n-th square
     * x between the king on k and the checker is tried.
     */
    method TryBlock(ghost st: State, checker: Piece, k: Pos, ghost n: int, x: Pos) returns (ok: bool)
      requires Sound(st) && Probing(st) && k == KingSquare(st)
      requires OnBoard(x) && Between(k, checker.pos, x) && n == Dist(k, x)
      requires NoBlockBefore(st, k, checker.pos, n)
      modifies this, board, kingPos
      ensures ok ==> CanBlockSpec(st, checker)
      ensures !ok ==> NoBlockBefore(st, k, checker.pos, n + 1)
      ensures Probing(st)
    {
      ok := TryReach(st, x);
      BlockNext(st, checker, k, checker.pos, n, x, ok);
    }

    /**
     * ChessBoard::canBlockAttacker: walk from the king towards the checker
     * and try, on each square in between, the piece canBeTaken names.
     */
    method CanBlockAttacker(ghost st: State, k: Pos, checker: Piece) returns (can: bool)
      requires Sound(st) && Probing(st) && k == KingSquare(st)
      requires OnBoard(checker.pos) && checker.pos != k
      requires Straight(k, checker.pos) || Diagonal(k, checker.pos)
      modifies this, board, kingPos
      ensures can == CanBlockSpec(st, checker) && Probing(st)
    {
      var c := checker.pos;
      var rowStep := 0;
      var colStep := 0;
      if c.row == k.row {
        colStep := if c.col > k.col then 1 else -1;
      }
      if c.col == k.col {
        rowStep := if c.row > k.row then 1 else -1;
      }
      if Abs(c.row - k.row) == Abs(c.col - k.col) {
        rowStep := if c.row > k.row then 1 else -1;
        colStep := if c.col > k.col then 1 else -1;
      }
      assert rowStep == Sign(c.row - k.row) && colStep == Sign(c.col - k.col);
      can := WalkToChecker(st, k, checker, rowStep, colStep);
    }

    /**
     * The walk of ChessBoard::canBlockAttacker from the king on k towards
     * the checker in steps of (rowStep, colStep).
     */
    method WalkToChecker(ghost st: State, k: Pos, checker: Piece, rowStep: int, colStep: int) returns (can: bool)
      requires Sound(st) && Probing(st) && k == KingSquare(st)
      requires OnBoard(checker.pos) && checker.pos != k
      requires Straight(k, checker.pos) || Diagonal(k, checker.pos)
      requires rowStep == Sign(checker.pos.row - k.row) && colStep == Sign(checker.pos.col - k.col)
      modifies this, board, kingPos
      ensures can == CanBlockSpec(st, checker) && Probing(st)
    {
      var c := checker.pos;
      ghost var n := 1;
      WalkStart(k, c, rowStep, colStep);
      BlocksStart(st, k, c);
      var row := k.row + rowStep;
      var col := k.col + colStep;
      while row != c.row || col != c.col
        invariant 1 <= n <= Dist(k, c) && Pos(row, col) == WalkAt(k, c, n)
        invariant Probing(st) && NoBlockBefore(st, k, c, n)
        decreases Dist(k, c) - n
      {
        WalkStep(k, c, n, row, col, rowStep, colStep);
        var ok := TryBlock(st, checker, k, n, Pos(row, col));
        if ok {
          return true;
        }
        row := row + rowStep;
        col := col + colStep;
        n := n + 1;
      }
      WalkStep(k, c, n, row, col, rowStep, colStep);
      BlocksDone(st, checker, k, c, n);
      return false;
    }

    /**
     * ChessBoard::isCheckmate: the king cannot step away, the checker
     * cannot be taken, and, unless it is a knight, it cannot be blocked.
     */
    method IsCheckmate(ghost st: State, k: Pos, checker: Piece) returns (mate: bool)
      requires Sound(st) && Probing(st) && k == KingSquare(st)
      requires CanBeTaken(k, st.pl.grid, st.pl.side, '-') == Some(checker)
      modifies this, board, kingPos
      ensures mate == CheckmateSpec(st, checker) && Probing(st)
    {
      AttackerAligned(k, st.pl.grid, st.pl.side, '-');
      var canMove := KingCanMove(st, k);
      if canMove {
        return false;
      }
      var canTake := CanTakeAttacker(st, checker);
      if canTake {
        return false;
      }
      if Symbol(checker) != 'N' && Symbol(checker) != 'n' {
        var canBlock := CanBlockAttacker(st, k, checker);
        if canBlock {
          return false;
        }
      }
      return true;
    }

    /** ChessBoard::pieceHasValidMove: try the piece on every square of the board. */
    method PieceHasValidMove(ghost st: State, piece: Piece) returns (has: bool)
      requires Sound(st) && Probing(st) && OnBoard(piece.pos) && At(st.pl.grid, piece.pos) == Some(piece)
      modifies this, board, kingPos
      ensures has == PieceHasValidMoveSpec(st, piece.pos) && Probing(st)
    {
      var row := 0;
      while row < 8
        invariant 0 <= row <= 8 && Probing(st)
        invariant NoMoveBefore(st, piece.pos, row * 8)
      {
        var col := 0;
        while col < 8
          invariant 0 <= col <= 8 && Probing(st)
          invariant NoMoveBefore(st, piece.pos, row * 8 + col)
        {
          var ok := TryQuery(st, piece, piece.pos, Pos(row, col));
          MoveNext(st, piece.pos, Pos(row, col), ok);
          if ok {
            return true;
          }
          col := col + 1;
        }
        row := row + 1;
      }
      MovesDone(st, piece.pos);
      return false;
    }

    /**
     * One pass of the inner loop of ChessBoard::boardHasValidMove: a piece
     * of the given colour on q is asked for a legal move.
     */
    method TrySquare(ghost st: State, side: Colour, q: Pos) returns (has: bool)
      requires Sound(st) && Probing(st) && OnBoard(q)
      modifies this, board, kingPos
      ensures if At(st.pl.grid, q).Some? && At(st.pl.grid, q).value.colour == side
        then has == PieceHasValidMoveSpec(st, q) else !has
      ensures Probing(st)
    {
      var piece := board[Cell(q.row, q.col)];
      has := false;
      if piece.Some? && piece.value.colour == side {
        has := PieceHasValidMove(st, piece.value);
      }
    }

    /** ChessBoard::boardHasValidMove: whether some piece of the given colour has a legal move. */
    method BoardHasValidMove(ghost st: State, side: Colour) returns (has: bool)
      requires Sound(st) && Probing(st)
      modifies this, board, kingPos
      ensures has == BoardHasValidMoveSpec(st, side) && Probing(st)
    {
      var row := 0;
      while row < 8
        invariant 0 <= row <= 8 && Probing(st)
        invariant NoPieceBefore(st, side, row * 8)
      {
        var col := 0;
        while col < 8
          invariant 0 <= col <= 8 && Probing(st)
          invariant NoPieceBefore(st, side, row * 8 + col)
        {
          var has := TrySquare(st, side, Pos(row, col));
          PieceNext(st, side, Pos(row, col), has);
          if has {
            return true;
          }
          col := col + 1;
        }
        row := row + 1;
      }
      PiecesDone(st, side);
      return false;
    }

    /** ChessBoard::checkGameState, returning its verdict instead of printing it. */
    method CheckGameState() returns (verdict: GameState)
      requires Shaped() && Sound(Current())
      modifies this, board, kingPos
      ensures verdict == GameStateOf(Settled(old(Current())))
      ensures Placed() == old(Placed()) && castlingState == old(castlingState) && Sound(Current())
    {
      ghost var st := Settled(Current());
      SettledSound(Current());
      var k := kingPos[ColourIndex(sideToMove)];
      var checkingPiece := IsCheck(k);
      if checkingPiece.Some? {
        var mate := IsCheckmate(st, k, checkingPiece.value);
        verdict := if mate then Checkmate else Check;
        VerdictInCheck(st, checkingPiece.value, mate);
      } else {
        var any := BoardHasValidMove(st, sideToMove);
        verdict := if any then Normal else Stalemate;
        VerdictNotInCheck(st, any);
      }
    }

    /** ChessBoard::updateCastlingState: drop the letters the moving piece forfeits. */
    method UpdateCastlingState(piece: Piece)
      modifies this
      ensures castlingState == UpdatedRights(old(castlingState), piece)
      ensures sideToMove == old(sideToMove) && isCastling == old(isCastling)
    {
      var remove := Removal(piece);
      if remove.Some? {
        var newState: string := [];
        var i := 0;
        while i < |castlingState|
          invariant 0 <= i <= |castlingState| && unchanged(this)
          invariant newState == Filter(castlingState[..i], remove.value)
        {
          var found := false;
          var j := 0;
          while j < |remove.value|
            invariant 0 <= j <= |remove.value| && unchanged(this)
            invariant found <==> castlingState[i] in remove.value[..j]
          {
            if castlingState[i] == remove.value[j] {
              found := true;
              break;
            }
            j := j + 1;
          }
          assert found <==> castlingState[i] in remove.value;
          FilterSnoc(castlingState, i, remove.value);
          if !found {
            newState := newState + [castlingState[i]];
          }
          i := i + 1;
        }
        assert castlingState[..i] == castlingState;
        if newState == [] {
          newState := "-";
        }
        castlingState := newState;
      }
    }

    /** ChessBoard::resetIsCastling: a king that has moved has its flag cleared. */
    method ResetIsCastling(piece: Piece)
      requires |isCastling| == 2
      modifies this
      ensures isCastling == if piece.King? then old(isCastling)[ColourIndex(piece.colour) := false] else old(isCastling)
      ensures sideToMove == old(sideToMove) && castlingState == old(castlingState)
    {
      var symbol := Symbol(piece);
      if symbol == 'K' || symbol == 'k' {
        isCastling := isCastling[ColourIndex(piece.colour) := false];
      }
    }

    /** ChessBoard::makeMove, returning the piece taken instead of announcing it. */
    method MakeMove(srcPos: Pos, destPos: Pos) returns (takenPiece: Option<Piece>)
      requires Shaped() && MoveDefined(Placed(), isCastling, srcPos, destPos)
      modifies this, board, kingPos
      ensures castlingState == old(castlingState) && isCastling == old(isCastling)
      ensures (Placed(), takenPiece) == Position.MovePiece(old(Placed()), old(isCastling), srcPos, destPos)
    {
      takenPiece := MovePiece(srcPos, destPos);
    }

    /**
     * The steps of ChessBoard::submitMove once the move is found legal:
     * updateCastlingState for the moving piece, makeMove, resetIsCastling.
     */
    method CommitMove(ghost st: State, piece: Piece, srcPos: Pos, destPos: Pos)
      requires Shaped() && Passes(st, srcPos, destPos) && At(st.pl.grid, srcPos) == Some(piece)
      requires Placed() == st.pl && castlingState == st.rights && isCastling == TryFlags(st, srcPos, destPos)
      modifies this, board, kingPos
      ensures Current() == Commit(st, srcPos, destPos)
    {
      ProbeDefined(st, srcPos, destPos);
      UpdateCastlingState(piece);
      var _ := MakeMove(srcPos, destPos);
      ResetIsCastling(piece);
    }

    /**
     * ChessBoard::submitMove: reject a malformed square, an empty source, a
     * piece of the wrong colour or an illegal move, changing nothing; else
     * update the castling field, make the move, clear the king's flag and
     * classify the position.
     */
    method SubmitMove(src: string, dest: string) returns (outcome: Outcome)
      requires Valid() && KeepsCorners(Current(), src, dest)
      modifies this, board, kingPos
      ensures Valid()
      ensures outcome == SubmitOutcome(old(Current()), src, dest)
      ensures !outcome.Moved? ==> Placed() == old(Placed()) && castlingState == old(castlingState)
      ensures outcome.Moved? ==>
        var after := Commit(old(Current()), ParsePosition(src), ParsePosition(dest));
        Placed() == after.pl && castlingState == after.rights
    {
      ghost var st := Current();
      var srcPos := ParsePosition(src);
      var destPos := ParsePosition(dest);
      if srcPos.row == -1 || destPos.row == -1 {
        return InvalidPosition;
      }
      var srcPiece := board[Cell(srcPos.row, srcPos.col)];
      if srcPiece.None? {
        return NoPiece;
      }
      if srcPiece.value.colour != sideToMove {
        return WrongTurn;
      }
      var ok := TryValidMove(srcPiece.value, srcPos, destPos);
      if !ok {
        return IllegalMove;
      }
      CommitValid(st, srcPos, destPos);
      CommitMove(st, srcPiece.value, srcPos, destPos);
      var verdict := CheckGameState();
      return Moved(verdict);
    }
  }
}
