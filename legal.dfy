/**
 * The game state of ChessBoard and what its queries compute, as
 * specifications over values: the representation invariant, the legality
 * test of tryValidMove, the state after a submitted move and the
 * classification of checkGameState.
 */
module Legal {
  import opened Coord
  import opened Pieces
  import opened Paths
  import opened Rules
  import opened Attack
  import opened Castling
  import opened Rights
  import opened Position

  /** The placement, the castling field and the isCastling flag of each king. */
  datatype State = State(pl: Placement, rights: string, flags: seq<bool>)

  /** The square a king starts on: column 4 of its back row. */
  function Home(c: Colour): Pos {
    Pos(if c == White then 7 else 0, 4)
  }

  /** The corner a castle onto column d of c's back row takes the rook from. */
  function Corner(c: Colour, d: int): Pos {
    RookFrom(Pos(Home(c).row, d))
  }

  /** kingPos records the king of each colour, and every king on the board is recorded. */
  ghost predicate KingsTracked(pl: Placement) {
    KingsOnBoard(pl.kingPos)
    && (forall c: Colour :: At(pl.grid, pl.kingPos[ColourIndex(c)])
                              == Some(King(c, pl.kingPos[ColourIndex(c)])))
    && KingsRecorded(pl)
  }

  /** isCheck: some piece can take the king of colour c, with pl's side to move. */
  ghost predicate InCheck(pl: Placement, c: Colour)
    requires KingsOnBoard(pl.kingPos) && WellFormed(pl.grid)
  {
    CanBeTaken(pl.kingPos[ColourIndex(c)], pl.grid, pl.side, '-').Some?
  }

  /** A castle the field still grants has its king at home and its corner occupied. */
  ghost predicate RightsBacked(pl: Placement, rights: string)
    requires KingsOnBoard(pl.kingPos)
  {
    forall c: Colour, d: int :: CastlingRight(c, d, rights) ==>
      pl.kingPos[ColourIndex(c)] == Home(c) && At(pl.grid, Corner(c, d)).Some?
  }

  /** A king whose isCastling flag is set stands at home. */
  ghost predicate FlagsBacked(kp: seq<Pos>, flags: seq<bool>)
    requires KingsOnBoard(kp) && |flags| == 2
  {
    forall c: Colour :: flags[ColourIndex(c)] ==> kp[ColourIndex(c)] == Home(c)
  }

  /**
   * The shape of a state: pieces know their squares, the kings are tracked,
   * and the castling field is well formed and backed by the board.
   */
  ghost predicate Sound(st: State) {
    KingsOnBoard(st.pl.kingPos) && |st.flags| == 2 && WellFormed(st.pl.grid)
    && KingsTracked(st.pl) && RightsShape(st.rights) && RightsBacked(st.pl, st.rights)
    && FlagsBacked(st.pl.kingPos, st.flags)
  }

  /**
   * The representation invariant: a sound state in which the side that has
   * just moved cannot have its king taken.
   */
  ghost predicate StateValid(st: State) {
    Sound(st) && !InCheck(st.pl, Opponent(st.pl.side))
  }

  /** The piece a move of tryValidMove starts from. */
  ghost predicate Movable(st: State, src: Pos, dest: Pos) {
    Sound(st) && OnBoard(src) && OnBoard(dest) && At(st.pl.grid, src).Some?
  }

  /**
   * The colour tests of tryValidMove: the destination holds a piece of the
   * mover's colour, or it is empty and the mover is not the side to move.
   */
  ghost predicate Rejected(st: State, src: Pos, dest: Pos)
    requires Movable(st, src, dest)
  {
    var p := At(st.pl.grid, src).value;
    var target := At(st.pl.grid, dest);
    (target.Some? && p.colour == target.value.colour) || (target.None? && p.colour != st.pl.side)
  }

  /** The movement test of tryValidMove: a king castles or moves by its rule, any other piece by its rule. */
  ghost predicate RuleAllows(st: State, src: Pos, dest: Pos)
    requires Movable(st, src, dest) && src != dest
  {
    var p := At(st.pl.grid, src).value;
    if p.King? then CastlingMove(st.pl.grid, st.rights, src, dest) || ValidMove(st.pl.grid, p, src, dest)
    else ValidMove(st.pl.grid, p, src, dest)
  }

  /** tryValidMove reaches isCastlingMove with a king and its castle test passes. */
  ghost predicate CastleTried(st: State, src: Pos, dest: Pos)
    requires Movable(st, src, dest)
  {
    src != dest && !Rejected(st, src, dest) && At(st.pl.grid, src).value.King?
    && CastlingMove(st.pl.grid, st.rights, src, dest)
  }

  /** The flags after tryValidMove: isCastlingMove sets the mover's flag when the castle test passes. */
  ghost function TryFlags(st: State, src: Pos, dest: Pos): seq<bool>
    requires Movable(st, src, dest)
  {
    if CastleTried(st, src, dest) then
      st.flags[ColourIndex(At(st.pl.grid, src).value.colour) := true]
    else st.flags
  }

  /**
   * A move that passes the tests is one movePiece can make and undoMove can
   * take back, and it carries the rook exactly when it is a castle.
   */
  lemma ProbeDefined(st: State, src: Pos, dest: Pos)
    requires Movable(st, src, dest) && src != dest && !Rejected(st, src, dest) && RuleAllows(st, src, dest)
    ensures MoveDefined(st.pl, TryFlags(st, src, dest), src, dest)
    ensures Reversible(st.pl, TryFlags(st, src, dest), src, dest)
    ensures var p := At(st.pl.grid, src).value;
      CarriesRook(p, TryFlags(st, src, dest), dest) <==> p.King? && CastlingMove(st.pl.grid, st.rights, src, dest)
  {
    var g := st.pl.grid;
    var p := At(g, src).value;
    var c := p.colour;
    if p.King? {
      assert st.pl.kingPos[ColourIndex(c)] == src;
      if CastlingMove(g, st.rights, src, dest) {
        CastlingMoveShape(g, st.rights, src, dest);
        assert CastlingRight(c, dest.col, st.rights);
        assert Between(src, dest, RookTo(dest));
      } else {
        KingRule(g, src, dest);
        if st.flags[ColourIndex(c)] {
          assert src == Home(c);
        }
      }
    }
  }

  /** The placement tryValidMove tests: the move made by movePiece with the flags it then has. */
  ghost function Probe(st: State, src: Pos, dest: Pos): (r: Placement)
    requires Movable(st, src, dest) && src != dest && !Rejected(st, src, dest) && RuleAllows(st, src, dest)
    ensures KingsOnBoard(r.kingPos) && WellFormed(r.grid)
  {
    ProbeDefined(st, src, dest);
    MoveWellFormed(st.pl, TryFlags(st, src, dest), src, dest);
    MoveKingsOnBoard(st.pl, TryFlags(st, src, dest), src, dest);
    MovePiece(st.pl, TryFlags(st, src, dest), src, dest).0
  }

  /** ChessBoard::tryValidMove */
  ghost predicate LegalMove(st: State, src: Pos, dest: Pos)
    requires Movable(st, src, dest)
  {
    src != dest && !Rejected(st, src, dest) && RuleAllows(st, src, dest)
    && !InCheck(Probe(st, src, dest), At(st.pl.grid, src).value.colour)
  }

  // ---------------------------------------------------------------------
  // Facts about the legality test

  /**
   * tryValidMove changes only the mover's flag, sets it only for a castle,
   * and leaves a sound state sound.
   */
  lemma TryFlagsSound(st: State, src: Pos, dest: Pos)
    requires Movable(st, src, dest)
    ensures var f := TryFlags(st, src, dest); var c := At(st.pl.grid, src).value.colour;
      |f| == 2 && f[ColourIndex(Opponent(c))] == st.flags[ColourIndex(Opponent(c))]
      && (f[ColourIndex(c)] <==> st.flags[ColourIndex(c)] || CastleTried(st, src, dest))
    ensures Sound(st.(flags := TryFlags(st, src, dest)))
  {
    var g := st.pl.grid;
    var p := At(g, src).value;
    if CastleTried(st, src, dest) {
      CastlingMoveShape(g, st.rights, src, dest);
      assert CastlingRight(p.colour, dest.col, st.rights);
      assert st.pl.kingPos[ColourIndex(p.colour)] == src;
    }
  }

  /** Whether a move is legal does not depend on the isCastling flags of a sound state. */
  lemma LegalMoveIgnoresFlags(st: State, f: seq<bool>, src: Pos, dest: Pos)
    requires Movable(st, src, dest) && Sound(st.(flags := f))
    ensures LegalMove(st, src, dest) == LegalMove(st.(flags := f), src, dest)
  {
    var st2 := st.(flags := f);
    if src != dest && !Rejected(st, src, dest) && RuleAllows(st, src, dest) {
      ProbeDefined(st, src, dest);
      ProbeDefined(st2, src, dest);
      MoveFlagsIrrelevant(st.pl, TryFlags(st, src, dest), TryFlags(st2, src, dest), src, dest);
      assert Probe(st, src, dest) == Probe(st2, src, dest);
    }
  }

  /** Every piece's symbol is a letter, so '-' excludes none. */
  lemma NoneExcluded(t: Piece)
    ensures !Excluded(t, '-')
  {
  }

  /** isCheck finds an attacker exactly when some piece may take the king. */
  lemma InCheckMeans(pl: Placement, c: Colour)
    requires KingsOnBoard(pl.kingPos) && WellFormed(pl.grid)
    ensures InCheck(pl, c) <==> exists t :: Attacks(pl.grid, pl.kingPos[ColourIndex(c)], pl.side, t)
  {
    var k := pl.kingPos[ColourIndex(c)];
    if t :| Attacks(pl.grid, k, pl.side, t) {
      NoneExcluded(t);
      CanBeTakenComplete(k, pl.grid, pl.side, '-', t);
    }
  }

  /** After a legal move no piece at all can take the mover's king. */
  lemma LegalMoveSafe(st: State, src: Pos, dest: Pos, t: Piece)
    requires Movable(st, src, dest) && LegalMove(st, src, dest)
    ensures var after := Probe(st, src, dest);
      !Attacks(after.grid, after.kingPos[ColourIndex(At(st.pl.grid, src).value.colour)], after.side, t)
  {
    InCheckMeans(Probe(st, src, dest), At(st.pl.grid, src).value.colour);
  }

  /**
   * The tests tryValidMove makes before it moves anything: a legal move
   * goes somewhere else, onto an empty square only for the side to move,
   * never onto a piece of its own colour, and by the piece's rule or, for a
   * king, by castling.
   */
  lemma LegalMoveShape(st: State, src: Pos, dest: Pos)
    requires Movable(st, src, dest) && LegalMove(st, src, dest)
    ensures var p := At(st.pl.grid, src).value;
      src != dest
      && (At(st.pl.grid, dest).Some? ==> At(st.pl.grid, dest).value.colour != p.colour)
      && (At(st.pl.grid, dest).None? ==> p.colour == st.pl.side)
      && (ValidMove(st.pl.grid, p, src, dest)
          || (p.King? && CastlingMove(st.pl.grid, st.rights, src, dest)))
  {
  }

  /** A move by the side to move from a valid state never lands on a king. */
  lemma NoKingCapture(st: State, src: Pos, dest: Pos)
    requires StateValid(st) && Movable(st, src, dest) && src != dest && !Rejected(st, src, dest)
    requires RuleAllows(st, src, dest) && At(st.pl.grid, src).value.colour == st.pl.side
    ensures At(st.pl.grid, dest).Some? ==> !At(st.pl.grid, dest).value.King?
  {
    var g := st.pl.grid;
    var p := At(g, src).value;
    if At(g, dest).Some? && At(g, dest).value.King? {
      assert st.pl.kingPos[ColourIndex(Opponent(st.pl.side))] == dest;
      assert Attacks(g, dest, st.pl.side, p);
      InCheckMeans(st.pl, Opponent(st.pl.side));
      assert false;
    }
  }

  // ---------------------------------------------------------------------
  // The classification of checkGameState

  datatype GameState = Normal | Check | Checkmate | Stalemate

  /** The square of the king of the side to move. */
  function KingSquare(st: State): Pos
    requires |st.pl.kingPos| == 2
  {
    st.pl.kingPos[ColourIndex(st.pl.side)]
  }

  /** kingCanMove: the king of the side to move has a legal step to a neighbouring square. */
  ghost predicate KingCanMoveSpec(st: State)
    requires Sound(st)
  {
    exists d :: OnBoard(d) && Dist(KingSquare(st), d) == 1 && LegalMove(st, KingSquare(st), d)
  }

  /**
   * The piece canBeTaken reports as able to reach x, kings excluded, can
   * legally go there (the test of canTakeAttacker and of each square of
   * canBlockAttacker).
   */
  ghost predicate ReachedBy(st: State, x: Pos)
    requires Sound(st) && OnBoard(x)
  {
    var t := CanBeTaken(x, st.pl.grid, st.pl.side, 'K');
    t.Some? && LegalMove(st, t.value.pos, x)
  }

  /** canBlockAttacker: some square between the king and the checker can be reached. */
  ghost predicate CanBlockSpec(st: State, checker: Piece)
    requires Sound(st)
  {
    exists x :: OnBoard(x) && Between(KingSquare(st), checker.pos, x) && ReachedBy(st, x)
  }

  /** pieceHasValidMove: the piece on q has a legal move. */
  ghost predicate PieceHasValidMoveSpec(st: State, q: Pos)
    requires Sound(st) && OnBoard(q) && At(st.pl.grid, q).Some?
  {
    exists d :: OnBoard(d) && LegalMove(st, q, d)
  }

  /** boardHasValidMove: some piece of colour c has a legal move. */
  ghost predicate BoardHasValidMoveSpec(st: State, c: Colour)
    requires Sound(st)
  {
    exists q :: OnBoard(q) && At(st.pl.grid, q).Some? && At(st.pl.grid, q).value.colour == c
      && PieceHasValidMoveSpec(st, q)
  }

  /** isCheckmate: the king cannot step away, the checker cannot be taken and, unless it is a knight, not blocked. */
  ghost predicate CheckmateSpec(st: State, checker: Piece)
    requires Sound(st) && OnBoard(checker.pos)
  {
    !KingCanMoveSpec(st) && !ReachedBy(st, checker.pos)
    && !(!checker.Knight? && CanBlockSpec(st, checker))
  }

  /** checkGameState, returning its verdict instead of printing it. */
  ghost function GameStateOf(st: State): GameState
    requires Sound(st)
  {
    var checker := CanBeTaken(KingSquare(st), st.pl.grid, st.pl.side, '-');
    if checker.Some? then
      (if CheckmateSpec(st, checker.value) then Checkmate else Check)
    else if BoardHasValidMoveSpec(st, st.pl.side) then Normal
    else Stalemate
  }

  /** canBeTaken names a piece exactly when some piece can take the king of the side to move. */
  lemma CheckerMeans(st: State)
    requires Sound(st)
    ensures CanBeTaken(KingSquare(st), st.pl.grid, st.pl.side, '-').Some?
      <==> exists t :: Attacks(st.pl.grid, KingSquare(st), st.pl.side, t)
  {
    InCheckMeans(st.pl, st.pl.side);
  }

  /** Check and checkmate are reported exactly when some piece can take the king of the side to move. */
  lemma GameStateInCheck(st: State)
    requires Sound(st)
    ensures (GameStateOf(st) == Check || GameStateOf(st) == Checkmate)
      <==> exists t :: Attacks(st.pl.grid, KingSquare(st), st.pl.side, t)
  {
    CheckerMeans(st);
  }

  /** Stalemate is reported exactly when the king is not attacked and the side to move has no legal move. */
  lemma GameStateStalemate(st: State)
    requires Sound(st)
    ensures GameStateOf(st) == Stalemate <==>
      (forall t :: !Attacks(st.pl.grid, KingSquare(st), st.pl.side, t))
      && !BoardHasValidMoveSpec(st, st.pl.side)
  {
    CheckerMeans(st);
  }

  /** Normal is reported exactly when the king is not attacked and the side to move has a legal move. */
  lemma GameStateNormal(st: State)
    requires Sound(st)
    ensures GameStateOf(st) == Normal <==>
      (forall t :: !Attacks(st.pl.grid, KingSquare(st), st.pl.side, t))
      && BoardHasValidMoveSpec(st, st.pl.side)
  {
    CheckerMeans(st);
  }

  /** A piece canBeTaken reports as able to reach an empty square belongs to the side to move. */
  lemma ReacherOnSide(st: State, x: Pos)
    requires Sound(st) && OnBoard(x) && ReachedBy(st, x) && At(st.pl.grid, x).None?
    ensures var t := CanBeTaken(x, st.pl.grid, st.pl.side, 'K').value;
      OnBoard(t.pos) && At(st.pl.grid, t.pos) == Some(t) && t.colour == st.pl.side
      && PieceHasValidMoveSpec(st, t.pos)
  {
  }

  /**
   * Check is reported only when the side to move has a legal move: the
   * king's step, the capture or the block that made isCheckmate answer no
   * is one.
   */
  lemma CheckLeavesMove(st: State)
    requires Sound(st) && GameStateOf(st) == Check
    ensures BoardHasValidMoveSpec(st, st.pl.side)
  {
    var checker := CanBeTaken(KingSquare(st), st.pl.grid, st.pl.side, '-').value;
    assert !CheckmateSpec(st, checker);
    if KingCanMoveSpec(st) {
      KingLeaves(st);
    } else if ReachedBy(st, checker.pos) {
      TakeLeaves(st, checker);
    } else {
      BlockLeaves(st, checker);
    }
  }

  /** A king that can step away gives its side a legal move. */
  lemma KingLeaves(st: State)
    requires Sound(st) && KingCanMoveSpec(st)
    ensures BoardHasValidMoveSpec(st, st.pl.side)
  {
    var k := KingSquare(st);
    assert At(st.pl.grid, k) == Some(King(st.pl.side, k));
    assert PieceHasValidMoveSpec(st, k);
  }

  /** A piece that can legally take the checker gives its side a legal move. */
  lemma TakeLeaves(st: State, checker: Piece)
    requires Sound(st) && CanBeTaken(KingSquare(st), st.pl.grid, st.pl.side, '-') == Some(checker)
    requires OnBoard(checker.pos) && ReachedBy(st, checker.pos)
    ensures BoardHasValidMoveSpec(st, st.pl.side)
  {
    var t := CanBeTaken(checker.pos, st.pl.grid, st.pl.side, 'K').value;
    assert checker.colour != st.pl.side;
    assert t.colour != checker.colour;
    assert PieceHasValidMoveSpec(st, t.pos);
  }

  /** A piece that can legally step between the king and the checker gives its side a legal move. */
  lemma BlockLeaves(st: State, checker: Piece)
    requires Sound(st) && CanBeTaken(KingSquare(st), st.pl.grid, st.pl.side, '-') == Some(checker)
    requires OnBoard(checker.pos) && !checker.Knight? && CanBlockSpec(st, checker)
    ensures BoardHasValidMoveSpec(st, st.pl.side)
  {
    var k := KingSquare(st);
    var x :| OnBoard(x) && Between(k, checker.pos, x) && ReachedBy(st, x);
    AttackerAligned(k, st.pl.grid, st.pl.side, '-');
    BetweenSymmetric(k, checker.pos, x);
    assert At(st.pl.grid, x).None?;
    ReacherOnSide(st, x);
  }

  // ---------------------------------------------------------------------
  // The state after a submitted move

  /** The tests tryValidMove makes before it moves anything. */
  ghost predicate Passes(st: State, src: Pos, dest: Pos) {
    Movable(st, src, dest) && src != dest && !Rejected(st, src, dest) && RuleAllows(st, src, dest)
  }

  /**
   * What submitMove leaves after a legal move: movePiece's placement, the
   * castling field rebuilt by updateCastlingState for the moving piece, and
   * the mover's flag cleared by resetIsCastling when it is a king.
   */
  ghost function Commit(st: State, src: Pos, dest: Pos): State
    requires Passes(st, src, dest)
  {
    var p := At(st.pl.grid, src).value;
    var f := TryFlags(st, src, dest);
    State(Probe(st, src, dest), UpdatedRights(st.rights, p),
          if p.King? then f[ColourIndex(p.colour) := false] else f)
  }

  /**
   * A move that takes the rook along is a castle from the king's home
   * square, along its back row onto an empty square, with the corner
   * occupied and the rook's landing square empty.
   */
  lemma CastleFacts(st: State, src: Pos, dest: Pos)
    requires Passes(st, src, dest)
    requires CarriesRook(At(st.pl.grid, src).value, TryFlags(st, src, dest), dest)
    ensures var p := At(st.pl.grid, src).value;
      p.King? && src == Home(p.colour) && st.pl.kingPos[ColourIndex(p.colour)] == src
      && dest.row == src.row && (dest.col == 6 || dest.col == 1)
      && At(st.pl.grid, RookTo(dest)).None? && At(st.pl.grid, RookFrom(dest)).Some?
      && RookFrom(dest) == Corner(p.colour, dest.col) && RookFrom(dest) != src
  {
    var g := st.pl.grid;
    var p := At(g, src).value;
    ProbeDefined(st, src, dest);
    CastlingMoveShape(g, st.rights, src, dest);
    assert CastlingRight(p.colour, dest.col, st.rights);
  }

  /**
   * The conditions under which movePiece keeps the kings tracked: it
   * captures no king, and a carried rook starts away from src and lands on
   * an empty square.
   */
  ghost predicate KeepsKings(pl: Placement, f: seq<bool>, src: Pos, dest: Pos)
    requires MoveDefined(pl, f, src, dest)
  {
    KingsTracked(pl) && src != dest
    && (At(pl.grid, dest).Some? ==> !At(pl.grid, dest).value.King?)
    && (CarriesRook(At(pl.grid, src).value, f, dest) ==>
          RookFrom(dest) != src && RookTo(dest) != src && At(pl.grid, RookTo(dest)).None?)
  }

  /** The placement after is the one movePiece describes. */
  ghost predicate DescribesMove(pl: Placement, f: seq<bool>, src: Pos, dest: Pos, after: Placement)
    requires MoveDefined(pl, f, src, dest)
  {
    (forall q :: OnBoard(q) ==> At(after.grid, q) == MovedAt(pl, f, src, dest, q))
    && after.kingPos == MovedKings(pl, f, src, dest)
  }

  lemma MovedKingsPlaced(pl: Placement, f: seq<bool>, src: Pos, dest: Pos, after: Placement, c: Colour)
    requires MoveDefined(pl, f, src, dest) && KeepsKings(pl, f, src, dest)
    requires DescribesMove(pl, f, src, dest, after)
    ensures At(after.grid, after.kingPos[ColourIndex(c)]) == Some(King(c, after.kingPos[ColourIndex(c)]))
  {
    var g := pl.grid;
    var k := pl.kingPos[ColourIndex(c)];
    var p := At(g, src).value;
    var carries := CarriesRook(p, f, dest);
    if p.King? && p.colour == c {
      assert after.kingPos[ColourIndex(c)] == dest;
      assert At(after.grid, dest) == MovedAt(pl, f, src, dest, dest);
    } else if carries && At(g, RookFrom(dest)).value.King? && At(g, RookFrom(dest)).value.colour == c {
      assert after.kingPos[ColourIndex(c)] == RookTo(dest);
      assert At(after.grid, RookTo(dest)) == MovedAt(pl, f, src, dest, RookTo(dest));
    } else {
      assert after.kingPos[ColourIndex(c)] == k;
      assert At(after.grid, k) == MovedAt(pl, f, src, dest, k);
    }
  }

  lemma MovedKingRecorded(pl: Placement, f: seq<bool>, src: Pos, dest: Pos, after: Placement, q: Pos)
    requires MoveDefined(pl, f, src, dest) && KeepsKings(pl, f, src, dest)
    requires DescribesMove(pl, f, src, dest, after)
    requires OnBoard(q) && At(after.grid, q).Some? && At(after.grid, q).value.King?
    ensures after.kingPos[ColourIndex(At(after.grid, q).value.colour)] == q
  {
    assert At(after.grid, q) == MovedAt(pl, f, src, dest, q);
  }

  /** movePiece keeps the kings tracked under those conditions. */
  lemma MoveKeepsKings(pl: Placement, f: seq<bool>, src: Pos, dest: Pos)
    requires MoveDefined(pl, f, src, dest) && KeepsKings(pl, f, src, dest)
    ensures KingsTracked(MovePiece(pl, f, src, dest).0)
  {
    var after := MovePiece(pl, f, src, dest).0;
    assert DescribesMove(pl, f, src, dest, after);
    MovedKingsStand(pl, f, src, dest, after);
    MovedKingsRecorded(pl, f, src, dest, after);
  }

  lemma MovedKingsStand(pl: Placement, f: seq<bool>, src: Pos, dest: Pos, after: Placement)
    requires MoveDefined(pl, f, src, dest) && KeepsKings(pl, f, src, dest)
    requires DescribesMove(pl, f, src, dest, after)
    ensures forall c: Colour :: At(after.grid, after.kingPos[ColourIndex(c)]) == Some(King(c, after.kingPos[ColourIndex(c)]))
  {
    forall c: Colour
      ensures At(after.grid, after.kingPos[ColourIndex(c)]) == Some(King(c, after.kingPos[ColourIndex(c)]))
    {
      MovedKingsPlaced(pl, f, src, dest, after, c);
    }
  }

  lemma MovedKingsRecorded(pl: Placement, f: seq<bool>, src: Pos, dest: Pos, after: Placement)
    requires MoveDefined(pl, f, src, dest) && KeepsKings(pl, f, src, dest)
    requires DescribesMove(pl, f, src, dest, after)
    ensures KingsRecorded(after)
  {
    forall q | OnBoard(q) && At(after.grid, q).Some? && At(after.grid, q).value.King?
      ensures after.kingPos[ColourIndex(At(after.grid, q).value.colour)] == q
    {
      MovedKingRecorded(pl, f, src, dest, after, q);
    }
  }

  /** After a move by the side to move, kingPos still records both kings and every king is recorded. */
  lemma CommitKings(st: State, src: Pos, dest: Pos)
    requires StateValid(st) && Passes(st, src, dest) && At(st.pl.grid, src).value.colour == st.pl.side
    ensures KingsTracked(Probe(st, src, dest))
  {
    var p := At(st.pl.grid, src).value;
    var f := TryFlags(st, src, dest);
    NoKingCapture(st, src, dest);
    ProbeDefined(st, src, dest);
    if CarriesRook(p, f, dest) {
      CastleFacts(st, src, dest);
    }
    MoveKeepsKings(st.pl, f, src, dest);
  }

  /**
   * The move does not leave a corner whose castle the rebuilt field still
   * grants: updateCastlingState forfeits a castle only when the king or a
   * rook of the same colour leaves its square, not when some other piece
   * leaves the corner or the rook is taken.
   */
  ghost predicate CornerKept(st: State, src: Pos, dest: Pos)
    requires Movable(st, src, dest)
  {
    forall c: Colour, d: int :: CastlingRight(c, d, UpdatedRights(st.rights, At(st.pl.grid, src).value))
      ==> Corner(c, d) != src
  }

  /** A king found on q is the one kingPos records there. */
  lemma KingAt(pl: Placement, q: Pos)
    requires |pl.kingPos| == 2 && KingsRecorded(pl) && OnBoard(q)
    ensures At(pl.grid, q).Some? && At(pl.grid, q).value.King? ==>
      pl.kingPos[ColourIndex(At(pl.grid, q).value.colour)] == q
  {
  }

  /**
   * movePiece leaves a king of colour c at home and its corner occupied
   * when neither that king nor the corner's piece moves, and a castle by
   * the other colour happens on the other back row.
   */
  ghost predicate CornerSafe(pl: Placement, f: seq<bool>, src: Pos, dest: Pos, c: Colour, d: int)
    requires MoveDefined(pl, f, src, dest)
  {
    KingsRecorded(pl) && (d == 6 || d == 1)
    && pl.kingPos[ColourIndex(c)] == Home(c) && At(pl.grid, Corner(c, d)).Some? && Corner(c, d) != src
    && (At(pl.grid, src).value.King? ==> At(pl.grid, src).value.colour != c)
    && (CarriesRook(At(pl.grid, src).value, f, dest) ==>
          dest.row == Home(At(pl.grid, src).value.colour).row)
  }

  /**
   * A king of colour c at home stays there when the piece that moves is not
   * that king: a rook carried along never comes from a king's square.
   */
  lemma HomeKingStays(pl: Placement, f: seq<bool>, src: Pos, dest: Pos, c: Colour)
    requires MoveDefined(pl, f, src, dest) && KingsRecorded(pl) && pl.kingPos[ColourIndex(c)] == Home(c)
    requires At(pl.grid, src).value.King? ==> At(pl.grid, src).value.colour != c
    ensures MovedKings(pl, f, src, dest)[ColourIndex(c)] == Home(c)
  {
    if CarriesRook(At(pl.grid, src).value, f, dest) {
      KingAt(pl, RookFrom(dest));
    }
  }

  /** The corner of a castle c may still make keeps its piece through a move that CornerSafe allows. */
  lemma CornerFilled(pl: Placement, f: seq<bool>, src: Pos, dest: Pos, c: Colour, d: int)
    requires MoveDefined(pl, f, src, dest) && CornerSafe(pl, f, src, dest, c, d)
    ensures OnBoard(Corner(c, d)) && MovedAt(pl, f, src, dest, Corner(c, d)).Some?
  {
    var p := At(pl.grid, src).value;
    if CarriesRook(p, f, dest) {
      assert p.colour != c;
      assert RookFrom(dest).row != Corner(c, d).row;
    }
    MovedAtOccupied(pl, f, src, dest, Corner(c, d));
  }

  /** A castle the rebuilt field grants still has its king at home and its corner occupied. */
  lemma CommitRight(st: State, src: Pos, dest: Pos, c: Colour, d: int)
    requires Sound(st) && Passes(st, src, dest) && CornerKept(st, src, dest)
    requires CastlingRight(c, d, UpdatedRights(st.rights, At(st.pl.grid, src).value))
    ensures var after := Probe(st, src, dest);
      after.kingPos[ColourIndex(c)] == Home(c) && At(after.grid, Corner(c, d)).Some?
  {
    var g := st.pl.grid;
    var p := At(g, src).value;
    var f := TryFlags(st, src, dest);
    var after := Probe(st, src, dest);
    UpdatedLetters(st.rights, p, CastlingLetter(c, d).value);
    assert CastlingRight(c, d, st.rights);
    ProbeDefined(st, src, dest);
    if CarriesRook(p, f, dest) {
      CastleFacts(st, src, dest);
    }
    assert after == MovePiece(st.pl, f, src, dest).0;
    assert CornerSafe(st.pl, f, src, dest, c, d);
    HomeKingStays(st.pl, f, src, dest, c);
    CornerFilled(st.pl, f, src, dest, c, d);
  }

  /** The rebuilt castling field is backed by the placement after the move. */
  lemma CommitRights(st: State, src: Pos, dest: Pos)
    requires Sound(st) && Passes(st, src, dest) && CornerKept(st, src, dest)
    ensures RightsBacked(Probe(st, src, dest), UpdatedRights(st.rights, At(st.pl.grid, src).value))
  {
    var after := Probe(st, src, dest);
    forall c: Colour, d: int | CastlingRight(c, d, UpdatedRights(st.rights, At(st.pl.grid, src).value))
      ensures after.kingPos[ColourIndex(c)] == Home(c) && At(after.grid, Corner(c, d)).Some?
    {
      CommitRight(st, src, dest, c, d);
    }
  }

  /** After the move, a set isCastling flag still belongs to a king at home. */
  lemma CommitFlag(st: State, src: Pos, dest: Pos, c: Colour)
    requires Sound(st) && Passes(st, src, dest)
    ensures var after := Commit(st, src, dest);
      |after.flags| == 2 && (after.flags[ColourIndex(c)] ==> after.pl.kingPos[ColourIndex(c)] == Home(c))
  {
    var p := At(st.pl.grid, src).value;
    var f := TryFlags(st, src, dest);
    TryFlagsSound(st, src, dest);
    if !(p.King? && p.colour == c) && f[ColourIndex(c)] {
      assert st.flags[ColourIndex(c)];
      ProbeDefined(st, src, dest);
      HomeKingStays(st.pl, f, src, dest, c);
    }
  }

  /**
   * submitMove keeps the representation invariant: a legal move by the side
   * to move that leaves no granted corner empty gives a valid state.
   */
  lemma CommitValid(st: State, src: Pos, dest: Pos)
    requires StateValid(st) && Movable(st, src, dest) && LegalMove(st, src, dest)
    requires At(st.pl.grid, src).value.colour == st.pl.side && CornerKept(st, src, dest)
    ensures StateValid(Commit(st, src, dest))
    ensures Commit(st, src, dest).pl.side == Opponent(st.pl.side)
  {
    var p := At(st.pl.grid, src).value;
    var after := Commit(st, src, dest);
    CommitKings(st, src, dest);
    CommitRights(st, src, dest);
    UpdatedShape(st.rights, p);
    forall c: Colour
      ensures after.flags[ColourIndex(c)] ==> after.pl.kingPos[ColourIndex(c)] == Home(c)
    {
      CommitFlag(st, src, dest, c);
    }
    CommitFlag(st, src, dest, White);
  }

  // ---------------------------------------------------------------------
  // submitMove

  /**
   * The state with both isCastling flags clear. A legality probe may leave
   * a king's flag set, and whether a move is legal does not depend on the
   * flags, so the queries of checkGameState are stated on this state.
   */
  function Settled(st: State): State {
    st.(flags := [false, false])
  }

  /** Clearing the flags keeps a state sound. */
  lemma SettledSound(st: State)
    requires Sound(st)
    ensures Sound(Settled(st))
  {
  }

  /** Clearing the flags keeps a state sound and changes no legality answer. */
  lemma SettledLegal(st: State, src: Pos, dest: Pos)
    requires Movable(st, src, dest)
    ensures Movable(Settled(st), src, dest)
    ensures LegalMove(Settled(st), src, dest) == LegalMove(st, src, dest)
  {
    LegalMoveIgnoresFlags(st, [false, false], src, dest);
  }

  /** How submitMove ends: one of its four rejections, or the move made and checkGameState's verdict. */
  datatype Outcome = InvalidPosition | NoPiece | WrongTurn | IllegalMove | Moved(verdict: GameState)

  /**
   * A move that submitMove would make leaves no granted corner empty (see
   * CornerKept); calls it rejects are not constrained.
   */
  ghost predicate KeepsCorners(st: State, src: string, dest: string)
    requires Sound(st)
  {
    var s := ParsePosition(src);
    var d := ParsePosition(dest);
    OnBoard(s) && OnBoard(d) && At(st.pl.grid, s).Some?
    && At(st.pl.grid, s).value.colour == st.pl.side && LegalMove(st, s, d)
    ==> CornerKept(st, s, d)
  }

  /** ChessBoard::submitMove: the rejections in the order it tests them, then the move. */
  ghost function SubmitOutcome(st: State, src: string, dest: string): Outcome
    requires StateValid(st) && KeepsCorners(st, src, dest)
  {
    var s := ParsePosition(src);
    var d := ParsePosition(dest);
    if s.row == -1 || d.row == -1 then InvalidPosition
    else if At(st.pl.grid, s).None? then NoPiece
    else if At(st.pl.grid, s).value.colour != st.pl.side then WrongTurn
    else if !LegalMove(st, s, d) then IllegalMove
    else
      CommitValid(st, s, d);
      Moved(GameStateOf(Settled(Commit(st, s, d))))
  }

  /**
   * A move is made exactly when both names are squares, the source holds a
   * piece of the side to move and the move is legal.
   */
  lemma SubmitMoves(st: State, src: string, dest: string)
    requires StateValid(st) && KeepsCorners(st, src, dest)
    ensures var s := ParsePosition(src); var d := ParsePosition(dest);
      SubmitOutcome(st, src, dest).Moved? <==>
        IsSquareName(src) && IsSquareName(dest) && At(st.pl.grid, s).Some?
        && At(st.pl.grid, s).value.colour == st.pl.side && LegalMove(st, s, d)
  {
  }
}
