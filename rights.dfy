/**
 * The castling availability string and how ChessBoard::updateCastlingState
 * rebuilds it after a move: the letters the moving piece forfeits are
 * dropped, the others keep their order, and an empty result becomes "-".
 */
module Rights {
  import opened Coord
  import opened Pieces
  import opened Castling

  /** s is a subsequence of t: s is t with some characters dropped. */
  predicate Subseq(s: string, t: string)
    decreases |t|
  {
    if s == [] then true
    else if t == [] then false
    else if s[0] == t[0] then Subseq(s[1..], t[1..])
    else Subseq(s, t[1..])
  }

  lemma {:induction false} SubseqLength(s: string, t: string)
    requires Subseq(s, t)
    ensures |s| <= |t|
    decreases |t|
  {
    if s != [] {
      if s[0] == t[0] {
        SubseqLength(s[1..], t[1..]);
      } else {
        SubseqLength(s, t[1..]);
      }
    }
  }

  lemma {:induction false} SubseqMembers(s: string, t: string)
    requires Subseq(s, t)
    ensures forall ch :: ch in s ==> ch in t
    decreases |t|
  {
    if s != [] {
      if s[0] == t[0] {
        SubseqMembers(s[1..], t[1..]);
        assert forall ch :: ch in s ==> ch == s[0] || ch in s[1..];
      } else {
        SubseqMembers(s, t[1..]);
      }
    }
  }

  lemma {:induction false} SubseqTrans(r: string, s: string, t: string)
    requires Subseq(r, s) && Subseq(s, t)
    ensures Subseq(r, t)
    decreases |t|
  {
    if r != [] {
      SubseqLength(s, t);
      if s[0] == t[0] {
        if r[0] == s[0] {
          SubseqTrans(r[1..], s[1..], t[1..]);
        } else {
          SubseqTrans(r, s[1..], t[1..]);
        }
      } else {
        SubseqTrans(r, s, t[1..]);
        if r[0] == t[0] {
          SubseqDrop(r, t[1..]);
        }
      }
    }
  }

  /** A subsequence as long as the whole is the whole. */
  lemma {:induction false} SubseqFull(s: string, t: string)
    requires Subseq(s, t) && |s| == |t|
    ensures s == t
    decreases |t|
  {
    if s != [] {
      if s[0] == t[0] {
        SubseqFull(s[1..], t[1..]);
      } else {
        SubseqLength(s, t[1..]);
      }
    }
  }

  /** What the castling field may hold: "-", or some of "KQkq" in that order. */
  predicate RightsShape(s: string) {
    s == "-" || Subseq(s, "KQkq")
  }

  /**
   * The switch of updateCastlingState: a king forfeits both of its side's
   * castles, a rook leaving column 7 the king-side one and a rook leaving
   * column 0 the queen-side one; any other move forfeits nothing.
   */
  function Removal(p: Piece): (r: Option<string>)
    ensures p.King? ==>
      r == Some([CastlingLetter(p.colour, 6).value, CastlingLetter(p.colour, 1).value])
    ensures p.Rook? && p.pos.col == 7 ==> r == Some([CastlingLetter(p.colour, 6).value])
    ensures p.Rook? && p.pos.col == 0 ==> r == Some([CastlingLetter(p.colour, 1).value])
    ensures !p.King? && !(p.Rook? && (p.pos.col == 7 || p.pos.col == 0)) ==> r.None?
  {
    var symbol := Symbol(p);
    if symbol == 'K' then Some("KQ")
    else if symbol == 'k' then Some("kq")
    else if symbol == 'R' then
      (if p.pos.col == 7 then Some("K") else if p.pos.col == 0 then Some("Q") else None)
    else if symbol == 'r' then
      (if p.pos.col == 7 then Some("k") else if p.pos.col == 0 then Some("q") else None)
    else None
  }

  /** The characters of s not in remove, in their order. */
  function Filter(s: string, remove: string): (r: string)
    ensures forall ch :: ch in r <==> ch in s && ch !in remove
    ensures Subseq(r, s)
  {
    if s == [] then []
    else
      var rest := Filter(s[1..], remove);
      assert forall ch :: ch in s <==> ch == s[0] || ch in s[1..];
      if s[0] in remove then
        assert Subseq(rest, s) by { SubseqSkipHead(rest, s); }
        rest
      else [s[0]] + rest
  }

  /** Dropping the head of a subsequence leaves a subsequence. */
  lemma {:induction false} SubseqDrop(r: string, s: string)
    requires r != [] && Subseq(r, s)
    ensures Subseq(r[1..], s)
    decreases |s|, 1
  {
    if r[0] == s[0] {
      SubseqSkipHead(r[1..], s);
    } else {
      SubseqDrop(r, s[1..]);
      SubseqSkipHead(r[1..], s);
    }
  }

  /** A subsequence of the tail is a subsequence of the whole. */
  lemma {:induction false} SubseqSkipHead(r: string, s: string)
    requires s != [] && Subseq(r, s[1..])
    ensures Subseq(r, s)
    decreases |s|, 0
  {
    if r != [] && r[0] == s[0] {
      SubseqDrop(r, s[1..]);
    }
  }

  /** The filtered prefix grows by at most the next character. */
  lemma {:induction false} FilterSnoc(s: string, i: nat, remove: string)
    requires i < |s|
    ensures Filter(s[..i + 1], remove)
      == Filter(s[..i], remove) + (if s[i] in remove then [] else [s[i]])
    decreases i
  {
    if i > 0 {
      assert s[..i + 1][1..] == s[1..][..i];
      assert s[..i][1..] == s[1..][..i - 1];
      FilterSnoc(s[1..], i - 1, remove);
    }
  }

  /** updateCastlingState's new castling field. */
  function UpdatedRights(s: string, p: Piece): string {
    match Removal(p)
    case None => s
    case Some(remove) =>
      var kept := Filter(s, remove);
      if kept == [] then "-" else kept
  }

  /**
   * A castling letter survives exactly when it was there and the move does
   * not forfeit it: rights are only ever removed.
   */
  lemma UpdatedLetters(s: string, p: Piece, letter: char)
    requires letter in "KQkq"
    ensures letter in UpdatedRights(s, p) <==>
      letter in s && !(Removal(p).Some? && letter in Removal(p).value)
  {
  }

  /** The rebuilt field keeps its shape. */
  lemma UpdatedShape(s: string, p: Piece)
    requires RightsShape(s)
    ensures RightsShape(UpdatedRights(s, p))
  {
    if Removal(p).Some? && s != "-" {
      var kept := Filter(s, Removal(p).value);
      if kept != [] {
        SubseqTrans(kept, s, "KQkq");
      }
    }
  }

  /**
   * The kept letters and the terminating NUL fit the four characters
   * updateCastlingState allocates.
   */
  lemma UpdateFitsBuffer(s: string, p: Piece)
    requires RightsShape(s) && Removal(p).Some?
    ensures |Filter(s, Removal(p).value)| + 1 <= 4
  {
    var remove := Removal(p).value;
    var kept := Filter(s, remove);
    if s == "-" {
      assert kept == "-";
    } else {
      SubseqLength(s, "KQkq");
      SubseqLength(kept, s);
      if |s| == 4 {
        SubseqFull(s, "KQkq");
        assert remove[0] in s;
        assert remove[0] !in kept;
        if |kept| == 4 {
          SubseqFull(kept, s);
        }
      }
    }
  }
}
