# A verified model of a small chess rules engine

This project models, in Dafny, the legality logic of a single-threaded C++ chess engine. It covers four layers:

- **Coordinates** (`Pos.cpp`). A square is named by a file letter and a rank digit and decoded to a (row, column) pair. Row 0 is rank 8.
- **Path geometry** (`Moves.cpp`):
  - the line scans `isDiagonal`, `isVertical` and `isHorizontal`;
  - the knight test `isL`;
  - the ray queries `is*Check` and `isLCheck`, with `canCheck` deciding whether the nearest piece on a ray may take or reach the probed square.
- **Piece rules** (`ChessPiece.cpp`):
  - the six `isValidMove` overrides;
  - `canBeTaken` and its `check*` helpers;
  - the king's castling test with `isPathBlocked`, `checkCastlingState` and `contains`.
- **The board** (`ChessBoard.cpp`):
  - `movePiece` and `undoMove` on the 8x8 array, with the castling rook carried along;
  - `tryValidMove`, which applies the move, tests for self-check and undoes it;
  - `submitMove` with its four rejections;
  - `updateCastlingState` and `resetIsCastling`;
  - the end-of-move classification `checkGameState`, with `isCheckmate`, `kingCanMove`, `canTakeAttacker`, `canBlockAttacker`, `boardHasValidMove` and `pieceHasValidMove`.

The modules follow those layers:

| module | file | what it holds |
|---|---|---|
| `Coord` | coord.dfy | squares, `parsePosition`, `==` and `!=` |
| `Pieces` | pieces.dfy | colours, pieces as values, the 64-square grid |
| `Paths` | paths.dfy | line scans, `isL`, the geometry of rays |
| `Rules` | rules.dfy | the `isValidMove` of each piece |
| `Attack` | attack.dfy | `canCheck`, the ray queries, `isLCheck`, `canBeTaken` |
| `Castling` | castling.dfy | the castling test of the king |
| `Rights` | rights.dfy | the castling field and how `updateCastlingState` rebuilds it |
| `Position` | position.dfy | `movePiece` and `undoMove` as functions on a placement |
| `Legal` | legal.dfy | the state invariant, `tryValidMove` as a predicate, the state after a move, the verdict of `checkGameState` |
| `Board` | board.dfy | class `ChessBoard` |

**The board class.** `ChessBoard` keeps the board as an array of 64 optional pieces (row-major) and `kingPos` as an array of two squares. The side to move, the castling field and the `isCastling` flag of each king are fields.

Each method updates these in place, in the same steps as the C++. Its contract ties the new fields to the value-level model:

- `MovePiece` and `UndoMove` are tied to `Position.MovePiece` and `Position.UndoMove`.
- `TryValidMove` is tied to `Legal.LegalMove`.
- Each search is tied to its specification predicate.
- `SubmitMove` is tied to `Legal.SubmitOutcome`.

**What is proved.** The main properties:

- `undoMove` exactly inverts `movePiece`, castling included.
- `tryValidMove` leaves the board as it found it.
- `canBeTaken` is sound and complete: it reports a piece exactly when some piece may move onto the square.
- `checkGameState` classifies a position as check, checkmate, stalemate or normal, stated in terms of those attacks and legal moves.
- `submitMove` keeps the representation invariant:
  - each piece records its square;
  - `kingPos` records both kings;
  - the castling field is `-` or a subsequence of `KQkq`;
  - a castle still granted has its king at home and its corner occupied;
  - a set `isCastling` flag belongs to a king at home;
  - the side that has just moved is not in check.
- Rights are only ever removed, and only according to the moving piece.

## Model

| member | source | states |
|---|---|---|
| Coord.ParsePosition | Pos.cpp:12-26 | a two-character name, file A-H then rank 1-8, decodes to an on-board square; every other text decodes to (-1, -1); the row is -1 exactly when the text is malformed |
| Coord.ParseSquareName | Pos.cpp:23-24 | decoding the name of any on-board square gives that square back |
| Coord.SquareNameParse | Pos.cpp:23-24 | naming the square a valid name decodes to gives that name back |
| Coord.ParseInjective | Pos.cpp:23-24 | two valid names that decode to the same square are the same name |
| Coord.Equal | Pos.cpp:28-31 | true exactly when both row and column agree, i.e. the squares are equal |
| Coord.NotEqual | Pos.cpp:33-36 | true exactly when the squares differ, and always the negation of Equal |
| Pieces.Opponent | ChessBoard.cpp:247-250 | the toggle always yields the other colour |
| Pieces.Symbol | ChessPiece.cpp:141-201 | White pieces have upper-case letters and Black pieces lower-case ones |
| Pieces.SetPos | ChessPiece.cpp:23-25 | only the recorded position changes; colour, kind and letter stay |
| Paths.ScanEmpty | Moves.cpp:16-24 | the walk finds nothing exactly when every square it visits is empty |
| Paths.ScanHit | Moves.cpp:16-24 | a square the walk reports lies on the walk and holds the reported piece, and every square before it is empty |
| Paths.ScanFinds | Moves.cpp:16-24 | the walk reports the first occupied square it visits |
| Paths.LineScan | Moves.cpp:12-24 | scanning from one step past src: empty exactly when nothing stands between src and dest; a hit is the nearest piece between them |
| Paths.IsDiagonal | Moves.cpp:6-25 | off the diagonal: the occupant of src; on it: None exactly when the squares between are empty, otherwise the nearest piece between, with nothing before it |
| Paths.IsVertical | Moves.cpp:27-43 | off the column: the occupant of src; in it: None exactly when the squares between are empty, otherwise the nearest piece between |
| Paths.IsHorizontal | Moves.cpp:45-61 | off the row: the occupant of src; in it: None exactly when the squares between are empty, otherwise the nearest piece between |
| Paths.IsDiagonalFinds | Moves.cpp:16-24 | the nearest piece between src and dest on a diagonal is the one isDiagonal returns |
| Paths.IsVerticalFinds | Moves.cpp:36-42 | the nearest piece between src and dest in a column is the one isVertical returns |
| Paths.IsHorizontalFinds | Moves.cpp:54-60 | the nearest piece between src and dest in a row is the one isHorizontal returns |
| Paths.IsL | Moves.cpp:63-69 | true exactly for the jumps of (2, 1) or (1, 2) squares |
| Paths.IsLSymmetric | Moves.cpp:63-69 | the jump test is symmetric in its two squares |
| Paths.IsLNotAligned | Moves.cpp:63-69 | a knight's jump is never along a row, column or diagonal |
| Paths.WalkStep | ChessBoard.cpp:366-368 | the walk from the king towards an aligned checker visits exactly the squares between them, one step further each pass, and stops on the checker |
| Rules.RookMove | ChessPiece.cpp:147-151 | legal exactly along a row or column with nothing in the way |
| Rules.KnightMove | ChessPiece.cpp:161-164 | legal exactly for a knight's jump, whatever stands on the board |
| Rules.BishopMove | ChessPiece.cpp:174-177 | legal exactly along a diagonal with nothing in the way |
| Rules.QueenMove | ChessPiece.cpp:187-192 | legal exactly along a row, column or diagonal with nothing in the way |
| Rules.KingRule | ChessPiece.cpp:203-212 | Rules.KingMove (King::isValidMove without castling) holds, for an occupied source, exactly when the destination is one of the eight neighbouring squares |
| Rules.PawnRule | ChessPiece.cpp:286-341 | Rules.PawnMove (Pawn::isValidMove) with Rules.ValidDistance (Pawn::isValidDistance) allows exactly the steps of Rules.PawnReach: forward only, one square onto an empty square, two from row 6 or 1 across and onto empty squares, or one square diagonally onto an occupied square |
| Rules.ValidMoveGeometry | ChessPiece.cpp:147-212 | Rules.ValidMove (the virtual isValidMove dispatch): every rule except the knight's moves along a line with nothing in the way; the knight's is a jump |
| Attack.CanCheck | Moves.cpp:136-164 | checks the nearest piece on the ray, or failing that the piece on the edge square. It reports None when the nearest piece on the ray has the excluded letter, or when the ray and the edge square are empty; a piece on the edge square is not tested against the letter. It reports the candidate exactly when its colour test passes and it may move onto src |
| Attack.IsDiagonalCheck | Moves.cpp:71-81 | a reported piece stands on the board and may take or reach src |
| Attack.IsVerticalCheck | Moves.cpp:83-93 | a reported piece stands on the board and may take or reach src |
| Attack.IsHorizontalCheck | Moves.cpp:95-105 | a reported piece stands on the board and may take or reach src |
| Attack.RayFinds | Moves.cpp:71-105 | reports a non-excluded piece on the ray or its edge square, with nothing between, that may move onto src |
| Attack.CheckHorizontal | ChessPiece.cpp:54-71 | a reported piece may take or reach pos |
| Attack.CheckVertical | ChessPiece.cpp:73-90 | a reported piece may take or reach pos |
| Attack.DiagonalEdge | ChessPiece.cpp:96-118 | each diagonal ray ends on the last square of the board in its direction |
| Attack.CheckDiagonal | ChessPiece.cpp:92-125 | a reported piece may take or reach pos |
| Attack.KnightSquares | Moves.cpp:110-115 | the table of offsets lists exactly the knight's jumps |
| Attack.KnightCheckFrom | Moves.cpp:117-131 | the loop reports only a knight that may take or reach pos |
| Attack.IsLCheck | Moves.cpp:107-134 | reports only a knight, a jump away, that may take or reach pos |
| Attack.KnightCheckFinds | Moves.cpp:117-131 | from any entry up to the one that leads to an attacking knight, the loop reports a knight |
| Attack.CanBeTaken | ChessPiece.cpp:27-52 | every piece it reports stands on the board and may take or reach pos |
| Attack.AttackerAligned | ChessPiece.cpp:27-52 | a reported piece other than a knight stands on a line through pos with nothing between |
| Attack.HorizontalComplete | ChessPiece.cpp:54-71 | a piece in pos's row that may move onto it with nothing between is found |
| Attack.VerticalComplete | ChessPiece.cpp:73-90 | a piece in pos's column that may move onto it with nothing between is found |
| Attack.DiagonalComplete | ChessPiece.cpp:92-125 | a piece on a diagonal of pos that may move onto it with nothing between is found |
| Attack.KnightComplete | Moves.cpp:107-134 | a knight a jump away that may move onto pos is found |
| Attack.CanBeTakenComplete | ChessPiece.cpp:27-52 | whenever some piece not of the excluded kind may move onto pos, a piece is reported |
| Castling.CastlingLetter | ChessPiece.cpp:250-262 | the field letter exists exactly for columns 6 and 1, and it is upper case exactly for White |
| Castling.Contains | ChessPiece.cpp:266-276 | true exactly when the letter occurs in the field |
| Castling.CheckCastlingState | ChessPiece.cpp:247-264 | true exactly when the field holds the letter for the king's colour and destination column |
| Castling.IsPathBlocked | ChessPiece.cpp:230-245 | true exactly when the opponent can take something on some square from the king's column up to, not including, the destination column |
| Castling.CastlingTest | ChessPiece.cpp:214-228 | true exactly when the path is not attacked, the field grants the castle, the destination is empty and the row between is clear |
| Castling.CastlingMoveShape | ChessPiece.cpp:214-264 | a castle goes along the king's row onto column 6 or 1, over empty squares onto an empty square, with its letter in the field |
| Castling.CastlingPathSafe | ChessPiece.cpp:230-245 | no square a castling king passes, its own included, can be taken by the opponent |
| Rights.Removal | ChessBoard.cpp:386-410 | a king forfeits both of its colour's letters; a rook on column 7 forfeits the king side one and on column 0 the queen side one; any other piece forfeits nothing |
| Rights.Filter | ChessBoard.cpp:412-433 | the kept letters are exactly those of the field not forfeited, in their original order |
| Rights.UpdatedLetters | ChessBoard.cpp:386-441 | a letter survives exactly when it was present and the moving piece does not forfeit it |
| Rights.UpdatedShape | ChessBoard.cpp:434-437 | a field that is "-" or a subsequence of KQkq stays so |
| Rights.UpdateFitsBuffer | ChessBoard.cpp:414-433 | the kept letters and the terminator fit the four characters allocated |
| Position.MovePiece | ChessBoard.cpp:139-168 | returns what stood on dest and empties src. The piece lands on dest, recording dest. A castling king also brings the rook from column 7 to 5 or from 0 to 2. The side to move flips exactly once |
| Position.UndoMove | ChessBoard.cpp:170-205 | the piece on dest goes back to src, a castling king's rook goes back to its corner, the taken piece returns to dest, and the side flips |
| Position.MoveUndo | ChessBoard.cpp:139-205 | undoMove after movePiece, given the piece taken, restores the board, every piece's square, kingPos and the side to move, castling included |
| Position.MoveWellFormed | ChessBoard.cpp:144-145 | after movePiece every piece still records the square it stands on |
| Position.MoveKingsOnBoard | ChessBoard.cpp:147-149 | movePiece records each king on a square of the board |
| Position.MoveFlagsIrrelevant | ChessBoard.cpp:150-160 | the isCastling flags affect movePiece only through whether the king carries its rook |
| Legal.ProbeDefined | ChessBoard.cpp:207-233 | a move that passes tryValidMove's tests can be made and taken back, and it carries the rook exactly when it is a castle |
| Legal.TryFlagsSound | ChessPiece.cpp:222-225 | the castle test changes only the mover's flag, sets it only when the castle test passes, and keeps the state invariant |
| Legal.LegalMoveIgnoresFlags | ChessBoard.cpp:207-245 | whether a move is legal does not depend on flags the invariant allows |
| Legal.InCheckMeans | ChessBoard.cpp:284-287 | isCheck finds an attacker exactly when some piece may take the king |
| Legal.LegalMoveSafe | ChessBoard.cpp:232-244 | after a move tryValidMove accepts, no piece at all can take the mover's king |
| Legal.LegalMoveShape | ChessBoard.cpp:207-245 | Legal.LegalMove (tryValidMove as a predicate): an accepted move goes elsewhere, not onto its own colour, onto an empty square only for the side to move, by the piece's rule or a castle; with Legal.LegalMoveSafe it leaves the mover's king unattacked |
| Legal.NoKingCapture | ChessBoard.cpp:207-231 | from a valid state, a move by the side to move never lands on a king |
| Legal.CheckerMeans | ChessBoard.cpp:264-267 | canBeTaken names a checker exactly when some piece can take the king of the side to move |
| Legal.GameStateInCheck | ChessBoard.cpp:264-274 | check or checkmate is reported exactly when some piece can take the king of the side to move |
| Legal.GameStateStalemate | ChessBoard.cpp:275-280 | stalemate is reported exactly when the king is not attacked and the side to move has no legal move |
| Legal.GameStateNormal | ChessBoard.cpp:264-282 | Legal.GameStateOf (checkGameState's verdict): Normal exactly when the king is not attacked and a legal move exists; with Legal.GameStateInCheck and Legal.GameStateStalemate every verdict is characterised |
| Legal.ReacherOnSide | Moves.cpp:153-157 | the piece canBeTaken names for an empty square belongs to the side to move and has a legal move there |
| Legal.CheckLeavesMove | ChessBoard.cpp:289-305 | when check, not checkmate, is reported, the side to move has a legal move |
| Legal.KingLeaves | ChessBoard.cpp:307-330 | a king that can step away gives its side a legal move |
| Legal.TakeLeaves | ChessBoard.cpp:332-347 | a piece that can legally take the checker gives its side a legal move |
| Legal.BlockLeaves | ChessBoard.cpp:349-384 | a piece that can legally step between king and checker gives its side a legal move |
| Legal.CastleFacts | ChessBoard.cpp:150-160 | a move that carries the rook is a castle from the king's home square along its back row, with the corner occupied and the rook's landing square empty |
| Legal.MoveKeepsKings | ChessBoard.cpp:146-149 | when no king is captured and a carried rook lands on an empty square, kingPos still records both kings and every king on the board |
| Legal.CommitKings | ChessBoard.cpp:129-133 | after a move by the side to move, kingPos still records both kings |
| Legal.CommitRight | ChessBoard.cpp:386-441 | provided the move does not leave a corner whose castle the rebuilt field still grants (CornerKept), a castle that field grants has its king at home and its corner occupied |
| Legal.CommitRights | ChessBoard.cpp:386-441 | provided the move does not leave a corner whose castle the rebuilt field still grants (CornerKept), the rebuilt castling field is backed by the board after the move |
| Legal.CommitFlag | ChessBoard.cpp:443-453 | after the move a set isCastling flag still belongs to a king at home |
| Legal.CommitValid | ChessBoard.cpp:124-133 | a legal move by the side to move that does not leave a corner whose castle the rebuilt field still grants (CornerKept) keeps the representation invariant and passes the turn |
| Legal.SettledLegal | ChessBoard.cpp:207-245 | clearing the isCastling flags changes no legality answer |
| Legal.SubmitMoves | ChessBoard.cpp:102-137 | Legal.SubmitOutcome (submitMove's result): Moved exactly when both names are squares, the source holds a piece of the side to move and the move is legal; otherwise one of the four rejections |
| Board.ChessBoard.constructor | ChessBoard.cpp:7-16 | every square empty and White to move |
| Board.ChessBoard.ChangeSides | ChessBoard.cpp:247-250 | the side to move becomes the other colour; nothing else changes |
| Board.ChessBoard.MovePiece | ChessBoard.cpp:139-168 | the array, kingPos and side become Position.MovePiece's placement, and the returned piece is what stood on dest |
| Board.ChessBoard.UndoMove | ChessBoard.cpp:170-205 | the array, kingPos and side become Position.UndoMove's placement |
| Board.ChessBoard.IsCheck | ChessBoard.cpp:284-287 | returns canBeTaken's piece, present exactly when some piece may take a king on that square |
| Board.ChessBoard.IsCastlingMove | ChessPiece.cpp:214-228 | true exactly for a castle, setting the king's flag then and only then |
| Board.ChessBoard.ProbeMove | ChessBoard.cpp:232-244 | answers whether the mover's king is safe after the move, and leaves the placement as it found it |
| Board.ChessBoard.TryValidMove | ChessBoard.cpp:207-245 | answers Legal.LegalMove and leaves board, kingPos, side and castling field unchanged; only the mover's flag may be set |
| Board.ChessBoard.KingCanMove | ChessBoard.cpp:307-330 | true exactly when the king has a legal step to a neighbouring square |
| Board.ChessBoard.CanTakeAttacker | ChessBoard.cpp:332-347 | true exactly when the one piece canBeTaken names with the excluded letter 'K' (a king is skipped as the nearest piece on a ray, not on an edge square) can legally take the checker |
| Board.ChessBoard.CanBlockAttacker | ChessBoard.cpp:349-384 | true exactly when some square between king and checker can legally be reached by the piece canBeTaken names for it with the excluded letter 'K' (a king is skipped as the nearest piece on a ray, not on an edge square) |
| Board.ChessBoard.WalkToChecker | ChessBoard.cpp:365-383 | the walk finds a block exactly when one exists |
| Board.ChessBoard.IsCheckmate | ChessBoard.cpp:289-305 | true exactly when the king cannot step away, the checker cannot be taken and, unless it is a knight, it cannot be blocked |
| Board.ChessBoard.PieceHasValidMove | ChessBoard.cpp:470-482 | true exactly when the piece has a legal move to some square |
| Board.ChessBoard.BoardHasValidMove | ChessBoard.cpp:455-468 | true exactly when some piece of the colour has a legal move |
| Board.ChessBoard.CheckGameState | ChessBoard.cpp:264-282 | returns Legal.GameStateOf of the position and leaves board, kingPos, side and field unchanged |
| Board.ChessBoard.UpdateCastlingState | ChessBoard.cpp:386-441 | the castling field becomes the field with the moving piece's letters dropped, "-" when none remain |
| Board.ChessBoard.ResetIsCastling | ChessBoard.cpp:443-453 | a king's flag is cleared, any other piece changes nothing; the side and field stay |
| Board.ChessBoard.MakeMove | ChessBoard.cpp:252-262 | the placement becomes movePiece's and the taken piece is returned |
| Board.ChessBoard.CommitMove | ChessBoard.cpp:128-133 | the state becomes Legal.Commit: movePiece's placement, the rebuilt field, the mover's flag cleared |
| Board.ChessBoard.SubmitMove | ChessBoard.cpp:102-137 | for any call whose accepted move keeps granted corners occupied (every rejected call qualifies), returns Legal.SubmitOutcome. It keeps the invariant and changes neither the placement nor the field on any rejection. After a move, the placement and field are Legal.Commit's |

## Left out

- Console output: the messages of `submitMove`, `makeMove`, `checkGameState` and `loadState`, and the `operator<<` overloads. `checkGameState` returns its verdict (`Normal`, `Check`, `Checkmate`, `Stalemate`) and `submitMove` returns an `Outcome` instead of printing.
- The board loader: `loadState`, `loadBoard`, `makePiece` and `getSideToMove` are not part of this model. States are taken as given by the invariant `Legal.StateValid`.
- `Legal.RightsBacked` and `Legal.FlagsBacked`, which `Legal.StateValid` and so `Board.ChessBoard.SubmitMove` require, exclude positions the loader accepts: a castling field granting a castle whose king is off its home square or whose corner is empty, and a set `isCastling` flag on a king away from home. `loadState` copies any field (ChessBoard.cpp:26), and its comment (ChessBoard.cpp:25) only asks that the field correspond to the board; the invariant takes that as a precondition. test.cpp loads such positions ("KQkq" with moved kings at test.cpp:14-26, "R1K4R w Kkq" with the White king on C1 at test.cpp:34). Two behaviours of the C++ in those positions are therefore not captured: a king castling from a square other than its home square (`isCastlingMove`, ChessPiece.cpp:214-228, never tests the king's square, so C1 to G1 passes and carries the H1 rook); and a castle that passes the castle test but fails the self-check, after which `isCastling` stays set (only `resetIsCastling` after a made move clears it), so that a later plain king step onto column 6 or 1 carries whatever stands beside the destination (ChessBoard.cpp:151-159), possibly removing a piece from the board.
- Memory management: `new` and `delete` of pieces, the destructor, and the four-character buffer of `updateCastlingState`. `Rights.UpdateFitsBuffer` shows the kept letters fit that buffer.
- Pieces are values, not shared objects. Each square holds a piece with its recorded square, and `setPos` is a record update. The `icon` and `name` strings and the C-style casts are not modelled. The kind of piece is the datatype constructor, and it agrees with the `symbol` tests (`Pieces.Symbol`).
- `Pos::operator=` and the `Pos(int, int)` constructor are the value semantics of the `Pos` datatype. `Pos::operator==` is `Coord.Equal`, used where the C++ compares positions with it (`tryValidMove`, the `is*Check` queries, the pawn rule); the ghost specifications use Dafny's `==`, which `Coord.Equal` is proved to agree with.
- `Board.ChessBoard.constructor`: `castlingState`, `kingPos` and the flags are given values, where the C++ leaves them unset until a board is loaded.
- `Board.ChessBoard.SubmitMove`: requires `Legal.KeepsCorners`. A move that `submitMove` would make must not vacate a corner whose castle the rebuilt field still grants; calls it rejects are not constrained. `updateCastlingState` forfeits a castle only when the king or a rook of the same colour moves, not when a rook is captured. A later castle would then dereference an empty corner in `movePiece`, so the model excludes such moves instead of modelling that dereference.
- `Legal.GameStateOf` and `Board.ChessBoard.CheckGameState`: the verdicts are stated on the position with both `isCastling` flags cleared (`Legal.Settled`). A probe may leave a king's flag set, and `Legal.LegalMoveIgnoresFlags` shows the flags change no legality answer.
- `Board.ChessBoard.TryValidMove`: it is stated to leave the flags as `Legal.TryFlags` says, not unchanged. A passed castle test sets the king's `isCastling` flag, and only `resetIsCastling` clears it.
- The incompleteness of the checkmate test is kept as written. `canTakeAttacker` and each square of `canBlockAttacker` try only the single piece `canBeTaken` names with the excluded letter 'K'. That letter is tested only against the nearest piece on a ray, not against a piece on the ray's edge square (`Attack.CanCheck`). So a king on the edge square next to the probed square can be the piece named, `tryValidMove` then rejects it, and another piece that could block there is never tried. The model does not claim that "checkmate" means the side to move has no legal move. It proves the converse direction, `Legal.CheckLeavesMove`.
- The `except + 32` test of `canCheck` is kept as written, on character codes (`Attack.Excluded`).
- The engine's own castling geometry is modelled, not the rules of chess:
  - a queen-side castle puts the king on column 1 and the rook on column 2;
  - the destination square is not part of the attacked-path test.
- En passant, promotion, draw rules and loss of castling rights on a rook's capture are absent from the engine, and so from the model.
- `Paths.IsDiagonal`, `Paths.IsVertical` and `Paths.IsHorizontal` require `src != dest`. On equal squares the C++ walk on a diagonal never meets `dest` and leaves the board. The callers never pass equal squares.
- `Board.ChessBoard.CanBlockAttacker`: requires the checker to stand on a line through the king with a different square. Its only caller, `IsCheckmate`, establishes this from `canBeTaken` (`Attack.AttackerAligned`).
- The helper methods `ProbeMove`, `TryQuery`, `TryStep`, `TryReach`, `TrySquare`, `TryBlock`, `WalkToChecker` and `CommitMove` factor out steps the C++ writes inline. They change the same fields in the same order.
