# Cereveon: game core, chat stream and rate-limit key

Cereveon is a chess coach: an iOS client in which a human (White) plays an on-device engine
(Black), with a server that streams coaching replies. This project models the parts of it
that carry state and rules, and proves what they keep.

**The rules engine** (`Squares`, `Rules`, `Settling`, `GameState`, `ChessGame`). `ChessGame` is
a class whose methods update the board, the flags and the record stack, each proved against a
function on the abstract state `State`. The board is a `seq` field that the methods reassign,
as the array of arrays in `ChessGame.swift` is a value; the six "has moved" flags are one record.
The four attack tests of `ChessGame.swift` call each other in a circle that need not end (it runs
out of stack when the kings face each other two files apart on a rank), so `Rules` evaluates them
to a depth, `Unsettled` meaning that the depth was not enough. The methods take that depth as a
ghost argument and require that the test settles: this is the one thing the Swift method needs in
order to return. `Settling` says exactly when it does.

**Positions, runs and material** (`Positions`, `Runs`, `Games`, `TakeBacks`, `Material`, `Depth`).
What one legal move keeps, then what every run from the start position keeps: king safety,
history against flags, undo, game end, material. `TakeBacks` is about games that undo moves and
play on, even while an undone en-passant capture has a pawn missing.

**The rules of chess** (`Chess`, `Examples`). A second account of sight, attack, check and legal
moves, written from the rules and asked of the board and the moves that led to it: castling
rights and the en-passant square come from the records, not from the code's flags and target.
What a move does to the board, the shape of a castling move and the meaning of a clear path it
shares with the model. Where the code breaks a rule, the exact condition is proved and a concrete
position shows it.

**Sample games** (`CalmPositions`, `SampleGame`, `SampleRuns`, `SampleCastling`,
`SampleSession`). Short games played through move by move, where a departure needs a history
to show.

**Reading and printing** (`Text`, `Fen`, `Printable`, `San`, `SANResolver`, `Movetext`). FEN as
in section 16.1 and SAN as in section 8.2.3 of the PGN Standard.

**The engine bridge** (`Bridge`, `EngineMoveBridge`). The second legality checker, its parser,
and the search over the eight symmetries.

**Sessions** (`Replay`, `Sessions`, `SessionGames`, `TurnTaking`, `Divergence`, `Conclusions`,
`PlayViewModel`).
The turn machine with late engine replies, and resuming from a list of UCI moves. A step machine
on values carries the invariants; the class is proved to take exactly those steps.

**The drill** (`Drills`, `OpeningDrill`), **the chat stream** (`ReplyProducer`, `ChatStream`,
`ChatClient`) and **the limiter** (`Limiter`).

## Where the code departs from what it says

- `undo` is documented as undoing the last half-move; the pawn of an en-passant capture does
  not come back, and a result already recorded is not withdrawn (`Runs.UndoIsExact`,
  `SampleRuns.UndoLosesAPawn`, `Examples.ResultOutlivesUndo`).
- `isLegal` tests a board on which a pawn taken en passant still stands, so such a capture can
  leave the mover in check (`Positions.KingSafety`, `Examples.EnPassantExposesKing`), and one
  that takes the checking pawn is refused, so that a game can end in a mate that is none
  (`Chess.EnPassantLegalVersusChess`, `Chess.EndVersusChess`, `Examples.FalseMateIsRecorded`); the
  other way round, a stalemate can go unseen (`Examples.StalemateIsNotSeen`).
- `canCastle` never looks for the rook. It keeps king safety all the same, whatever stands in
  the corner (`Positions.CornerPieceIsHarmless`, `Examples.CastlesWithoutARook`). Nor does it see
  that a pawn attacks the empty square the king crosses (`Chess.CastlingVersusChess`, `Examples.CastlesPastAPawn`).
- The flags of the rooks record that a rook moved, not that it was taken: with another rook in the
  corner of a taken one, `canCastle` lets the king castle with it (`Chess.RunsCastleLikeChess`,
  `SampleCastling.CastlesWithAnotherRook`).
- The castling field can advertise a right whose rook was taken, when another rook reaches the
  corner (`Printable.CastlingFieldExact`, `SampleRuns.CastlingRightOutlivesRook`).
- A king step that comes to face the other king never returns from `move`
  (`Examples.SteppingIntoAStandoffHangs`).
- `resolve` is documented as nil unless exactly one legal move fits; a castling text resolves
  unchecked (`San.CastlingResolves`, `San.ResolvedCastleIsLegal`). A drill then counts a refused
  castle as played (`Drills.RefusedCastleCountsAsPlayed`).
- A failed engine reply hands the turn to the human with Black still to move, and resuming such
  a game hands it to the engine (`TurnTaking.TurnsFollowReplies`,
  `TurnTaking.ResumingMayChangeTheTurn`, `SampleSession.FailedReplyHandsOverBlack`).
- Resuming replays the move list so that the hidden state is rebuilt; an engine's pawn on the
  last rank, which `applyAIMove` leaves a pawn, is replayed as a queen
  (`Divergence.ReplayRestoresExactly`, `SampleSession.EnginePawnSpoilsTheList`).

The generator of `/chat/stream` commits a pending rotation only at a chunk or a replacing ending
(`ChatStream.CompletesExactlyOnce`). It relies on the reply pipeline never to send a bare or an
empty ending, and the pipeline keeps to that (`ReplyProducer.StreamChatReply`,
`ChatStream.ProducedCommitsOnce`).

## Model

| member | source | states |
|---|---|---|
| `Settling.CheckExact` | ios/Cereveon/Game/ChessGame.swift:283-304 | with one king a side, at every depth from 1 on: the check test answers whether an enemy piece attacks the king, castling moves not counted, or never settles, and the latter exactly in a standoff |
| `Settling.StandoffNeverSettles` | ios/Cereveon/Game/ChessGame.swift:269-304 | kings two files apart on one rank, nothing scanned before them: no recursion depth is enough |
| `Settling.CheckSettles` | ios/Cereveon/Game/ChessGame.swift:269-304 | everywhere else one nested castling question is enough |
| `Settling.BareKingsNeverSettle` | ios/Cereveon/Game/ChessGame.swift:283-304 | any board of two bare kings that face each other so is such a case |
| `Settling.CheckApart` | ios/Cereveon/Game/ChessGame.swift:283-304 | on any board whatever, no enemy king two files from the own king: settles at every depth |
| `Settling.PassedOverPlain` | ios/Cereveon/Game/ChessGame.swift:278-279 | the castling king at home, the enemy king never reaches the passed-over square by castling, so that scan settles |
| `Settling.CastleExact` | ios/Cereveon/Game/ChessGame.swift:269-281 | canCastle, in closed form, under the flag invariant |
| `Settling.LegalExact` | ios/Cereveon/Game/ChessGame.swift:220-304 | isLegal in closed form for every depth from 2 on, and the exact condition under which it never returns |
| `Settling.GeometryKeeps` | ios/Cereveon/Game/ChessGame.swift:231-245 | an answer reached at one depth is the answer at every larger one (any board) |
| `Settling.LegalKeeps` | ios/Cereveon/Game/ChessGame.swift:220-229 | the same for isLegal |
| `Settling.ScanFinds` | ios/Cereveon/Game/ChessGame.swift:293-304 | the attack scan answers No, or with the first piece in scan order that does not |
| `Squares.IndexOrders` | ios/Cereveon/Game/ChessGame.swift:283-304 | the scan order: rows from the top, each from the left |
| `Settling.TrialSoleKings` | ios/Cereveon/Game/ChessGame.swift:225 | the trial board keeps at most one king a side |
| `Depth.AnyLegalKeeps` | ios/Cereveon/Game/ChessGame.swift:348-362 | hasAnyLegalMove does not depend on the depth at which it settles |
| `Depth.RunsKeep` | ios/Cereveon/Game/ChessGame.swift:143-179 | a run that settles at one depth is the same run at every larger one |
| `Depth.AnyLegalExact` | ios/Cereveon/Game/ChessGame.swift:348-362 | hasAnyLegalMove at every depth from 2 on: it never returns exactly when the first move in scan order that is legal or hangs is one that hangs |
| `Depth.CheckOverExact` | ios/Cereveon/Game/ChessGame.swift:364-369 | the end-of-game check in closed form, with the exact condition under which it never returns |
| `Depth.MoveHangsExactly` | ios/Cereveon/Game/ChessGame.swift:143-152 | a move never returns exactly when its own test hangs, or the end-of-game check does on the position it leads to |
| `Depth.RanksApartSettles` | ios/Cereveon/Game/ChessGame.swift:364-369 | with the kings more than one rank apart the end-of-game check always returns, and says whether the side to move is stuck |
| `Depth.LegalIsPlayed` | ios/Cereveon/Game/ChessGame.swift:143-152 | there a legal move is made, and ends the game exactly when it leaves the other side stuck |
| `Depth.TwoIsEnough` | ios/Cereveon/Game/ChessGame.swift:220-304 | no depth settles a test of a sound position that depth 2 does not |
| `Examples.SteppingIntoAStandoffHangs` | ios/Cereveon/Game/ChessGame.swift:143-165 | a concrete king step for which neither move nor applyAIMove ever returns, at whatever depth |
| `ChessGameClass.ChessGame.constructor` | ios/Cereveon/Game/ChessGame.swift:30-53 | a fresh object holds the start state |
| `ChessGameClass.ChessGame.Reset` | ios/Cereveon/Game/ChessGame.swift:62-73 | every field is back at the start state |
| `ChessGameClass.ChessGame.IsPathClear` | ios/Cereveon/Game/ChessGame.swift:258-267 | true exactly when every square strictly between is empty |
| `ChessGameClass.ChessGame.PawnGeometry` | ios/Cereveon/Game/ChessGame.swift:247-256 | the three kinds of pawn move, en-passant target included |
| `ChessGameClass.ChessGame.IsLegalGeometry` | ios/Cereveon/Game/ChessGame.swift:231-245 | the geometry test, recursing into castling as the Swift method does |
| `ChessGameClass.ChessGame.CanCastle` | ios/Cereveon/Game/ChessGame.swift:269-281 | the castling test, check first and flags after it |
| `ChessGameClass.ChessGame.IsInCheck` | ios/Cereveon/Game/ChessGame.swift:283-291 | first king in scan order, then the attack scan |
| `ChessGameClass.ChessGame.IsSquareAttacked` | ios/Cereveon/Game/ChessGame.swift:293-304 | the attack scan over 64 squares |
| `ChessGameClass.ChessGame.IsLegal` | ios/Cereveon/Game/ChessGame.swift:220-229 | makes and unmakes the move on the board, leaves the whole state as it was, and answers the legality test |
| `ChessGameClass.ChessGame.HasAnyLegalMove` | ios/Cereveon/Game/ChessGame.swift:348-362 | answers whether the scan meets a legal move, state unchanged |
| `ChessGameClass.ChessGame.CheckAndRecordGameOver` | ios/Cereveon/Game/ChessGame.swift:364-369 | records the result for a side without a move |
| `ChessGameClass.ChessGame.UpdateCastlingFlags` | ios/Cereveon/Game/ChessGame.swift:335-346 | the six flags after a move |
| `ChessGameClass.ChessGame.MovePieces` | ios/Cereveon/Game/ChessGame.swift:317-328 | the board after castling, en passant or plain moves |
| `ChessGameClass.ChessGame.ExecuteMove` | ios/Cereveon/Game/ChessGame.swift:308-333 | the whole state after a move |
| `ChessGameClass.ChessGame.Move` | ios/Cereveon/Game/ChessGame.swift:143-152 | the human move: refused, promotion open, or completed |
| `ChessGameClass.ChessGame.ApplyAIMove` | ios/Cereveon/Game/ChessGame.swift:158-165 | the engine move: refused, or completed without promotion |
| `ChessGameClass.ChessGame.Promote` | ios/Cereveon/Game/ChessGame.swift:169-179 | the pawn crowned, turn passed, end looked for |
| `ChessGameClass.ChessGame.Undo` | ios/Cereveon/Game/ChessGame.swift:183-204 | the state undo leaves, and its answer |
| `ChessGameClass.ChessGame.UndoBoth` | ios/Cereveon/Game/ChessGame.swift:207-209 | one or two records taken back |
| `ChessGameClass.ChessGame.ConsumePendingGameResult` | ios/Cereveon/Game/ChessGame.swift:213-216 | hands the result out once |
| `ChessGameClass.ChessGame.ExportFEN` | ios/Cereveon/Game/ChessGame.swift:102-135 | prints the six fields |
| `ChessGameClass.ChessGame.HalfmovesSinceReset` | ios/Cereveon/Game/ChessGame.swift:128-132 | counts back to the last pawn move or capture: the step-by-step clock |
| `ChessGameClass.ChessGame.Load` | ios/Cereveon/Game/ChessGame.swift:79-96 | placement and side from a FEN, nothing else |
| `Positions.LegalMeans` | ios/Cereveon/Game/ChessGame.swift:220-229 | whatever depth it settles at, the legality test gives the plain verdict |
| `Positions.MoveKeepsSound` | ios/Cereveon/Game/ChessGame.swift:308-346 | every legal move or promotion keeps one king a side at most and unmoved kings at home, and leaves as en-passant target at most an empty square with the moved pawn behind it |
| `Positions.ExecutedCells` | ios/Cereveon/Game/ChessGame.swift:308-333 | every cell of the board after a legal move |
| `Positions.CastlesFromHome` | ios/Cereveon/Game/ChessGame.swift:269-281 | a legal two-file king move starts from the home square and lands on g or c over empty squares |
| `Positions.CastledSquares` | ios/Cereveon/Game/ChessGame.swift:318-321 | castling square by square: king to g or c, the corner piece to f or d, their old squares empty |
| `Positions.TakesEnPassant` | ios/Cereveon/Game/ChessGame.swift:253-254 | a pawn that changes file onto an empty square takes exactly the pawn just passed |
| `Positions.KingSafety` | ios/Cereveon/Game/ChessGame.swift:220-229 | opponent not in check before: a legal move leaves the mover in check if and only if it is an en-passant capture that uncovers the king (castling toward any corner piece included) |
| `Positions.CornerPieceIsHarmless` | ios/Cereveon/Game/ChessGame.swift:269-281 | castling carries whatever stands in the corner next to the king, and even an enemy piece there gives no check |
| `Positions.NoKingIsTaken` | ios/Cereveon/Game/ChessGame.swift:220-234 | while the opponent is not in check, no legal move takes its king |
| `Positions.KingsStay` | ios/Cereveon/Game/ChessGame.swift:308-333 | each side keeps its king |
| `GameState.CrownsAsChosen` | ios/Cereveon/Game/ChessGame.swift:169-173 | the piece chosen stands on the square in the pawn's colour, and nothing else changes |
| `Examples.EnPassantExposesKing` | ios/Cereveon/Game/ChessGame.swift:220-229 | a concrete position in which a legal en-passant capture leaves the mover in check |
| `Examples.ExposingCaptureIsPlayed` | ios/Cereveon/Game/ChessGame.swift:143-152 | and move makes it, with the mover in check afterwards |
| `Chess.LegalVersusChess` | ios/Cereveon/Game/ChessGame.swift:220-304 | isLegal, where it settles, against the rules of chess asked of the board and the moves made so far: in every sound position whose flags and target the records determine, for every move, the two agree if and only if the move is none of the departing castles and en-passant captures |
| `Chess.RunsVersusChess` | ios/Cereveon/Game/ChessGame.swift:143-304 | so at every position of every run, at every depth at which isLegal answers |
| `Chess.CheckIsChess` | ios/Cereveon/Game/ChessGame.swift:283-304 | on every board the check test is the check of chess: attacks on an occupied square are real ones |
| `Chess.SeesIsClear` | ios/Cereveon/Game/ChessGame.swift:258-267 | clear rank, file and diagonal paths are seeing along a ray |
| `Chess.MovesAreChess` | ios/Cereveon/Game/ChessGame.swift:231-256 | on every board, castling aside, the pieces move as in chess |
| `Chess.OrdinaryLegalIsChess` | ios/Cereveon/Game/ChessGame.swift:220-256 | on every board, castling and en passant aside, the legal moves are those of chess |
| `Chess.EnPassantLegalVersusChess` | ios/Cereveon/Game/ChessGame.swift:220-229 | en passant: the code refuses when the passed pawn or another piece checks, chess when the capture uncovers the king or another piece checks |
| `Chess.PassedOverVersusChess` | ios/Cereveon/Game/ChessGame.swift:250-254 | on the square a castling king crosses, the attack test differs from chess by exactly the enemy pawns beside it; pawn pushes never matter there |
| `Chess.CastlingVersusChess` | ios/Cereveon/Game/ChessGame.swift:269-281 | a castling move is legal in chess if and only if the code allows it, an own rook is in the corner, no piece was ever taken there, and no enemy pawn attacks the crossed square |
| `Chess.RunsCastleLikeChess` | ios/Cereveon/Game/ChessGame.swift:269-281 | the same at every position of every run |
| `SampleCastling.CastlesWithAnotherRook` | ios/Cereveon/Game/ChessGame.swift:143-152 | a concrete run of sixteen half-moves from the start after which move castles with a rook that replaced the one taken in the corner, against the rules of chess |
| `Chess.EndVersusChess` | ios/Cereveon/Game/ChessGame.swift:348-369 | with flags and target as the records determine them, the code ends a game that chess does not end exactly when taking the checking pawn en passant is the only way out, and then records a loss; and chess has a side stuck exactly when every move the code allows departs and the code refuses none that chess has |
| `Examples.FalseMateIsRecorded` | ios/Cereveon/Game/ChessGame.swift:143-152 | from a concrete position, move ends the game and records Black's win where chess does not |
| `Examples.StalemateIsNotSeen` | ios/Cereveon/Game/ChessGame.swift:348-369 | from a concrete position, move plays on where chess has a stalemate |
| `Examples.CastlesWithoutARook` | ios/Cereveon/Game/ChessGame.swift:269-281 | a concrete castling move with no rook on the board, made by move |
| `Examples.CastlingPastAPawnIsPlayed` | ios/Cereveon/Game/ChessGame.swift:278-279 | and move makes the one past the pawn, which chess forbids |
| `Chess.CodeCastles` | ios/Cereveon/Game/ChessGame.swift:269-281 | what the code asks of a castling move, in terms of chess: everything but the rook and the pawns beside the path |
| `Examples.CastlesPastAPawn` | ios/Cereveon/Game/ChessGame.swift:278-279 | a concrete castling move across a square that a pawn attacks |
| `Runs.PlyExact` | ios/Cereveon/Game/ChessGame.swift:143-179 | a completed move is the accepted move made, then the end-of-game check |
| `Runs.AnyLegalMeans` | ios/Cereveon/Game/ChessGame.swift:348-362 | hasAnyLegalMove is false exactly when no from/to pair is legal |
| `Runs.EndIsRecorded` | ios/Cereveon/Game/ChessGame.swift:364-369 | after a completed move the game is over exactly when the side to move is stuck; mate if in check, else draw |
| `Runs.OverIsOver` | ios/Cereveon/Game/ChessGame.swift:143-165 | after that no move of either kind is accepted |
| `Runs.PlyKeepsDerived` | ios/Cereveon/Game/ChessGame.swift:308-346 | flags, en-passant target, last move and side to move stay the ones the records determine |
| `Runs.TargetExact` | ios/Cereveon/Game/ChessGame.swift:330-331 | after a completed move of either colour the en-passant target is a square if and only if a pawn has moved two rows along its file over it |
| `Runs.PromotionExactly` | ios/Cereveon/Game/ChessGame.swift:143-152 | move leaves a promotion open exactly for a legal move of a white pawn to row 0 or a black one to row 7 |
| `Runs.UndoKeepsDerived` | ios/Cereveon/Game/ChessGame.swift:183-204 | and so they do over an undo |
| `Runs.UndoInverts` | ios/Cereveon/Game/ChessGame.swift:183-204 | undo after any completed move, promotion or castle restores the whole state, except the pawn of an en-passant capture and a recorded result |
| `Runs.UndoIsExact` | ios/Cereveon/Game/ChessGame.swift:183-204 | undo gives back the very state exactly when the move took nothing en passant and recorded no result that was not pending before |
| `Examples.ResultOutlivesUndo` | ios/Cereveon/Game/ChessGame.swift:183-204 | a concrete mate taken back: the game goes on with the win still recorded |
| `SampleRuns.UndoLosesAPawn` | ios/Cereveon/Game/ChessGame.swift:183-204 | a concrete run from the start whose en-passant capture, taken back, loses a pawn |
| `Runs.UndoneIsWhole` | ios/Cereveon/Game/ChessGame.swift:186-187 | the board comes back whole exactly when the move was no en-passant capture |
| `Runs.UndoInvertsOpenPromotion` | ios/Cereveon/Game/ChessGame.swift:183-204 | undo between the pawn move and the promotion choice is exact |
| `Runs.UndoBothEndsWithWhite` | ios/Cereveon/Game/ChessGame.swift:207-209 | undoBoth leaves White to move, and the largest smaller even number of records |
| `Games.RunsAreReached` | ios/Cereveon/Game/ChessGame.swift:143-179 | every run from the start satisfies the position, history and end-of-game invariants, one record a move |
| `Games.RunsAreSafe` | ios/Cereveon/Game/ChessGame.swift:143-179 | along every run without an uncovering en-passant capture, the side that just moved is not in check and both kings stand |
| `Games.RunsNeverTakeKings` | ios/Cereveon/Game/ChessGame.swift:220-234 | and the next legal move takes no king |
| `Games.RunsWithUndoAreDerived` | ios/Cereveon/Game/ChessGame.swift:183-204 | over every mix of moves, promotions and undos, undos of open promotions included, the derived state agrees with the records |
| `Games.TakeBackExact` | ios/Cereveon/Game/ChessGame.swift:183-204 | one undo along any run: the state before the move, but for a recorded result and the pawn of an en-passant capture, which is the one that moved last |
| `Games.TakingBackCancels` | ios/Cereveon/Game/ChessGame.swift:183-204 | a game with undos is in the state of the moves left standing, but for a recorded result and, right after an en-passant capture is undone, its pawn, which the next undo puts right |
| `TakeBacks.TakeBacksKeepKings` | ios/Cereveon/Game/ChessGame.swift:143-204 | in every game with undos, also one that plays on while a pawn is lost: one king a side at most, unmoved kings at home, derived state as the records say, and over only if the side to move is stuck |
| `TakeBacks.TakingAllBackRestoresStart` | ios/Cereveon/Game/ChessGame.swift:183-204 | undoing every record of any such game gives the start state, lost pawns and all, but for a recorded result |
| `TakeBacks.ActionTotal` | ios/Cereveon/Game/ChessGame.swift:183-204 | how each move, undo and withdrawn promotion changes the pieces plus captures: only an en-passant capture undone, a lost pawn put back by its own undo, and a lost pawn captured count |
| `TakeBacks.PiecesCapturesAndLosses` | ios/Cereveon/Game/ChessGame.swift:183-204 | in every such game the pieces, the captures on record and the lost pawns add up to 32 |
| `Material.ExecutionTally` | ios/Cereveon/Game/ChessGame.swift:308-333 | execution takes exactly the captured piece, or the passed pawn, off the board |
| `Material.TakesOnlyEnemies` | ios/Cereveon/Game/ChessGame.swift:233-234 | and that is an enemy piece |
| `Material.CastlingTally` | ios/Cereveon/Game/ChessGame.swift:318-321 | castling only relocates |
| `Material.PlyTally` | ios/Cereveon/Game/ChessGame.swift:169-179 | a promotion exchanges one pawn for one piece of its colour, character by character |
| `Material.PiecesPlusCaptures` | ios/Cereveon/Game/ChessGame.swift:308-333 | along every run, pieces plus captures are 32 |
| `Fen.LoadRestores` | ios/Cereveon/Game/ChessGame.swift:79-135 | load(exportFEN()) restores board and side for every board of piece letters, forgets the last move and keeps the rest |
| `Fen.PlacementLoads` | ios/Cereveon/Game/ChessGame.swift:79-96 | a placement alone is loaded for the side that was to move |
| `Fen.LoadedCell` | ios/Cereveon/Game/ChessGame.swift:79-96 | ranks missing or too short are filled up with empty squares, and what is too much is left out |
| `Fen.ExpandPrintRow` | ios/Cereveon/Game/ChessGame.swift:103-114 | run-length printing of a rank expands to the rank |
| `Fen.FenSplits` | ios/Cereveon/Game/ChessGame.swift:134 | a printed FEN splits into its six fields |
| `Fen.FullmoveFieldIsRight` | ios/Cereveon/Game/ChessGame.swift:133 | the printed fullmove number is the counter of section 16.1.3.6 of the PGN Standard |
| `Fen.ClockMeans` | ios/Cereveon/Game/ChessGame.swift:128-132 | the halfmove clock is k if and only if the last k moves were no pawn moves or captures and the one before was |
| `Fen.FieldsMean` | ios/Cereveon/Game/ChessGame.swift:116-134 | the other five fields of every game: side, castling letters in order, square name, clock and move number |
| `Text.DecimalMeans` | ios/Cereveon/Game/ChessGame.swift:128-133 | numbers are printed as the decimal text that stands for them, without leading zeros |
| `Printable.RunsPrint` | ios/Cereveon/Game/ChessGame.swift:102-135 | every position of every run prints as FEN that both readers read back |
| `Printable.FieldHolds` | ios/Cereveon/Game/ChessGame.swift:120-123 | what each letter of the castling field says about the records and the board |
| `Printable.CastlingFieldExact` | ios/Cereveon/Game/ChessGame.swift:119-124 | the field advertises an unspoilt right, and wrongly exactly when the corner rook was taken and another stands there |
| `SampleRuns.CastlingRightOutlivesRook` | ios/Cereveon/Game/ChessGame.swift:119-124 | a concrete run of eleven half-moves after which the field advertises a right whose rook was taken |
| `Text.SplitJoin` | ios/Cereveon/Game/ChessGame.swift:80 | splitting at a separator undoes joining |
| `Bridge.ParsesWhatIsPrinted` | ios/Cereveon/Game/EngineMoveBridge.swift:64-100 | Position(fen: exportFEN()) has the same board, side and en-passant square |
| `Bridge.ParsedFields` | ios/Cereveon/Game/EngineMoveBridge.swift:64-100 | side and en-passant square of any text that parses |
| `Bridge.ShapesAgree` | ios/Cereveon/Game/EngineMoveBridge.swift:122-150 | castling aside the two geometries agree on every board |
| `Bridge.VerdictsAgree` | ios/Cereveon/Game/EngineMoveBridge.swift:102-117 | off castling moves the bridge gives the game's plain verdict, on every board |
| `Bridge.CheckersAgree` | ios/Cereveon/Game/EngineMoveBridge.swift:102-195 | on every board and at every depth, kings apart after the move: ChessGame.isLegal and Position.isLegal agree |
| `Bridge.CheckersAgreeOrHang` | ios/Cereveon/Game/EngineMoveBridge.swift:102-195 | with one king a side they agree except exactly where the game never settles |
| `Bridge.CastlesAgree` | ios/Cereveon/Game/EngineMoveBridge.swift:152-161 | a game-legal castle with the rook in its corner is bridge-legal |
| `Bridge.BridgeCastles` | ios/Cereveon/Game/EngineMoveBridge.swift:152-161 | on every board, what the bridge takes for castling: a two-file king move toward an own rook in the corner over empty squares, not into check |
| `Bridge.LegalRepliesPass` | ios/Cereveon/Game/EngineMoveBridge.swift:25-40 | printed, parsed and normalized, a legal reply comes back unchanged and is not refused |
| `Bridge.SymmetriesFormAGroup` | ios/Cereveon/Game/EngineMoveBridge.swift:42-53 | the eight transforms compose, have identity and inverses, and differ |
| `Bridge.AcceptedStays` | ios/Cereveon/Game/EngineMoveBridge.swift:25-40 | a move already legal is returned as it is |
| `Bridge.NormalizedIsSound` | ios/Cereveon/Game/EngineMoveBridge.swift:25-40 | the result is a legal image with the same promotion, and normalize is idempotent |
| `Bridge.NormalizedIsComplete` | ios/Cereveon/Game/EngineMoveBridge.swift:25-40 | nil exactly when no image is legal |
| `Bridge.NormalizedIsFirst` | ios/Cereveon/Game/EngineMoveBridge.swift:25-53 | the result is the first legal one of the eight images, written out in the order of the loops |
| `Bridge.NormalizedOfText` | ios/Cereveon/Game/EngineMoveBridge.swift:25-40 | the same from any FEN text; without a well-formed placement every move that is one passes |
| `Bridge.NormalizedIsRefusedExactly` | ios/Cereveon/Game/EngineMoveBridge.swift:25-40 | the game refuses a reply that normalize lets through exactly when it is a castling move that its own castling test refuses, and hangs exactly on the stated standoffs |
| `Bridge.FramesDoNotMatter` | ios/Cereveon/Game/EngineMoveBridge.swift:25-40 | whether an on-board move has a result is the same for all its images |
| `EngineMoveBridge.Position.Parse` | ios/Cereveon/Game/EngineMoveBridge.swift:64-89 | the failable parser, None exactly on malformed placement |
| `EngineMoveBridge.Position.ParseRow` | ios/Cereveon/Game/EngineMoveBridge.swift:71-83 | one rank: None unless it comes out at eight squares |
| `EngineMoveBridge.Position.IsLegal` | ios/Cereveon/Game/EngineMoveBridge.swift:102-117 | makes and unmakes on its own board and answers the verdict |
| `EngineMoveBridge.Position.IsLegalGeometry` | ios/Cereveon/Game/EngineMoveBridge.swift:122-150 | its geometry |
| `EngineMoveBridge.Position.IsPathClear` | ios/Cereveon/Game/EngineMoveBridge.swift:163-172 | its path test |
| `EngineMoveBridge.Position.IsCastleShape` | ios/Cereveon/Game/EngineMoveBridge.swift:156-161 | its castle shape |
| `EngineMoveBridge.Position.IsInCheck` | ios/Cereveon/Game/EngineMoveBridge.swift:174-182 | its check test, which always terminates |
| `EngineMoveBridge.Position.IsSquareAttacked` | ios/Cereveon/Game/EngineMoveBridge.swift:184-195 | its attack test |
| `EngineMoveBridge.Normalize` | ios/Cereveon/Game/EngineMoveBridge.swift:25-40 | the nested search, identity first, returns the first legal image |
| `Replay.UciParts` | ios/Cereveon/Game/PlayViewModel.swift:317-320 | a UCI text reads back as its squares and promotion letter |
| `Replay.NamesExactly` | ios/Cereveon/Game/SANResolver.swift:76-89 | a text names a square exactly if it is its name, the file letter of either case |
| `Replay.MoveRebuilds` | ios/Cereveon/Game/PlayViewModel.swift:101-112 | a completed move appended to a list that rebuilds the game rebuilds it again |
| `Replay.PromotionRebuilds` | ios/Cereveon/Game/PlayViewModel.swift:145-158 | the promotion letter added to the last entry rebuilds the promoted game |
| `Replay.EngineMoveRebuilds` | ios/Cereveon/Game/PlayViewModel.swift:220-232 | so does an engine move that leaves no pawn on the last rank |
| `Sessions.StepKeeps` | ios/Cereveon/Game/PlayViewModel.swift:126-240 | every event keeps: one reply of the current generation in flight exactly while thinking, the engine never twice in a row, one list entry a record, and the list rebuilds the hidden state |
| `Sessions.SessionsStayOk` | ios/Cereveon/Game/PlayViewModel.swift:126-240 | the same under every interleaving of moves, promotions, new games and late replies |
| `Sessions.ResumedIsOk` | ios/Cereveon/Game/PlayViewModel.swift:84-98 | any list whose replay settles resumes into a session in order |
| `Sessions.ResumeRestores` | ios/Cereveon/Game/PlayViewModel.swift:84-98 | resuming from the move list gives back board, side, target, flags and records |
| `Sessions.OldTasksStayStale` | ios/Cereveon/Game/PlayViewModel.swift:160-177 | after newGame every task then in flight stays stale, whatever happens |
| `Sessions.OldRepliesChangeNothing` | ios/Cereveon/Game/PlayViewModel.swift:193-217 | a reply to a task from before newGame, whenever it comes, changes nothing but the tasks under way, and all that follows goes as if it had never come |
| `TurnTaking.TurnsFollowReplies` | ios/Cereveon/Game/PlayViewModel.swift:193-227 | whose turn it is against whose move it is: in every session, fresh or resumed from any list, until the game ends, the human has White to move after an even number of failed replies and Black after an odd one |
| `TurnTaking.ResumingMayChangeTheTurn` | ios/Cereveon/Game/PlayViewModel.swift:84-98 | resuming gives the turn to the side to move, so the turn comes back the same exactly after an even number of failed replies |
| `SampleSession.FailedReplyHandsOverBlack` | ios/Cereveon/Game/PlayViewModel.swift:220-227 | one move and one nil reply: the human is on turn with Black to move, and a resumed session has the engine on turn |
| `Divergence.StillDiverged` | ios/Cereveon/Game/PlayViewModel.swift:84-112 | a game that has other records than its replay, or a pawn stuck on its last rank where the replay has something else, stays apart from it whatever is played |
| `Divergence.ReplayRestoresExactly` | ios/Cereveon/Game/PlayViewModel.swift:84-112 | in every session, fresh or itself resumed, under every interleaving, replaying the list rebuilds board, side, target, flags and records if and only if no promotion is open and the engine has left no pawn on its last rank in that session (one whose letter in the list is its own, p, is replayed as it was) |
| `Conclusions.ResultsAreRight` | ios/Cereveon/Game/PlayViewModel.swift:181-240 | in every session, fresh or resumed, under every interleaving: a result is shown if and only if the side to move is stuck, and it is a draw unless that side is in check and else the win of the other; a session resumed from a finished list shows none until a new game |
| `Conclusions.ReportsAreRight` | ios/Cereveon/Game/PlayViewModel.swift:276-345 | the result tag and the result reported say who is mated, or that nobody is |
| `SampleSession.EnginePawnSpoilsTheList` | ios/Cereveon/Game/PlayViewModel.swift:220-232 | a concrete session of ten half-moves whose list replays to another position |
| `SessionGames.SessionsAreGrounded` | ios/Cereveon/Game/PlayViewModel.swift:84-240 | every session, fresh or resumed, stands on the position of a game, or one open promotion away, with one list entry a record besides the entries skipped in resuming |
| `SessionGames.ExportsReadBack` | ios/Cereveon/Game/PlayViewModel.swift:340-342 | the movetext exported for any session, fresh or resumed from a list of move tokens, under every interleaving, tokenises back to its move list |
| `PlayViewModelClass.PlayViewModel.constructor` | ios/Cereveon/Game/PlayViewModel.swift:84-98 | a fresh session |
| `PlayViewModelClass.PlayViewModel.Resume` | ios/Cereveon/Game/PlayViewModel.swift:84-98 | the session that replaying the list gives |
| `PlayViewModelClass.PlayViewModel.ApplyUci` | ios/Cereveon/Game/PlayViewModel.swift:101-112 | one UCI move applied: skipped if malformed or refused, queen by default |
| `PlayViewModelClass.PlayViewModel.OnMove` | ios/Cereveon/Game/PlayViewModel.swift:126-143 | the human's move |
| `PlayViewModelClass.PlayViewModel.CompletePromotion` | ios/Cereveon/Game/PlayViewModel.swift:145-158 | the promotion choice |
| `PlayViewModelClass.PlayViewModel.NewGame` | ios/Cereveon/Game/PlayViewModel.swift:160-177 | a new generation, tasks left in flight |
| `PlayViewModelClass.PlayViewModel.AfterHumanMove` | ios/Cereveon/Game/PlayViewModel.swift:181-191 | the result or the engine's turn |
| `PlayViewModelClass.PlayViewModel.TriggerAI` | ios/Cereveon/Game/PlayViewModel.swift:193-197 | one more task of this generation |
| `PlayViewModelClass.PlayViewModel.Deliver` | ios/Cereveon/Game/PlayViewModel.swift:200-217 | a task's end, behind the generation guard |
| `PlayViewModelClass.PlayViewModel.ApplyAIMove` | ios/Cereveon/Game/PlayViewModel.swift:220-232 | the turn handed back, the move made if accepted |
| `PlayViewModelClass.PlayViewModel.Finish` | ios/Cereveon/Game/PlayViewModel.swift:234-240 | the end of the game |
| `San.CastlingResolves` | ios/Cereveon/Game/SANResolver.swift:68-73 | a castling text, marked or not, resolves whenever the king is at home, legal or not |
| `San.ResolvedCastleIsLegal` | ios/Cereveon/Game/SANResolver.swift:68-73 | and the move is legal exactly when the castling test and the check test pass |
| `San.ResolvedIsLegal` | ios/Cereveon/Game/SANResolver.swift:53-62 | every other resolved move is legal |
| `San.LegalCastleResolves` | ios/Cereveon/Game/SANResolver.swift:22-23 | round trip: a legal castle is what its text resolves to |
| `San.WrittenIsRead` | ios/Cereveon/Game/SANResolver.swift:26-49 | text written with disambiguation is read as the request meant |
| `San.MarksAreDropped` | ios/Cereveon/Game/SANResolver.swift:17 | of a move text exactly the characters +, #, ! and ? are dropped |
| `San.BlanksDoNotMatter` | ios/Cereveon/Game/SANResolver.swift:16 | blanks and tabs around a move text do not matter |
| `San.BodyParses` | ios/Cereveon/Game/SANResolver.swift:26-42 | a move text with promotion, its letter of either case, and any suffix of +, #, ! and ? is read as its core |
| `San.LastHintCounts` | ios/Cereveon/Game/SANResolver.swift:44-49 | of several file or rank hints the last counts |
| `San.WrittenFitsAlone` | ios/Cereveon/Game/SANResolver.swift:53-62 | disambiguated as section 8.2.3.4 of the PGN Standard says, no other piece fits |
| `San.WrittenResolves` | ios/Cereveon/Game/SANResolver.swift:15-64 | round trip: SAN written for a legal move resolves to it |
| `Replay.NamedSquares` | ios/Cereveon/Game/SANResolver.swift:76-83 | algebraic names read back |
| `SANResolver.Resolve` | ios/Cereveon/Game/SANResolver.swift:15-64 | a move text resolves to a square exactly when one and only one piece of the kind, allowed by the hints, has a legal move there; the game is unchanged |
| `SANResolver.ResolveMove` | ios/Cereveon/Game/SANResolver.swift:53-61 | the scan collects exactly the fitting squares, each once |
| `SANResolver.ReadHints` | ios/Cereveon/Game/SANResolver.swift:44-49 | the last file and the last rank of the disambiguation |
| `SANResolver.ParseSan` | ios/Cereveon/Game/SANResolver.swift:16-42 | the text taken apart |
| `Movetext.MovetextIsRead` | ios/Cereveon/Game/PlayViewModel.swift:340-342 | tokenising the numbered movetext gives back exactly the moves |
| `Movetext.NumberedMeans` | ios/Cereveon/Game/PlayViewModel.swift:335-337 | what is printed: the moves in order, each of White's with its number before it |
| `Movetext.UciIsToken` | ios/Cereveon/Game/PlayViewModel.swift:317-320 | UCI texts are tokens that tokenising leaves alone |
| `Movetext.NumberIsDropped` | ios/Cereveon/Game/SANResolver.swift:113-117 | a move number with its points vanishes, alone or glued to a move, which stays |
| `Movetext.ResultsAreDropped` | ios/Cereveon/Game/SANResolver.swift:107-117 | the five result markers are dropped, castling with zeros is not |
| `Movetext.GapsAreAlike` | ios/Cereveon/Game/SANResolver.swift:109 | line ends and tabs separate as spaces do |
| `Movetext.GapsMerge` | ios/Cereveon/Game/SANResolver.swift:109 | spaces in a row count as one, and at the ends as none |
| `Movetext.LineIsPlain` | ios/Cereveon/Game/SANResolver.swift:94-105 | the replacements of the table one after the other give each figurine of either colour its letter, pawns none |
| `Movetext.NormalizeLine` | ios/Cereveon/Game/SANResolver.swift:99-105 | the glyph table applied in order |
| `Drills.StepKeeps` | ios/Cereveon/Openings/OpeningDrillViewModel.swift:42-85 | every attempt or reveal keeps: the position of the straight line at this ply, completion reported once at the end |
| `Drills.DrillsFollowTheLine` | ios/Cereveon/Openings/OpeningDrillViewModel.swift:42-85 | for every sequence of attempts and reveals: the position of the straight line at this ply, mistakes = the wrong attempts plus the reveals among the events, one record a ply but for refused castles |
| `Drills.LineRecords` | ios/Cereveon/Openings/OpeningDrillViewModel.swift:70-79 | the straight line makes one record for every book move except the castles that the game refuses |
| `Drills.RefusedCastleCountsAsPlayed` | ios/Cereveon/Openings/OpeningDrillViewModel.swift:70-79 | a line that starts with castling: the attempt completes the drill with outcome 1 and no move made |
| `Drills.DoneForGood` | ios/Cereveon/Openings/OpeningDrillViewModel.swift:43-58 | a finished or invalid drill stays as it was under any further events |
| `Drills.OutcomeBounds` | ios/Cereveon/Openings/OpeningDrillViewModel.swift:81-85 | the outcome lies in [0.2, 1], is 1 only without mistakes, and never rises with them |
| `Drills.OutcomeValues` | ios/Cereveon/Openings/OpeningDrillViewModel.swift:81-85 | a fifth less for each of the first four mistakes |
| `Drills.InvalidExactly` | ios/Cereveon/Openings/OpeningDrillViewModel.swift:31-53 | a drill is invalid exactly if its line is empty or an attempt met a book move that does not resolve |
| `Drills.StepHangsExactly` | ios/Cereveon/Openings/OpeningDrillViewModel.swift:42-79 | a step never returns exactly when resolving the book move, or making it, does not |
| `Drills.BookMovesCrown` | ios/Cereveon/Openings/OpeningDrillViewModel.swift:70-79 | a book pawn on the last rank is crowned with the letter of the line, or as a queen |
| `OpeningDrill.OpeningDrillViewModel.constructor` | ios/Cereveon/Openings/OpeningDrillViewModel.swift:31-38 | the tokenised line, invalid if empty |
| `OpeningDrill.OpeningDrillViewModel.Attempt` | ios/Cereveon/Openings/OpeningDrillViewModel.swift:42-53 | an attempt |
| `OpeningDrill.OpeningDrillViewModel.Reveal` | ios/Cereveon/Openings/OpeningDrillViewModel.swift:56-63 | a reveal |
| `OpeningDrill.OpeningDrillViewModel.Apply` | ios/Cereveon/Openings/OpeningDrillViewModel.swift:70-79 | a book move on the game |
| `OpeningDrill.OpeningDrillViewModel.Finish` | ios/Cereveon/Openings/OpeningDrillViewModel.swift:81-85 | the outcome reported |
| `ChatStream.CompletesExactlyOnce` | llm/server.py:2198-2276 | a stream run to its end persists once, counts once, sends one terminal frame, and commits a pending rotation once unless it was a bare done or empty |
| `ChatStream.ProducedCommitsOnce` | llm/server.py:2198-2276 | for every stream that the reply pipeline sends, a pending rotation is committed exactly once |
| `ChatClient.TraceWritten` | llm/server.py:2198-2276 | the whole of what a produced stream does, in order: first chunk, rotation, other chunks, reply saved and counted, last frame |
| `ChatClient.TailWritten` | llm/server.py:2264-2276 | a stream without a last event: its chunks, then the fallback saved, counted and sent |
| `ReplyProducer.StreamChatReply` | llm/seca/coach/chat_stream_pipeline.py:176-370 | the pipeline ends with exactly one terminal event, never a Done before a chunk, and delivers the reply of the first attempt not given up, live or as a replacement |
| `ReplyProducer.FirstDelivers` | llm/seca/coach/chat_stream_pipeline.py:176-370 | which attempt is delivered: the first not passed over, if its reply is good, and none otherwise |
| `ReplyProducer.ReadTokens` | llm/seca/coach/chat_stream_pipeline.py:250-265 | the chunks sent are the part of the text emitted so far |
| `ReplyProducer.SafeEmitBoundary` | llm/seca/coach/chat_stream_pipeline.py:159-173 | everything but the last words, counted from the end |
| `ReplyProducer.BoundaryMeans` | llm/seca/coach/chat_stream_pipeline.py:159-173 | held back is the text from the given number of spaces before the end on, or all of it if there are fewer |
| `ReplyProducer.BubbleIsTheReply` | llm/server.py:2198-2276 | end to end: the final bubble is the persisted reply up to white space around it, whichever way the stream ended |
| `ChatStream.YieldsInStep` | llm/server.py:2198-2276 | at every yield persists equal quota records and terminal frames, one at most, and one rotation at most |
| `ChatStream.LoopTotal` | llm/server.py:2201-2262 | for any events at all: one of each per terminal event, one rotation at most |
| `ChatStream.Generator.Generate` | llm/server.py:2198-2276 | the generator's effects in order |
| `ChatStream.Generator.Handle` | llm/server.py:2212-2262 | one event |
| `ChatStream.RequestState.AfterResponse` | llm/server.py:801-831 | the middleware commits only a rotation still pending on a 2xx |
| `ChatStream.RequestState.TakeOwnership` | llm/server.py:2104-2109 | the route takes the rotation over |
| `ChatStream.RequestState.Stream` | llm/server.py:2278-2285 | over a whole streamed request, wherever cut off, only the generator commits, at most once, and exactly once at the end of a produced stream |
| `ChatClient.BubbleMatchesServer` | ios/Cereveon/Chat/ChatViewModel.swift:144-162 | the final bubble is the persisted reply on a replacing ending, the chunks on done, the offline text if empty |
| `ChatClient.BufferMeans` | ios/Cereveon/Chat/ChatViewModel.swift:144-162 | of any stream, wherever it breaks off, the bubble shows its fragments, or the last replacement and the fragments after it |
| `ChatClient.PersistsReply` | llm/server.py:2217-2275 | and that reply is the one persisted |
| `ChatClient.ChatViewModel.Send` | ios/Cereveon/Chat/ChatViewModel.swift:120-163 | the draft trimmed and cleared, one user message and one bubble with the folded text; nothing if it is blank |
| `ChatClient.ChatViewModel.Update` | ios/Cereveon/Chat/ChatViewModel.swift:196-199 | only the first message with the id changes |
| `Limiter.Trust.ProxyAwareRemoteAddress` | llm/seca/shared_limiter.py:90-127 | the right-to-left walk: for a trusted peer and a header the key is the rightmost entry that parses and is not trusted, and the peer if there is none |
| `Limiter.Trust.KeyIsLastForeign` | llm/seca/shared_limiter.py:107-127 | the same of the key as a function |
| `Limiter.Trust.LastForeignIs` | llm/seca/shared_limiter.py:117-127 | its answer parses, is untrusted, and nothing to its right is |
| `Limiter.Trust.PrependingIsPowerless` | llm/seca/shared_limiter.py:113-127 | text prepended with a comma never changes the key of a header with a foreign entry; otherwise the walk goes on into it |
| `Limiter.Trust.KeyIsGenuine` | llm/seca/shared_limiter.py:107-127 | with an untrusted peer the header has no effect; else the key is the peer or a foreign entry |
| `Limiter.Trust.IpIsTrusted` | llm/seca/shared_limiter.py:74-87 | membership in any trusted network |
| `Limiter.Trust.TrustedMeans` | llm/seca/shared_limiter.py:74-87 | trusted: an address inside the range of some network of its own family |
| `Limiter.ParseTrustedProxies` | llm/seca/shared_limiter.py:31-46 | exactly the entries that parse, in order |
| `Limiter.ParsedConcat` | llm/seca/shared_limiter.py:31-46 | each entry that has a reading gives it, in order |
| `Limiter.EntryIsStripped` | llm/seca/shared_limiter.py:113 | an entry counts without the white space around it, if anything is left |
| `Text.StripMeans` | llm/seca/shared_limiter.py:113 | stripping takes off white space at the ends, all of it and nothing else |

## Left out

- Characters beyond ASCII letters: `isUppercase`, `lowercased` and number characters are those of ASCII; piece glyphs occur only in the opening-line table.
- Views, themes and the published mirrors of the board (`sync`): they copy the game's fields for display.
- Saved-snapshot storage and its age limit, game numbering, server game ids, coaching hints and evaluation bands: I/O with no ordering guarantee in the code.
- Think pacing and the identity of tasks: a task is its generation, and may come back at any time with any reply; what position it was asked about is not kept, so replies are arbitrary moves.
- The native engine: any optional move.
- Draws by repetition, by the fifty-move rule or for want of material: `ChessGame` knows none of them, and the comparison with the rules of chess is about moves and about sides without one.
- PGN headers: constant text around the result tag and the movetext.
- Prompts, validators and the language model behind the reply pipeline: an attempt is the tokens that pass and what then ends it, chosen freely. Compaction, delays and hints between attempts are left out with them.
- Entitlement checks before the stream, and failures swallowed inside persist, record and commit: effects are the calls made, not their success; only the middleware's own failure is modelled.
- Event payload fields that are passed through (engine signal), and the wire history sent by the client.
- IP syntax and `ipaddress`: parsing is an arbitrary function, a network a prefix of an address; the environment defaults of the trust list.
- Concurrency of the client stream with a cancel, a preloaded history or a second send while one is streaming.
- Divergence.ReplayRestoresExactly: is about promotion pieces from the four on offer, engine letters that print, and, if the session was itself resumed, a list whose entries name no other letter than a piece to promote to or the pawn's own; a session resumed from a list that crowns a king keeps `Sessions.SessionsStayOk` only.
- SessionGames.SessionsAreGrounded: the same.
- SessionGames.ExportsReadBack: a session resumed from a list with an entry that is no move token, such as an empty one, is left out; such an entry stays in the list though it was skipped.
- Games.TakingBackCancels: leaves out games that play on after an en-passant capture was undone, which no run matches any more; what holds of them is in `TakeBacks`.
