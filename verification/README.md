# Chess server: rules and state engine

This project models the rule and state engine of a chess server written in C: move
legality, mate detection and takeback, bughouse, clocks, match formulas, MD5, line input,
pending offers, directory search, short algebraic input, FEN text and wild set-ups. What
the server changes in place is a class or an array here, and each such method is proved
against a specification; the properties are proved of the specification.

`dafny verify dfyconfig.toml` checks everything.

## What is proved

**Chess.** Move tests and move generators are two descriptions of the same moves, and they
agree for every man (`Targets.TargetsExact`). The search for a legal move never lists
castling and never empties its list between men; it is still right (`Mate.HasLegalMove`,
`Mate.ListedTargetsDecide`), and the list always has room (`ListRoom.ListAlwaysFits`), so
mate and stalemate are named exactly (`Judgement.StatusIsExact`). `Rules` and `Verdicts` state
the laws of chess once more, square by square, and show that moves, castling, checks, boards after
moves and verdicts are theirs (`Rules.LegalByTheRules`, `Rules.CastlesByTheRules`,
`Verdicts.BoardByTheRules`, `Verdicts.VerdictByTheRules`). En passant is the exception:
`EnPassantRule.EnPassantIsExact` says when the server keeps to the law, and
`GhostCapture.PawnTakesGhost` is a game from the standard start in which it does not. The cycle of legality, king
moves, attack and check terminates by its own order, without a depth bound. In every run, each
side keeps one king, no pawn stands on an edge rank and no king is taken
(`Runs.RunKeepsSound`, `Runs.NoKingIsEverTaken`). In every game of moves and takebacks in any
order, taking back any number of moves restores the squares, the turn and the move number
(`Sessions.TakebackRestores`) and, from the standard start, both kings' flags
(`Sessions.StandardTakeback`). From other starts the kings' flags, and from any start the
rooks' flags and those for en passant, do not always come back. `Sessions.TakebackIsExact`
says when they do, move by move, for every game; `EarlyKing.CastlingIsLost`,
`StaleFlags.RookCountsAsUnmoved` and `StaleFlags.EnPassantFlagStays` are games in which they
do not.

**Bughouse.** In check, trying a queen only beside the king loses nothing
(`Interposition.BesideIsEnough`). Out of check it can: `WalledKing.WalledKingIsMissed`
gives a position that the server calls stalemate although a drop is possible, and
`Interposition.BughouseExact` states for all positions when the answer is right. Men are
conserved over both boards and hands while neither game ends, by colour (`Bughouse.MatchConserves`)
and, but for promotions and what is handed over wrongly, by kind (`Hands.TurnKeepsKinds`).
Whether a captured man came from a promotion is found out by a walk over the move list.
Castling records only the king's squares, so a rook that has castled is taken for whoever
visited its square before (`Reversion.WalkTakesVisitor`). `Reversion.WalkIsExact` says by the
trails of the two men exactly when the answer is right, and `CastledRook.CastledRookIsMistaken`
is a game from the standard start in which it is not. No linked game takes moves back, so a
side castles at most once in it, which the proof needs.

**Formulas.** `FormulaErrors.ClauseExact` relates the evaluator to a tree semantics. A tree
keeps white space, spelling and comments, so the theorem covers every way to write it; and it
covers the trees that the code refuses, those with a sign directly behind the same sign
among them (`FormulaErrors.DoubledSignIsRefused`).
`FormulaLaws` says in plain arithmetic what the words of a formula mean and in which order they are
applied. `FormulaSkip` shows that skipping is faithful and that acceptance carries over to matching.
All clauses a player can set stay readable, so matching never fails.

**MD5** agrees with sections 3.1 to 3.5 of RFC 1321 for every way of cutting up the message.
The block transform is a parameter. `Md5Laws` gives the initial state, the padding and the digest in
the numbers of the RFC.

**Line input** is a byte-at-a-time editor (commands as in RFC 854, TELNET COMMAND STRUCTURE).
Key by key, in the bytes that arrive, it edits as it should (`LineLaws.LineOfKeys`). The in-place
reader is that editor (`LineReader.Connection.ReadLine`), and cuts do not
matter (`LineInput.CutsDoNotMatter`) under two conditions: data bytes stay up to 0xDF and
the clamp drops nothing. `LineInput.HighBytesTell` says that those bytes and no others see a
cut, `LineInput.CutsMatterAboveDF` gives a stream that they change, and
`LineInput.NothingLostIff` says when the second condition holds.

**Clocks.** What is on a clock at the start of a turn is kept by charging, pausing and going
on. A takeback restores both clocks exactly when `Clocks.Refundable` holds
(`Clocks.RefundIsExact`). It does not for moves numbered 1 unless they took just the time of
the increment, nor for Black without an increment where White has one. In a game that began
with nothing on the clocks, such as one of 0 minutes and 12 seconds a move, nothing is
refunded or rolled back at all, so the other side must not have been charged since
(`Clocks.ThinkingIsLost`).

**Offers, directory, algebraic moves, FEN, wild set-ups**: see the table.

## Files

| files | part |
|---|---|
| Positions, Legality, Attacks, Targets, ListRoom | positions, rules, check, what generators list and the room it needs |
| GameStates, Generators, Moves, Mate, Judgement | the code that works in place |
| Rules, Verdicts, EnPassantRule, GhostCapture, Progress | the laws of chess, and where the server leaves them |
| Interposition, WalledKing, Runs, Shelter, Setup | bughouse drops, invariants of runs, kings out of reach, set-up |
| Takeback, KingFlags, EnPassantFlags, Sessions, EarlyKing, StaleFlags, Backup | taking back |
| Formula, FormulaSyntax, FormulaLexing, FormulaPlaces, FormulaCorrect, FormulaErrors, FormulaSkip, FormulaLaws, FormulaMethods | formulas |
| Md5, Md5Laws | MD5 streaming |
| LineInput, LineLaws, LineReader | line input |
| Offers, Pending | pending offers |
| Clocks | clocks |
| Bughouse, Hands, Reversion, CastledRook | linked boards, what captured men are handed over as |
| Texts, Fen, FenLaws, FenMethods, Algebraic, AlgebraicLaws | texts of positions and moves |
| WildFiles, WildLaws, WildSetUps | wild set-ups and their files |
| Directory | directory search |

## Model

| member | source | states |
|---|---|---|
| `Attacks.CaptureIsHit` | src/movecheck.c:515-547 | Whether a man may go to a square held by an enemy depends on the board alone, not on castling rights, en-passant flags or the turn counters. |
| `Attacks.CheckIsHit` | src/movecheck.c:625-649 | The scan for check, which asks the full legality test of every enemy man, says yes exactly when the first king in scan order stands on a line or jump of an enemy man. |
| `Attacks.AcceptedIsSafe` | src/movecheck.c:553-605 | A move is accepted exactly when its geometry is right and the king of the mover is hit by nothing on the board after the move. |
| `Attacks.CastlingImpliesStep` | src/movecheck.c:259-299 | Whoever may castle may also take the king one step toward that rook, checked to the end: the step passes geometry and leaves the king safe. |
| `Targets.LegalIsPlainOrCastling` | src/movecheck.c:515-547 | A legal move is a plain move of the man or one of the two castlings, and nothing else. |
| `Targets.RayComplete` | src/movecheck.c:367-488 | Every square in reach along a line is listed by the walk along that line. |
| `Targets.RaySound` | src/movecheck.c:367-488 | Every listed square of a line is so many steps off, with the way clear and no own man on it. |
| `Targets.BishopExact` | src/movecheck.c:367-428 | The squares listed for a bishop are exactly those the bishop test allows (lines 152-182) and that hold no own man. |
| `Targets.RookExact` | src/movecheck.c:430-487 | The squares listed for a rook are exactly those the rook test allows (lines 184-220) and that hold no own man. |
| `Targets.PawnExact` | src/movecheck.c:308-347 | The squares listed for a pawn are exactly those the pawn test allows (lines 107-144), plus a square its en-passant flag points to whatever stands there. |
| `Targets.KnightExact` | src/movecheck.c:349-365 | The eight table jumps that land are exactly the squares the knight test (lines 146-150) allows. |
| `Targets.KingExact` | src/movecheck.c:496-512 | The eight table steps that land are exactly the squares one step off that hold no own man. |
| `Targets.TargetsExact` | src/movecheck.c:301-512 | For every man, generator and legality test agree: listed means legal apart from castling, or flagged for en passant. |
| `Targets.OffOrigin` | src/movecheck.c:301-512 | No listed square is off the board or the square the man stands on. |
| `Targets.AtMost27` | src/movecheck.c:301-512 | No man adds more than 27 squares to the list. |
| `GameStates.NextPiece` | src/movecheck.c:83-105 | The scan over men finds the next man of a colour, and passes none over. |
| `GameStates.LegalBishopMove` | src/movecheck.c:152-182 | The loop along a diagonal answers whether the squares are on one diagonal with nothing in between. |
| `GameStates.LegalRookMove` | src/movecheck.c:184-220 | The loop along a file or rank answers whether the squares share one with nothing in between. |
| `GameStates.LegalQueenMove` | src/movecheck.c:222-230 | A queen goes where a rook or a bishop would. |
| `GameStates.IsSquareAttacked` | src/movecheck.c:232-257 | On a copy with the king lifted to the square, the enemy to move: is it in check there? The game itself is untouched. |
| `GameStates.LegalKingMove` | src/movecheck.c:259-299 | The method answers the test for the king, whose castlings `Rules.CastlesByTheRules` and whose steps `Rules.LegalByTheRules` show to be those of the laws of chess; never onto an occupied square, which is why the mutual recursion ends. |
| `GameStates.IsLegalMove` | src/movecheck.c:515-547 | The dispatch over kinds answers the legality predicate; the mutual recursion with the check test is shown to terminate by the order empty target, then depth. |
| `GameStates.IsInCheck` | src/movecheck.c:625-649 | First king in the scan, then every enemy man: the loop answers the check predicate, without any bound on depth. |
| `GameStates.FirstKingUnique` | src/movecheck.c:625-649 | The king the scan finds is the only first one, however many there are. |
| `Generators.AddRay` | src/movecheck.c:367-488 | A line walk appends to the list exactly the squares of that line, in order. |
| `Generators.AddJumps` | src/movecheck.c:349-365 | Trying the table of jumps appends exactly the landings, in order. |
| `Generators.PossiblePawnMoves` | src/movecheck.c:308-347 | Appends the pushes, takes and flagged squares of a pawn. |
| `Generators.PossibleMoves` | src/movecheck.c:301-512 | Whatever man it is, what is appended to the two arrays is exactly its targets, and what was there before stays. |
| `Moves.MoveMen` | src/movecheck.c:777-796 | The board after the men have moved, en-passant victim and castled rook included, and what the record learns. |
| `Moves.MarkEnPassant` | src/movecheck.c:797-817 | All sixteen flags are cleared, and after a two-square advance those of enemy pawns beside the target are set. |
| `Moves.MarkMoved` | src/movecheck.c:818-835 | Rook and king flags: only the mover's, only from the corner, and nothing else of the state. |
| `Moves.PlayDrop` | src/movecheck.c:769-775 | A drop takes the man from the hand of the mover and puts it on the square; nothing else but the irreversible count changes. |
| `Moves.PlayMove` | src/movecheck.c:765-849 | The whole state after a move, drops included, and the completed move record. |
| `Moves.LeavesKingSafe` | src/movecheck.c:553-605 | The trial on a copy answers whether the king is safe afterwards. |
| `Moves.IsAcceptedMove` | src/movecheck.c:553-605 | Geometry first, then the king: the acceptance predicate. |
| `Moves.IsLegalAndCheckMove` | src/movecheck.c:607-621 | The test used by searches, promotion taken to be to a queen. |
| `ListRoom.ListBound` | src/movecheck.c:653-681 | After the men of the first n squares the list has at most 27 entries a man, hence at most 432 for sixteen men. |
| `ListRoom.RaysApart` | src/movecheck.c:367-488 | No two men of a side list the same square in the same direction. |
| `ListRoom.LinesFit` | src/movecheck.c:301-512 | Over all men and all eight directions, lines list at most eight times the squares not held by own men. |
| `ListRoom.JumpsFit` | src/movecheck.c:349-365 | Knights, over all men and all eight jumps, list no more than that either. |
| `ListRoom.PawnListed` | src/movecheck.c:308-347 | A pawn lists at most one square beyond its lines, the one its en-passant flag points to. |
| `ListRoom.ListAlwaysFits` | src/movecheck.c:653-681 | On every board, with any number of men, the list ends with at most 448 entries, within its 500. |
| `Mate.ListedTargetsDecide` | src/movecheck.c:651-686 | A side has a move, castling included, exactly when some man has a listed target that passes the full test, although castling is never listed. |
| `Mate.CastlingStepListed` | src/movecheck.c:651-686 | When castling is possible, the king step toward the rook is listed and passes. |
| `Mate.AccumulatedOnBoard` | src/movecheck.c:653-681 | Everything in the list, from whatever man, is a square of the board. |
| `Mate.TryTargets` | src/movecheck.c:676-685 | Trying all of the accumulated list for one man finds a move only if there is one and misses none of that man's own targets; entries left over from other men do no harm. |
| `Mate.ScanForMove` | src/movecheck.c:651-687 | The scan over men: if it finds something there is a move, otherwise there is none and the square kept is that of the last king seen. |
| `Mate.TryDropsBeside` | src/movecheck.c:688-703 | The two nested loops around the king answer whether a queen drop on some empty square there passes. |
| `Mate.HasLegalMove` | src/movecheck.c:651-707 | Decides exactly whether the side can move (or, in bughouse, might drop a queen beside its king), and leaves the position as it was, including the borrowed queen. |
| `Judgement.InsufficientMaterial` | src/movecheck.c:864-886 | The sum over the squares is below two exactly when only kings and at most one knight or bishop are on the board. |
| `Judgement.Judge` | src/movecheck.c:851-890 | Passes the turn and returns the status of the position reached. |
| `Judgement.ExecuteMove` | src/movecheck.c:765-891 | Plays the move and returns exactly the status of the position reached. |
| `Judgement.PromotionIrrelevant` | src/movecheck.c:553-605 | Which man a pawn becomes never matters to whether the move is accepted, so trying queens only loses nothing. |
| `Judgement.StatusIsExact` | src/movecheck.c:851-887 | Outside bughouse: checkmate is returned exactly when the king is hit and no move with any promotion is accepted, stalemate exactly when it is not hit and none is. |
| `Rules.HitsByTheRules` | src/movecheck.c:515-547 | What the server takes for an attack is one by the laws: pawns a step aside and ahead, knights at a distance of the root of five, bishops, rooks and queens along open lines, kings one step. |
| `Rules.CheckByTheRules` | src/movecheck.c:625-649 | The one king of a side is in check exactly when some enemy man attacks its square by the laws. |
| `Rules.CastlesByTheRules` | src/movecheck.c:259-299 | A side with its one king on the e-file castles exactly when king and rook have not moved, the rook stands in its corner with nothing between, the king is not attacked, and no enemy man would attack it on the square it passes. |
| `Rules.LegalByTheRules` | src/movecheck.c:515-547 | With one king of the mover on the board, a man may go from square to square exactly when the laws let it: advance, double advance, capture, en passant by its flag, castling. |
| `Verdicts.BoardByTheRules` | src/movecheck.c:777-846 | After a legal move every square holds what the laws say: the man that moved or what it was promoted to, the castled rook, the pawn taken in passing gone, all else as it was. |
| `Verdicts.AcceptedByTheRules` | src/movecheck.c:553-605 | On a board in order the server accepts exactly the moves of the laws: where the man may go, and the king is not attacked then. |
| `Verdicts.VerdictByTheRules` | src/movecheck.c:851-887 | Outside bughouse: mate, stalemate and no material are called exactly when the laws call them, the last when there is no pawn, rook or queen and all knights and bishops are one. |
| `EnPassantRule.FlagMeans` | src/movecheck.c:797-817 | After a move on the board the flag of a file is up exactly when a pawn of that file stands beside one that has just gone two squares ahead. |
| `EnPassantRule.EnPassantIsExact` | src/movecheck.c:121-141 | The server lets a pawn take in passing exactly when the laws do, if and only if it is not on another rank than the pawn that advanced, with a pawn of its file beside that one and another enemy pawn beside itself. |
| `EnPassantRule.DropKeepsFlags` | src/movecheck.c:769-775 | A drop leaves the flags up, so that a pawn may still be taken in passing a turn later. |
| `GhostCapture.PawnTakesGhost` | src/movecheck.c:121-129 | From the standard start, 1. Nc3 b5 2. a4 b4 3. b3 bxc3 4. h3 Ba6 5. h4 Bb5 6. axb5 c5: White may play b3xc4 onto an empty square, and the pawn on c3, which has not just moved, is gone. |
| `Progress.NotedIsIrreversible` | src/movecheck.c:785-796 | A move on the board is noted as irreversible exactly when the steps left to pawns and the men left on the board become fewer; otherwise they stay the same. |
| `Progress.RunWearsDown` | src/movecheck.c:785-796 | Along every game without drops they never grow, and the number noted stays exactly while they stay. |
| `Progress.DropIsNoted` | src/movecheck.c:769-775 | A drop is always noted as irreversible. |
| `Progress.NothingNotedComesBack` | src/movecheck.c:785-796 | If a board comes back in such a game, nothing noted as irreversible happened in between. |
| `Progress.RunIsNumbered` | src/movecheck.c:847-849 | Over every run, twice the move number with one added when Black is to move grows by exactly the moves made; men handed over do not count. |
| `Progress.GameIsNumbered` | src/movecheck.c:847-849 | After k moves from the standard start the move number is k / 2 + 1, and White is to move exactly when k is even. |
| `Progress.FlagsTell` | src/movecheck.c:818-831 | After every run the flag of a corner is set exactly when it was set before or a move took a rook of its side away from there; castling does not count. |
| `Progress.KingFlagTells` | src/movecheck.c:832-837 | After every run the flag of a king is set exactly when it was set before or a move was the king's. |
| `Interposition.CutBeside` | src/movecheck.c:688-703 | If a queen dropped somewhere cuts an enemy line to the king, then the square beside the king on the same line is empty and a queen there cuts it too. |
| `Interposition.BesideIsEnough` | src/movecheck.c:688-703 | In check, if a queen dropped anywhere helps, one dropped on a square next to the king helps. |
| `Interposition.QuietDropIsSafe` | src/movecheck.c:688-703 | When not in check, a drop on any empty square is safe. |
| `Interposition.DropTestIsSafety` | src/movecheck.c:553-605 | With a queen in hand, the server accepts her drop exactly when it leaves the king unhit. |
| `Interposition.DropBesideIsExact` | src/movecheck.c:688-703 | Trying only the squares beside the king gives the right answer if and only if the king is in check, or has an empty square beside it, or the board is full. |
| `Interposition.BughouseExact` | src/movecheck.c:651-703 | In bughouse the answer to "can the side move or ever drop" is right if and only if there is a board move, a check, an empty square beside the king, or no empty square at all. |
| `WalledKing.WalledIsSound` | src/movecheck.c:688-703 | White Ka1, Pa2; Black Ke8, Pa3, Nb1, Nb2, Rh1; White to move: a position that satisfies the invariant of games. |
| `WalledKing.WalledKingIsMissed` | src/movecheck.c:688-703 | There, in bughouse, the server calls stalemate, although White is not in check and could drop a queen on d4. |
| `Runs.KingIsNotTaken` | src/movecheck.c:515-547 | From a position in order, no geometrically legal move lands on the enemy king. |
| `Runs.SquareAfter` | src/movecheck.c:777-846 | Square by square, what a legal move may change: the target gets the man, the origin empties, and elsewhere a man only vanishes, or a rook arrives by castling. |
| `Runs.OwnKingFollows` | src/movecheck.c:836-845 | The one king of the mover stays, or is on the target of its own move. |
| `Runs.EnemyKingStays` | src/movecheck.c:777-846 | The one enemy king stays on its square. |
| `Runs.PawnsStayInside` | src/movecheck.c:777-783 | No accepted move leaves a pawn on the first or eighth rank. |
| `Runs.MoveKeepsSound` | src/movecheck.c:765-891 | One accepted move keeps the invariant (one king a side, no pawn on an edge rank, the side that moved not in check, sane flags, no negative hand) and takes no king. |
| `Runs.RunKeepsSound` | src/movecheck.c:765-891 | The invariant holds after every run of accepted moves, drops and men received from a linked board. |
| `Runs.RunIsPlayable` | src/movecheck.c:651-707 | So every position of a run, and what any accepted move makes of it, is one the search for a move and the judging of a move can be called on. |
| `Runs.NoKingIsEverTaken` | src/movecheck.c:553-605 | In no run does an accepted move take a king or leave the mover's own king hit. |
| `Runs.StartIsSound` | src/board.c:79-132 | The standard start satisfies the invariant. |
| `Setup.OneKingCounted` | src/gamedb.c:824-840 | A full count of the kings of a colour comes to one exactly when there is exactly one, however many there are. |
| `Setup.CheckKings` | src/gamedb.c:824-840 | The loops that count all kings say perfect exactly when each side has one. |
| `Setup.MenInOrder` | src/setup.c:49-100 | The scan with its early exits accepts exactly boards with one king a side and no pawn on an edge rank. |
| `Setup.ValidatePosition` | src/setup.c:49-108 | Accepted exactly when the men are in order and the side not to move is not in check. |
| `Setup.SetUpRuns` | src/setup.c:49-108 | From a validated position, on a board that was cleared first, every run of moves keeps the invariant of games. |
| `Takeback.UndoBoardReverses` | src/movecheck.c:910-1033 | For every legal move the record alone undoes the board: castling, en passant, promotion and capture. |
| `Takeback.UndoStep` | src/movecheck.c:893-1114 | Undoing the newest record restores the 64 squares, the turn and the move number. |
| `Takeback.UndoLocal` | src/movecheck.c:893-1114 | Undoing depends on no record behind the one undone, so stale records do no harm. |
| `KingFlags.FirstFromMeans` | src/movecheck.c:1003-1023 | The scan with its step of two comes to the end exactly when no record of that side before it starts on the square. |
| `KingFlags.HistoryStep` | src/movecheck.c:830-835 | One move keeps the tie between flag and list: a king is flagged as moved exactly when some record the scan looks at starts on its home square. |
| `KingFlags.StandardOpening` | src/board.c:79-132 | From the standard start neither king can make the first move of its side, whatever the other flags have become, so the records that the scan skips do not matter. |
| `KingFlags.WalledKingStays` | src/movecheck.c:259-299 | A king surrounded by its own men has no legal move, which is why the scan may begin at the second move of a side. |
| `KingFlags.KingMoveFacts` | src/movecheck.c:259-299 | Where flag and list agree, a king takes two files in one move only before it has moved, and one off its home has moved. |
| `KingFlags.UndoBothKings` | src/movecheck.c:961-1024 | Undoing a move restores both kings' flags if and only if the move is recoverable: where the king itself moves, it goes by two files, or from home with no scanned record from there, just when it had not moved before. |
| `KingFlags.UndoRights` | src/movecheck.c:919-1024 | All six castling flags come back if and only if, besides, a rook leaving its corner had not moved before just when no scanned record starts on White's corner of the file. |
| `KingFlags.HistoryRecovers` | src/movecheck.c:893-1024 | Where flag and list agree, every legal move is recoverable for the king, but its move from home as the first of its side. |
| `EnPassantFlags.MadeIsFresh` | src/movecheck.c:797-817 | After a move the flags for en passant are those its record raises, of the side that moved. |
| `EnPassantFlags.UndoEnPassantFlags` | src/movecheck.c:1097-1114 | Where the flags in force are those of the last move, undoing one more move restores them if and only if that move raised none: it was no pawn's move of two squares to beside an enemy pawn. |
| `Sessions.PlayRetraces` | src/movecheck.c:765-891 | A new move, put over a stale record if there is one, keeps every record leading back to the like of the position it was played in. |
| `Sessions.BackRetraces` | src/movecheck.c:893-1114 | A takeback leads to the like of the position before, and the records left still lead back. |
| `Sessions.TakebackRestores` | src/gameproc.c:1377-1384 | However a game went on, moves and takebacks in any order, taking back k moves restores the squares, the turn and the move number of k moves ago. |
| `Sessions.UndoIsExact` | src/movecheck.c:893-1114 | What a takeback right after a move restores of kings' flags, castling rights and en-passant flags, from any position and any list: exactly what the move keeps. |
| `Sessions.TakebackIsExact` | src/gameproc.c:1377-1384 | In any game of moves and takebacks from any start, taking back any number of moves at any time restores kings' flags, castling rights or en-passant flags if and only if every move made in it keeps them. |
| `Sessions.FirstKingMoveIsLost` | src/movecheck.c:1003-1023 | A king that has not moved and leaves its square, not castling, before the record the scan begins at, counts as moved after a takeback. |
| `Sessions.StandardTakeback` | src/gameproc.c:1377-1384 | From the standard start kings' flags always come back, at any time of any game and for any number of moves. |
| `Sessions.StandardIsExact` | src/gameproc.c:1377-1384 | From there the other flags come back at all times if and only if every move made keeps them. |
| `EarlyKing.EarlyIsSound` | src/movecheck.c:893-1024 | White Ke1, Rh1, Pa2; Black Ke8, Pa7; nothing has moved: a position that satisfies the invariant of games. |
| `EarlyKing.CastlingIsLost` | src/movecheck.c:1003-1011 | There White may castle; after 1. Kf1 and a takeback the men stand as before, and White may not. |
| `StaleFlags.EnPassantFlagStays` | src/movecheck.c:1097-1114 | From the standard start, after 1. b4 h6 2. b5, taking back 2... a5 does not restore the flags for en passant. |
| `StaleFlags.RookCountsAsUnmoved` | src/movecheck.c:938-946 | After 2... a5 3. Nf3 Ra7 4. Ng1 Ra8 5. Nf3, taking back 5... Ra7 restores the kings' flags but not the rights of the rook, which had moved: the scan for Black looks for White's corner. |
| `Backup.ScanFirst` | src/movecheck.c:1005-1011 | The loop over one side's records answers whether none of them starts on the square. |
| `Backup.UndoMen` | src/movecheck.c:910-1033 | The board part of taking back, in place, is the undo read off the record. |
| `Backup.UndoRookFlag` | src/movecheck.c:919-959 | Rook flags as the code clears them, with Black's scan comparing to rank 0. |
| `Backup.UndoKingFlag` | src/movecheck.c:961-1024 | King flags, with castling clearing both. |
| `Backup.RestoreEnPassant` | src/movecheck.c:1097-1114 | The flags of the move that is last again are raised; none is cleared. |
| `Backup.BackupMove` | src/movecheck.c:893-1117 | The whole state after taking one move back. |
| `FormulaMethods.SkipWhite` | src/formula.c:244-277 | Skips white space, and stops at something else. |
| `FormulaMethods.MoveIndexPastString` | src/formula.c:99-105 | Found exactly when what follows spells the text in any case; then the index is behind it, and otherwise where it was. |
| `FormulaMethods.ScanForOperator` | src/formula.c:244-277 | The operator or stop behind the white space, the longer spelling first. |
| `FormulaMethods.ScanDigits` | src/formula.c:359-418 | The number at a place, "minutes" multiplying by sixty. |
| `FormulaMethods.CheckFormula` | src/formula.c:420-453 | The loop that climbs precedence agrees with the recursive reading, including errors and the place it ends. |
| `FormulaMethods.EvalBinaryOp` | src/formula.c:306-357 | The right side, skipped where the left decides, and the value of both, which `FormulaLaws.WordMeans` gives in plain arithmetic. |
| `FormulaMethods.ScanForNumber` | src/formula.c:359-418 | One operand with its sign, parentheses, number or variable. |
| `FormulaMethods.GetNumberInsideParens` | src/formula.c:107-121 | Reads up to the closing parenthesis, or fails. |
| `FormulaMethods.TrimmedExactly` | src/formula.c:539-542 | What is set is the text without the blanks before its first other character. |
| `FormulaMethods.VarToToken` | src/formula.c:159-242 | The variables, and f1 to f9 only below the clause they stand in. |
| `FormulaMethods.Player.SetValidFormula` | src/formula.c:525-565 | A clause is accepted exactly when it can be read, which for clauses that write trees is exactly when the tree is acceptable; kept unchanged otherwise; and all clauses stay readable. |
| `FormulaMethods.Player.GameMatchesFormula` | src/formula.c:503-523 | If all clauses are readable matching never errs; for clauses that write trees the result is the value of the tree if it is acceptable (in plain arithmetic by the laws of `FormulaLaws`), and 0 if not. |
| `FormulaSkip.CheckShape` | src/formula.c:420-453 | Error and end of reading are the same for akin sheets, any offer, evaluated or skipped. |
| `FormulaSkip.ReadingIsSyntactic` | src/formula.c:233-237 | Where a reading ends, and whether it fails, depends neither on the offer nor on evaluating, for the same clauses. |
| `FormulaSkip.ShortCutIsFaithful` | src/formula.c:306-320 | Skipping the right side of "and" and "or" gives the result of evaluating it. |
| `FormulaSkip.OneReadingIsEnough` | src/formula.c:525-565 | One reading without error, in either mode, is enough for all of them. |
| `FormulaSkip.ReplacedStaysReadable` | src/formula.c:525-565 | Replacing one clause by a readable one leaves every other clause readable, those that refer to it included. |
| `FormulaLaws.WordMeans` | src/formula.c:321-346 | The words written for operators mean, in plain arithmetic: the sum; the number that added to the right gives the left; the product; the quotient toward zero; 1 or 0 for each comparison, for "or" and for "and". |
| `FormulaLaws.InfixMeans` | src/formula.c:321-346 | So does every operator in every acceptable tree. |
| `FormulaLaws.SignMeans` | src/formula.c:381-390 | A minus sign gives the number that added to the operand is 0; a "!" gives 1 for 0 and 0 for anything else. |
| `FormulaLaws.HelperMeans` | src/formula.c:233-237 | The letter f and a digit from 1 to 9 name the helper clause of that number. |
| `FormulaLaws.CharactersMean` | src/formula.c:244-246 | Which characters are blanks and which are digits. |
| `FormulaLaws.CapitalsMean` | src/formula.c:99-105 | Capitals count as small letters. |
| `FormulaLaws.NumberMeans` | src/formula.c:392-410 | The decimal text of a number is worth that number, and so many minutes sixty times it. |
| `FormulaLaws.PlayersNamed` | src/formula.c:162-187 | The variables for what is known of the players, by their names as written. |
| `FormulaLaws.ListsNamed` | src/formula.c:196-206 | And for the lists and marks they are on. |
| `FormulaLaws.RatingsNamed` | src/formula.c:164-199 | And for their ratings and the difference. |
| `FormulaLaws.StakesNamed` | src/formula.c:167-187 | And for what the outcome is worth in a rated game. |
| `FormulaLaws.TermsNamed` | src/formula.c:200-232 | And for the terms of the game. |
| `FormulaLaws.KindsNamed` | src/formula.c:196-230 | Each variable for a kind of game is 1 for that kind and 0 for any other. |
| `FormulaLaws.OtherKindsNamed` | src/formula.c:205-214 | The same. |
| `FormulaLaws.LongestGameMeans` | src/formula.c:124-150 | The longest game takes what both players have for so many moves, whether their terms are equal or not: minutes, increments, and ten seconds for who begins with nothing. |
| `FormulaLaws.ChainMeans` | src/formula.c:420-453 | Three operands with two operators are read by how tightly the words bind, and from left to right where they bind alike. |
| `FormulaLaws.DifferenceExceeds` | src/formula.c:503-523 | For all numbers the formula "l-m>n", written in decimal, is worth 1 exactly when l - m > n, and 0 otherwise. |
| `FormulaLaws.MinutesInParentheses` | src/formula.c:392-410 | For every number n the formula "(n minutes)#" with any comment behind is worth 60 n. |
| `FormulaLexing.OperatorFound` | src/formula.c:244-277 | An operator is found where it is written, not a shorter or longer one. |
| `FormulaLexing.NameFound` | src/formula.c:159-242 | A variable is found where its name is written, not one that is a prefix of it. |
| `FormulaLexing.DigitsRead` | src/formula.c:359-418 | The value of the digits, read at once. |
| `FormulaCorrect.ContinueEnds` | src/formula.c:420-453 | How reading an expression comes to an end before a looser operator or a stop. |
| `FormulaCorrect.OperandCorrect` | src/formula.c:359-418 | Every operand tree (numbers, minutes, names, time of the longest game, helper clauses, parentheses, signs) is read up to its end with its value. |
| `FormulaCorrect.OperatorCorrect` | src/formula.c:420-453 | An operator with both its sides is read with the value of the tree, by precedence and left association. |
| `FormulaCorrect.Climb` | src/formula.c:420-453 | Every acceptable tree, at any level and any place in a clause, is read up to its end with its value. |
| `FormulaCorrect.ClauseCorrect` | src/formula.c:38-48 | For every acceptable tree over the documented operators and every way to space, spell and comment it, reading a clause succeeds and gives the value the tree means. |
| `FormulaErrors.OperandRefused` | src/formula.c:359-418 | An operand tree with a sign directly behind the same sign, or naming a helper clause that is not below or is itself refused, ends in an error at every level. |
| `FormulaErrors.Refused` | src/formula.c:420-453 | So does every tree with such an operand anywhere in it, at any level below its own. |
| `FormulaErrors.ClauseExact` | src/formula.c:525-565 | A clause that writes a tree is read without error, and is readable, if and only if the tree is acceptable: no sign is doubled in it or in a clause it names, and it names lower clauses only; then its value is that of the tree. |
| `FormulaErrors.DoubledSignIsRefused` | src/formula.c:381-386 | The clause "!!1" ends in an error. |
| `Md5.FoldJoins` | src/crypt-md5c.c:148-158 | Folding whole blocks and then the rest is folding all of it. |
| `Md5.WordRoundTrip` | src/crypt-md5c.c:48-72 | A word comes back from its bytes. |
| `Md5.ByteRoundTrip` | src/crypt-md5c.c:48-72 | Bytes come back from their word. |
| `Md5.Encode` | src/crypt-md5c.c:48-58 | The output array is the bytes of the words, low-order first. |
| `Md5.Decode` | src/crypt-md5c.c:66-72 | The words are those whose bytes are the input. |
| `Md5.CountAdds` | src/crypt-md5c.c:140-146 | Adding to the two count words with the detected carry is adding bits modulo 2^64 (section 3.2 of RFC 1321). |
| `Md5.CountIndex` | src/crypt-md5c.c:141-141 | Six bits of the low count word are the message length modulo 64. |
| `Md5.PaddingPrefix` | src/crypt-md5c.c:181-187 | What is cut from the fixed padding block is the padding of section 3.1 of RFC 1321. |
| `Md5.Context.Count` | src/crypt-md5c.c:140-146 | The two words count the bits of the message seen so far. |
| `Md5.Context.FillBuffer` | src/crypt-md5c.c:148-152 | Completing the buffered block folds it in. |
| `Md5.StopsExactly` | src/crypt-md5c.c:153-158 | Behind the last whole block the guard of the loop, with its index of 32 bits, fails if and only if what the buffer holds and the input together are less than 2^32 bytes. |
| `Md5.Context.AbsorbBlocks` | src/crypt-md5c.c:153-158 | Whole blocks of the input are folded in without the buffer. |
| `Md5.Context.KeepRest` | src/crypt-md5c.c:159-165 | What does not fill a block is buffered for later. |
| `Md5.Context.Init` | src/crypt-md5c.c:118-127 | The empty message; the state is then the one of section 3.3 of RFC 1321 (`Md5Laws.ContextStarts`). |
| `Md5.Context.Update` | src/crypt-md5c.c:135-166 | The context stands for the message so far with the input behind it, whenever what the buffer holds and the input together are less than 2^32 bytes. |
| `Md5.Context.Pad` | src/crypt-md5c.c:175-191 | The context stands for the padded message, with the length before padding. |
| `Md5.Context.Final` | src/crypt-md5c.c:197-207 | The digest is that of the message, and the context is wiped; from which bytes and in which order is pinned by `Md5Laws.DigestOfIdle`. |
| `Md5.DigestOfChunks` | src/crypt-md5c.c:135-207 | However a message is cut into updates, the digest is the one-shot digest of the whole. |
| `Md5Laws.ContextStarts` | src/crypt-md5c.c:118-127 | A context that has taken nothing in stands at the sixteen bytes of section 3.3 of RFC 1321. |
| `Md5Laws.DigestOfIdle` | src/crypt-md5c.c:197-207 | With a transform that leaves the state alone the digest of any message is these bytes, low-order bytes first. |
| `Md5Laws.PaddedMeans` | src/crypt-md5c.c:175-191 | What is digested is the message, the byte 128, the fewest zeros that fill whole blocks, and eight bytes, low-order first, whose number is the length in bits modulo 2^64. |
| `LineInput.NothingLostIff` | src/network.c:387-389 | The clamp drops nothing exactly when what waited, counted twice, and what arrived fit beside the line begun; filling the room to the last byte loses nothing. |
| `LineInput.RunResumes` | src/network.c:391-469 | Stopping at the end of a line and resuming is going on. |
| `LineInput.RunAlike` | src/network.c:409-456 | For bytes up to 0xDF, having left something out before changes nothing that follows. |
| `LineInput.CallKeepsRun` | src/network.c:343-491 | One call that loses nothing delivers what the byte-at-a-time editor would. |
| `LineInput.CallsKeepRun` | src/network.c:343-491 | Any sequence of calls delivers, with what still waits, exactly what the editor makes of all bytes. |
| `LineInput.CutsDoNotMatter` | src/network.c:343-491 | Two ways of cutting up the same bytes deliver the same lines, replies and logouts in the same order, and leave the same line begun. |
| `LineInput.HighBytesTell` | src/network.c:415-456 | After something was left out, a byte is dealt with as at the start of a call exactly when it is no data byte above 0xDF. |
| `LineInput.CutsMatterAboveDF` | src/network.c:415-456 | Above 0xDF cuts do matter: a concrete stream that gives two different lines. |
| `LineInput.RunKeepsText` | src/network.c:408-457 | No line delivered, and no line begun, holds a control character or passes 1023 characters. |
| `LineLaws.KeyIsEdited` | src/network.c:391-468 | The bytes of each key (characters, backspace, other control keys, telnet commands, given as numbers) do to the line what the key should, and are answered as they should be. |
| `LineLaws.LineOfKeys` | src/network.c:391-491 | For every sequence of keys that keeps the line below 1023 characters, a newline delivers exactly the line typed, behind exactly the replies asked for. |
| `LineLaws.TextIsLine` | src/network.c:391-407 | A text and a newline give the text. |
| `LineLaws.LastIsRubbedOut` | src/network.c:409-454 | A backspace rubs out the last character and no more. |
| `LineLaws.LineIsErased` | src/network.c:432-434 | The command to erase the line does so. |
| `LineLaws.RequestsAreAnswered` | src/network.c:428-466 | Requests are answered, and the line goes on behind them. |
| `LineLaws.InterruptLogsOut` | src/network.c:421-422 | The command to interrupt logs out, whatever was typed before. |
| `LineLaws.FullLineIsDelivered` | src/network.c:470-490 | A text of 1023 characters is delivered without a newline. |
| `LineReader.Connection.Receive` | src/network.c:365-384 | What arrives goes behind what is pending. |
| `LineReader.Connection.Look` | src/network.c:391-468 | One byte in place, s and d moving, does what the editor does with it; key by key that is `LineLaws.KeyIsEdited`. |
| `LineReader.Connection.Deliver` | src/network.c:397-407 | The line is copied out and the rest moved to the front. |
| `LineReader.Connection.Settle` | src/network.c:470-490 | The begun line is kept, or delivered when it fills the buffer. |
| `LineReader.Connection.Scan` | src/network.c:391-490 | The loop over the buffer comes out as the editor run up to the end of a line. |
| `LineReader.Connection.Gather` | src/network.c:365-389 | The bytes to look at are what waited, counted twice, and what arrived, cut to the room. |
| `LineReader.Connection.ReadLine` | src/network.c:343-491 | One call on the in-place buffer is exactly one call of the specification, clamp, leftovers, empty reads and lost connections included; which line comes of what is typed is `LineLaws.LineOfKeys`. |
| `Offers.CountFinds` | src/pending.c:139-151 | A count is positive exactly if there is such an offer. |
| `Offers.WithoutIsExact` | src/pending.c:189-200 | What is left after a removal are exactly the offers that fail the test. |
| `Offers.FirstMatchIsFirst` | src/pending.c:153-170 | The offer a search is for matches, and none before it does. |
| `Offers.ClearedOfAll` | src/pending.c:203-327 | Declining and withdrawing everything leaves no offer that mentions the player. |
| `Offers.ClearedUnmentioned` | src/pending.c:203-327 | Clearing one player's offers brings back none of another's. |
| `Offers.ClearedExactly` | src/pending.c:203-310 | Declining or withdrawing the offers of one kind, or of all kinds but one, with one player or with all, takes exactly those. |
| `Offers.JoinedExactly` | src/pending.c:587-625 | Joining a match leaves exactly the offers of partnership and those that mention neither player. |
| `Offers.ClearedWithPartner` | src/pending.c:203-327 | Clearing match offers, or all, takes the player's own and those of his partner's bughouse match, and nothing else. |
| `Offers.RequestIsKnown` | src/pending.c:153-169 | A request is found exactly if there is an offer from the one player to the other of that kind. |
| `Pending.PendingList.AddPending` | src/pending.c:117-137 | The new offer comes first, and both counts stay exact. |
| `Pending.PendingList.Discount` | src/pending.c:70-107 | The counts stay exact for the list without the offer. |
| `Pending.PendingList.Unlink` | src/pending.c:70-107 | The node is taken out of the linked list, the order of the others stays, and the one behind it is returned. |
| `Pending.PendingList.DeletePending` | src/pending.c:70-107 | The offer is gone, nothing else, and both players' counts are exact again. |
| `Pending.PendingList.PointlessIsRight` | src/pending.c:155-163 | When the counts say a search is pointless, no offer matches. |
| `Pending.PendingList.FindPend` | src/pending.c:153-170 | Returns the first match of the whole list, early exit or not. |
| `Pending.PendingList.AddRequest` | src/pending.c:172-187 | Returns the offer that was there, or puts a new one in front. |
| `Pending.PendingList.Sweep` | src/pending.c:189-200 | A pass that deletes while it walks leaves the offers that fail the test, in order. |
| `Pending.PendingList.RemoveRequest` | src/pending.c:189-200 | Exactly the matching offers go. |
| `Pending.PendingList.NothingToDoIsRight` | src/pending.c:203-225 | When the counts say there is nothing to do, no offer is affected. |
| `Pending.PendingList.DoDeclineWithdrawOffers` | src/pending.c:203-310 | Exactly the affected offers go, early exit or not. |
| `Pending.PendingList.DeclineWithdrawOffers` | src/pending.c:313-327 | The offers of the partner's match go first, then the player's own. |
| `Pending.PendingList.FindNthPendTo` | src/pending.c:344-355 | For every n in range the walk ends, on the n-th offer to the player. |
| `Pending.PendingList.FindNthPendFrom` | src/pending.c:330-342 | For every n in range the walk ends, on the n-th offer from the player. |
| `Pending.PendingList.PendJoinMatch` | src/pending.c:587-625 | All offers of both players go but partnerships. |
| `Pending.PendingList.PlayerRemove` | src/playerdb.c:198-226 | When a player leaves, no offer mentions him, partnerships with him end, and counts are exact. |
| `Clocks.RefundIsExact` | src/movecheck.c:1036-1086 | A takeback restores both clocks exactly when the stated condition on terms, move number, time taken and time charged since then holds. |
| `Clocks.ThinkingIsLost` | src/movecheck.c:1036-1086 | In a game of no time and 12 seconds a move the other side's thinking before a takeback is not given back: a concrete input. |
| `Clocks.ClocksAddUp` | src/gameproc.c:690-722 | In every game each side has on its clock what it began with and, for every move but its first, the increment, less the time taken if there is a limit. |
| `Clocks.TimedGamesRefund` | src/movecheck.c:1036-1086 | It does for every move from number 2 on in a timed game with equal increments. |
| `Clocks.Game.UpdateTime` | src/gamedb.c:490-510 | However often time is charged within a turn, the mover's clock plus what was charged stays what it was at the start of the turn. |
| `Clocks.Game.PlayMove` | src/gameproc.c:690-722 | The clocks after a move are those at the start of the turn less the time taken plus the increment; on move 1 they stay. |
| `Clocks.Game.Pause` | src/gameproc.c:1004-1014 | Pausing rolls the charges of the turn back: the clocks are those at its start, and time counts from now. |
| `Clocks.Game.Unpause` | src/gameproc.c:1043-1051 | The clocks stay, and time counts from now, so that nothing of the pause is charged. |
| `Clocks.Game.Refund` | src/movecheck.c:1036-1086 | Both clocks after the refund, from those at the start of the turn, for games that begin with time and games that do not. |
| `Clocks.Game.Takeback` | src/movecheck.c:1036-1092 | One move back, with or without time at the beginning: clocks are those of the turn before exactly when the move is refundable; the books then still balance. |
| `Clocks.Game.TakebackMany` | src/gameproc.c:1377-1384 | Taking n moves back restores both clocks of n moves ago when each is refundable. |
| `Bughouse.MoveCounts` | src/movecheck.c:765-849 | A move changes the number of men on board and in hand of each colour only by the man it records as captured, which is never the mover's own. |
| `Bughouse.EnPassantVictim` | src/movecheck.c:789-796 | What an en-passant capture removes is an enemy pawn. |
| `Bughouse.UpdateHolding` | src/board.c:210-225 | One more of that man in the hand of the man's own colour, and nothing else: by colour and kind, `Hands.ReceivedIsCounted`. |
| `Bughouse.TransferCapture` | src/gameproc.c:700-708 | The man captured goes to the linked game, as itself, or as a pawn if the walk says so (`Reversion.ReversionIsExact` tells when that is right, `Hands.ReceivedIsCounted` what arrives), and only if the game goes on. |
| `Bughouse.TurnConserves` | src/gameproc.c:693-708 | A turn keeps the men of each colour on both boards and in both hands, except that a move that ends the game loses the man it takes. |
| `Bughouse.MatchConserves` | src/gameproc.c:693-708 | Over every run of turns on both boards, totals are constant while neither game has ended, both positions stay sound and no hand goes negative. |
| `Hands.ReceivedIsCounted` | src/board.c:210-225 | A man handed over is one more of its own colour and kind in hand; the other nine counts stay. |
| `Hands.ReceivedCanBeDropped` | src/board.c:210-225 | It can then be dropped on exactly the empty squares, a pawn on those off the edge ranks. |
| `Hands.DropByTheRules` | src/movecheck.c:523-531 | A man may be dropped exactly when there is one of it in hand and the square is empty, and for a pawn off the edge ranks. |
| `Hands.DroppedIsCounted` | src/movecheck.c:769-775 | A drop takes one of that man from the mover's hand and nothing else. |
| `Hands.MoveKeepsKinds` | src/movecheck.c:765-849 | A move changes the men of each colour and kind, on board and in hand, only by what it records as captured and by a promotion. |
| `Hands.TurnKeepsKinds` | src/gameproc.c:693-708 | A turn changes the men of each colour and kind on both boards and in both hands only by a promotion, by handing over a man as what it is not, and by ending the game. |
| `Hands.MatchKeepsKinds` | src/gameproc.c:693-708 | In a match of turns that promote nothing and hand over what they take, there are always as many men of each colour and kind as in the beginning, while neither game has ended. |
| `Reversion.ChoiceLeads` | src/movecheck.c:765-846 | Where a man stands after an accepted move, it was a man of its side where the move says it was before. |
| `Reversion.TrailTells` | src/gameproc.c:468-486 | Whether a man has come from a promotion, tracked with the men themselves, is what its trail of moves tells. |
| `Reversion.WalkFollowsTrail` | src/gameproc.c:468-486 | The walk over the records follows that trail, except that at a castled rook it goes on to look for an earlier visitor of its square, and that it never looks at the first record. |
| `Reversion.WalkTakesVisitor` | src/gameproc.c:468-486 | About a rook that has castled the walk answers whether the last man of its side that went to the rook's square, after the first move and before the castling, had been promoted after the first move. |
| `Reversion.CornerTells` | src/gameproc.c:468-486 | Whether a rook that has castled came from a promotion is what its trail to the corner tells, which passes no castling. |
| `Reversion.WalkIsExact` | src/gameproc.c:468-486 | The walk answers whether the man came from a promotion if and only if its trail is seen through: it does not end in a promotion by the very first move; and where it ends in a castling, the trail of the last visitor of the rook's square ends in a promotion after the first move just when the trail of the rook to its corner ends in a promotion. |
| `Reversion.OnlyCastledRooksMislead` | src/gameproc.c:468-486 | In a game that began with no pawn a step from its last rank, the walk is right about every man but rooks that have castled. |
| `Reversion.UnvisitedIsUnpromoted` | src/gameproc.c:468-486 | If no man of the side ever went to the square, a castled rook there is not taken for promoted. |
| `Reversion.ReversionIsExact` | src/gameproc.c:700-708 | A captured man is handed over as what it was before promotion if and only if it is a pawn or its trail is seen through. |
| `Reversion.CastlingMovesKing` | src/movecheck.c:259-299 | A king takes a rook along only if it has not moved, and then it has: in a game without takebacks a side castles at most once. |
| `Reversion.PlayIsRemembered` | src/gameproc.c:693-708 | In every game from a sound start, men received included, the list tells of steps that led to where it stands. |
| `Reversion.MatchRemembered` | src/gameproc.c:693-708 | In every match the lists tell of steps that led to the boards, so the exactness holds for every capture. |
| `CastledRook.CastledRookIsMistaken` | src/gameproc.c:468-486 | From the standard start, with a pawn and a knight received: 1. e3 b6 2. Nf3 Nf6 3. P@b7 Ng4 4. bxc8=Q Nxh2 5. Qa6 Nxf1 6. Qxf1 h6 7. Qe2 h5 8. O-O N@g3 9. a3, and now 9... Nxf1 is accepted, hands the rook over as a pawn, and ought to hand over a rook. |
| `Fen.LetterRoundTrip` | src/gamedb.c:771-795 | The letter of a man is read back as the man. |
| `Fen.RankRoundTrip` | src/eco.c:62-131 | A rank with its digits for empty squares is read back. |
| `Fen.RanksRoundTrip` | src/eco.c:62-131 | All ranks with their slashes are read back. |
| `Fen.FenRoundTrip` | src/eco.c:62-132 | Reading the text of a position restores every square and the side to move, whatever was there before. |
| `Fen.FenIsExact` | src/eco.c:101-132 | Two positions have equal texts if and only if board and side to move are equal. |
| `Fen.FenText` | src/board.h:99-99 | The text with its terminator always fits the 74 characters there are. |
| `Fen.FullBoardFillsRoom` | src/board.h:99-99 | And a board without an empty square needs them all. |
| `FenLaws.LettersOfMen` | src/gamedb.c:771-795 | The letters of the men are P, N, B, R, Q and K, capitals for White. |
| `FenLaws.StartIsWritten` | src/eco.c:101-132 | The standard start is written as rnbqkbnr, pppppppp, four times 8, PPPPPPPP and RNBQKBNR with slashes between, and w. |
| `FenMethods.WriteRank` | src/eco.c:101-131 | Writes the text of a rank behind what is in the buffer. |
| `FenMethods.BoardToFen` | src/eco.c:101-132 | Fills the buffer with the text and its terminator. |
| `FenMethods.ReadRankInto` | src/eco.c:62-99 | Reads a rank in place. |
| `FenMethods.FenToBoard` | src/eco.c:62-99 | Reads any text in place; from the text of a position it restores that position. |
| `Directory.CompareFindsPrefix` | src/utils.c:786-786 | The comparison is zero exactly for names that begin with what is wanted. |
| `Directory.BranchesPruned` | src/utils.c:787-794 | The branch a search does not look into holds nothing wanted. |
| `Directory.LessIsLexicographic` | src/utils.c:822-831 | The order of names is the one of dictionaries. |
| `Directory.MatchingIsExact` | src/utils.c:783-796 | Which names are found: those there that begin with what is wanted. |
| `Directory.HitsAreFirstMatches` | src/utils.c:783-796 | The names found are the first so many matches of the sorted names. |
| `Directory.PutBefore` | src/utils.c:822-831 | A name that comes before the node's goes into the left branch, and the whole is the sorted whole with it. |
| `Directory.PutBehind` | src/utils.c:822-831 | Any other goes into the right branch, likewise. |
| `Directory.Node.Insert` | src/utils.c:822-831 | The names of the tree are its sorted names with one more, behind its equals. |
| `Directory.MakeTree` | src/utils.c:810-836 | The tree in order is the sorted listing of the entries that do not begin with a dot. |
| `Directory.ListingIsExact` | src/utils.c:810-836 | The listing is sorted and has every such entry as often as the directory. |
| `Directory.ListingIsUnique` | src/utils.c:810-836 | There is only one such listing. |
| `Directory.Search.SearchTree` | src/utils.c:783-796 | The pruned recursive search, with its shared room, appends what a plain scan of the sorted names would. |
| `Directory.Index.SearchDirectory` | src/utils.c:866-880 | A search returns the first so many names with the prefix in the directory as it is now, cached or read again. |
| `Directory.Directories.SearchDirectory` | src/utils.c:838-881 | The same for any directory, taken up when first asked for; what is kept for the others stays. |
| `Algebraic.CutAt` | src/algcheck.c:75-90 | Cuts the text at the first mark. |
| `Algebraic.MatchForm` | src/algcheck.c:90-140 | Reading a text against a form from the right. |
| `Algebraic.GetMoveInfo` | src/algcheck.c:75-183 | All forms tried: the last that fits counts, and a second one confuses. |
| `Algebraic.MoveInfoInRange` | src/algcheck.c:75-183 | What is read are squares of the board as far as known; a drop has a target. |
| `Algebraic.FormsDisjoint` | src/algcheck.c:57-71 | No text conforms to two forms except a pawn's from a file and a man's. |
| `Algebraic.ConfusionIsTheB` | src/algcheck.c:75-183 | A text is in confusion exactly when, marks cut off, it is a lower-case b going to the a- or c-file, with or without an x. |
| `AlgebraicLaws.LettersNameMen` | src/algcheck.c:126-131 | The letters p, n, b, r, q and k, small or capital, name the men. |
| `AlgebraicLaws.ManTo` | src/algcheck.c:57-183 | A man's letter and a square, as in Nf3, say that man and that square, for every man and every square. |
| `AlgebraicLaws.ManTakesOn` | src/algcheck.c:57-183 | So with an x. |
| `AlgebraicLaws.ManFromFile` | src/algcheck.c:57-183 | And with the file it comes from. |
| `AlgebraicLaws.ManFromFileTakes` | src/algcheck.c:57-183 | Both. |
| `AlgebraicLaws.ManFromRank` | src/algcheck.c:57-183 | And with the rank it comes from. |
| `AlgebraicLaws.ManFromRankTakes` | src/algcheck.c:57-183 | Both. |
| `AlgebraicLaws.PawnTo` | src/algcheck.c:57-183 | A square alone says that a pawn goes there. |
| `AlgebraicLaws.PawnTakesOn` | src/algcheck.c:57-183 | A file and a square on the next file, with an x, say that the pawn of the file takes there. |
| `AlgebraicLaws.PawnGoesFromFile` | src/algcheck.c:57-183 | So without the x. |
| `AlgebraicLaws.PawnTakesFile` | src/algcheck.c:57-183 | Two neighbouring files say that the pawn of the first takes on the second. |
| `AlgebraicLaws.ManDropped` | src/algcheck.c:57-183 | A man's letter, an @ and a square say that it is dropped there. |
| `AlgebraicLaws.PawnIsMeant` | src/algcheck.c:259-287 | A text like e4 means exactly the pawns of the side to move that may go to that square. |
| `AlgebraicLaws.ManIsMeant` | src/algcheck.c:259-287 | A text like Nf3 means exactly the men of the letter that may go to that square. |
| `AlgebraicLaws.FileIsMeant` | src/algcheck.c:259-287 | A text like Ngf3 means exactly those of them on that file. |
| `AlgebraicLaws.RankIsMeant` | src/algcheck.c:259-287 | A text like N1f3 means exactly those of them on that rank. |
| `AlgebraicLaws.TakerIsMeant` | src/algcheck.c:259-287 | A text like exd5 or ed5 means exactly the pawns of the first file that may go to that square. |
| `AlgebraicLaws.FilesAreMeant` | src/algcheck.c:205-242 | A text like ed means exactly the pawns of the first file that may go to the second, on whatever rank. |
| `AlgebraicLaws.TheBIsMeant` | src/algcheck.c:243-258 | A text like bxc4 or bc4 means exactly the bishops that may go there and the pawns of the b-file that may. |
| `Algebraic.IsCandidate` | src/algcheck.c:212-262 | The nested conditions on piece, file, rank and confusion pick exactly the men that suit and may go there. |
| `Algebraic.FindCandidate` | src/algcheck.c:212-270 | The loop over men finds the only candidate, none, or that there are several. |
| `Algebraic.Resolve` | src/algcheck.c:193-285 | The move when exactly one man can be meant, ambiguous when two can, illegal when none can. |
| `Algebraic.ParseMove` | src/algcheck.c:193-296 | The same from the text, for any text; a drop is accepted exactly when it passes the full test; and every move returned passes it. |
| `WildFiles.BoardReadFile` | src/board.c:742-831 | The reader with its running piece, file and colour, as a function of the text. |
| `WildFiles.WhiteStaysToMove` | src/board.c:742-831 | Clearing the board has made it White's turn, and no text changes that. |
| `WildFiles.SquareIsRead` | src/board.c:957-976 | A square written, with or without its man named, is read back onto the board. |
| `WildFiles.RankIsRead` | src/board.c:957-976 | So is a rank. |
| `WildFiles.WildRoundTrip` | src/board.c:742-979 | Reading the file of any set-up rebuilds its board, White to move. |
| `WildFiles.WriteWild` | src/board.c:955-978 | What is written reads back as the same board. |
| `WildLaws.LineIsRead` | src/board.c:742-831 | A line of White or Black with a man's capital, a file and a rank puts that man there, for every man and every square. |
| `WildLaws.ColorsAlternate` | src/board.c:836-836 | Squares that touch along an edge differ in colour, and a1 is black. |
| `WildLaws.BishopKeepsColor` | src/board.c:937-939 | A bishop stays on the colour of its square. |
| `WildLaws.ArrayIsInitial` | src/board.c:866-915 | The men that styles 1 and 2 place are those of the standard start. |
| `WildSetUps.SomeFree` | src/board.c:844-856 | Where not all squares of the colour are taken, one is free, so a draw can succeed. |
| `WildSetUps.PlacePiece` | src/board.c:838-857 | The man goes to some free square of its home rank, of the colour wanted; nothing else changes. |
| `WildSetUps.Style1` | src/board.c:873-900 | Both sides get the initial men, their bishops on opposite colours, and every placing finds a free square. |
| `WildSetUps.Style2` | src/board.c:901-913 | White gets the initial men, Black mirrors them. |
| `WildSetUps.Style3` | src/board.c:914-924 | One king and men drawn at random, Black mirrors them. |
| `WildSetUps.RoomForBishop` | src/board.c:937-939 | Whenever a bishop of Black is dealt, a square of the opposite colour is free. |
| `WildSetUps.RoomForOther` | src/board.c:941-943 | Whenever another man of Black is dealt, a square is free. |
| `WildSetUps.Style4` | src/board.c:925-944 | White has one king among men drawn at random; Black has as many of each kind, and as many bishops on one colour as White on the other. |

## Left out

- Sessions.TakebackRestores: claims squares, turn and move number only; what the code does to the flags, which do not always come back, is the matter of `Sessions.TakebackIsExact` and `Backup.BackupMove`.
- Runs.RunKeepsSound: the en-passant rule is the code's own; how it differs from the law is the matter of `EnPassantRule.EnPassantIsExact`.
- Clocks.Game.PlayMove: one reading of the time per command, and no timeseal; a paused game is turned away before, as in the source.
- Clocks.Game.Pause: only the part after the offer is accepted; the refusals before it are guards.
- Md5.Context.Update: what the buffer holds and the input together are less than 2^32 bytes; from there on the index of the loop wraps round and the loop reads on (`Md5.StopsExactly`).
- Md5.DigestOfChunks: the block transform itself (section 3.4 of RFC 1321) is a parameter.
- FormulaMethods.CheckFormula: integers are unbounded, and division by zero, a floating-point fudge in the code, is any function of the dividend.
- LineReader.Connection.ReadLine: what is received is a parameter and is never more than was asked for; errors of the socket other than "nothing there" are one outcome.
- Directory.Node.Insert: recursive where the code follows a pointer to a pointer in a loop.
- Directory.Directories.SearchDirectory: a map from names to indexes where the code keeps the directories in a search tree; a directory that does not exist is left out.
- Directory.Index.SearchDirectory: a directory is the same as long as its modification time is, which is what the code relies on.
- Pending.PendingList.AddPending: what a match offer says about its terms is not modelled, only who, to whom and of what type.
- Pending.PendingList.PlayerRemove: the games of the player who leaves are ended in between; that touches no offer and no partnership (src/gameproc.c:108-466).
- Algebraic.ParseMove: needs no pawn on an edge rank, which `Runs.RunKeepsSound` gives; reading back what the server itself writes for a move is not claimed, because its abbreviations ignore pins along a line.
- Bughouse.MatchConserves: counts men by colour; by kind see `Hands.TurnKeepsKinds`, and what kind is handed over `Reversion.ReversionIsExact`.
- WildSetUps.PlacePiece: the random draws are any choice among the free squares; that the draws end is a matter of chance.
- WildFiles.BoardReadFile: the file is its text; that it may be missing is left out.
- Sockets, select, databases, translation, prompts, display styles, help, channels and administration commands: plumbing.
- Rating arithmetic, which is floating point, and repetition of positions, whose second comparison looks at records beyond the game.
- Fifty-move rule and flag calls: single guards over counts kept here.
