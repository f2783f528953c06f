# Shogi engine core, modelled in Dafny

This project models the core of a small shogi (Japanese chess) web game. In that game a human plays
sente (the lower side, moving first) against a computer player that plays gote. The model covers six
parts of the game:

- the piece algebra: promotion tables, base kinds and piece values;
- the initial position and copying a position;
- move generation: piece patterns, sliding runs, drops with the double-pawn and dead-square rules,
  forced and optional promotion, check, checkmate and stalemate;
- the computer player: evaluation, minimax with alpha-beta pruning, move ordering, and the move
  choice at the easy, normal and hard levels;
- the board component's game flow: the program's turn, the player's move, the promotion question,
  and the handlers for a click on a square or on a hand piece;
- the play statistics: recording a game, the login streak, the win rate and the comments.

Modules, one file each:

- `types.dfy`, module `PieceTypes`: players, piece kinds, moves, hands (`Captured`), the game state,
  and the promotion and value tables.
- `board.dfy`, module `BoardState`: the 9×9 board as a value, the initial position, the clone
  functions, and piece counting.
- `moves.dfy`, module `Moves`: move generation, described twice.
  - Declarative functions (`RawMoves`, `PieceTargets`, `DropMoves`, `LegalMoves`, `InCheck`, …).
  - Methods with the source's loops (`GetRawMoves`, `GetFilteredLineMoves`, `GetDropMoves`,
    `GetAllLegalMoves`, `IsInCheck`, …), each proved equal to its function.
- `ai.dfy`, module `AI`: evaluation, and the search as a generic alpha-beta over a game
  (`AlphaBeta`) proved against plain minimax. The methods `EvaluatePosition` and `MinimaxSearch`
  carry the source's loops.
- `choice.dfy`, module `Choice`: prioritizeMoves as a stable insertion sort, and the three
  difficulty levels of getAIMove.
- `selection.dfy`, module `Selection`: which squares are highlighted for a picked piece or hand kind,
  and how a click is interpreted (`Click`).
- `gameflow.dfy`, module `GameFlow`: the state change after a move (`Transition`), and the component
  as a class `Session` whose methods are the handlers.
- `stats.dfy`, module `Stats`: the statistics record as a class `PlayerStats`, the win rate, the
  streak rules and the comment choice.

Positions are values. The source clones the board and the hands before changing them, so no caller
ever sees a board change. The component state and the statistics record are changed in place, so
they are classes.

## Model

| member | source | states |
|---|---|---|
| PieceTypes.UnpromoteMap | src/lib/types.ts:93-100 | promoting the base kind that UNPROMOTE_MAP gives back yields the promoted kind again |
| PieceTypes.PieceValue | src/lib/types.ts:102-117 | every value is at most 13; the king is worth 0 |
| PieceTypes.BaseType | src/lib/types.ts:127-130 | a base kind is its own base; a promoted kind's base is the kind that promotes to it |
| PieceTypes.Promote | src/lib/types.ts:83-90 | promoting a promotable kind gives a promoted kind with the same base |
| PieceTypes.WithHand | src/lib/types.ts:48 | the hand of the given player is replaced |
| PieceTypes.PromotionTablesInverse | src/lib/types.ts:83-100 | PROMOTE_MAP and UNPROMOTE_MAP are inverse tables |
| PieceTypes.PromoteMapOnlyOnBaseKinds | src/lib/types.ts:83-90 | only base kinds promote, and unpromoting undoes it |
| PieceTypes.CanPromoteExactly | src/lib/types.ts:123-125 | exactly the rook, bishop, silver, knight, lance and pawn can promote |
| PieceTypes.IsPromotedMatchesNameTest | src/lib/types.ts:119-121 | the name test ("starts with p, is not pawn") holds exactly for promoted kinds |
| PieceTypes.NameInjective | src/lib/types.ts:5-23 | distinct kinds have distinct names |
| PieceTypes.BaseTypeOfPromotion | src/lib/types.ts:127-130 | promotion keeps the base kind, and baseType is idempotent |
| PieceTypes.PromotionNeverLosesValue | src/lib/types.ts:102-117 | a promoted piece is worth at least its unpromoted kind |
| PieceTypes.CountOfEntry | src/lib/types.ts:48 | in a hand with distinct keys, the count looked up for an entry's kind is that entry's count |
| PieceTypes.DistinctHandAtMostEight | src/lib/types.ts:48 | a hand whose keys are distinct has at most eight entries, one per base kind |
| PieceTypes.CountAbsent | src/lib/types.ts:48 | a kind with no entry counts as 0, the lookup's default |
| BoardState.SetSquareAt | src/lib/moves.ts:245 | writing one square changes that square only |
| BoardState.EmptyBoard | src/lib/board.ts:5 | every square of the fresh board is empty |
| BoardState.InitialBoard | src/lib/board.ts:4-46 | every square holds the piece of the standard opening set-up |
| BoardState.CreateInitialBoard | src/lib/board.ts:4-46 | the method that fills the board square by square builds exactly the initial board |
| BoardState.SameBoard | src/lib/board.ts:66-68 | boards that agree on all 81 squares are equal |
| BoardState.CreateInitialCaptured | src/lib/board.ts:48-53 | both hands start empty |
| BoardState.CreateInitialGameState | src/lib/board.ts:55-64 | the initial board, sente to move, no history, status playing, no winner, empty hands |
| BoardState.CloneBoard | src/lib/board.ts:66-68 | the copy equals the original |
| BoardState.CloneHand | src/lib/board.ts:70-75 | the copy of one hand equals the original |
| BoardState.CloneCaptured | src/lib/board.ts:70-75 | the copy of both hands equals the original |
| BoardState.CloneGameState | src/lib/board.ts:77-86 | the copy of the game equals the original |
| BoardState.BoardCountUpdate | src/lib/moves.ts:242-268 | writing a square changes the count of a kind by what leaves and what arrives |
| BoardState.InitialBoardTotals | src/lib/board.ts:4-46 | the initial board holds the standard count of each kind (9 pawns a side, …) |
| BoardState.InitialKings | src/lib/board.ts:13 | each side has exactly one king at the start, gote's on (0,4) and sente's on (8,4) |
| BoardState.InitialPointSymmetry | src/lib/board.ts:4-46 | the opening set-up is point-symmetric, with the owners swapped |
| BoardState.InitialCamps | src/lib/board.ts:4-46 | rows 3–5 are empty, rows 0, 2, 6 and 8 are full, gote owns rows 0–2 and every piece is unpromoted |
| Moves.Opponent | src/lib/moves.ts:8 | the opponent is the other player |
| Moves.RawMovesOnBoard | src/lib/moves.ts:18-83 | getRawMoves never lists a square off the board |
| Moves.OpenRaysOnBoard | src/lib/moves.ts:85-96 | addLineMoves only adds squares on the board |
| Moves.RayIsRun | src/lib/moves.ts:142-154 | a slide runs over empty squares, ends with an enemy piece it may capture, and stops at the edge, at an own piece or after eight steps |
| Moves.RunStaysOnSide | src/lib/moves.ts:142-154 | a run never turns back against its direction |
| Moves.KeepEnterableExactly | src/lib/moves.ts:159-167 | the non-slide filter keeps exactly the squares that are empty or hold an enemy piece |
| Moves.PieceTargetsEnterable | src/lib/moves.ts:99-157 | every destination is on the board and not held by the mover |
| Moves.PieceMovesSound | src/lib/moves.ts:170-176 | getPieceMoves gives nothing for an empty square or an enemy piece, and otherwise only enterable squares |
| Moves.RookRunStopsAtEnemy | src/lib/moves.ts:142-154 | a rook's run to the right stops on the enemy it captures and does not reach the square behind it |
| Moves.CanPromoteMoveExactly | src/lib/moves.ts:179-188 | promotion is possible exactly for the six promotable kinds when the origin or the destination is in the promotion zone |
| Moves.MustPromoteImpliesCanPromote | src/lib/moves.ts:179-200 | a forced promotion is always a possible one |
| Moves.ForcedPromotionIsDeadSquare | src/lib/moves.ts:191-200 | promotion is forced exactly where the pawn, lance or knight would have no move left |
| Moves.SetCount | src/lib/moves.ts:251 | the hand update sets the count of one kind and leaves the others |
| Moves.Delete | src/lib/moves.ts:265-267 | deleting a key zeroes its count and leaves the others |
| Moves.SetCountKeepsDistinct | src/lib/moves.ts:251 | setting a count keeps a hand's keys distinct and adds no key but the one set |
| Moves.DeleteKeepsDistinct | src/lib/moves.ts:265-267 | deleting a key keeps a hand's keys distinct and adds no key |
| Moves.ApplyBoardMoveEffect | src/lib/moves.ts:242-259 | a board move empties the origin, puts the (possibly promoted) piece on the target, and puts the captured piece's base kind in the mover's hand; nothing else changes |
| Moves.ApplyDropEffect | src/lib/moves.ts:260-268 | a drop places the piece, takes one from the hand (deleting the key at 0), and changes nothing else |
| Moves.ApplyConserves | src/lib/moves.ts:236-271 | a move or a drop from a held kind onto an empty square keeps every piece count, board plus hands |
| Moves.ApplyKeepsDistinct | src/lib/moves.ts:236-271 | a move or a drop keeps the keys of both hands distinct, as the program's records keep them |
| Moves.BoardMoveCount | src/lib/moves.ts:242-259 | in a board move, the board loses exactly what the mover's hand gains |
| Moves.DropMovesSound | src/lib/moves.ts:283-310 | every listed drop is onto an empty square, of a kind held, and passes the double-pawn and dead-square rules |
| Moves.DropListed | src/lib/moves.ts:283-310 | every such drop is listed |
| Moves.CandidatesSound | src/lib/moves.ts:313-344 | every candidate is a pseudo-legal board move or an allowed drop, and applyMove can play it |
| Moves.ExpandChoices | src/lib/moves.ts:325-337 | the promoting move is listed iff promotion is possible, and the non-promoting one iff it is not forced |
| Moves.BoardMoveListed | src/lib/moves.ts:317-340 | every pseudo-legal board move is generated by the board scan |
| Moves.FilterSound | src/lib/moves.ts:347-350 | the filter keeps only elements that pass the test |
| Moves.FilterComplete | src/lib/moves.ts:347-350 | the filter keeps every element that passes the test |
| Moves.LegalMoves | src/lib/moves.ts:313-351 | every legal move can be applied |
| Moves.LegalMoveSound | src/lib/moves.ts:313-351 | a legal move is a pseudo-legal board move or an allowed drop, and never leaves the mover's king attacked |
| Moves.LegalMoveComplete | src/lib/moves.ts:313-351 | every pseudo-legal move that leaves the king safe is legal |
| Moves.LegalMoveConserves | src/lib/moves.ts:313-351 | a legal move keeps every piece count, board plus hands |
| Moves.NoMoveOutcome | src/lib/moves.ts:354-363 | checkmate and stalemate exclude each other, and together they are exactly "no legal move" |
| Moves.KingPosFirst | src/lib/moves.ts:203-213 | findKing returns the first king in row-major order, and null exactly when there is none |
| Moves.AttackerFromExactly | src/lib/moves.ts:221-232 | the scan finds an attacker exactly when one stands at or after the start square |
| Moves.InCheckByScan | src/lib/moves.ts:216-233 | isInCheck's scan decides the check predicate |
| Moves.NoKingNoCheck | src/lib/moves.ts:218 | a side without a king is never in check |
| Moves.AddLineMoves | src/lib/moves.ts:85-96 | appends the open rays of every direction, in order |
| Moves.AddLine | src/lib/moves.ts:88-94 | the inner loop appends one open ray of at most eight squares |
| Moves.AddSteps | src/lib/moves.ts:18-83 | the add() calls append exactly the on-board squares of an offset table |
| Moves.GetRawMoves | src/lib/moves.ts:18-83 | the method computes exactly the raw pattern of the kind |
| Moves.GetNonSlideMoves | src/lib/moves.ts:159-167 | the method computes the filtered pattern |
| Moves.AddEnterableSteps | src/lib/moves.ts:112-127 | the dragon's and horse's single steps are appended when enterable |
| Moves.AddRays | src/lib/moves.ts:142-154 | the sliding loop appends the runs of all directions |
| Moves.AddRay | src/lib/moves.ts:143-153 | one direction's loop appends exactly its run |
| Moves.GetFilteredLineMoves | src/lib/moves.ts:99-157 | the method computes exactly the piece's targets |
| Moves.GetPieceMoves | src/lib/moves.ts:170-176 | the method computes exactly getPieceMoves |
| Moves.FindKing | src/lib/moves.ts:203-213 | the scan returns the first king (see KingPosFirst) |
| Moves.IsInCheck | src/lib/moves.ts:216-233 | the method decides check |
| Moves.ScanAttackers | src/lib/moves.ts:221-232 | the two loops decide whether some piece attacks the target |
| Moves.RowAttacks | src/lib/moves.ts:222-230 | one row of the scan: found means an attacker; not found means none in that row |
| Moves.ApplyMove | src/lib/moves.ts:236-271 | the method computes exactly the position after the move |
| Moves.HasPawnInColumn | src/lib/moves.ts:274-280 | the method finds an unpromoted own pawn in the column iff there is one |
| Moves.GetDropMoves | src/lib/moves.ts:283-310 | the method lists exactly the drops, key by key, in row-major order |
| Moves.AddDropsOfKeys | src/lib/moves.ts:287-308 | the loop over the hand's keys lists the drops of every key in order |
| Moves.AddDropsOfKey | src/lib/moves.ts:288 | a key with a count that is not positive adds nothing |
| Moves.AddDropsOfKind | src/lib/moves.ts:290-307 | the two square loops add the drops of one kind |
| Moves.AddDropsInRow | src/lib/moves.ts:291-306 | the inner loop adds one row's drops |
| Moves.AddDropAt | src/lib/moves.ts:292-305 | one square is added iff it is empty, not a second pawn in the column, and not a dead square |
| Moves.GetAllLegalMoves | src/lib/moves.ts:313-351 | the method computes exactly the legal list, in order |
| Moves.GetBoardMoves | src/lib/moves.ts:317-340 | the board scan row by row |
| Moves.AddBoardRow | src/lib/moves.ts:318-339 | one row of the board scan |
| Moves.AddSquareMoves | src/lib/moves.ts:319-338 | one square: nothing for an empty square or an enemy piece |
| Moves.AddExpanded | src/lib/moves.ts:323-338 | the loop over one piece's destinations |
| Moves.AddMovesTo | src/lib/moves.ts:324-337 | one destination gives the promoted and/or the plain move |
| Moves.KeepUnchecked | src/lib/moves.ts:347-350 | the final filter keeps the moves that leave no check |
| Moves.KeepIfSafe | src/lib/moves.ts:348-349 | one move is kept iff the mover is not in check after it |
| Moves.IsCheckmate | src/lib/moves.ts:354-357 | the method decides checkmate: in check and no legal move |
| Moves.IsStalemate | src/lib/moves.ts:360-363 | the method decides stalemate: not in check and no legal move |
| AI.BoardScoreSplit | src/lib/ai.ts:14-31 | the board term is ten times own material minus enemy material, plus the advancement of own pieces only |
| AI.EvaluateZeroSum | src/lib/ai.ts:10-46 | the evaluations of the two sides cancel, except for the two advancement bonuses and the two check bonuses |
| AI.BoardScoreBound | src/lib/ai.ts:14-31 | each square adds at most 138 tenths to the board term (the dearest piece and the largest advancement) |
| AI.SetCountWorth | src/lib/ai.ts:34-36 | setting a kind's count changes the hand's worth by nine tenths of the value of the pieces gained or lost |
| AI.DeleteWorth | src/lib/ai.ts:34-36 | deleting a key never adds to the hand's worth |
| AI.BoardMoveHandWorth | src/lib/moves.ts:247-252 | a board move adds at most nine tenths of a rook to the mover's hand worth |
| AI.DropHandWorth | src/lib/moves.ts:260-267 | a drop never adds to the mover's hand worth |
| AI.ApplyHandWorth | src/lib/moves.ts:236-271 | any move adds at most nine tenths of a rook to the mover's hand worth |
| AI.ApplyKeepsOtherHand | src/lib/moves.ts:236-271 | a move leaves the hand of the side not moving as it was |
| AI.HandWorthBound | src/lib/ai.ts:34-36 | a hand whose entries hold at most 18 pieces each is worth at most 1620 tenths per entry |
| AI.StandardHandWorth | src/lib/ai.ts:34-36 | with the standard forty pieces in play and distinct keys, a hand is worth at most 12960 tenths |
| AI.EvaluateBound | src/lib/ai.ts:10-46 | the evaluation is at most 11208 tenths plus the worth of the side's own hand |
| AI.EvaluatePosition | src/lib/ai.ts:10-46 | the loops compute exactly the evaluation (×10) |
| AI.AddRowScore | src/lib/ai.ts:15-30 | one row of the board loop |
| AI.HandTotal | src/lib/ai.ts:34-36 | one hand loop adds nine tenths of the hand's value |
| AI.AlphaBetaCases | src/lib/ai.ts:59-92 | the search's four cases: depth 0, no move, maximizing, minimizing |
| AI.AlphaBetaIsMinimax | src/lib/ai.ts:49-93 | with the window (−∞, +∞) the pruned search returns the minimax value |
| AI.AlphaBetaWindow | src/lib/ai.ts:49-93 | inside any window, the pruned search agrees with minimax once both are clamped to the window |
| AI.MaxLoopWindow | src/lib/ai.ts:72-81 | the maximizing loop with its cut-off agrees with the full maximum inside the window |
| AI.MinLoopWindow | src/lib/ai.ts:82-92 | the minimizing loop with its cut-off agrees with the full minimum inside the window |
| AI.ChildrenOf | src/lib/ai.ts:74-76 | the j-th child is the position after the j-th legal move |
| AI.ShogiStuck | src/lib/ai.ts:65-70 | a side without moves scores the mate score if mated, else 0 |
| AI.OnePlyBound | src/lib/ai.ts:59-81 | one ply above the depth limit, with the program to move, the value is at most 11298 plus its hand's worth |
| AI.ReplyBound | src/lib/ai.ts:63-92 | two plies above the depth limit, with the opponent to move and not mated, the value is at most 11298 plus the program's hand worth |
| AI.NonMateValue | src/lib/ai.ts:142-146 | a move that does not mate is worth at most 11388 plus the mover's hand worth two plies on |
| AI.MateValue | src/lib/ai.ts:65-68 | a mating move is worth the mate score two plies on, 99980 tenths |
| AI.StuckScore | src/lib/ai.ts:65-70 | the method computes that score |
| AI.MinimaxSearch | src/lib/ai.ts:49-93 | minimax computes exactly the alpha-beta value of the shogi game from the program's side |
| AI.SearchNode | src/lib/ai.ts:58-93 | the body of minimax |
| AI.SearchChild | src/lib/ai.ts:75-76 | one recursive call, on the position after the move |
| AI.MaxSearch | src/lib/ai.ts:72-81 | the maximizing loop with its cut-off |
| AI.MinSearch | src/lib/ai.ts:82-92 | the minimizing loop with its cut-off |
| AI.MaxCut | src/lib/ai.ts:79 | at a beta cut-off the value is at or above beta, and so is minimax |
| AI.MinCut | src/lib/ai.ts:89 | at an alpha cut-off the value is at or below alpha, and so is minimax |
| Choice.Insert | src/lib/ai.ts:158-167 | one insertion step of the stable sort adds exactly one move (its effect on the order: InsertPerm, InsertSorted, InsertOfKey) |
| Choice.InsertPerm | src/lib/ai.ts:158-167 | inserting adds exactly that move to the multiset |
| Choice.InsertSorted | src/lib/ai.ts:158-167 | inserting into a descending list keeps it descending |
| Choice.InsertOfKey | src/lib/ai.ts:158-167 | inserting appends the move to the moves of its key and leaves the other keys' moves alone |
| Choice.Prioritize | src/lib/ai.ts:158-167 | the sorted list has as many moves as the input (that it is the stable descending sort: PrioritizeSorts) |
| Choice.PrioritizeSorts | src/lib/ai.ts:158-167 | prioritizeMoves returns a permutation sorted by descending key, stable: moves of equal key keep their order |
| Choice.Limited | src/lib/ai.ts:137 | the hard level searches only moves of the list it is given (its size and what it keeps: LimitedKeepsBest) |
| Choice.LimitedKeepsBest | src/lib/ai.ts:137 | at most 30 moves are searched, and a move left out has no larger key than any move kept |
| Choice.PickIndex | src/lib/ai.ts:108 | Math.floor(r·n) is an index below n |
| Choice.PickIndexInterval | src/lib/ai.ts:108 | index j is picked exactly by the draws in [j/n, (j+1)/n) |
| Choice.MaxPrefix | src/lib/ai.ts:112-131 | the best score is at least every score (and is one of them: MaxPrefixAttained) |
| Choice.MaxPrefixAttained | src/lib/ai.ts:112-131 | the best score is one of the scores |
| Choice.TiedMembers | src/lib/ai.ts:125-130 | a move is among the tied ones iff its score is the given value |
| Choice.LeadersAreTop | src/lib/ai.ts:112-131 | the normal level's loop keeps exactly the moves of the highest score, in order, and at least one |
| Choice.FirstBest | src/lib/ai.ts:139-151 | the hard level's loop yields the initial best index or one it has reached (that it is the first maximum: FirstBestIsFirstMax) |
| Choice.FirstBestIsFirstMax | src/lib/ai.ts:139-151 | the hard level's loop picks the first move of the highest score |
| Choice.NormalScores | src/lib/ai.ts:114-124 | one score per move |
| Choice.HardScores | src/lib/ai.ts:142-146 | one score per searched move |
| Choice.Pick | src/lib/ai.ts:112-132 | the normal level's pick is one of the moves (that it has the highest score: PickIsTop) |
| Choice.PickIsTop | src/lib/ai.ts:112-132 | the normal level's pick has the highest score |
| Choice.HardChoice | src/lib/ai.ts:134-153 | the hard level's pick is one of the moves (that it is the first of the best: HardChoiceIsBest) |
| Choice.AIMoveIsLegal | src/lib/ai.ts:96-155 | the program returns null exactly when it has no legal move, and otherwise a legal move |
| Choice.EasyIsUniform | src/lib/ai.ts:106-109 | the easy level picks the j-th legal move for draws in [j/n, (j+1)/n), so each move has the same chance |
| Choice.NormalScoreBelowMate | src/lib/ai.ts:115-123 | a normal-level score reaches 1000 exactly when the move mates |
| Choice.NormalPrefersMate | src/lib/ai.ts:110-133 | when some legal move mates, the normal level plays a mating move |
| Choice.HardChoiceIsBest | src/lib/ai.ts:134-153 | the hard level plays the first searched move of the highest two-ply minimax value |
| Choice.HardScoreOfMate | src/lib/ai.ts:142-146 | in a position holding the standard set with distinct hand keys, a searched move scores 99980 when it mates and at most 24348 otherwise |
| Choice.HardChoiceMates | src/lib/ai.ts:134-153 | in such a position, when a searched move mates, the hard level's pick mates |
| Choice.HardPrefersMate | src/lib/ai.ts:134-153 | in such a position, when a mating move is among the legal moves searched, the hard level plays a mating move |
| Choice.GetAIMove | src/lib/ai.ts:96-155 | the method computes exactly the choice of the level |
| Choice.ScoreMove | src/lib/ai.ts:115-123 | the method computes one move's normal-level score |
| Choice.BonusOf | src/lib/ai.ts:121-123 | the check and mate bonus of a move |
| Choice.NormalMove | src/lib/ai.ts:112-132 | the normal level's loop and final draw compute the pick |
| Choice.HardScore | src/lib/ai.ts:143-146 | one move's two-ply search with the full window |
| Choice.HardMove | src/lib/ai.ts:139-152 | the hard level's loop keeps the first move of the highest value |
| Selection.PromotionFor | src/components/ShogiBoard.tsx:160-174 | promotion is forced iff mustPromote holds, asked iff possible and not forced, and skipped iff impossible |
| Selection.HighlightsExactly | src/components/ShogiBoard.tsx:198-205 | a square is shown for a picked piece iff some legal move goes there from it |
| Selection.DropTargetsExactly | src/components/ShogiBoard.tsx:218-221 | a square is shown for a picked hand kind iff dropping that kind there is legal |
| Selection.Click | src/components/ShogiBoard.tsx:121-207 | a click is ignored while the program thinks, off turn or after the game ends, and on an occupied square with a hand kind picked; it plays only to a shown square; it selects only an own piece |
| Selection.ClickPlaysLegal | src/components/ShogiBoard.tsx:121-207 | with the shown squares up to date, a move a click plays is legal, and a move it offers for promotion is legal promoted or unpromoted |
| Selection.PieceHighlights | src/components/ShogiBoard.tsx:200-205 | the targets computed for a picked piece are its highlights |
| Selection.DropHighlights | src/components/ShogiBoard.tsx:219-221 | the targets computed for a picked hand kind are its drop targets |
| GameFlow.StatusAfterMeaning | src/components/ShogiBoard.tsx:61-74 | the status chain sets checkmate, stalemate, check or playing exactly when each holds |
| GameFlow.TransitionEffect | src/components/ShogiBoard.tsx:53-74 | a move passes the turn, appends exactly itself to the history, installs applyMove's position, and sets the winner only on checkmate, to the mover |
| GameFlow.TransitionConserves | src/components/ShogiBoard.tsx:83-105 | a legal move keeps every piece count |
| GameFlow.InitialIsStandard | src/lib/board.ts:48-64 | the opening position holds the standard forty pieces with empty hands |
| GameFlow.TransitionKeepsStandard | src/components/ShogiBoard.tsx:83-90 | every legal move keeps the standard set and distinct hand keys, so every game from the opening meets the hard level's mate hypotheses |
| GameFlow.TransitionContinues | src/components/ShogiBoard.tsx:115-117 | after a move the game goes on exactly when the side to move has a move |
| GameFlow.ClickListed | src/components/ShogiBoard.tsx:148-176 | a played or offered click move is listed as legal |
| GameFlow.NextStatus | src/components/ShogiBoard.tsx:93-105 | the status chain computes the status of the side to move |
| GameFlow.Advance | src/components/ShogiBoard.tsx:84-105 | clone, apply, pass the turn, record the move and set the status: the transition |
| GameFlow.ChooseAIMove | src/components/ShogiBoard.tsx:47 | the program's choice, applicable when present |
| GameFlow.ShowPiece | src/components/ShogiBoard.tsx:199-205 | the shown squares for a picked piece |
| GameFlow.ShowDrop | src/components/ShogiBoard.tsx:219-221 | the shown squares for a picked hand kind |
| GameFlow.Session.constructor | src/components/ShogiBoard.tsx:22-35 | the initial game, nothing picked, shown or asked, and not thinking |
| GameFlow.Session.Reset | src/components/ShogiBoard.tsx:225-234 | a fresh game, nothing picked, shown or asked, and not thinking |
| GameFlow.Session.BeginAITurn | src/components/ShogiBoard.tsx:38-42 | the program starts thinking exactly when the game is live and it is its turn; nothing else changes |
| GameFlow.Session.CompleteAITurn | src/components/ShogiBoard.tsx:46-79 | the program plays its choice of the level, with the transition and the last move, or only stops thinking when it has none |
| GameFlow.Session.ExecutePlayerMove | src/components/ShogiBoard.tsx:83-118 | the move is played with the given promotion flag; the last move, selection, shown squares and question are cleared; the program's turn follows iff the game goes on |
| GameFlow.Session.ChoosePromotion | src/components/ShogiBoard.tsx:168-171 | the answer to the question plays the pending move with that flag; the last move becomes its two squares, the picks and the question are cleared, the program is not yet thinking, and its turn follows exactly when the game goes on |
| GameFlow.Session.CapturedClick | src/components/ShogiBoard.tsx:210-222 | outside the guards the hand kind is picked and its drop targets are shown; inside them nothing changes |
| GameFlow.Session.CellClick | src/components/ShogiBoard.tsx:121-207 | the handler carries out the effect `Click` assigns; what it plays is a legal move, and the state is kept consistent |
| Stats.DifficultyStats.With | src/lib/stats.ts:99-103 | one difficulty's record is replaced, the others are kept, and the totals move by the change |
| Stats.WinRate | src/lib/stats.ts:136-140 | 0 with no decided game; otherwise the percentage of wins rounded to the nearest whole number (halves up), between 0 and 100 |
| Stats.RateBounds | src/lib/stats.ts:136-140 | the rounding bounds of the win rate |
| Stats.RoundedOrder | src/lib/stats.ts:139 | rounding keeps the order of two win fractions |
| Stats.WinRateMonotone | src/lib/stats.ts:136-140 | one more win never lowers the rate, and one more loss never raises it |
| Stats.LoginStreakComment | src/lib/stats.ts:142-147 | no comment below 3 days; the 3-day tier (naming the count) up to 6, the weekly tier from 7 and the monthly tier from 30 |
| Stats.StreakStep | src/lib/stats.ts:120-131 | the same day keeps the streak, the next day extends it, a gap resets it to 1, and an earlier date keeps it |
| Stats.DailyLogins | src/lib/stats.ts:112-134 | coming back on each of the next n days raises the streak by n |
| Stats.LoginsPositive | src/lib/stats.ts:112-134 | the streak never drops below one day |
| Stats.PlayerStats.constructor | src/lib/stats.ts:26-48 | the default record: all counters zero, every date today, a one-day login streak |
| Stats.PlayerStats.RecordGame | src/lib/stats.ts:73-110 | one more game; moves, hints and undos added; dates set; the outcome scored; the record stays consistent |
| Stats.PlayerStats.Score | src/lib/stats.ts:93-107 | a win adds a win and extends the streak (and the best streak); a loss adds a loss and resets the streak; a draw adds a draw only |
| Stats.PlayerStats.UpdateLoginStreak | src/lib/stats.ts:112-134 | the streak takes its next value, today becomes the last login, and nothing else changes |
| Stats.PlayerStats.Comment | src/lib/stats.ts:149-190 | the comment is the first one in the fixed order whose condition holds |

## Left out

- Floating point.
  - Evaluation and mate scores are kept exactly, multiplied by ten. Otherwise the 0.1 advancement
    bonus and the 0.9 hand factor would not be whole numbers.
  - The normal level's scores are exact reals.
  - The source adds these up in binary floating point. Sums that are equal here can differ slightly
    there, which can change which of two tied moves is kept.
- Stats.WinRate: rounds the exact fraction. The source rounds `wins / total * 100` in floating
  point, which can differ by one at exact halves.
- Math.random is a parameter `rand: nat -> real`, whose i-th value is the i-th draw, in [0, 1).
- Messages, rendering and animation are left out. The 300 ms and 100 ms timers are left out too:
  doAITurn is split at its timer into `BeginAITurn` and `CompleteAITurn`.
  `ExecutePlayerMove` reports whether the program's turn is scheduled rather than starting it.
- GameFlow.Session.CompleteAITurn: returns the move it played as a result, which the source does
  not.
- GameFlow.Session.CompleteAITurn: plays on the session's current game. The source's timer plays on
  the game captured when it was scheduled. The two differ only if a reset happens in between, and
  that race is not modelled.
- GameFlow.Session.ExecutePlayerMove: requires the move to be applicable and the program not to be
  thinking. Both hold at every call site in the handlers.
- GameFlow.Session.CellClick: a click while the promotion question is open is handled like any
  other click. The dialog that covers the board is not modelled.
- Loading and saving the statistics are not modelled: getStats, saveStats, the localStorage key and
  the migration of old records. The record is an object that starts from the defaults.
  - Dates are day numbers rather than ISO strings.
  - The day difference of updateLoginStreak is the difference of day numbers. Math.round on
    milliseconds gives the same result for whole days.
- The comment texts are replaced by tags (`StreakNote`, `StatsNote`). The localised strings are not
  modelled.
- The display tables (piece characters) are not modelled, and neither are the parts of the
  component that only draw.
- Hands are association lists in key-insertion order, because that order fixes the order of the
  drop moves.
  - `Count` reads the first entry of a kind.
  - AI.HandTotal: sums every entry, which agrees with `Count` for the hands the program builds,
    whose keys are distinct (`ApplyKeepsDistinct`).
- The gate counters (`Moved`, `ShowsFor`, `Picked`, `Listed` and the session's `gate`) are proof
  devices with no counterpart in the source. Each predicate holds exactly when its fact holds (the
  `…Is` and `…By` lemmas).
- The engine itself does not forbid checkmating by a pawn drop (uchifuzume) or repetition
  (sennichite). The model follows the engine and does not add them.
- The hard level's comment says depth 3. The call searches two further plies after the candidate
  move, and the model follows the call.
- With more than 30 legal moves the hard level searches only the first 30 in priority order
  (src/lib/ai.ts:137), so a mating move outside them is missed. `LimitedKeepsBest` states what is
  kept. `HardPrefersMate` proves that a mating move among the searched ones is played in every
  position that holds the standard forty pieces with distinct hand keys. `InitialIsStandard` and
  `TransitionKeepsStandard` show that every position reached by legal moves from the opening is
  such a position.
