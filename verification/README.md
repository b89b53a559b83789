# Rollerball engine: a verified model

This project models a Rollerball chess engine: the redundant, mutable board with its move
generators, the cancellable alpha-beta search on that board, the text of moves, the go/stop
protocol between the message thread and the search thread, and the byte queue below the
connection.

* `Geometry`, `Rules`, `Symmetry`, `RuleFacts`: the 7x7 ring, its four turns, and the rules of the
  game for all four sides at once, on a partial map from squares to pieces.
* `Rulebook`: what each piece reaches and what a move does, by coordinates and bits alone.
* `Bytes`, `Generators`, `BishopGenerator`, `Generation`, `Legality`: the generators as the engine
  has them, for the bottom side only, and the way through tables and rotated arrays.
* `BoardData` (module `Boards`), `BoardFacts`, `UndoFacts`, `Residue`, `Initial`, `Openings`, `Board`
  (module `BoardClass`), `Runs`, `Pawns`: twelve slots and four arrays updated in place, against a record,
  against the simple form; then whole runs.
* `GameTree`, `AlphaBeta`, `Tracking`, `Reads`, `Search`, `Deepening`, `Features`: minimax over
  board records, fail-soft windows, how the one shared board follows the game tree, how often the
  flag is read, the search itself, iterative deepening under cancellation, and what the
  evaluation can see of an undone promotion.
* `MoveText`, `Protocol`, `Uci`: packed moves, printed moves, and the message handlers.
* `StreamBuf`: the bounded buffer.
* `Witnesses`: concrete boards and interleavings for the properties that fail.

Run `dafny verify dfyconfig.toml`.

## Three results that are not what one might expect

* Undoing a promotion does not restore the pawn's byte: a rook or bishop bit stays under the pawn
  bit (`src/board.cpp:603-608`, `src/engine.cpp:858-863`). `UndoFacts.UndoIsExactIff` gives the exact
  condition and `Witnesses.UndoCanFail` a board. Move generation, check and legality cannot see
  the bit, so they are proved for boards that are equal up to it (`UndoFacts.Similar`, which
  `Residue.SimilarCleanEqual` shows to mean just that). The piece counts of the evaluation can see
  it; `Features.PromotionShiftsCounts` says by how much. The value of a search is therefore proved
  for evaluations that cannot see the bit, and for every evaluation where no promotion is legal
  within the depth of the search; then undo is exact throughout.
* A `stop` that arrives before the search has written a move plays whatever `best_move` held
  before, or fails its assert (`Protocol.StopAsserts`, `Protocol.StopBeforeAnyWrite`). If exactly
  one `position` plays a move after the search took its copy, and the search finds a move, the
  assert fails in every interleaving, unless that message ends where the found move starts and the
  found move is legal after it (`Protocol.StopAfterPosition`). A pseudolegal message cannot do that,
  but `on_position` checks nothing: `Witnesses.IntruderPasses` is a game in which the stop then
  moves the wrong piece. Two messages can cancel out (`Protocol.PositionsCanCancel`).
* A `prepare` that fails has already moved the bytes. `StreamBuf.StreamBuffer.Reserve` says exactly
  when the input survives, and `StreamBuf.FailureCanCorrupt` is a case where it does not.

## How the parts fit

`BoardClass.Board` holds the arrays; its `Data()` is a `BoardData` record, and each method is proved
equal to a function on records. `Boards.Inv` is the representation invariant and `Boards.Abs` the
simple form of a record. The search flag is a budget: it is true for some number of reads and
then false for good; all results hold for every budget, and `Reads` bounds how much of it a
search uses. Scores are reals strictly between the two `DBL_MAX` sentinels. Every write to
`best_move` is logged with the ordering and the number of root moves behind it, and with whether
it ended its round, so that the log says why the write was justified and which rounds were
completed.

## Model

| member | source | states |
|---|---|---|
| `Geometry.TableCw90` | `src/board.cpp:6-15` | the 64 literals of `cw_90` are (x,y) -> (y,6-x) on the ring and the identity elsewhere, `DEAD` included |
| `Geometry.TableAcw90` | `src/board.cpp:17-26` | the literals of `acw_90` are (x,y) -> (6-y,x) on the ring |
| `Geometry.TableCw180` | `src/board.cpp:28-37` | the literals of `cw_180` are (x,y) -> (6-x,6-y) on the ring |
| `Geometry.TableId` | `src/board.cpp:39-48` | the literals of `id` are the identity |
| `Geometry.RotCompose` | `src/board.cpp:6-48` | the four tables form the cyclic group of order 4 on all 64 squares |
| `Geometry.RotInverse` | `src/board.cpp:6-48` | the forward and inverse table that the generator pairs up undo each other, both ways round |
| `RuleFacts.SlideRule` | `src/board.cpp:69-127` | a slide along any path reaches exactly the squares with only empty squares before them that do not hold an own piece |
| `RuleFacts.TargetsClosed` | `src/board.cpp:69-267` | on every board, a generated target is a ring square, not the start, and not an own piece: never the hole, row 7 or column 7 |
| `RuleFacts.PseudoShape` | `src/board.cpp:463-484` | every pseudolegal move starts on an own piece, ends on another ring square that is empty or hostile, and promotes only a pawn |
| `Symmetry.TargetsTurn` | `src/board.cpp:359-398` | for every board, kind of piece and table, turning the position and generating is generating and turning the result |
| `Rulebook.RingIs` | `src/board.cpp:364-367` | the playing squares are the 7x7 board without its middle nine |
| `Rulebook.KingRule` | `src/board.cpp:250-267` | on every board a king reaches exactly the neighbouring ring squares, straight and diagonal, that hold no own piece |
| `Rulebook.PawnRule` | `src/board.cpp:222-248` | on every board and all four sides a pawn reaches exactly the up to three squares ahead, by coordinates |
| `Rulebook.RookRule` | `src/board.cpp:69-127` | on every board a bottom rook reaches exactly: one step right, up or down; any distance ahead; around the corner from the outer lane; any distance up from the square before the corner; by coordinates and empty squares |
| `Rulebook.BishopRule` | `src/board.cpp:129-220` | on every board a bottom bishop reaches exactly one step diagonally back and the open parts of the lines spelled out for each of the ten squares |
| `Rulebook.PromotionRule` | `src/board.cpp:376-383` | a move is pseudolegal with a promotion, to a rook or to a bishop, exactly for a pawn on (3,5) or (3,6) if White, (3,0) or (3,1) if Black |
| `Rulebook.LegalRule` | `src/board.cpp:506-525` | a move is legal exactly if it is pseudolegal and no reply would take the mover's king |
| `Bytes.SharedColor` | `src/board.cpp:69-127` | the generators' test (a shared colour bit) holds exactly for occupied squares of the same colour |
| `Rulebook.ByteRule` | `src/board.hpp:22-38` | what each of the eight piece bytes stands for, by number |
| `Generators.KingMoves` | `src/board.cpp:250-267` | the branches of the bottom king generator produce exactly the ring squares at distance 1 without an own piece, on every board |
| `Generators.PawnMoves` | `src/board.cpp:222-248` | the bottom pawn generator produces exactly one step straight or diagonally forward within the ring, each doubled into the two promotions when the flag is set |
| `Generators.SlideUp` | `src/board.cpp:69-127` | the loop with early break over the inner lane adds exactly the slide along it |
| `Generators.SlideForward` | `src/board.cpp:69-127` | the loop along the forward lane adds the slide up to the edge; if it was never blocked, what is missing from the slide around the corner is exactly the reflected part |
| `Generators.SlideReflected` | `src/board.cpp:69-127` | the loop over the left edge, entered only when the outer lane was clear, adds exactly the reflected part |
| `Generators.RookMoves` | `src/board.cpp:69-127` | the bottom rook generator is the ray rule on every board: any distance forward and around the corner, one step back or sideways, any distance inwards from the square before the corner |
| `BishopGenerator.UpFromOuterLane` | `src/board.cpp:129-220` | on the outer lane the hand-written square list is the upward diagonal with one reflection |
| `BishopGenerator.InnerDiagonals` | `src/board.cpp:129-220` | on the inner lane the hand-written lists reach the same squares as the two forward diagonals with one reflection, on every board |
| `BishopGenerator.BishopReachedAt` | `src/board.cpp:129-220` | the bishop's targets are exactly its single backward steps and the slides along the hand-written lists |
| `BishopGenerator.BishopMoves` | `src/board.cpp:129-220` | the bottom bishop generator is the diagonal rule with one reflection, on every board |
| `Generation.Sides` | `src/board.cpp:364-371` | the three index sets select exactly the side of the ring a square lies on |
| `Generation.SelectView` | `src/board.cpp:369-376` | the chosen array is the board turned so that the piece stands at the bottom, and the two tables are that turn and its inverse |
| `Generation.TransformMoves` | `src/board.cpp:58-67` | the transformed set is exactly the moves with both squares turned and the promotion kept |
| `Generation.BottomMoves` | `src/board.cpp:376-392` | the kind tests pick the generator of the piece that the byte stands for, left-over bits included |
| `Generation.PieceMovesOf` | `src/board.cpp:359-398` | going through table, rotated array and inverse table gives exactly the moves of the rules on the piece's own side, for all four sides and all kinds |
| `Generation.SideMovesOf` | `src/board.cpp:463-484` | scanning six slots gives exactly the pseudolegal moves of every piece of that colour on the board |
| `BoardClass.RotateBoard` | `src/board.cpp:400-405` | the target array is the table image of the source at all 64 squares |
| `BoardClass.Board.constructor` | `src/board.cpp:407-426` | twelve writes and three rotations build the starting position in all five representations |
| `Initial.InitialRule` | `src/board.cpp:407-426` | the starting bytes by number, square by square, and the twelve slots |
| `Initial.InitialInv` | `src/board.hpp:41-67` | the starting record satisfies the representation invariant |
| `BoardClass.Board.ScanForCapture` | `src/board.cpp:536-578` | the one scan that kills and moves leaves every slot as specified, whichever of mover and victim comes first, and records the captured byte and slot |
| `BoardClass.Board.MakeMove` | `src/board.cpp:536-578` | the new slots, all four arrays and the undo record, each as a function of the old |
| `BoardFacts.StepRefines` | `src/board.cpp:536-578` | a pseudolegal move keeps the representation invariant (arrays are table images, live slots distinct and on the ring, a square is occupied iff one live slot of the right colour and kind names it) and is the simple move on the simple form |
| `Rulebook.MoveRule` | `src/board.cpp:536-578` | after a pseudolegal move the target holds the mover, or a rook for a rook promotion and a bishop for a bishop promotion, the start is empty, and every other square is as it was |
| `Rulebook.SlotRule` | `src/board.cpp:545-557` | the mover's slot follows it, a slot on the target goes to (7,7), all others stay, and the undo record holds the captured byte and its slot, or 0 and -1 |
| `UndoFacts.CaptureKillsOne` | `src/board.cpp:545-560` | the live slots shrink by exactly the captured piece's slot, and only when the target is occupied |
| `BoardClass.Board.UnmakeMove` | `src/board.cpp:580-622` | the state after `_undo_last_move`, as a function of the state before |
| `UndoFacts.DoUndo` | `src/board.cpp:536-622` | do then undo restores every slot and every byte of all four arrays, except the mover's own byte after a promotion, which is given exactly |
| `Rulebook.UndoRule` | `src/board.cpp:603-608` | do then undo leaves on the mover's square, by number, the byte as it was, or colour, pawn and rook bit after a rook promotion, and colour, pawn and bishop bit after a bishop promotion |
| `UndoFacts.UndoIsExactIff` | `src/board.cpp:580-622` | undo restores the record exactly if and only if the move is no promotion or the pawn's byte already carried the bit of the promoted kind |
| `UndoFacts.UndoSimilar` | `src/board.cpp:580-622` | undo gives back a similar record even if residue has appeared anywhere in between |
| `Residue.SimilarCleanEqual` | `src/board.cpp:603-608` | left-over bits are all that similar boards can differ in: without them, the records are identical up to undo information |
| `Residue.UndoCleanIff` | `src/board.cpp:580-622` | do then undo leaves a board free of left-over bits if and only if the move is no promotion |
| `Residue.RunKeepsClean` | `src/board.cpp:527-578` | a board that is only played on never gets a left-over bit |
| `Residue.GamesAreClean` | `src/board.cpp:407-578` | from `Board()`, two games that reach the same position with the same slots have identical bytes in all four arrays |
| `Legality.KingSlotDecidesCheck` | `src/board.cpp:448-457` | testing the king's slot decides check for the position, also once that king is captured |
| `Legality.InCheckOf` | `src/board.cpp:432-457` | `in_check` holds exactly if a pseudolegal move of the opponent ends on the king's square |
| `Legality.LegalityRound` | `src/board.cpp:506-525` | one do / check / undo round on a copy with any residue sees the true position and leaves a similar record |
| `BoardClass.Board.IsSafe` | `src/board.cpp:506-525` | one round answers whether the mover's king is safe after the move and leaves the copy similar |
| `BoardClass.Board.GetLegalMoves` | `src/board.cpp:506-525` | the whole loop on one mutable copy returns exactly the pseudolegal moves that leave the mover's king unattacked, whatever the order of the set, and leaves the board alone |
| `Runs.RunRefines` | `src/board.cpp:527-578` | any run of pseudolegal moves keeps the invariant and stays in step with the simple game |
| `Openings.WhiteReach` | `src/board.cpp:69-267` | as long as White's remaining pieces stand where they started and their lanes are shut, none reaches beyond the third row, on every such board |
| `Openings.TargetsSwap` | `src/board.cpp:359-398` | the generated moves are the same for both colours, on every board |
| `Openings.BlackReach` | `src/board.cpp:69-267` | the same for Black, by turning the board and exchanging the colours |
| `Openings.NotInCheck` | `src/board.cpp:432-457` | a king on its own half is safe from such pieces |
| `Runs.InitialKingsSafe` | `src/board.hpp:41-53` | at the start both kings are on the board and Black is not attacked |
| `Runs.LegalKeepsKingsSafe` | `src/board.cpp:506-530` | a legal move captures no king and leaves the new opponent's king unattacked |
| `Runs.KingsNeverCaptured` | `src/board.cpp:432-530` | after every run of legal moves from `Board()`, however it ends, both kings are on the board and the side not to move is not in check, and no legal move captures a king |
| `Pawns.StepGetsCloser` | `src/board.cpp:222-248` | every pawn step lowers the measure (sides left, then column in the side's frame) and stays on the way |
| `Pawns.RunBoundsPawn` | `src/board.cpp:222-248` | over any run, a pawn's moves so far plus what it has left never exceed what it had |
| `Pawns.AtMostTwelveMoves` | `src/board.cpp:222-248` | in every run from `Board()` each pawn makes at most 12 moves, and an unpromoted pawn never stands on the two squares in front of the other side's start or on the side beyond |
| `GameTree.MinimaxIsForced` | `src/engine.cpp:745-833` | the minimax value is the most that White can force against every reply of Black within the depth |
| `GameTree.BestIs` | `src/engine.cpp:745-833` | a value attained by one move and beaten by none is the minimax value |
| `Tracking.NoPromotionsMeans` | `src/board.cpp:376-383` | the condition for exact undo: no line of legal moves within the depth contains a promotion |
| `Tracking.ByPositionRespects` | `src/board.cpp:376` | every evaluation of the decoded position is one that cannot see left-over bits |
| `Tracking.MinimaxOfSimilar` | `src/engine.cpp:835-877` | for an evaluation that cannot see left-over bits, similar boards have the same minimax value to every depth |
| `AlphaBeta.SearchedStep` | `src/engine.cpp:771-786` | one more child under the raised alpha (lowered beta) keeps the fail-soft meaning of the running best |
| `AlphaBeta.CutoffWindow` | `src/engine.cpp:777-781` | a child that closes the window bounds the node's value on the other side |
| `AlphaBeta.SearchedWindow` | `src/engine.cpp:768-788` | when all children are done, the best value is a fail-soft result for the node |
| `Search.SortByEval` | `src/engine.cpp:536-547` | a permutation of the children in the order of the chosen comparator |
| `Search.UndoLastMove` | `src/engine.cpp:835-877` | the engine's undo is the board's undo and gives the turn back |
| `Tracking.PlayUndo` | `src/engine.cpp:585-607` | with the saved undo record put back, undo returns to a board similar to the one before the move, however the board was used in between |
| `Tracking.UndoTracks` | `src/engine.cpp:585-607` | undo brings the shared board back to the node of the game tree: up to left-over bits, and exactly if the move is no promotion and the board was exact |
| `Search.OrderChildren` | `src/engine.cpp:556-583` | every legal move once, with the static score of its child, best first, at one read of the flag per move; or nothing at all and the flag is false; the board is back at its node in either case |
| `Search.OrderedByScore` | `src/engine.cpp:536-547` | White's children come by falling score and Black's by rising score, without repeats, each with the score of the board it leads to |
| `Search.MoveAndEval` | `src/engine.cpp:585-607` | net identity at every depth and every cancellation point, exact where no promotion is legal; a fail-soft result for the move unless cancelled; and a bound on the reads of the flag |
| `Search.MaxVal` | `src/engine.cpp:745-788` | for every window alpha < beta, board, ordering and depth: at most alpha bounds the minimax value from above, at least beta from below, strictly between equals it, unless cancelled; it reads the flag at most NodeReads times, so a flag that lasts longer gives the result unconditionally; the result is the static score of a node at which the search below ended; the board is back at its node; it terminates |
| `Search.MinVal` | `src/engine.cpp:790-833` | the same for the minimising side |
| `Deepening.NextMove` | `src/engine.cpp:641-659` | one more root move under the closed window keeps the first best of the moves tried so far, with its exact value |
| `Deepening.RootStep` | `src/engine.cpp:641-659` | the local variables of a round after one more root move: the first move always becomes the best, also after Black's probe, and a later one exactly if it is strictly better |
| `Deepening.FirstMove` | `src/engine.cpp:691-725` | the first root move is exact, also when Black re-searches it with beta already lowered to its value |
| `Deepening.SoundIsLegal` | `src/engine.cpp:641-663` | every value ever written to `best_move` is a legal root move |
| `Deepening.FinalIsMinimax` | `src/engine.cpp:660-664` | the publication that ends a round has the plain minimax value of the root |
| `Deepening.FinalsPaced` | `src/engine.cpp:610-743` | the k-th write that ends a round has the cutoff 2k+1 |
| `Deepening.CutoffsGrow` | `src/engine.cpp:610-743` | along the whole log cutoffs never decrease, grow after the end of a round, and never pass the round after the completed ones |
| `Deepening.RoundsAreMinimax` | `src/engine.cpp:618-666` | of all that was written, the k-th write that ends a round has the minimax value for depth 2k+2, and the first move of its ordering attaining it |
| `Deepening.WhiteRound` | `src/engine.cpp:618-666` | one round for White: all writes are sound and exactly the last of a completed round is final; at every return the last write is the first best of all root moves searched so far; it is completed unless cancelled or without moves; and a flag that lasts for the reads of t root moves sees t of them searched |
| `Deepening.BlackRound` | `src/engine.cpp:673-732` | the same for Black with its probe of the first move |
| `Deepening.SearchMove` | `src/engine.cpp:610-743` | for every moment at which the flag turns false: the log of all writes is accounted for, its rounds are minimax, the last write is the first best of all root moves searched in the cancelled round (or ended the round before), n rounds and t more root moves are searched if the flag lasts for their reads, the board is back (exactly, if no promotion is legal within the last depth), and it returns only when cancelled or without legal moves |
| `Deepening.FindBestMove` | `src/engine.cpp:883-889` | the search runs on a copy: the caller's board is untouched, everything written is one of its legal moves, and the promises of the search hold for it |
| `Features.PromotionShiftsCounts` | `src/engine.cpp:317-322` | exactly how searching a promotion and taking it back shifts the piece counts that the evaluation reads, by kind and bit |
| `Features.InitialCounts` | `src/engine.cpp:361-425` | on the starting board each side counts two pawns, two rooks and one bishop |
| `Witnesses.UndoCanFail` | `src/board.cpp:603-608` | one position message takes the starting board to a consistent one on which the side to move has a legal promotion, where do then undo leaves the pawn with a rook bit and counts one rook too many |
| `MoveText.FieldsSeparate` | `src/board.hpp:10-20` | the three fields of a packed move do not overlap |
| `MoveText.PackRule` | `src/board.hpp:10-20` | the layout of a move word, field by field and bit by bit |
| `MoveText.PackRoundTrip` | `src/board.hpp:10-20` | every move unpacks from its word to itself |
| `MoveText.WordRoundTrip` | `src/board.cpp:327-357` | printing and parsing returns a word if and only if its two unused bits are clear and not both promotions are set |
| `MoveText.TextRoundTrip` | `src/board.cpp:327-357` | parsing and printing returns a text of four bytes or more if and only if it is four coordinates a-h, 1-8 and at most one b or r |
| `MoveText.SaidRule` | `src/board.cpp:327-342` | the printed text of every move, character by character: column letter and row digit of start and target, then nothing, r or b |
| `MoveText.HeardRule` | `src/board.cpp:344-357` | every text of that form is read as that move |
| `MoveText.Replay` | `src/uciws.cpp:111-116` | telling a game move by move through its last printed token reproduces the identical record |
| `Protocol.WindowInvariant` | `src/uciws.cpp:118-138` | at every moment of every interleaving between `go` and the join, the board is the one of the `go`, the search runs on a copy of it, and `best_move` is legal for it or untouched |
| `Protocol.StopAsserts` | `src/uciws.cpp:127-138` | after the join the searched root is the board, and both asserts hold exactly if something was written since the `go` or the left-over move happens to be legal |
| `Protocol.StopAdvances` | `src/uciws.cpp:127-138` | with at least one write the stop cannot abort, and its only outcome is the board advanced by that one legal move |
| `Protocol.StopBeforeAnyWrite` | `src/uciws.cpp:118-138` | an interleaving without a write after which the assert fails, from every resting server whose left-over move is not legal |
| `Witnesses.StopCanAbort` | `src/uciws.cpp:118-138` | the server as it starts, with the left-over move 0, is one |
| `Protocol.SecondGo` | `src/uciws.cpp:118-125` | from a go to its join, under every interleaving, a second go ends the process and cannot do anything else |
| `Protocol.StopNeedsThread` | `src/uciws.cpp:118-130` | a go is possible exactly without a thread and a stop exactly with one; otherwise they end the process |
| `Protocol.FlagStays` | `src/uciws.cpp:118-130` | the flag is up from the go to the stop and down from then on |
| `Protocol.ReturnsWhenStopped` | `src/engine.cpp:610-743` | before a stop the search thread only returns if there is no legal move |
| `Protocol.PositionRule` | `src/uciws.cpp:111-116` | a position message with up to three tokens does nothing, and with more it plays the move that its last token says |
| `Protocol.RootIsCopy` | `src/uciws.cpp:118-125` | under every interleaving the searched root is the board at the moment the thread copied it |
| `Protocol.RootIsBoard` | `src/uciws.cpp:106-138` | after the join the root is the board if no message played on it since the copy, and is not after an odd number of positions |
| `Protocol.PositionsCanCancel` | `src/uciws.cpp:111-138` | two positions can cancel out: an interleaving in which the root is the board again and the assert holds |
| `Witnesses.PositionsCancel` | `src/uciws.cpp:111-138` | two such positions on the starting board: the search finds a move, and the stop plays it |
| `Protocol.OutOfTurn` | `src/uciws.cpp:111-138` | after any move at all, no move that was legal before is legal any more, unless another piece was put where it starts |
| `Protocol.StopAfterPosition` | `src/uciws.cpp:111-138` | in every interleaving with a write and exactly one playing position message after the copy, the assert of the stop fails if and only if the message does not intrude: it does not end where the found move starts, or that move is not legal after it; a pseudolegal message never intrudes |
| `Protocol.IntruderIsHostile` | `src/uciws.cpp:111-116` | a message that intrudes moves a piece of the side not to move |
| `Protocol.PositionDuringSearch` | `src/uciws.cpp:111-138` | such an interleaving from every resting server, for every legal move found and every position message, with the same condition |
| `Witnesses.PositionCanAbort` | `src/uciws.cpp:111-138` | on the starting board: the search finds a pawn step, the client plays it too, and the stop aborts |
| `Witnesses.IntruderPasses` | `src/uciws.cpp:111-138` | on the starting board: an unchecked message puts a Black rook on the found pawn, and the stop plays the found step with the rook |
| `Protocol.PositionKeepsInv` | `src/uciws.cpp:111-116` | a position message keeps the board consistent if it moves a piece between two ring squares and promotes only a pawn, legal or not |
| `Protocol.SessionIsLegalGame` | `src/uciws.cpp:106-138` | every session of legal opponent moves and go/stop windows with a result, in any number and under any interleaving, is a run of legal moves in which no king is ever in danger out of turn |
| `Uci.UciServer.OnUciNewGame` | `src/uciws.cpp:106-109` | the handler is the protocol step, on a new board object |
| `Uci.UciServer.OnPosition` | `src/uciws.cpp:111-116` | the handler is the protocol step: the last token, if there are more than three |
| `Uci.UciServer.OnGo` | `src/uciws.cpp:118-125` | the handler is the protocol step, or ends the process because a thread is still joinable |
| `Uci.UciServer.OnStop` | `src/uciws.cpp:127-130` | up to the join: the flag is cleared, or the process ends because there is no thread |
| `Uci.UciServer.AfterJoin` | `src/uciws.cpp:130-157` | from the join on: the asserts decide between abort and one move of the board, and the reply is that move's text |
| `Uci.UciServer.Think` | `src/engine.cpp:883-889` | the search thread, up to its return, is a run of protocol steps: one copy, then only writes of legal moves |
| `Uci.UciServer.GoThenStop` | `src/uciws.cpp:118-157` | go, a search whose flag lasts for its first root move, and stop: the process survives, the board advances by one legal move, and the reply is its text |
| `StreamBuf.StreamBuffer.Reserve` | `include/asio/basic_streambuf.hpp:308-345` | it succeeds exactly if size() + n <= max_size(), shift and growth keep the input, and a length_error leaves the shifted bytes under the old positions: the input survives it if and only if it repeats itself with the period of the get offset |
| `StreamBuf.SurvivesFailureIff` | `include/asio/basic_streambuf.hpp:320-340` | after a length_error the input is intact if and only if it repeats itself with the period of the get offset |
| `StreamBuf.StreamBuffer.Prepare` | `include/asio/basic_streambuf.hpp:214-219` | n writable bytes behind the input exactly if size() + n <= max_size() |
| `StreamBuf.StreamBuffer.Commit` | `include/asio/basic_streambuf.hpp:233-238` | min(n, room) bytes join the input, as long as that is below 2 GiB; beyond, the cast to int decides |
| `StreamBuf.AsIntExact` | `include/asio/basic_streambuf.hpp:236` | the cast keeps a size exactly below 2 GiB |
| `StreamBuf.AsIntWraps` | `include/asio/basic_streambuf.hpp:236` | from 2 GiB to 4 GiB it comes out 4 GiB too low |
| `StreamBuf.StreamBuffer.Consume` | `include/asio/basic_streambuf.hpp:247-254` | min(n, size()) bytes leave at the front, under the same bound |
| `StreamBuf.StreamBuffer.Underflow` | `include/asio/basic_streambuf.hpp:263-274` | the first byte of the input or end of file; nothing is lost |
| `StreamBuf.StreamBuffer.Overflow` | `include/asio/basic_streambuf.hpp:283-306` | one byte joins the input exactly if size() < max_size(); a failure leaves the input intact |
| `StreamBuf.StreamBuffer.Send` | `include/asio/basic_streambuf.hpp:85-99` | the documented sequence prepare, write, commit appends the bytes and nothing else changes in the history; from 2 GiB on, where the cast puts the end of the input; and what a refusal leaves |
| `StreamBuf.ServedInOrder` | `include/asio/basic_streambuf.hpp:42-67` | over any run of calls the queue is what was there and what was handed over, in order, without as many first bytes as were taken, and never longer than max_size() |
| `StreamBuf.Serve` | `include/asio/basic_streambuf.hpp:42-67` | any run of writes, single characters and consumes on a real buffer makes exactly the calls that fit and hands over and takes what the queue does; its input is the queue's if and only if no write was refused or the input repeats itself with the period of the get offset |
| `StreamBuf.FailureCanCorrupt` | `include/asio/basic_streambuf.hpp:320-340` | a buffer for three bytes on which a failed prepare turns the input 2, 3 into 3, 3 |
| `StreamBuf.StreamBuffer.constructor` | `include/asio/basic_streambuf.hpp:131-141` | an empty queue with the requested bound and room for at most 128 bytes, also for a bound of 0 |

## Left out

- Search.MaxVal: with an evaluation that reads left-over promotion bits, and a promotion legal within the depth, nothing is said about the value, because scores then depend on which promotions were searched before; everything else is proved for that case too. The same holds for `Search.MinVal`, `Search.MoveAndEval` and the values in `Deepening.SearchMove`.
- Search.SortByEval: `std::sort` is an insertion sort here; only "a permutation in order" is used, so ties may be ordered in any way.
- The order of `std::unordered_set`: sets are walked in an arbitrary order, and all results hold for each.
- Squares are coordinate pairs and moves are triples; that words of 16 bits carry them without loss is proved in `MoveText`, but the generators do not work on the words.
- The twelve slots are one array; that the source reaches them by casting the record to bytes is not modelled, nor is `memcpy` of the record.
- The scan of an undo and the rotations work on arrays; move generation reads the arrays as sequences.
- The evaluation itself (neural network, weighted sum, weight files, the remaining features) and floating-point rounding.
- The `training` flag of the search and all tracing and display output.
- Data races: a copy of the board by the search thread and each handler are one step each.
- Splitting a message into tokens, the network server, the connection callbacks, `uci`, `isready` and `quit`.
- MoveText.StrToMove: texts of fewer than four bytes are outside its domain; the source reads past their end.
- Uci.UciServer.AfterJoin: stated for consistent boards only, because an unchecked position text can make the record inconsistent (`Protocol.PositionKeepsInv` says which texts cannot); and the suffix for check, mate and stalemate, which the source computes but never sends, is not computed.
- StreamBuf: pointer overflow when `consume` is called with a size close to the address space, allocation failure, `capacity`, and the functions inherited from `std::streambuf`.
- StreamBuf.Serve: each call writes or takes less than 2 GiB, because `commit` and `consume` cast to int.
