# Verification of the chess engine, the config parser and the CRUD store

This project models three parts of the web server and proves what they promise.

**The chess engine.** A `Board` keeps one position in five redundant forms: an 8x8 array, ten-slot piece lists, a
running material total, an incremental key and a history stack. `Movegen` generates, makes and takes back moves in
place on that board, and `Searcher` runs alpha-beta and quiescence on it. The files follow that structure:

- `rules.dfy` states the rules of chess declaratively (attacks, pseudo-legal and legal moves, the effect of a move, and
  `WellFormed`, the invariant of every game position). `squares.dfy`, `zobrist.dfy`, `games.dfy` and `rays.dfy` hold the
  values behind the redundant forms.
- `invariant.dfy` proves that legal moves keep positions well formed and that taking back finds room. `attacks.dfy`,
  `effects.dfy`, `opening.dfy` and `mates.dfy` hold the rules, the moves and the search values against independent laws: the
  articles of the Laws of Chess, the twenty opening moves, and forced mates.
- `board.dfy`, `movegen.dfy` and `searcher.dfy` hold the mutable classes. `Boards.Board.Valid` ties all redundant forms
  to one value, so "the key and the material are what a computation from scratch gives" is part of every method contract
  (the key up to the constant that repeated castling letters in a FEN text leave behind).
- `generators.dfy` proves the generated list exact; `evaluation.dfy`, `trees.dfy`, `pv_table.dfy` and `repetition.dfy` define plain
  evaluation, the unpruned negamax tree, what the variation table may hold, and whole games, and prove what the methods are measured against.
- `fen.dfy`, `notation.dfy` and `chess_handler.dfy` cover FEN text, what it means, and the move request of the HTTP handler, `engine.dfy` its use of the searcher.

**The config parser**: `config_parser.dfy` holds the character state machine, the stack machine and the printed text as
values. The grammar is the token stream `Flatten` of a tree; the machine is proved to decide it and to invert the
printer. `config_tree.dfy` holds the classes: the parser that fills linked statement objects through a stack of pointers
and the printer that walks them, both proved against those values.

**The CRUD store** (`crud_handler.dfy`): the id index and the files it describes, as seen over whole runs of requests.

Entry condition of the chess part: the starting position is `WellFormed` (one king each, the side not to move not in
check, no pawns on the edge rows, truthful castling rights and en passant square, at most ten of a piece type even
after promotions): `Openings.StartWellFormed`, and `ChessHandlers.LonePawnWellFormed` for a position late in a game. Making a move also needs a free entry
in the 1024-entry history, and a search of depth d needs d plus the piece count of them: that many, and no more, are
used, because every capture in quiescence removes a piece.

## Where the code does not do what its interface suggests

Each entry names the lemma with the exact condition and, where there is one, the lemma with an input.

- The move handler promotes to a queen only for white (`src/chess_handler.cc:136-139`): a black pawn can never be moved
  onto its last row. `ChessHandlers.AcceptedExactly`, `ChessHandlers.BlackPromotionRefused`.
- The engine's handler prepares the searcher before it reads the position (`src/chess_handler.cc:217-222`), so the
  principal-variation table protects the key of the cleared board instead of the root's.
  - A completed root search yields its best move exactly if the root's slot did not hold the protected key before it,
    provided no position within its depth less one has that key: `Searchers.Searcher.SearchRoot`, `PvTables.SlotOpenIff`.
  - With all random keys 0 but the side key 100000 (`Engines.SideOnlyOk`) and a table whose slot 0 holds that key,
    no search finds a move for a root with a legal move: `Engines.GuardedRoot`.
  - The root's entry is lost whenever another position is stored in its slot, exactly because it is not the protected one:
    `PvTables.EvictedIff`.
  - A move that is found is legal (`Engines.Recommend`), for every clock, if no other position within the depth
    that was started, less one, has the root's key, and if either the table held no entry under the root's key before or
    an iteration was completed on a root that has a legal move and is not drawn.
- A text that ends inside a word, or right after a backslash in a quoted token, loses that token without an error
  (`src/config_parser.cc:276-282`). `ConfigParsers.CutOffExactly` says for every accepted text when a line break after it
  changes the outcome; `ConfigParsers.CutOffWord`, `ConfigParsers.CutOffEscape`.
- Each castling letter of a FEN text flips its key, a repeated one too (`src/chess/board.cpp:129-144`). The key is the key
  of the position iff the keys of the rights whose letters occur an even number of times, but not never, cancel out:
  `Fen.KeyTrueIff`, `Fen.OddIsHarmless`, `Fen.RepeatedLetter`. Making moves does not depend on it.
- A create that names an id is refused, but only after a new entity has been created (`src/crud_handler.cc:140-161`); no
  other refused request changes the store. `CrudHandlers.RefusedLeavesStore`, `CrudHandlers.RefusedCreateLeavesEntity`.
- The scan for the least free id stops at the first id below 1 (`src/crud_handler.cc:147-156`):
  `CrudHandlers.ScanIsRightIff`, `CrudHandlers.ScanMisses`. No run of requests produces such an id.
- Listing a known entity that holds nothing cuts two characters off an empty text, which throws
  (`src/crud_handler.cc:271-277`): `CrudHandlers.ListThrowsIff`, `CrudHandlers.ListThrows`.
- The castling field of a printed FEN text is empty where section 16.1.3.3 of the PGN Specification asks for a dash; it is
  the standard's exactly if some right is left: `Fen.StandardIff`, `Fen.LettersOnly`, `ChessHandlers.LonePawnField`.
- The comment beside the mate score (`src/chess/searcher.cpp:163-166`) says that a mate in 6 is treated as more favourable
  than a mate in 2. The code prefers the nearer mate: `Mates.MateScores`, `Mates.PrincipalMoveMates`.
- The draw test compares whole positions, and every double step sets the en passant square (`src/chess/movegen.cpp:1203-1213`).
  Article 9.2 of the Laws of Chess also counts a position that differs only there, if nothing can be captured en passant.
  `Repetition.SameByRulesIff` and `Repetition.OccursIff` say which occurrences are missed; `Repetition.ThirdTimeUnseen` is a
  game in which the test answers four moves late.
- A config tree comes back from its printed text exactly if every statement has a token and every token is plain, or
  quoted without an inner matching quote or backslash: `ConfigParsers.RoundTripIff`, `ConfigParsers.TokenSurvives`.

## Model

| member | source | states |
|---|---|---|
| Pieces.DecodeEncode | src/chess/defs.cpp:57-99 | Decoding an encoded move gives back all nine fields, and no encoded move is the sentinel NOMOVE, because the promotion field is never 0 |
| Boards.SwapRemoveKeepsTheRest | src/chess/board.cpp:259-288 | Deleting by moving the last entry into the hole loses no other entry and duplicates none |
| Boards.IndexedAdd | src/chess/board.cpp:242-257 | Filling the next list slot keeps piece lists and array in bijection |
| Boards.IndexedRemove | src/chess/board.cpp:259-288 | Swap-with-last deletion keeps piece lists and array in bijection |
| Boards.ClearBoardForms | src/chess/board.cpp:637-673 | On the cleared board the key is that of white to move alone, and material and lists agree with the empty array |
| Boards.Board.constructor | src/chess/board.cpp:11-15 | A new board is valid and holds the cleared position with no history |
| Boards.Board.ClearBoard | src/chess/board.cpp:637-673 | From any content the board becomes valid with the cleared position |
| Boards.Board.AddPiece | src/chess/board.cpp:242-257 | One square changes and every redundant form follows; needs a free square and a free list slot |
| Boards.Board.RemovePiece | src/chess/board.cpp:259-288 | One square is emptied and every redundant form follows |
| Boards.Board.PushHistory | src/chess/board.cpp:290-313 | Appends the record of key, move, piece, rights, en passant square and fifty-move mark |
| Boards.Board.PopHistory | src/chess/board.cpp:315-320 | Drops the last record and restores its fifty-move mark |
| Boards.Board.HashInCastle | src/chess/board.cpp:557-582 | Sets one right; the key stays the key of the position |
| Boards.Board.HashOutCastle | src/chess/board.cpp:584-609 | Clears one right; the key stays the key of the position |
| Boards.Board.HashInEp | src/chess/board.cpp:611-617 | Sets the en passant square; the key stays the key of the position |
| Boards.Board.HashOutEp | src/chess/board.cpp:619-628 | Clears the en passant square if there is one; the key stays the key of the position |
| Boards.Board.ChangeSide | src/chess/board.cpp:630-635 | Passes the move; the key stays the key of the position |
| Boards.Board.GetKingR | src/chess/board.cpp:342-352 | The first list slot of the king names the row of the king's square |
| Boards.Board.GetKingC | src/chess/board.cpp:354-364 | The first list slot of the king names the column of the king's square |
| Boards.Board.SqExposed | src/chess/board.cpp:393-470 | Counts the empty squares seen along the four diagonals and the file |
| Boards.Board.SqExposedVert | src/chess/board.cpp:472-511 | Counts the empty squares seen up and down the file |
| Boards.Board.NumRep | src/chess/board.cpp:366-391 | The number of earlier records since the fifty-move mark with the current key, cut off at two |
| Zobrist.KeyPut | src/chess/board.cpp:253 | Changing one square XORs its old contribution out of the from-scratch key and the new one in |
| Zobrist.PieceFlip | src/chess/board.cpp:253 | Putting a piece on an empty square, or taking it away, flips exactly its random number for that square |
| Zobrist.KeyRight | src/chess/board.cpp:557-609 | Setting or clearing one castling right changes the from-scratch key by exactly the key of that right, or not at all |
| Zobrist.EpFlip | src/chess/board.cpp:611-628 | Setting or clearing the en passant square flips exactly the random number of that square |
| Zobrist.KeyBase | src/chess/board.cpp:129-144 | An extra flip of a key shifts the key of every position by it |
| Zobrist.KeySide | src/chess/board.cpp:630-635 | Passing the move XORs exactly the side key into the from-scratch key |
| Zobrist.KeySmall | include/chess/board.h:67-72 | From non-negative 31-bit keys every position key is non-negative, so the table slots computed from it are in range |
| Zobrist.MaterialPut | src/chess/board.cpp:256-288 | Material as a sum over the board changes by the worth of the piece put down or taken away |
| Rays.LineWalk | src/chess/movegen.cpp:918-1059 | Walking square by square until a piece stops the walk reaches exactly the squares on an unobstructed line |
| Invariant.KingTaken | src/chess/movegen.cpp:1106-1247 | A pseudo-legal move that would capture a king shows that this king stands in check, so no king is ever captured |
| Invariant.MoveFacts | src/chess/movegen.cpp:27-471 | What en passant, castling, promotion, two-square and capturing moves look like in a well-formed position |
| Invariant.CountAfter | src/chess/movegen.cpp:1106-1247 | A move changes piece counts only through the capture, the en passant victim and the promotion |
| Invariant.RoomAfter | src/chess/movegen.cpp:1106-1247 | After any pseudo-legal move there is one king per side and every piece type fits its ten list slots |
| Invariant.LegalKeepsWellFormed | src/chess/movegen.cpp:1106-1247 | A legal move leads from a well-formed position to a well-formed position |
| Effects.MoveChanges | src/chess/movegen.cpp:1106-1232 | Castling puts the corner rook on the square the king has crossed, an en passant capture empties the square beside the start of the pawn, and otherwise a legal move changes its two ends only |
| Effects.RightKept | src/chess/movegen.cpp:1165-1201 | A castling right survives a legal move iff it was held and king and rook are still on their squares |
| Effects.PassedOver | src/chess/movegen.cpp:1163-1214 | The move passes to the other side, and exactly a pawn that has moved two rows leaves an en passant square, the one it has passed over |
| Effects.PromotionMeans | src/chess/movegen.cpp:59-193 | A move promotes iff a pawn reaches an edge row, and then to a knight, bishop, rook or queen of its colour |
| Effects.CastlingIsLegalIff | src/chess/movegen.cpp:447-461 | Article 3.8.2: castling is legal iff the right is held, all squares between king and rook are empty, and no square the king stands on, crosses or reaches is attacked |
| AttackLaws.KnightLaw | src/chess/movegen.cpp:855-1097 | A knight attacks the nearest squares that are not on its row, column or diagonals |
| AttackLaws.QueenLaw | src/chess/movegen.cpp:855-1097 | A queen attacks what a rook or a bishop would |
| AttackLaws.RookAndBishop | src/chess/movegen.cpp:918-1059 | A rook stays on its row or column, a bishop on squares of one colour off both |
| AttackLaws.KingLaw | src/chess/movegen.cpp:1060-1097 | A king attacks what a queen would at distance one |
| AttackLaws.ColourBlind | src/chess/movegen.cpp:855-1097 | Only a pawn's attacks depend on its colour |
| AttackLaws.SliderLaw | src/chess/movegen.cpp:918-1059 | A slider attacks a further square iff it attacks the one before and that one is empty |
| AttackLaws.AttackIsMutual | src/chess/movegen.cpp:855-1097 | Whoever is not a pawn is attacked by its like from every square it attacks |
| AttackLaws.PawnLaw | src/chess/movegen.cpp:855-917 | A pawn attacks the two squares diagonally ahead, and pawns of two colours attack each other alike |
| Openings.OpeningMoves | src/chess/movegen.cpp:27-471 | The legal moves of the starting position are the sixteen pawn moves and the four knight moves |
| Openings.TwentyOpenings | src/chess/movegen.cpp:1432-1451 | There are exactly twenty of them |
| Invariant.PlacementFits | src/chess/movegen.cpp:1214-1232 | The piece a move puts down always finds a free list slot, also when it promotes |
| Invariant.ClearedRightsAreCastleAfter | src/chess/movegen.cpp:1165-1201 | The chain of cleared rights equals the declarative rule: a right goes when its king moves or its rook's home square is touched |
| Invariant.RightsRestored | src/chess/movegen.cpp:1315-1336 | Hashing the recorded rights back in restores the earlier rights exactly |
| Generators.RayMembers | src/chess/movegen.cpp:231-408 | A ray of slider moves holds exactly the reachable squares that own pieces do not occupy |
| Generators.PawnMembers | src/chess/movegen.cpp:59-193 | Pawn pushes, captures, promotions and en passant are exactly the pseudo-legal pawn moves |
| Generators.PieceMembers | src/chess/movegen.cpp:58-471 | The moves generated for one piece are exactly its pseudo-legal moves |
| Generators.PieceFiltered | src/chess/movegen.cpp:504-824 | The captures generated for one piece are the captures among its moves, in the same order |
| Generators.GeneratedExactly | src/chess/movegen.cpp:27-824 | Over all piece lists: exactly the pseudo-legal moves, none twice, and the captures list is the captures of the moves list in order |
| Generators.AttackedIffTakeable | src/chess/movegen.cpp:826-1104 | A square holding a piece of the side not to move is attacked iff some pseudo-legal move lands there |
| Movegens.Movegen.SquareAttacked | src/chess/movegen.cpp:826-1104 | True iff some enemy piece attacks the square by the declarative rules |
| Movegens.Movegen.Hits | src/chess/movegen.cpp:855-1097 | The test for one piece agrees with the declarative attack of that piece |
| Movegens.Movegen.GenerateMoves | src/chess/movegen.cpp:27-471 | The keys decode to exactly the pseudo-legal moves, each once, and every key is well packed and not NOMOVE |
| Movegens.Movegen.GenerateCaptures | src/chess/movegen.cpp:473-824 | The keys decode to exactly the pseudo-legal captures and en passant moves, each once |
| Movegens.Movegen.GetMove | src/chess/movegen.cpp:1374-1405 | The key packs the unique move record of these squares and promotion, and is never NOMOVE |
| Movegens.Movegen.MakeMove | src/chess/movegen.cpp:1106-1247 | Accepts iff the move is legal; then the game state is the successor whose squares Effects.MoveChanges describes, and well formed; otherwise everything is restored |
| Movegens.Movegen.Execute | src/chess/movegen.cpp:1106-1240 | The updates before the legality test turn the game state into the declarative successor |
| Movegens.Movegen.TakeBack | src/chess/movegen.cpp:1249-1372 | Undoes a made move: squares, side, rights, en passant square, history, fifty-move mark, and with them key, material and lists as sets |
| Movegens.Movegen.UnmovePiece | src/chess/movegen.cpp:1338-1371 | Demotion, the way back and the captured piece restore all squares |
| Movegens.Movegen.RestoreRights | src/chess/movegen.cpp:1315-1336 | Rights and en passant square become those of the record |
| Movegens.Movegen.GameWinner | src/chess/movegen.cpp:1407-1430 | -1 iff a legal move exists, else 2 for stalemate or the other side for checkmate; the game is left as it was |
| Movegens.Movegen.Perft | src/chess/movegen.cpp:1432-1451 | Adds exactly the number of legal lines of the depth to the leaf counter; the game is left as it was |
| Evaluation.Evaluate | src/chess/defs.cpp:303-434 | The loops over the piece lists compute the evaluation of the position, whatever the order of the lists |
| Evaluation.EvaluationIsColourBlind | src/chess/defs.cpp:303-434 | Mirroring the rows, swapping the colours and passing the move leaves the evaluation unchanged, truncating division included |
| Evaluation.EvaluationBelowMate | src/chess/defs.cpp:303-434 | With at most ten of each type and one king each the evaluation stays strictly between -MATE and MATE |
| Evaluation.EvaluationIsBlend | src/chess/defs.cpp:427-433 | With pawns and kings only the value is the endgame sum, from phase 24 on the middlegame sum, in between within one point of the weighted mean and never beyond it, as the side to move sees it |
| Evaluation.PhaseByCounts | src/chess/defs.cpp:303-425 | The phase is the number of knights and bishops, twice the rooks and four times the queens |
| Evaluation.PiecesCountForTheirSide | src/chess/defs.cpp:303-425 | Every piece but the king adds to its own side in both sums |
| Evaluation.PawnsGainOnTheWay | src/chess/defs.cpp:160-169 | On the last three rows before promotion a pawn is worth more in the endgame with every row, for both colours |
| Evaluation.OpenLines | src/chess/defs.cpp:342-381 | Three points for a rook and against a king for every empty square they see along the counted lines |
| Rays.LinesSeen | src/chess/board.cpp:393-511 | The counts are the runs of empty squares up and down the column, and on the four diagonals, up to a piece or the edge |
| Openings.StartIsMiddlegame | src/chess/defs.cpp:427-433 | In the starting position the phase is 24 and the evaluation is the middlegame sum |
| Openings.PawnEndingValue | src/chess/defs.cpp:427-433 | Kings at home and a white pawn on a2 are worth 107 to white |
| Trees.CaptureShrinks | src/chess/searcher.cpp:213-252 | The piece count falls by one on captures and en passant and stays the same otherwise; quiescence terminates |
| Trees.NegamaxIsBest | src/chess/searcher.cpp:70-180 | The plain value is attained by a legal move and no legal move exceeds it |
| Trees.QuiesceIsBest | src/chess/searcher.cpp:183-253 | The plain quiescence value is the best of standing pat and the legal captures |
| Trees.QuiesceBounded | src/chess/searcher.cpp:183-253 | Quiescence values stay strictly between -MATE and MATE |
| Trees.NegamaxBounded | src/chess/searcher.cpp:70-180 | Values stay inside the full search window, so the root search is never cut off |
| Trees.EdgeValues | src/chess/searcher.cpp:70-172 | Draws and stalemates are worth 0, a mate on the board with d plies to go -MATE - d, and out of depth the value is that of quiescence |
| Mates.MateScores | src/chess/searcher.cpp:156-173 | A search of d plies scores MATE + k or more iff the side to move can force mate within d - k plies, and -MATE - k or less iff it cannot help being mated within d - k plies |
| Mates.PrincipalMoveMates | src/chess/searcher.cpp:156-180 | A move that attains the score of a forced mate leaves the other side mated within one ply less |
| Searchers.NegamaxExact | src/chess/searcher.cpp:116-180 | When no move is left that beats alpha, alpha is in the window relation to the plain value |
| Searchers.FlipWindow | src/chess/searcher.cpp:123 | Negating value, result and window keeps the three-case window relation |
| Searchers.Searcher.PrepSearch | src/chess/searcher.cpp:317-331 | Clears history table and counters, allows searching, and remembers the root key |
| Searchers.Searcher.CheckTime | src/chess/searcher.cpp:543-549 | One reading of the clock: the search is stopped iff it was or time is up, so nothing else ever stops it and nothing restarts it |
| Searchers.Searcher.StorePvMove | src/chess/searcher.cpp:396-424 | Writes the one slot of the position, unless that would replace an entry under the root key by another position's; nothing else changes |
| Searchers.Searcher.StoreKillerMove | src/chess/searcher.cpp:475-481 | Shifts the first killer of the depth to the second place |
| Searchers.Searcher.StoreHistoryMove | src/chess/searcher.cpp:493-505 | Adds the score to one entry of the history table |
| Searchers.Searcher.PickNextMove | src/chess/searcher.cpp:333-349 | Removes the first entry of highest priority and returns it; nothing else is lost |
| Searchers.Searcher.PrincipalFirst | src/chess/searcher.cpp:351-394 | The principal move comes before every capture and killer, and before another move iff its history score is below 400000 |
| Searchers.Searcher.GoodCapturesNext | src/chess/searcher.cpp:351-394 | A capture that loses no value comes before the killers and before quiet moves with history scores up to 250000 |
| Searchers.Searcher.VictimThenAttacker | src/chess/searcher.cpp:351-394 | Among such captures the dearer victim comes first, then the cheaper attacker |
| Searchers.Searcher.KillersThen | src/chess/searcher.cpp:351-394 | The first killer comes before the second, and each before another quiet move iff the history score of that one is below 125000 or 100000 |
| Searchers.Searcher.Quiescence | src/chess/searcher.cpp:183-253 | Terminates, restores the game, is stopped by the clock alone, and unless stopped is in the window relation to the plain quiescence value |
| Searchers.Searcher.AlphaBeta | src/chess/searcher.cpp:70-180 | For every clock: stopped exactly if the clock ran out at one of its readings; restores the game; writes no table once stopped; changes the variation table only to exact entries of positions in its tree, and never the protected entry to another position's; unless stopped, the result is below alpha, exact or above beta as the plain value is; inside the window getPvMove attains it iff the slot is open |
| PvTables.GrownByStore | src/chess/searcher.cpp:396-424 | Storing an exact result keeps the table to exact entries of the tree and the protected entry in place |
| PvTables.GrownFromReply | src/chess/searcher.cpp:116-124 | What the search of a reply stores belongs to the tree of the position before it |
| PvTables.SlotAfterwards | src/chess/searcher.cpp:404-417 | A protected slot stays protected, and a changed slot holds an exact entry of the tree |
| PvTables.SlotOpenIff | src/chess/searcher.cpp:396-417 | If the searched position is the protected one, or no position within the depth less one has the protected key, the slot is open after the search iff it was before |
| PvTables.GuardedFindsNothing | src/chess/searcher.cpp:404-437 | If the slot holds another position under the protected key, getPvMove finds nothing after any search |
| PvTables.EvictedIff | src/chess/searcher.cpp:404-417 | An entry survives the storing of another position in its slot iff it is the protected one |
| PvTables.FoundIsLegal | src/chess/searcher.cpp:426-437 | From a table without the position's key, any search, stopped or not, leaves getPvMove with no move or, collisions within the searched depth less one aside, a legal one |
| PvTables.HarvestKept | src/chess/searcher.cpp:32-45 | A further iteration, completed or interrupted, does not lose what completed ones have stored, within the depths actually searched |
| PvTables.HarvestIsSafe | src/chess/searcher.cpp:426-437 | After a completed iteration, collisions within the searched depth less one aside, what getPvMove finds is a legal move of the root whatever the table held, and at the protected root it finds one |
| PvTables.FromTreeIsLegal | src/chess/searcher.cpp:426-437 | Collisions within the searched depth less one aside, an exact entry under the root's key holds a legal move of the root |
| Searchers.Searcher.RecordCutoff | src/chess/searcher.cpp:133-149 | A cutoff counts, and only a quiet move enters the killer and history tables |
| Searchers.Searcher.SearchRoot | src/chess/searcher.cpp:32-45 | With the full window the result is the plain negamax value; getPvMove attains it with a legal move iff the root's slot is open afterwards; and, if the root is the protected position or the protected key does not occur within the depth less one, iff the slot was open before |
| Searchers.Searcher.Deepen | src/chess/searcher.cpp:22-45 | For every clock: the game is restored, only the clock stops it below the depth limit, the score is that of the last completed depth, the table changes only to exact entries within the depth last started, and after one completed depth an open root slot holds such an entry, the root's own if it is the protected position |
| Engines.Recommend | src/chess_handler.cc:216-222 | For every clock and every content of the table: no move if the root's slot holds the protected key of the cleared board; a move found is legal, collisions within the depth started less one aside, if the table held no entry under the root's key or a depth was completed; after the deepest iteration it is a best move iff the slot was open before; without a time-out all depths are completed |
| Engines.RunSearch | src/chess/searcher.cpp:22-45 | The same for any searcher that has been prepared at any protected key |
| Engines.GuardedRoot | src/chess_handler.cc:217-222 | A root with a legal move for which no search of any depth leaves a move, because the table holds the key of the cleared board in its slot |
| Engines.SideOnlyOk | include/chess/board.h:67-72 | Keys under which this happens: all 0 except that of white to move |
| Repetition.End | src/chess/movegen.cpp:1106-1247 | Every position of every game is well formed |
| Repetition.PotentialFalls | src/chess/board.cpp:366-391 | Piece count plus pawn distances never rises and falls exactly on captures and pawn moves |
| Repetition.WindowIsEnough | src/chess/board.cpp:366-391 | Hash collisions aside, counting from any earlier record gives the same number as counting from the fifty-move mark |
| Repetition.RepetitionIsThirdOccurrence | src/chess/board.cpp:366-391 | Hash collisions aside, the window counts two earlier occurrences iff the whole position, en passant square included, has occurred at least twice before in the whole game |
| Repetition.DrawnExactly | src/chess/searcher.cpp:90-94 | In every game, hash collisions aside, the search calls a draw iff the position has occurred at least twice before or none of the last hundred moves has landed on a piece or moved a pawn |
| Repetition.MarkMeans | src/chess/movegen.cpp:1234-1238 | The fifty-move mark is at most i iff every move from the i-th on neither lands on a piece nor moves a pawn |
| Repetition.SameByRulesIff | src/chess/movegen.cpp:1203-1213 | Two positions that agree apart from the en passant square have the same legal moves iff they are equal or neither has a legal en passant capture |
| Repetition.OccursIff | src/chess/board.cpp:366-391 | The test misses exactly those occurrences by Article 9.2 that have another en passant square, and in those nothing can be captured en passant |
| Repetition.ThirdTimeUnseen | src/chess/searcher.cpp:90-94 | A game of king moves after a double step: by the rules the position is there a third time after 8 moves, for the test after 12 |
| Fen.FenRoundTrip | src/chess/board.cpp:17-240 | Reading the text of a well-formed position gives the same squares, side, rights and en passant square |
| Fen.TextKeepsKey | src/chess/board.cpp:17-240 | A printed text repeats no castling letter, so reading it back restores the key under the same random keys |
| Fen.TextIsInjective | src/chess/board.cpp:166-240 | Two well-formed positions with the same text are the same |
| Fen.RowReads | src/chess/board.cpp:29-101 | Reading the rest of a printed row fills in the rest of the row, run lengths included |
| Fen.EpReads | src/chess/board.cpp:226-238 | The printed en passant row is derived from the side to move; it is the right one for every truthful square |
| Fen.StandardIff | src/chess/board.cpp:211-224 | The castling field read from a printed text is the one the standard asks for iff some right is left |
| Fen.LettersOnly | src/chess/board.cpp:211-224 | The printed castling letters are empty iff there is no right, and never contain a dash |
| Notation.ParseMeans | src/chess/board.cpp:17-164 | Every accepted text describes the position it is read as: rows from rank 8 between slashes, digits for empty squares, letters by the way the piece moves with white in capitals, w for the side whose pawns go up the board, K and Q for castling to the right and left, file letter and rank digit of the en passant square |
| Notation.DescribedOnce | src/chess/board.cpp:17-164 | A text describes at most one position |
| Notation.TextMeans | src/chess/board.cpp:166-240 | The printed text of a well-formed position describes it |
| Notation.RowsRuns | src/chess/board.cpp:170-191 | Every run of empty squares is printed as one digit |
| Openings.StartIsRead | src/chess/board.cpp:17-164 | The usual text of the starting position is read as that position |
| Openings.StartText | src/chess/board.cpp:166-240 | The starting position is printed as that text |
| Boards.Board.ParseFen | src/chess/board.cpp:17-164 | Returns whether the text is accepted and sets up its position, which is the one the text describes (Notation.ParseMeans), with every redundant form; the key is off by exactly the keys of the rights whose letters are repeated an even number of times |
| Boards.Board.ParseRight | src/chess/board.cpp:129-144 | One castling letter sets its right and flips its key, held or not |
| Fen.StrayStep | src/chess/board.cpp:129-144 | Only a repeated letter changes what the key is off by, and each time by the key of its right |
| Fen.KeyTrueIff | src/chess/board.cpp:118-148 | After a text the key is the key of the position iff the keys of the rights whose letters occur a positive even number of times cancel out |
| Fen.OddIsHarmless | src/chess/board.cpp:129-144 | If every castling letter occurs an odd number of times or never, the key is right |
| Fen.RepeatedLetter | src/chess/board.cpp:129-144 | A text with `KK` is accepted with the right, and its key is off by the key of that right |
| Boards.Board.GetFen | src/chess/board.cpp:166-240 | Returns the text of the position, which describes it if it is well formed (Notation.TextMeans) |
| Boards.Board.RowFen | src/chess/board.cpp:170-191 | Prints one row: a letter for each piece and the lengths of the runs between them |
| ChessHandlers.HandleMove | src/chess_handler.cc:79-89 | Refuses a rejected text, otherwise answers the move request |
| ChessHandlers.MovePieces | src/chess_handler.cc:105-210 | Accepts iff the four characters name squares and the move with automatic promotion is legal; then answers with the text of the successor and the verdict on it |
| ChessHandlers.PromotionChoiceIsFree | src/chess_handler.cc:136-139 | Whether a promotion is legal does not depend on the piece chosen, so a fixed choice refuses no square pair |
| ChessHandlers.AcceptedExactly | src/chess_handler.cc:105-168 | A square pair is accepted iff some legal move joins the squares and it is not a black pawn reaching its last row |
| ChessHandlers.VerdictMeans | src/chess_handler.cc:170-200 | After an accepted move the verdict is w or b iff that side has just mated, d iff it has left the other side without a move and not in check, x iff the other side can move |
| ChessHandlers.MovedPieceStands | src/chess_handler.cc:136-168 | The start is empty and the moved piece stands on the target, or a white queen if a white pawn has reached its last row |
| Openings.KnightOpens | src/chess_handler.cc:105-168 | The request 7152, the knight to c3, is accepted on the starting text |
| ChessHandlers.BlackPromotionRefused | src/chess_handler.cc:136-168 | A position in which a legal promotion of black's is refused |
| ChessHandlers.LonePawnWellFormed | src/chess_handler.cc:136-168 | That position is well formed |
| ChessHandlers.LonePawnField | src/chess/board.cpp:211-224 | The same position is printed with an empty castling field |
| ChessHandlers.RequestsFollowTheGame | src/chess_handler.cc:105-210 | A game sent request by request, each with the text of the last answer, visits exactly the positions of one continuous game |
| ConfigTrees.NginxConfigParser.ParseToken | src/config_parser.cc:169-283 | The loop over the stream returns the next token and leaves the stream right after it |
| ConfigTrees.NginxConfigParser.Parse | src/config_parser.cc:285-369 | Returns true iff the stack machine accepts the text, and then the linked objects under the config hold the statements it had and those of the text; accepted or not, the statements it had stay in front, with the trees they held; the stack is never read when empty |
| ConfigTrees.NginxConfigParser.AddToken | src/config_parser.cc:306-321 | Writing through the top of the stack changes the machine's tree in the same place and no other open or finished statement; the outermost config only grows |
| ConfigTrees.NginxConfigParser.OpenBlock | src/config_parser.cc:327-335 | The new config is the child of the last statement of the old top and the new top |
| ConfigTrees.CloseBlock | src/config_parser.cc:336-346 | Popping a block leaves it complete as the child of the statement below, with nothing copied |
| ConfigTrees.ShowsAmongMore | src/config_parser.cc:285-369 | A finished part of the tree stays what it is while more objects are finished |
| ConfigTrees.NginxConfig.ToString | src/config_parser.cc:23-29 | Prints the text of the tree that the objects hold |
| ConfigTrees.NginxConfigStatement.ToString | src/config_parser.cc:130-153 | Prints the text of the statement that the object holds, blocks one level deeper |
| ConfigParsers.AcceptedIsDerived | src/config_parser.cc:285-369 | An accepted text spells the returned tree token by token |
| ConfigParsers.RunAll | src/config_parser.cc:285-369 | From any state between statements, the tokens of a list of statements append exactly these statements |
| ConfigParsers.ParserDecidesGrammar | src/config_parser.cc:285-369 | The parser returns a tree iff, comments erased, the text is its derivation in (NORMAL+ (`;` or `{` config `}`))* |
| ConfigParsers.AcceptedIffDerivable | src/config_parser.cc:285-369 | A text is accepted iff some tree derives it, and that tree is unique |
| ConfigParsers.TokenSurvives | src/config_parser.cc:169-283 | A printed token is read back as itself iff it is plain, or quoted without an inner matching quote or backslash |
| ConfigParsers.VisibleStatements | src/config_parser.cc:23-29 | The printed text of printable statements has exactly their tokens, at every depth and before any further text |
| ConfigParsers.ConfigRoundTrip | src/config_parser.cc:130-153 | Printing at any depth and parsing rebuilds the same tree |
| ConfigParsers.RoundTripIff | src/config_parser.cc:130-153 | At every depth, a tree comes back from its printed text iff every statement has a token and every token is admissible |
| ConfigParsers.TextInLines | src/config_parser.cc:130-153 | The printed text is whole lines, each behind two blanks for every block it stands in, with closing braces under their heads |
| ConfigParsers.CommentsChangeNothing | src/config_parser.cc:169-283 | A comment from a hash sign to the end of the line changes nothing about a parse |
| ConfigParsers.BlanksChangeNothing | src/config_parser.cc:169-283 | Nor does more white space before a token |
| ConfigParsers.EscapedReads | src/config_parser.cc:169-283 | With backslashes before quotes and backslashes every text can be quoted, and is read without them |
| ConfigParsers.CutOffExactly | src/config_parser.cc:276-282 | For every accepted text: a line break after it changes nothing iff the text ends between tokens or in a comment, and otherwise makes it rejected |
| ConfigParsers.CutOffWord | src/config_parser.cc:257-264 | A word cut off by the end of the file is accepted and dropped |
| ConfigParsers.CutOffEscape | src/config_parser.cc:265-282 | An open quote cut off after a backslash is accepted and dropped, although an open quote is an error |
| ConfigParsers.ParseAppends | src/config_parser.cc:285-369 | Statements already in the output config are kept and change nothing else about a parse |
| CrudHandlers.GetEntity | src/crud_handler.cc:21-33 | The entity is free of slashes and is what follows the location up to the next slash |
| CrudHandlers.DecimalInjective | src/crud_handler.cc:163 | Different ids have different decimal texts |
| CrudHandlers.DecimalReads | src/crud_handler.cc:163 | The text of an id is digits without a leading zero that say the id in base ten |
| CrudHandlers.PathInjective | src/crud_handler.cc:163 | Different resources of an endpoint never share a file |
| CrudHandlers.MockFilesystem.WriteFile | src/mock_filesystem.cc:9-12 | The path holds the data and no other path changes |
| CrudHandlers.MockFilesystem.ReadFile | src/mock_filesystem.cc:14-20 | Succeeds iff the path exists, with its data; otherwise the data is left alone |
| CrudHandlers.MockFilesystem.DeleteFile | src/mock_filesystem.cc:22-28 | Succeeds iff the path existed; it is gone and no other path changes |
| CrudHandlers.SmallestAvailable | src/crud_handler.cc:147-156 | The least free positive id if no id is below 1, otherwise 1 |
| CrudHandlers.ScanIsRightIff | src/crud_handler.cc:147-156 | The scan finds the least free positive id iff no id is below 1 or 1 is free |
| CrudHandlers.ScanMisses | src/crud_handler.cc:147-156 | With the ids 0 and 1 it finds 1, which is taken |
| CrudHandlers.CrudHandler.HandleCreate | src/crud_handler.cc:125-172 | The store gains the resource with the least free id, or the request is refused as described |
| CrudHandlers.CrudHandler.HandleRetrieve | src/crud_handler.cc:174-198 | Answers with the JSON held, or that entity or id do not exist |
| CrudHandlers.CrudHandler.HandleUpdate | src/crud_handler.cc:200-241 | Replaces or adds the resource of a known entity and says which |
| CrudHandlers.CrudHandler.HandleDelete | src/crud_handler.cc:243-264 | Removes id and file together, or says what is missing |
| CrudHandlers.ListIds | src/crud_handler.cc:272-275 | The text of the ids in ascending order, each once |
| CrudHandlers.CommaTextSeparates | src/crud_handler.cc:272-280 | Cutting off the first two characters leaves the ids separated by a comma and a blank |
| CrudHandlers.CrudHandler.HandleList | src/crud_handler.cc:266-285 | Lists exactly the ids held in ascending order; an unknown entity is an empty list, a known one without ids throws |
| CrudHandlers.ListThrowsIff | src/crud_handler.cc:271-277 | Listing throws iff the entity is known and holds nothing |
| CrudHandlers.ListThrows | src/crud_handler.cc:271-277 | Such a state and request |
| CrudHandlers.CrudHandler.Serve | src/crud_handler.cc:97-123 | For every method: index and files stay in agreement, only files of the entity change, and the reply is the one the store determines |
| CrudHandlers.RefusedLeavesStore | src/crud_handler.cc:125-264 | A refused request changes the store iff it is a create with valid JSON that names an id for an unknown entity, and then adds just the entity |
| CrudHandlers.RefusedCreateLeavesEntity | src/crud_handler.cc:140-161 | Such a request on the empty store |
| CrudHandlers.StoreIsLastWritten | src/crud_handler.cc:125-264 | In every run the store holds exactly what the exchanges so far have written and not deleted |
| CrudHandlers.RunIsHonest | src/crud_handler.cc:125-264 | In every run each reply is the one the earlier exchanges call for: updates of known entities are carried out, Updated if the resource is held and Created if not; retrieve, delete and list tell what is held; create picks the least free id; other verbs are not allowed. An entity is known iff it was at the start or an earlier create had a JSON body |
| CrudHandlers.EntitiesOfRun | src/crud_handler.cc:125-264 | In every run the known entities are those of the start and those of the creates so far |
| CrudHandlers.ReadsLastWrite | src/crud_handler.cc:174-241 | In every run a retrieve returns the JSON of the last exchange that stored the resource, unless it was deleted since |
| CrudHandlers.ServeAll | src/crud_handler.cc:97-264 | Serving any list of requests on one endpoint keeps index and files in agreement and every reply honest |

## Left out

- HTTP, sockets, sessions, threads, logging and the other handlers: input and output around the modelled logic.
- URL handling in the chess handler: `%20` is already replaced, and what follows the first plus sign is a parameter. The printed board in the answer is not modelled.
- The clock is an arbitrary schedule: the parameter `clock` says for each reading whether time is up. The uninitialised variation table is the parameter `memory`.
- `multicut`, `storeTransPos`, `getTransScore`: not used by the live search.
- Random key generation: the keys are arbitrary 31-bit numbers, and hash collisions are excluded by hypothesis where they matter.
- Machine integer overflow of node counters and history scores: both are unbounded here.
- `printBoard`, `printMoves` and other debug output.
- The eight copied ray loops and the copied pawn code of the two colours are one method each, called once for each direction or colour, and so are the evaluation loops of the two colours; the order of the generated moves is the code's.
- The getters of `Board` that return one field or one list entry.
- Number parsing in `get_id` and JSON parsing: a request carries the parsed number and either a JSON text or the fact that it is malformed.
- Several CRUD endpoints over overlapping data paths, and the real file system.
- The config accessors `get_path_from_config`, `get_handler_types` and `get_port_from_config`.
- Searchers.Searcher.Deepen: one run of the deepening loop from a depth below the limit; the score is an integer here and a `float` there. `ponder` and the endless retry of `reccomendMove` while no move is found are not modelled, nor the rest of `handle_ai` after the search.
- ConfigTrees.NginxConfigParser.Parse: which statements of the text a failed parse has already added to the output is not stated; the function discards nothing.
- Boards.Board.ParseFen: requires that the text is not corrupt: no piece or en passant square off the board, and no eleventh piece of a type, which the code would write into the list slots of the next type. What a rejected text leaves on the board beyond validity is not stated, because the caller discards it. The halfmove and fullmove fields of FEN are neither read nor written by the code.
- ChessHandlers.HandleMove: requires an accepted text to describe a well-formed position, because the code checks nothing of the kind and its move generator reads outside its arrays otherwise.
- ChessHandlers.MovePieces: the same entry condition.
