# sfml-checkers: board model, move value and move selection in Dafny

This project models the rules-engine side of a two-player checkers game
written in C++ on top of SFML:

- **GameModel** (`game.dfy`, after `Game.h` and `Game.cpp`): the `Game`
  object with its 8×8 board of `SpaceStatus` cells, the white/black turn
  flag, the list of legal moves, the list of legal jumps and the pending
  move launcher. The constructor allocates an all-EMPTY board and `Setup`
  walks it row by row, column by column, writing WHITE on the dark squares
  (row + column odd) of rows 0–2, BLACK on those of rows 5–7 and EMPTY on
  those of rows 3–4; light squares are never written. The queries
  (`IsValidBoardIndex`, `ContainsPiece`, `IsPieceOfCurrentPlayer`,
  `IsLegalMove`, `GetBoardData`) are functions of that state; `SwitchTurns`,
  `OnMoveSelectionEvent` and `OnMoveSelectionFinalized` change it in place.
  `Game.h`'s `CheckersMove` is a (source, destination) datatype, so
  `GetCheckersMove(source, destination)` is its constructor.
  `CheckersMoveLauncher` collects a source and then a destination.
- **MoveHelper** (`move_helper.dfy`, after `CheckersMoveHelper.h` and
  `CheckersMoveHelper.cpp`): the `CheckersMove` object. `SetDestination`
  derives the distance (row difference, column difference), the length (the
  floor of the Euclidean length) and the direction (truncated quotients,
  axes swapped). The `CheckersMoveHelper` turns two clicks into a move: the
  first latches a square holding a piece as source, the second completes
  the move, hands it to the game and resets.
- **Log** (`log.dfy`, after `Log.cpp`): the text `AppendLoggingInfoToLog`
  appends to a debug message, ` <file> (line)` and a newline, where `file`
  is what follows the last backslash of the path. `LogDebugMessage` drops
  an empty message before formatting anything.
- **CheckersTypes** and **Wrappers** (`checkers_types.dfy`): the cell enum,
  the board size, (row, col) positions, (x, y) vectors and an `Option` type.

Two behaviours of the code that the model keeps as written:

- Selecting the same square twice launches a length-0 move holding only its
  source; the helper hands it to the game like any other
  (CheckersMoveHelper.cpp:26-32).
- The game constructor never initialises the turn flag. The model leaves
  it unspecified.

The getters (`CheckersMove.GetSource`, `GetDestination`, `GetDistance`,
`GetLength`, `GetDirection`, the launcher's `GetMoveSource`,
`GetMoveDestination` and `IsSourceSet`) read one
field each. Being functions, they change nothing, and they carry no contract
of their own.

Types the files use but do not define (`Position`, `BoardIndex`,
`Vector2D`) are (row, col) and (x, y) pairs of integers. Their default
value is taken to be (0, 0).

## Model

| member | source | states |
|---|---|---|
| GameModel.EmptyBoard | sfml-checkers/sfml-checkers/Game.cpp:10-11 | the freshly allocated board is `s_boardSize`×`s_boardSize` and every cell is EMPTY |
| GameModel.Game.constructor | sfml-checkers/sfml-checkers/Game.cpp:10-14 | after construction the board is exactly the initial placement; both move lists are empty; no launcher is pending |
| GameModel.Game.Setup | sfml-checkers/sfml-checkers/Game.cpp:20-38 | the nested row/column loops rewrite every dark square as its row demands and leave every light square as it was |
| GameModel.InitialBoard | sfml-checkers/sfml-checkers/Game.cpp:27-34 | on the initial board light squares are EMPTY; dark squares are BLACK in rows 5–7, WHITE in rows 0–2 and EMPTY in rows 3–4; no cell holds a king |
| GameModel.InitialPieceCounts | sfml-checkers/sfml-checkers/Game.cpp:22-37 | the initial board holds exactly 12 BLACK, 12 WHITE, no BLACK_KING, no WHITE_KING and 40 EMPTY cells |
| GameModel.InitialBoardPointSymmetric | sfml-checkers/sfml-checkers/Game.cpp:27-34 | turning the initial board half a turn maps every BLACK man onto a WHITE one and every empty cell onto an empty one |
| GameModel.Game.GetBoardData | sfml-checkers/sfml-checkers/Game.h:24 | the snapshot is a square board of edge `s_boardSize` that agrees with the game's board on every cell; being a function it changes nothing |
| GameModel.Game.IsValidBoardIndex | sfml-checkers/sfml-checkers/Game.h:43-44 | an index is valid exactly when it addresses a cell of the board |
| GameModel.Game.ContainsPiece | sfml-checkers/sfml-checkers/Game.h:49-50 | holds exactly when the index is on the board and a piece of either side, plain or king, stands there |
| GameModel.Game.IsPieceOfCurrentPlayer | sfml-checkers/sfml-checkers/Game.h:52-53 | holds exactly when the piece belongs to the side whose turn it is, kings counting for their side; never for EMPTY |
| GameModel.Game.GetPieceForIndex | sfml-checkers/sfml-checkers/Game.h:69-70 | the piece at a valid index is non-EMPTY exactly when `ContainsPiece` holds there, and a piece of the side to move is always a contained piece |
| GameModel.IndexOf | sfml-checkers/sfml-checkers/Game.h:92-96 | the search over a move list finds the first occurrence of the move, and finds nothing exactly when the move is not listed |
| GameModel.Game.IsLegalMove | sfml-checkers/sfml-checkers/Game.h:46-47 | reading the move and jump lists of Game.h:92-96, forced capture: while the jump list is non-empty a move is legal exactly when it is a listed jump; otherwise exactly when it is a listed move |
| GameModel.Game.SwitchTurns | sfml-checkers/sfml-checkers/Game.h:81-82 | the turn flag is negated, so the other side is to move and switching twice restores the turn |
| GameModel.CheckersMoveLauncher.constructor | sfml-checkers/sfml-checkers/Game.h:105 | a new launcher has neither source nor destination set |
| GameModel.CheckersMoveLauncher.HandleMoveSelected | sfml-checkers/sfml-checkers/Game.h:108-123 | the first call sets the source, the second the destination; the callback is due exactly on the second call, when both are set |
| GameModel.Game.OnMoveSelectionEvent | sfml-checkers/sfml-checkers/Game.h:29-30 | a selection with no pending launcher starts one holding that source; a selection with one pending completes the move, which is then finalized |
| GameModel.Game.OnMoveSelectionFinalized | sfml-checkers/sfml-checkers/Game.h:32-34 | the pending launcher is dropped whatever the outcome; the attempted move is the launcher's, and it is reported legal exactly when `IsLegalMove` holds |
| MoveHelper.CheckersMove.Default | sfml-checkers/sfml-checkers/CheckersMoveHelper.h:20 | a default-constructed move has default ends, zero vectors and length 0 |
| MoveHelper.CheckersMove.constructor | sfml-checkers/sfml-checkers/CheckersMoveHelper.h:21-26 | the two-argument constructor stores both ends and computes nothing: length 0, default distance and direction |
| MoveHelper.CheckersMove.SetSource | sfml-checkers/sfml-checkers/CheckersMoveHelper.h:27 | only the source changes; distance, length and direction are not recomputed |
| MoveHelper.CheckersMove.SetDestination | sfml-checkers/sfml-checkers/CheckersMoveHelper.h:29-35 | the move becomes `WithDestination` of its old value: new destination, then distance, length and direction derived in that order |
| MoveHelper.CheckersMove.UpdateMoveDistance | sfml-checkers/sfml-checkers/CheckersMoveHelper.h:51-56 | distance is (destination row − source row, destination column − source column) |
| MoveHelper.CheckersMove.UpdateMoveLength | sfml-checkers/sfml-checkers/CheckersMoveHelper.h:58-63 | length is the integer square root of the squared distance |
| MoveHelper.CheckersMove.UpdateMoveDirection | sfml-checkers/sfml-checkers/CheckersMoveHelper.h:65-75 | with length 0 the direction is untouched; otherwise x is the column difference and y the row difference, each divided by the length with truncation |
| MoveHelper.FloorSqrt | sfml-checkers/sfml-checkers/CheckersMoveHelper.h:61-62 | the result r satisfies r² ≤ n < (r+1)², the truncation of the square root |
| MoveHelper.FloorSqrtUnique | sfml-checkers/sfml-checkers/CheckersMoveHelper.h:61-62 | any number bracketing the square root that way is the computed length |
| MoveHelper.TruncDiv | sfml-checkers/sfml-checkers/CheckersMoveHelper.h:73-74 | C++ integer division: the quotient's magnitude is the floor of the magnitudes' quotient and its sign follows the dividend |
| MoveHelper.WithDestination | sfml-checkers/sfml-checkers/CheckersMoveHelper.h:29-35 | source kept, destination set, distance is destination − source, length brackets the Euclidean length, direction untouched when the length is 0 |
| MoveHelper.LengthZeroIffSameSquare | sfml-checkers/sfml-checkers/CheckersMoveHelper.h:58-71 | a move's length is 0 exactly when its destination equals its source |
| MoveHelper.DirectionIsUnit | sfml-checkers/sfml-checkers/CheckersMoveHelper.h:65-75 | whenever the length is positive both direction components lie in {−1, 0, 1} |
| MoveHelper.DiagonalStep | sfml-checkers/sfml-checkers/CheckersMoveHelper.h:51-75 | a one-square diagonal move has length 1 and direction (column step, row step), both ±1 |
| MoveHelper.DiagonalJump | sfml-checkers/sfml-checkers/CheckersMoveHelper.h:51-75 | a two-square diagonal move has length 2 and direction (sign of column difference, sign of row difference), both ±1 |
| MoveHelper.CheckersMove.AssignDefault | sfml-checkers/sfml-checkers/CheckersMoveHelper.cpp:35 | assigning a default-constructed move resets every field to its default |
| MoveHelper.CompletedMove | sfml-checkers/sfml-checkers/CheckersMoveHelper.cpp:24-32 | the launched move keeps the latched source and has length 0 exactly when the second square is the source; a different square becomes its destination, the same square leaves the destination unset |
| MoveHelper.CheckersMoveHelper.constructor | sfml-checkers/sfml-checkers/CheckersMoveHelper.h:84-96 | a new helper is bound to its game, holds a default move and is not selecting |
| MoveHelper.CheckersMoveHelper.HandlePositionSelected | sfml-checkers/sfml-checkers/CheckersMoveHelper.cpp:14-38 | a first selection of an occupied square latches it as source; a first selection of an empty square changes nothing; a second selection launches `CompletedMove` exactly once and resets to a default move; moves are launched once per two accepted selections |
| MoveHelper.CheckersMoveHelper.GetCheckersMove | sfml-checkers/sfml-checkers/CheckersMoveHelper.cpp:40-43 | the pending move has length 0; when not selecting it is the default move, and while selecting it is the default move with the source latched by the first selection |
| Log.LastIndexOf | sfml-checkers/sfml-checkers/Log.cpp:28 | `rfind`: the index found holds the character and no later one does; nothing is found exactly when the character is absent |
| Log.StrippedFilename | sfml-checkers/sfml-checkers/Log.cpp:26-32 | the stripped name contains no backslash; with a backslash present it is everything after the last backslash; without one it is empty |
| Log.IntToDecimal | sfml-checkers/sfml-checkers/Log.cpp:37 | the line number is written as a minus sign for negatives followed by decimal digits |
| Log.IntRoundTrip | sfml-checkers/sfml-checkers/Log.cpp:37 | reading the written digits back gives the line number |
| Log.LocationSuffixRoundTrip | sfml-checkers/sfml-checkers/Log.cpp:34-37 | the suffix ` <name> (line)\n` reads back into exactly that name and line |
| Log.AppendLoggingInfoToLog | sfml-checkers/sfml-checkers/Log.cpp:24-39 | the result starts with the original message and ends with `)\n`; what follows the message reads back as the stripped file name and the line number |
| Log.FormatDebugMessage | sfml-checkers/sfml-checkers/Log.cpp:45-52 | an empty message yields nothing to output; any other is formatted and keeps the message as its prefix |

## Left out

- `PopulateLegalCurrentMoves`, `EvaluatePossibleMovesForIndex`, `AddValidMovesForDirection`, `AddValidJumpForDirection`, `MovePiece` and `OnPieceMoved` (Game.h:40-79): declared without a body in the files modelled, so move generation, jumps, jump chains and promotion are not part of this model. The move lists are state the queries read, but no modelled operation fills them.
- GameModel.Game.OnMoveSelectionFinalized: reports whether the move is legal but does not perform it, since `MovePiece` has no body in the files modelled.
- GameModel.Game.OnMoveSelectionEvent: the body is not in the files modelled. The model creates the launcher on demand and finalizes when it fires. It does not check that the first square holds a piece.
- `GetBoardIndexFromRowCol` (Game.h:26-27): the conversion from UI coordinates has no body in the files modelled.
- `BoardIndexToString` and `DEBUG_PRINT_BOARD` (Game.h:66-84, Game.cpp:42-71): debug text written to the console.
- `LogDebugMessage`'s output to `OutputDebugString` or `std::cout` (Log.cpp:54-64): I/O. Only the formatting is modelled.
- `std::function` callbacks and the `Game*` back-pointer: the launcher returns whether its callback is due. The helper returns the launched move, and a ghost history records it. It does not call `OnLaunchMove`, which `Game.h` does not declare.
- MoveHelper.FloorSqrt: `std::sqrt` works on doubles; the model uses the exact integer floor square root and does not model floating-point rounding.
- 32-bit `int` overflow is not modelled. This covers the squared distance in `UpdateMoveLength` and the line number.
- The turn flag after construction: the source leaves `m_whitePlayerTurn` uninitialised, so the model promises nothing about it.
- Destructors, `s_squareSize`, and the unused `s_maxLength` and `MessageType` of Log.cpp: they have no behaviour to model.
- SceneRenderer, AppController and main.cpp: window, event loop and drawing.
