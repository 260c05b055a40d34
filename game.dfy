/**
 The game state of Game.h / Game.cpp: the board, the turn flag, the two
 lists of legal moves and the pending move launcher, together with the
 initial placement written by `Setup`.
 */
module GameModel {
  import opened Wrappers
  import opened CheckersTypes

  /** Game.h addresses cells with a `BoardIndex`, a (row, col) pair. */
  type BoardIndex = Position

  /** Rows of cells, `BoardSize` rows of `BoardSize` cells once constructed. */
  type BoardData = seq<seq<SpaceStatus>>

  /** Game.h's `CheckersMove`: a source and a destination index. */
  datatype CheckersMove = CheckersMove(source: BoardIndex, destination: BoardIndex)

  function DefaultCheckersMove(): CheckersMove
  {
    CheckersMove(DefaultPosition(), DefaultPosition())
  }

  predicate IsBoardShape(b: BoardData)
  {
    |b| == BoardSize && forall r :: 0 <= r < |b| ==> |b[r]| == BoardSize
  }

  predicate InRange(row: int, col: int)
  {
    0 <= row < BoardSize && 0 <= col < BoardSize
  }

  /** The squares `Setup` fills: those whose row and column sum to an odd number. */
  predicate IsDarkSquare(row: int, col: int)
  {
    (row + col) % 2 == 1
  }

  /** What `Setup` writes on a dark square of the given row. */
  function DarkSquareContent(row: int): SpaceStatus
  {
    if row > 4 then BLACK else if row < 3 then WHITE else EMPTY
  }

  /** The board as the constructor allocates it, before `Setup`. */
  function EmptyBoard(): (b: BoardData)
    ensures IsBoardShape(b)
    ensures forall r, c :: InRange(r, c) ==> b[r][c] == EMPTY
  {
    seq(BoardSize, _ => seq(BoardSize, _ => EMPTY))
  }

  /** The board `Setup` leaves when it starts from `before`. */
  function SetupBoard(before: BoardData): (b: BoardData)
    requires IsBoardShape(before)
    ensures IsBoardShape(b)
  {
    seq(BoardSize, r requires 0 <= r < BoardSize =>
      seq(BoardSize, c requires 0 <= c < BoardSize =>
        if IsDarkSquare(r, c) then DarkSquareContent(r) else before[r][c]))
  }

  /** The board right after construction. */
  function InitialBoard(): (b: BoardData)
    ensures IsBoardShape(b)
    ensures forall r, c :: InRange(r, c) && !IsDarkSquare(r, c) ==> b[r][c] == EMPTY
    ensures forall r, c :: InRange(r, c) && IsDarkSquare(r, c) && r > 4 ==> b[r][c] == BLACK
    ensures forall r, c :: InRange(r, c) && IsDarkSquare(r, c) && r < 3 ==> b[r][c] == WHITE
    ensures forall r, c :: InRange(r, c) && 3 <= r <= 4 ==> b[r][c] == EMPTY
    ensures forall r, c :: InRange(r, c) ==> b[r][c] != BLACK_KING && b[r][c] != WHITE_KING
  {
    SetupBoard(EmptyBoard())
  }

  /** Number of cells of `row` holding `s`. */
  function CountInRow(row: seq<SpaceStatus>, s: SpaceStatus): (n: nat)
    ensures n <= |row|
  {
    if row == [] then 0
    else CountInRow(row[..|row| - 1], s) + (if row[|row| - 1] == s then 1 else 0)
  }

  /** Number of cells of the board holding `s`. */
  function CountOnBoard(b: BoardData, s: SpaceStatus): nat
  {
    if b == [] then 0
    else CountOnBoard(b[..|b| - 1], s) + CountInRow(b[|b| - 1], s)
  }

  /** Number of dark squares among the first `k` columns of row `r`. */
  function DarkColumnsBefore(r: int, k: int): int
  {
    if r % 2 == 0 then k / 2 else (k + 1) / 2
  }

  /** Cells of row `r` of the initial board holding `s`, among its first `k` columns. */
  function InitialRowPrefixCount(r: int, k: int, s: SpaceStatus): int
  {
    (if DarkSquareContent(r) == s then DarkColumnsBefore(r, k) else 0)
    + (if s == EMPTY then k - DarkColumnsBefore(r, k) else 0)
  }

  /** Cells of the first `k` rows of the initial board holding `s`. */
  function InitialRowsCount(k: nat, s: SpaceStatus): int
  {
    if k == 0 then 0 else InitialRowsCount(k - 1, s) + InitialRowPrefixCount(k - 1, BoardSize, s)
  }

  lemma DarkColumnsStep(r: int, k: int)
    ensures DarkColumnsBefore(r, k + 1) == DarkColumnsBefore(r, k) + (if IsDarkSquare(r, k) then 1 else 0)
  {
  }

  lemma {:induction false} InitialRowPrefix(r: int, k: int, s: SpaceStatus)
    requires 0 <= r < BoardSize && 0 <= k <= BoardSize
    ensures CountInRow(InitialBoard()[r][..k], s) == InitialRowPrefixCount(r, k, s)
  {
    var row := InitialBoard()[r];
    if k > 0 {
      InitialRowPrefix(r, k - 1, s);
      assert row[..k][..k - 1] == row[..k - 1];
      assert row[k - 1] == if IsDarkSquare(r, k - 1) then DarkSquareContent(r) else EMPTY;
      DarkColumnsStep(r, k - 1);
    } else {
      assert row[..k] == [];
    }
  }

  lemma {:induction false} InitialRowsPrefix(k: nat, s: SpaceStatus)
    requires k <= BoardSize
    ensures CountOnBoard(InitialBoard()[..k], s) == InitialRowsCount(k, s)
  {
    var b := InitialBoard();
    if k > 0 {
      InitialRowsPrefix(k - 1, s);
      assert b[..k][..k - 1] == b[..k - 1];
      InitialRowPrefix(k - 1, BoardSize, s);
      assert b[k - 1][..BoardSize] == b[k - 1];
    }
  }

  /** The initial placement holds twelve men per side, no king and forty empty cells. */
  lemma InitialPieceCounts()
    ensures CountOnBoard(InitialBoard(), BLACK) == 12
    ensures CountOnBoard(InitialBoard(), WHITE) == 12
    ensures CountOnBoard(InitialBoard(), BLACK_KING) == 0
    ensures CountOnBoard(InitialBoard(), WHITE_KING) == 0
    ensures CountOnBoard(InitialBoard(), EMPTY) == 40
  {
    var b := InitialBoard();
    assert b[..BoardSize] == b;
    forall s | true ensures CountOnBoard(b, s) == InitialRowsCount(BoardSize, s) {
      InitialRowsPrefix(BoardSize, s);
    }
    forall s | true ensures InitialRowsCount(BoardSize, s) ==
      InitialRowPrefixCount(0, 8, s) + InitialRowPrefixCount(1, 8, s) + InitialRowPrefixCount(2, 8, s)
      + InitialRowPrefixCount(3, 8, s) + InitialRowPrefixCount(4, 8, s) + InitialRowPrefixCount(5, 8, s)
      + InitialRowPrefixCount(6, 8, s) + InitialRowPrefixCount(7, 8, s)
    {
      assert InitialRowsCount(8, s) == InitialRowsCount(7, s) + InitialRowPrefixCount(7, 8, s);
      assert InitialRowsCount(7, s) == InitialRowsCount(6, s) + InitialRowPrefixCount(6, 8, s);
      assert InitialRowsCount(6, s) == InitialRowsCount(5, s) + InitialRowPrefixCount(5, 8, s);
      assert InitialRowsCount(5, s) == InitialRowsCount(4, s) + InitialRowPrefixCount(4, 8, s);
      assert InitialRowsCount(4, s) == InitialRowsCount(3, s) + InitialRowPrefixCount(3, 8, s);
      assert InitialRowsCount(3, s) == InitialRowsCount(2, s) + InitialRowPrefixCount(2, 8, s);
      assert InitialRowsCount(2, s) == InitialRowsCount(1, s) + InitialRowPrefixCount(1, 8, s);
    }
  }

  /** Turning the initial board half a turn around exchanges the two sides' men. */
  lemma InitialBoardPointSymmetric(r: int, c: int)
    requires InRange(r, c)
    ensures InitialBoard()[r][c] == BLACK <==> InitialBoard()[BoardSize - 1 - r][BoardSize - 1 - c] == WHITE
    ensures InitialBoard()[r][c] == EMPTY <==> InitialBoard()[BoardSize - 1 - r][BoardSize - 1 - c] == EMPTY
  {
  }

  /** Position of the first occurrence of `m` in `moves`, if any. */
  function IndexOf(moves: seq<CheckersMove>, m: CheckersMove): (r: Option<nat>)
    ensures r.Some? ==> r.value < |moves| && moves[r.value] == m && m !in moves[..r.value]
    ensures r.None? <==> m !in moves
  {
    if moves == [] then None
    else if moves[0] == m then Some(0)
    else match IndexOf(moves[1..], m)
      case None => None
      case Some(k) =>
        assert moves[1..][..k] == moves[1..k + 1];
        Some(k + 1)
  }

  /**
   The pending move launcher of Game.h: through sequential calls it records
   a source and then a destination, and asks for its callback (here: says so
   through its result) once both are set.
   */
  class CheckersMoveLauncher {
    var checkersMove: CheckersMove
    var isSourceSet: bool
    var isDestinationSet: bool

    ghost predicate Valid()
      reads this
    {
      isDestinationSet ==> isSourceSet
    }

    /** The callback argument of the source is the caller itself; see `Game.OnMoveSelectionEvent`. */
    constructor ()
      ensures Valid()
      ensures !isSourceSet && !isDestinationSet
      ensures checkersMove == DefaultCheckersMove()
    {
      checkersMove := DefaultCheckersMove();
      isSourceSet := false;
      isDestinationSet := false;
    }

    /**
     The first call sets the source, the second the destination; `launch`
     is true exactly when the callback is due, i.e. when both are set.
     */
    method HandleMoveSelected(moveSource: BoardIndex) returns (launch: bool)
      requires Valid() && !isDestinationSet
      modifies this
      ensures Valid()
      ensures launch <==> isSourceSet && isDestinationSet
      ensures launch <==> old(isSourceSet)
      ensures isSourceSet
      ensures !old(isSourceSet) ==> checkersMove == old(checkersMove).(source := moveSource)
      ensures old(isSourceSet) ==> checkersMove == CheckersMove(old(checkersMove.source), moveSource)
    {
      if !isSourceSet {
        checkersMove := checkersMove.(source := moveSource);
        isSourceSet := true;
        launch := false;
      } else {
        checkersMove := checkersMove.(destination := moveSource);
        isDestinationSet := true;
        launch := true;
      }
    }

    function GetMoveSource(): BoardIndex
      reads this
    {
      checkersMove.source
    }

    function GetMoveDestination(): BoardIndex
      reads this
    {
      checkersMove.destination
    }

    predicate IsSourceSet()
      reads this
    {
      isSourceSet
    }
  }

  class Game {
    /** Every cell of the board and what piece, if any, stands on it. */
    var boardData: BoardData
    /** All moves of the player to move, recomputed each turn. */
    var legalDestinations: seq<CheckersMove>
    /** All jumps of the player to move; when not empty a move must come from here. */
    var legalJumpDestinations: seq<CheckersMove>
    /** When false it is black's turn. */
    var whitePlayerTurn: bool
    /** Holds the source of a move while its destination is awaited. */
    var pendingMoveLauncher: CheckersMoveLauncher?

    /**
     Between two selection events the board is square and a pending launcher
     always holds a source and no destination (it is dropped once it fires).
     */
    ghost predicate Valid()
      reads this, pendingMoveLauncher
    {
      && IsBoardShape(boardData)
      && (pendingMoveLauncher != null ==>
            pendingMoveLauncher.Valid() && pendingMoveLauncher.isSourceSet && !pendingMoveLauncher.isDestinationSet)
    }

    /**
     Allocates an all-EMPTY board and runs `Setup`. The source never
     initialises the turn flag, so nothing is promised about it.
     */
    constructor ()
      ensures Valid()
      ensures boardData == InitialBoard()
      ensures legalDestinations == [] && legalJumpDestinations == []
      ensures pendingMoveLauncher == null
    {
      boardData := EmptyBoard();
      legalDestinations := [];
      legalJumpDestinations := [];
      whitePlayerTurn := *;
      pendingMoveLauncher := null;
      new;
      Setup();
    }

    /** Writes every dark square, row by row; light squares are never written. */
    method Setup()
      requires IsBoardShape(boardData)
      modifies this`boardData
      ensures boardData == SetupBoard(old(boardData))
    {
      ghost var before := boardData;
      var row := 0;
      while row < BoardSize
        invariant 0 <= row <= BoardSize
        invariant IsBoardShape(boardData)
        invariant forall r, c :: InRange(r, c) ==>
          boardData[r][c] == if r < row && IsDarkSquare(r, c) then DarkSquareContent(r) else before[r][c]
      {
        var col := 0;
        while col < BoardSize
          invariant 0 <= col <= BoardSize
          invariant IsBoardShape(boardData)
          invariant forall r, c :: InRange(r, c) ==>
            boardData[r][c] ==
              if (r < row || (r == row && c < col)) && IsDarkSquare(r, c) then DarkSquareContent(r) else before[r][c]
        {
          if (row + col) % 2 != 0 {
            var v := if row > 4 then BLACK else if row < 3 then WHITE else EMPTY;
            boardData := boardData[row := boardData[row][col := v]];
          }
          col := col + 1;
        }
        row := row + 1;
      }
      assert forall r :: 0 <= r < BoardSize ==> boardData[r] == SetupBoard(before)[r];
    }

    /** The board snapshot handed to the renderer. */
    function GetBoardData(): (b: BoardData)
      requires Valid()
      reads this, pendingMoveLauncher
      ensures IsBoardShape(b)
      ensures forall r, c :: InRange(r, c) ==> b[r][c] == boardData[r][c]
    {
      boardData
    }

    /** The side whose turn it is: white when the flag is set, black otherwise. */
    function SideToMove(): Side
      reads this
    {
      if whitePlayerTurn then White else Black
    }

    predicate IsValidBoardIndex(boardIndex: BoardIndex)
      requires IsBoardShape(boardData)
      reads this
      ensures IsValidBoardIndex(boardIndex) <==>
        0 <= boardIndex.row < |boardData| && 0 <= boardIndex.col < |boardData[boardIndex.row]|
    {
      0 <= boardIndex.row < BoardSize && 0 <= boardIndex.col < BoardSize
    }

    /** The cell at a valid index: a piece there is exactly what `ContainsPiece` reports. */
    function GetPieceForIndex(index: BoardIndex): (p: SpaceStatus)
      requires IsBoardShape(boardData) && IsValidBoardIndex(index)
      reads this
      ensures p != EMPTY <==> ContainsPiece(index)
      ensures IsPieceOfCurrentPlayer(p) ==> ContainsPiece(index)
    {
      boardData[index.row][index.col]
    }

    /** An index outside the board holds no piece. */
    predicate ContainsPiece(boardIndex: BoardIndex)
      requires IsBoardShape(boardData)
      reads this
      ensures ContainsPiece(boardIndex) <==>
        IsValidBoardIndex(boardIndex) && Owner(boardData[boardIndex.row][boardIndex.col]).Some?
    {
      IsValidBoardIndex(boardIndex) && boardData[boardIndex.row][boardIndex.col] != EMPTY
    }

    predicate IsPieceOfCurrentPlayer(piece: SpaceStatus)
      reads this
      ensures IsPieceOfCurrentPlayer(piece) <==> Owner(piece) == Some(SideToMove())
      ensures IsPieceOfCurrentPlayer(piece) ==> piece != EMPTY
    {
      if whitePlayerTurn then piece == WHITE || piece == WHITE_KING
      else piece == BLACK || piece == BLACK_KING
    }

    /**
     A move is legal when it is listed; while any jump is listed only the
     jumps are (forced capture).
     */
    predicate IsLegalMove(move: CheckersMove)
      reads this
      ensures legalJumpDestinations != [] ==> (IsLegalMove(move) <==> move in legalJumpDestinations)
      ensures legalJumpDestinations == [] ==> (IsLegalMove(move) <==> move in legalDestinations)
    {
      var candidates := if |legalJumpDestinations| > 0 then legalJumpDestinations else legalDestinations;
      IndexOf(candidates, move).Some?
    }

    method SwitchTurns()
      modifies this`whitePlayerTurn
      ensures whitePlayerTurn == !old(whitePlayerTurn)
      ensures SideToMove() != old(SideToMove())
    {
      whitePlayerTurn := !whitePlayerTurn;
    }

    /**
     Forwards a selection to the pending launcher, creating one if none is
     pending; when the launcher fires, the move is finalized.
     */
    method OnMoveSelectionEvent(boardIndex: BoardIndex) returns (attempted: Option<CheckersMove>, legal: bool)
      requires Valid()
      modifies this`pendingMoveLauncher, pendingMoveLauncher
      ensures Valid()
      ensures old(pendingMoveLauncher) == null ==>
        && attempted == None && !legal
        && pendingMoveLauncher != null && fresh(pendingMoveLauncher)
        && pendingMoveLauncher.checkersMove.source == boardIndex
      ensures old(pendingMoveLauncher) != null ==>
        && attempted == Some(CheckersMove(old(pendingMoveLauncher.checkersMove.source), boardIndex))
        && legal == IsLegalMove(attempted.value)
        && pendingMoveLauncher == null
    {
      if pendingMoveLauncher == null {
        pendingMoveLauncher := new CheckersMoveLauncher();
      }
      var launch := pendingMoveLauncher.HandleMoveSelected(boardIndex);
      if launch {
        var move;
        move, legal := OnMoveSelectionFinalized();
        attempted := Some(move);
      } else {
        attempted, legal := None, false;
      }
    }

    /**
     Called once the launcher holds both ends of a move: drops the launcher
     whatever the outcome and reports the move and whether it is legal.
     */
    method OnMoveSelectionFinalized() returns (move: CheckersMove, legal: bool)
      requires IsBoardShape(boardData)
      requires pendingMoveLauncher != null && pendingMoveLauncher.Valid()
      requires pendingMoveLauncher.isDestinationSet
      modifies this`pendingMoveLauncher
      ensures pendingMoveLauncher == null
      ensures move == old(pendingMoveLauncher.checkersMove)
      ensures legal <==> IsLegalMove(move)
      ensures Valid()
    {
      move := pendingMoveLauncher.checkersMove;
      pendingMoveLauncher := null;
      legal := IsLegalMove(move);
    }
  }
}
