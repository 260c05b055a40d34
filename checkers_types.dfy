/** An optional value, returned by the searches of the model. */
module Wrappers {

  datatype Option<+T> = None | Some(value: T)
}

/**
 Shared vocabulary of the checkers board: the cell contents, the board
 edge length, board coordinates and the integer vector used by moves.
 */
module CheckersTypes {
  import opened Wrappers

  /** Edge length of the square board. */
  const BoardSize: int := 8

  /** Contents of one board cell; the five variants of the source enumeration. */
  datatype SpaceStatus = BLACK | WHITE | BLACK_KING | WHITE_KING | EMPTY

  /** The two players. */
  datatype Side = Black | White

  /**
   A board coordinate. The source's `Position` and `BoardIndex` are not part
   of this model; both are taken to be a (row, col) pair of integers whose
   default value is (0, 0).
   */
  datatype Position = Position(row: int, col: int)

  /** The source's `Vector2D`, an (x, y) pair of integers, default (0, 0). */
  datatype Vector2D = Vector2D(x: int, y: int)

  function DefaultPosition(): Position { Position(0, 0) }

  function ZeroVector(): Vector2D { Vector2D(0, 0) }

  /** The side a cell's piece belongs to, kings counting for their base side. */
  function Owner(s: SpaceStatus): (side: Option<Side>)
    ensures side.None? <==> s == EMPTY
    ensures side == Some(White) <==> s in {WHITE, WHITE_KING}
    ensures side == Some(Black) <==> s in {BLACK, BLACK_KING}
  {
    match s
    case BLACK => Some(Black)
    case BLACK_KING => Some(Black)
    case WHITE => Some(White)
    case WHITE_KING => Some(White)
    case EMPTY => None
  }
}
