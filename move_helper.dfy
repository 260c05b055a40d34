/**
 The move value of CheckersMoveHelper.h and the two-click selection
 accumulator of CheckersMoveHelper.cpp.
 */
module MoveHelper {
  import opened Wrappers
  import opened CheckersTypes
  import GameModel

  lemma MulMonotone(x: nat, y: nat, k: nat)
    requires x <= y
    ensures x * k <= y * k
  {
  }

  lemma SquareMonotone(x: nat, y: nat)
    requires x <= y
    ensures x * x <= y * y
  {
    MulMonotone(x, y, x);
    MulMonotone(x, y, y);
  }

  /** Doubling a floor square root of `n / 4` brackets the square root of `n`. */
  lemma DoubledRootBrackets(n: nat, t: nat)
    requires t * t <= n / 4 < (t + 1) * (t + 1)
    ensures (2 * t) * (2 * t) <= n < (2 * t + 2) * (2 * t + 2)
  {
    var q := n / 4;
    assert (2 * t) * (2 * t) == 4 * (t * t);
    assert (2 * t + 2) * (2 * t + 2) == 4 * ((t + 1) * (t + 1));
    assert 4 * q <= n < 4 * q + 4;
  }

  /** Floor of the square root: what `static_cast<int>(std::sqrt(n))` yields on a non-negative `n`. */
  function FloorSqrt(n: nat): (r: nat)
    ensures r * r <= n < (r + 1) * (r + 1)
  {
    if n < 4 then (if n == 0 then 0 else 1)
    else
      var t := FloorSqrt(n / 4);
      DoubledRootBrackets(n, t);
      if (2 * t + 1) * (2 * t + 1) <= n then 2 * t + 1 else 2 * t
  }

  /** The floor square root is the only number bracketing the square root. */
  lemma FloorSqrtUnique(n: nat, e: nat)
    requires e * e <= n < (e + 1) * (e + 1)
    ensures FloorSqrt(n) == e
  {
    var r := FloorSqrt(n);
    if r < e {
      SquareMonotone(r + 1, e);
    } else if r > e {
      SquareMonotone(e + 1, r);
    }
  }

  function Abs(a: int): nat
  {
    if a < 0 then -a else a
  }

  /** C++ division `a / b` for a positive `b`: the quotient is truncated toward zero. */
  function TruncDiv(a: int, b: int): (q: int)
    requires b > 0
    ensures Abs(q) * b <= Abs(a) < (Abs(q) + 1) * b
    ensures q == 0 || (q < 0 <==> a < 0)
  {
    if a >= 0 then a / b else -((-a) / b)
  }

  /** The observable fields of a `CheckersMove` object. */
  datatype MoveValue = MoveValue(
    source: Position,
    destination: Position,
    direction: Vector2D,
    distance: Vector2D,
    length: int)

  /** A default-constructed move: every field at its default, length 0. */
  function DefaultMove(): MoveValue
  {
    MoveValue(DefaultPosition(), DefaultPosition(), ZeroVector(), ZeroVector(), 0)
  }

  /** `UpdateMoveDistance`: x is the row difference, y the column difference. */
  function DistanceBetween(source: Position, destination: Position): Vector2D
  {
    Vector2D(destination.row - source.row, destination.col - source.col)
  }

  function SquaredLength(d: Vector2D): nat
  {
    var n := d.y * d.y + d.x * d.x;
    assert n >= 0 by {
      assert d.y * d.y >= 0 && d.x * d.x >= 0;
    }
    n
  }

  /** `UpdateMoveLength`: the truncated Euclidean length of the distance. */
  function LengthOf(d: Vector2D): nat
  {
    FloorSqrt(SquaredLength(d))
  }

  /**
   `UpdateMoveDirection`: without length the previous direction stays;
   otherwise each component is a truncated quotient, with the axes swapped
   (x from the column difference, y from the row difference).
   */
  function DirectionFor(previous: Vector2D, d: Vector2D, length: nat): Vector2D
  {
    if length == 0 then previous
    else Vector2D(TruncDiv(d.y, length), TruncDiv(d.x, length))
  }

  /** The value a move takes after `SetDestination(destination)`. */
  function WithDestination(m: MoveValue, destination: Position): (r: MoveValue)
    ensures r.source == m.source && r.destination == destination
    ensures r.distance == Vector2D(destination.row - m.source.row, destination.col - m.source.col)
    ensures r.length >= 0
    ensures r.length * r.length <= SquaredLength(r.distance) < (r.length + 1) * (r.length + 1)
    ensures r.length == 0 ==> r.direction == m.direction
  {
    var d := DistanceBetween(m.source, destination);
    var length := LengthOf(d);
    MoveValue(m.source, destination, DirectionFor(m.direction, d, length), d, length)
  }

  lemma SquaredLengthZero(d: Vector2D)
    ensures SquaredLength(d) == 0 <==> d == ZeroVector()
  {
    if d.x != 0 {
      assert d.x * d.x > 0;
    }
    if d.y != 0 {
      assert d.y * d.y > 0;
    }
  }

  /** A move has length 0 exactly when its destination is its source. */
  lemma LengthZeroIffSameSquare(m: MoveValue, destination: Position)
    ensures WithDestination(m, destination).length == 0 <==> destination == m.source
  {
    var r := WithDestination(m, destination);
    SquaredLengthZero(r.distance);
    if r.length != 0 {
      assert 1 <= r.length * r.length;
    }
  }

  lemma SmallerSquare(a: int, l: nat)
    requires a * a < (l + 1) * (l + 1)
    ensures Abs(a) <= l
  {
    assert a * a == Abs(a) * Abs(a);
    if Abs(a) > l {
      SquareMonotone(l + 1, Abs(a));
    }
  }

  /** Truncated division of a number by a divisor at least as large in magnitude is -1, 0 or 1. */
  lemma QuotientAtMostOne(a: int, l: int)
    requires l > 0 && Abs(a) <= l
    ensures -1 <= TruncDiv(a, l) <= 1
  {
    var q := TruncDiv(a, l);
    if Abs(q) >= 2 {
      MulMonotone(2, Abs(q), l);
    }
  }

  /** Once a move has length, each component of its direction is -1, 0 or 1. */
  lemma DirectionIsUnit(m: MoveValue, destination: Position)
    requires WithDestination(m, destination).length > 0
    ensures var dir := WithDestination(m, destination).direction;
      -1 <= dir.x <= 1 && -1 <= dir.y <= 1
  {
    var r := WithDestination(m, destination);
    var d := r.distance;
    assert d.x * d.x >= 0 && d.y * d.y >= 0;
    assert d.y * d.y < (r.length + 1) * (r.length + 1);
    assert d.x * d.x < (r.length + 1) * (r.length + 1);
    SmallerSquare(d.y, r.length);
    SmallerSquare(d.x, r.length);
    QuotientAtMostOne(d.y, r.length);
    QuotientAtMostOne(d.x, r.length);
  }

  function Sign(a: int): int
  {
    if a > 0 then 1 else if a < 0 then -1 else 0
  }

  /** A one-square diagonal step has length 1 and a unit diagonal direction (axes swapped). */
  lemma DiagonalStep(m: MoveValue, destination: Position)
    requires Abs(destination.row - m.source.row) == 1 && Abs(destination.col - m.source.col) == 1
    ensures var r := WithDestination(m, destination);
      && r.length == 1
      && r.direction == Vector2D(destination.col - m.source.col, destination.row - m.source.row)
      && Abs(r.direction.x) == 1 && Abs(r.direction.y) == 1
  {
    var dr, dc := destination.row - m.source.row, destination.col - m.source.col;
    assert dr * dr == 1 && dc * dc == 1 by {
      assert dr == 1 || dr == -1;
      assert dc == 1 || dc == -1;
    }
    assert SquaredLength(Vector2D(dr, dc)) == 2;
    FloorSqrtUnique(2, 1);
    assert TruncDiv(dc, 1) == dc && TruncDiv(dr, 1) == dr;
  }

  /** A two-square diagonal jump has length 2 and a unit diagonal direction (axes swapped). */
  lemma DiagonalJump(m: MoveValue, destination: Position)
    requires Abs(destination.row - m.source.row) == 2 && Abs(destination.col - m.source.col) == 2
    ensures var r := WithDestination(m, destination);
      && r.length == 2
      && r.direction == Vector2D(Sign(destination.col - m.source.col), Sign(destination.row - m.source.row))
      && Abs(r.direction.x) == 1 && Abs(r.direction.y) == 1
  {
    var dr, dc := destination.row - m.source.row, destination.col - m.source.col;
    assert dr * dr == 4 && dc * dc == 4 by {
      assert dr == 2 || dr == -2;
      assert dc == 2 || dc == -2;
    }
    assert SquaredLength(Vector2D(dr, dc)) == 8;
    FloorSqrtUnique(8, 2);
    assert TruncDiv(dc, 2) == Sign(dc) && TruncDiv(dr, 2) == Sign(dr);
  }

  /** A `CheckersMove` object: its ends and the derived distance, length and direction. */
  class CheckersMove {
    var source: Position
    var destination: Position
    var direction: Vector2D
    var distance: Vector2D
    var length: int

    /** All fields as one value. */
    function Value(): MoveValue
      reads this
    {
      MoveValue(source, destination, direction, distance, length)
    }

    /** The default constructor. */
    constructor Default()
      ensures Value() == DefaultMove()
    {
      source, destination := DefaultPosition(), DefaultPosition();
      direction, distance := ZeroVector(), ZeroVector();
      length := 0;
    }

    /** Stores both ends; distance, length and direction are not computed. */
    constructor (source: Position, destination: Position)
      ensures Value() == MoveValue(source, destination, ZeroVector(), ZeroVector(), 0)
    {
      this.source, this.destination := source, destination;
      direction, distance := ZeroVector(), ZeroVector();
      length := 0;
    }

    /** Replaces the source only; nothing derived is recomputed. */
    method SetSource(source: Position)
      modifies this
      ensures Value() == old(Value()).(source := source)
    {
      this.source := source;
    }

    method SetDestination(destination: Position)
      requires length >= 0
      modifies this
      ensures Value() == WithDestination(old(Value()), destination)
    {
      this.destination := destination;
      UpdateMoveDistance();
      UpdateMoveLength();
      UpdateMoveDirection();
    }

    /** Copy-assignment from a default-constructed move (`m = CheckersMove()`). */
    method AssignDefault()
      modifies this
      ensures Value() == DefaultMove()
    {
      source, destination := DefaultPosition(), DefaultPosition();
      direction, distance := ZeroVector(), ZeroVector();
      length := 0;
    }

    function GetDirection(): Vector2D
      reads this
    {
      direction
    }

    function GetDistance(): Vector2D
      reads this
    {
      distance
    }

    function GetLength(): int
      reads this
    {
      length
    }

    function GetSource(): Position
      reads this
    {
      source
    }

    function GetDestination(): Position
      reads this
    {
      destination
    }

    method UpdateMoveDistance()
      modifies this`distance
      ensures distance == DistanceBetween(source, destination)
    {
      distance := Vector2D(destination.row - source.row, destination.col - source.col);
    }

    method UpdateMoveLength()
      modifies this`length
      ensures length == LengthOf(distance)
    {
      length := FloorSqrt(SquaredLength(distance));
    }

    method UpdateMoveDirection()
      requires length >= 0
      modifies this`direction
      ensures direction == DirectionFor(old(direction), distance, length)
    {
      if length == 0 {
        return;
      }
      direction := Vector2D(TruncDiv(distance.y, length), TruncDiv(distance.x, length));
    }
  }

  /**
   The move handed to the game by the second selection, when the first
   latched `source`: a destination different from the source is set on
   a move that holds only the source; the same square is not set at all.
   */
  function CompletedMove(source: Position, position: Position): (r: MoveValue)
    ensures r.source == source
    ensures r.length == 0 <==> position == source
    ensures position != source ==> r.destination == position && r.distance == DistanceBetween(source, position)
    ensures position == source ==> r == DefaultMove().(source := source)
  {
    var latched := DefaultMove().(source := source);
    if position != source then
      LengthZeroIffSameSquare(latched, position);
      WithDestination(latched, position)
    else latched
  }

  /**
   Buffers the first selection as a move's source and the second as its
   destination, then launches the move and starts over.
   */
  class CheckersMoveHelper {
    const game: GameModel.Game
    const checkersMove: CheckersMove
    var isSelectingMove: bool
    /** Selections that were not ignored, since construction. */
    ghost var acceptedSelections: nat
    /** Every move handed to the game, in order. */
    ghost var launchedMoves: seq<MoveValue>

    /**
     The pending move holds at most a source; a source is latched after an
     odd number of accepted selections, and one move was launched per pair.
     */
    ghost predicate Valid()
      reads this, checkersMove
    {
      && checkersMove.Value() == (if isSelectingMove then DefaultMove().(source := checkersMove.source) else DefaultMove())
      && (isSelectingMove <==> acceptedSelections % 2 == 1)
      && |launchedMoves| == acceptedSelections / 2
    }

    constructor (game: GameModel.Game)
      ensures Valid()
      ensures this.game == game && fresh(checkersMove)
      ensures !isSelectingMove && acceptedSelections == 0 && launchedMoves == []
    {
      this.game := game;
      checkersMove := new CheckersMove.Default();
      isSelectingMove := false;
      acceptedSelections := 0;
      launchedMoves := [];
    }

    /**
     First selection: latch the position as source if it holds a piece,
     otherwise ignore it. Second selection: complete the move, launch it
     (it is returned) and reset, whatever the game makes of it.
     */
    method HandlePositionSelected(position: Position) returns (launched: Option<MoveValue>)
      requires Valid() && GameModel.IsBoardShape(game.boardData)
      modifies this, checkersMove
      ensures Valid()
      ensures !old(isSelectingMove) && !game.ContainsPiece(position) ==>
        && launched == None
        && isSelectingMove == old(isSelectingMove)
        && checkersMove.Value() == old(checkersMove.Value())
        && acceptedSelections == old(acceptedSelections)
        && launchedMoves == old(launchedMoves)
      ensures !old(isSelectingMove) && game.ContainsPiece(position) ==>
        && launched == None
        && isSelectingMove && checkersMove.source == position
        && acceptedSelections == old(acceptedSelections) + 1
        && launchedMoves == old(launchedMoves)
      ensures old(isSelectingMove) ==>
        && launched == Some(CompletedMove(old(checkersMove.source), position))
        && !isSelectingMove && checkersMove.Value() == DefaultMove()
        && acceptedSelections == old(acceptedSelections) + 1
        && launchedMoves == old(launchedMoves) + [launched.value]
    {
      if !isSelectingMove {
        if game.ContainsPiece(position) {
          isSelectingMove := true;
          checkersMove.SetSource(position);
          acceptedSelections := acceptedSelections + 1;
        }
        launched := None;
      } else {
        if position != checkersMove.GetSource() {
          checkersMove.SetDestination(position);
        }
        launched := Some(checkersMove.Value());
        launchedMoves := launchedMoves + [launched.value];
        checkersMove.AssignDefault();
        isSelectingMove := false;
        acceptedSelections := acceptedSelections + 1;
      }
    }

    /** The pending move: the default move, or one holding only the latched source. */
    function GetCheckersMove(): (m: MoveValue)
      requires Valid()
      reads this, checkersMove
      ensures m.length == 0
      ensures !isSelectingMove ==> m == DefaultMove()
      ensures isSelectingMove ==> m == DefaultMove().(source := m.source)
      ensures isSelectingMove ==> m.source == checkersMove.source
    {
      checkersMove.Value()
    }
  }
}
