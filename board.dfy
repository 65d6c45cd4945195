/**
 * Board configuration: the size of the world in pixels, the size of the board in cells, the
 * pixel size of one cell, where the board sits in the world and where the snake is spawned.
 * All of it is compile-time integer arithmetic; every operand of `/` is non-negative, so the
 * truncating division of the game and Dafny's division agree.
 */
module Board {

  /** A pair of integers, as the engine's Vector2i. */
  datatype Vector2i = Vector2i(x: int, y: int)

  const WorldSize_rx: Vector2i := Vector2i(200, 200)
  const BoardSize: Vector2i := Vector2i(40, 36)
  const BlockSize_rx: int := 4

  /** The world position of the board's low corner. Both coordinates are computed from the
      horizontal sizes, so the board is centred horizontally but not vertically. */
  const BoardPosition: Vector2i := Vector2i(
    (WorldSize_rx.x - (BoardSize.x * BlockSize_rx)) / 2,
    (WorldSize_rx.x - (BoardSize.x * BlockSize_rx)) / 2)

  const BoardMarginLoX: int := BoardPosition.x
  const BoardMarginHiX: int := BoardPosition.x + (BoardSize.x * BlockSize_rx)
  const BoardMarginLoY: int := BoardPosition.y
  const BoardMarginHiY: int := BoardPosition.y + (BoardSize.y * BlockSize_rx)

  const MaxSnakeLength: int := 400
  const BabySnakeLength: int := 6

  const SnakeHeadSpawnCol: int := (BoardSize.x / 2) - (BabySnakeLength / 2)
  const SnakeHeadSpawnRow: int := BoardSize.y / 2

  const MaxNuggetsInWorld: int := 5

  /** Whether a cell lies on the board. */
  predicate OnBoard(col: int, row: int)
  {
    0 <= col < BoardSize.x && 0 <= row < BoardSize.y
  }

  /** The margins enclose exactly the board: their distance is the board's size in pixels. */
  lemma MarginsSpanBoard()
    ensures BoardMarginHiX - BoardMarginLoX == BoardSize.x * BlockSize_rx
    ensures BoardMarginHiY - BoardMarginLoY == BoardSize.y * BlockSize_rx
  {
  }

  /** Every margin lies inside the world. */
  lemma MarginsInsideWorld()
    ensures 0 <= BoardMarginLoX <= BoardMarginHiX <= WorldSize_rx.x
    ensures 0 <= BoardMarginLoY <= BoardMarginHiY <= WorldSize_rx.y
  {
  }

  /** As written, the board is centred horizontally, while its vertical offset repeats the
      horizontal one: 20 pixels below the board and 36 above it. */
  lemma BoardPlacement()
    ensures BoardMarginLoX == WorldSize_rx.x - BoardMarginHiX
    ensures BoardMarginLoY == BoardMarginLoX
    ensures BoardMarginLoY == 20 && WorldSize_rx.y - BoardMarginHiY == 36
  {
  }

  /** The pixel span of every board cell lies between the margins. */
  lemma CellsInsideMargins(col: int, row: int)
    requires OnBoard(col, row)
    ensures BoardMarginLoX <= BoardPosition.x + col * BlockSize_rx
    ensures BoardPosition.x + (col + 1) * BlockSize_rx <= BoardMarginHiX
    ensures BoardMarginLoY <= BoardPosition.y + row * BlockSize_rx
    ensures BoardPosition.y + (row + 1) * BlockSize_rx <= BoardMarginHiY
  {
  }

  /** The spawn cell is on the board, with room for a baby snake on either side of it in its
      row, and a full-length snake fits on the board. */
  lemma SpawnCellOnBoard()
    ensures OnBoard(SnakeHeadSpawnCol, SnakeHeadSpawnRow)
    ensures OnBoard(SnakeHeadSpawnCol - (BabySnakeLength - 1), SnakeHeadSpawnRow)
    ensures OnBoard(SnakeHeadSpawnCol + (BabySnakeLength - 1), SnakeHeadSpawnRow)
    ensures 0 < BabySnakeLength <= MaxSnakeLength <= BoardSize.x * BoardSize.y
  {
  }
}
