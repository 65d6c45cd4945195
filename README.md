# Snake block states and game configuration

This project models the data core of a Snake clone: the header `include/snake.h`. It covers
four parts:

- the five sprite-selection trees that choose the spritesheet sprite for a snake block from the
  directions of its neighbours;
- the board geometry and spawn constants;
- the nugget class table;
- the score kept by the game object.

The game's `Direction` enumeration (`NORTH`, `SOUTH`, `EAST`, `WEST`, then the count sentinel)
becomes a four-value datatype. `Ord` gives each direction its enumerator value. The trees are
kept as nested sequences in their declared order and indexed by `Ord`, as the game indexes its
fixed-size arrays. Sprite ids stay plain integers, because several `SnakeBlockSpriteID`
enumerators share a value: every corner touching the north is sprite 4, every corner touching
the south is sprite 5. Each tree is checked against an independent by-name definition: the
enumerator whose name spells the route (`SID_HEAD_<head>_THIS_<tail>_TAIL`). So the proofs also
show that the array rows are in the order of the `Direction` enumerators.

The board position's vertical coordinate is computed from the horizontal sizes (world width
minus board width), exactly as written. As a result the board is centred horizontally, but it
sits 20 pixels above the bottom of the world and 36 below the top. The model keeps that and
proves it (`Board.BoardPlacement`).

Modules: `SnakeBlocks` (snake_blocks.dfy), `Board` (board.dfy), `Nuggets` (nuggets.dfy) and
`Game` (game.dfy).

## Model

| member | source | states |
|---|---|---|
| SnakeBlocks.Ord | include/snake.h:204 | every direction's enumerator value is a valid tree index, below `DIRECTION_COUNT` |
| SnakeBlocks.DirectionOf | include/snake.h:204 | every index below `DIRECTION_COUNT` names a direction whose enumerator value is that index |
| SnakeBlocks.OrdRoundTrip | include/snake.h:204 | converting a direction to its index and back gives the same direction |
| SnakeBlocks.BodyBlockSprite | include/snake.h:232-261 | `snakeBodyBlockTree[head][tail]` is `SID_NULL` exactly when head and tail lie in the same direction; every other route selects a body sprite 0..5 |
| SnakeBlocks.HeadBlockSprite | include/snake.h:268-273 | `snakeHeadBlockTree[d]` is always a head sprite 10..13 |
| SnakeBlocks.TailBlockSprite | include/snake.h:280-285 | `snakeTailBlockTree[d]` is always a tail sprite 6..9 |
| SnakeBlocks.SmoothBodyBlockSprite | include/snake.h:291-296 | `smoothSnakeBodyBlockTree[d]` is the body-tree sprite with the head neighbour ahead (`d`) and the tail neighbour behind (the opposite of `d`) |
| SnakeBlocks.SmoothHeadBlockSprite | include/snake.h:301-306 | `smoothSnakeHeadBlockTree[d]` is the head-tree sprite for a tail neighbour in the direction opposite to `d` |
| SnakeBlocks.BodyTreeFollowsNames | include/snake.h:228-261 | indexing the body tree `[head][tail]` with the `Direction` enumerators yields the enumerator named for that route, and `SID_NULL` on the diagonal |
| SnakeBlocks.HeadAndTailTreesFollowNames | include/snake.h:263-285 | the head tree at `d` yields `SID_THIS_<d>_TAIL`, and the tail tree at `d` yields `SID_HEAD_<d>_THIS` |
| SnakeBlocks.CornersIgnoreDirection | include/snake.h:155-162 | for perpendicular neighbours the sprite does not depend on which is nearer the head; a corner touching the north is 4, one touching the south is 5 |
| SnakeBlocks.StraightsDependOnDirection | include/snake.h:151-154 | the four straight routes select four distinct sprites, exactly {0, 1, 2, 3} |
| SnakeBlocks.StraightOrCorner | include/snake.h:88-111 | for a valid route, the sprite is at most 3 exactly when the neighbours are on opposite sides |
| SnakeBlocks.BodySpritesAllUsed | include/snake.h:151-162 | every body sprite 0..5 is selected by some route of the body tree |
| SnakeBlocks.HeadTreeBijective | include/snake.h:171-176 | the head tree is one-to-one, and a sprite is in its range exactly when it is in 10..13 |
| SnakeBlocks.TailTreeBijective | include/snake.h:164-169 | the tail tree is one-to-one, and a sprite is in its range exactly when it is in 6..9 |
| SnakeBlocks.BlockKindsDisjoint | include/snake.h:149-176 | head, tail and body sprites never coincide |
| Board.MarginsSpanBoard | include/snake.h:49-52 | the high margin minus the low margin is the board size times the block size, in both axes |
| Board.MarginsInsideWorld | include/snake.h:40-52 | every margin lies within `[0, worldSize_rx]` and the low margin is at most the high one |
| Board.BoardPlacement | include/snake.h:44-52 | the board is centred horizontally; its vertical offset equals the horizontal one, which leaves 20 pixels below and 36 above |
| Board.CellsInsideMargins | include/snake.h:44-52 | the pixel span of every board cell lies between the margins |
| Board.SpawnCellOnBoard | include/snake.h:54-60 | the spawn cell is on the board, a baby snake fits on either side of it in its row, and the maximum length fits on the board |
| Nuggets.Ord | include/snake.h:361-372 | every class's enumerator value is a row of the table, below `nuggetClassCount` |
| Nuggets.ClassOf | include/snake.h:374-393 | every class has a positive score, a spawn chance in 1..100, and the nugget sprite of its own name |
| Nuggets.TableOrdered | include/snake.h:382-393 | in `NuggetClassID` order, spawn chance strictly increases and score strictly decreases; the last chance is 100 |
| Nuggets.RarerScoresMore | include/snake.h:382-393 | between any two classes, a lower spawn chance holds exactly when the score is higher |
| Nuggets.ClassesDistinct | include/snake.h:350-393 | distinct classes differ in sprite, spawn chance and score |
| Game.Snake.constructor | include/snake.h:412 | the hero and score start at the values given by initialisation |
| Game.Snake.GetSnakeHero | include/snake.h:425 | returns the chosen hero |
| Game.Snake.GetScore | include/snake.h:428 | returns the current score |
| Game.Snake.AddScore | include/snake.h:427 | raises the score by exactly the points given and leaves the hero unchanged; the sum must fit in `int` |

## Left out

- Game.Snake.constructor: the header leaves `_score` and `_snakeHero` to initialisation code that is not part of this model (`onInit`), so their first values are parameters.
- Game.Snake.AddScore: a sum outside the 32-bit `int` range is signed overflow, which C++ leaves undefined; the model requires the sum to fit instead of choosing a wrap-around.
- Floating-point configuration is not modelled: `stepFrequency_hz`, `stepPeriod_s` and the nugget `_lifetime` column.
- Spritesheet loading and keys, screen ids and layering, key bindings and the name and version getters are calls into, or data for, the external graphics and input engine.
- The tongue sprites (14..17) are declared as constants but no tree selects them. The blood sprite, the per-hero sprite offset and the sheet count are not modelled, because the header makes no statement about how they relate.
- The play scene (stepping, growing, collisions, nugget spawning, score bonuses, choosing a neighbour's direction) is declared in play_scene.h, but its bodies are not part of this model.
