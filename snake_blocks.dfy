/**
 * Snake block render states.
 *
 * A snake block has one or two neighbouring blocks, each lying in one of four directions and
 * each being either closer to the head or closer to the tail. The render state of a block is a
 * sprite id into the snake spritesheet; the five lookup trees below select it from the
 * directions of the neighbours. The trees are kept as nested sequences indexed by a direction's
 * enumerator value, as the fixed-size arrays of the game are.
 */
module SnakeBlocks {

  /** Where a neighbouring block lies relative to this one. The enumerator values are the indices
      into every tree below; the sentinel DIRECTION_COUNT is the number of directions. */
  datatype Direction = NORTH | SOUTH | EAST | WEST

  const DIRECTION_COUNT: nat := 4

  /** The enumerator value of a direction. */
  function Ord(d: Direction): (i: nat)
    ensures i < DIRECTION_COUNT
  {
    match d
    case NORTH => 0
    case SOUTH => 1
    case EAST => 2
    case WEST => 3
  }

  /** The direction with a given enumerator value. */
  function DirectionOf(i: nat): (d: Direction)
    requires i < DIRECTION_COUNT
    ensures Ord(d) == i
  {
    if i == 0 then NORTH else if i == 1 then SOUTH else if i == 2 then EAST else WEST
  }

  /** Every direction is the one its own enumerator value names, so tree indices and
      directions are in one-to-one correspondence. */
  lemma OrdRoundTrip(d: Direction)
    ensures DirectionOf(Ord(d)) == d
  {
  }

  /** The direction pointing the other way. */
  function Opposite(d: Direction): (o: Direction)
    ensures o != d
  {
    match d
    case NORTH => SOUTH
    case SOUTH => NORTH
    case EAST => WEST
    case WEST => EAST
  }

  lemma OppositeInvolutive(d: Direction)
    ensures Opposite(Opposite(d)) == d
  {
  }

  /** Two neighbours at a right angle: the block is a corner. */
  predicate Perpendicular(a: Direction, b: Direction)
  {
    a != b && a != Opposite(b)
  }

  // ---------------------------------------------------------------------------------------------
  // Sprite ids (SnakeBlockSpriteID). Several body enumerators share a value: a corner is drawn
  // with the same sprite whichever of its two neighbours is nearer the head.
  // ---------------------------------------------------------------------------------------------

  const SID_NULL: int := -1

  // body blocks
  const SID_HEAD_NORTH_THIS_SOUTH_TAIL: int := 0
  const SID_HEAD_SOUTH_THIS_NORTH_TAIL: int := 1
  const SID_HEAD_WEST_THIS_EAST_TAIL: int := 2
  const SID_HEAD_EAST_THIS_WEST_TAIL: int := 3
  const SID_HEAD_NORTH_THIS_EAST_TAIL: int := 4
  const SID_HEAD_EAST_THIS_NORTH_TAIL: int := 4
  const SID_HEAD_NORTH_THIS_WEST_TAIL: int := 4
  const SID_HEAD_WEST_THIS_NORTH_TAIL: int := 4
  const SID_HEAD_SOUTH_THIS_WEST_TAIL: int := 5
  const SID_HEAD_WEST_THIS_SOUTH_TAIL: int := 5
  const SID_HEAD_SOUTH_THIS_EAST_TAIL: int := 5
  const SID_HEAD_EAST_THIS_SOUTH_TAIL: int := 5

  // tail blocks
  const SID_HEAD_WEST_THIS: int := 6
  const SID_HEAD_EAST_THIS: int := 7
  const SID_HEAD_NORTH_THIS: int := 8
  const SID_HEAD_SOUTH_THIS: int := 9

  // head blocks
  const SID_THIS_WEST_TAIL: int := 10
  const SID_THIS_EAST_TAIL: int := 11
  const SID_THIS_NORTH_TAIL: int := 12
  const SID_THIS_SOUTH_TAIL: int := 13

  // tongue blocks
  const SID_WESTWARD_TONGUE: int := 14
  const SID_EASTWARD_TONGUE: int := 15
  const SID_NORTHWARD_TONGUE: int := 16
  const SID_SOUTHWARD_TONGUE: int := 17

  // ---------------------------------------------------------------------------------------------
  // The trees, in declaration order.
  // ---------------------------------------------------------------------------------------------

  /** Body blocks (two neighbours), indexed [head neighbour][tail neighbour]. */
  const SnakeBodyBlockTree: seq<seq<int>> := [
    // NORTH [head]
    [SID_NULL, SID_HEAD_NORTH_THIS_SOUTH_TAIL, SID_HEAD_NORTH_THIS_EAST_TAIL, SID_HEAD_NORTH_THIS_WEST_TAIL],
    // SOUTH [head]
    [SID_HEAD_SOUTH_THIS_NORTH_TAIL, SID_NULL, SID_HEAD_SOUTH_THIS_EAST_TAIL, SID_HEAD_SOUTH_THIS_WEST_TAIL],
    // EAST [head]
    [SID_HEAD_EAST_THIS_NORTH_TAIL, SID_HEAD_EAST_THIS_SOUTH_TAIL, SID_NULL, SID_HEAD_EAST_THIS_WEST_TAIL],
    // WEST [head]
    [SID_HEAD_WEST_THIS_NORTH_TAIL, SID_HEAD_WEST_THIS_SOUTH_TAIL, SID_HEAD_WEST_THIS_EAST_TAIL, SID_NULL]
  ]

  /** Head blocks (only a tail neighbour), indexed by the tail neighbour's direction. */
  const SnakeHeadBlockTree: seq<int> :=
    [SID_THIS_NORTH_TAIL, SID_THIS_SOUTH_TAIL, SID_THIS_EAST_TAIL, SID_THIS_WEST_TAIL]

  /** Tail blocks (only a head neighbour), indexed by the head neighbour's direction. */
  const SnakeTailBlockTree: seq<int> :=
    [SID_HEAD_NORTH_THIS, SID_HEAD_SOUTH_THIS, SID_HEAD_EAST_THIS, SID_HEAD_WEST_THIS]

  /** Body blocks of a smoothly moving snake, indexed by the block's direction of movement. */
  const SmoothSnakeBodyBlockTree: seq<int> :=
    [SID_HEAD_NORTH_THIS_SOUTH_TAIL, SID_HEAD_SOUTH_THIS_NORTH_TAIL,
     SID_HEAD_EAST_THIS_WEST_TAIL, SID_HEAD_WEST_THIS_EAST_TAIL]

  /** The head block of a smoothly moving snake, indexed by its direction of movement. */
  const SmoothSnakeHeadBlockTree: seq<int> :=
    [SID_THIS_SOUTH_TAIL, SID_THIS_NORTH_TAIL, SID_THIS_WEST_TAIL, SID_THIS_EAST_TAIL]

  // ---------------------------------------------------------------------------------------------
  // Lookups: `snakeBodyBlockTree[head][tail]` and friends.
  // ---------------------------------------------------------------------------------------------

  /** The sprite of a body block whose head-side neighbour lies towards `head` and whose
      tail-side neighbour lies towards `tail`. Only a route with both neighbours on the same side
      is invalid, and every valid route selects a body sprite. */
  function BodyBlockSprite(head: Direction, tail: Direction): (sid: int)
    ensures sid == SID_NULL <==> head == tail
    ensures head != tail ==> SID_HEAD_NORTH_THIS_SOUTH_TAIL <= sid <= SID_HEAD_EAST_THIS_SOUTH_TAIL
  {
    SnakeBodyBlockTree[Ord(head)][Ord(tail)]
  }

  /** The sprite of the head block, whose only neighbour lies towards `tail`: always a head
      sprite. */
  function HeadBlockSprite(tail: Direction): (sid: int)
    ensures SID_THIS_WEST_TAIL <= sid <= SID_THIS_SOUTH_TAIL
  {
    SnakeHeadBlockTree[Ord(tail)]
  }

  /** The sprite of the tail block, whose only neighbour lies towards `head`: always a tail
      sprite. */
  function TailBlockSprite(head: Direction): (sid: int)
    ensures SID_HEAD_WEST_THIS <= sid <= SID_HEAD_SOUTH_THIS
  {
    SnakeTailBlockTree[Ord(head)]
  }

  /** The sprite of a smoothly moving body block travelling towards `move`: the straight body
      sprite whose head neighbour lies ahead and whose tail neighbour lies behind. */
  function SmoothBodyBlockSprite(move: Direction): (sid: int)
    ensures sid == BodyBlockSprite(move, Opposite(move))
  {
    SmoothSnakeBodyBlockTree[Ord(move)]
  }

  /** The sprite of the head of a smoothly moving snake travelling towards `move`: the head
      sprite whose tail neighbour lies behind. */
  function SmoothHeadBlockSprite(move: Direction): (sid: int)
    ensures sid == HeadBlockSprite(Opposite(move))
  {
    SmoothSnakeHeadBlockTree[Ord(move)]
  }

  // ---------------------------------------------------------------------------------------------
  // The trees against the enumerator names.
  // ---------------------------------------------------------------------------------------------

  /** The body enumerator named SID_HEAD_<head>_THIS_<tail>_TAIL, or SID_NULL when no
      enumerator has that name. */
  function NamedBodySprite(head: Direction, tail: Direction): int
  {
    match (head, tail)
    case (NORTH, SOUTH) => SID_HEAD_NORTH_THIS_SOUTH_TAIL
    case (SOUTH, NORTH) => SID_HEAD_SOUTH_THIS_NORTH_TAIL
    case (WEST, EAST) => SID_HEAD_WEST_THIS_EAST_TAIL
    case (EAST, WEST) => SID_HEAD_EAST_THIS_WEST_TAIL
    case (NORTH, EAST) => SID_HEAD_NORTH_THIS_EAST_TAIL
    case (EAST, NORTH) => SID_HEAD_EAST_THIS_NORTH_TAIL
    case (NORTH, WEST) => SID_HEAD_NORTH_THIS_WEST_TAIL
    case (WEST, NORTH) => SID_HEAD_WEST_THIS_NORTH_TAIL
    case (SOUTH, WEST) => SID_HEAD_SOUTH_THIS_WEST_TAIL
    case (WEST, SOUTH) => SID_HEAD_WEST_THIS_SOUTH_TAIL
    case (SOUTH, EAST) => SID_HEAD_SOUTH_THIS_EAST_TAIL
    case (EAST, SOUTH) => SID_HEAD_EAST_THIS_SOUTH_TAIL
    case _ => SID_NULL
  }

  /** The head enumerator named SID_THIS_<tail>_TAIL. */
  function NamedHeadSprite(tail: Direction): int
  {
    match tail
    case NORTH => SID_THIS_NORTH_TAIL
    case SOUTH => SID_THIS_SOUTH_TAIL
    case EAST => SID_THIS_EAST_TAIL
    case WEST => SID_THIS_WEST_TAIL
  }

  /** The tail enumerator named SID_HEAD_<head>_THIS. */
  function NamedTailSprite(head: Direction): int
  {
    match head
    case NORTH => SID_HEAD_NORTH_THIS
    case SOUTH => SID_HEAD_SOUTH_THIS
    case EAST => SID_HEAD_EAST_THIS
    case WEST => SID_HEAD_WEST_THIS
  }

  /** Indexing the body tree with the Direction enumerators, head first, finds the enumerator
      that names that route; the X routes on the diagonal find SID_NULL. */
  lemma BodyTreeFollowsNames()
    ensures forall head, tail :: BodyBlockSprite(head, tail) == NamedBodySprite(head, tail)
  {
  }

  /** The head and tail trees are ordered by the Direction enumerators too. */
  lemma HeadAndTailTreesFollowNames()
    ensures forall d :: HeadBlockSprite(d) == NamedHeadSprite(d)
    ensures forall d :: TailBlockSprite(d) == NamedTailSprite(d)
  {
  }

  // ---------------------------------------------------------------------------------------------
  // Properties of the body tree.
  // ---------------------------------------------------------------------------------------------

  /** A corner is drawn the same way whichever neighbour is nearer the head; corners touching
      the north use sprite 4 and corners touching the south use sprite 5. */
  lemma CornersIgnoreDirection(a: Direction, b: Direction)
    requires Perpendicular(a, b)
    ensures BodyBlockSprite(a, b) == BodyBlockSprite(b, a)
    ensures NORTH in {a, b} ==> BodyBlockSprite(a, b) == SID_HEAD_NORTH_THIS_EAST_TAIL
    ensures SOUTH in {a, b} ==> BodyBlockSprite(a, b) == SID_HEAD_SOUTH_THIS_EAST_TAIL
  {
  }

  /** A straight block depends on which end is the head: the four straight routes select
      four distinct sprites, exactly 0, 1, 2 and 3. */
  lemma StraightsDependOnDirection()
    ensures forall a, b :: BodyBlockSprite(a, Opposite(a)) == BodyBlockSprite(b, Opposite(b)) ==> a == b
    ensures {BodyBlockSprite(NORTH, SOUTH), BodyBlockSprite(SOUTH, NORTH),
             BodyBlockSprite(WEST, EAST), BodyBlockSprite(EAST, WEST)} == {0, 1, 2, 3}
  {
  }

  /** A body sprite tells a straight block from a corner: sprites 0 to 3 are exactly the
      routes through opposite sides, 4 and 5 exactly the routes round a corner. */
  lemma StraightOrCorner(head: Direction, tail: Direction)
    requires head != tail
    ensures BodyBlockSprite(head, tail) <= SID_HEAD_EAST_THIS_WEST_TAIL <==> tail == Opposite(head)
  {
  }

  /** Every body sprite is selected by some route. */
  lemma BodySpritesAllUsed(sid: int)
    requires SID_HEAD_NORTH_THIS_SOUTH_TAIL <= sid <= SID_HEAD_EAST_THIS_SOUTH_TAIL
    ensures exists head, tail :: BodyBlockSprite(head, tail) == sid
  {
    var route :=
      if sid == 0 then (NORTH, SOUTH)
      else if sid == 1 then (SOUTH, NORTH)
      else if sid == 2 then (WEST, EAST)
      else if sid == 3 then (EAST, WEST)
      else if sid == 4 then (NORTH, EAST)
      else (SOUTH, EAST);
    assert BodyBlockSprite(route.0, route.1) == sid;
  }

  // ---------------------------------------------------------------------------------------------
  // Properties of the single-neighbour and smooth trees.
  // ---------------------------------------------------------------------------------------------

  /** The head tree is one-to-one and onto the head sprites 10 to 13. */
  lemma HeadTreeBijective(sid: int)
    ensures forall a, b :: HeadBlockSprite(a) == HeadBlockSprite(b) ==> a == b
    ensures SID_THIS_WEST_TAIL <= sid <= SID_THIS_SOUTH_TAIL <==> exists d :: HeadBlockSprite(d) == sid
  {
    if SID_THIS_WEST_TAIL <= sid <= SID_THIS_SOUTH_TAIL {
      var d :=
        if sid == SID_THIS_WEST_TAIL then WEST
        else if sid == SID_THIS_EAST_TAIL then EAST
        else if sid == SID_THIS_NORTH_TAIL then NORTH
        else SOUTH;
      assert HeadBlockSprite(d) == sid;
    }
  }

  /** The tail tree is one-to-one and onto the tail sprites 6 to 9. */
  lemma TailTreeBijective(sid: int)
    ensures forall a, b :: TailBlockSprite(a) == TailBlockSprite(b) ==> a == b
    ensures SID_HEAD_WEST_THIS <= sid <= SID_HEAD_SOUTH_THIS <==> exists d :: TailBlockSprite(d) == sid
  {
    if SID_HEAD_WEST_THIS <= sid <= SID_HEAD_SOUTH_THIS {
      var d :=
        if sid == SID_HEAD_WEST_THIS then WEST
        else if sid == SID_HEAD_EAST_THIS then EAST
        else if sid == SID_HEAD_NORTH_THIS then NORTH
        else SOUTH;
      assert TailBlockSprite(d) == sid;
    }
  }

  /** No sprite is used for two different kinds of block. */
  lemma BlockKindsDisjoint(a: Direction, b: Direction, c: Direction)
    ensures HeadBlockSprite(a) != TailBlockSprite(b)
    ensures HeadBlockSprite(a) != BodyBlockSprite(b, c)
    ensures TailBlockSprite(a) != BodyBlockSprite(b, c)
  {
  }
}
