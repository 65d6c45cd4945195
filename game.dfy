/**
 * The game object's own state: the chosen hero and the running score.
 */
module Game {

  /** The game's `int`. */
  newtype int32 = x: int | -0x8000_0000 <= x < 0x8000_0000

  /** The heroes available to play as. */
  datatype SnakeHero = MONTEZUMA | ITZCOATL

  class Snake {
    var snakeHero: SnakeHero
    var score: int32

    /** The game object's fields as left by initialisation, which is outside this model. */
    constructor (hero: SnakeHero, initialScore: int32)
      ensures snakeHero == hero && score == initialScore
    {
      snakeHero := hero;
      score := initialScore;
    }

    function GetSnakeHero(): (h: SnakeHero)
      reads this
      ensures h == snakeHero
    {
      snakeHero
    }

    function GetScore(): (s: int32)
      reads this
      ensures s == score
    {
      score
    }

    /** Raises the score by exactly `points` and changes nothing else. A sum outside the range
        of `int` would be signed overflow, which the game may not perform. */
    method AddScore(points: int32)
      requires -0x8000_0000 <= score as int + points as int < 0x8000_0000
      modifies this
      ensures GetScore() as int == old(GetScore()) as int + points as int
      ensures GetSnakeHero() == old(GetSnakeHero())
    {
      score := score + points;
    }
  }
}
