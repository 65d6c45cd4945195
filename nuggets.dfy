/**
 * Nuggets: the seven classes of nugget a snake can eat, each with its own sprite, spawn chance
 * and score. The rarer a nugget (the smaller its spawn chance), the more it scores.
 */
module Nuggets {

  /** NuggetClassID, in declaration order. */
  datatype NuggetClassID =
    NUGGET_GOLD | NUGGET_SILVER | NUGGET_OBSIDIAN | NUGGET_RUBY | NUGGET_JADE | NUGGET_LAPIS | NUGGET_AMETHYST

  const NuggetClassCount: nat := 7

  // NuggetSpriteID, in declaration order.
  const SID_NUGGET_GOLD: int := 0
  const SID_NUGGET_SILVER: int := 1
  const SID_NUGGET_OBSIDIAN: int := 2
  const SID_NUGGET_RUBY: int := 3
  const SID_NUGGET_JADE: int := 4
  const SID_NUGGET_LAPIS: int := 5
  const SID_NUGGET_AMETHYST: int := 6

  /** One row of the class table (the floating-point lifetime is not modelled). */
  datatype NuggetClass = NuggetClass(spriteid: int, spawnChance: int, score: int)

  /** The class table, one row per NuggetClassID. */
  const NuggetClasses: seq<NuggetClass> := [
    NuggetClass(SID_NUGGET_GOLD, 10, 70),
    NuggetClass(SID_NUGGET_SILVER, 20, 60),
    NuggetClass(SID_NUGGET_OBSIDIAN, 30, 50),
    NuggetClass(SID_NUGGET_RUBY, 40, 40),
    NuggetClass(SID_NUGGET_JADE, 50, 30),
    NuggetClass(SID_NUGGET_LAPIS, 70, 20),
    NuggetClass(SID_NUGGET_AMETHYST, 100, 10)
  ]

  /** The enumerator value of a class, which is its row in the table. */
  function Ord(id: NuggetClassID): (i: nat)
    ensures i < NuggetClassCount == |NuggetClasses|
  {
    match id
    case NUGGET_GOLD => 0
    case NUGGET_SILVER => 1
    case NUGGET_OBSIDIAN => 2
    case NUGGET_RUBY => 3
    case NUGGET_JADE => 4
    case NUGGET_LAPIS => 5
    case NUGGET_AMETHYST => 6
  }

  /** `nuggetClasses[id]`: a class's row. Every class has a positive score and a spawn chance
      between 1 and 100, and is drawn with the nugget sprite of the same name. */
  function ClassOf(id: NuggetClassID): (c: NuggetClass)
    ensures 0 < c.score
    ensures 0 < c.spawnChance <= 100
    ensures c.spriteid == Ord(id)
  {
    NuggetClasses[Ord(id)]
  }

  /** In the order of NuggetClassID, spawn chances strictly increase and scores strictly
      decrease; the last class has chance 100. */
  lemma TableOrdered(a: NuggetClassID, b: NuggetClassID)
    requires Ord(a) < Ord(b)
    ensures ClassOf(a).spawnChance < ClassOf(b).spawnChance
    ensures ClassOf(a).score > ClassOf(b).score
    ensures ClassOf(NUGGET_AMETHYST).spawnChance == 100
  {
  }

  /** Rarer nuggets score more: across any two classes, spawn chance and score are in
      opposite orders. */
  lemma RarerScoresMore(a: NuggetClassID, b: NuggetClassID)
    ensures ClassOf(a).spawnChance < ClassOf(b).spawnChance <==> ClassOf(a).score > ClassOf(b).score
  {
  }

  /** Distinct classes have distinct rows in every column. */
  lemma ClassesDistinct(a: NuggetClassID, b: NuggetClassID)
    requires a != b
    ensures ClassOf(a).spriteid != ClassOf(b).spriteid
    ensures ClassOf(a).spawnChance != ClassOf(b).spawnChance
    ensures ClassOf(a).score != ClassOf(b).score
  {
  }
}
