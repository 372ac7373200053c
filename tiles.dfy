/** Tile semantics of the dungeon grid: every cell holds an integer code.
    0 empty, 1 wall, 2 key, 3 lock, 4 gem, 5 star; any code above 10 is an
    enemy whose power is the code minus 10. Every other code is inert: the
    player may walk onto it and nothing happens. */
module Tiles {

  const EmptyTile: int := 0
  const WallTile: int := 1
  const KeyTile: int := 2
  const LockTile: int := 3
  const GemTile: int := 4
  const StarTile: int := 5
  /** Enemy codes start just above this base. */
  const EnemyBase: int := 10

  predicate IsEnemy(v: int) { v > EnemyBase }
  predicate IsWall(v: int) { v == WallTile }
  predicate IsKey(v: int) { v == KeyTile }
  predicate IsLock(v: int) { v == LockTile }
  predicate IsGem(v: int) { v == GemTile }
  predicate IsStar(v: int) { v == StarTile }

  /** Combat power of an enemy code. */
  function Power(v: int): (p: int)
    requires IsEnemy(v)
    ensures p >= 1
  {
    v - EnemyBase
  }

  /** The tagged view of a cell code. */
  datatype Tile =
    | Empty
    | Wall
    | Key
    | Lock
    | Gem
    | Star
    | Enemy(power: int)
    | Inert(code: int)

  /** A tag that some code decodes to: enemies have positive power, and an
      inert code is none of the meaningful ones. */
  predicate WellFormed(t: Tile)
  {
    match t
    case Enemy(power) => power >= 1
    case Inert(code) => code < EmptyTile || (StarTile < code <= EnemyBase)
    case _ => true
  }

  function Encode(t: Tile): (v: int)
    ensures WellFormed(t) && t.Enemy? ==> IsEnemy(v) && Power(v) == t.power
  {
    match t
    case Empty => EmptyTile
    case Wall => WallTile
    case Key => KeyTile
    case Lock => LockTile
    case Gem => GemTile
    case Star => StarTile
    case Enemy(power) => EnemyBase + power
    case Inert(code) => code
  }

  /** Each code has exactly one tag, and the tag agrees with the tile
      predicates the move rules use. */
  function Decode(v: int): (t: Tile)
    ensures WellFormed(t)
    ensures Encode(t) == v
    ensures t.Wall? <==> IsWall(v)
    ensures t.Key? <==> IsKey(v)
    ensures t.Lock? <==> IsLock(v)
    ensures t.Gem? <==> IsGem(v)
    ensures t.Star? <==> IsStar(v)
    ensures t.Enemy? <==> IsEnemy(v)
    ensures t.Enemy? ==> t.power == Power(v)
  {
    if v == EmptyTile then Empty
    else if v == WallTile then Wall
    else if v == KeyTile then Key
    else if v == LockTile then Lock
    else if v == GemTile then Gem
    else if v == StarTile then Star
    else if v > EnemyBase then Enemy(v - EnemyBase)
    else Inert(v)
  }

  /** Decoding an encoded well-formed tag gives the tag back. */
  lemma DecodeEncode(t: Tile)
    requires WellFormed(t)
    ensures Decode(Encode(t)) == t
  {
  }
}
