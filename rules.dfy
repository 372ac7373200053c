/** Move legality and move effects: which target cells the player may step
    onto, and how stepping onto each kind of tile changes the player and the
    grid. */
module Rules {
  import opened Tiles
  import opened Grid

  /** Position and stats of the player. None of them is clamped. */
  datatype Player = Player(x: int, y: int, hp: int, def: int, key: int)

  /** One state of the world: the player and the level grid. Snapshots in the
      undo/redo history are values of this type, so they share nothing with
      the live state. */
  datatype World = World(player: Player, level: Grid)

  /** The four directions the input layer can ask for. */
  datatype Direction = Up | Down | Left | Right
  {
    function Dx(): int
    {
      match this
      case Left => -1
      case Right => 1
      case _ => 0
    }

    /** Every direction is a unit step along exactly one axis. */
    function Dy(): (d: int)
      ensures || (d == 0 && (Dx() == 1 || Dx() == -1))
              || (Dx() == 0 && (d == 1 || d == -1))
    {
      match this
      case Up => -1
      case Down => 1
      case _ => 0
    }
  }

  /** The stats a well-behaved game keeps: keys and defence never negative,
      health positive. */
  predicate StatsOk(p: Player)
  {
    p.key >= 0 && p.def >= 0 && p.hp > 0
  }

  /** Whether the player may step onto (nx, ny). A cell outside the grid or a
      wall is refused; a lock needs a key; an enemy must have less power than
      the player's health plus defence (a tie is refused); anything else is
      free. */
  function CanMoveTo(g: Grid, p: Player, nx: int, ny: int): (ok: bool)
    ensures !InBounds(g, nx, ny) ==> !ok
    ensures InBounds(g, nx, ny) && IsWall(g[ny][nx]) ==> !ok
    ensures InBounds(g, nx, ny) && IsLock(g[ny][nx]) ==> (ok <==> p.key != 0)
    ensures InBounds(g, nx, ny) && IsEnemy(g[ny][nx]) ==> (ok <==> p.hp + p.def > Power(g[ny][nx]))
    ensures InBounds(g, nx, ny) && !IsWall(g[ny][nx]) && !IsLock(g[ny][nx]) && !IsEnemy(g[ny][nx]) ==> ok
  {
    if ny < 0 || ny >= |g| || nx < 0 || nx >= |g[ny]| || IsWall(g[ny][nx]) then false
    else if IsLock(g[ny][nx]) && p.key == 0 then false
    else if IsEnemy(g[ny][nx]) && p.hp + p.def + EnemyBase <= g[ny][nx] then false
    else true
  }

  /** The effect of stepping onto (nx, ny): the tests run in the source's
      order (key, lock, gem, enemy), the target cell is cleared and the
      player stands on it. */
  function ApplyMove(w: World, nx: int, ny: int): (r: World)
    requires InBounds(w.level, nx, ny)
    ensures SameShape(w.level, r.level)
    ensures r.level[ny][nx] == EmptyTile
    ensures forall j, i :: InBounds(w.level, i, j) && (i != nx || j != ny) ==> r.level[j][i] == w.level[j][i]
    ensures r.player.x == nx && r.player.y == ny
    ensures var t, p, q := w.level[ny][nx], w.player, r.player;
      && (IsKey(t) ==> q.key == p.key + 1 && q.def == p.def && q.hp == p.hp)
      && (IsLock(t) ==> q.key == p.key - 1 && q.def == p.def && q.hp == p.hp)
      && (IsGem(t) ==> q.key == p.key && q.def == p.def + 1 && q.hp == p.hp)
      && (IsEnemy(t) ==> q.key == p.key && q.def == p.def && q.hp == p.hp - (Power(t) - p.def))
      && (!IsKey(t) && !IsLock(t) && !IsGem(t) && !IsEnemy(t) ==>
            q.key == p.key && q.def == p.def && q.hp == p.hp)
  {
    var t := w.level[ny][nx];
    var p0 := w.player;
    var p1 := if IsKey(t) then p0.(key := p0.key + 1) else p0;
    var p2 := if IsLock(t) then p1.(key := p1.key - 1) else p1;
    var p3 := if IsGem(t) then p2.(def := p2.def + 1) else p2;
    var p4 := if IsEnemy(t) then p3.(hp := p3.hp - (t - EnemyBase - p3.def)) else p3;
    World(p4.(x := nx, y := ny), SetCell(w.level, nx, ny, EmptyTile))
  }

  /** A legal move keeps keys and defence non-negative and health positive.
      After a fight the new health is hp + def - power, which legality forces
      above zero. */
  lemma LegalMoveKeepsStats(w: World, nx: int, ny: int)
    requires StatsOk(w.player)
    requires CanMoveTo(w.level, w.player, nx, ny)
    ensures StatsOk(ApplyMove(w, nx, ny).player)
    ensures IsEnemy(w.level[ny][nx]) ==>
      ApplyMove(w, nx, ny).player.hp == w.player.hp + w.player.def - Power(w.level[ny][nx])
  {
  }

  /** A move removes the star it lands on and creates none: the star count
      drops by one exactly when the target was a star. */
  lemma {:induction false} MoveStarCount(w: World, nx: int, ny: int)
    requires InBounds(w.level, nx, ny)
    ensures CountOccurrences(ApplyMove(w, nx, ny).level, StarTile)
         == CountOccurrences(w.level, StarTile) - Indicator(IsStar(w.level[ny][nx]))
  {
    CountSetCell(w.level, nx, ny, EmptyTile, StarTile);
  }

  /** The number of stars never increases. */
  lemma StarsNeverIncrease(w: World, nx: int, ny: int)
    requires InBounds(w.level, nx, ny)
    ensures CountOccurrences(ApplyMove(w, nx, ny).level, StarTile) <= CountOccurrences(w.level, StarTile)
  {
    MoveStarCount(w, nx, ny);
  }

  /** Collecting the last star wins the level, and a move that wins the
      level collected the last star. */
  lemma {:induction false} WinningMove(w: World, nx: int, ny: int)
    requires InBounds(w.level, nx, ny)
    requires !IsLevelWin(w.level)
    ensures IsLevelWin(ApplyMove(w, nx, ny).level)
        <==> IsStar(w.level[ny][nx]) && CountOccurrences(w.level, StarTile) == 1
  {
    MoveStarCount(w, nx, ny);
  }
}
