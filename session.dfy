/** One play session: the level table, the current level index, the live
    player and grid, and the two history stacks. The session object stands
    in for the game's global variables. */
module Session {
  import opened Tiles
  import opened Grid
  import opened Rules
  import History

  /** A level as authored: its initial grid and the player's start. */
  datatype LevelDef = LevelDef(layout: Grid, playerStart: Player)

  /** The level that follows level i of count: the next one, or the first
      once the last is passed. */
  function NextLevelIndex(i: nat, count: nat): (r: nat)
    requires i < count
    ensures r < count
    ensures r == (i + 1) % count
  {
    if i + 1 < count then i + 1 else 0
  }

  class GameSession {
    const levels: seq<LevelDef>
    var levelIndex: nat
    var player: Player
    var level: Grid
    var moveHistory: seq<World>
    var redoHistory: seq<World>

    ghost predicate Valid()
      reads this
    {
      levelIndex < |levels|
    }

    /** The live world between its two history stacks. */
    function Timeline(): History.Timeline
      reads this
    {
      History.Timeline(World(player, level), moveHistory, redoHistory)
    }

    /** A session starts on the first level, freshly reset. */
    constructor (levels: seq<LevelDef>)
      requires |levels| > 0
      ensures Valid() && this.levels == levels && levelIndex == 0
      ensures player == levels[0].playerStart && level == levels[0].layout
      ensures moveHistory == [] && redoHistory == []
    {
      this.levels := levels;
      levelIndex := 0;
      player := levels[0].playerStart;
      level := levels[0].layout;
      moveHistory := [];
      redoHistory := [];
    }

    /** Restart the current level: its start player and layout come back and
        moveHistory is emptied. redoHistory is left as it was. */
    method ResetLevel()
      requires Valid()
      modifies this
      ensures Valid() && levelIndex == old(levelIndex)
      ensures player == levels[levelIndex].playerStart && level == levels[levelIndex].layout
      ensures moveHistory == [] && redoHistory == old(redoHistory)
    {
      moveHistory := [];
      player := levels[levelIndex].playerStart;
      level := levels[levelIndex].layout;
    }

    /** Record the current world before a move. */
    method SaveState()
      requires Valid()
      modifies this
      ensures Valid() && levelIndex == old(levelIndex)
      ensures Timeline() == History.Save(old(Timeline()))
    {
      moveHistory := moveHistory + [World(player, level)];
      redoHistory := [];
    }

    method Undo()
      requires Valid()
      modifies this
      ensures Valid() && levelIndex == old(levelIndex)
      ensures Timeline() == History.Undo(old(Timeline()))
    {
      if |moveHistory| > 0 {
        var lastState := moveHistory[|moveHistory| - 1];
        moveHistory := moveHistory[..|moveHistory| - 1];
        redoHistory := redoHistory + [World(player, level)];
        player := lastState.player;
        level := lastState.level;
      }
    }

    method Redo()
      requires Valid()
      modifies this
      ensures Valid() && levelIndex == old(levelIndex)
      ensures Timeline() == History.Redo(old(Timeline()))
    {
      if |redoHistory| > 0 {
        var redoState := redoHistory[|redoHistory| - 1];
        redoHistory := redoHistory[..|redoHistory| - 1];
        moveHistory := moveHistory + [World(player, level)];
        player := redoState.player;
        level := redoState.level;
      }
    }

    /** One direction key. A refused move changes nothing. A legal move is
        recorded, applied, and, when it removes the last star, the session
        advances to the next level (the first after the last) and resets it. */
    method Move(dir: Direction)
      requires Valid()
      modifies this
      ensures Valid()
      ensures var nx, ny := old(player.x) + dir.Dx(), old(player.y) + dir.Dy();
        if !CanMoveTo(old(level), old(player), nx, ny) then
          && levelIndex == old(levelIndex)
          && Timeline() == old(Timeline())
        else
          var after := ApplyMove(old(World(player, level)), nx, ny);
          if IsLevelWin(after.level) then
            && levelIndex == NextLevelIndex(old(levelIndex), |levels|)
            && player == levels[levelIndex].playerStart
            && level == levels[levelIndex].layout
            && moveHistory == [] && redoHistory == []
          else
            && levelIndex == old(levelIndex)
            && Timeline() == History.Save(old(Timeline())).(current := after)
    {
      var newX := player.x + dir.Dx();
      var newY := player.y + dir.Dy();
      if CanMoveTo(level, player, newX, newY) {
        ghost var after := ApplyMove(World(player, level), newX, newY);
        SaveState();
        if IsKey(level[newY][newX]) { player := player.(key := player.key + 1); }
        if IsLock(level[newY][newX]) { player := player.(key := player.key - 1); }
        if IsGem(level[newY][newX]) { player := player.(def := player.def + 1); }
        if IsEnemy(level[newY][newX]) {
          player := player.(hp := player.hp - (level[newY][newX] - EnemyBase - player.def));
        }
        assert player.(x := newX, y := newY) == after.player;
        level := level[newY := level[newY][newX := EmptyTile]];
        player := player.(x := newX, y := newY);
        assert World(player, level) == after;
        if IsLevelWin(level) {
          levelIndex := levelIndex + 1;
          if levelIndex < |levels| {
            ResetLevel();
          } else {
            levelIndex := 0;
            ResetLevel();
          }
        }
      }
    }
  }

  /** The level the game ships with. */
  const FirstLevel: LevelDef := LevelDef(
    [ [1, 1, 1, 1, 1, 1, 1, 5, 1],
      [1, 4, 3, 4, 3, 4, 1, 14, 1],
      [1, 12, 1, 13, 1, 11, 1, 2, 1],
      [1, 0, 3, 0, 4, 0, 11, 0, 1],
      [1, 1, 1, 1, 1, 1, 1, 1, 1] ],
    Player(7, 3, 2, 0, 0))

  /** On the shipped level the player starts one star short of a win, picks
      up the key above, and is then stopped by the power-4 enemy: health 2
      plus defence 0 does not beat it. */
  lemma FirstLevelOpening()
    ensures !IsLevelWin(FirstLevel.layout)
    ensures CanMoveTo(FirstLevel.layout, FirstLevel.playerStart, 7, 2)
    ensures var w := ApplyMove(World(FirstLevel.playerStart, FirstLevel.layout), 7, 2);
      && w.player == Player(7, 2, 2, 0, 1)
      && !CanMoveTo(w.level, w.player, 7, 1)
  {
    assert InBounds(FirstLevel.layout, 7, 0) && FirstLevel.layout[0][7] == StarTile;
  }
}
