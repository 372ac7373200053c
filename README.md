# Dungeon puzzler grid state machine, in Dafny

This project models the rule core of a tile-grid dungeon puzzler (game.js).
The player moves on a grid of integer cell codes: 0 empty, 1 wall, 2 key,
3 lock, 4 gem, 5 star, and any code above 10 is an enemy of power `code - 10`.
A move onto a cell is legal unless:

- the cell is out of bounds;
- the cell is a wall;
- the cell is a lock and the player has no key;
- the cell is an enemy whose power is at least the player's health plus
  defence.

A legal move does the following:

- It records a snapshot for undo.
- It applies the tile's effect:
  - a key adds a key;
  - a lock uses up a key;
  - a gem adds one defence;
  - an enemy takes `power - def` health.
- It clears the cell and moves the player onto it.
- When no star is left, it advances to the next level and resets it. Past
  the last level, play goes back to the first.

Undo and redo move snapshots between two stacks.

Files and modules:

- `tiles.dfy` (`Tiles`): the cell codes, the tile predicates and a tagged
  `Tile` view with `Decode`/`Encode`.
- `grid.dfy` (`Grid`): the grid as `seq<seq<int>>`, bounds, overwriting a
  cell, counting codes (the source's flatten-and-filter) and the win test.
- `rules.dfy` (`Rules`): `Player`, `World` (player plus grid, the snapshot
  type), `Direction`, and the two pure rules `CanMoveTo` and `ApplyMove`.
  Lemmas cover stats, star counts and winning.
- `history.dfy` (`History`): the undo/redo history as a value, `Timeline`,
  with `Save`, `Undo` and `Redo`. Lemmas cover the round trips.
- `session.dfy` (`Session`): the class `GameSession`. It replaces the
  game's global variables. Its methods `ResetLevel`, `SaveState`, `Undo`,
  `Redo` and `Move` update fields in place, as the source does. `SaveState`,
  `Undo`, `Redo` and `Move` are proved against `History.Save`/`Undo`/`Redo`,
  `ApplyMove` and `NextLevelIndex`; `ResetLevel` states its new fields from
  the level table.

Choices the model makes, each following game.js:

- Grid rows may be ragged. The bounds check reads the target row's own
  length, as game.js:140 does.
- Enemy power is any positive integer: every code above 10 is an enemy
  (game.js:93).
- With exactly one key, a lock takes the key count to 0, not below it. Keys
  only go negative when they already were: `!player.key` (game.js:142) is
  false for a negative count, so the lock opens and the count drops further
  (game.js:187). `LegalMoveKeepsStats` proves that keys, defence and health
  stay in range when they start there.
- On the shipped level (game.js:10-16), the enemy above the key has code 14,
  power 4. `FirstLevelOpening` shows that this enemy stops the player at the
  start.
- The tagged `Tile` view (`Decode`/`Encode`) is a side view of the cell
  codes. The move rules work on the raw codes, as game.js does; `Decode`'s
  contract ties each tag to the tile predicates they use.

Snapshots and level definitions are Dafny values, so nothing is shared
between the live state, the history and the level table. The source gets the
same effect by copying: `{...player}`, `row => [...row]`, and handing the
popped snapshot over to the live state.

## Model

| member | source | states |
|---|---|---|
| Tiles.IsEnemy | game.js:93 | isEnemy: the code is above 10; Tiles.Decode proves it is exactly the codes tagged Enemy |
| Tiles.IsWall | game.js:96 | isWall: the code is 1; Tiles.Decode proves it is exactly the codes tagged Wall |
| Tiles.IsKey | game.js:99 | isKey: the code is 2; Tiles.Decode proves it is exactly the codes tagged Key |
| Tiles.IsLock | game.js:102 | isLock: the code is 3; Tiles.Decode proves it is exactly the codes tagged Lock |
| Tiles.IsGem | game.js:105 | isGem: the code is 4; Tiles.Decode proves it is exactly the codes tagged Gem |
| Tiles.IsStar | game.js:108 | the star test inside isLevelWin: the code is 5; Tiles.Decode proves it is exactly the codes tagged Star |
| Tiles.Power | game.js:189 | an enemy code's power, code minus 10, is at least 1 |
| Tiles.Encode | game.js:6 | a well-formed enemy tag encodes to an enemy code of that same power |
| Tiles.Decode | game.js:93-105 | every code has exactly one tag, which agrees with isWall/isKey/isLock/isGem/isEnemy and the star test, and encoding the tag gives the code back |
| Tiles.DecodeEncode | game.js:6 | decoding an encoded well-formed tag gives the tag back |
| Grid.SetCell | game.js:191 | writing a cell keeps the grid's shape, sets that cell and leaves every other cell as it was |
| Grid.CountIn | game.js:89 | the filtered length is at most the length, and is zero exactly when no entry equals the element |
| Grid.CountSetCell | game.js:88-90 | countOccurrences after overwriting one cell equals the old count, minus one if the old cell matched, plus one if the new value matches |
| Grid.Flatten | game.js:89 | `.flat()`: a value appears in the flattened grid iff some in-bounds cell holds it |
| Grid.CountOccurrences | game.js:88-90 | countOccurrences is zero iff no in-bounds cell holds the element; CountSetCell gives its exact change under a one-cell write |
| Grid.IsLevelWin | game.js:108 | isLevelWin holds iff no in-bounds cell equals 5 |
| Rules.Direction.Dy | game.js:152-159 | every direction of the key map is a unit step along exactly one axis: one delta is 0 and the other is 1 or -1 |
| Rules.CanMoveTo | game.js:139-147 | out of bounds or a wall is refused whatever the stats; a lock is enterable iff key != 0; an enemy is enterable iff hp + def > power, so a tie is refused; every other in-bounds tile is enterable |
| Rules.ApplyMove | game.js:186-194 | key tile: key + 1; lock: key - 1; gem: def + 1; enemy: hp - (power - def), with no clamp; any other tile: stats unchanged. The target becomes 0, every other cell and the shape are unchanged, and the player stands on the target |
| Rules.LegalMoveKeepsStats | game.js:186-189 | from key >= 0, def >= 0, hp > 0, a legal move keeps all three; after a fight hp is hp + def - power |
| Rules.MoveStarCount | game.js:191 | a move lowers the star count by one exactly when the target was a star, and leaves it alone otherwise |
| Rules.StarsNeverIncrease | game.js:191 | the number of stars never increases |
| Rules.WinningMove | game.js:197 | from an unwon level, a move wins iff it takes the last star |
| History.Save | game.js:111-114 | saveState pushes the current world onto moveHistory, keeps the older entries and the current world, and empties redoHistory |
| History.Undo | game.js:117-125 | with an empty moveHistory nothing changes; otherwise the last past world becomes current and the replaced world is pushed onto redoHistory |
| History.Redo | game.js:128-136 | with an empty redoHistory nothing changes; otherwise the last undone world becomes current and the replaced world is pushed onto moveHistory |
| History.RedoAfterUndo | game.js:117-136 | undo then redo restores the world and both stacks exactly |
| History.UndoAfterRedo | game.js:117-136 | redo then undo restores the world and both stacks exactly |
| History.UndoKeepsWorlds | game.js:117-125 | undo only moves the cursor: the worlds held, in order, are unchanged |
| History.RedoKeepsWorlds | game.js:128-136 | redo only moves the cursor: the worlds held, in order, are unchanged |
| History.UndoAfterSave | game.js:111-125 | undo right after a recorded move brings back the pre-move world and old moveHistory, with the post-move world alone on redoHistory |
| History.Undos | game.js:117-125 | n undos with enough history shorten moveHistory by exactly n |
| History.RedosAfterUndos | game.js:117-136 | n undos followed by n redos restore the timeline exactly |
| Session.NextLevelIndex | game.js:198-205 | the next level index stays in range and is (i + 1) mod the number of levels, so it wraps to 0 past the last level |
| Session.GameSession.constructor | game.js:20-23 | a session starts on level 0 with its start player and layout and empty histories |
| Session.GameSession.ResetLevel | game.js:77-81 | player and level become the current level's start and layout, moveHistory is emptied, and redoHistory is left as it was |
| Session.GameSession.SaveState | game.js:111-114 | the live timeline becomes Save of the old one |
| Session.GameSession.Undo | game.js:117-125 | the live timeline becomes Undo of the old one, and the level index is kept |
| Session.GameSession.Redo | game.js:128-136 | the live timeline becomes Redo of the old one, and the level index is kept |
| Session.GameSession.Move | game.js:180-206 | a refused move changes nothing. A legal move that leaves a star keeps the level index, applies ApplyMove, pushes the pre-move world and empties redoHistory. A winning move advances to NextLevelIndex and resets that level with empty histories |
| Session.FirstLevelOpening | game.js:7-18 | on the shipped level the start is not a win, stepping up collects the key (key 1), and the power-4 enemy above then refuses the player with hp 2 and def 0 |

## Left out

- Drawing is not modelled: `draw()`, every canvas call and the canvas sizing
  in `resetLevel` (game.js:43-74, 82-84). They have no effect on the game
  state.
- Image loading and the promise that starts the game are not modelled
  (game.js:27-40, 212). The `GameSession` constructor stands for the state
  the game is in once `resetLevel` has first run.
- The keydown listener and its key table are not modelled (game.js:150-178).
  A direction is the `Direction` datatype. The undo, redo and reset keys are
  direct calls to `Undo`, `Redo` and `ResetLevel`.
- The "all levels complete" alert (game.js:202) and the console logging
  (game.js:186-189) are UI and logging output only.
- The level table is a parameter of the session. The shipped level appears
  only as the example constant `FirstLevel`.
- JavaScript numbers are doubles. The model uses unbounded integers, so it
  leaves out precision loss beyond 2^53, which no realistic play reaches.
- The key count is assumed to be an integer. The truthiness test
  `!player.key` is modelled as `key == 0`; non-numeric values are not
  modelled.
