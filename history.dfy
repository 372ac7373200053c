/** Linear undo/redo history. The current world sits between two stacks of
    snapshots: moveHistory holds past worlds and redoHistory holds undone
    ones, each with its most recent entry last. */
module History {
  import opened Rules

  datatype Timeline = Timeline(current: World, moveHistory: seq<World>, redoHistory: seq<World>)

  /** Recording a move: the current world is pushed onto moveHistory and
      redoHistory is emptied. */
  function Save(t: Timeline): (r: Timeline)
    ensures r.current == t.current
    ensures |r.moveHistory| == |t.moveHistory| + 1
    ensures r.moveHistory[..|t.moveHistory|] == t.moveHistory
    ensures r.moveHistory[|t.moveHistory|] == t.current
    ensures r.redoHistory == []
  {
    Timeline(t.current, t.moveHistory + [t.current], [])
  }

  /** Stepping back: the last past world becomes current and the world it
      replaces goes onto redoHistory. With no past world nothing changes. */
  function Undo(t: Timeline): (r: Timeline)
    ensures t.moveHistory == [] ==> r == t
    ensures t.moveHistory != [] ==>
      && r.moveHistory + [r.current] == t.moveHistory
      && r.redoHistory == t.redoHistory + [t.current]
  {
    if |t.moveHistory| > 0 then
      var n := |t.moveHistory| - 1;
      Timeline(t.moveHistory[n], t.moveHistory[..n], t.redoHistory + [t.current])
    else t
  }

  /** Stepping forward: the last undone world becomes current and the world
      it replaces goes onto moveHistory. With nothing undone nothing
      changes. */
  function Redo(t: Timeline): (r: Timeline)
    ensures t.redoHistory == [] ==> r == t
    ensures t.redoHistory != [] ==>
      && r.redoHistory + [r.current] == t.redoHistory
      && r.moveHistory == t.moveHistory + [t.current]
  {
    if |t.redoHistory| > 0 then
      var n := |t.redoHistory| - 1;
      Timeline(t.redoHistory[n], t.moveHistory + [t.current], t.redoHistory[..n])
    else t
  }

  /** Every world the timeline holds, oldest first: the past, the current
      world, then the undone worlds from the nearest on. */
  function Worlds(t: Timeline): seq<World>
  {
    t.moveHistory + [t.current] + Reverse(t.redoHistory)
  }

  function Reverse(s: seq<World>): (r: seq<World>)
    ensures |r| == |s|
    ensures forall i :: 0 <= i < |s| ==> r[i] == s[|s| - 1 - i]
  {
    if s == [] then [] else Reverse(s[1..]) + [s[0]]
  }

  /** Redo undoes an undo: the world and both stacks come back exactly. */
  lemma RedoAfterUndo(t: Timeline)
    requires t.moveHistory != []
    ensures Redo(Undo(t)) == t
  {
  }

  /** Undo undoes a redo: the world and both stacks come back exactly. */
  lemma UndoAfterRedo(t: Timeline)
    requires t.redoHistory != []
    ensures Undo(Redo(t)) == t
  {
  }

  /** Undo and redo only move the cursor: the sequence of worlds the
      timeline holds is the same before and after. */
  lemma UndoKeepsWorlds(t: Timeline)
    ensures Worlds(Undo(t)) == Worlds(t)
  {
  }

  lemma RedoKeepsWorlds(t: Timeline)
    ensures Worlds(Redo(t)) == Worlds(t)
  {
  }

  /** Undo right after a recorded move returns to the world before the
      move, with the world after it waiting on redoHistory. */
  lemma UndoAfterSave(t: Timeline, after: World)
    ensures Undo(Save(t).(current := after)) == Timeline(t.current, t.moveHistory, [after])
  {
  }

  /** Undo applied n times. */
  function Undos(t: Timeline, n: nat): (r: Timeline)
    ensures n <= |t.moveHistory| ==> |r.moveHistory| == |t.moveHistory| - n
    decreases n
  {
    if n == 0 then t else Undos(Undo(t), n - 1)
  }

  /** Redo applied n times. */
  function Redos(t: Timeline, n: nat): Timeline
    decreases n
  {
    if n == 0 then t else Redos(Redo(t), n - 1)
  }

  /** Any number of undos, as long as there is history for each, is taken
      back exactly by the same number of redos. */
  lemma {:induction false} RedosAfterUndos(t: Timeline, n: nat)
    requires n <= |t.moveHistory|
    ensures Redos(Undos(t, n), n) == t
    decreases n
  {
    if n > 0 {
      var u := Undo(t);
      RedosAfterUndos(u, n - 1);
      // Redos(Undos(u, n-1), n-1) == u, so one more redo gives Redo(u) == t.
      RedoAfterUndo(t);
      RedosPeel(Undos(u, n - 1), n - 1);
    }
  }

  /** n + 1 redos are n redos followed by one more. */
  lemma {:induction false} RedosPeel(t: Timeline, n: nat)
    ensures Redos(t, n + 1) == Redo(Redos(t, n))
    decreases n
  {
    if n > 0 {
      RedosPeel(Redo(t), n - 1);
    }
  }
}
