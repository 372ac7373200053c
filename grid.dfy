/** The tile matrix of a level: a sequence of rows of cell codes. Rows may
    have different lengths; every bounds check reads the row's own length. */
module Grid {
  import opened Tiles

  type Grid = seq<seq<int>>

  /** (x, y) names a cell: y picks a row, x a column of that row. */
  predicate InBounds(g: Grid, x: int, y: int)
  {
    0 <= y < |g| && 0 <= x < |g[y]|
  }

  /** Same number of rows, and each row of the same length. */
  predicate SameShape(g: Grid, h: Grid)
  {
    |g| == |h| && forall y :: 0 <= y < |g| ==> |g[y]| == |h[y]|
  }

  /** The grid with cell (x, y) overwritten by v. */
  function SetCell(g: Grid, x: int, y: int, v: int): (r: Grid)
    requires InBounds(g, x, y)
    ensures SameShape(g, r)
    ensures r[y][x] == v
    ensures forall j, i :: InBounds(g, i, j) && (i != x || j != y) ==> r[j][i] == g[j][i]
  {
    g[y := g[y][x := v]]
  }

  /** The rows laid end to end, as JavaScript's one-level flat() does. */
  function Flatten(g: Grid): (s: seq<int>)
    ensures forall v :: v in s <==> exists y, x :: InBounds(g, x, y) && g[y][x] == v
  {
    if g == [] then []
    else
      var rest := Flatten(g[1..]);
      assert forall y, x :: 1 <= y < |g| && InBounds(g, x, y) ==> g[y][x] == g[1..][y - 1][x];
      assert forall y, x :: InBounds(g[1..], x, y) ==> g[1..][y][x] == g[y + 1][x];
      assert forall x :: 0 <= x < |g[0]| ==> InBounds(g, x, 0);
      g[0] + rest
  }

  /** Number of entries of s equal to e. */
  function CountIn(s: seq<int>, e: int): (n: nat)
    ensures n <= |s|
    ensures n == 0 <==> forall i :: 0 <= i < |s| ==> s[i] != e
  {
    if s == [] then 0
    else
      assert forall i :: 1 <= i < |s| ==> s[1..][i - 1] == s[i];
      (if s[0] == e then 1 else 0) + CountIn(s[1..], e)
  }

  /** Number of cells of the grid equal to e; zero exactly when no cell
      holds e. */
  function CountOccurrences(g: Grid, e: int): (n: nat)
    ensures n == 0 <==> forall y, x :: InBounds(g, x, y) ==> g[y][x] != e
  {
    var s := Flatten(g);
    assert (forall i :: 0 <= i < |s| ==> s[i] != e) <==> e !in s;
    CountIn(s, e)
  }

  /** The level is won when no star is left: no cell equals 5. */
  predicate IsLevelWin(g: Grid)
    ensures IsLevelWin(g) <==> forall y, x :: InBounds(g, x, y) ==> g[y][x] != StarTile
  {
    CountOccurrences(g, StarTile) == 0
  }

  function Indicator(b: bool): nat
  {
    if b then 1 else 0
  }

  lemma {:induction false} CountInAppend(a: seq<int>, b: seq<int>, e: int)
    ensures CountIn(a + b, e) == CountIn(a, e) + CountIn(b, e)
  {
    if a != [] {
      assert (a + b)[1..] == a[1..] + b;
      CountInAppend(a[1..], b, e);
    } else {
      assert a + b == b;
    }
  }

  lemma {:induction false} CountInUpdate(s: seq<int>, i: nat, v: int, e: int)
    requires i < |s|
    ensures CountIn(s[i := v], e) == CountIn(s, e) - Indicator(s[i] == e) + Indicator(v == e)
  {
    if i > 0 {
      assert s[i := v][1..] == s[1..][i - 1 := v];
      CountInUpdate(s[1..], i - 1, v, e);
    }
  }

  /** Overwriting one cell changes the count of e by at most one: it loses
      the old cell if that was e and gains the new one if that is e. */
  lemma {:induction false} CountSetCell(g: Grid, x: int, y: int, v: int, e: int)
    requires InBounds(g, x, y)
    ensures CountOccurrences(SetCell(g, x, y, v), e)
         == CountOccurrences(g, e) - Indicator(g[y][x] == e) + Indicator(v == e)
  {
    var r := SetCell(g, x, y, v);
    CountInAppend(g[0], Flatten(g[1..]), e);
    CountInAppend(r[0], Flatten(r[1..]), e);
    if y == 0 {
      assert r[1..] == g[1..];
      CountInUpdate(g[0], x, v, e);
    } else {
      assert r[1..] == SetCell(g[1..], x, y - 1, v);
      CountSetCell(g[1..], x, y - 1, v, e);
    }
  }
}
