/**
 * Vocabulary shared by the tile map, the path search, the simulation and the
 * policy: optional values and raised errors, the two teams, the four move keys,
 * the fourteen high-level action labels, the terrain speed grid and the tile
 * lists that numpy's `where` and the flag-area comprehensions build.
 */
module Basics {

  datatype Option<+T> = None | Some(value: T)

  /** The Python exceptions the modelled code can raise on well-formed input. */
  datatype Fault =
    | NoneHasNoAttribute   // AttributeError: a closest-player query returned None and its `.xy` or `.has_flag` was read
    | DivisionByZero       // ZeroDivisionError: the centroid of an empty opponent list

  datatype Result<+T> = Ok(value: T) | Err(fault: Fault)

  /** No element of the sequence occurs twice. */
  predicate NoDuplicates<T(==)>(s: seq<T>)
  {
    forall i, j :: 0 <= i < j < |s| ==> s[i] != s[j]
  }

  datatype Team = Blue | Red

  /** The `opponent_team` of the source: 'red' for blue and 'blue' for everything else. */
  function Opponent(t: Team): (o: Team)
    ensures o != t
  {
    if t == Blue then Red else Blue
  }

  /** The four low-level moves, named after the keys 'w', 'a', 's', 'd'. */
  datatype Key = W | A | S | D

  /**
   * One tile in the direction of a key, on (x, y) = (column, row) pairs:
   * 'w' is one row up, 's' one row down, 'a' one column left, 'd' one right.
   */
  function Shift(xy: (int, int), k: Key): (int, int)
  {
    match k
    case W => (xy.0, xy.1 - 1)
    case S => (xy.0, xy.1 + 1)
    case A => (xy.0 - 1, xy.1)
    case D => (xy.0 + 1, xy.1)
  }

  function Abs(n: int): nat
  {
    if n < 0 then -n else n
  }

  function Manhattan(a: (int, int), b: (int, int)): nat
  {
    Abs(a.0 - b.0) + Abs(a.1 - b.1)
  }

  /**
   * The fourteen high-level action labels in the order the policy declares
   * them. The source spells three of them 'gaurd_...': GuardNearestTeammate is
   * 'gaurd_nearest_teammate', GuardTeammateFlagCarrier is
   * 'gaurd_teammate_flag_carrier' and GuardTeamFlagArea is 'gaurd_team_flag_area'.
   */
  datatype Hla =
    | Wait
    | Random
    | GoOpponentFlag
    | GoTeamFlagArea
    | GoOpponentFlagCarrier
    | GoNearestOpponent
    | GoNearestTeammate
    | GoNearestIncapacitatedTeammate
    | GuardNearestTeammate
    | GuardTeammateFlagCarrier
    | GuardTeamFlagArea
    | GuardOpponentFlagArea
    | RunAwayFromNearestOpponent
    | RunAwayFromOpponentsCentroid

  // ---------------------------------------------------------------------------
  // The terrain speed grid: a rectangular row-major matrix, 0 = impassable.

  predicate Rectangular(g: seq<seq<int>>)
  {
    forall r :: 0 <= r < |g| ==> |g[r]| == |g[0]|
  }

  /** A two-dimensional numpy array of speeds, indexed [row][col]. */
  type Grid = g: seq<seq<int>> | Rectangular(g)

  function Rows(g: Grid): nat
  {
    |g|
  }

  function Cols(g: Grid): nat
  {
    if |g| == 0 then 0 else |g[0]|
  }

  predicate InGrid(g: Grid, row: int, col: int)
  {
    0 <= row < Rows(g) && 0 <= col < Cols(g)
  }

  function SpeedAt(g: Grid, row: int, col: int): int
    requires InGrid(g, row, col)
  {
    g[row][col]
  }

  /** The outer ring of tiles is impassable, as every generated speed grid is. */
  ghost predicate BorderClosed(g: Grid)
  {
    forall r, c :: InGrid(g, r, c) && (r == 0 || c == 0 || r == Rows(g) - 1 || c == Cols(g) - 1) ==> g[r][c] == 0
  }

  /** Tile (column, row) xy lies off the outer ring, so its four neighbours are in the grid. */
  predicate Interior(g: Grid, xy: (int, int))
  {
    0 < xy.1 < Rows(g) - 1 && 0 < xy.0 < Cols(g) - 1
  }

  /** A passable tile of a grid with a closed border lies off the outer ring. */
  lemma OpenTileIsInterior(g: Grid, xy: (int, int))
    requires BorderClosed(g) && InGrid(g, xy.1, xy.0) && SpeedAt(g, xy.1, xy.0) != 0
    ensures Interior(g, xy)
    ensures forall k :: InGrid(g, Shift(xy, k).1, Shift(xy, k).0)
  {
  }

  // ---------------------------------------------------------------------------
  // numpy's `where` over a column window of the grid, in row-major order.

  /** The two element tests the source hands to `np.where`. */
  datatype Test = IsZero | IsPositive

  predicate Holds(t: Test, v: int)
  {
    match t
    case IsZero => v == 0
    case IsPositive => v > 0
  }

  predicate RowMajorBefore(p: (int, int), q: (int, int))
  {
    p.0 < q.0 || (p.0 == q.0 && p.1 < q.1)
  }

  /** The (row, col) pairs of row r whose column lies in [c0, c) and whose speed passes t, left to right. */
  function RowWhere(g: Grid, t: Test, r: int, c0: int, c: int): (s: seq<(int, int)>)
    requires 0 <= r < Rows(g) && 0 <= c0 <= c <= Cols(g)
    decreases c - c0
    ensures forall p :: p in s <==> p.0 == r && c0 <= p.1 < c && Holds(t, g[r][p.1])
    ensures forall i, j :: 0 <= i < j < |s| ==> s[i].1 < s[j].1
  {
    if c == c0 then []
    else RowWhere(g, t, r, c0, c - 1) + (if Holds(t, g[r][c - 1]) then [(r, c - 1)] else [])
  }

  /**
   * The (row, col) pairs of rows [0, r) whose column lies in [c0, c1) and whose
   * speed passes t, in row-major order: the `list(zip(*np.where(...)))` of the
   * source over that window.
   */
  function Where(g: Grid, t: Test, c0: int, c1: int, r: int): (s: seq<(int, int)>)
    requires 0 <= c0 <= c1 <= Cols(g) && 0 <= r <= Rows(g)
    ensures forall p :: p in s <==> 0 <= p.0 < r && c0 <= p.1 < c1 && Holds(t, g[p.0][p.1])
    ensures forall i, j :: 0 <= i < j < |s| ==> RowMajorBefore(s[i], s[j])
  {
    if r == 0 then []
    else
      var front, back := Where(g, t, c0, c1, r - 1), RowWhere(g, t, r - 1, c0, c1);
      RowMajorConcat(front, back, r - 1);
      front + back
  }

  /** A row-major list of tiles above row `row`, followed by tiles of that row left to right, is row-major. */
  lemma RowMajorConcat(front: seq<(int, int)>, back: seq<(int, int)>, row: int)
    requires forall p :: p in front ==> p.0 < row
    requires forall p :: p in back ==> p.0 == row
    requires forall i, j :: 0 <= i < j < |front| ==> RowMajorBefore(front[i], front[j])
    requires forall i, j :: 0 <= i < j < |back| ==> back[i].1 < back[j].1
    ensures forall i, j :: 0 <= i < j < |front + back| ==> RowMajorBefore((front + back)[i], (front + back)[j])
  {
    forall i, j | 0 <= i < j < |front + back|
      ensures RowMajorBefore((front + back)[i], (front + back)[j])
    {
      if j < |front| {
      } else if i < |front| {
        assert front[i] in front && back[j - |front|] in back;
      } else {
        assert back[i - |front|] in back && back[j - |front|] in back;
      }
    }
  }

  /** The impassable tiles of a grid as (row, col) pairs in row-major order. */
  function ZeroTiles(g: Grid): (s: seq<(int, int)>)
    ensures forall p :: p in s <==> InGrid(g, p.0, p.1) && g[p.0][p.1] == 0
    ensures forall i, j :: 0 <= i < j < |s| ==> RowMajorBefore(s[i], s[j])
  {
    Where(g, IsZero, 0, Cols(g), Rows(g))
  }

  // ---------------------------------------------------------------------------
  // Tile squares built by two nested ranges, outer index first.

  /** [(a, b) for b in range(b0, b1)] */
  function Run(a: int, b0: int, b1: int): (s: seq<(int, int)>)
    decreases b1 - b0
    ensures forall p :: p in s <==> p.0 == a && b0 <= p.1 < b1
    ensures |s| == if b1 <= b0 then 0 else b1 - b0
  {
    if b1 <= b0 then [] else Run(a, b0, b1 - 1) + [(a, b1 - 1)]
  }

  /** [(a, b) for a in range(a0, a1) for b in range(b0, b1)] */
  function Block(a0: int, a1: int, b0: int, b1: int): (s: seq<(int, int)>)
    decreases a1 - a0
    ensures forall p :: p in s <==> a0 <= p.0 < a1 && b0 <= p.1 < b1
  {
    if a1 <= a0 then [] else Block(a0, a1 - 1, b0, b1) + Run(a1 - 1, b0, b1)
  }

  lemma {:induction false} BlockSize(a0: int, a1: int, b0: int, b1: int)
    requires a0 <= a1 && b0 <= b1
    decreases a1 - a0
    ensures |Block(a0, a1, b0, b1)| == (a1 - a0) * (b1 - b0)
  {
    if a1 > a0 {
      BlockSize(a0, a1 - 1, b0, b1);
      assert (a1 - a0) * (b1 - b0) == (a1 - 1 - a0) * (b1 - b0) + (b1 - b0);
    }
  }
}
