/**
 * The headless world of app/virtual_game.py: the players' records, the
 * `VirtualMap` that holds them together with the terrain, the two flags and
 * their in-play switches, and the map's player queries and direction helpers.
 *
 * Players are records held in `VirtualMap.players`; a player is named by its
 * position in that list, which stands for the object reference the source
 * passes around.
 */
module Arena {
  import opened Basics

  /** The fields of a `VirtualPlayer` (its back-reference to the map is left out). */
  datatype Player = Player(
    team: Team,
    playerIdx: int,
    hasFlag: bool,
    isIncapacitated: bool,
    incapacitatedCountdown: int,
    inEnemyTerritory: bool,
    inFlagArea: bool,
    xy: (int, int),               // (column, row)
    prevDir: Key,
    gotTagged: bool,
    gotTaggedWithFlag: bool,
    tagged: bool,
    taggedFlagHolder: bool,
    teammateGotFlag: bool,
    opponentGotFlag: bool,
    lost: bool,
    won: bool)

  /** A fresh `VirtualPlayer`; `prevDir` is the key its constructor draws at random. */
  function NewPlayer(team: Team, idx: int, xy: (int, int), prevDir: Key): Player
  {
    Player(team, idx, false, false, 0, false, false, xy, prevDir,
           false, false, false, false, false, false, false, false)
  }

  /** The part of a `VirtualMap` that a game step changes. */
  datatype World = World(players: seq<Player>, blueFlagInPlay: bool, redFlagInPlay: bool)

  // ---------------------------------------------------------------------------
  // The closest-player queries. Their `best_dist` stays infinite, so the
  // distance test always passes and the last eligible player in list order wins.

  /** Not the asking player's index, on the asked team, and incapacitated when asked for. */
  predicate Eligible(q: Player, selfIdx: int, team: Team, incapacitatedOnly: bool)
  {
    q.playerIdx != selfIdx && q.team == team && (incapacitatedOnly ==> q.isIncapacitated)
  }

  /** The position of the last eligible player, if any. */
  function LastEligible(ps: seq<Player>, selfIdx: int, team: Team, incapacitatedOnly: bool): (r: Option<nat>)
    ensures r.Some? ==> r.value < |ps| && Eligible(ps[r.value], selfIdx, team, incapacitatedOnly)
    ensures r.Some? ==> forall j :: r.value < j < |ps| ==> !Eligible(ps[j], selfIdx, team, incapacitatedOnly)
    ensures r.None? ==> forall j :: 0 <= j < |ps| ==> !Eligible(ps[j], selfIdx, team, incapacitatedOnly)
  {
    if ps == [] then None
    else if Eligible(ps[|ps| - 1], selfIdx, team, incapacitatedOnly) then Some(|ps| - 1)
    else LastEligible(ps[..|ps| - 1], selfIdx, team, incapacitatedOnly)
  }

  /** The position of the first player at or after `from` who is on `team` and carries a flag. */
  function FirstCarrier(ps: seq<Player>, team: Team, from: nat): (r: Option<nat>)
    decreases |ps| - from
    ensures r.Some? ==> from <= r.value < |ps| && ps[r.value].team == team && ps[r.value].hasFlag
    ensures r.Some? ==> forall j :: from <= j < r.value ==> !(ps[j].team == team && ps[j].hasFlag)
    ensures r.None? ==> forall j :: from <= j < |ps| ==> !(ps[j].team == team && ps[j].hasFlag)
  {
    if from >= |ps| then None
    else if ps[from].team == team && ps[from].hasFlag then Some(from)
    else FirstCarrier(ps, team, from + 1)
  }

  // ---------------------------------------------------------------------------
  // Direction helpers. The source evaluates two of them on float midpoints and
  // means; they are computed here on scaled integers and proved equal to the
  // evaluation on exact reals.

  /** Along the axis with the strictly larger displacement; a tie goes vertical. */
  function Toward(dx: int, dy: int): Key
  {
    if Abs(dx) > Abs(dy) then (if dx < 0 then A else D) else (if dy < 0 then W else S)
  }

  /** Horizontal exactly when the horizontal displacement is strictly the smaller one. */
  function Away(dx: int, dy: int): Key
  {
    if Abs(dx) < Abs(dy) then (if dx < 0 then A else D) else (if dy < 0 then W else S)
  }

  /** `get_direction_to_xy`: the key from xy1 towards xy2. */
  function GetDirectionToXy(xy1: (int, int), xy2: (int, int)): (k: Key)
    ensures (k == A || k == D) <==> Abs(xy2.0 - xy1.0) > Abs(xy2.1 - xy1.1)
    ensures xy1 != xy2 ==> Manhattan(Shift(xy1, k), xy2) < Manhattan(xy1, xy2)
    ensures xy1 == xy2 ==> k == S
  {
    Toward(xy2.0 - xy1.0, xy2.1 - xy1.1)
  }

  /**
   * `get_direction_away_from`: the key from xy1 away from xy2. It goes
   * horizontal when the horizontal gap is the smaller one, and every key it
   * returns lengthens the Manhattan distance by one; a zero offset along the
   * chosen axis gives 'd' or 's'.
   */
  function GetDirectionAwayFrom(xy1: (int, int), xy2: (int, int)): (k: Key)
    ensures (k == A || k == D) <==> Abs(xy1.0 - xy2.0) < Abs(xy1.1 - xy2.1)
    ensures k == A <==> Abs(xy1.0 - xy2.0) < Abs(xy1.1 - xy2.1) && xy1.0 - xy2.0 < 0
    ensures k == W <==> Abs(xy1.0 - xy2.0) >= Abs(xy1.1 - xy2.1) && xy1.1 - xy2.1 < 0
    ensures Manhattan(Shift(xy1, k), xy2) == Manhattan(xy1, xy2) + 1
  {
    Away(xy1.0 - xy2.0, xy1.1 - xy2.1)
  }

  function RealAbs(x: real): real
  {
    if x < 0.0 then -x else x
  }

  /** `get_direction_to_xy` on real displacements. */
  function TowardReal(dx: real, dy: real): Key
  {
    if RealAbs(dx) > RealAbs(dy) then (if dx < 0.0 then A else D) else (if dy < 0.0 then W else S)
  }

  /** `get_direction_away_from` on real displacements. */
  function AwayReal(dx: real, dy: real): Key
  {
    if RealAbs(dx) < RealAbs(dy) then (if dx < 0.0 then A else D) else (if dy < 0.0 then W else S)
  }

  /** Scaling both displacements by the same positive factor changes neither direction. */
  lemma ScaleInvariant(dx: real, dy: real, c: real)
    requires c > 0.0
    ensures TowardReal(c * dx, c * dy) == TowardReal(dx, dy)
    ensures AwayReal(c * dx, c * dy) == AwayReal(dx, dy)
  {
    ScaleKeepsSign(dx, c);
    ScaleKeepsSign(dy, c);
    ScaleKeepsOrder(RealAbs(dx), RealAbs(dy), c, RealAbs(c * dx), RealAbs(c * dy));
  }

  lemma ScaleKeepsSign(d: real, c: real)
    requires c > 0.0
    ensures c * d < 0.0 <==> d < 0.0
    ensures RealAbs(c * d) == c * RealAbs(d)
  {
  }

  /** Values a and b scaled by the same positive factor compare as a and b do. */
  lemma ScaleKeepsOrder(a: real, b: real, c: real, ca: real, cb: real)
    requires c > 0.0 && ca == c * a && cb == c * b
    ensures ca < cb <==> a < b
    ensures cb < ca <==> b < a
  {
    assert cb - ca == c * (b - a);
  }

  /**
   * `go_between`: the key from xy1 towards the midpoint of xy2 and xy3, which
   * the source computes as xy2 + (xy3 - xy2) / 2 in floating point.
   */
  function GoBetween(xy1: (int, int), xy2: (int, int), xy3: (int, int)): (k: Key)
    ensures k == TowardReal(
      xy2.0 as real + (xy3.0 - xy2.0) as real / 2.0 - xy1.0 as real,
      xy2.1 as real + (xy3.1 - xy2.1) as real / 2.0 - xy1.1 as real)
  {
    var dx, dy := xy2.0 + xy3.0 - 2 * xy1.0, xy2.1 + xy3.1 - 2 * xy1.1;
    ScaleInvariant(dx as real / 2.0, dy as real / 2.0, 2.0);
    Toward(dx, dy)
  }

  /**
   * `get_direction_away_from(xy1, mean_xy)` for the mean (sumX / n, sumY / n)
   * of n opponents' coordinates.
   */
  function AwayFromMean(xy1: (int, int), sumX: int, sumY: int, n: int): (k: Key)
    requires n > 0
    ensures k == AwayReal(xy1.0 as real - sumX as real / n as real, xy1.1 as real - sumY as real / n as real)
  {
    var dx, dy := xy1.0 as real - sumX as real / n as real, xy1.1 as real - sumY as real / n as real;
    assert n as real * dx == (n * xy1.0 - sumX) as real;
    assert n as real * dy == (n * xy1.1 - sumY) as real;
    ScaleInvariant(dx, dy, n as real);
    Away(n * xy1.0 - sumX, n * xy1.1 - sumY)
  }

  // ---------------------------------------------------------------------------
  // Loading the terrain: without barriers, every zero inside the outer ring
  // becomes 1.

  predicate OnRing(r: int, c: int, rows: int, cols: int)
  {
    r == 0 || c == 0 || r == rows - 1 || c == cols - 1
  }

  /** The value a cell holds after barrier removal. */
  function Opened(v: int, r: int, c: int, rows: int, cols: int): int
  {
    if 1 <= r < rows - 1 && 1 <= c < cols - 1 && v == 0 then 1 else v
  }

  /** The grid after barrier removal. */
  function OpenBarriers(g: Grid): (h: Grid)
    ensures Rows(h) == Rows(g) && Cols(h) == Cols(g)
    ensures forall r, c :: InGrid(g, r, c) ==> h[r][c] == Opened(g[r][c], r, c, Rows(g), Cols(g))
  {
    seq(Rows(g), r requires 0 <= r < Rows(g) =>
      seq(Cols(g), c requires 0 <= c < Cols(g) => Opened(g[r][c], r, c, Rows(g), Cols(g))))
  }

  /** The speeds a `VirtualMap` keeps: barriers removed unless they are allowed. */
  function Terrain(g: Grid, allowBarriers: bool): (h: Grid)
    ensures Rows(h) == Rows(g) && Cols(h) == Cols(g)
  {
    if allowBarriers then g else OpenBarriers(g)
  }

  /** The contents of a two-dimensional array as a grid. */
  function GridOf(a: array2<int>): (g: Grid)
    reads a
    ensures Rows(g) == a.Length0 && (a.Length0 > 0 ==> Cols(g) == a.Length1)
    ensures forall r, c :: 0 <= r < a.Length0 && 0 <= c < a.Length1 ==> g[r][c] == a[r, c]
  {
    seq(a.Length0, r requires 0 <= r < a.Length0 reads a =>
      seq(a.Length1, c requires 0 <= c < a.Length1 reads a => a[r, c]))
  }

  /** The constructor's nested loops that overwrite each zero inside the ring with 1, in place. */
  method RemoveBarriers(a: array2<int>)
    modifies a
    ensures forall r, c :: 0 <= r < a.Length0 && 0 <= c < a.Length1 ==>
      a[r, c] == Opened(old(a[r, c]), r, c, a.Length0, a.Length1)
  {
    var i := 1;
    while i < a.Length0 - 1
      invariant 1 <= i <= if a.Length0 >= 2 then a.Length0 - 1 else 1
      invariant forall r, c :: 0 <= r < a.Length0 && 0 <= c < a.Length1 ==>
        a[r, c] == (if r < i then Opened(old(a[r, c]), r, c, a.Length0, a.Length1) else old(a[r, c]))
    {
      var j := 1;
      while j < a.Length1 - 1
        invariant 1 <= j <= if a.Length1 >= 2 then a.Length1 - 1 else 1
        invariant forall r, c :: 0 <= r < a.Length0 && 0 <= c < a.Length1 ==>
          a[r, c] == (if r < i || (r == i && c < j) then Opened(old(a[r, c]), r, c, a.Length0, a.Length1) else old(a[r, c]))
      {
        if a[i, j] == 0 {
          a[i, j] := 1;
        }
        j := j + 1;
      }
      i := i + 1;
    }
  }

  /** Reads the terrain out of `speeds`, removing the barriers in place first unless they are allowed. */
  method LoadTerrain(speeds: array2<int>, allowBarriers: bool) returns (g: Grid)
    modifies speeds
    ensures g == Terrain(old(GridOf(speeds)), allowBarriers)
    ensures Rows(g) == speeds.Length0 && (speeds.Length0 > 0 ==> Cols(g) == speeds.Length1)
  {
    ghost var before := GridOf(speeds);
    if !allowBarriers {
      RemoveBarriers(speeds);
    }
    g := GridOf(speeds);
    var h := Terrain(before, allowBarriers);
    forall r | 0 <= r < speeds.Length0
      ensures g[r] == h[r]
    {
      assert forall c :: 0 <= c < speeds.Length1 ==> g[r][c] == h[r][c];
    }
  }

  /**
   * After barrier removal the only impassable tiles are the ring's; a closed
   * ring stays closed.
   */
  lemma BarriersRemoved(g: Grid, r: int, c: int)
    requires InGrid(g, r, c)
    ensures OpenBarriers(g)[r][c] == 0 <==> g[r][c] == 0 && OnRing(r, c, Rows(g), Cols(g))
    ensures BorderClosed(g) ==> BorderClosed(OpenBarriers(g))
  {
  }

  /** The rows of column `col` among the first n whose speed is positive, top to bottom. */
  function PositiveRows(g: Grid, col: int, n: int): (rows: seq<int>)
    requires 0 <= col < Cols(g) && 0 <= n <= Rows(g)
    ensures forall r :: r in rows <==> 0 <= r < n && g[r][col] > 0
    ensures forall a, b :: 0 <= a < b < |rows| ==> rows[a] < rows[b]
  {
    if n == 0 then []
    else
      var front := PositiveRows(g, col, n - 1);
      assert forall a :: 0 <= a < |front| ==> front[a] in front;
      front + (if g[n - 1][col] > 0 then [n - 1] else [])
  }

  /** The column of the blue flag. */
  const BlueFlagX: int := 5

  /** The column of the red flag: as far from the right edge as the blue flag is from the left one. */
  function RedFlagX(cols: int): int
  {
    cols - BlueFlagX
  }

  /**
   * Where a flag goes in column `col`: the passable rows of the column
   * without their first two and last two are the candidates, and `draw` is
   * the one `random.choice` picks.
   */
  function FlagXy(g: Grid, col: int, draw: nat): (xy: (int, int))
    requires 0 <= col < Cols(g) && draw + 4 < |PositiveRows(g, col, Rows(g))|
    ensures xy.0 == col && InGrid(g, xy.1, col) && g[xy.1][col] > 0
    ensures var rows := PositiveRows(g, col, Rows(g));
      rows[0] < rows[1] < xy.1 < rows[|rows| - 2] < rows[|rows| - 1]
  {
    (col, PositiveRows(g, col, Rows(g))[2 + draw])
  }

  /** The 5-by-5 flag area around a flag, as (x, y) pairs, x outermost. */
  function FlagArea(flagXy: (int, int)): seq<(int, int)>
  {
    Block(flagXy.0 - 2, flagXy.0 + 3, flagXy.1 - 2, flagXy.1 + 3)
  }

  predicate OnOpenTile(g: Grid, xy: (int, int))
  {
    InGrid(g, xy.1, xy.0) && g[xy.1][xy.0] != 0
  }

  /** Every player stands on a passable tile of the grid. */
  predicate Placed(g: Grid, ps: seq<Player>)
  {
    forall j :: 0 <= j < |ps| ==> OnOpenTile(g, ps[j].xy)
  }

  /**
   * Both flag columns exist and each has more than four passable rows, so
   * that the draw that places its flag has at least `draw + 1` candidates.
   */
  ghost predicate Fits(g: Grid, blueDraw: nat, redDraw: nat)
  {
    && Cols(g) > BlueFlagX
    && blueDraw + 4 < |PositiveRows(g, BlueFlagX, Rows(g))|
    && redDraw + 4 < |PositiveRows(g, RedFlagX(Cols(g)), Rows(g))|
  }

  /** The constants a map derives from its terrain `g`. */
  datatype Plan = Plan(notAllowed: seq<(int, int)>, middleTile: int, blueFlagXy: (int, int), redFlagXy: (int, int),
                       blueFlagArea: seq<(int, int)>, redFlagArea: seq<(int, int)>)

  /**
   * The constructor's layout of terrain `g`: the impassable tiles, the middle
   * column, and each flag on the row the draw picks from its column's passable
   * rows without their first two and last two, with the 5-by-5 area around it.
   */
  function PlanOf(g: Grid, blueDraw: nat, redDraw: nat): (p: Plan)
    requires Fits(g, blueDraw, redDraw)
    ensures p.notAllowed == ZeroTiles(g) && p.middleTile == Cols(g) / 2
    ensures p.blueFlagXy == FlagXy(g, BlueFlagX, blueDraw)
    ensures p.redFlagXy == FlagXy(g, RedFlagX(Cols(g)), redDraw)
    ensures p.blueFlagArea == FlagArea(p.blueFlagXy) && p.redFlagArea == FlagArea(p.redFlagXy)
  {
    var blueXy, redXy := FlagXy(g, BlueFlagX, blueDraw), FlagXy(g, RedFlagX(Cols(g)), redDraw);
    Plan(ZeroTiles(g), Cols(g) / 2, blueXy, redXy, FlagArea(blueXy), FlagArea(redXy))
  }

  class VirtualMap {
    var players: seq<Player>
    const tileSpeeds: Grid
    /** The (row, col) pairs of the impassable tiles. */
    const notAllowed: seq<(int, int)>
    const middleTile: int
    const blueFlagXy: (int, int)
    const redFlagXy: (int, int)
    const blueFlagArea: seq<(int, int)>
    const redFlagArea: seq<(int, int)>
    var blueFlagInPlay: bool
    var redFlagInPlay: bool

    /** The map's constants, as a `Plan`. */
    function Constants(): Plan
    {
      Plan(notAllowed, middleTile, blueFlagXy, redFlagXy, blueFlagArea, redFlagArea)
    }

    /**
     * The map on terrain `g` (barriers already removed unless they are
     * allowed): no players yet, no flag in play, and the constants `PlanOf`
     * lays out, with `blueDraw` and `redDraw` the picks of `random.choice`.
     */
    constructor (g: Grid, blueDraw: nat, redDraw: nat)
      requires Fits(g, blueDraw, redDraw)
      ensures tileSpeeds == g && Constants() == PlanOf(g, blueDraw, redDraw)
      ensures players == [] && !blueFlagInPlay && !redFlagInPlay
    {
      var plan := PlanOf(g, blueDraw, redDraw);
      tileSpeeds := g;
      notAllowed, middleTile := plan.notAllowed, plan.middleTile;
      blueFlagXy, redFlagXy := plan.blueFlagXy, plan.redFlagXy;
      blueFlagArea, redFlagArea := plan.blueFlagArea, plan.redFlagArea;
      players := [];
      blueFlagInPlay, redFlagInPlay := false, false;
    }

    /**
     * `VirtualMap.__init__`: loads the terrain from `speeds` (modified in
     * place by barrier removal) and builds the map on it, placing the flags
     * in columns 5 and cols - 5.
     */
    static method Load(speeds: array2<int>, allowBarriers: bool, blueDraw: nat, redDraw: nat) returns (m: VirtualMap)
      requires speeds.Length0 > 0 && Fits(Terrain(GridOf(speeds), allowBarriers), blueDraw, redDraw)
      modifies speeds
      ensures fresh(m) && m.tileSpeeds == Terrain(old(GridOf(speeds)), allowBarriers)
      ensures Fits(m.tileSpeeds, blueDraw, redDraw) && m.Constants() == PlanOf(m.tileSpeeds, blueDraw, redDraw)
      ensures m.players == [] && !m.blueFlagInPlay && !m.redFlagInPlay
    {
      var g := LoadTerrain(speeds, allowBarriers);
      m := new VirtualMap(g, blueDraw, redDraw);
    }

    function State(): World
      reads this
    {
      World(players, blueFlagInPlay, redFlagInPlay)
    }

    /** `get_closest_player_by_team`: the last player on `team` whose index differs from the asker's. */
    method GetClosestPlayerByTeam(player: Player, team: Team) returns (best: Option<nat>)
      ensures best == LastEligible(players, player.playerIdx, team, false)
    {
      best := None;
      var k := 0;
      while k < |players|
        invariant 0 <= k <= |players|
        invariant best == LastEligible(players[..k], player.playerIdx, team, false)
      {
        assert players[..k + 1][..k] == players[..k];
        if players[k].playerIdx != player.playerIdx && players[k].team == team {
          best := Some(k);
        }
        k := k + 1;
      }
      assert players[..k] == players;
    }

    /** `get_closest_player_to_xy_by_team`: the reference point plays no part, as in the previous query. */
    method GetClosestPlayerToXyByTeam(player: Player, xy: (int, int), team: Team) returns (best: Option<nat>)
      ensures best == LastEligible(players, player.playerIdx, team, false)
    {
      best := GetClosestPlayerByTeam(player, team);
    }

    /** `get_closest_incapacitated_player_by_team`: as above, among incapacitated players only. */
    method GetClosestIncapacitatedPlayerByTeam(player: Player, team: Team) returns (best: Option<nat>)
      ensures best == LastEligible(players, player.playerIdx, team, true)
    {
      best := None;
      var k := 0;
      while k < |players|
        invariant 0 <= k <= |players|
        invariant best == LastEligible(players[..k], player.playerIdx, team, true)
      {
        assert players[..k + 1][..k] == players[..k];
        if players[k].playerIdx != player.playerIdx && players[k].team == team && players[k].isIncapacitated {
          best := Some(k);
        }
        k := k + 1;
      }
      assert players[..k] == players;
    }
  }
}
