/**
 * The tile-level geometry of the playing field (app/the_map.py): pixel to
 * tile conversion, terrain speeds, the two territories split at the middle
 * column, the flag tiles with the square flag areas around them, and the list
 * of impassable tiles.
 */
module MapGeometry {
  import opened Basics

  /** Pixels per terrain tile (`terrain_tile_size` in app/config.py). */
  const TerrainTileSize: int := 30

  /** Pixel coordinates to (column, row) tile indices by floor division. */
  function XyToCr(x: int, y: int): (cr: (int, int))
    ensures TerrainTileSize * cr.0 <= x < TerrainTileSize * (cr.0 + 1)
    ensures TerrainTileSize * cr.1 <= y < TerrainTileSize * (cr.1 + 1)
  {
    (x / TerrainTileSize, y / TerrainTileSize)
  }

  /**
   * The square of (row, col) tiles a flag area covers: the rows and columns
   * within k of the flag tile, row by row.
   */
  function FlagSquare(flagR: int, flagC: int, k: int): seq<(int, int)>
  {
    Block(flagR - k, flagR + k + 1, flagC - k, flagC + k + 1)
  }

  /** A tile belongs to the square exactly when it is within k of the flag tile in both directions. */
  lemma FlagSquareMembers(flagR: int, flagC: int, k: int, p: (int, int))
    ensures p in FlagSquare(flagR, flagC, k) <==> Abs(p.0 - flagR) <= k && Abs(p.1 - flagC) <= k
  {
  }

  /** For k >= 0 the square holds (2k+1)^2 tiles and contains the flag tile itself. */
  lemma FlagSquareShape(flagR: int, flagC: int, k: int)
    requires k >= 0
    ensures |FlagSquare(flagR, flagC, k)| == (2 * k + 1) * (2 * k + 1)
    ensures (flagR, flagC) in FlagSquare(flagR, flagC, k)
  {
    BlockSize(flagR - k, flagR + k + 1, flagC - k, flagC + k + 1);
  }

  /** The tiles of rows [rLo, rHi) and columns [cLo, cHi), built by two nested loops, row by row. */
  method SquareTiles(rLo: int, rHi: int, cLo: int, cHi: int) returns (tiles: seq<(int, int)>)
    ensures tiles == Block(rLo, rHi, cLo, cHi)
  {
    tiles := [];
    var r := rLo;
    while r < rHi
      invariant rLo <= r <= if rLo <= rHi then rHi else rLo
      invariant tiles == Block(rLo, r, cLo, cHi)
    {
      var row := RowTiles(r, cLo, cHi);
      assert Block(rLo, r + 1, cLo, cHi) == Block(rLo, r, cLo, cHi) + Run(r, cLo, cHi);
      tiles := tiles + row;
      r := r + 1;
    }
  }

  /** The inner loop of `SquareTiles`: the tiles of row r, columns [cLo, cHi). */
  method RowTiles(r: int, cLo: int, cHi: int) returns (row: seq<(int, int)>)
    ensures row == Run(r, cLo, cHi)
  {
    row := [];
    var c := cLo;
    while c < cHi
      invariant cLo <= c <= if cLo <= cHi then cHi else cLo
      invariant row == Run(r, cLo, c)
    {
      assert Run(r, cLo, c + 1) == Run(r, cLo, c) + [(r, c)];
      row := row + [(r, c)];
      c := c + 1;
    }
  }

  class TheMap {
    const tileSpeeds: Grid
    /** `flag_area_size` in pixels, read from the configuration. */
    const flagAreaSize: int
    const middleTile: int
    var blueFlagTile: (int, int)          // (row, col)
    var blueFlagAreaTiles: seq<(int, int)>  // (row, col) pairs
    var redFlagTile: (int, int)
    var redFlagAreaTiles: seq<(int, int)>

    constructor (speeds: Grid, flagAreaSize: int)
      ensures tileSpeeds == speeds && this.flagAreaSize == flagAreaSize
      ensures middleTile == Cols(speeds) / 2
      ensures blueFlagTile == (0, 0) && blueFlagAreaTiles == []
      ensures redFlagTile == (0, 0) && redFlagAreaTiles == []
    {
      tileSpeeds := speeds;
      this.flagAreaSize := flagAreaSize;
      middleTile := Cols(speeds) / 2;
      blueFlagTile, blueFlagAreaTiles := (0, 0), [];
      redFlagTile, redFlagAreaTiles := (0, 0), [];
    }

    /** How many tiles the flag area reaches out from the flag tile on every side. */
    function FlagAreaBorderTiles(): int
    {
      (flagAreaSize / TerrainTileSize) / 2 - 1
    }

    /**
     * Records the flag tile of a team and appends its flag square to that
     * team's area list, without clearing what earlier calls appended.
     */
    method SetFlagLocation(team: Team, flagX: int, flagY: int)
      modifies this
      ensures team == Blue ==> blueFlagTile == (XyToCr(flagX, flagY).1, XyToCr(flagX, flagY).0)
      ensures team == Blue ==>
        blueFlagAreaTiles == old(blueFlagAreaTiles) + FlagSquare(XyToCr(flagX, flagY).1, XyToCr(flagX, flagY).0, FlagAreaBorderTiles())
      ensures team == Blue ==> redFlagTile == old(redFlagTile) && redFlagAreaTiles == old(redFlagAreaTiles)
      ensures team == Red ==> redFlagTile == (XyToCr(flagX, flagY).1, XyToCr(flagX, flagY).0)
      ensures team == Red ==>
        redFlagAreaTiles == old(redFlagAreaTiles) + FlagSquare(XyToCr(flagX, flagY).1, XyToCr(flagX, flagY).0, FlagAreaBorderTiles())
      ensures team == Red ==> blueFlagTile == old(blueFlagTile) && blueFlagAreaTiles == old(blueFlagAreaTiles)
    {
      var cr := XyToCr(flagX, flagY);
      var flagC, flagR := cr.0, cr.1;
      var k := FlagAreaBorderTiles();
      var square := SquareTiles(flagR - k, flagR + k + 1, flagC - k, flagC + k + 1);
      assert square == FlagSquare(flagR, flagC, k);
      if team == Blue {
        blueFlagTile, blueFlagAreaTiles := (flagR, flagC), blueFlagAreaTiles + square;
      } else {
        redFlagTile, redFlagAreaTiles := (flagR, flagC), redFlagAreaTiles + square;
      }
    }

    /** The impassable tiles as (row, col) pairs, in row-major order. */
    function GetNotAllowedTiles(): (tiles: seq<(int, int)>)
      ensures forall p :: p in tiles <==> InGrid(tileSpeeds, p.0, p.1) && tileSpeeds[p.0][p.1] == 0
      ensures forall i, j :: 0 <= i < j < |tiles| ==> RowMajorBefore(tiles[i], tiles[j])
    {
      ZeroTiles(tileSpeeds)
    }

    /** The speed of a tile, addressed (column, row) and read row-major; zero exactly on the not-allowed tiles. */
    function GetSpeed(tileCol: int, tileRow: int): (speed: int)
      requires InGrid(tileSpeeds, tileRow, tileCol)
      ensures speed == 0 <==> (tileRow, tileCol) in GetNotAllowedTiles()
    {
      tileSpeeds[tileRow][tileCol]
    }

    predicate InEnemyTerritory(team: Team, tileCol: int)
    {
      if team == Blue then tileCol > middleTile else tileCol < middleTile
    }

    /**
     * Every column but the middle one is enemy territory for exactly one team;
     * the middle column is enemy territory for neither.
     */
    lemma TerritoryPartition(tileCol: int)
      ensures tileCol == middleTile ==> !InEnemyTerritory(Blue, tileCol) && !InEnemyTerritory(Red, tileCol)
      ensures tileCol != middleTile ==> InEnemyTerritory(Blue, tileCol) != InEnemyTerritory(Red, tileCol)
      ensures InEnemyTerritory(Blue, tileCol) <==> tileCol > middleTile
    {
    }

    predicate InFlagArea(team: Team, tileCol: int, tileRow: int)
      reads this
    {
      if team == Blue then (tileRow, tileCol) in blueFlagAreaTiles else (tileRow, tileCol) in redFlagAreaTiles
    }

    /**
     * Once a flag area has been appended for a flag tile with a non-negative
     * reach, the flag tile is in its own team's area; tiles appended earlier
     * stay members.
     */
    lemma FlagTileInOwnArea(team: Team, earlier: seq<(int, int)>, flagR: int, flagC: int, p: (int, int))
      requires FlagAreaBorderTiles() >= 0
      requires (if team == Blue then blueFlagAreaTiles else redFlagAreaTiles)
               == earlier + FlagSquare(flagR, flagC, FlagAreaBorderTiles())
      ensures InFlagArea(team, flagC, flagR)
      ensures p in earlier ==> InFlagArea(team, p.1, p.0)
    {
      FlagSquareShape(flagR, flagC, FlagAreaBorderTiles());
    }
  }
}
