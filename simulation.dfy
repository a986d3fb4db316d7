/**
 * One tick of app/virtual_game.py: `VirtualGame.step` for one player and one
 * high-level action, with the private `__hla_to_direction` that turns the
 * action into a key. The functions state what a tick does to a `World`; the
 * `VirtualGame` class does it in place and is proved to agree with them.
 *
 * The random draws of `__hla_to_direction` are a parameter. Python's
 * exceptions on a missing player or an empty opponent list are `Err` results.
 */
module Simulation {
  import opened Basics
  import opened Arena

  // The reward attributes `VirtualGame.__init__` sets and `step` returns.
  const StationaryReward: int := -5
  const GotTaggedReward: int := -20
  const GotTaggedWithFlagReward: int := -100
  const TaggedReward: int := 20
  const TaggedFlagHolderReward: int := 100
  const RevivedTeammateReward: int := 25
  const GotFlagReward: int := 50
  const WonReward: int := 500
  /** The literal `step` returns after a plain move. */
  const MovedReward: int := -1
  /** The countdown a tagged player starts with. */
  const IncapacitatedTurns: int := 5

  /**
   * The draws one call of `__hla_to_direction` can make: `roll` is the value of
   * `random.randint(1, 20)` under 'random', and `pick` the key `random.choice`
   * returns, whichever branch asks for one.
   */
  datatype Draws = Draws(roll: int, pick: Key)

  // ---------------------------------------------------------------------------
  // `__hla_to_direction`

  /** The x and the y coordinates of the players of `team`, in list order. */
  function TeamXs(ps: seq<Player>, team: Team): seq<int>
  {
    if ps == [] then []
    else TeamXs(ps[..|ps| - 1], team) + (if ps[|ps| - 1].team == team then [ps[|ps| - 1].xy.0] else [])
  }

  function TeamYs(ps: seq<Player>, team: Team): seq<int>
  {
    if ps == [] then []
    else TeamYs(ps[..|ps| - 1], team) + (if ps[|ps| - 1].team == team then [ps[|ps| - 1].xy.1] else [])
  }

  function Sum(s: seq<int>): int
  {
    if s == [] then 0 else Sum(s[..|s| - 1]) + s[|s| - 1]
  }

  /** Heads for the player at position `target`; reading `.xy` of a missing player raises. */
  function HeadFor(p: Player, ps: seq<Player>, target: Option<nat>): Result<Key>
    requires target.Some? ==> target.value < |ps|
  {
    match target
    case None => Err(NoneHasNoAttribute)
    case Some(j) => Ok(GetDirectionToXy(p.xy, ps[j].xy))
  }

  /**
   * What `__hla_to_direction` makes of `hla` for the player at position i:
   * the key (None for the empty action) and the player's `prev_dir`
   * afterwards, or the exception it raises.
   */
  function Action(m: VirtualMap, ps: seq<Player>, i: nat, hla: Hla, d: Draws): Result<(Option<Key>, Key)>
    requires i < |ps|
  {
    var p := ps[i];
    match hla
    case Wait => Ok((None, p.prevDir))
    case Random =>
      var dir := if d.roll == 1 then d.pick else p.prevDir;
      Ok((Some(dir), dir))
    case _ =>
      match Heading(m, ps, i, hla, d)
      case Ok(k) => Ok((Some(k), p.prevDir))
      case Err(f) => Err(f)
  }

  /** The key every label other than `wait` and `random` picks; these leave `prev_dir` alone. */
  function Heading(m: VirtualMap, ps: seq<Player>, i: nat, hla: Hla, d: Draws): Result<Key>
    requires i < |ps| && hla != Wait && hla != Random
  {
    var p := ps[i];
    var opp := Opponent(p.team);
    var ownFlag := if p.team == Blue then m.blueFlagXy else m.redFlagXy;
    var oppFlag := if p.team == Blue then m.redFlagXy else m.blueFlagXy;
    var nearestOpp := LastEligible(ps, p.playerIdx, opp, false);
    match hla
    case GoOpponentFlag => Ok(GetDirectionToXy(p.xy, oppFlag))
    case GoTeamFlagArea => Ok(GetDirectionToXy(p.xy, ownFlag))
    case GoOpponentFlagCarrier =>
      var c := FirstCarrier(ps, opp, 0);
      if c.None? then Ok(d.pick) else HeadFor(p, ps, c)
    case GoNearestOpponent => HeadFor(p, ps, nearestOpp)
    case GoNearestTeammate => HeadFor(p, ps, LastEligible(ps, p.playerIdx, p.team, false))
    case GoNearestIncapacitatedTeammate =>
      var t := LastEligible(ps, p.playerIdx, p.team, true);
      if t.None? then Ok(d.pick) else HeadFor(p, ps, t)
    case GuardNearestTeammate =>
      var t := LastEligible(ps, p.playerIdx, p.team, false);
      if t.None? || nearestOpp.None? then Err(NoneHasNoAttribute)
      else Ok(GoBetween(p.xy, ps[t.value].xy, ps[nearestOpp.value].xy))
    case GuardTeammateFlagCarrier =>
      var c := FirstCarrier(ps, p.team, 0);
      if c.None? then Ok(d.pick)
      else if nearestOpp.None? then Err(NoneHasNoAttribute)
      else Ok(GetDirectionToXy(ps[nearestOpp.value].xy, ps[c.value].xy))
    case GuardTeamFlagArea =>
      if nearestOpp.None? then Err(NoneHasNoAttribute)
      else Ok(GoBetween(p.xy, ps[nearestOpp.value].xy, ownFlag))
    case GuardOpponentFlagArea =>
      if nearestOpp.None? then Err(NoneHasNoAttribute)
      else Ok(GoBetween(p.xy, ps[nearestOpp.value].xy, oppFlag))
    case RunAwayFromNearestOpponent =>
      if nearestOpp.None? then Err(NoneHasNoAttribute)
      else Ok(GetDirectionAwayFrom(p.xy, ps[nearestOpp.value].xy))
    case RunAwayFromOpponentsCentroid =>
      var xs, ys := TeamXs(ps, opp), TeamYs(ps, opp);
      if |xs| == 0 then Err(DivisionByZero)
      else Ok(AwayFromMean(p.xy, Sum(xs), Sum(ys), |xs|))
  }

  // ---------------------------------------------------------------------------
  // `step`, stage by stage.

  /** What a step needs: a closed outer ring and the mover, at position i, on a passable tile. */
  ghost predicate Ready(m: VirtualMap, w: World, i: nat)
  {
    BorderClosed(m.tileSpeeds) && i < |w.players| && OnOpenTile(m.tileSpeeds, w.players[i].xy)
  }

  /** An incapacitated player's turn: one tick of the countdown, which ends the incapacity at zero. */
  function Recover(p: Player): Player
  {
    var c := p.incapacitatedCountdown - 1;
    p.(incapacitatedCountdown := c, isIncapacitated := p.isIncapacitated && c > 0)
  }

  /**
   * The speed `step` reads for a key from xy: 0 for no key and for a target
   * in `not_allowed`, the target's speed otherwise. A non-zero speed means a
   * key whose target is a passable tile of the grid.
   */
  function MoveSpeed(m: VirtualMap, xy: (int, int), action: Option<Key>): (speed: int)
    requires OnOpenTile(m.tileSpeeds, xy) && Interior(m.tileSpeeds, xy)
    ensures speed != 0 ==> action.Some? && OnOpenTile(m.tileSpeeds, Shift(xy, action.value))
    ensures action.Some? && m.notAllowed == ZeroTiles(m.tileSpeeds) ==>
      (speed != 0 <==> OnOpenTile(m.tileSpeeds, Shift(xy, action.value)))
  {
    match action
    case None => 0
    case Some(k) =>
      var t := Shift(xy, k);
      if (t.1, t.0) in m.notAllowed then 0 else m.tileSpeeds[t.1][t.0]
  }

  /** The territory flag after a move to column x: set and cleared on crossing the middle column. */
  function EnemyTerritoryAfter(m: VirtualMap, team: Team, x: int, was: bool): bool
  {
    if team == Blue then
      if x > m.middleTile && !was then true else if x < m.middleTile && was then false else was
    else
      if x < m.middleTile && !was then true else if x > m.middleTile && was then false else was
  }

  datatype News = GameOver | FlagTaken

  /** How a player hears news of a player of `moverTeam`: as an opponent or as a teammate. */
  function Hear(q: Player, moverTeam: Team, news: News): Player
  {
    var opponent, over := q.team == Opponent(moverTeam), news == GameOver;
    q.(lost := q.lost || (opponent && over), opponentGotFlag := q.opponentGotFlag || (opponent && !over),
       won := q.won || (!opponent && over), teammateGotFlag := q.teammateGotFlag || (!opponent && !over))
  }

  /** The loops that tell every player whose index differs from the mover's. */
  function Announce(ps: seq<Player>, moverIdx: int, moverTeam: Team, news: News): seq<Player>
  {
    seq(|ps|, j requires 0 <= j < |ps| => if ps[j].playerIdx == moverIdx then ps[j] else Hear(ps[j], moverTeam, news))
  }

  function SetInPlay(w: World, flag: Team, inPlay: bool): World
  {
    if flag == Blue then w.(blueFlagInPlay := inPlay) else w.(redFlagInPlay := inPlay)
  }

  /** The ways meeting another player on the new tile can end the step. */
  datatype Encounter =
    | TagCarrier     // the mover tags an opponent carrying a flag
    | TagOpponent    // the mover tags an opponent in enemy territory
    | CarrierTagged  // the mover, carrying a flag, is tagged
    | MoverTagged    // the mover, in enemy territory, is tagged
    | Revive         // the mover revives an incapacitated teammate

  /** What meeting q means for mover p; None when the tag loop goes on to the next player. */
  function Meeting(p: Player, q: Player): Option<Encounter>
  {
    if q.team == Opponent(p.team) && !q.isIncapacitated then
      if q.inEnemyTerritory || q.hasFlag then Some(if q.hasFlag then TagCarrier else TagOpponent)
      else if p.inEnemyTerritory || p.hasFlag then Some(if p.hasFlag then CarrierTagged else MoverTagged)
      else None
    else if q.team == p.team && q.isIncapacitated then Some(Revive)
    else None
  }

  /** Player j ends the tag loop for mover i: another index, the same tile, and a meeting that counts. */
  predicate Triggers(ps: seq<Player>, i: nat, j: nat)
    requires i < |ps| && j < |ps|
  {
    ps[j].playerIdx != ps[i].playerIdx && ps[j].xy == ps[i].xy && Meeting(ps[i], ps[j]).Some?
  }

  /** The first player at or after `from` who ends the tag loop. */
  function FirstEncounter(ps: seq<Player>, i: nat, from: nat): (r: Option<nat>)
    requires i < |ps|
    decreases |ps| - from
    ensures r.Some? ==> from <= r.value < |ps| && Triggers(ps, i, r.value)
    ensures r.Some? ==> forall j :: from <= j < r.value ==> !Triggers(ps, i, j)
    ensures r.None? ==> forall j :: from <= j < |ps| ==> !Triggers(ps, i, j)
  {
    if from >= |ps| then None
    else if Triggers(ps, i, from) then Some(from)
    else FirstEncounter(ps, i, from + 1)
  }

  /** Which step outcome fired. */
  datatype Kind = Stunned | Blocked | Won | PickedUp | Met(encounter: Encounter) | Moved

  /** The world after a step, `step`'s (reward, done), and which outcome fired. */
  datatype Outcome = Outcome(world: World, reward: int, done: bool, kind: Kind)

  /** A tagged player: incapacitated, with the countdown restarted. */
  function Incapacitate(p: Player): Player
  {
    p.(isIncapacitated := true, incapacitatedCountdown := IncapacitatedTurns)
  }

  /** The tag loop's verdict on mover i and the player j that stopped it with encounter e. */
  function Meet(w: World, i: nat, j: nat, e: Encounter): Outcome
    requires i < |w.players| && j < |w.players|
  {
    match e
    case TagCarrier => TagCarrierOutcome(w, j)
    case TagOpponent => TagOpponentOutcome(w, j)
    case CarrierTagged => CarrierTaggedOutcome(w, i, j)
    case MoverTagged => MoverTaggedOutcome(w, i, j)
    case Revive => ReviveOutcome(w, j)
  }

  /** The mover tags flag carrier j, whose flag goes out of play. */
  function TagCarrierOutcome(w: World, j: nat): Outcome
    requires j < |w.players|
  {
    var q := w.players[j];
    var q' := Incapacitate(q).(hasFlag := false, gotTaggedWithFlag := true);
    Outcome(SetInPlay(w.(players := w.players[j := q']), Opponent(q.team), false), TaggedFlagHolderReward, false, Met(TagCarrier))
  }

  /** The mover tags opponent j. */
  function TagOpponentOutcome(w: World, j: nat): Outcome
    requires j < |w.players|
  {
    var q' := Incapacitate(w.players[j]).(gotTagged := true);
    Outcome(w.(players := w.players[j := q']), TaggedReward, false, Met(TagOpponent))
  }

  /** Opponent j tags the mover, who carries a flag; the flag goes out of play. */
  function CarrierTaggedOutcome(w: World, i: nat, j: nat): Outcome
    requires i < |w.players| && j < |w.players|
  {
    var p := w.players[i];
    var p' := Incapacitate(p).(hasFlag := false);
    var q' := w.players[j].(taggedFlagHolder := true);
    Outcome(SetInPlay(w.(players := w.players[i := p'][j := q']), Opponent(p.team), false),
            GotTaggedWithFlagReward, false, Met(CarrierTagged))
  }

  /** Opponent j tags the mover. */
  function MoverTaggedOutcome(w: World, i: nat, j: nat): Outcome
    requires i < |w.players| && j < |w.players|
  {
    var p' := Incapacitate(w.players[i]);
    var q' := w.players[j].(tagged := true);
    Outcome(w.(players := w.players[i := p'][j := q']), GotTaggedReward, false, Met(MoverTagged))
  }

  /** The mover revives teammate j. */
  function ReviveOutcome(w: World, j: nat): Outcome
    requires j < |w.players|
  {
    var q' := w.players[j].(isIncapacitated := false, incapacitatedCountdown := 0);
    Outcome(w.(players := w.players[j := q']), RevivedTeammateReward, false, Met(Revive))
  }

  /** Whether mover p, arriving at t, takes the opponents' flag. */
  predicate PicksUp(m: VirtualMap, w: World, p: Player, t: (int, int))
  {
    (t == m.redFlagXy && p.team == Blue && !w.redFlagInPlay) || (t == m.blueFlagXy && p.team == Red && !w.blueFlagInPlay)
  }

  /** The flag area a team brings a captured flag home to. */
  function HomeArea(m: VirtualMap, team: Team): seq<(int, int)>
  {
    if team == Blue then m.blueFlagArea else m.redFlagArea
  }

  /** The mover on its new tile t, with its territory flag brought up to date. */
  function Relocate(m: VirtualMap, p: Player, t: (int, int)): Player
  {
    p.(xy := t, inEnemyTerritory := EnemyTerritoryAfter(m, p.team, t.0, p.inEnemyTerritory))
  }

  /** The rest of a step once the player at position i has moved to t. */
  function Arrive(m: VirtualMap, w: World, i: nat, t: (int, int)): Outcome
    requires i < |w.players|
  {
    Land(m, w.(players := w.players[i := Relocate(m, w.players[i], t)]), i)
  }

  /** What the mover at position i, already on its new tile, ends the step with. */
  function Land(m: VirtualMap, w: World, i: nat): Outcome
    requires i < |w.players|
  {
    var p := w.players[i];
    if p.hasFlag && p.xy in HomeArea(m, p.team) then WinOutcome(w, i)
    else if PicksUp(m, w, p, p.xy) then PickupOutcome(w, i)
    else EncounterOutcome(w, i)
  }

  /** Mover i brings a flag home: everyone of another index hears the game is over. */
  function WinOutcome(w: World, i: nat): Outcome
    requires i < |w.players|
  {
    var p := w.players[i];
    Outcome(w.(players := Announce(w.players, p.playerIdx, p.team, GameOver)), WonReward, true, Won)
  }

  /** Mover i takes the opponents' flag, which goes into play, and everyone of another index hears of it. */
  function PickupOutcome(w: World, i: nat): Outcome
    requires i < |w.players|
  {
    var p := w.players[i].(hasFlag := true);
    Outcome(SetInPlay(w.(players := Announce(w.players[i := p], p.playerIdx, p.team, FlagTaken)), Opponent(p.team), true),
            GotFlagReward, false, PickedUp)
  }

  /** The tag loop for mover i: the first player that ends it decides, and a plain move otherwise. */
  function EncounterOutcome(w: World, i: nat): Outcome
    requires i < |w.players|
  {
    match FirstEncounter(w.players, i, 0)
    case None => Outcome(w, MovedReward, false, Moved)
    case Some(j) => Meet(w, i, j, Meeting(w.players[i], w.players[j]).value)
  }

  /** `step(player, hla)` for the player at position i, or the exception it raises. */
  function StepSpec(m: VirtualMap, w: World, i: nat, hla: Hla, d: Draws): Result<Outcome>
    requires Ready(m, w, i)
  {
    var p := w.players[i];
    if p.isIncapacitated then
      Ok(Outcome(w.(players := w.players[i := Recover(p)]), StationaryReward, false, Stunned))
    else
      match Action(m, w.players, i, hla, d)
      case Err(f) => Err(f)
      case Ok(a) =>
        Ok(Move(m, w.(players := w.players[i := p.(prevDir := a.1)]), i, a.0))
  }

  /** The mover at position i tries to take one step in direction `action`; a refused move leaves it in place. */
  function Move(m: VirtualMap, w: World, i: nat, action: Option<Key>): Outcome
    requires Ready(m, w, i)
  {
    var xy := w.players[i].xy;
    OpenTileIsInterior(m.tileSpeeds, xy);
    if MoveSpeed(m, xy, action) == 0 then Outcome(w, StationaryReward, false, Blocked)
    else Arrive(m, w, i, Shift(xy, action.value))
  }

  // ---------------------------------------------------------------------------

  class VirtualGame {
    const theMap: VirtualMap

    /**
     * The game on map `m`, which has no players yet: each team is lined up,
     * players 0 to teamSize - 1 of a team taking, in turn, the last remaining
     * (row, col) tile of that team's shuffled start tiles. `blueTiles` and
     * `redTiles` are the shuffles of the passable tiles of the left third and
     * of the columns from twice the third on; `prevDirs` holds each player's
     * first `prev_dir`, blue players first.
     */
    constructor (m: VirtualMap, teamSize: nat, blueTiles: seq<(int, int)>, redTiles: seq<(int, int)>,
                 prevDirs: seq<Key>)
      requires m.players == []
      requires multiset(blueTiles) == multiset(StartTiles(m.tileSpeeds, Blue))
      requires multiset(redTiles) == multiset(StartTiles(m.tileSpeeds, Red))
      requires teamSize <= |blueTiles| && teamSize <= |redTiles| && |prevDirs| == 2 * teamSize
      modifies m
      ensures theMap == m
      ensures theMap.players == Lineup(Blue, blueTiles, prevDirs[..teamSize]) + Lineup(Red, redTiles, prevDirs[teamSize..])
      ensures theMap.blueFlagInPlay == old(m.blueFlagInPlay) && theMap.redFlagInPlay == old(m.redFlagInPlay)
    {
      theMap := m;
      new;
      AddTeams(blueTiles, redTiles, teamSize, prevDirs);
    }

    /**
     * `VirtualGame.__init__`: builds the map without barriers from `speeds`
     * (see `VirtualMap.Load`) and lines both teams up on it.
     */
    static method Start(speeds: array2<int>, teamSize: nat, blueDraw: nat, redDraw: nat,
                        blueTiles: seq<(int, int)>, redTiles: seq<(int, int)>, prevDirs: seq<Key>)
      returns (game: VirtualGame)
      requires speeds.Length0 > 0 && Fits(Terrain(GridOf(speeds), false), blueDraw, redDraw)
      requires multiset(blueTiles) == multiset(StartTiles(Terrain(GridOf(speeds), false), Blue))
      requires multiset(redTiles) == multiset(StartTiles(Terrain(GridOf(speeds), false), Red))
      requires teamSize <= |blueTiles| && teamSize <= |redTiles| && |prevDirs| == 2 * teamSize
      modifies speeds
      ensures fresh(game) && fresh(game.theMap)
      ensures game.theMap.tileSpeeds == Terrain(old(GridOf(speeds)), false)
      ensures Fits(game.theMap.tileSpeeds, blueDraw, redDraw)
      ensures game.theMap.Constants() == PlanOf(game.theMap.tileSpeeds, blueDraw, redDraw)
      ensures game.theMap.players == Lineup(Blue, blueTiles, prevDirs[..teamSize]) + Lineup(Red, redTiles, prevDirs[teamSize..])
      ensures !game.theMap.blueFlagInPlay && !game.theMap.redFlagInPlay
    {
      var m := VirtualMap.Load(speeds, false, blueDraw, redDraw);
      game := new VirtualGame(m, teamSize, blueTiles, redTiles, prevDirs);
    }

    /** The two `add_player` loops of the constructor: blue players first, then red. */
    method AddTeams(blueTiles: seq<(int, int)>, redTiles: seq<(int, int)>, teamSize: nat, prevDirs: seq<Key>)
      requires teamSize <= |blueTiles| && teamSize <= |redTiles| && |prevDirs| == 2 * teamSize
      requires theMap.players == []
      modifies theMap
      ensures theMap.players == Lineup(Blue, blueTiles, prevDirs[..teamSize]) + Lineup(Red, redTiles, prevDirs[teamSize..])
      ensures theMap.blueFlagInPlay == old(theMap.blueFlagInPlay) && theMap.redFlagInPlay == old(theMap.redFlagInPlay)
    {
      AddTeam(Blue, blueTiles, teamSize, prevDirs[..teamSize]);
      assert theMap.players == Lineup(Blue, blueTiles, prevDirs[..teamSize]);
      AddTeam(Red, redTiles, teamSize, prevDirs[teamSize..]);
    }

    /** Appends players 0 to n - 1 of `team`, each popping the last remaining tile. */
    method AddTeam(team: Team, tiles: seq<(int, int)>, n: nat, dirs: seq<Key>)
      requires n <= |tiles| && |dirs| == n
      modifies theMap
      ensures theMap.players == old(theMap.players) + Lineup(team, tiles, dirs)
      ensures theMap.blueFlagInPlay == old(theMap.blueFlagInPlay) && theMap.redFlagInPlay == old(theMap.redFlagInPlay)
    {
      var remaining := tiles;
      for k := 0 to n
        invariant remaining == tiles[..|tiles| - k]
        invariant theMap.players == old(theMap.players) + Lineup(team, tiles, dirs[..k])
        invariant theMap.blueFlagInPlay == old(theMap.blueFlagInPlay) && theMap.redFlagInPlay == old(theMap.redFlagInPlay)
      {
        var tile := remaining[|remaining| - 1];
        remaining := remaining[..|remaining| - 1];
        assert Lineup(team, tiles, dirs[..k + 1]) == Lineup(team, tiles, dirs[..k]) + [NewPlayer(team, k, (tile.1, tile.0), dirs[k])];
        theMap.players := theMap.players + [NewPlayer(team, k, (tile.1, tile.0), dirs[k])];
      }
      assert dirs[..n] == dirs;
    }

    /** The first player of `team` carrying a flag: the `for ... break` loops of `__hla_to_direction`. */
    method FindCarrier(team: Team) returns (c: Option<nat>)
      ensures c == FirstCarrier(theMap.players, team, 0)
    {
      c := None;
      var k := 0;
      while k < |theMap.players|
        invariant 0 <= k <= |theMap.players|
        invariant FirstCarrier(theMap.players, team, k) == FirstCarrier(theMap.players, team, 0)
      {
        if theMap.players[k].team == team && theMap.players[k].hasFlag {
          c := Some(k);
          break;
        }
        k := k + 1;
      }
    }

    /** The centroid loop's lists of the x and the y coordinates of `team`. */
    method TeamCoordinates(team: Team) returns (xs: seq<int>, ys: seq<int>)
      ensures xs == TeamXs(theMap.players, team) && ys == TeamYs(theMap.players, team)
    {
      xs, ys := [], [];
      var ps := theMap.players;
      for k := 0 to |ps|
        invariant xs == TeamXs(ps[..k], team) && ys == TeamYs(ps[..k], team)
      {
        assert ps[..k + 1][..k] == ps[..k];
        if ps[k].team == team {
          xs := xs + [ps[k].xy.0];
          ys := ys + [ps[k].xy.1];
        }
      }
      assert ps[..|ps|] == ps;
    }

    /** `__hla_to_direction(player, hla)` for the player at position i. */
    method HlaToDirection(i: nat, hla: Hla, d: Draws) returns (r: Result<Option<Key>>)
      requires i < |theMap.players|
      modifies theMap
      ensures var a := Action(theMap, old(theMap.players), i, hla, d);
        && (a.Ok? ==> r == Ok(a.value.0) && theMap.players == old(theMap.players)[i := old(theMap.players)[i].(prevDir := a.value.1)])
        && (a.Err? ==> r == Err(a.fault) && theMap.players == old(theMap.players))
      ensures theMap.blueFlagInPlay == old(theMap.blueFlagInPlay) && theMap.redFlagInPlay == old(theMap.redFlagInPlay)
    {
      ghost var ps := theMap.players;
      assert ps[i := ps[i].(prevDir := ps[i].prevDir)] == ps;
      if hla == Wait {
        return Ok(None);
      } else if hla == Random {
        var player := theMap.players[i];
        if d.roll == 1 {
          player := player.(prevDir := d.pick);
          theMap.players := theMap.players[i := player];
        }
        return Ok(Some(player.prevDir));
      }
      var k := Steer(i, hla, d);
      if k.Err? {
        return Err(k.fault);
      }
      return Ok(Some(k.value));
    }

    /** The branches of `__hla_to_direction` for every label other than `wait` and `random`. */
    method Steer(i: nat, hla: Hla, d: Draws) returns (r: Result<Key>)
      requires i < |theMap.players| && hla != Wait && hla != Random
      ensures r == Heading(theMap, theMap.players, i, hla, d)
    {
      var player := theMap.players[i];
      var team := player.team;
      var opponentTeam := Opponent(player.team);
      var xy1 := player.xy;
      var action: Option<Key> := None;
      match hla {
        case GoOpponentFlag =>
          var xy2 := if team == Blue then theMap.redFlagXy else theMap.blueFlagXy;
          action := Some(GetDirectionToXy(xy1, xy2));
        case GoTeamFlagArea =>
          var xy2 := if team == Blue then theMap.blueFlagXy else theMap.redFlagXy;
          action := Some(GetDirectionToXy(xy1, xy2));
        case GoOpponentFlagCarrier =>
          var c := FindCarrier(opponentTeam);
          if c.Some? {
            action := Some(GetDirectionToXy(xy1, theMap.players[c.value].xy));
          }
          if action.None? {
            action := Some(d.pick);
          }
        case GoNearestOpponent =>
          var other := theMap.GetClosestPlayerByTeam(player, opponentTeam);
          if other.None? {
            return Err(NoneHasNoAttribute);
          }
          action := Some(GetDirectionToXy(xy1, theMap.players[other.value].xy));
        case GoNearestTeammate =>
          var other := theMap.GetClosestPlayerByTeam(player, team);
          if other.None? {
            return Err(NoneHasNoAttribute);
          }
          action := Some(GetDirectionToXy(xy1, theMap.players[other.value].xy));
        case GoNearestIncapacitatedTeammate =>
          var other := theMap.GetClosestIncapacitatedPlayerByTeam(player, team);
          if other.None? {
            action := Some(d.pick);
          } else {
            action := Some(GetDirectionToXy(xy1, theMap.players[other.value].xy));
          }
        case GuardNearestTeammate =>
          var other := theMap.GetClosestPlayerByTeam(player, team);
          if other.None? {
            return Err(NoneHasNoAttribute);
          }
          var opponent := theMap.GetClosestPlayerToXyByTeam(player, theMap.players[other.value].xy, opponentTeam);
          if opponent.None? {
            return Err(NoneHasNoAttribute);
          }
          action := Some(GoBetween(player.xy, theMap.players[other.value].xy, theMap.players[opponent.value].xy));
        case GuardTeammateFlagCarrier =>
          var c := FindCarrier(player.team);
          if c.Some? {
            var opponent := theMap.GetClosestPlayerToXyByTeam(player, theMap.players[c.value].xy, opponentTeam);
            if opponent.None? {
              return Err(NoneHasNoAttribute);
            }
            action := Some(GetDirectionToXy(theMap.players[opponent.value].xy, theMap.players[c.value].xy));
          }
          if action.None? {
            action := Some(d.pick);
          }
        case GuardTeamFlagArea =>
          var xy2 := if team == Blue then theMap.blueFlagXy else theMap.redFlagXy;
          var other := theMap.GetClosestPlayerToXyByTeam(player, xy2, opponentTeam);
          if other.None? {
            return Err(NoneHasNoAttribute);
          }
          action := Some(GoBetween(player.xy, theMap.players[other.value].xy, xy2));
        case GuardOpponentFlagArea =>
          var xy2 := if team == Blue then theMap.redFlagXy else theMap.blueFlagXy;
          var other := theMap.GetClosestPlayerToXyByTeam(player, xy2, opponentTeam);
          if other.None? {
            return Err(NoneHasNoAttribute);
          }
          action := Some(GoBetween(player.xy, theMap.players[other.value].xy, xy2));
        case RunAwayFromNearestOpponent =>
          var other := theMap.GetClosestPlayerByTeam(player, opponentTeam);
          if other.None? {
            return Err(NoneHasNoAttribute);
          }
          action := Some(GetDirectionAwayFrom(xy1, theMap.players[other.value].xy));
        case RunAwayFromOpponentsCentroid =>
          var xs, ys := TeamCoordinates(opponentTeam);
          if |xs| == 0 {
            return Err(DivisionByZero);
          }
          action := Some(AwayFromMean(xy1, Sum(xs), Sum(ys), |xs|));
      }
      return Ok(action.value);
    }

    /** `step(player, hla)` for the player at position i. */
    method Step(i: nat, hla: Hla, d: Draws) returns (r: Result<(int, bool)>)
      requires Ready(theMap, theMap.State(), i)
      modifies theMap
      ensures var s := StepSpec(theMap, old(theMap.State()), i, hla, d);
        && (s.Ok? ==> r == Ok((s.value.reward, s.value.done)) && theMap.State() == s.value.world)
        && (s.Err? ==> r == Err(s.fault) && theMap.State() == old(theMap.State()))
    {
      var player := theMap.players[i];
      if player.isIncapacitated {
        Recuperate(i);
        return Ok((StationaryReward, false));
      }
      var action := HlaToDirection(i, hla, d);
      if action.Err? {
        return Err(action.fault);
      }
      var reward, done := Walk(i, action.value);
      return Ok((reward, done));
    }

    /** The incapacitated branch of `step`: the countdown ticks and the incapacity ends at zero. */
    method Recuperate(i: nat)
      requires i < |theMap.players|
      modifies theMap
      ensures theMap.players == old(theMap.players)[i := Recover(old(theMap.players)[i])]
      ensures theMap.blueFlagInPlay == old(theMap.blueFlagInPlay) && theMap.redFlagInPlay == old(theMap.redFlagInPlay)
    {
      var player := theMap.players[i];
      player := player.(incapacitatedCountdown := player.incapacitatedCountdown - 1);
      if player.incapacitatedCountdown <= 0 {
        player := player.(isIncapacitated := false);
      }
      theMap.players := theMap.players[i := player];
    }

    /** The move of `step` in direction `action`: blocked by a barrier or a zero speed, or made. */
    method Walk(i: nat, action: Option<Key>) returns (reward: int, done: bool)
      requires Ready(theMap, theMap.State(), i)
      modifies theMap
      ensures var o := Move(theMap, old(theMap.State()), i, action);
        reward == o.reward && done == o.done && theMap.State() == o.world
    {
      OpenTileIsInterior(theMap.tileSpeeds, theMap.players[i].xy);
      var newXy, speed := Target(theMap.players[i].xy, action);
      if speed == 0 {
        return StationaryReward, false;
      }
      reward, done := Advance(i, newXy);
    }

    /** The tile a step from xy in direction `action` leads to, and its speed; zero when the move is refused. */
    method Target(xy: (int, int), action: Option<Key>) returns (newXy: (int, int), speed: int)
      requires OnOpenTile(theMap.tileSpeeds, xy) && Interior(theMap.tileSpeeds, xy)
      ensures speed == MoveSpeed(theMap, xy, action)
      ensures speed != 0 ==> newXy == Shift(xy, action.value)
    {
      var x, y := xy.0, xy.1;
      newXy, speed := xy, 0;
      if action.Some? {
        ghost var t := Shift(xy, action.value);
        assert MoveSpeed(theMap, xy, action)
            == if (t.1, t.0) in theMap.notAllowed then 0 else theMap.tileSpeeds[t.1][t.0];
      }
      if action == Some(W) && (y - 1, x) !in theMap.notAllowed {
        newXy, speed := (x, y - 1), theMap.tileSpeeds[y - 1][x];
      } else if action == Some(S) && (y + 1, x) !in theMap.notAllowed {
        newXy, speed := (x, y + 1), theMap.tileSpeeds[y + 1][x];
      } else if action == Some(A) && (y, x - 1) !in theMap.notAllowed {
        newXy, speed := (x - 1, y), theMap.tileSpeeds[y][x - 1];
      } else if action == Some(D) && (y, x + 1) !in theMap.notAllowed {
        newXy, speed := (x + 1, y), theMap.tileSpeeds[y][x + 1];
      }
    }

    /** The part of `step` after the move: territory, then win, pickup, tag or revive, first match first. */
    method Advance(i: nat, newXy: (int, int)) returns (reward: int, done: bool)
      requires i < |theMap.players|
      modifies theMap
      ensures var o := Arrive(theMap, old(theMap.State()), i, newXy);
        reward == o.reward && done == o.done && theMap.State() == o.world
    {
      var player := MoveTo(theMap.players[i], newXy);
      theMap.players := theMap.players[i := player];
      reward, done := Settle(i);
    }

    /** The mover's new tile and, when it crosses the middle column, its territory flag. */
    method MoveTo(p: Player, newXy: (int, int)) returns (player: Player)
      ensures player == Relocate(theMap, p, newXy)
    {
      player := p.(xy := newXy);
      ghost var team := player.team;
      if player.team == Blue {
        if player.xy.0 > theMap.middleTile && !player.inEnemyTerritory {
          player := player.(inEnemyTerritory := true);
        } else if player.xy.0 < theMap.middleTile && player.inEnemyTerritory {
          player := player.(inEnemyTerritory := false);
        }
      }
      assert player.team == team;
      if player.team == Red {
        if player.xy.0 < theMap.middleTile && !player.inEnemyTerritory {
          player := player.(inEnemyTerritory := true);
        } else if player.xy.0 > theMap.middleTile && player.inEnemyTerritory {
          player := player.(inEnemyTerritory := false);
        }
      }
    }

    /** The flag checks and the tag loop of `step`, once the mover at position i is on its new tile. */
    method Settle(i: nat) returns (reward: int, done: bool)
      requires i < |theMap.players|
      modifies theMap
      ensures var o := Land(theMap, old(theMap.State()), i);
        reward == o.reward && done == o.done && theMap.State() == o.world
    {
      var player := theMap.players[i];
      ghost var w := theMap.State();
      if player.team == Blue && player.hasFlag && player.xy in theMap.blueFlagArea {
        assert Land(theMap, w, i) == WinOutcome(w, i);
        reward, done := Win(i);
      } else if player.team == Red && player.hasFlag && player.xy in theMap.redFlagArea {
        assert Land(theMap, w, i) == WinOutcome(w, i);
        reward, done := Win(i);
      } else if player.xy == theMap.redFlagXy && player.team == Blue && !theMap.redFlagInPlay {
        assert Land(theMap, w, i) == PickupOutcome(w, i);
        reward, done := PickUp(i);
      } else if player.xy == theMap.blueFlagXy && player.team == Red && !theMap.blueFlagInPlay {
        assert Land(theMap, w, i) == PickupOutcome(w, i);
        reward, done := PickUp(i);
      } else {
        assert Land(theMap, w, i) == EncounterOutcome(w, i);
        reward, done := Tag(i);
      }
    }

    /** The mover at position i has brought a flag home. */
    method Win(i: nat) returns (reward: int, done: bool)
      requires i < |theMap.players|
      modifies theMap
      ensures var o := WinOutcome(old(theMap.State()), i);
        reward == o.reward && done == o.done && theMap.State() == o.world
    {
      var player := theMap.players[i];
      Broadcast(player, GameOver);
      return WonReward, true;
    }

    /** The mover at position i takes the opponents' flag. */
    method PickUp(i: nat) returns (reward: int, done: bool)
      requires i < |theMap.players|
      modifies theMap
      ensures var o := PickupOutcome(old(theMap.State()), i);
        reward == o.reward && done == o.done && theMap.State() == o.world
    {
      var player := theMap.players[i].(hasFlag := true);
      theMap.players := theMap.players[i := player];
      if player.team == Blue {
        theMap.redFlagInPlay := true;
      } else {
        theMap.blueFlagInPlay := true;
      }
      Broadcast(player, FlagTaken);
      return GotFlagReward, false;
    }

    /** The tag loop of `step` for the mover at position i. */
    method Tag(i: nat) returns (reward: int, done: bool)
      requires i < |theMap.players|
      modifies theMap
      ensures var o := EncounterOutcome(old(theMap.State()), i);
        reward == o.reward && done == o.done && theMap.State() == o.world
    {
      var j := FindEncounter(i);
      if j.None? {
        return MovedReward, false;
      }
      reward := Resolve(i, j.value);
      done := false;
    }

    /** The broadcast loops of `step`: every player whose index differs from the mover's hears the news. */
    method Broadcast(player: Player, news: News)
      modifies theMap
      ensures theMap.players == Announce(old(theMap.players), player.playerIdx, player.team, news)
      ensures theMap.blueFlagInPlay == old(theMap.blueFlagInPlay) && theMap.redFlagInPlay == old(theMap.redFlagInPlay)
    {
      ghost var ps := theMap.players;
      for k := 0 to |theMap.players|
        invariant |theMap.players| == |ps|
        invariant forall j :: 0 <= j < k ==> theMap.players[j] == Announce(ps, player.playerIdx, player.team, news)[j]
        invariant forall j :: k <= j < |ps| ==> theMap.players[j] == ps[j]
        invariant theMap.blueFlagInPlay == old(theMap.blueFlagInPlay) && theMap.redFlagInPlay == old(theMap.redFlagInPlay)
      {
        var other := theMap.players[k];
        if other.playerIdx == player.playerIdx {
          continue;
        }
        other := Tell(other, player.team, news);
        theMap.players := theMap.players[k := other];
      }
    }

    /** The body of a broadcast loop: `other` hears news of a player of `moverTeam`. */
    static method Tell(other: Player, moverTeam: Team, news: News) returns (heard: Player)
      ensures heard == Hear(other, moverTeam, news)
    {
      var opponent := other.team == Opponent(moverTeam);
      if news == GameOver {
        if opponent {
          heard := other.(lost := true);
        } else {
          heard := other.(won := true);
        }
      } else {
        if opponent {
          heard := other.(opponentGotFlag := true);
        } else {
          heard := other.(teammateGotFlag := true);
        }
      }
    }

    /** The tag loop's search: the first player that ends it, if any. */
    method FindEncounter(i: nat) returns (found: Option<nat>)
      requires i < |theMap.players|
      ensures found == FirstEncounter(theMap.players, i, 0)
    {
      var player := theMap.players[i];
      for k := 0 to |theMap.players|
        invariant FirstEncounter(theMap.players, i, k) == FirstEncounter(theMap.players, i, 0)
      {
        var other := theMap.players[k];
        if other.playerIdx == player.playerIdx {
          continue;
        }
        if other.xy != player.xy {
          continue;
        }
        if other.team == Opponent(player.team) && !other.isIncapacitated {
          if other.inEnemyTerritory || other.hasFlag {
            return Some(k);
          } else if player.inEnemyTerritory || player.hasFlag {
            return Some(k);
          }
        } else if other.team == player.team && other.isIncapacitated {
          return Some(k);
        }
      }
      return None;
    }

    /** The branch of the tag loop that ends it, for mover i and player j. */
    method Resolve(i: nat, j: nat) returns (reward: int)
      requires i < |theMap.players| && j < |theMap.players| && i != j
      requires Meeting(theMap.players[i], theMap.players[j]).Some?
      modifies theMap
      ensures var o := Meet(old(theMap.State()), i, j, Meeting(old(theMap.players[i]), old(theMap.players[j])).value);
        reward == o.reward && theMap.State() == o.world
    {
      var player, other := theMap.players[i], theMap.players[j];
      ghost var e := Meeting(player, other).value;
      if other.team == Opponent(player.team) && !other.isIncapacitated {
        if other.inEnemyTerritory || other.hasFlag {
          if other.hasFlag {
            assert e.TagCarrier?;
            reward := TagCarrier(j);
          } else {
            assert e.TagOpponent?;
            reward := TagOpponent(j);
          }
        } else if player.hasFlag {
          assert e.CarrierTagged?;
          reward := CarrierTagged(i, j);
        } else {
          assert e.MoverTagged?;
          reward := MoverTagged(i, j);
        }
      } else {
        assert e.Revive?;
        reward := Revive(j);
      }
    }

    /** The mover tags flag carrier j, who is incapacitated and drops the flag, which goes out of play. */
    method TagCarrier(j: nat) returns (reward: int)
      requires j < |theMap.players|
      modifies theMap
      ensures var o := TagCarrierOutcome(old(theMap.State()), j);
        reward == o.reward && theMap.State() == o.world
    {
      var other := theMap.players[j];
      ghost var team := other.team;
      other := other.(isIncapacitated := true, incapacitatedCountdown := IncapacitatedTurns);
      other := other.(hasFlag := false, gotTaggedWithFlag := true);
      theMap.players := theMap.players[j := other];
      assert other.team == team;
      if other.team == Blue {
        theMap.redFlagInPlay := false;
      } else {
        theMap.blueFlagInPlay := false;
      }
      return TaggedFlagHolderReward;
    }

    /** The mover tags opponent j, who is incapacitated. */
    method TagOpponent(j: nat) returns (reward: int)
      requires j < |theMap.players|
      modifies theMap
      ensures var o := TagOpponentOutcome(old(theMap.State()), j);
        reward == o.reward && theMap.State() == o.world
    {
      var other := theMap.players[j];
      other := other.(isIncapacitated := true, incapacitatedCountdown := IncapacitatedTurns);
      other := other.(gotTagged := true);
      theMap.players := theMap.players[j := other];
      return TaggedReward;
    }

    /** Opponent j tags the mover i, who is incapacitated and drops its flag, which goes out of play. */
    method CarrierTagged(i: nat, j: nat) returns (reward: int)
      requires i < |theMap.players| && j < |theMap.players| && i != j
      modifies theMap
      ensures var o := CarrierTaggedOutcome(old(theMap.State()), i, j);
        reward == o.reward && theMap.State() == o.world
    {
      var player, other := theMap.players[i], theMap.players[j];
      ghost var team := player.team;
      player := player.(isIncapacitated := true, incapacitatedCountdown := IncapacitatedTurns);
      other := other.(taggedFlagHolder := true);
      player := player.(hasFlag := false);
      theMap.players := theMap.players[i := player][j := other];
      assert player.team == team;
      if player.team == Blue {
        theMap.redFlagInPlay := false;
      } else {
        theMap.blueFlagInPlay := false;
      }
      return GotTaggedWithFlagReward;
    }

    /** Opponent j tags the mover i, who is incapacitated. */
    method MoverTagged(i: nat, j: nat) returns (reward: int)
      requires i < |theMap.players| && j < |theMap.players| && i != j
      modifies theMap
      ensures var o := MoverTaggedOutcome(old(theMap.State()), i, j);
        reward == o.reward && theMap.State() == o.world
    {
      var player, other := theMap.players[i], theMap.players[j];
      player := player.(isIncapacitated := true, incapacitatedCountdown := IncapacitatedTurns);
      other := other.(tagged := true);
      theMap.players := theMap.players[i := player][j := other];
      return GotTaggedReward;
    }

    /** The mover revives incapacitated teammate j. */
    method Revive(j: nat) returns (reward: int)
      requires j < |theMap.players|
      modifies theMap
      ensures var o := ReviveOutcome(old(theMap.State()), j);
        reward == o.reward && theMap.State() == o.world
    {
      var other := theMap.players[j];
      other := other.(isIncapacitated := false, incapacitatedCountdown := 0);
      theMap.players := theMap.players[j := other];
      return RevivedTeammateReward;
    }
  }

  /** The tiles `VirtualGame.__init__` draws a team's start tiles from: passable tiles of its third of the columns. */
  function StartTiles(g: Grid, team: Team): seq<(int, int)>
  {
    var side := Cols(g) / 3;
    if team == Blue then Where(g, IsPositive, 0, side, Rows(g)) else Where(g, IsPositive, 2 * side, Cols(g), Rows(g))
  }

  /**
   * The players of a team lined up from the tail of its shuffled tiles: player
   * k stands on the k-th tile from the end, read as (row, col).
   */
  function Lineup(team: Team, tiles: seq<(int, int)>, dirs: seq<Key>): seq<Player>
    requires |dirs| <= |tiles|
  {
    seq(|dirs|, k requires 0 <= k < |dirs| =>
      NewPlayer(team, k, (tiles[|tiles| - 1 - k].1, tiles[|tiles| - 1 - k].0), dirs[k]))
  }
}
