/**
 * The invariants a tick of `VirtualGame.step` keeps: the roster (length,
 * teams, indices) never changes, only the mover changes tile and only onto a
 * passable one, and a team's flag is in play exactly when one opponent
 * carries it (so no team ever holds more than one flag carrier).
 */
module SimulationInvariants {
  import opened Basics
  import opened Arena
  import opened Simulation
  import opened SimulationProperties

  // ---------------------------------------------------------------------------
  // Flag carriers.

  /** 1 when p is a player of `team` carrying a flag, 0 otherwise. */
  function Carrying(p: Player, team: Team): nat
  {
    if p.team == team && p.hasFlag then 1 else 0
  }

  /** How many players of `team` carry a flag. */
  function Carriers(ps: seq<Player>, team: Team): nat
  {
    if ps == [] then 0 else Carriers(ps[..|ps| - 1], team) + Carrying(ps[|ps| - 1], team)
  }

  /** Flag `flag` is in play exactly when one player of the other team carries it. */
  predicate Carried(w: World, flag: Team)
  {
    Carriers(w.players, Opponent(flag)) == if InPlay(w, flag) then 1 else 0
  }

  /** Both flags are accounted for by their carriers. */
  predicate FlagsConsistent(w: World)
  {
    Carried(w, Blue) && Carried(w, Red)
  }

  /** Replacing one player changes the count by that player's share. */
  lemma {:induction false} CarriersUpdate(ps: seq<Player>, k: nat, q: Player, team: Team)
    requires k < |ps|
    ensures Carriers(ps[k := q], team) + Carrying(ps[k], team) == Carriers(ps, team) + Carrying(q, team)
  {
    var n := |ps| - 1;
    var ps' := ps[k := q];
    assert ps'[..n] == if k < n then ps[..n][k := q] else ps[..n];
    if k < n {
      CarriersUpdate(ps[..n], k, q, team);
    }
  }

  /** Two rosters whose players agree pointwise on team and flag have the same carriers. */
  lemma {:induction false} CarriersSame(ps: seq<Player>, ps': seq<Player>, team: Team)
    requires |ps'| == |ps|
    requires forall j :: 0 <= j < |ps| ==> Carrying(ps'[j], team) == Carrying(ps[j], team)
    ensures Carriers(ps', team) == Carriers(ps, team)
  {
    if ps != [] {
      var n := |ps| - 1;
      CarriersSame(ps[..n], ps'[..n], team);
    }
  }

  /** A player of `team` carrying a flag is one of at least one carrier. */
  lemma CarrierCounted(ps: seq<Player>, k: nat, team: Team)
    requires k < |ps|
    ensures Carrying(ps[k], team) <= Carriers(ps, team)
  {
    CarriersUpdate(ps, k, ps[k].(hasFlag := false), team);
  }

  /** In a consistent world no team has two flag carriers. */
  lemma AtMostOneCarrier(w: World, team: Team, a: nat, b: nat)
    requires FlagsConsistent(w)
    requires a < |w.players| && b < |w.players|
    requires w.players[a].team == team && w.players[a].hasFlag
    requires w.players[b].team == team && w.players[b].hasFlag
    ensures a == b
  {
    var ps := w.players;
    CarriersUpdate(ps, a, ps[a].(hasFlag := false), team);
    CarrierCounted(ps[a := ps[a].(hasFlag := false)], b, team);
    assert Carried(w, Opponent(team));
  }

  /** News changes nobody's team, index, tile or flag. */
  lemma AnnounceKeeps(ps: seq<Player>, moverIdx: int, moverTeam: Team, news: News)
    ensures var a := Announce(ps, moverIdx, moverTeam, news);
      |a| == |ps| &&
      forall j :: 0 <= j < |ps| ==>
        a[j].team == ps[j].team && a[j].playerIdx == ps[j].playerIdx && a[j].xy == ps[j].xy && a[j].hasFlag == ps[j].hasFlag
  {
    var a := Announce(ps, moverIdx, moverTeam, news);
    forall j | 0 <= j < |ps|
      ensures a[j].team == ps[j].team && a[j].playerIdx == ps[j].playerIdx && a[j].xy == ps[j].xy && a[j].hasFlag == ps[j].hasFlag
    {
      assert a[j] == if ps[j].playerIdx == moverIdx then ps[j] else Hear(ps[j], moverTeam, news);
    }
  }

  /** News never changes who carries a flag. */
  lemma AnnounceCarriers(ps: seq<Player>, moverIdx: int, moverTeam: Team, news: News, team: Team)
    ensures Carriers(Announce(ps, moverIdx, moverTeam, news), team) == Carriers(ps, team)
  {
    var a := Announce(ps, moverIdx, moverTeam, news);
    AnnounceKeeps(ps, moverIdx, moverTeam, news);
    assert forall j :: 0 <= j < |ps| ==> Carrying(a[j], team) == Carrying(ps[j], team);
    CarriersSame(ps, a, team);
  }

  /** Landing on a tile keeps the flags accounted for. */
  lemma LandKeepsFlags(m: VirtualMap, w: World, i: nat)
    requires i < |w.players| && FlagsConsistent(w)
    ensures FlagsConsistent(Land(m, w, i).world)
  {
    var p := w.players[i];
    if p.hasFlag && p.xy in HomeArea(m, p.team) {
      assert Land(m, w, i) == WinOutcome(w, i);
      WinKeepsFlags(w, i);
    } else if PicksUp(m, w, p, p.xy) {
      assert Land(m, w, i) == PickupOutcome(w, i);
      PickupKeepsFlags(w, i);
    } else {
      assert Land(m, w, i) == EncounterOutcome(w, i);
      EncounterKeepsFlags(w, i);
    }
  }

  /** Both flags are accounted for once one flag and the other are. */
  lemma ConsistentByTeam(w: World, t: Team)
    requires Carried(w, t) && Carried(w, Opponent(t))
    ensures FlagsConsistent(w)
  {
  }

  lemma WinKeepsFlags(w: World, i: nat)
    requires i < |w.players| && FlagsConsistent(w)
    ensures FlagsConsistent(WinOutcome(w, i).world)
  {
    var p := w.players[i];
    AnnounceCarriers(w.players, p.playerIdx, p.team, GameOver, Blue);
    AnnounceCarriers(w.players, p.playerIdx, p.team, GameOver, Red);
  }

  /** Taking the opponents' flag, which was not in play, puts one carrier behind it. */
  lemma PickupKeepsFlags(w: World, i: nat)
    requires i < |w.players| && FlagsConsistent(w)
    requires !InPlay(w, Opponent(w.players[i].team))
    ensures FlagsConsistent(PickupOutcome(w, i).world)
  {
    var ps, p := w.players, w.players[i];
    var t := p.team;
    var a := Announce(ps[i := p.(hasFlag := true)], p.playerIdx, t, FlagTaken);
    var w' := SetInPlay(w.(players := a), Opponent(t), true);
    assert PickupOutcome(w, i).world == w';
    assert Carried(w, Opponent(t)) && Carried(w, t);
    PickupCarriers(ps, i);
    ConsistentByTeam(w', t);
  }

  /** The carriers once player i of a team without carriers takes a flag and the news goes round. */
  lemma PickupCarriers(ps: seq<Player>, i: nat)
    requires i < |ps| && Carriers(ps, ps[i].team) == 0
    ensures var p := ps[i];
      var a := Announce(ps[i := p.(hasFlag := true)], p.playerIdx, p.team, FlagTaken);
      Carriers(a, p.team) == 1 && Carriers(a, Opponent(p.team)) == Carriers(ps, Opponent(p.team))
  {
    var p := ps[i];
    var t, p' := p.team, p.(hasFlag := true);
    CarriersUpdate(ps, i, p.(hasFlag := false), t);
    CarriersUpdate(ps, i, p', t);
    CarriersUpdate(ps, i, p', Opponent(t));
    AnnounceCarriers(ps[i := p'], p.playerIdx, t, FlagTaken, t);
    AnnounceCarriers(ps[i := p'], p.playerIdx, t, FlagTaken, Opponent(t));
  }

  /** The tag loop keeps the flags accounted for. */
  lemma EncounterKeepsFlags(w: World, i: nat)
    requires i < |w.players| && FlagsConsistent(w)
    ensures FlagsConsistent(EncounterOutcome(w, i).world)
  {
    match FirstEncounter(w.players, i, 0)
    case None =>
    case Some(j) =>
      var e := Meeting(w.players[i], w.players[j]).value;
      assert EncounterOutcome(w, i) == Meet(w, i, j, e);
      MeetKeepsFlags(w, i, j, e);
  }

  lemma MeetKeepsFlags(w: World, i: nat, j: nat, e: Encounter)
    requires i < |w.players| && j < |w.players| && i != j && FlagsConsistent(w)
    requires Meeting(w.players[i], w.players[j]) == Some(e)
    ensures FlagsConsistent(Meet(w, i, j, e).world)
  {
    match e
    case TagCarrier => DropKeepsFlags(w, j, TagCarrierOutcome(w, j).world.players[j]);
    case TagOpponent => UntouchedFlags(w, j, TagOpponentOutcome(w, j).world.players[j]);
    case CarrierTagged => CarrierTaggedKeepsFlags(w, i, j);
    case MoverTagged => MoverTaggedKeepsFlags(w, i, j);
    case Revive => UntouchedFlags(w, j, ReviveOutcome(w, j).world.players[j]);
  }

  lemma CarrierTaggedKeepsFlags(w: World, i: nat, j: nat)
    requires i < |w.players| && j < |w.players| && i != j && FlagsConsistent(w) && w.players[i].hasFlag
    ensures FlagsConsistent(CarrierTaggedOutcome(w, i, j).world)
  {
    var p' := Incapacitate(w.players[i]).(hasFlag := false);
    var q' := w.players[j].(taggedFlagHolder := true);
    DropKeepsFlags(w, i, p');
    var w2 := SetInPlay(w.(players := w.players[i := p']), Opponent(w.players[i].team), false);
    UntouchedFlags(w2, j, q');
    assert CarrierTaggedOutcome(w, i, j).world == w2.(players := w2.players[j := q']);
  }

  lemma MoverTaggedKeepsFlags(w: World, i: nat, j: nat)
    requires i < |w.players| && j < |w.players| && FlagsConsistent(w)
    ensures FlagsConsistent(MoverTaggedOutcome(w, i, j).world)
  {
    var p' := Incapacitate(w.players[i]);
    UntouchedFlags(w, i, p');
    UntouchedFlags(w.(players := w.players[i := p']), j, w.players[j].(tagged := true));
  }

  /** Replacing a player by one with the same team and flag keeps the flags accounted for. */
  lemma UntouchedFlags(w: World, k: nat, q: Player)
    requires k < |w.players| && FlagsConsistent(w)
    requires q.team == w.players[k].team && q.hasFlag == w.players[k].hasFlag
    ensures FlagsConsistent(w.(players := w.players[k := q]))
  {
    CarriersUpdate(w.players, k, q, Blue);
    CarriersUpdate(w.players, k, q, Red);
  }

  /** A carrier who drops its flag, which goes out of play, keeps the flags accounted for. */
  lemma DropKeepsFlags(w: World, k: nat, q: Player)
    requires k < |w.players| && FlagsConsistent(w)
    requires w.players[k].hasFlag && q.team == w.players[k].team && !q.hasFlag
    ensures FlagsConsistent(SetInPlay(w.(players := w.players[k := q]), Opponent(q.team), false))
  {
    var t := q.team;
    CarriersUpdate(w.players, k, q, t);
    CarriersUpdate(w.players, k, q, Opponent(t));
    CarrierCounted(w.players, k, t);
    assert Carried(w, Opponent(t));
    assert Carried(w, t);
  }

  // ---------------------------------------------------------------------------
  // The roster and the tiles.

  /** ps' has the players of ps, in the same order, on the same tiles. */
  predicate SameRoster(ps: seq<Player>, ps': seq<Player>)
  {
    |ps'| == |ps| &&
    forall j :: 0 <= j < |ps| ==> ps'[j].team == ps[j].team && ps'[j].playerIdx == ps[j].playerIdx && ps'[j].xy == ps[j].xy
  }

  /** Landing moves nobody: tags, revivals and news leave every player on its tile. */
  lemma LandKeepsRoster(m: VirtualMap, w: World, i: nat)
    requires i < |w.players|
    ensures SameRoster(w.players, Land(m, w, i).world.players)
  {
    var p := w.players[i];
    if p.hasFlag && p.xy in HomeArea(m, p.team) {
      assert Land(m, w, i) == WinOutcome(w, i);
      NewsKeepsRoster(w.players, w.players, p.playerIdx, p.team, GameOver);
    } else if PicksUp(m, w, p, p.xy) {
      assert Land(m, w, i) == PickupOutcome(w, i);
      var ps1 := w.players[i := p.(hasFlag := true)];
      UpdateKeepsRoster(w.players, i, p.(hasFlag := true));
      NewsKeepsRoster(w.players, ps1, p.playerIdx, p.team, FlagTaken);
    } else {
      assert Land(m, w, i) == EncounterOutcome(w, i);
      EncounterKeepsRoster(w, i);
    }
  }

  lemma EncounterKeepsRoster(w: World, i: nat)
    requires i < |w.players|
    ensures SameRoster(w.players, EncounterOutcome(w, i).world.players)
  {
    match FirstEncounter(w.players, i, 0)
    case None =>
    case Some(j) =>
      var e := Meeting(w.players[i], w.players[j]).value;
      assert EncounterOutcome(w, i) == Meet(w, i, j, e);
      MeetKeepsRoster(w, i, j, e);
  }

  lemma MeetKeepsRoster(w: World, i: nat, j: nat, e: Encounter)
    requires i < |w.players| && j < |w.players|
    ensures SameRoster(w.players, Meet(w, i, j, e).world.players)
  {
    var ps := w.players;
    match e
    case TagCarrier => UpdateKeepsRoster(ps, j, TagCarrierOutcome(w, j).world.players[j]);
    case TagOpponent => UpdateKeepsRoster(ps, j, TagOpponentOutcome(w, j).world.players[j]);
    case CarrierTagged => CarrierTaggedKeepsRoster(w, i, j);
    case MoverTagged => MoverTaggedKeepsRoster(w, i, j);
    case Revive => UpdateKeepsRoster(ps, j, ReviveOutcome(w, j).world.players[j]);
  }

  lemma CarrierTaggedKeepsRoster(w: World, i: nat, j: nat)
    requires i < |w.players| && j < |w.players|
    ensures SameRoster(w.players, CarrierTaggedOutcome(w, i, j).world.players)
  {
    var ps := w.players;
    var p', q' := Incapacitate(ps[i]).(hasFlag := false), ps[j].(taggedFlagHolder := true);
    assert CarrierTaggedOutcome(w, i, j).world.players == ps[i := p'][j := q'];
    UpdateKeepsRoster(ps, i, p');
    UpdateKeepsRoster(ps[i := p'], j, q');
  }

  lemma MoverTaggedKeepsRoster(w: World, i: nat, j: nat)
    requires i < |w.players| && j < |w.players|
    ensures SameRoster(w.players, MoverTaggedOutcome(w, i, j).world.players)
  {
    var ps := w.players;
    var p', q' := Incapacitate(ps[i]), ps[j].(tagged := true);
    UpdateKeepsRoster(ps, i, p');
    UpdateKeepsRoster(ps[i := p'], j, q');
  }

  /** News keeps the roster. */
  lemma NewsKeepsRoster(ps0: seq<Player>, ps: seq<Player>, moverIdx: int, moverTeam: Team, news: News)
    requires SameRoster(ps0, ps)
    ensures SameRoster(ps0, Announce(ps, moverIdx, moverTeam, news))
  {
    AnnounceKeeps(ps, moverIdx, moverTeam, news);
  }

  /** Replacing a player by one with the same team, index and tile keeps the roster. */
  lemma UpdateKeepsRoster(ps: seq<Player>, k: nat, q: Player)
    requires k < |ps| && q.team == ps[k].team && q.playerIdx == ps[k].playerIdx && q.xy == ps[k].xy
    ensures SameRoster(ps, ps[k := q])
    ensures forall ps0 :: SameRoster(ps0, ps) ==> SameRoster(ps0, ps[k := q])
  {
  }

  /**
   * What a step keeps, from world w to world w' with mover i: the flags stay
   * accounted for, every player stays on a passable tile, and the roster is
   * the same, with only the mover free to change tile.
   */
  ghost predicate Kept(g: Grid, w: World, w': World, i: nat)
  {
    && FlagsConsistent(w') && Placed(g, w'.players)
    && |w'.players| == |w.players|
    && forall j :: 0 <= j < |w.players| ==>
         && w'.players[j].team == w.players[j].team
         && w'.players[j].playerIdx == w.players[j].playerIdx
         && (j != i ==> w'.players[j].xy == w.players[j].xy)
  }

  /** Every tick of `step` keeps the invariants. */
  lemma StepInvariants(m: VirtualMap, w: World, i: nat, hla: Hla, d: Draws)
    requires Ready(m, w, i) && FlagsConsistent(w) && Placed(m.tileSpeeds, w.players)
    ensures var s := StepSpec(m, w, i, hla, d);
      s.Ok? ==> Kept(m.tileSpeeds, w, s.value.world, i)
  {
    var p := w.players[i];
    if p.isIncapacitated {
      var w' := w.(players := w.players[i := Recover(p)]);
      assert StepSpec(m, w, i, hla, d) == Ok(Outcome(w', StationaryReward, false, Stunned));
      RecoverKeeps(m.tileSpeeds, w, i);
    } else {
      var a := Action(m, w.players, i, hla, d);
      if a.Ok? {
        var w1 := w.(players := w.players[i := p.(prevDir := a.value.1)]);
        assert StepSpec(m, w, i, hla, d) == Ok(Move(m, w1, i, a.value.0));
        TurnKeeps(m, w, i, a.value);
      }
    }
  }

  /** A turn that sets the mover's `prev_dir` and then tries to move keeps the invariants. */
  lemma TurnKeeps(m: VirtualMap, w: World, i: nat, a: (Option<Key>, Key))
    requires Ready(m, w, i) && FlagsConsistent(w) && Placed(m.tileSpeeds, w.players)
    ensures var w1 := w.(players := w.players[i := w.players[i].(prevDir := a.1)]);
      Kept(m.tileSpeeds, w, Move(m, w1, i, a.0).world, i)
  {
    var p := w.players[i];
    var w1 := w.(players := w.players[i := p.(prevDir := a.1)]);
    UntouchedFlags(w, i, p.(prevDir := a.1));
    assert Placed(m.tileSpeeds, w1.players);
    MoveInvariants(m, w1, i, a.0);
    KeptFrom(m.tileSpeeds, w, w1, Move(m, w1, i, a.0).world, i);
  }

  /** An incapacitated player's turn keeps the invariants. */
  lemma RecoverKeeps(g: Grid, w: World, i: nat)
    requires i < |w.players| && FlagsConsistent(w) && Placed(g, w.players)
    ensures Kept(g, w, w.(players := w.players[i := Recover(w.players[i])]), i)
  {
    var q := Recover(w.players[i]);
    assert q.team == w.players[i].team && q.hasFlag == w.players[i].hasFlag && q.xy == w.players[i].xy;
    UntouchedFlags(w, i, q);
  }

  /** A world that keeps the roster of w keeps what w' keeps of it. */
  lemma KeptFrom(g: Grid, w: World, w1: World, w': World, i: nat)
    requires i < |w.players| && |w1.players| == |w.players|
    requires forall j :: 0 <= j < |w.players| ==>
      w1.players[j].team == w.players[j].team && w1.players[j].playerIdx == w.players[j].playerIdx && w1.players[j].xy == w.players[j].xy
    requires Kept(g, w1, w', i)
    ensures Kept(g, w, w', i)
  {
  }

  /** The same for one move attempt. */
  lemma MoveInvariants(m: VirtualMap, w: World, i: nat, action: Option<Key>)
    requires Ready(m, w, i) && FlagsConsistent(w) && Placed(m.tileSpeeds, w.players)
    ensures Kept(m.tileSpeeds, w, Move(m, w, i, action).world, i)
  {
    var p := w.players[i];
    OpenTileIsInterior(m.tileSpeeds, p.xy);
    if MoveSpeed(m, p.xy, action) != 0 {
      var t := Shift(p.xy, action.value);
      var p' := Relocate(m, p, t);
      var moved := w.(players := w.players[i := p']);
      assert Move(m, w, i, action) == Land(m, moved, i);
      UntouchedFlags(w, i, p');
      LandKeepsFlags(m, moved, i);
      LandKeepsRoster(m, moved, i);
      assert Placed(m.tileSpeeds, moved.players);
    }
  }

  // ---------------------------------------------------------------------------
  // The game as `VirtualGame.__init__` sets it up.

  /** Column x lies in the third of the map a team starts from. */
  predicate InStartThird(g: Grid, team: Team, x: int)
  {
    if team == Blue then 0 <= x < Cols(g) / 3 else 2 * (Cols(g) / 3) <= x < Cols(g)
  }

  /** A team lined up from a shuffle of its start tiles: passable tiles of its own third, indices 0, 1, ..., no flags. */
  lemma LineupPlaced(g: Grid, team: Team, tiles: seq<(int, int)>, dirs: seq<Key>)
    requires |dirs| <= |tiles| && multiset(tiles) == multiset(StartTiles(g, team))
    ensures var ps := Lineup(team, tiles, dirs);
      && Placed(g, ps)
      && forall k :: 0 <= k < |ps| ==>
           ps[k].team == team && ps[k].playerIdx == k && !ps[k].hasFlag && InStartThird(g, team, ps[k].xy.0)
  {
    var ps := Lineup(team, tiles, dirs);
    forall k | 0 <= k < |ps|
      ensures OnOpenTile(g, ps[k].xy) && InStartThird(g, team, ps[k].xy.0)
      ensures ps[k].team == team && ps[k].playerIdx == k && !ps[k].hasFlag
    {
      LineupTile(g, team, tiles, dirs, k);
    }
  }

  lemma LineupTile(g: Grid, team: Team, tiles: seq<(int, int)>, dirs: seq<Key>, k: nat)
    requires |dirs| <= |tiles| && multiset(tiles) == multiset(StartTiles(g, team)) && k < |dirs|
    ensures var p := Lineup(team, tiles, dirs)[k];
      && OnOpenTile(g, p.xy) && InStartThird(g, team, p.xy.0)
      && p.team == team && p.playerIdx == k && !p.hasFlag
  {
    var t := tiles[|tiles| - 1 - k];
    assert t in multiset(tiles);
    StartTile(g, team, t);
    LineupAt(team, tiles, dirs, k);
  }

  /** Player k of a lineup: the k-th tile from the end, read as (row, col), index k, no flag. */
  lemma LineupAt(team: Team, tiles: seq<(int, int)>, dirs: seq<Key>, k: nat)
    requires |dirs| <= |tiles| && k < |dirs|
    ensures var p, t := Lineup(team, tiles, dirs)[k], tiles[|tiles| - 1 - k];
      p.xy == (t.1, t.0) && p.team == team && p.playerIdx == k && !p.hasFlag
  {
  }

  /** A start tile, read as (row, col), is a passable tile of its team's third. */
  lemma StartTile(g: Grid, team: Team, t: (int, int))
    requires t in StartTiles(g, team)
    ensures OnOpenTile(g, (t.1, t.0)) && InStartThird(g, team, t.1)
  {
  }

  /** With nobody carrying a flag, no team has a carrier. */
  lemma {:induction false} NoCarriers(ps: seq<Player>, team: Team)
    requires forall j :: 0 <= j < |ps| ==> !ps[j].hasFlag
    ensures Carriers(ps, team) == 0
  {
    if ps != [] {
      NoCarriers(ps[..|ps| - 1], team);
    }
  }

  /**
   * The game `VirtualGame.__init__` sets up, blue players first: every player
   * stands on a passable tile of its team's third, with the indices 0 to n - 1
   * in each team, and both flags are out of play and carried by nobody.
   */
  lemma InitialWorld(g: Grid, blueTiles: seq<(int, int)>, redTiles: seq<(int, int)>, dirs: seq<Key>, n: nat)
    requires multiset(blueTiles) == multiset(StartTiles(g, Blue))
    requires multiset(redTiles) == multiset(StartTiles(g, Red))
    requires n <= |blueTiles| && n <= |redTiles| && |dirs| == 2 * n
    ensures var w := World(Lineup(Blue, blueTiles, dirs[..n]) + Lineup(Red, redTiles, dirs[n..]), false, false);
      && FlagsConsistent(w) && Placed(g, w.players) && |w.players| == 2 * n
      && forall k :: 0 <= k < 2 * n ==>
           var p := w.players[k];
           && p.team == (if k < n then Blue else Red) && p.playerIdx == (if k < n then k else k - n)
           && InStartThird(g, p.team, p.xy.0)
  {
    var blue, red := Lineup(Blue, blueTiles, dirs[..n]), Lineup(Red, redTiles, dirs[n..]);
    LineupPlaced(g, Blue, blueTiles, dirs[..n]);
    LineupPlaced(g, Red, redTiles, dirs[n..]);
    TeamsJoined(g, blue, red);
    NoCarriers(blue + red, Blue);
    NoCarriers(blue + red, Red);
  }

  /** Two lined-up teams, blue then red, keep each player's tile, team and index. */
  lemma TeamsJoined(g: Grid, blue: seq<Player>, red: seq<Player>)
    requires forall k :: 0 <= k < |blue| ==>
      OnOpenTile(g, blue[k].xy) && blue[k].team == Blue && blue[k].playerIdx == k && !blue[k].hasFlag && InStartThird(g, Blue, blue[k].xy.0)
    requires forall k :: 0 <= k < |red| ==>
      OnOpenTile(g, red[k].xy) && red[k].team == Red && red[k].playerIdx == k && !red[k].hasFlag && InStartThird(g, Red, red[k].xy.0)
    ensures var ps, n := blue + red, |blue|;
      forall k :: 0 <= k < |ps| ==>
        && OnOpenTile(g, ps[k].xy) && InStartThird(g, ps[k].team, ps[k].xy.0) && !ps[k].hasFlag
        && ps[k].team == (if k < n then Blue else Red) && ps[k].playerIdx == (if k < n then k else k - n)
  {
    var ps, n := blue + red, |blue|;
    forall k | 0 <= k < |ps|
      ensures OnOpenTile(g, ps[k].xy) && InStartThird(g, ps[k].team, ps[k].xy.0) && !ps[k].hasFlag
      ensures ps[k].team == (if k < n then Blue else Red) && ps[k].playerIdx == (if k < n then k else k - n)
    {
      if k < n {
        assert ps[k] == blue[k];
      } else {
        assert ps[k] == red[k - n];
      }
    }
  }
}
