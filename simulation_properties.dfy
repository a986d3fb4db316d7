/**
 * What one tick of `VirtualGame.step` promises, stated about the functions of
 * module Simulation that the `VirtualGame` class is proved to follow: one
 * outcome per call with its fixed reward, the rules of each outcome, and the
 * invariants a tick keeps (every player on a passable tile, and each flag in
 * play exactly when one opponent of its team carries it).
 */
module SimulationProperties {
  import opened Basics
  import opened Arena
  import opened Simulation

  // ---------------------------------------------------------------------------
  // One outcome per call.

  /** The reward `step` returns for each outcome. */
  function KindReward(k: Kind): int
  {
    match k
    case Stunned => StationaryReward
    case Blocked => StationaryReward
    case Won => WonReward
    case PickedUp => GotFlagReward
    case Met(e) =>
      (match e
       case TagCarrier => TaggedFlagHolderReward
       case TagOpponent => TaggedReward
       case CarrierTagged => GotTaggedWithFlagReward
       case MoverTagged => GotTaggedReward
       case Revive => RevivedTeammateReward)
    case Moved => MovedReward
  }

  /** Every outcome of the tag loop returns its own reward and never ends the game. */
  lemma EncounterReward(w: World, i: nat)
    requires i < |w.players|
    ensures var o := EncounterOutcome(w, i);
      o.reward == KindReward(o.kind) && !o.done && (o.kind.Met? || o.kind == Moved)
  {
    var f := FirstEncounter(w.players, i, 0);
    if f.Some? {
      var e := Meeting(w.players[i], w.players[f.value]).value;
      assert EncounterOutcome(w, i) == Meet(w, i, f.value, e);
      match e
      case TagCarrier =>
      case TagOpponent =>
      case CarrierTagged =>
      case MoverTagged =>
      case Revive =>
    }
  }

  /** Landing on a tile gives the reward of the outcome it fires, and ends the game exactly on a win. */
  lemma LandReward(m: VirtualMap, w: World, i: nat)
    requires i < |w.players|
    ensures var o := Land(m, w, i);
      o.reward == KindReward(o.kind) && (o.done <==> o.kind == Won) && !o.kind.Blocked? && !o.kind.Stunned?
  {
    var p := w.players[i];
    if p.hasFlag && p.xy in HomeArea(m, p.team) {
      assert Land(m, w, i) == WinOutcome(w, i);
    } else if PicksUp(m, w, p, p.xy) {
      assert Land(m, w, i) == PickupOutcome(w, i);
    } else {
      assert Land(m, w, i) == EncounterOutcome(w, i);
      EncounterReward(w, i);
    }
  }

  /** The same for a whole move attempt, blocked or not. */
  lemma MoveReward(m: VirtualMap, w: World, i: nat, action: Option<Key>)
    requires Ready(m, w, i)
    ensures var o := Move(m, w, i, action);
      o.reward == KindReward(o.kind) && (o.done <==> o.kind == Won)
  {
    var xy := w.players[i].xy;
    OpenTileIsInterior(m.tileSpeeds, xy);
    if MoveSpeed(m, xy, action) != 0 {
      var t := Shift(xy, action.value);
      LandReward(m, w.(players := w.players[i := Relocate(m, w.players[i], t)]), i);
    }
  }

  /**
   * Exactly one outcome fires per call of `step`: its reward is the one fixed
   * for that outcome, and the game ends exactly when the mover has won.
   */
  lemma OneOutcome(m: VirtualMap, w: World, i: nat, hla: Hla, d: Draws)
    requires Ready(m, w, i)
    ensures var s := StepSpec(m, w, i, hla, d);
      s.Ok? ==> s.value.reward == KindReward(s.value.kind) && (s.value.done <==> s.value.kind == Won)
  {
    var p := w.players[i];
    if !p.isIncapacitated {
      var a := Action(m, w.players, i, hla, d);
      if a.Ok? {
        var w1 := w.(players := w.players[i := p.(prevDir := a.value.1)]);
        assert StepSpec(m, w, i, hla, d) == Ok(Move(m, w1, i, a.value.0));
        MoveReward(m, w1, i, a.value.0);
      }
    }
  }

  // ---------------------------------------------------------------------------
  // The outcomes one by one.

  /**
   * An incapacitated player's step: the countdown drops by one, the incapacity
   * ends exactly when the countdown reaches 0 or less, nothing else changes,
   * and `step` returns (-5, False).
   */
  lemma StunnedStep(m: VirtualMap, w: World, i: nat, hla: Hla, d: Draws)
    requires Ready(m, w, i) && w.players[i].isIncapacitated
    ensures var s := StepSpec(m, w, i, hla, d);
      && s.Ok? && s.value.kind == Stunned && s.value.reward == StationaryReward && !s.value.done
      && |s.value.world.players| == |w.players|
      && var p, c := w.players[i], w.players[i].incapacitatedCountdown - 1;
      && s.value.world.players[i] == p.(incapacitatedCountdown := c, isIncapacitated := c > 0)
      && (forall j :: 0 <= j < |w.players| && j != i ==> s.value.world.players[j] == w.players[j])
      && s.value.world.blueFlagInPlay == w.blueFlagInPlay && s.value.world.redFlagInPlay == w.redFlagInPlay
  {
    var p := w.players[i];
    var w' := w.(players := w.players[i := Recover(p)]);
    assert StepSpec(m, w, i, hla, d) == Ok(Outcome(w', StationaryReward, false, Stunned));
    var c := p.incapacitatedCountdown - 1;
    if c > 0 {
      assert Recover(p) == p.(incapacitatedCountdown := c);
    }
  }

  /**
   * A step whose key is missing, or whose target tile is impassable, is
   * blocked; given `not_allowed` as the map builds it, these are the only
   * blocked steps. A blocked step changes nothing but the mover's `prev_dir`
   * (which only 'random' redraws) and returns (-5, False).
   */
  lemma BlockedStep(m: VirtualMap, w: World, i: nat, hla: Hla, d: Draws)
    requires Ready(m, w, i) && !w.players[i].isIncapacitated && m.notAllowed == ZeroTiles(m.tileSpeeds)
    requires Action(m, w.players, i, hla, d).Ok?
    ensures var a, s, p := Action(m, w.players, i, hla, d).value, StepSpec(m, w, i, hla, d), w.players[i];
      && s.Ok?
      && (s.value.kind == Blocked <==> a.0.None? || !OnOpenTile(m.tileSpeeds, Shift(p.xy, a.0.value)))
      && (s.value.kind == Blocked ==>
            && s.value.reward == StationaryReward && !s.value.done
            && s.value.world == w.(players := w.players[i := p.(prevDir := a.1)]))
  {
    var p := w.players[i];
    var a := Action(m, w.players, i, hla, d).value;
    var w1 := w.(players := w.players[i := p.(prevDir := a.1)]);
    assert StepSpec(m, w, i, hla, d) == Ok(Move(m, w1, i, a.0));
    BlockedMove(m, w1, i, a.0);
  }

  /** A move attempt is refused exactly when there is no key or its target is impassable, and then changes nothing. */
  lemma BlockedMove(m: VirtualMap, w: World, i: nat, action: Option<Key>)
    requires Ready(m, w, i) && m.notAllowed == ZeroTiles(m.tileSpeeds)
    ensures var o, xy := Move(m, w, i, action), w.players[i].xy;
      && (o.kind == Blocked <==> action.None? || !OnOpenTile(m.tileSpeeds, Shift(xy, action.value)))
      && (o.kind == Blocked ==> o == Outcome(w, StationaryReward, false, Blocked))
  {
    var xy := w.players[i].xy;
    OpenTileIsInterior(m.tileSpeeds, xy);
    if MoveSpeed(m, xy, action) != 0 {
      var t := Shift(xy, action.value);
      LandReward(m, w.(players := w.players[i := Relocate(m, w.players[i], t)]), i);
    }
  }

  /**
   * After a move to column x the territory flag is true for a blue player
   * right of the middle column and for a red player left of it, false on the
   * other side, and unchanged on the middle column itself.
   */
  lemma TerritoryRule(m: VirtualMap, team: Team, x: int, was: bool)
    ensures EnemyTerritoryAfter(m, team, x, was)
      == if x == m.middleTile then was else if team == Blue then x > m.middleTile else x < m.middleTile
  {
  }

  /**
   * A flag carrier landing in its own team's flag area wins: (500, True);
   * every player of another index hears it, opponents as `lost` and teammates
   * as `won`, and nothing else changes.
   */
  lemma WinRule(m: VirtualMap, w: World, i: nat, t: (int, int))
    requires i < |w.players|
    ensures var o, p := Arrive(m, w, i, t), w.players[i];
      && (o.kind == Won <==> p.hasFlag && t in HomeArea(m, p.team))
      && (o.kind == Won ==>
            && o.reward == WonReward && o.done
            && |o.world.players| == |w.players|
            && o.world.players[i] == Relocate(m, p, t)
            && o.world.blueFlagInPlay == w.blueFlagInPlay && o.world.redFlagInPlay == w.redFlagInPlay
            && forall j :: 0 <= j < |w.players| && j != i ==>
                 var q := w.players[j];
                 o.world.players[j] ==
                   if q.playerIdx == p.playerIdx then q
                   else if q.team == Opponent(p.team) then q.(lost := true)
                   else q.(won := true))
  {
    var moved := w.(players := w.players[i := Relocate(m, w.players[i], t)]);
    if !(w.players[i].hasFlag && t in HomeArea(m, w.players[i].team)) {
      if !PicksUp(m, moved, moved.players[i], t) {
        EncounterReward(moved, i);
      }
    }
  }

  /** Whether the flag of `flag` is in play in world w. */
  function InPlay(w: World, flag: Team): bool
  {
    if flag == Blue then w.blueFlagInPlay else w.redFlagInPlay
  }

  /**
   * Short of winning, a blue player landing on the red flag while it is not
   * in play (or the red mirror) takes it: the flag goes into play, the other
   * flag is untouched, every other index hears of it, and `step` returns
   * (50, False).
   */
  lemma PickupRule(m: VirtualMap, w: World, i: nat, t: (int, int))
    requires i < |w.players|
    ensures var o, p := Arrive(m, w, i, t), w.players[i];
      && (o.kind == PickedUp <==>
            && !(p.hasFlag && t in HomeArea(m, p.team))
            && ((t == m.redFlagXy && p.team == Blue && !w.redFlagInPlay) || (t == m.blueFlagXy && p.team == Red && !w.blueFlagInPlay)))
      && (o.kind == PickedUp ==>
            && o.reward == GotFlagReward && !o.done
            && |o.world.players| == |w.players|
            && o.world.players[i] == Relocate(m, p, t).(hasFlag := true)
            && InPlay(o.world, Opponent(p.team)) && InPlay(o.world, p.team) == InPlay(w, p.team)
            && forall j :: 0 <= j < |w.players| && j != i ==>
                 var q := w.players[j];
                 o.world.players[j] ==
                   if q.playerIdx == p.playerIdx then q
                   else if q.team == Opponent(p.team) then q.(opponentGotFlag := true)
                   else q.(teammateGotFlag := true))
  {
    var p := w.players[i];
    var moved := w.(players := w.players[i := Relocate(m, p, t)]);
    var p1 := moved.players[i];
    assert p1.xy == t && p1.team == p.team && p1.hasFlag == p.hasFlag;
    assert Arrive(m, w, i, t) == Land(m, moved, i);
    if p.hasFlag && t in HomeArea(m, p.team) {
      assert Land(m, moved, i) == WinOutcome(moved, i);
    } else if PicksUp(m, moved, p1, t) {
      assert Land(m, moved, i) == PickupOutcome(moved, i);
      PickupEffects(moved, i);
    } else {
      assert Land(m, moved, i) == EncounterOutcome(moved, i);
      EncounterReward(moved, i);
    }
  }

  /** What taking the flag does to the world, mover i already on the flag's tile. */
  lemma PickupEffects(w: World, i: nat)
    requires i < |w.players|
    ensures var o, p := PickupOutcome(w, i), w.players[i];
      && |o.world.players| == |w.players|
      && o.world.players[i] == p.(hasFlag := true)
      && InPlay(o.world, Opponent(p.team)) && InPlay(o.world, p.team) == InPlay(w, p.team)
      && forall j :: 0 <= j < |w.players| && j != i ==>
           var q := w.players[j];
           o.world.players[j] ==
             if q.playerIdx == p.playerIdx then q
             else if q.team == Opponent(p.team) then q.(opponentGotFlag := true)
             else q.(teammateGotFlag := true)
  {
  }

  /**
   * With no win and no pickup, the tag loop decides: the first player in list
   * order that shares the mover's tile, has another index and meets the mover
   * in one of the five ways ends the step; when there is none the mover just
   * moved, nothing else changes, and `step` returns (-1, False).
   */
  lemma TagLoopRule(m: VirtualMap, w: World, i: nat, t: (int, int))
    requires i < |w.players|
    requires !(w.players[i].hasFlag && t in HomeArea(m, w.players[i].team))
    requires !PicksUp(m, w, w.players[i], t)
    ensures var moved := w.(players := w.players[i := Relocate(m, w.players[i], t)]);
      && Arrive(m, w, i, t) == EncounterOutcome(moved, i)
      && (Arrive(m, w, i, t).kind == Moved <==> FirstEncounter(moved.players, i, 0).None?)
      && (Arrive(m, w, i, t).kind == Moved ==> Arrive(m, w, i, t) == Outcome(moved, MovedReward, false, Moved))
  {
    var moved := w.(players := w.players[i := Relocate(m, w.players[i], t)]);
    EncounterReward(moved, i);
  }

  /**
   * The mover tags opponent j, the first to stop the tag loop, who is not
   * incapacitated and is in enemy territory or carrying a flag: j becomes
   * incapacitated for 5 turns; a carried flag is dropped and goes out of play
   * and j is marked tagged with the flag for 100, otherwise j is marked tagged
   * for 20; nobody else changes.
   */
  lemma TagRule(w: World, i: nat, j: nat)
    requires i < |w.players| && FirstEncounter(w.players, i, 0) == Some(j)
    requires var p, q := w.players[i], w.players[j];
      q.team == Opponent(p.team) && !q.isIncapacitated && (q.inEnemyTerritory || q.hasFlag)
    ensures var o, q := EncounterOutcome(w, i), w.players[j];
      && |o.world.players| == |w.players| && !o.done
      && (q.hasFlag ==>
            && o.reward == TaggedFlagHolderReward
            && o.world.players[j] == Incapacitate(q).(hasFlag := false, gotTaggedWithFlag := true)
            && !InPlay(o.world, Opponent(q.team)) && InPlay(o.world, q.team) == InPlay(w, q.team))
      && (!q.hasFlag ==>
            && o.reward == TaggedReward && o.world.players[j] == Incapacitate(q).(gotTagged := true)
            && o.world.blueFlagInPlay == w.blueFlagInPlay && o.world.redFlagInPlay == w.redFlagInPlay)
      && forall k :: 0 <= k < |w.players| && k != j ==> o.world.players[k] == w.players[k]
  {
    if w.players[j].hasFlag {
      assert EncounterOutcome(w, i) == TagCarrierOutcome(w, j);
    } else {
      assert EncounterOutcome(w, i) == TagOpponentOutcome(w, j);
    }
  }

  /**
   * Opponent j, the first to stop the tag loop, is not incapacitated and is
   * on its own side, and the mover is in enemy territory or carrying a flag:
   * the mover becomes incapacitated for 5 turns and drops a carried flag,
   * which goes out of play; j is rewarded through `tagged_flag_holder` (-100)
   * or `tagged` (-20); nobody else changes.
   */
  lemma TaggedRule(w: World, i: nat, j: nat)
    requires i < |w.players| && FirstEncounter(w.players, i, 0) == Some(j)
    requires var p, q := w.players[i], w.players[j];
      q.team == Opponent(p.team) && !q.isIncapacitated && !(q.inEnemyTerritory || q.hasFlag)
    ensures var o, p, q := EncounterOutcome(w, i), w.players[i], w.players[j];
      && (p.inEnemyTerritory || p.hasFlag)
      && |o.world.players| == |w.players| && !o.done
      && o.world.players[i] == Incapacitate(p).(hasFlag := false)
      && (p.hasFlag ==>
            && o.reward == GotTaggedWithFlagReward && o.world.players[j] == q.(taggedFlagHolder := true)
            && !InPlay(o.world, Opponent(p.team)) && InPlay(o.world, p.team) == InPlay(w, p.team))
      && (!p.hasFlag ==>
            && o.reward == GotTaggedReward && o.world.players[j] == q.(tagged := true)
            && o.world.blueFlagInPlay == w.blueFlagInPlay && o.world.redFlagInPlay == w.redFlagInPlay)
      && forall k :: 0 <= k < |w.players| && k != i && k != j ==> o.world.players[k] == w.players[k]
  {
    var p := w.players[i];
    if p.hasFlag {
      assert EncounterOutcome(w, i) == CarrierTaggedOutcome(w, i, j);
    } else {
      assert EncounterOutcome(w, i) == MoverTaggedOutcome(w, i, j);
    }
  }

  /**
   * Teammate j, the first to stop the tag loop, is incapacitated: it is
   * revived with its countdown at 0, `step` returns 25, and nothing else
   * changes.
   */
  lemma ReviveRule(w: World, i: nat, j: nat)
    requires i < |w.players| && FirstEncounter(w.players, i, 0) == Some(j)
    requires w.players[j].team == w.players[i].team
    ensures var o, q := EncounterOutcome(w, i), w.players[j];
      && q.isIncapacitated
      && o == Outcome(w.(players := w.players[j := q.(isIncapacitated := false, incapacitatedCountdown := 0)]),
                      RevivedTeammateReward, false, Met(Revive))
  {
  }

  /**
   * A player with the mover's index, the mover's namesake on the other team
   * included, never stops the tag loop.
   */
  lemma SameIndexNeverMeets(ps: seq<Player>, i: nat, j: nat)
    requires i < |ps| && j < |ps| && ps[j].playerIdx == ps[i].playerIdx
    ensures !Triggers(ps, i, j)
    ensures FirstEncounter(ps, i, 0) != Some(j)
  {
  }

  // ---------------------------------------------------------------------------
  // `__hla_to_direction`.

  /** Some player of another index is on `team` (and incapacitated, when asked for). */
  predicate Someone(ps: seq<Player>, selfIdx: int, team: Team, incapacitatedOnly: bool)
  {
    exists j :: 0 <= j < |ps| && Eligible(ps[j], selfIdx, team, incapacitatedOnly)
  }

  /** Some player of `team` carries a flag. */
  predicate SomeCarrier(ps: seq<Player>, team: Team)
  {
    exists j :: 0 <= j < |ps| && ps[j].team == team && ps[j].hasFlag
  }

  /** The exception `__hla_to_direction` raises for `hla`, if any, stated from who is on the field. */
  function Raises(ps: seq<Player>, i: nat, hla: Hla): Option<Fault>
    requires i < |ps|
  {
    var p := ps[i];
    var noOpponent := !Someone(ps, p.playerIdx, Opponent(p.team), false);
    var noTeammate := !Someone(ps, p.playerIdx, p.team, false);
    var missing :=
      match hla
      case GoNearestOpponent => noOpponent
      case GuardTeamFlagArea => noOpponent
      case GuardOpponentFlagArea => noOpponent
      case RunAwayFromNearestOpponent => noOpponent
      case GoNearestTeammate => noTeammate
      case GuardNearestTeammate => noTeammate || noOpponent
      case GuardTeammateFlagCarrier => SomeCarrier(ps, p.team) && noOpponent
      case _ => false;
    if hla == RunAwayFromOpponentsCentroid then
      (if forall j :: 0 <= j < |ps| ==> ps[j].team != Opponent(p.team) then Some(DivisionByZero) else None)
    else if missing then Some(NoneHasNoAttribute)
    else None
  }

  /** The closest-player query finds somebody exactly when somebody qualifies. */
  lemma LastEligibleFinds(ps: seq<Player>, selfIdx: int, team: Team, incapacitatedOnly: bool)
    ensures LastEligible(ps, selfIdx, team, incapacitatedOnly).Some? <==> Someone(ps, selfIdx, team, incapacitatedOnly)
  {
    var r := LastEligible(ps, selfIdx, team, incapacitatedOnly);
    if r.Some? {
      assert Eligible(ps[r.value], selfIdx, team, incapacitatedOnly);
    }
  }

  /** The carrier search finds somebody exactly when somebody carries a flag. */
  lemma FirstCarrierFinds(ps: seq<Player>, team: Team)
    ensures FirstCarrier(ps, team, 0).Some? <==> SomeCarrier(ps, team)
  {
    var r := FirstCarrier(ps, team, 0);
    if r.Some? {
      assert ps[r.value].team == team && ps[r.value].hasFlag;
    }
  }

  /** The centroid's lists are empty exactly when nobody is on the team. */
  lemma {:induction false} TeamXsEmpty(ps: seq<Player>, team: Team)
    ensures |TeamXs(ps, team)| == 0 <==> forall j :: 0 <= j < |ps| ==> ps[j].team != team
  {
    if ps != [] {
      var n := |ps| - 1;
      TeamXsEmpty(ps[..n], team);
      assert forall j :: 0 <= j < n ==> ps[..n][j] == ps[j];
    }
  }

  /**
   * `__hla_to_direction` raises exactly when the label needs a player that is
   * not there: a nearest opponent or teammate (an AttributeError on `None`),
   * or any opponent at all for the centroid (a ZeroDivisionError); heading for
   * the opponents' flag carrier, or for the nearest incapacitated teammate,
   * draws a random key instead of raising.
   */
  lemma ActionRaises(m: VirtualMap, ps: seq<Player>, i: nat, hla: Hla, d: Draws)
    requires i < |ps|
    ensures Action(m, ps, i, hla, d).Err? <==> Raises(ps, i, hla).Some?
    ensures Action(m, ps, i, hla, d).Err? ==> Action(m, ps, i, hla, d).fault == Raises(ps, i, hla).value
  {
    var p := ps[i];
    LastEligibleFinds(ps, p.playerIdx, Opponent(p.team), false);
    LastEligibleFinds(ps, p.playerIdx, p.team, false);
    FirstCarrierFinds(ps, p.team);
    TeamXsEmpty(ps, Opponent(p.team));
    if hla != Wait && hla != Random {
      HeadingRaises(m, ps, i, hla, d);
    }
  }

  lemma HeadingRaises(m: VirtualMap, ps: seq<Player>, i: nat, hla: Hla, d: Draws)
    requires i < |ps| && hla != Wait && hla != Random
    requires var p := ps[i];
      && (LastEligible(ps, p.playerIdx, Opponent(p.team), false).Some? <==> Someone(ps, p.playerIdx, Opponent(p.team), false))
      && (LastEligible(ps, p.playerIdx, p.team, false).Some? <==> Someone(ps, p.playerIdx, p.team, false))
      && (FirstCarrier(ps, p.team, 0).Some? <==> SomeCarrier(ps, p.team))
      && (|TeamXs(ps, Opponent(p.team))| == 0 <==> forall j :: 0 <= j < |ps| ==> ps[j].team != Opponent(p.team))
    ensures match Heading(m, ps, i, hla, d)
      case Ok(_) => Raises(ps, i, hla).None?
      case Err(f) => Raises(ps, i, hla) == Some(f)
  {
  }

  /**
   * Only 'random' touches `prev_dir`: it redraws it when the roll is 1, and
   * moves in its direction. 'wait' yields the empty action; every other label
   * that does not raise yields a key.
   */
  lemma ActionKeys(m: VirtualMap, ps: seq<Player>, i: nat, hla: Hla, d: Draws)
    requires i < |ps| && Action(m, ps, i, hla, d).Ok?
    ensures var a, p := Action(m, ps, i, hla, d).value, ps[i];
      && (hla != Random ==> a.1 == p.prevDir)
      && (hla == Random ==> a.1 == (if d.roll == 1 then d.pick else p.prevDir) && a.0 == Some(a.1))
      && (a.0.None? <==> hla == Wait)
  {
  }
}
