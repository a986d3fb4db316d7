/**
 * `HighLevelPolicy` of app/high_level_policy.py: a player's percepts encoded as
 * a 9-bit high-level state, the labels available in that state, and the
 * choice of a label from a 512 x 14 utility table, either at random in
 * proportion to the shifted utilities or, in greedy mode, the empty label.
 * Utilities are exact reals; the uniform draw numpy's `random.choice` makes
 * is the parameter `u`.
 */
module Policy {
  import opened Basics
  import opened Arena

  /** `high_level_actions`, in declaration order. */
  const HighLevelActions: seq<Hla> := [
    Wait, Random, GoOpponentFlag, GoTeamFlagArea, GoOpponentFlagCarrier, GoNearestOpponent, GoNearestTeammate,
    GoNearestIncapacitatedTeammate, GuardNearestTeammate, GuardTeammateFlagCarrier, GuardTeamFlagArea,
    GuardOpponentFlagArea, RunAwayFromNearestOpponent, RunAwayFromOpponentsCentroid]

  /** Positions of the nine percepts of `high_level_states` in a high-level state. */
  const OpponentsFlagInPlay := 0
  const TeamFlagInPlay := 1
  const SelfIncapacitated := 2
  const SelfHasFlag := 3
  const SelfInEnemyTerritory := 4
  const NearestTeammateHasFlag := 5
  const NearestTeammateIncapacitated := 6
  const NearestOpponentHasFlag := 7
  const NearestOpponentIncapacitated := 8
  const StateSize := 9

  /** `2 ** StateSize` rows of the utility table, one per state code. */
  const StateCount := 512

  const Epsilon: real := 0.0000000001

  // ---------------------------------------------------------------------------
  // Lists.

  /** `list.index`: the first position of x in s, None where Python raises ValueError. */
  function IndexOf<T(==)>(s: seq<T>, x: T): (r: Option<nat>)
    ensures r.Some? ==> r.value < |s| && s[r.value] == x && forall j :: 0 <= j < r.value ==> s[j] != x
    ensures r.None? ==> x !in s
  {
    if s == [] then None
    else if s[0] == x then Some(0)
    else
      match IndexOf(s[1..], x)
      case None => None
      case Some(k) => Some(k + 1)
  }

  /** `list.remove`: drops the first occurrence of x. */
  function Remove<T(==,!new)>(s: seq<T>, x: T): (r: seq<T>)
    requires x in s
    ensures |r| == |s| - 1
    ensures forall y :: y != x ==> (y in r <==> y in s)
  {
    if s[0] == x then s[1..] else [s[0]] + Remove(s[1..], x)
  }

  /** Removing the first occurrence of x, at position i, cuts it out. */
  lemma {:induction false} RemoveFirst<T(!new)>(s: seq<T>, x: T, i: nat)
    requires i < |s| && s[i] == x && forall j :: 0 <= j < i ==> s[j] != x
    ensures Remove(s, x) == s[..i] + s[i + 1..]
  {
    if i > 0 {
      RemoveFirst(s[1..], x, i - 1);
      assert s[1..][..i - 1] == s[1..i];
      assert s[..i] == [s[0]] + s[1..i];
    }
  }

  /** `high_level_actions.index(h)`: the column of label h in the utility table. */
  function ActionIndex(h: Hla): (i: nat)
    ensures i < |HighLevelActions| && HighLevelActions[i] == h
  {
    match h
    case Wait => 0
    case Random => 1
    case GoOpponentFlag => 2
    case GoTeamFlagArea => 3
    case GoOpponentFlagCarrier => 4
    case GoNearestOpponent => 5
    case GoNearestTeammate => 6
    case GoNearestIncapacitatedTeammate => 7
    case GuardNearestTeammate => 8
    case GuardTeammateFlagCarrier => 9
    case GuardTeamFlagArea => 10
    case GuardOpponentFlagArea => 11
    case RunAwayFromNearestOpponent => 12
    case RunAwayFromOpponentsCentroid => 13
  }

  /** Position j of `high_level_actions` holds the label whose column is j. */
  lemma ColumnsListed(j: nat)
    requires j < |HighLevelActions|
    ensures ActionIndex(HighLevelActions[j]) == j
  {
    if j < 7 {
      assert j == 0 || j == 1 || j == 2 || j == 3 || j == 4 || j == 5 || j == 6;
    } else {
      assert j == 7 || j == 8 || j == 9 || j == 10 || j == 11 || j == 12 || j == 13;
    }
  }

  /** Each label is listed once, so its column is also the first position `list.index` finds. */
  lemma ActionIndexIsIndex(h: Hla)
    ensures IndexOf(HighLevelActions, h) == Some(ActionIndex(h))
  {
    var r := IndexOf(HighLevelActions, h);
    assert HighLevelActions[ActionIndex(h)] == h;
    ColumnsListed(r.value);
  }

  // ---------------------------------------------------------------------------
  // State codes.

  /** n binary digits of k, most significant first: a tuple of `itertools.product('01', repeat=n)`. */
  function Code(k: nat, n: nat): (s: seq<int>)
    ensures |s| == n && forall j :: 0 <= j < n ==> s[j] == 0 || s[j] == 1
  {
    if n == 0 then [] else Code(k / 2, n - 1) + [k % 2]
  }

  /** The number a tuple of binary digits spells, most significant first. */
  function Value(bits: seq<int>): int
  {
    if bits == [] then 0 else 2 * Value(bits[..|bits| - 1]) + bits[|bits| - 1]
  }

  function Pow2(n: nat): nat
  {
    if n == 0 then 1 else 2 * Pow2(n - 1)
  }

  predicate IsBits(s: seq<int>)
  {
    forall j :: 0 <= j < |s| ==> s[j] == 0 || s[j] == 1
  }

  /** Reading back the digits of k gives k. */
  lemma {:induction false} ValueOfCode(k: nat, n: nat)
    requires k < Pow2(n)
    ensures Value(Code(k, n)) == k
  {
    if n > 0 {
      ValueOfCode(k / 2, n - 1);
      assert Code(k, n)[..n - 1] == Code(k / 2, n - 1);
    }
  }

  /** Spelling the value of a digit tuple gives the tuple back. */
  lemma {:induction false} CodeOfValue(bits: seq<int>)
    requires IsBits(bits)
    ensures 0 <= Value(bits) < Pow2(|bits|)
    ensures Code(Value(bits), |bits|) == bits
  {
    if bits != [] {
      var n := |bits| - 1;
      CodeOfValue(bits[..n]);
      assert bits == bits[..n] + [bits[n]];
    }
  }

  /** Every n-digit tuple, in the order `itertools.product('01', repeat=n)` yields them. */
  function Codes(n: nat): (codes: seq<seq<int>>)
    ensures |codes| == Pow2(n)
  {
    seq(Pow2(n), k requires 0 <= k < Pow2(n) => Code(k, n))
  }

  /** A tuple of n digits is found in the product list at the position its value spells. */
  lemma CodeIndex(n: nat, s: seq<int>)
    requires IsBits(s) && |s| == n
    ensures IndexOf(Codes(n), s) == Some(Value(s))
  {
    CodeOfValue(s);
    var codes := Codes(n);
    assert codes[Value(s)] == s;
    var r := IndexOf(codes, s);
    if r != Some(Value(s)) {
      var k := r.value;
      assert k < Value(s) && codes[k] == s;
      ValueOfCode(k, n);
    }
  }

  /** `high_level_state_codes` without state counts: every 9-digit tuple, in product order. */
  function StateCodes(): (codes: seq<seq<int>>)
  {
    Codes(StateSize)
  }

  /** A high-level state is nine 0/1 digits. */
  predicate IsState(s: seq<int>)
  {
    |s| == StateSize && IsBits(s)
  }

  /** `high_level_state_codes.index(state)` is the binary value of the state, bit 0 most significant, a row of the table. */
  lemma StateIndex(s: seq<int>)
    requires IsState(s)
    ensures IndexOf(StateCodes(), s) == Some(Value(s))
    ensures 0 <= Value(s) < StateCount
  {
    CodeIndex(StateSize, s);
    CodeOfValue(s);
    assert Pow2(StateSize) == StateCount;
  }

  // ---------------------------------------------------------------------------
  // `get_high_level_state`

  function Bit(b: bool): int
  {
    if b then 1 else 0
  }

  /** The player's own team's flag is in play. */
  predicate OwnFlagInPlay(p: Player, w: World)
  {
    if p.team == Blue then w.blueFlagInPlay else w.redFlagInPlay
  }

  /** The opponents' flag is in play. */
  predicate OpponentsFlagIsInPlay(p: Player, w: World)
  {
    if p.team == Blue then w.redFlagInPlay else w.blueFlagInPlay
  }

  /**
   * The high-level state of player p in world w; reading `.has_flag` of a
   * missing nearest teammate or opponent raises AttributeError.
   */
  function GetHighLevelState(p: Player, w: World): Result<seq<int>>
  {
    if p.isIncapacitated then Ok(seq(StateSize, k => Bit(k == SelfIncapacitated)))
    else
      var mate := LastEligible(w.players, p.playerIdx, p.team, false);
      var opp := LastEligible(w.players, p.playerIdx, Opponent(p.team), false);
      if mate.None? || opp.None? then Err(NoneHasNoAttribute)
      else
        var t, o := w.players[mate.value], w.players[opp.value];
        Ok([Bit(OpponentsFlagIsInPlay(p, w)), Bit(OwnFlagInPlay(p, w)), 0, Bit(p.hasFlag), Bit(p.inEnemyTerritory),
            Bit(t.hasFlag), Bit(t.isIncapacitated), Bit(o.hasFlag), Bit(o.isIncapacitated)])
  }

  /** Every state is nine 0/1 digits, with `self_incapacitated` set exactly for an incapacitated player. */
  lemma StateIsBits(p: Player, w: World)
    ensures var r := GetHighLevelState(p, w);
      r.Ok? ==> IsState(r.value) && (r.value[SelfIncapacitated] == 1 <==> p.isIncapacitated)
  {
    var r := GetHighLevelState(p, w);
    if r.Ok? && p.isIncapacitated {
      assert forall k :: 0 <= k < StateSize ==> r.value[k] == Bit(k == SelfIncapacitated);
    }
  }

  /** An incapacitated player's state has `self_incapacitated` set and nothing else. */
  lemma IncapacitatedState(p: Player, w: World)
    requires p.isIncapacitated
    ensures var r := GetHighLevelState(p, w);
      r.Ok? && |r.value| == StateSize && forall k :: 0 <= k < StateSize ==> (r.value[k] == 1 <==> k == SelfIncapacitated)
  {
    var s := GetHighLevelState(p, w).value;
    forall k | 0 <= k < StateSize
      ensures s[k] == 1 <==> k == SelfIncapacitated
    {
      assert s[k] == Bit(k == SelfIncapacitated);
    }
  }

  /** For any other player the state raises exactly when there is no nearest teammate or no nearest opponent. */
  lemma StateRaises(p: Player, w: World)
    requires !p.isIncapacitated
    ensures GetHighLevelState(p, w).Err? <==>
      (forall j :: 0 <= j < |w.players| ==> !Eligible(w.players[j], p.playerIdx, p.team, false)) ||
      (forall j :: 0 <= j < |w.players| ==> !Eligible(w.players[j], p.playerIdx, Opponent(p.team), false))
  {
    var mate := LastEligible(w.players, p.playerIdx, p.team, false);
    var opp := LastEligible(w.players, p.playerIdx, Opponent(p.team), false);
    if mate.Some? {
      assert Eligible(w.players[mate.value], p.playerIdx, p.team, false);
    }
    if opp.Some? {
      assert Eligible(w.players[opp.value], p.playerIdx, Opponent(p.team), false);
    }
  }

  /**
   * Any other player's state carries the two flags' in-play booleans (the
   * opponents' flag first), the player's own flag and territory, and the flag
   * and incapacity of the nearest teammate and of the nearest opponent.
   */
  lemma StatePercepts(p: Player, w: World)
    requires !p.isIncapacitated && GetHighLevelState(p, w).Ok?
    ensures var s := GetHighLevelState(p, w).value;
      var mate := w.players[LastEligible(w.players, p.playerIdx, p.team, false).value];
      var opp := w.players[LastEligible(w.players, p.playerIdx, Opponent(p.team), false).value];
      && |s| == StateSize
      && (s[OpponentsFlagInPlay] == 1 <==> (if p.team == Blue then w.redFlagInPlay else w.blueFlagInPlay))
      && (s[TeamFlagInPlay] == 1 <==> (if p.team == Blue then w.blueFlagInPlay else w.redFlagInPlay))
      && (s[SelfHasFlag] == 1 <==> p.hasFlag)
      && (s[SelfInEnemyTerritory] == 1 <==> p.inEnemyTerritory)
      && (s[NearestTeammateHasFlag] == 1 <==> mate.hasFlag)
      && (s[NearestTeammateIncapacitated] == 1 <==> mate.isIncapacitated)
      && (s[NearestOpponentHasFlag] == 1 <==> opp.hasFlag)
      && (s[NearestOpponentIncapacitated] == 1 <==> opp.isIncapacitated)
  {
  }

  // ---------------------------------------------------------------------------
  // `get_available_hlas`

  /** The labels left after removing the three that depend on the state. */
  function BaseHlas(): seq<Hla>
  {
    Remove(Remove(Remove(HighLevelActions, GoOpponentFlagCarrier), GuardTeammateFlagCarrier), GoNearestIncapacitatedTeammate)
  }

  /** The labels available to p in world w and high-level state `state`. */
  function GetAvailableHlas(p: Player, w: World, state: seq<int>): seq<Hla>
    requires NearestTeammateIncapacitated < |state|
  {
    if p.isIncapacitated then [Wait] else BaseHlas() + StateLabels(p, w, state)
  }

  /** The state-dependent labels appended, in the order the source appends them. */
  function StateLabels(p: Player, w: World, state: seq<int>): seq<Hla>
    requires NearestTeammateIncapacitated < |state|
  {
    (if OwnFlagInPlay(p, w) then [GoOpponentFlagCarrier] else [])
    + (if OpponentsFlagIsInPlay(p, w) then [GuardTeammateFlagCarrier] else [])
    + (if state[NearestTeammateIncapacitated] == 1 then [GoNearestIncapacitatedTeammate] else [])
  }

  lemma StateLabelsDistinct(p: Player, w: World, state: seq<int>)
    requires NearestTeammateIncapacitated < |state|
    ensures var e := StateLabels(p, w, state);
      && NoDuplicates(e)
      && (forall x :: x in e ==> x == GoOpponentFlagCarrier || x == GuardTeammateFlagCarrier || x == GoNearestIncapacitatedTeammate)
      && (GoOpponentFlagCarrier in e <==> OwnFlagInPlay(p, w))
      && (GuardTeammateFlagCarrier in e <==> OpponentsFlagIsInPlay(p, w))
      && (GoNearestIncapacitatedTeammate in e <==> state[NearestTeammateIncapacitated] == 1)
  {
  }

  /** The eleven labels every live player may choose, in declaration order. */
  const LiveLabels: seq<Hla> := [
    Wait, Random, GoOpponentFlag, GoTeamFlagArea, GoNearestOpponent, GoNearestTeammate,
    GuardNearestTeammate, GuardTeamFlagArea, GuardOpponentFlagArea,
    RunAwayFromNearestOpponent, RunAwayFromOpponentsCentroid]

  const WithoutCarrierChase: seq<Hla> := [
    Wait, Random, GoOpponentFlag, GoTeamFlagArea, GoNearestOpponent, GoNearestTeammate,
    GoNearestIncapacitatedTeammate, GuardNearestTeammate, GuardTeammateFlagCarrier, GuardTeamFlagArea,
    GuardOpponentFlagArea, RunAwayFromNearestOpponent, RunAwayFromOpponentsCentroid]

  const WithoutCarrierGuard: seq<Hla> := [
    Wait, Random, GoOpponentFlag, GoTeamFlagArea, GoNearestOpponent, GoNearestTeammate,
    GoNearestIncapacitatedTeammate, GuardNearestTeammate, GuardTeamFlagArea,
    GuardOpponentFlagArea, RunAwayFromNearestOpponent, RunAwayFromOpponentsCentroid]

  lemma RemoveCarrierChase()
    ensures Remove(HighLevelActions, GoOpponentFlagCarrier) == WithoutCarrierChase
  {
    RemoveFirst(HighLevelActions, GoOpponentFlagCarrier, 4);
  }

  lemma RemoveCarrierGuard()
    ensures Remove(WithoutCarrierChase, GuardTeammateFlagCarrier) == WithoutCarrierGuard
  {
    RemoveFirst(WithoutCarrierChase, GuardTeammateFlagCarrier, 8);
  }

  lemma RemoveRevive()
    ensures Remove(WithoutCarrierGuard, GoNearestIncapacitatedTeammate) == LiveLabels
  {
    RemoveFirst(WithoutCarrierGuard, GoNearestIncapacitatedTeammate, 6);
  }

  /** Removing the three state-dependent labels leaves the eleven live labels in declaration order. */
  lemma BaseHlasListed()
    ensures BaseHlas() == LiveLabels
  {
    RemoveCarrierChase();
    RemoveCarrierGuard();
    RemoveRevive();
  }

  /** The eleven live labels are distinct and none of them is state-dependent. */
  lemma LiveLabelsDistinct()
    ensures NoDuplicates(LiveLabels)
    ensures GoOpponentFlagCarrier !in LiveLabels && GuardTeammateFlagCarrier !in LiveLabels
    ensures GoNearestIncapacitatedTeammate !in LiveLabels
  {
  }

  /**
   * An incapacitated player may only wait. Any other player gets the eleven
   * live labels in declaration order, then chasing the opponents' flag
   * carrier exactly when its own flag is in play, guarding its teammate
   * carrying the flag exactly when the opponents' flag is in play, and
   * reviving the nearest teammate exactly when the state says that teammate
   * is incapacitated; no label appears twice.
   */
  lemma AvailableHlas(p: Player, w: World, state: seq<int>)
    requires NearestTeammateIncapacitated < |state|
    ensures var r := GetAvailableHlas(p, w, state);
      && NoDuplicates(r) && Wait in r
      && (p.isIncapacitated ==> r == [Wait])
      && (!p.isIncapacitated ==>
            && r[..|LiveLabels|] == LiveLabels
            && (GoOpponentFlagCarrier in r <==> OwnFlagInPlay(p, w))
            && (GuardTeammateFlagCarrier in r <==> OpponentsFlagIsInPlay(p, w))
            && (GoNearestIncapacitatedTeammate in r <==> state[NearestTeammateIncapacitated] == 1))
  {
    if !p.isIncapacitated {
      LiveHlasDistinct(p, w, state);
      LiveHlasMembers(p, w, state);
    }
  }

  lemma LiveHlasDistinct(p: Player, w: World, state: seq<int>)
    requires NearestTeammateIncapacitated < |state| && !p.isIncapacitated
    ensures var r := GetAvailableHlas(p, w, state);
      NoDuplicates(r) && Wait in r && r[..|LiveLabels|] == LiveLabels
  {
    BaseHlasListed();
    LiveLabelsDistinct();
    StateLabelsDistinct(p, w, state);
    var e := StateLabels(p, w, state);
    Disjoint(LiveLabels, e);
    assert (LiveLabels + e)[..|LiveLabels|] == LiveLabels;
    assert (LiveLabels + e)[0] == Wait;
  }

  lemma LiveHlasMembers(p: Player, w: World, state: seq<int>)
    requires NearestTeammateIncapacitated < |state| && !p.isIncapacitated
    ensures var r := GetAvailableHlas(p, w, state);
      && (GoOpponentFlagCarrier in r <==> OwnFlagInPlay(p, w))
      && (GuardTeammateFlagCarrier in r <==> OpponentsFlagIsInPlay(p, w))
      && (GoNearestIncapacitatedTeammate in r <==> state[NearestTeammateIncapacitated] == 1)
  {
    BaseHlasListed();
    LiveLabelsDistinct();
    StateLabelsDistinct(p, w, state);
  }

  /** Two lists without duplicates and without common elements concatenate to one without duplicates. */
  lemma Disjoint<T>(a: seq<T>, b: seq<T>)
    requires NoDuplicates(a) && NoDuplicates(b) && forall x :: x in b ==> x !in a
    ensures NoDuplicates(a + b)
  {
    forall i, j | 0 <= i < j < |a + b|
      ensures (a + b)[i] != (a + b)[j]
    {
      if i < |a| && j >= |a| {
        assert b[j - |a|] in b;
      }
    }
  }

  // ---------------------------------------------------------------------------
  // `get_high_level_action`

  /** A table with one row of fourteen utilities per state code. */
  predicate TableShape(q: seq<seq<real>>)
  {
    |q| == StateCount && forall r :: 0 <= r < |q| ==> |q[r]| == |HighLevelActions|
  }

  /** `np.zeros((512, 14))`. */
  function Zeros(): (q: seq<seq<real>>)
    ensures TableShape(q)
  {
    seq(StateCount, _ => seq(|HighLevelActions|, _ => 0.0))
  }

  /** The utilities of `hlas`, in order, read from one row of the table. */
  function Utilities(row: seq<real>, hlas: seq<Hla>): (us: seq<real>)
    requires |row| == |HighLevelActions|
    ensures |us| == |hlas| && forall k :: 0 <= k < |hlas| ==> us[k] == row[ActionIndex(hlas[k])]
  {
    seq(|hlas|, k requires 0 <= k < |hlas| => row[ActionIndex(hlas[k])])
  }

  /** A list holding the row's entry for each label, in order, is `Utilities`. */
  lemma UtilitiesOf(row: seq<real>, hlas: seq<Hla>, us: seq<real>)
    requires |row| == |HighLevelActions| && |us| == |hlas|
    requires forall k :: 0 <= k < |hlas| ==> us[k] == row[ActionIndex(hlas[k])]
    ensures us == Utilities(row, hlas)
  {
  }

  function SumR(s: seq<real>): real
  {
    if s == [] then 0.0 else SumR(s[..|s| - 1]) + s[|s| - 1]
  }

  /** `min` of a non-empty list. */
  function MinOf(s: seq<real>): (m: real)
    requires s != []
    ensures m in s && forall k :: 0 <= k < |s| ==> m <= s[k]
  {
    if |s| == 1 then s[0]
    else
      var m := MinOf(s[..|s| - 1]);
      assert forall k :: 0 <= k < |s| - 1 ==> s[..|s| - 1][k] == s[k];
      if s[|s| - 1] < m then s[|s| - 1] else m
  }

  /** The utilities shifted to `v - min + epsilon`. */
  function Weights(us: seq<real>): (ws: seq<real>)
    requires us != []
    ensures |ws| == |us|
  {
    var m := MinOf(us);
    seq(|us|, k requires 0 <= k < |us| => us[k] - m + Epsilon)
  }

  /** `[v / scale for v in ...]` with `scale` the sum of the weights. */
  function Probabilities(ws: seq<real>): (ps: seq<real>)
    requires SumR(ws) > 0.0
    ensures |ps| == |ws|
  {
    var scale := SumR(ws);
    seq(|ws|, k requires 0 <= k < |ws| => ws[k] / scale)
  }

  /** Every shifted utility is positive, the least is exactly epsilon, and the order of utilities is kept. */
  lemma WeightsPositive(us: seq<real>)
    requires us != []
    ensures var ws := Weights(us);
      && (forall k :: 0 <= k < |ws| ==> ws[k] >= Epsilon)
      && (exists k :: 0 <= k < |ws| && ws[k] == Epsilon)
      && forall a, b :: 0 <= a < |us| && 0 <= b < |us| ==> (ws[a] <= ws[b] <==> us[a] <= us[b])
  {
    var m := MinOf(us);
    var k :| 0 <= k < |us| && us[k] == m;
    assert Weights(us)[k] == Epsilon;
  }

  lemma {:induction false} SumPositive(s: seq<real>)
    requires s != [] && forall k :: 0 <= k < |s| ==> s[k] > 0.0
    ensures SumR(s) > 0.0
  {
    if |s| > 1 {
      SumPositive(s[..|s| - 1]);
    }
  }

  lemma {:induction false} SumScaled(s: seq<real>, t: seq<real>, c: real)
    requires c > 0.0 && |t| == |s| && forall k :: 0 <= k < |s| ==> t[k] == s[k] / c
    ensures SumR(t) == SumR(s) / c
  {
    if s != [] {
      var n := |s| - 1;
      SumScaled(s[..n], t[..n], c);
    }
  }

  /** The sum of the first k probabilities: numpy's cumulative distribution. */
  function Cum(ps: seq<real>, k: nat): real
    requires k <= |ps|
  {
    SumR(ps[..k])
  }

  lemma CumStep(ps: seq<real>, k: nat)
    requires k < |ps|
    ensures Cum(ps, k + 1) == Cum(ps, k) + ps[k]
  {
    assert ps[..k + 1][..k] == ps[..k];
  }

  lemma {:induction false} CumMonotone(ps: seq<real>, a: nat, b: nat)
    requires a <= b <= |ps| && forall k :: 0 <= k < |ps| ==> ps[k] >= 0.0
    ensures Cum(ps, a) <= Cum(ps, b)
  {
    if a < b {
      CumStep(ps, b - 1);
      CumMonotone(ps, a, b - 1);
    }
  }

  /** A probability vector: non-negative entries summing to one. */
  predicate Distribution(ps: seq<real>)
  {
    ps != [] && (forall k :: 0 <= k < |ps| ==> ps[k] >= 0.0) && SumR(ps) == 1.0
  }

  /** The probabilities of positive weights form a distribution. */
  lemma ProbabilitiesOfWeights(ws: seq<real>)
    requires ws != [] && forall k :: 0 <= k < |ws| ==> ws[k] > 0.0
    ensures SumR(ws) > 0.0
    ensures Distribution(Probabilities(ws))
  {
    SumPositive(ws);
    var scale := SumR(ws);
    var ps := Probabilities(ws);
    forall k | 0 <= k < |ws|
      ensures ps[k] >= 0.0
    {
      Scale(ws[k], scale, ps[k]);
    }
    SumScaled(ws, ps, scale);
    Scale(scale, scale, SumR(ps));
  }

  lemma Scale(a: real, c: real, b: real)
    requires a >= 0.0 && c > 0.0 && b == a / c
    ensures b >= 0.0 && (a == c ==> b == 1.0)
  {
  }

  /**
   * `np.random.choice(len(ps), p=ps)` with the uniform draw u: the first
   * position whose cumulative probability exceeds u.
   */
  function Sample(ps: seq<real>, u: real): (k: nat)
    requires Distribution(ps) && 0.0 <= u < 1.0
    ensures k < |ps| && Cum(ps, k) <= u < Cum(ps, k + 1)
  {
    assert ps[..|ps|] == ps;
    SampleFrom(ps, u, 0)
  }

  function SampleFrom(ps: seq<real>, u: real, k: nat): (r: nat)
    requires k < |ps| && Cum(ps, k) <= u < Cum(ps, |ps|)
    requires forall j :: 0 <= j < |ps| ==> ps[j] >= 0.0
    decreases |ps| - k
    ensures k <= r < |ps| && Cum(ps, r) <= u < Cum(ps, r + 1)
  {
    if u < Cum(ps, k + 1) then k else SampleFrom(ps, u, k + 1)
  }

  /**
   * The draw picks position k exactly when u falls in [Cum(k), Cum(k + 1)),
   * an interval as long as the k-th probability: a uniform u picks each
   * position with its probability.
   */
  lemma SampleInterval(ps: seq<real>, u: real, k: nat)
    requires Distribution(ps) && 0.0 <= u < 1.0 && k < |ps|
    ensures Sample(ps, u) == k <==> Cum(ps, k) <= u < Cum(ps, k + 1)
    ensures Cum(ps, k + 1) - Cum(ps, k) == ps[k]
  {
    CumStep(ps, k);
    var r := Sample(ps, u);
    if r < k {
      CumMonotone(ps, r + 1, k);
    } else if r > k {
      CumMonotone(ps, k + 1, r);
    }
  }

  /** The label the probabilistic mode picks for draw u among `hlas` with utilities `us`. */
  function Pick(hlas: seq<Hla>, us: seq<real>, u: real): (h: Hla)
    requires hlas != [] && |us| == |hlas| && 0.0 <= u < 1.0
    ensures h in hlas
  {
    var ws := Weights(us);
    WeightsPositive(us);
    ProbabilitiesOfWeights(ws);
    hlas[Sample(Probabilities(ws), u)]
  }

  /**
   * What `get_high_level_action` returns for p in world w with table q: the
   * empty label (None) in greedy mode, the label drawn with u otherwise; the
   * exception of `get_high_level_state` when that raises.
   */
  function Decide(p: Player, w: World, q: seq<seq<real>>, withProbability: bool, u: real): Result<Option<Hla>>
    requires TableShape(q) && 0.0 <= u < 1.0 && !p.isIncapacitated
  {
    match GetHighLevelState(p, w)
    case Err(f) => Err(f)
    case Ok(state) =>
      StateIsBits(p, w);
      StateIndex(state);
      var hlas := GetAvailableHlas(p, w, state);
      AvailableHlas(p, w, state);
      if withProbability then Ok(Some(Pick(hlas, Utilities(q[Value(state)], hlas), u))) else Ok(None)
  }

  /**
   * The label chosen for a live player is, in probabilistic mode, one of the
   * labels available to it; greedy mode yields the empty label.
   */
  lemma DecideAvailable(p: Player, w: World, q: seq<seq<real>>, withProbability: bool, u: real)
    requires TableShape(q) && 0.0 <= u < 1.0 && !p.isIncapacitated
    ensures var r := Decide(p, w, q, withProbability, u);
      && (r.Err? <==> GetHighLevelState(p, w).Err?)
      && (r.Ok? ==>
            && (r.value.None? <==> !withProbability)
            && (r.value.Some? ==> r.value.value in GetAvailableHlas(p, w, GetHighLevelState(p, w).value)))
  {
  }

  /** A live player's decision once its state is known. */
  lemma DecideFromState(p: Player, w: World, q: seq<seq<real>>, withProbability: bool, u: real, state: seq<int>)
    requires TableShape(q) && 0.0 <= u < 1.0 && !p.isIncapacitated && GetHighLevelState(p, w) == Ok(state)
    ensures IsState(state) && 0 <= Value(state) < StateCount && IndexOf(StateCodes(), state) == Some(Value(state))
    ensures var hlas := GetAvailableHlas(p, w, state);
      && hlas != []
      && Decide(p, w, q, withProbability, u) ==
           if withProbability then Ok(Some(Pick(hlas, Utilities(q[Value(state)], hlas), u))) else Ok(None)
  {
    StateIsBits(p, w);
    StateIndex(state);
    AvailableHlas(p, w, state);
  }

  class HighLevelPolicy {
    const epsilon: real
    const highLevelActions: seq<Hla>
    const highLevelStateCodes: seq<seq<int>>
    const q: seq<seq<real>>
    /** The last label chosen; None is the empty label of greedy mode. */
    var prevHla: Option<Hla>

    /** The policy's constants are the ones of its declaration. */
    ghost predicate Valid()
    {
      epsilon == Epsilon && highLevelActions == HighLevelActions && highLevelStateCodes == StateCodes() && TableShape(q)
    }

    /** A policy with the table `table`, or an all-zero table when none is given. */
    constructor (table: Option<seq<seq<real>>>)
      requires table.Some? ==> TableShape(table.value)
      ensures Valid()
      ensures q == (if table.Some? then table.value else Zeros())
      ensures prevHla == Some(Random)
    {
      epsilon := Epsilon;
      highLevelActions := HighLevelActions;
      highLevelStateCodes := StateCodes();
      q := if table.Some? then table.value else Zeros();
      prevHla := Some(Random);
    }

    /** The utilities loop of `get_high_level_action`: the row's entry for each label, in order. */
    method ActionUtilities(row: seq<real>, hlas: seq<Hla>) returns (actionUtilities: seq<real>)
      requires |row| == |HighLevelActions|
      ensures |actionUtilities| == |hlas|
      ensures forall k :: 0 <= k < |hlas| ==> actionUtilities[k] == row[ActionIndex(hlas[k])]
    {
      actionUtilities := [];
      for k := 0 to |hlas|
        invariant |actionUtilities| == k
        invariant forall j :: 0 <= j < k ==> actionUtilities[j] == row[ActionIndex(hlas[j])]
      {
        var actionIdx := ActionIndex(hlas[k]);
        actionUtilities := actionUtilities + [row[actionIdx]];
      }
    }

    /**
     * `get_high_level_action(player, the_map, with_probability)` with u the
     * uniform draw of numpy's sampler: 'wait' for an incapacitated player,
     * leaving `prev_hla` alone; otherwise the label `Decide` states, which
     * becomes `prev_hla`.
     */
    method GetHighLevelAction(player: Player, theMap: VirtualMap, withProbability: bool, u: real)
      returns (r: Result<Option<Hla>>)
      requires Valid() && 0.0 <= u < 1.0
      modifies this
      ensures player.isIncapacitated ==> r == Ok(Some(Wait)) && prevHla == old(prevHla)
      ensures !player.isIncapacitated ==> r == Decide(player, theMap.State(), q, withProbability, u)
      ensures !player.isIncapacitated && r.Err? ==> prevHla == old(prevHla)
      ensures !player.isIncapacitated && r.Ok? ==> prevHla == r.value
    {
      if player.isIncapacitated {
        return Ok(Some(Wait));
      }
      var w := theMap.State();
      r := Choose(player, w, withProbability, u);
      if r.Ok? {
        prevHla := r.value;
      }
      assert w == theMap.State();
    }

    /** The body of `get_high_level_action` after the incapacitation check, up to updating `prev_hla`. */
    method Choose(player: Player, w: World, withProbability: bool, u: real) returns (r: Result<Option<Hla>>)
      requires Valid() && 0.0 <= u < 1.0 && !player.isIncapacitated
      ensures r == Decide(player, w, q, withProbability, u)
    {
      var highLevelState := GetHighLevelState(player, w);
      if highLevelState.Err? {
        return Err(highLevelState.fault);
      }
      var state := highLevelState.value;
      DecideFromState(player, w, q, withProbability, u, state);
      var stateIdx := IndexOf(highLevelStateCodes, state).value;

      var hlas := GetAvailableHlas(player, w, state);
      var actionUtilities := ActionUtilities(q[stateIdx], hlas);
      UtilitiesOf(q[stateIdx], hlas, actionUtilities);

      var hla: Option<Hla>;
      if withProbability {
        hla := Some(Pick(hlas, actionUtilities, u));
      } else {
        hla := None;
      }
      return Ok(hla);
    }
  }
}
