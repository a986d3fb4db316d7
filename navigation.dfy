/**
 * The tile-level path searches of app/navigation.py: A*, breadth-first and
 * depth-first search from the tile under one pixel position to the tile under
 * another, over the four neighbours of a tile, with a map from each reached
 * (tile, move) pair to the pair it was reached from, and the walk back through
 * that map that turns the goal into a list of moves.
 *
 * Tiles are (column, row) pairs as in the source. Impassable tiles are not
 * excluded: they are successors with a huge step cost, so every tile of the
 * grid is reachable and a search comes back empty exactly when the goal lies
 * outside the grid.
 */
module Search {
  import opened Basics
  import opened MapGeometry
  import opened OpenLists

  /** A tile as (column, row). */
  type Tile = (int, int)

  /** A search state: a tile and the move that reached it (`None` for the start). */
  type Item = (Tile, Option<Key>)

  /** `successor_to_parent_map`: each reached item to the item it was reached from. */
  type ParentMap = map<Item, Option<Item>>

  /** The cost the source gives a step onto an impassable tile (1e10). */
  const Barrier: int := 10_000_000_000

  predicate OnGrid(g: Grid, t: Tile)
  {
    InGrid(g, t.1, t.0)
  }

  /** The cost of stepping onto a tile: its speed, or the barrier cost when the speed is 0. */
  function StepCost(g: Grid, t: Tile): int
    requires OnGrid(g, t)
  {
    if SpeedAt(g, t.1, t.0) == 0 then Barrier else SpeedAt(g, t.1, t.0)
  }

  /** The order in which successors are generated: north, south, east, west. */
  function KeyRank(k: Key): nat
  {
    match k
    case W => 0
    case S => 1
    case D => 2
    case A => 3
  }

  function SquaredDistance(a: Tile, b: Tile): nat
  {
    (b.0 - a.0) * (b.0 - a.0) + (b.1 - a.1) * (b.1 - a.1)
  }

  /** A successor lies at squared distance 1 from the tile it was generated from. */
  lemma SuccessorAtUnitDistance(t: Tile, k: Key)
    ensures SquaredDistance(t, Shift(t, k)) == 1
  {
  }

  /**
   * `__cartesian_distance`, the square root of the squared distance, for the
   * only distances the searches ask about: 0 and 1.
   */
  function CartesianDistance(a: Tile, b: Tile): (d: nat)
    requires SquaredDistance(a, b) <= 1
    ensures d * d == SquaredDistance(a, b)
  {
    SquaredDistance(a, b)
  }

  /** The tile reached from `from` by carrying out the moves of a path; a `None` entry does not move. */
  function Replay(from: Tile, path: seq<Option<Key>>): Tile
    decreases |path|
  {
    if path == [] then from
    else Replay(if path[0].Some? then Shift(from, path[0].value) else from, path[1..])
  }

  // ---------------------------------------------------------------------------
  // What the searches keep true of the parent map and of their open and closed lists.

  /**
   * The start item maps to `None`, every other key to the item one move back
   * along its own move, with a ghost rank that strictly decreases towards the
   * start, so walking back always ends.
   */
  ghost predicate ParentMapOk(pm: ParentMap, rank: map<Item, nat>, start: Tile)
  {
    && (start, None) in pm && pm[(start, None)] == None
    && (forall k :: k in pm ==> k in rank)
    && (forall k :: k in pm && pm[k] == None ==> k == (start, None))
    && (forall k :: k in pm && pm[k].Some? ==>
          && k.1.Some?
          && pm[k].value in pm
          && Shift(pm[k].value.0, k.1.value) == k.0
          && rank[pm[k].value] < rank[k])
  }

  /**
   * The moves that walking back from `parent` collects: those of its
   * ancestors first, then its own move when it has one.
   */
  ghost function Back(pm: ParentMap, rank: map<Item, nat>, start: Tile, parent: Option<Item>): seq<Option<Key>>
    requires ParentMapOk(pm, rank, start) && (parent.Some? ==> parent.value in pm)
    decreases if parent.Some? then rank[parent.value] + 1 else 0
  {
    if parent.None? then []
    else
      var p := parent.value;
      Back(pm, rank, start, pm[p]) + (if p.1.Some? then [p.1] else [])
  }

  /** The path `__get_action_path` returns for `goal`: the moves collected walking back, then the goal's own move. */
  ghost function ActionPath(pm: ParentMap, rank: map<Item, nat>, start: Tile, goal: Item): seq<Option<Key>>
    requires ParentMapOk(pm, rank, start) && goal in pm
  {
    Back(pm, rank, start, pm[goal]) + [goal.1]
  }

  /** Every key's tile is on the grid and every parent's tile is among `parents`. */
  ghost predicate KeysPlaced(g: Grid, pm: ParentMap, parents: seq<Tile>)
  {
    && (forall k :: k in pm ==> OnGrid(g, k.0))
    && (forall k :: k in pm && pm[k].Some? ==> pm[k].value.0 in parents)
  }

  /** Open items lie on the grid; those on tiles not yet closed are keys of the parent map; only the start item has no move. */
  ghost predicate OpenOk(g: Grid, start: Tile, items: seq<Item>, closed: seq<Tile>, pm: ParentMap)
  {
    forall x :: x in items ==>
      && OnGrid(g, x.0)
      && (x.0 !in closed ==> x in pm)
      && (x.1 == None ==> x.0 == start)
  }

  /** Every entry of the queue has priority 0, as breadth-first search keeps it. */
  predicate ZeroPriorities(q: seq<(Item, int)>)
  {
    forall j :: 0 <= j < |q| ==> q[j].1 == 0
  }

  /** With every priority 0 the queue pops its first entry, and what remains still has priority 0 throughout. */
  lemma PopFirstInFirstOut(q: seq<(Item, int)>)
    requires q != [] && ZeroPriorities(q)
    ensures PopIndex(q) == 0 && ZeroPriorities(RemoveAt(q, 0))
  {
    EqualPrioritiesPopFirst(q, 0);
    RemoveKeepsEqualPriorities(q, 0, 0);
  }

  ghost function TilesOf(items: seq<Item>): set<Tile>
  {
    set x | x in items :: x.0
  }

  /** Every on-grid neighbour of a tile in `done` is closed or waiting in the open list. */
  ghost predicate Frontier(g: Grid, done: seq<Tile>, closed: seq<Tile>, items: seq<Item>)
  {
    forall t, k :: t in done && OnGrid(g, Shift(t, k)) ==>
      Shift(t, k) in closed || Shift(t, k) in TilesOf(items)
  }

  ghost predicate SearchOk(g: Grid, start: Tile, goal: Tile, items: seq<Item>, closed: seq<Tile>,
                           pm: ParentMap, rank: map<Item, nat>)
  {
    && ParentMapOk(pm, rank, start)
    && KeysPlaced(g, pm, closed)
    && OpenOk(g, start, items, closed, pm)
    && (forall t :: t in closed ==> OnGrid(g, t))
    && Frontier(g, closed, closed, items)
    && (start in closed || start in TilesOf(items))
    && goal !in closed
  }

  ghost function AllTiles(g: Grid): set<Tile>
  {
    set c, r | 0 <= c < Cols(g) && 0 <= r < Rows(g) :: (c, r)
  }

  ghost function ClosedSet(closed: seq<Tile>): set<Tile>
  {
    set t | t in closed
  }

  lemma TilesGrow(a: seq<Item>, b: seq<Item>)
    requires Includes(a, b)
    ensures TilesOf(a) <= TilesOf(b)
  {
  }

  /**
   * Taking the i-th item out of the open list keeps the open items sound and
   * every closed tile's neighbours covered once the popped tile is closed too.
   */
  lemma PopKeepsSearch(g: Grid, start: Tile, goal: Tile, items: seq<Item>, closed: seq<Tile>,
                       pm: ParentMap, rank: map<Item, nat>, i: nat)
    requires i < |items| && SearchOk(g, start, goal, items, closed, pm, rank)
    ensures OpenOk(g, start, RemoveAt(items, i), closed, pm)
    ensures Frontier(g, closed, closed + [items[i].0], RemoveAt(items, i))
    ensures start in closed + [items[i].0] || start in TilesOf(RemoveAt(items, i))
  {
    var rest := RemoveAt(items, i);
    forall x | x in rest
      ensures x in items
    {
      var j :| 0 <= j < |rest| && rest[j] == x;
      assert x == items[if j < i then j else j + 1];
    }
    forall t | t in TilesOf(items) && t != items[i].0
      ensures t in TilesOf(rest)
    {
      var j :| 0 <= j < |items| && items[j].0 == t;
      assert rest[if j < i then j else j - 1] == items[j];
    }
  }

  /** Pushing an on-grid item with a move, recorded in the parent map unless its tile is closed, keeps the open items sound. */
  lemma PushKeepsOpen(g: Grid, start: Tile, items: seq<Item>, closed: seq<Tile>, pm: ParentMap, x: Item)
    requires OpenOk(g, start, items, closed, pm)
    requires OnGrid(g, x.0) && x.1.Some? && (x.0 !in closed ==> x in pm)
    ensures OpenOk(g, start, items + [x], closed, pm)
    ensures forall y :: y in items + [x] <==> y in items || y == x
  {
  }

  /** Queueing such an item, at any priority, does the same. */
  lemma QueueKeepsOpen(g: Grid, start: Tile, q: seq<(Item, int)>, closed: seq<Tile>, pm: ParentMap, x: Item, prio: int)
    requires OpenOk(g, start, Entries(q), closed, pm)
    requires OnGrid(g, x.0) && x.1.Some? && (x.0 !in closed ==> x in pm)
    ensures OpenOk(g, start, Entries(Update(q, x, prio)), closed, pm)
    ensures forall y :: y in Entries(Update(q, x, prio)) <==> y in Entries(q) || y == x
  {
  }

  /** Once every on-grid neighbour of the expanded tile is open, it can join the closed tiles. */
  lemma ExpandKeepsSearch(g: Grid, start: Tile, goal: Tile, popped: seq<Item>, items: seq<Item>, closed: seq<Tile>,
                          pm: ParentMap, rank: map<Item, nat>, cur: Tile)
    requires OnGrid(g, cur) && cur != goal && goal !in closed && forall t :: t in closed ==> OnGrid(g, t)
    requires ParentMapOk(pm, rank, start) && KeysPlaced(g, pm, closed + [cur])
    requires OpenOk(g, start, items, closed, pm)
    requires Frontier(g, closed, closed + [cur], popped)
    requires start in closed + [cur] || start in TilesOf(popped)
    requires TilesOf(popped) <= TilesOf(items)
    requires forall k :: OnGrid(g, Shift(cur, k)) ==> Shift(cur, k) in TilesOf(items)
    ensures SearchOk(g, start, goal, items, closed + [cur], pm, rank)
  {
  }

  /** A popped tile that was already closed may be closed again without changing anything. */
  lemma RevisitKeepsSearch(g: Grid, start: Tile, goal: Tile, items: seq<Item>, closed: seq<Tile>,
                           pm: ParentMap, rank: map<Item, nat>, cur: Tile)
    requires cur in closed && cur != goal && goal !in closed && forall t :: t in closed ==> OnGrid(g, t)
    requires ParentMapOk(pm, rank, start) && KeysPlaced(g, pm, closed)
    requires OpenOk(g, start, items, closed, pm)
    requires Frontier(g, closed, closed + [cur], items)
    requires start in closed + [cur] || start in TilesOf(items)
    ensures SearchOk(g, start, goal, items, closed + [cur], pm, rank)
    ensures ClosedSet(closed + [cur]) == ClosedSet(closed)
  {
  }

  /**
   * A set of tiles that holds the start and every on-grid neighbour of each of
   * its tiles holds every tile of the grid: walk along the row, then along the
   * column.
   */
  lemma {:induction false} FrontierCoversGrid(g: Grid, closed: seq<Tile>, from: Tile, t: Tile)
    requires from in closed && OnGrid(g, from) && OnGrid(g, t)
    requires Frontier(g, closed, closed, [])
    ensures t in closed
    decreases Manhattan(from, t)
  {
    if from != t {
      var k := if from.0 < t.0 then D else if from.0 > t.0 then A else if from.1 < t.1 then S else W;
      var next := Shift(from, k);
      assert OnGrid(g, next);
      assert next in closed || next in TilesOf([]);
      FrontierCoversGrid(g, closed, next, t);
    }
  }

  /** The search starts with only the start item open, as its own parent-map root, and nothing closed. */
  lemma StartSearch(g: Grid, start: Tile, goal: Tile)
    requires OnGrid(g, start)
    ensures var open: seq<(Item, int)> := Update([], (start, None), 0);
      && SearchOk(g, start, goal, Entries(open), [], map[(start, None) := None], map[(start, None) := 0])
      && Entries(open) == [(start, None)] && ZeroPriorities(open)
  {
    var open: seq<(Item, int)> := Update([], (start, None), 0);
    var root: Item := (start, None);
    assert open == [(root, 0)];
    assert Entries(open) == [root];
  }

  /** An emptied open list has closed every on-grid tile reachable from the start, the goal included when it is on the grid. */
  lemma EndSearch(g: Grid, start: Tile, goal: Tile, closed: seq<Tile>, pm: ParentMap, rank: map<Item, nat>,
                  expanded: seq<Tile>)
    requires SearchOk(g, start, goal, [], closed, pm, rank)
    requires ClosedSet(expanded) == ClosedSet(closed)
    ensures !OnGrid(g, goal)
    ensures goal !in expanded && forall t :: t in expanded ==> OnGrid(g, t)
  {
    if OnGrid(g, goal) {
      FrontierCoversGrid(g, closed, start, goal);
    }
    ExpandedAreClosed(g, expanded, closed, goal);
  }

  /** A tile not yet closed has not been expanded, so expanding it keeps the expanded tiles distinct. */
  lemma ExpandOnce(expanded: seq<Tile>, closed: seq<Tile>, cur: Tile)
    requires ClosedSet(expanded) == ClosedSet(closed) && NoDuplicates(expanded) && cur !in closed
    ensures ClosedSet(expanded + [cur]) == ClosedSet(closed + [cur]) && NoDuplicates(expanded + [cur])
  {
    assert cur !in ClosedSet(expanded);
    assert ClosedSet(expanded + [cur]) == ClosedSet(expanded) + {cur};
    assert ClosedSet(closed + [cur]) == ClosedSet(closed) + {cur};
    var e := expanded + [cur];
    forall i, j | 0 <= i < j < |e|
      ensures e[i] != e[j]
    {
      if j == |expanded| {
        assert e[i] in ClosedSet(expanded);
      }
    }
  }

  /** The expanded tiles are the closed ones, so they lie on the grid and the goal is not among them. */
  lemma ExpandedAreClosed(g: Grid, expanded: seq<Tile>, closed: seq<Tile>, goal: Tile)
    requires ClosedSet(expanded) == ClosedSet(closed) && goal !in closed
    requires forall t :: t in closed ==> OnGrid(g, t)
    ensures goal !in expanded && forall t :: t in expanded ==> OnGrid(g, t)
  {
    assert goal !in ClosedSet(expanded);
    forall t | t in expanded
      ensures OnGrid(g, t)
    {
      assert t in ClosedSet(expanded);
    }
  }

  /** The closed tiles stay within the grid's tiles, and closing a new one shrinks what is left. */
  lemma CloseShrinksRemaining(g: Grid, closed: seq<Tile>, cur: Tile)
    requires OnGrid(g, cur) && cur !in closed
    ensures AllTiles(g) - ClosedSet(closed + [cur]) < AllTiles(g) - ClosedSet(closed)
  {
    assert cur in AllTiles(g) - ClosedSet(closed);
  }

  /**
   * The parent-map update for one successor item `x` of the expanded item
   * `cur`: recorded when its tile is not closed, skipped otherwise. Either way
   * the parent map stays sound and the open items stay keys.
   */
  lemma RecordStep(g: Grid, start: Tile, items: seq<Item>, closed: seq<Tile>, pm: ParentMap, rank: map<Item, nat>,
                   cur: Item, x: Item)
    requires ParentMapOk(pm, rank, start) && KeysPlaced(g, pm, closed + [cur.0]) && cur in pm
    requires OpenOk(g, start, items, closed, pm)
    requires x.1.Some? && OnGrid(g, x.0) && x.0 == Shift(cur.0, x.1.value)
    ensures var pm', rank' := Recorded(pm, closed, cur, x), RankAfter(rank, closed, cur, x);
      && ParentMapOk(pm', rank', start) && KeysPlaced(g, pm', closed + [cur.0]) && cur in pm'
      && OpenOk(g, start, items, closed, pm')
      && (x.0 !in closed ==> x in pm')
  {
    if x.0 !in closed {
      var pm', rank' := pm[x := Some(cur)], rank[x := rank[cur] + 1];
      assert x.0 != cur.0;
      forall y | y in pm' && pm'[y].Some?
        ensures rank'[pm'[y].value] < rank'[y]
      {
        if y != x {
          assert pm'[y].value.0 in closed + [cur.0];
          assert pm'[y].value != x;
        }
      }
    }
  }

  /** The parent map after the update for successor item `x` of `cur`. */
  function Recorded(pm: ParentMap, closed: seq<Tile>, cur: Item, x: Item): ParentMap
  {
    if x.0 !in closed then pm[x := Some(cur)] else pm
  }

  /** The parent-map update of the search loops: a successor not yet expanded gets `cur` as its parent. */
  method Record(pm: ParentMap, ghost rank: map<Item, nat>, closed: seq<Tile>, cur: Item, x: Item)
    returns (pm': ParentMap, ghost rank': map<Item, nat>)
    requires cur in rank
    ensures pm' == Recorded(pm, closed, cur, x) && rank' == RankAfter(rank, closed, cur, x)
  {
    pm', rank' := pm, rank;
    if x.0 !in closed {
      pm' := pm'[x := Some(cur)];
      rank' := rank'[x := rank'[cur] + 1];
    }
  }

  ghost function RankAfter(rank: map<Item, nat>, closed: seq<Tile>, cur: Item, x: Item): map<Item, nat>
    requires cur in rank
  {
    if x.0 !in closed then rank[x := rank[cur] + 1] else rank
  }

  /** The item a successor is queued or pushed as: its tile and the move that reaches it. */
  function SuccessorItem(s: (Tile, Key, int)): Item
  {
    (s.0, Some(s.1))
  }

  /**
   * The priority a successor is queued at: for A*, the cost so far plus its
   * step cost plus 1, its distance from the expanded tile; for breadth-first
   * search, 0.
   */
  function Priority(s: (Tile, Key, int), currentCost: int, byCost: bool): int
  {
    if byCost then currentCost + s.2 + 1 else 0
  }

  /** The queue after `update` of each successor in turn. */
  function QueueAll(open: seq<(Item, int)>, succs: seq<(Tile, Key, int)>, currentCost: int, byCost: bool)
    : seq<(Item, int)>
    decreases |succs|
  {
    if succs == [] then open
    else
      var last := succs[|succs| - 1];
      Update(QueueAll(open, succs[..|succs| - 1], currentCost, byCost), SuccessorItem(last),
             Priority(last, currentCost, byCost))
  }

  /** The parent map after the update for each successor of `cur` in turn. */
  function RecordAll(pm: ParentMap, closed: seq<Tile>, cur: Item, succs: seq<(Tile, Key, int)>): ParentMap
    decreases |succs|
  {
    if succs == [] then pm
    else Recorded(RecordAll(pm, closed, cur, succs[..|succs| - 1]), closed, cur, SuccessorItem(succs[|succs| - 1]))
  }

  /** The items pushed for the successors, in the order they are generated. */
  function PushAll(succs: seq<(Tile, Key, int)>): seq<Item>
    decreases |succs|
  {
    if succs == [] then []
    else PushAll(succs[..|succs| - 1]) + [SuccessorItem(succs[|succs| - 1])]
  }

  /** No two successors are reached by the same move. */
  predicate DistinctMoves(succs: seq<(Tile, Key, int)>)
  {
    forall i, j :: 0 <= i < j < |succs| ==> succs[i].1 != succs[j].1
  }

  /** An item that is not one of the successors' keeps its priority through the whole fold. */
  lemma {:induction false} UnqueuedPriority(open: seq<(Item, int)>, succs: seq<(Tile, Key, int)>, currentCost: int,
                                            byCost: bool, x: Item)
    requires x !in PushAll(succs)
    ensures PriorityOf(QueueAll(open, succs, currentCost, byCost), x) == PriorityOf(open, x)
    decreases |succs|
  {
    if succs != [] {
      var init, last := succs[..|succs| - 1], succs[|succs| - 1];
      UpdatePriorityOf(QueueAll(open, init, currentCost, byCost), SuccessorItem(last),
                       Priority(last, currentCost, byCost), x);
      UnqueuedPriority(open, init, currentCost, byCost, x);
    }
  }

  /**
   * Each successor ends up queued, at the smaller of the priority it already
   * had and the one it is offered (the one it is offered when it was not queued).
   */
  lemma {:induction false} QueuedPriority(open: seq<(Item, int)>, succs: seq<(Tile, Key, int)>, currentCost: int,
                                          byCost: bool, m: nat)
    requires m < |succs| && DistinctMoves(succs)
    ensures PriorityOf(QueueAll(open, succs, currentCost, byCost), SuccessorItem(succs[m]))
         == Some(Lower(PriorityOf(open, SuccessorItem(succs[m])), Priority(succs[m], currentCost, byCost)))
    decreases |succs|
  {
    var init, last := succs[..|succs| - 1], succs[|succs| - 1];
    var x := SuccessorItem(succs[m]);
    UpdatePriorityOf(QueueAll(open, init, currentCost, byCost), SuccessorItem(last),
                     Priority(last, currentCost, byCost), x);
    if m == |succs| - 1 {
      PushedItems(init, x);
      UnqueuedPriority(open, init, currentCost, byCost, x);
    } else {
      assert init[m] == succs[m];
      QueuedPriority(open, init, currentCost, byCost, m);
    }
  }

  /** The items pushed are exactly the successors' items. */
  lemma {:induction false} PushedItems(succs: seq<(Tile, Key, int)>, x: Item)
    ensures x in PushAll(succs) <==> exists m :: 0 <= m < |succs| && SuccessorItem(succs[m]) == x
    decreases |succs|
  {
    if succs != [] {
      var init := succs[..|succs| - 1];
      PushedItems(init, x);
      if x in PushAll(init) {
        var m :| 0 <= m < |init| && SuccessorItem(init[m]) == x;
        assert succs[m] == init[m];
      }
      if exists m :: 0 <= m < |succs| && SuccessorItem(succs[m]) == x {
        var m :| 0 <= m < |succs| && SuccessorItem(succs[m]) == x;
        if m < |init| {
          assert init[m] == succs[m];
        }
      }
    }
  }

  /**
   * After the fold, a successor item whose tile is not closed has `cur` as its
   * parent; every other item keeps whatever entry it had.
   */
  lemma {:induction false} RecordedParents(pm: ParentMap, closed: seq<Tile>, cur: Item, succs: seq<(Tile, Key, int)>,
                                           x: Item)
    ensures var r := RecordAll(pm, closed, cur, succs);
      if x in PushAll(succs) && x.0 !in closed then x in r && r[x] == Some(cur)
      else (x in r <==> x in pm) && (x in pm ==> r[x] == pm[x])
    decreases |succs|
  {
    if succs != [] {
      RecordedParents(pm, closed, cur, succs[..|succs| - 1], x);
    }
  }

  /** What holds of the parent map and the open items while the successors of `cur` are being queued. */
  ghost predicate Expanding(g: Grid, start: Tile, closed: seq<Tile>, cur: Item, items: seq<Item>,
                            pm: ParentMap, rank: map<Item, nat>)
  {
    && ParentMapOk(pm, rank, start) && KeysPlaced(g, pm, closed + [cur.0]) && cur in pm
    && OpenOk(g, start, items, closed, pm)
  }

  /** Queueing one successor item and recording its parent keeps `Expanding`. */
  lemma QueueStep(g: Grid, start: Tile, closed: seq<Tile>, cur: Item, q: seq<(Item, int)>,
                  pm: ParentMap, rank: map<Item, nat>, x: Item, prio: int)
    requires Expanding(g, start, closed, cur, Entries(q), pm, rank)
    requires x.1.Some? && OnGrid(g, x.0) && x.0 == Shift(cur.0, x.1.value)
    ensures Expanding(g, start, closed, cur, Entries(Update(q, x, prio)),
                      Recorded(pm, closed, cur, x), RankAfter(rank, closed, cur, x))
    ensures forall y :: y in Entries(Update(q, x, prio)) <==> y in Entries(q) || y == x
  {
    RecordStep(g, start, Entries(q), closed, pm, rank, cur, x);
    QueueKeepsOpen(g, start, q, closed, Recorded(pm, closed, cur, x), x, prio);
  }

  /** Pushing one successor item and recording its parent keeps `Expanding`. */
  lemma PushStep(g: Grid, start: Tile, closed: seq<Tile>, cur: Item, items: seq<Item>,
                 pm: ParentMap, rank: map<Item, nat>, x: Item)
    requires Expanding(g, start, closed, cur, items, pm, rank)
    requires x.1.Some? && OnGrid(g, x.0) && x.0 == Shift(cur.0, x.1.value)
    ensures Expanding(g, start, closed, cur, items + [x],
                      Recorded(pm, closed, cur, x), RankAfter(rank, closed, cur, x))
    ensures forall y :: y in items + [x] <==> y in items || y == x
  {
    RecordStep(g, start, items, closed, pm, rank, cur, x);
    PushKeepsOpen(g, start, items, closed, Recorded(pm, closed, cur, x), x);
  }

  /** Every item of `a` is an item of `b`. */
  ghost predicate Includes(a: seq<Item>, b: seq<Item>)
  {
    forall y :: y in a ==> y in b
  }

  /** The first `j` successors have their items among `items`. */
  ghost predicate Queued(successors: seq<(Tile, Key, int)>, j: int, items: seq<Item>)
    requires j <= |successors|
  {
    forall m :: 0 <= m < j ==> (successors[m].0, Some(successors[m].1)) in items
  }

  lemma QueuedStep(successors: seq<(Tile, Key, int)>, j: nat, items: seq<Item>, items': seq<Item>)
    requires j < |successors| && Queued(successors, j, items)
    requires forall y :: y in items ==> y in items'
    requires (successors[j].0, Some(successors[j].1)) in items'
    ensures Queued(successors, j + 1, items')
  {
  }

  lemma IncludesStep(a: seq<Item>, b: seq<Item>, c: seq<Item>)
    requires Includes(a, b) && forall y :: y in b ==> y in c
    ensures Includes(a, c)
  {
  }

  /** The successors of tile t: its on-grid neighbours north, south, east and west, each with its move and step cost. */
  function Successors(g: Grid, t: Tile): (succs: seq<(Tile, Key, int)>)
    requires OnGrid(g, t)
    ensures forall m :: 0 <= m < |succs| ==> succs[m].0 == Shift(t, succs[m].1) && OnGrid(g, succs[m].0)
  {
    NorthSouth(g, t) + EastWest(g, t)
  }

  function NorthSouth(g: Grid, t: Tile): seq<(Tile, Key, int)>
    requires OnGrid(g, t)
  {
    var col, row := t.0, t.1;
    (if row > 0 then [((col, row - 1), W, StepCost(g, (col, row - 1)))] else [])
    + (if row < Rows(g) - 1 then [((col, row + 1), S, StepCost(g, (col, row + 1)))] else [])
  }

  function EastWest(g: Grid, t: Tile): seq<(Tile, Key, int)>
    requires OnGrid(g, t)
  {
    var col, row := t.0, t.1;
    (if col < Cols(g) - 1 then [((col + 1, row), D, StepCost(g, (col + 1, row)))] else [])
    + (if col > 0 then [((col - 1, row), A, StepCost(g, (col - 1, row)))] else [])
  }

  /** At most four successors, one for each on-grid neighbour, each with the step cost of its tile. */
  lemma SuccessorsCover(g: Grid, t: Tile)
    requires OnGrid(g, t)
    ensures var succs := Successors(g, t);
      && |succs| <= 4
      && (forall m :: 0 <= m < |succs| ==> succs[m].2 == StepCost(g, succs[m].0))
      && (forall k :: OnGrid(g, Shift(t, k)) ==> exists m :: 0 <= m < |succs| && succs[m].1 == k)
  {
    var succs, ns := Successors(g, t), NorthSouth(g, t);
    var nNorth := if t.1 > 0 then 1 else 0;
    var nEast := if t.0 < Cols(g) - 1 then 1 else 0;
    forall k | OnGrid(g, Shift(t, k))
      ensures exists m :: 0 <= m < |succs| && succs[m].1 == k
    {
      var m := match k case W => 0 case S => nNorth case D => |ns| case A => |ns| + nEast;
      assert succs[m].1 == k;
    }
  }

  /** The successors come in the order north, south, east, west. */
  lemma SuccessorsRanked(g: Grid, t: Tile)
    requires OnGrid(g, t)
    ensures var succs := Successors(g, t);
      forall m, n :: 0 <= m < n < |succs| ==> KeyRank(succs[m].1) < KeyRank(succs[n].1)
    ensures DistinctMoves(Successors(g, t))
  {
    var succs, ns, ew := Successors(g, t), NorthSouth(g, t), EastWest(g, t);
    forall m, n | 0 <= m < n < |succs|
      ensures KeyRank(succs[m].1) < KeyRank(succs[n].1)
    {
      if n < |ns| {
        assert succs[m] == ns[m] && succs[n] == ns[n];
      } else if m >= |ns| {
        assert succs[m] == ew[m - |ns|] && succs[n] == ew[n - |ns|];
      } else {
        assert succs[m] == ns[m] && succs[n] == ew[n - |ns|];
      }
    }
  }

  /** Once every successor item of the expanded tile is open, every on-grid neighbour of it is. */
  lemma SuccessorsOpen(g: Grid, cur: Tile, successors: seq<(Tile, Key, int)>, items: seq<Item>)
    requires forall k :: OnGrid(g, Shift(cur, k)) ==> exists m :: 0 <= m < |successors| && successors[m].1 == k
    requires forall m :: 0 <= m < |successors| ==> successors[m].0 == Shift(cur, successors[m].1)
    requires Queued(successors, |successors|, items)
    ensures forall k :: OnGrid(g, Shift(cur, k)) ==> Shift(cur, k) in TilesOf(items)
  {
    forall k | OnGrid(g, Shift(cur, k))
      ensures Shift(cur, k) in TilesOf(items)
    {
      var m :| 0 <= m < |successors| && successors[m].1 == k;
      assert (successors[m].0, Some(successors[m].1)) in items;
    }
  }

  // ---------------------------------------------------------------------------
  // Why breadth-first search returns a shortest path.

  /** One move changes the Manhattan distance from a fixed tile by exactly one. */
  lemma NeighbourDistance(from: Tile, t: Tile, k: Key)
    ensures Manhattan(from, Shift(t, k)) == Manhattan(from, t) + 1
         || Manhattan(from, Shift(t, k)) + 1 == Manhattan(from, t)
  {
  }

  /**
   * Carrying out a path of moves ends no farther from where it began than the
   * path is long: no path reaches a tile in fewer moves than the tile's
   * Manhattan distance.
   */
  lemma {:induction false} ReplayDistance(from: Tile, path: seq<Option<Key>>)
    ensures Manhattan(from, Replay(from, path)) <= |path|
    decreases |path|
  {
    if path != [] {
      var next := if path[0].Some? then Shift(from, path[0].value) else from;
      ReplayDistance(next, path[1..]);
      assert Manhattan(from, next) <= 1;
    }
  }

  /** The key that moves tile t one step towards tile `to`, along the columns first. */
  function StepTowards(t: Tile, to: Tile): Key
  {
    if t.0 < to.0 then D else if t.0 > to.0 then A else if t.1 < to.1 then S else W
  }

  function Opposite(k: Key): Key
  {
    match k
    case W => S
    case S => W
    case A => D
    case D => A
  }

  /** A tile other than the start has an on-grid neighbour one step nearer the start, one move away from it. */
  lemma CloserNeighbour(g: Grid, start: Tile, t: Tile)
    requires OnGrid(g, start) && OnGrid(g, t) && t != start
    ensures var k := StepTowards(t, start);
      && OnGrid(g, Shift(t, k)) && Manhattan(start, Shift(t, k)) + 1 == Manhattan(start, t)
      && Shift(Shift(t, k), Opposite(k)) == t
  {
  }

  /** The number of moves walking back from item x collects: its depth in the tree the parent map spans. */
  ghost function Depth(pm: ParentMap, rank: map<Item, nat>, start: Tile, x: Item): nat
    requires ParentMapOk(pm, rank, start) && x in pm
  {
    |Back(pm, rank, start, Some(x))|
  }

  /**
   * A parent map changed only away from x and from the items on closed tiles,
   * where every parent lies, leaves x's way back, and so its depth, as it was.
   */
  lemma {:induction false} BackFrame(pm: ParentMap, rank: map<Item, nat>, pm': ParentMap, rank': map<Item, nat>,
                                     start: Tile, closed: seq<Tile>, x: Item)
    requires ParentMapOk(pm, rank, start) && ParentMapOk(pm', rank', start)
    requires forall k :: k in pm && pm[k].Some? ==> pm[k].value.0 in closed
    requires forall k :: k in pm && k.0 in closed ==> k in pm' && pm'[k] == pm[k]
    requires x in pm && x in pm' && pm'[x] == pm[x]
    ensures Back(pm', rank', start, Some(x)) == Back(pm, rank, start, Some(x))
    decreases rank[x]
  {
    if pm[x].Some? {
      BackFrame(pm, rank, pm', rank', start, closed, pm[x].value);
    }
  }

  /** In a queue of priority-0 entries, updating a queued item with priority 0 changes nothing. */
  lemma {:induction false} ZeroUpdateQueued(q: seq<(Item, int)>, x: Item)
    requires ZeroPriorities(q) && x in Entries(q)
    ensures Update(q, x, 0) == q
  {
    if q[0].0 != x {
      assert Entries(q) == [q[0].0] + Entries(q[1..]);
      ZeroUpdateQueued(q[1..], x);
      assert [q[0]] + q[1..] == q;
    }
  }

  /**
   * Queueing for breadth-first search only appends: the queue keeps its
   * entries in place and gains, at its end and at priority 0, successor items
   * it did not hold.
   */
  lemma {:induction false} ZeroQueueAll(q: seq<(Item, int)>, succs: seq<(Tile, Key, int)>, currentCost: int)
    requires ZeroPriorities(q)
    ensures var r := QueueAll(q, succs, currentCost, false);
      && |q| <= |r| && r[..|q|] == q && ZeroPriorities(r)
      && forall i :: |q| <= i < |r| ==> r[i].0 in PushAll(succs)
    decreases |succs|
  {
    if succs != [] {
      var init, last := succs[..|succs| - 1], succs[|succs| - 1];
      var r0 := QueueAll(q, init, currentCost, false);
      ZeroQueueAll(q, init, currentCost);
      var x := SuccessorItem(last);
      assert QueueAll(q, succs, currentCost, false) == Update(r0, x, 0);
      assert PushAll(succs) == PushAll(init) + [x];
      if x in Entries(r0) {
        ZeroUpdateQueued(r0, x);
      } else {
        var r := r0 + [(x, 0)];
        assert r[..|q|] == r0[..|q|];
      }
    }
  }

  /** The level the breadth-first queue's entry at index i lies on: the first `split` entries at `lo`, the rest one level below. */
  function DepthAt(lo: nat, split: nat, i: nat): nat
  {
    if i < split then lo else lo + 1
  }

  /**
   * The levels after a pass that leaves n entries queued: the head leaves its
   * level, and when it was the last entry of it the next level begins and
   * holds the whole queue.
   */
  function NextLevels(lo: nat, split: nat, n: nat): (nat, nat)
  {
    if split > 1 then (lo, split - 1) else (lo + 1, n)
  }

  /** After a pass an entry kept from the old queue keeps its level, and an appended entry lies one level below the old head. */
  lemma NextDepthAt(lo: nat, split: nat, m: nat, n: nat, i: nat)
    requires 1 <= split <= m && m - 1 <= n && i < n
    ensures DepthAt(NextLevels(lo, split, n).0, NextLevels(lo, split, n).1, i)
         == if i < m - 1 then DepthAt(lo, split, i + 1) else lo + 1
  {
  }

  /**
   * The breadth-first queue in levels: its first `split` entries lie at
   * depth `lo` and the rest at `lo + 1`; an entry whose tile is not closed is
   * as deep as its tile is far from the start, and so is the way back from it
   * through the parent map; and every tile no farther from the start than
   * `lo` is closed or queued.
   */
  ghost predicate Levels(g: Grid, start: Tile, q: seq<(Item, int)>, lo: nat, split: nat, closed: seq<Tile>,
                         pm: ParentMap, rank: map<Item, nat>)
  {
    && ParentMapOk(pm, rank, start)
    && (q != [] ==> 1 <= split <= |q|)
    && (forall i :: 0 <= i < |q| && q[i].0.0 !in closed ==>
          && q[i].0 in pm && Manhattan(start, q[i].0.0) == DepthAt(lo, split, i)
          && Depth(pm, rank, start, q[i].0) == DepthAt(lo, split, i))
    && (q != [] ==> forall t :: OnGrid(g, t) && Manhattan(start, t) <= lo ==>
                      t in closed || t in TilesOf(Entries(q)))
  }

  /** The search starts in levels: the start item alone, at depth 0. */
  lemma LevelsStart(g: Grid, start: Tile)
    ensures var open: seq<(Item, int)> := Update([], (start, None), 0);
      Levels(g, start, open, 0, 1, [], map[(start, None) := None], map[(start, None) := 0])
  {
    var open: seq<(Item, int)> := Update([], (start, None), 0);
    var pm: ParentMap, rank: map<Item, nat> := map[(start, None) := None], map[(start, None) := 0];
    assert open == [((start, None), 0)];
    assert ParentMapOk(pm, rank, start);
    assert Back(pm, rank, start, Some((start, None))) == Back(pm, rank, start, None) + [];
    forall t | OnGrid(g, t) && Manhattan(start, t) <= 0
      ensures t in TilesOf(Entries(open))
    {
      assert Entries(open)[0] == (start, None);
    }
  }

  /** An entry's tile is one of the queue's tiles. */
  lemma TileAt(q: seq<(Item, int)>, j: nat)
    requires j < |q|
    ensures q[j].0.0 in TilesOf(Entries(q))
  {
    assert Entries(q)[j] == q[j].0;
  }

  /** Each of the queue's tiles is the tile of one of its entries. */
  lemma EntryOf(q: seq<(Item, int)>, t: Tile) returns (j: nat)
    requires t in TilesOf(Entries(q))
    ensures j < |q| && q[j].0.0 == t
  {
    var x :| x in Entries(q) && x.0 == t;
    var i :| 0 <= i < |Entries(q)| && Entries(q)[i] == x;
    j := i;
  }

  /** A queued tile that is not closed is no nearer the start than `lo`; at distance `lo` it is queued within the first level. */
  lemma QueuedNotNearer(g: Grid, start: Tile, open: seq<(Item, int)>, lo: nat, split: nat, closed: seq<Tile>,
                        pm: ParentMap, rank: map<Item, nat>, s: Tile) returns (j: nat)
    requires Levels(g, start, open, lo, split, closed, pm, rank)
    requires s !in closed && s in TilesOf(Entries(open))
    ensures j < |open| && open[j].0.0 == s
    ensures Manhattan(start, s) == DepthAt(lo, split, j) >= lo
  {
    j := EntryOf(open, s);
  }

  /**
   * A neighbour of the head's tile that is not closed lies one step farther
   * from the start than the head: one step nearer, it would be closed or
   * queued at a depth below the head's.
   */
  lemma NewLevel(g: Grid, start: Tile, open: seq<(Item, int)>, lo: nat, split: nat, closed: seq<Tile>,
                 pm: ParentMap, rank: map<Item, nat>, s: Tile)
    requires Levels(g, start, open, lo, split, closed, pm, rank) && open != [] && open[0].0.0 !in closed
    requires OnGrid(g, s) && s !in closed && exists k :: s == Shift(open[0].0.0, k)
    ensures Manhattan(start, s) == lo + 1
  {
    var k :| s == Shift(open[0].0.0, k);
    NeighbourDistance(start, open[0].0.0, k);
    if s in TilesOf(Entries(open)) {
      var j := QueuedNotNearer(g, start, open, lo, split, closed, pm, rank, s);
    }
  }

  /** An item on its parent's way back lies one level below its parent. */
  lemma DepthOfChild(pm: ParentMap, rank: map<Item, nat>, start: Tile, x: Item, cur: Item)
    requires ParentMapOk(pm, rank, start) && x in pm && pm[x] == Some(cur)
    ensures cur in pm && Depth(pm, rank, start, x) == Depth(pm, rank, start, cur) + 1
  {
    assert Back(pm, rank, start, Some(x)) == Back(pm, rank, start, Some(cur)) + [x.1];
  }

  /** The parent-map fold over a tile's successors leaves the entries of items on closed tiles alone, and the expanded item's own. */
  lemma RecordAllKeeps(g: Grid, pm: ParentMap, closed: seq<Tile>, cur: Item)
    requires OnGrid(g, cur.0)
    ensures var r := RecordAll(pm, closed, cur, Successors(g, cur.0));
      && (forall k :: k in pm && k.0 in closed ==> k in r && r[k] == pm[k])
      && (cur in pm ==> cur in r && r[cur] == pm[cur])
  {
    var succs := Successors(g, cur.0);
    var r := RecordAll(pm, closed, cur, succs);
    forall k | k in pm && (k.0 in closed || k == cur)
      ensures k in r && r[k] == pm[k]
    {
      RecordedParents(pm, closed, cur, succs, k);
      PushedItems(succs, k);
      if k in PushAll(succs) {
        var m :| 0 <= m < |succs| && SuccessorItem(succs[m]) == k;
        SuccessorAtUnitDistance(cur.0, succs[m].1);
      }
    }
  }

  /** What one pass of the breadth-first loop does to the queue and the parent map when the head is not the goal. */
  ghost predicate BreadthPass(g: Grid, open: seq<(Item, int)>, closed: seq<Tile>, pm: ParentMap,
                              open': seq<(Item, int)>, pm': ParentMap)
    requires open != [] && OnGrid(g, open[0].0.0)
  {
    var cur := open[0].0;
    if cur.0 in closed then open' == RemoveAt(open, 0) && pm' == pm
    else
      && open' == QueueAll(RemoveAt(open, 0), Successors(g, cur.0), 0, false)
      && pm' == RecordAll(pm, closed, cur, Successors(g, cur.0))
  }

  /** A pass keeps the rest of the queue in front and appends only successor items of the head's tile. */
  lemma PassAppends(g: Grid, open: seq<(Item, int)>, closed: seq<Tile>, pm: ParentMap,
                    open': seq<(Item, int)>, pm': ParentMap)
    requires open != [] && ZeroPriorities(open) && OnGrid(g, open[0].0.0)
    requires BreadthPass(g, open, closed, pm, open', pm')
    ensures |open'| >= |open| - 1 && open'[..|open| - 1] == open[1..]
    ensures forall i :: |open| - 1 <= i < |open'| ==>
      open[0].0.0 !in closed && open'[i].0 in PushAll(Successors(g, open[0].0.0))
  {
    var rest := RemoveAt(open, 0);
    assert rest == open[1..];
    if open[0].0.0 !in closed {
      ZeroQueueAll(rest, Successors(g, open[0].0.0), 0);
    }
  }

  /**
   * A successor item of the expanded item's tile that is not closed is
   * recorded with the expanded item as its parent, one level below it.
   */
  lemma ChildLevel(g: Grid, start: Tile, closed: seq<Tile>, pm: ParentMap, rank: map<Item, nat>,
                   pm': ParentMap, rank': map<Item, nat>, cur: Item, x: Item)
    requires ParentMapOk(pm, rank, start) && ParentMapOk(pm', rank', start)
    requires forall k :: k in pm && pm[k].Some? ==> pm[k].value.0 in closed
    requires OnGrid(g, cur.0) && cur in pm
    requires pm' == RecordAll(pm, closed, cur, Successors(g, cur.0))
    requires x in PushAll(Successors(g, cur.0)) && x.0 !in closed
    ensures x in pm' && Depth(pm', rank', start, x) == Depth(pm, rank, start, cur) + 1
  {
    RecordAllKeeps(g, pm, closed, cur);
    RecordedParents(pm, closed, cur, Successors(g, cur.0), x);
    BackFrame(pm, rank, pm', rank', start, closed, cur);
    DepthOfChild(pm', rank', start, x, cur);
  }

  /** A successor item's tile is a neighbour of the expanded tile on the grid. */
  lemma PushedNeighbour(g: Grid, t: Tile, x: Item)
    requires OnGrid(g, t) && x in PushAll(Successors(g, t))
    ensures OnGrid(g, x.0) && exists k :: x.0 == Shift(t, k)
  {
    var succs := Successors(g, t);
    PushedItems(succs, x);
    var m :| 0 <= m < |succs| && SuccessorItem(succs[m]) == x;
  }

  /**
   * After a pass every queued entry whose tile is still not closed is as deep
   * as its tile is far from the start, and so is its way back.
   */
  lemma EntryLevel(g: Grid, start: Tile, open: seq<(Item, int)>, lo: nat, split: nat, closed: seq<Tile>,
                   pm: ParentMap, rank: map<Item, nat>, open': seq<(Item, int)>, pm': ParentMap,
                   rank': map<Item, nat>, i: nat)
    requires Levels(g, start, open, lo, split, closed, pm, rank) && open != []
    requires OnGrid(g, open[0].0.0) && KeysPlaced(g, pm, closed)
    requires BreadthPass(g, open, closed, pm, open', pm')
    requires |open'| >= |open| - 1 && open'[..|open| - 1] == open[1..]
    requires forall j :: |open| - 1 <= j < |open'| ==>
      open[0].0.0 !in closed && open'[j].0 in PushAll(Successors(g, open[0].0.0))
    requires ParentMapOk(pm', rank', start)
    requires i < |open'| && open'[i].0.0 !in closed + [open[0].0.0]
    ensures var (lo', split') := NextLevels(lo, split, |open'|);
      && open'[i].0 in pm' && Manhattan(start, open'[i].0.0) == DepthAt(lo', split', i)
      && Depth(pm', rank', start, open'[i].0) == DepthAt(lo', split', i)
  {
    var cur, x := open[0].0, open'[i].0;
    NextDepthAt(lo, split, |open|, |open'|, i);
    if i < |open| - 1 {
      assert open'[i] == open[i + 1];
    }
    if cur.0 in closed {
      BackFrame(pm, rank, pm', rank', start, closed, x);
    } else if x in PushAll(Successors(g, cur.0)) {
      PushedNeighbour(g, cur.0, x);
      NewLevel(g, start, open, lo, split, closed, pm, rank, x.0);
      ChildLevel(g, start, closed, pm, rank, pm', rank', cur, x);
    } else {
      RecordAllKeeps(g, pm, closed, cur);
      RecordedParents(pm, closed, cur, Successors(g, cur.0), x);
      BackFrame(pm, rank, pm', rank', start, closed, x);
    }
  }

  /** A tile no farther from the start than `lo` is, after a pass, closed or still queued. */
  lemma CoverNear(g: Grid, start: Tile, open: seq<(Item, int)>, lo: nat, split: nat, closed: seq<Tile>,
                  pm: ParentMap, rank: map<Item, nat>, open': seq<(Item, int)>, t: Tile)
    requires Levels(g, start, open, lo, split, closed, pm, rank) && open != []
    requires |open'| >= |open| - 1 && open'[..|open| - 1] == open[1..]
    requires OnGrid(g, t) && Manhattan(start, t) <= lo
    ensures t in closed + [open[0].0.0] || t in TilesOf(Entries(open'))
  {
    if t !in closed {
      var j := EntryOf(open, t);
      if j > 0 {
        assert open'[j - 1] == open[j];
        TileAt(open', j - 1);
      }
    }
  }

  /**
   * When the head was the last entry of its level, a tile one step farther
   * from the start than that level is closed or queued after the pass: its
   * neighbour nearer the start was closed or the head itself, and closed
   * tiles have their neighbours closed or queued.
   */
  lemma CoverFar(g: Grid, start: Tile, open: seq<(Item, int)>, lo: nat, closed: seq<Tile>,
                 pm: ParentMap, rank: map<Item, nat>, open': seq<(Item, int)>, t: Tile)
    requires Levels(g, start, open, lo, 1, closed, pm, rank) && open != [] && OnGrid(g, start)
    requires Frontier(g, closed + [open[0].0.0], closed + [open[0].0.0], Entries(open'))
    requires OnGrid(g, t) && Manhattan(start, t) == lo + 1
    ensures t in closed + [open[0].0.0] || t in TilesOf(Entries(open'))
  {
    CloserNeighbour(g, start, t);
    var k := StepTowards(t, start);
    var s := Shift(t, k);
    if s !in closed {
      var j := QueuedNotNearer(g, start, open, lo, 1, closed, pm, rank, s);
    }
    assert s in closed + [open[0].0.0] && Shift(s, Opposite(k)) == t;
  }

  /** One pass of the breadth-first loop keeps the queue in levels. */
  lemma LevelsStep(g: Grid, start: Tile, open: seq<(Item, int)>, lo: nat, split: nat, closed: seq<Tile>,
                   pm: ParentMap, rank: map<Item, nat>, open': seq<(Item, int)>, pm': ParentMap,
                   rank': map<Item, nat>)
    requires open != [] && ZeroPriorities(open) && OnGrid(g, start) && KeysPlaced(g, pm, closed)
    requires Levels(g, start, open, lo, split, closed, pm, rank)
    requires OnGrid(g, open[0].0.0) && BreadthPass(g, open, closed, pm, open', pm')
    requires ParentMapOk(pm', rank', start)
    requires Frontier(g, closed + [open[0].0.0], closed + [open[0].0.0], Entries(open'))
    ensures var (lo', split') := NextLevels(lo, split, |open'|);
      Levels(g, start, open', lo', split', closed + [open[0].0.0], pm', rank')
  {
    PassAppends(g, open, closed, pm, open', pm');
    var closed' := closed + [open[0].0.0];
    var (lo', split') := NextLevels(lo, split, |open'|);
    forall i | 0 <= i < |open'| && open'[i].0.0 !in closed'
      ensures open'[i].0 in pm' && Manhattan(start, open'[i].0.0) == DepthAt(lo', split', i)
      ensures Depth(pm', rank', start, open'[i].0) == DepthAt(lo', split', i)
    {
      EntryLevel(g, start, open, lo, split, closed, pm, rank, open', pm', rank', i);
    }
    forall t | open' != [] && OnGrid(g, t) && Manhattan(start, t) <= lo'
      ensures t in closed' || t in TilesOf(Entries(open'))
    {
      if Manhattan(start, t) <= lo {
        CoverNear(g, start, open, lo, split, closed, pm, rank, open', t);
      } else {
        CoverFar(g, start, open, lo, closed, pm, rank, open', t);
      }
    }
  }

  /**
   * When the head of a queue in levels reaches a tile that is not closed by a
   * move, the path walking back from it has exactly as many moves as the tile
   * is far from the start.
   */
  lemma HeadPathLength(g: Grid, start: Tile, open: seq<(Item, int)>, lo: nat, split: nat, closed: seq<Tile>,
                       pm: ParentMap, rank: map<Item, nat>)
    requires Levels(g, start, open, lo, split, closed, pm, rank) && open != []
    requires open[0].0.0 !in closed && open[0].0.1.Some?
    ensures open[0].0 in pm && |ActionPath(pm, rank, start, open[0].0)| == Manhattan(start, open[0].0.0)
  {
    var x := open[0].0;
    assert Back(pm, rank, start, Some(x)) == Back(pm, rank, start, pm[x]) + [x.1];
  }

  class Navigation {
    const theMap: TheMap

    constructor (theMap: TheMap)
      ensures this.theMap == theMap
    {
      this.theMap := theMap;
    }

    /**
     * `__get_successors`: the on-grid neighbours of a tile in the order north,
     * south, east, west, each with the move that reaches it and its step cost.
     */
    method GetSuccessors(t: Tile) returns (successors: seq<(Tile, Key, int)>)
      requires OnGrid(theMap.tileSpeeds, t)
      ensures |successors| <= 4
      ensures forall m :: 0 <= m < |successors| ==>
        && successors[m].0 == Shift(t, successors[m].1)
        && OnGrid(theMap.tileSpeeds, successors[m].0)
        && successors[m].2 == StepCost(theMap.tileSpeeds, successors[m].0)
      ensures forall k :: OnGrid(theMap.tileSpeeds, Shift(t, k)) ==>
        exists m :: 0 <= m < |successors| && successors[m].1 == k
      ensures forall m, n :: 0 <= m < n < |successors| ==> KeyRank(successors[m].1) < KeyRank(successors[n].1)
      ensures successors == Successors(theMap.tileSpeeds, t)
    {
      var g := theMap.tileSpeeds;
      var col, row := t.0, t.1;
      successors := [];
      if row > 0 {
        successors := successors + [((col, row - 1), W, StepCost(g, (col, row - 1)))];
      }
      if row < Rows(g) - 1 {
        successors := successors + [((col, row + 1), S, StepCost(g, (col, row + 1)))];
      }
      assert successors == NorthSouth(g, t);
      ghost var northSouth := successors;
      if col < Cols(g) - 1 {
        successors := successors + [((col + 1, row), D, StepCost(g, (col + 1, row)))];
      }
      if col > 0 {
        successors := successors + [((col - 1, row), A, StepCost(g, (col - 1, row)))];
      }
      assert successors == northSouth + EastWest(g, t);
      SuccessorsCover(g, t);
      SuccessorsRanked(g, t);
    }

    /** One step back along the parent map keeps the replayed path ending at `target`. */
    lemma WalkBack(pm: ParentMap, rank: map<Item, nat>, start: Tile, p: Item, path: seq<Option<Key>>, target: Tile)
      requires ParentMapOk(pm, rank, start) && p in pm && Replay(p.0, path) == target
      ensures var path' := if p.1.Some? then [p.1] + path else path;
        && (pm[p].Some? ==> p.1.Some? && pm[p].value in pm && rank[pm[p].value] < rank[p]
                            && Replay(pm[p].value.0, path') == target)
        && (pm[p].None? ==> p == (start, None) && Replay(start, path') == target)
        && (|path| >= 1 ==> path'[|path'| - 1] == path[|path| - 1])
        && ((forall i :: 0 <= i < |path| ==> path[i].Some?) ==> forall i :: 0 <= i < |path'| ==> path'[i].Some?)
    {
      if pm[p].Some? {
        var q := pm[p].value;
        assert Shift(q.0, p.1.value) == p.0;
        assert ([p.1] + path)[1..] == path;
      }
    }

    /** Walking back one parent moves the parent's own move from the collected moves onto the path. */
    lemma BackStep(pm: ParentMap, rank: map<Item, nat>, start: Tile, p: Item, path: seq<Option<Key>>)
      requires ParentMapOk(pm, rank, start) && p in pm
      ensures Back(pm, rank, start, Some(p)) + path
           == Back(pm, rank, start, pm[p]) + (if p.1.Some? then [p.1] + path else path)
    {
      var moves := if p.1.Some? then [p.1] else [];
      assert Back(pm, rank, start, Some(p)) == Back(pm, rank, start, pm[p]) + moves;
      assert moves + path == (if p.1.Some? then [p.1] + path else path);
    }

    /**
     * `__get_action_path`: walks back from `goal` through the parent map and
     * collects the moves, so that carrying them out from the start reaches the
     * goal's tile. The goal's own move comes last; the start item contributes
     * no move, so a goal that is the start item gives `[None]`.
     */
    method GetActionPath(goal: Item, pm: ParentMap, ghost rank: map<Item, nat>, ghost start: Tile)
      returns (path: seq<Option<Key>>)
      requires ParentMapOk(pm, rank, start) && goal in pm
      ensures |path| >= 1 && path[|path| - 1] == goal.1
      ensures Replay(start, path) == goal.0
      ensures goal.1.Some? ==> forall i :: 0 <= i < |path| ==> path[i].Some?
      ensures goal.1 == None ==> path == [None]
      ensures path == ActionPath(pm, rank, start, goal)
    {
      path := [goal.1];
      var parent := pm[goal];
      while parent.Some?
        invariant parent.Some? ==> parent.value in pm && Replay(parent.value.0, path) == goal.0
        invariant Back(pm, rank, start, parent) + path == ActionPath(pm, rank, start, goal)
        invariant parent.None? ==> Replay(start, path) == goal.0
        invariant |path| >= 1 && path[|path| - 1] == goal.1
        invariant goal.1.Some? ==> forall i :: 0 <= i < |path| ==> path[i].Some?
        invariant goal.1 == None ==> path == [None]
        decreases if parent.Some? then rank[parent.value] + 1 else 0
      {
        var p := parent.value;
        WalkBack(pm, rank, start, p, path, goal.0);
        BackStep(pm, rank, start, p, path);
        if p.1.Some? {
          path := [p.1] + path;
        }
        parent := pm[p];
      }
    }

    /** Folding one more successor into the queue and the parent map. */
    lemma FoldStep(open: seq<(Item, int)>, pm: ParentMap, closed: seq<Tile>, cur: Item,
                   succs: seq<(Tile, Key, int)>, j: nat, currentCost: int, byCost: bool)
      requires j < |succs|
      ensures QueueAll(open, succs[..j + 1], currentCost, byCost)
           == Update(QueueAll(open, succs[..j], currentCost, byCost), SuccessorItem(succs[j]),
                     Priority(succs[j], currentCost, byCost))
      ensures RecordAll(pm, closed, cur, succs[..j + 1])
           == Recorded(RecordAll(pm, closed, cur, succs[..j]), closed, cur, SuccessorItem(succs[j]))
      ensures PushAll(succs[..j + 1]) == PushAll(succs[..j]) + [SuccessorItem(succs[j])]
    {
      assert succs[..j + 1][..j] == succs[..j];
    }

    /**
     * One pass of that loop: successor `j` is queued with its priority and
     * recorded, which extends both folds by one successor.
     */
    method QueueSuccessor(cur: Item, currentCost: int, byCost: bool, open: seq<(Item, int)>, pm: ParentMap,
                          closed: seq<Tile>, ghost start: Tile, successors: seq<(Tile, Key, int)>, j: nat,
                          q: seq<(Item, int)>, p: ParentMap, ghost rank: map<Item, nat>)
      returns (q': seq<(Item, int)>, p': ParentMap, ghost rank': map<Item, nat>)
      requires j < |successors|
      requires successors[j].0 == Shift(cur.0, successors[j].1) && OnGrid(theMap.tileSpeeds, successors[j].0)
      requires Expanding(theMap.tileSpeeds, start, closed, cur, Entries(q), p, rank)
      requires Includes(Entries(open), Entries(q)) && Queued(successors, j, Entries(q))
      requires !byCost && ZeroPriorities(open) ==> ZeroPriorities(q)
      requires q == QueueAll(open, successors[..j], currentCost, byCost)
      requires p == RecordAll(pm, closed, cur, successors[..j])
      ensures Expanding(theMap.tileSpeeds, start, closed, cur, Entries(q'), p', rank')
      ensures Includes(Entries(open), Entries(q')) && Queued(successors, j + 1, Entries(q'))
      ensures !byCost && ZeroPriorities(open) ==> ZeroPriorities(q')
      ensures q' == QueueAll(open, successors[..j + 1], currentCost, byCost)
      ensures p' == RecordAll(pm, closed, cur, successors[..j + 1])
    {
      FoldStep(open, pm, closed, cur, successors, j, currentCost, byCost);
      var x := SuccessorItem(successors[j]);
      var succ, action, stepCost := successors[j].0, successors[j].1, successors[j].2;
      SuccessorAtUnitDistance(cur.0, action);
      var cost := if byCost then currentCost + stepCost + CartesianDistance(cur.0, succ) else 0;
      assert cost == Priority(successors[j], currentCost, byCost);
      if !byCost && ZeroPriorities(q) {
        UpdateKeepsEqualPriorities(q, x, 0);
      }
      QueueStep(theMap.tileSpeeds, start, closed, cur, q, p, rank, x, cost);
      QueuedStep(successors, j, Entries(q), Entries(Update(q, x, cost)));
      IncludesStep(Entries(open), Entries(q), Entries(Update(q, x, cost)));
      q' := Update(q, x, cost);
      p', rank' := Record(p, rank, closed, cur, x);
    }

    /**
     * The `for` loop over the successors of the expanded item shared by A* and
     * breadth-first search: each successor item is put in the queue (A*: with
     * the cost of reaching it, breadth-first: with priority 0) and, when its
     * tile is not closed, recorded in the parent map as reached from `cur`.
     */
    method QueueSuccessors(cur: Item, currentCost: int, byCost: bool, open: seq<(Item, int)>, pm: ParentMap,
                           ghost rank: map<Item, nat>, closed: seq<Tile>, ghost start: Tile)
      returns (open': seq<(Item, int)>, pm': ParentMap, ghost rank': map<Item, nat>)
      requires OnGrid(theMap.tileSpeeds, cur.0) && cur.0 !in closed && cur in pm
      requires ParentMapOk(pm, rank, start) && KeysPlaced(theMap.tileSpeeds, pm, closed + [cur.0])
      requires OpenOk(theMap.tileSpeeds, start, Entries(open), closed, pm)
      ensures ParentMapOk(pm', rank', start) && KeysPlaced(theMap.tileSpeeds, pm', closed + [cur.0])
      ensures OpenOk(theMap.tileSpeeds, start, Entries(open'), closed, pm')
      ensures TilesOf(Entries(open)) <= TilesOf(Entries(open'))
      ensures forall k :: OnGrid(theMap.tileSpeeds, Shift(cur.0, k)) ==> Shift(cur.0, k) in TilesOf(Entries(open'))
      ensures !byCost && ZeroPriorities(open) ==> ZeroPriorities(open')
      ensures open' == QueueAll(open, Successors(theMap.tileSpeeds, cur.0), currentCost, byCost)
      ensures pm' == RecordAll(pm, closed, cur, Successors(theMap.tileSpeeds, cur.0))
    {
      var g := theMap.tileSpeeds;
      var successors := GetSuccessors(cur.0);
      open', pm', rank' := open, pm, rank;
      var j := 0;
      while j < |successors|
        invariant j <= |successors|
        invariant Expanding(g, start, closed, cur, Entries(open'), pm', rank')
        invariant Includes(Entries(open), Entries(open'))
        invariant Queued(successors, j, Entries(open'))
        invariant !byCost && ZeroPriorities(open) ==> ZeroPriorities(open')
        invariant open' == QueueAll(open, successors[..j], currentCost, byCost)
        invariant pm' == RecordAll(pm, closed, cur, successors[..j])
      {
        open', pm', rank' := QueueSuccessor(cur, currentCost, byCost, open, pm, closed, start, successors, j,
                                            open', pm', rank');
        j := j + 1;
      }
      assert successors[..j] == successors;
      SuccessorsOpen(g, cur.0, successors, Entries(open'));
      TilesGrow(Entries(open), Entries(open'));
    }

    /**
     * `open.pop()` in the A* and breadth-first loops: the entry of lowest
     * priority (the first one when every priority is 0) leaves the open list,
     * and what the search keeps true still holds once its tile is closed.
     */
    method PopItem(open: seq<(Item, int)>, byCost: bool, ghost closed: seq<Tile>, ghost pm: ParentMap,
                   ghost rank: map<Item, nat>, ghost start: Tile, ghost goal: Tile)
      returns (cur: Item, open': seq<(Item, int)>)
      requires open != [] && SearchOk(theMap.tileSpeeds, start, goal, Entries(open), closed, pm, rank)
      requires !byCost ==> ZeroPriorities(open)
      ensures cur == open[PopIndex(open)].0 && open' == RemoveAt(open, PopIndex(open))
      ensures cur in Entries(open) && |open'| == |open| - 1
      ensures !byCost ==> cur == open[0].0 && ZeroPriorities(open')
      ensures OnGrid(theMap.tileSpeeds, cur.0) && (cur.0 !in closed ==> cur in pm)
      ensures OpenOk(theMap.tileSpeeds, start, Entries(open'), closed, pm)
      ensures Frontier(theMap.tileSpeeds, closed, closed + [cur.0], Entries(open'))
      ensures start in closed + [cur.0] || start in TilesOf(Entries(open'))
    {
      var i := PopIndex(open);
      if !byCost {
        PopFirstInFirstOut(open);
      }
      cur := open[i].0;
      ghost var items := Entries(open);
      assert items[i] == cur;
      EntriesRemoveAt(open, i);
      PopKeepsSearch(theMap.tileSpeeds, start, goal, items, closed, pm, rank, i);
      open' := RemoveAt(open, i);
    }

    /**
     * The rest of one pass of the A* and breadth-first loops once the popped
     * item is not at the goal: a tile not yet closed is expanded (A* queues by
     * the cost of the path to it), and either way the tile joins the closed
     * list.
     */
    method CloseTile(cur: Item, byCost: bool, open: seq<(Item, int)>, pm: ParentMap, ghost rank: map<Item, nat>,
                     closed: seq<Tile>, ghost expanded: seq<Tile>, start: Tile, ghost goal: Tile)
      returns (open': seq<(Item, int)>, pm': ParentMap, ghost rank': map<Item, nat>, ghost expanded': seq<Tile>)
      requires cur.0 != goal && goal !in closed && forall t :: t in closed ==> OnGrid(theMap.tileSpeeds, t)
      requires OnGrid(theMap.tileSpeeds, cur.0) && (cur.0 !in closed ==> cur in pm)
      requires ParentMapOk(pm, rank, start) && KeysPlaced(theMap.tileSpeeds, pm, closed)
      requires OpenOk(theMap.tileSpeeds, start, Entries(open), closed, pm)
      requires Frontier(theMap.tileSpeeds, closed, closed + [cur.0], Entries(open))
      requires start in closed + [cur.0] || start in TilesOf(Entries(open))
      requires ClosedSet(expanded) == ClosedSet(closed) && NoDuplicates(expanded)
      requires !byCost ==> ZeroPriorities(open)
      ensures SearchOk(theMap.tileSpeeds, start, goal, Entries(open'), closed + [cur.0], pm', rank')
      ensures ClosedSet(expanded') == ClosedSet(closed + [cur.0]) && NoDuplicates(expanded')
      ensures !byCost ==> ZeroPriorities(open')
      ensures cur.0 !in closed ==>
                && open' == QueueAll(open, Successors(theMap.tileSpeeds, cur.0),
                                     if byCost && cur.0 != start then |ActionPath(pm, rank, start, cur)| else 0, byCost)
                && pm' == RecordAll(pm, closed, cur, Successors(theMap.tileSpeeds, cur.0))
      ensures cur.0 in closed ==> open' == open && pm' == pm && ClosedSet(closed + [cur.0]) == ClosedSet(closed)
      ensures cur.0 !in closed ==> AllTiles(theMap.tileSpeeds) - ClosedSet(closed + [cur.0]) < AllTiles(theMap.tileSpeeds) - ClosedSet(closed)
    {
      var g := theMap.tileSpeeds;
      if cur.0 !in closed {
        var currentCost := 0;
        if byCost && cur.0 != start {
          var pathToCur := GetActionPath(cur, pm, rank, start);
          currentCost := |pathToCur|;
        }
        open', pm', rank' := QueueSuccessors(cur, currentCost, byCost, open, pm, rank, closed, start);
        ExpandKeepsSearch(g, start, goal, Entries(open), Entries(open'), closed, pm', rank', cur.0);
        CloseShrinksRemaining(g, closed, cur.0);
        ExpandOnce(expanded, closed, cur.0);
        expanded' := expanded + [cur.0];
      } else {
        open', pm', rank', expanded' := open, pm, rank, expanded;
        RevisitKeepsSearch(g, start, goal, Entries(open), closed, pm, rank, cur.0);
        assert ClosedSet(expanded) == ClosedSet(closed + [cur.0]);
      }
    }

    /**
     * `a_star`: search from the tile under `xy1` for the tile under `xy2`,
     * popping the open item of least cost, where a successor costs the length
     * of the path to its parent plus its step cost plus 1.
     */
    method AStar(xy1: (int, int), xy2: (int, int)) returns (path: seq<Option<Key>>, ghost expanded: seq<Tile>)
      requires OnGrid(theMap.tileSpeeds, XyToCr(xy1.0, xy1.1))
      ensures path == [] <==> !OnGrid(theMap.tileSpeeds, XyToCr(xy2.0, xy2.1))
      ensures path != [] ==> Replay(XyToCr(xy1.0, xy1.1), path) == XyToCr(xy2.0, xy2.1)
      ensures XyToCr(xy1.0, xy1.1) == XyToCr(xy2.0, xy2.1) ==> path == [None]
      ensures XyToCr(xy1.0, xy1.1) != XyToCr(xy2.0, xy2.1) ==> forall i :: 0 <= i < |path| ==> path[i].Some?
      ensures NoDuplicates(expanded) && XyToCr(xy2.0, xy2.1) !in expanded
      ensures forall t :: t in expanded ==> OnGrid(theMap.tileSpeeds, t)
    {
      var g := theMap.tileSpeeds;
      var start, goal := XyToCr(xy1.0, xy1.1), XyToCr(xy2.0, xy2.1);
      var pm: ParentMap := map[(start, None) := None];
      ghost var rank: map<Item, nat> := map[(start, None) := 0];
      var open: seq<(Item, int)> := Update([], (start, None), 0);
      StartSearch(g, start, goal);
      var closed: seq<Tile> := [];
      expanded := [];
      while open != []
        invariant SearchOk(g, start, goal, Entries(open), closed, pm, rank)
        invariant start == goal ==> Entries(open) == [(start, None)]
        invariant ClosedSet(expanded) == ClosedSet(closed) && NoDuplicates(expanded)
        decreases AllTiles(g) - ClosedSet(closed), |open|
      {
        var cur;
        cur, open := PopItem(open, true, closed, pm, rank, start, goal);
        if cur.0 == goal {
          path := GetActionPath(cur, pm, rank, start);
          ExpandedAreClosed(g, expanded, closed, goal);
          return;
        }
        open, pm, rank, expanded := CloseTile(cur, true, open, pm, rank, closed, expanded, start, goal);
        closed := closed + [cur.0];
      }
      EndSearch(g, start, goal, closed, pm, rank, expanded);
      path := [];
    }
    /**
     * `breadth_first`: the same search with every item queued at priority 0,
     * so the queue pops its items first-in, first-out.
     */
    method BreadthFirst(xy1: (int, int), xy2: (int, int)) returns (path: seq<Option<Key>>, ghost expanded: seq<Tile>)
      requires OnGrid(theMap.tileSpeeds, XyToCr(xy1.0, xy1.1))
      ensures path == [] <==> !OnGrid(theMap.tileSpeeds, XyToCr(xy2.0, xy2.1))
      ensures path != [] ==> Replay(XyToCr(xy1.0, xy1.1), path) == XyToCr(xy2.0, xy2.1)
      ensures XyToCr(xy1.0, xy1.1) == XyToCr(xy2.0, xy2.1) ==> path == [None]
      ensures XyToCr(xy1.0, xy1.1) != XyToCr(xy2.0, xy2.1) ==> forall i :: 0 <= i < |path| ==> path[i].Some?
      ensures XyToCr(xy1.0, xy1.1) != XyToCr(xy2.0, xy2.1) && path != [] ==>
                |path| == Manhattan(XyToCr(xy1.0, xy1.1), XyToCr(xy2.0, xy2.1))
                && forall p :: Replay(XyToCr(xy1.0, xy1.1), p) == XyToCr(xy2.0, xy2.1) ==> |path| <= |p|
      ensures NoDuplicates(expanded) && XyToCr(xy2.0, xy2.1) !in expanded
      ensures forall t :: t in expanded ==> OnGrid(theMap.tileSpeeds, t)
    {
      var g := theMap.tileSpeeds;
      var start, goal := XyToCr(xy1.0, xy1.1), XyToCr(xy2.0, xy2.1);
      var pm: ParentMap := map[(start, None) := None];
      ghost var rank: map<Item, nat> := map[(start, None) := 0];
      var open: seq<(Item, int)> := Update([], (start, None), 0);
      StartSearch(g, start, goal);
      LevelsStart(g, start);
      var closed: seq<Tile> := [];
      expanded := [];
      ghost var lo: nat, split: nat := 0, 1;
      while open != []
        invariant SearchOk(g, start, goal, Entries(open), closed, pm, rank)
        invariant start == goal ==> Entries(open) == [(start, None)]
        invariant ZeroPriorities(open)
        invariant Levels(g, start, open, lo, split, closed, pm, rank)
        invariant ClosedSet(expanded) == ClosedSet(closed) && NoDuplicates(expanded)
        decreases AllTiles(g) - ClosedSet(closed), |open|
      {
        ghost var before, closed0, pm0, rank0 := open, closed, pm, rank;
        PopFirstInFirstOut(open);
        var cur;
        cur, open := PopItem(open, false, closed, pm, rank, start, goal);
        if cur.0 == goal {
          path := GetActionPath(cur, pm, rank, start);
          ExpandedAreClosed(g, expanded, closed, goal);
          if start != goal {
            HeadPathLength(g, start, before, lo, split, closed, pm, rank);
            forall p | Replay(start, p) == goal
              ensures |path| <= |p|
            {
              ReplayDistance(start, p);
            }
          }
          return;
        }
        open, pm, rank, expanded := CloseTile(cur, false, open, pm, rank, closed, expanded, start, goal);
        closed := closed + [cur.0];
        LevelsStep(g, start, before, lo, split, closed0, pm0, rank0, open, pm, rank);
        lo, split := NextLevels(lo, split, |open|).0, NextLevels(lo, split, |open|).1;
      }
      EndSearch(g, start, goal, closed, pm, rank, expanded);
      path := [];
    }
    /**
     * The `for` loop over the successors of the expanded item in depth-first
     * search: each successor item is pushed and, when its tile is not closed,
     * recorded in the parent map as reached from `cur`.
     */
    method PushSuccessors(cur: Item, open: seq<Item>, pm: ParentMap,
                          ghost rank: map<Item, nat>, closed: seq<Tile>, ghost start: Tile)
      returns (open': seq<Item>, pm': ParentMap, ghost rank': map<Item, nat>)
      requires OnGrid(theMap.tileSpeeds, cur.0) && cur.0 !in closed && cur in pm
      requires ParentMapOk(pm, rank, start) && KeysPlaced(theMap.tileSpeeds, pm, closed + [cur.0])
      requires OpenOk(theMap.tileSpeeds, start, open, closed, pm)
      ensures ParentMapOk(pm', rank', start) && KeysPlaced(theMap.tileSpeeds, pm', closed + [cur.0])
      ensures OpenOk(theMap.tileSpeeds, start, open', closed, pm')
      ensures TilesOf(open) <= TilesOf(open')
      ensures forall k :: OnGrid(theMap.tileSpeeds, Shift(cur.0, k)) ==> Shift(cur.0, k) in TilesOf(open')
      ensures open' == open + PushAll(Successors(theMap.tileSpeeds, cur.0))
      ensures pm' == RecordAll(pm, closed, cur, Successors(theMap.tileSpeeds, cur.0))
    {
      var g := theMap.tileSpeeds;
      var successors := GetSuccessors(cur.0);
      open', pm', rank' := open, pm, rank;
      var j := 0;
      while j < |successors|
        invariant j <= |successors|
        invariant Expanding(g, start, closed, cur, open', pm', rank')
        invariant Includes(open, open')
        invariant Queued(successors, j, open')
        invariant open' == open + PushAll(successors[..j])
        invariant pm' == RecordAll(pm, closed, cur, successors[..j])
      {
        open', pm', rank' := PushSuccessor(cur, open, pm, closed, start, successors, j, open', pm', rank');
        j := j + 1;
      }
      assert successors[..j] == successors;
      SuccessorsOpen(g, cur.0, successors, open');
      TilesGrow(open, open');
    }

    /** Pushing successor `j` extends the pushed items by its item. */
    lemma PushFold(open: seq<Item>, pm: ParentMap, closed: seq<Tile>, cur: Item, succs: seq<(Tile, Key, int)>, j: nat)
      requires j < |succs|
      ensures open + PushAll(succs[..j]) + [SuccessorItem(succs[j])] == open + PushAll(succs[..j + 1])
      ensures Recorded(RecordAll(pm, closed, cur, succs[..j]), closed, cur, SuccessorItem(succs[j]))
           == RecordAll(pm, closed, cur, succs[..j + 1])
    {
      FoldStep([], pm, closed, cur, succs, j, 0, false);
    }

    /** One pass of that loop: successor `j` is pushed and recorded, which extends both folds by one successor. */
    method PushSuccessor(cur: Item, open: seq<Item>, pm: ParentMap, closed: seq<Tile>, ghost start: Tile,
                         successors: seq<(Tile, Key, int)>, j: nat, q: seq<Item>, p: ParentMap,
                         ghost rank: map<Item, nat>)
      returns (q': seq<Item>, p': ParentMap, ghost rank': map<Item, nat>)
      requires j < |successors|
      requires successors[j].0 == Shift(cur.0, successors[j].1) && OnGrid(theMap.tileSpeeds, successors[j].0)
      requires Expanding(theMap.tileSpeeds, start, closed, cur, q, p, rank)
      requires Includes(open, q) && Queued(successors, j, q)
      requires q == open + PushAll(successors[..j])
      requires p == RecordAll(pm, closed, cur, successors[..j])
      ensures Expanding(theMap.tileSpeeds, start, closed, cur, q', p', rank')
      ensures Includes(open, q') && Queued(successors, j + 1, q')
      ensures q' == open + PushAll(successors[..j + 1])
      ensures p' == RecordAll(pm, closed, cur, successors[..j + 1])
    {
      var x := SuccessorItem(successors[j]);
      PushFold(open, pm, closed, cur, successors, j);
      PushStep(theMap.tileSpeeds, start, closed, cur, q, p, rank, x);
      QueuedStep(successors, j, q, q + [x]);
      IncludesStep(open, q, q + [x]);
      q' := q + [x];
      p', rank' := Record(p, rank, closed, cur, x);
    }

    /**
     * `depth_first`: the same search over a stack, so the item pushed last is
     * popped first.
     */
    method DepthFirst(xy1: (int, int), xy2: (int, int)) returns (path: seq<Option<Key>>, ghost expanded: seq<Tile>)
      requires OnGrid(theMap.tileSpeeds, XyToCr(xy1.0, xy1.1))
      ensures path == [] <==> !OnGrid(theMap.tileSpeeds, XyToCr(xy2.0, xy2.1))
      ensures path != [] ==> Replay(XyToCr(xy1.0, xy1.1), path) == XyToCr(xy2.0, xy2.1)
      ensures XyToCr(xy1.0, xy1.1) == XyToCr(xy2.0, xy2.1) ==> path == [None]
      ensures XyToCr(xy1.0, xy1.1) != XyToCr(xy2.0, xy2.1) ==> forall i :: 0 <= i < |path| ==> path[i].Some?
      ensures NoDuplicates(expanded) && XyToCr(xy2.0, xy2.1) !in expanded
      ensures forall t :: t in expanded ==> OnGrid(theMap.tileSpeeds, t)
    {
      var g := theMap.tileSpeeds;
      var start, goal := XyToCr(xy1.0, xy1.1), XyToCr(xy2.0, xy2.1);
      var pm: ParentMap := map[(start, None) := None];
      ghost var rank: map<Item, nat> := map[(start, None) := 0];
      var open: seq<Item> := [(start, None)];
      var closed: seq<Tile> := [];
      expanded := [];
      while open != []
        invariant SearchOk(g, start, goal, open, closed, pm, rank)
        invariant start == goal ==> open == [(start, None)]
        invariant ClosedSet(expanded) == ClosedSet(closed) && NoDuplicates(expanded)
        decreases AllTiles(g) - ClosedSet(closed), |open|
      {
        var i := |open| - 1;
        var cur := open[i];
        ghost var items := open;
        if cur.0 != goal {
          PopKeepsSearch(g, start, goal, items, closed, pm, rank, i);
        }
        open := RemoveAt(open, i);
        if cur.0 == goal {
          path := GetActionPath(cur, pm, rank, start);
          ExpandedAreClosed(g, expanded, closed, goal);
          return;
        }
        if cur.0 !in closed {
          ghost var popped := open;
          open, pm, rank := PushSuccessors(cur, open, pm, rank, closed, start);
          ExpandKeepsSearch(g, start, goal, popped, open, closed, pm, rank, cur.0);
          CloseShrinksRemaining(g, closed, cur.0);
          ExpandOnce(expanded, closed, cur.0);
          expanded := expanded + [cur.0];
        } else {
          RevisitKeepsSearch(g, start, goal, open, closed, pm, rank, cur.0);
          assert ClosedSet(expanded) == ClosedSet(closed + [cur.0]);
        }
        closed := closed + [cur.0];
      }
      EndSearch(g, start, goal, closed, pm, rank, expanded);
      path := [];
    }
  }
}
