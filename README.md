# Capture-the-flag decision and simulation engine, in Dafny

This project models the core of a two-team capture-the-flag game played on a
grid of terrain tiles. Each tile has a speed, and a speed of 0 means impassable.
The project covers four Python files of the game.

- **`app/the_map.py`** (module `MapGeometry`). The terrain map converts pixel
  coordinates to tile coordinates. It keeps each team's flag tile and flag
  area, lists the impassable tiles, reads speeds, and decides enemy territory
  and flag-area membership. `TheMap` is a class whose `SetFlagLocation` updates
  its fields in place.
- **`app/navigation.py`** (module `Search`, with the open lists in `OpenLists`).
  This file holds A*, breadth-first and depth-first search from the tile under
  one pixel position to the tile under another.
  - The parent map goes from each reached (tile, move) item to the item it was
    reached from.
  - Walking back through that map turns the goal into a list of moves.
  - The searches are imperative methods with their loops. Each is proved to
    return a path whose moves lead from the start tile to the goal tile. The
    path is empty exactly when the goal lies outside the grid, and no tile is
    expanded twice. Breadth-first search is also proved to return a shortest
    path: its queue is kept in two levels of distance from the start.
- **`app/virtual_game.py`** (modules `Arena`, `Simulation`,
  `SimulationProperties`, `SimulationInvariants`).
  - `VirtualMap` covers loading the terrain, removing inner barriers, drawing
    the flag positions, the flag areas, and the three "closest player" queries.
    Its `__init__` is `VirtualMap.Load`, which loads the terrain and then calls
    the constructor that lays the map out on it; likewise `VirtualGame.__init__`
    is `VirtualGame.Start`.
  - The direction helpers are `get_direction_to_xy`, `get_direction_away_from`
    and `go_between`.
  - `VirtualGame` covers its set-up, the private translation of a high-level
    action into a key, and `step`: one tick for one player, returning a reward
    and a done flag.
  - `step` is written as methods of the class that change the map's players and
    flags in place. Each method is proved to agree with a function on `World`
    values.
  - The rules of each outcome and the invariants a tick keeps are proved about
    those functions. There are three invariants:
    - each flag is in play exactly when one opponent carries it;
    - every player stays on a passable tile;
    - the roster never changes.
- **`app/high_level_policy.py`** (module `Policy`). This file holds the 14
  high-level action labels, the 9-bit high-level state, the 512 state codes,
  the available actions for a state, and the choice of an action from the
  utility table.
  - In probabilistic mode the choice samples in proportion to the shifted
    utilities.
  - In the other mode it is the empty label that the code returns.
  - `HighLevelPolicy` is a class that remembers the previous action.

The tick is modelled one level above the pixels. A player stands on a tile
(x = column, y = row) and moves one tile per tick. The speed of the target
tile decides whether a move succeeds.

Four behaviours of the code are worth knowing before reading the model.

- **Closest-player queries.** `best_dist` is never updated, so every eligible
  player replaces the previous one and the queries return the last eligible
  player in list order. `get_closest_player_to_xy_by_team` ignores its point.
- **Greedy mode.** When actions are not sampled, the policy returns the empty
  label `best_hla = ''` rather than the label of highest utility.
- **Carrier actions.** `go_opponent_flag_carrier` is re-added whenever the
  player's own flag is in play, and `gaurd_teammate_flag_carrier` whenever the
  opponents' flag is in play, with no test of who carries it.
- **State lookup.** The state is looked up with `list.index` among all 512
  codes, which always finds it, so there is no fallback to the previous action.

## Model

| member | source | states |
|---|---|---|
| Basics.Opponent | app/virtual_game.py:216 | the opponent team always differs from the player's team |
| Basics.OpenTileIsInterior | app/virtual_game.py:235-250 | on a map whose outer ring is impassable, a passable tile has all four neighbours on the grid, so the neighbour reads of a move stay in range |
| Basics.RowWhere | app/virtual_game.py:17-18 | the positions of one row that pass a test, exactly those, in increasing column order |
| Basics.Where | app/virtual_game.py:160-164 | `np.where` over a column band: exactly the (row, col) pairs in the band that pass the test, in row-major order |
| Basics.ZeroTiles | app/virtual_game.py:17-18 | `not_allowed` holds exactly the (row, col) pairs of the grid whose speed is 0, in row-major order |
| Basics.Run | app/virtual_game.py:39-40 | the inner range of a nested comprehension: exactly the pairs (a, b) with b0 <= b < b1, and b1 - b0 of them |
| Basics.Block | app/virtual_game.py:39-40 | a nested range comprehension holds exactly the pairs of the rectangle |
| Basics.BlockSize | app/virtual_game.py:39-40 | a rectangle comprehension has width times height entries (25 for a flag area) |
| Arena.LastEligible | app/virtual_game.py:45-59 | the position of the last player with another index and the requested team (and incapacitated, when asked), with none after it; None exactly when nobody qualifies |
| Arena.FirstCarrier | app/virtual_game.py:420-425 | the first player of a team carrying a flag, with none before it; None when nobody carries one |
| Arena.GetDirectionToXy | app/virtual_game.py:96-103 | a horizontal key exactly when the x offset is strictly larger; the key brings a player strictly closer to a distinct target; no offset gives 's' |
| Arena.GetDirectionAwayFrom | app/virtual_game.py:106-113 | a horizontal key exactly when the x offset is strictly smaller; 'a' exactly then with the player left of the point, 'w' exactly with a vertical key and the player above it, so zero offsets give 'd' and 's'; the key always takes the player one step further away |
| Arena.ScaleInvariant | app/virtual_game.py:116-120 | scaling an offset by a positive factor does not change the key chosen toward or away from it |
| Arena.GoBetween | app/virtual_game.py:116-120 | the key toward the floating-point midpoint of the two other positions |
| Arena.AwayFromMean | app/virtual_game.py:467-475 | the key away from the mean of the opponents' coordinates, computed with exact division |
| Arena.OpenBarriers | app/virtual_game.py:12-16 | same shape; every impassable tile off the outer ring becomes speed 1, and all else is kept |
| Arena.Terrain | app/virtual_game.py:9-16 | the terrain keeps the loaded grid's shape, with barriers removed unless allowed |
| Arena.RemoveBarriers | app/virtual_game.py:12-16 | the double loop rewrites the array in place to `OpenBarriers` of its old contents |
| Arena.LoadTerrain | app/virtual_game.py:9-16 | the loaded grid is `Terrain` of the array's contents |
| Arena.BarriersRemoved | app/virtual_game.py:12-16 | after removal a tile is impassable exactly when it was impassable and lies on the outer ring; a closed ring stays closed |
| Arena.PositiveRows | app/virtual_game.py:24-25 | the rows whose tile in the column is passable, exactly those, increasing |
| Arena.FlagXy | app/virtual_game.py:23-35 | a flag stands in its column on a passable row, with two passable rows of the column before it and two after it, as `random.choice(idx[2:-2])` picks |
| Arena.PlanOf | app/virtual_game.py:17-40 | the map's constants: `not_allowed` is exactly the zero tiles, the middle column is width // 2, the flags are `FlagXy` in columns 5 and width - 5, and each area is the 5x5 block around its flag |
| Arena.VirtualMap.constructor | app/virtual_game.py:7-42 | the map on a loaded terrain: its constants are `PlanOf` the terrain and the draws, no players, no flag in play |
| Arena.VirtualMap.Load | app/virtual_game.py:6-42 | `__init__`: the terrain is `Terrain` of the array's old contents (barriers removed unless allowed), the constants are `PlanOf` it, no players, no flag in play |
| Arena.VirtualMap.GetClosestPlayerByTeam | app/virtual_game.py:45-59 | the loop returns `LastEligible` over the registry |
| Arena.VirtualMap.GetClosestPlayerToXyByTeam | app/virtual_game.py:62-75 | the loop returns `LastEligible`, whatever the point |
| Arena.VirtualMap.GetClosestIncapacitatedPlayerByTeam | app/virtual_game.py:78-92 | the loop returns `LastEligible` restricted to incapacitated players |
| MapGeometry.XyToCr | app/the_map.py:65-66 | the tile (column, row) whose 30-pixel square contains the pixel, negative pixels included |
| MapGeometry.FlagSquareMembers | app/the_map.py:46-52 | a pair is in the flag square exactly when it is within the reach on both axes |
| MapGeometry.FlagSquareShape | app/the_map.py:46-52 | the flag square has (2k + 1)^2 tiles and contains the flag tile |
| MapGeometry.SquareTiles | app/the_map.py:47-52 | the double loop collects exactly the rectangle's tiles in row-major order |
| MapGeometry.RowTiles | app/the_map.py:47-51 | the inner loop collects exactly the tiles of one row of the rectangle, in column order |
| MapGeometry.TheMap.constructor | app/the_map.py:6-34 | stores the speeds and flag-area size, the middle column is width // 2, and both flag tiles start at (0, 0) with empty areas |
| MapGeometry.TheMap.SetFlagLocation | app/the_map.py:37-56 | sets one team's flag tile to (row, col) of the pixel and appends its flag square to that team's area, leaving the other team untouched |
| MapGeometry.TheMap.GetNotAllowedTiles | app/the_map.py:59-62 | exactly the zero-speed (row, col) tiles, in row-major order |
| MapGeometry.TheMap.FlagAreaBorderTiles | app/the_map.py:46 | the reach of a flag square, `(flag_area_size // 30) // 2 - 1`; `FlagSquareShape` gives the square (2k + 1)^2 tiles around the flag |
| MapGeometry.TheMap.GetSpeed | app/the_map.py:69-70 | a tile's speed is 0 exactly when the tile is in the not-allowed list |
| MapGeometry.TheMap.InEnemyTerritory | app/the_map.py:73-77 | past the middle column on the other team's side; `TerritoryPartition` states the partition it makes |
| MapGeometry.TheMap.TerritoryPartition | app/the_map.py:73-77 | every column but the middle one is enemy territory for exactly one team; the middle one for neither |
| MapGeometry.TheMap.InFlagArea | app/the_map.py:80-84 | membership of (row, col) in the team's appended flag-area list; `FlagTileInOwnArea` states what `SetFlagLocation` puts there |
| MapGeometry.TheMap.FlagTileInOwnArea | app/the_map.py:80-84 | after `SetFlagLocation` the flag tile is in its own team's flag area and earlier area tiles stay in it |
| OpenLists.Update | app/navigation.py:44 | `update` adds an absent item at the end and keeps the length when the item is present; the items are the old ones plus this one |
| OpenLists.UpdatePriority | app/navigation.py:44 | updating a present item keeps its place, lowers its priority to the new one only if that is lower, and changes no other entry |
| OpenLists.PriorityOf | app/navigation.py:44 | an item has a priority exactly when it is queued |
| OpenLists.Lower | app/navigation.py:44 | the priority `update` leaves: at most the offered one and the old one, and equal to one of them |
| OpenLists.UpdatePriorityOf | app/navigation.py:44 | after `update` the item's priority is `Lower` of its old one and the new one, and every other item's priority is unchanged |
| OpenLists.UpdateKeepsNoDuplicates | app/navigation.py:44 | the queue never holds an item twice |
| OpenLists.PopIndex | app/navigation.py:29 | `pop` takes the earliest entry of least priority |
| OpenLists.UpdateKeepsEqualPriorities | app/navigation.py:74 | queueing at priority p keeps a queue in which every priority is p |
| OpenLists.EqualPrioritiesPopFirst | app/navigation.py:67 | with equal priorities the queue pops its first entry |
| OpenLists.RemoveAt | app/navigation.py:29 | removing the popped entry keeps the others in order |
| OpenLists.RemoveKeepsEqualPriorities | app/navigation.py:67 | popping keeps every remaining priority equal |
| OpenLists.RemoveKeepsOthers | app/navigation.py:29 | popping one item keeps every other item |
| OpenLists.RemoveKeepsNoDuplicates | app/navigation.py:29 | after a pop the queue is still free of duplicates and no longer holds the popped item |
| Search.StepCost | app/navigation.py:134-161 | the speed of the tile, or 10^10 for a zero speed; `SuccessorsCover` states that every successor carries it |
| Search.Replay | app/navigation.py:131-163 | carries out a path of moves from a tile, each move shifting the tile as the successor of that move does; the partner of `GetActionPath` and of the search results |
| Search.Successors | app/navigation.py:126-165 | `__get_successors`: each successor is the neighbour its move reaches, on the grid |
| Search.SuccessorsCover | app/navigation.py:126-165 | at most four successors, each with the step cost of its tile, and one for every on-grid neighbour |
| Search.SuccessorsRanked | app/navigation.py:131-163 | successors come north, south, east, west, so no move repeats |
| Search.QueueAll | app/navigation.py:41-44 | the queue after `update` of each successor in turn at its priority; `QueuedPriority` and `UnqueuedPriority` state its priorities |
| Search.RecordAll | app/navigation.py:46-47 | the parent map after the guarded write for each successor in turn; `RecordedParents` states its entries |
| Search.PushAll | app/navigation.py:104-105 | the successor items in generation order; `PushedItems` states they are exactly the successors' items |
| Search.UnqueuedPriority | app/navigation.py:41-44 | an item that is not a successor keeps its priority through the `for` loop |
| Search.QueuedPriority | app/navigation.py:41-44 | each successor ends up queued at the smaller of its old priority and the one it is offered (cost so far + step cost + 1 for A*, 0 for breadth-first) |
| Search.PushedItems | app/navigation.py:104-105 | the pushed items are exactly the successors' items |
| Search.RecordedParents | app/navigation.py:46-47 | after the loop a successor item on an unclosed tile has the expanded item as parent; every other entry is as it was |
| Search.SuccessorAtUnitDistance | app/navigation.py:126-169 | every successor lies at squared distance 1 from its tile |
| Search.CartesianDistance | app/navigation.py:168-169 | the distance squared equals the squared distance, so a successor is at distance exactly 1 |
| Search.PopFirstInFirstOut | app/navigation.py:62-79 | breadth-first search keeps every priority 0, so it pops in insertion order |
| Search.PopKeepsSearch | app/navigation.py:28-49 | popping an item keeps the open items sound and keeps every neighbour of a closed tile closed or open |
| Search.PushKeepsOpen | app/navigation.py:104-108 | pushing a recorded successor keeps the open items sound |
| Search.QueueKeepsOpen | app/navigation.py:44-47 | queueing a recorded successor at any priority keeps the open items sound |
| Search.ExpandKeepsSearch | app/navigation.py:41-49 | once every neighbour of the expanded tile is open, closing it keeps the search invariant |
| Search.RevisitKeepsSearch | app/navigation.py:34-49 | a popped tile that was already closed is appended again without changing the closed set |
| Search.FrontierCoversGrid | app/navigation.py:28-50 | when the open list runs empty, every tile of the grid has been closed, so an empty result means the goal is off the grid |
| Search.ExpandOnce | app/navigation.py:34-49 | only tiles not yet closed are expanded, so no tile is expanded twice |
| Search.ExpandedAreClosed | app/navigation.py:34-49 | the expanded tiles lie on the grid and never include the goal |
| Search.CloseShrinksRemaining | app/navigation.py:28-49 | closing a new tile shrinks the set of unclosed tiles, so the search loops end |
| Search.StartSearch | app/navigation.py:18-26 | the start item alone in the open list, as the root of the parent map, satisfies the search invariant |
| Search.EndSearch | app/navigation.py:28-50 | an emptied open list means the goal is off the grid, and no expanded tile is the goal |
| Search.RecordStep | app/navigation.py:46-47 | recording a successor's parent keeps the parent map well founded, leading back to the start with each move a step |
| Search.Record | app/navigation.py:46-47 | the parent map gains the successor only when its tile is not closed |
| Search.QueueStep | app/navigation.py:41-47 | queueing one successor and recording its parent keeps the expansion invariant |
| Search.PushStep | app/navigation.py:104-108 | pushing one successor and recording its parent keeps the expansion invariant |
| Search.SuccessorsOpen | app/navigation.py:41-47 | once all successor items are open, every on-grid neighbour of the tile is open |
| Search.NeighbourDistance | app/navigation.py:131-163 | a move changes the distance from any tile by exactly one |
| Search.ReplayDistance | app/navigation.py:114-123 | a path of n moves ends no more than n steps from where it starts, so no path to the goal is shorter than its Manhattan distance |
| Search.CloserNeighbour | app/navigation.py:131-163 | every on-grid tile other than the start has an on-grid neighbour one step nearer the start |
| Search.BackFrame | app/navigation.py:114-123 | changing the parent map only away from an item and from closed tiles' items keeps the path walked back from it |
| Search.ZeroQueueAll | app/navigation.py:73-74 | breadth-first queueing only appends: the queue keeps its entries in place and gains successor items at its end, all at priority 0 |
| Search.NextDepthAt | app/navigation.py:66-79 | after a pass, an entry kept from the queue keeps its level and an appended entry lies one level below the old head |
| Search.LevelsStart | app/navigation.py:58-64 | the start item alone is a queue in levels, at depth 0 |
| Search.QueuedNotNearer | app/navigation.py:66-79 | a queued tile that is not closed is at least as far from the start as the head's level |
| Search.NewLevel | app/navigation.py:72-77 | an unclosed neighbour of the expanded tile is one step farther from the start than the head |
| Search.DepthOfChild | app/navigation.py:114-123 | walking back from an item takes one move more than from its parent |
| Search.RecordAllKeeps | app/navigation.py:73-77 | the parent-map updates of a pass keep the entries of closed tiles' items and of the expanded item |
| Search.PassAppends | app/navigation.py:66-79 | a breadth-first pass keeps the rest of the queue in front and appends only successor items of the head's tile |
| Search.ChildLevel | app/navigation.py:73-77 | a recorded successor lies one level below the expanded item |
| Search.EntryLevel | app/navigation.py:66-79 | after a pass every unclosed queued entry is as deep as its tile is far from the start, and so is its way back |
| Search.CoverNear | app/navigation.py:66-79 | a tile within the head's level stays closed or queued after a pass |
| Search.CoverFar | app/navigation.py:66-79 | when a level is used up, every tile of the next level is closed or queued |
| Search.LevelsStep | app/navigation.py:66-79 | one breadth-first pass keeps the queue in levels |
| Search.HeadPathLength | app/navigation.py:69-70 | the path returned for the head of a queue in levels has as many moves as its tile is far from the start |
| Search.Navigation.constructor | app/navigation.py:9-10 | keeps the map it is given |
| Search.Navigation.GetSuccessors | app/navigation.py:126-165 | exactly the on-grid neighbours, in the order north, south, east, west, each with its move and with the tile's speed as cost (1e10 when impassable) |
| Search.Navigation.GetActionPath | app/navigation.py:114-123 | walking back gives moves ending with the goal's move that, carried out from the start, reach the goal's tile; for the start item the path is `[None]`; the path is `ActionPath`, the moves of the parent chain |
| Search.Navigation.BackStep | app/navigation.py:118-121 | walking back one parent moves that parent's own move onto the front of the path |
| Search.Navigation.WalkBack | app/navigation.py:118-121 | one step back to the parent keeps the replayed path ending at the goal, and the parent is strictly nearer the start |
| Search.Navigation.FoldStep | app/navigation.py:41-47 | one more successor extends the queue, parent-map and push folds by its own update |
| Search.Navigation.QueueSuccessor | app/navigation.py:42-47 | one pass of the loop: the successor is queued at its priority (cost so far + step cost + Cartesian distance for A*, 0 for breadth-first) and recorded, which extends both folds by it |
| Search.Navigation.QueueSuccessors | app/navigation.py:41-47 | the queue becomes `QueueAll` of the successors at their priorities and the parent map `RecordAll`; the parent map and open list stay sound, every on-grid neighbour is queued, and breadth-first priorities stay 0 |
| Search.Navigation.PopItem | app/navigation.py:28-29 | takes the entry at `PopIndex`, the earliest of least priority (the first one when every priority is 0), and leaves the others in order; the search invariant holds once its tile is closed |
| Search.Navigation.CloseTile | app/navigation.py:34-49 | a tile not yet closed is expanded: the queue becomes `QueueAll` of its successors with the length of the path to it as cost so far (0 for the start and for breadth-first) and the parent map `RecordAll`; either way the tile is closed, keeping the search invariant; the unclosed tiles shrink, or the revisit leaves queue and map as they were |
| Search.Navigation.AStar | app/navigation.py:13-50 | the path is empty exactly when the goal tile is off the grid; otherwise its moves lead from start to goal; `[None]` when they coincide; no tile expanded twice |
| Search.Navigation.BreadthFirst | app/navigation.py:53-81 | the same guarantees as A*, and for a goal other than the start a shortest path: exactly as many moves as the Manhattan distance, and no more than any path of moves from start to goal |
| Search.Navigation.PushFold | app/navigation.py:104-108 | pushing successor j extends the pushed items and the parent-map fold by it |
| Search.Navigation.PushSuccessor | app/navigation.py:104-108 | one pass of the loop: the successor is pushed and recorded, which extends both folds by it |
| Search.Navigation.PushSuccessors | app/navigation.py:104-108 | the stack becomes the old one followed by the successor items in north, south, east, west order, and the parent map `RecordAll`; both stay sound and every on-grid neighbour is pushed |
| Search.Navigation.DepthFirst | app/navigation.py:84-111 | the same guarantees with a stack as the open list |
| Simulation.MoveSpeed | app/virtual_game.py:235-250 | the speed read for a key is non-zero exactly when there is a key and its target is a passable tile |
| Simulation.FirstEncounter | app/virtual_game.py:342-395 | the first player after whom the tag loop stops: another index, the same tile and a meeting that counts, with none before it |
| Simulation.VirtualGame.constructor | app/virtual_game.py:157-172 | on a map with no players, the blue and then the red team lined up from the ends of their shuffled start tiles; the flags are left as they were |
| Simulation.VirtualGame.Start | app/virtual_game.py:149-191 | `__init__`: the map loaded without barriers, with all the constants `PlanOf` gives, then blue and red lined up from their shuffled start tiles, no flag in play |
| Simulation.Action | app/virtual_game.py:402-477 | `__hla_to_direction`: the key (none for 'wait') and the new `prev_dir`, or the exception; `ActionRaises` and `ActionKeys` state when each happens |
| Simulation.Heading | app/virtual_game.py:414-475 | the key each targeted label heads in, or its exception; `HeadingRaises` states when it fails |
| Simulation.StepSpec | app/virtual_game.py:210-398 | `step` on `World` values; `OneOutcome`, `StepInvariants`, `StunnedStep` and `BlockedStep` state what it does |
| Simulation.Move | app/virtual_game.py:235-398 | a move attempt: refused with -5 when the speed read is 0, otherwise `Arrive` at the neighbour; `BlockedMove`, `MoveReward` and `MoveInvariants` state it |
| Simulation.Arrive | app/virtual_game.py:260-398 | the mover relocated with its territory flag updated, then `Land`; `TerritoryRule` states the flag |
| Simulation.Land | app/virtual_game.py:285-398 | win, else pick-up, else the tag loop; `WinRule`, `PickupRule`, `TagLoopRule` and `LandReward` state it |
| Simulation.WinOutcome | app/virtual_game.py:286-308 | everyone of another index hears the game is over, reward 500, done; `WinRule` and `WinKeepsFlags` state it |
| Simulation.PickupOutcome | app/virtual_game.py:312-338 | the mover takes the flag into play and the others hear of it, reward 50; `PickupEffects` and `PickupKeepsFlags` state it |
| Simulation.EncounterOutcome | app/virtual_game.py:342-398 | the first player stopping the tag loop decides with `Meet`, or a plain move with -1; `TagLoopRule` and `EncounterReward` state it |
| Simulation.Meet | app/virtual_game.py:350-395 | dispatches an encounter to its outcome; `MeetKeepsFlags` and `MeetKeepsRoster` state what every outcome keeps |
| Simulation.TagCarrierOutcome | app/virtual_game.py:352-364 | the tagged carrier incapacitated, its flag dropped and out of play, reward 100; `TagRule` and `CarrierTaggedKeepsFlags` state it |
| Simulation.TagOpponentOutcome | app/virtual_game.py:365-369 | the tagged opponent incapacitated and marked, reward 20; `TagRule` states it |
| Simulation.CarrierTaggedOutcome | app/virtual_game.py:371-384 | the mover incapacitated, its flag dropped and out of play, the tagger marked, reward -100; `TaggedRule` states it |
| Simulation.MoverTaggedOutcome | app/virtual_game.py:385-388 | the mover incapacitated and the tagger marked, reward -20; `TaggedRule` and `MoverTaggedKeepsFlags` state it |
| Simulation.ReviveOutcome | app/virtual_game.py:389-395 | the teammate revived with countdown 0, reward 25; `ReviveRule` states it |
| Simulation.VirtualGame.AddTeam | app/virtual_game.py:157-172 | appends one team lined up from the end of its start-tile list, leaving the flags alone |
| Simulation.VirtualGame.AddTeams | app/virtual_game.py:157-172 | from an empty roster, the blue team then the red team, lined up from their start tiles |
| Simulation.VirtualGame.FindCarrier | app/virtual_game.py:420-425 | the loop finds `FirstCarrier` of the team |
| Simulation.VirtualGame.TeamCoordinates | app/virtual_game.py:468-473 | the loop collects the team's x and y coordinates in list order |
| Simulation.VirtualGame.HlaToDirection | app/virtual_game.py:402-477 | the key (or none for 'wait') and the new `prev_dir` of `Action`, or its exception, with only the mover's `prev_dir` changed |
| Simulation.VirtualGame.Steer | app/virtual_game.py:414-475 | the key each targeted action heads in, or the exception it raises |
| Simulation.VirtualGame.Step | app/virtual_game.py:210-398 | the reward, done flag, players and flags after the tick are those of `StepSpec`; an exception leaves no result |
| Simulation.VirtualGame.Recuperate | app/virtual_game.py:218-228 | an incapacitated player counts down and recovers at zero; nothing else changes |
| Simulation.VirtualGame.Walk | app/virtual_game.py:235-398 | the move attempt does what `Move` says |
| Simulation.VirtualGame.Target | app/virtual_game.py:235-250 | the target tile and the speed read for it; a non-zero speed means the key's neighbour |
| Simulation.VirtualGame.Advance | app/virtual_game.py:260-398 | moving to a tile and settling does what `Arrive` says |
| Simulation.VirtualGame.MoveTo | app/virtual_game.py:260-282 | the mover on its new tile with its territory flag updated |
| Simulation.VirtualGame.Settle | app/virtual_game.py:285-398 | win, then pick-up, then the tag loop, as `Land` says |
| Simulation.VirtualGame.Win | app/virtual_game.py:286-308 | everyone of another index hears the game is over; reward 500, done |
| Simulation.VirtualGame.PickUp | app/virtual_game.py:312-338 | the mover takes the flag, which goes into play, and the others hear of it; reward 50 |
| Simulation.VirtualGame.Tag | app/virtual_game.py:342-398 | the tag loop does what `EncounterOutcome` says |
| Simulation.VirtualGame.Broadcast | app/virtual_game.py:287-293 | every player of another index hears the news as teammate or opponent; the flags are unchanged |
| Simulation.VirtualGame.Tell | app/virtual_game.py:288-335 | one player hears the news: lost or opponent-got-flag as an opponent, won or teammate-got-flag as a teammate |
| Simulation.VirtualGame.FindEncounter | app/virtual_game.py:342-350 | the loop finds `FirstEncounter` |
| Simulation.VirtualGame.Resolve | app/virtual_game.py:350-395 | the encounter's outcome is applied in place |
| Simulation.VirtualGame.TagCarrier | app/virtual_game.py:352-364 | the tagged carrier is incapacitated for 5 turns and loses the flag, which goes out of play; reward 100 |
| Simulation.VirtualGame.TagOpponent | app/virtual_game.py:365-369 | the tagged opponent is incapacitated and marked; reward 20 |
| Simulation.VirtualGame.CarrierTagged | app/virtual_game.py:371-384 | the mover is incapacitated and loses the flag, which goes out of play; the tagger is marked; reward -100 |
| Simulation.VirtualGame.MoverTagged | app/virtual_game.py:385-388 | the mover is incapacitated and the tagger marked; reward -20 |
| Simulation.VirtualGame.Revive | app/virtual_game.py:390-395 | the teammate is revived with countdown 0; reward 25 |
| SimulationProperties.EncounterReward | app/virtual_game.py:342-398 | each tag-loop outcome returns its own fixed reward and never ends the game |
| SimulationProperties.LandReward | app/virtual_game.py:285-398 | settling on a tile returns the reward of the outcome it fires and ends the game exactly on a win |
| SimulationProperties.MoveReward | app/virtual_game.py:235-398 | the same for a whole move attempt, blocked or not |
| SimulationProperties.OneOutcome | app/virtual_game.py:210-398 | every step ends in exactly one outcome, whose reward it returns, and is done exactly when it is a win |
| SimulationProperties.StunnedStep | app/virtual_game.py:218-228 | an incapacitated player's step only counts down, returning -5 and not done |
| SimulationProperties.BlockedStep | app/virtual_game.py:235-257 | a live player's step is refused exactly when there is no key or its target is impassable; it then returns -5, not done, and only `prev_dir` changes |
| SimulationProperties.BlockedMove | app/virtual_game.py:235-257 | a move attempt is refused exactly when there is no key or its target is impassable, and then changes nothing |
| SimulationProperties.TerritoryRule | app/virtual_game.py:265-282 | after a move the territory flag is set past the middle column on the enemy side, cleared on the own side, and kept on the middle column |
| SimulationProperties.WinRule | app/virtual_game.py:286-308 | arriving wins exactly when the mover carries a flag into its own flag area: reward 500, done, opponents told they lost and teammates that they won, the flags unchanged |
| SimulationProperties.PickupRule | app/virtual_game.py:312-338 | short of a win, arriving takes the flag exactly when it is the opponents' flag and not in play: reward 50, that flag in play, the others told |
| SimulationProperties.PickupEffects | app/virtual_game.py:312-338 | taking the flag sets the mover's flag, puts that flag in play and tells everyone of another index |
| SimulationProperties.TagLoopRule | app/virtual_game.py:342-398 | with neither a win nor a pick-up, the tag loop decides; the mover just moves, reward -1, exactly when nobody stops the loop |
| SimulationProperties.TagRule | app/virtual_game.py:350-369 | an active opponent in enemy territory or carrying a flag is tagged: incapacitated, a carried flag dropped and out of play, reward 100 or 20, nobody else changed |
| SimulationProperties.TaggedRule | app/virtual_game.py:370-388 | an active opponent on its own side tags a mover in enemy territory or carrying a flag: the mover is incapacitated and drops its flag, reward -100 or -20 |
| SimulationProperties.ReviveRule | app/virtual_game.py:389-395 | a teammate that stops the loop is incapacitated and is revived with countdown 0, reward 25, nothing else changed |
| SimulationProperties.SameIndexNeverMeets | app/virtual_game.py:343-345 | a player with the mover's index, even on the other team, never stops the tag loop |
| SimulationProperties.LastEligibleFinds | app/virtual_game.py:45-59 | a closest-player query finds somebody exactly when somebody qualifies |
| SimulationProperties.FirstCarrierFinds | app/virtual_game.py:420-428 | the carrier search finds somebody exactly when a player of the team carries a flag |
| SimulationProperties.TeamXsEmpty | app/virtual_game.py:467-474 | the centroid's coordinate lists are empty exactly when nobody is on the team |
| SimulationProperties.ActionRaises | app/virtual_game.py:402-477 | translating an action fails exactly when the player it needs is missing, with the matching exception |
| SimulationProperties.HeadingRaises | app/virtual_game.py:429-475 | a targeted action fails exactly when the player it needs is missing, with the matching exception |
| SimulationProperties.ActionKeys | app/virtual_game.py:402-477 | only 'wait' gives no key; only 'random' changes `prev_dir`, redrawing it on a roll of 1 and moving that way |
| SimulationInvariants.AtMostOneCarrier | app/virtual_game.py:312-338 | while the flags are accounted for, no team has two flag carriers |
| SimulationInvariants.AnnounceKeeps | app/virtual_game.py:287-293 | news changes nobody's team, index, tile or flag |
| SimulationInvariants.AnnounceCarriers | app/virtual_game.py:315-321 | news never changes who carries a flag |
| SimulationInvariants.LandKeepsFlags | app/virtual_game.py:285-398 | settling on a tile keeps each flag in play exactly when one opponent carries it |
| SimulationInvariants.WinKeepsFlags | app/virtual_game.py:286-308 | a win keeps the flags accounted for |
| SimulationInvariants.PickupKeepsFlags | app/virtual_game.py:312-338 | taking a flag that was not in play keeps the flags accounted for |
| SimulationInvariants.PickupCarriers | app/virtual_game.py:312-338 | after a pick-up the mover's team has exactly one carrier and the other team's count is unchanged |
| SimulationInvariants.EncounterKeepsFlags | app/virtual_game.py:342-398 | the tag loop keeps the flags accounted for |
| SimulationInvariants.MeetKeepsFlags | app/virtual_game.py:350-395 | each encounter keeps the flags accounted for |
| SimulationInvariants.CarrierTaggedKeepsFlags | app/virtual_game.py:371-384 | a tagged carrier's flag goes out of play with it |
| SimulationInvariants.MoverTaggedKeepsFlags | app/virtual_game.py:385-388 | tagging a mover without a flag keeps the flags accounted for |
| SimulationInvariants.DropKeepsFlags | app/virtual_game.py:355-361 | a carrier who loses the flag while it goes out of play keeps the flags accounted for |
| SimulationInvariants.LandKeepsRoster | app/virtual_game.py:285-398 | settling on a tile moves nobody and keeps every team and index |
| SimulationInvariants.EncounterKeepsRoster | app/virtual_game.py:342-398 | the tag loop moves nobody |
| SimulationInvariants.MeetKeepsRoster | app/virtual_game.py:350-395 | no encounter moves anybody |
| SimulationInvariants.CarrierTaggedKeepsRoster | app/virtual_game.py:371-384 | tagging a carrier moves nobody |
| SimulationInvariants.MoverTaggedKeepsRoster | app/virtual_game.py:385-388 | tagging the mover moves nobody |
| SimulationInvariants.NewsKeepsRoster | app/virtual_game.py:287-293 | news moves nobody |
| SimulationInvariants.StepInvariants | app/virtual_game.py:210-398 | every step keeps the flags accounted for, every player on a passable tile and the roster, with only the mover free to move |
| SimulationInvariants.TurnKeeps | app/virtual_game.py:230-398 | setting `prev_dir` and trying to move keeps the invariants |
| SimulationInvariants.RecoverKeeps | app/virtual_game.py:218-228 | an incapacitated player's turn keeps the invariants |
| SimulationInvariants.MoveInvariants | app/virtual_game.py:235-398 | one move attempt keeps the invariants |
| SimulationInvariants.LineupPlaced | app/virtual_game.py:157-172 | a team lined up from its shuffled start tiles stands on passable tiles of its own third, indices 0, 1, ..., without flags |
| SimulationInvariants.LineupTile | app/virtual_game.py:157-172 | the k-th player lined up stands on a passable tile of its team's third, with index k and no flag |
| SimulationInvariants.NoCarriers | app/virtual_game.py:129 | with nobody holding a flag, no team has a carrier |
| SimulationInvariants.InitialWorld | app/virtual_game.py:149-172 | the set-up puts blue then red on passable tiles of their own thirds with indices 0 to n - 1, and the flags are accounted for |
| Policy.IndexOf | app/high_level_policy.py:71 | `list.index`: the first position holding the value, or None when it is absent |
| Policy.Remove | app/high_level_policy.py:144-146 | `list.remove` drops one entry and keeps every other value |
| Policy.ColumnsListed | app/high_level_policy.py:11-26 | each of the 14 listed labels has its own position as its column, so no label is listed twice |
| Policy.ActionIndexIsIndex | app/high_level_policy.py:79 | `high_level_actions.index` finds every label, at its column |
| Policy.ActionIndex | app/high_level_policy.py:79 | the column of an action is where its label is listed |
| Policy.Code | app/high_level_policy.py:51 | a state code has the state's width and only 0/1 digits |
| Policy.ValueOfCode | app/high_level_policy.py:51 | the k-th code of the product read as a binary number is k |
| Policy.CodeOfValue | app/high_level_policy.py:51 | every 0/1 tuple is the code at the position of its binary value |
| Policy.Codes | app/high_level_policy.py:51 | there are 2^n codes of width n |
| Policy.CodeIndex | app/high_level_policy.py:71 | every 0/1 tuple of width n is found at the position of its binary value |
| Policy.StateIndex | app/high_level_policy.py:71 | every state is found among the 512 codes, at a row of the table |
| Policy.GetHighLevelState | app/high_level_policy.py:104-134 | the 9-digit state of a player, or the exception of a missing teammate or opponent; `StateIsBits`, `StatePercepts`, `StateRaises` and `IncapacitatedState` state it |
| Policy.StateIsBits | app/high_level_policy.py:104-134 | a computed state has 9 digits of 0 or 1, and its third digit is set exactly for an incapacitated player |
| Policy.IncapacitatedState | app/high_level_policy.py:109-111 | an incapacitated player's state has only the self-incapacitated digit set |
| Policy.StateRaises | app/high_level_policy.py:122-128 | the state fails exactly when no other teammate or no opponent is on the field |
| Policy.StatePercepts | app/high_level_policy.py:113-132 | each digit is set exactly when its percept holds: the flags in play for the player's side, its own flag and territory, and the flag and incapacity of the nearest teammate and opponent |
| Policy.RemoveCarrierChase | app/high_level_policy.py:144 | removing the carrier chase gives the 13 remaining labels in order |
| Policy.RemoveCarrierGuard | app/high_level_policy.py:145 | removing the carrier guard gives the 12 remaining labels in order |
| Policy.RemoveRevive | app/high_level_policy.py:146 | removing the revive action gives the 11 live labels |
| Policy.BaseHlasListed | app/high_level_policy.py:143-146 | the copy with the three flag-dependent labels removed is the 11 live labels |
| Policy.LiveLabelsDistinct | app/high_level_policy.py:143-146 | the live labels are distinct and exclude the three flag-dependent labels |
| Policy.GetAvailableHlas | app/high_level_policy.py:137-155 | the labels offered in a state; `AvailableHlas`, `LiveHlasDistinct` and `LiveHlasMembers` state them |
| Policy.AvailableHlas | app/high_level_policy.py:137-155 | an incapacitated player may only wait; otherwise the live labels come first, no label repeats, and each flag-dependent label is added exactly when its condition holds |
| Policy.LiveHlasDistinct | app/high_level_policy.py:143-155 | a live player's labels start with the live labels and never repeat |
| Policy.LiveHlasMembers | app/high_level_policy.py:148-153 | the carrier chase is offered exactly when the own flag is in play, the carrier guard exactly when the opponents' flag is, and revival exactly when the nearest teammate is incapacitated |
| Policy.Zeros | app/high_level_policy.py:57 | the untrained table has one row per state and one column per action |
| Policy.Utilities | app/high_level_policy.py:78-81 | each available action's utility is the table entry in the state's row and the action's column |
| Policy.MinOf | app/high_level_policy.py:85 | the minimum is one of the utilities and at most every one |
| Policy.Weights | app/high_level_policy.py:85-86 | one shifted utility per action |
| Policy.Probabilities | app/high_level_policy.py:89-90 | one probability per weight |
| Policy.WeightsPositive | app/high_level_policy.py:84-86 | the shifted utilities are at least epsilon, the smallest is exactly epsilon, and their order is the utilities' order |
| Policy.ProbabilitiesOfWeights | app/high_level_policy.py:84-90 | positive weights have a positive sum and divide into a distribution: non-negative, summing to 1 |
| Policy.Sample | app/high_level_policy.py:93 | the sampled index is the one whose cumulative interval contains the draw |
| Policy.SampleFrom | app/high_level_policy.py:93 | the search from k finds the interval containing the draw |
| Policy.SampleInterval | app/high_level_policy.py:93 | index k is sampled exactly when the draw falls in its interval, whose width is its probability |
| Policy.Pick | app/high_level_policy.py:88-95 | the sampled action is one of the available actions |
| Policy.Decide | app/high_level_policy.py:62-101 | what `get_high_level_action` returns for a live player; `DecideAvailable` and `DecideFromState` state it |
| Policy.DecideAvailable | app/high_level_policy.py:62-101 | the choice fails exactly when the state does; greedy mode gives the empty label; a probabilistic choice is an available action |
| Policy.DecideFromState | app/high_level_policy.py:69-97 | the state indexes a row of the table, the available actions are never empty, and the choice samples their shifted utilities |
| Policy.HighLevelPolicy.constructor | app/high_level_policy.py:8-59 | the 14 labels, the 512 codes, the given table or zeros, epsilon 1e-10 and previous action 'random' |
| Policy.HighLevelPolicy.ActionUtilities | app/high_level_policy.py:78-81 | one utility per available action, in order, each the state row's entry in that action's column |
| Policy.UtilitiesOf | app/high_level_policy.py:78-81 | utilities read pointwise from the row are exactly `Utilities` of the available actions |
| Policy.HighLevelPolicy.GetHighLevelAction | app/high_level_policy.py:62-101 | an incapacitated player waits with the previous action kept; otherwise the result is `Decide`, and it becomes the previous action unless an exception was raised |
| Policy.HighLevelPolicy.Choose | app/high_level_policy.py:69-99 | the live-player branch computes `Decide` |

## Left out

- The `PriorityQueue` and `Stack` of the `utils` module are not part of this model. The queue is given the behaviour of the common `utils.py` these names come from: `update` lowers a priority in place, and `pop` takes the least priority, earliest first.
- Floating point is not modelled. Speeds, costs and coordinates are integers. The 1e10 barrier cost is the integer 10^10. A successor's Cartesian distance is the integer 1, which is exact because successors are adjacent. Utilities, epsilon and probabilities are exact reals. The midpoint in `go_between` and the centroid use exact division.
- Randomness is a parameter.
  - The flag rows drawn by `random.choice` are the indices `blueDraw` and `redDraw`.
  - `random.shuffle` is the caller's permutation of the start tiles.
  - Each player's initial `prev_dir` is taken from `prevDirs`.
  - The draws of `__hla_to_direction` are `Draws`, for `randint(1, 20)` and the `random.choice` of a key.
  - The draw of `np.random.choice` is a uniform `u` in [0, 1), mapped through the cumulative distribution.
- Loading files is not modelled. The `np.load` of the speed array becomes an array argument, and the `np.load` of a Q table becomes an optional table. Verbose printing is dropped.
- The `state_probs.pkl` branch of the policy constructor is not modelled. It reads a pickle of state counts, with `pickle` never imported, and keeps only the codes seen more than 100 times. The model keeps the 512 codes that are used when no such file exists.
- Policy.HighLevelPolicy.constructor: the file imports only `os`, `random` and `numpy`, yet the branch the model keeps builds the codes with `itertools.product` (app/high_level_policy.py:51), so as written that branch raises NameError. The model assumes the missing `import itertools`.
- The `new_map` branch of `TheMap` is not modelled: `MapGenerator` and `app/map_generator.py` are not part of this model. `border_size`, `tile_size`, `map_path`, and the unused `player_tile` and agent tile lists of `TheMap` are not modelled either.
- `config.py` is not part of this model.
  - The terrain tile size is the constant 30.
  - `flag_area_size` is a constructor parameter.
  - The team size is a parameter, and both teams have that size.
- Players are records in the map's player list, and `step` names its player by position in that list. The back-reference of `VirtualPlayer` to the map, and Python's object identity, are not modelled. The tag and news loops skip players by `player_idx`, as the code does.
- The player attribute `in_flag_area` is kept as `inFlagArea`, false from the start; the core never reads or changes it. The back-reference `the_map` is not kept.
- A missing player or an empty opponent list raises an exception in the code. The model returns an `Err` naming the fault instead.
- Arena.VirtualMap.constructor: requires each flag column to have more than four passable rows, with the draw among the candidates. On a column with fewer than five passable rows, `random.choice(idx[2:-2])` raises IndexError (app/virtual_game.py:26, 34); that error path is not modelled.
- Arena.VirtualMap.Load: the same draw requires as the constructor, so the IndexError of a column with fewer than five passable rows is not modelled.
- Simulation.VirtualGame.Start: the same draw requires as `VirtualMap.Load`. It also requires each team's start-tile list to hold at least the team size, so the IndexError of `pop()` on a used-up list (app/virtual_game.py:168) is not modelled.
- Simulation.VirtualGame.constructor: requires each start-tile list to hold at least the team size, so the IndexError of `pop()` on a used-up list (app/virtual_game.py:168) is not modelled.
- MapGeometry.TheMap.GetSpeed: requires the tile to be on the grid. numpy would read a negative index from the other end of the array, and raise IndexError past the end (app/the_map.py:70); neither is modelled.
- Search.Navigation.AStar: requires the start tile to be on the grid. For a start pixel off the map the code reads `tile_speeds` out of range (IndexError) or wraps a negative index (app/navigation.py:132-163); neither is modelled.
- Search.Navigation.BreadthFirst: requires the start tile to be on the grid, for the same reason as `AStar`.
- Search.Navigation.DepthFirst: requires the start tile to be on the grid, for the same reason as `AStar`.
- Simulation.VirtualGame.Step: takes a label, so greedy mode's empty label `''` cannot be passed in. The code treats it as it treats 'wait': `__hla_to_direction` returns `''`, no move is made, and the step returns (-5, False).
- A step requires an outer ring of impassable tiles and a mover standing on a passable tile. Without the ring, the code's neighbour reads can wrap around or fall outside the array.
- Arena.VirtualMap.GetClosestPlayerToXyByTeam: the point it is given has no effect, because the code never uses it.
- Policy.HighLevelPolicy.constructor: requires a loaded table to have 512 rows of 14 entries. The code would accept any array and fail later on a short one.
- Policy.ProbabilitiesOfWeights: states that the probabilities form a distribution. It does not state that each probability is its weight divided by the sum, although `Probabilities` computes it that way.
- Policy.HighLevelPolicy.GetHighLevelAction: requires a draw `u` in [0, 1) in place of the numpy random state.
- Search.Navigation.AStar: states soundness of the returned path and termination, not that A* finds a cheapest path. With the cost the code computes (path length so far plus step cost plus 1), the order of expansion gives no such guarantee.
- The code that calls these classes is not modelled: the learning loop, the game window, `Player` and `capture_the_flag.py`.
