# Catan multiplayer engine — Dafny model

This project models the authoritative game engine of a multiplayer Catan server
(`server/server.js`). It covers the `CatanGame` session object and the tile-local hex
topology helpers it relies on:

- board generation: a fixed 35-tile layout whose 18 land slots get a Fisher–Yates
  shuffle of the resource pool and of the number-token pool;
- the vertex/edge topology: ids `t-i` are local to one tile, and corners and edges
  share one key space;
- placement legality: the tile-local distance rule and road connectivity, plus the
  option lists offered to the acting player;
- the state machine: joining and leaving, starting, the snake-draft initial placement,
  main-game building with costs, dice payout, the robber, passing the turn, and
  victory detection;
- the event log bounded to its 20 most recent entries.

The model is functional. A `GameState.Game` record holds the session. Each command is
a pure function from a game to `Success(newGame)` or `Failure(error)`; a failure leaves
the caller's game as it was, just as the source returns `{success: false}` before
mutating anything. Randomness comes in as parameters:
- the shuffle's index draws are an input of `Board.GenerateBoard`;
- the two dice are inputs of `Turn.RollDice`.

Modules, leaf first:
- `Wrappers`: `Option` and `Result`.
- `Topology`: the `t-i` key `Pos` and its neighbours.
- `Board`: tiles, pools and layout.
- `GameState`: players, buildings, phases, the log, and join/leave/start.
- `Placement`: the legality checks and option lists.
- `Engine`: `placeBuilding`, initial and main-game placement, and the victory check.
- `Turn`: dice, payout, robber and end of turn.
- `SnakeDraft`, `Rules`, `Payout`, `Invariants`, `Scenarios`: lemmas about the above.

Facts about the code that a reader might not expect:

- The board has 35 tiles (ids 0–34): 16 water, the desert (18) and 18 land slots. All
  18 number tokens are dealt.
- A city keeps its settlement's point and adds one. The upgrade subtracts a settlement,
  adds a city and adds one point, so `victoryPoints == settlements + 2 * cities`, which
  `Invariants.Valid` carries. `Invariants.CityBreaksSettlementsPlusCities` shows that
  `victoryPoints == settlements + cities` fails after any city.
- After a first settlement at `10-2`, only road `10-1` is offered. Edge `10-2` shares its
  key with the settlement (`Scenarios.FirstSettlementOffersOneRoad`).
- `finished` is not permanent. `startGame` has no phase guard and sends any game with
  three or more players back to initial placement.
- Round-2 starting resources come only from the tile named in the settlement's id. At
  most one card is given, because `getAdjacentTiles` returns just that tile.
- The affordability check looks only at the resources a cost names
  (`Object.entries(cost)`), which `GameState.Hand.Covers` follows.
- A player who leaves during the road step hands that step to the next player in the
  list. When that player has no recorded settlement, the source throws a `TypeError` on
  their road, before any mutation. The model returns `Failure(NoSettlementRecorded)`
  (`Rules.DepartureStrandsRoadStep`, `Scenarios.DepartureDuringRoadStep`). `endTurn`
  cannot lead there: it always moves to the roll step, after which a road command during
  initial placement is a silent success (`Rules.EndTurnSkipsRoadStep`).

Quirks kept as the code has them:
- one key map for corners and edges;
- only settlements (not cities) trip the distance rule;
- no water check when a settlement is placed in the initial placement;
- silent success when the step and the requested type do not match;
- no `turnPhase` or `finished` check in main-game building or `endTurn`;
- `rollDice` and `endTurn` do not look at the game phase;
- duplicate player ids are allowed, and lookups take the first match.

`placeBuilding`, `rollDice`, `moveRobber` and `endTurn` read `players[currentPlayerIndex]`
directly. The model therefore requires a turn index inside a non-empty player list. This
follows from `Invariants.Valid` whenever the list is non-empty.

## Model

| member | source | states |
|---|---|---|
| `Topology.Prev` | server/server.js:47 | the corner before `i` is `(i + 5) % 6` |
| `Topology.Next` | server/server.js:48 | the corner after `i` is `(i + 1) % 6` |
| `Topology.AdjacentVertices` | server/server.js:41-55 | the neighbours of corner `t-c` are exactly `t-((c+5)%6)` and `t-((c+1)%6)`, never the corner itself |
| `Topology.AdjacentEdges` | server/server.js:57-68 | the edges at corner `t-c` are `t-((c+5)%6)` and `t-c`; the second shares the corner's key |
| `Topology.ConnectedVertices` | server/server.js:70-75 | edge `t-e` joins corners `t-e` and `t-((e+1)%6)` |
| `Topology.StaysOnTile` | server/server.js:41-83 | every topology result stays on the tile of its argument; the adjacent tiles of a corner are just `[t]` |
| `Topology.AdjacencySymmetric` | server/server.js:41-55 | corner neighbourhood is symmetric |
| `Topology.IncidenceAgrees` | server/server.js:57-75 | an edge meets a corner exactly when the corner is one of the edge's ends |
| `Board.Shuffle` | server/server.js:120-127 | for any draws `j` in `0..i`, the Fisher–Yates loop returns a permutation of its input: same length, same multiset |
| `Board.CreateBoard` | server/server.js:132-184 | 35 tiles whose id is their position; tile 18 is the desert with no number; water exactly at the 16 ring ids; land exactly at the 18 land ids, slot `k` taking the `k`-th shuffled resource and number |
| `Board.LayoutCoordinates` | server/server.js:135-184 | whatever the pools, tile `i` sits at the row and column of entry `i` of the source's fixed 35-entry table |
| `Board.LandSlotsHoldPools` | server/server.js:132-184 | reading the land slots back in id order returns exactly the shuffled pools |
| `Board.GenerateBoard` | server/server.js:107-184 | whatever the random draws, the board is `CreateBoard` of some dealt pools: ids are positions, coordinates fixed, water and desert without a number, and the land slots hold exactly {wood×4, brick×3, wheat×4, sheep×4, ore×3} and {2,3,3,4,4,5,5,6,6,8,8,9,9,10,10,11,11,12} as multisets |
| `GameState.Hand.Add` | server/server.js:478 | adding `n` cards changes that resource by `n` and no other |
| `GameState.Hand.Minus` | server/server.js:525-528 | paying a cost lowers each resource, and the hand size, by the cost |
| `GameState.FindPlayer` | server/server.js:217 | the index of the first player with the id, or none exactly when no player has it |
| `GameState.FindTile` | server/server.js:607 | the first tile with the id, or none exactly when no tile has it; on a board whose ids are positions it is the tile at that position |
| `GameState.NewGame` | server/server.js:86-105 | a new game has no players, buildings, log or recorded placements, dice (1, 1), the robber on tile 18, the waiting turn phase, initial placement, the lobby, round 1 |
| `GameState.NewPlayerStartsBlank` | server/server.js:194-208 | a joining player keeps the given id, name and colour, with every resource, `totalCards`, points and building counter at zero |
| `GameState.AddToLog` | server/server.js:645-650 | appending keeps the new entry last and at most the 20 most recent entries: length `min(n + 1, 20)`, a suffix of old log plus entry |
| `GameState.AddPlayer` | server/server.js:187-214 | rejected with "game full" exactly when six players are in; otherwise the new player, with the colour of its join slot and empty counters, is appended and nothing else changes but the log |
| `GameState.RemovePlayer` | server/server.js:216-228 | an unknown id changes nothing; otherwise the first player with the id is cut out, the others keep their order, and the turn index resets to 0 exactly when it falls off the end |
| `GameState.StartGame` | server/server.js:230-247 | rejected exactly below three players; otherwise playing, initial placement, settlement step, round 1, player 0, and nothing else changes but the log |
| `Placement.AnySettlement` | server/server.js:334-339 | true exactly when some listed key holds a settlement |
| `Placement.CanPlaceSettlement` | server/server.js:329-342 | false exactly when the key is occupied by anything or one of the two tile-local neighbours holds a settlement; the board is not consulted |
| `Placement.IsConnectedToPlayerRoad` | server/server.js:344-350 | true exactly when edge `t-((c+5)%6)` or `t-c` is a road of the player |
| `Placement.IsConnectedToPlayerNetwork` | server/server.js:352-369 | true exactly when the player owns anything at key `t-e` or `t-((e+1)%6)`, or a road at `t-((e+5)%6)` |
| `Placement.LandKeys` | server/server.js:303-312 | lists the six keys of every non-water tile, and only those |
| `Placement.Filter` | server/server.js:284-286 | keeps exactly the elements that pass the test |
| `Placement.InitialOptions` | server/server.js:260-292 | settlement step: exactly the legal corners of non-water tiles; road step: exactly the free edges at the player's last settlement; otherwise nothing |
| `Placement.MainOptions` | server/server.js:294-327 | corners: exactly the legal corners of land tiles that touch a road of the player; edges: exactly the free land edges connected to the player's network |
| `Placement.ValidPlacements` | server/server.js:249-258 | nothing for an unknown player; initial-placement options during initial placement; main-game options otherwise, a finished game included |
| `Engine.Credit` | server/server.js:591-592 | a payout raises one resource and `totalCards` by the same amount |
| `Engine.Cost` | server/server.js:490-494 | each building's cost, in total 2, 4 and 5 cards |
| `Engine.PlaceBuilding` | server/server.js:371-385 | an unknown player or a player out of turn is rejected; a success keeps the board, robber, player count and every building except at the target key |
| `Engine.HandleInitialPlacement` | server/server.js:387-441 | a settlement in the settlement step and a road in the road step go to their handlers; any other combination succeeds unchanged |
| `Engine.PlaceInitialSettlement` | server/server.js:390-417 | rejected exactly when the settlement rule fails; otherwise a settlement, +1 settlement, +1 point, recorded as the latest, the round-2 grant, the road step, nothing else |
| `Engine.PlaceInitialRoad` | server/server.js:419-438 | with no recorded settlement, a failure; otherwise rejected exactly off the last settlement's edges or on an occupied key; a success adds the road, +1 road, moves the draft as one advance does, and changes nothing else but the log |
| `Engine.InitialGrant` | server/server.js:411-414 | round 2 only: one card of the named tile's resource when that tile exists and produces, none otherwise |
| `Engine.GiveInitialResources` | server/server.js:471-484 | the player gains one card (and one in `totalCards`) of a producing named tile, nothing for water, desert or a missing tile |
| `Engine.AdvanceInitialPlacement` | server/server.js:443-469 | round 1 steps forward and turns into round 2 at the last player; round 2 steps back, and past player 0 the main game starts with player 0 rolling; while placing, the next step is a settlement |
| `Engine.Winner` | server/server.js:635-640 | the first player in order with at least 10 points; none exactly when nobody has 10 |
| `Engine.CheckVictory` | server/server.js:634-643 | the game is finished when someone has 10 points, and untouched otherwise |
| `Engine.AfterBuilding` | server/server.js:524-547 | the player pays the cost from each resource and from `totalCards`; a road adds a road; a settlement a settlement and a point; a city a city, a point, and one settlement less |
| `Engine.Commit` | server/server.js:524-552 | the build writes the building under the key, updates only the builder, and finishes the game exactly when someone has 10 points or it was finished |
| `Engine.HandleMainGamePlacement` | server/server.js:486-553 | rejections in order (unknown type, a named resource short of the cost, illegal spot) and success exactly when affordable and legal; on success the cost is paid from each resource and from `totalCards`, the counters move as the building demands, and the game is finished exactly when someone has 10 points (or was already); only the players, buildings, phase and log change |
| `Turn.PaySite` | server/server.js:584-594 | one corner of the loop credits exactly its yield to each player |
| `Turn.PayTile` | server/server.js:583-595 | the corner loop credits each player the tile's yield in the tile's resource |
| `Turn.PayTiles` | server/server.js:579-596 | the tile loop credits each player exactly the closed-form yield per resource and in total |
| `Turn.DistributeResources` | server/server.js:578-599 | every player ends with exactly the closed-form yield added, and only the players and log change |
| `Turn.RollDice` | server/server.js:555-576 | rejected exactly for a non-current player or outside the roll step; a 7 opens the robber step and pays nothing; any other total pays the yield and opens the build step |
| `Turn.MoveRobber` | server/server.js:601-619 | rejected for a non-current player, outside the robber step, or onto a missing or water tile; otherwise only the robber, the build step and the log change |
| `Turn.EndTurn` | server/server.js:621-632 | rejected exactly for a non-current player; otherwise the index becomes `(i + 1) % n` and the roll step begins |
| `SnakeDraft.DraftOrder` | server/server.js:443-462 | the order `0..n-1, n-1..0`: each player exactly at position `i` and `2n-1-i` |
| `SnakeDraft.Advanced` | server/server.js:443-469 | repeated advances keep the players and a valid turn index |
| `SnakeDraft.SnakeOrder` | server/server.js:443-469 | from player 0 in round 1, the `k`-th advance gives the turn to the `k`-th player of the draft order, round 1 then 2, and the `2n`-th starts the main game at player 0 rolling |
| `SnakeDraft.InitialTurn` | server/server.js:371-441 | an accepted settlement then an accepted road move the draft exactly as one advance, add one settlement, road and point, and the road is edge `t-((c+5)%6)` |
| `SnakeDraft.SettlementFixesRoad` | server/server.js:278-288 | after a settlement at `t-c`, the road offered and the road accepted are exactly `t-((c+5)%6)`, if free |
| `Rules.DistanceRule` | server/server.js:333-339 | no neighbour of a standing settlement accepts a settlement |
| `Rules.CitiesDoNotBlock` | server/server.js:336 | a corner next to a lone city still accepts a settlement |
| `Rules.InitialSettlementClosesNeighbours` | server/server.js:390-402 | after an initial settlement neither neighbouring corner accepts one |
| `Rules.WaterCornerAccepted` | server/server.js:391 | a free corner of a water tile is accepted in the initial placement but never offered |
| `Rules.MainSettlementNeedsPreviousRoad` | server/server.js:308 | a main-game settlement at `t-c` is offered only with the player's road at `t-((c+5)%6)` |
| `Rules.BuildingOccupiesEdge` | server/server.js:320 | a key holding a building is never offered as a road edge |
| `Rules.DepartureStrandsRoadStep` | server/server.js:216-228 | after a departure in the road step, a new current player without a recorded settlement has every road refused |
| `Rules.EndTurnSkipsRoadStep` | server/server.js:621-632 | after `endTurn` during initial placement, a road command by the current player succeeds without changing anything |
| `Rules.CityReplacesOwnSettlement` | server/server.js:517-535 | a city is accepted only on the player's own settlement and adds no key |
| `Payout.BarrenTileYieldsNothing` | server/server.js:589 | desert and water corners pay nothing |
| `Payout.YieldSplitsByResource` | server/server.js:590-592 | the yields per resource add up to the total yield |
| `Payout.QuietRollPaysNothing` | server/server.js:579 | a roll no tile pays on yields nothing |
| `Payout.SingleTilePayout` | server/server.js:579-596 | with one paying tile, each player gets exactly that tile's corner yield, in its resource only |
| `Payout.CornerYield` | server/server.js:587-592 | a settlement corner pays 1, a city 2, a road 0 |
| `Payout.RobberSilencesTile` | server/server.js:579 | after the robber moves onto the only tile carrying a number, that number pays nothing |
| `Invariants.NewGameValid` | server/server.js:86-105 | a new game on a generated board satisfies the invariant |
| `Invariants.AddPlayerPreserves` | server/server.js:187-214 | joining keeps the invariant, including the six-player cap |
| `Invariants.RemovePlayerPreserves` | server/server.js:216-228 | leaving keeps the turn index valid and the invariant |
| `Invariants.StartGamePreserves` | server/server.js:230-247 | starting keeps the invariant |
| `Invariants.InitialSettlementPreserves` | server/server.js:390-417 | an initial settlement keeps the invariant |
| `Invariants.InitialRoadPreserves` | server/server.js:419-438 | an initial road keeps the invariant |
| `Invariants.BuildKeepsPlayerOk` | server/server.js:524-547 | paying and building keep the hand non-negative, `totalCards` equal to the hand, and points equal to settlements + 2 × cities |
| `Invariants.MainPlacementPreserves` | server/server.js:486-553 | main-game building keeps the invariant |
| `Invariants.PlaceBuildingPreserves` | server/server.js:371-385 | every accepted placement keeps the invariant |
| `Invariants.PayoutKeepsPlayerOk` | server/server.js:578-599 | a payout keeps the player's counters consistent |
| `Invariants.RollDicePreserves` | server/server.js:555-576 | a roll keeps the invariant |
| `Invariants.MoveRobberPreserves` | server/server.js:601-619 | moving the robber keeps it on a non-water tile |
| `Invariants.EndTurnPreserves` | server/server.js:621-632 | passing the turn keeps the turn index valid |
| `Invariants.CityBreaksSettlementsPlusCities` | server/server.js:543-547 | after a city, points no longer equal settlements + cities |
| `Scenarios.StartState` | server/server.js:187-247 | three joins and a start give players a, b, c in join order, nothing built or recorded, player 0 to place a settlement in round 1 |
| `Scenarios.FirstSettlementOffersOneRoad` | server/server.js:230-292 | three players start at player 0, round 1; after a settlement at `10-2` the only road offered is `10-1` |
| `Scenarios.DepartureDuringRoadStep` | server/server.js:419-420 | when the first player leaves after settling, the second player inherits the road step with no recorded settlement and every road they send fails |

## Left out

- The client (`client/src/App.js`): rendering, floating-point hex geometry, and the client-side affordability gating.
- Socket.io and Express plumbing: event handlers, rooms, emits, HTTP routes, and the session registry of games. These are I/O only.
- `Math.random`: it is replaced by parameters (shuffle draws, dice values). The random game id is not modelled.
- Log text, timestamps, console output and chat messages: the log keeps an event tag per entry, to model its length and order.
- Ids as strings: `split('-').map(Number)` is not modelled. A key is an integer pair with an index in 0..5, so malformed or out-of-range id strings are not covered. Neither are non-integer robber targets.
- Building-type strings that name inherited object properties (`costs['toString']`) are not modelled. The type is a building kind or "unknown".
- Declared-but-unused fields: `developmentCards`, `knights`, `hasLongestRoad`, `hasLargestArmy`, and `initialPlacementOrder`. (`maxPlayers` is the constant `GameState.MaxPlayers`.) Robber card-stealing is a TODO in the source.
- Concurrency: every command is modelled as atomic, the way Node runs one event handler at a time.
