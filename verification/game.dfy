/** The session record of one game and the commands that manage its player list:
    creation, joining, leaving, starting, and the bounded event log. */
module GameState {
  import opened Wrappers
  import opened Topology
  import opened Board

  type PlayerId = string

  const MaxPlayers: nat := 6
  const MinPlayersToStart: nat := 3
  const LogLimit: nat := 20
  const VictoryTarget: int := 10
  const RobberStart: int := 18

  /** Colours handed out by join order (the length of the player list at join time). */
  const PlayerColors: seq<string> := ["#e74c3c", "#3498db", "#2ecc71", "#f39c12", "#9b59b6", "#34495e"]

  /** A player's resource cards, one count per resource. */
  datatype Hand = Hand(wood: int, brick: int, wheat: int, sheep: int, ore: int)
  {
    function Get(r: Resource): int
    {
      match r
      case Wood => wood
      case Brick => brick
      case Wheat => wheat
      case Sheep => sheep
      case Ore => ore
    }

    /** This hand with `n` more cards of resource `r`. */
    function Add(r: Resource, n: int): (h: Hand)
      ensures h.Get(r) == Get(r) + n
      ensures forall s :: s != r ==> h.Get(s) == Get(s)
    {
      match r
      case Wood => this.(wood := wood + n)
      case Brick => this.(brick := brick + n)
      case Wheat => this.(wheat := wheat + n)
      case Sheep => this.(sheep := sheep + n)
      case Ore => this.(ore := ore + n)
    }

    /** This hand with `cost` taken away, resource by resource. */
    function Minus(cost: Hand): (h: Hand)
      ensures forall r :: h.Get(r) == Get(r) - cost.Get(r)
      ensures h.Total() == Total() - cost.Total()
    {
      Hand(wood - cost.wood, brick - cost.brick, wheat - cost.wheat, sheep - cost.sheep, ore - cost.ore)
    }

    function Total(): int
    {
      wood + brick + wheat + sheep + ore
    }

    predicate NonNegative()
    {
      forall r :: Get(r) >= 0
    }

    /** Whether this hand holds at least `cost` of every resource the cost names; the
        resources a cost leaves out (those with amount 0) are not looked at. */
    predicate Covers(cost: Hand)
    {
      forall r :: cost.Get(r) > 0 ==> Get(r) >= cost.Get(r)
    }
  }

  const EmptyHand: Hand := Hand(0, 0, 0, 0, 0)

  datatype Player = Player(
    id: PlayerId,
    name: string,
    color: string,
    hand: Hand,
    totalCards: int,
    victoryPoints: int,
    roads: int,
    settlements: int,
    cities: int)

  datatype BuildingKind = Road | Settlement | City

  /** What occupies a key of the building map. */
  datatype Building = Building(kind: BuildingKind, owner: PlayerId, color: string)

  datatype GamePhase = InitialPlacement | MainGame | Finished

  /** `Waiting` is the phase of a game that has not been started. */
  datatype TurnPhase = Waiting | PlaceSettlement | PlaceRoad | Roll | Build | Robber

  /** Lobby before `startGame`, Playing after. */
  datatype Status = Lobby | Playing

  /** The events the engine logs; the log's wording and timestamps are not modelled. */
  datatype LogEvent =
    | Joined | Left | Started
    | PlacedSettlement | PlacedRoad | ReceivedResources | NextPlacer | PlacementComplete
    | Built | Won | Rolled | RobberActivated | Distributed | MovedRobber | TurnEnded

  /** The rejections a command can return; the state is left as it was. */
  datatype Error =
    | GameFull
    | NotEnoughPlayers
    | PlayerNotFound
    | NotYourTurn
    | NotYourTurnOrWrongPhase
    | InvalidSettlement
    | InvalidRoad
    | NoSettlementRecorded
    | InvalidBuildingType
    | NotEnoughResources
    | NotOwnSettlement
    | InvalidRobberPlacement

  /** One game session. `buildings` is a single map for corners and edges alike, keyed by
      `t-i`; `placements` records, per player, the settlements placed during the initial
      placement, in order. */
  datatype Game = Game(
    players: seq<Player>,
    current: nat,
    board: seq<Tile>,
    dice: (int, int),
    robber: int,
    log: seq<LogEvent>,
    turnPhase: TurnPhase,
    gamePhase: GamePhase,
    status: Status,
    buildings: map<Pos, Building>,
    round: int,
    placements: map<PlayerId, seq<Pos>>)

  /** Index of the first player with id `id` (`players.find` / `findIndex`). */
  function FindPlayer(players: seq<Player>, id: PlayerId): (r: Option<nat>)
    ensures r.Some? ==> r.value < |players| && players[r.value].id == id
    ensures r.Some? ==> forall j :: 0 <= j < r.value ==> players[j].id != id
    ensures r.None? <==> forall j :: 0 <= j < |players| ==> players[j].id != id
  {
    FindPlayerFrom(players, id, 0)
  }

  function FindPlayerFrom(players: seq<Player>, id: PlayerId, from: nat): (r: Option<nat>)
    requires from <= |players|
    requires forall j :: 0 <= j < from ==> players[j].id != id
    ensures r.Some? ==> from <= r.value < |players| && players[r.value].id == id
    ensures r.Some? ==> forall j :: 0 <= j < r.value ==> players[j].id != id
    ensures r.None? <==> forall j :: 0 <= j < |players| ==> players[j].id != id
    decreases |players| - from
  {
    if from == |players| then None
    else if players[from].id == id then Some(from)
    else FindPlayerFrom(players, id, from + 1)
  }

  /** The first tile with id `id` (`board.find`). */
  function FindTile(board: seq<Tile>, id: int): (r: Option<Tile>)
    ensures r.Some? ==> r.value in board && r.value.id == id
    ensures r.Some? ==> exists k :: 0 <= k < |board| && board[k] == r.value && forall j :: 0 <= j < k ==> board[j].id != id
    ensures r.None? <==> forall j :: 0 <= j < |board| ==> board[j].id != id
    ensures (forall j :: 0 <= j < |board| ==> board[j].id == j) && 0 <= id < |board| ==> r == Some(board[id])
  {
    if |board| == 0 then None
    else if board[0].id == id then Some(board[0])
    else FindTile(board[1..], id)
  }

  /** Append an entry and keep only the 20 most recent ones. */
  function AddToLog(log: seq<LogEvent>, e: LogEvent): (r: seq<LogEvent>)
    ensures |r| == if |log| < LogLimit then |log| + 1 else LogLimit
    ensures r[|r| - 1] == e
    ensures |log| < LogLimit ==> r == log + [e]
    ensures |log| >= LogLimit ==> r == log[|log| - LogLimit + 1..] + [e]
  {
    var l := log + [e];
    if |l| > LogLimit then l[|l| - LogLimit..] else l
  }

  /** The state of a freshly created game on the given board: no players, buildings, log
      or recorded placements; dice showing (1, 1); the robber on tile 18; waiting in the
      lobby before the initial placement, round 1. */
  function NewGame(board: seq<Tile>): (g: Game)
    ensures g.board == board
    ensures g.players == [] && g.current == 0
    ensures g.buildings == map[] && g.log == [] && g.placements == map[]
    ensures g.dice == (1, 1) && g.robber == RobberStart
    ensures g.turnPhase == Waiting && g.gamePhase == InitialPlacement && g.status == Lobby
    ensures g.round == 1
  {
    Game([], 0, board, (1, 1), RobberStart, [], Waiting, InitialPlacement, Lobby, map[], 1, map[])
  }

  /** The player record created on joining. */
  function NewPlayer(id: PlayerId, name: string, color: string): Player
  {
    Player(id, name, color, EmptyHand, 0, 0, 0, 0, 0)
  }

  /** A player joins with their id, name and colour, and every resource count,
      `totalCards`, victory points and building counter at zero. */
  lemma NewPlayerStartsBlank(id: PlayerId, name: string, color: string)
    ensures var p := NewPlayer(id, name, color);
      && p.id == id && p.name == name && p.color == color
      && (forall r :: p.hand.Get(r) == 0)
      && p.hand.Total() == 0 && p.totalCards == 0 && p.victoryPoints == 0
      && p.roads == 0 && p.settlements == 0 && p.cities == 0
  {
  }

  /** `addPlayer`: join at the end of the player list with the colour of the join slot,
      unless six players are already in. Joining is possible in any phase. */
  function AddPlayer(g: Game, id: PlayerId, name: string): (r: Result<Game, Error>)
    ensures r.Failure? <==> |g.players| >= MaxPlayers
    ensures r.Failure? ==> r.error == GameFull
    ensures r.Success? ==>
      && |r.value.players| == |g.players| + 1
      && r.value.players[..|g.players|] == g.players
      && r.value.players[|g.players|] == NewPlayer(id, name, PlayerColors[|g.players|])
      && r.value == g.(players := r.value.players, log := AddToLog(g.log, Joined))
  {
    if |g.players| >= MaxPlayers then Failure(GameFull)
    else
      var p := NewPlayer(id, name, PlayerColors[|g.players|]);
      var players := g.players + [p];
      assert players[..|g.players|] == g.players && players[|g.players|] == p;
      Success(g.(players := players, log := AddToLog(g.log, Joined)))
  }

  /** `removePlayer`: drop the first player with this id; the turn index is kept unless it
      falls off the end of the shortened list, in which case it returns to 0. Buildings of
      the departed player stay on the board. */
  function RemovePlayer(g: Game, id: PlayerId): (r: Game)
    ensures FindPlayer(g.players, id).None? ==> r == g
    ensures FindPlayer(g.players, id).Some? ==>
      var k := FindPlayer(g.players, id).value;
      && r.players == g.players[..k] + g.players[k + 1..]
      && |r.players| == |g.players| - 1
      && r.current == (if g.current >= |g.players| - 1 then 0 else g.current)
      && r == g.(players := r.players, current := r.current, log := AddToLog(g.log, Left))
    ensures g.current < |g.players| && |r.players| > 0 ==> r.current < |r.players|
  {
    match FindPlayer(g.players, id)
    case None => g
    case Some(k) =>
      var players := g.players[..k] + g.players[k + 1..];
      var current := if g.current >= |players| then 0 else g.current;
      g.(players := players, current := current, log := AddToLog(g.log, Left))
  }

  /** `startGame`: with at least three players, (re)enter initial placement at player 0,
      round 1. There is no guard against restarting a game already under way, so a
      finished game can be sent back to initial placement. */
  function StartGame(g: Game): (r: Result<Game, Error>)
    ensures r.Failure? <==> |g.players| < MinPlayersToStart
    ensures r.Failure? ==> r.error == NotEnoughPlayers
    ensures r.Success? ==>
      && r.value.status == Playing
      && r.value.gamePhase == InitialPlacement
      && r.value.turnPhase == PlaceSettlement
      && r.value.round == 1
      && r.value.current == 0
      && r.value.players == g.players
      && r.value.buildings == g.buildings
      && r.value.placements == g.placements
      && r.value.robber == g.robber
    ensures r.Success? ==>
      r.value == g.(status := Playing, gamePhase := InitialPlacement, turnPhase := PlaceSettlement,
                    round := 1, current := 0, log := AddToLog(g.log, Started))
  {
    if |g.players| < MinPlayersToStart then Failure(NotEnoughPlayers)
    else
      Success(g.(status := Playing, gamePhase := InitialPlacement, turnPhase := PlaceSettlement,
                 round := 1, current := 0, log := AddToLog(g.log, Started)))
  }
}
