/** Building commands: the initial snake-draft placement, main-game building with costs,
    and the victory check that follows every main-game build. */
module Engine {
  import opened Wrappers
  import opened Topology
  import opened Board
  import opened GameState
  import opened Placement

  /** `p` with `n` more cards of resource `r`, counted in `totalCards` too. */
  function Credit(p: Player, r: Resource, n: int): (q: Player)
    ensures q.hand.Get(r) == p.hand.Get(r) + n
    ensures forall s :: s != r ==> q.hand.Get(s) == p.hand.Get(s)
    ensures q.totalCards == p.totalCards + n
    ensures q == p.(hand := q.hand, totalCards := q.totalCards)
  {
    p.(hand := p.hand.Add(r, n), totalCards := p.totalCards + n)
  }

  /** Building costs: road wood + brick; settlement wood + brick + wheat + sheep;
      city two wheat + three ore. */
  function Cost(kind: BuildingKind): (c: Hand)
    ensures c.NonNegative()
    ensures c.Total() == (match kind case Road => 2 case Settlement => 4 case City => 5)
  {
    match kind
    case Road => Hand(1, 1, 0, 0, 0)
    case Settlement => Hand(1, 1, 1, 1, 0)
    case City => Hand(0, 0, 2, 0, 3)
  }

  /** Whether the turn index designates a player, or the list is empty and it is 0. */
  predicate IndexOk(g: Game)
  {
    if |g.players| == 0 then g.current == 0 else g.current < |g.players|
  }

  /** `placeBuilding`: an unknown player or a player out of turn is rejected; otherwise the
      command goes to the handler of the current game phase. `kind` is `None` when the
      requested type names no building. */
  function PlaceBuilding(g: Game, pid: PlayerId, kind: Option<BuildingKind>, pos: Pos): (r: Result<Game, Error>)
    requires IndexOk(g)
    ensures FindPlayer(g.players, pid).None? ==> r == Failure(PlayerNotFound)
    ensures FindPlayer(g.players, pid).Some? && g.players[g.current].id != pid ==> r == Failure(NotYourTurn)
    ensures r.Success? ==> g.players[g.current].id == pid
    ensures r.Success? ==> r.value.board == g.board && r.value.robber == g.robber
    ensures r.Success? ==> |r.value.players| == |g.players| && r.value.current < |g.players|
    ensures r.Success? ==> forall q :: q in g.buildings && q != pos ==> q in r.value.buildings && r.value.buildings[q] == g.buildings[q]
    ensures r.Success? ==> r.value.buildings.Keys <= g.buildings.Keys + {pos}
  {
    match FindPlayer(g.players, pid)
    case None => Failure(PlayerNotFound)
    case Some(_) =>
      if g.players[g.current].id != pid then Failure(NotYourTurn)
      else if g.gamePhase == InitialPlacement then HandleInitialPlacement(g, pid, kind, pos)
      else HandleMainGamePlacement(g, pid, kind, pos)
  }

  /** `handleInitialPlacement`: a settlement in the settlement step, a road in the road
      step; a command whose type does not fit the step succeeds without changing anything. */
  function HandleInitialPlacement(g: Game, pid: PlayerId, kind: Option<BuildingKind>, pos: Pos): (r: Result<Game, Error>)
    requires g.current < |g.players| && FindPlayer(g.players, pid).Some?
    ensures g.turnPhase == PlaceSettlement && kind == Some(Settlement) ==>
      r == PlaceInitialSettlement(g, FindPlayer(g.players, pid).value, pos)
    ensures g.turnPhase == PlaceRoad && kind == Some(Road) ==>
      r == PlaceInitialRoad(g, FindPlayer(g.players, pid).value, pos)
    ensures (!(g.turnPhase == PlaceSettlement && kind == Some(Settlement)) &&
             !(g.turnPhase == PlaceRoad && kind == Some(Road))) ==> r == Success(g)
  {
    var i := FindPlayer(g.players, pid).value;
    if g.turnPhase == PlaceSettlement && kind == Some(Settlement) then PlaceInitialSettlement(g, i, pos)
    else if g.turnPhase == PlaceRoad && kind == Some(Road) then PlaceInitialRoad(g, i, pos)
    else Success(g)
  }

  /** The settlement step of the initial placement, for player `i`: a legal settlement is
      placed, scored, recorded as the player's latest, paid for in round 2, and the road
      step follows. */
  function PlaceInitialSettlement(g: Game, i: nat, pos: Pos): (r: Result<Game, Error>)
    requires i < |g.players|
    ensures r.Failure? <==> !CanPlaceSettlement(g, pos)
    ensures r.Failure? ==> r.error == InvalidSettlement
    ensures r.Success? ==>
      var p := g.players[i];
      && r.value.buildings == g.buildings[pos := Building(Settlement, p.id, p.color)]
      && |r.value.players| == |g.players|
      && r.value.players[i].settlements == p.settlements + 1
      && r.value.players[i].victoryPoints == p.victoryPoints + 1
      && r.value.players[i].roads == p.roads && r.value.players[i].cities == p.cities
      && r.value.players[i].id == p.id
      && r.value.players[i].hand == InitialGrant(g, pos, p.hand)
      && r.value.players[i].totalCards == p.totalCards + InitialGrant(g, pos, p.hand).Total() - p.hand.Total()
      && (forall j :: 0 <= j < |g.players| && j != i ==> r.value.players[j] == g.players[j])
      && LastPlacement(r.value, p.id) == Some(pos)
      && (forall q :: q != p.id ==> LastPlacement(r.value, q) == LastPlacement(g, q))
      && r.value.turnPhase == PlaceRoad
      && r.value == g.(buildings := r.value.buildings, players := r.value.players,
                       placements := r.value.placements, turnPhase := PlaceRoad, log := r.value.log)
  {
    var p := g.players[i];
    if !CanPlaceSettlement(g, pos) then Failure(InvalidSettlement)
    else
      var earlier := if p.id in g.placements then g.placements[p.id] else [];
      var g1 := g.(
        buildings := g.buildings[pos := Building(Settlement, p.id, p.color)],
        players := g.players[i := p.(settlements := p.settlements + 1, victoryPoints := p.victoryPoints + 1)],
        placements := g.placements[p.id := earlier + [pos]]);
      var g2 := if g.round == 2 then GiveInitialResources(g1, i, pos) else g1;
      Success(g2.(turnPhase := PlaceRoad, log := AddToLog(g2.log, PlacedSettlement)))
  }

  /** The road step of the initial placement, for player `i`: the road must go on a free
      edge meeting the player's last settlement; then the snake draft advances. With no
      settlement on record the source throws before changing anything. */
  function PlaceInitialRoad(g: Game, i: nat, pos: Pos): (r: Result<Game, Error>)
    requires g.current < |g.players| && i < |g.players|
    ensures LastPlacement(g, g.players[i].id).None? ==> r == Failure(NoSettlementRecorded)
    ensures LastPlacement(g, g.players[i].id).Some? ==>
      var s := LastPlacement(g, g.players[i].id).value;
      && (r.Failure? <==> pos !in AdjacentEdges(s) || pos in g.buildings)
      && (r.Failure? ==> r.error == InvalidRoad)
    ensures r.Success? ==>
      var p := g.players[i];
      var a := AdvanceInitialPlacement(g);
      && r.value.buildings == g.buildings[pos := Building(Road, p.id, p.color)]
      && r.value.players == g.players[i := p.(roads := p.roads + 1)]
      && r.value.current == a.current && r.value.round == a.round
      && r.value.gamePhase == a.gamePhase && r.value.turnPhase == a.turnPhase
      && r.value.placements == g.placements
      && r.value == g.(buildings := r.value.buildings, players := r.value.players,
                       current := a.current, round := a.round, gamePhase := a.gamePhase,
                       turnPhase := a.turnPhase, log := r.value.log)
  {
    var p := g.players[i];
    match LastPlacement(g, p.id)
    case None => Failure(NoSettlementRecorded)
    case Some(s) =>
      if pos !in AdjacentEdges(s) || pos in g.buildings then Failure(InvalidRoad)
      else
        var g1 := g.(
          buildings := g.buildings[pos := Building(Road, p.id, p.color)],
          players := g.players[i := p.(roads := p.roads + 1)],
          log := AddToLog(g.log, PlacedRoad));
        Success(AdvanceInitialPlacement(g1))
  }

  /** The hand a round-2 settlement at `pos` leaves its owner with: one card of the
      resource of the tile the id names, when that tile exists and produces. */
  function InitialGrant(g: Game, pos: Pos, hand: Hand): (h: Hand)
    ensures g.round != 2 ==> h == hand
    ensures g.round == 2 && FindTile(g.board, pos.tile).Some? && FindTile(g.board, pos.tile).value.terrain.Produces? ==>
      h == hand.Add(FindTile(g.board, pos.tile).value.terrain.res, 1)
    ensures g.round == 2 && (FindTile(g.board, pos.tile).None? || !FindTile(g.board, pos.tile).value.terrain.Produces?) ==>
      h == hand
  {
    if g.round != 2 then hand
    else match FindTile(g.board, pos.tile)
      case Some(Tile(_, Produces(res), _, _, _)) => hand.Add(res, 1)
      case _ => hand
  }

  /** `giveInitialResources`: player `i` receives one card for each tile touching `pos`
      that is neither water nor desert; tile-locally that is at most the tile `pos` names. */
  function GiveInitialResources(g: Game, i: nat, pos: Pos): (r: Game)
    requires i < |g.players|
    ensures FindTile(g.board, pos.tile).Some? && FindTile(g.board, pos.tile).value.terrain.Produces? ==>
      r.players == g.players[i := Credit(g.players[i], FindTile(g.board, pos.tile).value.terrain.res, 1)]
    ensures FindTile(g.board, pos.tile).None? || !FindTile(g.board, pos.tile).value.terrain.Produces? ==>
      r.players == g.players
    ensures r == g.(players := r.players, log := AddToLog(g.log, ReceivedResources))
  {
    var ts := AdjacentTiles(pos);
    var players :=
      match FindTile(g.board, ts[0])
      case Some(Tile(_, Produces(res), _, _, _)) => g.players[i := Credit(g.players[i], res, 1)]
      case _ => g.players;
    g.(players := players, log := AddToLog(g.log, ReceivedResources))
  }

  /** `advanceInitialPlacement`: the snake draft. Round 1 walks forward; past the last
      player it turns into round 2 at the last player, who therefore places twice in a
      row. Round 2 walks backward; past player 0 the main game begins with player 0
      rolling. While still placing, the next step is a settlement. */
  function AdvanceInitialPlacement(g: Game): (r: Game)
    requires g.current < |g.players|
    ensures r.current < |r.players|
    ensures g.round == 1 && g.current + 1 < |g.players| ==>
      r.current == g.current + 1 && r.round == 1 && r.gamePhase == g.gamePhase
    ensures g.round == 1 && g.current + 1 == |g.players| ==>
      r.current == |g.players| - 1 && r.round == 2 && r.gamePhase == g.gamePhase
    ensures g.round != 1 && g.current > 0 ==>
      r.current == g.current - 1 && r.round == g.round && r.gamePhase == g.gamePhase
    ensures g.round != 1 && g.current == 0 ==>
      r.current == 0 && r.round == g.round && r.gamePhase == MainGame && r.turnPhase == Roll
    ensures r.gamePhase == InitialPlacement ==> r.turnPhase == PlaceSettlement
    ensures r == g.(current := r.current, round := r.round, gamePhase := r.gamePhase,
                    turnPhase := r.turnPhase, log := r.log)
    ensures |g.log| <= LogLimit ==> |r.log| <= LogLimit
  {
    var n := |g.players|;
    var g1 :=
      if g.round == 1 then
        if g.current + 1 >= n then g.(round := 2, current := n - 1)
        else g.(current := g.current + 1)
      else if g.current == 0 then
        g.(gamePhase := MainGame, turnPhase := Roll, current := 0, log := AddToLog(g.log, PlacementComplete))
      else g.(current := g.current - 1);
    if g1.gamePhase == InitialPlacement then
      g1.(turnPhase := PlaceSettlement, log := AddToLog(g1.log, NextPlacer))
    else g1
  }

  /** Whether some player has reached the victory target. */
  predicate HasWinner(players: seq<Player>)
  {
    exists j :: 0 <= j < |players| && players[j].victoryPoints >= VictoryTarget
  }

  /** The first player, in player order, with at least 10 victory points. */
  function Winner(players: seq<Player>): (w: Option<nat>)
    ensures w.Some? ==> w.value < |players| && players[w.value].victoryPoints >= VictoryTarget
    ensures w.Some? ==> forall j :: 0 <= j < w.value ==> players[j].victoryPoints < VictoryTarget
    ensures w.None? <==> !HasWinner(players)
  {
    if |players| == 0 then None
    else if players[0].victoryPoints >= VictoryTarget then Some(0)
    else
      var w := Winner(players[1..]);
      assert forall j :: 1 <= j < |players| ==> players[j] == players[1..][j - 1];
      if w.Some? then Some(w.value + 1) else None
  }

  /** `checkVictoryCondition`: the game is finished once any player has 10 points. */
  function CheckVictory(g: Game): (r: Game)
    ensures r.gamePhase == (if HasWinner(g.players) then Finished else g.gamePhase)
    ensures !HasWinner(g.players) ==> r == g
    ensures HasWinner(g.players) ==> r == g.(gamePhase := Finished, log := AddToLog(g.log, Won))
  {
    match Winner(g.players)
    case None => g
    case Some(_) => g.(gamePhase := Finished, log := AddToLog(g.log, Won))
  }

  /** Whether `pid` may put a building of kind `k` at `pos` in the main game: a settlement
      needs a listed corner, a road a listed edge, a city the player's own settlement. */
  predicate MainPlacementOk(g: Game, pid: PlayerId, k: BuildingKind, pos: Pos)
  {
    match k
    case Settlement => pos in MainOptions(g, pid).vertices
    case Road => pos in MainOptions(g, pid).edges
    case City => pos in g.buildings && g.buildings[pos].kind == Settlement && g.buildings[pos].owner == pid
  }

  /** A player after paying for and building a `k`. */
  function AfterBuilding(p: Player, k: BuildingKind): (q: Player)
    ensures forall res :: q.hand.Get(res) == p.hand.Get(res) - Cost(k).Get(res)
    ensures q.totalCards == p.totalCards - Cost(k).Total()
    ensures q.victoryPoints == p.victoryPoints + (if k == Road then 0 else 1)
    ensures q.settlements == p.settlements + (match k case Road => 0 case Settlement => 1 case City => -1)
    ensures q.cities == p.cities + (if k == City then 1 else 0)
    ensures q.roads == p.roads + (if k == Road then 1 else 0)
    ensures q.id == p.id && q.name == p.name && q.color == p.color
  {
    var paid := p.(hand := p.hand.Minus(Cost(k)), totalCards := p.totalCards - Cost(k).Total());
    match k
    case Road => paid.(roads := p.roads + 1)
    case Settlement => paid.(settlements := p.settlements + 1, victoryPoints := p.victoryPoints + 1)
    case City => paid.(settlements := p.settlements - 1, cities := p.cities + 1, victoryPoints := p.victoryPoints + 1)
  }

  /** `handleMainGamePlacement`: checked in order, an unknown type, a cost the player cannot
      cover and an illegal position are rejected. Otherwise the cost is paid, the building
      written (a city replaces the settlement under the same key), the counters updated,
      and the game finishes if anyone has reached 10 points. Neither the turn phase nor a
      finished game is checked. */
  function HandleMainGamePlacement(g: Game, pid: PlayerId, kind: Option<BuildingKind>, pos: Pos): (r: Result<Game, Error>)
    requires FindPlayer(g.players, pid).Some?
    ensures kind.None? ==> r == Failure(InvalidBuildingType)
    ensures kind.Some? ==>
      var i := FindPlayer(g.players, pid).value;
      var p := g.players[i];
      var k := kind.value;
      && (!p.hand.Covers(Cost(k)) ==> r == Failure(NotEnoughResources))
      && (p.hand.Covers(Cost(k)) && !MainPlacementOk(g, pid, k, pos) ==>
            r == Failure(match k case Settlement => InvalidSettlement case Road => InvalidRoad case City => NotOwnSettlement))
      && (r.Success? <==> p.hand.Covers(Cost(k)) && MainPlacementOk(g, pid, k, pos))
      && (r.Success? ==>
        && r.value.buildings == g.buildings[pos := Building(k, pid, p.color)]
        && |r.value.players| == |g.players|
        && (forall res :: r.value.players[i].hand.Get(res) == p.hand.Get(res) - Cost(k).Get(res))
        && r.value.players[i].totalCards == p.totalCards - Cost(k).Total()
        && r.value.players[i].victoryPoints == p.victoryPoints + (if k == Road then 0 else 1)
        && r.value.players[i].settlements == p.settlements + (match k case Road => 0 case Settlement => 1 case City => -1)
        && r.value.players[i].cities == p.cities + (if k == City then 1 else 0)
        && r.value.players[i].roads == p.roads + (if k == Road then 1 else 0)
        && (forall j :: 0 <= j < |g.players| && j != i ==> r.value.players[j] == g.players[j])
        && (r.value.gamePhase == Finished <==> HasWinner(r.value.players) || g.gamePhase == Finished)
        && r.value == g.(players := r.value.players, buildings := r.value.buildings,
                         gamePhase := r.value.gamePhase, log := r.value.log))
  {
    match kind
    case None => Failure(InvalidBuildingType)
    case Some(k) =>
      var i := FindPlayer(g.players, pid).value;
      var p := g.players[i];
      if !p.hand.Covers(Cost(k)) then Failure(NotEnoughResources)
      else if !MainPlacementOk(g, pid, k, pos) then
        Failure(match k case Settlement => InvalidSettlement case Road => InvalidRoad case City => NotOwnSettlement)
      else Success(Commit(g, i, k, pos))
  }

  /** The success path of a main-game build by player `i`: pay, count, write the building,
      then check for a winner. */
  function Commit(g: Game, i: nat, k: BuildingKind, pos: Pos): (r: Game)
    requires i < |g.players|
    ensures r.buildings == g.buildings[pos := Building(k, g.players[i].id, g.players[i].color)]
    ensures r.players == g.players[i := AfterBuilding(g.players[i], k)]
    ensures r.gamePhase == Finished <==> HasWinner(r.players) || g.gamePhase == Finished
    ensures r == g.(players := r.players, buildings := r.buildings, gamePhase := r.gamePhase, log := r.log)
  {
    var p := g.players[i];
    var g1 := g.(
      players := g.players[i := AfterBuilding(p, k)],
      buildings := g.buildings[pos := Building(k, p.id, p.color)],
      log := AddToLog(g.log, Built));
    CheckVictory(g1)
  }
}
