/** The session invariant and its preservation by every command. */
module Invariants {
  import opened Wrappers
  import opened Topology
  import opened Board
  import opened GameState
  import opened Placement
  import opened Engine
  import opened Turn
  import opened Payout

  /** What the counters of one player keep: no resource count below zero, `totalCards` the
      size of the hand, and a settlement worth one point and a city two. */
  predicate PlayerOk(p: Player)
  {
    && p.hand.NonNegative()
    && p.totalCards == p.hand.Total()
    && p.victoryPoints == p.settlements + 2 * p.cities
  }

  /** The robber stands on a tile of the board that is not water. */
  predicate RobberOk(g: Game)
  {
    FindTile(g.board, g.robber).Some? && FindTile(g.board, g.robber).value.terrain != Water
  }

  predicate Valid(g: Game)
  {
    && IndexOk(g)
    && |g.players| <= MaxPlayers
    && |g.log| <= LogLimit
    && (forall j :: 0 <= j < |g.players| ==> PlayerOk(g.players[j]))
    && RobberOk(g)
  }

  /** A new game on a generated board is valid: no players, an empty log, and the robber
      on the desert. */
  lemma NewGameValid(board: seq<Tile>)
    requires |board| == BoardSize
    requires forall i :: 0 <= i < |board| ==> board[i].id == i
    requires board[DesertId] == Tile(DesertId, Desert, None, 3, 4)
    ensures Valid(NewGame(board))
  {
  }

  lemma AddPlayerPreserves(g: Game, id: PlayerId, name: string)
    requires Valid(g)
    ensures AddPlayer(g, id, name).Success? ==> Valid(AddPlayer(g, id, name).value)
  {
  }

  lemma RemovePlayerPreserves(g: Game, id: PlayerId)
    requires Valid(g)
    ensures Valid(RemovePlayer(g, id))
  {
    var r := RemovePlayer(g, id);
    if FindPlayer(g.players, id).Some? {
      var k := FindPlayer(g.players, id).value;
      assert forall j :: 0 <= j < |r.players| ==> r.players[j] == g.players[if j < k then j else j + 1];
    }
  }

  lemma StartGamePreserves(g: Game)
    requires Valid(g)
    ensures StartGame(g).Success? ==> Valid(StartGame(g).value)
  {
  }

  lemma InitialSettlementPreserves(g: Game, i: nat, pos: Pos)
    requires Valid(g) && i < |g.players|
    requires PlaceInitialSettlement(g, i, pos).Success?
    ensures Valid(PlaceInitialSettlement(g, i, pos).value)
  {
    var r := PlaceInitialSettlement(g, i, pos).value;
    var p := g.players[i];
    var h := InitialGrant(g, pos, p.hand);
    assert h.NonNegative();
    assert PlayerOk(r.players[i]);
    assert |r.log| <= LogLimit by {
      var earlier := if p.id in g.placements then g.placements[p.id] else [];
      var g1 := g.(
        buildings := g.buildings[pos := Building(Settlement, p.id, p.color)],
        players := g.players[i := p.(settlements := p.settlements + 1, victoryPoints := p.victoryPoints + 1)],
        placements := g.placements[p.id := earlier + [pos]]);
      var g2 := if g.round == 2 then GiveInitialResources(g1, i, pos) else g1;
      assert |g2.log| <= LogLimit;
    }
  }

  lemma InitialRoadPreserves(g: Game, i: nat, pos: Pos)
    requires Valid(g) && g.current < |g.players| && i < |g.players|
    requires PlaceInitialRoad(g, i, pos).Success?
    ensures Valid(PlaceInitialRoad(g, i, pos).value)
  {
    var p := g.players[i];
    var g1 := g.(
      buildings := g.buildings[pos := Building(Road, p.id, p.color)],
      players := g.players[i := p.(roads := p.roads + 1)],
      log := AddToLog(g.log, PlacedRoad));
    assert PlaceInitialRoad(g, i, pos).value == AdvanceInitialPlacement(g1);
  }

  /** Paying for and building anything keeps a player's counters consistent. */
  lemma BuildKeepsPlayerOk(p: Player, k: BuildingKind)
    requires PlayerOk(p) && p.hand.Covers(Cost(k))
    ensures PlayerOk(AfterBuilding(p, k))
  {
  }

  lemma MainPlacementPreserves(g: Game, pid: PlayerId, kind: Option<BuildingKind>, pos: Pos)
    requires Valid(g) && FindPlayer(g.players, pid).Some?
    requires HandleMainGamePlacement(g, pid, kind, pos).Success?
    ensures Valid(HandleMainGamePlacement(g, pid, kind, pos).value)
  {
    var i := FindPlayer(g.players, pid).value;
    var p := g.players[i];
    var k := kind.value;
    BuildKeepsPlayerOk(p, k);
    var g1 := g.(
      players := g.players[i := AfterBuilding(p, k)],
      buildings := g.buildings[pos := Building(k, pid, p.color)],
      log := AddToLog(g.log, Built));
    assert HandleMainGamePlacement(g, pid, kind, pos).value == CheckVictory(g1);
    assert Valid(g1);
  }

  lemma PlaceBuildingPreserves(g: Game, pid: PlayerId, kind: Option<BuildingKind>, pos: Pos)
    requires Valid(g)
    ensures PlaceBuilding(g, pid, kind, pos).Success? ==> Valid(PlaceBuilding(g, pid, kind, pos).value)
  {
    if PlaceBuilding(g, pid, kind, pos).Success? {
      var i := FindPlayer(g.players, pid).value;
      if g.gamePhase == InitialPlacement {
        if g.turnPhase == PlaceSettlement && kind == Some(Settlement) {
          InitialSettlementPreserves(g, i, pos);
        } else if g.turnPhase == PlaceRoad && kind == Some(Road) {
          InitialRoadPreserves(g, i, pos);
        }
      } else {
        MainPlacementPreserves(g, pid, kind, pos);
      }
    }
  }

  /** A payout adds the same number of cards to the hand and to `totalCards`, and never
      takes any away. */
  lemma PayoutKeepsPlayerOk(g: Game, roll: int, j: nat, q: Player)
    requires j < |g.players| && PlayerOk(g.players[j])
    requires Gained(g.players[j], q, res => BoardYield(g, roll, |g.board|, j, res), BoardYieldAll(g, roll, |g.board|, j))
    ensures PlayerOk(q)
  {
    YieldSplitsByResource(g, roll, |g.board|, j);
  }

  lemma RollDicePreserves(g: Game, pid: PlayerId, d1: int, d2: int)
    requires Valid(g) && |g.players| > 0
    ensures RollDice(g, pid, d1, d2).Success? ==> Valid(RollDice(g, pid, d1, d2).value)
  {
    if RollDice(g, pid, d1, d2).Success? && d1 + d2 != 7 {
      var r := RollDice(g, pid, d1, d2).value;
      forall j | 0 <= j < |r.players|
        ensures PlayerOk(r.players[j])
      {
        PayoutKeepsPlayerOk(g, d1 + d2, j, r.players[j]);
      }
    }
  }

  lemma MoveRobberPreserves(g: Game, pid: PlayerId, tileId: int)
    requires Valid(g) && |g.players| > 0
    ensures MoveRobber(g, pid, tileId).Success? ==> Valid(MoveRobber(g, pid, tileId).value)
  {
  }

  lemma EndTurnPreserves(g: Game, pid: PlayerId)
    requires Valid(g) && |g.players| > 0
    ensures EndTurn(g, pid).Success? ==> Valid(EndTurn(g, pid).value)
  {
  }

  /** The equation victoryPoints == settlements + cities does not survive a city: the
      upgrade keeps the settlement's point and adds one. */
  lemma CityBreaksSettlementsPlusCities(g: Game, pid: PlayerId, pos: Pos)
    requires Valid(g) && FindPlayer(g.players, pid).Some?
    requires g.players[FindPlayer(g.players, pid).value].cities >= 0
    requires HandleMainGamePlacement(g, pid, Some(City), pos).Success?
    ensures var i := FindPlayer(g.players, pid).value;
      var q := HandleMainGamePlacement(g, pid, Some(City), pos).value.players[i];
      q.victoryPoints != q.settlements + q.cities
  {
  }
}
