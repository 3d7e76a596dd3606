/** Concrete games played through the engine's own commands. */
module Scenarios {
  import opened Wrappers
  import opened Topology
  import opened Board
  import opened GameState
  import opened Placement
  import opened Engine
  import opened Rules

  /** Three players join a new game and it starts. */
  function ThreePlayerStart(board: seq<Tile>): Game
  {
    var g1 := AddPlayer(NewGame(board), "a", "Ann").value;
    var g2 := AddPlayer(g1, "b", "Ben").value;
    var g3 := AddPlayer(g2, "c", "Cy").value;
    StartGame(g3).value
  }

  /** A three-player game starts with player 0 placing a settlement in round 1; after that
      player settles on corner 2 of tile 10, the only road offered is edge 1 of tile 10,
      because edge 2 shares its key with the settlement. */
  lemma FirstSettlementOffersOneRoad(board: seq<Tile>)
    ensures var g := ThreePlayerStart(board);
      && g.current == 0 && g.turnPhase == PlaceSettlement && g.round == 1
      && g.gamePhase == InitialPlacement && |g.players| == 3
    ensures var g := ThreePlayerStart(board);
      var r := PlaceBuilding(g, "a", Some(Settlement), Pos(10, 2));
      && r.Success?
      && ValidPlacements(r.value, "a") == Placements([], [Pos(10, 1)])
  {
    var g := ThreePlayerStart(board);
    assert FindPlayer(g.players, "a") == Some(0);
    var r := PlaceBuilding(g, "a", Some(Settlement), Pos(10, 2));
    assert r == PlaceInitialSettlement(g, 0, Pos(10, 2));
    assert LastPlacement(r.value, "a") == Some(Pos(10, 2));
    assert AdjacentEdges(Pos(10, 2)) == [Pos(10, 1), Pos(10, 2)];
  }

  /** The started three-player game: players "a", "b", "c" in join order, nothing built or
      recorded, player 0 to place a settlement in round 1. */
  lemma StartState(board: seq<Tile>)
    ensures var g := ThreePlayerStart(board);
      && |g.players| == 3
      && g.players[0].id == "a" && g.players[1].id == "b" && g.players[2].id == "c"
      && g.buildings == map[] && g.placements == map[]
      && g.current == 0 && g.round == 1
      && g.gamePhase == InitialPlacement && g.turnPhase == PlaceSettlement
  {
  }

  /** In a three-player game the first player settles on `10-2` and then leaves before
      placing a road. The second player is now current, still in the road step, but has
      no settlement on record, so any road they send fails. */
  lemma DepartureDuringRoadStep(board: seq<Tile>, e: Pos)
    ensures var g := ThreePlayerStart(board);
      var r := PlaceBuilding(g, "a", Some(Settlement), Pos(10, 2));
      && r.Success?
      && var h := RemovePlayer(r.value, "a");
      && h.current == 0 && h.players[0].id == "b" && h.turnPhase == PlaceRoad
      && PlaceBuilding(h, "b", Some(Road), e) == Failure(NoSettlementRecorded)
  {
    var g := ThreePlayerStart(board);
    StartState(board);
    assert FindPlayer(g.players, "a") == Some(0);
    var r := PlaceBuilding(g, "a", Some(Settlement), Pos(10, 2));
    assert r == PlaceInitialSettlement(g, 0, Pos(10, 2)) by {
      assert r == HandleInitialPlacement(g, "a", Some(Settlement), Pos(10, 2));
    }
    var g1 := r.value;
    assert g1.players[0].id == "a" && g1.players[1].id == "b" && |g1.players| == 3;
    assert FindPlayer(g1.players, "a") == Some(0);
    assert LastPlacement(g1, "b") == LastPlacement(g, "b") == None;
    var h := RemovePlayer(g1, "a");
    assert h.players == g1.players[1..];
    DepartureStrandsRoadStep(g1, "a", e);
  }
}
