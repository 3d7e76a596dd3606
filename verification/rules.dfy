/** Consequences of the placement rules as the engine states them, quirks included: the
    tile-local distance rule, the settlement-only blocking, the shared corner/edge keys and
    the missing water check. */
module Rules {
  import opened Wrappers
  import opened Topology
  import opened Board
  import opened GameState
  import opened Placement
  import opened Engine
  import opened Turn

  /** The distance rule: no corner next to a standing settlement accepts another one. */
  lemma DistanceRule(g: Game, v: Pos, w: Pos)
    requires HasSettlement(g, v)
    requires w in AdjacentVertices(v)
    ensures !CanPlaceSettlement(g, w)
  {
    AdjacencySymmetric(v, w);
  }

  /** Only settlements block: a corner next to a city (or a road) is still open when
      nothing else is near it. */
  lemma CitiesDoNotBlock(g: Game, v: Pos, owner: PlayerId, color: string)
    requires g.buildings == map[v := Building(City, owner, color)]
    ensures CanPlaceSettlement(g, Pos(v.tile, (v.idx + 1) % 6))
    ensures CanPlaceSettlement(g, Pos(v.tile, (v.idx + 5) % 6))
  {
  }

  /** A settlement placed in the initial placement closes both neighbouring corners. */
  lemma InitialSettlementClosesNeighbours(g: Game, i: nat, v: Pos)
    requires i < |g.players|
    requires PlaceInitialSettlement(g, i, v).Success?
    ensures forall w :: w in AdjacentVertices(v) ==> !CanPlaceSettlement(PlaceInitialSettlement(g, i, v).value, w)
  {
    var g1 := PlaceInitialSettlement(g, i, v).value;
    assert HasSettlement(g1, v);
    forall w | w in AdjacentVertices(v)
      ensures !CanPlaceSettlement(g1, w)
    {
      DistanceRule(g1, v, w);
    }
  }

  /** The settlement check never looks at the board: a free corner of a water tile is
      accepted in the initial placement although the options never list it. */
  lemma WaterCornerAccepted(g: Game, i: nat, v: Pos)
    requires i < |g.players|
    requires g.turnPhase == PlaceSettlement
    requires forall j :: 0 <= j < |g.board| && g.board[j].id == v.tile ==> g.board[j].terrain == Water
    requires CanPlaceSettlement(g, v)
    ensures PlaceInitialSettlement(g, i, v).Success?
    ensures v !in InitialOptions(g, g.players[i].id).vertices
  {
  }

  /** A main-game settlement at `t-c` needs the player's road on edge `t-(c-1)`: the other
      edge meeting that corner shares its key with the corner, which must be free. */
  lemma MainSettlementNeedsPreviousRoad(g: Game, pid: PlayerId, v: Pos)
    requires v in MainOptions(g, pid).vertices
    ensures OwnsRoad(g, Pos(v.tile, (v.idx + 5) % 6), pid)
  {
  }

  /** Because keys are shared, a settlement (or city) at `t-c` also occupies edge `t-c`: no
      road can be offered there, in either phase. */
  lemma BuildingOccupiesEdge(g: Game, pid: PlayerId, v: Pos)
    requires v in g.buildings
    ensures v !in MainOptions(g, pid).edges
    ensures v !in InitialOptions(g, pid).edges
  {
  }

  /** A city goes only on the player's own settlement, and keeps its key. */
  lemma CityReplacesOwnSettlement(g: Game, pid: PlayerId, pos: Pos)
    requires FindPlayer(g.players, pid).Some?
    requires HandleMainGamePlacement(g, pid, Some(City), pos).Success?
    ensures pos in g.buildings && g.buildings[pos].kind == Settlement && g.buildings[pos].owner == pid
    ensures HandleMainGamePlacement(g, pid, Some(City), pos).value.buildings.Keys == g.buildings.Keys
  {
  }

  /** A departure in the road step hands that step to the next player in the list. When
      that player has no settlement on record, their road command fails. */
  lemma DepartureStrandsRoadStep(g: Game, id: PlayerId, e: Pos)
    requires IndexOk(g) && g.gamePhase == InitialPlacement && g.turnPhase == PlaceRoad
    requires FindPlayer(g.players, id).Some?
    requires |RemovePlayer(g, id).players| > 0
    requires LastPlacement(g, RemovePlayer(g, id).players[RemovePlayer(g, id).current].id).None?
    ensures var h := RemovePlayer(g, id);
      PlaceBuilding(h, h.players[h.current].id, Some(Road), e) == Failure(NoSettlementRecorded)
  {
    var h := RemovePlayer(g, id);
    var pid := h.players[h.current].id;
    var i := FindPlayer(h.players, pid).value;
    assert PlaceBuilding(h, pid, Some(Road), e) == PlaceInitialRoad(h, i, e) by {
      assert PlaceBuilding(h, pid, Some(Road), e) == HandleInitialPlacement(h, pid, Some(Road), e);
    }
    assert LastPlacement(h, h.players[i].id).None?;
  }

  /** `endTurn` during the initial placement moves to the roll step, so the next road
      command falls through to the silent success and changes nothing. */
  lemma EndTurnSkipsRoadStep(g: Game, pid: PlayerId, e: Pos)
    requires g.current < |g.players| && g.gamePhase == InitialPlacement
    requires EndTurn(g, pid).Success?
    ensures var h := EndTurn(g, pid).value;
      PlaceBuilding(h, h.players[h.current].id, Some(Road), e) == Success(h)
  {
    var h := EndTurn(g, pid).value;
    assert FindPlayer(h.players, h.players[h.current].id).Some?;
  }
}
