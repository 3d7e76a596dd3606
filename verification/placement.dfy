/** Placement legality: the settlement distance rule, road connectivity, and the option
    lists offered to the acting player in each phase. */
module Placement {
  import opened Wrappers
  import opened Topology
  import opened Board
  import opened GameState

  /** Whether key `p` holds a settlement (of anyone). Cities and roads do not count. */
  predicate HasSettlement(g: Game, p: Pos)
  {
    p in g.buildings && g.buildings[p].kind == Settlement
  }

  /** Whether key `p` holds a road owned by `pid`. */
  predicate OwnsRoad(g: Game, p: Pos, pid: PlayerId)
  {
    p in g.buildings && g.buildings[p].kind == Road && g.buildings[p].owner == pid
  }

  /** Whether key `p` holds any building owned by `pid`. */
  predicate OwnsAny(g: Game, p: Pos, pid: PlayerId)
  {
    p in g.buildings && g.buildings[p].owner == pid
  }

  function AnySettlement(g: Game, ps: seq<Pos>): (r: bool)
    ensures r <==> exists q :: q in ps && HasSettlement(g, q)
  {
    if |ps| == 0 then false
    else HasSettlement(g, ps[0]) || AnySettlement(g, ps[1..])
  }

  /** `canPlaceSettlement`: the key must be free (of any building, a road included, since
      corners and edges share keys) and neither tile-local neighbour may hold a settlement.
      The board is not consulted, so a corner of a water tile, or of no tile at all, passes. */
  function CanPlaceSettlement(g: Game, v: Pos): (ok: bool)
    ensures !ok <==>
      || v in g.buildings
      || HasSettlement(g, Pos(v.tile, (v.idx + 5) % 6))
      || HasSettlement(g, Pos(v.tile, (v.idx + 1) % 6))
  {
    v !in g.buildings && !AnySettlement(g, AdjacentVertices(v))
  }

  /** `isConnectedToPlayerRoad`: one of the two edges meeting at corner `v` is a road of `pid`. */
  function IsConnectedToPlayerRoad(g: Game, v: Pos, pid: PlayerId): (ok: bool)
    ensures ok <==> OwnsRoad(g, Pos(v.tile, (v.idx + 5) % 6), pid) || OwnsRoad(g, Pos(v.tile, v.idx), pid)
  {
    exists e :: e in AdjacentEdges(v) && OwnsRoad(g, e, pid)
  }

  /** `isConnectedToPlayerNetwork`: one of the two corners of edge `e` holds a building of
      `pid` or touches a road of `pid`. Unfolded over the shared keys, that is: `pid` owns
      anything at key `t-e` or `t-(e+1)`, or a road at `t-(e-1)`. */
  function IsConnectedToPlayerNetwork(g: Game, e: Pos, pid: PlayerId): (ok: bool)
    ensures ok <==>
      || OwnsAny(g, Pos(e.tile, e.idx), pid)
      || OwnsAny(g, Pos(e.tile, (e.idx + 1) % 6), pid)
      || OwnsRoad(g, Pos(e.tile, (e.idx + 5) % 6), pid)
  {
    var vs := ConnectedVertices(e);
    VertexLinked(g, vs[0], pid) || VertexLinked(g, vs[1], pid)
  }

  /** One iteration of the network check: corner `v` holds a building of `pid` or touches
      one of its roads. */
  predicate VertexLinked(g: Game, v: Pos, pid: PlayerId)
  {
    OwnsAny(g, v, pid) || IsConnectedToPlayerRoad(g, v, pid)
  }

  /** Whether some tile of the board with id `id` is not water. */
  predicate IsLandTileId(board: seq<Tile>, id: int)
  {
    exists i :: 0 <= i < |board| && board[i].id == id && board[i].terrain != Water
  }

  /** Every key `t-c`, `c` in 0..5, of every non-water tile, in board order. */
  function LandKeys(board: seq<Tile>): (r: seq<Pos>)
    ensures forall p :: p in r <==> IsLandTileId(board, p.tile)
  {
    if |board| == 0 then []
    else
      var rest := LandKeys(board[1..]);
      assert forall id: int :: IsLandTileId(board, id) <==>
        (board[0].id == id && board[0].terrain != Water) || IsLandTileId(board[1..], id) by {
        forall id: int ensures IsLandTileId(board, id) ==>
          (board[0].id == id && board[0].terrain != Water) || IsLandTileId(board[1..], id) {
          if IsLandTileId(board, id) {
            var i :| 0 <= i < |board| && board[i].id == id && board[i].terrain != Water;
            if i > 0 {
              assert board[1..][i - 1] == board[i];
            }
          }
        }
        forall id: int ensures IsLandTileId(board[1..], id) ==> IsLandTileId(board, id) {
          if IsLandTileId(board[1..], id) {
            var i :| 0 <= i < |board[1..]| && board[1..][i].id == id && board[1..][i].terrain != Water;
            assert board[i + 1] == board[1..][i];
          }
        }
      }
      if board[0].terrain == Water then rest
      else
        var t := board[0].id;
        [Pos(t, 0), Pos(t, 1), Pos(t, 2), Pos(t, 3), Pos(t, 4), Pos(t, 5)] + rest
  }

  /** The elements of `s` that satisfy `f`, in order. */
  function Filter(s: seq<Pos>, f: Pos -> bool): (r: seq<Pos>)
    ensures forall p :: p in r <==> p in s && f(p)
    ensures |r| <= |s|
  {
    if |s| == 0 then []
    else if f(s[0]) then [s[0]] + Filter(s[1..], f)
    else Filter(s[1..], f)
  }

  /** The answer to "where may this player build": corners for settlements (or cities) and
      edges for roads. */
  datatype Placements = Placements(vertices: seq<Pos>, edges: seq<Pos>)

  const NoPlacements: Placements := Placements([], [])

  /** The last settlement `pid` placed during initial placement, if any. */
  function LastPlacement(g: Game, pid: PlayerId): Option<Pos>
  {
    if pid in g.placements && |g.placements[pid]| > 0 then Some(g.placements[pid][|g.placements[pid]| - 1])
    else None
  }

  /** `getInitialPlacementOptions`: in the settlement step every legal corner of a
      non-water tile; in the road step the free edges at the player's last settlement. */
  function InitialOptions(g: Game, pid: PlayerId): (r: Placements)
    ensures g.turnPhase == PlaceSettlement ==>
      r.edges == [] && forall v :: v in r.vertices <==> IsLandTileId(g.board, v.tile) && CanPlaceSettlement(g, v)
    ensures g.turnPhase == PlaceRoad && LastPlacement(g, pid).Some? ==>
      var s := LastPlacement(g, pid).value;
      r.vertices == [] &&
      forall e :: e in r.edges <==> e !in g.buildings && (e == Pos(s.tile, (s.idx + 5) % 6) || e == s)
    ensures g.turnPhase != PlaceSettlement && (g.turnPhase != PlaceRoad || LastPlacement(g, pid).None?) ==>
      r == NoPlacements
  {
    if g.turnPhase == PlaceSettlement then
      Placements(Filter(LandKeys(g.board), v => CanPlaceSettlement(g, v)), [])
    else if g.turnPhase == PlaceRoad && LastPlacement(g, pid).Some? then
      Placements([], Filter(AdjacentEdges(LastPlacement(g, pid).value), e => e !in g.buildings))
    else NoPlacements
  }

  /** `getMainGamePlacementOptions`: corners of non-water tiles where a settlement is legal
      and a road of the player meets the corner; free edges of non-water tiles connected to
      the player's network. */
  function MainOptions(g: Game, pid: PlayerId): (r: Placements)
    ensures forall v :: v in r.vertices <==>
      IsLandTileId(g.board, v.tile) && CanPlaceSettlement(g, v) && IsConnectedToPlayerRoad(g, v, pid)
    ensures forall e :: e in r.edges <==>
      IsLandTileId(g.board, e.tile) && e !in g.buildings && IsConnectedToPlayerNetwork(g, e, pid)
  {
    var keys := LandKeys(g.board);
    Placements(
      Filter(keys, v => CanPlaceSettlement(g, v) && IsConnectedToPlayerRoad(g, v, pid)),
      Filter(keys, e => e !in g.buildings && IsConnectedToPlayerNetwork(g, e, pid)))
  }

  /** `getValidPlacements`: nothing for an unknown player, otherwise the options of the
      current game phase (the main-game options also after the game is finished). */
  function ValidPlacements(g: Game, pid: PlayerId): (r: Placements)
    ensures FindPlayer(g.players, pid).None? ==> r == NoPlacements
    ensures FindPlayer(g.players, pid).Some? && g.gamePhase == InitialPlacement ==> r == InitialOptions(g, pid)
    ensures FindPlayer(g.players, pid).Some? && g.gamePhase != InitialPlacement ==> r == MainOptions(g, pid)
  {
    if FindPlayer(g.players, pid).None? then NoPlacements
    else if g.gamePhase == InitialPlacement then InitialOptions(g, pid)
    else MainOptions(g, pid)
  }
}
