/** Properties of the resource payout on a dice roll. */
module Payout {
  import opened Wrappers
  import opened Topology
  import opened Board
  import opened GameState
  import opened Turn

  /** The sum of a per-resource count over the five resources. */
  function SumOver(f: Resource -> int): int
  {
    f(Wood) + f(Brick) + f(Wheat) + f(Sheep) + f(Ore)
  }

  /** Desert and water corners earn nothing, whatever stands on them. */
  lemma {:induction false} BarrenTileYieldsNothing(g: Game, tile: Tile, c: nat, j: nat)
    requires c <= 6 && !tile.terrain.Produces?
    ensures TileYield(g, tile, c, j) == 0
  {
    if c > 0 {
      BarrenTileYieldsNothing(g, tile, c - 1, j);
    }
  }

  /** Split by resource, the yield adds up to the total yield: every paying tile pays in
      its own resource only. This is what keeps `totalCards` equal to the hand size. */
  lemma {:induction false} YieldSplitsByResource(g: Game, roll: int, m: nat, j: nat)
    requires m <= |g.board|
    ensures SumOver(res => BoardYield(g, roll, m, j, res)) == BoardYieldAll(g, roll, m, j)
  {
    if m > 0 {
      YieldSplitsByResource(g, roll, m - 1, j);
      var t := g.board[m - 1];
      var y := if Pays(g, t, roll) then TileYield(g, t, 6, j) else 0;
      if !t.terrain.Produces? {
        BarrenTileYieldsNothing(g, t, 6, j);
      }
      var before := SumOver(res => BoardYield(g, roll, m - 1, j, res));
      assert SumOver(res => BoardYield(g, roll, m, j, res)) == before + y by {
        match t.terrain
        case Produces(r) =>
          assert forall res :: (BoardYield(g, roll, m, j, res) ==
            BoardYield(g, roll, m - 1, j, res) + (if res == r then y else 0));
        case _ =>
          assert forall res :: BoardYield(g, roll, m, j, res) == BoardYield(g, roll, m - 1, j, res);
      }
    }
  }

  /** A roll no tile pays on (every tile with that number holds the robber) pays nothing. */
  lemma {:induction false} QuietRollPaysNothing(g: Game, roll: int, m: nat, j: nat)
    requires m <= |g.board|
    requires forall k :: 0 <= k < m ==> !Pays(g, g.board[k], roll)
    ensures BoardYieldAll(g, roll, m, j) == 0
    ensures forall res :: BoardYield(g, roll, m, j, res) == 0
  {
    if m > 0 {
      QuietRollPaysNothing(g, roll, m - 1, j);
    }
  }

  /** With a single paying tile, each player receives exactly what that tile's corners
      earn them, in that tile's resource and no other. */
  lemma {:induction false} SingleTilePayout(g: Game, roll: int, m: nat, k0: nat, res: Resource, j: nat)
    requires k0 < m <= |g.board|
    requires g.board[k0].terrain == Produces(res)
    requires Pays(g, g.board[k0], roll)
    requires forall k :: 0 <= k < m && k != k0 ==> !Pays(g, g.board[k], roll)
    ensures BoardYield(g, roll, m, j, res) == TileYield(g, g.board[k0], 6, j)
    ensures forall other :: other != res ==> BoardYield(g, roll, m, j, other) == 0
  {
    if m - 1 == k0 {
      QuietRollPaysNothing(g, roll, m - 1, j);
    } else {
      SingleTilePayout(g, roll, m - 1, k0, res, j);
    }
  }

  /** Corner by corner: a settlement earns its owner one card, a city two. */
  lemma CornerYield(g: Game, tile: Tile, c: Idx, j: nat)
    requires tile.terrain.Produces?
    requires Pos(tile.id, c) in g.buildings
    requires FindPlayer(g.players, g.buildings[Pos(tile.id, c)].owner) == Some(j)
    ensures g.buildings[Pos(tile.id, c)].kind == Settlement ==> SiteYield(g, tile, c, j) == 1
    ensures g.buildings[Pos(tile.id, c)].kind == City ==> SiteYield(g, tile, c, j) == 2
    ensures g.buildings[Pos(tile.id, c)].kind == Road ==> SiteYield(g, tile, c, j) == 0
  {
  }

  /** Moving the robber onto the only tile carrying a number silences that number. */
  lemma RobberSilencesTile(g: Game, pid: PlayerId, tileId: int, roll: int, j: nat)
    requires g.current < |g.players|
    requires MoveRobber(g, pid, tileId).Success?
    requires forall k :: 0 <= k < |g.board| && g.board[k].number == Some(roll) ==> g.board[k].id == tileId
    ensures var g1 := MoveRobber(g, pid, tileId).value;
      BoardYieldAll(g1, roll, |g1.board|, j) == 0
  {
    var g1 := MoveRobber(g, pid, tileId).value;
    QuietRollPaysNothing(g1, roll, |g1.board|, j);
  }
}
