/** The snake draft of the initial placement, as a whole: the order in which repeated
    advances hand out the placing turn, and how a full placement turn drives it. */
module SnakeDraft {
  import opened Wrappers
  import opened Topology
  import opened GameState
  import opened Placement
  import opened Engine

  /** The draft order for `n` players: `0, 1, …, n-1` then `n-1, …, 1, 0`. Each player
      appears exactly twice, at position `i` and at the mirrored position `2n-1-i`. */
  function DraftOrder(n: nat): (s: seq<nat>)
    ensures |s| == 2 * n
    ensures forall k :: 0 <= k < |s| ==> s[k] < n
    ensures forall i {:trigger s[i]} :: 0 <= i < n ==> s[i] == i && s[2 * n - 1 - i] == i
    ensures forall k :: 0 <= k < |s| ==> k == s[k] || k == 2 * n - 1 - s[k]
  {
    seq(2 * n, k requires 0 <= k < 2 * n => if k < n then k else 2 * n - 1 - k)
  }

  /** The game after `k` consecutive advances of the draft. */
  function Advanced(g: Game, k: nat): (r: Game)
    requires g.current < |g.players|
    ensures r.players == g.players && r.current < |r.players|
  {
    if k == 0 then g else AdvanceInitialPlacement(Advanced(g, k - 1))
  }

  /** Started at player 0 in round 1, the `k`-th advance hands the turn to the `k`-th
      player of the draft order, in round 1 for the first `n` turns and round 2 for the
      next `n`, each time for a settlement; the `2n`-th advance starts the main game with
      player 0 rolling. */
  lemma {:induction false} SnakeOrder(g: Game, k: nat)
    requires g.gamePhase == InitialPlacement && g.round == 1 && g.current == 0 && |g.players| > 0
    requires k <= 2 * |g.players|
    ensures var a := Advanced(g, k);
      var n := |g.players|;
      && (k < 2 * n ==>
        && a.gamePhase == InitialPlacement
        && a.current == DraftOrder(n)[k]
        && a.round == (if k < n then 1 else 2)
        && (k > 0 ==> a.turnPhase == PlaceSettlement))
      && (k == 2 * n ==> a.gamePhase == MainGame && a.turnPhase == Roll && a.current == 0)
  {
    if k > 0 {
      SnakeOrder(g, k - 1);
    }
  }

  /** One player's initial turn as two commands: a settlement the engine accepts followed
      by a road it accepts leaves the draft exactly where one advance would, with one more
      settlement, one more road and one more victory point for the player. */
  lemma InitialTurn(g: Game, g1: Game, g2: Game, pid: PlayerId, v: Pos, e: Pos)
    requires IndexOk(g) && g.gamePhase == InitialPlacement && g.turnPhase == PlaceSettlement
    requires PlaceBuilding(g, pid, Some(Settlement), v) == Success(g1)
    requires IndexOk(g1) && PlaceBuilding(g1, pid, Some(Road), e) == Success(g2)
    ensures var a := AdvanceInitialPlacement(g);
      var i := FindPlayer(g.players, pid).value;
      && g.players[g.current].id == pid
      && g2.current == a.current && g2.round == a.round
      && g2.gamePhase == a.gamePhase && g2.turnPhase == a.turnPhase
      && g2.players[i].settlements == g.players[i].settlements + 1
      && g2.players[i].roads == g.players[i].roads + 1
      && g2.players[i].victoryPoints == g.players[i].victoryPoints + 1
      && e == Pos(v.tile, (v.idx + 5) % 6)
  {
    var i := SettlementCommand(g, g1, pid, v);
    RoadCommand(g1, g2, i, pid, e);
    AdvanceSeesOnlyCounters(g, g1);
  }

  /** An accepted settlement command in the settlement step is the settlement handler for
      the acting player, who keeps their index. */
  lemma SettlementCommand(g: Game, g1: Game, pid: PlayerId, v: Pos) returns (i: nat)
    requires IndexOk(g) && g.gamePhase == InitialPlacement && g.turnPhase == PlaceSettlement
    requires PlaceBuilding(g, pid, Some(Settlement), v) == Success(g1)
    ensures FindPlayer(g.players, pid) == Some(i) && i < |g.players|
    ensures g.players[g.current].id == pid
    ensures Success(g1) == PlaceInitialSettlement(g, i, v)
    ensures FindPlayer(g1.players, pid) == Some(i)
  {
    i := FindPlayer(g.players, pid).value;
    assert PlaceBuilding(g, pid, Some(Settlement), v) == HandleInitialPlacement(g, pid, Some(Settlement), v);
    assert forall j :: 0 <= j < |g.players| ==> g1.players[j].id == g.players[j].id;
  }

  /** An accepted road command in the road step is the road handler for the acting player. */
  lemma RoadCommand(g1: Game, g2: Game, i: nat, pid: PlayerId, e: Pos)
    requires IndexOk(g1) && g1.gamePhase == InitialPlacement && g1.turnPhase == PlaceRoad
    requires FindPlayer(g1.players, pid) == Some(i)
    requires PlaceBuilding(g1, pid, Some(Road), e) == Success(g2)
    ensures Success(g2) == PlaceInitialRoad(g1, i, e)
  {
    assert PlaceBuilding(g1, pid, Some(Road), e) == HandleInitialPlacement(g1, pid, Some(Road), e);
  }

  /** During the initial placement the draft step depends only on the turn index, the
      round and the number of players. */
  lemma AdvanceSeesOnlyCounters(g: Game, h: Game)
    requires g.current < |g.players| && g.gamePhase == InitialPlacement
    requires h.current == g.current && h.round == g.round && h.gamePhase == g.gamePhase
    requires |h.players| == |g.players|
    ensures var a := AdvanceInitialPlacement(g);
      var b := AdvanceInitialPlacement(h);
      a.current == b.current && a.round == b.round && a.gamePhase == b.gamePhase && a.turnPhase == b.turnPhase
  {
  }

  /** Corners and edges share keys: once a settlement stands at `t-c`, the only road the
      initial placement offers, and the only one it accepts, is edge `t-(c-1)`, and only
      while that key is free. */
  lemma SettlementFixesRoad(g: Game, i: nat, v: Pos, e: Pos)
    requires g.current < |g.players| && i < |g.players|
    requires PlaceInitialSettlement(g, i, v).Success?
    ensures var g1 := PlaceInitialSettlement(g, i, v).value;
      var pid := g.players[i].id;
      && (e in InitialOptions(g1, pid).edges <==> e == Pos(v.tile, (v.idx + 5) % 6) && e !in g.buildings)
      && (PlaceInitialRoad(g1, i, e).Success? <==> e == Pos(v.tile, (v.idx + 5) % 6) && e !in g.buildings)
  {
    var g1 := PlaceInitialSettlement(g, i, v).value;
    assert g1.players[i].id == g.players[i].id;
  }
}
