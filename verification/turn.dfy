/** The main-game turn: rolling the dice, paying resources, moving the robber and passing
    the turn on. */
module Turn {
  import opened Wrappers
  import opened Topology
  import opened Board
  import opened GameState
  import opened Engine

  /** Two player lists that differ at most in what players hold, not in who is where. */
  predicate SameIds(ps: seq<Player>, qs: seq<Player>)
  {
    |ps| == |qs| && forall j :: 0 <= j < |ps| ==> ps[j].id == qs[j].id
  }

  /** Lookups by id see only the ids, so they agree on lists with the same ids. */
  lemma FindPlayerSameIds(ps: seq<Player>, qs: seq<Player>, id: PlayerId)
    requires SameIds(ps, qs)
    ensures FindPlayer(ps, id) == FindPlayer(qs, id)
  {
  }

  /** Whether `tile` pays out on dice total `roll` with the robber where it is. */
  predicate Pays(g: Game, tile: Tile, roll: int)
  {
    tile.number == Some(roll) && tile.id != g.robber
  }

  /** Cards corner `c` of `tile` earns player `j`: 1 for a settlement, 2 for a city, when
      `j` is the first player with the owner's id and the tile produces. */
  function SiteYield(g: Game, tile: Tile, c: Idx, j: nat): (n: int)
    ensures 0 <= n <= 2
  {
    var key := Pos(tile.id, c);
    if key in g.buildings && g.buildings[key].kind != Road && tile.terrain.Produces?
       && FindPlayer(g.players, g.buildings[key].owner) == Some(j)
    then (if g.buildings[key].kind == City then 2 else 1)
    else 0
  }

  /** Cards corners `0..c-1` of `tile` earn player `j`. */
  function TileYield(g: Game, tile: Tile, c: nat, j: nat): (n: int)
    requires c <= 6
    ensures 0 <= n <= 2 * c
  {
    if c == 0 then 0 else TileYield(g, tile, c - 1, j) + SiteYield(g, tile, c - 1, j)
  }

  /** Cards of resource `res` that the first `m` tiles of the board earn player `j` on
      dice total `roll`. */
  function BoardYield(g: Game, roll: int, m: nat, j: nat, res: Resource): (n: int)
    requires m <= |g.board|
    ensures n >= 0
  {
    if m == 0 then 0
    else
      var t := g.board[m - 1];
      BoardYield(g, roll, m - 1, j, res) +
        (if Pays(g, t, roll) && t.terrain == Produces(res) then TileYield(g, t, 6, j) else 0)
  }

  /** Cards of any resource that the first `m` tiles earn player `j`. */
  function BoardYieldAll(g: Game, roll: int, m: nat, j: nat): (n: int)
    requires m <= |g.board|
    ensures n >= 0
  {
    if m == 0 then 0
    else
      var t := g.board[m - 1];
      BoardYieldAll(g, roll, m - 1, j) + (if Pays(g, t, roll) then TileYield(g, t, 6, j) else 0)
  }

  /** `q` is `p` with `d` added to every resource count and `total` to `totalCards`. */
  predicate Gained(p: Player, q: Player, d: Resource -> int, total: int)
  {
    && q == p.(hand := q.hand, totalCards := q.totalCards)
    && (forall res :: q.hand.Get(res) == p.hand.Get(res) + d(res))
    && q.totalCards == p.totalCards + total
  }

  /** One corner of the payout loop: the owner (first player with that id) of a settlement
      or city there receives 1 or 2 cards of the tile's resource. */
  function PaySite(ps: seq<Player>, g: Game, tile: Tile, c: Idx): (r: seq<Player>)
    requires SameIds(g.players, ps)
    ensures SameIds(ps, r)
    ensures forall j :: 0 <= j < |ps| ==>
      Gained(ps[j], r[j],
             res => if tile.terrain == Produces(res) then SiteYield(g, tile, c, j) else 0,
             SiteYield(g, tile, c, j))
  {
    var key := Pos(tile.id, c);
    if key in g.buildings && (g.buildings[key].kind == Settlement || g.buildings[key].kind == City) then
      FindPlayerSameIds(g.players, ps, g.buildings[key].owner);
      match FindPlayer(ps, g.buildings[key].owner)
      case Some(j) =>
        if tile.terrain.Produces? then
          ps[j := Credit(ps[j], tile.terrain.res, if g.buildings[key].kind == City then 2 else 1)]
        else ps
      case None => ps
    else ps
  }

  /** Corners `0..c-1` of `tile`, in order. */
  function PayTile(ps: seq<Player>, g: Game, tile: Tile, c: nat): (r: seq<Player>)
    requires c <= 6 && SameIds(g.players, ps)
    ensures SameIds(ps, r)
    ensures forall j :: 0 <= j < |ps| ==>
      Gained(ps[j], r[j],
             res => if tile.terrain == Produces(res) then TileYield(g, tile, c, j) else 0,
             TileYield(g, tile, c, j))
  {
    if c == 0 then ps
    else
      var mid := PayTile(ps, g, tile, c - 1);
      PaySite(mid, g, tile, c - 1)
  }

  /** The first `m` tiles of the board, in board order, each paying only when its number
      is `roll` and the robber is elsewhere. */
  function PayTiles(ps: seq<Player>, g: Game, roll: int, m: nat): (r: seq<Player>)
    requires m <= |g.board| && SameIds(g.players, ps)
    ensures SameIds(ps, r)
    ensures forall j :: 0 <= j < |ps| ==>
      Gained(ps[j], r[j], res => BoardYield(g, roll, m, j, res), BoardYieldAll(g, roll, m, j))
  {
    if m == 0 then ps
    else
      var mid := PayTiles(ps, g, roll, m - 1);
      var t := g.board[m - 1];
      if Pays(g, t, roll) then PayTile(mid, g, t, 6) else mid
  }

  /** `distributeResources`: every player ends up with exactly the cards the closed-form
      yield assigns them, and nothing else about the game changes but the log. */
  function DistributeResources(g: Game, roll: int): (r: Game)
    ensures SameIds(g.players, r.players)
    ensures forall j :: 0 <= j < |g.players| ==>
      Gained(g.players[j], r.players[j],
             res => BoardYield(g, roll, |g.board|, j, res), BoardYieldAll(g, roll, |g.board|, j))
    ensures r == g.(players := r.players, log := AddToLog(g.log, Distributed))
  {
    g.(players := PayTiles(g.players, g, roll, |g.board|), log := AddToLog(g.log, Distributed))
  }

  /** `rollDice`: only the current player, only in the roll step. A 7 activates the robber
      and pays nothing; any other total pays out and opens the build step. The game phase
      is not checked. */
  function RollDice(g: Game, pid: PlayerId, d1: int, d2: int): (r: Result<Game, Error>)
    requires g.current < |g.players|
    ensures r.Failure? <==> g.players[g.current].id != pid || g.turnPhase != Roll
    ensures r.Failure? ==> r.error == NotYourTurnOrWrongPhase
    ensures r.Success? ==> r.value.dice == (d1, d2)
    ensures r.Success? && d1 + d2 == 7 ==> r.value.turnPhase == Robber && r.value.players == g.players
    ensures r.Success? && d1 + d2 != 7 ==>
      && r.value.turnPhase == Build
      && SameIds(g.players, r.value.players)
      && forall j :: 0 <= j < |g.players| ==>
        Gained(g.players[j], r.value.players[j],
               res => BoardYield(g, d1 + d2, |g.board|, j, res), BoardYieldAll(g, d1 + d2, |g.board|, j))
    ensures r.Success? ==>
      r.value == g.(players := r.value.players, dice := (d1, d2), turnPhase := r.value.turnPhase, log := r.value.log)
  {
    if g.players[g.current].id != pid || g.turnPhase != Roll then Failure(NotYourTurnOrWrongPhase)
    else
      var total := d1 + d2;
      var rolled := AddToLog(g.log, Rolled);
      if total == 7 then
        Success(g.(dice := (d1, d2), turnPhase := Robber, log := AddToLog(rolled, RobberActivated)))
      else
        var paid := DistributeResources(g, total);
        Success(g.(dice := (d1, d2), players := paid.players, turnPhase := Build,
                   log := AddToLog(rolled, Distributed)))
  }

  /** `moveRobber`: only the current player, only in the robber step, only onto a tile of
      the board that is not water. No card is stolen. */
  function MoveRobber(g: Game, pid: PlayerId, tileId: int): (r: Result<Game, Error>)
    requires g.current < |g.players|
    ensures g.players[g.current].id != pid || g.turnPhase != Robber ==> r == Failure(NotYourTurnOrWrongPhase)
    ensures g.players[g.current].id == pid && g.turnPhase == Robber ==>
      (r.Failure? <==> FindTile(g.board, tileId).None? || FindTile(g.board, tileId).value.terrain == Water)
    ensures r.Failure? ==> r.error in {NotYourTurnOrWrongPhase, InvalidRobberPlacement}
    ensures r.Success? ==>
      r.value == g.(robber := tileId, turnPhase := Build, log := AddToLog(g.log, MovedRobber))
  {
    if g.players[g.current].id != pid || g.turnPhase != Robber then Failure(NotYourTurnOrWrongPhase)
    else
      match FindTile(g.board, tileId)
      case None => Failure(InvalidRobberPlacement)
      case Some(t) =>
        if t.terrain == Water then Failure(InvalidRobberPlacement)
        else Success(g.(robber := tileId, turnPhase := Build, log := AddToLog(g.log, MovedRobber)))
  }

  /** `endTurn`: only the current player; the turn passes to the next player in list order,
      wrapping round, who must roll. Neither the turn phase nor the game phase is checked. */
  function EndTurn(g: Game, pid: PlayerId): (r: Result<Game, Error>)
    requires g.current < |g.players|
    ensures r.Failure? <==> g.players[g.current].id != pid
    ensures r.Failure? ==> r.error == NotYourTurn
    ensures r.Success? ==>
      && r.value.current == (g.current + 1) % |g.players|
      && r.value.turnPhase == Roll
      && r.value == g.(current := r.value.current, turnPhase := Roll, log := AddToLog(g.log, TurnEnded))
  {
    if g.players[g.current].id != pid then Failure(NotYourTurn)
    else
      var next := if g.current + 1 == |g.players| then 0 else g.current + 1;
      Success(g.(current := next, turnPhase := Roll, log := AddToLog(g.log, TurnEnded)))
  }
}
