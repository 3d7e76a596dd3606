/** Board generation: the fixed 35-tile layout whose 18 land slots receive a
    Fisher–Yates shuffle of the resource pool and of the number-token pool. */
module Board {
  import opened Wrappers

  datatype Resource = Wood | Brick | Wheat | Sheep | Ore

  /** What a tile is: a producing land tile, the desert, or water. */
  datatype Terrain = Produces(res: Resource) | Desert | Water

  /** A hex of the board; `number` is the dice total it pays on, `None` for desert and water. */
  datatype Tile = Tile(id: int, terrain: Terrain, number: Option<int>, row: int, col: int)

  const BoardSize: nat := 35
  const DesertId: nat := 18

  /** The resource cards dealt to the land slots, before shuffling. */
  const ResourcePool: seq<Resource> :=
    [Wood, Wood, Wood, Wood,
     Brick, Brick, Brick,
     Wheat, Wheat, Wheat, Wheat,
     Sheep, Sheep, Sheep, Sheep,
     Ore, Ore, Ore]

  /** The number tokens dealt to the land slots, before shuffling. */
  const NumberPool: seq<int> := [2, 3, 3, 4, 4, 5, 5, 6, 6, 8, 8, 9, 9, 10, 10, 11, 11, 12]

  /** Ids of the land slots, in the order they draw from the shuffled pools. */
  const LandIds: seq<int> := [4, 5, 6, 9, 10, 11, 12, 15, 16, 17, 19, 22, 23, 24, 25, 28, 29, 30]

  /** Ids of the water tiles forming the ring. */
  const WaterIds: seq<int> := [0, 1, 2, 3, 7, 8, 13, 14, 20, 21, 26, 27, 31, 32, 33, 34]

  /** Fisher–Yates shuffle. `draws[i]` is the index `j` in `0..i` the random source picks
      when position `i` is swapped; positions are visited from the last down to 1, so
      `draws[0]` is never used. */
  method Shuffle<T>(a: seq<T>, draws: seq<int>) returns (s: seq<T>)
    requires |draws| == |a|
    requires forall i :: 0 <= i < |draws| ==> 0 <= draws[i] <= i
    ensures |s| == |a|
    ensures multiset(s) == multiset(a)
  {
    s := a;
    var i := |s| - 1;
    while i > 0
      invariant |s| == |a|
      invariant i < |s|
      invariant multiset(s) == multiset(a)
      decreases i
    {
      var j := draws[i];
      s := s[i := s[j]][j := s[i]];
      i := i - 1;
    }
  }

  /** The board row of tile `i`: rows are consecutive id ranges of 3, 5, 6, 7, 6, 5 and 3 tiles. */
  function RowOf(i: int): int
  {
    if i < 3 then 0 else if i < 8 then 1 else if i < 14 then 2 else if i < 21 then 3
    else if i < 27 then 4 else if i < 32 then 5 else 6
  }

  /** The column of tile `i` within the offset grid. */
  function ColOf(i: int): int
  {
    if i < 3 then i + 3 else if i < 8 then i - 1 else if i < 14 then i - 7 else if i < 21 then i - 14
    else if i < 27 then i - 20 else if i < 32 then i - 25 else i - 29
  }

  /** How many land slots precede tile `i` (the value of the running pool index when tile
      `i` is laid), or -1 when tile `i` is not a land slot. */
  function LandRank(i: int): int
  {
    if 4 <= i <= 6 then i - 4
    else if 9 <= i <= 12 then i - 6
    else if 15 <= i <= 17 then i - 8
    else if i == 19 then 10
    else if 22 <= i <= 25 then i - 11
    else if 28 <= i <= 30 then i - 13
    else -1
  }

  /** The tile laid at position `i`, given the shuffled pools. */
  function TileAt(i: int, res: seq<Resource>, nums: seq<int>): Tile
    requires |res| == |LandIds| && |nums| == |LandIds|
  {
    var k := LandRank(i);
    if i == DesertId then Tile(i, Desert, None, RowOf(i), ColOf(i))
    else if 0 <= k < |LandIds| then Tile(i, Produces(res[k]), Some(nums[k]), RowOf(i), ColOf(i))
    else Tile(i, Water, None, RowOf(i), ColOf(i))
  }

  /** The layout, given the shuffled pools: tile ids equal list positions, land slot `k`
      (in id order) takes `res[k]` and `nums[k]`, tile 18 is the desert, and every other
      tile is water. */
  function CreateBoard(res: seq<Resource>, nums: seq<int>): (board: seq<Tile>)
    requires |res| == |LandIds| && |nums| == |LandIds|
    ensures |board| == BoardSize
    ensures forall i :: 0 <= i < |board| ==> board[i].id == i
    ensures board[DesertId] == Tile(DesertId, Desert, None, 3, 4)
    ensures forall k :: 0 <= k < |LandIds| ==>
      board[LandIds[k]].terrain == Produces(res[k]) && board[LandIds[k]].number == Some(nums[k])
    ensures forall i :: 0 <= i < |board| ==> (board[i].terrain == Water <==> i in WaterIds)
    ensures forall i :: 0 <= i < |board| ==> (board[i].terrain.Produces? <==> i in LandIds)
    ensures forall i :: 0 <= i < |board| && !board[i].terrain.Produces? ==> board[i].number == None
    ensures forall i :: 0 <= i < |board| ==> board[i].row == RowOf(i) && board[i].col == ColOf(i)
  {
    seq(BoardSize, i requires 0 <= i < BoardSize => TileAt(i, res, nums))
  }

  /** The grid coordinates of the layout, tile by tile in id order. */
  const Grid: seq<(int, int)> :=
    [(0, 3), (0, 4), (0, 5),
     (1, 2), (1, 3), (1, 4), (1, 5), (1, 6),
     (2, 1), (2, 2), (2, 3), (2, 4), (2, 5), (2, 6),
     (3, 0), (3, 1), (3, 2), (3, 3), (3, 4), (3, 5), (3, 6),
     (4, 1), (4, 2), (4, 3), (4, 4), (4, 5), (4, 6),
     (5, 2), (5, 3), (5, 4), (5, 5), (5, 6),
     (6, 3), (6, 4), (6, 5)]

  /** Whatever the pools, tile `i` of the board sits at row and column `Grid[i]`. */
  lemma LayoutCoordinates(res: seq<Resource>, nums: seq<int>)
    requires |res| == |LandIds| && |nums| == |LandIds|
    ensures |Grid| == |CreateBoard(res, nums)|
    ensures forall i :: 0 <= i < BoardSize ==>
      (CreateBoard(res, nums)[i].row, CreateBoard(res, nums)[i].col) == Grid[i]
  {
    var board := CreateBoard(res, nums);
    forall i | 0 <= i < BoardSize
      ensures (board[i].row, board[i].col) == Grid[i]
    {
      GridCell(i);
    }
  }

  /** The piecewise row and column functions reproduce the table. */
  lemma GridCell(i: int)
    requires 0 <= i < BoardSize
    ensures (RowOf(i), ColOf(i)) == Grid[i]
  {
  }

  /** The resources of the land slots, in id order. */
  function LandResources(board: seq<Tile>): seq<Resource>
    requires |board| == BoardSize
    requires forall k :: 0 <= k < |LandIds| ==> board[LandIds[k]].terrain.Produces?
  {
    seq(|LandIds|, k requires 0 <= k < |LandIds| => board[LandIds[k]].terrain.res)
  }

  /** The number tokens of the land slots, in id order. */
  function LandNumbers(board: seq<Tile>): seq<int>
    requires |board| == BoardSize
    requires forall k :: 0 <= k < |LandIds| ==> board[LandIds[k]].number.Some?
  {
    seq(|LandIds|, k requires 0 <= k < |LandIds| => board[LandIds[k]].number.value)
  }

  /** The land slots, read back in id order, return the pools the layout was given. */
  lemma LandSlotsHoldPools(res: seq<Resource>, nums: seq<int>)
    requires |res| == |LandIds| && |nums| == |LandIds|
    ensures LandResources(CreateBoard(res, nums)) == res
    ensures LandNumbers(CreateBoard(res, nums)) == nums
  {
    var board := CreateBoard(res, nums);
    assert forall k :: 0 <= k < |LandIds| ==> LandResources(board)[k] == res[k];
    assert forall k :: 0 <= k < |LandIds| ==> LandNumbers(board)[k] == nums[k];
  }

  /** `createBoard`: shuffle both pools with the given random draws, then lay out the
      board. Whatever the draws, the layout is fixed and the land slots hold exactly the
      two pools, each as a multiset. */
  method GenerateBoard(resourceDraws: seq<int>, numberDraws: seq<int>) returns (board: seq<Tile>)
    requires |resourceDraws| == |ResourcePool|
    requires forall i :: 0 <= i < |resourceDraws| ==> 0 <= resourceDraws[i] <= i
    requires |numberDraws| == |NumberPool|
    requires forall i :: 0 <= i < |numberDraws| ==> 0 <= numberDraws[i] <= i
    ensures |board| == BoardSize
    ensures forall i :: 0 <= i < |board| ==> board[i].id == i
    ensures board[DesertId] == Tile(DesertId, Desert, None, 3, 4)
    ensures forall i :: 0 <= i < |board| ==> (board[i].terrain == Water <==> i in WaterIds)
    ensures forall i :: 0 <= i < |board| ==> (board[i].terrain.Produces? <==> i in LandIds)
    ensures forall k :: 0 <= k < |LandIds| ==> board[LandIds[k]].number.Some?
    ensures forall i :: 0 <= i < |board| && !board[i].terrain.Produces? ==> board[i].number == None
    ensures forall i :: 0 <= i < |board| ==> board[i].row == RowOf(i) && board[i].col == ColOf(i)
    ensures exists res, nums :: |res| == |nums| == |LandIds| && board == CreateBoard(res, nums)
    ensures multiset(LandResources(board)) == multiset(ResourcePool)
    ensures multiset(LandNumbers(board)) == multiset(NumberPool)
  {
    var res := Shuffle(ResourcePool, resourceDraws);
    var nums := Shuffle(NumberPool, numberDraws);
    board := CreateBoard(res, nums);
    LandSlotsHoldPools(res, nums);
    assert |res| == |nums| == |LandIds| && board == CreateBoard(res, nums);
  }
}
