/** Tile-local hex topology: corner and edge identities and their neighbours.
    Every relation stays on the tile named in the id; corners shared by two or three
    physical hexes are not identified with each other. */
module Topology {

  /** A corner index or an edge index within one tile. */
  type Idx = i: int | 0 <= i < 6

  /** The key `t-i`. The same key names corner `i` of tile `t` and edge `i` of tile `t`,
      the edge that runs from corner `i` to corner `i + 1 (mod 6)`. */
  datatype Pos = Pos(tile: int, idx: Idx)

  /** The previous index round the hexagon. */
  function Prev(i: Idx): (r: Idx)
    ensures r == (i + 5) % 6
  {
    if i == 0 then 5 else i - 1
  }

  /** The next index round the hexagon. */
  function Next(i: Idx): (r: Idx)
    ensures r == (i + 1) % 6
  {
    if i == 5 then 0 else i + 1
  }

  /** The two corners of the same tile that neighbour corner `v`. */
  function AdjacentVertices(v: Pos): (r: seq<Pos>)
    ensures r == [Pos(v.tile, (v.idx + 5) % 6), Pos(v.tile, (v.idx + 1) % 6)]
    ensures v !in r
  {
    [Pos(v.tile, Prev(v.idx)), Pos(v.tile, Next(v.idx))]
  }

  /** The two edges of the same tile that meet at corner `v`. */
  function AdjacentEdges(v: Pos): (r: seq<Pos>)
    ensures r == [Pos(v.tile, (v.idx + 5) % 6), Pos(v.tile, v.idx)]
    ensures v in r
  {
    [Pos(v.tile, Prev(v.idx)), Pos(v.tile, v.idx)]
  }

  /** The two corners joined by edge `e`. */
  function ConnectedVertices(e: Pos): (r: seq<Pos>)
    ensures r == [Pos(e.tile, e.idx), Pos(e.tile, (e.idx + 1) % 6)]
  {
    [Pos(e.tile, e.idx), Pos(e.tile, Next(e.idx))]
  }

  /** The tiles touching corner `v`: only the tile the id names. */
  function AdjacentTiles(v: Pos): seq<int>
  {
    [v.tile]
  }

  /** No topology helper ever leaves the tile named in its argument. */
  lemma StaysOnTile(p: Pos)
    ensures forall q :: q in AdjacentVertices(p) ==> q.tile == p.tile
    ensures forall q :: q in AdjacentEdges(p) ==> q.tile == p.tile
    ensures forall q :: q in ConnectedVertices(p) ==> q.tile == p.tile
    ensures AdjacentTiles(p) == [p.tile]
  {
  }

  /** Corner neighbourhood is symmetric: each corner is a neighbour of its neighbours. */
  lemma AdjacencySymmetric(v: Pos, w: Pos)
    ensures w in AdjacentVertices(v) <==> v in AdjacentVertices(w)
  {
  }

  /** The corner-to-edge and edge-to-corner relations agree: edge `e` meets corner `v`
      exactly when `v` is one of the corners `e` joins. */
  lemma IncidenceAgrees(v: Pos, e: Pos)
    ensures e in AdjacentEdges(v) <==> v in ConnectedVertices(e)
  {
  }
}
