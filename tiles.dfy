/** The tile grid: positions, teams, block type descriptors, floors, tiles and
    the construction payload a placeholder tile carries. `world.tile(x, y)` is
    modelled as lookup in a map from positions to tiles: a position outside the
    world is simply absent from the map. */
module Tiles {

  datatype Option<T> = None | Some(value: T)

  /** A grid coordinate `(x, y)`. */
  type Pos = (int, int)

  /** `Team.none` and the playable teams. */
  datatype Team = NoTeam | Side(id: nat)

  /** What a block type declares about itself (block type descriptor). */
  datatype Block = Block(
    name: string,
    size: nat,
    multiblock: bool,
    visible: bool,
    hidden: bool,
    solid: bool,
    solidifies: bool,
    alwaysReplace: bool,
    floating: bool,
    rotate: bool,
    synthetic: bool)

  /** `Blocks.air`, the empty block. */
  const Air: Block := Block("air", 1, false, false, false, false, false, true, false, false, false)

  /** The floor under a tile: only the two flags placement reads. */
  datatype Floor = Floor(isLiquid: bool, placeableOn: bool)

  /** The payload of a build placeholder: exactly one of two transaction kinds. */
  datatype BuildPayload =
    | Construct(previous: Block, result: Block)
    | Deconstruct(previous: Block)

  /** A tile: its block, rotation, team, the signed-byte link offset of a
      multiblock part, its floor and the payload of a build placeholder. */
  datatype Tile = Tile(
    block: Block,
    rotation: int,
    team: Team,
    linkX: int,
    linkY: int,
    floor: Floor,
    build: Option<BuildPayload>)

  type Grid = map<Pos, Tile>

  /** `world.tile(x, y)`: the tile, or None out of bounds. */
  function TileAt(g: Grid, x: int, y: int): (r: Option<Tile>)
    ensures r.Some? <==> (x, y) in g
    ensures r.Some? ==> r.value == g[(x, y)]
  {
    if (x, y) in g then Some(g[(x, y)]) else None
  }

  /** Java's `/` on `int`, which rounds toward zero (Dafny's is Euclidean):
      the remainder `a - q * b` is smaller than `b` in magnitude and has the
      sign of the dividend. */
  function JavaDiv(a: int, b: int): (q: int)
    requires b > 0
    ensures var r := a - q * b; -b < r < b && (a >= 0 ==> r >= 0) && (a < 0 ==> r <= 0)
  {
    if a >= 0 then a / b else -((-a) / b)
  }

  /** The Java `(byte)` cast: keeps the low eight bits, two's complement. */
  function ToByte(v: int): (r: int)
    ensures -128 <= r < 128
    ensures (r - v) % 256 == 0
    ensures -128 <= v < 128 ==> r == v
  {
    (v + 128) % 256 - 128
  }

  /** The footprint offset `-(size - 1) / 2`, with Java's truncating division:
      unary minus first, then `/ 2` rounding toward zero. It puts the anchor
      at the centre cell of an odd footprint and just below the centre of an
      even one. */
  function Offset(size: nat): (off: int)
    ensures size >= 1 ==> off <= 0 && -off <= size - 1 + off <= -off + 1
  {
    JavaDiv(-(size - 1), 2)
  }

  /** For every real block size the offset is minus half of `size - 1`,
      rounded down: 0 for sizes 1 and 2, -1 for sizes 3 and 4. */
  lemma OffsetIsMinusHalf(size: nat)
    requires size >= 1
    ensures Offset(size) == -((size - 1) / 2)
    ensures -Offset(size) <= size - 1 + Offset(size) <= -Offset(size) + 1
  {
  }

  lemma OffsetExamples()
    ensures Offset(1) == 0 && Offset(2) == 0 && Offset(3) == -1 && Offset(4) == -1 && Offset(5) == -2
  {
  }

  /** Position `p` lies in the `size` x `size` footprint anchored at `a`. */
  predicate InFootprint(p: Pos, a: Pos, size: nat)
  {
    var off := Offset(size);
    a.0 + off <= p.0 < a.0 + off + size && a.1 + off <= p.1 < a.1 + off + size
  }

  /** `p` is a footprint cell whose column offset `i` and row offset `j` (both
      counted from the footprint's corner) come before `(di, dj)` in the
      order of the nested `dx`/`dy` loops. */
  predicate Visited(p: Pos, a: Pos, size: nat, di: int, dj: int)
  {
    var off := Offset(size);
    var i := p.0 - a.0 - off;
    var j := p.1 - a.1 - off;
    0 <= i < size && 0 <= j < size && (i < di || (i == di && j < dj))
  }

  /** The anchor lies in its own footprint, for every size >= 1. */
  lemma AnchorInFootprint(a: Pos, size: nat)
    requires size >= 1
    ensures InFootprint(a, a, size)
  {
    OffsetIsMinusHalf(size);
  }

  /** A footprint cell's offset from the anchor lies between
      `-((size - 1) / 2)` and `size - 1 - (size - 1) / 2`, so it fits in a
      signed byte when the block is at most 255 cells wide, and the `(byte)`
      cast keeps it. */
  lemma FootprintOffsetFitsByte(p: Pos, a: Pos, size: nat)
    requires 1 <= size <= 255 && InFootprint(p, a, size)
    ensures ToByte(p.0 - a.0) == p.0 - a.0 && ToByte(p.1 - a.1) == p.1 - a.1
  {
    OffsetIsMinusHalf(size);
  }

  /** From 256 cells wide on, the cast wraps: cell (128, 128) of the footprint
      anchored at (0, 0) stores the offset -128 in each direction. */
  lemma WideFootprintWraps()
    ensures InFootprint((128, 128), (0, 0), 256)
    ensures ToByte(128 - 0) == -128
  {
    OffsetIsMinusHalf(256);
  }
}
