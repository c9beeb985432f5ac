/** Build placement and deconstruction rules: whether a block may be placed on,
    or broken off, a square footprint of the grid, and the two transactions
    that turn the footprint into a build placeholder with its parts linked to
    the anchor. */
module Build {
  import opened Tiles

  /** What the rules read from collaborators whose code is not modelled: the
      block type's own judgements, the tile's link resolution, the edge
      tables, the catalogue of placeholders and the two geometric checks. */
  datatype Rules = Rules(
    canReplace: (Block, Block) -> bool,              // type.canReplace(existing)
    canPlaceOn: (Block, Pos, Tile) -> bool,          // type.canPlaceOn(tile)
    canBreak: (Block, Pos, Tile) -> bool,            // block.canBreak(tile)
    breakable: (Pos, Tile) -> bool,                  // tile.breakable()
    target: (Pos, Tile) -> Pos,                      // tile.target(): the anchor a part links to
    insideEdges: nat -> seq<Pos>,                    // Edges.getInsideEdges(size)
    edges: nat -> seq<Pos>,                          // Edges.getEdges(size)
    placeholder: nat -> Block,                       // content.getByName("build" + size)
    unitsOverlap: (Block, int, int) -> bool,         // a unit overlaps the type's footprint rectangle
    nearEnemyCore: (Team, Block, int, int) -> bool)  // an enemy core lies within the build radius

  /** `Geometry.d4`: the four orthogonal neighbour offsets. */
  const D4: seq<Pos> := [(1, 0), (0, 1), (-1, 0), (0, -1)]

  /** The announcement `BlockBuildBeginEvent(tile, team, breaking)`. */
  datatype BuildEvent = BuildBegin(tile: Pos, team: Team, breaking: bool)

  // ---------------------------------------------------------------------------
  // Ground contact

  /** `p` is in bounds and its floor is not liquid. */
  predicate GroundAt(g: Grid, p: Pos)
  {
    p in g && !g[p].floor.isLiquid
  }

  /** Some offset of `pts`, added to `(x, y)`, lands on ground. */
  predicate AnyGround(g: Grid, x: int, y: int, pts: seq<Pos>)
  {
    exists k :: 0 <= k < |pts| && GroundAt(g, (x + pts[k].0, y + pts[k].1))
  }

  /** Ground contact: over the inside and outer edge sets for a multiblock,
      over the four neighbours and the cell itself for a single cell. */
  predicate TouchesGround(g: Grid, rules: Rules, x: int, y: int, b: Block)
  {
    if b.multiblock then
      AnyGround(g, x, y, rules.insideEdges(b.size)) || AnyGround(g, x, y, rules.edges(b.size))
    else
      AnyGround(g, x, y, D4) || GroundAt(g, (x, y))
  }

  /** One `for(Point2 point : ...)` loop of `contactsGround`, returning on the
      first point that lands on ground. */
  method ScanGround(g: Grid, x: int, y: int, pts: seq<Pos>) returns (found: bool)
    ensures found == AnyGround(g, x, y, pts)
  {
    var k := 0;
    while k < |pts|
      invariant 0 <= k <= |pts|
      invariant forall m :: 0 <= m < k ==> !GroundAt(g, (x + pts[m].0, y + pts[m].1))
    {
      var t := TileAt(g, x + pts[k].0, y + pts[k].1);
      if t.Some? && !t.value.floor.isLiquid {
        return true;
      }
      k := k + 1;
    }
    return false;
  }

  /** `contactsGround(x, y, block)`. */
  method ContactsGround(g: Grid, rules: Rules, x: int, y: int, b: Block) returns (r: bool)
    ensures r == TouchesGround(g, rules, x, y, b)
  {
    if b.multiblock {
      r := ScanGround(g, x, y, rules.insideEdges(b.size));
      if r {
        return;
      }
      r := ScanGround(g, x, y, rules.edges(b.size));
    } else {
      r := ScanGround(g, x, y, D4);
      if r {
        return;
      }
      var t := TileAt(g, x, y);
      r := t.Some? && !t.value.floor.isLiquid;
    }
  }

  // ---------------------------------------------------------------------------
  // Placement validity

  /** A footprint cell a multiblock may cover: in bounds, holding air or an
      always-replaceable block, on a placeable floor that is not liquid unless
      the type floats. */
  predicate CellFree(g: Grid, b: Block, p: Pos)
  {
    && p in g
    && (g[p].block == Air || g[p].block.alwaysReplace)
    && g[p].floor.placeableOn
    && (!g[p].floor.isLiquid || b.floating)
  }

  /** Every cell of the footprint anchored at `a` is free for `b`. */
  ghost predicate FootprintClear(g: Grid, a: Pos, b: Block)
  {
    forall p :: InFootprint(p, a, b.size) ==> CellFree(g, b, p)
  }

  /** The in-place upgrade of a multiblock: the type replaces the block that
      is there, which has the same size, and accepts the tile. */
  predicate Upgrade(rules: Rules, b: Block, p: Pos, t: Tile)
  {
    rules.canReplace(b, t.block) && t.block.size == b.size && rules.canPlaceOn(b, p, t)
  }

  /** The single-cell replacement rule, including its exception: the same
      rotatable type at the same rotation is not a replacement. */
  predicate ReplaceAllowed(rules: Rules, b: Block, t: Tile, rotation: int)
  {
    || (rules.canReplace(b, t.block) && !(b == t.block && rotation == t.rotation && b.rotate))
    || t.block.alwaysReplace
    || t.block == Air
  }

  /** The checks made before the anchor tile is looked up. */
  predicate PassesEarlyChecks(rules: Rules, team: Team, x: int, y: int, b: Block)
  {
    && b.visible && !b.hidden
    && !((b.solid || b.solidifies) && rules.unitsOverlap(b, x, y))
    && !rules.nearEnemyCore(team, b, x, y)
  }

  /** `validPlace(team, x, y, type, rotation)`, stated declaratively. */
  ghost predicate CanPlace(g: Grid, rules: Rules, team: Team, x: int, y: int, b: Block, rotation: int)
  {
    if !PassesEarlyChecks(rules, team, x, y, b) || (x, y) !in g then false
    else
      var t := g[(x, y)];
      if b.multiblock then
        || Upgrade(rules, b, (x, y), t)
        || (TouchesGround(g, rules, x, y, b) && rules.canPlaceOn(b, (x, y), t) && FootprintClear(g, (x, y), b))
      else
        && (t.team == NoTeam || t.team == team)
        && TouchesGround(g, rules, x, y, b)
        && (!t.floor.isLiquid || b.floating)
        && t.floor.placeableOn
        && ReplaceAllowed(rules, b, t, rotation)
        && t.block.multiblock == b.multiblock
        && rules.canPlaceOn(b, (x, y), t)
  }

  /** `validPlace`, as the source runs it: early returns, then the nested
      footprint scan that fails on the first unusable cell. */
  method ValidPlace(g: Grid, rules: Rules, team: Team, x: int, y: int, b: Block, rotation: int)
    returns (ok: bool)
    ensures ok == CanPlace(g, rules, team, x, y, b, rotation)
  {
    if !b.visible || b.hidden {
      return false;
    }
    if (b.solid || b.solidifies) && rules.unitsOverlap(b, x, y) {
      return false;
    }
    if rules.nearEnemyCore(team, b, x, y) {
      return false;
    }
    var tile := TileAt(g, x, y);
    if tile.None? {
      return false;
    }
    var t := tile.value;
    if b.multiblock {
      if rules.canReplace(b, t.block) && t.block.size == b.size && rules.canPlaceOn(b, (x, y), t) {
        return true;
      }
      var contact := ContactsGround(g, rules, x, y, b);
      if !contact {
        return false;
      }
      if !rules.canPlaceOn(b, (x, y), t) {
        return false;
      }
      var off := Offset(b.size);
      var dx := 0;
      while dx < b.size
        invariant 0 <= dx <= b.size
        invariant forall p :: Visited(p, (x, y), b.size, dx, 0) ==> CellFree(g, b, p)
      {
        var dy := 0;
        while dy < b.size
          invariant 0 <= dy <= b.size
          invariant forall p :: Visited(p, (x, y), b.size, dx, dy) ==> CellFree(g, b, p)
        {
          var other := TileAt(g, x + dx + off, y + dy + off);
          if || other.None?
             || (other.value.block != Air && !other.value.block.alwaysReplace)
             || !other.value.floor.placeableOn
             || (other.value.floor.isLiquid && !b.floating)
          {
            assert InFootprint((x + dx + off, y + dy + off), (x, y), b.size);
            return false;
          }
          dy := dy + 1;
        }
        dx := dx + 1;
      }
      assert forall p :: InFootprint(p, (x, y), b.size) ==> Visited(p, (x, y), b.size, b.size, 0);
      return true;
    } else {
      var contact := ContactsGround(g, rules, x, y, b);
      return && (t.team == NoTeam || t.team == team)
             && contact
             && (!t.floor.isLiquid || b.floating)
             && t.floor.placeableOn
             && ((rules.canReplace(b, t.block) && !(b == t.block && rotation == t.rotation && b.rotate))
                 || t.block.alwaysReplace || t.block == Air)
             && t.block.multiblock == b.multiblock
             && rules.canPlaceOn(b, (x, y), t);
    }
  }

  // ---------------------------------------------------------------------------
  // Break validity

  /** `validBreak(team, x, y)`: the tile exists, the anchor it resolves to
      exists, its block may be broken, the tile is breakable, and the team owns
      it when the block is synthetic. */
  predicate CanBreak(g: Grid, rules: Rules, team: Team, x: int, y: int)
    ensures CanBreak(g, rules, team, x, y) ==>
      && (x, y) in g && rules.target((x, y), g[(x, y)]) in g
      && var a := rules.target((x, y), g[(x, y)]);
      && rules.breakable(a, g[a]) && (g[a].block.synthetic ==> g[a].team == team)
  {
    && (x, y) in g
    && var a := rules.target((x, y), g[(x, y)]);
    && a in g
    && rules.canBreak(g[a].block, a, g[a])
    && rules.breakable(a, g[a])
    && (!g[a].block.synthetic || g[a].team == team)
  }

  // ---------------------------------------------------------------------------
  // The transactions, as functions of the grid before them

  /** The anchor after `setBlock(sub, rotation)`, `setConstruct(previous,
      result)` and `setTeam(team)`. */
  function StartConstruct(t: Tile, sub: Block, rotation: int, result: Block, team: Team): Tile
  {
    Tile(sub, rotation, team, 0, 0, t.floor, Some(Construct(t.block, result)))
  }

  /** The anchor after `setBlock(sub)`, `setDeconstruct(previous)` and
      `setTeam(team)`; the one-argument `setBlock` keeps the rotation. */
  function StartDeconstruct(t: Tile, sub: Block, team: Team): Tile
  {
    Tile(sub, t.rotation, team, 0, 0, t.floor, Some(Deconstruct(t.block)))
  }

  /** A part after `setLinked((byte) dx, (byte) dy)` and `setTeam(team)`. */
  function SetLinked(t: Tile, dx: int, dy: int, team: Team): Tile
  {
    t.(linkX := ToByte(dx), linkY := ToByte(dy), team := team)
  }

  /** Every in-bounds footprint cell other than the anchor `a` linked to `a`. */
  function LinkFootprint(g: Grid, a: Pos, size: nat, team: Team): Grid
  {
    map p | p in g :: if p != a && InFootprint(p, a, size) then SetLinked(g[p], p.0 - a.0, p.1 - a.1, team) else g[p]
  }

  /** The grid while the linking loops are at `(di, dj)`. */
  function LinkedUpTo(g: Grid, a: Pos, size: nat, team: Team, di: int, dj: int): Grid
  {
    map p | p in g :: if p != a && Visited(p, a, size, di, dj) then SetLinked(g[p], p.0 - a.0, p.1 - a.1, team) else g[p]
  }

  /** The grid after a successful `beginPlace`. */
  function PlaceResult(g: Grid, rules: Rules, team: Team, x: int, y: int, result: Block, rotation: int): (r: Grid)
    requires (x, y) in g
    ensures r.Keys == g.Keys
    ensures r[(x, y)] == Tile(rules.placeholder(result.size), rotation, team, 0, 0, g[(x, y)].floor,
                              Some(Construct(g[(x, y)].block, result)))
  {
    var g1 := g[(x, y) := StartConstruct(g[(x, y)], rules.placeholder(result.size), rotation, result, team)];
    if result.multiblock then LinkFootprint(g1, (x, y), result.size, team) else g1
  }

  /** The anchor `beginBreak` works on: the tile's `target()`. */
  function BreakAnchor(g: Grid, rules: Rules, x: int, y: int): Pos
    requires (x, y) in g
  {
    rules.target((x, y), g[(x, y)])
  }

  /** The grid after a successful `beginBreak`. */
  function BreakResult(g: Grid, rules: Rules, team: Team, x: int, y: int): (r: Grid)
    requires (x, y) in g && BreakAnchor(g, rules, x, y) in g
    ensures r.Keys == g.Keys
    ensures var a := BreakAnchor(g, rules, x, y);
      r[a] == Tile(rules.placeholder(g[a].block.size), g[a].rotation, team, 0, 0, g[a].floor,
                   Some(Deconstruct(g[a].block)))
  {
    var a := BreakAnchor(g, rules, x, y);
    var previous := g[a].block;
    var g1 := g[a := StartDeconstruct(g[a], rules.placeholder(previous.size), team)];
    if previous.multiblock then LinkFootprint(g1, a, previous.size, team) else g1
  }

  // ---------------------------------------------------------------------------
  // The world and its two mutators

  class World {
    var tiles: Grid
    var events: seq<BuildEvent>   // announcements posted for after the current tick

    constructor (tiles0: Grid)
      ensures tiles == tiles0 && events == []
    {
      tiles := tiles0;
      events := [];
    }

    /** `beginPlace(team, x, y, result, rotation)`. */
    method BeginPlace(rules: Rules, team: Team, x: int, y: int, result: Block, rotation: int)
      modifies this
      ensures var ok := CanPlace(old(tiles), rules, team, x, y, result, rotation);
        && tiles == (if ok then PlaceResult(old(tiles), rules, team, x, y, result, rotation) else old(tiles))
        && events == (if ok then old(events) + [BuildBegin((x, y), team, false)] else old(events))
    {
      var ok := ValidPlace(tiles, rules, team, x, y, result, rotation);
      if !ok {
        return;
      }
      var sub := rules.placeholder(result.size);
      tiles := tiles[(x, y) := StartConstruct(tiles[(x, y)], sub, rotation, result, team)];
      if result.multiblock {
        LinkParts((x, y), result.size, team);
      }
      events := events + [BuildBegin((x, y), team, false)];
    }

    /** `beginBreak(team, x, y)`. */
    method BeginBreak(rules: Rules, team: Team, x: int, y: int)
      modifies this
      ensures var ok := CanBreak(old(tiles), rules, team, x, y);
        && tiles == (if ok then BreakResult(old(tiles), rules, team, x, y) else old(tiles))
        && events == (if ok then old(events) + [BuildBegin(BreakAnchor(old(tiles), rules, x, y), team, true)] else old(events))
    {
      if !CanBreak(tiles, rules, team, x, y) {
        return;
      }
      var a := rules.target((x, y), tiles[(x, y)]);
      var previous := tiles[a].block;
      var sub := rules.placeholder(previous.size);
      tiles := tiles[a := StartDeconstruct(tiles[a], sub, team)];
      if previous.multiblock {
        LinkParts(a, previous.size, team);
      }
      events := events + [BuildBegin(a, team, true)];
    }

    /** The nested `dx`/`dy` loops both transactions share: each in-bounds cell
        of the footprint other than the anchor is linked to it. */
    method LinkParts(a: Pos, size: nat, team: Team)
      modifies this`tiles
      ensures tiles == LinkFootprint(old(tiles), a, size, team)
    {
      ghost var g := tiles;
      var dx := 0;
      while dx < size
        invariant 0 <= dx <= size
        invariant tiles == LinkedUpTo(g, a, size, team, dx, 0)
      {
        LinkColumn(a, size, team, dx, g);
        VisitRow(g, a, size, team, dx);
        dx := dx + 1;
      }
      VisitAll(g, a, size, team);
    }

    /** The inner `dy` loop for one column `dx` of the footprint. */
    method LinkColumn(a: Pos, size: nat, team: Team, dx: int, ghost g: Grid)
      requires 0 <= dx < size
      requires tiles == LinkedUpTo(g, a, size, team, dx, 0)
      modifies this`tiles
      ensures tiles == LinkedUpTo(g, a, size, team, dx, size)
    {
      var off := Offset(size);
      var dy := 0;
      while dy < size
        invariant 0 <= dy <= size
        invariant tiles == LinkedUpTo(g, a, size, team, dx, dy)
      {
        var wx := dx + off + a.0;
        var wy := dy + off + a.1;
        ghost var next := LinkedUpTo(g, a, size, team, dx, dy + 1);
        VisitStep(g, a, size, team, dx, dy);
        if !(wx == a.0 && wy == a.1) {
          if (wx, wy) in tiles {
            tiles := tiles[(wx, wy) := SetLinked(tiles[(wx, wy)], dx + off, dy + off, team)];
          }
        }
        assert tiles == next;
        dy := dy + 1;
      }
    }
  }

  /** One step of the inner loop visits exactly the cell `(dx, dy)`, which
      still holds its original tile. */
  lemma VisitStep(g: Grid, a: Pos, size: nat, team: Team, dx: int, dy: int)
    requires 0 <= dx < size && 0 <= dy < size
    ensures var c := (dx + Offset(size) + a.0, dy + Offset(size) + a.1);
      var cur := LinkedUpTo(g, a, size, team, dx, dy);
      && (c in cur <==> c in g)
      && LinkedUpTo(g, a, size, team, dx, dy + 1)
         == if c != a && c in cur then cur[c := SetLinked(cur[c], dx + Offset(size), dy + Offset(size), team)] else cur
  {
    var c := (dx + Offset(size) + a.0, dy + Offset(size) + a.1);
    var cur := LinkedUpTo(g, a, size, team, dx, dy);
    var next := LinkedUpTo(g, a, size, team, dx, dy + 1);
    assert !Visited(c, a, size, dx, dy);
    forall p | p in g
      ensures Visited(p, a, size, dx, dy + 1) == (Visited(p, a, size, dx, dy) || p == c)
    {
    }
    if c != a && c in cur {
      assert cur[c] == g[c];
      assert next == cur[c := SetLinked(cur[c], dx + Offset(size), dy + Offset(size), team)];
    } else {
      assert next == cur;
    }
  }

  /** Finishing a column of the footprint is starting the next one. */
  lemma VisitRow(g: Grid, a: Pos, size: nat, team: Team, dx: int)
    requires 0 <= dx < size
    ensures LinkedUpTo(g, a, size, team, dx, size) == LinkedUpTo(g, a, size, team, dx + 1, 0)
  {
    forall p | p in g
      ensures Visited(p, a, size, dx, size) == Visited(p, a, size, dx + 1, 0)
    {
    }
  }

  /** Having visited every column is having linked the whole footprint. */
  lemma VisitAll(g: Grid, a: Pos, size: nat, team: Team)
    ensures LinkedUpTo(g, a, size, team, size, 0) == LinkFootprint(g, a, size, team)
  {
    forall p | p in g
      ensures Visited(p, a, size, size, 0) == InFootprint(p, a, size)
    {
    }
  }

  // ---------------------------------------------------------------------------
  // Properties of the placement rule

  /** Placement is refused outright for a type that is not visible or is
      hidden, for a solid type over a unit, near an enemy core, and off the
      world. */
  lemma EarlyRejections(g: Grid, rules: Rules, team: Team, x: int, y: int, b: Block, rotation: int)
    ensures !b.visible || b.hidden ==> !CanPlace(g, rules, team, x, y, b, rotation)
    ensures (b.solid || b.solidifies) && rules.unitsOverlap(b, x, y) ==> !CanPlace(g, rules, team, x, y, b, rotation)
    ensures rules.nearEnemyCore(team, b, x, y) ==> !CanPlace(g, rules, team, x, y, b, rotation)
    ensures (x, y) !in g ==> !CanPlace(g, rules, team, x, y, b, rotation)
  {
  }

  /** The in-place multiblock upgrade is accepted before ground contact or any
      footprint cell is looked at. */
  lemma UpgradeAccepted(g: Grid, rules: Rules, team: Team, x: int, y: int, b: Block, rotation: int)
    requires PassesEarlyChecks(rules, team, x, y, b) && (x, y) in g && b.multiblock
    requires rules.canReplace(b, g[(x, y)].block) && g[(x, y)].block.size == b.size
    requires rules.canPlaceOn(b, (x, y), g[(x, y)])
    ensures CanPlace(g, rules, team, x, y, b, rotation)
  {
  }

  /** Outside the upgrade case a multiblock is placed exactly when it touches
      ground, accepts the anchor tile, and every footprint cell is in bounds,
      empty or always-replaceable, placeable and not liquid unless it floats. */
  lemma MultiblockNeedsWholeFootprint(g: Grid, rules: Rules, team: Team, x: int, y: int, b: Block, rotation: int)
    requires (x, y) in g && b.multiblock && !Upgrade(rules, b, (x, y), g[(x, y)])
    ensures CanPlace(g, rules, team, x, y, b, rotation) <==>
      && PassesEarlyChecks(rules, team, x, y, b)
      && TouchesGround(g, rules, x, y, b)
      && rules.canPlaceOn(b, (x, y), g[(x, y)])
      && forall p :: InFootprint(p, (x, y), b.size) ==>
           && p in g
           && (g[p].block == Air || g[p].block.alwaysReplace)
           && g[p].floor.placeableOn
           && (!g[p].floor.isLiquid || b.floating)
  {
  }

  /** All or nothing: one unusable cell anywhere in the footprint refuses the
      whole multiblock placement. */
  lemma OneBadCellRejects(g: Grid, rules: Rules, team: Team, x: int, y: int, b: Block, rotation: int, p: Pos)
    requires b.multiblock && InFootprint(p, (x, y), b.size) && !CellFree(g, b, p)
    requires (x, y) in g ==> !Upgrade(rules, b, (x, y), g[(x, y)])
    ensures !CanPlace(g, rules, team, x, y, b, rotation)
  {
  }

  /** What an accepted single-cell placement guarantees about the tile. */
  lemma SingleCellConditions(g: Grid, rules: Rules, team: Team, x: int, y: int, b: Block, rotation: int)
    requires !b.multiblock && CanPlace(g, rules, team, x, y, b, rotation)
    ensures (x, y) in g
    ensures g[(x, y)].team == NoTeam || g[(x, y)].team == team
    ensures !g[(x, y)].block.multiblock
    ensures g[(x, y)].floor.placeableOn && (!g[(x, y)].floor.isLiquid || b.floating)
    ensures || g[(x, y)].block == Air
            || g[(x, y)].block.alwaysReplace
            || (rules.canReplace(b, g[(x, y)].block)
                && !(g[(x, y)].block == b && g[(x, y)].rotation == rotation && b.rotate))
  {
  }

  /** Re-placing a rotatable type over itself at the rotation it already has
      is refused (unless the block is air or always replaceable). */
  lemma SameRotatableRefused(g: Grid, rules: Rules, team: Team, x: int, y: int, b: Block)
    requires (x, y) in g && !b.multiblock && b.rotate
    requires g[(x, y)].block == b && b != Air && !b.alwaysReplace
    ensures !CanPlace(g, rules, team, x, y, b, g[(x, y)].rotation)
  {
  }

  /** A type that does not rotate may be re-placed over itself at any
      rotation, the same one included, when it can replace itself. */
  lemma SameNonRotatingAllowed(g: Grid, rules: Rules, team: Team, x: int, y: int, b: Block, rotation: int)
    requires PassesEarlyChecks(rules, team, x, y, b) && (x, y) in g && !b.multiblock && !b.rotate
    requires g[(x, y)].block == b && rules.canReplace(b, b)
    requires g[(x, y)].team == NoTeam || g[(x, y)].team == team
    requires GroundAt(g, (x, y)) && g[(x, y)].floor.placeableOn
    requires rules.canPlaceOn(b, (x, y), g[(x, y)])
    ensures CanPlace(g, rules, team, x, y, b, rotation)
  {
  }

  /** Single-cell ground contact: one of the four neighbours or the cell
      itself is in bounds with a non-liquid floor. */
  lemma SingleCellContact(g: Grid, rules: Rules, x: int, y: int, b: Block)
    requires !b.multiblock
    ensures TouchesGround(g, rules, x, y, b) <==>
      GroundAt(g, (x + 1, y)) || GroundAt(g, (x, y + 1)) || GroundAt(g, (x - 1, y))
      || GroundAt(g, (x, y - 1)) || GroundAt(g, (x, y))
  {
    if GroundAt(g, (x + 1, y)) {
      assert GroundAt(g, (x + D4[0].0, y + D4[0].1));
    } else if GroundAt(g, (x, y + 1)) {
      assert GroundAt(g, (x + D4[1].0, y + D4[1].1));
    } else if GroundAt(g, (x - 1, y)) {
      assert GroundAt(g, (x + D4[2].0, y + D4[2].1));
    } else if GroundAt(g, (x, y - 1)) {
      assert GroundAt(g, (x + D4[3].0, y + D4[3].1));
    } else {
      forall k | 0 <= k < |D4|
        ensures !GroundAt(g, (x + D4[k].0, y + D4[k].1))
      {
      }
    }
  }

  // ---------------------------------------------------------------------------
  // Properties of the break rule

  /** Breaking is refused off the world, and when the tile resolves to an
      anchor off the world. */
  lemma BreakOutOfBounds(g: Grid, rules: Rules, team: Team, x: int, y: int)
    ensures (x, y) !in g ==> !CanBreak(g, rules, team, x, y)
    ensures (x, y) in g && BreakAnchor(g, rules, x, y) !in g ==> !CanBreak(g, rules, team, x, y)
  {
  }

  /** Only synthetic blocks are owned: for them the requesting team must be
      the anchor's team, for any other block the team does not matter. */
  lemma BreakOwnership(g: Grid, rules: Rules, team: Team, other: Team, x: int, y: int)
    requires (x, y) in g && BreakAnchor(g, rules, x, y) in g
    ensures var a := BreakAnchor(g, rules, x, y);
      g[a].block.synthetic && CanBreak(g, rules, team, x, y) ==> g[a].team == team
    ensures var a := BreakAnchor(g, rules, x, y);
      !g[a].block.synthetic ==> (CanBreak(g, rules, team, x, y) <==> CanBreak(g, rules, other, x, y))
  {
  }

  // ---------------------------------------------------------------------------
  // Properties of the transactions

  /** Linking a footprint of at most 255 x 255 cells: the anchor and every cell
      outside the footprint keep their tile; every other in-bounds footprint
      cell keeps its block, rotation, floor and payload, joins the team, and
      stores a non-zero offset that leads back from the cell to the anchor. */
  lemma LinkedPartsPointToAnchor(g: Grid, a: Pos, size: nat, team: Team)
    requires 1 <= size <= 255
    ensures var r := LinkFootprint(g, a, size, team);
      && r.Keys == g.Keys
      && (forall p | p in g && (p == a || !InFootprint(p, a, size)) :: r[p] == g[p])
      && (forall p | p in g && p != a && InFootprint(p, a, size) ::
            && r[p] == g[p].(linkX := p.0 - a.0, linkY := p.1 - a.1, team := team)
            && (p.0 - r[p].linkX, p.1 - r[p].linkY) == a
            && (r[p].linkX, r[p].linkY) != (0, 0))
  {
    var r := LinkFootprint(g, a, size, team);
    forall p | p in g && p != a && InFootprint(p, a, size)
      ensures r[p] == g[p].(linkX := p.0 - a.0, linkY := p.1 - a.1, team := team)
    {
      FootprintOffsetFitsByte(p, a, size);
    }
  }

  /** `beginPlace` leaves every tile alone that is neither the anchor nor, for
      a multiblock, in its footprint; out-of-bounds cells are not created. */
  lemma PlaceFrame(g: Grid, rules: Rules, team: Team, x: int, y: int, result: Block, rotation: int)
    requires (x, y) in g
    ensures var r := PlaceResult(g, rules, team, x, y, result, rotation);
      && r.Keys == g.Keys
      && forall p | p in g && p != (x, y) && !(result.multiblock && InFootprint(p, (x, y), result.size)) :: r[p] == g[p]
  {
  }

  /** After `beginPlace` the anchor holds the placeholder for the result's
      size at the requested rotation, the team, no link, and the payload
      Construct(previous block, result); every other in-bounds footprint cell
      of a multiblock is linked back to the anchor and joins the team. */
  lemma PlaceEffect(g: Grid, rules: Rules, team: Team, x: int, y: int, result: Block, rotation: int)
    requires (x, y) in g && 1 <= result.size <= 255
    ensures var r := PlaceResult(g, rules, team, x, y, result, rotation);
      && r[(x, y)] == Tile(rules.placeholder(result.size), rotation, team, 0, 0, g[(x, y)].floor,
                           Some(Construct(g[(x, y)].block, result)))
      && (result.multiblock ==> forall p | p in g && p != (x, y) && InFootprint(p, (x, y), result.size) ::
            r[p] == g[p].(linkX := p.0 - x, linkY := p.1 - y, team := team))
  {
    var g1 := g[(x, y) := StartConstruct(g[(x, y)], rules.placeholder(result.size), rotation, result, team)];
    if result.multiblock {
      LinkedPartsPointToAnchor(g1, (x, y), result.size, team);
    }
  }

  /** Footprint atomicity: after an accepted multiblock placement that is not
      an upgrade, every cell of the footprint exists, belongs to the team and
      leads back to the anchor, and the anchor is the only cell without a
      link. */
  lemma PlacedFootprintComplete(g: Grid, rules: Rules, team: Team, x: int, y: int, result: Block, rotation: int)
    requires CanPlace(g, rules, team, x, y, result, rotation)
    requires result.multiblock && 1 <= result.size <= 255 && !Upgrade(rules, result, (x, y), g[(x, y)])
    ensures var r := PlaceResult(g, rules, team, x, y, result, rotation);
      forall p | InFootprint(p, (x, y), result.size) ::
        && p in r
        && r[p].team == team
        && (p.0 - r[p].linkX, p.1 - r[p].linkY) == (x, y)
        && ((r[p].linkX, r[p].linkY) == (0, 0) <==> p == (x, y))
  {
    var r := PlaceResult(g, rules, team, x, y, result, rotation);
    PlaceEffect(g, rules, team, x, y, result, rotation);
    PlaceFrame(g, rules, team, x, y, result, rotation);
    forall p | InFootprint(p, (x, y), result.size)
      ensures p in r && r[p].team == team && (p.0 - r[p].linkX, p.1 - r[p].linkY) == (x, y)
      ensures (r[p].linkX, r[p].linkY) == (0, 0) <==> p == (x, y)
    {
      assert CellFree(g, result, p);
    }
  }

  /** After `beginBreak` the resolved anchor holds the placeholder for the
      previous block's size, keeps its rotation, stores the team, no link and
      the payload Deconstruct(previous); for a multiblock every other in-bounds
      cell of the previous block's footprint is linked back to the anchor; no
      other tile changes. */
  lemma BreakEffect(g: Grid, rules: Rules, team: Team, x: int, y: int)
    requires CanBreak(g, rules, team, x, y)
    requires 1 <= g[BreakAnchor(g, rules, x, y)].block.size <= 255
    ensures var a := BreakAnchor(g, rules, x, y);
      var previous := g[a].block;
      var r := BreakResult(g, rules, team, x, y);
      && r.Keys == g.Keys
      && r[a] == Tile(rules.placeholder(previous.size), g[a].rotation, team, 0, 0, g[a].floor, Some(Deconstruct(previous)))
      && (forall p | p in g && p != a && !(previous.multiblock && InFootprint(p, a, previous.size)) :: r[p] == g[p])
      && (previous.multiblock ==> forall p | p in g && p != a && InFootprint(p, a, previous.size) ::
            r[p] == g[p].(linkX := p.0 - a.0, linkY := p.1 - a.1, team := team))
  {
    var a := BreakAnchor(g, rules, x, y);
    var previous := g[a].block;
    var g1 := g[a := StartDeconstruct(g[a], rules.placeholder(previous.size), team)];
    if previous.multiblock {
      LinkedPartsPointToAnchor(g1, a, previous.size, team);
    }
  }

  /** A 2 x 2 block placed at (5, 5) on empty, placeable, solid ground: the
      offset rule gives the cells (5, 5), (5, 6), (6, 5) and (6, 6), the
      placement is accepted, all four join the team, (5, 5) becomes the
      placeholder and anchor, and the other three link back to it. */
  lemma TwoByTwoScenario(g: Grid, rules: Rules, team: Team, b: Block)
    requires b.size == 2 && b.multiblock && PassesEarlyChecks(rules, team, 5, 5, b)
    requires forall p :: p in [(5, 5), (5, 6), (6, 5), (6, 6)] ==>
      p in g && g[p].block == Air && g[p].floor == Floor(false, true)
    requires rules.canPlaceOn(b, (5, 5), g[(5, 5)])
    requires |rules.insideEdges(2)| > 0
    requires InFootprint((5 + rules.insideEdges(2)[0].0, 5 + rules.insideEdges(2)[0].1), (5, 5), 2)
    ensures CanPlace(g, rules, team, 5, 5, b, 0)
    ensures var r := PlaceResult(g, rules, team, 5, 5, b, 0);
      && r[(5, 5)].block == rules.placeholder(2) && (r[(5, 5)].linkX, r[(5, 5)].linkY) == (0, 0)
      && r[(5, 6)].team == team && (r[(5, 6)].linkX, r[(5, 6)].linkY) == (0, 1)
      && r[(6, 5)].team == team && (r[(6, 5)].linkX, r[(6, 5)].linkY) == (1, 0)
      && r[(6, 6)].team == team && (r[(6, 6)].linkX, r[(6, 6)].linkY) == (1, 1)
      && r[(5, 5)].team == team
  {
    OffsetExamples();
    assert (5, 5) in [(5, 5), (5, 6), (6, 5), (6, 6)];
    forall p | InFootprint(p, (5, 5), 2)
      ensures CellFree(g, b, p)
    {
      assert p in [(5, 5), (5, 6), (6, 5), (6, 6)];
    }
    var e := (5 + rules.insideEdges(2)[0].0, 5 + rules.insideEdges(2)[0].1);
    assert e in [(5, 5), (5, 6), (6, 5), (6, 6)];
    assert GroundAt(g, e);
    assert TouchesGround(g, rules, 5, 5, b);
    PlaceEffect(g, rules, team, 5, 5, b, 0);
    assert InFootprint((5, 6), (5, 5), 2) && InFootprint((6, 5), (5, 5), 2) && InFootprint((6, 6), (5, 5), 2);
    assert (5, 6) in [(5, 5), (5, 6), (6, 5), (6, 6)];
    assert (6, 5) in [(5, 5), (5, 6), (6, 5), (6, 6)];
    assert (6, 6) in [(5, 5), (5, 6), (6, 5), (6, 6)];
  }
}
