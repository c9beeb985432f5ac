# Mindustry build rules and chain lightning, modelled in Dafny

This project models two parts of Mindustry, the tile-based factory and
tower-defence game.

**Build placement and deconstruction** (`Build.java`). The world is a grid of
tiles. Each tile has a block, a rotation, a team, a signed-byte link offset
that leads a multiblock part back to its anchor, a floor and, while a build is
in progress, a construct or deconstruct payload.
- `validPlace` decides whether a block type of size `size` may occupy the
  `size` x `size` footprint around an anchor cell.
- `contactsGround` decides whether that footprint touches non-liquid ground.
- `validBreak` decides whether the block a tile belongs to may be removed by
  a team.
- `beginPlace` and `beginBreak` turn the anchor into the `"build" + size`
  placeholder with its payload. They then link every other in-bounds
  footprint cell back to the anchor and give it to the team.

**Chain lightning** (`Lightning.java`). `create` sends a request carrying the
current value of a global seed counter and advances the counter.
`createLighting` runs a walk of `length / 2` hops. Each hop emits one
damaging impact and appends one waypoint. While fewer than eight units have
been struck, it gathers the unstruck hostile units in range. It then jumps to
the furthest of them, or, with none, turns by a seeded random amount and
advances. `reset` clears a pooled instance.

Files:
- `tiles.dfy` (module `Tiles`): positions, teams, blocks, floors, tiles, and
  the grid as a `map<Pos, Tile>`. It also holds Java's truncating division,
  the `(byte)` cast and the footprint offset `-(size - 1) / 2`.
- `build.dfy` (module `Build`):
  - `ValidPlace` and `ContactsGround` are imperative checkers. Each is proved
    equal to a declarative predicate (`CanPlace`, `TouchesGround`).
  - The class `World` holds the grid and the event log. Its methods
    `BeginPlace` and `BeginBreak` are proved against the functions
    `PlaceResult` and `BreakResult`.
  - Lemmas state what those functions guarantee.
- `lightning.dfy` (module `Lightning`):
  - The walk is a specification function `Step`/`Run`/`Walk` over a
    `WalkState`.
  - The class `ChainEffects` holds the static state: the seed counter, the
    struck set, the seeded generator's position, the impacts created and the
    requests sent.
  - The class `Lightning` is one pooled instance.
  - `CreateLighting`'s loop is proved to compute `Walk`, and lemmas prove its
    bookkeeping.

Code the model cannot see enters as parameters: the `Rules` datatype for the
build rules and the `Oracles` datatype for the walk. Each is a bundle of
function values.

## Model

| member | source | states |
|---|---|---|
| Tiles.TileAt | core/src/io/anuke/mindustry/world/Build.java:126-128 | `world.tile(x, y)` is present exactly for positions in the grid, and is then that position's tile |
| Tiles.JavaDiv | core/src/io/anuke/mindustry/world/Build.java:143-144 | Java's int division rounds toward zero: the remainder `a - q * b` is smaller than `b` in magnitude and has the sign of the dividend (or is zero) |
| Tiles.ToByte | core/src/io/anuke/mindustry/world/Build.java:95 | the `(byte)` cast yields a value in [-128, 128), congruent to its argument modulo 256, and the argument itself when that already fits |
| Tiles.Offset | core/src/io/anuke/mindustry/world/Build.java:43-44 | the footprint offset `-(size - 1) / 2` is never positive and centres the footprint: the cells before the anchor number `-off`, those after it `-off` or `-off + 1` |
| Tiles.OffsetIsMinusHalf | core/src/io/anuke/mindustry/world/Build.java:143-144 | for every size >= 1 the offset `-(size - 1) / 2` equals `-((size - 1) / 2)`, so the anchor sits at the centre cell (odd sizes) or just below centre (even sizes) |
| Tiles.OffsetExamples | core/src/io/anuke/mindustry/world/Build.java:43-44 | concrete offsets: 0 for sizes 1 and 2, -1 for sizes 3 and 4, -2 for size 5 |
| Tiles.AnchorInFootprint | core/src/io/anuke/mindustry/world/Build.java:88-91 | the anchor lies in its own footprint for every size >= 1 |
| Tiles.FootprintOffsetFitsByte | core/src/io/anuke/mindustry/world/Build.java:95 | for blocks at most 255 wide, every footprint cell's offset from the anchor survives the `(byte)` cast unchanged |
| Tiles.WideFootprintWraps | core/src/io/anuke/mindustry/world/Build.java:95 | from 256 wide on the cast wraps: cell (128, 128) of a 256-wide footprint at (0, 0) stores -128 |
| Build.ScanGround | core/src/io/anuke/mindustry/world/Build.java:169-172 | one edge loop of `contactsGround` returns true exactly when some offset lands on an in-bounds non-liquid tile |
| Build.ContactsGround | core/src/io/anuke/mindustry/world/Build.java:167-186 | the result equals `TouchesGround`: inside edges or outer edges for a multiblock, the four neighbours or the cell itself for a single cell |
| Build.ValidPlace | core/src/io/anuke/mindustry/world/Build.java:107-165 | the early-return checker with its nested footprint scan returns exactly the declarative `CanPlace` rule, in both directions |
| Build.EarlyRejections | core/src/io/anuke/mindustry/world/Build.java:108-128 | placement is refused for an invisible or hidden type, a solid type over a unit, a spot near an enemy core, and an anchor off the world |
| Build.UpgradeAccepted | core/src/io/anuke/mindustry/world/Build.java:130-133 | the in-place multiblock upgrade (replaceable, same size, `canPlaceOn`) is accepted with no ground or footprint check |
| Build.MultiblockNeedsWholeFootprint | core/src/io/anuke/mindustry/world/Build.java:135-155 | outside the upgrade case a multiblock is accepted if and only if it passes the early checks, touches ground, accepts the anchor, and every footprint cell is in bounds, empty or always-replaceable, placeable, and not liquid unless the type floats |
| Build.OneBadCellRejects | core/src/io/anuke/mindustry/world/Build.java:145-152 | a single unusable footprint cell refuses the whole multiblock placement |
| Build.SingleCellConditions | core/src/io/anuke/mindustry/world/Build.java:157-163 | an accepted single-cell placement has an in-bounds tile owned by no team or the requesting team, a non-multiblock occupant, a usable floor, and an occupant that is air, always-replaceable, or replaceable and not the same rotatable type at the same rotation |
| Build.SameRotatableRefused | core/src/io/anuke/mindustry/world/Build.java:161-162 | re-placing a rotatable type over itself at its current rotation is refused |
| Build.SameNonRotatingAllowed | core/src/io/anuke/mindustry/world/Build.java:157-163 | a non-rotating type that can replace itself may be re-placed over itself at any rotation when the rest of the rule holds |
| Build.SingleCellContact | core/src/io/anuke/mindustry/world/Build.java:178-183 | single-cell ground contact holds if and only if one of (x+1, y), (x, y+1), (x-1, y), (x, y-1) or (x, y) is in bounds on a non-liquid floor |
| Build.CanBreak | core/src/io/anuke/mindustry/world/Build.java:189-194 | `validBreak` holds only for an in-bounds tile whose `target()` anchor is in bounds and breakable, and, when that anchor's block is synthetic, owned by the requesting team |
| Build.BreakOutOfBounds | core/src/io/anuke/mindustry/world/Build.java:189-193 | breaking is refused off the world and when the tile resolves through `target()` to an anchor off the world |
| Build.BreakOwnership | core/src/io/anuke/mindustry/world/Build.java:193 | a synthetic anchor may only be broken by its own team; for any other block the requesting team makes no difference |
| Build.PlaceResult | core/src/io/anuke/mindustry/world/Build.java:76-101 | the grid after an accepted `beginPlace` keeps its set of cells, and its anchor is the result-size placeholder at the given rotation with the team, no link and payload Construct(previous, result) |
| Build.BreakResult | core/src/io/anuke/mindustry/world/Build.java:32-59 | the grid after an accepted `beginBreak` keeps its set of cells, and its resolved anchor is the previous-size placeholder at its old rotation with the team, no link and payload Deconstruct(previous) |
| Build.World.BeginPlace | core/src/io/anuke/mindustry/world/Build.java:66-104 | when `validPlace` fails the grid and event log are unchanged; otherwise the grid becomes `PlaceResult` and one non-breaking build event for the anchor is logged |
| Build.World.BeginBreak | core/src/io/anuke/mindustry/world/Build.java:22-63 | when `validBreak` fails nothing changes; otherwise the grid becomes `BreakResult` and one breaking build event for the resolved anchor is logged |
| Build.World.LinkParts | core/src/io/anuke/mindustry/world/Build.java:88-100 | the nested footprint loops leave the grid as `LinkFootprint`: every in-bounds non-anchor footprint cell linked, everything else untouched |
| Build.World.LinkColumn | core/src/io/anuke/mindustry/world/Build.java:89-99 | the inner `dy` loop links exactly one more column of the footprint |
| Build.LinkedPartsPointToAnchor | core/src/io/anuke/mindustry/world/Build.java:88-100 | linking keeps the key set, leaves the anchor and every cell outside the footprint alone, and gives each other in-bounds footprint cell the team and a non-zero offset leading back to the anchor, with nothing else of the tile changed |
| Build.PlaceFrame | core/src/io/anuke/mindustry/world/Build.java:76-101 | `beginPlace` creates no cells and changes no tile other than the anchor and, for a multiblock, its footprint |
| Build.PlaceEffect | core/src/io/anuke/mindustry/world/Build.java:76-101 | the anchor becomes the placeholder for the result's size at the given rotation, with the team, no link and payload Construct(previous block, result); the other in-bounds footprint cells are linked to it |
| Build.PlacedFootprintComplete | core/src/io/anuke/mindustry/world/Build.java:139-155 | after an accepted non-upgrade multiblock placement every footprint cell exists, belongs to the team and leads back to the anchor, and only the anchor has a zero link |
| Build.BreakEffect | core/src/io/anuke/mindustry/world/Build.java:32-59 | `beginBreak` works on the resolved anchor: it becomes the placeholder for the previous block's size, keeps its rotation, gets the team, no link and payload Deconstruct(previous); the previous footprint is linked to it; nothing else changes |
| Build.TwoByTwoScenario | core/src/io/anuke/mindustry/world/Build.java:84-101 | a 2 x 2 block at (5, 5) on clear ground is accepted; (5, 5) is the placeholder and anchor, (5, 6), (6, 5), (6, 6) link back with offsets (0, 1), (1, 0), (1, 1) and join the team |
| Lightning.Wrap32 | core/src/io/anuke/mindustry/entities/effect/Lightning.java:57 | Java int arithmetic: the result is in the 32-bit range, congruent modulo 2^32, and unchanged when already in range |
| Lightning.Step | core/src/io/anuke/mindustry/entities/effect/Lightning.java:76-99 | one hop adds exactly one impact and one waypoint and draws at most one seeded value |
| Lightning.Run | core/src/io/anuke/mindustry/entities/effect/Lightning.java:75-100 | `n` hops add exactly `n` impacts and `n` waypoints and draw at most `n` seeded values |
| Lightning.Hops | core/src/io/anuke/mindustry/entities/effect/Lightning.java:75 | the loop bound `length/2` with Java's division: `length / 2` for a non-negative length, no hop for a negative one |
| Lightning.Walk | core/src/io/anuke/mindustry/entities/effect/Lightning.java:72-100 | a whole walk emits exactly `Hops(length)` impacts and waypoints and draws at most that many seeded values |
| Lightning.RunIsWalk | core/src/io/anuke/mindustry/entities/effect/Lightning.java:75 | the loop leaves its condition `i < length/2` exactly after `Hops(length)` hops, the walk |
| Lightning.HopsExamples | core/src/io/anuke/mindustry/entities/effect/Lightning.java:75 | concrete hop counts: 4 for lengths 8 and 9, none for 1 and for -3 (Java's `-3 / 2` is -1) |
| Lightning.Lightning.constructor | core/src/io/anuke/mindustry/entities/effect/Lightning.java:48-53 | a fresh pooled instance has no waypoints and the default colour |
| Lightning.Lightning.Reset | core/src/io/anuke/mindustry/entities/effect/Lightning.java:119-124 | `reset` empties the waypoints, restores the default colour and leaves the position alone |
| Lightning.ChainEffects.constructor | core/src/io/anuke/mindustry/entities/effect/Lightning.java:40-46 | the static state starts with seed counter 0, an empty struck set and nothing created or sent |
| Lightning.ChainEffects.Create | core/src/io/anuke/mindustry/entities/effect/Lightning.java:56-58 | `create` sends one request carrying the old counter value and the caller's arguments, and advances the counter by one as a Java int; nothing else changes |
| Lightning.ChainEffects.CreateSeries | core/src/io/anuke/mindustry/entities/effect/Lightning.java:56-58 | `n` successive `create` calls send the seeds `IssuedSeeds(start, n)` in order and leave the counter `n` further on as a Java int |
| Lightning.ChainEffects.CreateLighting | core/src/io/anuke/mindustry/entities/effect/Lightning.java:62-101 | the instance gets the position and colour, the generator is reseeded and the struck set cleared, and the waypoints, impacts, struck set and generator position end as `Walk` of the arguments, whatever they held before |
| Lightning.ChainEffects.RunWalk | core/src/io/anuke/mindustry/entities/effect/Lightning.java:75-100 | the loop appends exactly `Walk`'s waypoints and impacts and ends with `Walk`'s struck set and generator position |
| Lightning.ChainEffects.Hop | core/src/io/anuke/mindustry/entities/effect/Lightning.java:76-99 | one loop iteration updates position, heading, struck set, generator position, waypoints and impacts exactly as `Step` |
| Lightning.KeepUnstruck | core/src/io/anuke/mindustry/entities/effect/Lightning.java:82-86 | the visitor collects exactly `Candidates`: the nearby units whose id is not struck, in visiting order |
| Lightning.CandidatesFresh | core/src/io/anuke/mindustry/entities/effect/Lightning.java:82-86 | a unit is a candidate if and only if it is nearby and its id is not struck; there are no more candidates than nearby units |
| Lightning.StepEmitsOne | core/src/io/anuke/mindustry/entities/effect/Lightning.java:76-77 | each hop appends exactly one impact, at the current position with the team and damage, and exactly one waypoint, keeping the earlier ones |
| Lightning.StepJumpsOrWanders | core/src/io/anuke/mindustry/entities/effect/Lightning.java:89-99 | with a candidate the hop moves to an unstruck candidate, records its id and keeps the heading; without one the struck set is unchanged, the heading turns by the next seeded value and the position advances along it |
| Lightning.StepKeepsChain | core/src/io/anuke/mindustry/entities/effect/Lightning.java:81-92 | a hop keeps the struck ids distinct and at most eight, adds at most one, and adds none once the cap is reached |
| Lightning.RunBookkeeping | core/src/io/anuke/mindustry/entities/effect/Lightning.java:75-100 | `n` hops add exactly `n` impacts and `n` waypoints, keep the chain invariant, and grow the struck set by at most `n` |
| Lightning.WalkBookkeeping | core/src/io/anuke/mindustry/entities/effect/Lightning.java:72-100 | a whole walk has `length / 2` impacts and waypoints and at most eight struck ids, all distinct |
| Lightning.StepKeepsWaypointsMatch | core/src/io/anuke/mindustry/entities/effect/Lightning.java:76-77 | a hop keeps every impact paired with its waypoint: the waypoint is the impact's position moved by that hop's jitter |
| Lightning.ImpactsFollowPath | core/src/io/anuke/mindustry/entities/effect/Lightning.java:75-76 | impact `i` of a walk is emitted at the position the walk reached after `i` hops |
| Lightning.WaypointsTrackImpacts | core/src/io/anuke/mindustry/entities/effect/Lightning.java:75-77 | over a whole walk, impact `i` has the team and damage and waypoint `i` is impact `i`'s position moved by jitter `i` |
| Lightning.StepIgnoresJitter | core/src/io/anuke/mindustry/entities/effect/Lightning.java:77-99 | a different waypoint jitter changes nothing in a hop but its waypoint |
| Lightning.RunIgnoresJitter | core/src/io/anuke/mindustry/entities/effect/Lightning.java:72-100 | replay: with equal seed, inputs and seeded oracles, two walks strike the same ids in the same order, emit the same impacts, follow the same path and have the same number of waypoints, whatever the unseeded jitter |
| Lightning.SeedsIncrease | core/src/io/anuke/mindustry/entities/effect/Lightning.java:56-57 | while the counter does not pass 2^31 - 1, successive `create` calls send `start, start + 1, ...`, strictly increasing and distinct |
| Lightning.SeedWrapsAround | core/src/io/anuke/mindustry/entities/effect/Lightning.java:57 | the call after the one sending 2^31 - 1 sends -2^31 |

## Left out

- The unit-overlap rectangle test (Build.java:112-115) and the enemy-core distance test (Build.java:118-124) are float geometry over state this model does not hold. Each is the boolean oracle `Rules.unitsOverlap` / `Rules.nearEnemyCore`.
- `Block.canReplace`, `Block.canPlaceOn`, `Block.canBreak`, `Tile.breakable`, `Tile.target`, `Edges.getInsideEdges`, `Edges.getEdges` and the catalogue lookup `content.getByName("build" + size)` are code this model does not include. They are the function values of `Rules`.
- `Core.app.post(() -> Events.fire(...))` is modelled as an append to the `World.events` log. The deferral to the next frame and the listeners are not modelled.
- `Tile.java` is not part of this model. `setBlock` is taken to store the block and clear the link. The two-argument form also stores the rotation; the one-argument form keeps it. `setLinked` is taken to store the offset only. `setTeam` stores the team. The build entity's payload is the tile's `build` field.
- The block identity comparisons `type == tile.block()` and `other.block() != Blocks.air` are value equality on `Block`.
- The `if(tile == null) return;` after validation (Build.java:29-30, 73-74) cannot fire once validation has passed, so it has no counterpart.
- Build.LinkedPartsPointToAnchor: stated only for blocks at most 255 cells wide. From 256 cells wide on, the `(byte)` cast wraps (`WideFootprintWraps`), and the stored offset no longer leads back to the anchor.
- Build.PlaceEffect: states the linked offsets only for blocks at most 255 cells wide, for the same reason.
- Build.PlacedFootprintComplete: stated only for blocks at most 255 cells wide, for the same reason.
- Build.BreakEffect: stated only for previous blocks at most 255 cells wide, for the same reason.
- Lightning positions are real numbers, not 32-bit floats. `Angles.trnsx/trnsy`, `Geometry.findFurthest`, `Units.getNearbyEnemies` and both random generators are the oracles of `Oracles`. `findFurthest` is assumed to return one of its candidates when there are any.
- The seeded generator `random.range(20f)` is modelled as the `k`-th value after `setSeed(seed)`: `turn(seed, k)`.
- Waypoint jitter comes from `Mathf.range`, a generator the seed does not reset. So waypoint positions are not reproduced by a replay; only their count is. The strike sequence, impacts and path are reproduced (`RunIgnoresJitter`).
- `Bullet.create` is modelled as an `Impact` record (team, position, damage) appended to a log. The bullet entity and its damage are not modelled.
- The instance `l` is the caller's argument. `Pools.obtain`, `Pools.free`, `l.add()`, `removed` and the superclass state reset by `super.reset()` are not modelled.
- `draw`, `write`, `read`, `isSyncing`, `lifetime`, `targetGroup` and the remote transport behind `Call.createLighting` are not modelled: they are rendering, serialization stubs, entity plumbing and networking. `create` records the request it sends in `ChainEffects.sent`.
- The scratch `rect` and `entities` statics are not modelled as state. The candidates of one hop are a local value.
- Lightning.SeedsIncrease: proved only while the counter does not pass 2^31 - 1. The counter is a Java int, and it then wraps (`SeedWrapsAround`).
