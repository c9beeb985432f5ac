/** Chain lightning: a seeded walk of `length / 2` hops that strikes at most
    `MaxChain` distinct hostile units, wandering on a seeded heading when no
    unstruck unit is in range. Geometry, the spatial query, the choice of the
    furthest candidate and both random generators are oracles; what is modelled
    exactly is the walk's bookkeeping. */
module Lightning {
  import opened Tiles

  type Point = (real, real)

  /** A hostile unit: its entity id and position. */
  datatype Unit = Unit(id: int, pos: Point)

  /** `Pal.lancerLaser`, the default colour, or any other colour. */
  datatype Color = LancerLaser | Rgba(value: int)

  /** `Bullet.create(Bullets.damageLightning, l, team, x, y, ...)`: one damaging
      impact at a walk position. */
  datatype Impact = Impact(team: Team, pos: Point, damage: real)

  /** `Call.createLighting(seed, team, color, damage, x, y, rotation, length)`. */
  datatype Request = CreateRequest(seed: int, team: Team, color: Color, damage: real,
                                   x: real, y: real, rotation: real, length: int)

  const MaxChain: nat := 8
  const HitRange: real := 30.0

  const MinInt32: int := -0x8000_0000
  const MaxInt32: int := 0x7fff_ffff
  type Int32 = v: int | MinInt32 <= v <= MaxInt32

  /** Java `int` arithmetic wraps around modulo 2^32. */
  function Wrap32(v: int): (r: Int32)
    ensures (r - v) % 0x1_0000_0000 == 0
    ensures MinInt32 <= v <= MaxInt32 ==> r == v
  {
    (v - MinInt32) % 0x1_0000_0000 + MinInt32
  }

  /** Adding one to a wrapped value wraps like adding one first. */
  lemma Wrap32Succ(v: int)
    ensures Wrap32(Wrap32(v) + 1) == Wrap32(v + 1)
  {
    var a := v - MinInt32;
    assert a == (a / 0x1_0000_0000) * 0x1_0000_0000 + a % 0x1_0000_0000;
  }

  /** What the walk reads from code that is not modelled. */
  datatype Oracles = Oracles(
    nearbyEnemies: (Team, Point) -> seq<Unit>,  // Units.getNearbyEnemies(team, HitRange square at the point), in visiting order
    furthest: (Point, seq<Unit>) -> nat,        // Geometry.findFurthest(x, y, entities), as an index
    turn: (int, nat) -> real,                   // the k-th random.range(20f) after random.setSeed(seed)
    advance: real -> Point,                     // (Angles.trnsx, Angles.trnsy)(rotation, HitRange / 2)
    jitter: nat -> Point)                       // (Mathf.range(3f), Mathf.range(3f)) for waypoint i

  /** `findFurthest` returns one of the candidates when there are any. */
  ghost predicate FurthestInRange(o: Oracles)
  {
    forall p, us :: |us| > 0 ==> o.furthest(p, us) < |us|
  }

  // ---------------------------------------------------------------------------
  // The walk, one hop at a time

  /** The units the `getNearbyEnemies` visitor keeps: those not yet struck,
      in visiting order. */
  function Candidates(units: seq<Unit>, hit: set<int>): seq<Unit>
  {
    if |units| == 0 then []
    else
      var last := units[|units| - 1];
      Candidates(units[..|units| - 1], hit) + (if last.id in hit then [] else [last])
  }

  /** The state the walk updates: the current position and heading, the struck
      ids (as the `hit` set and in strike order), how many values the seeded
      generator has produced, and the impacts and waypoints emitted so far. */
  datatype WalkState = WalkState(
    pos: Point,
    rotation: real,
    hit: set<int>,
    strikes: seq<int>,
    draws: nat,
    impacts: seq<Impact>,
    lines: seq<Point>)

  /** The walk before its first hop: the struck set is empty. */
  function Start(x: real, y: real, rotation: real): WalkState
  {
    WalkState((x, y), rotation, {}, [], 0, [], [])
  }

  /** The candidates of one hop: searched for only below the chain cap. */
  function Gather(o: Oracles, team: Team, s: WalkState): seq<Unit>
  {
    if |s.hit| < MaxChain then Candidates(o.nearbyEnemies(team, s.pos), s.hit) else []
  }

  /** Hop `i` of the walk. */
  function Step(o: Oracles, seed: int, team: Team, damage: real, s: WalkState, i: nat): (t: WalkState)
    requires FurthestInRange(o)
    ensures |t.impacts| == |s.impacts| + 1 && |t.lines| == |s.lines| + 1
    ensures s.draws <= t.draws <= s.draws + 1
  {
    var impacts := s.impacts + [Impact(team, s.pos, damage)];
    var lines := s.lines + [(s.pos.0 + o.jitter(i).0, s.pos.1 + o.jitter(i).1)];
    var entities := Gather(o, team, s);
    if |entities| > 0 then
      var u := entities[o.furthest(s.pos, entities)];
      WalkState(u.pos, s.rotation, s.hit + {u.id}, s.strikes + [u.id], s.draws, impacts, lines)
    else
      var r := s.rotation + o.turn(seed, s.draws);
      var d := o.advance(r);
      WalkState((s.pos.0 + d.0, s.pos.1 + d.1), r, s.hit, s.strikes, s.draws + 1, impacts, lines)
  }

  /** The first `n` hops from `s0`. */
  function Run(o: Oracles, seed: int, team: Team, damage: real, s0: WalkState, n: nat): (w: WalkState)
    requires FurthestInRange(o)
    ensures |w.impacts| == |s0.impacts| + n && |w.lines| == |s0.lines| + n
    ensures s0.draws <= w.draws <= s0.draws + n
  {
    if n == 0 then s0 else Step(o, seed, team, damage, Run(o, seed, team, damage, s0, n - 1), n - 1)
  }

  /** The number of hops: `for(int i = 0; i < length/2; i++)` with Java's
      truncating division. */
  function Hops(length: int): (n: nat)
    ensures length >= 0 ==> n == length / 2
    ensures length < 0 ==> n == 0
  {
    var h := JavaDiv(length, 2);
    if h > 0 then h else 0
  }

  /** One more hop is one more `Step`. */
  lemma RunSucc(o: Oracles, seed: int, team: Team, damage: real, s0: WalkState, i: nat)
    requires FurthestInRange(o)
    ensures Run(o, seed, team, damage, s0, i + 1) == Step(o, seed, team, damage, Run(o, seed, team, damage, s0, i), i)
  {
  }

  /** `createLighting`'s whole walk. */
  function Walk(o: Oracles, seed: int, team: Team, damage: real, x: real, y: real, rotation: real, length: int): (w: WalkState)
    requires FurthestInRange(o)
    ensures |w.impacts| == Hops(length) && |w.lines| == Hops(length)
    ensures w.draws <= Hops(length)
  {
    Run(o, seed, team, damage, Start(x, y, rotation), Hops(length))
  }

  /** The loop stops after `Hops(length)` hops: `length / 2` with Java's
      division when that is positive, none otherwise. */
  lemma RunIsWalk(o: Oracles, seed: int, team: Team, damage: real, x: real, y: real, rotation: real, length: int, i: nat)
    requires FurthestInRange(o) && i <= Hops(length) && !(i < JavaDiv(length, 2))
    ensures Run(o, seed, team, damage, Start(x, y, rotation), i) == Walk(o, seed, team, damage, x, y, rotation, length)
  {
  }

  // ---------------------------------------------------------------------------
  // The effect's state and operations

  /** One pooled lightning instance. */
  class Lightning {
    var x: real
    var y: real
    var color: Color
    var lines: seq<Point>

    /** `new Lightning()`: the pool's constructor. */
    constructor ()
      ensures color == LancerLaser && lines == []
    {
      x, y := 0.0, 0.0;
      color := LancerLaser;
      lines := [];
    }

    /** `reset()`: empties the waypoints and restores the default colour. */
    method Reset()
      modifies this
      ensures lines == [] && color == LancerLaser
      ensures x == old(x) && y == old(y)
    {
      color := LancerLaser;
      lines := [];
    }
  }

  /** The state `Lightning` keeps in static fields: the seed counter, the
      struck set, the seeded generator (its seed and how many values it has
      produced), plus the impacts created and the requests sent. */
  class ChainEffects {
    var lastSeed: Int32
    var hit: set<int>
    var rngSeed: int
    var rngDraws: nat
    var impacts: seq<Impact>
    var sent: seq<Request>

    constructor ()
      ensures lastSeed == 0 && hit == {} && impacts == [] && sent == []
    {
      lastSeed := 0;
      hit := {};
      rngSeed, rngDraws := 0, 0;
      impacts := [];
      sent := [];
    }

    /** `create(team, color, damage, x, y, targetAngle, length)`: sends the
        current seed and advances the counter by one, as a Java `int`. */
    method Create(team: Team, color: Color, damage: real, x: real, y: real, targetAngle: real, length: int)
      modifies this
      ensures sent == old(sent) + [CreateRequest(old(lastSeed), team, color, damage, x, y, targetAngle, length)]
      ensures lastSeed == Wrap32(old(lastSeed) + 1)
      ensures hit == old(hit) && rngSeed == old(rngSeed) && rngDraws == old(rngDraws) && impacts == old(impacts)
    {
      sent := sent + [CreateRequest(lastSeed, team, color, damage, x, y, targetAngle, length)];
      lastSeed := Wrap32(lastSeed + 1);
    }

    /** `n` successive `create` calls with the same arguments: they send the
        seeds `IssuedSeeds(lastSeed, n)`, in order, and leave the counter `n`
        further on, as a Java `int`. */
    method CreateSeries(team: Team, color: Color, damage: real, x: real, y: real, targetAngle: real, length: int, n: nat)
      modifies this
      ensures |sent| == |old(sent)| + n && sent[..|old(sent)|] == old(sent)
      ensures forall k :: 0 <= k < n ==>
        sent[|old(sent)| + k] == CreateRequest(IssuedSeeds(old(lastSeed), n)[k], team, color, damage, x, y, targetAngle, length)
      ensures lastSeed == Wrap32(old(lastSeed) + n)
      ensures hit == old(hit) && rngSeed == old(rngSeed) && rngDraws == old(rngDraws) && impacts == old(impacts)
    {
      ghost var start, sent0 := lastSeed, sent;
      ghost var seeds := IssuedSeeds(start, n);
      var i := 0;
      while i < n
        invariant 0 <= i <= n
        invariant |sent| == |sent0| + i && sent[..|sent0|] == sent0
        invariant forall k :: 0 <= k < i ==>
          sent[|sent0| + k] == CreateRequest(seeds[k], team, color, damage, x, y, targetAngle, length)
        invariant seeds[i..] == IssuedSeeds(lastSeed, n - i)
        invariant lastSeed == Wrap32(start + i)
        invariant hit == old(hit) && rngSeed == old(rngSeed) && rngDraws == old(rngDraws) && impacts == old(impacts)
      {
        ghost var before := lastSeed;
        assert seeds[i] == seeds[i..][0] == before;
        assert seeds[i + 1..] == seeds[i..][1..];
        Create(team, color, damage, x, y, targetAngle, length);
        Wrap32Succ(start + i);
        i := i + 1;
      }
    }

    /** `createLighting(seed, team, color, damage, x, y, rotation, length)` on
        the instance `l` taken from the pool: reseeds the generator, clears the
        struck set and runs the walk, appending to `l.lines` and the impacts. */
    method CreateLighting(l: Lightning, o: Oracles, seed: int, team: Team, color: Color, damage: real,
                          x: real, y: real, rotation: real, length: int)
      requires FurthestInRange(o)
      modifies this, l
      ensures var w := Walk(o, seed, team, damage, x, y, rotation, length);
        && l.x == x && l.y == y && l.color == color
        && l.lines == old(l.lines) + w.lines
        && impacts == old(impacts) + w.impacts
        && hit == w.hit
        && rngSeed == seed && rngDraws == w.draws
      ensures lastSeed == old(lastSeed) && sent == old(sent)
    {
      l.x, l.y, l.color := x, y, color;
      rngSeed, rngDraws := seed, 0;
      hit := {};
      RunWalk(l, o, seed, team, damage, x, y, rotation, length);
    }

    /** The `createLighting` loop, from the origin with a freshly seeded
        generator and an empty struck set. */
    method RunWalk(l: Lightning, o: Oracles, seed: int, team: Team, damage: real,
                   x: real, y: real, rotation: real, length: int)
      requires FurthestInRange(o) && hit == {} && rngDraws == 0 && rngSeed == seed
      modifies this`hit, this`rngDraws, this`impacts, l`lines
      ensures var w := Walk(o, seed, team, damage, x, y, rotation, length);
        && l.lines == old(l.lines) + w.lines && impacts == old(impacts) + w.impacts
        && hit == w.hit && rngDraws == w.draws
    {
      ghost var lines0, impacts0 := l.lines, impacts;
      var pos, rot := (x, y), rotation;
      var n := JavaDiv(length, 2);
      var i := 0;
      ghost var w := Start(x, y, rotation);
      assert lines0 + w.lines == lines0 && impacts0 + w.impacts == impacts0;
      while i < n
        invariant 0 <= i <= Hops(length)
        invariant w == Run(o, seed, team, damage, Start(x, y, rotation), i)
        invariant Mirrors(l, pos, rot, lines0, impacts0, w)
      {
        pos, rot := Hop(l, o, seed, team, damage, i, pos, rot, w, lines0, impacts0);
        RunSucc(o, seed, team, damage, Start(x, y, rotation), i);
        w := Step(o, seed, team, damage, w, i);
        i := i + 1;
      }
      RunIsWalk(o, seed, team, damage, x, y, rotation, length, i);
    }

    /** The loop's position and heading, the struck set, the generator's
        position, and the waypoints and impacts appended after `lines0` and
        `impacts0` are those of the walk state `w`. */
    ghost predicate Mirrors(l: Lightning, pos: Point, rot: real, lines0: seq<Point>, impacts0: seq<Impact>, w: WalkState)
      reads this, l
    {
      && pos == w.pos && rot == w.rotation && hit == w.hit && rngDraws == w.draws
      && l.lines == lines0 + w.lines && impacts == impacts0 + w.impacts
    }

    /** One iteration of the `createLighting` loop: the impact and the
        waypoint, then the move. */
    method Hop(l: Lightning, o: Oracles, seed: int, team: Team, damage: real, i: nat,
               pos: Point, rot: real, ghost s: WalkState, ghost lines0: seq<Point>, ghost impacts0: seq<Impact>)
      returns (pos': Point, rot': real)
      requires FurthestInRange(o) && rngSeed == seed
      requires Mirrors(l, pos, rot, lines0, impacts0, s)
      modifies this`hit, this`rngDraws, this`impacts, l`lines
      ensures Mirrors(l, pos', rot', lines0, impacts0, Step(o, seed, team, damage, s, i))
    {
      ghost var t := Step(o, seed, team, damage, s, i);
      assert lines0 + t.lines == lines0 + s.lines + [(pos.0 + o.jitter(i).0, pos.1 + o.jitter(i).1)];
      assert impacts0 + t.impacts == impacts0 + s.impacts + [Impact(team, pos, damage)];
      impacts := impacts + [Impact(team, pos, damage)];
      var j := o.jitter(i);
      l.lines := l.lines + [(pos.0 + j.0, pos.1 + j.1)];

      pos', rot' := Move(o, seed, team, damage, pos, rot, s, i);
    }

    /** The second half of a loop iteration: the candidate search below the
        cap, then a jump to the furthest candidate or a seeded turn and
        advance. */
    method Move(o: Oracles, seed: int, team: Team, damage: real,
                pos: Point, rot: real, ghost s: WalkState, ghost i: nat) returns (pos': Point, rot': real)
      requires FurthestInRange(o)
      requires pos == s.pos && rot == s.rotation && hit == s.hit && rngDraws == s.draws && rngSeed == seed
      modifies this`hit, this`rngDraws
      ensures var t := Step(o, seed, team, damage, s, i);
        pos' == t.pos && rot' == t.rotation && hit == t.hit && rngDraws == t.draws
    {
      var entities: seq<Unit> := [];
      if |hit| < MaxChain {
        entities := KeepUnstruck(o.nearbyEnemies(team, pos), hit);
      }
      assert entities == Gather(o, team, s);

      if |entities| > 0 {
        var furthest := entities[o.furthest(pos, entities)];
        hit := hit + {furthest.id};
        pos', rot' := furthest.pos, rot;
      } else {
        rot' := rot + o.turn(rngSeed, rngDraws);
        rngDraws := rngDraws + 1;
        var d := o.advance(rot');
        pos' := (pos.0 + d.0, pos.1 + d.1);
      }
    }
  }

  /** The `getNearbyEnemies` visitor: collects, in visiting order, the units
      whose id is not in `hit`. */
  method KeepUnstruck(nearby: seq<Unit>, hit: set<int>) returns (entities: seq<Unit>)
    ensures entities == Candidates(nearby, hit)
  {
    entities := [];
    var k := 0;
    while k < |nearby|
      invariant 0 <= k <= |nearby|
      invariant entities == Candidates(nearby[..k], hit)
    {
      assert nearby[..k + 1][..k] == nearby[..k];
      if nearby[k].id !in hit {
        entities := entities + [nearby[k]];
      }
      k := k + 1;
    }
    assert nearby[..|nearby|] == nearby;
  }

  // ---------------------------------------------------------------------------
  // Properties of the walk

  /** Concrete hop counts: an odd length loses its last half step, and a
      negative length runs no hop (Java's `-3 / 2` is -1). */
  lemma HopsExamples()
    ensures Hops(9) == 4 && Hops(8) == 4 && Hops(1) == 0 && Hops(-3) == 0
  {
  }

  /** The candidates are exactly the visited units whose id is not struck, in
      visiting order; none of them has been struck. */
  lemma {:induction false} CandidatesFresh(units: seq<Unit>, hit: set<int>)
    ensures forall u :: u in Candidates(units, hit) <==> u in units && u.id !in hit
    ensures |Candidates(units, hit)| <= |units|
  {
    if |units| > 0 {
      CandidatesFresh(units[..|units| - 1], hit);
      assert units == units[..|units| - 1] + [units[|units| - 1]];
    }
  }

  /** Each hop emits exactly one impact, at the current position, and appends
      exactly one waypoint; earlier ones are kept. */
  lemma StepEmitsOne(o: Oracles, seed: int, team: Team, damage: real, s: WalkState, i: nat)
    requires FurthestInRange(o)
    ensures var t := Step(o, seed, team, damage, s, i);
      && t.impacts == s.impacts + [Impact(team, s.pos, damage)]
      && |t.lines| == |s.lines| + 1 && t.lines[..|s.lines|] == s.lines
  {
  }

  /** A hop either jumps to a candidate, recording its id and keeping the
      heading, or, with no candidate, keeps the struck set and turns by the
      next seeded value before advancing. */
  lemma StepJumpsOrWanders(o: Oracles, seed: int, team: Team, damage: real, s: WalkState, i: nat)
    requires FurthestInRange(o)
    ensures var t := Step(o, seed, team, damage, s, i);
      var entities := Gather(o, team, s);
      if |entities| > 0 then
        exists u :: u in entities && u.id !in s.hit
          && t.pos == u.pos && t.rotation == s.rotation && t.hit == s.hit + {u.id}
          && t.strikes == s.strikes + [u.id] && t.draws == s.draws
      else
        && t.hit == s.hit && t.strikes == s.strikes && t.draws == s.draws + 1
        && t.rotation == s.rotation + o.turn(seed, s.draws)
        && t.pos == (s.pos.0 + o.advance(t.rotation).0, s.pos.1 + o.advance(t.rotation).1)
  {
    var entities := Gather(o, team, s);
    if |entities| > 0 {
      var u := entities[o.furthest(s.pos, entities)];
      CandidatesFresh(o.nearbyEnemies(team, s.pos), s.hit);
      assert u in entities;
    }
  }

  /** The chain invariant: the struck ids are distinct, the struck set holds
      exactly them, and there are at most `MaxChain` of them. */
  ghost predicate ChainOk(s: WalkState)
  {
    && |s.hit| <= MaxChain
    && |s.strikes| == |s.hit|
    && (forall k :: 0 <= k < |s.strikes| ==> s.strikes[k] in s.hit)
    && (forall k, m :: 0 <= k < m < |s.strikes| ==> s.strikes[k] != s.strikes[m])
  }

  /** One hop keeps the chain invariant, adds at most one id, and adds none
      once the cap is reached. */
  lemma StepKeepsChain(o: Oracles, seed: int, team: Team, damage: real, s: WalkState, i: nat)
    requires FurthestInRange(o) && ChainOk(s)
    ensures var t := Step(o, seed, team, damage, s, i);
      && ChainOk(t)
      && s.hit <= t.hit && |t.hit| <= |s.hit| + 1
      && (|s.hit| >= MaxChain ==> t.hit == s.hit)
  {
    var entities := Gather(o, team, s);
    if |entities| > 0 {
      var u := entities[o.furthest(s.pos, entities)];
      CandidatesFresh(o.nearbyEnemies(team, s.pos), s.hit);
      assert u in entities && u.id !in s.hit;
      var t := Step(o, seed, team, damage, s, i);
      assert t.strikes == s.strikes + [u.id];
      forall k | 0 <= k < |t.strikes|
        ensures t.strikes[k] in t.hit
      {
        if k < |s.strikes| {
          assert t.strikes[k] == s.strikes[k];
        }
      }
      forall k, m | 0 <= k < m < |t.strikes|
        ensures t.strikes[k] != t.strikes[m]
      {
        if m < |s.strikes| {
          assert t.strikes[k] == s.strikes[k] && t.strikes[m] == s.strikes[m];
        } else {
          assert t.strikes[k] == s.strikes[k] && s.strikes[k] in s.hit;
        }
      }
    }
  }

  /** A whole walk: exactly `n` impacts and `n` waypoints, every struck id
      distinct, the struck set at most `MaxChain` large and growing by at most
      one per hop. */
  lemma {:induction false} RunBookkeeping(o: Oracles, seed: int, team: Team, damage: real, s0: WalkState, n: nat)
    requires FurthestInRange(o) && ChainOk(s0)
    ensures var w := Run(o, seed, team, damage, s0, n);
      && |w.impacts| == |s0.impacts| + n && |w.lines| == |s0.lines| + n
      && ChainOk(w)
      && s0.hit <= w.hit && |w.hit| <= |s0.hit| + n
  {
    if n > 0 {
      RunBookkeeping(o, seed, team, damage, s0, n - 1);
      var w' := Run(o, seed, team, damage, s0, n - 1);
      StepKeepsChain(o, seed, team, damage, w', n - 1);
      StepEmitsOne(o, seed, team, damage, w', n - 1);
    }
  }

  /** `createLighting`'s walk: `Hops(length)` impacts and waypoints, at most
      `MaxChain` distinct strikes, whatever the struck set held before. */
  lemma WalkBookkeeping(o: Oracles, seed: int, team: Team, damage: real, x: real, y: real, rotation: real, length: int)
    requires FurthestInRange(o)
    ensures var w := Walk(o, seed, team, damage, x, y, rotation, length);
      && |w.impacts| == Hops(length) && |w.lines| == Hops(length)
      && |w.hit| <= MaxChain && |w.hit| == |w.strikes|
      && (forall k, m :: 0 <= k < m < |w.strikes| ==> w.strikes[k] != w.strikes[m])
  {
    RunBookkeeping(o, seed, team, damage, Start(x, y, rotation), Hops(length));
  }

  /** Impact `i` carries the team and damage, and waypoint `i` is the
      position of impact `i` moved by jitter `i`. */
  ghost predicate WaypointsMatch(o: Oracles, team: Team, damage: real, w: WalkState)
  {
    Paired(o, team, damage, w.impacts, w.lines)
  }

  /** Impact `i` carries the team and damage, and waypoint `i` is impact
      `i`'s position moved by jitter `i`. */
  ghost predicate Paired(o: Oracles, team: Team, damage: real, impacts: seq<Impact>, lines: seq<Point>)
  {
    && |impacts| == |lines|
    && forall i :: 0 <= i < |lines| ==>
         && impacts[i].team == team && impacts[i].damage == damage
         && lines[i] == (impacts[i].pos.0 + o.jitter(i).0, impacts[i].pos.1 + o.jitter(i).1)
  }

  /** Appending an impact at `p` and the waypoint `p` moved by the next
      jitter keeps impacts and waypoints paired. */
  lemma PairedAppend(o: Oracles, team: Team, damage: real, impacts: seq<Impact>, lines: seq<Point>, p: Point)
    requires Paired(o, team, damage, impacts, lines)
    ensures Paired(o, team, damage, impacts + [Impact(team, p, damage)],
                   lines + [(p.0 + o.jitter(|lines|).0, p.1 + o.jitter(|lines|).1)])
  {
    var impacts' := impacts + [Impact(team, p, damage)];
    var lines' := lines + [(p.0 + o.jitter(|lines|).0, p.1 + o.jitter(|lines|).1)];
    forall i | 0 <= i < |lines'|
      ensures impacts'[i].team == team && impacts'[i].damage == damage
      ensures lines'[i] == (impacts'[i].pos.0 + o.jitter(i).0, impacts'[i].pos.1 + o.jitter(i).1)
    {
      if i < |lines| {
        assert lines'[i] == lines[i] && impacts'[i] == impacts[i];
      }
    }
  }

  /** A hop keeps every impact paired with its waypoint: the hop's own
      waypoint is its impact's position moved by the hop's jitter. */
  lemma StepKeepsWaypointsMatch(o: Oracles, seed: int, team: Team, damage: real, s: WalkState)
    requires FurthestInRange(o) && WaypointsMatch(o, team, damage, s)
    ensures WaypointsMatch(o, team, damage, Step(o, seed, team, damage, s, |s.lines|))
  {
    var t := Step(o, seed, team, damage, s, |s.lines|);
    PairedAppend(o, team, damage, s.impacts, s.lines, s.pos);
    assert t.impacts == s.impacts + [Impact(team, s.pos, damage)];
    assert t.lines == s.lines + [(s.pos.0 + o.jitter(|s.lines|).0, s.pos.1 + o.jitter(|s.lines|).1)];
  }

  /** The i-th impact of a walk is emitted at the position the walk had
      reached after i hops. */
  lemma {:induction false} ImpactsFollowPath(o: Oracles, seed: int, team: Team, damage: real, s0: WalkState, n: nat)
    requires FurthestInRange(o) && |s0.impacts| == 0
    ensures forall i :: 0 <= i < n ==>
      Run(o, seed, team, damage, s0, n).impacts[i].pos == Run(o, seed, team, damage, s0, i).pos
  {
    if n > 0 {
      ImpactsFollowPath(o, seed, team, damage, s0, n - 1);
      var w' := Run(o, seed, team, damage, s0, n - 1);
      var w := Run(o, seed, team, damage, s0, n);
      assert w.impacts == w'.impacts + [Impact(team, w'.pos, damage)];
      forall i | 0 <= i < n
        ensures w.impacts[i].pos == Run(o, seed, team, damage, s0, i).pos
      {
        if i < n - 1 {
          assert w.impacts[i] == w'.impacts[i];
        }
      }
    }
  }

  /** Over a whole walk, impact `i` carries the team and damage, and
      waypoint `i` is impact `i`'s position moved by jitter `i` (that
      position is the walk's position after `i` hops, `ImpactsFollowPath`). */
  lemma {:induction false} WaypointsTrackImpacts(o: Oracles, seed: int, team: Team, damage: real, s0: WalkState, n: nat)
    requires FurthestInRange(o) && |s0.impacts| == 0 && |s0.lines| == 0
    ensures var w := Run(o, seed, team, damage, s0, n);
      |w.lines| == n && WaypointsMatch(o, team, damage, w)
  {
    if n > 0 {
      WaypointsTrackImpacts(o, seed, team, damage, s0, n - 1);
      var w' := Run(o, seed, team, damage, s0, n - 1);
      StepKeepsWaypointsMatch(o, seed, team, damage, w');
    }
  }

  /** Two walk states that differ at most in where their waypoints lie. */
  ghost predicate SameButWaypoints(a: WalkState, b: WalkState)
  {
    && a.pos == b.pos && a.rotation == b.rotation && a.hit == b.hit && a.strikes == b.strikes
    && a.draws == b.draws && a.impacts == b.impacts && |a.lines| == |b.lines|
  }

  /** One hop with a different waypoint jitter is the same hop but for its
      waypoint. */
  lemma StepIgnoresJitter(o: Oracles, jitter: nat -> Point, seed: int, team: Team, damage: real,
                          a: WalkState, b: WalkState, i: nat)
    requires FurthestInRange(o) && SameButWaypoints(a, b)
    ensures SameButWaypoints(Step(o, seed, team, damage, a, i), Step(o.(jitter := jitter), seed, team, damage, b, i))
  {
    assert Gather(o, team, a) == Gather(o.(jitter := jitter), team, b);
  }

  /** Replay: the waypoint jitter comes from a generator the seed does not
      control, and it moves only the waypoints. Two runs that differ only in
      the jitter strike the same ids in the same order, emit the same impacts,
      follow the same path and draw the same seeded values. */
  lemma {:induction false} RunIgnoresJitter(o: Oracles, jitter: nat -> Point, seed: int, team: Team, damage: real,
                                             s0: WalkState, n: nat)
    requires FurthestInRange(o)
    ensures SameButWaypoints(Run(o, seed, team, damage, s0, n), Run(o.(jitter := jitter), seed, team, damage, s0, n))
  {
    if n > 0 {
      RunIgnoresJitter(o, jitter, seed, team, damage, s0, n - 1);
      StepIgnoresJitter(o, jitter, seed, team, damage,
                        Run(o, seed, team, damage, s0, n - 1), Run(o.(jitter := jitter), seed, team, damage, s0, n - 1), n - 1);
    }
  }

  // ---------------------------------------------------------------------------
  // Properties of the seed counter

  /** The seeds `n` successive `create` calls send, starting from `start`. */
  function IssuedSeeds(start: Int32, n: nat): (seeds: seq<Int32>)
    ensures |seeds| == n
    decreases n
  {
    if n == 0 then [] else [start] + IssuedSeeds(Wrap32(start + 1), n - 1)
  }

  /** As long as the counter does not pass `MaxInt32`, successive seeds are
      `start, start + 1, ...`: strictly increasing and therefore distinct. */
  lemma {:induction false} SeedsIncrease(start: Int32, n: nat)
    requires start + n - 1 <= MaxInt32
    ensures |IssuedSeeds(start, n)| == n
    ensures forall k :: 0 <= k < n ==> IssuedSeeds(start, n)[k] == start + k
    ensures forall k, m :: 0 <= k < m < n ==> IssuedSeeds(start, n)[k] < IssuedSeeds(start, n)[m]
    decreases n
  {
    if n > 1 {
      assert Wrap32(start + 1) == start + 1;
      SeedsIncrease(Wrap32(start + 1), n - 1);
    }
  }

  /** The counter is a Java `int`: the call after the one that sends
      `MaxInt32` sends `MinInt32`. */
  lemma SeedWrapsAround()
    ensures IssuedSeeds(MaxInt32, 2) == [MaxInt32, MinInt32]
  {
  }
}
