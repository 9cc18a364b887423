/** How NPCs behave during a tick: whom they notice, where they walk, how hard they hit. */
module Behaviour {
  import opened Board
  import opened Client
  import opened Progression
  import opened Sectors
  import opened Scene
  import AStar
  import AStarSpec
  import Agenda
  import Schedule

  const AGRO_DETECT_RANGE: int := 10
  const BOSS_DETECT_RANGE: int := 15
  const ATTACK_RANGE: int := 1
  const BOSS_ATTACK_RANGE: int := 2
  const BOSS_AREA_RANGE: int := 3
  const ROAM_RANGE: int := 20
  const NPC_ATTACK_DMG: int := 8
  const BOSS_ATTACK_DMG_P1: int := 20
  const BOSS_ATTACK_DMG_P2: int := 30
  const BOSS_ATTACK_DMG_P3: int := 45

  const PC_SPAWN: Tile := Tile(1000, 100)

  // ---- noticing players ----

  function DetectRange(kind: Kind): int {
    if kind == Boss then BOSS_DETECT_RANGE else AGRO_DETECT_RANGE
  }

  /** A player the nine-sector scan of `n` finds within its detection range. */
  predicate Prey(objs: Objs, n: int, q: int)
    requires n in objs && objs[n].Npc?
  {
    Watching(objs, q) && IsPc(q) && Touching(objs[q].at, objs[n].at) &&
    Within(objs[n].at, objs[q].at, DetectRange(objs[n].kind))
  }

  ghost predicate NoPrey(objs: Objs, n: int)
    requires n in objs && objs[n].Npc?
  {
    forall q :: !Prey(objs, n, q)
  }

  ghost predicate NearestPrey(objs: Objs, n: int, q: int)
    requires n in objs && objs[n].Npc?
  {
    && Prey(objs, n, q)
    && forall r :: Prey(objs, n, r) ==> Manhattan(objs[n].at, objs[q].at) <= Manhattan(objs[n].at, objs[r].at)
  }

  /** The scan misses nobody in range of an aggressive NPC; a boss, whose range is larger, can miss players. */
  lemma ScanCompleteUnlessBoss(objs: Objs, n: int, q: int)
    requires Shaped(objs) && n in objs && objs[n].Npc? && objs[n].kind != Boss && Watching(objs, q)
    ensures Prey(objs, n, q) <==> Within(objs[n].at, objs[q].at, AGRO_DETECT_RANGE)
  {
    if Within(objs[n].at, objs[q].at, AGRO_DETECT_RANGE) {
      WithinSectorSizeTouches(objs[q].at, objs[n].at);
    }
  }

  /** Along one axis everything within 15 of `c` lies in the three sectors around it. */
  predicate AxisCovered(c: int, size: int) {
    (4 <= c % SECTOR_SIZE || c / SECTOR_SIZE <= 1) &&
    (c % SECTOR_SIZE <= 6 || size <= SECTOR_SIZE * (c / SECTOR_SIZE + 2))
  }

  /** A living boss on `c`, and a playing player in its range. */
  ghost predicate BossScene(objs: Objs, n: int, q: int, c: Tile) {
    && Shaped(objs) && IsActor(objs, n) && objs[n].kind == Boss && objs[n].at == c
    && Watching(objs, q) && Within(c, objs[q].at, BOSS_DETECT_RANGE)
  }

  ghost predicate BossNotices(objs: Objs, n: int, q: int, c: Tile) {
    BossScene(objs, n, q, c) ==> Prey(objs, n, q)
  }

  /**
   A boss notices every playing player in range, in every scene, if and only if its tile is in the
   middle of a sector on both axes, or near enough to the border of the world.
   */
  lemma BossNoticesExactly(c: Tile)
    requires InWorld(c)
    ensures (forall objs: Objs, n, q :: BossNotices(objs, n, q, c)) <==>
              AxisCovered(c.x, WORLD_WIDTH) && AxisCovered(c.y, WORLD_HEIGHT)
  {
    if AxisCovered(c.x, WORLD_WIDTH) && AxisCovered(c.y, WORLD_HEIGHT) {
      forall objs: Objs, n, q
        ensures BossNotices(objs, n, q, c)
      {
        if BossScene(objs, n, q, c) {
          CoveredTouches(c.x, objs[q].at.x, WORLD_WIDTH);
          CoveredTouches(c.y, objs[q].at.y, WORLD_HEIGHT);
        }
      }
    } else {
      var t := Tile(if AxisCovered(c.x, WORLD_WIDTH) then c.x else Missed(c.x, WORLD_WIDTH),
                    if AxisCovered(c.y, WORLD_HEIGHT) then c.y else Missed(c.y, WORLD_HEIGHT));
      BossMissesPlayer(c, t);
    }
  }

  lemma CoveredTouches(c: int, d: int, size: int)
    requires 0 <= d < size && AxisCovered(c, size) && Abs(c - d) <= BOSS_DETECT_RANGE
    ensures Abs(d / SECTOR_SIZE - c / SECTOR_SIZE) <= 1
  {
  }

  /** A coordinate in range two sectors away, where there is one. */
  function Missed(c: int, size: int): (d: int)
    requires 0 <= c < size && !AxisCovered(c, size)
    ensures 0 <= d < size && Abs(c - d) <= BOSS_DETECT_RANGE && Abs(d / SECTOR_SIZE - c / SECTOR_SIZE) == 2
  {
    if c % SECTOR_SIZE < 4 && c / SECTOR_SIZE > 1 then SECTOR_SIZE * (c / SECTOR_SIZE - 1) - 1
    else SECTOR_SIZE * (c / SECTOR_SIZE + 2)
  }

  /** A player in range whose sector does not touch the boss's is missed. */
  lemma BossMissesPlayer(c: Tile, t: Tile)
    requires InWorld(c) && InWorld(t) && Within(c, t, BOSS_DETECT_RANGE) && !Touching(t, c)
    ensures exists objs: Objs, n, q :: !BossNotices(objs, n, q, c)
  {
    var boss := Npc(c, Down, 500, 500, Boss, Roaming, c, 20);
    var objs := map[1 := Pc(t, Down, Playing), 10000 := boss];
    assert BossScene(objs, 10000, 1, c) && !Prey(objs, 10000, 1);
    assert !BossNotices(objs, 10000, 1, c);
  }

  lemma NoPreyAfterMode(objs: Objs, n: int, mode: Mode)
    requires n in objs && objs[n].Npc? && NoPrey(objs, n)
    ensures NoPrey(objs[n := InMode(objs[n], mode)], n)
  {
    var objs' := objs[n := InMode(objs[n], mode)];
    forall q
      ensures !Prey(objs', n, q)
    {
      assert !Prey(objs, n, q);
    }
  }

  /** An NPC keeps on a player within ten tiles, a boss within fifteen; noticed are those in the sectors around. */
  lemma TrailAndPrey(objs: Objs, n: int, q: int)
    requires n in objs && objs[n].Npc? && q >= 0
    ensures OnTrail(objs, n, q) <==>
              Watching(objs, q) && IsPc(q) && Within(objs[n].at, objs[q].at, if objs[n].kind == Boss then 15 else 10)
    ensures Prey(objs, n, q) <==> OnTrail(objs, n, q) && Touching(objs[q].at, objs[n].at)
  {
  }

  // ---- boss phases ----

  function BossPhase(hp: int, maxHp: int): (phase: int)
    requires hp > 0
    ensures 1 <= phase <= 3
  {
    if maxHp <= 0 then 1
    else
      var pct := hp * 100 / maxHp;
      if pct > 66 then 1 else if pct > 33 then 2 else 3
  }

  /** The truncating division moves both borders: phase one from 67 percent on, phase three below 34. */
  lemma PhaseBorders(hp: int, maxHp: int)
    requires 0 < hp && 0 < maxHp
    ensures BossPhase(hp, maxHp) == 1 <==> hp * 100 >= 67 * maxHp
    ensures BossPhase(hp, maxHp) == 3 <==> hp * 100 < 34 * maxHp
  {
    DivisionBorder(hp * 100, maxHp, 67);
    DivisionBorder(hp * 100, maxHp, 34);
  }

  lemma DivisionBorder(a: int, b: int, k: int)
    requires 0 < b
    ensures a / b >= k <==> a >= k * b
  {
    var q := a / b;
    assert q * b <= a < q * b + b;
    if q >= k {
      ProductGrows(k, q, b);
    } else {
      ProductGrows(q + 1, k, b);
      assert (q + 1) * b == q * b + b;
    }
  }

  lemma ProductGrows(m: int, n: int, b: int)
    requires m <= n && 0 < b
    ensures m * b <= n * b
  {
    assert 0 <= (n - m) * b == n * b - m * b;
  }

  /** Wounds never set a boss back a phase. */
  lemma PhaseNeverFallsBack(hp: int, hp': int, maxHp: int)
    requires 0 < hp' <= hp && 0 < maxHp
    ensures BossPhase(hp, maxHp) <= BossPhase(hp', maxHp)
  {
    PhaseBorders(hp, maxHp);
    PhaseBorders(hp', maxHp);
  }

  /** What one blow of this NPC takes; half while the defence boost lasts. */
  function BlowTaken(base: int, shielded: bool): int {
    if shielded then base / 2 else base
  }

  function BaseDamage(o: Obj): int
    requires o.Npc? && o.hp > 0
  {
    if o.kind != Boss then NPC_ATTACK_DMG
    else match BossPhase(o.hp, o.maxHp)
      case 3 => BOSS_ATTACK_DMG_P3
      case 2 => BOSS_ATTACK_DMG_P2
      case _ => BOSS_ATTACK_DMG_P1
  }

  function AttackReach(kind: Kind): int {
    if kind == Boss then BOSS_ATTACK_RANGE else ATTACK_RANGE
  }

  // ---- how long until the next tick, and whether there is one ----

  const BOSS_MOVE_P2: int := 250

  function BossCool(phase: int, attacking: bool): int {
    if attacking then (if phase == 3 then 600 else if phase == 2 then 750 else Schedule.ATTACK_COOL_TIME)
    else if phase >= 2 then BOSS_MOVE_P2 else Schedule.MOVE_COOL_TIME
  }

  function StayRange(o: Obj): int
    requires o.Npc?
  {
    if o.kind == Agro && o.mode == Chase then AGRO_DETECT_RANGE else VIEW_RANGE
  }

  predicate BossTrails(objs: Objs, n: int, t: int)
    requires n in objs
  {
    t != NOBODY && Watching(objs, t) && Within(objs[n].at, objs[t].at, BOSS_DETECT_RANGE)
  }

  predicate Nearby(objs: Objs, n: int, q: int)
    requires n in objs && objs[n].Npc?
  {
    && Watching(objs, q)
    && if objs[n].kind == Boss then Touching(objs[q].at, objs[n].at)
       else Within(objs[n].at, objs[q].at, StayRange(objs[n]))
  }

  /** Somebody keeps the NPC awake. */
  ghost predicate HasCompany(objs: Objs, n: int, t: int)
    requires n in objs && objs[n].Npc?
  {
    (objs[n].kind == Boss && BossTrails(objs, n, t)) || exists q :: Nearby(objs, n, q)
  }

  /**
   Company are players within five tiles, ten for an aggressive NPC on a chase; for a boss those in the nine
   sectors around, and its target within fifteen.
   */
  lemma CompanyByNumbers(objs: Objs, n: int, t: int)
    requires n in objs && objs[n].Npc? && t >= 0
    ensures HasCompany(objs, n, t) <==>
              if objs[n].kind == Boss then
                (Watching(objs, t) && Within(objs[n].at, objs[t].at, 15)) ||
                exists q {:trigger Watching(objs, q)} :: Watching(objs, q) && Touching(objs[q].at, objs[n].at)
              else
                var range := if objs[n].kind == Agro && objs[n].mode == Chase then 10 else 5;
                exists q {:trigger Watching(objs, q)} :: Watching(objs, q) && Within(objs[n].at, objs[q].at, range)
  {
    assert forall q {:trigger Watching(objs, q)} {:trigger Nearby(objs, n, q)} ::
        Nearby(objs, n, q) <==>
          Watching(objs, q) &&
          if objs[n].kind == Boss then Touching(objs[q].at, objs[n].at)
          else Within(objs[n].at, objs[q].at, if objs[n].kind == Agro && objs[n].mode == Chase then 10 else 5);
  }

  /** Whoever is near enough is in the nine sectors around. */
  lemma NearbyTouches(objs: Objs, n: int, q: int)
    requires Shaped(objs) && n in objs && objs[n].Npc?
    ensures Nearby(objs, n, q) ==> Touching(objs[q].at, objs[n].at)
  {
    if Nearby(objs, n, q) && objs[n].kind != Boss {
      WithinSectorSizeTouches(objs[q].at, objs[n].at);
    }
  }

  /** An NPC without company is in nobody's view. */
  lemma AloneIsUnseen(objs: Objs, net: Net, n: int, t: int)
    requires Exact(objs, net) && n in objs && objs[n].Npc? && !HasCompany(objs, n, t)
    ensures forall q :: q in net.views ==> n !in net.views[q]
  {
    forall q | q in net.views
      ensures n in net.views[q] ==> Nearby(objs, n, q)
    {
      assert Watching(objs, q) ==> Good(objs, net, q, n);
      if n in net.views[q] {
        WithinSectorSizeTouches(objs[q].at, objs[n].at);
      }
    }
  }

  // ---- walking ----

  function Facing(from: Tile, to: Tile): Direction {
    if to.x != from.x then (if to.x > from.x then Right else Left)
    else if to.y > from.y then Down else Up
  }

  function RandomNeighbour(at: Tile, r: nat): Tile {
    var t := match r % 4
      case 0 => Tile(at.x, at.y - 1)
      case 1 => Tile(at.x, at.y + 1)
      case 2 => Tile(at.x - 1, at.y)
      case _ => Tile(at.x + 1, at.y);
    Tile(Max(0, Min(t.x, WORLD_WIDTH - 1)), Max(0, Min(t.y, WORLD_HEIGHT - 1)))
  }

  function Homewards(at: Tile, origin: Tile): Tile {
    if at.x < origin.x then Tile(at.x + 1, at.y)
    else if at.x > origin.x then Tile(at.x - 1, at.y)
    else if at.y < origin.y then Tile(at.x, at.y + 1)
    else if at.y > origin.y then Tile(at.x, at.y - 1)
    else at
  }

  /** Where a roaming NPC goes, and which way it looks afterwards. */
  function RoamStep(obstacles: seq<bool>, o: Obj, r: nat): (Tile, Direction)
    requires |obstacles| == WORLD_WIDTH * WORLD_HEIGHT && o.Npc?
  {
    var next, home := RandomNeighbour(o.at, r), Homewards(o.at, o.origin);
    if Within(next, o.origin, ROAM_RANGE) && !IsObstacle(obstacles, next) then (next, Facing(o.at, next))
    else if !IsObstacle(obstacles, o.at) && !IsObstacle(obstacles, home) then (home, Facing(o.at, home))
    else (o.at, o.dir)
  }

  /** An NPC looks the way it goes, and up if it goes nowhere. */
  lemma FacesForward(from: Tile, to: Tile)
    ensures Manhattan(from, to) == 1 ==> Ahead(from, Facing(from, to), 1) == to
    ensures from == to ==> Facing(from, to) == Up
  {
  }

  /** `to` is one step closer to the origin, across first and down or up only in the origin's column. */
  predicate OneCloser(from: Tile, origin: Tile, to: Tile) {
    && Manhattan(from, to) == 1 && Manhattan(to, origin) == Manhattan(from, origin) - 1
    && (to.y != from.y ==> from.x == origin.x)
  }

  /** The next tile in a direction, or the tile itself at the border of the world. */
  function Upto(at: Tile, dir: Direction): Tile {
    if InWorld(Ahead(at, dir, 1)) then Ahead(at, dir, 1) else at
  }

  lemma DrawnIsAhead(at: Tile, r: nat)
    requires InWorld(at)
    ensures RandomNeighbour(at, r) == Upto(at, [Up, Down, Left, Right][r % 4])
    ensures Manhattan(at, RandomNeighbour(at, r)) <= 1
  {
  }

  lemma HomewardsIsCloser(at: Tile, origin: Tile)
    ensures at == origin ==> Homewards(at, origin) == at
    ensures at != origin ==> OneCloser(at, origin, Homewards(at, origin))
  {
  }

  /**
   What a roaming NPC does with random number `r`: it takes the neighbouring tile in that direction if
   that is free and within twenty tiles of the origin; otherwise it goes one step closer to the origin,
   unless an obstacle is in the way or under it. Drawn back by the border of the world, or already at
   the origin, it stays and looks up.
   */
  ghost predicate Roams(obstacles: seq<bool>, o: Obj, r: nat, to: Tile, dir: Direction)
    requires |obstacles| == WORLD_WIDTH * WORLD_HEIGHT && o.Npc?
  {
    var drawn := Upto(o.at, [Up, Down, Left, Right][r % 4]);
    var welcome := !IsObstacle(obstacles, drawn) && Within(drawn, o.origin, 20);
    && (welcome && drawn != o.at ==> to == drawn && Ahead(o.at, dir, 1) == to)
    && (welcome && drawn == o.at ==> to == o.at && dir == Up)
    && (!welcome && IsObstacle(obstacles, o.at) ==> to == o.at && dir == o.dir)
    && (!welcome && !IsObstacle(obstacles, o.at) && o.at == o.origin ==> to == o.at && dir == Up)
    && (!welcome && !IsObstacle(obstacles, o.at) && o.at != o.origin ==>
          exists home {:trigger OneCloser(o.at, o.origin, home)} ::
            OneCloser(o.at, o.origin, home) &&
            if IsObstacle(obstacles, home) then to == o.at && dir == o.dir
            else to == home && Ahead(o.at, dir, 1) == to)
  }

  lemma RoamStepExact(obstacles: seq<bool>, o: Obj, r: nat)
    requires |obstacles| == WORLD_WIDTH * WORLD_HEIGHT && o.Npc? && InWorld(o.at)
    ensures var (to, dir) := RoamStep(obstacles, o, r); Roams(obstacles, o, r, to, dir)
  {
    var next, home := RandomNeighbour(o.at, r), Homewards(o.at, o.origin);
    DrawnIsAhead(o.at, r);
    HomewardsIsCloser(o.at, o.origin);
    FacesForward(o.at, next);
    FacesForward(o.at, home);
  }

  /** There is one such step at most. */
  lemma OneWayHome(from: Tile, origin: Tile, to: Tile, to': Tile)
    requires OneCloser(from, origin, to) && OneCloser(from, origin, to')
    ensures to == to'
  {
  }

  /** Every free neighbouring tile near the origin is where some random number leads, facing it. */
  lemma RoamsEverywhere(obstacles: seq<bool>, o: Obj, t: Tile) returns (r: nat)
    requires |obstacles| == WORLD_WIDTH * WORLD_HEIGHT && o.Npc? && InWorld(o.at)
    requires Manhattan(o.at, t) == 1 && !IsObstacle(obstacles, t) && Within(t, o.origin, 20)
    ensures r < 4
    ensures var (to, dir) := RoamStep(obstacles, o, r); to == t && Ahead(o.at, dir, 1) == t
  {
    r := EveryNeighbourCanBeDrawn(o.at, t);
    DrawnIsAhead(o.at, r);
    RoamStepExact(obstacles, o, r);
  }

  /** The tiles of the way home, across and then down or up, are free. */
  ghost predicate WayHomeFree(obstacles: seq<bool>, at: Tile, origin: Tile)
    requires |obstacles| == WORLD_WIDTH * WORLD_HEIGHT
    decreases Manhattan(at, origin)
  {
    !IsObstacle(obstacles, at) && forall next :: OneCloser(at, origin, next) ==> WayHomeFree(obstacles, next, origin)
  }

  /** Where a roaming NPC is after a row of random numbers. */
  ghost function Roamed(obstacles: seq<bool>, o: Obj, rs: seq<nat>): Obj
    requires |obstacles| == WORLD_WIDTH * WORLD_HEIGHT && o.Npc?
    decreases |rs|
  {
    if rs == [] then o
    else
      var (to, dir) := RoamStep(obstacles, o, rs[0]);
      Roamed(obstacles, NpcAt(o, to, dir), rs[1..])
  }

  /**
   An NPC led away from its origin comes back: with the way home free it is within twenty tiles of its
   origin after at most as many steps as it is away, whatever the random numbers.
   */
  lemma {:induction false} LedAstrayComesHome(obstacles: seq<bool>, o: Obj, rs: seq<nat>) returns (k: nat)
    requires |obstacles| == WORLD_WIDTH * WORLD_HEIGHT && o.Npc?
    requires WayHomeFree(obstacles, o.at, o.origin) && |rs| >= Manhattan(o.at, o.origin)
    ensures k <= Manhattan(o.at, o.origin) && Within(Roamed(obstacles, o, rs[..k]).at, o.origin, 20)
    decreases Manhattan(o.at, o.origin)
  {
    if Within(o.at, o.origin, 20) {
      assert Roamed(obstacles, o, rs[..0]) == o;
      return 0;
    }
    RoamStepExact(obstacles, o, rs[0]);
    var (to, dir) := RoamStep(obstacles, o, rs[0]);
    var o' := NpcAt(o, to, dir);
    if Within(to, o.origin, 20) {
      assert rs[..1][1..] == [] && Roamed(obstacles, o, rs[..1]) == Roamed(obstacles, o', []);
      return 1;
    }
    assert OneCloser(o.at, o.origin, to);
    var j := LedAstrayComesHome(obstacles, o', rs[1..]);
    assert rs[..j + 1][1..] == rs[1..][..j];
    k := j + 1;
  }

  /** Every neighbouring tile of the world can be drawn. */
  lemma EveryNeighbourCanBeDrawn(at: Tile, t: Tile) returns (r: nat)
    requires Manhattan(at, t) == 1 && InWorld(t)
    ensures r < 4 && RandomNeighbour(at, r) == t
  {
    r := if t.y < at.y then 0 else if t.y > at.y then 1 else if t.x < at.x then 2 else 3;
  }

  /** A step leads at most one tile on, never onto an obstacle. */
  ghost predicate OneStep(obstacles: seq<bool>, from: Tile, to: Tile)
    requires |obstacles| == WORLD_WIDTH * WORLD_HEIGHT
  {
    Manhattan(from, to) <= 1 && (to != from ==> !IsObstacle(obstacles, to))
  }

  /** Roaming stays within the range around the origin; from outside it comes closer or waits. */
  lemma RoamStepSound(obstacles: seq<bool>, o: Obj, r: nat)
    requires |obstacles| == WORLD_WIDTH * WORLD_HEIGHT && o.Npc? && InWorld(o.at)
    ensures var t := RoamStep(obstacles, o, r).0;
      InWorld(t) && OneStep(obstacles, o.at, t) &&
      (t == o.at || Within(t, o.origin, ROAM_RANGE) || Manhattan(t, o.origin) < Manhattan(o.at, o.origin))
  {
  }

  // ---- what a tick does to the objects ----

  /** NPC `n` has at most taken one step and changed its state; of the others, players may have died. */
  ghost predicate Ticked(obstacles: seq<bool>, objs0: Objs, objs: Objs, n: int) {
    && |obstacles| == WORLD_WIDTH * WORLD_HEIGHT && objs.Keys == objs0.Keys && IsActor(objs0, n) && IsActor(objs, n)
    && OneStep(obstacles, objs0[n].at, objs[n].at)
    && objs[n] == Npc(objs[n].at, objs[n].dir, objs0[n].hp, objs0[n].maxHp, objs0[n].kind, objs[n].mode,
                      objs0[n].origin, objs0[n].level)
    && forall q {:trigger Spared(objs0, objs, q)} :: q != n ==> Spared(objs0, objs, q)
  }

  predicate IsActor(objs: Objs, n: int) { n in objs && !IsPc(n) && objs[n].Npc? && objs[n].hp > 0 }

  /** The object is as before, or a player that has been sent back to the spawn point. */
  ghost predicate Spared(objs0: Objs, objs: Objs, q: int) {
    q in objs0 && q in objs ==>
      objs[q] == objs0[q] || (Watching(objs0, q) && objs[q] == Pc(PC_SPAWN, objs0[q].dir, Playing))
  }

  lemma TickNothing(obstacles: seq<bool>, objs: Objs, n: int)
    requires |obstacles| == WORLD_WIDTH * WORLD_HEIGHT && IsActor(objs, n)
    ensures Ticked(obstacles, objs, objs, n)
  {
  }

  /** A change of state before or after does not matter. */
  lemma TickAfterMode(obstacles: seq<bool>, objs0: Objs, mode: Mode, objs: Objs, n: int)
    requires IsActor(objs0, n) && Ticked(obstacles, objs0[n := InMode(objs0[n], mode)], objs, n)
    ensures Ticked(obstacles, objs0, objs, n)
  {
    var objs1 := objs0[n := InMode(objs0[n], mode)];
    forall q {:trigger Spared(objs0, objs, q)} | q != n
      ensures Spared(objs0, objs, q)
    {
      assert Spared(objs1, objs, q);
    }
  }

  lemma TickThenMode(obstacles: seq<bool>, objs0: Objs, objs: Objs, n: int, mode: Mode)
    requires Ticked(obstacles, objs0, objs, n)
    ensures Ticked(obstacles, objs0, objs[n := InMode(objs[n], mode)], n)
  {
    var objs' := objs[n := InMode(objs[n], mode)];
    forall q {:trigger Spared(objs0, objs', q)} | q != n
      ensures Spared(objs0, objs', q)
    {
      assert Spared(objs0, objs, q);
    }
  }

  lemma TickStep(obstacles: seq<bool>, objs: Objs, n: int, to: Tile, dir: Direction)
    requires |obstacles| == WORLD_WIDTH * WORLD_HEIGHT && IsActor(objs, n) && OneStep(obstacles, objs[n].at, to)
    ensures Ticked(obstacles, objs, objs[n := NpcAt(objs[n], to, dir)], n)
  {
    var objs' := objs[n := NpcAt(objs[n], to, dir)];
    forall q {:trigger Spared(objs, objs', q)} | q != n
      ensures Spared(objs, objs', q)
    {
    }
  }

  // ---- players get hurt ----

  function Bruised(s: Sheet, dmg: int): Sheet {
    s.(hp := s.hp - dmg)
  }

  function HurtSheet(s: Sheet, dmg: int): Sheet {
    var t := Bruised(s, dmg);
    if t.hp <= 0 then Death(t) else t
  }

  function HurtObj(o: Obj, s: Sheet, dmg: int): Obj {
    if s.hp - dmg <= 0 then Pc(PC_SPAWN, o.dir, Playing) else o
  }

  lemma TickHurt(obstacles: seq<bool>, objs: Objs, n: int, q: int, s: Sheet, dmg: int)
    requires |obstacles| == WORLD_WIDTH * WORLD_HEIGHT && IsActor(objs, n) && Watching(objs, q)
    ensures Ticked(obstacles, objs, objs[q := HurtObj(objs[q], s, dmg)], n)
  {
    var objs' := objs[q := HurtObj(objs[q], s, dmg)];
    forall r {:trigger Spared(objs, objs', r)} | r != n
      ensures Spared(objs, objs', r)
    {
    }
  }

  /** Who is in the way of the boss's area attack. */
  ghost predicate InArea(objs: Objs, n: int, q: int) {
    n in objs && Watching(objs, q) && Within(objs[n].at, objs[q].at, BOSS_AREA_RANGE)
  }

  /** The player is in the area and does not survive the blow. */
  ghost predicate FallsToSweep(objs: Objs, sheets: map<int, NormalSheet>, n: int, shielded: set<int>, q: int) {
    InArea(objs, n, q) && q in sheets && sheets[q].hp <= BlowTaken(BOSS_ATTACK_DMG_P3, q in shielded)
  }

  /** Players in `done` that were in the area have been hurt exactly once, by the full or the halved blow. */
  ghost predicate AreaFate(objs0: Objs, sheets0: map<int, NormalSheet>, objs: Objs, sheets: map<int, NormalSheet>,
                           n: int, shielded: set<int>, done: set<int>, q: int) {
    var hurt, dmg := q in done && InArea(objs0, n, q), BlowTaken(BOSS_ATTACK_DMG_P3, q in shielded);
    && (q in objs0 ==> q in objs)
    && (q in objs0 ==> objs[q] == if hurt && q in sheets0 then HurtObj(objs0[q], sheets0[q], dmg) else objs0[q])
    && (q in sheets0 ==> q in sheets && sheets[q] == if hurt then HurtSheet(sheets0[q], dmg) else sheets0[q])
  }

  ghost predicate AreaSoFar(objs0: Objs, sheets0: map<int, NormalSheet>, objs: Objs, sheets: map<int, NormalSheet>,
                            n: int, shielded: set<int>, done: set<int>) {
    && objs.Keys == objs0.Keys && sheets.Keys == sheets0.Keys
    && forall q {:trigger AreaFate(objs0, sheets0, objs, sheets, n, shielded, done, q)} ::
         AreaFate(objs0, sheets0, objs, sheets, n, shielded, done, q)
  }

  lemma AreaStart(objs: Objs, sheets: map<int, NormalSheet>, n: int, shielded: set<int>)
    ensures AreaSoFar(objs, sheets, objs, sheets, n, shielded, {})
  {
  }

  /** An NPC's target, dropped or not. */
  function Forgetting(target: map<int, int>, n: int, gone: bool): map<int, int> {
    if gone then target[n := NOBODY] else target
  }

  lemma TargetSwept(target0: map<int, int>, n: int, q: int, gone: bool, falls: bool)
    requires n in target0 && (gone ==> q != target0[n])
    ensures var target1 := Forgetting(target0, n, gone);
      Forgetting(target1, n, falls && target1[n] == q) == Forgetting(target0, n, gone || (target0[n] == q && falls))
  {
    Overwrite(target0, n, NOBODY, NOBODY);
  }

  /** One round of the area attack: `q` is hurt if it is in the area, and dropped as a target if it falls. */
  ghost predicate SweepRound(objs: Objs, sheets: map<int, NormalSheet>, target: map<int, int>, n: int,
                             shielded: set<int>, q: int,
                             objs': Objs, sheets': map<int, NormalSheet>, target': map<int, int>) {
    && n in target
    && target' == Forgetting(target, n, FallsToSweep(objs, sheets, n, shielded, q) && target[n] == q)
    && var dmg := BlowTaken(BOSS_ATTACK_DMG_P3, q in shielded);
      if InArea(objs, n, q) then q in sheets && objs' == objs[q := HurtObj(objs[q], sheets[q], dmg)] &&
                                 sheets' == sheets[q := HurtSheet(sheets[q], dmg)]
      else objs' == objs && sheets' == sheets
  }

  /** Those in `done` have been swept; the target is dropped once it has fallen. */
  ghost predicate Swept(objs0: Objs, sheets0: map<int, NormalSheet>, target0: map<int, int>, n: int,
                        shielded: set<int>, done: set<int>,
                        objs: Objs, sheets: map<int, NormalSheet>, target: map<int, int>) {
    && IsActor(objs0, n) && IsActor(objs, n) && n in target0
    && target == Forgetting(target0, n, target0[n] in done && FallsToSweep(objs0, sheets0, n, shielded, target0[n]))
    && AreaSoFar(objs0, sheets0, objs, sheets, n, shielded, done)
  }

  lemma AreaOneMore(objs0: Objs, sheets0: map<int, NormalSheet>, objs: Objs, sheets: map<int, NormalSheet>,
                    n: int, shielded: set<int>, done: set<int>,
                    q: int, objs': Objs, sheets': map<int, NormalSheet>)
    requires AreaSoFar(objs0, sheets0, objs, sheets, n, shielded, done) && q !in done && q != n
    requires IsActor(objs0, n) && (InArea(objs0, n, q) ==> q in sheets0)
    requires var dmg := BlowTaken(BOSS_ATTACK_DMG_P3, q in shielded);
      if InArea(objs, n, q) then q in sheets && objs' == objs[q := HurtObj(objs[q], sheets[q], dmg)] &&
                                 sheets' == sheets[q := HurtSheet(sheets[q], dmg)]
      else objs' == objs && sheets' == sheets
    ensures AreaSoFar(objs0, sheets0, objs', sheets', n, shielded, done + {q})
  {
    assert AreaFate(objs0, sheets0, objs, sheets, n, shielded, done, q);
    assert AreaFate(objs0, sheets0, objs, sheets, n, shielded, done, n);
    assert InArea(objs, n, q) <==> InArea(objs0, n, q);
    forall r {:trigger AreaFate(objs0, sheets0, objs', sheets', n, shielded, done + {q}, r)}
      ensures AreaFate(objs0, sheets0, objs', sheets', n, shielded, done + {q}, r)
    {
      assert AreaFate(objs0, sheets0, objs, sheets, n, shielded, done, r);
    }
  }

  /** Whoever has not been looked at yet still stands where the attack found it, as strong as it was. */
  lemma NotYetSwept(objs0: Objs, sheets0: map<int, NormalSheet>, objs: Objs, sheets: map<int, NormalSheet>,
                    n: int, shielded: set<int>, done: set<int>, q: int)
    requires AreaSoFar(objs0, sheets0, objs, sheets, n, shielded, done) && q !in done && IsActor(objs0, n)
    ensures FallsToSweep(objs, sheets, n, shielded, q) <==> FallsToSweep(objs0, sheets0, n, shielded, q)
  {
    assert AreaFate(objs0, sheets0, objs, sheets, n, shielded, done, q);
    assert AreaFate(objs0, sheets0, objs, sheets, n, shielded, done, n);
  }

  lemma SweptMore(objs0: Objs, sheets0: map<int, NormalSheet>, target0: map<int, int>, n: int,
                  shielded: set<int>, done: set<int>,
                  objs: Objs, sheets: map<int, NormalSheet>, target: map<int, int>, q: int,
                  objs': Objs, sheets': map<int, NormalSheet>, target': map<int, int>)
    requires Swept(objs0, sheets0, target0, n, shielded, done, objs, sheets, target) && q !in done && q != n
    requires SweepRound(objs, sheets, target, n, shielded, q, objs', sheets', target') && IsActor(objs', n)
    requires InArea(objs0, n, q) ==> q in sheets0
    ensures Swept(objs0, sheets0, target0, n, shielded, done + {q}, objs', sheets', target')
  {
    var gone := target0[n] in done && FallsToSweep(objs0, sheets0, n, shielded, target0[n]);
    NotYetSwept(objs0, sheets0, objs, sheets, n, shielded, done, q);
    TargetSwept(target0, n, q, gone, FallsToSweep(objs0, sheets0, n, shielded, q));
    AreaOneMore(objs0, sheets0, objs, sheets, n, shielded, done, q, objs', sheets');
  }

  /** Whoever was sent back in this round startles the NPCs it sees now, on top of those startled before. */
  lemma SweepStartles(objs0: Objs, sheets0: map<int, NormalSheet>, objs: Objs, sheets: map<int, NormalSheet>,
                      target: map<int, int>, n: int, shielded: set<int>, done: set<int>, q: int,
                      objs': Objs, sheets': map<int, NormalSheet>, target': map<int, int>)
    requires AreaSoFar(objs0, sheets0, objs, sheets, n, shielded, done) && q !in done && IsPc(q) && Shaped(objs0)
    requires SweepRound(objs, sheets, target, n, shielded, q, objs', sheets', target')
    ensures forall m :: m in Startled(objs0, objs') <==> m in Startled(objs0, objs) + Startled(objs, objs')
  {
    assert AreaFate(objs0, sheets0, objs, sheets, n, shielded, done, q);
    forall m | !IsPc(m)
      ensures (m in objs0 <==> m in objs) && (m in objs0 && m in objs ==> objs0[m] == objs[m])
    {
      assert AreaFate(objs0, sheets0, objs, sheets, n, shielded, done, m);
    }
    if InArea(objs, n, q) {
      OneMoreStartles(objs0, objs, objs', q);
    }
  }

  /** Everybody in the area was among those gone through. */
  lemma AreaDone(objs0: Objs, sheets0: map<int, NormalSheet>, objs: Objs, sheets: map<int, NormalSheet>,
                 n: int, shielded: set<int>, done: set<int>)
    requires AreaSoFar(objs0, sheets0, objs, sheets, n, shielded, done)
    requires forall q :: InArea(objs0, n, q) ==> q in done
    ensures AreaSoFar(objs0, sheets0, objs, sheets, n, shielded, objs0.Keys)
  {
    forall q {:trigger AreaFate(objs0, sheets0, objs, sheets, n, shielded, objs0.Keys, q)}
      ensures AreaFate(objs0, sheets0, objs, sheets, n, shielded, objs0.Keys, q)
    {
      assert AreaFate(objs0, sheets0, objs, sheets, n, shielded, done, q);
    }
  }

  lemma TickArea(obstacles: seq<bool>, objs0: Objs, sheets0: map<int, NormalSheet>,
                 objs: Objs, sheets: map<int, NormalSheet>,
                 n: int, shielded: set<int>, done: set<int>)
    requires |obstacles| == WORLD_WIDTH * WORLD_HEIGHT && IsActor(objs0, n)
    requires AreaSoFar(objs0, sheets0, objs, sheets, n, shielded, done)
    ensures Ticked(obstacles, objs0, objs, n)
  {
    assert AreaFate(objs0, sheets0, objs, sheets, n, shielded, done, n);
    forall q {:trigger Spared(objs0, objs, q)} | q != n
      ensures Spared(objs0, objs, q)
    {
      assert AreaFate(objs0, sheets0, objs, sheets, n, shielded, done, q);
    }
  }

  // ---- what chasing and roaming come to ----

  predicate OnTrail(objs: Objs, n: int, q: int)
    requires n in objs && objs[n].Npc?
  {
    q != NOBODY && Watching(objs, q) && IsPc(q) && Within(objs[n].at, objs[q].at, DetectRange(objs[n].kind))
  }

  /** Whom an NPC with target `q` goes for: `q` while it is in the game and in range, else the nearest prey. */
  ghost predicate Picks(objs: Objs, n: int, q: int, t: int)
    requires n in objs && objs[n].Npc?
  {
    if OnTrail(objs, n, q) then t == q
    else if objs[n].kind == Peace then t == NOBODY
    else (t == NOBODY && NoPrey(objs, n)) || (t != NOBODY && NearestPrey(objs, n, t))
  }

  /** A roamer goes for the nearest prey; with none in sight it keeps to its old target, if any. */
  ghost predicate Spots(objs: Objs, n: int, q: int, t: int)
    requires n in objs && objs[n].Npc?
  {
    if NoPrey(objs, n) then Picks(objs, n, q, t) else t != NOBODY && NearestPrey(objs, n, t)
  }

  /** One step of roaming, `r` being the random number drawn. */
  function Strolled(obstacles: seq<bool>, objs: Objs, n: int, r: nat): Objs
    requires |obstacles| == WORLD_WIDTH * WORLD_HEIGHT && n in objs && objs[n].Npc?
  {
    objs[n := NpcAt(objs[n], RoamStep(obstacles, objs[n], r).0, RoamStep(obstacles, objs[n], r).1)]
  }

  /** Back to rest; a roamer walks on at once. */
  function Rested(obstacles: seq<bool>, objs: Objs, n: int, r: nat): Objs
    requires |obstacles| == WORLD_WIDTH * WORLD_HEIGHT && n in objs && objs[n].Npc?
  {
    var o := InMode(objs[n], RestMode(objs[n].kind));
    if o.kind == Peace then objs[n := o] else Strolled(obstacles, objs[n := o], n, r)
  }

  /** A step along a shortest walk to `q`, or none if there is no walk. */
  ghost predicate Approached(obstacles: seq<bool>, objs0: Objs, objs: Objs, n: int, q: int)
    requires |obstacles| == WORLD_WIDTH * WORLD_HEIGHT && n in objs0 && q in objs0 && objs0[n].Npc?
  {
    n in objs &&
    var from, to, next := objs0[n].at, objs0[q].at, objs[n].at;
    && objs == objs0[n := NpcAt(objs0[n], next, if next != from then Facing(from, next) else objs0[n].dir)]
    && (next == from <==> from == to || !AStarSpec.Reachable(AStar.Clip(obstacles, from, to), from, to))
    && (next != from ==> AStar.OptimalStep(AStar.Clip(obstacles, from, to), from, to, next))
  }

  /** The area attack of a boss in its last phase, or one blow at `q`. */
  ghost predicate Assaulted(objs0: Objs, sheets0: map<int, NormalSheet>, objs: Objs, sheets: map<int, NormalSheet>,
                            n: int, q: int, shielded: set<int>)
    requires IsActor(objs0, n) && q in objs0
  {
    if objs0[n].kind == Boss && BossPhase(objs0[n].hp, objs0[n].maxHp) == 3
    then AreaSoFar(objs0, sheets0, objs, sheets, n, shielded, objs0.Keys)
    else
      var dmg := BlowTaken(BaseDamage(objs0[n]), q in shielded);
      && q in sheets0 && sheets == sheets0[q := HurtSheet(sheets0[q], dmg)]
      && objs == objs0[q := HurtObj(objs0[q], sheets0[q], dmg)]
                      [n := InMode(objs0[n], ModeAfterBlow(objs0[n], sheets0[q], dmg))]
  }

  /** An NPC whose victim has died goes back to rest, a boss does not bother. */
  function ModeAfterBlow(o: Obj, s: Sheet, dmg: int): Mode
    requires o.Npc?
  {
    if s.hp - dmg <= 0 && o.kind != Boss then RestMode(o.kind) else o.mode
  }

  /** The NPC attacks its quarry in this tick, and the quarry does not survive it. */
  predicate Fells(objs: Objs, sheets: map<int, NormalSheet>, n: int, t: int, shielded: set<int>)
    requires IsActor(objs, n)
  {
    t in objs && t in sheets && Within(objs[n].at, objs[t].at, AttackReach(objs[n].kind)) &&
    sheets[t].hp <= BlowTaken(BaseDamage(objs[n]), t in shielded)
  }

  /** Whom the NPC is after when it has dealt with quarry `t`. */
  function StillAfter(objs: Objs, sheets: map<int, NormalSheet>, n: int, t: int, shielded: set<int>): int
    requires IsActor(objs, n)
  {
    if t == NOBODY || Fells(objs, sheets, n, t, shielded) then NOBODY else t
  }

  /** The whole of do_chase_move for quarry `t`. */
  ghost predicate Chased(obstacles: seq<bool>, objs0: Objs, sheets0: map<int, NormalSheet>,
                         objs: Objs, sheets: map<int, NormalSheet>, n: int, t: int, r: nat, shielded: set<int>)
    requires |obstacles| == WORLD_WIDTH * WORLD_HEIGHT && IsActor(objs0, n)
  {
    var objs1 := objs0[n := InMode(objs0[n], Chase)];
    if t == NOBODY then sheets == sheets0 && objs == Rested(obstacles, objs0, n, r)
    else
      && Watching(objs1, t)
      && if Within(objs1[n].at, objs1[t].at, AttackReach(objs1[n].kind))
         then Assaulted(objs1, sheets0, objs, sheets, n, t, shielded)
         else sheets == sheets0 && Approached(obstacles, objs1, objs, n, t)
  }

  /** What one blow costs: eight hit points, or twenty or thirty by the phase of a boss, and half behind the shield. */
  function Toll(o: Obj, shielded: bool): int
    requires o.Npc?
  {
    var full := if o.kind != Boss then 8
                else if o.hp * 100 >= 67 * o.maxHp then 20
                else if o.hp * 100 >= 34 * o.maxHp then 30 else 45;
    if shielded then full / 2 else full
  }

  /** The player has lost hit points, or has died of it and is back on the spawn point with half its experience. */
  ghost predicate Suffered(o: Obj, s: Sheet, o': Obj, s': Sheet, loss: int) {
    if s.hp > loss then o' == o && s' == s.(hp := s.hp - loss)
    else
      && o' == Pc(Tile(1000, 100), o.dir, Playing)
      && s' == Sheet(Rank(s.rank.level, s.rank.xp / 2), s.maxHp, s.maxHp, s.kills, s.inventory)
  }

  lemma BlowsByNumbers(o: Obj, shielded: bool)
    requires o.Npc? && o.hp > 0 && o.maxHp > 0
    ensures BlowTaken(BaseDamage(o), shielded) == Toll(o, shielded)
  {
    PhaseBorders(o.hp, o.maxHp);
  }

  /**
   What an NPC with quarry `t` does to players: within one tile, a boss within two, it strikes the quarry,
   a boss in its last phase everybody within three tiles; nobody else suffers, and out of reach nobody does.
   */
  lemma ChaseHurts(obstacles: seq<bool>, objs0: Objs, sheets0: map<int, NormalSheet>,
                   objs: Objs, sheets: map<int, NormalSheet>, n: int, t: int, r: nat, shielded: set<int>, q: int)
    requires |obstacles| == WORLD_WIDTH * WORLD_HEIGHT && IsActor(objs0, n) && objs0[n].maxHp > 0
    requires Chased(obstacles, objs0, sheets0, objs, sheets, n, t, r, shielded) && t != NOBODY
    requires q in objs0 && objs0[q].Pc? && q in sheets0
    ensures q in objs && q in sheets
    ensures var o := objs0[n];
      var striking := Within(o.at, objs0[t].at, if o.kind == Boss then 2 else 1);
      var sweeping := o.kind == Boss && o.hp * 100 < 34 * o.maxHp;
      if striking && (if sweeping then Watching(objs0, q) && Within(o.at, objs0[q].at, 3) else q == t)
      then Suffered(objs0[q], sheets0[q], objs[q], sheets[q], Toll(o, q in shielded))
      else objs[q] == objs0[q] && sheets[q] == sheets0[q]
  {
    var objs1 := objs0[n := InMode(objs0[n], Chase)];
    BlowsByNumbers(objs0[n], q in shielded);
    PhaseBorders(objs0[n].hp, objs0[n].maxHp);
    assert AreaSoFar(objs1, sheets0, objs, sheets, n, shielded, objs1.Keys) ==>
        AreaFate(objs1, sheets0, objs, sheets, n, shielded, objs1.Keys, q);
    assert BlowTaken(BaseDamage(objs1[n]), q in shielded) == BlowTaken(BaseDamage(objs0[n]), q in shielded);
  }

  /** Out of reach it steps closer: on a shortest walk through the world, if there is one with a small detour. */
  lemma ChaseCloses(obstacles: seq<bool>, objs0: Objs, sheets0: map<int, NormalSheet>,
                    objs: Objs, sheets: map<int, NormalSheet>, n: int, t: int, r: nat, shielded: set<int>)
    requires |obstacles| == WORLD_WIDTH * WORLD_HEIGHT && IsActor(objs0, n)
    requires Chased(obstacles, objs0, sheets0, objs, sheets, n, t, r, shielded) && t != NOBODY && t != n
    requires t in objs0 && !Within(objs0[n].at, objs0[t].at, if objs0[n].kind == Boss then 2 else 1)
    requires InWorld(objs0[t].at) && AStar.NearWalk(obstacles, objs0[n].at, objs0[t].at)
    ensures n in objs && AStar.OptimalStep(AStar.WholeWorld(obstacles), objs0[n].at, objs0[t].at, objs[n].at)
    ensures objs[n] == Npc(objs[n].at, objs[n].dir, objs0[n].hp, objs0[n].maxHp, objs0[n].kind, Chase,
                           objs0[n].origin, objs0[n].level)
    ensures Ahead(objs0[n].at, objs[n].dir, 1) == objs[n].at
  {
    AStar.NearWalkIsFound(obstacles, objs0[n].at, objs0[t].at, objs[n].at);
    FacesForward(objs0[n].at, objs[n].at);
  }

  /** A roamer without prey has nothing to change before it walks on. */
  lemma RoamerStrolls(obstacles: seq<bool>, objs: Objs, sheets: map<int, NormalSheet>, n: int, r: nat,
                      shielded: set<int>)
    requires |obstacles| == WORLD_WIDTH * WORLD_HEIGHT && IsActor(objs, n)
    requires objs[n].mode == Roaming && objs[n].kind != Peace
    ensures Chased(obstacles, objs, sheets, Strolled(obstacles, objs, n, r), sheets, n, NOBODY, r, shielded)
  {
    assert InMode(objs[n], RestMode(objs[n].kind)) == objs[n];
    Rewrite(objs, n);
  }

  /** Whom an NPC notices, and what comes of it, does not depend on its state. */
  lemma ChasedAfterMode(obstacles: seq<bool>, objs0: Objs, sheets0: map<int, NormalSheet>, mode: Mode,
                        objs: Objs, sheets: map<int, NormalSheet>, n: int, t: int, r: nat, shielded: set<int>)
    requires |obstacles| == WORLD_WIDTH * WORLD_HEIGHT && IsActor(objs0, n)
    requires Chased(obstacles, objs0[n := InMode(objs0[n], mode)], sheets0, objs, sheets, n, t, r, shielded)
    ensures Chased(obstacles, objs0, sheets0, objs, sheets, n, t, r, shielded)
  {
    var objs1 := objs0[n := InMode(objs0[n], mode)];
    assert objs1[n := InMode(objs1[n], Chase)] == objs0[n := InMode(objs0[n], Chase)];
    assert Rested(obstacles, objs1, n, r) == Rested(obstacles, objs0, n, r);
  }

  lemma PicksAfterMode(objs: Objs, n: int, mode: Mode, q: int, t: int)
    requires n in objs && objs[n].Npc? && Picks(objs[n := InMode(objs[n], mode)], n, q, t)
    ensures Picks(objs, n, q, t)
  {
    var objs' := objs[n := InMode(objs[n], mode)];
    forall r
      ensures Prey(objs', n, r) <==> Prey(objs, n, r)
    {
    }
    if NoPrey(objs', n) {
      NoPreyAfterMode(objs', n, objs[n].mode);
      assert objs'[n := InMode(objs'[n], objs[n].mode)] == objs;
    }
  }

  lemma StillAfterMode(objs: Objs, sheets: map<int, NormalSheet>, n: int, mode: Mode, t: int, shielded: set<int>)
    requires IsActor(objs, n)
    ensures t != n ==>
              StillAfter(objs[n := InMode(objs[n], mode)], sheets, n, t, shielded) ==
              StillAfter(objs, sheets, n, t, shielded)
  {
  }

  // ---- a whole tick ----

  /** What the movement routine for the NPC's state does; `q` is its target before, `t` the quarry it settles on. */
  ghost predicate TickDone(obstacles: seq<bool>, objs0: Objs, sheets0: map<int, NormalSheet>,
                           objs: Objs, sheets: map<int, NormalSheet>, n: int, q: int, t: int, r: nat,
                           shielded: set<int>)
    requires IsActor(objs0, n) && |obstacles| == WORLD_WIDTH * WORLD_HEIGHT
  {
    match objs0[n].mode
    case Idle => objs == objs0 && sheets == sheets0
    case Roaming =>
      if objs0[n].kind == Peace then objs == Strolled(obstacles, objs0, n, r) && sheets == sheets0
      else Spots(objs0, n, q, t) && Chased(obstacles, objs0, sheets0, objs, sheets, n, t, r, shielded)
    case Chase => Picks(objs0, n, q, t) && Chased(obstacles, objs0, sheets0, objs, sheets, n, t, r, shielded)
  }

  /** Whom the NPC is after then. */
  function AimOf(objs0: Objs, sheets0: map<int, NormalSheet>, n: int, q: int, t: int, shielded: set<int>): int
    requires IsActor(objs0, n)
  {
    match objs0[n].mode
    case Idle => q
    case Roaming => if objs0[n].kind == Peace then q else StillAfter(objs0, sheets0, n, t, shielded)
    case Chase => StillAfter(objs0, sheets0, n, t, shielded)
  }

  /** And at the end of the tick, when an aggressive NPC that is left alone forgets its target. */
  ghost function TargetOf(objs0: Objs, sheets0: map<int, NormalSheet>, objs: Objs, n: int, q: int, t: int,
                          shielded: set<int>): int
    requires IsActor(objs0, n) && IsActor(objs, n)
  {
    var aim := AimOf(objs0, sheets0, n, q, t, shielded);
    if objs0[n].mode != Client.Idle && objs[n].kind == Agro && !HasCompany(objs, n, aim) then NOBODY else aim
  }

  /** How long until the next tick of an NPC with target `t`, in milliseconds. */
  ghost predicate Pace(objs: Objs, n: int, t: int, cool: int)
    requires IsActor(objs, n)
  {
    var o := objs[n];
    if o.kind == Boss then
      var striking := BossTrails(objs, n, t) && Within(o.at, objs[t].at, BOSS_ATTACK_RANGE);
      cool == match BossPhase(o.hp, o.maxHp)
              case 1 => if striking then 1000 else 500
              case 2 => if striking then 750 else 250
              case _ => if striking then 600 else 250
    else
      && (cool == 500 || cool == 1000)
      && (cool == 1000 ==>
            o.kind == Agro && t != NOBODY && exists q :: Nearby(objs, n, q) && Within(o.at, objs[q].at, ATTACK_RANGE))
      && (cool == 500 ==>
            o.kind != Agro || t == NOBODY || exists q :: Nearby(objs, n, q) && !Within(o.at, objs[q].at, ATTACK_RANGE))
  }

  /**
   How a tick ends: with company the next move event is queued; otherwise the NPC falls asleep, and an
   aggressive one forgets its target.
   */
  ghost predicate WentOn(objs: Objs, n: int, target: map<int, int>, target': map<int, int>, cool: int,
                         c: Schedule.Clock, c': Schedule.Clock)
    requires IsActor(objs, n) && n in target
  {
    if HasCompany(objs, n, target[n]) then
      && Pace(objs, n, target[n], cool) && target' == target
      && c' == Schedule.Push(c, Agenda.Event(n, c.now + cool, Agenda.NpcMove))
    else
      && target' == (if objs[n].kind == Agro then target[n := NOBODY] else target)
      && c' == Schedule.Asleep(c, n)
  }

  lemma KeptGoing(objs: Objs, n: int, target: map<int, int>, cool: int, c: Schedule.Clock)
    requires IsActor(objs, n) && n in target && HasCompany(objs, n, target[n]) && Pace(objs, n, target[n], cool)
    ensures WentOn(objs, n, target, target, cool, c, Schedule.Push(c, Agenda.Event(n, c.now + cool, Agenda.NpcMove)))
  {
  }

  lemma LeftAlone(objs: Objs, n: int, target: map<int, int>, cool: int, c: Schedule.Clock)
    requires IsActor(objs, n) && n in target && !HasCompany(objs, n, target[n])
    ensures WentOn(objs, n, target, if objs[n].kind == Agro then target[n := NOBODY] else target, cool,
                   c, Schedule.Asleep(c, n))
  {
  }

  /**
   What the tick does to the clock: NPCs are woken by players sent elsewhere; then the NPC, with target
   `aim`, either has company and queues its next move event, or falls asleep.
   */
  ghost predicate TickTimed(objs0: Objs, objs: Objs, n: int, aim: int, cool: int,
                            c0: Schedule.Clock, c': Schedule.Clock)
    requires IsActor(objs0, n) && IsActor(objs, n)
  {
    if objs0[n].mode == Client.Idle then c' == Schedule.Asleep(c0, n)
    else
      exists c :: Schedule.Roused(c0, c, Startled(objs0, objs)) &&
                  if HasCompany(objs, n, aim)
                  then Pace(objs, n, aim, cool) && c' == Schedule.Push(c, Agenda.Event(n, c.now + cool, Agenda.NpcMove))
                  else c' == Schedule.Asleep(c, n)
  }

  /** The movement routine and the end of the tick, put together. */
  lemma TickEnded(objs0: Objs, sheets0: map<int, NormalSheet>, target0: map<int, int>, n: int, t: int, cool: int,
                  shielded: set<int>, objs: Objs, target: map<int, int>, target': map<int, int>,
                  c0: Schedule.Clock, c: Schedule.Clock, c': Schedule.Clock)
    requires IsActor(objs0, n) && IsActor(objs, n) && objs0[n].mode != Client.Idle && n in target0
    requires target == target0[n := AimOf(objs0, sheets0, n, target0[n], t, shielded)]
    requires Schedule.Roused(c0, c, Startled(objs0, objs)) && WentOn(objs, n, target, target', cool, c, c')
    ensures target' == target0[n := TargetOf(objs0, sheets0, objs, n, target0[n], t, shielded)]
    ensures TickTimed(objs0, objs, n, AimOf(objs0, sheets0, n, target0[n], t, shielded), cool, c0, c')
  {
    Overwrite(target0, n, target[n], NOBODY);
  }

  /**
   A chase goes on: a target that is in range and survives the tick, and is still in range when the
   NPC has moved, is the NPC's target after the tick.
   */
  lemma QuarryKept(obstacles: seq<bool>, objs0: Objs, sheets0: map<int, NormalSheet>,
                   objs: Objs, sheets: map<int, NormalSheet>, n: int, q: int, t: int, r: nat, shielded: set<int>)
    requires |obstacles| == WORLD_WIDTH * WORLD_HEIGHT && IsActor(objs0, n) && objs0[n].mode == Chase
    requires TickDone(obstacles, objs0, sheets0, objs, sheets, n, q, t, r, shielded)
    requires Ticked(obstacles, objs0, objs, n)
    requires OnTrail(objs0, n, q) && !Fells(objs0, sheets0, n, q, shielded) && OnTrail(objs, n, q)
    ensures t == q && TargetOf(objs0, sheets0, objs, n, q, t, shielded) == q
  {
    if objs[n].kind == Agro {
      assert objs[n].mode == Chase;
      assert Nearby(objs, n, q);
    }
  }
}
