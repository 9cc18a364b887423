/**
 Who sees whom. The players' visible sets and their clients' tables, the messages that change them,
 and what it means for both to be exact.
 */
module Scene {
  import opened Board
  import opened Client
  import opened Progression
  import opened Sectors

  /** Ids below are players, ids from here on NPCs. */
  const NPC_ID_START: int := 10000

  predicate IsPc(id: int) { id < NPC_ID_START }

  datatype Status = Connected | AwaitingDb | Playing | LoggedOut

  datatype Obj =
    | Pc(at: Tile, dir: Direction, status: Status)
    | Npc(at: Tile, dir: Direction, hp: int, maxHp: int, kind: Kind, mode: Mode, origin: Tile, level: int)

  type Objs = map<int, Obj>

  /** Objects that take part in the game: players in play and living NPCs. */
  predicate Shown(o: Obj) {
    match o
    case Pc(_, _, status) => status == Playing
    case Npc(_, _, hp, _, _, _, _, _) => hp > 0
  }

  /** The same NPC on another tile or facing another way. */
  function NpcAt(o: Obj, at: Tile, dir: Direction): Obj
    requires o.Npc?
  {
    Npc(at, dir, o.hp, o.maxHp, o.kind, o.mode, o.origin, o.level)
  }

  function WithHp(o: Obj, hp: int): Obj
    requires o.Npc?
  {
    Npc(o.at, o.dir, hp, o.maxHp, o.kind, o.mode, o.origin, o.level)
  }

  function InMode(o: Obj, mode: Mode): Obj
    requires o.Npc?
  {
    Npc(o.at, o.dir, o.hp, o.maxHp, o.kind, mode, o.origin, o.level)
  }

  /** The NPC after a hit: with hit points left it gives chase. */
  function Struck(o: Obj, dmg: nat): Obj
    requires o.Npc?
  {
    if o.hp - dmg > 0 then InMode(WithHp(o, o.hp - dmg), Chase) else WithHp(o, o.hp - dmg)
  }

  const PC_ATTACK_DMG: int := 15
  const PC_SKILL_DMG: int := 30

  /** calc_atk_dmg and calc_skill_dmg, doubled while the attack boost lasts */
  function Blow(skill: bool, level: int, boosted: bool): (dmg: nat)
    requires level >= 1
    ensures dmg > 0
  {
    (if skill then PC_SKILL_DMG + (level - 1) * 3 else PC_ATTACK_DMG + (level - 1) * 2) * (if boosted then 2 else 1)
  }

  /** A swing takes 15 hit points at level one and two more for each further level, a skill or shot 30 and three. */
  lemma BlowsByLevel(skill: bool, level: int)
    requires level >= 1
    ensures Blow(false, 1, false) == 15 && Blow(true, 1, false) == 30
    ensures Blow(skill, level + 1, false) == Blow(skill, level, false) + (if skill then 3 else 2)
    ensures Blow(skill, level, true) == 2 * Blow(skill, level, false)
  {
  }

  /** The tiles an attacker at `at` facing `dir` reaches: three in front or, with the skill, all around. */
  predicate InReach(skill: bool, at: Tile, dir: Direction, t: Tile) {
    var dx, dy := t.x - at.x, t.y - at.y;
    if skill then Abs(dx) <= 1 && Abs(dy) <= 1
    else
      match dir
      case Up => dy == -1 && Abs(dx) <= 1
      case Down => dy == 1 && Abs(dx) <= 1
      case Left => dx == -1 && Abs(dy) <= 1
      case Right => dx == 1 && Abs(dy) <= 1
  }

  /** The skill reaches the nine tiles around the attacker, whichever way it faces. */
  lemma SkillAllAround(at: Tile, dir: Direction, t: Tile)
    ensures InReach(true, at, dir, t) <==> Within(at, t, 1)
  {
  }

  /** Without the skill exactly the tile in front and its two neighbours across the line of sight are in reach. */
  lemma ArcOfThree(at: Tile, dir: Direction, t: Tile)
    ensures InReach(false, at, dir, t) <==>
              var front := Ahead(at, dir, 1);
              t == front || (Manhattan(t, front) == 1 && Within(at, t, 1) && Manhattan(at, t) == 2)
    ensures InReach(false, at, dir, t) ==> InReach(true, at, dir, t)
  {
  }

  ghost predicate Victim(objs: Objs, p: int, skill: bool, o: int) {
    && p in objs && o in objs && !IsPc(o) && objs[o].Npc? && objs[o].hp > 0
    && InReach(skill, objs[p].at, objs[p].dir, objs[o].at)
  }

  /** A blow by an attacker of a level between `lo` and `hi`, boosted or not. */
  ghost predicate Hit(before: Obj, after: Obj, skill: bool, lo: int, hi: int, boosted: bool) {
    before.Npc? && lo >= 1 &&
    exists lv {:trigger Blow(skill, lv, boosted)} :: lo <= lv <= hi && after == Struck(before, Blow(skill, lv, boosted))
  }

  /** An attack in progress: who attacks, how, at which level it began, and which victims the boost still lasts for. */
  datatype Onslaught = Onslaught(p: int, skill: bool, level: int, boosts: set<int>)

  /** Among `done` exactly the victims have been hit, at levels up to `now`; nothing else has changed. */
  ghost predicate Fate(objs0: Objs, objs: Objs, a: Onslaught, done: set<int>, now: int, o: int) {
    o in objs0 && o in objs ==>
      if o in done && Victim(objs0, a.p, a.skill, o)
      then Hit(objs0[o], objs[o], a.skill, a.level, now, o in a.boosts) else objs[o] == objs0[o]
  }

  ghost predicate HitSoFar(objs0: Objs, objs: Objs, a: Onslaught, done: set<int>, now: int) {
    && objs.Keys == objs0.Keys
    && forall o {:trigger Fate(objs0, objs, a, done, now, o)} :: Fate(objs0, objs, a, done, now, o)
  }

  lemma HitOneMore(objs0: Objs, objs: Objs, a: Onslaught, done: set<int>, now: int, objs': Objs, o: int, now': int)
    requires HitSoFar(objs0, objs, a, done, now) && a.p in objs0 && IsPc(a.p) && o !in done
    requires 1 <= a.level <= now <= now'
    requires objs' == if Victim(objs, a.p, a.skill, o)
                      then objs[o := Struck(objs[o], Blow(a.skill, now, o in a.boosts))] else objs
    ensures HitSoFar(objs0, objs', a, done + {o}, now')
  {
    assert Fate(objs0, objs, a, done, now, o) && Fate(objs0, objs, a, done, now, a.p);
    forall x {:trigger Fate(objs0, objs', a, done + {o}, now', x)}
      ensures Fate(objs0, objs', a, done + {o}, now', x)
    {
      assert Fate(objs0, objs, a, done, now, x);
    }
  }

  /** The attack went through everything in `seen`, and all victims were in there. */
  lemma NobodyElseHit(objs0: Objs, objs: Objs, a: Onslaught, seen: set<int>, now: int)
    requires HitSoFar(objs0, objs, a, seen, now) && forall o :: Victim(objs0, a.p, a.skill, o) ==> o in seen
    ensures HitSoFar(objs0, objs, a, objs0.Keys, now)
  {
    forall o {:trigger Fate(objs0, objs, a, objs0.Keys, now, o)}
      ensures Fate(objs0, objs, a, objs0.Keys, now, o)
    {
      assert Fate(objs0, objs, a, seen, now, o);
    }
  }

  /** An attack without a level-up on the way deals everybody exactly the attacker's blow. */
  lemma SameLevelSameBlow(objs0: Objs, objs: Objs, a: Onslaught, o: int)
    requires HitSoFar(objs0, objs, a, objs0.Keys, a.level) && a.level >= 1 && Victim(objs0, a.p, a.skill, o)
    ensures o in objs && objs[o] == Struck(objs0[o], Blow(a.skill, a.level, o in a.boosts))
  {
    assert Fate(objs0, objs, a, objs0.Keys, a.level, o);
  }

  /** The tile `i` steps ahead. */
  function Ahead(at: Tile, dir: Direction, i: int): Tile {
    match dir
    case Up => Tile(at.x, at.y - i)
    case Down => Tile(at.x, at.y + i)
    case Left => Tile(at.x - i, at.y)
    case Right => Tile(at.x + i, at.y)
  }

  const RESPAWN_RANGE: int := 80

  /** Up to 80 tiles from `c` along one axis, clamped to the world. */
  function Scattered(c: int, r: nat, size: int): int {
    Max(1, Min(c + r % (RESPAWN_RANGE * 2 + 1) - RESPAWN_RANGE, size - 1))
  }

  /** The tile one pair of random numbers gives. */
  function Drawn80(origin: Tile, draw: (nat, nat)): (t: Tile)
    ensures InWorld(t)
  {
    Tile(Scattered(origin.x, draw.0, WORLD_WIDTH), Scattered(origin.y, draw.1, WORLD_HEIGHT))
  }

  lemma ScatteredWithin80(c: int, r: nat, d: int)
    requires 0 <= c < 2000
    ensures 1 <= Scattered(c, r, 2000) < 2000 && Abs(Scattered(c, r, 2000) - c) <= 80
    ensures 1 <= d < 2000 && Abs(d - c) <= 80 ==> d - c + 80 >= 0 && Scattered(c, d - c + 80, 2000) == d
  {
  }

  /** An NPC comes back within eighty tiles of its origin, not in the first row or column, and on any tile there. */
  lemma DrawnWithin80(origin: Tile, draw: (nat, nat), t: Tile) returns (draw': (nat, nat))
    requires InWorld(origin)
    ensures Within(Drawn80(origin, draw), origin, 80) && Drawn80(origin, draw).x >= 1 && Drawn80(origin, draw).y >= 1
    ensures InWorld(t) && t.x >= 1 && t.y >= 1 && Within(t, origin, 80) ==> Drawn80(origin, draw') == t
  {
    ScatteredWithin80(origin.x, draw.0, t.x);
    ScatteredWithin80(origin.y, draw.1, t.y);
    draw' := (Max(0, t.x - origin.x + 80), Max(0, t.y - origin.y + 80));
  }

  /** The first of the drawn tiles that is no obstacle, or the origin if all of them are. */
  ghost predicate FirstFree(obstacles: seq<bool>, origin: Tile, draws: seq<(nat, nat)>, t: Tile)
    requires |obstacles| == WORLD_WIDTH * WORLD_HEIGHT
  {
    && ((forall i :: 0 <= i < |draws| ==> IsObstacle(obstacles, Drawn80(origin, draws[i]))) ==> t == origin)
    && (forall k :: 0 <= k < |draws| && !IsObstacle(obstacles, Drawn80(origin, draws[k])) &&
                    (forall i :: 0 <= i < k ==> IsObstacle(obstacles, Drawn80(origin, draws[i]))) ==>
          t == Drawn80(origin, draws[k]))
    && (t == origin || !IsObstacle(obstacles, t))
  }

  /** What an NPC falls back to when it has nothing to chase. */
  function RestMode(kind: Kind): Mode {
    if kind == Peace then Idle else Roaming
  }

  /** The NPC as it comes back: full hit points, at rest, on the given tile. */
  function Reborn(o: Obj, at: Tile): Obj
    requires o.Npc?
  {
    Npc(at, o.dir, o.maxHp, o.maxHp, o.kind, RestMode(o.kind), o.origin, o.level)
  }

  /** Full hit points, idle if peaceful and roaming otherwise, and the same NPC as before. */
  lemma RebornAsNew(o: Obj, at: Tile)
    requires o.Npc?
    ensures var o' := Reborn(o, at);
      && o'.at == at && o'.hp == o'.maxHp == o.maxHp && o'.mode == (if o.kind == Peace then Idle else Roaming)
      && o'.dir == o.dir && o'.kind == o.kind && o'.origin == o.origin && o'.level == o.level
  {
  }

  ghost predicate LivingNpcAt(objs: Objs, n: int, t: Tile) {
    n in objs && !IsPc(n) && objs[n].Npc? && objs[n].hp > 0 && objs[n].at == t
  }

  /** `n` is a living NPC `k` tiles in front of `p`, in range, with nothing and nobody in between. */
  ghost predicate InLine(obstacles: seq<bool>, objs: Objs, p: int, k: int, n: int)
    requires p in objs && |obstacles| == WORLD_WIDTH * WORLD_HEIGHT
  {
    && 1 <= k <= 6 && LivingNpcAt(objs, n, Ahead(objs[p].at, objs[p].dir, k))
    && (forall i :: 1 <= i <= k ==> !IsObstacle(obstacles, Ahead(objs[p].at, objs[p].dir, i)))
    && forall i, m :: 1 <= i < k ==> !LivingNpcAt(objs, m, Ahead(objs[p].at, objs[p].dir, i))
  }

  lemma InLineIsNear(obstacles: seq<bool>, objs: Objs, p: int, k: int, n: int)
    requires p in objs && |obstacles| == WORLD_WIDTH * WORLD_HEIGHT && InLine(obstacles, objs, p, k, n)
    ensures n in objs && !IsPc(n) && objs[n].Npc? && objs[n].hp > 0
    ensures Within(objs[n].at, objs[p].at, RANGED_ATK_RANGE)
  {
  }

  predicate Watching(objs: Objs, p: int) {
    p in objs && objs[p].Pc? && objs[p].status == Playing
  }

  /** The brute-force rule: another shown object within the view range on both axes. */
  predicate Sees(objs: Objs, p: int, o: int)
    requires p in objs
  {
    o in objs && o != p && Shown(objs[o]) && Within(objs[p].at, objs[o].at, VIEW_RANGE)
  }

  /** Some player sees object `o`. */
  ghost predicate Noticed(objs: Objs, o: int) {
    exists q :: Watching(objs, q) && Sees(objs, q, o)
  }

  ghost function Placed(objs: Objs): map<int, Tile> {
    map id | id in objs && Shown(objs[id]) :: objs[id].at
  }

  ghost predicate Shaped(objs: Objs) {
    forall id :: id in objs ==>
      && (objs[id].Pc? <==> IsPc(id)) && InWorld(objs[id].at)
      && (objs[id].Npc? ==> objs[id].maxHp > 0 && InWorld(objs[id].origin))
  }

  /** m_visible_objects of every session, and the table every client has built from what it was sent. */
  datatype Net = Net(views: map<int, set<int>>, tables: map<int, Table>)

  // ---- messages to one player ----

  function AddMessage(id: int, o: Obj): Message {
    match o
    case Pc(at, dir, _) => AddPlayer(id, at, dir, 0, 0, Idle)
    case Npc(at, dir, hp, maxHp, _, mode, _, _) => AddPlayer(id, at, dir, hp, maxHp, mode)
  }

  ghost function Tell(n: Net, p: int, m: Message): Net
    requires p in n.tables
  {
    n.(tables := n.tables[p := Handle(n.tables[p], m)])
  }

  /** send_add_object, once the object is known to be in play */
  ghost function AddFor(objs: Objs, n: Net, p: int, o: int): Net
    requires p in n.views && p in n.tables && o in objs
  {
    if o in n.views[p] then n
    else Tell(n.(views := n.views[p := n.views[p] + {o}]), p, AddMessage(o, objs[o]))
  }

  /** send_remove_object */
  ghost function RemoveFor(n: Net, p: int, o: int): Net
    requires p in n.views && p in n.tables
  {
    if o in n.views[p] then Tell(n.(views := n.views[p := n.views[p] - {o}]), p, RemovePlayer(o))
    else n
  }

  /** send_move_object */
  ghost function MoveFor(objs: Objs, n: Net, p: int, o: int): Net
    requires p in n.tables && o in objs
  {
    Tell(n, p, MovePlayer(o, objs[o].at, objs[o].dir))
  }

  /** The same message to everybody in an audience. */
  ghost function Broadcast(n: Net, audience: set<int>, m: Message): Net {
    n.(tables := map q | q in n.tables :: if q in audience then Handle(n.tables[q], m) else n.tables[q])
  }

  lemma BroadcastNobody(n: Net, m: Message)
    ensures Broadcast(n, {}, m) == n
  {
  }

  lemma BroadcastOneMore(n: Net, audience: set<int>, m: Message, q: int)
    requires q in n.tables && q !in audience
    ensures q in Broadcast(n, audience, m).tables
    ensures Tell(Broadcast(n, audience, m), q, m) == Broadcast(n, audience + {q}, m)
  {
  }

  // ---- exactness ----

  ghost predicate Accurate(e: Entry, o: Obj) {
    e.at == o.at && e.dir == o.dir && (o.Npc? ==> e.hp == o.hp && e.maxHp == o.maxHp && e.mode == o.mode)
  }

  /** If `q` has `o` in view, its client draws it as it is. */
  ghost predicate Drawn(objs: Objs, n: Net, q: int, o: int)
    requires q in n.views && q in n.tables
  {
    o in n.views[q] ==> o in objs && o in n.tables[q].objs && Accurate(n.tables[q].objs[o], objs[o])
  }

  /** For this pair, the view is the brute-force scan and the drawing is right. */
  ghost predicate Good(objs: Objs, n: Net, q: int, o: int)
    requires q in objs && q in n.views && q in n.tables
  {
    (o in n.views[q] <==> Sees(objs, q, o)) && Drawn(objs, n, q, o)
  }

  /** The bookkeeping every single message keeps. */
  ghost predicate Base(objs: Objs, n: Net) {
    && Shaped(objs)
    && (forall q :: q in n.views <==> q in objs && IsPc(q))
    && n.tables.Keys == n.views.Keys
    && (forall q :: q in n.views ==> n.tables[q].objs.Keys == n.views[q])
    && (forall q :: q in n.views && !Watching(objs, q) ==> n.views[q] == {})
    && (forall q :: q in n.views && Watching(objs, q) ==> n.tables[q].me == q)
  }

  ghost predicate OwnPlace(objs: Objs, n: Net, q: int)
    requires q in objs && q in n.tables
  {
    n.tables[q].at == objs[q].at && n.tables[q].dir == objs[q].dir
  }

  const NOBODY: int := -1

  /** All pairs that do not involve `x` are good, and every avatar but `x` knows its place. */
  ghost predicate GoodBut(objs: Objs, n: Net, x: int)
    requires Base(objs, n)
  {
    && (forall q, o {:trigger Good(objs, n, q, o)} :: Watching(objs, q) && q != x && o != x ==> Good(objs, n, q, o))
    && (forall q {:trigger OwnPlace(objs, n, q)} :: Watching(objs, q) && q != x ==> OwnPlace(objs, n, q))
  }

  /** View exactness and client mirror for everybody. */
  ghost predicate Exact(objs: Objs, n: Net) {
    && Base(objs, n)
    && (forall q, o {:trigger Good(objs, n, q, o)} :: Watching(objs, q) ==> Good(objs, n, q, o))
    && (forall q {:trigger OwnPlace(objs, n, q)} :: Watching(objs, q) ==> OwnPlace(objs, n, q))
  }

  // ---- what exactness gives ----

  lemma ViewIsTheScan(objs: Objs, n: Net, p: int)
    requires Exact(objs, n) && Watching(objs, p)
    ensures n.views[p] == set o | o in objs && o != p && Shown(objs[o]) && Within(objs[p].at, objs[o].at, VIEW_RANGE)
  {
    var scan := set o | o in objs && o != p && Shown(objs[o]) && Within(objs[p].at, objs[o].at, VIEW_RANGE);
    forall o
      ensures o in n.views[p] <==> o in scan
    {
      assert Good(objs, n, p, o);
    }
  }

  lemma ScanIsView(objs: Objs, n: Net, p: int, seen: set<int>)
    requires Exact(objs, n) && Watching(objs, p) && forall o :: o in seen <==> Sees(objs, p, o)
    ensures n.views[p] == seen
  {
    forall o
      ensures o in n.views[p] <==> o in seen
    {
      assert Good(objs, n, p, o);
    }
  }

  lemma PlayersSeeEachOther(objs: Objs, n: Net, p: int, q: int)
    requires Exact(objs, n) && p in n.views && q in n.views
    ensures p in n.views[q] <==> q in n.views[p]
  {
    if Watching(objs, p) && Watching(objs, q) {
      assert Good(objs, n, p, q) && Good(objs, n, q, p);
    } else if Watching(objs, p) {
      assert Good(objs, n, p, q);
    } else if Watching(objs, q) {
      assert Good(objs, n, q, p);
    }
  }

  /** Nobody has in view, or draws, an id that has left the game. */
  lemma NoDanglingIds(objs: Objs, n: Net, p: int, o: int)
    requires Exact(objs, n) && p in n.views && (o !in objs || !Shown(objs[o]))
    ensures o !in n.views[p] && o !in n.tables[p].objs
  {
    if Watching(objs, p) {
      assert Good(objs, n, p, o);
    }
  }

  /** The client's table is the server's view, object by object. */
  lemma ClientMirrorsServer(objs: Objs, n: Net, p: int)
    requires Exact(objs, n) && Watching(objs, p)
    ensures n.tables[p].objs.Keys == n.views[p] && n.tables[p].me == p && n.tables[p].at == objs[p].at
    ensures forall o :: o in n.views[p] ==>
              && o in objs && n.tables[p].objs[o].at == objs[o].at && n.tables[p].objs[o].dir == objs[o].dir
              && (objs[o].Npc? ==> n.tables[p].objs[o].hp == objs[o].hp && n.tables[p].objs[o].mode == objs[o].mode)
  {
    assert OwnPlace(objs, n, p);
    forall o | o in n.views[p]
      ensures o in objs && Accurate(n.tables[p].objs[o], objs[o])
    {
      assert Good(objs, n, p, o);
    }
  }

  /** The NPCs that have come into view of `p`. */
  ghost function Met(objs0: Objs, objs: Objs, p: int): set<int>
    requires p in objs
  {
    set m | m in objs && !IsPc(m) && Sees(objs, p, m) && !(Watching(objs0, p) && Sees(objs0, p, m))
  }

  ghost function Npcs(ids: set<int>): set<int> {
    set m | m in ids && !IsPc(m)
  }

  /** Those are the NPCs the visible set has gained. */
  lemma MetAreNew(objs0: Objs, n0: Net, objs: Objs, n: Net, p: int)
    requires Exact(objs0, n0) && Exact(objs, n) && p in n0.views && Watching(objs, p)
    ensures p in n.views && forall m :: m in Npcs(n.views[p] - n0.views[p]) <==> m in Met(objs0, objs, p)
  {
    forall m
      ensures m in Npcs(n.views[p] - n0.views[p]) <==> m in Met(objs0, objs, p)
    {
      assert Good(objs, n, p, m);
      assert Watching(objs0, p) ==> Good(objs0, n0, p, m);
    }
  }

  /** Player `q` has changed place, and has come to see NPC `m`. */
  ghost predicate Startles(objs0: Objs, objs: Objs, q: int, m: int) {
    Watching(objs0, q) && q in objs && IsPc(q) && objs[q].at != objs0[q].at && m in Met(objs0, objs, q)
  }

  /** The NPCs that have come into view of a player because that player has changed place. */
  ghost function Startled(objs0: Objs, objs: Objs): set<int> {
    set m | m in objs && exists q {:trigger Startles(objs0, objs, q, m)} :: Startles(objs0, objs, q, m)
  }

  lemma OnePlayerStartles(objs: Objs, q: int, o: Obj, objs': Objs)
    requires Watching(objs, q) && IsPc(q) && o.Pc? && o.status == Playing && objs' == objs[q := o]
    ensures forall m :: m in Startled(objs, objs') <==> m in Met(objs, objs', q)
  {
    forall m
      ensures m in Startled(objs, objs') <==> m in Met(objs, objs', q)
    {
      if m in Met(objs, objs', q) {
        assert Startles(objs, objs', q, m);
      }
    }
  }

  /** What a client could tell apart: who is on the board, and where. */
  ghost predicate SamePiece(objs: Objs, objs': Objs, id: int) {
    && (id in objs <==> id in objs')
    && (id in objs && id in objs' ==>
          objs[id].at == objs'[id].at && (objs[id].Pc? <==> objs'[id].Pc?) && (Shown(objs[id]) <==> Shown(objs'[id])))
  }

  ghost predicate SameBoard(objs: Objs, objs': Objs) {
    forall id {:trigger SamePiece(objs, objs', id)} :: SamePiece(objs, objs', id)
  }

  lemma SameBoardStartles(objs0: Objs, objs0': Objs, objs: Objs, objs': Objs)
    requires SameBoard(objs0, objs0') && SameBoard(objs, objs')
    ensures forall m :: m in Startled(objs0, objs) <==> m in Startled(objs0', objs')
  {
    forall m
      ensures m in Startled(objs0, objs) <==> m in Startled(objs0', objs')
    {
      forall q
        ensures Startles(objs0, objs, q, m) <==> Startles(objs0', objs', q, m)
      {
        assert SamePiece(objs0, objs0', q) && SamePiece(objs0, objs0', m);
        assert SamePiece(objs, objs', q) && SamePiece(objs, objs', m);
      }
      assert SamePiece(objs, objs', m);
    }
  }

  /** Changing an NPC's state makes no difference, before or after. */
  lemma ModeStartlesSame(objs0: Objs, objs: Objs, n: int, mode: Mode)
    requires !IsPc(n) && n in objs0 && n in objs && objs0[n].Npc? && objs[n].Npc?
    ensures forall m :: m in Startled(objs0, objs[n := InMode(objs[n], mode)]) <==> m in Startled(objs0, objs)
    ensures forall m :: m in Startled(objs0[n := InMode(objs0[n], mode)], objs) <==> m in Startled(objs0, objs)
  {
    SameBoardStartles(objs0, objs0, objs[n := InMode(objs[n], mode)], objs);
    SameBoardStartles(objs0[n := InMode(objs0[n], mode)], objs0, objs, objs);
  }

  /** An NPC walking about startles no NPC. */
  lemma NpcStartlesNobody(objs: Objs, n: int, o: Obj, objs': Objs)
    requires !IsPc(n) && objs' == objs[n := o]
    ensures forall m :: m !in Startled(objs, objs')
  {
  }

  /** Another player has changed place; so far only others have, and no NPC. */
  lemma OneMoreStartles(objs0: Objs, objs1: Objs, objs2: Objs, q: int)
    requires q in objs1 && IsPc(q) && q in objs0 && objs0[q] == objs1[q]
    requires q in objs2 && objs2 == objs1[q := objs2[q]] && (Watching(objs1, q) || objs2 == objs1)
    requires forall m :: !IsPc(m) ==>
               (m in objs0 <==> m in objs1) && (m in objs0 && m in objs1 ==> objs0[m] == objs1[m])
    ensures forall m :: m in Startled(objs0, objs2) <==> m in Startled(objs0, objs1) + Startled(objs1, objs2)
  {
    forall m
      ensures m in Startled(objs0, objs2) <==> m in Startled(objs0, objs1) + Startled(objs1, objs2)
    {
      forall r
        ensures Startles(objs1, objs2, r, m) ==> Startles(objs0, objs2, r, m)
        ensures Startles(objs0, objs1, r, m) ==> Startles(objs0, objs2, r, m)
        ensures Startles(objs0, objs2, r, m) ==> Startles(objs0, objs1, r, m) || Startles(objs1, objs2, r, m)
      {
      }
    }
  }

  /** Whatever is in reach of an attack is in view, so looping over the view misses nothing. */
  lemma VictimsAreInView(objs: Objs, n: Net, p: int, skill: bool)
    requires Exact(objs, n) && Watching(objs, p)
    ensures forall o :: Victim(objs, p, skill, o) ==> o in n.views[p]
  {
    forall o | Victim(objs, p, skill, o)
      ensures o in n.views[p]
    {
      assert Good(objs, n, p, o);
    }
  }

  // ---- a player moves: update_player_view ----

  /**
   In the middle of update_player_view for `p`: `links` are the objects `p` has in view, the same
   players have `p` in view, and those in `done` already draw it right.
   */
  ghost predicate Linking(objs: Objs, n: Net, p: int, links: set<int>, done: set<int>) {
    && Base(objs, n) && Watching(objs, p) && GoodBut(objs, n, p)
    && n.views[p] == links
    && (forall o :: o in links ==> o in objs && o != p && Shown(objs[o]) && Drawn(objs, n, p, o))
    && (forall q :: q in n.views && q != p ==> (p in n.views[q] <==> q in links))
    && (forall q :: q in links && q in done && IsPc(q) ==> Drawn(objs, n, q, p))
  }

  lemma StartLinking(objs: Objs, n: Net, p: int, objs': Objs)
    requires Exact(objs, n) && Watching(objs, p)
    requires objs'.Keys == objs.Keys && (forall o :: o in objs && o != p ==> objs'[o] == objs[o])
    requires Watching(objs', p) && InWorld(objs'[p].at)
    ensures Linking(objs', n, p, n.views[p], {})
  {
    OthersStayGood(objs, n, p, objs');
    forall o | o in n.views[p]
      ensures o in objs' && o != p && Shown(objs'[o]) && Drawn(objs', n, p, o)
    {
      assert Good(objs, n, p, o);
    }
    forall q | q in n.views && q != p
      ensures p in n.views[q] <==> q in n.views[p]
    {
      PlayersSeeEachOther(objs, n, p, q);
    }
  }

  /** A change of one object leaves all pairs without it good. */
  lemma OthersStayGood(objs: Objs, n: Net, x: int, objs': Objs)
    requires Base(objs, n) && Base(objs', n) && GoodBut(objs, n, x)
    requires objs'.Keys == objs.Keys && (forall o :: o in objs && o != x ==> objs'[o] == objs[o])
    ensures GoodBut(objs', n, x)
  {
    forall q, o {:trigger Good(objs', n, q, o)} | Watching(objs', q) && q != x && o != x
      ensures Good(objs', n, q, o)
    {
      assert Good(objs, n, q, o);
    }
    forall q {:trigger OwnPlace(objs', n, q)} | Watching(objs', q) && q != x
      ensures OwnPlace(objs', n, q)
    {
      assert OwnPlace(objs, n, q);
    }
  }

  /** A login: the player starts to watch with an empty view, known to nobody. */
  lemma StartLinkingNew(objs: Objs, n: Net, p: int, objs': Objs, n': Net)
    requires Exact(objs, n) && p in n.views && !Watching(objs, p)
    requires objs'.Keys == objs.Keys && (forall o :: o in objs && o != p ==> objs'[o] == objs[o])
    requires Watching(objs', p) && InWorld(objs'[p].at)
    requires n' == Tell(n, p, AvatarInfo(p, objs'[p].at, objs'[p].dir))
    ensures Linking(objs', n', p, {}, {})
  {
    forall q, o {:trigger Good(objs', n', q, o)} | Watching(objs', q) && q != p && o != p
      ensures Good(objs', n', q, o)
    {
      assert Good(objs, n, q, o);
    }
    forall q {:trigger OwnPlace(objs', n', q)} | Watching(objs', q) && q != p
      ensures OwnPlace(objs', n', q)
    {
      assert OwnPlace(objs, n, q);
    }
    forall q | q in n'.views && q != p
      ensures p !in n'.views[q]
    {
      NoDanglingIds(objs, n, q, p);
    }
  }

  // ---- what a message changes, player by player ----

  ghost predicate Unchanged(n: Net, n': Net, q: int) {
    && q in n.views && q in n.tables && q in n'.views && q in n'.tables
    && n'.views[q] == n.views[q] && n'.tables[q] == n.tables[q]
  }

  /** As far as player `q` is concerned, nothing has changed about `x`. */
  ghost predicate SameAbout(n: Net, n': Net, q: int, x: int)
    requires q in n.views && q in n.tables && q in n'.views && q in n'.tables
  {
    && (x in n'.views[q] <==> x in n.views[q]) && (x in n'.tables[q].objs <==> x in n.tables[q].objs)
    && (x in n.tables[q].objs && x in n'.tables[q].objs ==> n'.tables[q].objs[x] == n.tables[q].objs[x])
  }

  /** Whatever has changed for player `q` concerns `x`. */
  ghost predicate OnlyAbout(n: Net, n': Net, q: int, x: int) {
    && q in n.views && q in n.tables && q in n'.views && q in n'.tables
    && n'.tables[q].me == n.tables[q].me && n'.tables[q].at == n.tables[q].at && n'.tables[q].dir == n.tables[q].dir
    && forall y {:trigger SameAbout(n, n', q, y)} :: y != x ==> SameAbout(n, n', q, y)
  }

  ghost predicate SamePlayers(n: Net, n': Net) {
    n'.views.Keys == n.views.Keys && n'.tables.Keys == n.tables.Keys
  }

  /** At most `q` has noticed anything, and only about `x`. */
  ghost predicate Tells(n: Net, n': Net, q: int, x: int) {
    && SamePlayers(n, n') && OnlyAbout(n, n', q, x)
    && forall r {:trigger Unchanged(n, n', r)} :: r in n.views && r in n.tables && r != q ==> Unchanged(n, n', r)
  }

  lemma AddTells(objs: Objs, n: Net, q: int, x: int)
    requires q in n.views && q in n.tables && x in objs && x !in n.views[q]
    ensures var n' := AddFor(objs, n, q, x);
      && Tells(n, n', q, x) && n'.views[q] == n.views[q] + {x}
      && n'.tables[q].objs.Keys == n.tables[q].objs.Keys + {x} && Accurate(n'.tables[q].objs[x], objs[x])
  {
  }

  lemma RemoveTells(n: Net, q: int, x: int)
    requires q in n.views && q in n.tables && n.tables[q].objs.Keys == n.views[q]
    ensures var n' := RemoveFor(n, q, x);
      Tells(n, n', q, x) && n'.views[q] == n'.tables[q].objs.Keys == n.views[q] - {x}
  {
  }

  lemma MoveTells(objs: Objs, n: Net, q: int, x: int)
    requires q in n.views && q in n.tables && x in objs && x in n.tables[q].objs && x != n.tables[q].me
    ensures var n' := MoveFor(objs, n, q, x);
      && Tells(n, n', q, x) && n'.views[q] == n.views[q] && n'.tables[q].objs.Keys == n.tables[q].objs.Keys
      && n'.tables[q].objs[x] == n.tables[q].objs[x].(at := objs[x].at, dir := objs[x].dir)
  {
  }

  /** Nobody but `p` and `o` has noticed anything, and those two only about each other. */
  ghost predicate PairOnly(n: Net, n': Net, p: int, o: int) {
    && SamePlayers(n, n') && OnlyAbout(n, n', p, o) && (o in n.views && o in n.tables ==> OnlyAbout(n, n', o, p))
    && forall r {:trigger Unchanged(n, n', r)} ::
         r in n.views && r in n.tables && r != p && r != o ==> Unchanged(n, n', r)
  }

  lemma OneTold(n: Net, n': Net, p: int, o: int)
    requires Tells(n, n', p, o) && o !in n.views
    ensures PairOnly(n, n', p, o)
  {
    forall r {:trigger Unchanged(n, n', r)} | r in n.views && r in n.tables && r != p && r != o
      ensures Unchanged(n, n', r)
    {
    }
  }

  lemma BothTold(n: Net, n1: Net, n2: Net, p: int, o: int)
    requires Tells(n, n1, p, o) && Tells(n1, n2, o, p) && p != o
    ensures PairOnly(n, n2, p, o)
    ensures o in n.views && o in n.tables && Unchanged(n, n1, o) && Unchanged(n1, n2, p)
  {
    assert Unchanged(n, n1, o) && Unchanged(n1, n2, p);
    forall r {:trigger Unchanged(n, n2, r)} | r in n.views && r in n.tables && r != p && r != o
      ensures Unchanged(n, n2, r)
    {
      assert Unchanged(n, n1, r) && Unchanged(n1, n2, r);
    }
    AboutThrough(n, n1, n2, p, o);
    AboutThrough(n, n1, n2, o, p);
  }

  lemma AboutThrough(n: Net, n1: Net, n2: Net, q: int, x: int)
    requires (Unchanged(n1, n2, q) && OnlyAbout(n, n1, q, x)) || (Unchanged(n, n1, q) && OnlyAbout(n1, n2, q, x))
    ensures OnlyAbout(n, n2, q, x)
  {
    forall y {:trigger SameAbout(n, n2, q, y)} | y != x
      ensures SameAbout(n, n2, q, y)
    {
      assert OnlyAbout(n, n1, q, x) ==> SameAbout(n, n1, q, y);
      assert OnlyAbout(n1, n2, q, x) ==> SameAbout(n1, n2, q, y);
    }
  }

  lemma GoodStays(objs: Objs, n: Net, n': Net, q: int, o: int, x: int)
    requires q in objs && OnlyAbout(n, n', q, x) && o != x && Good(objs, n, q, o)
    ensures Good(objs, n', q, o)
  {
    assert SameAbout(n, n', q, o);
  }

  /** Messages about `x` leave the pairs without `x` good, for all players but possibly `x`. */
  lemma OthersHearNothing(objs: Objs, n: Net, x: int, n': Net)
    requires Base(objs, n) && Base(objs, n') && GoodBut(objs, n, x)
    requires forall q {:trigger OnlyAbout(n, n', q, x)} :: q in n.views && q != x ==> OnlyAbout(n, n', q, x)
    ensures GoodBut(objs, n', x)
  {
    forall q, o {:trigger Good(objs, n', q, o)} | Watching(objs, q) && q != x && o != x
      ensures Good(objs, n', q, o)
    {
      assert OnlyAbout(n, n', q, x);
      GoodStays(objs, n, n', q, o, x);
    }
    forall q {:trigger OwnPlace(objs, n', q)} | Watching(objs, q) && q != x
      ensures OwnPlace(objs, n', q)
    {
      assert OnlyAbout(n, n', q, x) && OwnPlace(objs, n, q);
    }
  }

  lemma UnchangedOnly(n: Net, n': Net, q: int, x: int)
    requires Unchanged(n, n', q)
    ensures OnlyAbout(n, n', q, x)
  {
  }

  // ---- the messages of update_player_view ----

  /** A message about `p` itself to its own client. */
  lemma SelfTold(objs: Objs, n: Net, p: int, links: set<int>, t: Table)
    requires Linking(objs, n, p, links, {}) && t.me == p && t.objs == n.tables[p].objs
    ensures Linking(objs, n.(tables := n.tables[p := t]), p, links, {})
  {
    var n' := n.(tables := n.tables[p := t]);
    forall q {:trigger OnlyAbout(n, n', q, p)} | q in n.views && q != p
      ensures OnlyAbout(n, n', q, p)
    {
      UnchangedOnly(n, n', q, p);
    }
    OthersHearNothing(objs, n, p, n');
    forall o | o in links
      ensures Drawn(objs, n', p, o)
    {
      assert Drawn(objs, n, p, o);
    }
  }

  /** The player is told its own new place. */
  lemma SelfMoveKeeps(objs: Objs, n: Net, p: int, links: set<int>)
    requires Linking(objs, n, p, links, {})
    ensures Linking(objs, MoveFor(objs, n, p, p), p, links, {}) && OwnPlace(objs, MoveFor(objs, n, p, p), p)
  {
    SelfTold(objs, n, p, links, Handle(n.tables[p], MovePlayer(p, objs[p].at, objs[p].dir)));
  }

  lemma AvatarKeeps(objs: Objs, n: Net, p: int, links: set<int>)
    requires Linking(objs, n, p, links, {})
    ensures Linking(objs, Tell(n, p, AvatarInfo(p, objs[p].at, objs[p].dir)), p, links, {})
  {
    SelfTold(objs, n, p, links, Handle(n.tables[p], AvatarInfo(p, objs[p].at, objs[p].dir)));
  }

  /** View and table still agree for a player, whether or not it was told something. */
  ghost predicate TableFits(n: Net, q: int) {
    q in n.views && q in n.tables && n.tables[q].objs.Keys == n.views[q]
  }

  lemma StepBase(objs: Objs, n: Net, n': Net, p: int, o: int)
    requires Base(objs, n) && PairOnly(n, n', p, o) && Watching(objs, p) && TableFits(n', p)
    requires o in n.views ==> Watching(objs, o) && TableFits(n', o)
    ensures Base(objs, n')
  {
    forall q | q in n.views
      ensures n'.tables[q].objs.Keys == n'.views[q] && n'.tables[q].me == n.tables[q].me
      ensures !Watching(objs, q) ==> n'.views[q] == {}
    {
      assert q != p && q != o ==> Unchanged(n, n', q);
    }
  }

  /** `p` and `o` have been told about each other, which puts this pair right and leaves all others alone. */
  lemma StepKeeps(objs: Objs, n: Net, n': Net, p: int, links: set<int>, done: set<int>, o: int,
                  links': set<int>, done': set<int>)
    requires Linking(objs, n, p, links, done) && PairOnly(n, n', p, o) && p != o
    requires TableFits(n', p) && n'.views[p] == links' && links' - {o} == links - {o} && done' - {o} == done - {o}
    requires o in links' ==> o in objs && Shown(objs[o]) && Drawn(objs, n', p, o)
    requires o in n.views ==> Watching(objs, o) && TableFits(n', o) && (p in n'.views[o] <==> o in links')
    requires o in n.views && o in links' && o in done' ==> Drawn(objs, n', o, p)
    ensures Linking(objs, n', p, links', done')
    ensures OwnPlace(objs, n, p) ==> OwnPlace(objs, n', p)
  {
    StepBase(objs, n, n', p, o);
    forall q {:trigger OnlyAbout(n, n', q, p)} | q in n.views && q != p
      ensures OnlyAbout(n, n', q, p)
    {
      if q != o {
        assert Unchanged(n, n', q);
        UnchangedOnly(n, n', q, p);
      }
    }
    OthersHearNothing(objs, n, p, n');
    StepLinks(objs, n, n', p, links, done, o, links', done');
  }

  lemma StepLinks(objs: Objs, n: Net, n': Net, p: int, links: set<int>, done: set<int>, o: int,
                  links': set<int>, done': set<int>)
    requires Linking(objs, n, p, links, done) && PairOnly(n, n', p, o) && Base(objs, n')
    requires links' - {o} == links - {o} && done' - {o} == done - {o}
    requires o in links' ==> o in objs && o != p && Shown(objs[o]) && Drawn(objs, n', p, o)
    requires o in n.views ==> (p in n'.views[o] <==> o in links')
    requires o in n.views && o in links' && o in done' ==> Drawn(objs, n', o, p)
    ensures forall l :: l in links' ==> l in objs && l != p && Shown(objs[l]) && Drawn(objs, n', p, l)
    ensures forall q :: q in n'.views && q != p ==> (p in n'.views[q] <==> q in links')
    ensures forall q :: q in links' && q in done' && IsPc(q) ==> Drawn(objs, n', q, p)
  {
    forall l | l in links'
      ensures l in objs && l != p && Shown(objs[l]) && Drawn(objs, n', p, l)
    {
      if l != o {
        assert l in links - {o} && SameAbout(n, n', p, l) && Drawn(objs, n, p, l);
      }
    }
    forall q | q in n'.views && q != p
      ensures p in n'.views[q] <==> q in links'
    {
      if q != o {
        assert Unchanged(n, n', q) && (q in links' - {o} <==> q in links - {o});
      }
    }
    forall q | q in links' && q in done' && IsPc(q)
      ensures Drawn(objs, n', q, p)
    {
      if q != o {
        assert q in links - {o} && q in done - {o} && Unchanged(n, n', q) && Drawn(objs, n, q, p);
      }
    }
  }

  /** What update_player_view does for an object that has just come into view. */
  ghost function Meet(objs: Objs, n: Net, p: int, o: int): Net
    requires p in n.views && p in n.tables && o in objs && p in objs && (IsPc(o) ==> o in n.views && o in n.tables)
  {
    if IsPc(o) then AddFor(objs, AddFor(objs, n, p, o), o, p) else AddFor(objs, n, p, o)
  }

  lemma MeetTells(objs: Objs, n: Net, p: int, o: int)
    requires TableFits(n, p) && p in objs && o in objs && o !in n.views[p] && o != p
    requires if IsPc(o) then TableFits(n, o) && p !in n.views[o] else o !in n.views
    ensures var n' := Meet(objs, n, p, o);
      && PairOnly(n, n', p, o) && TableFits(n', p) && n'.views[p] == n.views[p] + {o} && Drawn(objs, n', p, o)
      && (IsPc(o) ==> TableFits(n', o) && p in n'.views[o] && Drawn(objs, n', o, p))
  {
    var n1 := AddFor(objs, n, p, o);
    AddTells(objs, n, p, o);
    if IsPc(o) {
      assert Unchanged(n, n1, o);
      AddTells(objs, n1, o, p);
      BothTold(n, n1, Meet(objs, n, p, o), p, o);
    } else {
      OneTold(n, n1, p, o);
    }
  }

  lemma MeetKeeps(objs: Objs, n: Net, p: int, links: set<int>, done: set<int>, o: int)
    requires Linking(objs, n, p, links, done) && o !in links && o in objs && o != p && Shown(objs[o])
    ensures IsPc(o) ==> o in n.views && o in n.tables
    ensures Linking(objs, Meet(objs, n, p, o), p, links + {o}, done + {o})
    ensures OwnPlace(objs, n, p) ==> OwnPlace(objs, Meet(objs, n, p, o), p)
  {
    MeetTells(objs, n, p, o);
    StepKeeps(objs, n, Meet(objs, n, p, o), p, links, done, o, links + {o}, done + {o});
  }

  /** What it does for an object that stays in view. */
  ghost function Greet(objs: Objs, n: Net, p: int, o: int): Net
    requires p in objs && (IsPc(o) ==> o in n.tables)
  {
    if IsPc(o) then MoveFor(objs, n, o, p) else n
  }

  lemma GreetTells(objs: Objs, n: Net, p: int, o: int)
    requires TableFits(n, p) && p in objs && o != p && objs[p].Pc?
    requires if IsPc(o) then TableFits(n, o) && p in n.views[o] && n.tables[o].me != p else o !in n.views
    ensures var n' := Greet(objs, n, p, o);
      && PairOnly(n, n', p, o) && Unchanged(n, n', p)
      && (IsPc(o) ==> TableFits(n', o) && n'.views[o] == n.views[o] && Drawn(objs, n', o, p))
  {
    var n' := Greet(objs, n, p, o);
    if IsPc(o) {
      MoveTells(objs, n, o, p);
      assert Unchanged(n, n', p);
    }
    UnchangedOnly(n, n', p, o);
    forall r {:trigger Unchanged(n, n', r)} | r in n.views && r in n.tables && r != p && r != o
      ensures Unchanged(n, n', r)
    {
    }
  }

  lemma GreetKeeps(objs: Objs, n: Net, p: int, links: set<int>, done: set<int>, o: int)
    requires Linking(objs, n, p, links, done) && o in links
    ensures IsPc(o) ==> o in n.tables
    ensures Linking(objs, Greet(objs, n, p, o), p, links, done + {o})
    ensures OwnPlace(objs, n, p) ==> OwnPlace(objs, Greet(objs, n, p, o), p)
  {
    GreetTells(objs, n, p, o);
    StepKeeps(objs, n, Greet(objs, n, p, o), p, links, done, o, links, done + {o});
  }

  /** What it does for an object that has left the view. */
  ghost function Part(n: Net, p: int, o: int): Net
    requires p in n.views && p in n.tables && (IsPc(o) ==> o in n.views && o in n.tables)
  {
    if IsPc(o) then RemoveFor(RemoveFor(n, p, o), o, p) else RemoveFor(n, p, o)
  }

  lemma PartTells(n: Net, p: int, o: int)
    requires TableFits(n, p) && o != p && if IsPc(o) then TableFits(n, o) else o !in n.views
    ensures var n' := Part(n, p, o);
      && PairOnly(n, n', p, o) && TableFits(n', p) && n'.views[p] == n.views[p] - {o}
      && (IsPc(o) ==> TableFits(n', o) && p !in n'.views[o])
  {
    var n1 := RemoveFor(n, p, o);
    RemoveTells(n, p, o);
    if IsPc(o) {
      assert Unchanged(n, n1, o);
      RemoveTells(n1, o, p);
      BothTold(n, n1, Part(n, p, o), p, o);
    } else {
      OneTold(n, n1, p, o);
    }
  }

  lemma PartKeeps(objs: Objs, n: Net, p: int, links: set<int>, done: set<int>, o: int)
    requires Linking(objs, n, p, links, done) && o in links
    ensures IsPc(o) ==> o in n.views && o in n.tables
    ensures Linking(objs, Part(n, p, o), p, links - {o}, done)
    ensures OwnPlace(objs, n, p) ==> OwnPlace(objs, Part(n, p, o), p)
  {
    PartTells(n, p, o);
    StepKeeps(objs, n, Part(n, p, o), p, links, done, o, links - {o}, done);
  }

  /** Once the links are what `p` sees and all of them have been told, everything is exact again. */
  lemma FinishLinking(objs: Objs, n: Net, p: int, links: set<int>, done: set<int>)
    requires Linking(objs, n, p, links, done) && OwnPlace(objs, n, p)
    requires (forall o :: o in links ==> o in done) && forall o :: o in links <==> Sees(objs, p, o)
    ensures Exact(objs, n)
  {
    forall q, o {:trigger Good(objs, n, q, o)} | Watching(objs, q)
      ensures Good(objs, n, q, o)
    {
      if q == p {
        assert o in links ==> Drawn(objs, n, p, o);
      } else if o == p {
        assert Sees(objs, q, p) <==> Sees(objs, p, q);
        assert p in n.views[q] <==> q in links;
        assert q in links && q in done && IsPc(q) ==> Drawn(objs, n, q, p);
      }
    }
    forall q {:trigger OwnPlace(objs, n, q)} | Watching(objs, q)
      ensures OwnPlace(objs, n, q)
    {
    }
  }

  // ---- an NPC moves, dies or comes back ----

  /**
   In the middle of telling players about NPC `x`: for those in `done` the pair is right, the others
   still have `x` in view exactly if they are in `before`.
   */
  ghost predicate Passing(objs: Objs, n: Net, x: int, before: set<int>, done: set<int>) {
    && Base(objs, n) && GoodBut(objs, n, x) && x in objs && objs[x].Npc?
    && (forall q {:trigger Good(objs, n, q, x)} :: Watching(objs, q) && q in done ==> Good(objs, n, q, x))
    && (forall q :: Watching(objs, q) && q !in done ==> (x in n.views[q] <==> q in before))
  }

  lemma StartPassing(objs: Objs, n: Net, x: int, objs': Objs, before: set<int>)
    requires Exact(objs, n) && x in objs && objs[x].Npc? && objs'.Keys == objs.Keys && objs'[x].Npc? && Shaped(objs')
    requires forall o :: o in objs && o != x ==> objs'[o] == objs[o]
    requires forall q :: Watching(objs, q) ==> (q in before <==> Sees(objs, q, x))
    ensures Passing(objs', n, x, before, {})
  {
    OthersStayGood(objs, n, x, objs');
    forall q | Watching(objs', q)
      ensures x in n.views[q] <==> q in before
    {
      assert Good(objs, n, q, x);
    }
  }

  /** update_viewers for one player that can see the NPC now */
  ghost function Show(objs: Objs, n: Net, q: int, x: int): Net
    requires q in n.views && q in n.tables && x in objs
  {
    if x in n.views[q] then MoveFor(objs, n, q, x) else AddFor(objs, n, q, x)
  }

  /** `q` draws the NPC as it was drawn last, apart from its place and facing. */
  ghost predicate LookKept(objs: Objs, n: Net, q: int, x: int)
    requires q in n.views && q in n.tables && x in objs && objs[x].Npc?
  {
    x in n.views[q] ==>
      && x in n.tables[q].objs
      && var e := n.tables[q].objs[x]; e.hp == objs[x].hp && e.maxHp == objs[x].maxHp && e.mode == objs[x].mode
  }

  /** All players do. */
  ghost predicate LooksKept(objs: Objs, n: Net, x: int)
    requires x in objs && objs[x].Npc?
  {
    forall q {:trigger LookKept(objs, n, q, x)} :: q in n.views && q in n.tables ==> LookKept(objs, n, q, x)
  }

  lemma StartLooksKept(objs: Objs, n: Net, x: int, objs': Objs)
    requires Exact(objs, n) && x in objs && objs[x].Npc? && x in objs' && objs'[x].Npc?
    requires objs'[x].hp == objs[x].hp && objs'[x].maxHp == objs[x].maxHp && objs'[x].mode == objs[x].mode
    ensures LooksKept(objs', n, x)
  {
    forall q | q in n.views && q in n.tables && x in n.views[q]
      ensures x in n.tables[q].objs && Accurate(n.tables[q].objs[x], objs[x])
    {
      assert Good(objs, n, q, x);
    }
  }

  /** `q` has been told about `x`, which puts this pair right and leaves all others alone. */
  lemma PassStep(objs: Objs, n: Net, n': Net, x: int, before: set<int>, done: set<int>, q: int)
    requires Passing(objs, n, x, before, done) && Tells(n, n', q, x) && TableFits(n', q)
    requires if Watching(objs, q) then Good(objs, n', q, x) else n'.views[q] == {}
    ensures Passing(objs, n', x, before, done + {q})
  {
    forall r {:trigger OnlyAbout(n, n', r, x)} | r in n.views
      ensures OnlyAbout(n, n', r, x) && (r != q ==> Unchanged(n, n', r))
    {
      if r != q {
        assert Unchanged(n, n', r);
        UnchangedOnly(n, n', r, x);
      }
    }
    PassBase(objs, n, n', x, q);
    OthersHearNothing(objs, n, x, n');
    forall r {:trigger Good(objs, n', r, x)} | Watching(objs, r) && r in done + {q}
      ensures Good(objs, n', r, x)
    {
      assert r != q ==> Unchanged(n, n', r) && Good(objs, n, r, x);
    }
    forall r | Watching(objs, r) && r !in done + {q}
      ensures x in n'.views[r] <==> r in before
    {
      assert Unchanged(n, n', r);
    }
  }

  lemma PassBase(objs: Objs, n: Net, n': Net, x: int, q: int)
    requires Base(objs, n) && Tells(n, n', q, x) && TableFits(n', q) && (!Watching(objs, q) ==> n'.views[q] == {})
    ensures Base(objs, n')
  {
    forall r | r in n.views
      ensures n'.tables[r].objs.Keys == n'.views[r] && n'.tables[r].me == n.tables[r].me
      ensures !Watching(objs, r) ==> n'.views[r] == {}
    {
      assert r != q ==> Unchanged(n, n', r);
    }
  }

  lemma LooksStep(objs: Objs, n: Net, n': Net, x: int, q: int)
    requires x in objs && objs[x].Npc? && LooksKept(objs, n, x) && Tells(n, n', q, x) && LookKept(objs, n', q, x)
    ensures LooksKept(objs, n', x)
  {
    forall r {:trigger LookKept(objs, n', r, x)} | r in n'.views && r in n'.tables
      ensures LookKept(objs, n', r, x)
    {
      assert r != q ==> Unchanged(n, n', r) && LookKept(objs, n, r, x);
    }
  }

  lemma ShowTells(objs: Objs, n: Net, q: int, x: int)
    requires TableFits(n, q) && x in objs && objs[x].Npc? && LookKept(objs, n, q, x) && n.tables[q].me != x
    ensures var n' := Show(objs, n, q, x);
      && Tells(n, n', q, x) && TableFits(n', q) && x in n'.views[q]
      && Accurate(n'.tables[q].objs[x], objs[x])
  {
    if x in n.views[q] {
      MoveTells(objs, n, q, x);
    } else {
      AddTells(objs, n, q, x);
    }
  }

  lemma ShowKeeps(objs: Objs, n: Net, x: int, before: set<int>, done: set<int>, q: int)
    requires Passing(objs, n, x, before, done) && LooksKept(objs, n, x)
    requires Watching(objs, q) && Sees(objs, q, x)
    ensures Passing(objs, Show(objs, n, q, x), x, before, done + {q}) && LooksKept(objs, Show(objs, n, q, x), x)
  {
    assert LookKept(objs, n, q, x);
    ShowTells(objs, n, q, x);
    PassStep(objs, n, Show(objs, n, q, x), x, before, done, q);
    LooksStep(objs, n, Show(objs, n, q, x), x, q);
  }

  lemma HideKeeps(objs: Objs, n: Net, x: int, before: set<int>, done: set<int>, q: int)
    requires Passing(objs, n, x, before, done) && q in n.views && (Watching(objs, q) ==> !Sees(objs, q, x))
    ensures Passing(objs, RemoveFor(n, q, x), x, before, done + {q})
  {
    RemoveTells(n, q, x);
    PassStep(objs, n, RemoveFor(n, q, x), x, before, done, q);
  }

  lemma HideKeepsLooks(objs: Objs, n: Net, x: int, q: int)
    requires x in objs && objs[x].Npc? && LooksKept(objs, n, x) && q in n.views && q in n.tables
    ensures LooksKept(objs, RemoveFor(n, q, x), x)
  {
    var n' := RemoveFor(n, q, x);
    forall r {:trigger LookKept(objs, n', r, x)} | r in n'.views && r in n'.tables
      ensures LookKept(objs, n', r, x)
    {
      assert LookKept(objs, n, r, x);
    }
  }

  // ---- going through the players in the nine sectors ----

  /** Of the players listed, exactly those who see NPC `x` are in `done`. */
  ghost predicate SeersAmong(objs: Objs, x: int, ids: seq<int>, done: set<int>) {
    forall q :: q in done <==> q in ids && Watching(objs, q) && Sees(objs, q, x)
  }

  /** For what a query has found, the range test on the way decides who sees the NPC. */
  lemma InRangeSees(objs: Objs, x: int, q: int)
    requires Shaped(objs) && x in objs && objs[x].Npc? && Shown(objs[x]) && q in Placed(objs)
    ensures IsPc(q) && Within(objs[q].at, objs[x].at, VIEW_RANGE) <==> Watching(objs, q) && Sees(objs, q, x)
  {
  }

  lemma SeersNext(objs: Objs, x: int, ids: seq<int>, i: nat, done: set<int>, done': set<int>)
    requires i < |ids| && SeersAmong(objs, x, ids[..i], done)
    requires done' == if Watching(objs, ids[i]) && Sees(objs, ids[i], x) then done + {ids[i]} else done
    ensures SeersAmong(objs, x, ids[..i + 1], done')
  {
    assert ids[..i + 1] == ids[..i] + [ids[i]];
  }

  lemma SeersAll(objs: Objs, x: int, ids: seq<int>, done: set<int>)
    requires Shaped(objs) && x in objs && SeersAmong(objs, x, ids[..|ids|], done)
    requires forall q :: q in ids <==> q in Placed(objs) && Touching(Placed(objs)[q], objs[x].at)
    ensures forall q :: q in done <==> Watching(objs, q) && Sees(objs, q, x)
  {
    assert ids[..|ids|] == ids;
    forall q | Watching(objs, q) && Sees(objs, q, x)
      ensures q in ids
    {
      WithinSectorSizeTouches(objs[q].at, objs[x].at);
    }
  }

  lemma SeersOrNobody(objs: Objs, x: int, done: set<int>)
    requires forall q :: q in done <==> Watching(objs, q) && Sees(objs, q, x)
    ensures done != {} <==> exists q :: Watching(objs, q) && Sees(objs, q, x)
  {
    if done != {} {
      var q := Inhabitant(done);
      assert Watching(objs, q) && Sees(objs, q, x);
    }
  }

  /** When every player that saw it or sees it has been told, everything is exact again. */
  lemma FinishPassing(objs: Objs, n: Net, x: int, before: set<int>, done: set<int>)
    requires Passing(objs, n, x, before, done)
    requires forall q :: Watching(objs, q) && (q in before || Sees(objs, q, x)) ==> q in done
    ensures Exact(objs, n)
  {
    forall q, o {:trigger Good(objs, n, q, o)} | Watching(objs, q)
      ensures Good(objs, n, q, o)
    {
      if o == x && q !in done {
        assert x !in n.views[q];
      }
    }
    forall q {:trigger OwnPlace(objs, n, q)} | Watching(objs, q)
      ensures OwnPlace(objs, n, q)
    {
    }
  }

  /** A dead NPC comes back: nobody has it in view yet. */
  lemma StartReturning(objs: Objs, n: Net, x: int, o: Obj)
    requires Exact(objs, n) && x in objs && objs[x].Npc? && !Shown(objs[x])
    requires o.Npc? && o.maxHp > 0 && InWorld(o.at) && InWorld(o.origin)
    ensures Passing(objs[x := o], n, x, {}, {}) && LooksKept(objs[x := o], n, x)
  {
    StartPassing(objs, n, x, objs[x := o], {});
    forall q | q in n.views
      ensures x !in n.views[q]
    {
      NoDanglingIds(objs, n, q, x);
    }
  }

  // ---- an NPC's hit points or state change under everybody's eyes ----

  /** Every viewer of `x` is in the audience. */
  ghost predicate Reaches(objs: Objs, n: Net, x: int, audience: set<int>) {
    forall q :: q in n.views && x in n.views[q] ==> q in audience
  }

  /** The players a three-by-three query around `t` finds, given what the sectors hold. */
  ghost predicate Around(where: map<int, Tile>, t: Tile, q: int) {
    IsPc(q) && q in where && Touching(where[q], t)
  }

  const RANGED_ATK_RANGE: int := 6

  /** View and attack range together do not exceed the sector size, so a broadcast around the attacker is enough. */
  lemma BroadcastReaches(objs: Objs, n: Net, x: int, t: Tile, audience: set<int>)
    requires Exact(objs, n) && x in objs && InWorld(t) && Within(objs[x].at, t, RANGED_ATK_RANGE)
    requires forall q :: q in audience <==> Around(Placed(objs), t, q)
    ensures Reaches(objs, n, x, audience)
  {
    forall q | q in n.views && x in n.views[q]
      ensures q in audience
    {
      assert Watching(objs, q) ==> Good(objs, n, q, x);
      WithinSectorSizeTouches(objs[q].at, t);
    }
  }

  /**
   A hit that leaves the NPC alive: telling an audience that includes every viewer keeps everything
   exact.
   */
  lemma DamageSeen(objs: Objs, n: Net, x: int, hp: int, audience: set<int>)
    requires Exact(objs, n) && x in objs && objs[x].Npc? && objs[x].hp > 0
    requires hp > 0 && Reaches(objs, n, x, audience)
    ensures Exact(objs[x := WithHp(objs[x], hp)], Broadcast(n, audience, DamageInfo(x, hp)))
  {
    BroadcastPairs(objs, n, x, objs[x := WithHp(objs[x], hp)], Broadcast(n, audience, DamageInfo(x, hp)));
  }

  lemma StateSeen(objs: Objs, n: Net, x: int, mode: Mode, audience: set<int>)
    requires Exact(objs, n) && x in objs && objs[x].Npc?
    requires Reaches(objs, n, x, audience)
    ensures Exact(objs[x := InMode(objs[x], mode)],
                  Broadcast(n, audience, StatInfo(x, objs[x].hp, objs[x].maxHp, mode)))
  {
    BroadcastPairs(objs, n, x, objs[x := InMode(objs[x], mode)],
                   Broadcast(n, audience, StatInfo(x, objs[x].hp, objs[x].maxHp, mode)));
  }

  lemma BroadcastPairs(objs: Objs, n: Net, x: int, objs': Objs, n': Net)
    requires Exact(objs, n) && x in objs && objs[x].Npc?
    requires objs'.Keys == objs.Keys && (forall o :: o in objs && o != x ==> objs'[o] == objs[o])
    requires objs'[x].Npc? && objs'[x].at == objs[x].at && objs'[x].dir == objs[x].dir
    requires objs'[x].maxHp == objs[x].maxHp
    requires objs'[x].origin == objs[x].origin
    requires Shown(objs[x]) == Shown(objs'[x])
    requires n'.views == n.views && n'.tables.Keys == n.tables.Keys
    requires forall q :: q in n.tables ==>
               && n'.tables[q].me == n.tables[q].me && n'.tables[q].at == n.tables[q].at
               && n'.tables[q].dir == n.tables[q].dir
               && n'.tables[q].objs.Keys == n.tables[q].objs.Keys
               && forall o :: o in n.tables[q].objs && o != x ==> n'.tables[q].objs[o] == n.tables[q].objs[o]
    requires forall q :: q in n.views && x in n.views[q] && x in n.tables[q].objs &&
                         Accurate(n.tables[q].objs[x], objs[x]) ==>
               x in n'.tables[q].objs && Accurate(n'.tables[q].objs[x], objs'[x])
    ensures Exact(objs', n')
  {
    forall q, o {:trigger Good(objs', n', q, o)} | Watching(objs', q)
      ensures Good(objs', n', q, o)
    {
      assert Good(objs, n, q, o);
    }
    forall q {:trigger OwnPlace(objs', n', q)} | Watching(objs', q)
      ensures OwnPlace(objs', n', q)
    {
      assert OwnPlace(objs, n, q);
    }
  }

  /** A fatal hit: the pairs with the NPC are all that is left to put right. */
  lemma FatalHit(objs: Objs, n: Net, x: int, hp: int, audience: set<int>, before: set<int>)
    requires Exact(objs, n) && x in objs && objs[x].Npc? && objs[x].hp > 0
    requires hp <= 0
    requires forall q :: Watching(objs, q) ==> (q in before <==> Sees(objs, q, x))
    ensures Passing(objs[x := WithHp(objs[x], hp)], Broadcast(n, audience, DamageInfo(x, hp)), x, before, {})
  {
    var objs' := objs[x := WithHp(objs[x], hp)];
    StartPassing(objs, n, x, objs', before);
    var n' := Broadcast(n, audience, DamageInfo(x, hp));
    forall q, o {:trigger Good(objs', n', q, o)} | Watching(objs', q) && q != x && o != x
      ensures Good(objs', n', q, o)
    {
      assert Good(objs', n, q, o);
    }
    forall q {:trigger OwnPlace(objs', n', q)} | Watching(objs', q) && q != x
      ensures OwnPlace(objs', n', q)
    {
      assert OwnPlace(objs', n, q);
    }
  }

  /** Damage to a player changes only hit points drawn for a player, which nobody relies on. */
  lemma PlayerDamageSeen(objs: Objs, n: Net, p: int, hp: int, audience: set<int>)
    requires Exact(objs, n) && p in objs && objs[p].Pc?
    ensures Exact(objs, Broadcast(n, audience, DamageInfo(p, hp)))
  {
    var n' := Broadcast(n, audience, DamageInfo(p, hp));
    forall q, o {:trigger Good(objs, n', q, o)} | Watching(objs, q)
      ensures Good(objs, n', q, o)
    {
      assert Good(objs, n, q, o);
    }
    forall q {:trigger OwnPlace(objs, n', q)} | Watching(objs, q)
      ensures OwnPlace(objs, n', q)
    {
      assert OwnPlace(objs, n, q);
    }
  }

  /** Chat and projectiles change no table. */
  lemma NoticeSeen(n: Net, audience: set<int>, from: int)
    ensures Broadcast(n, audience, Notice(from)) == n
  {
    forall q | q in n.tables
      ensures q in Broadcast(n, audience, Notice(from)).tables
      ensures Broadcast(n, audience, Notice(from)).tables[q] == n.tables[q]
    {
      assert Handle(n.tables[q], Notice(from)) == n.tables[q];
    }
  }

  lemma NobodyWatching(objs: Objs, n: Net)
    requires Shaped(objs) && n.views == map[] && n.tables == map[] && forall q :: q in objs ==> !IsPc(q)
    ensures Exact(objs, n)
  {
  }

  // ---- where things are ----

  lemma PlacedMove(objs: Objs, cells: seq<set<int>>, x: int, o: Obj)
    requires Tracks(Placed(objs), cells) && x in objs && Shown(objs[x]) && Shown(o) && InWorld(o.at)
    ensures 0 <= SectorOf(objs[x].at) < |cells| && 0 <= SectorOf(o.at) < |cells|
    ensures Tracks(Placed(objs[x := o]), Moved(cells, x, objs[x].at, o.at))
  {
    MoveTracks(Placed(objs), cells, x, o.at);
    assert Placed(objs[x := o]) == Placed(objs)[x := o.at];
  }

  lemma PlacedAppear(objs: Objs, cells: seq<set<int>>, x: int, o: Obj)
    requires Tracks(Placed(objs), cells) && (x in objs ==> !Shown(objs[x])) && Shown(o) && InWorld(o.at)
    ensures 0 <= SectorOf(o.at) < |cells| && Tracks(Placed(objs[x := o]), Inserted(cells, x, o.at))
  {
    InsertTracks(Placed(objs), cells, x, o.at);
    assert Placed(objs[x := o]) == Placed(objs)[x := o.at];
  }

  lemma PlacedVanish(objs: Objs, cells: seq<set<int>>, x: int, o: Obj)
    requires Tracks(Placed(objs), cells) && x in objs && !Shown(o) && InWorld(objs[x].at)
    ensures 0 <= SectorOf(objs[x].at) < |cells|
    ensures Tracks(Placed(objs[x := o]), Erased(cells, x, objs[x].at))
  {
    EraseTracks(Placed(objs), cells, x, objs[x].at);
    assert Placed(objs[x := o]) == Placed(objs) - {x};
  }

  lemma PlacedSame(objs: Objs, x: int, o: Obj)
    requires x in objs && o.at == objs[x].at && (Shown(o) <==> Shown(objs[x]))
    ensures Placed(objs[x := o]) == Placed(objs)
  {
  }

  // ---- sessions that are not in play ----

  lemma SessionAdded(objs: Objs, n: Net, id: int, o: Obj)
    requires Exact(objs, n) && id !in objs && IsPc(id) && o.Pc? && o.status != Playing && InWorld(o.at)
    ensures Exact(objs[id := o], Net(n.views[id := {}], n.tables[id := BLANK]))
  {
    var objs', n' := objs[id := o], Net(n.views[id := {}], n.tables[id := BLANK]);
    forall q, x {:trigger Good(objs', n', q, x)} | Watching(objs', q)
      ensures Good(objs', n', q, x)
    {
      assert Good(objs, n, q, x);
    }
    forall q {:trigger OwnPlace(objs', n', q)} | Watching(objs', q)
      ensures OwnPlace(objs', n', q)
    {
      assert OwnPlace(objs, n, q);
    }
  }

  /** A session changes state without entering or leaving the game. */
  lemma OffStage(objs: Objs, n: Net, p: int, o: Obj)
    requires Exact(objs, n) && p in objs && objs[p].Pc? && o.Pc? && o.at == objs[p].at
    requires objs[p].status != Playing && o.status != Playing
    ensures Exact(objs[p := o], n)
  {
    var objs' := objs[p := o];
    forall q, x {:trigger Good(objs', n, q, x)} | Watching(objs', q)
      ensures Good(objs', n, q, x)
    {
      assert Good(objs, n, q, x);
    }
    forall q {:trigger OwnPlace(objs', n, q)} | Watching(objs', q)
      ensures OwnPlace(objs', n, q)
    {
      assert OwnPlace(objs, n, q);
    }
  }
}
