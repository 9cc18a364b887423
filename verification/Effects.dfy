/**
 What may happen to the server, and what comes of it: for every kind of event, the world afterwards in
 terms of the world before.
 */
module Effects {
  import opened Board
  import opened Client
  import opened Progression
  import opened Sectors
  import opened Agenda
  import opened Scene
  import opened Schedule
  import opened Behaviour
  import opened Combat
  import Items

  /** What can happen next, in any order: the network, the database, the clock, the threads. */
  datatype Stimulus =
    | Connect
    | Login(p: int)
    | BotLogin(p: int, at: Tile)
    | Loaded(p: int, found: bool, at: Tile, rank: Rank, hp: int, kills: seq<int>, inventory: seq<int>)
    | Walk(p: int, dir: Direction, boosted: bool)
    | Say(p: int)
    | Strike(p: int, boosts: set<int>)
    | UseSkill(p: int, cooled: bool, boosts: set<int>)
    | Fire(p: int, cooled: bool, boosted: bool)
    | Consume(p: int, itemType: int)
    | Hangup(p: int, fails: set<(int, int)>)
    | Elapse(ms: nat)
    | TimerTurn
    | WorkerTurn(draws: seq<(nat, nat)>, r: nat, shielded: set<int>)

  /** Stored and random positions lie in the world, stored experience is in normal form. */
  predicate Sane(s: Stimulus) {
    match s
    case BotLogin(_, at) => InWorld(at)
    case Loaded(_, _, at, rank, _, kills, inventory) =>
      InWorld(at) && Normal(rank) && |kills| == QUEST_COUNT && |inventory| == ITEM_SLOT_COUNT
    case _ => true
  }

  /** Everything the server keeps, except for what it has told its clients. */
  datatype World = World(objs: Objs, sheets: map<int, NormalSheet>, target: map<int, int>,
                         items: seq<Items.GroundItem>, clock: Clock, nextId: int, saves: seq<int>)

  ghost function FieldOf(w: World): Field {
    Field(w.objs, w.target, w.sheets, w.items)
  }

  /** A session in a certain state. */
  predicate InState(objs: Objs, p: int, status: Status) {
    p in objs && IsPc(p) && objs[p].Pc? && objs[p].status == status
  }

  // ---- sessions ----

  /** A new session, as long as there are ids. */
  ghost predicate Connects(w: World, w': World) {
    if w.nextId < NPC_ID_START then
      w' == w.(objs := w.objs[w.nextId := Pc(Tile(1000, 100), Down, Connected)],
               sheets := w.sheets[w.nextId := Sheet(Rank(1, 0), 100, 100, [0, 0], [0, 0, 0, 0, 0, 0])],
               nextId := w.nextId + 1)
    else w' == w.(nextId := w.nextId + 1)
  }

  ghost predicate Changes(w: World, w': World, p: int, status: Status)
    requires p in w.objs
  {
    w' == w.(objs := w.objs[p := Pc(w.objs[p].at, w.objs[p].dir, status)])
  }

  /** A session starts to play: it wakes the NPCs it sees, and regenerates in five seconds. */
  ghost predicate Enters(w: World, w': World, p: int, at: Tile, sheet: NormalSheet)
    requires p in w.objs
  {
    && w' == World(w.objs[p := Pc(at, w.objs[p].dir, Playing)], w.sheets[p := sheet], w.target, w.items, w'.clock,
                   w.nextId, w.saves)
    && exists c :: Roused(w.clock, c, Met(w.objs, w'.objs, p)) &&
                   w'.clock == Push(c, Event(p, c.now + 5000, HpRegen))
  }

  /** The sheet is the stored one; hit points are cut to a hundred and ten more for each level beyond the first. */
  predicate StoredAs(s: Sheet, rank: Rank, hp: int, kills: seq<int>, inventory: seq<int>) {
    && s.rank == rank && s.kills == kills && s.inventory == inventory
    && s.maxHp == 90 + 10 * rank.level && s.hp == Min(hp, 90 + 10 * rank.level)
  }

  /** The player's account has been found. */
  ghost predicate Loads(w: World, w': World, p: int, at: Tile, rank: Rank, hp: int, kills: seq<int>,
                        inventory: seq<int>)
    requires p in w.objs
  {
    exists sheet: NormalSheet :: Enters(w, w', p, at, sheet) && StoredAs(sheet, rank, hp, kills, inventory)
  }

  /** A session goes, and with it sessions that cannot be told; those in play among them are saved, each once. */
  ghost predicate Leaves(w: World, w': World, p: int, fails: set<(int, int)>) {
    && w' == World(w'.objs, w.sheets, w.target, w.items, w.clock, w.nextId, w'.saves)
    && p !in w'.objs && (forall o :: o in w'.objs ==> o in w.objs && w'.objs[o] == w.objs[o])
    && (forall o :: o in w.objs && o !in w'.objs ==> IsPc(o) && (o == p || Unreachable(fails, o)))
    && exists log :: w'.saves == w.saves + log && SavedExactly(w.objs, w'.objs, log)
  }

  /** Some packet to `q` cannot be sent. */
  ghost predicate Unreachable(fails: set<(int, int)>, q: int) {
    exists k :: (q, k) in fails
  }

  /** Listed are the players that were in play and are gone. */
  ghost predicate SavedExactly(objs: Objs, objs': Objs, log: seq<int>) {
    NoDuplicates(log) && forall r :: r in log <==> Watching(objs, r) && r !in objs'
  }

  // ---- players ----

  /**
   One step: straight ahead unless the border or an obstacle is there, facing that way anyhow. NPCs that
   come into view are woken, and what lies on the tile goes into the bag.
   */
  ghost predicate Steps(obstacles: seq<bool>, w: World, w': World, p: int, dir: Direction)
    requires |obstacles| == WORLD_WIDTH * WORLD_HEIGHT && p in w.objs
  {
    var ahead := Ahead(w.objs[p].at, dir, 1);
    var to := if IsObstacle(obstacles, ahead) then w.objs[p].at else ahead;
    && p in w.sheets && p in w'.sheets
    && w' == World(w.objs[p := Pc(to, dir, Playing)],
                   w.sheets[p := w.sheets[p].(inventory := w'.sheets[p].inventory)],
                   w.target, w'.items, w'.clock, w.nextId, w.saves)
    && Items.Cleared(w.items, to, w'.items)
    && (forall slot: nat :: slot < ITEM_SLOT_COUNT ==>
          w'.sheets[p].inventory[slot] == w.sheets[p].inventory[slot] + Items.OnTile(w.items, to, slot))
    && Roused(w.clock, w'.clock, Met(w.objs, w'.objs, p))
  }

  /** One step, or two while the speed boost lasts. */
  ghost predicate Walks(obstacles: seq<bool>, w: World, w': World, p: int, dir: Direction, boosted: bool)
    requires |obstacles| == WORLD_WIDTH * WORLD_HEIGHT && p in w.objs
  {
    if boosted
    then exists mid :: Steps(obstacles, w, mid, p, dir) && p in mid.objs && Steps(obstacles, mid, w', p, dir)
    else Steps(obstacles, w, w', p, dir)
  }

  /** An attack on everything in reach, each victim's fate taking effect on the schedule in turn. */
  ghost predicate Attacks(w: World, w': World, p: int, skill: bool, boosts: set<int>) {
    && p in w.sheets
    && w' == World(w'.objs, w'.sheets, w'.target, w'.items, w'.clock, w.nextId, w.saves)
    && (exists fallen ::
          Battle(FieldOf(w), FieldOf(w'), Onslaught(p, skill, w.sheets[p].rank.level, boosts), w.objs.Keys, fallen))
    && exists hits :: HitInTurn(w.objs, w'.objs, p, skill, w.objs.Keys, hits, w.clock, w'.clock)
  }

  lemma Attacked(w: World, w': World, p: int, skill: bool, boosts: set<int>, fallen: seq<int>, hits: seq<int>)
    requires p in w.sheets
    requires Battle(FieldOf(w), FieldOf(w'), Onslaught(p, skill, w.sheets[p].rank.level, boosts), w.objs.Keys, fallen)
    requires HitInTurn(w.objs, w'.objs, p, skill, w.objs.Keys, hits, w.clock, w'.clock)
    requires w'.nextId == w.nextId && w'.saves == w.saves
    ensures Attacks(w, w', p, skill, boosts)
  {
  }

  ghost predicate Hits(w: World, w': World, p: int, n: int, boosted: bool)
    requires n in w.objs && w.objs[n].Npc?
  {
    && p in w.sheets && n in w'.objs && w'.objs[n].Npc?
    && Felt(FieldOf(w), FieldOf(w'), p, n, Blow(true, w.sheets[p].rank.level, boosted))
    && w' == World(w'.objs, w'.sheets, w'.target, w'.items, AfterBlow(w.clock, n, w'.objs[n]), w.nextId, w.saves)
  }

  /** A shot hits an NPC that stands in line, if there is one. */
  ghost predicate Shoots(obstacles: seq<bool>, w: World, w': World, p: int, boosted: bool)
    requires |obstacles| == WORLD_WIDTH * WORLD_HEIGHT && p in w.objs
  {
    if forall k, n :: !InLine(obstacles, w.objs, p, k, n) then w' == w
    else exists k, n :: InLine(obstacles, w.objs, p, k, n) && Hits(w, w', p, n, boosted)
  }

  lemma HitBy(w: World, w': World, p: int, n: int, boosted: bool)
    requires n in w.objs && w.objs[n].Npc? && p in w.sheets
    requires Felt(FieldOf(w), FieldOf(w'), p, n, Blow(true, w.sheets[p].rank.level, boosted))
    requires w'.clock == AfterBlow(w.clock, n, Struck(w.objs[n], Blow(true, w.sheets[p].rank.level, boosted)))
    requires w'.nextId == w.nextId && w'.saves == w.saves
    ensures Hits(w, w', p, n, boosted)
  {
  }

  ghost predicate Uses(w: World, w': World, p: int, itemType: int) {
    p in w.sheets && w' == w.(sheets := w.sheets[p := UsedItem(w.sheets[p], itemType)])
  }

  // ---- NPCs and events ----

  /** One tick of NPC `n`, which settles on quarry `t`, from its event to the next one or to sleep. */
  ghost predicate Ticks(obstacles: seq<bool>, w: World, w': World, n: int, t: int, cool: int, r: nat,
                        shielded: set<int>)
    requires |obstacles| == WORLD_WIDTH * WORLD_HEIGHT && IsActor(w.objs, n)
  {
    && n in w.target && Ticked(obstacles, w.objs, w'.objs, n)
    && TickDone(obstacles, w.objs, w.sheets, w'.objs, w'.sheets, n, w.target[n], t, r, shielded)
    && TickTimed(w.objs, w'.objs, n, AimOf(w.objs, w.sheets, n, w.target[n], t, shielded), cool, w.clock, w'.clock)
    && w' == World(w'.objs, w'.sheets,
                   w.target[n := TargetOf(w.objs, w.sheets, w'.objs, n, w.target[n], t, shielded)],
                   w.items, w'.clock, w.nextId, w.saves)
  }

  ghost predicate TicksOnce(obstacles: seq<bool>, w: World, w': World, n: int, r: nat, shielded: set<int>)
    requires |obstacles| == WORLD_WIDTH * WORLD_HEIGHT && IsActor(w.objs, n)
  {
    exists t, cool :: Ticks(obstacles, w, w', n, t, cool, r, shielded)
  }

  /** NPC `n` is back on tile `at`. */
  function Revived(w: World, n: int, at: Tile): World
    requires IsNpc(w.objs, n)
  {
    w.(objs := w.objs[n := Reborn(w.objs[n], at)], target := w.target[n := NOBODY])
  }

  /** And awake if a player sees it there. */
  ghost predicate Respawns(w: World, w': World, n: int, at: Tile)
    requires IsNpc(w.objs, n)
  {
    var w1 := Revived(w, n, at);
    w' == if Noticed(w1.objs, n) then w1.(clock := Woken(w1.clock, n)) else w1
  }

  /** Bosses return to their origin, others to the first free tile drawn. */
  ghost predicate Returns(obstacles: seq<bool>, w: World, w': World, n: int, draws: seq<(nat, nat)>)
    requires |obstacles| == WORLD_WIDTH * WORLD_HEIGHT && IsNpc(w.objs, n)
  {
    var o := w.objs[n];
    exists at :: Respawns(w, w', n, at) &&
                 if o.kind == Boss then at == o.origin else FirstFree(obstacles, o.origin, draws, at)
  }

  ghost predicate Regenerates(w: World, w': World, p: int) {
    && p in w.sheets
    && w' == w.(sheets := w.sheets[p := Regenerated(w.sheets[p])],
                clock := Push(w.clock, Event(p, w.clock.now + 5000, HpRegen)))
  }

  function TakenFrom(w: World): World
    requires w.clock.posted != []
  {
    w.(clock := Taken(w.clock))
  }

  /** The timer thread posts an earliest event that is due, if there is one. */
  ghost predicate Posts(w: World, w': World) {
    if exists e :: e in w.clock.timers && e.at <= w.clock.now then
      exists i: nat :: Earliest(w.clock.timers, i) && w.clock.timers[i].at <= w.clock.now &&
                       w' == w.(clock := Posted(w.clock, i))
    else w' == w
  }

  // ---- everything ----

  // Requests of sessions that are not in the right state change nothing.

  ghost function AfterConnect(w: World): iset<World> {
    iset w' | Connects(w, w')
  }

  ghost function AfterLogin(w: World, p: int): iset<World> {
    if InState(w.objs, p, Connected) then iset w' | Changes(w, w', p, AwaitingDb) else iset{w}
  }

  ghost function AfterBotLogin(w: World, p: int, at: Tile): iset<World> {
    if InState(w.objs, p, Connected) then iset w' | Enters(w, w', p, at, NEW_SHEET) else iset{w}
  }

  ghost function AfterLoaded(w: World, p: int, found: bool, at: Tile, rank: Rank, hp: int, kills: seq<int>,
                             inventory: seq<int>): iset<World> {
    if !InState(w.objs, p, AwaitingDb) then iset{w}
    else if found then iset w' | Loads(w, w', p, at, rank, hp, kills, inventory)
    else iset w' | Changes(w, w', p, LoggedOut)
  }

  ghost function AfterWalk(obstacles: seq<bool>, w: World, p: int, dir: Direction, boosted: bool): iset<World>
    requires |obstacles| == WORLD_WIDTH * WORLD_HEIGHT
  {
    if InState(w.objs, p, Playing) then iset w' | Walks(obstacles, w, w', p, dir, boosted) else iset{w}
  }

  /** An attack, or the skill if it has cooled down */
  ghost function AfterAttack(w: World, p: int, skill: bool, cooled: bool, boosts: set<int>): iset<World> {
    if InState(w.objs, p, Playing) && cooled then iset w' | Attacks(w, w', p, skill, boosts) else iset{w}
  }

  ghost function AfterFire(obstacles: seq<bool>, w: World, p: int, cooled: bool, boosted: bool): iset<World>
    requires |obstacles| == WORLD_WIDTH * WORLD_HEIGHT
  {
    if InState(w.objs, p, Playing) && cooled then iset w' | Shoots(obstacles, w, w', p, boosted) else iset{w}
  }

  ghost function AfterConsume(w: World, p: int, itemType: int): iset<World> {
    if InState(w.objs, p, Playing) then iset w' | Uses(w, w', p, itemType) else iset{w}
  }

  ghost function AfterHangup(w: World, p: int, fails: set<(int, int)>): iset<World> {
    if p in w.objs && IsPc(p) then iset w' | Leaves(w, w', p, fails) else iset{w}
  }

  ghost function AfterTime(w: World, ms: nat): iset<World> {
    iset{w.(clock := w.clock.(now := w.clock.now + ms))}
  }

  ghost function AfterTimer(w: World): iset<World> {
    iset w' | Posts(w, w')
  }

  // Events of objects that are gone, or of dead NPCs that should move, mean nothing.

  ghost function AfterMove(obstacles: seq<bool>, w: World, n: int, r: nat, shielded: set<int>): iset<World>
    requires |obstacles| == WORLD_WIDTH * WORLD_HEIGHT
  {
    if IsActor(w.objs, n) then iset w' | TicksOnce(obstacles, w, w', n, r, shielded) else iset{w}
  }

  ghost function AfterRegen(w: World, p: int): iset<World> {
    if InState(w.objs, p, Playing) then iset w' | Regenerates(w, w', p) else iset{w}
  }

  ghost function AfterRespawn(obstacles: seq<bool>, w: World, n: int, draws: seq<(nat, nat)>): iset<World>
    requires |obstacles| == WORLD_WIDTH * WORLD_HEIGHT
  {
    if IsNpc(w.objs, n) then iset w' | Returns(obstacles, w, w', n, draws) else iset{w}
  }

  /** A worker takes the oldest completion. */
  ghost function AfterWorker(obstacles: seq<bool>, w: World, draws: seq<(nat, nat)>, r: nat, shielded: set<int>)
      : iset<World>
    requires |obstacles| == WORLD_WIDTH * WORLD_HEIGHT
  {
    if w.clock.posted == [] then iset{w}
    else
      var e := w.clock.posted[0];
      match e.kind
      case NpcMove => AfterMove(obstacles, TakenFrom(w), e.id, r, shielded)
      case HpRegen => AfterRegen(TakenFrom(w), e.id)
      case NpcRespawn => AfterRespawn(obstacles, TakenFrom(w), e.id, draws)
  }

  /** All worlds an event may lead to. */
  ghost function Outcomes(obstacles: seq<bool>, w: World, s: Stimulus): iset<World>
    requires |obstacles| == WORLD_WIDTH * WORLD_HEIGHT
  {
    match s
    case Connect => AfterConnect(w)
    case Login(p) => AfterLogin(w, p)
    case BotLogin(p, at) => AfterBotLogin(w, p, at)
    case Loaded(p, found, at, rank, hp, kills, inventory) => AfterLoaded(w, p, found, at, rank, hp, kills, inventory)
    case Walk(p, dir, boosted) => AfterWalk(obstacles, w, p, dir, boosted)
    case Say(_) => iset{w}
    case Strike(p, boosts) => AfterAttack(w, p, false, true, boosts)
    case UseSkill(p, cooled, boosts) => AfterAttack(w, p, true, cooled, boosts)
    case Fire(p, cooled, boosted) => AfterFire(obstacles, w, p, cooled, boosted)
    case Consume(p, itemType) => AfterConsume(w, p, itemType)
    case Hangup(p, fails) => AfterHangup(w, p, fails)
    case Elapse(ms) => AfterTime(w, ms)
    case TimerTurn => AfterTimer(w)
    case WorkerTurn(draws, r, shielded) => AfterWorker(obstacles, w, draws, r, shielded)
  }

  // ---- whole runs ----

  /** The worlds a run goes through: every event of the script has its outcome. */
  ghost predicate IsTrace(obstacles: seq<bool>, script: seq<Stimulus>, trace: seq<World>) {
    && |obstacles| == WORLD_WIDTH * WORLD_HEIGHT && |trace| == |script| + 1
    && forall i :: 0 <= i < |script| ==> trace[i + 1] in Outcomes(obstacles, trace[i], script[i])
  }

  lemma TraceGoesOn(obstacles: seq<bool>, script: seq<Stimulus>, trace: seq<World>, s: Stimulus, w: World)
    requires IsTrace(obstacles, script, trace) && w in Outcomes(obstacles, trace[|script|], s)
    ensures IsTrace(obstacles, script + [s], trace + [w])
  {
    var script', trace' := script + [s], trace + [w];
    forall i | 0 <= i < |script'|
      ensures trace'[i + 1] in Outcomes(obstacles, trace'[i], script'[i])
    {
      if i < |script| {
        assert trace[i + 1] in Outcomes(obstacles, trace[i], script[i]);
      }
    }
  }

  // ---- what ticks come to ----

  /**
   A chase goes on: as long as its target lives and stays in range, an NPC is after it from tick to tick,
   and nobody else's target is touched.
   */
  lemma ChaseGoesOn(obstacles: seq<bool>, w: World, w': World, n: int, q: int, r: nat, shielded: set<int>)
    requires |obstacles| == WORLD_WIDTH * WORLD_HEIGHT && w' in AfterMove(obstacles, w, n, r, shielded)
    requires IsActor(w.objs, n) && w.objs[n].mode == Chase && n in w.target && w.target[n] == q
    requires OnTrail(w.objs, n, q) && !Fells(w.objs, w.sheets, n, q, shielded)
    requires IsActor(w'.objs, n) && OnTrail(w'.objs, n, q)
    ensures w'.target == w.target
  {
    var t, cool :| Ticks(obstacles, w, w', n, t, cool, r, shielded);
    QuarryKept(obstacles, w.objs, w.sheets, w'.objs, w'.sheets, n, q, t, r, shielded);
    Rewrite(w.target, n);
  }

  /** A roaming NPC with nobody in sight, or a peaceful one, takes one step of roaming. */
  lemma RoamingRoams(obstacles: seq<bool>, w: World, w': World, n: int, r: nat, shielded: set<int>)
    requires |obstacles| == WORLD_WIDTH * WORLD_HEIGHT && w' in AfterMove(obstacles, w, n, r, shielded)
    requires IsActor(w.objs, n) && InWorld(w.objs[n].at) && w.objs[n].mode == Roaming && n in w.target
    requires w.objs[n].kind == Peace || (w.target[n] == NOBODY && NoPrey(w.objs, n))
    ensures n in w'.objs && Roams(obstacles, w.objs[n], r, w'.objs[n].at, w'.objs[n].dir) && w'.sheets == w.sheets
    ensures forall q :: q in w.objs && q != n ==> q in w'.objs && w'.objs[q] == w.objs[q]
  {
    var t, cool :| Ticks(obstacles, w, w', n, t, cool, r, shielded);
    RoamStepExact(obstacles, w.objs[n], r);
    RoamStepExact(obstacles, InMode(w.objs[n], Roaming), r);
  }

  // ---- what time does not change ----

  /** Sessions pass through their states in this order, and never go back. */
  function Stage(status: Status): nat {
    match status
    case Connected => 0
    case AwaitingDb => 1
    case Playing => 2
    case LoggedOut => 3
  }

  /** Sessions have ids that have been handed out; NPCs have at most their full hit points. */
  ghost predicate Registered(objs: Objs, nextId: int, id: int) {
    id in objs ==>
      match objs[id]
      case Pc(_, _, _) => IsPc(id) && id < nextId
      case Npc(_, _, hp, maxHp, _, _, _, _) => !IsPc(id) && hp <= maxHp
  }

  ghost predicate AllRegistered(objs: Objs, nextId: int) {
    forall id {:trigger Registered(objs, nextId, id)} :: Registered(objs, nextId, id)
  }

  /**
   NPCs stay who they are, only a new session with a new id is ever added, and sessions only go forward
   through their states.
   */
  ghost predicate Continues(objs: Objs, nextId: int, objs': Objs, id: int) {
    && (id in objs && objs[id].Npc? ==>
          && id in objs' && objs'[id].Npc? && objs'[id].kind == objs[id].kind && objs'[id].origin == objs[id].origin
          && objs'[id].level == objs[id].level && objs'[id].maxHp == objs[id].maxHp)
    && (id in objs' && id !in objs ==> nextId <= id && objs'[id].Pc?)
    && (id in objs && objs[id].Pc? && id in objs' ==>
          objs'[id].Pc? && Stage(objs[id].status) <= Stage(objs'[id].status))
  }

  ghost predicate AllContinue(objs: Objs, nextId: int, objs': Objs) {
    forall id {:trigger Continues(objs, nextId, objs', id)} :: Continues(objs, nextId, objs', id)
  }

  /** World `w'` can come after `w`: ids are handed out once, saves are never taken back, time goes on. */
  ghost predicate Later(w: World, w': World) {
    && AllContinue(w.objs, w.nextId, w'.objs) && w.nextId <= w'.nextId && w.clock.now <= w'.clock.now
    && |w.saves| <= |w'.saves| && w'.saves[..|w.saves|] == w.saves
  }

  lemma LaterTrans(w: World, w': World, w'': World)
    requires Later(w, w') && Later(w', w'') && AllRegistered(w.objs, w.nextId)
    ensures Later(w, w'')
  {
    forall id {:trigger Continues(w.objs, w.nextId, w''.objs, id)}
      ensures Continues(w.objs, w.nextId, w''.objs, id)
    {
      assert Registered(w.objs, w.nextId, id);
      assert Continues(w.objs, w.nextId, w'.objs, id) && Continues(w'.objs, w'.nextId, w''.objs, id);
    }
    assert w''.saves[..|w.saves|] == w''.saves[..|w'.saves|][..|w.saves|];
  }

  /** An object kept, or replaced by itself at a later stage. */
  predicate Ages(o: Obj, o': Obj) {
    match o
    case Pc(_, _, status) => o'.Pc? && Stage(status) <= Stage(o'.status)
    case Npc(_, _, hp, maxHp, kind, _, origin, level) =>
      o'.Npc? && o'.kind == kind && o'.origin == origin && o'.level == level && o'.maxHp == maxHp && o'.hp <= maxHp
  }

  ghost predicate Kept(objs: Objs, objs': Objs, id: int) {
    && (id in objs' ==> id in objs) && (id in objs && !IsPc(id) ==> id in objs')
    && (id in objs && id in objs' ==> objs'[id] == objs[id] || Ages(objs[id], objs'[id]))
  }

  /** Nobody new, and whoever is left is the same or has aged. */
  lemma KeptContinue(objs: Objs, nextId: int, objs': Objs)
    requires AllRegistered(objs, nextId) && forall id {:trigger Kept(objs, objs', id)} :: Kept(objs, objs', id)
    ensures AllContinue(objs, nextId, objs') && AllRegistered(objs', nextId)
  {
    forall id {:trigger Continues(objs, nextId, objs', id)}
      ensures Continues(objs, nextId, objs', id)
    {
      assert Registered(objs, nextId, id) && Kept(objs, objs', id);
    }
    forall id {:trigger Registered(objs', nextId, id)}
      ensures Registered(objs', nextId, id)
    {
      assert Registered(objs, nextId, id) && Kept(objs, objs', id);
    }
  }

  lemma OneKept(objs: Objs, nextId: int, id: int, o: Obj, objs': Objs)
    requires AllRegistered(objs, nextId) && id in objs && objs' == objs[id := o] && Ages(objs[id], o)
    ensures AllContinue(objs, nextId, objs') && AllRegistered(objs', nextId)
  {
    forall x {:trigger Kept(objs, objs', x)}
      ensures Kept(objs, objs', x)
    {
    }
    KeptContinue(objs, nextId, objs');
  }

  lemma NothingHappened(w: World, w': World)
    requires AllRegistered(w.objs, w.nextId) && w'.objs == w.objs && w'.nextId == w.nextId && w'.saves == w.saves
    requires w.clock.now <= w'.clock.now
    ensures Later(w, w') && AllRegistered(w'.objs, w'.nextId)
  {
    forall x {:trigger Kept(w.objs, w.objs, x)}
      ensures Kept(w.objs, w.objs, x)
    {
    }
    KeptContinue(w.objs, w.nextId, w.objs);
  }

  lemma ConnectIsLater(w: World, w': World)
    requires AllRegistered(w.objs, w.nextId) && w' in AfterConnect(w)
    ensures Later(w, w') && AllRegistered(w'.objs, w'.nextId)
  {
    assert Registered(w.objs, w.nextId, w.nextId);
    forall id {:trigger Continues(w.objs, w.nextId, w'.objs, id)}
      ensures Continues(w.objs, w.nextId, w'.objs, id)
    {
      assert Registered(w.objs, w.nextId, id);
    }
    forall id {:trigger Registered(w'.objs, w'.nextId, id)}
      ensures Registered(w'.objs, w'.nextId, id)
    {
      assert Registered(w.objs, w.nextId, id);
    }
  }

  lemma HangupIsLater(w: World, w': World, p: int, fails: set<(int, int)>)
    requires AllRegistered(w.objs, w.nextId) && w' in AfterHangup(w, p, fails)
    ensures Later(w, w') && AllRegistered(w'.objs, w'.nextId)
  {
    forall id {:trigger Kept(w.objs, w'.objs, id)}
      ensures Kept(w.objs, w'.objs, id)
    {
    }
    KeptContinue(w.objs, w.nextId, w'.objs);
  }

  lemma EnterIsLater(w: World, w': World, p: int, at: Tile, sheet: NormalSheet)
    requires AllRegistered(w.objs, w.nextId) && p in w.objs && Enters(w, w', p, at, sheet)
    requires w.objs[p].Pc? && Stage(w.objs[p].status) < 2
    ensures Later(w, w') && AllRegistered(w'.objs, w'.nextId)
  {
    var c :| Roused(w.clock, c, Met(w.objs, w'.objs, p)) && w'.clock == Push(c, Event(p, c.now + 5000, HpRegen));
    RousedGrew(w.clock, c, Met(w.objs, w'.objs, p));
    OneKept(w.objs, w.nextId, p, w'.objs[p], w'.objs);
  }

  lemma BotLoginIsLater(w: World, w': World, p: int, at: Tile)
    requires AllRegistered(w.objs, w.nextId) && w' in AfterBotLogin(w, p, at)
    ensures Later(w, w') && AllRegistered(w'.objs, w'.nextId)
  {
    if InState(w.objs, p, Connected) {
      EnterIsLater(w, w', p, at, NEW_SHEET);
    } else {
      NothingHappened(w, w');
    }
  }

  lemma LoginIsLater(w: World, w': World, p: int)
    requires AllRegistered(w.objs, w.nextId) && w' in AfterLogin(w, p)
    ensures Later(w, w') && AllRegistered(w'.objs, w'.nextId)
  {
    if InState(w.objs, p, Connected) {
      OneKept(w.objs, w.nextId, p, w'.objs[p], w'.objs);
    } else {
      NothingHappened(w, w');
    }
  }

  lemma LoadedIsLater(w: World, w': World, p: int, found: bool, at: Tile, rank: Rank, hp: int, kills: seq<int>,
                      inventory: seq<int>)
    requires AllRegistered(w.objs, w.nextId) && w' in AfterLoaded(w, p, found, at, rank, hp, kills, inventory)
    ensures Later(w, w') && AllRegistered(w'.objs, w'.nextId)
  {
    if !InState(w.objs, p, AwaitingDb) {
      NothingHappened(w, w');
    } else if found {
      var sheet: NormalSheet :| Enters(w, w', p, at, sheet) && StoredAs(sheet, rank, hp, kills, inventory);
      EnterIsLater(w, w', p, at, sheet);
    } else {
      OneKept(w.objs, w.nextId, p, w'.objs[p], w'.objs);
    }
  }

  lemma StepIsLater(obstacles: seq<bool>, w: World, w': World, p: int, dir: Direction)
    requires |obstacles| == WORLD_WIDTH * WORLD_HEIGHT
    requires AllRegistered(w.objs, w.nextId) && InState(w.objs, p, Playing) && Steps(obstacles, w, w', p, dir)
    ensures Later(w, w') && AllRegistered(w'.objs, w'.nextId) && InState(w'.objs, p, Playing)
  {
    RousedGrew(w.clock, w'.clock, Met(w.objs, w'.objs, p));
    OneKept(w.objs, w.nextId, p, w'.objs[p], w'.objs);
  }

  lemma WalkIsLater(obstacles: seq<bool>, w: World, w': World, p: int, dir: Direction, boosted: bool)
    requires |obstacles| == WORLD_WIDTH * WORLD_HEIGHT
    requires AllRegistered(w.objs, w.nextId) && w' in AfterWalk(obstacles, w, p, dir, boosted)
    ensures Later(w, w') && AllRegistered(w'.objs, w'.nextId)
  {
    if !InState(w.objs, p, Playing) {
      NothingHappened(w, w');
    } else if boosted {
      var mid :| Steps(obstacles, w, mid, p, dir) && p in mid.objs && Steps(obstacles, mid, w', p, dir);
      StepIsLater(obstacles, w, mid, p, dir);
      StepIsLater(obstacles, mid, w', p, dir);
      LaterTrans(w, mid, w');
    } else {
      StepIsLater(obstacles, w, w', p, dir);
    }
  }

  lemma {:induction false} BlowsTakeNoTime(c: Clock, objs: Objs, hits: seq<int>)
    requires NpcsIn(objs, hits)
    ensures AfterBlows(c, objs, hits).now == c.now
    decreases |hits|
  {
    if hits != [] {
      assert hits[|hits| - 1] in hits;
      BlowsTakeNoTime(c, objs, hits[..|hits| - 1]);
    }
  }

  lemma AttackIsLater(w: World, w': World, p: int, skill: bool, cooled: bool, boosts: set<int>)
    requires AllRegistered(w.objs, w.nextId) && w' in AfterAttack(w, p, skill, cooled, boosts)
    ensures Later(w, w') && AllRegistered(w'.objs, w'.nextId)
  {
    if !(InState(w.objs, p, Playing) && cooled) {
      NothingHappened(w, w');
      return;
    }
    var a := Onslaught(p, skill, w.sheets[p].rank.level, boosts);
    var fallen :| Battle(FieldOf(w), FieldOf(w'), a, w.objs.Keys, fallen);
    var hits :| HitInTurn(w.objs, w'.objs, p, skill, w.objs.Keys, hits, w.clock, w'.clock);
    BlowsTakeNoTime(w.clock, w'.objs, hits);
    var now := w'.sheets[p].rank.level;
    forall id {:trigger Kept(w.objs, w'.objs, id)}
      ensures Kept(w.objs, w'.objs, id)
    {
      assert Fate(w.objs, w'.objs, a, w.objs.Keys, now, id) && Registered(w.objs, w.nextId, id);
    }
    KeptContinue(w.objs, w.nextId, w'.objs);
  }

  lemma FireIsLater(obstacles: seq<bool>, w: World, w': World, p: int, cooled: bool, boosted: bool)
    requires |obstacles| == WORLD_WIDTH * WORLD_HEIGHT
    requires AllRegistered(w.objs, w.nextId) && w' in AfterFire(obstacles, w, p, cooled, boosted)
    ensures Later(w, w') && AllRegistered(w'.objs, w'.nextId)
  {
    if !(InState(w.objs, p, Playing) && cooled) || (forall k, n :: !InLine(obstacles, w.objs, p, k, n)) {
      NothingHappened(w, w');
    } else {
      var k, n :| InLine(obstacles, w.objs, p, k, n) && Hits(w, w', p, n, boosted);
      assert Registered(w.objs, w.nextId, n);
      OneKept(w.objs, w.nextId, n, w'.objs[n], w'.objs);
    }
  }

  lemma TickTakesNoTime(objs0: Objs, objs: Objs, n: int, aim: int, cool: int, c: Clock, c': Clock)
    requires IsActor(objs0, n) && IsActor(objs, n) && TickTimed(objs0, objs, n, aim, cool, c, c')
    ensures c'.now == c.now
  {
    if objs0[n].mode != Client.Idle {
      var c1 :| Roused(c, c1, Startled(objs0, objs)) && c1.now == c'.now;
      RousedGrew(c, c1, Startled(objs0, objs));
    }
  }

  lemma TickIsLater(obstacles: seq<bool>, w: World, w': World, n: int, r: nat, shielded: set<int>)
    requires |obstacles| == WORLD_WIDTH * WORLD_HEIGHT
    requires AllRegistered(w.objs, w.nextId) && w' in AfterMove(obstacles, w, n, r, shielded)
    ensures Later(w, w') && AllRegistered(w'.objs, w'.nextId)
  {
    if !IsActor(w.objs, n) {
      NothingHappened(w, w');
      return;
    }
    var t, cool :| Ticks(obstacles, w, w', n, t, cool, r, shielded);
    var aim := AimOf(w.objs, w.sheets, n, w.target[n], t, shielded);
    TickTakesNoTime(w.objs, w'.objs, n, aim, cool, w.clock, w'.clock);
    forall id {:trigger Kept(w.objs, w'.objs, id)}
      ensures Kept(w.objs, w'.objs, id)
    {
      assert Spared(w.objs, w'.objs, id) || id == n;
      assert Registered(w.objs, w.nextId, id);
    }
    KeptContinue(w.objs, w.nextId, w'.objs);
  }

  lemma RespawnIsLater(obstacles: seq<bool>, w: World, w': World, n: int, draws: seq<(nat, nat)>)
    requires |obstacles| == WORLD_WIDTH * WORLD_HEIGHT
    requires AllRegistered(w.objs, w.nextId) && w' in AfterRespawn(obstacles, w, n, draws)
    ensures Later(w, w') && AllRegistered(w'.objs, w'.nextId)
  {
    if w'.objs == w.objs {
      NothingHappened(w, w');
    } else {
      OneKept(w.objs, w.nextId, n, w'.objs[n], w'.objs);
    }
  }

  lemma WorkerIsLater(obstacles: seq<bool>, w: World, w': World, draws: seq<(nat, nat)>, r: nat, shielded: set<int>)
    requires |obstacles| == WORLD_WIDTH * WORLD_HEIGHT
    requires AllRegistered(w.objs, w.nextId) && w' in AfterWorker(obstacles, w, draws, r, shielded)
    ensures Later(w, w') && AllRegistered(w'.objs, w'.nextId)
  {
    if w.clock.posted == [] {
      NothingHappened(w, w');
      return;
    }
    var e, w1 := w.clock.posted[0], TakenFrom(w);
    match e.kind {
      case NpcMove => TickIsLater(obstacles, w1, w', e.id, r, shielded);
      case HpRegen => NothingHappened(w1, w');
      case NpcRespawn => RespawnIsLater(obstacles, w1, w', e.id, draws);
    }
  }

  /** One event. */
  lemma OutcomeIsLater(obstacles: seq<bool>, w: World, s: Stimulus, w': World)
    requires |obstacles| == WORLD_WIDTH * WORLD_HEIGHT
    requires AllRegistered(w.objs, w.nextId) && w' in Outcomes(obstacles, w, s)
    ensures Later(w, w') && AllRegistered(w'.objs, w'.nextId)
  {
    match s {
      case Connect => ConnectIsLater(w, w');
      case Hangup(p, fails) => HangupIsLater(w, w', p, fails);
      case Walk(p, dir, boosted) => WalkIsLater(obstacles, w, w', p, dir, boosted);
      case Strike(p, boosts) => AttackIsLater(w, w', p, false, true, boosts);
      case UseSkill(p, cooled, boosts) => AttackIsLater(w, w', p, true, cooled, boosts);
      case Fire(p, cooled, boosted) => FireIsLater(obstacles, w, w', p, cooled, boosted);
      case WorkerTurn(draws, r, shielded) => WorkerIsLater(obstacles, w, w', draws, r, shielded);
      case Login(p) => LoginIsLater(w, w', p);
      case BotLogin(p, at) => BotLoginIsLater(w, w', p, at);
      case Loaded(p, found, at, rank, hp, kills, inventory) =>
        LoadedIsLater(w, w', p, found, at, rank, hp, kills, inventory);
      case Say(_) => NothingHappened(w, w');
      case Consume(_, _) => NothingHappened(w, w');
      case Elapse(_) => NothingHappened(w, w');
      case TimerTurn => NothingHappened(w, w');
    }
  }

  /**
   Over every run: an NPC keeps its kind, level, origin and full hit points, and never has more than these;
   a session goes through its states in order; an id that has been handed out is never handed out again,
   so whoever has left is gone for good; the list of saves only grows.
   */
  lemma {:induction false} RunGoesForward(obstacles: seq<bool>, script: seq<Stimulus>, trace: seq<World>,
                                          i: nat, j: nat)
    requires IsTrace(obstacles, script, trace) && AllRegistered(trace[0].objs, trace[0].nextId) && i <= j < |trace|
    ensures Later(trace[i], trace[j]) && AllRegistered(trace[i].objs, trace[i].nextId)
    decreases j
  {
    if i == j {
      if j > 0 {
        RunGoesForward(obstacles, script, trace, j - 1, j - 1);
        OutcomeIsLater(obstacles, trace[j - 1], script[j - 1], trace[j]);
      }
      NothingHappened(trace[i], trace[j]);
    } else {
      RunGoesForward(obstacles, script, trace, i, j - 1);
      RunGoesForward(obstacles, script, trace, j - 1, j - 1);
      OutcomeIsLater(obstacles, trace[j - 1], script[j - 1], trace[j]);
      LaterTrans(trace[i], trace[j - 1], trace[j]);
    }
  }
}
