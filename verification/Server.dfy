/**
 The game server: all shared state in one class, one method per handler. Every handler runs as one
 atomic step; each keeps every player's view exact, every client's table in step, and the schedule of
 NPC and player events intact.
 */
module Server {
  import opened Board
  import opened Client
  import opened Progression
  import opened Sectors
  import opened Agenda
  import opened Behaviour
  import opened Scene
  import opened Cascade
  import opened Combat
  import opened Schedule
  import opened Effects
  import AStar
  import AStarSpec
  import Items

  // How a loop splits a set into what is done and what is still to do.

  lemma StartSplit<T>(base: set<T>, whole: set<T>)
    ensures base + (whole - whole) == base && whole - whole == {}
  {
  }

  lemma NextSplit<T>(base: set<T>, whole: set<T>, todo: set<T>, x: T)
    requires todo <= whole && x in todo
    ensures base + (whole - todo) + {x} == base + (whole - (todo - {x}))
    ensures (whole - todo) + {x} == whole - (todo - {x})
  {
  }

  lemma EndSplit<T>(base: set<T>, whole: set<T>, todo: set<T>)
    requires todo == {}
    ensures base + (whole - todo) == base + whole && whole - todo == whole
  {
  }

  lemma DropSplit<T>(kept: set<T>, todo: set<T>, x: T)
    ensures kept + (todo - {x}) == if x in kept then kept + todo else kept + todo - {x}
  {
  }

  /** Exactly the players in the audience have been sent the message. */
  ghost predicate Told(n: Net, n': Net, audience: set<int>, m: Message) {
    n' == Broadcast(n, audience, m)
  }

  ghost predicate Replayed(outbox: map<int, seq<Message>>, tables: map<int, Table>) {
    && outbox.Keys == tables.Keys
    && forall q :: q in outbox ==> tables[q] == Replay(outbox[q])
  }

  ghost predicate HasGear(objs: Objs, sheets: map<int, NormalSheet>, target: map<int, int>, id: int) {
    id in objs ==> if IsPc(id) then id in sheets else id in target
  }

  ghost predicate Covered(objs: Objs, sheets: map<int, NormalSheet>, target: map<int, int>) {
    forall id {:trigger HasGear(objs, sheets, target, id)} :: HasGear(objs, sheets, target, id)
  }

  lemma StillCovered(objs: Objs, sheets: map<int, NormalSheet>, target: map<int, int>,
                     objs': Objs, sheets': map<int, NormalSheet>, target': map<int, int>)
    requires Covered(objs, sheets, target) && forall o :: o in objs' ==> o in objs
    requires (forall p :: p in sheets ==> p in sheets') && forall n :: n in target ==> n in target'
    ensures Covered(objs', sheets', target')
  {
    forall id {:trigger HasGear(objs', sheets', target', id)}
      ensures HasGear(objs', sheets', target', id)
    {
      assert HasGear(objs, sheets, target, id);
    }
  }

  lemma NewSessionCovered(objs: Objs, sheets: map<int, NormalSheet>, target: map<int, int>, id: int, o: Obj)
    requires Covered(objs, sheets, target) && IsPc(id)
    ensures Covered(objs[id := o], sheets[id := NEW_SHEET], target)
  {
    forall x {:trigger HasGear(objs[id := o], sheets[id := NEW_SHEET], target, x)}
      ensures HasGear(objs[id := o], sheets[id := NEW_SHEET], target, x)
    {
      assert HasGear(objs, sheets, target, x);
    }
  }

  class GameServer {
    const obstacles: seq<bool>
    const sectors: SectorManager
    const ground: Items.ItemMap

    var objs: Objs
    var sheets: map<int, NormalSheet>
    /** m_target_id of every NPC, NOBODY for none. */
    var target: map<int, int>

    /** m_visible_objects of every session. */
    var views: map<int, set<int>>
    /** Everything handed to do_send, per session and in order. */
    var outbox: map<int, seq<Message>>
    /** What each client makes of its messages; only talked about, never computed with. */
    ghost var tables: map<int, Table>

    var active: set<int>
    var timers: seq<Event>
    var posted: seq<Event>
    var now: int

    var nextId: int
    /** Sessions for which a save was pushed. */
    var saves: seq<int>

    ghost function TheNet(): Net
      reads this
    {
      Net(views, tables)
    }

    ghost function TheClock(): Clock
      reads this
    {
      Clock(active, timers, posted, now)
    }

    ghost function TheField(): Field
      reads this, ground
    {
      Field(objs, target, sheets, ground.items)
    }

    ghost function TheWorld(): World
      reads this, ground
    {
      World(objs, sheets, target, ground.items, TheClock(), nextId, saves)
    }

    /** Each table is the replay of the messages sent. */
    ghost predicate Wired()
      reads this
    {
      Replayed(outbox, tables)
    }

    ghost predicate Tracked()
      reads this, sectors
    {
      Tracks(Placed(objs), sectors.cells)
    }

    /** The per-object side tables cover the objects. */
    ghost predicate Equipped()
      reads this
    {
      |obstacles| == WORLD_WIDTH * WORLD_HEIGHT && nextId >= 1 && Covered(objs, sheets, target)
    }

    /** The invariant between handlers (`ex` is NOBODY), and inside the tick of NPC `ex`. */
    ghost predicate Valid(ex: int)
      reads this, sectors
    {
      && Wired() && Tracked() && Equipped()
      && Exact(objs, TheNet())
      && Scheduled(objs, TheClock(), ex)
      && NoLostWakeUp(objs, views, active)
      && Regenerating(objs, TheClock(), nextId, NOBODY)
    }

    /**
     Player `p` has changed place and nobody has been told yet; `rx` is `p` if its first regeneration
     event is still to be pushed.
     */
    ghost predicate Moving(p: int, ex: int, rx: int)
      reads this, sectors
    {
      && Wired() && Tracked() && Equipped()
      && p in views && Linking(objs, TheNet(), p, views[p], {})
      && Scheduled(objs, TheClock(), ex)
      && NoLostWakeUp(objs, views, active)
      && Regenerating(objs, TheClock(), nextId, rx)
    }

    /** An empty world on the given map. */
    constructor (map0: seq<bool>)
      requires |map0| == WORLD_WIDTH * WORLD_HEIGHT
      ensures Valid(NOBODY) && fresh(sectors) && fresh(ground) && obstacles == map0 && objs == map[] && views == map[]
      ensures active == {} && timers == [] && posted == [] && saves == []
    {
      obstacles := map0;
      sectors := new SectorManager();
      ground := new Items.ItemMap();
      objs, sheets, target := map[], map[], map[];
      views, outbox, tables := map[], map[], map[];
      active, timers, posted, now := {}, [], [], 0;
      nextId, saves := 1, [];
    }

    /** One step of InitializeNPC: a new NPC, alive and asleep, is placed before any player exists. */
    method AddNpc(n: int, npc: Obj)
      requires Valid(NOBODY) && n !in objs && !IsPc(n) && npc.Npc? && npc.maxHp > 0 && npc.hp == npc.maxHp
      requires InWorld(npc.at) && InWorld(npc.origin) && views == map[]
      requires Outstanding(TheClock(), n, NpcMove) == Outstanding(TheClock(), n, NpcRespawn) == 0 && n !in active
      modifies this`objs, this`target, sectors
      ensures Valid(NOBODY) && objs == old(objs)[n := npc]
    {
      PlacedAppear(objs, sectors.cells, n, npc);
      NobodyWatching(objs[n := npc], TheNet());
      NewNpcScheduled(objs, TheClock(), n, npc);
      RegenUnaffected(objs, TheClock(), objs[n := npc], TheClock(), nextId, NOBODY);
      forall id {:trigger HasGear(objs[n := npc], sheets, target[n := NOBODY], id)}
        ensures HasGear(objs[n := npc], sheets, target[n := NOBODY], id)
      {
        assert HasGear(objs, sheets, target, id);
      }
      sectors.AddObject(n, npc.at);
      Enlist(n, npc);
    }

    method Enlist(n: int, npc: Obj)
      modifies this`objs, this`target
      ensures objs == old(objs)[n := npc] && target == old(target)[n := NOBODY]
    {
      objs, target := objs[n := npc], target[n := NOBODY];
    }

    // ---- messages ----

    /** do_send of one packet */
    method Send(p: int, m: Message)
      requires Wired() && p in outbox
      modifies this`outbox, this`tables
      ensures Wired() && TheNet() == Tell(old(TheNet()), p, m)
      ensures outbox == old(outbox)[p := old(outbox)[p] + [m]]
    {
      ReplayOneMore(outbox[p], m);
      outbox := outbox[p := outbox[p] + [m]];
      tables := tables[p := Handle(tables[p], m)];
    }

    predicate InPlay(o: int)
      reads this
    {
      o in objs && (objs[o].Pc? ==> objs[o].status == Playing)
    }

    method SendAdd(p: int, o: int)
      requires Wired() && p in outbox && p in views
      modifies this`views, this`outbox, this`tables
      ensures Wired() && TheNet() == if InPlay(o) then AddFor(objs, old(TheNet()), p, o) else old(TheNet())
    {
      if !InPlay(o) || o in views[p] {
        return;
      }
      views := views[p := views[p] + {o}];
      Send(p, AddMessage(o, objs[o]));
    }

    method SendRemove(p: int, o: int)
      requires Wired() && p in outbox && p in views
      modifies this`views, this`outbox, this`tables
      ensures Wired() && TheNet() == RemoveFor(old(TheNet()), p, o)
    {
      if o !in views[p] {
        return;
      }
      views := views[p := views[p] - {o}];
      Send(p, RemovePlayer(o));
    }

    method SendMove(p: int, o: int)
      requires Wired() && p in outbox
      modifies this`outbox, this`tables
      ensures Wired() && TheNet() == if InPlay(o) then MoveFor(objs, old(TheNet()), p, o) else old(TheNet())
    {
      if !InPlay(o) {
        return;
      }
      Send(p, MovePlayer(o, objs[o].at, objs[o].dir));
    }

    // ---- waking up NPCs ----

    method WakeUp(n: int, ghost ex: int)
      requires IsNpc(objs, n) && objs[n].hp > 0 && Scheduled(objs, TheClock(), ex)
      modifies this`active, this`timers
      ensures TheClock() == Woken(old(TheClock()), n) && active == old(active) + {n}
      ensures Scheduled(objs, TheClock(), ex)
    {
      WakeKeeps(objs, TheClock(), ex, n);
      if n in active {
        return;
      }
      active := active + {n};
      timers := timers + [Event(n, now + MOVE_COOL_TIME, NpcMove)];
    }

    // ---- update_player_view ----

    /** The scan of the nine sectors around `p`, filtered by state and range. */
    method ScanView(p: int) returns (seen: set<int>)
      requires Tracked() && Shaped(objs) && p in objs
      ensures forall o :: o in seen <==> Sees(objs, p, o)
    {
      ghost var where := Placed(objs);
      var ids := sectors.Query(objs[p].at, where);
      seen := {};
      for i := 0 to |ids|
        invariant forall o :: o in seen <==> o in ids[..i] && Sees(objs, p, o)
      {
        var o := ids[i];
        assert ids[..i + 1] == ids[..i] + [o];
        assert o in where && Shown(objs[o]);
        if o != p && InPlay(o) && Within(objs[p].at, objs[o].at, VIEW_RANGE) {
          seen := seen + {o};
        }
      }
      forall o | Sees(objs, p, o)
        ensures o in ids
      {
        WithinSectorSizeTouches(where[o], objs[p].at);
      }
      assert ids[..|ids|] == ids;
    }

    /** The situation inside the loops of update_player_view. */
    ghost predicate Updating(p: int, links: set<int>, done: set<int>, ex: int)
      reads this
    {
      && Wired() && Linking(objs, TheNet(), p, links, done) && OwnPlace(objs, TheNet(), p)
      && Scheduled(objs, TheClock(), ex) && NoLostWakeUp(objs, views, active)
    }

    /** send_add_object on both sides */
    method AddBoth(p: int, o: int)
      requires Wired() && p in outbox && p in views && p in objs && InPlay(p) && InPlay(o)
      requires IsPc(o) ==> o in outbox && o in views
      modifies this`views, this`outbox, this`tables
      ensures Wired() && TheNet() == Meet(objs, old(TheNet()), p, o)
    {
      SendAdd(p, o);
      if IsPc(o) {
        SendAdd(o, p);
      }
    }

    method MeetObject(p: int, o: int, ghost links: set<int>, ghost done: set<int>, ghost ex: int)
      requires Updating(p, links, done, ex) && Sees(objs, p, o) && o !in links
      modifies this`views, this`outbox, this`tables, this`active, this`timers
      ensures Updating(p, links + {o}, done + {o}, ex)
      ensures TheClock() == if IsPc(o) then old(TheClock()) else Woken(old(TheClock()), o)
    {
      MeetKeeps(objs, TheNet(), p, links, done, o);
      AwakeAfterMeet(objs, TheNet(), active, p, o, if IsPc(o) then active else active + {o});
      AddBoth(p, o);
      WakeIfNpc(o, ex);
    }

    method WakeIfNpc(o: int, ghost ex: int)
      requires (IsPc(o) || (IsNpc(objs, o) && objs[o].hp > 0)) && Scheduled(objs, TheClock(), ex)
      modifies this`active, this`timers
      ensures Scheduled(objs, TheClock(), ex)
      ensures TheClock() == if IsPc(o) then old(TheClock()) else Woken(old(TheClock()), o)
      ensures active == if IsPc(o) then old(active) else old(active) + {o}
    {
      if !IsPc(o) {
        WakeUp(o, ex);
      }
    }

    method GreetObject(p: int, o: int, ghost links: set<int>, ghost done: set<int>, ghost ex: int)
      requires Updating(p, links, done, ex) && o in links
      modifies this`outbox, this`tables
      ensures Updating(p, links, done + {o}, ex)
    {
      GreetKeeps(objs, TheNet(), p, links, done, o);
      MoveOther(p, o);
    }

    /** send_move_object to the other side, if it is a player */
    method MoveOther(p: int, o: int)
      requires Wired() && p in objs && InPlay(p) && (IsPc(o) ==> o in outbox)
      modifies this`outbox, this`tables
      ensures Wired() && TheNet() == Greet(objs, old(TheNet()), p, o)
    {
      if IsPc(o) {
        SendMove(o, p);
      }
    }

    /** send_remove_object on both sides */
    method RemoveBoth(p: int, o: int)
      requires Wired() && p in outbox && p in views && (IsPc(o) ==> o in objs && o in outbox && o in views)
      modifies this`views, this`outbox, this`tables
      ensures Wired() && TheNet() == Part(old(TheNet()), p, o)
    {
      SendRemove(p, o);
      if IsPc(o) && o in objs {
        SendRemove(o, p);
      }
    }

    method PartFrom(p: int, o: int, ghost links: set<int>, ghost done: set<int>, ghost ex: int)
      requires Updating(p, links, done, ex) && o in links
      modifies this`views, this`outbox, this`tables
      ensures Updating(p, links - {o}, done, ex)
    {
      PartKeeps(objs, TheNet(), p, links, done, o);
      AwakeAfterPart(objs, TheNet(), active, p, o);
      RemoveBoth(p, o);
    }

    /** `p` has just moved or appeared; whatever it had in view before, everything is exact afterwards. */
    method UpdatePlayerView(p: int, ghost ex: int, ghost rx: int)
      requires Moving(p, ex, rx)
      modifies this`views, this`outbox, this`tables, this`active, this`timers
      ensures Wired() && Tracked() && Equipped() && Exact(objs, TheNet())
      ensures Scheduled(objs, TheClock(), ex) && NoLostWakeUp(objs, views, active)
      ensures Regenerating(objs, TheClock(), nextId, rx)
      ensures p in views && Roused(old(TheClock()), TheClock(), Npcs(views[p] - old(views)[p]))
    {
      var oldView := views[p];
      var newView := ScanView(p);
      RefreshView(p, oldView, newView, ex);
      ScanIsView(objs, TheNet(), p, newView);
      RousedGrew(old(TheClock()), TheClock(), Npcs(newView - oldView));
      RegenGrew(objs, old(TheClock()), TheClock(), nextId, rx);
    }

    /** The packets of update_player_view, once both views are known. */
    method RefreshView(p: int, oldView: set<int>, newView: set<int>, ghost ex: int)
      requires Wired() && p in views && Linking(objs, TheNet(), p, oldView, {})
      requires Scheduled(objs, TheClock(), ex) && NoLostWakeUp(objs, views, active)
      requires forall o :: o in newView <==> Sees(objs, p, o)
      modifies this`views, this`outbox, this`tables, this`active, this`timers
      ensures Wired() && Exact(objs, TheNet())
      ensures Scheduled(objs, TheClock(), ex) && NoLostWakeUp(objs, views, active)
      ensures Roused(old(TheClock()), TheClock(), Npcs(newView - oldView))
    {
      ghost var links := GreetAll(p, oldView, newView, ex);
      PartAll(p, oldView, newView, links, ex);
    }

    method GreetAll(p: int, oldView: set<int>, newView: set<int>, ghost ex: int) returns (ghost links: set<int>)
      requires Wired() && p in views && Linking(objs, TheNet(), p, oldView, {})
      requires Scheduled(objs, TheClock(), ex) && NoLostWakeUp(objs, views, active)
      requires forall o :: o in newView <==> Sees(objs, p, o)
      modifies this`views, this`outbox, this`tables, this`active, this`timers
      ensures Updating(p, links, newView, ex)
      ensures links == oldView + newView && Roused(old(TheClock()), TheClock(), Npcs(newView - oldView))
    {
      TellSelf(p, oldView);
      links := MeetAll(p, oldView, newView, ex);
    }

    /** The player is told its own new place. */
    method TellSelf(p: int, ghost oldView: set<int>)
      requires Wired() && Linking(objs, TheNet(), p, oldView, {})
      modifies this`outbox, this`tables
      ensures Wired() && Linking(objs, TheNet(), p, oldView, {}) && OwnPlace(objs, TheNet(), p)
    {
      SelfMoveKeeps(objs, TheNet(), p, oldView);
      SendMove(p, p);
    }

    method MeetOrGreet(p: int, o: int, oldView: set<int>, ghost links: set<int>, ghost done: set<int>, ghost ex: int)
      requires Updating(p, links, done, ex) && Sees(objs, p, o) && (o in links <==> o in oldView)
      modifies this`views, this`outbox, this`tables, this`active, this`timers
      ensures Updating(p, links + {o}, done + {o}, ex)
      ensures TheClock() == if IsPc(o) || o in oldView then old(TheClock()) else Woken(old(TheClock()), o)
    {
      if o !in oldView {
        MeetObject(p, o, links, done, ex);
      } else {
        assert links + {o} == links;
        GreetObject(p, o, links, done, ex);
      }
    }

    /** First loop: everything in the new view is added, or told that `p` has moved. */
    method MeetAll(p: int, oldView: set<int>, newView: set<int>, ghost ex: int) returns (ghost links: set<int>)
      requires Updating(p, oldView, {}, ex) && forall o :: o in newView <==> Sees(objs, p, o)
      modifies this`views, this`outbox, this`tables, this`active, this`timers
      ensures Updating(p, links, newView, ex)
      ensures links == oldView + newView && Roused(old(TheClock()), TheClock(), Npcs(newView - oldView))
    {
      var todo := newView;
      StartSplit(oldView, newView);
      NobodyRoused(TheClock());
      RousedSame(TheClock(), TheClock(), {}, Npcs(newView - todo - oldView));
      while todo != {}
        invariant todo <= newView && Updating(p, oldView + (newView - todo), newView - todo, ex)
        invariant Roused(old(TheClock()), TheClock(), Npcs(newView - todo - oldView))
        decreases todo
      {
        var o := Pick(todo);
        ghost var c := TheClock();
        MeetOrGreet(p, o, oldView, oldView + (newView - todo), newView - todo, ex);
        OneMoreMet(old(TheClock()), c, TheClock(), newView, oldView, todo, o);
        NextSplit(oldView, newView, todo, o);
        todo := todo - {o};
      }
      EndSplit(oldView, newView, todo);
      links := oldView + newView;
    }

    method PartUnlessSeen(p: int, o: int, newView: set<int>, ghost links: set<int>, ghost ex: int)
        returns (ghost links': set<int>)
      requires Updating(p, links, newView, ex) && o in links
      modifies this`views, this`outbox, this`tables
      ensures Updating(p, links', newView, ex) && links' == if o in newView then links else links - {o}
    {
      links' := links;
      if o !in newView {
        PartFrom(p, o, links, newView, ex);
        links' := links - {o};
      }
    }

    /** Second loop: everything that is no longer in view is removed, on both sides. */
    method PartAll(p: int, oldView: set<int>, newView: set<int>, ghost links0: set<int>, ghost ex: int)
      requires Updating(p, links0, newView, ex) && links0 == oldView + newView
      requires forall o :: o in newView <==> Sees(objs, p, o)
      modifies this`views, this`outbox, this`tables
      ensures Wired() && Exact(objs, TheNet()) && NoLostWakeUp(objs, views, active)
    {
      ghost var links := links0;
      var todo := oldView;
      while todo != {}
        invariant todo <= oldView && Updating(p, links, newView, ex)
        invariant links == newView + todo
        decreases todo
      {
        var o := Pick(todo);
        links := PartUnlessSeen(p, o, newView, links, ex);
        DropSplit(newView, todo, o);
        todo := todo - {o};
      }
      FinishLinking(objs, TheNet(), p, links, newView);
    }

    // ---- players moving ----

    /** The tile one step further, or the same tile at the border or in front of an obstacle. */
    function Stepped(at: Tile, dir: Direction): Tile
      requires |obstacles| == WORLD_WIDTH * WORLD_HEIGHT
    {
      var next := match dir
        case Up => if at.y > 0 then at.(y := at.y - 1) else at
        case Down => if at.y < WORLD_HEIGHT - 1 then at.(y := at.y + 1) else at
        case Left => if at.x > 0 then at.(x := at.x - 1) else at
        case Right => if at.x < WORLD_WIDTH - 1 then at.(x := at.x + 1) else at;
      if IsObstacle(obstacles, next) then at else next
    }

    /** A step leads straight ahead, unless the border of the world or an obstacle is there. */
    lemma SteppedIsAhead(at: Tile, dir: Direction)
      requires |obstacles| == WORLD_WIDTH * WORLD_HEIGHT && InWorld(at)
      ensures Stepped(at, dir) == if IsObstacle(obstacles, Ahead(at, dir, 1)) then at else Ahead(at, dir, 1)
      ensures InWorld(Stepped(at, dir))
    {
    }

    /** Put a player down somewhere, without telling anybody. */
    method Place(p: int, o: Obj, ghost ex: int)
      requires Valid(ex) && Watching(objs, p) && o.Pc? && o.status == Playing && InWorld(o.at)
      modifies this`objs, sectors
      ensures Moving(p, ex, NOBODY) && objs == old(objs)[p := o]
    {
      var from := objs[p].at;
      PlacedMove(objs, sectors.cells, p, o);
      PlayerChanges(p, o, ex);
      StartLinking(objs, TheNet(), p, objs[p := o]);
      objs := objs[p := o];
      sectors.UpdateObject(p, from, o.at);
    }

    /** The loop at the end of do_move: everything on the player's tile goes into its bag. */
    method TakeItems(p: int)
      requires Valid(NOBODY) && Watching(objs, p)
      modifies this`sheets, ground
      ensures Valid(NOBODY) && Items.Cleared(old(ground.items), objs[p].at, ground.items)
      ensures p in old(sheets) && p in sheets
      ensures sheets == old(sheets)[p := old(sheets)[p].(inventory := sheets[p].inventory)]
      ensures forall slot: nat :: slot < ITEM_SLOT_COUNT ==>
                sheets[p].inventory[slot] ==
                old(sheets)[p].inventory[slot] + Items.OnTile(old(ground.items), objs[p].at, slot)
    {
      assert HasGear(objs, sheets, target, p);
      var bag := ground.PickUp(objs[p].at, sheets[p].inventory);
      SetSheet(p, sheets[p].(inventory := bag), NOBODY);
    }

    method SetSheet(p: int, sheet: NormalSheet, ghost ex: int)
      requires Valid(ex) && p in sheets
      modifies this`sheets
      ensures Valid(ex) && sheets == old(sheets)[p := sheet]
    {
      StillCovered(objs, sheets, target, objs, sheets[p := sheet], target);
      sheets := sheets[p := sheet];
    }

    /** The first part of do_move: the player steps, and everybody around it learns of it. */
    method TakeStep(p: int, dir: Direction)
      requires Valid(NOBODY) && Watching(objs, p)
      modifies this`objs, this`views, this`outbox, this`tables, this`active, this`timers, sectors
      ensures Valid(NOBODY) && objs == old(objs)[p := Pc(Stepped(old(objs)[p].at, dir), dir, Playing)]
      ensures Roused(old(TheClock()), TheClock(), Met(old(objs), objs, p))
    {
      ghost var objs0, net0, c0 := objs, TheNet(), TheClock();
      Place(p, Pc(Stepped(objs[p].at, dir), dir, Playing), NOBODY);
      UpdatePlayerView(p, NOBODY, NOBODY);
      MetAreRoused(objs0, net0, c0, p);
    }

    /** do_move, with the facing that C2S_MOVE sets just before. */
    method DoMove(p: int, dir: Direction)
      requires Valid(NOBODY) && Watching(objs, p)
      modifies this`objs, this`sheets, this`views, this`outbox, this`tables, this`active, this`timers, sectors, ground
      ensures Valid(NOBODY)
      ensures objs == old(objs)[p := Pc(Stepped(old(objs)[p].at, dir), dir, Playing)]
      ensures Roused(old(TheClock()), TheClock(), Met(old(objs), objs, p))
      ensures Items.Cleared(old(ground.items), objs[p].at, ground.items)
      ensures p in old(sheets) && p in sheets
      ensures sheets == old(sheets)[p := old(sheets)[p].(inventory := sheets[p].inventory)]
      ensures forall slot: nat :: slot < ITEM_SLOT_COUNT ==>
                sheets[p].inventory[slot] ==
                old(sheets)[p].inventory[slot] + Items.OnTile(old(ground.items), objs[p].at, slot)
      ensures Steps(obstacles, old(TheWorld()), TheWorld(), p, dir)
    {
      SteppedIsAhead(objs[p].at, dir);
      TakeStep(p, dir);
      TakeItems(p);
    }

    /** The NPCs the view of `p` has gained are those it has come to see. */
    lemma MetAreRoused(objs0: Objs, net0: Net, c0: Clock, p: int)
      requires Exact(objs0, net0) && Exact(objs, TheNet()) && p in net0.views && p in views && Watching(objs, p)
      requires Roused(c0, TheClock(), Npcs(views[p] - net0.views[p]))
      ensures Roused(c0, TheClock(), Met(objs0, objs, p))
    {
      MetAreNew(objs0, net0, objs, TheNet(), p);
      RousedSame(c0, TheClock(), Npcs(views[p] - net0.views[p]), Met(objs0, objs, p));
    }

    /** A player moving or turning concerns neither the NPC schedule nor lost wake-ups nor the side tables. */
    lemma PlayerChanges(p: int, o: Obj, ex: int)
      requires Valid(ex) && Watching(objs, p) && o.Pc? && o.status == Playing && InWorld(o.at)
      ensures Regenerating(objs[p := o], TheClock(), nextId, NOBODY)
      ensures Scheduled(objs[p := o], TheClock(), ex) && NoLostWakeUp(objs[p := o], views, active)
      ensures Shaped(objs[p := o])
      ensures Covered(objs[p := o], sheets, target)
    {
      forall n | IsNpc(objs[p := o], n)
        ensures n != p && IsNpc(objs, n)
      {
      }
      StillCovered(objs, sheets, target, objs[p := o], sheets, target);
      SameLives(objs, objs[p := o], TheClock(), ex);
      RegenMoved(objs, TheClock(), p, o, nextId, NOBODY);
      StillAwake(objs, views, active, objs[p := o], views, active);
    }

    /** C2S_MOVE; with the speed boost the player steps twice. */
    method Move(p: int, dir: Direction, boosted: bool)
      requires Valid(NOBODY) && Watching(objs, p)
      modifies this`objs, this`sheets, this`views, this`outbox, this`tables, this`active, this`timers, sectors, ground
      ensures Valid(NOBODY)
      ensures var once := Stepped(old(objs)[p].at, dir);
        objs == old(objs)[p := Pc(if boosted then Stepped(once, dir) else once, dir, Playing)]
      ensures p in old(sheets) && p in sheets
      ensures sheets == old(sheets)[p := old(sheets)[p].(inventory := sheets[p].inventory)]
      ensures Walks(obstacles, old(TheWorld()), TheWorld(), p, dir, boosted)
    {
      ghost var objs0, sheets0 := objs, sheets;
      DoMove(p, dir);
      if boosted {
        ghost var once, sheet := objs[p], sheets[p];
        DoMove(p, dir);
        Overwrite(objs0, p, once, objs[p]);
        Overwrite(sheets0, p, sheet, sheets[p]);
      }
    }

    // ---- a player dies ----

    /** The last packet to the player tells it its own hit points, as they are. */
    ghost predicate KnowsItself(p: int)
      reads this
    {
      && p in outbox && p in sheets && outbox[p] != []
      && outbox[p][|outbox[p]| - 1] == StatInfo(p, sheets[p].hp, sheets[p].maxHp, Idle)
    }

    /** The last two packets to the player tell it where it is, and its hit points. */
    ghost predicate KnowsItsPlace(p: int)
      reads this
    {
      && KnowsItself(p) && p in objs && |outbox[p]| >= 2
      && outbox[p][|outbox[p]| - 2] == AvatarInfo(p, objs[p].at, objs[p].dir)
    }

    /** send_stat_info about the player itself, which leaves its object table alone */
    method SendOwnStat(p: int)
      requires Wired() && p in outbox && p in sheets && tables[p].me == p
      modifies this`outbox, this`tables
      ensures Wired() && TheNet() == old(TheNet()) && KnowsItself(p)
      ensures p in outbox && |outbox[p]| == |old(outbox)[p]| + 1 && outbox[p][..|old(outbox)[p]|] == old(outbox)[p]
    {
      assert Handle(tables[p], StatInfo(p, sheets[p].hp, sheets[p].maxHp, Idle)) == tables[p];
      Rewrite(tables, p);
      Send(p, StatInfo(p, sheets[p].hp, sheets[p].maxHp, Idle));
    }

    /** A player in play is sent its own stats. */
    method Report(p: int, ghost ex: int)
      requires Valid(ex) && Watching(objs, p) && p in sheets
      modifies this`outbox, this`tables
      ensures Valid(ex) && KnowsItself(p)
    {
      SendOwnStat(p);
    }

    /** The avatar and stat packets a player is sent when it is put somewhere else. */
    method SendAvatar(p: int, ghost ex: int, ghost rx: int)
      requires Moving(p, ex, rx)
      modifies this`outbox, this`tables
      ensures Moving(p, ex, rx) && KnowsItsPlace(p)
    {
      assert HasGear(objs, sheets, target, p);
      TellAvatar(p);
    }

    method TellAvatar(p: int)
      requires Wired() && p in views && p in sheets && Linking(objs, TheNet(), p, views[p], {})
      modifies this`outbox, this`tables
      ensures Wired() && Linking(objs, TheNet(), p, views[p], {}) && KnowsItsPlace(p)
    {
      AvatarKeeps(objs, TheNet(), p, views[p]);
      Send(p, AvatarInfo(p, objs[p].at, objs[p].dir));
      ghost var sent := outbox[p];
      SendOwnStat(p);
      assert outbox[p][..|sent|][|sent| - 1] == sent[|sent| - 1];
    }

    method LoseExperience(p: int, ghost ex: int)
      requires Valid(ex) && Watching(objs, p)
      modifies this`sheets
      ensures Valid(ex) && p in old(sheets) && sheets == old(sheets)[p := Death(old(sheets)[p])]
    {
      assert HasGear(objs, sheets, target, p);
      HalvingKeepsNormal(sheets[p].rank);
      StillCovered(objs, sheets, target, objs, sheets[p := Death(sheets[p])], target);
      sheets := sheets[p := Death(sheets[p])];
    }

    /** Half the experience is lost and the player returns to the spawn point. */
    method PlayerDie(p: int, ghost ex: int)
      requires Valid(ex) && Watching(objs, p)
      modifies this`objs, this`sheets, this`views, this`outbox, this`tables, this`active, this`timers, sectors
      ensures Valid(ex) && objs == old(objs)[p := Pc(PC_SPAWN, old(objs)[p].dir, Playing)]
      ensures Roused(old(TheClock()), TheClock(), Met(old(objs), objs, p))
      ensures p in old(sheets) && sheets == old(sheets)[p := Death(old(sheets)[p])]
    {
      LoseExperience(p, ex);
      ReturnToSpawn(p, ex);
    }

    method ReturnToSpawn(p: int, ghost ex: int)
      requires Valid(ex) && Watching(objs, p)
      modifies this`objs, this`views, this`outbox, this`tables, this`active, this`timers, sectors
      ensures Valid(ex) && objs == old(objs)[p := Pc(PC_SPAWN, old(objs)[p].dir, Playing)]
      ensures Roused(old(TheClock()), TheClock(), Met(old(objs), objs, p))
    {
      ghost var objs0, net0, c0 := objs, TheNet(), TheClock();
      PlaceAtSpawn(p, ex);
      UpdatePlayerView(p, ex, NOBODY);
      MetAreRoused(objs0, net0, c0, p);
    }

    method PlaceAtSpawn(p: int, ghost ex: int)
      requires Valid(ex) && Watching(objs, p)
      modifies this`objs, this`outbox, this`tables, sectors
      ensures Moving(p, ex, NOBODY) && objs == old(objs)[p := Pc(PC_SPAWN, old(objs)[p].dir, Playing)]
      ensures KnowsItsPlace(p)
    {
      Place(p, Pc(PC_SPAWN, objs[p].dir, Playing), ex);
      SendAvatar(p, ex, NOBODY);
    }

    // ---- a session leaves, and may take others with it ----

    /** What holds around a disconnect that was caused by the disconnects of the sessions in `gone`. */
    ghost predicate Leaving(gone: set<int>)
      reads this, sectors
    {
      Wired() && Tracked() && Orderly(objs, TheNet(), gone)
    }

    /** State, sector and view of the session are taken down; nobody has been told yet. */
    method LogOff(key: int, ghost gone: set<int>)
      requires Leaving(gone) && key in objs && IsPc(key) && key !in gone
      modifies this`objs, this`views, sectors
      ensures Leaving(gone + {key}) && objs == old(LoggedOff(objs, key))
      ensures key in old(views) && Telling(old(TheNet()), TheNet(), key, {}, gone, old(views)[key])
    {
      StartTelling(objs, TheNet(), key, gone);
      var o := Pc(objs[key].at, objs[key].dir, LoggedOut);
      PlacedVanish(objs, sectors.cells, key, o);
      sectors.RemoveObject(key, objs[key].at);
      objs := objs[key := o];
      views := views[key := {}];
    }

    /** clients[key].store(nullptr) */
    method Drop(key: int, ghost net0: Net, ghost removed: set<int>, ghost gone: set<int>)
      requires Leaving(gone + {key}) && key in objs && objs[key].Pc? && key !in gone && key !in removed
      requires Telling(net0, TheNet(), key, removed, gone, {})
      requires key in net0.views && net0.tables.Keys == net0.views.Keys
      modifies this`objs, this`views, this`outbox, this`tables
      ensures Leaving(gone) && objs == old(objs) - {key} && Pruned(net0, TheNet(), removed + {key}, gone)
    {
      EndTelling(net0, TheNet(), key, removed, gone);
      OrderlyDrop(objs, net0, TheNet(), key, removed, gone);
      assert Placed(objs - {key}) == Placed(objs);
      objs := objs - {key};
      views := views - {key};
      outbox := outbox - {key};
      tables := tables - {key};
    }

    /** Tell `q` that `key` is gone; if that fails `q` is disconnected before anything else happens. */
    method TellGone(q: int, key: int, fails: set<(int, int)>, ghost net0: Net, ghost removed: set<int>,
                    ghost gone: set<int>,
                    ghost todo: set<int>)
        returns (ghost more: set<int>, ghost log: seq<int>)
      requires Leaving(gone + {key}) && Telling(net0, TheNet(), key, removed, gone, todo) && q in todo && IsPc(q)
      requires key !in gone && key in views
      modifies this`objs, this`views, this`outbox, this`tables, this`saves, sectors
      ensures Leaving(gone + {key}) && Telling(net0, TheNet(), key, removed + more, gone, todo - {q})
      ensures HaveLeft(old(objs), old(saves), more, gone + {key}, log, objs, saves)
      ensures forall r :: r in more ==> Unreachable(fails, r)
      decreases Remaining(objs, gone + {key}), 1
    {
      more, log := {}, [];
      assert removed + {} == removed;
      if q !in objs {
        TellOne(objs, net0, TheNet(), key, removed, gone, todo, q);
        return;
      }
      var sent := key in views[q];
      assert Tidy(objs, TheNet(), gone + {key}, q);
      TellOne(objs, net0, TheNet(), key, removed, gone, todo, q);
      SendRemove(q, key);
      if sent && (q, key) in fails {
        ghost var before := TheNet();
        more, log := Disconnect(q, fails, gone + {key});
        TellAfterNested(net0, before, TheNet(), key, removed, more, gone, todo - {q}, objs);
      }
    }

    /**
     disconnect. `fails` says which packets cannot be sent: for a pair (q, k) in it, telling `q` that
     `k` is gone fails, and `q` is disconnected in turn before anything else happens. `gone` are the
     sessions whose own disconnect is still running further up; none of them is entered again.
     */
    method Disconnect(key: int, fails: set<(int, int)>, ghost gone: set<int>)
        returns (ghost removed: set<int>, ghost log: seq<int>)
      requires Leaving(gone) && key in objs && IsPc(key) && key !in gone
      modifies this`objs, this`views, this`outbox, this`tables, this`saves, sectors
      ensures Leaving(gone) && key in removed && Pruned(old(TheNet()), TheNet(), removed, gone)
      ensures HaveLeft(old(objs), old(saves), removed, gone, log, objs, saves)
      ensures forall r :: r in removed ==> r == key || Unreachable(fails, r)
      decreases Remaining(objs, gone), 0
    {
      ghost var net0, objs0, saves0 := TheNet(), objs, saves;
      log := [];
      if objs[key].status == Playing {
        saves := saves + [key];
        log := [key];
      }
      var visible := views[key];
      LogOff(key, gone);
      FewerRemain(objs0, objs, key, gone);
      LeftStart(objs0, saves0, key, gone, log);
      removed, log := TellAll(key, visible, fails, net0, objs0, saves0, gone, log);
      LeftEnd(objs0, saves0, key, removed, gone, log, objs, saves);
      Drop(key, net0, removed, gone);
      removed := removed + {key};
    }

    /** The loop of disconnect over the players that were in view. */
    method TellAll(key: int, visible: set<int>, fails: set<(int, int)>, ghost net0: Net, ghost objs0: Objs,
                   ghost saves0: seq<int>, ghost gone: set<int>, ghost log0: seq<int>)
        returns (ghost removed: set<int>, ghost log: seq<int>)
      requires Leaving(gone + {key}) && key in objs && objs[key].Pc? && key !in gone
      requires Telling(net0, TheNet(), key, {}, gone, visible)
      requires HaveLeftSoFar(objs0, saves0, key, {}, gone, log0, objs, saves)
      modifies this`objs, this`views, this`outbox, this`tables, this`saves, sectors
      ensures Leaving(gone + {key}) && key in objs && objs[key].Pc?
      ensures Telling(net0, TheNet(), key, removed, gone, {})
      ensures HaveLeftSoFar(objs0, saves0, key, removed, gone, log, objs, saves)
      ensures forall r :: r in removed ==> Unreachable(fails, r)
      decreases Remaining(objs, gone + {key}), 2
    {
      removed, log := {}, log0;
      var todo := visible;
      while todo != {}
        invariant todo <= visible && Leaving(gone + {key}) && key in objs && objs[key].Pc?
        invariant Telling(net0, TheNet(), key, removed, gone, todo)
        invariant HaveLeftSoFar(objs0, saves0, key, removed, gone, log, objs, saves)
        invariant forall r :: r in removed ==> Unreachable(fails, r)
        invariant forall o :: o in objs ==> o in old(objs)
        decreases todo
      {
        var q := Pick(todo);
        if IsPc(q) {
          ghost var objs1, saves1 := objs, saves;
          NoMoreRemain(old(objs), objs, gone + {key});
          ghost var more, moreLog := TellGone(q, key, fails, net0, removed, gone, todo);
          LeftMore(objs0, saves0, key, removed, gone, log, objs1, saves1, more, moreLog, objs, saves);
          removed := removed + more;
          log := log + moreLog;
        } else {
          TellOne(objs, net0, TheNet(), key, removed, gone, todo, q);
        }
        todo := todo - {q};
      }
      assert todo == {};
    }

    /** A session ends: its connection is lost, or it is thrown out, and so may be others in a cascade. */
    method Leave(p: int, fails: set<(int, int)>) returns (ghost log: seq<int>)
      requires Valid(NOBODY) && p in objs && IsPc(p)
      modifies this`objs, this`views, this`outbox, this`tables, this`saves, sectors
      ensures Valid(NOBODY) && p !in objs && forall o :: o in objs ==> o in old(objs) && objs[o] == old(objs)[o]
      ensures forall o :: o in old(objs) && o !in objs ==> IsPc(o) && (o == p || Unreachable(fails, o))
      ensures forall o :: o in old(objs) && !IsPc(o) ==> o in objs
      ensures saves == old(saves) + log && NoDuplicates(log)
      ensures forall r :: r in log <==> old(Watching(objs, r)) && r !in objs
    {
      ghost var objs0, views0 := objs, views;
      ghost var removed;
      removed, log := LeaveViews(p, fails);
      LeaveKeepsRest(objs0, views0);
    }

    /** The cascade seen from outside: views and tables of whoever is left are exact again. */
    method LeaveViews(p: int, fails: set<(int, int)>) returns (ghost removed: set<int>, ghost log: seq<int>)
      requires Wired() && Tracked() && Exact(objs, TheNet()) && p in objs && IsPc(p)
      modifies this`objs, this`views, this`outbox, this`tables, this`saves, sectors
      ensures Wired() && Tracked() && Exact(objs, TheNet())
      ensures p in removed && HaveLeft(old(objs), old(saves), removed, {}, log, objs, saves)
      ensures forall r :: r in removed ==> r == p || Unreachable(fails, r)
      ensures forall q :: q in views ==> q in old(views) && views[q] <= old(views)[q]
    {
      ghost var objs0, net0 := objs, TheNet();
      OrderlyFromExact(objs, TheNet());
      removed, log := Disconnect(p, fails, {});
      ExactAfterPruning(objs0, net0, objs, TheNet(), removed);
    }

    /** Sessions going away concern neither the schedule nor the other objects. */
    lemma LeaveKeepsRest(objs0: Objs, views0: map<int, set<int>>)
      requires forall o :: o in objs ==> o in objs0 && objs[o] == objs0[o]
      requires forall q :: q in views ==> q in views0 && views[q] <= views0[q]
      requires Scheduled(objs0, TheClock(), NOBODY) && NoLostWakeUp(objs0, views0, active)
      requires Regenerating(objs0, TheClock(), nextId, NOBODY) && Covered(objs0, sheets, target)
      ensures Scheduled(objs, TheClock(), NOBODY) && NoLostWakeUp(objs, views, active)
      ensures Regenerating(objs, TheClock(), nextId, NOBODY) && Covered(objs, sheets, target)
    {
      SameLives(objs0, objs, TheClock(), NOBODY);
      StillAwake(objs0, views0, active, objs, views, active);
      RegenUnaffected(objs0, TheClock(), objs, TheClock(), nextId, NOBODY);
      StillCovered(objs0, sheets, target, objs, sheets, target);
    }

    // ---- a session arrives ----

    /** IO_ACCEPT: a fresh id, handed out once, or NOBODY when the server is full. */
    method Accept() returns (id: int)
      requires Valid(NOBODY)
      modifies this`objs, this`sheets, this`views, this`outbox, this`tables, this`nextId
      ensures Valid(NOBODY) && nextId == old(nextId) + 1
      ensures old(nextId) >= NPC_ID_START ==> id == NOBODY && objs == old(objs) && sheets == old(sheets)
      ensures old(nextId) < NPC_ID_START ==> id == old(nextId) && id !in old(objs) &&
                                             objs == old(objs)[id := Pc(PC_SPAWN, Down, Connected)] &&
                                             sheets == old(sheets)[id := NEW_SHEET]
    {
      id := nextId;
      assert RegenOk(objs, TheClock(), nextId, id, NOBODY) || !IsPc(id);
      RegenNextId(objs, TheClock(), nextId, id);
      nextId := nextId + 1;
      if id >= NPC_ID_START {
        return NOBODY;
      }
      NewSession(id);
    }

    method NewSession(id: int)
      requires Valid(NOBODY) && IsPc(id) && id !in objs && 0 <= id < nextId && Regens(TheClock(), id) == 0
      modifies this`objs, this`sheets, this`views, this`outbox, this`tables
      ensures Valid(NOBODY) && objs == old(objs)[id := Pc(PC_SPAWN, Down, Connected)]
      ensures sheets == old(sheets)[id := NEW_SHEET]
    {
      NewSessionFits(id, Pc(PC_SPAWN, Down, Connected));
      Install(id, Pc(PC_SPAWN, Down, Connected));
    }

    /** The fields of a new session, which has seen and been sent nothing yet. */
    method Install(id: int, o: Obj)
      modifies this`objs, this`sheets, this`views, this`outbox, this`tables
      ensures objs == old(objs)[id := o] && sheets == old(sheets)[id := NEW_SHEET]
      ensures TheNet() == old(Net(views[id := {}], tables[id := BLANK])) && outbox == old(outbox)[id := []]
    {
      objs, sheets := objs[id := o], sheets[id := NEW_SHEET];
      views, outbox, tables := views[id := {}], outbox[id := []], tables[id := BLANK];
    }

    lemma NewSessionFits(id: int, o: Obj)
      requires Valid(NOBODY) && IsPc(id) && id !in objs && 0 <= id < nextId && Regens(TheClock(), id) == 0
      requires o.Pc? && o.status != Playing && InWorld(o.at)
      ensures Replayed(outbox[id := []], tables[id := BLANK])
      ensures Exact(objs[id := o], Net(views[id := {}], tables[id := BLANK]))
      ensures Scheduled(objs[id := o], TheClock(), NOBODY) && Regenerating(objs[id := o], TheClock(), nextId, NOBODY)
      ensures NoLostWakeUp(objs[id := o], views[id := {}], active)
      ensures Covered(objs[id := o], sheets[id := NEW_SHEET], target)
      ensures Tracks(Placed(objs[id := o]), sectors.cells)
    {
      SessionAdded(objs, TheNet(), id, o);
      SessionScheduled(objs, TheClock(), nextId, id, o);
      SessionAwake(objs, views, active, id, o);
      NewSessionCovered(objs, sheets, target, id, o);
      assert Placed(objs[id := o]) == Placed(objs);
    }

    /** C2S_LOGIN of an ordinary player: wait for the database. A failed look-up logs the session out. */
    method SetStatus(p: int, status: Status)
      requires Valid(NOBODY) && p in objs && objs[p].Pc? && objs[p].status != Playing && status != Playing
      modifies this`objs
      ensures Valid(NOBODY) && objs == old(objs)[p := Pc(old(objs)[p].at, old(objs)[p].dir, status)]
    {
      var o := Pc(objs[p].at, objs[p].dir, status);
      OffStage(objs, TheNet(), p, o);
      PlacedSame(objs, p, o);
      SameLives(objs, objs[p := o], TheClock(), NOBODY);
      StillAwake(objs, views, active, objs[p := o], views, active);
      RegenMoved(objs, TheClock(), p, o, nextId, NOBODY);
      StillCovered(objs, sheets, target, objs[p := o], sheets, target);
      objs := objs[p := o];
    }

    /** The player enters the world, as a bot at login or when the database answers. */
    method EnterWorld(p: int, at: Tile, sheet: NormalSheet)
      requires Valid(NOBODY) && p in objs && objs[p].Pc? && objs[p].status != Playing && InWorld(at)
      modifies this`objs, this`sheets, this`views, this`outbox, this`tables, this`active, this`timers, sectors
      ensures Valid(NOBODY) && objs == old(objs)[p := Pc(at, old(objs)[p].dir, Playing)]
      ensures sheets == old(sheets)[p := sheet]
      ensures exists c ::
                Roused(old(TheClock()), c, Met(old(objs), objs, p)) && TheClock() == Push(c, NextRegen(p, now))
    {
      JoinViews(p, at, sheet);
      ghost var c := TheClock();
      PushRegen(p);
    }

    /** The player appears, and everybody around it learns of it. */
    method JoinViews(p: int, at: Tile, sheet: NormalSheet)
      requires Valid(NOBODY) && p in objs && objs[p].Pc? && objs[p].status != Playing && InWorld(at)
      modifies this`objs, this`sheets, this`views, this`outbox, this`tables, this`active, this`timers, sectors
      ensures Wired() && Tracked() && Equipped() && Exact(objs, TheNet())
      ensures Scheduled(objs, TheClock(), NOBODY) && NoLostWakeUp(objs, views, active)
      ensures Regenerating(objs, TheClock(), nextId, p)
      ensures objs == old(objs)[p := Pc(at, old(objs)[p].dir, Playing)] && sheets == old(sheets)[p := sheet]
      ensures Roused(old(TheClock()), TheClock(), Met(old(objs), objs, p))
    {
      ghost var objs0, net0, c0 := objs, TheNet(), TheClock();
      assert p in views;
      Appear(p, at, sheet);
      UpdatePlayerView(p, NOBODY, p);
      MetAreRoused(objs0, net0, c0, p);
    }

    method Appear(p: int, at: Tile, sheet: NormalSheet)
      requires Valid(NOBODY) && p in objs && objs[p].Pc? && objs[p].status != Playing && InWorld(at)
      modifies this`objs, this`sheets, this`outbox, this`tables, sectors
      ensures Moving(p, NOBODY, p) && objs == old(objs)[p := Pc(at, old(objs)[p].dir, Playing)]
      ensures sheets == old(sheets)[p := sheet]
    {
      var o := Pc(at, objs[p].dir, Playing);
      AppearanceFits(p, o, sheet);
      PutOnBoard(p, o, sheet);
    }

    method PutOnBoard(p: int, o: Obj, sheet: NormalSheet)
      requires Wired() && p in outbox && p in views && views[p] == {} && InWorld(o.at)
      requires |obstacles| == WORLD_WIDTH * WORLD_HEIGHT && nextId >= 1
      requires Linking(objs[p := o], Tell(TheNet(), p, AvatarInfo(p, o.at, o.dir)), p, {}, {})
      requires |sectors.cells| == SECTOR_COUNT && 0 <= SectorOf(o.at) < |sectors.cells|
      requires Tracks(Placed(objs[p := o]), Inserted(sectors.cells, p, o.at))
      requires Scheduled(objs[p := o], TheClock(), NOBODY) && Regenerating(objs[p := o], TheClock(), nextId, p)
      requires NoLostWakeUp(objs[p := o], views, active) && Covered(objs[p := o], sheets[p := sheet], target)
      modifies this`objs, this`sheets, this`outbox, this`tables, sectors
      ensures Moving(p, NOBODY, p) && objs == old(objs)[p := o] && sheets == old(sheets)[p := sheet]
    {
      Send(p, AvatarInfo(p, o.at, o.dir));
      Seat(p, o, sheet);
    }

    /** The player appears, once everything is in order for the world with it. */
    method Seat(p: int, o: Obj, sheet: NormalSheet)
      requires Wired() && p in views && InWorld(o.at) && |obstacles| == WORLD_WIDTH * WORLD_HEIGHT && nextId >= 1
      requires Linking(objs[p := o], TheNet(), p, views[p], {})
      requires |sectors.cells| == SECTOR_COUNT && 0 <= SectorOf(o.at) < |sectors.cells|
      requires Tracks(Placed(objs[p := o]), Inserted(sectors.cells, p, o.at))
      requires Scheduled(objs[p := o], TheClock(), NOBODY) && Regenerating(objs[p := o], TheClock(), nextId, p)
      requires NoLostWakeUp(objs[p := o], views, active) && Covered(objs[p := o], sheets[p := sheet], target)
      modifies this`objs, this`sheets, sectors
      ensures Moving(p, NOBODY, p) && objs == old(objs)[p := o] && sheets == old(sheets)[p := sheet]
    {
      sectors.AddObject(p, o.at);
      objs, sheets := objs[p := o], sheets[p := sheet];
    }

    lemma AppearanceFits(p: int, o: Obj, sheet: NormalSheet)
      requires Valid(NOBODY) && p in objs && objs[p].Pc? && objs[p].status != Playing
      requires o.Pc? && o.status == Playing && InWorld(o.at)
      ensures p in views && views[p] == {}
      ensures Linking(objs[p := o], Tell(TheNet(), p, AvatarInfo(p, o.at, o.dir)), p, {}, {})
      ensures 0 <= SectorOf(o.at) < |sectors.cells| && Tracks(Placed(objs[p := o]), Inserted(sectors.cells, p, o.at))
      ensures Scheduled(objs[p := o], TheClock(), NOBODY) && Regenerating(objs[p := o], TheClock(), nextId, p)
      ensures NoLostWakeUp(objs[p := o], views, active) && Covered(objs[p := o], sheets[p := sheet], target)
    {
      PlacedAppear(objs, sectors.cells, p, o);
      StartLinkingNew(objs, TheNet(), p, objs[p := o], Tell(TheNet(), p, AvatarInfo(p, o.at, o.dir)));
      SameLives(objs, objs[p := o], TheClock(), NOBODY);
      StillAwake(objs, views, active, objs[p := o], views, active);
      RegenExpected(objs, TheClock(), p, o, nextId);
      StillCovered(objs, sheets, target, objs[p := o], sheets[p := sheet], target);
    }

    /** The next regeneration event of a player whose last one is used up. */
    method PushRegen(p: int)
      requires Wired() && Tracked() && Equipped() && Exact(objs, TheNet()) && Watching(objs, p)
      requires Scheduled(objs, TheClock(), NOBODY) && NoLostWakeUp(objs, views, active)
      requires Regenerating(objs, TheClock(), nextId, p)
      modifies this`timers
      ensures Valid(NOBODY) && TheClock() == Push(old(TheClock()), NextRegen(p, now))
    {
      var e := NextRegen(p, now);
      RegenPushKeeps(objs, TheClock(), NOBODY, e);
      RegenPushed(objs, TheClock(), nextId, e);
      Enqueue(e);
    }

    /** An event goes into the queue, once everything is in order for that. */
    method Enqueue(e: Event)
      requires Wired() && Tracked() && Equipped() && Exact(objs, TheNet()) && NoLostWakeUp(objs, views, active)
      requires Scheduled(objs, Push(TheClock(), e), NOBODY)
      requires Regenerating(objs, Push(TheClock(), e), nextId, NOBODY)
      modifies this`timers
      ensures Valid(NOBODY) && timers == old(timers) + [e] && TheClock() == Push(old(TheClock()), e)
    {
      timers := timers + [e];
    }

    // ---- telling the players around a tile ----

    /** Send one message to every player in the nine sectors around `t`. */
    method BroadcastFrom(t: Tile, m: Message, ghost where: map<int, Tile>) returns (ghost audience: set<int>)
      requires Wired() && Tracks(where, sectors.cells)
      requires forall q :: q in where && IsPc(q) ==> q in objs && q in outbox
      modifies this`outbox, this`tables
      ensures Wired() && TheNet() == Broadcast(old(TheNet()), audience, m)
      ensures forall q :: q in audience <==> Around(where, t, q)
      ensures outbox.Keys == old(outbox).Keys
      ensures forall q :: q in outbox ==> outbox[q] == if q in audience then old(outbox)[q] + [m] else old(outbox)[q]
    {
      var ids := sectors.Query(t, where);
      audience := {};
      BroadcastNobody(TheNet(), m);
      for i := 0 to |ids|
        invariant Wired() && outbox.Keys == old(outbox.Keys)
        invariant TheNet() == Broadcast(old(TheNet()), audience, m)
        invariant forall q :: q in outbox ==>
                    outbox[q] == if q in audience then old(outbox)[q] + [m] else old(outbox)[q]
        invariant forall q :: q in audience <==> q in ids[..i] && IsPc(q)
      {
        var q := ids[i];
        assert ids[..i + 1] == ids[..i] + [q];
        if IsPc(q) && q in objs {
          BroadcastOneMore(old(TheNet()), audience, m, q);
          Send(q, m);
          audience := audience + {q};
        }
      }
      assert ids[..|ids|] == ids;
    }

    /** The same, when sectors and views are in order. */
    method Shout(t: Tile, m: Message) returns (ghost audience: set<int>)
      requires Wired() && Tracked() && Exact(objs, TheNet())
      modifies this`outbox, this`tables
      ensures Wired() && TheNet() == Broadcast(old(TheNet()), audience, m)
      ensures forall q :: q in audience <==> Around(Placed(objs), t, q)
    {
      assert forall q :: q in Placed(objs) && IsPc(q) ==> q in objs && q in outbox;
      audience := BroadcastFrom(t, m, Placed(objs));
    }

    /** The players that can see tile `t`. */
    method Viewers(t: Tile, ghost where: map<int, Tile>) returns (found: set<int>)
      requires Tracks(where, sectors.cells) && InWorld(t)
      requires forall q :: q in where && IsPc(q) ==> q in objs && objs[q].at == where[q]
      ensures forall q :: q in found <==> IsPc(q) && q in where && Within(where[q], t, VIEW_RANGE)
    {
      var ids := sectors.Query(t, where);
      found := {};
      for i := 0 to |ids|
        invariant forall q :: q in found <==> q in ids[..i] && IsPc(q) && Within(where[q], t, VIEW_RANGE)
      {
        var q := ids[i];
        assert ids[..i + 1] == ids[..i] + [q];
        if IsPc(q) && q in objs && Within(objs[q].at, t, VIEW_RANGE) {
          found := found + {q};
        }
      }
      assert ids[..|ids|] == ids;
      forall q | q in where && Within(where[q], t, VIEW_RANGE)
        ensures q in ids
      {
        WithinSectorSizeTouches(where[q], t);
      }
    }

    // ---- an NPC has moved: update_viewers ----

    /** NPC `n` stands on a new tile; players not in `done` have not been told and see it exactly if in `before`. */
    ghost predicate Strolling(n: int, before: set<int>, done: set<int>, ex: int)
      reads this
    {
      && Wired() && IsNpc(objs, n) && objs[n].hp > 0 && n in active
      && Passing(objs, TheNet(), n, before, done) && LooksKept(objs, TheNet(), n)
      && Scheduled(objs, TheClock(), ex) && NoLostWakeUp(objs, views, active)
    }

    method ShowTo(q: int, n: int, ghost before: set<int>, ghost done: set<int>, ghost ex: int)
      requires Strolling(n, before, done, ex) && Watching(objs, q) && Sees(objs, q, n)
      modifies this`views, this`outbox, this`tables
      ensures Strolling(n, before, done + {q}, ex)
    {
      ShowKeeps(objs, TheNet(), n, before, done, q);
      AwakeAfterAdd(objs, TheNet(), active, q, n, active);
      if n in views[q] {
        SendMove(q, n);
      } else {
        SendAdd(q, n);
      }
    }

    method HideFrom(q: int, n: int, ghost before: set<int>, ghost done: set<int>, ghost ex: int)
      requires Strolling(n, before, done, ex) && Watching(objs, q) && !Sees(objs, q, n)
      modifies this`views, this`outbox, this`tables
      ensures Strolling(n, before, done + {q}, ex)
    {
      HideKeeps(objs, TheNet(), n, before, done, q);
      AwakeAfterRemove(objs, TheNet(), active, q, n);
      HideKeepsLooks(objs, TheNet(), n, q);
      SendRemove(q, n);
    }

    /** Second loop of update_viewers: everybody who sees the NPC now is told to add or to move it. */
    method ShowToViewers(n: int, ghost before: set<int>, ghost ex: int) returns (shown: set<int>)
      requires Strolling(n, before, {}, ex) && Tracked() && Shaped(objs)
      modifies this`views, this`outbox, this`tables
      ensures Strolling(n, before, shown, ex)
      ensures forall q :: q in shown <==> Watching(objs, q) && Sees(objs, q, n)
    {
      ghost var where := Placed(objs);
      var at := objs[n].at;
      var ids := sectors.Query(at, where);
      shown := {};
      for i := 0 to |ids|
        invariant Strolling(n, before, shown, ex) && SeersAmong(objs, n, ids[..i], shown)
      {
        var q := ids[i];
        InRangeSees(objs, n, q);
        ghost var shown0 := shown;
        if IsPc(q) && q in objs && Within(objs[q].at, at, VIEW_RANGE) {
          ShowTo(q, n, before, shown, ex);
          shown := shown + {q};
        }
        SeersNext(objs, n, ids, i, shown0, shown);
      }
      SeersAll(objs, n, ids, shown);
    }

    /** Last loop of update_viewers: everybody who saw the NPC and does not see it any more drops it. */
    method HideFromOthers(n: int, seers: set<int>, shown: set<int>, ghost before: set<int>, ghost ex: int)
      requires Strolling(n, before, shown, ex)
      requires forall q :: q in shown <==> Watching(objs, q) && Sees(objs, q, n)
      requires forall q :: q in seers <==> Watching(objs, q) && q in before
      modifies this`views, this`outbox, this`tables
      ensures Wired() && Exact(objs, TheNet()) && Scheduled(objs, TheClock(), ex) && NoLostWakeUp(objs, views, active)
    {
      var todo := seers;
      ghost var done := shown;
      while todo != {}
        invariant todo <= seers && Strolling(n, before, done, ex)
        invariant forall q :: q in shown || (q in seers && q !in todo) ==> q in done
        decreases todo
      {
        var q := Pick(todo);
        if q !in shown && q in objs {
          HideFrom(q, n, before, done, ex);
          done := done + {q};
        }
        todo := todo - {q};
      }
      FinishPassing(objs, TheNet(), n, before, done);
    }

    /** First loop of update_viewers: the players that could see the NPC where it was. */
    method OldViewers(n: int, from: Tile, ghost before: set<int>) returns (seers: set<int>)
      requires Shaped(objs) && n in objs && !IsPc(n) && InWorld(from) && Tracks(Placed(objs)[n := from], sectors.cells)
      requires forall q :: Watching(objs, q) ==> (q in before <==> Within(objs[q].at, from, VIEW_RANGE))
      ensures forall q :: q in seers <==> Watching(objs, q) && q in before
    {
      seers := Viewers(from, Placed(objs)[n := from]);
    }

    /** The sectors follow the NPC. */
    method Reseat(n: int, from: Tile)
      requires n in objs && Shown(objs[n]) && InWorld(objs[n].at) && InWorld(from)
      requires Tracks(Placed(objs)[n := from], sectors.cells)
      modifies sectors
      ensures Tracked()
    {
      ghost var where := Placed(objs)[n := from];
      MoveTracks(where, sectors.cells, n, objs[n].at);
      assert where[n := objs[n].at] == Placed(objs);
      sectors.UpdateObject(n, from, objs[n].at);
    }

    /** The NPC has been put on its new tile; sectors and players follow. */
    method UpdateViewers(n: int, from: Tile, ghost before: set<int>, ghost ex: int)
      requires Strolling(n, before, {}, ex) && InWorld(from) && Equipped()
      requires Tracks(Placed(objs)[n := from], sectors.cells)
      requires forall q :: Watching(objs, q) ==> (q in before <==> Within(objs[q].at, from, VIEW_RANGE))
      requires Regenerating(objs, TheClock(), nextId, NOBODY)
      modifies this`views, this`outbox, this`tables, sectors
      ensures Valid(ex)
    {
      var seers := OldViewers(n, from, before);
      Reseat(n, from);
      Retell(n, seers, before, ex);
    }

    /** Those who see the NPC now are told, and then those who do not any more. */
    method Retell(n: int, seers: set<int>, ghost before: set<int>, ghost ex: int)
      requires Strolling(n, before, {}, ex) && Tracked() && Shaped(objs)
      requires forall q :: q in seers <==> Watching(objs, q) && q in before
      modifies this`views, this`outbox, this`tables
      ensures Wired() && Exact(objs, TheNet()) && Scheduled(objs, TheClock(), ex) && NoLostWakeUp(objs, views, active)
    {
      var shown := ShowToViewers(n, before, ex);
      HideFromOthers(n, seers, shown, before, ex);
    }

    /** An NPC steps, or just turns, during its own tick. */
    method StepNpc(n: int, to: Tile, dir: Direction)
      requires Valid(n) && IsNpc(objs, n) && objs[n].hp > 0 && InWorld(to)
      modifies this`objs, this`views, this`outbox, this`tables, sectors
      ensures Valid(n) && objs == old(objs)[n := NpcAt(old(objs)[n], to, dir)]
    {
      var from := objs[n].at;
      var o := NpcAt(objs[n], to, dir);
      ghost var before := set q | q in objs && Watching(objs, q) && Within(objs[q].at, from, VIEW_RANGE);
      StepFits(n, o, before);
      objs := objs[n := o];
      UpdateViewers(n, from, before, n);
    }

    lemma StepFits(n: int, o: Obj, before: set<int>)
      requires Valid(n) && IsNpc(objs, n) && objs[n].hp > 0 && o.Npc? && InWorld(o.at)
      requires o == NpcAt(objs[n], o.at, o.dir)
      requires forall q :: Watching(objs, q) ==> (q in before <==> Within(objs[q].at, objs[n].at, VIEW_RANGE))
      ensures Passing(objs[n := o], TheNet(), n, before, {}) && LooksKept(objs[n := o], TheNet(), n)
      ensures Scheduled(objs[n := o], TheClock(), n) && NoLostWakeUp(objs[n := o], views, active) && n in active
      ensures Regenerating(objs[n := o], TheClock(), nextId, NOBODY) && Covered(objs[n := o], sheets, target)
      ensures Tracks(Placed(objs[n := o])[n := objs[n].at], sectors.cells)
    {
      StartPassing(objs, TheNet(), n, objs[n := o], before);
      StartLooksKept(objs, TheNet(), n, objs[n := o]);
      StepAgrees(n, o);
      assert Placed(objs[n := o])[n := objs[n].at] == Placed(objs);
      assert IsNpc(objs, n);
    }

    /** An NPC's step concerns neither schedule nor side tables. */
    lemma StepAgrees(n: int, o: Obj)
      requires Scheduled(objs, TheClock(), n) && NoLostWakeUp(objs, views, active) && Covered(objs, sheets, target)
      requires Regenerating(objs, TheClock(), nextId, NOBODY)
      requires IsNpc(objs, n) && o.Npc? && o == NpcAt(objs[n], o.at, o.dir)
      ensures Scheduled(objs[n := o], TheClock(), n) && NoLostWakeUp(objs[n := o], views, active)
      ensures Regenerating(objs[n := o], TheClock(), nextId, NOBODY) && Covered(objs[n := o], sheets, target)
    {
      SameLives(objs, objs[n := o], TheClock(), n);
      StillAwake(objs, views, active, objs[n := o], views, active);
      RegenMoved(objs, TheClock(), n, o, nextId, NOBODY);
      StillCovered(objs, sheets, target, objs[n := o], sheets, target);
    }

    // ---- fighting NPCs ----

    /** Everything is in order once NPC `n` is awake. */
    ghost predicate Stirred(n: int, ex: int)
      reads this, sectors
    {
      && Wired() && Tracked() && Equipped() && IsNpc(objs, n)
      && Exact(objs, TheNet())
      && Scheduled(objs, TheClock(), ex)
      && NoLostWakeUp(objs, views, active + {n})
      && Regenerating(objs, TheClock(), nextId, NOBODY)
    }

    /** An NPC changes its movement state and broadcast_npc_state tells the players around it. */
    method SetMode(n: int, mode: Mode, ghost ex: int)
      requires Valid(ex) && IsNpc(objs, n)
      modifies this`objs, this`outbox, this`tables
      ensures Stirred(n, ex) && objs == old(objs)[n := InMode(old(objs)[n], mode)]
    {
      var o := InMode(objs[n], mode);
      NpcChangeFits(n, o, ex);
      TellMode(n, mode);
      Stir(n, o, ex);
    }

    /** An NPC is replaced, once everything is in order for the new one but for its being awake. */
    method Stir(n: int, o: Obj, ghost ex: int)
      requires Wired() && |obstacles| == WORLD_WIDTH * WORLD_HEIGHT && nextId >= 1 && !IsPc(n) && o.Npc?
      requires Tracks(Placed(objs[n := o]), sectors.cells) && Covered(objs[n := o], sheets, target)
      requires Exact(objs[n := o], TheNet()) && Scheduled(objs[n := o], TheClock(), ex)
      requires NoLostWakeUp(objs[n := o], views, active + {n})
      requires Regenerating(objs[n := o], TheClock(), nextId, NOBODY)
      modifies this`objs
      ensures Stirred(n, ex) && objs == old(objs)[n := o]
    {
      objs := objs[n := o];
    }

    /** Every viewer is told of the new movement state. */
    method TellMode(n: int, mode: Mode)
      requires Wired() && Tracked() && Exact(objs, TheNet()) && IsNpc(objs, n)
      modifies this`outbox, this`tables
      ensures Wired() && Exact(objs[n := InMode(objs[n], mode)], TheNet())
    {
      ghost var net0 := TheNet();
      ghost var audience := Shout(objs[n].at, StatInfo(n, objs[n].hp, objs[n].maxHp, mode));
      BroadcastReaches(objs, net0, n, objs[n].at, audience);
      StateSeen(objs, net0, n, mode, audience);
    }

    /** An NPC changing in place, without dying, concerns neither sectors nor schedule. */
    lemma NpcChangeFits(n: int, o: Obj, ex: int)
      requires Valid(ex) && IsNpc(objs, n) && o.Npc? && o.at == objs[n].at && (o.hp > 0 <==> objs[n].hp > 0)
      ensures Placed(objs[n := o]) == Placed(objs) && Covered(objs[n := o], sheets, target)
      ensures Scheduled(objs[n := o], TheClock(), ex) && NoLostWakeUp(objs[n := o], views, active + {n})
      ensures Regenerating(objs[n := o], TheClock(), nextId, NOBODY)
    {
      PlacedSame(objs, n, o);
      SameLives(objs, objs[n := o], TheClock(), ex);
      OneStirred(objs, views, active, n, o);
      RegenMoved(objs, TheClock(), n, o, nextId, NOBODY);
      StillCovered(objs, sheets, target, objs[n := o], sheets, target);
    }

    /** A hit the NPC survives: everybody who sees it learns its new hit points. */
    method Wound(p: int, n: int, hp: int)
      requires Valid(NOBODY) && Watching(objs, p) && IsNpc(objs, n) && objs[n].hp > 0 && hp > 0
      requires Within(objs[n].at, objs[p].at, RANGED_ATK_RANGE)
      modifies this`objs, this`outbox, this`tables
      ensures Valid(NOBODY) && objs == old(objs)[n := WithHp(old(objs)[n], hp)]
    {
      var o := WithHp(objs[n], hp);
      NpcChangeFits(n, o, NOBODY);
      StillAwake(objs, views, active, objs[n := o], views, active);
      TellWound(objs[p].at, n, hp);
      Alter(n, o, NOBODY);
    }

    /** An object is replaced, once everything is in order for the new one. */
    method Alter(id: int, o: Obj, ghost ex: int)
      requires Wired() && |obstacles| == WORLD_WIDTH * WORLD_HEIGHT && nextId >= 1
      requires Tracks(Placed(objs[id := o]), sectors.cells) && Covered(objs[id := o], sheets, target)
      requires Exact(objs[id := o], TheNet()) && Scheduled(objs[id := o], TheClock(), ex)
      requires NoLostWakeUp(objs[id := o], views, active)
      requires Regenerating(objs[id := o], TheClock(), nextId, NOBODY)
      modifies this`objs
      ensures Valid(ex) && objs == old(objs)[id := o]
    {
      objs := objs[id := o];
    }

    /** Every viewer is told of the new hit points. */
    method TellWound(at: Tile, n: int, hp: int)
      requires Wired() && Tracked() && Exact(objs, TheNet()) && IsNpc(objs, n) && objs[n].hp > 0 && hp > 0
      requires InWorld(at) && Within(objs[n].at, at, RANGED_ATK_RANGE)
      modifies this`outbox, this`tables
      ensures Wired() && Exact(objs[n := WithHp(objs[n], hp)], TheNet())
    {
      ghost var net0 := TheNet();
      ghost var audience := Shout(at, DamageInfo(n, hp));
      BroadcastReaches(objs, net0, n, at, audience);
      DamageSeen(objs, net0, n, hp, audience);
    }

    /** A wounded NPC turns on its attacker: it chases, everybody is told, and it is woken up. */
    method Provoke(p: int, n: int)
      requires Valid(NOBODY) && IsNpc(objs, n) && objs[n].hp > 0
      modifies this`objs, this`target, this`outbox, this`tables, this`active, this`timers
      ensures Valid(NOBODY) && objs == old(objs)[n := InMode(old(objs)[n], Chase)]
      ensures target == old(target)[n := p] && TheClock() == Woken(old(TheClock()), n)
    {
      Aggravate(n, p);
      SetMode(n, Chase, NOBODY);
      Rouse(n);
    }

    method Aggravate(n: int, p: int)
      requires Valid(NOBODY) && IsNpc(objs, n)
      modifies this`target
      ensures Valid(NOBODY) && target == old(target)[n := p]
    {
      StillCovered(objs, sheets, target, objs, sheets, target[n := p]);
      target := target[n := p];
    }

    method Rouse(n: int)
      requires Stirred(n, NOBODY) && objs[n].hp > 0
      modifies this`active, this`timers
      ensures Valid(NOBODY) && TheClock() == Woken(old(TheClock()), n)
    {
      ghost var c := TheClock();
      WakeUp(n, NOBODY);
      StillAwake(objs, views, c.active + {n}, objs, views, active);
      WokenGrew(c, n);
      RegenGrew(objs, c, TheClock(), nextId, NOBODY);
    }

    // ---- an NPC dies ----

    /** NPC `n` is dead; the sectors, the schedule and some players do not know yet. */
    ghost predicate Falling(n: int, before: set<int>, done: set<int>)
      reads this, sectors
    {
      && Wired() && IsNpc(objs, n) && objs[n].hp <= 0
      && Passing(objs, TheNet(), n, before, done) && NoLostWakeUp(objs, views, active)
      && Tracks(Placed(objs)[n := objs[n].at], sectors.cells)
      && forall q :: Watching(objs, q) && q in before ==> Within(objs[q].at, objs[n].at, VIEW_RANGE)
    }

    method TakeFromView(q: int, n: int, ghost before: set<int>, ghost done: set<int>)
      requires Falling(n, before, done) && Watching(objs, q)
      modifies this`views, this`outbox, this`tables
      ensures Falling(n, before, done + {q})
    {
      HideKeeps(objs, TheNet(), n, before, done, q);
      AwakeAfterRemove(objs, TheNet(), active, q, n);
      SendRemove(q, n);
    }

    /** First loop of npc_die: every player around takes the NPC out of its view. */
    method TakeFromAll(n: int, ghost before: set<int>)
      requires Falling(n, before, {})
      modifies this`views, this`outbox, this`tables
      ensures Wired() && Exact(objs, TheNet()) && NoLostWakeUp(objs, views, active - {n})
    {
      ghost var where := Placed(objs)[n := objs[n].at];
      var at := objs[n].at;
      var ids := sectors.Query(at, where);
      ghost var done := {};
      for i := 0 to |ids|
        invariant Falling(n, before, done)
        invariant forall q :: q in ids[..i] && IsPc(q) ==> q in done
      {
        var q := ids[i];
        assert ids[..i + 1] == ids[..i] + [q];
        assert q in where;
        if IsPc(q) && q in objs {
          TakeFromView(q, n, before, done);
          done := done + {q};
        }
      }
      assert ids[..|ids|] == ids;
      forall q | Watching(objs, q) && q in before
        ensures q in done
      {
        WithinSectorSizeTouches(objs[q].at, at);
      }
      FinishPassing(objs, TheNet(), n, before, done);
      NobodySees(n);
      UnseenMayRest(objs, views, active, n);
    }

    lemma NobodySees(n: int)
      requires Exact(objs, TheNet()) && n in objs && !Shown(objs[n])
      ensures forall q :: q in views ==> n !in views[q]
    {
      forall q | q in views
        ensures n !in views[q]
      {
        NoDanglingIds(objs, TheNet(), q, n);
      }
    }

    /** The death of `n` is on the agenda and nobody sees it any more. */
    ghost predicate Buryable(n: int)
      reads this
    {
      && Wired() && Equipped() && IsNpc(objs, n) && objs[n].hp <= 0 && InWorld(objs[n].at)
      && Scheduled(objs, Buried(TheClock(), n, RespawnDelay(objs[n].kind)), NOBODY)
      && Regenerating(objs, Buried(TheClock(), n, RespawnDelay(objs[n].kind)), nextId, NOBODY)
    }

    method TakeOffBoard(n: int)
      requires n in objs && !Shown(objs[n]) && InWorld(objs[n].at)
      requires Tracks(Placed(objs)[n := objs[n].at], sectors.cells)
      modifies sectors
      ensures Tracked()
    {
      ghost var where := Placed(objs)[n := objs[n].at];
      EraseTracks(where, sectors.cells, n, objs[n].at);
      assert where - {n} == Placed(objs);
      sectors.RemoveObject(n, objs[n].at);
    }

    /** Inactive, without target, to respawn later. */
    method CloseBooks(n: int)
      requires Buryable(n) && NoLostWakeUp(objs, views, active - {n})
      modifies this`active, this`target, this`timers
      ensures Equipped() && Scheduled(objs, TheClock(), NOBODY) && NoLostWakeUp(objs, views, active)
      ensures Regenerating(objs, TheClock(), nextId, NOBODY) && target == old(target)[n := NOBODY]
      ensures TheClock() == Buried(old(TheClock()), n, RespawnDelay(objs[n].kind))
    {
      StillCovered(objs, sheets, target, objs, sheets, target[n := NOBODY]);
      Unlist(n, RespawnDelay(objs[n].kind));
    }

    method Unlist(n: int, delay: int)
      modifies this`active, this`target, this`timers
      ensures active == old(active) - {n} && target == old(target)[n := NOBODY]
      ensures TheClock() == Buried(old(TheClock()), n, delay)
    {
      active := active - {n};
      target := target[n := NOBODY];
      timers := timers + [Event(n, now + delay, NpcRespawn)];
    }

    /** Rest of npc_die */
    method Bury(n: int)
      requires Buryable(n) && Exact(objs, TheNet()) && NoLostWakeUp(objs, views, active - {n})
      requires Tracks(Placed(objs)[n := objs[n].at], sectors.cells)
      modifies this`active, this`target, this`timers, sectors
      ensures Valid(NOBODY) && target == old(target)[n := NOBODY]
      ensures TheClock() == Buried(old(TheClock()), n, RespawnDelay(objs[n].kind))
    {
      TakeOffBoard(n);
      CloseBooks(n);
    }

    /** An NPC may leave an item behind; which one is drawn by lot. */
    method DropLoot(at: Tile, kind: Kind)
      modifies ground
      ensures Items.MayLeave(old(ground.items), at, kind, ground.items)
    {
      var lot: nat :| lot < 100;
      match Items.LootFor(kind, lot) {
        case Nothing =>
        case Drop(slot) => var id := ground.SpawnItem(at, slot);
      }
      assert ground.items == Items.Littered(old(ground.items), at, Items.LootFor(kind, lot));
    }

    /** npc_die */
    method NpcDie(n: int, ghost before: set<int>)
      requires Falling(n, before, {}) && Buryable(n)
      modifies this`views, this`outbox, this`tables, this`active, this`target, this`timers, sectors, ground
      ensures Valid(NOBODY) && target == old(target)[n := NOBODY]
      ensures TheClock() == Buried(old(TheClock()), n, RespawnDelay(objs[n].kind))
      ensures Items.MayLeave(old(ground.items), objs[n].at, objs[n].kind, ground.items)
    {
      TakeFromAll(n, before);
      Bury(n);
      DropLoot(objs[n].at, objs[n].kind);
    }

    /** Everybody around is told of the fatal hit before it takes effect. */
    method CryOut(p: int, n: int, o: Obj, ghost before: set<int>)
      requires Valid(NOBODY) && Watching(objs, p) && IsNpc(objs, n) && objs[n].hp > 0 && o.Npc? && o.hp <= 0
      requires o == WithHp(objs[n], o.hp)
      requires forall q :: Watching(objs, q) ==> (q in before <==> Sees(objs, q, n))
      modifies this`outbox, this`tables
      ensures Wired() && Passing(objs[n := o], TheNet(), n, before, {}) && NoLostWakeUp(objs[n := o], views, active)
      ensures Tracks(Placed(objs[n := o])[n := o.at], sectors.cells) && Covered(objs[n := o], sheets, target)
      ensures Scheduled(objs[n := o], Buried(TheClock(), n, RespawnDelay(o.kind)), NOBODY)
      ensures Regenerating(objs[n := o], Buried(TheClock(), n, RespawnDelay(o.kind)), nextId, NOBODY)
    {
      ghost var net0 := TheNet();
      ghost var audience := Shout(objs[p].at, DamageInfo(n, o.hp));
      FallFits(n, o, before, audience, net0);
    }

    /** The fatal hit itself */
    method Fell(p: int, n: int, hp: int, ghost before: set<int>)
      requires Valid(NOBODY) && Watching(objs, p) && IsNpc(objs, n) && objs[n].hp > 0 && hp <= 0
      requires forall q :: Watching(objs, q) ==> (q in before <==> Sees(objs, q, n))
      modifies this`objs, this`outbox, this`tables
      ensures Falling(n, before, {}) && Buryable(n) && objs == old(objs)[n := WithHp(old(objs)[n], hp)]
    {
      var o := WithHp(objs[n], hp);
      CryOut(p, n, o, before);
      Sink(n, o, before);
    }

    /** The NPC is dead, once everything is prepared for that. */
    method Sink(n: int, o: Obj, ghost before: set<int>)
      requires Wired() && |obstacles| == WORLD_WIDTH * WORLD_HEIGHT && nextId >= 1
      requires !IsPc(n) && o.Npc? && o.hp <= 0 && InWorld(o.at)
      requires Passing(objs[n := o], TheNet(), n, before, {}) && NoLostWakeUp(objs[n := o], views, active)
      requires Tracks(Placed(objs[n := o])[n := o.at], sectors.cells) && Covered(objs[n := o], sheets, target)
      requires Scheduled(objs[n := o], Buried(TheClock(), n, RespawnDelay(o.kind)), NOBODY)
      requires Regenerating(objs[n := o], Buried(TheClock(), n, RespawnDelay(o.kind)), nextId, NOBODY)
      requires forall q :: Watching(objs[n := o], q) && q in before ==> Within(objs[n := o][q].at, o.at, VIEW_RANGE)
      modifies this`objs
      ensures Falling(n, before, {}) && Buryable(n) && objs == old(objs)[n := o]
    {
      objs := objs[n := o];
    }

    method FellAndBury(p: int, n: int, hp: int)
      requires Valid(NOBODY) && Watching(objs, p) && IsNpc(objs, n) && objs[n].hp > 0 && hp <= 0
      modifies this`objs, this`views, this`outbox, this`tables, this`active, this`target, this`timers, sectors, ground
      ensures Valid(NOBODY) && objs == old(objs)[n := WithHp(old(objs)[n], hp)] && target == old(target)[n := NOBODY]
      ensures TheClock() == Buried(old(TheClock()), n, RespawnDelay(objs[n].kind))
      ensures Items.MayLeave(old(ground.items), objs[n].at, objs[n].kind, ground.items)
    {
      ghost var before := set q | q in objs && Watching(objs, q) && Sees(objs, q, n);
      Fell(p, n, hp, before);
      NpcDie(n, before);
    }

    /** The attacker is rewarded. */
    method Slay(p: int, n: int, hp: int)
      requires Valid(NOBODY) && Watching(objs, p) && IsNpc(objs, n) && objs[n].hp > 0 && hp <= 0
      modifies this`objs, this`views, this`outbox, this`tables, this`active, this`target, this`timers, this`sheets
      modifies sectors, ground
      ensures Valid(NOBODY) && objs == old(objs)[n := WithHp(old(objs)[n], hp)] && target == old(target)[n := NOBODY]
      ensures TheClock() == Buried(old(TheClock()), n, RespawnDelay(objs[n].kind))
      ensures Items.MayLeave(old(ground.items), objs[n].at, objs[n].kind, ground.items)
      ensures p in old(sheets) && sheets == old(sheets)[p := Kill(old(sheets)[p], objs[n].kind, objs[n].level)]
      ensures KnowsItself(p)
    {
      var kind, level := objs[n].kind, objs[n].level;
      FellAndBury(p, n, hp);
      Reward(p, kind, level);
    }

    lemma FallFits(n: int, o: Obj, before: set<int>, audience: set<int>, net0: Net)
      requires o.Npc? && Exact(objs, net0) && TheNet() == Broadcast(net0, audience, DamageInfo(n, o.hp)) && Wired()
      requires Tracked() && Equipped() && Scheduled(objs, TheClock(), NOBODY) && NoLostWakeUp(objs, views, active)
      requires Regenerating(objs, TheClock(), nextId, NOBODY)
      requires IsNpc(objs, n) && objs[n].hp > 0 && o.hp <= 0 && o == WithHp(objs[n], o.hp)
      requires forall q :: Watching(objs, q) ==> (q in before <==> Sees(objs, q, n))
      ensures Passing(objs[n := o], TheNet(), n, before, {}) && NoLostWakeUp(objs[n := o], views, active)
      ensures Tracks(Placed(objs[n := o])[n := o.at], sectors.cells) && Covered(objs[n := o], sheets, target)
      ensures Scheduled(objs[n := o], Buried(TheClock(), n, RespawnDelay(o.kind)), NOBODY)
      ensures Regenerating(objs[n := o], Buried(TheClock(), n, RespawnDelay(o.kind)), nextId, NOBODY)
    {
      FatalHit(objs, net0, n, o.hp, audience, before);
      StillAwake(objs, views, active, objs[n := o], views, active);
      assert Placed(objs[n := o])[n := o.at] == Placed(objs);
      StillCovered(objs, sheets, target, objs[n := o], sheets, target);
      DeathSchedules(objs, objs[n := o], TheClock(), n, RespawnDelay(o.kind));
      RegenMoved(objs, TheClock(), n, o, nextId, NOBODY);
      BuriedRegens(objs[n := o], TheClock(), n, RespawnDelay(o.kind), nextId);
    }

    /** Experience, levels and quests of a kill. */
    method Reward(p: int, kind: Kind, level: int)
      requires Valid(NOBODY) && Watching(objs, p)
      modifies this`sheets, this`outbox, this`tables
      ensures Valid(NOBODY) && p in old(sheets) && sheets == old(sheets)[p := Kill(old(sheets)[p], kind, level)]
      ensures KnowsItself(p)
    {
      assert HasGear(objs, sheets, target, p);
      SetSheet(p, Kill(sheets[p], kind, level), NOBODY);
      Report(p, NOBODY);
    }

    /** The NPC survives the hit: its viewers learn of it, and it gives chase. */
    method Hurt(p: int, n: int, hp: int)
      requires Valid(NOBODY) && Watching(objs, p) && IsNpc(objs, n) && objs[n].hp > 0 && hp > 0
      requires Within(objs[n].at, objs[p].at, RANGED_ATK_RANGE)
      modifies this`objs, this`outbox, this`tables, this`active, this`target, this`timers
      ensures Valid(NOBODY) && objs == old(objs)[n := InMode(WithHp(old(objs)[n], hp), Chase)]
      ensures target == old(target)[n := p] && TheClock() == Woken(old(TheClock()), n)
    {
      ghost var objs0 := objs;
      Wound(p, n, hp);
      Provoke(p, n);
      Overwrite(objs0, n, WithHp(objs0[n], hp), InMode(WithHp(objs0[n], hp), Chase));
    }

    method StrikeDown(p: int, n: int, dmg: nat)
      requires Valid(NOBODY) && Watching(objs, p) && IsNpc(objs, n) && objs[n].hp > 0 && objs[n].hp - dmg <= 0
      modifies this`objs, this`views, this`outbox, this`tables, this`active, this`target, this`timers, this`sheets
      modifies sectors, ground
      ensures Valid(NOBODY) && Felt(old(TheField()), TheField(), p, n, dmg)
      ensures TheClock() == AfterBlow(old(TheClock()), n, Struck(old(objs)[n], dmg))
    {
      ghost var f := TheField();
      Slay(p, n, objs[n].hp - dmg);
      Perished(f, TheField(), p, n, dmg);
    }

    method StrikeOnce(p: int, n: int, dmg: nat)
      requires Valid(NOBODY) && Watching(objs, p) && IsNpc(objs, n) && objs[n].hp > 0 && objs[n].hp - dmg > 0
      requires Within(objs[n].at, objs[p].at, RANGED_ATK_RANGE)
      modifies this`objs, this`outbox, this`tables, this`active, this`target, this`timers
      ensures Valid(NOBODY) && Felt(old(TheField()), TheField(), p, n, dmg)
      ensures TheClock() == AfterBlow(old(TheClock()), n, Struck(old(objs)[n], dmg))
    {
      ghost var f := TheField();
      Hurt(p, n, objs[n].hp - dmg);
      Survived(f, TheField(), p, n, dmg);
    }

    /** One hit on one NPC, the same for all three attacks. */
    method Strike(p: int, n: int, dmg: nat)
      requires Valid(NOBODY) && Watching(objs, p) && IsNpc(objs, n) && objs[n].hp > 0
      requires Within(objs[n].at, objs[p].at, RANGED_ATK_RANGE)
      modifies this`objs, this`views, this`outbox, this`tables, this`active, this`target, this`timers, this`sheets
      modifies sectors, ground
      ensures Valid(NOBODY) && Felt(old(TheField()), TheField(), p, n, dmg)
      ensures TheClock() == AfterBlow(old(TheClock()), n, Struck(old(objs)[n], dmg))
    {
      if objs[n].hp - dmg <= 0 {
        StrikeDown(p, n, dmg);
      } else {
        StrikeOnce(p, n, dmg);
      }
    }

    // ---- players attack ----

    /** One round of the loop over the objects in view. */
    method AttackOne(p: int, o: int, skill: bool, boosted: bool)
      requires Valid(NOBODY) && Watching(objs, p) && p in sheets
      modifies this`objs, this`views, this`outbox, this`tables, this`active, this`target, this`timers, this`sheets
      modifies sectors, ground
      ensures Valid(NOBODY) && Round(old(TheField()), TheField(), p, skill, boosted, o)
      ensures TheClock() ==
              if old(Victim(objs, p, skill, o))
              then AfterBlow(old(TheClock()), o, Struck(old(objs)[o], Blow(skill, old(sheets)[p].rank.level, boosted)))
              else old(TheClock())
    {
      if IsPc(o) || o !in objs || objs[o].Pc? || objs[o].hp <= 0 {
        return;
      }
      if !InReach(skill, objs[p].at, objs[p].dir, objs[o].at) {
        return;
      }
      Strike(p, o, Blow(skill, sheets[p].rank.level, boosted));
    }

    /**
     The loop over the objects that were in view when the attack began. The attack boost may run out on
     the way; `boosts` are the objects for whose turn it still lasts.
     */
    method AttackAll(p: int, visible: set<int>, skill: bool, boosts: set<int>, ghost a: Onslaught)
        returns (ghost fallen: seq<int>, ghost hits: seq<int>)
      requires Valid(NOBODY) && Watching(objs, p) && p in sheets
      requires a == Onslaught(p, skill, sheets[p].rank.level, boosts)
      modifies this`objs, this`views, this`outbox, this`tables, this`active, this`target, this`timers, this`sheets
      modifies sectors, ground
      ensures Valid(NOBODY) && Battle(old(TheField()), TheField(), a, visible, fallen)
      ensures HitInTurn(old(objs), objs, p, skill, visible, hits, old(TheClock()), TheClock())
    {
      BattleBegins(TheField(), a);
      fallen, hits := [], [];
      var todo := visible;
      StartSplit({}, visible);
      while todo != {}
        invariant Valid(NOBODY) && p in sheets && Watching(objs, p) && a.level <= sheets[p].rank.level
        invariant todo <= visible && Battle(old(TheField()), TheField(), a, visible - todo, fallen)
        invariant HitInTurn(old(objs), objs, p, skill, visible - todo, hits, old(TheClock()), TheClock())
        decreases todo
      {
        var o := Pick(todo);
        fallen, hits := AttackNext(p, o, skill, boosts, a, old(TheField()), old(TheClock()), visible - todo, fallen,
                                   hits);
        NextSplit({}, visible, todo, o);
        todo := todo - {o};
      }
      EndSplit({}, visible, todo);
    }

    method AttackNext(p: int, o: int, skill: bool, boosts: set<int>, ghost a: Onslaught, ghost f0: Field,
                      ghost c0: Clock, ghost done: set<int>, ghost fallen: seq<int>, ghost hits: seq<int>)
        returns (ghost fallen': seq<int>, ghost hits': seq<int>)
      requires Valid(NOBODY) && Watching(objs, p) && p in sheets && a.level <= sheets[p].rank.level
      requires a == Onslaught(p, skill, a.level, boosts) && a.level >= 1 && o !in done && p in f0.objs
      requires Battle(f0, TheField(), a, done, fallen)
      requires HitInTurn(f0.objs, objs, p, skill, done, hits, c0, TheClock())
      modifies this`objs, this`views, this`outbox, this`tables, this`active, this`target, this`timers, this`sheets
      modifies sectors, ground
      ensures Valid(NOBODY) && Watching(objs, p) && p in sheets && a.level <= sheets[p].rank.level
      ensures Battle(f0, TheField(), a, done + {o}, fallen')
      ensures HitInTurn(f0.objs, objs, p, skill, done + {o}, hits', c0, TheClock())
    {
      ghost var f, c := TheField(), TheClock();
      AttackOne(p, o, skill, o in boosts);
      Untouched(f0, f, a, done, fallen, o);
      hits' := OneMoreHit(f0.objs, f.objs, objs, p, skill, done, hits, o, c0, c, TheClock());
      fallen' := BattleRound(f0, f, TheField(), a, done, fallen, o);
    }

    /** Hit every living NPC in reach, and nothing else. */
    method AttackAround(p: int, skill: bool, boosts: set<int>, ghost a: Onslaught)
        returns (ghost fallen: seq<int>, ghost hits: seq<int>)
      requires Valid(NOBODY) && Watching(objs, p) && p in sheets
      requires a == Onslaught(p, skill, sheets[p].rank.level, boosts)
      modifies this`objs, this`views, this`outbox, this`tables, this`active, this`target, this`timers, this`sheets
      modifies sectors, ground
      ensures Valid(NOBODY) && Battle(old(TheField()), TheField(), a, old(objs).Keys, fallen)
      ensures HitInTurn(old(objs), objs, p, skill, old(objs).Keys, hits, old(TheClock()), TheClock())
      ensures objs.Keys == old(objs).Keys && Attacks(old(TheWorld()), TheWorld(), p, skill, boosts)
      ensures p in sheets && AllWounded(old(objs), objs, a, sheets[p].rank.level)
    {
      VictimsAreInView(objs, TheNet(), p, skill);
      ghost var w, f, seen := TheWorld(), TheField(), views[p];
      fallen, hits := AttackAll(p, views[p], skill, boosts, a);
      BattleOver(f, TheField(), a, seen, fallen);
      Attacked(w, TheWorld(), p, skill, boosts, fallen, hits);
      BattleWounds(f, TheField(), a, fallen);
    }

    /** C2S_ATTACK has no state check, but a session that is not in play has nothing in view. */
    method Attack(p: int, boosts: set<int>) returns (ghost fallen: seq<int>, ghost hits: seq<int>)
      requires Valid(NOBODY) && p in objs && IsPc(p)
      modifies this`objs, this`views, this`outbox, this`tables, this`active, this`target, this`timers, this`sheets
      modifies sectors, ground
      ensures Valid(NOBODY) && p in old(sheets)
      ensures old(Watching(objs, p)) ==>
                Battle(old(TheField()), TheField(), Onslaught(p, false, old(sheets)[p].rank.level, boosts),
                       old(objs).Keys, fallen) &&
                HitInTurn(old(objs), objs, p, false, old(objs).Keys, hits, old(TheClock()), TheClock()) &&
                Attacks(old(TheWorld()), TheWorld(), p, false, boosts)
      ensures old(Watching(objs, p)) ==>
                p in sheets && AllWounded(old(objs), objs, Onslaught(p, false, old(sheets)[p].rank.level, boosts),
                                          sheets[p].rank.level)
      ensures !old(Watching(objs, p)) ==> TheWorld() == old(TheWorld())
      ensures objs.Keys == old(objs).Keys
    {
      assert HasGear(objs, sheets, target, p);
      fallen, hits := [], [];
      if objs[p].status == Playing {
        fallen, hits := AttackAround(p, false, boosts, Onslaught(p, false, sheets[p].rank.level, boosts));
      } else {
        assert views[p] == {};
      }
    }

    /** C2S_SKILL, unless it is still cooling down */
    method Skill(p: int, cooled: bool, boosts: set<int>) returns (ghost fallen: seq<int>, ghost hits: seq<int>)
      requires Valid(NOBODY) && p in objs && IsPc(p)
      modifies this`objs, this`views, this`outbox, this`tables, this`active, this`target, this`timers, this`sheets
      modifies sectors, ground
      ensures Valid(NOBODY) && p in old(sheets)
      ensures old(Watching(objs, p)) && cooled ==>
                Battle(old(TheField()), TheField(), Onslaught(p, true, old(sheets)[p].rank.level, boosts),
                       old(objs).Keys, fallen) &&
                HitInTurn(old(objs), objs, p, true, old(objs).Keys, hits, old(TheClock()), TheClock()) &&
                Attacks(old(TheWorld()), TheWorld(), p, true, boosts)
      ensures old(Watching(objs, p)) && cooled ==>
                p in sheets && AllWounded(old(objs), objs, Onslaught(p, true, old(sheets)[p].rank.level, boosts),
                                          sheets[p].rank.level)
      ensures !(old(Watching(objs, p)) && cooled) ==> TheWorld() == old(TheWorld())
      ensures objs.Keys == old(objs).Keys
    {
      assert HasGear(objs, sheets, target, p);
      fallen, hits := [], [];
      if objs[p].status != Playing || !cooled {
        return;
      }
      fallen, hits := AttackAround(p, true, boosts, Onslaught(p, true, sheets[p].rank.level, boosts));
    }

    /** C2S_USE_ITEM */
    method UseItem(p: int, itemType: int)
      requires Valid(NOBODY) && p in objs && IsPc(p)
      modifies this`sheets, this`outbox, this`tables
      ensures Valid(NOBODY) && p in old(sheets)
      ensures sheets == if Watching(objs, p) then old(sheets)[p := UsedItem(old(sheets)[p], itemType)] else old(sheets)
      ensures Watching(objs, p) && Usable(old(sheets)[p], itemType) ==> KnowsItself(p)
    {
      assert HasGear(objs, sheets, target, p);
      if objs[p].status != Playing {
        return;
      }
      var used := Usable(sheets[p], itemType);
      SetSheet(p, UsedItem(sheets[p], itemType), NOBODY);
      if used {
        Report(p, NOBODY);
      }
    }

    // ---- the ranged attack ----

    /** The first living NPC on one tile, in the order the sectors yield them; NOBODY for none. */
    method NpcOn(t: Tile) returns (hit: int)
      requires Tracked() && Shaped(objs) && InWorld(t)
      ensures hit == NOBODY ==> forall n :: !LivingNpcAt(objs, n, t)
      ensures hit != NOBODY ==> LivingNpcAt(objs, hit, t)
    {
      ghost var where := Placed(objs);
      var ids := sectors.Query(t, where);
      hit := NOBODY;
      for i := 0 to |ids|
        invariant hit == NOBODY && forall n :: n in ids[..i] ==> !LivingNpcAt(objs, n, t)
      {
        var n := ids[i];
        assert ids[..i + 1] == ids[..i] + [n];
        if !IsPc(n) && n in objs && objs[n].Npc? && objs[n].hp > 0 && objs[n].at == t {
          return n;
        }
      }
      assert ids[..|ids|] == ids;
      forall n
        ensures !LivingNpcAt(objs, n, t)
      {
        if LivingNpcAt(objs, n, t) {
          WithinSectorSizeTouches(where[n], t);
        }
      }
    }

    /** How far the shot flies, and whom it hits. */
    method Aim(at: Tile, dir: Direction) returns (travel: nat, hit: int)
      requires Tracked() && Shaped(objs) && |obstacles| == WORLD_WIDTH * WORLD_HEIGHT
      ensures travel <= RANGED_ATK_RANGE && forall i :: 1 <= i <= travel ==> !IsObstacle(obstacles, Ahead(at, dir, i))
      ensures forall i, n :: 1 <= i < travel ==> !LivingNpcAt(objs, n, Ahead(at, dir, i))
      ensures hit == NOBODY ==>
                && (travel == RANGED_ATK_RANGE || IsObstacle(obstacles, Ahead(at, dir, travel + 1)))
                && forall n :: travel > 0 ==> !LivingNpcAt(objs, n, Ahead(at, dir, travel))
      ensures hit != NOBODY ==> travel > 0 && LivingNpcAt(objs, hit, Ahead(at, dir, travel))
    {
      travel, hit := 0, NOBODY;
      for i := 1 to RANGED_ATK_RANGE + 1
        invariant travel == i - 1 && hit == NOBODY
        invariant forall k :: 1 <= k < i ==> !IsObstacle(obstacles, Ahead(at, dir, k))
        invariant forall k, n :: 1 <= k < i ==> !LivingNpcAt(objs, n, Ahead(at, dir, k))
      {
        var t := Ahead(at, dir, i);
        if IsObstacle(obstacles, t) {
          return;
        }
        travel := i;
        hit := NpcOn(t);
        if hit != NOBODY {
          return;
        }
      }
    }

    /** The shot hits the first NPC in line, if it is in range and nothing is in the way; NOBODY for a miss. */
    method Shoot(p: int) returns (hit: int, ghost k: int)
      requires Valid(NOBODY) && p in objs
      ensures hit == NOBODY ==> forall i, n :: !InLine(obstacles, objs, p, i, n)
      ensures hit != NOBODY ==> InLine(obstacles, objs, p, k, hit)
    {
      var travel: nat;
      travel, hit := Aim(objs[p].at, objs[p].dir);
      k := travel;
      if hit == NOBODY {
        forall i, n
          ensures !InLine(obstacles, objs, p, i, n)
        {
          assert i > travel ==> !InLine(obstacles, objs, p, i, n);
        }
      }
    }

    /** A chat line or a projectile: everybody around is told, and no object changes. */
    method Announce(p: int)
      requires Valid(NOBODY) && p in objs && objs[p].Pc?
      modifies this`outbox, this`tables
      ensures Valid(NOBODY) && TheNet() == old(TheNet()) && outbox.Keys == old(outbox).Keys
      ensures forall q :: q in outbox ==>
                outbox[q] == if Around(Placed(objs), objs[p].at, q) then old(outbox)[q] + [Notice(p)]
                             else old(outbox)[q]
    {
      ghost var net0 := TheNet();
      assert forall q :: q in Placed(objs) && IsPc(q) ==> q in objs && q in outbox;
      ghost var audience := BroadcastFrom(objs[p].at, Notice(p), Placed(objs));
      NoticeSeen(net0, audience, p);
    }

    /** C2S_RANGED_ATTACK */
    method RangedAttack(p: int, cooled: bool, boosted: bool) returns (hit: int, ghost k: int)
      requires Valid(NOBODY) && p in objs && IsPc(p)
      modifies this`objs, this`views, this`outbox, this`tables, this`active, this`target, this`timers, this`sheets
      modifies sectors, ground
      ensures Valid(NOBODY) && p in old(sheets)
      ensures hit == NOBODY ==> TheWorld() == old(TheWorld())
      ensures hit == NOBODY && cooled && old(Watching(objs, p)) ==>
                && (forall i, n :: !InLine(obstacles, old(objs), p, i, n)) && outbox.Keys == old(outbox).Keys
                && forall q :: q in outbox ==>
                     outbox[q] == if Around(Placed(objs), objs[p].at, q) then old(outbox)[q] + [Notice(p)]
                                  else old(outbox)[q]
      ensures hit != NOBODY ==> cooled && old(Watching(objs, p)) && InLine(obstacles, old(objs), p, k, hit)
      ensures hit != NOBODY ==> Hits(old(TheWorld()), TheWorld(), p, hit, boosted)
      ensures hit != NOBODY ==>
                old(objs)[hit].hp - objs[hit].hp == (if boosted then 2 else 1) * (27 + 3 * old(sheets)[p].rank.level)
    {
      assert HasGear(objs, sheets, target, p);
      hit, k := NOBODY, 0;
      if objs[p].status != Playing || !cooled {
        return;
      }
      hit, k := Shoot(p);
      Announce(p);
      if hit != NOBODY {
        StrikeInLine(p, hit, k, boosted);
      }
    }

    method StrikeInLine(p: int, n: int, ghost k: int, boosted: bool)
      requires Valid(NOBODY) && Watching(objs, p) && InLine(obstacles, objs, p, k, n) && p in sheets
      modifies this`objs, this`views, this`outbox, this`tables, this`active, this`target, this`timers, this`sheets
      modifies sectors, ground
      ensures n in old(objs) && old(objs)[n].Npc? && Valid(NOBODY)
      ensures Hits(old(TheWorld()), TheWorld(), p, n, boosted)
      ensures old(objs)[n].hp - objs[n].hp == (if boosted then 2 else 1) * (27 + 3 * old(sheets)[p].rank.level)
    {
      ghost var w := TheWorld();
      BlowIsLost(true, sheets[p].rank.level, boosted);
      InLineIsNear(obstacles, objs, p, k, n);
      Strike(p, n, Blow(true, sheets[p].rank.level, boosted));
      HitBy(w, TheWorld(), p, n, boosted);
    }

    // ---- an NPC comes back ----

    /** The first draw that is no obstacle, or the origin. */
    method RespawnTile(origin: Tile, draws: seq<(nat, nat)>) returns (t: Tile)
      requires |obstacles| == WORLD_WIDTH * WORLD_HEIGHT
      ensures FirstFree(obstacles, origin, draws, t)
    {
      for i := 0 to |draws|
        invariant forall k :: 0 <= k < i ==> IsObstacle(obstacles, Drawn80(origin, draws[k]))
      {
        t := Drawn80(origin, draws[i]);
        if !IsObstacle(obstacles, t) {
          return;
        }
      }
      t := origin;
    }

    /** NPC `n` is back on the board, and the players in `done` have been told. */
    ghost predicate Returning(n: int, done: set<int>)
      reads this
    {
      && Wired() && IsNpc(objs, n) && objs[n].hp > 0
      && Passing(objs, TheNet(), n, {}, done) && LooksKept(objs, TheNet(), n)
      && Scheduled(objs, TheClock(), NOBODY) && NoLostWakeUp(objs, views, active)
      && Regenerating(objs, TheClock(), nextId, NOBODY)
    }

    method WelcomeBack(q: int, n: int, ghost done: set<int>)
      requires Returning(n, done) && Watching(objs, q) && Sees(objs, q, n) && q !in done
      modifies this`views, this`outbox, this`tables, this`active, this`timers
      ensures Returning(n, done + {q}) && TheClock() == Woken(old(TheClock()), n)
    {
      ShowReturned(q, n, done);
      WakeReturned(n);
    }

    method ShowReturned(q: int, n: int, ghost done: set<int>)
      requires Wired() && IsNpc(objs, n) && objs[n].hp > 0
      requires Passing(objs, TheNet(), n, {}, done) && LooksKept(objs, TheNet(), n)
      requires Watching(objs, q) && Sees(objs, q, n) && q !in done && NoLostWakeUp(objs, views, active)
      modifies this`views, this`outbox, this`tables
      ensures Wired() && Passing(objs, TheNet(), n, {}, done + {q}) && LooksKept(objs, TheNet(), n)
      ensures NoLostWakeUp(objs, views, active + {n})
    {
      ShowKeeps(objs, TheNet(), n, {}, done, q);
      AwakeAfterAdd(objs, TheNet(), active, q, n, active + {n});
      SendAdd(q, n);
    }

    method WakeReturned(n: int)
      requires IsNpc(objs, n) && objs[n].hp > 0 && Scheduled(objs, TheClock(), NOBODY)
      requires Regenerating(objs, TheClock(), nextId, NOBODY)
      modifies this`active, this`timers
      ensures Scheduled(objs, TheClock(), NOBODY) && Regenerating(objs, TheClock(), nextId, NOBODY)
      ensures active == old(active) + {n} && TheClock() == Woken(old(TheClock()), n)
    {
      ghost var c := TheClock();
      WakeUp(n, NOBODY);
      WokenGrew(c, n);
      RegenGrew(objs, c, TheClock(), nextId, NOBODY);
    }

    method WelcomeIfNear(q: int, n: int, ghost done: set<int>) returns (viewer: bool, ghost done': set<int>)
      requires Returning(n, done) && q in Placed(objs) && q !in done
      modifies this`views, this`outbox, this`tables, this`active, this`timers
      ensures viewer == (Watching(objs, q) && Sees(objs, q, n)) && done' == if viewer then done + {q} else done
      ensures Returning(n, done') && TheClock() == if viewer then Woken(old(TheClock()), n) else old(TheClock())
    {
      InRangeSees(objs, n, q);
      viewer, done' := IsPc(q) && q in objs && Within(objs[q].at, objs[n].at, VIEW_RANGE), done;
      if viewer {
        WelcomeBack(q, n, done);
        done' := done + {q};
      }
    }

    /** The loop over the players around. */
    method WelcomeAround(n: int) returns (seen: bool, ghost done: set<int>)
      requires Tracked() && Returning(n, {})
      modifies this`views, this`outbox, this`tables, this`active, this`timers
      ensures Returning(n, done) && forall q :: q in done <==> Watching(objs, q) && Sees(objs, q, n)
      ensures (seen <==> done != {}) && TheClock() == if seen then Woken(old(TheClock()), n) else old(TheClock())
    {
      var ids := sectors.Query(objs[n].at, Placed(objs));
      seen, done := false, {};
      for i := 0 to |ids|
        invariant Returning(n, done)
        invariant TheClock() == if seen then Woken(old(TheClock()), n) else old(TheClock())
        invariant (seen <==> done != {}) && SeersAmong(objs, n, ids[..i], done)
      {
        ghost var done0 := done;
        var viewer;
        viewer, done := WelcomeIfNear(ids[i], n, done);
        seen := seen || viewer;
        SeersNext(objs, n, ids, i, done0, done);
      }
      SeersAll(objs, n, ids, done);
    }

    method WelcomeBackAll(n: int) returns (seen: bool)
      requires Tracked() && Equipped() && Returning(n, {}) && n !in active
      modifies this`views, this`outbox, this`tables, this`active, this`timers
      ensures Valid(NOBODY)
      ensures seen == Noticed(objs, n)
      ensures TheClock() == if seen then Woken(old(TheClock()), n) else old(TheClock())
    {
      ghost var done;
      seen, done := WelcomeAround(n);
      SeersOrNobody(objs, n, done);
      FinishPassing(objs, TheNet(), n, {}, done);
    }

    /** The event is consumed and the NPC put back on the board. */
    method Revive(n: int, at: Tile)
      requires Valid(NOBODY) && IsNpc(objs, n) && InWorld(at) && posted != [] && IsEvent(posted[0], n, NpcRespawn)
      modifies this`objs, this`target, this`posted, sectors
      ensures Tracked() && Equipped() && Returning(n, {})
      ensures old(objs[n].hp <= 0 && n !in active) && TheWorld() == Revived(TakenFrom(old(TheWorld())), n, at)
    {
      var o := Reborn(objs[n], at);
      RevivalFits(n, o);
      PutBack(n, o);
    }

    /** The event is consumed and the NPC on the board, once everything is prepared for that. */
    method PutBack(n: int, o: Obj)
      requires Wired() && |obstacles| == WORLD_WIDTH * WORLD_HEIGHT && nextId >= 1 && posted != []
      requires !IsPc(n) && o.Npc? && o.hp > 0 && InWorld(o.at)
      requires Passing(objs[n := o], TheNet(), n, {}, {}) && LooksKept(objs[n := o], TheNet(), n)
      requires Scheduled(objs[n := o], Taken(TheClock()), NOBODY) && NoLostWakeUp(objs[n := o], views, active)
      requires Regenerating(objs[n := o], Taken(TheClock()), nextId, NOBODY)
      requires Covered(objs[n := o], sheets, target[n := NOBODY])
      requires |sectors.cells| == SECTOR_COUNT && 0 <= SectorOf(o.at) < |sectors.cells|
      requires Tracks(Placed(objs[n := o]), Inserted(sectors.cells, n, o.at))
      modifies this`objs, this`target, this`posted, sectors
      ensures Tracked() && Equipped() && Returning(n, {}) && TheClock() == Taken(old(TheClock()))
      ensures objs == old(objs)[n := o] && target == old(target)[n := NOBODY]
    {
      sectors.AddObject(n, o.at);
      Renew(n, o);
    }

    method Renew(n: int, o: Obj)
      requires posted != []
      modifies this`objs, this`target, this`posted
      ensures posted == old(posted)[1..] && objs == old(objs)[n := o] && target == old(target)[n := NOBODY]
    {
      posted, objs, target := posted[1..], objs[n := o], target[n := NOBODY];
    }

    lemma RevivalFits(n: int, o: Obj)
      requires Valid(NOBODY) && IsNpc(objs, n) && posted != [] && IsEvent(posted[0], n, NpcRespawn)
      requires o.Npc? && o.maxHp > 0 && o.hp > 0 && InWorld(o.at) && InWorld(o.origin)
      ensures objs[n].hp <= 0 && n !in active
      ensures Passing(objs[n := o], TheNet(), n, {}, {}) && LooksKept(objs[n := o], TheNet(), n)
      ensures Scheduled(objs[n := o], Taken(TheClock()), NOBODY) && NoLostWakeUp(objs[n := o], views, active)
      ensures Regenerating(objs[n := o], Taken(TheClock()), nextId, NOBODY)
      ensures Covered(objs[n := o], sheets, target[n := NOBODY])
      ensures 0 <= SectorOf(o.at) < |sectors.cells| && Tracks(Placed(objs[n := o]), Inserted(sectors.cells, n, o.at))
    {
      RespawnTaken(objs, TheClock(), n, objs[n := o]);
      StartReturning(objs, TheNet(), n, o);
      UnseenMayChange(objs, TheNet(), active, n, o);
      TakenRegens(objs, TheClock(), nextId);
      RegenMoved(objs, Taken(TheClock()), n, o, nextId, NOBODY);
      StillCovered(objs, sheets, target, objs[n := o], sheets, target[n := NOBODY]);
      PlacedAppear(objs, sectors.cells, n, o);
    }

    /** process_npc_respawn: bosses return to their origin, others near it. */
    method ProcessNpcRespawn(n: int, draws: seq<(nat, nat)>)
      requires Valid(NOBODY) && posted != [] && IsEvent(posted[0], n, NpcRespawn)
      modifies this`objs, this`target, this`posted, this`views, this`outbox, this`tables, this`active, this`timers
      modifies sectors
      ensures Valid(NOBODY) && posted == old(posted)[1..]
      ensures !old(IsNpc(objs, n)) ==> TheWorld() == TakenFrom(old(TheWorld()))
      ensures old(IsNpc(objs, n)) ==>
                old(objs)[n].hp <= 0 && Returns(obstacles, TakenFrom(old(TheWorld())), TheWorld(), n, draws)
    {
      if n !in objs || IsPc(n) {
        SkipRespawn(n);
        return;
      }
      var at := objs[n].origin;
      if objs[n].kind != Boss {
        at := RespawnTile(objs[n].origin, draws);
      }
      Respawn(n, at);
    }

    /** The event of an NPC that does not exist changes nothing. */
    method SkipRespawn(n: int)
      requires Valid(NOBODY) && posted != [] && IsEvent(posted[0], n, NpcRespawn) && !IsNpc(objs, n)
      modifies this`posted
      ensures Valid(NOBODY) && TheClock() == Taken(old(TheClock()))
    {
      StrayTaken(objs, TheClock());
      TakenRegens(objs, TheClock(), nextId);
      posted := posted[1..];
    }

    method Respawn(n: int, at: Tile)
      requires Valid(NOBODY) && IsNpc(objs, n) && InWorld(at) && posted != [] && IsEvent(posted[0], n, NpcRespawn)
      modifies this`objs, this`target, this`posted, this`views, this`outbox, this`tables, this`active, this`timers
      modifies sectors
      ensures Valid(NOBODY) && posted == old(posted)[1..] && old(objs)[n].hp <= 0
      ensures Respawns(TakenFrom(old(TheWorld())), TheWorld(), n, at)
    {
      Revive(n, at);
      var seen := WelcomeBackAll(n);
    }

    // ---- an NPC's tick: noticing, changing state, hurting players ----

    /** The scan shared by roaming and chasing: the nearest player in range, NOBODY for none. */
    method FindPrey(n: int) returns (prey: int)
      requires Valid(n) && IsActor(objs, n)
      ensures prey == NOBODY ==> NoPrey(objs, n)
      ensures prey != NOBODY ==> NearestPrey(objs, n, prey)
    {
      ghost var where := Placed(objs);
      var at := objs[n].at;
      var ids := sectors.Query(at, where);
      var least := INT_MAX;
      prey := NOBODY;
      for i := 0 to |ids|
        invariant prey == NOBODY ==> least == INT_MAX && forall q :: q in ids[..i] ==> !Prey(objs, n, q)
        invariant prey != NOBODY ==> Prey(objs, n, prey) && least == Manhattan(at, objs[prey].at)
        invariant forall q :: q in ids[..i] && Prey(objs, n, q) ==> least <= Manhattan(at, objs[q].at)
      {
        var q := ids[i];
        assert ids[..i + 1] == ids[..i] + [q];
        assert q in where && (IsPc(q) ==> RegenOk(objs, TheClock(), nextId, q, NOBODY));
        if IsPc(q) && q in objs && Within(at, objs[q].at, DetectRange(objs[n].kind)) {
          if Manhattan(at, objs[q].at) < least {
            least, prey := Manhattan(at, objs[q].at), q;
          }
        }
      }
      assert ids[..|ids|] == ids;
      forall q | Prey(objs, n, q)
        ensures q in ids
      {
        assert q in where;
      }
    }

    /** broadcast_npc_state after a change of state during the NPC's own tick */
    method TurnTo(n: int, mode: Mode)
      requires Valid(n) && IsActor(objs, n)
      modifies this`objs, this`outbox, this`tables
      ensures Valid(n) && objs == old(objs)[n := InMode(old(objs)[n], mode)]
    {
      assert IsNpc(objs, n);
      SetMode(n, mode, n);
      assert IsNpc(objs, n);
      assert active + {n} == active;
    }

    /** The player loses hit points and everybody around the NPC is told. */
    method Injure(n: int, q: int, dmg: int) returns (ghost audience: set<int>)
      requires Valid(n) && IsActor(objs, n) && Watching(objs, q)
      modifies this`sheets, this`outbox, this`tables
      ensures Valid(n) && q in old(sheets) && sheets == old(sheets)[q := Bruised(old(sheets)[q], dmg)]
      ensures forall r :: r in audience <==> Around(Placed(objs), objs[n].at, r)
      ensures Told(old(TheNet()), TheNet(), audience, DamageInfo(q, Bruised(old(sheets)[q], dmg).hp))
    {
      assert HasGear(objs, sheets, target, q);
      audience := TellInjury(n, q, Bruised(sheets[q], dmg).hp);
      SetSheet(q, Bruised(sheets[q], dmg), n);
    }

    method TellInjury(n: int, q: int, hp: int) returns (ghost audience: set<int>)
      requires Valid(n) && n in objs && Watching(objs, q)
      modifies this`outbox, this`tables
      ensures Valid(n) && forall r :: r in audience <==> Around(Placed(objs), objs[n].at, r)
      ensures Told(old(TheNet()), TheNet(), audience, DamageInfo(q, hp))
    {
      ghost var net0 := TheNet();
      audience := Shout(objs[n].at, DamageInfo(q, hp));
      PlayerDamageSeen(objs, net0, q, hp, audience);
    }

    /** One blow of NPC `n` at player `q`, who may die of it. */
    method Batter(n: int, q: int, dmg: int) returns (died: bool)
      requires Valid(n) && IsActor(objs, n) && Watching(objs, q)
      modifies this`objs, this`sheets, this`views, this`outbox, this`tables, this`active, this`timers, sectors
      ensures Valid(n) && q in old(sheets) && (died <==> old(sheets)[q].hp - dmg <= 0) && (!died ==> KnowsItself(q))
      ensures objs == old(objs)[q := HurtObj(old(objs)[q], old(sheets)[q], dmg)]
      ensures sheets == old(sheets)[q := HurtSheet(old(sheets)[q], dmg)] && Startling(old(objs), old(TheClock()))
    {
      ghost var objs0, sheets0 := objs, sheets;
      ghost var audience := Injure(n, q, dmg);
      died := Collapse(n, q);
      Overwrite(sheets0, q, Bruised(sheets0[q], dmg), Death(Bruised(sheets0[q], dmg)));
      Rewrite(objs0, q);
    }

    /** Since `objs0` and `c0` exactly those NPCs have been woken up that came into view of a player sent elsewhere. */
    ghost predicate Startling(objs0: Objs, c0: Clock)
      reads this
    {
      Roused(c0, TheClock(), Startled(objs0, objs))
    }

    /** A player without hit points dies, any other one is told how many are left. */
    method Collapse(n: int, q: int) returns (died: bool)
      requires Valid(n) && Watching(objs, q) && q in sheets
      modifies this`objs, this`sheets, this`views, this`outbox, this`tables, this`active, this`timers, sectors
      ensures Valid(n) && died == (old(sheets)[q].hp <= 0)
      ensures objs == if died then old(objs)[q := Pc(PC_SPAWN, old(objs)[q].dir, Playing)] else old(objs)
      ensures sheets == if died then old(sheets)[q := Death(old(sheets)[q])] else old(sheets)
      ensures !died ==> KnowsItself(q)
      ensures Startling(old(objs), old(TheClock()))
    {
      ghost var objs0, c0 := objs, TheClock();
      died := sheets[q].hp <= 0;
      if died {
        PlayerDie(q, n);
        OnePlayerStartles(objs0, q, objs[q], objs);
        RousedSame(c0, TheClock(), Met(objs0, objs, q), Startled(objs0, objs));
      } else {
        Report(q, n);
        QuietTick(objs0, objs, c0);
      }
    }

    /** m_target_id = -1 */
    method Forget(n: int, ghost ex: int)
      requires Valid(ex) && n in target
      modifies this`target
      ensures Valid(ex) && target == old(target)[n := NOBODY]
    {
      StillCovered(objs, sheets, target, objs, sheets, target[n := NOBODY]);
      target := target[n := NOBODY];
    }

    // ---- an NPC's tick: attacks ----

    /** A blow at one player. A victim of another NPC than a boss is left alone once it has died. */
    method Maul(n: int, q: int, shielded: set<int>)
      requires Valid(n) && IsActor(objs, n) && Watching(objs, q) && n in target
      requires !(objs[n].kind == Boss && BossPhase(objs[n].hp, objs[n].maxHp) == 3)
      modifies this`objs, this`sheets, this`target, this`views, this`outbox, this`tables, this`active, this`timers
      modifies sectors
      ensures Valid(n) && Ticked(obstacles, old(objs), objs, n) && q in old(sheets)
      ensures Assaulted(old(objs), old(sheets), objs, sheets, n, q, shielded)
      ensures target == if old(sheets)[q].hp - BlowTaken(BaseDamage(old(objs)[n]), q in shielded) <= 0
                        then old(target)[n := NOBODY] else old(target)
      ensures Startling(old(objs), old(TheClock()))
    {
      assert HasGear(objs, sheets, target, q);
      ghost var objs0, sheet0, c0 := objs, sheets[q], TheClock();
      var dmg := BlowTaken(BaseDamage(objs[n]), q in shielded);
      var died := Batter(n, q, dmg);
      TickHurt(obstacles, objs0, n, q, sheet0, dmg);
      assert objs[n := objs0[n]] == objs;
      if died {
        if objs[n].kind != Boss {
          TickThenMode(obstacles, objs0, objs, n, RestMode(objs[n].kind));
        }
        LetGo(n, objs0, c0);
      }
    }

    /** The victim is dead: the NPC forgets it and, unless it is a boss, goes back to rest. */
    method LetGo(n: int, ghost objs0: Objs, ghost c0: Clock)
      requires Valid(n) && IsActor(objs, n) && n in target && IsActor(objs0, n) && Startling(objs0, c0)
      modifies this`objs, this`target, this`outbox, this`tables
      ensures Valid(n) && target == old(target)[n := NOBODY] && Startling(objs0, c0)
      ensures objs == if old(objs)[n].kind == Boss then old(objs)
                      else old(objs)[n := InMode(old(objs)[n], RestMode(old(objs)[n].kind))]
    {
      Forget(n, n);
      if objs[n].kind != Boss {
        var rest := RestMode(objs[n].kind);
        ModeStartlesSame(objs0, objs, n, rest);
        RousedSame(c0, TheClock(), Startled(objs0, objs), Startled(objs0, objs[n := InMode(objs[n], rest)]));
        TurnTo(n, rest);
      }
    }

    /** One round of the boss's area attack. */
    method SweepOne(n: int, q: int, shielded: set<int>)
      requires Valid(n) && IsActor(objs, n) && IsPc(q) && n in target
      modifies this`objs, this`sheets, this`target, this`views, this`outbox, this`tables, this`active, this`timers
      modifies sectors
      ensures Valid(n) && IsActor(objs, n) && n in target && Startling(old(objs), old(TheClock()))
      ensures SweepRound(old(objs), old(sheets), old(target), n, shielded, q, objs, sheets, target)
    {
      if q !in objs || objs[q].Npc? || objs[q].status != Playing || !Within(objs[n].at, objs[q].at, BOSS_AREA_RANGE) {
        QuietTick(objs, objs, TheClock());
        return;
      }
      SweepHit(n, q, shielded);
    }

    method SweepHit(n: int, q: int, shielded: set<int>)
      requires Valid(n) && IsActor(objs, n) && IsPc(q) && n in target && InArea(objs, n, q)
      modifies this`objs, this`sheets, this`target, this`views, this`outbox, this`tables, this`active, this`timers
      modifies sectors
      ensures Valid(n) && IsActor(objs, n) && n in target && Startling(old(objs), old(TheClock()))
      ensures SweepRound(old(objs), old(sheets), old(target), n, shielded, q, objs, sheets, target)
    {
      var died := Batter(n, q, BlowTaken(BOSS_ATTACK_DMG_P3, q in shielded));
      if died && target[n] == q {
        Forget(n, n);
      }
    }

    method SweepNext(n: int, q: int, shielded: set<int>,
                     ghost objs0: Objs, ghost sheets0: map<int, NormalSheet>, ghost target0: map<int, int>,
                     ghost c0: Clock, ghost done: set<int>)
      requires Valid(n) && Swept(objs0, sheets0, target0, n, shielded, done, objs, sheets, target) && n in target
      requires q !in done && IsPc(q) && !IsPc(n) && (InArea(objs0, n, q) ==> q in sheets0)
      requires Shaped(objs0) && Startling(objs0, c0)
      modifies this`objs, this`sheets, this`target, this`views, this`outbox, this`tables, this`active, this`timers
      modifies sectors
      ensures Valid(n) && Swept(objs0, sheets0, target0, n, shielded, done + {q}, objs, sheets, target) && n in target
      ensures Startling(objs0, c0)
    {
      ghost var objs1, sheets1, target1, c1 := objs, sheets, target, TheClock();
      SweepOne(n, q, shielded);
      SweptMore(objs0, sheets0, target0, n, shielded, done, objs1, sheets1, target1, q, objs, sheets, target);
      SweepStartles(objs0, sheets0, objs1, sheets1, target1, n, shielded, done, q, objs, sheets, target);
      RousedJoin(c0, c1, TheClock(), Startled(objs0, objs1), Startled(objs1, objs));
      RousedSame(c0, TheClock(), Startled(objs0, objs1) + Startled(objs1, objs), Startled(objs0, objs));
    }

    /** The loop over whoever is in the nine sectors around the boss. */
    method SweepAround(n: int, shielded: set<int>) returns (ghost done: set<int>)
      requires Valid(n) && IsActor(objs, n) && n in target
      modifies this`objs, this`sheets, this`target, this`views, this`outbox, this`tables, this`active, this`timers
      modifies sectors
      ensures Valid(n) && n in target && Startling(old(objs), old(TheClock()))
      ensures Swept(old(objs), old(sheets), old(target), n, shielded, done, objs, sheets, target)
      ensures forall q :: q in done <==> IsPc(q) && Around(Placed(old(objs)), old(objs)[n].at, q)
    {
      ghost var objs0, sheets0, target0, c0 := objs, sheets, target, TheClock();
      var ids := sectors.Query(objs[n].at, Placed(objs));
      done := {};
      AreaStart(objs, sheets, n, shielded);
      QuietTick(objs, objs, c0);
      for i := 0 to |ids|
        invariant Valid(n) && Swept(objs0, sheets0, target0, n, shielded, done, objs, sheets, target) && n in target
        invariant Startling(objs0, c0)
        invariant forall q :: q in done <==> q in ids[..i] && IsPc(q)
      {
        var q := ids[i];
        assert ids[..i + 1] == ids[..i] + [q];
        if IsPc(q) {
          assert HasGear(objs0, sheets0, target0, q);
          SweepNext(n, q, shielded, objs0, sheets0, target0, c0, done);
          done := done + {q};
        }
      }
      assert ids[..|ids|] == ids;
    }

    /** Phase three: every player in the area is hit exactly once. */
    method Sweep(n: int, shielded: set<int>)
      requires Valid(n) && IsActor(objs, n) && n in target
      modifies this`objs, this`sheets, this`target, this`views, this`outbox, this`tables, this`active, this`timers
      modifies sectors
      ensures Valid(n) && IsActor(objs, n) && n in target
      ensures target == if old(FallsToSweep(objs, sheets, n, shielded, target[n]))
                        then old(target)[n := NOBODY] else old(target)
      ensures AreaSoFar(old(objs), old(sheets), objs, sheets, n, shielded, old(objs).Keys)
      ensures Startling(old(objs), old(TheClock()))
    {
      ghost var objs0, sheets0 := objs, sheets;
      ghost var done := SweepAround(n, shielded);
      forall q | InArea(objs0, n, q)
        ensures q in done
      {
        WithinSectorSizeTouches(objs0[q].at, objs0[n].at);
      }
      AreaDone(objs0, sheets0, objs, sheets, n, shielded, done);
    }

    // ---- an NPC's tick: walking ----

    /** The walk of do_roaming_move; `r` is the random number drawn. */
    method Wander(n: int, r: nat)
      requires Valid(n) && IsActor(objs, n)
      modifies this`objs, this`views, this`outbox, this`tables, sectors
      ensures Valid(n) && Ticked(obstacles, old(objs), objs, n)
      ensures objs == Strolled(obstacles, old(objs), n, r)
      ensures n in objs && Roams(obstacles, old(objs)[n], r, objs[n].at, objs[n].dir)
      ensures Startling(old(objs), old(TheClock()))
    {
      var (to, dir) := RoamStep(obstacles, objs[n], r);
      RoamStepSound(obstacles, objs[n], r);
      RoamStepExact(obstacles, objs[n], r);
      QuietStep(objs, n, NpcAt(objs[n], to, dir), objs[n := NpcAt(objs[n], to, dir)], TheClock());
      TickStep(obstacles, objs, n, to, dir);
      assert IsNpc(objs, n);
      StepNpc(n, to, dir);
    }

    /** The last part of do_chase_move: one step along a shortest walk to the target, if there is one. */
    method Approach(n: int, q: int)
      requires Valid(n) && IsActor(objs, n) && Watching(objs, q)
      modifies this`objs, this`views, this`outbox, this`tables, sectors
      ensures Valid(n) && Ticked(obstacles, old(objs), objs, n)
      ensures Approached(obstacles, old(objs), objs, n, q) && Startling(old(objs), old(TheClock()))
    {
      var from, to := objs[n].at, objs[q].at;
      var next, dir := from, objs[n].dir;
      ghost var pushes;
      next, pushes := AStar.NextStep(obstacles, from, to);
      if next != from {
        dir := Facing(from, next);
        AStar.StepIsFree(obstacles, from, to, next);
      }
      TickStep(obstacles, objs, n, next, dir);
      QuietStep(objs, n, NpcAt(objs[n], next, dir), objs[n := NpcAt(objs[n], next, dir)], TheClock());
      assert IsNpc(objs, n);
      StepNpc(n, next, dir);
    }

    // ---- an NPC's tick: roaming and chasing ----

    /** How many further calls the two movement routines can need between them. */
    ghost function Tries(n: int): nat
      requires IsActor(objs, n) && n in target
      reads this
    {
      if target[n] == NOBODY && NoPrey(objs, n) then 0 else 2
    }

    method SetTarget(n: int, q: int)
      requires Valid(n) && n in target
      modifies this`target
      ensures Valid(n) && target == old(target)[n := q]
    {
      StillCovered(objs, sheets, target, objs, sheets, target[n := q]);
      target := target[n := q];
    }

    /** A target that has left the game or the detection range is dropped. */
    method DropLostTarget(n: int)
      requires Valid(n) && IsActor(objs, n) && n in target
      modifies this`target
      ensures Valid(n)
      ensures target == old(target)[n := if OnTrail(objs, n, old(target)[n]) then old(target)[n] else NOBODY]
    {
      var q := target[n];
      Rewrite(target, n);
      if q != NOBODY {
        if q !in objs || !IsPc(q) || objs[q].Npc? || objs[q].status != Playing ||
           !Within(objs[n].at, objs[q].at, DetectRange(objs[n].kind)) {
          SetTarget(n, NOBODY);
        }
      }
    }

    /** Drop a target that has left the game or the detection range, then look for a new one. */
    method PickTarget(n: int)
      requires Valid(n) && IsActor(objs, n) && n in target
      modifies this`target
      ensures Valid(n) && n in target && Picks(objs, n, old(target)[n], target[n])
      ensures target == old(target)[n := target[n]]
    {
      ghost var target0 := target;
      DropLostTarget(n);
      if target[n] == NOBODY && objs[n].kind != Peace {
        var prey := FindPrey(n);
        Overwrite(target0, n, target[n], prey);
        SetTarget(n, prey);
      }
    }

    /** The switch from roaming to chasing, taken in the same tick. */
    method GiveChase(n: int, r: nat, shielded: set<int>) returns (t: int, ghost calls: nat)
      requires Valid(n) && IsActor(objs, n) && n in target && target[n] != NOBODY && objs[n].kind != Peace
      modifies this`objs, this`sheets, this`target, this`views, this`outbox, this`tables, this`active, this`timers
      modifies sectors
      ensures Valid(n) && n in target && Ticked(obstacles, old(objs), objs, n)
      ensures Picks(old(objs), n, old(target)[n], t)
      ensures Chased(obstacles, old(objs), old(sheets), objs, sheets, n, t, r, shielded)
      ensures target == old(target)[n := StillAfter(old(objs), old(sheets), n, t, shielded)]
      ensures Startling(old(objs), old(TheClock()))
      ensures calls <= 3
      decreases 2, 0
    {
      ghost var objs0, sheets0, q, c0 := objs, sheets, target[n], TheClock();
      TurnTo(n, Chase);
      t, calls := DoChaseMove(n, r, shielded);
      TickAfterMode(obstacles, objs0, Chase, objs, n);
      ChasedAfterMode(obstacles, objs0, sheets0, Chase, objs, sheets, n, t, r, shielded);
      PicksAfterMode(objs0, n, Chase, q, t);
      StillAfterMode(objs0, sheets0, n, Chase, t, shielded);
      StartledAfterMode(objs0, Chase, c0, n);
      calls := calls + 1;
    }

    /** A change of state before makes no difference to who has been startled. */
    lemma StartledAfterMode(objs0: Objs, mode: Mode, c0: Clock, n: int)
      requires IsActor(objs0, n) && IsActor(objs, n) && Startling(objs0[n := InMode(objs0[n], mode)], c0)
      ensures Startling(objs0, c0)
    {
      ModeStartlesSame(objs0, objs, n, mode);
      RousedSame(c0, TheClock(), Startled(objs0[n := InMode(objs0[n], mode)], objs), Startled(objs0, objs));
    }

    /** do_roaming_move: on to the nearest prey in sight or the old target, otherwise a step at random. */
    method DoRoamingMove(n: int, r: nat, shielded: set<int>) returns (t: int, ghost calls: nat)
      requires Valid(n) && IsActor(objs, n) && n in target && objs[n].mode == Roaming
      modifies this`objs, this`sheets, this`target, this`views, this`outbox, this`tables, this`active, this`timers
      modifies sectors
      ensures Valid(n) && n in target && Ticked(obstacles, old(objs), objs, n)
      ensures old(objs)[n].kind == Peace ==> t == NOBODY && sheets == old(sheets)
      ensures old(objs)[n].kind == Peace ==> objs == Strolled(obstacles, old(objs), n, r)
      ensures old(objs)[n].kind != Peace ==> Spots(old(objs), n, old(target)[n], t)
      ensures old(objs)[n].kind != Peace ==> Chased(obstacles, old(objs), old(sheets), objs, sheets, n, t, r, shielded)
      ensures target == if old(objs)[n].kind == Peace then old(target)
                        else old(target)[n := StillAfter(old(objs), old(sheets), n, t, shielded)]
      ensures Startling(old(objs), old(TheClock()))
      ensures calls <= old(Tries(n)) + 1
      decreases Tries(n), 1
    {
      t, calls := NOBODY, 1;
      if objs[n].kind == Peace {
        Wander(n, r);
        return;
      }
      ghost var target0 := target;
      Rewrite(target, n);
      var prey := FindPrey(n);
      if prey != NOBODY {
        SetTarget(n, prey);
      }
      if target[n] == NOBODY {
        RoamerStrolls(obstacles, objs, sheets, n, r, shielded);
        Wander(n, r);
      } else {
        t, calls := GiveChase(n, r, shielded);
        Overwrite(target0, n, prey, target[n]);
      }
    }

    /** Nobody to chase: back to rest, and a roamer walks on at once. */
    method GiveUp(n: int, r: nat, shielded: set<int>) returns (ghost calls: nat)
      requires Valid(n) && IsActor(objs, n) && n in target && target[n] == NOBODY
      requires objs[n].kind == Peace || NoPrey(objs, n)
      modifies this`objs, this`sheets, this`target, this`views, this`outbox, this`tables, this`active, this`timers
      modifies sectors
      ensures Valid(n) && n in target && Ticked(obstacles, old(objs), objs, n)
      ensures sheets == old(sheets) && objs == Rested(obstacles, old(objs), n, r) && target == old(target)
      ensures Startling(old(objs), old(TheClock()))
      ensures calls <= 2
      decreases 1, 0
    {
      calls := 1;
      ghost var objs0, target0, c0 := objs, target, TheClock();
      var rest := RestMode(objs[n].kind);
      if objs[n].kind == Peace {
        TickNothing(obstacles, objs, n);
        TickThenMode(obstacles, objs, objs, n, rest);
        QuietStep(objs, n, InMode(objs[n], rest), objs[n := InMode(objs[n], rest)], c0);
        TurnTo(n, rest);
      } else {
        NoPreyAfterMode(objs, n, rest);
        Rewrite(target0, n);
        TurnTo(n, rest);
        var t;
        t, calls := DoRoamingMove(n, r, shielded);
        ChasedAfterMode(obstacles, old(objs), old(sheets), rest, objs, sheets, n, t, r, shielded);
        TickAfterMode(obstacles, old(objs), rest, objs, n);
        StartledAfterMode(objs0, rest, c0, n);
        calls := calls + 1;
      }
    }

    method Assault(n: int, q: int, shielded: set<int>)
      requires Valid(n) && IsActor(objs, n) && n in target && target[n] == q && Watching(objs, q)
      requires Within(objs[n].at, objs[q].at, AttackReach(objs[n].kind))
      modifies this`objs, this`sheets, this`target, this`views, this`outbox, this`tables, this`active, this`timers
      modifies sectors
      ensures Valid(n) && Ticked(obstacles, old(objs), objs, n)
      ensures Assaulted(old(objs), old(sheets), objs, sheets, n, q, shielded)
      ensures n in target && target == if old(Fells(objs, sheets, n, q, shielded)) then old(target)[n := NOBODY]
                                       else old(target)
      ensures Startling(old(objs), old(TheClock()))
    {
      assert HasGear(objs, sheets, target, q);
      if objs[n].kind == Boss && BossPhase(objs[n].hp, objs[n].maxHp) == 3 {
        Sweep(n, shielded);
        TickArea(obstacles, old(objs), old(sheets), objs, sheets, n, shielded, old(objs).Keys);
      } else {
        Maul(n, q, shielded);
      }
    }

    /** do_chase_move: give up, attack, or step closer to the quarry `t`. */
    method DoChaseMove(n: int, r: nat, shielded: set<int>) returns (t: int, ghost calls: nat)
      requires Valid(n) && IsActor(objs, n) && n in target && objs[n].mode == Chase
      modifies this`objs, this`sheets, this`target, this`views, this`outbox, this`tables, this`active, this`timers
      modifies sectors
      ensures Valid(n) && n in target && Ticked(obstacles, old(objs), objs, n)
      ensures Picks(old(objs), n, old(target)[n], t)
      ensures Chased(obstacles, old(objs), old(sheets), objs, sheets, n, t, r, shielded)
      ensures target == old(target)[n := StillAfter(old(objs), old(sheets), n, t, shielded)]
      ensures Startling(old(objs), old(TheClock()))
      ensures calls <= 2
      decreases 1, 1
    {
      calls := 1;
      ghost var target0 := target;
      PickTarget(n);
      t := target[n];
      if t == NOBODY {
        calls := GiveUp(n, r, shielded);
      } else {
        Hunt(n, t, r, shielded);
        Overwrite(target0, n, t, target[n]);
      }
    }

    /** Attack the quarry if it is near enough, step closer otherwise. */
    method Hunt(n: int, t: int, ghost r: nat, shielded: set<int>)
      requires Valid(n) && IsActor(objs, n) && n in target && objs[n].mode == Chase
      requires t != NOBODY && target[n] == t && Watching(objs, t)
      modifies this`objs, this`sheets, this`target, this`views, this`outbox, this`tables, this`active, this`timers
      modifies sectors
      ensures Valid(n) && n in target && Ticked(obstacles, old(objs), objs, n)
      ensures Chased(obstacles, old(objs), old(sheets), objs, sheets, n, t, r, shielded)
      ensures target == old(target)[n := StillAfter(old(objs), old(sheets), n, t, shielded)]
      ensures Startling(old(objs), old(TheClock()))
    {
      assert InMode(objs[n], Chase) == objs[n];
      Rewrite(objs, n);
      Rewrite(target, n);
      if Within(objs[n].at, objs[t].at, AttackReach(objs[n].kind)) {
        Assault(n, t, shielded);
      } else {
        Approach(n, t);
      }
    }

    // ---- an NPC's tick: from event to event ----

    /** A worker takes the move event of an NPC. */
    method TakeMove(n: int)
      requires Valid(NOBODY) && posted != [] && IsEvent(posted[0], n, NpcMove)
      modifies this`posted
      ensures TheClock() == Taken(old(TheClock())) && Valid(if IsActor(objs, n) then n else NOBODY)
    {
      if IsNpc(objs, n) {
        MoveTaken(objs, TheClock(), n);
      } else {
        StrayTaken(objs, TheClock());
      }
      TakenRegens(objs, TheClock(), nextId);
      posted := posted[1..];
    }

    /** The NPC falls asleep: it may be woken up again. */
    method FallAsleep(n: int)
      requires Valid(n) && IsActor(objs, n)
      requires objs[n].mode == Client.Idle || forall q :: q in views ==> n !in views[q]
      modifies this`active
      ensures Valid(NOBODY) && TheClock() == Asleep(old(TheClock()), n)
    {
      assert IsNpc(objs, n);
      TickEnds(objs, TheClock(), n, 0);
      OtherPushRegens(objs, TheClock(), Event(n, now, NpcMove), active - {n}, nextId);
      if objs[n].mode == Client.Idle {
        IdleMayRest(objs, views, active, n);
      } else {
        UnseenMayRest(objs, views, active, n);
      }
      active := active - {n};
    }

    method QueueTick(n: int, cool: int)
      requires Valid(n) && IsActor(objs, n) && cool <= ATTACK_COOL_TIME
      modifies this`timers
      ensures Valid(NOBODY)
      ensures TheClock() == Push(old(TheClock()), Event(n, old(TheClock()).now + cool, NpcMove))
    {
      assert IsNpc(objs, n);
      var e := Event(n, now + cool, NpcMove);
      ghost var c := TheClock();
      assert e == Event(n, c.now + cool, NpcMove);
      TickEnds(objs, c, n, cool);
      OtherPushRegens(objs, c, e, active, nextId);
      Enqueue(e);
    }

    /** Somebody near enough to keep the NPC awake; `close` tells whether the first one found is in attack range. */
    method FindCompany(n: int) returns (near: bool, close: bool)
      requires Valid(n) && IsActor(objs, n)
      ensures near <==> exists q :: Nearby(objs, n, q)
      ensures close ==> exists q :: Nearby(objs, n, q) && Within(objs[n].at, objs[q].at, ATTACK_RANGE)
      ensures near && !close ==> exists q :: Nearby(objs, n, q) && !Within(objs[n].at, objs[q].at, ATTACK_RANGE)
    {
      ghost var where := Placed(objs);
      var at := objs[n].at;
      var ids := sectors.Query(at, where);
      near, close := false, false;
      for i := 0 to |ids|
        invariant !near && !close && forall q :: q in ids[..i] ==> !Nearby(objs, n, q)
      {
        var q := ids[i];
        assert ids[..i + 1] == ids[..i] + [q];
        assert q in where;
        if IsPc(q) && q in objs {
          if objs[n].kind == Boss || Within(at, objs[q].at, StayRange(objs[n])) {
            assert Nearby(objs, n, q);
            return true, Within(at, objs[q].at, ATTACK_RANGE);
          }
        }
      }
      assert ids[..|ids|] == ids;
      forall q
        ensures Nearby(objs, n, q) ==> Touching(objs[q].at, at)
      {
        NearbyTouches(objs, n, q);
      }
    }

    /** The last part of process_npc_move: does the NPC go on, and when? */
    method NextTick(n: int) returns (near: bool, cool: int)
      requires Valid(n) && IsActor(objs, n) && n in target
      ensures near <==> HasCompany(objs, n, target[n])
      ensures near ==> 250 <= cool <= 1000 && Pace(objs, n, target[n], cool)
    {
      var close;
      if objs[n].kind == Boss {
        var phase := BossPhase(objs[n].hp, objs[n].maxHp);
        cool := BossCool(phase, false);
        if BossTrails(objs, n, target[n]) {
          cool := BossCool(phase, Within(objs[n].at, objs[target[n]].at, BOSS_ATTACK_RANGE));
          return true, cool;
        }
        near, close := FindCompany(n);
      } else {
        near, close := FindCompany(n);
        cool := if objs[n].kind == Agro && target[n] != NOBODY && close then ATTACK_COOL_TIME else MOVE_COOL_TIME;
      }
    }

    /** One tick, once its event has been taken: move, then queue the next one or fall asleep. */
    method Tick(n: int, r: nat, shielded: set<int>) returns (ghost t: int, ghost cool: int)
      requires Valid(n) && IsActor(objs, n) && n in target
      modifies this`objs, this`sheets, this`target, this`views, this`outbox, this`tables, this`active, this`timers
      modifies sectors
      ensures Valid(NOBODY) && Ticks(obstacles, old(TheWorld()), TheWorld(), n, t, cool, r, shielded)
    {
      t, cool := NOBODY, 0;
      if objs[n].mode == Idle {
        TickNothing(obstacles, objs, n);
        Rewrite(target, n);
        FallAsleep(n);
      } else {
        t, cool := ActAndGoOn(n, r, shielded);
      }
    }

    method ActAndGoOn(n: int, r: nat, shielded: set<int>) returns (ghost t: int, ghost cool: int)
      requires Valid(n) && IsActor(objs, n) && n in target && objs[n].mode != Idle
      modifies this`objs, this`sheets, this`target, this`views, this`outbox, this`tables, this`active, this`timers
      modifies sectors
      ensures Valid(NOBODY) && Ticks(obstacles, old(TheWorld()), TheWorld(), n, t, cool, r, shielded)
    {
      ghost var objs0, sheets0, target0, c0 := objs, sheets, target, TheClock();
      t := Act(n, r, shielded);
      ghost var target1, c := target, TheClock();
      cool := GoOn(n);
      TickEnded(objs0, sheets0, target0, n, t, cool, shielded, objs, target1, target, c0, c, TheClock());
    }

    /** The movement routine for the NPC's state. */
    method Act(n: int, r: nat, shielded: set<int>) returns (ghost t: int)
      requires Valid(n) && IsActor(objs, n) && n in target && objs[n].mode != Idle
      modifies this`objs, this`sheets, this`target, this`views, this`outbox, this`tables, this`active, this`timers
      modifies sectors
      ensures Valid(n) && n in target && Ticked(obstacles, old(objs), objs, n)
      ensures TickDone(obstacles, old(objs), old(sheets), objs, sheets, n, old(target)[n], t, r, shielded)
      ensures target == old(target)[n := AimOf(old(objs), old(sheets), n, old(target)[n], t, shielded)]
      ensures Startling(old(objs), old(TheClock()))
    {
      ghost var calls;
      Rewrite(target, n);
      if objs[n].mode == Roaming {
        t, calls := DoRoamingMove(n, r, shielded);
      } else {
        t, calls := DoChaseMove(n, r, shielded);
      }
    }

    /** The last part of process_npc_move: one more move event, or sleep. */
    method GoOn(n: int) returns (cool: int)
      requires Valid(n) && IsActor(objs, n) && n in target
      modifies this`target, this`active, this`timers
      ensures Valid(NOBODY) && WentOn(objs, n, old(target), target, cool, old(TheClock()), TheClock())
    {
      var near;
      near, cool := NextTick(n);
      if near {
        KeptGoing(objs, n, target, cool, TheClock());
        QueueTick(n, cool);
      } else {
        LeftAlone(objs, n, target, cool, TheClock());
        AloneIsUnseen(objs, TheNet(), n, target[n]);
        Retire(n);
      }
    }

    /** The NPC falls asleep, and forgets its target if it is aggressive. */
    method Retire(n: int)
      requires Valid(n) && IsActor(objs, n) && n in target && forall q :: q in views ==> n !in views[q]
      modifies this`target, this`active
      ensures Valid(NOBODY) && TheClock() == Asleep(old(TheClock()), n)
      ensures target == if objs[n].kind == Agro then old(target)[n := NOBODY] else old(target)
    {
      FallAsleep(n);
      if objs[n].kind == Agro {
        Forget(n, NOBODY);
      }
    }

    /** process_npc_move */
    method ProcessNpcMove(n: int, r: nat, shielded: set<int>) returns (ghost t: int, ghost cool: int)
      requires Valid(NOBODY) && posted != [] && IsEvent(posted[0], n, NpcMove)
      modifies this`objs, this`sheets, this`target, this`views, this`outbox, this`tables, this`active, this`timers
      modifies this`posted, sectors
      ensures Valid(NOBODY) && posted == old(posted)[1..]
      ensures !old(IsActor(objs, n)) ==> TheWorld() == TakenFrom(old(TheWorld()))
      ensures old(IsActor(objs, n)) ==>
                Ticks(obstacles, TakenFrom(old(TheWorld())), TheWorld(), n, t, cool, r, shielded)
    {
      TakeMove(n);
      t, cool := NOBODY, 0;
      if n !in objs || IsPc(n) || objs[n].Pc? || objs[n].hp <= 0 {
        return;
      }
      assert HasGear(objs, sheets, target, n);
      t, cool := Tick(n, r, shielded);
    }

    // ---- regeneration ----

    /** process_hp_regen */
    method ProcessHpRegen(p: int)
      requires Valid(NOBODY) && posted != [] && IsEvent(posted[0], p, HpRegen)
      modifies this`sheets, this`outbox, this`tables, this`timers, this`posted
      ensures Valid(NOBODY) && posted == old(posted)[1..]
      ensures Watching(objs, p) ==> p in old(sheets) && sheets == old(sheets)[p := Regenerated(old(sheets)[p])]
      ensures Watching(objs, p) && old(sheets)[p].hp < old(sheets)[p].maxHp ==> KnowsItself(p)
      ensures !Watching(objs, p) ==> sheets == old(sheets)
      ensures TheClock() == if Watching(objs, p) then Push(Taken(old(TheClock())), NextRegen(p, now))
                            else Taken(old(TheClock()))
    {
      TakeRegen(p);
      if p !in objs || !IsPc(p) || objs[p].Npc? || objs[p].status != Playing {
        return;
      }
      HealAndWait(p);
    }

    /** The player regains a tenth of its hit points, and waits for the next time. */
    method HealAndWait(p: int)
      requires Wired() && Tracked() && Equipped() && Exact(objs, TheNet()) && Watching(objs, p)
      requires Scheduled(objs, TheClock(), NOBODY) && NoLostWakeUp(objs, views, active)
      requires Regenerating(objs, TheClock(), nextId, p)
      modifies this`sheets, this`outbox, this`tables, this`timers
      ensures Valid(NOBODY) && TheClock() == Push(old(TheClock()), NextRegen(p, now))
      ensures p in old(sheets) && sheets == old(sheets)[p := Regenerated(old(sheets)[p])]
      ensures old(sheets)[p].hp < old(sheets)[p].maxHp ==> KnowsItself(p)
    {
      Heal(p);
      PushRegen(p);
    }

    method TakeRegen(p: int)
      requires Valid(NOBODY) && posted != [] && IsEvent(posted[0], p, HpRegen)
      modifies this`posted
      ensures Wired() && Tracked() && Equipped() && Exact(objs, TheNet())
      ensures Scheduled(objs, TheClock(), NOBODY) && NoLostWakeUp(objs, views, active)
      ensures Regenerating(objs, TheClock(), nextId, if Watching(objs, p) then p else NOBODY)
      ensures posted == old(posted)[1..] && TheClock() == Taken(old(TheClock()))
    {
      RegenTakeKeeps(objs, TheClock());
      RegenTaken(objs, TheClock(), nextId);
      posted := posted[1..];
    }

    method Heal(p: int)
      requires Wired() && Equipped() && Exact(objs, TheNet()) && Watching(objs, p)
      modifies this`sheets, this`outbox, this`tables
      ensures Wired() && Equipped() && TheNet() == old(TheNet())
      ensures p in old(sheets) && sheets == old(sheets)[p := Regenerated(old(sheets)[p])]
      ensures old(sheets)[p].hp < old(sheets)[p].maxHp ==> KnowsItself(p)
    {
      assert HasGear(objs, sheets, target, p);
      StillCovered(objs, sheets, target, objs, sheets[p := Regenerated(sheets[p])], target);
      var hurt := sheets[p].hp < sheets[p].maxHp;
      sheets := sheets[p := Regenerated(sheets[p])];
      if hurt {
        SendOwnStat(p);
      }
    }

    // ---- the timer thread and the clock ----

    /** The timer thread pops an earliest event and, if it is due, posts it. */
    method TimerStep() returns (due: bool, i: nat)
      requires Valid(NOBODY)
      modifies this`timers, this`posted
      ensures Valid(NOBODY)
      ensures due <==> exists e :: e in old(timers) && e.at <= now
      ensures due ==> Earliest(old(timers), i) && old(timers)[i].at <= now && TheClock() == Posted(old(TheClock()), i)
      ensures !due ==> TheClock() == old(TheClock())
    {
      due, i := false, 0;
      if timers == [] {
        return;
      }
      var first := FindEarliest(timers);
      // the queue leaves open which of several equally early events comes first
      i :| 0 <= i < |timers| && timers[i].at == timers[first].at;
      due := timers[i].at <= now;
      if due {
        assert timers[i] in timers;
        PostKeeps(objs, TheClock(), i);
        PostedRegens(objs, TheClock(), i, nextId);
        posted, timers := posted + [timers[i]], Without(timers, i);
      }
    }

    method TimePass(ms: nat)
      requires Valid(NOBODY)
      modifies this`now
      ensures Valid(NOBODY) && TheWorld() in AfterTime(old(TheWorld()), ms)
    {
      TimePasses(objs, TheClock(), now + ms);
      RegenUnaffected(objs, TheClock(), objs, TheClock().(now := now + ms), nextId, NOBODY);
      now := now + ms;
    }

    /** A worker takes the oldest completion. */
    method WorkerStep(draws: seq<(nat, nat)>, r: nat, shielded: set<int>)
      requires Valid(NOBODY)
      modifies this`objs, this`sheets, this`target, this`views, this`outbox, this`tables, this`active, this`timers
      modifies this`posted, sectors
      ensures Valid(NOBODY) && objs.Keys == old(objs).Keys
      ensures posted == if old(posted) == [] then [] else old(posted)[1..]
      ensures TheWorld() in AfterWorker(obstacles, old(TheWorld()), draws, r, shielded)
    {
      if posted == [] {
        return;
      }
      var e := posted[0];
      match e.kind {
        case NpcMove => RunMove(e, r, shielded);
        case HpRegen => RunRegen(e);
        case NpcRespawn => RunRespawn(e, draws);
      }
    }

    method RunMove(e: Event, r: nat, shielded: set<int>)
      requires Valid(NOBODY) && posted != [] && e == posted[0] && e.kind == NpcMove
      modifies this`objs, this`sheets, this`target, this`views, this`outbox, this`tables, this`active, this`timers
      modifies this`posted, sectors
      ensures Valid(NOBODY) && objs.Keys == old(objs).Keys && posted == old(posted)[1..]
      ensures TheWorld() in AfterMove(obstacles, TakenFrom(old(TheWorld())), e.id, r, shielded)
    {
      ghost var t, cool := ProcessNpcMove(e.id, r, shielded);
    }

    method RunRegen(e: Event)
      requires Valid(NOBODY) && posted != [] && e == posted[0] && e.kind == HpRegen
      modifies this`sheets, this`outbox, this`tables, this`timers, this`posted
      ensures Valid(NOBODY) && posted == old(posted)[1..]
      ensures TheWorld() in AfterRegen(TakenFrom(old(TheWorld())), e.id)
    {
      ProcessHpRegen(e.id);
    }

    method RunRespawn(e: Event, draws: seq<(nat, nat)>)
      requires Valid(NOBODY) && posted != [] && e == posted[0] && e.kind == NpcRespawn
      modifies this`objs, this`target, this`posted, this`views, this`outbox, this`tables, this`active, this`timers
      modifies sectors
      ensures Valid(NOBODY) && objs.Keys == old(objs).Keys && posted == old(posted)[1..]
      ensures TheWorld() in AfterRespawn(obstacles, TakenFrom(old(TheWorld())), e.id, draws)
    {
      ProcessNpcRespawn(e.id, draws);
    }

    // ---- whole runs ----

    /** Every session is saved at most once, when it has left for good: ids are never handed out again. */
    ghost predicate SavedForGood()
      reads this
    {
      NoDuplicates(saves) && forall id :: id in saves ==> id < nextId && id !in objs
    }

    // ---- one event ----

    predicate IsSession(p: int)
      reads this
    {
      p in objs && IsPc(p) && objs[p].Pc?
    }

    method Connecting()
      requires Valid(NOBODY) && SavedForGood()
      modifies this`objs, this`sheets, this`views, this`outbox, this`tables, this`nextId
      ensures Valid(NOBODY) && SavedForGood() && TheWorld() in AfterConnect(old(TheWorld()))
    {
      var id := Accept();
    }

    /** A session logs in, or fails to. */
    method Shift(p: int, status: Status)
      requires Valid(NOBODY) && SavedForGood() && p in objs && objs[p].Pc?
      requires objs[p].status != Playing && status != Playing
      modifies this`objs
      ensures Valid(NOBODY) && SavedForGood() && Changes(old(TheWorld()), TheWorld(), p, status)
    {
      SetStatus(p, status);
    }

    method Enter(p: int, at: Tile, sheet: NormalSheet)
      requires Valid(NOBODY) && SavedForGood() && p in objs && objs[p].Pc? && objs[p].status != Playing && InWorld(at)
      modifies this`objs, this`sheets, this`views, this`outbox, this`tables, this`active, this`timers, sectors
      ensures Valid(NOBODY) && SavedForGood() && Enters(old(TheWorld()), TheWorld(), p, at, sheet)
    {
      EnterWorld(p, at, sheet);
    }

    /** C2S_LOGIN of an ordinary player */
    method LoggingIn(p: int)
      requires Valid(NOBODY) && SavedForGood()
      modifies this`objs
      ensures Valid(NOBODY) && SavedForGood() && TheWorld() in AfterLogin(old(TheWorld()), p)
    {
      if InState(objs, p, Connected) {
        Shift(p, AwaitingDb);
      }
    }

    /** C2S_LOGIN of a bot */
    method BotLoggingIn(p: int, at: Tile)
      requires Valid(NOBODY) && SavedForGood() && InWorld(at)
      modifies this`objs, this`sheets, this`views, this`outbox, this`tables, this`active, this`timers, sectors
      ensures Valid(NOBODY) && SavedForGood() && TheWorld() in AfterBotLogin(old(TheWorld()), p, at)
    {
      if InState(objs, p, Connected) {
        Enter(p, at, NEW_SHEET);
      }
    }

    /** IO_DB_LOGIN */
    method Loading(p: int, found: bool, at: Tile, rank: Rank, hp: int, kills: seq<int>, inventory: seq<int>)
      requires Valid(NOBODY) && SavedForGood() && InWorld(at)
      requires Normal(rank) && |kills| == QUEST_COUNT && |inventory| == ITEM_SLOT_COUNT
      modifies this`objs, this`sheets, this`views, this`outbox, this`tables, this`active, this`timers, sectors
      ensures Valid(NOBODY) && SavedForGood()
      ensures TheWorld() in AfterLoaded(old(TheWorld()), p, found, at, rank, hp, kills, inventory)
    {
      if InState(objs, p, AwaitingDb) {
        if found {
          var sheet: NormalSheet := FromDatabase(rank, hp, kills, inventory);
          Enter(p, at, sheet);
        } else {
          Shift(p, LoggedOut);
        }
      }
    }

    method HangingUp(p: int, fails: set<(int, int)>)
      requires Valid(NOBODY) && SavedForGood()
      modifies this`objs, this`views, this`outbox, this`tables, this`saves, sectors
      ensures Valid(NOBODY) && SavedForGood() && TheWorld() in AfterHangup(old(TheWorld()), p, fails)
    {
      if p in objs && IsPc(p) {
        HangUp(p, fails);
      }
    }

    method HangUp(p: int, fails: set<(int, int)>)
      requires Valid(NOBODY) && SavedForGood() && p in objs && IsPc(p)
      modifies this`objs, this`views, this`outbox, this`tables, this`saves, sectors
      ensures Valid(NOBODY) && SavedForGood() && Leaves(old(TheWorld()), TheWorld(), p, fails)
    {
      assert forall id :: id in objs && IsPc(id) ==> RegenOk(objs, TheClock(), nextId, id, NOBODY);
      ghost var objs0 := objs;
      ghost var log := Leave(p, fails);
      NoDuplicatesJoin(old(saves), log);
      assert SavedExactly(objs0, objs, log);
    }

    method SessionStep(s: Stimulus)
      requires Valid(NOBODY) && SavedForGood() && Sane(s)
      requires s.Connect? || s.Login? || s.BotLogin? || s.Loaded? || s.Hangup?
      modifies this, sectors
      ensures Valid(NOBODY) && SavedForGood() && TheWorld() in Outcomes(obstacles, old(TheWorld()), s)
    {
      match s {
        case Connect => Connecting();
        case Login(p) => LoggingIn(p);
        case BotLogin(p, at) => BotLoggingIn(p, at);
        case Loaded(p, found, at, rank, hp, kills, inventory) =>
          Loading(p, found, at, rank, hp, kills, inventory);
        case Hangup(p, fails) => HangingUp(p, fails);
      }
    }

    /** C2S_MOVE */
    method Walking(p: int, dir: Direction, boosted: bool)
      requires Valid(NOBODY)
      modifies this`objs, this`sheets, this`views, this`outbox, this`tables, this`active, this`timers, sectors, ground
      ensures Valid(NOBODY) && objs.Keys == old(objs).Keys
      ensures TheWorld() in AfterWalk(obstacles, old(TheWorld()), p, dir, boosted)
    {
      if InState(objs, p, Playing) {
        Move(p, dir, boosted);
      }
    }

    /** C2S_CHAT */
    method Saying(p: int)
      requires Valid(NOBODY)
      modifies this`outbox, this`tables
      ensures Valid(NOBODY) && TheWorld() == old(TheWorld()) && outbox.Keys == old(outbox).Keys
      ensures forall q :: q in outbox ==>
                outbox[q] == if IsSession(p) && Around(Placed(objs), objs[p].at, q) then old(outbox)[q] + [Notice(p)]
                             else old(outbox)[q]
    {
      if IsSession(p) {
        Announce(p);
      }
    }

    method Consuming(p: int, itemType: int)
      requires Valid(NOBODY)
      modifies this`sheets, this`outbox, this`tables
      ensures Valid(NOBODY) && TheWorld() in AfterConsume(old(TheWorld()), p, itemType)
    {
      if IsSession(p) {
        UseItem(p, itemType);
      }
    }

    method Striking(p: int, boosts: set<int>)
      requires Valid(NOBODY)
      modifies this`objs, this`views, this`outbox, this`tables, this`active, this`target, this`timers, this`sheets
      modifies sectors, ground
      ensures Valid(NOBODY) && objs.Keys == old(objs).Keys
      ensures TheWorld() in AfterAttack(old(TheWorld()), p, false, true, boosts)
    {
      if IsSession(p) {
        ghost var fallen, hits := Attack(p, boosts);
      }
    }

    method UsingSkill(p: int, cooled: bool, boosts: set<int>)
      requires Valid(NOBODY)
      modifies this`objs, this`views, this`outbox, this`tables, this`active, this`target, this`timers, this`sheets
      modifies sectors, ground
      ensures Valid(NOBODY) && objs.Keys == old(objs).Keys
      ensures TheWorld() in AfterAttack(old(TheWorld()), p, true, cooled, boosts)
    {
      if IsSession(p) {
        ghost var fallen, hits := Skill(p, cooled, boosts);
      }
    }

    method Firing(p: int, cooled: bool, boosted: bool)
      requires Valid(NOBODY)
      modifies this`objs, this`views, this`outbox, this`tables, this`active, this`target, this`timers, this`sheets
      modifies sectors, ground
      ensures Valid(NOBODY) && objs.Keys == old(objs).Keys
      ensures TheWorld() in AfterFire(obstacles, old(TheWorld()), p, cooled, boosted)
    {
      if IsSession(p) {
        var hit, k := RangedAttack(p, cooled, boosted);
      }
    }

    method PlayStep(s: Stimulus)
      requires Valid(NOBODY) && (s.Walk? || s.Say? || s.Consume?)
      modifies this`objs, this`sheets, this`views, this`outbox, this`tables, this`active, this`timers, sectors, ground
      ensures Valid(NOBODY) && objs.Keys == old(objs).Keys && TheWorld() in Outcomes(obstacles, old(TheWorld()), s)
    {
      match s {
        case Walk(p, dir, boosted) => Walking(p, dir, boosted);
        case Say(p) => Saying(p);
        case Consume(p, itemType) => Consuming(p, itemType);
      }
    }

    method FightStep(s: Stimulus)
      requires Valid(NOBODY) && (s.Strike? || s.UseSkill? || s.Fire?)
      modifies this`objs, this`views, this`outbox, this`tables, this`active, this`target, this`timers, this`sheets
      modifies sectors, ground
      ensures Valid(NOBODY) && objs.Keys == old(objs).Keys && TheWorld() in Outcomes(obstacles, old(TheWorld()), s)
    {
      match s {
        case Strike(p, boosts) => Striking(p, boosts);
        case UseSkill(p, cooled, boosts) => UsingSkill(p, cooled, boosts);
        case Fire(p, cooled, boosted) => Firing(p, cooled, boosted);
      }
    }

    /** Time passes, or one of the threads takes a turn. */
    method ThreadStep(s: Stimulus)
      requires Valid(NOBODY) && (s.Elapse? || s.TimerTurn? || s.WorkerTurn?)
      modifies this`objs, this`sheets, this`target, this`views, this`outbox, this`tables, this`active, this`timers
      modifies this`posted, this`now, sectors
      ensures Valid(NOBODY) && objs.Keys == old(objs).Keys && TheWorld() in Outcomes(obstacles, old(TheWorld()), s)
    {
      match s {
        case Elapse(ms) => TimePass(ms);
        case TimerTurn => TimerTurning();
        case WorkerTurn(draws, r, shielded) => WorkerStep(draws, r, shielded);
      }
    }

    method TimerTurning()
      requires Valid(NOBODY)
      modifies this`timers, this`posted
      ensures Valid(NOBODY) && TheWorld() in AfterTimer(old(TheWorld()))
    {
      var due, i := TimerStep();
    }

    /** One event, whatever it is, has one of its possible outcomes. */
    method Step(s: Stimulus)
      requires Valid(NOBODY) && SavedForGood() && Sane(s)
      modifies this, sectors, ground
      ensures Valid(NOBODY) && SavedForGood() && TheWorld() in Outcomes(obstacles, old(TheWorld()), s)
    {
      if s.Elapse? || s.TimerTurn? || s.WorkerTurn? {
        ThreadStep(s);
      } else if s.Walk? || s.Say? || s.Consume? {
        PlayStep(s);
      } else if s.Strike? || s.UseSkill? || s.Fire? {
        FightStep(s);
      } else {
        SessionStep(s);
      }
    }

    /** One more event after those of a run. */
    method StepOn(ghost past: seq<Stimulus>, ghost trace: seq<World>, s: Stimulus) returns (ghost trace': seq<World>)
      requires Valid(NOBODY) && SavedForGood() && Sane(s)
      requires IsTrace(obstacles, past, trace) && trace[|past|] == TheWorld()
      modifies this, sectors, ground
      ensures Valid(NOBODY) && SavedForGood() && trace' == trace + [TheWorld()]
      ensures IsTrace(obstacles, past + [s], trace')
    {
      Step(s);
      TraceGoesOn(obstacles, past, trace, s, TheWorld());
      trace' := trace + [TheWorld()];
    }

    /**
     Whatever happens, in whatever order, everything stays in order. `trace` are the worlds gone through,
     each one the outcome of its event in the one before.
     */
    method Run(script: seq<Stimulus>) returns (ghost trace: seq<World>)
      requires Valid(NOBODY) && SavedForGood() && forall i :: 0 <= i < |script| ==> Sane(script[i])
      modifies this, sectors, ground
      ensures Valid(NOBODY) && SavedForGood()
      ensures IsTrace(obstacles, script, trace) && trace[0] == old(TheWorld()) && trace[|script|] == TheWorld()
    {
      trace := [TheWorld()];
      for i := 0 to |script|
        invariant Valid(NOBODY) && SavedForGood()
        invariant IsTrace(obstacles, script[..i], trace) && trace[0] == old(TheWorld()) && trace[i] == TheWorld()
      {
        trace := StepOn(script[..i], trace, script[i]);
        assert script[..i + 1] == script[..i] + [script[i]];
      }
      assert script[..|script|] == script;
    }
  }

  /** An NPC as InitializeNPC makes it. */
  predicate FreshNpc(o: Obj) {
    o.Npc? && o.maxHp > 0 && o.hp == o.maxHp && InWorld(o.at) && o.origin == o.at
  }

  /** The first `count` NPC ids are taken, and no others. */
  ghost predicate Numbered(objs: Objs, count: nat) {
    forall n :: n in objs <==> NPC_ID_START <= n < NPC_ID_START + count
  }

  lemma NumberedNext(objs: Objs, count: nat, o: Obj, nextId: int)
    requires Numbered(objs, count) && FreshNpc(o) && AllRegistered(objs, nextId)
    ensures NPC_ID_START + count !in objs && Numbered(objs[NPC_ID_START + count := o], count + 1)
    ensures AllRegistered(objs[NPC_ID_START + count := o], nextId)
  {
    forall id {:trigger Registered(objs[NPC_ID_START + count := o], nextId, id)}
      ensures Registered(objs[NPC_ID_START + count := o], nextId, id)
    {
      assert Registered(objs, nextId, id);
    }
  }

  /** The server as it starts: a map, and the NPCs placed on it. */
  method Populate(map0: seq<bool>, npcs: seq<Obj>) returns (server: GameServer)
    requires |map0| == WORLD_WIDTH * WORLD_HEIGHT
    requires forall i :: 0 <= i < |npcs| ==> FreshNpc(npcs[i])
    ensures fresh(server) && fresh(server.sectors) && fresh(server.ground) && server.obstacles == map0
    ensures server.Valid(NOBODY) && server.saves == [] && AllRegistered(server.objs, server.nextId)
  {
    server := new GameServer(map0);
    for i := 0 to |npcs|
      invariant server.Valid(NOBODY) && server.saves == [] && server.obstacles == map0
      invariant fresh(server) && fresh(server.sectors) && fresh(server.ground)
      invariant server.views == map[] && server.active == {} && server.timers == [] && server.posted == []
      invariant Numbered(server.objs, i) && AllRegistered(server.objs, server.nextId)
    {
      NumberedNext(server.objs, i, npcs[i], server.nextId);
      server.AddNpc(NPC_ID_START + i, npcs[i]);
    }
  }

  /**
   A whole life of the server: NPCs are placed, then anything happens. All states on the way are valid,
   each is an outcome of its event, and what has been settled stays settled.
   */
  method Serve(map0: seq<bool>, npcs: seq<Obj>, script: seq<Stimulus>)
      returns (server: GameServer, ghost trace: seq<World>)
    requires |map0| == WORLD_WIDTH * WORLD_HEIGHT
    requires forall i :: 0 <= i < |npcs| ==> FreshNpc(npcs[i])
    requires forall i :: 0 <= i < |script| ==> Sane(script[i])
    ensures server.Valid(NOBODY) && server.SavedForGood()
    ensures IsTrace(map0, script, trace) && trace[|script|] == server.TheWorld()
    ensures forall i, j :: 0 <= i <= j <= |script| ==> Later(trace[i], trace[j])
  {
    server := Populate(map0, npcs);
    trace := server.Run(script);
    forall i, j | 0 <= i <= j <= |script|
      ensures Later(trace[i], trace[j])
    {
      RunGoesForward(map0, script, trace, i, j);
    }
  }
}
