/**
 The activation flags of NPCs and the events that drive NPCs and players: which events are
 outstanding in every reachable state.
 */
module Schedule {
  import opened Agenda
  import opened Progression
  import opened Scene
  import opened Sectors

  const MOVE_COOL_TIME: int := 500
  /** The longest of the delays between two ticks. */
  const ATTACK_COOL_TIME: int := 1000
  const HP_REGEN_TIME: int := 5000
  const NPC_RESPAWN_TIME: int := 30000
  const BOSS_RESPAWN_TIME: int := 120000

  /**
   `active` are the NPCs whose m_active_npc is set, `timers` the timer queue, `posted` the completions
   the timer thread has handed over but no worker has taken, oldest first.
   */
  datatype Clock = Clock(active: set<int>, timers: seq<Event>, posted: seq<Event>, now: int)

  ghost function Outstanding(c: Clock, id: int, kind: EventKind): nat {
    Count(c.posted, id, kind) + Count(c.timers, id, kind)
  }

  ghost predicate IsEvent(e: Event, id: int, kind: EventKind) {
    e.id == id && e.kind == kind
  }

  /** Any leftover move event of a dead NPC will be consumed before its respawn. */
  ghost predicate MovesFirst(c: Clock, n: int) {
    && (forall i, j | 0 <= i < |c.timers| && 0 <= j < |c.timers| ::
          (IsEvent(c.timers[i], n, NpcMove) && IsEvent(c.timers[j], n, NpcRespawn) ==> c.timers[i].at < c.timers[j].at))
    && (forall i :: 0 <= i < |c.posted| && IsEvent(c.posted[i], n, NpcRespawn) ==> Count(c.timers, n, NpcMove) == 0)
    && (forall i, j :: 0 <= i < j < |c.posted| && IsEvent(c.posted[i], n, NpcRespawn) ==>
          !IsEvent(c.posted[j], n, NpcMove))
  }

  /**
   A living NPC is flagged active exactly if one move event is outstanding for it; while its own tick
   runs (`ticking`) that event has been consumed. A dead one is inactive and has one respawn event.
   */
  ghost predicate NpcOk(alive: bool, c: Clock, n: int, ticking: bool) {
    if alive then
      && Outstanding(c, n, NpcRespawn) == 0
      && (if ticking then n in c.active && Outstanding(c, n, NpcMove) == 0
          else Outstanding(c, n, NpcMove) == if n in c.active then 1 else 0)
    else
      n !in c.active && Outstanding(c, n, NpcRespawn) == 1 && Outstanding(c, n, NpcMove) <= 1 && MovesFirst(c, n)
  }

  predicate IsNpc(objs: Objs, n: int) { n in objs && !IsPc(n) && objs[n].Npc? }

  ghost predicate MovesSoon(c: Clock) {
    forall i :: 0 <= i < |c.timers| && c.timers[i].kind == NpcMove ==> c.timers[i].at <= c.now + ATTACK_COOL_TIME
  }

  /** `ex` is the NPC whose tick is running, or NOBODY. */
  ghost predicate Scheduled(objs: Objs, c: Clock, ex: int) {
    && MovesSoon(c)
    && forall n {:trigger IsNpc(objs, n)} :: IsNpc(objs, n) ==> NpcOk(objs[n].hp > 0, c, n, n == ex)
  }

  ghost predicate Awake(objs: Objs, views: map<int, set<int>>, active: set<int>, q: int, n: int) {
    q in views && n in views[q] && IsNpc(objs, n) && objs[n].mode != Client.Idle ==> n in active
  }

  /** Every NPC that is in some view and not idle is active, so its next tick is on the way. */
  ghost predicate NoLostWakeUp(objs: Objs, views: map<int, set<int>>, active: set<int>) {
    forall q, n {:trigger Awake(objs, views, active, q, n)} :: Awake(objs, views, active, q, n)
  }

  /** Views that shrank, NPCs that did not leave idleness, a larger active set: no wake-up is lost. */
  lemma StillAwake(objs: Objs, views: map<int, set<int>>, active: set<int>,
                   objs': Objs, views': map<int, set<int>>, active': set<int>)
    requires NoLostWakeUp(objs, views, active)
    requires forall q :: q in views' ==> q in views && views'[q] <= views[q]
    requires forall n :: IsNpc(objs', n) && objs'[n].mode != Client.Idle ==>
               IsNpc(objs, n) && objs[n].mode != Client.Idle
    requires active <= active'
    ensures NoLostWakeUp(objs', views', active')
  {
    forall q, n {:trigger Awake(objs', views', active', q, n)}
      ensures Awake(objs', views', active', q, n)
    {
      assert Awake(objs, views, active, q, n);
    }
  }

  /** One more object in one view: an NPC that has just been woken, or no NPC at all. */
  lemma AwakeAfterAdd(objs: Objs, n: Net, active: set<int>, p: int, o: int, active': set<int>)
    requires NoLostWakeUp(objs, n.views, active) && active <= active'
    requires p in n.views && p in n.tables && o in objs && (IsNpc(objs, o) ==> o in active')
    ensures NoLostWakeUp(objs, AddFor(objs, n, p, o).views, active')
  {
    var views' := AddFor(objs, n, p, o).views;
    forall q, m {:trigger Awake(objs, views', active', q, m)}
      ensures Awake(objs, views', active', q, m)
    {
      assert Awake(objs, n.views, active, q, m);
    }
  }

  /** Both sides of a meeting. */
  lemma AwakeAfterMeet(objs: Objs, n: Net, active: set<int>, p: int, o: int, active': set<int>)
    requires NoLostWakeUp(objs, n.views, active) && active <= active'
    requires p in n.views && p in n.tables && p in objs && o in objs && (IsPc(o) ==> o in n.views && o in n.tables)
    requires IsPc(p) && (IsNpc(objs, o) ==> o in active')
    ensures NoLostWakeUp(objs, Meet(objs, n, p, o).views, active')
  {
    AwakeAfterAdd(objs, n, active, p, o, active');
    if IsPc(o) {
      AwakeAfterAdd(objs, AddFor(objs, n, p, o), active', o, p, active');
    }
  }

  /** Both sides of a parting. */
  lemma AwakeAfterPart(objs: Objs, n: Net, active: set<int>, p: int, o: int)
    requires NoLostWakeUp(objs, n.views, active)
    requires p in n.views && p in n.tables && (IsPc(o) ==> o in n.views && o in n.tables)
    ensures NoLostWakeUp(objs, Part(n, p, o).views, active)
  {
    AwakeAfterRemove(objs, n, active, p, o);
    if IsPc(o) {
      AwakeAfterRemove(objs, RemoveFor(n, p, o), active, o, p);
    }
  }

  lemma AwakeAfterRemove(objs: Objs, n: Net, active: set<int>, p: int, o: int)
    requires NoLostWakeUp(objs, n.views, active) && p in n.views && p in n.tables
    ensures NoLostWakeUp(objs, RemoveFor(n, p, o).views, active)
  {
    StillAwake(objs, n.views, active, objs, RemoveFor(n, p, o).views, active);
  }

  /** An NPC in nobody's view may rest. */
  lemma UnseenMayRest(objs: Objs, views: map<int, set<int>>, active: set<int>, n: int)
    requires NoLostWakeUp(objs, views, active) && forall q :: q in views ==> n !in views[q]
    ensures NoLostWakeUp(objs, views, active - {n})
  {
    forall q, m {:trigger Awake(objs, views, active - {n}, q, m)}
      ensures Awake(objs, views, active - {n}, q, m)
    {
      assert Awake(objs, views, active, q, m);
    }
  }

  /** Idle NPCs may always rest. */
  lemma IdleMayRest(objs: Objs, views: map<int, set<int>>, active: set<int>, n: int)
    requires NoLostWakeUp(objs, views, active) && IsNpc(objs, n) && objs[n].mode == Client.Idle
    ensures NoLostWakeUp(objs, views, active - {n})
  {
    forall q, m {:trigger Awake(objs, views, active - {n}, q, m)}
      ensures Awake(objs, views, active - {n}, q, m)
    {
      assert Awake(objs, views, active, q, m);
    }
  }

  /** An NPC nobody sees may change in any way. */
  lemma UnseenMayChange(objs: Objs, net: Net, active: set<int>, n: int, o: Obj)
    requires NoLostWakeUp(objs, net.views, active) && Exact(objs, net) && n in objs && !Shown(objs[n])
    ensures NoLostWakeUp(objs[n := o], net.views, active)
  {
    forall q, m {:trigger Awake(objs[n := o], net.views, active, q, m)}
      ensures Awake(objs[n := o], net.views, active, q, m)
    {
      assert Awake(objs, net.views, active, q, m);
      if q in net.views {
        NoDanglingIds(objs, net, q, n);
      }
    }
  }

  /** After any change to one NPC it is enough that this one is awake. */
  lemma OneStirred(objs: Objs, views: map<int, set<int>>, active: set<int>, n: int, o: Obj)
    requires NoLostWakeUp(objs, views, active) && IsNpc(objs, n) && o.Npc?
    ensures NoLostWakeUp(objs[n := o], views, active + {n})
  {
    forall q, m {:trigger Awake(objs[n := o], views, active + {n}, q, m)}
      ensures Awake(objs[n := o], views, active + {n}, q, m)
    {
      assert Awake(objs, views, active, q, m);
    }
  }

  // ---- what the code does to the clock ----

  function Push(c: Clock, e: Event): Clock {
    c.(timers := c.timers + [e])
  }

  /** wake_up */
  function Woken(c: Clock, n: int): Clock {
    if n in c.active then c
    else Push(c.(active := c.active + {n}), Event(n, c.now + MOVE_COOL_TIME, NpcMove))
  }

  /** The activation flag cleared. */
  function Asleep(c: Clock, n: int): Clock {
    c.(active := c.active - {n})
  }

  function Taken(c: Clock): Clock
    requires c.posted != []
  {
    c.(posted := c.posted[1..])
  }

  /** The timer thread moves one due event to the workers' queue. */
  function Posted(c: Clock, i: nat): Clock
    requires i < |c.timers|
  {
    c.(timers := Without(c.timers, i), posted := c.posted + [c.timers[i]])
  }

  ghost function Regens(c: Clock, p: int): nat {
    Outstanding(c, p, HpRegen)
  }

  /** From `c` to `c'` NPCs were at most woken up; regeneration events are the same. */
  ghost predicate Grew(c: Clock, c': Clock) {
    && c.active <= c'.active && c'.posted == c.posted && c'.now == c.now
    && forall p {:trigger Regens(c', p)} :: Regens(c', p) == Regens(c, p)
  }

  lemma GrewTrans(c: Clock, c': Clock, c'': Clock)
    requires Grew(c, c') && Grew(c', c'')
    ensures Grew(c, c'')
  {
    forall p {:trigger Regens(c'', p)}
      ensures Regens(c'', p) == Regens(c, p)
    {
      assert Regens(c', p) == Regens(c, p);
    }
  }

  lemma WokenGrew(c: Clock, n: int)
    ensures Grew(c, Woken(c, n))
  {
    forall p {:trigger Regens(Woken(c, n), p)}
      ensures Regens(Woken(c, n), p) == Regens(c, p)
    {
      CountAppend(c.timers, Event(n, c.now + MOVE_COOL_TIME, NpcMove), p, HpRegen);
    }
  }

  /** The NPCs in a list woken up one after the other. */
  ghost function WokenAll(c: Clock, order: seq<int>): Clock {
    if order == [] then c else Woken(WokenAll(c, order[..|order| - 1]), order[|order| - 1])
  }

  ghost predicate Lists(order: seq<int>, who: set<int>) {
    forall n :: n in order <==> n in who
  }

  /** Exactly the NPCs in `who` have been woken up, in some order, and nothing else has happened. */
  ghost predicate Roused(c: Clock, c': Clock, who: set<int>) {
    exists order :: Lists(order, who) && c' == WokenAll(c, order)
  }

  lemma RousedSame(c: Clock, c': Clock, who: set<int>, who': set<int>)
    requires Roused(c, c', who) && forall n :: n in who <==> n in who'
    ensures Roused(c, c', who')
  {
    var order :| Lists(order, who) && c' == WokenAll(c, order);
    assert Lists(order, who');
  }

  /** The loop over the new view has come to `o`, which it wakes if it is an NPC not in view before. */
  lemma OneMoreMet(c0: Clock, c: Clock, c': Clock, newView: set<int>, oldView: set<int>, todo: set<int>, o: int)
    requires Roused(c0, c, Npcs(newView - todo - oldView)) && todo <= newView && o in todo
    requires c' == if IsPc(o) || o in oldView then c else Woken(c, o)
    ensures Roused(c0, c', Npcs(newView - (todo - {o}) - oldView))
  {
    var who, who' := Npcs(newView - todo - oldView), Npcs(newView - (todo - {o}) - oldView);
    if IsPc(o) || o in oldView {
      RousedSame(c0, c, who, who');
    } else {
      OneMoreRoused(c0, c, who, o);
      RousedSame(c0, c', who + {o}, who');
    }
  }

  lemma NobodyRoused(c: Clock)
    ensures Roused(c, c, {})
  {
    assert Lists([], {}) && WokenAll(c, []) == c;
  }

  lemma OneMoreRoused(c: Clock, c': Clock, who: set<int>, n: int)
    requires Roused(c, c', who)
    ensures Roused(c, Woken(c', n), who + {n})
  {
    var order :| Lists(order, who) && c' == WokenAll(c, order);
    var more := order + [n];
    assert more[..|more| - 1] == order;
    assert Lists(more, who + {n}) && Woken(c', n) == WokenAll(c, more);
  }

  lemma {:induction false} WokenAllJoin(c: Clock, first: seq<int>, second: seq<int>)
    ensures WokenAll(WokenAll(c, first), second) == WokenAll(c, first + second)
    decreases |second|
  {
    if second == [] {
      assert first + second == first;
    } else {
      WokenAllJoin(c, first, second[..|second| - 1]);
      assert (first + second)[..|first + second| - 1] == first + second[..|second| - 1];
    }
  }

  lemma RousedJoin(c: Clock, c': Clock, c'': Clock, first: set<int>, second: set<int>)
    requires Roused(c, c', first) && Roused(c', c'', second)
    ensures Roused(c, c'', first + second)
  {
    var one :| Lists(one, first) && c' == WokenAll(c, one);
    var two :| Lists(two, second) && c'' == WokenAll(c', two);
    WokenAllJoin(c, one, two);
    assert Lists(one + two, first + second);
  }

  /** What came into the queue for `who`: one move event half a second ahead for everybody not active before. */
  ghost predicate WakeUps(c: Clock, c': Clock, who: seq<int>) {
    && c'.posted == c.posted && c'.now == c.now
    && (forall n :: n in c'.active <==> n in c.active || n in who)
    && |c.timers| <= |c'.timers| && c'.timers[..|c.timers|] == c.timers
    && (forall i :: |c.timers| <= i < |c'.timers| ==>
          var e := c'.timers[i]; e == Event(e.id, c.now + 500, NpcMove) && e.id in who && e.id !in c.active)
    && (forall i, j :: |c.timers| <= i < j < |c'.timers| ==> c'.timers[i].id != c'.timers[j].id)
    && (forall n :: n in who && n !in c.active ==> NewEvent(c, c', n))
  }

  ghost predicate NewEvent(c: Clock, c': Clock, n: int) {
    exists i :: |c.timers| <= i < |c'.timers| && c'.timers[i].id == n
  }

  lemma OneWakeUp(c: Clock, c': Clock, who: seq<int>, n: int)
    requires WakeUps(c, c', who)
    ensures WakeUps(c, Woken(c', n), who + [n])
  {
    var c'' := Woken(c', n);
    assert forall i :: 0 <= i < |c'.timers| ==> c''.timers[i] == c'.timers[i];
    forall m | m in who + [n] && m !in c.active
      ensures NewEvent(c, c'', m)
    {
      NewEventStays(c, c', who, n, m);
    }
  }

  lemma NewEventStays(c: Clock, c': Clock, who: seq<int>, n: int, m: int)
    requires WakeUps(c, c', who) && m in who + [n] && m !in c.active
    ensures NewEvent(c, Woken(c', n), m)
  {
    var c'' := Woken(c', n);
    if m in who {
      var i :| |c.timers| <= i < |c'.timers| && c'.timers[i].id == m;
      assert c''.timers[i].id == m;
    } else if n !in c'.active {
      assert c''.timers[|c'.timers|].id == n;
    }
  }

  lemma {:induction false} WokenAllWakesUp(c: Clock, order: seq<int>)
    ensures WakeUps(c, WokenAll(c, order), order)
    decreases |order|
  {
    if order != [] {
      var before, n := order[..|order| - 1], order[|order| - 1];
      WokenAllWakesUp(c, before);
      OneWakeUp(c, WokenAll(c, before), before, n);
      assert order == before + [n];
    }
  }

  /**
   Being woken up, spelled out: the flags of `who` are set, everybody among them who was not active
   before has exactly one new move event, half a second ahead, and nothing else is new in the queue.
   */
  lemma RousedExactly(c: Clock, c': Clock, who: set<int>) returns (order: seq<int>)
    requires Roused(c, c', who)
    ensures Lists(order, who) && WakeUps(c, c', order)
  {
    order :| Lists(order, who) && c' == WokenAll(c, order);
    WokenAllWakesUp(c, order);
  }

  lemma {:induction false} WokenAllGrew(c: Clock, order: seq<int>)
    ensures Grew(c, WokenAll(c, order))
    decreases |order|
  {
    if order != [] {
      var before := order[..|order| - 1];
      WokenAllGrew(c, before);
      WokenGrew(WokenAll(c, before), order[|order| - 1]);
      GrewTrans(c, WokenAll(c, before), WokenAll(c, order));
    }
  }

  lemma RousedGrew(c: Clock, c': Clock, who: set<int>)
    requires Roused(c, c', who)
    ensures Grew(c, c')
  {
    var order :| Lists(order, who) && c' == WokenAll(c, order);
    WokenAllGrew(c, order);
  }

  /** A tick in which no player changes place wakes nobody. */
  lemma QuietTick(objs0: Objs, objs: Objs, c: Clock)
    requires forall m :: m !in Startled(objs0, objs)
    ensures Roused(c, c, Startled(objs0, objs))
  {
    NobodyRoused(c);
    RousedSame(c, c, {}, Startled(objs0, objs));
  }

  lemma QuietStep(objs0: Objs, n: int, o: Obj, objs: Objs, c: Clock)
    requires !IsPc(n) && objs == objs0[n := o]
    ensures Roused(c, c, Startled(objs0, objs))
  {
    NpcStartlesNobody(objs0, n, o, objs);
    QuietTick(objs0, objs, c);
  }

  // ---- preservation ----

  lemma OutstandingPush(c: Clock, e: Event, id: int, kind: EventKind)
    ensures Outstanding(Push(c, e), id, kind) == Outstanding(c, id, kind) + (if IsEvent(e, id, kind) then 1 else 0)
  {
    CountAppend(c.timers, e, id, kind);
  }

  /** An event for somebody else, or none at all, leaves an NPC's bookkeeping alone. */
  lemma PushOther(alive: bool, c: Clock, c': Clock, e: Event, n: int, ticking: bool)
    requires NpcOk(alive, c, n, ticking) && (e.id != n || e.kind == HpRegen)
    requires c'.timers == c.timers + [e] && c'.posted == c.posted && (n in c'.active <==> n in c.active)
    ensures NpcOk(alive, c', n, ticking)
  {
    CountAppend(c.timers, e, n, NpcMove);
    CountAppend(c.timers, e, n, NpcRespawn);
  }

  lemma WakeKeeps(objs: Objs, c: Clock, ex: int, n: int)
    requires Scheduled(objs, c, ex) && IsNpc(objs, n) && objs[n].hp > 0
    ensures Scheduled(objs, Woken(c, n), ex) && n in Woken(c, n).active && c.active <= Woken(c, n).active
  {
    if n !in c.active {
      var e := Event(n, c.now + MOVE_COOL_TIME, NpcMove);
      forall m {:trigger IsNpc(objs, m)} | IsNpc(objs, m)
        ensures NpcOk(objs[m].hp > 0, Woken(c, n), m, m == ex)
      {
        if m == n {
          CountAppend(c.timers, e, n, NpcMove);
          CountAppend(c.timers, e, n, NpcRespawn);
        } else {
          PushOther(objs[m].hp > 0, c, Woken(c, n), e, m, m == ex);
        }
      }
    }
  }

  /** Nothing about NPC life and death changed. */
  lemma SameLives(objs: Objs, objs': Objs, c: Clock, ex: int)
    requires Scheduled(objs, c, ex)
    requires forall n :: IsNpc(objs', n) ==> IsNpc(objs, n) && (objs'[n].hp > 0 <==> objs[n].hp > 0)
    ensures Scheduled(objs', c, ex)
  {
    forall n {:trigger IsNpc(objs', n)} | IsNpc(objs', n)
      ensures NpcOk(objs'[n].hp > 0, c, n, n == ex)
    {
      assert IsNpc(objs, n);
    }
  }

  lemma NewNpcScheduled(objs: Objs, c: Clock, n: int, npc: Obj)
    requires Scheduled(objs, c, NOBODY) && n !in objs && !IsPc(n) && npc.Npc? && npc.hp > 0
    requires Outstanding(c, n, NpcMove) == Outstanding(c, n, NpcRespawn) == 0 && n !in c.active
    ensures Scheduled(objs[n := npc], c, NOBODY)
  {
    forall m {:trigger IsNpc(objs[n := npc], m)} | IsNpc(objs[n := npc], m)
      ensures NpcOk(objs[n := npc][m].hp > 0, c, m, m == NOBODY)
    {
      assert m != n ==> IsNpc(objs, m);
    }
  }

  function Buried(c: Clock, n: int, delay: int): Clock {
    Push(c.(active := c.active - {n}), Event(n, c.now + delay, NpcRespawn))
  }

  lemma DeathSchedules(objs: Objs, objs': Objs, c: Clock, n: int, delay: int)
    requires Scheduled(objs, c, NOBODY) && IsNpc(objs, n) && objs[n].hp > 0 && delay >= NPC_RESPAWN_TIME
    requires IsNpc(objs', n) && objs'[n].hp <= 0
    requires forall m :: IsNpc(objs', m) && m != n ==> IsNpc(objs, m) && (objs'[m].hp > 0 <==> objs[m].hp > 0)
    ensures Scheduled(objs', Buried(c, n, delay), NOBODY)
  {
    var c' := Buried(c, n, delay);
    var e := Event(n, c.now + delay, NpcRespawn);
    forall m {:trigger IsNpc(objs', m)} | IsNpc(objs', m)
      ensures NpcOk(objs'[m].hp > 0, c', m, m == NOBODY)
    {
      if m == n {
        BuriedOk(c, n, delay);
      } else {
        assert IsNpc(objs, m);
        PushOther(objs[m].hp > 0, c, c', e, m, m == NOBODY);
      }
    }
  }

  /** boss_respawn after two minutes, everybody else after thirty seconds */
  function RespawnDelay(kind: Kind): (ms: int)
    ensures ms >= NPC_RESPAWN_TIME
  {
    if kind == Boss then BOSS_RESPAWN_TIME else NPC_RESPAWN_TIME
  }

  /** What a hit means for the schedule, `o` being the NPC afterwards: a survivor is awake, a fallen one buried. */
  ghost function AfterBlow(c: Clock, n: int, o: Obj): Clock
    requires o.Npc?
  {
    if o.hp > 0 then Woken(c, n) else Buried(c, n, RespawnDelay(o.kind))
  }

  /** A survivor is awake, and moves in half a second if it was not; a fallen one is back in 30 seconds or 120. */
  lemma BlowTimed(c: Clock, n: int, o: Obj)
    requires o.Npc?
    ensures o.hp > 0 && n in c.active ==> AfterBlow(c, n, o) == c
    ensures o.hp > 0 && n !in c.active ==>
              AfterBlow(c, n, o) == Clock(c.active + {n}, c.timers + [Event(n, c.now + 500, NpcMove)], c.posted, c.now)
    ensures o.hp <= 0 ==>
              var delay := if o.kind == Boss then 120000 else 30000;
              AfterBlow(c, n, o) ==
              Clock(c.active - {n}, c.timers + [Event(n, c.now + delay, NpcRespawn)], c.posted, c.now)
  {
  }

  ghost predicate NpcsIn(objs: Objs, ids: seq<int>) {
    forall o :: o in ids ==> o in objs && objs[o].Npc?
  }

  /** Several NPCs hit one after the other, `objs` being the objects afterwards. */
  ghost function AfterBlows(c: Clock, objs: Objs, hits: seq<int>): Clock
    requires NpcsIn(objs, hits)
  {
    if hits == [] then c
    else
      var o := hits[|hits| - 1];
      assert o in hits;
      AfterBlow(AfterBlows(c, objs, hits[..|hits| - 1]), o, objs[o])
  }

  lemma {:induction false} SameAfterBlows(c: Clock, objs: Objs, objs': Objs, hits: seq<int>)
    requires NpcsIn(objs, hits) && forall o :: o in hits ==> o in objs' && objs'[o] == objs[o]
    ensures AfterBlows(c, objs, hits) == AfterBlows(c, objs', hits)
    decreases |hits|
  {
    if hits != [] {
      assert hits[|hits| - 1] in hits;
      SameAfterBlows(c, objs, objs', hits[..|hits| - 1]);
    }
  }

  /** The victims among `done` have been hit one after the other, each once, in the order of `hits`. */
  ghost predicate HitInTurn(objs0: Objs, objs: Objs, p: int, skill: bool, done: set<int>, hits: seq<int>,
                            c0: Clock, c: Clock) {
    && NoDuplicates(hits) && (forall o :: o in hits <==> o in done && Victim(objs0, p, skill, o))
    && NpcsIn(objs, hits) && c == AfterBlows(c0, objs, hits)
  }

  /** The attack comes to one more object, which is hit if it is a victim. */
  lemma OneMoreHit(objs0: Objs, objs: Objs, objs': Objs, p: int, skill: bool, done: set<int>, hits: seq<int>, o: int,
                   c0: Clock, c: Clock, c': Clock)
      returns (hits': seq<int>)
    requires HitInTurn(objs0, objs, p, skill, done, hits, c0, c) && o !in done
    requires Victim(objs, p, skill, o) <==> Victim(objs0, p, skill, o)
    requires if Victim(objs, p, skill, o)
             then o in objs' && objs'[o].Npc? && objs' == objs[o := objs'[o]] && c' == AfterBlow(c, o, objs'[o])
             else objs' == objs && c' == c
    ensures HitInTurn(objs0, objs', p, skill, done + {o}, hits', c0, c')
  {
    hits' := hits;
    if Victim(objs, p, skill, o) {
      hits' := hits + [o];
      NoDuplicatesJoin(hits, [o]);
      SameAfterBlows(c0, objs, objs', hits);
      assert hits'[..|hits|] == hits;
    }
  }

  /** An NPC's death does not touch the players' events. */
  lemma BuriedRegens(objs: Objs, c: Clock, n: int, delay: int, nextId: int)
    requires Regenerating(objs, c, nextId, NOBODY)
    ensures Regenerating(objs, Buried(c, n, delay), nextId, NOBODY)
  {
    var c' := Buried(c, n, delay);
    forall p {:trigger Regens(c', p)} | IsPc(p)
      ensures Regens(c', p) == Regens(c, p)
    {
      CountAppend(c.timers, Event(n, c.now + delay, NpcRespawn), p, HpRegen);
    }
    RegenUnaffected(objs, c, objs, c', nextId, NOBODY);
  }

  lemma BuriedOk(c: Clock, n: int, delay: int)
    requires NpcOk(true, c, n, false) && MovesSoon(c) && delay >= NPC_RESPAWN_TIME
    ensures NpcOk(false, Buried(c, n, delay), n, false)
  {
    var e := Event(n, c.now + delay, NpcRespawn);
    CountAppend(c.timers, e, n, NpcMove);
    CountAppend(c.timers, e, n, NpcRespawn);
    NoneListed(c.timers, n, NpcRespawn);
    NoneListed(c.posted, n, NpcRespawn);
  }

  lemma NoneListed(s: seq<Event>, id: int, kind: EventKind)
    requires Count(s, id, kind) == 0
    ensures forall i :: 0 <= i < |s| ==> !IsEvent(s[i], id, kind)
  {
    forall i | 0 <= i < |s|
      ensures !IsEvent(s[i], id, kind)
    {
      CountPositive(s, i);
    }
  }

  lemma CountHead(s: seq<Event>, id: int, kind: EventKind)
    requires s != []
    ensures Count(s, id, kind) == Count(s[1..], id, kind) + (if IsEvent(s[0], id, kind) then 1 else 0)
  {
    CountWithout(s, 0, id, kind);
    assert Without(s, 0) == s[1..];
  }

  /** Taking a completion for somebody else, or of a kind without bookkeeping. */
  lemma TakeOther(alive: bool, c: Clock, n: int, ticking: bool)
    requires c.posted != [] && NpcOk(alive, c, n, ticking)
    requires c.posted[0].id != n || c.posted[0].kind == HpRegen
    ensures NpcOk(alive, Taken(c), n, ticking)
  {
    CountHead(c.posted, n, NpcMove);
    CountHead(c.posted, n, NpcRespawn);
    if !alive {
      TakenMovesFirst(c, n);
    }
  }

  lemma TakenMovesFirst(c: Clock, n: int)
    requires c.posted != [] && MovesFirst(c, n)
    ensures MovesFirst(Taken(c), n)
  {
    var p := c.posted[1..];
    forall i | 0 <= i < |p| && IsEvent(p[i], n, NpcRespawn)
      ensures Count(c.timers, n, NpcMove) == 0
    {
      assert IsEvent(c.posted[i + 1], n, NpcRespawn);
    }
    forall i, j | 0 <= i < j < |p| && IsEvent(p[i], n, NpcRespawn)
      ensures !IsEvent(p[j], n, NpcMove)
    {
      assert IsEvent(c.posted[i + 1], n, NpcRespawn);
      assert p[j] == c.posted[j + 1];
    }
  }

  /** A worker takes a move event: a living NPC starts its tick, a dead one ignores the leftover. */
  lemma MoveTaken(objs: Objs, c: Clock, n: int)
    requires Scheduled(objs, c, NOBODY) && IsNpc(objs, n)
    requires c.posted != [] && IsEvent(c.posted[0], n, NpcMove)
    ensures Scheduled(objs, Taken(c), if objs[n].hp > 0 then n else NOBODY)
  {
    var ex := if objs[n].hp > 0 then n else NOBODY;
    forall m {:trigger IsNpc(objs, m)} | IsNpc(objs, m)
      ensures NpcOk(objs[m].hp > 0, Taken(c), m, m == ex)
    {
      if m == n {
        CountHead(c.posted, n, NpcMove);
        CountHead(c.posted, n, NpcRespawn);
        if objs[n].hp <= 0 {
          TakenMovesFirst(c, n);
        }
      } else {
        TakeOther(objs[m].hp > 0, c, m, m == NOBODY);
      }
    }
  }

  /** A worker takes an event whose object is no NPC (any more). */
  lemma StrayTaken(objs: Objs, c: Clock)
    requires Scheduled(objs, c, NOBODY) && c.posted != [] && !IsNpc(objs, c.posted[0].id)
    ensures Scheduled(objs, Taken(c), NOBODY)
  {
    forall m {:trigger IsNpc(objs, m)} | IsNpc(objs, m)
      ensures NpcOk(objs[m].hp > 0, Taken(c), m, m == NOBODY)
    {
      TakeOther(objs[m].hp > 0, c, m, m == NOBODY);
    }
  }

  /** A worker takes a respawn event: the NPC is dead, inactive, and no move event is left of it. */
  lemma RespawnTaken(objs: Objs, c: Clock, n: int, objs': Objs)
    requires Scheduled(objs, c, NOBODY) && IsNpc(objs, n)
    requires c.posted != [] && IsEvent(c.posted[0], n, NpcRespawn)
    requires IsNpc(objs', n) && objs'[n].hp > 0
    requires forall m :: IsNpc(objs', m) && m != n ==> IsNpc(objs, m) && (objs'[m].hp > 0 <==> objs[m].hp > 0)
    ensures objs[n].hp <= 0 && n !in c.active && Outstanding(Taken(c), n, NpcMove) == 0
    ensures Scheduled(objs', Taken(c), NOBODY)
  {
    CountPositive(c.posted, 0);
    assert NpcOk(objs[n].hp > 0, c, n, false);
    CountHead(c.posted, n, NpcMove);
    CountHead(c.posted, n, NpcRespawn);
    NoMovesBehind(c, n);
    forall m {:trigger IsNpc(objs', m)} | IsNpc(objs', m)
      ensures NpcOk(objs'[m].hp > 0, Taken(c), m, m == NOBODY)
    {
      if m != n {
        assert IsNpc(objs, m);
        TakeOther(objs[m].hp > 0, c, m, m == NOBODY);
      }
    }
  }

  lemma NoMovesBehind(c: Clock, n: int)
    requires MovesFirst(c, n) && c.posted != [] && IsEvent(c.posted[0], n, NpcRespawn)
    ensures Outstanding(Taken(c), n, NpcMove) == 0
  {
    var p := c.posted[1..];
    forall j | 0 <= j < |p|
      ensures !IsEvent(p[j], n, NpcMove)
    {
      assert p[j] == c.posted[j + 1];
    }
    NoneMeansZero(p, n, NpcMove);
  }

  lemma {:induction false} NoneMeansZero(s: seq<Event>, id: int, kind: EventKind)
    requires forall i :: 0 <= i < |s| ==> !IsEvent(s[i], id, kind)
    ensures Count(s, id, kind) == 0
    decreases |s|
  {
    if s != [] {
      NoneMeansZero(s[..|s| - 1], id, kind);
      assert !IsEvent(s[|s| - 1], id, kind);
    }
  }

  /** The end of a tick: either the next move event is queued or the NPC goes inactive. */
  lemma TickEnds(objs: Objs, c: Clock, n: int, cool: int)
    requires Scheduled(objs, c, n) && IsNpc(objs, n) && objs[n].hp > 0 && cool <= ATTACK_COOL_TIME
    ensures Scheduled(objs, Push(c, Event(n, c.now + cool, NpcMove)), NOBODY)
    ensures Scheduled(objs, c.(active := c.active - {n}), NOBODY)
  {
    var e := Event(n, c.now + cool, NpcMove);
    var c1, c2 := Push(c, e), c.(active := c.active - {n});
    assert NpcOk(true, c, n, true);
    forall m {:trigger IsNpc(objs, m)} | IsNpc(objs, m)
      ensures NpcOk(objs[m].hp > 0, c1, m, m == NOBODY) && NpcOk(objs[m].hp > 0, c2, m, m == NOBODY)
    {
      if m == n {
        CountAppend(c.timers, e, n, NpcMove);
        CountAppend(c.timers, e, n, NpcRespawn);
      } else {
        PushOther(objs[m].hp > 0, c, c1, e, m, m == NOBODY);
      }
    }
  }

  /** The event that has a player regenerate again. */
  function NextRegen(p: int, now: int): Event {
    Event(p, now + HP_REGEN_TIME, HpRegen)
  }

  lemma RegenPushKeeps(objs: Objs, c: Clock, ex: int, e: Event)
    requires Scheduled(objs, c, ex) && e.kind == HpRegen
    ensures Scheduled(objs, Push(c, e), ex)
  {
    forall m {:trigger IsNpc(objs, m)} | IsNpc(objs, m)
      ensures NpcOk(objs[m].hp > 0, Push(c, e), m, m == ex)
    {
      PushOther(objs[m].hp > 0, c, Push(c, e), e, m, m == ex);
    }
  }

  lemma RegenTakeKeeps(objs: Objs, c: Clock)
    requires Scheduled(objs, c, NOBODY) && c.posted != [] && c.posted[0].kind == HpRegen
    ensures Scheduled(objs, Taken(c), NOBODY)
  {
    forall m {:trigger IsNpc(objs, m)} | IsNpc(objs, m)
      ensures NpcOk(objs[m].hp > 0, Taken(c), m, m == NOBODY)
    {
      TakeOther(objs[m].hp > 0, c, m, m == NOBODY);
    }
  }

  /** Time passes. */
  lemma TimePasses(objs: Objs, c: Clock, later: int)
    requires Scheduled(objs, c, NOBODY) && c.now <= later
    ensures Scheduled(objs, c.(now := later), NOBODY)
  {
    forall m {:trigger IsNpc(objs, m)} | IsNpc(objs, m)
      ensures NpcOk(objs[m].hp > 0, c.(now := later), m, m == NOBODY)
    {
    }
  }

  /** The timer thread posts an earliest event. */
  lemma PostKeeps(objs: Objs, c: Clock, i: nat)
    requires Scheduled(objs, c, NOBODY) && Earliest(c.timers, i)
    ensures Scheduled(objs, Posted(c, i), NOBODY)
  {
    var c' := Posted(c, i);
    forall m {:trigger IsNpc(objs, m)} | IsNpc(objs, m)
      ensures NpcOk(objs[m].hp > 0, c', m, m == NOBODY)
    {
      PostedCounts(c, i, m, NpcMove);
      PostedCounts(c, i, m, NpcRespawn);
      if objs[m].hp <= 0 {
        PostedMovesFirst(c, i, m);
      }
    }
    forall k | 0 <= k < |c'.timers| && c'.timers[k].kind == NpcMove
      ensures c'.timers[k].at <= c'.now + ATTACK_COOL_TIME
    {
      WithoutAt(c.timers, i, k);
    }
  }

  lemma PostedCounts(c: Clock, i: nat, id: int, kind: EventKind)
    requires i < |c.timers|
    ensures Outstanding(Posted(c, i), id, kind) == Outstanding(c, id, kind)
  {
    CountWithout(c.timers, i, id, kind);
    CountAppend(c.posted, c.timers[i], id, kind);
  }

  lemma WithoutAt(s: seq<Event>, i: nat, k: nat)
    requires i < |s| && k < |s| - 1
    ensures Without(s, i)[k] == s[if k < i then k else k + 1]
  {
  }

  lemma PostedMovesFirst(c: Clock, i: nat, n: int)
    requires Earliest(c.timers, i) && MovesFirst(c, n) && Outstanding(c, n, NpcRespawn) == 1
    ensures MovesFirst(Posted(c, i), n)
  {
    var c' := Posted(c, i);
    var e := c.timers[i];
    forall j, k | 0 <= j < |c'.timers| && 0 <= k < |c'.timers| &&
                  IsEvent(c'.timers[j], n, NpcMove) && IsEvent(c'.timers[k], n, NpcRespawn)
      ensures c'.timers[j].at < c'.timers[k].at
    {
      WithoutAt(c.timers, i, j);
      WithoutAt(c.timers, i, k);
    }
    CountWithout(c.timers, i, n, NpcMove);
    if IsEvent(e, n, NpcRespawn) {
      // every other queued event is no earlier, so no move event of this NPC is queued any more
      forall j | 0 <= j < |c.timers|
        ensures !IsEvent(c.timers[j], n, NpcMove)
      {
        assert e.at <= c.timers[j].at;
      }
      NoneMeansZero(c.timers, n, NpcMove);
    }
    if IsEvent(e, n, NpcMove) {
      // with the respawn already posted no move event would still be queued
      CountPositive(c.timers, i);
    }
    forall j, k | 0 <= j < k < |c'.posted| && IsEvent(c'.posted[j], n, NpcRespawn)
      ensures !IsEvent(c'.posted[k], n, NpcMove)
    {
      assert c'.posted[j] == c.posted[j];
    }
  }

  // ---- the players' regeneration events ----

  /** A player in play has exactly one regeneration event, one not yet in play has none. */
  ghost predicate RegenOk(objs: Objs, c: Clock, nextId: int, p: int, ex: int) {
    var k := Regens(c, p);
    && (p in objs ==> 0 <= p < nextId && k == if Watching(objs, p) && p != ex then 1 else 0)
    && (p >= nextId ==> k == 0)
  }

  /** `ex` is the player whose regeneration is being processed, or NOBODY. */
  ghost predicate Regenerating(objs: Objs, c: Clock, nextId: int, ex: int) {
    forall p {:trigger RegenOk(objs, c, nextId, p, ex)} :: IsPc(p) ==> RegenOk(objs, c, nextId, p, ex)
  }

  /** Events other than regeneration, and objects coming and going, leave it alone. */
  lemma RegenUnaffected(objs: Objs, c: Clock, objs': Objs, c': Clock, nextId: int, ex: int)
    requires Regenerating(objs, c, nextId, ex)
    requires forall p {:trigger Regens(c', p)} :: IsPc(p) ==> Regens(c', p) == Regens(c, p)
    requires forall p :: IsPc(p) && p in objs' ==> p in objs && (Watching(objs', p) <==> Watching(objs, p))
    ensures Regenerating(objs', c', nextId, ex)
  {
    forall p {:trigger RegenOk(objs', c', nextId, p, ex)} | IsPc(p)
      ensures RegenOk(objs', c', nextId, p, ex)
    {
      assert RegenOk(objs, c, nextId, p, ex);
    }
  }

  lemma RegenGrew(objs: Objs, c: Clock, c': Clock, nextId: int, ex: int)
    requires Regenerating(objs, c, nextId, ex) && Grew(c, c')
    ensures Regenerating(objs, c', nextId, ex)
  {
    RegenUnaffected(objs, c, objs, c', nextId, ex);
  }

  lemma RegenMoved(objs: Objs, c: Clock, p: int, o: Obj, nextId: int, ex: int)
    requires Regenerating(objs, c, nextId, ex) && p in objs && (Watching(objs, p) <==> Watching(objs[p := o], p))
    ensures Regenerating(objs[p := o], c, nextId, ex)
  {
    RegenUnaffected(objs, c, objs[p := o], c, nextId, ex);
  }

  /** An id that was never handed out has no events. */
  lemma RegenNextId(objs: Objs, c: Clock, nextId: int, id: int)
    requires Regenerating(objs, c, nextId, NOBODY) && id == nextId
    ensures IsPc(id) ==> id !in objs && Regens(c, id) == 0
    ensures Regenerating(objs, c, nextId + 1, NOBODY)
  {
    assert IsPc(id) ==> RegenOk(objs, c, nextId, id, NOBODY);
    forall p {:trigger RegenOk(objs, c, nextId + 1, p, NOBODY)} | IsPc(p)
      ensures RegenOk(objs, c, nextId + 1, p, NOBODY)
    {
      assert RegenOk(objs, c, nextId, p, NOBODY);
    }
  }

  lemma SessionScheduled(objs: Objs, c: Clock, nextId: int, id: int, o: Obj)
    requires Scheduled(objs, c, NOBODY) && Regenerating(objs, c, nextId, NOBODY)
    requires IsPc(id) && id !in objs && 0 <= id < nextId && Regens(c, id) == 0 && o.Pc? && o.status != Playing
    ensures Scheduled(objs[id := o], c, NOBODY) && Regenerating(objs[id := o], c, nextId, NOBODY)
  {
    SameLives(objs, objs[id := o], c, NOBODY);
    forall p {:trigger RegenOk(objs[id := o], c, nextId, p, NOBODY)} | IsPc(p)
      ensures RegenOk(objs[id := o], c, nextId, p, NOBODY)
    {
      assert RegenOk(objs, c, nextId, p, NOBODY);
    }
  }

  lemma SessionAwake(objs: Objs, views: map<int, set<int>>, active: set<int>, id: int, o: Obj)
    requires NoLostWakeUp(objs, views, active) && IsPc(id) && id !in objs && o.Pc?
    ensures NoLostWakeUp(objs[id := o], views[id := {}], active)
  {
    forall q, n {:trigger Awake(objs[id := o], views[id := {}], active, q, n)}
      ensures Awake(objs[id := o], views[id := {}], active, q, n)
    {
      assert Awake(objs, views, active, q, n);
    }
  }

  /** A player that has just entered still has to get its first event. */
  lemma RegenExpected(objs: Objs, c: Clock, p: int, o: Obj, nextId: int)
    requires Regenerating(objs, c, nextId, NOBODY) && p in objs && IsPc(p) && !Watching(objs, p)
    ensures Regenerating(objs[p := o], c, nextId, p)
  {
    forall q {:trigger RegenOk(objs[p := o], c, nextId, q, p)} | IsPc(q)
      ensures RegenOk(objs[p := o], c, nextId, q, p)
    {
      assert RegenOk(objs, c, nextId, q, NOBODY);
    }
  }

  lemma RegenPushed(objs: Objs, c: Clock, nextId: int, e: Event)
    requires Regenerating(objs, c, nextId, e.id) && e.kind == HpRegen && Watching(objs, e.id) && IsPc(e.id)
    ensures Regenerating(objs, Push(c, e), nextId, NOBODY)
  {
    assert RegenOk(objs, c, nextId, e.id, e.id);
    forall q {:trigger RegenOk(objs, Push(c, e), nextId, q, NOBODY)} | IsPc(q)
      ensures RegenOk(objs, Push(c, e), nextId, q, NOBODY)
    {
      RegenPushedFor(objs, c, nextId, e, q);
    }
  }

  lemma RegenPushedFor(objs: Objs, c: Clock, nextId: int, e: Event, q: int)
    requires RegenOk(objs, c, nextId, q, e.id) && RegenOk(objs, c, nextId, e.id, e.id)
    requires e.kind == HpRegen && Watching(objs, e.id)
    ensures RegenOk(objs, Push(c, e), nextId, q, NOBODY)
  {
    OutstandingPush(c, e, q, HpRegen);
  }

  /** A worker takes an event of another kind. */
  lemma TakenRegens(objs: Objs, c: Clock, nextId: int)
    requires Regenerating(objs, c, nextId, NOBODY) && c.posted != [] && c.posted[0].kind != HpRegen
    ensures Regenerating(objs, Taken(c), nextId, NOBODY)
  {
    forall p {:trigger Regens(Taken(c), p)} | IsPc(p)
      ensures Regens(Taken(c), p) == Regens(c, p)
    {
      CountHead(c.posted, p, HpRegen);
    }
    RegenUnaffected(objs, c, objs, Taken(c), nextId, NOBODY);
  }

  /** Neither other events nor activation flags touch the players' events. */
  lemma OtherPushRegens(objs: Objs, c: Clock, e: Event, active: set<int>, nextId: int)
    requires Regenerating(objs, c, nextId, NOBODY) && e.kind != HpRegen
    ensures Regenerating(objs, Push(c, e), nextId, NOBODY)
    ensures Regenerating(objs, c.(active := active), nextId, NOBODY)
  {
    forall p {:trigger Regens(Push(c, e), p)} | IsPc(p)
      ensures Regens(Push(c, e), p) == Regens(c, p)
    {
      OutstandingPush(c, e, p, HpRegen);
    }
    RegenUnaffected(objs, c, objs, Push(c, e), nextId, NOBODY);
    RegenUnaffected(objs, c, objs, c.(active := active), nextId, NOBODY);
  }

  lemma PostedRegens(objs: Objs, c: Clock, i: nat, nextId: int)
    requires Regenerating(objs, c, nextId, NOBODY) && i < |c.timers|
    ensures Regenerating(objs, Posted(c, i), nextId, NOBODY)
  {
    forall p {:trigger Regens(Posted(c, i), p)} | IsPc(p)
      ensures Regens(Posted(c, i), p) == Regens(c, p)
    {
      PostedCounts(c, i, p, HpRegen);
    }
    RegenUnaffected(objs, c, objs, Posted(c, i), nextId, NOBODY);
  }

  /** A worker takes a regeneration event. */
  lemma RegenTaken(objs: Objs, c: Clock, nextId: int)
    requires Regenerating(objs, c, nextId, NOBODY) && c.posted != [] && c.posted[0].kind == HpRegen && Shaped(objs)
    ensures var p := c.posted[0].id;
      Regenerating(objs, Taken(c), nextId, if Watching(objs, p) then p else NOBODY)
  {
    var p := c.posted[0].id;
    var ex := if Watching(objs, p) then p else NOBODY;
    CountPositive(c.posted, 0);
    forall q {:trigger RegenOk(objs, Taken(c), nextId, q, ex)} | IsPc(q)
      ensures RegenOk(objs, Taken(c), nextId, q, ex)
    {
      assert RegenOk(objs, c, nextId, q, NOBODY);
      CountHead(c.posted, q, HpRegen);
    }
  }
}
