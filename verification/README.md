# Verified model of the game server

The repository is a two-dimensional multiplayer game: a server with many worker threads, a graphical
client and a stress client. This project models the logic of the server, without sockets, database or
graphics, and proves that it keeps what the rest of the game relies on. `dafny verify dfyconfig.toml`
checks everything.

## What is modelled

- `Board`, `Sectors`: tiles, ranges and the sector index that answers "who is near".
- `AStarSpec`, `AStar`: the grid search NPCs chase with, on flat arrays with a lazily cleaned queue.
- `Client`, `Scene`, `Cascade`: what players see, what their clients draw, and the messages that keep
  both in step while players and NPCs move, fight, die, return and leave.
- `Agenda`, `Schedule`, `Timer`: timed events, NPC activation flags, the timer thread.
- `Behaviour`, `Combat`: whom NPCs notice, where they walk, how hard they hit; what a player's attack
  does to targets, sheets and the ground.
- `Effects`: for every kind of event, what it makes of objects, sheets, targets, ground, queues, ids and
  saves, and what no event ever changes.
- `Server`: the class `GameServer` with one method per handler. Its predicate `Valid` collects the
  invariants; `Run` and `Serve` carry them through every run.
- `Framing`, `SendPipeline`, `Delivery`: packet framing, the send queue with its sender role, and both
  together across a network that splits and merges at will.
- `Progression`, `Items`: experience, levels, quests, inventories, and players racing for items.
- `ObstacleMap`: painting the obstacle bitmap and the file through which the client gets the same map.

In a state that is `Valid(NOBODY)`, which is the state between any two handlers, all of this holds:

- every playing player's visible set equals the brute-force scan of radius five, it is mutual between
  players, and the client that replays the packets sent so far holds exactly these objects, with
  positions, facings, NPC hit points and NPC states (`Scene.Exact`);
- every living NPC is flagged active exactly if one move event is outstanding for it, every dead one
  is inactive with exactly one respawn event ahead of which any stale move event will be consumed
  (`Schedule.Scheduled`);
- every living NPC that is in some view and not idle is active (`Schedule.NoLostWakeUp`);
- every playing player has exactly one regeneration event, every other session none
  (`Schedule.Regenerating`);
- the sector index tracks exactly the objects in the game, and every player's sheet is in the
  level-up normal form.

## How it is modelled

Each handler of the server is one atomic step over the shared state; a single worker takes completions
in the order they were posted. The three places where real interleavings matter are state machines
over their atomic steps instead: the send queue (`SendPipeline`), the pick-up of items (`Items`) and the
timer thread against its producers, which read the clock and push in two steps (`Timer`). Loop orders
over unordered sets, ties in the priority queues, random numbers, clock readings and boost expiries are
arbitrary inputs or arbitrary choices.

Methods of `GameServer` that the original does not have are pieces of one of its handlers: a handler
changes several fields and every invariant has to survive, so each piece changes few fields and states
exactly what it needs.

Assumed of the surroundings: a client logs in before it sends anything else (moves are not
checked for that, `GameServer_2021184018/SERVER/session.cpp:472`); a packet's size byte is
its length and lies in 1..200; positions and sheets loaded from the database lie in the world and in
normal form; obstacle rectangles have arbitrary fields.

## What came out differently from what one might expect

- Level-up: a bound on lifetime gains alone does not exclude overflow, single kills count too, and the
  level of an NPC is whatever the map script says (`Progression.GainFitsExactly`,
  `Progression.HugeGainOverflowsEarly`).
- Quest counts are conserved exactly if the count loaded from the database was below the target
  (`Progression.QuestKillsConserved`).
- Once a send fails, the stream to that client can be torn, exactly if its socket is still open when
  fail_send has given the sender role back, before the disconnect that follows
  (`SendPipeline.TearsExactlyIfOpen`, `SendPipeline.FailureTearsTheStream`).
- The timer thread posts everything in order of time exactly if it never posts an event that was
  overtaken between its pop and its look at the clock, and no producer pushes an event behind a later
  one already posted (`Timer.InOrderExactly`); both do occur (`Timer.OvertakingBreaksTheOrder`,
  `Timer.StallingBreaksTheOrder`).
- The nine-sector query is complete up to range 11 (`Sectors.QueryCoversExactly`). The boss's range is
  15, and which tiles it still sees everybody from is stated exactly (`Behaviour.BossNoticesExactly`).
- The file gives the client the same rectangles exactly if all fields fit 16 bits
  (`ObstacleMap.RoundTripExactly`), but the same map already exactly if no rectangle changes the part
  of it that lies in the world (`ObstacleMap.MapsAgreeExactly`, `ObstacleMap.AgreementWithoutFit`).
- The game guide in `docs/` describes the melee attack as reaching one tile in front; the code reaches
  an arc of three (`GameServer_2021184018/SERVER/session.cpp:511-521`). It gives the borders of the
  boss phases as 66 and 33 percent; truncation makes them 67 and 34 (`Behaviour.PhaseBorders`). The
  model follows the code in both.

## Model

| member | source | states |
|---|---|---|
| AStarSpec.HeuristicConsistent | GameServer_2021184018/SERVER/astar.h:70-71 | Along every walk in the window the Manhattan heuristic never drops by more than the steps walked; on any walk, not just one edge. |
| AStarSpec.CostIsLength | GameServer_2021184018/SERVER/astar.h:66-69 | The parent links of a discovered tile spell out a walk from the start whose length is exactly the recorded cost. |
| AStarSpec.Frontier | GameServer_2021184018/SERVER/astar.h:52-74 | On every walk from the start to a tile not yet closed there is an open tile discovered at a cost no larger than its place on the walk. |
| AStarSpec.PoppedIsFinal | GameServer_2021184018/SERVER/astar.h:53-56 | A cheapest queue entry whose tile is not closed carries that tile's current cost, and no walk to the tile is shorter, stale entries notwithstanding. |
| AStarSpec.CloseKeeps | GameServer_2021184018/SERVER/astar.h:55-56 | Closing the popped tile keeps the search invariant: real costs, closed costs final, every open tile queued, no entry promising too little. |
| AStarSpec.RelaxKeeps | GameServer_2021184018/SERVER/astar.h:66-72 | Relaxing one neighbour keeps the same invariant. |
| AStarSpec.ExhaustedIsUnreachable | GameServer_2021184018/SERVER/astar.h:52-76 | An empty queue with the goal never closed means no walk to the goal exists in the window. |
| AStarSpec.FirstStepIsOptimal | GameServer_2021184018/SERVER/astar.h:78-85 | If the walk behind the first step is a shortest one, the step's distance to the goal is exactly one less than the start's. |
| AStar.PrioritiesExact | GameServer_2021184018/SERVER/astar.h:38-46 | Every priority ever queued lies in 0..2^24, so the float comparisons of the original order entries exactly as whole numbers do. |
| AStar.RelaxNeighbour | GameServer_2021184018/SERVER/astar.h:60-72 | One pass of the neighbour loop, bounds, obstacle and closed tests included, changes the arrays and the queue exactly as relaxing that neighbour does, with at most one push. |
| AStar.ExpandTile | GameServer_2021184018/SERVER/astar.h:60-73 | The four passes settle every neighbour of the closed tile and keep the invariant, with at most four pushes. |
| AStar.Visit | GameServer_2021184018/SERVER/astar.h:53-73 | One turn of the main loop with any of the cheapest entries: either the entry was stale and the queue got shorter, or one more tile is closed; on reaching the goal its cost is minimal. |
| AStar.Search | GameServer_2021184018/SERVER/astar.h:32-76 | The loop ends on every map; success means a minimal cost for the goal, failure means it is unreachable; at most four pushes per cell and one. |
| AStar.Backtrack | GameServer_2021184018/SERVER/astar.h:79-83 | Walking back ends at a neighbour of the start lying on a shortest walk; the parent == -1 exit is never taken after success. |
| AStar.NextStep | GameServer_2021184018/SERVER/astar.h:11-86 | Returns the start itself exactly if it is the target or the target cannot be reached in the clipped window; otherwise a free neighbour whose distance to the target is exactly one less. Whenever some walk through the whole world makes a detour of at most 41 steps, it does take a step, and one on a shortest walk of the whole world. The start may be an obstacle. |
| AStar.StepIsFree | GameServer_2021184018/SERVER/astar.h:63-63 | Such a step is a tile of the world next to the start and no obstacle. |
| AStar.OutsideIsUnreachable | GameServer_2021184018/SERVER/astar.h:29-30 | A target outside the window has no walk to it, so returning the start is right there too. |
| AStarSpec.DistanceUnique | GameServer_2021184018/SERVER/astar.h:60-73 | The length of a shortest walk is unique, so being one step closer to the target is a statement about one number. |
| Sectors.QueryCoversExactly | GameServer_2021184018/SERVER/globals.h:85-91 | For all pairs of world tiles, everything within a per-axis range of a tile lies in its three by three sectors if and only if the range is at most 11. |
| Sectors.SectorIdInjective | GameServer_2021184018/SERVER/globals.h:91-91 | Different sectors of the grid have different numbers. |
| Sectors.FilteredQueryIsScan | GameServer_2021184018/SERVER/sector.h:50-68 | For every range up to 11, filtering the query result by range gives the same set as scanning all objects. |
| Sectors.QueryMissesAtTwelve | GameServer_2021184018/SERVER/sector.h:50-68 | At range 12 the query does miss objects: an explicit position two sectors away. |
| Sectors.SectorManager.UpdateObject | GameServer_2021184018/SERVER/sector.h:40-48 | The same for the table with the object at its new place, also when both places share a sector and nothing is done. |
| Sectors.SectorManager.Query | GameServer_2021184018/SERVER/sector.h:50-68 | Lists exactly the tracked ids in the sector of the tile and its neighbours, clipped at the border, each once. |
| Sectors.SectorManager.Run | GameServer_2021184018/SERVER/sector.h:22-77 | After any sequence of add, remove and update calls with true positions every tracked id sits in exactly the one bucket of its current position. |
| Framing.SplitSound | GameServer_2021184018/SERVER/network.cpp:196-216 | Packets cut off and leftover bytes together are the input, in order; nothing is lost or invented. |
| Framing.ChunkingIrrelevant | GameServer_2021184018/SERVER/network.cpp:196-216 | However a stream is chopped into chunks, the same packets come out and the same bytes are left over. |
| Framing.SplitFlatten | GameServer_2021184018/SERVER/network.cpp:199-207 | Framing round trip: splitting the concatenation of well-formed packets gives back these packets, with any incomplete packet behind them left over. |
| Framing.SplitPrefix | GameServer_2021184018/SERVER/network.cpp:196-216 | From any prefix of a well-formed stream exactly the packets that have fully arrived are cut, and what is left is shorter than its packet, hence under 200 bytes. |
| Framing.ServerReceiver.OnRecv | GameServer_2021184018/SERVER/network.cpp:196-215 | The server's compacting receive loop over its 200-byte buffer does exactly one step of the reference deframer. |
| Framing.ServerReceiver.Window | GameServer_2021184018/SERVER/session.h:72-79 | The room offered to the next receive is never empty. |
| Framing.ServerReceiver.Pump | GameServer_2021184018/SERVER/network.cpp:185-218 | After any sequence of receives of any sizes the server has handled a prefix of the packets sent, exactly those that arrived whole, and as many receives as bytes drain the stream. |
| Framing.ClientReceiver.OnRecv | CLIENT/client/client.cpp:445-460 | The game client's shifting loop refines the same reference deframer. |
| Framing.StressReceiver.OnRecv | STRESS_TEST/STRESS_TEST/NetworkModule.cpp:205-228 | The stress client's carry-over buffer refines the same reference deframer. |
| Framing.OversizedPacketFillsTheBuffer | GameServer_2021184018/SERVER/session.h:76-77 | Exactly when the next receive is offered no room: the 200-byte buffer is full and its first packet has the size byte zero or one beyond 200, so that it never becomes complete. |
| SendPipeline.BatchIsMaximalPrefix | GameServer_2021184018/SERVER/session.cpp:42-55 | A batch consists of whole packets from the front of the queue, fits in 16384 bytes, and the next packet would not have fitted. |
| SendPipeline.SendHalf.DoSendLocked | GameServer_2021184018/SERVER/session.cpp:5-27 | do_send's critical section: appends an acceptable packet of an open session and claims the sender role exactly if it was free. |
| SendPipeline.SendHalf.StartNextLocked | GameServer_2021184018/SERVER/session.cpp:29-56 | start_next_send's critical section: the batching loop takes the greedy batch, or gives the role back when there is nothing to send. |
| SendPipeline.SendHalf.OnSendComplete | GameServer_2021184018/SERVER/session.cpp:84-101 | Decides between failure, re-posting the unsent rest and starting the next batch. |
| SendPipeline.StepKeeps | GameServer_2021184018/SERVER/session.cpp:5-101 | Every step of any producer, sender, completion or of the network keeps: one sender, at most one operation, batches bounded, bytes conserved until a failure. |
| SendPipeline.PipelineSafe | GameServer_2021184018/SERVER/session.cpp:5-101 | For every interleaving of any number of threads: at most one send in flight, a non-empty queue of an open session means the role is held, and until a send fails bytes sent, the unsent rest of the batch and queued packets together are the accepted packets in lock order. |
| SendPipeline.TearsExactlyIfOpen | GameServer_2021184018/SERVER/session.cpp:73-82 | For every reachable state right after the first failure: some continuation with packets the server can send makes the bytes sent no beginning of the bytes accepted, if and only if the socket is still open when fail_send has given the sender role back; if it is closed, no continuation at all does. |
| SendPipeline.FailureLeavesIdle | GameServer_2021184018/SERVER/session.cpp:58-101 | The failing step leaves no sender, no operation and no queue behind, and some accepted bytes unsent for ever. |
| SendPipeline.ClosedStays | GameServer_2021184018/SERVER/session.cpp:5-40 | A closed session without a sender accepts and sends nothing any more, in whatever continuation. |
| SendPipeline.FailureTearsTheStream | GameServer_2021184018/SERVER/session.cpp:73-82 | It does happen: a run with packets of the types and lengths the server sends in which another producer's packet follows the first four bytes of an earlier one. |
| Delivery.DeliveredWholeAndInOrder | GameServer_2021184018/SERVER/session.cpp:29-101 | For every interleaving, every split of sends by partial completions, every chunking of receives and every failure: as long as the stream is not torn the client has handled a prefix of the accepted packets, whole and in order; without a failed send it is never torn, and once everything has drained all of them have been handled. |
| Progression.SettleConserves | GameServer_2021184018/SERVER/session.cpp:541-543 | The level-up loop ends in a state with 0 <= xp < threshold and leaves the total experience behind the rank unchanged. |
| Progression.NormalUnique | GameServer_2021184018/SERVER/session.h:35-35 | A total amount of experience determines level and rest uniquely. |
| Progression.GainsAdd | GameServer_2021184018/SERVER/session.cpp:541-543 | Gaining a and then b ends exactly where gaining a + b does, and the potential rises by exactly each gain. |
| Progression.GainFitsExactly | GameServer_2021184018/SERVER/session.h:35-35 | One gain runs without 32-bit overflow if and only if xp + gain fits an int and the total stays below 100 * (2^25 - 1). |
| Progression.LifeStaysInRange | GameServer_2021184018/SERVER/npc.cpp:200-209 | A whole life from level one, of kills and deaths whose single gains stay below 469762048, keeps the normal form and never overflows while lifetime gains stay below the limit. |
| Progression.HugeGainOverflowsEarly | GameServer_2021184018/SERVER/session.cpp:541-543 | The lifetime limit alone is not enough: after one kill at level 291 the kill of a single NPC of level 32767 overflows the addition. |
| Progression.SheetsStayNormal | GameServer_2021184018/SERVER/session.cpp:326-370 | Kills, quest rewards and deaths keep the normal form; a kill pays its experience and, on the last required kill, exactly the quest reward. |
| Progression.QuestKillsConserved | GameServer_2021184018/SERVER/session.cpp:343-345 | Over every story of kills, deaths, finds and uses, completions counted as they happen: qualifying kills + loaded count = target * completions + current count, if and only if the count loaded at login was below the target. |
| Progression.HoldingsConserved | GameServer_2021184018/SERVER/session.cpp:355-358 | Over the same stories, per slot: held now + used = held at first + found + completions of the quests that reward the slot. |
| Progression.CountStaysBelowTarget | GameServer_2021184018/SERVER/session.cpp:343-345 | The current count stays below the target and never becomes negative. |
| Progression.KillRaisesLevel | GameServer_2021184018/SERVER/session.cpp:531-545 | A kill never lowers the killer's level. |
| Progression.PlayerProgress.GainXp | GameServer_2021184018/SERVER/session.cpp:541-545 | The loop on the session's fields computes the settled rank, refills the hit points, and the potential rises by exactly the gain. |
| Progression.PlayerProgress.OnKill | GameServer_2021184018/SERVER/session.cpp:531-548 | Experience by kind and level of the NPC, level-up, then quest progress; the fields keep the normal form. |
| Progression.PlayerProgress.UseItem | GameServer_2021184018/SERVER/session.cpp:631-674 | Exactly which uses count, what they do to hit points and bag, and when each boost expires; a use that does not count changes nothing. |
| Progression.UsingHelps | GameServer_2021184018/SERVER/session.cpp:641-668 | A potion heals 30, a large one 60, an elixir all, never beyond the maximum, a boost nothing; and exactly the item used is spent. |
| Client.GameClient.HandlePacket | CLIENT/client/client.cpp:268-410 | Handling one packet changes the avatar's place and the object table as the message says and nothing else. |
| Client.GameClient.HandleAll | CLIENT/client/client.cpp:250-435 | Handling a stream of packets leaves the table that the replay of the stream describes. |
| Scene.ViewIsTheScan | GameServer_2021184018/SERVER/network.cpp:92-144 | In every exact state a playing player's visible set equals the brute-force scan: living or playing objects other than itself within Chebyshev distance five. |
| Scene.PlayersSeeEachOther | GameServer_2021184018/SERVER/network.cpp:92-144 | Visibility between sessions is symmetric. |
| Scene.NoDanglingIds | GameServer_2021184018/SERVER/network.cpp:52-90 | Nobody has in view, and no client draws, an object that has left the game. |
| Scene.ClientMirrorsServer | CLIENT/client/client.cpp:284-325 | The client's table has exactly the ids of the server's visible set, with their positions and facings, for NPCs also hit points and state, and the avatar knows its own place. |
| Scene.StartLinking | GameServer_2021184018/SERVER/network.cpp:92-144 | After a player has changed place all pairs not involving it are still right, and its old links are mutual. |
| Scene.MeetKeeps | GameServer_2021184018/SERVER/network.cpp:118-128 | Adding an object that came into view, on both sides if it is a player, keeps everything else right and links the pair. |
| Scene.GreetKeeps | GameServer_2021184018/SERVER/network.cpp:129-131 | Telling a player that stays in view about the move makes its drawing right again. |
| Scene.PartKeeps | GameServer_2021184018/SERVER/network.cpp:134-143 | Removing an object that left the view, on both sides if it is a player, unlinks exactly this pair. |
| Scene.FinishLinking | GameServer_2021184018/SERVER/network.cpp:92-144 | Once the links are what the player sees and all have been told, everything is exact again. |
| Scene.ShowKeeps | GameServer_2021184018/SERVER/npc.cpp:31-48 | Moving or adding an NPC for one player that sees it puts this pair right and no other wrong. |
| Scene.HideKeeps | GameServer_2021184018/SERVER/npc.cpp:50-54 | Removing it for one player that does not see it any more does the same. |
| Scene.FinishPassing | GameServer_2021184018/SERVER/npc.cpp:15-55 | When every player that saw the NPC or sees it now has been told, everything is exact again. |
| Scene.BroadcastReaches | GameServer_2021184018/SERVER/session.cpp:299-307 | Attack range 6 plus view range 5 do not exceed the sector size, so every viewer of a hit NPC is in the attacker's nine sectors. |
| Scene.DamageSeen | GameServer_2021184018/SERVER/session.cpp:526-529 | Telling an audience that includes every viewer keeps hit points mirrored. |
| Scene.StateSeen | GameServer_2021184018/SERVER/npc.cpp:5-13 | Broadcasting a change of movement state to every viewer keeps states mirrored. |
| Scene.FatalHit | GameServer_2021184018/SERVER/session.cpp:526-538 | After a fatal hit only the pairs with the dead NPC are left to put right. |
| Scene.PlayerDamageSeen | GameServer_2021184018/SERVER/npc.cpp:194-198 | Damage to players changes nothing the mirror relies on. |
| Scene.StartReturning | GameServer_2021184018/SERVER/npc.cpp:397-425 | An NPC that comes back is in nobody's view, so only players who see it now need to be told. |
| Scene.VictimsAreInView | GameServer_2021184018/SERVER/session.cpp:499-521 | Everything an attack can reach is in the attacker's visible set, so looping over the set misses no victim. |
| Cascade.StartTelling | GameServer_2021184018/SERVER/network.cpp:68-76 | Logging a session out and clearing its view keeps the others' views and tables consistent while it is still listed. |
| Cascade.TellOne | GameServer_2021184018/SERVER/network.cpp:78-83 | Telling one player removes exactly the leaving session from its view and table. |
| Cascade.TellAfterNested | GameServer_2021184018/SERVER/network.cpp:78-83 | A disconnect nested in the loop removes its own sessions and keeps what the loop has achieved. |
| Cascade.ExactAfterPruning | GameServer_2021184018/SERVER/network.cpp:52-90 | When a cascade is over, everybody left is exact again. |
| Cascade.FewerRemain | GameServer_2021184018/SERVER/session.cpp:73-82 | Every nested disconnect leaves fewer sessions that can still be disconnected, which is why cascades end. |
| Schedule.WakeKeeps | GameServer_2021184018/SERVER/npc.cpp:307-317 | Waking an NPC keeps: living and active exactly if one move event is outstanding, dead with exactly one respawn event. |
| Schedule.MoveTaken | GameServer_2021184018/SERVER/npc.cpp:319-325 | Taking a move event starts the tick of a living NPC and is ignored for a dead one. |
| Schedule.TickEnds | GameServer_2021184018/SERVER/npc.cpp:385-394 | Ending a tick by queueing the next event or by clearing the flag keeps one event per active NPC. |
| Schedule.DeathSchedules | GameServer_2021184018/SERVER/session.cpp:382-417 | A death adds the one respawn event and clears the flag; a left-over move event lies before it, because move delays are at most one second and respawn delays at least thirty. |
| Schedule.RespawnTaken | GameServer_2021184018/SERVER/npc.cpp:397-425 | When a respawn event is taken the NPC is dead, inactive, and every stale move event has been consumed. |
| Schedule.PostKeeps | GameServer_2021184018/SERVER/network.cpp:310-329 | Posting an earliest event keeps all of this: the queue's order puts stale moves before respawns. |
| Schedule.UnseenMayRest | GameServer_2021184018/SERVER/npc.cpp:391-394 | An NPC in nobody's view may go to sleep without a wake-up being lost. |
| Schedule.RegenNextId | GameServer_2021184018/SERVER/network.cpp:37-50 | An id not handed out yet has no events, so a new session cannot inherit any. |
| Schedule.RegenTaken | GameServer_2021184018/SERVER/network.cpp:287-308 | Taking a regeneration event leaves its player with none and every other playing player with exactly one. |
| Schedule.RegenPushed | GameServer_2021184018/SERVER/network.cpp:303-307 | Pushing the next one restores exactly one for everybody. |
| Behaviour.ScanCompleteUnlessBoss | GameServer_2021184018/SERVER/npc.cpp:60-74 | For an aggressive NPC the nine-sector scan finds a playing player exactly if it is within range ten. |
| Behaviour.BossMissesPlayer | GameServer_2021184018/SERVER/npc.cpp:60-74 | Whenever a tile in range lies in no sector touching the boss's, there is a scene in which the boss misses the player on it. |
| Behaviour.BossNoticesExactly | GameServer_2021184018/SERVER/npc.cpp:60-74 | A boss on a tile notices every playing player within range 15 in every scene if and only if, on both axes, the tile is the fifth to seventh of its sector or the border of the world cuts the rest off. |
| Behaviour.PhaseBorders | GameServer_2021184018/SERVER/NPC.h:27-31 | Phase one is exactly hit points of at least 67 percent, phase three exactly below 34 percent; truncation moves both borders. |
| Behaviour.PhaseNeverFallsBack | GameServer_2021184018/SERVER/NPC.h:27-31 | Wounds never set a boss back a phase. |
| Behaviour.RoamStepSound | GameServer_2021184018/SERVER/npc.cpp:83-114 | A roaming step leads at most one tile on, never onto an obstacle, and stays within 20 tiles of the origin or comes closer to it. |
| Behaviour.AloneIsUnseen | GameServer_2021184018/SERVER/npc.cpp:335-394 | An NPC for which the end of its tick finds no company is in nobody's view. |
| Behaviour.AreaOneMore | GameServer_2021184018/SERVER/npc.cpp:177-215 | In the area attack each round hurts exactly the player looked at, also when earlier victims have been sent back to the spawn point. |
| Server.GameServer.UpdatePlayerView | GameServer_2021184018/SERVER/network.cpp:92-144 | Whatever a player had in view before it moved or appeared, all views and tables are exact afterwards; exactly the NPCs that came into view are woken, and nothing else is queued. |
| Server.GameServer.ScanView | GameServer_2021184018/SERVER/network.cpp:105-114 | The filtered query is exactly the set of objects the player sees. |
| Server.GameServer.DoMove | GameServer_2021184018/SERVER/session.cpp:770-806 | Moves one tile straight ahead unless the border or an obstacle stops it, facing that way, wakes exactly the NPCs that come into view, picks up exactly what lies there, and changes nothing else; everything is in order afterwards. |
| Server.GameServer.TakeItems | GameServer_2021184018/SERVER/session.cpp:786-806 | Everything on the player's tile goes into its bag, each item into its slot, and the tile is cleared. |
| Server.GameServer.Move | GameServer_2021184018/SERVER/session.cpp:472-481 | One step, two while the speed boost lasts, each waking exactly the NPCs that come into view and picking up exactly what lies there; no other object changes, and of the sheets only the player's inventory. |
| Server.GameServer.PlayerDie | GameServer_2021184018/SERVER/npc.cpp:233-245 | Half the experience is lost, hit points are refilled, the player stands on the spawn point, everything is in order. |
| Server.GameServer.Disconnect | GameServer_2021184018/SERVER/network.cpp:52-90 | With any set of undeliverable packets the recursion ends, no session is entered twice, every player in play among those removed is saved exactly once, everybody else loses exactly those from view and table. |
| Server.GameServer.Leave | GameServer_2021184018/SERVER/network.cpp:52-90 | After the whole cascade the session is gone, only it and unreachable players left, and exactly the players that were in play and left were saved, each once. |
| Server.GameServer.Accept | GameServer_2021184018/SERVER/network.cpp:165-177 | A new session gets an id never handed out before, or none when 10000 are used up. |
| Server.GameServer.EnterWorld | GameServer_2021184018/SERVER/network.cpp:254-276 | Entering the world makes all views exact, wakes exactly the NPCs in view and gives the player exactly one regeneration event, five seconds ahead, and nothing else is queued. |
| Progression.FromDatabase | GameServer_2021184018/SERVER/network.cpp:256-263 | The loaded experience, level, quest counts and bag are taken over, the maximum is computed anew from the level, and loaded hit points are kept unless they exceed it. |
| Server.GameServer.UpdateViewers | GameServer_2021184018/SERVER/npc.cpp:15-55 | After an NPC has moved, sectors, views and tables follow. |
| Server.GameServer.SetMode | GameServer_2021184018/SERVER/npc.cpp:5-13 | A change of state is broadcast to everybody who sees the NPC. |
| Server.GameServer.Strike | GameServer_2021184018/SERVER/session.cpp:523-565 | A hit lowers the hit points; a survivor targets its attacker, chases and is woken; a victim is out of all views, inactive and without target, may leave an item, its respawn is queued, and its killer's sheet is that of a kill. |
| Server.GameServer.NpcDie | GameServer_2021184018/SERVER/session.cpp:382-417 | Removes the NPC from every view and from the sectors, clears flag and target, leaves what its kind may drop and schedules the respawn. |
| Server.GameServer.DropLoot | GameServer_2021184018/SERVER/session.cpp:396-409 | The ground gains at most one item, one that the drawn number gives for the NPC's kind. |
| Server.GameServer.Attack | GameServer_2021184018/SERVER/session.cpp:494-568 | Exactly the living NPCs in the arc of three tiles in front are hit, each by one blow of 13 hit points and two for each level the attacker had during the attack, doubled where the boost still lasts; survivors target the attacker, chase and are awake, the fallen target nobody and will respawn; the attacker's sheet is the story of killing exactly the fallen, each once, and no other sheet changes; each of the fallen may leave an item of its kind on its tile, and nothing else appears. |
| Scene.SameLevelSameBlow | GameServer_2021184018/SERVER/session.cpp:523-526 | Unless a kill raises the attacker's level on the way, every victim takes exactly the attacker's blow. |
| Server.GameServer.Skill | GameServer_2021184018/SERVER/session.cpp:569-630 | The same for the three by three area and 27 hit points and three for each level, and nothing at all while the skill cools down or out of play. |
| Server.GameServer.Aim | GameServer_2021184018/SERVER/session.cpp:682-702 | The shot flies over free tiles only, stops at the first living NPC, at the border, before an obstacle or after six tiles. |
| Server.GameServer.RangedAttack | GameServer_2021184018/SERVER/session.cpp:675-762 | Hits the first living NPC in the line of fire if there is one, which loses 27 hit points and three for each level, doubled by the boost, with all that follows from the hit: target, kill, reward, loot and schedule; otherwise changes none of this. |
| Server.GameServer.UseItem | GameServer_2021184018/SERVER/session.cpp:631-674 | A playing player's use of an item changes its sheet as the item says, and nothing for anybody else or out of play; a use that counts is reported to the player. |
| Server.GameServer.Announce | GameServer_2021184018/SERVER/session.cpp:482-493 | Chat lines and projectiles reach exactly the players in the nine sectors, once each, and change no view and no object on any client. |
| Server.GameServer.RespawnTile | GameServer_2021184018/SERVER/npc.cpp:413-420 | The first of the random draws that is no obstacle, else the origin. |
| Server.GameServer.ProcessNpcRespawn | GameServer_2021184018/SERVER/npc.cpp:397-437 | The NPC was dead; it comes back with full hit points, at rest and without target, a boss at its origin, any other on the first free one of the tiles drawn within 80 of its origin, and it is woken exactly if some player sees it; nothing else changes. |
| Server.GameServer.FindPrey | GameServer_2021184018/SERVER/npc.cpp:60-74 | The nearest playing player the scan finds in range, or none if there is none. |
| Server.GameServer.PickTarget | GameServer_2021184018/SERVER/npc.cpp:123-151 | Keeps a target that is in the game and in range, otherwise takes the nearest prey; peaceful NPCs take none; no other NPC's target changes. |
| Server.GameServer.DoRoamingMove | GameServer_2021184018/SERVER/npc.cpp:57-117 | Goes for the nearest prey or the old target in the same tick, otherwise takes one step of roaming; its target afterwards is the quarry unless that died of it, and no other target changes; with do_chase_move at most three calls from any state, and at most one tile, never onto an obstacle. |
| Server.GameServer.DoChaseMove | GameServer_2021184018/SERVER/npc.cpp:119-305 | Gives up, attacks in reach, or takes the first step of a shortest walk to the quarry; the quarry stays the target unless it dies of the attack, without a quarry there is none, and no other NPC's target changes; NPCs are woken exactly by players sent back to the spawn point. |
| Server.GameServer.Sweep | GameServer_2021184018/SERVER/npc.cpp:177-215 | The area attack hits every player within three tiles of the boss exactly once, by the full or the halved damage, and nobody else; the target is dropped exactly if it was hit and died. |
| Server.GameServer.Maul | GameServer_2021184018/SERVER/npc.cpp:216-294 | A single blow hurts exactly the target, by kind and phase, halved by the defence boost; exactly if the victim dies the target is dropped and the NPC, unless a boss, goes back to rest; exactly the NPCs that the victim comes to see are woken. |
| Server.GameServer.NextTick | GameServer_2021184018/SERVER/npc.cpp:335-383 | The NPC goes on exactly if it has company; a boss waits 500, 250 or 250 milliseconds by phase, 1000, 750 or 600 with its target in reach; an aggressive NPC with a target waits one second only if some player near is in attack range and half a second only if some is not. |
| Server.GameServer.FallAsleep | GameServer_2021184018/SERVER/npc.cpp:327-330 | An idle or unseen NPC may sleep: no wake-up is lost. |
| Server.GameServer.ProcessNpcMove | GameServer_2021184018/SERVER/npc.cpp:319-395 | One tick from event to event: objects, sheets, targets and queue afterwards are exactly what the NPC's state calls for, at most one tile is walked, the next event is queued exactly if the NPC has company, and everything is in order again. |
| Server.GameServer.ProcessHpRegen | GameServer_2021184018/SERVER/network.cpp:287-308 | A playing player heals a tenth, is told its hit points if it was hurt, and gets its next event; anybody else's event is dropped. |
| Server.GameServer.TimerStep | GameServer_2021184018/SERVER/network.cpp:310-334 | Posts one of the earliest events exactly if some event is due. |
| Server.GameServer.Step | GameServer_2021184018/SERVER/network.cpp:146-285 | For every event (accept, logins, database answer, moves with pick-up, chat, the three attacks, item use, disconnects, clock, timer and worker), from any valid state: objects, sheets, targets, items on the ground, the queues, the id counter and the saves are afterwards one of the outcomes stated for this event in terms of the state before, and the state is valid again. |
| Server.GameServer.Run | GameServer_2021184018/SERVER/network.cpp:146-339 | Over every finite sequence of events: all states are valid, and each is an outcome of its event in the one before. |
| Server.Serve | GameServer_2021184018/SERVER/npc.cpp:439-546 | From an empty world on any map, with any NPCs placed at the start and anything that happens afterwards: all states valid, each an outcome of its event, and any later one has kept what the earlier one settled. |
| Timer.RunConserves | GameServer_2021184018/SERVER/network.cpp:310-339 | For every interleaving of producers with the pop-and-push-back loop each event pushed is queued, in hand or posted exactly once, and none is posted before its time. |
| Timer.PromptRunsAreInOrder | GameServer_2021184018/SERVER/network.cpp:310-339 | Whatever a prompt run has posted so far is in non-decreasing order of the events' times, also while others are pending. |
| Timer.InOrderExactly | GameServer_2021184018/SERVER/network.cpp:310-339 | For every run that ends with nothing left to post, producers reading the clock and pushing in two steps: the events were posted in order of their times if and only if no posting was of an event overtaken while in hand and no push was of a draft that a later event had been posted before. |
| Timer.StepSortsExactly | GameServer_2021184018/SERVER/network.cpp:310-339 | Every single step leaves posted and pending events sorted exactly if they were sorted and the step is prompt; disorder is never undone. |
| Timer.OvertakenGoesOutOfOrder | GameServer_2021184018/SERVER/network.cpp:310-339 | After posting an overtaken event already the very next round posts an earlier one. |
| Timer.OvertakingBreaksTheOrder | GameServer_2021184018/SERVER/network.cpp:310-339 | One push between pop and clock check is enough to break the order, even if no producer is ever late: with the half second of a waking NPC and the full second of a resting one. |
| Timer.AtomicPunctualRunsArePrompt | GameServer_2021184018/SERVER/network.cpp:310-339 | If nothing comes between pop and check and every producer pushes before its event is due, the order is kept. |
| Timer.StallingBreaksTheOrder | GameServer_2021184018/SERVER/npc.cpp:312-316 | Punctuality is needed: a producer of a half-second event held up between reading the clock and pushing breaks the order even of an atomic timer thread. |
| Timer.Drains | GameServer_2021184018/SERVER/network.cpp:310-339 | Once everything queued is due, one round per event posts it all. |
| Timer.AllPosted | GameServer_2021184018/SERVER/network.cpp:310-339 | With the queue and the hand empty every event has been posted exactly as often as it was pushed. |
| Items.StepBalances | GameServer_2021184018/SERVER/session.cpp:790-806 | Every atomic step of any session changes map plus holdings of a type by exactly what flows in or out; rewards flow in exactly on the kill that completes a quest. |
| Items.ItemsConserved | GameServer_2021184018/SERVER/session.cpp:310-370 | Per item type and for every interleaving: loaded + dropped + won by completing quests - used = active on the map + in all bags and hands, departed sessions included. |
| Items.TakenOnce | GameServer_2021184018/SERVER/session.cpp:793-796 | However many players race for an item, exactly one gets it, and exactly then it is off the map. |
| Items.ReachIsLocal | GameServer_2021184018/SERVER/session.cpp:790-792 | Nobody reaches for an item on another tile than its own. |
| Items.ItemMap.PickUp | GameServer_2021184018/SERVER/session.cpp:790-806 | Undisturbed, the loop moves exactly the active items of the tile into the bag, each into the slot of its type, and leaves every other item alone. |
| Items.ItemMap.DropAndPickUp | GameServer_2021184018/SERVER/session.cpp:790-806 | Round trip of a drop: whoever steps on the tile next has the dropped item in its bag, with whatever else lay there, and the tile is empty. |
| ObstacleMap.LoadObstacles | GameServer_2021184018/SERVER/lua_manager.cpp:12-50 | A bitmap cell is set exactly if some rectangle covers its tile, for every list of rectangles, parts off the map ignored; everything outside the world is an obstacle. |
| ObstacleMap.WriteObstacleBin | GameServer_2021184018/SERVER/lua_manager.cpp:116-142 | The bytes written are magic, count and one record of five little-endian 16-bit numbers per rectangle. |
| ObstacleMap.LoadObstaclesBin | CLIENT/client/client.cpp:126-152 | The client's reading loop, both file versions, computes the decoded list. |
| ObstacleMap.ReadsBack | CLIENT/client/client.cpp:142-149 | In files of both versions each record at its place reads back as the rectangle with its fields wrapped to 16 bits. |
| ObstacleMap.RoundTripExactly | GameServer_2021184018/SERVER/lua_manager.cpp:116-142 | Decoding the written bytes gives the same list if and only if every field fits 16 bits and the count 31. |
| ObstacleMap.OldRoundTripExactly | CLIENT/client/client.cpp:146-150 | A file of the first version gives back every rectangle with kind zero, exactly if its four fields fit 16 bits. |
| ObstacleMap.Publish | GameServer_2021184018/SERVER/lua_manager.cpp:116-142 | The client gets every rectangle with its fields cut to 16 bits, the very same list if all fit, and whenever no rectangle changes its visible part it covers a tile of the world if and only if the server's is_obstacle says so. |
| ObstacleMap.SameTilesExactly | GameServer_2021184018/SERVER/lua_manager.cpp:39-44 | Two rectangles cover the same tiles of the world if and only if their parts clipped to the world are equal. |
| ObstacleMap.MapsAgreeExactly | GameServer_2021184018/SERVER/lua_manager.cpp:116-142 | All maps made of a supply of rectangles are the same for server and client, tile by tile, if and only if no rectangle of the supply changes its clipped part when its fields are cut to 16 bits. |
| ObstacleMap.AgreementWithoutFit | GameServer_2021184018/SERVER/lua_manager.cpp:131-135 | Fitting is sufficient but not necessary: one rectangle that does not fit keeps its visible part, another one does not. |
| ObstacleMap.WideRectangleDiffers | GameServer_2021184018/SERVER/lua_manager.cpp:131-135 | Every rectangle on the map has a counterpart 65536 tiles away that blocks tiles on the client only. |
| Combat.BattlePays | GameServer_2021184018/SERVER/session.cpp:531-558 | An attack raises the attacker's experience total by exactly that of the victims that fell and the rewards of the quests they completed, and leaves everybody else's sheet alone. |
| Combat.BattleRound | GameServer_2021184018/SERVER/session.cpp:505-566 | One more round of the attack loop keeps the account of who was hit, who fell, whose target is whom, what the attacker has earned and what lies on the ground. |
| Combat.BattleOver | GameServer_2021184018/SERVER/session.cpp:500-506 | When all victims were in view, the account holds for all objects and not only for those gone through. |
| Progression.KillsPay | GameServer_2021184018/SERVER/session.cpp:533-553 | A row of kills pays exactly their experience and 500 or 3000 for each quest completed on the way. |
| Server.GameServer.ReturnToSpawn | GameServer_2021184018/SERVER/npc.cpp:202-209 | The player stands on the spawn point, knows it, and all views and tables are exact. |
| AStar.RelaxFree | GameServer_2021184018/SERVER/astar.h:64-72 | For a free neighbour: skipped if closed or not cheaper, otherwise cost and parent are written, and nothing else, and one entry with the right priority is pushed. |
| AStar.Settle | GameServer_2021184018/SERVER/astar.h:55-73 | Closing the popped tile and, unless it is the goal, expanding it keeps the whole search invariant; reaching the goal means its cost is minimal. |
| AStar.SearchWindow | GameServer_2021184018/SERVER/astar.h:32-85 | In a window holding both ends the search returns the start exactly if the goal is unreachable, and otherwise the first step of a shortest walk, converted back from flat indices. |
| Sectors.SectorManager.AddObject | GameServer_2021184018/SERVER/sector.h:30-33 | Whatever table of positions the index agreed with, it agrees with that table extended by the new object. |
| Sectors.SectorManager.RemoveObject | GameServer_2021184018/SERVER/sector.h:35-38 | The same for the table without the object, provided the position passed is its true one. |
| SendPipeline.SendHalf.FailLocked | GameServer_2021184018/SERVER/session.cpp:73-82 | fail_send's critical section drops everything queued and gives the sender role back. |
| Progression.LifeFitsExactly | GameServer_2021184018/SERVER/session.h:35-35 | A whole life of kills and deaths runs without 32-bit overflow if and only if, before every gain, xp + gain fits an int and the potential plus the gain stays below the limit. |
| Progression.TenTicksHeal | GameServer_2021184018/SERVER/network.cpp:294-297 | Ten regeneration ticks in peace restore any player completely, since the maximum is always a multiple of ten. |
| Progression.PlayerProgress.ProcessQuestKill | GameServer_2021184018/SERVER/session.cpp:326-370 | Counts a qualifying kill; on the last one resets the count, pays the reward experience with level-up, refills the hit points and adds the reward item. |
| Progression.PlayerProgress.OnDeath | GameServer_2021184018/SERVER/npc.cpp:272-274 | Half the experience is lost, the level stays, hit points are refilled, and the normal form is kept. |
| Scene.ArcOfThree | GameServer_2021184018/SERVER/session.cpp:511-521 | The melee attack reaches exactly the tile in front and its two neighbours across the line of sight, all of them also in the skill's area. |
| Scene.SelfMoveKeeps | GameServer_2021184018/SERVER/network.cpp:116-116 | The first packet of a view update tells the avatar its own new place and disturbs nothing else. |
| Scene.SessionAdded | GameServer_2021184018/SERVER/network.cpp:174-175 | A new session, not yet in play, leaves all views and tables exact. |
| Cascade.OrderlyDrop | GameServer_2021184018/SERVER/network.cpp:85-89 | Dropping the session at the end leaves no trace of it in anybody's view. |
| Behaviour.FacesForward | GameServer_2021184018/SERVER/npc.cpp:100-100 | After a step to a neighbouring tile the NPC faces the way it went. |
| Behaviour.EveryNeighbourCanBeDrawn | GameServer_2021184018/SERVER/npc.cpp:86-95 | Every neighbouring tile of the world is the outcome of some random number. |
| Server.GameServer.AddNpc | GameServer_2021184018/SERVER/npc.cpp:461-478 | An NPC placed before any player exists, alive and asleep, keeps everything in order. |
| Server.GameServer.SendAdd | GameServer_2021184018/SERVER/session.cpp:113-146 | Adds an object in play to the receiver's set and to its client's table together, and does nothing if it is already there or not in play. |
| Server.GameServer.SendRemove | GameServer_2021184018/SERVER/session.cpp:148-163 | Removes an object from set and table together, and does nothing if it is not in the set. |
| Server.GameServer.SendMove | GameServer_2021184018/SERVER/session.cpp:165-182 | Tells the client the object's current place and facing. |
| Server.GameServer.WakeUp | GameServer_2021184018/SERVER/npc.cpp:307-317 | Sets the flag and queues one move event half a second ahead, unless the flag is already set; nothing else changes. |
| Server.GameServer.SteppedIsAhead | GameServer_2021184018/SERVER/session.cpp:772-781 | A player's step leads straight ahead, and nowhere if the border or an obstacle is there. |
| Server.GameServer.SetStatus | GameServer_2021184018/SERVER/network.cpp:249-253 | Changing between states outside the game touches nothing else. |
| Server.GameServer.LogOff | GameServer_2021184018/SERVER/network.cpp:68-76 | The session is logged out, off the board and blind, and still listed. |
| Server.GameServer.TellAll | GameServer_2021184018/SERVER/network.cpp:78-83 | The loop over the players in view, nested disconnects included, removes the session from everybody who is left and saves the right players. |
| Server.GameServer.PushRegen | GameServer_2021184018/SERVER/network.cpp:303-307 | Queues the player's next regeneration event, five seconds ahead, so that it has exactly one again. |
| Server.GameServer.BroadcastFrom | GameServer_2021184018/SERVER/session.cpp:299-307 | Sends exactly one copy of a message to exactly the players in the nine sectors around a tile and nothing to anybody else. |
| Server.GameServer.Viewers | GameServer_2021184018/SERVER/npc.cpp:17-25 | Exactly the players within view range of a tile. |
| Server.GameServer.ShowToViewers | GameServer_2021184018/SERVER/npc.cpp:30-48 | Every player that sees the NPC now, and nobody else, is told to add or to move it. |
| Server.GameServer.HideFromOthers | GameServer_2021184018/SERVER/npc.cpp:50-54 | After the players that lost sight of the NPC have been told, everything is exact. |
| Server.GameServer.StepNpc | GameServer_2021184018/SERVER/npc.cpp:296-305 | An NPC stands on the new tile, facing the given way, and sectors, views and tables have followed. |
| Server.GameServer.Wound | GameServer_2021184018/SERVER/session.cpp:526-529 | A hit the NPC survives changes its hit points only, and everybody who sees it learns of it. |
| Server.GameServer.Provoke | GameServer_2021184018/SERVER/session.cpp:559-565 | The NPC targets its attacker and chases, its viewers are told, and it is woken if it was asleep. |
| Server.GameServer.TakeFromAll | GameServer_2021184018/SERVER/session.cpp:386-390 | After the loop over the players around nobody has the dead NPC in view, and everything is exact. |
| Server.GameServer.Slay | GameServer_2021184018/SERVER/session.cpp:531-558 | The victim dies on the spot, the killer's sheet is that of this kill, and the killer is told its hit points. |
| Server.GameServer.AttackOne | GameServer_2021184018/SERVER/session.cpp:505-566 | One object of the attacker's view: a living NPC in reach feels the blow, with all that follows for target, sheet, ground and schedule; anything else changes nothing. |
| Server.GameServer.NpcOn | GameServer_2021184018/SERVER/session.cpp:693-700 | Some living NPC on the tile, or none if there is none. |
| Server.GameServer.Revive | GameServer_2021184018/SERVER/npc.cpp:402-425 | The dead, inactive NPC is put back with full hit points, at rest and without target, before anybody is told. |
| Server.GameServer.WelcomeBackAll | GameServer_2021184018/SERVER/npc.cpp:427-436 | Exactly if some player sees the NPC it is woken, and all who do have it in view. |
| Server.GameServer.Injure | GameServer_2021184018/SERVER/npc.cpp:224-231 | The player loses exactly the damage, and exactly the players in the nine sectors around the NPC are sent the new hit points. |
| Server.GameServer.Batter | GameServer_2021184018/SERVER/npc.cpp:224-251 | One blow at one player: fewer hit points, of which it is told, or death with half the experience lost and a return to the spawn point; exactly the NPCs it then comes to see are woken. |
| Server.GameServer.Assault | GameServer_2021184018/SERVER/npc.cpp:173-294 | A boss in its last phase sweeps the area, everybody else deals one blow at the target; the target is dropped exactly if it died. |
| Server.GameServer.Wander | GameServer_2021184018/SERVER/npc.cpp:83-116 | The step of roaming: the neighbouring tile drawn if it is free and within 20 tiles of the origin, otherwise one step closer to the origin unless an obstacle is in the way or under the NPC, facing the way it goes; everybody who sees the NPC is informed. |
| Server.GameServer.Approach | GameServer_2021184018/SERVER/npc.cpp:296-305 | One step along a shortest walk to the target, facing it, or none exactly if the window holds no walk or the NPC is there. |
| Server.GameServer.GiveUp | GameServer_2021184018/SERVER/npc.cpp:153-159 | Without a target a peaceful NPC goes idle and any other roams on in the same tick; no target changes and nobody is woken. |
| Server.GameServer.FindCompany | GameServer_2021184018/SERVER/npc.cpp:354-382 | Whether any player is near enough to keep the NPC awake, for each kind of NPC. |
| Server.GameServer.GoOn | GameServer_2021184018/SERVER/npc.cpp:385-394 | With company exactly one more move event is queued, at the NPC's pace; without it the flag is cleared and an aggressive NPC forgets its target. |
| Server.GameServer.WorkerStep | GameServer_2021184018/SERVER/network.cpp:229-240 | A worker consumes exactly the oldest completion, and everything the server keeps is afterwards what this event calls for: a tick, a regeneration, a respawn, or nothing for objects that are gone. |
| Items.ItemMap.SpawnItem | GameServer_2021184018/SERVER/session.cpp:310-317 | The new item has an id never used before and is active on its tile; the active items of its type on its tile are one more, those of every other tile and type as many as before. |
| ObstacleMap.Paint | GameServer_2021184018/SERVER/lua_manager.cpp:39-44 | One rectangle sets exactly the in-world cells it covers and clears none. |
| AStar.WindowIsTwentyAround | GameServer_2021184018/SERVER/astar.h:17-22 | A tile is in the search window if and only if it is in the world and within 20 tiles, on both axes, of some tile of the rectangle between start and target. |
| AStar.NearWalkIsFound | GameServer_2021184018/SERVER/astar.h:17-86 | A walk through the world whose detour is at most 41 steps cannot leave the window, so the target is reachable there, and a shortest step in the window is one in the whole world. |
| Schedule.RousedExactly | GameServer_2021184018/SERVER/npc.cpp:307-317 | Waking a set of NPCs in any order sets exactly their flags, and queues exactly one move event, half a second ahead, for each that was not active before. |
| Schedule.BlowTimed | GameServer_2021184018/SERVER/session.cpp:382-417 | A hit that an NPC survives leaves it awake; a fatal one clears its flag and queues its respawn, two minutes ahead for a boss and thirty seconds for any other. |
| Scene.MetAreNew | GameServer_2021184018/SERVER/network.cpp:105-128 | The NPCs that enter a player's visible set are exactly those it sees now and did not see before. |
| Scene.OneMoreStartles | GameServer_2021184018/SERVER/npc.cpp:177-215 | When one more player has been sent elsewhere, the NPCs startled are those startled before and those this player has come to see. |
| Scene.BlowsByLevel | GameServer_2021184018/SERVER/globals.h:72-74 | A blow at level one takes 15 hit points, with skill or shot 30; each level adds two or three; the boost doubles it. |
| Scene.SkillAllAround | GameServer_2021184018/SERVER/session.cpp:577-591 | The skill reaches exactly the nine tiles around the attacker, whichever way it faces. |
| Scene.DrawnWithin80 | GameServer_2021184018/SERVER/npc.cpp:409-420 | A tile drawn for a respawn lies within 80 of the origin and not in the first row or column, and every such tile can be drawn. |
| Scene.RebornAsNew | GameServer_2021184018/SERVER/npc.cpp:402-408 | An NPC comes back with full hit points, idle if peaceful and roaming otherwise, and is otherwise the NPC it was. |
| Behaviour.RoamStepExact | GameServer_2021184018/SERVER/npc.cpp:83-114 | Where a roaming step leads and which way the NPC looks then, for every position, origin, map and random number. |
| Behaviour.RoamsEverywhere | GameServer_2021184018/SERVER/npc.cpp:86-101 | Every free neighbouring tile of the world within 20 of the origin is reached for some random number, facing it. |
| Behaviour.LedAstrayComesHome | GameServer_2021184018/SERVER/npc.cpp:103-114 | An NPC led away from its origin is back within 20 tiles of it after at most as many steps as it is away, whatever is drawn, if the way home (across, then down or up) is free. |
| Behaviour.TrailAndPrey | GameServer_2021184018/SERVER/npc.cpp:119-151 | An NPC keeps on a playing player within ten tiles, a boss within fifteen; new ones it notices only in the nine sectors around. |
| Behaviour.CompanyByNumbers | GameServer_2021184018/SERVER/npc.cpp:335-383 | What keeps an NPC awake: players within five tiles, ten for an aggressive one on a chase; for a boss anybody in the nine sectors around, or its target within fifteen. |
| Behaviour.ChaseHurts | GameServer_2021184018/SERVER/npc.cpp:173-294 | In a tick with a quarry exactly the quarry within one tile (two for a boss) or, in the boss's last phase, everybody within three suffers: 8 hit points, 20, 30 or 45 from a boss by phase, half behind the shield; who does not survive is on the spawn point with half the experience. |
| Behaviour.ChaseCloses | GameServer_2021184018/SERVER/npc.cpp:296-302 | Out of reach the NPC steps onto a shortest walk of the whole world to its quarry, facing the way it goes, whenever there is a walk with a detour of at most 41 steps. |
| Behaviour.QuarryKept | GameServer_2021184018/SERVER/npc.cpp:119-131 | A target in range that survives the tick and is in range after it is the quarry of the tick and the target afterwards. |
| Behaviour.TickEnded | GameServer_2021184018/SERVER/npc.cpp:319-395 | Movement routine and end of the tick together determine the NPC's target and the queue. |
| Combat.BattleWounds | GameServer_2021184018/SERVER/session.cpp:505-566 | In an attack every victim loses 13 hit points and two for each level of the attacker at that moment, 27 and three with the skill, twice that with the boost, and chases if it lives; nothing else about any object changes. |
| Combat.TwoSwings | GameServer_2021184018/SERVER/session.cpp:494-568 | A fresh peaceful NPC with 30 hit points survives the first unboosted swing of a player on level one with 15 and falls to the second. |
| Items.LootChances | GameServer_2021184018/SERVER/session.cpp:396-409 | Out of a hundred draws a boss leaves 20 potions, 20 large ones and 30 elixirs, an aggressive NPC 25 and 10, a peaceful one 30, and otherwise nothing. |
| Progression.KillByNumbers | GameServer_2021184018/SERVER/session.cpp:533-553 | Every kill pays its experience and heals the killer completely; the tenth aggressive NPC pays 500 more and an attack boost, the third boss 3000 and a defence boost, and then their count begins anew; nothing else on the sheet changes. |
| Progression.KillXpByKind | GameServer_2021184018/SERVER/session.cpp:531-535 | Two points for the square of the NPC's level, twice that for an aggressive NPC, ten times for a boss. |
| Progression.LevelsByNumbers | GameServer_2021184018/SERVER/session.h:35-35 | The first level takes a hundred points, each further one twice the one before, and brings ten hit points. |
| Progression.DeathCosts | GameServer_2021184018/SERVER/npc.cpp:233-245 | Death costs half the experience, rounded up, but no level, and restores the hit points; counts and bag stay. |
| Progression.RegeneratedByNumbers | GameServer_2021184018/SERVER/network.cpp:294-297 | A regeneration tick brings nine hit points and one for each level, up to the maximum. |
| Effects.ChaseGoesOn | GameServer_2021184018/SERVER/npc.cpp:119-305 | As long as its target lives and stays in range, a chasing NPC is after it from tick to tick, and nobody else's target is touched. |
| Effects.RoamingRoams | GameServer_2021184018/SERVER/npc.cpp:57-117 | A tick of a roaming NPC with nobody in sight is one step of roaming and changes no other object and no sheet. |
| Effects.OutcomeIsLater | GameServer_2021184018/SERVER/network.cpp:146-339 | Any event leads to a later world: NPCs keep kind, level, origin and full hit points, sessions only go forward through their states, newcomers have ids never handed out, saves are never taken back, the clock never goes back. |
| Effects.RunGoesForward | GameServer_2021184018/SERVER/network.cpp:146-339 | The same between any two moments of any run; so an id that has left is never in the game again. |
| Server.GameServer.TakeStep | GameServer_2021184018/SERVER/session.cpp:770-785 | The player stands straight ahead, or where it was at the border or an obstacle, and exactly the NPCs it has come to see are woken. |
| Server.GameServer.DropLostTarget | GameServer_2021184018/SERVER/npc.cpp:123-135 | The target is kept exactly if it is a player in play and in range. |
| Server.GameServer.Loading | GameServer_2021184018/SERVER/network.cpp:241-279 | A waiting session whose account is found plays on the stored tile with the stored sheet, one whose account is not found is logged out, and an answer for any other session changes nothing. |
| Server.GameServer.LoggingIn | GameServer_2021184018/SERVER/session.cpp:438-471 | A login makes a connected session wait for the database, and changes nothing for any other. |
| Server.GameServer.BotLoggingIn | GameServer_2021184018/SERVER/session.cpp:444-461 | A bot plays at once on the tile drawn, with a fresh sheet. |
| Server.GameServer.Connecting | GameServer_2021184018/SERVER/network.cpp:165-177 | A new session stands on the spawn point with a fresh sheet under the next id; without ids left only the counter moves. |
| Server.GameServer.HangUp | GameServer_2021184018/SERVER/network.cpp:52-90 | Only sessions leave, namely this one and unreachable ones; exactly the players in play among them are saved, each once, and nothing else changes. |
| Server.Populate | GameServer_2021184018/SERVER/npc.cpp:439-546 | The world at the start is valid, with nothing queued or saved. |

## Left out

- Sockets, completion ports, AcceptEx and threads: replaced by arbitrary completions and atomic steps.
- Data races between workers on unlocked fields such as hit points, positions and targets: handlers are atomic here.
- A player whose socket is already closed while its disconnect has not run: NPCs let go of such a target in the original; in the model the session has left by then.
- A send that fails synchronously in the middle of a view update: it counts as a later disconnect; nested failures are modelled inside `Server.GameServer.Disconnect`.
- The database: only that a save was asked for. For bots (names starting with `bot_`) the original drops the request in db_push_save; the model records it for every playing session.
- The contents of chat lines, login results and projectiles, and names: they do not touch the client's object table; `Client.Notice` stands for chat and projectiles.
- Messages about items and quests, and the client's copies of items, inventory and quest counts: far-away items are not broadcast, so no agreement holds.
- Mirroring of other players' hit points on clients: the original does not broadcast healing, so no agreement holds.
- Two players racing for an item inside the class `GameServer`: handlers are atomic there, the race is the subject of `Items`.
- When boosts expire inside the class `GameServer`: whether a boost still lasts is an input of each handler; the expiry times are fields of `Progression.PlayerProgress`.
- The iteration order of the concurrent item table in do_move: `Items` lets a session look at items in any order.
- 16-bit wrap-around of hit points and damage: the model computes on integers; with the levels a 32-bit threshold allows the values fit.
- Server.GameServer.Accept: does not model the wrap-around of the id counter after 2^31 connections, nor the re-use of ids it would lead to.
- Server.GameServer.NextTick: with players near both inside and outside of attack range the delay of an aggressive NPC depends on the order of a set; the contract allows both values then.
- Server.GameServer.TimerStep: pop, check and post are one step there; the fine-grained thread is the subject of `Timer`.
- ObstacleMap.LoadObstacles: fields are integers; overflow of x + dx in 32 bits is not modelled.
- ObstacleMap.LoadObstaclesBin: files shorter than their header says, or with a negative count, read uninitialised memory or throw in the original; the model only calls them undefined.
- Pre-login and malformed packets (size byte zero, unknown type): excluded by precondition.
- That repeated ticks reach a fixed target: not claimed, the window is recomputed and can shrink.
- The Lua interpreter, map.lua, NPC spawn groups and the placement loops of InitializeNPC beyond "somewhere in the world".
- Rendering, sound, keyboard handling and the stress client's load control.
