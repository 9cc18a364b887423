/**
 Items: dropped by NPCs, picked up by players racing for them, won in quests and used up. Sessions run
 on different threads, so a pick-up is four steps: look, grab (a compare-and-swap), stow, look on.
 */
module Items {
  import opened Board
  import opened Progression

  /** A world item; slots count from zero, the item type is the slot plus one. */
  datatype Item = Item(at: Tile, slot: nat, active: bool)

  /** Where a session's thread is in do_move's loop over the world items. */
  datatype Task = Resting | Looking(at: Tile) | Reaching(at: Tile, i: nat) | Carrying(at: Tile, slot: nat)

  /** A session's inventory, its quest counts and what its thread is doing. */
  datatype Bag = Bag(counts: seq<nat>, kills: seq<int>, task: Task)

  /** Item ids and session numbers are positions in these lists; departed sessions keep their bags. */
  datatype World = World(items: seq<Item>, bags: seq<Bag>)

  datatype Step =
    | Spawn(at: Tile, slot: nat)
    | Join(counts: seq<nat>, kills: seq<int>)
    | Kill(p: nat, kind: Kind)
    | Use(p: nat, slot: nat, helps: bool)
    | Arrive(p: nat, at: Tile)
    | Look(p: nat, i: nat)
    | Grab(p: nat)
    | Stow(p: nat)
    | Leave(p: nat)

  const START: World := World([], [])

  /** A bag has a count per slot and per quest, and its session reaches for or carries an item there is. */
  predicate BagOk(b: Bag, spawned: nat) {
    && |b.counts| == ITEM_SLOT_COUNT && |b.kills| == QUEST_COUNT
    && (b.task.Reaching? ==> b.task.i < spawned)
    && (b.task.Carrying? ==> b.task.slot < ITEM_SLOT_COUNT)
  }

  predicate Shaped(w: World) {
    && (forall i :: 0 <= i < |w.items| ==> w.items[i].slot < ITEM_SLOT_COUNT)
    && forall p :: 0 <= p < |w.bags| ==> BagOk(w.bags[p], |w.items|)
  }

  function Put(w: World, p: nat, b: Bag): (w': World)
    requires Shaped(w) && p < |w.bags| && BagOk(b, |w.items|)
    ensures Shaped(w')
  {
    w.(bags := w.bags[p := b])
  }

  predicate Enabled(w: World, step: Step) {
    match step
    case Spawn(_, slot) => slot < 3
    case Join(counts, kills) => |counts| == ITEM_SLOT_COUNT && |kills| == QUEST_COUNT
    case Kill(p, _) => p < |w.bags| && w.bags[p].task.Resting?
    case Use(p, slot, _) => p < |w.bags| && slot < ITEM_SLOT_COUNT && w.bags[p].task.Resting?
    case Arrive(p, _) => p < |w.bags| && w.bags[p].task.Resting?
    case Look(p, i) => p < |w.bags| && w.bags[p].task.Looking? && i < |w.items|
    case Grab(p) => p < |w.bags| && w.bags[p].task.Reaching?
    case Stow(p) => p < |w.bags| && w.bags[p].task.Carrying?
    case Leave(p) => p < |w.bags| && w.bags[p].task.Looking?
  }

  function Add(counts: seq<nat>, slot: nat): seq<nat>
    requires slot < |counts|
  {
    counts[slot := counts[slot] + 1]
  }

  /** The inventory after a kill: the last one required for a quest wins that quest's item. */
  function Rewarded(counts: seq<nat>, kills: seq<int>, kind: Kind): (c: seq<nat>)
    requires |counts| == ITEM_SLOT_COUNT && |kills| == QUEST_COUNT
    ensures |c| == ITEM_SLOT_COUNT
  {
    match QuestOf(kind)
    case NoQuest => counts
    case Quest(q) => if Finishes(kills, kind, q) then Add(counts, QUEST_REWARD_SLOT[q]) else counts
  }

  /** The item in reach is still there, and the compare-and-swap takes it. */
  predicate Grabs(w: World, step: Step)
    requires Shaped(w) && Enabled(w, step)
  {
    step.Grab? && w.items[w.bags[step.p].task.i].active
  }

  predicate UsesUp(w: World, step: Step)
    requires Shaped(w) && Enabled(w, step)
  {
    step.Use? && step.helps && w.bags[step.p].counts[step.slot] > 0
  }

  function Next(w: World, step: Step): (w': World)
    requires Shaped(w) && Enabled(w, step)
    ensures Shaped(w')
  {
    match step
    case Spawn(at, slot) => w.(items := w.items + [Item(at, slot, true)])
    case Join(counts, kills) => w.(bags := w.bags + [Bag(counts, kills, Resting)])
    case Kill(p, kind) =>
      var b := w.bags[p];
      Put(w, p, Bag(Rewarded(b.counts, b.kills, kind), Tallied(b.kills, kind), Resting))
    case Use(p, slot, _) =>
      var counts := w.bags[p].counts;
      if UsesUp(w, step) then Put(w, p, w.bags[p].(counts := counts[slot := counts[slot] - 1])) else w
    case Arrive(p, at) => Put(w, p, w.bags[p].(task := Looking(at)))
    case Look(p, i) =>
      var at := w.bags[p].task.at;
      if w.items[i].active && w.items[i].at == at then Put(w, p, w.bags[p].(task := Reaching(at, i))) else w
    case Grab(p) =>
      var at, i := w.bags[p].task.at, w.bags[p].task.i;
      if w.items[i].active then
        Put(w.(items := w.items[i := Item(w.items[i].at, w.items[i].slot, false)]),
            p, w.bags[p].(task := Carrying(at, w.items[i].slot)))
      else Put(w, p, w.bags[p].(task := Looking(at)))
    case Stow(p) =>
      var task := w.bags[p].task;
      Put(w, p, Bag(Add(w.bags[p].counts, task.slot), w.bags[p].kills, Looking(task.at)))
    case Leave(p) => Put(w, p, w.bags[p].(task := Resting))
  }

  ghost predicate IsRun(steps: seq<Step>)
    decreases |steps|, 0
  {
    steps == [] || (IsRun(steps[..|steps| - 1]) && Enabled(After(steps[..|steps| - 1]), steps[|steps| - 1]))
  }

  ghost function After(steps: seq<Step>): (w: World)
    requires IsRun(steps)
    ensures Shaped(w)
    decreases |steps|, 1
  {
    if steps == [] then START else Next(After(steps[..|steps| - 1]), steps[|steps| - 1])
  }

  // ---- the two sides of the ledger ----

  /** What has come into the world in this slot, minus what has been used up. */
  ghost function Net(steps: seq<Step>, slot: nat): int
    requires IsRun(steps) && slot < ITEM_SLOT_COUNT
    decreases |steps|
  {
    if steps == [] then 0
    else
      var w, step := After(steps[..|steps| - 1]), steps[|steps| - 1];
      Net(steps[..|steps| - 1], slot) + Flow(w, step, slot)
  }

  /** Drops, loaded holdings and completed quests' rewards come in; used items go out; nothing else flows. */
  function Flow(w: World, step: Step, slot: nat): int
    requires Shaped(w) && Enabled(w, step) && slot < ITEM_SLOT_COUNT
  {
    match step
    case Spawn(_, s) => if s == slot then 1 else 0
    case Join(counts, _) => counts[slot]
    case Kill(p, kind) => if WinsItem(w.bags[p].kills, kind, slot) then 1 else 0
    case Use(_, s, _) => if s == slot && UsesUp(w, step) then -1 else 0
    case _ => 0
  }

  function OnMap(items: seq<Item>, slot: nat): nat {
    if items == [] then 0
    else
      var x := items[|items| - 1];
      OnMap(items[..|items| - 1], slot) + (if x.active && x.slot == slot then 1 else 0)
  }

  /** What one session has in its bag and in its hands. */
  function Holding(b: Bag, slot: nat): nat
    requires slot < |b.counts|
  {
    b.counts[slot] + (if b.task.Carrying? && b.task.slot == slot then 1 else 0)
  }

  function Held(bags: seq<Bag>, slot: nat): nat
    requires forall p :: 0 <= p < |bags| ==> slot < |bags[p].counts|
  {
    if bags == [] then 0 else Held(bags[..|bags| - 1], slot) + Holding(bags[|bags| - 1], slot)
  }

  lemma {:induction false} OnMapChange(items: seq<Item>, i: nat, x: Item, slot: nat)
    requires i < |items|
    ensures OnMap(items[i := x], slot) ==
            OnMap(items, slot) - (if items[i].active && items[i].slot == slot then 1 else 0) +
            (if x.active && x.slot == slot then 1 else 0)
    decreases |items|
  {
    var k := |items| - 1;
    if i < k {
      OnMapChange(items[..k], i, x, slot);
      assert items[i := x][..k] == items[..k][i := x];
    } else {
      assert items[i := x][..k] == items[..k];
    }
  }

  lemma {:induction false} HeldChange(bags: seq<Bag>, p: nat, b: Bag, slot: nat)
    requires p < |bags| && slot < |b.counts| && forall q :: 0 <= q < |bags| ==> slot < |bags[q].counts|
    ensures Held(bags[p := b], slot) == Held(bags, slot) - Holding(bags[p], slot) + Holding(b, slot)
    decreases |bags|
  {
    var k := |bags| - 1;
    if p < k {
      HeldChange(bags[..k], p, b, slot);
      assert bags[p := b][..k] == bags[..k][p := b];
    } else {
      assert bags[p := b][..k] == bags[..k];
    }
  }

  function Total(w: World, slot: nat): nat
    requires Shaped(w) && slot < ITEM_SLOT_COUNT
  {
    OnMap(w.items, slot) + Held(w.bags, slot)
  }

  lemma KillBalances(w: World, p: nat, kind: Kind, slot: nat)
    requires Shaped(w) && Enabled(w, Kill(p, kind)) && slot < ITEM_SLOT_COUNT
    ensures Total(Next(w, Kill(p, kind)), slot) == Total(w, slot) + Flow(w, Kill(p, kind), slot)
  {
    HeldChange(w.bags, p, Next(w, Kill(p, kind)).bags[p], slot);
  }

  lemma UseBalances(w: World, p: nat, s: nat, helps: bool, slot: nat)
    requires Shaped(w) && Enabled(w, Use(p, s, helps)) && slot < ITEM_SLOT_COUNT
    ensures Total(Next(w, Use(p, s, helps)), slot) == Total(w, slot) + Flow(w, Use(p, s, helps), slot)
  {
    HeldChange(w.bags, p, Next(w, Use(p, s, helps)).bags[p], slot);
  }

  lemma GrabBalances(w: World, p: nat, slot: nat)
    requires Shaped(w) && Enabled(w, Grab(p)) && slot < ITEM_SLOT_COUNT
    ensures Total(Next(w, Grab(p)), slot) == Total(w, slot)
  {
    var w', i := Next(w, Grab(p)), w.bags[p].task.i;
    HeldChange(w.bags, p, w'.bags[p], slot);
    OnMapChange(w.items, i, w'.items[i], slot);
  }

  lemma StepBalances(w: World, step: Step, slot: nat)
    requires Shaped(w) && Enabled(w, step) && slot < ITEM_SLOT_COUNT
    ensures Total(Next(w, step), slot) == Total(w, slot) + Flow(w, step, slot)
  {
    var w' := Next(w, step);
    match step {
      case Spawn(at, s) => assert w'.items[..|w.items|] == w.items;
      case Join(counts, _) => assert w'.bags[..|w.bags|] == w.bags;
      case Kill(p, kind) => KillBalances(w, p, kind, slot);
      case Use(p, s, helps) => UseBalances(w, p, s, helps, slot);
      case Grab(p) => GrabBalances(w, p, slot);
      case _ => HeldChange(w.bags, step.p, w'.bags[step.p], slot);
    }
  }

  /**
   Per item type and for every interleaving: what came in, less what was used, is on the map or in some
   session's hands.
   */
  lemma {:induction false} ItemsConserved(steps: seq<Step>, slot: nat)
    requires IsRun(steps) && slot < ITEM_SLOT_COUNT
    ensures Net(steps, slot) == Total(After(steps), slot)
    decreases |steps|
  {
    if steps != [] {
      var before := steps[..|steps| - 1];
      ItemsConserved(before, slot);
      StepBalances(After(before), steps[|steps| - 1], slot);
    }
  }

  // ---- nobody gets an item twice ----

  /** How many sessions have successfully grabbed item `i`. */
  ghost function Takers(steps: seq<Step>, i: nat): nat
    requires IsRun(steps)
    decreases |steps|
  {
    if steps == [] then 0
    else
      var w, step := After(steps[..|steps| - 1]), steps[|steps| - 1];
      Takers(steps[..|steps| - 1], i) + (if Grabs(w, step) && w.bags[step.p].task.i == i then 1 else 0)
  }

  /** However many players race for an item, exactly one gets it, and then it is off the map. */
  lemma {:induction false} TakenOnce(steps: seq<Step>, i: nat)
    requires IsRun(steps)
    ensures Takers(steps, i) == if i < |After(steps).items| && !After(steps).items[i].active then 1 else 0
    decreases |steps|
  {
    if steps != [] {
      TakenOnce(steps[..|steps| - 1], i);
    }
  }

  /** Whoever reaches for an item stands on its tile. */
  ghost predicate AtHand(w: World)
    requires Shaped(w)
  {
    forall p :: 0 <= p < |w.bags| && w.bags[p].task.Reaching? ==> w.items[w.bags[p].task.i].at == w.bags[p].task.at
  }

  lemma {:induction false} ReachIsLocal(steps: seq<Step>)
    requires IsRun(steps)
    ensures AtHand(After(steps))
    decreases |steps|
  {
    if steps != [] {
      ReachIsLocal(steps[..|steps| - 1]);
    }
  }

  // ---- the same code, when nobody interferes ----

  /** Active items of one type on one tile. */
  function OnTile(items: seq<Item>, at: Tile, slot: nat): nat {
    if items == [] then 0
    else
      var x := items[|items| - 1];
      OnTile(items[..|items| - 1], at, slot) + (if x.active && x.at == at && x.slot == slot then 1 else 0)
  }

  datatype Loot = Nothing | Drop(slot: nat)

  /** What an NPC of each kind drops, `r` being the random number drawn. */
  function LootFor(kind: Kind, r: nat): (loot: Loot)
    ensures loot.Drop? ==> loot.slot < 3
  {
    match kind
    case Boss => if r < 20 then Drop(0) else if r < 40 then Drop(1) else if r < 70 then Drop(2) else Nothing
    case Agro => if r < 25 then Drop(0) else if r < 35 then Drop(1) else Nothing
    case Peace => if r < 30 then Drop(0) else Nothing
  }

  /** How many of the hundred random numbers give this loot. */
  ghost function Chances(kind: Kind, loot: Loot): nat {
    |set r | 0 <= r < 100 && LootFor(kind, r) == loot|
  }

  lemma {:induction false} IntervalSize(s: set<int>, lo: int, n: nat)
    requires forall r :: r in s <==> lo <= r < lo + n
    ensures |s| == n
  {
    if n == 0 {
      if s != {} {
        var r := Inhabitant(s);
        assert false;
      }
    } else {
      IntervalSize(s - {lo + n - 1}, lo, n - 1);
    }
  }

  /** In a hundred: a boss drops 20 potions, 20 large ones, 30 elixirs; an aggressive NPC 25, 10; a peaceful one 30. */
  lemma LootChances()
    ensures Chances(Boss, Drop(0)) == 20 && Chances(Boss, Drop(1)) == 20 && Chances(Boss, Drop(2)) == 30
    ensures Chances(Agro, Drop(0)) == 25 && Chances(Agro, Drop(1)) == 10 && Chances(Agro, Drop(2)) == 0
    ensures Chances(Peace, Drop(0)) == 30 && Chances(Peace, Drop(1)) == 0 && Chances(Peace, Drop(2)) == 0
    ensures Chances(Boss, Nothing) == 30 && Chances(Agro, Nothing) == 65 && Chances(Peace, Nothing) == 70
  {
    IntervalSize(set r | 0 <= r < 100 && LootFor(Boss, r) == Drop(0), 0, 20);
    IntervalSize(set r | 0 <= r < 100 && LootFor(Boss, r) == Drop(1), 20, 20);
    IntervalSize(set r | 0 <= r < 100 && LootFor(Boss, r) == Drop(2), 40, 30);
    IntervalSize(set r | 0 <= r < 100 && LootFor(Boss, r) == Nothing, 70, 30);
    IntervalSize(set r | 0 <= r < 100 && LootFor(Agro, r) == Drop(0), 0, 25);
    IntervalSize(set r | 0 <= r < 100 && LootFor(Agro, r) == Drop(1), 25, 10);
    IntervalSize(set r | 0 <= r < 100 && LootFor(Agro, r) == Drop(2), 0, 0);
    IntervalSize(set r | 0 <= r < 100 && LootFor(Agro, r) == Nothing, 35, 65);
    IntervalSize(set r | 0 <= r < 100 && LootFor(Peace, r) == Drop(0), 0, 30);
    IntervalSize(set r | 0 <= r < 100 && LootFor(Peace, r) == Drop(1), 0, 0);
    IntervalSize(set r | 0 <= r < 100 && LootFor(Peace, r) == Drop(2), 0, 0);
    IntervalSize(set r | 0 <= r < 100 && LootFor(Peace, r) == Nothing, 30, 70);
  }

  /** An item on the ground is of a type that has a slot. */
  type GroundItem = x: Item | x.slot < ITEM_SLOT_COUNT witness Item(Tile(0, 0), 0, false)

  /** The ground after a drop. */
  function Littered(items: seq<GroundItem>, at: Tile, loot: Loot): seq<GroundItem>
    requires loot.Drop? ==> loot.slot < ITEM_SLOT_COUNT
  {
    match loot
    case Nothing => items
    case Drop(slot) => items + [Item(at, slot, true)]
  }

  /** The ground has received what an NPC of this kind may drop, and nothing else. */
  ghost predicate MayLeave(items: seq<GroundItem>, at: Tile, kind: Kind, items': seq<GroundItem>) {
    exists r: nat {:trigger LootFor(kind, r)} :: r < 100 && items' == Littered(items, at, LootFor(kind, r))
  }

  /** Everything on the tile has been taken. */
  ghost predicate Cleared(items: seq<Item>, at: Tile, items': seq<Item>) {
    && |items'| == |items|
    && forall i :: 0 <= i < |items| ==>
         items'[i] == if items[i].at == at then Item(at, items[i].slot, false) else items[i]
  }

  lemma TakeOne(items: seq<Item>, i: nat)
    requires i < |items|
    ensures OnTile(items[..i + 1], items[i].at, items[i].slot) ==
            OnTile(items[..i], items[i].at, items[i].slot) + (if items[i].active then 1 else 0)
    ensures forall at, slot: nat :: at != items[i].at || slot != items[i].slot ==>
              OnTile(items[..i + 1], at, slot) == OnTile(items[..i], at, slot)
  {
    assert items[..i + 1][..i] == items[..i];
  }

  class ItemMap {
    var items: seq<GroundItem>

    constructor ()
      ensures items == []
    {
      items := [];
    }

    /**
     spawn_item: the new item can be found under an id never used before, on its tile, and no other
     tile or type gains or loses anything.
     */
    method SpawnItem(at: Tile, slot: nat) returns (id: nat)
      requires slot < ITEM_SLOT_COUNT
      modifies this
      ensures id == |old(items)| && |items| == id + 1 && items[..id] == old(items) && items[id] == Item(at, slot, true)
      ensures forall t, k: nat ::
                OnTile(items, t, k) == OnTile(old(items), t, k) + (if t == at && k == slot then 1 else 0)
    {
      id := |items|;
      items := items + [Item(at, slot, true)];
      assert items[..id] == old(items);
      TakeOne(items, id);
      assert items[..id + 1] == items;
    }

    /**
     The loop at the end of do_move: everything on the tile goes into the bag, each item into the slot
     of its type, and nothing else changes hands.
     */
    method PickUp(at: Tile, counts: seq<int>) returns (bag: seq<int>)
      requires |counts| == ITEM_SLOT_COUNT
      modifies this
      ensures |bag| == |counts| && Cleared(old(items), at, items)
      ensures forall slot: nat :: slot < |counts| ==> bag[slot] == counts[slot] + OnTile(old(items), at, slot)
    {
      bag := counts;
      for i := 0 to |items|
        invariant |items| == |old(items)| && |bag| == |counts|
        invariant forall k :: 0 <= k < |items| ==> items[k].slot == old(items)[k].slot
        invariant forall k :: 0 <= k < i ==>
                    items[k] == if old(items)[k].at == at then Item(at, old(items)[k].slot, false) else old(items)[k]
        invariant forall k :: i <= k < |items| ==> items[k] == old(items)[k]
        invariant forall slot: nat :: slot < |counts| ==> bag[slot] == counts[slot] + OnTile(old(items)[..i], at, slot)
      {
        var x := items[i];
        TakeOne(old(items), i);
        if x.active && x.at == at {
          items := items[i := Item(at, x.slot, false)];
          bag := bag[x.slot := bag[x.slot] + 1];
        }
      }
      assert old(items)[..|items|] == old(items);
    }

    /** What is dropped on a tile is in the bag of whoever steps there next. */
    method DropAndPickUp(at: Tile, slot: nat, counts: seq<int>) returns (bag: seq<int>)
      requires slot < |counts| == ITEM_SLOT_COUNT
      modifies this
      ensures |bag| == |counts| && |items| == |old(items)| + 1 && forall k: nat :: OnTile(items, at, k) == 0
      ensures forall k: nat :: k < |counts| ==>
                bag[k] == counts[k] + OnTile(old(items), at, k) + (if k == slot then 1 else 0)
    {
      var id := SpawnItem(at, slot);
      ghost var before := items;
      bag := PickUp(at, counts);
      forall k: nat
        ensures OnTile(items, at, k) == 0
      {
        ClearedIsEmpty(before, at, items, k);
      }
    }
  }

  lemma {:induction false} ClearedIsEmpty(items: seq<Item>, at: Tile, items': seq<Item>, slot: nat)
    requires Cleared(items, at, items')
    ensures OnTile(items', at, slot) == 0
    decreases |items|
  {
    if items != [] {
      ClearedIsEmpty(items[..|items| - 1], at, items'[..|items| - 1], slot);
    }
  }
}
