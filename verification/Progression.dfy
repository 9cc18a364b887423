/** Experience, levels and quests of a player. */
module Progression {
  const INT_MAX: int := 0x7FFF_FFFF

  const PC_MAX_HP: int := 100
  const QUEST_TARGETS: seq<int> := [10, 3]
  const QUEST_REWARD_XP: seq<int> := [500, 3000]
  /** Inventory slots of the reward items: attack boost, defence boost. */
  const QUEST_REWARD_SLOT: seq<int> := [3, 4]
  const QUEST_COUNT: int := 2
  const ITEM_SLOT_COUNT: int := 6
  const HP_POTION_RESTORE: int := 30
  const HP_HI_POTION_RESTORE: int := 60
  const BOOST_TIME: int := 30000

  datatype Kind = Peace | Agro | Boss

  // ---- level-up arithmetic ----

  function Pow2(n: nat): nat {
    if n == 0 then 1 else 2 * Pow2(n - 1)
  }

  lemma {:induction false} Pow2Positive(n: nat)
    ensures Pow2(n) >= 1
  {
    if n > 0 {
      Pow2Positive(n - 1);
    }
  }

  /** exp_for_next_level */
  function Threshold(level: int): nat
    requires level >= 1
  {
    100 * Pow2(level - 1)
  }

  datatype Rank = Rank(level: int, xp: int)

  /** The form every level-up ends in. */
  predicate Normal(r: Rank) {
    r.level >= 1 && 0 <= r.xp < Threshold(r.level)
  }

  /** Total experience behind a rank: the thresholds already paid plus what is left over. */
  function Potential(r: Rank): int
    requires r.level >= 1
  {
    100 * (Pow2(r.level - 1) - 1) + r.xp
  }

  /** The level-up loop as a function. */
  function Settle(r: Rank): Rank
    requires r.level >= 1
    decreases r.xp
  {
    Pow2Positive(r.level - 1);
    if r.xp >= Threshold(r.level) then Settle(Rank(r.level + 1, r.xp - Threshold(r.level))) else r
  }

  lemma {:induction false} SettleConserves(r: Rank)
    requires r.level >= 1 && r.xp >= 0
    ensures Normal(Settle(r)) && Potential(Settle(r)) == Potential(r) && Settle(r).level >= r.level
    decreases r.xp
  {
    Pow2Positive(r.level - 1);
    if r.xp >= Threshold(r.level) {
      SettleConserves(Rank(r.level + 1, r.xp - Threshold(r.level)));
    }
  }

  function Gain(r: Rank, gain: int): Rank
    requires r.level >= 1
  {
    Settle(Rank(r.level, r.xp + gain))
  }

  lemma {:induction false} Pow2Monotone(m: nat, n: nat)
    requires m <= n
    ensures Pow2(m) <= Pow2(n)
    decreases n - m
  {
    if m < n {
      Pow2Monotone(m, n - 1);
    }
  }

  /** Potential separates levels: exactly the ranks below level L have less than L's starting potential. */
  lemma LevelByPotential(r: Rank, level: int)
    requires Normal(r) && level >= 1
    ensures r.level < level <==> Potential(r) < Potential(Rank(level, 0))
  {
    if r.level < level {
      Pow2Monotone(r.level, level - 1);
    } else {
      Pow2Monotone(level - 1, r.level - 1);
    }
  }

  lemma NormalUnique(r: Rank, s: Rank)
    requires Normal(r) && Normal(s) && Potential(r) == Potential(s)
    ensures r == s
  {
    LevelByPotential(r, s.level + 1);
    LevelByPotential(s, r.level + 1);
  }

  lemma GainPays(r: Rank, gain: nat)
    requires Normal(r)
    ensures Normal(Gain(r, gain)) && Potential(Gain(r, gain)) == Potential(r) + gain
  {
    SettleConserves(Rank(r.level, r.xp + gain));
  }

  /** Gains add up: in one go or in two, the player ends at the same level with the same experience. */
  lemma GainsAdd(r: Rank, a: nat, b: nat)
    requires Normal(r)
    ensures Normal(Gain(r, a)) && Potential(Gain(r, a)) == Potential(r) + a
    ensures Gain(Gain(r, a), b) == Gain(r, a + b)
  {
    GainPays(r, a);
    GainPays(Gain(r, a), b);
    GainPays(r, a + b);
    NormalUnique(Gain(Gain(r, a), b), Gain(r, a + b));
  }

  /** Losing half the experience keeps the form and never raises the potential. */
  lemma HalvingKeepsNormal(r: Rank)
    requires Normal(r)
    ensures Normal(Rank(r.level, r.xp / 2)) && Potential(Rank(r.level, r.xp / 2)) <= Potential(r)
  {
  }

  // ---- 32-bit arithmetic ----

  /** Every threshold the loop evaluates from `r` on fits in an int. */
  predicate LoopFits(r: Rank)
    requires r.level >= 1
    decreases r.xp
  {
    Pow2Positive(r.level - 1);
    && Threshold(r.level) <= INT_MAX
    && (r.xp >= Threshold(r.level) ==> LoopFits(Rank(r.level + 1, r.xp - Threshold(r.level))))
  }

  /** The addition and the loop run without overflow. */
  predicate GainFits(r: Rank, gain: int)
    requires r.level >= 1
  {
    r.xp + gain <= INT_MAX && LoopFits(Rank(r.level, r.xp + gain))
  }

  lemma ThresholdFits(level: int)
    requires level >= 1
    ensures Threshold(level) <= INT_MAX <==> level <= 25
  {
    Pow2At24();
    if level <= 25 {
      Pow2Monotone(level - 1, 24);
    } else {
      Pow2Monotone(25, level - 1);
    }
  }

  lemma Pow2At24()
    ensures Pow2(24) == 16777216 && Pow2(25) == 33554432
  {
    assert Pow2(6) == 64;
    assert Pow2(12) == 4096;
    assert Pow2(18) == 262144;
    assert Pow2(24) == 16777216;
  }

  lemma {:induction false} LoopFitsIffFinalLevel(r: Rank)
    requires r.level >= 1 && r.xp >= 0
    ensures LoopFits(r) <==> Settle(r).level <= 25
    decreases r.xp
  {
    Pow2Positive(r.level - 1);
    ThresholdFits(r.level);
    SettleConserves(r);
    if r.xp >= Threshold(r.level) {
      LoopFitsIffFinalLevel(Rank(r.level + 1, r.xp - Threshold(r.level)));
    }
  }

  const LIFETIME_LIMIT: int := 100 * (33554432 - 1)

  /** Exactly when one gain overflows: in the addition itself, or by reaching level 26. */
  lemma GainFitsExactly(r: Rank, gain: nat)
    requires Normal(r)
    ensures GainFits(r, gain) <==> r.xp + gain <= INT_MAX && Potential(r) + gain < LIFETIME_LIMIT
  {
    var s := Rank(r.level, r.xp + gain);
    SettleConserves(s);
    LoopFitsIffFinalLevel(s);
    LevelByPotential(Settle(s), 26);
    Pow2At24();
  }

  /** The largest gain whose addition can never overflow, whatever the player has at level 25 or below. */
  const SAFE_GAIN: int := 469762048

  datatype Deed = Earn(gain: nat) | Die

  function Lifetime(deeds: seq<Deed>): nat {
    if deeds == [] then 0
    else Lifetime(deeds[..|deeds| - 1]) + (match deeds[|deeds| - 1] case Earn(g) => g case Die => 0)
  }

  function RankAfter(deeds: seq<Deed>): (r: Rank)
    ensures r.level >= 1
  {
    if deeds == [] then Rank(1, 0)
    else
      var r := RankAfter(deeds[..|deeds| - 1]);
      match deeds[|deeds| - 1]
      case Earn(g) => (var s := Rank(r.level, r.xp + g); SettleLevel(s); Settle(s))
      case Die => Rank(r.level, r.xp / 2)
  }

  lemma {:induction false} SettleLevel(r: Rank)
    requires r.level >= 1
    ensures Settle(r).level >= 1
    decreases r.xp
  {
    Pow2Positive(r.level - 1);
    if r.xp >= Threshold(r.level) {
      SettleLevel(Rank(r.level + 1, r.xp - Threshold(r.level)));
    }
  }

  /** Every earning step of the life runs without overflow. */
  predicate LifeFits(deeds: seq<Deed>) {
    deeds == [] ||
    (LifeFits(deeds[..|deeds| - 1]) &&
     match deeds[|deeds| - 1] case Earn(g) => GainFits(RankAfter(deeds[..|deeds| - 1]), g) case Die => true)
  }

  lemma {:induction false} LifeIsNormal(deeds: seq<Deed>)
    ensures Normal(RankAfter(deeds))
    decreases |deeds|
  {
    if deeds == [] {
      assert Pow2(0) == 1;
    } else {
      var before := deeds[..|deeds| - 1];
      LifeIsNormal(before);
      match deeds[|deeds| - 1]
      case Earn(g) => GainPays(RankAfter(before), g);
      case Die => HalvingKeepsNormal(RankAfter(before));
    }
  }

  /** What the player has before deed `i` leaves room for it in 32 bits. */
  ghost predicate RoomFor(deeds: seq<Deed>, i: nat)
    requires i < |deeds|
  {
    var r := RankAfter(deeds[..i]);
    deeds[i].Earn? ==> r.xp + deeds[i].gain <= INT_MAX && Potential(r) + deeds[i].gain < LIFETIME_LIMIT
  }

  lemma LastFitsExactly(deeds: seq<Deed>)
    requires deeds != []
    ensures LifeFits(deeds) <==> LifeFits(deeds[..|deeds| - 1]) && RoomFor(deeds, |deeds| - 1)
  {
    var before, last := deeds[..|deeds| - 1], deeds[|deeds| - 1];
    if last.Earn? {
      LifeIsNormal(before);
      GainFitsExactly(RankAfter(before), last.gain);
    }
  }

  /** Exactly when a whole life runs without overflow: there was room for every gain when it came. */
  lemma {:induction false} LifeFitsExactly(deeds: seq<Deed>)
    ensures LifeFits(deeds) <==> forall i :: 0 <= i < |deeds| ==> RoomFor(deeds, i)
    decreases |deeds|
  {
    if deeds != [] {
      var k := |deeds| - 1;
      var before := deeds[..k];
      LifeFitsExactly(before);
      forall i | 0 <= i < k
        ensures RoomFor(before, i) <==> RoomFor(deeds, i)
      {
        assert before[..i] == deeds[..i];
      }
      LastFitsExactly(deeds);
      assert forall i :: 0 <= i < |deeds| ==>
               (RoomFor(deeds, i) <==> if i < k then RoomFor(before, i) else RoomFor(deeds, k));
    }
  }

  lemma XpBelowLevel25(r: Rank)
    requires Normal(r) && Potential(r) < LIFETIME_LIMIT
    ensures r.xp + SAFE_GAIN <= INT_MAX
  {
    Pow2At24();
    LevelByPotential(r, 26);
    ThresholdFits(r.level);
    Pow2Monotone(r.level - 1, 24);
  }

  /** The last deed of a life adds at most its gain. */
  lemma LastDeedAdds(deeds: seq<Deed>)
    requires deeds != []
    ensures var before, last := deeds[..|deeds| - 1], deeds[|deeds| - 1];
      && Lifetime(deeds) == Lifetime(before) + (if last.Earn? then last.gain else 0)
      && Potential(RankAfter(deeds)) <= Potential(RankAfter(before)) + (if last.Earn? then last.gain else 0)
  {
    var before, last := deeds[..|deeds| - 1], deeds[|deeds| - 1];
    LifeIsNormal(before);
    if last.Earn? {
      GainPays(RankAfter(before), last.gain);
    } else {
      HalvingKeepsNormal(RankAfter(before));
    }
  }

  /** A life from level 1 stays in normal form; with moderate gains it never overflows before the limit. */
  lemma {:induction false} LifeStaysInRange(deeds: seq<Deed>)
    requires Lifetime(deeds) < LIFETIME_LIMIT
    requires forall i :: 0 <= i < |deeds| && deeds[i].Earn? ==> deeds[i].gain <= SAFE_GAIN
    ensures Normal(RankAfter(deeds)) && Potential(RankAfter(deeds)) <= Lifetime(deeds) && LifeFits(deeds)
    decreases |deeds|
  {
    LifeIsNormal(deeds);
    if deeds == [] {
      assert Pow2(0) == 1;
    } else {
      var k := |deeds| - 1;
      LastDeedAdds(deeds);
      LifeStaysInRange(deeds[..k]);
      LifeIsNormal(deeds[..k]);
      XpBelowLevel25(RankAfter(deeds[..k]));
      LastFitsExactly(deeds);
      assert deeds[k].Earn? ==> deeds[k].gain <= SAFE_GAIN;
    }
  }

  // ---- the player's sheet ----

  datatype Sheet = Sheet(rank: Rank, hp: int, maxHp: int, kills: seq<int>, inventory: seq<int>)

  predicate SheetOk(s: Sheet) {
    Normal(s.rank) && s.maxHp == MaxHp(s.rank.level) && |s.kills| == QUEST_COUNT && |s.inventory| == ITEM_SLOT_COUNT
  }

  const NEW_SHEET: Sheet := Sheet(Rank(1, 0), PC_MAX_HP, PC_MAX_HP, [0, 0], [0, 0, 0, 0, 0, 0])

  /** Sheets in the form every handler leaves them in. */
  type NormalSheet = s: Sheet | SheetOk(s) witness NEW_SHEET

  /** What a login makes of the stored values: the maximum is computed anew, and the hit points are cut to it. */
  function FromDatabase(rank: Rank, hp: int, kills: seq<int>, inventory: seq<int>): (s: Sheet)
    requires Normal(rank) && |kills| == QUEST_COUNT && |inventory| == ITEM_SLOT_COUNT
    ensures SheetOk(s) && s.hp <= s.maxHp && (hp <= s.maxHp ==> s.hp == hp) && (hp > s.maxHp ==> s.hp == s.maxHp)
    ensures s.rank == rank && s.kills == kills && s.inventory == inventory && s.maxHp == 90 + 10 * rank.level
  {
    var max := MaxHp(rank.level);
    Sheet(rank, if hp < max then hp else max, max, kills, inventory)
  }

  /** calc_max_hp; the 16-bit cast is exact for every level an int-sized threshold allows. */
  function MaxHp(level: int): int {
    PC_MAX_HP + (level - 1) * 10
  }

  function KillXp(kind: Kind, level: int): int {
    level * level * 2 * (match kind case Boss => 10 case Agro => 2 case Peace => 1)
  }

  function Award(s: Sheet, gain: int): Sheet
    requires s.rank.level >= 1
  {
    var r := Gain(s.rank, gain);
    s.(rank := r, maxHp := MaxHp(r.level), hp := MaxHp(r.level))
  }

  datatype MaybeQuest = NoQuest | Quest(id: nat)

  function QuestOf(kind: Kind): (q: MaybeQuest)
    ensures q.Quest? ==> q.id < QUEST_COUNT
  {
    match kind case Peace => NoQuest case Agro => Quest(0) case Boss => Quest(1)
  }

  /** process_quest_kill */
  function QuestKill(s: Sheet, kind: Kind): Sheet
    requires SheetOk(s)
  {
    match QuestOf(kind)
    case NoQuest => s
    case Quest(q) =>
      if s.kills[q] + 1 >= QUEST_TARGETS[q] then
        var slot := QUEST_REWARD_SLOT[q];
        var t := Award(s.(kills := s.kills[q := 0]), QUEST_REWARD_XP[q]);
        t.(inventory := s.inventory[slot := s.inventory[slot] + 1])
      else
        s.(kills := s.kills[q := s.kills[q] + 1])
  }

  lemma AwardKeeps(s: Sheet, gain: nat)
    requires SheetOk(s)
    ensures SheetOk(Award(s, gain)) && Potential(Award(s, gain).rank) == Potential(s.rank) + gain
  {
    GainPays(s.rank, gain);
  }

  /** What killing an NPC does to its killer. */
  function Kill(s: Sheet, kind: Kind, level: int): (t: Sheet)
    requires SheetOk(s)
    ensures SheetOk(t)
  {
    KillXpPositive(kind, level);
    AwardKeeps(s, KillXp(kind, level));
    QuestKillShape(Award(s, KillXp(kind, level)), kind);
    QuestKill(Award(s, KillXp(kind, level)), kind)
  }

  lemma KillRaisesLevel(s: Sheet, kind: Kind, level: int)
    requires SheetOk(s)
    ensures Kill(s, kind, level).rank.level >= s.rank.level
  {
    KillXpPositive(kind, level);
    SheetsStayNormal(s, kind, level);
    LevelByPotential(Kill(s, kind, level).rank, s.rank.level);
  }

  lemma KillXpPositive(kind: Kind, level: int)
    ensures KillXp(kind, level) >= 0
  {
    assert level * level >= 0;
  }

  /** A bound on the lifetime total alone is not enough: killing one NPC of a huge level overflows the addition. */
  lemma HugeGainOverflowsEarly()
    ensures var life := [Earn(KillXp(Agro, 291)), Earn(KillXp(Peace, 32767))];
            Lifetime(life) < LIFETIME_LIMIT && !LifeFits(life)
  {
    var first, second := Earn(KillXp(Agro, 291)), Earn(KillXp(Peace, 32767));
    assert [first, second][..1] == [first] && [first][..0] == [];
    var r := RankAfter([first]);
    LifeIsNormal([]);
    assert r == Gain(Rank(1, 0), 338724);
    GainPays(Rank(1, 0), 338724);
    assert Pow2(6) == 64;
    assert Pow2(11) == 2048 && Pow2(12) == 4096;
    LevelByPotential(r, 13);
    Pow2Monotone(r.level - 1, 11);
    assert r.xp + second.gain > INT_MAX;
    assert Lifetime([]) == 0 && Lifetime([first]) == 338724;
  }

  /** player_die, apart from the walk back to the spawn point */
  function Death(s: Sheet): Sheet {
    s.(rank := Rank(s.rank.level, s.rank.xp / 2), hp := s.maxHp)
  }

  /** process_hp_regen: a tenth of the maximum, at least one point, never beyond the maximum */
  function Regenerated(s: Sheet): Sheet {
    if s.hp < s.maxHp then
      var gain := if s.maxHp / 10 > 1 then s.maxHp / 10 else 1;
      s.(hp := if s.hp + gain < s.maxHp then s.hp + gain else s.maxHp)
    else s
  }

  function Healed(s: Sheet, ticks: nat): Sheet {
    if ticks == 0 then s else Regenerated(Healed(s, ticks - 1))
  }

  /** The maximum is always a multiple of ten, so ten regeneration ticks in peace restore anybody completely. */
  lemma TenTicksHeal(s: Sheet, ticks: nat)
    requires SheetOk(s) && 0 <= s.hp <= s.maxHp && ticks >= 10
    ensures Healed(s, ticks) == s.(hp := s.maxHp)
  {
    TicksHeal(s, ticks);
    TenTenths(s.rank.level, ticks);
  }

  lemma TenTenths(level: int, ticks: nat)
    requires level >= 1 && ticks >= 10
    ensures ticks * (MaxHp(level) / 10) >= MaxHp(level)
  {
    var gain := MaxHp(level) / 10;
    assert MaxHp(level) == 10 * gain;
    assert (ticks - 10) * gain >= 0;
    assert ticks * gain == (ticks - 10) * gain + 10 * gain;
  }

  lemma {:induction false} TicksHeal(s: Sheet, ticks: nat)
    requires s.rank.level >= 1 && s.maxHp == MaxHp(s.rank.level) && 0 <= s.hp <= s.maxHp
    ensures var healed := s.hp + ticks * (s.maxHp / 10);
      Healed(s, ticks) == s.(hp := if healed < s.maxHp then healed else s.maxHp)
  {
    if ticks > 0 {
      TicksHeal(s, ticks - 1);
      assert s.maxHp / 10 == 10 + (s.rank.level - 1);
      assert ticks * (s.maxHp / 10) == (ticks - 1) * (s.maxHp / 10) + s.maxHp / 10;
      assert (ticks - 1) * (s.maxHp / 10) >= 0;
    }
  }

  /** Kills, quest rewards and deaths keep the level-up normal form, and each pays exactly its experience. */
  lemma SheetsStayNormal(s: Sheet, kind: Kind, level: int)
    requires SheetOk(s)
    ensures SheetOk(Kill(s, kind, level)) && SheetOk(Death(s))
    ensures Potential(Kill(s, kind, level).rank) == Potential(s.rank) + KillXp(kind, level) +
              (match QuestOf(kind)
               case NoQuest => 0
               case Quest(q) => if s.kills[q] + 1 >= QUEST_TARGETS[q] then QUEST_REWARD_XP[q] else 0)
  {
    KillXpPositive(kind, level);
    AwardKeeps(s, KillXp(kind, level));
    var t := Award(s, KillXp(kind, level));
    match QuestOf(kind) {
      case NoQuest =>
      case Quest(q) => AwardKeeps(t.(kills := t.kills[q := 0]), QUEST_REWARD_XP[q]);
    }
    HalvingKeepsNormal(s.rank);
  }

  /** Two points for the square of the level, twice that for an aggressive NPC, ten times for a boss. */
  lemma KillXpByKind(level: int)
    ensures KillXp(Peace, level) == 2 * (level * level)
    ensures KillXp(Agro, level) == 2 * KillXp(Peace, level) && KillXp(Boss, level) == 10 * KillXp(Peace, level)
  {
  }

  /** With this kill the tenth aggressive NPC is dead. */
  predicate TenthAgro(s: Sheet, kind: Kind)
    requires SheetOk(s)
  {
    kind == Agro && s.kills[0] >= 9
  }

  predicate ThirdBoss(s: Sheet, kind: Kind)
    requires SheetOk(s)
  {
    kind == Boss && s.kills[1] >= 2
  }

  /**
   A kill by its numbers: the tenth aggressive NPC pays 500 points more and wins an attack boost, the third
   boss 3000 and a defence boost, and then the count begins anew; and every kill heals the killer.
   Together with `NormalUnique` and `KillXpByKind` this determines the killer's sheet.
   */
  lemma KillByNumbers(s: Sheet, kind: Kind, level: int)
    requires SheetOk(s)
    ensures var t := Kill(s, kind, level);
      && SheetOk(t) && t.hp == t.maxHp == 90 + 10 * t.rank.level
      && Potential(t.rank) == Potential(s.rank) + KillXp(kind, level) +
                              (if TenthAgro(s, kind) then 500 else if ThirdBoss(s, kind) then 3000 else 0)
      && t.kills[0] == (if TenthAgro(s, kind) then 0 else if kind == Agro then s.kills[0] + 1 else s.kills[0])
      && t.kills[1] == (if ThirdBoss(s, kind) then 0 else if kind == Boss then s.kills[1] + 1 else s.kills[1])
    ensures forall slot: nat :: slot < ITEM_SLOT_COUNT ==>
              var prize := (TenthAgro(s, kind) && slot == 3) || (ThirdBoss(s, kind) && slot == 4);
              Kill(s, kind, level).inventory[slot] == s.inventory[slot] + (if prize then 1 else 0)
  {
    SheetsStayNormal(s, kind, level);
    KillRefills(s, kind, level);
    KillShape(s, kind, level, 0, 0);
    KillShape(s, kind, level, 1, 0);
    forall slot: nat | slot < ITEM_SLOT_COUNT
      ensures Kill(s, kind, level).inventory[slot] == s.inventory[slot] + (if Wins(s, kind, slot) then 1 else 0)
    {
      KillShape(s, kind, level, 0, slot);
    }
  }

  lemma KillRefills(s: Sheet, kind: Kind, level: int)
    requires SheetOk(s)
    ensures SheetOk(Kill(s, kind, level)) && Kill(s, kind, level).hp == Kill(s, kind, level).maxHp
  {
    KillXpPositive(kind, level);
    AwardKeeps(s, KillXp(kind, level));
    var t := Award(s, KillXp(kind, level));
    match QuestOf(kind) {
      case NoQuest =>
      case Quest(q) => AwardKeeps(t.(kills := t.kills[q := 0]), QUEST_REWARD_XP[q]);
    }
  }

  /** Each level needs twice the experience of the one before, beginning with a hundred, and brings ten hit points. */
  lemma LevelsByNumbers(level: int)
    requires level >= 1
    ensures Threshold(1) == 100 && Threshold(level + 1) == 2 * Threshold(level)
    ensures MaxHp(1) == 100 && MaxHp(level + 1) == MaxHp(level) + 10
  {
    assert Pow2(0) == 1;
  }

  /** Death costs half the experience, rounded up, and nothing else; hit points are full again. */
  lemma DeathCosts(s: Sheet)
    requires SheetOk(s)
    ensures var t := Death(s);
      && t.rank.level == s.rank.level && (s.rank.xp == 2 * t.rank.xp || s.rank.xp == 2 * t.rank.xp + 1)
      && t.hp == t.maxHp == s.maxHp && t.kills == s.kills && t.inventory == s.inventory
  {
  }

  /** A regeneration tick brings ten hit points at level one, one more for each further level, up to the maximum. */
  lemma RegeneratedByNumbers(s: Sheet)
    requires SheetOk(s) && s.hp <= s.maxHp
    ensures var healed := s.hp + 9 + s.rank.level;
      Regenerated(s) == s.(hp := if healed < 90 + 10 * s.rank.level then healed else 90 + 10 * s.rank.level)
  {
  }

  lemma QuestKillShape(s: Sheet, kind: Kind)
    requires SheetOk(s)
    ensures SheetOk(QuestKill(s, kind))
  {
    match QuestOf(kind) {
      case NoQuest =>
      case Quest(q) => AwardKeeps(s.(kills := s.kills[q := 0]), QUEST_REWARD_XP[q]);
    }
  }

  // ---- a whole session: kills, deaths, finds and uses ----

  /** Potions only help the wounded; the three boosts always do. */
  predicate Usable(s: Sheet, itemType: int) {
    && 1 <= itemType <= ITEM_SLOT_COUNT && |s.inventory| == ITEM_SLOT_COUNT && s.inventory[itemType - 1] > 0
    && (itemType <= 3 ==> s.hp < s.maxHp)
  }

  /** C2S_USE_ITEM, as far as hit points and inventory are concerned */
  function UsedItem(s: Sheet, itemType: int): Sheet {
    if !Usable(s, itemType) then s
    else
      var healed := match itemType
        case 1 => s.hp + HP_POTION_RESTORE
        case 2 => s.hp + HP_HI_POTION_RESTORE
        case 3 => s.maxHp
        case _ => s.hp;
      s.(hp := if itemType <= 3 && healed > s.maxHp then s.maxHp else healed,
         inventory := s.inventory[itemType - 1 := s.inventory[itemType - 1] - 1])
  }

  datatype Act = Killed(kind: Kind, level: int) | Died | Used(itemType: int) | Found(slot: nat)

  /** Only the first three item types lie about in the world. */
  predicate Possible(acts: seq<Act>) {
    forall i :: 0 <= i < |acts| && acts[i].Found? ==> acts[i].slot < 3
  }

  function Acted(s: Sheet, act: Act): (t: Sheet)
    requires SheetOk(s) && (act.Found? ==> act.slot < 3)
    ensures SheetOk(t)
  {
    match act
    case Killed(kind, level) => Kill(s, kind, level)
    case Died => (HalvingKeepsNormal(s.rank); Death(s))
    case Used(itemType) => UsedItem(s, itemType)
    case Found(slot) => s.(inventory := s.inventory[slot := s.inventory[slot] + 1])
  }

  function Story(s: Sheet, acts: seq<Act>): (t: Sheet)
    requires SheetOk(s) && Possible(acts)
    ensures SheetOk(t)
  {
    if acts == [] then s else Acted(Story(s, acts[..|acts| - 1]), acts[|acts| - 1])
  }

  lemma StoryOneMore(s: Sheet, acts: seq<Act>, kind: Kind, level: int)
    requires SheetOk(s) && Possible(acts)
    ensures Possible(acts + [Killed(kind, level)])
    ensures Story(s, acts + [Killed(kind, level)]) == Kill(Story(s, acts), kind, level)
  {
    assert (acts + [Killed(kind, level)])[..|acts|] == acts;
  }

  /** With these counts a kill of this kind completes quest `q`. */
  predicate Finishes(kills: seq<int>, kind: Kind, q: nat)
    requires |kills| == QUEST_COUNT
  {
    QuestOf(kind) == Quest(q) && q < QUEST_COUNT && kills[q] + 1 >= QUEST_TARGETS[q]
  }

  /** And it wins an item for this slot. */
  predicate WinsItem(kills: seq<int>, kind: Kind, slot: nat)
    requires |kills| == QUEST_COUNT
  {
    (slot == QUEST_REWARD_SLOT[0] && Finishes(kills, kind, 0)) ||
    (slot == QUEST_REWARD_SLOT[1] && Finishes(kills, kind, 1))
  }

  predicate Completes(s: Sheet, kind: Kind, q: nat)
    requires SheetOk(s)
  {
    Finishes(s.kills, kind, q)
  }

  predicate Wins(s: Sheet, kind: Kind, slot: nat)
    requires SheetOk(s)
  {
    WinsItem(s.kills, kind, slot)
  }

  /** The counts after a kill. */
  function Tallied(kills: seq<int>, kind: Kind): (k: seq<int>)
    requires |kills| == QUEST_COUNT
    ensures |k| == QUEST_COUNT
  {
    match QuestOf(kind)
    case NoQuest => kills
    case Quest(q) => if Finishes(kills, kind, q) then kills[q := 0] else kills[q := kills[q] + 1]
  }

  lemma KillShape(s: Sheet, kind: Kind, level: int, q: nat, slot: nat)
    requires SheetOk(s) && q < QUEST_COUNT && slot < ITEM_SLOT_COUNT
    ensures Kill(s, kind, level).kills == Tallied(s.kills, kind)
    ensures Kill(s, kind, level).kills[q] ==
            if Completes(s, kind, q) then 0 else if QuestOf(kind) == Quest(q) then s.kills[q] + 1 else s.kills[q]
    ensures Kill(s, kind, level).inventory[slot] ==
            s.inventory[slot] + (if Wins(s, kind, slot) then 1 else 0)
  {
    KillXpPositive(kind, level);
    AwardKeeps(s, KillXp(kind, level));
    var t := Award(s, KillXp(kind, level));
    match QuestOf(kind) {
      case NoQuest =>
      case Quest(r) => assert Completes(s, kind, r) <==> s.kills[r] + 1 >= QUEST_TARGETS[r];
    }
  }

  // How often something happened, counted along the story.

  function Qualifying(acts: seq<Act>, q: nat): nat {
    if acts == [] then 0
    else
      var act := acts[|acts| - 1];
      Qualifying(acts[..|acts| - 1], q) + (if act.Killed? && QuestOf(act.kind) == Quest(q) then 1 else 0)
  }

  function Completions(s: Sheet, acts: seq<Act>, q: nat): nat
    requires SheetOk(s) && Possible(acts)
  {
    if acts == [] then 0
    else
      var before, act := acts[..|acts| - 1], acts[|acts| - 1];
      Completions(s, before, q) + (if act.Killed? && Completes(Story(s, before), act.kind, q) then 1 else 0)
  }

  function Uses(s: Sheet, acts: seq<Act>, slot: nat): nat
    requires SheetOk(s) && Possible(acts)
  {
    if acts == [] then 0
    else
      var before, act := acts[..|acts| - 1], acts[|acts| - 1];
      Uses(s, before, slot) + (if act == Used(slot + 1) && Usable(Story(s, before), slot + 1) then 1 else 0)
  }

  function Finds(acts: seq<Act>, slot: nat): nat {
    if acts == [] then 0
    else Finds(acts[..|acts| - 1], slot) + (if acts[|acts| - 1] == Found(slot) then 1 else 0)
  }

  /** Completions of the quests that reward this slot. */
  function Rewards(s: Sheet, acts: seq<Act>, slot: nat): nat
    requires SheetOk(s) && Possible(acts)
  {
    (if slot == QUEST_REWARD_SLOT[0] then Completions(s, acts, 0) else 0) +
    (if slot == QUEST_REWARD_SLOT[1] then Completions(s, acts, 1) else 0)
  }

  /** Qualifying kills plus the count loaded at login are the target times the completions plus the current count. */
  ghost predicate KillsConserved(s: Sheet, acts: seq<Act>, q: nat)
    requires SheetOk(s) && Possible(acts) && q < QUEST_COUNT
  {
    Qualifying(acts, q) + s.kills[q] == QUEST_TARGETS[q] * Completions(s, acts, q) + Story(s, acts).kills[q]
  }

  lemma OneRoundMore(target: int, rounds: int)
    ensures target * (rounds + 1) == target * rounds + target
  {
  }

  lemma ActCounts(s: Sheet, act: Act, q: nat)
    requires SheetOk(s) && (act.Found? ==> act.slot < 3) && q < QUEST_COUNT
    ensures Acted(s, act).kills[q] ==
            if !act.Killed? then s.kills[q] else if Completes(s, act.kind, q) then 0
            else if QuestOf(act.kind) == Quest(q) then s.kills[q] + 1 else s.kills[q]
  {
    if act.Killed? {
      KillShape(s, act.kind, act.level, q, 0);
    }
  }

  lemma {:induction false} CountStaysBelowTarget(s: Sheet, acts: seq<Act>, q: nat)
    requires SheetOk(s) && Possible(acts) && q < QUEST_COUNT && s.kills[q] < QUEST_TARGETS[q]
    ensures Story(s, acts).kills[q] < QUEST_TARGETS[q] && KillsConserved(s, acts, q)
    ensures 0 <= s.kills[q] ==> 0 <= Story(s, acts).kills[q]
    decreases |acts|
  {
    if acts != [] {
      var before, act := acts[..|acts| - 1], acts[|acts| - 1];
      CountStaysBelowTarget(s, before, q);
      ActCounts(Story(s, before), act, q);
      OneRoundMore(QUEST_TARGETS[q], Completions(s, before, q));
      assert !act.Killed? ==> Completions(s, acts, q) == Completions(s, before, q);
    }
  }

  /** The experience of the kills themselves. */
  function XpOf(acts: seq<Act>): int {
    if acts == [] then 0
    else
      var act := acts[|acts| - 1];
      XpOf(acts[..|acts| - 1]) + (if act.Killed? then KillXp(act.kind, act.level) else 0)
  }

  /** A row of kills pays exactly their experience and the rewards of the quests they complete. */
  lemma {:induction false} KillsPay(s: Sheet, acts: seq<Act>)
    requires SheetOk(s) && Possible(acts) && forall i :: 0 <= i < |acts| ==> acts[i].Killed?
    ensures Potential(Story(s, acts).rank) ==
            Potential(s.rank) + XpOf(acts) +
            QUEST_REWARD_XP[0] * Completions(s, acts, 0) + QUEST_REWARD_XP[1] * Completions(s, acts, 1)
    decreases |acts|
  {
    if acts != [] {
      var before, act := acts[..|acts| - 1], acts[|acts| - 1];
      KillsPay(s, before);
      SheetsStayNormal(Story(s, before), act.kind, act.level);
    }
  }

  /** A loaded count at or above the target is forgotten by the next kill instead. */
  lemma OverfullCountIsLost(s: Sheet, q: nat)
    requires SheetOk(s) && q < QUEST_COUNT && s.kills[q] >= QUEST_TARGETS[q]
    ensures exists acts :: Possible(acts) && !KillsConserved(s, acts, q)
  {
    var kind := if q == 0 then Agro else Boss;
    var acts := [Killed(kind, 1)];
    assert acts[..0] == [];
    KillShape(s, kind, 1, q, 0);
    assert Story(s, []) == s && Story(s, acts) == Kill(s, kind, 1);
    assert Qualifying([], q) == 0 && Qualifying(acts, q) == 1;
    assert Completions(s, [], q) == 0 && Completions(s, acts, q) == 1;
  }

  /** Quest conservation holds over every story exactly when the loaded count was below the target. */
  lemma QuestKillsConserved(s: Sheet, q: nat)
    requires SheetOk(s) && q < QUEST_COUNT
    ensures (forall acts | Possible(acts) :: KillsConserved(s, acts, q)) <==> s.kills[q] < QUEST_TARGETS[q]
  {
    if s.kills[q] < QUEST_TARGETS[q] {
      forall acts | Possible(acts)
        ensures KillsConserved(s, acts, q)
      {
        CountStaysBelowTarget(s, acts, q);
      }
    } else {
      OverfullCountIsLost(s, q);
    }
  }

  lemma ActMovesItems(s: Sheet, act: Act, slot: nat)
    requires SheetOk(s) && (act.Found? ==> act.slot < 3) && slot < ITEM_SLOT_COUNT
    ensures Acted(s, act).inventory[slot] + (if act == Used(slot + 1) && Usable(s, slot + 1) then 1 else 0) ==
            s.inventory[slot] + (if act == Found(slot) then 1 else 0) +
            (if act.Killed? && slot == QUEST_REWARD_SLOT[0] && Completes(s, act.kind, 0) then 1 else 0) +
            (if act.Killed? && slot == QUEST_REWARD_SLOT[1] && Completes(s, act.kind, 1) then 1 else 0)
  {
    if act.Killed? {
      KillShape(s, act.kind, act.level, 0, slot);
    }
  }

  /** Over every story and for every slot: what was held, found and won, less what was used, is held now. */
  lemma {:induction false} HoldingsConserved(s: Sheet, acts: seq<Act>, slot: nat)
    requires SheetOk(s) && Possible(acts) && slot < ITEM_SLOT_COUNT
    ensures Story(s, acts).inventory[slot] + Uses(s, acts, slot) ==
            s.inventory[slot] + Finds(acts, slot) + Rewards(s, acts, slot)
    decreases |acts|
  {
    if acts != [] {
      var before, act := acts[..|acts| - 1], acts[|acts| - 1];
      HoldingsConserved(s, before, slot);
      ActMovesItems(Story(s, before), act, slot);
    }
  }

  /** Using an item never hurts, never heals beyond the maximum, and costs exactly the item used. */
  lemma UsingHelps(s: Sheet, itemType: int)
    requires SheetOk(s) && s.hp <= s.maxHp && Usable(s, itemType)
    ensures UsedItem(s, itemType).hp == match itemType
                                        case 1 => if s.hp + 30 < s.maxHp then s.hp + 30 else s.maxHp
                                        case 2 => if s.hp + 60 < s.maxHp then s.hp + 60 else s.maxHp
                                        case 3 => s.maxHp
                                        case _ => s.hp
    ensures var t := UsedItem(s, itemType);
      && s.hp <= t.hp <= t.maxHp == s.maxHp && (itemType <= 3 ==> s.hp < t.hp) && t.rank == s.rank && t.kills == s.kills
      && forall slot :: 0 <= slot < ITEM_SLOT_COUNT ==>
           t.inventory[slot] == s.inventory[slot] - (if slot == itemType - 1 then 1 else 0)
  {
  }

  // ---- the session's fields ----

  class PlayerProgress {
    var level: int
    var xp: int
    var hp: int
    var maxHp: int
    var kills: seq<int>
    var inventory: seq<int>
    /** When the attack, defence and speed boosts expire. */
    var atkBoostUntil: int
    var defBoostUntil: int
    var spdBoostUntil: int

    ghost function View(): Sheet
      reads this
    {
      Sheet(Rank(level, xp), hp, maxHp, kills, inventory)
    }

    /** The level-up loop shared by all kills and quest rewards. */
    method GainXp(gain: nat)
      requires level >= 1 && xp >= 0
      modifies this`level, this`xp, this`hp, this`maxHp
      ensures View() == Award(old(View()), gain)
      ensures Normal(View().rank) && Potential(View().rank) == old(Potential(View().rank)) + gain
    {
      SettleConserves(Rank(level, xp + gain));
      xp := xp + gain;
      ghost var goal := Settle(Rank(level, xp));
      while xp >= Threshold(level)
        invariant level >= 1 && xp >= 0 && Settle(Rank(level, xp)) == goal
        decreases xp
      {
        Pow2Positive(level - 1);
        xp := xp - Threshold(level);
        level := level + 1;
      }
      maxHp := MaxHp(level);
      hp := maxHp;
    }

    method ProcessQuestKill(kind: Kind)
      requires SheetOk(View())
      modifies this
      ensures View() == QuestKill(old(View()), kind)
    {
      var qid := -1;
      if kind == Agro {
        qid := 0;
      } else if kind == Boss {
        qid := 1;
      }
      if qid < 0 {
        return;
      }
      kills := kills[qid := kills[qid] + 1];
      if kills[qid] >= QUEST_TARGETS[qid] {
        kills := kills[qid := 0];
        GainXp(QUEST_REWARD_XP[qid]);
        var slot := QUEST_REWARD_SLOT[qid];
        inventory := inventory[slot := inventory[slot] + 1];
      }
    }

    method OnKill(kind: Kind, npcLevel: int)
      requires SheetOk(View())
      modifies this
      ensures View() == Kill(old(View()), kind, npcLevel) && SheetOk(View())
    {
      KillXpPositive(kind, npcLevel);
      SheetsStayNormal(View(), kind, npcLevel);
      AwardKeeps(View(), KillXp(kind, npcLevel));
      var gain := npcLevel * npcLevel * 2;
      if kind == Boss {
        gain := gain * 10;
      } else if kind == Agro {
        gain := gain * 2;
      }
      GainXp(gain);
      ProcessQuestKill(kind);
    }

    /** C2S_USE_ITEM: potions heal up to the maximum and are kept for later at full health; boosts last 30 seconds. */
    method UseItem(itemType: int, now: int) returns (used: bool)
      requires SheetOk(View())
      modifies this
      ensures used == Usable(old(View()), itemType) && View() == UsedItem(old(View()), itemType) && SheetOk(View())
      ensures atkBoostUntil == if used && itemType == 4 then now + 30000 else old(atkBoostUntil)
      ensures defBoostUntil == if used && itemType == 5 then now + 30000 else old(defBoostUntil)
      ensures spdBoostUntil == if used && itemType == 6 then now + 30000 else old(spdBoostUntil)
    {
      used := false;
      var idx := itemType - 1;
      if idx < 0 || idx >= ITEM_SLOT_COUNT || inventory[idx] <= 0 {
        return;
      }
      if itemType == 1 && hp < maxHp {
        hp := if hp + HP_POTION_RESTORE < maxHp then hp + HP_POTION_RESTORE else maxHp;
        used := true;
      } else if itemType == 2 && hp < maxHp {
        hp := if hp + HP_HI_POTION_RESTORE < maxHp then hp + HP_HI_POTION_RESTORE else maxHp;
        used := true;
      } else if itemType == 3 && hp < maxHp {
        hp := maxHp;
        used := true;
      } else if itemType == 4 {
        atkBoostUntil, used := now + BOOST_TIME, true;
      } else if itemType == 5 {
        defBoostUntil, used := now + BOOST_TIME, true;
      } else if itemType == 6 {
        spdBoostUntil, used := now + BOOST_TIME, true;
      }
      if used {
        inventory := inventory[idx := inventory[idx] - 1];
      }
    }

    method OnDeath()
      requires SheetOk(View())
      modifies this`xp, this`hp
      ensures View() == Death(old(View())) && SheetOk(View())
    {
      HalvingKeepsNormal(View().rank);
      xp := xp / 2;
      hp := maxHp;
    }
  }
}
