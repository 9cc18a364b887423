/**
 What an attack does besides showing it to the players: hit points and states, the NPCs' targets, the
 attacker's experience and quests, and the items that the fallen leave behind.
 */
module Combat {
  import opened Board
  import opened Client
  import opened Progression
  import opened Sectors
  import opened Scene
  import Items

  /** Everything of this at one moment. */
  datatype Field = Field(objs: Objs, target: map<int, int>, sheets: map<int, NormalSheet>, items: seq<Items.GroundItem>)

  // ---- one hit ----

  /** `p` hits NPC `n`: a survivor turns on `p`, a fallen NPC rewards `p` and may leave an item. */
  ghost predicate Felt(f: Field, f': Field, p: int, n: int, dmg: nat)
    requires n in f.objs && f.objs[n].Npc?
  {
    var o := Struck(f.objs[n], dmg);
    && f'.objs == f.objs[n := o]
    && if o.hp > 0 then f'.target == f.target[n := p] && f'.sheets == f.sheets && f'.items == f.items
       else
         && f'.target == f.target[n := NOBODY]
         && p in f.sheets && f'.sheets == f.sheets[p := Kill(f.sheets[p], o.kind, o.level)]
         && Items.MayLeave(f.items, o.at, o.kind, f'.items)
  }

  lemma Survived(f: Field, f': Field, p: int, n: int, dmg: nat)
    requires n in f.objs && f.objs[n].Npc? && f.objs[n].hp - dmg > 0
    requires f'.objs == f.objs[n := InMode(WithHp(f.objs[n], f.objs[n].hp - dmg), Chase)]
    requires f'.target == f.target[n := p] && f'.sheets == f.sheets && f'.items == f.items
    ensures Felt(f, f', p, n, dmg)
  {
  }

  lemma Perished(f: Field, f': Field, p: int, n: int, dmg: nat)
    requires n in f.objs && f.objs[n].Npc? && f.objs[n].hp - dmg <= 0 && p in f.sheets
    requires f'.objs == f.objs[n := WithHp(f.objs[n], f.objs[n].hp - dmg)] && f'.target == f.target[n := NOBODY]
    requires f'.sheets == f.sheets[p := Kill(f.sheets[p], f.objs[n].kind, f.objs[n].level)]
    requires Items.MayLeave(f.items, f.objs[n].at, f.objs[n].kind, f'.items)
    ensures Felt(f, f', p, n, dmg)
  {
  }

  /** One round of an attack: a victim feels the attacker's blow, and nothing else changes anything. */
  ghost predicate Round(f: Field, f': Field, p: int, skill: bool, boosted: bool, o: int) {
    p in f.sheets &&
    if Victim(f.objs, p, skill, o) then Felt(f, f', p, o, Blow(skill, f.sheets[p].rank.level, boosted)) else f' == f
  }

  lemma RoundRaisesLevel(f: Field, f': Field, p: int, skill: bool, boosted: bool, o: int)
    requires Round(f, f', p, skill, boosted, o)
    ensures p in f'.sheets && f'.sheets[p].rank.level >= f.sheets[p].rank.level >= 1
  {
    if Victim(f.objs, p, skill, o) {
      var s := Struck(f.objs[o], Blow(skill, f.sheets[p].rank.level, boosted));
      KillRaisesLevel(f.sheets[p], s.kind, s.level);
    }
  }

  // ---- a whole attack ----

  ghost predicate FellIn(f0: Field, f: Field, a: Onslaught, done: set<int>, o: int) {
    o in done && Victim(f0.objs, a.p, a.skill, o) && o in f.objs && f.objs[o].Npc? && f.objs[o].hp <= 0
  }

  ghost predicate AllNpcs(objs: Objs, ids: seq<int>) {
    forall o :: o in ids ==> o in objs && objs[o].Npc?
  }

  /** The kills behind a list of fallen NPCs, in order. */
  ghost function KillsOf(objs: Objs, fallen: seq<int>): (acts: seq<Act>)
    requires AllNpcs(objs, fallen)
    ensures |acts| == |fallen| && Possible(acts) && forall i :: 0 <= i < |acts| ==> acts[i].Killed?
  {
    if fallen == [] then []
    else
      var o := fallen[|fallen| - 1];
      assert o in fallen;
      KillsOf(objs, fallen[..|fallen| - 1]) + [Killed(objs[o].kind, objs[o].level)]
  }

  /** Each of the fallen may have left an item where it stood. */
  ghost predicate Strewn(items0: seq<Items.GroundItem>, objs: Objs, fallen: seq<int>, items: seq<Items.GroundItem>)
    requires AllNpcs(objs, fallen)
  {
    if fallen == [] then items == items0
    else
      var o := fallen[|fallen| - 1];
      assert o in fallen;
      exists mid ::
        Strewn(items0, objs, fallen[..|fallen| - 1], mid) && Items.MayLeave(mid, objs[o].at, objs[o].kind, items)
  }

  /** Whom the NPC is after: a surviving victim the attacker, a fallen one nobody, any other whom it was. */
  ghost predicate Aimed(f0: Field, f: Field, a: Onslaught, done: set<int>, o: int) {
    if o in done && Victim(f0.objs, a.p, a.skill, o) then
      o in f.target && f.target[o] == if FellIn(f0, f, a, done, o) then NOBODY else a.p
    else
      (o in f.target <==> o in f0.target) && (o in f.target && o in f0.target ==> f.target[o] == f0.target[o])
  }

  /**
   The attack has gone through `done`: exactly the victims among them have been hit; those in `fallen`
   have fallen, and the attacker's sheet is the story of killing just them, in this order.
   */
  ghost predicate Battle(f0: Field, f: Field, a: Onslaught, done: set<int>, fallen: seq<int>) {
    && a.p in f0.sheets && a.p in f.sheets
    && HitSoFar(f0.objs, f.objs, a, done, f.sheets[a.p].rank.level)
    && NoDuplicates(fallen) && AllNpcs(f0.objs, fallen)
    && (forall o {:trigger FellIn(f0, f, a, done, o)} :: o in fallen <==> FellIn(f0, f, a, done, o))
    && f.sheets == f0.sheets[a.p := Story(f0.sheets[a.p], KillsOf(f0.objs, fallen))]
    && (forall o {:trigger Aimed(f0, f, a, done, o)} :: Aimed(f0, f, a, done, o))
    && Strewn(f0.items, f0.objs, fallen, f.items)
  }

  lemma BattleBegins(f: Field, a: Onslaught)
    requires a.p in f.sheets && a.level == f.sheets[a.p].rank.level
    ensures Battle(f, f, a, {}, [])
  {
    assert KillsOf(f.objs, []) == [] && Story(f.sheets[a.p], []) == f.sheets[a.p];
    Rewrite(f.sheets, a.p);
    forall o {:trigger Fate(f.objs, f.objs, a, {}, a.level, o)}
      ensures Fate(f.objs, f.objs, a, {}, a.level, o)
    {
    }
  }

  /** Nobody has been touched before its turn. */
  lemma Untouched(f0: Field, f: Field, a: Onslaught, done: set<int>, fallen: seq<int>, o: int)
    requires Battle(f0, f, a, done, fallen) && a.p in f0.objs && IsPc(a.p) && o !in done
    ensures Victim(f.objs, a.p, a.skill, o) <==> Victim(f0.objs, a.p, a.skill, o)
    ensures o in f0.objs && o in f.objs ==> f.objs[o] == f0.objs[o]
    ensures o !in fallen
  {
    var now := f.sheets[a.p].rank.level;
    assert Fate(f0.objs, f.objs, a, done, now, o) && Fate(f0.objs, f.objs, a, done, now, a.p);
    assert !FellIn(f0, f, a, done, o);
  }

  lemma BattleRound(f0: Field, f: Field, f': Field, a: Onslaught, done: set<int>, fallen: seq<int>, o: int)
      returns (fallen': seq<int>)
    requires Battle(f0, f, a, done, fallen) && Round(f, f', a.p, a.skill, o in a.boosts, o) && o !in done
    requires a.p in f0.objs && IsPc(a.p) && 1 <= a.level <= f.sheets[a.p].rank.level
    ensures Battle(f0, f', a, done + {o}, fallen') && a.level <= f'.sheets[a.p].rank.level
    ensures Watching(f.objs, a.p) ==> Watching(f'.objs, a.p)
  {
    Untouched(f0, f, a, done, fallen, o);
    RoundRaisesLevel(f, f', a.p, a.skill, o in a.boosts, o);
    HitOneMore(f0.objs, f.objs, a, done, f.sheets[a.p].rank.level, f'.objs, o, f'.sheets[a.p].rank.level);
    fallen' := if FellIn(f0, f', a, done + {o}, o) then fallen + [o] else fallen;
    FallenGrow(f0, f, f', a, done, fallen, o, fallen');
    TargetsKept(f0, f, f', a, done, fallen, o);
    if FellIn(f0, f', a, done + {o}, o) {
      OneMoreKill(f0, f.sheets, f'.sheets, a.p, fallen, o);
      OneMoreDrop(f0.items, f0.objs, fallen, f.items, o, f'.items);
    }
  }

  lemma FallenGrow(f0: Field, f: Field, f': Field, a: Onslaught, done: set<int>, fallen: seq<int>, o: int,
                   fallen': seq<int>)
    requires Battle(f0, f, a, done, fallen) && Round(f, f', a.p, a.skill, o in a.boosts, o) && o !in done
    requires o !in fallen && fallen' == if FellIn(f0, f', a, done + {o}, o) then fallen + [o] else fallen
    ensures NoDuplicates(fallen') && AllNpcs(f0.objs, fallen')
    ensures forall x {:trigger FellIn(f0, f', a, done + {o}, x)} :: x in fallen' <==> FellIn(f0, f', a, done + {o}, x)
  {
    NoDuplicatesJoin(fallen, [o]);
    forall x {:trigger FellIn(f0, f', a, done + {o}, x)}
      ensures x in fallen' <==> FellIn(f0, f', a, done + {o}, x)
    {
      assert x in fallen <==> FellIn(f0, f, a, done, x);
    }
  }

  lemma TargetsKept(f0: Field, f: Field, f': Field, a: Onslaught, done: set<int>, fallen: seq<int>, o: int)
    requires Battle(f0, f, a, done, fallen) && Round(f, f', a.p, a.skill, o in a.boosts, o) && o !in done
    requires Victim(f.objs, a.p, a.skill, o) <==> Victim(f0.objs, a.p, a.skill, o)
    ensures forall x {:trigger Aimed(f0, f', a, done + {o}, x)} :: Aimed(f0, f', a, done + {o}, x)
  {
    forall x {:trigger Aimed(f0, f', a, done + {o}, x)}
      ensures Aimed(f0, f', a, done + {o}, x)
    {
      assert Aimed(f0, f, a, done, x);
    }
  }

  lemma OneMoreKill(f0: Field, sheets: map<int, NormalSheet>, sheets': map<int, NormalSheet>, p: int,
                    fallen: seq<int>, o: int)
    requires AllNpcs(f0.objs, fallen) && o in f0.objs && f0.objs[o].Npc? && p in f0.sheets && p in sheets
    requires sheets == f0.sheets[p := Story(f0.sheets[p], KillsOf(f0.objs, fallen))]
    requires sheets' == sheets[p := Kill(sheets[p], f0.objs[o].kind, f0.objs[o].level)]
    ensures AllNpcs(f0.objs, fallen + [o])
    ensures sheets' == f0.sheets[p := Story(f0.sheets[p], KillsOf(f0.objs, fallen + [o]))]
  {
    KillsOneMore(f0.objs, fallen, o);
    var s, acts := f0.sheets[p], KillsOf(f0.objs, fallen);
    StoryOneMore(s, acts, f0.objs[o].kind, f0.objs[o].level);
    Overwrite(f0.sheets, p, Story(s, acts), sheets'[p]);
  }

  lemma KillsOneMore(objs: Objs, fallen: seq<int>, o: int)
    requires AllNpcs(objs, fallen) && o in objs && objs[o].Npc?
    ensures AllNpcs(objs, fallen + [o])
    ensures KillsOf(objs, fallen + [o]) == KillsOf(objs, fallen) + [Killed(objs[o].kind, objs[o].level)]
  {
    assert (fallen + [o])[..|fallen|] == fallen;
  }

  lemma OneMoreDrop(items0: seq<Items.GroundItem>, objs: Objs, fallen: seq<int>, items: seq<Items.GroundItem>, o: int,
                    items': seq<Items.GroundItem>)
    requires AllNpcs(objs, fallen) && o in objs && objs[o].Npc? && Strewn(items0, objs, fallen, items)
    requires Items.MayLeave(items, objs[o].at, objs[o].kind, items')
    ensures AllNpcs(objs, fallen + [o]) && Strewn(items0, objs, fallen + [o], items')
  {
    var more := fallen + [o];
    assert more[..|more| - 1] == fallen && more[|more| - 1] == o;
  }

  /** The attack went through everything in `seen`, and all victims were in there. */
  lemma BattleOver(f0: Field, f: Field, a: Onslaught, seen: set<int>, fallen: seq<int>)
    requires Battle(f0, f, a, seen, fallen) && forall o :: Victim(f0.objs, a.p, a.skill, o) ==> o in seen
    ensures Battle(f0, f, a, f0.objs.Keys, fallen)
  {
    NobodyElseHit(f0.objs, f.objs, a, seen, f.sheets[a.p].rank.level);
    forall o {:trigger FellIn(f0, f, a, f0.objs.Keys, o)}
      ensures o in fallen <==> FellIn(f0, f, a, f0.objs.Keys, o)
    {
      assert o in fallen <==> FellIn(f0, f, a, seen, o);
    }
    forall o {:trigger Aimed(f0, f, a, f0.objs.Keys, o)}
      ensures Aimed(f0, f, a, f0.objs.Keys, o)
    {
      assert Aimed(f0, f, a, seen, o);
      assert FellIn(f0, f, a, f0.objs.Keys, o) <==> FellIn(f0, f, a, seen, o);
    }
  }

  /** Hit points lost to an attacker of a level between `lo` and `hi`: 13 and two for each level, or 27 and three. */
  ghost predicate Lost(before: int, after: int, skill: bool, lo: int, hi: int, boosted: bool) {
    exists lv: int ::
      lo <= lv <= hi && before - after == (if boosted then 2 else 1) * (if skill then 27 + 3 * lv else 13 + 2 * lv)
  }

  /** Every victim has lost its hit points and, if it lives, gives chase; nothing else has changed. */
  ghost predicate Wounded(objs0: Objs, objs: Objs, a: Onslaught, hi: int, o: int) {
    o in objs0 ==>
      && o in objs
      && if Victim(objs0, a.p, a.skill, o) then
           && objs[o].Npc? && Lost(objs0[o].hp, objs[o].hp, a.skill, a.level, hi, o in a.boosts)
           && objs[o] == Npc(objs0[o].at, objs0[o].dir, objs[o].hp, objs0[o].maxHp, objs0[o].kind,
                             if objs[o].hp > 0 then Chase else objs0[o].mode, objs0[o].origin, objs0[o].level)
         else objs[o] == objs0[o]
  }

  ghost predicate AllWounded(objs0: Objs, objs: Objs, a: Onslaught, hi: int) {
    forall o {:trigger Wounded(objs0, objs, a, hi, o)} :: Wounded(objs0, objs, a, hi, o)
  }

  lemma BlowIsLost(skill: bool, level: int, boosted: bool)
    requires level >= 1
    ensures Blow(skill, level, boosted) ==
            (if boosted then 2 else 1) * (if skill then 27 + 3 * level else 13 + 2 * level)
  {
  }

  lemma BattleWounds(f0: Field, f: Field, a: Onslaught, fallen: seq<int>)
    requires Battle(f0, f, a, f0.objs.Keys, fallen)
    ensures AllWounded(f0.objs, f.objs, a, f.sheets[a.p].rank.level)
  {
    var hi := f.sheets[a.p].rank.level;
    forall o {:trigger Wounded(f0.objs, f.objs, a, hi, o)}
      ensures Wounded(f0.objs, f.objs, a, hi, o)
    {
      assert Fate(f0.objs, f.objs, a, f0.objs.Keys, hi, o);
      if o in f0.objs && Victim(f0.objs, a.p, a.skill, o) {
        var lv :| a.level <= lv <= hi && f.objs[o] == Struck(f0.objs[o], Blow(a.skill, lv, o in a.boosts));
        BlowIsLost(a.skill, lv, o in a.boosts);
      }
    }
  }

  /** A fresh peaceful NPC keeps 15 of its 30 hit points after one swing of a player on level one, none after two. */
  lemma TwoSwings(f0: Field, f1: Field, f2: Field, p: int, first: seq<int>, second: seq<int>, o: int)
    requires Battle(f0, f1, Onslaught(p, false, 1, {}), f0.objs.Keys, first) && f1.sheets[p].rank.level == 1
    requires Battle(f1, f2, Onslaught(p, false, 1, {}), f1.objs.Keys, second)
    requires Victim(f0.objs, p, false, o) && f0.objs[o].hp == 30 && IsPc(p)
    ensures o in f1.objs && f1.objs[o].Npc? && f1.objs[o].hp == 15 && f1.objs[o].mode == Chase && o !in first
    ensures o in f2.objs && f2.objs[o].Npc? && f2.objs[o].hp <= 0 && o in second
  {
    var a := Onslaught(p, false, 1, {});
    BattleWounds(f0, f1, a, first);
    BattleWounds(f1, f2, a, second);
    assert Wounded(f0.objs, f1.objs, a, 1, o) && Wounded(f0.objs, f1.objs, a, 1, p);
    assert Wounded(f1.objs, f2.objs, a, f2.sheets[p].rank.level, o);
    assert FellIn(f0, f1, a, f0.objs.Keys, o) <==> o in first;
    assert FellIn(f1, f2, a, f1.objs.Keys, o) <==> o in second;
  }

  /** The attacker has gained exactly the experience of the fallen and of the quests they completed; nobody else has. */
  lemma BattlePays(f0: Field, f: Field, a: Onslaught, fallen: seq<int>)
    requires Battle(f0, f, a, f0.objs.Keys, fallen)
    ensures var s, acts := f0.sheets[a.p], KillsOf(f0.objs, fallen);
      Potential(f.sheets[a.p].rank) ==
      Potential(s.rank) + XpOf(acts) +
      QUEST_REWARD_XP[0] * Completions(s, acts, 0) + QUEST_REWARD_XP[1] * Completions(s, acts, 1)
    ensures forall q :: q != a.p ==> (q in f.sheets <==> q in f0.sheets) &&
                                     (q in f0.sheets && q in f.sheets ==> f.sheets[q] == f0.sheets[q])
  {
    KillsPay(f0.sheets[a.p], KillsOf(f0.objs, fallen));
  }
}
