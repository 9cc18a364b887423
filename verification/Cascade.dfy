/**
 Disconnection. Removing a session tells the players that saw it; a packet that cannot be sent
 disconnects its receiver in turn. Here: what such a cascade does to views and tables.
 */
module Cascade {
  import opened Client
  import opened Scene
  import opened Sectors

  /** View and table of one session; those in `gone` have cleared theirs. */
  ghost predicate Tidy(objs: Objs, n: Net, gone: set<int>, q: int)
    requires q in n.views && q in n.tables
  {
    && (q !in gone ==> n.tables[q].objs.Keys == n.views[q])
    && (!Watching(objs, q) ==> n.views[q] == {})
    && n.views[q] <= objs.Keys
  }

  ghost predicate Mutual(n: Net, q: int, r: int)
    requires q in n.views && r in n.views
  {
    r in n.views[q] <==> q in n.views[r]
  }

  /**
   What stays true while disconnects are nested: sessions in `gone` are on the call stack, logged out,
   with cleared views; everybody else's view and table agree, and visibility is mutual.
   */
  ghost predicate Orderly(objs: Objs, n: Net, gone: set<int>) {
    && Shaped(objs) && n.tables.Keys == n.views.Keys
    && (forall q :: q in n.views <==> q in objs && IsPc(q))
    && (forall q :: q in gone ==> q in n.views && !Watching(objs, q))
    && (forall q {:trigger Tidy(objs, n, gone, q)} :: q in n.views ==> Tidy(objs, n, gone, q))
    && (forall q, r {:trigger Mutual(n, q, r)} ::
          q in n.views && r in n.views && q !in gone && r !in gone ==> Mutual(n, q, r))
  }

  /** Session `q` has lost exactly the objects in `lost` from view and table. */
  ghost predicate Lost(n: Net, n': Net, q: int, lost: set<int>) {
    && q in n.views && q in n.tables && q in n'.views && q in n'.tables
    && n'.views[q] == n.views[q] - lost && n'.tables[q] == n.tables[q].(objs := n.tables[q].objs - lost)
  }

  lemma LostMore(n: Net, n1: Net, n2: Net, q: int, lost: set<int>, more: set<int>, all: set<int>)
    requires Lost(n, n1, q, lost) && Lost(n1, n2, q, more) && all == lost + more
    ensures Lost(n, n2, q, all)
  {
    assert n.views[q] - lost - more == n.views[q] - all;
    assert n.tables[q].objs - lost - more == n.tables[q].objs - all;
  }

  lemma LostNothing(n: Net, n': Net, q: int)
    requires Unchanged(n, n', q)
    ensures Lost(n, n', q, {})
  {
    assert n.tables[q].objs - {} == n.tables[q].objs;
  }

  /** The sessions `removed` have left; all others have lost exactly those from view and table. */
  ghost predicate Pruned(n: Net, n': Net, removed: set<int>, gone: set<int>) {
    && n'.tables.Keys == n'.views.Keys
    && (forall q :: q in n'.views <==> q in n.views && q !in removed)
    && forall q {:trigger Lost(n, n', q, removed)} :: q in n'.views && q !in gone ==> Lost(n, n', q, removed)
  }

  lemma OrderlyFromExact(objs: Objs, n: Net)
    requires Exact(objs, n)
    ensures Orderly(objs, n, {})
  {
    forall q, r {:trigger Mutual(n, q, r)} | q in n.views && r in n.views
      ensures Mutual(n, q, r)
    {
      PlayersSeeEachOther(objs, n, q, r);
    }
    forall q {:trigger Tidy(objs, n, {}, q)} | q in n.views
      ensures Tidy(objs, n, {}, q)
    {
      forall r | r in n.views[q]
        ensures r in objs
      {
        if r !in objs {
          NoDanglingIds(objs, n, q, r);
        }
      }
    }
  }

  /** When the cascade is over, whoever is left is exact again. */
  lemma ExactAfterPruning(objs: Objs, n: Net, objs': Objs, n': Net, removed: set<int>)
    requires Exact(objs, n) && Pruned(n, n', removed, {})
    requires forall o :: o in objs' <==> o in objs && o !in removed
    requires forall o :: o in objs' && o in objs ==> objs'[o] == objs[o]
    ensures Exact(objs', n')
    ensures forall q :: q in n'.views ==> q in n.views && n'.views[q] <= n.views[q]
  {
    forall q | q in n'.views
      ensures Lost(n, n', q, removed)
    {
      assert Lost(n, n', q, removed);
    }
    forall q, o {:trigger Good(objs', n', q, o)} | Watching(objs', q)
      ensures Good(objs', n', q, o)
    {
      assert Good(objs, n, q, o);
    }
    forall q {:trigger OwnPlace(objs', n', q)} | Watching(objs', q)
      ensures OwnPlace(objs', n', q)
    {
      assert OwnPlace(objs, n, q);
    }
  }

  // ---- one disconnect ----

  /** Step one: the session is logged out and its view cleared. */
  ghost function LoggedOff(objs: Objs, key: int): Objs
    requires key in objs
  {
    objs[key := Pc(objs[key].at, objs[key].dir, LoggedOut)]
  }

  ghost function Cleared(n: Net, key: int): Net {
    n.(views := n.views[key := {}])
  }

  /** What `q` has lost: the sessions in `removed`, and `key` too unless `q` is still to be told. */
  ghost predicate Informed(n0: Net, n: Net, key: int, removed: set<int>, todo: set<int>, q: int) {
    Lost(n0, n, q, if q in todo then removed else removed + {key})
  }

  /**
   In the loop of disconnect: `removed` have left in nested cascades, and those that are not in `todo`
   any more have lost `key` too.
   */
  ghost predicate Telling(n0: Net, n: Net, key: int, removed: set<int>, gone: set<int>, todo: set<int>) {
    && n.tables.Keys == n.views.Keys
    && (forall q :: q in n.views <==> q in n0.views && q !in removed)
    && key in n.views && n.views[key] == {}
    && forall q {:trigger Informed(n0, n, key, removed, todo, q)} ::
         q in n.views && q !in gone && q != key ==> Informed(n0, n, key, removed, todo, q)
  }

  lemma StartTelling(objs: Objs, n: Net, key: int, gone: set<int>)
    requires Orderly(objs, n, gone) && key in n.views && key !in gone && objs[key].Pc?
    ensures Telling(n, Cleared(n, key), key, {}, gone, n.views[key])
    ensures Orderly(LoggedOff(objs, key), Cleared(n, key), gone + {key})
  {
    var n' := Cleared(n, key);
    forall q {:trigger Informed(n, n', key, {}, n.views[key], q)} | q in n'.views && q !in gone && q != key
      ensures Informed(n, n', key, {}, n.views[key], q)
    {
      LostNothing(n, n', q);
      assert Mutual(n, key, q) && Tidy(objs, n, gone, q);
      if q !in n.views[key] {
        assert n.views[q] - {key} == n.views[q] && n.tables[q].objs - {key} == n.tables[q].objs;
        assert {} + {key} == {key};
      }
    }
    LoggedOffOrderly(objs, n, key, gone);
  }

  lemma LoggedOffOrderly(objs: Objs, n: Net, key: int, gone: set<int>)
    requires Orderly(objs, n, gone) && key in n.views && key !in gone && objs[key].Pc?
    ensures Orderly(LoggedOff(objs, key), Cleared(n, key), gone + {key})
  {
    var objs', n' := LoggedOff(objs, key), Cleared(n, key);
    forall q {:trigger Tidy(objs', n', gone + {key}, q)} | q in n'.views
      ensures Tidy(objs', n', gone + {key}, q)
    {
      assert Tidy(objs, n, gone, q);
    }
    forall q, r {:trigger Mutual(n', q, r)} |
      q in n'.views && r in n'.views && q !in gone + {key} && r !in gone + {key}
      ensures Mutual(n', q, r)
    {
      assert Mutual(n, q, r);
    }
  }

  /** One player is told. */
  lemma TellOne(objs: Objs, n0: Net, n: Net, key: int, removed: set<int>, gone: set<int>, todo: set<int>, q: int)
    requires Telling(n0, n, key, removed, gone, todo) && Orderly(objs, n, gone + {key}) && q in todo
    ensures q in n.views ==> Telling(n0, RemoveFor(n, q, key), key, removed, gone, todo - {q})
    ensures q in n.views ==> Orderly(objs, RemoveFor(n, q, key), gone + {key})
    ensures q !in n.views ==> Telling(n0, n, key, removed, gone, todo - {q})
  {
    if q in n.views {
      assert Tidy(objs, n, gone + {key}, q);
      if q in gone || q == key {
        assert RemoveFor(n, q, key) == n;
        StillTelling(n0, n, n, key, removed, gone, todo, q);
      } else {
        RemoveTells(n, q, key);
        RemoveLoses(n, q, key);
        StillTelling(n0, n, RemoveFor(n, q, key), key, removed, gone, todo, q);
        StillOrderly(objs, n, RemoveFor(n, q, key), key, gone + {key}, q);
      }
    } else {
      StillTelling(n0, n, n, key, removed, gone, todo, q);
    }
  }

  lemma RemoveLoses(n: Net, q: int, key: int)
    requires q in n.views && q in n.tables && n.tables[q].objs.Keys == n.views[q]
    ensures Lost(n, RemoveFor(n, q, key), q, {key})
  {
    if key !in n.views[q] {
      assert n.views[q] - {key} == n.views[q] && n.tables[q].objs - {key} == n.tables[q].objs;
    }
  }

  lemma StillTelling(n0: Net, n: Net, n': Net, key: int, removed: set<int>, gone: set<int>, todo: set<int>, q: int)
    requires Telling(n0, n, key, removed, gone, todo) && SamePlayers(n, n') && q in todo
    requires forall r {:trigger Unchanged(n, n', r)} :: r in n.views && r in n.tables && r != q ==> Unchanged(n, n', r)
    requires q in n.views && q !in gone && q != key ==> Lost(n, n', q, {key})
    requires q == key ==> n' == n
    ensures Telling(n0, n', key, removed, gone, todo - {q})
  {
    assert key != q ==> Unchanged(n, n', key);
    forall r {:trigger Informed(n0, n', key, removed, todo - {q}, r)} | r in n'.views && r !in gone && r != key
      ensures Informed(n0, n', key, removed, todo - {q}, r)
    {
      assert Informed(n0, n, key, removed, todo, r);
      if r == q {
        LostMore(n0, n, n', q, removed, {key}, removed + {key});
      } else {
        assert Unchanged(n, n', r);
      }
    }
  }

  lemma StillOrderly(objs: Objs, n: Net, n': Net, key: int, gone: set<int>, q: int)
    requires Orderly(objs, n, gone) && Tells(n, n', q, key) && key in gone && q in n.views && q !in gone
    requires n'.views[q] == n'.tables[q].objs.Keys == n.views[q] - {key}
    ensures Orderly(objs, n', gone)
  {
    forall r {:trigger Tidy(objs, n', gone, r)} | r in n'.views
      ensures Tidy(objs, n', gone, r)
    {
      assert Tidy(objs, n, gone, r) && (r != q ==> Unchanged(n, n', r));
    }
    forall r, t {:trigger Mutual(n', r, t)} | r in n'.views && t in n'.views && r !in gone && t !in gone
      ensures Mutual(n', r, t)
    {
      assert Mutual(n, r, t) && (r != q ==> Unchanged(n, n', r)) && (t != q ==> Unchanged(n, n', t));
    }
  }

  /** A nested cascade has run. */
  lemma TellAfterNested(n0: Net, n: Net, n': Net, key: int, removed: set<int>, more: set<int>, gone: set<int>,
                        todo: set<int>, objs: Objs)
    requires Telling(n0, n, key, removed, gone, todo) && Pruned(n, n', more, gone + {key})
    requires key !in more && Orderly(objs, n', gone + {key})
    ensures Telling(n0, n', key, removed + more, gone, todo)
  {
    assert Tidy(objs, n', gone + {key}, key);
    forall q {:trigger Informed(n0, n', key, removed + more, todo, q)} | q in n'.views && q !in gone && q != key
      ensures Informed(n0, n', key, removed + more, todo, q)
    {
      assert Informed(n0, n, key, removed, todo, q) && Lost(n, n', q, more);
      if q in todo {
        LostMore(n0, n, n', q, removed, more, removed + more);
      } else {
        LostMore(n0, n, n', q, removed + {key}, more, removed + more + {key});
      }
    }
  }

  /** Last step: the session itself is dropped. */
  ghost function Dropped(n: Net, key: int): Net {
    Net(n.views - {key}, n.tables - {key})
  }

  lemma EndTelling(n0: Net, n: Net, key: int, removed: set<int>, gone: set<int>)
    requires Telling(n0, n, key, removed, gone, {}) && key in n0.views && key !in removed && key !in gone
    ensures Pruned(n0, Dropped(n, key), removed + {key}, gone)
  {
    var n' := Dropped(n, key);
    forall q {:trigger Lost(n0, n', q, removed + {key})} | q in n'.views && q !in gone
      ensures Lost(n0, n', q, removed + {key})
    {
      assert Informed(n0, n, key, removed, {}, q);
    }
  }

  lemma OrderlyDrop(objs: Objs, n0: Net, n: Net, key: int, removed: set<int>, gone: set<int>)
    requires Orderly(objs, n, gone + {key}) && Telling(n0, n, key, removed, gone, {}) && key !in gone
    requires key in n0.views && n0.tables.Keys == n0.views.Keys
    ensures Orderly(objs - {key}, Dropped(n, key), gone)
  {
    var objs', n' := objs - {key}, Dropped(n, key);
    forall q {:trigger Tidy(objs', n', gone, q)} | q in n'.views
      ensures Tidy(objs', n', gone, q)
    {
      assert Tidy(objs, n, gone + {key}, q);
      assert q !in gone ==> Informed(n0, n, key, removed, {}, q);
    }
    forall q, r {:trigger Mutual(n', q, r)} | q in n'.views && r in n'.views && q !in gone && r !in gone
      ensures Mutual(n', q, r)
    {
      assert Mutual(n, q, r);
    }
  }

  // ---- who has left, and who has been saved ----

  /** Exactly the players in play among `removed` have been saved meanwhile, each once. */
  ghost predicate SavedOnce(objs0: Objs, removed: set<int>, log: seq<int>) {
    NoDuplicates(log) && forall r :: r in log <==> r in removed && Watching(objs0, r)
  }

  /** What one call, or one round of it, has done to the objects and to the list of saves. */
  ghost predicate HaveLeft(objs0: Objs, saves0: seq<int>, removed: set<int>, gone: set<int>, log: seq<int>,
                           objs1: Objs, saves1: seq<int>) {
    && removed !! gone
    && (forall o :: o in objs1 <==> o in objs0 && o !in removed)
    && (forall o :: o in objs1 && o in objs0 ==> objs1[o] == objs0[o])
    && (forall r :: r in removed ==> r in objs0 && IsPc(r))
    && saves1 == saves0 + log && SavedOnce(objs0, removed, log)
  }

  /** The same inside the loop of `key`'s own disconnect, which is still listed but logged out. */
  ghost predicate HaveLeftSoFar(objs0: Objs, saves0: seq<int>, key: int, removed: set<int>, gone: set<int>,
                                log: seq<int>, objs1: Objs, saves1: seq<int>) {
    && removed !! gone && key !in removed
    && (forall o :: o in objs1 <==> o in objs0 && o !in removed)
    && (forall o :: o in objs1 && o in objs0 && o != key ==> objs1[o] == objs0[o])
    && (forall r :: r in removed ==> r in objs0 && IsPc(r))
    && saves1 == saves0 + log && SavedOnce(objs0, removed + {key}, log)
  }

  lemma LeftStart(objs0: Objs, saves0: seq<int>, key: int, gone: set<int>, log: seq<int>)
    requires key in objs0 && log == (if Watching(objs0, key) then [key] else [])
    ensures HaveLeftSoFar(objs0, saves0, key, {}, gone, log, LoggedOff(objs0, key), saves0 + log)
  {
  }

  lemma LeftEnd(objs0: Objs, saves0: seq<int>, key: int, removed: set<int>, gone: set<int>, log: seq<int>,
                objs1: Objs, saves1: seq<int>)
    requires HaveLeftSoFar(objs0, saves0, key, removed, gone, log, objs1, saves1)
    requires key in objs0 && IsPc(key) && key !in gone
    ensures HaveLeft(objs0, saves0, removed + {key}, gone, log, objs1 - {key}, saves1)
  {
  }

  lemma LeftMore(objs0: Objs, saves0: seq<int>, key: int, removed: set<int>, gone: set<int>, log: seq<int>,
                 objs1: Objs, saves1: seq<int>, more: set<int>, moreLog: seq<int>,
                 objs2: Objs, saves2: seq<int>)
    requires HaveLeftSoFar(objs0, saves0, key, removed, gone, log, objs1, saves1)
    requires HaveLeft(objs1, saves1, more, gone + {key}, moreLog, objs2, saves2)
    ensures HaveLeftSoFar(objs0, saves0, key, removed + more, gone, log + moreLog, objs2, saves2)
  {
    forall r
      ensures r in log + moreLog <==> r in removed + more + {key} && Watching(objs0, r)
    {
      assert r in log <==> r in removed + {key} && Watching(objs0, r);
      assert r in moreLog <==> r in more && Watching(objs1, r);
    }
    NoDuplicatesJoin(log, moreLog);
    assert removed + more + {key} == removed + {key} + more;
  }

  // ---- why cascades end ----

  /** The sessions whose disconnect has not begun yet; every nested disconnect leaves fewer of them. */
  ghost function Remaining(objs: Objs, gone: set<int>): set<int> {
    set q | q in objs && IsPc(q) && q !in gone
  }

  lemma NoMoreRemain(objs: Objs, objs': Objs, gone: set<int>)
    requires forall o :: o in objs' ==> o in objs
    ensures Remaining(objs', gone) <= Remaining(objs, gone)
  {
  }

  lemma FewerRemain(objs: Objs, objs': Objs, key: int, gone: set<int>)
    requires key in objs && IsPc(key) && key !in gone && forall o :: o in objs' ==> o in objs
    ensures Remaining(objs', gone + {key}) < Remaining(objs, gone)
  {
    assert key in Remaining(objs, gone) && key !in Remaining(objs', gone + {key});
  }
}
