/**
 What astar_next_step is meant to find, and the facts about best-first search that make it find it.

 The search state is kept here on tiles, free of array indices: `g` maps each discovered tile to its
 tentative cost, `parent` to its predecessor, `closed` holds the expanded tiles and `queue` the
 priority queue, stale entries included.
 */
module AStarSpec {
  import opened Board

  /** The clipped search window together with the obstacle bitmap. */
  datatype Arena = Arena(x0: int, y0: int, x1: int, y1: int, obstacles: seq<bool>) {
    ghost predicate Valid() {
      |obstacles| == WORLD_WIDTH * WORLD_HEIGHT
    }

    predicate Inside(t: Tile) {
      x0 <= t.x <= x1 && y0 <= t.y <= y1
    }

    predicate Free(t: Tile)
      requires Valid()
    {
      Inside(t) && !IsObstacle(obstacles, t)
    }

    /** One step of the four-neighbour moves; only the tile entered has to be free. */
    predicate Edge(a: Tile, b: Tile)
      requires Valid()
    {
      Manhattan(a, b) == 1 && Free(b)
    }
  }

  /** A walk in the window. The first tile may be an obstacle, every later one is free. */
  ghost predicate IsPath(a: Arena, p: seq<Tile>, from: Tile, to: Tile)
    requires a.Valid()
  {
    && |p| >= 1 && p[0] == from && p[|p| - 1] == to && a.Inside(from)
    && forall k :: 1 <= k < |p| ==> a.Edge(p[k - 1], p[k])
  }

  ghost predicate Reachable(a: Arena, from: Tile, to: Tile)
    requires a.Valid()
  {
    exists p :: IsPath(a, p, from, to)
  }

  /** No walk from `from` to `to` has fewer than `cost` steps. */
  ghost predicate NoShorter(a: Arena, from: Tile, to: Tile, cost: int)
    requires a.Valid()
  {
    forall p :: IsPath(a, p, from, to) ==> cost <= |p| - 1
  }

  /** `cost` is the length of a shortest walk. */
  ghost predicate Distance(a: Arena, from: Tile, to: Tile, cost: int)
    requires a.Valid()
  {
    && (exists p :: IsPath(a, p, from, to) && |p| == cost + 1)
    && NoShorter(a, from, to, cost)
  }

  lemma DistanceUnique(a: Arena, from: Tile, to: Tile, c: int, d: int)
    requires a.Valid() && Distance(a, from, to, c) && Distance(a, from, to, d)
    ensures c == d
  {
    var p :| IsPath(a, p, from, to) && |p| == c + 1;
    var q :| IsPath(a, q, from, to) && |q| == d + 1;
  }

  // ---- search state ----

  /** A queue entry, in window coordinates as the source stores it. */
  datatype Node = Node(f: int, x: int, y: int)

  datatype Search = Search(g: map<Tile, int>, parent: map<Tile, Tile>, closed: set<Tile>, queue: multiset<Node>)

  function TileOf(a: Arena, n: Node): Tile {
    Tile(n.x + a.x0, n.y + a.y0)
  }

  function Entry(a: Arena, goal: Tile, t: Tile, cost: int): Node {
    Node(cost + Manhattan(t, goal), t.x - a.x0, t.y - a.y0)
  }

  function Initial(a: Arena, start: Tile, goal: Tile): Search {
    Search(map[start := 0], map[], {}, multiset{Entry(a, goal, start, 0)})
  }

  function Close(s: Search, n: Node, t: Tile): Search {
    s.(closed := s.closed + {t}, queue := s.queue - multiset{n})
  }

  function Discard(s: Search, n: Node): Search {
    s.(queue := s.queue - multiset{n})
  }

  predicate Improves(a: Arena, s: Search, c: Tile, t: Tile)
    requires a.Valid() && c in s.g
  {
    a.Edge(c, t) && t !in s.closed && (t in s.g ==> s.g[c] + 1 < s.g[t])
  }

  /** The body of the neighbour loop for one neighbour `t` of the tile `c` being expanded. */
  function Relax(a: Arena, goal: Tile, s: Search, c: Tile, t: Tile): Search
    requires a.Valid() && c in s.g
  {
    if Improves(a, s, c, t) then
      s.(g := s.g[t := s.g[c] + 1],
         parent := s.parent[t := c],
         queue := s.queue + multiset{Entry(a, goal, t, s.g[c] + 1)})
    else
      s
  }

  // ---- the search invariant ----

  /** A discovered tile hangs one step below a closed parent. */
  ghost predicate Linked(a: Arena, s: Search, t: Tile)
    requires a.Valid() && t in s.g
  {
    && t in s.parent && s.parent[t] in s.closed && s.parent[t] in s.g
    && s.g[t] == s.g[s.parent[t]] + 1 && a.Edge(s.parent[t], t)
  }

  /** Costs count real steps from the start. */
  ghost predicate Rooted(a: Arena, start: Tile, s: Search)
    requires a.Valid()
  {
    && a.Inside(start) && start in s.g && s.g[start] == 0 && start !in s.parent
    && (forall t :: t in s.g ==> a.Inside(t) && 0 <= s.g[t] <= |s.closed|)
    && (forall t {:trigger Linked(a, s, t)} :: t in s.g && t != start ==> Linked(a, s, t))
    && s.parent.Keys <= s.g.Keys
  }

  /** A closed tile's cost is final. */
  ghost predicate Final(a: Arena, start: Tile, s: Search)
    requires a.Valid()
  {
    && s.closed <= s.g.Keys
    && forall t :: t in s.closed ==> NoShorter(a, start, t, s.g[t])
  }

  /** The tile is queued at its current cost. */
  ghost predicate Waiting(a: Arena, goal: Tile, s: Search, t: Tile)
    requires t in s.g
  {
    Entry(a, goal, t, s.g[t]) in s.queue
  }

  /** The entry belongs to a discovered tile and, if stale, overestimates, though never by much. */
  ghost predicate Honest(a: Arena, goal: Tile, s: Search, n: Node) {
    && TileOf(a, n) in s.g
    && s.g[TileOf(a, n)] <= n.f - Manhattan(TileOf(a, n), goal) <= |s.closed|
  }

  /** Every open tile is queued at its current cost, and no entry promises too little. */
  ghost predicate Queued(a: Arena, goal: Tile, s: Search) {
    && (forall t {:trigger Waiting(a, goal, s, t)} :: t in s.g && t !in s.closed ==> Waiting(a, goal, s, t))
    && (forall n {:trigger Honest(a, goal, s, n)} :: n in s.queue ==> Honest(a, goal, s, n))
  }

  ghost predicate RelaxedTo(s: Search, c: Tile, t: Tile)
    requires c in s.g
  {
    t in s.g && s.g[t] <= s.g[c] + 1
  }

  /** All neighbours of `c` are discovered at cost at most one more. */
  ghost predicate Relaxed(a: Arena, s: Search, c: Tile)
    requires a.Valid() && c in s.g
  {
    forall t :: a.Edge(c, t) ==> RelaxedTo(s, c, t)
  }

  ghost predicate Expanded(a: Arena, s: Search)
    requires a.Valid() && s.closed <= s.g.Keys
  {
    forall c :: c in s.closed ==> Relaxed(a, s, c)
  }

  ghost predicate Inv(a: Arena, start: Tile, goal: Tile, s: Search)
    requires a.Valid()
  {
    Rooted(a, start, s) && Final(a, start, s) && Queued(a, goal, s)
  }

  // ---- paths ----

  lemma PathExtend(a: Arena, p: seq<Tile>, from: Tile, mid: Tile, to: Tile)
    requires a.Valid() && IsPath(a, p, from, mid) && a.Edge(mid, to)
    ensures IsPath(a, p + [to], from, to)
  {
  }

  lemma PathPrepend(a: Arena, p: seq<Tile>, from: Tile, mid: Tile, to: Tile)
    requires a.Valid() && IsPath(a, p, mid, to) && a.Edge(from, mid) && a.Inside(from)
    ensures IsPath(a, [from] + p, from, to)
  {
    var q := [from] + p;
    forall k | 1 <= k < |q|
      ensures a.Edge(q[k - 1], q[k])
    {
      if k > 1 {
        assert a.Edge(p[k - 2], p[k - 1]);
      }
    }
  }

  /** The Manhattan heuristic is consistent along a walk. */
  lemma {:induction false} HeuristicConsistent(a: Arena, p: seq<Tile>, from: Tile, to: Tile, goal: Tile, k: nat)
    requires a.Valid() && IsPath(a, p, from, to) && k < |p|
    ensures Manhattan(p[k], goal) <= |p| - 1 - k + Manhattan(to, goal)
    decreases |p| - k
  {
    if k + 1 < |p| {
      HeuristicConsistent(a, p, from, to, goal, k + 1);
      assert a.Edge(p[k], p[k + 1]);
    }
  }

  /** The parent links of a discovered tile spell out a walk of exactly its cost. */
  lemma {:induction false} CostIsLength(a: Arena, start: Tile, s: Search, t: Tile) returns (p: seq<Tile>)
    requires a.Valid() && Rooted(a, start, s) && t in s.g
    ensures IsPath(a, p, start, t) && |p| == s.g[t] + 1
    decreases s.g[t]
  {
    if t == start {
      p := [start];
    } else {
      assert Linked(a, s, t);
      var q := CostIsLength(a, start, s, s.parent[t]);
      PathExtend(a, q, start, s.parent[t], t);
      p := q + [t];
    }
  }

  /** On any walk to a tile that is not closed yet, some open tile is discovered no later than its index. */
  lemma {:induction false} Frontier(a: Arena, start: Tile, goal: Tile, s: Search, p: seq<Tile>, to: Tile, k: nat)
      returns (i: nat)
    requires a.Valid() && Inv(a, start, goal, s) && Expanded(a, s)
    requires IsPath(a, p, start, to) && to !in s.closed
    requires k < |p| && p[k] in s.g && s.g[p[k]] <= k
    ensures i < |p| && p[i] !in s.closed && p[i] in s.g && s.g[p[i]] <= i
    decreases |p| - k
  {
    if p[k] !in s.closed {
      i := k;
    } else {
      assert a.Edge(p[k], p[k + 1]);
      assert Relaxed(a, s, p[k]);
      assert RelaxedTo(s, p[k], p[k + 1]);
      i := Frontier(a, start, goal, s, p, to, k + 1);
    }
  }

  /** The entry popped for a tile that is not closed carries that tile's cheapest cost. */
  lemma PoppedIsFinal(a: Arena, start: Tile, goal: Tile, s: Search, n: Node)
    requires a.Valid() && Inv(a, start, goal, s) && Expanded(a, s)
    requires n in s.queue && forall m :: m in s.queue ==> n.f <= m.f
    requires TileOf(a, n) !in s.closed
    ensures TileOf(a, n) in s.g
    ensures NoShorter(a, start, TileOf(a, n), s.g[TileOf(a, n)])
    ensures n == Entry(a, goal, TileOf(a, n), s.g[TileOf(a, n)])
  {
    var t := TileOf(a, n);
    assert Honest(a, goal, s, n) && Waiting(a, goal, s, t);
    forall p | IsPath(a, p, start, t)
      ensures s.g[t] <= |p| - 1
    {
      var i := Frontier(a, start, goal, s, p, t, 0);
      assert Waiting(a, goal, s, p[i]);
      HeuristicConsistent(a, p, start, t, goal, i);
    }
  }

  // ---- preservation ----

  lemma InitialInv(a: Arena, start: Tile, goal: Tile)
    requires a.Valid() && a.Inside(start)
    ensures Inv(a, start, goal, Initial(a, start, goal)) && Expanded(a, Initial(a, start, goal))
  {
  }

  lemma EntryTile(a: Arena, goal: Tile, t: Tile, cost: int)
    ensures TileOf(a, Entry(a, goal, t, cost)) == t
  {
  }

  /** Taking a node out leaves the queue right once its tile is closed. */
  lemma DequeueKeepsQueued(a: Arena, goal: Tile, s: Search, n: Node, closed: set<Tile>)
    requires Queued(a, goal, s) && s.closed <= closed && |s.closed| <= |closed| && TileOf(a, n) in closed
    ensures Queued(a, goal, s.(closed := closed, queue := s.queue - multiset{n}))
  {
    var s' := s.(closed := closed, queue := s.queue - multiset{n});
    forall t {:trigger Waiting(a, goal, s', t)} | t in s'.g && t !in closed
      ensures Waiting(a, goal, s', t)
    {
      assert Waiting(a, goal, s, t);
      EntryTile(a, goal, t, s.g[t]);
      assert Entry(a, goal, t, s.g[t]) != n;
    }
    forall m {:trigger Honest(a, goal, s', m)} | m in s'.queue
      ensures Honest(a, goal, s', m)
    {
      assert Honest(a, goal, s, m);
    }
  }

  lemma DiscardKeeps(a: Arena, start: Tile, goal: Tile, s: Search, n: Node)
    requires a.Valid() && Inv(a, start, goal, s) && Expanded(a, s)
    requires n in s.queue && TileOf(a, n) in s.closed
    ensures Inv(a, start, goal, Discard(s, n)) && Expanded(a, Discard(s, n))
  {
    RootedGrows(a, start, s, Discard(s, n));
    DequeueKeepsQueued(a, goal, s, n, s.closed);
    SameCostsSameRelaxed(a, s, Discard(s, n));
  }

  lemma SameCostsSameRelaxed(a: Arena, s: Search, s': Search)
    requires a.Valid() && s.g == s'.g && s.closed <= s.g.Keys && Expanded(a, s)
    ensures forall c :: c in s.closed ==> Relaxed(a, s', c)
  {
    forall c | c in s.closed
      ensures Relaxed(a, s', c)
    {
      assert Relaxed(a, s, c);
      assert forall t :: RelaxedTo(s', c, t) == RelaxedTo(s, c, t);
    }
  }

  lemma CloseKeeps(a: Arena, start: Tile, goal: Tile, s: Search, n: Node)
    requires a.Valid() && Inv(a, start, goal, s) && Expanded(a, s)
    requires n in s.queue && forall m :: m in s.queue ==> n.f <= m.f
    requires TileOf(a, n) !in s.closed
    ensures TileOf(a, n) in s.g && Inv(a, start, goal, Close(s, n, TileOf(a, n)))
    ensures s.g[TileOf(a, n)] + 1 <= |Close(s, n, TileOf(a, n)).closed|
    ensures forall c :: c in s.closed ==> Relaxed(a, Close(s, n, TileOf(a, n)), c)
  {
    var t := TileOf(a, n);
    var s' := Close(s, n, t);
    PoppedIsFinal(a, start, goal, s, n);
    assert |s'.closed| == |s.closed| + 1;
    DequeueKeepsQueued(a, goal, s, n, s'.closed);
    SameCostsSameRelaxed(a, s, s');
    RootedGrows(a, start, s, s');
  }

  /** Closing more tiles leaves costs and links as they are. */
  lemma RootedGrows(a: Arena, start: Tile, s: Search, s': Search)
    requires a.Valid() && Rooted(a, start, s)
    requires s'.g == s.g && s'.parent == s.parent && s.closed <= s'.closed && |s.closed| <= |s'.closed|
    ensures Rooted(a, start, s')
  {
    forall t {:trigger Linked(a, s', t)} | t in s'.g && t != start
      ensures Linked(a, s', t)
    {
      assert Linked(a, s, t);
    }
  }

  lemma RelaxKeepsRooted(a: Arena, start: Tile, goal: Tile, s: Search, c: Tile, t: Tile)
    requires a.Valid() && Rooted(a, start, s)
    requires s.closed <= s.g.Keys && c in s.closed && s.g[c] + 1 <= |s.closed|
    requires Improves(a, s, c, t)
    ensures Rooted(a, start, Relax(a, goal, s, c, t))
  {
    var s' := Relax(a, goal, s, c, t);
    assert t != start;
    forall u {:trigger Linked(a, s', u)} | u in s'.g && u != start
      ensures Linked(a, s', u)
    {
      if u != t {
        assert Linked(a, s, u);
      }
    }
  }

  lemma RelaxKeepsQueued(a: Arena, goal: Tile, s: Search, c: Tile, t: Tile)
    requires a.Valid() && Queued(a, goal, s) && c in s.g && Improves(a, s, c, t)
    requires 0 <= s.g[c] < |s.closed|
    ensures Queued(a, goal, Relax(a, goal, s, c, t))
  {
    var s' := Relax(a, goal, s, c, t);
    EntryTile(a, goal, t, s.g[c] + 1);
    forall u {:trigger Waiting(a, goal, s', u)} | u in s'.g && u !in s'.closed
      ensures Waiting(a, goal, s', u)
    {
      if u != t {
        assert Waiting(a, goal, s, u);
      }
    }
    forall n {:trigger Honest(a, goal, s', n)} | n in s'.queue
      ensures Honest(a, goal, s', n)
    {
      if n != Entry(a, goal, t, s.g[c] + 1) {
        assert Honest(a, goal, s, n);
      }
    }
  }

  /** A neighbour closed earlier is already cheap enough. */
  lemma ClosedNeighbourSettled(a: Arena, start: Tile, s: Search, c: Tile, t: Tile)
    requires a.Valid() && Rooted(a, start, s) && Final(a, start, s)
    requires c in s.closed && a.Edge(c, t) && t in s.closed
    ensures RelaxedTo(s, c, t)
  {
    var p := CostIsLength(a, start, s, c);
    PathExtend(a, p, start, c, t);
  }

  lemma RelaxLowersCosts(a: Arena, goal: Tile, s: Search, c: Tile, t: Tile)
    requires a.Valid() && c in s.closed && s.closed <= s.g.Keys
    ensures var s' := Relax(a, goal, s, c, t);
      && s.g.Keys <= s'.g.Keys && (forall u :: u in s.g ==> s'.g[u] <= s.g[u])
      && (forall u :: u in s.closed ==> s'.g[u] == s.g[u]) && s'.closed == s.closed
  {
  }

  /** Relaxing one neighbour keeps the invariant and settles that neighbour. */
  lemma RelaxKeeps(a: Arena, start: Tile, goal: Tile, s: Search, c: Tile, t: Tile)
    requires a.Valid() && Inv(a, start, goal, s)
    requires c in s.closed && s.g[c] + 1 <= |s.closed|
    ensures Inv(a, start, goal, Relax(a, goal, s, c, t))
    ensures a.Edge(c, t) ==> RelaxedTo(Relax(a, goal, s, c, t), c, t)
  {
    RelaxLowersCosts(a, goal, s, c, t);
    if Improves(a, s, c, t) {
      RelaxKeepsRooted(a, start, goal, s, c, t);
      RelaxKeepsQueued(a, goal, s, c, t);
    } else if a.Edge(c, t) && t in s.closed {
      ClosedNeighbourSettled(a, start, s, c, t);
    }
  }

  /** Lower costs never unsettle a neighbour. */
  lemma RelaxedMonotone(a: Arena, s: Search, s': Search, c: Tile)
    requires a.Valid() && c in s.closed && s.closed <= s.g.Keys <= s'.g.Keys
    requires forall u :: u in s.g ==> s'.g[u] <= s.g[u]
    requires s'.g[c] == s.g[c]
    requires Relaxed(a, s, c)
    ensures Relaxed(a, s', c)
  {
    forall t | a.Edge(c, t)
      ensures RelaxedTo(s', c, t)
    {
      assert RelaxedTo(s, c, t);
    }
  }

  // ---- what the two ways of leaving the loop mean ----

  /** An exhausted queue leaves no walk to a tile that was never closed. */
  lemma ExhaustedIsUnreachable(a: Arena, start: Tile, goal: Tile, s: Search)
    requires a.Valid() && Inv(a, start, goal, s) && Expanded(a, s)
    requires s.queue == multiset{} && goal !in s.closed
    ensures !Reachable(a, start, goal)
  {
    forall p | IsPath(a, p, start, goal)
      ensures false
    {
      var i := Frontier(a, start, goal, s, p, goal, 0);
      OpenMeansQueued(a, goal, s, p[i]);
    }
  }

  lemma OpenMeansQueued(a: Arena, goal: Tile, s: Search, t: Tile)
    requires Queued(a, goal, s) && t in s.g && t !in s.closed
    ensures s.queue != multiset{}
  {
    assert Waiting(a, goal, s, t);
  }

  /** A child of the start on a shortest walk is one step closer to the goal than the start. */
  lemma FirstStepIsOptimal(a: Arena, start: Tile, goal: Tile, next: Tile, rest: seq<Tile>)
    requires a.Valid() && a.Inside(start) && a.Edge(start, next)
    requires IsPath(a, rest, next, goal) && NoShorter(a, start, goal, |rest|)
    ensures Distance(a, start, goal, |rest|) && Distance(a, next, goal, |rest| - 1)
  {
    PathPrepend(a, rest, start, next, goal);
    assert IsPath(a, [start] + rest, start, goal);
    forall p | IsPath(a, p, next, goal)
      ensures |rest| - 1 <= |p| - 1
    {
      PathPrepend(a, p, start, next, goal);
      assert IsPath(a, [start] + p, start, goal);
    }
  }

  // ---- counting the window ----

  function Width(a: Arena): int { a.x1 - a.x0 + 1 }

  function Height(a: Arena): int { a.y1 - a.y0 + 1 }

  lemma {:induction false} RowBound(row: set<Tile>, x0: int, w: nat, y: int)
    requires forall t :: t in row ==> t.y == y && x0 <= t.x < x0 + w
    ensures |row| <= w
  {
    if w == 0 {
      assert row == {};
    } else {
      var last := Tile(x0 + w - 1, y);
      RowBound(row - {last}, x0, w - 1, y);
    }
  }

  lemma {:induction false} AreaBound(tiles: set<Tile>, x0: int, w: nat, y0: int, h: nat)
    requires forall t :: t in tiles ==> x0 <= t.x < x0 + w && y0 <= t.y < y0 + h
    ensures |tiles| <= w * h
  {
    if h == 0 {
      assert tiles == {};
    } else {
      var row := set t | t in tiles && t.y == y0 + h - 1;
      RowBound(row, x0, w, y0 + h - 1);
      AreaBound(tiles - row, x0, w, y0, h - 1);
      assert |tiles| == |tiles - row| + |row|;
      assert w * h == w * (h - 1) + w;
    }
  }
}
