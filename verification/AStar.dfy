/** astar_next_step: the array-based search of astar.h, proved against AStarSpec. */
module AStar {
  import opened Board
  import opened AStarSpec

  const MARGIN: int := 20
  const INFINITE_COST: int := 1000000000
  const DX: seq<int> := [0, 0, -1, 1]
  const DY: seq<int> := [-1, 1, 0, 0]

  /** Whole numbers up to here are exact in a 32-bit float, so integer costs compute the same comparisons. */
  const EXACT_FLOAT: int := 16777216

  /** The source's `idx` lambda, from window coordinates to a position in the flat arrays. */
  type Flat = (int, int) -> int

  function At(a: Arena, idx: Flat, t: Tile): int {
    idx(t.x - a.x0, t.y - a.y0)
  }

  /** `idx` gives every tile of the window its own cell. */
  ghost predicate Flattens(a: Arena, idx: Flat, cells: int) {
    && (forall t {:trigger At(a, idx, t)} :: a.Inside(t) ==> 0 <= At(a, idx, t) < cells)
    && (forall t, u {:trigger At(a, idx, t), At(a, idx, u)} ::
          a.Inside(t) && a.Inside(u) && At(a, idx, t) == At(a, idx, u) ==> t == u)
  }

  /** No set of window tiles is larger than the arrays, which themselves are small enough for float costs. */
  ghost predicate Roomy(a: Arena, cells: int) {
    && 0 < Width(a) <= WORLD_WIDTH && 0 < Height(a) <= WORLD_HEIGHT
    && 0 <= cells <= WORLD_WIDTH * WORLD_HEIGHT
    && forall tiles: set<Tile> :: (forall t :: t in tiles ==> a.Inside(t)) ==> |tiles| <= cells
  }

  // ---- the arrays hold the search state ----

  ghost predicate HeldAt(a: Arena, idx: Flat, s: Search, g: seq<int>, parent: seq<int>, closed: seq<bool>, t: Tile)
    requires |g| == |parent| == |closed| && 0 <= At(a, idx, t) < |g|
  {
    && g[At(a, idx, t)] == (if t in s.g then s.g[t] else INFINITE_COST)
    && parent[At(a, idx, t)] == (if t in s.parent then At(a, idx, s.parent[t]) else -1)
    && closed[At(a, idx, t)] == (t in s.closed)
  }

  ghost predicate Held(a: Arena, idx: Flat, s: Search, g: seq<int>, parent: seq<int>, closed: seq<bool>) {
    && |g| == |parent| == |closed| && Flattens(a, idx, |g|)
    && forall t {:trigger HeldAt(a, idx, s, g, parent, closed, t)} ::
         a.Inside(t) ==> HeldAt(a, idx, s, g, parent, closed, t)
  }

  lemma HeldDiscard(a: Arena, idx: Flat, s: Search, g: seq<int>, parent: seq<int>, closed: seq<bool>, n: Node)
    requires Held(a, idx, s, g, parent, closed)
    ensures Held(a, idx, Discard(s, n), g, parent, closed)
  {
    forall t {:trigger HeldAt(a, idx, Discard(s, n), g, parent, closed, t)} | a.Inside(t)
      ensures HeldAt(a, idx, Discard(s, n), g, parent, closed, t)
    {
      assert HeldAt(a, idx, s, g, parent, closed, t);
    }
  }

  lemma HeldClose(a: Arena, idx: Flat, s: Search, g: seq<int>, parent: seq<int>, closed: seq<bool>, n: Node, c: Tile)
    requires Held(a, idx, s, g, parent, closed) && a.Inside(c)
    ensures Held(a, idx, Close(s, n, c), g, parent, closed[At(a, idx, c) := true])
  {
    var closed' := closed[At(a, idx, c) := true];
    forall t {:trigger HeldAt(a, idx, Close(s, n, c), g, parent, closed', t)} | a.Inside(t)
      ensures HeldAt(a, idx, Close(s, n, c), g, parent, closed', t)
    {
      assert HeldAt(a, idx, s, g, parent, closed, t);
    }
  }

  lemma HeldRelax(a: Arena, idx: Flat, goal: Tile, s: Search,
                  g: seq<int>, parent: seq<int>, closed: seq<bool>, c: Tile, t: Tile)
    requires a.Valid() && Held(a, idx, s, g, parent, closed) && c in s.g && Improves(a, s, c, t)
    ensures Held(a, idx, Relax(a, goal, s, c, t),
                 g[At(a, idx, t) := s.g[c] + 1], parent[At(a, idx, t) := At(a, idx, c)], closed)
  {
    var s' := Relax(a, goal, s, c, t);
    var g', parent' := g[At(a, idx, t) := s.g[c] + 1], parent[At(a, idx, t) := At(a, idx, c)];
    forall u {:trigger HeldAt(a, idx, s', g', parent', closed, u)} | a.Inside(u)
      ensures HeldAt(a, idx, s', g', parent', closed, u)
    {
      assert HeldAt(a, idx, s, g, parent, closed, u);
    }
  }

  /** Every priority ever queued is a whole number that a 32-bit float holds exactly. */
  lemma PrioritiesExact(a: Arena, start: Tile, goal: Tile, s: Search, cells: int, n: Node)
    requires a.Valid() && Roomy(a, cells) && a.Inside(goal) && Inv(a, start, goal, s) && n in s.queue
    ensures 0 <= n.f < EXACT_FLOAT
  {
    assert Honest(a, goal, s, n);
    ClosedFits(a, start, s, cells);
  }

  // ---- the search loop ----

  function Neighbour(c: Tile, d: int): Tile
    requires 0 <= d < 4
  {
    Tile(c.x + DX[d], c.y + DY[d])
  }

  /** The four offsets reach every tile at distance one. */
  lemma DirectionTo(c: Tile, t: Tile) returns (d: nat)
    requires Manhattan(c, t) == 1
    ensures d < 4 && Neighbour(c, d) == t
  {
    d := if t.y < c.y then 0 else if t.y > c.y then 1 else if t.x < c.x then 2 else 3;
  }

  /** One pass of the neighbour loop does exactly Relax. */
  method RelaxNeighbour(a: Arena, idx: Flat, goal: Tile, cx: int, cy: int, d: nat,
                        g: array<int>, parent: array<int>, closed: array<bool>, queue: multiset<Node>, ghost s: Search)
      returns (queue': multiset<Node>, ghost s': Search, ghost pushed: nat)
    requires a.Valid() && d < 4 && g != parent
    requires Held(a, idx, s, g[..], parent[..], closed[..]) && queue == s.queue
    requires Tile(cx + a.x0, cy + a.y0) in s.g && a.Inside(Tile(cx + a.x0, cy + a.y0))
    requires forall t :: t in s.g ==> s.g[t] <= 4000000
    modifies g, parent
    ensures s' == Relax(a, goal, s, Tile(cx + a.x0, cy + a.y0), Neighbour(Tile(cx + a.x0, cy + a.y0), d))
    ensures Held(a, idx, s', g[..], parent[..], closed[..]) && queue' == s'.queue
    ensures pushed <= 1
  {
    queue', s', pushed := queue, s, 0;
    ghost var c := Tile(cx + a.x0, cy + a.y0);
    ghost var t := Neighbour(c, d);
    var nx, ny := cx + DX[d], cy + DY[d];
    NeighbourAdjacent(c, d);
    assert t == Tile(nx + a.x0, ny + a.y0);
    if 0 <= nx < Width(a) && 0 <= ny < Height(a) {
      assert a.Inside(t);
      if !IsObstacle(a.obstacles, Tile(nx + a.x0, ny + a.y0)) {
        assert a.Edge(c, t);
        queue', s', pushed := RelaxFree(a, idx, goal, cx, cy, nx, ny, g, parent, closed, queue, s);
      }
    }
  }

  lemma NeighbourAdjacent(c: Tile, d: nat)
    requires d < 4
    ensures Manhattan(c, Neighbour(c, d)) == 1
  {
  }

  /** In window coordinates the pushed entry is the one the search state gains. */
  lemma RelaxQueues(a: Arena, goal: Tile, s: Search, c: Tile, t: Tile, nx: int, ny: int)
    requires a.Valid() && c in s.g && Improves(a, s, c, t) && t == Tile(nx + a.x0, ny + a.y0)
    ensures Relax(a, goal, s, c, t).queue ==
            s.queue + multiset{Node(s.g[c] + 1 + Abs(nx - (goal.x - a.x0)) + Abs(ny - (goal.y - a.y0)), nx, ny)}
  {
  }

  /** The tests on the arrays decide whether the way through `c` improves on what is known of `t`. */
  lemma ArraysTell(a: Arena, idx: Flat, s: Search, g: seq<int>, parent: seq<int>, closed: seq<bool>, c: Tile, t: Tile)
    requires a.Valid() && Held(a, idx, s, g, parent, closed) && c in s.g && a.Inside(c) && a.Edge(c, t)
    requires forall u :: u in s.g ==> s.g[u] <= 4000000
    ensures 0 <= At(a, idx, c) < |g| && 0 <= At(a, idx, t) < |g| && g[At(a, idx, c)] == s.g[c]
    ensures Improves(a, s, c, t) <==> !closed[At(a, idx, t)] && s.g[c] + 1 < g[At(a, idx, t)]
  {
    assert HeldAt(a, idx, s, g, parent, closed, c);
    assert HeldAt(a, idx, s, g, parent, closed, t);
  }

  /** Write down a cheaper way to one cell. */
  method Record(g: array<int>, parent: array<int>, cell: int, cost: int, from: int)
    requires g != parent && 0 <= cell < g.Length && cell < parent.Length
    modifies g, parent
    ensures g[..] == old(g[..])[cell := cost] && parent[..] == old(parent[..])[cell := from]
  {
    g[cell] := cost;
    parent[cell] := from;
  }

  /** The rest of the pass, once the neighbour is known to be a free tile of the window. */
  method RelaxFree(a: Arena, idx: Flat, goal: Tile, cx: int, cy: int, nx: int, ny: int,
                   g: array<int>, parent: array<int>, closed: array<bool>, queue: multiset<Node>, ghost s: Search)
      returns (queue': multiset<Node>, ghost s': Search, ghost pushed: nat)
    requires a.Valid() && g != parent
    requires Held(a, idx, s, g[..], parent[..], closed[..]) && queue == s.queue
    requires Tile(cx + a.x0, cy + a.y0) in s.g && a.Inside(Tile(cx + a.x0, cy + a.y0))
    requires a.Edge(Tile(cx + a.x0, cy + a.y0), Tile(nx + a.x0, ny + a.y0))
    requires forall t :: t in s.g ==> s.g[t] <= 4000000
    modifies g, parent
    ensures s' == Relax(a, goal, s, Tile(cx + a.x0, cy + a.y0), Tile(nx + a.x0, ny + a.y0))
    ensures Held(a, idx, s', g[..], parent[..], closed[..]) && queue' == s'.queue
    ensures pushed <= 1
  {
    queue', s', pushed := queue, s, 0;
    ghost var c, t := Tile(cx + a.x0, cy + a.y0), Tile(nx + a.x0, ny + a.y0);
    ArraysTell(a, idx, s, g[..], parent[..], closed[..], c, t);
    var ci, ni := idx(cx, cy), idx(nx, ny);
    assert ci == At(a, idx, c) && ni == At(a, idx, t);
    var ng := g[ci] + 1;
    if closed[ni] || ng >= g[ni] {
      return;
    }
    HeldRelax(a, idx, goal, s, g[..], parent[..], closed[..], c, t);
    var priority := Abs(nx - (goal.x - a.x0)) + Abs(ny - (goal.y - a.y0));
    s', pushed := Relax(a, goal, s, c, t), 1;
    queue' := queue + multiset{Node(ng + priority, nx, ny)};
    assert queue' == s'.queue by {
      RelaxQueues(a, goal, s, c, t, nx, ny);
    }
    Record(g, parent, ni, ng, ci);
  }

  /** The neighbour loop expands the tile just closed. */
  method ExpandTile(a: Arena, idx: Flat, ghost start: Tile, goal: Tile, cx: int, cy: int,
                    g: array<int>, parent: array<int>, closed: array<bool>, queue: multiset<Node>,
                    ghost s0: Search, ghost pushes0: nat)
      returns (queue': multiset<Node>, ghost s: Search, ghost pushes: nat)
    requires a.Valid() && g != parent
    requires Held(a, idx, s0, g[..], parent[..], closed[..]) && queue == s0.queue
    requires Inv(a, start, goal, s0) && |s0.closed| <= 4000000
    requires var c := Tile(cx + a.x0, cy + a.y0);
      && c in s0.closed && s0.g[c] + 1 <= |s0.closed|
      && forall b :: b in s0.closed && b != c ==> Relaxed(a, s0, b)
    modifies g, parent
    ensures Held(a, idx, s, g[..], parent[..], closed[..]) && queue' == s.queue
    ensures Inv(a, start, goal, s) && Expanded(a, s) && s.closed == s0.closed
    ensures pushes <= pushes0 + 4
  {
    queue', s, pushes := queue, s0, pushes0;
    ghost var c := Tile(cx + a.x0, cy + a.y0);
    for d := 0 to 4
      invariant Held(a, idx, s, g[..], parent[..], closed[..]) && queue' == s.queue
      invariant Inv(a, start, goal, s) && s.closed == s0.closed
      invariant s.g[c] == s0.g[c]
      invariant forall b :: b in s.closed && b != c ==> Relaxed(a, s, b)
      invariant SettledUpTo(a, s, c, d)
      invariant pushes <= pushes0 + d
    {
      ghost var before, pushed := s, 0;
      queue', s, pushed := RelaxNeighbour(a, idx, goal, cx, cy, d, g, parent, closed, queue', s);
      pushes := pushes + pushed;
      ExpansionStep(a, start, goal, before, c, d);
    }
    SettledAll(a, s, c);
  }

  ghost predicate SettledUpTo(a: Arena, s: Search, c: Tile, d: int)
    requires a.Valid() && c in s.g && 0 <= d <= 4
  {
    forall e :: 0 <= e < d && a.Edge(c, Neighbour(c, e)) ==> RelaxedTo(s, c, Neighbour(c, e))
  }

  lemma SettledAll(a: Arena, s: Search, c: Tile)
    requires a.Valid() && c in s.g && SettledUpTo(a, s, c, 4)
    ensures Relaxed(a, s, c)
  {
    forall t | a.Edge(c, t)
      ensures RelaxedTo(s, c, t)
    {
      var e := DirectionTo(c, t);
      assert RelaxedTo(s, c, Neighbour(c, e));
    }
  }

  lemma ExpansionStep(a: Arena, start: Tile, goal: Tile, s: Search, c: Tile, d: nat)
    requires a.Valid() && Inv(a, start, goal, s) && d < 4
    requires c in s.closed && s.g[c] + 1 <= |s.closed|
    requires forall b :: b in s.closed && b != c ==> Relaxed(a, s, b)
    requires SettledUpTo(a, s, c, d)
    ensures var s' := Relax(a, goal, s, c, Neighbour(c, d));
      && Inv(a, start, goal, s') && s'.closed == s.closed && s'.g[c] == s.g[c]
      && (forall b :: b in s'.closed && b != c ==> Relaxed(a, s', b))
      && SettledUpTo(a, s', c, d + 1)
  {
    var s' := Relax(a, goal, s, c, Neighbour(c, d));
    RelaxKeeps(a, start, goal, s, c, Neighbour(c, d));
    RelaxLowersCosts(a, goal, s, c, Neighbour(c, d));
    OthersStayRelaxed(a, s, s', c);
    SettledOneMore(a, s, s', c, d);
  }

  lemma OthersStayRelaxed(a: Arena, s: Search, s': Search, c: Tile)
    requires a.Valid() && s.closed <= s.g.Keys <= s'.g.Keys && s'.closed == s.closed
    requires forall u :: u in s.g ==> s'.g[u] <= s.g[u]
    requires forall u :: u in s.closed ==> s'.g[u] == s.g[u]
    requires forall b :: b in s.closed && b != c ==> Relaxed(a, s, b)
    ensures forall b :: b in s'.closed && b != c ==> Relaxed(a, s', b)
  {
    forall b | b in s'.closed && b != c
      ensures Relaxed(a, s', b)
    {
      RelaxedMonotone(a, s, s', b);
    }
  }

  lemma SettledOneMore(a: Arena, s: Search, s': Search, c: Tile, d: nat)
    requires a.Valid() && d < 4 && c in s.g && c in s'.g && s'.g[c] == s.g[c]
    requires s.g.Keys <= s'.g.Keys && forall u :: u in s.g ==> s'.g[u] <= s.g[u]
    requires SettledUpTo(a, s, c, d)
    requires a.Edge(c, Neighbour(c, d)) ==> RelaxedTo(s', c, Neighbour(c, d))
    ensures SettledUpTo(a, s', c, d + 1)
  {
    forall e | 0 <= e < d + 1 && a.Edge(c, Neighbour(c, e))
      ensures RelaxedTo(s', c, Neighbour(c, e))
    {
      if e < d {
        assert RelaxedTo(s, c, Neighbour(c, e));
      }
    }
  }

  lemma {:induction false} Cheapest(queue: multiset<Node>) returns (best: Node)
    requires queue != multiset{}
    ensures best in queue && forall m :: m in queue ==> best.f <= m.f
    decreases |queue|
  {
    var n :| n in queue;
    var rest := queue - multiset{n};
    best := n;
    if rest != multiset{} {
      var k := Cheapest(rest);
      best := if n.f <= k.f then n else k;
    }
    forall m | m in queue
      ensures best.f <= m.f
    {
      if m != n {
        assert rest[m] == queue[m];
      }
    }
  }

  lemma ClosedFits(a: Arena, start: Tile, s: Search, cells: int)
    requires a.Valid() && Roomy(a, cells) && Rooted(a, start, s) && s.closed <= s.g.Keys
    ensures |s.closed| <= cells
  {
  }

  /** What every pass of the main loop keeps. */
  ghost predicate Looping(a: Arena, idx: Flat, start: Tile, goal: Tile, s: Search,
                          g: seq<int>, parent: seq<int>, closed: seq<bool>, queue: multiset<Node>)
    requires a.Valid()
  {
    && Held(a, idx, s, g, parent, closed) && queue == s.queue
    && Inv(a, start, goal, s) && Expanded(a, s)
  }

  /**
   One pass of the main loop. Which of several equally cheap entries std::priority_queue yields is
   left open.
   */
  method Visit(a: Arena, idx: Flat, ghost start: Tile, goal: Tile,
               g: array<int>, parent: array<int>, closed: array<bool>, queue: multiset<Node>,
               ghost s0: Search, ghost pushes0: nat)
      returns (queue': multiset<Node>, found: bool, ghost s: Search, ghost pushes: nat)
    requires a.Valid() && g != parent && queue != multiset{} && Roomy(a, g.Length)
    requires Looping(a, idx, start, goal, s0, g[..], parent[..], closed[..], queue) && goal !in s0.closed
    modifies g, parent, closed
    ensures !found ==> Looping(a, idx, start, goal, s, g[..], parent[..], closed[..], queue') && goal !in s.closed
    ensures !found ==> if s.closed == s0.closed then |queue'| < |queue| && pushes == pushes0
                       else |s.closed| == |s0.closed| + 1 <= g.Length && pushes <= pushes0 + 4
    ensures found ==> goal in s.g && NoShorter(a, start, goal, s.g[goal])
    ensures found ==> Held(a, idx, s, g[..], parent[..], closed[..]) && Rooted(a, start, s) && pushes == pushes0
  {
    ghost var cheapest := Cheapest(queue);
    var n :| n in queue && forall m :: m in queue ==> n.f <= m.f;
    queue', found, s, pushes := queue - multiset{n}, false, s0, pushes0;
    ghost var c := TileOf(a, n);
    assert Honest(a, goal, s, n);
    assert HeldAt(a, idx, s, g[..], parent[..], closed[..], c);
    assert idx(n.x, n.y) == At(a, idx, c);
    if closed[idx(n.x, n.y)] {
      DiscardKeeps(a, start, goal, s, n);
      HeldDiscard(a, idx, s, g[..], parent[..], closed[..], n);
      s := Discard(s, n);
    } else {
      queue', found, s, pushes := Settle(a, idx, start, goal, n, g, parent, closed, queue', s, pushes);
    }
  }

  /** What closing the cheapest entry's tile means for the search state and the arrays. */
  lemma CloseFits(a: Arena, idx: Flat, start: Tile, goal: Tile, s: Search,
                  g: seq<int>, parent: seq<int>, closed: seq<bool>, n: Node, cells: int)
    requires a.Valid() && Roomy(a, cells) && Held(a, idx, s, g, parent, closed)
    requires Inv(a, start, goal, s) && Expanded(a, s)
    requires n in s.queue && (forall m :: m in s.queue ==> n.f <= m.f) && TileOf(a, n) !in s.closed
    ensures var c, s' := TileOf(a, n), Close(s, n, TileOf(a, n));
      && a.Inside(c) && 0 <= idx(n.x, n.y) < |closed| && c in s'.g && s'.g[c] + 1 <= |s'.closed|
      && Inv(a, start, goal, s') && Held(a, idx, s', g, parent, closed[idx(n.x, n.y) := true])
      && |s'.closed| == |s.closed| + 1 <= cells
      && (forall b :: b in s'.closed && b != c ==> Relaxed(a, s', b))
      && (c == goal ==> NoShorter(a, start, goal, s'.g[goal]))
  {
    var c := TileOf(a, n);
    CloseKeeps(a, start, goal, s, n);
    HeldClose(a, idx, s, g, parent, closed, n, c);
    ClosedFits(a, start, Close(s, n, c), cells);
    assert idx(n.x, n.y) == At(a, idx, c);
  }

  method Mark(closed: array<bool>, cell: int)
    requires 0 <= cell < closed.Length
    modifies closed
    ensures closed[..] == old(closed[..])[cell := true]
  {
    closed[cell] := true;
  }

  /** The tile is closed: stop at the goal, expand any other one. */
  method StopOrExpand(a: Arena, idx: Flat, ghost start: Tile, goal: Tile, n: Node,
                      g: array<int>, parent: array<int>, closed: array<bool>, queue: multiset<Node>,
                      ghost s0: Search, ghost pushes0: nat)
      returns (queue': multiset<Node>, found: bool, ghost s: Search, ghost pushes: nat)
    requires a.Valid() && g != parent && Roomy(a, g.Length) && |s0.closed| <= g.Length
    requires Held(a, idx, s0, g[..], parent[..], closed[..]) && queue == s0.queue && Inv(a, start, goal, s0)
    requires TileOf(a, n) in s0.closed && s0.g[TileOf(a, n)] + 1 <= |s0.closed|
    requires forall b :: b in s0.closed && b != TileOf(a, n) ==> Relaxed(a, s0, b)
    requires goal in s0.closed ==> TileOf(a, n) == goal
    requires TileOf(a, n) == goal ==> NoShorter(a, start, goal, s0.g[goal])
    modifies g, parent
    ensures s.closed == s0.closed
    ensures !found ==> Looping(a, idx, start, goal, s, g[..], parent[..], closed[..], queue') && goal !in s.closed
    ensures !found ==> pushes <= pushes0 + 4
    ensures found ==> goal in s.g && NoShorter(a, start, goal, s.g[goal])
    ensures found ==> Held(a, idx, s, g[..], parent[..], closed[..]) && Rooted(a, start, s) && pushes == pushes0
  {
    queue', found, s, pushes := queue, n.x == goal.x - a.x0 && n.y == goal.y - a.y0, s0, pushes0;
    if !found {
      queue', s, pushes := ExpandTile(a, idx, start, goal, n.x, n.y, g, parent, closed, queue', s, pushes);
    }
  }

  /** The part of a pass behind the `closed` test: close the tile and, unless it is the goal, expand it. */
  method Settle(a: Arena, idx: Flat, ghost start: Tile, goal: Tile, n: Node,
                g: array<int>, parent: array<int>, closed: array<bool>, queue: multiset<Node>,
                ghost s0: Search, ghost pushes0: nat)
      returns (queue': multiset<Node>, found: bool, ghost s: Search, ghost pushes: nat)
    requires a.Valid() && g != parent && Roomy(a, g.Length)
    requires Held(a, idx, s0, g[..], parent[..], closed[..]) && queue == s0.queue - multiset{n}
    requires Inv(a, start, goal, s0) && Expanded(a, s0) && goal !in s0.closed
    requires n in s0.queue && (forall m :: m in s0.queue ==> n.f <= m.f) && TileOf(a, n) !in s0.closed
    modifies g, parent, closed
    ensures !found ==> Looping(a, idx, start, goal, s, g[..], parent[..], closed[..], queue') && goal !in s.closed
    ensures !found ==> |s.closed| == |s0.closed| + 1 <= g.Length && pushes <= pushes0 + 4
    ensures found ==> goal in s.g && NoShorter(a, start, goal, s.g[goal])
    ensures found ==> Held(a, idx, s, g[..], parent[..], closed[..]) && Rooted(a, start, s) && pushes == pushes0
  {
    ghost var c := TileOf(a, n);
    CloseFits(a, idx, start, goal, s0, g[..], parent[..], closed[..], n, g.Length);
    Mark(closed, idx(n.x, n.y));
    queue', found, s, pushes :=
      StopOrExpand(a, idx, start, goal, n, g, parent, closed, queue, Close(s0, n, c), pushes0);
  }

  method NewArrays(a: Arena, idx: Flat, cells: nat, start: Tile, ghost goal: Tile)
      returns (g: array<int>, parent: array<int>, closed: array<bool>)
    requires a.Valid() && Flattens(a, idx, cells) && a.Inside(start)
    ensures fresh(g) && fresh(parent) && fresh(closed) && g != parent && g.Length == cells
    ensures Held(a, idx, Initial(a, start, goal), g[..], parent[..], closed[..])
  {
    g := new int[cells](_ => INFINITE_COST);
    parent := new int[cells](_ => -1);
    closed := new bool[cells](_ => false);
    assert 0 <= At(a, idx, start) < cells;
    g[idx(start.x - a.x0, start.y - a.y0)] := 0;
  }

  /** The main loop, run until the goal is closed or the queue is empty. */
  method Search(a: Arena, idx: Flat, cells: nat, start: Tile, goal: Tile)
      returns (found: bool, parent: array<int>, ghost s: Search, ghost pushes: nat)
    requires a.Valid() && Roomy(a, cells) && Flattens(a, idx, cells) && a.Inside(start)
    ensures fresh(parent)
    ensures found ==> ParentsHeld(a, idx, s, parent[..]) && Rooted(a, start, s)
    ensures found ==> goal in s.g && NoShorter(a, start, goal, s.g[goal])
    ensures !found ==> !Reachable(a, start, goal)
    ensures pushes <= 4 * cells + 1
  {
    var g, closed;
    g, parent, closed := NewArrays(a, idx, cells, start, goal);
    var queue := multiset{Entry(a, goal, start, 0)};
    s, pushes, found := Initial(a, start, goal), 1, false;
    InitialInv(a, start, goal);
    while queue != multiset{} && !found
      invariant !found ==> Looping(a, idx, start, goal, s, g[..], parent[..], closed[..], queue) && goal !in s.closed
      invariant !found ==> pushes <= 4 * |s.closed| + 1 && |s.closed| <= cells
      invariant found ==> goal in s.g && NoShorter(a, start, goal, s.g[goal]) && pushes <= 4 * cells + 1
      invariant found ==> ParentsHeld(a, idx, s, parent[..]) && Rooted(a, start, s)
      decreases !found, cells - |s.closed|, |queue|
    {
      queue, found, s, pushes := Visit(a, idx, start, goal, g, parent, closed, queue, s, pushes);
      if found {
        HeldParents(a, idx, s, g[..], parent[..], closed[..]);
      }
    }
    if !found {
      ExhaustedIsUnreachable(a, start, goal, s);
    }
  }

  // ---- reading the answer off the parent links ----

  ghost predicate ParentsHeld(a: Arena, idx: Flat, s: Search, parent: seq<int>) {
    && Flattens(a, idx, |parent|)
    && forall t :: a.Inside(t) ==>
         parent[At(a, idx, t)] == (if t in s.parent then At(a, idx, s.parent[t]) else -1)
  }

  lemma HeldParents(a: Arena, idx: Flat, s: Search, g: seq<int>, parent: seq<int>, closed: seq<bool>)
    requires Held(a, idx, s, g, parent, closed)
    ensures ParentsHeld(a, idx, s, parent)
  {
    forall t | a.Inside(t)
      ensures parent[At(a, idx, t)] == (if t in s.parent then At(a, idx, s.parent[t]) else -1)
    {
      assert HeldAt(a, idx, s, g, parent, closed, t);
    }
  }

  /** One step up the parent links lengthens the walk to the goal by one. */
  lemma BacktrackStep(a: Arena, start: Tile, goal: Tile, s: Search, t: Tile, rest: seq<Tile>)
    requires a.Valid() && Rooted(a, start, s) && goal in s.g && t in s.g && t != start
    requires IsPath(a, rest, t, goal) && |rest| == s.g[goal] - s.g[t] + 1
    ensures t in s.parent && s.parent[t] in s.g && s.g[s.parent[t]] == s.g[t] - 1 >= 0
    ensures a.Inside(t) && a.Inside(s.parent[t]) && a.Edge(s.parent[t], t) && a.Inside(start) && s.g[start] == 0
    ensures IsPath(a, [s.parent[t]] + rest, s.parent[t], goal)
  {
    assert Linked(a, s, t);
    PathPrepend(a, rest, s.parent[t], t, goal);
  }

  lemma BacktrackDone(a: Arena, start: Tile, goal: Tile, s: Search, t: Tile, rest: seq<Tile>)
    requires a.Valid() && Rooted(a, start, s) && goal in s.g && t in s.g && t != start
    requires IsPath(a, rest, t, goal) && |rest| == s.g[goal] - s.g[t] + 1
    requires t in s.parent && s.parent[t] == start && NoShorter(a, start, goal, s.g[goal])
    ensures a.Edge(start, t) && Distance(a, start, goal, s.g[goal]) && Distance(a, t, goal, s.g[goal] - 1)
  {
    BacktrackStep(a, start, goal, s, t, rest);
    FirstStepIsOptimal(a, start, goal, t, rest);
  }

  /** Follow parent links back from the goal to the child of the start; the links never run out before it. */
  method Backtrack(a: Arena, idx: Flat, start: Tile, goal: Tile, parent: array<int>, ghost s: Search)
      returns (cur: int, ghost next: Tile)
    requires a.Valid() && a.Inside(goal) && start != goal
    requires Rooted(a, start, s) && goal in s.g && NoShorter(a, start, goal, s.g[goal])
    requires ParentsHeld(a, idx, s, parent[..])
    ensures a.Edge(start, next) && cur == At(a, idx, next)
    ensures Distance(a, start, goal, s.g[goal]) && Distance(a, next, goal, s.g[goal] - 1)
  {
    var si := idx(start.x - a.x0, start.y - a.y0);
    cur := idx(goal.x - a.x0, goal.y - a.y0);
    next := goal;
    ghost var rest := [goal];
    assert si == At(a, idx, start) && cur == At(a, idx, goal);
    BacktrackStep(a, start, goal, s, next, rest);
    while parent[cur] != si && parent[cur] != -1
      invariant next in s.g && next != start && a.Inside(next) && cur == At(a, idx, next)
      invariant next in s.parent && s.parent[next] in s.g && a.Inside(s.parent[next])
      invariant IsPath(a, rest, next, goal) && |rest| == s.g[goal] - s.g[next] + 1
      decreases s.g[next]
    {
      BacktrackStep(a, start, goal, s, next, rest);
      assert parent[..][cur] == At(a, idx, s.parent[next]);
      cur := parent[cur];
      next := s.parent[next];
      rest := [next] + rest;
      BacktrackStep(a, start, goal, s, next, rest);
    }
    assert parent[..][cur] == At(a, idx, s.parent[next]);
    assert parent[cur] != -1;  // so the source's early return for a missing parent is never taken
    BacktrackDone(a, start, goal, s, next, rest);
  }

  // ---- the entry point ----

  /** The window astar_next_step clips around the two tiles. */
  function Clip(obstacles: seq<bool>, from: Tile, to: Tile): Arena {
    Arena(Max(0, Min(from.x, to.x) - MARGIN),
          Max(0, Min(from.y, to.y) - MARGIN),
          Min(WORLD_WIDTH - 1, Max(from.x, to.x) + MARGIN),
          Min(WORLD_HEIGHT - 1, Max(from.y, to.y) + MARGIN),
          obstacles)
  }

  /** The smallest rectangle that holds both tiles. */
  predicate Between(a: Tile, b: Tile, t: Tile) {
    Min(a.x, b.x) <= t.x <= Max(a.x, b.x) && Min(a.y, b.y) <= t.y <= Max(a.y, b.y)
  }

  /** The nearest tile of that rectangle. */
  function Nearest(a: Tile, b: Tile, t: Tile): (u: Tile)
    ensures Between(a, b, u) && forall v :: Between(a, b, v) ==> Abs(u.x - t.x) <= Abs(v.x - t.x)
    ensures forall v :: Between(a, b, v) ==> Abs(u.y - t.y) <= Abs(v.y - t.y)
  {
    Tile(Max(Min(a.x, b.x), Min(Max(a.x, b.x), t.x)), Max(Min(a.y, b.y), Min(Max(a.y, b.y), t.y)))
  }

  /** The window is everything in the world within twenty tiles of the rectangle between start and target. */
  lemma WindowIsTwentyAround(obstacles: seq<bool>, from: Tile, to: Tile, t: Tile)
    requires InWorld(from) && InWorld(to)
    ensures Clip(obstacles, from, to).Inside(t) <==> InWorld(t) && exists u :: Between(from, to, u) && Within(u, t, 20)
  {
    assert Between(from, to, Nearest(from, to, t));
  }

  /** All of the world as a search window. */
  function WholeWorld(obstacles: seq<bool>): Arena {
    Arena(0, 0, WORLD_WIDTH - 1, WORLD_HEIGHT - 1, obstacles)
  }

  lemma WholeWorldIsAll(obstacles: seq<bool>, a: Tile, b: Tile)
    requires |obstacles| == WORLD_WIDTH * WORLD_HEIGHT
    ensures WholeWorld(obstacles).Inside(a) <==> InWorld(a)
    ensures WholeWorld(obstacles).Edge(a, b) <==> Manhattan(a, b) == 1 && !IsObstacle(obstacles, b)
  {
  }

  /** Some walk through the world makes a detour of at most 41 steps: too short to leave the window and come back. */
  ghost predicate NearWalk(obstacles: seq<bool>, from: Tile, to: Tile)
    requires |obstacles| == WORLD_WIDTH * WORLD_HEIGHT
  {
    exists p :: IsPath(WholeWorld(obstacles), p, from, to) && |p| - 1 <= Manhattan(from, to) + 41
  }

  /** The first `k` steps of a walk lead at most `k` tiles away. */
  lemma {:induction false} StepsFromStart(a: Arena, p: seq<Tile>, from: Tile, to: Tile, k: nat)
    requires a.Valid() && IsPath(a, p, from, to) && k < |p|
    ensures Manhattan(from, p[k]) <= k
  {
    if k > 0 {
      StepsFromStart(a, p, from, to, k - 1);
      assert a.Edge(p[k - 1], p[k]);
    }
  }

  /** A tile outside the window costs a detour of at least 42. */
  lemma DetourToLeave(obstacles: seq<bool>, from: Tile, to: Tile, t: Tile)
    requires InWorld(t) && Manhattan(from, t) + Manhattan(t, to) <= Manhattan(from, to) + 41
    ensures Clip(obstacles, from, to).Inside(t)
  {
  }

  /** A walk through the world with a detour of at most 41 steps stays in the window. */
  lemma NearWalkStaysInside(obstacles: seq<bool>, p: seq<Tile>, from: Tile, to: Tile)
    requires |obstacles| == WORLD_WIDTH * WORLD_HEIGHT && InWorld(to)
    requires IsPath(WholeWorld(obstacles), p, from, to) && |p| - 1 <= Manhattan(from, to) + 41
    ensures IsPath(Clip(obstacles, from, to), p, from, to)
  {
    var w, a := WholeWorld(obstacles), Clip(obstacles, from, to);
    forall k | 0 <= k < |p|
      ensures a.Inside(p[k])
    {
      assert k > 0 ==> w.Edge(p[k - 1], p[k]);
      StepsFromStart(w, p, from, to, k);
      HeuristicConsistent(w, p, from, to, to, k);
      DetourToLeave(obstacles, from, to, p[k]);
    }
    forall k | 1 <= k < |p|
      ensures a.Edge(p[k - 1], p[k])
    {
      assert w.Edge(p[k - 1], p[k]);
    }
  }

  /** Every walk in the window is one through the world. */
  lemma WindowInWorld(obstacles: seq<bool>, p: seq<Tile>, from: Tile, to: Tile, x: Tile, y: Tile)
    requires |obstacles| == WORLD_WIDTH * WORLD_HEIGHT && IsPath(Clip(obstacles, from, to), p, x, y)
    ensures IsPath(WholeWorld(obstacles), p, x, y)
  {
    var w, a := WholeWorld(obstacles), Clip(obstacles, from, to);
    forall k | 1 <= k < |p|
      ensures w.Edge(p[k - 1], p[k])
    {
      assert a.Edge(p[k - 1], p[k]);
    }
  }

  /** With a near walk a shortest step in the window is one in the whole world. */
  lemma NearWalkIsFound(obstacles: seq<bool>, from: Tile, to: Tile, next: Tile)
    requires |obstacles| == WORLD_WIDTH * WORLD_HEIGHT && InWorld(to) && NearWalk(obstacles, from, to)
    ensures Reachable(Clip(obstacles, from, to), from, to)
    ensures OptimalStep(Clip(obstacles, from, to), from, to, next) ==>
              OptimalStep(WholeWorld(obstacles), from, to, next)
  {
    var w, a := WholeWorld(obstacles), Clip(obstacles, from, to);
    var near :| IsPath(w, near, from, to) && |near| - 1 <= Manhattan(from, to) + 41;
    NearWalkStaysInside(obstacles, near, from, to);
    if OptimalStep(a, from, to, next) {
      var d :| Distance(a, from, to, d) && Distance(a, next, to, d - 1);
      WindowDistance(obstacles, from, to, d);
      NextDistance(obstacles, from, to, next, d);
      assert a.Edge(from, next);
      assert w.Edge(from, next);
    }
  }

  lemma WindowDistance(obstacles: seq<bool>, from: Tile, to: Tile, d: int)
    requires |obstacles| == WORLD_WIDTH * WORLD_HEIGHT && InWorld(to) && NearWalk(obstacles, from, to)
    requires Distance(Clip(obstacles, from, to), from, to, d)
    ensures Distance(WholeWorld(obstacles), from, to, d)
  {
    var w, a := WholeWorld(obstacles), Clip(obstacles, from, to);
    var near :| IsPath(w, near, from, to) && |near| - 1 <= Manhattan(from, to) + 41;
    NearWalkStaysInside(obstacles, near, from, to);
    var p :| IsPath(a, p, from, to) && |p| == d + 1;
    WindowInWorld(obstacles, p, from, to, from, to);
    forall q | IsPath(w, q, from, to)
      ensures d <= |q| - 1
    {
      if |q| - 1 <= Manhattan(from, to) + 41 {
        NearWalkStaysInside(obstacles, q, from, to);
      }
    }
  }

  lemma NextDistance(obstacles: seq<bool>, from: Tile, to: Tile, next: Tile, d: int)
    requires |obstacles| == WORLD_WIDTH * WORLD_HEIGHT && InWorld(from)
    requires Clip(obstacles, from, to).Edge(from, next) && Distance(Clip(obstacles, from, to), next, to, d - 1)
    requires Distance(WholeWorld(obstacles), from, to, d)
    ensures Distance(WholeWorld(obstacles), next, to, d - 1)
  {
    var w, a := WholeWorld(obstacles), Clip(obstacles, from, to);
    var p :| IsPath(a, p, next, to) && |p| == d;
    WindowInWorld(obstacles, p, from, to, next, to);
    forall q | IsPath(w, q, next, to)
      ensures d - 1 <= |q| - 1
    {
      PathPrepend(w, q, from, next, to);
      assert IsPath(w, [from] + q, from, to);
    }
  }

  function Cells(a: Arena): nat {
    if Width(a) > 0 && Height(a) > 0 then Width(a) * Height(a) else 0
  }

  /** `next` is a free neighbour of `from` from which a shortest walk is exactly one step shorter. */
  ghost predicate OptimalStep(a: Arena, from: Tile, to: Tile, next: Tile)
    requires a.Valid()
  {
    a.Edge(from, next) && exists d :: Distance(a, from, to, d) && Distance(a, next, to, d - 1)
  }

  /** The search proper, in a window that holds both ends. */
  method SearchWindow(a: Arena, w: int, h: int, from: Tile, to: Tile) returns (next: Tile, ghost pushes: nat)
    requires a.Valid() && 0 < w == Width(a) <= WORLD_WIDTH && 0 < h == Height(a) <= WORLD_HEIGHT
    requires a.Inside(from) && a.Inside(to) && from != to
    ensures next == from <==> !Reachable(a, from, to)
    ensures next != from ==> OptimalStep(a, from, to, next)
    ensures pushes <= 4 * Cells(a) + 1
  {
    var cells := w * h;
    var idx := (x: int, y: int) => y * w + x;
    RowMajor(a, idx);
    var found, parent, s, count := Search(a, idx, cells, from, to);
    pushes := count;
    next := from;
    if found {
      var cur, tile := Backtrack(a, idx, from, to, parent, s);
      ReadBack(a, idx, tile);
      next := Tile(cur % w + a.x0, cur / w + a.y0);
      DistanceMeansReachable(a, from, to, s.g[to]);
    }
  }

  /**
   The step an NPC takes towards its target: the start itself when it is already there or no walk in
   the window exists, and otherwise the first step of a shortest walk.
   */
  method NextStep(obstacles: seq<bool>, from: Tile, to: Tile) returns (next: Tile, ghost pushes: nat)
    requires |obstacles| == WORLD_WIDTH * WORLD_HEIGHT
    ensures next == from <==> from == to || !Reachable(Clip(obstacles, from, to), from, to)
    ensures next != from ==> OptimalStep(Clip(obstacles, from, to), from, to, next)
    ensures from != to && InWorld(to) && NearWalk(obstacles, from, to) ==>
              next != from && OptimalStep(WholeWorld(obstacles), from, to, next)
    ensures pushes <= 4 * Cells(Clip(obstacles, from, to)) + 1
  {
    if from == to {
      return from, 0;
    }
    next, pushes := NextInWindow(obstacles, from, to);
    if InWorld(to) && NearWalk(obstacles, from, to) {
      NearWalkIsFound(obstacles, from, to, next);
    }
  }

  method NextInWindow(obstacles: seq<bool>, from: Tile, to: Tile) returns (next: Tile, ghost pushes: nat)
    requires |obstacles| == WORLD_WIDTH * WORLD_HEIGHT && from != to
    ensures next == from <==> !Reachable(Clip(obstacles, from, to), from, to)
    ensures next != from ==> OptimalStep(Clip(obstacles, from, to), from, to, next)
    ensures pushes <= 4 * Cells(Clip(obstacles, from, to)) + 1
  {
    var a := Clip(obstacles, from, to);
    var w, h := Width(a), Height(a);
    var lsx, lsy := from.x - a.x0, from.y - a.y0;
    var ltx, lty := to.x - a.x0, to.y - a.y0;
    if lsx < 0 || lsx >= w || lsy < 0 || lsy >= h {
      return from, 0;
    }
    if ltx < 0 || ltx >= w || lty < 0 || lty >= h {
      OutsideIsUnreachable(a, from, to);
      return from, 0;
    }
    next, pushes := SearchWindow(a, w, h, from, to);
  }

  /** Such a step leads to a neighbouring tile of the world that is no obstacle. */
  lemma StepIsFree(obstacles: seq<bool>, from: Tile, to: Tile, next: Tile)
    requires |obstacles| == WORLD_WIDTH * WORLD_HEIGHT && OptimalStep(Clip(obstacles, from, to), from, to, next)
    ensures InWorld(next) && Manhattan(from, next) == 1 && !IsObstacle(obstacles, next)
  {
    assert Clip(obstacles, from, to).Edge(from, next);
  }

  lemma DistanceMeansReachable(a: Arena, from: Tile, to: Tile, d: int)
    requires a.Valid() && Distance(a, from, to, d)
    ensures Reachable(a, from, to)
  {
  }

  lemma PathEndsInside(a: Arena, p: seq<Tile>, from: Tile, to: Tile)
    requires a.Valid() && IsPath(a, p, from, to)
    ensures a.Inside(to)
  {
    if |p| > 1 {
      assert a.Edge(p[|p| - 2], p[|p| - 1]);
    }
  }

  lemma OutsideIsUnreachable(a: Arena, from: Tile, to: Tile)
    requires a.Valid() && !a.Inside(to)
    ensures !Reachable(a, from, to)
  {
    forall p | IsPath(a, p, from, to)
      ensures false
    {
      PathEndsInside(a, p, from, to);
    }
  }

  lemma {:induction false} MulGap(w: nat, p: int, q: int)
    ensures p < q ==> p * w + w <= q * w
    decreases q - p
  {
    if p < q {
      MulGap(w, p, q - 1);
      assert q * w == (q - 1) * w + w;
    }
  }

  /** Division and remainder by the row width undo the row-major index. */
  lemma DivModUnique(w: int, y: int, x: int)
    requires 0 <= x < w
    ensures (y * w + x) / w == y && (y * w + x) % w == x
  {
    var i := y * w + x;
    assert i == (i / w) * w + i % w;
    MulGap(w, i / w, y);
    MulGap(w, y, i / w);
  }

  lemma ReadBack(a: Arena, idx: Flat, t: Tile)
    requires a.Inside(t) && forall x, y :: idx(x, y) == y * Width(a) + x
    ensures Tile(At(a, idx, t) % Width(a) + a.x0, At(a, idx, t) / Width(a) + a.y0) == t
  {
    assert At(a, idx, t) == (t.y - a.y0) * Width(a) + (t.x - a.x0);
    DivModUnique(Width(a), t.y - a.y0, t.x - a.x0);
  }

  /** Row-major order is one cell per tile, and the window is never larger than the world. */
  lemma RowMajor(a: Arena, idx: Flat)
    requires 0 < Width(a) <= WORLD_WIDTH && 0 < Height(a) <= WORLD_HEIGHT
    requires forall x, y :: idx(x, y) == y * Width(a) + x
    ensures Flattens(a, idx, Width(a) * Height(a)) && Roomy(a, Width(a) * Height(a))
  {
    var w, h := Width(a), Height(a);
    assert 0 <= w * h <= WORLD_WIDTH * WORLD_HEIGHT by {
      MulBound(w, h, WORLD_WIDTH, WORLD_HEIGHT);
    }
    forall t {:trigger At(a, idx, t)} | a.Inside(t)
      ensures 0 <= At(a, idx, t) < w * h
    {
      MulGap(w, t.y - a.y0, h);
      assert 0 <= (t.y - a.y0) * w;
      assert At(a, idx, t) == (t.y - a.y0) * w + (t.x - a.x0);
    }
    forall t, u {:trigger At(a, idx, t), At(a, idx, u)} | a.Inside(t) && a.Inside(u) && At(a, idx, t) == At(a, idx, u)
      ensures t == u
    {
      DivModUnique(w, t.y - a.y0, t.x - a.x0);
      DivModUnique(w, u.y - a.y0, u.x - a.x0);
    }
    forall tiles: set<Tile> | forall t :: t in tiles ==> a.Inside(t)
      ensures |tiles| <= w * h
    {
      AreaBound(tiles, a.x0, w, a.y0, h);
    }
  }

  lemma MulBound(w: nat, h: nat, W: nat, H: nat)
    requires w <= W && h <= H
    ensures 0 <= w * h <= W * H
  {
    assert w * h <= W * h <= W * H by {
      assert (W - w) * h >= 0 && W * (H - h) >= 0;
    }
  }
}
