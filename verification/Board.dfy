/** The tile grid shared by every part of the server: world size, ranges, distances. */
module Board {
  const WORLD_WIDTH: int := 2000
  const WORLD_HEIGHT: int := 2000
  const VIEW_RANGE: int := 5

  datatype Tile = Tile(x: int, y: int)

  function Abs(n: int): nat {
    if n < 0 then -n else n
  }

  function Min(a: int, b: int): int {
    if a < b then a else b
  }

  function Max(a: int, b: int): int {
    if a < b then b else a
  }

  /** Per-axis (Chebyshev) range test, the shape of every range check in the server. */
  predicate Within(a: Tile, b: Tile, range: int) {
    Abs(a.x - b.x) <= range && Abs(a.y - b.y) <= range
  }

  function Manhattan(a: Tile, b: Tile): nat {
    Abs(a.x - b.x) + Abs(a.y - b.y)
  }

  predicate InWorld(t: Tile) {
    0 <= t.x < WORLD_WIDTH && 0 <= t.y < WORLD_HEIGHT
  }

  /** is_obstacle: everything outside the world counts as blocked. */
  predicate IsObstacle(m: seq<bool>, t: Tile)
    requires |m| == WORLD_WIDTH * WORLD_HEIGHT
  {
    !InWorld(t) || m[t.y * WORLD_WIDTH + t.x]
  }

  // Facts about maps, to be called where the proof should not have to look inside.

  lemma Overwrite<T>(m: map<int, T>, k: int, a: T, b: T)
    ensures m[k := a][k := b] == m[k := b]
  {
  }

  lemma Rewrite<T>(m: map<int, T>, k: int)
    requires k in m
    ensures m[k := m[k]] == m
  {
  }

  /** The next element an unordered container yields: any of them. */
  method Pick<T>(ids: set<T>) returns (id: T)
    requires ids != {}
    ensures id in ids
  {
    id :| id in ids;
  }

  /** The same for proofs. */
  lemma Inhabitant<T>(ids: set<T>) returns (id: T)
    requires ids != {}
    ensures id in ids
  {
    id :| id in ids;
  }
}
