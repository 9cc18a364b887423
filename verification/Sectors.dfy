/** The sector index of sector.h: a bucket of ids per 11x11 block, queried three by three. */
module Sectors {
  import opened Board

  const SECTOR_SIZE: int := VIEW_RANGE * 2 + 1
  const MAX_SECTORS_X: int := (WORLD_WIDTH + SECTOR_SIZE - 1) / SECTOR_SIZE
  const MAX_SECTORS_Y: int := (WORLD_HEIGHT + SECTOR_SIZE - 1) / SECTOR_SIZE
  const SECTOR_COUNT: int := MAX_SECTORS_X * MAX_SECTORS_Y

  function SectorX(x: int): int { x / SECTOR_SIZE }

  function SectorY(y: int): int { y / SECTOR_SIZE }

  function SectorId(sx: int, sy: int): int { sy * MAX_SECTORS_X + sx }

  function SectorOf(t: Tile): int { SectorId(SectorX(t.x), SectorY(t.y)) }

  predicate ValidSector(sx: int, sy: int) {
    0 <= sx < MAX_SECTORS_X && 0 <= sy < MAX_SECTORS_Y
  }

  lemma SectorInRange(t: Tile)
    requires InWorld(t)
    ensures ValidSector(SectorX(t.x), SectorY(t.y)) && 0 <= SectorOf(t) < SECTOR_COUNT
  {
    BlockInRange(t.x);
    BlockInRange(t.y);
    IdInRange(SectorX(t.x), SectorY(t.y));
  }

  lemma BlockInRange(n: int)
    requires 0 <= n < WORLD_WIDTH
    ensures 0 <= n / SECTOR_SIZE < MAX_SECTORS_X == MAX_SECTORS_Y == 182
  {
  }

  lemma IdInRange(sx: int, sy: int)
    requires ValidSector(sx, sy)
    ensures 0 <= SectorId(sx, sy) < SECTOR_COUNT
  {
    assert MAX_SECTORS_X == MAX_SECTORS_Y == 182;
  }

  lemma SectorIdInjective(sx: int, sy: int, tx: int, ty: int)
    requires ValidSector(sx, sy) && ValidSector(tx, ty) && SectorId(sx, sy) == SectorId(tx, ty)
    ensures sx == tx && sy == ty
  {
  }

  /** Two tiles whose sectors coincide or touch. */
  predicate Touching(a: Tile, b: Tile) {
    Abs(SectorX(a.x) - SectorX(b.x)) <= 1 && Abs(SectorY(a.y) - SectorY(b.y)) <= 1
  }

  // ---- how far a three-by-three query reaches ----

  lemma WithinSectorSizeTouches(a: Tile, b: Tile)
    requires InWorld(a) && InWorld(b) && Within(a, b, SECTOR_SIZE)
    ensures Touching(a, b)
  {
    BlocksClose(a.x, b.x);
    BlocksClose(a.y, b.y);
  }

  lemma BlocksClose(m: int, n: int)
    requires Abs(m - n) <= SECTOR_SIZE
    ensures Abs(m / SECTOR_SIZE - n / SECTOR_SIZE) <= 1
  {
  }

  ghost predicate QueryCovers(range: int) {
    forall a, b :: InWorld(a) && InWorld(b) && Within(a, b, range) ==> Touching(a, b)
  }

  /** The query sees everything within `range` of every tile exactly up to the sector size, eleven. */
  lemma QueryCoversExactly(range: int)
    ensures QueryCovers(range) <==> range <= SECTOR_SIZE
  {
    if range <= SECTOR_SIZE {
      forall a, b | InWorld(a) && InWorld(b) && Within(a, b, range)
        ensures Touching(a, b)
      {
        WithinSectorSizeTouches(a, b);
      }
    } else {
      var a, b := Tile(10, 0), Tile(22, 0);
      assert Within(a, b, range) && !Touching(a, b);
    }
  }

  // ---- the index against a plain table of positions ----

  /** Each tracked id sits in the one sector of its position, and nothing else is stored. */
  ghost predicate Tracks(where: map<int, Tile>, cells: seq<set<int>>) {
    && |cells| == SECTOR_COUNT
    && (forall id :: id in where ==> InWorld(where[id]))
    && forall s, id :: 0 <= s < |cells| ==> (id in cells[s] <==> id in where && SectorOf(where[id]) == s)
  }

  function Inserted(cells: seq<set<int>>, id: int, t: Tile): seq<set<int>>
    requires 0 <= SectorOf(t) < |cells|
  {
    cells[SectorOf(t) := cells[SectorOf(t)] + {id}]
  }

  function Erased(cells: seq<set<int>>, id: int, t: Tile): seq<set<int>>
    requires 0 <= SectorOf(t) < |cells|
  {
    cells[SectorOf(t) := cells[SectorOf(t)] - {id}]
  }

  function Moved(cells: seq<set<int>>, id: int, from: Tile, to: Tile): seq<set<int>>
    requires 0 <= SectorOf(from) < |cells| && 0 <= SectorOf(to) < |cells|
  {
    if SectorOf(from) == SectorOf(to) then cells else Inserted(Erased(cells, id, from), id, to)
  }

  lemma InsertTracks(where: map<int, Tile>, cells: seq<set<int>>, id: int, t: Tile)
    requires Tracks(where, cells) && id !in where && InWorld(t)
    ensures 0 <= SectorOf(t) < |cells| && Tracks(where[id := t], Inserted(cells, id, t))
  {
    SectorInRange(t);
  }

  lemma EraseTracks(where: map<int, Tile>, cells: seq<set<int>>, id: int, t: Tile)
    requires Tracks(where, cells) && InWorld(t) && (id in where ==> where[id] == t)
    ensures 0 <= SectorOf(t) < |cells| && Tracks(where - {id}, Erased(cells, id, t))
  {
    SectorInRange(t);
  }

  lemma MoveTracks(where: map<int, Tile>, cells: seq<set<int>>, id: int, to: Tile)
    requires Tracks(where, cells) && id in where && InWorld(to)
    ensures 0 <= SectorOf(where[id]) < |cells| && 0 <= SectorOf(to) < |cells|
    ensures Tracks(where[id := to], Moved(cells, id, where[id], to))
  {
    SectorInRange(where[id]);
    SectorInRange(to);
  }

  // ---- whole histories of the index ----

  datatype Op = Add(id: int, at: Tile) | Remove(id: int, at: Tile) | Update(id: int, from: Tile, to: Tile)

  /** The callers' side of the bargain: positions passed in are the current ones and stay in the world. */
  predicate Honest(where: map<int, Tile>, op: Op) {
    match op
    case Add(id, at) => id !in where && InWorld(at)
    case Remove(id, at) => InWorld(at) && (id in where ==> where[id] == at)
    case Update(id, from, to) => id in where && where[id] == from && InWorld(to)
  }

  function Table(where: map<int, Tile>, op: Op): map<int, Tile> {
    match op
    case Add(id, at) => where[id := at]
    case Remove(id, at) => where - {id}
    case Update(id, from, to) => where[id := to]
  }

  ghost predicate HonestRun(where: map<int, Tile>, ops: seq<Op>)
    decreases |ops|
  {
    ops == [] || (Honest(where, ops[0]) && HonestRun(Table(where, ops[0]), ops[1..]))
  }

  ghost function TableAfter(where: map<int, Tile>, ops: seq<Op>): map<int, Tile>
    decreases |ops|
  {
    if ops == [] then where else TableAfter(Table(where, ops[0]), ops[1..])
  }

  /** No id is listed twice. */
  ghost predicate NoDuplicates(ids: seq<int>) {
    forall i, j :: 0 <= i < j < |ids| ==> ids[i] != ids[j]
  }

  lemma NoDuplicatesJoin(a: seq<int>, b: seq<int>)
    requires NoDuplicates(a) && NoDuplicates(b) && forall id :: id in a ==> id !in b
    ensures NoDuplicates(a + b)
  {
    forall i, j | 0 <= i < j < |a + b|
      ensures (a + b)[i] != (a + b)[j]
    {
      if i < |a| <= j {
        assert a[i] in a && b[j - |a|] in b;
      }
    }
  }

  /** Append the ids of one bucket, in whatever order the set yields them. */
  method AppendAll(result: seq<int>, bucket: set<int>) returns (longer: seq<int>)
    requires NoDuplicates(result) && forall id :: id in bucket ==> id !in result
    ensures NoDuplicates(longer) && forall id :: id in longer <==> id in result || id in bucket
  {
    longer := result;
    var todo := bucket;
    while todo != {}
      invariant todo <= bucket && NoDuplicates(longer)
      invariant forall id :: id in longer <==> id in result || (id in bucket && id !in todo)
      decreases todo
    {
      var next := Pick(todo);
      longer := longer + [next];
      todo := todo - {next};
    }
  }

  class SectorManager {
    var cells: seq<set<int>>

    constructor ()
      ensures Tracks(map[], cells)
    {
      cells := seq(SECTOR_COUNT, _ => {});
    }

    /** Whatever table the index agreed with, it agrees with the table extended by the new object. */
    method AddObject(id: int, at: Tile)
      requires |cells| == SECTOR_COUNT && InWorld(at)
      modifies this
      ensures 0 <= SectorOf(at) < |old(cells)| && cells == Inserted(old(cells), id, at)
      ensures forall where {:trigger Tracks(where, old(cells))} ::
                Tracks(where, old(cells)) && id !in where ==> Tracks(where[id := at], cells)
    {
      SectorInRange(at);
      cells := cells[SectorOf(at) := cells[SectorOf(at)] + {id}];
      forall where {:trigger Tracks(where, old(cells))} | Tracks(where, old(cells)) && id !in where
        ensures Tracks(where[id := at], cells)
      {
        InsertTracks(where, old(cells), id, at);
      }
    }

    /** The same for the table without the object, if it was where the caller says, or nowhere. */
    method RemoveObject(id: int, at: Tile)
      requires |cells| == SECTOR_COUNT && InWorld(at)
      modifies this
      ensures 0 <= SectorOf(at) < |old(cells)| && cells == Erased(old(cells), id, at)
      ensures forall where {:trigger Tracks(where, old(cells))} ::
                Tracks(where, old(cells)) && (id in where ==> where[id] == at) ==> Tracks(where - {id}, cells)
    {
      SectorInRange(at);
      cells := cells[SectorOf(at) := cells[SectorOf(at)] - {id}];
      forall where {:trigger Tracks(where, old(cells))} | Tracks(where, old(cells)) && (id in where ==> where[id] == at)
        ensures Tracks(where - {id}, cells)
      {
        EraseTracks(where, old(cells), id, at);
      }
    }

    /** The same for the table with the object at its new place. */
    method UpdateObject(id: int, from: Tile, to: Tile)
      requires |cells| == SECTOR_COUNT && InWorld(from) && InWorld(to)
      modifies this
      ensures 0 <= SectorOf(from) < |old(cells)| && 0 <= SectorOf(to) < |old(cells)|
      ensures cells == Moved(old(cells), id, from, to)
      ensures forall where {:trigger Tracks(where, old(cells))} ::
                Tracks(where, old(cells)) && id in where && where[id] == from ==> Tracks(where[id := to], cells)
    {
      SectorInRange(from);
      SectorInRange(to);
      forall where {:trigger Tracks(where, cells)} | Tracks(where, cells) && id in where && where[id] == from
        ensures Tracks(where[id := to], Moved(cells, id, from, to))
      {
        MoveTracks(where, cells, id, to);
      }
      var oldId, newId := SectorOf(from), SectorOf(to);
      if oldId == newId {
        return;
      }
      RemoveObject(id, from);
      AddObject(id, to);
    }

    /** Every history of honest calls leaves the index agreeing with the plain table. */
    method Run(ghost where: map<int, Tile>, ops: seq<Op>)
      requires Tracks(where, cells) && HonestRun(where, ops)
      modifies this
      ensures Tracks(TableAfter(where, ops), cells)
    {
      ghost var table := where;
      for i := 0 to |ops|
        invariant Tracks(table, cells) && HonestRun(table, ops[i..])
        invariant TableAfter(table, ops[i..]) == TableAfter(where, ops)
      {
        assert ops[i..][1..] == ops[i + 1..];
        match ops[i] {
          case Add(id, at) =>
            InsertTracks(table, cells, id, at);
            AddObject(id, at);
          case Remove(id, at) =>
            EraseTracks(table, cells, id, at);
            RemoveObject(id, at);
          case Update(id, from, to) =>
            MoveTracks(table, cells, id, to);
            UpdateObject(id, from, to);
        }
        table := Table(table, ops[i]);
      }
    }

    /** One id per tracked object in the sector of `t` and its eight neighbours, clipped at the border. */
    method Query(t: Tile, ghost where: map<int, Tile>) returns (result: seq<int>)
      requires Tracks(where, cells)
      ensures NoDuplicates(result)
      ensures forall id :: id in result <==> id in where && Touching(where[id], t)
    {
      result := [];
      var sx, sy := SectorX(t.x), SectorY(t.y);
      for dy := -1 to 2
        invariant Listed(where, result, sx, sy, dy, -1)
      {
        for dx := -1 to 2
          invariant Listed(where, result, sx, sy, dy, dx)
        {
          var nsx, nsy := sx + dx, sy + dy;
          ghost var before := result;
          if nsx < 0 || nsx >= MAX_SECTORS_X || nsy < 0 || nsy >= MAX_SECTORS_Y {
            NothingOffMap(where, nsx, nsy);
            ListedNext(where, result, sx, sy, dy, dx, result);
            continue;
          }
          BucketIsNew(where, cells, result, sx, sy, dy, dx);
          result := AppendAll(result, cells[SectorId(nsx, nsy)]);
          ListedNext(where, before, sx, sy, dy, dx, result);
        }
        ListedRow(where, result, sx, sy, dy);
      }
      ListedAll(where, result, t);
    }
  }

  /** The tile's sector comes before offset (dy, dx) in the query's scan order. */
  ghost predicate Scanned(t: Tile, sx: int, sy: int, dy: int, dx: int) {
    var ry, rx := SectorY(t.y) - sy, SectorX(t.x) - sx;
    -1 <= ry <= 1 && -1 <= rx <= 1 && (ry < dy || (ry == dy && rx < dx))
  }

  /** The query has listed exactly the objects in the sectors before offset (dy, dx), each once. */
  ghost predicate Listed(where: map<int, Tile>, result: seq<int>, sx: int, sy: int, dy: int, dx: int) {
    NoDuplicates(result) && forall id :: id in result <==> id in where && Scanned(where[id], sx, sy, dy, dx)
  }

  lemma ListedNext(where: map<int, Tile>, result: seq<int>, sx: int, sy: int, dy: int, dx: int, longer: seq<int>)
    requires Listed(where, result, sx, sy, dy, dx) && -1 <= dy <= 1 && -1 <= dx <= 1 && NoDuplicates(longer)
    requires forall id :: id in longer <==> id in result || (id in where && InBlock(where[id], sx + dx, sy + dy))
    ensures Listed(where, longer, sx, sy, dy, dx + 1)
  {
    forall id
      ensures id in longer <==> id in where && Scanned(where[id], sx, sy, dy, dx + 1)
    {
      assert id in result <==> id in where && Scanned(where[id], sx, sy, dy, dx);
      if id in where {
        ScannedNext(SectorX(where[id].x), SectorY(where[id].y), where[id], sx, sy, dy, dx);
      }
    }
  }

  lemma ScannedNext(x: int, y: int, t: Tile, sx: int, sy: int, dy: int, dx: int)
    requires x == SectorX(t.x) && y == SectorY(t.y) && -1 <= dy <= 1 && -1 <= dx <= 1
    ensures Scanned(t, sx, sy, dy, dx + 1) <==> Scanned(t, sx, sy, dy, dx) || InBlock(t, sx + dx, sy + dy)
  {
  }

  lemma ListedRow(where: map<int, Tile>, result: seq<int>, sx: int, sy: int, dy: int)
    requires Listed(where, result, sx, sy, dy, 2)
    ensures Listed(where, result, sx, sy, dy + 1, -1)
  {
    forall id
      ensures id in result <==> id in where && Scanned(where[id], sx, sy, dy + 1, -1)
    {
      assert id in where ==> (Scanned(where[id], sx, sy, dy + 1, -1) <==> Scanned(where[id], sx, sy, dy, 2));
    }
  }

  lemma ListedAll(where: map<int, Tile>, result: seq<int>, t: Tile)
    requires Listed(where, result, SectorX(t.x), SectorY(t.y), 2, -1)
    ensures NoDuplicates(result) && forall id :: id in result <==> id in where && Touching(where[id], t)
  {
    forall id
      ensures id in result <==> id in where && Touching(where[id], t)
    {
      assert id in where ==> (Touching(where[id], t) <==> Scanned(where[id], SectorX(t.x), SectorY(t.y), 2, -1));
    }
  }

  /** The bucket at the next offset holds exactly the objects of its sector, none of them listed yet. */
  lemma BucketIsNew(where: map<int, Tile>, cells: seq<set<int>>, result: seq<int>, sx: int, sy: int, dy: int, dx: int)
    requires Tracks(where, cells) && Listed(where, result, sx, sy, dy, dx) && ValidSector(sx + dx, sy + dy)
    ensures 0 <= SectorId(sx + dx, sy + dy) < |cells|
    ensures forall id :: id in cells[SectorId(sx + dx, sy + dy)] ==> id !in result
    ensures forall id ::
              id in cells[SectorId(sx + dx, sy + dy)] <==> id in where && InBlock(where[id], sx + dx, sy + dy)
  {
    forall id
      ensures id in cells[SectorId(sx + dx, sy + dy)] <==> id in where && InBlock(where[id], sx + dx, sy + dy)
    {
      BucketHas(where, cells, sx + dx, sy + dy, id);
    }
    forall id | id in where && InBlock(where[id], sx + dx, sy + dy)
      ensures id !in result
    {
      assert !Scanned(where[id], sx, sy, dy, dx);
    }
  }

  ghost predicate InBlock(t: Tile, sx: int, sy: int) {
    SectorX(t.x) == sx && SectorY(t.y) == sy
  }

  lemma SectorOfBlock(t: Tile, sx: int, sy: int)
    requires InWorld(t)
    ensures InBlock(t, sx, sy) ==> ValidSector(sx, sy)
    ensures ValidSector(sx, sy) ==> (SectorOf(t) == SectorId(sx, sy) <==> InBlock(t, sx, sy))
  {
    SectorInRange(t);
    if ValidSector(sx, sy) && SectorOf(t) == SectorId(sx, sy) {
      SectorIdInjective(SectorX(t.x), SectorY(t.y), sx, sy);
    }
  }

  /** What a bucket holds. */
  lemma BucketHas(where: map<int, Tile>, cells: seq<set<int>>, sx: int, sy: int, id: int)
    requires Tracks(where, cells) && ValidSector(sx, sy) && 0 <= SectorId(sx, sy) < |cells|
    ensures id in cells[SectorId(sx, sy)] <==> id in where && InBlock(where[id], sx, sy)
  {
    if id in where {
      SectorOfBlock(where[id], sx, sy);
    }
  }

  /** Sectors off the map hold nothing. */
  lemma NothingOffMap(where: map<int, Tile>, sx: int, sy: int)
    requires (forall id :: id in where ==> InWorld(where[id])) && !ValidSector(sx, sy)
    ensures forall id :: id in where ==> !InBlock(where[id], sx, sy)
  {
    forall id | id in where
      ensures !InBlock(where[id], sx, sy)
    {
      SectorOfBlock(where[id], sx, sy);
    }
  }

  /** Filtering the query by any range up to the sector size gives the brute-force scan. */
  lemma FilteredQueryIsScan(where: map<int, Tile>, t: Tile, result: seq<int>, range: int)
    requires InWorld(t) && (forall id :: id in where ==> InWorld(where[id])) && range <= SECTOR_SIZE
    requires forall id :: id in result <==> id in where && Touching(where[id], t)
    ensures (set id | id in result && Within(where[id], t, range)) ==
            (set id | id in where && Within(where[id], t, range))
  {
    var seen := set id | id in result && Within(where[id], t, range);
    var near := set id | id in where && Within(where[id], t, range);
    forall id | id in near
      ensures id in seen
    {
      WithinSectorSizeTouches(where[id], t);
    }
    forall id | id in seen
      ensures id in near
    {
    }
  }

  /** Beyond the sector size the query does miss objects: two sectors over, twelve tiles away. */
  lemma QueryMissesAtTwelve()
    ensures exists where: map<int, Tile>, t ::
              InWorld(t) && 0 in where && InWorld(where[0]) && Within(where[0], t, 12) && !Touching(where[0], t)
  {
    var where := map[0 := Tile(22, 0)];
    assert Within(where[0], Tile(10, 0), 12) && !Touching(where[0], Tile(10, 0));
  }
}
