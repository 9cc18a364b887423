/**
 The obstacle map. The server paints rectangles into a bitmap and writes them to a file; the client
 reads the file. Both must agree on every tile of the world.
 */
module ObstacleMap {
  import opened Board
  import Framing

  type Byte = Framing.Byte

  datatype Rect = Rect(x: int, y: int, w: int, h: int, kind: int)

  predicate Covers(r: Rect, t: Tile) {
    r.x <= t.x < r.x + r.w && r.y <= t.y < r.y + r.h
  }

  predicate Covered(rects: seq<Rect>, t: Tile) {
    exists i :: 0 <= i < |rects| && Covers(rects[i], t)
  }

  // ---- painting ----

  function Cell(t: Tile): (i: int)
    requires InWorld(t)
    ensures 0 <= i < WORLD_WIDTH * WORLD_HEIGHT
  {
    t.y * WORLD_WIDTH + t.x
  }

  /** The first `n` tiles of row `dy` of the rectangle. */
  predicate InRow(r: Rect, dy: int, n: int, t: Tile) {
    t.y == r.y + dy && r.x <= t.x < r.x + n
  }

  method PaintRow(bitmap: array<bool>, r: Rect, dy: int)
    requires bitmap.Length == WORLD_WIDTH * WORLD_HEIGHT
    modifies bitmap
    ensures forall t {:trigger Cell(t)} :: InWorld(t) ==>
              (bitmap[Cell(t)] <==> old(bitmap[Cell(t)]) || InRow(r, dy, r.w, t))
  {
    var dx := 0;
    while dx < r.w
      invariant forall t {:trigger Cell(t)} :: InWorld(t) ==>
                  (bitmap[Cell(t)] <==> old(bitmap[Cell(t)]) || InRow(r, dy, dx, t))
      invariant 0 <= dx <= Max(r.w, 0)
    {
      var tx, ty := r.x + dx, r.y + dy;
      if tx >= 0 && tx < WORLD_WIDTH && ty >= 0 && ty < WORLD_HEIGHT {
        assert Cell(Tile(tx, ty)) == ty * WORLD_WIDTH + tx;
        bitmap[ty * WORLD_WIDTH + tx] := true;
      }
      dx := dx + 1;
    }
  }

  method Paint(bitmap: array<bool>, r: Rect)
    requires bitmap.Length == WORLD_WIDTH * WORLD_HEIGHT
    modifies bitmap
    ensures forall t {:trigger Cell(t)} :: InWorld(t) ==> (bitmap[Cell(t)] <==> old(bitmap[Cell(t)]) || Covers(r, t))
  {
    var dy := 0;
    while dy < r.h
      invariant forall t {:trigger Cell(t)} :: InWorld(t) ==>
                  (bitmap[Cell(t)] <==> old(bitmap[Cell(t)]) || (Covers(r, t) && t.y < r.y + dy))
      invariant dy >= 0
    {
      PaintRow(bitmap, r, dy);
      dy := dy + 1;
    }
  }

  /** load_obstacles: a cell is set exactly if some rectangle covers its tile. */
  method LoadObstacles(rects: seq<Rect>) returns (bitmap: array<bool>)
    ensures fresh(bitmap) && bitmap.Length == WORLD_WIDTH * WORLD_HEIGHT
    ensures forall t {:trigger Cell(t)} :: InWorld(t) ==> (bitmap[Cell(t)] <==> Covered(rects, t))
    ensures forall t :: IsObstacle(bitmap[..], t) <==> !InWorld(t) || Covered(rects, t)
  {
    bitmap := new bool[WORLD_WIDTH * WORLD_HEIGHT](_ => false);
    for i := 0 to |rects|
      invariant forall t {:trigger Cell(t)} :: InWorld(t) ==> (bitmap[Cell(t)] <==> Covered(rects[..i], t))
    {
      Paint(bitmap, rects[i]);
      assert rects[..i + 1] == rects[..i] + [rects[i]];
      forall t {:trigger Cell(t)} | InWorld(t)
        ensures Covered(rects[..i + 1], t) <==> Covered(rects[..i], t) || Covers(rects[i], t)
      {
        CoveredOneMore(rects[..i], rects[i], t);
      }
    }
    assert rects[..|rects|] == rects;
    forall t
      ensures IsObstacle(bitmap[..], t) <==> !InWorld(t) || Covered(rects, t)
    {
      assert InWorld(t) ==> bitmap[..][Cell(t)] == bitmap[Cell(t)];
    }
  }

  lemma CoveredOneMore(rects: seq<Rect>, r: Rect, t: Tile)
    ensures Covered(rects + [r], t) <==> Covered(rects, t) || Covers(r, t)
  {
    var more := rects + [r];
    if Covered(rects, t) {
      var i :| 0 <= i < |rects| && Covers(rects[i], t);
      assert more[i] == rects[i];
    }
    if Covers(r, t) {
      assert more[|rects|] == r;
    }
  }

  // ---- numbers in the file: little-endian, two's complement ----

  function Wrap16(v: int): int {
    (v + 0x8000) % 0x1_0000 - 0x8000
  }

  predicate Fits16(v: int) { -0x8000 <= v < 0x8000 }

  function Bytes16(v: int): (b: seq<Byte>)
    ensures |b| == 2
  {
    var u := v % 0x1_0000;
    [u % 256, u / 256]
  }

  function Int16(b0: Byte, b1: Byte): int {
    var u := b0 + 256 * b1;
    if u >= 0x8000 then u - 0x1_0000 else u
  }

  lemma Int16Back(v: int)
    ensures var b := Bytes16(v); Int16(b[0], b[1]) == Wrap16(v)
    ensures Wrap16(v) == v <==> Fits16(v)
  {
  }

  function Bytes32(v: int): (b: seq<Byte>)
    ensures |b| == 4
  {
    var u := v % 0x1_0000_0000;
    [u % 256, u / 256 % 256, u / 256 / 256 % 256, u / 256 / 256 / 256]
  }

  function Int32(b0: Byte, b1: Byte, b2: Byte, b3: Byte): int {
    var u := b0 + 256 * (b1 + 256 * (b2 + 256 * b3));
    if u >= 0x8000_0000 then u - 0x1_0000_0000 else u
  }

  lemma Int32Back(v: nat)
    ensures var b := Bytes32(v); var n := Int32(b[0], b[1], b[2], b[3]);
      n <= v && (n == v <==> v < 0x8000_0000)
  {
  }

  // ---- writing ----

  const MAGIC_V2: seq<Byte> := [79, 66, 83, 50]
  const MAGIC_V1: seq<Byte> := [79, 66, 83, 49]
  const HEADER: int := 8

  /** One record; files of the first version have no kind. */
  function Record(r: Rect, v2: bool): (b: seq<Byte>)
    ensures |b| == if v2 then 10 else 8
  {
    Bytes16(r.x) + Bytes16(r.y) + Bytes16(r.w) + Bytes16(r.h) + if v2 then Bytes16(r.kind) else []
  }

  ghost function Body(rects: seq<Rect>, v2: bool): (b: seq<Byte>)
    ensures |b| == if v2 then 10 * |rects| else 8 * |rects|
  {
    if rects == [] then [] else Body(rects[..|rects| - 1], v2) + Record(rects[|rects| - 1], v2)
  }

  /** A file of either version; the server writes the second. */
  ghost function Encoded(rects: seq<Rect>, v2: bool): seq<Byte> {
    (if v2 then MAGIC_V2 else MAGIC_V1) + Bytes32(|rects|) + Body(rects, v2)
  }

  /** write_obstacle_bin */
  method WriteObstacleBin(rects: seq<Rect>) returns (bytes: seq<Byte>)
    ensures bytes == Encoded(rects, true)
  {
    bytes := MAGIC_V2 + Bytes32(|rects|);
    for i := 0 to |rects|
      invariant bytes == MAGIC_V2 + Bytes32(|rects|) + Body(rects[..i], true)
    {
      assert rects[..i + 1][..i] == rects[..i];
      bytes := bytes + Record(rects[i], true);
    }
    assert rects[..|rects|] == rects;
  }

  // ---- reading ----

  /** Undefined: the file is shorter than its header says, or the count is negative. */
  datatype File = NotOurs | Loaded(rects: seq<Rect>) | Undefined

  function RectAt(bytes: seq<Byte>, off: nat, v2: bool): Rect
    requires off + (if v2 then 10 else 8) <= |bytes|
  {
    Rect(Int16(bytes[off], bytes[off + 1]), Int16(bytes[off + 2], bytes[off + 3]),
         Int16(bytes[off + 4], bytes[off + 5]), Int16(bytes[off + 6], bytes[off + 7]),
         if v2 then Int16(bytes[off + 8], bytes[off + 9]) else 0)
  }

  /** Where record `i` starts. */
  function Offset(i: nat, v2: bool): nat {
    if v2 then HEADER + 10 * i else HEADER + 8 * i
  }

  ghost function Decoded(bytes: seq<Byte>): File {
    if |bytes| < 4 then Undefined
    else if bytes[..4] != MAGIC_V2 && bytes[..4] != MAGIC_V1 then NotOurs
    else if |bytes| < HEADER then Undefined
    else
      var v2, n := bytes[..4] == MAGIC_V2, Int32(bytes[4], bytes[5], bytes[6], bytes[7]);
      if n < 0 || |bytes| < Offset(n, v2) then Undefined
      else Loaded(seq(n, i requires 0 <= i < n => RectAt(bytes, Offset(i, v2), v2)))
  }

  /** load_obstacles_bin, for files that open */
  method LoadObstaclesBin(bytes: seq<Byte>) returns (file: File)
    ensures file == Decoded(bytes)
  {
    if |bytes| < 4 {
      return Undefined;
    }
    var v2, v1 := bytes[..4] == MAGIC_V2, bytes[..4] == MAGIC_V1;
    if !v2 && !v1 {
      return NotOurs;
    }
    if |bytes| < HEADER {
      return Undefined;
    }
    var n := Int32(bytes[4], bytes[5], bytes[6], bytes[7]);
    if n < 0 || |bytes| < Offset(n, v2) {
      return Undefined;
    }
    var rects := [];
    for i := 0 to n
      invariant |rects| == i
      invariant forall k :: 0 <= k < i ==> rects[k] == RectAt(bytes, Offset(k, v2), v2)
    {
      rects := rects + [RectAt(bytes, Offset(i, v2), v2)];
    }
    file := Loaded(rects);
  }

  // ---- the round trip ----

  /** What is left of a rectangle in a file of the given version. */
  function Kept(r: Rect, v2: bool): Rect {
    Rect(Wrap16(r.x), Wrap16(r.y), Wrap16(r.w), Wrap16(r.h), if v2 then Wrap16(r.kind) else 0)
  }

  predicate FitsRect(r: Rect) {
    Fits16(r.x) && Fits16(r.y) && Fits16(r.w) && Fits16(r.h) && Fits16(r.kind)
  }

  lemma RecordBack(r: Rect, v2: bool)
    ensures RectAt(Record(r, v2), 0, v2) == Kept(r, v2)
    ensures Kept(r, true) == r <==> FitsRect(r)
  {
    Int16Back(r.x);
    Int16Back(r.y);
    Int16Back(r.w);
    Int16Back(r.h);
    Int16Back(r.kind);
  }

  /** The bytes of record `i` within the body. */
  ghost function Slice(body: seq<Byte>, i: nat, v2: bool): seq<Byte>
    requires if v2 then 10 * i + 10 <= |body| else 8 * i + 8 <= |body|
  {
    if v2 then body[10 * i..10 * i + 10] else body[8 * i..8 * i + 8]
  }

  lemma {:induction false} BodySlice(rects: seq<Rect>, i: nat, v2: bool)
    requires i < |rects|
    ensures Slice(Body(rects, v2), i, v2) == Record(rects[i], v2)
    decreases |rects|
  {
    var k := |rects| - 1;
    SliceOfSum(Body(rects[..k], v2), Record(rects[k], v2), k, i, v2);
    if i < k {
      BodySlice(rects[..k], i, v2);
    }
  }

  lemma SliceOfSum(body: seq<Byte>, record: seq<Byte>, k: nat, i: nat, v2: bool)
    requires i <= k && |body| == (if v2 then 10 * k else 8 * k) && |record| == if v2 then 10 else 8
    ensures Slice(body + record, i, v2) == if i < k then Slice(body, i, v2) else record
  {
    var n := if v2 then 10 else 8;
    assert |body| == n * k;
    if i < k {
      assert n * i + n <= n * k;
      assert (body + record)[n * i..n * i + n] == body[n * i..n * i + n];
    } else {
      assert (body + record)[n * i..n * i + n] == record;
    }
  }

  lemma RecordInFile(rects: seq<Rect>, i: nat, v2: bool)
    requires i < |rects|
    ensures |Encoded(rects, v2)| == Offset(|rects|, v2)
    ensures Offset(i, v2) + |Record(rects[i], v2)| <= |Encoded(rects, v2)|
    ensures Encoded(rects, v2)[Offset(i, v2)..Offset(i, v2) + |Record(rects[i], v2)|] == Record(rects[i], v2)
  {
    BodySlice(rects, i, v2);
    BehindHeader((if v2 then MAGIC_V2 else MAGIC_V1) + Bytes32(|rects|), Body(rects, v2), i, v2);
  }

  lemma BehindHeader(header: seq<Byte>, body: seq<Byte>, i: nat, v2: bool)
    requires |header| == HEADER && if v2 then 10 * i + 10 <= |body| else 8 * i + 8 <= |body|
    ensures Offset(i, v2) + (if v2 then 10 else 8) <= |header + body|
    ensures (header + body)[Offset(i, v2)..Offset(i, v2) + if v2 then 10 else 8] == Slice(body, i, v2)
  {
    var n := if v2 then 10 else 8;
    assert (header + body)[HEADER + n * i..HEADER + n * i + n] == body[n * i..n * i + n];
  }

  /** The record at its place in the file reads back as what was kept of the rectangle. */
  lemma ReadsBack(rects: seq<Rect>, i: nat, v2: bool)
    requires i < |rects|
    ensures |Encoded(rects, v2)| == Offset(|rects|, v2)
    ensures Offset(i, v2) + |Record(rects[i], v2)| <= |Encoded(rects, v2)|
    ensures RectAt(Encoded(rects, v2), Offset(i, v2), v2) == Kept(rects[i], v2)
  {
    RecordInFile(rects, i, v2);
    SameRecord(Encoded(rects, v2), Offset(i, v2), Record(rects[i], v2), v2);
    RecordBack(rects[i], v2);
  }

  lemma SameRecord(bytes: seq<Byte>, off: nat, record: seq<Byte>, v2: bool)
    requires |record| == (if v2 then 10 else 8) && off + |record| <= |bytes| && bytes[off..off + |record|] == record
    ensures RectAt(bytes, off, v2) == RectAt(record, 0, v2)
  {
    forall k | 0 <= k < |record|
      ensures bytes[off + k] == record[k]
    {
      assert bytes[off..off + |record|][k] == bytes[off + k];
    }
  }

  /** The list the client gets out of a file with these rectangles. */
  ghost function Received(rects: seq<Rect>, v2: bool): (back: seq<Rect>)
    ensures |back| == |rects|
  {
    seq(|rects|, i requires 0 <= i < |rects| => Kept(rects[i], v2))
  }

  /** What the client reads of a file of either version: every field wrapped to 16 bits, and no kinds in the first. */
  lemma DecodedEncoded(rects: seq<Rect>, v2: bool)
    requires |rects| < 0x8000_0000
    ensures Decoded(Encoded(rects, v2)) == Loaded(Received(rects, v2))
  {
    var bytes := Encoded(rects, v2);
    HeaderBack(rects, v2);
    Int32Back(|rects|);
    forall i | 0 <= i < |rects|
      ensures Offset(i, v2) + (if v2 then 10 else 8) <= |bytes|
      ensures RectAt(bytes, Offset(i, v2), v2) == Kept(rects[i], v2)
    {
      ReadsBack(rects, i, v2);
    }
  }

  lemma HeaderBack(rects: seq<Rect>, v2: bool)
    ensures var bytes := Encoded(rects, v2);
      && |bytes| == Offset(|rects|, v2) && bytes[..4] == (if v2 then MAGIC_V2 else MAGIC_V1)
      && forall k :: 0 <= k < 4 ==> bytes[4 + k] == Bytes32(|rects|)[k]
    ensures MAGIC_V1 != MAGIC_V2
  {
    var bytes := Encoded(rects, v2);
    assert bytes[4..8] == Bytes32(|rects|);
    assert forall k :: 0 <= k < 4 ==> bytes[4 + k] == bytes[4..8][k];
    assert MAGIC_V1[3] != MAGIC_V2[3];
  }

  /** The file gives the same list back exactly if every field fits in 16 bits and the count in 31. */
  lemma RoundTripExactly(rects: seq<Rect>)
    ensures Decoded(Encoded(rects, true)) == Loaded(rects) <==>
              |rects| < 0x8000_0000 && forall i :: 0 <= i < |rects| ==> FitsRect(rects[i])
  {
    if |rects| < 0x8000_0000 {
      DecodedEncoded(rects, true);
      var back := Received(rects, true);
      forall i | 0 <= i < |rects|
        ensures back[i] == rects[i] <==> FitsRect(rects[i])
      {
        RecordBack(rects[i], true);
      }
      assert back == rects <==> forall i :: 0 <= i < |rects| ==> back[i] == rects[i];
    } else {
      CountTooLarge(rects);
    }
  }

  lemma CountTooLarge(rects: seq<Rect>)
    requires |rects| >= 0x8000_0000
    ensures Decoded(Encoded(rects, true)) != Loaded(rects)
  {
    HeaderBack(rects, true);
    Int32Back(|rects|);
  }

  /** A file of the first version gives everything back but the kinds, exactly if the fields it has fit. */
  lemma OldRoundTripExactly(rects: seq<Rect>)
    requires |rects| < 0x8000_0000
    ensures Decoded(Encoded(rects, false)) == Loaded(Received(rects, false))
    ensures (forall i :: 0 <= i < |rects| ==> Received(rects, false)[i] == rects[i].(kind := 0)) <==>
            forall i :: 0 <= i < |rects| ==> FitsRect(rects[i].(kind := 0))
  {
    DecodedEncoded(rects, false);
    forall i | 0 <= i < |rects|
      ensures Kept(rects[i], false) == rects[i].(kind := 0) <==> FitsRect(rects[i].(kind := 0))
    {
      RecordBack(rects[i].(kind := 0), true);
      assert Kept(rects[i].(kind := 0), true) == Kept(rects[i], false);
    }
  }

  // ---- server and client agree ----

  /** The part of a rectangle inside the world, as a canonical rectangle. */
  function Visible(r: Rect): Rect {
    var x0, x1 := Max(r.x, 0), Min(r.x + r.w, WORLD_WIDTH);
    var y0, y1 := Max(r.y, 0), Min(r.y + r.h, WORLD_HEIGHT);
    if x0 < x1 && y0 < y1 then Rect(x0, y0, x1 - x0, y1 - y0, 0) else Rect(0, 0, 0, 0, 0)
  }

  /** On every tile of the world the client's rectangles say the same as the server's. */
  ghost predicate Agree(ours: seq<Rect>, theirs: seq<Rect>) {
    forall t :: InWorld(t) ==> (Covered(ours, t) <==> Covered(theirs, t))
  }

  lemma CoversVisible(r: Rect, t: Tile)
    requires InWorld(t)
    ensures Covers(r, t) <==> Covers(Visible(r), t)
  {
  }

  /** Two rectangles cover the same tiles of the world exactly if their visible parts are the same. */
  lemma SameTilesExactly(r: Rect, s: Rect)
    ensures (forall t :: InWorld(t) ==> (Covers(r, t) <==> Covers(s, t))) <==> Visible(r) == Visible(s)
  {
    var a, b := Visible(r), Visible(s);
    if a == b {
      forall t | InWorld(t)
        ensures Covers(r, t) <==> Covers(s, t)
      {
        CoversVisible(r, t);
        CoversVisible(s, t);
      }
    } else {
      var t := Difference(r, s);
    }
  }

  /** A tile of the world that only one of two rectangles with different visible parts covers. */
  lemma Difference(r: Rect, s: Rect) returns (t: Tile)
    requires Visible(r) != Visible(s)
    ensures InWorld(t) && Covers(r, t) != Covers(s, t)
  {
    var a, b := Visible(r), Visible(s);
    // one of the four corners of one rectangle is outside the other one
    t := if a.w > 0 && !Covers(b, Tile(a.x, a.y)) then Tile(a.x, a.y)
         else if a.w > 0 && !Covers(b, Tile(a.x + a.w - 1, a.y + a.h - 1)) then Tile(a.x + a.w - 1, a.y + a.h - 1)
         else if b.w > 0 && !Covers(a, Tile(b.x, b.y)) then Tile(b.x, b.y)
         else Tile(b.x + b.w - 1, b.y + b.h - 1);
    CoversVisible(r, t);
    CoversVisible(s, t);
  }

  lemma OneRectangle(r: Rect, t: Tile)
    ensures Covered([r], t) <==> Covers(r, t)
  {
    assert [r][0] == r;
  }

  /** If every rectangle keeps its visible part, the whole lists agree. */
  lemma AgreeByPieces(rects: seq<Rect>)
    requires forall i :: 0 <= i < |rects| ==> Visible(Kept(rects[i], true)) == Visible(rects[i])
    ensures Agree(rects, Received(rects, true))
  {
    var back := Received(rects, true);
    forall t | InWorld(t)
      ensures Covered(rects, t) <==> Covered(back, t)
    {
      forall i | 0 <= i < |rects|
        ensures Covers(rects[i], t) <==> Covers(back[i], t)
      {
        SameTilesExactly(rects[i], back[i]);
      }
    }
  }

  /**
   The exact condition for a supply of rectangles: all maps made of them are the same for server and
   client if and only if none of them changes its visible part when its fields are cut to 16 bits.
   */
  lemma MapsAgreeExactly(supply: set<Rect>)
    ensures (forall rects: seq<Rect> | |rects| < 0x8000_0000 && (forall i :: 0 <= i < |rects| ==> rects[i] in supply) ::
               Agree(rects, Received(rects, true)))
            <==> forall r :: r in supply ==> Visible(Kept(r, true)) == Visible(r)
  {
    if forall r :: r in supply ==> Visible(Kept(r, true)) == Visible(r) {
      forall rects: seq<Rect> | |rects| < 0x8000_0000 && forall i :: 0 <= i < |rects| ==> rects[i] in supply
        ensures Agree(rects, Received(rects, true))
      {
        AgreeByPieces(rects);
      }
    } else {
      var r :| r in supply && Visible(Kept(r, true)) != Visible(r);
      var t := Difference(r, Kept(r, true));
      OneRectangle(r, t);
      OneRectangle(Kept(r, true), t);
      assert Received([r], true) == [Kept(r, true)];
      assert !Agree([r], Received([r], true));
    }
  }

  /** Fields that fit are cut to themselves; but a rectangle need not fit to agree, nor disagree if it does not. */
  lemma FittingKeepsVisible(r: Rect)
    requires FitsRect(r)
    ensures Visible(Kept(r, true)) == Visible(r)
  {
    RecordBack(r, true);
  }

  lemma AgreementWithoutFit(wide: Rect, far: Rect)
    requires wide == Rect(0, 0, 70000, WORLD_HEIGHT, 0) && far == Rect(0x1_0000, 0, 1, 1, 0)
    ensures !FitsRect(wide) && Visible(Kept(wide, true)) == Visible(wide)
    ensures !FitsRect(far) && Visible(Kept(far, true)) != Visible(far)
  {
  }

  /** A rectangle 65536 tiles off the map wraps onto it, but only on the client's side. */
  lemma WideRectangleDiffers(near: Rect, t: Tile)
    requires FitsRect(near) && near.x >= 0 && InWorld(t) && Covers(near, t)
    ensures var far := near.(x := near.x + 0x1_0000);
      !Covered([far], t) && Received([far], true) == [near] && Covered([near], t)
  {
    var far := near.(x := near.x + 0x1_0000);
    RecordBack(near, true);
    WrapShift(near.x);
    assert Kept(far, true) == near;
    OneRectangle(far, t);
    OneRectangle(near, t);
  }

  lemma WrapShift(v: int)
    ensures Wrap16(v + 0x1_0000) == Wrap16(v)
  {
  }

  /** The server loads and publishes the map, the client reads it: they agree on every tile of the world. */
  method Publish(rects: seq<Rect>) returns (bitmap: array<bool>, file: File)
    requires |rects| < 0x8000_0000
    ensures bitmap.Length == WORLD_WIDTH * WORLD_HEIGHT && file == Loaded(Received(rects, true))
    ensures (forall i :: 0 <= i < |rects| ==> Visible(Kept(rects[i], true)) == Visible(rects[i])) ==>
              forall t :: InWorld(t) ==> (Covered(file.rects, t) <==> IsObstacle(bitmap[..], t))
    ensures (forall i :: 0 <= i < |rects| ==> FitsRect(rects[i])) ==> file.rects == rects
  {
    bitmap := LoadObstacles(rects);
    var bytes := WriteObstacleBin(rects);
    DecodedEncoded(rects, true);
    RoundTripExactly(rects);
    file := LoadObstaclesBin(bytes);
    if forall i :: 0 <= i < |rects| ==> Visible(Kept(rects[i], true)) == Visible(rects[i]) {
      AgreeByPieces(rects);
    }
  }
}
