/**
 Packet framing. Every packet starts with its own length; receivers cut the byte stream back into
 packets. `Split` is the reference, and the three receive loops of the repository refine it.
 */
module Framing {
  type Byte = b: int | 0 <= b < 256

  /** Largest packet the server queues, and the size of its receive buffer. */
  const BUF_SIZE: int := 200

  type Packet = seq<Byte>

  predicate WellFormed(p: Packet) {
    1 <= |p| <= BUF_SIZE && p[0] == |p|
  }

  predicate AllWellFormed(ps: seq<Packet>) {
    forall i :: 0 <= i < |ps| ==> WellFormed(ps[i])
  }

  function Flatten(ps: seq<Packet>): seq<Byte> {
    if ps == [] then [] else ps[0] + Flatten(ps[1..])
  }

  // Facts about sequences, kept apart so that each proof below meets only the ones it needs.

  lemma Assoc<T>(a: seq<T>, b: seq<T>, c: seq<T>)
    ensures (a + b) + c == a + (b + c)
  {
  }

  lemma Cut<T>(s: seq<T>, n: nat)
    requires n <= |s|
    ensures s[..n] + s[n..] == s
  {
  }

  lemma CutMiddle<T>(s: seq<T>, i: nat, n: nat)
    requires i + n <= |s|
    ensures s[i..][..n] == s[i..i + n] && s[i..][n..] == s[i + n..] && s[i..i + n] + s[i + n..] == s[i..]
    ensures s[..i] + s[i..i + n] == s[..i + n]
  {
  }

  lemma Empty<T>(s: seq<T>)
    ensures [] + s == s && s + [] == s
  {
  }

  lemma FlattenCons(p: Packet, ps: seq<Packet>)
    ensures Flatten([p] + ps) == p + Flatten(ps)
  {
    assert ([p] + ps)[1..] == ps;
  }

  lemma FlattenOne(p: Packet)
    ensures Flatten([p]) == p
  {
    Empty([p]);
    FlattenCons(p, []);
    Empty(p);
  }

  lemma {:induction false} FlattenAppend(ps: seq<Packet>, qs: seq<Packet>)
    ensures Flatten(ps + qs) == Flatten(ps) + Flatten(qs)
  {
    if ps == [] {
      Empty(qs);
    } else {
      assert (ps + qs)[0] == ps[0] && (ps + qs)[1..] == ps[1..] + qs;
      FlattenAppend(ps[1..], qs);
      Assoc(ps[0], Flatten(ps[1..]), Flatten(qs));
    }
  }

  /** Packets recovered so far and the bytes still waiting for the rest of their packet. */
  datatype Deframed = Deframed(packets: seq<Packet>, rest: seq<Byte>)

  /** Cut whole packets off the front. A zero length byte can never be cut and stops the process. */
  function Split(s: seq<Byte>): Deframed {
    if s == [] || s[0] == 0 || |s| < s[0] then
      Deframed([], s)
    else
      var tail := Split(s[s[0]..]);
      Deframed([s[..s[0]]] + tail.packets, tail.rest)
  }

  /** One more chunk arrives. */
  function Feed(d: Deframed, chunk: seq<Byte>): Deframed {
    var more := Split(d.rest + chunk);
    Deframed(d.packets + more.packets, more.rest)
  }

  function FeedAll(d: Deframed, chunks: seq<seq<Byte>>): Deframed
    decreases |chunks|
  {
    if chunks == [] then d else FeedAll(Feed(d, chunks[0]), chunks[1..])
  }

  /** Nothing is lost, reordered or invented. */
  lemma {:induction false} SplitSound(s: seq<Byte>)
    ensures Flatten(Split(s).packets) + Split(s).rest == s
    decreases |s|
  {
    if s == [] || s[0] == 0 || |s| < s[0] {
    } else {
      var head, tail := s[..s[0]], Split(s[s[0]..]);
      SplitSound(s[s[0]..]);
      FlattenCons(head, tail.packets);
      Assoc(head, Flatten(tail.packets), tail.rest);
      Cut(s, s[0]);
    }
  }

  /** Every recovered packet carries its own length, and what is left over is no whole packet. */
  lemma {:induction false} SplitShapes(s: seq<Byte>)
    ensures forall p :: p in Split(s).packets ==> |p| >= 1 && p[0] == |p|
    ensures var rest := Split(s).rest; rest == [] || rest[0] == 0 || |rest| < rest[0]
    decreases |s|
  {
    if s == [] || s[0] == 0 || |s| < s[0] {
    } else {
      SplitShapes(s[s[0]..]);
    }
  }

  /** Splitting may be done piecemeal. */
  lemma {:induction false} SplitAppend(s: seq<Byte>, more: seq<Byte>)
    ensures Split(s + more) == Feed(Split(s), more)
    decreases |s|
  {
    if s == [] || s[0] == 0 || |s| < s[0] {
      Empty(Split(s + more).packets);
    } else {
      CutAppend(s, more, s[0]);
      SplitAppend(s[s[0]..], more);
      Assoc([s[..s[0]]], Split(s[s[0]..]).packets, Split(Split(s).rest + more).packets);
    }
  }

  lemma CutAt<T>(s: seq<T>, more: seq<T>)
    ensures (s + more)[..|s|] == s && (s + more)[|s|..] == more
  {
  }

  lemma CutAppend<T>(s: seq<T>, more: seq<T>, n: nat)
    requires n <= |s|
    ensures (s + more)[..n] == s[..n] && (s + more)[n..] == s[n..] + more
  {
  }

  /** However the stream is chopped into chunks, the same packets come out. */
  lemma {:induction false} ChunkingIrrelevant(s: seq<Byte>, chunks: seq<seq<Byte>>)
    ensures FeedAll(Split(s), chunks) == Split(s + Flatten(chunks))
    decreases |chunks|
  {
    if chunks == [] {
      Empty(s);
    } else {
      SplitAppend(s, chunks[0]);
      ChunkingIrrelevant(s + chunks[0], chunks[1..]);
      Assoc(s, chunks[0], Flatten(chunks[1..]));
    }
  }

  /** Framing round trip, with an incomplete packet possibly trailing. */
  lemma {:induction false} SplitFlatten(ps: seq<Packet>, tail: seq<Byte>)
    requires AllWellFormed(ps) && (tail == [] || |tail| < tail[0])
    ensures Split(Flatten(ps) + tail) == Deframed(ps, tail)
  {
    if ps == [] {
      Empty(tail);
    } else {
      var p, more := ps[0], Flatten(ps[1..]) + tail;
      Assoc(p, Flatten(ps[1..]), tail);
      SplitFlatten(ps[1..], tail);
      SplitCons(p, more);
      Cut(ps, 1);
    }
  }

  lemma SplitCons(p: Packet, more: seq<Byte>)
    requires WellFormed(p)
    ensures Split(p + more) == Deframed([p] + Split(more).packets, Split(more).rest)
  {
    CutAt(p, more);
  }

  /** From any prefix of a well-formed stream exactly the packets that have fully arrived are cut. */
  lemma {:induction false} SplitPrefix(ps: seq<Packet>, s: seq<Byte>)
    requires AllWellFormed(ps) && s <= Flatten(ps)
    ensures Split(s).packets <= ps
    ensures Split(s).rest == [] || 0 < |Split(s).rest| < Split(s).rest[0] <= BUF_SIZE
    ensures s == Flatten(ps) ==> Split(s) == Deframed(ps, [])
    decreases |ps|
  {
    if s == Flatten(ps) {
      SplitFlatten(ps, []);
      Empty(s);
    } else if s != [] {
      var p := ps[0];
      assert s[0] == p[0];
      if |s| >= |p| {
        PrefixOfAppend(s, p, Flatten(ps[1..]));
        SplitPrefix(ps[1..], s[|p|..]);
        Cut(ps, 1);
      }
    }
  }

  lemma PrefixOfAppend<T>(s: seq<T>, p: seq<T>, q: seq<T>)
    requires s <= p + q && |p| <= |s|
    ensures s[..|p|] == p && s[|p|..] <= q && (s[|p|..] == q ==> s == p + q)
  {
    Cut(s, |p|);
  }

  // ---- the server's receive loop (IO_RECV) ----

  /** The loop meets no zero header, on which it would stay for ever, and leaves room for the next receive. */
  predicate Serviceable(s: seq<Byte>) {
    |Split(s).rest| < BUF_SIZE && (Split(s).rest == [] || Split(s).rest[0] != 0)
  }

  /** With `handled` done and `now` still in the buffer, the receive loop will end in `goal`. */
  ghost predicate Leads(handled: seq<Packet>, now: seq<Byte>, goal: Deframed)
    decreases |now|
  {
    if now == [] || now[0] == 0 || |now| < now[0] then
      goal == Deframed(handled, now)
    else
      Leads(handled + [now[..now[0]]], now[now[0]..], goal)
  }

  lemma {:induction false} LeadsToSplit(handled: seq<Packet>, now: seq<Byte>)
    ensures Leads(handled, now, Deframed(handled + Split(now).packets, Split(now).rest))
    decreases |now|
  {
    if now == [] || now[0] == 0 || |now| < now[0] {
      Empty(handled);
    } else {
      LeadsToSplit(handled + [now[..now[0]]], now[now[0]..]);
      Assoc(handled, [now[..now[0]]], Split(now[now[0]..]).packets);
    }
  }

  lemma LeadsStart(handled: seq<Packet>, stored: seq<Byte>, chunk: seq<Byte>)
    ensures Leads(handled, stored + chunk, Feed(Deframed(handled, stored), chunk))
  {
    LeadsToSplit(handled, stored + chunk);
  }

  lemma LeadsStep(handled: seq<Packet>, now: seq<Byte>, goal: Deframed)
    requires now != [] && 1 <= now[0] <= |now| && Leads(handled, now, goal)
    ensures Leads(handled + [now[..now[0]]], now[now[0]..], goal)
  {
  }

  lemma LeadsDone(handled: seq<Packet>, now: seq<Byte>, goal: Deframed)
    requires now == [] || now[0] == 0 || |now| < now[0]
    requires Leads(handled, now, goal)
    ensures goal == Deframed(handled, now)
  {
  }

  /** One packet cut out of the middle of a buffer. */
  lemma LeadsPacket(handled: seq<Packet>, all: seq<Byte>, p: nat, size: nat, end: nat, goal: Deframed)
    requires p < p + size <= end <= |all| && all[p] == size
    requires Leads(handled, all[p..end], goal)
    ensures Leads(handled + [all[p..p + size]], all[p + size..end], goal)
  {
    var now := all[p..end];
    LeadsStep(handled, now, goal);
    assert now[..size] == all[p..p + size] && now[size..] == all[p + size..end];
  }

  /** The kernel's write behind the stored bytes. */
  method Receive(buffer: array<Byte>, at: int, chunk: seq<Byte>)
    requires 0 <= at && at + |chunk| <= buffer.Length
    modifies buffer
    ensures buffer[..at + |chunk|] == old(buffer[..at]) + chunk
  {
    forall i | 0 <= i < |chunk| {
      buffer[at + i] := chunk[i];
    }
  }

  /** memmove of the leftover to the front. */
  method Compact(buffer: array<Byte>, from: int, count: int)
    requires 0 <= from && 0 <= count && from + count <= buffer.Length
    modifies buffer
    ensures buffer[..count] == old(buffer[from..from + count])
  {
    forall i | 0 <= i < count {
      buffer[i] := buffer[from + i];
    }
  }

  /** A zero header would stay at the front of the leftover. */
  lemma NonZeroHeader(handled: seq<Packet>, all: seq<Byte>, p: nat, end: nat, goal: Deframed)
    requires p < end <= |all| && Leads(handled, all[p..end], goal)
    requires goal.rest == [] || goal.rest[0] != 0
    ensures all[p] != 0
  {
    var now := all[p..end];
    if now[0] == 0 {
      LeadsDone(handled, now, goal);
    }
  }

  class ServerReceiver {
    const buff: array<Byte>
    var prevRecv: int
    /** Packets handed to process_packet, oldest first. */
    var handled: seq<Packet>

    ghost predicate Valid()
      reads this, buff
    {
      buff.Length == BUF_SIZE && 0 <= prevRecv < BUF_SIZE
    }

    function Stored(): seq<Byte>
      requires Valid()
      reads this, buff
    {
      buff[..prevRecv]
    }

    constructor ()
      ensures Valid() && Stored() == [] && handled == []
    {
      buff := new Byte[BUF_SIZE](_ => 0);
      prevRecv, handled := 0, [];
    }

    /** The room do_recv offers the socket; Valid() keeps it from ever being empty. */
    function Window(): (room: int)
      requires Valid()
      reads this, buff
      ensures 1 <= room <= BUF_SIZE
    {
      BUF_SIZE - prevRecv
    }

    /** The completion of a receive that put `chunk` behind the stored bytes. */
    method OnRecv(chunk: seq<Byte>)
      requires Valid() && 1 <= |chunk| <= Window()
      requires Serviceable(Stored() + chunk)
      modifies this, buff
      ensures Valid()
      ensures Deframed(handled, Stored()) == Feed(Deframed(old(handled), old(Stored())), chunk)
    {
      ghost var goal := Feed(Deframed(handled, Stored()), chunk);
      LeadsStart(handled, Stored(), chunk);
      Receive(buff, prevRecv, chunk);
      var p, dataSize := HandlePackets(|chunk| + prevRecv, goal);
      if dataSize > 0 {
        Compact(buff, p, dataSize);
        prevRecv := dataSize;
      } else {
        prevRecv := 0;
      }
    }

    /** The loop over the packets that are complete. */
    method HandlePackets(filled: nat, ghost goal: Deframed) returns (p: nat, dataSize: nat)
      requires buff.Length == BUF_SIZE && filled <= BUF_SIZE && Leads(handled, buff[..filled], goal)
      requires goal.rest == [] || goal.rest[0] != 0
      modifies this`handled
      ensures p + dataSize <= BUF_SIZE && goal == Deframed(handled, buff[p..p + dataSize])
    {
      p, dataSize := 0, filled;
      ghost var all, end := buff[..], filled;
      assert all[p..end] == buff[..filled];
      while dataSize > 0
        invariant buff[..] == all && |all| == BUF_SIZE
        invariant p <= end <= BUF_SIZE && p + dataSize == end
        invariant Leads(handled, all[p..end], goal)
        decreases dataSize
      {
        var packetSize: int := buff[p];
        assert packetSize == all[p];
        if packetSize > dataSize {
          break;
        }
        NonZeroHeader(handled, all, p, end, goal);
        LeadsPacket(handled, all, p, packetSize, end, goal);
        assert buff[p..p + packetSize] == all[p..p + packetSize];
        handled := handled + [buff[p..p + packetSize]];
        p := p + packetSize;
        dataSize := dataSize - packetSize;
      }
      LeadsDone(handled, all[p..end], goal);
      assert buff[p..p + dataSize] == all[p..end];
    }

    /** One receive of a size of the socket's choosing, at least one byte and at most the window. */
    method PumpOnce(stream: seq<Byte>, ghost ps: seq<Packet>, taken: nat, size: nat) returns (taken': nat)
      requires Valid() && taken < |stream| && Deframed(handled, Stored()) == Split(stream[..taken])
      requires AllWellFormed(ps) && stream <= Flatten(ps)
      modifies this, buff
      ensures Valid() && taken < taken' <= |stream| && Deframed(handled, Stored()) == Split(stream[..taken'])
    {
      var room := if Window() < |stream| - taken then Window() else |stream| - taken;
      var n := 1 + size % room;
      taken' := taken + n;
      CutMiddle(stream, taken, n);
      SplitAppend(stream[..taken], stream[taken..taken']);
      SplitPrefix(ps, stream[..taken']);
      OnRecv(stream[taken..taken']);
    }

    /**
     After any sequence of receives the server has handled exactly the packets that arrived whole. It
     never runs out of room, so enough receives drain the whole stream.
     */
    method Pump(stream: seq<Byte>, ghost ps: seq<Packet>, sizes: seq<nat>) returns (taken: nat)
      requires Valid() && Stored() == [] && handled == []
      requires AllWellFormed(ps) && stream <= Flatten(ps)
      modifies this, buff
      ensures Valid() && taken <= |stream|
      ensures Deframed(handled, Stored()) == Split(stream[..taken]) && handled <= ps
      ensures |stream| <= |sizes| ==> taken == |stream|
    {
      taken := 0;
      for k := 0 to |sizes|
        invariant Valid() && taken <= |stream| && (taken == |stream| || k <= taken)
        invariant Deframed(handled, Stored()) == Split(stream[..taken])
      {
        if taken < |stream| {
          taken := PumpOnce(stream, ps, taken, sizes[k]);
        }
      }
      SplitPrefix(ps, stream[..taken]);
    }
  }

  // ---- the game client's receive loop ----

  /** Shift the buffer down over a packet that has just been handled. */
  method DropPacket(buffer: array<Byte>, stored: nat, size: nat, ghost handled: seq<Packet>, ghost goal: Deframed)
    requires 1 <= size <= stored <= buffer.Length && size == buffer[0]
    requires Leads(handled, buffer[..stored], goal)
    modifies buffer
    ensures Leads(handled + [old(buffer[..size])], buffer[..stored - size], goal)
  {
    ghost var now := buffer[..stored];
    LeadsStep(handled, now, goal);
    assert now[..size] == buffer[..size] && now[size..] == buffer[size..size + (stored - size)];
    Compact(buffer, size, stored - size);
  }

  class ClientReceiver {
    const buf: array<Byte>
    var stored: int
    var handled: seq<Packet>

    ghost predicate Valid()
      reads this, buf
    {
      buf.Length == 4096 && 0 <= stored < 4096
    }

    function Stored(): seq<Byte>
      requires Valid()
      reads this, buf
    {
      buf[..stored]
    }

    constructor ()
      ensures Valid() && Stored() == [] && handled == []
    {
      buf := new Byte[4096](_ => 0);
      stored, handled := 0, [];
    }

    /** One successful recv; the client copes with any bytes whose leftover is shorter than its buffer. */
    method OnRecv(chunk: seq<Byte>)
      requires Valid() && 1 <= |chunk| <= 4096 - stored
      requires |Split(Stored() + chunk).rest| < 4096
      modifies this, buf
      ensures Valid()
      ensures Deframed(handled, Stored()) == Feed(Deframed(old(handled), old(Stored())), chunk)
    {
      ghost var goal := Feed(Deframed(handled, Stored()), chunk);
      LeadsStart(handled, Stored(), chunk);
      Receive(buf, stored, chunk);
      stored := stored + |chunk|;
      while stored > 0
        invariant 0 <= stored <= 4096
        invariant Leads(handled, buf[..stored], goal)
        decreases stored
      {
        var size: int := buf[0];
        if size == 0 || stored < size {
          break;
        }
        ghost var before := handled;
        handled := handled + [buf[..size]];
        DropPacket(buf, stored, size, before, goal);
        stored := stored - size;
      }
      assert stored > 0 ==> buf[..stored][0] == buf[0];
      LeadsDone(handled, buf[..stored], goal);
    }
  }

  // ---- the stress client's carry-over buffer ----

  const MAX_PACKET_SIZE: int := 255

  /** A carried fragment is non-empty exactly when its packet's size is known, and never complete. */
  ghost predicate CarryOk(buffer: seq<Byte>, size: int, carried: int) {
    && |buffer| == MAX_PACKET_SIZE && 0 <= carried <= MAX_PACKET_SIZE
    && (carried == 0 ==> size == 0)
    && (carried > 0 ==> size == buffer[0] && carried < size)
  }

  lemma NothingCarried<T>(none: seq<T>, input: seq<T>)
    requires none == []
    ensures input == none + input && (input == [] ==> input == none)
  {
  }

  /** The packet completed by the front of a chunk, and what the chunk keeps for later. */
  lemma CarriedCut<T>(carried: seq<T>, chunk: seq<T>, at: nat, size: nat)
    requires at <= |chunk| && |carried| <= size <= |carried| + |chunk| - at
    ensures (carried + chunk[at..])[..size] == carried + chunk[at..at + (size - |carried|)]
    ensures (carried + chunk[at..])[size..] == chunk[at + (size - |carried|)..]
  {
  }

  lemma LeadsCarried(handled: seq<Packet>, waiting: seq<Byte>, carried: seq<Byte>, chunk: seq<Byte>,
                     at: nat, size: nat, take: nat, goal: Deframed)
    requires at < |chunk| && 1 <= size && |carried| < size <= |carried| + |chunk| - at && take == size - |carried|
    requires waiting == carried + chunk[at..] && size == waiting[0]
    requires Leads(handled, waiting, goal)
    ensures Leads(handled + [carried + chunk[at..at + take]], chunk[at + take..], goal)
  {
    CarriedCut(carried, chunk, at, size);
    LeadsStep(handled, waiting, goal);
  }

  class StressReceiver {
    const packetBuf: array<Byte>
    var currPacketSize: int
    var prevPacketData: int
    var handled: seq<Packet>

    ghost predicate Valid()
      reads this, packetBuf
    {
      packetBuf.Length == MAX_PACKET_SIZE && CarryOk(packetBuf[..], currPacketSize, prevPacketData)
    }

    function Stored(): seq<Byte>
      requires Valid()
      reads this, packetBuf
    {
      packetBuf[..prevPacketData]
    }

    constructor ()
      ensures Valid() && Stored() == [] && handled == []
    {
      packetBuf := new Byte[MAX_PACKET_SIZE](_ => 0);
      currPacketSize, prevPacketData, handled := 0, 0, [];
    }

    method OnRecv(chunk: seq<Byte>)
      requires Valid() && 1 <= |chunk| <= MAX_PACKET_SIZE
      requires var rest := Split(Stored() + chunk).rest; rest == [] || rest[0] != 0
      modifies this, packetBuf
      ensures Valid()
      ensures Deframed(handled, Stored()) == Feed(Deframed(old(handled), old(Stored())), chunk)
    {
      ghost var goal := Feed(Deframed(handled, Stored()), chunk);
      LeadsStart(handled, Stored(), chunk);
      var psize, prSize, buf := currPacketSize, prevPacketData, 0;
      ghost var waiting := Stored() + chunk;
      while buf < |chunk|
        invariant 0 <= buf <= |chunk| && CarryOk(packetBuf[..], psize, prSize)
        invariant Waiting(packetBuf[..], prSize, chunk, buf, waiting)
        invariant Leads(handled, waiting, goal)
      {
        psize, prSize, buf, waiting := Absorb(chunk, psize, prSize, buf, waiting, goal);
      }
      assert packetBuf[..][..prSize] == packetBuf[..prSize];
      LeadsDone(handled, waiting, goal);
      currPacketSize, prevPacketData := psize, prSize;
    }

    /** One pass of the receive loop: complete a packet, or carry the rest of the chunk over. */
    method Absorb(chunk: seq<Byte>, psize0: int, prSize0: nat, buf0: nat,
                  ghost waiting: seq<Byte>, ghost goal: Deframed)
        returns (psize: int, prSize: nat, buf: nat, ghost waiting': seq<Byte>)
      requires buf0 < |chunk| && CarryOk(packetBuf[..], psize0, prSize0)
      requires Waiting(packetBuf[..], prSize0, chunk, buf0, waiting) && Leads(handled, waiting, goal)
      requires goal.rest == [] || goal.rest[0] != 0
      modifies this`handled, packetBuf
      ensures buf0 < buf <= |chunk| && CarryOk(packetBuf[..], psize, prSize)
      ensures Waiting(packetBuf[..], prSize, chunk, buf, waiting') && Leads(handled, waiting', goal)
    {
      var ioSize := |chunk| - buf0;
      psize := if psize0 == 0 then chunk[buf0] else psize0;
      assert waiting[0] == psize;
      if psize == 0 {
        LeadsDone(handled, waiting, goal);
      }
      if ioSize + prSize0 >= psize {
        var take := psize - prSize0;
        var packet := packetBuf[..prSize0] + chunk[buf0..buf0 + take];
        LeadsCarried(handled, waiting, packetBuf[..][..prSize0], chunk, buf0, psize, take, goal);
        assert packetBuf[..][..prSize0] == packetBuf[..prSize0];
        handled := handled + [packet];
        psize, prSize, buf, waiting' := 0, 0, buf0 + take, chunk[buf0 + take..];
        NothingCarried(packetBuf[..][..0], waiting');
      } else {
        ghost var before := packetBuf[..];
        assert before[..prSize0] == packetBuf[..prSize0];
        Carry(packetBuf, prSize0, psize, chunk[buf0..]);
        prSize, buf, waiting' := prSize0 + ioSize, |chunk|, waiting;
        assert packetBuf[..][..prSize] == packetBuf[..prSize];
      }
    }
  }

  /** The bytes not handled yet: the carried fragment and the rest of the chunk. */
  ghost predicate Waiting(buffer: seq<Byte>, carried: nat, chunk: seq<Byte>, at: nat, waiting: seq<Byte>)
    requires carried <= |buffer| && at <= |chunk|
  {
    && (at < |chunk| ==> waiting == buffer[..carried] + chunk[at..])
    && (at == |chunk| ==> waiting == buffer[..carried])
  }

  /** Keep an incomplete packet for later. */
  method Carry(buffer: array<Byte>, carried: nat, size: nat, input: seq<Byte>)
    requires buffer.Length == MAX_PACKET_SIZE && input != [] && carried + |input| < size <= MAX_PACKET_SIZE
    requires size == (buffer[..carried] + input)[0]
    modifies buffer
    ensures buffer[..carried + |input|] == old(buffer[..carried]) + input
    ensures CarryOk(buffer[..], size, carried + |input|)
  {
    Receive(buffer, carried, input);
    assert buffer[0] == buffer[..carried + |input|][0];
  }

  /**
   Exactly when the next receive is offered no room: the buffer is full and its first packet has a
   zero size byte or one beyond the buffer, so that it never becomes complete.
   */
  lemma OversizedPacketFillsTheBuffer(s: seq<Byte>)
    requires |s| <= BUF_SIZE
    ensures |Split(s).rest| == BUF_SIZE <==> |s| == BUF_SIZE && (s[0] == 0 || s[0] > BUF_SIZE)
  {
    if s != [] && 1 <= s[0] <= |s| {
      SplitSound(s[s[0]..]);
      assert |Split(s).rest| <= |s| - s[0];
    }
  }
}
