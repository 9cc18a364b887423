/**
 The sending half of a session. Producers append packets under a lock; whoever finds the pending flag
 clear becomes the one sender, and that role passes from producer to batch to operation to completion.
 */
module SendPipeline {
  import opened Board
  import opened Framing

  const SEND_BATCH_SIZE: int := 16 * 1024

  /** The state behind m_send_mutex; `open` is can_send(). */
  datatype Half = Half(queue: seq<Packet>, pending: bool, open: bool)

  predicate Acceptable(data: Packet) {
    1 <= |data| <= BUF_SIZE
  }

  /** Size of the batch made of the first `n` queued packets. */
  function Total(queue: seq<Packet>): nat {
    if queue == [] then 0 else |queue[0]| + Total(queue[1..])
  }

  /** How many packets the batching loop takes once `size` bytes are already in the batch. */
  function Taken(queue: seq<Packet>, size: nat): nat {
    if queue == [] || (size != 0 && size + |queue[0]| > SEND_BATCH_SIZE) then 0
    else 1 + Taken(queue[1..], size + |queue[0]|)
  }

  lemma {:induction false} TakenFits(queue: seq<Packet>, size: nat)
    ensures Taken(queue, size) <= |queue|
    decreases |queue|
  {
    if queue == [] || (size != 0 && size + |queue[0]| > SEND_BATCH_SIZE) {
    } else {
      TakenFits(queue[1..], size + |queue[0]|);
    }
  }

  function Batch(queue: seq<Packet>): seq<Byte> {
    TakenFits(queue, 0);
    Flatten(queue[..Taken(queue, 0)])
  }

  function Remaining(queue: seq<Packet>): seq<Packet> {
    TakenFits(queue, 0);
    queue[Taken(queue, 0)..]
  }

  lemma FlattenNext(all: seq<Packet>, k: nat)
    requires k < |all|
    ensures Flatten(all[..k + 1]) == Flatten(all[..k]) + all[k]
    ensures all[k..][0] == all[k] && all[k..][1..] == all[k + 1..]
  {
    assert all[..k + 1] == all[..k] + [all[k]];
    FlattenAppend(all[..k], [all[k]]);
    FlattenOne(all[k]);
  }

  predicate QueueOk(queue: seq<Packet>) {
    forall i :: 0 <= i < |queue| ==> Acceptable(queue[i])
  }

  lemma {:induction false} FlattenLength(ps: seq<Packet>)
    ensures |Flatten(ps)| == Total(ps)
  {
    if ps != [] {
      FlattenLength(ps[1..]);
    }
  }

  lemma {:induction false} TakenIsGreedy(queue: seq<Packet>, size: nat)
    requires QueueOk(queue) && size <= SEND_BATCH_SIZE
    ensures var k := Taken(queue, size);
      && k <= |queue| && size + Total(queue[..k]) <= SEND_BATCH_SIZE
      && (k < |queue| ==> size + Total(queue[..k]) + |queue[k]| > SEND_BATCH_SIZE)
    decreases |queue|
  {
    if queue == [] || (size != 0 && size + |queue[0]| > SEND_BATCH_SIZE) {
    } else {
      assert Acceptable(queue[0]);
      TakenIsGreedy(queue[1..], size + |queue[0]|);
      var k := Taken(queue, size);
      assert queue[..k][1..] == queue[1..][..k - 1];
    }
  }

  /** Each batch is the longest run of whole packets from the front of the queue that fits in 16 KiB. */
  lemma BatchIsMaximalPrefix(queue: seq<Packet>)
    requires QueueOk(queue) && queue != []
    ensures var k := Taken(queue, 0);
      && 1 <= k <= |queue| && Batch(queue) == Flatten(queue[..k]) && Remaining(queue) == queue[k..]
      && 1 <= |Batch(queue)| <= SEND_BATCH_SIZE
      && (k < |queue| ==> |Batch(queue)| + |queue[k]| > SEND_BATCH_SIZE)
    ensures Batch(queue) + Flatten(Remaining(queue)) == Flatten(queue)
  {
    TakenIsGreedy(queue, 0);
    var k := Taken(queue, 0);
    FlattenLength(queue[..k]);
    assert queue[..k] + queue[k..] == queue;
    FlattenAppend(queue[..k], queue[k..]);
    assert Acceptable(queue[0]) && queue[..k][0] == queue[0];
  }

  // ---- the three critical sections ----

  datatype Accepted = Accepted(half: Half, startSend: bool)

  /** do_send: queue the packet and claim the sender role if it is free. */
  function DoSend(h: Half, data: Packet): Accepted {
    if !h.open || !Acceptable(data) then Accepted(h, false)
    else Accepted(Half(h.queue + [data], true, true), !h.pending)
  }

  datatype Started = Nothing(half: Half) | Send(half: Half, batch: seq<Byte>)

  /** start_next_send: give the role back if there is nothing to do, otherwise cut a batch. */
  function StartNext(h: Half): Started {
    if !h.open || h.queue == [] then Nothing(h.(pending := false))
    else Send(h.(queue := Remaining(h.queue)), Batch(h.queue))
  }

  /** fail_send: drop everything queued and give the role back. */
  function Fail(h: Half): Half {
    Half([], false, h.open)
  }

  /** What a completion leaves to do. */
  datatype Completion = Failed | Repost(rest: seq<Byte>) | Finished

  /** on_send_complete: `data` is what the operation asked to send, `numBytes` what was reported sent. */
  function Completed(data: seq<Byte>, numBytes: nat): Completion {
    if numBytes == 0 || numBytes > |data| then Failed
    else if numBytes < |data| then Repost(data[numBytes..])
    else Finished
  }

  /** The session's own code, one method per critical section. */
  class SendHalf {
    var queue: seq<Packet>
    var pending: bool
    var open: bool

    function View(): Half
      reads this
    {
      Half(queue, pending, open)
    }

    constructor ()
      ensures View() == Half([], false, true)
    {
      queue, pending, open := [], false, true;
    }

    method DoSendLocked(data: Packet) returns (startSend: bool)
      modifies this
      ensures Accepted(View(), startSend) == DoSend(old(View()), data)
    {
      startSend := false;
      if !open || |data| <= 0 || |data| > BUF_SIZE {
        return;
      }
      queue := queue + [data];
      if !pending {
        pending := true;
        startSend := true;
      }
    }

    method StartNextLocked() returns (send: bool, storage: seq<Byte>)
      requires QueueOk(queue)
      modifies this
      ensures StartNext(old(View())) == if send then Send(View(), storage) else Nothing(View())
    {
      storage := [];
      if !open || queue == [] {
        pending := false;
        return false, storage;
      }
      ghost var k := 0;
      var batchSize: nat := 0;
      ghost var all := queue;
      while queue != []
        invariant 0 <= k <= |all| && queue == all[k..] && storage == Flatten(all[..k])
        invariant k + Taken(queue, batchSize) == Taken(all, 0)
        invariant pending == old(pending) && open == old(open)
        decreases |queue|
      {
        var front := queue[0];
        if batchSize != 0 && batchSize + |front| > SEND_BATCH_SIZE {
          break;
        }
        FlattenNext(all, k);
        storage := storage + front;
        batchSize := batchSize + |front|;
        queue := queue[1..];
        k := k + 1;
      }
      send := true;
    }

    /** The buffer of a partial completion is advanced in place: `start` and `len` delimit what is left. */
    method OnSendComplete(storage: seq<Byte>, start: nat, len: nat, numBytes: nat)
        returns (todo: Completion, start': nat, len': nat)
      requires start + len == |storage|
      ensures todo == Completed(storage[start..], numBytes)
      ensures start' + len' == |storage| && (todo.Repost? ==> storage[start'..] == todo.rest)
    {
      start', len' := start, len;
      if numBytes == 0 || numBytes > len {
        return Failed, start', len';
      }
      if numBytes < len {
        start', len' := start + numBytes, len - numBytes;
        assert storage[start..][numBytes..] == storage[start'..];
        return Repost(storage[start'..]), start', len';
      }
      todo := Finished;
    }

    method FailLocked()
      modifies this
      ensures View() == Fail(old(View()))
    {
      queue := [];
      pending := false;
    }
  }

  // ---- all threads together, at lock granularity ----

  /** What a thread still has to do before it is out of the session's send code. */
  datatype Task = MustStart | MustPost(batch: seq<Byte>) | MustDisconnect

  /** A posted WSASend: its bytes and how many of them the network has taken. */
  datatype Operation = Operation(data: seq<Byte>, taken: nat)

  /**
   `wire` is what has left the machine, `accepted` the packets do_send took, in lock order, and
   `failed` tells whether fail_send ever ran.
   */
  datatype Pipe = Pipe(half: Half, tasks: map<int, Task>, inFlight: seq<Operation>,
                       wire: seq<Byte>, accepted: seq<Packet>, failed: bool)

  const EMPTY_PIPE: Pipe := Pipe(Half([], false, true), map[], [], [], [], false)

  datatype Step =
    | Produce(thread: int, data: Packet)         // any thread calls do_send
    | Start(thread: int)                         // the critical section of start_next_send
    | Post(thread: int, ok: bool)                // post_send outside the lock
    | Transmit(op: nat, bytes: nat)              // the network takes some bytes of an operation
    | Complete(thread: int, op: nat)             // on_send_complete with the byte count the network reports
    | Disconnect(thread: int)                    // the disconnect that follows a failure
    | Close                                      // the socket is closed for any other reason

  ghost predicate Enabled(s: Pipe, step: Step) {
    match step
    case Produce(t, _) => t !in s.tasks
    case Start(t) => t in s.tasks && s.tasks[t] == MustStart
    case Post(t, _) => t in s.tasks && s.tasks[t].MustPost?
    case Transmit(op, n) => op < |s.inFlight| && s.inFlight[op].taken + n <= |s.inFlight[op].data|
    case Complete(t, op) => t !in s.tasks && op < |s.inFlight|
    case Disconnect(t) => t in s.tasks && s.tasks[t] == MustDisconnect
    case Close => true
  }

  function FailThread(s: Pipe, t: int): Pipe {
    s.(half := Fail(s.half), tasks := s.tasks[t := MustDisconnect], failed := true)
  }

  ghost function Next(s: Pipe, step: Step): Pipe
    requires Enabled(s, step)
  {
    match step
    case Produce(t, data) =>
      var r := DoSend(s.half, data);
      s.(half := r.half,
         accepted := if s.half.open && Acceptable(data) then s.accepted + [data] else s.accepted,
         tasks := if r.startSend then s.tasks[t := MustStart] else s.tasks)
    case Start(t) =>
      (match StartNext(s.half)
       case Nothing(h) => s.(half := h, tasks := s.tasks - {t})
       case Send(h, batch) => s.(half := h, tasks := s.tasks[t := MustPost(batch)]))
    case Post(t, ok) =>
      if ok then s.(tasks := s.tasks - {t}, inFlight := s.inFlight + [Operation(s.tasks[t].batch, 0)])
      else FailThread(s, t)
    case Transmit(op, n) =>
      var o := s.inFlight[op];
      s.(inFlight := s.inFlight[op := o.(taken := o.taken + n)], wire := s.wire + o.data[o.taken..o.taken + n])
    case Complete(t, op) =>
      var o := s.inFlight[op];
      var s' := s.(inFlight := s.inFlight[..op] + s.inFlight[op + 1..]);
      (match Completed(o.data, o.taken)
       case Failed => FailThread(s', t)
       case Repost(rest) => s'.(tasks := s.tasks[t := MustPost(rest)])
       case Finished => s'.(tasks := s.tasks[t := MustStart]))
    case Disconnect(t) =>
      s.(half := s.half.(open := false), tasks := s.tasks - {t})
    case Close =>
      s.(half := s.half.(open := false))
  }

  /** The threads that currently play the sender. */
  ghost function Senders(tasks: map<int, Task>): set<int> {
    set t | t in tasks && !tasks[t].MustDisconnect?
  }

  /** The one sender role is held by a thread, or by an operation in flight, or by nobody. */
  ghost predicate OneSender(s: Pipe) {
    |Senders(s.tasks)| + |s.inFlight| == if s.half.pending then 1 else 0
  }

  ghost predicate BatchesOk(s: Pipe) {
    && (forall t :: t in s.tasks && s.tasks[t].MustPost? ==> 1 <= |s.tasks[t].batch| <= SEND_BATCH_SIZE)
    && (forall i :: 0 <= i < |s.inFlight| ==>
          s.inFlight[i].taken <= |s.inFlight[i].data| && 1 <= |s.inFlight[i].data| <= SEND_BATCH_SIZE)
  }

  /** The batches cut but not handed to the network yet. */
  ghost function Batches(tasks: map<int, Task>): set<seq<Byte>> {
    set t | t in tasks && tasks[t].MustPost? :: tasks[t].batch
  }

  ghost predicate PostsKept(tasks: map<int, Task>, tasks': map<int, Task>) {
    forall t :: t in tasks && tasks[t].MustPost? ==> t in tasks' && tasks'[t] == tasks[t]
  }

  lemma BatchesSame(tasks: map<int, Task>, tasks': map<int, Task>)
    requires PostsKept(tasks, tasks') && PostsKept(tasks', tasks)
    ensures Batches(tasks) == Batches(tasks')
  {
    forall b | b in Batches(tasks)
      ensures b in Batches(tasks')
    {
      var t :| t in tasks && tasks[t].MustPost? && tasks[t].batch == b;
      assert tasks'[t] == tasks[t];
    }
    forall b | b in Batches(tasks')
      ensures b in Batches(tasks)
    {
      var t :| t in tasks' && tasks'[t].MustPost? && tasks'[t].batch == b;
      assert tasks'[t] == tasks[t];
    }
  }

  /** The bytes the current sender still owes the network. */
  ghost predicate Owed(s: Pipe, bytes: seq<Byte>)
    requires BatchesOk(s)
  {
    && (forall b :: b in Batches(s.tasks) ==> bytes == b)
    && (forall i :: 0 <= i < |s.inFlight| ==> bytes == s.inFlight[i].data[s.inFlight[i].taken..])
    && (Batches(s.tasks) == {} && s.inFlight == [] ==> bytes == [])
  }

  /** Sent, owed and queued bytes together are the accepted packets in lock order. */
  ghost predicate Balanced(s: Pipe, owed: seq<Byte>) {
    s.wire + (owed + Flatten(s.half.queue)) == Flatten(s.accepted)
  }

  ghost predicate Conserved(s: Pipe)
    requires BatchesOk(s)
  {
    exists owed :: Owed(s, owed) && Balanced(s, owed)
  }

  ghost predicate Inv(s: Pipe) {
    && OneSender(s) && BatchesOk(s) && QueueOk(s.half.queue)
    && (s.half.queue != [] ==> s.half.pending || !s.half.open)
    && (!s.failed ==> Conserved(s))
  }

  // ---- preservation ----

  lemma SendersAdd(tasks: map<int, Task>, t: int, task: Task)
    requires t !in Senders(tasks) && !task.MustDisconnect?
    ensures |Senders(tasks[t := task])| == |Senders(tasks)| + 1
  {
    assert Senders(tasks[t := task]) == Senders(tasks) + {t};
  }

  lemma SendersKeep(tasks: map<int, Task>, t: int, task: Task)
    requires t in Senders(tasks) && !task.MustDisconnect?
    ensures Senders(tasks[t := task]) == Senders(tasks)
  {
  }

  lemma SendersDrop(tasks: map<int, Task>, t: int)
    requires t in Senders(tasks)
    ensures |Senders(tasks - {t})| == |Senders(tasks)| - 1
    ensures Senders(tasks[t := MustDisconnect]) == Senders(tasks - {t})
  {
    assert Senders(tasks - {t}) == Senders(tasks) - {t};
  }

  /** While one thread or operation is the sender, no other thread is. */
  lemma SoleSender(s: Pipe, t: int)
    requires OneSender(s) && t in Senders(s.tasks)
    ensures s.inFlight == [] && s.half.pending && Senders(s.tasks) == {t}
  {
    if exists u :: u in Senders(s.tasks) && u != t {
      var u :| u in Senders(s.tasks) && u != t;
      assert {t, u} <= Senders(s.tasks);
      SubsetSize({t, u}, Senders(s.tasks));
    }
  }

  lemma SubsetSize(a: set<int>, b: set<int>)
    requires a <= b
    ensures |a| <= |b|
  {
    assert b == a + (b - a);
  }

  lemma ProduceBalances(s: Pipe, s': Pipe, data: Packet, owed: seq<Byte>)
    requires Balanced(s, owed) && s'.wire == s.wire
    requires s'.half.queue == s.half.queue + [data] && s'.accepted == s.accepted + [data]
    ensures Balanced(s', owed)
  {
    FlattenOne(data);
    FlattenAppend(s.half.queue, [data]);
    FlattenAppend(s.accepted, [data]);
    Assoc(owed, Flatten(s.half.queue), data);
    Assoc(s.wire, owed + Flatten(s.half.queue), data);
  }

  lemma ProduceConserves(s: Pipe, s': Pipe, data: Packet)
    requires BatchesOk(s) && BatchesOk(s') && Conserved(s)
    requires s'.wire == s.wire && s'.inFlight == s.inFlight
    requires PostsKept(s.tasks, s'.tasks) && PostsKept(s'.tasks, s.tasks)
    requires s'.half.queue == s.half.queue + [data] && s'.accepted == s.accepted + [data]
    ensures Conserved(s')
  {
    var owed :| Owed(s, owed) && Balanced(s, owed);
    ProduceBalances(s, s', data, owed);
    BatchesSame(s.tasks, s'.tasks);
    assert Owed(s', owed);
  }

  lemma ProduceKeeps(s: Pipe, t: int, data: Packet)
    requires Inv(s) && t !in s.tasks
    ensures Inv(Next(s, Produce(t, data)))
  {
    var s' := Next(s, Produce(t, data));
    if s.half.open && Acceptable(data) {
      if !s.half.pending {
        SendersAdd(s.tasks, t, MustStart);
      }
      if !s.failed {
        ProduceConserves(s, s', data);
      }
    }
  }

  /** What it means for the bytes owed that one given thread is the sender. */
  lemma SoleSenderOwes(s: Pipe, t: int)
    requires OneSender(s) && BatchesOk(s) && t in s.tasks && !s.tasks[t].MustDisconnect?
    ensures s.inFlight == []
    ensures Batches(s.tasks) == if s.tasks[t].MustPost? then {s.tasks[t].batch} else {}
    ensures forall task: Task :: !task.MustPost? ==> Batches(s.tasks[t := task]) == {}
    ensures forall b :: Batches(s.tasks[t := MustPost(b)]) == {b}
    ensures Batches(s.tasks - {t}) == {}
  {
    assert t in Senders(s.tasks);
    SoleSender(s, t);
    assert forall u :: u in s.tasks && s.tasks[u].MustPost? ==> u in Senders(s.tasks);
    forall b
      ensures Batches(s.tasks[t := MustPost(b)]) == {b}
    {
      assert s.tasks[t := MustPost(b)][t].batch == b;
    }
  }

  lemma StartKeeps(s: Pipe, t: int)
    requires Inv(s) && t in s.tasks && s.tasks[t] == MustStart
    ensures Inv(Next(s, Start(t)))
  {
    var s' := Next(s, Start(t));
    assert t in Senders(s.tasks);
    SoleSender(s, t);
    SoleSenderOwes(s, t);
    if !s.half.open || s.half.queue == [] {
      SendersDrop(s.tasks, t);
      if !s.failed {
        assert Owed(s', []);
      }
    } else {
      BatchIsMaximalPrefix(s.half.queue);
      SendersKeep(s.tasks, t, MustPost(Batch(s.half.queue)));
      if !s.failed {
        Empty(Flatten(s.half.queue));
        assert Owed(s, []) && Balanced(s', Batch(s.half.queue));
        assert Owed(s', Batch(s.half.queue));
      }
    }
  }

  lemma PostKeeps(s: Pipe, t: int, ok: bool)
    requires Inv(s) && t in s.tasks && s.tasks[t].MustPost?
    ensures Inv(Next(s, Post(t, ok)))
  {
    var s' := Next(s, Post(t, ok));
    assert t in Senders(s.tasks);
    SoleSender(s, t);
    SoleSenderOwes(s, t);
    SendersDrop(s.tasks, t);
    if ok && !s.failed {
      var owed :| Owed(s, owed) && Balanced(s, owed);
      assert owed == s.tasks[t].batch;
      assert s'.inFlight[0].data[0..] == owed;
      assert Owed(s', owed);
    }
  }

  /** While an operation is in flight it is the only one and no thread is the sender. */
  lemma SoleOperation(s: Pipe, op: nat)
    requires OneSender(s) && op < |s.inFlight|
    ensures |s.inFlight| == 1 && op == 0 && s.half.pending && Senders(s.tasks) == {}
    ensures forall u :: u in s.tasks ==> s.tasks[u] == MustDisconnect
    ensures Batches(s.tasks) == {}
  {
    forall u | u in s.tasks
      ensures s.tasks[u] == MustDisconnect
    {
      assert s.tasks[u] != MustDisconnect ==> u in Senders(s.tasks);
    }
  }

  lemma TransmitBalances(s: Pipe, s': Pipe, gone: seq<Byte>, rest: seq<Byte>)
    requires Balanced(s, gone + rest) && s'.half == s.half && s'.accepted == s.accepted && s'.wire == s.wire + gone
    ensures Balanced(s', rest)
  {
    Assoc(gone, rest, Flatten(s.half.queue));
    Assoc(s.wire, gone, rest + Flatten(s.half.queue));
  }

  lemma TransmitKeeps(s: Pipe, op: nat, n: nat)
    requires Inv(s) && Enabled(s, Transmit(op, n))
    ensures Inv(Next(s, Transmit(op, n)))
  {
    SoleOperation(s, op);
    var o := s.inFlight[0];
    assert s.inFlight[0 := o.(taken := o.taken + n)] == [o.(taken := o.taken + n)];
    TransmitPart(s, o, n);
  }

  lemma TransmitPart(s: Pipe, o: Operation, n: nat)
    requires Inv(s) && s.inFlight == [o] && Batches(s.tasks) == {} && o.taken + n <= |o.data|
    ensures Inv(s.(inFlight := [o.(taken := o.taken + n)], wire := s.wire + o.data[o.taken..o.taken + n]))
  {
    var s' := s.(inFlight := [o.(taken := o.taken + n)], wire := s.wire + o.data[o.taken..o.taken + n]);
    assert s.inFlight[0] == o;
    if !s.failed {
      var owed :| Owed(s, owed) && Balanced(s, owed);
      TransmitConserves(s, s', o, n, owed);
    }
  }

  lemma TransmitConserves(s: Pipe, s': Pipe, o: Operation, n: nat, owed: seq<Byte>)
    requires BatchesOk(s') && |s'.inFlight| == 1 && Batches(s'.tasks) == {} && o.taken + n <= |o.data|
    requires s'.inFlight[0] == o.(taken := o.taken + n) && s'.wire == s.wire + o.data[o.taken..o.taken + n]
    requires s'.half == s.half && s'.accepted == s.accepted && owed == o.data[o.taken..] && Balanced(s, owed)
    ensures Conserved(s')
  {
    var gone, rest := o.data[o.taken..o.taken + n], o.data[o.taken + n..];
    CutMiddle(o.data, o.taken, n);
    TransmitBalances(s, s', gone, rest);
    TransmitOwes(s, s', rest);
  }

  lemma TransmitOwes(s: Pipe, s': Pipe, rest: seq<Byte>)
    requires BatchesOk(s') && |s'.inFlight| == 1 && Batches(s'.tasks) == {}
    requires rest == s'.inFlight[0].data[s'.inFlight[0].taken..]
    ensures Owed(s', rest)
  {
  }

  lemma CompleteKeeps(s: Pipe, t: int, op: nat)
    requires Inv(s) && t !in s.tasks && op < |s.inFlight|
    ensures Inv(Next(s, Complete(t, op)))
  {
    SoleOperation(s, op);
    assert s.inFlight[..0] + s.inFlight[1..] == [];
    match Completed(s.inFlight[0].data, s.inFlight[0].taken)
    case Failed =>
      assert Senders(Next(s, Complete(t, op)).tasks) == {};
    case Repost(rest) => HandOver(s, t, MustPost(rest));
    case Finished => HandOver(s, t, MustStart);
  }

  /** The role, and the bytes still owed, pass from the completed operation to the thread completing it. */
  lemma HandOver(s: Pipe, t: int, task: Task)
    requires Inv(s) && t !in s.tasks && |s.inFlight| == 1 && 0 < s.inFlight[0].taken
    requires s.half.pending && Senders(s.tasks) == {} && forall u :: u in s.tasks ==> s.tasks[u] == MustDisconnect
    requires task == if s.inFlight[0].taken < |s.inFlight[0].data|
                     then MustPost(s.inFlight[0].data[s.inFlight[0].taken..]) else MustStart
    ensures Inv(s.(inFlight := [], tasks := s.tasks[t := task]))
  {
    var s' := s.(inFlight := [], tasks := s.tasks[t := task]);
    SendersAdd(s.tasks, t, task);
    if !s.failed {
      var owed :| Owed(s, owed) && Balanced(s, owed);
      CompleteOwes(s, s', t, s.inFlight[0], owed);
      assert Balanced(s', owed);
    }
  }

  lemma CompleteOwes(s: Pipe, s': Pipe, t: int, o: Operation, owed: seq<Byte>)
    requires BatchesOk(s) && BatchesOk(s') && s.inFlight == [o] && s'.inFlight == [] && 0 < o.taken
    requires t !in s.tasks && (forall u :: u in s.tasks ==> s.tasks[u] == MustDisconnect) && Owed(s, owed)
    requires s'.tasks == s.tasks[t := if o.taken < |o.data| then MustPost(o.data[o.taken..]) else MustStart]
    ensures Owed(s', owed)
  {
    assert owed == s.inFlight[0].data[s.inFlight[0].taken..];
    if o.taken < |o.data| {
      assert s'.tasks[t].batch == owed;
      assert Batches(s'.tasks) == {owed};
    }
  }

  lemma ShutKeeps(s: Pipe, step: Step)
    requires Inv(s) && Enabled(s, step) && (step.Disconnect? || step.Close?)
    ensures Inv(Next(s, step))
  {
    var s' := Next(s, step);
    assert Senders(s'.tasks) == Senders(s.tasks);
    BatchesSame(s.tasks, s'.tasks);
    if !s.failed {
      var owed :| Owed(s, owed) && Balanced(s, owed);
      assert Owed(s', owed) && Balanced(s', owed);
    }
  }

  lemma StepKeeps(s: Pipe, step: Step)
    requires Inv(s) && Enabled(s, step)
    ensures Inv(Next(s, step))
  {
    match step
    case Produce(t, data) => ProduceKeeps(s, t, data);
    case Start(t) => StartKeeps(s, t);
    case Post(t, ok) => PostKeeps(s, t, ok);
    case Transmit(op, n) => TransmitKeeps(s, op, n);
    case Complete(t, op) => CompleteKeeps(s, t, op);
    case Disconnect(t) => ShutKeeps(s, step);
    case Close => ShutKeeps(s, step);
  }

  // ---- whole runs ----

  ghost predicate IsRun(s: Pipe, steps: seq<Step>)
    decreases |steps|
  {
    steps == [] || (Enabled(s, steps[0]) && IsRun(Next(s, steps[0]), steps[1..]))
  }

  ghost function After(s: Pipe, steps: seq<Step>): Pipe
    requires IsRun(s, steps)
    decreases |steps|
  {
    if steps == [] then s else After(Next(s, steps[0]), steps[1..])
  }

  lemma {:induction false} RunKeeps(s: Pipe, steps: seq<Step>)
    requires Inv(s) && IsRun(s, steps)
    ensures Inv(After(s, steps))
    decreases |steps|
  {
    if steps != [] {
      StepKeeps(s, steps[0]);
      RunKeeps(Next(s, steps[0]), steps[1..]);
    }
  }

  /**
   Send pipeline safety, for every interleaving of any number of threads: at most one operation is in
   flight, queued packets are somebody's duty and keep the pending flag set, and until a send fails
   the bytes sent, the unsent rest of the batch under way and the queued packets together are exactly
   the accepted packets in lock order.
   */
  lemma PipelineSafe(steps: seq<Step>)
    requires IsRun(EMPTY_PIPE, steps)
    ensures var s := After(EMPTY_PIPE, steps);
      && |s.inFlight| <= 1 && |Senders(s.tasks)| + |s.inFlight| <= 1
      && (s.half.queue != [] && s.half.open ==>
            s.inFlight != [] || exists t :: t in s.tasks && s.tasks[t] != MustDisconnect)
      && (s.half.queue != [] && s.half.open ==> s.half.pending)
      && BatchesOk(s) && (!s.failed ==> Conserved(s) && s.wire <= Flatten(s.accepted))
      && (!s.failed && !s.half.pending && s.half.open ==> s.wire == Flatten(s.accepted))
  {
    EmptyInv();
    RunKeeps(EMPTY_PIPE, steps);
    var s := After(EMPTY_PIPE, steps);
    if s.half.queue != [] && s.half.open && s.inFlight == [] {
      var t := Inhabitant(Senders(s.tasks));
    }
    if !s.failed {
      WireIsPrefix(s);
    }
  }

  lemma EmptyInv()
    ensures Inv(EMPTY_PIPE)
  {
    assert Senders(EMPTY_PIPE.tasks) == {};
    assert Owed(EMPTY_PIPE, []) && Balanced(EMPTY_PIPE, []);
  }

  /** What the invariant says about the bytes sent, and about an idle sender in particular. */
  lemma WireIsPrefix(s: Pipe)
    requires Inv(s) && !s.failed
    ensures s.wire <= Flatten(s.accepted)
    ensures !s.half.pending && s.half.queue == [] ==> s.wire == Flatten(s.accepted)
  {
    var owed :| Owed(s, owed) && Balanced(s, owed);
    if !s.half.pending {
      assert Senders(s.tasks) == {};
      assert forall t :: t in s.tasks && s.tasks[t].MustPost? ==> t in Senders(s.tasks);
      assert Batches(s.tasks) == {};
    }
  }

  // ---- after a failure ----

  /** How long a packet of each type the server sends is, from S2C_LOGIN_RESULT to S2C_PROJECTILE. */
  function ServerPacketSize(kind: int): int {
    match kind
    case 7 => 56
    case 8 => 33
    case 9 => 43
    case 10 => 9
    case 11 => 21
    case 12 => 157
    case 13 => 26
    case 14 => 17
    case 15 => 14
    case 16 => 9
    case 17 => 10
    case 18 => 15
    case 19 => 23
    case _ => 0
  }

  /** A packet of the server: its size, its type as a 32-bit integer with the low byte first, and its fields. */
  predicate Sendable(p: Packet) {
    WellFormed(p) && |p| >= 5 && p[2] == p[3] == p[4] == 0 && |p| == ServerPacketSize(p[1])
  }

  /** A run in which all producers send packets of the server. */
  ghost predicate ServerRun(s: Pipe, steps: seq<Step>) {
    IsRun(s, steps) && forall i :: 0 <= i < |steps| && steps[i].Produce? ==> Sendable(steps[i].data)
  }

  /** What has left the machine is not the beginning of what was accepted. */
  ghost predicate Torn(s: Pipe) {
    !(s.wire <= Flatten(s.accepted))
  }

  ghost predicate CanTear(s: Pipe) {
    exists more :: ServerRun(s, more) && Torn(After(s, more))
  }

  /**
   The first failure in a run gives the sender role back before the failing thread disconnects. From
   there some continuation tears the stream if and only if the socket is still open at that moment.
   */
  lemma TearsExactlyIfOpen(steps: seq<Step>, step: Step)
    requires IsRun(EMPTY_PIPE, steps) && !After(EMPTY_PIPE, steps).failed
    requires Enabled(After(EMPTY_PIPE, steps), step) && Next(After(EMPTY_PIPE, steps), step).failed
    ensures var s := Next(After(EMPTY_PIPE, steps), step);
      && (CanTear(s) <==> s.half.open)
      && (!s.half.open ==> forall more :: IsRun(s, more) ==> !Torn(After(s, more)))
  {
    EmptyInv();
    RunKeeps(EMPTY_PIPE, steps);
    var s := Next(After(EMPTY_PIPE, steps), step);
    FailureLeavesIdle(After(EMPTY_PIPE, steps), step);
    if s.half.open {
      var more := OpenTears(s);
    } else {
      forall more | IsRun(s, more)
        ensures !Torn(After(s, more))
      {
        ClosedStays(s, more);
      }
    }
  }

  /** Nobody plays the sender, nothing is queued, and some accepted bytes will never be sent. */
  ghost predicate Abandoned(s: Pipe) {
    && Senders(s.tasks) == {} && s.inFlight == [] && s.half.queue == [] && !s.half.pending
    && s.wire < Flatten(s.accepted)
  }

  lemma FailureLeavesIdle(s: Pipe, step: Step)
    requires Inv(s) && !s.failed && Enabled(s, step) && Next(s, step).failed
    ensures Abandoned(Next(s, step))
  {
    StepKeeps(s, step);
    var owed :| Owed(s, owed) && Balanced(s, owed);
    match step {
      case Post(t, _) => assert s.tasks[t].batch in Batches(s.tasks);
      case Complete(t, op) => assert owed == s.inFlight[op].data[s.inFlight[op].taken..];
    }
    assert owed != [];
    assert s.wire < s.wire + (owed + Flatten(s.half.queue));
  }

  /** A closed session without a sender neither accepts nor sends any more. */
  lemma {:induction false} ClosedStays(s: Pipe, more: seq<Step>)
    requires Senders(s.tasks) == {} && s.inFlight == [] && !s.half.open && IsRun(s, more)
    ensures After(s, more).wire == s.wire && After(s, more).accepted == s.accepted
    decreases |more|
  {
    if more != [] {
      assert forall t :: t in s.tasks && !s.tasks[t].MustDisconnect? ==> t in Senders(s.tasks);
      var s' := Next(s, more[0]);
      assert Senders(s'.tasks) <= Senders(s.tasks);
      ClosedStays(s', more[1..]);
    }
  }

  lemma {:induction false} FreshThread(used: set<int>) returns (t: int)
    ensures forall u :: u in used ==> u < t
  {
    if used == {} {
      t := 0;
    } else {
      var u := Inhabitant(used);
      var v := FreshThread(used - {u});
      t := if u < v then v else u + 1;
      forall w | w in used
        ensures w < t
      {
        assert w == u || w in used - {u};
      }
    }
  }

  /** A packet whose first byte is not the given one. */
  lemma OtherPacket(b: Byte) returns (p: Packet)
    ensures Sendable(p) && p[0] != b
  {
    if b == 9 {
      p := [10, 17, 0, 0, 0, 0, 0, 0, 0, 0];
    } else {
      p := [9, 10, 0, 0, 0, 0, 0, 0, 0];
    }
  }

  /** In an open session the next producer's packet follows where another one broke off. */
  lemma OpenTears(s: Pipe) returns (more: seq<Step>)
    requires Abandoned(s) && s.half.open
    ensures ServerRun(s, more) && Torn(After(s, more))
  {
    var t := FreshThread(s.tasks.Keys);
    var p := OtherPacket(Flatten(s.accepted)[|s.wire|]);
    SinglePacket(p);
    more := SendsPart(s, t, p, 1);
    FlattenAppend(s.accepted, [p]);
    assert (s.wire + p[..1])[|s.wire|] == p[0];
    assert Flatten(s.accepted + [p])[|s.wire|] == Flatten(s.accepted)[|s.wire|];
  }

  /** A producer becomes the sender of its own packet. */
  lemma TakesOver(s: Pipe, t: int, p: Packet) returns (more: seq<Step>)
    requires s.half == Half([], false, true) && t !in s.tasks && Sendable(p)
    ensures ServerRun(s, more)
    ensures After(s, more) ==
              s.(half := Half([], true, true), tasks := s.tasks[t := MustPost(p)], accepted := s.accepted + [p])
  {
    SinglePacket(p);
    var s1 := s.(half := Half([p], true, true), tasks := s.tasks[t := MustStart], accepted := s.accepted + [p]);
    more := Extend(s, [], Produce(t, p), s1);
    more := Extend(s, more, Start(t), s1.(half := Half([], true, true), tasks := s.tasks[t := MustPost(p)]));
  }

  /** And the first `n` bytes of it are sent. */
  lemma SendsPart(s: Pipe, t: int, p: Packet, n: nat) returns (more: seq<Step>)
    requires s.half == Half([], false, true) && s.inFlight == [] && t !in s.tasks && Sendable(p) && n <= |p|
    ensures ServerRun(s, more)
    ensures After(s, more) == s.(half := Half([], true, true), inFlight := [Operation(p, n)],
                                 wire := s.wire + p[..n], accepted := s.accepted + [p])
  {
    var s2 := s.(half := Half([], true, true), tasks := s.tasks[t := MustPost(p)], accepted := s.accepted + [p]);
    var s3 := s2.(tasks := s.tasks, inFlight := [Operation(p, 0)]);
    assert s2.tasks - {t} == s.tasks && p[0..n] == p[..n];
    more := TakesOver(s, t, p);
    more := Extend(s, more, Post(t, true), s3);
    more := Extend(s, more, Transmit(0, n), s3.(inFlight := [Operation(p, n)], wire := s.wire + p[..n]));
  }

  /** The first packet is half sent, and the operation for the rest is about to be posted. */
  lemma HalfSent(p: Packet) returns (steps: seq<Step>)
    requires Sendable(p)
    ensures IsRun(EMPTY_PIPE, steps)
    ensures After(EMPTY_PIPE, steps) == Pipe(Half([], true, true), map[1 := MustPost(p[4..])], [], p[..4], [p], false)
    ensures ServerRun(EMPTY_PIPE, steps)
  {
    steps := SendsPart(EMPTY_PIPE, 1, p, 4);
    assert After(EMPTY_PIPE, steps) == Pipe(Half([], true, true), map[], [Operation(p, 4)], p[..4], [p], false);
    steps := Extend(EMPTY_PIPE, steps, Complete(1, 0),
                    Pipe(Half([], true, true), map[1 := MustPost(p[4..])], [], p[..4], [p], false));
  }

  /** It does happen: the rest of a half-sent packet cannot be posted, and another packet follows the first half. */
  lemma FailureTearsTheStream()
    ensures exists steps :: ServerRun(EMPTY_PIPE, steps) && Torn(After(EMPTY_PIPE, steps))
  {
    var p := OtherPacket(10);
    var steps := HalfSent(p);
    TearsExactlyIfOpen(steps, Post(1, false));
    var failed := Next(After(EMPTY_PIPE, steps), Post(1, false));
    var more :| ServerRun(failed, more) && Torn(After(failed, more));
    steps := Extend(EMPTY_PIPE, steps, Post(1, false), failed);
    Join(EMPTY_PIPE, steps, more);
  }

  lemma {:induction false} Join(s: Pipe, steps: seq<Step>, more: seq<Step>)
    requires IsRun(s, steps) && IsRun(After(s, steps), more)
    ensures IsRun(s, steps + more) && After(s, steps + more) == After(After(s, steps), more)
    decreases |steps|
  {
    if steps == [] {
      assert steps + more == more;
    } else {
      assert (steps + more)[1..] == steps[1..] + more;
      Join(Next(s, steps[0]), steps[1..], more);
    }
  }

  lemma SinglePacket(p: Packet)
    requires Acceptable(p)
    ensures Batch([p]) == p && Remaining([p]) == [] && Flatten([p]) == p
  {
    var queue := [p];
    assert queue[1..] == [];
    assert Taken(queue, 0) == 1 + Taken(queue[1..], |p|) == 1;
    assert queue[..1] == queue;
    assert Flatten(queue) == p + Flatten(queue[1..]) == p;
  }

  /** A run may be prolonged by any step enabled at its end. */
  lemma {:induction false} Extend(s: Pipe, steps: seq<Step>, step: Step, after: Pipe) returns (longer: seq<Step>)
    requires IsRun(s, steps) && Enabled(After(s, steps), step) && Next(After(s, steps), step) == after
    ensures longer == steps + [step] && IsRun(s, longer) && After(s, longer) == after
    decreases |steps|
  {
    longer := steps + [step];
    if steps == [] {
      assert longer[1..] == [];
    } else {
      var rest := Extend(Next(s, steps[0]), steps[1..], step, after);
      assert longer[1..] == rest;
    }
  }
}
