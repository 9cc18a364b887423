/**
 The send pipeline, the network and a deframing client together: what the client handles is what
 do_send accepted.
 */
module Delivery {
  import opened Framing
  import opened SendPipeline

  /** `read` bytes of the wire have reached the client, whose receive loop is in state `client`. */
  datatype Link = Link(pipe: Pipe, read: nat, client: Deframed)

  datatype Event = Sender(step: Step) | Arrive(bytes: nat)

  const IDLE_LINK: Link := Link(EMPTY_PIPE, 0, Deframed([], []))

  /** Senders only produce packets that start with their own length. */
  ghost predicate Possible(l: Link, e: Event) {
    match e
    case Sender(step) => Enabled(l.pipe, step) && (step.Produce? ==> WellFormed(step.data))
    case Arrive(n) => l.read + n <= |l.pipe.wire|
  }

  ghost function Happen(l: Link, e: Event): Link
    requires Possible(l, e)
  {
    match e
    case Sender(step) => l.(pipe := Next(l.pipe, step))
    case Arrive(n) => Link(l.pipe, l.read + n, Feed(l.client, l.pipe.wire[l.read..l.read + n]))
  }

  ghost predicate IsHistory(l: Link, events: seq<Event>)
    decreases |events|
  {
    events == [] || (Possible(l, events[0]) && IsHistory(Happen(l, events[0]), events[1..]))
  }

  ghost function Outcome(l: Link, events: seq<Event>): Link
    requires IsHistory(l, events)
    decreases |events|
  {
    if events == [] then l else Outcome(Happen(l, events[0]), events[1..])
  }

  /** The client's loop is where splitting the bytes that have arrived leads. */
  ghost predicate InStep(wire: seq<Byte>, read: nat, client: Deframed) {
    read <= |wire| && client == Split(wire[..read])
  }

  ghost predicate LinkInv(l: Link) {
    Inv(l.pipe) && AllWellFormed(l.pipe.accepted) && InStep(l.pipe.wire, l.read, l.client)
  }

  lemma WireGrows(s: Pipe, step: Step)
    requires Enabled(s, step)
    ensures s.wire <= Next(s, step).wire
  {
  }

  lemma EventKeeps(l: Link, e: Event)
    requires LinkInv(l) && Possible(l, e)
    ensures LinkInv(Happen(l, e))
  {
    match e
    case Sender(step) => SenderKeeps(l, step);
    case Arrive(n) => ArriveKeeps(l, n);
  }

  lemma SenderKeeps(l: Link, step: Step)
    requires LinkInv(l) && Possible(l, Sender(step))
    ensures LinkInv(Happen(l, Sender(step)))
  {
    StepKeeps(l.pipe, step);
    WireGrows(l.pipe, step);
    AcceptedWellFormed(l.pipe, step);
    assert Next(l.pipe, step).wire[..l.read] == l.pipe.wire[..l.read];
  }

  lemma FeedNext(wire: seq<Byte>, read: nat, n: nat, client: Deframed)
    requires InStep(wire, read, client) && read + n <= |wire|
    ensures InStep(wire, read + n, Feed(client, wire[read..read + n]))
  {
    SplitAppend(wire[..read], wire[read..read + n]);
    assert wire[..read] + wire[read..read + n] == wire[..read + n];
  }

  lemma ArriveKeeps(l: Link, n: nat)
    requires LinkInv(l) && Possible(l, Arrive(n))
    ensures LinkInv(Happen(l, Arrive(n)))
  {
    FeedNext(l.pipe.wire, l.read, n, l.client);
  }

  lemma AcceptedWellFormed(s: Pipe, step: Step)
    requires Enabled(s, step) && (step.Produce? ==> WellFormed(step.data)) && AllWellFormed(s.accepted)
    ensures AllWellFormed(Next(s, step).accepted)
  {
  }

  lemma {:induction false} HistoryKeeps(l: Link, events: seq<Event>)
    requires LinkInv(l) && IsHistory(l, events)
    ensures LinkInv(Outcome(l, events))
    decreases |events|
  {
    if events != [] {
      EventKeeps(l, events[0]);
      HistoryKeeps(Happen(l, events[0]), events[1..]);
    }
  }

  /** A link whose sender has nothing left to do and whose wire is empty. */
  ghost predicate Drained(l: Link) {
    !l.pipe.half.pending && l.pipe.half.queue == [] && l.read == |l.pipe.wire|
  }

  /**
   End-to-end delivery, for every interleaving of producers, every way operations complete in parts
   and every chunking of the receives: as long as the stream is not torn, the client has handled a
   prefix of the accepted packets, whole and in order; and if no send has failed, it has handled all of
   them once everything has drained.
   */
  lemma DeliveredWholeAndInOrder(events: seq<Event>)
    requires IsHistory(IDLE_LINK, events)
    ensures var l := Outcome(IDLE_LINK, events);
      && (!Torn(l.pipe) ==> l.client.packets <= l.pipe.accepted)
      && (!l.pipe.failed ==> !Torn(l.pipe))
      && (!l.pipe.failed && Drained(l) ==> l.client == Deframed(l.pipe.accepted, []))
  {
    EmptyInv();
    HistoryKeeps(IDLE_LINK, events);
    var l := Outcome(IDLE_LINK, events);
    if !Torn(l.pipe) {
      SplitPrefix(l.pipe.accepted, l.pipe.wire[..l.read]);
    }
    if !l.pipe.failed {
      WireIsPrefix(l.pipe);
      assert Drained(l) ==> l.pipe.wire[..l.read] == l.pipe.wire;
    }
  }
}
