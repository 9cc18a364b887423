/**
 The timer thread in fine grain. It pops the earliest event, then looks at the clock, and posts the
 event or pushes it back; in between, other threads push events of their own.
 */
module Timer {
  import opened Agenda

  datatype Hand = Empty | Holding(e: Event)

  /**
   `drafts` holds the events that producers have stamped with a time but not pushed yet, one per
   thread; `pushed` lists every event any producer has ever pushed.
   */
  datatype State = State(queue: seq<Event>, hand: Hand, posted: seq<Event>, now: int,
                         drafts: map<int, Event>, pushed: seq<Event>)

  /** A producer reads the clock when it drafts an event and pushes it later, at any time. */
  datatype Step =
    | Draft(thread: int, id: int, delay: nat, kind: EventKind)
    | Push(thread: int)
    | Pop(i: nat)
    | Check
    | Advance(ms: nat)

  ghost predicate Enabled(s: State, step: Step) {
    match step
    case Draft(t, _, _, _) => t !in s.drafts
    case Push(t) => t in s.drafts
    case Pop(i) => s.hand.Empty? && Earliest(s.queue, i)
    case Check => s.hand.Holding?
    case Advance(_) => true
  }

  ghost function Next(s: State, step: Step): State
    requires Enabled(s, step)
  {
    match step
    case Draft(t, id, delay, kind) => s.(drafts := s.drafts[t := Event(id, s.now + delay, kind)])
    case Push(t) =>
      s.(queue := s.queue + [s.drafts[t]], pushed := s.pushed + [s.drafts[t]], drafts := s.drafts - {t})
    case Pop(i) => s.(queue := Without(s.queue, i), hand := Holding(s.queue[i]))
    case Check =>
      if s.hand.e.at <= s.now then s.(posted := s.posted + [s.hand.e], hand := Empty)
      else s.(queue := s.queue + [s.hand.e], hand := Empty)
    case Advance(ms) => s.(now := s.now + ms)
  }

  const START: State := State([], Empty, [], 0, map[], [])

  ghost predicate IsRun(steps: seq<Step>)
    decreases |steps|, 0
  {
    steps == [] || (IsRun(steps[..|steps| - 1]) && Enabled(After(steps[..|steps| - 1]), steps[|steps| - 1]))
  }

  ghost function After(steps: seq<Step>): State
    requires IsRun(steps)
    decreases |steps|, 1
  {
    if steps == [] then START else Next(After(steps[..|steps| - 1]), steps[|steps| - 1])
  }

  lemma RunOneMore(steps: seq<Step>, step: Step)
    requires IsRun(steps) && Enabled(After(steps), step)
    ensures IsRun(steps + [step]) && After(steps + [step]) == Next(After(steps), step)
  {
    assert (steps + [step])[..|steps|] == steps;
  }

  // ---- nothing is lost, doubled or early ----

  ghost function Times(q: seq<Event>, e: Event): nat {
    multiset(q)[e]
  }

  ghost predicate Accounted(s: State, e: Event) {
    Times(s.pushed, e) == Times(s.queue, e) + (if s.hand == Holding(e) then 1 else 0) + Times(s.posted, e)
  }

  /** Every event pushed is queued, in the thread's hand or posted, exactly once; and none was posted early. */
  ghost predicate Conserved(s: State) {
    && (forall e {:trigger Accounted(s, e)} :: Accounted(s, e))
    && forall e :: e in s.posted ==> e.at <= s.now
  }

  lemma WithoutLosesOne(q: seq<Event>, i: nat, e: Event)
    requires i < |q|
    ensures Times(Without(q, i), e) + (if q[i] == e then 1 else 0) == Times(q, e)
  {
    assert q == q[..i] + [q[i]] + q[i + 1..];
  }

  lemma OneMore(q: seq<Event>, d: Event, e: Event)
    ensures Times(q + [d], e) == Times(q, e) + (if d == e then 1 else 0)
  {
  }

  lemma PushAccounts(s: State, t: int, e: Event)
    requires Accounted(s, e) && Enabled(s, Push(t))
    ensures Accounted(Next(s, Push(t)), e)
  {
    OneMore(s.queue, s.drafts[t], e);
    OneMore(s.pushed, s.drafts[t], e);
  }

  lemma PopAccounts(s: State, i: nat, e: Event)
    requires Accounted(s, e) && Enabled(s, Pop(i))
    ensures Accounted(Next(s, Pop(i)), e)
  {
    WithoutLosesOne(s.queue, i, e);
  }

  lemma CheckAccounts(s: State, e: Event)
    requires Accounted(s, e) && Enabled(s, Check)
    ensures Accounted(Next(s, Check), e)
  {
    OneMore(s.posted, s.hand.e, e);
    OneMore(s.queue, s.hand.e, e);
  }

  lemma StepAccounts(s: State, step: Step, e: Event)
    requires Accounted(s, e) && Enabled(s, step)
    ensures Accounted(Next(s, step), e)
  {
    match step {
      case Draft(_, _, _, _) =>
      case Push(t) => PushAccounts(s, t, e);
      case Pop(i) => PopAccounts(s, i, e);
      case Check => CheckAccounts(s, e);
      case Advance(_) =>
    }
  }

  lemma StepConserves(s: State, step: Step)
    requires Conserved(s) && Enabled(s, step)
    ensures Conserved(Next(s, step))
  {
    forall e {:trigger Accounted(Next(s, step), e)}
      ensures Accounted(Next(s, step), e)
    {
      assert Accounted(s, e);
      StepAccounts(s, step, e);
    }
  }

  lemma {:induction false} RunConserves(steps: seq<Step>)
    requires IsRun(steps)
    ensures Conserved(After(steps))
    decreases |steps|
  {
    if steps != [] {
      RunConserves(steps[..|steps| - 1]);
      StepConserves(After(steps[..|steps| - 1]), steps[|steps| - 1]);
    }
  }

  // ---- the order of posting ----

  ghost predicate InOrder(events: seq<Event>) {
    forall i, j :: 0 <= i < j < |events| ==> events[i].at <= events[j].at
  }

  /** An earlier event has been pushed while the thread was holding this one. */
  ghost predicate Overtaken(s: State) {
    s.hand.Holding? && exists e :: e in s.queue && e.at < s.hand.e.at
  }

  /** A later event has been posted while the producer was still holding its draft. */
  ghost predicate Stale(s: State, t: int) {
    t in s.drafts && exists e :: e in s.posted && s.drafts[t].at < e.at
  }

  /** The step posts no overtaken event and pushes no stale draft. */
  ghost predicate PromptStep(s: State, step: Step)
    requires Enabled(s, step)
  {
    match step
    case Check => s.hand.e.at <= s.now ==> !Overtaken(s)
    case Push(t) => !Stale(s, t)
    case _ => true
  }

  ghost predicate Prompt(steps: seq<Step>)
    requires IsRun(steps)
    decreases |steps|
  {
    steps == [] ||
    (Prompt(steps[..|steps| - 1]) && PromptStep(After(steps[..|steps| - 1]), steps[|steps| - 1]))
  }

  ghost predicate Pending(s: State, e: Event) {
    e in s.queue || s.hand == Holding(e)
  }

  /** What has been posted is in order, and everything queued or in hand is no earlier. */
  ghost predicate Sorted(s: State) {
    && InOrder(s.posted)
    && forall e, q :: e in s.posted && Pending(s, q) ==> e.at <= q.at
  }

  /** A step leaves things sorted exactly if they were and it is prompt; what is out of order stays so. */
  lemma StepSortsExactly(s: State, step: Step)
    requires Enabled(s, step)
    ensures Sorted(Next(s, step)) <==> Sorted(s) && PromptStep(s, step)
  {
    match step {
      case Draft(_, _, _, _) =>
        assert forall q :: Pending(Next(s, step), q) <==> Pending(s, q);
      case Push(t) => PushSortsExactly(s, t);
      case Pop(i) => PopSortsExactly(s, i);
      case Check =>
        if s.hand.e.at <= s.now {
          PostSortsExactly(s);
        } else {
          assert forall q :: Pending(Next(s, step), q) <==> Pending(s, q);
        }
      case Advance(_) =>
        assert forall q :: Pending(Next(s, step), q) <==> Pending(s, q);
    }
  }

  lemma PushSortsExactly(s: State, t: int)
    requires t in s.drafts
    ensures Sorted(Next(s, Push(t))) <==> Sorted(s) && !Stale(s, t)
  {
    var s', d := Next(s, Push(t)), s.drafts[t];
    assert forall q :: Pending(s', q) <==> Pending(s, q) || q == d;
  }

  lemma PopSortsExactly(s: State, i: nat)
    requires Enabled(s, Pop(i))
    ensures Sorted(Next(s, Pop(i))) <==> Sorted(s)
  {
    var s' := Next(s, Pop(i));
    assert s.queue == s.queue[..i] + [s.queue[i]] + s.queue[i + 1..];
    assert forall q :: Pending(s', q) <==> Pending(s, q);
  }

  lemma PostSortsExactly(s: State)
    requires s.hand.Holding? && s.hand.e.at <= s.now
    ensures Sorted(Next(s, Check)) <==> Sorted(s) && !Overtaken(s)
  {
    var s', e := Next(s, Check), s.hand.e;
    assert forall q :: Pending(s, q) <==> Pending(s', q) || q == e;
    assert forall p :: p in s'.posted <==> p in s.posted || p == e;
    if Sorted(s') {
      LastIsLatest(s.posted, e);
    }
  }

  lemma LastIsLatest(events: seq<Event>, e: Event)
    requires InOrder(events + [e])
    ensures InOrder(events) && forall d :: d in events ==> d.at <= e.at
  {
    var all := events + [e];
    assert forall i :: 0 <= i < |events| ==> all[i] == events[i] && all[i].at <= all[|events|].at;
  }

  lemma {:induction false} RunSortsExactly(steps: seq<Step>)
    requires IsRun(steps)
    ensures Sorted(After(steps)) <==> Prompt(steps)
    decreases |steps|
  {
    if steps != [] {
      RunSortsExactly(steps[..|steps| - 1]);
      StepSortsExactly(After(steps[..|steps| - 1]), steps[|steps| - 1]);
    }
  }

  ghost predicate Drained(s: State) {
    s.queue == [] && s.hand.Empty?
  }

  /**
   For every run that ends with nothing left to post: the events were posted in order of their times
   if and only if no posting was of an overtaken event and no push was of a stale draft.
   */
  lemma InOrderExactly(steps: seq<Step>)
    requires IsRun(steps) && Drained(After(steps))
    ensures InOrder(After(steps).posted) <==> Prompt(steps)
  {
    RunSortsExactly(steps);
    assert forall q :: !Pending(After(steps), q);
  }

  /** Before that the order already tells: whatever prompt runs have posted is in order. */
  lemma PromptRunsAreInOrder(steps: seq<Step>)
    requires IsRun(steps) && Prompt(steps)
    ensures InOrder(After(steps).posted)
  {
    RunSortsExactly(steps);
  }

  lemma {:induction false} FirstOf(queue: seq<Event>) returns (i: nat)
    requires queue != []
    ensures Earliest(queue, i)
  {
    if |queue| == 1 {
      i := 0;
    } else {
      var rest := queue[..|queue| - 1];
      var k := FirstOf(rest);
      i := if queue[k].at <= queue[|queue| - 1].at then k else |queue| - 1;
      forall j | 0 <= j < |queue|
        ensures queue[i].at <= queue[j].at
      {
        assert j < |rest| ==> rest[k].at <= rest[j].at;
      }
    }
  }

  // ---- when the order is safe ----

  /** Every check comes straight after its pop, as if both were one atomic step. */
  ghost predicate Atomic(steps: seq<Step>) {
    forall i :: 0 <= i < |steps| && steps[i].Check? ==> i > 0 && steps[i - 1].Pop?
  }

  /** No producer is held up between reading the clock and pushing for longer than its event's delay. */
  ghost predicate Punctual(steps: seq<Step>)
    requires IsRun(steps)
    decreases |steps|
  {
    steps == [] ||
    (var s, step := After(steps[..|steps| - 1]), steps[|steps| - 1];
     Punctual(steps[..|steps| - 1]) && (step.Push? ==> s.now <= s.drafts[step.thread].at))
  }

  /** With pop and check in one step and punctual producers the order is kept. */
  lemma {:induction false} AtomicPunctualRunsArePrompt(steps: seq<Step>)
    requires IsRun(steps) && Atomic(steps) && Punctual(steps)
    ensures Prompt(steps)
    decreases |steps|
  {
    if steps != [] {
      var before := steps[..|steps| - 1];
      AtomicPunctualRunsArePrompt(before);
      RunConserves(before);
      if steps[|steps| - 1].Check? {
        JustPoppedIsFirst(before);
      }
    }
  }

  /** After posting an overtaken event already the very next round goes out of order. */
  lemma OvertakenGoesOutOfOrder(steps: seq<Step>) returns (i: nat)
    requires IsRun(steps) && Overtaken(After(steps)) && After(steps).hand.e.at <= After(steps).now
    ensures IsRun(steps + [Check] + [Pop(i)] + [Check])
    ensures !InOrder(After(steps + [Check] + [Pop(i)] + [Check]).posted)
  {
    var s := After(steps);
    RunOneMore(steps, Check);
    var s1 := After(steps + [Check]);
    i := FirstOf(s1.queue);
    RunOneMore(steps + [Check], Pop(i));
    RunOneMore(steps + [Check] + [Pop(i)], Check);
    var q :| q in s.queue && q.at < s.hand.e.at;
    assert s1.queue[i].at <= q.at;
    var p := After(steps + [Check] + [Pop(i)] + [Check]).posted;
    assert p[|p| - 2] == s.hand.e && p[|p| - 1] == s1.queue[i];
  }

  /** Prolonging a run by one step, and where that leads. */
  lemma Then(steps: seq<Step>, step: Step, after: State) returns (longer: seq<Step>)
    requires IsRun(steps) && Enabled(After(steps), step) && Next(After(steps), step) == after
    ensures longer == steps + [step] && IsRun(longer) && After(longer) == after
    ensures Atomic(longer) <==> Atomic(steps) && (step.Check? ==> steps != [] && steps[|steps| - 1].Pop?)
    ensures Punctual(longer) <==>
              Punctual(steps) && (step.Push? ==> After(steps).now <= After(steps).drafts[step.thread].at)
  {
    RunOneMore(steps, step);
    longer := steps + [step];
    assert longer[..|steps|] == steps;
    if Atomic(longer) {
      forall i | 0 <= i < |steps| && steps[i].Check?
        ensures i > 0 && steps[i - 1].Pop?
      {
        assert longer[i] == steps[i];
      }
      assert step.Check? ==> longer[|steps|].Check?;
    }
  }

  /** A thread that is alone with one due event pops, checks and posts it. */
  lemma PopAndPost(steps: seq<Step>, e: Event) returns (r: seq<Step>)
    requires IsRun(steps) && After(steps).hand.Empty? && After(steps).queue == [e] && e.at <= After(steps).now
    ensures IsRun(r) && (Atomic(steps) ==> Atomic(r)) && (Punctual(steps) ==> Punctual(r))
    ensures After(r) == After(steps).(queue := [], posted := After(steps).posted + [e])
  {
    var s := After(steps);
    r := Then(steps, Pop(0), s.(queue := [], hand := Holding(e)));
    r := Then(r, Check, s.(queue := [], posted := s.posted + [e]));
  }

  /** Once the later of two events is posted and the thread picks up the earlier one, the order is lost. */
  lemma PostsBoth(steps: seq<Step>, soon: Event, late: Event) returns (r: seq<Step>)
    requires IsRun(steps) && soon.at < late.at
    requires var s := After(steps); s.queue == [soon] && s.hand.Empty? && s.posted == [late] && soon.at <= s.now
    ensures IsRun(r) && Drained(After(r)) && !InOrder(After(r).posted)
    ensures (Atomic(steps) ==> Atomic(r)) && (Punctual(steps) ==> Punctual(r))
  {
    r := PopAndPost(steps, soon);
    assert After(r).posted[0] == late && After(r).posted[1] == soon;
  }

  /** A producer drafts an event and pushes it at once. */
  lemma Produce(steps: seq<Step>, t: int, e: Event) returns (r: seq<Step>)
    requires IsRun(steps) && t !in After(steps).drafts && After(steps).now <= e.at
    ensures IsRun(r) && (Atomic(steps) ==> Atomic(r)) && (Punctual(steps) ==> Punctual(r))
    ensures After(r) == After(steps).(queue := After(steps).queue + [e], pushed := After(steps).pushed + [e])
  {
    var s := After(steps);
    r := Then(steps, Draft(t, e.id, e.at - s.now, e.kind), s.(drafts := s.drafts[t := e]));
    assert s.drafts[t := e] - {t} == s.drafts;
    r := Then(r, Push(t), s.(queue := s.queue + [e], pushed := s.pushed + [e]));
  }

  /** The thread waits until the event in its hand is due and posts it. */
  lemma WaitAndPost(steps: seq<Step>) returns (r: seq<Step>)
    requires IsRun(steps) && After(steps).hand.Holding? && After(steps).now <= After(steps).hand.e.at
    ensures IsRun(r) && (Punctual(steps) ==> Punctual(r))
    ensures var s := After(steps);
            After(r) == s.(now := s.hand.e.at, hand := Empty, posted := s.posted + [s.hand.e])
  {
    var s := After(steps);
    r := Then(steps, Advance(s.hand.e.at - s.now), s.(now := s.hand.e.at));
    r := Then(r, Check, s.(now := s.hand.e.at, hand := Empty, posted := s.posted + [s.hand.e]));
  }

  /** Any two events can come out of order if the earlier one is pushed between pop and check of the later one. */
  lemma Overtake(soon: Event, late: Event) returns (r: seq<Step>)
    requires 0 <= soon.at < late.at
    ensures IsRun(r) && Punctual(r) && Drained(After(r)) && !InOrder(After(r).posted)
  {
    r := Produce([], 1, late);
    assert After(r) == State([late], Empty, [], 0, map[], [late]);
    r := Then(r, Pop(0), State([], Holding(late), [], 0, map[], [late]));
    r := Produce(r, 1, soon);
    assert After(r).queue == [soon];
    r := WaitAndPost(r);
    assert After(r).posted == [late];
    r := PostsBoth(r, soon, late);
  }

  /** A push between pop and check is all it takes, with the delays of a waking and of a resting NPC. */
  lemma OvertakingBreaksTheOrder()
    ensures exists steps :: IsRun(steps) && Punctual(steps) && Drained(After(steps)) && !InOrder(After(steps).posted)
  {
    var r := Overtake(Event(2, 500, NpcMove), Event(1, 1000, NpcMove));
  }

  /** The same for an atomic thread, if the producer of the earlier event is held up until the later one is posted. */
  lemma Stall(soon: Event, late: Event) returns (r: seq<Step>)
    requires 0 <= soon.at < late.at
    ensures IsRun(r) && Atomic(r) && Drained(After(r)) && !InOrder(After(r).posted)
  {
    r := Then([], Draft(2, soon.id, soon.at, soon.kind), State([], Empty, [], 0, map[2 := soon], []));
    r := Produce(r, 1, late);
    r := Then(r, Advance(late.at), State([late], Empty, [], late.at, map[2 := soon], [late]));
    r := PopAndPost(r, late);
    assert map[2 := soon] - {2} == map[];
    r := Then(r, Push(2), State([soon], Empty, [late], late.at, map[], [late, soon]));
    r := PostsBoth(r, soon, late);
  }

  /** Punctuality is needed too: a producer held up too long breaks the order of an atomic thread. */
  lemma StallingBreaksTheOrder()
    ensures exists steps :: IsRun(steps) && Atomic(steps) && Drained(After(steps)) && !InOrder(After(steps).posted)
  {
    var r := Stall(Event(2, 500, NpcMove), Event(1, 1000, NpcMove));
  }

  lemma JustPoppedIsFirst(steps: seq<Step>)
    requires IsRun(steps) && steps != [] && steps[|steps| - 1].Pop?
    ensures !Overtaken(After(steps))
  {
    var s, i := After(steps[..|steps| - 1]), steps[|steps| - 1].i;
    forall e | e in Without(s.queue, i)
      ensures s.queue[i].at <= e.at
    {
      assert e in s.queue;
    }
  }

  // ---- nothing is left behind ----

  /** One round of pop and check, with an event that is due. */
  lemma OneRound(steps: seq<Step>) returns (i: nat)
    requires IsRun(steps) && After(steps).hand.Empty? && After(steps).queue != []
    requires forall e :: e in After(steps).queue ==> e.at <= After(steps).now
    ensures IsRun(steps + [Pop(i), Check]) && i < |After(steps).queue|
    ensures var s, t := After(steps), After(steps + [Pop(i), Check]);
      t == s.(queue := Without(s.queue, i), posted := s.posted + [s.queue[i]])
  {
    i := FirstOf(After(steps).queue);
    assert After(steps).queue[i] in After(steps).queue;
    RunOneMore(steps, Pop(i));
    RunOneMore(steps + [Pop(i)], Check);
    assert steps + [Pop(i)] + [Check] == steps + [Pop(i), Check];
  }

  lemma WithoutSubset(q: seq<Event>, i: nat, now: int)
    requires i < |q| && forall e :: e in q ==> e.at <= now
    ensures |Without(q, i)| == |q| - 1 && forall e :: e in Without(q, i) ==> e.at <= now
  {
  }

  /** Once everything queued is due, one round of pop and check per event posts it all. */
  lemma {:induction false} Drains(steps: seq<Step>) returns (rounds: seq<Step>)
    requires IsRun(steps) && After(steps).hand.Empty?
    requires forall e :: e in After(steps).queue ==> e.at <= After(steps).now
    ensures IsRun(steps + rounds) && |rounds| == 2 * |After(steps).queue|
    ensures After(steps + rounds).queue == [] && After(steps + rounds).hand.Empty?
    ensures After(steps + rounds).pushed == After(steps).pushed
    decreases |After(steps).queue|
  {
    if After(steps).queue == [] {
      rounds := [];
      assert steps + rounds == steps;
    } else {
      var i := OneRound(steps);
      WithoutSubset(After(steps).queue, i, After(steps).now);
      var rest := Drains(steps + [Pop(i), Check]);
      rounds := [Pop(i), Check] + rest;
      assert steps + [Pop(i), Check] + rest == steps + rounds;
    }
  }

  /** Then every event ever pushed has been posted, exactly as often as it was pushed. */
  lemma AllPosted(steps: seq<Step>, e: Event)
    requires IsRun(steps) && After(steps).queue == [] && After(steps).hand.Empty?
    ensures Times(After(steps).posted, e) == Times(After(steps).pushed, e)
  {
    RunConserves(steps);
    assert Accounted(After(steps), e);
  }
}
