/** Timed events: the priority queue of the timer thread and what it posts to the workers. */
module Agenda {
  datatype EventKind = NpcMove | HpRegen | NpcRespawn

  datatype Event = Event(id: int, at: int, kind: EventKind)

  // ---- counting ----

  /** How many events of one kind are listed for one object. */
  ghost function Count(s: seq<Event>, id: int, kind: EventKind): nat {
    if s == [] then 0
    else Count(s[..|s| - 1], id, kind) + (if s[|s| - 1].id == id && s[|s| - 1].kind == kind then 1 else 0)
  }

  lemma CountAppend(s: seq<Event>, e: Event, id: int, kind: EventKind)
    ensures Count(s + [e], id, kind) == Count(s, id, kind) + (if e.id == id && e.kind == kind then 1 else 0)
  {
    assert (s + [e])[..|s|] == s;
  }

  lemma {:induction false} CountConcat(s: seq<Event>, t: seq<Event>, id: int, kind: EventKind)
    ensures Count(s + t, id, kind) == Count(s, id, kind) + Count(t, id, kind)
    decreases |t|
  {
    if t == [] {
      assert s + t == s;
    } else {
      assert (s + t)[..|s + t| - 1] == s + t[..|t| - 1];
      CountConcat(s, t[..|t| - 1], id, kind);
    }
  }

  function Without(s: seq<Event>, i: nat): seq<Event>
    requires i < |s|
  {
    s[..i] + s[i + 1..]
  }

  lemma CountWithout(s: seq<Event>, i: nat, id: int, kind: EventKind)
    requires i < |s|
    ensures Count(Without(s, i), id, kind) == Count(s, id, kind) - (if s[i].id == id && s[i].kind == kind then 1 else 0)
  {
    CountConcat(s[..i], s[i + 1..], id, kind);
    CountConcat(s[..i + 1], s[i + 1..], id, kind);
    CountAppend(s[..i], s[i], id, kind);
    assert s[..i + 1] == s[..i] + [s[i]];
    assert s == s[..i + 1] + s[i + 1..];
  }

  lemma {:induction false} CountPositive(s: seq<Event>, i: nat)
    requires i < |s|
    ensures Count(s, s[i].id, s[i].kind) >= 1
    decreases |s|
  {
    if i < |s| - 1 {
      CountPositive(s[..|s| - 1], i);
    }
  }

  // ---- the timer thread ----

  /** Index of an event nothing else in the queue precedes. */
  ghost predicate Earliest(queue: seq<Event>, i: nat) {
    i < |queue| && forall j :: 0 <= j < |queue| ==> queue[i].at <= queue[j].at
  }

  /** The head of the priority queue. */
  method FindEarliest(queue: seq<Event>) returns (i: nat)
    requires queue != []
    ensures Earliest(queue, i)
  {
    i := 0;
    for k := 1 to |queue|
      invariant i < |queue| && forall j :: 0 <= j < k ==> queue[i].at <= queue[j].at
    {
      if queue[k].at < queue[i].at {
        i := k;
      }
    }
  }
}
