/**
 The list of active events as a doubly linked list (src/engine.c): events are appended
 when an event has been injected and unlinked from anywhere when they are freed.
 */
module ActiveEvents {
  import opened Engine

  /** active_event_t, as far as the list is concerned. */
  class Event {
    var prev: Event?
    var next: Event?

    constructor ()
      ensures prev == null && next == null
    {
      prev, next := null, null;
    }
  }

  ghost predicate Distinct(q: seq<Event>) {
    forall i, j :: 0 <= i < j < |q| ==> q[i] != q[j]
  }

  function Before(q: seq<Event>, i: int): Event? { if 0 < i <= |q| then q[i - 1] else null }

  function After(q: seq<Event>, i: int): Event? { if -1 <= i < |q| - 1 then q[i + 1] else null }

  /** Every event of q points to its neighbours. */
  ghost predicate Links(q: seq<Event>)
    reads q
  {
    forall i :: 0 <= i < |q| ==> q[i].prev == Before(q, i) && q[i].next == After(q, i)
  }

  /** The neighbours of event number k point to each other. */
  ghost predicate Bridged(q: seq<Event>, k: nat)
    requires k < |q|
    reads q
  {
    forall i :: 0 <= i < |q| && i != k ==>
      && q[i].prev == (if i == k + 1 then Before(q, k) else Before(q, i))
      && q[i].next == (if i == k - 1 then After(q, k) else After(q, i))
  }

  lemma DistinctWithout(q: seq<Event>, k: nat)
    requires k < |q| && Distinct(q)
    ensures Distinct(q[..k] + q[k + 1..])
  {
    var r := q[..k] + q[k + 1..];
    forall i, j | 0 <= i < j < |r| ensures r[i] != r[j] {
      assert r[i] == q[if i < k then i else i + 1] && r[j] == q[if j < k then j else j + 1];
    }
  }

  lemma BridgedLinks(q: seq<Event>, k: nat)
    requires k < |q| && Bridged(q, k) && Distinct(q)
    ensures var r := q[..k] + q[k + 1..];
            Links(r) && Distinct(r) && After(r, -1) == (if k == 0 then After(q, 0) else After(q, -1))
            && Before(r, |r|) == if k == |q| - 1 then Before(q, k) else Before(q, |q|)
  {
    hide Distinct;
    var r := q[..k] + q[k + 1..];
    DistinctWithout(q, k);
    forall i | 0 <= i < |r| ensures r[i].prev == Before(r, i) && r[i].next == After(r, i) {
      assert r[i] == if i < k then q[i] else q[i + 1];
    }
  }

  lemma AppendedLinks(q: seq<Event>, e: Event)
    requires e !in q && Distinct(q) && e.prev == Before(q, |q|) && e.next == null
    requires forall i :: 0 <= i < |q| ==>
               q[i].prev == Before(q, i) && q[i].next == if i == |q| - 1 then e else After(q, i)
    ensures Links(q + [e]) && Distinct(q + [e])
  {
    var r := q + [e];
    forall i | 0 <= i < |r| ensures r[i].prev == Before(r, i) && r[i].next == After(r, i) {
      if i < |q| {
        assert r[i] == q[i];
      }
    }
  }

  lemma Neighbours(q: seq<Event>, k: nat)
    requires Links(q) && k < |q|
    ensures q[k].prev == Before(q, k) && q[k].next == After(q, k)
    ensures (q[k].prev == null <==> k == 0) && (q[k].next == null <==> k == |q| - 1)
  {
  }

  lemma Apart(q: seq<Event>, k: nat)
    requires Distinct(q) && k < |q|
    ensures forall i :: 0 <= i < |q| && i != k ==> q[i] != q[k]
  {
  }

  /** What the engine does to its sequence of active events. */
  lemma {:induction false} WithoutAt(q: seq<Event>, k: nat)
    requires Distinct(q) && k < |q|
    ensures Without(q, q[k]) == q[..k] + q[k + 1..]
    decreases k
  {
    if k > 0 {
      WithoutAt(q[1..], k - 1);
      assert q[1..][..k - 1] == q[1..k] && q[1..][k..] == q[k + 1..];
      assert [q[0]] + q[1..k] == q[..k];
    }
  }

  class ActiveList {
    var head: Event?
    var tail: Event?
    var count: int
    ghost var events: seq<Event>

    ghost predicate Valid()
      reads this, events
    {
      && Links(events) && Distinct(events)
      && head == After(events, -1) && tail == Before(events, |events|) && count == |events|
    }

    constructor ()
      ensures Valid() && events == []
    {
      head, tail, count, events := null, null, 0, [];
    }

    /** An event that some state instance refers to is kept. */
    method Append(e: Event)
      requires Valid() && e !in events && e.prev == null && e.next == null
      modifies this, tail, e
      ensures Valid() && events == old(events) + [e]
    {
      ghost var q := events;
      if q != [] {
        Apart(q, |q| - 1);
      }
      hide Distinct;
      if head == null {
        head := e;
        tail := e;
      } else {
        assert tail == q[|q| - 1];
        e.prev := tail;
        tail.next := e;
        tail := e;
      }
      count := count + 1;
      AppendedLinks(q, e);
      hide Links;
      events := q + [e];
    }

    /** An event that is freed leaves the list as it leaves the engine's: it is alone, the first, the last, or
        between two others. */
    method Unlink(e: Event)
      requires Valid() && e in events
      modifies this, e.prev, e.next
      ensures Valid() && events == Without(old(events), e)
    {
      hide Distinct, Bridged, Before, After, Links, Without;
      ghost var q := events;
      ghost var k :| 0 <= k < |q| && q[k] == e;
      WithoutAt(q, k);
      Neighbours(q, k);
      var prev, next := e.prev, e.next;
      Bridge(prev, next, q, k);
      BridgedLinks(q, k);
      if prev == null {
        head := next;
      }
      if next == null {
        tail := prev;
      }
      count := count - 1;
      events := q[..k] + q[k + 1..];
    }
  }

  /** The neighbours of event e are linked to each other. */
  method Bridge(prev: Event?, next: Event?, ghost q: seq<Event>, ghost k: nat)
    requires Links(q) && Distinct(q) && k < |q| && prev == Before(q, k) && next == After(q, k)
    modifies prev, next
    ensures Bridged(q, k)
  {
    if k > 0 {
      Apart(q, k - 1);
    }
    if k + 1 < |q| {
      Apart(q, k + 1);
    }
    Apart(q, k);
    hide Distinct;
    if prev != null {
      prev.next := next;
    }
    if next != null {
      next.prev := prev;
    }
  }
}
