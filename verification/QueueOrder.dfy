/**
 The queue that one walk of the event loop must leave, as a function of what happens
 to each thread that it meets.
 */
module QueueOrder {
  /** One thread of the walk: whether it ends a segment, whether it waits on, and the
      threads that its transition created.  A thread that was reaped when the walk
      met it ends no segment, whatever its flag. */
  datatype Item<T> = Item(thread: T, ends: bool, waits: bool, created: seq<T>)

  /** The threads that the walk meets. */
  function Met<T>(items: seq<Item<T>>): seq<T> {
    if items == [] then [] else Met(items[..|items| - 1]) + [items[|items| - 1].thread]
  }

  /** The threads that are created, in the order of their creation. */
  function Newcomers<T>(items: seq<Item<T>>): seq<T> {
    if items == [] then [] else Newcomers(items[..|items| - 1]) + items[|items| - 1].created
  }

  /** The threads that wait on, in the order of the walk. */
  function Survivors<T>(items: seq<Item<T>>): seq<T> {
    if items == [] then [] else Survivors(items[..|items| - 1]) + Stay(items[|items| - 1])
  }

  function Stay<T>(x: Item<T>): seq<T> { if x.waits then [x.thread] else [] }

  /** The length of the first segment, if some item ends it. */
  function FirstEnd<T>(items: seq<Item<T>>): (k: nat)
    ensures k <= |items|
    ensures k < |items| <==> exists i :: 0 <= i < |items| && items[i].ends
    ensures k < |items| ==> items[k].ends
    ensures forall i :: 0 <= i < k ==> !items[i].ends
  {
    if items == [] || items[0].ends then 0
    else
      assert forall i :: 1 <= i < |items| ==> items[i] == items[1..][i - 1];
      1 + FirstEnd(items[1..])
  }

  /** The new queue after the walk: segment by segment, newcomers and then survivors;
      the last segment, which nothing ends, has only its newcomers there. */
  function NewQueue<T>(items: seq<Item<T>>): seq<T>
    decreases |items|
  {
    var k := FirstEnd(items);
    if k == |items| then Newcomers(items)
    else Newcomers(items[..k + 1]) + Survivors(items[..k + 1]) + NewQueue(items[k + 1..])
  }

  /** The survivors of the last segment stay in the retrigger queue. */
  function RetrigQueue<T>(items: seq<Item<T>>): seq<T>
    decreases |items|
  {
    var k := FirstEnd(items);
    if k == |items| then Survivors(items) else RetrigQueue(items[k + 1..])
  }

  function Last<T>(q: seq<T>): set<T> { if q == [] then {} else {q[|q| - 1]} }

  /** The threads that end a segment of the next walk: the last newcomer and the last
      survivor of every segment that was ended. */
  function Ends<T>(items: seq<Item<T>>): set<T>
    decreases |items|
  {
    var k := FirstEnd(items);
    if k == |items| then {}
    else Last(Newcomers(items[..k + 1])) + Last(Survivors(items[..k + 1])) + Ends(items[k + 1..])
  }

  // ----- one item more, as the loop handles it -----

  /** The two queues after one more item: newcomers join the new queue, a survivor the
      retrigger queue, and the end of a segment commits the one behind the other. */
  function Step<T>(newQ: seq<T>, retrigQ: seq<T>, x: Item<T>): (seq<T>, seq<T>) {
    var n, r := newQ + x.created, retrigQ + Stay(x);
    if x.ends then (n + r, []) else (n, r)
  }

  /** The commit bumps the tails of both queues. */
  function StepEnds<T>(newQ: seq<T>, retrigQ: seq<T>, ends: set<T>, x: Item<T>): set<T> {
    if x.ends then ends + Last(newQ + x.created) + Last(retrigQ + Stay(x)) else ends
  }

  lemma OneMore<T>(items: seq<Item<T>>, x: Item<T>)
    ensures Met(items + [x]) == Met(items) + [x.thread]
    ensures Newcomers(items + [x]) == Newcomers(items) + x.created
    ensures Survivors(items + [x]) == Survivors(items) + Stay(x)
  {
    assert (items + [x])[..|items|] == items;
  }

  lemma OpenQueues<T>(open: seq<Item<T>>)
    requires FirstEnd(open) == |open|
    ensures NewQueue(open) == Newcomers(open) && RetrigQueue(open) == Survivors(open) && Ends(open) == {}
  {
  }

  lemma {:induction false} Segment<T>(items: seq<Item<T>>, k: nat)
    requires k == FirstEnd(items) < |items|
    ensures NewQueue(items) == Newcomers(items[..k + 1]) + Survivors(items[..k + 1]) + NewQueue(items[k + 1..])
    ensures RetrigQueue(items) == RetrigQueue(items[k + 1..])
    ensures Ends(items) == Last(Newcomers(items[..k + 1])) + Last(Survivors(items[..k + 1])) + Ends(items[k + 1..])
  {
    hide Newcomers, Survivors, FirstEnd;
  }

  lemma NextFirst<T>(items: seq<Item<T>>, x: Item<T>)
    ensures FirstEnd(items) < |items| ==> FirstEnd(items + [x]) == FirstEnd(items)
    ensures FirstEnd(items) == |items| ==> FirstEnd(items + [x]) == |items| + if x.ends then 0 else 1
  {
    var all := items + [x];
    assert forall i :: 0 <= i < |items| ==> all[i] == items[i];
    assert all[|items|] == x;
  }

  /** The loop computes the regrouping, one item at a time. */
  lemma {:induction false} NextItem<T>(items: seq<Item<T>>, x: Item<T>)
    ensures var (n, r) := Step(NewQueue(items), RetrigQueue(items), x);
            NewQueue(items + [x]) == n && RetrigQueue(items + [x]) == r
    decreases |items|
  {
    hide NewQueue, RetrigQueue, Ends, Newcomers, Survivors, FirstEnd;
    var k, all := FirstEnd(items), items + [x];
    NextFirst(items, x);
    OneMore(items, x);
    if k == |items| {
      OpenQueues(items);
      if x.ends {
        Segment(all, k);
        assert all[..k + 1] == all && all[k + 1..] == [];
        NoItems<T>();
      } else {
        OpenQueues(all);
      }
    } else {
      Segment(items, k);
      Segment(all, k);
      var seg, rest := items[..k + 1], items[k + 1..];
      assert all[..k + 1] == seg && all[k + 1..] == rest + [x];
      NextItem(rest, x);
      StepBehind(Newcomers(seg) + Survivors(seg), NewQueue(rest), RetrigQueue(rest), x);
    }
  }

  lemma StepBehind<T>(p: seq<T>, q: seq<T>, r: seq<T>, x: Item<T>)
    ensures Step(p + q, r, x) == (p + Step(q, r, x).0, Step(q, r, x).1)
  {
    assert p + q + x.created == p + (q + x.created);
    assert p + (q + x.created) + (r + Stay(x)) == p + ((q + x.created) + (r + Stay(x)));
  }

  lemma NoItems<T>()
    ensures FirstEnd<T>([]) == 0 && Met<T>([]) == [] && NewQueue<T>([]) == [] && RetrigQueue<T>([]) == []
    ensures Ends<T>([]) == {}
  {
  }

  lemma LastOfSum<T>(a: seq<T>, b: seq<T>)
    ensures Last(a + b) == if b == [] then Last(a) else Last(b)
  {
    if b == [] {
      assert a + b == a;
    }
  }

  /** And it bumps the ends of the regrouped queue. */
  lemma {:induction false} NextEnds<T>(items: seq<Item<T>>, x: Item<T>)
    ensures Ends(items + [x]) == StepEnds(NewQueue(items), RetrigQueue(items), Ends(items), x)
    decreases |items|
  {
    hide NewQueue, RetrigQueue, Ends, Newcomers, Survivors, FirstEnd, Last;
    var k, all := FirstEnd(items), items + [x];
    NextFirst(items, x);
    if k == |items| {
      OneMore(items, x);
      OpenQueues(items);
      if x.ends {
        Segment(all, k);
        assert all[..k + 1] == all && all[k + 1..] == [];
        NoItems<T>();
      } else {
        OpenQueues(all);
      }
    } else {
      var seg, rest := items[..k + 1], items[k + 1..];
      Segment(items, k);
      Segment(all, k);
      assert all[..k + 1] == seg && all[k + 1..] == rest + [x];
      NextEnds(rest, x);
      LastOfSum(Newcomers(seg) + Survivors(seg), NewQueue(rest) + x.created);
      LastOfSum(Newcomers(seg), Survivors(seg));
      assert NewQueue(items) + x.created == Newcomers(seg) + Survivors(seg) + (NewQueue(rest) + x.created);
      NoLast<T>();
    }
  }

  lemma NoLast<T>()
    ensures Last<T>([]) == {}
  {
  }

  lemma LastIn<T>(q: seq<T>)
    ensures forall t :: t in Last(q) ==> t in q
  {
  }

  /** The ends are in the new queue. */
  lemma {:induction false} EndsQueued<T>(items: seq<Item<T>>)
    ensures forall t :: t in Ends(items) ==> t in NewQueue(items)
    decreases |items|
  {
    var k := FirstEnd(items);
    if k < |items| {
      hide Newcomers, Survivors;
      EndsQueued(items[k + 1..]);
      LastIn(Newcomers(items[..k + 1]));
      LastIn(Survivors(items[..k + 1]));
    }
  }

  // ----- nothing is lost -----

  /** The regrouped queue holds the newcomers and the survivors, each once. */
  lemma {:induction false} NothingLost<T>(items: seq<Item<T>>)
    ensures multiset(NewQueue(items) + RetrigQueue(items)) == multiset(Newcomers(items)) + multiset(Survivors(items))
    decreases |items|
  {
    hide Newcomers, Survivors;
    var k := FirstEnd(items);
    if k < |items| {
      var seg, rest := items[..k + 1], items[k + 1..];
      NothingLost(rest);
      Parts(seg, rest);
      assert items == seg + rest;
      Regroup(Newcomers(seg), Survivors(seg), NewQueue(rest), RetrigQueue(rest), Newcomers(rest), Survivors(rest));
    }
  }

  lemma Regroup<T>(n: seq<T>, s: seq<T>, q: seq<T>, r: seq<T>, n': seq<T>, s': seq<T>)
    requires multiset(q + r) == multiset(n') + multiset(s')
    ensures multiset(n + s + q + r) == multiset(n + n') + multiset(s + s')
  {
    assert n + s + q + r == (n + s) + (q + r);
  }

  lemma {:induction false} Parts<T>(a: seq<Item<T>>, b: seq<Item<T>>)
    ensures Newcomers(a + b) == Newcomers(a) + Newcomers(b) && Survivors(a + b) == Survivors(a) + Survivors(b)
    decreases |b|
  {
    hide Newcomers, Survivors;
    if b == [] {
      assert a + b == a;
      NoneNew<T>();
    } else {
      var n := |b| - 1;
      Parts(a, b[..n]);
      OneMore(b[..n], b[n]);
      OneMore(a + b[..n], b[n]);
      assert a + b[..n] + [b[n]] == a + b && b[..n] + [b[n]] == b;
      assert Newcomers(a + b) == Newcomers(a) + (Newcomers(b[..n]) + b[n].created);
      assert Survivors(a + b) == Survivors(a) + (Survivors(b[..n]) + Stay(b[n]));
    }
  }

  lemma NoneNew<T>()
    ensures Newcomers<T>([]) == [] && Survivors<T>([]) == []
  {
  }

  // ----- following the pointers of a queue -----

  /** What following next pointers from a thread of a queue reaches. */
  function From<T(==)>(q: seq<T>, t: T): seq<T> {
    if q == [] then [] else if q[0] == t then q else From(q[1..], t)
  }

  lemma {:induction false} FromAt<T>(q: seq<T>, k: nat)
    requires k < |q| && q[k] !in q[..k]
    ensures From(q, q[k]) == q[k..]
    decreases k
  {
    if k > 0 {
      assert q[0] in q[..k] && q[1..][..k - 1] == q[1..k];
      assert forall t :: t in q[1..k] ==> t in q[..k];
      FromAt(q[1..], k - 1);
    }
  }

  lemma {:induction false} FromNone<T>(q: seq<T>, t: T)
    requires t !in q
    ensures From(q, t) == []
    decreases |q|
  {
    if q != [] {
      FromNone(q[1..], t);
    }
  }
}
