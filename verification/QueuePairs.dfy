/**
 The regrouping of a walk does not depend on what its threads are: two walks to which the
 same happens leave queues that correspond place by place.
 */
module QueuePairs {
  import opened QueueOrder

  function Mapped<A, B>(f: A -> B, q: seq<A>): (r: seq<B>)
    ensures |r| == |q| && forall i :: 0 <= i < |q| ==> r[i] == f(q[i])
  {
    seq(|q|, i requires 0 <= i < |q| => f(q[i]))
  }

  function Image<A, B>(f: A -> B, s: set<A>): set<B> { set x | x in s :: f(x) }

  function Renamed<A, B>(f: A -> B, x: Item<A>): Item<B> {
    Item(f(x.thread), x.ends, x.waits, Mapped(f, x.created))
  }

  function RenamedAll<A, B>(f: A -> B, items: seq<Item<A>>): (r: seq<Item<B>>)
    ensures |r| == |items| && forall i :: 0 <= i < |items| ==> r[i] == Renamed(f, items[i])
  {
    seq(|items|, i requires 0 <= i < |items| => Renamed(f, items[i]))
  }

  lemma MappedSum<A, B>(f: A -> B, p: seq<A>, q: seq<A>)
    ensures Mapped(f, p + q) == Mapped(f, p) + Mapped(f, q)
  {
  }

  lemma {:induction false} RenamedParts<A, B>(f: A -> B, items: seq<Item<A>>)
    ensures Newcomers(RenamedAll(f, items)) == Mapped(f, Newcomers(items))
    ensures Survivors(RenamedAll(f, items)) == Mapped(f, Survivors(items))
    decreases |items|
  {
    if items != [] {
      var n := |items| - 1;
      var x := items[n];
      assert RenamedAll(f, items)[..n] == RenamedAll(f, items[..n]);
      RenamedParts(f, items[..n]);
      MappedSum(f, Newcomers(items[..n]), x.created);
      MappedSum(f, Survivors(items[..n]), Stay(x));
      assert Mapped(f, Stay(x)) == Stay(Renamed(f, x));
    }
  }

  lemma RenamedFirstEnd<A, B>(f: A -> B, items: seq<Item<A>>)
    ensures FirstEnd(RenamedAll(f, items)) == FirstEnd(items)
  {
    var k, m := FirstEnd(items), FirstEnd(RenamedAll(f, items));
    assert forall i :: 0 <= i < |items| ==> RenamedAll(f, items)[i].ends == items[i].ends;
    assert k < |items| ==> items[k].ends;
    assert m < |items| ==> RenamedAll(f, items)[m].ends;
  }

  lemma RenamedLast<A, B>(f: A -> B, q: seq<A>)
    ensures Last(Mapped(f, q)) == Image(f, Last(q))
  {
  }

  lemma RenamedSplit<A, B>(f: A -> B, items: seq<Item<A>>, k: nat)
    requires k <= |items|
    ensures RenamedAll(f, items)[..k] == RenamedAll(f, items[..k])
    ensures RenamedAll(f, items)[k..] == RenamedAll(f, items[k..])
  {
  }

  lemma ImageSum<A, B>(f: A -> B, s: set<A>, t: set<A>)
    ensures Image(f, s + t) == Image(f, s) + Image(f, t)
  {
  }

  lemma NoImage<A, B>(f: A -> B)
    ensures Image(f, {}) == {}
  {
  }

  /** Renaming commutes with the regrouping. */
  lemma {:induction false} RenamedQueues<A, B>(f: A -> B, items: seq<Item<A>>)
    ensures NewQueue(RenamedAll(f, items)) == Mapped(f, NewQueue(items))
    ensures RetrigQueue(RenamedAll(f, items)) == Mapped(f, RetrigQueue(items))
    ensures Ends(RenamedAll(f, items)) == Image(f, Ends(items))
    decreases |items|
  {
    hide NewQueue, RetrigQueue, Ends, Newcomers, Survivors, FirstEnd, Last, Mapped, RenamedAll, Image;
    var k, all := FirstEnd(items), RenamedAll(f, items);
    RenamedFirstEnd(f, items);
    if k == |items| {
      OpenQueues(items);
      OpenQueues(all);
      RenamedParts(f, items);
      NoImage(f);
    } else {
      var a, b := items[..k + 1], items[k + 1..];
      Segment(items, k);
      Segment(all, k);
      RenamedSplit(f, items, k + 1);
      RenamedParts(f, a);
      RenamedQueues(f, b);
      MappedSum(f, Newcomers(a), Survivors(a));
      MappedSum(f, Newcomers(a) + Survivors(a), NewQueue(b));
      RenamedLast(f, Newcomers(a));
      RenamedLast(f, Survivors(a));
      ImageSum(f, Last(Newcomers(a)), Last(Survivors(a)));
      ImageSum(f, Last(Newcomers(a)) + Last(Survivors(a)), Ends(b));
    }
  }

  // ----- pairs -----

  function First<A, B>(p: (A, B)): A { p.0 }

  function Second<A, B>(p: (A, B)): B { p.1 }

  /** The same happens to the threads of two walks. */
  ghost predicate SameShape<A, B>(a: seq<Item<A>>, b: seq<Item<B>>) {
    |a| == |b| && forall i {:trigger a[i]} {:trigger b[i]} :: 0 <= i < |a| ==>
      a[i].ends == b[i].ends && a[i].waits == b[i].waits && |a[i].created| == |b[i].created|
  }

  function Zip<A, B>(a: seq<A>, b: seq<B>): (r: seq<(A, B)>)
    requires |a| == |b|
    ensures |r| == |a| && forall i :: 0 <= i < |a| ==> r[i] == (a[i], b[i])
  {
    seq(|a|, i requires 0 <= i < |a| => (a[i], b[i]))
  }

  ghost function ZipItems<A, B>(a: seq<Item<A>>, b: seq<Item<B>>): (r: seq<Item<(A, B)>>)
    requires SameShape(a, b)
    ensures |r| == |a|
    ensures forall i :: 0 <= i < |a| ==>
              r[i] == Item((a[i].thread, b[i].thread), a[i].ends, a[i].waits, Zip(a[i].created, b[i].created))
  {
    seq(|a|, i requires 0 <= i < |a| =>
      Item((a[i].thread, b[i].thread), a[i].ends, a[i].waits, Zip(a[i].created, b[i].created)))
  }

  lemma ZipProjects<A, B>(a: seq<Item<A>>, b: seq<Item<B>>)
    requires SameShape(a, b)
    ensures RenamedAll(First<A, B>, ZipItems(a, b)) == a
    ensures RenamedAll(Second<A, B>, ZipItems(a, b)) == b
  {
    var zs := ZipItems(a, b);
    forall i | 0 <= i < |a| ensures Renamed(First<A, B>, zs[i]) == a[i] && Renamed(Second<A, B>, zs[i]) == b[i] {
      assert Mapped(First<A, B>, zs[i].created) == a[i].created;
      assert Mapped(Second<A, B>, zs[i].created) == b[i].created;
    }
  }

  /** Two walks to which the same happens leave queues of the same threads, paired as the
      walks met and created them. */
  lemma WalksAgree<A, B>(a: seq<Item<A>>, b: seq<Item<B>>)
    requires SameShape(a, b)
    ensures var zs := ZipItems(a, b);
            && NewQueue(a) == Mapped(First<A, B>, NewQueue(zs)) && NewQueue(b) == Mapped(Second<A, B>, NewQueue(zs))
            && RetrigQueue(a) == Mapped(First<A, B>, RetrigQueue(zs))
            && RetrigQueue(b) == Mapped(Second<A, B>, RetrigQueue(zs))
            && Ends(a) == Image(First<A, B>, Ends(zs)) && Ends(b) == Image(Second<A, B>, Ends(zs))
  {
    var zs := ZipItems(a, b);
    ZipProjects(a, b);
    RenamedQueues(First<A, B>, zs);
    RenamedQueues(Second<A, B>, zs);
  }

  // ----- where the threads of the queues come from -----

  lemma {:induction false} PartOrigins<T>(items: seq<Item<T>>, x: T)
    ensures x in Newcomers(items) ==> exists j :: 0 <= j < |items| && x in items[j].created
    ensures x in Survivors(items) ==> exists j :: 0 <= j < |items| && x == items[j].thread
    decreases |items|
  {
    if items != [] {
      var n := |items| - 1;
      PartOrigins(items[..n], x);
      assert forall j :: 0 <= j < n ==> items[..n][j] == items[j];
      if x in Newcomers(items) && x !in items[n].created {
        var j :| 0 <= j < n && x in items[..n][j].created;
        assert x in items[j].created;
      }
      if x in Survivors(items) && x != items[n].thread {
        var j :| 0 <= j < n && x == items[..n][j].thread;
        assert x == items[j].thread;
      }
    }
  }

  /** Every thread that the walk leaves in a queue was met or created by it. */
  lemma QueueOrigins<T>(items: seq<Item<T>>, x: T)
    requires x in NewQueue(items) + RetrigQueue(items)
    ensures exists j :: 0 <= j < |items| && (x == items[j].thread || x in items[j].created)
  {
    hide NewQueue, RetrigQueue, Newcomers, Survivors;
    NothingLost(items);
    assert x in multiset(NewQueue(items) + RetrigQueue(items));
    PartOrigins(items, x);
  }

  /** A function that tells the elements of a queue apart reflects membership. */
  lemma ImageMember<A, B>(f: A -> B, q: seq<A>, s: set<A>, x: A)
    requires forall i, j :: 0 <= i < j < |q| ==> f(q[i]) != f(q[j])
    requires (forall y :: y in s ==> y in q) && x in q
    ensures f(x) in Image(f, s) <==> x in s
  {
    if f(x) in Image(f, s) {
      var y :| y in s && f(y) == f(x);
      var i :| 0 <= i < |q| && q[i] == y;
      var j :| 0 <= j < |q| && q[j] == x;
    }
  }

  /** Where neither projection confuses two threads of the queues, the same pairs end parts. */
  lemma SameEnds<A, B>(zs: seq<Item<(A, B)>>, p: (A, B))
    requires var q := NewQueue(zs) + RetrigQueue(zs);
             p in q && forall i, j :: 0 <= i < j < |q| ==> q[i].0 != q[j].0 && q[i].1 != q[j].1
    ensures p.0 in Image(First<A, B>, Ends(zs)) <==> p.1 in Image(Second<A, B>, Ends(zs))
  {
    hide NewQueue, RetrigQueue, Ends, Image;
    var q := NewQueue(zs) + RetrigQueue(zs);
    EndsQueued(zs);
    ImageMember(First<A, B>, q, Ends(zs), p);
    ImageMember(Second<A, B>, q, Ends(zs), p);
  }
}
