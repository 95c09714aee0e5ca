/**
 The walk over linked thread objects and the event loop of the engine on identifiers: with
 what the engine does to each thread, the walk leaves the queue that the engine leaves.
 */
module EngineLists {
  import opened Options
  import opened QueueOrder
  import opened QueuePairs
  import opened Engine
  import opened EngineInvariants
  import opened EngineUpdates
  import opened EngineFreeing
  import opened EngineRuns
  import opened EngineQueues
  import W = WaitQueues

  /** What the engine does to the thread under evaluation. */
  function FateOf(c: Config, inp: Input, e: State): W.Fate
    requires WellFormed(c) && e.th.cur != []
  {
    if e.th.cur[0] in Arrive(inp, e.th).killed then W.Reaped
    else W.Evaluated(e.th.cur[0] in e.th.onlyOnce, |ItemOf(c, inp, e).created|)
  }

  /** What it does to the first n threads of the current queue. */
  function Fates(c: Config, inp: Input, e: State, n: nat): seq<W.Fate>
    requires WellFormed(c)
    decreases n
  {
    if n == 0 || e.th.cur == [] then [] else [FateOf(c, inp, e)] + Fates(c, inp, Visit(c, inp, e), n - 1)
  }

  /** The threads that are still to be met keep their flags. */
  lemma BumpsStay(c: Config, h: Claims, e: State, f: Engine.Threads, x: Item<Tid>)
    requires Inv(c, h, e, {}) && e.th.cur != [] && Steps(e.th, f, x)
    ensures forall i :: 0 < i < |e.th.cur| ==> (e.th.cur[i] in f.bump <==> e.th.cur[i] in e.th.bump)
  {
    hide Inv, Step;
    InvDistinct(c, h, e, {});
    OldThreads(c, h, e);
    forall i | 0 < i < |e.th.cur| ensures e.th.cur[i] in f.bump <==> e.th.cur[i] in e.th.bump {
      var t := e.th.cur[i];
      PlaceApart(e.th.newQ, e.th.retrigQ, e.th.cur, i);
      assert t in e.th.cur;
    }
  }

  lemma PlaceApart(newQ: seq<Tid>, retrigQ: seq<Tid>, cur: seq<Tid>, k: nat)
    requires Distinct(newQ + retrigQ + cur) && 0 < k < |cur|
    ensures cur[k] !in newQ && cur[k] !in retrigQ && cur[k] != cur[0]
  {
    var q := newQ + retrigQ + cur;
    assert q[|newQ| + |retrigQ| + k] == cur[k] && q[|newQ| + |retrigQ|] == cur[0];
    forall i | 0 <= i < |newQ| ensures newQ[i] != cur[k] {
      assert q[i] == newQ[i];
    }
    forall i | 0 <= i < |retrigQ| ensures retrigQ[i] != cur[k] {
      assert q[|newQ| + i] == retrigQ[i];
    }
  }

  /** What happened to the thread objects of a walk is fates, and bumps were their flags. */
  ghost predicate Met(items: seq<Item<W.WaitThread>>, fates: seq<W.Fate>, bumps: seq<bool>) {
    && |items| == |fates| == |bumps|
    && forall i :: 0 <= i < |items| ==> W.Meets(items[i], items[i].thread, fates[i], bumps[i])
  }

  /** The flags of the current queue. */
  ghost predicate FlagsAre(th: Engine.Threads, bumps: seq<bool>) {
    |bumps| == |th.cur| && forall i :: 0 <= i < |bumps| ==> (bumps[i] <==> th.cur[i] in th.bump)
  }

  /** One thread: the same happens to it in the engine and in the walk. */
  lemma SameFate(c: Config, inp: Input, e: State, x: Item<W.WaitThread>, bump: bool)
    requires WellFormed(c) && e.th.cur != [] && (bump <==> e.th.cur[0] in e.th.bump)
    requires W.Meets(x, x.thread, FateOf(c, inp, e), bump)
    ensures var y := ItemOf(c, inp, e); y.ends == x.ends && y.waits == x.waits && |y.created| == |x.created|
  {
    hide Evaluate, Arrive;
  }

  /** The same happens to every thread. */
  lemma {:induction false} ShapesAgree(c: Config, h: Claims, inp: Input, e: State, items: seq<Item<W.WaitThread>>,
                                       bumps: seq<bool>)
    requires WellFormed(c) && Inv(c, h, e, {}) && Obeys(c, h, inp) && |items| == |e.th.cur| && FlagsAre(e.th, bumps)
    requires Met(items, Fates(c, inp, e, |items|), bumps)
    ensures SameShape(Items(c, inp, e, |items|), items)
    decreases |items|
  {
    hide Inv, Obeys, Visit, ItemOf, FateOf, Steps, W.Meets, Items, Fates, Met, FlagsAre, SameShape;
    var n := |items|;
    NoneMet(c, inp, e);
    if n > 0 {
      var e1 := Visit(c, inp, e);
      var x := ItemOf(c, inp, e);
      VisitIs(c, h, inp, e);
      VisitKeeps(c, h, inp, e);
      BumpsStay(c, h, e, e1.th, x);
      FlagNow(e.th, bumps);
      NextFlags(e.th, e1.th, bumps);
      OneMet(c, inp, e, n - 1);
      MetRest(items, FateOf(c, inp, e), Fates(c, inp, e1, n - 1), bumps);
      SameFate(c, inp, e, items[0], bumps[0]);
      ShapesAgree(c, h, inp, e1, items[1..], bumps[1..]);
      ShapeRest(x, Items(c, inp, e1, n - 1), items);
    }
  }

  lemma NoneMet(c: Config, inp: Input, e: State)
    requires WellFormed(c)
    ensures Items(c, inp, e, 0) == [] && SameShape<Tid, W.WaitThread>([], [])
  {
  }

  lemma OneMet(c: Config, inp: Input, e: State, n: nat)
    requires WellFormed(c) && e.th.cur != []
    ensures Items(c, inp, e, n + 1) == [ItemOf(c, inp, e)] + Items(c, inp, Visit(c, inp, e), n)
    ensures Fates(c, inp, e, n + 1) == [FateOf(c, inp, e)] + Fates(c, inp, Visit(c, inp, e), n)
  {
    hide Visit, ItemOf, FateOf;
  }

  lemma MetRest(items: seq<Item<W.WaitThread>>, fate: W.Fate, fates: seq<W.Fate>, bumps: seq<bool>)
    requires items != [] && Met(items, [fate] + fates, bumps)
    ensures Met(items[1..], fates, bumps[1..]) && W.Meets(items[0], items[0].thread, fate, bumps[0])
  {
    hide W.Meets;
    forall i | 0 <= i < |fates| ensures W.Meets(items[1..][i], items[1..][i].thread, fates[i], bumps[1..][i]) {
      assert ([fate] + fates)[i + 1] == fates[i];
    }
  }

  lemma ShapeRest(x: Item<Tid>, ours: seq<Item<Tid>>, items: seq<Item<W.WaitThread>>)
    requires items != [] && SameShape(ours, items[1..])
    requires x.ends == items[0].ends && x.waits == items[0].waits && |x.created| == |items[0].created|
    ensures SameShape([x] + ours, items)
  {
    var all := [x] + ours;
    forall i | 0 <= i < |all|
      ensures all[i].ends == items[i].ends && all[i].waits == items[i].waits && |all[i].created| == |items[i].created|
    {
      if i > 0 {
        assert all[i] == ours[i - 1] && items[i] == items[1..][i - 1];
      }
    }
  }

  lemma FlagNow(th: Engine.Threads, bumps: seq<bool>)
    requires FlagsAre(th, bumps) && th.cur != []
    ensures |bumps| == |th.cur| && (bumps[0] <==> th.cur[0] in th.bump)
  {
  }

  lemma NextFlags(a: Engine.Threads, b: Engine.Threads, bumps: seq<bool>)
    requires FlagsAre(a, bumps) && a.cur != [] && b.cur == a.cur[1..]
    requires forall i :: 0 < i < |a.cur| ==> (a.cur[i] in b.bump <==> a.cur[i] in a.bump)
    ensures FlagsAre(b, bumps[1..])
  {
    forall i | 0 <= i < |b.cur| ensures bumps[1..][i] <==> b.cur[i] in b.bump {
      assert b.cur[i] == a.cur[i + 1];
    }
  }

  /** Place by place, the queues of the walk hold the objects of the threads that the
      queues of the engine hold, and the same places bump. */
  lemma WalkFollows(c: Config, h: Claims, inp: Input, e: State, items: seq<Item<W.WaitThread>>, bumps: seq<bool>)
    returns (newQ: seq<(Tid, W.WaitThread)>, retrigQ: seq<(Tid, W.WaitThread)>)
    requires WellFormed(c) && Inv(c, h, e, {}) && Obeys(c, h, inp) && |items| == |e.th.cur| && FlagsAre(e.th, bumps)
    requires e.th.newQ == [] && e.th.retrigQ == [] && Met(items, Fates(c, inp, e, |items|), bumps)
    ensures var f := EvtLoop(c, inp, e, |items|).th;
            && f.newQ == Mapped(First, newQ) && NewQueue(items) == Mapped(Second, newQ)
            && f.retrigQ == Mapped(First, retrigQ) && RetrigQueue(items) == Mapped(Second, retrigQ)
    ensures SameShape(Items(c, inp, e, |items|), items)
    ensures newQ == NewQueue(ZipItems(Items(c, inp, e, |items|), items))
    ensures retrigQ == RetrigQueue(ZipItems(Items(c, inp, e, |items|), items))
  {
    hide Inv, Obeys, EvtLoop, Items, Fates, NewQueue, RetrigQueue, Ends, W.Meets, Met, FlagsAre, Mapped;
    var n := |items|;
    ShapesAgree(c, h, inp, e, items, bumps);
    var ours := Items(c, inp, e, n);
    NoItems<Tid>();
    WalkRegroups(c, h, inp, e, n, []);
    assert [] + ours == ours;
    WalksAgree(ours, items);
    newQ, retrigQ := NewQueue(ZipItems(ours, items)), RetrigQueue(ZipItems(ours, items));
  }

  /** The engine's bumps are the ends of parts. */
  lemma EngineEnds(c: Config, h: Claims, inp: Input, e: State, items: seq<Item<W.WaitThread>>)
    requires WellFormed(c) && Inv(c, h, e, {}) && Obeys(c, h, inp) && |items| == |e.th.cur|
    requires e.th.newQ == [] && e.th.retrigQ == [] && SameShape(Items(c, inp, e, |items|), items)
    ensures var th, zs := EvtLoop(c, inp, e, |items|).th, ZipItems(Items(c, inp, e, |items|), items);
            && Distinct(th.newQ + th.retrigQ) && Ends(items) == Image(Second, Ends(zs))
            && forall t :: t in th.newQ + th.retrigQ ==> (t in th.bump <==> t in Image(First, Ends(zs)))
  {
    hide Inv, Obeys, EvtLoop, Items, NewQueue, RetrigQueue, Ends, Image, Mapped, SameShape, Distinct;
    var n, ours := |items|, Items(c, inp, e, |items|);
    NoItems<Tid>();
    WalkRegroups(c, h, inp, e, n, []);
    assert [] + ours == ours;
    WalksAgree(ours, items);
    EvtLoopKeeps(c, h, inp, e, n);
    var f := EvtLoop(c, inp, e, n);
    InvDistinct(c, h, f, {});
    assert Queue(f.th) == f.th.newQ + f.th.retrigQ;
  }

  /** Threads that the engine creates on the way are new. */
  lemma {:induction false} NewcomersNew(c: Config, h: Claims, inp: Input, e: State, n: nat)
    requires WellFormed(c) && Inv(c, h, e, {}) && Obeys(c, h, inp) && n <= |e.th.cur|
    ensures forall j, t :: 0 <= j < |Items(c, inp, e, n)| && t in Items(c, inp, e, n)[j].created ==> e.th.next <= t
    decreases n
  {
    hide Inv, Obeys, Visit, ItemOf;
    if n > 0 {
      VisitIs(c, h, inp, e);
      VisitKeeps(c, h, inp, e);
      NewcomersNew(c, h, inp, Visit(c, inp, e), n - 1);
    }
  }

  // ----- the linked lists -----

  /** The current list stands for the current queue of the engine. */
  ghost predicate Ready(q: W.Queues, th: Engine.Threads)
    reads q, q.newQ, q.retrigQ, q.cur
  {
    && q.Valid() && q.newQ == [] && q.retrigQ == [] && q.curHead == W.First(q.cur)
    && |q.cur| == |th.cur| && forall i :: 0 <= i < |th.cur| ==> (q.cur[i].bump <==> th.cur[i] in th.bump)
  }

  /** The new and the retrigger list stand for those of the engine, as paired. */
  ghost predicate Mirrors(q: W.Queues, th: Engine.Threads, newQ: seq<(Tid, W.WaitThread)>,
                          retrigQ: seq<(Tid, W.WaitThread)>)
    reads q, q.newQ, q.retrigQ
  {
    && th.newQ == Mapped(First, newQ) && q.newQ == Mapped(Second, newQ)
    && th.retrigQ == Mapped(First, retrigQ) && q.retrigQ == Mapped(Second, retrigQ)
    && (forall i :: 0 <= i < |th.newQ| ==> (q.newQ[i].bump <==> th.newQ[i] in th.bump))
    && (forall i :: 0 <= i < |th.retrigQ| ==> (q.retrigQ[i].bump <==> th.retrigQ[i] in th.bump))
  }

  lemma {:induction false} FatesMany(c: Config, h: Claims, inp: Input, e: State, n: nat)
    requires WellFormed(c) && Inv(c, h, e, {}) && Obeys(c, h, inp) && n <= |e.th.cur|
    ensures |Fates(c, inp, e, n)| == n
    decreases n
  {
    hide Inv, Obeys, Visit, FateOf;
    if n > 0 {
      VisitKeeps(c, h, inp, e);
      FatesMany(c, h, inp, Visit(c, inp, e), n - 1);
    }
  }

  /** No thread is in two places of the queues. */
  lemma PairsApart(newQ: seq<(Tid, W.WaitThread)>, retrigQ: seq<(Tid, W.WaitThread)>)
    requires Distinct(Mapped(First, newQ) + Mapped(First, retrigQ))
    requires W.Distinct(Mapped(Second, newQ)) && W.Distinct(Mapped(Second, retrigQ))
    requires W.Disjoint(Mapped(Second, newQ), Mapped(Second, retrigQ))
    ensures var q := newQ + retrigQ; forall i, j :: 0 <= i < j < |q| ==> q[i].0 != q[j].0 && q[i].1 != q[j].1
  {
    var q := newQ + retrigQ;
    var a, b := Mapped(First, q), Mapped(Second, q);
    MappedSum(First<Tid, W.WaitThread>, newQ, retrigQ);
    MappedSum(Second<Tid, W.WaitThread>, newQ, retrigQ);
    W.DistinctJoin(Mapped(Second, newQ), Mapped(Second, retrigQ));
    assert Distinct(a) && W.Distinct(b);
    forall i, j | 0 <= i < j < |q| ensures q[i].0 != q[j].0 && q[i].1 != q[j].1 {
      assert a[i] != a[j] && b[i] != b[j];
    }
  }

  /** The lists are disjoint and hold no thread twice. */
  lemma ListsApart(q: W.Queues)
    requires q.Valid()
    ensures W.Distinct(q.newQ) && W.Distinct(q.retrigQ) && W.Disjoint(q.newQ, q.retrigQ)
  {
  }

  /** The two threads of a pair bump alike. */
  lemma PairBumps(q: W.Queues, th: Engine.Threads, zs: seq<Item<(Tid, W.WaitThread)>>, p: (Tid, W.WaitThread))
    requires var n, r := NewQueue(zs), RetrigQueue(zs);
             && th.newQ == Mapped(First, n) && th.retrigQ == Mapped(First, r) && Distinct(th.newQ + th.retrigQ)
             && q.newQ == Mapped(Second, n) && q.retrigQ == Mapped(Second, r) && q.Valid()
             && p in n + r
    requires forall t :: t in th.newQ + th.retrigQ ==> (t in th.bump <==> t in Image(First, Ends(zs)))
    requires q.Flagged(Image(Second, Ends(zs)))
    ensures p.1.bump <==> p.0 in th.bump
  {
    hide NewQueue, RetrigQueue, Ends, Image, Mapped, q.Valid, Distinct, W.Distinct, W.Disjoint;
    var n, r := NewQueue(zs), RetrigQueue(zs);
    ListsApart(q);
    PairsApart(n, r);
    SameEnds(zs, p);
    PairQueued(n, r, p);
  }

  lemma Mirror(q: W.Queues, th: Engine.Threads, n: seq<(Tid, W.WaitThread)>, r: seq<(Tid, W.WaitThread)>)
    requires th.newQ == Mapped(First, n) && th.retrigQ == Mapped(First, r)
    requires q.newQ == Mapped(Second, n) && q.retrigQ == Mapped(Second, r)
    requires forall p: (Tid, W.WaitThread) :: p in n + r ==> (p.1.bump <==> p.0 in th.bump)
    ensures Mirrors(q, th, n, r)
  {
    assert forall i :: 0 <= i < |n| ==> n[i] in n + r;
    assert forall i :: 0 <= i < |r| ==> r[i] in n + r;
  }

  /** The queues and the lists are paired and marked by the items; so they bump alike. */
  lemma MarksAgree(q: W.Queues, th: Engine.Threads, zs: seq<Item<(Tid, W.WaitThread)>>)
    requires var n, r := NewQueue(zs), RetrigQueue(zs);
             && th.newQ == Mapped(First, n) && th.retrigQ == Mapped(First, r) && Distinct(th.newQ + th.retrigQ)
             && q.newQ == Mapped(Second, n) && q.retrigQ == Mapped(Second, r) && q.Valid()
    requires forall t :: t in th.newQ + th.retrigQ ==> (t in th.bump <==> t in Image(First, Ends(zs)))
    requires q.Flagged(Image(Second, Ends(zs)))
    ensures Mirrors(q, th, NewQueue(zs), RetrigQueue(zs))
  {
    hide NewQueue, RetrigQueue, Ends, Image, Mapped, q.Valid, Distinct, q.Flagged, Mirrors;
    var n, r := NewQueue(zs), RetrigQueue(zs);
    forall p: (Tid, W.WaitThread) | p in n + r ensures p.1.bump <==> p.0 in th.bump {
      PairBumps(q, th, zs, p);
    }
    Mirror(q, th, n, r);
  }

  lemma PairQueued(n: seq<(Tid, W.WaitThread)>, r: seq<(Tid, W.WaitThread)>, p: (Tid, W.WaitThread))
    requires p in n + r
    ensures p.0 in Mapped(First, n) + Mapped(First, r) && p.1 in Mapped(Second, n) + Mapped(Second, r)
  {
    var i :| 0 <= i < |n + r| && (n + r)[i] == p;
    assert (Mapped(First, n) + Mapped(First, r))[i] == p.0;
    assert (Mapped(Second, n) + Mapped(Second, r))[i] == p.1;
  }

  /** The pair was in the current queue, or the walk has created it. */
  ghost predicate Origin(p: (Tid, W.WaitThread), cur: seq<Tid>, objects: seq<W.WaitThread>, next: Tid,
                         newcomers: set<W.WaitThread>)
    requires |cur| == |objects|
  {
    (exists j :: 0 <= j < |cur| && p == (cur[j], objects[j])) || (next <= p.0 && p.1 in newcomers)
  }

  /** The pairs of the queues come from the walk. */
  lemma Origins(c: Config, h: Claims, inp: Input, e: State, items: seq<Item<W.WaitThread>>,
                objects: seq<W.WaitThread>, newcomers: set<W.WaitThread>, p: (Tid, W.WaitThread))
    requires WellFormed(c) && Inv(c, h, e, {}) && Obeys(c, h, inp) && |items| == |e.th.cur| == |objects|
    requires SameShape(Items(c, inp, e, |items|), items)
    requires forall j :: 0 <= j < |items| ==> items[j].thread == objects[j]
    requires forall j, u :: 0 <= j < |items| && u in items[j].created ==> u in newcomers
    requires var zs := ZipItems(Items(c, inp, e, |items|), items); p in NewQueue(zs) + RetrigQueue(zs)
    ensures Origin(p, e.th.cur, objects, e.th.next, newcomers)
  {
    hide Inv, Obeys, Items, NewQueue, RetrigQueue, Origin;
    WalkVisits(c, h, inp, e, |items|);
    NewcomersNew(c, h, inp, e, |items|);
    PairOrigin(Items(c, inp, e, |items|), items, e.th.cur, objects, e.th.next, newcomers, p);
  }

  lemma PairOrigin(ours: seq<Item<Tid>>, items: seq<Item<W.WaitThread>>, cur: seq<Tid>, objects: seq<W.WaitThread>,
                   next: Tid, newcomers: set<W.WaitThread>, p: (Tid, W.WaitThread))
    requires SameShape(ours, items) && |items| == |cur| == |objects|
    requires forall j :: 0 <= j < |items| ==> ours[j].thread == cur[j] && items[j].thread == objects[j]
    requires forall j, t :: 0 <= j < |ours| && t in ours[j].created ==> next <= t
    requires forall j, u :: 0 <= j < |items| && u in items[j].created ==> u in newcomers
    requires p in NewQueue(ZipItems(ours, items)) + RetrigQueue(ZipItems(ours, items))
    ensures Origin(p, cur, objects, next, newcomers)
  {
    hide NewQueue, RetrigQueue;
    var zs := ZipItems(ours, items);
    QueueOrigins(zs, p);
    var j :| 0 <= j < |zs| && (p == zs[j].thread || p in zs[j].created);
    if p in zs[j].created {
      var i :| 0 <= i < |zs[j].created| && zs[j].created[i] == p;
      assert p.0 in ours[j].created && p.1 in items[j].created;
    }
  }

  lemma MetAll(objects: seq<W.WaitThread>, items: seq<Item<W.WaitThread>>, fates: seq<W.Fate>, bumps: seq<bool>)
    requires |items| == |objects| == |fates| == |bumps|
    requires forall i :: 0 <= i < |items| ==> W.Meets(items[i], objects[i], fates[i], bumps[i])
    ensures Met(items, fates, bumps) && forall j :: 0 <= j < |items| ==> items[j].thread == objects[j]
  {
  }

  /** After the walk. */
  lemma Follows(q: W.Queues, c: Config, h: Claims, inp: Input, e: State, objects: seq<W.WaitThread>, bumps: seq<bool>,
                items: seq<Item<W.WaitThread>>, newcomers: set<W.WaitThread>)
    returns (newQ: seq<(Tid, W.WaitThread)>, retrigQ: seq<(Tid, W.WaitThread)>)
    requires WellFormed(c) && Inv(c, h, e, {}) && Obeys(c, h, inp) && e.th.newQ == [] && e.th.retrigQ == []
    requires |items| == |objects| == |e.th.cur| && FlagsAre(e.th, bumps)
    requires Met(items, Fates(c, inp, e, |items|), bumps)
    requires forall j :: 0 <= j < |items| ==> items[j].thread == objects[j]
    requires forall j, u :: 0 <= j < |items| && u in items[j].created ==> u in newcomers
    requires q.Valid() && q.newQ == NewQueue(items) && q.retrigQ == RetrigQueue(items) && q.Flagged(Ends(items))
    ensures Mirrors(q, EvtLoop(c, inp, e, |e.th.cur|).th, newQ, retrigQ)
    ensures forall p :: p in newQ + retrigQ ==> Origin(p, e.th.cur, objects, e.th.next, newcomers)
  {
    hide Inv, Obeys, EvtLoop, Items, Fates, NewQueue, RetrigQueue, Ends, Met, Mirrors, Mapped, Image, q.Flagged,
         q.Valid, FlagsAre, Origin, Distinct, SameShape;
    newQ, retrigQ := WalkFollows(c, h, inp, e, items, bumps);
    EngineEnds(c, h, inp, e, items);
    MarksAgree(q, EvtLoop(c, inp, e, |items|).th, ZipItems(Items(c, inp, e, |items|), items));
    forall p | p in newQ + retrigQ ensures Origin(p, e.th.cur, objects, e.th.next, newcomers) {
      Origins(c, h, inp, e, items, objects, newcomers, p);
    }
  }

  /** The loop over the linked current list, with what the engine does to each thread,
      leaves linked lists that stand for the queues that the engine leaves; a thread that
      waits on keeps its object, and a new thread has a new one. */
  method WalkEvent(q: W.Queues, c: Config, ghost h: Claims, inp: Input, e: State)
    returns (ghost newQ: seq<(Tid, W.WaitThread)>, ghost retrigQ: seq<(Tid, W.WaitThread)>)
    requires WellFormed(c) && Inv(c, h, e, {}) && Obeys(c, h, inp) && e.th.newQ == [] && e.th.retrigQ == []
    requires Ready(q, e.th)
    modifies q, q.cur
    ensures q.Valid() && q.cur == [] && Mirrors(q, EvtLoop(c, inp, e, |e.th.cur|).th, newQ, retrigQ)
    ensures forall p :: p in newQ + retrigQ ==>
              (exists j :: 0 <= j < |e.th.cur| && p == (e.th.cur[j], old(q.cur[j]))) || (e.th.next <= p.0 && fresh(p.1))
  {
    hide Inv, Obeys, EvtLoop, Items, Fates, NewQueue, RetrigQueue, Ends, W.Meets, Mirrors;
    ghost var objects, bumps := q.cur, seq(|q.cur|, i requires 0 <= i < |q.cur| reads q, q.cur => q.cur[i].bump);
    var n := |e.th.cur|;
    FatesMany(c, h, inp, e, n);
    ghost var items := q.Walk(Fates(c, inp, e, n));
    MetAll(objects, items, Fates(c, inp, e, n), bumps);
    ghost var newcomers := set j, u | 0 <= j < n && u in items[j].created :: u;
    newQ, retrigQ := Follows(q, c, h, inp, e, objects, bumps, items, newcomers);
  }
}
