/**
 Whole runs of the engine on the linked lists: seeding, merging and walking them event
 after event leaves the queues that the engine leaves.
 */
module EngineListRuns {
  import opened Options
  import opened QueueOrder
  import opened QueuePairs
  import opened Engine
  import opened EngineInvariants
  import opened EngineUpdates
  import opened EngineFreeing
  import opened EngineSimulation
  import opened EngineRuns
  import opened EngineQueues
  import opened EngineLists
  import W = WaitQueues

  type Pair = (Tid, W.WaitThread)

  // ----- initial threads -----

  /** New threads have joined the new queue, and nothing else happened to the queues. */
  ghost predicate Joined(a: Engine.Threads, b: Engine.Threads) {
    && a.newQ <= b.newQ && (forall i :: |a.newQ| <= i < |b.newQ| ==> a.next <= b.newQ[i])
    && b.retrigQ == a.retrigQ && b.cur == a.cur && b.bump == a.bump && a.next <= b.next
  }

  lemma MoreJoined(a: Engine.Threads, b: Engine.Threads, n: int)
    requires MoreThreads(a, b, n)
    ensures Joined(a, b)
  {
  }

  lemma SeededJoins(c: Config, h: Claims, inp: Input, e: State, r: nat)
    requires WellFormed(c) && r < |c.rules| && Inv(c, h, e, {}) && Obeys(c, h, inp)
    ensures var f := Seeded(c, inp, e, r).0;
            && Joined(e.th, f.th) && Distinct(f.th.newQ + f.th.retrigQ)
            && forall i :: |e.th.newQ| <= i < |f.th.newQ| ==> f.th.newQ[i] !in f.th.bump
  {
    hide Inv, Obeys, NewInstance, Simulate, MoreThreads, Joined;
    var (f, ret) := Seeded(c, inp, e, r);
    SeededKeeps(c, h, inp, e, r);
    MoreJoined(e.th, f.th, Created(ret));
    JoinedUnflagged(c, h, e, f.th);
    InvDistinct(c, h, f, {e.ri.next});
    var q := f.th.newQ + f.th.retrigQ;
    assert forall i :: 0 <= i < |q| ==> q[i] == Queue(f.th)[i];
  }

  /** What is left to do for the rule. */
  lemma SeedRuleThreads(c: Config, h: Claims, inp: Input, e: State, r: nat)
    requires WellFormed(c) && r < |c.rules|
    ensures var (e1, ret) := Seeded(c, inp, e, r);
            SeedRule(c, inp, e, r).0.th == if ret > 0 then BumpLast(e1.th, e1.th.newQ) else e1.th
  {
    hide NewInstance, Simulate, FreeInstance;
    FreeInstanceCurrent(c, Seeded(c, inp, e, r).0, e.ri.next);
  }

  /** The threads that have joined do not bump. */
  lemma JoinedUnflagged(c: Config, h: Claims, e: State, f: Engine.Threads)
    requires Inv(c, h, e, {}) && Joined(e.th, f)
    ensures forall i :: |e.th.newQ| <= i < |f.newQ| ==> f.newQ[i] !in f.bump
  {
    hide Inv;
    OldThreads(c, h, e);
  }

  /** Pairs for the threads that have joined. */
  lemma JoinedPairs(q: W.Queues, a: Engine.Threads, b: Engine.Threads, newQ: seq<Pair>, retrigQ: seq<Pair>,
                    created: seq<W.WaitThread>)
    returns (all: seq<Pair>)
    requires a.newQ == Mapped(First, newQ) && a.retrigQ == Mapped(First, retrigQ) && Joined(a, b)
    requires q.newQ == Mapped(Second, newQ) + created && q.retrigQ == Mapped(Second, retrigQ)
    requires |created| == |b.newQ| - |a.newQ| && forall u :: u in created ==> !u.bump
    requires forall p: Pair :: p in newQ + retrigQ ==> (p.1.bump <==> p.0 in a.bump)
    requires forall i :: |a.newQ| <= i < |b.newQ| ==> b.newQ[i] !in b.bump
    ensures Mirrors(q, b, all, retrigQ) && newQ <= all
    ensures forall p: Pair :: p in all[|newQ|..] ==> p.1 in created && a.next <= p.0
  {
    hide Mirrors, Mapped, Joined;
    var pairs := JoinPairs(a, b, created);
    all := newQ + pairs;
    MappedSum(First<Tid, W.WaitThread>, newQ, pairs);
    MappedSum(Second<Tid, W.WaitThread>, newQ, pairs);
    JoinedSame(a, b);
    assert all[|newQ|..] == pairs;
    forall p: Pair | p in all + retrigQ ensures p.1.bump <==> p.0 in b.bump {
      assert p in newQ + retrigQ || p in pairs;
    }
    Mirror(q, b, all, retrigQ);
  }

  lemma JoinedSame(a: Engine.Threads, b: Engine.Threads)
    requires Joined(a, b)
    ensures b.newQ == a.newQ + b.newQ[|a.newQ|..] && b.retrigQ == a.retrigQ && b.bump == a.bump
  {
  }

  lemma JoinPairs(a: Engine.Threads, b: Engine.Threads, created: seq<W.WaitThread>) returns (pairs: seq<Pair>)
    requires Joined(a, b) && |created| == |b.newQ| - |a.newQ| && forall u :: u in created ==> !u.bump
    requires forall i :: |a.newQ| <= i < |b.newQ| ==> b.newQ[i] !in b.bump
    ensures Mapped(First, pairs) == b.newQ[|a.newQ|..] && Mapped(Second, pairs) == created
    ensures forall p: Pair :: p in pairs ==> p.1 in created && a.next <= p.0 && !p.1.bump && p.0 !in b.bump
  {
    pairs := Zip(b.newQ[|a.newQ|..], created);
  }

  lemma MirroredBumps(q: W.Queues, th: Engine.Threads, newQ: seq<Pair>, retrigQ: seq<Pair>)
    requires Mirrors(q, th, newQ, retrigQ)
    ensures forall p: Pair :: p in newQ + retrigQ ==> (p.1.bump <==> p.0 in th.bump)
  {
    forall p: Pair | p in newQ + retrigQ ensures p.1.bump <==> p.0 in th.bump {
      var i :| 0 <= i < |newQ + retrigQ| && (newQ + retrigQ)[i] == p;
      if i < |newQ| {
        assert newQ[i] == p && q.newQ[i] == p.1;
      } else {
        assert retrigQ[i - |newQ|] == p && q.retrigQ[i - |newQ|] == p.1;
      }
    }
  }

  /** The threads of a rule are created. */
  method CreateList(q: W.Queues, c: Config, ghost h: Claims, inp: Input, e: State, r: nat, ghost newQ: seq<Pair>,
                    ghost retrigQ: seq<Pair>)
    returns (f: State, ret: int, ghost all: seq<Pair>)
    requires WellFormed(c) && r < |c.rules| && Inv(c, h, e, {}) && Obeys(c, h, inp)
    requires q.Valid() && q.cur == [] && Mirrors(q, e.th, newQ, retrigQ)
    modifies q`newHead, q`newTail, q`newQ, Last(q.newQ)`next
    ensures q.Valid() && (f, ret) == Seeded(c, inp, e, r) && Mirrors(q, f.th, all, retrigQ) && newQ <= all
    ensures forall p: Pair :: p in all[|newQ|..] ==> fresh(p.1) && e.th.next <= p.0
  {
    hide Inv, Obeys, Seeded, q.Valid, Joined;
    var seeded := Seeded(c, inp, e, r);
    f, ret := seeded.0, seeded.1;
    SeededJoins(c, h, inp, e, r);
    MirroredBumps(q, e.th, newQ, retrigQ);
    assert |e.th.newQ| <= |f.th.newQ| by { JoinedSame(e.th, f.th); }
    ghost var created := q.CreateThreads(|f.th.newQ| - |e.th.newQ|, e.ri.next);
    all := JoinedPairs(q, e.th, f.th, newQ, retrigQ, created);
  }

  /** Where the lists mirror the queues, the tails of the new queues are a pair. */
  lemma TailsPair(q: W.Queues, th: Engine.Threads, newQ: seq<Pair>, retrigQ: seq<Pair>, p: Pair)
    requires q.Valid() && Mirrors(q, th, newQ, retrigQ) && Distinct(th.newQ + th.retrigQ) && p in newQ + retrigQ
    ensures p.0 in Last(th.newQ) <==> p.1 in Last(q.newQ)
  {
    hide q.Valid, Distinct, W.Distinct, W.Disjoint, Mapped;
    ListsApart(q);
    PairsApart(newQ, retrigQ);
    if newQ != [] {
      var k := |newQ| - 1;
      assert (newQ + retrigQ)[k] == newQ[k];
      assert th.newQ[k] == newQ[k].0 && q.newQ[k] == newQ[k].1 by { MappedAt(newQ, k); }
      assert |th.newQ| == |q.newQ| == |newQ| by { MappedAt(newQ, k); }
      var i :| 0 <= i < |newQ + retrigQ| && (newQ + retrigQ)[i] == p;
    } else {
      assert th.newQ == [] && q.newQ == [];
    }
  }

  lemma MappedAt(ps: seq<Pair>, k: nat)
    requires k < |ps|
    ensures |Mapped(First<Tid, W.WaitThread>, ps)| == |Mapped(Second<Tid, W.WaitThread>, ps)| == |ps|
    ensures Mapped(First, ps)[k] == ps[k].0 && Mapped(Second, ps)[k] == ps[k].1
  {
  }

  /** The threads of a rule are marked off. */
  method MarkTail(q: W.Queues, ghost th: Engine.Threads, ghost newQ: seq<Pair>, ghost retrigQ: seq<Pair>)
    requires q.Valid() && q.cur == [] && Mirrors(q, th, newQ, retrigQ) && Distinct(th.newQ + th.retrigQ)
    modifies Last(q.newQ)`bump
    ensures q.Valid() && Mirrors(q, BumpLast(th, th.newQ), newQ, retrigQ)
  {
    hide q.Valid, Distinct, Mapped, Mirrors;
    MirroredBumps(q, th, newQ, retrigQ);
    forall p: Pair | p in newQ + retrigQ ensures p.0 in Last(th.newQ) <==> p.1 in Last(q.newQ) {
      TailsPair(q, th, newQ, retrigQ, p);
    }
    MirroredQueues(q, th, newQ, retrigQ);
    forall p: Pair | p in newQ + retrigQ ensures p.1 in q.newQ || p.1 in q.retrigQ {
      PairQueued(newQ, retrigQ, p);
    }
    q.BumpNew();
    BumpedIs(th);
    Mirror(q, BumpLast(th, th.newQ), newQ, retrigQ);
  }

  lemma MirroredQueues(q: W.Queues, th: Engine.Threads, newQ: seq<Pair>, retrigQ: seq<Pair>)
    requires Mirrors(q, th, newQ, retrigQ)
    ensures th.newQ == Mapped(First, newQ) && q.newQ == Mapped(Second, newQ)
    ensures th.retrigQ == Mapped(First, retrigQ) && q.retrigQ == Mapped(Second, retrigQ)
  {
  }

  lemma BumpedIs(th: Engine.Threads)
    ensures var f := BumpLast(th, th.newQ);
            f.newQ == th.newQ && f.retrigQ == th.retrigQ && f.bump == th.bump + Last(th.newQ) && f.next == th.next
  {
  }

  /** create_rule_initial_threads, one rule. */
  method SeedList(q: W.Queues, c: Config, ghost h: Claims, inp: Input, e: State, r: nat, ghost newQ: seq<Pair>,
                  ghost retrigQ: seq<Pair>)
    returns (f: State, ghost all: seq<Pair>)
    requires WellFormed(c) && r < |c.rules| && Inv(c, h, e, {}) && Obeys(c, h, inp)
    requires q.Valid() && q.cur == [] && Mirrors(q, e.th, newQ, retrigQ)
    modifies q`newHead, q`newTail, q`newQ, Last(q.newQ)
    ensures q.Valid() && f == SeedRule(c, inp, e, r).0 && Mirrors(q, f.th, all, retrigQ) && newQ <= all
    ensures forall p: Pair :: p in all[|newQ|..] ==> fresh(p.1) && e.th.next <= p.0
    ensures e.th.next <= f.th.next
  {
    hide Inv, Obeys, Seeded, q.Valid, Mirrors, SeedRule, Distinct;
    SeededJoins(c, h, inp, e, r);
    SeedRuleThreads(c, h, inp, e, r);
    ghost var before := q.newQ;
    MirroredQueues(q, e.th, newQ, retrigQ);
    var ret;
    f, ret, all := CreateList(q, c, h, inp, e, r, newQ, retrigQ);
    MirroredQueues(q, f.th, all, retrigQ);
    f := SeedRule(c, inp, e, r).0;
    if ret > 0 {
      LastOrNew(before, q.newQ, newQ, all);
      MarkTail(q, Seeded(c, inp, e, r).0.th, all, retrigQ);
    }
  }

  lemma LastOrNew(a: seq<W.WaitThread>, b: seq<W.WaitThread>, n: seq<Pair>, all: seq<Pair>)
    requires a == Mapped(Second, n) && b == Mapped(Second, all) && n <= all
    ensures forall u :: u in Last(b) ==> u in Last(a) || exists p: Pair :: p in all[|n|..] && p.1 == u
  {
    if |all| > |n| {
      assert all[|all| - 1] in all[|n|..];
    } else {
      assert n == all;
    }
  }

  lemma SeedAllStep(c: Config, h: Claims, inp: Input, e: State, r: nat)
    requires WellFormed(c) && r < |c.rules| && Inv(c, h, e, {}) && Obeys(c, h, inp) && SeedAll(c, inp, e, r).Some?
    ensures var f := SeedRule(c, inp, e, r).0; Inv(c, h, f, {}) && SeedAll(c, inp, e, r) == SeedAll(c, inp, f, r + 1)
  {
    hide Inv, Obeys, SeedRule;
    SeedRuleKeeps(c, h, inp, e, r);
  }

  lemma NewBehind(newQ: seq<Pair>, p: seq<Pair>, q: seq<Pair>, x: Pair)
    requires newQ <= p <= q && x in q[|newQ|..]
    ensures x in p[|newQ|..] || x in q[|p|..]
  {
    var i :| 0 <= i < |q| - |newQ| && q[|newQ|..][i] == x;
    if |newQ| + i < |p| {
      assert p[|newQ|..][i] == x;
    } else {
      assert q[|p|..][|newQ| + i - |p|] == x;
    }
  }

  /** create_rule_initial_threads, the loop over the rules. */
  method SeedLists(q: W.Queues, c: Config, ghost h: Claims, inp: Input, e: State, ghost newQ: seq<Pair>,
                   ghost retrigQ: seq<Pair>)
    returns (f: State, ghost all: seq<Pair>)
    requires WellFormed(c) && Inv(c, h, e, {}) && Obeys(c, h, inp) && SeedAll(c, inp, e, 0).Some?
    requires q.Valid() && q.cur == [] && Mirrors(q, e.th, newQ, retrigQ)
    modifies q`newHead, q`newTail, q`newQ, q.newQ
    ensures q.Valid() && f == SeedAll(c, inp, e, 0).value && Mirrors(q, f.th, all, retrigQ) && newQ <= all
    ensures forall p: Pair :: p in all[|newQ|..] ==> fresh(p.1) && e.th.next <= p.0
    ensures e.th.next <= f.th.next
  {
    hide Inv, Obeys, q.Valid, Mirrors, SeedRule;
    MirroredQueues(q, e.th, newQ, retrigQ);
    var r := 0;
    f, all := e, newQ;
    while r < |c.rules|
      invariant 0 <= r <= |c.rules| && Inv(c, h, f, {}) && SeedAll(c, inp, e, 0) == SeedAll(c, inp, f, r)
      invariant q.Valid() && Mirrors(q, f.th, all, retrigQ) && newQ <= all && e.th.next <= f.th.next
      invariant forall p: Pair :: p in all[|newQ|..] ==> fresh(p.1) && e.th.next <= p.0
    {
      ghost var before := all;
      SeedAllStep(c, h, inp, f, r);
      MirroredQueues(q, f.th, all, retrigQ);
      LastOrNew(old(q.newQ), q.newQ, newQ, all);
      f, all := SeedList(q, c, h, inp, f, r, all, retrigQ);
      forall p: Pair | p in all[|newQ|..] ensures fresh(p.1) && e.th.next <= p.0 {
        NewBehind(newQ, before, all, p);
      }
      r := r + 1;
    }
  }

  // ----- one event -----

  /** The merged list stands for the merged queue. */
  method MergeLists(q: W.Queues, ghost th: Engine.Threads, ghost newQ: seq<Pair>, ghost retrigQ: seq<Pair>)
    requires q.Valid() && q.cur == [] && th.cur == [] && Mirrors(q, th, newQ, retrigQ)
    modifies q, Last(q.newQ)`next
    ensures Ready(q, Merge(th)) && Merge(th).cur == Mapped(First, newQ + retrigQ)
    ensures q.cur == Mapped(Second, newQ + retrigQ)
  {
    hide q.Valid, Mapped;
    MappedSum(First<Tid, W.WaitThread>, newQ, retrigQ);
    MappedSum(Second<Tid, W.WaitThread>, newQ, retrigQ);
    q.Merge();
  }

  /** The start of the walk. */
  lemma StartIs(c: Config, h: Claims, inp: Input, e: State)
    requires WellFormed(c) && Resting(c, h, e) && Obeys(c, h, inp) && Inject(c, inp, e).Some?
    ensures var e0 := e.(ev := Begin(e.ev));
            && Inv(c, h, e0, {}) && SeedAll(c, inp, e0, 0).Some? && SeedAll(c, inp, e0, 0).value.th.cur == []
            && Start(c, inp, e) == SeedAll(c, inp, e0, 0).value.(th := Merge(SeedAll(c, inp, e0, 0).value.th))
            && Inject(c, inp, e).value.th == EvtLoop(c, inp, Start(c, inp, e), |Start(c, inp, e).th.cur|).th
  {
    hide Inv, Obeys, SeedAll, EvtLoop;
    BeginKeeps(c, h, e);
    SeedAllKeeps(c, h, inp, e.(ev := Begin(e.ev)), 0);
  }

  /** A thread of the merged queue waited before the event or was seeded by it. */
  lemma MergedOrigin(newQ: seq<Pair>, all: seq<Pair>, retrigQ: seq<Pair>, cur: seq<Tid>, objects: seq<W.WaitThread>,
                     j: nat)
    requires newQ <= all && cur == Mapped(First, all + retrigQ) && objects == Mapped(Second, all + retrigQ)
    requires j < |cur|
    ensures (cur[j], objects[j]) in newQ + retrigQ || (cur[j], objects[j]) in all[|newQ|..]
  {
    var p := (all + retrigQ)[j];
    if j < |newQ| {
      assert newQ[j] == p;
    } else if j < |all| {
      assert all[|newQ|..][j - |newQ|] == p;
    }
  }

  /** inject_event on linked lists that stand for the queues of the engine: in the end
      they do so again.  A thread that waited before and waits on keeps its object. */
  method InjectList(q: W.Queues, c: Config, ghost h: Claims, inp: Input, e: State, ghost newQ: seq<Pair>,
                    ghost retrigQ: seq<Pair>)
    returns (f: State, ghost n: seq<Pair>, ghost r: seq<Pair>)
    requires WellFormed(c) && Resting(c, h, e) && Obeys(c, h, inp) && Inject(c, inp, e).Some?
    requires q.Valid() && q.cur == [] && Mirrors(q, e.th, newQ, retrigQ)
    modifies q, q.newQ, q.retrigQ
    ensures q.Valid() && q.cur == [] && f == Inject(c, inp, e).value && Mirrors(q, f.th, n, r)
    ensures forall p: Pair :: p in n + r ==> p in newQ + retrigQ || (fresh(p.1) && e.th.next <= p.0)
  {
    hide Inv, Obeys, q.Valid, Mirrors, SeedAll, EvtLoop, Inject, Mapped;
    StartIs(c, h, inp, e);
    StartKeeps(c, h, inp, e);
    f := e.(ev := Begin(e.ev));
    MirroredQueues(q, e.th, newQ, retrigQ);
    ghost var all;
    f, all := SeedLists(q, c, h, inp, f, newQ, retrigQ);
    MirroredQueues(q, f.th, all, retrigQ);
    LastOrNew(old(q.newQ), q.newQ, newQ, all);
    MergeLists(q, f.th, all, retrigQ);
    f := f.(th := Merge(f.th));
    ghost var objects := q.cur;
    forall j | 0 <= j < |f.th.cur|
      ensures (f.th.cur[j], objects[j]) in newQ + retrigQ || (f.th.cur[j], objects[j]) in all[|newQ|..]
    {
      MergedOrigin(newQ, all, retrigQ, f.th.cur, objects, j);
    }
    n, r := WalkEvent(q, c, h, inp, f);
    f := Inject(c, inp, e).value;
  }

  // ----- whole runs -----

  lemma InjectsStep(c: Config, h: Claims, inputs: seq<Input>, e: State)
    requires WellFormed(c) && Resting(c, h, e) && inputs != [] && Obeys(c, h, inputs[0])
    requires Injects(c, inputs, e).Some?
    ensures Inject(c, inputs[0], e).Some? && Resting(c, h, Inject(c, inputs[0], e).value)
    ensures Injects(c, inputs, e) == Injects(c, inputs[1..], Inject(c, inputs[0], e).value)
  {
    hide Resting, Obeys, Inject;
    InjectKeeps(c, h, inputs[0], e);
  }

  lemma ListMembers(q: W.Queues, th: Engine.Threads, newQ: seq<Pair>, retrigQ: seq<Pair>)
    requires Mirrors(q, th, newQ, retrigQ)
    ensures |q.newQ| == |newQ| && |q.retrigQ| == |retrigQ|
    ensures forall j :: 0 <= j < |newQ| ==> q.newQ[j] == newQ[j].1 && newQ[j] in newQ + retrigQ
    ensures forall j :: 0 <= j < |retrigQ| ==> q.retrigQ[j] == retrigQ[j].1 && retrigQ[j] in newQ + retrigQ
  {
  }

  /** Any run, from the empty lists on. */
  method RunLists(c: Config, ghost h: Claims, inputs: seq<Input>)
    returns (q: W.Queues, f: State, ghost newQ: seq<Pair>, ghost retrigQ: seq<Pair>)
    requires WellFormed(c) && (forall i :: 0 <= i < |inputs| ==> Obeys(c, h, inputs[i]))
    requires Injects(c, inputs, EMPTY).Some?
    ensures q.Valid() && q.cur == [] && f == Injects(c, inputs, EMPTY).value && Mirrors(q, f.th, newQ, retrigQ)
  {
    hide Resting, Obeys, Inject, q.Valid, Mirrors, Mapped;
    q := new W.Queues();
    f, newQ, retrigQ := EMPTY, [], [];
    EmptyRests(c, h);
    Mirror(q, f.th, [], []);
    var i := 0;
    while i < |inputs|
      invariant 0 <= i <= |inputs| && Resting(c, h, f)
      invariant Injects(c, inputs, EMPTY) == Injects(c, inputs[i..], f)
      invariant q.Valid() && q.cur == [] && Mirrors(q, f.th, newQ, retrigQ)
      invariant fresh(q) && forall p: Pair :: p in newQ + retrigQ ==> fresh(p.1)
    {
      InjectsStep(c, h, inputs[i..], f);
      assert inputs[i..][1..] == inputs[i + 1..];
      ListMembers(q, f.th, newQ, retrigQ);
      assert forall j :: 0 <= j < |q.newQ| ==> fresh(q.newQ[j]);
      assert forall j :: 0 <= j < |q.retrigQ| ==> fresh(q.retrigQ[j]);
      f, newQ, retrigQ := InjectList(q, c, h, inputs[i], f, newQ, retrigQ);
      i := i + 1;
    }
  }
}
