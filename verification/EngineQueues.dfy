/**
 The order of the wait queues: one walk of the event loop evaluates the threads of
 the current queue once each, and regroups them with the threads that they create.
 */
module EngineQueues {
  import opened Options
  import opened Engine
  import opened EngineInvariants
  import opened EngineUpdates
  import opened EngineFreeing
  import opened EngineSimulation
  import opened EngineRuns
  import opened QueueOrder

  // ----- what one walk does to each thread -----

  /** Only initial threads are reaped after their evaluation. */
  predicate Survives(th: Threads, t: Tid) { t !in th.onlyOnce }

  function ItemOf(c: Config, inp: Input, e: State): Item<Tid>
    requires WellFormed(c) && e.th.cur != []
  {
    var t := e.th.cur[0];
    var e1 := e.(th := Arrive(inp, e.th));
    if t in e1.th.killed then Item(t, false, false, [])
    else
      var e2 := Evaluate(c, inp, e1);
      Item(t, t in e.th.bump, Survives(e.th, t), e2.th.newQ[Min(|e.th.newQ|, |e2.th.newQ|)..])
  }

  function Min(a: nat, b: nat): nat { if a < b then a else b }

  function Items(c: Config, inp: Input, e: State, n: nat): seq<Item<Tid>>
    requires WellFormed(c)
    decreases n
  {
    if n == 0 || e.th.cur == [] then [] else [ItemOf(c, inp, e)] + Items(c, inp, Visit(c, inp, e), n - 1)
  }

  // ----- the walk in terms of its items -----

  /** The threads that bump after one more item: a thread that goes away bumps no more. */
  function StepBumps(newQ: seq<Tid>, retrigQ: seq<Tid>, bump: set<Tid>, x: Item<Tid>): set<Tid> {
    StepEnds(newQ, retrigQ, bump, x) - if x.waits then {} else {x.thread}
  }

  /** Item x is what the walk does to the thread under evaluation. */
  ghost predicate Steps(a: Threads, b: Threads, x: Item<Tid>)
    requires a.cur != []
  {
    && (b.newQ, b.retrigQ) == Step(a.newQ, a.retrigQ, x)
    && b.bump == StepBumps(a.newQ, a.retrigQ, a.bump, x)
    && x.thread == a.cur[0] && (x.ends ==> a.cur[0] in a.bump) && (x.waits && a.cur[0] in a.bump ==> x.ends)
    && (forall i :: 0 <= i < |x.created| ==> a.next <= x.created[i]) && Distinct(x.created)
    && b.cur == a.cur[1..] && a.next <= b.next
  }

  lemma VisitIs(c: Config, h: Claims, inp: Input, e: State)
    requires WellFormed(c) && Inv(c, h, e, {}) && Obeys(c, h, inp) && e.th.cur != []
    ensures Steps(e.th, Visit(c, inp, e).th, ItemOf(c, inp, e)) && ItemOf(c, inp, e).thread == e.th.cur[0]
  {
    hide Inv, Reap, Evaluate, Settle, StepBumps, Obeys;
    var t := e.th.cur[0];
    var e1 := e.(th := Arrive(inp, e.th));
    ArriveKeeps(c, h, inp, e);
    if t in e1.th.killed {
      ReapCurrent(c, e1);
      assert e.th.newQ + [] == e.th.newQ && e.th.retrigQ + [] == e.th.retrigQ;
      ReapedBumps(e.th, t);
    } else {
      EvaluateIs(c, h, inp, e1);
      assert Evaluate(c, inp, e1).th.cur != [];
    }
  }

  lemma EvaluateIs(c: Config, h: Claims, inp: Input, e: State)
    requires WellFormed(c) && Inv(c, h, e, {}) && Obeys(c, h, inp) && e.th.cur != []
    ensures var e2 := Evaluate(c, inp, e);
            var t := e.th.cur[0];
            && e2.th.cur == e.th.cur
            && Steps(e.th, Settle(c, e2).th,
                     Item(t, t in e.th.bump, Survives(e.th, t), e2.th.newQ[Min(|e.th.newQ|, |e2.th.newQ|)..]))
  {
    hide Inv, Evaluate, Settle, StepBumps, Obeys, Step, Steps;
    EvaluateKeeps(c, h, inp, e);
    var e2 := Evaluate(c, inp, e);
    Waiting(c, h, e);
    assert e2.th.cur == e.th.cur;
    InvDistinct(c, h, e2, {});
    SettleIs(c, e2);
    EvaluatedSteps(e, e2, Settle(c, e2).th, e.th.cur[0]);
  }

  lemma InvDistinct(c: Config, h: Claims, e: State, x: set<Rid>)
    requires Inv(c, h, e, x)
    ensures Distinct(Queue(e.th)) && Distinct(e.th.newQ)
  {
    QueueDistinct(e.th);
  }

  lemma QueueDistinct(th: Threads)
    requires Queued(th)
    ensures Distinct(Queue(th)) && Distinct(th.newQ)
  {
    ListsSet(Queue(th), th.sid.Keys);
    forall i, j | 0 <= i < j < |th.newQ| ensures th.newQ[i] != th.newQ[j] {
      assert Queue(th)[i] == th.newQ[i] && Queue(th)[j] == th.newQ[j];
    }
  }

  lemma ReapedBumps(th: Threads, t: Tid)
    ensures StepBumps(th.newQ, th.retrigQ, th.bump, Item(t, false, false, [])) == th.bump - {t}
  {
  }

  lemma EvaluatedSteps(a: State, b: State, f: Threads, t: Tid)
    requires Evaluated(a, b) && Distinct(b.th.newQ) && t in a.th.sid && a.th.cur != [] && t == a.th.cur[0]
    requires var x := Item(t, t in b.th.bump, Survives(b.th, t), []);
             && (f.newQ, f.retrigQ) == Step(b.th.newQ, b.th.retrigQ, x)
             && f.bump == StepBumps(b.th.newQ, b.th.retrigQ, b.th.bump, x)
    requires f.cur == b.th.cur[1..] && f.next == b.th.next
    ensures Steps(a.th, f, Item(t, t in a.th.bump, Survives(a.th, t), b.th.newQ[Min(|a.th.newQ|, |b.th.newQ|)..]))
  {
    assert SameThread(a.th, b.th, t);
    var created := b.th.newQ[|a.th.newQ|..];
    assert b.th.newQ + [] == b.th.newQ == a.th.newQ + created;
    forall i, j | 0 <= i < j < |created| ensures created[i] != created[j] {
      assert created[i] == b.th.newQ[|a.th.newQ| + i] && created[j] == b.th.newQ[|a.th.newQ| + j];
    }
  }

  lemma SettleIs(c: Config, e: State)
    requires e.th.cur != []
    ensures var t, f := e.th.cur[0], Settle(c, e).th;
            var x := Item(t, t in e.th.bump, Survives(e.th, t), []);
            && (f.newQ, f.retrigQ) == Step(e.th.newQ, e.th.retrigQ, x)
            && f.bump == StepBumps(e.th.newQ, e.th.retrigQ, e.th.bump, x)
            && f.next == e.th.next && f.cur == e.th.cur[1..]
  {
    hide Reap, Commit, Step, StepBumps;
    var t := e.th.cur[0];
    var th1 := if t in e.th.onlyOnce then Kill(e.th, {t}) else Retrig(e.th);
    var th2 := if t in e.th.bump then Commit(th1) else th1;
    CommitIs(th1);
    SettledIs(e.th, th1, th2, t);
    if t in e.th.onlyOnce {
      ReapCurrent(c, e.(th := th2));
    }
  }

  lemma CommitIs(th: Threads)
    ensures var f := Commit(th);
            && f.newQ == th.newQ + th.retrigQ && f.retrigQ == [] && f.bump == th.bump + Last(th.newQ) + Last(th.retrigQ)
            && f.cur == th.cur && f.next == th.next
  {
  }

  lemma SettledIs(a: Threads, b: Threads, f: Threads, t: Tid)
    requires b.newQ == a.newQ && b.retrigQ == a.retrigQ + if Survives(a, t) then [t] else []
    requires b.bump == a.bump
    requires if t in a.bump then
               f.newQ == b.newQ + b.retrigQ && f.retrigQ == [] && f.bump == b.bump + Last(b.newQ) + Last(b.retrigQ)
             else f == b
    ensures var x := Item(t, t in a.bump, Survives(a, t), []);
            && (f.newQ, f.retrigQ) == Step(a.newQ, a.retrigQ, x)
            && f.bump - (if Survives(a, t) then {} else {t}) == StepBumps(a.newQ, a.retrigQ, a.bump, x)
  {
    assert a.newQ + [] == a.newQ;
  }

  // ----- the regrouped queue -----

  /** The queues, when the walk has met the items done. */
  ghost predicate Walked(th: Threads, done: seq<Item<Tid>>) {
    && th.newQ == NewQueue(done) && th.retrigQ == RetrigQueue(done)
    && forall t :: t in th.newQ + th.retrigQ ==> (t in th.bump <==> t in Ends(done))
  }

  /** Newcomers are new, and the thread under evaluation is in no other queue. */
  ghost predicate Apart(newQ: seq<Tid>, retrigQ: seq<Tid>, bump: set<Tid>, x: Item<Tid>) {
    && x.thread !in newQ && x.thread !in retrigQ && x.thread !in x.created
    && (forall t :: t in x.created ==> t !in bump && t !in newQ && t !in retrigQ)
    && (x.waits && x.thread in bump ==> x.ends)
  }

  lemma ApartNow(c: Config, h: Claims, e: State, f: Threads, x: Item<Tid>)
    requires Inv(c, h, e, {}) && e.th.cur != [] && Steps(e.th, f, x)
    ensures Apart(e.th.newQ, e.th.retrigQ, e.th.bump, x)
  {
    hide Step, StepBumps, Inv;
    InvDistinct(c, h, e, {});
    OldThreads(c, h, e);
    QueueApart(e.th.newQ, e.th.retrigQ, e.th.cur);
    assert e.th.cur[0] in e.th.cur;
  }

  lemma OldThreads(c: Config, h: Claims, e: State)
    requires Inv(c, h, e, {})
    ensures forall t :: t in e.th.newQ || t in e.th.retrigQ || t in e.th.cur || t in e.th.bump ==> t < e.th.next
  {
    forall t | t in e.th.newQ || t in e.th.retrigQ || t in e.th.cur || t in e.th.bump ensures t < e.th.next {
      assert t in Queue(e.th) || t in e.th.bump;
      InQueue(e.th, t);
      assert IsBelow(t, e.th.next);
    }
  }

  lemma QueueApart(newQ: seq<Tid>, retrigQ: seq<Tid>, cur: seq<Tid>)
    requires Distinct(newQ + retrigQ + cur) && cur != []
    ensures cur[0] !in newQ && cur[0] !in retrigQ
  {
    var q := newQ + retrigQ + cur;
    assert q[|newQ| + |retrigQ|] == cur[0];
    forall i | 0 <= i < |newQ| ensures newQ[i] != cur[0] {
      assert q[i] == newQ[i];
    }
    forall i | 0 <= i < |retrigQ| ensures retrigQ[i] != cur[0] {
      assert q[|newQ| + i] == retrigQ[i];
    }
  }

  /** Among the queued threads, those that bump are those that end a part. */
  lemma StepMarks(newQ: seq<Tid>, retrigQ: seq<Tid>, bump: set<Tid>, ends: set<Tid>, x: Item<Tid>)
    requires forall t :: t in newQ + retrigQ ==> (t in bump <==> t in ends)
    requires Apart(newQ, retrigQ, bump, x) && forall t :: t in ends ==> t in newQ
    ensures var (n, r) := Step(newQ, retrigQ, x);
            forall t :: t in n + r ==>
              (t in StepBumps(newQ, retrigQ, bump, x) <==> t in StepEnds(newQ, retrigQ, ends, x))
  {
    var (n, r) := Step(newQ, retrigQ, x);
    forall t | t in n + r ensures t in StepBumps(newQ, retrigQ, bump, x) <==> t in StepEnds(newQ, retrigQ, ends, x) {
      assert t in newQ + retrigQ || t in x.created || (x.waits && t == x.thread);
      assert t in newQ || t in retrigQ ==> t in newQ + retrigQ;
    }
  }

  lemma WalkedStep(a: Threads, b: Threads, done: seq<Item<Tid>>, x: Item<Tid>)
    requires a.cur != [] && Walked(a, done) && Steps(a, b, x) && Apart(a.newQ, a.retrigQ, a.bump, x)
    ensures Walked(b, done + [x])
  {
    hide NewQueue, RetrigQueue, Ends, Step, StepBumps, StepEnds, Apart;
    NextItem(done, x);
    NextEnds(done, x);
    EndsQueued(done);
    StepMarks(a.newQ, a.retrigQ, a.bump, Ends(done), x);
  }

  /** What the walk leaves is the regrouping of its items. */
  lemma {:induction false} WalkRegroups(c: Config, h: Claims, inp: Input, e: State, n: nat, done: seq<Item<Tid>>)
    requires WellFormed(c) && Inv(c, h, e, {}) && Obeys(c, h, inp) && n <= |e.th.cur| && Walked(e.th, done)
    ensures Walked(EvtLoop(c, inp, e, n).th, done + Items(c, inp, e, n))
    decreases n
  {
    hide Inv, Obeys, Visit, ItemOf, Walked, Steps, Apart;
    if n == 0 {
      assert done + [] == done;
    } else {
      var x, e1 := ItemOf(c, inp, e), Visit(c, inp, e);
      VisitIs(c, h, inp, e);
      VisitKeeps(c, h, inp, e);
      ApartNow(c, h, e, e1.th, x);
      WalkedStep(e.th, e1.th, done, x);
      WalkRegroups(c, h, inp, e1, n - 1, done + [x]);
      assert done + [x] + Items(c, inp, e1, n - 1) == done + Items(c, inp, e, n);
    }
  }

  /** The walk visits the current queue in order, each thread once. */
  lemma {:induction false} WalkVisits(c: Config, h: Claims, inp: Input, e: State, n: nat)
    requires WellFormed(c) && Inv(c, h, e, {}) && Obeys(c, h, inp) && n <= |e.th.cur|
    ensures |Items(c, inp, e, n)| == n
    ensures forall i :: 0 <= i < n ==> Items(c, inp, e, n)[i].thread == e.th.cur[i]
    decreases n
  {
    hide Inv, Obeys, Visit, ItemOf, Steps;
    if n > 0 {
      VisitIs(c, h, inp, e);
      VisitKeeps(c, h, inp, e);
      WalkVisits(c, h, inp, Visit(c, inp, e), n - 1);
    }
  }

  // ----- one event -----

  /** The engine when the walk starts. */
  function Start(c: Config, inp: Input, e: State): State
    requires WellFormed(c) && Inject(c, inp, e).Some?
  {
    var e1 := SeedAll(c, inp, e.(ev := Begin(e.ev)), 0).value;
    e1.(th := Merge(e1.th))
  }

  lemma StartKeeps(c: Config, h: Claims, inp: Input, e: State)
    requires WellFormed(c) && Resting(c, h, e) && Obeys(c, h, inp) && Inject(c, inp, e).Some?
    ensures var e2 := Start(c, inp, e); Inv(c, h, e2, {}) && e2.th.newQ == [] && e2.th.retrigQ == []
  {
    hide Inv, Obeys, SeedAll, EvtLoop;
    var e0 := e.(ev := Begin(e.ev));
    BeginKeeps(c, h, e);
    SeedAllKeeps(c, h, inp, e0, 0);
    MergeKeeps(c, h, SeedAll(c, inp, e0, 0).value);
  }

  /** One event: its items are the threads of the current queue, in order; the queue
      that it leaves is, segment by segment, newcomers and then survivors, and the
      bumps end the parts.  No thread is lost, and none is in two places. */
  lemma EventRegroups(c: Config, h: Claims, inp: Input, e: State)
    requires WellFormed(c) && Resting(c, h, e) && Obeys(c, h, inp) && Inject(c, inp, e).Some?
    ensures var e2, th := Start(c, inp, e), Inject(c, inp, e).value.th;
            var items := Items(c, inp, e2, |e2.th.cur|);
            && |items| == |e2.th.cur| && (forall i :: 0 <= i < |items| ==> items[i].thread == e2.th.cur[i])
            && th.newQ == NewQueue(items) && th.retrigQ == RetrigQueue(items)
            && (forall t :: t in th.newQ + th.retrigQ ==> (t in th.bump <==> t in Ends(items)))
            && multiset(th.newQ + th.retrigQ) == multiset(Newcomers(items)) + multiset(Survivors(items))
            && Distinct(th.newQ + th.retrigQ)
  {
    hide Inv, Obeys, SeedAll, EvtLoop, Items, NewQueue, RetrigQueue, Ends, Newcomers, Survivors, FirstEnd;
    var e2 := Start(c, inp, e);
    var n := |e2.th.cur|;
    var items := Items(c, inp, e2, n);
    StartKeeps(c, h, inp, e);
    NoItems<Tid>();
    WalkVisits(c, h, inp, e2, n);
    WalkRegroups(c, h, inp, e2, n, []);
    assert [] + items == items;
    NothingLost(items);
    InjectKeeps(c, h, inp, e);
    var f := Inject(c, inp, e).value;
    InvDistinct(c, h, f, {});
    assert Queue(f.th) == f.th.newQ + f.th.retrigQ;
  }
}
