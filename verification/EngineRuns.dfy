/**
 The invariants hold between any two events of any run.
 */
module EngineRuns {
  import opened Options
  import opened Ovm
  import opened Engine
  import opened EngineInvariants
  import opened EngineUpdates
  import opened EngineFreeing
  import opened EngineSimulation

  // ----- initial threads -----

  function Queue(th: Threads): seq<Tid> { th.newQ + th.retrigQ + th.cur }

  /** Some queued thread waits in a state instance that was freed. */
  ghost predicate Dangles(e: State) {
    exists t :: t in Queue(e.th) && t in e.th.sid && e.th.sid[t] !in e.st.rid
  }

  /** The rule instance that is being built for rule r, after the simulation of its
      initial state. */
  function Seeded(c: Config, inp: Input, e: State, r: nat): (State, int)
    requires WellFormed(c) && r < |c.rules|
  {
    assert WellFormedRule(c, r);
    Simulate(c, inp, NewInstance(e, r), e.st.next, r, 0, true)
  }

  lemma NewInstanceBlank(c: Config, h: Claims, e: State, r: nat)
    requires Inv(c, h, e, {})
    ensures var e0 := NewInstance(e, r);
            && At(e0, e.st.next, r, 0) && Blank(h, e0, e.st.next)
            && e0.st.rid[e.st.next] == e.ri.next && e.ri.next in e0.ri.threads && e0.ri.threads[e.ri.next] == 0
  {
    hide Inv;
    NextUnused(c, h, e, {});
  }

  lemma SeededKeeps(c: Config, h: Claims, inp: Input, e: State, r: nat)
    requires WellFormed(c) && r < |c.rules| && Inv(c, h, e, {}) && Obeys(c, h, inp)
    ensures var (f, ret) := Seeded(c, inp, e, r);
            && Inv(c, h, f, {e.ri.next}) && e.ri.next in f.ri.threads && f.ri.threads[e.ri.next] == Created(ret)
            && MoreThreads(e.th, f.th, Created(ret)) && f.ev == e.ev
  {
    hide Inv, Obeys, NewInstance;
    assert WellFormedRule(c, r);
    var i, s, e0 := e.ri.next, e.st.next, NewInstance(e, r);
    NewInstanceKeeps(c, h, e, r);
    NewInstanceBlank(c, h, e, r);
    NewInstanceThreads(e, r);
    SimulateKeeps(c, h, inp, e0, s, r, 0, true, {i});
    var (f, ret) := Seeded(c, inp, e, r);
    assert SameCount(e0.ri, f.ri, i, Created(ret), i);
  }

  lemma NewInstanceThreads(e: State, r: nat)
    ensures NewInstance(e, r).th == e.th && NewInstance(e, r).ev == e.ev
  {
  }

  /** Seeding a rule keeps the invariants exactly when its simulation did not fail
      after it had queued a thread; when it did, the instance is freed under a
      queued thread. */
  lemma SeedRuleKeeps(c: Config, h: Claims, inp: Input, e: State, r: nat)
    requires WellFormed(c) && r < |c.rules| && Inv(c, h, e, {}) && Obeys(c, h, inp)
    ensures var (f, ret) := SeedRule(c, inp, e, r);
            && (ret >= -1 ==> Inv(c, h, f, {}))
            && (ret < -1 ==> Dangles(f))
            && f.th.cur == e.th.cur && f.ev.current == e.ev.current
  {
    hide Inv, Obeys, NewInstance, Simulate, FreeInstance;
    var i := e.ri.next;
    var (e1, ret) := Seeded(c, inp, e, r);
    SeededKeeps(c, h, inp, e, r);
    InstanceInto(c, h, e1, i, {i});
    if ret > 0 {
      LinkKeeps(c, h, e1, i);
    } else {
      FreeInstanceCurrent(c, e1, i);
      if ret >= -1 {
        ObeysLocks(c, h, inp);
        FreeInstanceKeeps(c, h, e1, i, {i});
        assert {i} - {i} == {};
      } else {
        SeedDangles(c, h, inp, e, r);
      }
    }
  }

  lemma InstanceInto(c: Config, h: Claims, e: State, r: Rid, x: set<Rid>)
    requires Inv(c, h, e, x) && r in e.ri.threads
    ensures r in e.ri.rule && (e.ri.threads[r] == 0 ==> Into(e.th.sid, e.st.rid, r) == {})
  {
    assert CountedAt(e.th.sid, e.st.rid, e.ri.threads, r);
  }

  lemma ObeysLocks(c: Config, h: Claims, inp: Input)
    requires Obeys(c, h, inp)
    ensures h.locks ==> Equivalence(c.same)
  {
  }

  lemma ReleaseCurrent(ev: Events, event: map<Sid, Eid>, ss: seq<Sid>)
    ensures ReleaseAll(ev, event, ss).current == ev.current
    decreases |ss|
  {
  }

  lemma FreeInstanceCurrent(c: Config, e: State, r: Rid)
    ensures FreeInstance(c, e, r).ev.current == e.ev.current && FreeInstance(c, e, r).th == e.th
  {
    ReleaseCurrent(e.ev, e.st.event, InstStates(e.ri, r));
  }

  /** A thread of the freed instance is still queued. */
  lemma SeedDangles(c: Config, h: Claims, inp: Input, e: State, r: nat)
    requires WellFormed(c) && r < |c.rules| && Inv(c, h, e, {}) && Obeys(c, h, inp)
    requires Seeded(c, inp, e, r).1 < -1
    ensures Dangles(SeedRule(c, inp, e, r).0)
  {
    var i := e.ri.next;
    var (e1, ret) := Seeded(c, inp, e, r);
    SeededKeeps(c, h, inp, e, r);
    FreedDangles(c, e1, i);
  }

  lemma FreedDangles(c: Config, e: State, r: Rid)
    requires InstDomains(e.ri) && Owned(e.st.rid, e.ri.first, e.ri.stateList) && r in e.ri.rule
    requires Counted(e.th.sid, e.st.rid, e.ri.threads) && Queued(e.th) && e.ri.threads[r] > 0
    ensures Dangles(FreeInstance(c, e, r))
  {
    FreeInstanceIs(c, e, r);
    assert CountedAt(e.th.sid, e.st.rid, e.ri.threads, r);
    assert |Into(e.th.sid, e.st.rid, r)| > 0;
    var t :| t in Into(e.th.sid, e.st.rid, r);
    InQueue(e.th, t);
    assert e.th.sid[t] in StatesOf(e.st.rid, r);
  }

  lemma InQueue(th: Threads, t: Tid)
    requires Queued(th)
    ensures t in Queue(th) <==> t in th.sid
  {
    assert t in multiset(th.newQ) + multiset(th.retrigQ) + multiset(th.cur) <==> t in multiset(th.sid.Keys);
  }

  lemma {:induction false} SeedAllKeeps(c: Config, h: Claims, inp: Input, e: State, r: nat)
    requires WellFormed(c) && r <= |c.rules| && Inv(c, h, e, {}) && Obeys(c, h, inp)
    ensures match SeedAll(c, inp, e, r)
            case None => true
            case Some(f) => Inv(c, h, f, {}) && f.th.cur == e.th.cur && f.ev.current == e.ev.current
    decreases |c.rules| - r
  {
    hide Inv, Obeys, SeedRule;
    if r < |c.rules| {
      SeedRuleKeeps(c, h, inp, e, r);
      var (e1, ret) := SeedRule(c, inp, e, r);
      if ret >= -1 {
        SeedAllKeeps(c, h, inp, e1, r + 1);
      }
    }
  }

  // ----- the evaluation of a thread -----

  /** The rule instance, the rule and the transition of the thread under evaluation. */
  lemma Waiting(c: Config, h: Claims, e: State)
    requires Inv(c, h, e, {}) && e.th.cur != []
    ensures var t := e.th.cur[0];
            var s := SidOf(e.th, t);
            var tr := TransOf(c, e, t);
            && t in e.th.sid && s in e.st.rid && RuleOf(e, s) < |c.rules| && At(e, s, RuleOf(e, s), Get(e.st.def, s, 0))
            && tr.Some? && tr.value.Expect? && IsGuard(c, RuleOf(e, s), tr.value.guard)
  {
    CurrentLinked(c, e);
    var t := e.th.cur[0];
    var s := SidOf(e.th, t);
    assert GuardAt(c, RuleOf(e, s), Get(e.st.def, s, 0), Get(e.th.trans, t, 0), TransOf(c, e, t).value.guard);
  }

  lemma GuardKeeps(c: Config, h: Claims, inp: Input, e: State, s: Sid, guard: Code, x: set<Rid>)
    requires Inv(c, h, e, x) && s in e.st.rid && Obeys(c, h, inp) && IsGuard(c, RuleOf(e, s), guard)
    ensures Inv(c, h, Apply(e, s, inp.test(e, s, guard).effect), x)
  {
    TestHarmless(c, h, inp, e, s, guard);
    ApplyKeeps(c, h, e, s, inp.test(e, s, guard).effect, x);
  }

  /** The queues, the flags and the current event as the evaluation of a thread leaves
      them: threads have joined the new queue. */
  ghost predicate Evaluated(a: State, b: State) {
    |b.th.newQ| >= |a.th.newQ| && MoreThreads(a.th, b.th, |b.th.newQ| - |a.th.newQ|) && b.ev.current == a.ev.current
  }

  lemma EvaluatedCompose(a: State, b: State, d: State)
    requires Evaluated(a, b) && Evaluated(b, d)
    ensures Evaluated(a, d)
  {
    ThreadsCompose(a.th, b.th, d.th, |b.th.newQ| - |a.th.newQ|, |d.th.newQ| - |b.th.newQ|);
  }

  lemma EnterReferenced(c: Config, h: Claims, e: State, p: Sid, r: nat, d: nat, d': nat, x: set<Rid>)
    requires Inv(c, h, e, x) && At(e, p, r, d) && r < |c.rules| && d' < |c.rules[r].states|
    ensures var s := e.st.next;
            var e1 := Reference(NewState(e, p, d'), s);
            Inv(c, h, e1, x) && At(e1, s, r, d') && Blank(h, e1, s) && Evaluated(e, e1)
  {
    hide Inv, NewState, Reference, Evaluated, At, Blank;
    NewStateBlank(c, h, e, p, r, d, d', x);
    EnterKeeps(c, h, e, p, r, d, d', false, x);
    EnteredSame(h, e, p, d');
    ReferenceKeeps(c, h, NewState(e, p, d'), e.st.next, x);
    ReferencedSame(h, NewState(e, p, d'), e.st.next, r, d');
    EvaluatedSame(e, Reference(NewState(e, p, d'), e.st.next));
  }

  lemma EvaluatedSame(a: State, b: State)
    requires b.th == a.th && b.ev.current == a.ev.current
    ensures Evaluated(a, b)
  {
  }

  lemma EnteredSame(h: Claims, e: State, p: Sid, d: nat)
    ensures var f := NewState(e, p, d); f.th == e.th && f.ev == e.ev
  {
  }

  lemma ReferencedSame(h: Claims, e: State, s: Sid, r: nat, d: nat)
    requires At(e, s, r, d) && Blank(h, e, s)
    ensures var f := Reference(e, s);
            At(f, s, r, d) && Blank(h, f, s) && f.th == e.th && f.ev.current == e.ev.current
  {
  }

  lemma PassKeeps(c: Config, h: Claims, inp: Input, e: State, t: Tid, p: Sid, r: nat, d: nat, d': nat, x: set<Rid>)
    requires WellFormed(c) && r < |c.rules| && d' < |c.rules[r].states|
    requires Inv(c, h, e, x) && Obeys(c, h, inp) && At(e, p, r, d)
    ensures var f := Pass(c, inp, e, t, p, r, d'); Inv(c, h, f, x) && Evaluated(e, f)
  {
    hide Inv, Obeys, NewState, Reference, Simulate, Blank, At;
    var s := e.st.next;
    var e0 := Reference(NewState(e, p, d'), s);
    EnterReferenced(c, h, e, p, r, d, d', x);
    SimulateKeeps(c, h, inp, e0, s, r, d', false, x);
    var (e1, ret) := Simulate(c, inp, e0, s, r, d', false);
    EvaluatedCompose(e, e0, e1);
    KillKeeps(c, h, e1, {t}, x);
    EvaluatedCompose(e, e1, e1.(th := Kill(e1.th, {t})));
  }

  lemma KillKeeps(c: Config, h: Claims, e: State, ts: set<Tid>, x: set<Rid>)
    requires Inv(c, h, e, x)
    ensures Inv(c, h, e.(th := Kill(e.th, ts)), x) && Evaluated(e, e.(th := Kill(e.th, ts)))
  {
    hide Inv, Evaluated, Kill, ThreadDomains;
    LiveThreads(c, h, e, x);
    KillQuiet(e.th, ts);
    QuietKeeps(c, h, e, Kill(e.th, ts), x);
    KillEvaluated(e, ts);
  }

  lemma LiveThreads(c: Config, h: Claims, e: State, x: set<Rid>)
    requires Inv(c, h, e, x)
    ensures ThreadDomains(e.th)
  {
  }

  lemma KillEvaluated(e: State, ts: set<Tid>)
    ensures Evaluated(e, e.(th := Kill(e.th, ts)))
  {
  }

  /** Evaluating a thread moves no thread: what it creates joins the new queue. */
  lemma EvaluateKeeps(c: Config, h: Claims, inp: Input, e: State)
    requires WellFormed(c) && Inv(c, h, e, {}) && Obeys(c, h, inp) && e.th.cur != []
    ensures var f := Evaluate(c, inp, e); Inv(c, h, f, {}) && Evaluated(e, f)
  {
    hide Inv, Obeys, Pass, Apply;
    var t := e.th.cur[0];
    var s := SidOf(e.th, t);
    var r := RuleOf(e, s);
    Waiting(c, h, e);
    match TransOf(c, e, t)
    case Some(Expect(d, guard)) =>
      var v := inp.test(e, s, guard);
      var e1 := Apply(e, s, v.effect);
      GuardKeeps(c, h, inp, e, s, guard, {});
      ApplyExtends(e, s, v.effect);
      if v.passed && d < |c.rules[r].states| {
        AtExtends(e, e1, s, s, 0, r, Get(e.st.def, s, 0));
        PassKeeps(c, h, inp, e1, t, s, r, Get(e.st.def, s, 0), d, {});
        EvaluatedCompose(e, e1, Pass(c, inp, e1, t, s, r, d));
      }
  }

  // ----- the event loop -----

  lemma ReapCurrent(c: Config, e: State)
    requires e.th.cur != []
    ensures Reap(c, e).ev.current == e.ev.current && Reap(c, e).th == RemoveCurrent(e.th)
  {
    var r := RidOf(e.st, SidOf(e.th, e.th.cur[0]));
    FreeInstanceCurrent(c, Delist(DropThread(e), r), r);
  }

  lemma ArriveKeeps(c: Config, h: Claims, inp: Input, e: State)
    requires Inv(c, h, e, {}) && e.th.cur != []
    ensures Inv(c, h, e.(th := Arrive(inp, e.th)), {})
  {
    ArriveQuiet(inp, e.th);
    QuietKeeps(c, h, e, Arrive(inp, e.th), {});
  }

  lemma RetrigKeeps(c: Config, h: Claims, e: State)
    requires Inv(c, h, e, {}) && e.th.cur != []
    ensures Inv(c, h, e.(th := Retrig(e.th)), {})
  {
    RetrigQuiet(e.th);
    QuietKeeps(c, h, e, Retrig(e.th), {});
  }

  lemma CommitKeeps(c: Config, h: Claims, e: State)
    requires Inv(c, h, e, {})
    ensures Inv(c, h, e.(th := Commit(e.th)), {})
  {
    CommitQuiet(e.th);
    QuietKeeps(c, h, e, Commit(e.th), {});
  }

  lemma SettleKeeps(c: Config, h: Claims, e: State)
    requires Inv(c, h, e, {}) && e.th.cur != []
    requires h.locks ==> Equivalence(c.same)
    ensures var f := Settle(c, e); Inv(c, h, f, {}) && f.th.cur == e.th.cur[1..] && f.ev.current == e.ev.current
  {
    hide Inv, Reap;
    var t := e.th.cur[0];
    var once := t in e.th.onlyOnce;
    var e0 := e.(th := if once then Kill(e.th, {t}) else Retrig(e.th));
    if once {
      KillKeeps(c, h, e, {t}, {});
    } else {
      RetrigKeeps(c, h, e);
    }
    CommitKeeps(c, h, e0);
    var e1 := e0.(th := if t in e.th.bump then Commit(e0.th) else e0.th);
    if once {
      ReapKeeps(c, h, e1);
      ReapCurrent(c, e1);
    }
  }

  /** The body of the loop takes one thread off the current queue. */
  lemma VisitKeeps(c: Config, h: Claims, inp: Input, e: State)
    requires WellFormed(c) && Inv(c, h, e, {}) && Obeys(c, h, inp) && e.th.cur != []
    ensures var f := Visit(c, inp, e); Inv(c, h, f, {}) && f.th.cur == e.th.cur[1..] && f.ev.current == e.ev.current
  {
    hide Inv, Reap, Evaluate, Settle;
    var e1 := e.(th := Arrive(inp, e.th));
    ArriveKeeps(c, h, inp, e);
    if e1.th.cur[0] in e1.th.killed {
      ReapKeeps(c, h, e1);
      ReapCurrent(c, e1);
    } else {
      EvaluateKeeps(c, h, inp, e1);
      SettleKeeps(c, h, Evaluate(c, inp, e1));
    }
  }

  lemma {:induction false} EvtLoopKeeps(c: Config, h: Claims, inp: Input, e: State, n: nat)
    requires WellFormed(c) && Inv(c, h, e, {}) && Obeys(c, h, inp) && n <= |e.th.cur|
    ensures var f := EvtLoop(c, inp, e, n);
            Inv(c, h, f, {}) && f.th.cur == e.th.cur[n..] && f.ev.current == e.ev.current
    decreases n
  {
    hide Inv, Obeys, Visit;
    if n > 0 {
      VisitKeeps(c, h, inp, e);
      EvtLoopKeeps(c, h, inp, Visit(c, inp, e), n - 1);
    }
  }

  // ----- whole runs -----

  /** Between two events. */
  ghost predicate Resting(c: Config, h: Claims, e: State) {
    Inv(c, h, e, {}) && e.th.cur == [] && e.ev.current.None?
  }

  lemma MergeKeeps(c: Config, h: Claims, e: State)
    requires Inv(c, h, e, {}) && e.th.cur == []
    ensures Inv(c, h, e.(th := Merge(e.th)), {})
  {
    MergeQuiet(e.th);
    QuietKeeps(c, h, e, Merge(e.th), {});
  }

  lemma InjectKeeps(c: Config, h: Claims, inp: Input, e: State)
    requires WellFormed(c) && Resting(c, h, e) && Obeys(c, h, inp) && Inject(c, inp, e).Some?
    ensures Resting(c, h, Inject(c, inp, e).value)
  {
    hide Inv, Obeys, SeedAll, EvtLoop;
    var e0 := e.(ev := Begin(e.ev));
    BeginKeeps(c, h, e);
    SeedAllKeeps(c, h, inp, e0, 0);
    var e1 := SeedAll(c, inp, e0, 0).value;
    MergeKeeps(c, h, e1);
    var e2 := e1.(th := Merge(e1.th));
    EvtLoopKeeps(c, h, inp, e2, |e2.th.cur|);
    EndKeeps(c, h, EvtLoop(c, inp, e2, |e2.th.cur|));
  }

  lemma EmptyRests(c: Config, h: Claims)
    ensures Resting(c, h, EMPTY)
  {
  }

  lemma {:induction false} InjectsKeep(c: Config, h: Claims, inputs: seq<Input>, e: State)
    requires WellFormed(c) && Resting(c, h, e) && forall i :: 0 <= i < |inputs| ==> Obeys(c, h, inputs[i])
    requires Injects(c, inputs, e).Some?
    ensures Resting(c, h, Injects(c, inputs, e).value)
    decreases |inputs|
  {
    hide Resting, Obeys, Inject;
    if inputs != [] {
      InjectKeeps(c, h, inputs[0], e);
      InjectsKeep(c, h, inputs[1..], Inject(c, inputs[0], e).value);
    }
  }
}
