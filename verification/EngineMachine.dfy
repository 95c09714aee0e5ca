/**
 The engine as the program runs it: one object whose loops update it in place, each
 method proved to compute the function of the same step.
 */
module EngineMachine {
  import opened Options
  import opened Engine
  import opened EngineInvariants
  import opened EngineUpdates
  import opened EngineFreeing
  import opened EngineSimulation
  import opened EngineRuns
  import opened EngineSeeding

  /** The threads of q that point into rule instance r. */
  function Among(sid: map<Tid, Sid>, rid: map<Sid, Rid>, r: Rid, q: seq<Tid>): set<Tid> {
    set t | t in q && Get(rid, Get(sid, t, 0), 0) == r
  }

  lemma AmongNext(sid: map<Tid, Sid>, rid: map<Sid, Rid>, r: Rid, q: seq<Tid>, i: nat)
    requires i < |q|
    ensures Among(sid, rid, r, q[..i + 1]) ==
            Among(sid, rid, r, q[..i]) + if Get(rid, Get(sid, q[i], 0), 0) == r then {q[i]} else {}
  {
    assert q[..i + 1] == q[..i] + [q[i]];
  }

  lemma MarkedIs(e: State, r: Rid)
    ensures MarkedThreads(e, r) ==
            Among(e.th.sid, e.st.rid, r, Chain(e.th, e.th.head)) + Among(e.th.sid, e.st.rid, r, e.th.retrigQ)
            + Among(e.th.sid, e.st.rid, r, Chain(e.th, e.th.tail))
  {
  }

  lemma {:induction false} WithoutFirst<T>(q: seq<T>, x: T, i: nat)
    requires i <= |q| && x !in q[..i] && (i < |q| ==> q[i] == x)
    ensures Without(q, x) == if i < |q| then q[..i] + q[i + 1..] else q
    decreases i
  {
    if q != [] && i > 0 {
      assert q[..i] == [q[0]] + q[1..][..i - 1];
      WithoutFirst(q[1..], x, i - 1);
    }
  }

  lemma ElementsNext<T>(q: seq<T>, i: nat)
    requires i < |q|
    ensures Elements(q[..i + 1]) == Elements(q[..i]) + {q[i]}
  {
  }

  lemma RemoveNext(st: States, dead: set<Sid>, s: Sid, n: nat)
    ensures RemoveStates(RemoveStates(st, dead, n), {s}, 1) == RemoveStates(st, dead + {s}, n + 1)
  {
    MinusTwice(st.rid, dead, s);
    MinusTwice(st.def, dead, s);
    MinusTwice(st.parent, dead, s);
    MinusTwice(st.firstChild, dead, s);
    MinusTwice(st.nextSibling, dead, s);
    MinusTwice(st.depth, dead, s);
    MinusTwice(st.event, dead, s);
    MinusTwice(st.inherited, dead, s);
    MinusTwice(st.current, dead, s);
    MinusTwice(st.threadList, dead, s);
  }

  lemma MinusTwice<V>(m: map<Sid, V>, dead: set<Sid>, s: Sid)
    ensures m - dead - {s} == m - (dead + {s})
  {
  }

  lemma RemoveNone(st: States)
    ensures RemoveStates(st, {}, 0) == st
  {
    MinusNone(st.rid);
    MinusNone(st.def);
    MinusNone(st.parent);
    MinusNone(st.firstChild);
    MinusNone(st.nextSibling);
    MinusNone(st.depth);
    MinusNone(st.event);
    MinusNone(st.inherited);
    MinusNone(st.current);
    MinusNone(st.threadList);
  }

  lemma MinusNone<V>(m: map<Sid, V>)
    ensures m - {} == m
  {
  }

  class Orchids {
    const c: Config
    var th: Threads
    var st: States
    var ri: Insts
    var ev: Events
    var table: seq<Sid>

    function Model(): State
      reads this
    {
      State(th, st, ri, ev, table)
    }

    constructor (config: Config)
      ensures c == config && Model() == EMPTY
    {
      c := config;
      th, st, ri, ev, table := EMPTY.th, EMPTY.st, EMPTY.ri, EMPTY.ev, EMPTY.table;
    }

    /** KILL_THREAD on the threads of one chain that point into rule instance r. */
    method MarkChain(q: seq<Tid>, r: Rid)
      modifies this`th
      ensures th == Kill(old(th), Among(old(th).sid, st.rid, r, q))
    {
      var i := 0;
      while i < |q|
        invariant 0 <= i <= |q|
        invariant th == Kill(old(th), Among(old(th).sid, st.rid, r, q[..i]))
      {
        AmongNext(th.sid, st.rid, r, q, i);
        if RidOf(st, SidOf(th, q[i])) == r && q[i] in th.sid {
          th := th.(killed := th.killed + {q[i]});
        }
        i := i + 1;
      }
      assert q[..|q|] == q;
    }

    /** mark_dead_rule */
    method MarkDeadRule(r: Rid)
      modifies this`th
      ensures Model() == MarkDead(old(Model()), r)
    {
      MarkedIs(Model(), r);
      MarkChain(Chain(th, th.head), r);
      MarkChain(th.retrigQ, r);
      MarkChain(Chain(th, th.tail), r);
    }

    /** sync_var_env_is_defined */
    method SyncVarEnvIsDefined(s: Sid, vars: seq<int>) returns (defined: bool)
      ensures defined <==> SyncKey(CurrentEnv(st, s), Get(st.inherited, s, map[]), vars).Some?
    {
      ghost var current, inherited := CurrentEnv(st, s), Get(st.inherited, s, map[]);
      var i := 0;
      while i < |vars|
        invariant 0 <= i <= |vars|
        invariant SyncKey(current, inherited, vars).Some? <==> SyncKey(current, inherited, vars[i..]).Some?
      {
        if vars[i] !in CurrentEnv(st, s) && vars[i] !in Get(st.inherited, s, map[]) {
          return false;
        }
        assert vars[i..][1..] == vars[i + 1..];
        i := i + 1;
      }
      return true;
    }

    /** What running bytecode in state instance s has done. */
    method Execute(s: Sid, f: Effect)
      modifies this`st, this`th
      ensures Model() == Apply(old(Model()), s, f)
    {
      st := SetEnv(st, s, f.env);
      th := Kill(th, f.kills);
    }

    /** create_state_instance, and the link into the tree. */
    method CreateStateInstance(p: Sid, d: nat) returns (n: Sid)
      modifies this`st
      ensures st == AddState(old(st), p, d) && n == old(st).next
    {
      n := st.next;
      var r, depth, inherited := RidOf(st, p), Get(st.depth, p, 0) + 1, Get(st.inherited, p, map[]) + CurrentEnv(st, p);
      st := st.(next := n + 1, rid := st.rid[n := r], def := st.def[n := d], depth := st.depth[n := depth],
                inherited := st.inherited[n := inherited], current := st.current[n := map[]],
                threadList := st.threadList[n := []], count := st.count + 1);
      if p in st.firstChild {
        st := st.(nextSibling := st.nextSibling[n := st.firstChild[p]]);
      }
      st := st.(firstChild := st.firstChild[p := n], parent := st.parent[n := p]);
    }

    /** A new state instance below p, in the tree and in the rule instance. */
    method EnterState(p: Sid, d: nat) returns (n: Sid)
      modifies this`st, this`ri
      ensures Model() == NewState(old(Model()), p, d) && n == old(st).next
    {
      hide AddState;
      var r := RidOf(st, p);
      n := CreateStateInstance(p, d);
      ri := ri.(stateList := ri.stateList[r := [n] + Get(ri.stateList, r, [])]);
    }

    /** A thread for transition t of state instance s. */
    method CreateThread(inp: Input, s: Sid, t: nat, once: bool)
      modifies this`th, this`st, this`ri
      ensures Model() == NewThread(inp, old(Model()), s, t, once)
    {
      var n, r := th.next, RidOf(st, s);
      th := th.(next := n + 1, sid := th.sid[n := s], trans := th.trans[n := t]);
      if once {
        th := th.(onlyOnce := th.onlyOnce + {n});
      }
      ri := ri.(threads := ri.threads[r := Get(ri.threads, r, 0) + 1]);
      th := th.(count := th.count + 1);
      if !once {
        st := st.(threadList := st.threadList[s := [n] + Get(st.threadList, s, [])]);
      }
      th := th.(timeout := th.timeout[n := inp.deadline(n)]);
      th := th.(newQ := th.newQ + [n]);
    }

    /** The test of the synchronisation lock. */
    method TestLock(s: Sid, once: bool) returns (pruned: bool)
      modifies this`table, this`ri
      ensures pruned <==> CheckLock(c, old(Model()), s, once).None?
      ensures Model() == if pruned then old(Model()) else CheckLock(c, old(Model()), s, once).value
    {
      var r := RuleOf(Model(), s);
      if r < |c.rules| && c.rules[r].sync.Some? {
        var defined := SyncVarEnvIsDefined(s, c.rules[r].sync.value);
        if defined {
          var keys := Keys(c, Model());
          var lock := FindLock(c.same, keys, table, keys(s));
          if lock.Some? {
            return RidOf(st, lock.value) != RidOf(st, s);
          } else if !once {
            table := [s] + table;
            ri := ri.(locks := ri.locks[RidOf(st, s) := [s] + Get(ri.locks, RidOf(st, s), [])]);
          }
        }
      }
      return false;
    }

    /** simulate_state_and_create_threads */
    method SimulateState(inp: Input, s: Sid, r: nat, d: nat, once: bool) returns (ret: int)
      requires WellFormed(c) && r < |c.rules| && d < |c.rules[r].states|
      modifies this`th, this`st, this`ri, this`table
      ensures (Model(), ret) == Simulate(c, inp, old(Model()), s, r, d, once)
      decreases c.rank(r, d)
    {
      hide Apply, NewThread, NewState, CheckLock, MarkDead;
      assert WellFormedRule(c, r);
      var trans := c.rules[r].states[d].trans;
      var action := c.rules[r].states[d].action;
      if action.Some? {
        Execute(s, inp.act(Model(), s, action.value));
      }
      if trans == [] {
        MarkDeadRule(RidOf(st, s));
        return -1;
      }
      var pruned := TestLock(s, once);
      if pruned {
        return -1;
      }
      ghost var e := Model();
      var t, created := 0, 0;
      while t < |trans|
        invariant 0 <= t <= |trans| && created >= 0
        invariant SimulateFrom(c, inp, Model(), s, r, d, once, t, created)
                  == SimulateFrom(c, inp, e, s, r, d, once, 0, 0)
      {
        match trans[t] {
          case Expect(_, _) =>
            CreateThread(inp, s, t, once);
            created := created + 1;
          case Epsilon(dest, test) =>
            var v := EpsilonVerdict(inp, Model(), s, test);
            Execute(s, v.effect);
            if v.passed {
              var n := EnterState(s, dest);
              var sub := SimulateState(inp, n, r, dest, once);
              if sub < 0 {
                return -created + sub;
              }
              created := created + sub;
            }
        }
        t := t + 1;
      }
      return created;
    }

    /** unlink_thread_in_state_instance_list */
    method UnlinkThread(s: Sid, t: Tid)
      modifies this`st
      ensures Model() == Unlink(old(Model()), s, t)
    {
      var q := Get(st.threadList, s, []);
      var i := 0;
      while i < |q| && q[i] != t
        invariant 0 <= i <= |q| && t !in q[..i]
      {
        i := i + 1;
      }
      WithoutFirst(q, t, i);
      if i < |q| {
        q := q[..i] + q[i + 1..];
      }
      st := st.(threadList := st.threadList[s := q]);
    }

    /** The locks that rule instance r lists leave the lock table. */
    method RemoveLocks(r: Rid)
      modifies this`table
      ensures table == DropLocks(c.same, Keys(c, old(Model())), old(table), Get(ri.locks, r, []))
    {
      hide DropLock, KeyOf;
      var keys, held := Keys(c, Model()), Get(ri.locks, r, []);
      var i := 0;
      assert held[0..] == held;
      while i < |held|
        invariant 0 <= i <= |held|
        invariant DropLocks(c.same, keys, table, held[i..]) == DropLocks(c.same, keys, old(table), held)
      {
        table := DropLock(c.same, keys, table, keys(held[i]));
        assert held[i..][1..] == held[i + 1..];
        i := i + 1;
      }
    }

    /** The state instances of a rule instance, none listed twice, are freed one by one
        and release their events. */
    method FreeStates(ss: seq<Sid>)
      requires Distinct(ss)
      modifies this`st, this`ev
      ensures st == RemoveStates(old(st), Elements(ss), |ss|) && ev == ReleaseAll(old(ev), old(st).event, ss)
    {
      hide Release, RemoveStates;
      var i := 0;
      RemoveNone(st);
      assert ss[..0] == [] && ss[0..] == ss && Elements(ss[..0]) == {};
      while i < |ss|
        invariant 0 <= i <= |ss|
        invariant st == RemoveStates(old(st), Elements(ss[..i]), i)
        invariant ReleaseAll(ev, old(st).event, ss[i..]) == ReleaseAll(old(ev), old(st).event, ss)
      {
        var s := ss[i];
        EventKept(old(st), ss, i);
        if s in st.event {
          ev := Release(ev, st.event[s]);
        }
        ElementsNext(ss, i);
        RemoveNext(old(st), Elements(ss[..i]), s, i);
        st := RemoveStates(st, {s}, 1);
        assert ss[i..][1..] == ss[i + 1..];
        i := i + 1;
      }
      assert ss[..i] == ss;
    }

    /** free_rule_instance */
    method FreeRuleInstance(r: Rid)
      requires Distinct(InstStates(ri, r))
      modifies this`st, this`ri, this`ev, this`table
      ensures Model() == FreeInstance(c, old(Model()), r)
    {
      RemoveLocks(r);
      FreeStates(InstStates(ri, r));
      ri := RemoveInst(ri, r);
    }

    /** reap_dead_rule */
    method ReapDeadRule(r: Rid)
      requires Distinct(InstStates(ri, r))
      modifies this`st, this`ri, this`ev, this`table
      ensures Model() == ReapDead(c, old(Model()), r)
    {
      hide FreeInstance;
      var i := 0;
      while i < |ri.list|
        invariant 0 <= i <= |ri.list| && r !in ri.list[..i]
      {
        if ri.list[i] == r {
          WithoutFirst(ri.list, r, i);
          ri := ri.(list := ri.list[..i] + ri.list[i + 1..]);
          FreeRuleInstance(r);
          return;
        }
        i := i + 1;
      }
    }

    /** create_init_state_instance, and the rule instance around it. */
    method CreateRuleInstance(r: nat) returns (i: Rid, s: Sid)
      modifies this`st, this`ri
      ensures Model() == NewInstance(old(Model()), r) && i == old(ri).next && s == old(st).next
    {
      s, i := st.next, ri.next;
      st := st.(rid := st.rid[s := i], def := st.def[s := 0], depth := st.depth[s := 0],
                inherited := st.inherited[s := map[]], current := st.current[s := map[]],
                threadList := st.threadList[s := []], count := st.count + 1, next := s + 1);
      ri := ri.(rule := ri.rule[i := r], first := ri.first[i := s], stateList := ri.stateList[i := []],
                threads := ri.threads[i := 0], locks := ri.locks[i := []], next := i + 1);
    }

    /** The initial threads of rule r; false if its instance was freed under them. */
    method SeedOneRule(inp: Input, r: nat) returns (ok: bool)
      requires WellFormed(c) && r < |c.rules| && Inv(c, ANY, Model(), {})
      modifies this`th, this`st, this`ri, this`ev, this`table
      ensures Model() == SeedRule(c, inp, old(Model()), r).0 && (ok <==> SeedRule(c, inp, old(Model()), r).1 >= -1)
    {
      hide Inv, NewInstance, FreeInstance;
      assert WellFormedRule(c, r);
      ghost var e := Model();
      SeededKeeps(c, ANY, inp, e, r);
      var i, s := CreateRuleInstance(r);
      var ret := SimulateState(inp, s, r, 0, true);
      if ret <= 0 {
        InstanceDistinct(c, Model(), i, {i});
        FreeRuleInstance(i);
      } else {
        ri := ri.(threads := ri.threads[i := ret]);
        ri := ri.(list := [i] + ri.list);
        if th.newQ != [] {
          th := th.(bump := th.bump + {th.newQ[|th.newQ| - 1]});
        }
      }
      return ret >= -1;
    }

    /** create_rule_initial_threads */
    method CreateRuleInitialThreads(inp: Input) returns (ok: bool)
      requires WellFormed(c) && Inv(c, ANY, Model(), {})
      modifies this`th, this`st, this`ri, this`ev, this`table
      ensures match SeedAll(c, inp, old(Model()), 0)
              case None => !ok
              case Some(f) => ok && Model() == f.(th := Merge(f.th))
    {
      hide Inv, SeedRule;
      var r := 0;
      while r < |c.rules|
        invariant 0 <= r <= |c.rules|
        invariant Inv(c, ANY, Model(), {})
        invariant SeedAll(c, inp, Model(), r) == SeedAll(c, inp, old(Model()), 0)
      {
        SeedRuleKeeps(c, ANY, inp, Model(), r);
        ok := SeedOneRule(inp, r);
        if !ok {
          return;
        }
        r := r + 1;
      }
      if th.newQ != [] {
        th := th.(head := Some(th.newQ[0]), cur := th.newQ + th.retrigQ, newQ := []);
      } else {
        th := th.(head := if th.retrigQ == [] then None else Some(th.retrigQ[0]), cur := th.retrigQ);
      }
      th := th.(retrigQ := []);
      assert [] + old(th).retrigQ == old(th).retrigQ;
      return true;
    }

    /** The reference of a new state instance to the event that led to it. */
    method ReferToEvent(s: Sid)
      modifies this`st, this`ev
      ensures Model() == Reference(old(Model()), s)
    {
      if ev.current.Some? {
        var v := ev.current.value;
        st := st.(event := st.event[s := v]);
        ev := ev.(refs := ev.refs[v := Get(ev.refs, v, 0) + 1]);
      }
    }

    /** Runs the guard of the thread under evaluation; if it passes, its destination is
        entered and simulated. */
    method EvaluateThread(inp: Input)
      requires WellFormed(c) && th.cur != []
      modifies this`th, this`st, this`ri, this`ev, this`table
      ensures Model() == Evaluate(c, inp, old(Model()))
    {
      hide Apply, NewState, Reference, Simulate;
      var t := th.cur[0];
      var s := SidOf(th, t);
      var r, trans := RuleOf(Model(), s), TransOf(c, Model(), t);
      if trans.Some? && trans.value.Expect? {
        var d := trans.value.dest;
        var v := inp.test(Model(), s, trans.value.guard);
        Execute(s, v.effect);
        if v.passed && d < |c.rules[r].states| {
          var n := EnterState(s, d);
          ReferToEvent(n);
          var ret := SimulateState(inp, n, r, d, false);
          if NoBacktrack(c.rules[r].states[d]) {
            th := Kill(th, {t});
          }
        }
      }
    }

    /** Takes the thread under evaluation away, and its rule instance with its last
        thread. */
    method ReapThread()
      requires Inv(c, ANY, Model(), {}) && th.cur != []
      modifies this`th, this`st, this`ri, this`ev, this`table
      ensures Model() == Reap(c, old(Model()))
    {
      hide Inv, ReapDead;
      var t := th.cur[0];
      var s := SidOf(th, t);
      var r := RidOf(st, s);
      CurrentDistinct(c, Model());
      ri := ri.(threads := ri.threads[r := Get(ri.threads, r, 0) - 1]);
      ReapDeadFrame(c, Model(), RemoveCurrent(th), r);
      if ri.threads[r] == 0 {
        ReapDeadRule(r);
      } else {
        UnlinkThread(s, t);
      }
      th := th.(count := th.count - 1);
      if th.head == Some(t) {
        th := th.(head := if |th.cur| == 1 then None else Some(th.cur[1]));
      }
      th := th.(tail := None, cur := th.cur[1..],
                sid := th.sid - {t}, trans := th.trans - {t}, timeout := th.timeout - {t},
                onlyOnce := th.onlyOnce - {t}, bump := th.bump - {t}, killed := th.killed - {t});
    }

    /** q_new = q_new @ q_retrig */
    method CommitQueues()
      modifies this`th
      ensures th == Commit(old(th))
    {
      if th.retrigQ != [] {
        th := th.(bump := th.bump + {th.retrigQ[|th.retrigQ| - 1]});
      }
      if th.newQ != [] {
        th := th.(bump := th.bump + {th.newQ[|th.newQ| - 1]});
        th := th.(newQ := th.newQ + th.retrigQ);
      } else {
        assert [] + th.retrigQ == th.retrigQ;
        th := th.(newQ := th.retrigQ);
      }
      th := th.(retrigQ := []);
    }

    /** The body of the event loop. */
    method VisitThread(inp: Input)
      requires WellFormed(c) && Inv(c, ANY, Model(), {}) && th.cur != []
      modifies this`th, this`st, this`ri, this`ev, this`table
      ensures Model() == Visit(c, inp, old(Model()))
    {
      hide Inv, Reap, Evaluate, Commit;
      var t := th.cur[0];
      ArriveKeeps(c, ANY, inp, Model());
      th := th.(tail := Some(t));
      if t !in th.onlyOnce && Get(th.timeout, t, 0) <= inp.now {
        th := Kill(th, {t});
      }
      if t in th.killed {
        ReapThread();
        return;
      }
      EvaluateKeeps(c, ANY, inp, Model());
      EvaluateThread(inp);
      if t in th.onlyOnce {
        KillKeeps(c, ANY, Model(), {t}, {});
        th := Kill(th, {t});
        if t in th.bump {
          CommitKeeps(c, ANY, Model());
          CommitCurrent(th);
          CommitQueues();
        }
        ReapThread();
      } else {
        th := th.(retrigQ := th.retrigQ + [t], cur := th.cur[1..]);
        if t in th.bump {
          CommitQueues();
        }
      }
    }

    /** inject_event; false if the initial threads of some rule dangle. */
    method InjectEvent(inp: Input) returns (ok: bool)
      requires WellFormed(c) && Resting(c, ANY, Model())
      modifies this`th, this`st, this`ri, this`ev, this`table
      ensures match Inject(c, inp, old(Model()))
              case None => !ok
              case Some(f) => ok && Model() == f && Resting(c, ANY, f)
    {
      hide Inv, Visit, SeedAll;
      ghost var e := Model();
      BeginKeeps(c, ANY, e);
      SeedAllKeeps(c, ANY, inp, e.(ev := Begin(e.ev)), 0);
      ev := Begin(ev);
      ok := CreateRuleInitialThreads(inp);
      if !ok {
        return;
      }
      ghost var e2 := Model();
      MergeKeeps(c, ANY, SeedAll(c, inp, e.(ev := Begin(e.ev)), 0).value);
      while th.cur != []
        invariant Inv(c, ANY, Model(), {})
        invariant EvtLoop(c, inp, Model(), |th.cur|) == EvtLoop(c, inp, e2, |e2.th.cur|)
        decreases |th.cur|
      {
        VisitKeeps(c, ANY, inp, Model());
        VisitThread(inp);
      }
      var v := ev.current;
      if v.Some? {
        if Get(ev.refs, v.value, 0) == 0 {
          ev := ev.(refs := ev.refs - {v.value}, current := None);
        } else {
          ev := ev.(active := ev.active + [v.value], count := ev.count + 1, current := None);
        }
      }
      InjectKeeps(c, ANY, inp, e);
    }
  }

  lemma InstanceDistinct(c: Config, e: State, r: Rid, x: set<Rid>)
    requires Inv(c, ANY, e, x) && r in e.ri.threads
    ensures Distinct(InstStates(e.ri, r))
  {
    hide Queued, Counted, Alive, Listed, Referenced, Active, Tree;
    FreedStates(e, r);
  }

  lemma CurrentDistinct(c: Config, e: State)
    requires Inv(c, ANY, e, {}) && e.th.cur != []
    ensures var r := RidOf(e.st, SidOf(e.th, e.th.cur[0])); r in e.ri.threads && Distinct(InstStates(e.ri, r))
  {
    CurrentLinked(c, e);
    InstanceDistinct(c, e, RidOf(e.st, SidOf(e.th, e.th.cur[0])), {});
  }

  /** Freeing an instance neither reads nor writes the threads. */
  lemma ReapDeadFrame(c: Config, e: State, th: Threads, r: Rid)
    ensures ReapDead(c, e.(th := th), r) == ReapDead(c, e, r).(th := th)
  {
    assert Keys(c, Delist(e.(th := th), r)) == Keys(c, Delist(e, r));
  }

  lemma CommitCurrent(th: Threads)
    ensures Commit(th).cur == th.cur
  {
  }

  /** The event of a state instance that is not yet freed. */
  lemma EventKept(st: States, ss: seq<Sid>, i: nat)
    requires i < |ss| && Distinct(ss)
    ensures var f := RemoveStates(st, Elements(ss[..i]), i);
            (ss[i] in f.event <==> ss[i] in st.event) && (ss[i] in st.event ==> f.event[ss[i]] == st.event[ss[i]])
  {
    assert ss[i] !in ss[..i];
  }
}
