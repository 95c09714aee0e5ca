/**
 Simulating a state keeps the invariants, and creates the threads that its result
 announces.
 */
module EngineSimulation {
  import opened Options
  import opened Ovm
  import opened Engine
  import opened EngineInvariants
  import opened EngineUpdates

  // ----- what a simulation leaves alone -----

  /** Thread t is still there, unchanged. */
  ghost predicate SameThread(a: Threads, b: Threads, t: Tid) {
    && t in b.sid && Get(b.sid, t, 0) == Get(a.sid, t, 0) && Get(b.trans, t, 0) == Get(a.trans, t, 0)
    && Get(b.timeout, t, 0) == Get(a.timeout, t, 0) && (t in b.onlyOnce <==> t in a.onlyOnce)
  }

  /** n threads join the new queue; no other queue, and no bump, changes. */
  ghost predicate MoreThreads(a: Threads, b: Threads, n: int) {
    && a.newQ <= b.newQ && |b.newQ| == |a.newQ| + n && b.count == a.count + n
    && (forall i :: |a.newQ| <= i < |b.newQ| ==> a.next <= b.newQ[i]) && a.next <= b.next
    && b.retrigQ == a.retrigQ && b.cur == a.cur && b.bump == a.bump && b.head == a.head && b.tail == a.tail
    && a.killed <= b.killed
    && forall t {:trigger SameThread(a, b, t)} :: t in a.sid ==> SameThread(a, b, t)
  }

  /** State instance k is still there, unchanged except for the environment of s. */
  ghost predicate SameState(a: States, b: States, s: Sid, k: Sid) {
    && k in b.rid && Get(b.rid, k, 0) == Get(a.rid, k, 0) && Get(b.def, k, 0) == Get(a.def, k, 0)
    && Get(b.inherited, k, map[]) == Get(a.inherited, k, map[])
    && (k != s ==> Get(b.current, k, map[]) == Get(a.current, k, map[]))
  }

  ghost predicate MoreStates(a: States, b: States, s: Sid) {
    forall k {:trigger SameState(a, b, s, k)} :: k in a.rid ==> SameState(a, b, s, k)
  }

  /** Rule instance r has n more threads, and nothing else is counted. */
  ghost predicate MoreIn(a: Insts, b: Insts, r: Rid, n: int) {
    && b.rule == a.rule && b.first == a.first && b.list == a.list && b.next == a.next
    && forall k {:trigger SameCount(a, b, r, n, k)} :: k in a.threads ==> SameCount(a, b, r, n, k)
  }

  ghost predicate SameCount(a: Insts, b: Insts, r: Rid, n: int, k: Rid) {
    k in b.threads && Get(b.threads, k, 0) == Get(a.threads, k, 0) + if k == r then n else 0
  }

  /** From a to b the simulation of state instance s has created n threads. */
  ghost predicate Extends(a: State, b: State, s: Sid, n: int) {
    && MoreThreads(a.th, b.th, n) && MoreStates(a.st, b.st, s) && MoreIn(a.ri, b.ri, RidOf(a.st, s), n)
    && RidOf(b.st, s) == RidOf(a.st, s) && b.ev == a.ev && forall l :: l in a.table ==> l in b.table
  }

  lemma ThreadsCompose(a: Threads, b: Threads, d: Threads, n: nat, m: nat)
    requires MoreThreads(a, b, n) && MoreThreads(b, d, m)
    ensures MoreThreads(a, d, n + m)
  {
    forall i | |a.newQ| <= i < |d.newQ| ensures a.next <= d.newQ[i] {
      if i < |b.newQ| {
        assert d.newQ[i] == b.newQ[i];
      }
    }
    forall t | t in a.sid ensures SameThread(a, d, t) {
      assert SameThread(a, b, t) && SameThread(b, d, t);
    }
  }

  lemma StatesCompose(a: States, b: States, d: States, s: Sid, s': Sid)
    requires MoreStates(a, b, s) && MoreStates(b, d, s') && (s' == s || s' !in a.rid)
    ensures MoreStates(a, d, s)
  {
    forall k | k in a.rid ensures SameState(a, d, s, k) {
      assert SameState(a, b, s, k) && SameState(b, d, s', k);
    }
  }

  lemma InstsCompose(a: Insts, b: Insts, d: Insts, r: Rid, n: int, m: int)
    requires MoreIn(a, b, r, n) && MoreIn(b, d, r, m)
    ensures MoreIn(a, d, r, n + m)
  {
    forall k | k in a.threads ensures SameCount(a, d, r, n + m, k) {
      assert SameCount(a, b, r, n, k) && SameCount(b, d, r, m, k);
    }
  }

  lemma Compose(a: State, b: State, d: State, s: Sid, s': Sid, n: nat, m: nat)
    requires Extends(a, b, s, n) && Extends(b, d, s', m) && s in a.st.rid
    requires s' == s || (s' !in a.st.rid && RidOf(b.st, s') == RidOf(a.st, s))
    ensures Extends(a, d, s, n + m)
  {
    ThreadsCompose(a.th, b.th, d.th, n, m);
    StatesCompose(a.st, b.st, d.st, s, s');
    assert SameState(a.st, d.st, s, s);
    InstsCompose(a.ri, b.ri, d.ri, RidOf(a.st, s), n, m);
  }

  // ----- the steps of a simulation -----

  /** Bytecode rewrites the environment of s and flags threads. */
  lemma ApplyExtends(e: State, s: Sid, f: Effect)
    ensures Extends(e, Apply(e, s, f), s, 0)
  {
  }

  lemma MarkDeadExtends(e: State, r: Rid, s: Sid)
    ensures Extends(e, MarkDead(e, r), s, 0)
  {
  }

  lemma AddLockExtends(e: State, s: Sid)
    ensures Extends(e, AddLock(e, s), s, 0)
  {
  }

  lemma AddStateExtends(st: States, s: Sid, d: nat)
    requires st.next !in st.rid
    ensures MoreStates(st, AddState(st, s, d), s) && RidOf(AddState(st, s, d), st.next) == RidOf(st, s)
  {
    var b := AddState(st, s, d);
    forall k | k in st.rid ensures SameState(st, b, s, k) {
      assert k != st.next;
    }
  }

  lemma NewStateExtends(e: State, s: Sid, d: nat)
    requires e.st.next !in e.st.rid && s in e.st.rid
    ensures Extends(e, NewState(e, s, d), s, 0)
    ensures RidOf(NewState(e, s, d).st, e.st.next) == RidOf(e.st, s)
  {
    AddStateExtends(e.st, s, d);
    var ri := AddToInst(e.ri, RidOf(e.st, s), e.st.next);
    assert ri.threads == e.ri.threads;
    assert MoreThreads(e.th, e.th, 0);
  }

  lemma NewThreadExtends(inp: Input, e: State, s: Sid, t: nat, once: bool)
    requires e.th.next !in e.th.sid && e.th.onlyOnce <= e.th.sid.Keys && RidOf(e.st, s) in e.ri.threads
    ensures Extends(e, NewThread(inp, e, s, t, once), s, 1)
  {
  }

  // ----- the steps keep the invariants -----

  lemma ApplyKeeps(c: Config, h: Claims, e: State, s: Sid, f: Effect, x: set<Rid>)
    requires Inv(c, h, e, x) && s in e.st.rid
    requires h.env ==> f.env == CurrentEnv(e.st, s) || forall k :: k in e.st.parent ==> e.st.parent[k] != s
    requires h.locks ==> Keys(c, e.(st := SetEnv(e.st, s, f.env)))(s) == Keys(c, e)(s) || Untouched(e, s)
    ensures Inv(c, h, Apply(e, s, f), x)
  {
    var e1 := e.(st := SetEnv(e.st, s, f.env));
    SetEnvKeeps(c, h, e, s, f.env, x);
    KillQuiet(e.th, f.kills);
    QuietKeeps(c, h, e1, Kill(e.th, f.kills), x);
  }

  lemma MarkDeadKeeps(c: Config, h: Claims, e: State, r: Rid, x: set<Rid>)
    requires Inv(c, h, e, x)
    ensures Inv(c, h, MarkDead(e, r), x)
  {
    KillQuiet(e.th, MarkedThreads(e, r));
    QuietKeeps(c, h, e, MarkDead(e, r).th, x);
  }

  /** State instance s instantiates state d of rule r. */
  ghost predicate At(e: State, s: Sid, r: nat, d: nat) {
    s in e.st.rid && Get(e.st.def, s, 0) == d && e.st.rid[s] in e.ri.rule && e.ri.rule[e.st.rid[s]] == r
  }

  /** No state instance descends from s, and no lock or thread sits on it. */
  ghost predicate Blank(h: Claims, e: State, s: Sid) {
    && (forall k :: k in e.st.parent ==> e.st.parent[k] != s)
    && (h.locks ==> Untouched(e, s))
  }

  /** If s has a key then its rule instance holds it. */
  ghost predicate Owns(c: Config, h: Claims, e: State, s: Sid, once: bool) {
    h.locks && !once && Keys(c, e)(s).Some? ==> Held(c.same, Keys(c, e), e.table, e.st.rid, s)
  }

  /** Nothing refers to the next state instance. */
  ghost predicate Unused(h: Claims, e: State, n: Sid) {
    && n !in e.st.rid && n !in e.st.event && (forall k :: k in e.st.parent ==> k != n && e.st.parent[k] != n)
    && (forall t :: t in e.th.sid ==> e.th.sid[t] != n)
    && (h.locks ==> n !in e.table)
  }

  lemma NextUnused(c: Config, h: Claims, e: State, x: set<Rid>)
    requires Inv(c, h, e, x)
    ensures Unused(h, e, e.st.next)
  {
    BelowNext(e.st.rid.Keys, e.st.next);
    ThreadsInLive(c, e);
    NextChildless(e.st);
    if h.locks {
      TableLive(c, e);
    }
  }

  lemma NextChildless(st: States)
    requires Tree(st) && st.next !in st.rid && st.parent.Keys <= st.rid.Keys
    ensures forall k :: k in st.parent ==> k != st.next && st.parent[k] != st.next
  {
    forall k | k in st.parent ensures k != st.next && st.parent[k] != st.next {
      assert PathAt(st.rid, st.parent, st.depth, k);
    }
  }

  lemma TableLive(c: Config, e: State)
    requires Locked(c, e)
    ensures forall l :: l in e.table ==> l in e.st.rid
  {
    forall l | l in e.table ensures l in e.st.rid {
      assert LockOk(c.same, Keys(c, e), e.table, e.st.rid, l);
    }
  }

  lemma NewStateBlank(c: Config, h: Claims, e: State, p: Sid, r: nat, d: nat, d': nat, x: set<Rid>)
    requires Inv(c, h, e, x) && At(e, p, r, d)
    ensures At(NewState(e, p, d'), e.st.next, r, d') && Blank(h, NewState(e, p, d'), e.st.next)
    ensures e.st.next !in e.st.rid && p != e.st.next && e.st.next !in NewState(e, p, d').st.event
  {
    hide Inv;
    NextUnused(c, h, e, x);
  }

  lemma CheckLockKeeps(c: Config, h: Claims, e: State, s: Sid, once: bool, x: set<Rid>)
    requires Inv(c, h, e, x) && s in e.st.rid && CheckLock(c, e, s, once).Some?
    requires h.locks ==> Equivalence(c.same)
    ensures var f := CheckLock(c, e, s, once).value; Inv(c, h, f, x) && Extends(e, f, s, 0) && Owns(c, h, f, s, once)
  {
    hide Linked, Tree, Queued, Counted, Alive, Listed, Owned, Referenced, Active, Extends, Cached;
    var k := Keys(c, e)(s);
    FindLockFinds(c.same, Keys(c, e), e.table, k);
    SelfExtends(e, s);
    AddLockExtends(e, s);
    if k.Some? {
      match FindLock(c.same, Keys(c, e), e.table, k)
      case Some(l) =>
        if h.locks {
          assert LockOk(c.same, Keys(c, e), e.table, e.st.rid, l);
        }
      case None =>
        AddLockKeeps(c, h, e, s, x);
    }
  }

  lemma AtExtends(e: State, f: State, s: Sid, s': Sid, n: int, r: nat, d: nat)
    requires Extends(e, f, s', n) && At(e, s, r, d)
    ensures At(f, s, r, d)
  {
    assert SameState(e.st, f.st, s', s);
  }

  lemma KeyExtends(c: Config, e: State, f: State, s: Sid, n: int, k: Sid)
    requires Extends(e, f, s, n) && k in e.st.rid && k != s
    ensures Kept(Keys(c, e), Keys(c, f), e.st.rid, f.st.rid, k)
  {
    assert SameState(e.st, f.st, s, k);
  }

  /** A key stays held while other state instances are simulated. */
  lemma OwnsExtends(c: Config, h: Claims, e: State, f: State, p: Sid, s: Sid, n: int, once: bool)
    requires Extends(e, f, s, n) && p in e.st.rid && p != s && Owns(c, h, e, p, once) && (h.locks ==> s !in e.table)
    ensures Owns(c, h, f, p, once)
  {
    KeyExtends(c, e, f, s, n, p);
    if h.locks && !once && Keys(c, f)(p).Some? {
      var l :| l in e.table && Matches(c.same, Keys(c, e)(l), Keys(c, e)(p)) &&
               l in e.st.rid && e.st.rid[l] == e.st.rid[p];
      KeyExtends(c, e, f, s, n, l);
    }
  }

  /** A guard that obeys its claims leaves the environment, or at least the key. */
  ghost predicate Harmless(c: Config, h: Claims, e: State, s: Sid, env: Env) {
    && (h.env ==> env == CurrentEnv(e.st, s))
    && (h.locks ==> Keys(c, e.(st := SetEnv(e.st, s, env)))(s) == Keys(c, e)(s))
  }

  lemma TestHarmless(c: Config, h: Claims, inp: Input, e: State, s: Sid, code: Code)
    requires Obeys(c, h, inp) && IsGuard(c, RuleOf(e, s), code)
    ensures Harmless(c, h, e, s, inp.test(e, s, code).effect.env)
  {
  }

  lemma EpsilonHarmless(c: Config, h: Claims, inp: Input, e: State, s: Sid, test: Option<Code>)
    requires Obeys(c, h, inp) && s in e.st.current && (test.Some? ==> IsGuard(c, RuleOf(e, s), test.value))
    ensures Harmless(c, h, e, s, EpsilonVerdict(inp, e, s, test).effect.env)
  {
    match test
    case Some(code) => TestHarmless(c, h, inp, e, s, code);
    case None => assert SetEnv(e.st, s, CurrentEnv(e.st, s)) == e.st;
  }

  lemma HarmlessOwns(c: Config, h: Claims, e: State, s: Sid, f: Effect, once: bool)
    requires s in e.st.rid && Harmless(c, h, e, s, f.env) && Owns(c, h, e, s, once)
    ensures Owns(c, h, Apply(e, s, f), s, once)
  {
    var e1 := Apply(e, s, f);
    if h.locks && !once && Keys(c, e1)(s).Some? {
      KeysAgree(c, e1, e.(st := SetEnv(e.st, s, f.env)));
      SetEnvKeys(c, e, s, f.env);
      var keys, keys' := Keys(c, e), Keys(c, e1);
      HeldAgain(c.same, keys, keys', e.table, e.st.rid, s);
    }
  }

  lemma HeldAgain(same: (Value, Value) -> bool, keys: Sid -> Option<Key>, keys': Sid -> Option<Key>, table: seq<Sid>,
                  rid: map<Sid, Rid>, s: Sid)
    requires Held(same, keys, table, rid, s) && forall k: Sid :: keys'(k) == keys(k)
    ensures Held(same, keys', table, rid, s)
  {
    var l :| l in table && Matches(same, keys(l), keys(s)) && l in rid && s in rid && rid[l] == rid[s];
    assert Matches(same, keys'(l), keys'(s));
  }

  /** Running the test of an epsilon transition. */
  lemma TestKeeps(c: Config, h: Claims, inp: Input, e: State, s: Sid, test: Option<Code>, once: bool, x: set<Rid>)
    requires Inv(c, h, e, x) && s in e.st.rid && Obeys(c, h, inp) && Owns(c, h, e, s, once)
    requires test.Some? ==> IsGuard(c, RuleOf(e, s), test.value)
    ensures var e1 := Apply(e, s, EpsilonVerdict(inp, e, s, test).effect); Inv(c, h, e1, x) && Owns(c, h, e1, s, once)
  {
    var f := EpsilonVerdict(inp, e, s, test).effect;
    EpsilonHarmless(c, h, inp, e, s, test);
    ApplyKeeps(c, h, e, s, f, x);
    HarmlessOwns(c, h, e, s, f, once);
  }

  // ----- the simulation -----

  function Created(ret: int): nat { if ret >= 0 then ret else -1 - ret }

  /** Simulating a new state instance keeps the invariants; the new queue, the thread
      count and the count of the rule instance grow by what the result announces. */
  lemma {:induction false} SimulateKeeps(c: Config, h: Claims, inp: Input, e: State, s: Sid, r: nat, d: nat,
                                         once: bool, x: set<Rid>)
    requires WellFormed(c) && r < |c.rules| && d < |c.rules[r].states|
    requires Inv(c, h, e, x) && Obeys(c, h, inp) && At(e, s, r, d) && Blank(h, e, s)
    ensures var (f, ret) := Simulate(c, inp, e, s, r, d, once); Inv(c, h, f, x) && Extends(e, f, s, Created(ret))
    decreases c.rank(r, d), |c.rules[r].states[d].trans| + 1
  {
    hide Inv, Extends, Owns, Apply, Obeys, MarkDead, SimulateFrom;
    var def := c.rules[r].states[d];
    var e1 := if def.action.Some? then Apply(e, s, inp.act(e, s, def.action.value)) else e;
    ActionKeeps(c, h, inp, e, s, def.action, x);
    if def.trans == [] {
      MarkDeadKeeps(c, h, e1, RidOf(e1.st, s), x);
      MarkDeadExtends(e1, RidOf(e1.st, s), s);
      Compose(e, e1, MarkDead(e1, RidOf(e1.st, s)), s, s, 0, 0);
    } else {
      match CheckLock(c, e1, s, once)
      case None =>
      case Some(e2) =>
        LockKeeps(c, h, inp, e, e1, s, r, d, once, x);
        SimulateFromKeeps(c, h, inp, e2, s, r, d, once, 0, 0, x);
        var (f, ret) := SimulateFrom(c, inp, e2, s, r, d, once, 0, 0);
        Compose(e, e2, f, s, s, 0, Created(ret));
    }
  }

  lemma LockKeeps(c: Config, h: Claims, inp: Input, e: State, e1: State, s: Sid, r: nat, d: nat, once: bool,
                  x: set<Rid>)
    requires Inv(c, h, e1, x) && At(e, s, r, d) && Extends(e, e1, s, 0) && CheckLock(c, e1, s, once).Some?
    requires Obeys(c, h, inp)
    ensures var e2 := CheckLock(c, e1, s, once).value;
            Inv(c, h, e2, x) && Extends(e, e2, s, 0) && At(e2, s, r, d) && Owns(c, h, e2, s, once)
  {
    hide Inv, Extends;
    var e2 := CheckLock(c, e1, s, once).value;
    AtExtends(e, e1, s, s, 0, r, d);
    CheckLockKeeps(c, h, e1, s, once, x);
    AtExtends(e1, e2, s, s, 0, r, d);
    Compose(e, e1, e2, s, s, 0, 0);
  }

  lemma ActionKeeps(c: Config, h: Claims, inp: Input, e: State, s: Sid, action: Option<Code>, x: set<Rid>)
    requires Inv(c, h, e, x) && s in e.st.rid && Blank(h, e, s)
    ensures var e1 := if action.Some? then Apply(e, s, inp.act(e, s, action.value)) else e;
            Inv(c, h, e1, x) && Extends(e, e1, s, 0)
  {
    if action.Some? {
      ApplyKeeps(c, h, e, s, inp.act(e, s, action.value), x);
      ApplyExtends(e, s, inp.act(e, s, action.value));
    } else {
      SelfExtends(e, s);
    }
  }

  lemma SelfExtends(e: State, s: Sid)
    ensures Extends(e, e, s, 0)
  {
  }

  lemma {:induction false} SimulateFromKeeps(c: Config, h: Claims, inp: Input, e: State, s: Sid, r: nat, d: nat,
                                             once: bool, t: nat, created: nat, x: set<Rid>)
    requires WellFormed(c) && r < |c.rules| && d < |c.rules[r].states| && t <= |c.rules[r].states[d].trans|
    requires Inv(c, h, e, x) && Obeys(c, h, inp) && At(e, s, r, d) && Owns(c, h, e, s, once)
    ensures var (f, ret) := SimulateFrom(c, inp, e, s, r, d, once, t, created);
            Inv(c, h, f, x) && Created(ret) >= created && Extends(e, f, s, Created(ret) - created)
    decreases c.rank(r, d), |c.rules[r].states[d].trans| - t
  {
    hide Inv, Extends, Owns, Apply, Obeys, NewThread, NewState, Simulate, EpsilonVerdict, IsGuard;
    var trans := c.rules[r].states[d].trans;
    assert WellFormedRule(c, r);
    if t == |trans| {
      SelfExtends(e, s);
    } else if trans[t].Expect? {
      var e1 := NewThread(inp, e, s, t, once);
      ThreadKeeps(c, h, inp, e, s, r, d, once, t, x);
      SimulateFromKeeps(c, h, inp, e1, s, r, d, once, t + 1, created + 1, x);
      var (f, ret) := SimulateFrom(c, inp, e1, s, r, d, once, t + 1, created + 1);
      Compose(e, e1, f, s, s, 1, Created(ret) - created - 1);
    } else {
      var v := EpsilonVerdict(inp, e, s, trans[t].test);
      var e1 := Apply(e, s, v.effect);
      GuardOf(c, r, d, t);
      TestDone(c, h, inp, e, s, r, d, trans[t].test, once, x);
      if !v.passed {
        SimulateFromKeeps(c, h, inp, e1, s, r, d, once, t + 1, created, x);
        var (f, ret) := SimulateFrom(c, inp, e1, s, r, d, once, t + 1, created);
        Compose(e, e1, f, s, s, 0, Created(ret) - created);
      } else {
        var done := SimulatePassed(c, h, inp, e1, s, r, d, once, t, created, x);
        Compose(e, e1, done.0, s, s, 0, Created(done.1) - created);
      }
    }
  }

  /** What SimulateFrom does behind a passed epsilon transition. */
  lemma {:induction false} SimulatePassed(c: Config, h: Claims, inp: Input, e: State, s: Sid, r: nat, d: nat,
                                          once: bool, t: nat, created: nat, x: set<Rid>) returns (done: (State, int))
    requires WellFormed(c) && r < |c.rules| && d < |c.rules[r].states| && t < |c.rules[r].states[d].trans|
    requires c.rules[r].states[d].trans[t].Epsilon?
    requires Inv(c, h, e, x) && Obeys(c, h, inp) && At(e, s, r, d) && Owns(c, h, e, s, once)
    ensures var dest := c.rules[r].states[d].trans[t].dest;
            WellFormedRule(c, r) && dest < |c.rules[r].states| &&
            var (e1, ret) := Simulate(c, inp, NewState(e, s, dest), e.st.next, r, dest, once);
            done == if ret < 0 then (e1, ret - created)
                    else SimulateFrom(c, inp, e1, s, r, d, once, t + 1, created + ret)
    ensures Inv(c, h, done.0, x) && Created(done.1) >= created && Extends(e, done.0, s, Created(done.1) - created)
    decreases c.rank(r, d), |c.rules[r].states[d].trans| - t, 0
  {
    hide Inv, Extends, Owns, Apply, Obeys, NewThread, NewState, Simulate, EpsilonVerdict;
    assert WellFormedRule(c, r);
    var dest := c.rules[r].states[d].trans[t].dest;
    var (e1, ret) := Simulate(c, inp, NewState(e, s, dest), e.st.next, r, dest, once);
    PassedKeeps(c, h, inp, e, s, r, d, t, once, x);
    if ret < 0 {
      done := (e1, ret - created);
    } else {
      SimulateFromKeeps(c, h, inp, e1, s, r, d, once, t + 1, created + ret, x);
      done := SimulateFrom(c, inp, e1, s, r, d, once, t + 1, created + ret);
      Compose(e, e1, done.0, s, s, ret, Created(done.1) - created - ret);
    }
  }

  lemma GuardOf(c: Config, r: nat, d: nat, t: nat)
    requires r < |c.rules| && d < |c.rules[r].states| && t < |c.rules[r].states[d].trans|
    requires c.rules[r].states[d].trans[t].Epsilon?
    ensures var test := c.rules[r].states[d].trans[t].test; test.Some? ==> IsGuard(c, r, test.value)
  {
    var test := c.rules[r].states[d].trans[t].test;
    assert test.Some? ==> GuardAt(c, r, d, t, test.value);
  }

  lemma TestDone(c: Config, h: Claims, inp: Input, e: State, s: Sid, r: nat, d: nat, test: Option<Code>, once: bool,
                 x: set<Rid>)
    requires Inv(c, h, e, x) && At(e, s, r, d) && Obeys(c, h, inp) && Owns(c, h, e, s, once)
    requires test.Some? ==> IsGuard(c, r, test.value)
    ensures var e1 := Apply(e, s, EpsilonVerdict(inp, e, s, test).effect);
            Inv(c, h, e1, x) && Extends(e, e1, s, 0) && At(e1, s, r, d) && Owns(c, h, e1, s, once)
  {
    var f := EpsilonVerdict(inp, e, s, test).effect;
    TestKeeps(c, h, inp, e, s, test, once, x);
    ApplyExtends(e, s, f);
    AtExtends(e, Apply(e, s, f), s, s, 0, r, d);
  }

  /** A passed epsilon transition: its destination is simulated. */
  lemma {:induction false} PassedKeeps(c: Config, h: Claims, inp: Input, e: State, s: Sid, r: nat, d: nat, t: nat,
                                       once: bool, x: set<Rid>)
    requires WellFormed(c) && r < |c.rules| && d < |c.rules[r].states| && t < |c.rules[r].states[d].trans|
    requires c.rules[r].states[d].trans[t].Epsilon?
    requires Inv(c, h, e, x) && Obeys(c, h, inp) && At(e, s, r, d) && Owns(c, h, e, s, once)
    ensures var dest := c.rules[r].states[d].trans[t].dest;
            WellFormedRule(c, r) && dest < |c.rules[r].states| &&
            var (f, ret) := Simulate(c, inp, NewState(e, s, dest), e.st.next, r, dest, once);
            Inv(c, h, f, x) && Extends(e, f, s, Created(ret)) && At(f, s, r, d) && Owns(c, h, f, s, once)
    decreases c.rank(r, d), 0
  {
    assert WellFormedRule(c, r);
    var dest := c.rules[r].states[d].trans[t].dest;
    var (f, ret) := Simulate(c, inp, NewState(e, s, dest), e.st.next, r, dest, once);
    EnterKeeps(c, h, e, s, r, d, dest, once, x);
    SimulateKeeps(c, h, inp, NewState(e, s, dest), e.st.next, r, dest, once, x);
    EnterDone(c, h, e, f, s, r, d, dest, once, Created(ret), x);
  }

  /** A transition that reads the event gets a thread. */
  lemma ThreadKeeps(c: Config, h: Claims, inp: Input, e: State, s: Sid, r: nat, d: nat, once: bool, t: nat, x: set<Rid>)
    requires r < |c.rules| && d < |c.rules[r].states| && t < |c.rules[r].states[d].trans|
    requires c.rules[r].states[d].trans[t].Expect?
    requires Inv(c, h, e, x) && At(e, s, r, d) && Owns(c, h, e, s, once)
    ensures var e1 := NewThread(inp, e, s, t, once);
            Inv(c, h, e1, x) && Extends(e, e1, s, 1) && At(e1, s, r, d) && Owns(c, h, e1, s, once)
  {
    BelowNext(e.th.sid.Keys, e.th.next);
    NewThreadKeeps(c, h, inp, e, s, t, once, x);
    NewThreadExtends(inp, e, s, t, once);
    KeysAgree(c, e, NewThread(inp, e, s, t, once));
    assert Keys(c, NewThread(inp, e, s, t, once)) == Keys(c, e);
  }

  /** Entering the destination of an epsilon transition. */
  lemma EnterKeeps(c: Config, h: Claims, e: State, s: Sid, r: nat, d: nat, dest: nat, once: bool, x: set<Rid>)
    requires r < |c.rules| && dest < |c.rules[r].states| && Inv(c, h, e, x) && At(e, s, r, d)
    ensures var e1 := NewState(e, s, dest); Inv(c, h, e1, x) && At(e1, e.st.next, r, dest) && Blank(h, e1, e.st.next)
  {
    NewStateKeeps(c, h, e, s, dest, x);
    NewStateBlank(c, h, e, s, r, d, dest, x);
  }

  lemma NewStateOwns(c: Config, h: Claims, e: State, s: Sid, d: nat, once: bool)
    requires Owns(c, h, e, s, once) && e.st.next !in e.st.rid && s in e.st.rid
    ensures Owns(c, h, NewState(e, s, d), s, once)
  {
    var e1 := NewState(e, s, d);
    NewStateKey(c, e, s, d, s);
    if h.locks && !once && Keys(c, e1)(s).Some? {
      var l :| l in e.table && Matches(c.same, Keys(c, e)(l), Keys(c, e)(s)) &&
               l in e.st.rid && e.st.rid[l] == e.st.rid[s];
      NewStateKey(c, e, s, d, l);
    }
  }

  lemma NewStateKey(c: Config, e: State, p: Sid, d: nat, k: Sid)
    requires k in e.st.rid && e.st.next !in e.st.rid
    ensures Kept(Keys(c, e), Keys(c, NewState(e, p, d)), e.st.rid, NewState(e, p, d).st.rid, k)
  {
    AddStateKeys(c, e.ri.rule, e.st.rid, e.st.current, e.st.inherited, e.st.next, RidOf(e.st, p),
                 Get(e.st.inherited, p, map[]) + CurrentEnv(e.st, p), k);
  }

  /** After the simulation of the destination, s is as it was before. */
  lemma EnterDone(c: Config, h: Claims, e: State, f: State, s: Sid, r: nat, d: nat, dest: nat, once: bool, n: nat,
                  x: set<Rid>)
    requires Inv(c, h, e, x) && At(e, s, r, d) && Owns(c, h, e, s, once)
    requires Extends(NewState(e, s, dest), f, e.st.next, n)
    ensures Extends(e, f, s, n) && At(f, s, r, d) && Owns(c, h, f, s, once)
  {
    hide Inv, Extends, Owns, NewState;
    var e1 := NewState(e, s, dest);
    NewStateBlank(c, h, e, s, r, d, dest, x);
    NewStateExtends(e, s, dest);
    AtExtends(e, e1, s, s, 0, r, d);
    Compose(e, e1, f, s, e.st.next, 0, n);
    AtExtends(e, f, s, s, n, r, d);
    NewStateOwns(c, h, e, s, dest, once);
    OwnsExtends(c, h, e1, f, s, e.st.next, n, once);
  }
}
