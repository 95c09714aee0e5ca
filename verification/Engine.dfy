/**
 The analysis engine (src/engine.c) as functions on one record.

 The heap is modelled field by field: a pointer is an identifier, and a field of a
 C structure is a map from identifiers to values.  A NULL pointer in a field is an
 absent key, a flag is the set of the records that carry it, and freeing a record
 removes its identifier from every map; a pointer dangles when the record that it
 names is gone.

 The bytecode is executed by two parameters of an event, act and test.  They may
 look at everything, rewrite the environment of the state instance they run in and
 flag any set of threads as killed, as the cut and kill built-ins do.
 */
module Engine {
  import opened Options
  import opened Ovm
  import QueueOrder

  type Tid = nat
  type Sid = nat
  type Rid = nat
  type Eid = nat
  type Code = seq<int>

  // ----- rules -----

  /** A transition without required fields is tried at once; the others wait. */
  datatype Transition = Epsilon(dest: nat, test: Option<Code>) | Expect(dest: nat, guard: Code)

  datatype StateDef = StateDef(action: Option<Code>, trans: seq<Transition>, readsField: bool)

  datatype Rule = Rule(states: seq<StateDef>, sync: Option<seq<int>>)

  /** The compiled rules; for every state a rank that falls along its epsilon
      transitions, which are acyclic; and the value comparison of the lock tables. */
  datatype Config = Config(rules: seq<Rule>, rank: (nat, nat) -> nat, same: (Value, Value) -> bool)

  ghost predicate WellFormedRule(c: Config, r: nat)
    requires r < |c.rules|
  {
    var states := c.rules[r].states;
    && |states| > 0
    && forall d, t {:trigger states[d].trans[t]} :: 0 <= d < |states| && 0 <= t < |states[d].trans| ==>
         && states[d].trans[t].dest < |states|
         && (states[d].trans[t].Epsilon? ==> c.rank(r, states[d].trans[t].dest) < c.rank(r, d))
  }

  ghost predicate WellFormed(c: Config) {
    forall r: nat :: r < |c.rules| ==> WellFormedRule(c, r)
  }

  // ----- run-time records -----

  /** wait_thread_t, and the queues.  sid is the state instance a thread waits in;
      its domain is the set of allocated threads.  head and tail are
      cur_retrig_qh and current_tail, which outlive the walk that sets them. */
  datatype Threads = Threads(
    sid: map<Tid, Sid>, trans: map<Tid, nat>, timeout: map<Tid, int>,
    onlyOnce: set<Tid>, bump: set<Tid>, killed: set<Tid>,
    newQ: seq<Tid>, retrigQ: seq<Tid>, cur: seq<Tid>,
    head: Option<Tid>, tail: Option<Tid>,
    count: int, next: Tid)

  /** state_instance_t; rid is the rule instance it belongs to. */
  datatype States = States(
    rid: map<Sid, Rid>, def: map<Sid, nat>,
    parent: map<Sid, Sid>, firstChild: map<Sid, Sid>, nextSibling: map<Sid, Sid>, depth: map<Sid, nat>,
    event: map<Sid, Eid>, inherited: map<Sid, Env>, current: map<Sid, Env>, threadList: map<Sid, seq<Tid>>,
    count: int, next: Sid)

  /** rule_instance_t, and the list of those that are linked. */
  datatype Insts = Insts(
    rule: map<Rid, nat>, first: map<Rid, Sid>, stateList: map<Rid, seq<Sid>>,
    threads: map<Rid, int>, locks: map<Rid, seq<Sid>>,
    list: seq<Rid>, next: Rid)

  /** active_event_t, the active list, and the event being injected. */
  datatype Events = Events(refs: map<Eid, int>, active: seq<Eid>, current: Option<Eid>, count: int, next: Eid)

  /** The engine; table holds the state instances in the lock tables of all rules. */
  datatype State = State(th: Threads, st: States, ri: Insts, ev: Events, table: seq<Sid>)

  const EMPTY := State(
    Threads(map[], map[], map[], {}, {}, {}, [], [], [], None, None, 0, 0),
    States(map[], map[], map[], map[], map[], map[], map[], map[], map[], map[], 0, 0),
    Insts(map[], map[], map[], map[], map[], [], 0),
    Events(map[], [], None, 0, 0), [])

  /** Reading through a pointer; the default is what a dangling one reads. */
  function Get<K, V>(m: map<K, V>, k: K, default: V): V { if k in m then m[k] else default }

  function RidOf(st: States, s: Sid): Rid { Get(st.rid, s, 0) }

  function SidOf(th: Threads, t: Tid): Sid { Get(th.sid, t, 0) }

  function RuleOf(e: State, s: Sid): nat { Get(e.ri.rule, RidOf(e.st, s), 0) }

  function CurrentEnv(st: States, s: Sid): Env { Get(st.current, s, map[]) }

  datatype Effect = Effect(env: Env, kills: set<Tid>)

  datatype Verdict = Verdict(passed: bool, effect: Effect)

  /** One event: what bytecode does while it is injected, the time, and the
      time-out date that a thread created now receives. */
  datatype Input = Input(
    act: (State, Sid, Code) -> Effect,
    test: (State, Sid, Code) -> Verdict,
    now: int,
    deadline: Tid -> int)

  // ----- primitive updates -----

  /** KILL_THREAD on allocated threads. */
  function Kill(th: Threads, ts: set<Tid>): Threads { th.(killed := th.killed + (ts * th.sid.Keys)) }

  /** THREAD_BUMP on the tail of a queue that is not empty. */
  function BumpLast(th: Threads, q: seq<Tid>): Threads {
    if q == [] then th else th.(bump := th.bump + {q[|q| - 1]})
  }

  function SetEnv(st: States, s: Sid, env: Env): States { st.(current := st.current[s := env]) }

  function Apply(e: State, s: Sid, f: Effect): State {
    e.(st := SetEnv(e.st, s, f.env), th := Kill(e.th, f.kills))
  }

  /** create_state_instance, and the link into the tree that its callers make. */
  function AddState(st: States, p: Sid, d: nat): States {
    var n := st.next;
    st.(rid := st.rid[n := RidOf(st, p)],
        def := st.def[n := d],
        parent := st.parent[n := p],
        nextSibling := if p in st.firstChild then st.nextSibling[n := st.firstChild[p]] else st.nextSibling,
        firstChild := st.firstChild[p := n],
        depth := st.depth[n := Get(st.depth, p, 0) + 1],
        inherited := st.inherited[n := Get(st.inherited, p, map[]) + CurrentEnv(st, p)],
        current := st.current[n := map[]],
        threadList := st.threadList[n := []],
        count := st.count + 1,
        next := n + 1)
  }

  /** The link of a state instance into its rule instance. */
  function AddToInst(ri: Insts, r: Rid, s: Sid): Insts {
    ri.(stateList := ri.stateList[r := [s] + Get(ri.stateList, r, [])])
  }

  function NewState(e: State, p: Sid, d: nat): State {
    e.(st := AddState(e.st, p, d), ri := AddToInst(e.ri, RidOf(e.st, p), e.st.next))
  }

  /** The reference of a state instance to the current event. */
  function Reference(e: State, s: Sid): State {
    match e.ev.current
    case None => e
    case Some(v) =>
      e.(st := e.st.(event := e.st.event[s := v]), ev := e.ev.(refs := e.ev.refs[v := Get(e.ev.refs, v, 0) + 1]))
  }

  /** A thread for transition t of state instance s; an initial thread is in no list. */
  function NewThread(inp: Input, e: State, s: Sid, t: nat, once: bool): State {
    State(AddThread(inp, e.th, s, t, once), if once then e.st else ListThread(e.st, s, e.th.next),
          CountThread(e.ri, RidOf(e.st, s)), e.ev, e.table)
  }

  function AddThread(inp: Input, th: Threads, s: Sid, t: nat, once: bool): Threads {
    var n := th.next;
    th.(sid := th.sid[n := s], trans := th.trans[n := t], timeout := th.timeout[n := inp.deadline(n)],
        onlyOnce := if once then th.onlyOnce + {n} else th.onlyOnce,
        newQ := th.newQ + [n], count := th.count + 1, next := n + 1)
  }

  function ListThread(st: States, s: Sid, n: Tid): States {
    st.(threadList := st.threadList[s := [n] + Get(st.threadList, s, [])])
  }

  function CountThread(ri: Insts, r: Rid): Insts { ri.(threads := ri.threads[r := Get(ri.threads, r, 0) + 1]) }

  // ----- killing a rule instance -----

  /** What following next pointers from a thread reaches, in the queue it is in. */
  function Chain(th: Threads, start: Option<Tid>): seq<Tid> {
    match start
    case None => []
    case Some(t) => QueueOrder.From(th.cur, t) + QueueOrder.From(th.retrigQ, t) + QueueOrder.From(th.newQ, t)
  }

  /** The threads that mark_dead_rule meets: from the head that the current queue
      has, or had when its first survivor was moved on; the retrigger queue; and
      from the thread under evaluation. */
  function MarkedThreads(e: State, r: Rid): set<Tid> {
    set t | t in Chain(e.th, e.th.head) + e.th.retrigQ + Chain(e.th, e.th.tail) && RidOf(e.st, SidOf(e.th, t)) == r
  }

  function MarkDead(e: State, r: Rid): State { e.(th := Kill(e.th, MarkedThreads(e, r))) }

  // ----- synchronisation locks -----

  /** The values of the synchronisation variables, if all are bound. */
  function SyncKey(current: Env, inherited: Env, vars: seq<int>): Option<seq<Value>> {
    if vars == [] then Some([])
    else
      var x := vars[0];
      var rest := SyncKey(current, inherited, vars[1..]);
      if rest.None? then None
      else if x in current then Some([current[x]] + rest.value)
      else if x in inherited then Some([inherited[x]] + rest.value)
      else None
  }

  /** objhash_rule_instance_cmp */
  predicate SameKey(same: (Value, Value) -> bool, a: seq<Value>, b: seq<Value>) {
    |a| == |b| && forall i :: 0 <= i < |a| ==> same(a[i], b[i])
  }

  /** A rule and the values of its synchronisation variables in a state instance. */
  type Key = (nat, seq<Value>)

  /** The lock key of a state instance, when its rule is synchronised and every
      synchronisation variable is bound. */
  function KeyOf(c: Config, rule: map<Rid, nat>, rid: map<Sid, Rid>, current: map<Sid, Env>, inherited: map<Sid, Env>,
                 s: Sid): Option<Key> {
    var r := Get(rule, Get(rid, s, 0), 0);
    if r >= |c.rules| || c.rules[r].sync.None? then None
    else match SyncKey(Get(current, s, map[]), Get(inherited, s, map[]), c.rules[r].sync.value)
      case None => None
      case Some(k) => Some((r, k))
  }

  /** The keys of all state instances, as a function. */
  function Keys(c: Config, e: State): Sid -> Option<Key> {
    s => KeyOf(c, e.ri.rule, e.st.rid, e.st.current, e.st.inherited, s)
  }

  predicate Matches(same: (Value, Value) -> bool, a: Option<Key>, b: Option<Key>) {
    a.Some? && b.Some? && a.value.0 == b.value.0 && SameKey(same, a.value.1, b.value.1)
  }

  /** objhash_get: the first lock with key k. */
  function FindLock(same: (Value, Value) -> bool, keys: Sid -> Option<Key>, table: seq<Sid>,
                    k: Option<Key>): Option<Sid> {
    if table == [] then None
    else if Matches(same, keys(table[0]), k) then Some(table[0])
    else FindLock(same, keys, table[1..], k)
  }

  /** objhash_del: drops the first lock with key k. */
  function DropLock(same: (Value, Value) -> bool, keys: Sid -> Option<Key>, table: seq<Sid>, k: Option<Key>): seq<Sid> {
    if table == [] then []
    else if Matches(same, keys(table[0]), k) then table[1..]
    else [table[0]] + DropLock(same, keys, table[1..], k)
  }

  function AddLock(e: State, s: Sid): State {
    var r := RidOf(e.st, s);
    e.(table := [s] + e.table, ri := e.ri.(locks := e.ri.locks[r := [s] + Get(e.ri.locks, r, [])]))
  }

  /** The lock test of a state that is entered; None prunes it. */
  function CheckLock(c: Config, e: State, s: Sid, once: bool): Option<State> {
    var k := Keys(c, e)(s);
    if k.None? then Some(e)
    else match FindLock(c.same, Keys(c, e), e.table, k)
      case Some(l) => if RidOf(e.st, l) != RidOf(e.st, s) then None else Some(e)
      case None => Some(if once then e else AddLock(e, s))
  }

  // ----- simulation of a state (q-add) -----

  /** Runs the action of state instance s, of state d of rule r, takes its epsilon
      transitions and creates threads for the others.  A negative result -1 - k
      reports a terminal or pruned state after k threads have been created. */
  function Simulate(c: Config, inp: Input, e: State, s: Sid, r: nat, d: nat, once: bool): (State, int)
    requires WellFormed(c) && r < |c.rules| && d < |c.rules[r].states|
    decreases c.rank(r, d), |c.rules[r].states[d].trans| + 1
  {
    var def := c.rules[r].states[d];
    var e1 := if def.action.Some? then Apply(e, s, inp.act(e, s, def.action.value)) else e;
    if def.trans == [] then (MarkDead(e1, RidOf(e1.st, s)), -1)
    else match CheckLock(c, e1, s, once)
      case None => (e1, -1)
      case Some(e2) => SimulateFrom(c, inp, e2, s, r, d, once, 0, 0)
  }

  function SimulateFrom(c: Config, inp: Input, e: State, s: Sid, r: nat, d: nat, once: bool, t: nat,
                        created: nat): (State, int)
    requires WellFormed(c) && r < |c.rules| && d < |c.rules[r].states| && t <= |c.rules[r].states[d].trans|
    decreases c.rank(r, d), |c.rules[r].states[d].trans| - t
  {
    assert WellFormedRule(c, r);
    var def := c.rules[r].states[d];
    if t == |def.trans| then (e, created)
    else match def.trans[t]
      case Expect(_, _) => SimulateFrom(c, inp, NewThread(inp, e, s, t, once), s, r, d, once, t + 1, created + 1)
      case Epsilon(dest, test) =>
        var v := EpsilonVerdict(inp, e, s, test);
        var e1 := Apply(e, s, v.effect);
        if !v.passed then SimulateFrom(c, inp, e1, s, r, d, once, t + 1, created)
        else
          var (e2, ret) := Simulate(c, inp, NewState(e1, s, dest), e1.st.next, r, dest, once);
          if ret < 0 then (e2, ret - created)
          else SimulateFrom(c, inp, e2, s, r, d, once, t + 1, created + ret)
  }

  /** An unconditional transition always passes. */
  function EpsilonVerdict(inp: Input, e: State, s: Sid, test: Option<Code>): Verdict {
    match test
    case Some(code) => inp.test(e, s, code)
    case None => Verdict(true, Effect(CurrentEnv(e.st, s), {}))
  }

  // ----- freeing a rule instance -----

  function Without<T(==)>(q: seq<T>, x: T): seq<T> {
    if q == [] then [] else if q[0] == x then q[1..] else [q[0]] + Without(q[1..], x)
  }

  /** Removes the locks that a rule instance lists. */
  function DropLocks(same: (Value, Value) -> bool, keys: Sid -> Option<Key>, table: seq<Sid>, held: seq<Sid>): seq<Sid>
    decreases |held|
  {
    if held == [] then table else DropLocks(same, keys, DropLock(same, keys, table, keys(held[0])), held[1..])
  }

  /** Releases one reference to an event; an event whose last reference goes away
      is freed and unlinked unless it is the current one. */
  function Release(ev: Events, v: Eid): Events {
    var n := Get(ev.refs, v, 0) - 1;
    if n <= 0 && ev.current != Some(v) then
      ev.(refs := ev.refs - {v}, active := Without(ev.active, v), count := ev.count - 1)
    else ev.(refs := ev.refs[v := n])
  }

  /** Releases the events of a list of state instances. */
  function ReleaseAll(ev: Events, event: map<Sid, Eid>, ss: seq<Sid>): Events
    decreases |ss|
  {
    if ss == [] then ev
    else ReleaseAll(if ss[0] in event then Release(ev, event[ss[0]]) else ev, event, ss[1..])
  }

  function RemoveStates(st: States, dead: set<Sid>, n: nat): States {
    st.(rid := st.rid - dead, def := st.def - dead, parent := st.parent - dead, firstChild := st.firstChild - dead,
        nextSibling := st.nextSibling - dead, depth := st.depth - dead, event := st.event - dead,
        inherited := st.inherited - dead, current := st.current - dead, threadList := st.threadList - dead,
        count := st.count - n)
  }

  function RemoveInst(ri: Insts, r: Rid): Insts {
    ri.(rule := ri.rule - {r}, first := ri.first - {r}, stateList := ri.stateList - {r},
        threads := ri.threads - {r}, locks := ri.locks - {r})
  }

  function InstStates(ri: Insts, r: Rid): seq<Sid> { [Get(ri.first, r, 0)] + Get(ri.stateList, r, []) }

  function Elements<T>(q: seq<T>): set<T> { set x | x in q }

  /** free_rule_instance: the locks, the events that its states refer to, the
      states, and the record itself. */
  function FreeInstance(c: Config, e: State, r: Rid): State {
    var ss := InstStates(e.ri, r);
    State(e.th,
          RemoveStates(e.st, Elements(ss), |ss|),
          RemoveInst(e.ri, r),
          ReleaseAll(e.ev, e.st.event, ss),
          DropLocks(c.same, Keys(c, e), e.table, Get(e.ri.locks, r, [])))
  }

  // ----- reaping a thread -----

  /** Takes the thread under evaluation out of the queue and frees it. */
  function RemoveCurrent(th: Threads): Threads
    requires th.cur != []
  {
    var t, rest := th.cur[0], th.cur[1..];
    th.(sid := th.sid - {t}, trans := th.trans - {t}, timeout := th.timeout - {t},
        onlyOnce := th.onlyOnce - {t}, bump := th.bump - {t}, killed := th.killed - {t},
        cur := rest, count := th.count - 1,
        head := if th.head != Some(t) then th.head else if rest == [] then None else Some(rest[0]),
        tail := None)
  }

  function DropThread(e: State): State
    requires e.th.cur != []
  {
    var r := RidOf(e.st, SidOf(e.th, e.th.cur[0]));
    e.(th := RemoveCurrent(e.th), ri := e.ri.(threads := e.ri.threads[r := Get(e.ri.threads, r, 0) - 1]))
  }

  /** unlink_thread_in_state_instance_list */
  function Unlink(e: State, s: Sid, t: Tid): State {
    e.(st := e.st.(threadList := e.st.threadList[s := Without(Get(e.st.threadList, s, []), t)]))
  }

  function Delist(e: State, r: Rid): State { e.(ri := e.ri.(list := Without(e.ri.list, r))) }

  /** reap_dead_rule: an instance that is linked is unlinked and freed. */
  function ReapDead(c: Config, e: State, r: Rid): State {
    if r in e.ri.list then FreeInstance(c, Delist(e, r), r) else e
  }

  /** Frees the thread under evaluation, and its rule instance with its last thread. */
  function Reap(c: Config, e: State): State
    requires e.th.cur != []
  {
    var t := e.th.cur[0];
    var s := SidOf(e.th, t);
    var r := RidOf(e.st, s);
    var e1 := DropThread(e);
    if e1.ri.threads[r] == 0 then ReapDead(c, e1, r) else Unlink(e1, s, t)
  }

  // ----- the wait queues -----

  /** q_cur = q_new @ q_retrig */
  function Merge(th: Threads): Threads {
    var q := th.newQ + th.retrigQ;
    th.(newQ := [], retrigQ := [], cur := q, head := if q == [] then None else Some(q[0]))
  }

  /** q_retrig = q_retrig + t */
  function Retrig(th: Threads): Threads
    requires th.cur != []
  {
    th.(retrigQ := th.retrigQ + [th.cur[0]], cur := th.cur[1..])
  }

  /** q_new = q_new @ q_retrig, with a bump behind each part. */
  function Commit(th: Threads): Threads {
    BumpLast(BumpLast(th, th.retrigQ), th.newQ).(newQ := th.newQ + th.retrigQ, retrigQ := [])
  }

  // ----- one event -----

  function Begin(ev: Events): Events {
    ev.(current := Some(ev.next), refs := ev.refs[ev.next := 0], next := ev.next + 1)
  }

  /** A rule instance with its initial state instance, not yet linked. */
  function NewInstance(e: State, r: nat): State {
    var s, i := e.st.next, e.ri.next;
    e.(st := e.st.(rid := e.st.rid[s := i], def := e.st.def[s := 0], depth := e.st.depth[s := 0],
                   inherited := e.st.inherited[s := map[]], current := e.st.current[s := map[]],
                   threadList := e.st.threadList[s := []], count := e.st.count + 1, next := s + 1),
       ri := e.ri.(rule := e.ri.rule[i := r], first := e.ri.first[i := s], stateList := e.ri.stateList[i := []],
                   threads := e.ri.threads[i := 0], locks := e.ri.locks[i := []], next := i + 1))
  }

  /** Links a rule instance that has initial threads. */
  function Link(e: State, r: Rid, threads: int): State {
    e.(ri := e.ri.(threads := e.ri.threads[r := threads], list := [r] + e.ri.list), th := BumpLast(e.th, e.th.newQ))
  }

  /** The initial threads of one rule, and the value its simulation returned. */
  function SeedRule(c: Config, inp: Input, e: State, r: nat): (State, int)
    requires WellFormed(c) && r < |c.rules|
  {
    assert WellFormedRule(c, r);
    var (e1, ret) := Simulate(c, inp, NewInstance(e, r), e.st.next, r, 0, true);
    if ret <= 0 then (FreeInstance(c, e1, e.ri.next), ret) else (Link(e1, e.ri.next, ret), ret)
  }

  /** The initial threads of the rules from number r on.  None: the instance of
      some rule was freed while threads of it were queued, and the engine goes on
      with dangling pointers. */
  function SeedAll(c: Config, inp: Input, e: State, r: nat): Option<State>
    requires WellFormed(c) && r <= |c.rules|
    decreases |c.rules| - r
  {
    if r == |c.rules| then Some(e)
    else
      var (e1, ret) := SeedRule(c, inp, e, r);
      if ret < -1 then None else SeedAll(c, inp, e1, r + 1)
  }

  /** The transition that a thread waits on. */
  function TransOf(c: Config, e: State, t: Tid): Option<Transition> {
    var s := SidOf(e.th, t);
    var r, d, i := RuleOf(e, s), Get(e.st.def, s, 0), Get(e.th.trans, t, 0);
    if r < |c.rules| && d < |c.rules[r].states| && i < |c.rules[r].states[d].trans| then
      Some(c.rules[r].states[d].trans[i])
    else None
  }

  /** backtrack_is_not_needed */
  predicate NoBacktrack(def: StateDef) { |def.trans| > 0 && !def.readsField }

  /** Thread t of state instance s has passed its transition to state d of rule r. */
  function Pass(c: Config, inp: Input, e: State, t: Tid, s: Sid, r: nat, d: nat): State
    requires WellFormed(c) && r < |c.rules| && d < |c.rules[r].states|
  {
    var (e1, _) := Simulate(c, inp, Reference(NewState(e, s, d), e.st.next), e.st.next, r, d, false);
    if NoBacktrack(c.rules[r].states[d]) then e1.(th := Kill(e1.th, {t})) else e1
  }

  /** Runs the guard of the thread under evaluation. */
  function Evaluate(c: Config, inp: Input, e: State): State
    requires WellFormed(c) && e.th.cur != []
  {
    var t := e.th.cur[0];
    var s := SidOf(e.th, t);
    var r := RuleOf(e, s);
    match TransOf(c, e, t)
    case Some(Expect(d, guard)) =>
      var v := inp.test(e, s, guard);
      var e1 := Apply(e, s, v.effect);
      if v.passed && d < |c.rules[r].states| then Pass(c, inp, e1, t, s, r, d) else e1
    case _ => e
  }

  /** The thread under evaluation, with its time-out checked. */
  function Arrive(inp: Input, th: Threads): Threads
    requires th.cur != []
  {
    var t := th.cur[0];
    var th1 := th.(tail := Some(t));
    if t !in th.onlyOnce && Get(th.timeout, t, 0) <= inp.now then Kill(th1, {t}) else th1
  }

  /** What becomes of a thread that was evaluated: an initial thread is reaped, the
      others wait for the next event. */
  function Settle(c: Config, e: State): State
    requires e.th.cur != []
  {
    var t := e.th.cur[0];
    var th1 := if t in e.th.onlyOnce then Kill(e.th, {t}) else Retrig(e.th);
    var e1 := e.(th := if t in e.th.bump then Commit(th1) else th1);
    if t in e.th.onlyOnce then Reap(c, e1) else e1
  }

  /** The body of the event loop. */
  function Visit(c: Config, inp: Input, e: State): State
    requires WellFormed(c)
  {
    if e.th.cur == [] then e
    else
      var e1 := e.(th := Arrive(inp, e.th));
      if e1.th.cur[0] in e1.th.killed then Reap(c, e1)
      else
        var e2 := Evaluate(c, inp, e1);
        if e2.th.cur == [] then e2 else Settle(c, e2)
  }

  function EvtLoop(c: Config, inp: Input, e: State, n: nat): State
    requires WellFormed(c)
    decreases n
  {
    if n == 0 then e else EvtLoop(c, inp, Visit(c, inp, e), n - 1)
  }

  /** The current event joins the active list if a state instance refers to it. */
  function End(ev: Events): Events {
    match ev.current
    case None => ev
    case Some(v) =>
      if Get(ev.refs, v, 0) == 0 then ev.(refs := ev.refs - {v}, current := None)
      else ev.(active := ev.active + [v], count := ev.count + 1, current := None)
  }

  /** inject_event */
  function Inject(c: Config, inp: Input, e: State): Option<State>
    requires WellFormed(c)
  {
    match SeedAll(c, inp, e.(ev := Begin(e.ev)), 0)
    case None => None
    case Some(e1) =>
      var e2 := e1.(th := Merge(e1.th));
      var e3 := EvtLoop(c, inp, e2, |e2.th.cur|);
      Some(e3.(ev := End(e3.ev)))
  }

  /** A whole run. */
  function Injects(c: Config, inputs: seq<Input>, e: State): Option<State>
    requires WellFormed(c)
    decreases |inputs|
  {
    if inputs == [] then Some(e)
    else match Inject(c, inputs[0], e)
      case None => None
      case Some(e1) => Injects(c, inputs[1..], e1)
  }
}
