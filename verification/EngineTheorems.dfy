/**
 What the invariants say of every state that a run of the engine can reach.
 */
module EngineTheorems {
  import opened Options
  import opened Ovm
  import opened Engine
  import opened EngineInvariants
  import opened EngineUpdates
  import opened EngineFreeing
  import opened EngineSimulation
  import opened EngineRuns
  import opened EngineQueues

  /** Some sequence of events, whose bytecode keeps the claims, leads from the empty
      engine to e. */
  ghost predicate Reached(c: Config, h: Claims, e: State) {
    WellFormed(c) && exists inputs: seq<Input> ::
      Injects(c, inputs, EMPTY) == Some(e) && forall i :: 0 <= i < |inputs| ==> Obeys(c, h, inputs[i])
  }

  lemma ReachedRests(c: Config, h: Claims, e: State)
    requires Reached(c, h, e)
    ensures Resting(c, h, e)
  {
    var inputs: seq<Input> :|
      Injects(c, inputs, EMPTY) == Some(e) && forall i :: 0 <= i < |inputs| ==> Obeys(c, h, inputs[i]);
    EmptyRests(c, h);
    InjectsKeep(c, h, inputs, EMPTY);
  }

  // ----- threads and rule instances -----

  /** The queued threads that point into rule instance r. */
  function QueuedIn(e: State, r: Rid): set<Tid> {
    set t | t in Queue(e.th) && RidOf(e.st, SidOf(e.th, t)) == r
  }

  /** No queued thread dangles, no thread is queued twice, a rule instance is alive
      exactly while it is linked and some thread points into it, and the counters of
      the instances and of the engine are exact. */
  lemma NoDangling(c: Config, e: State)
    requires Reached(c, ANY, e)
    ensures Distinct(Queue(e.th)) && e.th.count == |Queue(e.th)|
    ensures forall t :: t in Queue(e.th) ==>
              var s := SidOf(e.th, t);
              t in e.th.sid && s in e.st.rid && e.st.rid[s] in e.ri.rule && e.st.rid[s] in e.ri.list
    ensures Distinct(e.ri.list) && forall r :: r in e.ri.list <==> r in e.ri.rule
    ensures forall r :: r in e.ri.list ==>
              r in e.ri.threads && e.ri.threads[r] == |QueuedIn(e, r)| && e.ri.threads[r] > 0
  {
    ReachedRests(c, ANY, e);
    QueueIsAll(e.th);
    ThreadsPoint(c, e);
    InstancesCount(c, e);
  }

  lemma QueueIsAll(th: Engine.Threads)
    requires Queued(th)
    ensures Distinct(Queue(th)) && th.count == |Queue(th)| && forall t :: t in Queue(th) <==> t in th.sid
  {
    ListsSet(Queue(th), th.sid.Keys);
    forall t ensures t in Queue(th) <==> t in th.sid {
      InQueue(th, t);
    }
  }

  lemma ThreadsPoint(c: Config, e: State)
    requires Linked(c, e) && Queued(e.th)
    ensures forall t :: t in Queue(e.th) ==>
              var s := SidOf(e.th, t); t in e.th.sid && s in e.st.rid && e.st.rid[s] in e.ri.rule
  {
    QueueIsAll(e.th);
    forall t | t in e.th.sid ensures e.th.sid[t] in e.st.rid && e.st.rid[e.th.sid[t]] in e.ri.rule {
      assert ThreadLinked(c, e.th.sid, e.th.trans, e.st.rid, e.st.def, e.ri.rule, t);
    }
  }

  lemma InstancesCount(c: Config, e: State)
    requires Linked(c, e) && Queued(e.th) && Counted(e.th.sid, e.st.rid, e.ri.threads)
    requires Alive(e.ri.threads, e.ri.list, {})
    ensures Distinct(e.ri.list) && forall r :: r in e.ri.list <==> r in e.ri.rule
    ensures forall r :: r in e.ri.list ==>
              r in e.ri.threads && e.ri.threads[r] == |QueuedIn(e, r)| && e.ri.threads[r] > 0
  {
    hide Linked, Queued, QueuedIn;
    assert e.ri.rule.Keys == e.ri.threads.Keys by { InstanceKeys(c, e); }
    ListsSet(e.ri.list, e.ri.threads.Keys - {});
    assert forall r :: r in e.ri.list <==> r in e.ri.threads;
    forall r | r in e.ri.threads ensures e.ri.threads[r] == |QueuedIn(e, r)| && e.ri.threads[r] > 0 {
      QueuedInto(c, e, r);
      assert CountedAt(e.th.sid, e.st.rid, e.ri.threads, r);
      assert HasThreads(e.ri.threads, r);
    }
  }

  lemma InstanceKeys(c: Config, e: State)
    requires Linked(c, e)
    ensures e.ri.rule.Keys == e.ri.threads.Keys
  {
  }

  lemma QueuedInto(c: Config, e: State, r: Rid)
    requires Linked(c, e) && Queued(e.th)
    ensures QueuedIn(e, r) == Into(e.th.sid, e.st.rid, r)
  {
    QueueIsAll(e.th);
    ThreadsPoint(c, e);
  }

  /** The result of a simulation accounts for every thread that it creates: r when it
      succeeds, -1 - r when it fails after r threads. */
  lemma SimulationCounts(c: Config, inp: Input, e: State, s: Sid, r: nat, d: nat, once: bool, x: set<Rid>)
    requires WellFormed(c) && r < |c.rules| && d < |c.rules[r].states|
    requires Inv(c, ANY, e, x) && At(e, s, r, d) && Blank(ANY, e, s)
    ensures var (f, ret) := Simulate(c, inp, e, s, r, d, once);
            var n := if ret >= 0 then ret else -ret - 1;
            && |f.th.newQ| == |e.th.newQ| + n && f.th.count == e.th.count + n && f.th.count == |f.th.sid|
            && Get(f.ri.threads, RidOf(e.st, s), 0) == Get(e.ri.threads, RidOf(e.st, s), 0) + n
            && (forall k :: k in e.ri.threads && k != RidOf(e.st, s) ==> Get(f.ri.threads, k, 0) == e.ri.threads[k])
            && f.th.cur == e.th.cur && f.th.retrigQ == e.th.retrigQ && e.th.newQ <= f.th.newQ
  {
    SimulateKeeps(c, ANY, inp, e, s, r, d, once, x);
    var (f, ret) := Simulate(c, inp, e, s, r, d, once);
    CountsOf(c, e, f, s, Created(ret), x);
  }

  lemma CountsOf(c: Config, e: State, f: State, s: Sid, n: nat, x: set<Rid>)
    requires Inv(c, ANY, e, x) && s in e.st.rid && e.st.rid[s] in e.ri.rule && Extends(e, f, s, n)
    ensures Get(f.ri.threads, RidOf(e.st, s), 0) == Get(e.ri.threads, RidOf(e.st, s), 0) + n
    ensures forall k :: k in e.ri.threads && k != RidOf(e.st, s) ==> Get(f.ri.threads, k, 0) == e.ri.threads[k]
  {
    var r := RidOf(e.st, s);
    assert SameCount(e.ri, f.ri, r, n, r);
    forall k | k in e.ri.threads && k != r ensures Get(f.ri.threads, k, 0) == e.ri.threads[k] {
      assert SameCount(e.ri, f.ri, r, n, k);
    }
  }

  /** Reaping the thread under evaluation frees its rule instance exactly when no
      other thread points into it, and no other instance. */
  lemma FreedWithLastThread(c: Config, e: State)
    requires Inv(c, ANY, e, {}) && e.th.cur != []
    ensures var r, f := RidOf(e.st, SidOf(e.th, e.th.cur[0])), Reap(c, e);
            && r in e.ri.rule
            && (r !in f.ri.rule <==> Into(e.th.sid, e.st.rid, r) == {e.th.cur[0]})
            && forall k :: k != r ==> (k in f.ri.rule <==> k in e.ri.rule)
  {
    hide Linked, Counted, Alive, Listed, Owned, Tree, FreeInstance;
    var t := e.th.cur[0];
    var r := RidOf(e.st, SidOf(e.th, t));
    ReapIs(c, e);
    LastThread(c, e);
    FreeInstanceRules(c, Dropped(e), r);
  }

  lemma FreeInstanceRules(c: Config, e: State, r: Rid)
    ensures FreeInstance(c, e, r).ri.rule == e.ri.rule - {r}
  {
  }

  lemma LastThread(c: Config, e: State)
    requires Inv(c, ANY, e, {}) && e.th.cur != []
    ensures var t := e.th.cur[0];
            var r := RidOf(e.st, SidOf(e.th, t));
            r in e.ri.rule && (Emptied(e) != {} <==> Into(e.th.sid, e.st.rid, r) == {t})
  {
    hide ThreadsLinked, StatesLinked, RulesInRange, Queued, Alive, Listed, Owned, Referenced, Active, Tree;
    var t := e.th.cur[0];
    var r := RidOf(e.st, SidOf(e.th, t));
    CurrentLinked(c, e);
    var into := Into(e.th.sid, e.st.rid, r);
    assert CountedAt(e.th.sid, e.st.rid, e.ri.threads, r) && t in into;
    assert |into - {t}| == |into| - 1;
    if |into| == 1 {
      assert into - {t} == {};
    }
  }

  /** The thread list of a live state instance holds its queued non-initial threads. */
  lemma ThreadListsAgree(c: Config, e: State, s: Sid)
    requires Reached(c, ANY, e) && s in e.st.rid
    ensures s in e.st.threadList && Distinct(e.st.threadList[s])
    ensures forall t :: t in e.st.threadList[s] <==> t in Queue(e.th) && SidOf(e.th, t) == s && t !in e.th.onlyOnce
  {
    ReachedRests(c, ANY, e);
    OwnListed(e.th, e.st.threadList, s);
  }

  lemma OwnListed(th: Engine.Threads, threadList: map<Sid, seq<Tid>>, s: Sid)
    requires Listed(th.sid, th.onlyOnce, threadList) && Queued(th) && s in threadList
    ensures Distinct(threadList[s])
    ensures forall t :: t in threadList[s] <==> t in Queue(th) && SidOf(th, t) == s && t !in th.onlyOnce
  {
    assert ListedAt(th.sid, th.onlyOnce, threadList, s);
    ListsSet(threadList[s], Own(th.sid, th.onlyOnce, s));
    QueueIsAll(th);
    assert forall t :: t in threadList[s] <==> t in Own(th.sid, th.onlyOnce, s);
  }

  // ----- events -----

  /** The active list holds the events that live state instances refer to, each once,
      and every reference count is the number of those state instances. */
  lemma EventsExact(c: Config, e: State)
    requires Reached(c, ANY, e)
    ensures Distinct(e.ev.active) && e.ev.count == |e.ev.active|
    ensures forall v :: v in e.ev.active <==> exists s :: s in e.st.event && e.st.event[s] == v
    ensures forall v :: v in e.ev.active ==>
              v in e.ev.refs && e.ev.refs[v] == |Holders(e.st.event, v)| && e.ev.refs[v] > 0
    ensures forall s :: s in e.st.event ==> s in e.st.rid
  {
    ReachedRests(c, ANY, e);
    EventsListed(e.st.event, e.ev);
  }

  lemma EventsListed(event: map<Sid, Eid>, ev: Events)
    requires Referenced(event, ev) && Active(ev) && ev.current.None?
    ensures Distinct(ev.active)
    ensures forall v :: v in ev.active <==> exists s :: s in event && event[s] == v
    ensures forall v :: v in ev.active ==> v in ev.refs && ev.refs[v] == |Holders(event, v)| && ev.refs[v] > 0
  {
    ListsSet(ev.active, ev.refs.Keys - {});
    assert forall v :: v in ev.active <==> v in ev.refs;
    forall v | v in ev.refs
      ensures ev.refs[v] == |Holders(event, v)| && ev.refs[v] > 0 && exists s :: s in event && event[s] == v
    {
      assert ReferencedAt(event, ev, v);
      assert |Holders(event, v)| != 0;
      var s :| s in Holders(event, v);
      assert s in event && event[s] == v;
    }
    forall s | s in event ensures event[s] in ev.refs {
      assert RefersAt(event, ev.refs, s);
    }
  }

  // ----- locks -----

  /** Two waiting threads whose state instances have the same key belong to the same
      rule instance, which holds a lock with that key; no two locks have one key. */
  lemma LocksExclude(c: Config, e: State, t: Tid, u: Tid)
    requires Reached(c, LOCKS, e) && Equivalence(c.same)
    requires t in Queue(e.th) && t !in e.th.onlyOnce && u in Queue(e.th) && u !in e.th.onlyOnce
    requires Matches(c.same, Keys(c, e)(SidOf(e.th, t)), Keys(c, e)(SidOf(e.th, u)))
    ensures RidOf(e.st, SidOf(e.th, t)) == RidOf(e.st, SidOf(e.th, u))
    ensures exists l :: l in e.table && RidOf(e.st, l) == RidOf(e.st, SidOf(e.th, t)) &&
                        Matches(c.same, Keys(c, e)(l), Keys(c, e)(SidOf(e.th, t)))
  {
    ReachedRests(c, LOCKS, e);
    QueueIsAll(e.th);
    var s, w, keys := SidOf(e.th, t), SidOf(e.th, u), Keys(c, e);
    assert ThreadHeld(c.same, keys, e.table, e.st.rid, e.th.sid, e.th.onlyOnce, t);
    assert ThreadHeld(c.same, keys, e.table, e.st.rid, e.th.sid, e.th.onlyOnce, u);
    HeldOnce(c.same, keys, e.table, e.st.rid, s, w, e.ri.locks);
  }

  lemma HeldOnce(same: (Value, Value) -> bool, keys: Sid -> Option<Key>, table: seq<Sid>, rid: map<Sid, Rid>, s: Sid,
                 w: Sid, locks: map<Rid, seq<Sid>>)
    requires Equivalence(same) && LockTable(same, keys, table, rid, locks)
    requires Held(same, keys, table, rid, s) && Held(same, keys, table, rid, w) && Matches(same, keys(s), keys(w))
    ensures rid[s] == rid[w]
  {
    var l :| l in table && Matches(same, keys(l), keys(s)) && l in rid && s in rid && rid[l] == rid[s];
    var k :| k in table && Matches(same, keys(k), keys(w)) && k in rid && w in rid && rid[k] == rid[w];
    MatchesTransitive(same, keys(l), keys(s), keys(w));
    MatchesSymmetric(same, keys(k), keys(w));
    MatchesTransitive(same, keys(l), keys(w), keys(k));
    assert LockOk(same, keys, table, rid, l);
  }

  lemma MatchesTransitive(same: (Value, Value) -> bool, a: Option<Key>, b: Option<Key>, d: Option<Key>)
    requires Equivalence(same) && Matches(same, a, b) && Matches(same, b, d)
    ensures Matches(same, a, d)
  {
  }

  /** Two different locks never have the same key, and each is listed by the live rule
      instance of its state instance. */
  lemma LocksUnique(c: Config, e: State, l: Sid, k: Sid)
    requires Reached(c, LOCKS, e) && l in e.table && k in e.table
    ensures Matches(c.same, Keys(c, e)(l), Keys(c, e)(k)) ==> l == k
    ensures l in e.st.rid && e.st.rid[l] in e.ri.locks && l in e.ri.locks[e.st.rid[l]]
  {
    ReachedRests(c, LOCKS, e);
    var keys, r := Keys(c, e), RidOf(e.st, l);
    assert LockOk(c.same, keys, e.table, e.st.rid, l);
    assert StateLinked(c, e.st.rid, e.st.def, e.ri.rule, l);
    assert LocksListed(e.table, e.st.rid, e.ri.locks, r);
    assert l in LocksOf(e.table, e.st.rid, r);
    assert l in multiset(e.ri.locks[r]);
  }

  // ----- environments -----

  /** ovm_pushvar: the current environment of a state instance, then the inherited. */
  function Lookup(st: States, s: Sid, x: int): Option<Value> {
    if x in CurrentEnv(st, s) then Some(CurrentEnv(st, s)[x])
    else if x in Get(st.inherited, s, map[]) then Some(st.inherited[s][x])
    else None
  }

  /** The nearest binding on the way from a state instance up to the initial one. */
  function Nearest(st: States, s: Sid, x: int): Option<Value> {
    if x in CurrentEnv(st, s) then Some(CurrentEnv(st, s)[x])
    else if s in st.parent && st.parent[s] < s then Nearest(st, st.parent[s], x)
    else None
  }

  /** The inherited environment caches the walk up the tree. */
  lemma EnvironmentsCached(c: Config, e: State, s: Sid, x: int)
    requires Reached(c, ENVS, e) && s in e.st.rid
    ensures Lookup(e.st, s, x) == Nearest(e.st, s, x)
  {
    ReachedRests(c, ENVS, e);
    CacheWalks(e.st, s, x);
  }

  lemma {:induction false} CacheWalks(st: States, s: Sid, x: int)
    requires Cached(st) && Paths(st.rid, st.parent, st.depth) && s in st.rid
    ensures Lookup(st, s, x) == Nearest(st, s, x)
    decreases s
  {
    assert CachedAt(st.parent, st.inherited, st.current, s) && PathAt(st.rid, st.parent, st.depth, s);
    if s in st.parent {
      CacheWalks(st, st.parent[s], x);
    }
  }
}
