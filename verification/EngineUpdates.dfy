/**
 Every primitive update of the engine keeps the invariants.
 */
module EngineUpdates {
  import opened Options
  import opened Ovm
  import opened Engine
  import opened EngineInvariants

  // ----- collections -----

  lemma MsAdd<T>(s: set<T>, x: T)
    requires x !in s
    ensures multiset(s + {x}) == multiset(s) + multiset{x}
  {
  }

  lemma MsDrop<T>(s: set<T>, x: T)
    requires x in s
    ensures multiset(s - {x}) == multiset(s) - multiset{x}
  {
  }

  lemma {:induction false} WithoutMultiset<T>(q: seq<T>, x: T)
    ensures multiset(Without(q, x)) == multiset(q) - multiset{x}
    decreases |q|
  {
    if q != [] {
      assert q == [q[0]] + q[1..];
      if q[0] != x {
        WithoutMultiset(q[1..], x);
      }
    }
  }

  lemma KeysAdd<K, V>(m: map<K, V>, k: K, v: V)
    ensures m[k := v].Keys == m.Keys + {k}
  {
  }

  lemma KeysSame<K, V>(m: map<K, V>, k: K, v: V)
    requires k in m
    ensures m[k := v].Keys == m.Keys
  {
  }

  lemma MapSize<K, V>(m: map<K, V>, k: K, v: V)
    requires k !in m
    ensures |m[k := v]| == |m| + 1
  {
    assert m[k := v].Keys == m.Keys + {k};
  }

  lemma MapDrop<K, V>(m: map<K, V>, k: K)
    requires k in m
    ensures |m - {k}| == |m| - 1
  {
    assert (m - {k}).Keys == m.Keys - {k};
  }

  // ----- flags and queue moves -----

  /** Only flags, queue positions and the two remembered threads differ. */
  ghost predicate Quiet(a: Threads, b: Threads) {
    && b.sid == a.sid && b.trans == a.trans && b.timeout == a.timeout && b.onlyOnce == a.onlyOnce
    && b.count == a.count && b.next == a.next
    && b.bump <= b.sid.Keys && b.killed <= b.sid.Keys
    && multiset(b.newQ) + multiset(b.retrigQ) + multiset(b.cur)
       == multiset(a.newQ) + multiset(a.retrigQ) + multiset(a.cur)
  }

  lemma QuietKeeps(c: Config, h: Claims, e: State, th: Threads, x: set<Rid>)
    requires Inv(c, h, e, x) && Quiet(e.th, th)
    ensures Inv(c, h, e.(th := th), x)
  {
    KeysAgree(c, e, e.(th := th));
  }

  lemma KillQuiet(th: Threads, ts: set<Tid>)
    requires ThreadDomains(th)
    ensures Quiet(th, Kill(th, ts))
  {
  }

  lemma QueuedLast(th: Threads, q: seq<Tid>)
    requires Queued(th) && (q == th.newQ || q == th.retrigQ || q == th.cur)
    ensures forall t :: t in q ==> t in th.sid
  {
    forall t | t in q ensures t in th.sid {
      assert t in multiset(q);
      assert t in multiset(th.newQ) + multiset(th.retrigQ) + multiset(th.cur);
    }
  }

  lemma BumpQuiet(th: Threads, q: seq<Tid>)
    requires ThreadDomains(th) && Queued(th) && (q == th.newQ || q == th.retrigQ)
    ensures Quiet(th, BumpLast(th, q))
  {
    QueuedLast(th, q);
  }

  lemma MergeQuiet(th: Threads)
    requires ThreadDomains(th) && th.cur == []
    ensures Quiet(th, Merge(th))
  {
  }

  lemma RetrigQuiet(th: Threads)
    requires ThreadDomains(th) && th.cur != []
    ensures Quiet(th, Retrig(th))
  {
    assert th.cur == [th.cur[0]] + th.cur[1..];
  }

  lemma CommitQuiet(th: Threads)
    requires ThreadDomains(th) && Queued(th)
    ensures Quiet(th, Commit(th))
  {
    CommitBumps(th);
    assert multiset(th.newQ + th.retrigQ) == multiset(th.newQ) + multiset(th.retrigQ);
  }

  lemma CommitBumps(th: Threads)
    requires ThreadDomains(th) && Queued(th)
    ensures Commit(th).bump <= th.sid.Keys
  {
    QueuedLast(th, th.newQ);
    QueuedLast(th, th.retrigQ);
  }

  lemma ArriveQuiet(inp: Input, th: Threads)
    requires ThreadDomains(th) && th.cur != []
    ensures Quiet(th, Arrive(inp, th))
  {
  }

  /** Lock keys are a function of the state instances and of their rules. */
  lemma KeysAgree(c: Config, e: State, f: State)
    requires e.ri.rule == f.ri.rule && e.st.rid == f.st.rid && e.st.current == f.st.current
    requires e.st.inherited == f.st.inherited
    ensures forall s: Sid :: Keys(c, e)(s) == Keys(c, f)(s)
  {
  }

  // ----- locks under updates that leave the table alone -----

  /** State instance s keeps its key and its rule instance. */
  ghost predicate Kept(keys: Sid -> Option<Key>, keys': Sid -> Option<Key>, rid: map<Sid, Rid>, rid': map<Sid, Rid>,
                       s: Sid) {
    keys'(s) == keys(s) && s in rid && s in rid' && rid'[s] == rid[s]
  }

  ghost predicate AllKept(keys: Sid -> Option<Key>, keys': Sid -> Option<Key>, rid: map<Sid, Rid>,
                          rid': map<Sid, Rid>, table: seq<Sid>) {
    forall l {:trigger Kept(keys, keys', rid, rid', l)} :: l in table ==> Kept(keys, keys', rid, rid', l)
  }

  /** Rule instance r keeps its list of locks, or is new and has none. */
  ghost predicate LocksFrame(locks: map<Rid, seq<Sid>>, locks': map<Rid, seq<Sid>>, table: seq<Sid>,
                             rid: map<Sid, Rid>, r: Rid) {
    r in locks' &&
    if r in locks then locks'[r] == locks[r] else locks'[r] == [] && forall l :: l in table && l in rid ==> rid[l] != r
  }

  lemma TableTransfer(same: (Value, Value) -> bool, keys: Sid -> Option<Key>, keys': Sid -> Option<Key>,
                      table: seq<Sid>, rid: map<Sid, Rid>, rid': map<Sid, Rid>, locks: map<Rid, seq<Sid>>,
                      locks': map<Rid, seq<Sid>>)
    requires LockTable(same, keys, table, rid, locks)
    requires AllKept(keys, keys', rid, rid', table)
    requires forall r {:trigger LocksFrame(locks, locks', table, rid, r)} :: r in locks' ==>
               LocksFrame(locks, locks', table, rid, r)
    ensures LockTable(same, keys', table, rid', locks')
  {
    forall l | l in table ensures LockOk(same, keys', table, rid', l) {
      assert LockOk(same, keys, table, rid, l) && Kept(keys, keys', rid, rid', l);
      forall k | k in table && Matches(same, keys'(l), keys'(k)) ensures k == l {
        assert Kept(keys, keys', rid, rid', k);
      }
    }
    forall r | r in locks' ensures LocksListed(table, rid', locks', r) {
      assert LocksFrame(locks, locks', table, rid, r);
      forall l | l in table ensures l in rid && l in rid' && rid'[l] == rid[l] {
        assert Kept(keys, keys', rid, rid', l);
      }
      assert LocksOf(table, rid', r) == LocksOf(table, rid, r);
      if r in locks {
        assert LocksListed(table, rid, locks, r);
      } else {
        assert LocksOf(table, rid', r) == {};
      }
    }
  }

  lemma HeldTransfer(same: (Value, Value) -> bool, keys: Sid -> Option<Key>, keys': Sid -> Option<Key>,
                     table: seq<Sid>, table': seq<Sid>, rid: map<Sid, Rid>, rid': map<Sid, Rid>, s: Sid)
    requires Held(same, keys, table, rid, s) && Kept(keys, keys', rid, rid', s)
    requires AllKept(keys, keys', rid, rid', table) && forall l :: l in table ==> l in table'
    ensures Held(same, keys', table', rid', s)
  {
    var l :| l in table && Matches(same, keys(l), keys(s)) && l in rid && s in rid && rid[l] == rid[s];
    assert Kept(keys, keys', rid, rid', l);
    assert l in table' && Matches(same, keys'(l), keys'(s)) && rid'[l] == rid'[s];
  }

  /** Thread t was there, and if it is not initial its state instance is kept. */
  ghost predicate OldThread(keys: Sid -> Option<Key>, keys': Sid -> Option<Key>, rid: map<Sid, Rid>,
                            rid': map<Sid, Rid>, sid: map<Tid, Sid>, sid': map<Tid, Sid>, once: set<Tid>,
                            once': set<Tid>, t: Tid) {
    && t in sid && t in sid' && sid'[t] == sid[t] && (t in once' <==> t in once)
    && (t !in once ==> Kept(keys, keys', rid, rid', sid[t]))
  }

  lemma ThreadsTransfer(same: (Value, Value) -> bool, keys: Sid -> Option<Key>, keys': Sid -> Option<Key>,
                        table: seq<Sid>, table': seq<Sid>, rid: map<Sid, Rid>, rid': map<Sid, Rid>,
                        sid: map<Tid, Sid>, sid': map<Tid, Sid>, once: set<Tid>, once': set<Tid>)
    requires ThreadsHeld(same, keys, table, rid, sid, once)
    requires AllKept(keys, keys', rid, rid', table) && forall l :: l in table ==> l in table'
    requires forall t :: t in sid' ==>
               || OldThread(keys, keys', rid, rid', sid, sid', once, once', t)
               || ThreadHeld(same, keys', table', rid', sid', once', t)
    ensures ThreadsHeld(same, keys', table', rid', sid', once')
  {
    forall t | t in sid' ensures ThreadHeld(same, keys', table', rid', sid', once', t) {
      if OldThread(keys, keys', rid, rid', sid, sid', once, once', t) && t !in once' && keys'(sid'[t]).Some? {
        assert ThreadHeld(same, keys, table, rid, sid, once, t);
        HeldTransfer(same, keys, keys', table, table', rid, rid', sid[t]);
      }
    }
  }

  /** If every live state instance keeps its key and its rule instance, every lock
      and every thread does. */
  lemma FrameLocks(c: Config, e: State, rid': map<Sid, Rid>, keys': Sid -> Option<Key>)
    requires Linked(c, e) && Locked(c, e)
    requires forall k :: k in e.st.rid ==> Kept(Keys(c, e), keys', e.st.rid, rid', k)
    ensures AllKept(Keys(c, e), keys', e.st.rid, rid', e.table)
    ensures forall t :: t in e.th.sid ==>
              OldThread(Keys(c, e), keys', e.st.rid, rid', e.th.sid, e.th.sid, e.th.onlyOnce, e.th.onlyOnce, t)
  {
    forall l | l in e.table ensures Kept(Keys(c, e), keys', e.st.rid, rid', l) {
      assert LockOk(c.same, Keys(c, e), e.table, e.st.rid, l);
    }
    forall t | t in e.th.sid
      ensures OldThread(Keys(c, e), keys', e.st.rid, rid', e.th.sid, e.th.sid, e.th.onlyOnce, e.th.onlyOnce, t)
    {
      assert ThreadLinked(c, e.th.sid, e.th.trans, e.st.rid, e.st.def, e.ri.rule, t);
    }
  }

  lemma ThreadsInLive(c: Config, e: State)
    requires Linked(c, e)
    ensures forall t :: t in e.th.sid ==> e.th.sid[t] in e.st.rid
  {
    forall t | t in e.th.sid ensures e.th.sid[t] in e.st.rid {
      assert ThreadLinked(c, e.th.sid, e.th.trans, e.st.rid, e.st.def, e.ri.rule, t);
    }
  }

  // ----- SetEnv -----

  /** No lock and no non-initial thread sits on s. */
  ghost predicate Untouched(e: State, s: Sid) {
    s !in e.table && forall t :: t in e.th.sid && e.th.sid[t] == s ==> t in e.th.onlyOnce
  }

  lemma SetEnvKeeps(c: Config, h: Claims, e: State, s: Sid, env: Env, x: set<Rid>)
    requires Inv(c, h, e, x) && s in e.st.rid
    requires h.env ==> env == CurrentEnv(e.st, s) || forall k :: k in e.st.parent ==> e.st.parent[k] != s
    requires h.locks ==> Keys(c, e.(st := SetEnv(e.st, s, env)))(s) == Keys(c, e)(s) || Untouched(e, s)
    ensures Inv(c, h, e.(st := SetEnv(e.st, s, env)), x)
  {
    assert e.st.current[s := env].Keys == e.st.rid.Keys;
    if h.env {
      SetEnvCached(e.st, s, env);
    }
    if h.locks {
      SetEnvLocked(c, e, s, env);
    }
  }

  lemma SetEnvCached(st: States, s: Sid, env: Env)
    requires Cached(st) && s in st.current && st.current.Keys == st.rid.Keys
    requires env == st.current[s] || forall k :: k in st.parent ==> st.parent[k] != s
    ensures Cached(SetEnv(st, s, env))
  {
    var current := st.current[s := env];
    if env == st.current[s] {
      assert current == st.current;
    }
    forall k | k in st.rid ensures CachedAt(st.parent, st.inherited, current, k) {
      assert CachedAt(st.parent, st.inherited, st.current, k);
    }
  }

  lemma SetEnvLocked(c: Config, e: State, s: Sid, env: Env)
    requires Linked(c, e) && Locked(c, e) && s in e.st.rid
    requires Keys(c, e.(st := SetEnv(e.st, s, env)))(s) == Keys(c, e)(s) || Untouched(e, s)
    ensures Locked(c, e.(st := SetEnv(e.st, s, env)))
  {
    var keys, keys' := Keys(c, e), Keys(c, e.(st := SetEnv(e.st, s, env)));
    SetEnvKeys(c, e, s, env);
    forall l | l in e.table ensures Kept(keys, keys', e.st.rid, e.st.rid, l) {
      assert LockOk(c.same, keys, e.table, e.st.rid, l);
    }
    TableTransfer(c.same, keys, keys', e.table, e.st.rid, e.st.rid, e.ri.locks, e.ri.locks);
    forall t | t in e.th.sid
      ensures OldThread(keys, keys', e.st.rid, e.st.rid, e.th.sid, e.th.sid, e.th.onlyOnce, e.th.onlyOnce, t)
    {
      assert ThreadLinked(c, e.th.sid, e.th.trans, e.st.rid, e.st.def, e.ri.rule, t);
    }
    ThreadsTransfer(c.same, keys, keys', e.table, e.table, e.st.rid, e.st.rid,
                    e.th.sid, e.th.sid, e.th.onlyOnce, e.th.onlyOnce);
  }

  lemma SetEnvKeys(c: Config, e: State, s: Sid, env: Env)
    ensures forall k: Sid :: k != s ==> Keys(c, e.(st := SetEnv(e.st, s, env)))(k) == Keys(c, e)(k)
  {
  }

  // ----- a new state instance, in the fields of the heap -----

  lemma AddStateLinked(c: Config, sid: map<Tid, Sid>, trans: map<Tid, nat>, rid: map<Sid, Rid>, def: map<Sid, nat>,
                       rule: map<Rid, nat>, n: Sid, r: Rid, d: nat)
    requires StatesLinked(c, rid, def, rule) && ThreadsLinked(c, sid, trans, rid, def, rule) && n !in rid
    requires r in rule && rule[r] < |c.rules| && d < |c.rules[rule[r]].states|
    ensures StatesLinked(c, rid[n := r], def[n := d], rule)
    ensures ThreadsLinked(c, sid, trans, rid[n := r], def[n := d], rule)
  {
    var rid', def' := rid[n := r], def[n := d];
    forall s | s in rid' ensures StateLinked(c, rid', def', rule, s) {
      if s != n {
        assert StateLinked(c, rid, def, rule, s);
      }
    }
    forall t | t in sid ensures ThreadLinked(c, sid, trans, rid', def', rule, t) {
      assert ThreadLinked(c, sid, trans, rid, def, rule, t);
    }
  }

  lemma BelowNext(ids: set<nat>, n: nat)
    requires Below(ids, n)
    ensures n !in ids && Below(ids + {n}, n + 1)
  {
    assert n in ids ==> IsBelow(n, n);
    forall i | i in ids + {n} ensures IsBelow(i, n + 1) {
      assert i != n ==> IsBelow(i, n);
    }
  }

  lemma AddStateCounted(sid: map<Tid, Sid>, rid: map<Sid, Rid>, threads: map<Rid, int>, n: Sid, r: Rid)
    requires Counted(sid, rid, threads) && n !in rid && forall t :: t in sid ==> sid[t] in rid
    ensures Counted(sid, rid[n := r], threads)
  {
    forall k | k in threads ensures CountedAt(sid, rid[n := r], threads, k) {
      assert CountedAt(sid, rid, threads, k);
      assert Into(sid, rid[n := r], k) == Into(sid, rid, k);
    }
  }

  lemma AddStateListed(sid: map<Tid, Sid>, once: set<Tid>, threadList: map<Sid, seq<Tid>>, n: Sid)
    requires Listed(sid, once, threadList) && forall t :: t in sid ==> sid[t] != n
    ensures Listed(sid, once, threadList[n := []])
  {
    var list' := threadList[n := []];
    forall s | s in list' ensures ListedAt(sid, once, list', s) {
      if s == n {
        assert Own(sid, once, s) == {};
      } else {
        assert ListedAt(sid, once, threadList, s);
      }
    }
  }

  lemma AddStateOwned(rid: map<Sid, Rid>, first: map<Rid, Sid>, stateList: map<Rid, seq<Sid>>, n: Sid, r: Rid)
    requires Owned(rid, first, stateList) && n !in rid && r in stateList
    ensures Owned(rid[n := r], first, stateList[r := [n] + stateList[r]])
  {
    forall k | k in first ensures OwnedAt(rid[n := r], first, stateList[r := [n] + stateList[r]], k) {
      var was := StatesOf(rid, k);
      assert OwnedAt(rid, first, stateList, k);
      if k == r {
        assert StatesOf(rid[n := r], k) == was + {n};
        MsAdd(was, n);
      } else {
        assert StatesOf(rid[n := r], k) == was;
      }
    }
  }

  lemma AddStatePaths(rid: map<Sid, Rid>, parent: map<Sid, Sid>, depth: map<Sid, nat>, n: Sid, p: Sid)
    requires Paths(rid, parent, depth) && p in rid && p in depth && n !in rid && p < n
    requires forall s :: s in parent ==> s in rid
    ensures Paths(rid[n := rid[p]], parent[n := p], depth[n := depth[p] + 1])
  {
    var rid', parent', depth' := rid[n := rid[p]], parent[n := p], depth[n := depth[p] + 1];
    forall s | s in rid' ensures PathAt(rid', parent', depth', s) {
      if s != n {
        assert PathAt(rid, parent, depth, s);
      }
    }
  }

  /** The new node becomes the first child, and the former first child its sibling. */
  lemma AddStateChildren(rid: map<Sid, Rid>, parent: map<Sid, Sid>, firstChild: map<Sid, Sid>,
                         nextSibling: map<Sid, Sid>, n: Sid, p: Sid, r: Rid)
    requires Children(rid, parent, firstChild, nextSibling) && p in rid
    requires forall s :: s in rid ==> s < n
    requires forall s :: s in parent ==> s in rid && parent[s] in rid
    requires n !in firstChild && n !in nextSibling
    ensures Children(rid[n := r], parent[n := p], firstChild[p := n],
                     if p in firstChild then nextSibling[n := firstChild[p]] else nextSibling)
  {
    var parent', sibling' := parent[n := p], if p in firstChild then nextSibling[n := firstChild[p]] else nextSibling;
    assert ChildAt(parent, firstChild, p);
    var rid', child' := rid[n := r], firstChild[p := n];
    forall s | s in rid' ensures ChildAt(parent', child', s) {
      if s != n {
        assert ChildAt(parent, firstChild, s);
      }
    }
    forall s | s in rid' ensures SiblingAt(parent', sibling', s) {
      if s != n {
        assert SiblingAt(parent, nextSibling, s);
      }
    }
  }

  lemma AddStateKeys(c: Config, rule: map<Rid, nat>, rid: map<Sid, Rid>, current: map<Sid, Env>,
                     inherited: map<Sid, Env>, n: Sid, r: Rid, env: Env, k: Sid)
    requires k != n
    ensures KeyOf(c, rule, rid[n := r], current[n := map[]], inherited[n := env], k)
            == KeyOf(c, rule, rid, current, inherited, k)
  {
  }

  // ----- a new state instance -----

  lemma NewStateKeeps(c: Config, h: Claims, e: State, p: Sid, d: nat, x: set<Rid>)
    requires Inv(c, h, e, x) && DestLinked(c, e.st.rid, e.ri.rule, p, d)
    ensures Inv(c, h, NewState(e, p, d), x)
  {
    NewStateSound(c, e, p, d, x);
    if h.env {
      NewStateCached(e.st, p, d);
    }
    if h.locks {
      NewStateLocked(c, e, p, d);
    }
  }

  lemma NewStateSound(c: Config, e: State, p: Sid, d: nat, x: set<Rid>)
    requires Sound(c, e, x) && DestLinked(c, e.st.rid, e.ri.rule, p, d)
    ensures Sound(c, NewState(e, p, d), x)
  {
    NewStateLinked(c, e, p, d);
    NewStateOwned(c, e, p, d);
    NewStateTree(e.st, p, d);
  }

  lemma NewStateLinked(c: Config, e: State, p: Sid, d: nat)
    requires Linked(c, e) && DestLinked(c, e.st.rid, e.ri.rule, p, d)
    ensures Linked(c, NewState(e, p, d))
  {
    AddStateLinkedTo(c, e, p, d);
    NewStateData(e.st, p, d);
    NewStateLinks(e.st, p, d);
    NewStateInst(e.ri, e.st.rid[p], e.st.next);
  }

  lemma AddStateLinkedTo(c: Config, e: State, p: Sid, d: nat)
    requires Linked(c, e) && DestLinked(c, e.st.rid, e.ri.rule, p, d)
    ensures var f := NewState(e, p, d);
            && Below(f.st.rid.Keys, f.st.next)
            && StatesLinked(c, f.st.rid, f.st.def, f.ri.rule)
            && ThreadsLinked(c, f.th.sid, f.th.trans, f.st.rid, f.st.def, f.ri.rule)
  {
    hide StatesLinked, ThreadsLinked, RulesInRange, Below, ThreadDomains, StateDomains, InstDomains;
    BelowNext(e.st.rid.Keys, e.st.next);
    KeysAdd(e.st.rid, e.st.next, e.st.rid[p]);
    AddStateLinked(c, e.th.sid, e.th.trans, e.st.rid, e.st.def, e.ri.rule, e.st.next, e.st.rid[p], d);
  }

  lemma NewStateInst(ri: Insts, r: Rid, n: Sid)
    requires InstDomains(ri) && r in ri.rule
    ensures InstDomains(AddToInst(ri, r, n))
  {
    KeysSame(ri.stateList, r, [n] + ri.stateList[r]);
  }

  lemma NewStateData(st: States, p: Sid, d: nat)
    requires DataDomains(st) && p in st.rid
    ensures DataDomains(AddState(st, p, d))
  {
    var n := st.next;
    KeysAdd(st.rid, n, st.rid[p]);
    KeysAdd(st.def, n, d);
    KeysAdd(st.depth, n, st.depth[p] + 1);
    KeysAdd(st.inherited, n, st.inherited[p] + st.current[p]);
    KeysAdd(st.current, n, map[]);
    KeysAdd(st.threadList, n, []);
  }

  lemma NewStateLinks(st: States, p: Sid, d: nat)
    requires LinkDomains(st) && p in st.rid
    ensures LinkDomains(AddState(st, p, d)) && AddState(st, p, d).rid.Keys == st.rid.Keys + {st.next}
  {
    var n := st.next;
    KeysAdd(st.rid, n, st.rid[p]);
    KeysAdd(st.parent, n, p);
    KeysAdd(st.firstChild, p, n);
    if p in st.firstChild {
      KeysAdd(st.nextSibling, n, st.firstChild[p]);
    }
  }

  lemma NewStateOwned(c: Config, e: State, p: Sid, d: nat)
    requires Linked(c, e) && DestLinked(c, e.st.rid, e.ri.rule, p, d)
    requires Counted(e.th.sid, e.st.rid, e.ri.threads) && Listed(e.th.sid, e.th.onlyOnce, e.st.threadList)
    requires Owned(e.st.rid, e.ri.first, e.ri.stateList) && e.st.count == |e.st.rid|
    ensures var f := NewState(e, p, d);
            && Counted(f.th.sid, f.st.rid, f.ri.threads) && Listed(f.th.sid, f.th.onlyOnce, f.st.threadList)
            && Owned(f.st.rid, f.ri.first, f.ri.stateList) && f.st.count == |f.st.rid|
  {
    var n, r := e.st.next, e.st.rid[p];
    ThreadsInLive(c, e);
    BelowNext(e.st.rid.Keys, n);
    AddStateCounted(e.th.sid, e.st.rid, e.ri.threads, n, r);
    AddStateListed(e.th.sid, e.th.onlyOnce, e.st.threadList, n);
    AddStateOwned(e.st.rid, e.ri.first, e.ri.stateList, n, r);
    MapSize(e.st.rid, n, r);
  }

  lemma NewStateTree(st: States, p: Sid, d: nat)
    requires Tree(st) && p in st.rid && Below(st.rid.Keys, st.next)
    requires st.depth.Keys == st.rid.Keys && st.parent.Keys <= st.rid.Keys && st.nextSibling.Keys <= st.rid.Keys
    requires st.firstChild.Keys <= st.rid.Keys
    ensures Tree(AddState(st, p, d))
  {
    var n := st.next;
    BelowNext(st.rid.Keys, n);
    forall s | s in st.rid ensures s < n && (s in st.parent ==> st.parent[s] in st.rid) {
      assert IsBelow(s, n) && PathAt(st.rid, st.parent, st.depth, s);
    }
    AddStatePaths(st.rid, st.parent, st.depth, n, p);
    AddStateChildren(st.rid, st.parent, st.firstChild, st.nextSibling, n, p, st.rid[p]);
  }

  lemma NewStateCached(st: States, p: Sid, d: nat)
    requires Cached(st) && Tree(st) && p in st.rid && Below(st.rid.Keys, st.next)
    requires st.inherited.Keys == st.rid.Keys && st.current.Keys == st.rid.Keys && st.parent.Keys <= st.rid.Keys
    ensures Cached(AddState(st, p, d))
  {
    var f := AddState(st, p, d);
    BelowNext(st.rid.Keys, st.next);
    forall s | s in f.rid ensures CachedAt(f.parent, f.inherited, f.current, s) {
      if s != st.next {
        assert CachedAt(st.parent, st.inherited, st.current, s) && PathAt(st.rid, st.parent, st.depth, s);
      }
    }
  }

  lemma NewStateLocked(c: Config, e: State, p: Sid, d: nat)
    requires Linked(c, e) && Locked(c, e) && p in e.st.rid
    ensures Locked(c, NewState(e, p, d))
  {
    hide LockTable, ThreadsHeld, ThreadsLinked, StatesLinked, RulesInRange;
    var f := NewState(e, p, d);
    var keys, keys' := Keys(c, e), Keys(c, f);
    BelowNext(e.st.rid.Keys, e.st.next);
    forall k | k in e.st.rid ensures Kept(keys, keys', e.st.rid, f.st.rid, k) {
      AddStateKeys(c, e.ri.rule, e.st.rid, e.st.current, e.st.inherited, e.st.next, RidOf(e.st, p),
                   Get(e.st.inherited, p, map[]) + CurrentEnv(e.st, p), k);
    }
    FrameLocks(c, e, f.st.rid, keys');
    TableTransfer(c.same, keys, keys', e.table, e.st.rid, f.st.rid, e.ri.locks, f.ri.locks);
    ThreadsTransfer(c.same, keys, keys', e.table, e.table, e.st.rid, f.st.rid,
                    e.th.sid, e.th.sid, e.th.onlyOnce, e.th.onlyOnce);
  }

  // ----- the reference to the current event -----

  lemma ReferenceKeeps(c: Config, h: Claims, e: State, s: Sid, x: set<Rid>)
    requires Inv(c, h, e, x) && s in e.st.rid && s !in e.st.event
    ensures Inv(c, h, Reference(e, s), x)
  {
    ReferenceSound(c, e, s, x);
    assert Keys(c, Reference(e, s)) == Keys(c, e);
  }

  lemma ReferenceLinked(c: Config, e: State, s: Sid)
    requires Linked(c, e) && s in e.st.rid
    ensures Linked(c, Reference(e, s))
  {
    hide StatesLinked, ThreadsLinked, RulesInRange, Below, ThreadDomains, InstDomains;
  }

  lemma ReferenceEvents(e: State, s: Sid)
    requires Referenced(e.st.event, e.ev) && Active(e.ev) && s !in e.st.event
    ensures var f := Reference(e, s); Referenced(f.st.event, f.ev) && Active(f.ev)
  {
    match e.ev.current
    case None =>
    case Some(v) =>
      KeysSame(e.ev.refs, v, e.ev.refs[v] + 1);
      KeysAdd(e.st.event, s, v);
      ReferenceCounts(e.st.event, e.ev, s, v);
  }

  lemma ReferenceFields(e: State, s: Sid)
    ensures var f := Reference(e, s);
            && f.th == e.th && f.ri == e.ri && f.st.rid == e.st.rid && f.st.threadList == e.st.threadList
            && f.st.count == e.st.count && (Tree(e.st) ==> Tree(f.st))
  {
    hide Paths, Children;
  }

  lemma ReferenceSound(c: Config, e: State, s: Sid, x: set<Rid>)
    requires Sound(c, e, x) && s in e.st.rid && s !in e.st.event
    ensures Sound(c, Reference(e, s), x)
  {
    hide Linked, Queued, Counted, Alive, Listed, Owned, Tree, Referenced, Active, Reference;
    ReferenceLinked(c, e, s);
    ReferenceEvents(e, s);
    ReferenceFields(e, s);
  }

  lemma ReferenceCounts(event: map<Sid, Eid>, ev: Events, s: Sid, v: Eid)
    requires Referenced(event, ev) && s !in event && v in ev.refs
    ensures Referenced(event[s := v], ev.(refs := ev.refs[v := ev.refs[v] + 1]))
  {
    var event', ev' := event[s := v], ev.(refs := ev.refs[v := ev.refs[v] + 1]);
    forall k | k in event' ensures RefersAt(event', ev'.refs, k) {
      if k != s {
        assert RefersAt(event, ev.refs, k);
      }
    }
    forall w | w in ev'.refs ensures ReferencedAt(event', ev', w) {
      assert ReferencedAt(event, ev, w);
      var was := Holders(event, w);
      if w == v {
        assert Holders(event', w) == was + {s};
      } else {
        assert Holders(event', w) == was;
      }
    }
  }

  // ----- a new thread, in the fields of the heap -----

  lemma AddThreadLinked(c: Config, sid: map<Tid, Sid>, trans: map<Tid, nat>, rid: map<Sid, Rid>, def: map<Sid, nat>,
                        rule: map<Rid, nat>, n: Tid, s: Sid, t: nat)
    requires ThreadsLinked(c, sid, trans, rid, def, rule) && TransLinked(c, rid, def, rule, s, t)
    ensures ThreadsLinked(c, sid[n := s], trans[n := t], rid, def, rule)
  {
    var sid', trans' := sid[n := s], trans[n := t];
    forall u | u in sid' ensures ThreadLinked(c, sid', trans', rid, def, rule, u) {
      if u != n {
        assert ThreadLinked(c, sid, trans, rid, def, rule, u);
      }
    }
  }

  lemma AddThreadQueued(th: Threads, th': Threads, n: Tid, s: Sid)
    requires Queued(th) && n !in th.sid
    requires th'.sid == th.sid[n := s] && th'.newQ == th.newQ + [n] && th'.retrigQ == th.retrigQ && th'.cur == th.cur
    requires th'.count == th.count + 1
    ensures Queued(th')
  {
    assert th'.sid.Keys == th.sid.Keys + {n};
    MsAdd(th.sid.Keys, n);
    MapSize(th.sid, n, s);
  }

  lemma AddThreadCounted(sid: map<Tid, Sid>, rid: map<Sid, Rid>, threads: map<Rid, int>, n: Tid, s: Sid)
    requires Counted(sid, rid, threads) && n !in sid && s in rid && rid[s] in threads
    ensures Counted(sid[n := s], rid, threads[rid[s] := threads[rid[s]] + 1])
  {
    var threads' := threads[rid[s] := threads[rid[s]] + 1];
    forall r | r in threads' ensures CountedAt(sid[n := s], rid, threads', r) {
      assert CountedAt(sid, rid, threads, r);
      var was := Into(sid, rid, r);
      if r == rid[s] {
        assert Into(sid[n := s], rid, r) == was + {n};
      } else {
        assert Into(sid[n := s], rid, r) == was;
      }
    }
  }

  lemma AddThreadAlive(sid: map<Tid, Sid>, rid: map<Sid, Rid>, threads: map<Rid, int>, list: seq<Rid>, x: set<Rid>,
                       r: Rid)
    requires Alive(threads, list, x) && Counted(sid, rid, threads) && r in threads
    ensures Alive(threads[r := threads[r] + 1], list, x)
  {
    var threads' := threads[r := threads[r] + 1];
    assert threads'.Keys == threads.Keys && CountedAt(sid, rid, threads, r);
    forall k | k in threads' && k !in x ensures HasThreads(threads', k) {
      assert HasThreads(threads, k);
    }
  }

  lemma AddThreadListed(sid: map<Tid, Sid>, once: set<Tid>, threadList: map<Sid, seq<Tid>>, n: Tid, s: Sid)
    requires Listed(sid, once, threadList) && n !in sid && n !in once && s in threadList
    ensures Listed(sid[n := s], once, threadList[s := [n] + threadList[s]])
  {
    var sid', list' := sid[n := s], threadList[s := [n] + threadList[s]];
    forall k | k in list' ensures ListedAt(sid', once, list', k) {
      assert ListedAt(sid, once, threadList, k);
      var was := Own(sid, once, k);
      if k == s {
        assert Own(sid', once, k) == was + {n};
        MsAdd(was, n);
      } else {
        assert Own(sid', once, k) == was;
      }
    }
  }

  lemma AddInitialListed(sid: map<Tid, Sid>, once: set<Tid>, threadList: map<Sid, seq<Tid>>, n: Tid, s: Sid)
    requires Listed(sid, once, threadList) && n !in sid
    ensures Listed(sid[n := s], once + {n}, threadList)
  {
    var sid' := sid[n := s];
    forall k | k in threadList ensures ListedAt(sid', once + {n}, threadList, k) {
      assert ListedAt(sid, once, threadList, k);
      assert Own(sid', once + {n}, k) == Own(sid, once, k);
    }
  }

  // ----- a new thread -----

  lemma NewThreadKeeps(c: Config, h: Claims, inp: Input, e: State, s: Sid, t: nat, once: bool, x: set<Rid>)
    requires Inv(c, h, e, x) && TransLinked(c, e.st.rid, e.st.def, e.ri.rule, s, t)
    requires h.locks && !once && Keys(c, e)(s).Some? ==> Held(c.same, Keys(c, e), e.table, e.st.rid, s)
    ensures Inv(c, h, NewThread(inp, e, s, t, once), x)
  {
    NewThreadSound(c, inp, e, s, t, once, x);
    if h.locks {
      NewThreadLocked(c, inp, e, s, t, once);
    }
  }

  lemma NewThreadSound(c: Config, inp: Input, e: State, s: Sid, t: nat, once: bool, x: set<Rid>)
    requires Sound(c, e, x) && TransLinked(c, e.st.rid, e.st.def, e.ri.rule, s, t)
    ensures Sound(c, NewThread(inp, e, s, t, once), x)
  {
    NewThreadLinked(c, inp, e, s, t, once);
    NewThreadCounts(c, inp, e, s, t, once, x);
  }

  lemma NewThreadLinked(c: Config, inp: Input, e: State, s: Sid, t: nat, once: bool)
    requires Linked(c, e) && TransLinked(c, e.st.rid, e.st.def, e.ri.rule, s, t)
    ensures Linked(c, NewThread(inp, e, s, t, once))
  {
    hide StatesLinked, ThreadsLinked, RulesInRange, Below, ThreadDomains, StateDomains, InstDomains;
    NewThreadDomains(inp, e, s, t, once);
    NewThreadOwners(inp, e, s, t, once);
    BelowNext(e.th.sid.Keys, e.th.next);
    AddThreadLinked(c, e.th.sid, e.th.trans, e.st.rid, e.st.def, e.ri.rule, e.th.next, s, t);
  }

  lemma NewThreadOwners(inp: Input, e: State, s: Sid, t: nat, once: bool)
    requires StateDomains(e.st) && InstDomains(e.ri) && s in e.st.rid && e.st.rid[s] in e.ri.rule
    ensures StateDomains(NewThread(inp, e, s, t, once).st) && InstDomains(NewThread(inp, e, s, t, once).ri)
  {
    var r := e.st.rid[s];
    KeysSame(e.ri.threads, r, e.ri.threads[r] + 1);
    KeysSame(e.st.threadList, s, [e.th.next] + e.st.threadList[s]);
  }

  lemma NewThreadDomains(inp: Input, e: State, s: Sid, t: nat, once: bool)
    requires ThreadDomains(e.th)
    ensures var th := NewThread(inp, e, s, t, once).th; ThreadDomains(th) && th.sid.Keys == e.th.sid.Keys + {e.th.next}
  {
    var n := e.th.next;
    KeysAdd(e.th.sid, n, s);
    KeysAdd(e.th.trans, n, t);
    KeysAdd(e.th.timeout, n, inp.deadline(n));
  }

  lemma NewThreadFields(inp: Input, e: State, s: Sid, t: nat, once: bool)
    ensures var f := NewThread(inp, e, s, t, once);
            && f.th.sid == e.th.sid[e.th.next := s] && f.th.newQ == e.th.newQ + [e.th.next]
            && f.th.retrigQ == e.th.retrigQ && f.th.cur == e.th.cur && f.th.count == e.th.count + 1
            && f.st.rid == e.st.rid && f.ri.list == e.ri.list
            && f.ri.threads == e.ri.threads[RidOf(e.st, s) := Get(e.ri.threads, RidOf(e.st, s), 0) + 1]
  {
  }

  /** Where a new thread goes. */
  lemma NewThreadSite(c: Config, e: State, s: Sid, t: nat)
    requires Linked(c, e) && TransLinked(c, e.st.rid, e.st.def, e.ri.rule, s, t)
    ensures s in e.st.rid && e.st.rid[s] in e.ri.threads && s in e.st.threadList
    ensures ThreadDomains(e.th) && e.th.next !in e.th.sid
  {
    BelowNext(e.th.sid.Keys, e.th.next);
  }

  lemma NewThreadCounts(c: Config, inp: Input, e: State, s: Sid, t: nat, once: bool, x: set<Rid>)
    requires Linked(c, e) && TransLinked(c, e.st.rid, e.st.def, e.ri.rule, s, t)
    requires Queued(e.th) && Counted(e.th.sid, e.st.rid, e.ri.threads) && Alive(e.ri.threads, e.ri.list, x)
    requires Listed(e.th.sid, e.th.onlyOnce, e.st.threadList)
    ensures var f := NewThread(inp, e, s, t, once);
            && Queued(f.th) && Counted(f.th.sid, f.st.rid, f.ri.threads) && Alive(f.ri.threads, f.ri.list, x)
            && Listed(f.th.sid, f.th.onlyOnce, f.st.threadList)
  {
    hide Queued, Counted, Alive, Listed, NewThread, ThreadDomains, Linked, TransLinked;
    NewThreadFields(inp, e, s, t, once);
    NewThreadSite(c, e, s, t);
    AddThreadQueued(e.th, NewThread(inp, e, s, t, once).th, e.th.next, s);
    AddThreadCounted(e.th.sid, e.st.rid, e.ri.threads, e.th.next, s);
    AddThreadAlive(e.th.sid, e.st.rid, e.ri.threads, e.ri.list, x, e.st.rid[s]);
    NewThreadListed(inp, e, s, t, once);
  }

  lemma NewThreadListed(inp: Input, e: State, s: Sid, t: nat, once: bool)
    requires ThreadDomains(e.th) && e.th.next !in e.th.sid && s in e.st.threadList
    requires Listed(e.th.sid, e.th.onlyOnce, e.st.threadList)
    ensures var f := NewThread(inp, e, s, t, once); Listed(f.th.sid, f.th.onlyOnce, f.st.threadList)
  {
    if once {
      AddInitialListed(e.th.sid, e.th.onlyOnce, e.st.threadList, e.th.next, s);
    } else {
      AddThreadListed(e.th.sid, e.th.onlyOnce, e.st.threadList, e.th.next, s);
    }
  }

  /** What the locks and the waiting threads depend on. */
  lemma NewThreadLocks(c: Config, inp: Input, e: State, s: Sid, t: nat, once: bool)
    requires Linked(c, e)
    ensures var f := NewThread(inp, e, s, t, once);
            && e.th.next !in e.th.sid && e.th.next !in e.th.onlyOnce && f.th.sid == e.th.sid[e.th.next := s]
            && f.th.onlyOnce == (if once then e.th.onlyOnce + {e.th.next} else e.th.onlyOnce)
            && f.table == e.table && f.st.rid == e.st.rid && f.ri.locks == e.ri.locks && Keys(c, f) == Keys(c, e)
  {
    BelowNext(e.th.sid.Keys, e.th.next);
    assert e.th.onlyOnce <= e.th.sid.Keys;
  }

  lemma NewThreadLocked(c: Config, inp: Input, e: State, s: Sid, t: nat, once: bool)
    requires Linked(c, e) && Locked(c, e) && s in e.st.rid
    requires !once && Keys(c, e)(s).Some? ==> Held(c.same, Keys(c, e), e.table, e.st.rid, s)
    ensures Locked(c, NewThread(inp, e, s, t, once))
  {
    hide LockTable, Held, Linked, KeyOf, NewThread, Keys;
    var f := NewThread(inp, e, s, t, once);
    var keys := Keys(c, e);
    NewThreadLocks(c, inp, e, s, t, once);
    forall u | u in f.th.sid ensures ThreadHeld(c.same, keys, e.table, e.st.rid, f.th.sid, f.th.onlyOnce, u) {
      if u != e.th.next {
        assert ThreadHeld(c.same, keys, e.table, e.st.rid, e.th.sid, e.th.onlyOnce, u);
      }
    }
    assert Keys(c, f) == keys;
  }

  // ----- a new lock -----

  lemma {:induction false} FindLockFinds(same: (Value, Value) -> bool, keys: Sid -> Option<Key>, table: seq<Sid>,
                                         k: Option<Key>)
    ensures match FindLock(same, keys, table, k)
            case Some(l) => l in table && Matches(same, keys(l), k)
            case None => forall l :: l in table ==> !Matches(same, keys(l), k)
    decreases |table|
  {
    if table != [] && !Matches(same, keys(table[0]), k) {
      FindLockFinds(same, keys, table[1..], k);
      assert forall l :: l in table ==> l == table[0] || l in table[1..];
    }
  }

  lemma AddLockKeeps(c: Config, h: Claims, e: State, s: Sid, x: set<Rid>)
    requires Inv(c, h, e, x) && s in e.st.rid
    requires Keys(c, e)(s).Some? && FindLock(c.same, Keys(c, e), e.table, Keys(c, e)(s)).None?
    requires h.locks ==> Equivalence(c.same)
    ensures Inv(c, h, AddLock(e, s), x)
    ensures h.locks ==> Held(c.same, Keys(c, AddLock(e, s)), AddLock(e, s).table, e.st.rid, s)
  {
    var f := AddLock(e, s);
    assert StateLinked(c, e.st.rid, e.st.def, e.ri.rule, s);
    KeysSame(e.ri.locks, e.st.rid[s], [s] + e.ri.locks[e.st.rid[s]]);
    assert Keys(c, f) == Keys(c, e);
    if h.locks {
      var keys := Keys(c, e);
      FindLockFinds(c.same, keys, e.table, keys(s));
      MatchesSelf(c.same, keys, s);
      assert s !in e.table;
      AddLockTable(c.same, keys, e.table, e.st.rid, e.ri.locks, s);
      assert s in f.table;
      forall t | t in e.th.sid ensures ThreadHeld(c.same, keys, f.table, e.st.rid, e.th.sid, e.th.onlyOnce, t) {
        assert ThreadHeld(c.same, keys, e.table, e.st.rid, e.th.sid, e.th.onlyOnce, t);
      }
    }
  }

  lemma MatchesSelf(same: (Value, Value) -> bool, keys: Sid -> Option<Key>, s: Sid)
    requires Equivalence(same) && keys(s).Some?
    ensures Matches(same, keys(s), keys(s))
  {
  }

  lemma MatchesSymmetric(same: (Value, Value) -> bool, a: Option<Key>, b: Option<Key>)
    requires Equivalence(same) && Matches(same, a, b)
    ensures Matches(same, b, a)
  {
  }

  lemma AddLockTable(same: (Value, Value) -> bool, keys: Sid -> Option<Key>, table: seq<Sid>, rid: map<Sid, Rid>,
                     locks: map<Rid, seq<Sid>>, s: Sid)
    requires LockTable(same, keys, table, rid, locks) && Equivalence(same)
    requires s in rid && rid[s] in locks && keys(s).Some? && s !in table
    requires forall l :: l in table ==> !Matches(same, keys(l), keys(s))
    ensures LockTable(same, keys, [s] + table, rid, locks[rid[s] := [s] + locks[rid[s]]])
  {
    var table', locks' := [s] + table, locks[rid[s] := [s] + locks[rid[s]]];
    forall l | l in table' ensures LockOk(same, keys, table', rid, l) {
      if l != s {
        assert LockOk(same, keys, table, rid, l);
      }
      forall k | k in table' && Matches(same, keys(l), keys(k)) ensures k == l {
        MatchesSymmetric(same, keys(l), keys(k));
      }
    }
    assert Elements(table') == Elements(table) + {s};
    MsAdd(Elements(table), s);
    forall r | r in locks' ensures LocksListed(table', rid, locks', r) {
      assert LocksListed(table, rid, locks, r);
      var was := LocksOf(table, rid, r);
      if r == rid[s] {
        assert LocksOf(table', rid, r) == was + {s};
        MsAdd(was, s);
      } else {
        assert LocksOf(table', rid, r) == was;
      }
    }
  }

  // ----- a new rule instance -----

  lemma NewInstanceKeeps(c: Config, h: Claims, e: State, r: nat)
    requires Inv(c, h, e, {}) && r < |c.rules| && |c.rules[r].states| > 0
    ensures Inv(c, h, NewInstance(e, r), {e.ri.next})
  {
    NewInstanceLinked(c, e, r);
    NewInstanceCounts(c, e, r);
    NewInstanceOwned(c, e, r);
    NewInstanceTree(c, e, r);
    if h.env {
      NewInstanceCached(e, r);
    }
    if h.locks {
      NewInstanceLocked(c, e, r);
    }
  }

  lemma NewInstanceLinked(c: Config, e: State, r: nat)
    requires Linked(c, e) && r < |c.rules| && |c.rules[r].states| > 0
    ensures Linked(c, NewInstance(e, r))
  {
    NewInstanceDomains(e, r);
    NewInstanceLinkedTo(c, e, r);
  }

  lemma NewInstanceLinkedTo(c: Config, e: State, r: nat)
    requires Linked(c, e) && r < |c.rules| && |c.rules[r].states| > 0
    ensures var f := NewInstance(e, r);
            && Bounds(f.th, f.st, f.ri)
            && StatesLinked(c, f.st.rid, f.st.def, f.ri.rule)
            && ThreadsLinked(c, f.th.sid, f.th.trans, f.st.rid, f.st.def, f.ri.rule)
            && RulesInRange(c, f.ri.rule)
  {
    hide StatesLinked, ThreadsLinked, RulesInRange, Below, StateDomains, ThreadDomains, InstDomains;
    var s, i := e.st.next, e.ri.next;
    BelowNext(e.st.rid.Keys, s);
    BelowNext(e.ri.rule.Keys, i);
    KeysAdd(e.st.rid, s, i);
    KeysAdd(e.ri.rule, i, r);
    AddRuleLinked(c, e.th.sid, e.th.trans, e.st.rid, e.st.def, e.ri.rule, i, r);
    AddStateLinked(c, e.th.sid, e.th.trans, e.st.rid, e.st.def, e.ri.rule[i := r], s, i, 0);
  }

  lemma AddRuleLinked(c: Config, sid: map<Tid, Sid>, trans: map<Tid, nat>, rid: map<Sid, Rid>, def: map<Sid, nat>,
                      rule: map<Rid, nat>, i: Rid, r: nat)
    requires StatesLinked(c, rid, def, rule) && ThreadsLinked(c, sid, trans, rid, def, rule) && RulesInRange(c, rule)
    requires i !in rule && r < |c.rules|
    ensures StatesLinked(c, rid, def, rule[i := r]) && ThreadsLinked(c, sid, trans, rid, def, rule[i := r])
    ensures RulesInRange(c, rule[i := r])
  {
    var rule' := rule[i := r];
    forall s | s in rid ensures StateLinked(c, rid, def, rule', s) {
      assert StateLinked(c, rid, def, rule, s);
    }
    forall t | t in sid ensures ThreadLinked(c, sid, trans, rid, def, rule', t) {
      assert ThreadLinked(c, sid, trans, rid, def, rule, t);
    }
    forall k | k in rule' ensures RuleInRange(c, rule', k) {
      if k != i {
        assert RuleInRange(c, rule, k);
      }
    }
  }

  lemma NewInstanceDomains(e: State, r: nat)
    requires StateDomains(e.st) && InstDomains(e.ri)
    ensures var f := NewInstance(e, r);
            && StateDomains(f.st) && InstDomains(f.ri)
            && f.st.rid.Keys == e.st.rid.Keys + {e.st.next} && f.ri.rule.Keys == e.ri.rule.Keys + {e.ri.next}
  {
    var s, i := e.st.next, e.ri.next;
    KeysAdd(e.st.rid, s, i);
    KeysAdd(e.st.def, s, 0);
    KeysAdd(e.st.depth, s, 0);
    KeysAdd(e.st.inherited, s, map[]);
    KeysAdd(e.st.current, s, map[]);
    KeysAdd(e.st.threadList, s, []);
    KeysAdd(e.ri.rule, i, r);
    KeysAdd(e.ri.first, i, s);
    KeysAdd(e.ri.stateList, i, []);
    KeysAdd(e.ri.threads, i, 0);
    KeysAdd(e.ri.locks, i, []);
  }

  /** Nothing points into an instance that does not exist yet. */
  lemma NoneInto(c: Config, e: State, i: Rid)
    requires Linked(c, e) && i !in e.ri.rule
    ensures Into(e.th.sid, e.st.rid, i) == {} && StatesOf(e.st.rid, i) == {}
  {
    forall s | s in e.st.rid ensures e.st.rid[s] != i {
      assert StateLinked(c, e.st.rid, e.st.def, e.ri.rule, s);
    }
  }

  lemma NewInstanceCounts(c: Config, e: State, r: nat)
    requires Linked(c, e) && Counted(e.th.sid, e.st.rid, e.ri.threads) && Alive(e.ri.threads, e.ri.list, {})
    requires Listed(e.th.sid, e.th.onlyOnce, e.st.threadList)
    ensures var f := NewInstance(e, r);
            && Counted(f.th.sid, f.st.rid, f.ri.threads) && Alive(f.ri.threads, f.ri.list, {e.ri.next})
            && Listed(f.th.sid, f.th.onlyOnce, f.st.threadList)
  {
    var s, i := e.st.next, e.ri.next;
    ThreadsInLive(c, e);
    BelowNext(e.st.rid.Keys, s);
    BelowNext(e.ri.rule.Keys, i);
    NoneInto(c, e, i);
    AddStateCounted(e.th.sid, e.st.rid, e.ri.threads, s, i);
    AddStateListed(e.th.sid, e.th.onlyOnce, e.st.threadList, s);
    AddInstCounted(e.th.sid, e.st.rid[s := i], e.ri.threads, e.ri.list, i);
  }

  lemma AddInstCounted(sid: map<Tid, Sid>, rid: map<Sid, Rid>, threads: map<Rid, int>, list: seq<Rid>, i: Rid)
    requires Counted(sid, rid, threads) && Alive(threads, list, {}) && i !in threads && |Into(sid, rid, i)| == 0
    ensures Counted(sid, rid, threads[i := 0]) && Alive(threads[i := 0], list, {i})
  {
    var threads' := threads[i := 0];
    forall k | k in threads' ensures CountedAt(sid, rid, threads', k) {
      if k != i {
        assert CountedAt(sid, rid, threads, k);
      }
    }
    forall k | k in threads' && k != i ensures HasThreads(threads', k) {
      assert HasThreads(threads, k);
    }
    assert threads'.Keys - {i} == threads.Keys - {};
  }

  lemma NewInstanceOwned(c: Config, e: State, r: nat)
    requires Linked(c, e) && Owned(e.st.rid, e.ri.first, e.ri.stateList) && e.st.count == |e.st.rid|
    ensures var f := NewInstance(e, r); Owned(f.st.rid, f.ri.first, f.ri.stateList) && f.st.count == |f.st.rid|
  {
    BelowNext(e.st.rid.Keys, e.st.next);
    BelowNext(e.ri.rule.Keys, e.ri.next);
    NoneInto(c, e, e.ri.next);
    MapSize(e.st.rid, e.st.next, e.ri.next);
    AddInstOwned(e.st.rid, e.ri.first, e.ri.stateList, e.st.next, e.ri.next);
  }

  lemma AddInstOwned(rid: map<Sid, Rid>, first: map<Rid, Sid>, stateList: map<Rid, seq<Sid>>, s: Sid, i: Rid)
    requires Owned(rid, first, stateList) && s !in rid && i !in first && StatesOf(rid, i) == {}
    ensures Owned(rid[s := i], first[i := s], stateList[i := []])
  {
    var rid', first', list' := rid[s := i], first[i := s], stateList[i := []];
    forall k | k in first' ensures OwnedAt(rid', first', list', k) {
      if k == i {
        assert StatesOf(rid', k) == StatesOf(rid, k) + {s};
        assert [s] + [] == [s];
      } else {
        assert OwnedAt(rid, first, stateList, k);
        assert StatesOf(rid', k) == StatesOf(rid, k);
      }
    }
  }

  lemma NewInstanceTree(c: Config, e: State, r: nat)
    requires Linked(c, e) && Tree(e.st)
    ensures Tree(NewInstance(e, r).st)
  {
    var f := NewInstance(e, r);
    var s := e.st.next;
    BelowNext(e.st.rid.Keys, s);
    forall k | k in f.st.rid
      ensures PathAt(f.st.rid, f.st.parent, f.st.depth, k)
           && ChildAt(f.st.parent, f.st.firstChild, k) && SiblingAt(f.st.parent, f.st.nextSibling, k)
    {
      if k != s {
        assert PathAt(e.st.rid, e.st.parent, e.st.depth, k);
        assert ChildAt(e.st.parent, e.st.firstChild, k) && SiblingAt(e.st.parent, e.st.nextSibling, k);
      } else {
        assert forall q :: q in e.st.parent ==> PathAt(e.st.rid, e.st.parent, e.st.depth, q);
      }
    }
  }

  lemma NewInstanceCached(e: State, r: nat)
    requires StateDomains(e.st) && Cached(e.st) && Below(e.st.rid.Keys, e.st.next) && Tree(e.st)
    ensures Cached(NewInstance(e, r).st)
  {
    var f := NewInstance(e, r);
    BelowNext(e.st.rid.Keys, e.st.next);
    forall k | k in f.st.rid ensures CachedAt(f.st.parent, f.st.inherited, f.st.current, k) {
      if k != e.st.next {
        assert CachedAt(e.st.parent, e.st.inherited, e.st.current, k) && PathAt(e.st.rid, e.st.parent, e.st.depth, k);
      }
    }
  }

  lemma NewInstanceLocked(c: Config, e: State, r: nat)
    requires Linked(c, e) && Locked(c, e)
    ensures Locked(c, NewInstance(e, r))
  {
    var f := NewInstance(e, r);
    var keys, keys' := Keys(c, e), Keys(c, f);
    NewInstanceKeys(c, e, r);
    BelowNext(e.ri.rule.Keys, e.ri.next);
    FrameLocks(c, e, f.st.rid, keys');
    forall k | k in f.ri.locks ensures LocksFrame(e.ri.locks, f.ri.locks, e.table, e.st.rid, k) {
      NoneInto(c, e, e.ri.next);
      assert forall l :: l in e.st.rid && e.st.rid[l] == e.ri.next ==> l in StatesOf(e.st.rid, e.ri.next);
    }
    TableTransfer(c.same, keys, keys', e.table, e.st.rid, f.st.rid, e.ri.locks, f.ri.locks);
    ThreadsTransfer(c.same, keys, keys', e.table, e.table, e.st.rid, f.st.rid,
                    e.th.sid, e.th.sid, e.th.onlyOnce, e.th.onlyOnce);
  }

  lemma NewInstanceKeys(c: Config, e: State, r: nat)
    requires Linked(c, e)
    ensures forall k :: k in e.st.rid ==>
              Kept(Keys(c, e), Keys(c, NewInstance(e, r)), e.st.rid, NewInstance(e, r).st.rid, k)
  {
    var s, i := e.st.next, e.ri.next;
    BelowNext(e.st.rid.Keys, s);
    BelowNext(e.ri.rule.Keys, i);
    forall k | k in e.st.rid
      ensures Kept(Keys(c, e), Keys(c, NewInstance(e, r)), e.st.rid, NewInstance(e, r).st.rid, k)
    {
      assert StateLinked(c, e.st.rid, e.st.def, e.ri.rule, k);
      AddStateKeys(c, e.ri.rule, e.st.rid, e.st.current, e.st.inherited, s, i, map[], k);
      AddRuleKey(c, e.ri.rule, e.st.rid[s := i], e.st.current[s := map[]], e.st.inherited[s := map[]], i, r, k);
    }
  }

  lemma AddRuleKey(c: Config, rule: map<Rid, nat>, rid: map<Sid, Rid>, current: map<Sid, Env>,
                   inherited: map<Sid, Env>, i: Rid, r: nat, k: Sid)
    requires Get(rid, k, 0) != i
    ensures KeyOf(c, rule[i := r], rid, current, inherited, k) == KeyOf(c, rule, rid, current, inherited, k)
  {
  }

  /** A rule instance with initial threads is linked. */
  lemma LinkKeeps(c: Config, h: Claims, e: State, i: Rid)
    requires Inv(c, h, e, {i}) && i in e.ri.rule && e.ri.threads[i] > 0
    ensures Inv(c, h, Link(e, i, e.ri.threads[i]), {})
  {
    var th := BumpLast(e.th, e.th.newQ);
    BumpQuiet(e.th, e.th.newQ);
    QuietKeeps(c, h, e, th, {i});
    LinkAlive(e.ri.threads, e.ri.list, i);
    AliveKeeps(c, h, e.(th := th), e.ri.(list := [i] + e.ri.list), {i}, {});
    assert e.ri.threads[i := e.ri.threads[i]] == e.ri.threads;
  }

  /** Only the list of linked rule instances differs. */
  lemma AliveKeeps(c: Config, h: Claims, e: State, ri: Insts, x: set<Rid>, x': set<Rid>)
    requires Inv(c, h, e, x) && Alive(ri.threads, ri.list, x') && ri == e.ri.(list := ri.list)
    ensures Inv(c, h, e.(ri := ri), x')
  {
    assert Keys(c, e.(ri := ri)) == Keys(c, e);
  }

  lemma LinkAlive(threads: map<Rid, int>, list: seq<Rid>, i: Rid)
    requires Alive(threads, list, {i}) && i in threads && threads[i] > 0
    ensures Alive(threads, [i] + list, {})
  {
    assert threads.Keys - {} == (threads.Keys - {i}) + {i};
    MsAdd(threads.Keys - {i}, i);
    forall k | k in threads ensures HasThreads(threads, k) {
      if k != i {
        assert HasThreads(threads, k);
      }
    }
  }

  // ----- the current event -----

  lemma BeginKeeps(c: Config, h: Claims, e: State)
    requires Inv(c, h, e, {}) && e.ev.current.None?
    ensures Inv(c, h, e.(ev := Begin(e.ev)), {})
  {
    BeginEvents(e.st.event, e.ev);
    assert Keys(c, e.(ev := Begin(e.ev))) == Keys(c, e);
  }

  lemma BeginEvents(event: map<Sid, Eid>, ev: Events)
    requires Referenced(event, ev) && Active(ev) && ev.current.None?
    ensures Referenced(event, Begin(ev)) && Active(Begin(ev))
  {
    var ev', v := Begin(ev), ev.next;
    forall w | w in ev.refs ensures w != v {
      assert ReferencedAt(event, ev, w);
    }
    KeysAdd(ev.refs, v, 0);
    forall s | s in event ensures RefersAt(event, ev'.refs, s) && event[s] != v {
      assert RefersAt(event, ev.refs, s);
    }
    assert Holders(event, v) == {};
    forall w | w in ev'.refs ensures ReferencedAt(event, ev', w) {
      if w != v {
        assert ReferencedAt(event, ev, w);
      }
    }
    assert ev'.refs.Keys - {v} == ev.refs.Keys - {};
  }

  lemma EndKeeps(c: Config, h: Claims, e: State)
    requires Inv(c, h, e, {}) && e.ev.current.Some?
    ensures Inv(c, h, e.(ev := End(e.ev)), {}) && End(e.ev).current.None?
  {
    var ev, v := End(e.ev), e.ev.current.value;
    assert ReferencedAt(e.st.event, e.ev, v);
    EndEvents(e.st.event, e.ev);
    assert Keys(c, e.(ev := ev)) == Keys(c, e);
  }

  lemma EndEvents(event: map<Sid, Eid>, ev: Events)
    requires Referenced(event, ev) && Active(ev) && ev.current.Some?
    ensures Referenced(event, End(ev)) && Active(End(ev))
  {
    var v, ev' := ev.current.value, End(ev);
    assert ReferencedAt(event, ev, v);
    assert ev'.refs.Keys == if ev.refs[v] == 0 then ev.refs.Keys - {v} else ev.refs.Keys;
    forall s | s in event ensures RefersAt(event, ev'.refs, s) {
      assert RefersAt(event, ev.refs, s);
      if event[s] == v {
        assert s in Holders(event, v);
      }
    }
    forall w | w in ev'.refs ensures ReferencedAt(event, ev', w) {
      assert ReferencedAt(event, ev, w);
    }
    if ev.refs[v] == 0 {
      assert ev'.refs.Keys - {} == ev.refs.Keys - {v};
    } else {
      assert ev'.refs.Keys - {} == (ev.refs.Keys - {v}) + {v};
      MsAdd(ev.refs.Keys - {v}, v);
    }
  }
}
