/**
 What holds of the engine between any two of its updates.  Each invariant speaks
 about the few fields it needs, so that an update of another field keeps it.
 */
module EngineInvariants {
  import opened Options
  import opened Ovm
  import opened Engine

  // ----- who refers to what -----

  /** The threads that point into rule instance r. */
  function Into(sid: map<Tid, Sid>, rid: map<Sid, Rid>, r: Rid): set<Tid> {
    set t | t in sid && sid[t] in rid && rid[sid[t]] == r
  }

  /** The non-initial threads that wait in state instance s. */
  function Own(sid: map<Tid, Sid>, onlyOnce: set<Tid>, s: Sid): set<Tid> {
    set t | t in sid && sid[t] == s && t !in onlyOnce
  }

  function StatesOf(rid: map<Sid, Rid>, r: Rid): set<Sid> {
    set s | s in rid && rid[s] == r
  }

  /** The state instances that refer to event v. */
  function Holders(event: map<Sid, Eid>, v: Eid): set<Sid> {
    set s | s in event && event[s] == v
  }

  // ----- no pointer dangles -----

  /** Every record has all its fields, and no field or flag outlives its record. */
  ghost predicate ThreadDomains(th: Threads) {
    && th.trans.Keys == th.sid.Keys && th.timeout.Keys == th.sid.Keys
    && th.onlyOnce <= th.sid.Keys && th.bump <= th.sid.Keys && th.killed <= th.sid.Keys
  }

  ghost predicate StateDomains(st: States) {
    DataDomains(st) && LinkDomains(st)
  }

  ghost predicate DataDomains(st: States) {
    && st.def.Keys == st.rid.Keys && st.depth.Keys == st.rid.Keys && st.inherited.Keys == st.rid.Keys
    && st.current.Keys == st.rid.Keys && st.threadList.Keys == st.rid.Keys
  }

  ghost predicate LinkDomains(st: States) {
    && st.parent.Keys <= st.rid.Keys && st.firstChild.Keys <= st.rid.Keys
    && st.nextSibling.Keys <= st.rid.Keys && st.event.Keys <= st.rid.Keys
  }

  ghost predicate InstDomains(ri: Insts) {
    && ri.first.Keys == ri.rule.Keys && ri.stateList.Keys == ri.rule.Keys
    && ri.threads.Keys == ri.rule.Keys && ri.locks.Keys == ri.rule.Keys
  }

  ghost predicate Domains(th: Threads, st: States, ri: Insts) {
    ThreadDomains(th) && StateDomains(st) && InstDomains(ri)
  }

  /** Identifiers are fresh when they are given out. */
  ghost predicate Bounds(th: Threads, st: States, ri: Insts) {
    Below(th.sid.Keys, th.next) && Below(st.rid.Keys, st.next) && Below(ri.rule.Keys, ri.next)
  }

  ghost predicate Below(ids: set<nat>, next: nat) {
    forall i {:trigger IsBelow(i, next)} :: i in ids ==> IsBelow(i, next)
  }

  predicate IsBelow(i: nat, next: nat) { i < next }

  /** A state instance belongs to a live rule instance and instantiates a state of
      its rule. */
  ghost predicate StateLinked(c: Config, rid: map<Sid, Rid>, def: map<Sid, nat>, rule: map<Rid, nat>, s: Sid) {
    && s in rid && s in def && rid[s] in rule && rule[rid[s]] < |c.rules|
    && def[s] < |c.rules[rule[rid[s]]].states|
  }

  ghost predicate StatesLinked(c: Config, rid: map<Sid, Rid>, def: map<Sid, nat>, rule: map<Rid, nat>) {
    forall s {:trigger StateLinked(c, rid, def, rule, s)} :: s in rid ==> StateLinked(c, rid, def, rule, s)
  }

  /** A thread waits in a live state instance on a transition that reads the event. */
  ghost predicate ThreadLinked(c: Config, sid: map<Tid, Sid>, trans: map<Tid, nat>,
                               rid: map<Sid, Rid>, def: map<Sid, nat>, rule: map<Rid, nat>, t: Tid) {
    t in sid && t in trans && TransLinked(c, rid, def, rule, sid[t], trans[t])
  }

  /** State d exists in the rule of state instance p. */
  ghost predicate DestLinked(c: Config, rid: map<Sid, Rid>, rule: map<Rid, nat>, p: Sid, d: nat) {
    p in rid && rid[p] in rule && rule[rid[p]] < |c.rules| && d < |c.rules[rule[rid[p]]].states|
  }

  /** Transition t of state instance s reads the event. */
  ghost predicate TransLinked(c: Config, rid: map<Sid, Rid>, def: map<Sid, nat>, rule: map<Rid, nat>, s: Sid, t: nat) {
    && StateLinked(c, rid, def, rule, s)
    && var ts := c.rules[rule[rid[s]]].states[def[s]].trans;
       t < |ts| && ts[t].Expect?
  }

  ghost predicate ThreadsLinked(c: Config, sid: map<Tid, Sid>, trans: map<Tid, nat>,
                                rid: map<Sid, Rid>, def: map<Sid, nat>, rule: map<Rid, nat>) {
    forall t {:trigger ThreadLinked(c, sid, trans, rid, def, rule, t)} ::
      t in sid ==> ThreadLinked(c, sid, trans, rid, def, rule, t)
  }

  ghost predicate Linked(c: Config, e: State) {
    && Domains(e.th, e.st, e.ri) && Bounds(e.th, e.st, e.ri)
    && StatesLinked(c, e.st.rid, e.st.def, e.ri.rule)
    && ThreadsLinked(c, e.th.sid, e.th.trans, e.st.rid, e.st.def, e.ri.rule)
    && RulesInRange(c, e.ri.rule)
  }

  ghost predicate RulesInRange(c: Config, rule: map<Rid, nat>) {
    forall r {:trigger RuleInRange(c, rule, r)} :: r in rule ==> RuleInRange(c, rule, r)
  }

  ghost predicate RuleInRange(c: Config, rule: map<Rid, nat>, r: Rid) { r in rule && rule[r] < |c.rules| }

  // ----- queues and counts -----

  /** Every thread is queued exactly once, and nothing else is queued. */
  ghost predicate Queued(th: Threads) {
    && multiset(th.newQ) + multiset(th.retrigQ) + multiset(th.cur) == multiset(th.sid.Keys)
    && th.count == |th.sid|
  }

  /** The thread count of a rule instance is the number of threads that point into it. */
  ghost predicate Counted(sid: map<Tid, Sid>, rid: map<Sid, Rid>, threads: map<Rid, int>) {
    forall r {:trigger CountedAt(sid, rid, threads, r)} :: r in threads ==> CountedAt(sid, rid, threads, r)
  }

  ghost predicate CountedAt(sid: map<Tid, Sid>, rid: map<Sid, Rid>, threads: map<Rid, int>, r: Rid) {
    r in threads && threads[r] == |Into(sid, rid, r)|
  }

  /** Rule instances are linked, and have threads, except those that are being built
      or freed. */
  ghost predicate Alive(threads: map<Rid, int>, list: seq<Rid>, except: set<Rid>) {
    && (forall r {:trigger HasThreads(threads, r)} :: r in threads && r !in except ==> HasThreads(threads, r))
    && multiset(list) == multiset(threads.Keys - except)
  }

  predicate HasThreads(threads: map<Rid, int>, r: Rid) { r in threads && threads[r] > 0 }

  /** The thread list of a state instance holds its non-initial threads. */
  ghost predicate Listed(sid: map<Tid, Sid>, onlyOnce: set<Tid>, threadList: map<Sid, seq<Tid>>) {
    forall s {:trigger ListedAt(sid, onlyOnce, threadList, s)} ::
      s in threadList ==> ListedAt(sid, onlyOnce, threadList, s)
  }

  ghost predicate ListedAt(sid: map<Tid, Sid>, onlyOnce: set<Tid>, threadList: map<Sid, seq<Tid>>, s: Sid) {
    s in threadList && multiset(threadList[s]) == multiset(Own(sid, onlyOnce, s))
  }

  /** A rule instance lists exactly its state instances. */
  ghost predicate Owned(rid: map<Sid, Rid>, first: map<Rid, Sid>, stateList: map<Rid, seq<Sid>>) {
    forall r {:trigger OwnedAt(rid, first, stateList, r)} :: r in first ==> OwnedAt(rid, first, stateList, r)
  }

  ghost predicate OwnedAt(rid: map<Sid, Rid>, first: map<Rid, Sid>, stateList: map<Rid, seq<Sid>>, r: Rid) {
    r in first && r in stateList && multiset([first[r]] + stateList[r]) == multiset(StatesOf(rid, r))
  }

  // ----- events -----

  /** Reference counts are exact and only the current event may be unreferenced. */
  ghost predicate Referenced(event: map<Sid, Eid>, ev: Events) {
    && (forall s {:trigger RefersAt(event, ev.refs, s)} :: s in event ==> RefersAt(event, ev.refs, s))
    && (forall v {:trigger ReferencedAt(event, ev, v)} :: v in ev.refs ==> ReferencedAt(event, ev, v))
  }

  ghost predicate RefersAt(event: map<Sid, Eid>, refs: map<Eid, int>, s: Sid) { s in event && event[s] in refs }

  ghost predicate ReferencedAt(event: map<Sid, Eid>, ev: Events, v: Eid) {
    && v in ev.refs && v < ev.next && ev.refs[v] == |Holders(event, v)|
    && (Some(v) != ev.current ==> ev.refs[v] > 0)
  }

  /** The active list holds every event but the current one. */
  ghost predicate Active(ev: Events) {
    && (ev.current.Some? ==> ev.current.value in ev.refs)
    && multiset(ev.active) == multiset(ev.refs.Keys - Current(ev.current))
    && ev.count == |ev.active|
  }

  function Current(v: Option<Eid>): set<Eid> { if v.Some? then {v.value} else {} }

  // ----- the tree of state instances -----

  /** Identifiers grow along paths; a node lives in the rule instance of its parent. */
  ghost predicate PathAt(rid: map<Sid, Rid>, parent: map<Sid, Sid>, depth: map<Sid, nat>, s: Sid) {
    s in rid && s in depth &&
    if s in parent then
      var p := parent[s];
      p in rid && p in depth && p < s && depth[s] == depth[p] + 1 && rid[s] == rid[p]
    else depth[s] == 0
  }

  ghost predicate Paths(rid: map<Sid, Rid>, parent: map<Sid, Sid>, depth: map<Sid, nat>) {
    forall s {:trigger PathAt(rid, parent, depth, s)} :: s in rid ==> PathAt(rid, parent, depth, s)
  }

  /** The first child is the newest child. */
  ghost predicate ChildAt(parent: map<Sid, Sid>, firstChild: map<Sid, Sid>, s: Sid) {
    if s in firstChild then
      var k := firstChild[s];
      && k in parent && parent[k] == s
      && forall x :: x in parent && parent[x] == s ==> x <= k
    else forall x :: x in parent ==> parent[x] != s
  }

  /** The next sibling is the next older child of the same parent. */
  ghost predicate SiblingAt(parent: map<Sid, Sid>, nextSibling: map<Sid, Sid>, s: Sid) {
    if s in nextSibling then
      var n := nextSibling[s];
      && s in parent && n in parent && parent[n] == parent[s] && n < s
      && forall x :: x in parent && parent[x] == parent[s] && x < s ==> x <= n
    else s in parent ==> forall x :: x in parent && parent[x] == parent[s] ==> s <= x
  }

  ghost predicate Children(rid: map<Sid, Rid>, parent: map<Sid, Sid>, firstChild: map<Sid, Sid>,
                           nextSibling: map<Sid, Sid>) {
    && (forall s {:trigger ChildAt(parent, firstChild, s)} :: s in rid ==> ChildAt(parent, firstChild, s))
    && (forall s {:trigger SiblingAt(parent, nextSibling, s)} :: s in rid ==> SiblingAt(parent, nextSibling, s))
  }

  ghost predicate Tree(st: States) {
    Paths(st.rid, st.parent, st.depth) && Children(st.rid, st.parent, st.firstChild, st.nextSibling)
  }

  // ----- what depends on the bytecode -----

  /** The inherited environment of a state instance is what its parent binds. */
  ghost predicate CachedAt(parent: map<Sid, Sid>, inherited: map<Sid, Env>, current: map<Sid, Env>, s: Sid) {
    s in inherited && s in current &&
    if s in parent then
      parent[s] in inherited && parent[s] in current && inherited[s] == inherited[parent[s]] + current[parent[s]]
    else inherited[s] == map[]
  }

  ghost predicate Cached(st: States) {
    forall s {:trigger CachedAt(st.parent, st.inherited, st.current, s)} ::
      s in st.rid ==> CachedAt(st.parent, st.inherited, st.current, s)
  }

  /** A lock has a key, which no other lock has. */
  ghost predicate LockOk(same: (Value, Value) -> bool, keys: Sid -> Option<Key>, table: seq<Sid>, rid: map<Sid, Rid>,
                         l: Sid) {
    && l in rid && keys(l).Some?
    && forall k :: k in table && Matches(same, keys(l), keys(k)) ==> k == l
  }

  /** Some lock of the rule instance of s has the key of s. */
  ghost predicate Held(same: (Value, Value) -> bool, keys: Sid -> Option<Key>, table: seq<Sid>, rid: map<Sid, Rid>,
                       s: Sid) {
    exists l :: l in table && Matches(same, keys(l), keys(s)) && l in rid && s in rid && rid[l] == rid[s]
  }

  function LocksOf(table: seq<Sid>, rid: map<Sid, Rid>, r: Rid): set<Sid> {
    set l | l in table && l in rid && rid[l] == r
  }

  /** At most one lock per rule and key, each listed by its own rule instance. */
  ghost predicate LockTable(same: (Value, Value) -> bool, keys: Sid -> Option<Key>, table: seq<Sid>,
                            rid: map<Sid, Rid>, locks: map<Rid, seq<Sid>>) {
    && (forall l {:trigger LockOk(same, keys, table, rid, l)} :: l in table ==> LockOk(same, keys, table, rid, l))
    && multiset(table) == multiset(Elements(table))
    && (forall r {:trigger LocksListed(table, rid, locks, r)} :: r in locks ==> LocksListed(table, rid, locks, r))
  }

  ghost predicate LocksListed(table: seq<Sid>, rid: map<Sid, Rid>, locks: map<Rid, seq<Sid>>, r: Rid) {
    r in locks && multiset(locks[r]) == multiset(LocksOf(table, rid, r))
  }

  /** A non-initial thread whose state instance has a key belongs to its holder. */
  ghost predicate ThreadHeld(same: (Value, Value) -> bool, keys: Sid -> Option<Key>, table: seq<Sid>,
                             rid: map<Sid, Rid>, sid: map<Tid, Sid>, onlyOnce: set<Tid>, t: Tid) {
    t in sid && t !in onlyOnce && keys(sid[t]).Some? ==> Held(same, keys, table, rid, sid[t])
  }

  ghost predicate ThreadsHeld(same: (Value, Value) -> bool, keys: Sid -> Option<Key>, table: seq<Sid>,
                              rid: map<Sid, Rid>, sid: map<Tid, Sid>, onlyOnce: set<Tid>) {
    forall t {:trigger ThreadHeld(same, keys, table, rid, sid, onlyOnce, t)} :: t in sid ==>
      ThreadHeld(same, keys, table, rid, sid, onlyOnce, t)
  }

  ghost predicate Locked(c: Config, e: State) {
    && LockTable(c.same, Keys(c, e), e.table, e.st.rid, e.ri.locks)
    && ThreadsHeld(c.same, Keys(c, e), e.table, e.st.rid, e.th.sid, e.th.onlyOnce)
  }

  /** The two conditional invariants, and whether they are claimed. */
  datatype Claims = Claims(env: bool, locks: bool)

  const ANY := Claims(false, false)
  const ENVS := Claims(true, false)
  const LOCKS := Claims(false, true)

  /** The bytecode of some transition of rule r. */
  ghost predicate IsGuard(c: Config, r: nat, code: Code) { exists d: nat, t: nat :: GuardAt(c, r, d, t, code) }

  predicate GuardAt(c: Config, r: nat, d: nat, t: nat, code: Code) {
    && r < |c.rules| && d < |c.rules[r].states| && t < |c.rules[r].states[d].trans|
    && match c.rules[r].states[d].trans[t]
       case Expect(_, guard) => guard == code
       case Epsilon(_, test) => test == Some(code)
  }

  /** The guards of a rule contain no assignment. */
  ghost predicate GuardsKeepEnv(c: Config, inp: Input) {
    forall e: State, s: Sid, code: Code {:trigger inp.test(e, s, code)} :: IsGuard(c, RuleOf(e, s), code) ==>
      inp.test(e, s, code).effect.env == CurrentEnv(e.st, s)
  }

  /** The guards of a rule do not rebind a synchronisation variable of the rule. */
  ghost predicate GuardsKeepKeys(c: Config, inp: Input) {
    forall e: State, s: Sid, code: Code {:trigger inp.test(e, s, code)} :: IsGuard(c, RuleOf(e, s), code) ==>
      Keys(c, e.(st := SetEnv(e.st, s, inp.test(e, s, code).effect.env)))(s) == Keys(c, e)(s)
  }

  ghost predicate Equivalence(same: (Value, Value) -> bool) {
    && (forall v :: same(v, v))
    && (forall v, w :: same(v, w) ==> same(w, v))
    && (forall u, v, w :: same(u, v) && same(v, w) ==> same(u, w))
  }

  ghost predicate Obeys(c: Config, h: Claims, inp: Input) {
    && (h.env ==> GuardsKeepEnv(c, inp))
    && (h.locks ==> GuardsKeepKeys(c, inp) && Equivalence(c.same))
  }

  /** The invariants that hold whatever the bytecode does. */
  ghost predicate Sound(c: Config, e: State, except: set<Rid>) {
    && Linked(c, e)
    && Queued(e.th)
    && Counted(e.th.sid, e.st.rid, e.ri.threads)
    && Alive(e.ri.threads, e.ri.list, except)
    && Listed(e.th.sid, e.th.onlyOnce, e.st.threadList)
    && Owned(e.st.rid, e.ri.first, e.ri.stateList) && e.st.count == |e.st.rid|
    && Referenced(e.st.event, e.ev) && Active(e.ev)
    && Tree(e.st)
  }

  ghost predicate Inv(c: Config, h: Claims, e: State, except: set<Rid>) {
    && Sound(c, e, except)
    && (h.env ==> Cached(e.st))
    && (h.locks ==> Locked(c, e))
  }
}
