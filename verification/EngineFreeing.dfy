/**
 Taking threads and rule instances away keeps the invariants.
 */
module EngineFreeing {
  import opened Options
  import opened Ovm
  import opened Engine
  import opened EngineInvariants
  import opened EngineUpdates

  // ----- a thread leaves, in the fields of the heap -----

  lemma DropLinked(c: Config, sid: map<Tid, Sid>, trans: map<Tid, nat>, rid: map<Sid, Rid>, def: map<Sid, nat>,
                   rule: map<Rid, nat>, t: Tid)
    requires ThreadsLinked(c, sid, trans, rid, def, rule)
    ensures ThreadsLinked(c, sid - {t}, trans - {t}, rid, def, rule)
  {
    var sid', trans' := sid - {t}, trans - {t};
    forall u | u in sid' ensures ThreadLinked(c, sid', trans', rid, def, rule, u) {
      assert ThreadLinked(c, sid, trans, rid, def, rule, u);
    }
  }

  lemma KeysMinus<K, V>(m: map<K, V>, dead: set<K>)
    ensures (m - dead).Keys == m.Keys - dead
  {
  }

  lemma DropDomains(th: Threads)
    requires ThreadDomains(th) && th.cur != []
    ensures ThreadDomains(RemoveCurrent(th)) && RemoveCurrent(th).sid.Keys == th.sid.Keys - {th.cur[0]}
  {
    var t := th.cur[0];
    KeysMinus(th.sid, {t});
    KeysMinus(th.trans, {t});
    KeysMinus(th.timeout, {t});
  }

  lemma DropQueued(th: Threads)
    requires Queued(th) && th.cur != []
    ensures Queued(RemoveCurrent(th)) && th.cur[0] in th.sid
  {
    var t := th.cur[0];
    QueuedLast(th, th.cur);
    KeysMinus(th.sid, {t});
    MapDrop(th.sid, t);
    MsDrop(th.sid.Keys, t);
    assert th.cur == [t] + th.cur[1..];
  }

  lemma DropCounted(sid: map<Tid, Sid>, rid: map<Sid, Rid>, threads: map<Rid, int>, t: Tid)
    requires Counted(sid, rid, threads) && t in sid && sid[t] in rid && rid[sid[t]] in threads
    ensures var r := rid[sid[t]]; Counted(sid - {t}, rid, threads[r := threads[r] - 1]) && threads[r] > 0
  {
    var r := rid[sid[t]];
    var sid', threads' := sid - {t}, threads[r := threads[r] - 1];
    assert CountedAt(sid, rid, threads, r) && t in Into(sid, rid, r);
    forall k | k in threads' ensures CountedAt(sid', rid, threads', k) {
      assert CountedAt(sid, rid, threads, k);
      if k == r {
        assert Into(sid', rid, k) == Into(sid, rid, k) - {t};
      } else {
        assert Into(sid', rid, k) == Into(sid, rid, k);
      }
    }
  }

  lemma DropListed(sid: map<Tid, Sid>, once: set<Tid>, threadList: map<Sid, seq<Tid>>, t: Tid)
    requires Listed(sid, once, threadList) && t in sid && sid[t] in threadList
    ensures var s := sid[t]; Listed(sid - {t}, once - {t}, threadList[s := Without(threadList[s], t)])
  {
    var s := sid[t];
    var sid', once', list' := sid - {t}, once - {t}, threadList[s := Without(threadList[s], t)];
    WithoutMultiset(threadList[s], t);
    forall k | k in list' ensures ListedAt(sid', once', list', k) {
      assert ListedAt(sid, once, threadList, k);
      OwnMinus(sid, once, t, k);
      if t in Own(sid, once, k) {
        MsDrop(Own(sid, once, k), t);
      } else {
        MsMissing(Own(sid, once, k), t);
      }
    }
  }

  lemma OwnMinus(sid: map<Tid, Sid>, once: set<Tid>, t: Tid, k: Sid)
    ensures Own(sid - {t}, once - {t}, k) == Own(sid, once, k) - {t}
    ensures t in Own(sid, once, k) ==> t in sid && sid[t] == k
  {
  }

  lemma MsMissing<T>(s: set<T>, x: T)
    requires x !in s
    ensures s - {x} == s && multiset(s) - multiset{x} == multiset(s)
  {
  }

  lemma DropAlive(threads: map<Rid, int>, list: seq<Rid>, r: Rid)
    requires Alive(threads, list, {}) && r in threads && threads[r] > 0
    ensures var threads' := threads[r := threads[r] - 1];
            if threads[r] == 1 then Alive(threads', Without(list, r), {r}) else Alive(threads', list, {})
  {
    var threads' := threads[r := threads[r] - 1];
    KeysSame(threads, r, threads[r] - 1);
    WithoutMultiset(list, r);
    MsDrop(threads.Keys, r);
    assert threads.Keys - {} == threads.Keys;
    forall k | k in threads' && (k != r || threads[r] > 1) ensures HasThreads(threads', k) {
      assert HasThreads(threads, k);
    }
  }

  lemma DropHeld(same: (Value, Value) -> bool, keys: Sid -> Option<Key>, table: seq<Sid>, rid: map<Sid, Rid>,
                 sid: map<Tid, Sid>, once: set<Tid>, t: Tid)
    requires ThreadsHeld(same, keys, table, rid, sid, once)
    ensures ThreadsHeld(same, keys, table, rid, sid - {t}, once - {t})
  {
    var sid', once' := sid - {t}, once - {t};
    forall u | u in sid' ensures ThreadHeld(same, keys, table, rid, sid', once', u) {
      assert ThreadHeld(same, keys, table, rid, sid, once, u);
    }
  }

  // ----- a thread leaves -----

  /** The thread under evaluation out of the queue and out of the list of its state
      instance, and a rule instance without threads out of the list of those linked. */
  function Dropped(e: State): State
    requires e.th.cur != []
  {
    var t := e.th.cur[0];
    var s := SidOf(e.th, t);
    var e1 := DropThread(e);
    var r := RidOf(e.st, s);
    Unlink(if e1.ri.threads[r] == 0 then Delist(e1, r) else e1, s, t)
  }

  function Emptied(e: State): set<Rid>
    requires e.th.cur != []
  {
    var r := RidOf(e.st, SidOf(e.th, e.th.cur[0]));
    if DropThread(e).ri.threads[r] == 0 then {r} else {}
  }

  lemma DroppedKeeps(c: Config, h: Claims, e: State)
    requires Inv(c, h, e, {}) && e.th.cur != []
    ensures Inv(c, h, Dropped(e), Emptied(e))
    ensures var s := SidOf(e.th, e.th.cur[0]); s in e.st.rid && e.st.rid[s] in e.ri.rule
  {
    hide Queued, Counted, Alive, Listed, Owned, Referenced, Active, Paths, Children, Linked;
    CurrentLinked(c, e);
    DroppedLinked(c, e);
    DroppedCounts(c, e);
    if h.locks {
      var t := e.th.cur[0];
      DropHeld(c.same, Keys(c, e), e.table, e.st.rid, e.th.sid, e.th.onlyOnce, t);
      assert Keys(c, Dropped(e)) == Keys(c, e);
    }
  }

  lemma CurrentLinked(c: Config, e: State)
    requires Linked(c, e) && Queued(e.th) && e.th.cur != []
    ensures var t := e.th.cur[0];
            && t in e.th.sid && e.th.sid[t] in e.st.rid && e.st.rid[e.th.sid[t]] in e.ri.rule
            && TransLinked(c, e.st.rid, e.st.def, e.ri.rule, e.th.sid[t], Get(e.th.trans, t, 0))
  {
    QueuedLast(e.th, e.th.cur);
    assert ThreadLinked(c, e.th.sid, e.th.trans, e.st.rid, e.st.def, e.ri.rule, e.th.cur[0]);
  }

  lemma DroppedFields(e: State)
    requires e.th.cur != []
    ensures var t, f := e.th.cur[0], Dropped(e);
            && f.th == RemoveCurrent(e.th) && f.th.sid == e.th.sid - {t} && f.th.trans == e.th.trans - {t}
            && f.th.next == e.th.next && f.st.rid == e.st.rid && f.st.def == e.st.def && f.st.next == e.st.next
            && f.ri.rule == e.ri.rule && f.ri.next == e.ri.next
  {
  }

  lemma DroppedLinked(c: Config, e: State)
    requires Linked(c, e) && Queued(e.th) && e.th.cur != []
    ensures Linked(c, Dropped(e)) && Queued(Dropped(e).th)
  {
    hide Queued, StatesLinked, ThreadsLinked, RulesInRange, Dropped, ThreadDomains, StateDomains, InstDomains;
    var t := e.th.cur[0];
    CurrentLinked(c, e);
    DroppedFields(e);
    DropDomains(e.th);
    DropQueued(e.th);
    DropLinked(c, e.th.sid, e.th.trans, e.st.rid, e.st.def, e.ri.rule, t);
    DroppedOwners(e);
    assert Below(e.th.sid.Keys - {t}, e.th.next);
  }

  lemma DroppedOwners(e: State)
    requires StateDomains(e.st) && InstDomains(e.ri) && e.th.cur != []
    requires var t := e.th.cur[0]; t in e.th.sid && e.th.sid[t] in e.st.rid && e.st.rid[e.th.sid[t]] in e.ri.rule
    ensures StateDomains(Dropped(e).st) && InstDomains(Dropped(e).ri)
  {
    var t := e.th.cur[0];
    var s := e.th.sid[t];
    var r := e.st.rid[s];
    KeysSame(e.st.threadList, s, Without(e.st.threadList[s], t));
    KeysSame(e.ri.threads, r, e.ri.threads[r] - 1);
  }

  lemma DroppedCounts(c: Config, e: State)
    requires Linked(c, e) && Queued(e.th) && e.th.cur != []
    requires Counted(e.th.sid, e.st.rid, e.ri.threads) && Alive(e.ri.threads, e.ri.list, {})
    requires Listed(e.th.sid, e.th.onlyOnce, e.st.threadList)
    ensures var f := Dropped(e);
            && Counted(f.th.sid, f.st.rid, f.ri.threads) && Alive(f.ri.threads, f.ri.list, Emptied(e))
            && Listed(f.th.sid, f.th.onlyOnce, f.st.threadList)
  {
    hide Queued, Counted, Alive, Listed, StatesLinked, ThreadsLinked, RulesInRange, Below;
    var t := e.th.cur[0];
    CurrentLinked(c, e);
    DropCounted(e.th.sid, e.st.rid, e.ri.threads, t);
    DropAlive(e.ri.threads, e.ri.list, e.st.rid[e.th.sid[t]]);
    DropListed(e.th.sid, e.th.onlyOnce, e.st.threadList, t);
  }

  // ----- events are released -----

  lemma ReleaseKeeps(event: map<Sid, Eid>, ev: Events, s: Sid)
    requires Referenced(event, ev) && Active(ev) && s in event
    ensures Referenced(event - {s}, Release(ev, event[s])) && Active(Release(ev, event[s]))
  {
    ReleaseReferenced(event, ev, s);
    ReleaseActive(event, ev, s);
  }

  lemma ReleaseReferenced(event: map<Sid, Eid>, ev: Events, s: Sid)
    requires Referenced(event, ev) && s in event
    ensures Referenced(event - {s}, Release(ev, event[s]))
  {
    var v := event[s];
    var event', ev' := event - {s}, Release(ev, v);
    assert RefersAt(event, ev.refs, s) && ReferencedAt(event, ev, v);
    assert s in Holders(event, v);
    assert Holders(event', v) == Holders(event, v) - {s};
    forall k | k in event' ensures RefersAt(event', ev'.refs, k) {
      assert RefersAt(event, ev.refs, k);
      if event[k] == v {
        assert k in Holders(event', v);
        assert |Holders(event', v)| != 0;
      }
    }
    forall w | w in ev'.refs ensures ReferencedAt(event', ev', w) {
      assert ReferencedAt(event, ev, w);
      if w != v {
        assert Holders(event', w) == Holders(event, w);
      }
    }
  }

  /** An event leaves the active list. */
  lemma Unlisted(active: seq<Eid>, events: set<Eid>, current: set<Eid>, v: Eid)
    requires multiset(active) == multiset(events - current) && v in events && v !in current
    ensures multiset(Without(active, v)) == multiset(events - {v} - current) && |Without(active, v)| == |active| - 1
  {
    assert events - {v} - current == (events - current) - {v};
    MsDrop(events - current, v);
    WithoutMultiset(active, v);
    assert v in multiset(active);
    assert |Without(active, v)| == |multiset(Without(active, v))| == |multiset(active)| - 1;
  }

  lemma ReleaseActive(event: map<Sid, Eid>, ev: Events, s: Sid)
    requires Referenced(event, ev) && Active(ev) && s in event
    ensures Active(Release(ev, event[s]))
  {
    var v := event[s];
    assert RefersAt(event, ev.refs, s) && ReferencedAt(event, ev, v);
    assert s in Holders(event, v);
    if ev.refs[v] - 1 <= 0 && ev.current != Some(v) {
      KeysMinus(ev.refs, {v});
      Unlisted(ev.active, ev.refs.Keys, Current(ev.current), v);
    } else {
      KeysSame(ev.refs, v, ev.refs[v] - 1);
    }
  }

  lemma {:induction false} ReleaseAgree(ev: Events, event: map<Sid, Eid>, ss: seq<Sid>, s: Sid)
    requires s !in ss
    ensures ReleaseAll(ev, event - {s}, ss) == ReleaseAll(ev, event, ss)
    decreases |ss|
  {
    if ss != [] {
      ReleaseAgree(if ss[0] in event then Release(ev, event[ss[0]]) else ev, event, ss[1..], s);
    }
  }

  ghost predicate Distinct<T(!new)>(q: seq<T>) {
    forall i, j :: 0 <= i < j < |q| ==> q[i] != q[j]
  }

  lemma {:induction false} ReleaseAllKeeps(event: map<Sid, Eid>, ev: Events, ss: seq<Sid>)
    requires Referenced(event, ev) && Active(ev) && Distinct(ss)
    ensures Referenced(event - Elements(ss), ReleaseAll(ev, event, ss)) && Active(ReleaseAll(ev, event, ss))
    ensures ReleaseAll(ev, event, ss).current == ev.current
    decreases |ss|
  {
    MinusHead(event, ss);
    if ss != [] {
      var s := ss[0];
      var ev1 := if s in event then Release(ev, event[s]) else ev;
      if s in event {
        ReleaseKeeps(event, ev, s);
      }
      ReleaseAgree(ev1, event, ss[1..], s);
      ReleaseAllKeeps(event - {s}, ev1, ss[1..]);
    }
  }

  lemma MinusHead<V>(m: map<Sid, V>, ss: seq<Sid>)
    requires Distinct(ss)
    ensures ss == [] ==> m - Elements(ss) == m
    ensures ss != [] ==>
              && ss[0] !in ss[1..] && Distinct(ss[1..])
              && (ss[0] !in m ==> m - {ss[0]} == m)
              && m - {ss[0]} - Elements(ss[1..]) == m - Elements(ss)
  {
    if ss != [] {
      assert Elements(ss) == {ss[0]} + Elements(ss[1..]);
    }
  }

  // ----- locks are dropped -----

  /** A sequence that lists a set. */
  lemma {:induction false} ListsSet<T(!new)>(q: seq<T>, s: set<T>)
    requires multiset(q) == multiset(s)
    ensures Distinct(q) && Elements(q) == s && |q| == |s|
    decreases |q|
  {
    forall x ensures x in q <==> x in s {
      assert x in q <==> x in multiset(q);
    }
    if q != [] {
      var h := q[0];
      assert q == [h] + q[1..];
      assert h in multiset(q);
      MsDrop(s, h);
      ListsSet(q[1..], s - {h});
      forall i, j | 0 <= i < j < |q| ensures q[i] != q[j] {
        assert q[j] == q[1..][j - 1];
        if i > 0 {
          assert q[i] == q[1..][i - 1];
        } else {
          assert q[j] in s - {h};
        }
      }
    }
  }

  /** Locks have keys, and no two of them the same. */
  ghost predicate UniqueKeys(same: (Value, Value) -> bool, keys: Sid -> Option<Key>, table: seq<Sid>) {
    forall l {:trigger UniqueKey(same, keys, table, l)} :: l in table ==> UniqueKey(same, keys, table, l)
  }

  ghost predicate UniqueKey(same: (Value, Value) -> bool, keys: Sid -> Option<Key>, table: seq<Sid>, l: Sid) {
    keys(l).Some? && forall k :: k in table && Matches(same, keys(l), keys(k)) ==> k == l
  }

  /** objhash_del with the key of a lock drops that lock. */
  lemma {:induction false} DropLockDrops(same: (Value, Value) -> bool, keys: Sid -> Option<Key>, table: seq<Sid>,
                                         h: Sid)
    requires Equivalence(same) && UniqueKeys(same, keys, table) && h in table
    ensures multiset(DropLock(same, keys, table, keys(h))) == multiset(table) - multiset{h}
    decreases |table|
  {
    var l := table[0];
    assert table == [l] + table[1..];
    assert UniqueKey(same, keys, table, l) && UniqueKey(same, keys, table, h);
    if Matches(same, keys(l), keys(h)) {
      assert l == h;
    } else {
      MatchesSelf(same, keys, h);
      assert h in table[1..];
      UniqueSub(same, keys, table, table[1..]);
      DropLockDrops(same, keys, table[1..], h);
    }
  }

  lemma UniqueSub(same: (Value, Value) -> bool, keys: Sid -> Option<Key>, table: seq<Sid>, sub: seq<Sid>)
    requires UniqueKeys(same, keys, table) && forall l :: l in sub ==> l in table
    ensures UniqueKeys(same, keys, sub)
  {
    forall l | l in sub ensures UniqueKey(same, keys, sub, l) {
      assert UniqueKey(same, keys, table, l);
    }
  }

  lemma {:induction false} DropLocksDrops(same: (Value, Value) -> bool, keys: Sid -> Option<Key>, table: seq<Sid>,
                                          held: seq<Sid>)
    requires Equivalence(same) && UniqueKeys(same, keys, table) && multiset(held) <= multiset(table)
    ensures multiset(DropLocks(same, keys, table, held)) == multiset(table) - multiset(held)
    decreases |held|
  {
    if held != [] {
      var h := held[0];
      assert held == [h] + held[1..];
      assert h in multiset(held);
      var table1 := DropLock(same, keys, table, keys(h));
      DropLockDrops(same, keys, table, h);
      forall l | l in table1 ensures l in table {
        assert l in multiset(table1);
      }
      UniqueSub(same, keys, table, table1);
      assert multiset(held[1..]) <= multiset(table1);
      DropLocksDrops(same, keys, table1, held[1..]);
    }
  }

  lemma LocksLive(same: (Value, Value) -> bool, keys: Sid -> Option<Key>, table: seq<Sid>, rid: map<Sid, Rid>,
                  locks: map<Rid, seq<Sid>>)
    requires LockTable(same, keys, table, rid, locks)
    ensures UniqueKeys(same, keys, table) && forall l :: l in table ==> l in rid
  {
    forall l | l in table ensures UniqueKey(same, keys, table, l) && l in rid {
      assert LockOk(same, keys, table, rid, l);
    }
  }

  /** Freeing an instance removes its own locks and no others. */
  lemma DropOwnLocks(same: (Value, Value) -> bool, keys: Sid -> Option<Key>, table: seq<Sid>, rid: map<Sid, Rid>,
                     locks: map<Rid, seq<Sid>>, r: Rid)
    requires Equivalence(same) && LockTable(same, keys, table, rid, locks) && r in locks
    ensures var table' := DropLocks(same, keys, table, locks[r]);
            && multiset(table') == multiset(Elements(table'))
            && (forall l :: l in table' <==> l in table && l in rid && rid[l] != r)
  {
    var all, own := Elements(table), LocksOf(table, rid, r);
    LocksLive(same, keys, table, rid, locks);
    assert LocksListed(table, rid, locks, r);
    assert own <= all;
    MsMinus(all, own);
    DropLocksDrops(same, keys, table, locks[r]);
    var table' := DropLocks(same, keys, table, locks[r]);
    ListsSet(table', all - own);
    forall l ensures l in table' <==> l in table && l in rid && rid[l] != r {
      assert l in table' <==> l in all - own;
    }
  }

  lemma MsMinus<T>(a: set<T>, b: set<T>)
    requires b <= a
    ensures multiset(a - b) == multiset(a) - multiset(b) && multiset(b) <= multiset(a)
  {
  }

  /** The lock table without the locks of instance r. */
  lemma FreedTable(same: (Value, Value) -> bool, keys: Sid -> Option<Key>, keys': Sid -> Option<Key>, table: seq<Sid>,
                   table': seq<Sid>, rid: map<Sid, Rid>, rid': map<Sid, Rid>, locks: map<Rid, seq<Sid>>, r: Rid)
    requires LockTable(same, keys, table, rid, locks)
    requires AllKept(keys, keys', rid, rid', table')
    requires multiset(table') == multiset(Elements(table'))
    requires forall l :: l in table' <==> l in table && l in rid && rid[l] != r
    ensures LockTable(same, keys', table', rid', locks - {r})
  {
    var locks' := locks - {r};
    forall l | l in table' ensures LockOk(same, keys', table', rid', l) {
      assert LockOk(same, keys, table, rid, l) && Kept(keys, keys', rid, rid', l);
      forall k | k in table' && Matches(same, keys'(l), keys'(k)) ensures k == l {
        assert Kept(keys, keys', rid, rid', k);
      }
    }
    forall k | k in locks' ensures LocksListed(table', rid', locks', k) {
      assert LocksListed(table, rid, locks, k);
      forall l ensures l in LocksOf(table', rid', k) <==> l in LocksOf(table, rid, k) {
        if l in table' {
          assert Kept(keys, keys', rid, rid', l);
        }
      }
      assert LocksOf(table', rid', k) == LocksOf(table, rid, k);
    }
  }

  lemma FreedHeld(same: (Value, Value) -> bool, keys: Sid -> Option<Key>, keys': Sid -> Option<Key>, table: seq<Sid>,
                  table': seq<Sid>, rid: map<Sid, Rid>, rid': map<Sid, Rid>, sid: map<Tid, Sid>, once: set<Tid>, r: Rid)
    requires ThreadsHeld(same, keys, table, rid, sid, once)
    requires forall s :: s in rid && rid[s] != r ==> Kept(keys, keys', rid, rid', s)
    requires forall t :: t in sid ==> sid[t] in rid && rid[sid[t]] != r
    requires forall l :: l in table && l in rid && rid[l] != r ==> l in table'
    ensures ThreadsHeld(same, keys', table', rid', sid, once)
  {
    forall t | t in sid ensures ThreadHeld(same, keys', table', rid', sid, once, t) {
      var s := sid[t];
      assert Kept(keys, keys', rid, rid', s);
      assert ThreadHeld(same, keys, table, rid, sid, once, t);
      if t !in once && keys'(s).Some? {
        var l :| l in table && Matches(same, keys(l), keys(s)) && l in rid && s in rid && rid[l] == rid[s];
        assert Kept(keys, keys', rid, rid', l);
        assert l in table' && Matches(same, keys'(l), keys'(s)) && rid'[l] == rid'[s];
      }
    }
  }

  // ----- a rule instance leaves, in the fields of the heap -----

  lemma FreedLinked(c: Config, sid: map<Tid, Sid>, trans: map<Tid, nat>, rid: map<Sid, Rid>, def: map<Sid, nat>,
                    rule: map<Rid, nat>, r: Rid)
    requires StatesLinked(c, rid, def, rule) && ThreadsLinked(c, sid, trans, rid, def, rule) && RulesInRange(c, rule)
    requires Into(sid, rid, r) == {}
    ensures var dead := StatesOf(rid, r);
            && StatesLinked(c, rid - dead, def - dead, rule - {r})
            && ThreadsLinked(c, sid, trans, rid - dead, def - dead, rule - {r})
            && RulesInRange(c, rule - {r})
  {
    var dead := StatesOf(rid, r);
    var rid', def', rule' := rid - dead, def - dead, rule - {r};
    forall s | s in rid' ensures StateLinked(c, rid', def', rule', s) {
      assert StateLinked(c, rid, def, rule, s);
    }
    forall t | t in sid ensures ThreadLinked(c, sid, trans, rid', def', rule', t) {
      assert ThreadLinked(c, sid, trans, rid, def, rule, t);
      assert t !in Into(sid, rid, r);
    }
    forall k | k in rule' ensures RuleInRange(c, rule', k) {
      assert RuleInRange(c, rule, k);
    }
  }

  lemma FreedCounted(sid: map<Tid, Sid>, rid: map<Sid, Rid>, threads: map<Rid, int>, list: seq<Rid>, x: set<Rid>,
                     r: Rid)
    requires Counted(sid, rid, threads) && Alive(threads, list, x) && r in x
    ensures Counted(sid, rid - StatesOf(rid, r), threads - {r}) && Alive(threads - {r}, list, x - {r})
  {
    var rid', threads' := rid - StatesOf(rid, r), threads - {r};
    forall k | k in threads' ensures CountedAt(sid, rid', threads', k) {
      assert CountedAt(sid, rid, threads, k);
      assert Into(sid, rid', k) == Into(sid, rid, k);
    }
    forall k | k in threads' && k !in x - {r} ensures HasThreads(threads', k) {
      assert HasThreads(threads, k);
    }
    KeysMinus(threads, {r});
    assert threads'.Keys - (x - {r}) == threads.Keys - x;
  }

  lemma FreedListed(sid: map<Tid, Sid>, once: set<Tid>, threadList: map<Sid, seq<Tid>>, dead: set<Sid>)
    requires Listed(sid, once, threadList)
    ensures Listed(sid, once, threadList - dead)
  {
    var list' := threadList - dead;
    forall s | s in list' ensures ListedAt(sid, once, list', s) {
      assert ListedAt(sid, once, threadList, s);
    }
  }

  lemma FreedOwned(rid: map<Sid, Rid>, first: map<Rid, Sid>, stateList: map<Rid, seq<Sid>>, r: Rid)
    requires Owned(rid, first, stateList)
    ensures Owned(rid - StatesOf(rid, r), first - {r}, stateList - {r})
  {
    var rid', first', list' := rid - StatesOf(rid, r), first - {r}, stateList - {r};
    forall k | k in first' ensures OwnedAt(rid', first', list', k) {
      assert OwnedAt(rid, first, stateList, k);
      assert StatesOf(rid', k) == StatesOf(rid, k);
    }
  }

  lemma FreedPaths(rid: map<Sid, Rid>, parent: map<Sid, Sid>, depth: map<Sid, nat>, r: Rid)
    requires Paths(rid, parent, depth)
    ensures var dead := StatesOf(rid, r); Paths(rid - dead, parent - dead, depth - dead)
  {
    var dead := StatesOf(rid, r);
    var rid', parent', depth' := rid - dead, parent - dead, depth - dead;
    forall s | s in rid' ensures PathAt(rid', parent', depth', s) {
      assert PathAt(rid, parent, depth, s);
    }
  }

  lemma FreedChildren(rid: map<Sid, Rid>, parent: map<Sid, Sid>, depth: map<Sid, nat>,
                      firstChild: map<Sid, Sid>, nextSibling: map<Sid, Sid>, r: Rid)
    requires Children(rid, parent, firstChild, nextSibling) && Paths(rid, parent, depth)
    requires parent.Keys <= rid.Keys
    ensures var dead := StatesOf(rid, r); Children(rid - dead, parent - dead, firstChild - dead, nextSibling - dead)
  {
    var dead := StatesOf(rid, r);
    var rid', parent', child', sibling' := rid - dead, parent - dead, firstChild - dead, nextSibling - dead;
    forall s | s in parent ensures parent[s] in rid && (s in dead <==> parent[s] in dead) {
      assert PathAt(rid, parent, depth, s);
    }
    forall s | s in rid' ensures ChildAt(parent', child', s) {
      assert ChildAt(parent, firstChild, s);
    }
    forall s | s in rid' ensures SiblingAt(parent', sibling', s) {
      assert SiblingAt(parent, nextSibling, s);
    }
  }

  lemma FreedCached(rid: map<Sid, Rid>, parent: map<Sid, Sid>, depth: map<Sid, nat>, inherited: map<Sid, Env>,
                    current: map<Sid, Env>, r: Rid)
    requires Paths(rid, parent, depth)
    requires forall s {:trigger CachedAt(parent, inherited, current, s)} :: s in rid ==>
               CachedAt(parent, inherited, current, s)
    ensures var dead := StatesOf(rid, r);
            forall s {:trigger CachedAt(parent - dead, inherited - dead, current - dead, s)} :: s in rid - dead ==>
              CachedAt(parent - dead, inherited - dead, current - dead, s)
  {
    var dead := StatesOf(rid, r);
    var parent', inherited', current' := parent - dead, inherited - dead, current - dead;
    forall s | s in rid - dead ensures CachedAt(parent', inherited', current', s) {
      assert PathAt(rid, parent, depth, s) && CachedAt(parent, inherited, current, s);
    }
  }

  // ----- a rule instance leaves -----

  /** The engine without rule instance r, its states, and what they held. */
  function Freed(e: State, r: Rid, dead: set<Sid>, ev: Events, table: seq<Sid>): State {
    State(e.th, RemoveStates(e.st, dead, |dead|), RemoveInst(e.ri, r), ev, table)
  }

  lemma FreeInstanceIs(c: Config, e: State, r: Rid)
    requires InstDomains(e.ri) && Owned(e.st.rid, e.ri.first, e.ri.stateList) && r in e.ri.rule
    ensures FreeInstance(c, e, r) ==
            Freed(e, r, StatesOf(e.st.rid, r), ReleaseAll(e.ev, e.st.event, InstStates(e.ri, r)),
                  DropLocks(c.same, Keys(c, e), e.table, e.ri.locks[r]))
  {
    FreedStates(e, r);
  }

  lemma FreeInstanceKeeps(c: Config, h: Claims, e: State, r: Rid, x: set<Rid>)
    requires Inv(c, h, e, x) && r in e.ri.rule && r in x && Into(e.th.sid, e.st.rid, r) == {}
    requires h.locks ==> Equivalence(c.same)
    ensures Inv(c, h, FreeInstance(c, e, r), x - {r})
  {
    var dead := StatesOf(e.st.rid, r);
    var ev := ReleaseAll(e.ev, e.st.event, InstStates(e.ri, r));
    var table := DropLocks(c.same, Keys(c, e), e.table, e.ri.locks[r]);
    FreeInstanceIs(c, e, r);
    FreedSound(c, e, r, dead, ev, table, x);
    if h.env {
      FreedCached(e.st.rid, e.st.parent, e.st.depth, e.st.inherited, e.st.current, r);
    }
    if h.locks {
      FreedLocked(c, e, r, dead, ev, table);
    }
  }

  /** The states that free_rule_instance walks are those of the instance. */
  lemma FreedStates(e: State, r: Rid)
    requires InstDomains(e.ri) && Owned(e.st.rid, e.ri.first, e.ri.stateList) && r in e.ri.rule
    ensures var ss := InstStates(e.ri, r);
            Distinct(ss) && Elements(ss) == StatesOf(e.st.rid, r) && |ss| == |StatesOf(e.st.rid, r)|
  {
    assert OwnedAt(e.st.rid, e.ri.first, e.ri.stateList, r);
    ListsSet(InstStates(e.ri, r), StatesOf(e.st.rid, r));
  }

  lemma FreedSound(c: Config, e: State, r: Rid, dead: set<Sid>, ev: Events, table: seq<Sid>, x: set<Rid>)
    requires Sound(c, e, x) && r in e.ri.rule && r in x && Into(e.th.sid, e.st.rid, r) == {}
    requires dead == StatesOf(e.st.rid, r) && ev == ReleaseAll(e.ev, e.st.event, InstStates(e.ri, r))
    ensures Sound(c, Freed(e, r, dead, ev, table), x - {r})
  {
    FreedAllLinked(c, e, r, dead, ev, table);
    FreedCounts(e, r, dead, ev, table, x);
    FreedRest(e, r, dead, ev, table);
  }

  lemma FreedCounts(e: State, r: Rid, dead: set<Sid>, ev: Events, table: seq<Sid>, x: set<Rid>)
    requires dead == StatesOf(e.st.rid, r) && r in x
    requires Counted(e.th.sid, e.st.rid, e.ri.threads) && Alive(e.ri.threads, e.ri.list, x)
    requires Listed(e.th.sid, e.th.onlyOnce, e.st.threadList)
    requires Owned(e.st.rid, e.ri.first, e.ri.stateList) && e.st.count == |e.st.rid|
    ensures var f := Freed(e, r, dead, ev, table);
            && Counted(f.th.sid, f.st.rid, f.ri.threads) && Alive(f.ri.threads, f.ri.list, x - {r})
            && Listed(f.th.sid, f.th.onlyOnce, f.st.threadList)
            && Owned(f.st.rid, f.ri.first, f.ri.stateList) && f.st.count == |f.st.rid|
  {
    FreedCounted(e.th.sid, e.st.rid, e.ri.threads, e.ri.list, x, r);
    FreedListed(e.th.sid, e.th.onlyOnce, e.st.threadList, dead);
    FreedOwned(e.st.rid, e.ri.first, e.ri.stateList, r);
    FreedSize(e.st.rid, dead);
  }

  lemma FreedRest(e: State, r: Rid, dead: set<Sid>, ev: Events, table: seq<Sid>)
    requires InstDomains(e.ri) && LinkDomains(e.st) && Owned(e.st.rid, e.ri.first, e.ri.stateList) && r in e.ri.rule
    requires dead == StatesOf(e.st.rid, r) && ev == ReleaseAll(e.ev, e.st.event, InstStates(e.ri, r))
    requires Referenced(e.st.event, e.ev) && Active(e.ev) && Tree(e.st)
    ensures var f := Freed(e, r, dead, ev, table); Referenced(f.st.event, f.ev) && Active(f.ev) && Tree(f.st)
  {
    FreedEvents(e, r);
    FreedPaths(e.st.rid, e.st.parent, e.st.depth, r);
    FreedChildren(e.st.rid, e.st.parent, e.st.depth, e.st.firstChild, e.st.nextSibling, r);
  }

  lemma FreedEvents(e: State, r: Rid)
    requires InstDomains(e.ri) && Owned(e.st.rid, e.ri.first, e.ri.stateList) && r in e.ri.rule
    requires Referenced(e.st.event, e.ev) && Active(e.ev)
    ensures var ev := ReleaseAll(e.ev, e.st.event, InstStates(e.ri, r));
            Referenced(e.st.event - StatesOf(e.st.rid, r), ev) && Active(ev)
  {
    FreedStates(e, r);
    ReleaseAllKeeps(e.st.event, e.ev, InstStates(e.ri, r));
  }

  lemma FreedSize(rid: map<Sid, Rid>, dead: set<Sid>)
    requires dead <= rid.Keys
    ensures |rid - dead| == |rid| - |dead|
  {
    KeysMinus(rid, dead);
    assert |rid.Keys - dead| == |rid.Keys| - |dead|;
  }

  lemma FreedAllLinked(c: Config, e: State, r: Rid, dead: set<Sid>, ev: Events, table: seq<Sid>)
    requires Linked(c, e) && r in e.ri.rule && Into(e.th.sid, e.st.rid, r) == {} && dead == StatesOf(e.st.rid, r)
    ensures Linked(c, Freed(e, r, dead, ev, table))
  {
    FreedLinked(c, e.th.sid, e.th.trans, e.st.rid, e.st.def, e.ri.rule, r);
    FreedData(e.st, dead, |dead|);
    FreedLinks(e.st, dead, |dead|);
    FreedInsts(e.ri, r);
    KeysMinus(e.st.rid, dead);
    KeysMinus(e.ri.rule, {r});
  }

  lemma FreedData(st: States, dead: set<Sid>, n: nat)
    requires DataDomains(st)
    ensures DataDomains(RemoveStates(st, dead, n))
  {
    KeysMinus(st.rid, dead);
    KeysMinus(st.def, dead);
    KeysMinus(st.depth, dead);
    KeysMinus(st.inherited, dead);
    KeysMinus(st.current, dead);
    KeysMinus(st.threadList, dead);
  }

  lemma FreedLinks(st: States, dead: set<Sid>, n: nat)
    requires LinkDomains(st)
    ensures LinkDomains(RemoveStates(st, dead, n))
  {
    KeysMinus(st.rid, dead);
    KeysMinus(st.parent, dead);
    KeysMinus(st.firstChild, dead);
    KeysMinus(st.nextSibling, dead);
    KeysMinus(st.event, dead);
  }

  lemma FreedInsts(ri: Insts, r: Rid)
    requires InstDomains(ri)
    ensures InstDomains(RemoveInst(ri, r))
  {
    KeysMinus(ri.rule, {r});
    KeysMinus(ri.first, {r});
    KeysMinus(ri.stateList, {r});
    KeysMinus(ri.threads, {r});
    KeysMinus(ri.locks, {r});
  }

  lemma FreedKey(c: Config, rule: map<Rid, nat>, rid: map<Sid, Rid>, current: map<Sid, Env>, inherited: map<Sid, Env>,
                 dead: set<Sid>, r: Rid, s: Sid)
    requires s in rid && s !in dead && rid[s] != r
    ensures KeyOf(c, rule - {r}, rid - dead, current - dead, inherited - dead, s)
            == KeyOf(c, rule, rid, current, inherited, s)
  {
  }

  lemma FreedLocked(c: Config, e: State, r: Rid, dead: set<Sid>, ev: Events, table: seq<Sid>)
    requires Linked(c, e) && Locked(c, e) && r in e.ri.rule && Into(e.th.sid, e.st.rid, r) == {} && Equivalence(c.same)
    requires dead == StatesOf(e.st.rid, r) && table == DropLocks(c.same, Keys(c, e), e.table, e.ri.locks[r])
    ensures Locked(c, Freed(e, r, dead, ev, table))
  {
    hide LockTable, ThreadsHeld, ThreadsLinked, StatesLinked, RulesInRange, Kept, DropLocks, KeyOf, Below,
         ThreadDomains, StateDomains;
    var f := Freed(e, r, dead, ev, table);
    var keys, keys' := Keys(c, e), Keys(c, f);
    FreedKeys(c, e, r, dead, ev, table);
    DropOwnLocks(c.same, keys, e.table, e.st.rid, e.ri.locks, r);
    FreedTable(c.same, keys, keys', e.table, table, e.st.rid, f.st.rid, e.ri.locks, r);
    ThreadsInLive(c, e);
    forall t | t in e.th.sid ensures e.st.rid[e.th.sid[t]] != r {
      assert t !in Into(e.th.sid, e.st.rid, r);
    }
    FreedHeld(c.same, keys, keys', e.table, table, e.st.rid, f.st.rid, e.th.sid, e.th.onlyOnce, r);
  }

  lemma FreedKeys(c: Config, e: State, r: Rid, dead: set<Sid>, ev: Events, table: seq<Sid>)
    requires dead == StatesOf(e.st.rid, r)
    ensures var f := Freed(e, r, dead, ev, table);
            forall s :: s in e.st.rid && e.st.rid[s] != r ==> Kept(Keys(c, e), Keys(c, f), e.st.rid, f.st.rid, s)
  {
    var f := Freed(e, r, dead, ev, table);
    forall s | s in e.st.rid && e.st.rid[s] != r ensures Kept(Keys(c, e), Keys(c, f), e.st.rid, f.st.rid, s) {
      FreedKey(c, e.ri.rule, e.st.rid, e.st.current, e.st.inherited, dead, r, s);
    }
  }

  // ----- the reaper -----

  lemma RemoveUnlinked(st: States, s: Sid, q: seq<Tid>, dead: set<Sid>, n: nat)
    requires s in dead
    ensures RemoveStates(st.(threadList := st.threadList[s := q]), dead, n) == RemoveStates(st, dead, n)
  {
    assert st.threadList[s := q] - dead == st.threadList - dead;
  }

  /** The list of a state instance that is freed at once need not be kept up to date. */
  lemma UnlinkFreed(c: Config, e: State, r: Rid, s: Sid, t: Tid)
    requires s in Elements(InstStates(e.ri, r))
    ensures FreeInstance(c, Unlink(e, s, t), r) == FreeInstance(c, e, r)
  {
    var ss := InstStates(e.ri, r);
    RemoveUnlinked(e.st, s, Without(Get(e.st.threadList, s, []), t), Elements(ss), |ss|);
    assert Keys(c, Unlink(e, s, t)) == Keys(c, e);
  }

  lemma AliveListed(threads: map<Rid, int>, list: seq<Rid>, r: Rid)
    requires Alive(threads, list, {}) && r in threads
    ensures r in list
  {
    assert r in multiset(threads.Keys - {});
    assert r in multiset(list);
  }

  lemma ReapIs(c: Config, e: State)
    requires Sound(c, e, {}) && e.th.cur != []
    ensures var s := SidOf(e.th, e.th.cur[0]);
            Reap(c, e) == if Emptied(e) == {} then Dropped(e) else FreeInstance(c, Dropped(e), RidOf(e.st, s))
  {
    hide Queued, Counted, Listed, Tree, Alive, Referenced, Active, FreeInstance;
    var t := e.th.cur[0];
    var s := SidOf(e.th, t);
    var r := RidOf(e.st, s);
    CurrentLinked(c, e);
    if Emptied(e) != {} {
      AliveListed(e.ri.threads, e.ri.list, r);
      FreedStates(e, r);
      UnlinkFreed(c, Delist(DropThread(e), r), r, s, t);
    }
  }

  lemma ReapKeeps(c: Config, h: Claims, e: State)
    requires Inv(c, h, e, {}) && e.th.cur != []
    requires h.locks ==> Equivalence(c.same)
    ensures Inv(c, h, Reap(c, e), {}) && Reap(c, e).th == RemoveCurrent(e.th)
  {
    hide Linked, Queued, Alive, Listed, Owned, Referenced, Active, Tree;
    ReapIs(c, e);
    DroppedKeeps(c, h, e);
    var s := SidOf(e.th, e.th.cur[0]);
    var r := RidOf(e.st, s);
    if Emptied(e) != {} {
      var f := Dropped(e);
      assert CountedAt(f.th.sid, f.st.rid, f.ri.threads, r);
      assert Into(f.th.sid, f.st.rid, r) == {};
      FreeInstanceKeeps(c, h, f, r, {r});
      assert {r} - {r} == {};
    }
  }
}
