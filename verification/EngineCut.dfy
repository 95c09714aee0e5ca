/**
 The cut: killing the threads of a part of the tree of state instances
 (src/lang.c, do_recursive_cut and issdl_cut).
 */
module EngineCut {
  import opened Engine
  import opened EngineInvariants
  import opened EngineUpdates
  import opened EngineSimulation

  ghost predicate Ok(st: States) {
    Tree(st) && StateDomains(st) && Below(st.rid.Keys, st.next)
  }

  lemma {:induction false} DepthBelow(st: States, s: Sid)
    requires Ok(st) && s in st.rid
    ensures st.depth[s] <= s < st.next
    decreases s
  {
    assert PathAt(st.rid, st.parent, st.depth, s) && IsBelow(s, st.next);
    if s in st.parent {
      DepthBelow(st, st.parent[s]);
    }
  }

  /** A first child is one deeper; a next sibling is as deep and older. */
  lemma Links(st: States, s: Sid)
    requires Ok(st) && s in st.rid
    ensures s in st.firstChild ==>
              var k := st.firstChild[s];
              k in st.rid && k in st.parent && st.parent[k] == s && st.depth[k] == st.depth[s] + 1
    ensures s in st.nextSibling ==>
              var n := st.nextSibling[s];
              && n in st.rid && n < s && s in st.parent && n in st.parent
              && st.parent[n] == st.parent[s] && st.depth[n] == st.depth[s]
  {
    assert ChildAt(st.parent, st.firstChild, s) && SiblingAt(st.parent, st.nextSibling, s);
    if s in st.firstChild {
      assert PathAt(st.rid, st.parent, st.depth, st.firstChild[s]);
    }
    if s in st.nextSibling {
      assert PathAt(st.rid, st.parent, st.depth, s) && PathAt(st.rid, st.parent, st.depth, st.nextSibling[s]);
    }
  }

  /** What do_recursive_cut reaches: the state instance, what its first child reaches,
      and what its next sibling reaches. */
  ghost function Reach(st: States, s: Sid): set<Sid>
    requires Ok(st) && s in st.rid
    decreases st.next - st.depth[s], s
  {
    Links(st, s);
    DepthBelow(st, s);
    if s in st.firstChild then
      DepthBelow(st, st.firstChild[s]);
      {s} + Reach(st, st.firstChild[s]) + (if s in st.nextSibling then Reach(st, st.nextSibling[s]) else {})
    else {s} + if s in st.nextSibling then Reach(st, st.nextSibling[s]) else {}
  }

  /** The ancestor of x, or x itself, at depth d. */
  function Ancestor(st: States, x: Sid, d: nat): Sid
    decreases x
  {
    if x in st.depth && st.depth[x] > d && x in st.parent && st.parent[x] < x then Ancestor(st, st.parent[x], d) else x
  }

  lemma {:induction false} AncestorIs(st: States, x: Sid, d: nat)
    requires Ok(st) && x in st.rid && st.depth[x] >= d
    ensures Ancestor(st, x, d) in st.rid && st.depth[Ancestor(st, x, d)] == d
    ensures st.depth[x] > d ==>
              Ancestor(st, x, d + 1) in st.parent && st.parent[Ancestor(st, x, d + 1)] == Ancestor(st, x, d)
    decreases x
  {
    assert PathAt(st.rid, st.parent, st.depth, x);
    if st.depth[x] > d {
      AncestorIs(st, st.parent[x], d);
    }
  }

  /** x descends from s, or from an older sibling of s. */
  ghost predicate BelowOrOlder(st: States, s: Sid, x: Sid)
    requires Ok(st) && s in st.rid
  {
    && x in st.rid && st.depth[x] >= st.depth[s]
    && var y := Ancestor(st, x, st.depth[s]);
       y == s || (y < s && s in st.parent && y in st.parent && st.parent[y] == st.parent[s])
  }

  /** The recursive cut reaches the descendants of its start and, as it follows the
      sibling link of the start as well, those of the older siblings of the start. */
  lemma {:induction false} ReachIs(st: States, s: Sid, x: Sid)
    requires Ok(st) && s in st.rid
    ensures x in Reach(st, s) <==> BelowOrOlder(st, s, x)
    decreases st.next - st.depth[s], s
  {
    hide Ok, Reach;
    Links(st, s);
    DepthBelow(st, s);
    ReachStep(st, s);
    if s in st.firstChild {
      DepthBelow(st, st.firstChild[s]);
      ReachIs(st, st.firstChild[s], x);
      ChildSide(st, s, x);
    } else {
      NoChildSide(st, s, x);
    }
    if s in st.nextSibling {
      ReachIs(st, st.nextSibling[s], x);
      SiblingSide(st, s, x);
    } else {
      NoSiblingSide(st, s, x);
    }
    SelfSide(st, s, x);
  }

  lemma ReachStep(st: States, s: Sid)
    requires Ok(st) && s in st.rid
    ensures s in st.firstChild ==> st.firstChild[s] in st.rid
    ensures s in st.nextSibling ==> st.nextSibling[s] in st.rid
    ensures Reach(st, s) == {s} + (if s in st.firstChild then Reach(st, st.firstChild[s]) else {})
                                + (if s in st.nextSibling then Reach(st, st.nextSibling[s]) else {})
  {
    Links(st, s);
  }

  /** x descends from s and is not s. */
  ghost predicate Under(st: States, s: Sid, x: Sid)
    requires Ok(st) && s in st.rid
  {
    x in st.rid && st.depth[x] > st.depth[s] && Ancestor(st, x, st.depth[s]) == s
  }

  ghost predicate Older(st: States, s: Sid, x: Sid)
    requires Ok(st) && s in st.rid
  {
    && x in st.rid && st.depth[x] >= st.depth[s]
    && var y := Ancestor(st, x, st.depth[s]);
       y < s && s in st.parent && y in st.parent && st.parent[y] == st.parent[s]
  }

  lemma SelfSide(st: States, s: Sid, x: Sid)
    requires Ok(st) && s in st.rid
    ensures BelowOrOlder(st, s, x) <==> x == s || Under(st, s, x) || Older(st, s, x)
  {
  }

  lemma ChildSide(st: States, s: Sid, x: Sid)
    requires Ok(st) && s in st.rid && s in st.firstChild
    ensures st.firstChild[s] in st.rid && (Under(st, s, x) <==> BelowOrOlder(st, st.firstChild[s], x))
  {
    var k := st.firstChild[s];
    Links(st, s);
    if x in st.rid && st.depth[x] > st.depth[s] {
      AncestorIs(st, x, st.depth[s]);
      AncestorIs(st, x, st.depth[s] + 1);
      assert ChildAt(st.parent, st.firstChild, s);
    }
  }

  lemma NoChildSide(st: States, s: Sid, x: Sid)
    requires Ok(st) && s in st.rid && s !in st.firstChild
    ensures !Under(st, s, x)
  {
    if x in st.rid && st.depth[x] > st.depth[s] {
      AncestorIs(st, x, st.depth[s]);
      assert ChildAt(st.parent, st.firstChild, s);
    }
  }

  lemma SiblingSide(st: States, s: Sid, x: Sid)
    requires Ok(st) && s in st.rid && s in st.nextSibling
    ensures st.nextSibling[s] in st.rid && (Older(st, s, x) <==> BelowOrOlder(st, st.nextSibling[s], x))
  {
    Links(st, s);
    assert SiblingAt(st.parent, st.nextSibling, s);
  }

  lemma NoSiblingSide(st: States, s: Sid, x: Sid)
    requires Ok(st) && s in st.rid && s !in st.nextSibling
    ensures !Older(st, s, x)
  {
    assert SiblingAt(st.parent, st.nextSibling, s);
  }

  /** So a cut stays in the subtree of its start exactly when the start has no older
      sibling. */
  lemma CutStaysBelow(st: States, s: Sid)
    requires Ok(st) && s in st.rid
    ensures (forall x :: x in Reach(st, s) ==> Ancestor(st, x, st.depth[s]) == s) <==> s !in st.nextSibling
  {
    hide Reach;
    if s in st.nextSibling {
      var n := st.nextSibling[s];
      Links(st, s);
      ReachIs(st, s, n);
    } else {
      forall x | x in Reach(st, s) ensures Ancestor(st, x, st.depth[s]) == s {
        ReachIs(st, s, x);
        NoSiblingSide(st, s, x);
      }
    }
  }

  // ----- the threads -----

  /** The threads in the lists of the state instances that are reached. */
  ghost function Doomed(th: Threads, threadList: map<Sid, seq<Tid>>, reach: set<Sid>): set<Tid> {
    set s, t | s in reach && s in threadList && t in threadList[s] && t !in th.onlyOnce :: t
  }

  /** The cut kills exactly the non-initial threads that wait in what it reaches. */
  lemma DoomedWait(c: Config, h: Claims, e: State, x: set<Rid>, s: Sid)
    requires Inv(c, h, e, x) && s in e.st.rid
    ensures Ok(e.st)
    ensures forall t :: t in Doomed(e.th, e.st.threadList, Reach(e.st, s)) <==>
              t in e.th.sid && t !in e.th.onlyOnce && BelowOrOlder(e.st, s, e.th.sid[t])
  {
    var reach := Reach(e.st, s);
    forall t ensures t in Doomed(e.th, e.st.threadList, reach) <==>
                     t in e.th.sid && t !in e.th.onlyOnce && BelowOrOlder(e.st, s, e.th.sid[t]) {
      DoomedThread(e.th, e.st, s, t);
    }
  }

  lemma DoomedThread(th: Threads, st: States, s: Sid, t: Tid)
    requires Ok(st) && s in st.rid && Listed(th.sid, th.onlyOnce, st.threadList)
    ensures t in Doomed(th, st.threadList, Reach(st, s)) <==>
            t in th.sid && t !in th.onlyOnce && BelowOrOlder(st, s, th.sid[t])
  {
    hide Reach, BelowOrOlder, Tree;
    var reach := Reach(st, s);
    if t in Doomed(th, st.threadList, reach) {
      var k :| k in reach && k in st.threadList && t in st.threadList[k];
      InList(th, st, k, t);
      ReachIs(st, s, k);
    }
    if t in th.sid && t !in th.onlyOnce && BelowOrOlder(st, s, th.sid[t]) {
      ReachIs(st, s, th.sid[t]);
      ReachLive(st, s, th.sid[t]);
      InList(th, st, th.sid[t], t);
    }
  }

  lemma ReachLive(st: States, s: Sid, x: Sid)
    requires Ok(st) && s in st.rid && BelowOrOlder(st, s, x)
    ensures x in st.threadList
  {
  }

  lemma InList(th: Threads, st: States, k: Sid, t: Tid)
    requires Listed(th.sid, th.onlyOnce, st.threadList) && k in st.threadList
    ensures t in st.threadList[k] <==> t in th.sid && th.sid[t] == k && t !in th.onlyOnce
  {
    assert ListedAt(th.sid, th.onlyOnce, st.threadList, k);
    assert t in multiset(st.threadList[k]) <==> t in Own(th.sid, th.onlyOnce, k);
  }

  /** The threads that the cut built-in flags when bytecode of state instance s calls it
      with the name of the states named. */
  ghost function CutKills(e: State, s: Sid, named: set<nat>): set<Tid>
    requires Ok(e.st) && Destination(e.st, s, named) in e.st.rid
  {
    Doomed(e.th, e.st.threadList, Reach(e.st, Destination(e.st, s, named)))
  }

  /** As an effect of bytecode on the engine, a cut kills exactly the non-initial threads
      that wait below its destination, or below an older sibling of the destination, and
      keeps every invariant. */
  lemma CutEffect(c: Config, h: Claims, e: State, x: set<Rid>, s: Sid, named: set<nat>)
    requires Inv(c, h, e, x) && s in e.st.rid
    ensures Ok(e.st) && Destination(e.st, s, named) in e.st.rid
    ensures var d := Destination(e.st, s, named);
            var e1 := Apply(e, s, Effect(CurrentEnv(e.st, s), CutKills(e, s, named)));
            && Inv(c, h, e1, x)
            && forall t :: t in e1.th.killed <==>
                 t in e.th.killed || (t in e.th.sid && t !in e.th.onlyOnce && BelowOrOlder(e.st, d, e.th.sid[t]))
  {
    hide Reach, BelowOrOlder, Doomed;
    SoundOk(c, h, e, x);
    DestinationLive(e.st, s, named);
    hide Inv;
    var d := Destination(e.st, s, named);
    DoomedWait(c, h, e, x, d);
    var f := Effect(CurrentEnv(e.st, s), CutKills(e, s, named));
    SameEnv(c, e, s);
    ApplyKeeps(c, h, e, s, f, x);
  }

  lemma SoundOk(c: Config, h: Claims, e: State, x: set<Rid>)
    requires Inv(c, h, e, x)
    ensures Ok(e.st)
  {
  }

  lemma SameEnv(c: Config, e: State, s: Sid)
    ensures Keys(c, e.(st := SetEnv(e.st, s, CurrentEnv(e.st, s))))(s) == Keys(c, e)(s)
  {
  }

  lemma {:induction false} DestinationLive(st: States, s: Sid, named: set<nat>)
    requires Ok(st) && s in st.rid
    ensures Destination(st, s, named) in st.rid
    decreases s
  {
    assert PathAt(st.rid, st.parent, st.depth, s);
    if s in st.parent && Get(st.def, s, 0) !in named {
      DestinationLive(st, st.parent[s], named);
    }
  }

  function Waiting(th: Threads, q: seq<Tid>): set<Tid> { set t | t in q && t !in th.onlyOnce }

  lemma DoomedSplit(th: Threads, threadList: map<Sid, seq<Tid>>, s: Sid, a: set<Sid>, b: set<Sid>)
    ensures Doomed(th, threadList, {s} + a + b)
            == Waiting(th, Get(threadList, s, [])) + Doomed(th, threadList, a) + Doomed(th, threadList, b)
  {
  }

  lemma DoomedNone(th: Threads, threadList: map<Sid, seq<Tid>>)
    ensures Doomed(th, threadList, {}) == {}
  {
  }

  lemma KillTwice(th: Threads, p: set<Tid>, q: set<Tid>)
    ensures Kill(Kill(th, p), q) == Kill(th, p + q) && Kill(th, p).onlyOnce == th.onlyOnce && Kill(th, {}) == th
  {
    assert th.killed + ({} * th.sid.Keys) == th.killed;
    assert th.killed + (p * th.sid.Keys) + (q * th.sid.Keys) == th.killed + ((p + q) * th.sid.Keys);
  }

  lemma DoomedSame(a: Threads, b: Threads, threadList: map<Sid, seq<Tid>>, reach: set<Sid>)
    requires a.onlyOnce == b.onlyOnce
    ensures Doomed(a, threadList, reach) == Doomed(b, threadList, reach)
  {
  }

  // ----- the program -----

  class Cutter {
    const st: States
    var th: Threads
    var pruned: set<Sid>

    constructor (states: States, threads: Threads)
      ensures st == states && th == threads && pruned == {}
    {
      st, th, pruned := states, threads, {};
    }

    /** The threads of one state instance. */
    method KillList(q: seq<Tid>)
      modifies this`th
      ensures th == Kill(old(th), Waiting(old(th), q))
    {
      var i := 0;
      while i < |q|
        invariant 0 <= i <= |q|
        invariant th == Kill(old(th), Waiting(old(th), q[..i]))
      {
        assert q[..i + 1] == q[..i] + [q[i]];
        if q[i] !in th.onlyOnce && q[i] in th.sid {
          th := th.(killed := th.killed + {q[i]});
        }
        i := i + 1;
      }
      assert q[..|q|] == q;
    }

    /** do_recursive_cut: terminates, prunes what it reaches and kills its threads. */
    method DoRecursiveCut(s: Sid)
      requires Ok(st) && s in st.rid
      modifies this`th, this`pruned
      ensures pruned == old(pruned) + Reach(st, s)
      ensures th == Kill(old(th), Doomed(old(th), st.threadList, Reach(st, s)))
      decreases st.next - st.depth[s], s
    {
      hide Ok, Reach, Kill, Doomed, Waiting;
      Links(st, s);
      DepthBelow(st, s);
      ReachStep(st, s);
      ghost var list, below, beside := st.threadList, {}, {};
      pruned := pruned + {s};
      KillList(Get(st.threadList, s, []));
      ghost var mine := Waiting(old(th), Get(list, s, []));
      KillTwice(th, {}, {});
      KillTwice(old(th), mine, {});
      DoomedNone(old(th), list);
      if s in st.firstChild {
        DepthBelow(st, st.firstChild[s]);
        below := Reach(st, st.firstChild[s]);
        DoomedSame(th, old(th), list, below);
        DoRecursiveCut(st.firstChild[s]);
      }
      KillTwice(old(th), mine, Doomed(old(th), list, below));
      KillTwice(th, {}, {});
      KillTwice(old(th), mine + Doomed(old(th), list, below), {});
      if s in st.nextSibling {
        beside := Reach(st, st.nextSibling[s]);
        DoomedSame(th, old(th), list, beside);
        DoRecursiveCut(st.nextSibling[s]);
      }
      KillTwice(old(th), mine + Doomed(old(th), list, below), Doomed(old(th), list, beside));
      DoomedSplit(old(th), list, s, below, beside);
    }

    /** issdl_cut finds the nearest ancestor with the given name, or the initial one. */
    method FindDestination(s: Sid, named: set<nat>) returns (d: Sid)
      requires Ok(st) && s in st.rid
      ensures d == Destination(st, s, named) && d in st.rid
    {
      d := s;
      while d in st.parent && Get(st.def, d, 0) !in named
        invariant d in st.rid && Destination(st, s, named) == Destination(st, d, named)
        decreases d
      {
        assert PathAt(st.rid, st.parent, st.depth, d);
        d := st.parent[d];
      }
    }
  }

  function Destination(st: States, s: Sid, named: set<nat>): Sid
    decreases s
  {
    if s in st.parent && st.parent[s] < s && Get(st.def, s, 0) !in named then Destination(st, st.parent[s], named)
    else s
  }
}
