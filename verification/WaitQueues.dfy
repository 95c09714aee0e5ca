/**
 The wait queues as linked lists: the threads point to their successors, and the
 event loop moves them between the queues while it walks one of them.
 */
module WaitQueues {
  import opened QueueOrder

  /** wait_thread_t, as far as the queues are concerned; inst is the rule instance of
      the state instance that the thread waits in. */
  class WaitThread {
    const inst: nat
    var next: WaitThread?
    var bump: bool
    var killed: bool

    constructor (inst: nat)
      ensures next == null && !bump && !killed && this.inst == inst
    {
      this.inst, next, bump, killed := inst, null, false, false;
    }
  }

  ghost predicate Distinct(q: seq<WaitThread>) {
    forall i, j :: 0 <= i < j < |q| ==> q[i] != q[j]
  }

  ghost predicate Disjoint(p: seq<WaitThread>, q: seq<WaitThread>) {
    forall t :: t in p ==> t !in q
  }

  /** Every thread of q points to the next one, and the last to end. */
  ghost predicate Chain(q: seq<WaitThread>, end: WaitThread?)
    reads q
  {
    forall i :: 0 <= i < |q| ==> q[i].next == After(q, i, end)
  }

  function After(q: seq<WaitThread>, i: nat, end: WaitThread?): WaitThread? {
    if i + 1 < |q| then q[i + 1] else end
  }

  ghost predicate Links(q: seq<WaitThread>)
    reads q
  {
    Chain(q, null)
  }

  function First(q: seq<WaitThread>): WaitThread? { if q == [] then null else q[0] }

  lemma ChainJoin(q: seq<WaitThread>, r: seq<WaitThread>, end: WaitThread?)
    requires Chain(q, if r == [] then end else r[0]) && Chain(r, end)
    ensures Chain(q + r, end)
  {
    var p := q + r;
    forall i | 0 <= i < |p| ensures p[i].next == After(p, i, end) {
      if i < |q| {
        assert p[i] == q[i];
      } else {
        assert p[i] == r[i - |q|];
      }
    }
  }

  lemma LinksOne(t: WaitThread)
    requires t.next == null
    ensures Links([t])
  {
  }

  lemma ChainTail(q: seq<WaitThread>, end: WaitThread?)
    requires Chain(q, end) && q != []
    ensures Chain(q[1..], end)
  {
    forall i | 0 <= i < |q| - 1 ensures q[1..][i].next == After(q[1..], i, end) {
      assert q[1..][i] == q[i + 1];
    }
  }

  lemma DistinctJoin(q: seq<WaitThread>, r: seq<WaitThread>)
    requires Distinct(q) && Distinct(r) && Disjoint(q, r)
    ensures Distinct(q + r)
  {
    var p := q + r;
    forall i, j | 0 <= i < j < |p| ensures p[i] != p[j] {
      if i < |q| <= j {
        assert p[i] in q && p[j] in r;
      } else if i < |q| {
        assert p[i] == q[i] && p[j] == q[j];
      } else {
        assert p[i] == r[i - |q|] && p[j] == r[j - |q|];
      }
    }
  }

  lemma DistinctTail(q: seq<WaitThread>)
    requires Distinct(q) && q != []
    ensures Distinct(q[1..]) && q[0] !in q[1..]
  {
    forall i, j | 0 <= i < j < |q| - 1 ensures q[1..][i] != q[1..][j] {
      assert q[1..][i] == q[i + 1] && q[1..][j] == q[j + 1];
    }
  }

  lemma DisjointOne(q: seq<WaitThread>, t: WaitThread)
    requires t !in q
    ensures Disjoint(q, [t]) && Disjoint([t], q) && Distinct([t])
  {
  }

  lemma DisjointSum(q: seq<WaitThread>, r: seq<WaitThread>, s: seq<WaitThread>)
    requires Disjoint(q, s) && Disjoint(r, s)
    ensures Disjoint(q + r, s)
  {
  }

  lemma DisjointTail(q: seq<WaitThread>, r: seq<WaitThread>)
    requires Disjoint(r, q) && q != []
    ensures Disjoint(r, q[1..]) && q[0] !in r
  {
    assert forall t :: t in q[1..] ==> t in q;
    assert q[0] in q;
  }

  lemma Elsewhere(q: seq<WaitThread>, r: seq<WaitThread>)
    requires Disjoint(q, r)
    ensures q != [] ==> q[0] !in r && q[|q| - 1] !in r
    ensures r != [] ==> r[0] !in q && r[|r| - 1] !in q
  {
    assert q != [] ==> q[0] in q && q[|q| - 1] in q;
    assert r != [] ==> r[0] in r && r[|r| - 1] in r;
  }

  lemma NoThreads()
    ensures Links([]) && Distinct([])
    ensures forall q: seq<WaitThread> {:trigger Disjoint(q, [])} {:trigger Disjoint([], q)} ::
              Disjoint(q, []) && Disjoint([], q)
  {
  }

  /** head and tail are the ends of the linked list q. */
  ghost predicate IsQueue(q: seq<WaitThread>, head: WaitThread?, tail: WaitThread?)
    reads q
  {
    && Links(q) && Distinct(q)
    && head == First(q)
    && tail == (if q == [] then null else q[|q| - 1])
  }

  /** The ends of two lists that were linked. */
  lemma JoinedQueue(q: seq<WaitThread>, r: seq<WaitThread>, qHead: WaitThread?, qTail: WaitThread?,
                    rHead: WaitThread?, rTail: WaitThread?)
    requires Links(q + r) && Distinct(q + r)
    requires qHead == First(q) && qTail == (if q == [] then null else q[|q| - 1])
    requires rHead == First(r) && rTail == (if r == [] then null else r[|r| - 1])
    ensures IsQueue(q + r, if qHead == null then rHead else qHead, if rTail == null then qTail else rTail)
  {
    assert q == [] ==> q + r == r;
  }

  /** The list r, which starts at head, is linked behind the list q, which ends at tail. */
  method Connect(tail: WaitThread, head: WaitThread?, ghost q: seq<WaitThread>, ghost r: seq<WaitThread>)
    requires q != [] && Links(q) && Distinct(q) && tail == q[|q| - 1]
    requires Links(r) && head == First(r) && Disjoint(q, r)
    modifies tail`next
    ensures Links(q + r)
  {
    assert tail in q;
    tail.next := head;
    ChainJoin(q, r, null);
  }

  /** The threads that are reached from the thread number k of a linked list. */
  method FollowList(start: WaitThread, ghost all: seq<WaitThread>, ghost k: nat) returns (q: seq<WaitThread>)
    requires Links(all) && k < |all| && all[k] == start
    ensures q == all[k..]
  {
    q := [];
    var t: WaitThread? := start;
    while t != null
      invariant k + |q| <= |all| && q == all[k..k + |q|]
      invariant t == if k + |q| < |all| then all[k + |q|] else null
      decreases |all| - |q|
    {
      q := q + [t];
      t := t.next;
    }
  }

  lemma LinkAt(q: seq<WaitThread>, k: nat)
    requires Links(q) && Distinct(q) && k < |q|
    ensures q[k].next == After(q, k, null) && forall j :: 0 <= j < |q| && j != k ==> q[j] != q[k]
  {
  }

  /** Thread number j is flagged by a loop from thread k that has come to thread i. */
  ghost predicate MarkedTo(q: seq<WaitThread>, k: nat, i: nat, inst: nat, before: seq<bool>)
    requires |before| == |q|
    reads q
  {
    forall j :: 0 <= j < |q| ==> q[j].killed == (before[j] || (k <= j < i && q[j].inst == inst))
  }

  ghost function Flags(q: seq<WaitThread>): (flags: seq<bool>)
    reads q
    ensures |flags| == |q| && forall j :: 0 <= j < |q| ==> flags[j] == q[j].killed
  {
    seq(|q|, j requires 0 <= j < |q| reads q => q[j].killed)
  }

  /** A loop of mark_dead_rule: from thread number k of a linked list to its end, the
      threads of a rule instance are flagged. */
  method MarkList(start: WaitThread?, inst: nat, ghost q: seq<WaitThread>, ghost k: nat, ghost all: set<WaitThread>)
    requires Links(q) && Distinct(q) && k <= |q| && start == if k < |q| then q[k] else null
    requires forall u :: u in q ==> u in all
    modifies all`killed
    ensures forall u :: u in all ==> u.killed == (old(u.killed) || (u in q[k..] && u.inst == inst))
  {
    hide Distinct, Flags;
    var t := start;
    ghost var i := k;
    while t != null
      invariant k <= i <= |q| && t == if i < |q| then q[i] else null
      invariant MarkedTo(q, k, i, inst, old(Flags(q))) && Links(q)
      invariant forall u :: u in all && u !in q ==> u.killed == old(u.killed)
      decreases |q| - i
    {
      LinkAt(q, i);
      MarkOne(t, inst, q, k, i, old(Flags(q)));
      t := t.next;
      i := i + 1;
    }
    forall u | u in all ensures u.killed == (old(u.killed) || (u in q[k..] && u.inst == inst)) {
      if u in q {
        var j :| 0 <= j < |q| && q[j] == u;
        LinkAt(q, j);
        assert k <= j ==> q[k..][j - k] == u;
      }
    }
  }

  /** The links do not depend on the flags. */
  twostate lemma LinksStay(q: seq<WaitThread>)
    requires old(Links(q)) && forall u :: u in q ==> u.next == old(u.next)
    ensures Links(q)
  {
  }

  method MarkOne(t: WaitThread, inst: nat, ghost q: seq<WaitThread>, ghost k: nat, ghost i: nat,
                 ghost before: seq<bool>)
    requires Links(q) && k <= i < |q| && t == q[i] && |before| == |q| && MarkedTo(q, k, i, inst, before)
    requires forall j :: 0 <= j < |q| && j != i ==> q[j] != t
    modifies t`killed
    ensures Links(q) && MarkedTo(q, k, i + 1, inst, before)
  {
    hide After;
    if t.inst == inst {
      t.killed := true;
    }
  }

  /** What happens to a thread when the walk meets it: it was killed, or its transition
      is evaluated and creates that many threads; an initial thread is then reaped. */
  datatype Fate = Reaped | Evaluated(initial: bool, created: nat)

  class Queues {
    var newHead: WaitThread?
    var newTail: WaitThread?
    var retrigHead: WaitThread?
    var retrigTail: WaitThread?
    var curHead: WaitThread?
    var curTail: WaitThread?
    ghost var newQ: seq<WaitThread>
    ghost var retrigQ: seq<WaitThread>
    ghost var cur: seq<WaitThread>

    /** cur is the part of the current queue that the walk has not met. */
    ghost predicate Valid()
      reads this, newQ, retrigQ, cur
    {
      && IsQueue(newQ, newHead, newTail)
      && IsQueue(retrigQ, retrigHead, retrigTail)
      && Links(cur) && Distinct(cur) && (cur != [] ==> curTail == cur[|cur| - 1])
      && Disjoint(newQ, retrigQ) && Disjoint(newQ, cur) && Disjoint(retrigQ, cur)
    }

    constructor ()
      ensures Valid() && newQ == [] && retrigQ == [] && cur == []
    {
      newHead, newTail, retrigHead, retrigTail, curHead, curTail := null, null, null, null, null, null;
      newQ, retrigQ, cur := [], [], [];
    }

    /** A created thread joins the new queue. */
    method Append(t: WaitThread)
      requires Valid() && t !in newQ && t !in retrigQ && t !in cur && t.next == null
      modifies this`newHead, this`newTail, this`newQ, Last(newQ)`next
      ensures Valid() && newQ == old(newQ) + [t] && newTail == t
    {
      hide Chain, Distinct, Disjoint;
      Elsewhere(newQ, retrigQ);
      Elsewhere(newQ, cur);
      DisjointOne(newQ, t);
      DisjointOne(retrigQ, t);
      DisjointOne(cur, t);
      LinksOne(t);
      DisjointSum(newQ, [t], retrigQ);
      DisjointSum(newQ, [t], cur);
      if newTail != null {
        Connect(newTail, t, newQ, [t]);
        newTail := t;
      } else {
        assert newQ + [t] == [t];
        newHead := t;
        newTail := t;
      }
      DistinctJoin(newQ, [t]);
      newQ := newQ + [t];
    }

    /** q_cur = q_new @ q_retrig */
    method Merge()
      requires Valid() && cur == []
      modifies this, Last(newQ)`next
      ensures Valid() && newQ == [] && retrigQ == [] && cur == old(newQ) + old(retrigQ)
      ensures curHead == First(cur)
    {
      hide Chain, Links, Distinct, Disjoint;
      if newHead != null {
        Splice();
        TakeAll(newHead, newTail, newQ);
      } else {
        assert newQ + retrigQ == retrigQ;
        TakeAll(retrigHead, retrigTail, retrigQ);
      }
    }

    /** The current list is q, and the other two lists are empty. */
    method TakeAll(head: WaitThread?, tail: WaitThread?, ghost q: seq<WaitThread>)
      requires IsQueue(q, head, tail)
      modifies this
      ensures Valid() && newQ == [] && retrigQ == [] && cur == q && curHead == First(cur)
    {
      NoThreads();
      hide Chain, Links, Distinct, Disjoint;
      curHead := head;
      curTail := tail;
      newHead, newTail, retrigHead, retrigTail := null, null, null, null;
      newQ, retrigQ, cur := [], [], q;
    }

    /** The thread under evaluation between the queues that change. */
    lemma RestApart(t: WaitThread)
      requires Valid() && cur != [] && t == cur[0]
      ensures t !in newQ && t !in retrigQ && t !in cur[1..] && Links(cur[1..]) && Distinct(cur[1..])
      ensures Disjoint(newQ, cur[1..]) && Disjoint(retrigQ, cur[1..])
      ensures Distinct(retrigQ + [t]) && Disjoint(newQ, retrigQ + [t]) && Disjoint(retrigQ + [t], cur[1..])
      ensures Disjoint(retrigQ, [t])
      ensures retrigQ != [] ==> retrigTail !in newQ && retrigTail !in cur && retrigTail in retrigQ
    {
      ChainTail(cur, null);
      DistinctTail(cur);
      DisjointTail(cur, newQ);
      DisjointTail(cur, retrigQ);
      DisjointOne(retrigQ, t);
      DistinctJoin(retrigQ, [t]);
      Elsewhere(retrigQ, newQ);
      Elsewhere(retrigQ, cur);
    }

    /** q_retrig = q_retrig + t */
    method Retrigger(t: WaitThread)
      requires Valid() && cur != [] && t == cur[0]
      modifies this`retrigHead, this`retrigTail, this`retrigQ, this`cur, Last(retrigQ)`next, t`next
      ensures Valid() && retrigQ == old(retrigQ) + [t] && cur == old(cur)[1..] && retrigTail == t
    {
      hide Chain, Distinct, Disjoint;
      RestApart(t);
      t.next := null;
      LinksOne(t);
      if retrigHead != null {
        Connect(retrigTail, t, retrigQ, [t]);
        retrigTail := t;
      } else {
        assert retrigQ + [t] == [t];
        retrigHead := t;
        retrigTail := t;
      }
      retrigQ, cur := retrigQ + [t], cur[1..];
    }

    /** The thread under evaluation is freed. */
    method Drop(t: WaitThread)
      requires Valid() && cur != [] && t == cur[0]
      modifies this`curHead, this`cur, curTail`next
      ensures Valid() && cur == old(cur)[1..]
    {
      if t == curHead {
        curHead := t.next;
      }
      ChainTail(cur, null);
      DistinctTail(cur);
      if curTail != null {
        assert curTail in cur && curTail.next == null;
        curTail.next := null;
      }
      cur := cur[1..];
    }

    /** q_new = q_new @ q_retrig, with a bump behind each part. */
    method Commit()
      requires Valid()
      modifies this`newHead, this`newTail, this`retrigHead, this`retrigTail, this`newQ, this`retrigQ
      modifies Last(newQ), Last(retrigQ)`bump
      ensures Valid() && newQ == old(newQ) + old(retrigQ) && retrigQ == []
      ensures forall u :: u in newQ ==> (u.bump <==> old(u.bump) || u in Last(old(newQ)) + Last(old(retrigQ)))
    {
      hide Valid, Last;
      BumpTails();
      Splice();
    }

    /** The retrigger list is linked behind the new list. */
    method LinkBehind()
      requires Valid()
      modifies Last(newQ)`next
      ensures Links(newQ + retrigQ) && Distinct(newQ + retrigQ) && Disjoint(newQ + retrigQ, cur) && Links(cur)
    {
      hide Chain, Distinct, Disjoint;
      DistinctJoin(newQ, retrigQ);
      Elsewhere(newQ, cur);
      DisjointSum(newQ, retrigQ, cur);
      if newHead != null {
        Connect(newTail, retrigHead, newQ, retrigQ);
      } else {
        assert newQ + retrigQ == retrigQ;
      }
    }

    method Splice()
      requires Valid()
      modifies this`newHead, this`newTail, this`retrigHead, this`retrigTail, this`newQ, this`retrigQ, Last(newQ)`next
      ensures Valid() && newQ == old(newQ) + old(retrigQ) && retrigQ == []
    {
      hide Chain, Links, Distinct, Disjoint;
      ghost var q, r := newQ, retrigQ;
      LinkBehind();
      NoThreads();
      JoinedQueue(q, r, newHead, newTail, retrigHead, retrigTail);
      hide IsQueue;
      if newHead == null {
        newHead := retrigHead;
      }
      if retrigTail != null {
        newTail := retrigTail;
      }
      retrigHead, retrigTail := null, null;
      newQ, retrigQ := q + r, [];
      NoQueue();
    }

    lemma NoQueue()
      ensures IsQueue([], null, null)
    {
    }

    /** THREAD_BUMP on the tails of both queues. */
    method BumpTails()
      requires Valid()
      modifies Last(newQ)`bump, Last(retrigQ)`bump
      ensures Valid()
      ensures forall u :: u in newQ || u in retrigQ ==> (u.bump <==> old(u.bump) || u in Last(newQ) + Last(retrigQ))
    {
      if retrigTail != null {
        assert retrigTail in retrigQ;
        retrigTail.bump := true;
      }
      if newTail != null {
        assert newTail in newQ;
        newTail.bump := true;
      }
    }

    /** THREAD_BUMP on the tail of the new queue: the threads of a rule are behind it. */
    method BumpNew()
      requires Valid()
      modifies Last(newQ)`bump
      ensures Valid()
      ensures forall u :: u in newQ || u in retrigQ ==> (u.bump <==> old(u.bump) || u in Last(newQ))
    {
      if newTail != null {
        assert newTail in newQ;
        newTail.bump := true;
      }
    }

    /** The threads that a passed transition of rule instance inst creates. */
    method CreateThreads(k: nat, inst: nat) returns (ghost created: seq<WaitThread>)
      requires Valid()
      modifies this`newHead, this`newTail, this`newQ, Last(newQ)`next
      ensures Valid() && newQ == old(newQ) + created && |created| == k
      ensures forall u :: u in created ==> fresh(u) && !u.bump && u.inst == inst
      ensures newTail == old(newTail) || (newTail != null && fresh(newTail))
    {
      hide Chain, Distinct, Disjoint;
      created := [];
      var i := 0;
      while i < k
        invariant 0 <= i <= k && |created| == i
        invariant Valid() && newQ == old(newQ) + created
        invariant forall u :: u in created ==> fresh(u) && !u.bump && u.inst == inst
        invariant newTail == old(newTail) || (newTail != null && fresh(newTail))
      {
        var t := new WaitThread(inst);
        Append(t);
        created := created + [t];
        i := i + 1;
      }
    }

    /** Of the threads in the two queues, those of ends bump. */
    ghost predicate Flagged(ends: set<WaitThread>)
      reads this, newQ, retrigQ
    {
      forall u :: u in newQ + retrigQ ==> (u.bump <==> u in ends)
    }

    /** The same, but for the tail of the retrigger list. */
    ghost predicate FlaggedBefore(ends: set<WaitThread>)
      reads this, newQ, retrigQ
    {
      forall u :: u in newQ + retrigQ && u !in Last(retrigQ) ==> (u.bump <==> u in ends)
    }

    method CommitFlagged(ghost ends: set<WaitThread>)
      requires Valid() && FlaggedBefore(ends)
      modifies this`newHead, this`newTail, this`retrigHead, this`retrigTail, this`newQ, this`retrigQ
      modifies Last(newQ), Last(retrigQ)`bump
      ensures Valid() && newQ == old(newQ) + old(retrigQ) && retrigQ == []
      ensures Flagged(ends + Last(old(newQ)) + Last(old(retrigQ)))
    {
      hide Valid;
      Commit();
    }

    /** An initial thread after its evaluation, before it is reaped. */
    method SettleInitial(t: WaitThread, ghost ends: set<WaitThread>)
      requires Valid() && cur != [] && t == cur[0] && Flagged(ends)
      modifies this, Last(newQ), Last(retrigQ), curTail`next
      ensures Valid() && cur == old(cur)[1..]
      ensures (newQ, retrigQ) == if old(t.bump) then (old(newQ) + old(retrigQ), []) else (old(newQ), old(retrigQ))
      ensures Flagged(if old(t.bump) then ends + Last(old(newQ)) + Last(old(retrigQ)) else ends)
      ensures forall u :: u in cur ==> u.bump == old(u.bump)
    {
      hide Chain, Links, Distinct, Disjoint;
      RestApart(t);
      Elsewhere(newQ, cur);
      if t.bump {
        CommitFlagged(ends);
      }
      Drop(t);
    }

    /** Any other thread waits on. */
    method SettleWaiting(t: WaitThread, ghost ends: set<WaitThread>)
      requires Valid() && cur != [] && t == cur[0] && Flagged(ends) && t !in ends
      modifies this, Last(newQ), Last(retrigQ), t
      ensures Valid() && cur == old(cur)[1..]
      ensures (newQ, retrigQ) ==
              if old(t.bump) then (old(newQ) + (old(retrigQ) + [t]), []) else (old(newQ), old(retrigQ) + [t])
      ensures Flagged(if old(t.bump) then ends + Last(old(newQ)) + Last(old(retrigQ) + [t]) else ends)
      ensures forall u :: u in cur ==> u.bump == old(u.bump)
    {
      hide Chain, Links, Distinct, Disjoint;
      RestApart(t);
      Retrigger(t);
      if t.bump {
        CommitFlagged(ends);
      }
    }

    /** After the evaluation of thread t: it is reaped or waits on, and if it bumps the
        queues are committed. */
    method Settle(t: WaitThread, initial: bool, ghost ends: set<WaitThread>) returns (ghost x: Item<WaitThread>)
      requires Valid() && cur != [] && t == cur[0] && Flagged(ends) && t !in ends
      modifies this, Last(newQ), Last(retrigQ), t, curTail`next
      ensures Valid() && cur == old(cur)[1..] && (newQ, retrigQ) == Step(old(newQ), old(retrigQ), x)
      ensures x == Item(t, old(t.bump), Stays(Evaluated(initial, 0)), [])
      ensures Flagged(StepEnds(old(newQ), old(retrigQ), ends, x))
      ensures forall u :: u in cur ==> u.bump == old(u.bump)
    {
      hide Valid, Flagged;
      x := Item(t, t.bump, Stays(Evaluated(initial, 0)), []);
      assert newQ + [] == newQ && retrigQ + [] == retrigQ;
      if initial {
        SettleInitial(t, ends);
      } else {
        SettleWaiting(t, ends);
      }
    }

    lemma TailIn()
      requires Valid() && cur != []
      ensures cur[0] in cur && curTail in cur
    {
    }

    lemma NoneFlagged()
      requires newQ == [] && retrigQ == []
      ensures Flagged({})
    {
    }

    /** A thread that is reaped when the walk meets it. */
    method DropFlagged(t: WaitThread, ghost ends: set<WaitThread>)
      requires Valid() && cur != [] && t == cur[0] && Flagged(ends)
      modifies this`curHead, this`cur, curTail`next
      ensures Valid() && Flagged(ends) && cur == old(cur)[1..]
      ensures forall u :: u in cur ==> u.bump == old(u.bump)
    {
      hide Valid;
      Drop(t);
    }

    /** A thread that is evaluated creates its threads and is then settled. */
    method VisitEvaluated(t: WaitThread, fate: Fate, ghost ends: set<WaitThread>) returns (ghost x: Item<WaitThread>)
      requires Valid() && cur != [] && t == cur[0] && Flagged(ends) && forall u :: u in ends ==> u in newQ
      requires fate.Evaluated?
      modifies this, Last(newQ), Last(retrigQ), t, curTail`next
      ensures Valid() && cur == old(cur)[1..] && (newQ, retrigQ) == Step(old(newQ), old(retrigQ), x)
      ensures Meets(x, t, fate, old(t.bump)) && forall u :: u in x.created ==> fresh(u)
      ensures Flagged(StepEnds(old(newQ), old(retrigQ), ends, x))
      ensures forall u :: u in cur ==> u.bump == old(u.bump)
    {
      hide Chain, Links, Distinct, Disjoint;
      RestApart(t);
      ghost var n := newQ;
      ghost var created := CreateThreads(fate.created, t.inst);
      hide Valid;
      x := Settle(t, fate.initial, ends);
      assert n + created + [] == n + created;
      x := x.(created := created);
    }

    /** The body of the event loop, for a thread that meets this fate. */
    method Visit(t: WaitThread, fate: Fate, ghost ends: set<WaitThread>) returns (ghost x: Item<WaitThread>)
      requires Valid() && cur != [] && t == cur[0] && Flagged(ends) && forall u :: u in ends ==> u in newQ
      modifies this, Last(newQ), Last(retrigQ), t, curTail`next
      ensures Valid() && cur == old(cur)[1..] && (newQ, retrigQ) == Step(old(newQ), old(retrigQ), x)
      ensures Meets(x, t, fate, old(t.bump)) && forall u :: u in x.created ==> fresh(u)
      ensures Flagged(StepEnds(old(newQ), old(retrigQ), ends, x))
      ensures forall u :: u in cur ==> u.bump == old(u.bump)
      ensures forall u :: u in newQ || u in retrigQ ==> u in old(newQ) || u in old(retrigQ) || u == t || fresh(u)
    {
      hide Valid, Flagged;
      if fate.Reaped? {
        x := Item(t, false, false, []);
        assert newQ + [] == newQ && retrigQ + [] == retrigQ;
        DropFlagged(t, ends);
      } else {
        x := VisitEvaluated(t, fate, ends);
      }
    }

    /** The event loop: what it leaves is the regrouping of what it met. */
    method Walk(fates: seq<Fate>) returns (ghost items: seq<Item<WaitThread>>)
      requires Valid() && newQ == [] && retrigQ == [] && curHead == First(cur) && |fates| == |cur|
      modifies this, cur
      ensures Valid() && cur == [] && newQ == NewQueue(items) && retrigQ == RetrigQueue(items)
      ensures Flagged(Ends(items)) && |items| == |fates|
      ensures forall i :: 0 <= i < |items| ==>
                Meets(items[i], old(cur[i]), fates[i], old(cur[i].bump)) &&
                forall u :: u in items[i].created ==> fresh(u)
    {
      hide Valid, NewQueue, RetrigQueue, Ends, Step, StepEnds, Flagged, Meets;
      NoneFlagged();
      NoItems<WaitThread>();
      items := [];
      ghost var all := cur;
      var t, i := curHead, 0;
      while t != null
        invariant 0 <= i <= |all| && |items| == i && cur == all[i..] && t == First(cur)
        invariant Valid() && newQ == NewQueue(items) && retrigQ == RetrigQueue(items) && Flagged(Ends(items))
        invariant forall k :: 0 <= k < i ==>
                    Meets(items[k], all[k], fates[k], old(all[k].bump)) &&
                    forall u :: u in items[k].created ==> fresh(u)
        invariant forall u :: u in cur ==> u.bump == old(u.bump)
        invariant forall u :: u in newQ || u in retrigQ ==> u in all || fresh(u)
        decreases |all| - i
      {
        EndsQueued(items);
        TailIn();
        LastIn(newQ);
        LastIn(retrigQ);
        var next := NextThread(t);
        ghost var x := Visit(t, fates[i], Ends(items));
        NextItem(items, x);
        NextEnds(items, x);
        items := items + [x];
        t, i := next, i + 1;
      }
    }

    /** Following next pointers from a queued thread collects the rest of its queue. */
    method Follow(start: WaitThread) returns (q: seq<WaitThread>)
      requires Valid() && (start in newQ || start in retrigQ || start in cur)
      ensures q == From(cur, start) + From(retrigQ, start) + From(newQ, start)
    {
      ghost var all := if start in newQ then newQ else if start in retrigQ then retrigQ else cur;
      ghost var k :| 0 <= k < |all| && all[k] == start;
      FromQueue(start, all, k);
      q := FollowList(start, all, k);
    }

    lemma FromQueue(start: WaitThread, all: seq<WaitThread>, k: nat)
      requires Valid() && k < |all| && all[k] == start
      requires all == newQ || all == retrigQ || all == cur
      ensures From(cur, start) + From(retrigQ, start) + From(newQ, start) == all[k..] && Links(all)
    {
      FromAt(all, k);
      if start !in newQ {
        FromNone(newQ, start);
      }
      if start !in retrigQ {
        FromNone(retrigQ, start);
      }
      if start !in cur {
        FromNone(cur, start);
      }
    }

    /** The threads that next pointers from start lead to. */
    ghost function FromStart(start: WaitThread?): seq<WaitThread>
      reads this
    {
      if start == null then []
      else
        var t: WaitThread := start;
        From(cur, t) + From(retrigQ, t) + From(newQ, t)
    }

    ghost function Threads(): set<WaitThread>
      reads this
    {
      set t | t in newQ + retrigQ + cur
    }

    /** The queue that a thread is in, and its place there. */
    lemma Place(start: WaitThread) returns (q: seq<WaitThread>, k: nat)
      requires Valid() && start in Threads()
      ensures k < |q| && q[k] == start && Links(q) && Distinct(q) && FromStart(start) == q[k..]
      ensures forall u :: u in q ==> u in Threads()
    {
      q := if start in newQ then newQ else if start in retrigQ then retrigQ else cur;
      k :| 0 <= k < |q| && q[k] == start;
      FromQueue(start, q, k);
    }

    /** The links do not depend on the flags. */
    twostate lemma StaysValid()
      requires old(Valid()) && unchanged(this) && forall u :: u in old(Threads()) ==> u.next == old(u.next)
      ensures Valid()
    {
      hide Links, Distinct, Disjoint;
      LinksStay(newQ);
      LinksStay(retrigQ);
      LinksStay(cur);
    }

    /** One loop of mark_dead_rule, from a thread of any queue or from NULL. */
    method MarkFrom(start: WaitThread?, inst: nat)
      requires Valid() && (start != null ==> start in Threads())
      modifies Threads()`killed
      ensures Valid()
      ensures forall u :: u in Threads() ==> u.killed == (old(u.killed) || (u in FromStart(start) && u.inst == inst))
    {
      hide Valid, Links, Distinct;
      if start != null {
        hide FromStart;
        ghost var q, k := Place(start);
        MarkList(start, inst, q, k, Threads());
        StaysValid();
      }
    }

    /** mark_dead_rule: the threads of a rule instance that are reached from the queue
        head, from the head of the retrigger list, and from the thread under evaluation. */
    method MarkDead(head: WaitThread?, tail: WaitThread?, inst: nat)
      requires Valid() && (head != null ==> head in Threads()) && (tail != null ==> tail in Threads())
      modifies Threads()`killed
      ensures Valid()
      ensures forall u :: u in Threads() ==>
                u.killed == (old(u.killed) || (u in FromStart(head) + retrigQ + FromStart(tail) && u.inst == inst))
    {
      hide Valid, FromStart;
      MarkFrom(head, inst);
      RetrigStart();
      MarkFrom(retrigHead, inst);
      MarkFrom(tail, inst);
    }

    /** The head of the retrigger list leads to all of it. */
    lemma RetrigStart()
      requires Valid()
      ensures retrigHead != null ==> retrigHead in Threads()
      ensures FromStart(retrigHead) == retrigQ
    {
      if retrigQ != [] {
        FromQueue(retrigHead, retrigQ, 0);
      }
    }

    /** next_thread = t->next */
    method NextThread(t: WaitThread) returns (next: WaitThread?)
      requires Valid() && cur != [] && t == cur[0]
      ensures next == First(cur[1..])
    {
      next := t.next;
    }
  }

  predicate Stays(fate: Fate) { fate.Evaluated? && !fate.initial }

  /** Item x records what happened to thread t. */
  ghost predicate Meets(x: Item<WaitThread>, t: WaitThread, fate: Fate, bump: bool) {
    && x.thread == t && x.waits == Stays(fate) && (x.ends <==> fate.Evaluated? && bump)
    && |x.created| == if fate.Evaluated? then fate.created else 0
  }
}
