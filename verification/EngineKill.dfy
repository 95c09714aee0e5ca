/**
 The kill_threads built-in: which threads of a rule instance it reaches depends on where
 the head of the current queue has gone (src/lang.c, issdl_kill_threads).
 */
module EngineKill {
  import opened Options
  import QueueOrder
  import opened Engine
  import opened EngineInvariants
  import opened EngineUpdates
  import opened EngineFreeing
  import opened EngineSimulation
  import opened EngineRuns
  import opened EngineQueues
  import EngineCut

  /** The threads that the kill_threads built-in flags when bytecode of state instance s
      calls it: those of its rule instance that next pointers lead to from the head of
      the current queue, initial threads included. */
  ghost function RuleKills(e: State, s: Sid): set<Tid> {
    set t | t in Chain(e.th, e.th.head) && RidOf(e.st, SidOf(e.th, t)) == RidOf(e.st, s)
  }

  lemma ChainQueued(th: Threads, start: Option<Tid>)
    requires Queued(th)
    ensures forall t :: t in Chain(th, start) ==> t in th.sid
  {
    if start.Some? {
      FromWithin(th.cur, start.value);
      FromWithin(th.retrigQ, start.value);
      FromWithin(th.newQ, start.value);
      forall t | t in Chain(th, start) ensures t in th.sid {
        assert t in Queue(th);
        InQueue(th, t);
      }
    }
  }

  lemma {:induction false} FromWithin(q: seq<Tid>, x: Tid)
    ensures forall t :: t in QueueOrder.From(q, x) ==> t in q
  {
    if q != [] && q[0] != x {
      FromWithin(q[1..], x);
    }
  }

  /** As an effect of bytecode, kill_threads kills exactly those and keeps every invariant. */
  lemma KillThreadsEffect(c: Config, h: Claims, e: State, x: set<Rid>, s: Sid)
    requires Inv(c, h, e, x) && s in e.st.rid
    ensures var e1 := Apply(e, s, Effect(CurrentEnv(e.st, s), RuleKills(e, s)));
            && Inv(c, h, e1, x)
            && forall t :: t in e1.th.killed <==>
                 t in e.th.killed || (t in Chain(e.th, e.th.head) && RidOf(e.st, SidOf(e.th, t)) == RidOf(e.st, s))
  {
    hide Chain;
    ChainQueued(e.th, e.th.head);
    hide Inv;
    EngineCut.SameEnv(c, e, s);
    ApplyKeeps(c, h, e, s, Effect(CurrentEnv(e.st, s), RuleKills(e, s)), x);
  }

  /** The head of the current queue is the thread that is met next, or a thread that was
      met and waits in another queue. */
  ghost predicate HeadFits(th: Threads) {
    th.cur != [] ==> th.head.Some? && (th.head.value == th.cur[0] || th.head.value !in th.cur)
  }

  lemma EvaluatedHead(a: State, b: State)
    requires Evaluated(a, b)
    ensures b.th.head == a.th.head && b.th.cur == a.th.cur
  {
  }

  lemma SettledHead(c: Config, e: State)
    requires e.th.cur != [] && (e.th.head == Some(e.th.cur[0]) ==> e.th.cur[0] !in e.th.cur[1..])
    requires HeadFits(e.th)
    ensures HeadFits(Settle(c, e).th)
  {
    hide Reap;
    var t := e.th.cur[0];
    var th1 := if t in e.th.onlyOnce then Kill(e.th, {t}) else Retrig(e.th);
    var e1 := e.(th := if t in e.th.bump then Commit(th1) else th1);
    if t in e.th.onlyOnce {
      ReapCurrent(c, e1);
    }
  }

  /** One turn of the loop. */
  lemma HeadStays(c: Config, h: Claims, inp: Input, e: State)
    requires WellFormed(c) && Inv(c, h, e, {}) && Obeys(c, h, inp) && e.th.cur != [] && HeadFits(e.th)
    ensures HeadFits(Visit(c, inp, e).th)
  {
    hide Inv, Obeys, Reap, Evaluate, Settle, Evaluated;
    var e1 := e.(th := Arrive(inp, e.th));
    ArriveKeeps(c, h, inp, e);
    InvDistinct(c, h, e, {});
    MetOnce(e.th.newQ, e.th.retrigQ, e.th.cur);
    if e1.th.cur[0] in e1.th.killed {
      ReapCurrent(c, e1);
    } else {
      EvaluateKeeps(c, h, inp, e1);
      EvaluatedHead(e1, Evaluate(c, inp, e1));
      SettledHead(c, Evaluate(c, inp, e1));
    }
  }

  lemma MetOnce(newQ: seq<Tid>, retrigQ: seq<Tid>, cur: seq<Tid>)
    requires Distinct(newQ + retrigQ + cur) && cur != []
    ensures cur[0] !in cur[1..]
  {
    var q := newQ + retrigQ + cur;
    forall i | 1 <= i < |cur| ensures cur[i] != cur[0] {
      assert q[|newQ| + |retrigQ| + i] == cur[i] && q[|newQ| + |retrigQ|] == cur[0];
    }
  }

  /** So it is at every point of a walk. */
  lemma {:induction false} HeadFitsAlong(c: Config, h: Claims, inp: Input, e: State, n: nat)
    requires WellFormed(c) && Inv(c, h, e, {}) && Obeys(c, h, inp) && n <= |e.th.cur| && HeadFits(e.th)
    ensures var f := EvtLoop(c, inp, e, n); Inv(c, h, f, {}) && HeadFits(f.th)
    decreases n
  {
    hide Inv, Obeys, Visit;
    if n > 0 {
      HeadStays(c, h, inp, e);
      VisitKeeps(c, h, inp, e);
      HeadFitsAlong(c, h, inp, Visit(c, inp, e), n - 1);
    }
  }

  /** Whenever an event has made n turns of its loop and is to meet another thread:
      while that thread is the head of the current queue, kill_threads kills all threads
      of the rule instance that are still to be met, and no others; once the head waits
      elsewhere, it kills none of them. */
  lemma KillThreadsReach(c: Config, h: Claims, inp: Input, e: State, n: nat, s: Sid)
    requires WellFormed(c) && Resting(c, h, e) && Obeys(c, h, inp) && Inject(c, inp, e).Some?
    requires n < |Start(c, inp, e).th.cur|
    ensures var f := EvtLoop(c, inp, Start(c, inp, e), n);
            var met := set t | t in f.th.cur && RidOf(f.st, SidOf(f.th, t)) == RidOf(f.st, s);
            && f.th.cur != []
            && (f.th.head == Some(f.th.cur[0]) ==> RuleKills(f, s) == met)
            && (f.th.head != Some(f.th.cur[0]) ==> RuleKills(f, s) !! met)
  {
    hide Inv, Obeys, SeedAll, EvtLoop, RuleKills;
    StartKeeps(c, h, inp, e);
    var e2 := Start(c, inp, e);
    EvtLoopKeeps(c, h, inp, e2, n);
    HeadFitsAlong(c, h, inp, e2, n);
    HeadReach(c, h, EvtLoop(c, inp, e2, n), {}, s);
  }

  lemma HeadReach(c: Config, h: Claims, e: State, x: set<Rid>, s: Sid)
    requires Inv(c, h, e, x) && e.th.cur != [] && HeadFits(e.th)
    ensures var met := set t | t in e.th.cur && RidOf(e.st, SidOf(e.th, t)) == RidOf(e.st, s);
            && (e.th.head == Some(e.th.cur[0]) ==> RuleKills(e, s) == met)
            && (e.th.head != Some(e.th.cur[0]) ==> RuleKills(e, s) !! met)
  {
    hide RidOf;
    var u := e.th.head.value;
    InvDistinct(c, h, e, x);
    hide Inv;
    QueuesApart(e.th.newQ, e.th.retrigQ, e.th.cur);
    if u == e.th.cur[0] {
      assert u in e.th.cur;
      QueueOrder.FromNone(e.th.retrigQ, u);
      QueueOrder.FromNone(e.th.newQ, u);
    } else {
      QueueOrder.FromNone(e.th.cur, u);
      FromWithin(e.th.retrigQ, u);
      FromWithin(e.th.newQ, u);
    }
  }

  lemma QueuesApart(newQ: seq<Tid>, retrigQ: seq<Tid>, cur: seq<Tid>)
    requires Distinct(newQ + retrigQ + cur)
    ensures forall t :: t in cur ==> t !in newQ && t !in retrigQ
  {
    var q := newQ + retrigQ + cur;
    forall t | t in cur ensures t !in newQ && t !in retrigQ {
      var k :| 0 <= k < |cur| && cur[k] == t;
      assert q[|newQ| + |retrigQ| + k] == t;
      assert forall i :: 0 <= i < |newQ| ==> newQ[i] == q[i];
      assert forall i :: 0 <= i < |retrigQ| ==> retrigQ[i] == q[|newQ| + i];
    }
  }
}
