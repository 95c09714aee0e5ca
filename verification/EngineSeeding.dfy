/**
 When the initial simulation of a rule can free an instance under its own threads: a
 condition on the states and transitions of the rule, which EngineScripts proves exact.
 */
module EngineSeeding {
  import opened Options
  import opened Ovm
  import opened Engine
  import opened EngineInvariants
  import opened EngineUpdates
  import opened EngineSimulation
  import opened EngineRuns
  import EngineTheorems

  /** What the result of a simulation announces: success without or with threads, or a
      terminal or pruned state before or after the first thread. */
  datatype Fate = Quiet | Busy | Fails | Late

  function FateOf(ret: int): Fate {
    if ret == 0 then Quiet else if ret > 0 then Busy else if ret == -1 then Fails else Late
  }

  /** Whether the transitions of state d allow fate f, for some outcome of the tests on
      the way.  The lock test of a synchronised rule may prune any state. */
  ghost predicate Can(c: Config, r: nat, d: nat, f: Fate)
    requires WellFormed(c) && r < |c.rules| && d < |c.rules[r].states|
    decreases c.rank(r, d), |c.rules[r].states[d].trans| + 1
  {
    if c.rules[r].states[d].trans == [] then f == Fails
    else (f == Fails && c.rules[r].sync.Some?) || CanFrom(c, r, d, 0, false, f)
  }

  /** The same from transition t on; busy says that a thread has been queued.  A tested
      epsilon transition may be skipped; an unconditional one is passed, so that what
      stands behind it is reached only if its destination can succeed. */
  ghost predicate CanFrom(c: Config, r: nat, d: nat, t: nat, busy: bool, f: Fate)
    requires WellFormed(c) && r < |c.rules| && d < |c.rules[r].states| && t <= |c.rules[r].states[d].trans|
    decreases c.rank(r, d), |c.rules[r].states[d].trans| - t
  {
    assert WellFormedRule(c, r);
    var trans := c.rules[r].states[d].trans;
    if t == |trans| then f == if busy then Busy else Quiet
    else match trans[t]
      case Expect(_, _) => CanFrom(c, r, d, t + 1, true, f)
      case Epsilon(dest, test) =>
        || (test.Some? && CanFrom(c, r, d, t + 1, busy, f))
        || (Can(c, r, dest, Quiet) && CanFrom(c, r, d, t + 1, busy, f))
        || (Can(c, r, dest, Busy) && CanFrom(c, r, d, t + 1, true, f))
        || (Can(c, r, dest, Fails) && f == if busy then Late else Fails)
        || (Can(c, r, dest, Late) && f == Late)
  }

  /** No rule can fail after it has queued a thread. */
  ghost predicate Safe(c: Config)
    requires WellFormed(c)
  {
    forall r: nat {:trigger WellFormedRule(c, r)} :: r < |c.rules| ==> WellFormedRule(c, r) && !Can(c, r, 0, Late)
  }

  // ----- whatever the bytecode does, a simulation meets a fate that its rule allows -----

  lemma Unsynchronised(c: Config, e: State, s: Sid, r: nat, d: nat, once: bool)
    requires r < |c.rules| && c.rules[r].sync.None? && At(e, s, r, d)
    ensures CheckLock(c, e, s, once) == Some(e)
  {
  }

  lemma {:induction false} SimulateCan(c: Config, inp: Input, e: State, s: Sid, r: nat, d: nat, once: bool, x: set<Rid>)
    requires WellFormed(c) && r < |c.rules| && d < |c.rules[r].states|
    requires Inv(c, ANY, e, x) && At(e, s, r, d) && Blank(ANY, e, s)
    ensures Can(c, r, d, FateOf(Simulate(c, inp, e, s, r, d, once).1))
    decreases c.rank(r, d), |c.rules[r].states[d].trans| + 1
  {
    hide Inv, Extends, Apply, CheckLock, SimulateFrom, CanFrom;
    var def := c.rules[r].states[d];
    var e1 := if def.action.Some? then Apply(e, s, inp.act(e, s, def.action.value)) else e;
    ActionKeeps(c, ANY, inp, e, s, def.action, x);
    AtExtends(e, e1, s, s, 0, r, d);
    if def.trans != [] {
      if c.rules[r].sync.None? {
        Unsynchronised(c, e1, s, r, d, once);
      }
      if CheckLock(c, e1, s, once).Some? {
        LockKeeps(c, ANY, inp, e, e1, s, r, d, once, x);
        SimulateFromCan(c, inp, CheckLock(c, e1, s, once).value, s, r, d, once, 0, 0, x);
      }
    }
  }

  lemma {:induction false} SimulateFromCan(c: Config, inp: Input, e: State, s: Sid, r: nat, d: nat, once: bool,
                                           t: nat, created: nat, x: set<Rid>)
    requires WellFormed(c) && r < |c.rules| && d < |c.rules[r].states| && t <= |c.rules[r].states[d].trans|
    requires Inv(c, ANY, e, x) && At(e, s, r, d)
    ensures CanFrom(c, r, d, t, created > 0, FateOf(SimulateFrom(c, inp, e, s, r, d, once, t, created).1))
    decreases c.rank(r, d), |c.rules[r].states[d].trans| - t
  {
    hide Inv, Extends, Apply, NewThread, NewState, Simulate, EpsilonVerdict, At, Can;
    var trans := c.rules[r].states[d].trans;
    if t < |trans| {
      assert WellFormedRule(c, r);
      if trans[t].Expect? {
        ThreadKeeps(c, ANY, inp, e, s, r, d, once, t, x);
        SimulateFromCan(c, inp, NewThread(inp, e, s, t, once), s, r, d, once, t + 1, created + 1, x);
      } else {
        var v := EpsilonVerdict(inp, e, s, trans[t].test);
        var e1 := Apply(e, s, v.effect);
        GuardOf(c, r, d, t);
        TestDone(c, ANY, inp, e, s, r, d, trans[t].test, once, x);
        if v.passed {
          var dest := trans[t].dest;
          var (e2, ret) := Simulate(c, inp, NewState(e1, s, dest), e1.st.next, r, dest, once);
          EnterKeeps(c, ANY, e1, s, r, d, dest, once, x);
          SimulateCan(c, inp, NewState(e1, s, dest), e1.st.next, r, dest, once, x);
          if ret >= 0 {
            PassedKeeps(c, ANY, inp, e1, s, r, d, t, once, x);
            SimulateFromCan(c, inp, e2, s, r, d, once, t + 1, created + ret, x);
          }
        } else {
          VerdictTested(inp, e, s, trans[t].test);
          SimulateFromCan(c, inp, e1, s, r, d, once, t + 1, created, x);
        }
      }
    }
  }

  lemma VerdictTested(inp: Input, e: State, s: Sid, test: Option<Code>)
    ensures !EpsilonVerdict(inp, e, s, test).passed ==> test.Some?
  {
  }

  lemma {:induction false} SeedAllSucceeds(c: Config, inp: Input, e: State, r: nat)
    requires WellFormed(c) && Safe(c) && r <= |c.rules| && Inv(c, ANY, e, {})
    ensures SeedAll(c, inp, e, r).Some?
    decreases |c.rules| - r
  {
    hide Inv, Can, NewInstance, Simulate, At;
    if r < |c.rules| {
      assert WellFormedRule(c, r);
      SeedCan(c, inp, e, r);
      SeedRuleKeeps(c, ANY, inp, e, r);
      SeedAllSucceeds(c, inp, SeedRule(c, inp, e, r).0, r + 1);
    }
  }

  lemma SeedCan(c: Config, inp: Input, e: State, r: nat)
    requires WellFormed(c) && r < |c.rules| && WellFormedRule(c, r) && Inv(c, ANY, e, {})
    ensures Can(c, r, 0, FateOf(SeedRule(c, inp, e, r).1))
  {
    hide Inv, Can, NewInstance, Simulate, At;
    NewInstanceKeeps(c, ANY, e, r);
    NewInstanceBlank(c, ANY, e, r);
    SimulateCan(c, inp, NewInstance(e, r), e.st.next, r, 0, true, {e.ri.next});
  }

  /** Safe rules, synchronised or not, never make the engine dangle, in any run, whatever
      the bytecode does. */
  lemma {:induction false} SafeRunsSucceed(c: Config, inputs: seq<Input>, e: State)
    requires WellFormed(c) && Safe(c) && Resting(c, ANY, e)
    ensures Injects(c, inputs, e).Some?
    decreases |inputs|
  {
    hide Inv, Safe, SeedAll, EvtLoop;
    if inputs != [] {
      BeginKeeps(c, ANY, e);
      SeedAllSucceeds(c, inputs[0], e.(ev := Begin(e.ev)), 0);
      InjectKeeps(c, ANY, inputs[0], e);
      SafeRunsSucceed(c, inputs[1..], Inject(c, inputs[0], e).value);
    }
  }

  /** So every run of safe rules reaches a state of which EngineTheorems.NoDangling speaks. */
  lemma SafeRunsReach(c: Config, inputs: seq<Input>)
    requires WellFormed(c) && Safe(c)
    ensures Injects(c, inputs, EMPTY).Some? && EngineTheorems.Reached(c, ANY, Injects(c, inputs, EMPTY).value)
  {
    hide Safe, Injects;
    EmptyRests(c, ANY);
    SafeRunsSucceed(c, inputs, EMPTY);
    assert forall i :: 0 <= i < |inputs| ==> Obeys(c, ANY, inputs[i]);
  }

  // ----- a rule that dangles -----

  /** State 0 waits on an event and, unconditionally, enters state 1, which is terminal. */
  function Hasty(): Rule {
    var waits := Expect(1, [OP_PUSHFIELD, 0, OP_END]);
    Rule([StateDef(None, [waits, Epsilon(1, None)], false), StateDef(None, [], false)], None)
  }

  const HASTY := Config([Hasty()], (r, d) => if d == 0 then 1 else 0, (v, w) => v == w)

  lemma HastyWellFormed()
    ensures WellFormed(HASTY)
  {
    assert HASTY.rules[0] == Hasty();
    assert WellFormedRule(HASTY, 0);
  }

  /** One thread is queued, and then the simulation fails. */
  lemma HastyReturns(inp: Input, e: State, s: Sid)
    requires WellFormed(HASTY) && At(e, s, 0, 0)
    ensures Simulate(HASTY, inp, e, s, 0, 0, true).1 == -2
  {
    hide NewThread, NewState, Apply, WellFormed, CheckLock;
    var e1 := NewThread(inp, e, s, 0, true);
    var e2 := NewState(Apply(e1, s, Effect(CurrentEnv(e1.st, s), {})), s, 1);
    assert HASTY.rules[0] == Hasty();
    Unsynchronised(HASTY, e, s, 0, 0, true);
    assert Simulate(HASTY, inp, e2, Apply(e1, s, Effect(CurrentEnv(e1.st, s), {})).st.next, 0, 1, true).1 == -1;
    assert SimulateFrom(HASTY, inp, e1, s, 0, 0, true, 1, 1).1 == -2;
  }

  /** The first event already leaves a thread whose state instance was freed. */
  lemma HastyDangles(inp: Input)
    ensures WellFormed(HASTY) && Inject(HASTY, inp, EMPTY).None?
    ensures Dangles(SeedRule(HASTY, inp, EMPTY.(ev := Begin(EMPTY.ev)), 0).0)
  {
    hide Inv, Simulate, NewInstance, SeedRule;
    var e := EMPTY.(ev := Begin(EMPTY.ev));
    HastyWellFormed();
    EmptyRests(HASTY, ANY);
    BeginKeeps(HASTY, ANY, EMPTY);
    NewInstanceBlank(HASTY, ANY, e, 0);
    HastyReturns(inp, NewInstance(e, 0), e.st.next);
    HastySeeds(inp, e);
    SeedRuleKeeps(HASTY, ANY, inp, e, 0);
  }

  lemma HastySeeds(inp: Input, e: State)
    requires WellFormed(HASTY) && Simulate(HASTY, inp, NewInstance(e, 0), e.st.next, 0, 0, true).1 == -2
    ensures SeedRule(HASTY, inp, e, 0).1 == -2
  {
    hide Simulate, NewInstance, WellFormed;
  }
}
