/**
 The engine on compiled bytecode: the guards and the actions of the rules are what the
 compiler makes of their sources, and the virtual machine runs them.
 */
module EngineOvm {
  import opened Options
  import Ovm
  import RuleSource
  import CodeShape
  import StackMeaning
  import StackDiscipline
  import CompilerCorrectness
  import ActionCorrectness
  import JumpSafety
  import opened Engine
  import opened EngineInvariants
  import opened EngineRuns
  import opened EngineTheorems

  // ----- the virtual machine as the engine calls it -----

  /** What does not change from event to event: the runtime of every rule, with its
      static environment. */
  datatype World = World(rt: nat -> Ovm.Runtime)

  /** One event for the virtual machine: its fields, what the built-ins do, which threads
      they flag and what the shared stack holds while it is injected, the time, and the
      time-outs. */
  datatype OvmEvent = OvmEvent(
    fields: map<int, Ovm.Value>,
    call: (State, Sid, seq<Ovm.Call>, int, seq<Ovm.Slot>) -> Ovm.Answer,
    kills: (State, Sid, seq<Ovm.Call>) -> set<Tid>,
    stack: (State, Sid) -> seq<Ovm.Slot>,
    now: int, deadline: Tid -> int)

  /** The machine reads the environment that a state instance inherits and the fields of
      the current event.  The built-ins may do anything that depends on the engine. */
  function Machine(w: World, v: OvmEvent, e: State, s: Sid): Ovm.Runtime {
    w.rt(RuleOf(e, s)).(inherit := Get(e.st.inherited, s, map[]), fields := v.fields,
                        call := (log, f, args) => v.call(e, s, log, f, args))
  }

  /** What ovm_exec finds. */
  function Found(v: OvmEvent, e: State, s: Sid): StackMeaning.Store {
    StackMeaning.Store(v.stack(e, s), CurrentEnv(e.st, s), [])
  }

  /** ovm_exec in state instance s. */
  function Exec(w: World, v: OvmEvent, e: State, s: Sid, code: Code): Ovm.RunResult {
    Ovm.Run(Machine(w, v, e, s), code, CompilerCorrectness.Resume(0, Found(v, e, s)))
  }

  /** What a run does to the engine.  A run that does not halt ends the process. */
  function Act(w: World, v: OvmEvent, e: State, s: Sid, code: Code): Effect {
    match Exec(w, v, e, s, code)
    case Halts(m) => Effect(m.env, v.kills(e, s, m.log))
    case _ => Effect(CurrentEnv(e.st, s), {})
  }

  function Test(w: World, v: OvmEvent, e: State, s: Sid, code: Code): Verdict {
    var r := Exec(w, v, e, s, code);
    Verdict(r.Halts? && Ovm.Passes(Ovm.Top(r.m.stack)), Act(w, v, e, s, code))
  }

  function OvmInput(w: World, v: OvmEvent): Input {
    Input((e: State, s: Sid, code: Code) => Act(w, v, e, s, code),
          (e: State, s: Sid, code: Code) => Test(w, v, e, s, code), v.now, v.deadline)
  }

  function Inputs(w: World, events: seq<OvmEvent>): (inputs: seq<Input>)
    ensures |inputs| == |events| && forall i :: 0 <= i < |events| ==> inputs[i] == OvmInput(w, events[i])
  {
    if events == [] then [] else [OvmInput(w, events[0])] + Inputs(w, events[1..])
  }

  // ----- compiled rules -----

  /** code is what the compiler makes of guard ex of rule r. */
  predicate GuardFrom(w: World, r: nat, ex: RuleSource.Expr, code: Code) {
    RuleSource.WellFormed(ex) && code == CodeShape.Code(w.rt(r).one, w.rt(r).zero, ex) + [Ovm.OP_END]
  }

  predicate ActionFrom(w: World, r: nat, ss: seq<RuleSource.Stmt>, code: Code) {
    && (forall i :: 0 <= i < |ss| ==> RuleSource.WellFormedStmt(w.rt(r), ss[i]))
    && code == CodeShape.StmtsCode(w.rt(r).one, w.rt(r).zero, ss) + [Ovm.OP_END]
  }

  /** The guards of rule r are compiled from expressions that do not assign the variables xs. */
  ghost predicate GuardsAvoid(c: Config, w: World, r: nat, xs: iset<int>) {
    forall code: Code {:trigger IsGuard(c, r, code)} :: IsGuard(c, r, code) ==>
      exists ex :: GuardFrom(w, r, ex, code) && RuleSource.Avoids(ex, xs)
  }

  /** No guard contains an assignment. */
  ghost predicate AssignmentFree(c: Config, w: World) {
    forall r: nat :: GuardsAvoid(c, w, r, RuleSource.EVERY_VARIABLE)
  }

  /** The synchronisation variables of a rule. */
  ghost function SyncVars(c: Config, r: nat): iset<int> {
    if r < |c.rules| && c.rules[r].sync.Some? then iset x | x in c.rules[r].sync.value else iset{}
  }

  /** No guard assigns a synchronisation variable of its rule. */
  ghost predicate SyncPreserving(c: Config, w: World) {
    forall r: nat :: GuardsAvoid(c, w, r, SyncVars(c, r))
  }

  /** What a compiled guard decides is what its source says, whatever the shared stack
      holds: it passes exactly if the source value is a non-zero integer. */
  lemma GuardDecides(w: World, v: OvmEvent, e: State, s: Sid, ex: RuleSource.Expr, code: Code)
    requires GuardFrom(w, RuleOf(e, s), ex, code) && RuleSource.BoolStatics(w.rt(RuleOf(e, s)))
    ensures match RuleSource.Eval(Machine(w, v, e, s), ex, CurrentEnv(e.st, s), [])
            case Done(x, env, log) => Test(w, v, e, s, code) == Verdict(Ovm.Passes(x), Effect(env, v.kills(e, s, log)))
            case Faults => Exec(w, v, e, s, code).Crashes?
            case Unspecified => true
  {
    ActionCorrectness.GuardMeaning(Machine(w, v, e, s), ex, Found(v, e, s));
  }

  /** The action of a state that is entered does to the environment of its instance what
      the source statements say, if the shared stack is empty or every split matches. */
  lemma ActionPerforms(w: World, v: OvmEvent, e: State, s: Sid, ss: seq<RuleSource.Stmt>, code: Code)
    requires ActionFrom(w, RuleOf(e, s), ss, code) && RuleSource.BoolStatics(w.rt(RuleOf(e, s)))
    requires v.stack(e, s) == [] || StackMeaning.AllSplitsMatch(Machine(w, v, e, s), ss, CurrentEnv(e.st, s), [])
    ensures match RuleSource.PerformAll(Machine(w, v, e, s), ss, CurrentEnv(e.st, s), [])
            case Done(_, env, log) =>
              && OvmInput(w, v).act(e, s, code) == Effect(env, v.kills(e, s, log))
              && CurrentEnv(Apply(e, s, OvmInput(w, v).act(e, s, code)).st, s) == env
            case Faults => Exec(w, v, e, s, code).Crashes?
            case Unspecified => true
  {
    forall i | 0 <= i < |ss| ensures RuleSource.WellFormedStmt(Machine(w, v, e, s), ss[i]) {
      StmtElsewhere(w.rt(RuleOf(e, s)), Machine(w, v, e, s), ss[i]);
    }
    ActionCorrectness.ActionsMeaning(Machine(w, v, e, s), ss, Found(v, e, s));
  }

  lemma {:induction false} StmtElsewhere(rt: Ovm.Runtime, rt1: Ovm.Runtime, st: RuleSource.Stmt)
    requires rt1.statics == rt.statics && RuleSource.WellFormedStmt(rt, st)
    ensures RuleSource.WellFormedStmt(rt1, st)
    decreases st
  {
    if st.IfStmt? {
      forall i | 0 <= i < |st.thn| ensures RuleSource.WellFormedStmt(rt1, st.thn[i]) {
        StmtElsewhere(rt, rt1, st.thn[i]);
      }
      forall i | 0 <= i < |st.els| ensures RuleSource.WellFormedStmt(rt1, st.els[i]) {
        StmtElsewhere(rt, rt1, st.els[i]);
      }
    }
  }

  /** A guard without required fields decides the same whatever fields the event has. */
  lemma EpsilonVerdictFixed(w: World, v: OvmEvent, fields: map<int, Ovm.Value>, e: State, s: Sid, ex: RuleSource.Expr,
                            code: Code)
    requires GuardFrom(w, RuleOf(e, s), ex, code) && |RuleSource.Fields(ex)| == 0
    ensures Test(w, v.(fields := fields), e, s, code) == Test(w, v, e, s, code)
  {
    var rt := Machine(w, v, e, s);
    JumpSafety.EpsilonIgnoresTheEvent(rt, fields, ex, v.stack(e, s), CurrentEnv(e.st, s), []);
    assert Machine(w, v.(fields := fields), e, s) == rt.(fields := fields);
  }

  // ----- what compiled guards keep -----

  /** Whatever the built-ins do and the shared stack holds, a compiled guard keeps the
      variables that its source does not assign. */
  lemma TestKeeps(c: Config, w: World, xs: iset<int>, v: OvmEvent, e: State, s: Sid, code: Code)
    requires GuardsAvoid(c, w, RuleOf(e, s), xs) && IsGuard(c, RuleOf(e, s), code)
    ensures StackDiscipline.Kept(xs, CurrentEnv(e.st, s), OvmInput(w, v).test(e, s, code).effect.env)
  {
    var ex :| GuardFrom(w, RuleOf(e, s), ex, code) && RuleSource.Avoids(ex, xs);
    ActionCorrectness.GuardKeeps(Machine(w, v, e, s), ex, Found(v, e, s), xs);
  }

  lemma KeptEverywhere(env: Ovm.Env, env1: Ovm.Env)
    requires StackDiscipline.Kept(RuleSource.EVERY_VARIABLE, env, env1)
    ensures env1 == env
  {
    forall x: int ensures (x in env1 <==> x in env) && (x in env ==> env1[x] == env[x]) {
      assert x in RuleSource.EVERY_VARIABLE;
    }
    assert env1.Keys == env.Keys;
  }

  /** Guards without assignments meet what the environment cache asks of them. */
  lemma CompiledGuardsObey(c: Config, w: World, v: OvmEvent)
    requires AssignmentFree(c, w)
    ensures Obeys(c, ENVS, OvmInput(w, v))
  {
    var inp := OvmInput(w, v);
    forall e: State, s: Sid, code: Code | IsGuard(c, RuleOf(e, s), code)
      ensures inp.test(e, s, code).effect.env == CurrentEnv(e.st, s)
    {
      TestKeeps(c, w, RuleSource.EVERY_VARIABLE, v, e, s, code);
      KeptEverywhere(CurrentEnv(e.st, s), inp.test(e, s, code).effect.env);
    }
  }

  lemma {:induction false} SyncKeyKept(vars: seq<int>, current: Ovm.Env, current1: Ovm.Env, inherited: Ovm.Env)
    requires StackDiscipline.Kept((iset x | x in vars), current, current1)
    ensures SyncKey(current1, inherited, vars) == SyncKey(current, inherited, vars)
    decreases |vars|
  {
    if vars != [] {
      assert vars[0] in (iset x | x in vars);
      SyncKeyKept(vars[1..], current, current1, inherited);
    }
  }

  /** Guards that do not assign synchronisation variables meet what the locks ask of them. */
  lemma CompiledGuardsKeepKeys(c: Config, w: World, v: OvmEvent)
    requires SyncPreserving(c, w) && Equivalence(c.same)
    ensures Obeys(c, LOCKS, OvmInput(w, v))
  {
    var inp := OvmInput(w, v);
    forall e: State, s: Sid, code: Code | IsGuard(c, RuleOf(e, s), code)
      ensures Keys(c, e.(st := SetEnv(e.st, s, inp.test(e, s, code).effect.env)))(s) == Keys(c, e)(s)
    {
      var r := RuleOf(e, s);
      TestKeeps(c, w, SyncVars(c, r), v, e, s, code);
      if r < |c.rules| && c.rules[r].sync.Some? {
        SyncKeyKept(c.rules[r].sync.value, CurrentEnv(e.st, s), inp.test(e, s, code).effect.env,
                    Get(e.st.inherited, s, map[]));
      }
    }
  }

  /** Guards without assignments are among them. */
  lemma AssignmentFreePreserves(c: Config, w: World)
    requires AssignmentFree(c, w)
    ensures SyncPreserving(c, w)
  {
    forall r: nat, code: Code | IsGuard(c, r, code)
      ensures exists ex :: GuardFrom(w, r, ex, code) && RuleSource.Avoids(ex, SyncVars(c, r))
    {
      assert GuardsAvoid(c, w, r, RuleSource.EVERY_VARIABLE);
      var ex :| GuardFrom(w, r, ex, code) && RuleSource.Avoids(ex, RuleSource.EVERY_VARIABLE);
      AvoidsFewer(ex, RuleSource.EVERY_VARIABLE, SyncVars(c, r));
    }
  }

  lemma {:induction false} AvoidsFewer(ex: RuleSource.Expr, xs: iset<int>, ys: iset<int>)
    requires RuleSource.Avoids(ex, xs) && ys <= xs
    ensures RuleSource.Avoids(ex, ys)
    decreases ex
  {
    match ex
    case Const(_) =>
    case Var(_) =>
    case Field(_) =>
    case CallExpr(_, ps) =>
      forall i | 0 <= i < |ps| ensures RuleSource.Avoids(ps[i], ys) {
        AvoidsFewer(ps[i], xs, ys);
      }
    case BinOp(_, l, r) => AvoidsFewer(l, xs, ys); AvoidsFewer(r, xs, ys);
    case Cond(_, l, r) => AvoidsFewer(l, xs, ys); AvoidsFewer(r, xs, ys);
    case AndAnd(l, r) => AvoidsFewer(l, xs, ys); AvoidsFewer(r, xs, ys);
    case OrOr(l, r) => AvoidsFewer(l, xs, ys); AvoidsFewer(r, xs, ys);
    case Assoc(_, e1) => AvoidsFewer(e1, xs, ys);
  }

  // ----- whole runs -----

  /** e is what compiled rules reach over the events. */
  ghost predicate RunsTo(c: Config, w: World, events: seq<OvmEvent>, e: State) {
    WellFormed(c) && Injects(c, Inputs(w, events), EMPTY) == Some(e)
  }

  lemma CompiledReached(c: Config, h: Claims, w: World, events: seq<OvmEvent>, e: State)
    requires RunsTo(c, w, events, e) && forall v: OvmEvent :: Obeys(c, h, OvmInput(w, v))
    ensures Reached(c, h, e)
  {
    hide Obeys;
    var inputs := Inputs(w, events);
    forall i | 0 <= i < |inputs| ensures Obeys(c, h, inputs[i]) {
      assert inputs[i] == OvmInput(w, events[i]);
    }
  }

  /** Rules whose guards contain no assignment, over any sequence of events: a variable
      lookup in any live state instance finds the nearest binding on the way up to the
      initial state. */
  lemma CompiledRunsCache(c: Config, w: World, events: seq<OvmEvent>, e: State, s: Sid, x: int)
    requires RunsTo(c, w, events, e) && AssignmentFree(c, w) && s in e.st.rid
    ensures Lookup(e.st, s, x) == Nearest(e.st, s, x)
  {
    hide Obeys, AssignmentFree, Reached, RunsTo;
    forall v: OvmEvent ensures Obeys(c, ENVS, OvmInput(w, v)) {
      CompiledGuardsObey(c, w, v);
    }
    CompiledReached(c, ENVS, w, events, e);
    EnvironmentsCached(c, e, s, x);
  }

  /** Rules whose guards assign no synchronisation variable, over any sequence of events:
      two waiting threads with equal keys are in one rule instance, which holds the lock. */
  lemma CompiledLocksExclude(c: Config, w: World, events: seq<OvmEvent>, e: State, t: Tid, u: Tid)
    requires RunsTo(c, w, events, e) && SyncPreserving(c, w) && Equivalence(c.same)
    requires t in Queue(e.th) && t !in e.th.onlyOnce && u in Queue(e.th) && u !in e.th.onlyOnce
    requires Matches(c.same, Keys(c, e)(SidOf(e.th, t)), Keys(c, e)(SidOf(e.th, u)))
    ensures RidOf(e.st, SidOf(e.th, t)) == RidOf(e.st, SidOf(e.th, u))
    ensures exists l :: l in e.table && RidOf(e.st, l) == RidOf(e.st, SidOf(e.th, t)) &&
                        Matches(c.same, Keys(c, e)(l), Keys(c, e)(SidOf(e.th, t)))
  {
    CompiledLocksReached(c, w, events, e);
    LocksExclude(c, e, t, u);
  }

  lemma CompiledLocksUnique(c: Config, w: World, events: seq<OvmEvent>, e: State, l: Sid, k: Sid)
    requires RunsTo(c, w, events, e) && SyncPreserving(c, w) && Equivalence(c.same)
    requires l in e.table && k in e.table
    ensures Matches(c.same, Keys(c, e)(l), Keys(c, e)(k)) ==> l == k
    ensures l in e.st.rid && e.st.rid[l] in e.ri.locks && l in e.ri.locks[e.st.rid[l]]
  {
    CompiledLocksReached(c, w, events, e);
    LocksUnique(c, e, l, k);
  }

  lemma CompiledLocksReached(c: Config, w: World, events: seq<OvmEvent>, e: State)
    requires RunsTo(c, w, events, e) && SyncPreserving(c, w) && Equivalence(c.same)
    ensures Reached(c, LOCKS, e)
  {
    hide Obeys, SyncPreserving, Reached, RunsTo;
    forall v: OvmEvent ensures Obeys(c, LOCKS, OvmInput(w, v)) {
      CompiledGuardsKeepKeys(c, w, v);
    }
    CompiledReached(c, LOCKS, w, events, e);
  }
}
