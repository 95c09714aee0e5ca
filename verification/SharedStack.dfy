/**
 The stack that all guards and actions share, from one call of ovm_exec to the next.
 */
module SharedStack {
  import opened Options
  import opened Ovm
  import opened RuleSource
  import opened StackMeaning
  import opened StackDiscipline
  import opened ActionCorrectness

  /** One call of ovm_exec: the runtime it finds, the environment of the state instance
      and the calls made before it. */
  datatype Execution = Execution(rt: Runtime, x: Program, env: Env, log: seq<Call>)

  /** The stack that calls of ovm_exec, one after the other, leave to the next one;
      None when one of them does not come back. */
  function StackAfter(stack: seq<Slot>, xs: seq<Execution>): Option<seq<Slot>>
    decreases |xs|
  {
    if xs == [] then Some(stack) else
    match Run(xs[0].rt, xs[0].x.Words(xs[0].rt) + [OP_END], Machine(0, stack, xs[0].env, xs[0].log))
    case Halts(m) => StackAfter(Flushed(Rest(m.stack)), xs[1..])
    case _ => None
  }

  /** It is empty whenever ovm_exec is entered, whatever ran before, if the built-ins fit
      their calls. */
  lemma {:induction false} StackStaysEmpty(xs: seq<Execution>)
    requires forall i :: 0 <= i < |xs| ==> xs[i].x.WellFormed(xs[i].rt) && xs[i].x.Fits(xs[i].rt)
    ensures StackAfter([], xs).Some? ==> StackAfter([], xs).value == []
    decreases |xs|
  {
    hide Run, Flushed;
    if xs != [] {
      var s := Store([], xs[0].env, xs[0].log);
      ProgramRuns(xs[0].rt, xs[0].x, s);
      ProgramDiscipline(xs[0].rt, xs[0].x, s);
      StackStaysEmpty(xs[1..]);
    }
  }

  // ----- the flush -----

  /** A NULL slot lies on top of another slot. */
  predicate Shields(stack: seq<Slot>) { exists i :: 0 < i < |stack| && stack[i].None? }

  /** The flush empties a stack if and only if no NULL slot shields another slot. */
  lemma {:induction false} FlushEmpties(stack: seq<Slot>)
    ensures Flushed(stack) == [] <==> !Shields(stack)
    decreases |stack|
  {
    if stack != [] {
      var n := |stack| - 1;
      if stack[n].None? {
        assert n > 0 ==> Shields(stack);
      } else {
        FlushEmpties(stack[..n]);
        assert forall i :: 0 < i < n ==> stack[..n][i] == stack[i];
      }
    }
  }

  /** So after any run of compiled code, whatever its built-ins did, the stack is empty if
      and only if, below the verdict, no NULL slot shields another slot. */
  lemma ExecEmpties(rt: Runtime, x: Program, s: Store)
    requires x.WellFormed(rt)
    ensures var r := Run(rt, x.Words(rt) + [OP_END], Machine(0, s.stack, s.env, s.log));
            r.Halts? ==>
              && x.On(rt, s).Leaves? && r.m.stack == x.On(rt, s).store.stack
              && (Flushed(Rest(r.m.stack)) == [] <==> !Shields(Rest(x.On(rt, s).store.stack)))
  {
    hide Flushed, Shields, Run;
    ProgramRuns(rt, x, s);
    var o := x.On(rt, s);
    if o.Leaves? {
      FlushEmpties(Rest(o.store.stack));
    }
  }

  // ----- an action list that leaves a slot behind -----

  /** issdl_set_shared_var: the name of the variable, and its value only if the name is a
      string. */
  function SetSharedVar(yes: Slot, no: Slot, args: seq<Slot>): Answer {
    if args == [] then Takes
    else if args[0].None? then Aborts
    else if !args[0].value.VStr? then Pushes([no])
    else if |args| == 1 then Takes
    else if args[1].None? then Aborts
    else Pushes([yes])
  }

  /** f is set_shared_var. */
  ghost predicate SetsShared(rt: Runtime, f: int) {
    && rt.most(f) == 2
    && forall log, args {:trigger rt.call(log, f, args)} ::
         rt.call(log, f, args) == SetSharedVar(Some(rt.statics(rt.one)), Some(rt.statics(rt.zero)), args)
  }

  /** set_shared_var(1, x); set_shared_var(1, .g); set_shared_var(1, .g); */
  function Leaky(f: int, number: int, x: int, g: int): seq<Stmt> {
    [Discarded(CallExpr(f, [Const(number), Var(x)])),
     Discarded(CallExpr(f, [Const(number), Field(g)])),
     Discarded(CallExpr(f, [Const(number), Field(g)]))]
  }

  /** The built-in does not fit a call with two parameters: it may answer after one. */
  lemma SetSharedMisfits(rt: Runtime, f: int)
    requires SetsShared(rt, f)
    ensures !Fits(rt, f, 2) && PushesOne(rt, f)
  {
    var args := [Some(VInt(1))];
    assert args[..0] == [];
    assert Asks(rt, f, args, 0, []);
    assert Asked(rt, f, args, []);
    assert Reply(rt, f, args, []) == Pushes([Some(rt.statics(rt.zero))]);
  }

  /** With a name that is a number it takes nothing else. */
  lemma NumberAnswered(rt: Runtime, f: int, number: int, stack: seq<Slot>, log: seq<Call>)
    requires SetsShared(rt, f) && rt.statics(number).VInt?
    ensures var name := Some(rt.statics(number));
            Consult(rt, f, [], log, stack + [name]) == Back([name], [Some(rt.statics(rt.zero))], stack)
  {
    var name := Some(rt.statics(number));
    PushPop(stack, name);
    assert [] + [name] == [name];
    assert Consult(rt, f, [name], log, stack) == Back([name], [Some(rt.statics(rt.zero))], stack);
  }

  lemma TwoParams(rt: Runtime, a: Expr, b: Expr, s: Store)
    ensures ParamsOn(rt, [a, b], s) ==
            var o := EvalOn(rt, b, s); if o.Leaves? then EvalOn(rt, a, o.store) else o
  {
    hide EvalOn;
    assert [a, b][1..] == [b] && [b][1..] == [];
    assert ParamsOn(rt, [b], s) == EvalOn(rt, b, s);
  }

  /** So the value that it was called with stays on the stack. */
  lemma ValueStays(rt: Runtime, f: int, number: int, p: Expr, s: Store)
    requires SetsShared(rt, f) && rt.statics(number).VInt? && Plain(p)
    ensures var o := EvalOn(rt, p, s);
            o.Leaves? && PerformOn(rt, Discarded(CallExpr(f, [Const(number), p])), s)
                         == Leaves(o.store.(log := s.log + [Call(f, [Some(rt.statics(number))])]))
  {
    hide Consult, SetsShared, ParamsOn;
    TwoParams(rt, Const(number), p, s);
    var s1 := EvalOn(rt, p, s).store;
    NumberAnswered(rt, f, number, s1.stack, s.log);
    PushPop(s1.stack, Some(rt.statics(rt.zero)));
  }

  /** After the whole list a NULL slot shields another slot. */
  lemma LeakyRuns(rt: Runtime, f: int, number: int, x: int, g: int, env: Env, log: seq<Call>) returns (log1: seq<Call>)
    requires SetsShared(rt, f) && rt.statics(number).VInt? && g !in rt.fields
    ensures PerformAllOn(rt, Leaky(f, number, x, g), Store([], env, log))
            == Leaves(Store([Some(Lookup(rt, env, x)), None, None], env, log1))
  {
    hide PerformOn, SetsShared;
    var ss, v, c := Leaky(f, number, x, g), Some(Lookup(rt, env, x)), Call(f, [Some(rt.statics(number))]);
    var s0 := Store([], env, log);
    var s1, s2, s3 := Store([v], env, log + [c]), Store([v, None], env, log + [c] + [c]),
                      Store([v, None, None], env, log + [c] + [c] + [c]);
    ValueStays(rt, f, number, Var(x), s0);
    ValueStays(rt, f, number, Field(g), s1);
    ValueStays(rt, f, number, Field(g), s2);
    assert [] + [v] == [v] && [v] + [None] == [v, None] && [v, None] + [None] == [v, None, None];
    assert ss[1..] == [ss[1], ss[2]] && ss[1..][1..] == [ss[2]] && [ss[2]][1..] == [];
    assert PerformAllOn(rt, [ss[2]], s2) == Leaves(s3);
    assert PerformAllOn(rt, ss[1..], s1) == Leaves(s3);
    log1 := s3.log;
  }

  lemma LeakyWellFormed(rt: Runtime, f: int, number: int, x: int, g: int)
    ensures Actions(Leaky(f, number, x, g)).WellFormed(rt)
  {
    forall p: Expr | Plain(p) ensures WellFormedStmt(rt, Discarded(CallExpr(f, [Const(number), p]))) {
      assert WellFormed(CallExpr(f, [Const(number), p]));
    }
  }

  /** ovm_exec leaves the value of x on the shared stack. */
  lemma LeakyLeaves(rt: Runtime, f: int, number: int, x: int, g: int, env: Env, log: seq<Call>)
    requires SetsShared(rt, f) && rt.statics(number).VInt? && g !in rt.fields
    ensures Actions(Leaky(f, number, x, g)).WellFormed(rt)
    ensures StackAfter([], [Execution(rt, Actions(Leaky(f, number, x, g)), env, log)])
            == Some([Some(Lookup(rt, env, x))])
  {
    hide Run, SetsShared, PerformAllOn, Lookup;
    LeakyWellFormed(rt, f, number, x, g);
    var job := Execution(rt, Actions(Leaky(f, number, x, g)), env, log);
    var log1 := LeakyRuns(rt, f, number, x, g, env, log);
    ProgramRuns(rt, job.x, Store([], env, log));
    var v := Some(Lookup(rt, env, x));
    assert Rest([v, None, None]) == [v, None] && Rest([v, None]) == [v];
    assert [job][1..] == [];
  }

  /** The next split that does not match, whatever rule runs it, binds its destination to
      that value, where its source says that it unbinds it. */
  lemma LeakReaches(rt: Runtime, text: int, pattern: int, y: int, v: Slot, env: Env, log: seq<Call>)
    requires BoolStatics(rt) && rt.statics(pattern).VSregex? && rt.statics(pattern).splits == 1
    requires Split(rt, Some(rt.statics(text)), Some(rt.statics(pattern))).NoGroups?
    ensures var split := RegSplit(Const(text), pattern, [y]);
            && PerformOn(rt, split, Store([v], env, log)) == Leaves(Store([], Bind(env, y, v), log))
            && Perform(rt, split, env, log) == Done((), env - {y}, log)
  {
    hide Split;
    var t := Some(rt.statics(text));
    PushPop([v], t);
    PushPop([], v);
    assert [] + [v] == [v] && [y][1..] == [];
    assert Popped([v], 1) == [v] + Popped([], 0);
    assert Remaining([v], 1) == Remaining([], 0);
    assert BindAll(env, [y], [v]) == BindAll(Bind(env, y, v), [], [v][1..]);
    assert (set x | x in [y]) == {y};
  }
}
